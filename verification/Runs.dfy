/** Putting runs of the system together. */
module Runs {
  import opened Protocol

  /** The actions lead from s to t. */
  ghost predicate Leads(s: State, acts: seq<Action>, t: State) { CanRun(s, acts) && After(s, acts) == t }

  lemma Stay(s: State)
    ensures Leads(s, [], s)
  {
  }

  lemma StepThen(s: State, a: Action, mid: State, rest: seq<Action>, t: State)
    requires Enabled(s, a) && Apply(s, a) == mid && Leads(mid, rest, t)
    ensures Leads(s, [a] + rest, t)
  {
    assert ([a] + rest)[0] == a && ([a] + rest)[1..] == rest;
  }

  lemma LeadsAppend(s: State, a: seq<Action>, mid: State, b: seq<Action>, t: State)
    requires Leads(s, a, mid) && Leads(mid, b, t)
    ensures Leads(s, a + b, t)
  {
    RunAppend(s, a, b);
  }

  lemma {:induction false} RunAppend(s: State, a: seq<Action>, b: seq<Action>)
    requires CanRun(s, a) && CanRun(After(s, a), b)
    ensures CanRun(s, a + b) && After(s, a + b) == After(After(s, a), b)
    decreases |a|
  {
    if a == [] {
      assert a + b == b;
    } else {
      assert (a + b)[1..] == a[1..] + b;
      RunAppend(Apply(s, a[0]), a[1..], b);
    }
  }

  /** One more step. */
  lemma Extend(s: State, acts: seq<Action>, mid: State, a: Action)
    requires Leads(s, acts, mid) && Enabled(mid, a)
    ensures Leads(s, acts + [a], Apply(mid, a))
  {
    Stay(Apply(mid, a));
    StepThen(mid, a, Apply(mid, a), [], Apply(mid, a));
    LeadsAppend(s, acts, mid, [a] + [], Apply(mid, a));
    assert [a] + [] == [a];
  }
}
