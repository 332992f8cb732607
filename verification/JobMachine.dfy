/** The simple machine that one job is meant to be, a table of such machines, and what every run of the
    table satisfies. Nothing here knows about leases, intents, streams or workers. */
module JobMachine {
  import opened Tables

  datatype View = View(generation: int, status: Status, attempts: int, budget: int)

  datatype Move = Begin | Retry | Complete | Bury | Exhaust | Restart

  predicate Legal(a: View, m: Move, b: View) {
    match m
    case Begin => Live(a.status) && a.attempts <= a.budget && b == a.(status := Processing, attempts := a.attempts + 1)
    case Retry => a.status == Processing && a.attempts <= a.budget && b == a.(status := Pending)
    case Complete => a.status == Processing && b == a.(status := Completed)
    case Bury => a.status == Processing && b == a.(status := Dead)
    case Exhaust => Live(a.status) && a.attempts == a.budget + 1 && b == a.(status := Dead)
    case Restart =>
      (a.status == Dead || a.status == Failed)
      && b == a.(generation := a.generation + 1, status := Pending, attempts := 0)
  }

  type Board = map<JobId, View>

  datatype Step = Stutter | New(id: JobId, budget: int) | Moved(id: JobId, move: Move)

  predicate Next(m: Board, step: Step, m': Board) {
    match step
    case Stutter => m' == m
    case New(id, budget) => id !in m && budget >= 0 && m' == m[id := View(1, Pending, 0, budget)]
    case Moved(id, move) => id in m && id in m' && m' == m[id := m'[id]] && Legal(m[id], move, m'[id])
  }

  /** A run of the table: the boards it goes through. */
  predicate Path(boards: seq<Board>, steps: seq<Step>) {
    |boards| == |steps| + 1 && forall i :: 0 <= i < |steps| ==> Next(boards[i], steps[i], boards[i + 1])
  }

  lemma PathMore(m: Board, step: Step, boards: seq<Board>, steps: seq<Step>)
    requires Path(boards, steps) && Next(m, step, boards[0])
    ensures Path([m] + boards, [step] + steps)
  {
    var bs, ss := [m] + boards, [step] + steps;
    forall i | 0 <= i < |ss|
      ensures Next(bs[i], ss[i], bs[i + 1])
    {
      if i > 0 { assert Next(boards[i - 1], steps[i - 1], boards[i]); }
    }
  }

  function Count(steps: seq<Step>, id: JobId): nat {
    if steps == [] then 0 else Count(steps[1..], id) + if steps[0].Moved? && steps[0].id == id then 1 else 0
  }

  function CountOf(steps: seq<Step>, id: JobId, move: Move): nat {
    if steps == [] then 0 else CountOf(steps[1..], id, move) + if steps[0] == Moved(id, move) then 1 else 0
  }

  predicate Sound(v: View) { v.budget >= 0 && 0 <= v.attempts <= v.budget + 1 && v.generation >= 1 }

  /** How many moves a job can still make in its generation. */
  function Remaining(v: View): int {
    match v.status
    case Pending => 2 * (v.budget + 1 - v.attempts) + if v.attempts == v.budget + 1 then 1 else 0
    case Processing => 2 * (v.budget + 1 - v.attempts) + 1
    case _ => 0
  }

  lemma {:induction false} PathTail(boards: seq<Board>, steps: seq<Step>)
    requires Path(boards, steps) && steps != []
    ensures Path(boards[1..], steps[1..])
  {
    forall i | 0 <= i < |steps[1..]|
      ensures Next(boards[1..][i], steps[1..][i], boards[1..][i + 1])
    {
      assert Next(boards[i + 1], steps[i + 1], boards[i + 2]);
    }
  }

  /** Jobs are never removed, and stay within their budget; the budget never changes. */
  lemma {:induction false} JobsStay(boards: seq<Board>, steps: seq<Step>, id: JobId)
    requires Path(boards, steps) && id in boards[0]
    ensures id in boards[|steps|] && boards[|steps|][id].budget == boards[0][id].budget
    ensures Sound(boards[0][id]) ==> Sound(boards[|steps|][id])
    decreases |steps|
  {
    if steps != [] {
      assert Next(boards[0], steps[0], boards[1]);
      PathTail(boards, steps);
      JobsStay(boards[1..], steps[1..], id);
    }
  }

  /** The generation counts the replays. */
  lemma {:induction false} GenerationCountsRestarts(boards: seq<Board>, steps: seq<Step>, id: JobId)
    requires Path(boards, steps) && id in boards[0]
    ensures id in boards[|steps|]
    ensures boards[|steps|][id].generation == boards[0][id].generation + CountOf(steps, id, Restart)
    decreases |steps|
  {
    if steps != [] {
      assert Next(boards[0], steps[0], boards[1]);
      PathTail(boards, steps);
      GenerationCountsRestarts(boards[1..], steps[1..], id);
    }
  }

  /** A completed job never changes again. A dead one stays as it is until a replay, which raises the generation. */
  lemma {:induction false} SettledForGood(boards: seq<Board>, steps: seq<Step>, id: JobId)
    requires Path(boards, steps) && id in boards[0]
    ensures id in boards[|steps|]
    ensures boards[0][id].status == Completed ==> boards[|steps|][id] == boards[0][id]
    ensures boards[0][id].status == Dead ==>
              boards[|steps|][id] == boards[0][id] || boards[|steps|][id].generation > boards[0][id].generation
    decreases |steps|
  {
    JobsStay(boards, steps, id);
    if steps != [] {
      assert Next(boards[0], steps[0], boards[1]);
      PathTail(boards, steps);
      SettledForGood(boards[1..], steps[1..], id);
      GenerationCountsRestarts(boards[1..], steps[1..], id);
    }
  }

  /** Between two replays a job makes a bounded number of moves: every move uses up some of what remains. */
  lemma {:induction false} MovesBounded(boards: seq<Board>, steps: seq<Step>, id: JobId)
    requires Path(boards, steps) && id in boards[0] && Sound(boards[0][id])
    requires CountOf(steps, id, Restart) == 0
    ensures id in boards[|steps|] && Sound(boards[|steps|][id])
    ensures Count(steps, id) + Remaining(boards[|steps|][id]) <= Remaining(boards[0][id])
    ensures CountOf(steps, id, Begin) == boards[|steps|][id].attempts - boards[0][id].attempts
    decreases |steps|
  {
    if steps != [] {
      assert Next(boards[0], steps[0], boards[1]);
      PathTail(boards, steps);
      MovesBounded(boards[1..], steps[1..], id);
    }
  }

  /** In the generation that starts with acceptance or replay, a job with budget N makes at most 2(N+1)
      moves, of which at most N+1 begin an attempt. */
  lemma GenerationBudget(boards: seq<Board>, steps: seq<Step>, id: JobId)
    requires Path(boards, steps) && id in boards[0] && Sound(boards[0][id])
    requires boards[0][id].status == Pending && boards[0][id].attempts == 0
    requires CountOf(steps, id, Restart) == 0
    ensures Count(steps, id) <= 2 * (boards[0][id].budget + 1)
    ensures CountOf(steps, id, Begin) <= boards[0][id].budget + 1
  {
    MovesBounded(boards, steps, id);
    JobsStay(boards, steps, id);
  }
}
