/** The least element of a finite set: what ORDER BY id LIMIT 1 and a scan in id order look for. */
module Minimum {

  ghost function Least(rows: set<nat>): (k: nat)
    requires rows != {}
    ensures k in rows && forall m :: m in rows ==> k <= m
  {
    var x :| x in rows;
    if rows == {x} then x
    else
      var y := Least(rows - {x});
      assert rows == (rows - {x}) + {x};
      if x < y then x else y
  }

  lemma SubsetSmaller(a: set<nat>, b: set<nat>)
    requires a <= b
    ensures |a| <= |b|
  {
    assert b == a + (b - a);
  }
}
