/** Dispatching without interference: one row at a time, in id order, until no row is eligible. */
module Dispatching {
  import opened Tables
  import opened Transactions
  import opened Durability
  import opened Minimum

  function EligibleRows(db: Db): set<nat> { set k | k in db.outbox && Eligible(db.outbox[k], db.now) }

  /** The foreign key of job_outbox: every intent's job exists. */
  predicate Referential(db: Db) { forall k :: k in db.outbox ==> db.outbox[k].job in db.jobs }

  lemma InvReferential(db: Db)
    requires DbInv(db)
    ensures Referential(db)
  {
    forall k | k in db.outbox
      ensures db.outbox[k].job in db.jobs
    {
      assert IntentOk(db, db.outbox[k]);
    }
  }

  /** One dispatcher transaction whose publication, if one is needed, succeeds. */
  function DispatchRow(db: Db, k: nat): Db
    requires Referential(db) && k in db.outbox
  {
    if Obsolete(db.jobs[db.outbox[k].job], db.outbox[k]) then DeleteTx(db, k) else MarkTx(db, k)
  }

  /** The (job, generation) pairs that this transaction appends to the stream. */
  function SentBy(db: Db, k: nat): seq<(JobId, int)>
    requires Referential(db) && k in db.outbox
  {
    var r := db.outbox[k];
    if Obsolete(db.jobs[r.job], r) then [] else [(r.job, r.generation)]
  }

  /** Dispatching a row makes that row, and no other, ineligible. */
  lemma OneFewer(db: Db, k: nat)
    requires Referential(db) && k in EligibleRows(db)
    ensures Referential(DispatchRow(db, k))
    ensures EligibleRows(DispatchRow(db, k)) == EligibleRows(db) - {k}
    ensures DispatchRow(db, k).jobs == db.jobs && DispatchRow(db, k).now == db.now
    ensures forall m :: m in db.outbox && m != k ==>
            m in DispatchRow(db, k).outbox && DispatchRow(db, k).outbox[m] == db.outbox[m]
  {
  }

  /** The rows handled by dispatching until nothing is eligible, in order. */
  ghost function DrainRows(db: Db): (rows: seq<nat>)
    requires Referential(db)
    decreases |EligibleRows(db)|
  {
    if EligibleRows(db) == {} then []
    else
      var k := Least(EligibleRows(db));
      OneFewer(db, k);
      [k] + DrainRows(DispatchRow(db, k))
  }

  ghost function Drained(db: Db): Db
    requires Referential(db)
    decreases |EligibleRows(db)|
  {
    if EligibleRows(db) == {} then db
    else
      var k := Least(EligibleRows(db));
      OneFewer(db, k);
      Drained(DispatchRow(db, k))
  }

  ghost function DrainSends(db: Db): seq<(JobId, int)>
    requires Referential(db)
    decreases |EligibleRows(db)|
  {
    if EligibleRows(db) == {} then []
    else
      var k := Least(EligibleRows(db));
      OneFewer(db, k);
      SentBy(db, k) + DrainSends(DispatchRow(db, k))
  }

  /** Draining handles exactly the rows that were eligible, each once and in id order: as many calls as eligible
      rows, and a row is handled right after the eligible rows with smaller ids. */
  lemma {:induction false} DrainIsFair(db: Db)
    requires Referential(db)
    ensures |DrainRows(db)| == |EligibleRows(db)|
    ensures forall k :: k in DrainRows(db) <==> k in EligibleRows(db)
    ensures forall i, j :: 0 <= i < j < |DrainRows(db)| ==> DrainRows(db)[i] < DrainRows(db)[j]
    ensures EligibleRows(Drained(db)) == {}
    decreases |EligibleRows(db)|
  {
    if EligibleRows(db) != {} {
      var k := Least(EligibleRows(db));
      OneFewer(db, k);
      DrainIsFair(DispatchRow(db, k));
      FirstThenRest(EligibleRows(db), k, DrainRows(DispatchRow(db, k)));
    }
  }

  lemma FirstThenRest(rows: set<nat>, k: nat, rest: seq<nat>)
    requires rows != {} && k == Least(rows)
    requires |rest| == |rows - {k}|
    requires forall m :: m in rest <==> m in rows - {k}
    requires forall i, j :: 0 <= i < j < |rest| ==> rest[i] < rest[j]
    ensures |[k] + rest| == |rows|
    ensures forall m :: m in [k] + rest <==> m in rows
    ensures forall i, j :: 0 <= i < j < |[k] + rest| ==> ([k] + rest)[i] < ([k] + rest)[j]
  {
    assert |rows - {k}| == |rows| - 1;
    forall j | 0 <= j < |rest|
      ensures k < rest[j]
    {
      assert rest[j] in rows - {k};
    }
  }

  /** The position of a row in the drain is the number of eligible rows before it. */
  lemma HandledInTurn(db: Db, i: nat)
    requires Referential(db) && i < |DrainRows(db)|
    ensures |set m | m in EligibleRows(db) && m < DrainRows(db)[i]| == i
  {
    DrainIsFair(db);
    var rows := DrainRows(db);
    var before := set m | m in EligibleRows(db) && m < rows[i];
    forall m
      ensures m in before <==> m in rows[..i]
    {
      if m in before {
        var j :| 0 <= j < |rows| && rows[j] == m;
        assert j < i;
        assert rows[..i][j] == m;
      }
    }
    DistinctCount(rows[..i], before);
  }

  lemma {:induction false} DistinctCount(rows: seq<nat>, s: set<nat>)
    requires forall a, b :: 0 <= a < b < |rows| ==> rows[a] != rows[b]
    requires forall m :: m in s <==> m in rows
    ensures |s| == |rows|
    decreases |rows|
  {
    if rows == [] {
      assert s == {};
    } else {
      forall m
        ensures m in s - {rows[0]} <==> m in rows[1..]
      {
        if m in rows[1..] {
          var a :| 0 <= a < |rows[1..]| && rows[1..][a] == m;
          assert rows[a + 1] == m;
        }
      }
      DistinctCount(rows[1..], s - {rows[0]});
    }
  }
}
