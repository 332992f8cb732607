/** Recoverability: after every worker and dispatcher has crashed and the whole stream is gone, an explicit
    finite continuation brings any live job to a terminal status. */
module Recovery {
  import opened Tables
  import opened Transactions
  import opened Durability
  import opened Protocol
  import opened Safety
  import opened Runs
  import opened Dispatching
  import opened Minimum
  import Backoff

  /** The rows that a run locks, in order. */
  function LocksIn(acts: seq<Action>): seq<nat> {
    if acts == [] then []
    else (if acts[0].DispatchLock? then [acts[0].row] else []) + LocksIn(acts[1..])
  }

  lemma {:induction false} LocksAppend(a: seq<Action>, b: seq<Action>)
    ensures LocksIn(a + b) == LocksIn(a) + LocksIn(b)
    decreases |a|
  {
    if a == [] {
      assert a + b == b;
    } else {
      var first := if a[0].DispatchLock? then [a[0].row] else [];
      assert (a + b)[1..] == a[1..] + b;
      LocksAppend(a[1..], b);
      assert LocksIn(a + b) == first + (LocksIn(a[1..]) + LocksIn(b));
    }
  }

  // ----- one dispatch in the machine

  ghost predicate Quiet(s: State) {
    (forall n :: n in s.dispatchers ==> s.dispatchers[n] == Free)
    && (forall w :: w in s.workers ==> s.workers[w] == Idle)
  }

  function DeliveryOf(r: Intent): Delivery { Delivery(r.job, r.generation, r.attempt) }

  predicate Needless(db: Db, k: nat)
    requires Referential(db) && k in db.outbox
  {
    Obsolete(db.jobs[db.outbox[k].job], db.outbox[k])
  }

  function With(s: State, n: nat, x: Dispatcher): State { s.(dispatchers := s.dispatchers[n := x]) }

  /** The steps of a dispatch: four, or three when the row is found obsolete. */
  function DispatchPlan(db: Db, n: nat, k: nat): seq<Action>
    requires Referential(db) && k in db.outbox
  {
    [DispatchLock(n, k)] + ([DispatchRead(n)] +
      if Needless(db, k) then [DispatchCommit(n)] + [] else [DispatchPublish(n, false)] + ([DispatchCommit(n)] + []))
  }

  /** The state when a row has been dispatched. */
  function DispatchedState(s: State, n: nat, k: nat): State
    requires Referential(s.db) && k in s.db.outbox
  {
    With(s, n, Free).(db := DispatchRow(s.db, k),
                      stream := if Needless(s.db, k) then s.stream else s.stream + {DeliveryOf(s.db.outbox[k])})
  }

  lemma LockStep(s: State, n: nat)
    requires Quiet(s) && EligibleRows(s.db) != {}
    ensures var k := Least(EligibleRows(s.db));
            Enabled(s, DispatchLock(n, k)) && Apply(s, DispatchLock(n, k)) == With(s, n, Locked(k))
  {
    forall m
      ensures Selectable(s, m) <==> m in EligibleRows(s.db)
    {
    }
  }

  lemma ReadStep(s: State, n: nat, k: nat)
    requires Referential(s.db) && k in s.db.outbox
    ensures var x := With(s, n, Locked(k));
            Enabled(x, DispatchRead(n)) && Apply(x, DispatchRead(n)) == With(s, n, Chosen(k, Needless(s.db, k)))
  {
    assert With(s, n, Locked(k)).dispatchers[n := Chosen(k, Needless(s.db, k))]
        == s.dispatchers[n := Chosen(k, Needless(s.db, k))];
  }

  lemma DropStep(s: State, n: nat, k: nat)
    requires Referential(s.db) && k in s.db.outbox && Needless(s.db, k)
    ensures var x := With(s, n, Chosen(k, true));
            Enabled(x, DispatchCommit(n)) && Apply(x, DispatchCommit(n)) == DispatchedState(s, n, k)
  {
    assert With(s, n, Chosen(k, true)).dispatchers[n := Free] == s.dispatchers[n := Free];
  }

  lemma PublishStep(s: State, n: nat, k: nat)
    requires Referential(s.db) && k in s.db.outbox && !Needless(s.db, k)
    ensures var x := With(s, n, Chosen(k, false));
            && Enabled(x, DispatchPublish(n, false))
            && Apply(x, DispatchPublish(n, false))
               == With(s, n, Sent(k)).(stream := s.stream + {DeliveryOf(s.db.outbox[k])})
  {
    assert With(s, n, Chosen(k, false)).dispatchers[n := Sent(k)] == s.dispatchers[n := Sent(k)];
  }

  lemma MarkStep(s: State, n: nat, k: nat)
    requires Referential(s.db) && k in s.db.outbox && !Needless(s.db, k)
    ensures var x := With(s, n, Sent(k)).(stream := s.stream + {DeliveryOf(s.db.outbox[k])});
            Enabled(x, DispatchCommit(n)) && Apply(x, DispatchCommit(n)) == DispatchedState(s, n, k)
  {
    assert With(s, n, Sent(k)).dispatchers[n := Free] == s.dispatchers[n := Free];
  }

  /** Undisturbed, the steps of a dispatcher amount to one transaction on the least eligible row. */
  lemma DispatchAlone(s: State, n: nat)
    requires Quiet(s) && Referential(s.db) && EligibleRows(s.db) != {}
    ensures var k := Least(EligibleRows(s.db));
            Leads(s, DispatchPlan(s.db, n, k), DispatchedState(s, n, k)) && LocksIn(DispatchPlan(s.db, n, k)) == [k]
  {
    var k := Least(EligibleRows(s.db));
    var t := DispatchedState(s, n, k);
    LockStep(s, n);
    ReadStep(s, n, k);
    Stay(t);
    if Needless(s.db, k) {
      DropStep(s, n, k);
      StepThen(With(s, n, Chosen(k, true)), DispatchCommit(n), t, [], t);
      StepThen(With(s, n, Locked(k)), DispatchRead(n), With(s, n, Chosen(k, true)), [DispatchCommit(n)] + [], t);
      StepThen(s, DispatchLock(n, k), With(s, n, Locked(k)), [DispatchRead(n)] + ([DispatchCommit(n)] + []), t);
    } else {
      var sent := With(s, n, Sent(k)).(stream := s.stream + {DeliveryOf(s.db.outbox[k])});
      PublishStep(s, n, k);
      MarkStep(s, n, k);
      StepThen(sent, DispatchCommit(n), t, [], t);
      StepThen(With(s, n, Chosen(k, false)), DispatchPublish(n, false), sent, [DispatchCommit(n)] + [], t);
      StepThen(With(s, n, Locked(k)), DispatchRead(n), With(s, n, Chosen(k, false)),
               [DispatchPublish(n, false)] + ([DispatchCommit(n)] + []), t);
      StepThen(s, DispatchLock(n, k), With(s, n, Locked(k)),
               [DispatchRead(n)] + ([DispatchPublish(n, false)] + ([DispatchCommit(n)] + [])), t);
    }
    PlanLocks(s.db, n, k);
  }

  lemma PlanLocks(db: Db, n: nat, k: nat)
    requires Referential(db) && k in db.outbox
    ensures LocksIn(DispatchPlan(db, n, k)) == [k]
  {
    var acts := DispatchPlan(db, n, k);
    assert LocksIn(acts[3..]) == [];
    assert LocksIn(acts[2..]) == [] by { assert acts[2..][1..] == acts[3..]; }
    assert LocksIn(acts[1..]) == [] by { assert acts[1..][1..] == acts[2..]; }
  }

  // ----- dispatching up to a given row

  ghost function DrainPlan(s: State, n: nat, row: nat): seq<Action>
    requires Quiet(s) && Referential(s.db) && row in EligibleRows(s.db)
    decreases |EligibleRows(s.db)|
  {
    var k := Least(EligibleRows(s.db));
    OneFewer(s.db, k);
    if k == row then DispatchPlan(s.db, n, k)
    else DispatchPlan(s.db, n, k) + DrainPlan(DispatchedState(s, n, k), n, row)
  }

  ghost function DrainState(s: State, n: nat, row: nat): State
    requires Quiet(s) && Referential(s.db) && row in EligibleRows(s.db)
    decreases |EligibleRows(s.db)|
  {
    var k := Least(EligibleRows(s.db));
    OneFewer(s.db, k);
    if k == row then DispatchedState(s, n, k) else DrainState(DispatchedState(s, n, k), n, row)
  }

  predicate Increasing(rows: seq<nat>) { forall i, j :: 0 <= i < j < |rows| ==> rows[i] < rows[j] }

  /** One dispatcher reaches any eligible row. */
  lemma {:induction false} DrainReaches(s: State, n: nat, row: nat)
    requires Quiet(s) && Referential(s.db) && row in EligibleRows(s.db)
    ensures Leads(s, DrainPlan(s, n, row), DrainState(s, n, row))
    decreases |EligibleRows(s.db)|
  {
    var k := Least(EligibleRows(s.db));
    var mid := DispatchedState(s, n, k);
    DispatchAlone(s, n);
    OneFewer(s.db, k);
    if k != row {
      DrainReaches(mid, n, row);
      LeadsAppend(s, DispatchPlan(s.db, n, k), mid, DrainPlan(mid, n, row), DrainState(mid, n, row));
    }
  }

  /** It then has published the row, if the row was needed, and has touched no job. */
  lemma {:induction false} DrainPublishes(s: State, n: nat, row: nat)
    requires Quiet(s) && Referential(s.db) && row in EligibleRows(s.db)
    ensures var t := DrainState(s, n, row);
            && t.db.jobs == s.db.jobs && t.db.now == s.db.now && t.lease == s.lease && Quiet(t) && s.stream <= t.stream
            && (!Needless(s.db, row) ==> DeliveryOf(s.db.outbox[row]) in t.stream)
    decreases |EligibleRows(s.db)|
  {
    var k := Least(EligibleRows(s.db));
    OneFewer(s.db, k);
    if k != row { DrainPublishes(DispatchedState(s, n, k), n, row); }
  }

  /** On the way it dispatches each row at most once. */
  lemma {:induction false} DrainOnce(s: State, n: nat, row: nat)
    requires Quiet(s) && Referential(s.db) && row in EligibleRows(s.db)
    ensures Increasing(LocksIn(DrainPlan(s, n, row)))
    ensures forall k :: k in LocksIn(DrainPlan(s, n, row)) ==> k in EligibleRows(s.db)
    decreases |EligibleRows(s.db)|
  {
    var k := Least(EligibleRows(s.db));
    var mid := DispatchedState(s, n, k);
    OneFewer(s.db, k);
    PlanLocks(s.db, n, k);
    if k != row {
      DrainOnce(mid, n, row);
      LocksAppend(DispatchPlan(s.db, n, k), DrainPlan(mid, n, row));
      Prepend(EligibleRows(s.db), k, LocksIn(DrainPlan(mid, n, row)));
    }
  }

  lemma Prepend(rows: set<nat>, k: nat, rest: seq<nat>)
    requires rows != {} && k == Least(rows) && Increasing(rest) && forall m :: m in rest ==> m in rows - {k}
    ensures Increasing([k] + rest) && forall m :: m in [k] + rest ==> m in rows
  {
    forall j | 0 <= j < |rest|
      ensures k < rest[j]
    {
      assert rest[j] in rows - {k};
    }
  }

  // ----- one attempt

  /** A live, due, unleased job whose delivery is in the stream. */
  ghost predicate Deliverable(s: State, d: Delivery) {
    && s.lease > 0
    && d.job in s.db.jobs && d in s.stream
    && var j := s.db.jobs[d.job];
    && j.generation == d.generation && Live(j.status) && !Early(j, s.db.now)
    && (j.status == Processing ==> !Active(j, s.db.now))
  }

  predicate Exhausted(j: Job) { j.attemptCount >= j.maxRetries + 1 }

  /** Deliver the job to worker w; if it has budget left, let its handler succeed. */
  ghost function AttemptPlan(s: State, w: Owner, d: Delivery): seq<Action>
    requires Deliverable(s, d)
  {
    [Deliver(w, d), ClaimCommit(w, false)] +
      if Exhausted(s.db.jobs[d.job]) then []
      else [HandlerEnd(w, Success), BeatQuit(w), Join(w, 0), FinishCommit(w, false)]
  }

  lemma ClaimPart(s: State, w: Owner, d: Delivery)
    requires Deliverable(s, d) && WorkerOf(s, w) == Idle
    ensures Enabled(s, Deliver(w, d))
    ensures var s1 := Apply(s, Deliver(w, d));
            && Enabled(s1, ClaimCommit(w, false))
            && var s2 := Apply(s1, ClaimCommit(w, false)); var j := s.db.jobs[d.job];
            && d.job in s2.db.jobs && s2.lease == s.lease
            && (Exhausted(j) ==> s2.db.jobs[d.job].status == Dead)
            && (!Exhausted(j) ==>
                  && WorkerOf(s2, w) == Attempting(d, HeldFrom(d.job, j, w), Sleeping, Running, false)
                  && s2.db.jobs[d.job] == Leased(j, w, s.db.now + s.lease) && s2.db.now == s.db.now)
  {
  }

  lemma HandlerPart(s: State, w: Owner, d: Delivery, h: Held)
    requires WorkerOf(s, w) == Attempting(d, h, Sleeping, Running, false)
    ensures Enabled(s, HandlerEnd(w, Success))
    ensures var s1 := Apply(s, HandlerEnd(w, Success));
            && Enabled(s1, BeatQuit(w))
            && var s2 := Apply(s1, BeatQuit(w));
            && Enabled(s2, Join(w, 0))
            && var s3 := Apply(s2, Join(w, 0));
            && s3.db == s.db
            && WorkerOf(s3, w) == Finishing(d, h, Success, Outcome(Completed, "Completed successfully", 0))
  {
    Backoff.DelayBounds(h.retry, 0);
  }

  lemma FinishPart(s: State, w: Owner, d: Delivery, h: Held)
    requires WorkerOf(s, w) == Finishing(d, h, Success, Outcome(Completed, "Completed successfully", 0))
    requires Owns(s.db, h)
    ensures Enabled(s, FinishCommit(w, false))
    ensures var t := Apply(s, FinishCommit(w, false));
            && h.id in t.db.jobs && t.db.jobs[h.id].status == Completed
            && WorkerOf(t, w).Acking?
  {
  }

  /** The claimed attempt runs to completion. */
  lemma RunPart(s: State, w: Owner, d: Delivery, h: Held)
    requires WorkerOf(s, w) == Attempting(d, h, Sleeping, Running, false) && Owns(s.db, h)
    ensures var acts := [HandlerEnd(w, Success), BeatQuit(w), Join(w, 0), FinishCommit(w, false)];
            && CanRun(s, acts)
            && h.id in After(s, acts).db.jobs && After(s, acts).db.jobs[h.id].status == Completed
  {
    HandlerPart(s, w, d, h);
    var s1 := Apply(s, HandlerEnd(w, Success));
    var s2 := Apply(s1, BeatQuit(w));
    var s3 := Apply(s2, Join(w, 0));
    FinishPart(s3, w, d, h);
    var s4 := Apply(s3, FinishCommit(w, false));
    Stay(s4);
    StepThen(s3, FinishCommit(w, false), s4, [], s4);
    StepThen(s2, Join(w, 0), s3, [FinishCommit(w, false)] + [], s4);
    StepThen(s1, BeatQuit(w), s2, [Join(w, 0)] + ([FinishCommit(w, false)] + []), s4);
    StepThen(s, HandlerEnd(w, Success), s1, [BeatQuit(w)] + ([Join(w, 0)] + ([FinishCommit(w, false)] + [])), s4);
    assert [HandlerEnd(w, Success), BeatQuit(w), Join(w, 0), FinishCommit(w, false)]
        == [HandlerEnd(w, Success)] + ([BeatQuit(w)] + ([Join(w, 0)] + ([FinishCommit(w, false)] + [])));
  }

  lemma HeadPart(s: State, w: Owner, d: Delivery, mid: State)
    requires Enabled(s, Deliver(w, d)) && Enabled(Apply(s, Deliver(w, d)), ClaimCommit(w, false))
    requires mid == Apply(Apply(s, Deliver(w, d)), ClaimCommit(w, false))
    ensures Leads(s, [Deliver(w, d), ClaimCommit(w, false)], mid)
  {
    var s1 := Apply(s, Deliver(w, d));
    Stay(mid);
    StepThen(s1, ClaimCommit(w, false), mid, [], mid);
    StepThen(s, Deliver(w, d), s1, [ClaimCommit(w, false)] + [], mid);
    assert [Deliver(w, d), ClaimCommit(w, false)] == [Deliver(w, d)] + ([ClaimCommit(w, false)] + []);
  }

  lemma AttemptCompletes(s: State, w: Owner, d: Delivery, mid: State, acts: seq<Action>)
    requires Deliverable(s, d) && WorkerOf(s, w) == Idle && !Exhausted(s.db.jobs[d.job])
    requires Enabled(s, Deliver(w, d)) && Enabled(Apply(s, Deliver(w, d)), ClaimCommit(w, false))
    requires mid == Apply(Apply(s, Deliver(w, d)), ClaimCommit(w, false)) && acts == AttemptPlan(s, w, d)
    ensures CanRun(s, acts)
    ensures d.job in After(s, acts).db.jobs && After(s, acts).db.jobs[d.job].status == Completed
  {
    var head := [Deliver(w, d), ClaimCommit(w, false)];
    var tail := [HandlerEnd(w, Success), BeatQuit(w), Join(w, 0), FinishCommit(w, false)];
    ClaimPart(s, w, d);
    HeadPart(s, w, d, mid);
    RunPart(mid, w, d, HeldFrom(d.job, s.db.jobs[d.job], w));
    RunAppend(s, head, tail);
  }

  /** The attempt runs, and leaves the job completed, or dead if its budget was already spent. */
  lemma AttemptSettles(s: State, w: Owner, d: Delivery)
    requires Deliverable(s, d) && WorkerOf(s, w) == Idle
    ensures var acts := AttemptPlan(s, w, d);
            && CanRun(s, acts) && LocksIn(acts) == []
            && d.job in After(s, acts).db.jobs
            && After(s, acts).db.jobs[d.job].status == if Exhausted(s.db.jobs[d.job]) then Dead else Completed
  {
    var acts := AttemptPlan(s, w, d);
    ClaimPart(s, w, d);
    var mid := Apply(Apply(s, Deliver(w, d)), ClaimCommit(w, false));
    if Exhausted(s.db.jobs[d.job]) {
      HeadPart(s, w, d, mid);
      assert acts == [Deliver(w, d), ClaimCommit(w, false)];
    } else {
      AttemptCompletes(s, w, d, mid, acts);
    }
    NoLocks(acts);
  }

  lemma {:induction false} NoLocks(acts: seq<Action>)
    requires forall i :: 0 <= i < |acts| ==> !acts[i].DispatchLock?
    ensures LocksIn(acts) == []
  {
    if acts != [] { NoLocks(acts[1..]); }
  }

  // ----- the whole recovery

  function Positive(x: int): nat { if x > 0 then x else 0 }

  /** Long enough for job j to be due and unleased, and for its intent r to be available and republishable. */
  function Patience(now: Time, j: Job, r: Intent): nat {
    REPUBLISH_AFTER + 1 + Positive(r.availableAt - now) + Positive(j.nextAttemptAt - now)
    + if j.leaseUntil.Some? then Positive(j.leaseUntil.value - now) else 0
  }

  /** An intent of the current generation of a live job. */
  ghost function IntentFor(db: Db, id: JobId): (k: nat)
    requires DbInv(db) && id in db.jobs && Live(db.jobs[id].status)
    ensures k in db.outbox && db.outbox[k].job == id && db.outbox[k].generation == db.jobs[id].generation
  {
    assert Covered(db.outbox, id, db.jobs[id]);
    var k :| k in db.outbox && db.outbox[k].job == id && db.outbox[k].generation == db.jobs[id].generation;
    k
  }

  /** After the disaster: wait, dispatch up to an intent of the job, deliver it, run it. */
  ghost function RecoveryPlan(s: State, id: JobId, w: Owner, n: nat): seq<Action>
    requires Inv(s) && Quiet(s) && id in s.db.jobs && Live(s.db.jobs[id].status)
  {
    var k := IntentFor(s.db, id);
    var wait := Advance(Patience(s.db.now, s.db.jobs[id], s.db.outbox[k]));
    var s1 := Apply(s, wait);
    WaitPart(s, id);
    var s2 := DrainState(s1, n, k);
    DrainPublishes(s1, n, k);
    [wait] + (DrainPlan(s1, n, k) + AttemptPlan(s2, w, DeliveryOf(s.db.outbox[k])))
  }

  lemma WaitPart(s: State, id: JobId)
    requires Inv(s) && Quiet(s) && id in s.db.jobs && Live(s.db.jobs[id].status)
    ensures var k := IntentFor(s.db, id); var r := s.db.outbox[k];
            var a := Advance(Patience(s.db.now, s.db.jobs[id], r)); var t := Apply(s, a);
            && Enabled(s, a)
            && t.db.jobs == s.db.jobs && t.db.outbox == s.db.outbox && t.lease == s.lease
            && Quiet(t) && Referential(t.db) && k in EligibleRows(t.db) && !Needless(t.db, k)
            && !Early(s.db.jobs[id], t.db.now)
            && (s.db.jobs[id].status == Processing ==> !Active(s.db.jobs[id], t.db.now))
  {
    var k := IntentFor(s.db, id);
    assert IntentOk(s.db, s.db.outbox[k]) && JobOk(s.db.now, s.db.jobs[id]);
    InvReferential(s.db);
  }

  /** From any state that the crash of everything leaves behind, the plan runs, dispatches each row at most
      once, and ends with the job settled. */
  lemma RecoverySettles(s: State, id: JobId, w: Owner, n: nat)
    requires Inv(s) && Quiet(s) && id in s.db.jobs && Live(s.db.jobs[id].status)
    ensures var plan := RecoveryPlan(s, id, w, n);
            && CanRun(s, plan)
            && id in After(s, plan).db.jobs && Settled(After(s, plan).db.jobs[id].status)
            && Increasing(LocksIn(plan))
  {
    var k := IntentFor(s.db, id);
    var wait := Advance(Patience(s.db.now, s.db.jobs[id], s.db.outbox[k]));
    WaitPart(s, id);
    var s1 := Apply(s, wait);
    DrainReaches(s1, n, k);
    DrainPublishes(s1, n, k);
    DrainOnce(s1, n, k);
    var s2, d := DrainState(s1, n, k), DeliveryOf(s.db.outbox[k]);
    AttemptSettles(s2, w, d);
    var drain, attempt := DrainPlan(s1, n, k), AttemptPlan(s2, w, d);
    var t := After(s2, attempt);
    LeadsAppend(s1, drain, s2, attempt, t);
    StepThen(s, wait, s1, drain + attempt, t);
    PlanLocksOnly(wait, drain, attempt);
  }

  /** Only the drain locks rows. */
  lemma PlanLocksOnly(wait: Action, drain: seq<Action>, attempt: seq<Action>)
    requires !wait.DispatchLock? && LocksIn(attempt) == []
    ensures LocksIn([wait] + (drain + attempt)) == LocksIn(drain)
  {
    LocksAppend(drain, attempt);
    LocksAppend([wait], drain + attempt);
    NoLocks([wait]);
  }

  /** Every reachable state can be recovered from: lose the stream, crash every worker and dispatcher, and any
      live job still has an explicit finite continuation to COMPLETED or DEAD. */
  lemma EveryStateRecovers(s: State, acts: seq<Action>, t: State, id: JobId, w: Owner, n: nat)
    requires Init(s) && Leads(s, acts, t)
    requires id in t.db.jobs && Live(t.db.jobs[id].status)
    ensures var ruins := Apply(t, Disaster);
            && ruins.stream == {} && ruins.workers == map[] && ruins.dispatchers == map[]
            && Inv(ruins) && Quiet(ruins) && ruins.db == t.db
            && var plan := RecoveryPlan(ruins, id, w, n);
            && CanRun(ruins, plan)
            && id in After(ruins, plan).db.jobs && Settled(After(ruins, plan).db.jobs[id].status)
            && Increasing(LocksIn(plan))
  {
    InitInv(s);
    RunKeeps(s, acts);
    StepKeeps(t, Disaster);
    RecoverySettles(Apply(t, Disaster), id, w, n);
  }
}
