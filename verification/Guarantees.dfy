/** What the invariant gives at each step: nothing is lost, the fence is sound, early deliveries may be
    dropped, inserts never collide. */
module Guarantees {
  import opened Tables
  import opened Transactions
  import opened Durability
  import opened Protocol
  import opened Safety

  // ----- no work is lost

  /** After any run, every live job has an intent of its current generation; a pending one has the intent of
      its next attempt. */
  lemma NoWorkIsLost(s: State, acts: seq<Action>, id: JobId)
    requires Init(s) && CanRun(s, acts)
    ensures var db := After(s, acts).db;
            id in db.jobs && Live(db.jobs[id].status) ==>
              && (exists k ::
                    k in db.outbox && db.outbox[k].job == id
                    && db.outbox[k].generation == db.jobs[id].generation)
              && (db.jobs[id].status == Pending ==>
                    IdentityTaken(db.outbox, id, db.jobs[id].generation, db.jobs[id].attemptCount + 1))
  {
    InitInv(s);
    RunKeeps(s, acts);
    var db := After(s, acts).db;
    if id in db.jobs && db.jobs[id].status == Pending {
      assert Covered(db.outbox, id, db.jobs[id]);
      var k :| k in db.outbox && Carries(db.outbox[k], id, db.jobs[id].generation, db.jobs[id].attemptCount + 1);
    }
  }

  predicate ActsFor(a: Action, n: nat) {
    || a.Disaster?
    || ((a.DispatchLock? || a.DispatchRead? || a.DispatchPublish? || a.DispatchCommit? || a.DispatchAbort?) && a.n == n)
  }

  /** A decision to delete, once taken on an unlocked read, stays right however long the dispatcher waits and
      whatever is claimed, finished, accepted or replayed meanwhile. */
  lemma {:induction false} StaleDecisionStaysRight(s: State, acts: seq<Action>, n: nat)
    requires Inv(s) && CanRun(s, acts)
    requires DispatcherOf(s, n).Chosen? && DispatcherOf(s, n).obsolete
    requires forall i :: 0 <= i < |acts| ==> !ActsFor(acts[i], n)
    ensures var t := After(s, acts); var k := DispatcherOf(s, n).row;
            && DispatcherOf(t, n) == DispatcherOf(s, n)
            && k in t.db.outbox && t.db.outbox[k] == s.db.outbox[k]
            && t.db.outbox[k].job in t.db.jobs && Obsolete(t.db.jobs[t.db.outbox[k].job], t.db.outbox[k])
    decreases |acts|
  {
    assert DispatcherOk(s.db, s.dispatchers[n]);
    if acts != [] {
      StepKeeps(s, acts[0]);
      RowUntouched(s, acts[0], n);
      StaleDecisionStaysRight(Apply(s, acts[0]), acts[1..], n);
    }
  }

  lemma RowStable(db: Db, lease: int, e: Event, k: nat)
    requires DbInv(db) && k in db.outbox
    requires e.Mark? || e.Delete? ==> e.row != k
    ensures k in Commit(db, lease, e).outbox && Commit(db, lease, e).outbox[k] == db.outbox[k]
  {
  }

  lemma RowEffects(s: State, a: Action)
    requires Enabled(s, a) && (Effect(s, a).Mark? || Effect(s, a).Delete?)
    ensures a.DispatchCommit? && DispatcherOf(s, a.n) != Free && Effect(s, a).row == DispatcherOf(s, a.n).row
  {
  }

  lemma OtherDispatchers(s: State, a: Action, n: nat)
    requires Enabled(s, a) && !ActsFor(a, n)
    ensures DispatcherOf(Apply(s, a), n) == DispatcherOf(s, n)
  {
  }

  lemma OtherRows(s: State, a: Action, n: nat)
    requires Inv(s) && Enabled(s, a) && !ActsFor(a, n) && DispatcherOf(s, n) != Free
    ensures Effect(s, a).Mark? || Effect(s, a).Delete? ==> Effect(s, a).row != DispatcherOf(s, n).row
    ensures DispatcherOf(Apply(s, a), n) == DispatcherOf(s, n)
  {
    OtherDispatchers(s, a, n);
    if Effect(s, a).Mark? || Effect(s, a).Delete? { RowEffects(s, a); }
  }

  /** Only the dispatcher that holds a row's lock touches the row. */
  lemma RowUntouched(s: State, a: Action, n: nat)
    requires Inv(s) && Enabled(s, a) && !ActsFor(a, n) && DispatcherOf(s, n) != Free
    ensures var t := Apply(s, a); var k := DispatcherOf(s, n).row;
            && DispatcherOf(t, n) == DispatcherOf(s, n)
            && k in s.db.outbox && k in t.db.outbox && t.db.outbox[k] == s.db.outbox[k]
  {
    assert DispatcherOk(s.db, s.dispatchers[n]);
    OtherRows(s, a, n);
    RowStable(s.db, s.lease, Effect(s, a), DispatcherOf(s, n).row);
  }

  /** Deleting the row leaves every live job another intent of its generation. */
  lemma DeleteIsSafe(s: State, n: nat, id: JobId)
    requires Inv(s) && DispatcherOf(s, n).Chosen? && DispatcherOf(s, n).obsolete
    requires id in s.db.jobs && Live(s.db.jobs[id].status)
    ensures exists m :: m in s.db.outbox && m != DispatcherOf(s, n).row
                        && s.db.outbox[m].job == id && s.db.outbox[m].generation == s.db.jobs[id].generation
  {
    assert DispatcherOk(s.db, s.dispatchers[n]);
    var j := s.db.jobs[id];
    assert Covered(s.db.outbox, id, j);
    var m :| m in s.db.outbox && s.db.outbox[m].job == id && s.db.outbox[m].generation == j.generation;
  }

  // ----- fencing

  /** A Finish that commits persists the newest claim of its job, although no attempt number is compared. A
      retryable failure makes the job DEAD exactly when its budget is spent, and otherwise leaves the intent
      of the next attempt, due when the job is. */
  lemma FinishPersistsNewestClaim(s: State, w: Owner, lost: bool)
    requires Inv(s) && Enabled(s, FinishCommit(w, lost)) && FinishAnswer(s, w) == Persisted
    ensures var x, t := WorkerOf(s, w), NextDb(s, FinishCommit(w, lost));
            && x.held.id in s.db.jobs && x.held.id in t.jobs
            && var j, j' := s.db.jobs[x.held.id], t.jobs[x.held.id];
            && x.held.attempt == j.attemptCount == j'.attemptCount
            && x.held.retry == j.retryCount == j'.retryCount
            && x.held.generation == j.generation == j'.generation
            && j'.status == x.outcome.status && j'.nextAttemptAt == s.db.now + Micros(x.outcome.delay)
            && (x.verdict.Success? <==> j'.status == Completed)
            && (x.verdict.Transient? ==> (j'.status == Dead <==> j.attemptCount == j.maxRetries + 1))
            && (j'.status == Pending ==> exists k ::
                  k in t.outbox && Carries(t.outbox[k], x.held.id, j.generation, j.attemptCount + 1)
                  && t.outbox[k].availableAt == j'.nextAttemptAt && t.outbox[k].publishedAt.None?)
  {
    var x := WorkerOf(s, w);
    assert WorkerOk(s.db, w, s.workers[w]);
    assert JobOk(s.db.now, s.db.jobs[x.held.id]);
    var t := NextDb(s, FinishCommit(w, lost));
    if x.outcome.status == Pending {
      assert Carries(t.outbox[s.db.nextId], x.held.id, x.held.generation, x.held.attempt + 1);
    }
  }

  /** No claim succeeds while another owner's lease is running, and a superseded owner can neither renew nor finish. */
  lemma LeaseExcludes(s: State, w: Owner, h: Held)
    requires Inv(s) && h.id in s.db.jobs
    ensures Owns(s.db, h) ==> ClaimTx(s.db, s.lease, h.id, h.generation, w) == (s.db, Busy)
    ensures ClaimTx(s.db, s.lease, h.id, h.generation, w).1.Claimed? && h.owner != w ==>
              !Owns(ClaimTx(s.db, s.lease, h.id, h.generation, w).0, h)
  {
  }

  // ----- retries wait

  /** The job has waited, or still waits, for its attempt k+1 of generation g until `due`. */
  ghost predicate Waits(j: Job, g: int, k: int, due: Time) {
    || j.generation > g
    || (j.generation == g
        && (j.attemptCount > k + 1
            || (j.attemptCount == k + 1 && (j.status == Processing ==> j.nextAttemptAt == due))
            || (j.attemptCount == k && j.status != Processing && (j.status == Pending ==> j.nextAttemptAt == due))))
  }

  lemma WaitsStable(db: Db, lease: int, e: Event, id: JobId, g: int, k: int, due: Time)
    requires DbInv(db) && Licensed(db, e) && id in db.jobs && Waits(db.jobs[id], g, k, due)
    ensures id in Commit(db, lease, e).jobs && Waits(Commit(db, lease, e).jobs[id], g, k, due)
  {
    match e
    case Claim(x, h, w) => ClaimWaits(db, lease, x, h, w, id, g, k, due);
    case Finish(h, st, msg, d) =>
      var db' := FinishTx(db, h, st, msg, d).0;
      assert id in db'.jobs
             && (db'.jobs[id] == db.jobs[id] || db'.jobs[id] == Finished(db.jobs[id], db.now, st, msg, d));
    case Requeue(x) =>
      var db' := RequeueTx(db, x).0;
      assert id in db'.jobs && (db'.jobs[id] == db.jobs[id] || db'.jobs[id] == Replayed(db.jobs[id], db.now));
    case _ =>
  }

  lemma ClaimWaits(db: Db, lease: int, x: JobId, h: int, w: Owner, id: JobId, g: int, k: int, due: Time)
    requires DbInv(db) && Licensed(db, Claim(x, h, w)) && id in db.jobs && Waits(db.jobs[id], g, k, due)
    ensures var db' := ClaimTx(db, lease, x, h, w).0; id in db'.jobs && Waits(db'.jobs[id], g, k, due)
  {
    assert JobOk(db.now, db.jobs[id]);
  }

  lemma {:induction false} WaitsOverRuns(s: State, acts: seq<Action>, id: JobId, g: int, k: int, due: Time)
    requires Inv(s) && CanRun(s, acts) && id in s.db.jobs && Waits(s.db.jobs[id], g, k, due)
    ensures Inv(After(s, acts)) && id in After(s, acts).db.jobs && Waits(After(s, acts).db.jobs[id], g, k, due)
    decreases |acts|
  {
    if acts != [] {
      StepKeeps(s, acts[0]);
      EffectLicensed(s, acts[0]);
      WaitsStable(s.db, s.lease, Effect(s, acts[0]), id, g, k, due);
      WaitsOverRuns(Apply(s, acts[0]), acts[1..], id, g, k, due);
    }
  }

  /** No retry runs before its delay is over: in every run, when the next attempt of a pending job is being
      processed, the time the job was due at has come. */
  lemma RetryWaitsItsDelay(s: State, acts: seq<Action>, id: JobId)
    requires Inv(s) && CanRun(s, acts) && id in s.db.jobs && s.db.jobs[id].status == Pending
    ensures id in After(s, acts).db.jobs
    ensures var j, t := s.db.jobs[id], After(s, acts).db;
            (t.jobs[id].generation == j.generation && t.jobs[id].attemptCount == j.attemptCount + 1
             && t.jobs[id].status == Processing) ==>
            t.now >= j.nextAttemptAt
  {
    var j := s.db.jobs[id];
    WaitsOverRuns(s, acts, id, j.generation, j.attemptCount, j.nextAttemptAt);
    assert JobOk(After(s, acts).db.now, After(s, acts).db.jobs[id]);
  }

  // ----- early deliveries

  /** When Claim refuses a delivery as early, the job is pending, the delivery belongs to an attempt already
      spent, and the intent of the pending attempt exists, is not yet published, and will not be before the
      job is due. So acknowledging the delivery loses nothing. */
  lemma EarlyAcknowledgementIsSafe(s: State, w: Owner)
    requires Inv(s) && WorkerOf(s, w).Called? && ClaimAnswer(s, w) == Nothing(NotDue)
    ensures var d := WorkerOf(s, w).d;
            && d.job in s.db.jobs
            && var j := s.db.jobs[d.job];
            && j.status == Pending && j.generation == d.generation && d.intent <= j.attemptCount
            && exists k ::
                 k in s.db.outbox && Carries(s.db.outbox[k], d.job, j.generation, j.attemptCount + 1)
                 && s.db.outbox[k].publishedAt.None? && s.db.outbox[k].availableAt >= j.nextAttemptAt > s.db.now
  {
    var d := WorkerOf(s, w).d;
    assert WorkerOk(s.db, w, s.workers[w]);
    var j := s.db.jobs[d.job];
    assert JobOk(s.db.now, j) && Covered(s.db.outbox, d.job, j);
    var k :| k in s.db.outbox && Carries(s.db.outbox[k], d.job, j.generation, j.attemptCount + 1);
    assert IntentOk(s.db, s.db.outbox[k]);
  }

  /** The delivery published from the pending attempt's own intent is never refused as early. */
  lemma OwnDeliveryIsNeverEarly(s: State, w: Owner)
    requires Inv(s) && WorkerOf(s, w).Called? && WorkerOf(s, w).d.job in s.db.jobs
    requires WorkerOf(s, w).d.intent == s.db.jobs[WorkerOf(s, w).d.job].attemptCount + 1
    ensures ClaimAnswer(s, w) != Nothing(NotDue)
  {
    assert WorkerOk(s.db, w, s.workers[w]);
    assert JobOk(s.db.now, s.db.jobs[WorkerOf(s, w).d.job]);
  }

  // ----- unique keys, foreign keys, republication

  /** No insert of an intent collides with dispatch_identity: not at a retry, not at a replay, not at acceptance. */
  lemma InsertsNeverCollide(s: State, w: Owner, id: JobId, n: int, key: Option<Digest>, hash: Option<Digest>)
    requires Inv(s)
    ensures WorkerOf(s, w).Finishing? ==> FinishAnswer(s, w) != Duplicate
    ensures RequeueTx(s.db, id).1 != RequeueFailed
    ensures id !in s.db.jobs ==> CreateTx(s.db, id, n, key, hash).1 != CreateFailed
  {
    if WorkerOf(s, w).Finishing? { DispatchIdentityFree(s.db, WorkerOf(s, w).held.id); }
    DispatchIdentityFree(s.db, id);
  }

  /** No delivery and no locked intent refers to a missing job, so neither lookup can come back empty. */
  lemma NothingDangles(s: State, w: Owner, n: nat)
    requires Inv(s)
    ensures WorkerOf(s, w).Called? ==> ClaimAnswer(s, w) != Nothing(Missing)
    ensures DispatcherOf(s, n) != Free ==> Readable(s, n)
  {
    if WorkerOf(s, w).Called? { assert WorkerOk(s.db, w, s.workers[w]); }
    if DispatcherOf(s, n) != Free { assert DispatcherOk(s.db, s.dispatchers[n]); }
  }

  /** Two committed publications of one row are more than thirty seconds apart. */
  lemma PublicationsApart(s: State, n: nat)
    requires Inv(s) && DispatcherOf(s, n).Sent?
    ensures var k, t := DispatcherOf(s, n).row, Apply(s, DispatchCommit(n));
            && k in s.db.outbox && k in t.db.outbox
            && t.db.outbox[k].publishedAt == Some(t.db.now)
            && (s.db.outbox[k].publishedAt.Some? ==> t.db.now - s.db.outbox[k].publishedAt.value > 30_000_000)
  {
    assert DispatcherOk(s.db, s.dispatchers[n]);
  }
}
