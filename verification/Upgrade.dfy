/** The durable-delivery migration: new columns with their defaults, then three statements over whole tables
    whose order matters. */
module Upgrade {
  import opened Tables
  import opened Durability
  import Protocol
  import Safety
  import Requests

  /** A row of the original jobs table. */
  datatype LegacyJob = LegacyJob(status: Status, retryCount: int, maxRetries: int, processedAt: Option<Time>,
                                 errorMsg: Option<string>)

  /** ALTER TABLE at time t: every new column gets its default. */
  function Widened(j: LegacyJob, t: Time): Job {
    Job(j.status, 1, 0, j.retryCount, j.maxRetries, t, None, None, j.processedAt, j.errorMsg, None, None)
  }

  /** UPDATE jobs SET attempt_count = retry_count + IF(status = 'PROCESSING', 1, 0) for live jobs. */
  function CountAttempts(jobs: map<JobId, Job>): map<JobId, Job> {
    map id | id in jobs ::
      if Live(jobs[id].status) then
        jobs[id].(attemptCount := jobs[id].retryCount + if jobs[id].status == Processing then 1 else 0)
      else jobs[id]
  }

  function FirstIntent(jobs: map<JobId, Job>, id: JobId, t: Time): Intent
    requires id in jobs
  {
    Intent(id, jobs[id].generation, jobs[id].attemptCount + 1, t, None)
  }

  /** INSERT INTO job_outbox SELECT ... for live jobs, into an empty table whose ids start at 1. `order` is the
      order in which the SELECT yields the rows. */
  function InsertIntents(jobs: map<JobId, Job>, order: seq<JobId>, t: Time): map<nat, Intent>
    requires forall i :: 0 <= i < |order| ==> order[i] in jobs
  {
    if order == [] then map[]
    else InsertIntents(jobs, order[..|order| - 1], t)[|order| := FirstIntent(jobs, order[|order| - 1], t)]
  }

  lemma {:induction false} InsertedRows(jobs: map<JobId, Job>, order: seq<JobId>, t: Time)
    requires forall i :: 0 <= i < |order| ==> order[i] in jobs
    ensures forall k :: k in InsertIntents(jobs, order, t) <==> 1 <= k <= |order|
    ensures forall k :: k in InsertIntents(jobs, order, t) ==>
            InsertIntents(jobs, order, t)[k] == FirstIntent(jobs, order[k - 1], t)
  {
    if order != [] { InsertedRows(jobs, order[..|order| - 1], t); }
  }

  /** UPDATE jobs SET status = 'PENDING' WHERE status = 'PROCESSING'. */
  function Interrupt(jobs: map<JobId, Job>): map<JobId, Job> {
    map id | id in jobs :: if jobs[id].status == Processing then jobs[id].(status := Pending) else jobs[id]
  }

  /** The database after the migration, its two kinds of timestamps taken at alteredAt and insertedAt. */
  function Upgraded(legacy: map<JobId, LegacyJob>, audit: seq<Entry>, order: seq<JobId>, alteredAt: Time,
                    insertedAt: Time): Db
    requires forall i :: 0 <= i < |order| ==> order[i] in legacy
  {
    var widened := map id | id in legacy :: Widened(legacy[id], alteredAt);
    var counted := CountAttempts(widened);
    Db(insertedAt, Interrupt(counted), InsertIntents(counted, order, insertedAt), |order| + 1, audit)
  }

  /** A legacy table of any size in which no job has used more than its retries. */
  ghost predicate LegacyOk(legacy: map<JobId, LegacyJob>, audit: seq<Entry>) {
    && (forall id :: id in legacy ==> 0 <= legacy[id].retryCount <= legacy[id].maxRetries)
    && (forall i :: 0 <= i < |audit| ==> audit[i].job in legacy)
  }

  /** order lists the live jobs, each once. */
  ghost predicate ListsLegacy(legacy: map<JobId, LegacyJob>, order: seq<JobId>) {
    && (forall i :: 0 <= i < |order| ==> order[i] in legacy && Live(legacy[order[i]].status))
    && (forall id :: id in legacy && Live(legacy[id].status) ==> id in order)
    && (forall i, j :: 0 <= i < j < |order| ==> order[i] != order[j])
  }

  /** The backfill establishes the invariant of the protocol. Interrupted work becomes pending, a live job has
      used up one attempt per retry and one more if it was interrupted, and it has exactly one intent, for
      its next attempt; a settled or failed job has none. */
  lemma UpgradeEstablishesInvariant(legacy: map<JobId, LegacyJob>, audit: seq<Entry>, order: seq<JobId>,
                                    alteredAt: Time, insertedAt: Time)
    requires LegacyOk(legacy, audit) && ListsLegacy(legacy, order) && alteredAt <= insertedAt
    ensures var db := Upgraded(legacy, audit, order, alteredAt, insertedAt);
            && DbInv(db)
            && db.jobs.Keys == legacy.Keys
            && (forall id :: id in legacy && Live(legacy[id].status) ==>
                  && db.jobs[id].status == Pending
                  && db.jobs[id].attemptCount
                     == legacy[id].retryCount + (if legacy[id].status == Processing then 1 else 0)
                  && IdentityTaken(db.outbox, id, 1, db.jobs[id].attemptCount + 1))
            && (forall k, m :: k in db.outbox && m in db.outbox && db.outbox[k].job == db.outbox[m].job ==> k == m)
            && (forall k :: k in db.outbox ==> Live(legacy[db.outbox[k].job].status))
  {
    UpgradedJobs(legacy, audit, order, alteredAt, insertedAt);
    UpgradedIntents(legacy, audit, order, alteredAt, insertedAt);
    forall id | id in legacy && Live(legacy[id].status)
      ensures var db := Upgraded(legacy, audit, order, alteredAt, insertedAt);
              IdentityTaken(db.outbox, id, 1, db.jobs[id].attemptCount + 1)
    {
      UpgradedCover(legacy, audit, order, alteredAt, insertedAt, id);
    }
  }

  /** Every other column is as it was, or has its default, and each intent is new, unpublished and available at once. */
  lemma UpgradeKeepsColumns(legacy: map<JobId, LegacyJob>, audit: seq<Entry>, order: seq<JobId>, alteredAt: Time,
                            insertedAt: Time)
    requires LegacyOk(legacy, audit) && ListsLegacy(legacy, order) && alteredAt <= insertedAt
    ensures var db := Upgraded(legacy, audit, order, alteredAt, insertedAt);
            && db.audit == audit
            && (forall id :: id in legacy ==>
                  var j, was := db.jobs[id], legacy[id];
                  && j.generation == 1 && j.nextAttemptAt == alteredAt && j.leaseOwner.None? && j.leaseUntil.None?
                  && j.retryCount == was.retryCount && j.maxRetries == was.maxRetries
                  && j.processedAt == was.processedAt && j.errorMsg == was.errorMsg
                  && j.requestKey.None? && j.requestHash.None?
                  && (was.status != Processing ==> j.status == was.status))
            && (forall k :: k in db.outbox ==>
                  db.outbox[k].availableAt == insertedAt && db.outbox[k].publishedAt.None? && k < db.nextId)
  {
    UpgradedRows(legacy, audit, order, alteredAt, insertedAt);
  }

  lemma UpgradedJobs(legacy: map<JobId, LegacyJob>, audit: seq<Entry>, order: seq<JobId>, alteredAt: Time,
                     insertedAt: Time)
    requires LegacyOk(legacy, audit) && ListsLegacy(legacy, order)
    ensures var db := Upgraded(legacy, audit, order, alteredAt, insertedAt);
            && db.jobs.Keys == legacy.Keys
            && (forall id :: id in legacy ==>
                  && JobOk(db.now, db.jobs[id])
                  && db.jobs[id].generation == 1 && db.jobs[id].nextAttemptAt == alteredAt
                  && db.jobs[id].requestKey.None?
                  && db.jobs[id].status == (if legacy[id].status == Processing then Pending else legacy[id].status)
                  && db.jobs[id].attemptCount == if !Live(legacy[id].status) then 0
                        else legacy[id].retryCount + if legacy[id].status == Processing then 1 else 0)
  {
  }

  lemma UpgradedIntents(legacy: map<JobId, LegacyJob>, audit: seq<Entry>, order: seq<JobId>, alteredAt: Time,
                        insertedAt: Time)
    requires LegacyOk(legacy, audit) && ListsLegacy(legacy, order) && alteredAt <= insertedAt
    ensures var db := Upgraded(legacy, audit, order, alteredAt, insertedAt);
            && (forall k :: k in db.outbox ==>
                  && k < db.nextId && IntentOk(db, db.outbox[k]) && Live(legacy[db.outbox[k].job].status))
            && (forall k, m :: k in db.outbox && m in db.outbox && db.outbox[k].job == db.outbox[m].job ==> k == m)
  {
    UpgradedRows(legacy, audit, order, alteredAt, insertedAt);
    UpgradedJobs(legacy, audit, order, alteredAt, insertedAt);
  }

  lemma UpgradedCover(legacy: map<JobId, LegacyJob>, audit: seq<Entry>, order: seq<JobId>, alteredAt: Time,
                      insertedAt: Time, id: JobId)
    requires LegacyOk(legacy, audit) && ListsLegacy(legacy, order) && id in legacy && Live(legacy[id].status)
    ensures var db := Upgraded(legacy, audit, order, alteredAt, insertedAt);
            id in db.jobs && db.jobs[id].status == Pending && db.jobs[id].generation == 1
            && IdentityTaken(db.outbox, id, 1, db.jobs[id].attemptCount + 1)
  {
    var db := Upgraded(legacy, audit, order, alteredAt, insertedAt);
    UpgradedRows(legacy, audit, order, alteredAt, insertedAt);
    UpgradedJobs(legacy, audit, order, alteredAt, insertedAt);
    var i :| 0 <= i < |order| && order[i] == id;
    assert i + 1 in db.outbox;
    assert Carries(db.outbox[i + 1], id, 1, db.jobs[id].attemptCount + 1);
  }

  lemma UpgradedRows(legacy: map<JobId, LegacyJob>, audit: seq<Entry>, order: seq<JobId>, alteredAt: Time,
                     insertedAt: Time)
    requires LegacyOk(legacy, audit) && ListsLegacy(legacy, order)
    ensures var db := Upgraded(legacy, audit, order, alteredAt, insertedAt);
            && (forall k :: k in db.outbox <==> 1 <= k <= |order|)
            && (forall k :: k in db.outbox ==>
                  order[k - 1] in db.jobs
                  && db.outbox[k] == Intent(order[k - 1], 1, db.jobs[order[k - 1]].attemptCount + 1, insertedAt, None))
  {
    var widened := map id | id in legacy :: Widened(legacy[id], alteredAt);
    InsertedRows(CountAttempts(widened), order, insertedAt);
  }

  /** So everything proved of runs holds of runs that start right after the upgrade. */
  lemma SystemStartsSound(s: Protocol.State, legacy: map<JobId, LegacyJob>, audit: seq<Entry>, order: seq<JobId>,
                          alteredAt: Time, insertedAt: Time)
    requires LegacyOk(legacy, audit) && ListsLegacy(legacy, order) && alteredAt <= insertedAt
    requires s.db == Upgraded(legacy, audit, order, alteredAt, insertedAt)
    requires s.lease > 0 && Requests.IsRequestHash(s.hash)
    requires s.workers == map[] && s.dispatchers == map[] && s.stream == {} && s.orphans == {}
    requires s.hist == Protocol.History([], [], {}, [], [], map[], map[])
    ensures Safety.Init(s)
  {
    UpgradeEstablishesInvariant(legacy, audit, order, alteredAt, insertedAt);
    UpgradedJobs(legacy, audit, order, alteredAt, insertedAt);
  }

  /** The order of the statements matters. Had interrupted work been made pending first, the attempt that was
      interrupted would be forgotten, for every job that was being processed. */
  lemma InterruptFirstForgetsAttempts(legacy: map<JobId, LegacyJob>, id: JobId, t: Time)
    requires id in legacy && legacy[id].status == Processing
    ensures var widened := map x | x in legacy :: Widened(legacy[x], t);
            CountAttempts(Interrupt(widened))[id].attemptCount == Interrupt(CountAttempts(widened))[id].attemptCount - 1
  {
  }

  /** And had the intents been inserted before the attempts were counted, a job that had used attempts would be
      left without the intent of its next one. */
  lemma InsertFirstLosesWork(legacy: map<JobId, LegacyJob>, audit: seq<Entry>, order: seq<JobId>, id: JobId, t: Time)
    requires LegacyOk(legacy, audit) && ListsLegacy(legacy, order)
    requires id in legacy && Live(legacy[id].status) && (legacy[id].retryCount > 0 || legacy[id].status == Processing)
    ensures var widened := map x | x in legacy :: Widened(legacy[x], t);
            !DbInv(Db(t, Interrupt(CountAttempts(widened)), InsertIntents(widened, order, t), |order| + 1, audit))
  {
    var widened := map x | x in legacy :: Widened(legacy[x], t);
    var db := Db(t, Interrupt(CountAttempts(widened)), InsertIntents(widened, order, t), |order| + 1, audit);
    InsertedRows(widened, order, t);
    assert db.jobs[id].status == Pending && db.jobs[id].attemptCount > 0;
    assert forall k :: k in db.outbox ==> db.outbox[k].attempt == 1;
    assert !Covered(db.outbox, id, db.jobs[id]);
  }

  /** Only the count has to come first: inserting the intents and making interrupted work pending commute. */
  lemma {:induction false} LastTwoCommute(jobs: map<JobId, Job>, order: seq<JobId>, t: Time)
    requires forall i :: 0 <= i < |order| ==> order[i] in jobs
    ensures InsertIntents(Interrupt(jobs), order, t) == InsertIntents(jobs, order, t)
    ensures forall id :: id in jobs ==> Live(Interrupt(jobs)[id].status) == Live(jobs[id].status)
    decreases |order|
  {
    if order != [] { LastTwoCommute(jobs, order[..|order| - 1], t); }
  }

  /** The migration as statements over the tables. */
  class Migration {
    var jobs: map<JobId, Job>
    var outbox: map<nat, Intent>
    var nextId: nat

    constructor (legacy: map<JobId, LegacyJob>, alteredAt: Time)
      ensures jobs == map id | id in legacy :: Widened(legacy[id], alteredAt)
      ensures outbox == map[] && nextId == 1
    {
      jobs := map id | id in legacy :: Widened(legacy[id], alteredAt);
      outbox, nextId := map[], 1;
    }

    method Backfill(order: seq<JobId>, insertedAt: Time)
      requires outbox == map[] && nextId == 1
      requires forall i :: 0 <= i < |order| ==> order[i] in jobs
      modifies this
      ensures jobs == Interrupt(CountAttempts(old(jobs)))
      ensures outbox == InsertIntents(CountAttempts(old(jobs)), order, insertedAt) && nextId == |order| + 1
    {
      jobs := map id | id in jobs ::
        if Live(jobs[id].status) then
          jobs[id].(attemptCount := jobs[id].retryCount + if jobs[id].status == Processing then 1 else 0)
        else jobs[id];
      var i := 0;
      while i < |order|
        invariant 0 <= i <= |order| && nextId == i + 1
        invariant jobs == CountAttempts(old(jobs))
        invariant outbox == InsertIntents(jobs, order[..i], insertedAt)
      {
        assert order[..i + 1][..i] == order[..i];
        outbox := outbox[nextId := Intent(order[i], jobs[order[i]].generation, jobs[order[i]].attemptCount + 1,
                                           insertedAt, None)];
        nextId := nextId + 1;
        i := i + 1;
      }
      assert order[..i] == order;
      jobs := map id | id in jobs :: if jobs[id].status == Processing then jobs[id].(status := Pending) else jobs[id];
    }
  }
}
