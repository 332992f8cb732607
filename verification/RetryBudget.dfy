/** The retry delays that a generation schedules, added up over any run. */
module RetryBudget {
  import opened Tables
  import opened Transactions
  import opened Durability
  import opened Protocol
  import opened Safety
  import opened Guarantees
  import opened Backoff

  function Min(a: int, b: int): int { if a < b then a else b }

  /** How many retries a job can have been given in its generation: one per attempt that is over, none for the last. */
  function RetriesPossible(j: Job): int {
    Min(if j.status == Processing then j.attemptCount - 1 else j.attemptCount, j.maxRetries)
  }

  /** Totals are microseconds, caps nanoseconds. */
  ghost predicate ScheduleOk(jobs: map<JobId, Job>, id: JobId, r: Schedule) {
    if id !in jobs then r == Schedule(0, 0)
    else
      && 0 <= r.count <= RetriesPossible(jobs[id])
      && 1000 * r.total <= CapSum(RetriesPossible(jobs[id]))
      && CapSum(r.count) <= 2 * 1000 * r.total
  }

  ghost predicate SchedulesOk(s: State) { forall id :: ScheduleOk(s.db.jobs, id, ScheduleOf(s.hist, id)) }

  lemma {:induction false} CapGrows(a: nat, b: nat)
    requires a <= b
    ensures Cap(a) <= Cap(b)
  {
    Powers();
    if a < b {
      CapGrows(a, b - 1);
      assert Clamped(b) == Clamped(b - 1) || Clamped(b) == Clamped(b - 1) + 1;
    }
  }

  lemma {:induction false} CapSumGrows(a: nat, b: nat)
    requires a <= b
    ensures CapSum(a) <= CapSum(b)
  {
    if a < b {
      CapSumGrows(a, b - 1);
      DelayBounds(b - 1, 0);
    }
  }

  lemma CapWhole(attempt: int)
    ensures Cap(attempt) == 2000 * (Cap(attempt) / 2000) > 0
  {
    DelayBounds(attempt, 0);
  }

  lemma MicrosBounds(retry: int, delay: int)
    requires Cap(retry) / 2 <= delay <= Cap(retry)
    ensures Cap(retry) <= 2 * 1000 * Micros(delay) && 1000 * Micros(delay) <= Cap(retry)
  {
    CapWhole(retry);
  }

  /** One more retry, after attempt number retry+1. */
  lemma OneMore(r: Schedule, retry: nat, delay: int)
    requires r.count <= retry && 1000 * r.total <= CapSum(retry) && CapSum(r.count) <= 2 * 1000 * r.total
    requires Cap(retry) / 2 <= delay <= Cap(retry)
    ensures 1000 * (r.total + Micros(delay)) <= CapSum(retry + 1)
    ensures CapSum(r.count + 1) <= 2 * 1000 * (r.total + Micros(delay))
  {
    CapGrows(r.count, retry);
    MicrosBounds(retry, delay);
    assert CapSum(retry + 1) == CapSum(retry) + Cap(retry);
    assert CapSum(r.count + 1) == CapSum(r.count) + Cap(r.count);
  }

  /** Transactions other than a Finish only ever leave room for more retries. */
  lemma RoomStable(db: Db, lease: int, e: Event, id: JobId, r: Schedule)
    requires DbInv(db) && Licensed(db, e) && ScheduleOk(db.jobs, id, r)
    requires e.Finish? && e.held.id == id && FinishTx(db, e.held, e.status, e.message, e.delay).1 == Persisted ==>
             e.status != Pending
    requires !(e.Requeue? && e.id == id && RequeueTx(db, id).1 == Requeued)
    ensures ScheduleOk(Commit(db, lease, e).jobs, id, r)
  {
    var jobs' := Commit(db, lease, e).jobs;
    if id in db.jobs {
      assert JobOk(db.now, db.jobs[id]);
      CapSumGrows(RetriesPossible(db.jobs[id]), RetriesPossible(jobs'[id]));
    }
  }

  lemma RetryRoom(s: State, w: Owner, lost: bool)
    requires Inv(s) && Enabled(s, FinishCommit(w, lost)) && FinishAnswer(s, w) == Persisted
             && WorkerOf(s, w).outcome.status == Pending
    ensures var x, jobs' := WorkerOf(s, w), NextDb(s, FinishCommit(w, lost)).jobs;
            && x.held.id in s.db.jobs && x.held.id in jobs'
            && RetriesPossible(s.db.jobs[x.held.id]) == x.held.retry >= 0
            && RetriesPossible(jobs'[x.held.id]) == x.held.retry + 1
            && Cap(x.held.retry) / 2 <= x.outcome.delay <= Cap(x.held.retry)
  {
    assert WorkerOk(s.db, w, s.workers[w]);
    FinishPersistsNewestClaim(s, w, lost);
  }

  lemma RetryRecorded(s: State, w: Owner, lost: bool)
    requires Enabled(s, FinishCommit(w, lost)) && FinishAnswer(s, w) == Persisted
             && WorkerOf(s, w).outcome.status == Pending
    ensures var x, r := WorkerOf(s, w), ScheduleOf(s.hist, WorkerOf(s, w).held.id);
            ScheduleOf(Observed(s, FinishCommit(w, lost)), x.held.id)
                == Schedule(r.count + 1, r.total + Micros(x.outcome.delay))
  {
  }

  lemma RetryScheduled(s: State, w: Owner, lost: bool)
    requires Inv(s) && Enabled(s, FinishCommit(w, lost)) && FinishAnswer(s, w) == Persisted
             && WorkerOf(s, w).outcome.status == Pending
    requires ScheduleOk(s.db.jobs, WorkerOf(s, w).held.id, ScheduleOf(s.hist, WorkerOf(s, w).held.id))
    ensures ScheduleOk(NextDb(s, FinishCommit(w, lost)).jobs, WorkerOf(s, w).held.id,
                       ScheduleOf(Observed(s, FinishCommit(w, lost)), WorkerOf(s, w).held.id))
  {
    var h, r, delay := WorkerOf(s, w).held, ScheduleOf(s.hist, WorkerOf(s, w).held.id), WorkerOf(s, w).outcome.delay;
    RetryRoom(s, w, lost);
    RetryRecorded(s, w, lost);
    RetryFits(s.db.jobs, NextDb(s, FinishCommit(w, lost)).jobs, h.id, r, h.retry, delay);
  }

  lemma RetryFits(jobs: map<JobId, Job>, jobs': map<JobId, Job>, id: JobId, r: Schedule, retry: nat, delay: int)
    requires id in jobs && id in jobs' && RetriesPossible(jobs[id]) == retry && RetriesPossible(jobs'[id]) == retry + 1
    requires ScheduleOk(jobs, id, r) && Cap(retry) / 2 <= delay <= Cap(retry)
    ensures ScheduleOk(jobs', id, Schedule(r.count + 1, r.total + Micros(delay)))
  {
    OneMore(r, retry, delay);
  }

  lemma ScheduleUnchanged(s: State, a: Action, id: JobId)
    requires Enabled(s, a)
    requires a.FinishCommit? && WorkerOf(s, a.w).held.id == id && FinishAnswer(s, a.w) == Persisted ==>
               WorkerOf(s, a.w).outcome.status != Pending
    requires !(a.Replay? && a.id == id && RequeueTx(s.db, id).1 == Requeued)
    ensures ScheduleOf(Observed(s, a), id) == ScheduleOf(s.hist, id)
    ensures var e := Effect(s, a);
            && (e.Finish? && e.held.id == id && FinishTx(s.db, e.held, e.status, e.message, e.delay).1 == Persisted ==>
                   e.status != Pending)
            && !(e.Requeue? && e.id == id && RequeueTx(s.db, id).1 == Requeued)
  {
  }

  lemma SchedulesStep(s: State, a: Action)
    requires Inv(s) && SchedulesOk(s) && Enabled(s, a)
    ensures SchedulesOk(Apply(s, a))
  {
    EffectLicensed(s, a);
    forall id
      ensures ScheduleOk(NextDb(s, a).jobs, id, ScheduleOf(Observed(s, a), id))
    {
      assert ScheduleOk(s.db.jobs, id, ScheduleOf(s.hist, id));
      if a.FinishCommit? && WorkerOf(s, a.w).held.id == id && FinishAnswer(s, a.w) == Persisted
         && WorkerOf(s, a.w).outcome.status == Pending {
        RetryScheduled(s, a.w, a.replyLost);
      } else if a.Replay? && a.id == id && RequeueTx(s.db, id).1 == Requeued {
        assert JobOk(s.db.now, s.db.jobs[id]);
      } else {
        ScheduleUnchanged(s, a, id);
        RoomStable(s.db, s.lease, Effect(s, a), id, ScheduleOf(s.hist, id));
      }
    }
  }

  lemma {:induction false} SchedulesOverRuns(s: State, acts: seq<Action>)
    requires Inv(s) && SchedulesOk(s) && CanRun(s, acts)
    ensures SchedulesOk(After(s, acts))
    decreases |acts|
  {
    if acts != [] {
      StepKeeps(s, acts[0]);
      SchedulesStep(s, acts[0]);
      SchedulesOverRuns(Apply(s, acts[0]), acts[1..]);
    }
  }

  /** The bound in seconds on the total retry delay of a generation with budget n. */
  function TotalBound(n: nat): int { if n <= 8 then Pow2(n + 1) - 2 else 510 + 300 * (n - 8) }

  /** In every run, the delays scheduled in a job's current generation add up to at most TotalBound(N) seconds;
      and if all N retries were scheduled, to at least half of that. */
  lemma TotalBackoffBounded(s: State, acts: seq<Action>, id: JobId)
    requires Init(s) && CanRun(s, acts) && id in After(s, acts).db.jobs
    ensures var t := After(s, acts); var n, r := t.db.jobs[id].maxRetries, ScheduleOf(t.hist, id);
            && n >= 0 && r.count <= n
            && r.total <= TotalBound(n) * 1_000_000
            && (r.count == n ==> TotalBound(n) * 1_000_000 <= 2 * r.total)
  {
    InitInv(s);
    StartScheduled(s);
    SchedulesOverRuns(s, acts);
    RunKeeps(s, acts);
    var t := After(s, acts);
    var n := t.db.jobs[id].maxRetries;
    assert ScheduleOk(t.db.jobs, id, ScheduleOf(t.hist, id));
    assert JobOk(t.db.now, t.db.jobs[id]);
    TotalInSeconds(RetriesPossible(t.db.jobs[id]), n, ScheduleOf(t.hist, id));
  }

  lemma TotalInSeconds(possible: nat, n: nat, r: Schedule)
    requires possible <= n && r.count <= possible && 1000 * r.total <= CapSum(possible)
             && CapSum(r.count) <= 2 * 1000 * r.total
    ensures r.total <= TotalBound(n) * 1_000_000
    ensures r.count == n ==> TotalBound(n) * 1_000_000 <= 2 * r.total
  {
    CapSumGrows(possible, n);
    CapSumClosed(n);
    assert CapSum(n) == TotalBound(n) * SECOND;
  }

  lemma StartScheduled(s: State)
    requires Init(s)
    ensures SchedulesOk(s)
  {
    forall id
      ensures ScheduleOk(s.db.jobs, id, ScheduleOf(s.hist, id))
    {
      if id in s.db.jobs {
        assert JobOk(s.db.now, s.db.jobs[id]);
        CapSumGrows(0, RetriesPossible(s.db.jobs[id]));
      }
    }
  }
}
