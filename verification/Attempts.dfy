/** Handler runs and Finish calls over whole runs: each claimed attempt starts at most one handler, each
    claim calls Finish at most once and never after a failed renewal, and a generation with budget N starts
    at most N+1 handlers. */
module Attempts {
  import opened Tables
  import opened Transactions
  import opened Durability
  import opened Protocol
  import opened Safety

  ghost predicate Distinct(rs: seq<Run>) { forall i, j :: 0 <= i < j < |rs| ==> rs[i] != rs[j] }

  /** An attempt number that has been reached. */
  ghost predicate Reached(jobs: map<JobId, Job>, r: Run) {
    && r.id in jobs
    && r.attempt <= jobs[r.id].maxRetries + 1
    && r.generation <= jobs[r.id].generation
    && (r.generation == jobs[r.id].generation ==> r.attempt <= jobs[r.id].attemptCount)
  }

  function RunsIn(rs: seq<Run>, id: JobId, generation: int): nat {
    if rs == [] then 0
    else RunsIn(rs[..|rs| - 1], id, generation)
         + if rs[|rs| - 1].id == id && rs[|rs| - 1].generation == generation then 1 else 0
  }

  /** How many attempts of a generation can have been claimed so far. */
  function Claimable(jobs: map<JobId, Job>, id: JobId, generation: int): int {
    if id !in jobs || generation > jobs[id].generation then 0
    else if generation == jobs[id].generation then jobs[id].attemptCount
    else jobs[id].maxRetries + 1
  }

  /** No two consumers hold the same attempt. */
  ghost predicate HoldersDistinct(ws: map<Owner, Worker>) {
    forall v, w ::
      v in ws && w in ws && Holds(ws[v]) && Holds(ws[w]) && RunOf(ws[v].held) == RunOf(ws[w].held) ==> v == w
  }

  ghost predicate StartsOk(s: State) {
    && Distinct(s.hist.starts)
    && (forall r :: r in s.hist.starts ==> Reached(s.db.jobs, r))
    && (forall id, g :: RunsIn(s.hist.starts, id, g) <= Claimable(s.db.jobs, id, g))
    && (forall w :: w in s.workers && Holds(s.workers[w]) ==> RunOf(s.workers[w].held) in s.hist.starts)
    && HoldersDistinct(s.workers)
  }

  ghost predicate FinishesOk(s: State) {
    && Distinct(s.hist.finishes)
    && (forall r :: r in s.hist.finishes ==> r in s.hist.starts && r !in s.hist.failedBeats)
    && (forall r :: r in s.hist.failedBeats ==> r in s.hist.starts)
    && (forall w :: w in s.workers && Holds(s.workers[w]) ==>
          && RunOf(s.workers[w].held) !in s.hist.finishes
          && (RunOf(s.workers[w].held) in s.hist.failedBeats ==>
                s.workers[w].Attempting? && s.workers[w].beat == Stopped(true)))
  }

  lemma ReachedStable(db: Db, db': Db, r: Run)
    requires Progressed(db, db') && Reached(db.jobs, r)
    ensures Reached(db'.jobs, r)
  {
    assert Progress(db.jobs[r.id], db'.jobs[r.id]);
  }

  lemma ClaimableGrows(db: Db, db': Db, id: JobId, g: int)
    requires DbInv(db) && DbInv(db') && Progressed(db, db')
    ensures Claimable(db.jobs, id, g) <= Claimable(db'.jobs, id, g)
  {
    if id in db.jobs { assert JobOk(db.now, db.jobs[id]) && Progress(db.jobs[id], db'.jobs[id]); }
    if id in db'.jobs { assert JobOk(db'.now, db'.jobs[id]); }
  }

  /** Only a worker's own steps give it a claim. */
  lemma HoldsBefore(s: State, a: Action, w: Owner)
    requires Enabled(s, a) && w in Workers(s, a) && Holds(Workers(s, a)[w])
    ensures (Holds(WorkerOf(s, w)) && w in s.workers && Workers(s, a)[w].held == s.workers[w].held)
            || (a.ClaimCommit? && a.w == w && !a.replyLost && ClaimAnswer(s, w).Claimed?
                && Workers(s, a)[w].held == ClaimAnswer(s, w).held)
  {
  }

  lemma StartsUnchanged(s: State, a: Action)
    requires Enabled(s, a)
    ensures Observed(s, a).starts == s.hist.starts
            || (a.ClaimCommit? && !a.replyLost && ClaimAnswer(s, a.w).Claimed?
                && Observed(s, a).starts == s.hist.starts + [RunOf(ClaimAnswer(s, a.w).held)])
  {
  }

  /** A claim that succeeds takes an attempt number never reached before. */
  lemma ClaimIsNew(s: State, w: Owner)
    requires Inv(s) && WorkerOf(s, w).Called? && ClaimAnswer(s, w).Claimed?
    ensures var h := ClaimAnswer(s, w).held;
            var db' := Commit(s.db, s.lease, Claim(WorkerOf(s, w).d.job, WorkerOf(s, w).d.generation, w));
            && !Reached(s.db.jobs, RunOf(h)) && Reached(db'.jobs, RunOf(h))
            && Claimable(db'.jobs, h.id, h.generation) == Claimable(s.db.jobs, h.id, h.generation) + 1
  {
    assert WorkerOk(s.db, w, s.workers[w]);
    assert JobOk(s.db.now, s.db.jobs[WorkerOf(s, w).d.job]);
  }

  lemma CountBounded(s: State, a: Action, id: JobId, g: int)
    requires Inv(s) && StartsOk(s) && Enabled(s, a)
    ensures RunsIn(Observed(s, a).starts, id, g) <= Claimable(NextDb(s, a).jobs, id, g)
  {
    EffectLicensed(s, a);
    CommitProgresses(s.db, s.lease, Effect(s, a));
    CommitKeeps(s.db, s.lease, Effect(s, a));
    StartsUnchanged(s, a);
    ClaimableGrows(s.db, NextDb(s, a), id, g);
    var rs := Observed(s, a).starts;
    if rs != s.hist.starts {
      ClaimIsNew(s, a.w);
      assert rs[..|rs| - 1] == s.hist.starts;
    }
  }

  lemma StartsStep(s: State, a: Action)
    requires Inv(s) && StartsOk(s) && Enabled(s, a)
    ensures StartsOk(Apply(s, a))
  {
    EffectLicensed(s, a);
    CommitProgresses(s.db, s.lease, Effect(s, a));
    StartsUnchanged(s, a);
    var t := Apply(s, a);
    if t.hist.starts != s.hist.starts { ClaimIsNew(s, a.w); }
    forall r | r in t.hist.starts
      ensures Reached(t.db.jobs, r)
    {
      if r in s.hist.starts { ReachedStable(s.db, NextDb(s, a), r); }
    }
    forall id, g
      ensures RunsIn(t.hist.starts, id, g) <= Claimable(t.db.jobs, id, g)
    {
      CountBounded(s, a, id, g);
    }
    HoldersStep(s, a);
  }

  lemma HoldersStep(s: State, a: Action)
    requires Inv(s) && StartsOk(s) && Enabled(s, a)
    ensures var t := Apply(s, a);
            && (forall w :: w in t.workers && Holds(t.workers[w]) ==> RunOf(t.workers[w].held) in t.hist.starts)
            && HoldersDistinct(t.workers)
  {
    var t := Apply(s, a);
    StartsUnchanged(s, a);
    if a.ClaimCommit? && ClaimAnswer(s, a.w).Claimed? { ClaimIsNew(s, a.w); }
    forall w | w in t.workers && Holds(t.workers[w])
      ensures RunOf(t.workers[w].held) in t.hist.starts
      ensures (a.ClaimCommit? && a.w == w)
              || (w in s.workers && Holds(s.workers[w]) && t.workers[w].held == s.workers[w].held)
    {
      HoldsBefore(s, a, w);
    }
    forall v, w | v in t.workers && w in t.workers && Holds(t.workers[v]) && Holds(t.workers[w])
                  && RunOf(t.workers[v].held) == RunOf(t.workers[w].held)
      ensures v == w
    {
      HoldsBefore(s, a, v);
      HoldsBefore(s, a, w);
    }
  }

  lemma FinishesChange(s: State, a: Action)
    requires Enabled(s, a)
    ensures var f := Observed(s, a).finishes;
            f == s.hist.finishes
            || (WorkerOf(s, a.w).Finishing? && !Holds(NextWorker(s, a, a.w))
                && f == s.hist.finishes + [RunOf(WorkerOf(s, a.w).held)])
    ensures var b := Observed(s, a).failedBeats;
            b == s.hist.failedBeats
            || (WorkerOf(s, a.w).Attempting? && NextWorker(s, a, a.w) == WorkerOf(s, a.w).(beat := Stopped(true))
                && b == s.hist.failedBeats + {RunOf(WorkerOf(s, a.w).held)})
  {
  }

  /** A worker whose renewal has failed never comes to call Finish for that claim. */
  lemma FailedBeatStays(s: State, a: Action, w: Owner)
    requires Enabled(s, a) && w in s.workers && s.workers[w].Attempting? && s.workers[w].beat == Stopped(true)
    requires Holds(NextWorker(s, a, w)) && NextWorker(s, a, w).held == s.workers[w].held
    ensures NextWorker(s, a, w).Attempting? && NextWorker(s, a, w).beat == Stopped(true)
  {
  }

  lemma WorkersAfter(s: State, a: Action, w: Owner)
    requires Enabled(s, a) && w in Workers(s, a)
    ensures Workers(s, a)[w] == NextWorker(s, a, w)
  {
  }

  /** A claim still held after a step has not been finished, and if a renewal of it failed its heartbeat says so. */
  lemma HolderUnfinished(s: State, a: Action, w: Owner)
    requires Inv(s) && StartsOk(s) && FinishesOk(s) && Enabled(s, a) && w in Workers(s, a) && Holds(Workers(s, a)[w])
    ensures var x, r := Workers(s, a)[w], RunOf(Workers(s, a)[w].held);
            && r !in Observed(s, a).finishes
            && (r in Observed(s, a).failedBeats ==> x.Attempting? && x.beat == Stopped(true))
  {
    FinishesChange(s, a);
    HoldsBefore(s, a, w);
    WorkersAfter(s, a, w);
    if w in s.workers && Holds(s.workers[w]) && Workers(s, a)[w].held == s.workers[w].held {
      if s.workers[w].Attempting? && s.workers[w].beat == Stopped(true) { FailedBeatStays(s, a, w); }
    } else {
      ClaimIsNew(s, w);
    }
  }

  lemma FinishesStep(s: State, a: Action)
    requires Inv(s) && StartsOk(s) && FinishesOk(s) && Enabled(s, a)
    ensures FinishesOk(Apply(s, a))
  {
    StartsUnchanged(s, a);
    FinishesChange(s, a);
    forall w | w in Workers(s, a) && Holds(Workers(s, a)[w])
      ensures RunOf(Workers(s, a)[w].held) !in Observed(s, a).finishes
      ensures RunOf(Workers(s, a)[w].held) in Observed(s, a).failedBeats ==>
                Workers(s, a)[w].Attempting? && Workers(s, a)[w].beat == Stopped(true)
    {
      HolderUnfinished(s, a, w);
    }
  }

  /** Each claim calls Finish at most once and never after one of its renewals failed; each claimed attempt
      runs at most one handler; and a generation of a job with budget N runs at most N+1. */
  lemma {:induction false} AttemptsOverRuns(s: State, acts: seq<Action>)
    requires Inv(s) && StartsOk(s) && FinishesOk(s) && CanRun(s, acts)
    ensures StartsOk(After(s, acts)) && FinishesOk(After(s, acts))
    decreases |acts|
  {
    if acts != [] {
      StepKeeps(s, acts[0]);
      StartsStep(s, acts[0]);
      FinishesStep(s, acts[0]);
      AttemptsOverRuns(Apply(s, acts[0]), acts[1..]);
    }
  }

  lemma HandlerRunsBounded(s: State, acts: seq<Action>, id: JobId, generation: int)
    requires Init(s) && CanRun(s, acts)
    ensures var t := After(s, acts);
            && Distinct(t.hist.starts) && Distinct(t.hist.finishes)
            && (forall r :: r in t.hist.finishes ==> r in t.hist.starts && r !in t.hist.failedBeats)
            && RunsIn(t.hist.starts, id, generation) <= if id in t.db.jobs then t.db.jobs[id].maxRetries + 1 else 0
  {
    InitInv(s);
    AttemptsOverRuns(s, acts);
    RunKeeps(s, acts);
    var t := After(s, acts);
    assert RunsIn(t.hist.starts, id, generation) <= Claimable(t.db.jobs, id, generation);
    if id in t.db.jobs { assert JobOk(t.db.now, t.db.jobs[id]); }
  }
}
