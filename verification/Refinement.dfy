/** The whole system refines the table of simple job machines. */
module Refinement {
  import opened Tables
  import opened Transactions
  import opened Durability
  import opened Protocol
  import opened Safety
  import opened JobMachine

  function ViewOf(j: Job): View { View(j.generation, j.status, j.attemptCount, j.maxRetries) }

  function BoardOf(db: Db): Board { map id | id in db.jobs :: ViewOf(db.jobs[id]) }

  /** The move that a persisted outcome makes. */
  function OutcomeMove(st: Status): Move { if st == Pending then Retry else if st == Completed then Complete else Bury }

  /** The move of the job machine that a step of the system amounts to. Only an accepted request, a replay, a
      successful or exhausting claim, and a persisted outcome amount to one. */
  ghost function Abstracted(s: State, a: Action): Step
    requires Enabled(s, a)
  {
    match a
    case Accept(_, key, input, id, _) =>
      if Effect(s, a).Create? && AcceptAnswer(s, a) == Named(id) then New(id, input.maxRetries) else Stutter
    case Replay(id) => if RequeueTx(s.db, id).1 == Requeued then Moved(id, Restart) else Stutter
    case ClaimCommit(w, _) =>
      if ClaimAnswer(s, w).Claimed? then Moved(WorkerOf(s, w).d.job, Begin)
      else if ClaimAnswer(s, w) == Nothing(Exhausted) then Moved(WorkerOf(s, w).d.job, Exhaust)
      else Stutter
    case FinishCommit(w, _) =>
      if FinishAnswer(s, w) != Persisted then Stutter
      else Moved(WorkerOf(s, w).held.id, OutcomeMove(WorkerOf(s, w).outcome.status))
    case _ => Stutter
  }

  /** A transaction that rewrites or adds one job changes one entry of the board. */
  lemma BoardUpdate(db: Db, db': Db, id: JobId, j: Job)
    requires db'.jobs == db.jobs[id := j]
    ensures BoardOf(db') == BoardOf(db)[id := ViewOf(j)]
  {
  }

  lemma ClaimOnBoard(db: Db, lease: int, id: JobId, g: int, w: Owner)
    requires DbInv(db) && Licensed(db, Claim(id, g, w))
    ensures var (db', reply) := ClaimTx(db, lease, id, g, w);
            Next(BoardOf(db),
                 if reply.Claimed? then Moved(id, Begin)
                 else if reply == Nothing(Exhausted) then Moved(id, Exhaust)
                 else Stutter,
                 BoardOf(db'))
  {
    var (db', reply) := ClaimTx(db, lease, id, g, w);
    if db' != db {
      assert JobOk(db.now, db.jobs[id]);
      BoardUpdate(db, db', id, db'.jobs[id]);
    }
  }

  lemma ClaimRefines(s: State, w: Owner, lost: bool)
    requires Inv(s) && Enabled(s, ClaimCommit(w, lost))
    ensures Next(BoardOf(s.db), Abstracted(s, ClaimCommit(w, lost)), BoardOf(NextDb(s, ClaimCommit(w, lost))))
  {
    EffectLicensed(s, ClaimCommit(w, lost));
    ClaimOnBoard(s.db, s.lease, WorkerOf(s, w).d.job, WorkerOf(s, w).d.generation, w);
  }

  lemma FinishOnBoard(db: Db, h: Held, st: Status, msg: string, d: int)
    requires st == Completed || st == Dead || st == Pending
    requires Owns(db, h) && st == Pending ==> db.jobs[h.id].attemptCount <= db.jobs[h.id].maxRetries
    ensures var (db', reply) := FinishTx(db, h, st, msg, d);
            Next(BoardOf(db),
                 if reply != Persisted then Stutter
                 else Moved(h.id, OutcomeMove(st)),
                 BoardOf(db'))
  {
    var (db', reply) := FinishTx(db, h, st, msg, d);
    if reply == Persisted { BoardUpdate(db, db', h.id, db'.jobs[h.id]); }
  }

  /** What the outcome being persisted says of the job, by the invariant. */
  lemma OutcomeAffordable(s: State, w: Owner)
    requires Inv(s) && WorkerOf(s, w).Finishing?
    ensures var o, h := WorkerOf(s, w).outcome, WorkerOf(s, w).held;
            && (o.status == Completed || o.status == Dead || o.status == Pending)
            && (Owns(s.db, h) && o.status == Pending ==> s.db.jobs[h.id].attemptCount <= s.db.jobs[h.id].maxRetries)
  {
    assert WorkerOk(s.db, w, s.workers[w]);
  }

  lemma FinishEffect(s: State, w: Owner, lost: bool)
    requires Enabled(s, FinishCommit(w, lost))
    ensures var x := WorkerOf(s, w);
            var (db, reply) := FinishTx(s.db, x.held, x.outcome.status, x.outcome.message, Micros(x.outcome.delay));
            && NextDb(s, FinishCommit(w, lost)) == db
            && Abstracted(s, FinishCommit(w, lost)) ==
                 if reply != Persisted then Stutter else Moved(x.held.id, OutcomeMove(x.outcome.status))
  {
  }

  lemma FinishRefines(s: State, w: Owner, lost: bool)
    requires Inv(s) && Enabled(s, FinishCommit(w, lost))
    ensures Next(BoardOf(s.db), Abstracted(s, FinishCommit(w, lost)), BoardOf(NextDb(s, FinishCommit(w, lost))))
  {
    var x := WorkerOf(s, w);
    OutcomeAffordable(s, w);
    FinishEffect(s, w, lost);
    FinishOnBoard(s.db, x.held, x.outcome.status, x.outcome.message, Micros(x.outcome.delay));
  }

  lemma CreateOnBoard(db: Db, id: JobId, n: int, key: Option<Digest>, hash: Option<Digest>)
    requires DbInv(db) && n >= 0 && id !in db.jobs
    ensures var (db', reply) := CreateTx(db, id, n, key, hash);
            && (reply == Created(id) <==> !(key.Some? && KeyTaken(db.jobs, key.value)))
            && (reply.Existing? ==> reply.id != id)
            && Next(BoardOf(db), if reply == Created(id) then New(id, n) else Stutter, BoardOf(db'))
  {
    DispatchIdentityFree(db, id);
    if !(key.Some? && KeyTaken(db.jobs, key.value)) {
      BoardUpdate(db, CreateTx(db, id, n, key, hash).0, id, Accepted(db.now, n, key, hash));
    }
  }

  lemma AcceptRefines(s: State, a: Action)
    requires Inv(s) && Enabled(s, a) && a.Accept?
    ensures Next(BoardOf(s.db), Abstracted(s, a), BoardOf(NextDb(s, a)))
  {
    if Effect(s, a).Create? {
      CreateOnBoard(s.db, a.id, a.input.maxRetries, KeyDigest(a.client, a.key),
                    if a.key.None? then None else Some(s.hash(a.input)));
    }
  }

  lemma ReplayRefines(s: State, id: JobId)
    requires Inv(s)
    ensures Next(BoardOf(s.db), Abstracted(s, Replay(id)), BoardOf(NextDb(s, Replay(id))))
  {
    if RequeueTx(s.db, id).1 == Requeued {
      BoardUpdate(s.db, RequeueTx(s.db, id).0, id, Replayed(s.db.jobs[id], s.db.now));
    }
  }

  predicate Routine(e: Event) { e.Quiet? || e.Tick? || e.Renew? || e.Mark? || e.Delete? }

  lemma RoutineEffect(s: State, a: Action)
    requires Enabled(s, a) && !a.Accept? && !a.Replay? && !a.ClaimCommit? && !a.FinishCommit?
    ensures Routine(Effect(s, a)) && Abstracted(s, a) == Stutter
  {
  }

  lemma RoutineOnBoard(db: Db, lease: int, e: Event)
    requires Routine(e)
    ensures BoardOf(Commit(db, lease, e)) == BoardOf(db)
  {
  }

  /** Every step of the system is a step of the table of job machines. Dispatching, the stream, renewals,
      acknowledgements, crashes and the clock change nothing in it. */
  lemma StepRefines(s: State, a: Action)
    requires Inv(s) && Enabled(s, a)
    ensures Next(BoardOf(s.db), Abstracted(s, a), BoardOf(NextDb(s, a)))
    ensures !a.Accept? && !a.Replay? && !a.ClaimCommit? && !a.FinishCommit? ==> Abstracted(s, a) == Stutter
  {
    if a.Accept? {
      AcceptRefines(s, a);
    } else if a.Replay? {
      ReplayRefines(s, a.id);
    } else if a.ClaimCommit? {
      ClaimRefines(s, a.w, a.replyLost);
    } else if a.FinishCommit? {
      FinishRefines(s, a.w, a.replyLost);
    } else {
      RoutineEffect(s, a);
      RoutineOnBoard(s.db, s.lease, Effect(s, a));
    }
  }

  ghost function Steps(s: State, acts: seq<Action>): (r: seq<Step>)
    requires CanRun(s, acts)
    ensures |r| == |acts|
    decreases |acts|
  {
    if acts == [] then [] else [Abstracted(s, acts[0])] + Steps(Apply(s, acts[0]), acts[1..])
  }

  ghost function Boards(s: State, acts: seq<Action>): (r: seq<Board>)
    requires CanRun(s, acts)
    ensures |r| == |acts| + 1 && r[0] == BoardOf(s.db) && r[|acts|] == BoardOf(After(s, acts).db)
    decreases |acts|
  {
    [BoardOf(s.db)] + if acts == [] then [] else Boards(Apply(s, acts[0]), acts[1..])
  }

  /** Every run of the system is a run of the table of job machines. */
  lemma {:induction false} RunRefines(s: State, acts: seq<Action>)
    requires Inv(s) && CanRun(s, acts)
    ensures Path(Boards(s, acts), Steps(s, acts))
    decreases |acts|
  {
    if acts != [] {
      var t, rest := Apply(s, acts[0]), acts[1..];
      StepRefines(s, acts[0]);
      StepKeeps(s, acts[0]);
      RunRefines(t, rest);
      PathMore(BoardOf(s.db), Abstracted(s, acts[0]), Boards(t, rest), Steps(t, rest));
    }
  }

  /** In every run a completed job stays completed, and a dead one is left alone until a replay raises its
      generation. */
  lemma OutcomesAreFinal(s: State, acts: seq<Action>, id: JobId)
    requires Inv(s) && CanRun(s, acts) && id in s.db.jobs
    ensures var j, t := s.db.jobs[id], After(s, acts).db;
            && id in t.jobs
            && (j.status == Completed ==> ViewOf(t.jobs[id]) == ViewOf(j))
            && (j.status == Dead ==> ViewOf(t.jobs[id]) == ViewOf(j) || t.jobs[id].generation > j.generation)
            && t.jobs[id].generation == j.generation + CountOf(Steps(s, acts), id, Restart)
  {
    RunRefines(s, acts);
    SettledForGood(Boards(s, acts), Steps(s, acts), id);
    GenerationCountsRestarts(Boards(s, acts), Steps(s, acts), id);
  }

  /** In every run, between acceptance or replay and the next replay, a job with budget N changes status at
      most 2(N+1) times and is claimed at most N+1 times, whatever crashes, lost leases and lost replies occur. */
  lemma BudgetOverRuns(s: State, acts: seq<Action>, id: JobId)
    requires Inv(s) && CanRun(s, acts) && id in s.db.jobs
    requires s.db.jobs[id].status == Pending && s.db.jobs[id].attemptCount == 0
    requires CountOf(Steps(s, acts), id, Restart) == 0
    ensures Count(Steps(s, acts), id) <= 2 * (s.db.jobs[id].maxRetries + 1)
    ensures CountOf(Steps(s, acts), id, Begin) <= s.db.jobs[id].maxRetries + 1
  {
    RunRefines(s, acts);
    assert JobOk(s.db.now, s.db.jobs[id]);
    GenerationBudget(Boards(s, acts), Steps(s, acts), id);
  }
}
