/** The audit log as an event source: in insertion order, the entries of a job chain together, and replaying
    them rebuilds the job's row. */
module AuditLog {
  import opened Tables
  import opened Transactions
  import opened Durability
  import opened Protocol
  import opened Safety
  import opened JobMachine
  import opened Refinement

  /** What the log says about one job so far. Broken: an entry did not continue the previous one. */
  datatype Story = Unborn | Told(status: Status, generation: int, attempts: int, retries: int) | Broken

  function Tell(story: Story, e: Entry): Story {
    match story
    case Broken => Broken
    case Unborn => if e.from == None && e.to == Pending then Told(Pending, 1, 0, 0) else Broken
    case Told(status, generation, attempts, _) =>
      if e.from != Some(status) then Broken
      else if Live(status) && e.to == Processing then Told(Processing, generation, attempts + 1, attempts)
      else if Live(status) && e.to == Dead then story.(status := Dead)
      else if status == Processing && (e.to == Completed || e.to == Pending) then story.(status := e.to)
      else if (status == Dead || status == Failed) && e.to == Pending then Told(Pending, generation + 1, 0, 0)
      else Broken
  }

  function TellAll(story: Story, log: seq<Entry>, id: JobId): Story
    decreases |log|
  {
    if log == [] then story
    else TellAll(if log[0].job == id then Tell(story, log[0]) else story, log[1..], id)
  }

  function StoryOf(db: Db, id: JobId): Story {
    if id !in db.jobs then Unborn
    else var j := db.jobs[id]; Told(j.status, j.generation, j.attemptCount, j.retryCount)
  }

  function EntriesOf(log: seq<Entry>, id: JobId): nat {
    if log == [] then 0 else EntriesOf(log[1..], id) + if log[0].job == id then 1 else 0
  }

  lemma {:induction false} TellAppend(story: Story, a: seq<Entry>, b: seq<Entry>, id: JobId)
    ensures TellAll(story, a + b, id) == TellAll(TellAll(story, a, id), b, id)
    ensures EntriesOf(a + b, id) == EntriesOf(a, id) + EntriesOf(b, id)
    decreases |a|
  {
    if a == [] {
      assert a + b == b;
    } else {
      assert (a + b)[1..] == a[1..] + b;
      TellAppend(if a[0].job == id then Tell(story, a[0]) else story, a[1..], b, id);
    }
  }

  /** The entries that a transaction appends. */
  ghost function News(db: Db, lease: int, e: Event): seq<Entry> {
    var log := Commit(db, lease, e).audit;
    if |db.audit| <= |log| then log[|db.audit|..] else []
  }

  /** The log of db' continues that of db with what happened to job id's row. */
  ghost predicate Continues(db: Db, db': Db, id: JobId) {
    && db.audit <= db'.audit && |db'.audit| <= |db.audit| + 1
    && StoryOf(db', id) ==
         if |db'.audit| > |db.audit| && db'.audit[|db.audit|].job == id
         then Tell(StoryOf(db, id), db'.audit[|db.audit|])
         else StoryOf(db, id)
  }

  lemma ClaimContinues(db: Db, lease: int, x: JobId, g: int, w: Owner, id: JobId)
    requires DbInv(db) && Licensed(db, Claim(x, g, w))
    ensures Continues(db, ClaimTx(db, lease, x, g, w).0, id)
  {
  }

  lemma FinishContinues(db: Db, h: Held, st: Status, msg: string, d: int, id: JobId)
    requires st == Completed || st == Dead || st == Pending
    ensures Continues(db, FinishTx(db, h, st, msg, d).0, id)
  {
  }

  lemma ApiContinues(db: Db, x: JobId, n: int, key: Option<Digest>, hash: Option<Digest>, id: JobId)
    ensures Continues(db, RequeueTx(db, x).0, id)
    ensures Continues(db, CreateTx(db, x, n, key, hash).0, id)
  {
  }

  lemma CommitContinues(db: Db, lease: int, e: Event, id: JobId)
    requires DbInv(db) && Licensed(db, e)
    ensures Continues(db, Commit(db, lease, e), id)
  {
    match e
    case Claim(x, g, w) => ClaimContinues(db, lease, x, g, w, id);
    case Finish(h, st, msg, d) => FinishContinues(db, h, st, msg, d, id);
    case Requeue(x) => ApiContinues(db, x, 0, None, None, id);
    case Create(x, n, key, hash) => ApiContinues(db, x, n, key, hash, id);
    case _ =>
  }

  /** Every transaction appends to the log exactly what happens to each job's row. */
  lemma CommitLogs(db: Db, lease: int, e: Event, id: JobId)
    requires DbInv(db) && Licensed(db, e)
    ensures Commit(db, lease, e).audit == db.audit + News(db, lease, e) && |News(db, lease, e)| <= 1
    ensures TellAll(StoryOf(db, id), News(db, lease, e), id) == StoryOf(Commit(db, lease, e), id)
  {
    CommitContinues(db, lease, e, id);
    var news := News(db, lease, e);
    if news != [] { assert news[1..] == []; }
  }

  predicate Moves(step: Step, id: JobId) { (step.Moved? || step.New?) && step.id == id }

  lemma OneEntry(news: seq<Entry>, id: JobId)
    requires |news| <= 1
    ensures EntriesOf(news, id) == if news != [] && news[0].job == id then 1 else 0
  {
    if news != [] { assert news[1..] == []; }
  }

  lemma ClaimLogs(db: Db, lease: int, id: JobId, g: int, w: Owner)
    ensures var (db', reply) := ClaimTx(db, lease, id, g, w);
            var news := News(db, lease, Claim(id, g, w));
            if reply.Claimed? || reply == Nothing(Exhausted) then |news| == 1 && news[0].job == id else news == []
  {
  }

  lemma FinishLogs(db: Db, lease: int, h: Held, st: Status, msg: string, d: int)
    ensures var news := News(db, lease, Finish(h, st, msg, d));
            if FinishTx(db, h, st, msg, d).1 == Persisted then |news| == 1 && news[0].job == h.id else news == []
  {
  }

  lemma ApiLogs(db: Db, lease: int, id: JobId, n: int, key: Option<Digest>, hash: Option<Digest>)
    ensures var news := News(db, lease, Requeue(id));
            if RequeueTx(db, id).1 == Requeued then |news| == 1 && news[0].job == id else news == []
    ensures var news := News(db, lease, Create(id, n, key, hash));
            if CreateTx(db, id, n, key, hash).1.Created? then |news| == 1 && news[0].job == id else news == []
  {
  }

  /** The job that a transaction logs an entry for. */
  ghost predicate Logs(db: Db, lease: int, e: Event, id: JobId) {
    News(db, lease, e) != [] && News(db, lease, e)[0].job == id
  }

  lemma AcceptLogs(s: State, a: Action, id: JobId)
    requires Inv(s) && Enabled(s, a) && a.Accept?
    ensures Logs(s.db, s.lease, Effect(s, a), id) <==> Moves(Abstracted(s, a), id)
  {
    var e := Effect(s, a);
    if e.Create? {
      CreateOnBoard(s.db, e.id, e.maxRetries, e.key, e.hash);
      ApiLogs(s.db, s.lease, e.id, e.maxRetries, e.key, e.hash);
    }
  }

  lemma ReplayLogs(s: State, x: JobId, id: JobId)
    ensures Logs(s.db, s.lease, Effect(s, Replay(x)), id) <==> Moves(Abstracted(s, Replay(x)), id)
  {
    ApiLogs(s.db, s.lease, x, 0, None, None);
  }

  lemma ClaimStepLogs(s: State, w: Owner, lost: bool, id: JobId)
    requires Enabled(s, ClaimCommit(w, lost))
    ensures Logs(s.db, s.lease, Effect(s, ClaimCommit(w, lost)), id) <==> Moves(Abstracted(s, ClaimCommit(w, lost)), id)
  {
    ClaimLogs(s.db, s.lease, WorkerOf(s, w).d.job, WorkerOf(s, w).d.generation, w);
  }

  lemma FinishStepLogs(s: State, w: Owner, lost: bool, id: JobId)
    requires Enabled(s, FinishCommit(w, lost))
    ensures Logs(s.db, s.lease, Effect(s, FinishCommit(w, lost)), id) <==>
            Moves(Abstracted(s, FinishCommit(w, lost)), id)
  {
    var x := WorkerOf(s, w);
    FinishLogs(s.db, s.lease, x.held, x.outcome.status, x.outcome.message, Micros(x.outcome.delay));
  }

  lemma OthersLog(s: State, a: Action)
    requires Enabled(s, a) && !a.Accept? && !a.Replay? && !a.ClaimCommit? && !a.FinishCommit?
    ensures News(s.db, s.lease, Effect(s, a)) == [] && Abstracted(s, a) == Stutter
  {
  }

  /** An entry is appended for a job exactly when the job machine moves. */
  lemma StepLogs(s: State, a: Action, id: JobId)
    requires Inv(s) && Enabled(s, a)
    ensures EntriesOf(News(s.db, s.lease, Effect(s, a)), id) == if Moves(Abstracted(s, a), id) then 1 else 0
  {
    EffectLicensed(s, a);
    CommitLogs(s.db, s.lease, Effect(s, a), id);
    OneEntry(News(s.db, s.lease, Effect(s, a)), id);
    if a.Accept? {
      AcceptLogs(s, a, id);
    } else if a.Replay? {
      ReplayLogs(s, a.id, id);
    } else if a.ClaimCommit? {
      ClaimStepLogs(s, a.w, a.replyLost, id);
    } else if a.FinishCommit? {
      FinishStepLogs(s, a.w, a.replyLost, id);
    } else {
      OthersLog(s, a);
    }
  }

  /** What a step adds to the log, seen from one job. */
  lemma StepTold(s: State, a: Action, id: JobId)
    requires Inv(s) && Enabled(s, a)
    ensures var t, news := Apply(s, a), News(s.db, s.lease, Effect(s, a));
            && t.db.audit == s.db.audit + news
            && TellAll(StoryOf(s.db, id), news, id) == StoryOf(t.db, id)
            && EntriesOf(news, id) == (if Abstracted(s, a).Moved? && Abstracted(s, a).id == id then 1 else 0)
                                      + (if id !in s.db.jobs && id in t.db.jobs then 1 else 0)
            && (id in s.db.jobs ==> id in t.db.jobs)
  {
    EffectLicensed(s, a);
    CommitLogs(s.db, s.lease, Effect(s, a), id);
    StepLogs(s, a, id);
    StepRefines(s, a);
    assert id in BoardOf(s.db) <==> id in s.db.jobs;
    assert id in BoardOf(NextDb(s, a)) <==> id in NextDb(s, a).jobs;
  }

  /** The log after a step and a run, as the log before, the step's news, and the rest. */
  lemma LogSplit(s: State, acts: seq<Action>, first: seq<Entry>)
    requires CanRun(s, acts) && acts != []
    requires Apply(s, acts[0]).db.audit == s.db.audit + first
    requires Apply(s, acts[0]).db.audit <= After(s, acts).db.audit
    ensures s.db.audit <= After(s, acts).db.audit
    ensures After(s, acts).db.audit[|s.db.audit|..] ==
              first + After(s, acts).db.audit[|Apply(s, acts[0]).db.audit|..]
  {
    Splice(s.db.audit, first, After(s, acts).db.audit);
  }

  /** In every run the new part of the log tells each job's row: its status, generation, attempt count and
      retry count. It is never Broken, so each entry starts from the status the previous one ended in. */
  lemma {:induction false} EventSourced(s: State, acts: seq<Action>, id: JobId)
    requires Inv(s) && CanRun(s, acts)
    ensures s.db.audit <= After(s, acts).db.audit
    ensures TellAll(StoryOf(s.db, id), After(s, acts).db.audit[|s.db.audit|..], id) == StoryOf(After(s, acts).db, id)
    ensures EntriesOf(After(s, acts).db.audit[|s.db.audit|..], id) ==
              Count(Steps(s, acts), id) + if id !in s.db.jobs && id in After(s, acts).db.jobs then 1 else 0
    decreases |acts|
  {
    if acts == [] {
      assert s.db.audit[|s.db.audit|..] == [];
    } else {
      var t, rest := Apply(s, acts[0]), acts[1..];
      var first := News(s.db, s.lease, Effect(s, acts[0]));
      StepTold(s, acts[0], id);
      StepKeeps(s, acts[0]);
      EventSourced(t, rest, id);
      if id in t.db.jobs { StaysKnown(t, rest, id); }
      var log := After(t, rest).db.audit;
      LogSplit(s, acts, first);
      TellAppend(StoryOf(s.db, id), first, log[|t.db.audit|..], id);
      CountFirst(s, acts, id);
    }
  }

  lemma CountFirst(s: State, acts: seq<Action>, id: JobId)
    requires CanRun(s, acts) && acts != []
    ensures var first := Abstracted(s, acts[0]);
            Count(Steps(s, acts), id) ==
              (if first.Moved? && first.id == id then 1 else 0) + Count(Steps(Apply(s, acts[0]), acts[1..]), id)
  {
    assert Steps(s, acts)[1..] == Steps(Apply(s, acts[0]), acts[1..]);
  }

  lemma Splice(a: seq<Entry>, b: seq<Entry>, log: seq<Entry>)
    requires a + b <= log
    ensures a <= log && log[|a|..] == b + log[|a + b|..]
  {
  }

  lemma StaysKnown(s: State, acts: seq<Action>, id: JobId)
    requires Inv(s) && CanRun(s, acts) && id in s.db.jobs
    ensures id in After(s, acts).db.jobs
  {
    RunRefines(s, acts);
    JobsStay(Boards(s, acts), Steps(s, acts), id);
  }

  /** A story told from birth has retries = max(attempts - 1, 0). */
  lemma {:induction false} RetriesFollow(story: Story, log: seq<Entry>, id: JobId)
    requires story.Told? ==> story.attempts >= 0 && story.retries == Max(story.attempts - 1, 0)
    ensures var end := TellAll(story, log, id);
            end.Told? ==> end.attempts >= 0 && end.retries == Max(end.attempts - 1, 0)
    decreases |log|
  {
    if log != [] {
      RetriesFollow(if log[0].job == id then Tell(story, log[0]) else story, log[1..], id);
    }
  }

  lemma {:induction false} NothingTold(log: seq<Entry>, id: JobId)
    requires forall i :: 0 <= i < |log| ==> log[i].job != id
    ensures TellAll(Unborn, log, id) == Unborn && EntriesOf(log, id) == 0
    decreases |log|
  {
    if log != [] { NothingTold(log[1..], id); }
  }

  /** Folding a log whose first part is silent about the job. */
  lemma WholeLog(before: seq<Entry>, log: seq<Entry>, id: JobId)
    requires before <= log && forall i :: 0 <= i < |before| ==> before[i].job != id
    ensures TellAll(Unborn, log, id) == TellAll(Unborn, log[|before|..], id)
  {
    NothingTold(before, id);
    TellAppend(Unborn, before, log[|before|..], id);
    assert before + log[|before|..] == log;
  }

  lemma CountSplit(before: seq<Entry>, log: seq<Entry>, id: JobId)
    requires before <= log
    ensures EntriesOf(log, id) == EntriesOf(before, id) + EntriesOf(log[|before|..], id)
  {
    TellAppend(Unborn, before, log[|before|..], id);
    assert before + log[|before|..] == log;
  }

  lemma NativeStory(s: State, acts: seq<Action>, id: JobId)
    requires Inv(s) && CanRun(s, acts) && id !in s.db.jobs
    ensures TellAll(Unborn, After(s, acts).db.audit, id) == StoryOf(After(s, acts).db, id)
  {
    EventSourced(s, acts, id);
    WholeLog(s.db.audit, After(s, acts).db.audit, id);
  }

  /** For a job accepted during the run, folding the whole log rebuilds its row. */
  lemma NativeJobFromLog(s: State, acts: seq<Action>, id: JobId)
    requires Inv(s) && CanRun(s, acts) && id !in s.db.jobs && id in After(s, acts).db.jobs
    ensures var j := After(s, acts).db.jobs[id];
            && TellAll(Unborn, After(s, acts).db.audit, id)
               == Told(j.status, j.generation, j.attemptCount, j.retryCount)
            && j.retryCount == Max(j.attemptCount - 1, 0)
  {
    NativeStory(s, acts, id);
    RetriesFollow(Unborn, After(s, acts).db.audit, id);
  }

  /** In any generation, from acceptance or replay on, the log of a job with budget N grows by at most 2(N+1)
      entries before the next replay. */
  lemma LogBudget(s: State, acts: seq<Action>, id: JobId)
    requires Inv(s) && CanRun(s, acts) && id in s.db.jobs
    requires s.db.jobs[id].status == Pending && s.db.jobs[id].attemptCount == 0
    requires id in After(s, acts).db.jobs && After(s, acts).db.jobs[id].generation == s.db.jobs[id].generation
    ensures EntriesOf(After(s, acts).db.audit, id) <= EntriesOf(s.db.audit, id) + 2 * (s.db.jobs[id].maxRetries + 1)
  {
    EventSourced(s, acts, id);
    OutcomesAreFinal(s, acts, id);
    BudgetOverRuns(s, acts, id);
    CountSplit(s.db.audit, After(s, acts).db.audit, id);
  }
}
