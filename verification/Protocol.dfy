/** The whole system as a state machine: the database, any number of consumers with their handlers and
    heartbeats, any number of dispatchers, the unreliable stream, and the API. One action is one step that
    the others may interleave with. */
module Protocol {
  import opened Tables
  import opened Transactions
  import opened Requests
  import Backoff

  // ----- the parts

  /** A stream entry (job, generation). `intent` remembers the attempt of the outbox row it was published
      from; no code reads it. */
  datatype Delivery = Delivery(job: JobId, generation: int, intent: int)

  /** One dispatcher transaction: the row lock, the decision taken on an unlocked read, the publication. */
  datatype Dispatcher = Free | Locked(row: nat) | Chosen(row: nat, obsolete: bool) | Sent(row: nat)

  datatype Verdict = Success | Transient(message: string) | Permanent(message: string)
  datatype Heartbeat = Sleeping | Renewing | Stopped(failed: bool)
  datatype Handler = Running | Ended(verdict: Verdict)

  /** Why ProcessJob returned nil: Claim gave no job, or the outcome of `attempt` was committed with the audit
      entry `entry`. */
  datatype Why = Refused(grounds: Grounds) | Concluded(entry: nat, attempt: int, status: Status)

  /** A consumer and the ProcessJob call it is in. It takes one delivery at a time. */
  datatype Worker =
    | Idle
    | Called(d: Delivery)
    | Attempting(d: Delivery, held: Held, beat: Heartbeat, handler: Handler, expired: bool)
    | Finishing(d: Delivery, held: Held, verdict: Verdict, outcome: Outcome)
    | Acking(d: Delivery, why: Why)
    | Retaining(d: Delivery)

  /** What ProcessJob passes to Finish. */
  datatype Outcome = Outcome(status: Status, message: string, delay: int)

  /** One claimed attempt: one handler run. */
  datatype Run = Run(id: JobId, generation: int, attempt: int)

  datatype Ack = Ack(d: Delivery, why: Why)
  datatype Answer = Named(id: JobId) | Conflicting | BadKey | Unavailable
  datatype Request = Request(client: Text, key: Text, input: Input)
  datatype Reply = Reply(request: Request, answer: Answer)
  datatype Scope = Scope(client: Text, key: Text)
  datatype First = First(id: JobId, input: Input)
  /** Retries scheduled in a job's current generation: how many, and their total delay in microseconds. */
  datatype Schedule = Schedule(count: nat, total: int)

  /** Observations of the run so far. No action is enabled or disabled by them. */
  datatype History = History(
    starts: seq<Run>,
    finishes: seq<Run>,
    failedBeats: set<Run>,
    acks: seq<Ack>,
    replies: seq<Reply>,
    ledger: map<Scope, First>,
    retries: map<JobId, Schedule>)

  /** `hash` is the API's digest of a request; `orphans` holds the claims of which a renewal may
      still land after its caller has given up on it. */
  datatype State = State(
    db: Db,
    lease: int,
    hash: Input -> Digest,
    workers: map<Owner, Worker>,
    dispatchers: map<nat, Dispatcher>,
    stream: set<Delivery>,
    orphans: set<Held>,
    hist: History)

  datatype Action =
    // the environment
    | Advance(dt: nat)
    | Lose(lost: set<Delivery>)
    | Disaster
    // the API
    | Accept(client: Text, key: Option<Text>, input: Input, id: JobId, replyLost: bool)
    | Replay(id: JobId)
    // a dispatcher
    | DispatchLock(n: nat, row: nat)
    | DispatchRead(n: nat)
    | DispatchPublish(n: nat, errorSeen: bool)
    | DispatchCommit(n: nat)
    | DispatchAbort(n: nat)
    // a consumer
    | Deliver(w: Owner, d: Delivery)
    | ClaimCommit(w: Owner, replyLost: bool)
    | ClaimFail(w: Owner)
    | BeatTick(w: Owner)
    | BeatCommit(w: Owner, replyLost: bool)
    | BeatFail(w: Owner)
    | BeatQuit(w: Owner)
    | Expire(w: Owner)
    | HandlerEnd(w: Owner, verdict: Verdict)
    | HandlerPanic(w: Owner)
    | Join(w: Owner, draw: int)
    | FinishCommit(w: Owner, replyLost: bool)
    | FinishFail(w: Owner)
    | Acknowledge(w: Owner, removed: bool)
    | Release(w: Owner)
    | OrphanRenew(held: Held)
    | Crash(w: Owner)

  function WorkerOf(s: State, w: Owner): Worker { if w in s.workers then s.workers[w] else Idle }
  function DispatcherOf(s: State, n: nat): Dispatcher { if n in s.dispatchers then s.dispatchers[n] else Free }

  predicate Holds(x: Worker) { x.Attempting? || x.Finishing? }
  function RunOf(h: Held): Run { Run(h.id, h.generation, h.attempt) }

  // ----- what each part computes

  /** ProcessJob's classification of a handler result. */
  function Classify(h: Held, v: Verdict, draw: int): Outcome
    requires Backoff.Drawn(h.retry, draw)
  {
    match v
    case Success => Outcome(Completed, "Completed successfully", 0)
    case Permanent(msg) => Outcome(Dead, msg, Backoff.ExponentialDelay(h.retry, draw))
    case Transient(msg) =>
      Outcome(if h.attempt >= h.maxRetries + 1 then Dead else Pending, msg, Backoff.ExponentialDelay(h.retry, draw))
  }

  /** time.Duration.Microseconds truncates. */
  function Micros(d: int): int { d / 1000 }

  predicate LockedRow(s: State, k: nat) {
    exists n :: n in s.dispatchers && s.dispatchers[n] != Free && s.dispatchers[n].row == k
  }

  /** A row that SELECT ... FOR UPDATE SKIP LOCKED may return. It may pass over a row that another SELECT has only
      scanned, so the row need not be the first. */
  predicate Selectable(s: State, k: nat) { k in s.db.outbox && Eligible(s.db.outbox[k], s.db.now) && !LockedRow(s, k) }

  /** The row a dispatcher has locked, and that row's job, can be read. */
  predicate Readable(s: State, n: nat) {
    && DispatcherOf(s, n) != Free
    && DispatcherOf(s, n).row in s.db.outbox
    && s.db.outbox[DispatcherOf(s, n).row].job in s.db.jobs
  }

  ghost predicate Enabled(s: State, a: Action) {
    match a
    case Advance(_) => true
    case Lose(_) => true
    case Disaster => true
    case Accept(client, key, input, id, _) =>
      ValidInput(input) && ClientId(client) && (key.Some? ==> Header(key.value)) && id !in s.db.jobs
    case Replay(_) => true
    case DispatchLock(n, k) => DispatcherOf(s, n) == Free && Selectable(s, k)
    case DispatchRead(n) => DispatcherOf(s, n).Locked? && Readable(s, n)
    case DispatchPublish(n, _) => DispatcherOf(s, n).Chosen? && !DispatcherOf(s, n).obsolete && Readable(s, n)
    case DispatchCommit(n) => DispatcherOf(s, n).Sent? || (DispatcherOf(s, n).Chosen? && DispatcherOf(s, n).obsolete)
    case DispatchAbort(n) => true
    case Deliver(w, d) => WorkerOf(s, w) == Idle && d in s.stream
    case ClaimCommit(w, _) => WorkerOf(s, w).Called?
    case ClaimFail(w) => WorkerOf(s, w).Called?
    case BeatTick(w) => WorkerOf(s, w).Attempting? && WorkerOf(s, w).beat == Sleeping
    case BeatCommit(w, _) => WorkerOf(s, w).Attempting? && WorkerOf(s, w).beat == Renewing
    case BeatFail(w) => WorkerOf(s, w).Attempting? && WorkerOf(s, w).beat == Renewing
    case BeatQuit(w) =>
      WorkerOf(s, w).Attempting? && WorkerOf(s, w).beat == Sleeping
      && (WorkerOf(s, w).handler.Ended? || WorkerOf(s, w).expired)
    case Expire(w) => WorkerOf(s, w).Attempting?
    case HandlerEnd(w, _) => WorkerOf(s, w).Attempting? && WorkerOf(s, w).handler == Running
    case HandlerPanic(w) => WorkerOf(s, w).Attempting? && WorkerOf(s, w).handler == Running
    case Join(w, draw) =>
      WorkerOf(s, w).Attempting? && WorkerOf(s, w).handler.Ended? && WorkerOf(s, w).beat.Stopped?
      && Backoff.Drawn(WorkerOf(s, w).held.retry, draw)
    case FinishCommit(w, _) => WorkerOf(s, w).Finishing?
    case FinishFail(w) => WorkerOf(s, w).Finishing?
    case Acknowledge(w, _) => WorkerOf(s, w).Acking?
    case Release(w) => WorkerOf(s, w).Retaining?
    case OrphanRenew(h) => h in s.orphans
    case Crash(_) => true
  }

  function KeyDigest(client: Text, key: Option<Text>): Option<Digest> {
    if key.None? then None else Some(RequestKey(client, key.value))
  }

  /** The transaction that an action commits, if any. */
  ghost function Effect(s: State, a: Action): Event
    requires Enabled(s, a)
  {
    match a
    case Advance(dt) => Tick(dt)
    case Accept(client, key, input, id, _) =>
      if key.Some? && !ValidKey(key.value) then Quiet
      else Create(id, input.maxRetries, KeyDigest(client, key), if key.None? then None else Some(s.hash(input)))
    case Replay(id) => Requeue(id)
    case DispatchCommit(n) =>
      if DispatcherOf(s, n).Sent? then Mark(DispatcherOf(s, n).row) else Delete(DispatcherOf(s, n).row)
    case ClaimCommit(w, _) => Claim(WorkerOf(s, w).d.job, WorkerOf(s, w).d.generation, w)
    case BeatCommit(w, _) => Renew(WorkerOf(s, w).held)
    case FinishCommit(w, _) =>
      var o := WorkerOf(s, w).outcome;
      Finish(WorkerOf(s, w).held, o.status, o.message, Micros(o.delay))
    case OrphanRenew(h) => Renew(h)
    case _ => Quiet
  }

  ghost function ClaimAnswer(s: State, w: Owner): ClaimReply
    requires WorkerOf(s, w).Called?
  {
    ClaimTx(s.db, s.lease, WorkerOf(s, w).d.job, WorkerOf(s, w).d.generation, w).1
  }

  ghost function FinishAnswer(s: State, w: Owner): FinishReply
    requires WorkerOf(s, w).Finishing?
  {
    var o := WorkerOf(s, w).outcome;
    FinishTx(s.db, WorkerOf(s, w).held, o.status, o.message, Micros(o.delay)).1
  }

  ghost function AfterClaim(s: State, w: Owner): Worker
    requires WorkerOf(s, w).Called?
  {
    var d := WorkerOf(s, w).d;
    match ClaimAnswer(s, w)
    case Nothing(g) => Acking(d, Refused(g))
    case Busy => Retaining(d)
    case Claimed(h) => Attempting(d, h, Sleeping, Running, false)
  }

  /** The consumer after one of its own steps. */
  ghost function NextWorker(s: State, a: Action, w: Owner): Worker
    requires Enabled(s, a)
  {
    var x := WorkerOf(s, w);
    match a
    case Deliver(_, d) => if a.w == w then Called(d) else x
    case ClaimCommit(v, lost) => if v != w then x else if lost then Retaining(x.d) else AfterClaim(s, w)
    case ClaimFail(v) => if v == w then Retaining(x.d) else x
    case BeatTick(v) => if v == w then x.(beat := Renewing) else x
    case BeatCommit(v, lost) =>
      if v != w then x
      else if !lost && Owns(s.db, x.held) then x.(beat := Sleeping) else x.(beat := Stopped(true))
    case BeatFail(v) => if v == w then x.(beat := Stopped(true)) else x
    case BeatQuit(v) => if v == w then x.(beat := Stopped(false)) else x
    case Expire(v) => if v == w then x.(expired := true) else x
    case HandlerEnd(v, verdict) => if v == w then x.(handler := Ended(verdict)) else x
    case HandlerPanic(v) => if v == w then Retaining(x.d) else x
    case Join(v, draw) =>
      if v != w then x
      else if x.beat.failed || x.expired then Retaining(x.d)
      else Finishing(x.d, x.held, x.handler.verdict, Classify(x.held, x.handler.verdict, draw))
    case FinishCommit(v, lost) =>
      if v != w then x
      else if !lost && FinishAnswer(s, w) == Persisted then
        Acking(x.d, Concluded(|s.db.audit|, x.held.attempt, x.outcome.status))
      else Retaining(x.d)
    case FinishFail(v) => if v == w then Retaining(x.d) else x
    case Acknowledge(v, _) => if v == w then Idle else x
    case Release(v) => if v == w then Idle else x
    case Crash(v) => if v == w then Idle else x
    case Disaster => Idle
    case _ => x
  }

  predicate OfWorker(a: Action) {
    || a.Deliver? || a.ClaimCommit? || a.ClaimFail? || a.BeatTick? || a.BeatCommit? || a.BeatFail? || a.BeatQuit?
    || a.Expire? || a.HandlerEnd? || a.HandlerPanic? || a.Join? || a.FinishCommit? || a.FinishFail?
    || a.Acknowledge? || a.Release? || a.Crash?
  }

  ghost function Workers(s: State, a: Action): map<Owner, Worker>
    requires Enabled(s, a)
  {
    if a.Disaster? then map[]
    else if OfWorker(a) then s.workers[a.w := NextWorker(s, a, a.w)]
    else s.workers
  }

  ghost function Dispatchers(s: State, a: Action): map<nat, Dispatcher>
    requires Enabled(s, a)
  {
    match a
    case Disaster => map[]
    case DispatchLock(n, k) => s.dispatchers[n := Locked(k)]
    case DispatchRead(n) =>
      var r := s.db.outbox[DispatcherOf(s, n).row];
      s.dispatchers[n := Chosen(DispatcherOf(s, n).row, Obsolete(s.db.jobs[r.job], r))]
    case DispatchPublish(n, errorSeen) => s.dispatchers[n := if errorSeen then Free else Sent(DispatcherOf(s, n).row)]
    case DispatchCommit(n) => s.dispatchers[n := Free]
    case DispatchAbort(n) => s.dispatchers[n := Free]
    case _ => s.dispatchers
  }

  ghost function Stream(s: State, a: Action): set<Delivery>
    requires Enabled(s, a)
  {
    match a
    case Disaster => {}
    case Lose(lost) => s.stream - lost
    case DispatchPublish(n, _) =>
      var r := s.db.outbox[DispatcherOf(s, n).row];
      s.stream + {Delivery(r.job, r.generation, r.attempt)}
    case Acknowledge(w, removed) => if removed then s.stream - {WorkerOf(s, w).d} else s.stream
    case _ => s.stream
  }

  ghost function Orphans(s: State, a: Action): set<Held>
    requires Enabled(s, a)
  {
    match a
    case HandlerPanic(w) => if WorkerOf(s, w).beat.Stopped? then s.orphans else s.orphans + {WorkerOf(s, w).held}
    case BeatFail(w) => s.orphans + {WorkerOf(s, w).held}
    case BeatCommit(w, lost) => if lost then s.orphans + {WorkerOf(s, w).held} else s.orphans
    case Crash(w) => if WorkerOf(s, w).Attempting? then s.orphans + {WorkerOf(s, w).held} else s.orphans
    case Disaster => s.orphans + set w | w in s.workers && s.workers[w].Attempting? :: s.workers[w].held
    case _ => s.orphans
  }

  /** The reply of POST /jobs. */
  ghost function AcceptAnswer(s: State, a: Action): Answer
    requires a.Accept? && Enabled(s, a)
  {
    if a.key.Some? && !ValidKey(a.key.value) then BadKey
    else
      match CreateTx(s.db, a.id, a.input.maxRetries, KeyDigest(a.client, a.key),
                     if a.key.None? then None else Some(s.hash(a.input))).1
      case Created(id) => Named(id)
      case Existing(id) => Named(id)
      case Conflict => Conflicting
      case CreateFailed => Unavailable
  }

  /** The simple map that idempotent acceptance is: the first request of a scope names its job, and a later one
      conflicts when something else would be stored for it. */
  ghost function LedgerAnswer(ledger: map<Scope, First>, q: Request, id: JobId): Answer {
    if Scope(q.client, q.key) !in ledger then Named(id)
    else if SameStored(ledger[Scope(q.client, q.key)].input, q.input) then Named(ledger[Scope(q.client, q.key)].id)
    else Conflicting
  }

  function LedgerAfter(ledger: map<Scope, First>, q: Request, id: JobId): map<Scope, First> {
    if Scope(q.client, q.key) in ledger then ledger else ledger[Scope(q.client, q.key) := First(id, q.input)]
  }

  function ScheduleOf(hist: History, id: JobId): Schedule {
    if id in hist.retries then hist.retries[id] else Schedule(0, 0)
  }

  ghost function Observed(s: State, a: Action): History
    requires Enabled(s, a)
  {
    var h := s.hist;
    match a
    case Accept(client, key, input, id, lost) =>
      if key.None? || !ValidKey(key.value) then h
      else
        var q := Request(client, key.value, input);
        h.(ledger := LedgerAfter(h.ledger, q, id),
           replies := if lost then h.replies else h.replies + [Reply(q, AcceptAnswer(s, a))])
    case Replay(id) => if RequeueTx(s.db, id).1 == Requeued then h.(retries := h.retries - {id}) else h
    case ClaimCommit(w, lost) =>
      if !lost && ClaimAnswer(s, w).Claimed? then h.(starts := h.starts + [RunOf(ClaimAnswer(s, w).held)]) else h
    case BeatCommit(w, lost) =>
      if !lost && Owns(s.db, WorkerOf(s, w).held) then h
      else h.(failedBeats := h.failedBeats + {RunOf(WorkerOf(s, w).held)})
    case BeatFail(w) => h.(failedBeats := h.failedBeats + {RunOf(WorkerOf(s, w).held)})
    case FinishCommit(w, _) =>
      var x := WorkerOf(s, w);
      var called := h.(finishes := h.finishes + [RunOf(x.held)]);
      if FinishAnswer(s, w) == Persisted && x.outcome.status == Pending then
        var r := ScheduleOf(h, x.held.id);
        called.(retries := h.retries[x.held.id := Schedule(r.count + 1, r.total + Micros(x.outcome.delay))])
      else called
    case FinishFail(w) => h.(finishes := h.finishes + [RunOf(WorkerOf(s, w).held)])
    case Acknowledge(w, _) => h.(acks := h.acks + [Ack(WorkerOf(s, w).d, WorkerOf(s, w).why)])
    case _ => h
  }

  /** The database after a step. */
  ghost function NextDb(s: State, a: Action): Db
    requires Enabled(s, a)
  {
    Commit(s.db, s.lease, Effect(s, a))
  }

  /** One step of the system. */
  ghost function Apply(s: State, a: Action): State
    requires Enabled(s, a)
  {
    State(NextDb(s, a), s.lease, s.hash, Workers(s, a), Dispatchers(s, a), Stream(s, a),
          Orphans(s, a), Observed(s, a))
  }

  // ----- runs

  ghost predicate CanRun(s: State, acts: seq<Action>)
    decreases |acts|
  {
    acts == [] || (Enabled(s, acts[0]) && CanRun(Apply(s, acts[0]), acts[1..]))
  }

  ghost function After(s: State, acts: seq<Action>): State
    requires CanRun(s, acts)
    decreases |acts|
  {
    if acts == [] then s else After(Apply(s, acts[0]), acts[1..])
  }
}
