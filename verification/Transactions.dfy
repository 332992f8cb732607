/** Each SQL transaction of the system as a function from the database before to the database after.
    A transaction that rolls back leaves the database as it was. */
module Transactions {
  import opened Tables

  /** The in-memory models.Job that a successful Claim hands to its worker. */
  datatype Held = Held(id: JobId, generation: int, owner: Owner, attempt: int, retry: int, maxRetries: int)

  /** Why Claim returned neither a job nor an error. */
  datatype Grounds = Missing | Superseded | Terminal | NotDue | Exhausted

  datatype ClaimReply = Nothing(grounds: Grounds) | Busy | Claimed(held: Held)
  datatype FinishReply = Persisted | LostLease | Duplicate
  datatype RequeueReply = Requeued | NotFound | NotRequeueable | RequeueFailed
  datatype CreateReply = Created(id: JobId) | Existing(id: JobId) | Conflict | CreateFailed

  const EXHAUSTED := "Attempt budget exhausted after interrupted execution"
  /** A published intent becomes eligible again after thirty seconds. */
  const REPUBLISH_AFTER: int := 30_000_000

  predicate Active(j: Job, now: Time) { j.leaseUntil.Some? && j.leaseUntil.value > now }
  predicate Early(j: Job, now: Time) { j.nextAttemptAt > now }

  function Max(a: int, b: int): int { if a < b then b else a }

  function Buried(j: Job, now: Time): Job {
    j.(status := Dead, errorMsg := Some(EXHAUSTED), leaseOwner := None, leaseUntil := None, processedAt := Some(now))
  }

  /** MySQL evaluates the assignments of an UPDATE from left to right, so retry_count is computed from
      the attempt_count that was just incremented. */
  function Leased(j: Job, owner: Owner, until: Time): Job {
    var counted := j.(status := Processing, attemptCount := j.attemptCount + 1);
    counted.(retryCount := Max(counted.attemptCount - 1, 0), leaseOwner := Some(owner), leaseUntil := Some(until))
  }

  function HeldFrom(id: JobId, j: Job, owner: Owner): Held {
    Held(id, j.generation, owner, j.attemptCount + 1, j.attemptCount, j.maxRetries)
  }

  function ClaimTx(db: Db, lease: int, id: JobId, generation: int, owner: Owner): (Db, ClaimReply) {
    if id !in db.jobs then (db, Nothing(Missing))
    else
      var j := db.jobs[id];
      if j.generation != generation then (db, Nothing(Superseded))
      else if Settled(j.status) then (db, Nothing(Terminal))
      else if j.status == Processing && Active(j, db.now) then (db, Busy)
      else if Early(j, db.now) then (db, Nothing(NotDue))
      else if j.attemptCount >= j.maxRetries + 1 then
        (db.(jobs := db.jobs[id := Buried(j, db.now)],
             audit := db.audit + [Entry(id, Some(j.status), Dead, EXHAUSTED, Some(owner))]),
         Nothing(Exhausted))
      else
        (db.(jobs := db.jobs[id := Leased(j, owner, db.now + lease)],
             audit := db.audit + [Entry(id, Some(j.status), Processing, "Attempt claimed", Some(owner))]),
         Claimed(HeldFrom(id, j, owner)))
  }

  /** The WHERE clause that fences Renew and Finish: generation, status, owner and an unexpired lease. */
  predicate Owns(db: Db, h: Held) {
    && h.id in db.jobs
    && var j := db.jobs[h.id];
    && j.generation == h.generation
    && j.status == Processing
    && j.leaseOwner == Some(h.owner)
    && Active(j, db.now)
  }

  function RenewTx(db: Db, lease: int, h: Held): (Db, bool) {
    if !Owns(db, h) then (db, false)
    else (db.(jobs := db.jobs[h.id := db.jobs[h.id].(leaseUntil := Some(db.now + lease))]), true)
  }

  function Finished(j: Job, now: Time, status: Status, message: string, delay: int): Job {
    j.(status := status,
       errorMsg := if message == "" then None else Some(message),
       nextAttemptAt := now + delay,
       leaseOwner := None,
       leaseUntil := None,
       processedAt := if status == Pending then None else Some(now))
  }

  function WithIntent(db: Db, r: Intent): Db {
    db.(outbox := db.outbox[db.nextId := r], nextId := db.nextId + 1)
  }

  function FinishTx(db: Db, h: Held, status: Status, message: string, delay: int): (Db, FinishReply) {
    if !Owns(db, h) then (db, LostLease)
    else
      var j := Finished(db.jobs[h.id], db.now, status, message, delay);
      var logged := db.(jobs := db.jobs[h.id := j],
                        audit := db.audit + [Entry(h.id, Some(Processing), status, message, Some(h.owner))]);
      if status != Pending then (logged, Persisted)
      else if IdentityTaken(db.outbox, h.id, j.generation, j.attemptCount + 1) then (db, Duplicate)
      else (WithIntent(logged, Intent(h.id, j.generation, j.attemptCount + 1, j.nextAttemptAt, None)), Persisted)
  }

  function Replayed(j: Job, now: Time): Job {
    j.(status := Pending, retryCount := 0, attemptCount := 0, generation := j.generation + 1, nextAttemptAt := now,
       leaseOwner := None, leaseUntil := None, errorMsg := None, processedAt := None)
  }

  function RequeueTx(db: Db, id: JobId): (Db, RequeueReply) {
    if id !in db.jobs then (db, NotFound)
    else
      var j := db.jobs[id];
      if j.status != Dead && j.status != Failed then (db, NotRequeueable)
      else if IdentityTaken(db.outbox, id, j.generation + 1, 1) then (db, RequeueFailed)
      else
        var logged := db.(jobs := db.jobs[id := Replayed(j, db.now)],
                          audit := db.audit + [Entry(id, Some(j.status), Pending, "Manually requeued via API", None)]);
        (WithIntent(logged, Intent(id, j.generation + 1, 1, db.now, None)), Requeued)
  }

  function Accepted(now: Time, maxRetries: int, key: Option<Digest>, hash: Option<Digest>): Job {
    Job(Pending, 1, 0, 0, maxRetries, now, None, None, None, None, key, hash)
  }

  /** The job that an accepted request key names. */
  ghost function KeyHolder(jobs: map<JobId, Job>, key: Digest): JobId
    requires KeyTaken(jobs, key)
  {
    var id :| id in jobs && jobs[id].requestKey == Some(key);
    id
  }

  ghost function CreateTx(db: Db, id: JobId, maxRetries: int, key: Option<Digest>, hash: Option<Digest>)
      : (Db, CreateReply)
  {
    if id !in db.jobs && !(key.Some? && KeyTaken(db.jobs, key.value)) && !IdentityTaken(db.outbox, id, 1, 1) then
      var logged := db.(jobs := db.jobs[id := Accepted(db.now, maxRetries, key, hash)],
                        audit := db.audit + [Entry(id, None, Pending, "Job created", None)]);
      (WithIntent(logged, Intent(id, 1, 1, db.now, None)), Created(id))
    else if key.Some? && KeyTaken(db.jobs, key.value) then
      var first := KeyHolder(db.jobs, key.value);
      if db.jobs[first].requestHash != hash then (db, Conflict) else (db, Existing(first))
    else (db, CreateFailed)
  }

  /** The WHERE clause of the dispatcher's SELECT. */
  predicate Eligible(r: Intent, now: Time) {
    && r.availableAt <= now
    && (r.publishedAt.None? || r.publishedAt.value < now - REPUBLISH_AFTER)
  }

  /** The dispatcher's test, on its unlocked read of the job, that an intent is no longer needed. */
  predicate Obsolete(j: Job, r: Intent) { j.generation != r.generation || Settled(j.status) }

  function MarkTx(db: Db, k: nat): Db {
    if k !in db.outbox then db
    else db.(outbox := db.outbox[k := db.outbox[k].(publishedAt := Some(db.now))])
  }

  function DeleteTx(db: Db, k: nat): Db { db.(outbox := db.outbox - {k}) }

  /** Everything that can happen to the database, one committed transaction (or clock movement) at a time. */
  datatype Event =
    | Quiet
    | Tick(dt: nat)
    | Create(id: JobId, maxRetries: int, key: Option<Digest>, hash: Option<Digest>)
    | Claim(id: JobId, generation: int, owner: Owner)
    | Renew(held: Held)
    | Finish(held: Held, status: Status, message: string, delay: int)
    | Requeue(id: JobId)
    | Mark(row: nat)
    | Delete(row: nat)

  ghost function Commit(db: Db, lease: int, e: Event): Db {
    match e
    case Quiet => db
    case Tick(dt) => db.(now := db.now + dt)
    case Create(id, n, key, hash) => CreateTx(db, id, n, key, hash).0
    case Claim(id, g, owner) => ClaimTx(db, lease, id, g, owner).0
    case Renew(h) => RenewTx(db, lease, h).0
    case Finish(h, st, msg, d) => FinishTx(db, h, st, msg, d).0
    case Requeue(id) => RequeueTx(db, id).0
    case Mark(k) => MarkTx(db, k)
    case Delete(k) => DeleteTx(db, k)
  }
}
