/** The three MySQL tables that hold the durable truth: jobs, job_outbox and job_audit_logs. */
module Tables {

  datatype Option<+T> = None | Some(value: T)

  /** A UTF-16 code unit, the element of a JavaScript string. */
  type CodeUnit = u: int | 0 <= u < 0x1_0000
  type Text = seq<CodeUnit>

  type Byte = b: int | 0 <= b < 0x100

  /** SHA-256 taken as collision free: a digest is determined by, and determines, the bytes that were hashed. */
  datatype Digest = Sha256(preimage: seq<Byte>)

  type JobId = string
  type Owner = string
  /** Microseconds, the resolution of DATETIME(6) and NOW(6). */
  type Time = int

  datatype Status = Pending | Processing | Completed | Failed | Dead

  predicate Settled(st: Status) { st == Completed || st == Dead }
  predicate Live(st: Status) { st == Pending || st == Processing }

  /** The columns of `jobs` that the protocol reads or writes after acceptance. */
  datatype Job = Job(
    status: Status,
    generation: int,
    attemptCount: int,
    retryCount: int,
    maxRetries: int,
    nextAttemptAt: Time,
    leaseOwner: Option<Owner>,
    leaseUntil: Option<Time>,
    processedAt: Option<Time>,
    errorMsg: Option<string>,
    requestKey: Option<Digest>,
    requestHash: Option<Digest>)

  /** A row of `job_outbox`: the intent to deliver one attempt of one generation. */
  datatype Intent = Intent(job: JobId, generation: int, attempt: int, availableAt: Time, publishedAt: Option<Time>)

  /** A row of `job_audit_logs`. */
  datatype Entry = Entry(job: JobId, from: Option<Status>, to: Status, message: string, worker: Option<Owner>)

  /** The database: its clock, its tables, and the next AUTO_INCREMENT value of the outbox. */
  datatype Db = Db(now: Time, jobs: map<JobId, Job>, outbox: map<nat, Intent>, nextId: nat, audit: seq<Entry>)

  predicate Carries(r: Intent, id: JobId, generation: int, attempt: int) {
    r.job == id && r.generation == generation && r.attempt == attempt
  }

  /** The unique key dispatch_identity is already taken. */
  predicate IdentityTaken(outbox: map<nat, Intent>, id: JobId, generation: int, attempt: int) {
    exists k :: k in outbox && Carries(outbox[k], id, generation, attempt)
  }

  /** The unique key idx_request_key is already taken. */
  predicate KeyTaken(jobs: map<JobId, Job>, key: Digest) {
    exists id :: id in jobs && jobs[id].requestKey == Some(key)
  }
}
