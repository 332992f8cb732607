/** The invariant of the tables, and its preservation by every transaction. It is what makes the protocol's
    missing locks harmless: no live job is without an intent, no intent is ahead of its job, and no two
    intents share a dispatch identity. */
module Durability {
  import opened Tables
  import opened Transactions

  ghost predicate JobOk(now: Time, j: Job) {
    && j.generation >= 1
    && j.maxRetries >= 0
    && 0 <= j.attemptCount <= j.maxRetries + 1
    && (j.status == Processing ==>
          && j.attemptCount >= 1
          && j.retryCount == j.attemptCount - 1
          && j.leaseOwner.Some?
          && j.leaseUntil.Some?
          && j.nextAttemptAt <= now)
    && (j.status != Processing ==> j.leaseOwner.None? && j.leaseUntil.None?)
  }

  /** How far attempts may be numbered in the current generation of j. */
  function Ceiling(j: Job): int { j.attemptCount + if j.status == Processing then 0 else 1 }

  /** (job, generation, attempt) names something its job has already reached; if it names the pending
      attempt then that attempt is due no later than `due`. */
  ghost predicate Behind(jobs: map<JobId, Job>, id: JobId, generation: int, attempt: int, due: Time) {
    && id in jobs
    && var j := jobs[id];
    && 1 <= generation <= j.generation
    && 1 <= attempt
    && (generation == j.generation ==>
          && j.status != Failed
          && attempt <= Ceiling(j)
          && (j.status == Pending && attempt == j.attemptCount + 1 ==> j.nextAttemptAt <= due))
  }

  ghost predicate IntentOk(db: Db, r: Intent) {
    && Behind(db.jobs, r.job, r.generation, r.attempt, r.availableAt)
    && (r.publishedAt.Some? ==> r.availableAt <= r.publishedAt.value <= db.now)
  }

  ghost predicate Covered(outbox: map<nat, Intent>, id: JobId, j: Job) {
    && (j.status == Pending ==> IdentityTaken(outbox, id, j.generation, j.attemptCount + 1))
    && (j.status == Processing ==>
          exists k :: k in outbox && outbox[k].job == id && outbox[k].generation == j.generation)
  }

  ghost predicate IdentitiesUnique(outbox: map<nat, Intent>) {
    forall k, m ::
      k in outbox && m in outbox && Carries(outbox[m], outbox[k].job, outbox[k].generation, outbox[k].attempt) ==>
        k == m
  }

  ghost predicate KeysUnique(jobs: map<JobId, Job>) {
    forall a, b ::
      a in jobs && b in jobs && jobs[a].requestKey.Some? && jobs[a].requestKey == jobs[b].requestKey ==> a == b
  }

  ghost predicate DbInv(db: Db) {
    && (forall id :: id in db.jobs ==> JobOk(db.now, db.jobs[id]) && Covered(db.outbox, id, db.jobs[id]))
    && (forall k :: k in db.outbox ==> k < db.nextId && IntentOk(db, db.outbox[k]))
    && (forall i :: 0 <= i < |db.audit| ==> db.audit[i].job in db.jobs)
    && IdentitiesUnique(db.outbox)
    && KeysUnique(db.jobs)
  }

  /** What a transaction may assume about the rest of the system when it commits. */
  ghost predicate Licensed(db: Db, e: Event) {
    match e
    case Create(_, n, _, _) => n >= 0
    case Claim(id, g, _) => id in db.jobs && db.jobs[id].generation == g ==> db.jobs[id].status != Failed
    case Finish(h, st, _, _) => st == Completed || st == Dead || st == Pending
    case Mark(k) => k in db.outbox ==> db.outbox[k].availableAt <= db.now
    case Delete(k) =>
      k in db.outbox && db.outbox[k].job in db.jobs ==> Obsolete(db.jobs[db.outbox[k].job], db.outbox[k])
    case _ => true
  }

  /** No insert by acceptance, Finish or replay can violate dispatch_identity. */
  lemma DispatchIdentityFree(db: Db, id: JobId)
    requires DbInv(db)
    ensures id !in db.jobs ==> !IdentityTaken(db.outbox, id, 1, 1)
    ensures id in db.jobs ==> !IdentityTaken(db.outbox, id, db.jobs[id].generation + 1, 1)
    ensures id in db.jobs && db.jobs[id].status == Processing ==>
              !IdentityTaken(db.outbox, id, db.jobs[id].generation, db.jobs[id].attemptCount + 1)
  {
  }

  // ----- how a row may change

  /** What any one transaction may do to a job: generations and, within one, attempts only grow; a settled or
      failed job keeps its status within its generation; an attempt that is over stays over. */
  ghost predicate Progress(j: Job, j': Job) {
    && j'.maxRetries == j.maxRetries && j'.requestKey == j.requestKey && j'.requestHash == j.requestHash
    && j.generation <= j'.generation
    && (j'.generation == j.generation ==>
          && j.attemptCount <= j'.attemptCount
          && Ceiling(j) <= Ceiling(j')
          && (j'.status == Failed <==> j.status == Failed)
          && (Settled(j.status) ==> j'.status == j.status && j'.attemptCount == j.attemptCount)
          && (j.status != Processing && j'.attemptCount == j.attemptCount ==> j'.status != Processing)
          && (j'.status == Pending ==>
                j.status == Processing
                || (j.status == Pending && j'.attemptCount == j.attemptCount
                    && j'.nextAttemptAt == j.nextAttemptAt)))
  }

  ghost predicate Progressed(db: Db, db': Db) {
    && db.now <= db'.now
    && db.audit <= db'.audit
    && forall id :: id in db.jobs ==> id in db'.jobs && Progress(db.jobs[id], db'.jobs[id])
  }

  /** A transaction that rewrites or adds one job, and logs it, lets every job progress if it lets that one. */
  lemma OneRowProgresses(db: Db, db': Db, id: JobId, j: Job)
    requires db'.jobs == db.jobs[id := j] && db'.now == db.now && db.audit <= db'.audit
    requires id in db.jobs ==> Progress(db.jobs[id], j)
    ensures Progressed(db, db')
  {
  }

  lemma ClaimProgresses(db: Db, lease: int, id: JobId, g: int, owner: Owner)
    requires DbInv(db) && Licensed(db, Claim(id, g, owner))
    ensures Progressed(db, ClaimTx(db, lease, id, g, owner).0)
  {
    var (db', reply) := ClaimTx(db, lease, id, g, owner);
    if reply.Claimed? || reply == Nothing(Exhausted) {
      assert JobOk(db.now, db.jobs[id]);
      OneRowProgresses(db, db', id,
                       if reply.Claimed? then Leased(db.jobs[id], owner, db.now + lease)
                       else Buried(db.jobs[id], db.now));
    }
  }

  lemma FinishProgresses(db: Db, h: Held, st: Status, msg: string, d: int)
    requires st == Completed || st == Dead || st == Pending
    ensures Progressed(db, FinishTx(db, h, st, msg, d).0)
  {
    if FinishTx(db, h, st, msg, d).1 == Persisted {
      OneRowProgresses(db, FinishTx(db, h, st, msg, d).0, h.id, Finished(db.jobs[h.id], db.now, st, msg, d));
    }
  }

  lemma RequeueProgresses(db: Db, id: JobId)
    ensures Progressed(db, RequeueTx(db, id).0)
  {
    if RequeueTx(db, id).1 == Requeued {
      OneRowProgresses(db, RequeueTx(db, id).0, id, Replayed(db.jobs[id], db.now));
    }
  }

  lemma CreateProgresses(db: Db, id: JobId, n: int, key: Option<Digest>, hash: Option<Digest>)
    ensures Progressed(db, CreateTx(db, id, n, key, hash).0)
  {
    if CreateTx(db, id, n, key, hash).1.Created? {
      OneRowProgresses(db, CreateTx(db, id, n, key, hash).0, id, Accepted(db.now, n, key, hash));
    }
  }

  /** Every licensed transaction lets every job progress. */
  lemma CommitProgresses(db: Db, lease: int, e: Event)
    requires DbInv(db) && Licensed(db, e)
    ensures Progressed(db, Commit(db, lease, e))
  {
    match e
    case Claim(id, g, owner) => ClaimProgresses(db, lease, id, g, owner);
    case Finish(h, st, msg, d) => FinishProgresses(db, h, st, msg, d);
    case Requeue(id) => RequeueProgresses(db, id);
    case Create(id, n, key, hash) => CreateProgresses(db, id, n, key, hash);
    case _ =>
  }

  lemma BehindStable(db: Db, db': Db, id: JobId, generation: int, attempt: int, due: Time)
    requires Progressed(db, db') && Behind(db.jobs, id, generation, attempt, due)
    ensures Behind(db'.jobs, id, generation, attempt, due)
  {
    assert Progress(db.jobs[id], db'.jobs[id]);
  }

  lemma CreateKeeps(db: Db, id: JobId, n: int, key: Option<Digest>, hash: Option<Digest>)
    requires DbInv(db) && n >= 0
    ensures DbInv(CreateTx(db, id, n, key, hash).0)
  {
    var db' := CreateTx(db, id, n, key, hash).0;
    if db' != db {
      AfterInsert(db, db', id, Intent(id, 1, 1, db.now, None));
    }
  }

  /** A transaction that rewrites one job, and inserts the intent of its pending attempt, keeps the outbox sound. */
  lemma AfterInsert(db: Db, db': Db, id: JobId, r: Intent)
    requires DbInv(db)
    requires id in db'.jobs && db'.jobs == db.jobs[id := db'.jobs[id]] && db'.now == db.now
    requires db'.outbox == db.outbox[db.nextId := r] && db'.nextId == db.nextId + 1
    requires db'.jobs[id].status == Pending && Carries(r, id, db'.jobs[id].generation, db'.jobs[id].attemptCount + 1)
    requires r.publishedAt.None? && JobOk(db'.now, db'.jobs[id]) && IntentOk(db', r)
    requires id in db.jobs ==> (forall g, a, due :: Behind(db.jobs, id, g, a, due) ==> Behind(db'.jobs, id, g, a, due))
    requires !IdentityTaken(db.outbox, r.job, r.generation, r.attempt)
    requires forall i :: 0 <= i < |db'.audit| ==> db'.audit[i].job in db'.jobs
    requires KeysUnique(db'.jobs)
    ensures DbInv(db')
  {
    assert db'.outbox[db.nextId] == r;
    forall x | x in db'.jobs
      ensures Covered(db'.outbox, x, db'.jobs[x])
    {
      if x == id {
        assert Carries(db'.outbox[db.nextId], id, db'.jobs[id].generation, db'.jobs[id].attemptCount + 1);
      } else {
        var j := db.jobs[x];
        if j.status == Pending {
          var k :| k in db.outbox && Carries(db.outbox[k], x, j.generation, j.attemptCount + 1);
          assert Carries(db'.outbox[k], x, j.generation, j.attemptCount + 1);
        } else if j.status == Processing {
          var k :| k in db.outbox && db.outbox[k].job == x && db.outbox[k].generation == j.generation;
          assert db'.outbox[k].job == x && db'.outbox[k].generation == j.generation;
        }
      }
    }
    forall k | k in db'.outbox
      ensures k < db'.nextId && IntentOk(db', db'.outbox[k])
    {
    }
  }

  /** A transaction that rewrites one job and leaves the outbox alone keeps the outbox sound. */
  lemma AfterRewrite(db: Db, db': Db, id: JobId)
    requires DbInv(db) && id in db.jobs
    requires id in db'.jobs && db'.jobs == db.jobs[id := db'.jobs[id]]
    requires db'.now == db.now && db'.outbox == db.outbox && db'.nextId == db.nextId
    requires db'.jobs[id].generation == db.jobs[id].generation && db'.jobs[id].requestKey == db.jobs[id].requestKey
    requires JobOk(db.now, db'.jobs[id]) && Covered(db.outbox, id, db'.jobs[id])
    requires db'.jobs[id].status != Pending && (db'.jobs[id].status == Failed ==> db.jobs[id].status == Failed)
    requires Ceiling(db.jobs[id]) <= Ceiling(db'.jobs[id])
    requires forall i :: 0 <= i < |db'.audit| ==> db'.audit[i].job in db'.jobs
    ensures DbInv(db')
  {
    forall k | k in db'.outbox
      ensures k < db'.nextId && IntentOk(db', db'.outbox[k])
    {
      assert IntentOk(db, db.outbox[k]);
    }
  }

  lemma ClaimKeeps(db: Db, lease: int, id: JobId, g: int, owner: Owner)
    requires DbInv(db) && Licensed(db, Claim(id, g, owner))
    ensures DbInv(ClaimTx(db, lease, id, g, owner).0)
  {
    var db' := ClaimTx(db, lease, id, g, owner).0;
    if db' != db {
      AfterRewrite(db, db', id);
    }
  }

  /** Claim would take a due FAILED job that has budget left. */
  predicate ReachesFailed(db: Db, id: JobId, g: int) {
    && id in db.jobs && db.jobs[id].generation == g && db.jobs[id].status == Failed
    && !Early(db.jobs[id], db.now) && db.jobs[id].attemptCount <= db.jobs[id].maxRetries
  }

  lemma FailedClaimUncovered(db: Db, lease: int, id: JobId, g: int, owner: Owner)
    requires DbInv(db) && ReachesFailed(db, id, g)
    ensures !DbInv(ClaimTx(db, lease, id, g, owner).0)
  {
    var db' := ClaimTx(db, lease, id, g, owner).0;
    assert db'.jobs[id].status == Processing;
    assert forall k :: k in db.outbox && db.outbox[k].job == id ==> IntentOk(db, db.outbox[k]);
    assert !Covered(db'.outbox, id, db'.jobs[id]);
  }

  /** Claim does not reject the legacy status FAILED, and this is its only fault: it breaks the invariant, by
      leaving running work that no intent covers, exactly when it takes a due FAILED job that has budget left. */
  lemma ClaimOfFailedLosesWork(db: Db, lease: int, id: JobId, g: int, owner: Owner)
    requires DbInv(db)
    ensures DbInv(ClaimTx(db, lease, id, g, owner).0) <==> !ReachesFailed(db, id, g)
  {
    var db' := ClaimTx(db, lease, id, g, owner).0;
    if ReachesFailed(db, id, g) {
      FailedClaimUncovered(db, lease, id, g, owner);
    } else if db' != db {
      AfterRewrite(db, db', id);
    }
  }

  lemma RescheduleKeeps(db: Db, h: Held, msg: string, d: int)
    requires DbInv(db) && Owns(db, h)
    ensures DbInv(FinishTx(db, h, Pending, msg, d).0)
  {
    var j := Finished(db.jobs[h.id], db.now, Pending, msg, d);
    DispatchIdentityFree(db, h.id);
    AfterInsert(db, FinishTx(db, h, Pending, msg, d).0, h.id,
                Intent(h.id, j.generation, j.attemptCount + 1, j.nextAttemptAt, None));
  }

  lemma FinishKeeps(db: Db, h: Held, st: Status, msg: string, d: int)
    requires DbInv(db) && (st == Completed || st == Dead || st == Pending)
    ensures DbInv(FinishTx(db, h, st, msg, d).0)
  {
    if Owns(db, h) {
      if st == Pending {
        RescheduleKeeps(db, h, msg, d);
      } else {
        AfterRewrite(db, FinishTx(db, h, st, msg, d).0, h.id);
      }
    }
  }

  lemma RequeueKeeps(db: Db, id: JobId)
    requires DbInv(db)
    ensures DbInv(RequeueTx(db, id).0)
  {
    var db' := RequeueTx(db, id).0;
    if db' != db {
      AfterInsert(db, db', id, Intent(id, db.jobs[id].generation + 1, 1, db.now, None));
    }
  }

  lemma MarkKeeps(db: Db, k: nat)
    requires DbInv(db) && (k in db.outbox ==> db.outbox[k].availableAt <= db.now)
    ensures DbInv(MarkTx(db, k))
  {
    var db' := MarkTx(db, k);
    forall m | m in db.outbox
      ensures m in db'.outbox && Carries(db'.outbox[m], db.outbox[m].job, db.outbox[m].generation, db.outbox[m].attempt)
    {
    }
  }

  /** Deleting an obsolete intent leaves every live job with one. */
  lemma DeleteKeeps(db: Db, k: nat)
    requires DbInv(db) && Licensed(db, Delete(k))
    ensures DbInv(DeleteTx(db, k))
  {
    var db' := DeleteTx(db, k);
    forall x | x in db'.jobs
      ensures Covered(db'.outbox, x, db'.jobs[x])
    {
      StillCovered(db, k, x);
    }
    forall m | m in db'.outbox
      ensures m < db'.nextId && IntentOk(db', db'.outbox[m])
    {
      assert IntentOk(db, db.outbox[m]);
    }
  }

  lemma StillCovered(db: Db, k: nat, x: JobId)
    requires DbInv(db) && Licensed(db, Delete(k)) && x in db.jobs
    ensures Covered(db.outbox - {k}, x, db.jobs[x])
  {
    var j := db.jobs[x];
    assert Covered(db.outbox, x, j);
    if j.status == Pending {
      var m :| m in db.outbox && Carries(db.outbox[m], x, j.generation, j.attemptCount + 1);
      assert m != k && m in db.outbox - {k};
    } else if j.status == Processing {
      var m :| m in db.outbox && db.outbox[m].job == x && db.outbox[m].generation == j.generation;
      assert m != k && m in db.outbox - {k};
    }
  }

  /** Every licensed transaction keeps the invariant of the tables. */
  lemma CommitKeeps(db: Db, lease: int, e: Event)
    requires DbInv(db) && Licensed(db, e)
    ensures DbInv(Commit(db, lease, e))
  {
    match e
    case Quiet =>
    case Tick(_) =>
    case Create(id, n, key, hash) => CreateKeeps(db, id, n, key, hash);
    case Claim(id, g, owner) => ClaimKeeps(db, lease, id, g, owner);
    case Renew(h) =>
    case Finish(h, st, msg, d) => FinishKeeps(db, h, st, msg, d);
    case Requeue(id) => RequeueKeeps(db, id);
    case Mark(k) => MarkKeeps(db, k);
    case Delete(k) => DeleteKeeps(db, k);
  }
}
