/** What each operation answers and writes, read off the columns of its row: exactly when it answers what, and
    every column, log entry and intent afterwards. */
module Answers {
  import opened Tables
  import opened Transactions
  import opened Durability
  import opened Dispatching
  import opened Minimum
  import opened StoreOperations

  // ----- claim

  /** A running claim keeps others off: the delivery is kept. */
  predicate UnderLease(db: Db, id: JobId, g: int) {
    && id in db.jobs && db.jobs[id].generation == g
    && db.jobs[id].status == Processing && db.jobs[id].leaseUntil.Some? && db.jobs[id].leaseUntil.value > db.now
  }

  /** There is nothing to do for the delivery now: it can be let go and nothing is written. */
  predicate NothingToDo(db: Db, id: JobId, g: int) {
    || id !in db.jobs
    || db.jobs[id].generation != g || db.jobs[id].status == Completed || db.jobs[id].status == Dead
    || (!UnderLease(db, id, g) && db.jobs[id].nextAttemptAt > db.now)
  }

  predicate BudgetSpent(db: Db, id: JobId) { id in db.jobs && db.jobs[id].attemptCount > db.jobs[id].maxRetries }

  /** The row, the log and the rest of the tables after a transaction that writes one job. */
  predicate Writes(db: Db, db': Db, id: JobId, j: Job, e: Entry) {
    && db'.jobs == db.jobs[id := j] && db'.audit == db.audit + [e] && db'.now == db.now
  }

  predicate KeepsOutbox(db: Db, db': Db) { db'.outbox == db.outbox && db'.nextId == db.nextId }

  predicate Inserts(db: Db, db': Db, r: Intent) {
    db'.outbox == db.outbox[db.nextId := r] && db'.nextId == db.nextId + 1
  }

  /** The answers of Claim, each exactly when. */
  lemma ClaimAnswers(db: Db, lease: int, id: JobId, g: int, w: Owner)
    ensures var (db', reply) := ClaimTx(db, lease, id, g, w);
            && (reply.Busy? <==> UnderLease(db, id, g))
            && (reply.Nothing? && reply.grounds != Exhausted <==> NothingToDo(db, id, g))
            && (reply == Nothing(Exhausted) <==>
                  !UnderLease(db, id, g) && !NothingToDo(db, id, g) && BudgetSpent(db, id))
            && (reply.Claimed? <==>
                  !UnderLease(db, id, g) && !NothingToDo(db, id, g) && !BudgetSpent(db, id))
            && (reply.Busy? || NothingToDo(db, id, g) ==> db' == db)
  {
  }

  /** The grounds that are given say what they mean. */
  lemma ClaimGrounds(db: Db, lease: int, id: JobId, g: int, w: Owner)
    ensures var reply := ClaimTx(db, lease, id, g, w).1;
            && (reply == Nothing(Missing) <==> id !in db.jobs)
            && (reply == Nothing(Superseded) <==> id in db.jobs && db.jobs[id].generation != g)
            && (reply == Nothing(Terminal) <==>
                  id in db.jobs && db.jobs[id].generation == g
                  && (db.jobs[id].status == Completed || db.jobs[id].status == Dead))
  {
  }

  /** A successful claim: one more attempt, a lease of the full length for this owner, and nothing else. */
  lemma ClaimWrites(db: Db, lease: int, id: JobId, g: int, w: Owner)
    requires ClaimTx(db, lease, id, g, w).1.Claimed? && db.jobs[id].attemptCount >= 0
    ensures var (db', reply) := ClaimTx(db, lease, id, g, w); var j := db.jobs[id];
            && reply.held == Held(id, g, w, j.attemptCount + 1, j.attemptCount, j.maxRetries)
            && KeepsOutbox(db, db')
            && Writes(db, db', id,
                      Job(Processing, g, j.attemptCount + 1, j.attemptCount, j.maxRetries, j.nextAttemptAt, Some(w),
                          Some(db.now + lease), j.processedAt, j.errorMsg, j.requestKey, j.requestHash),
                      Entry(id, Some(j.status), Processing, "Attempt claimed", Some(w)))
  {
  }

  /** A claim of a job whose budget an interrupted execution has spent: the job is DEAD, and says why. */
  lemma ExhaustedWrites(db: Db, lease: int, id: JobId, g: int, w: Owner)
    requires ClaimTx(db, lease, id, g, w).1 == Nothing(Exhausted)
    ensures var db' := ClaimTx(db, lease, id, g, w).0; var j := db.jobs[id];
            var why := "Attempt budget exhausted after interrupted execution";
            && KeepsOutbox(db, db')
            && Writes(db, db', id,
                      Job(Dead, g, j.attemptCount, j.retryCount, j.maxRetries, j.nextAttemptAt, None, None,
                          Some(db.now), Some(why), j.requestKey, j.requestHash),
                      Entry(id, Some(j.status), Dead, why, Some(w)))
  {
  }

  // ----- renew and finish

  /** The claim's owner holds the job's generation under a lease that is still running. */
  predicate HoldsLease(db: Db, h: Held) {
    UnderLease(db, h.id, h.generation) && db.jobs[h.id].leaseOwner == Some(h.owner)
  }

  lemma RenewWrites(db: Db, lease: int, h: Held)
    ensures var (db', ok) := RenewTx(db, lease, h);
            && (ok <==> HoldsLease(db, h))
            && (!ok ==> db' == db)
            && (ok ==>
                  && KeepsOutbox(db, db') && db'.audit == db.audit && db'.now == db.now
                  && db'.jobs == db.jobs[h.id := db.jobs[h.id].(leaseUntil := Some(db.now + lease))])
  {
  }

  /** What a Finish does, answer and tables. */
  ghost predicate FinishDoes(db: Db, h: Held, st: Status, msg: string, d: int, db': Db, reply: FinishReply) {
    && (reply == Persisted <==> HoldsLease(db, h))
    && (reply != Persisted ==> reply == LostLease && db' == db)
    && (reply == Persisted ==>
          var j := db.jobs[h.id];
          && Writes(db, db', h.id,
                    Job(st, h.generation, j.attemptCount, j.retryCount, j.maxRetries, db.now + d, None, None,
                        if st == Pending then None else Some(db.now), if msg == "" then None else Some(msg),
                        j.requestKey, j.requestHash),
                    Entry(h.id, Some(Processing), st, msg, Some(h.owner)))
          && if st == Pending then
               Inserts(db, db', Intent(h.id, h.generation, j.attemptCount + 1, db.now + d, None))
             else KeepsOutbox(db, db'))
  }

  lemma FinishWritesFree(db: Db, h: Held, st: Status, msg: string, d: int)
    requires HoldsLease(db, h) ==>
               !IdentityTaken(db.outbox, h.id, db.jobs[h.id].generation, db.jobs[h.id].attemptCount + 1)
    ensures FinishDoes(db, h, st, msg, d, FinishTx(db, h, st, msg, d).0, FinishTx(db, h, st, msg, d).1)
  {
  }

  /** Finish persists exactly under the fence, and writes the outcome, its time, its message, its log entry and, for
      a retry only, the intent of the next attempt, due when the job is. */
  lemma FinishWrites(db: Db, h: Held, st: Status, msg: string, d: int)
    requires DbInv(db)
    ensures FinishDoes(db, h, st, msg, d, FinishTx(db, h, st, msg, d).0, FinishTx(db, h, st, msg, d).1)
  {
    DispatchIdentityFree(db, h.id);
    FinishWritesFree(db, h, st, msg, d);
  }

  // ----- accept and replay

  /** Replay takes every dead or failed job, and no other, into its next generation with a fresh budget, due now,
      with the intent of its first attempt available now. */
  lemma RequeueWrites(db: Db, id: JobId)
    requires DbInv(db)
    ensures var (db', reply) := RequeueTx(db, id);
            && (reply == NotFound <==> id !in db.jobs)
            && (reply == Requeued <==> id in db.jobs && (db.jobs[id].status == Dead || db.jobs[id].status == Failed))
            && (reply == NotRequeueable <==> id in db.jobs && db.jobs[id].status !in {Dead, Failed})
            && (reply != Requeued ==> db' == db)
            && (reply == Requeued ==>
                  var j := db.jobs[id];
                  && Writes(db, db', id,
                            Job(Pending, j.generation + 1, 0, 0, j.maxRetries, db.now, None, None, None, None,
                                j.requestKey, j.requestHash),
                            Entry(id, Some(j.status), Pending, "Manually requeued via API", None))
                  && Inserts(db, db', Intent(id, j.generation + 1, 1, db.now, None)))
  {
    DispatchIdentityFree(db, id);
  }

  predicate KeyUsed(db: Db, key: Option<Digest>) {
    key.Some? && exists other :: other in db.jobs && db.jobs[other].requestKey == key
  }

  /** Acceptance under a fresh identifier: a job is created exactly if the key is absent or unused, due now, with the
      intent of its first attempt available now; otherwise the answer is the job of the key, or a conflict. */
  lemma CreateWrites(db: Db, id: JobId, n: int, key: Option<Digest>, hash: Option<Digest>)
    requires DbInv(db) && id !in db.jobs
    ensures var (db', reply) := CreateTx(db, id, n, key, hash);
            && (reply.Created? <==> !KeyUsed(db, key))
            && (reply.Created? ==>
                  && reply.id == id
                  && Writes(db, db', id, Job(Pending, 1, 0, 0, n, db.now, None, None, None, None, key, hash),
                            Entry(id, None, Pending, "Job created", None))
                  && Inserts(db, db', Intent(id, 1, 1, db.now, None)))
            && (!reply.Created? ==> db' == db)
            && (forall other :: key.Some? && other in db.jobs && db.jobs[other].requestKey == key ==>
                  reply == if db.jobs[other].requestHash == hash then Existing(other) else Conflict)
  {
    DispatchIdentityFree(db, id);
  }

  // ----- dispatch

  /** A row that has become available and was not published within the last thirty seconds. */
  predicate Ready(db: Db, k: nat) {
    && k in db.outbox && db.outbox[k].availableAt <= db.now
    && (db.outbox[k].publishedAt.Some? ==> db.now - db.outbox[k].publishedAt.value > 30_000_000)
  }

  /** Its job is still in the row's generation and has not ended. */
  predicate Needed(db: Db, k: nat) {
    && k in db.outbox && db.outbox[k].job in db.jobs
    && db.jobs[db.outbox[k].job].generation == db.outbox[k].generation
    && db.jobs[db.outbox[k].job].status != Completed && db.jobs[db.outbox[k].job].status != Dead
  }

  function PairOf(r: Intent): (JobId, int) { (r.job, r.generation) }

  predicate FirstReady(db: Db, locked: set<nat>, k: nat) {
    Ready(db, k) && k !in locked && forall m :: Ready(db, m) && m !in locked ==> k <= m
  }

  predicate Stays(db: Db, db': Db) {
    db'.jobs == db.jobs && db'.now == db.now && db'.audit == db.audit && db'.nextId == db.nextId
  }

  /** A call finds nothing, and does nothing, exactly if no row is ready; otherwise there is a first ready row. */
  lemma DispatchFindsNothing(db: Db, locked: set<nat>, fate: DispatchFate)
    requires Referential(db)
    ensures var (db', sent, reply) := DispatchTx(db, locked, fate);
            && (reply == NoneEligible <==> forall k :: Ready(db, k) ==> k in locked)
            && (reply == NoneEligible ==> db' == db && sent == [])
            && (reply != NoneEligible ==> exists k :: FirstReady(db, locked, k))
  {
    FirstTaken(db, locked);
  }

  /** A call takes the first ready row: a needed row is published as its job and generation, and stamped; any other is
      deleted and nothing is published. */
  lemma DispatchWrites(db: Db, locked: set<nat>, k: nat)
    requires Referential(db) && FirstReady(db, locked, k)
    ensures var (db', sent, reply) := DispatchTx(db, locked, Works);
            && reply == Handled && Stays(db, db')
            && sent == (if Needed(db, k) then [PairOf(db.outbox[k])] else [])
            && db'.outbox == if Needed(db, k) then db.outbox[k := db.outbox[k].(publishedAt := Some(db.now))]
                             else db.outbox - {k}
  {
    FirstTaken(db, locked);
  }

  /** The row that a call takes is the first ready one. */
  lemma FirstTaken(db: Db, locked: set<nat>)
    ensures FreeRows(db, locked) == {} <==> forall k :: Ready(db, k) ==> k in locked
    ensures FreeRows(db, locked) != {} ==> FirstReady(db, locked, Least(FreeRows(db, locked)))
    ensures forall k :: FirstReady(db, locked, k) ==> FreeRows(db, locked) != {} && k == Least(FreeRows(db, locked))
  {
    forall k
      ensures k in FreeRows(db, locked) <==> Ready(db, k) && k !in locked
    {
    }
    if FreeRows(db, locked) == {} {
      forall k | Ready(db, k)
        ensures k in locked
      {
        assert k !in FreeRows(db, locked);
      }
    }
  }

  lemma ReadyRows(db: Db)
    ensures forall k :: k in EligibleRows(db) <==> Ready(db, k)
  {
  }

  /** How failures differ: nothing is sent if the publication fails, a failed commit takes the row's change back but
      not the publication, and an unseen commit does everything; all three are reported as errors. */
  lemma DispatchFails(db: Db, locked: set<nat>, fate: DispatchFate)
    requires Referential(db) && fate != Works && DispatchTx(db, locked, Works).2 == Handled
    ensures var (db', sent, reply) := DispatchTx(db, locked, fate);
            var (done, pairs, _) := DispatchTx(db, locked, Works);
            match fate
            case PublishFails =>
              if pairs == [] then (db', sent, reply) == (done, pairs, Handled)
              else (db', sent, reply) == (db, [], DispatchError)
            case CommitFails => (db', sent, reply) == (db, pairs, DispatchError)
            case _ => (db', sent, reply) == (done, pairs, DispatchError)
  {
  }

  /** The pair names the generation that its job is in, and the job is waiting or running. */
  predicate Current(jobs: map<JobId, Job>, p: (JobId, int)) {
    p.0 in jobs && jobs[p.0].generation == p.1 && (jobs[p.0].status == Pending || jobs[p.0].status == Processing)
  }

  /** No row names the current generation of a FAILED job. */
  predicate Claimable(db: Db) {
    && Referential(db)
    && forall k :: k in db.outbox && db.jobs[db.outbox[k].job].generation == db.outbox[k].generation ==>
         db.jobs[db.outbox[k].job].status != Failed
  }

  lemma SoundIsClaimable(db: Db)
    requires DbInv(db)
    ensures Claimable(db)
  {
    InvReferential(db);
    forall k | k in db.outbox && db.jobs[db.outbox[k].job].generation == db.outbox[k].generation
      ensures db.jobs[db.outbox[k].job].status != Failed
    {
      assert IntentOk(db, db.outbox[k]);
    }
  }

  lemma CurrentIsNotRefused(db: Db, p: (JobId, int), lease: int, w: Owner)
    requires Current(db.jobs, p)
    ensures ClaimTx(db, lease, p.0, p.1, w).1 !in {Nothing(Missing), Nothing(Superseded), Nothing(Terminal)}
  {
  }

  lemma CallSends(db: Db, c: Call)
    requires Claimable(db)
    ensures Claimable(CallTx(db, c).0) && CallTx(db, c).0.jobs == db.jobs
    ensures forall p :: p in CallTx(db, c).1 ==> Current(db.jobs, p)
  {
    var late := db.(now := db.now + c.elapsed);
    if FreeRows(late, c.locked) != {} {
      var k := Least(FreeRows(late, c.locked));
      OneFewer(late, k);
      assert DispatchRow(late, k).outbox.Keys <= late.outbox.Keys;
      assert k in DispatchRow(late, k).outbox ==>
               DispatchRow(late, k).outbox[k].(publishedAt := None) == late.outbox[k].(publishedAt := None);
    }
  }

  lemma {:induction false} SendsClaimable(db: Db, calls: seq<Call>)
    requires Claimable(db)
    ensures forall p :: p in LoopTx(db, calls).1 ==> Current(db.jobs, p)
    decreases |calls|
  {
    if calls != [] {
      CallSends(db, calls[0]);
      SendsClaimable(CallTx(db, calls[0]).0, calls[1..]);
    }
  }

  /** Whatever the loop publishes, over any calls and failures, names a job's current generation, waiting or running:
      a claim with it is not refused as missing, superseded or terminal. */
  lemma LoopSendsCurrent(db: Db, calls: seq<Call>, lease: int, w: Owner)
    requires DbInv(db) && Referential(db)
    ensures forall p :: p in LoopTx(db, calls).1 ==> Current(db.jobs, p)
    ensures forall p :: p in LoopTx(db, calls).1 ==>
              ClaimTx(db, lease, p.0, p.1, w).1 !in {Nothing(Missing), Nothing(Superseded), Nothing(Terminal)}
  {
    SoundIsClaimable(db);
    SendsClaimable(db, calls);
    forall p | p in LoopTx(db, calls).1
      ensures ClaimTx(db, lease, p.0, p.1, w).1 !in {Nothing(Missing), Nothing(Superseded), Nothing(Terminal)}
    {
      CurrentIsNotRefused(db, p, lease, w);
    }
  }

  // ----- the dispatcher's loop

  function Elapsed(calls: seq<Call>): nat { if calls == [] then 0 else calls[0].elapsed + Elapsed(calls[1..]) }

  /** The loop takes the time of its calls and 250 milliseconds for each that fails or finds nothing. */
  lemma {:induction false} LoopTakes(db: Db, calls: seq<Call>)
    requires Referential(db)
    ensures LoopTx(db, calls).2 <= |calls|
    ensures LoopTx(db, calls).0.now == db.now + Elapsed(calls) + 250_000 * (|calls| - LoopTx(db, calls).2)
    decreases |calls|
  {
    if calls != [] {
      DispatchKeepsRows(db.(now := db.now + calls[0].elapsed), calls[0].locked, calls[0].fate);
      LoopTakes(CallTx(db, calls[0]).0, calls[1..]);
    }
  }

  /** Draining publishes a needed ready row's pair, deletes every other ready row, and leaves the rest alone. */
  lemma {:induction false} DrainWrites(db: Db, k: nat)
    requires Referential(db) && k in db.outbox
    ensures var db' := Drained(db);
            && Stays(db, db')
            && (!Ready(db, k) ==> k in db'.outbox && db'.outbox[k] == db.outbox[k])
            && (Ready(db, k) && !Needed(db, k) ==> k !in db'.outbox)
            && (Ready(db, k) && Needed(db, k) ==>
                  && k in db'.outbox && db'.outbox[k] == db.outbox[k].(publishedAt := Some(db.now))
                  && PairOf(db.outbox[k]) in DrainSends(db))
    decreases |EligibleRows(db)|
  {
    ReadyRows(db);
    if EligibleRows(db) != {} {
      var m := Least(EligibleRows(db));
      var next := DispatchRow(db, m);
      OneFewer(db, m);
      ReadyRows(next);
      if k != m {
        DrainWrites(next, k);
      } else if k in next.outbox {
        DrainWrites(next, k);
      } else {
        GoneStays(next, k);
      }
    }
  }

  lemma {:induction false} GoneStays(db: Db, k: nat)
    requires Referential(db) && k !in db.outbox
    ensures k !in Drained(db).outbox && Stays(db, Drained(db))
    decreases |EligibleRows(db)|
  {
    if EligibleRows(db) != {} {
      var m := Least(EligibleRows(db));
      OneFewer(db, m);
      GoneStays(DispatchRow(db, m), k);
    }
  }

  function Publishable(db: Db): set<nat> { set k | k in db.outbox && Ready(db, k) && Needed(db, k) }

  function Pairs(db: Db): set<(JobId, int)> { set k | k in Publishable(db) :: PairOf(db.outbox[k]) }

  /** One dispatch takes its row out of the publishable ones and leaves the others as they are. */
  lemma OneLessPublishable(db: Db, m: nat)
    requires Referential(db) && m in EligibleRows(db)
    ensures var next := DispatchRow(db, m);
            && Publishable(next) == Publishable(db) - {m}
            && (forall k :: k in Publishable(next) ==> next.outbox[k] == db.outbox[k])
            && (forall p :: p in Pairs(next) ==> p in Pairs(db))
            && (forall p :: p in SentBy(db, m) ==> p in Pairs(db))
            && |SentBy(db, m)| == if m in Publishable(db) then 1 else 0
  {
    OneFewer(db, m);
    ReadyRows(db);
    ReadyRows(DispatchRow(db, m));
    assert forall k :: k in Publishable(db) ==> k in EligibleRows(db);
    assert forall k :: k in Publishable(DispatchRow(db, m)) ==> k in EligibleRows(DispatchRow(db, m));
    if m in Publishable(db) { assert SentBy(db, m) == [PairOf(db.outbox[m])]; }
  }

  /** And it publishes nothing else: one pair for each needed ready row. */
  lemma {:induction false} DrainSendsExactly(db: Db)
    requires Referential(db)
    ensures |DrainSends(db)| == |Publishable(db)|
    ensures forall p :: p in DrainSends(db) ==> p in Pairs(db)
    decreases |EligibleRows(db)|
  {
    if EligibleRows(db) == {} {
      ReadyRows(db);
      assert forall k :: k in Publishable(db) ==> k in EligibleRows(db);
      assert Publishable(db) == {};
    } else {
      var m := Least(EligibleRows(db));
      OneFewer(db, m);
      OneLessPublishable(db, m);
      DrainSendsExactly(DispatchRow(db, m));
      if m in Publishable(db) { assert Publishable(db) == (Publishable(db) - {m}) + {m}; }
    }
  }
}
