/** What the system does for its users in every sound state: a delivery is kept exactly while its job is running,
    an ended job can be replayed, what the dispatcher publishes is what the store appends. */
module Progress {
  import opened Tables
  import opened Transactions
  import opened Durability
  import opened Requests
  import opened CanonicalJson
  import opened Utf8
  import opened Protocol
  import opened Safety
  import opened Dispatching
  import opened Minimum
  import opened Answers
  import opened Recovery
  import StoreOperations
  import Consuming

  // ----- deliveries

  /** The delivery's job and generation, as its row stands. */
  predicate SettledOrGone(db: Db, d: Delivery) {
    d.job in db.jobs
    && (db.jobs[d.job].generation > d.generation
        || db.jobs[d.job].status == Completed || db.jobs[d.job].status == Dead)
  }

  predicate WaitsToBeDue(db: Db, d: Delivery) {
    d.job in db.jobs && db.jobs[d.job].status == Pending && db.jobs[d.job].nextAttemptAt > db.now
  }

  /** In every sound state a delivery is kept for later exactly while its job is running: in the delivery's
      generation, PROCESSING, under a lease that has not ended. It is let go, with the tables as they are, exactly
      if the job has ended, is in a later generation, or is not yet due. */
  lemma DeliveryAnswered(s: State, w: Owner)
    requires Inv(s) && WorkerOf(s, w).Called?
    ensures var d, x := WorkerOf(s, w).d, NextWorker(s, ClaimCommit(w, false), w);
            && (x == Retaining(d) <==> UnderLease(s.db, d.job, d.generation))
            && (x.Acking? && NextDb(s, ClaimCommit(w, false)) == s.db <==>
                  SettledOrGone(s.db, d) || WaitsToBeDue(s.db, d))
            && (x.Attempting? <==>
                  && !UnderLease(s.db, d.job, d.generation) && !SettledOrGone(s.db, d) && !WaitsToBeDue(s.db, d)
                  && s.db.jobs[d.job].attemptCount <= s.db.jobs[d.job].maxRetries)
            && (x.Retaining? || x.Acking? || x.Attempting?) && x.d == d
  {
    var d := WorkerOf(s, w).d;
    assert WorkerOk(s.db, w, s.workers[w]);
    assert JobOk(s.db.now, s.db.jobs[d.job]);
    ClaimAnswers(s.db, s.lease, d.job, d.generation, w);
    ClaimChanges(s.db, s.lease, d.job, d.generation, w);
  }

  lemma ClaimChanges(db: Db, lease: int, id: JobId, g: int, w: Owner)
    ensures var (db', reply) := ClaimTx(db, lease, id, g, w);
            reply == Nothing(Exhausted) || reply.Claimed? ==> db' != db
  {
    if ClaimTx(db, lease, id, g, w).1 == Nothing(Exhausted) { ExhaustedWrites(db, lease, id, g, w); }
    assert ClaimTx(db, lease, id, g, w).1.Claimed? ==> |ClaimTx(db, lease, id, g, w).0.audit| == |db.audit| + 1;
  }

  /** The delivery as the consumer sees it. */
  function MessageOf(d: Delivery): Consuming.Message { Consuming.Message(d.job, Some(d.generation)) }

  /** No delivery of a named job is malformed, in the stream or in a consumer's hands. */
  lemma DeliveriesWellformed(s: State, d: Delivery)
    requires Inv(s) && (d in s.stream || exists w :: w in s.workers && s.workers[w] != Idle && s.workers[w].d == d)
    ensures d.generation >= 1 && (d.job != "" ==> !Consuming.Malformed(MessageOf(d)))
  {
    if d !in s.stream {
      var w :| w in s.workers && s.workers[w] != Idle && s.workers[w].d == d;
      assert WorkerOk(s.db, w, s.workers[w]);
    }
    assert DeliveryOk(s.db, d);
  }

  // ----- acceptance and replay

  /** A job that waits for its first attempt: due, with a fresh budget, and an unpublished intent already available,
      whose delivery any consumer can claim. */
  ghost predicate ReadyToStart(db: Db, lease: int, id: JobId, g: int) {
    && id in db.jobs
    && var j := db.jobs[id];
    && j.status == Pending && j.generation == g && j.attemptCount == 0 && j.nextAttemptAt <= db.now
    && (exists k :: k in db.outbox && db.outbox[k] == Intent(id, g, 1, db.now, None) && Ready(db, k) && Needed(db, k))
    && (forall w :: ClaimTx(db, lease, id, g, w).1 == Claimed(Held(id, g, w, 1, 0, j.maxRetries)))
  }

  lemma StartsReady(db: Db, lease: int, id: JobId, g: int, k: nat)
    requires id in db.jobs && db.jobs[id].status == Pending && db.jobs[id].generation == g
    requires db.jobs[id].attemptCount == 0 && db.jobs[id].maxRetries >= 0 && db.jobs[id].nextAttemptAt == db.now
    requires k in db.outbox && db.outbox[k] == Intent(id, g, 1, db.now, None)
    ensures ReadyToStart(db, lease, id, g)
  {
    assert Ready(db, k) && Needed(db, k);
  }

  /** Replaying a DEAD or FAILED job makes it ready to start in its next generation. Nothing else is replayed. */
  lemma ReplayRevives(s: State, id: JobId)
    requires Inv(s)
    ensures var t := Apply(s, Replay(id));
            if id in s.db.jobs && (s.db.jobs[id].status == Dead || s.db.jobs[id].status == Failed) then
              && ReadyToStart(t.db, t.lease, id, s.db.jobs[id].generation + 1)
              && (forall other :: other in s.db.jobs && other != id ==>
                    other in t.db.jobs && t.db.jobs[other] == s.db.jobs[other])
            else t.db == s.db
  {
    RequeueWrites(s.db, id);
    if id in s.db.jobs && (s.db.jobs[id].status == Dead || s.db.jobs[id].status == Failed) {
      assert JobOk(s.db.now, s.db.jobs[id]);
      StartsReady(RequeueTx(s.db, id).0, s.lease, id, s.db.jobs[id].generation + 1, s.db.nextId);
    }
  }

  /** So from any sound state a dead job can be brought to an end again: replay it, and even if everything crashes
      and the stream is lost right then, the recovery plan settles it. */
  lemma ReplaySettles(s: State, id: JobId, w: Owner, n: nat)
    requires Inv(s) && id in s.db.jobs && (s.db.jobs[id].status == Dead || s.db.jobs[id].status == Failed)
    ensures var ruins := Apply(Apply(s, Replay(id)), Disaster);
            && Inv(ruins) && Recovery.Quiet(ruins) && id in ruins.db.jobs && ruins.db.jobs[id].status == Pending
            && CanRun(ruins, RecoveryPlan(ruins, id, w, n))
            && var t := After(ruins, RecoveryPlan(ruins, id, w, n));
            id in t.db.jobs && (t.db.jobs[id].status == Completed || t.db.jobs[id].status == Dead)
  {
    ReplayRevives(s, id);
    StepKeeps(s, Replay(id));
    StepKeeps(Apply(s, Replay(id)), Disaster);
    RecoverySettles(Apply(Apply(s, Replay(id)), Disaster), id, w, n);
  }

  /** An accepted request without a key always creates a job that is ready to start. */
  lemma AcceptStarts(s: State, client: Text, input: Input, id: JobId, lost: bool)
    requires Inv(s) && Enabled(s, Accept(client, None, input, id, lost))
    ensures var a := Accept(client, None, input, id, lost);
            && AcceptAnswer(s, a) == Named(id)
            && ReadyToStart(NextDb(s, a), s.lease, id, 1) && NextDb(s, a).jobs[id].maxRetries == input.maxRetries
  {
    CreateWrites(s.db, id, input.maxRetries, None, None);
    StartsReady(CreateTx(s.db, id, input.maxRetries, None, None).0, s.lease, id, 1, s.db.nextId);
  }

  /** A key that the controller does not take is answered as such, and nothing is stored. */
  lemma BadKeysRefused(s: State, a: Action)
    requires a.Accept? && Enabled(s, a) && a.key.Some?
    ensures !ValidKey(a.key.value) <==> AcceptAnswer(s, a) == BadKey
    ensures !ValidKey(a.key.value) ==> NextDb(s, a) == s.db
  {
  }

  // ----- publication

  /** An undisturbed dispatch in the system does to tables and stream what the store's own Dispatch does: the stream
      gains a delivery exactly if a pair was appended, and with that pair. */
  lemma PublicationMatches(s: State, n: nat)
    requires Inv(s) && Recovery.Quiet(s) && Referential(s.db) && EligibleRows(s.db) != {}
    ensures var k := Least(EligibleRows(s.db));
            && CanRun(s, DispatchPlan(s.db, n, k))
            && var t := After(s, DispatchPlan(s.db, n, k));
            var (db, sent, reply) := StoreOperations.DispatchTx(s.db, {}, StoreOperations.Works);
            && t.db == db && reply == StoreOperations.Handled
            && (sent == [] ==> t.stream == s.stream)
            && (sent != [] ==>
                  && sent == [(s.db.outbox[k].job, s.db.outbox[k].generation)]
                  && t.stream == s.stream + {Delivery(sent[0].0, sent[0].1, s.db.outbox[k].attempt)})
  {
    assert StoreOperations.FreeRows(s.db, {}) == EligibleRows(s.db);
    DispatchAlone(s, n);
  }

  // ----- what the parties may do

  /** Nothing holds the environment back: time passes, the stream loses anything, any consumer or everything crashes. */
  lemma EnvironmentIsFree(s: State, dt: nat, lost: set<Delivery>, w: Owner)
    ensures Enabled(s, Advance(dt)) && Apply(s, Advance(dt)).db.now == s.db.now + dt
    ensures Enabled(s, Lose(lost)) && Apply(s, Lose(lost)).stream == s.stream - lost
    ensures Enabled(s, Crash(w)) && WorkerOf(Apply(s, Crash(w)), w) == Idle
    ensures Enabled(s, Disaster)
  {
  }

  /** Nor the parties: anyone may replay, an idle consumer is given any delivery, which stays in the stream to be given
      again, a dispatcher locks any ready row and gives up at any time, and a renewal left behind may land. */
  lemma PartiesAreFree(s: State, w: Owner, d: Delivery, n: nat, k: nat, id: JobId, h: Held)
    ensures Enabled(s, Replay(id)) && Enabled(s, DispatchAbort(n))
    ensures WorkerOf(s, w) == Idle && d in s.stream ==>
              Enabled(s, Deliver(w, d)) && d in Apply(s, Deliver(w, d)).stream
    ensures Ready(s.db, k) && (forall m :: m in s.dispatchers ==> s.dispatchers[m] == Free) ==>
              Enabled(s, DispatchLock(n, k))
    ensures h in s.orphans ==> Enabled(s, OrphanRenew(h))
  {
  }

  /** Any request that the schema and the controller let through may be accepted under any fresh identifier. */
  lemma RequestsAreFree(s: State, client: Text, key: Option<Text>, input: Input, id: JobId, lost: bool)
    requires input.payload.Obj? && input.payload.members != [] && Wellformed(input.payload)
    requires 0 <= input.maxRetries <= 10 && 1 <= input.priority <= 10
    requires Paired(client) && 0x3A !in client && id !in s.db.jobs
    requires key.Some? ==> Header(key.value)
    ensures Enabled(s, Accept(client, key, input, id, lost))
  {
  }

  /** A renewal may land late after its call was given up: after a panic, a crash, a lost reply or a failure. */
  lemma RenewalsMayBeLate(s: State, w: Owner)
    requires WorkerOf(s, w).Attempting? && WorkerOf(s, w).beat == Renewing && WorkerOf(s, w).handler == Running
    ensures var h := WorkerOf(s, w).held;
            forall a :: a in {HandlerPanic(w), Crash(w), BeatCommit(w, true), BeatFail(w)} ==>
              Enabled(s, a) && h in Apply(s, a).orphans
  {
  }

  // ----- what the history records

  /** Every handler that a claim starts, every call of Finish and every failed renewal is recorded. */
  lemma AttemptsRecorded(s: State, w: Owner, lost: bool)
    ensures WorkerOf(s, w).Called? && NextWorkerAfterClaim(s, w).Attempting? ==>
              Apply(s, ClaimCommit(w, false)).hist.starts == s.hist.starts + [RunOf(NextWorkerAfterClaim(s, w).held)]
    ensures WorkerOf(s, w).Finishing? ==>
              && Apply(s, FinishCommit(w, lost)).hist.finishes == s.hist.finishes + [RunOf(WorkerOf(s, w).held)]
              && Apply(s, FinishFail(w)).hist.finishes == s.hist.finishes + [RunOf(WorkerOf(s, w).held)]
  {
  }

  ghost function NextWorkerAfterClaim(s: State, w: Owner): Worker
    requires WorkerOf(s, w).Called?
  {
    NextWorker(s, ClaimCommit(w, false), w)
  }

  lemma BeatsRecorded(s: State, w: Owner)
    requires WorkerOf(s, w).Attempting? && WorkerOf(s, w).beat == Renewing
    ensures RunOf(WorkerOf(s, w).held) in Apply(s, BeatFail(w)).hist.failedBeats
    ensures RunOf(WorkerOf(s, w).held) in Apply(s, BeatCommit(w, true)).hist.failedBeats
    ensures !HoldsLease(s.db, WorkerOf(s, w).held) ==>
              RunOf(WorkerOf(s, w).held) in Apply(s, BeatCommit(w, false)).hist.failedBeats
  {
  }

  /** Every acknowledgement and every reply that reaches a client is recorded. */
  lemma AcksRecorded(s: State, w: Owner, removed: bool)
    requires WorkerOf(s, w).Acking?
    ensures Apply(s, Acknowledge(w, removed)).hist.acks == s.hist.acks + [Ack(WorkerOf(s, w).d, WorkerOf(s, w).why)]
  {
  }

  lemma RepliesRecorded(s: State, a: Action)
    requires a.Accept? && Enabled(s, a) && a.key.Some? && ValidKey(a.key.value)
    ensures Apply(s, a).hist.replies ==
              s.hist.replies + if a.replyLost then []
                  else [Reply(Request(a.client, a.key.value, a.input), AcceptAnswer(s, a))]
  {
  }

  /** Every retry that a Finish schedules is counted with its delay, and a replay starts the count again. */
  lemma RetriesRecorded(s: State, w: Owner, lost: bool)
    requires WorkerOf(s, w).Finishing? && HoldsLease(s.db, WorkerOf(s, w).held) && DbInv(s.db)
    ensures var x, r := WorkerOf(s, w), ScheduleOf(s.hist, WorkerOf(s, w).held.id);
            ScheduleOf(Apply(s, FinishCommit(w, lost)).hist, x.held.id) ==
              if x.outcome.status == Pending then Schedule(r.count + 1, r.total + x.outcome.delay / 1000) else r
  {
    var x := WorkerOf(s, w);
    FinishWrites(s.db, x.held, x.outcome.status, x.outcome.message, Micros(x.outcome.delay));
  }
}
