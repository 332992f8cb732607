/** What the worker's ProcessJob achieves, read off the job's row: exactly when it returns nil, and what is in the
    tables then and otherwise. */
module Outcomes {
  import opened Tables
  import opened Transactions
  import opened Durability
  import opened Protocol
  import opened Answers
  import Backoff
  import opened Working

  function Waited(beats: seq<Beat>): nat { if beats == [] then 0 else beats[0].wait + Waited(beats[1..]) }

  /** Every tick falls within the lease that the one before it obtained, and every renewal is answered. */
  predicate Prompt(beats: seq<Beat>, lease: int) {
    forall i :: 0 <= i < |beats| ==> beats[i].wait < lease && beats[i].fate == Replies
  }

  /** The heartbeat lives exactly if it is prompt; then it has moved the clock and the lease, and nothing else. */
  lemma {:induction false} HeartbeatLivesExactly(db: Db, lease: int, h: Held, beats: seq<Beat>)
    requires HoldsLease(db, h) && db.jobs[h.id].leaseUntil == Some(db.now + lease)
    ensures BeatAll(db, lease, h, beats).1 <==> Prompt(beats, lease)
    ensures Prompt(beats, lease) ==>
              BeatAll(db, lease, h, beats).0 ==
              db.(now := db.now + Waited(beats),
                  jobs := db.jobs[h.id := db.jobs[h.id].(leaseUntil := Some(db.now + Waited(beats) + lease))])
    decreases |beats|
  {
    if beats != [] {
      var later := db.(now := db.now + beats[0].wait);
      RenewWrites(later, lease, h);
      var (renewed, ok) := RenewTx(later, lease, h);
      assert ok <==> beats[0].wait < lease;
      if beats[0].wait < lease && beats[0].fate == Replies {
        HeartbeatLivesExactly(renewed, lease, h, beats[1..]);
        assert Prompt(beats, lease) <==> Prompt(beats[1..], lease) by {
          assert forall i :: 0 < i < |beats| ==> beats[i] == beats[1..][i - 1];
        }
      }
    } else {
      assert db.jobs[h.id := db.jobs[h.id].(leaseUntil := Some(db.now + lease))] == db.jobs;
    }
  }

  /** The job can be claimed: it is waiting for its next attempt, or its last one was interrupted. */
  predicate ClaimableNow(db: Db, id: JobId, g: int) {
    && id in db.jobs && (db.jobs[id].status == Pending || db.jobs[id].status == Processing)
    && !UnderLease(db, id, g) && !NothingToDo(db, id, g) && !BudgetSpent(db, id)
  }

  /** The handler ended in time, nothing failed, and the outcome could be persisted. */
  predicate RunsThrough(script: Script, lease: int) {
    && script.claim == Replies && Prompt(script.beats, lease) && script.rest < lease
    && script.verdict.Some? && !script.expired && script.finish != Fails
  }

  /** The end of a handler that runs through, on the database's clock. */
  function EndOf(db: Db, script: Script): Time { db.now + Waited(script.beats) + script.rest }

  /** The status that a verdict calls for when `attempt` attempts have been made. */
  function StatusFor(v: Verdict, attempt: int, maxRetries: int): Status {
    match v
    case Success => Completed
    case Permanent(_) => Dead
    case Transient(_) => if attempt > maxRetries then Dead else Pending
  }

  function MessageFor(v: Verdict): string {
    match v
    case Success => "Completed successfully"
    case Permanent(msg) => msg
    case Transient(msg) => msg
  }

  /** Microseconds until the job would be due again, after its n-th retry count. */
  function DelayFor(v: Verdict, retry: int, draw: int -> int): int
    requires DrawsInRange(draw)
  {
    if v.Success? then 0 else Backoff.ExponentialDelay(retry, draw(retry)) / 1000
  }

  /** What is persisted at time `end` for the claim h of a row that was j when it was claimed. */
  ghost predicate Persists(db: Db, db': Db, h: Held, j: Job, script: Script, end: Time)
    requires DrawsInRange(script.draw) && script.verdict.Some?
  {
    var v, due := script.verdict.value, end + DelayFor(script.verdict.value, h.retry, script.draw);
    var st := StatusFor(v, h.attempt, j.maxRetries);
    && db'.now == end
    && db'.jobs == db.jobs[h.id := Job(st, h.generation, h.attempt, h.retry, j.maxRetries, due, None, None,
                                       if st == Pending then None else Some(end),
                                       if MessageFor(v) == "" then None else Some(MessageFor(v)),
                                       j.requestKey, j.requestHash)]
    && (if st == Pending then Inserts(db, db', Intent(h.id, h.generation, h.attempt + 1, due, None))
        else KeepsOutbox(db, db'))
  }

  function LastEntry(h: Held, v: Verdict): Entry {
    Entry(h.id, Some(Processing), StatusFor(v, h.attempt, h.maxRetries), MessageFor(v), Some(h.owner))
  }

  /** What ProcessJob passes to Finish. */
  lemma Classified(h: Held, v: Verdict, draw: int -> int)
    requires DrawsInRange(draw)
    ensures var o := Classify(h, v, draw(h.retry));
            && o.status == StatusFor(v, h.attempt, h.maxRetries) && o.message == MessageFor(v)
            && Micros(o.delay) == DelayFor(v, h.retry, draw)
  {
  }

  /** The claim h has just been made. */
  ghost predicate JustClaimed(db: Db, lease: int, h: Held) {
    && HoldsLease(db, h) && lease > 0
    && var j := db.jobs[h.id];
    && j.leaseUntil == Some(db.now + lease)
    && j.attemptCount == h.attempt && j.retryCount == h.retry && j.maxRetries == h.maxRetries
    && !IdentityTaken(db.outbox, h.id, h.generation, h.attempt + 1)
  }

  lemma AttemptPersists(db: Db, lease: int, h: Held, script: Script)
    requires JustClaimed(db, lease, h) && DrawsInRange(script.draw) && RunsThrough(script, lease)
    ensures var (db', nil) := AttemptTx(db, lease, h, script);
            && Persists(db, db', h, db.jobs[h.id], script, EndOf(db, script))
            && db'.audit == db.audit + [LastEntry(h, script.verdict.value)]
            && (nil <==> script.finish == Replies)
  {
    HeartbeatLivesExactly(db, lease, h, script.beats);
    Classified(h, script.verdict.value, script.draw);
    var beaten := BeatAll(db, lease, h, script.beats).0;
    var ended := beaten.(now := beaten.now + script.rest);
    var o := Classify(h, script.verdict.value, script.draw(h.retry));
    FinishWritesFree(ended, h, o.status, o.message, Micros(o.delay));
  }

  /** An attempt that runs through persists its outcome: COMPLETED on success, DEAD on a permanent failure or with the
      budget spent, and otherwise PENDING with the intent of the next attempt, both due after the backoff. The call
      returns nil exactly if the reply of its Finish arrives. */
  lemma OutcomePersists(db: Db, lease: int, w: Owner, id: JobId, g: int, script: Script)
    requires DbInv(db) && lease > 0 && DrawsInRange(script.draw)
    requires ClaimableNow(db, id, g) && RunsThrough(script, lease)
    ensures var (db', nil) := ProcessTx(db, lease, w, id, g, script); var j := db.jobs[id];
            var h := Held(id, g, w, j.attemptCount + 1, j.attemptCount, j.maxRetries);
            && Persists(db, db', h, j, script, EndOf(db, script))
            && db'.audit == db.audit + [Entry(id, Some(j.status), Processing, "Attempt claimed", Some(w)),
                                        LastEntry(h, script.verdict.value)]
            && (nil <==> script.finish == Replies)
  {
    ClaimStarts(db, lease, w, id, g);
    var (claimed, reply) := ClaimTx(db, lease, id, g, w);
    AttemptPersists(claimed, lease, reply.held, script);
  }

  lemma ClaimStarts(db: Db, lease: int, w: Owner, id: JobId, g: int)
    requires DbInv(db) && lease > 0 && ClaimableNow(db, id, g)
    ensures var (claimed, reply) := ClaimTx(db, lease, id, g, w); var j := db.jobs[id];
            && reply == Claimed(Held(id, g, w, j.attemptCount + 1, j.attemptCount, j.maxRetries))
            && JustClaimed(claimed, lease, reply.held)
            && KeepsOutbox(db, claimed) && claimed.now == db.now
            && claimed.audit == db.audit + [Entry(id, Some(j.status), Processing, "Attempt claimed", Some(w))]
            && claimed.jobs == db.jobs[id := claimed.jobs[id]]
            && claimed.jobs[id].requestKey == j.requestKey && claimed.jobs[id].requestHash == j.requestHash
  {
    assert JobOk(db.now, db.jobs[id]);
    ClaimAnswers(db, lease, id, g, w);
    ClaimWrites(db, lease, id, g, w);
    ClaimKeeps(db, lease, id, g, w);
    DispatchIdentityFree(ClaimTx(db, lease, id, g, w).0, id);
  }

  /** The exact condition for a nil result, for every call: the claim's reply arrives and either there is nothing to do,
      now or ever again, or the attempt runs through and the reply of its Finish arrives too. */
  lemma NilExactly(db: Db, lease: int, w: Owner, id: JobId, g: int, script: Script)
    requires DbInv(db) && lease > 0 && DrawsInRange(script.draw)
    requires id in db.jobs && db.jobs[id].generation == g ==> db.jobs[id].status != Failed
    ensures ProcessTx(db, lease, w, id, g, script).1 <==>
              script.claim == Replies && !UnderLease(db, id, g)
              && (ClaimableNow(db, id, g) ==> RunsThrough(script, lease) && script.finish == Replies)
  {
    ClaimAnswers(db, lease, id, g, w);
    if script.claim == Replies && ClaimableNow(db, id, g) {
      ClaimStarts(db, lease, w, id, g);
      var (claimed, reply) := ClaimTx(db, lease, id, g, w);
      if RunsThrough(script, lease) {
        AttemptPersists(claimed, lease, reply.held, script);
      } else {
        AttemptLeaves(claimed, lease, reply.held, script);
      }
    }
  }

  /** An attempt that does not run through reports an error and leaves its job PROCESSING, with no outcome in the
      log and no new intent: the claim alone stands, until its lease ends. */
  lemma AttemptLeaves(db: Db, lease: int, h: Held, script: Script)
    requires JustClaimed(db, lease, h) && DrawsInRange(script.draw) && script.claim == Replies
             && !RunsThrough(script, lease)
    ensures var (db', nil) := AttemptTx(db, lease, h, script);
            && !nil && KeepsOutbox(db, db') && db'.audit == db.audit
            && h.id in db'.jobs && db'.jobs[h.id].(leaseUntil := None) == db.jobs[h.id].(leaseUntil := None)
  {
    HeartbeatLivesExactly(db, lease, h, script.beats);
    BeatsTouchOnlyTheLease(db, lease, h, script.beats);
    if Prompt(script.beats, lease) && script.verdict.Some? && !script.expired && script.finish != Fails {
      var beaten := BeatAll(db, lease, h, script.beats).0;
      var o := Classify(h, script.verdict.value, script.draw(h.retry));
      FinishWritesFree(beaten.(now := beaten.now + script.rest), h, o.status, o.message, Micros(o.delay));
    }
  }
}
