/** ProcessJob as the worker performs it: claim, heartbeat, classify, finish. The surroundings - when ticks fall,
    how store calls fare, what the handler returns - come from a script; interference by others is the
    subject of Protocol. */
module Working {
  import opened Tables
  import opened Transactions
  import opened Protocol
  import opened StoreOperations
  import Backoff

  /** How one store call fares: its reply arrives, it commits but the caller sees an error, or nothing happens. */
  datatype CallFate = Replies | CommitsUnseen | Fails

  /** One heartbeat: the time until its tick, and the fate of its renewal. */
  datatype Beat = Beat(wait: nat, fate: CallFate)

  /** `rest` is the time from the last beat to the end of the handler; `verdict` is None when the handler panics;
      `expired` says that the caller's deadline passed; `draw` gives the jitter for a retry count. */
  datatype Script = Script(claim: CallFate, beats: seq<Beat>, rest: nat, verdict: Option<Verdict>, expired: bool,
                           draw: int -> int, finish: CallFate)

  /** The jitter drawn for a retry count is in the range that the backoff asks for. */
  ghost predicate DrawsInRange(draw: int -> int) { forall r :: Backoff.Drawn(r, draw(r)) }

  /** The heartbeat's renewals, until the handler ends or one of them fails. */
  function BeatAll(db: Db, lease: int, h: Held, beats: seq<Beat>): (Db, bool)
    decreases |beats|
  {
    if beats == [] then (db, true)
    else
      var later := db.(now := db.now + beats[0].wait);
      if beats[0].fate == Fails then (later, false)
      else
        var (renewed, ok) := RenewTx(later, lease, h);
        if ok && beats[0].fate == Replies then BeatAll(renewed, lease, h, beats[1..]) else (renewed, false)
  }

  /** A claimed attempt, up to the return of ProcessJob: the database afterwards, and whether it returned nil. */
  ghost function AttemptTx(db: Db, lease: int, h: Held, script: Script): (Db, bool)
    requires DrawsInRange(script.draw)
  {
    var (beaten, alive) := BeatAll(db, lease, h, script.beats);
    var ended := beaten.(now := beaten.now + script.rest);
    if script.verdict.None? || !alive || script.expired || script.finish == Fails then (ended, false)
    else
      var o := Classify(h, script.verdict.value, script.draw(h.retry));
      var (finished, r) := FinishTx(ended, h, o.status, o.message, Micros(o.delay));
      (finished, r == Persisted && script.finish == Replies)
  }

  /** ProcessJob: the database afterwards, and whether it returned nil. */
  ghost function ProcessTx(db: Db, lease: int, w: Owner, id: JobId, generation: int, script: Script): (Db, bool)
    requires DrawsInRange(script.draw)
  {
    if script.claim == Fails then (db, false)
    else
      var (claimed, reply) := ClaimTx(db, lease, id, generation, w);
      if script.claim != Replies then (claimed, false)
      else
        match reply
        case Nothing(_) => (claimed, true)
        case Busy => (claimed, false)
        case Claimed(h) => AttemptTx(claimed, lease, h, script)
  }

  class Worker {
    const id: Owner
    const store: Store

    constructor (id: Owner, store: Store)
      ensures this.id == id && this.store == store
    {
      this.id, this.store := id, store;
    }

    method Heartbeat(h: Held, beats: seq<Beat>) returns (alive: bool)
      modifies store
      ensures (store.Tables(), alive) == BeatAll(old(store.Tables()), store.lease, h, beats)
    {
      alive := true;
      var i := 0;
      while i < |beats| && alive
        invariant 0 <= i <= |beats|
        invariant alive ==>
                    BeatAll(old(store.Tables()), store.lease, h, beats) ==
                    BeatAll(store.Tables(), store.lease, h, beats[i..])
        invariant !alive ==> BeatAll(old(store.Tables()), store.lease, h, beats) == (store.Tables(), false)
        decreases |beats| - i, alive
      {
        assert beats[i..][1..] == beats[i + 1..];
        store.now := store.now + beats[i].wait;
        if beats[i].fate == Fails {
          alive := false;
        } else {
          var ok := store.Renew(h);
          alive := ok && beats[i].fate == Replies;
        }
        i := i + 1;
      }
    }

    method ProcessJob(job: JobId, generation: int, script: Script) returns (done: bool)
      requires DrawsInRange(script.draw)
      modifies store
      ensures (store.Tables(), done) == ProcessTx(old(store.Tables()), store.lease, id, job, generation, script)
    {
      if script.claim == Fails { return false; }
      var reply := store.Claim(job, generation, id);
      if script.claim != Replies || reply.Busy? { return false; }
      if reply.Nothing? { return true; }
      var h := reply.held;
      var alive := Heartbeat(h, script.beats);
      store.now := store.now + script.rest;
      if script.verdict.None? || !alive || script.expired || script.finish == Fails { return false; }
      var status, message, delay := Completed, "Completed successfully", 0;
      if !script.verdict.value.Success? {
        status := Pending;
        message := script.verdict.value.message;
        delay := Backoff.ExponentialDelay(h.retry, script.draw(h.retry));
        if script.verdict.value.Permanent? || h.attempt >= h.maxRetries + 1 { status := Dead; }
      }
      var r := store.Finish(h, status, message, Micros(delay));
      return r == Persisted && script.finish == Replies;
    }
  }

  /** The heartbeat changes nothing but the clock and this job's lease. */
  lemma {:induction false} BeatsTouchOnlyTheLease(db: Db, lease: int, h: Held, beats: seq<Beat>)
    ensures var db' := BeatAll(db, lease, h, beats).0;
            && db'.audit == db.audit && db'.outbox == db.outbox && db'.nextId == db.nextId && db.now <= db'.now
            && db'.jobs.Keys == db.jobs.Keys
            && (forall id :: id in db.jobs && id != h.id ==> db'.jobs[id] == db.jobs[id])
            && (h.id in db.jobs ==> db'.jobs[h.id].(leaseUntil := None) == db.jobs[h.id].(leaseUntil := None))
    decreases |beats|
  {
    if beats != [] && beats[0].fate != Fails {
      var later := db.(now := db.now + beats[0].wait);
      var (renewed, ok) := RenewTx(later, lease, h);
      if ok && beats[0].fate == Replies { BeatsTouchOnlyTheLease(renewed, lease, h, beats[1..]); }
    }
  }

  /** A nil result is durable. Either the claim gave no job, or the row shows the classified outcome of exactly
      one more attempt, logged by exactly two entries. */
  lemma NilMeansDurable(db: Db, lease: int, w: Owner, id: JobId, generation: int, script: Script)
    requires DrawsInRange(script.draw)
    requires ProcessTx(db, lease, w, id, generation, script).1
    ensures var db' := ProcessTx(db, lease, w, id, generation, script).0;
            var reply := ClaimTx(db, lease, id, generation, w).1;
            || (reply.Nothing? && db' == ClaimTx(db, lease, id, generation, w).0)
            || (&& reply.Claimed? && script.verdict.Some?
                && id in db.jobs && id in db'.jobs
                && db'.jobs[id].attemptCount == db.jobs[id].attemptCount + 1
                && var o := Classify(reply.held, script.verdict.value, script.draw(reply.held.retry));
                db'.jobs[id].status == o.status != Processing
                && |db'.audit| == |db.audit| + 2
                && db'.audit[|db.audit| + 1].from == Some(Processing)
                && db'.audit[|db.audit| + 1].to == db'.jobs[id].status)
  {
    var (claimed, reply) := ClaimTx(db, lease, id, generation, w);
    if reply.Claimed? {
      BeatsTouchOnlyTheLease(claimed, lease, reply.held, script.beats);
    }
  }

  /** When every renewal is in time and nothing fails, a claimed attempt ends in a nil result: as long as each
      tick falls within the lease that the one before it obtained. */
  lemma {:induction false} PromptBeatsSucceed(db: Db, lease: int, h: Held, beats: seq<Beat>)
    requires Owns(db, h) && db.jobs[h.id].leaseUntil.value >= db.now + lease
    requires forall i :: 0 <= i < |beats| ==> beats[i].wait < lease && beats[i].fate == Replies
    ensures BeatAll(db, lease, h, beats).1 && Owns(BeatAll(db, lease, h, beats).0, h)
    decreases |beats|
  {
    if beats == [] {
    } else {
      var later := db.(now := db.now + beats[0].wait);
      assert Owns(later, h);
      PromptBeatsSucceed(RenewTx(later, lease, h).0, lease, h, beats[1..]);
    }
  }
}
