/** The store's operations as the programs perform them: read a row, decide, update, insert, commit. Each is
    proved to compute its transaction. */
module StoreOperations {
  import opened Tables
  import opened Transactions
  import opened Durability
  import opened Dispatching
  import opened Minimum
  import opened Sequences

  datatype DispatchReply = NoneEligible | Handled | DispatchError

  /** How a dispatch fares: nothing fails, the publication fails, the commit fails, or it succeeds unseen. */
  datatype DispatchFate = Works | PublishFails | CommitFails | CommitUnseen

  /** The rows that the dispatcher's SELECT may return: eligible, and not locked by another dispatcher. */
  function FreeRows(db: Db, locked: set<nat>): set<nat> { EligibleRows(db) - locked }

  /** Dispatch as one transaction, when nothing runs between its steps. */
  ghost function DispatchTx(db: Db, locked: set<nat>, fate: DispatchFate): (Db, seq<(JobId, int)>, DispatchReply)
    requires Referential(db)
  {
    if FreeRows(db, locked) == {} then (db, [], NoneEligible)
    else
      var k := Least(FreeRows(db, locked));
      if SentBy(db, k) != [] && fate == PublishFails then (db, [], DispatchError)
      else if fate == CommitFails then (db, SentBy(db, k), DispatchError)
      else (DispatchRow(db, k), SentBy(db, k), if fate == CommitUnseen then DispatchError else Handled)
  }

  lemma DispatchKeepsRows(db: Db, locked: set<nat>, fate: DispatchFate)
    requires Referential(db)
    ensures Referential(DispatchTx(db, locked, fate).0) && DispatchTx(db, locked, fate).0.now == db.now
  {
    if FreeRows(db, locked) != {} { OneFewer(db, Least(FreeRows(db, locked))); }
  }

  /** Row k comes first among the rows that may be returned. */
  predicate IsFirst(outbox: map<nat, Intent>, now: Time, locked: set<nat>, k: nat)
    requires k in outbox
  {
    && Eligible(outbox[k], now) && k !in locked
    && forall m :: m in outbox && Eligible(outbox[m], now) && m !in locked ==> k <= m
  }

  lemma FirstIsLeast(db: Db, locked: set<nat>, k: nat)
    requires k in db.outbox && IsFirst(db.outbox, db.now, locked, k)
    ensures FreeRows(db, locked) != {} && k == Least(FreeRows(db, locked))
  {
    assert k in FreeRows(db, locked);
  }

  lemma FirstExists(db: Db, locked: set<nat>)
    requires FreeRows(db, locked) != {}
    ensures exists k :: k in db.outbox && IsFirst(db.outbox, db.now, locked, k)
  {
    var k := Least(FreeRows(db, locked));
    forall m | m in db.outbox && Eligible(db.outbox[m], db.now) && m !in locked
      ensures k <= m
    {
      assert m in FreeRows(db, locked);
    }
    assert IsFirst(db.outbox, db.now, locked, k);
  }

  /** One call in the dispatcher's loop: the time it takes, the rows that others lock, and how it fares. */
  datatype Call = Call(elapsed: nat, locked: set<nat>, fate: DispatchFate)

  /** After a call that fails or finds nothing the loop pauses for 250 milliseconds. */
  const PAUSE: nat := 250_000

  function Paused(db: Db, reply: DispatchReply): Db {
    if reply == Handled then db else db.(now := db.now + PAUSE)
  }

  /** One turn of the loop: the tables afterwards, what was sent, and the reply. */
  ghost function CallTx(db: Db, c: Call): (Db, seq<(JobId, int)>, DispatchReply)
    requires Referential(db)
    ensures Referential(CallTx(db, c).0)
  {
    var late := db.(now := db.now + c.elapsed);
    DispatchKeepsRows(late, c.locked, c.fate);
    var (next, sent, reply) := DispatchTx(late, c.locked, c.fate);
    (Paused(next, reply), sent, reply)
  }

  /** The dispatcher's loop: the tables afterwards, what was sent, and the number of calls that succeeded. */
  ghost function LoopTx(db: Db, calls: seq<Call>): (Db, seq<(JobId, int)>, nat)
    requires Referential(db)
    decreases |calls|
  {
    if calls == [] then (db, [], 0)
    else
      var (next, sent, reply) := CallTx(db, calls[0]);
      var (last, more, handled) := LoopTx(next, calls[1..]);
      (last, sent + more, (if reply == Handled then 1 else 0) + handled)
  }

  /** Calls that take no time, meet no lock and do not fail. */
  predicate Smooth(calls: seq<Call>) { forall i :: 0 <= i < |calls| ==> calls[i] == Call(0, {}, Works) }

  /** With the clock fixed and nothing failing, as many calls as there are eligible rows all succeed, and drain them. */
  lemma {:induction false} LoopDrains(db: Db, calls: seq<Call>)
    requires Referential(db) && Smooth(calls) && |calls| == |EligibleRows(db)|
    ensures LoopTx(db, calls) == (Drained(db), DrainSends(db), |calls|)
    decreases |calls|
  {
    if calls == [] {
      DrainEnds(db);
    } else {
      assert db.(now := db.now + calls[0].elapsed) == db;
      var (next, sent, reply) := CallTx(db, calls[0]);
      DrainStep(db, []);
      assert EligibleRows(db) != {};
      LoopDrains(next, calls[1..]);
    }
  }

  /** Row k is needed, and nothing but its publication stamp has changed since `db`. */
  predicate StillThere(db: Db, later: Db, k: nat)
    requires k in db.outbox
  {
    && later.jobs == db.jobs && k in later.outbox
    && later.outbox[k].(publishedAt := None) == db.outbox[k].(publishedAt := None)
  }

  lemma CallKeepsLiveRows(db: Db, c: Call, k: nat)
    requires Referential(db) && k in db.outbox && !Obsolete(db.jobs[db.outbox[k].job], db.outbox[k])
    ensures StillThere(db, CallTx(db, c).0, k)
  {
  }

  /** Whatever fails, the loop deletes no live row: it can only have been published again. */
  lemma {:induction false} LoopKeepsLiveRows(db: Db, calls: seq<Call>, k: nat)
    requires Referential(db) && k in db.outbox && !Obsolete(db.jobs[db.outbox[k].job], db.outbox[k])
    ensures StillThere(db, LoopTx(db, calls).0, k)
    decreases |calls|
  {
    if calls != [] {
      CallKeepsLiveRows(db, calls[0], k);
      LoopKeepsLiveRows(CallTx(db, calls[0]).0, calls[1..], k);
    }
  }

  /** A successful dispatch is the first step of the drain. */
  lemma DrainStep(db: Db, before: seq<(JobId, int)>)
    requires Referential(db)
    ensures var (db', sent, r) := DispatchTx(db, {}, Works);
            && r == (if EligibleRows(db) == {} then NoneEligible else Handled)
            && Referential(db') && Drained(db') == Drained(db)
            && sent + DrainSends(db') == DrainSends(db)
            && before + sent + DrainSends(db') == before + DrainSends(db)
            && (r == Handled ==> |EligibleRows(db')| == |EligibleRows(db)| - 1)
            && (r == NoneEligible ==> db' == db)
  {
    assert FreeRows(db, {}) == EligibleRows(db);
    if EligibleRows(db) != {} {
      var k := Least(EligibleRows(db));
      OneFewer(db, k);
      assert |EligibleRows(db) - {k}| == |EligibleRows(db)| - 1;
      Reassociate(before, SentBy(db, k), DrainSends(DispatchRow(db, k)));
    }
  }

  lemma DrainEnds(db: Db)
    requires Referential(db) && EligibleRows(db) == {}
    ensures Drained(db) == db && DrainSends(db) == []
  {
  }

  /** The Redis stream, as far as a publisher sees it. */
  class Stream {
    var entries: seq<(JobId, int)>

    constructor ()
      ensures entries == []
    {
      entries := [];
    }

    method Append(id: JobId, generation: int, works: bool) returns (ok: bool)
      modifies this
      ensures ok == works
      ensures entries == if works then old(entries) + [(id, generation)] else old(entries)
    {
      if works { entries := entries + [(id, generation)]; }
      return works;
    }
  }

  class Store {
    const lease: int
    var now: Time
    var jobs: map<JobId, Job>
    var outbox: map<nat, Intent>
    var nextId: nat
    var audit: seq<Entry>

    ghost function Tables(): Db
      reads this
    {
      Db(now, jobs, outbox, nextId, audit)
    }

    constructor (lease: int, now: Time)
      ensures this.lease == lease && Tables() == Db(now, map[], map[], 1, [])
    {
      this.lease := lease;
      this.now := now;
      jobs, outbox, nextId, audit := map[], map[], 1, [];
    }

    method Log(id: JobId, from: Option<Status>, to: Status, message: string, worker: Option<Owner>)
      modifies this`audit
      ensures audit == old(audit) + [Entry(id, from, to, message, worker)]
    {
      audit := audit + [Entry(id, from, to, message, worker)];
    }

    method InsertIntent(id: JobId, generation: int, attempt: int, availableAt: Time) returns (ok: bool)
      modifies this`outbox, this`nextId
      ensures ok == !IdentityTaken(old(outbox), id, generation, attempt)
      ensures ok ==> Tables() == WithIntent(old(Tables()), Intent(id, generation, attempt, availableAt, None))
      ensures !ok ==> Tables() == old(Tables())
    {
      if IdentityTaken(outbox, id, generation, attempt) { return false; }
      outbox := outbox[nextId := Intent(id, generation, attempt, availableAt, None)];
      nextId := nextId + 1;
      return true;
    }

    method Claim(id: JobId, generation: int, owner: Owner) returns (reply: ClaimReply)
      modifies this
      ensures (Tables(), reply) == ClaimTx(old(Tables()), lease, id, generation, owner)
    {
      if id !in jobs { return Nothing(Missing); }
      var j := jobs[id];
      var active, early := Active(j, now), Early(j, now);
      if j.generation != generation { return Nothing(Superseded); }
      if j.status == Completed || j.status == Dead { return Nothing(Terminal); }
      if j.status == Processing && active { return Busy; }
      if early { return Nothing(NotDue); }
      if j.attemptCount >= j.maxRetries + 1 {
        jobs := jobs[id := j.(status := Dead, errorMsg := Some(EXHAUSTED), leaseOwner := None, leaseUntil := None,
                              processedAt := Some(now))];
        Log(id, Some(j.status), Dead, EXHAUSTED, Some(owner));
        return Nothing(Exhausted);
      }
      var attempt := j.attemptCount + 1;
      jobs := jobs[id := j.(status := Processing, attemptCount := attempt, retryCount := Max(attempt - 1, 0),
                            leaseOwner := Some(owner), leaseUntil := Some(now + lease))];
      Log(id, Some(j.status), Processing, "Attempt claimed", Some(owner));
      return Claimed(Held(id, j.generation, owner, attempt, attempt - 1, j.maxRetries));
    }

    method Renew(h: Held) returns (ok: bool)
      modifies this`jobs
      ensures (Tables(), ok) == RenewTx(old(Tables()), lease, h)
    {
      ok := h.id in jobs;
      if ok {
        var j := jobs[h.id];
        ok := j.generation == h.generation && j.status == Processing && j.leaseOwner == Some(h.owner) && Active(j, now);
        if ok { jobs := jobs[h.id := j.(leaseUntil := Some(now + lease))]; }
      }
    }

    method Finish(h: Held, status: Status, message: string, delay: int) returns (reply: FinishReply)
      modifies this
      ensures (Tables(), reply) == FinishTx(old(Tables()), h, status, message, delay)
    {
      if h.id !in jobs { return LostLease; }
      var j := jobs[h.id];
      if j.generation != h.generation || j.status != Processing || j.leaseOwner != Some(h.owner) || !Active(j, now) {
        return LostLease;
      }
      var before, log := jobs, audit;
      j := j.(status := status, errorMsg := if message == "" then None else Some(message), nextAttemptAt := now + delay,
              leaseOwner := None, leaseUntil := None, processedAt := if status == Pending then None else Some(now));
      jobs := jobs[h.id := j];
      Log(h.id, Some(Processing), status, message, Some(h.owner));
      if status == Pending {
        var ok := InsertIntent(h.id, j.generation, j.attemptCount + 1, j.nextAttemptAt);
        if !ok {
          jobs, audit := before, log;
          return Duplicate;
        }
      }
      return Persisted;
    }

    method CreateJob(id: JobId, maxRetries: int, key: Option<Digest>, hash: Option<Digest>) returns (reply: CreateReply)
      requires KeysUnique(jobs)
      modifies this
      ensures (Tables(), reply) == CreateTx(old(Tables()), id, maxRetries, key, hash)
    {
      var taken := key.Some? && KeyTaken(jobs, key.value);
      var inserted := false;
      if id !in jobs && !taken {
        var before, log := jobs, audit;
        jobs := jobs[id := Job(Pending, 1, 0, 0, maxRetries, now, None, None, None, None, key, hash)];
        Log(id, None, Pending, "Job created", None);
        inserted := InsertIntent(id, 1, 1, now);
        if !inserted { jobs, audit := before, log; }
      }
      if inserted { return Created(id); }
      if taken {
        var first :| first in jobs && jobs[first].requestKey == Some(key.value);
        return if jobs[first].requestHash != hash then Conflict else Existing(first);
      }
      return CreateFailed;
    }

    method Requeue(id: JobId) returns (reply: RequeueReply)
      modifies this
      ensures (Tables(), reply) == RequeueTx(old(Tables()), id)
    {
      if id !in jobs { return NotFound; }
      var j := jobs[id];
      if j.status != Dead && j.status != Failed { return NotRequeueable; }
      var before, log := jobs, audit;
      jobs := jobs[id := j.(status := Pending, retryCount := 0, attemptCount := 0, generation := j.generation + 1,
                            nextAttemptAt := now, leaseOwner := None, leaseUntil := None, errorMsg := None,
                            processedAt := None)];
      Log(id, Some(j.status), Pending, "Manually requeued via API", None);
      var ok := InsertIntent(id, j.generation + 1, 1, now);
      if !ok {
        jobs, audit := before, log;
        return RequeueFailed;
      }
      return Requeued;
    }

    /** SELECT ... WHERE due ORDER BY id LIMIT 1 FOR UPDATE SKIP LOCKED. */
    method SelectRow(locked: set<nat>) returns (row: Option<nat>)
      ensures row == if FreeRows(Tables(), locked) == {} then None else Some(Least(FreeRows(Tables(), locked)))
    {
      if exists k :: k in outbox && IsFirst(outbox, now, locked, k) {
        var k :| k in outbox && IsFirst(outbox, now, locked, k);
        FirstIsLeast(Tables(), locked, k);
        return Some(k);
      }
      if FreeRows(Tables(), locked) != {} { FirstExists(Tables(), locked); }
      return None;
    }

    method Dispatch(stream: Stream, locked: set<nat>, fate: DispatchFate) returns (reply: DispatchReply)
      requires Referential(Tables())
      modifies this`outbox, stream
      ensures var (db, sent, r) := DispatchTx(old(Tables()), locked, fate);
              Tables() == db && stream.entries == old(stream.entries) + sent && reply == r
    {
      var row := SelectRow(locked);
      if row == None { return NoneEligible; }
      var k := row.value;
      var before := outbox;
      var r := outbox[k];
      var j := jobs[r.job];
      if j.generation != r.generation || j.status == Completed || j.status == Dead {
        outbox := outbox - {k};
      } else {
        var ok := stream.Append(r.job, r.generation, fate != PublishFails);
        if !ok { return DispatchError; }
        outbox := outbox[k := r.(publishedAt := Some(now))];
      }
      if fate == CommitFails {
        outbox := before;
        return DispatchError;
      }
      return if fate == CommitUnseen then DispatchError else Handled;
    }

    /** One turn of the dispatcher's loop: a pause after a call that fails or finds nothing. */
    method DispatchTurn(stream: Stream, c: Call) returns (reply: DispatchReply)
      requires Referential(Tables())
      modifies this`outbox, this`now, stream
      ensures var (db, sent, r) := CallTx(old(Tables()), c);
              Tables() == db && stream.entries == old(stream.entries) + sent && reply == r
    {
      now := now + c.elapsed;
      reply := Dispatch(stream, c.locked, c.fate);
      if reply != Handled { now := now + PAUSE; }
    }

    /** The dispatcher's loop, until it is told to stop. */
    method DispatchLoop(stream: Stream, calls: seq<Call>) returns (handled: nat)
      requires Referential(Tables())
      modifies this`outbox, this`now, stream
      ensures var (db, sent, n) := LoopTx(old(Tables()), calls);
              Tables() == db && stream.entries == old(stream.entries) + sent && handled == n
    {
      handled := 0;
      ghost var start, entries := LoopTx(Tables(), calls), stream.entries;
      var i := 0;
      while i < |calls|
        invariant 0 <= i <= |calls|
        invariant Referential(Tables())
        invariant LoopTx(Tables(), calls[i..]).0 == start.0
        invariant stream.entries + LoopTx(Tables(), calls[i..]).1 == entries + start.1
        invariant handled + LoopTx(Tables(), calls[i..]).2 == start.2
      {
        assert calls[i..][0] == calls[i] && calls[i..][1..] == calls[i + 1..];
        Reassociate(stream.entries, CallTx(Tables(), calls[i]).1,
                    LoopTx(CallTx(Tables(), calls[i]).0, calls[i + 1..]).1);
        var reply := DispatchTurn(stream, calls[i]);
        if reply == Handled { handled := handled + 1; }
        i := i + 1;
      }
    }

    /** The dispatcher loop, run until it has nothing more to do, with the clock standing still: it makes one
        successful call for each eligible row, in id order, and publishes the live ones. */
    method DispatchAll(stream: Stream) returns (calls: nat)
      requires Referential(Tables())
      modifies this`outbox, stream
      ensures calls == |EligibleRows(old(Tables()))|
      ensures Tables() == Drained(old(Tables())) && EligibleRows(Tables()) == {}
      ensures stream.entries == old(stream.entries) + DrainSends(old(Tables()))
    {
      calls := 0;
      ghost var start := Tables();
      var more := true;
      while more
        invariant Referential(Tables())
        invariant Drained(Tables()) == Drained(start)
        invariant stream.entries + DrainSends(Tables()) == old(stream.entries) + DrainSends(start)
        invariant calls + |EligibleRows(Tables())| == |EligibleRows(start)|
        invariant !more ==> EligibleRows(Tables()) == {}
        decreases more, |EligibleRows(Tables())|
      {
        DrainStep(Tables(), stream.entries);
        var reply := Dispatch(stream, {}, Works);
        more := reply == Handled;
        if more { calls := calls + 1; }
      }
      DrainEnds(Tables());
    }
  }
}
