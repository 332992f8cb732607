/** Every call of ProcessJob, whatever its script, is a run of the system's steps. So what is proved of every
    run is proved of the worker's own code, and the two descriptions of it agree. */
module Execution {
  import opened Tables
  import opened Transactions
  import opened Protocol
  import opened Durability
  import opened Safety
  import opened Runs
  import Backoff
  import Consuming
  import opened Progress
  import Working

  /** The steps of a call of ProcessJob, time included. */
  predicate Within(acts: seq<Action>) { forall a :: a in acts ==> OfCall(a) }

  predicate OfCall(a: Action) {
    || a.Advance? || a.ClaimCommit? || a.ClaimFail? || a.BeatTick? || a.BeatCommit? || a.BeatFail? || a.BeatQuit?
    || a.Expire? || a.HandlerEnd? || a.HandlerPanic? || a.Join? || a.FinishCommit? || a.FinishFail?
  }

  /** They touch neither the stream nor what has been acknowledged. */
  lemma {:induction false} CallLeavesStream(s: State, acts: seq<Action>)
    requires CanRun(s, acts) && Within(acts)
    ensures After(s, acts).stream == s.stream && After(s, acts).hist.acks == s.hist.acks
    decreases |acts|
  {
    if acts != [] {
      assert OfCall(acts[0]);
      assert forall a :: a in acts[1..] ==> a in acts;
      CallLeavesStream(Apply(s, acts[0]), acts[1..]);
    }
  }

  /** A consumer whose handler is running. */
  function Busily(d: Delivery, h: Held, beat: Heartbeat): Worker { Attempting(d, h, beat, Running, false) }

  /** How the heartbeat goes on after a renewal. */
  function BeatAfter(ok: bool): Heartbeat { if ok then Sleeping else Stopped(true) }

  lemma TickStep(s: State, w: Owner, d: Delivery, h: Held, wait: nat)
    requires WorkerOf(s, w) == Busily(d, h, Sleeping)
    ensures var s1 := Apply(s, Advance(wait));
            && Enabled(s1, BeatTick(w))
            && var s2 := Apply(s1, BeatTick(w));
            && s2.db == s.db.(now := s.db.now + wait) && s2.lease == s.lease
               && WorkerOf(s2, w) == Busily(d, h, Renewing)
  {
  }

  lemma RenewStep(s: State, w: Owner, d: Delivery, h: Held, fate: Working.CallFate)
    requires WorkerOf(s, w) == Busily(d, h, Renewing)
    ensures var (db, ok) := RenewTx(s.db, s.lease, h);
            var a := if fate == Working.Fails then BeatFail(w) else BeatCommit(w, fate != Working.Replies);
            && Enabled(s, a)
            && var t := Apply(s, a);
            && t.lease == s.lease && t.db == (if fate == Working.Fails then s.db else db)
            && WorkerOf(t, w) == Busily(d, h, BeatAfter(ok && fate == Working.Replies))
  {
  }

  lemma OneBeat(db: Db, lease: int, h: Held, b: Working.Beat)
    ensures var later := db.(now := db.now + b.wait); var (renewed, ok) := RenewTx(later, lease, h);
            Working.BeatAll(db, lease, h, [b]) ==
              (if b.fate == Working.Fails then later else renewed, ok && b.fate == Working.Replies)
  {
  }

  lemma TickRun(s: State, w: Owner, d: Delivery, h: Held, wait: nat) returns (acts: seq<Action>, t: State)
    requires WorkerOf(s, w) == Busily(d, h, Sleeping)
    ensures Leads(s, acts, t) && t.lease == s.lease && Within(acts)
    ensures t.db == s.db.(now := s.db.now + wait) && WorkerOf(t, w) == Busily(d, h, Renewing)
  {
    TickStep(s, w, d, h, wait);
    var s1 := Apply(s, Advance(wait));
    t := Apply(s1, BeatTick(w));
    Stay(s);
    Extend(s, [], s, Advance(wait));
    Extend(s, [] + [Advance(wait)], s1, BeatTick(w));
    acts := [] + [Advance(wait)] + [BeatTick(w)];
  }

  /** One heartbeat: wait, tick, renewal. */
  lemma BeatRun(s: State, w: Owner, d: Delivery, h: Held, b: Working.Beat) returns (acts: seq<Action>, t: State)
    requires WorkerOf(s, w) == Busily(d, h, Sleeping)
    ensures Leads(s, acts, t) && t.lease == s.lease && Within(acts)
    ensures var (db, ok) := Working.BeatAll(s.db, s.lease, h, [b]);
            t.db == db && WorkerOf(t, w) == Busily(d, h, BeatAfter(ok))
  {
    OneBeat(s.db, s.lease, h, b);
    acts, t := TickRun(s, w, d, h, b.wait);
    var a := if b.fate == Working.Fails then BeatFail(w) else BeatCommit(w, b.fate != Working.Replies);
    RenewStep(t, w, d, h, b.fate);
    Extend(s, acts, t, a);
    acts, t := acts + [a], Apply(t, a);
  }

  lemma FirstBeat(db: Db, lease: int, h: Held, beats: seq<Working.Beat>)
    requires beats != []
    ensures var (first, ok) := Working.BeatAll(db, lease, h, [beats[0]]);
            Working.BeatAll(db, lease, h, beats) ==
              if ok then Working.BeatAll(first, lease, h, beats[1..]) else (first, false)
  {
    OneBeat(db, lease, h, beats[0]);
  }

  /** All heartbeats until the handler ends or a renewal fails. */
  lemma {:induction false} BeatsRun(s: State, w: Owner, d: Delivery, h: Held, beats: seq<Working.Beat>)
      returns (acts: seq<Action>, t: State)
    requires WorkerOf(s, w) == Busily(d, h, Sleeping)
    ensures Leads(s, acts, t) && t.lease == s.lease && Within(acts)
    ensures var (db, ok) := Working.BeatAll(s.db, s.lease, h, beats);
            t.db == db && WorkerOf(t, w) == Busily(d, h, BeatAfter(ok))
    decreases |beats|
  {
    if beats == [] {
      Stay(s);
      return [], s;
    }
    acts, t := BeatRun(s, w, d, h, beats[0]);
    FirstBeat(s.db, s.lease, h, beats);
    if WorkerOf(t, w).beat == Sleeping {
      var mid, rest := t, [];
      rest, t := BeatsRun(mid, w, d, h, beats[1..]);
      LeadsAppend(s, acts, mid, rest, t);
      acts := acts + rest;
    }
  }

  /** The handler returns, and a heartbeat that still runs is stopped. */
  lemma HandlerRun(s: State, w: Owner, d: Delivery, h: Held, alive: bool, expired: bool, v: Verdict)
      returns (acts: seq<Action>, t: State)
    requires WorkerOf(s, w) == Attempting(d, h, BeatAfter(alive), Running, expired)
    ensures Leads(s, acts, t) && t.lease == s.lease && t.db == s.db && Within(acts)
    ensures WorkerOf(t, w) == Attempting(d, h, Stopped(!alive), Ended(v), expired)
  {
    Stay(s);
    Extend(s, [], s, HandlerEnd(w, v));
    acts, t := [] + [HandlerEnd(w, v)], Apply(s, HandlerEnd(w, v));
    if alive {
      Extend(s, acts, t, BeatQuit(w));
      acts, t := acts + [BeatQuit(w)], Apply(t, BeatQuit(w));
    }
  }

  lemma JoinStep(s: State, w: Owner, d: Delivery, h: Held, alive: bool, expired: bool, v: Verdict, draw: int)
    requires WorkerOf(s, w) == Attempting(d, h, Stopped(!alive), Ended(v), expired) && Backoff.Drawn(h.retry, draw)
    ensures Enabled(s, Join(w, draw))
    ensures var t := Apply(s, Join(w, draw));
            && t.lease == s.lease && t.db == s.db
            && WorkerOf(t, w) == if !alive || expired then Retaining(d) else Finishing(d, h, v, Classify(h, v, draw))
  {
  }

  /** The heartbeat is awaited, and the attempt is classified or given up. */
  lemma JoinRun(s: State, w: Owner, d: Delivery, h: Held, alive: bool, v: Verdict, expired: bool, draw: int)
      returns (acts: seq<Action>, t: State)
    requires WorkerOf(s, w) == Busily(d, h, BeatAfter(alive)) && Backoff.Drawn(h.retry, draw)
    ensures Leads(s, acts, t) && t.lease == s.lease && t.db == s.db && Within(acts)
    ensures WorkerOf(t, w) == if !alive || expired then Retaining(d) else Finishing(d, h, v, Classify(h, v, draw))
  {
    Stay(s);
    acts, t := [], s;
    if expired {
      Extend(s, acts, t, Expire(w));
      acts, t := acts + [Expire(w)], Apply(t, Expire(w));
    }
    var mid, rest := t, [];
    rest, t := HandlerRun(mid, w, d, h, alive, expired, v);
    LeadsAppend(s, acts, mid, rest, t);
    JoinStep(t, w, d, h, alive, expired, v, draw);
    Extend(s, acts + rest, t, Join(w, draw));
    acts, t := acts + rest + [Join(w, draw)], Apply(t, Join(w, draw));
  }

  ghost predicate Returned(x: Worker, d: Delivery, nil: bool) {
    if nil then x.Acking? && x.d == d else x == Retaining(d)
  }

  lemma FinishStep(s: State, w: Owner, d: Delivery, fate: Working.CallFate)
    requires WorkerOf(s, w).Finishing? && WorkerOf(s, w).d == d
    ensures var x := WorkerOf(s, w);
            var (db, r) := FinishTx(s.db, x.held, x.outcome.status, x.outcome.message, Micros(x.outcome.delay));
            var a := if fate == Working.Fails then FinishFail(w) else FinishCommit(w, fate != Working.Replies);
            && Enabled(s, a)
            && Apply(s, a).db == (if fate == Working.Fails then s.db else db)
            && Returned(WorkerOf(Apply(s, a), w), d, r == Persisted && fate == Working.Replies)
  {
  }

  /** The heartbeats and the rest of the handler's time. */
  lemma BusyRun(s: State, w: Owner, d: Delivery, h: Held, script: Working.Script) returns (acts: seq<Action>, t: State)
    requires WorkerOf(s, w) == Busily(d, h, Sleeping)
    ensures Leads(s, acts, t) && t.lease == s.lease && Within(acts)
    ensures var (db, ok) := Working.BeatAll(s.db, s.lease, h, script.beats);
            t.db == db.(now := db.now + script.rest) && WorkerOf(t, w) == Busily(d, h, BeatAfter(ok))
  {
    acts, t := BeatsRun(s, w, d, h, script.beats);
    Extend(s, acts, t, Advance(script.rest));
    acts, t := acts + [Advance(script.rest)], Apply(t, Advance(script.rest));
  }

  lemma AttemptRun(s: State, w: Owner, d: Delivery, h: Held, script: Working.Script)
      returns (acts: seq<Action>, t: State)
    requires WorkerOf(s, w) == Busily(d, h, Sleeping) && Working.DrawsInRange(script.draw)
    ensures Leads(s, acts, t) && Within(acts)
    ensures var (db, nil) := Working.AttemptTx(s.db, s.lease, h, script); t.db == db && Returned(WorkerOf(t, w), d, nil)
  {
    acts, t := BusyRun(s, w, d, h, script);
    var alive := WorkerOf(t, w).beat == Sleeping;
    if script.verdict.None? {
      Extend(s, acts, t, HandlerPanic(w));
      acts, t := acts + [HandlerPanic(w)], Apply(t, HandlerPanic(w));
    } else {
      var mid, rest := t, [];
      rest, t := JoinRun(mid, w, d, h, alive, script.verdict.value, script.expired, script.draw(h.retry));
      LeadsAppend(s, acts, mid, rest, t);
      acts := acts + rest;
      if alive && !script.expired {
        var a := if script.finish == Working.Fails then FinishFail(w)
                 else FinishCommit(w, script.finish != Working.Replies);
        FinishStep(t, w, d, script.finish);
        Extend(s, acts, t, a);
        acts, t := acts + [a], Apply(t, a);
      }
    }
  }

  lemma ClaimStep(s: State, w: Owner, fate: Working.CallFate)
    requires WorkerOf(s, w).Called?
    ensures var d := WorkerOf(s, w).d; var (db, reply) := ClaimTx(s.db, s.lease, d.job, d.generation, w);
            var a := if fate == Working.Fails then ClaimFail(w) else ClaimCommit(w, fate != Working.Replies);
            && Enabled(s, a)
            && var t := Apply(s, a);
            && t.lease == s.lease && t.db == (if fate == Working.Fails then s.db else db)
            && (fate == Working.Replies && reply.Claimed? ==> WorkerOf(t, w) == Busily(d, reply.held, Sleeping))
            && (fate != Working.Replies || !reply.Claimed? ==>
                   Returned(WorkerOf(t, w), d, fate == Working.Replies && reply.Nothing?))
  {
  }

  /** A call of ProcessJob is a run of the system: the same database, and the delivery goes on to be
      acknowledged exactly when the call returned nil. */
  lemma ProcessJobIsARun(s: State, w: Owner, script: Working.Script) returns (acts: seq<Action>, t: State)
    requires WorkerOf(s, w).Called? && Working.DrawsInRange(script.draw)
    ensures Leads(s, acts, t) && Within(acts)
    ensures var d := WorkerOf(s, w).d;
            var (db, nil) := Working.ProcessTx(s.db, s.lease, w, d.job, d.generation, script);
            t.db == db
            && if nil then WorkerOf(t, w).Acking? && WorkerOf(t, w).d == d else WorkerOf(t, w) == Retaining(d)
  {
    var d := WorkerOf(s, w).d;
    var a := if script.claim == Working.Fails then ClaimFail(w) else ClaimCommit(w, script.claim != Working.Replies);
    ClaimStep(s, w, script.claim);
    Stay(s);
    Extend(s, [], s, a);
    acts, t := [] + [a], Apply(s, a);
    if WorkerOf(t, w).Attempting? {
      var mid, rest := t, [];
      rest, t := AttemptRun(mid, w, d, WorkerOf(mid, w).held, script);
      LeadsAppend(s, acts, mid, rest, t);
      acts := acts + rest;
    }
  }

  /** So a call keeps the invariant of the tables whatever its script, crashes and lost replies included. */
  lemma ProcessJobKeeps(s: State, w: Owner, script: Working.Script)
    requires Inv(s) && WorkerOf(s, w).Called? && Working.DrawsInRange(script.draw)
    ensures DbInv(Working.ProcessTx(s.db, s.lease, w, WorkerOf(s, w).d.job, WorkerOf(s, w).d.generation, script).0)
  {
    var acts, t := ProcessJobIsARun(s, w, script);
    RunKeeps(s, acts);
  }

  lemma DeliverStep(s: State, w: Owner, d: Delivery)
    requires WorkerOf(s, w) == Idle && d in s.stream
    ensures Enabled(s, Deliver(w, d))
    ensures var t := Apply(s, Deliver(w, d));
            WorkerOf(t, w) == Called(d) && t.db == s.db && t.lease == s.lease && t.stream == s.stream
            && t.hist.acks == s.hist.acks
  {
  }

  /** The last step: only a nil result is acknowledged. */
  lemma LeaveStep(s: State, w: Owner, d: Delivery, nil: bool, removed: bool) returns (a: Action)
    requires Returned(WorkerOf(s, w), d, nil)
    ensures Enabled(s, a) && WorkerOf(Apply(s, a), w) == Idle && Apply(s, a).db == s.db
    ensures Apply(s, a).stream == if nil && removed then s.stream - {d} else s.stream
    ensures Apply(s, a).hist.acks == s.hist.acks + if nil then [Ack(d, WorkerOf(s, w).why)] else []
  {
    a := if nil then Acknowledge(w, removed) else Release(w);
  }

  /** Handling one well-formed delivery is a run of the system: the consumer is idle again, the tables are those
      of the ProcessJob call, and the delivery is acknowledged, as the consumer's code does it, exactly when
      the call returned nil; if the acknowledgement succeeds it leaves the stream. */
  lemma HandlingIsARun(s: State, w: Owner, d: Delivery, script: Working.Script, removed: bool)
      returns (acts: seq<Action>, t: State)
    requires WorkerOf(s, w) == Idle && d in s.stream && Working.DrawsInRange(script.draw)
    requires d.job != "" && d.generation >= 1
    ensures Leads(s, acts, t) && WorkerOf(t, w) == Idle
    ensures var (db, nil) := Working.ProcessTx(s.db, s.lease, w, d.job, d.generation, script);
            && t.db == db
            && (nil ==> exists why :: t.hist.acks == s.hist.acks + [Ack(d, why)])
            && (!nil ==> t.hist.acks == s.hist.acks)
            && t.stream == (if nil && removed then s.stream - {d} else s.stream)
            && (Consuming.Leaves(MessageOf(d), Consuming.Handling(nil, removed)) <==> nil && removed)
  {
    DeliverStep(s, w, d);
    Stay(s);
    Extend(s, [], s, Deliver(w, d));
    var called, rest := Apply(s, Deliver(w, d)), [];
    rest, t := ProcessJobIsARun(called, w, script);
    CallLeavesStream(called, rest);
    LeadsAppend(s, [] + [Deliver(w, d)], called, rest, t);
    acts := [] + [Deliver(w, d)] + rest;
    var nil := Working.ProcessTx(s.db, s.lease, w, d.job, d.generation, script).1;
    var last := LeaveStep(t, w, d, nil, removed);
    Extend(s, acts, t, last);
    acts, t := acts + [last], Apply(t, last);
  }
}
