/** The invariant of the whole system and its preservation by every step, hence by every run. */
module Safety {
  import opened Tables
  import opened Transactions
  import opened Durability
  import opened Requests
  import opened Protocol
  import Backoff

  ghost predicate DeliveryOk(db: Db, d: Delivery) { Behind(db.jobs, d.job, d.generation, d.intent, db.now) }

  /** A claim is never ahead of its job, and if its owner still owns the job then it is the newest claim:
      the fence on owner and generation is as good as one on the attempt. */
  ghost predicate HeldOk(db: Db, w: Owner, h: Held) {
    && h.owner == w
    && h.id in db.jobs
    && var j := db.jobs[h.id];
    && h.maxRetries == j.maxRetries
    && 1 <= h.attempt <= h.maxRetries + 1 && h.retry == h.attempt - 1
    && 1 <= h.generation <= j.generation
    && (h.generation == j.generation ==>
          && h.attempt <= j.attemptCount
          && (j.status == Processing && j.leaseOwner == Some(w) ==> h.attempt == j.attemptCount))
  }

  /** What Finish is about to be called with follows from the handler's verdict and the remaining budget. */
  ghost predicate OutcomeOk(h: Held, v: Verdict, o: Outcome) {
    match v
    case Success => o.status == Completed && o.delay == 0
    case Permanent(msg) => o.status == Dead && o.message == msg
    case Transient(msg) =>
      && o.message == msg
      && (h.attempt == h.maxRetries + 1 ==> o.status == Dead)
      && (h.attempt <= h.maxRetries ==>
            o.status == Pending && Backoff.Cap(h.retry) / 2 <= o.delay <= Backoff.Cap(h.retry))
  }

  ghost predicate WorkerOk(db: Db, w: Owner, x: Worker) {
    && (x != Idle ==> DeliveryOk(db, x.d))
    && (Holds(x) ==> HeldOk(db, w, x.held) && x.held.id == x.d.job && x.held.generation == x.d.generation)
    && (x.Finishing? ==> OutcomeOk(x.held, x.verdict, x.outcome))
  }

  /** A dispatcher's row is locked, still due, and, if it was found obsolete, obsolete for good. */
  ghost predicate DispatcherOk(db: Db, x: Dispatcher) {
    x != Free ==>
      && x.row in db.outbox
      && Eligible(db.outbox[x.row], db.now)
      && db.outbox[x.row].job in db.jobs
      && (x.Chosen? && x.obsolete ==> Obsolete(db.jobs[db.outbox[x.row].job], db.outbox[x.row]))
  }

  ghost predicate LocksExclusive(ds: map<nat, Dispatcher>) {
    forall n, m :: n in ds && m in ds && ds[n] != Free && ds[m] != Free && ds[n].row == ds[m].row ==> n == m
  }

  ghost predicate Inv(s: State) {
    && s.lease > 0
    && DbInv(s.db)
    && (forall d :: d in s.stream ==> DeliveryOk(s.db, d))
    && (forall w :: w in s.workers ==> WorkerOk(s.db, w, s.workers[w]))
    && (forall n :: n in s.dispatchers ==> DispatcherOk(s.db, s.dispatchers[n]))
    && LocksExclusive(s.dispatchers)
  }

  /** Before anything has happened: a sound database (an empty one, or one that the upgrade has produced),
      no consumer busy, no dispatcher at work, nothing in the stream. */
  ghost predicate Init(s: State) {
    && s.lease > 0
    && IsRequestHash(s.hash)
    && DbInv(s.db)
    && s.workers == map[] && s.dispatchers == map[] && s.stream == {} && s.orphans == {}
    && s.hist == History([], [], {}, [], [], map[], map[])
    && (forall id :: id in s.db.jobs ==> s.db.jobs[id].requestKey.None?)
  }

  lemma InitInv(s: State)
    requires Init(s)
    ensures Inv(s)
  {
  }

  // ----- stability under other parties' transactions

  lemma DeliveryStable(db: Db, db': Db, d: Delivery)
    requires Progressed(db, db') && DeliveryOk(db, d)
    ensures DeliveryOk(db', d)
  {
    BehindStable(db, db', d.job, d.generation, d.intent, db.now);
  }

  /** Whatever commits, short of a claim by the same owner, a claim stays what it was. */
  lemma HeldStable(db: Db, lease: int, e: Event, w: Owner, h: Held)
    requires DbInv(db) && Licensed(db, e) && HeldOk(db, w, h)
    requires e.Claim? ==> e.owner != w
    ensures HeldOk(Commit(db, lease, e), w, h)
  {
  }

  lemma WorkerStable(db: Db, lease: int, e: Event, w: Owner, x: Worker)
    requires DbInv(db) && Licensed(db, e) && WorkerOk(db, w, x)
    requires e.Claim? && e.owner == w ==> !Holds(x)
    ensures WorkerOk(Commit(db, lease, e), w, x)
  {
    CommitProgresses(db, lease, e);
    if x != Idle { DeliveryStable(db, Commit(db, lease, e), x.d); }
    if Holds(x) { HeldStable(db, lease, e, w, x.held); }
  }

  /** Others leave the row alone, and its job in place, in a later generation or settled if it was settled. */
  lemma LockedRowStable(db: Db, lease: int, e: Event, k: nat)
    requires DbInv(db) && Licensed(db, e) && k in db.outbox
    requires e.Mark? || e.Delete? ==> e.row != k
    ensures var db', r := Commit(db, lease, e), db.outbox[k];
            && k in db'.outbox && db'.outbox[k] == r && db.now <= db'.now
            && r.job in db.jobs && r.job in db'.jobs
            && (Obsolete(db.jobs[r.job], r) ==> Obsolete(db'.jobs[r.job], r))
  {
    assert IntentOk(db, db.outbox[k]);
    CommitProgresses(db, lease, e);
    assert Progress(db.jobs[db.outbox[k].job], Commit(db, lease, e).jobs[db.outbox[k].job]);
  }

  /** A decision to delete stays right under every interleaved claim, finish or replay. */
  lemma DispatcherStable(db: Db, lease: int, e: Event, x: Dispatcher)
    requires DbInv(db) && Licensed(db, e) && DispatcherOk(db, x)
    requires e.Mark? || e.Delete? ==> x == Free || e.row != x.row
    ensures DispatcherOk(Commit(db, lease, e), x)
  {
    if x != Free { LockedRowStable(db, lease, e, x.row); }
  }

  // ----- one step

  lemma ClaimLicensed(db: Db, d: Delivery)
    requires DeliveryOk(db, d)
    ensures d.job in db.jobs && (db.jobs[d.job].generation == d.generation ==> db.jobs[d.job].status != Failed)
  {
  }

  lemma EffectLicensed(s: State, a: Action)
    requires Inv(s) && Enabled(s, a)
    ensures Licensed(s.db, Effect(s, a))
  {
    if OfWorker(a) && a.w in s.workers {
      assert WorkerOk(s.db, a.w, s.workers[a.w]);
    }
    if a.DispatchCommit? {
      assert DispatcherOk(s.db, s.dispatchers[a.n]);
    }
  }

  lemma StreamKeeps(s: State, a: Action)
    requires Inv(s) && Enabled(s, a)
    ensures forall d :: d in Stream(s, a) ==> DeliveryOk(NextDb(s, a), d)
  {
    EffectLicensed(s, a);
    CommitProgresses(s.db, s.lease, Effect(s, a));
    forall d | d in Stream(s, a)
      ensures DeliveryOk(NextDb(s, a), d)
    {
      if d in s.stream {
        DeliveryStable(s.db, NextDb(s, a), d);
      } else {
        var r := s.db.outbox[s.dispatchers[a.n].row];
        assert DispatcherOk(s.db, s.dispatchers[a.n]) && IntentOk(s.db, r);
      }
    }
  }

  /** A dispatcher that another party's step leaves alone. */
  lemma BystanderKeeps(s: State, a: Action, n: nat)
    requires Inv(s) && Enabled(s, a) && n in s.dispatchers
    requires Effect(s, a).Mark? || Effect(s, a).Delete? ==>
             s.dispatchers[n] == Free || Effect(s, a).row != s.dispatchers[n].row
    ensures DispatcherOk(NextDb(s, a), s.dispatchers[n])
  {
    EffectLicensed(s, a);
    DispatcherStable(s.db, s.lease, Effect(s, a), s.dispatchers[n]);
  }

  predicate OfDispatcher(a: Action) {
    a.DispatchLock? || a.DispatchRead? || a.DispatchPublish? || a.DispatchCommit? || a.DispatchAbort?
  }

  /** The acting dispatcher changes no table before it commits, and has let go of its row when it does. */
  lemma DispatcherActs(s: State, a: Action)
    requires Inv(s) && Enabled(s, a) && OfDispatcher(a)
    ensures a.n in Dispatchers(s, a) && Dispatchers(s, a) == s.dispatchers[a.n := Dispatchers(s, a)[a.n]]
    ensures DispatcherOk(NextDb(s, a), Dispatchers(s, a)[a.n])
    ensures Effect(s, a) == Quiet || (a.DispatchCommit? && a.n in s.dispatchers && s.dispatchers[a.n] != Free
                                      && Effect(s, a) in {Mark(s.dispatchers[a.n].row), Delete(s.dispatchers[a.n].row)})
    ensures Dispatchers(s, a)[a.n] != Free ==>
              || (a.n in s.dispatchers && s.dispatchers[a.n] != Free
                     && Dispatchers(s, a)[a.n].row == s.dispatchers[a.n].row)
              || (a.DispatchLock? && Dispatchers(s, a)[a.n].row == a.row)
  {
    if a.n in s.dispatchers { assert DispatcherOk(s.db, s.dispatchers[a.n]); }
    if a.DispatchLock? { assert IntentOk(s.db, s.db.outbox[a.row]); }
  }

  lemma OthersDispatch(s: State, a: Action)
    requires Enabled(s, a) && !OfDispatcher(a)
    ensures Dispatchers(s, a) == (if a.Disaster? then map[] else s.dispatchers)
    ensures !Effect(s, a).Mark? && !Effect(s, a).Delete?
  {
  }

  lemma DispatchersKeep(s: State, a: Action)
    requires Inv(s) && Enabled(s, a)
    ensures forall n :: n in Dispatchers(s, a) ==> DispatcherOk(NextDb(s, a), Dispatchers(s, a)[n])
    ensures LocksExclusive(Dispatchers(s, a))
  {
    if OfDispatcher(a) { DispatcherActs(s, a); } else { OthersDispatch(s, a); }
    forall n | n in Dispatchers(s, a)
      ensures DispatcherOk(NextDb(s, a), Dispatchers(s, a)[n])
    {
      if !OfDispatcher(a) || a.n != n { BystanderKeeps(s, a, n); }
    }
    if a.DispatchLock? {
      assert forall n :: n in s.dispatchers && s.dispatchers[n] != Free ==> s.dispatchers[n].row != a.row;
    }
  }

  lemma ClassifyOk(h: Held, v: Verdict, draw: int)
    requires Backoff.Drawn(h.retry, draw) && h.attempt <= h.maxRetries + 1
    ensures OutcomeOk(h, v, Classify(h, v, draw))
  {
    Backoff.DelayBounds(h.retry, draw);
  }

  /** A successful claim is sound for its owner. */
  lemma ClaimedOk(s: State, w: Owner)
    requires Inv(s) && WorkerOf(s, w).Called?
    ensures WorkerOk(ClaimTx(s.db, s.lease, WorkerOf(s, w).d.job, WorkerOf(s, w).d.generation, w).0, w,
              AfterClaim(s, w))
  {
    var d := WorkerOf(s, w).d;
    assert WorkerOk(s.db, w, s.workers[w]);
    ClaimLicensed(s.db, d);
    ClaimProgresses(s.db, s.lease, d.job, d.generation, w);
    DeliveryStable(s.db, ClaimTx(s.db, s.lease, d.job, d.generation, w).0, d);
  }

  lemma OtherWorkerKeeps(s: State, a: Action, w: Owner)
    requires Inv(s) && Enabled(s, a) && w in s.workers && !(OfWorker(a) && a.w == w)
    ensures WorkerOk(NextDb(s, a), w, s.workers[w])
  {
    EffectLicensed(s, a);
    WorkerStable(s.db, s.lease, Effect(s, a), w, s.workers[w]);
  }

  lemma WorkersKeep(s: State, a: Action)
    requires Inv(s) && Enabled(s, a)
    ensures forall w :: w in Workers(s, a) ==> WorkerOk(NextDb(s, a), w, Workers(s, a)[w])
  {
    forall w | w in Workers(s, a)
      ensures WorkerOk(NextDb(s, a), w, Workers(s, a)[w])
    {
      if OfWorker(a) && a.w == w { ActorKeeps(s, a); } else { OtherWorkerKeeps(s, a, w); }
    }
  }

  /** The acting consumer keeps its delivery and its claim, or is given a new one. */
  lemma ActorMoves(s: State, a: Action)
    requires Inv(s) && Enabled(s, a) && OfWorker(a) && !a.ClaimCommit?
    ensures var x, y := WorkerOf(s, a.w), NextWorker(s, a, a.w);
            && (y != Idle ==> (x != Idle && y.d == x.d) || (a.Deliver? && y == Called(a.d)))
            && (Holds(y) ==> Holds(x) && y.held == x.held)
            && (y.Finishing? ==> OutcomeOk(y.held, y.verdict, y.outcome))
  {
    var x := WorkerOf(s, a.w);
    if x != Idle { assert WorkerOk(s.db, a.w, s.workers[a.w]); }
    if a.Join? && !x.beat.failed && !x.expired { ClassifyOk(x.held, x.handler.verdict, a.draw); }
  }

  lemma ActorKeeps(s: State, a: Action)
    requires Inv(s) && Enabled(s, a) && OfWorker(a)
    ensures WorkerOk(NextDb(s, a), a.w, NextWorker(s, a, a.w))
  {
    EffectLicensed(s, a);
    var x := WorkerOf(s, a.w);
    if x != Idle { assert WorkerOk(s.db, a.w, s.workers[a.w]); }
    WorkerStable(s.db, s.lease, Effect(s, a), a.w, x);
    if a.ClaimCommit? {
      ClaimedOk(s, a.w);
    } else {
      ActorMoves(s, a);
      if a.Deliver? {
        CommitProgresses(s.db, s.lease, Effect(s, a));
        DeliveryStable(s.db, NextDb(s, a), a.d);
      }
    }
  }

  /** Every step of the system keeps the invariant. */
  lemma StepKeeps(s: State, a: Action)
    requires Inv(s) && Enabled(s, a)
    ensures Inv(Apply(s, a))
  {
    EffectLicensed(s, a);
    CommitKeeps(s.db, s.lease, Effect(s, a));
    StreamKeeps(s, a);
    DispatchersKeep(s, a);
    WorkersKeep(s, a);
  }

  /** Every run of the system keeps the invariant. */
  lemma {:induction false} RunKeeps(s: State, acts: seq<Action>)
    requires Inv(s) && CanRun(s, acts)
    ensures Inv(After(s, acts))
    decreases |acts|
  {
    if acts != [] {
      StepKeeps(s, acts[0]);
      RunKeeps(Apply(s, acts[0]), acts[1..]);
    }
  }
}
