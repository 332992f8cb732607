/** Dispatching against a moving clock. Rows are taken in id order and become eligible again thirty seconds
    after their publication, so older live rows can come back ahead of a newer one. How long a row waits. */
module Fairness {
  import opened Tables
  import opened Transactions
  import opened Durability
  import opened Protocol
  import opened Safety
  import opened Recovery
  import opened Dispatching
  import opened Minimum

  /** What happens to the outbox while no dispatcher commits: no row is touched, and new rows get new ids. */
  ghost predicate Meanwhile(db: Db, later: Db) {
    && db.now <= later.now && db.nextId <= later.nextId
    && (forall k :: k in db.outbox ==> k in later.outbox && later.outbox[k] == db.outbox[k])
    && (forall k :: k in later.outbox && k !in db.outbox ==> db.nextId <= k)
  }

  lemma Grown(db: Db, later: Db, r: Intent)
    requires DbInv(db) && db.now <= later.now
    requires (later.outbox == db.outbox && later.nextId == db.nextId)
             || (later.outbox == db.outbox[db.nextId := r] && later.nextId == db.nextId + 1)
    ensures Meanwhile(db, later)
  {
  }

  lemma FinishMeanwhile(db: Db, h: Held, st: Status, msg: string, d: int)
    requires DbInv(db)
    ensures Meanwhile(db, FinishTx(db, h, st, msg, d).0)
  {
    if Owns(db, h) {
      var j := Finished(db.jobs[h.id], db.now, st, msg, d);
      Grown(db, FinishTx(db, h, st, msg, d).0, Intent(h.id, j.generation, j.attemptCount + 1, j.nextAttemptAt, None));
    }
  }

  lemma ClaimMeanwhile(db: Db, lease: int, id: JobId, g: int, owner: Owner)
    requires DbInv(db)
    ensures Meanwhile(db, ClaimTx(db, lease, id, g, owner).0)
  {
  }

  /** Acceptance, claims, renewals, finishes, replays and time are such. */
  lemma OthersMeanwhile(db: Db, lease: int, e: Event)
    requires DbInv(db) && !e.Mark? && !e.Delete?
    ensures Meanwhile(db, Commit(db, lease, e))
  {
    var later := Commit(db, lease, e);
    match e
    case Create(id, _, _, _) => Grown(db, later, Intent(id, 1, 1, db.now, None));
    case Finish(h, st, msg, d) => FinishMeanwhile(db, h, st, msg, d);
    case Requeue(id) =>
      if id in db.jobs { Grown(db, later, Intent(id, db.jobs[id].generation + 1, 1, db.now, None)); }
    case Claim(id, g, owner) => ClaimMeanwhile(db, lease, id, g, owner);
    case _ =>
  }

  lemma MeanwhileTransitive(a: Db, b: Db, c: Db)
    requires Meanwhile(a, b) && Meanwhile(b, c)
    ensures Meanwhile(a, c)
  {
  }

  lemma {:induction false} RunMeanwhile(s: State, acts: seq<Action>)
    requires Inv(s) && CanRun(s, acts) && forall i :: 0 <= i < |acts| ==> !acts[i].DispatchCommit?
    ensures Meanwhile(s.db, After(s, acts).db)
    decreases |acts|
  {
    if acts != [] {
      StepKeeps(s, acts[0]);
      StepMeanwhile(s, acts[0]);
      RunMeanwhile(Apply(s, acts[0]), acts[1..]);
      MeanwhileTransitive(s.db, NextDb(s, acts[0]), After(s, acts).db);
    }
  }

  lemma StepMeanwhile(s: State, a: Action)
    requires Inv(s) && Enabled(s, a) && !a.DispatchCommit?
    ensures Meanwhile(s.db, NextDb(s, a))
  {
    OthersMeanwhile(s.db, s.lease, Effect(s, a));
  }

  // ----- the calls of one dispatcher in a run of the system

  /** No dispatcher but n acts. */
  ghost predicate Alone(acts: seq<Action>, n: nat) {
    forall i :: 0 <= i < |acts| ==> OfDispatcher(acts[i]) ==> acts[i].n == n
  }

  /** No dispatcher but n is in a call. */
  ghost predicate OnlyHolder(s: State, n: nat) { forall m :: m in s.dispatchers && m != n ==> s.dispatchers[m] == Free }

  ghost predicate NoCall(s: State) { forall m :: m in s.dispatchers ==> s.dispatchers[m] == Free }

  /** The SELECT of a call returns the first row it may. */
  ghost predicate FirstTaken(s: State, a: Action) {
    a.DispatchLock? ==> forall m :: Selectable(s, m) ==> a.row <= m
  }

  ghost predicate InOrder(s: State, acts: seq<Action>)
    requires CanRun(s, acts)
    decreases |acts|
  {
    acts == [] || (FirstTaken(s, acts[0]) && InOrder(Apply(s, acts[0]), acts[1..]))
  }

  /** The number of calls that succeed. */
  function Commits(acts: seq<Action>, n: nat): nat {
    if acts == [] then 0 else (if acts[0] == DispatchCommit(n) then 1 else 0) + Commits(acts[1..], n)
  }

  function Due(a: Action, n: nat, due: Time, d: nat): Time { if a == DispatchCommit(n) then due + d else due }

  /** The first successful call commits by `due`, and each later one at most d after the bound of the one before. */
  ghost predicate OnPace(s: State, acts: seq<Action>, n: nat, due: Time, d: nat)
    requires CanRun(s, acts)
    decreases |acts|
  {
    acts == []
    || ((acts[0] == DispatchCommit(n) ==> s.db.now <= due)
        && OnPace(Apply(s, acts[0]), acts[1..], n, Due(acts[0], n, due, d), d))
  }

  /** Some successful call handles row x. */
  ghost predicate Handles(s: State, acts: seq<Action>, n: nat, x: nat)
    requires CanRun(s, acts)
    decreases |acts|
  {
    acts != []
    && ((acts[0] == DispatchCommit(n) && DispatcherOf(s, n).row == x) || Handles(Apply(s, acts[0]), acts[1..], n, x))
  }

  function Older(db: Db, x: nat): set<nat> { set m | m in db.outbox && m < x }

  /** The older rows not yet published since a given time. */
  function Ahead(db: Db, x: nat, since: Time): set<nat> {
    set m | m in Older(db, x) && (db.outbox[m].publishedAt.Some? ==> db.outbox[m].publishedAt.value < since)
  }

  lemma AheadUnchanged(db: Db, next: Db, x: nat, since: Time)
    requires Meanwhile(db, next) && x in db.outbox && x < db.nextId
    ensures Ahead(next, x, since) == Ahead(db, x, since)
  {
  }

  lemma StaysEligible(db: Db, next: Db, x: nat)
    requires Meanwhile(db, next) && x in EligibleRows(db)
    ensures x in EligibleRows(next)
  {
  }

  /** The row of the call in progress is x or ahead of it. */
  ghost predicate AtWork(s: State, n: nat, x: nat, since: Time) {
    DispatcherOf(s, n) != Free ==> DispatcherOf(s, n).row == x || DispatcherOf(s, n).row in Ahead(s.db, x, since)
  }

  lemma LockTakes(s: State, n: nat, k: nat, x: nat, since: Time)
    requires Inv(s) && Enabled(s, DispatchLock(n, k)) && FirstTaken(s, DispatchLock(n, k)) && OnlyHolder(s, n)
    requires x in EligibleRows(s.db) && s.db.now <= since + REPUBLISH_AFTER
    ensures k == x || k in Ahead(s.db, x, since)
  {
    assert Selectable(s, x);
  }

  lemma DispatcherAfter(s: State, a: Action, n: nat)
    requires Enabled(s, a) && OnlyHolder(s, n) && (OfDispatcher(a) ==> a.n == n)
    ensures OnlyHolder(Apply(s, a), n)
    ensures var y := DispatcherOf(Apply(s, a), n);
            y == Free || (a.DispatchLock? && y.row == a.row)
            || (DispatcherOf(s, n) != Free && y.row == DispatcherOf(s, n).row && !a.DispatchCommit?)
  {
  }

  /** A step that commits no dispatch leaves everything ahead of row x as it was. */
  lemma StepWaits(s: State, a: Action, n: nat, x: nat, since: Time)
    requires Inv(s) && Enabled(s, a) && OnlyHolder(s, n) && (OfDispatcher(a) ==> a.n == n) && FirstTaken(s, a)
    requires !a.DispatchCommit? && x in EligibleRows(s.db) && s.db.now <= since + REPUBLISH_AFTER
    requires AtWork(s, n, x, since)
    ensures OnlyHolder(Apply(s, a), n) && AtWork(Apply(s, a), n, x, since)
    ensures s.db.now <= NextDb(s, a).now && x in EligibleRows(NextDb(s, a))
    ensures Ahead(NextDb(s, a), x, since) == Ahead(s.db, x, since)
  {
    DispatcherAfter(s, a, n);
    StepMeanwhile(s, a);
    StaysEligible(s.db, NextDb(s, a), x);
    AheadUnchanged(s.db, NextDb(s, a), x, since);
    if a.DispatchLock? { LockTakes(s, n, a.row, x, since); }
  }

  lemma CommitsRow(s: State, n: nat)
    requires Inv(s) && Enabled(s, DispatchCommit(n))
    ensures var k, db := DispatcherOf(s, n).row, NextDb(s, DispatchCommit(n));
            && k in s.db.outbox && db.now == s.db.now
            && (forall m :: m in s.db.outbox && m != k ==> m in db.outbox && db.outbox[m] == s.db.outbox[m])
            && db.outbox.Keys <= s.db.outbox.Keys
            && (k in db.outbox ==> db.outbox[k].publishedAt == Some(s.db.now))
  {
    assert DispatcherOk(s.db, s.dispatchers[n]);
  }

  /** A commit of another row uses up one of the rows ahead of x. */
  lemma CommitAhead(s: State, n: nat, x: nat, since: Time)
    requires Inv(s) && Enabled(s, DispatchCommit(n)) && OnlyHolder(s, n) && DispatcherOf(s, n).row != x
    requires x in EligibleRows(s.db) && since <= s.db.now && AtWork(s, n, x, since)
    ensures OnlyHolder(Apply(s, DispatchCommit(n)), n) && AtWork(Apply(s, DispatchCommit(n)), n, x, since)
    ensures var db := NextDb(s, DispatchCommit(n));
            && x in EligibleRows(db) && db.now == s.db.now
            && |Ahead(db, x, since)| + 1 <= |Ahead(s.db, x, since)|
  {
    var m, db := DispatcherOf(s, n).row, NextDb(s, DispatchCommit(n));
    DispatcherAfter(s, DispatchCommit(n), n);
    CommitsRow(s, n);
    assert Ahead(db, x, since) <= Ahead(s.db, x, since) - {m};
    SubsetSmaller(Ahead(db, x, since), Ahead(s.db, x, since) - {m});
  }

  lemma {:induction false} ClockRises(s: State, acts: seq<Action>)
    requires CanRun(s, acts)
    ensures s.db.now <= After(s, acts).db.now
    decreases |acts|
  {
    if acts != [] {
      StepClock(s.db, s.lease, Effect(s, acts[0]));
      ClockRises(Apply(s, acts[0]), acts[1..]);
    }
  }

  lemma StepClock(db: Db, lease: int, e: Event)
    ensures db.now <= Commit(db, lease, e).now
  {
  }

  /** Until the next commit it is no later than that commit's bound. */
  lemma {:induction false} BeforeDue(s: State, acts: seq<Action>, n: nat, due: Time, d: nat)
    requires CanRun(s, acts) && OnPace(s, acts, n, due, d) && Commits(acts, n) > 0
    ensures s.db.now <= due
    decreases |acts|
  {
    if acts[0] != DispatchCommit(n) {
      StepClock(s.db, s.lease, Effect(s, acts[0]));
      BeforeDue(Apply(s, acts[0]), acts[1..], n, due, d);
    }
  }

  /** The commits to come, one for each row ahead and one more, fall within thirty seconds. */
  predicate InTime(due: Time, ahead: nat, d: nat, since: Time) { due + ahead * d <= since + REPUBLISH_AFTER }

  lemma InTimeNext(due: Time, ahead: nat, later: nat, d: nat, since: Time)
    requires InTime(due, ahead, d, since)
    ensures due <= since + REPUBLISH_AFTER
    ensures later + 1 <= ahead ==> InTime(due + d, later, d, since)
  {
    Multiples(0, ahead, d);
    if later + 1 <= ahead {
      Multiples(later + 1, ahead, d);
      Multiples(1, later + 1, d);
    }
  }

  /** Row x waits, and enough commits are to come in time. */
  ghost predicate Waits(s: State, acts: seq<Action>, n: nat, x: nat, since: Time, due: Time, d: nat) {
    && Inv(s) && CanRun(s, acts) && Alone(acts, n) && InOrder(s, acts) && OnPace(s, acts, n, due, d)
    && OnlyHolder(s, n) && x in EligibleRows(s.db) && AtWork(s, n, x, since) && since <= s.db.now
    && Commits(acts, n) > |Ahead(s.db, x, since)| && InTime(due, |Ahead(s.db, x, since)|, d, since)
  }

  lemma WaitsAfterStep(s: State, acts: seq<Action>, n: nat, x: nat, since: Time, due: Time, d: nat)
    requires acts != [] && Waits(s, acts, n, x, since, due, d) && !acts[0].DispatchCommit?
    ensures Waits(Apply(s, acts[0]), acts[1..], n, x, since, due, d)
  {
    StepKeeps(s, acts[0]);
    BeforeDue(s, acts, n, due, d);
    InTimeNext(due, |Ahead(s.db, x, since)|, 0, d, since);
    StepWaits(s, acts[0], n, x, since);
  }

  lemma WaitsAfterCommit(s: State, acts: seq<Action>, n: nat, x: nat, since: Time, due: Time, d: nat)
    requires acts != [] && Waits(s, acts, n, x, since, due, d) && acts[0].DispatchCommit? && DispatcherOf(s, n).row != x
    ensures Waits(Apply(s, acts[0]), acts[1..], n, x, since, due + d, d)
  {
    assert acts[0] == DispatchCommit(n);
    StepKeeps(s, acts[0]);
    CommitAhead(s, n, x, since);
    InTimeNext(due, |Ahead(s.db, x, since)|, |Ahead(NextDb(s, acts[0]), x, since)|, d, since);
  }

  ghost predicate HandlesFirst(s: State, acts: seq<Action>, n: nat, x: nat)
    requires acts != [] && CanRun(s, acts)
  {
    acts[0] == DispatchCommit(n) && DispatcherOf(s, n).row == x
  }

  lemma WaitsNext(s: State, acts: seq<Action>, n: nat, x: nat, since: Time, due: Time, d: nat)
    requires Waits(s, acts, n, x, since, due, d)
    ensures acts != [] && CanRun(s, acts)
    ensures HandlesFirst(s, acts, n, x)
            || Waits(Apply(s, acts[0]), acts[1..], n, x, since, Due(acts[0], n, due, d), d)
  {
    if !acts[0].DispatchCommit? {
      WaitsAfterStep(s, acts, n, x, since, due, d);
    } else if DispatcherOf(s, n).row != x {
      WaitsAfterCommit(s, acts, n, x, since, due, d);
    }
  }

  lemma HandlesUnfold(s: State, acts: seq<Action>, n: nat, x: nat)
    requires acts != [] && CanRun(s, acts)
    ensures Handles(s, acts, n, x) <==> HandlesFirst(s, acts, n, x) || Handles(Apply(s, acts[0]), acts[1..], n, x)
  {
  }

  lemma {:induction false} HandledOnPace(s: State, acts: seq<Action>, n: nat, x: nat, since: Time, due: Time, d: nat)
    requires Waits(s, acts, n, x, since, due, d)
    ensures Handles(s, acts, n, x)
    decreases |acts|
  {
    WaitsNext(s, acts, n, x, since, due, d);
    HandlesUnfold(s, acts, n, x);
    if !HandlesFirst(s, acts, n, x) {
      HandledOnPace(Apply(s, acts[0]), acts[1..], n, x, since, Due(acts[0], n, due, d), d);
    }
  }

  lemma {:induction false} ByTheEnd(s: State, acts: seq<Action>, n: nat, due: Time)
    requires CanRun(s, acts) && After(s, acts).db.now <= due
    ensures OnPace(s, acts, n, due, 0)
    decreases |acts|
  {
    ClockRises(s, acts);
    if acts != [] { ByTheEnd(Apply(s, acts[0]), acts[1..], n, due); }
  }

  /** In every run of the system with one dispatcher, whatever is accepted, claimed, finished, replayed, lost or
      crashes between the steps of its calls: if more calls than there are older rows succeed within thirty
      seconds, they handle the row. */
  lemma ServedWithinThirtySeconds(s: State, acts: seq<Action>, n: nat, x: nat)
    requires Inv(s) && CanRun(s, acts) && NoCall(s) && Alone(acts, n) && InOrder(s, acts)
    requires x in EligibleRows(s.db) && After(s, acts).db.now - s.db.now <= REPUBLISH_AFTER
    requires Commits(acts, n) > |Older(s.db, x)|
    ensures Handles(s, acts, n, x)
  {
    SubsetSmaller(Ahead(s.db, x, s.db.now), Older(s.db, x));
    ByTheEnd(s, acts, n, s.db.now + REPUBLISH_AFTER);
    HandledOnPace(s, acts, n, x, s.db.now, s.db.now + REPUBLISH_AFTER, 0);
  }

  lemma Multiples(a: nat, b: nat, d: nat)
    ensures a <= b ==> a * d <= b * d
    ensures (b - a) * d == b * d - a * d
  {
  }

  // ----- without that bound

  /** The names of distinct jobs. */
  function Name(r: nat): JobId { seq(r, _ => 'j') }

  function Names(k: nat): set<JobId> { set r: nat | r <= k :: Name(r) }

  /** Jobs accepted at time 0, one intent each. Row r < done was published at cycle + r * d; the other rows of
      the first `size` were published a cycle earlier, or not yet. */
  function Stamp(r: nat, size: nat, d: nat, cycle: int, done: nat): Option<Time> {
    if r < done then Some(cycle + r * d)
    else if cycle > 0 && r < size then Some(cycle - size * d + r * d)
    else None
  }

  function Rows(k: nat, size: nat, d: nat, cycle: int, done: nat): map<nat, Intent> {
    map r: nat | r <= k :: Intent(Name(r), 1, 1, 0, Stamp(r, size, d, cycle, done))
  }

  function Scene(k: nat, size: nat, d: nat, cycle: int, done: nat): Db {
    var jobs := map id | id in Names(k) :: Accepted(0, 3, None, None);
    Db(cycle + done * d, jobs, Rows(k, size, d, cycle, done), k + 1, [])
  }

  /** The time since a row's publication, at a given call: at least a whole cycle, or less than one. */
  predicate Cyclic(size: nat, d: nat) { 0 < size && (size - 1) * d <= REPUBLISH_AFTER < size * d }

  predicate InCycle(k: nat, size: nat, d: nat, cycle: int, done: nat) {
    Cyclic(size, d) && done < size <= k && (cycle == 0 || cycle >= size * d)
  }

  lemma StampSane(k: nat, size: nat, d: nat, cycle: int, done: nat, r: nat)
    requires InCycle(k, size, d, cycle, done) && r <= k
    ensures cycle + done * d >= 0
    ensures var p := Stamp(r, size, d, cycle, done); p.Some? ==> 0 <= p.value <= cycle + done * d
  {
    Multiples(0, done, d);
    Multiples(0, r, d);
    if r < done { Multiples(r, done, d); }
    if done <= r < size { Multiples(r, size, d); }
  }

  /** At a call, the rows already published in this cycle are not yet eligible again. */
  lemma DoneWaits(k: nat, size: nat, d: nat, cycle: int, done: nat, r: nat)
    requires InCycle(k, size, d, cycle, done) && r < done
    ensures Stamp(r, size, d, cycle, done).Some?
            && Stamp(r, size, d, cycle, done).value >= cycle + done * d - REPUBLISH_AFTER
  {
    Multiples(r, done, d);
    Multiples(done - r, size - 1, d);
  }

  lemma SceneRow(k: nat, size: nat, d: nat, cycle: int, done: nat, r: nat)
    requires InCycle(k, size, d, cycle, done) && r <= k
    ensures var row := Rows(k, size, d, cycle, done)[r]; var now := cycle + done * d;
            && (row.publishedAt.Some? ==> 0 <= row.publishedAt.value <= now)
            && (Eligible(row, now) ==> done <= r)
            && (r == done || r == k ==> Eligible(row, now))
  {
    StampSane(k, size, d, cycle, done, r);
    if r < done { DoneWaits(k, size, d, cycle, done, r); }
  }

  function FirstNumbers(k: nat): (s: set<nat>)
    ensures |s| == k && forall m: nat :: m in s <==> m < k
  {
    if k == 0 then {} else FirstNumbers(k - 1) + {k - 1}
  }

  lemma SceneSound(k: nat, size: nat, d: nat, cycle: int, done: nat)
    requires InCycle(k, size, d, cycle, done)
    ensures DbInv(Scene(k, size, d, cycle, done))
  {
    var db := Scene(k, size, d, cycle, done);
    forall r | r in db.outbox
      ensures IntentOk(db, db.outbox[r])
    {
      assert Name(r) in Names(k);
      SceneRow(k, size, d, cycle, done, r);
    }
    forall id | id in db.jobs
      ensures JobOk(db.now, db.jobs[id]) && Covered(db.outbox, id, db.jobs[id])
    {
      var r: nat :| r <= k && id == Name(r);
      assert Carries(db.outbox[r], id, 1, 1);
    }
    NamesDiffer(k, size, d, cycle, done);
  }

  lemma NamesDiffer(k: nat, size: nat, d: nat, cycle: int, done: nat)
    ensures IdentitiesUnique(Rows(k, size, d, cycle, done))
  {
    var rows := Rows(k, size, d, cycle, done);
    forall a, b | a in rows && b in rows && Carries(rows[b], rows[a].job, rows[a].generation, rows[a].attempt)
      ensures a == b
    {
      assert |Name(a)| == a && |Name(b)| == b;
    }
  }

  lemma SceneTurn(k: nat, size: nat, d: nat, cycle: int, done: nat)
    requires InCycle(k, size, d, cycle, done)
    ensures var db := Scene(k, size, d, cycle, done);
            done in EligibleRows(db) && k in EligibleRows(db) && Least(EligibleRows(db)) == done
  {
    var db := Scene(k, size, d, cycle, done);
    SceneRow(k, size, d, cycle, done, done);
    SceneRow(k, size, d, cycle, done, k);
    assert done in EligibleRows(db);
    forall r | r in EligibleRows(db)
      ensures done <= r
    {
      SceneRow(k, size, d, cycle, done, r);
    }
  }

  lemma SceneBusy(k: nat, size: nat, d: nat, cycle: int, done: nat)
    requires InCycle(k, size, d, cycle, done)
    ensures var db := Scene(k, size, d, cycle, done);
            && DbInv(db) && Referential(db) && k in EligibleRows(db) && |Older(db, k)| == k
            && Least(EligibleRows(db)) == done
  {
    var db := Scene(k, size, d, cycle, done);
    SceneSound(k, size, d, cycle, done);
    SceneTurn(k, size, d, cycle, done);
    assert Older(db, k) == FirstNumbers(k);
    InvReferential(db);
  }

  /** The next call: one more row of this cycle, or the first of the next. */
  function NextDone(size: nat, done: nat): nat { if done + 1 < size then done + 1 else 0 }
  function NextCycle(size: nat, d: nat, cycle: int, done: nat): int {
    if done + 1 < size then cycle else cycle + size * d
  }

  function NextScene(k: nat, size: nat, d: nat, cycle: int, done: nat): Db {
    Scene(k, size, d, NextCycle(size, d, cycle, done), NextDone(size, done))
  }

  lemma StampNext(k: nat, size: nat, d: nat, cycle: int, done: nat, r: nat)
    requires InCycle(k, size, d, cycle, done) && r <= k
    ensures (if r == done then Some(cycle + done * d) else Stamp(r, size, d, cycle, done)) ==
              Stamp(r, size, d, NextCycle(size, d, cycle, done), NextDone(size, done))
  {
  }

  lemma CycleNext(k: nat, size: nat, d: nat, cycle: int, done: nat)
    requires InCycle(k, size, d, cycle, done)
    ensures InCycle(k, size, d, NextCycle(size, d, cycle, done), NextDone(size, done))
    ensures NextScene(k, size, d, cycle, done).now == Scene(k, size, d, cycle, done).now + d
  {
    Multiples(done, done + 1, d);
  }

  lemma SceneMarked(k: nat, size: nat, d: nat, cycle: int, done: nat)
    requires InCycle(k, size, d, cycle, done)
    ensures MarkTx(Scene(k, size, d, cycle, done), done).outbox == NextScene(k, size, d, cycle, done).outbox
  {
    var marked, next := MarkTx(Scene(k, size, d, cycle, done), done).outbox, NextScene(k, size, d, cycle, done).outbox;
    forall r: nat | r <= k
      ensures marked[r] == next[r]
    {
      StampNext(k, size, d, cycle, done, r);
    }
  }

  /** Dispatching the row whose turn it is, and waiting, sets the next scene. */
  lemma SceneMoves(k: nat, size: nat, d: nat, cycle: int, done: nat)
    requires InCycle(k, size, d, cycle, done)
    ensures var db := Scene(k, size, d, cycle, done);
            && Referential(db) && done in db.outbox && !Needless(db, done)
            && Commit(DispatchRow(db, done), 1, Tick(d)) == NextScene(k, size, d, cycle, done)
  {
    var db := Scene(k, size, d, cycle, done);
    SceneBusy(k, size, d, cycle, done);
    assert Name(done) in Names(k);
    LiveIsMarked(db, done);
    SceneMarked(k, size, d, cycle, done);
    CycleNext(k, size, d, cycle, done);
  }

  lemma LiveIsMarked(db: Db, r: nat)
    requires Referential(db) && r in db.outbox && db.jobs[db.outbox[r].job] == Accepted(0, 3, None, None)
             && db.outbox[r].generation == 1
    ensures !Needless(db, r) && DispatchRow(db, r) == MarkTx(db, r)
  {
  }

  /** A run of one dispatcher in order and on pace, with calls successful calls, none of them for row x. */
  ghost predicate Passes(s: State, acts: seq<Action>, n: nat, x: nat, due: Time, d: nat, calls: nat) {
    && CanRun(s, acts) && Alone(acts, n) && InOrder(s, acts) && OnPace(s, acts, n, due, d)
    && Commits(acts, n) == calls && !Handles(s, acts, n, x)
  }

  lemma PassStep(s: State, a: Action, mid: State, rest: seq<Action>, n: nat, x: nat, due: Time, d: nat, calls: nat)
    requires Enabled(s, a) && Apply(s, a) == mid && (OfDispatcher(a) ==> a.n == n) && FirstTaken(s, a)
    requires !a.DispatchCommit? && Passes(mid, rest, n, x, due, d, calls)
    ensures Passes(s, [a] + rest, n, x, due, d, calls)
  {
    assert ([a] + rest)[0] == a && ([a] + rest)[1..] == rest;
  }

  lemma PassCommit(s: State, mid: State, rest: seq<Action>, n: nat, x: nat, due: Time, d: nat, calls: nat)
    requires Enabled(s, DispatchCommit(n)) && Apply(s, DispatchCommit(n)) == mid
    requires s.db.now <= due && DispatcherOf(s, n).row != x && Passes(mid, rest, n, x, due + d, d, calls)
    ensures Passes(s, [DispatchCommit(n)] + rest, n, x, due, d, calls + 1)
  {
    var acts := [DispatchCommit(n)] + rest;
    assert acts[0] == DispatchCommit(n) && acts[1..] == rest;
  }

  /** The second half of a call, and what follows it: publish and mark. */
  lemma PassPublish(s: State, k: nat, rest: seq<Action>, n: nat, x: nat, due: Time, d: nat, calls: nat)
      returns (acts: seq<Action>)
    requires Referential(s.db) && k in s.db.outbox && k != x && !Needless(s.db, k) && s.db.now <= due
    requires Passes(DispatchedState(s, n, k), rest, n, x, due + d, d, calls)
    ensures Passes(With(s, n, Chosen(k, false)), acts, n, x, due, d, calls + 1)
  {
    var sent := With(s, n, Sent(k)).(stream := s.stream + {DeliveryOf(s.db.outbox[k])});
    MarkStep(s, n, k);
    assert DispatcherOf(sent, n).row == k;
    PassCommit(sent, DispatchedState(s, n, k), rest, n, x, due, d, calls);
    var marked := [DispatchCommit(n)] + rest;
    PublishStep(s, n, k);
    PassStep(With(s, n, Chosen(k, false)), DispatchPublish(n, false), sent, marked, n, x, due, d, calls + 1);
    acts := [DispatchPublish(n, false)] + marked;
  }

  /** The first half: lock the first eligible row and read its job. */
  lemma PassLock(s: State, k: nat, rest: seq<Action>, n: nat, x: nat, due: Time, d: nat, calls: nat)
      returns (acts: seq<Action>)
    requires Recovery.Quiet(s) && Referential(s.db) && EligibleRows(s.db) != {} && k == Least(EligibleRows(s.db))
    requires !Needless(s.db, k) && Passes(With(s, n, Chosen(k, false)), rest, n, x, due, d, calls)
    ensures Passes(s, acts, n, x, due, d, calls)
  {
    ReadStep(s, n, k);
    PassStep(With(s, n, Locked(k)), DispatchRead(n), With(s, n, Chosen(k, false)), rest, n, x, due, d, calls);
    var read := [DispatchRead(n)] + rest;
    LockStep(s, n);
    assert forall m :: Selectable(s, m) ==> m in EligibleRows(s.db);
    PassStep(s, DispatchLock(n, k), With(s, n, Locked(k)), read, n, x, due, d, calls);
    acts := [DispatchLock(n, k)] + read;
  }

  /** After a call in one scene, time passes until the next. */
  lemma SceneWaits(s: State, n: nat, k: nat, size: nat, d: nat, cycle: int, done: nat)
    requires InCycle(k, size, d, cycle, done) && Recovery.Quiet(s) && s.db == Scene(k, size, d, cycle, done)
    ensures Referential(s.db) && done in s.db.outbox && Enabled(DispatchedState(s, n, done), Advance(d))
    ensures var u := Apply(DispatchedState(s, n, done), Advance(d));
            Recovery.Quiet(u) && u.db == NextScene(k, size, d, cycle, done) && u.db.now == s.db.now + d
  {
    SceneMoves(k, size, d, cycle, done);
    CycleNext(k, size, d, cycle, done);
  }

  /** The next call takes row `row`, which is needed and is not x. */
  ghost predicate NextCall(s: State, row: nat, x: nat) {
    && Recovery.Quiet(s) && Referential(s.db) && EligibleRows(s.db) != {} && row == Least(EligibleRows(s.db))
    && row != x && !Needless(s.db, row)
  }

  /** The state after a whole call for the row and a pause. */
  ghost predicate Pauses(s: State, n: nat, row: nat, d: nat, u: State) {
    Referential(s.db) && row in s.db.outbox && u == Apply(DispatchedState(s, n, row), Advance(d))
  }

  lemma PassPause(s: State, k: nat, u: State, rest: seq<Action>, n: nat, x: nat, due: Time, d: nat, calls: nat)
      returns (acts: seq<Action>)
    requires Pauses(s, n, k, d, u) && Passes(u, rest, n, x, due, d, calls)
    ensures Passes(DispatchedState(s, n, k), acts, n, x, due, d, calls)
  {
    PassStep(DispatchedState(s, n, k), Advance(d), u, rest, n, x, due, d, calls);
    acts := [Advance(d)] + rest;
  }

  /** One call: it takes row k, is followed by a pause, and leads to the state u. */
  ghost predicate Link(s: State, k: nat, u: State, n: nat, x: nat, d: nat) {
    NextCall(s, k, x) && Pauses(s, n, k, d, u) && u.db.now == s.db.now + d
  }

  lemma PassCall(s: State, k: nat, u: State, rest: seq<Action>, n: nat, x: nat, d: nat, calls: nat)
      returns (acts: seq<Action>)
    requires Link(s, k, u, n, x, d) && Passes(u, rest, n, x, u.db.now, d, calls)
    ensures Passes(s, acts, n, x, s.db.now, d, calls + 1)
  {
    acts := PassPause(s, k, u, rest, n, x, u.db.now, d, calls);
    acts := PassPublish(s, k, acts, n, x, s.db.now, d, calls);
    acts := PassLock(s, k, acts, n, x, s.db.now, d, calls + 1);
  }

  /** Successive calls. */
  ghost predicate Chain(us: seq<State>, rows: seq<nat>, n: nat, x: nat, d: nat) {
    |us| == |rows| + 1 && forall i :: 0 <= i < |rows| ==> Link(us[i], rows[i], us[i + 1], n, x, d)
  }

  lemma ChainRest(us: seq<State>, rows: seq<nat>, n: nat, x: nat, d: nat)
    requires Chain(us, rows, n, x, d) && rows != []
    ensures Link(us[0], rows[0], us[1], n, x, d) && Chain(us[1..], rows[1..], n, x, d)
  {
    forall i | 0 <= i < |rows[1..]|
      ensures Link(us[1..][i], rows[1..][i], us[1..][i + 1], n, x, d)
    {
      assert Link(us[i + 1], rows[i + 1], us[i + 2], n, x, d);
    }
  }

  lemma ChainMore(s: State, row: nat, us: seq<State>, rows: seq<nat>, n: nat, x: nat, d: nat)
    requires us != [] && Link(s, row, us[0], n, x, d) && Chain(us, rows, n, x, d)
    ensures Chain([s] + us, [row] + rows, n, x, d)
  {
    var vs, qs := [s] + us, [row] + rows;
    forall i | 0 <= i < |qs|
      ensures Link(vs[i], qs[i], vs[i + 1], n, x, d)
    {
      if i > 0 { assert Link(us[i - 1], rows[i - 1], us[i], n, x, d); }
    }
  }

  lemma PassNone(s: State, n: nat, x: nat, due: Time, d: nat)
    ensures Passes(s, [], n, x, due, d, 0)
  {
  }

  lemma {:induction false} ChainPasses(us: seq<State>, rows: seq<nat>, n: nat, x: nat, d: nat)
      returns (acts: seq<Action>)
    requires Chain(us, rows, n, x, d)
    ensures Passes(us[0], acts, n, x, us[0].db.now, d, |rows|)
    decreases |rows|
  {
    if rows == [] {
      PassNone(us[0], n, x, us[0].db.now, d);
      return [];
    }
    ChainRest(us, rows, n, x, d);
    acts := ChainPasses(us[1..], rows[1..], n, x, d);
    acts := PassCall(us[0], rows[0], us[1], acts, n, x, d, |rows| - 1);
  }

  ghost predicate AtScene(s: State, k: nat, size: nat, d: nat, cycle: int, done: nat) {
    InCycle(k, size, d, cycle, done) && Recovery.Quiet(s) && s.db == Scene(k, size, d, cycle, done)
  }

  lemma SceneCall(s: State, n: nat, k: nat, size: nat, d: nat, cycle: int, done: nat)
      returns (u: State, later: int, next: nat)
    requires AtScene(s, k, size, d, cycle, done)
    ensures Link(s, done, u, n, k, d) && AtScene(u, k, size, d, later, next)
  {
    SceneBusy(k, size, d, cycle, done);
    SceneMoves(k, size, d, cycle, done);
    SceneWaits(s, n, k, size, d, cycle, done);
    CycleNext(k, size, d, cycle, done);
    u := Apply(DispatchedState(s, n, done), Advance(d));
    later, next := NextCycle(size, d, cycle, done), NextDone(size, done);
  }

  /** However long one watches, row k waits while the first `size` rows go round. */
  lemma {:induction false} Starves(s: State, n: nat, calls: nat, k: nat, size: nat, d: nat, cycle: int, done: nat)
      returns (us: seq<State>, rows: seq<nat>)
    requires AtScene(s, k, size, d, cycle, done)
    ensures Chain(us, rows, n, k, d) && us[0] == s && |rows| == calls
    decreases calls
  {
    if calls == 0 { return [s], []; }
    var u, later, next := SceneCall(s, n, k, size, d, cycle, done);
    us, rows := Starves(u, n, calls - 1, k, size, d, later, next);
    ChainMore(s, done, us, rows, n, k, d);
    us, rows := [s] + us, [done] + rows;
  }

  /** A run of the system that starts when row x is eligible behind k older ones and no call is in progress, in
      which one dispatcher makes calls successful calls, the first at once and the others at intervals of at most d. */
  ghost predicate Waiting(s: State, acts: seq<Action>, n: nat, x: nat, k: nat, d: nat, calls: nat) {
    && Inv(s) && NoCall(s) && x in EligibleRows(s.db) && |Older(s.db, x)| == k
    && CanRun(s, acts) && Alone(acts, n) && InOrder(s, acts) && OnPace(s, acts, n, s.db.now, d)
    && Commits(acts, n) == calls
  }

  lemma ServedUnderLoad(s: State, acts: seq<Action>, n: nat, x: nat, k: nat, d: nat, calls: nat)
    requires Waiting(s, acts, n, x, k, d, calls) && calls > k && k * d <= REPUBLISH_AFTER
    ensures Handles(s, acts, n, x)
  {
    SubsetSmaller(Ahead(s.db, x, s.db.now), Older(s.db, x));
    Multiples(|Ahead(s.db, x, s.db.now)|, k, d);
    HandledOnPace(s, acts, n, x, s.db.now, s.db.now, d);
  }

  /** A quiet system with the given tables. */
  function QuietSystem(db: Db): State {
    State(db, 1, _ => Sha256([]), map[], map[], {}, {}, History([], [], {}, [], [], map[], map[]))
  }

  lemma StarvedUnderLoad(k: nat, d: nat, calls: nat)
    requires k * d > REPUBLISH_AFTER
    ensures exists s, acts, n, x :: Waiting(s, acts, n, x, k, d, calls) && !Handles(s, acts, n, x)
  {
    var size := REPUBLISH_AFTER / d + 1;
    CycleFits(k, d);
    assert InCycle(k, size, d, 0, 0);
    SceneBusy(k, size, d, 0, 0);
    var s := QuietSystem(Scene(k, size, d, 0, 0));
    var us, rows := Starves(s, 0, calls, k, size, d, 0, 0);
    var acts := ChainPasses(us, rows, 0, k, d);
    assert Inv(s);
    assert Waiting(s, acts, 0, k, k, d, calls);
  }

  /** Dispatching in id order is fair exactly up to a load: with successful calls at intervals of at most d, a row
      behind k older ones is always handled within k + 1 of them if k * d is at most thirty seconds; beyond that
      there are runs of the system, of any length, in which older live rows keep it waiting. */
  lemma FairExactlyUpToALoad(k: nat, d: nat, calls: nat)
    requires calls > k
    ensures k * d <= REPUBLISH_AFTER <==>
            (forall s, acts, n, x :: Waiting(s, acts, n, x, k, d, calls) ==> Handles(s, acts, n, x))
  {
    if k * d <= REPUBLISH_AFTER {
      forall s, acts, n, x | Waiting(s, acts, n, x, k, d, calls)
        ensures Handles(s, acts, n, x)
      {
        ServedUnderLoad(s, acts, n, x, k, d, calls);
      }
    } else {
      StarvedUnderLoad(k, d, calls);
    }
  }

  lemma CycleFits(k: nat, d: nat)
    requires k * d > REPUBLISH_AFTER
    ensures d > 0 && Cyclic(REPUBLISH_AFTER / d + 1, d) && REPUBLISH_AFTER / d + 1 <= k
  {
    if d == 0 { assert false; }
    var q := REPUBLISH_AFTER / d;
    assert q * d <= REPUBLISH_AFTER < (q + 1) * d;
    if k <= q { Multiples(k, q, d); }
  }
}
