/** Healthy leases never lapse. One attempt with its heartbeat, timed: store calls take less than a third of
    the lease, ticks are served when they fall due, and other parties commit whatever they like in between. */
module LeaseTiming {
  import opened Tables
  import opened Transactions
  import opened Durability

  /** Replying: the claim has committed at `at` and its reply is on the way. Sleeping: the heartbeat waits for
      `tick`. Renewing and Finishing: a store call began at `began`; `landed` says its commit has happened. */
  datatype Phase =
    | Replying(at: Time)
    | Sleeping(tick: Time)
    | Renewing(began: Time, landed: bool)
    | Finishing(began: Time)
    | Over

  datatype Timed = Timed(db: Db, lease: int, held: Held, phase: Phase)

  /** The heartbeat interval, time.NewTicker(w.Lease / 3), and the bound on every store round trip. */
  function Third(lease: int): int { lease / 3 }

  datatype Action =
    | Pass(dt: nat)
    | ClaimReplied
    | Ticked
    | RenewLands
    | RenewReplied
    | HandlerDone
    | FinishLands(status: Status, message: string, delay: int)
    | Other(e: Event)

  /** Time may pass as long as no call overruns its round trip and no tick is missed. */
  predicate InTime(x: Phase, lease: int, now: Time) {
    match x
    case Replying(at) => now < at + Third(lease)
    case Sleeping(tick) => now <= tick
    case Renewing(began, _) => now < began + Third(lease)
    case Finishing(began) => now < began + Third(lease)
    case Over => true
  }

  /** What anyone else may commit: claims and finishes of other owners, and any renewal, acceptance, replay
      or dispatch. A late renewal of this owner's own is included. */
  ghost predicate ByOthers(t: Timed, e: Event) {
    && Licensed(t.db, e)
    && !e.Tick?
    && (e.Claim? ==> e.owner != t.held.owner)
    && (e.Finish? ==> e.held.owner != t.held.owner)
  }

  ghost predicate Can(t: Timed, a: Action) {
    match a
    case Pass(dt) => InTime(t.phase, t.lease, t.db.now + dt)
    case ClaimReplied => t.phase.Replying?
    case Ticked => t.phase.Sleeping? && t.db.now == t.phase.tick
    case RenewLands => t.phase.Renewing? && !t.phase.landed
    case RenewReplied => t.phase.Renewing? && t.phase.landed
    case HandlerDone => t.phase.Sleeping?
    case FinishLands(st, _, _) => t.phase.Finishing? && (st == Completed || st == Dead || st == Pending)
    case Other(e) => ByOthers(t, e)
  }

  /** A refused renewal ends the attempt; so does the Finish. */
  ghost function Do(t: Timed, a: Action): Timed
    requires Can(t, a)
  {
    match a
    case Pass(dt) => t.(db := Commit(t.db, t.lease, Tick(dt)))
    case ClaimReplied => t.(phase := Sleeping(t.db.now + Third(t.lease)))
    case Ticked => t.(phase := Renewing(t.db.now, false))
    case RenewLands =>
      var (db', ok) := RenewTx(t.db, t.lease, t.held);
      t.(db := db', phase := if ok then Renewing(t.phase.began, true) else Over)
    case RenewReplied => t.(phase := Sleeping(t.phase.began + Third(t.lease)))
    case HandlerDone => t.(phase := Finishing(t.db.now))
    case FinishLands(st, msg, d) => t.(db := FinishTx(t.db, t.held, st, msg, d).0, phase := Over)
    case Other(e) => t.(db := Commit(t.db, t.lease, e))
  }

  /** The claim has just committed. */
  ghost function Start(db: Db, lease: int, id: JobId, generation: int, w: Owner): Timed
    requires ClaimTx(db, lease, id, generation, w).1.Claimed?
  {
    var (db', reply) := ClaimTx(db, lease, id, generation, w);
    Timed(db', lease, reply.held, Replying(db.now))
  }

  /** The row still shows this attempt, and the lease outlasts the next commit that extends or ends it. */
  ghost predicate Healthy(t: Timed) {
    && DbInv(t.db) && t.lease >= 3
    && InTime(t.phase, t.lease, t.db.now)
    && (t.phase != Over ==>
          && t.held.id in t.db.jobs
          && var j := t.db.jobs[t.held.id];
          && j.status == Processing && j.generation == t.held.generation
          && j.leaseOwner == Some(t.held.owner) && j.attemptCount == t.held.attempt
          && j.leaseUntil.Some? && t.db.now < j.leaseUntil.value <= t.db.now + t.lease
          && match t.phase
             case Replying(at) => j.leaseUntil.value >= at + t.lease
             case Sleeping(tick) => j.leaseUntil.value > tick + Third(t.lease)
             case Renewing(began, landed) =>
               began <= t.db.now
               && if landed then j.leaseUntil.value >= began + t.lease
                  else j.leaseUntil.value > began + Third(t.lease)
             case Finishing(began) => began <= t.db.now && j.leaseUntil.value > began + Third(t.lease)
             case Over => true)
  }

  lemma StartsHealthy(db: Db, lease: int, id: JobId, generation: int, w: Owner)
    requires DbInv(db) && lease >= 3 && Licensed(db, Claim(id, generation, w))
    requires ClaimTx(db, lease, id, generation, w).1.Claimed?
    ensures Healthy(Start(db, lease, id, generation, w))
  {
    ClaimKeeps(db, lease, id, generation, w);
  }

  /** Other parties can at most extend this lease; they cannot touch the attempt. */
  lemma OthersLeave(t: Timed, e: Event)
    requires Healthy(t) && t.phase != Over && ByOthers(t, e)
    ensures var j, jobs' := t.db.jobs[t.held.id], Commit(t.db, t.lease, e).jobs;
            && t.held.id in jobs'
            && Commit(t.db, t.lease, e).now == t.db.now
            && var j' := jobs'[t.held.id];
            && j'.status == Processing && j'.generation == j.generation && j'.attemptCount == j.attemptCount
            && j'.leaseOwner == j.leaseOwner && j'.leaseUntil.Some?
            && j.leaseUntil.value <= j'.leaseUntil.value <= t.db.now + t.lease
  {
    match e
    case Claim(id, g, w) => RivalClaim(t, id, g, w);
    case Finish(h, st, msg, d) => RivalFinish(t, h, st, msg, d);
    case _ =>
  }

  lemma RivalClaim(t: Timed, id: JobId, g: int, w: Owner)
    requires Healthy(t) && t.phase != Over
    ensures var db' := ClaimTx(t.db, t.lease, id, g, w).0;
            db'.now == t.db.now && t.held.id in db'.jobs && db'.jobs[t.held.id] == t.db.jobs[t.held.id]
  {
  }

  lemma RivalFinish(t: Timed, h: Held, st: Status, msg: string, d: int)
    requires Healthy(t) && t.phase != Over && h.owner != t.held.owner
    ensures var db' := FinishTx(t.db, h, st, msg, d).0;
            db'.now == t.db.now && t.held.id in db'.jobs && db'.jobs[t.held.id] == t.db.jobs[t.held.id]
  {
  }

  lemma StaysHealthy(t: Timed, a: Action)
    requires Healthy(t) && Can(t, a)
    ensures Healthy(Do(t, a))
    ensures t.phase != Over && !a.FinishLands? ==> Do(t, a).phase != Over
  {
    match a
    case Pass(dt) => CommitKeeps(t.db, t.lease, Tick(dt));
    case RenewLands => CommitKeeps(t.db, t.lease, Renew(t.held));
    case FinishLands(st, msg, d) => FinishKeeps(t.db, t.held, st, msg, d);
    case Other(e) =>
      CommitKeeps(t.db, t.lease, e);
      if t.phase != Over { OthersLeave(t, e); }
    case _ =>
  }

  ghost predicate CanDo(t: Timed, acts: seq<Action>)
    decreases |acts|
  {
    acts == [] || (Can(t, acts[0]) && CanDo(Do(t, acts[0]), acts[1..]))
  }

  ghost function Then(t: Timed, acts: seq<Action>): Timed
    requires CanDo(t, acts)
    decreases |acts|
  {
    if acts == [] then t else Then(Do(t, acts[0]), acts[1..])
  }

  lemma {:induction false} RunsHealthy(t: Timed, acts: seq<Action>)
    requires Healthy(t) && CanDo(t, acts)
    requires t.phase != Over
    requires forall i :: 0 <= i < |acts| ==> !acts[i].FinishLands?
    ensures Healthy(Then(t, acts)) && Then(t, acts).held == t.held && Then(t, acts).lease == t.lease
    ensures Then(t, acts).phase != Over
    decreases |acts|
  {
    if acts != [] {
      StaysHealthy(t, acts[0]);
      RunsHealthy(Do(t, acts[0]), acts[1..]);
    }
  }

  /** However long the handler runs and whatever others commit: at every moment until its Finish lands, the owner
      owns the job with its claimed attempt, any other claim is answered Busy and changes nothing, a renewal
      succeeds, and the Finish persists the outcome. */
  lemma HealthyLeaseNeverLapses(db: Db, lease: int, id: JobId, generation: int, w: Owner, acts: seq<Action>, v: Owner,
                                st: Status, msg: string, d: int)
    requires DbInv(db) && lease >= 3 && Licensed(db, Claim(id, generation, w))
    requires ClaimTx(db, lease, id, generation, w).1.Claimed?
    requires CanDo(Start(db, lease, id, generation, w), acts)
    requires forall i :: 0 <= i < |acts| ==> !acts[i].FinishLands?
    requires st == Completed || st == Dead || st == Pending
    ensures var t := Then(Start(db, lease, id, generation, w), acts);
            && Owns(t.db, t.held) && t.held == ClaimTx(db, lease, id, generation, w).1.held
            && t.held.id == id && t.db.jobs[id].attemptCount == t.held.attempt
            && ClaimTx(t.db, lease, id, generation, v) == (t.db, Busy)
            && RenewTx(t.db, lease, t.held).1
            && FinishTx(t.db, t.held, st, msg, d).1 == Persisted
  {
    StartsHealthy(db, lease, id, generation, w);
    RunsHealthy(Start(db, lease, id, generation, w), acts);
    NextCallSucceeds(Then(Start(db, lease, id, generation, w), acts), v, st, msg, d);
  }

  /** While an attempt is healthy its own calls succeed and a rival claim is turned away. */
  lemma NextCallSucceeds(t: Timed, v: Owner, st: Status, msg: string, d: int)
    requires Healthy(t) && t.phase != Over
    ensures Owns(t.db, t.held) && t.db.jobs[t.held.id].attemptCount == t.held.attempt
    ensures ClaimTx(t.db, t.lease, t.held.id, t.held.generation, v) == (t.db, Busy)
    ensures RenewTx(t.db, t.lease, t.held).1
    ensures FinishTx(t.db, t.held, st, msg, d).1 == Persisted
  {
    DispatchIdentityFree(t.db, t.held.id);
  }
}
