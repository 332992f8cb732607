/** Healthy leases in runs of the system. Where the steps of one consumer meet the timing bounds, a run of the
    system is a run of the timed attempt; so its lease never lapses, whatever all the others do. */
module TimedRuns {
  import opened Tables
  import opened Transactions
  import opened Protocol
  import opened Safety
  import LeaseTiming

  /** A step of the system; `replied` says that the reply to the worker's claim arrives just before it. */
  datatype Step = Step(action: Action, replied: bool)

  function Actions(steps: seq<Step>): seq<Action> {
    if steps == [] then [] else [steps[0].action] + Actions(steps[1..])
  }

  /** When the next tick is due, or when the store call in progress began. */
  function PhaseBefore(phase: LeaseTiming.Phase, lease: int, now: Time, replied: bool): LeaseTiming.Phase {
    if replied then LeaseTiming.Sleeping(now + LeaseTiming.Third(lease)) else phase
  }

  function PhaseAfter(phase: LeaseTiming.Phase, lease: int, now: Time, w: Owner, a: Action): LeaseTiming.Phase {
    if a == BeatTick(w) then LeaseTiming.Renewing(now, false)
    else if a == BeatCommit(w, false) && phase.Renewing? then
      LeaseTiming.Sleeping(phase.began + LeaseTiming.Third(lease))
    else if a == BeatQuit(w) then LeaseTiming.Finishing(now)
    else phase
  }

  /** The end of the attempt, or a failure of its worker: a store call that fails, the caller's deadline, a
      panic, a crash. */
  predicate Ends(w: Owner, a: Action) {
    || a.Disaster?
    || (a.BeatCommit? && a.w == w && a.replyLost)
    || ((a.BeatFail? || a.Expire? || a.HandlerPanic? || a.Crash? || a.FinishCommit? || a.FinishFail?) && a.w == w)
  }

  /** Every store call takes less than a third of the lease, ticks are served when they fall due, and the handler
      starts after the claim's reply. Nothing is asked of the other parties. */
  ghost predicate InBounds(s: State, w: Owner, phase: LeaseTiming.Phase, a: Action) {
    && Enabled(s, a) && !Ends(w, a)
    && (a.Advance? ==> LeaseTiming.InTime(phase, s.lease, s.db.now + a.dt))
    && (a == BeatTick(w) ==> phase.Sleeping? && s.db.now == phase.tick)
    && (a.HandlerEnd? && a.w == w ==> !phase.Replying?)
  }

  ghost predicate Timely(s: State, w: Owner, phase: LeaseTiming.Phase, steps: seq<Step>)
    decreases |steps|
  {
    steps == []
    || (var a := steps[0].action; var before := PhaseBefore(phase, s.lease, s.db.now, steps[0].replied);
        && (steps[0].replied ==> phase.Replying?)
        && InBounds(s, w, before, a)
        && Timely(Apply(s, a), w, PhaseAfter(before, s.lease, s.db.now, w, a), steps[1..]))
  }

  /** The consumer's state is where the timed attempt says it is. */
  ghost predicate At(x: Worker, phase: LeaseTiming.Phase) {
    match phase
    case Replying(_) => x.Attempting? && x.beat == Sleeping && x.handler == Running && !x.expired
    case Sleeping(_) => x.Attempting? && x.beat == Sleeping && !x.expired
    case Renewing(_, landed) => x.Attempting? && x.beat == Renewing && !x.expired && !landed
    case Finishing(_) => x.Finishing? || (x.Attempting? && x.beat == Stopped(false) && x.handler.Ended? && !x.expired)
    case Over => false
  }

  ghost predicate Matches(s: State, w: Owner, t: LeaseTiming.Timed) {
    && t.db == s.db && t.lease == s.lease
    && Holds(WorkerOf(s, w)) && WorkerOf(s, w).held == t.held
    && At(WorkerOf(s, w), t.phase)
  }

  /** What a step of the system is in the timed attempt. */
  ghost function Project(s: State, w: Owner, a: Action): seq<LeaseTiming.Action>
    requires Enabled(s, a)
  {
    if a.Advance? then [LeaseTiming.Pass(a.dt)]
    else if a == BeatTick(w) then [LeaseTiming.Ticked]
    else if a == BeatCommit(w, false) then [LeaseTiming.RenewLands, LeaseTiming.RenewReplied]
    else if a == BeatQuit(w) then [LeaseTiming.HandlerDone]
    else [LeaseTiming.Other(Effect(s, a))]
  }

  /** A step that is not the worker's own call. */
  predicate Aside(w: Owner, a: Action) {
    !a.Advance? && a != BeatTick(w) && a != BeatCommit(w, false) && a != BeatQuit(w)
  }

  lemma OthersEvent(s: State, w: Owner, t: LeaseTiming.Timed, a: Action)
    requires Inv(s) && Matches(s, w, t) && Enabled(s, a) && !Ends(w, a) && Aside(w, a)
    ensures LeaseTiming.ByOthers(t, Effect(s, a))
  {
    EffectLicensed(s, a);
    assert WorkerOk(s.db, w, s.workers[w]);
    if a.FinishCommit? { assert WorkerOk(s.db, a.w, s.workers[a.w]); }
  }

  lemma StaysAt(s: State, w: Owner, phase: LeaseTiming.Phase, a: Action)
    requires Holds(WorkerOf(s, w)) && At(WorkerOf(s, w), phase)
    requires Enabled(s, a) && !Ends(w, a) && (Aside(w, a) || a.Advance?)
    requires a.HandlerEnd? && a.w == w ==> !phase.Replying?
    ensures var x := WorkerOf(Apply(s, a), w); Holds(x) && x.held == WorkerOf(s, w).held && At(x, phase)
  {
  }

  lemma OneDone(t: LeaseTiming.Timed, x: LeaseTiming.Action)
    requires LeaseTiming.Can(t, x)
    ensures LeaseTiming.CanDo(t, [x]) && LeaseTiming.Then(t, [x]) == LeaseTiming.Do(t, x)
  {
    assert [x][1..] == [];
  }

  lemma TwoDone(t: LeaseTiming.Timed, x: LeaseTiming.Action, y: LeaseTiming.Action)
    requires LeaseTiming.Can(t, x) && LeaseTiming.Can(LeaseTiming.Do(t, x), y)
    ensures LeaseTiming.CanDo(t, [x, y]) && LeaseTiming.Then(t, [x, y]) == LeaseTiming.Do(LeaseTiming.Do(t, x), y)
  {
    assert [x, y][1..] == [y];
    OneDone(LeaseTiming.Do(t, x), y);
  }

  ghost predicate Arrives(s: State, w: Owner, t: LeaseTiming.Timed, a: Action)
    requires Enabled(s, a)
  {
    && LeaseTiming.CanDo(t, Project(s, w, a))
    && var t' := LeaseTiming.Then(t, Project(s, w, a));
    Matches(Apply(s, a), w, t') && t'.phase == PhaseAfter(t.phase, s.lease, s.db.now, w, a)
  }

  lemma TickArrives(s: State, w: Owner, t: LeaseTiming.Timed)
    requires Matches(s, w, t) && InBounds(s, w, t.phase, BeatTick(w))
    ensures Arrives(s, w, t, BeatTick(w))
  {
    OneDone(t, LeaseTiming.Ticked);
  }

  lemma RenewArrives(s: State, w: Owner, t: LeaseTiming.Timed)
    requires LeaseTiming.Healthy(t) && Matches(s, w, t) && InBounds(s, w, t.phase, BeatCommit(w, false))
    ensures Arrives(s, w, t, BeatCommit(w, false))
  {
    assert Owns(s.db, t.held);
    TwoDone(t, LeaseTiming.RenewLands, LeaseTiming.RenewReplied);
  }

  lemma QuitArrives(s: State, w: Owner, t: LeaseTiming.Timed)
    requires Matches(s, w, t) && InBounds(s, w, t.phase, BeatQuit(w))
    ensures Arrives(s, w, t, BeatQuit(w))
  {
    OneDone(t, LeaseTiming.HandlerDone);
  }

  lemma PassArrives(s: State, w: Owner, t: LeaseTiming.Timed, dt: nat)
    requires Matches(s, w, t) && InBounds(s, w, t.phase, Advance(dt))
    ensures Arrives(s, w, t, Advance(dt))
  {
    OneDone(t, LeaseTiming.Pass(dt));
  }

  lemma KeepsPhase(phase: LeaseTiming.Phase, lease: int, now: Time, w: Owner, a: Action)
    requires Aside(w, a)
    ensures PhaseAfter(phase, lease, now, w, a) == phase
  {
  }

  lemma AsideArrives(s: State, w: Owner, t: LeaseTiming.Timed, a: Action)
    requires Inv(s) && Matches(s, w, t) && InBounds(s, w, t.phase, a) && Aside(w, a)
    ensures Arrives(s, w, t, a)
  {
    OthersEvent(s, w, t, a);
    StaysAt(s, w, t.phase, a);
    var other := LeaseTiming.Other(Effect(s, a));
    OneDone(t, other);
    KeepsPhase(t.phase, s.lease, s.db.now, w, a);
    assert Project(s, w, a) == [other];
    assert LeaseTiming.Do(t, other).db == NextDb(s, a);
  }

  /** Each step of the system is one or two steps of the timed attempt. */
  lemma StepProjects(s: State, w: Owner, t: LeaseTiming.Timed, a: Action)
    requires Inv(s) && LeaseTiming.Healthy(t) && Matches(s, w, t) && InBounds(s, w, t.phase, a)
    ensures Arrives(s, w, t, a)
  {
    if a == BeatTick(w) {
      TickArrives(s, w, t);
    } else if a == BeatCommit(w, false) {
      RenewArrives(s, w, t);
    } else if a == BeatQuit(w) {
      QuitArrives(s, w, t);
    } else if a.Advance? {
      PassArrives(s, w, t, a.dt);
    } else {
      AsideArrives(s, w, t, a);
    }
  }

  /** Timed runs that do not finish the attempt, joined. */
  ghost predicate Reaches(t: LeaseTiming.Timed, acts: seq<LeaseTiming.Action>, u: LeaseTiming.Timed) {
    LeaseTiming.CanDo(t, acts) && LeaseTiming.Then(t, acts) == u
    && forall i :: 0 <= i < |acts| ==> !acts[i].FinishLands?
  }

  lemma {:induction false} ReachesAppend(t: LeaseTiming.Timed, a: seq<LeaseTiming.Action>, u: LeaseTiming.Timed,
                                         b: seq<LeaseTiming.Action>, v: LeaseTiming.Timed)
    requires Reaches(t, a, u) && Reaches(u, b, v)
    ensures Reaches(t, a + b, v)
    decreases |a|
  {
    if a == [] {
      assert a + b == b;
    } else {
      var mid := LeaseTiming.Do(t, a[0]);
      assert Reaches(mid, a[1..], u);
      ReachesAppend(mid, a[1..], u, b, v);
      assert (a + b)[0] == a[0] && (a + b)[1..] == a[1..] + b;
    }
  }

  /** The reply to the claim arrives. */
  lemma RepliedProjects(s: State, w: Owner, t: LeaseTiming.Timed)
    requires LeaseTiming.Healthy(t) && Matches(s, w, t) && t.phase.Replying?
    ensures var u := LeaseTiming.Do(t, LeaseTiming.ClaimReplied);
            Reaches(t, [LeaseTiming.ClaimReplied], u) && Matches(s, w, u) && LeaseTiming.Healthy(u)
            && u.phase == PhaseBefore(t.phase, s.lease, s.db.now, true)
  {
    OneDone(t, LeaseTiming.ClaimReplied);
    LeaseTiming.StaysHealthy(t, LeaseTiming.ClaimReplied);
  }

  lemma RunsLead(t: LeaseTiming.Timed, acts: seq<LeaseTiming.Action>, u: LeaseTiming.Timed)
    requires LeaseTiming.Healthy(t) && t.phase != LeaseTiming.Over && Reaches(t, acts, u)
    ensures LeaseTiming.Healthy(u)
  {
    LeaseTiming.RunsHealthy(t, acts);
  }

  lemma NeverFinishes(s: State, w: Owner, a: Action)
    requires Enabled(s, a)
    ensures forall i :: 0 <= i < |Project(s, w, a)| ==> !Project(s, w, a)[i].FinishLands?
  {
  }

  lemma StepReaches(s: State, w: Owner, t: LeaseTiming.Timed, a: Action)
      returns (acts: seq<LeaseTiming.Action>, u: LeaseTiming.Timed)
    requires Inv(s) && LeaseTiming.Healthy(t) && Matches(s, w, t) && InBounds(s, w, t.phase, a)
    ensures Reaches(t, acts, u) && Matches(Apply(s, a), w, u)
    ensures u.phase == PhaseAfter(t.phase, s.lease, s.db.now, w, a)
  {
    StepProjects(s, w, t, a);
    NeverFinishes(s, w, a);
    acts := Project(s, w, a);
    u := LeaseTiming.Then(t, acts);
  }

  lemma ReplyProjects(s: State, w: Owner, t: LeaseTiming.Timed, replied: bool)
      returns (acts: seq<LeaseTiming.Action>, u: LeaseTiming.Timed)
    requires LeaseTiming.Healthy(t) && Matches(s, w, t) && (replied ==> t.phase.Replying?)
    ensures Reaches(t, acts, u) && LeaseTiming.Healthy(u) && Matches(s, w, u)
    ensures u.phase == PhaseBefore(t.phase, s.lease, s.db.now, replied)
  {
    acts, u := [], t;
    if replied {
      RepliedProjects(s, w, t);
      acts, u := [LeaseTiming.ClaimReplied], LeaseTiming.Do(t, LeaseTiming.ClaimReplied);
    }
  }

  /** One step of the run, with the reply that may come before it. */
  lemma FirstProjects(s: State, w: Owner, t: LeaseTiming.Timed, step: Step)
      returns (acts: seq<LeaseTiming.Action>, u: LeaseTiming.Timed)
    requires Inv(s) && LeaseTiming.Healthy(t) && Matches(s, w, t) && (step.replied ==> t.phase.Replying?)
    requires InBounds(s, w, PhaseBefore(t.phase, s.lease, s.db.now, step.replied), step.action)
    ensures Reaches(t, acts, u) && LeaseTiming.Healthy(u) && Matches(Apply(s, step.action), w, u)
    ensures u.phase ==
              PhaseAfter(PhaseBefore(t.phase, s.lease, s.db.now, step.replied), s.lease, s.db.now, w, step.action)
  {
    var first, before := ReplyProjects(s, w, t, step.replied);
    var steps;
    steps, u := StepReaches(s, w, before, step.action);
    RunsLead(before, steps, u);
    ReachesAppend(t, first, before, steps, u);
    acts := first + steps;
  }

  /** A run of the system in which one consumer's steps meet the bounds is a run of the timed attempt. */
  lemma {:induction false} RunProjects(s: State, w: Owner, t: LeaseTiming.Timed, steps: seq<Step>)
      returns (acts: seq<LeaseTiming.Action>, u: LeaseTiming.Timed)
    requires Inv(s) && LeaseTiming.Healthy(t) && Matches(s, w, t) && Timely(s, w, t.phase, steps)
    ensures CanRun(s, Actions(steps)) && Reaches(t, acts, u) && Matches(After(s, Actions(steps)), w, u)
    decreases |steps|
  {
    if steps == [] { return [], t; }
    var first, mid := FirstProjects(s, w, t, steps[0]);
    StepKeeps(s, steps[0].action);
    var rest;
    rest, u := RunProjects(Apply(s, steps[0].action), w, mid, steps[1..]);
    ReachesAppend(t, first, mid, rest, u);
    acts := first + rest;
    assert Actions(steps)[0] == steps[0].action && Actions(steps)[1..] == Actions(steps[1..]);
  }

  lemma SameHeld(s: State, w: Owner, t: LeaseTiming.Timed, acts: seq<LeaseTiming.Action>, u: LeaseTiming.Timed)
    requires LeaseTiming.Healthy(t) && t.phase != LeaseTiming.Over && Reaches(t, acts, u)
    ensures u.held == t.held && u.lease == t.lease
  {
    LeaseTiming.RunsHealthy(t, acts);
  }

  lemma LastStep(s: State, w: Owner, t: LeaseTiming.Timed, v: Owner)
    requires Inv(s) && LeaseTiming.Healthy(t) && Matches(s, w, t)
    ensures var h := t.held;
            && Owns(s.db, h) && s.db.jobs[h.id].attemptCount == h.attempt
            && ClaimTx(s.db, s.lease, h.id, h.generation, v) == (s.db, Busy)
            && (WorkerOf(s, w).Finishing? ==> FinishAnswer(s, w) == Persisted)
  {
    assert WorkerOk(s.db, w, s.workers[w]);
    if WorkerOf(s, w).Finishing? {
      var o := WorkerOf(s, w).outcome;
      LeaseTiming.NextCallSucceeds(t, v, o.status, o.message, Micros(o.delay));
    } else {
      LeaseTiming.NextCallSucceeds(t, v, Completed, "", 0);
    }
  }

  /** The timed attempt that a claim starts. */
  ghost function StartOf(s: State, w: Owner): LeaseTiming.Timed
    requires WorkerOf(s, w).Called? && ClaimAnswer(s, w).Claimed?
  {
    LeaseTiming.Start(s.db, s.lease, WorkerOf(s, w).d.job, WorkerOf(s, w).d.generation, w)
  }

  lemma ClaimMatches(s: State, w: Owner)
    requires WorkerOf(s, w).Called? && ClaimAnswer(s, w).Claimed?
    ensures Matches(Apply(s, ClaimCommit(w, false)), w, StartOf(s, w))
  {
  }

  lemma ClaimStarts(s: State, w: Owner)
    requires Inv(s) && s.lease >= 3 && WorkerOf(s, w).Called? && ClaimAnswer(s, w).Claimed?
    ensures LeaseTiming.Healthy(StartOf(s, w)) && Inv(Apply(s, ClaimCommit(w, false)))
    ensures StartOf(s, w).held == ClaimAnswer(s, w).held && StartOf(s, w).phase == LeaseTiming.Replying(s.db.now)
  {
    EffectLicensed(s, ClaimCommit(w, false));
    StepKeeps(s, ClaimCommit(w, false));
    LeaseTiming.StartsHealthy(s.db, s.lease, WorkerOf(s, w).d.job, WorkerOf(s, w).d.generation, w);
  }

  lemma AttemptOwns(s: State, w: Owner, t: LeaseTiming.Timed, steps: seq<Step>, v: Owner)
    requires Inv(s) && LeaseTiming.Healthy(t) && Matches(s, w, t) && Timely(s, w, t.phase, steps)
    ensures CanRun(s, Actions(steps))
    ensures var r, h := After(s, Actions(steps)), t.held;
            && Holds(WorkerOf(r, w)) && WorkerOf(r, w).held == h
            && Owns(r.db, h) && r.db.jobs[h.id].attemptCount == h.attempt
            && ClaimTx(r.db, r.lease, h.id, h.generation, v) == (r.db, Busy)
            && (WorkerOf(r, w).Finishing? ==> FinishAnswer(r, w) == Persisted)
  {
    var acts, u := RunProjects(s, w, t, steps);
    RunsLead(t, acts, u);
    RunKeeps(s, Actions(steps));
    SameHeld(s, w, t, acts, u);
    LastStep(After(s, Actions(steps)), w, u, v);
  }

  /** So in the system, with any other consumers, dispatchers, replays and losses at work: as long as the calls of
      a worker that has claimed a job are in time, it owns the job with the attempt it claimed, every other
      claim is answered Busy and changes nothing, and when it calls Finish the outcome is persisted. */
  lemma HealthyLeaseInTheSystem(s: State, w: Owner, steps: seq<Step>, v: Owner)
    requires Inv(s) && s.lease >= 3 && WorkerOf(s, w).Called? && ClaimAnswer(s, w).Claimed?
    requires Timely(Apply(s, ClaimCommit(w, false)), w, LeaseTiming.Replying(s.db.now), steps)
    ensures CanRun(Apply(s, ClaimCommit(w, false)), Actions(steps))
    ensures var t := After(Apply(s, ClaimCommit(w, false)), Actions(steps)); var h := ClaimAnswer(s, w).held;
            && Holds(WorkerOf(t, w)) && WorkerOf(t, w).held == h
            && Owns(t.db, h) && t.db.jobs[h.id].attemptCount == h.attempt
            && ClaimTx(t.db, t.lease, h.id, h.generation, v) == (t.db, Busy)
            && (WorkerOf(t, w).Finishing? ==> FinishAnswer(t, w) == Persisted)
  {
    var claimed := Apply(s, ClaimCommit(w, false));
    ClaimStarts(s, w);
    ClaimMatches(s, w);
    AttemptOwns(claimed, w, StartOf(s, w), steps, v);
  }
}
