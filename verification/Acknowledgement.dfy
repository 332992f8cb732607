/** A delivery is acknowledged only for a reason that the tables bear out, then and ever after. */
module Acknowledgement {
  import opened Tables
  import opened Transactions
  import opened Durability
  import opened Protocol
  import opened Safety
  import opened Guarantees

  /** The delivery d needs no further handling, by its generation or because its attempt is spent: the tables
      themselves carry what remains to be done. */
  ghost predicate Justified(db: Db, d: Delivery, why: Why) {
    && d.job in db.jobs
    && var j := db.jobs[d.job];
    match why
    case Refused(Missing) => false
    case Refused(Superseded) => j.generation > d.generation
    case Refused(NotDue) => j.generation > d.generation || (j.generation == d.generation && d.intent <= j.attemptCount)
    case Refused(_) => j.generation > d.generation || (j.generation == d.generation && Settled(j.status))
    case Concluded(entry, attempt, status) =>
      && entry < |db.audit|
      && db.audit[entry].job == d.job && db.audit[entry].from == Some(Processing) && db.audit[entry].to == status
      && (j.generation > d.generation
          || (j.generation == d.generation
              && (j.attemptCount > attempt || (j.attemptCount == attempt && j.status != Processing))))
  }

  ghost predicate AcksOk(s: State) {
    && (forall w :: w in s.workers && s.workers[w].Acking? ==> Justified(s.db, s.workers[w].d, s.workers[w].why))
    && (forall k :: k in s.hist.acks ==> Justified(s.db, k.d, k.why))
  }

  lemma JustifiedStable(db: Db, db': Db, d: Delivery, why: Why)
    requires Progressed(db, db') && Justified(db, d, why)
    ensures Justified(db', d, why)
  {
    assert Progress(db.jobs[d.job], db'.jobs[d.job]);
  }

  /** When ProcessJob returns nil because Claim gave it no job, the refusal is justified. */
  lemma RefusalJustified(s: State, w: Owner)
    requires Inv(s) && WorkerOf(s, w).Called? && ClaimAnswer(s, w).Nothing?
    ensures var d := WorkerOf(s, w).d;
            Justified(Commit(s.db, s.lease, Claim(d.job, d.generation, w)), d, Refused(ClaimAnswer(s, w).grounds))
  {
    assert WorkerOk(s.db, w, s.workers[w]);
    if ClaimAnswer(s, w) == Nothing(NotDue) { EarlyAcknowledgementIsSafe(s, w); }
  }

  /** When ProcessJob returns nil after a Finish, the outcome is in the log and the attempt is over. */
  lemma ConclusionJustified(s: State, w: Owner, lost: bool)
    requires Inv(s) && Enabled(s, FinishCommit(w, lost)) && NextWorker(s, FinishCommit(w, lost), w).Acking?
    ensures Justified(NextDb(s, FinishCommit(w, lost)), WorkerOf(s, w).d, NextWorker(s, FinishCommit(w, lost), w).why)
  {
    FinishPersistsNewestClaim(s, w, lost);
    assert WorkerOk(s.db, w, s.workers[w]);
  }

  /** Only a claim without a job and a persisted Finish lead a worker to acknowledge. */
  lemma AckingBefore(s: State, a: Action, w: Owner)
    requires Enabled(s, a) && w in Workers(s, a) && Workers(s, a)[w].Acking?
    ensures (w in s.workers && Workers(s, a)[w] == s.workers[w])
            || (a.ClaimCommit? && a.w == w && ClaimAnswer(s, w).Nothing?
                && Workers(s, a)[w] == Acking(WorkerOf(s, w).d, Refused(ClaimAnswer(s, w).grounds)))
            || (a.FinishCommit? && a.w == w && Workers(s, a)[w] == NextWorker(s, a, w)
                && Workers(s, a)[w].d == WorkerOf(s, w).d)
  {
  }

  lemma AcksChange(s: State, a: Action)
    requires Enabled(s, a)
    ensures Observed(s, a).acks == s.hist.acks
            || (a.Acknowledge? && Observed(s, a).acks == s.hist.acks + [Ack(WorkerOf(s, a.w).d, WorkerOf(s, a.w).why)])
  {
  }

  lemma AcksStep(s: State, a: Action)
    requires Inv(s) && AcksOk(s) && Enabled(s, a)
    ensures AcksOk(Apply(s, a))
  {
    var t := Apply(s, a);
    EffectLicensed(s, a);
    CommitProgresses(s.db, s.lease, Effect(s, a));
    AcksChange(s, a);
    forall w | w in t.workers && t.workers[w].Acking?
      ensures Justified(t.db, t.workers[w].d, t.workers[w].why)
    {
      AckingBefore(s, a, w);
      if w in s.workers && t.workers[w] == s.workers[w] {
        JustifiedStable(s.db, NextDb(s, a), s.workers[w].d, s.workers[w].why);
      } else if a.ClaimCommit? {
        RefusalJustified(s, w);
      } else {
        ConclusionJustified(s, w, a.replyLost);
      }
    }
    forall k | k in t.hist.acks
      ensures Justified(t.db, k.d, k.why)
    {
      assert Justified(s.db, k.d, k.why);
      JustifiedStable(s.db, NextDb(s, a), k.d, k.why);
    }
  }

  lemma {:induction false} AcksOverRuns(s: State, acts: seq<Action>)
    requires Inv(s) && AcksOk(s) && CanRun(s, acts)
    ensures AcksOk(After(s, acts))
    decreases |acts|
  {
    if acts != [] {
      StepKeeps(s, acts[0]);
      AcksStep(s, acts[0]);
      AcksOverRuns(Apply(s, acts[0]), acts[1..]);
    }
  }

  /** In every run, whatever crashes, panics, deadlines, failed heartbeats and lost replies occur, every
      acknowledgement was justified and still is; and if its job is live then an intent will deliver it again. */
  lemma AcknowledgedOnlyWhenDurable(s: State, acts: seq<Action>, k: nat)
    requires Init(s) && CanRun(s, acts) && k < |After(s, acts).hist.acks|
    ensures var t := After(s, acts); var ack := t.hist.acks[k];
            && Justified(t.db, ack.d, ack.why)
            && (Live(t.db.jobs[ack.d.job].status) ==> exists m ::
                  m in t.db.outbox && t.db.outbox[m].job == ack.d.job
                  && t.db.outbox[m].generation == t.db.jobs[ack.d.job].generation)
  {
    InitInv(s);
    AcksOverRuns(s, acts);
    var t := After(s, acts);
    assert t.hist.acks[k] in t.hist.acks;
    NoWorkIsLost(s, acts, t.hist.acks[k].d.job);
  }
}
