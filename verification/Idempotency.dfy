/** Keyed acceptance is a map from (client, key) to the first request and its job. */
module Idempotency {
  import opened Tables
  import opened Transactions
  import opened Durability
  import opened CanonicalJson
  import opened Requests
  import opened Protocol
  import opened Safety

  ghost predicate EntryOk(jobs: map<JobId, Job>, hash: Input -> Digest, k: Scope, f: First) {
    && ValidInput(f.input) && ClientId(k.client) && Header(k.key)
    && f.id in jobs
    && jobs[f.id].requestKey == Some(RequestKey(k.client, k.key))
    && jobs[f.id].requestHash == Some(hash(f.input))
  }

  ghost predicate KeyRecorded(ledger: map<Scope, First>, id: JobId, key: Digest) {
    exists k :: k in ledger && ledger[k].id == id && RequestKey(k.client, k.key) == key
  }

  /** The reply that the map gives once the request's scope is in it. */
  ghost predicate Answered(ledger: map<Scope, First>, q: Request, answer: Answer) {
    && Scope(q.client, q.key) in ledger
    && answer == LedgerAnswer(ledger, q, ledger[Scope(q.client, q.key)].id)
  }

  ghost predicate LedgerOk(s: State) {
    && Decides(s.hash)
    && (forall k :: k in s.hist.ledger ==> EntryOk(s.db.jobs, s.hash, k, s.hist.ledger[k]))
    && (forall id :: id in s.db.jobs && s.db.jobs[id].requestKey.Some? ==>
          KeyRecorded(s.hist.ledger, id, s.db.jobs[id].requestKey.value))
    && (forall r :: r in s.hist.replies ==> Answered(s.hist.ledger, r.request, r.answer))
  }

  /** No transaction changes the request identity of an existing job; only acceptance adds jobs. */
  lemma IdentityFixed(db: Db, lease: int, e: Event, id: JobId)
    requires DbInv(db)
    ensures var jobs' := Commit(db, lease, e).jobs;
            && (id in db.jobs ==>
                  id in jobs' && jobs'[id].requestKey == db.jobs[id].requestKey
                  && jobs'[id].requestHash == db.jobs[id].requestHash)
            && (id !in db.jobs && id in jobs' ==>
                  e.Create? && e.id == id && jobs'[id].requestKey == e.key && jobs'[id].requestHash == e.hash)
  {
    match e
    case Claim(x, g, w) => ClaimKeepsIdentity(db, lease, x, g, w);
    case Finish(h, st, msg, d) => FinishKeepsIdentity(db, h, st, msg, d);
    case _ =>
  }

  ghost predicate SameIdentities(jobs: map<JobId, Job>, jobs': map<JobId, Job>) {
    && jobs'.Keys == jobs.Keys
    && forall id :: id in jobs ==>
         jobs'[id].requestKey == jobs[id].requestKey && jobs'[id].requestHash == jobs[id].requestHash
  }

  lemma ClaimKeepsIdentity(db: Db, lease: int, id: JobId, g: int, w: Owner)
    ensures SameIdentities(db.jobs, ClaimTx(db, lease, id, g, w).0.jobs)
  {
  }

  lemma FinishKeepsIdentity(db: Db, h: Held, st: Status, msg: string, d: int)
    ensures SameIdentities(db.jobs, FinishTx(db, h, st, msg, d).0.jobs)
  {
  }

  /** The map of scopes and the unique keys in the table say the same. */
  ghost predicate Agree(db: Db, hash: Input -> Digest, ledger: map<Scope, First>) {
    && (forall k :: k in ledger ==> EntryOk(db.jobs, hash, k, ledger[k]))
    && (forall id :: id in db.jobs && db.jobs[id].requestKey.Some? ==>
          KeyRecorded(ledger, id, db.jobs[id].requestKey.value))
  }

  lemma KnownScope(db: Db, hash: Input -> Digest, ledger: map<Scope, First>, k: Scope)
    requires DbInv(db) && Agree(db, hash, ledger) && k in ledger
    ensures KeyTaken(db.jobs, RequestKey(k.client, k.key))
    ensures KeyHolder(db.jobs, RequestKey(k.client, k.key)) == ledger[k].id
  {
    var key := RequestKey(k.client, k.key);
    assert EntryOk(db.jobs, hash, k, ledger[k]);
    assert db.jobs[ledger[k].id].requestKey == Some(key);
    KeyNames(db, key, ledger[k].id);
  }

  lemma KeyNames(db: Db, key: Digest, id: JobId)
    requires KeysUnique(db.jobs) && id in db.jobs && db.jobs[id].requestKey == Some(key)
    ensures KeyTaken(db.jobs, key) && KeyHolder(db.jobs, key) == id
  {
  }

  lemma NewScope(db: Db, hash: Input -> Digest, ledger: map<Scope, First>, k: Scope)
    requires DbInv(db) && Agree(db, hash, ledger) && k !in ledger && ClientId(k.client) && Header(k.key)
    ensures !KeyTaken(db.jobs, RequestKey(k.client, k.key))
  {
    var key := RequestKey(k.client, k.key);
    if id :| id in db.jobs && db.jobs[id].requestKey == Some(key) {
      var m :| m in ledger && ledger[m].id == id && RequestKey(m.client, m.key) == key;
      assert EntryOk(db.jobs, hash, m, ledger[m]);
      KeysAreScoped(m.client, m.key, k.client, k.key);
    }
  }

  lemma CreateUnkeyed(db: Db, id: JobId, n: int, key: Digest, hash: Digest)
    requires DbInv(db) && id !in db.jobs && !KeyTaken(db.jobs, key)
    ensures var (db', reply) := CreateTx(db, id, n, Some(key), Some(hash));
            && reply == Created(id)
            && db'.jobs == db.jobs[id := Accepted(db.now, n, Some(key), Some(hash))]
            && db'.outbox == db.outbox[db.nextId := Intent(id, 1, 1, db.now, None)]
  {
    DispatchIdentityFree(db, id);
  }

  lemma CreateKeyed(db: Db, id: JobId, n: int, key: Digest, hash: Digest)
    requires KeyTaken(db.jobs, key)
    ensures var (db', reply) := CreateTx(db, id, n, Some(key), Some(hash));
            var first := KeyHolder(db.jobs, key);
            && db' == db
            && reply == if db.jobs[first].requestHash == Some(hash) then Existing(first) else Conflict
  {
  }

  ghost function KeyedCreate(s: State, a: Action): (Db, CreateReply)
    requires a.Accept? && a.key.Some?
  {
    CreateTx(s.db, a.id, a.input.maxRetries, Some(RequestKey(a.client, a.key.value)), Some(s.hash(a.input)))
  }

  lemma AcceptIsCreate(s: State, a: Action)
    requires a.Accept? && Enabled(s, a) && a.key.Some? && ValidKey(a.key.value)
    ensures NextDb(s, a) == KeyedCreate(s, a).0
    ensures AcceptAnswer(s, a) ==
              match KeyedCreate(s, a).1
              case Created(id) => Named(id)
              case Existing(id) => Named(id)
              case Conflict => Conflicting
              case CreateFailed => Unavailable
  {
  }

  /** The reply to a keyed request is the one the simple map gives: the first request of its scope creates the
      job, with one initial intent, and every later one changes nothing. */
  lemma AcceptAgrees(s: State, a: Action)
    requires Inv(s) && LedgerOk(s) && a.Accept? && Enabled(s, a) && a.key.Some? && ValidKey(a.key.value)
    ensures AcceptAnswer(s, a) == LedgerAnswer(s.hist.ledger, Request(a.client, a.key.value, a.input), a.id)
    ensures var db, db' := s.db, NextDb(s, a);
            if Scope(a.client, a.key.value) in s.hist.ledger then db' == db
            else
              && db'.jobs == db.jobs[a.id := Accepted(db.now, a.input.maxRetries,
                                                    Some(RequestKey(a.client, a.key.value)), Some(s.hash(a.input)))]
              && db'.outbox == db.outbox[db.nextId := Intent(a.id, 1, 1, db.now, None)]
  {
    var k, key, hash := Scope(a.client, a.key.value), RequestKey(a.client, a.key.value), s.hash(a.input);
    AcceptIsCreate(s, a);
    assert a.id !in s.db.jobs && ValidInput(a.input) && ClientId(a.client) && Header(a.key.value);
    if k in s.hist.ledger {
      KnownScope(s.db, s.hash, s.hist.ledger, k);
      CreateKeyed(s.db, a.id, a.input.maxRetries, key, hash);
      SameHash(s.db, s.hash, s.hist.ledger, k, a.input);
    } else {
      NewScope(s.db, s.hash, s.hist.ledger, k);
      CreateUnkeyed(s.db, a.id, a.input.maxRetries, key, hash);
    }
  }

  lemma SameHash(db: Db, hash: Input -> Digest, ledger: map<Scope, First>, k: Scope, input: Input)
    requires Decides(hash) && Agree(db, hash, ledger) && k in ledger && ValidInput(input)
    ensures ledger[k].id in db.jobs
    ensures db.jobs[ledger[k].id].requestHash == Some(hash(input)) <==> SameStored(ledger[k].input, input)
  {
    assert EntryOk(db.jobs, hash, k, ledger[k]);
    assert hash(ledger[k].input) == hash(input) <==> SameStored(ledger[k].input, input);
  }

  lemma LedgerChange(s: State, a: Action)
    requires Enabled(s, a)
    ensures !(a.Accept? && a.key.Some? && ValidKey(a.key.value)) ==>
              Observed(s, a).ledger == s.hist.ledger && Observed(s, a).replies == s.hist.replies
    ensures a.Accept? && !(a.key.Some? && ValidKey(a.key.value)) ==> Effect(s, a).Create? ==> Effect(s, a).key.None?
    ensures !a.Accept? ==> !Effect(s, a).Create?
  {
  }

  lemma QuietStep(s: State, a: Action)
    requires Inv(s) && LedgerOk(s) && Enabled(s, a) && !(a.Accept? && a.key.Some? && ValidKey(a.key.value))
    ensures LedgerOk(Apply(s, a))
  {
    var t := Apply(s, a);
    LedgerChange(s, a);
    forall k | k in t.hist.ledger
      ensures EntryOk(t.db.jobs, t.hash, k, t.hist.ledger[k])
    {
      IdentityFixed(s.db, s.lease, Effect(s, a), s.hist.ledger[k].id);
    }
    forall id | id in t.db.jobs && t.db.jobs[id].requestKey.Some?
      ensures KeyRecorded(t.hist.ledger, id, t.db.jobs[id].requestKey.value)
    {
      IdentityFixed(s.db, s.lease, Effect(s, a), id);
    }
  }

  /** Adding a scope with its job keeps the map and the table in agreement. */
  lemma AgreeAfter(db: Db, db': Db, hash: Input -> Digest, ledger: map<Scope, First>, k: Scope, f: First, j: Job)
    requires Agree(db, hash, ledger) && k !in ledger && f.id !in db.jobs
    requires db'.jobs == db.jobs[f.id := j]
    requires EntryOk(db'.jobs, hash, k, f)
    ensures Agree(db', hash, ledger[k := f])
  {
    var ledger' := ledger[k := f];
    KeysRecordedAfter(db, db', ledger, k, f, j);
    forall x | x in ledger'
      ensures EntryOk(db'.jobs, hash, x, ledger'[x])
    {
      if x != k { assert EntryOk(db.jobs, hash, x, ledger[x]); }
    }
  }

  lemma KeysRecordedAfter(db: Db, db': Db, ledger: map<Scope, First>, k: Scope, f: First, j: Job)
    requires forall id :: id in db.jobs && db.jobs[id].requestKey.Some? ==>
               KeyRecorded(ledger, id, db.jobs[id].requestKey.value)
    requires k !in ledger && db'.jobs == db.jobs[f.id := j]
    requires j.requestKey == Some(RequestKey(k.client, k.key))
    ensures forall id :: id in db'.jobs && db'.jobs[id].requestKey.Some? ==>
              KeyRecorded(ledger[k := f], id, db'.jobs[id].requestKey.value)
  {
    var ledger' := ledger[k := f];
    forall id | id in db'.jobs && db'.jobs[id].requestKey.Some?
      ensures KeyRecorded(ledger', id, db'.jobs[id].requestKey.value)
    {
      if id == f.id {
        assert k in ledger' && ledger'[k].id == id;
      } else {
        var m :| m in ledger && ledger[m].id == id && RequestKey(m.client, m.key) == db.jobs[id].requestKey.value;
        assert m in ledger' && ledger'[m].id == id;
      }
    }
  }

  lemma RepliesChange(s: State, a: Action)
    requires Enabled(s, a) && a.Accept? && a.key.Some? && ValidKey(a.key.value)
    ensures var q := Request(a.client, a.key.value, a.input);
            && Observed(s, a).ledger == LedgerAfter(s.hist.ledger, q, a.id)
            && (Observed(s, a).replies == s.hist.replies
                || Observed(s, a).replies == s.hist.replies + [Reply(q, AcceptAnswer(s, a))])
  {
  }

  lemma AnsweredStill(ledger: map<Scope, First>, q: Request, id: JobId, r: Reply)
    requires Answered(ledger, r.request, r.answer)
    ensures Answered(LedgerAfter(ledger, q, id), r.request, r.answer)
  {
  }

  lemma RepliesAnswered(ledger: map<Scope, First>, replies: seq<Reply>, q: Request, id: JobId)
    requires forall r :: r in replies ==> Answered(ledger, r.request, r.answer)
    ensures forall r :: r in replies + [Reply(q, LedgerAnswer(ledger, q, id))] ==>
              Answered(LedgerAfter(ledger, q, id), r.request, r.answer)
  {
    forall r | r in replies
      ensures Answered(LedgerAfter(ledger, q, id), r.request, r.answer)
    {
      AnsweredStill(ledger, q, id, r);
    }
    FirstAnswered(ledger, q, id);
  }

  lemma RepliesStep(s: State, a: Action)
    requires Inv(s) && LedgerOk(s) && Enabled(s, a) && a.Accept? && a.key.Some? && ValidKey(a.key.value)
    ensures forall r :: r in Observed(s, a).replies ==> Answered(Observed(s, a).ledger, r.request, r.answer)
  {
    AcceptAgrees(s, a);
    RepliesChange(s, a);
    RepliesAnswered(s.hist.ledger, s.hist.replies, Request(a.client, a.key.value, a.input), a.id);
  }

  lemma FirstAnswered(ledger: map<Scope, First>, q: Request, id: JobId)
    ensures Answered(LedgerAfter(ledger, q, id), q, LedgerAnswer(ledger, q, id))
  {
  }

  lemma AgreeStep(s: State, a: Action)
    requires Inv(s) && LedgerOk(s) && Enabled(s, a) && a.Accept? && a.key.Some? && ValidKey(a.key.value)
    ensures Agree(NextDb(s, a), s.hash, LedgerAfter(s.hist.ledger, Request(a.client, a.key.value, a.input), a.id))
  {
    var k, f := Scope(a.client, a.key.value), First(a.id, a.input);
    AcceptAgrees(s, a);
    if k !in s.hist.ledger {
      AgreeAfter(s.db, NextDb(s, a), s.hash, s.hist.ledger, k, f, NextDb(s, a).jobs[a.id]);
    }
  }

  lemma KeyedStep(s: State, a: Action)
    requires Inv(s) && LedgerOk(s) && Enabled(s, a) && a.Accept? && a.key.Some? && ValidKey(a.key.value)
    ensures LedgerOk(Apply(s, a))
  {
    AgreeStep(s, a);
    RepliesStep(s, a);
  }

  lemma {:induction false} LedgerOverRuns(s: State, acts: seq<Action>)
    requires Inv(s) && LedgerOk(s) && CanRun(s, acts)
    ensures LedgerOk(After(s, acts))
    decreases |acts|
  {
    if acts != [] {
      StepKeeps(s, acts[0]);
      if acts[0].Accept? && acts[0].key.Some? && ValidKey(acts[0].key.value) {
        KeyedStep(s, acts[0]);
      } else {
        QuietStep(s, acts[0]);
      }
      LedgerOverRuns(Apply(s, acts[0]), acts[1..]);
    }
  }

  /** Over any run, with accepts of all clients, lost replies, replays and workers interleaved: two replies
      to requests of the same client and key never name different jobs, and they disagree, one naming the job
      and the other reporting a conflict, exactly when different things would be stored for them. */
  lemma RepliesConsistent(s: State, acts: seq<Action>, i: nat, k: nat)
    requires Init(s) && CanRun(s, acts)
    requires i < |After(s, acts).hist.replies| && k < |After(s, acts).hist.replies|
    requires var a, b := After(s, acts).hist.replies[i].request, After(s, acts).hist.replies[k].request;
             a.client == b.client && a.key == b.key
    ensures var a, b := After(s, acts).hist.replies[i], After(s, acts).hist.replies[k];
            && (a.answer.Named? || a.answer == Conflicting) && (b.answer.Named? || b.answer == Conflicting)
            && (a.answer.Named? && b.answer.Named? ==> a.answer == b.answer)
            && (a.answer.Named? ==> (b.answer == Conflicting <==> !SameStored(a.request.input, b.request.input)))
  {
    InitInv(s);
    RequestHashIsDecisive(s.hash);
    LedgerOverRuns(s, acts);
    var t := After(s, acts);
    assert t.hist.replies[i] in t.hist.replies && t.hist.replies[k] in t.hist.replies;
  }

  /** Without numbers beyond the range of a double, a conflict is reported exactly when the requests differ. */
  lemma ConflictsAreTrue(s: State, acts: seq<Action>, i: nat, k: nat)
    requires Init(s) && CanRun(s, acts)
    requires i < |After(s, acts).hist.replies| && k < |After(s, acts).hist.replies|
    requires var a, b := After(s, acts).hist.replies[i].request, After(s, acts).hist.replies[k].request;
             a.client == b.client && a.key == b.key && Finite(a.input.payload) && Finite(b.input.payload)
    ensures var a, b := After(s, acts).hist.replies[i], After(s, acts).hist.replies[k];
            a.answer.Named? ==> (b.answer == Conflicting <==> !SameRequest(a.request.input, b.request.input))
  {
    RepliesConsistent(s, acts, i, k);
    var a, b := After(s, acts).hist.replies[i], After(s, acts).hist.replies[k];
    FiniteRequests(a.request.input, b.request.input);
  }

  /** With one, a different request can be answered with the first request's job: whatever the first request
      was, if it had an infinity, a second request with the stored payload is a different one, finds no conflict,
      and stores nothing. */
  lemma InfinityGoesUnnoticed(s: State, a: Action)
    requires Inv(s) && LedgerOk(s) && a.Accept? && Enabled(s, a) && a.key.Some? && ValidKey(a.key.value)
    ensures var scope := Scope(a.client, a.key.value);
            scope in s.hist.ledger ==>
              var first := s.hist.ledger[scope];
              !Finite(first.input.payload) && a.input == StoredInput(first.input) ==>
                !SameRequest(first.input, a.input) && AcceptAnswer(s, a) == Named(first.id) && NextDb(s, a) == s.db
  {
    var scope := Scope(a.client, a.key.value);
    AcceptAgrees(s, a);
    if scope in s.hist.ledger {
      var first := s.hist.ledger[scope];
      assert EntryOk(s.db.jobs, s.hash, scope, first);
      if !Finite(first.input.payload) && a.input == StoredInput(first.input) {
        StoredCollides(first.input);
        RequestHashDecides(first.input, a.input);
      }
    }
  }

  /** Over any run, a job and the (client, key) that names it determine each other. */
  lemma LedgerIsInjective(s: State, acts: seq<Action>, k: Scope, m: Scope)
    requires Init(s) && CanRun(s, acts)
    ensures var ledger := After(s, acts).hist.ledger;
            k in ledger && m in ledger && ledger[k].id == ledger[m].id ==> k == m
  {
    InitInv(s);
    RequestHashIsDecisive(s.hash);
    LedgerOverRuns(s, acts);
    var t := After(s, acts);
    if k in t.hist.ledger && m in t.hist.ledger && t.hist.ledger[k].id == t.hist.ledger[m].id {
      assert EntryOk(t.db.jobs, t.hash, k, t.hist.ledger[k]) && EntryOk(t.db.jobs, t.hash, m, t.hist.ledger[m]);
      KeysAreScoped(k.client, k.key, m.client, m.key);
    }
  }
}
