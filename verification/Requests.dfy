/** Acceptance identity: the request key, the request hash, and what their equality means. */
module Requests {
  import opened Tables
  import opened Utf8
  import opened CanonicalJson
  import CanonicalProofs

  datatype Kind = SendEmail | SendNotification | FailJob

  /** A parsed request body, after the schema has filled in its defaults. */
  datatype Input = Input(kind: Kind, payload: Json, maxRetries: int, priority: int)

  function Ascii(s: string): (t: Text)
    requires forall i :: 0 <= i < |s| ==> s[i] < 128 as char
    ensures |t| == |s|
  {
    seq(|s|, i requires 0 <= i < |s| => s[i] as int)
  }

  function Decimal(n: int): (t: Text)
    requires 0 <= n <= 10
    ensures Number(t)
  {
    if n == 10 then
      assert Digits([0x31, 0x30][..2]) && Fraction([0x31, 0x30][2..]);
      [0x31, 0x30]
    else
      assert Digits([0x30 + n][..1]) && Fraction([0x30 + n][1..]);
      [0x30 + n]
  }

  ghost predicate ValidInput(input: Input) {
    && input.payload.Obj? && input.payload.members != []
    && Wellformed(input.payload)
    && 0 <= input.maxRetries <= 10
    && 1 <= input.priority <= 10
  }

  function KindText(kind: Kind): Text {
    match kind
    case SendEmail => Ascii("send_email")
    case SendNotification => Ascii("send_notification")
    case FailJob => Ascii("fail_job")
  }

  function InputJson(input: Input): Json
    requires 0 <= input.maxRetries <= 10 && 1 <= input.priority <= 10
  {
    Obj([Member(Ascii("type"), Str(KindText(input.kind))),
         Member(Ascii("payload"), input.payload),
         Member(Ascii("max_retries"), Num(Decimal(input.maxRetries))),
         Member(Ascii("priority"), Num(Decimal(input.priority)))])
  }

  function RequestHash(input: Input): Digest
    requires 0 <= input.maxRetries <= 10 && 1 <= input.priority <= 10
  {
    Sha256(Encode(Canonical(InputJson(input))))
  }

  /** Two normalised requests are the same request. */
  predicate SameRequest(a: Input, b: Input) {
    && a.kind == b.kind && Meaning(a.payload) == Meaning(b.payload)
    && a.maxRetries == b.maxRetries && a.priority == b.priority
  }

  /** The same is stored for two normalised requests. */
  predicate SameStored(a: Input, b: Input) {
    && a.kind == b.kind && Meaning(Stored(a.payload)) == Meaning(Stored(b.payload))
    && a.maxRetries == b.maxRetries && a.priority == b.priority
  }

  /** A digest of requests that tells them apart exactly as far as what is stored for them differs. */
  ghost predicate Decides(hash: Input -> Digest) {
    forall a, b :: ValidInput(a) && ValidInput(b) ==> (hash(a) == hash(b) <==> SameStored(a, b))
  }

  /** hash computes the request hash of the API. */
  ghost predicate IsRequestHash(hash: Input -> Digest) {
    forall a :: ValidInput(a) ==> hash(a) == RequestHash(a)
  }

  function KeyText(client: Text, key: Text): Text { client + [COLON] + key }
  function RequestKey(client: Text, key: Text): Digest { Sha256(Encode(KeyText(client, key))) }

  /** A client identifier, a column of Unicode text, that keeps clear of the separator. */
  predicate ClientId(client: Text) { Paired(client) && COLON !in client }

  predicate Blank(u: CodeUnit) { u == 0x20 || u == 0x09 }

  /** A header value as the server receives it: section 5.5 of RFC 9110, one code unit for each octet. */
  predicate Header(value: Text) {
    && (forall i :: 0 <= i < |value| ==> value[i] == 0x09 || 0x20 <= value[i] < 0x7F || 0x80 <= value[i] < 0x100)
    && (value != [] ==> !Blank(value[0]) && !Blank(value[|value| - 1]))
  }

  /** White space in the sense of String.prototype.trim. */
  predicate Space(u: CodeUnit) {
    || 9 <= u <= 13 || u == 0x20 || u == 0xA0 || u == 0x1680 || 0x2000 <= u <= 0x200A
    || u == 0x2028 || u == 0x2029 || u == 0x202F || u == 0x205F || u == 0x3000 || u == 0xFEFF
  }

  /** The controller's test on an Idempotency-Key header that is present. */
  predicate ValidKey(key: Text) {
    |key| <= 128 && exists i :: 0 <= i < |key| && !Space(key[i])
  }

  lemma InputWellformed(input: Input)
    requires ValidInput(input)
    ensures Wellformed(InputJson(input))
  {
    var ms := InputJson(input).members;
    assert |ms[0].key| == 4 && |ms[1].key| == 7 && |ms[2].key| == 11 && |ms[3].key| == 8;
  }

  const TYPE: Text := Ascii("type")
  const PAYLOAD: Text := Ascii("payload")
  const MAX_RETRIES: Text := Ascii("max_retries")
  const PRIORITY: Text := Ascii("priority")

  lemma RequestHashIsDecisive(hash: Input -> Digest)
    requires IsRequestHash(hash)
    ensures Decides(hash)
  {
    forall a, b | ValidInput(a) && ValidInput(b)
      ensures hash(a) == hash(b) <==> SameStored(a, b)
    {
      RequestHashDecides(a, b);
    }
  }

  lemma FieldsOfInput(input: Input)
    requires ValidInput(input)
    ensures Meaning(InputJson(input)).TObj?
    ensures var f := Meaning(InputJson(input)).fields;
            && f.Keys == {TYPE, PAYLOAD, MAX_RETRIES, PRIORITY}
            && f[TYPE] == TStr(KindText(input.kind))
            && f[PAYLOAD] == Meaning(input.payload)
            && f[MAX_RETRIES] == TNum(Decimal(input.maxRetries))
            && f[PRIORITY] == TNum(Decimal(input.priority))
  {
    var ms := InputJson(input).members;
    InputWellformed(input);
    CanonicalProofs.MeaningOfMembers(ms);
    var f := MeaningMembers(ms);
    assert ms[0].key == TYPE && ms[1].key == PAYLOAD && ms[2].key == MAX_RETRIES && ms[3].key == PRIORITY;
    assert f[ms[0].key] == Meaning(ms[0].value) && f[ms[1].key] == Meaning(ms[1].value);
    assert f[ms[2].key] == Meaning(ms[2].value) && f[ms[3].key] == Meaning(ms[3].value);
  }

  lemma HashIsCanonical(a: Input, b: Input)
    requires ValidInput(a) && ValidInput(b)
    ensures RequestHash(a) == RequestHash(b) <==> Canonical(InputJson(a)) == Canonical(InputJson(b))
  {
    InputWellformed(a);
    InputWellformed(b);
    CanonicalProofs.CanonicalPaired(InputJson(a));
    CanonicalProofs.CanonicalPaired(InputJson(b));
    EncodeDecides(Canonical(InputJson(a)), Canonical(InputJson(b)));
  }

  /** What is stored for a request: the request with its stored payload. */
  function StoredInput(a: Input): Input { a.(payload := Stored(a.payload)) }

  lemma StoredInputJson(a: Input)
    requires ValidInput(a)
    ensures ValidInput(StoredInput(a)) && Finite(StoredInput(a).payload)
    ensures Stored(InputJson(a)) == InputJson(StoredInput(a))
  {
    CanonicalProofs.StoredIsFinite(a.payload);
    var ms := InputJson(a).members;
    assert StoredMembers(ms)[0] == ms[0] && StoredMembers(ms)[1] == Member(Ascii("payload"), Stored(a.payload));
    assert StoredMembers(ms)[2] == ms[2] && StoredMembers(ms)[3] == ms[3];
  }

  lemma MeaningDecides(a: Input, b: Input)
    requires ValidInput(a) && ValidInput(b)
    ensures Meaning(InputJson(a)) == Meaning(InputJson(b)) <==> SameRequest(a, b)
  {
    FieldsOfInput(a);
    FieldsOfInput(b);
    SameFields(Meaning(InputJson(a)).fields, Meaning(InputJson(b)).fields);
    KindsDiffer(a.kind, b.kind);
    assert Decimal(a.maxRetries) == Decimal(b.maxRetries) <==> a.maxRetries == b.maxRetries;
    assert Decimal(a.priority) == Decimal(b.priority) <==> a.priority == b.priority;
  }

  /** The request hashes of two requests agree exactly when the same is stored for them. */
  lemma RequestHashDecides(a: Input, b: Input)
    requires ValidInput(a) && ValidInput(b)
    ensures RequestHash(a) == RequestHash(b) <==> SameStored(a, b)
  {
    HashIsCanonical(a, b);
    InputWellformed(a);
    InputWellformed(b);
    CanonicalProofs.CanonicalDecidesStored(InputJson(a), InputJson(b));
    StoredInputJson(a);
    StoredInputJson(b);
    MeaningDecides(StoredInput(a), StoredInput(b));
  }

  /** Without numbers beyond the range of a double, that is when the requests are the same. */
  lemma FiniteRequests(a: Input, b: Input)
    requires Finite(a.payload) && Finite(b.payload)
    ensures SameStored(a, b) <==> SameRequest(a, b)
  {
    CanonicalProofs.FiniteIsStored(a.payload);
    CanonicalProofs.FiniteIsStored(b.payload);
  }

  /** A request with an infinity differs from what is stored for it, and has the same hash. */
  lemma StoredCollides(a: Input)
    requires ValidInput(a) && !Finite(a.payload)
    ensures var b := StoredInput(a);
            ValidInput(b) && Finite(b.payload) && !SameRequest(a, b) && RequestHash(a) == RequestHash(b)
  {
    var b := StoredInput(a);
    StoredInputJson(a);
    RequestHashDecides(a, b);
    CanonicalProofs.FiniteIsStored(b.payload);
    CanonicalProofs.StoredDiffers(a.payload);
  }

  /** A request is told apart from every other finite one exactly when its own payload is finite. */
  lemma RequestToldApartExactlyIfFinite(a: Input)
    requires ValidInput(a)
    ensures Finite(a.payload) <==>
            (forall b :: ValidInput(b) && Finite(b.payload) ==>
               (RequestHash(a) == RequestHash(b) <==> SameRequest(a, b)))
  {
    if Finite(a.payload) {
      forall b | ValidInput(b) && Finite(b.payload)
        ensures RequestHash(a) == RequestHash(b) <==> SameRequest(a, b)
      {
        RequestHashDecides(a, b);
        FiniteRequests(a, b);
      }
    } else {
      StoredCollides(a);
    }
  }

  /** A payload such as {"k": 1e999}. */
  function Beyond(key: Text, negative: bool): Json { Obj([Member(key, Overflow(negative))]) }

  lemma BeyondIsStoredAsNull(key: Text, negative: bool)
    ensures Wellformed(Beyond(key, negative)) && !Finite(Beyond(key, negative))
    ensures Stored(Beyond(key, negative)) == Obj([Member(key, Null)])
  {
    var ms := Beyond(key, negative).members;
    assert ms[0].value == Overflow(negative);
    assert StoredMembers(ms) == [Member(key, Null)];
  }

  /** A request as a JSON value: its four fields by their names. */
  function RequestTree(kind: Kind, payload: Tree, maxRetries: int, priority: int): Tree
    requires 0 <= maxRetries <= 10 && 1 <= priority <= 10
  {
    var name := match kind
                case SendEmail => Ascii("send_email")
                case SendNotification => Ascii("send_notification")
                case FailJob => Ascii("fail_job");
    TObj(map[Ascii("type") := TStr(name), Ascii("payload") := payload,
             Ascii("max_retries") := TNum(Numeral(maxRetries)), Ascii("priority") := TNum(Numeral(priority))])
  }

  function Numeral(n: int): Text
    requires 0 <= n <= 10
  {
    if n == 10 then Ascii("10") else [[0x30, 0x31, 0x32, 0x33, 0x34, 0x35, 0x36, 0x37, 0x38, 0x39][n]]
  }

  lemma TreeOfRequest(input: Input)
    requires ValidInput(input)
    ensures Meaning(InputJson(input)) == RequestTree(input.kind, Meaning(input.payload), input.maxRetries,
              input.priority)
  {
    FieldsOfInput(input);
    assert Ascii("10") == [0x31, 0x30];
    var f, g := Meaning(InputJson(input)).fields,
                RequestTree(input.kind, Meaning(input.payload), input.maxRetries, input.priority).fields;
    assert g.Keys == {TYPE, PAYLOAD, MAX_RETRIES, PRIORITY};
    NamesDiffer();
    SameFields(f, g);
  }

  lemma NamesDiffer()
    ensures |TYPE| == 4 && |PAYLOAD| == 7 && |MAX_RETRIES| == 11 && |PRIORITY| == 8
  {
  }

  /** What a program reading the hashed text finds in it: the request's fields, with the stored payload. */
  lemma PrintedRequest(input: Input)
    requires ValidInput(input)
    ensures exists v :: ReadValue(Canonical(InputJson(input))) == Some((v, []))
                     && Meaning(v) == RequestTree(input.kind, Meaning(Stored(input.payload)), input.maxRetries,
                            input.priority)
  {
    InputWellformed(input);
    CanonicalProofs.CanonicalRoundTrip(InputJson(input));
    StoredInputJson(input);
    TreeOfRequest(StoredInput(input));
    var v := Norm(InputJson(input));
    assert ReadValue(Canonical(InputJson(input))) == Some((v, []));
  }

  /** For example {"k": 1e999} and {"k": null}: two different requests with one hash. */
  lemma OverflowCollides(kind: Kind, key: Text, negative: bool, maxRetries: int, priority: int)
    requires 0 <= maxRetries <= 10 && 1 <= priority <= 10
    ensures var a := Input(kind, Beyond(key, negative), maxRetries, priority);
            var b := Input(kind, Obj([Member(key, Null)]), maxRetries, priority);
            ValidInput(a) && ValidInput(b) && !SameRequest(a, b) && RequestHash(a) == RequestHash(b)
  {
    BeyondIsStoredAsNull(key, negative);
    StoredCollides(Input(kind, Beyond(key, negative), maxRetries, priority));
  }

  lemma KindsDiffer(a: Kind, b: Kind)
    ensures KindText(a) == KindText(b) <==> a == b
  {
    assert |Ascii("send_email")| == 10 && |Ascii("send_notification")| == 17 && |Ascii("fail_job")| == 8;
  }

  lemma SameFields(f: map<Text, Tree>, g: map<Text, Tree>)
    requires f.Keys == g.Keys == {TYPE, PAYLOAD, MAX_RETRIES, PRIORITY}
    ensures f == g <==>
              && f[TYPE] == g[TYPE] && f[PAYLOAD] == g[PAYLOAD]
              && f[MAX_RETRIES] == g[MAX_RETRIES] && f[PRIORITY] == g[PRIORITY]
  {
  }

  lemma HeaderPaired(value: Text)
    requires Header(value)
    ensures Paired(value)
  {
    PlainPaired(value);
  }

  lemma KeyTextPaired(client: Text, key: Text)
    requires Paired(client) && Header(key)
    ensures Paired(KeyText(client, key))
  {
    HeaderPaired(key);
    PlainPaired([COLON]);
    PairedConcat(client, [COLON]);
    PairedConcat(client + [COLON], key);
  }

  lemma KeyDecides(c1: Text, k1: Text, c2: Text, k2: Text)
    requires Paired(c1) && Paired(c2) && Header(k1) && Header(k2)
    ensures RequestKey(c1, k1) == RequestKey(c2, k2) <==> KeyText(c1, k1) == KeyText(c2, k2)
  {
    KeyTextPaired(c1, k1);
    KeyTextPaired(c2, k2);
    EncodeDecides(KeyText(c1, k1), KeyText(c2, k2));
  }

  /** Client identifiers without a colon keep their key spaces apart. */
  lemma KeysAreScoped(c1: Text, k1: Text, c2: Text, k2: Text)
    requires ClientId(c1) && ClientId(c2) && Header(k1) && Header(k2)
    ensures RequestKey(c1, k1) == RequestKey(c2, k2) <==> c1 == c2 && k1 == k2
  {
    KeyDecides(c1, k1, c2, k2);
    var a, b := KeyText(c1, k1), KeyText(c2, k2);
    if a == b {
      assert a[|c1|] == COLON && b[|c2|] == COLON;
      assert forall i :: 0 <= i < |c1| ==> a[i] == c1[i];
      assert forall i :: 0 <= i < |c2| ==> b[i] == c2[i];
      assert |c1| == |c2|;
      assert a[..|c1|] == c1 && b[..|c2|] == c2;
      assert a[|c1| + 1..] == k1 && b[|c2| + 1..] == k2;
    }
  }

  /** Which header values the controller takes for a key: up to 128 octets, not all of them blank; beside the space
      and the tab only the no-break space counts as blank, of what a header can carry. */
  lemma HeaderKeys(key: Text)
    requires Header(key)
    ensures ValidKey(key) <==> |key| <= 128 && exists i :: 0 <= i < |key| && key[i] !in {0x09, 0x20, 0xA0}
  {
    assert forall i :: 0 <= i < |key| ==> (Space(key[i]) <==> key[i] in {0x09, 0x20, 0xA0});
  }

  /** A key that a request can carry past the controller's test. */
  predicate Admissible(key: Text) { Header(key) && ValidKey(key) }

  /** Identifier c2 is c1, a colon, and what a key may begin with before another colon and a character. */
  predicate Continues(c1: Text, c2: Text) {
    c1 + [COLON] <= c2 && |c2| <= |c1| + 127 && Header(c2[|c1| + 1..] + [COLON])
  }

  /** Without that restriction two clients reach the same request key, by keys that the controller admits,
      exactly when the identifier of one continues the other's with a colon. */
  lemma KeysCollide(c1: Text, c2: Text)
    requires c1 != c2 && Paired(c1) && Paired(c2)
    ensures (exists k1, k2 :: Admissible(k1) && Admissible(k2) && RequestKey(c1, k1) == RequestKey(c2, k2)) <==>
            Continues(c1, c2) || Continues(c2, c1)
  {
    if Continues(c1, c2) { Collision(c1, c2); }
    if Continues(c2, c1) { Collision(c2, c1); }
    if k1, k2 :| Admissible(k1) && Admissible(k2) && RequestKey(c1, k1) == RequestKey(c2, k2) {
      KeyDecides(c1, k1, c2, k2);
      Overlap(c1, k1, c2, k2);
      if c1 + [COLON] <= c2 { Continued(c1, k1, c2, k2); } else { Continued(c2, k2, c1, k1); }
    }
  }

  /** The key "a", and a key that ends in ":a" after what a header may begin with. */
  lemma LetterAdmissible(rest: Text)
    requires |rest| <= 126 && Header(rest + [COLON])
    ensures Admissible([0x61]) && Admissible(rest + [COLON] + [0x61])
  {
    var key, begin := rest + [COLON] + [0x61], rest + [COLON];
    assert !Space([0x61][0]) && !Space(key[|key| - 1]);
    assert key[0] == begin[0] && key[|key| - 1] == 0x61;
    assert forall i :: 0 <= i < |begin| ==> key[i] == begin[i];
  }

  lemma Collision(c1: Text, c2: Text)
    requires Paired(c1) && Paired(c2) && Continues(c1, c2)
    ensures exists k1, k2 :: Admissible(k1) && Admissible(k2) && RequestKey(c1, k1) == RequestKey(c2, k2)
  {
    var rest, k2 := c2[|c1| + 1..], [0x61];
    var k1 := rest + [COLON] + k2;
    assert c2 == c1 + [COLON] + rest;
    LetterAdmissible(rest);
    assert KeyText(c1, k1) == KeyText(c2, k2);
    KeyDecides(c1, k1, c2, k2);
  }

  lemma Continued(c1: Text, k1: Text, c2: Text, k2: Text)
    requires KeyText(c1, k1) == KeyText(c2, k2) && c1 + [COLON] <= c2 && Admissible(k1) && Admissible(k2)
    ensures Continues(c1, c2)
  {
    var t, rest := KeyText(c1, k1), c2[|c1| + 1..];
    assert c2 == c1 + [COLON] + rest;
    assert t[|c1| + 1..] == k1;
    assert t == c1 + [COLON] + (rest + [COLON] + k2);
    assert k1 == rest + [COLON] + k2;
    assert forall i :: 0 <= i <= |rest| ==> (rest + [COLON])[i] == k1[i];
    assert (rest + [COLON])[|rest|] == COLON;
  }

  lemma Overlap(c1: Text, k1: Text, c2: Text, k2: Text)
    requires KeyText(c1, k1) == KeyText(c2, k2)
    ensures c1 == c2 || c1 + [COLON] <= c2 || c2 + [COLON] <= c1
  {
    var t := KeyText(c1, k1);
    assert t[..|c1| + 1] == c1 + [COLON];
    assert t[..|c2| + 1] == c2 + [COLON];
    if |c1| < |c2| {
      assert t[..|c1| + 1] == (c2 + [COLON])[..|c1| + 1] == c2[..|c1| + 1];
    } else if |c2| < |c1| {
      assert t[..|c2| + 1] == (c1 + [COLON])[..|c2| + 1] == c1[..|c2| + 1];
    } else {
      assert c1 == t[..|c1|] == c2;
    }
  }
}
