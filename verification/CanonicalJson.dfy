/** The order-insensitive JSON printer behind request identity, and the proof that it decides equality
    of JSON values up to the order of object keys. JSON text is that of RFC 8259: objects section 4,
    arrays section 5, numbers section 6, strings section 7. */
module CanonicalJson {
  import opened Tables
  import opened Utf8

  /** A value as JSON.parse builds it. Members keep their insertion order. A number is the text that
      JSON.stringify prints for it; Overflow is a literal beyond the range of a double, read as an infinity. */
  datatype Json =
    | Null
    | Bool(b: bool)
    | Num(text: Text)
    | Overflow(negative: bool)
    | Str(s: Text)
    | Arr(items: seq<Json>)
    | Obj(members: seq<Member>)
  datatype Member = Member(key: Text, value: Json)

  const QUOTE: CodeUnit := 0x22
  const BACKSLASH: CodeUnit := 0x5C
  const COMMA: CodeUnit := 0x2C
  const COLON: CodeUnit := 0x3A
  const OPEN_ARRAY: CodeUnit := 0x5B
  const CLOSE_ARRAY: CodeUnit := 0x5D
  const OPEN_OBJECT: CodeUnit := 0x7B
  const CLOSE_OBJECT: CodeUnit := 0x7D
  const NULL_TEXT: Text := [0x6E, 0x75, 0x6C, 0x6C]
  const TRUE_TEXT: Text := [0x74, 0x72, 0x75, 0x65]
  const FALSE_TEXT: Text := [0x66, 0x61, 0x6C, 0x73, 0x65]

  // ----- strings

  function HexDigit(d: int): CodeUnit
    requires 0 <= d < 16
  {
    if d < 10 then 0x30 + d else 0x61 + d - 10
  }

  function HexEscape(u: CodeUnit): Text {
    [BACKSLASH, 0x75, HexDigit(u / 0x1000), HexDigit(u / 0x100 % 0x10), HexDigit(u / 0x10 % 0x10), HexDigit(u % 0x10)]
  }

  /** JSON.stringify of one code unit that is not part of a surrogate pair. */
  function EscapeUnit(u: CodeUnit): Text {
    if u == 8 then [BACKSLASH, 0x62]
    else if u == 9 then [BACKSLASH, 0x74]
    else if u == 10 then [BACKSLASH, 0x6E]
    else if u == 12 then [BACKSLASH, 0x66]
    else if u == 13 then [BACKSLASH, 0x72]
    else if u == QUOTE || u == BACKSLASH then [BACKSLASH, u]
    else if u < 0x20 || High(u) || Low(u) then HexEscape(u)
    else [u]
  }

  /** JSON.stringify of a string, without its quotes: surrogate pairs pass through, lone surrogates are escaped. */
  function Escape(s: Text): Text {
    if s == [] then []
    else if |s| >= 2 && High(s[0]) && Low(s[1]) then s[..2] + Escape(s[2..])
    else EscapeUnit(s[0]) + Escape(s[1..])
  }

  function Quoted(s: Text): Text { [QUOTE] + Escape(s) + [QUOTE] }

  // ----- key order: UTF-16 code units, as in section 3.2.3 of RFC 8785

  predicate Less(a: Text, b: Text) {
    b != [] && (a == [] || a[0] < b[0] || (a[0] == b[0] && Less(a[1..], b[1..])))
  }

  function Insert(m: Member, ms: seq<Member>): (r: seq<Member>)
    ensures multiset(r) == multiset(ms) + multiset{m}
    ensures SizeMembers(r) == SizeMembers(ms) + 1 + Size(m.value)
  {
    if ms == [] then [m]
    else if Less(ms[0].key, m.key) then
      assert ms == [ms[0]] + ms[1..];
      [ms[0]] + Insert(m, ms[1..])
    else [m] + ms
  }

  /** Array.prototype.sort on the entries of an object, by key. */
  function Sort(ms: seq<Member>): (r: seq<Member>)
    ensures multiset(r) == multiset(ms)
    ensures SizeMembers(r) == SizeMembers(ms)
  {
    if ms == [] then []
    else
      assert ms == [ms[0]] + ms[1..];
      Insert(ms[0], Sort(ms[1..]))
  }

  function Size(v: Json): nat {
    match v
    case Arr(items) => 1 + SizeItems(items)
    case Obj(members) => 1 + SizeMembers(members)
    case _ => 1
  }
  function SizeItems(items: seq<Json>): nat { if items == [] then 0 else 1 + Size(items[0]) + SizeItems(items[1..]) }
  function SizeMembers(ms: seq<Member>): nat { if ms == [] then 0 else 1 + Size(ms[0].value) + SizeMembers(ms[1..]) }

  // ----- the printer

  function Canonical(v: Json): Text
    decreases Size(v)
  {
    match v
    case Arr(items) => [OPEN_ARRAY] + CanonicalItems(items) + [CLOSE_ARRAY]
    case Obj(members) => [OPEN_OBJECT] + CanonicalMembers(Sort(members)) + [CLOSE_OBJECT]
    case Null => NULL_TEXT
    case Overflow(_) => NULL_TEXT
    case Bool(b) => if b then TRUE_TEXT else FALSE_TEXT
    case Num(text) => text
    case Str(s) => Quoted(s)
  }

  function CanonicalItems(items: seq<Json>): Text
    decreases SizeItems(items)
  {
    if items == [] then []
    else Canonical(items[0]) + if |items| == 1 then [] else [COMMA] + CanonicalItems(items[1..])
  }

  function CanonicalMembers(ms: seq<Member>): Text
    decreases SizeMembers(ms)
  {
    if ms == [] then []
    else
      Quoted(ms[0].key) + [COLON] + Canonical(ms[0].value) +
      if |ms| == 1 then [] else [COMMA] + CanonicalMembers(ms[1..])
  }

  // ----- what JSON.parse can produce, and what a value means

  predicate Digit(u: CodeUnit) { 0x30 <= u <= 0x39 }
  predicate NumberUnit(u: CodeUnit) { Digit(u) || u == 0x2D || u == 0x2B || u == 0x2E || u == 0x65 || u == 0x45 }

  predicate Digits(t: Text) { t != [] && forall i :: 0 <= i < |t| ==> Digit(t[i]) }

  /** The number grammar of RFC 8259, section 6, from its end: an exponent part, if any. */
  predicate Exponent(t: Text) {
    || t == []
    || ((t[0] == 0x65 || t[0] == 0x45)
        && (Digits(t[1..]) || (|t| >= 2 && (t[1] == 0x2B || t[1] == 0x2D) && Digits(t[2..]))))
  }

  /** A fraction part, if any, and an exponent part. */
  predicate Fraction(t: Text) {
    Exponent(t) || (t != [] && t[0] == 0x2E && exists i :: 2 <= i <= |t| && Digits(t[1..i]) && Exponent(t[i..]))
  }

  /** An integer without superfluous leading zeros, a fraction part and an exponent part. */
  predicate Unsigned(t: Text) {
    && t != []
    && (if t[0] == 0x30 then Fraction(t[1..]) else exists i :: 1 <= i <= |t| && Digits(t[..i]) && Fraction(t[i..]))
  }

  predicate Number(t: Text) {
    && (forall i :: 0 <= i < |t| ==> NumberUnit(t[i]))
    && (Unsigned(t) || (t != [] && t[0] == 0x2D && Unsigned(t[1..])))
  }

  ghost predicate DistinctKeys(ms: seq<Member>) {
    forall i, j :: 0 <= i < j < |ms| ==> ms[i].key != ms[j].key
  }

  ghost predicate Wellformed(v: Json) {
    match v
    case Num(text) => Number(text)
    case Arr(items) => forall i :: 0 <= i < |items| ==> Wellformed(items[i])
    case Obj(members) => DistinctKeys(members) && forall i :: 0 <= i < |members| ==> Wellformed(members[i].value)
    case _ => true
  }

  /** A JSON value with its object members as a map: only key order is gone. */
  datatype Tree =
    | TNull
    | TBool(b: bool)
    | TNum(text: Text)
    | TOverflow(negative: bool)
    | TStr(s: Text)
    | TArr(items: seq<Tree>)
    | TObj(fields: map<Text, Tree>)

  function Meaning(v: Json): Tree {
    match v
    case Null => TNull
    case Overflow(negative) => TOverflow(negative)
    case Bool(b) => TBool(b)
    case Num(text) => TNum(text)
    case Str(s) => TStr(s)
    case Arr(items) => TArr(MeaningItems(items))
    case Obj(members) => TObj(MeaningMembers(members))
  }
  function MeaningItems(items: seq<Json>): (r: seq<Tree>)
    ensures |r| == |items|
  {
    if items == [] then [] else [Meaning(items[0])] + MeaningItems(items[1..])
  }
  function MeaningMembers(ms: seq<Member>): map<Text, Tree> {
    if ms == [] then map[] else MeaningMembers(ms[1..])[ms[0].key := Meaning(ms[0].value)]
  }

  /** No number at any depth is beyond the range of a double. */
  predicate Finite(v: Json) {
    match v
    case Overflow(_) => false
    case Arr(items) => forall i :: 0 <= i < |items| ==> Finite(items[i])
    case Obj(members) => forall i :: 0 <= i < |members| ==> Finite(members[i].value)
    case _ => true
  }

  /** The value that JSON.stringify stores: an infinity becomes null. */
  function Stored(v: Json): Json {
    match v
    case Overflow(_) => Null
    case Arr(items) => Arr(StoredItems(items))
    case Obj(members) => Obj(StoredMembers(members))
    case _ => v
  }
  function StoredItems(items: seq<Json>): (r: seq<Json>)
    ensures |r| == |items| && forall i :: 0 <= i < |items| ==> r[i] == Stored(items[i])
  {
    if items == [] then [] else [Stored(items[0])] + StoredItems(items[1..])
  }
  function StoredMembers(ms: seq<Member>): (r: seq<Member>)
    ensures |r| == |ms| && forall i :: 0 <= i < |ms| ==> r[i] == Member(ms[i].key, Stored(ms[i].value))
  {
    if ms == [] then [] else [Member(ms[0].key, Stored(ms[0].value))] + StoredMembers(ms[1..])
  }

  // ----- the value that is actually printed

  function Norm(v: Json): Json
    decreases Size(v)
  {
    match v
    case Arr(items) => Arr(NormItems(items))
    case Obj(members) => Obj(NormMembers(Sort(members)))
    case Overflow(_) => Null
    case _ => v
  }
  function NormItems(items: seq<Json>): (r: seq<Json>)
    ensures |r| == |items|
    decreases SizeItems(items)
  {
    if items == [] then [] else [Norm(items[0])] + NormItems(items[1..])
  }
  function NormMembers(ms: seq<Member>): (r: seq<Member>)
    ensures |r| == |ms|
    ensures forall i :: 0 <= i < |ms| ==> r[i].key == ms[i].key
    decreases SizeMembers(ms)
  {
    if ms == [] then [] else [Member(ms[0].key, Norm(ms[0].value))] + NormMembers(ms[1..])
  }

  // ----- a reader of JSON text: the grammar of RFC 8259 without white space

  function Hex(u: CodeUnit): Option<int> {
    if Digit(u) then Some(u - 0x30)
    else if 0x61 <= u <= 0x66 then Some(u - 0x61 + 10)
    else if 0x41 <= u <= 0x46 then Some(u - 0x41 + 10)
    else None
  }

  /** Reads one escape sequence, after its backslash. */
  function ReadEscape(t: Text): (r: Option<(CodeUnit, Text)>)
    ensures r.Some? ==> |r.value.1| < |t|
  {
    if t == [] then None
    else if t[0] == 0x62 then Some((8, t[1..]))
    else if t[0] == 0x74 then Some((9, t[1..]))
    else if t[0] == 0x6E then Some((10, t[1..]))
    else if t[0] == 0x66 then Some((12, t[1..]))
    else if t[0] == 0x72 then Some((13, t[1..]))
    else if t[0] == QUOTE || t[0] == BACKSLASH || t[0] == 0x2F then Some((t[0], t[1..]))
    else if t[0] == 0x75 && |t| >= 5 then
      var a, b, c, d := Hex(t[1]), Hex(t[2]), Hex(t[3]), Hex(t[4]);
      if a.Some? && b.Some? && c.Some? && d.Some? then
        Some((a.value * 0x1000 + b.value * 0x100 + c.value * 0x10 + d.value, t[5..]))
      else None
    else None
  }

  /** Reads a string up to and including its closing quote. Control characters must be escaped. */
  function ReadString(t: Text): (r: Option<(Text, Text)>)
    ensures r.Some? ==> |r.value.1| < |t|
    decreases |t|
  {
    if t == [] then None
    else if t[0] == QUOTE then Some(([], t[1..]))
    else if t[0] == BACKSLASH then
      var e := ReadEscape(t[1..]);
      if e.None? then None
      else
        var more := ReadString(e.value.1);
        if more.None? then None else Some(([e.value.0] + more.value.0, more.value.1))
    else if t[0] < 0x20 then None
    else
      var more := ReadString(t[1..]);
      if more.None? then None else Some(([t[0]] + more.value.0, more.value.1))
  }

  /** A number goes as far as its characters can. */
  function NumberLength(t: Text): (n: nat)
    ensures n <= |t|
  {
    if t == [] || !NumberUnit(t[0]) then 0 else 1 + NumberLength(t[1..])
  }

  function ReadValue(t: Text): (r: Option<(Json, Text)>)
    ensures r.Some? ==> |r.value.1| < |t|
    decreases |t|, 1
  {
    if t == [] then None
    else if t[0] == QUOTE then
      var s := ReadString(t[1..]);
      if s.None? then None else Some((Str(s.value.0), s.value.1))
    else if t[0] == OPEN_ARRAY then
      if |t| >= 2 && t[1] == CLOSE_ARRAY then Some((Arr([]), t[2..]))
      else
        var items := ReadItems(t[1..]);
        if items.None? then None else Some((Arr(items.value.0), items.value.1))
    else if t[0] == OPEN_OBJECT then
      if |t| >= 2 && t[1] == CLOSE_OBJECT then Some((Obj([]), t[2..]))
      else
        var members := ReadMembers(t[1..]);
        if members.None? then None else Some((Obj(members.value.0), members.value.1))
    else if NULL_TEXT <= t then Some((Null, t[4..]))
    else if TRUE_TEXT <= t then Some((Bool(true), t[4..]))
    else if FALSE_TEXT <= t then Some((Bool(false), t[5..]))
    else
      var n := NumberLength(t);
      if Number(t[..n]) then Some((Num(t[..n]), t[n..])) else None
  }

  /** Reads array items up to and including the closing bracket. */
  function ReadItems(t: Text): (r: Option<(seq<Json>, Text)>)
    ensures r.Some? ==> |r.value.1| < |t|
    decreases |t|, 2
  {
    var first := ReadValue(t);
    if first.None? || first.value.1 == [] then None
    else
      var rest := first.value.1;
      if rest[0] == CLOSE_ARRAY then Some(([first.value.0], rest[1..]))
      else if rest[0] == COMMA then
        var more := ReadItems(rest[1..]);
        if more.None? then None else Some(([first.value.0] + more.value.0, more.value.1))
      else None
  }

  /** Reads object members up to and including the closing brace. */
  function ReadMembers(t: Text): (r: Option<(seq<Member>, Text)>)
    ensures r.Some? ==> |r.value.1| < |t|
    decreases |t|, 2
  {
    if t == [] || t[0] != QUOTE then None
    else
      var key := ReadString(t[1..]);
      if key.None? || key.value.1 == [] || key.value.1[0] != COLON then None
      else
        var first := ReadValue(key.value.1[1..]);
        if first.None? || first.value.1 == [] then None
        else
          var m, rest := Member(key.value.0, first.value.0), first.value.1;
          if rest[0] == CLOSE_OBJECT then Some(([m], rest[1..]))
          else if rest[0] == COMMA then
            var more := ReadMembers(rest[1..]);
            if more.None? then None else Some(([m] + more.value.0, more.value.1))
          else None
  }
}
