/** UTF-8 as Node.js writes a JavaScript string to a hash: section 3 of RFC 3629, with U+FFFD in the place of
    an unpaired surrogate. It loses nothing exactly when no surrogate is unpaired. */
module Utf8 {
  import opened Tables

  predicate High(u: CodeUnit) { 0xD800 <= u < 0xDC00 }
  predicate Low(u: CodeUnit) { 0xDC00 <= u < 0xE000 }

  /** The first character of a text: a surrogate pair, or one code unit. */
  function FirstLength(t: Text): (n: nat)
    requires t != []
    ensures 1 <= n <= |t|
  {
    if |t| >= 2 && High(t[0]) && Low(t[1]) then 2 else 1
  }

  /** Every surrogate is half of a pair. */
  predicate Paired(t: Text) {
    t == [] || ((FirstLength(t) == 2 || !(High(t[0]) || Low(t[0]))) && Paired(t[FirstLength(t)..]))
  }

  /** The bytes of one code unit. */
  function UnitBytes(u: CodeUnit): seq<Byte> {
    if u < 0x80 then [u]
    else if u < 0x800 then [0xC0 + u / 0x40, 0x80 + u % 0x40]
    else
      var c := if High(u) || Low(u) then 0xFFFD else u;
      [0xE0 + c / 0x1000, 0x80 + c / 0x40 % 0x40, 0x80 + c % 0x40]
  }

  /** The bytes of a surrogate pair: 20 bits above 0x10000. */
  function PairBytes(h: CodeUnit, l: CodeUnit): seq<Byte>
    requires High(h) && Low(l)
  {
    var c := 0x10000 + (h - 0xD800) * 0x400 + (l - 0xDC00);
    [0xF0 + c / 0x40000, 0x80 + c / 0x1000 % 0x40, 0x80 + c / 0x40 % 0x40, 0x80 + c % 0x40]
  }

  function FirstBytes(t: Text): (bytes: seq<Byte>)
    requires t != []
    ensures bytes != []
  {
    if FirstLength(t) == 2 then PairBytes(t[0], t[1]) else UnitBytes(t[0])
  }

  function Encode(t: Text): seq<Byte> {
    if t == [] then [] else FirstBytes(t) + Encode(t[FirstLength(t)..])
  }

  // ----- texts without unpaired surrogates

  lemma {:induction false} PairedConcat(a: Text, b: Text)
    requires Paired(a) && Paired(b)
    ensures Paired(a + b)
    decreases |a|
  {
    if a == [] {
      assert a + b == b;
    } else {
      var n := FirstLength(a);
      PairedConcat(a[n..], b);
      assert (a + b)[n..] == a[n..] + b;
      assert forall i :: 0 <= i < |a| ==> (a + b)[i] == a[i];
    }
  }

  lemma {:induction false} PlainPaired(t: Text)
    requires forall i :: 0 <= i < |t| ==> !High(t[i]) && !Low(t[i])
    ensures Paired(t)
    decreases |t|
  {
    if t != [] { PlainPaired(t[1..]); }
  }

  // ----- the encoding determines the text

  /** The first byte tells how many bytes the first character has. */
  function Announced(b: Byte): nat {
    if b < 0x80 then 1 else if b < 0xE0 then 2 else if b < 0xF0 then 3 else 4
  }

  lemma FirstAnnounced(t: Text)
    requires t != []
    ensures |FirstBytes(t)| == Announced(FirstBytes(t)[0])
    ensures |FirstBytes(t)| == 4 <==> FirstLength(t) == 2
  {
  }

  lemma UnitDecided(u: CodeUnit, v: CodeUnit)
    requires !High(u) && !Low(u) && !High(v) && !Low(v) && UnitBytes(u) == UnitBytes(v)
    ensures u == v
  {
    UnitDigits(u);
    UnitDigits(v);
  }

  lemma UnitDigits(u: CodeUnit)
    ensures u == u / 0x40 * 0x40 + u % 0x40
    ensures u == u / 0x1000 * 0x1000 + u / 0x40 % 0x40 * 0x40 + u % 0x40
  {
  }

  lemma Halves(c: int)
    requires 0 <= c
    ensures c / 0x40 / 0x40 == c / 0x1000 && c / 0x1000 / 0x40 == c / 0x40000
  {
  }

  lemma PairDigits(c: int)
    requires 0 <= c
    ensures c == c / 0x40000 * 0x40000 + c / 0x1000 % 0x40 * 0x1000 + c / 0x40 % 0x40 * 0x40 + c % 0x40
  {
    Halves(c);
    var a := c / 0x40;
    assert c == a * 0x40 + c % 0x40;
    var b := a / 0x40;
    assert a == b * 0x40 + a % 0x40;
    assert b == b / 0x40 * 0x40 + b % 0x40;
  }

  lemma PairDecided(h: CodeUnit, l: CodeUnit, k: CodeUnit, m: CodeUnit)
    requires High(h) && Low(l) && High(k) && Low(m) && PairBytes(h, l) == PairBytes(k, m)
    ensures h == k && l == m
  {
    var c, d := 0x10000 + (h - 0xD800) * 0x400 + (l - 0xDC00), 0x10000 + (k - 0xD800) * 0x400 + (m - 0xDC00);
    PairDigits(c);
    PairDigits(d);
    assert PairBytes(h, l)[0] == PairBytes(k, m)[0] && PairBytes(h, l)[1] == PairBytes(k, m)[1];
    assert PairBytes(h, l)[2] == PairBytes(k, m)[2] && PairBytes(h, l)[3] == PairBytes(k, m)[3];
    assert c == d;
  }

  /** Two paired texts that begin with the same bytes begin with the same character. */
  lemma FirstDecided(a: Text, b: Text)
    requires a != [] && b != [] && Paired(a) && Paired(b) && FirstBytes(a) == FirstBytes(b)
    ensures FirstLength(a) == FirstLength(b) && a[..FirstLength(a)] == b[..FirstLength(b)]
  {
    FirstAnnounced(a);
    FirstAnnounced(b);
    if FirstLength(a) == 2 {
      PairDecided(a[0], a[1], b[0], b[1]);
    } else {
      UnitDecided(a[0], b[0]);
    }
  }

  lemma SplitHeads(x: seq<Byte>, p: seq<Byte>, y: seq<Byte>, q: seq<Byte>)
    requires x + p == y + q && |x| == |y|
    ensures x == y && p == q
  {
    assert x == (x + p)[..|x|] && y == (y + q)[..|y|];
    assert p == (x + p)[|x|..] && q == (y + q)[|y|..];
  }

  /** Paired texts have the same bytes exactly when they are the same text. */
  lemma {:induction false} EncodeDecides(a: Text, b: Text)
    requires Paired(a) && Paired(b)
    ensures Encode(a) == Encode(b) <==> a == b
    decreases |a|
  {
    if Encode(a) == Encode(b) && a != [] {
      assert b != [];
      FirstAnnounced(a);
      FirstAnnounced(b);
      assert Encode(a)[0] == FirstBytes(a)[0] && Encode(b)[0] == FirstBytes(b)[0];
      SplitHeads(FirstBytes(a), Encode(a[FirstLength(a)..]), FirstBytes(b), Encode(b[FirstLength(b)..]));
      FirstDecided(a, b);
      EncodeDecides(a[FirstLength(a)..], b[FirstLength(b)..]);
      assert a == a[..FirstLength(a)] + a[FirstLength(a)..] && b == b[..FirstLength(b)] + b[FirstLength(b)..];
    }
  }

  /** Replaces every unpaired surrogate. */
  function Repaired(t: Text): Text {
    if t == [] then []
    else if FirstLength(t) == 2 then t[..2] + Repaired(t[2..])
    else (if High(t[0]) || Low(t[0]) then [0xFFFD] else [t[0]]) + Repaired(t[1..])
  }

  lemma UnitThen(u: CodeUnit, rest: Text)
    requires !High(u) && !Low(u)
    ensures Encode([u] + rest) == UnitBytes(u) + Encode(rest)
    ensures Paired([u] + rest) <==> Paired(rest)
  {
    assert ([u] + rest)[1..] == rest;
  }

  lemma PairThen(h: CodeUnit, l: CodeUnit, rest: Text)
    requires High(h) && Low(l)
    ensures Encode([h, l] + rest) == PairBytes(h, l) + Encode(rest)
    ensures Paired([h, l] + rest) <==> Paired(rest)
  {
    assert ([h, l] + rest)[2..] == rest;
  }

  lemma {:induction false} RepairKeepsBytes(t: Text)
    ensures Paired(Repaired(t)) && Encode(Repaired(t)) == Encode(t)
    decreases |t|
  {
    if t != [] {
      var n := FirstLength(t);
      var rest := Repaired(t[n..]);
      RepairKeepsBytes(t[n..]);
      if n == 2 {
        PairThen(t[0], t[1], rest);
        assert Repaired(t) == [t[0], t[1]] + rest by { assert t[..2] == [t[0], t[1]]; }
      } else {
        var u := if High(t[0]) || Low(t[0]) then 0xFFFD else t[0];
        UnitThen(u, rest);
        assert Repaired(t) == [u] + rest;
        assert UnitBytes(u) == UnitBytes(t[0]);
      }
    }
  }

  /** The bytes of a text tell it apart from every paired text exactly when it is paired itself. */
  lemma PairedIsFaithful(t: Text)
    ensures Paired(t) <==> (forall b :: Paired(b) && Encode(b) == Encode(t) ==> b == t)
  {
    RepairKeepsBytes(t);
    if Paired(t) {
      forall b | Paired(b) && Encode(b) == Encode(t)
        ensures b == t
      {
        EncodeDecides(b, t);
      }
    }
  }
}
