/** The canonical printer decides equality up to key order: it can be read back, so it is injective on
    meanings, and it forgets key order, so equal meanings print the same. */
module CanonicalProofs {
  import opened Tables
  import opened Utf8
  import opened CanonicalJson
  import opened Sequences

  // ----- reading strings back

  lemma ReadEscapeUnit(u: CodeUnit, rest: Text)
    requires EscapeUnit(u) != [u]
    ensures EscapeUnit(u)[0] == BACKSLASH
    ensures ReadEscape(EscapeUnit(u)[1..] + rest) == Some((u, rest))
  {
    var t := EscapeUnit(u)[1..] + rest;
    if |EscapeUnit(u)| == 2 {
      assert t[1..] == rest;
    } else {
      assert t[5..] == rest;
      HexDigits(u);
    }
  }

  predicate LowerHex(u: CodeUnit) { 0x30 <= u <= 0x39 || 0x61 <= u <= 0x66 }

  /** JSON.stringify escapes a code unit only if it must, by the short escape if there is one, and otherwise by four
      lower-case hexadecimal digits (section 3.2.2.2 of RFC 8785). */
  lemma EscapedOnlyIfNeeded(u: CodeUnit)
    ensures EscapeUnit(u) == [u] <==> u >= 0x20 && u != QUOTE && u != BACKSLASH && !(0xD800 <= u < 0xE000)
    ensures |EscapeUnit(u)| == 2 <==> u in {8, 9, 10, 12, 13, 0x22, 0x5C}
    ensures |EscapeUnit(u)| in {1, 2, 6}
    ensures |EscapeUnit(u)| == 6 ==> EscapeUnit(u)[1] == 0x75 && forall i :: 2 <= i < 6 ==> LowerHex(EscapeUnit(u)[i])
  {
  }

  lemma HexDigits(u: CodeUnit)
    ensures u == u / 0x1000 * 0x1000 + u / 0x100 % 0x10 * 0x100 + u / 0x10 % 0x10 * 0x10 + u % 0x10
    ensures u / 0x1000 < 0x10
  {
  }

  /** Reading past one printed code unit. */
  lemma StringStep(u: CodeUnit, text: Text, tail: Text)
    requires text == EscapeUnit(u) || (text == [u] && u != QUOTE && u != BACKSLASH && u >= 0x20)
    requires ReadString(tail).Some?
    ensures ReadString(text + tail) == Some(([u] + ReadString(tail).value.0, ReadString(tail).value.1))
  {
    var t := text + tail;
    if text == [u] {
      assert t[1..] == tail;
    } else {
      ReadEscapeUnit(u, tail);
      assert t[1..] == EscapeUnit(u)[1..] + tail;
    }
  }

  /** Reading past a surrogate pair. */
  lemma PairStep(h: CodeUnit, l: CodeUnit, tail: Text)
    requires High(h) && Low(l) && ReadString(tail).Some?
    ensures ReadString([h, l] + tail) == Some(([h, l] + ReadString(tail).value.0, ReadString(tail).value.1))
  {
    StringStep(l, [l], tail);
    StringStep(h, [h], [l] + tail);
    assert [h] + ([l] + tail) == [h, l] + tail;
    Reassociate([h], [l], ReadString(tail).value.0);
    assert [h] + [l] == [h, l];
  }

  /** A printed string is read back, whatever follows its closing quote. */
  lemma {:induction false} ReadQuoted(s: Text, rest: Text)
    requires rest != [] && rest[0] == QUOTE
    ensures ReadString(Escape(s) + rest) == Some((s, rest[1..]))
    decreases |s|
  {
    if s == [] {
      assert Escape(s) + rest == rest;
    } else if |s| >= 2 && High(s[0]) && Low(s[1]) {
      ReadQuoted(s[2..], rest);
      PairStep(s[0], s[1], Escape(s[2..]) + rest);
      assert s[..2] == [s[0], s[1]] && s == s[..2] + s[2..];
      Reassociate(s[..2], Escape(s[2..]), rest);
    } else {
      ReadQuoted(s[1..], rest);
      StringStep(s[0], EscapeUnit(s[0]), Escape(s[1..]) + rest);
      Reassociate(EscapeUnit(s[0]), Escape(s[1..]), rest);
      assert s == [s[0]] + s[1..];
    }
  }

  // ----- reading values back

  /** What may follow a value: nothing that could continue a number. */
  predicate Stops(rest: Text) { rest == [] || !NumberUnit(rest[0]) }

  lemma {:induction false} NumberRead(text: Text, rest: Text)
    requires Stops(rest) && forall i :: 0 <= i < |text| ==> NumberUnit(text[i])
    ensures NumberLength(text + rest) == |text|
  {
    if text == [] {
      assert text + rest == rest;
    } else {
      assert (text + rest)[1..] == text[1..] + rest;
      NumberRead(text[1..], rest);
    }
  }

  lemma ReadStringValue(s: Text, rest: Text)
    ensures ReadValue(Quoted(s) + rest) == Some((Str(s), rest))
  {
    ReadQuoted(s, [QUOTE] + rest);
    assert (Quoted(s) + rest)[1..] == Escape(s) + ([QUOTE] + rest);
    assert ([QUOTE] + rest)[1..] == rest;
  }

  predicate NumberUnits(t: Text) { forall i :: 0 <= i < |t| ==> NumberUnit(t[i]) }

  lemma UnitsJoin(a: Text, b: Text)
    requires NumberUnits(a) && NumberUnits(b)
    ensures NumberUnits(a + b)
  {
  }

  function PowerPart(mark: CodeUnit, sign: Text, exponent: Text): Text {
    if exponent == [] then [] else [mark] + (sign + exponent)
  }

  function FractionPart(fraction: Text): Text { if fraction == [] then [] else [0x2E] + fraction }

  lemma ExponentRead(mark: CodeUnit, sign: Text, exponent: Text)
    requires mark in {0x65, 0x45} && sign in {[], [0x2B], [0x2D]} && Digits(exponent)
    ensures Exponent([mark] + (sign + exponent)) && NumberUnits([mark] + (sign + exponent))
  {
    UnitsJoin(sign, exponent);
    UnitsJoin([mark], sign + exponent);
    var t := [mark] + (sign + exponent);
    assert t[1..] == sign + exponent;
    if sign == [] { assert t[1..] == exponent; } else { assert t[2..] == exponent; }
  }

  lemma FractionRead(fraction: Text, power: Text)
    requires (fraction == [] || Digits(fraction)) && Exponent(power) && NumberUnits(power)
    ensures Fraction(FractionPart(fraction) + power) && NumberUnits(FractionPart(fraction) + power)
  {
    UnitsJoin([0x2E], fraction);
    UnitsJoin(FractionPart(fraction), power);
    if fraction == [] {
      assert [] + power == power;
    } else {
      var t := [0x2E] + fraction + power;
      var i := |fraction| + 1;
      assert t[1..i] == fraction && t[i..] == power;
    }
  }

  lemma WholeRead(whole: Text, rest: Text)
    requires Digits(whole) && (whole[0] == 0x30 ==> |whole| == 1) && Fraction(rest) && NumberUnits(rest)
    ensures Unsigned(whole + rest) && NumberUnits(whole + rest)
  {
    var t := whole + rest;
    UnitsJoin(whole, rest);
    assert t[..|whole|] == whole && t[|whole|..] == rest && t[0] == whole[0];
  }

  /** Every number of RFC 8259, section 6, is one: minus, integer part, fraction part, exponent part. */
  lemma NumbersAreRead(whole: Text, fraction: Text, mark: CodeUnit, sign: Text, exponent: Text)
    requires Digits(whole) && (whole[0] == 0x30 ==> |whole| == 1)
    requires fraction == [] || Digits(fraction)
    requires mark in {0x65, 0x45} && sign in {[], [0x2B], [0x2D]} && (exponent == [] || Digits(exponent))
    ensures var unsigned := whole + (FractionPart(fraction) + PowerPart(mark, sign, exponent));
            Number(unsigned) && Number([0x2D] + unsigned)
  {
    if exponent != [] { ExponentRead(mark, sign, exponent); }
    FractionRead(fraction, PowerPart(mark, sign, exponent));
    WholeRead(whole, FractionPart(fraction) + PowerPart(mark, sign, exponent));
    SignRead(whole + (FractionPart(fraction) + PowerPart(mark, sign, exponent)));
  }

  lemma SignRead(unsigned: Text)
    requires Unsigned(unsigned) && NumberUnits(unsigned)
    ensures Number(unsigned) && Number([0x2D] + unsigned)
  {
    UnitsJoin([0x2D], unsigned);
    assert ([0x2D] + unsigned)[1..] == unsigned;
  }

  lemma ReadNumber(text: Text, rest: Text)
    requires Wellformed(Num(text)) && Stops(rest)
    ensures ReadValue(text + rest) == Some((Num(text), rest))
  {
    NumberRead(text, rest);
    assert (text + rest)[0] == text[0];
    assert (text + rest)[..|text|] == text && (text + rest)[|text|..] == rest;
  }

  lemma ReadLiteral(v: Json, rest: Text)
    requires v.Null? || v.Overflow? || v.Bool?
    ensures ReadValue(Canonical(v) + rest) == Some((Norm(v), rest))
  {
    var t := Canonical(v) + rest;
    assert t[0] == Canonical(v)[0];
    assert t[|Canonical(v)|..] == rest;
    assert t[..|Canonical(v)|] == Canonical(v);
  }

  /** Reading the canonical text of a value gives the value with its keys sorted, at every depth. */
  lemma {:induction false} ReadBack(v: Json, rest: Text)
    requires Wellformed(v) && Stops(rest)
    ensures ReadValue(Canonical(v) + rest) == Some((Norm(v), rest))
    decreases Size(v), 1
  {
    match v
    case Num(text) => ReadNumber(text, rest);
    case Str(s) => ReadStringValue(s, rest);
    case Arr(items) => ReadBackArray(items, rest);
    case Obj(members) => ReadBackObject(members, rest);
    case _ => ReadLiteral(v, rest);
  }

  /** Reading an array is reading its items after the opening bracket. */
  lemma ArrayStep(inner: Text)
    requires inner != [] && inner[0] != CLOSE_ARRAY && ReadItems(inner).Some?
    ensures ReadValue([OPEN_ARRAY] + inner) == Some((Arr(ReadItems(inner).value.0), ReadItems(inner).value.1))
  {
    assert ([OPEN_ARRAY] + inner)[1..] == inner;
    assert ([OPEN_ARRAY] + inner)[1] == inner[0];
  }

  lemma EmptyArray(rest: Text)
    ensures ReadValue([OPEN_ARRAY] + [] + [CLOSE_ARRAY] + rest) == Some((Arr([]), rest))
  {
    var t := [OPEN_ARRAY] + [] + [CLOSE_ARRAY] + rest;
    assert t[2..] == rest;
  }

  lemma StartsItem(items: seq<Json>, rest: Text)
    requires items != [] && Wellformed(items[0])
    ensures CanonicalItems(items) + rest != [] && (CanonicalItems(items) + rest)[0] != CLOSE_ARRAY
  {
    StartsValue(items[0]);
    assert CanonicalItems(items)[0] == Canonical(items[0])[0];
  }

  lemma {:induction false} ReadBackArray(items: seq<Json>, rest: Text)
    requires Wellformed(Arr(items))
    ensures ReadValue(Canonical(Arr(items)) + rest) == Some((Arr(NormItems(items)), rest))
    decreases Size(Arr(items)), 0
  {
    if items == [] {
      EmptyArray(rest);
    } else {
      var close := [CLOSE_ARRAY] + rest;
      ReadBackItems(items, close);
      assert close[1..] == rest;
      StartsItem(items, close);
      ArrayStep(CanonicalItems(items) + close);
      Reassociate([OPEN_ARRAY] + CanonicalItems(items), [CLOSE_ARRAY], rest);
      Reassociate([OPEN_ARRAY], CanonicalItems(items), close);
    }
  }

  /** Reading an object is reading its members after the opening brace. */
  lemma ObjectStep(inner: Text)
    requires inner != [] && inner[0] != CLOSE_OBJECT && ReadMembers(inner).Some?
    ensures ReadValue([OPEN_OBJECT] + inner) == Some((Obj(ReadMembers(inner).value.0), ReadMembers(inner).value.1))
  {
    assert ([OPEN_OBJECT] + inner)[1..] == inner;
    assert ([OPEN_OBJECT] + inner)[1] == inner[0];
  }

  lemma EmptyObject(rest: Text)
    ensures ReadValue([OPEN_OBJECT] + [] + [CLOSE_OBJECT] + rest) == Some((Obj([]), rest))
  {
    var t := [OPEN_OBJECT] + [] + [CLOSE_OBJECT] + rest;
    assert t[2..] == rest;
  }

  lemma {:induction false} ReadBackObject(members: seq<Member>, rest: Text)
    requires Wellformed(Obj(members))
    ensures ReadValue(Canonical(Obj(members)) + rest) == Some((Obj(NormMembers(Sort(members))), rest))
    decreases Size(Obj(members)), 0
  {
    var sorted := Sort(members);
    SortKeeps(members);
    if sorted == [] {
      EmptyObject(rest);
    } else {
      var close := [CLOSE_OBJECT] + rest;
      ReadBackMembers(sorted, close);
      assert close[1..] == rest;
      StartsMember(sorted, close);
      ObjectStep(CanonicalMembers(sorted) + close);
      Reassociate([OPEN_OBJECT] + CanonicalMembers(sorted), [CLOSE_OBJECT], rest);
      Reassociate([OPEN_OBJECT], CanonicalMembers(sorted), close);
    }
  }

  lemma StartsMember(ms: seq<Member>, rest: Text)
    requires ms != []
    ensures CanonicalMembers(ms) + rest != [] && (CanonicalMembers(ms) + rest)[0] == QUOTE
  {
  }

  lemma StartsValue(v: Json)
    requires Wellformed(v)
    ensures Canonical(v) != [] && Canonical(v)[0] != CLOSE_ARRAY
  {
  }

  /** Reading one item, up to what follows it. */
  lemma ItemStep(t: Text)
    requires ReadValue(t).Some? && ReadValue(t).value.1 != []
    ensures var v, rest := ReadValue(t).value.0, ReadValue(t).value.1;
            ReadItems(t) ==
              if rest[0] == CLOSE_ARRAY then Some(([v], rest[1..]))
              else if rest[0] == COMMA && ReadItems(rest[1..]).Some? then
                Some(([v] + ReadItems(rest[1..]).value.0, ReadItems(rest[1..]).value.1))
              else None
  {
  }

  lemma {:induction false} ReadBackItems(items: seq<Json>, rest: Text)
    requires items != [] && forall i :: 0 <= i < |items| ==> Wellformed(items[i])
    requires rest != [] && rest[0] == CLOSE_ARRAY
    ensures ReadItems(CanonicalItems(items) + rest) == Some((NormItems(items), rest[1..]))
    decreases SizeItems(items)
  {
    var value := Canonical(items[0]);
    if |items| == 1 {
      ReadBack(items[0], rest);
      ItemStep(value + rest);
      assert CanonicalItems(items) == value;
      assert NormItems(items) == [Norm(items[0])];
    } else {
      var tail := CanonicalItems(items[1..]) + rest;
      ReadBackItems(items[1..], rest);
      ReadBack(items[0], [COMMA] + tail);
      ItemStep(value + ([COMMA] + tail));
      assert ([COMMA] + tail)[1..] == tail;
      Reassociate(value, [COMMA] + CanonicalItems(items[1..]), rest);
      Reassociate([COMMA], CanonicalItems(items[1..]), rest);
    }
  }

  lemma KeyStep(key: Text, body: Text)
    ensures var t := Quoted(key) + [COLON] + body;
            t[0] == QUOTE && ReadString(t[1..]) == Some((key, [COLON] + body))
  {
    var t := Quoted(key) + [COLON] + body;
    var after := [QUOTE] + ([COLON] + body);
    ReadQuoted(key, after);
    assert t[1..] == Escape(key) + after;
    assert after[1..] == [COLON] + body;
  }

  /** Reading one member, up to what follows its value. */
  lemma MemberStep(key: Text, body: Text)
    requires ReadValue(body).Some? && ReadValue(body).value.1 != []
    ensures var t := Quoted(key) + [COLON] + body;
            var m, rest := Member(key, ReadValue(body).value.0), ReadValue(body).value.1;
            ReadMembers(t) ==
              if rest[0] == CLOSE_OBJECT then Some(([m], rest[1..]))
              else if rest[0] == COMMA && ReadMembers(rest[1..]).Some? then
                Some(([m] + ReadMembers(rest[1..]).value.0, ReadMembers(rest[1..]).value.1))
              else None
  {
    KeyStep(key, body);
    assert ([COLON] + body)[1..] == body;
  }

  lemma {:induction false} ReadBackMembers(ms: seq<Member>, rest: Text)
    requires ms != [] && forall i :: 0 <= i < |ms| ==> Wellformed(ms[i].value)
    requires rest != [] && rest[0] == CLOSE_OBJECT
    ensures ReadMembers(CanonicalMembers(ms) + rest) == Some((NormMembers(ms), rest[1..]))
    decreases SizeMembers(ms)
  {
    var value := Canonical(ms[0].value);
    var head := Quoted(ms[0].key) + [COLON];
    if |ms| == 1 {
      ReadBack(ms[0].value, rest);
      MemberStep(ms[0].key, value + rest);
      Reassociate(head, value, rest);
      assert CanonicalMembers(ms) == head + value;
      assert NormMembers(ms) == [Member(ms[0].key, Norm(ms[0].value))];
    } else {
      var tail := CanonicalMembers(ms[1..]) + rest;
      ReadBackMembers(ms[1..], rest);
      ReadBack(ms[0].value, [COMMA] + tail);
      MemberStep(ms[0].key, value + ([COMMA] + tail));
      assert ([COMMA] + tail)[1..] == tail;
      Unfold(ms, rest);
    }
  }

  lemma Unfold(ms: seq<Member>, rest: Text)
    requires |ms| > 1
    ensures CanonicalMembers(ms) + rest ==
              Quoted(ms[0].key) + [COLON] + (Canonical(ms[0].value) + ([COMMA] + (CanonicalMembers(ms[1..]) + rest)))
  {
    var head, value, more := Quoted(ms[0].key) + [COLON], Canonical(ms[0].value), CanonicalMembers(ms[1..]);
    assert CanonicalMembers(ms) == head + value + ([COMMA] + more);
    Reassociate(head + value, [COMMA] + more, rest);
    Reassociate([COMMA], more, rest);
    Reassociate(head, value, [COMMA] + (more + rest));
  }

  // ----- sorting

  lemma LessTransitive(a: Text, b: Text, c: Text)
    requires Less(a, b) && Less(b, c)
    ensures Less(a, c)
  {
  }

  lemma LessIrreflexive(a: Text)
    ensures !Less(a, a)
  {
  }

  lemma LessTotal(a: Text, b: Text)
    ensures a == b || Less(a, b) || Less(b, a)
  {
    if a != [] && b != [] && a[0] == b[0] {
      LessTotal(a[1..], b[1..]);
      assert a == [a[0]] + a[1..] && b == [b[0]] + b[1..];
    }
  }

  ghost predicate Ordered(ms: seq<Member>) {
    forall i, j :: 0 <= i < j < |ms| ==> Less(ms[i].key, ms[j].key)
  }

  lemma {:induction false} InsertOrdered(m: Member, ms: seq<Member>)
    requires Ordered(ms) && forall i :: 0 <= i < |ms| ==> ms[i].key != m.key
    ensures Ordered(Insert(m, ms))
  {
    if ms != [] {
      LessTotal(ms[0].key, m.key);
      if Less(ms[0].key, m.key) {
        InsertOrdered(m, ms[1..]);
        var r := Insert(m, ms[1..]);
        forall j | 0 <= j < |r|
          ensures Less(ms[0].key, r[j].key)
        {
          assert r[j] in multiset(r);
          assert r[j] == m || r[j] in ms[1..];
        }
      } else {
        forall j | 0 <= j < |ms|
          ensures Less(m.key, ms[j].key)
        {
          if j > 0 { LessTransitive(m.key, ms[0].key, ms[j].key); }
        }
      }
    }
  }

  lemma SameElements(a: seq<Member>, b: seq<Member>)
    requires multiset(a) == multiset(b)
    ensures |a| == |b| && forall m :: m in a <==> m in b
  {
    assert |multiset(a)| == |a| && |multiset(b)| == |b|;
    forall m
      ensures m in a <==> m in b
    {
      assert m in a <==> m in multiset(a);
      assert m in b <==> m in multiset(b);
    }
  }

  lemma {:induction false} SortOrders(ms: seq<Member>)
    requires DistinctKeys(ms)
    ensures Ordered(Sort(ms))
  {
    if ms != [] {
      var rest := Sort(ms[1..]);
      SortOrders(ms[1..]);
      SameElements(rest, ms[1..]);
      forall i | 0 <= i < |rest|
        ensures rest[i].key != ms[0].key
      {
        assert rest[i] in ms[1..];
      }
      InsertOrdered(ms[0], rest);
    }
  }

  /** The sorted entries are the same entries, strictly ordered by key. */
  lemma SortKeeps(ms: seq<Member>)
    requires DistinctKeys(ms)
    ensures Ordered(Sort(ms))
    ensures |Sort(ms)| == |ms| && (forall m :: m in Sort(ms) <==> m in ms)
    ensures (forall i :: 0 <= i < |ms| ==> Wellformed(ms[i].value)) ==>
              (forall i :: 0 <= i < |Sort(ms)| ==> Wellformed(Sort(ms)[i].value))
    ensures (forall i :: 0 <= i < |ms| ==> Finite(ms[i].value)) ==>
              (forall i :: 0 <= i < |Sort(ms)| ==> Finite(Sort(ms)[i].value))
  {
    SortOrders(ms);
    SameElements(Sort(ms), ms);
    forall i | 0 <= i < |Sort(ms)|
      ensures Sort(ms)[i] in ms
    {
    }
  }

  // ----- meanings

  /** The map of an object is determined by its entries, not by their order. */
  lemma {:induction false} MeaningOfMembers(ms: seq<Member>)
    requires DistinctKeys(ms)
    ensures forall k :: k in MeaningMembers(ms) <==> exists i :: 0 <= i < |ms| && ms[i].key == k
    ensures forall i :: 0 <= i < |ms| ==> MeaningMembers(ms)[ms[i].key] == Meaning(ms[i].value)
  {
    if ms != [] {
      MeaningOfMembers(ms[1..]);
      var rest := MeaningMembers(ms[1..]);
      forall k
        ensures k in MeaningMembers(ms) <==> exists i :: 0 <= i < |ms| && ms[i].key == k
      {
        if i :| 0 <= i < |ms| && ms[i].key == k {
          if i > 0 { assert ms[1..][i - 1].key == k; }
        }
        if k in rest {
          var i :| 0 <= i < |ms[1..]| && ms[1..][i].key == k;
          assert ms[i + 1].key == k;
        }
      }
      forall i | 0 <= i < |ms|
        ensures MeaningMembers(ms)[ms[i].key] == Meaning(ms[i].value)
      {
        if i > 0 { assert ms[1..][i - 1] == ms[i]; }
      }
    }
  }

  lemma MembersReordered(ms: seq<Member>, ns: seq<Member>)
    requires DistinctKeys(ms) && DistinctKeys(ns) && forall m :: m in ms <==> m in ns
    ensures MeaningMembers(ms) == MeaningMembers(ns)
  {
    MeaningOfMembers(ms);
    MeaningOfMembers(ns);
    var a, b := MeaningMembers(ms), MeaningMembers(ns);
    forall k
      ensures k in a <==> k in b
      ensures k in a ==> a[k] == b[k]
    {
      if k in a {
        var i :| 0 <= i < |ms| && ms[i].key == k;
        assert ms[i] in ns;
        var j :| 0 <= j < |ns| && ns[j] == ms[i];
      }
      if k in b {
        var i :| 0 <= i < |ns| && ns[i].key == k;
        assert ns[i] in ms;
      }
    }
  }

  lemma OrderedIsDistinct(ms: seq<Member>)
    requires Ordered(ms)
    ensures DistinctKeys(ms)
  {
    forall i, j | 0 <= i < j < |ms|
      ensures ms[i].key != ms[j].key
    {
      LessIrreflexive(ms[i].key);
    }
  }

  /** Sorting keys at every depth changes no meaning, as long as no number is beyond the range of a double. */
  lemma {:induction false} NormKeepsMeaning(v: Json)
    requires Wellformed(v) && Finite(v)
    ensures Meaning(Norm(v)) == Meaning(v)
    decreases Size(v)
  {
    match v
    case Arr(items) => NormItemsKeep(items);
    case Obj(members) =>
      var sorted := Sort(members);
      SortKeeps(members);
      OrderedIsDistinct(sorted);
      NormMembersKeep(sorted);
      MembersReordered(sorted, members);
    case _ =>
  }

  lemma {:induction false} NormItemsKeep(items: seq<Json>)
    requires forall i :: 0 <= i < |items| ==> Wellformed(items[i]) && Finite(items[i])
    ensures MeaningItems(NormItems(items)) == MeaningItems(items)
    decreases SizeItems(items)
  {
    if items != [] {
      NormKeepsMeaning(items[0]);
      NormItemsKeep(items[1..]);
    }
  }

  lemma {:induction false} NormMembersKeep(ms: seq<Member>)
    requires forall i :: 0 <= i < |ms| ==> Wellformed(ms[i].value) && Finite(ms[i].value)
    ensures MeaningMembers(NormMembers(ms)) == MeaningMembers(ms)
    decreases SizeMembers(ms)
  {
    if ms != [] {
      NormKeepsMeaning(ms[0].value);
      NormMembersKeep(ms[1..]);
    }
  }

  // ----- equal meanings print the same

  lemma {:induction false} SamePrint(v: Json, w: Json)
    requires Wellformed(v) && Wellformed(w) && Meaning(v) == Meaning(w)
    ensures Canonical(v) == Canonical(w)
    decreases Size(v)
  {
    match v
    case Arr(items) => SamePrintItems(items, w.items);
    case Obj(members) =>
      var a, b := Sort(members), Sort(w.members);
      SortKeeps(members);
      SortKeeps(w.members);
      OrderedIsDistinct(a);
      OrderedIsDistinct(b);
      MembersReordered(a, members);
      MembersReordered(b, w.members);
      SamePrintMembers(a, b);
    case _ =>
  }

  lemma {:induction false} SamePrintItems(a: seq<Json>, b: seq<Json>)
    requires forall i :: 0 <= i < |a| ==> Wellformed(a[i])
    requires forall i :: 0 <= i < |b| ==> Wellformed(b[i])
    requires MeaningItems(a) == MeaningItems(b)
    ensures CanonicalItems(a) == CanonicalItems(b)
    decreases SizeItems(a)
  {
    if a != [] {
      assert MeaningItems(a)[0] == Meaning(a[0]) && MeaningItems(b)[0] == Meaning(b[0]);
      assert MeaningItems(a)[1..] == MeaningItems(a[1..]) && MeaningItems(b)[1..] == MeaningItems(b[1..]);
      SamePrint(a[0], b[0]);
      SamePrintItems(a[1..], b[1..]);
    }
  }

  /** Two ordered entry lists of one map start with the same key: its least. */
  lemma LeastKey(a: seq<Member>, b: seq<Member>)
    requires Ordered(a) && Ordered(b) && a != [] && MeaningMembers(a) == MeaningMembers(b)
    ensures b != [] && a[0].key == b[0].key && Meaning(a[0].value) == Meaning(b[0].value)
    ensures MeaningMembers(a[1..]) == MeaningMembers(b[1..])
  {
    OrderedIsDistinct(a);
    OrderedIsDistinct(b);
    MeaningOfMembers(a);
    MeaningOfMembers(b);
    assert a[0].key in MeaningMembers(a);
    var j :| 0 <= j < |b| && b[j].key == a[0].key;
    assert b[0].key in MeaningMembers(b);
    var i :| 0 <= i < |a| && a[i].key == b[0].key;
    if i > 0 && j > 0 {
      LessTransitive(a[0].key, a[i].key, b[j].key);
      LessIrreflexive(a[0].key);
    }
    assert a[0].key == b[0].key;
    Remainder(a);
    Remainder(b);
  }

  lemma Remainder(ms: seq<Member>)
    requires Ordered(ms) && ms != []
    ensures MeaningMembers(ms[1..]) == MeaningMembers(ms) - {ms[0].key}
  {
    OrderedIsDistinct(ms);
    var rest := ms[1..];
    MeaningOfMembers(rest);
    forall i | 0 <= i < |rest|
      ensures rest[i].key != ms[0].key
    {
      assert rest[i] == ms[i + 1];
    }
    UpdateRemove(MeaningMembers(rest), ms[0].key, Meaning(ms[0].value));
  }

  lemma UpdateRemove(m: map<Text, Tree>, k: Text, v: Tree)
    requires k !in m
    ensures m[k := v] - {k} == m
  {
  }

  lemma {:induction false} SamePrintMembers(a: seq<Member>, b: seq<Member>)
    requires Ordered(a) && Ordered(b) && MeaningMembers(a) == MeaningMembers(b)
    requires forall i :: 0 <= i < |a| ==> Wellformed(a[i].value)
    requires forall i :: 0 <= i < |b| ==> Wellformed(b[i].value)
    ensures CanonicalMembers(a) == CanonicalMembers(b)
    ensures |a| == |b|
    decreases SizeMembers(a)
  {
    if a == [] {
      if b != [] { LeastKey(b, a); }
    } else {
      LeastKey(a, b);
      SamePrint(a[0].value, b[0].value);
      SamePrintMembers(a[1..], b[1..]);
    }
  }

  // ----- what is stored

  lemma {:induction false} StoredIsFinite(v: Json)
    requires Wellformed(v)
    ensures Wellformed(Stored(v)) && Finite(Stored(v))
  {
    match v
    case Arr(items) =>
      forall i | 0 <= i < |items|
        ensures Wellformed(StoredItems(items)[i]) && Finite(StoredItems(items)[i])
      {
        StoredIsFinite(items[i]);
      }
    case Obj(members) =>
      forall i | 0 <= i < |members|
        ensures Wellformed(StoredMembers(members)[i].value) && Finite(StoredMembers(members)[i].value)
      {
        StoredIsFinite(members[i].value);
      }
    case _ =>
  }

  lemma {:induction false} FiniteIsStored(v: Json)
    requires Finite(v)
    ensures Stored(v) == v
  {
    match v
    case Arr(items) =>
      forall i | 0 <= i < |items|
        ensures StoredItems(items)[i] == items[i]
      {
        FiniteIsStored(items[i]);
      }
    case Obj(members) =>
      forall i | 0 <= i < |members|
        ensures StoredMembers(members)[i] == members[i]
      {
        FiniteIsStored(members[i].value);
      }
    case _ =>
  }

  lemma {:induction false} InsertStored(m: Member, ms: seq<Member>)
    ensures StoredMembers(Insert(m, ms)) == Insert(Member(m.key, Stored(m.value)), StoredMembers(ms))
    decreases |ms|
  {
    if ms != [] && Less(ms[0].key, m.key) {
      InsertStored(m, ms[1..]);
      var r := [ms[0]] + Insert(m, ms[1..]);
      assert r[1..] == Insert(m, ms[1..]);
    } else {
      var r := [m] + ms;
      assert r[1..] == ms;
    }
  }

  lemma {:induction false} SortStored(ms: seq<Member>)
    ensures StoredMembers(Sort(ms)) == Sort(StoredMembers(ms))
    decreases |ms|
  {
    if ms != [] {
      SortStored(ms[1..]);
      InsertStored(ms[0], Sort(ms[1..]));
    }
  }

  /** A value prints as what is stored for it. */
  lemma {:induction false} StoredPrints(v: Json)
    ensures Canonical(Stored(v)) == Canonical(v)
    decreases Size(v)
  {
    match v
    case Arr(items) => StoredItemsPrint(items);
    case Obj(members) =>
      SortStored(members);
      StoredMembersPrint(Sort(members));
    case _ =>
  }

  lemma {:induction false} StoredItemsPrint(items: seq<Json>)
    ensures CanonicalItems(StoredItems(items)) == CanonicalItems(items)
    decreases SizeItems(items)
  {
    if items != [] {
      StoredPrints(items[0]);
      StoredItemsPrint(items[1..]);
    }
  }

  lemma {:induction false} StoredMembersPrint(ms: seq<Member>)
    ensures CanonicalMembers(StoredMembers(ms)) == CanonicalMembers(ms)
    decreases SizeMembers(ms)
  {
    if ms != [] {
      StoredPrints(ms[0].value);
      StoredMembersPrint(ms[1..]);
    }
  }

  /** An infinity at any depth makes a value differ from what is stored for it. */
  lemma {:induction false} StoredDiffers(v: Json)
    requires Wellformed(v) && !Finite(v)
    ensures Meaning(Stored(v)) != Meaning(v)
  {
    match v
    case Arr(items) =>
      var i :| 0 <= i < |items| && !Finite(items[i]);
      StoredDiffers(items[i]);
      MeaningAt(items, i);
      MeaningAt(StoredItems(items), i);
    case Obj(members) =>
      var i :| 0 <= i < |members| && !Finite(members[i].value);
      StoredDiffers(members[i].value);
      MeaningOfMembers(members);
      MeaningOfMembers(StoredMembers(members));
      assert MeaningMembers(members)[members[i].key] == Meaning(members[i].value);
      assert MeaningMembers(StoredMembers(members))[StoredMembers(members)[i].key] == Meaning(Stored(members[i].value));
    case _ =>
  }

  lemma {:induction false} MeaningAt(items: seq<Json>, i: nat)
    requires i < |items|
    ensures MeaningItems(items)[i] == Meaning(items[i])
  {
    if i > 0 { MeaningAt(items[1..], i - 1); }
  }

  // ----- canonical text can be hashed without loss

  lemma {:induction false} EscapePaired(s: Text)
    ensures Paired(Escape(s))
    decreases |s|
  {
    if s != [] {
      var n := FirstLength(s);
      EscapePaired(s[n..]);
      if n == 2 {
        assert Paired(s[..2]) by { assert s[..2][2..] == []; }
        PairedConcat(s[..2], Escape(s[2..]));
      } else {
        PlainPaired(EscapeUnit(s[0]));
        PairedConcat(EscapeUnit(s[0]), Escape(s[1..]));
      }
    }
  }

  lemma QuotedPaired(s: Text)
    ensures Paired(Quoted(s))
  {
    EscapePaired(s);
    PlainPaired([QUOTE]);
    PairedConcat([QUOTE], Escape(s));
    PairedConcat([QUOTE] + Escape(s), [QUOTE]);
  }

  lemma Enclosed(a: CodeUnit, inner: Text, b: CodeUnit)
    requires Paired(inner) && a < 0x80 && b < 0x80
    ensures Paired([a] + inner + [b])
  {
    PlainPaired([a]);
    PlainPaired([b]);
    PairedConcat([a], inner);
    PairedConcat([a] + inner, [b]);
  }

  lemma LiteralPaired(v: Json)
    requires Wellformed(v) && !v.Str? && !v.Arr? && !v.Obj?
    ensures Paired(Canonical(v))
  {
    match v
    case Num(text) => PlainPaired(text);
    case Bool(b) => PlainPaired(if b then TRUE_TEXT else FALSE_TEXT);
    case _ => PlainPaired(NULL_TEXT);
  }

  /** No surrogate in canonical text is unpaired. */
  lemma {:induction false} CanonicalPaired(v: Json)
    requires Wellformed(v)
    ensures Paired(Canonical(v))
    decreases Size(v)
  {
    match v
    case Arr(items) =>
      ItemsPaired(items);
      Enclosed(OPEN_ARRAY, CanonicalItems(items), CLOSE_ARRAY);
    case Obj(members) =>
      SortKeeps(members);
      MembersPaired(Sort(members));
      Enclosed(OPEN_OBJECT, CanonicalMembers(Sort(members)), CLOSE_OBJECT);
    case Str(s) => QuotedPaired(s);
    case _ => LiteralPaired(v);
  }

  lemma {:induction false} ItemsPaired(items: seq<Json>)
    requires forall i :: 0 <= i < |items| ==> Wellformed(items[i])
    ensures Paired(CanonicalItems(items))
    decreases SizeItems(items)
  {
    if items != [] {
      CanonicalPaired(items[0]);
      ItemsPaired(items[1..]);
      PlainPaired([COMMA]);
      PairedConcat([COMMA], CanonicalItems(items[1..]));
      PairedConcat(Canonical(items[0]), if |items| == 1 then [] else [COMMA] + CanonicalItems(items[1..]));
    }
  }

  lemma {:induction false} MembersPaired(ms: seq<Member>)
    requires forall i :: 0 <= i < |ms| ==> Wellformed(ms[i].value)
    ensures Paired(CanonicalMembers(ms))
    decreases SizeMembers(ms)
  {
    if ms != [] {
      var head := Quoted(ms[0].key) + [COLON];
      QuotedPaired(ms[0].key);
      CanonicalPaired(ms[0].value);
      MembersPaired(ms[1..]);
      PlainPaired([COLON]);
      PlainPaired([COMMA]);
      PairedConcat(Quoted(ms[0].key), [COLON]);
      PairedConcat(head, Canonical(ms[0].value));
      PairedConcat([COMMA], CanonicalMembers(ms[1..]));
      PairedConcat(head + Canonical(ms[0].value), if |ms| == 1 then [] else [COMMA] + CanonicalMembers(ms[1..]));
    }
  }

  // ----- the main results

  /** Canonical text is JSON that reads back as the stored value with sorted keys. */
  lemma CanonicalRoundTrip(v: Json)
    requires Wellformed(v)
    ensures ReadValue(Canonical(v)) == Some((Norm(v), []))
    ensures Meaning(Norm(v)) == Meaning(Stored(v))
  {
    var w := Stored(v);
    assert Canonical(v) + [] == Canonical(v);
    ReadBack(v, []);
    StoredIsFinite(v);
    StoredPrints(v);
    ReadBack(w, []);
    NormKeepsMeaning(w);
  }

  /** Two values print the same exactly when what is stored for them is equal up to the order of keys at every
      depth. */
  lemma CanonicalDecidesStored(v: Json, w: Json)
    requires Wellformed(v) && Wellformed(w)
    ensures Canonical(v) == Canonical(w) <==> Meaning(Stored(v)) == Meaning(Stored(w))
  {
    CanonicalRoundTrip(v);
    CanonicalRoundTrip(w);
    if Meaning(Stored(v)) == Meaning(Stored(w)) {
      StoredIsFinite(v);
      StoredIsFinite(w);
      SamePrint(Stored(v), Stored(w));
      StoredPrints(v);
      StoredPrints(w);
    }
  }

  /** Two finite values print the same exactly when they are equal up to the order of keys at every depth. */
  lemma CanonicalDecidesEquality(v: Json, w: Json)
    requires Wellformed(v) && Wellformed(w) && Finite(v) && Finite(w)
    ensures Canonical(v) == Canonical(w) <==> Meaning(v) == Meaning(w)
  {
    CanonicalDecidesStored(v, w);
    FiniteIsStored(v);
    FiniteIsStored(w);
  }

  /** And only finite values do: a value is told apart from every finite value that differs from it exactly when
      it has no number beyond the range of a double at any depth. */
  lemma DecidedExactlyIfFinite(v: Json)
    requires Wellformed(v)
    ensures Finite(v) <==>
            (forall w :: Wellformed(w) && Finite(w) ==> (Canonical(v) == Canonical(w) <==> Meaning(v) == Meaning(w)))
  {
    if Finite(v) {
      forall w | Wellformed(w) && Finite(w)
        ensures Canonical(v) == Canonical(w) <==> Meaning(v) == Meaning(w)
      {
        CanonicalDecidesEquality(v, w);
      }
    } else {
      StoredIsFinite(v);
      StoredPrints(v);
      StoredDiffers(v);
      assert Canonical(v) == Canonical(Stored(v));
    }
  }
}
