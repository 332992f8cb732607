/** The names of consumers: the process nonce in hexadecimal, a dash, and the consumer's index. */
module Pool {

  function DecimalDigit(d: nat): char
    requires d < 10
  {
    "0123456789"[d]
  }

  /** strconv's rendering of a non-negative index. */
  function Decimal(n: nat): (s: string)
    ensures s != [] && (|s| == 1 <==> n < 10)
  {
    (if n < 10 then [] else Decimal(n / 10)) + [DecimalDigit(n % 10)]
  }

  predicate HexNonce(s: string) { |s| == 16 && forall i :: 0 <= i < |s| ==> s[i] in "0123456789abcdef" }

  /** fmt.Sprintf("%x-%d", nonce, i) for an eight-byte nonce. */
  function OwnerName(nonce: string, i: nat): string { nonce + "-" + Decimal(i) }

  lemma {:induction false} DecimalInjective(a: nat, b: nat)
    requires Decimal(a) == Decimal(b)
    ensures a == b
  {
    var s, t := Decimal(a), Decimal(b);
    assert s[|s| - 1] == DecimalDigit(a % 10) && t[|t| - 1] == DecimalDigit(b % 10);
    DigitsInjective(a % 10, b % 10);
    if a >= 10 && b >= 10 {
      assert s[..|s| - 1] == Decimal(a / 10) && t[..|t| - 1] == Decimal(b / 10);
      DecimalInjective(a / 10, b / 10);
    }
  }

  lemma DigitsInjective(d: nat, e: nat)
    requires d < 10 && e < 10 && DecimalDigit(d) == DecimalDigit(e)
    ensures d == e
  {
  }

  /** Two consumers, of one process or of two with different nonces, have different names. */
  lemma OwnersUnique(m: string, i: nat, n: string, k: nat)
    requires HexNonce(m) && HexNonce(n)
    ensures OwnerName(m, i) == OwnerName(n, k) <==> m == n && i == k
  {
    if OwnerName(m, i) == OwnerName(n, k) {
      assert OwnerName(m, i)[..16] == m && OwnerName(n, k)[..16] == n;
      assert OwnerName(m, i)[17..] == Decimal(i) && OwnerName(n, k)[17..] == Decimal(k);
      DecimalInjective(i, k);
    }
  }
}
