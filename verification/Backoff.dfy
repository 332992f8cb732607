/** The retry delay: exponential, capped, with equal jitter. Durations are time.Duration nanoseconds. */
module Backoff {

  const SECOND: int := 1_000_000_000
  const MAX_INT64: int := 0x7FFF_FFFF_FFFF_FFFF

  function Pow2(n: nat): nat { if n == 0 then 1 else 2 * Pow2(n - 1) }

  /** attempt, clamped to 0..8. */
  function Clamped(attempt: int): nat { if attempt < 0 then 0 else if attempt > 8 then 8 else attempt }

  /** 2 * time.Second * (1 << attempt), before the five-minute limit. */
  function Uncapped(attempt: int): int { 2 * SECOND * Pow2(Clamped(attempt)) }

  function Cap(attempt: int): int { if Uncapped(attempt) > 300 * SECOND then 300 * SECOND else Uncapped(attempt) }

  /** What rand.Int64N(cap/2 + 1) may return. */
  predicate Drawn(attempt: int, draw: int) { 0 <= draw <= Cap(attempt) / 2 }

  function ExponentialDelay(attempt: int, draw: int): (delay: int)
    requires Drawn(attempt, draw)
  {
    Cap(attempt) / 2 + draw
  }

  lemma Powers()
    ensures Pow2(0) == 1 && Pow2(1) == 2 && Pow2(2) == 4 && Pow2(3) == 8 && Pow2(4) == 16
    ensures Pow2(5) == 32 && Pow2(6) == 64 && Pow2(7) == 128 && Pow2(8) == 256
  {
    assert Pow2(4) == 2 * Pow2(3);
    assert Pow2(6) == 2 * Pow2(5);
  }

  /** Every delay lies between half its cap and its cap, between one second and five minutes, for every int
      attempt; and no intermediate value leaves the range of int64. */
  lemma DelayBounds(attempt: int, draw: int)
    requires Drawn(attempt, draw)
    ensures Cap(attempt) / 2 <= ExponentialDelay(attempt, draw) <= Cap(attempt)
    ensures SECOND <= ExponentialDelay(attempt, draw) <= 300 * SECOND
    ensures 0 < Uncapped(attempt) <= MAX_INT64 && Cap(attempt) / 2 + 1 <= MAX_INT64
    ensures Cap(attempt) % 2_000 == 0
  {
    Powers();
  }

  /** Every delay in that range is one draw's, and no other's. */
  lemma EveryDelayDrawn(attempt: int, delay: int)
    requires Cap(attempt) / 2 <= delay <= Cap(attempt)
    ensures exists draw :: Drawn(attempt, draw) && ExponentialDelay(attempt, draw) == delay
    ensures forall a, b :: Drawn(attempt, a) && Drawn(attempt, b) ==>
              (ExponentialDelay(attempt, a) == ExponentialDelay(attempt, b) ==> a == b)
  {
    Powers();
    assert Drawn(attempt, delay - Cap(attempt) / 2);
    assert ExponentialDelay(attempt, delay - Cap(attempt) / 2) == delay;
  }

  /** The longest total delay of the first n retries, by their retry counts 0, 1, ..., n-1. */
  function CapSum(n: nat): int { if n == 0 then 0 else CapSum(n - 1) + Cap(n - 1) }

  /** The total in closed form: 2^(n+1) - 2 seconds up to eight retries, 300 seconds for each one beyond. */
  lemma {:induction false} CapSumClosed(n: nat)
    ensures CapSum(n) == if n <= 8 then (Pow2(n + 1) - 2) * SECOND else (510 + 300 * (n - 8)) * SECOND
  {
    Powers();
    if n > 0 {
      CapSumClosed(n - 1);
    }
  }
}
