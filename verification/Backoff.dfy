/** internal/retry/retry.go: the quartic backoff, in Go's int64 nanoseconds. */
module Backoff {

  const SECOND: int := 1_000_000_000
  const TWO_63: int := 0x8000_0000_0000_0000
  const TWO_64: int := 0x1_0000_0000_0000_0000

  /** The largest whole number of seconds a time.Duration can hold. */
  const MAX_SECONDS: int := 9_223_372_036

  /** Two's complement wrap-around of an int64 product. */
  function Wrap64(x: int): (r: int)
    ensures -TWO_63 <= r < TWO_63
    ensures (r - x) % TWO_64 == 0
    ensures -TWO_63 <= x < TWO_63 ==> r == x
  {
    (x + TWO_63) % TWO_64 - TWO_63
  }

  function Pow4(n: nat): nat { n * n * n * n }

  /** base + jitter, before the conversion to a Duration; `jitter` is rand.Intn(30). */
  function DelaySeconds(attempt: nat, jitter: nat): nat {
    Pow4(attempt) + 15 + jitter * (attempt + 1)
  }

  /** NextDelay: time.Duration(seconds) * time.Second. */
  function NextDelay(attempt: nat, jitter: nat): int {
    Wrap64(DelaySeconds(attempt, jitter) * SECOND)
  }

  /** time.Now().Add(delay).Unix(), when the clock shows `clock` seconds and `frac` nanoseconds. */
  function RetryAt(clock: int, frac: nat, delay: int): int {
    (clock * SECOND + frac + delay) / SECOND
  }

  lemma Pow4Monotone(m: nat, n: nat)
    requires m <= n
    ensures Pow4(m) <= Pow4(n)
  {
    MulMonotone(m, n, m, n);
    MulMonotone(m * m, n * n, m, n);
    MulMonotone(m * m * m, n * n * n, m, n);
  }

  lemma MulMonotone(a: nat, b: nat, c: nat, d: nat)
    requires a <= b && c <= d
    ensures a * c <= b * d
  {
    assert a * c <= b * c <= b * d;
  }

  /** The delay for attempts 1 to 309 lies between n^4 + 15 and n^4 + 15 + 29(n + 1) seconds
      for every jitter, is a whole number of seconds, and fits an int64 of nanoseconds. */
  lemma DelayBounds(n: nat, jitter: nat)
    requires 1 <= n <= 309 && jitter < 30
    ensures Pow4(n) + 15 <= DelaySeconds(n, jitter) <= Pow4(n) + 15 + 29 * (n + 1)
    ensures DelaySeconds(n, jitter) <= MAX_SECONDS
    ensures NextDelay(n, jitter) == DelaySeconds(n, jitter) * SECOND
  {
    JitterBounds(n, jitter);
    Pow4Monotone(n, 309);
    assert Pow4(309) == 9_116_621_361;
    Assembled(n, jitter, Pow4(n), jitter * (n + 1));
    ExactIff(n, jitter);
  }

  /** NextDelay is the backoff formula, spelled out: n^4 + 15 + j * (n + 1) whole seconds. */
  lemma DelayFormula(n: nat, jitter: nat)
    requires n <= 309 && jitter < 30
    ensures NextDelay(n, jitter) == (n * n * n * n + 15 + jitter * (n + 1)) * 1_000_000_000
  {
    ExactUpTo309(n);
    assert NextDelay(n, jitter) == DelaySeconds(n, jitter) * SECOND;
  }

  lemma JitterBounds(n: nat, jitter: nat)
    requires jitter < 30
    ensures 0 <= jitter * (n + 1) <= 29 * (n + 1)
  {
    MulMonotone(jitter, 29, n + 1, n + 1);
  }

  lemma Assembled(n: nat, jitter: nat, base: nat, extra: nat)
    requires n <= 309 && base == Pow4(n) <= 9_116_621_361 && extra == jitter * (n + 1) <= 29 * (n + 1)
    ensures base + 15 <= DelaySeconds(n, jitter) <= base + 15 + 29 * (n + 1) <= MAX_SECONDS
  {
    assert DelaySeconds(n, jitter) == base + 15 + extra;
  }

  /** The product is exact precisely when the number of seconds fits a Duration:
      one second more and NextDelay is no longer the backoff formula. */
  lemma ExactIff(n: nat, jitter: nat)
    ensures NextDelay(n, jitter) == DelaySeconds(n, jitter) * SECOND
       <==> DelaySeconds(n, jitter) <= MAX_SECONDS
  {
    var x := DelaySeconds(n, jitter);
    if x <= MAX_SECONDS {
      assert x * SECOND < TWO_63;
    } else {
      assert x * SECOND >= TWO_63;
    }
  }

  /** From attempt 310 on the formula no longer fits, whatever the jitter, and NextDelay is
      something else. */
  lemma OverflowFrom310(n: nat, jitter: nat)
    requires n >= 310
    ensures DelaySeconds(n, jitter) > MAX_SECONDS
    ensures NextDelay(n, jitter) != DelaySeconds(n, jitter) * SECOND
  {
    assert Pow4(310) == 9_235_210_000;
    Pow4Monotone(310, n);
    assert jitter * (n + 1) >= 0;
    ExactIff(n, jitter);
  }

  /** What a caller can know beforehand: the delay is the formula for every jitter rand.Intn(30)
      can give if and only if the attempt is at most 309. */
  lemma ExactUpTo309(n: nat)
    ensures (forall jitter: nat | jitter < 30 :: NextDelay(n, jitter) == DelaySeconds(n, jitter) * SECOND) <==> n <= 309
  {
    if n >= 310 {
      OverflowFrom310(n, 0);
    } else {
      forall jitter: nat | jitter < 30 ensures NextDelay(n, jitter) == DelaySeconds(n, jitter) * SECOND {
        if n == 0 {
          assert DelaySeconds(0, jitter) == 15 + jitter;
          ExactIff(0, jitter);
        } else {
          DelayBounds(n, jitter);
        }
      }
    }
  }

  /** What the overflow comes to: with no jitter at attempt 310 the product wraps to a delay of
      almost three centuries in the past. */
  lemma OverflowAt310()
    ensures NextDelay(310, 0) < 0
    ensures forall clock, frac: nat :: frac < SECOND ==> RetryAt(clock, frac, NextDelay(310, 0)) < clock
  {
    assert Pow4(310) == 9_235_210_000;
    assert DelaySeconds(310, 0) == 9_235_210_015;
    assert NextDelay(310, 0) == 9_235_210_015 * SECOND - TWO_64;
  }

  /** Successive backoffs never overlap from the third attempt on: the longest wait after
      attempt n is shorter than the shortest wait after attempt n + 1. */
  lemma Separated(n: nat, j1: nat, j2: nat)
    requires 3 <= n && n + 1 <= 309 && j1 < 30 && j2 < 30
    ensures NextDelay(n, j1) < NextDelay(n + 1, j2)
  {
    DelayBounds(n, j1);
    DelayBounds(n + 1, j2);
    Pow4Gap(n);
  }

  lemma Pow4Gap(n: nat)
    requires 3 <= n
    ensures Pow4(n) + 29 * (n + 1) < Pow4(n + 1)
  {
    Powers(n);
    MulMonotone(3, n, 3, n);
    MulMonotone(9, n * n, n, n);
  }

  /** The powers of m + 1 in those of m. */
  lemma Powers(m: nat)
    ensures var k := m + 1;
            && k * k * k == m * m * m + 3 * (m * m) + 3 * m + 1
            && k * k * k * k == m * m * m * m + 4 * (m * m * m) + 6 * (m * m) + 4 * m + 1
            && k * k * k * k * k
               == m * m * m * m * m + 5 * (m * m * m * m) + 10 * (m * m * m) + 10 * (m * m) + 5 * m + 1
  {
    var k, a, b, c := m + 1, m * m, m * m * m, m * m * m * m;
    assert k * k == a + 2 * m + 1;
    Times(k * k, a, 2 * m, 1, 0, 0, m);
    Times(k * k * k, b, 3 * a, 3 * m, 1, 0, m);
    Times(k * k * k * k, c, 4 * b, 6 * a, 4 * m, 1, m);
  }

  /** A sum times m + 1. */
  lemma Times(sum: int, a: int, b: int, c: int, d: int, e: int, m: int)
    requires sum == a + b + c + d + e
    ensures sum * (m + 1) == a * m + b * m + c * m + d * m + e * m + sum
  {
  }

  /** The bound is sharp: after the second attempt the ranges still overlap. */
  lemma OverlapAtTwo()
    ensures NextDelay(2, 29) > NextDelay(3, 0)
  {
    assert Pow4(2) == 16 && Pow4(3) == 81;
  }

  /** A retry decided at second `clock` becomes due exactly the backoff later. */
  lemma RetryAtExact(clock: int, frac: nat, n: nat, jitter: nat)
    requires 1 <= n <= 309 && jitter < 30 && frac < SECOND
    ensures RetryAt(clock, frac, NextDelay(n, jitter)) == clock + DelaySeconds(n, jitter)
  {
    DelayBounds(n, jitter);
    var d := DelaySeconds(n, jitter);
    assert clock * SECOND + frac + d * SECOND == (clock + d) * SECOND + frac;
  }

  /** The same with the formula spelled out. */
  lemma WhenRetried(now: int, frac: nat, n: nat, jitter: nat)
    requires 1 <= n <= 309 && jitter < 30 && frac < SECOND
    ensures RetryAt(now, frac, NextDelay(n, jitter)) == now + n * n * n * n + 15 + jitter * (n + 1)
  {
    RetryAtExact(now, frac, n, jitter);
  }
}
