/**
 Retry delays: exponential with multiplicative jitter, over exact reals, with Go's 64-bit wrap-around and
 truncation written out.
 */
module Backoff {
  import opened Prelude

  const TWO64: int := 0x1_0000_0000_0000_0000

  function Pow5(n: nat): nat {
    if n == 0 then 1 else 5 * Pow5(n - 1)
  }

  /** Two's complement wrap-around of a 64-bit product. */
  function Wrap(x: int): (r: int)
    ensures Int64(r) && (Int64(x) ==> r == x)
  {
    (x + TWO63) % TWO64 - TWO63
  }

  /** Conversion of a real to an integer truncates toward zero. */
  function Trunc(x: real): int {
    if x >= 0.0 then x.Floor else -((-x).Floor)
  }

  predicate Jitter(j: real) {
    0.5 <= j < 1.5
  }

  function Clamp(attempt: int): nat {
    if attempt < 1 then 1 else attempt
  }

  /** The base duration as the program computes it: 5^(n-1) seconds, wrapped to 64 bits. */
  function Base(attempt: int): int {
    Wrap(Pow5(Clamp(attempt) - 1) * SECOND)
  }

  function Product(a: real, b: real): real {
    a * b
  }

  function Scaled(base: int, jitter: real): int {
    Trunc(Product(base as real, jitter))
  }

  /** The delay before retry `attempt`, in nanoseconds. */
  function Delay(attempt: int, jitter: real): int {
    Scaled(Base(attempt), jitter)
  }

  function NextAt(now: int, attempt: int, jitter: real): int {
    now + Delay(attempt, jitter)
  }

  /** The documented window: between half and one and a half times 5^(n-1) seconds. */
  predicate InWindow(attempt: nat, d: int)
    requires attempt >= 1
  {
    Pow5(attempt - 1) * SECOND <= 2 * d && 2 * d < 3 * Pow5(attempt - 1) * SECOND
  }

  lemma {:induction false} Pow5Mono(a: nat, b: nat)
    requires a <= b
    ensures 1 <= Pow5(a) <= Pow5(b)
    decreases b
  {
    if a < b {
      Pow5Mono(a, b - 1);
    } else if a > 0 {
      Pow5Mono(a - 1, a - 1);
    }
  }

  lemma Pow5At14()
    ensures Pow5(14) == 6_103_515_625 && Pow5(15) == 30_517_578_125
  {
    assert Pow5(3) == 125;
    assert Pow5(6) == 15_625;
    assert Pow5(9) == 1_953_125;
    assert Pow5(12) == 244_140_625;
  }

  lemma JitterBounds(b: real, jitter: real)
    requires b > 0.0 && Jitter(jitter)
    ensures 0.5 * b <= Product(b, jitter) < 1.5 * b
  {
    assert b * (jitter - 0.5) >= 0.0;
    assert b * (1.5 - jitter) > 0.0;
  }

  lemma TruncBounds(x: real, h: nat)
    requires h > 0 && h as real <= x && x < (3 * h) as real
    ensures h <= Trunc(x) < 3 * h
  {
    FloorBounds(x, h, 3 * h);
  }

  lemma FloorBounds(x: real, lo: int, hi: int)
    requires lo as real <= x < hi as real
    ensures lo <= x.Floor < hi
  {
  }

  lemma Halves(h: nat)
    ensures h as real == 0.5 * (2 * h) as real && (3 * h) as real == 1.5 * (2 * h) as real
  {
    var r := h as real;
    assert (2 * h) as real == 2.0 * r;
  }

  lemma Between(x: real, b: real, h: nat)
    requires h > 0 && b == (2 * h) as real && 0.5 * b <= x < 1.5 * b
    ensures h <= Trunc(x) < 3 * h
  {
    Halves(h);
    TruncBounds(x, h);
  }

  lemma TruncWindow(h: nat, jitter: real)
    requires Jitter(jitter) && h > 0
    ensures h <= Scaled(2 * h, jitter) < 3 * h
  {
    var b := (2 * h) as real;
    JitterBounds(b, jitter);
    Between(Product(b, jitter), b, h);
  }

  lemma BaseIsExact(attempt: nat)
    requires 1 <= attempt <= 15
    ensures Pow5(attempt - 1) > 0 && Base(attempt) == 2 * (Pow5(attempt - 1) * 500_000_000)
    ensures 3 * (Pow5(attempt - 1) * 500_000_000) < TWO63
  {
    Pow5At14();
    Pow5Mono(attempt - 1, 14);
  }

  lemma NoWrapInWindow(attempt: nat, jitter: real)
    requires 1 <= attempt <= 15 && Jitter(jitter)
    ensures InWindow(attempt, Delay(attempt, jitter)) && Int64(Delay(attempt, jitter))
  {
    BaseIsExact(attempt);
    var h := Pow5(attempt - 1) * 500_000_000;
    TruncWindow(h, jitter);
    assert Delay(attempt, jitter) == Scaled(2 * h, jitter);
  }

  lemma WrapOutOfWindow(attempt: nat, d: int)
    requires attempt >= 16 && Int64(d)
    ensures !InWindow(attempt, d)
  {
    Pow5At14();
    Pow5Mono(15, attempt - 1);
  }

  /**
   The delay lies in its documented window and fits in 64 bits for exactly the attempts 1 to 15; from 16 on
   the base wraps around, and no 64-bit delay can be in the window, whatever the jitter.
   */
  lemma WindowIffNoWrap(attempt: nat, jitter: real)
    requires attempt >= 1 && Jitter(jitter)
    ensures InWindow(attempt, Delay(attempt, jitter)) && Int64(Delay(attempt, jitter)) <==> attempt <= 15
  {
    if attempt <= 15 {
      NoWrapInWindow(attempt, jitter);
    } else if Int64(Delay(attempt, jitter)) {
      WrapOutOfWindow(attempt, Delay(attempt, jitter));
    }
  }

  /** Attempts below one wait like the first. */
  lemma EarlyAttemptsWaitLikeTheFirst(attempt: int, jitter: real)
    requires attempt < 1
    ensures Delay(attempt, jitter) == Delay(1, jitter)
  {
  }

  /** Successive windows are disjoint: delays grow strictly, whatever the jitters drawn. */
  lemma DelaysGrow(a: nat, b: nat, ja: real, jb: real)
    requires 1 <= a < b <= 15 && Jitter(ja) && Jitter(jb)
    ensures 0 < Delay(a, ja) < Delay(b, jb)
  {
    WindowIffNoWrap(a, ja);
    WindowIffNoWrap(b, jb);
    Pow5Mono(a, b - 1);
    assert Pow5(a) == 5 * Pow5(a - 1);
    Pow5Mono(a - 1, a - 1);
  }

  /** The delays scheduled for a job that uses up `m` attempts: one before each retry. */
  function Total(m: nat, jitter: nat -> real): int {
    if m <= 1 then 0 else Total(m - 1, jitter) + Delay(m - 1, jitter(m - 1))
  }

  /** Exhausting `m` attempts schedules between (5^(m-1) - 1) / 8 and 3 (5^(m-1) - 1) / 8 seconds of waiting. */
  lemma {:induction false} TotalWindow(m: nat, jitter: nat -> real)
    requires 1 <= m <= 16 && forall n: nat :: Jitter(jitter(n))
    ensures (Pow5(m - 1) - 1) * SECOND <= 8 * Total(m, jitter) <= 3 * (Pow5(m - 1) - 1) * SECOND
  {
    if m > 1 {
      TotalWindow(m - 1, jitter);
      WindowIffNoWrap(m - 1, jitter(m - 1));
      assert Pow5(m - 1) == 5 * Pow5(m - 2);
    }
  }
}
