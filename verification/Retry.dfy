/** Retrying a registry operation with a fixed or exponential delay. */
module Retry {
  import opened Common

  const MILLISECOND := 1_000_000
  const MAX_BACKOFF := 30_000 * MILLISECOND

  /** What one call of the operation gives, and whether the context is cancelled during the wait after it. */
  datatype Try<+T> = Success(value: T) | Failure(retryable: bool)

  datatype Outcome<+T> = Value(value: T) | Error(call: nat) | Cancelled

  const TWO_64 := 0x1_0000_0000_0000_0000
  const TWO_63 := 0x8000_0000_0000_0000

  /** Two's-complement wrap of a 64-bit result. */
  function Wrap64(x: int): (r: int)
    ensures -TWO_63 <= r < TWO_63
    ensures -TWO_63 <= x < TWO_63 ==> r == x
  {
    var m := x % TWO_64;
    if m >= TWO_63 then m - TWO_64 else m
  }

  /** 1 << n on 64 bits: shifting out gives zero. */
  function Shift64(n: nat): int { if n >= 64 then 0 else Wrap64(Pow2(n)) }

  /** factor times 100 ms in 64-bit nanoseconds, capped from above. */
  function Backoff(factor: int): int {
    var d := Wrap64(factor * (100 * MILLISECOND));
    if d > MAX_BACKOFF then MAX_BACKOFF else d
  }

  /** The wait after failed call number n, counted from 0. */
  function Delay(fixed: int, n: nat): int {
    if fixed != 0 then fixed else Backoff(Shift64(n))
  }

  /** The calls before number n all failed with a retryable error and their waits were not cancelled. */
  predicate AllRetried<T>(op: nat -> Try<T>, cancelled: nat -> bool, n: nat) {
    forall k :: 0 <= k < n ==> op(k).Failure? && op(k).retryable && !cancelled(k)
  }

  /** The number of waits from call n on: one after every retryable failure that may still be retried, up to
      and including the first cancelled one. */
  function WaitsFrom<T>(op: nat -> Try<T>, cancelled: nat -> bool, times: int, n: nat): (w: nat)
    ensures w <= if times > n then times - n else 0
    decreases times - n
  {
    if op(n).Success? || n >= times || !op(n).retryable then 0
    else if cancelled(n) then 1
    else 1 + WaitsFrom(op, cancelled, times, n + 1)
  }

  /** calls counts the calls made; waits lists the delays asked for. */
  method WithRetry<T>(op: nat -> Try<T>, cancelled: nat -> bool, times: int, fixed: int)
    returns (r: Outcome<T>, calls: nat, waits: seq<int>)
    ensures 1 <= calls <= 1 + if times > 0 then times else 0
    ensures AllRetried(op, cancelled, calls - 1)
    ensures r.Value? <==> op(calls - 1).Success?
    ensures r.Value? ==> r.value == op(calls - 1).value
    ensures r.Error? ==> r.call == calls - 1 && (calls > times || !op(calls - 1).retryable)
    ensures r.Cancelled? <==> op(calls - 1).Failure? && op(calls - 1).retryable && calls <= times && cancelled(calls - 1)
    ensures forall n: nat :: n <= (if times > 0 then times else 0) && AllRetried(op, cancelled, n) && op(n).Success? ==> calls == n + 1
    ensures |waits| == if r.Cancelled? then calls else calls - 1
    ensures |waits| == WaitsFrom(op, cancelled, times, 0)
    ensures forall k :: 0 <= k < |waits| ==> waits[k] == Delay(fixed, k)
    ensures fixed != 0 ==> forall k :: 0 <= k < |waits| ==> waits[k] == fixed
  {
    waits := [];
    var attempt := 0;
    while true
      invariant 0 <= attempt && (attempt == 0 || attempt <= times) && |waits| == attempt
      invariant AllRetried(op, cancelled, attempt)
      invariant WaitsFrom(op, cancelled, times, 0) == attempt + WaitsFrom(op, cancelled, times, attempt)
      invariant forall k :: 0 <= k < attempt ==> waits[k] == Delay(fixed, k)
      decreases times - attempt
    {
      match op(attempt) {
        case Success(v) => return Value(v), attempt + 1, waits;
        case Failure(retryable) =>
          if attempt >= times || !retryable { return Error(attempt), attempt + 1, waits; }
          waits := waits + [Delay(fixed, attempt)];
          if cancelled(attempt) { return Cancelled, attempt + 1, waits; }
          attempt := attempt + 1;
      }
    }
  }

  lemma {:induction false} Pow2Monotone(a: nat, b: nat)
    requires a <= b
    ensures Pow2(a) <= Pow2(b)
    decreases b
  {
    if a < b { Pow2Monotone(a, b - 1); }
  }

  lemma Pow2Values()
    ensures Pow2(8) == 256 && Pow2(9) == 512 && Pow2(36) == 0x10_0000_0000 && Pow2(37) == 0x20_0000_0000
  {
    assert Pow2(8) == 256 && Pow2(9) == 512;
    assert Pow2(16) == 0x1_0000;
    assert Pow2(24) == 0x100_0000;
    assert Pow2(32) == 0x1_0000_0000;
    assert Pow2(36) == 0x10_0000_0000;
  }

  /** Neither the shift nor the product wraps up to 2^36. */
  lemma BackoffExact(p: int)
    requires 1 <= p <= 0x10_0000_0000
    ensures Wrap64(p) == p
    ensures Backoff(p) == if p > 300 then MAX_BACKOFF else p * (100 * MILLISECOND)
  {
    assert Wrap64(p * (100 * MILLISECOND)) == p * (100 * MILLISECOND);
  }

  /** While 2^n * 100 ms fits in 64 bits, that is up to n == 36, the delay is the exponential one capped at 30 s. */
  lemma BackoffInRange(n: nat)
    requires n <= 36
    ensures 0 <= Delay(0, n) <= 30_000_000_000
    ensures n <= 8 ==> Delay(0, n) == Pow2(n) * 100_000_000
    ensures n > 8 ==> Delay(0, n) == 30_000_000_000
  {
    Pow2Values();
    Pow2Monotone(n, 36);
    BackoffExact(Pow2(n));
    if n <= 8 { Pow2Monotone(n, 8); } else { Pow2Monotone(9, n); }
  }

  // ---- Exactly which delays leave the range ----

  predicate InRange(d: int) { 0 <= d <= MAX_BACKOFF }

  /** The attempts whose product has the sign bit set after wrapping. */
  function NegativeAttempts(): set<nat> { {37, 39, 40, 41, 42, 43, 45, 47, 48, 49, 50, 55} }

  lemma LargePowers()
    ensures Pow2(37) == 0x20_0000_0000 && Pow2(38) == 0x40_0000_0000 && Pow2(39) == 0x80_0000_0000
    ensures Pow2(40) == 0x100_0000_0000 && Pow2(41) == 0x200_0000_0000 && Pow2(42) == 0x400_0000_0000 && Pow2(43) == 0x800_0000_0000
    ensures Pow2(44) == 0x1000_0000_0000 && Pow2(45) == 0x2000_0000_0000 && Pow2(46) == 0x4000_0000_0000 && Pow2(47) == 0x8000_0000_0000
    ensures Pow2(48) == 0x1_0000_0000_0000 && Pow2(49) == 0x2_0000_0000_0000 && Pow2(50) == 0x4_0000_0000_0000 && Pow2(51) == 0x8_0000_0000_0000
    ensures Pow2(52) == 0x10_0000_0000_0000 && Pow2(53) == 0x20_0000_0000_0000 && Pow2(54) == 0x40_0000_0000_0000 && Pow2(55) == 0x80_0000_0000_0000
    ensures Pow2(56) == 0x100_0000_0000_0000 && Pow2(60) == 0x1000_0000_0000_0000 && Pow2(63) == TWO_63
  {
    Pow2Values();
    assert Pow2(40) == 0x100_0000_0000;
    assert Pow2(44) == 0x1000_0000_0000;
    assert Pow2(48) == 0x1_0000_0000_0000;
    assert Pow2(52) == 0x10_0000_0000_0000;
    assert Pow2(56) == 0x100_0000_0000_0000;
    assert Pow2(60) == 0x1000_0000_0000_0000;
  }

  /** From 56 on the factor's trailing zeros push the whole product out of the word. */
  lemma {:induction false} LargeMultiple(n: nat)
    requires 56 <= n
    ensures exists q: nat :: Pow2(n) == q * 0x100_0000_0000_0000
    decreases n
  {
    LargePowers();
    if n == 56 {
      assert Pow2(n) == 1 * 0x100_0000_0000_0000;
    } else {
      LargeMultiple(n - 1);
      var q: nat :| Pow2(n - 1) == q * 0x100_0000_0000_0000;
      assert Pow2(n) == (2 * q) * 0x100_0000_0000_0000;
    }
  }

  lemma WordMultiple(q: int)
    ensures Wrap64(q * 0x100_0000_0000_0000 * (100 * MILLISECOND)) == 0
  {
    assert q * 0x100_0000_0000_0000 * (100 * MILLISECOND) == (q * 390625) * TWO_64;
    assert ((q * 390625) * TWO_64) % TWO_64 == 0;
  }

  lemma LateAttemptsAreZero(n: nat)
    requires 56 <= n
    ensures Delay(0, n) == 0
  {
    if n < 64 {
      LargePowers();
      LargeMultiple(n);
      var q: nat :| Pow2(n) == q * 0x100_0000_0000_0000;
      Pow2Monotone(n, 63);
      if n == 63 {
        assert Shift64(63) == -128 * 0x100_0000_0000_0000;
        WordMultiple(-128);
      } else {
        Pow2Monotone(n, 62);
        assert 2 * Pow2(62) == Pow2(63);
        WordMultiple(q);
      }
    }
  }

  /** The exact set: the delay of an attempt leaves [0, 30 s] precisely for these twelve attempts, by going negative. */
  lemma BackoffExactSet(n: nat)
    ensures InRange(Delay(0, n)) <==> n !in NegativeAttempts()
    ensures n in NegativeAttempts() ==> Delay(0, n) < 0
  {
    if n <= 36 { BackoffInRange(n); }
    else if n >= 56 { LateAttemptsAreZero(n); }
    else { LargePowers(); MiddleAttempts(n); }
  }

  /** A product's sign bit, read off its remainder modulo 2^64. */
  lemma Remainder(factor: int, q: int, m: int)
    requires factor * (100 * MILLISECOND) == q * TWO_64 + m && 0 <= m < TWO_64
    ensures m >= TWO_63 ==> Backoff(factor) < 0
    ensures m < TWO_63 ==> InRange(Backoff(factor))
  {
    assert (q * TWO_64 + m) % TWO_64 == m;
  }

  /** The wrapped products of the attempts in question. */
  lemma WrappedProducts()
    ensures Backoff(0x20_0000_0000) < 0
    ensures InRange(Backoff(0x40_0000_0000))
    ensures Backoff(0x80_0000_0000) < 0
    ensures Backoff(0x100_0000_0000) < 0
    ensures Backoff(0x200_0000_0000) < 0
    ensures Backoff(0x400_0000_0000) < 0
    ensures Backoff(0x800_0000_0000) < 0
    ensures InRange(Backoff(0x1000_0000_0000))
    ensures Backoff(0x2000_0000_0000) < 0
    ensures InRange(Backoff(0x4000_0000_0000))
    ensures Backoff(0x8000_0000_0000) < 0
    ensures Backoff(0x1_0000_0000_0000) < 0
    ensures Backoff(0x2_0000_0000_0000) < 0
    ensures Backoff(0x4_0000_0000_0000) < 0
    ensures InRange(Backoff(0x8_0000_0000_0000))
    ensures InRange(Backoff(0x10_0000_0000_0000))
    ensures InRange(Backoff(0x20_0000_0000_0000))
    ensures InRange(Backoff(0x40_0000_0000_0000))
    ensures Backoff(0x80_0000_0000_0000) < 0
  {
    Remainder(0x20_0000_0000, 0, 0xbebc_2000_0000_0000);
    Remainder(0x40_0000_0000, 1, 0x7d78_4000_0000_0000);
    Remainder(0x80_0000_0000, 2, 0xfaf0_8000_0000_0000);
    Remainder(0x100_0000_0000, 5, 0xf5e1_0000_0000_0000);
    Remainder(0x200_0000_0000, 11, 0xebc2_0000_0000_0000);
    Remainder(0x400_0000_0000, 23, 0xd784_0000_0000_0000);
    Remainder(0x800_0000_0000, 47, 0xaf08_0000_0000_0000);
    Remainder(0x1000_0000_0000, 95, 0x5e10_0000_0000_0000);
    Remainder(0x2000_0000_0000, 190, 0xbc20_0000_0000_0000);
    Remainder(0x4000_0000_0000, 381, 0x7840_0000_0000_0000);
    Remainder(0x8000_0000_0000, 762, 0xf080_0000_0000_0000);
    Remainder(0x1_0000_0000_0000, 1525, 0xe100_0000_0000_0000);
    Remainder(0x2_0000_0000_0000, 3051, 0xc200_0000_0000_0000);
    Remainder(0x4_0000_0000_0000, 6103, 0x8400_0000_0000_0000);
    Remainder(0x8_0000_0000_0000, 12207, 0x800_0000_0000_0000);
    Remainder(0x10_0000_0000_0000, 24414, 0x1000_0000_0000_0000);
    Remainder(0x20_0000_0000_0000, 48828, 0x2000_0000_0000_0000);
    Remainder(0x40_0000_0000_0000, 97656, 0x4000_0000_0000_0000);
    Remainder(0x80_0000_0000_0000, 195312, 0x8000_0000_0000_0000);
  }

  lemma LowerDelays()
    ensures Delay(0, 37) < 0
    ensures InRange(Delay(0, 38))
    ensures Delay(0, 39) < 0
    ensures Delay(0, 40) < 0
    ensures Delay(0, 41) < 0
    ensures Delay(0, 42) < 0
    ensures Delay(0, 43) < 0
    ensures InRange(Delay(0, 44))
    ensures Delay(0, 45) < 0
  {
    LargePowers();
    WrappedProducts();
  }

  lemma UpperDelays()
    ensures InRange(Delay(0, 46))
    ensures Delay(0, 47) < 0
    ensures Delay(0, 48) < 0
    ensures Delay(0, 49) < 0
    ensures Delay(0, 50) < 0
    ensures InRange(Delay(0, 51))
    ensures InRange(Delay(0, 52))
    ensures InRange(Delay(0, 53))
    ensures InRange(Delay(0, 54))
    ensures Delay(0, 55) < 0
  {
    LargePowers();
    WrappedProducts();
  }

  /** Nineteen values settle every attempt between 37 and 55. */
  lemma PickMiddle(f: nat -> int, n: nat)
    requires 37 <= n <= 55
    requires f(37) < 0 && InRange(f(38)) && f(39) < 0 && f(40) < 0 && f(41) < 0 && f(42) < 0 && f(43) < 0
    requires InRange(f(44)) && f(45) < 0 && InRange(f(46)) && f(47) < 0 && f(48) < 0 && f(49) < 0
    requires f(50) < 0 && InRange(f(51)) && InRange(f(52)) && InRange(f(53)) && InRange(f(54)) && f(55) < 0
    ensures if n in NegativeAttempts() then f(n) < 0 else InRange(f(n))
  {
  }

  function Exponential(): nat -> int { (n: nat) => Delay(0, n) }

  lemma MiddleAttempts(n: nat)
    requires 37 <= n <= 55
    ensures InRange(Exponential()(n)) <==> n !in NegativeAttempts()
    ensures n in NegativeAttempts() ==> Exponential()(n) < 0
  {
    LowerDelays();
    UpperDelays();
    PickMiddle(Exponential(), n);
  }

  /** The waits of attempts below n are all in range exactly up to n == 37. */
  lemma BackoffInRangeIff(n: nat)
    ensures (forall k: nat :: k < n ==> InRange(Delay(0, k))) <==> n <= 37
  {
    forall k: nat | k < n && n <= 37 ensures InRange(Delay(0, k)) { BackoffExactSet(k); }
    BackoffExactSet(37);
    if n > 37 { assert !InRange(Delay(0, 37)); }
  }

  /** What WithRetry asks for in exponential mode is all in range exactly when it waits at most 37 times. */
  lemma CallInRangeIff(waits: seq<int>)
    requires forall k :: 0 <= k < |waits| ==> waits[k] == Delay(0, k)
    ensures (forall k :: 0 <= k < |waits| ==> InRange(waits[k])) <==> |waits| <= 37
  {
    BackoffInRangeIff(|waits|);
    if |waits| > 37 {
      BackoffExactSet(37);
      assert waits[37] == Delay(0, 37);
    }
  }

  predicate WaitsInRange<T>(op: nat -> Try<T>, cancelled: nat -> bool, times: int) {
    forall k: nat :: k < WaitsFrom(op, cancelled, times, 0) ==> InRange(Delay(0, k))
  }

  function AlwaysFails<T>(): nat -> Try<T> { (k: nat) => Failure(true) }
  function NeverCancelled(): nat -> bool { (k: nat) => false }

  lemma {:induction false} AlwaysFailing<T>(times: int, n: nat)
    requires n <= times
    ensures WaitsFrom(AlwaysFails<T>(), NeverCancelled(), times, n) == times - n
    decreases times - n
  {
    if n < times { AlwaysFailing<T>(times, n + 1); }
  }

  /** In exponential mode: whatever the operation does, every wait is in range, exactly when times is at most 37. */
  lemma ExponentialModeSafeIff<T(!new)>(times: int)
    ensures (forall op: nat -> Try<T>, cancelled: nat -> bool :: WaitsInRange(op, cancelled, times)) <==> times <= 37
  {
    if times <= 37 {
      forall op: nat -> Try<T>, cancelled: nat -> bool ensures WaitsInRange(op, cancelled, times) {
        BackoffInRangeIff(WaitsFrom(op, cancelled, times, 0));
      }
    } else {
      var op, cancelled := AlwaysFails<T>(), NeverCancelled();
      AlwaysFailing<T>(times, 0);
      BackoffInRangeIff(WaitsFrom(op, cancelled, times, 0));
      BackoffExactSet(37);
      assert !WaitsInRange(op, cancelled, times);
    }
  }
}
