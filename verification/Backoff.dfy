/**
  The retry delay shared by handleDownload and handleConvert, in int64 nanoseconds.
 */
module Backoff {
  import opened Text

  const SECOND := 1_000_000_000

  function Pow2(n: nat): (r: nat)
    ensures r > 0
  {
    if n == 0 then 1 else 2 * Pow2(n - 1)
  }

  /** The int64 shift 1<<attempts. */
  function Shifted(attempts: nat): int {
    if attempts < 64 then Wrap64(Pow2(attempts)) else 0
  }

  /** time.Duration(1<<attempts) * time.Second, replaced by a minute when it is longer than that. */
  function Backoff(attempts: nat): int {
    var backoff := Wrap64(Shifted(attempts) * SECOND);
    if backoff > 60 * SECOND then 60 * SECOND else backoff
  }

  /** What the delay is meant to be: 2^attempts seconds, at most a minute. */
  function Intended(attempts: nat): int {
    (if attempts < 6 then Pow2(attempts) else 60) * SECOND
  }

  lemma {:induction false} Pow2Monotone(a: nat, b: nat)
    requires a <= b
    ensures Pow2(a) <= Pow2(b)
    decreases b
  {
    if a < b {
      Pow2Monotone(a, b - 1);
    }
  }

  /** Twice an int64, wrapped. */
  function Doubled(n: int): int {
    if 2 * n > MAX_INT64 then 2 * n - 0x1_0000_0000_0000_0000
    else if 2 * n < MIN_INT64 then 2 * n + 0x1_0000_0000_0000_0000
    else 2 * n
  }

  lemma DoubledIsWrapped(n: int)
    requires MIN_INT64 <= n <= MAX_INT64
    ensures Doubled(n) == Wrap64(2 * n)
  {
  }

  /** The int64 product, by repeated doubling. */
  function Product(attempts: nat): (r: int)
    ensures MIN_INT64 <= r <= MAX_INT64
  {
    if attempts == 0 then SECOND else Doubled(Product(attempts - 1))
  }

  lemma WrapOfWrap(n: int, k: int)
    ensures Wrap64(Wrap64(n) * k) == Wrap64(n * k)
  {
    var m := 0x1_0000_0000_0000_0000;
    var q := (n - Wrap64(n)) / m;
    assert n == Wrap64(n) + q * m;
    assert n * k == Wrap64(n) * k + q * k * m;
    SameWrap(Wrap64(n) * k, q * k);
  }

  lemma SameWrap(n: int, q: int)
    ensures Wrap64(n + q * 0x1_0000_0000_0000_0000) == Wrap64(n)
  {
  }

  /** Doubling computes the shifted product, also when the shift itself has run out of bits. */
  lemma {:induction false} ProductIsShifted(attempts: nat)
    ensures Product(attempts) == Wrap64(Pow2(attempts) * SECOND)
    decreases attempts
  {
    if attempts > 0 {
      ProductIsShifted(attempts - 1);
      DoubledIsWrapped(Product(attempts - 1));
      WrapOfWrap(Pow2(attempts - 1) * SECOND, 2);
    }
  }

  /** The values of the product once it wraps around, up to the last one that is not zero. */
  function Table(attempts: nat): int {
    if attempts < 44 then FirstWraps(attempts) else LastWraps(attempts)
  }

  function FirstWraps(attempts: nat): int {
    if attempts == 33 then 8589934592 * SECOND
    else if attempts == 34 then -1266874889709551616
    else if attempts == 35 then -2533749779419103232
    else if attempts == 36 then -5067499558838206464
    else if attempts == 37 then 8311744956033138688
    else if attempts == 38 then -1823254161643274240
    else if attempts == 39 then -3646508323286548480
    else if attempts == 40 then -7293016646573096960
    else if attempts == 41 then 3860710780563357696
    else if attempts == 42 then 7721421561126715392
    else -3003900951456120832
  }

  function LastWraps(attempts: nat): int {
    if attempts == 44 then -6007801902912241664
    else if attempts == 45 then 6431140267885068288
    else if attempts == 46 then -5584463537939415040
    else if attempts == 47 then 7277816997830721536
    else if attempts == 48 then -3891110078048108544
    else if attempts == 49 then -7782220156096217088
    else if attempts == 50 then 2882303761517117440
    else if attempts == 51 then 5764607523034234880
    else if attempts == 52 then -6917529027641081856
    else if attempts == 53 then 4611686018427387904
    else if attempts == 54 then -9223372036854775808
    else 0
  }

  lemma FirstWrapsDouble(attempts: nat)
    requires 33 < attempts < 44
    ensures FirstWraps(attempts) == Doubled(FirstWraps(attempts - 1))
  {
  }

  lemma LastWrapsDouble(attempts: nat)
    requires 44 < attempts
    ensures LastWraps(attempts) == Doubled(LastWraps(attempts - 1))
  {
  }

  lemma TableDoubles(attempts: nat)
    requires attempts > 33
    ensures Table(attempts) == Doubled(Table(attempts - 1))
  {
    if attempts < 44 {
      FirstWrapsDouble(attempts);
    } else if attempts > 44 {
      LastWrapsDouble(attempts);
    }
  }

  lemma PowerOf33()
    ensures Pow2(33) == 8589934592
  {
    Pow2Adds(11, 11);
    Pow2Adds(22, 11);
    assert Pow2(11) == 2048;
  }

  lemma {:induction false} Pow2Adds(a: nat, b: nat)
    ensures Pow2(a + b) == Pow2(a) * Pow2(b)
    decreases a
  {
    if a > 0 {
      Pow2Adds(a - 1, b);
    }
  }

  lemma {:induction false} SmallProducts(attempts: nat)
    requires attempts <= 33
    ensures Product(attempts) == Pow2(attempts) * SECOND
    decreases attempts
  {
    if attempts > 0 {
      SmallProducts(attempts - 1);
      Pow2Monotone(attempts, 33);
      PowerOf33();
    }
  }

  /** From 55 doublings on, 2^attempts seconds are a multiple of 2^64 nanoseconds. */
  lemma {:induction false} LargeProducts(attempts: nat)
    requires attempts >= 33
    ensures Product(attempts) == Table(attempts)
    decreases attempts
  {
    if attempts == 33 {
      SmallProducts(attempts);
      PowerOf33();
    } else {
      LargeProducts(attempts - 1);
      TableDoubles(attempts);
    }
  }

  lemma BackoffOfProduct(attempts: nat)
    ensures Backoff(attempts) == if Product(attempts) > 60 * SECOND then 60 * SECOND else Product(attempts)
  {
    if attempts < 64 {
      ProductIsShifted(attempts);
      WrapOfWrap(Pow2(attempts), SECOND);
    } else {
      LargeProducts(attempts);
    }
  }

  /** Past 33 attempts the product wraps around; in eight cases it still ends up above a minute. */
  predicate LuckyWrap(attempts: nat) {
    attempts in {37, 41, 42, 45, 47, 50, 51, 53}
  }

  lemma FirstWrapsLuck(attempts: nat)
    requires 33 < attempts < 44
    ensures if LuckyWrap(attempts) then FirstWraps(attempts) > 60 * SECOND else FirstWraps(attempts) <= 0
  {
  }

  lemma LastWrapsLuck(attempts: nat)
    requires 44 <= attempts
    ensures if LuckyWrap(attempts) then LastWraps(attempts) > 60 * SECOND else LastWraps(attempts) <= 0
  {
  }

  lemma LargeAttempts(attempts: nat)
    requires attempts > 33
    ensures if LuckyWrap(attempts) then Backoff(attempts) == 60 * SECOND else Backoff(attempts) <= 0
  {
    BackoffOfProduct(attempts);
    LargeProducts(attempts);
    if attempts < 44 {
      FirstWrapsLuck(attempts);
    } else {
      LastWrapsLuck(attempts);
    }
  }

  lemma SmallAttempts(attempts: nat)
    requires attempts <= 33
    ensures Backoff(attempts) == Intended(attempts)
  {
    BackoffOfProduct(attempts);
    SmallProducts(attempts);
    if attempts >= 6 {
      Pow2Monotone(6, attempts);
      assert Pow2(6) == 64;
    } else {
      Pow2Monotone(attempts, 5);
      assert Pow2(5) == 32;
    }
  }

  /**
    The delay is the intended one exactly for up to 33 attempts and for eight larger counts.
    Elsewhere the int64 product is negative or zero, and the retry is immediate.
   */
  lemma BackoffExact(attempts: nat)
    ensures Backoff(attempts) == Intended(attempts) <==> attempts <= 33 || LuckyWrap(attempts)
    ensures Backoff(attempts) <= 60 * SECOND
    ensures Backoff(attempts) != Intended(attempts) ==> Backoff(attempts) <= 0
  {
    if attempts <= 33 {
      SmallAttempts(attempts);
    } else {
      LargeAttempts(attempts);
    }
  }

  /** time.Sleep returns at once when the delay is not positive. */
  function Waited(attempts: nat): (r: nat)
    ensures r <= 60 * SECOND
  {
    BackoffExact(attempts);
    if Backoff(attempts) < 0 then 0 else Backoff(attempts)
  }

  /** The time slept after attempts 1, ..., n - 1. */
  function TotalBackoff(n: nat): nat {
    if n <= 1 then 0 else TotalBackoff(n - 1) + Waited(n - 1)
  }

  /**
    A job that fails all of its `n` attempts sleeps at most 62 seconds plus a minute per attempt
    past 6, and exactly that long for up to 34 attempts; from 35 on, the retry after the 34th was immediate.
   */
  lemma {:induction false} TotalBackoffBound(n: nat)
    requires n >= 6
    ensures TotalBackoff(n) <= (62 + 60 * (n - 6)) * SECOND
    ensures TotalBackoff(n) == (62 + 60 * (n - 6)) * SECOND <==> n <= 34
    decreases n
  {
    BackoffExact(n - 1);
    if n == 6 {
      FirstFive();
    } else {
      TotalBackoffBound(n - 1);
    }
  }

  lemma FirstFive()
    ensures TotalBackoff(6) == 62 * SECOND
  {
    SmallAttempts(1);
    SmallAttempts(2);
    SmallAttempts(3);
    SmallAttempts(4);
    SmallAttempts(5);
    assert Pow2(1) == 2 && Pow2(2) == 4 && Pow2(3) == 8 && Pow2(4) == 16 && Pow2(5) == 32;
    assert TotalBackoff(6) == Waited(1) + Waited(2) + Waited(3) + Waited(4) + Waited(5);
  }
}
