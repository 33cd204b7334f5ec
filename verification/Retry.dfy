// How long a failed delivery waits before it is tried again. Durations are nanoseconds
// in 64-bit integers.
module Retry {
  const SECOND: int := 1_000_000_000
  const HOUR: int := 3_600 * SECOND

  newtype Int64 = n: int | -0x8000_0000_0000_0000 <= n <= 0x7FFF_FFFF_FFFF_FFFF

  function Min(a: int, b: int): int {
    if a < b then a else b
  }

  function Power2(n: nat): nat {
    if n == 0 then 1 else 2 * Power2(n - 1)
  }

  // 30 seconds, doubled for every earlier attempt, and never more than six hours.
  function Backoff(sequence: int): (b: int)
    ensures 30 * SECOND <= b <= 6 * HOUR
  {
    PowerPositive(if sequence < 1 then 0 else sequence - 1);
    Min(30 * SECOND * Power2(if sequence < 1 then 0 else sequence - 1), 6 * HOUR)
  }

  function Jittered(base: int, permille: int): int {
    base * permille / 1000
  }

  lemma {:induction false} PowerPositive(n: nat)
    ensures Power2(n) >= 1
  {
    if n > 0 { PowerPositive(n - 1); }
  }

  lemma {:induction false} PowerGrows(m: nat, n: nat)
    requires m <= n
    ensures Power2(m) <= Power2(n)
    decreases n
  {
    if m < n { PowerGrows(m, n - 1); }
  }

  // The jitter moves a whole number of microseconds by at most a tenth, without rounding.
  lemma JitterBounds(base: int, permille: int)
    requires 0 <= base && base % 1000 == 0 && 900 <= permille <= 1100
    ensures 900 * (base / 1000) <= Jittered(base, permille) <= 1100 * (base / 1000)
    ensures 900 * base <= base * permille <= 1100 * base
  {
    var q := base / 1000;
    assert base * permille == 1000 * (q * permille);
    assert q * 900 <= q * permille <= q * 1100;
  }

  lemma BackoffWhole(sequence: int)
    ensures Backoff(sequence) % 1000 == 0
  {
    var n: nat := if sequence < 1 then 0 else sequence - 1;
    assert 30 * SECOND * Power2(n) == 1000 * (30_000_000 * Power2(n));
  }

  lemma Capped(i: nat, n: nat)
    requires i <= n && 30 * SECOND * Power2(i) >= 6 * HOUR
    ensures Backoff(n + 1) == 6 * HOUR
  {
    PowerGrows(i, n);
  }

  // `hash` stands for the first two bytes of the digest of (delivery, sequence). The loop
  // doubles and caps in 64-bit arithmetic, which no intermediate value leaves.
  method RetryDelay(sequence: int, hash: bv16) returns (delay: Int64)
    ensures delay as int == Jittered(Backoff(sequence), 900 + (hash as int) % 201)
  {
    var n := if sequence < 1 then 1 else sequence;
    var base := (30 * SECOND) as Int64;
    var i := 1;
    while i < n
      invariant 1 <= i <= n
      invariant base as int == 30 * SECOND * Power2(i - 1) && base as int < 12 * HOUR
      decreases n - i
    {
      if base >= (6 * HOUR) as Int64 {
        Capped(i - 1, n - 1);
        base := (6 * HOUR) as Int64;
        break;
      }
      base := base * 2;
      i := i + 1;
    }
    if base > (6 * HOUR) as Int64 {
      base := (6 * HOUR) as Int64;
    }
    assert base as int == Backoff(n) == Backoff(sequence);
    var permille := (900 + (hash as int) % 201) as Int64;
    BackoffWhole(sequence);
    JitterBounds(base as int, permille as int);
    delay := base * permille / 1000;
  }

  // Every delay lies between 27 seconds and 6.6 hours.
  lemma DelayBounds(sequence: int, permille: int)
    requires 900 <= permille <= 1100
    ensures 27 * SECOND <= Jittered(Backoff(sequence), permille) <= 6 * HOUR + 36 * 60 * SECOND
  {
    BackoffWhole(sequence);
    JitterBounds(Backoff(sequence), permille);
  }

  lemma BackoffDoubles(n: int)
    requires 1 <= n <= 10
    ensures Backoff(1) == 30 * SECOND
    ensures if n < 10 then Backoff(n + 1) == 2 * Backoff(n) else Backoff(n) == 15360 * SECOND && Backoff(n + 1) == 6 * HOUR
  {
    assert Power2(9) == 512;
    assert Power2(10) == 1024;
    PowerGrows(n, 10);
    if n < 10 { PowerGrows(n, 9); }
  }

  // 30 seconds, 1, 2, 4, ... minutes, 256 minutes, and from the eleventh attempt on six hours.
  lemma BackoffValues(n: int)
    requires n >= 1
    ensures n == 1 ==> Backoff(n) == 30_000_000_000
    ensures 2 <= n <= 10 ==> Backoff(n) == 2 * Backoff(n - 1)
    ensures n >= 11 ==> Backoff(n) == 21_600_000_000_000
  {
    if n == 1 {
      BackoffDoubles(1);
    } else if n <= 10 {
      BackoffDoubles(n - 1);
    } else {
      assert Power2(10) == 1024;
      Capped(10, n - 1);
    }
  }

  // Up to the eleventh attempt each delay exceeds the one before, whatever the jitter.
  lemma DelayIncreases(n: int, permille: int, permille': int)
    requires 1 <= n <= 10
    requires 900 <= permille <= 1100 && 900 <= permille' <= 1100
    ensures Jittered(Backoff(n), permille) < Jittered(Backoff(n + 1), permille')
  {
    hide Jittered;
    BackoffDoubles(n);
    BackoffWhole(n);
    BackoffWhole(n + 1);
    JitterBounds(Backoff(n), permille);
    JitterBounds(Backoff(n + 1), permille');
  }

  // The waits of a delivery after its first `|permille|` attempts.
  function TotalWait(permille: seq<int>): int {
    if permille == [] then 0
    else TotalWait(permille[..|permille| - 1]) + Jittered(Backoff(|permille|), permille[|permille| - 1])
  }

  function TotalBackoff(n: nat): int {
    if n == 0 then 0 else TotalBackoff(n - 1) + Backoff(n)
  }

  lemma {:induction false} WaitBounds(permille: seq<int>)
    requires forall i :: 0 <= i < |permille| ==> 900 <= permille[i] <= 1100
    ensures TotalBackoff(|permille|) % 1000 == 0
    ensures 900 * (TotalBackoff(|permille|) / 1000) <= TotalWait(permille) <= 1100 * (TotalBackoff(|permille|) / 1000)
  {
    hide Jittered, Backoff;
    var n := |permille|;
    if n > 0 {
      WaitBounds(permille[..n - 1]);
      BackoffWhole(n);
      BackoffPositive(n);
      JitterBounds(Backoff(n), permille[n - 1]);
    }
  }

  lemma BackoffPositive(n: nat)
    ensures Backoff(n) > 0
  {
  }

  // A delivery that is given up after its twelfth attempt has waited eleven times, for
  // between 47061 and 57519 seconds in all.
  lemma TwelveAttemptsWait(permille: seq<int>)
    requires |permille| == 11
    requires forall i :: 0 <= i < |permille| ==> 900 <= permille[i] <= 1100
    ensures 47061 * SECOND <= TotalWait(permille) <= 57519 * SECOND
  {
    hide TotalWait;
    WaitBounds(permille);
    ElevenBackoffs();
  }

  lemma {:induction false} FirstBackoffs(n: nat)
    requires n <= 10
    ensures TotalBackoff(n) == 30 * SECOND * (Power2(n) - 1)
  {
    hide Backoff;
    if n > 0 {
      FirstBackoffs(n - 1);
      UncappedBackoff(n);
    }
  }

  lemma UncappedBackoff(n: nat)
    requires 1 <= n <= 10
    ensures Backoff(n) == 30 * SECOND * Power2(n - 1)
  {
    assert Power2(9) == 512;
    PowerGrows(n - 1, 9);
  }

  lemma ElevenBackoffs()
    ensures TotalBackoff(11) == 52290 * SECOND
  {
    FirstBackoffs(10);
    BackoffDoubles(10);
    assert Power2(10) == 1024;
  }
}
