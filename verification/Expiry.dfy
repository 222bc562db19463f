/** When a bucket expires, in nanoseconds since the Unix epoch: the catalog, the dispatch timeout and the retry
    clamp agree on one instant. */
module Expiry {
  const SECOND: int := 1_000_000_000
  const MAX64: int := 0x7fff_ffff_ffff_ffff
  const MIN64: int := -0x8000_0000_0000_0000

  /** The machine's wrap-around of a 64-bit product. */
  function Wrap64(x: int): int { (x - MIN64) % (MAX64 - MIN64 + 1) + MIN64 }

  /** The product modulo 2^64, within the range of a 64-bit number. */
  lemma WrapExactly(x: int)
    ensures MIN64 <= Wrap64(x) <= MAX64 && (x - Wrap64(x)) % 0x1_0000_0000_0000_0000 == 0
  {
  }

  /** Go's remainder and quotient, which truncate toward zero. */
  function Rem(a: int, b: int): int
    requires b > 0
  {
    if a >= 0 then a % b else -((-a) % b)
  }

  function Quot(a: int, b: int): int
    requires b > 0
  {
    if a >= 0 then a / b else -((-a) / b)
  }

  /** Whole seconds, rounding down, as `Time.Unix` gives them. */
  function UnixSeconds(t: int): int { t / SECOND }

  /** The difference of two times, which saturates at the bounds of a duration. */
  function Sub(a: int, b: int): int { if a - b > MAX64 then MAX64 else if a - b < MIN64 then MIN64 else a - b }

  datatype Policy = Policy(interval: int, retained: int, maxBytes: int)

  predicate Valid(p: Policy) {
    && p.interval > 0 && Rem(p.interval, SECOND) == 0
    && p.retained >= 0
    && !(p.maxBytes < 0 || (p.maxBytes > 0 && p.maxBytes < 4 * 1024 * 1024))
    && !(p.retained == 0 && p.maxBytes == 0)
    && !(p.retained > Quot(MAX64, p.interval))
  }

  function BucketStart(now: int, interval: int): int
    requires interval >= SECOND
  {
    var seconds := Quot(interval, SECOND);
    var value := UnixSeconds(now);
    var remainder := Rem(value, seconds);
    var up := if remainder < 0 then remainder + seconds else remainder;
    (value - up) * SECOND
  }

  predicate Retains(start: int, p: Policy, now: int)
    requires p.interval >= SECOND
  {
    var current := BucketStart(now, p.interval);
    var aligned := Rem(UnixSeconds(start), Quot(p.interval, SECOND)) == 0;
    if p.retained == 0 then aligned && start <= current
    else
      var oldest := current + Wrap64(-(p.retained - 1) * p.interval);
      aligned && oldest <= start <= current
  }

  /** The instant that the dispatcher and the retry clamp compute. */
  function Expires(start: int, p: Policy): int { start + Wrap64(p.retained * p.interval) }

  /** Whether the dispatcher starts a receipt, and for how long. */
  function Remaining(start: int, p: Policy, now: int): int { Sub(Expires(start, p), now) }

  predicate Dispatches(start: int, p: Policy, now: int) { p.retained > 0 ==> Remaining(start, p, now) > 0 }

  /** The next attempt of a receipt whose claim is released; `zero` says that the processor has no bucket. */
  function NextAttempt(start: int, zero: bool, p: Policy, now: int, delay: int): int {
    var next := now + delay;
    if !zero && p.retained > 0 && next > Expires(start, p) then Expires(start, p) else next
  }

  // ---------------------------------------------------------------- no overflow

  lemma QuotientBounds(a: int, b: int)
    requires a >= 0 && b > 0
    ensures Quot(a, b) * b <= a < Quot(a, b) * b + b
  {
  }

  lemma MultiplyMonotone(a: int, b: int, k: int)
    requires a <= b && k >= 0
    ensures a * k <= b * k
  {
  }

  lemma WrapIdentity(x: int)
    requires MIN64 <= x <= MAX64
    ensures Wrap64(x) == x
  {
  }

  lemma NoOverflow(p: Policy)
    requires Valid(p)
    ensures p.retained * p.interval <= MAX64 && Wrap64(p.retained * p.interval) == p.retained * p.interval
    ensures p.retained > 0 ==> Wrap64(-(p.retained - 1) * p.interval) == -(p.retained - 1) * p.interval
  {
    QuotientBounds(MAX64, p.interval);
    MultiplyMonotone(p.retained, Quot(MAX64, p.interval), p.interval);
    assert 0 <= p.retained * p.interval;
    WrapIdentity(p.retained * p.interval);
    if p.retained > 0 {
      MultiplyMonotone(p.retained - 1, p.retained, p.interval);
      MultiplyMonotone(0, p.retained - 1, p.interval);
      assert -(p.retained - 1) * p.interval == -((p.retained - 1) * p.interval);
      WrapIdentity(-(p.retained - 1) * p.interval);
    }
  }

  // ---------------------------------------------------------------- windows

  /** A time on a window boundary. */
  ghost predicate OnBoundary(t: int, interval: int) { exists k: int :: t == k * interval }

  lemma WholeSeconds(interval: int)
    requires interval > 0 && Rem(interval, SECOND) == 0
    ensures interval == Quot(interval, SECOND) * SECOND && Quot(interval, SECOND) > 0
  {
  }

  /** Rounding the truncated remainder up to a floor, for negative times too. */
  lemma FloorRemainder(value: int, seconds: int)
    requires seconds > 0
    ensures var r := Rem(value, seconds);
            var up := if r < 0 then r + seconds else r;
            0 <= up < seconds && exists k: int :: value - up == k * seconds
  {
    var r := Rem(value, seconds);
    var up := if r < 0 then r + seconds else r;
    if value >= 0 {
      assert value - up == (value / seconds) * seconds;
    } else {
      var q := (-value) / seconds;
      assert -value == q * seconds + (-value) % seconds;
      if r < 0 {
        assert value - up == (-q - 1) * seconds by { assert (-q - 1) * seconds == -(q * seconds) - seconds; }
      } else {
        assert value - up == (-q) * seconds by { assert (-q) * seconds == -(q * seconds); }
      }
    }
  }

  /** The window of `now`: on a boundary, not after `now`, less than one interval before it. */
  lemma StartIsFloor(now: int, interval: int)
    requires interval > 0 && Rem(interval, SECOND) == 0
    ensures OnBoundary(BucketStart(now, interval), interval)
    ensures BucketStart(now, interval) <= now < BucketStart(now, interval) + interval
  {
    WholeSeconds(interval);
    var seconds := Quot(interval, SECOND);
    var value := UnixSeconds(now);
    FloorRemainder(value, seconds);
    var r := Rem(value, seconds);
    var up := if r < 0 then r + seconds else r;
    var k: int :| value - up == k * seconds;
    assert BucketStart(now, interval) == (value - up) * SECOND == k * seconds * SECOND;
    assert k * seconds * SECOND == k * interval;
    assert value * SECOND <= now < value * SECOND + SECOND;
    assert (value - up) * SECOND == value * SECOND - up * SECOND;
    assert (seconds - up) * SECOND >= SECOND;
  }

  lemma RemainderZero(a: int, b: int)
    requires b > 0
    ensures Rem(a, b) == 0 <==> exists k: int :: a == k * b
  {
    if Rem(a, b) == 0 {
      var q := Quot(a, b);
      if a >= 0 { assert a == q * b; } else { assert -a == ((-a) / b) * b; assert q * b == -(((-a) / b) * b); }
    }
    if k: int :| a == k * b {
      Divides(k, b);
      Divides(-k, b);
      assert -a == (-k) * b;
    }
  }

  lemma Divides(k: int, b: int)
    requires b > 0
    ensures (k * b) % b == 0
  {
    Unique(k, 0, (k * b) / b, (k * b) % b, b);
  }

  lemma Unique(q: int, r: int, q': int, r': int, b: int)
    requires 0 <= r < b && 0 <= r' < b && q * b + r == q' * b + r'
    ensures q == q' && r == r'
  {
    if q < q' { Below(q, q', b); }
    if q' < q { Below(q', q, b); }
  }

  lemma Below(q: int, q': int, b: int)
    requires q < q' && b > 0
    ensures q * b + b <= q' * b
  {
    MultiplyMonotone(q + 1, q', b);
    assert (q + 1) * b == q * b + b;
  }

  /** The catalog's test for alignment is a test for a boundary, for starts in whole seconds. */
  lemma AlignedIsBoundary(start: int, interval: int)
    requires interval > 0 && Rem(interval, SECOND) == 0 && Rem(start, SECOND) == 0
    ensures Rem(UnixSeconds(start), Quot(interval, SECOND)) == 0 <==> OnBoundary(start, interval)
  {
    WholeSeconds(interval);
    var seconds, value := Quot(interval, SECOND), UnixSeconds(start);
    assert start == value * SECOND;
    RemainderZero(value, seconds);
    if k: int :| value == k * seconds { assert start == k * interval by { assert k * seconds * SECOND == k * interval; } }
    if k: int :| start == k * interval {
      assert start == (k * seconds) * SECOND by { assert k * interval == (k * seconds) * SECOND; }
      assert value == k * seconds;
    }
  }

  /** Two boundaries that differ by less than an interval are equal, so `<` means at least one interval apart. */
  lemma BoundariesApart(a: int, b: int, interval: int)
    requires interval > 0 && OnBoundary(a, interval) && OnBoundary(b, interval) && a < b
    ensures a + interval <= b
  {
    var k: int :| a == k * interval;
    var l: int :| b == l * interval;
    if l <= k { MultiplyMonotone(l, k, interval); }
    Below(k, l, interval);
  }

  lemma ShiftBoundary(a: int, n: int, interval: int)
    requires OnBoundary(a, interval)
    ensures OnBoundary(a + n * interval, interval)
  {
    var k: int :| a == k * interval;
    assert a + n * interval == (k + n) * interval;
  }

  /** The policies that validation admits: whole seconds, spans that fit in a duration, and a bound by age or by a size of at least
      4 MiB. */
  lemma ValidExactly(p: Policy)
    ensures Valid(p) <==>
            && p.interval > 0 && (exists k: int :: p.interval == k * SECOND) && p.retained >= 0 && p.retained * p.interval <= MAX64
            && (p.maxBytes == 0 || p.maxBytes >= 4_194_304) && (p.retained > 0 || p.maxBytes > 0)
  {
    RemainderZero(p.interval, SECOND);
    if p.interval > 0 && p.retained >= 0 {
      QuotientBounds(MAX64, p.interval);
      var q := Quot(MAX64, p.interval);
      if p.retained <= q { MultiplyMonotone(p.retained, q, p.interval); } else { Below(q, p.retained, p.interval); }
    }
  }

  /** The difference of two times is exact as far as a duration reaches and saturates beyond. */
  lemma SubExactly(a: int, b: int)
    ensures MIN64 <= Sub(a, b) <= MAX64
    ensures MIN64 <= a - b <= MAX64 ==> Sub(a, b) == a - b
    ensures a - b > MAX64 ==> Sub(a, b) == MAX64
    ensures a - b < MIN64 ==> Sub(a, b) == MIN64
  {
  }

  /** Without a bucket, or without a bound by age, a retry is due after its delay. */
  lemma RetryWithoutExpiry(start: int, zero: bool, p: Policy, now: int, delay: int)
    requires zero || p.retained == 0
    ensures NextAttempt(start, zero, p, now, delay) == now + delay
  {
  }

  // ---------------------------------------------------------------- one expiry instant

  /** The catalog's test without the machine's wrap-around. */
  lemma RetainsUnwrapped(start: int, p: Policy, now: int, back: int)
    requires Valid(p) && back == -(p.retained - 1) * p.interval
    ensures Retains(start, p, now) <==>
            && Rem(UnixSeconds(start), Quot(p.interval, SECOND)) == 0 && start <= BucketStart(now, p.interval)
            && (p.retained > 0 ==> BucketStart(now, p.interval) + back <= start)
  {
    NoOverflow(p);
  }

  lemma NotAfter(start: int, current: int, now: int, interval: int)
    requires interval > 0 && OnBoundary(start, interval) && OnBoundary(current, interval) && current <= now < current + interval
    ensures start <= current <==> start <= now
  {
    if start > current { BoundariesApart(current, start, interval); }
  }

  /** MAIN: a bucket is retained exactly when it starts on a boundary, has started, and `now` is before its expiry. */
  lemma RetainedExactly(start: int, p: Policy, now: int)
    requires Valid(p) && Rem(start, SECOND) == 0
    ensures Retains(start, p, now) <==>
            OnBoundary(start, p.interval) && start <= now && (p.retained > 0 ==> now < start + p.retained * p.interval)
  {
    var current, back := BucketStart(now, p.interval), -(p.retained - 1) * p.interval;
    StartIsFloor(now, p.interval);
    AlignedIsBoundary(start, p.interval);
    RetainsUnwrapped(start, p, now, back);
    if OnBoundary(start, p.interval) {
      NotAfter(start, current, now, p.interval);
      WindowsBack(start, current, p, now);
    }
  }

  lemma WindowsBack(start: int, current: int, p: Policy, now: int)
    requires p.interval > 0 && OnBoundary(start, p.interval) && OnBoundary(current, p.interval) && current <= now < current + p.interval
    ensures current + -(p.retained - 1) * p.interval <= start <==> now < start + p.retained * p.interval
  {
    var end := start + p.retained * p.interval;
    ShiftBoundary(start, p.retained, p.interval);
    assert -(p.retained - 1) * p.interval == p.interval - p.retained * p.interval;
    if current < end { BoundariesApart(current, end, p.interval); }
  }

  /** MAIN: among buckets that have started on a boundary, the dispatcher takes exactly the retained ones, and the timeout it
      gives them ends exactly when they stop being retained. */
  lemma DispatchAgrees(start: int, p: Policy, now: int)
    requires Valid(p) && Rem(start, SECOND) == 0
    ensures Retains(start, p, now) <==> OnBoundary(start, p.interval) && start <= now && Dispatches(start, p, now)
    ensures p.retained > 0 && Retains(start, p, now) ==> now + Remaining(start, p, now) == start + p.retained * p.interval
  {
    RetainedExactly(start, p, now);
    NoOverflow(p);
  }

  /** MAIN: a retry of a retained bucket is due no later than its expiry, and until it is due the bucket is retained. */
  lemma RetryAgrees(start: int, p: Policy, now: int, delay: int, t: int)
    requires Valid(p) && p.retained > 0 && Rem(start, SECOND) == 0 && Retains(start, p, now) && delay >= 0
    ensures var next := NextAttempt(start, false, p, now, delay);
            && now <= next <= start + p.retained * p.interval
            && (now <= t < next ==> Retains(start, p, t))
            && (next < now + delay ==> !Retains(start, p, next))
  {
    var next := NextAttempt(start, false, p, now, delay);
    NoOverflow(p);
    RetainedExactly(start, p, now);
    RetainedExactly(start, p, t);
    RetainedExactly(start, p, next);
  }
}
