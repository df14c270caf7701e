/**
 * The CoreMedia and CoreGraphics values the core computes with: exact times as
 * integer ticks at a timescale, time ranges, and rendered images as opaque handles.
 */
module Media {

  /** A `CMTime`: `value` ticks of a clock that runs at `timescale` ticks per second. */
  datatype CMTime = CMTime(value: int, timescale: int)

  /** `CMTime.zero`: no ticks at a timescale of 1. */
  const Zero: CMTime := CMTime(0, 1)

  /** `CMTime()`: the all-zero value, whose timescale of 0 makes it an invalid time. */
  const Invalid: CMTime := CMTime(0, 0)

  /** A numeric time, i.e. one with a positive timescale. */
  predicate Numeric(t: CMTime) {
    t.timescale > 0
  }

  /**
   * `CMTimeCompare` on numeric times: -1, 0 or 1 as `a` is an earlier, the same or a
   * later instant than `b`. Times are compared as rationals, so 1/2 and 2/4 are equal.
   */
  function Compare(a: CMTime, b: CMTime): (c: int)
    requires Numeric(a) && Numeric(b)
    ensures -1 <= c <= 1
    ensures c == 0 <==> a.value * b.timescale == b.value * a.timescale
    ensures c < 0 <==> a.value * b.timescale < b.value * a.timescale
  {
    var lhs, rhs := a.value * b.timescale, b.value * a.timescale;
    if lhs < rhs then -1 else if lhs == rhs then 0 else 1
  }

  /** Swift's `==` on `CMTime`, which is `CMTimeCompare(a, b) == 0`. */
  predicate SameInstant(a: CMTime, b: CMTime)
    requires Numeric(a) && Numeric(b)
  {
    Compare(a, b) == 0
  }

  /** At one timescale, comparing instants is comparing tick counts. */
  lemma CompareAtOneTimescale(a: CMTime, b: CMTime)
    requires Numeric(a) && a.timescale == b.timescale
    ensures Compare(a, b) == 0 <==> a.value == b.value
    ensures Compare(a, b) < 0 <==> a.value < b.value
    ensures Compare(a, b) > 0 <==> a.value > b.value
  {
    var s := a.timescale;
    if a.value < b.value {
      assert a.value * s < b.value * s by { MultiplyStrictly(a.value, b.value, s); }
    } else if a.value > b.value {
      assert b.value * s < a.value * s by { MultiplyStrictly(b.value, a.value, s); }
    }
  }

  lemma MultiplyStrictly(x: int, y: int, s: int)
    requires x < y && s > 0
    ensures x * s < y * s
  {
    assert y * s - x * s == (y - x) * s;
  }

  /** Comparing is antisymmetric: `a` is earlier than `b` exactly when `b` is later than `a`. */
  lemma CompareAntisymmetric(a: CMTime, b: CMTime)
    requires Numeric(a) && Numeric(b)
    ensures Compare(a, b) == -Compare(b, a)
  {
  }

  /** A `CMTimeRange` from `start` lasting `duration`. */
  datatype CMTimeRange = CMTimeRange(start: CMTime, duration: CMTime)

  /** `CMTimeRange.zero`. */
  const ZeroRange: CMTimeRange := CMTimeRange(Zero, Zero)

  /** A range whose start and duration share one timescale and whose duration is not negative. */
  predicate ValidRange(r: CMTimeRange) {
    Numeric(r.start) && r.duration.timescale == r.start.timescale && r.duration.value >= 0
  }

  /** `CMTimeRangeGetEnd`: start plus duration. */
  function End(r: CMTimeRange): CMTime
    requires ValidRange(r)
  {
    CMTime(r.start.value + r.duration.value, r.start.timescale)
  }

  /** `CMTimeRangeIsEmpty`: the range lasts no time. */
  predicate EmptyRange(r: CMTimeRange) {
    r.duration.value == 0
  }

  /**
   * `CMTimeClampToRange`: an invalid time for an empty range; otherwise the start for a
   * time before the range, the end for a time after it, and the time itself inside it.
   */
  function ClampToRange(t: CMTime, r: CMTimeRange): (c: CMTime)
    requires Numeric(t) && ValidRange(r)
    ensures EmptyRange(r) <==> !Numeric(c)
    ensures EmptyRange(r) ==> c == Invalid
    ensures !EmptyRange(r) ==> Compare(r.start, c) <= 0 && Compare(c, End(r)) <= 0
    ensures !EmptyRange(r) && Compare(r.start, t) <= 0 && Compare(t, End(r)) <= 0 ==> c == t
    ensures !EmptyRange(r) && Compare(t, r.start) < 0 ==> c == r.start
    ensures !EmptyRange(r) && Compare(t, End(r)) > 0 ==> c == End(r)
  {
    CompareAtOneTimescale(r.start, End(r));
    if EmptyRange(r) then Invalid
    else if Compare(t, r.start) < 0 then r.start
    else if Compare(t, End(r)) > 0 then End(r)
    else t
  }

  /** Swift's `/` on `Int64`, which truncates toward zero (Dafny's `/` is Euclidean). */
  function TruncDiv(a: int, b: int): (q: int)
    requires b > 0
    ensures a >= 0 ==> 0 <= q * b <= a < q * b + b
    ensures a < 0 ==> q * b - b < a <= q * b <= 0
  {
    if a >= 0 then
      EuclideanBounds(a, b);
      a / b
    else
      EuclideanBounds(-a, b);
      NegateProduct((-a) / b, b);
      -((-a) / b)
  }

  lemma EuclideanBounds(n: int, b: int)
    requires n >= 0 && b > 0
    ensures n / b >= 0 && 0 <= (n / b) * b <= n < (n / b) * b + b
  {
    assert n == (n / b) * b + n % b;
  }

  lemma NegateProduct(x: int, b: int)
    ensures (-x) * b == -(x * b)
  {
  }

  /** A rendered `CGImage`, known only by identity. */
  datatype CGImage = CGImage(handle: nat)
}
