/** Quintile assignment, `_determine_quintile`
    (backend/processors/sentiment_processor.py): the bucket of a segment is
    found from its midpoint and one fifth of the conversation length. */
module Quintile {

  /** Python's `int(x)` on a float: truncation toward zero. */
  function Trunc(x: real): (r: int)
    ensures 0.0 <= x ==> r as real <= x < r as real + 1.0
    ensures x < 0.0 ==> r as real - 1.0 < x <= r as real
  {
    if x >= 0.0 then x.Floor else -((-x).Floor)
  }

  /** Bucket of the segment `[start, end]` in a conversation of `length`
      seconds: 0 when the length is 0, otherwise the truncated quotient of
      the midpoint by a fifth of the length, with 5 turned into 4. */
  function QuintileOf(length: real, start: real, end: real): (q: int)
    ensures length == 0.0 ==> q == 0
    ensures 0.0 < length && 0.0 <= start + end <= 2.0 * length ==> 0 <= q <= 4
  {
    if length == 0.0 then 0
    else
      var midpoint := (start + end) / 2.0;
      var size := length / 5.0;
      var q := Trunc(midpoint / size);
      assert 0.0 < length && 0.0 <= start + end <= 2.0 * length ==> 0.0 <= midpoint / size <= 5.0 by {
        if 0.0 < length && 0.0 <= start + end <= 2.0 * length {
          QuotientBound(midpoint, size);
        }
      }
      if q == 5 then 4 else q
  }

  /** Truncation and the clamp of 5 put a midpoint in a bucket 0..4 exactly
      when it lies strictly between `-length / 5` and `6 * length / 5`: a
      segment somewhat past either end of the conversation still lands in
      the first or the last bucket. */
  lemma QuintileInRange(length: real, start: real, end: real)
    requires 0.0 < length
    ensures var q := QuintileOf(length, start, end);
      0 <= q <= 4 <==> -0.4 * length < start + end < 2.4 * length
  {
    var midpoint := (start + end) / 2.0;
    var size := length / 5.0;
    var x := midpoint / size;
    DivBelow(midpoint, size, 6.0);
    DivBelow(midpoint, size, -1.0);
    var t := Trunc(x);
    assert QuintileOf(length, start, end) == if t == 5 then 4 else t;
  }

  /** For a positive `b`, `a / b < c` exactly when `a < c * b`. */
  lemma DivBelow(a: real, b: real, c: real)
    requires 0.0 < b
    ensures a / b < c <==> a < c * b
  {
    assert a / b * b == a;
    if a / b < c {
      ScaleInequalities(a / b, c, a / b, b);
    }
    if a < c * b && c <= a / b {
      ScaleInequalities(c, a / b + 1.0, a / b, b);
    }
  }

  /** `0 <= a <= 5 * b` with `b > 0` puts `a / b` in `[0, 5]`. */
  lemma QuotientBound(a: real, b: real)
    requires 0.0 < b && 0.0 <= a <= 5.0 * b
    ensures 0.0 <= a / b <= 5.0
  {
    assert a / b * b == a;
  }

  /** Where bucket `q` starts: `q * (length / 5)`. */
  function WindowStart(q: int, length: real): real
  {
    q as real * (length / 5.0)
  }

  /** The bucket's window `[WindowStart(q), WindowStart(q + 1))` contains
      the midpoint; the last window is closed at the conversation end. */
  lemma QuintileContainsMidpoint(length: real, start: real, end: real)
    requires 0.0 < length && 0.0 <= start + end <= 2.0 * length
    ensures var q := QuintileOf(length, start, end);
      var midpoint := (start + end) / 2.0;
      && WindowStart(q, length) <= midpoint
      && (q < 4 ==> midpoint < WindowStart(q + 1, length))
      && (q == 4 ==> midpoint <= length)
  {
    var midpoint := (start + end) / 2.0;
    var size := length / 5.0;
    var x := midpoint / size;
    QuotientBound(midpoint, size);
    DivTimes(midpoint, size);
    var t := Trunc(x);
    var q := QuintileOf(length, start, end);
    assert q == if t == 5 then 4 else t;
    if t < 5 {
      WindowBounds(q, x, length);
    } else {
      assert x == 5.0;
      TimesFive(x, size);
    }
  }

  /** `(a / b) * b == a` for a non-zero `b`. */
  lemma DivTimes(a: real, b: real)
    requires b != 0.0
    ensures (a / b) * b == a
  {
  }

  lemma TimesFive(x: real, size: real)
    requires x == 5.0
    ensures x * size == 5.0 * size
  {
  }

  /** `n <= x < n + 1` puts `x * size` in the window of bucket `n`. */
  lemma WindowBounds(n: int, x: real, length: real)
    requires 0.0 < length && n as real <= x < n as real + 1.0
    ensures WindowStart(n, length) <= x * (length / 5.0)
    ensures x * (length / 5.0) < WindowStart(n + 1, length)
  {
    ScaleInequalities(n as real, (n + 1) as real, x, length / 5.0);
    assert WindowStart(n + 1, length) == (n + 1) as real * (length / 5.0);
  }

  /** Multiplying `lo <= x < hi` by a positive `size`. */
  lemma ScaleInequalities(lo: real, hi: real, x: real, size: real)
    requires 0.0 < size && lo <= x < hi
    ensures lo * size <= x * size < hi * size
  {
  }

  /** A segment whose midpoint lies exactly at the end of the conversation
      is in the last bucket, not a sixth one. */
  lemma MidpointAtEndIsLastQuintile(length: real, start: real, end: real)
    requires 0.0 < length && (start + end) / 2.0 == length
    ensures QuintileOf(length, start, end) == 4
  {
    var size := length / 5.0;
    assert length / size == 5.0;
  }
}
