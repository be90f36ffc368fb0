/**
 * components/dahboard/circle-progress.tsx: the ring that shows a
 * percentage. The percentage is clamped into [0, 100] and turned into a
 * stroke dash offset along the circle. The circumference (2 * PI * radius,
 * a floating-point value in the source) is an abstract real here.
 */
module CircleProgress {

  /**
   * `size / 2 - strokeWidth`. The stroke is centred on the circle, so the
   * ring's outer edge stays half a stroke inside the box, and the circle
   * has a positive radius exactly when the box is wider than two strokes
   * (as with the defaults, 64 and 6).
   */
  function Radius(size: real, strokeWidth: real): (r: real)
    ensures size / 2.0 - (r + strokeWidth / 2.0) == strokeWidth / 2.0
    ensures strokeWidth >= 0.0 ==> r + strokeWidth / 2.0 <= size / 2.0
    ensures r > 0.0 <==> size > 2.0 * strokeWidth
  {
    size / 2.0 - strokeWidth
  }

  /** `Math.min(Math.max(percent, 0), 100)`. */
  function Clamp(percent: real): (c: real)
    ensures 0.0 <= c <= 100.0
    ensures 0.0 <= percent <= 100.0 ==> c == percent
    ensures percent < 0.0 ==> c == 0.0
    ensures percent > 100.0 ==> c == 100.0
  {
    var atLeastZero := if percent > 0.0 then percent else 0.0;
    if atLeastZero < 100.0 then atLeastZero else 100.0
  }

  /**
   * `circumference - (circumference * clamped) / 100`: the undrawn part of
   * the ring is the share of the circumference above the clamped percentage.
   */
  function Offset(circumference: real, percent: real): (o: real)
    ensures o == circumference * (100.0 - Clamp(percent)) / 100.0
  {
    circumference - (circumference * Clamp(percent)) / 100.0
  }

  /**
   * For a non-negative circumference the offset is the whole circumference
   * at 0% (or less), nothing at 100% (or more), and always within
   * [0, circumference].
   */
  lemma OffsetBounds(circumference: real, percent: real)
    requires circumference >= 0.0
    ensures 0.0 <= Offset(circumference, percent) <= circumference
    ensures percent <= 0.0 ==> Offset(circumference, percent) == circumference
    ensures percent >= 100.0 ==> Offset(circumference, percent) == 0.0
  {
    var c := Clamp(percent);
    assert circumference * c <= circumference * 100.0 by {
      assert circumference * (100.0 - c) >= 0.0;
    }
  }

  /** A larger percentage never leaves more of the ring undrawn. */
  lemma OffsetMonotone(circumference: real, p: real, q: real)
    requires circumference >= 0.0 && p <= q
    ensures Offset(circumference, q) <= Offset(circumference, p)
  {
    var cp, cq := Clamp(p), Clamp(q);
    assert cp <= cq;
    assert circumference * cp <= circumference * cq by {
      assert circumference * (cq - cp) >= 0.0;
    }
  }
}
