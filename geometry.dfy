/**
 * Geometry of the box-selection gesture: the sign of a pointer delta, and the
 * closed-interval and rectangle overlap tests used for hit-testing.
 *
 * Pixel coordinates are JavaScript numbers in the plugin; they are modelled as
 * `real` so that fractional values (half border widths, the frame-lag scaled
 * scroll shift) are represented exactly.
 */
module Geometry {

  /** A pointer position in document coordinates (`pageX`, `pageY`). */
  datatype Position = Position(pageX: real, pageY: real)

  /** A rectangle: top-left corner and extent. */
  datatype Rect = Rect(top: real, left: real, width: real, height: real)

  /** A translation applied to selectable positions by the scroller. */
  datatype Offset = Offset(top: real, left: real)

  const NoOffset := Offset(0.0, 0.0)

  function Abs(x: real): (r: real)
    ensures r >= 0.0
    ensures r == x || r == -x
  {
    if x < 0.0 then -x else x
  }

  function Min(a: real, b: real): (r: real)
    ensures r <= a && r <= b
    ensures r == a || r == b
  {
    if a <= b then a else b
  }

  function Max(a: real, b: real): (r: real)
    ensures r >= a && r >= b
    ensures r == a || r == b
  {
    if a >= b then a else b
  }

  /** `Math.ceil`: the least integer not below `x`. */
  function Ceil(x: real): (r: int)
    ensures x <= r as real < x + 1.0
  {
    if x.Floor as real == x then x.Floor else x.Floor + 1
  }

  lemma CeilMonotone(x: real, y: real)
    requires x <= y
    ensures Ceil(x) <= Ceil(y)
  {
    var cx, cy := Ceil(x), Ceil(y);
    assert (cx - 1) as real < x <= y <= cy as real;
  }

  /** The sign of a delta: -1, 0 or 1, such that sign * value is its magnitude. */
  function Sign(i: real): (r: int)
    ensures -1 <= r <= 1
    ensures r as real * i == Abs(i)
    ensures r == 0 <==> i == 0.0
  {
    if i > 0.0 then 1 else if i < 0.0 then -1 else 0
  }

  /**
   * The plugin's three-way 1-D test: an endpoint of the second interval lies in
   * the first, or the second contains the first. For non-negative widths it
   * holds exactly when the closed intervals [start1, start1 + width1] and
   * [start2, start2 + width2] have a point in common.
   */
  function Overlap1D(start1: real, width1: real, start2: real, width2: real): (r: bool)
    ensures width1 >= 0.0 && width2 >= 0.0 ==>
              (r <==> Max(start1, start2) <= Min(start1 + width1, start2 + width2))
  {
    var end1, end2 := start1 + width1, start2 + width2;
    (start2 >= start1 && start2 <= end1) ||
    (end2 >= start1 && end2 <= end1) ||
    (start2 <= start1 && end2 >= end1)
  }

  /**
   * Rectangle overlap, with the second rectangle translated by `offset`. For
   * non-negative sizes it holds exactly when the closed rectangles intersect.
   */
  function Overlap(r1: Rect, r2: Rect, offset: Offset): (b: bool)
    ensures r1.width >= 0.0 && r1.height >= 0.0 && r2.width >= 0.0 && r2.height >= 0.0 ==>
              (b <==> r1.top <= r2.top + offset.top + r2.height && r2.top + offset.top <= r1.top + r1.height &&
                      r1.left <= r2.left + offset.left + r2.width && r2.left + offset.left <= r1.left + r1.width)
  {
    Overlap1D(r1.top, r1.height, r2.top + offset.top, r2.height) &&
    Overlap1D(r1.left, r1.width, r2.left + offset.left, r2.width)
  }

  function Translate(r: Rect, offset: Offset): Rect
  {
    r.(top := r.top + offset.top, left := r.left + offset.left)
  }

  /** A point lying in both closed intervals witnesses their overlap, and the overlap always has such a point. */
  lemma Overlap1DCommonPoint(start1: real, width1: real, start2: real, width2: real, x: real)
    requires width1 >= 0.0 && width2 >= 0.0
    ensures start1 <= x <= start1 + width1 && start2 <= x <= start2 + width2 ==> Overlap1D(start1, width1, start2, width2)
    ensures Overlap1D(start1, width1, start2, width2) ==>
              var p := Max(start1, start2);
              start1 <= p <= start1 + width1 && start2 <= p <= start2 + width2
  {
  }

  /** Containment either way and touching endpoints all count as overlap. */
  lemma Overlap1DContainmentAndTouching(start1: real, width1: real, start2: real, width2: real)
    requires width1 >= 0.0 && width2 >= 0.0
    ensures start1 <= start2 && start2 + width2 <= start1 + width1 ==> Overlap1D(start1, width1, start2, width2)
    ensures start2 <= start1 && start1 + width1 <= start2 + width2 ==> Overlap1D(start1, width1, start2, width2)
    ensures start1 + width1 == start2 || start2 + width2 == start1 ==> Overlap1D(start1, width1, start2, width2)
  {
  }

  /** The first two endpoint tests alone miss an interval strictly inside the other; the third test is needed. */
  lemma EndpointTestsMissContainment()
    ensures var start1, end1, start2, end2 := 10.0, 20.0, 0.0, 30.0;
            !(start2 >= start1 && start2 <= end1) && !(end2 >= start1 && end2 <= end1) &&
            Overlap1D(start1, end1 - start1, start2, end2 - start2)
  {
  }

  lemma Overlap1DSymmetric(start1: real, width1: real, start2: real, width2: real)
    requires width1 >= 0.0 && width2 >= 0.0
    ensures Overlap1D(start1, width1, start2, width2) == Overlap1D(start2, width2, start1, width1)
  {
  }

  /** With no offset, rectangle overlap is symmetric for non-negative sizes. */
  lemma OverlapSymmetric(r1: Rect, r2: Rect)
    requires r1.width >= 0.0 && r1.height >= 0.0 && r2.width >= 0.0 && r2.height >= 0.0
    ensures Overlap(r1, r2, NoOffset) == Overlap(r2, r1, NoOffset)
  {
    Overlap1DSymmetric(r1.top, r1.height, r2.top, r2.height);
    Overlap1DSymmetric(r1.left, r1.width, r2.left, r2.width);
  }

  /** Every rectangle overlaps itself; the containment test covers even negative sizes. */
  lemma OverlapReflexive(r: Rect)
    ensures Overlap(r, r, NoOffset)
  {
  }

  /** The offset acts as a translation of the second rectangle. */
  lemma OverlapOffsetIsTranslation(r1: Rect, r2: Rect, offset: Offset)
    ensures Overlap(r1, r2, offset) == Overlap(r1, Translate(r2, offset), NoOffset)
  {
  }
}
