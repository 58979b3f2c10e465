/**
 * The auto-scroll engine: how close the pointer is to each viewport edge, when
 * an edge scrolls, by how much, and the default scroller that applies the
 * shift to the container's native scroll position.
 *
 * The plugin evaluates the four edges in a loop running from the last edge
 * (left) down to the first (top), updating the recorded pointer positions as it
 * goes. `ScrollLoop` is that loop as a function; the session's
 * `UpdateViewportScrolling` method is proved against it.
 */
module AutoScroll {
  import opened Wrappers
  import opened Geometry

  datatype Axis = Vertical | Horizontal

  /** One viewport edge as seen from the pointer: clamped distance, scroll direction and axis. */
  datatype Metric = Metric(distance: real, direction: int, axis: Axis)

  /** One of the two scroll directions. */
  predicate IsDirection(d: int)
  {
    d == 1 || d == -1
  }

  /**
   * The four edge metrics, in the plugin's order top, right, bottom, left, for a
   * pointer at `evt` and a viewport `container` in document coordinates.
   */
  function ScrollMetrics(evt: Position, container: Rect): (ms: seq<Metric>)
    ensures |ms| == 4 && forall i :: 0 <= i < 4 ==> ms[i].distance >= 0.0 && IsDirection(ms[i].direction)
    ensures ms[0].axis == Vertical && ms[1].axis == Horizontal && ms[2].axis == Vertical && ms[3].axis == Horizontal
    ensures ms[0].direction == -1 && ms[1].direction == 1 && ms[2].direction == 1 && ms[3].direction == -1
    // inside the viewport the distances to two opposite edges add up to its extent
    ensures container.top <= evt.pageY <= container.top + container.height ==>
              ms[0].distance + ms[2].distance == container.height
    ensures container.left <= evt.pageX <= container.left + container.width ==>
              ms[1].distance + ms[3].distance == container.width
    // on the inner side of an edge the distance is the pointer's distance to it
    ensures evt.pageY >= container.top ==> ms[0].distance == evt.pageY - container.top
    ensures evt.pageX <= container.left + container.width ==> ms[1].distance == container.left + container.width - evt.pageX
    ensures evt.pageY <= container.top + container.height ==> ms[2].distance == container.top + container.height - evt.pageY
    ensures evt.pageX >= container.left ==> ms[3].distance == evt.pageX - container.left
    // past an edge the distance to it is zero
    ensures evt.pageY <= container.top ==> ms[0].distance == 0.0
    ensures evt.pageY >= container.top + container.height ==> ms[2].distance == 0.0
    ensures evt.pageX <= container.left ==> ms[3].distance == 0.0
    ensures evt.pageX >= container.left + container.width ==> ms[1].distance == 0.0
  {
    [ Metric(Max(evt.pageY - container.top, 0.0), -1, Vertical),
      Metric(Max(container.left + container.width - evt.pageX, 0.0), 1, Horizontal),
      Metric(Max(container.top + container.height - evt.pageY, 0.0), 1, Vertical),
      Metric(Max(evt.pageX - container.left, 0.0), -1, Horizontal) ]
  }

  /**
   * The frame-lag compensation: elapsed milliseconds over 16 when the previous
   * scroll step left a timestamp, otherwise 1. A zero timestamp is falsy in the
   * plugin and counts as absent.
   */
  function LagMultiplier(scrollTimestamp: Option<real>, now: real): (lag: real)
    ensures scrollTimestamp.None? || scrollTimestamp == Some(0.0) ==> lag == 1.0
    ensures scrollTimestamp.Some? && scrollTimestamp.value != 0.0 ==> lag * 16.0 == now - scrollTimestamp.value
  {
    if scrollTimestamp.Some? && scrollTimestamp.value != 0.0 then (now - scrollTimestamp.value) / 16.0 else 1.0
  }

  /** Pointer movement on one axis. */
  function AxisDelta(cur: Position, last: Position, axis: Axis): real
  {
    if axis == Vertical then cur.pageY - last.pageY else cur.pageX - last.pageX
  }

  /**
   * An edge scrolls when the pointer is within the threshold of it, there is
   * room left in its direction, and the pointer moves toward it.
   */
  predicate Qualifies(m: Metric, available: real, threshold: real, delta: real)
  {
    m.distance < threshold && available > 0.0 && Sign(delta) == m.direction
  }

  /** The step of an edge: a tenth of how far the pointer is inside the threshold, rounded up, capped by the room left. */
  function Step(m: Metric, available: real, threshold: real): real
  {
    Min(available, Ceil((threshold - m.distance) / 10.0) as real)
  }

  /** A step signed by the edge's direction and scaled by the frame-lag and speed multipliers. */
  function Shift(direction: int, step: real, lag: real, speed: real): real
  {
    direction as real * step * lag * speed
  }

  /** The scroll shift of an edge. */
  function EdgeShift(m: Metric, available: real, threshold: real, lag: real, speed: real): real
  {
    Shift(m.direction, Step(m, available, threshold), lag, speed)
  }

  /** `p` moved back by `shift` on one axis. */
  function MoveBack(p: Position, axis: Axis, shift: real): Position
  {
    if axis == Vertical then p.(pageY := p.pageY - shift) else p.(pageX := p.pageX - shift)
  }

  /** What the scroll loop updates: recorded start and current positions, the native scroll position, and whether any edge scrolled. */
  datatype ScrollState = ScrollState(start: Position, cur: Position, scrollTop: real, scrollLeft: real, scrolled: bool)

  /** What the scroll loop reads: the edge metrics, the room left per edge (read once, before the loop), the previous pointer position and the options. */
  datatype ScrollInputs = ScrollInputs(
    metrics: seq<Metric>, available: seq<real>, last: Position, threshold: real, lag: real, speed: real)

  predicate WellFormed(inp: ScrollInputs)
  {
    |inp.metrics| == |inp.available|
  }

  /** One iteration of the loop, for edge `i`. */
  function EdgeStep(st: ScrollState, inp: ScrollInputs, i: nat): ScrollState
    requires WellFormed(inp) && i < |inp.metrics|
  {
    var m := inp.metrics[i];
    if Qualifies(m, inp.available[i], inp.threshold, AxisDelta(st.cur, inp.last, m.axis)) then
      var shift := EdgeShift(m, inp.available[i], inp.threshold, inp.lag, inp.speed);
      ScrollState(
        MoveBack(st.start, m.axis, shift), MoveBack(st.cur, m.axis, shift),
        if m.axis == Vertical then st.scrollTop + shift else st.scrollTop,
        if m.axis == Horizontal then st.scrollLeft + shift else st.scrollLeft,
        true)
    else st
  }

  /** The loop over edges `k - 1` down to `0`. */
  function ScrollLoop(st: ScrollState, inp: ScrollInputs, k: nat): ScrollState
    requires WellFormed(inp) && k <= |inp.metrics|
    decreases k
  {
    if k == 0 then st else ScrollLoop(EdgeStep(st, inp, k - 1), inp, k - 1)
  }

  /** The native scroll state of a container: scroll position, scroll extent and viewport size. */
  datatype Viewport = Viewport(
    scrollTop: real, scrollLeft: real, scrollWidth: real, scrollHeight: real, viewWidth: real, viewHeight: real)

  /** The room left in each direction under native scrolling, in the order top, right, bottom, left. */
  function Room(v: Viewport): (d: seq<real>)
    ensures |d| == 4
    ensures d[0] == v.scrollTop && d[3] == v.scrollLeft
    ensures d[0] + d[2] == v.scrollHeight - v.viewHeight && d[1] + d[3] == v.scrollWidth - v.viewWidth
  {
    [v.scrollTop, v.scrollWidth - v.scrollLeft - v.viewWidth, v.scrollHeight - v.scrollTop - v.viewHeight, v.scrollLeft]
  }

  /** The scroll position lies within the scroll extent. */
  predicate InExtent(v: Viewport)
  {
    0.0 <= v.scrollTop <= v.scrollHeight - v.viewHeight && 0.0 <= v.scrollLeft <= v.scrollWidth - v.viewWidth
  }

  /**
   * The default scroller: native scrolling of the container. Its state is the
   * container's scroll position and scroll extent; the viewport size is the one
   * recorded when the gesture started.
   */
  class Scroller {
    var scrollTop: real
    var scrollLeft: real
    var scrollWidth: real
    var scrollHeight: real
    const viewWidth: real
    const viewHeight: real

    constructor (scrollTop: real, scrollLeft: real, scrollWidth: real, scrollHeight: real,
                 viewWidth: real, viewHeight: real)
      ensures Value() == Viewport(scrollTop, scrollLeft, scrollWidth, scrollHeight, viewWidth, viewHeight)
    {
      this.scrollTop, this.scrollLeft := scrollTop, scrollLeft;
      this.scrollWidth, this.scrollHeight := scrollWidth, scrollHeight;
      this.viewWidth, this.viewHeight := viewWidth, viewHeight;
    }

    function Value(): Viewport
      reads this
    {
      Viewport(scrollTop, scrollLeft, scrollWidth, scrollHeight, viewWidth, viewHeight)
    }

    /** The remaining scroll distances from the top, right, bottom and left borders. */
    method ScrollableDistances() returns (d: seq<real>)
      ensures d == Room(Value())
    {
      d := [scrollTop, scrollWidth - scrollLeft - viewWidth, scrollHeight - scrollTop - viewHeight, scrollLeft];
    }

    /** Scrolls by `shift` pixels on `axis`: positive is downward or rightward. */
    method Scroll(axis: Axis, shift: real)
      modifies this`scrollTop, this`scrollLeft
      ensures Value() == if axis == Vertical then old(Value()).(scrollTop := old(scrollTop) + shift)
                         else old(Value()).(scrollLeft := old(scrollLeft) + shift)
    {
      if axis == Vertical {
        scrollTop := scrollTop + shift;
      } else {
        scrollLeft := scrollLeft + shift;
      }
    }

    /** Native scrolling needs no correction of the selectables' positions. */
    method ScrollOffset() returns (offset: Offset)
      ensures offset == NoOffset
    {
      offset := NoOffset;
    }
  }

  // ---------------------------------------------------------------------------
  // Properties

  /**
   * The step of an edge the pointer is inside the threshold of, with room left:
   * positive, at most the room left and at most the rounded-up tenth, and at
   * least one pixel when at least one pixel of room is left.
   */
  lemma StepBounds(m: Metric, available: real, threshold: real)
    requires m.distance < threshold && available > 0.0
    ensures var step := Step(m, available, threshold);
            0.0 < step <= available && step <= Ceil((threshold - m.distance) / 10.0) as real &&
            (available >= 1.0 ==> step >= 1.0)
  {
    assert Ceil((threshold - m.distance) / 10.0) >= 1;
  }

  /** The closer the pointer to the edge, the bigger the step. */
  lemma StepMonotone(m1: Metric, m2: Metric, available: real, threshold: real)
    requires m1.distance <= m2.distance
    ensures Step(m1, available, threshold) >= Step(m2, available, threshold)
  {
    CeilMonotone((threshold - m2.distance) / 10.0, (threshold - m1.distance) / 10.0);
  }

  /**
   * Bounds on a shift. Its magnitude is the step scaled by lag and speed, its sign
   * is the direction, it stays within the room left when lag times speed is at most
   * 1, and with lag and speed 1 it is the signed step itself.
   */
  lemma ShiftBounds(direction: int, step: real, available: real, lag: real, speed: real)
    requires IsDirection(direction) && 0.0 < step <= available
    requires lag >= 0.0 && speed >= 0.0
    ensures var shift := Shift(direction, step, lag, speed);
            Abs(shift) == step * (lag * speed) &&
            (lag * speed > 0.0 ==> Sign(shift) == direction) &&
            (lag * speed <= 1.0 ==> (if direction == 1 then 0.0 <= shift <= available else -available <= shift <= 0.0)) &&
            (lag == 1.0 && speed == 1.0 ==> shift == direction as real * step)
  {
    var p := step * (lag * speed);
    assert direction as real * step * lag * speed == if direction == 1 then p else -p;
    assert 0.0 <= p;
    if lag * speed <= 1.0 {
      assert p <= step * 1.0;
    }
  }

  /** With lag times speed above 1 the shift can exceed the room left: the cap applies before the scaling. */
  lemma ShiftCanExceedAvailable()
    ensures Abs(EdgeShift(Metric(0.0, 1, Vertical), 5.0, 100.0, 2.0, 1.0)) == 10.0 > 5.0
  {
    assert Ceil(10.0) == 10;
  }

  /** The viewport moves on an edge's step exactly when the edge qualifies. */
  lemma EdgeScrollsIff(st: ScrollState, inp: ScrollInputs, i: nat)
    requires WellFormed(inp) && i < |inp.metrics|
    requires IsDirection(inp.metrics[i].direction) && inp.lag * inp.speed != 0.0
    ensures var m, r := inp.metrics[i], EdgeStep(st, inp, i);
            var q := Qualifies(m, inp.available[i], inp.threshold, AxisDelta(st.cur, inp.last, m.axis));
            (r.scrollTop != st.scrollTop || r.scrollLeft != st.scrollLeft) == q &&
            r.scrolled == (st.scrolled || q)
  {
    var m := inp.metrics[i];
    if Qualifies(m, inp.available[i], inp.threshold, AxisDelta(st.cur, inp.last, m.axis)) {
      StepBounds(m, inp.available[i], inp.threshold);
      ShiftNonzero(m.direction, Step(m, inp.available[i], inp.threshold), inp.lag, inp.speed);
    }
  }

  /** A nonzero step with nonzero multipliers gives a nonzero shift. */
  lemma ShiftNonzero(direction: int, step: real, lag: real, speed: real)
    requires IsDirection(direction) && step != 0.0 && lag * speed != 0.0
    ensures Shift(direction, step, lag, speed) != 0.0
  {
    var p := step * (lag * speed);
    assert p != 0.0;
    assert direction as real * step * lag * speed == if direction == 1 then p else -p;
  }

  /**
   * The loop moves start and current positions back by exactly the amount it
   * scrolls on each axis: their difference is unchanged, and the start and current
   * positions plus the scroll position (their place in the scrolled content) are
   * fixed. A loop that scrolls nothing changes nothing.
   */
  lemma {:induction false} ScrollLoopCompensates(st: ScrollState, inp: ScrollInputs, k: nat)
    requires WellFormed(inp) && k <= |inp.metrics|
    decreases k
    ensures var r := ScrollLoop(st, inp, k);
            r.start.pageY - r.cur.pageY == st.start.pageY - st.cur.pageY &&
            r.start.pageX - r.cur.pageX == st.start.pageX - st.cur.pageX &&
            r.start.pageY + r.scrollTop == st.start.pageY + st.scrollTop &&
            r.start.pageX + r.scrollLeft == st.start.pageX + st.scrollLeft &&
            r.cur.pageY + r.scrollTop == st.cur.pageY + st.scrollTop &&
            r.cur.pageX + r.scrollLeft == st.cur.pageX + st.scrollLeft &&
            (st.scrolled ==> r.scrolled) &&
            (!r.scrolled ==> r == st)
  {
    if k > 0 {
      ScrollLoopCompensates(EdgeStep(st, inp, k - 1), inp, k - 1);
    }
  }

  /** When no edge qualifies for the positions at entry, the loop changes nothing. */
  lemma {:induction false} ScrollLoopQuiet(st: ScrollState, inp: ScrollInputs, k: nat)
    decreases k
    requires WellFormed(inp) && k <= |inp.metrics|
    requires forall i :: 0 <= i < k ==>
               !Qualifies(inp.metrics[i], inp.available[i], inp.threshold, AxisDelta(st.cur, inp.last, inp.metrics[i].axis))
    ensures ScrollLoop(st, inp, k) == st
  {
    if k > 0 {
      assert EdgeStep(st, inp, k - 1) == st;
      ScrollLoopQuiet(st, inp, k - 1);
    }
  }

  /** The four edges in the plugin's arrangement: top, right, bottom, left. */
  predicate FourEdges(inp: ScrollInputs)
  {
    WellFormed(inp) && |inp.metrics| == 4 &&
    inp.metrics[0].axis == Vertical && inp.metrics[1].axis == Horizontal &&
    inp.metrics[2].axis == Vertical && inp.metrics[3].axis == Horizontal &&
    inp.metrics[0].direction == -1 && inp.metrics[1].direction == 1 &&
    inp.metrics[2].direction == 1 && inp.metrics[3].direction == -1
  }

  /**
   * Over the four edges, something scrolls exactly when at least one edge
   * qualifies for the positions at entry: the first edge checked on each axis
   * sees the entry positions, and the second one sees them too unless the
   * first already scrolled.
   */
  lemma ScrolledIffSomeEdgeQualifies(st: ScrollState, inp: ScrollInputs)
    requires FourEdges(inp) && !st.scrolled
    ensures ScrollLoop(st, inp, 4).scrolled <==>
              exists i :: 0 <= i < 4 &&
                Qualifies(inp.metrics[i], inp.available[i], inp.threshold, AxisDelta(st.cur, inp.last, inp.metrics[i].axis))
  {
    var s3 := EdgeStep(st, inp, 3);
    var s2 := EdgeStep(s3, inp, 2);
    var s1 := EdgeStep(s2, inp, 1);
    var s0 := EdgeStep(s1, inp, 0);
    assert ScrollLoop(st, inp, 4) == s0;
    ScrollLoopCompensates(st, inp, 4);
    if exists i :: 0 <= i < 4 &&
         Qualifies(inp.metrics[i], inp.available[i], inp.threshold, AxisDelta(st.cur, inp.last, inp.metrics[i].axis)) {
    } else {
      ScrollLoopQuiet(st, inp, 4);
    }
  }

  /**
   * Under native scrolling, with lag times speed at most 1, a scroll position
   * within the scroll extent stays within it: the loop never asks to scroll past
   * a border, even when both edges of one axis scroll.
   */
  lemma ScrollStaysInRange(st: ScrollState, inp: ScrollInputs, v: Viewport)
    requires FourEdges(inp)
    requires st.scrollTop == v.scrollTop && st.scrollLeft == v.scrollLeft && inp.available == Room(v)
    requires inp.lag >= 0.0 && inp.speed >= 0.0 && inp.lag * inp.speed <= 1.0
    requires InExtent(v)
    ensures var r := ScrollLoop(st, inp, 4);
            InExtent(v.(scrollTop := r.scrollTop, scrollLeft := r.scrollLeft))
  {
    var s3 := EdgeStep(st, inp, 3);
    var s2 := EdgeStep(s3, inp, 2);
    var s1 := EdgeStep(s2, inp, 1);
    var s0 := EdgeStep(s1, inp, 0);
    assert ScrollLoop(st, inp, 4) == s0;
    forall i | 0 <= i < 4 && inp.metrics[i].distance < inp.threshold && inp.available[i] > 0.0
      ensures var shift := EdgeShift(inp.metrics[i], inp.available[i], inp.threshold, inp.lag, inp.speed);
              if inp.metrics[i].direction == 1 then 0.0 <= shift <= inp.available[i] else -inp.available[i] <= shift <= 0.0
    {
      StepBounds(inp.metrics[i], inp.available[i], inp.threshold);
      ShiftBounds(inp.metrics[i].direction, Step(inp.metrics[i], inp.available[i], inp.threshold),
                  inp.available[i], inp.lag, inp.speed);
    }
  }
  /**
   * A pointer 5 px from the right edge of a 300 x 300 viewport, moving right,
   * threshold 100, 500 px of room, first step: the container scrolls right by 10
   * and both recorded positions move left by 10.
   */
  lemma RightEdgeExample()
    ensures var evt := Position(295.0, 150.0);
            var inp := ScrollInputs(ScrollMetrics(evt, Rect(0.0, 0.0, 300.0, 300.0)), [0.0, 500.0, 0.0, 0.0],
                                    Position(290.0, 150.0), 100.0, 1.0, 1.0);
            var r := ScrollLoop(ScrollState(Position(10.0, 10.0), evt, 0.0, 0.0, false), inp, 4);
            r == ScrollState(Position(0.0, 10.0), Position(285.0, 150.0), 0.0, 10.0, true)
  {
    assert Ceil(9.5) == 10;
  }

  /**
   * In a viewport smaller than twice the threshold, a pointer moving slowly down
   * makes the bottom edge scroll by 5; the top edge then sees the current position
   * already moved back by those 5, reads it as upward movement, and scrolls back by
   * 5. The step arms a timer although the viewport ends where it started.
   */
  lemma OppositeEdgesBothScroll()
    ensures var evt := Position(50.0, 50.0);
            var inp := ScrollInputs(ScrollMetrics(evt, Rect(0.0, 0.0, 100.0, 100.0)), [100.0, 0.0, 100.0, 0.0],
                                    Position(50.0, 49.0), 100.0, 1.0, 1.0);
            var st := ScrollState(Position(20.0, 20.0), evt, 100.0, 0.0, false);
            EdgeStep(EdgeStep(st, inp, 3), inp, 2).scrollTop == 105.0 &&
            ScrollLoop(st, inp, 4) == st.(scrolled := true)
  {
    var evt := Position(50.0, 50.0);
    var inp := ScrollInputs(ScrollMetrics(evt, Rect(0.0, 0.0, 100.0, 100.0)), [100.0, 0.0, 100.0, 0.0],
                            Position(50.0, 49.0), 100.0, 1.0, 1.0);
    var st := ScrollState(Position(20.0, 20.0), evt, 100.0, 0.0, false);
    assert Ceil(5.0) == 5;
    assert Step(inp.metrics[2], 100.0, 100.0) == 5.0 && Step(inp.metrics[0], 100.0, 100.0) == 5.0;
    var s3 := EdgeStep(st, inp, 3);
    assert s3 == st;
    var s2 := EdgeStep(s3, inp, 2);
    assert s2 == ScrollState(Position(20.0, 15.0), Position(50.0, 45.0), 105.0, 0.0, true);
    var s1 := EdgeStep(s2, inp, 1);
    assert s1 == s2;
    assert EdgeStep(s1, inp, 0) == st.(scrolled := true);
  }
}
