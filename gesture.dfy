/**
 * The gesture controller: the per-container session of the plugin and its
 * three handlers. `OnMouseDown` arms a gesture, `Tick` (run for every mouse
 * move, and again by the auto-scroll timer) creates the selection box once the
 * drag distance is exceeded and then scrolls, resizes the box and re-evaluates
 * the selection, and `OnMouseUp` ends the gesture and reports the result.
 *
 * Environment reads (the container's offset, border and scroll metrics, the
 * descendants matching the filter, their offset geometry, the clock) are
 * parameters. The scroll metrics are read at mouse-down and afterwards change
 * only through the scroller. Notifications are appended to `events`; the pending timer is a
 * token holding the arguments the timer will re-invoke `Tick` with.
 */
module Gesture {
  import opened Wrappers
  import opened Geometry
  import opened Selection
  import opened AutoScroll

  datatype GestureState = Idle | Armed | Dragging

  /** A pending auto-scroll timer: it will run `Tick(evt, Some(scrollTimestamp), ...)`. */
  datatype Timer = Timer(evt: Position, scrollTimestamp: real)

  /**
   * The plugin options. `cancel` holds for an element that matches the cancel
   * selector or lies inside a match (constantly false when that option is empty);
   * `filter` holds for the selectable elements; `positioner` is the custom
   * positioner, if any.
   */
  datatype Options = Options(
    distance: real,
    cancel: Element -> bool,
    filter: Element -> bool,
    scrollingThreshold: real,
    scrollSpeedMultiplier: real,
    positioner: Option<Element -> Rect>)

  /** The default options, given the meaning of the default cancel selector for form controls. */
  function DefaultOptions(isFormControl: Element -> bool): Options
  {
    Options(0.0, isFormControl, _ => true, 100.0, 1.0, None)
  }

  /** A mouse-down event: button, target element and document position. */
  datatype MouseDown = MouseDown(which: int, target: Element, pageX: real, pageY: real)

  /** What the plugin reads from the container element when a gesture starts. */
  datatype ContainerMetrics = ContainerMetrics(
    offsetTop: real, offsetLeft: real,
    outerWidth: real, innerWidth: real, outerHeight: real, innerHeight: real,
    clientWidth: real, clientHeight: real,
    scrollTop: real, scrollLeft: real, scrollWidth: real, scrollHeight: real)

  /** The container viewport in document coordinates, moved inward by half the border (equal borders on opposite sides). */
  function ContainerDimensions(c: ContainerMetrics): Rect
  {
    Rect(c.offsetTop + (c.outerHeight - c.innerHeight) / 2.0,
         c.offsetLeft + (c.outerWidth - c.innerWidth) / 2.0,
         c.clientWidth, c.clientHeight)
  }

  /** The pointer is not on a scrollbar: it is within the client area counted from the container's offset. */
  predicate InClientArea(evt: MouseDown, c: ContainerMetrics)
  {
    !(evt.pageX > c.offsetLeft + c.clientWidth || evt.pageY > c.offsetTop + c.clientHeight)
  }

  /**
   * The page as a gesture sees it: the container's descendants in document
   * order, the two overlay elements the plugin creates when the box first
   * appears (the glass, appended as the container's last child, and the box
   * inside it), and the offset geometry the default positioner reads.
   */
  datatype Dom = Dom(descendants: seq<Element>, glass: Element, box: Element, layout: Element -> Rect)

  /**
   * What the filter query finds once the overlays exist: the descendants, then
   * the glass, then the box. The overlays are candidates like any other element.
   */
  function Found(dom: Dom): (found: seq<Element>)
    ensures |found| == |dom.descendants| + 2 && found[..|dom.descendants|] == dom.descendants
    ensures found[|dom.descendants|] == dom.glass && found[|dom.descendants| + 1] == dom.box
  {
    dom.descendants + [dom.glass, dom.box]
  }

  /** The page's elements are distinct and the two fresh overlays are neither page elements nor each other. */
  ghost predicate DomWellFormed(dom: Dom)
  {
    Distinct(dom.descendants) && dom.glass !in dom.descendants && dom.box !in dom.descendants && dom.glass != dom.box
  }

  function PositionerOf(options: Options, dom: Dom): Element -> Rect
  {
    match options.positioner
    case Some(p) => p
    case None => dom.layout
  }

  /** The selection box, in container-relative coordinates including the scroll position. */
  function SelectionBox(start: Position, evt: Position, container: Rect, scrollTop: real, scrollLeft: real): (box: Rect)
    ensures box.height >= 0.0 && box.width >= 0.0
  {
    Rect(Min(start.pageY, evt.pageY) - container.top + scrollTop,
         Min(start.pageX, evt.pageX) - container.left + scrollLeft,
         Abs(start.pageX - evt.pageX),
         Abs(start.pageY - evt.pageY))
  }

  /**
   * The box's sides on each axis are exactly the start position and the pointer
   * position, relative to the container and the scroll position, whichever is
   * smaller first.
   */
  lemma SelectionBoxSpans(start: Position, evt: Position, container: Rect, scrollTop: real, scrollLeft: real)
    ensures var box := SelectionBox(start, evt, container, scrollTop, scrollLeft);
            var a, b := start.pageY - container.top + scrollTop, evt.pageY - container.top + scrollTop;
            (box.top == a && box.top + box.height == b) || (box.top == b && box.top + box.height == a)
    ensures var box := SelectionBox(start, evt, container, scrollTop, scrollLeft);
            var a, b := start.pageX - container.left + scrollLeft, evt.pageX - container.left + scrollLeft;
            (box.left == a && box.left + box.width == b) || (box.left == b && box.left + box.width == a)
  {
  }

  // ---------------------------------------------------------------------------
  // The session as a value, and what each handler does to it

  /** The values the plugin keeps for one container, with the container's native scroll state. */
  datatype Session = Session(
    disabled: bool,
    listening: bool,
    hasBox: bool,
    containerDimensions: Rect,
    startPosition: Position,
    lastPosition: Position,
    curPosition: Position,
    selectionBoxExtents: Rect,
    selectables: seq<Snapshot>,
    events: seq<Event>,
    scrollingTimeout: Option<Timer>,
    viewport: Viewport)

  const NoViewport := Viewport(0.0, 0.0, 0.0, 0.0, 0.0, 0.0)

  /** The session right after initialisation. */
  function InitialSession(disabled: bool): Session
  {
    Session(disabled, false, false, Rect(0.0, 0.0, 0.0, 0.0),
            Position(0.0, 0.0), Position(0.0, 0.0), Position(0.0, 0.0),
            Rect(0.0, 0.0, 0.0, 0.0), [], [], None, NoViewport)
  }

  /**
   * A box exists only while the document listeners are bound, a timer is pending
   * only while a box exists, and snapshots exist only while a box exists.
   */
  predicate Consistent(s: Session)
  {
    (s.hasBox ==> s.listening) && (s.scrollingTimeout.Some? ==> s.hasBox) && (!s.hasBox ==> s.selectables == [])
  }

  function StateOf(s: Session): GestureState
  {
    if !s.listening then Idle else if !s.hasBox then Armed else Dragging
  }

  /** `onMouseDown` goes past its guards: enabled, first button, target not cancelled, not on a scrollbar. */
  predicate Accepts(s: Session, o: Options, evt: MouseDown, c: ContainerMetrics)
  {
    !s.disabled && evt.which == 1 && !o.cancel(evt.target) && InClientArea(evt, c)
  }

  /**
   * `onMouseDown`: past the guards it emits `start`, records the viewport in
   * document coordinates and the start position, takes the container's scroll
   * state for the new scroller, and starts listening.
   */
  function AfterMouseDown(s: Session, o: Options, evt: MouseDown, c: ContainerMetrics): Session
  {
    if !Accepts(s, o, evt, c) then s
    else
      var dims := ContainerDimensions(c);
      s.(events := s.events + [Start], containerDimensions := dims,
         startPosition := Position(evt.pageX, evt.pageY), curPosition := Position(evt.pageX, evt.pageY),
         viewport := Viewport(c.scrollTop, c.scrollLeft, c.scrollWidth, c.scrollHeight, dims.width, dims.height),
         listening := true)
  }

  /** `tick` goes past its first test: a box exists, or the pointer has moved at least `distance` on some axis. */
  predicate Engages(s: Session, o: Options, evt: Position)
  {
    s.hasBox ||
    !(Abs(s.startPosition.pageX - evt.pageX) < o.distance && Abs(s.startPosition.pageY - evt.pageY) < o.distance)
  }

  /**
   * The first steps of an engaged `tick`: record the pointer, and on the first
   * one create the overlays and then take the snapshots of everything the filter
   * finds, overlays included.
   */
  function BeginDrag(s: Session, o: Options, evt: Position, dom: Dom): Session
  {
    s.(lastPosition := s.curPosition, curPosition := evt, hasBox := true,
       selectables := if s.hasBox then s.selectables
                      else InitialSnapshots(Found(dom), o.filter, PositionerOf(o, dom)))
  }

  /** What the edge loop of `updateViewportScrolling` reads. */
  function ScrollInputsOf(s: Session, o: Options, evt: Position, scrollTimestamp: Option<real>, now: real): ScrollInputs
  {
    ScrollInputs(ScrollMetrics(evt, s.containerDimensions), Room(s.viewport), s.lastPosition,
                 o.scrollingThreshold, LagMultiplier(scrollTimestamp, now), o.scrollSpeedMultiplier)
  }

  /**
   * `updateViewportScrolling`: the pending timer is dropped, the edge loop runs
   * from the recorded positions and the scroll position, and a timer re-running
   * `tick` with this event and timestamp is pending exactly when an edge scrolled.
   */
  function AfterScrolling(s: Session, o: Options, evt: Position, scrollTimestamp: Option<real>, now: real): Session
  {
    var inp := ScrollInputsOf(s, o, evt, scrollTimestamp, now);
    var r := ScrollLoop(ScrollState(s.startPosition, s.curPosition, s.viewport.scrollTop, s.viewport.scrollLeft, false),
                        inp, |inp.metrics|);
    s.(startPosition := r.start, curPosition := r.cur,
       viewport := s.viewport.(scrollTop := r.scrollTop, scrollLeft := r.scrollLeft),
       scrollingTimeout := if r.scrolled then Some(Timer(evt, now)) else None)
  }

  /** `updateSelectionBox`: the box spans the start position and the pointer. */
  function AfterBoxUpdate(s: Session, evt: Position): Session
  {
    s.(selectionBoxExtents := SelectionBox(s.startPosition, evt, s.containerDimensions,
                                           s.viewport.scrollTop, s.viewport.scrollLeft))
  }

  /** `markSelected` under native scrolling: every snapshot re-evaluated against the box, one notification per change. */
  function AfterMarking(s: Session): Session
  {
    s.(selectables := Marked(s.selectables, s.selectionBoxExtents, NoOffset),
       events := s.events + Transitions(s.selectables, s.selectionBoxExtents, NoOffset))
  }

  /** `tick`: nothing below the drag distance with no box; otherwise begin, scroll, update the box, mark. */
  function AfterTick(s: Session, o: Options, evt: Position, scrollTimestamp: Option<real>, now: real, dom: Dom): Session
  {
    if !Engages(s, o, evt) then s
    else AfterMarking(AfterBoxUpdate(AfterScrolling(BeginDrag(s, o, evt, dom), o, evt, scrollTimestamp, now), evt))
  }

  /** `onMouseUp`: no timer, no listeners; with a box, the box goes and the result is reported. */
  function AfterMouseUp(s: Session): Session
  {
    var t := s.(scrollingTimeout := None, listening := false);
    if !s.hasBox then t
    else
      t.(hasBox := false, selectables := [],
         events := s.events + [Selected(SelectedElements(s.selectables)), Unselected(UnselectedElements(s.selectables)), Stop])
  }

  // ---------------------------------------------------------------------------
  // Properties of the handlers

  /**
   * A mouse-down changes the session exactly when it passes the guards; it then
   * arms an idle session (listening, no box yet) and emits `start` and nothing else.
   */
  lemma MouseDownArms(s: Session, o: Options, evt: MouseDown, c: ContainerMetrics)
    requires Consistent(s)
    ensures var t := AfterMouseDown(s, o, evt, c);
            Consistent(t) &&
            (t == s <==> !Accepts(s, o, evt, c)) &&
            (Accepts(s, o, evt, c) ==>
               t.events == s.events + [Start] &&
               t.startPosition == t.curPosition == Position(evt.pageX, evt.pageY) &&
               t.containerDimensions == ContainerDimensions(c) &&
               t.viewport == Viewport(c.scrollTop, c.scrollLeft, c.scrollWidth, c.scrollHeight, c.clientWidth, c.clientHeight) &&
               (StateOf(s) == Idle ==> StateOf(t) == Armed))
  {
    if Accepts(s, o, evt, c) {
      assert |AfterMouseDown(s, o, evt, c).events| == |s.events| + 1;
    }
  }

  /**
   * Every tick keeps the session consistent and listening. With no box yet and
   * the pointer within `distance` of the start on both axes it changes nothing;
   * otherwise it leaves a box behind, with the old current position as the
   * previous one and the pointer as the current one before scrolling.
   */
  lemma TickKeepsConsistency(s: Session, o: Options, evt: Position, scrollTimestamp: Option<real>, now: real, dom: Dom)
    requires Consistent(s) && s.listening
    ensures var t := AfterTick(s, o, evt, scrollTimestamp, now, dom);
            Consistent(t) && t.listening && t.disabled == s.disabled && t.containerDimensions == s.containerDimensions
    ensures var t := AfterTick(s, o, evt, scrollTimestamp, now, dom);
            !s.hasBox && Abs(s.startPosition.pageX - evt.pageX) < o.distance && Abs(s.startPosition.pageY - evt.pageY) < o.distance
            ==> t == s
    ensures var t := AfterTick(s, o, evt, scrollTimestamp, now, dom);
            Engages(s, o, evt) ==> StateOf(t) == Dragging && t.lastPosition == s.curPosition
  {
  }

  /**
   * After an engaged tick every snapshot keeps its element and geometry and is
   * flagged exactly when it overlaps the new box; the notifications appended are
   * exactly the flag changes.
   */
  lemma TickSelectionMatchesBox(s: Session, o: Options, evt: Position, scrollTimestamp: Option<real>, now: real, dom: Dom)
    requires Engages(s, o, evt)
    ensures var base := BeginDrag(s, o, evt, dom).selectables;
            var t := AfterTick(s, o, evt, scrollTimestamp, now, dom);
            |t.selectables| == |base| &&
            (forall k :: 0 <= k < |base| ==>
               t.selectables[k].element == base[k].element && t.selectables[k].geometry == base[k].geometry &&
               t.selectables[k].selected == Overlap(t.selectionBoxExtents, base[k].geometry, NoOffset)) &&
            t.events == s.events + Changes(base, t.selectables)
  {
    var b := AfterBoxUpdate(AfterScrolling(BeginDrag(s, o, evt, dom), o, evt, scrollTimestamp, now), evt);
    TransitionsAreChanges(b.selectables, b.selectionBoxExtents, NoOffset);
  }

  /**
   * The first engaged tick snapshots exactly the elements the filter finds once
   * the overlays exist, with the positioner's geometry, and can only emit
   * `selecting`: every snapshot starts unselected.
   */
  lemma FirstTickSnapshots(s: Session, o: Options, evt: Position, scrollTimestamp: Option<real>, now: real, dom: Dom)
    requires !s.hasBox && Engages(s, o, evt)
    ensures var t := AfterTick(s, o, evt, scrollTimestamp, now, dom);
            t.hasBox &&
            (forall d :: d in Found(dom) && o.filter(d) ==> d in Elements(t.selectables)) &&
            (forall k :: 0 <= k < |t.selectables| ==>
               o.filter(t.selectables[k].element) && t.selectables[k].element in Found(dom) &&
               t.selectables[k].geometry == PositionerOf(o, dom)(t.selectables[k].element)) &&
            (forall e :: Unselecting(e) !in t.events[|s.events|..])
  {
    var base := InitialSnapshots(Found(dom), o.filter, PositionerOf(o, dom));
    var b := AfterBoxUpdate(AfterScrolling(BeginDrag(s, o, evt, dom), o, evt, scrollTimestamp, now), evt);
    var t := AfterTick(s, o, evt, scrollTimestamp, now, dom);
    assert b.selectables == base;
    InitialSnapshotsComplete(Found(dom), o.filter, PositionerOf(o, dom));
    forall d | d in Found(dom) && o.filter(d) ensures d in Elements(t.selectables) {
      var k :| 0 <= k < |base| && Elements(base)[k] == d;
      assert Elements(t.selectables)[k] == d;
    }
    assert t.events[|s.events|..] == Transitions(base, b.selectionBoxExtents, NoOffset);
    forall e ensures Unselecting(e) !in t.events[|s.events|..] {
      TransitionsExactlyFlips(base, b.selectionBoxExtents, NoOffset, e);
    }
  }

  /**
   * Under a filter that accepts the overlays, as the default `*` does, the
   * plugin's own glass and box become selectables on the first tick.
   */
  lemma FirstTickSnapshotsOverlays(s: Session, o: Options, evt: Position, scrollTimestamp: Option<real>, now: real, dom: Dom)
    requires !s.hasBox && Engages(s, o, evt) && o.filter(dom.glass) && o.filter(dom.box)
    ensures var t := AfterTick(s, o, evt, scrollTimestamp, now, dom);
            dom.glass in Elements(t.selectables) && dom.box in Elements(t.selectables)
  {
    FirstTickSnapshots(s, o, evt, scrollTimestamp, now, dom);
    var f := Found(dom);
    assert f[|dom.descendants|] == dom.glass && f[|dom.descendants| + 1] == dom.box;
  }

  /**
   * On a well-formed page the snapshots name distinct elements after every
   * tick: the first tick takes them from distinct found elements, and later
   * ticks keep each snapshot's element. This is what makes the mouse-up lists
   * disjoint.
   */
  lemma TickSnapshotsDistinct(s: Session, o: Options, evt: Position, scrollTimestamp: Option<real>, now: real, dom: Dom)
    requires Consistent(s) && DomWellFormed(dom) && (s.hasBox ==> DistinctElements(s.selectables))
    ensures DistinctElements(AfterTick(s, o, evt, scrollTimestamp, now, dom).selectables)
  {
    if Engages(s, o, evt) {
      var f := Found(dom);
      forall i, j | 0 <= i < j < |f| ensures f[i] != f[j] {
        var n := |dom.descendants|;
        if j < n {
          assert f[i] == dom.descendants[i] && f[j] == dom.descendants[j];
        } else if i < n {
          assert f[i] == dom.descendants[i] && f[i] in dom.descendants;
        }
      }
      InitialSnapshotsDistinct(f, o.filter, PositionerOf(o, dom));
      var base := BeginDrag(s, o, evt, dom).selectables;
      assert DistinctElements(base);
      TickSelectionMatchesBox(s, o, evt, scrollTimestamp, now, dom);
    }
  }

  /**
   * After an engaged tick a timer is pending exactly when some edge qualified
   * for the pointer and the previous position, and it will re-run `tick` with
   * this event and the current time as timestamp.
   */
  lemma TickTimerIffScrolled(s: Session, o: Options, evt: Position, scrollTimestamp: Option<real>, now: real, dom: Dom)
    requires Engages(s, o, evt)
    ensures var inp := ScrollInputsOf(BeginDrag(s, o, evt, dom), o, evt, scrollTimestamp, now);
            var t := AfterTick(s, o, evt, scrollTimestamp, now, dom);
            (t.scrollingTimeout.Some? <==>
               exists i :: 0 <= i < 4 &&
                 Qualifies(inp.metrics[i], inp.available[i], inp.threshold, AxisDelta(evt, s.curPosition, inp.metrics[i].axis))) &&
            (t.scrollingTimeout.Some? ==> t.scrollingTimeout.value == Timer(evt, now))
  {
    var b := BeginDrag(s, o, evt, dom);
    var inp := ScrollInputsOf(b, o, evt, scrollTimestamp, now);
    var st := ScrollState(b.startPosition, b.curPosition, b.viewport.scrollTop, b.viewport.scrollLeft, false);
    ScrolledIffSomeEdgeQualifies(st, inp);
  }

  /**
   * After an engaged tick the box's side at the start position sits where the
   * start position was in the scrolled content before the tick, and its other
   * side at the pointer's place in the content now: scrolling moves the box's
   * anchor with the content, not with the viewport.
   */
  lemma TickKeepsAnchor(s: Session, o: Options, evt: Position, scrollTimestamp: Option<real>, now: real, dom: Dom)
    requires Engages(s, o, evt)
    ensures var t := AfterTick(s, o, evt, scrollTimestamp, now, dom);
            var c, box := s.containerDimensions, t.selectionBoxExtents;
            var a, b := s.startPosition.pageY - c.top + s.viewport.scrollTop, evt.pageY - c.top + t.viewport.scrollTop;
            var l, r := s.startPosition.pageX - c.left + s.viewport.scrollLeft, evt.pageX - c.left + t.viewport.scrollLeft;
            ((box.top == a && box.top + box.height == b) || (box.top == b && box.top + box.height == a)) &&
            ((box.left == l && box.left + box.width == r) || (box.left == r && box.left + box.width == l))
  {
    var b := BeginDrag(s, o, evt, dom);
    var inp := ScrollInputsOf(b, o, evt, scrollTimestamp, now);
    var st := ScrollState(b.startPosition, b.curPosition, b.viewport.scrollTop, b.viewport.scrollLeft, false);
    ScrollLoopCompensates(st, inp, |inp.metrics|);
    var sc := AfterScrolling(b, o, evt, scrollTimestamp, now);
    SelectionBoxSpans(sc.startPosition, evt, sc.containerDimensions, sc.viewport.scrollTop, sc.viewport.scrollLeft);
  }

  /**
   * With lag times speed at most 1, an engaged tick keeps a scroll position
   * that lies within the scroll extent within it.
   */
  lemma TickStaysInExtent(s: Session, o: Options, evt: Position, scrollTimestamp: Option<real>, now: real, dom: Dom)
    requires Engages(s, o, evt) && InExtent(s.viewport)
    requires LagMultiplier(scrollTimestamp, now) >= 0.0 && o.scrollSpeedMultiplier >= 0.0
    requires LagMultiplier(scrollTimestamp, now) * o.scrollSpeedMultiplier <= 1.0
    ensures InExtent(AfterTick(s, o, evt, scrollTimestamp, now, dom).viewport)
  {
    var b := BeginDrag(s, o, evt, dom);
    var inp := ScrollInputsOf(b, o, evt, scrollTimestamp, now);
    var st := ScrollState(b.startPosition, b.curPosition, b.viewport.scrollTop, b.viewport.scrollLeft, false);
    ScrollStaysInRange(st, inp, b.viewport);
  }

  /**
   * Mouse-up ends the gesture with no timer. With a box it appends `selected`,
   * `unselected` and `stop`: the two lists together hold every snapshot's element
   * once, the first exactly the selected ones and the second the others. With no
   * box it emits nothing.
   */
  lemma MouseUpReports(s: Session, e: Element)
    requires Consistent(s)
    ensures var t := AfterMouseUp(s);
            Consistent(t) && StateOf(t) == Idle && t.scrollingTimeout == None && t.selectables == []
    ensures var t, n := AfterMouseUp(s), |s.events|;
            s.hasBox ==>
              |t.events| == n + 3 && t.events[..n] == s.events &&
              t.events[n].Selected? && t.events[n + 1].Unselected? && t.events[n + 2] == Stop &&
              multiset(t.events[n].elements) + multiset(t.events[n + 1].elements) == multiset(Elements(s.selectables)) &&
              (e in t.events[n].elements <==>
                 exists i :: 0 <= i < |s.selectables| && s.selectables[i].element == e && s.selectables[i].selected) &&
              (e in t.events[n + 1].elements <==>
                 exists i :: 0 <= i < |s.selectables| && s.selectables[i].element == e && !s.selectables[i].selected)
    ensures var t, n := AfterMouseUp(s), |s.events|;
            s.hasBox && DistinctElements(s.selectables) ==> !(e in t.events[n].elements && e in t.events[n + 1].elements)
    ensures !s.hasBox ==> AfterMouseUp(s).events == s.events
  {
    if s.hasBox {
      PartitionCovers(s.selectables);
      PartitionMembership(s.selectables, e);
      if DistinctElements(s.selectables) {
        PartitionDisjoint(s.selectables, e);
      }
    }
  }

  // A whole gesture: a left-button press at (10, 10) in a 300 x 300 container at
  // (8, 8) in the document with nothing to scroll, a drag to (100, 100), release.
  // The page holds elements 1 and 2; the glass (3) and the box (4) are the
  // overlays, the glass covering the content and the box not yet sized.

  const ExampleOptions := DefaultOptions(_ => false)
  const ExampleContainer := ContainerMetrics(8.0, 8.0, 300.0, 300.0, 300.0, 300.0, 300.0, 300.0, 0.0, 0.0, 300.0, 300.0)

  function ExampleLayout(d: Element): Rect
  {
    if d == 1 then Rect(50.0, 50.0, 20.0, 20.0)
    else if d == 2 then Rect(200.0, 200.0, 20.0, 20.0)
    else if d == 3 then Rect(0.0, 0.0, 300.0, 300.0)
    else Rect(0.0, 0.0, 0.0, 0.0)
  }

  const ExampleDom := Dom([1, 2], 3, 4, ExampleLayout)
  const ExampleArmed := InitialSession(false).(
    events := [Start], containerDimensions := Rect(8.0, 8.0, 300.0, 300.0),
    startPosition := Position(10.0, 10.0), curPosition := Position(10.0, 10.0),
    viewport := Viewport(0.0, 0.0, 300.0, 300.0, 300.0, 300.0), listening := true)

  lemma ExampleMouseDown()
    ensures AfterMouseDown(InitialSession(false), ExampleOptions, MouseDown(1, 0, 10.0, 10.0), ExampleContainer) == ExampleArmed
  {
  }

  /** The default filter finds the two page elements and both overlays. */
  lemma ExampleFirstSnapshots()
    ensures InitialSnapshots(Found(ExampleDom), ExampleOptions.filter, PositionerOf(ExampleOptions, ExampleDom)) ==
            [Snapshot(1, Rect(50.0, 50.0, 20.0, 20.0), false), Snapshot(2, Rect(200.0, 200.0, 20.0, 20.0), false),
             Snapshot(3, Rect(0.0, 0.0, 300.0, 300.0), false), Snapshot(4, Rect(0.0, 0.0, 0.0, 0.0), false)]
  {
    var f, filter, pos := Found(ExampleDom), ExampleOptions.filter, PositionerOf(ExampleOptions, ExampleDom);
    assert f == [1, 2, 3, 4];
    assert f[..3] == [1, 2, 3] && f[..3][..2] == [1, 2] && f[..3][..2][..1] == [1] && f[..3][..2][..1][..0] == [];
    assert InitialSnapshots([1], filter, pos) == [Snapshot(1, Rect(50.0, 50.0, 20.0, 20.0), false)];
    assert InitialSnapshots([1, 2], filter, pos) ==
           InitialSnapshots([1], filter, pos) + [Snapshot(2, Rect(200.0, 200.0, 20.0, 20.0), false)];
    assert InitialSnapshots([1, 2, 3], filter, pos) ==
           InitialSnapshots([1, 2], filter, pos) + [Snapshot(3, Rect(0.0, 0.0, 300.0, 300.0), false)];
    assert InitialSnapshots(f, filter, pos) ==
           InitialSnapshots([1, 2, 3], filter, pos) + [Snapshot(4, Rect(0.0, 0.0, 0.0, 0.0), false)];
  }

  /** With no room left in any direction the scroll step moves nothing; it only drops the pending timer. */
  lemma NoRoomNoScroll(s: Session, o: Options, evt: Position, scrollTimestamp: Option<real>, now: real)
    requires forall i :: 0 <= i < 4 ==> Room(s.viewport)[i] <= 0.0
    ensures AfterScrolling(s, o, evt, scrollTimestamp, now) == s.(scrollingTimeout := None)
  {
    var inp := ScrollInputsOf(s, o, evt, scrollTimestamp, now);
    var st := ScrollState(s.startPosition, s.curPosition, s.viewport.scrollTop, s.viewport.scrollLeft, false);
    ScrollLoopQuiet(st, inp, |inp.metrics|);
  }

  /** The box (2, 2, 90, 90) selects element 1 and the glass; the loop runs from the last snapshot, so the glass comes first. */
  lemma ExampleMarking(ss: seq<Snapshot>)
    requires ss == [Snapshot(1, Rect(50.0, 50.0, 20.0, 20.0), false), Snapshot(2, Rect(200.0, 200.0, 20.0, 20.0), false),
                    Snapshot(3, Rect(0.0, 0.0, 300.0, 300.0), false), Snapshot(4, Rect(0.0, 0.0, 0.0, 0.0), false)]
    ensures Marked(ss, Rect(2.0, 2.0, 90.0, 90.0), NoOffset) ==
            [Snapshot(1, Rect(50.0, 50.0, 20.0, 20.0), true), Snapshot(2, Rect(200.0, 200.0, 20.0, 20.0), false),
             Snapshot(3, Rect(0.0, 0.0, 300.0, 300.0), true), Snapshot(4, Rect(0.0, 0.0, 0.0, 0.0), false)]
    ensures Transitions(ss, Rect(2.0, 2.0, 90.0, 90.0), NoOffset) == [Selecting(3)] + [Selecting(1)]
  {
    var box := Rect(2.0, 2.0, 90.0, 90.0);
    assert ss[1..][1..][1..][1..] == [];
    assert Transition(ss[3], box, NoOffset) == [] && Transition(ss[2], box, NoOffset) == [Selecting(3)];
    assert Transition(ss[1], box, NoOffset) == [] && Transition(ss[0], box, NoOffset) == [Selecting(1)];
    assert Transitions(ss[1..][1..][1..], box, NoOffset) == [];
    assert Transitions(ss[1..][1..], box, NoOffset) == [Selecting(3)];
    assert Transitions(ss[1..], box, NoOffset) == [Selecting(3)];
  }

  lemma ExampleBox(s: Session)
    requires s.startPosition == Position(10.0, 10.0) && s.containerDimensions == Rect(8.0, 8.0, 300.0, 300.0)
    requires s.viewport.scrollTop == 0.0 && s.viewport.scrollLeft == 0.0
    ensures AfterBoxUpdate(s, Position(100.0, 100.0)) == s.(selectionBoxExtents := Rect(2.0, 2.0, 90.0, 90.0))
  {
  }

  /** The result lists, each built from the last snapshot to the first. */
  lemma ExamplePartition(ss: seq<Snapshot>)
    requires ss == [Snapshot(1, Rect(50.0, 50.0, 20.0, 20.0), true), Snapshot(2, Rect(200.0, 200.0, 20.0, 20.0), false),
                    Snapshot(3, Rect(0.0, 0.0, 300.0, 300.0), true), Snapshot(4, Rect(0.0, 0.0, 0.0, 0.0), false)]
    ensures SelectedElements(ss) == [3, 1] && UnselectedElements(ss) == [4, 2]
  {
    var b, c, d := ss[1], ss[2], ss[3];
    assert ss[1..] == [b, c, d] && [b, c, d][1..] == [c, d] && [c, d][1..] == [d] && [d][1..] == [];
    assert SelectedElements([d]) == [];
    assert UnselectedElements([d]) == [4];
    assert SelectedElements([c, d]) == [3];
    assert UnselectedElements([c, d]) == [4];
    assert SelectedElements([b, c, d]) == [3];
    assert UnselectedElements([b, c, d]) == [4, 2];
  }

  /**
   * The first tick of the example: element 1 at (50, 50) and the glass overlap
   * the box, element 2 at (200, 200) and the unsized box element do not.
   */
  lemma ExampleTick(s: Session, evt: Position)
    requires !s.hasBox && s.events == [Start] && evt == Position(100.0, 100.0)
    requires s.startPosition == s.curPosition == Position(10.0, 10.0) && s.containerDimensions == Rect(8.0, 8.0, 300.0, 300.0)
    requires s.viewport == Viewport(0.0, 0.0, 300.0, 300.0, 300.0, 300.0)
    ensures var t := AfterTick(s, ExampleOptions, evt, None, 0.0, ExampleDom);
            t.hasBox && t.events == [Start] + ([Selecting(3)] + [Selecting(1)]) &&
            t.selectables == [Snapshot(1, Rect(50.0, 50.0, 20.0, 20.0), true), Snapshot(2, Rect(200.0, 200.0, 20.0, 20.0), false),
                              Snapshot(3, Rect(0.0, 0.0, 300.0, 300.0), true), Snapshot(4, Rect(0.0, 0.0, 0.0, 0.0), false)]
  {
    assert Engages(s, ExampleOptions, evt);
    var b := BeginDrag(s, ExampleOptions, evt, ExampleDom);
    ExampleFirstSnapshots();
    assert Room(b.viewport) == [0.0, 0.0, 0.0, 0.0];
    NoRoomNoScroll(b, ExampleOptions, evt, None, 0.0);
    ExampleBox(b);
    var bb := AfterBoxUpdate(b, evt);
    ExampleMarking(bb.selectables);
  }

  /**
   * Press, drag and release with the default filter: the log holds `selecting`
   * for the glass as well as for element 1, and the result lists hold the
   * overlays too.
   */
  lemma GestureExample(evt: Position)
    requires evt == Position(100.0, 100.0)
    ensures var s1 := AfterMouseDown(InitialSession(false), ExampleOptions, MouseDown(1, 0, 10.0, 10.0), ExampleContainer);
            var s2 := AfterTick(s1, ExampleOptions, evt, None, 0.0, ExampleDom);
            AfterMouseUp(s2).events == [Start] + ([Selecting(3)] + [Selecting(1)]) + [Selected([3, 1]), Unselected([4, 2]), Stop]
  {
    ExampleMouseDown();
    ExampleTick(ExampleArmed, evt);
    ExamplePartition(AfterTick(ExampleArmed, ExampleOptions, evt, None, 0.0, ExampleDom).selectables);
  }

  /** The timer re-runs `tick` with no DOM to read: a box exists, so no snapshots are taken. */
  const NoDom := Dom([], 0, 0, _ => Rect(0.0, 0.0, 0.0, 0.0))

  /** The pending timer fires: `tick` again with the stored event and the stored timestamp. */
  function AfterTimer(s: Session, o: Options, now: real): Session
    requires s.scrollingTimeout.Some?
  {
    AfterTick(s, o, s.scrollingTimeout.value.evt, Some(s.scrollingTimeout.value.scrollTimestamp), now, NoDom)
  }

  /** Once a box exists a tick reads nothing from the DOM, so the timer's re-run is a real `tick`. */
  lemma TickIgnoresDomOnceDragging(s: Session, o: Options, evt: Position, scrollTimestamp: Option<real>, now: real, dom1: Dom, dom2: Dom)
    requires s.hasBox
    ensures AfterTick(s, o, evt, scrollTimestamp, now, dom1) == AfterTick(s, o, evt, scrollTimestamp, now, dom2)
  {
  }

  /** Splits the snapshots by their flag, walking from the last snapshot to the first. */
  method PartitionBySelection(ss: seq<Snapshot>) returns (selected: seq<Element>, unselected: seq<Element>)
    ensures selected == SelectedElements(ss) && unselected == UnselectedElements(ss)
  {
    selected, unselected := [], [];
    var i := |ss| - 1;
    while i >= 0
      invariant -1 <= i < |ss|
      invariant selected == SelectedElements(ss[i + 1..])
      invariant unselected == UnselectedElements(ss[i + 1..])
    {
      assert ss[i..][1..] == ss[i + 1..];
      if ss[i].selected {
        selected := selected + [ss[i].element];
      } else {
        unselected := unselected + [ss[i].element];
      }
      i := i - 1;
    }
    assert ss[0..] == ss;
  }


  // ---------------------------------------------------------------------------
  // The plugin instance

  class XSelectable {
    const options: Options
    var disabled: bool
    var events: seq<Event>
    /** The document-wide mouse-move and mouse-up listeners are bound. */
    var listening: bool
    /** The selection box and its glass panel exist. */
    var hasBox: bool
    var containerDimensions: Rect
    var startPosition: Position
    var lastPosition: Position
    var curPosition: Position
    var selectionBoxExtents: Rect
    var selectables: seq<Snapshot>
    var scroller: Scroller?
    var scrollingTimeout: Option<Timer>

    /** The instance and its scroller as a session value. */
    function View(): Session
      reads this, scroller
    {
      Session(disabled, listening, hasBox, containerDimensions, startPosition, lastPosition, curPosition,
              selectionBoxExtents, selectables, events, scrollingTimeout,
              if scroller == null then NoViewport else scroller.Value())
    }

    /** The session is consistent, and a gesture has a scroller. */
    ghost predicate Valid()
      reads this, scroller
    {
      Consistent(View()) && (listening ==> scroller != null)
    }

    /** Plugin initialisation on a container. */
    constructor (options: Options, disabled: bool)
      ensures Valid() && View() == InitialSession(disabled)
      ensures this.options == options && scroller == null
    {
      this.options := options;
      this.disabled := disabled;
      events := [];
      listening, hasBox := false, false;
      containerDimensions := Rect(0.0, 0.0, 0.0, 0.0);
      startPosition, lastPosition, curPosition := Position(0.0, 0.0), Position(0.0, 0.0), Position(0.0, 0.0);
      selectionBoxExtents := Rect(0.0, 0.0, 0.0, 0.0);
      selectables := [];
      scroller := null;
      scrollingTimeout := None;
    }

    method Enable()
      requires Valid()
      modifies this`disabled
      ensures Valid() && View() == old(View()).(disabled := false)
    {
      disabled := false;
    }

    method Disable()
      requires Valid()
      modifies this`disabled
      ensures Valid() && View() == old(View()).(disabled := true)
    {
      disabled := true;
    }

    /**
     * Mouse-down: past the guards it emits `start`, records the viewport and the
     * start position, creates a scroller on the container and starts listening;
     * otherwise nothing changes.
     */
    method OnMouseDown(evt: MouseDown, c: ContainerMetrics)
      requires Valid()
      modifies this
      ensures Valid() && View() == AfterMouseDown(old(View()), options, evt, c)
      ensures Accepts(old(View()), options, evt, c) ==> fresh(scroller)
      ensures !Accepts(old(View()), options, evt, c) ==> unchanged(this)
    {
      // Disabled, not the first button, a cancelled target, or a scrollbar.
      if disabled || evt.which != 1 || options.cancel(evt.target) ||
         evt.pageX > c.offsetLeft + c.clientWidth || evt.pageY > c.offsetTop + c.clientHeight
      {
        return;
      }
      events := events + [Start];
      containerDimensions := ContainerDimensions(c);
      startPosition := Position(evt.pageX, evt.pageY);
      curPosition := Position(evt.pageX, evt.pageY);
      scroller := new Scroller(c.scrollTop, c.scrollLeft, c.scrollWidth, c.scrollHeight,
                               containerDimensions.width, containerDimensions.height);
      listening := true;
    }

    /** Snapshots every element the filter finds, overlays included, unselected, with the positioner's geometry. */
    method InitSelectablesOnGestureStart(dom: Dom)
      modifies this`selectables
      ensures selectables == InitialSnapshots(Found(dom), options.filter, PositionerOf(options, dom))
    {
      var positioner := PositionerOf(options, dom);
      var ds := Found(dom);
      var snapshots: seq<Snapshot> := [];
      for i := 0 to |ds|
        invariant snapshots == InitialSnapshots(ds[..i], options.filter, positioner)
      {
        assert ds[..i + 1][..i] == ds[..i];
        if options.filter(ds[i]) {
          snapshots := snapshots + [Snapshot(ds[i], positioner(ds[i]), false)];
        }
      }
      assert ds[..|ds|] == ds;
      selectables := snapshots;
    }

    /** Recomputes the selection box from the start position and the pointer. */
    method UpdateSelectionBox(evt: Position)
      requires scroller != null
      modifies this`selectionBoxExtents
      ensures View() == AfterBoxUpdate(old(View()), evt)
    {
      selectionBoxExtents := Rect(
        Min(startPosition.pageY, evt.pageY) - containerDimensions.top + scroller.scrollTop,
        Min(startPosition.pageX, evt.pageX) - containerDimensions.left + scroller.scrollLeft,
        Abs(startPosition.pageX - evt.pageX),
        Abs(startPosition.pageY - evt.pageY));
    }

    /**
     * Clears the pending timer, scrolls on every qualifying edge (last edge
     * first) moving start and current positions back by the same shift, and arms
     * a new timer exactly when some edge scrolled.
     */
    method UpdateViewportScrolling(evt: Position, scrollTimestamp: Option<real>, now: real)
      requires scroller != null
      modifies this`scrollingTimeout, this`startPosition, this`curPosition, scroller`scrollTop, scroller`scrollLeft
      ensures View() == AfterScrolling(old(View()), options, evt, scrollTimestamp, now)
    {
      if scrollingTimeout.Some? {
        scrollingTimeout := None;
      }
      var metrics := ScrollMetrics(evt, containerDimensions);
      var available := scroller.ScrollableDistances();
      var lag := LagMultiplier(scrollTimestamp, now);
      var timestamp := now;
      var threshold, speed := options.scrollingThreshold, options.scrollSpeedMultiplier;
      ghost var inp := ScrollInputs(metrics, available, lastPosition, threshold, lag, speed);
      assert inp == ScrollInputsOf(old(View()), options, evt, scrollTimestamp, now);
      var scrolled := ScrollEdges(inp, metrics, available, threshold, lag, speed);
      if scrolled {
        scrollingTimeout := Some(Timer(evt, timestamp));
      }
    }

    /** The edge loop of `UpdateViewportScrolling`, last edge first. */
    method ScrollEdges(ghost inp: ScrollInputs, metrics: seq<Metric>, available: seq<real>, threshold: real, lag: real, speed: real)
      returns (scrolled: bool)
      requires scroller != null && WellFormed(inp)
      requires metrics == inp.metrics && available == inp.available && lastPosition == inp.last
      requires threshold == inp.threshold && lag == inp.lag && speed == inp.speed
      modifies this`startPosition, this`curPosition, scroller`scrollTop, scroller`scrollLeft
      ensures Tracked(scrolled) == ScrollLoop(old(Tracked(false)), inp, |inp.metrics|)
    {
      scrolled := false;
      var i := |metrics| - 1;
      while i >= 0
        invariant -1 <= i < |metrics|
        invariant ScrollLoop(Tracked(scrolled), inp, i + 1) == ScrollLoop(old(Tracked(false)), inp, |inp.metrics|)
        modifies this`startPosition, this`curPosition, scroller`scrollTop, scroller`scrollLeft
      {
        scrolled := ScrollEdge(inp, i, metrics[i], available[i], threshold, lag, speed, scrolled);
        i := i - 1;
      }
    }

    /** What the edge loop of `UpdateViewportScrolling` tracks. */
    function Tracked(scrolled: bool): ScrollState
      requires scroller != null
      reads this, scroller
    {
      ScrollState(startPosition, curPosition, scroller.scrollTop, scroller.scrollLeft, scrolled)
    }

    /** One pass of the loop in `UpdateViewportScrolling`: edge `i` scrolls if it qualifies. */
    method ScrollEdge(ghost inp: ScrollInputs, i: nat, metric: Metric, avail: real, threshold: real, lag: real, speed: real,
                      scrolled: bool) returns (scrolledAfter: bool)
      requires scroller != null && WellFormed(inp) && i < |inp.metrics|
      requires metric == inp.metrics[i] && avail == inp.available[i] && lastPosition == inp.last
      requires threshold == inp.threshold && lag == inp.lag && speed == inp.speed
      modifies this`startPosition, this`curPosition, scroller`scrollTop, scroller`scrollLeft
      ensures Tracked(scrolledAfter) == EdgeStep(old(Tracked(scrolled)), inp, i)
    {
      scrolledAfter := scrolled;
      if metric.distance < threshold && avail > 0.0 &&
         Sign(AxisDelta(curPosition, lastPosition, metric.axis)) == metric.direction
      {
        var shift := EdgeShift(metric, avail, threshold, lag, speed);
        scroller.Scroll(metric.axis, shift);
        startPosition := MoveBack(startPosition, metric.axis, shift);
        curPosition := MoveBack(curPosition, metric.axis, shift);
        scrolledAfter := true;
      }
    }

    /**
     * Re-evaluates every snapshot against the box (last one first): a flag that
     * changes emits `selecting` or `unselecting`; an unchanged one emits nothing.
     */
    method MarkSelected()
      requires scroller != null
      modifies this`selectables, this`events
      ensures selectables == Marked(old(selectables), selectionBoxExtents, NoOffset)
      ensures events == old(events) + Transitions(old(selectables), selectionBoxExtents, NoOffset)
    {
      var box := selectionBoxExtents;
      var offset := scroller.ScrollOffset();
      ghost var s0 := selectables;
      var i := |selectables| - 1;
      while i >= 0
        invariant -1 <= i < |s0|
        invariant |selectables| == |s0|
        invariant forall k :: 0 <= k <= i ==> selectables[k] == s0[k]
        invariant forall k :: i < k < |s0| ==> selectables[k] == Evaluate(s0[k], box, offset)
        invariant events == old(events) + Transitions(s0[i + 1..], box, offset)
      {
        MarkStep(s0, selectables, i, box, offset);
        MarkOne(i, box, offset);
        i := i - 1;
      }
      assert s0[0..] == s0;
      assert selectables == Marked(s0, box, offset);
    }

    /** One pass of the loop in `MarkSelected`: evaluates the snapshot at `i`. */
    method MarkOne(i: int, box: Rect, offset: Offset)
      requires 0 <= i < |selectables|
      modifies this`selectables, this`events
      ensures selectables == old(selectables)[i := Evaluate(old(selectables)[i], box, offset)]
      ensures events == old(events) + Transition(old(selectables)[i], box, offset)
    {
      var selectable := selectables[i];
      if Overlap(box, selectable.geometry, offset) {
        if !selectable.selected {
          selectables := selectables[i := selectable.(selected := true)];
          events := events + [Selecting(selectable.element)];
        }
      } else if selectable.selected {
        selectables := selectables[i := selectable.(selected := false)];
        events := events + [Unselecting(selectable.element)];
      }
    }

    /** Mouse move (with no timestamp) or a timer re-run (with the timestamp of the previous scroll step). */
    method Tick(evt: Position, scrollTimestamp: Option<real>, now: real, dom: Dom)
      requires Valid() && listening
      modifies this, scroller
      ensures Valid() && scroller == old(scroller)
      ensures View() == AfterTick(old(View()), options, evt, scrollTimestamp, now, dom)
    {
      if !hasBox && Abs(startPosition.pageX - evt.pageX) < options.distance &&
         Abs(startPosition.pageY - evt.pageY) < options.distance
      {
        return;
      }
      Drag(evt, scrollTimestamp, now, dom);
    }

    /** The part of `Tick` past the drag-distance test: record the pointer, create the box if needed, then refresh. */
    method Drag(evt: Position, scrollTimestamp: Option<real>, now: real, dom: Dom)
      requires Valid() && listening && Engages(View(), options, evt)
      modifies this, scroller
      ensures Valid() && scroller == old(scroller)
      ensures View() == AfterTick(old(View()), options, evt, scrollTimestamp, now, dom)
    {
      lastPosition := curPosition;
      curPosition := evt;
      if !hasBox {
        hasBox := true;
        InitSelectablesOnGestureStart(dom);
      }
      assert View() == BeginDrag(old(View()), options, evt, dom);
      Refresh(evt, scrollTimestamp, now);
    }

    /** The steps of `Tick` once the box exists: scroll, resize the box, re-evaluate the selection. */
    method Refresh(evt: Position, scrollTimestamp: Option<real>, now: real)
      requires Valid() && hasBox
      modifies this`scrollingTimeout, this`startPosition, this`curPosition, this`selectionBoxExtents,
               this`selectables, this`events, scroller`scrollTop, scroller`scrollLeft
      ensures Valid()
      ensures View() == AfterMarking(AfterBoxUpdate(AfterScrolling(old(View()), options, evt, scrollTimestamp, now), evt))
    {
      UpdateViewportScrolling(evt, scrollTimestamp, now);
      UpdateSelectionBox(evt);
      MarkSelected();
    }

    /** The pending auto-scroll timer fires: `Tick` again with the last event and the scroll timestamp. */
    method FireTimer(now: real)
      requires Valid() && scrollingTimeout.Some?
      modifies this, scroller
      ensures Valid() && scroller == old(scroller)
      ensures old(View()).scrollingTimeout.Some? && View() == AfterTimer(old(View()), options, now)
    {
      var timer := scrollingTimeout.value;
      Tick(timer.evt, Some(timer.scrollTimestamp), now, NoDom);
    }

    /**
     * Mouse-up: cancels the pending timer and stops listening. If a box existed,
     * it is removed and `selected`, `unselected` and `stop` are emitted, in that
     * order, with the snapshots split by their flag (last snapshot first).
     */
    method OnMouseUp()
      requires Valid()
      modifies this
      ensures Valid() && scroller == old(scroller)
      ensures View() == AfterMouseUp(old(View()))
    {
      if scrollingTimeout.Some? {
        scrollingTimeout := None;
      }
      listening := false;
      if hasBox {
        hasBox := false;
        var selected, unselected := PartitionBySelection(selectables);
        selectables := [];
        events := events + [Selected(selected), Unselected(unselected), Stop];
      }
    }
  }
}
