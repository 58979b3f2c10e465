# jquery-xselectable, modelled in Dafny

jquery-xselectable is a jQuery plugin for rubber-band selection. The user
presses the left mouse button inside a container and drags. The plugin then
draws a selection box. It checks the box against every selectable
descendant, flags the ones it overlaps, and notifies the page of each flag
change (`selecting` / `unselecting`). When the pointer nears an edge of a
scrollable container, the plugin scrolls that container and keeps scrolling
on a timer while the pointer is still. On release it reports the final
`selected` and `unselected` lists and then `stop`.

The model covers the plugin's core:

- `geometry.dfy` (module `Geometry`): the `sign` helper, the 1-D overlap
  test `overlap1D`, and the rectangle test `overlap` built on it.
  - Coordinates are `real`.
- `selection.dfy` (module `Selection`):
  - selectable snapshots (element, geometry, selected flag);
  - the snapshot list built at gesture start;
  - `markSelected`, which re-tests every snapshot against the box and emits
    one notification per flag change;
  - the final partition into selected and unselected elements.
- `autoscroll.dfy` (module `AutoScroll`):
  - the four edge metrics;
  - the frame-lag multiplier;
  - the per-edge step and shift;
  - the edge loop of `updateViewportScrolling`, as the function `ScrollLoop`;
  - the default scroller (`defaultScroller`), as the class `Scroller` over
    the container's native scroll position.
- `gesture.dfy` (module `Gesture`):
  - the plugin's per-container state as a value `Session`, with one pure
    step function per handler: `AfterMouseDown`, `AfterTick`,
    `AfterMouseUp` and `AfterTimer`. Lemmas about these functions carry the
    properties.
  - the class `XSelectable`, whose fields are the plugin's `data` record.
    Its methods are the handlers and helpers written imperatively, with the
    source's loops. The handlers (`OnMouseDown`, `Tick`, `FireTimer`,
    `OnMouseUp`, `Enable`, `Disable`) and the steps of a tick
    (`UpdateSelectionBox`, `UpdateViewportScrolling`, `Drag`, `Refresh`) are
    proved to move `View()` (the fields read as a `Session`) exactly as the
    matching step function says. The inner helpers `InitSelectablesOnGestureStart`,
    `MarkSelected`, `MarkOne`, `ScrollEdges` and `ScrollEdge` state their effect
    on the fields they change, their frames fix the rest, and `Drag` and
    `Refresh` lift those effects to `View()`.

Event handlers are modelled as direct calls:

- Binding the document's `mousemove` / `mouseup` listeners is the
  `listening` flag.
- The pending `setTimeout` is the `scrollingTimeout` field. It holds the
  event and timestamp that the timer would pass back to `tick`.
- `FireTimer` is the timer's callback.
- The clock is a parameter `now`.
- The page is a parameter `Dom`: the container's descendants, the two
  overlay elements the plugin adds when the box first appears (the glass
  and the box inside it), and the layout the default positioner reads.

Triggered jQuery events are appended to an `events` sequence.

## Model

| member | source | states |
|---|---|---|
| Geometry.Sign | xselectable.js:238-240 | the result is -1, 0 or 1; sign times value is the absolute value; zero exactly on zero |
| Geometry.Ceil | xselectable.js:392 | `Math.ceil`: the least integer not below the argument |
| Geometry.Overlap1D | xselectable.js:456-461 | for non-negative widths, the three endpoint/containment tests hold exactly when the closed intervals share a point (max of starts at most min of ends) |
| Geometry.Overlap | xselectable.js:448-454 | for non-negative sizes, true exactly when the closed rectangles intersect, the second one translated by the offset |
| Geometry.Overlap1DCommonPoint | xselectable.js:456-461 | any common point witnesses overlap; an overlap always contains the larger start |
| Geometry.Overlap1DContainmentAndTouching | xselectable.js:456-461 | containment either way, and intervals that only touch at an endpoint, count as overlap |
| Geometry.EndpointTestsMissContainment | xselectable.js:458-460 | without the third (containment) test, an interval strictly inside another would be missed |
| Geometry.Overlap1DSymmetric | xselectable.js:456-461 | the 1-D test is symmetric for non-negative widths |
| Geometry.OverlapSymmetric | xselectable.js:448-454 | rectangle overlap with no offset is symmetric |
| Geometry.OverlapReflexive | xselectable.js:448-454 | every rectangle overlaps itself with no offset |
| Geometry.OverlapOffsetIsTranslation | xselectable.js:448-454 | the scroll offset acts exactly as a translation of the selectable's rectangle |
| Selection.InitialSnapshots | xselectable.js:270-284 | every snapshot is an unselected, filter-matching descendant with the positioner's geometry; no more snapshots than descendants |
| Selection.InitialSnapshotsComplete | xselectable.js:276-282 | every filter-matching descendant gets a snapshot |
| Selection.InitialSnapshotsDistinct | xselectable.js:276-282 | distinct descendants give snapshots of distinct elements |
| Selection.Marked | xselectable.js:423-446 | same length; each snapshot keeps element and geometry and is flagged exactly when it overlaps the box |
| Selection.MarkStep | xselectable.js:429-445 | one down-counting iteration of the mark loop extends the marked suffix and its notifications by one snapshot |
| Selection.Evaluate | xselectable.js:429-445 | no contract of its own: one snapshot's flag set to its overlap; `Marked` states the result |
| Selection.Transition | xselectable.js:431-444 | no contract of its own: the notification of one snapshot's flag change |
| Selection.Transitions | xselectable.js:429-445 | no contract of its own: the mark loop's notifications, last snapshot first; `TransitionsAreChanges` and `TransitionsExactlyFlips` state them |
| Selection.TransitionsAreChanges | xselectable.js:429-445 | the notifications are exactly the flag changes between the old and the marked snapshots, in reverse index order |
| Selection.NoChangesNoEvents | xselectable.js:431-444 | no flag change, no notification |
| Selection.MarkedIdempotent | xselectable.js:423-446 | marking twice against the same box equals marking once; the second pass notifies nothing |
| Selection.TransitionsExactlyFlips | xselectable.js:431-444 | `selecting(e)` is emitted iff some unselected snapshot of e now overlaps; `unselecting(e)` iff some selected one no longer does |
| Selection.PartitionCovers | xselectable.js:603-607 | the selected and unselected lists together are a permutation of the snapshots' elements |
| Selection.PartitionMembership | xselectable.js:603-607 | e is in the selected list iff some selected snapshot has it; in the unselected list iff some unselected one has it |
| Selection.PartitionDisjoint | xselectable.js:603-607 | with distinct elements no element is in both lists |
| Selection.SelectedElements | xselectable.js:603-607 | no contract of its own: the selected elements, last snapshot first; `PartitionCovers`, `PartitionMembership` and `PartitionDisjoint` state them |
| Selection.UnselectedElements | xselectable.js:603-607 | no contract of its own: the unselected elements, last snapshot first; stated by the same lemmas |
| Selection.FinalListsMatchBox | xselectable.js:603-607 | after marking, the selected list holds exactly the elements overlapping the box and the unselected list the others |
| AutoScroll.ScrollMetrics | xselectable.js:330-359 | four edges (top, right, bottom, left) with their axes and directions; on the inner side of each edge, the distance is the pointer's distance to it; past an edge, zero; so distances are non-negative and opposite ones add up to the extent inside the container |
| AutoScroll.LagMultiplier | xselectable.js:367-369 | 1 with no timestamp or a timestamp of 0 (falsy); otherwise elapsed time over 16 ms |
| AutoScroll.AxisDelta | xselectable.js:383-386 | no contract of its own: the current minus the previous position on the edge's axis; `EdgeScrollsIff` and `ScrolledIffSomeEdgeQualifies` use it |
| AutoScroll.Qualifies | xselectable.js:375-387 | no contract of its own: within the threshold, room left, moving toward the edge; `EdgeScrollsIff` ties it to scrolling |
| AutoScroll.Step | xselectable.js:391-393 | no contract of its own: the capped, rounded-up step; `StepBounds` and `StepMonotone` state its properties |
| AutoScroll.Shift | xselectable.js:391-393 | no contract of its own: the signed step scaled by lag and speed; `ShiftBounds` and `ShiftNonzero` state its properties |
| AutoScroll.EdgeShift | xselectable.js:391-393 | no contract of its own: an edge's shift; `ShiftCanExceedAvailable` shows the overshoot |
| AutoScroll.MoveBack | xselectable.js:400-401 | no contract of its own: a recorded position moved back by the shift; `ScrollLoopCompensates` states the effect |
| AutoScroll.EdgeStep | xselectable.js:372-403 | no contract of its own: one edge's iteration; `EdgeScrollsIff` states when it scrolls |
| AutoScroll.ScrollLoop | xselectable.js:371-404 | no contract of its own: the down-counting edge loop; `ScrollLoopCompensates`, `ScrollLoopQuiet`, `ScrolledIffSomeEdgeQualifies` and `ScrollStaysInRange` state its properties |
| AutoScroll.StepBounds | xselectable.js:391-393 | a qualifying edge's step is positive, at most the remaining room and the rounded-up tenth of the threshold overshoot, and at least 1 when 1 px of room is left |
| AutoScroll.StepMonotone | xselectable.js:391-393 | closer to the edge, a step at least as big |
| AutoScroll.ShiftBounds | xselectable.js:391-393 | the magnitude is step times lag times speed; the sign is the edge's direction; within the room when lag times speed is at most 1; the signed step when both are 1 |
| AutoScroll.ShiftCanExceedAvailable | xselectable.js:391-393 | with lag times speed above 1 the shift exceeds the room left (5 px of room, shift 10) |
| AutoScroll.EdgeScrollsIff | xselectable.js:375-403 | an edge moves the viewport exactly when it qualifies: inside the threshold, room left, pointer moving toward it |
| AutoScroll.ShiftNonzero | xselectable.js:391-393 | a nonzero step with nonzero multipliers gives a nonzero shift |
| AutoScroll.ScrollLoopCompensates | xselectable.js:371-404 | the loop keeps start minus current, and keeps start plus scroll and current plus scroll (content coordinates) fixed; no scroll means no change |
| AutoScroll.ScrollLoopQuiet | xselectable.js:371-404 | when no edge qualifies at entry, the loop changes nothing |
| AutoScroll.ScrolledIffSomeEdgeQualifies | xselectable.js:371-404 | something scrolls iff some edge qualifies for the entry positions |
| AutoScroll.ScrollStaysInRange | xselectable.js:371-404 | with lag times speed at most 1, a scroll position within the extent stays within it |
| AutoScroll.RightEdgeExample | xselectable.js:371-404 | 5 px from the right edge, moving right, 500 px of room: scroll right by 10, both positions move left by 10, scrolled |
| AutoScroll.OppositeEdgesBothScroll | xselectable.js:375-387 | in a container smaller than twice the threshold, a slow downward move makes bottom scroll +5 and top scroll -5 in one step, arming the timer with no net scroll |
| AutoScroll.Room | xselectable.js:165-172 | the four scrollable distances: scrollTop and scrollLeft as-is, each opposite side the extent minus view minus position |
| AutoScroll.Scroller.constructor | xselectable.js:154-156 | the scroller reads the container's scroll position, extent and view size |
| AutoScroll.Scroller.ScrollableDistances | xselectable.js:165-172 | returns `Room` of the current viewport |
| AutoScroll.Scroller.Scroll | xselectable.js:183-186 | adds the shift to scrollTop (vertical) or scrollLeft (horizontal), nothing else changes |
| AutoScroll.Scroller.ScrollOffset | xselectable.js:201-203 | native scrolling needs no offset: (0, 0) |
| Gesture.SelectionBox | xselectable.js:291-306 | the box has non-negative width and height |
| Gesture.SelectionBoxSpans | xselectable.js:291-306 | on each axis one side is at the start and the other at the pointer, both in container content coordinates |
| Gesture.DefaultOptions | xselectable.js:90-144 | no contract of its own: distance 0, cancel on form controls, filter matching every element, threshold 100, speed 1, no custom positioner; used by the examples |
| Gesture.ContainerDimensions | xselectable.js:499-506 | no contract of its own: the viewport in document coordinates, moved inward by half the border; `MouseDownArms` proves an accepted mouse-down records it |
| Gesture.InClientArea | xselectable.js:488-491 | no contract of its own: the scrollbar guard, one of the tests `MouseDownArms` ties to acceptance |
| Gesture.Accepts | xselectable.js:472-491 | no contract of its own: the mouse-down guards (and the bound listener); `MouseDownArms` proves the session changes exactly when they pass |
| Gesture.AfterMouseDown | xselectable.js:467-532 | no contract of its own: `onMouseDown` on the session; its properties are `MouseDownArms` |
| Gesture.Engages | xselectable.js:550-554 | no contract of its own: the drag-distance test; `TickKeepsConsistency` proves a tick that fails it changes nothing |
| Gesture.BeginDrag | xselectable.js:556-566 | no contract of its own: pointer recorded, overlays created and snapshotted once; `FirstTickSnapshots` states what it snapshots |
| Gesture.AfterScrolling | xselectable.js:317-415 | no contract of its own: `updateViewportScrolling` on the session; `TickTimerIffScrolled`, `TickKeepsAnchor`, `TickStaysInExtent` and `NoRoomNoScroll` state its effect |
| Gesture.AfterBoxUpdate | xselectable.js:291-306 | no contract of its own: `updateSelectionBox` on the session; `SelectionBoxSpans` and `TickKeepsAnchor` state the box |
| Gesture.AfterMarking | xselectable.js:423-446 | no contract of its own: `markSelected` on the session; `TickSelectionMatchesBox` states its effect |
| Gesture.AfterTick | xselectable.js:544-577 | no contract of its own: `tick` on the session; `TickKeepsConsistency`, `TickSelectionMatchesBox`, `FirstTickSnapshots` and the other tick lemmas state its properties |
| Gesture.AfterMouseUp | xselectable.js:582-616 | no contract of its own: `onMouseUp` on the session; its properties are `MouseUpReports` |
| Gesture.AfterTimer | xselectable.js:410-414 | no contract of its own: the timer callback re-running `tick` with the saved event and timestamp; `TickIgnoresDomOnceDragging` shows the empty page it passes is irrelevant |
| Gesture.MouseDownArms | xselectable.js:467-532 | a mouse-down changes the session iff it passes the guards (enabled, left button, not cancelled, not on a scrollbar); then it emits only `start`, sets start and current position to the event's position, records `ContainerDimensions` and the container's scroll state and client size, and Idle becomes Armed |
| Gesture.TickKeepsConsistency | xselectable.js:544-577 | a tick keeps the session consistent and listening; before a box exists, a move under `distance` on both axes is a no-op; otherwise the state is Dragging and the previous position is the old current one |
| Gesture.TickSelectionMatchesBox | xselectable.js:544-577 | after an engaged tick every snapshot is flagged exactly when it overlaps the new box, and the appended notifications are exactly the flag changes |
| Gesture.FirstTickSnapshots | xselectable.js:559-566 | the first engaged tick creates the box and snapshots exactly the filter-matching elements found after the overlays exist (page descendants, glass, box), with the positioner's geometry; it emits no `unselecting` |
| Gesture.FirstTickSnapshotsOverlays | xselectable.js:559-566 | under a filter that accepts the overlays, as the default `*` does, the glass and the box become selectables |
| Gesture.Found | xselectable.js:276 | what the filter query sees once the overlays exist: the descendants in document order, then the glass, then the box |
| Gesture.TickSnapshotsDistinct | xselectable.js:559-576 | on a well-formed page (distinct elements, fresh overlays) the snapshots name distinct elements after every tick, so the mouse-up lists are disjoint |
| Gesture.PositionerOf | xselectable.js:278 | no contract of its own: the custom positioner if given, otherwise the default positioner (229-236) read as `Dom.layout`; `FirstTickSnapshots` states the geometry it gives |
| Gesture.ScrollInputsOf | xselectable.js:330-369 | no contract of its own: what the edge loop reads, namely the metrics, the distances read once (362), the previous position, the threshold, the lag and the speed; `TickTimerIffScrolled` and `TickStaysInExtent` use it |
| Gesture.TickTimerIffScrolled | xselectable.js:410-414 | after an engaged tick a timer is pending iff some edge qualified, and it carries this event with the current time |
| Gesture.TickKeepsAnchor | xselectable.js:396-402 | after an engaged tick the box's anchor side is the start's content position before the tick; the other side is the pointer's content position after scrolling |
| Gesture.TickStaysInExtent | xselectable.js:371-404 | with lag times speed at most 1 the tick keeps the scroll position within the scroll extent |
| Gesture.NoRoomNoScroll | xselectable.js:371-404 | with no room on any edge the scroll step only clears the timer |
| Gesture.TickIgnoresDomOnceDragging | xselectable.js:559-566 | once the box exists, the page layout passed to a tick does not matter |
| Gesture.MouseUpReports | xselectable.js:582-616 | mouse-up ends idle with no timer; with a box it appends `selected`, `unselected`, `stop`, whose lists cover the snapshots and split them by flag (disjoint for distinct elements); with no box it emits nothing |
| Gesture.ExampleMouseDown | xselectable.js:467-532 | a left press at (10, 10) arms the example session |
| Gesture.ExampleFirstSnapshots | xselectable.js:270-284 | with the default filter the example page gives four unselected snapshots: elements 1 and 2, the glass and the box |
| Gesture.ExampleMarking | xselectable.js:423-446 | the box (2, 2, 90, 90) selects element 1 and the glass, and emits `selecting(glass)` then `selecting(1)` |
| Gesture.ExampleBox | xselectable.js:291-306 | a drag from (10, 10) to (100, 100) in a container at (8, 8) gives the box (2, 2, 90, 90) |
| Gesture.ExamplePartition | xselectable.js:603-607 | the final lists are [glass, 1] and [box, 2] |
| Gesture.ExampleTick | xselectable.js:544-577 | the first tick of the example creates the box and emits `selecting(glass)`, `selecting(1)` |
| Gesture.GestureExample | xselectable.js:467-616 | press, drag, release with the default filter emits `start`, `selecting(glass)`, `selecting(1)`, `selected([glass, 1])`, `unselected([box, 2])`, `stop` |
| Gesture.PartitionBySelection | xselectable.js:603-607 | the down-counting loop builds exactly the selected and unselected lists |
| Gesture.XSelectable.constructor | xselectable.js:626-636 | a fresh plugin state is idle, with the given options and disabled flag |
| Gesture.XSelectable.Enable | xselectable.js:653-661 | clears the disabled flag, nothing else changes |
| Gesture.XSelectable.Disable | xselectable.js:666-674 | sets the disabled flag, nothing else changes |
| Gesture.XSelectable.OnMouseDown | xselectable.js:467-532 | moves the state as `AfterMouseDown`; creates a fresh scroller when accepted, changes nothing otherwise |
| Gesture.XSelectable.InitSelectablesOnGestureStart | xselectable.js:270-284 | the push loop leaves `InitialSnapshots` of everything the filter finds, overlays included |
| Gesture.XSelectable.UpdateSelectionBox | xselectable.js:291-306 | moves the state as `AfterBoxUpdate` |
| Gesture.XSelectable.UpdateViewportScrolling | xselectable.js:317-415 | moves the state and the scroller as `AfterScrolling` |
| Gesture.XSelectable.ScrollEdges | xselectable.js:371-404 | the edge loop moves positions and scroller as `ScrollLoop` over all edges |
| Gesture.XSelectable.ScrollEdge | xselectable.js:372-403 | one edge's iteration moves positions and scroller as `EdgeStep` |
| Gesture.XSelectable.MarkSelected | xselectable.js:423-446 | snapshots become `Marked` against the box; events gain `Transitions` |
| Gesture.XSelectable.MarkOne | xselectable.js:427-445 | one snapshot is re-evaluated and its notification appended |
| Gesture.XSelectable.Tick | xselectable.js:544-577 | moves the state as `AfterTick` |
| Gesture.XSelectable.Drag | xselectable.js:556-576 | an engaged tick (pointer recorded, overlays created and snapshotted on the first one, then scroll, box, mark) moves the state as `AfterTick` |
| Gesture.XSelectable.Refresh | xselectable.js:569-576 | the scroll, box and mark calls move the state as their step functions in sequence |
| Gesture.XSelectable.FireTimer | xselectable.js:410-414 | the pending timer re-runs the tick with its saved event and timestamp, as `AfterTimer` |
| Gesture.XSelectable.OnMouseUp | xselectable.js:582-616 | moves the state as `AfterMouseUp` |

`Drag`, `Refresh`, `MarkOne`, `ScrollEdge` and `ScrollEdges` are not
separate functions in the plugin. They split `tick`, `markSelected` and
`updateViewportScrolling` into pieces the verifier handles one at a time;
the loops themselves are the source's.

### Behaviour of the code worth noting

- The selection box is computed from the raw pointer event, not from the
  scroll-compensated current position (xselectable.js:291-306, called at
  572). Its size therefore changes when the viewport scrolls. What stays
  fixed is the anchor corner's place in the scrolled content
  (`TickKeepsAnchor`).
- The plugin's own overlays become selectables. `tick` creates the glass
  and the box (xselectable.js:561, 251-262) before
  `initSelectablesOnGestureStart` runs the filter query (565, 276). Under
  the default filter `*` (103), both are found. The glass is positioned at
  the top left of the content and sized to the scroll extent, so it
  overlaps almost any box. The example log therefore holds
  `selecting(glass)`, and the glass ends up in the `selected` list
  (`GestureExample`, `FirstTickSnapshotsOverlays`). A filter that excludes
  the overlays avoids this.
- Overlap is tested on closed intervals: rectangles that touch at an
  edge overlap (xselectable.js:456-461).
- `start` is triggered on every accepted mouse-down (xselectable.js:494),
  even if the drag never passes `distance`. `stop` follows only when a box
  was created.
- The direction test on each edge reads the current position after it has
  been moved back for an edge already scrolled on the same axis. In a
  container smaller than twice the threshold, both opposite edges can
  scroll in one step (`OppositeEdgesBothScroll`).
- The cap `min(available, ceil(...))` applies before the lag and speed
  multipliers, so a shift can exceed the room left
  (`ShiftCanExceedAvailable`).
- A scroll timestamp of 0 is falsy in JavaScript and counts as absent
  (lag 1), as the code's truthiness test does.
- `onMouseDown` itself does not test the disabled flag. Disabling unbinds
  the container's `mousedown` listener. The model expresses that as the
  `disabled` guard of `Accepts`. `disable` does not unbind the document's
  `mousemove` / `mouseup` listeners, so a gesture already in progress
  continues; ticks and mouse-up do not look at the flag.

## Left out

- DOM and CSS work is not modelled: creating and removing the glass and
  box elements (`createSelectionBox`, xselectable.js:247-263), the
  `-selected` class changes, and `preventDefault` (xselectable.js:527, 531).
- The `mousewheel` listener bound during a gesture (xselectable.js:526-528)
  only suppresses wheel scrolling. The model has no wheel events.
- Custom scrollers supplied through options are left out (they are foreign
  code). The default scroller is the class `Scroller`, whose offset is
  always (0, 0). A custom positioner is modelled as an arbitrary function
  (`Options.positioner`); the default positioner reads the `Dom.layout`
  parameter.
- The overlays' geometry is part of `Dom.layout`, not computed from their
  CSS.
- The browser clamps `scrollTop` / `scrollLeft` to the scroll extent, and
  the model does not. `ScrollStaysInRange` shows that no clamping is needed
  when lag times speed is at most 1. On mouse moves the lag is 1, so the
  bound holds there only when `scrollSpeedMultiplier` is at most 1; a
  higher speed can overshoot on a mouse move too. A timer re-run has
  lag = elapsed / 16, usually above 1. Near the scroll limit the browser
  then clamps the scroll, while `startPosition` and `curPosition` still
  move by the full shift. Browsers may also round a fractional scroll
  position, such as one produced by lag = elapsed / 16. Either way, and
  when something else scrolls the container (next item), the box
  anchor can drift in the real program, where `ScrollLoopCompensates` and
  `TickKeepsAnchor` (which assume an exact, unclamped scroller) say it
  stays put.
- The container's scroll position and scroll extent are read at
  mouse-down and afterwards change only through `Scroller.Scroll`. The
  program re-reads them on every tick (xselectable.js:167-170, 297, 301),
  so scrolling by keyboard or script (including the page's own
  `xselectableselecting` / `xselectableunselecting` handlers, which run
  inside `markSelected`, 434 and 441), or a change of the scroll extent
  during a gesture, is not modelled. `TickKeepsAnchor`, the content-position
  clauses of `ScrollLoopCompensates`, and `TickStaysInExtent` assume none
  happens.
- Clocks: the two `new Date().getTime()` reads in one call are modelled as
  a single `now` parameter.
- `setTimeout` delay and scheduling are modelled as a pending-timer token;
  the 16 ms frame is only the lag divisor.
- `init`, `destroy` and `option` are plumbing over jQuery data. `init` is
  the constructor; `option('disabled', …)` is `Enable` / `Disable`; other
  option updates are not modelled.
- Repeated `enable` binding the listener twice is not modelled.
- A second accepted mouse-down while a gesture is still listening is not
  modelled faithfully. This happens when a mouse-up outside the window is
  lost. The program then binds a second `mousemove` and `mouseup` handler
  (xselectable.js:521-523), so every move runs `tick` twice until the
  mouse-up unbinds all of them (592-593). In the model, `listening` is one flag. A mouse-down while
  listening emits `start` again and records a new start position, keeping
  any box, and each move runs `tick` once.
- The `positioner` option's `this` binding is not modelled.
- Floating-point rounding is not modelled: coordinates are exact reals.
- app.build.js is build configuration, not part of this model.
- Gesture.XSelectable.MarkSelected: states its effect on the snapshot and
  event fields rather than on the whole `View()`; `Refresh` states the
  whole-state effect of the tick's three calls.
- Gesture.XSelectable.FireTimer: re-runs the tick with an empty page
  layout. Once a box exists the layout is never read
  (`TickIgnoresDomOnceDragging`), so this does not change the result.
