/**
 * The selection evaluator: snapshots of the selectable elements taken at
 * gesture start, the per-element `selecting` / `unselecting` transitions that
 * hit-testing against the selection box produces, and the final split into
 * `selected` and `unselected` element lists.
 *
 * The plugin walks its snapshot array from the last index down to the first,
 * so every list built here puts the contribution of the first snapshot last:
 * the functions recurse on the head and append the head's part at the end.
 */
module Selection {
  import opened Geometry

  /** Identity of a DOM element. */
  type Element = nat

  /** A selectable element, its geometry as measured at gesture start, and whether it is selected. */
  datatype Snapshot = Snapshot(element: Element, geometry: Rect, selected: bool)

  /** The notifications the plugin triggers on its container. */
  datatype Event =
    | Start
    | Selecting(element: Element)
    | Unselecting(element: Element)
    | Selected(elements: seq<Element>)
    | Unselected(elements: seq<Element>)
    | Stop

  ghost predicate DistinctElements(ss: seq<Snapshot>)
  {
    forall i, j :: 0 <= i < j < |ss| ==> ss[i].element != ss[j].element
  }

  ghost predicate Distinct(ds: seq<Element>)
  {
    forall i, j :: 0 <= i < j < |ds| ==> ds[i] != ds[j]
  }

  function Elements(ss: seq<Snapshot>): (es: seq<Element>)
    ensures |es| == |ss| && forall i :: 0 <= i < |ss| ==> es[i] == ss[i].element
  {
    seq(|ss|, i requires 0 <= i < |ss| => ss[i].element)
  }

  // ---------------------------------------------------------------------------
  // Gesture start: one snapshot per element matching the filter

  /** The snapshot contributed by one descendant of the container. */
  function SnapshotOf(d: Element, filter: Element -> bool, positioner: Element -> Rect): seq<Snapshot>
  {
    if filter(d) then [Snapshot(d, positioner(d), false)] else []
  }

  /**
   * The snapshots taken at gesture start from the container's descendants, in
   * document order: exactly the descendants that match the filter, each with the
   * positioner's geometry and not selected.
   */
  function InitialSnapshots(ds: seq<Element>, filter: Element -> bool, positioner: Element -> Rect): (r: seq<Snapshot>)
    ensures |r| <= |ds|
    ensures forall k :: 0 <= k < |r| ==>
              !r[k].selected && filter(r[k].element) && r[k].element in ds && r[k].geometry == positioner(r[k].element)
  {
    if ds == [] then []
    else
      var front := ds[..|ds| - 1];
      assert forall d :: d in front ==> d in ds;
      InitialSnapshots(front, filter, positioner) + SnapshotOf(ds[|ds| - 1], filter, positioner)
  }

  /** Every descendant that matches the filter has a snapshot. */
  lemma {:induction false} InitialSnapshotsComplete(ds: seq<Element>, filter: Element -> bool, positioner: Element -> Rect)
    ensures forall d :: d in ds && filter(d) ==> d in Elements(InitialSnapshots(ds, filter, positioner))
  {
    if ds != [] {
      var front, last := ds[..|ds| - 1], ds[|ds| - 1];
      InitialSnapshotsComplete(front, filter, positioner);
      var prev := InitialSnapshots(front, filter, positioner);
      var r := InitialSnapshots(ds, filter, positioner);
      assert r == prev + SnapshotOf(last, filter, positioner);
      assert ds == front + [last];
      forall d | d in ds && filter(d) ensures d in Elements(r) {
        if d in front {
          var k :| 0 <= k < |prev| && Elements(prev)[k] == d;
          assert Elements(r)[k] == d;
        } else {
          assert Elements(r)[|prev|] == d;
        }
      }
    }
  }

  /** Distinct descendants give snapshots of distinct elements. */
  lemma {:induction false} InitialSnapshotsDistinct(ds: seq<Element>, filter: Element -> bool, positioner: Element -> Rect)
    requires Distinct(ds)
    ensures DistinctElements(InitialSnapshots(ds, filter, positioner))
  {
    if ds != [] {
      var front, last := ds[..|ds| - 1], ds[|ds| - 1];
      assert Distinct(front);
      InitialSnapshotsDistinct(front, filter, positioner);
      var prev := InitialSnapshots(front, filter, positioner);
      assert last !in front;
      forall k | 0 <= k < |prev| ensures prev[k].element != last {
        assert prev[k].element in front;
      }
    }
  }

  // ---------------------------------------------------------------------------
  // Hit-testing

  /** A snapshot re-evaluated against the box: its flag becomes the overlap test. */
  function Evaluate(s: Snapshot, box: Rect, offset: Offset): Snapshot
  {
    s.(selected := Overlap(box, s.geometry, offset))
  }

  /**
   * The snapshots after one evaluation: same elements and geometry, and every
   * flag equal to the overlap of the box with the snapshot.
   */
  function Marked(ss: seq<Snapshot>, box: Rect, offset: Offset): (r: seq<Snapshot>)
    ensures |r| == |ss|
    ensures forall i :: 0 <= i < |ss| ==>
              r[i].element == ss[i].element && r[i].geometry == ss[i].geometry &&
              r[i].selected == Overlap(box, ss[i].geometry, offset)
  {
    seq(|ss|, i requires 0 <= i < |ss| => Evaluate(ss[i], box, offset))
  }

  /** The notification one snapshot produces when re-evaluated. */
  function Transition(s: Snapshot, box: Rect, offset: Offset): seq<Event>
  {
    var hit := Overlap(box, s.geometry, offset);
    if hit && !s.selected then [Selecting(s.element)]
    else if !hit && s.selected then [Unselecting(s.element)]
    else []
  }

  /** The notifications of one evaluation pass, last snapshot first. */
  function Transitions(ss: seq<Snapshot>, box: Rect, offset: Offset): seq<Event>
  {
    if ss == [] then [] else Transitions(ss[1..], box, offset) + Transition(ss[0], box, offset)
  }

  /** One step of the evaluation loop, taken at index `i` from the back. */
  lemma MarkStep(s0: seq<Snapshot>, ss: seq<Snapshot>, i: int, box: Rect, offset: Offset)
    requires 0 <= i < |s0| == |ss|
    requires forall k :: 0 <= k <= i ==> ss[k] == s0[k]
    requires forall k :: i < k < |s0| ==> ss[k] == Evaluate(s0[k], box, offset)
    ensures var next := ss[i := Evaluate(ss[i], box, offset)];
            (forall k :: 0 <= k < i ==> next[k] == s0[k]) &&
            (forall k :: i <= k < |s0| ==> next[k] == Evaluate(s0[k], box, offset))
    ensures Transitions(s0[i..], box, offset) == Transitions(s0[i + 1..], box, offset) + Transition(ss[i], box, offset)
  {
    assert s0[i..][1..] == s0[i + 1..];
  }

  /**
   * Reference definition of "only changed flags emit": compare the flags before
   * and after, index by index (last index first), and report each change.
   */
  function Changes(before: seq<Snapshot>, after: seq<Snapshot>): seq<Event>
    requires |before| == |after|
  {
    if before == [] then []
    else
      Changes(before[1..], after[1..]) +
      (if before[0].selected == after[0].selected then []
       else if after[0].selected then [Selecting(after[0].element)]
       else [Unselecting(after[0].element)])
  }

  /** The evaluation pass emits exactly the flag changes between the snapshots before and after it. */
  lemma {:induction false} TransitionsAreChanges(ss: seq<Snapshot>, box: Rect, offset: Offset)
    ensures Transitions(ss, box, offset) == Changes(ss, Marked(ss, box, offset))
  {
    if ss != [] {
      TransitionsAreChanges(ss[1..], box, offset);
      assert Marked(ss, box, offset)[1..] == Marked(ss[1..], box, offset);
    }
  }

  /** Nothing changed, nothing emitted. */
  lemma {:induction false} NoChangesNoEvents(ss: seq<Snapshot>)
    ensures Changes(ss, ss) == []
  {
    if ss != [] {
      NoChangesNoEvents(ss[1..]);
    }
  }

  /** A second evaluation against the same box changes nothing and emits nothing. */
  lemma MarkedIdempotent(ss: seq<Snapshot>, box: Rect, offset: Offset)
    ensures Marked(Marked(ss, box, offset), box, offset) == Marked(ss, box, offset)
    ensures Transitions(Marked(ss, box, offset), box, offset) == []
  {
    var m := Marked(ss, box, offset);
    assert Marked(m, box, offset) == m;
    TransitionsAreChanges(m, box, offset);
    NoChangesNoEvents(m);
  }

  /**
   * A `selecting` notification is emitted for an element exactly when a snapshot of it was
   * not selected and now overlaps the box; an `unselecting` one exactly when a snapshot of it
   * was selected and no longer overlaps.
   */
  lemma {:induction false} TransitionsExactlyFlips(ss: seq<Snapshot>, box: Rect, offset: Offset, e: Element)
    ensures Selecting(e) in Transitions(ss, box, offset) <==>
              exists i :: 0 <= i < |ss| && ss[i].element == e && !ss[i].selected && Overlap(box, ss[i].geometry, offset)
    ensures Unselecting(e) in Transitions(ss, box, offset) <==>
              exists i :: 0 <= i < |ss| && ss[i].element == e && ss[i].selected && !Overlap(box, ss[i].geometry, offset)
  {
    if ss != [] {
      TransitionsExactlyFlips(ss[1..], box, offset, e);
      var t := ss[1..];
      if exists i :: 0 <= i < |ss| && ss[i].element == e && !ss[i].selected && Overlap(box, ss[i].geometry, offset) {
        var i :| 0 <= i < |ss| && ss[i].element == e && !ss[i].selected && Overlap(box, ss[i].geometry, offset);
        if i > 0 { assert t[i - 1] == ss[i]; }
      }
      if exists i :: 0 <= i < |ss| && ss[i].element == e && ss[i].selected && !Overlap(box, ss[i].geometry, offset) {
        var i :| 0 <= i < |ss| && ss[i].element == e && ss[i].selected && !Overlap(box, ss[i].geometry, offset);
        if i > 0 { assert t[i - 1] == ss[i]; }
      }
      if exists i :: 0 <= i < |t| && t[i].element == e && !t[i].selected && Overlap(box, t[i].geometry, offset) {
        var i :| 0 <= i < |t| && t[i].element == e && !t[i].selected && Overlap(box, t[i].geometry, offset);
        assert ss[i + 1] == t[i];
      }
      if exists i :: 0 <= i < |t| && t[i].element == e && t[i].selected && !Overlap(box, t[i].geometry, offset) {
        var i :| 0 <= i < |t| && t[i].element == e && t[i].selected && !Overlap(box, t[i].geometry, offset);
        assert ss[i + 1] == t[i];
      }
    }
  }

  // ---------------------------------------------------------------------------
  // Gesture end: split into selected and unselected elements

  /** The elements of the selected snapshots, last snapshot first. */
  function SelectedElements(ss: seq<Snapshot>): seq<Element>
  {
    if ss == [] then [] else SelectedElements(ss[1..]) + (if ss[0].selected then [ss[0].element] else [])
  }

  /** The elements of the unselected snapshots, last snapshot first. */
  function UnselectedElements(ss: seq<Snapshot>): seq<Element>
  {
    if ss == [] then [] else UnselectedElements(ss[1..]) + (if ss[0].selected then [] else [ss[0].element])
  }

  /** Together the two lists hold every snapshot's element exactly once. */
  lemma {:induction false} PartitionCovers(ss: seq<Snapshot>)
    ensures multiset(SelectedElements(ss)) + multiset(UnselectedElements(ss)) == multiset(Elements(ss))
    ensures |SelectedElements(ss)| + |UnselectedElements(ss)| == |ss|
  {
    if ss != [] {
      PartitionCovers(ss[1..]);
      assert Elements(ss) == [ss[0].element] + Elements(ss[1..]);
    }
  }

  /** An element is in the selected (unselected) list exactly when one of its snapshots is (is not) selected. */
  lemma {:induction false} PartitionMembership(ss: seq<Snapshot>, e: Element)
    ensures e in SelectedElements(ss) <==> exists i :: 0 <= i < |ss| && ss[i].element == e && ss[i].selected
    ensures e in UnselectedElements(ss) <==> exists i :: 0 <= i < |ss| && ss[i].element == e && !ss[i].selected
  {
    if ss != [] {
      PartitionMembership(ss[1..], e);
      var t := ss[1..];
      if exists i :: 0 <= i < |ss| && ss[i].element == e && ss[i].selected {
        var i :| 0 <= i < |ss| && ss[i].element == e && ss[i].selected;
        if i > 0 { assert t[i - 1] == ss[i]; }
      }
      if exists i :: 0 <= i < |ss| && ss[i].element == e && !ss[i].selected {
        var i :| 0 <= i < |ss| && ss[i].element == e && !ss[i].selected;
        if i > 0 { assert t[i - 1] == ss[i]; }
      }
      if exists i :: 0 <= i < |t| && t[i].element == e && t[i].selected {
        var i :| 0 <= i < |t| && t[i].element == e && t[i].selected;
        assert ss[i + 1] == t[i];
      }
      if exists i :: 0 <= i < |t| && t[i].element == e && !t[i].selected {
        var i :| 0 <= i < |t| && t[i].element == e && !t[i].selected;
        assert ss[i + 1] == t[i];
      }
    }
  }

  /** For snapshots of distinct elements, no element is reported both selected and unselected. */
  lemma PartitionDisjoint(ss: seq<Snapshot>, e: Element)
    requires DistinctElements(ss)
    ensures !(e in SelectedElements(ss) && e in UnselectedElements(ss))
  {
    PartitionMembership(ss, e);
  }

  /**
   * After an evaluation, the final `selected` list holds exactly the elements
   * whose snapshot overlaps the box, and the `unselected` list the others.
   */
  lemma FinalListsMatchBox(ss: seq<Snapshot>, box: Rect, offset: Offset, e: Element)
    ensures e in SelectedElements(Marked(ss, box, offset)) <==>
              exists i :: 0 <= i < |ss| && ss[i].element == e && Overlap(box, ss[i].geometry, offset)
    ensures e in UnselectedElements(Marked(ss, box, offset)) <==>
              exists i :: 0 <= i < |ss| && ss[i].element == e && !Overlap(box, ss[i].geometry, offset)
  {
    var m := Marked(ss, box, offset);
    PartitionMembership(m, e);
    if exists i :: 0 <= i < |ss| && ss[i].element == e && Overlap(box, ss[i].geometry, offset) {
      var i :| 0 <= i < |ss| && ss[i].element == e && Overlap(box, ss[i].geometry, offset);
      assert m[i].element == e && m[i].selected;
    }
    if exists i :: 0 <= i < |ss| && ss[i].element == e && !Overlap(box, ss[i].geometry, offset) {
      var i :| 0 <= i < |ss| && ss[i].element == e && !Overlap(box, ss[i].geometry, offset);
      assert m[i].element == e && !m[i].selected;
    }
  }
}
