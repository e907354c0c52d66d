/**
 * `BoundingBoxSelector` (lama.py): the drag state of one mouse gesture over the displayed
 * image and the list of boxes committed so far, with the canvas item id of each kept marker.
 *
 * The pure transitions `Start`, `Update`, `End` and `Clear` on `SelectorState` specify the
 * four handlers; the class `BoundingBoxSelector` updates its fields in place and is proved
 * against them. Canvas item ids are opaque integers; every `canvas.delete` the source makes
 * is reported as part of a transition's `deleted` list.
 */
module Selector {
  import opened Wrappers
  import opened Geometry

  /** The selector's fields: the image it was built for and the mutable drag and list state. */
  datatype SelectorState = SelectorState(
    width: int,
    height: int,
    scale: real,
    startX: Option<int>,
    startY: Option<int>,
    currentRect: Option<int>,
    bboxes: seq<Box>,
    rectObjects: seq<int>)
  {
    /** A drag is under way: `start_x is not None and start_y is not None`. */
    predicate Dragging() {
      startX.Some? && startY.Some?
    }
  }

  /** A state after a handler: the new fields and the canvas items the handler deleted. */
  datatype Step = Step(next: SelectorState, deleted: seq<int>)

  /** The selector invariant: what every reachable state satisfies. */
  ghost predicate Inv(s: SelectorState) {
    && 0 <= s.width && 0 <= s.height && 0.0 < s.scale
    && s.startX.Some? == s.startY.Some?
    && (s.currentRect.Some? ==> s.Dragging())
    && |s.rectObjects| <= |s.bboxes|
    && forall i :: 0 <= i < |s.bboxes| ==> Committable(s.bboxes[i], s.width, s.height)
  }

  /** The state right after `__init__`. */
  function Init(width: int, height: int, scale: real): (s: SelectorState)
  {
    SelectorState(width, height, scale, None, None, None, [], [])
  }

  /** `start_selection`: record the drag origin. */
  function Start(s: SelectorState, x: int, y: int): SelectorState {
    s.(startX := Some(x), startY := Some(y))
  }

  /** `update_selection`: while dragging, replace the preview by the canvas item `newRect`. */
  function Update(s: SelectorState, newRect: int): Step {
    if s.Dragging() then
      Step(s.(currentRect := Some(newRect)), OptionToSeq(s.currentRect))
    else
      Step(s, [])
  }

  /** The box a release at display point (x, y) would produce, before the size filter. */
  function ReleaseBox(s: SelectorState, x: int, y: int): Box
    requires s.Dragging() && 0.0 < s.scale
  {
    SelectionBox(s.startX.value, s.startY.value, x, y, s.scale, s.width, s.height)
  }

  /**
   * `end_selection`: while dragging, commit the mapped box when it passes the size filter
   * (keeping the preview as its marker) or delete the preview; then forget the drag.
   */
  function End(s: SelectorState, x: int, y: int): Step
    requires 0.0 < s.scale
  {
    if !s.Dragging() then
      Step(s, [])
    else
      var box := ReleaseBox(s, x, y);
      var reset := s.(startX := None, startY := None, currentRect := None);
      if LargeEnough(box) then
        Step(reset.(bboxes := s.bboxes + [box], rectObjects := s.rectObjects + OptionToSeq(s.currentRect)), [])
      else
        Step(reset, OptionToSeq(s.currentRect))
  }

  /** `clear_selections`: delete every kept marker and empty both lists. */
  function Clear(s: SelectorState): Step {
    Step(s.(bboxes := [], rectObjects := []), s.rectObjects)
  }

  function OptionToSeq(o: Option<int>): seq<int> {
    if o.Some? then [o.value] else []
  }

  // ---------------------------------------------------------------------------------------
  // Properties of the transitions

  lemma InitInv(width: int, height: int, scale: real)
    requires 0 <= width && 0 <= height && 0.0 < scale
    ensures Inv(Init(width, height, scale))
    ensures Init(width, height, scale).bboxes == [] && !Init(width, height, scale).Dragging()
  {
  }

  /** `start_selection` and `update_selection` never touch the committed lists. */
  lemma StartUpdateKeepLists(s: SelectorState, x: int, y: int, newRect: int)
    ensures Start(s, x, y).bboxes == s.bboxes && Start(s, x, y).rectObjects == s.rectObjects
    ensures Update(s, newRect).next.bboxes == s.bboxes && Update(s, newRect).next.rectObjects == s.rectObjects
    ensures Start(s, x, y).Dragging()
    ensures Update(s, newRect).next.currentRect == if s.Dragging() then Some(newRect) else s.currentRect
  {
  }

  /** A release when no drag is active changes nothing and deletes nothing. */
  lemma EndIdleIsNoOp(s: SelectorState, x: int, y: int)
    requires 0.0 < s.scale && !s.Dragging()
    ensures End(s, x, y) == Step(s, [])
  {
  }

  /**
   * A release during a drag always forgets the drag; it appends exactly one box, leaving the
   * earlier ones in place, iff the mapped box passes the size filter, and otherwise leaves
   * both lists unchanged and deletes the preview.
   */
  lemma EndDuringDrag(s: SelectorState, x: int, y: int)
    requires 0.0 < s.scale && s.Dragging()
    ensures var t := End(s, x, y).next;
      t.startX.None? && t.startY.None? && t.currentRect.None?
    ensures var t := End(s, x, y).next;
      |t.bboxes| == |s.bboxes| + 1 <==> LargeEnough(ReleaseBox(s, x, y))
    ensures var t := End(s, x, y).next;
      LargeEnough(ReleaseBox(s, x, y)) ==>
        t.bboxes[..|s.bboxes|] == s.bboxes && t.bboxes[|s.bboxes|] == ReleaseBox(s, x, y) &&
        t.rectObjects == s.rectObjects + OptionToSeq(s.currentRect) && End(s, x, y).deleted == []
    ensures var t := End(s, x, y).next;
      !LargeEnough(ReleaseBox(s, x, y)) ==>
        t.bboxes == s.bboxes && t.rectObjects == s.rectObjects &&
        End(s, x, y).deleted == OptionToSeq(s.currentRect)
    ensures var t := End(s, x, y).next;
      t.width == s.width && t.height == s.height && t.scale == s.scale
  {
    var t := End(s, x, y).next;
    if LargeEnough(ReleaseBox(s, x, y)) {
      assert t.bboxes == s.bboxes + [ReleaseBox(s, x, y)];
    }
  }

  /** The box list only grows by appending, until it is cleared. */
  lemma EndAppendOnly(s: SelectorState, x: int, y: int)
    requires 0.0 < s.scale
    ensures var t := End(s, x, y).next;
      |s.bboxes| <= |t.bboxes| <= |s.bboxes| + 1 && t.bboxes[..|s.bboxes|] == s.bboxes
  {
    var t := End(s, x, y).next;
    if s.Dragging() && LargeEnough(ReleaseBox(s, x, y)) {
      assert t.bboxes == s.bboxes + [ReleaseBox(s, x, y)];
    }
  }

  /**
   * Every handler keeps the invariant: in particular every committed box lies in the image
   * with ordered corners and sides longer than 10, and there are never more markers than boxes.
   */
  lemma EndPreservesInv(s: SelectorState, x: int, y: int)
    requires Inv(s)
    ensures Inv(End(s, x, y).next)
  {
    if s.Dragging() {
      var box := ReleaseBox(s, x, y);
      var t := End(s, x, y).next;
      if LargeEnough(box) {
        assert t.bboxes == s.bboxes + [box];
        forall i | 0 <= i < |t.bboxes|
          ensures Committable(t.bboxes[i], t.width, t.height)
        {
          if i < |s.bboxes| {
            assert t.bboxes[i] == s.bboxes[i];
          }
        }
      }
    }
  }

  lemma StartUpdateClearPreserveInv(s: SelectorState, x: int, y: int, newRect: int)
    requires Inv(s)
    ensures Inv(Start(s, x, y))
    ensures Inv(Update(s, newRect).next)
    ensures Inv(Clear(s).next)
  {
  }

  /** Every box a release commits lies strictly ordered inside the image. */
  lemma CommittedBoxBounds(s: SelectorState, x: int, y: int)
    requires 0 <= s.width && 0 <= s.height && 0.0 < s.scale && s.Dragging()
    requires LargeEnough(ReleaseBox(s, x, y))
    ensures var b := ReleaseBox(s, x, y);
      0 <= b.x1 < b.x2 <= s.width && 0 <= b.y1 < b.y2 <= s.height
  {
  }

  /** Releasing at the drag origin after starting at the release point commits the same box. */
  lemma EndSymmetric(s: SelectorState, px: int, py: int, qx: int, qy: int)
    requires 0.0 < s.scale
    ensures End(Start(s, px, py), qx, qy).next.bboxes == End(Start(s, qx, qy), px, py).next.bboxes
  {
    SelectionBoxSymmetric(px, py, qx, qy, s.scale, s.width, s.height);
  }

  /** Clearing empties both lists, deletes every kept marker, and clearing twice is clearing once. */
  lemma ClearEmptiesIdempotent(s: SelectorState)
    ensures Clear(s).next.bboxes == [] && Clear(s).next.rectObjects == []
    ensures Clear(s).deleted == s.rectObjects
    ensures Clear(Clear(s).next).next == Clear(s).next
    ensures Clear(Clear(s).next).deleted == []
  {
  }

  /** Example: a 20..60 drag at scale 0.5 on a 200x150 image commits (40, 40, 120, 120). */
  lemma ExampleDrag()
    ensures var s := Init(200, 150, 0.5);
      End(Start(s, 20, 20), 60, 60).next.bboxes == [Box(40, 40, 120, 120)]
  {
    SelectionBoxExample();
  }

  // ---------------------------------------------------------------------------------------
  // The selector object

  class BoundingBoxSelector {
    const imageWidth: int
    const imageHeight: int
    const scaleFactor: real
    var startX: Option<int>
    var startY: Option<int>
    var currentRect: Option<int>
    var bboxes: seq<Box>
    var rectObjects: seq<int>

    /** The fields as a `SelectorState` value. */
    ghost function State(): SelectorState
      reads this
    {
      SelectorState(imageWidth, imageHeight, scaleFactor, startX, startY, currentRect, bboxes, rectObjects)
    }

    ghost predicate Valid()
      reads this
    {
      Inv(State())
    }

    constructor (width: int, height: int, scale: real)
      requires 0 <= width && 0 <= height && 0.0 < scale
      ensures Valid() && State() == Init(width, height, scale)
    {
      imageWidth, imageHeight, scaleFactor := width, height, scale;
      startX, startY, currentRect := None, None, None;
      bboxes, rectObjects := [], [];
      new;
      InitInv(width, height, scale);
    }

    method StartSelection(x: int, y: int)
      requires Valid()
      modifies this
      ensures Valid() && State() == Start(old(State()), x, y)
    {
      startX := Some(x);
      startY := Some(y);
      StartUpdateClearPreserveInv(old(State()), x, y, 0);
    }

    /** Draws a new preview; `newRect` is the id the canvas gave it, `deleted` the ids removed. */
    method UpdateSelection(newRect: int) returns (deleted: seq<int>)
      requires Valid()
      modifies this
      ensures Valid() && Step(State(), deleted) == Update(old(State()), newRect)
    {
      deleted := [];
      if startX.Some? && startY.Some? {
        if currentRect.Some? {
          deleted := [currentRect.value];
        }
        currentRect := Some(newRect);
      }
      StartUpdateClearPreserveInv(old(State()), 0, 0, newRect);
    }

    method EndSelection(x: int, y: int) returns (deleted: seq<int>)
      requires Valid()
      modifies this
      ensures Valid() && Step(State(), deleted) == End(old(State()), x, y)
    {
      deleted := [];
      if startX.Some? && startY.Some? {
        var x1 := ToImage(Min(startX.value, x), scaleFactor);
        var y1 := ToImage(Min(startY.value, y), scaleFactor);
        var x2 := ToImage(Max(startX.value, x), scaleFactor);
        var y2 := ToImage(Max(startY.value, y), scaleFactor);

        x1 := Clamp(x1, imageWidth);
        y1 := Clamp(y1, imageHeight);
        x2 := Clamp(x2, imageWidth);
        y2 := Clamp(y2, imageHeight);

        if x2 - x1 > MinSide && y2 - y1 > MinSide {
          bboxes := bboxes + [Box(x1, y1, x2, y2)];
          if currentRect.Some? {
            rectObjects := rectObjects + [currentRect.value];
          }
        } else {
          if currentRect.Some? {
            deleted := [currentRect.value];
          }
        }

        startX := None;
        startY := None;
        currentRect := None;
      }
      EndPreservesInv(old(State()), x, y);
    }

    /** Empties both lists; `deleted` are the markers removed from the canvas. */
    method ClearSelections() returns (deleted: seq<int>)
      requires Valid()
      modifies this
      ensures Valid() && Step(State(), deleted) == Clear(old(State()))
    {
      deleted := rectObjects;
      bboxes := [];
      rectObjects := [];
      StartUpdateClearPreserveInv(old(State()), 0, 0, 0);
    }
  }
}
