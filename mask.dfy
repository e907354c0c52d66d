/**
 * `SimpleLamaApp.create_mask_from_bboxes` (lama.py): a `height` by `width` array of zeros in
 * which `mask[y1:y2, x1:x2] = 255` is executed for every box in turn.
 *
 * A numpy slice bound is normalised the way Python normalises it: a negative bound counts
 * from the end and is then raised to 0, a bound past the end is lowered to the length.
 */
module Mask {
  import opened Geometry
  import Selector

  /** The value written into every masked cell. */
  const Masked: int := 255

  /** Python's normalisation of a slice bound `i` for a sequence of length `n` (step 1). */
  function SliceBound(i: int, n: nat): (r: nat)
    ensures r <= n
    ensures 0 <= i <= n ==> r == i
    ensures n < i ==> r == n
    ensures i < 0 ==> r == Max(i + n, 0)
  {
    if i < 0 then (if i + n < 0 then 0 else i + n) else if i > n then n else i
  }

  /** Index `k` of a length-`n` axis is selected by the slice `lo:hi`. */
  predicate InSlice(k: int, lo: int, hi: int, n: nat) {
    SliceBound(lo, n) <= k < SliceBound(hi, n)
  }

  /** Cell (r, c) of a `height` by `width` array lies in `mask[b.y1:b.y2, b.x1:b.x2]`. */
  predicate Covers(b: Box, r: int, c: int, height: nat, width: nat) {
    InSlice(r, b.y1, b.y2, height) && InSlice(c, b.x1, b.x2, width)
  }

  /** Cell (r, c) has been set to 255 once the boxes of `boxes` have been filled in order. */
  predicate Painted(boxes: seq<Box>, r: int, c: int, height: nat, width: nat)
    decreases |boxes|
  {
    |boxes| > 0 &&
    (Painted(boxes[..|boxes| - 1], r, c, height, width) || Covers(boxes[|boxes| - 1], r, c, height, width))
  }

  /** The value of cell (r, c) of the mask built from `boxes`. */
  function MaskValue(boxes: seq<Box>, r: int, c: int, height: nat, width: nat): int {
    if Painted(boxes, r, c, height, width) then Masked else 0
  }

  /** A cell is painted iff some box in the list covers it. */
  lemma {:induction false} PaintedIffSomeBox(boxes: seq<Box>, r: int, c: int, height: nat, width: nat)
    ensures Painted(boxes, r, c, height, width) <==>
            exists i :: 0 <= i < |boxes| && Covers(boxes[i], r, c, height, width)
    decreases |boxes|
  {
    if |boxes| > 0 {
      var init := boxes[..|boxes| - 1];
      PaintedIffSomeBox(init, r, c, height, width);
      if Painted(boxes, r, c, height, width) {
        if Painted(init, r, c, height, width) {
          var i :| 0 <= i < |init| && Covers(init[i], r, c, height, width);
          assert boxes[i] == init[i];
        } else {
          assert Covers(boxes[|boxes| - 1], r, c, height, width);
        }
      } else {
        forall i | 0 <= i < |boxes|
          ensures !Covers(boxes[i], r, c, height, width)
        {
          if i < |boxes| - 1 {
            assert boxes[i] == init[i];
          }
        }
      }
    }
  }

  /** For boxes with non-negative coordinates the slice is the half-open rectangle itself. */
  lemma CoversNonNegative(b: Box, r: int, c: int, height: nat, width: nat)
    requires 0 <= b.x1 && 0 <= b.y1 && 0 <= b.x2 && 0 <= b.y2
    requires 0 <= r < height && 0 <= c < width
    ensures Covers(b, r, c, height, width) <==> b.y1 <= r < b.y2 && b.x1 <= c < b.x2
  {
  }

  /**
   * The pointwise meaning of the mask for boxes with non-negative coordinates (every box the
   * selector commits): a cell is 255 iff some box has `y1 <= r < y2` and `x1 <= c < x2`, and 0 otherwise.
   */
  lemma MaskValueMeaning(boxes: seq<Box>, r: int, c: int, height: nat, width: nat)
    requires forall i :: 0 <= i < |boxes| ==> 0 <= boxes[i].x1 && 0 <= boxes[i].y1 && 0 <= boxes[i].x2 && 0 <= boxes[i].y2
    requires 0 <= r < height && 0 <= c < width
    ensures MaskValue(boxes, r, c, height, width) == 255 <==>
            exists i :: 0 <= i < |boxes| && boxes[i].y1 <= r < boxes[i].y2 && boxes[i].x1 <= c < boxes[i].x2
    ensures MaskValue(boxes, r, c, height, width) == 0 || MaskValue(boxes, r, c, height, width) == 255
  {
    PaintedIffSomeBox(boxes, r, c, height, width);
    forall i | 0 <= i < |boxes|
      ensures Covers(boxes[i], r, c, height, width) <==>
              boxes[i].y1 <= r < boxes[i].y2 && boxes[i].x1 <= c < boxes[i].x2
    {
      CoversNonNegative(boxes[i], r, c, height, width);
    }
  }

  /**
   * For the boxes a valid selector holds, masking the image it was built for: a cell is 255
   * iff some committed box has `y1 <= r < y2` and `x1 <= c < x2`.
   */
  lemma SelectorMaskMeaning(s: Selector.SelectorState, r: int, c: int)
    requires Selector.Inv(s)
    requires 0 <= r < s.height && 0 <= c < s.width
    ensures MaskValue(s.bboxes, r, c, s.height, s.width) == 255 <==>
            exists i :: 0 <= i < |s.bboxes| && s.bboxes[i].y1 <= r < s.bboxes[i].y2 && s.bboxes[i].x1 <= c < s.bboxes[i].x2
  {
    MaskValueMeaning(s.bboxes, r, c, s.height, s.width);
  }

  /** Filling the boxes in any order gives the same mask. */
  lemma MaskOrderIndependent(a: seq<Box>, b: seq<Box>, r: int, c: int, height: nat, width: nat)
    requires multiset(a) == multiset(b)
    ensures MaskValue(a, r, c, height, width) == MaskValue(b, r, c, height, width)
  {
    PaintedIffSomeBox(a, r, c, height, width);
    PaintedIffSomeBox(b, r, c, height, width);
    if Painted(a, r, c, height, width) {
      var i :| 0 <= i < |a| && Covers(a[i], r, c, height, width);
      assert a[i] in multiset(b);
      var j :| 0 <= j < |b| && b[j] == a[i];
    }
    if Painted(b, r, c, height, width) {
      var j :| 0 <= j < |b| && Covers(b[j], r, c, height, width);
      assert b[j] in multiset(a);
      var i :| 0 <= i < |a| && a[i] == b[j];
    }
  }

  /** In particular the mask of [A, B] is the mask of [B, A]. */
  lemma MaskSwapTwo(p: Box, q: Box, r: int, c: int, height: nat, width: nat)
    ensures MaskValue([p, q], r, c, height, width) == MaskValue([q, p], r, c, height, width)
  {
    MaskOrderIndependent([p, q], [q, p], r, c, height, width);
  }

  /** No boxes: every cell is 0. */
  lemma EmptyMaskIsZero(r: int, c: int, height: nat, width: nat)
    ensures MaskValue([], r, c, height, width) == 0
  {
  }

  /** A list holding the box (0, 0, width, height) masks every cell. */
  lemma FullBoxMasksAll(boxes: seq<Box>, r: int, c: int, height: nat, width: nat)
    requires Box(0, 0, width, height) in boxes
    requires 0 <= r < height && 0 <= c < width
    ensures MaskValue(boxes, r, c, height, width) == 255
  {
    PaintedIffSomeBox(boxes, r, c, height, width);
    var i :| 0 <= i < |boxes| && boxes[i] == Box(0, 0, width, height);
    assert Covers(boxes[i], r, c, height, width);
  }

  /**
   * `mask[b.y1:b.y2, b.x1:b.x2] = 255`: every selected cell becomes 255, the others keep their value.
   */
  method FillBox(mask: array2<int>, b: Box)
    modifies mask
    ensures forall r, c :: 0 <= r < mask.Length0 && 0 <= c < mask.Length1 ==>
      mask[r, c] == if Covers(b, r, c, mask.Length0, mask.Length1) then Masked else old(mask[r, c])
  {
    forall r, c | 0 <= r < mask.Length0 && 0 <= c < mask.Length1 && Covers(b, r, c, mask.Length0, mask.Length1) {
      mask[r, c] := Masked;
    }
  }

  /** `create_mask_from_bboxes((height, width, ...), boxes)`. */
  method CreateMask(height: nat, width: nat, boxes: seq<Box>) returns (mask: array2<int>)
    ensures mask.Length0 == height && mask.Length1 == width
    ensures forall r, c :: 0 <= r < height && 0 <= c < width ==> mask[r, c] == MaskValue(boxes, r, c, height, width)
  {
    mask := new int[height, width]((r, c) => 0);
    for k := 0 to |boxes|
      invariant mask.Length0 == height && mask.Length1 == width
      invariant forall r, c :: 0 <= r < height && 0 <= c < width ==> mask[r, c] == MaskValue(boxes[..k], r, c, height, width)
    {
      FillBox(mask, boxes[k]);
      assert boxes[..k + 1][..k] == boxes[..k];
    }
    assert boxes[..|boxes|] == boxes;
  }
}
