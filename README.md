# bbox-inpainter: the selection, mask and dispatch core in Dafny

The program is a desktop tool. A user loads an image, drags rectangles over it and has an
external inpainting model (LaMa) fill those regions. This project models the part of
`lama.py` that the program itself decides:

- **`BoundingBoxSelector`** (`selector.dfy`, arithmetic in `geometry.dfy`). This is the drag state of one
  mouse gesture plus the list of committed image-space boxes and their canvas markers.
  - Four pure transitions on a `SelectorState` value (`Start`, `Update`, `End`, `Clear`) specify the handlers.
  - The class `Selector.BoundingBoxSelector` updates its fields in place. Each method is proved to
    produce exactly the corresponding transition and to keep the selector invariant `Inv`.
  - Canvas item ids are opaque integers. Each `canvas.delete` a handler performs is reported in
    the `deleted` list the handler returns.
- **`create_mask_from_bboxes`** (`mask.dfy`). A `height x width` `array2` of zeros gets
  `mask[y1:y2, x1:x2] = 255` applied for each box in turn. Slice bounds follow Python's
  normalisation: negative bounds count from the end, and bounds past the end are cut to the length.
  The method is proved against the recursive specification `Painted`. Lemmas derive the pointwise
  meaning, order independence, the empty case and the full-image case from it.
- **The guard of `start_inpainting` and the shape dispatch of `inpaint_regions`** (`inpaint.dfy`).
  These are total functions over tagged variants. Images and arrays are represented by their numpy shapes.

Python's `int()` on the scaled coordinate is modelled as truncation toward zero (`Geometry.Trunc`),
as the source does. Clamping makes it agree with the floor anyway. The display scale factor is a
positive exact `real`.

Two behaviours of `lama.py` that the model keeps as written:

- A two-dimensional result array becomes an `L` (single-channel) image and then the current image
  (lama.py:320-321, 333). A later inpainting pass on that image fails the input dispatch with
  "Unsupported image format" (lama.py:281, 293). `Inpaint.ResultFeedsNextPass` states this.
- `clear_selections` does not reset the drag state (`start_x`, `start_y`, `current_rect`).

## Model

| member | source | states |
|---|---|---|
| `Geometry.Trunc` | lama.py:51-54 | `int()` rounds toward zero: the result is within 1 of the real value, on the side of 0 |
| `Geometry.Clamp` | lama.py:57-60 | `max(0, min(v, hi))` lies in `[0, hi]`; it is `v` when `v` is already in range, 0 below it, `hi` above it |
| `Geometry.TruncMonotone` | lama.py:51-54 | truncation toward zero is monotone |
| `Geometry.ToImageMonotone` | lama.py:51-54 | dividing by a positive scale and truncating is monotone |
| `Geometry.ToImage` | lama.py:51-54 | `int(v / scale_factor)`: the image coordinate is the exact quotient rounded toward zero, so it is within one pixel of it and has the sign of `v` |
| `Geometry.SelectionBox` | lama.py:51-60 | for any drag endpoints, the mapped box has `0 <= x1 <= x2 <= width` and `0 <= y1 <= y2 <= height`; symmetry in the endpoints is `Geometry.SelectionBoxSymmetric` |
| `Geometry.LargeEnough` | lama.py:62 | the size filter `x2 - x1 > 10 and y2 - y1 > 10`; a box that passes it is non-empty |
| `Geometry.SelectionBoxSymmetric` | lama.py:51-54 | dragging from A to B maps to the same box as dragging from B to A |
| `Geometry.SelectionBoxExample` | lama.py:51-62 | the drag (20,20) to (60,60) at scale 0.5 on a 200x150 image maps to (40,40,120,120), which passes the size filter |
| `Selector.Init` | lama.py:23-32 | the fields right after `__init__`: no drag, empty lists; specified by `Selector.InitInv` |
| `Selector.Start` | lama.py:34-36 | `start_selection` records the drag origin; specified by `Selector.StartUpdateKeepLists` and `Selector.StartUpdateClearPreserveInv` |
| `Selector.Update` | lama.py:38-46 | `update_selection` replaces the preview during a drag and deletes the old one; specified by `Selector.StartUpdateKeepLists` and `Selector.StartUpdateClearPreserveInv` |
| `Selector.End` | lama.py:48-72 | `end_selection`: commit or discard, then reset; specified by `Selector.EndIdleIsNoOp`, `Selector.EndDuringDrag`, `Selector.EndAppendOnly`, `Selector.EndPreservesInv` and `Selector.EndSymmetric` |
| `Selector.Clear` | lama.py:74-78 | `clear_selections` deletes the markers and empties both lists; specified by `Selector.ClearEmptiesIdempotent` |
| `Selector.InitInv` | lama.py:23-32 | a new selector holds no boxes, has no drag under way and satisfies the invariant |
| `Selector.StartUpdateKeepLists` | lama.py:34-46 | `start_selection` and `update_selection` never change `bboxes` or `rect_objects`; after a start a drag is under way; an update during a drag makes the new canvas item the preview |
| `Selector.EndIdleIsNoOp` | lama.py:48-49 | a release with no drag under way changes nothing and deletes nothing |
| `Selector.EndDuringDrag` | lama.py:48-72 | a release during a drag always resets the drag state. It appends exactly one box, keeping the earlier ones, iff the clamped width and height both exceed 10. Otherwise both lists are unchanged and the preview is deleted |
| `Selector.EndAppendOnly` | lama.py:62-65 | a release grows `bboxes` by at most one element and leaves the earlier entries unchanged |
| `Selector.EndPreservesInv` | lama.py:48-72 | a release keeps the invariant: every committed box lies in the image, ordered, with sides over 10, and there are no more markers than boxes |
| `Selector.StartUpdateClearPreserveInv` | lama.py:34-78 | start, update and clear keep the invariant |
| `Selector.CommittedBoxBounds` | lama.py:51-63 | a committed box has `0 <= x1 < x2 <= width` and `0 <= y1 < y2 <= height` |
| `Selector.EndSymmetric` | lama.py:48-54 | starting at A and releasing at B commits the same boxes as starting at B and releasing at A |
| `Selector.ClearEmptiesIdempotent` | lama.py:74-78 | clearing empties both lists and deletes every kept marker; clearing twice leaves the same state as clearing once and deletes nothing the second time |
| `Selector.ExampleDrag` | lama.py:34-72 | on a fresh 200x150 selector at scale 0.5, the drag (20,20) to (60,60) commits exactly `[(40,40,120,120)]` |
| `Selector.BoundingBoxSelector.constructor` | lama.py:23-32 | the object starts in the initial state and satisfies the invariant |
| `Selector.BoundingBoxSelector.StartSelection` | lama.py:34-36 | the fields become `Start` of the old fields; the invariant is kept |
| `Selector.BoundingBoxSelector.UpdateSelection` | lama.py:38-46 | the fields and the deleted ids are `Update` of the old fields; the invariant is kept |
| `Selector.BoundingBoxSelector.EndSelection` | lama.py:48-72 | the fields and the deleted ids are `End` of the old fields; the invariant is kept |
| `Selector.BoundingBoxSelector.ClearSelections` | lama.py:74-78 | the fields and the deleted ids are `Clear` of the old fields; the invariant is kept |
| `Mask.SliceBound` | lama.py:248 | Python's slice-bound normalisation: the result lies in `[0, n]`; an in-range bound is kept, an overlong one becomes `n`, a negative one counts from the end and stops at 0 |
| `Mask.Painted` | lama.py:247-248 | a cell has been set to 255 once the boxes are filled in order; its meaning is `Mask.PaintedIffSomeBox` |
| `Mask.MaskValue` | lama.py:245-248 | the value of a mask cell, 255 when painted and 0 otherwise; its meaning is `Mask.MaskValueMeaning` |
| `Mask.PaintedIffSomeBox` | lama.py:247-248 | after filling the boxes in order, a cell is 255 iff some box's slice covers it |
| `Mask.CoversNonNegative` | lama.py:248 | for non-negative coordinates, the slice `[y1:y2, x1:x2]` selects exactly the cells with `y1 <= r < y2` and `x1 <= c < x2` |
| `Mask.MaskValueMeaning` | lama.py:244-250 | for boxes with non-negative coordinates, a cell is 255 iff some box has `y1 <= r < y2` and `x1 <= c < x2`; every cell is 0 or 255 |
| `Mask.SelectorMaskMeaning` | lama.py:242-250 | the same pointwise meaning holds for the boxes of any valid selector, masked at the selector's image size |
| `Mask.MaskOrderIndependent` | lama.py:247-248 | two box lists that are permutations of each other give the same mask |
| `Mask.MaskSwapTwo` | lama.py:247-248 | the mask of `[A, B]` equals the mask of `[B, A]` |
| `Mask.EmptyMaskIsZero` | lama.py:245 | with no boxes every cell is 0 |
| `Mask.FullBoxMasksAll` | lama.py:244-250 | a list containing `(0, 0, width, height)` masks every cell with 255 |
| `Mask.FillBox` | lama.py:248 | the slice assignment sets every covered cell to 255 and leaves every other cell unchanged |
| `Mask.CreateMask` | lama.py:242-250 | the mask has shape `height x width`, and each cell holds the specified value for the whole box list |
| `Inpaint.Guard` | lama.py:252-264 | dispatch iff an image is loaded, the selector has boxes and the model is ready. Otherwise it returns the warning of the first failing check, in that order |
| `Inpaint.StartInpainting` | lama.py:252-272 | `start_inpainting` on the controller state; specified by `Inpaint.StartInpaintingOutcome` and `Inpaint.NoBoxesNeverDispatches` |
| `Inpaint.StartInpaintingOutcome` | lama.py:252-272 | work starts only when all three checks pass, and then the inpaint button is disabled. A warning leaves the state unchanged |
| `Inpaint.NoBoxesNeverDispatches` | lama.py:258-260 | with an image but no boxes (or no selector), the result is the "no selections" warning and no state change |
| `Inpaint.PrepareInput` | lama.py:285-293 | the input dispatch succeeds iff the array is `H x W x 3` or `H x W x 4`. It yields `H x W x 3` in both cases and otherwise raises the unsupported-format error with the shape |
| `Inpaint.PrepareRequest` | lama.py:285-296 | fails exactly when the input dispatch fails, with the same error. Otherwise it yields the `H x W x 3` input and a mask of shape `H x W` (the input image's height and width) whose cells are the mask of the boxes |
| `Inpaint.ResultMode` | lama.py:310-331 | an `H x W x 3` array gives RGB, an `H x W` array gives L, and another array shape is an unexpected-shape error. A PIL image is converted to RGB; any other value is an unexpected-type error |
| `Inpaint.ImageShape` | lama.py:280-281 | an RGB image reads back as a 3-dimensional array, an L image as a 2-dimensional one |
| `Inpaint.ResultFeedsNextPass` | lama.py:318-333 | a result passes the next pass's input dispatch iff its mode is RGB. A two-dimensional result array makes the next pass fail with an unsupported-format error |

## Left out

- Geometry.ToImage: divides exactly, where the source divides in floating point (lama.py:51-54). A coordinate can differ by one pixel when the float quotient rounds across an integer.
- `if self.current_rect:` (lama.py:40, 64, 67) tests the canvas id for truthiness; the model tests `Some?`. The two agree because Tk item ids are at least 1.

- Tk user interface: window layout, buttons, scrollbars, the status line, the progress bar and message boxes (lama.py:96-150). Warnings and errors are values here.
- Canvas drawing: the geometry and colour of the preview rectangle (lama.py:43-46) and the clearing of the canvas on redisplay (lama.py:222-224). Canvas items are opaque ids, and `UpdateSelection` takes the id the canvas assigned as a parameter instead of the pointer position.
- Event coordinates: `event.x`/`event.y` are widget-relative, and the source does not add the canvas scroll offset. They are plain integer parameters here.
- Threading: model initialisation on a background thread, the worker dispatch and the `root.after` completion callbacks (lama.py:163-187, 272, 335-359). `modelReady` and the inpaint button's state are plain fields.
- The dependency check and the model call itself (lama.py:152-161, 308): this is an external library. Its output enters `Inpaint.ResultMode` only as a `ModelOutput` value.
- Pixel values: the uint8 conversions, the `max() <= 1.0` rescaling heuristic and the alpha-channel drop's effect on pixel data (lama.py:280-283, 299-300, 311-316). These are numpy floating-point and cast semantics. Only shapes and modes are modelled.
- Display resizing: the scale factor computed from the 800x600 bound and the LANCZOS resize (lama.py:209-219). The scale is a given positive `real`.
- File I/O: loading, saving, dialogs and debug prints (lama.py:189-202, 303-306, 328, 339, 361-378).
- Completion handling: `inpainting_completed` redisplays the image, which builds a fresh selector, and then clears it (lama.py:342-350). Its status text reports the box count after that clear, so it is always 0. This flow runs on Tk callbacks and is not modelled beyond `Selector.Init` and `Selector.Clear`.
