/**
 * The decisions `SimpleLamaApp` (lama.py) makes around the model call: the precondition
 * guard of `start_inpainting`, the channel dispatch of the input image and the shape
 * dispatch of the model's result in `inpaint_regions`. Images and arrays are represented by
 * their numpy shape (a sequence of dimensions); pixel values are not modelled.
 */
module Inpaint {
  import opened Wrappers
  import opened Geometry
  import Mask

  type Shape = seq<nat>

  /** The warnings `start_inpainting` shows instead of starting work. */
  datatype Warning = NoImage | NoSelections | ModelNotReady

  datatype GuardOutcome = Warn(warning: Warning) | Dispatch

  /** The `ValueError`s `inpaint_regions` raises. */
  datatype InpaintError =
    | UnsupportedImageFormat(shape: Shape)
    | UnexpectedResultShape(shape: Shape)
    | UnexpectedResultType

  /** What the model call returned: a numpy array of some shape, a PIL image, or anything else. */
  datatype ModelOutput = ArrayOutput(shape: Shape) | ImageOutput | OtherOutput

  /** The PIL mode of the result image. */
  datatype Mode = RGB | L

  /**
   * The controller state `start_inpainting` reads and changes: the current image (its array
   * shape), the committed boxes of the current selector (`None` when there is no selector),
   * whether the model has finished loading and whether the inpaint button is enabled.
   */
  datatype App = App(image: Option<Shape>, selection: Option<seq<Box>>, modelReady: bool, inpaintEnabled: bool)

  predicate HasSelections(selection: Option<seq<Box>>) {
    selection.Some? && |selection.value| > 0
  }

  /** The three checks of `start_inpainting`, in the order the source makes them. */
  function Guard(imageLoaded: bool, selection: Option<seq<Box>>, modelReady: bool): (r: GuardOutcome)
    ensures r == Dispatch <==> imageLoaded && HasSelections(selection) && modelReady
    ensures r == Warn(NoImage) <==> !imageLoaded
    ensures r == Warn(NoSelections) <==> imageLoaded && !HasSelections(selection)
    ensures r == Warn(ModelNotReady) <==> imageLoaded && HasSelections(selection) && !modelReady
  {
    if !imageLoaded then Warn(NoImage)
    else if !HasSelections(selection) then Warn(NoSelections)
    else if !modelReady then Warn(ModelNotReady)
    else Dispatch
  }

  /** `start_inpainting`: on a warning nothing changes; on dispatch the inpaint button is disabled. */
  function StartInpainting(app: App): (r: (GuardOutcome, App))
  {
    var outcome := Guard(app.image.Some?, app.selection, app.modelReady);
    if outcome == Dispatch then (outcome, app.(inpaintEnabled := false)) else (outcome, app)
  }

  /** Work starts only with an image, at least one box and a ready model; a warning changes nothing. */
  lemma StartInpaintingOutcome(app: App)
    ensures StartInpainting(app).0 == Dispatch <==>
      app.image.Some? && app.selection.Some? && |app.selection.value| > 0 && app.modelReady
    ensures StartInpainting(app).0.Warn? ==> StartInpainting(app).1 == app
    ensures StartInpainting(app).0 == Dispatch ==>
      StartInpainting(app).1 == app.(inpaintEnabled := false)
  {
  }

  /** Zero committed boxes always gives a warning, never a dispatch, and leaves the state alone. */
  lemma NoBoxesNeverDispatches(app: App)
    requires app.image.Some? && (app.selection.None? || app.selection.value == [])
    ensures StartInpainting(app) == (Warn(NoSelections), app)
  {
  }

  /**
   * The channel dispatch on the input array: three channels are kept, four lose their alpha
   * channel (`image_np[:, :, :3]`), anything else is rejected.
   */
  function PrepareInput(shape: Shape): (r: Result<Shape, InpaintError>)
    ensures r.Ok? <==> |shape| == 3 && (shape[2] == 3 || shape[2] == 4)
    ensures r.Ok? ==> r.value == [shape[0], shape[1], 3]
    ensures r.Err? ==> r.error == UnsupportedImageFormat(shape)
  {
    if |shape| == 3 && shape[2] == 3 then Ok(shape)
    else if |shape| == 3 && shape[2] == 4 then Ok(shape[..2] + [3])
    else Err(UnsupportedImageFormat(shape))
  }

  /**
   * The preparation `inpaint_regions` makes before calling the model: the channel dispatch,
   * then the mask built from the boxes at `image_shape[:2]` of the prepared array. The mask
   * always has the input image's height and width.
   */
  method PrepareRequest(shape: Shape, boxes: seq<Box>) returns (r: Result<(Shape, array2<int>), InpaintError>)
    ensures r.Err? <==> PrepareInput(shape).Err?
    ensures r.Err? ==> r.error == UnsupportedImageFormat(shape)
    ensures r.Ok? ==> |shape| == 3 && r.value.0 == [shape[0], shape[1], 3]
    ensures r.Ok? ==> r.value.1.Length0 == shape[0] && r.value.1.Length1 == shape[1]
    ensures r.Ok? ==> forall row, col :: 0 <= row < shape[0] && 0 <= col < shape[1] ==>
      r.value.1[row, col] == Mask.MaskValue(boxes, row, col, shape[0], shape[1])
  {
    var prepared := PrepareInput(shape);
    if prepared.Err? {
      return Err(prepared.error);
    }
    var imageShape := prepared.value;
    var mask := Mask.CreateMask(imageShape[0], imageShape[1], boxes);
    return Ok((imageShape, mask));
  }

  /**
   * The mode of the result image: an `H x W x 3` array becomes RGB, an `H x W` array becomes L,
   * a PIL image is converted to RGB; any other array shape or value type is an error.
   */
  function ResultMode(out: ModelOutput): (r: Result<Mode, InpaintError>)
    ensures out.ArrayOutput? ==>
      (r == Ok(RGB) <==> |out.shape| == 3 && out.shape[2] == 3) &&
      (r == Ok(L) <==> |out.shape| == 2) &&
      (r.Err? <==> !(|out.shape| == 2 || (|out.shape| == 3 && out.shape[2] == 3)))
    ensures out.ArrayOutput? && r.Err? ==> r.error == UnexpectedResultShape(out.shape)
    ensures out.ImageOutput? ==> r == Ok(RGB)
    ensures out.OtherOutput? ==> r == Err(UnexpectedResultType)
  {
    match out
    case ArrayOutput(shape) =>
      if |shape| == 3 && shape[2] == 3 then Ok(RGB)
      else if |shape| == 2 then Ok(L)
      else Err(UnexpectedResultShape(shape))
    case ImageOutput => Ok(RGB)
    case OtherOutput => Err(UnexpectedResultType)
  }

  /** The array shape of a `height` by `width` image of the given mode, as `np.array` yields it. */
  function ImageShape(mode: Mode, height: nat, width: nat): (r: Shape)
    ensures |r| == (if mode == RGB then 3 else 2)
  {
    if mode == RGB then [height, width, 3] else [height, width]
  }

  /**
   * The result becomes the next image. An RGB result passes the input dispatch of the next
   * inpainting pass, but an L result (a two-dimensional array from the model) makes it fail.
   */
  lemma ResultFeedsNextPass(out: ModelOutput, height: nat, width: nat)
    requires ResultMode(out).Ok?
    ensures var next := PrepareInput(ImageShape(ResultMode(out).value, height, width));
      next.Ok? <==> ResultMode(out).value == RGB
    ensures out.ArrayOutput? && |out.shape| == 2 ==>
      PrepareInput(ImageShape(ResultMode(out).value, height, width)) ==
      Err(UnsupportedImageFormat([height, width]))
  {
  }
}
