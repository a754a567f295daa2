/**
 * `HighPassSkinSmoothingFilter` as an object: the five public parameters are fields a
 * client assigns, the four sub-filters are fields holding their slots, and every method
 * is proved to move the object's `Snapshot()` exactly as the matching function of
 * `SkinSmoothingSpec` moves a `State`.
 */
module SkinSmoothing {
  import opened Wrappers
  import opened SkinSmoothingSpec

  class HighPassSkinSmoothingFilter {
    // public parameters; `inputToneCurveControlPoints` is assigned through
    // `SetInputToneCurveControlPoints`, which runs the property observer
    var inputImage: Option<Image>
    var inputAmount: real
    var inputRadius: real
    var inputToneCurveControlPoints: seq<ControlPoint>
    var inputSharpnessFactor: real

    // the long-lived sub-filters, by the slots this filter writes into them
    var skinToneCurveFilter: ToneCurveSlots
    var maskGenerator: MaskSlots
    var blendWithMaskFilter: BlendSlots
    var sharpenFilter: SharpenSlots

    // what the sub-filters compute, and whether the two CoreImage lookups succeeded
    const collaborators: Collaborators

    ghost function Snapshot(): State
      reads this
    {
      State(
        Params(inputImage, inputAmount, inputRadius, inputToneCurveControlPoints, inputSharpnessFactor),
        skinToneCurveFilter, maskGenerator, blendWithMaskFilter, sharpenFilter)
    }

    constructor (collaborators: Collaborators)
      ensures Snapshot() == Initial()
      ensures CurveInSync(Snapshot())
      ensures this.collaborators == collaborators
    {
      inputImage := None;
      inputAmount := DefaultAmount;
      inputRadius := DefaultRadius;
      inputToneCurveControlPoints := DefaultControlPoints;
      inputSharpnessFactor := DefaultSharpnessFactor;
      skinToneCurveFilter := ToneCurveSlots(DefaultControlPoints, None, None);
      maskGenerator := MaskSlots(None, None);
      blendWithMaskFilter := BlendSlots(None, None, None);
      sharpenFilter := SharpenSlots(None, None);
      this.collaborators := collaborators;
    }

    /** Assigns `inputToneCurveControlPoints`; the observer then updates the tone curve. */
    method SetInputToneCurveControlPoints(points: seq<ControlPoint>)
      modifies this
      ensures Snapshot() == ControlPointsAssigned(old(Snapshot()), points)
      ensures CurveInSync(Snapshot())
    {
      inputToneCurveControlPoints := points;
      skinToneCurveFilter := skinToneCurveFilter.(
        points := if inputToneCurveControlPoints == [] then DefaultControlPoints else inputToneCurveControlPoints);
    }

    method SetDefaults()
      modifies this
      ensures Snapshot() == DefaultsRestored(old(Snapshot()))
      ensures CurveInSync(Snapshot())
    {
      inputImage := None;
      inputRadius := DefaultRadius;
      inputAmount := DefaultAmount;
      inputSharpnessFactor := DefaultSharpnessFactor;
      SetInputToneCurveControlPoints(DefaultControlPoints);
    }

    /** The `outputImage` getter: configures the sub-filters in order and reads the last one. */
    method OutputImage() returns (image: Option<Image>)
      modifies this
      ensures image == Output(old(Snapshot()), collaborators).image
      ensures Snapshot() == Output(old(Snapshot()), collaborators).state
      ensures CurveInSync(old(Snapshot())) ==> CurveInSync(Snapshot())
    {
      ghost var before := Snapshot();
      if inputImage.None? {
        return None;
      }
      var unwrappedInputImage := inputImage.value;

      maskGenerator := maskGenerator.(input := Some(unwrappedInputImage));
      maskGenerator := maskGenerator.(radius := Some(inputRadius));

      skinToneCurveFilter := skinToneCurveFilter.(input := Some(unwrappedInputImage));
      skinToneCurveFilter := skinToneCurveFilter.(intensity := Some(inputAmount));

      if !collaborators.blendAvailable {
        return None;
      }

      blendWithMaskFilter := blendWithMaskFilter.(input := Some(unwrappedInputImage));

      var skinToneCurveFilterOutImage := collaborators.toneCurveOutput(skinToneCurveFilter);
      if skinToneCurveFilterOutImage.Some? {
        blendWithMaskFilter := blendWithMaskFilter.(background := skinToneCurveFilterOutImage);
      }

      var skinSmoothingOutImage := collaborators.maskOutput(maskGenerator);
      if skinSmoothingOutImage.Some? {
        blendWithMaskFilter := blendWithMaskFilter.(mask := skinSmoothingOutImage);
      }

      assert blendWithMaskFilter == BlendSlots(
        Some(unwrappedInputImage),
        Overwrite(before.blend.background, skinToneCurveFilterOutImage),
        Overwrite(before.blend.mask, skinSmoothingOutImage));

      var sharpnessValue := inputSharpnessFactor * inputAmount;

      if sharpnessValue > 0.0 {
        if collaborators.sharpenAvailable {
          sharpenFilter := sharpenFilter.(sharpness := Some(sharpnessValue));
          sharpenFilter := sharpenFilter.(input := collaborators.blendOutput(blendWithMaskFilter));
          image := collaborators.sharpenOutput(sharpenFilter);
        } else {
          image := None;
        }
      } else {
        image := collaborators.blendOutput(blendWithMaskFilter);
      }
      assert before.params.inputImage == Some(unwrappedInputImage);
      assert SharpnessValue(before.params) == sharpnessValue;
      assert Output(before, collaborators) == Rendered(image, Snapshot());
    }
  }

  /**
   * A client of the object: a reset followed by a read yields nothing, whatever the filter
   * held before, and leaves the tone curve on the default points.
   */
  method ResetThenRead(filter: HighPassSkinSmoothingFilter) returns (image: Option<Image>)
    modifies filter
    ensures image.None?
    ensures filter.skinToneCurveFilter.points == DefaultControlPoints
    ensures filter.inputToneCurveControlPoints == DefaultControlPoints
  {
    filter.SetDefaults();
    image := filter.OutputImage();
  }
}
