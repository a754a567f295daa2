# High-pass skin smoothing filter, modelled in Dafny

This project models `HighPassSkinSmoothingFilter`, the configuration object of the Lady
skin-smoothing pipeline. The filter holds five public parameters: the input image, the
amount, the high-pass radius, the tone-curve control points and the sharpness factor. It
also owns four long-lived sub-filters: an RGB tone curve, a high-pass mask generator,
CoreImage's `CIBlendWithMask` and `CISharpenLuminance`. Its `outputImage` getter writes
the parameters into those sub-filters' slots and chains their outputs together. Every
stage may yield nothing, and sharpening runs only when `inputSharpnessFactor * inputAmount > 0`.

The model has three files:

- `Wrappers.dfy`: `Option`, which stands for Swift's `nil`-able values.
- `SkinSmoothingSpec.dfy`: the filter's whole state as a value (`State`: the parameters
  plus each sub-filter's slots). It defines what `outputImage`, the control-point
  observer and `setDefaults()` do to that state (`Output`, `ControlPointsAssigned`,
  `DefaultsRestored`). It also replays any sequence of client operations (`Run`) and
  proves the lemmas that relate several calls.
- `HighPassSkinSmoothingFilter.dfy`: the class itself, with the same fields. Its
  methods assign those fields in the source's order. Each method is proved to change the
  object's `Snapshot()` exactly as the matching function changes a `State`.

The images and the pixel arithmetic are abstract. `Image` is an opaque type. Each
sub-filter's `outputImage` is an uninterpreted total function of that sub-filter's own
slots (`Collaborators`). Two booleans in `Collaborators` say whether the
`CIFilter(name:)` lookups for the blend and sharpen filters produced a filter. A slot
that holds `None` has either never been written, so it still holds the sub-filter's own
default, or was cleared by writing `nil`.

One behaviour may surprise a reader who expects each call to start afresh, or a missing
tone-curve or mask output to make the blend stage yield nothing. When either collaborator
yields `nil`, the code leaves the blend filter's background or mask slot as it was, so the
value from an earlier call is reused. The model keeps this behaviour.
`StaleBackgroundIsReused` proves it: the tone-curve output of a previous image is blended
under a new one.

## Model

| member | source | states |
|---|---|---|
| `SkinSmoothingSpec.EffectiveControlPoints` | Lady/HighPassSkinSmoothingFilter.swift:31-37 | the curve handed to the tone-curve filter is never empty; it is the assigned array when that is non-empty and the default [(0,0), (120/255,146/255), (1,1)] when it is empty |
| `SkinSmoothingSpec.Initial` | Lady/HighPassSkinSmoothingFilter.swift:16-42 | a new filter has no input image, amount 0.75, radius 8.0, factor 0.6 and the default control points, and its tone-curve filter starts with the default points, so the curve is in sync |
| `SkinSmoothingSpec.ControlPointsAssigned` | Lady/HighPassSkinSmoothingFilter.swift:31-35 | assigning the control points stores exactly what was assigned, even an empty array; the tone-curve filter receives the effective curve; no other parameter or slot changes |
| `SkinSmoothingSpec.DefaultsRestored` | Lady/HighPassSkinSmoothingFilter.swift:103-109 | after `setDefaults()` every parameter equals its initial value and the tone-curve filter holds the default points; the other sub-filter slots are untouched |
| `SkinSmoothingSpec.Output` | Lady/HighPassSkinSmoothingFilter.swift:44-79 | with no input image it yields nothing and writes no slot. Otherwise it sets mask input and radius and tone-curve input and intensity. A missing blend filter yields nothing. The blend foreground is always the input; background and mask are overwritten only by a produced image. Sharpening happens exactly when factor * amount > 0, with that sharpness and the blend output, and yields nothing without a sharpen filter; otherwise the blend output is returned. Parameters never change |
| `SkinSmoothingSpec.OutputIdempotent` | Lady/HighPassSkinSmoothingFilter.swift:44-79 | reading `outputImage` twice with nothing changed in between gives the same image and the same state |
| `SkinSmoothingSpec.DefaultsThenNoOutput` | Lady/HighPassSkinSmoothingFilter.swift:103-109 | a read right after `setDefaults()` yields nothing and changes nothing |
| `SkinSmoothingSpec.SharpnessFollowsAmount` | Lady/HighPassSkinSmoothingFilter.swift:66-71 | the sharpness is recomputed on each read: after changing the amount, the next read gives the sharpen filter factor times the new amount |
| `SkinSmoothingSpec.StaleBackgroundIsReused` | Lady/HighPassSkinSmoothingFilter.swift:56-60 | when the tone curve yields nothing for a new image, the blend filter keeps the previous image's tone-curve output as background under the new foreground |
| `SkinSmoothingSpec.Perform` | Lady/HighPassSkinSmoothingFilter.swift:16-42 | a client operation (assigning a parameter, resetting, reading) keeps the tone curve in sync with the control-point parameter, and only a read produces an image |
| `SkinSmoothingSpec.RunKeepsCurveInSync` | Lady/HighPassSkinSmoothingFilter.swift:31-35 | after any sequence of client operations the tone-curve filter still uses the effective curve of the current parameter |
| `SkinSmoothingSpec.ReachableCurveNeverEmpty` | Lady/HighPassSkinSmoothingFilter.swift:81-85 | starting from a new filter, no sequence of operations leaves the tone-curve filter with an empty curve |
| `SkinSmoothingSpec.RepeatedReadsAgree` | Lady/HighPassSkinSmoothingFilter.swift:44-79 | any number of consecutive reads all return what the first read returns and leave the state of a single read |
| `SkinSmoothing.HighPassSkinSmoothingFilter.constructor` | Lady/HighPassSkinSmoothingFilter.swift:81-101 | a new object's snapshot is the initial state, with the sub-filters built up front |
| `SkinSmoothing.HighPassSkinSmoothingFilter.SetInputToneCurveControlPoints` | Lady/HighPassSkinSmoothingFilter.swift:31-35 | the assignment and its `didSet` observer change the object exactly as `ControlPointsAssigned` does |
| `SkinSmoothing.HighPassSkinSmoothingFilter.SetDefaults` | Lady/HighPassSkinSmoothingFilter.swift:103-109 | the five assignments change the object exactly as `DefaultsRestored` does |
| `SkinSmoothing.HighPassSkinSmoothingFilter.OutputImage` | Lady/HighPassSkinSmoothingFilter.swift:44-79 | the getter returns the image `Output` gives and leaves the object in the state `Output` gives |
| `SkinSmoothing.ResetThenRead` | Lady/HighPassSkinSmoothingFilter.swift:103-109 | a client that resets and then reads gets nothing and leaves the default curve in place |

## Left out

- Pixel behaviour: what the tone-curve filter, the mask generator (`HighPassSkinSmoothingMaskGenerator`), `CIBlendWithMask` and `CISharpenLuminance` compute is not modelled. Each is an uninterpreted function of its own slots. `RGBToneCurveFilter` and `HighPassSkinSmoothingMaskGenerator` are not part of this model, and CoreImage is a platform library.
- Floating point: amount, radius and factor are `real`. A `Float` product `inputSharpnessFactor * inputAmount` of two tiny positive values can underflow to 0 and skip sharpening. The model's real product cannot underflow.
- `CIVector` internals: a control point is a pair of reals.
- Lazy initialisation: the sub-filters are built in the constructor. Whether each `CIFilter(name:)` lookup succeeds is a fixed boolean. Nothing observable depends on when the filters are built.
- Sub-filter defaults: the slots that the filter has not yet written (tone-curve intensity, mask radius, sharpen sharpness, the images) start as `None`. Their actual defaults belong to code that is not part of this model.
- Direct assignment of `inputToneCurveControlPoints`: Dafny has no property observers. The class's field is meant to be assigned only through `SetInputToneCurveControlPoints`, which runs the observer's code.
- Rendering, GPU resources and image I/O are outside the filter.
