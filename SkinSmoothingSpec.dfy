/**
 * The value-level specification of `HighPassSkinSmoothingFilter`: its five public
 * parameters, the slots of its four long-lived sub-filters, and what the `outputImage`
 * getter, the control-point observer and `setDefaults()` do to them.
 *
 * Images are opaque. Each collaborator (the RGB tone-curve filter, the high-pass mask
 * generator, CoreImage's `CIBlendWithMask` and `CISharpenLuminance`) is an uninterpreted
 * total function from that sub-filter's own slots to an optional output image.
 */
module SkinSmoothingSpec {
  import opened Wrappers

  /** An image as CoreImage hands it over; its pixels are not modelled. */
  type Image(==)

  /** One knot of the tone curve: a two-component `CIVector`. */
  datatype ControlPoint = ControlPoint(x: real, y: real)

  /** The default tone curve [(0,0), (120/255,146/255), (1,1)]. */
  const DefaultControlPoints: seq<ControlPoint> :=
    [ControlPoint(0.0, 0.0), ControlPoint(120.0 / 255.0, 146.0 / 255.0), ControlPoint(1.0, 1.0)]

  const DefaultAmount: real := 0.75
  const DefaultRadius: real := 8.0
  const DefaultSharpnessFactor: real := 0.6

  /** The five public parameters of the filter. */
  datatype Params = Params(
    inputImage: Option<Image>,
    inputAmount: real,
    inputRadius: real,
    inputToneCurveControlPoints: seq<ControlPoint>,
    inputSharpnessFactor: real)

  /*
   * The slots of each sub-filter that the filter writes. A slot holding `None` has never
   * been written (it holds the sub-filter's own default) or was cleared by writing `nil`.
   */

  /** `RGBToneCurveFilter`: composite control points, intensity and input image. */
  datatype ToneCurveSlots = ToneCurveSlots(points: seq<ControlPoint>, intensity: Option<real>, input: Option<Image>)

  /** `HighPassSkinSmoothingMaskGenerator`: input image and high-pass radius. */
  datatype MaskSlots = MaskSlots(input: Option<Image>, radius: Option<real>)

  /** `CIBlendWithMask`: foreground (input), background and mask images. */
  datatype BlendSlots = BlendSlots(input: Option<Image>, background: Option<Image>, mask: Option<Image>)

  /** `CISharpenLuminance`: sharpness and input image. */
  datatype SharpenSlots = SharpenSlots(sharpness: Option<real>, input: Option<Image>)

  /** Everything the filter holds between calls. */
  datatype State = State(
    params: Params,
    toneCurve: ToneCurveSlots,
    maskGenerator: MaskSlots,
    blend: BlendSlots,
    sharpen: SharpenSlots)

  /**
   * The collaborators: each sub-filter's `outputImage` as a function of its slots, and
   * whether the two `CIFilter(name:)` lookups produced a filter.
   */
  datatype Collaborators = Collaborators(
    toneCurveOutput: ToneCurveSlots -> Option<Image>,
    maskOutput: MaskSlots -> Option<Image>,
    blendOutput: BlendSlots -> Option<Image>,
    sharpenOutput: SharpenSlots -> Option<Image>,
    blendAvailable: bool,
    sharpenAvailable: bool)

  /** What one read of `outputImage` returns, and the state it leaves behind. */
  datatype Rendered = Rendered(image: Option<Image>, state: State)

  /** The control points pushed into the tone-curve filter: never an empty curve. */
  function EffectiveControlPoints(points: seq<ControlPoint>): (r: seq<ControlPoint>)
    ensures r != []
    ensures points != [] ==> r == points
    ensures points == [] ==> r == DefaultControlPoints
  {
    if points == [] then DefaultControlPoints else points
  }

  /** The tone-curve filter uses exactly the curve the public parameter designates. */
  ghost predicate CurveInSync(s: State)
  {
    s.toneCurve.points == EffectiveControlPoints(s.params.inputToneCurveControlPoints)
  }

  /** The sharpness of the final stage, recomputed from the parameters on every read. */
  function SharpnessValue(p: Params): real
  {
    p.inputSharpnessFactor * p.inputAmount
  }

  /** A slot written only when the collaborator produced a value (`if let x = … { slot = x }`). */
  function Overwrite<T>(slot: Option<T>, produced: Option<T>): (r: Option<T>)
    ensures produced.Some? ==> r == produced
    ensures produced.None? ==> r == slot
  {
    if produced.Some? then produced else slot
  }

  /** A freshly built filter: stored defaults and sub-filters never written. */
  function Initial(): (s: State)
    ensures s.params == Params(None, DefaultAmount, DefaultRadius, DefaultControlPoints, DefaultSharpnessFactor)
    ensures s.toneCurve.points == DefaultControlPoints
    ensures CurveInSync(s)
  {
    State(
      Params(None, DefaultAmount, DefaultRadius, DefaultControlPoints, DefaultSharpnessFactor),
      ToneCurveSlots(DefaultControlPoints, None, None),
      MaskSlots(None, None),
      BlendSlots(None, None, None),
      SharpenSlots(None, None))
  }

  /** Assigning `inputToneCurveControlPoints`, with its `didSet` observer. */
  function ControlPointsAssigned(s: State, points: seq<ControlPoint>): (r: State)
    ensures r.params == s.params.(inputToneCurveControlPoints := points)
    ensures r.toneCurve == s.toneCurve.(points := EffectiveControlPoints(points))
    ensures r.maskGenerator == s.maskGenerator && r.blend == s.blend && r.sharpen == s.sharpen
    ensures CurveInSync(r)
  {
    s.(params := s.params.(inputToneCurveControlPoints := points),
       toneCurve := s.toneCurve.(points := EffectiveControlPoints(points)))
  }

  /** `setDefaults()`: the five assignments in order, the last one through the observer. */
  function DefaultsRestored(s: State): (r: State)
    ensures r.params == Initial().params
    ensures r.toneCurve == s.toneCurve.(points := DefaultControlPoints)
    ensures r.maskGenerator == s.maskGenerator && r.blend == s.blend && r.sharpen == s.sharpen
    ensures CurveInSync(r)
  {
    var cleared := s.(params := s.params.(
      inputImage := None,
      inputRadius := DefaultRadius,
      inputAmount := DefaultAmount,
      inputSharpnessFactor := DefaultSharpnessFactor));
    ControlPointsAssigned(cleared, DefaultControlPoints)
  }

  /** One read of the `outputImage` getter. */
  function Output(s: State, env: Collaborators): (r: Rendered)
    // the getter never changes a parameter or the tone curve itself
    ensures r.state.params == s.params
    ensures r.state.toneCurve.points == s.toneCurve.points
    // no input image: nothing, and no sub-filter slot is written
    ensures s.params.inputImage.None? ==> r == Rendered(None, s)
    // with an input image the mask generator and the tone curve are always configured
    ensures s.params.inputImage.Some? ==>
      r.state.maskGenerator == MaskSlots(s.params.inputImage, Some(s.params.inputRadius)) &&
      r.state.toneCurve == s.toneCurve.(intensity := Some(s.params.inputAmount), input := s.params.inputImage)
    // no blend filter: nothing, and blend and sharpen slots untouched
    ensures !env.blendAvailable ==> r.image.None? && r.state.blend == s.blend && r.state.sharpen == s.sharpen
    // the blend slots: foreground always, background and mask only when produced
    ensures s.params.inputImage.Some? && env.blendAvailable ==>
      var tone := env.toneCurveOutput(r.state.toneCurve);
      var mask := env.maskOutput(r.state.maskGenerator);
      r.state.blend.input == s.params.inputImage &&
      (tone.Some? ==> r.state.blend.background == tone) &&
      (tone.None? ==> r.state.blend.background == s.blend.background) &&
      (mask.Some? ==> r.state.blend.mask == mask) &&
      (mask.None? ==> r.state.blend.mask == s.blend.mask)
    // sharpen only when factor * amount > 0, and then only through the sharpen filter
    ensures s.params.inputImage.Some? && env.blendAvailable ==>
      var v := s.params.inputSharpnessFactor * s.params.inputAmount;
      (v > 0.0 && env.sharpenAvailable ==>
        r.state.sharpen == SharpenSlots(Some(v), env.blendOutput(r.state.blend)) &&
        r.image == env.sharpenOutput(r.state.sharpen)) &&
      (v > 0.0 && !env.sharpenAvailable ==> r.image.None? && r.state.sharpen == s.sharpen) &&
      (v <= 0.0 ==> r.image == env.blendOutput(r.state.blend) && r.state.sharpen == s.sharpen)
  {
    match s.params.inputImage
    case None => Rendered(None, s)
    case Some(image) =>
      var mask := MaskSlots(Some(image), Some(s.params.inputRadius));
      var tone := s.toneCurve.(intensity := Some(s.params.inputAmount), input := Some(image));
      var configured := s.(maskGenerator := mask, toneCurve := tone);
      if !env.blendAvailable then
        Rendered(None, configured)
      else
        var blend := BlendSlots(
          Some(image),
          Overwrite(s.blend.background, env.toneCurveOutput(tone)),
          Overwrite(s.blend.mask, env.maskOutput(mask)));
        var blended := configured.(blend := blend);
        var sharpness := SharpnessValue(s.params);
        if sharpness > 0.0 then
          if env.sharpenAvailable then
            var sharpen := SharpenSlots(Some(sharpness), env.blendOutput(blend));
            Rendered(env.sharpenOutput(sharpen), blended.(sharpen := sharpen))
          else
            Rendered(None, blended)
        else
          Rendered(env.blendOutput(blend), blended)
  }

  /** A second read with nothing changed in between repeats the first exactly. */
  lemma OutputIdempotent(s: State, env: Collaborators)
    ensures Output(Output(s, env).state, env) == Output(s, env)
  {
  }

  /** After `setDefaults()` there is no input image, so the next read gives nothing. */
  lemma DefaultsThenNoOutput(s: State, env: Collaborators)
    ensures Output(DefaultsRestored(s), env) == Rendered(None, DefaultsRestored(s))
  {
  }

  /**
   * The sharpness is not cached: change `inputAmount` between two reads and the second
   * read hands the sharpen filter the new product.
   */
  lemma SharpnessFollowsAmount(s: State, env: Collaborators, amount: real)
    requires s.params.inputImage.Some? && env.blendAvailable && env.sharpenAvailable
    requires s.params.inputSharpnessFactor * amount > 0.0
    ensures
      var first := Output(s, env).state;
      var second := Output(first.(params := first.params.(inputAmount := amount)), env).state;
      second.sharpen.sharpness == Some(s.params.inputSharpnessFactor * amount)
  {
    var first := Output(s, env).state;
    var changed := first.(params := first.params.(inputAmount := amount));
    assert changed.params.inputImage.Some?;
    assert SharpnessValue(changed.params) == s.params.inputSharpnessFactor * amount;
  }

  /**
   * The blend slots persist across reads: when the tone curve produces nothing for a new
   * input image, the background of the previous image is blended under the new one.
   */
  lemma StaleBackgroundIsReused(s: State, env: Collaborators, next: Image, previous: Image)
    requires s.params.inputImage.Some? && env.blendAvailable
    requires env.toneCurveOutput(Output(s, env).state.toneCurve) == Some(previous)
    requires env.toneCurveOutput(s.toneCurve.(intensity := Some(s.params.inputAmount), input := Some(next))) == None
    ensures
      var first := Output(s, env).state;
      var second := Output(first.(params := first.params.(inputImage := Some(next))), env).state;
      second.blend.input == Some(next) && second.blend.background == Some(previous)
  {
  }

  /** What a client can do to the filter: assign a parameter, reset, or read the output. */
  datatype Op =
    | AssignImage(image: Option<Image>)
    | AssignAmount(amount: real)
    | AssignRadius(radius: real)
    | AssignSharpnessFactor(factor: real)
    | AssignControlPoints(points: seq<ControlPoint>)
    | ResetDefaults
    | ReadOutput

  /** The state after a sequence of operations, and what each read returned. */
  datatype Replay = Replay(state: State, outputs: seq<Option<Image>>)

  /** One operation; only a read produces an image. */
  function Perform(s: State, op: Op, env: Collaborators): (r: Rendered)
    ensures !op.ReadOutput? ==> r.image.None?
    ensures CurveInSync(s) ==> CurveInSync(r.state)
  {
    match op
    case AssignImage(image) => Rendered(None, s.(params := s.params.(inputImage := image)))
    case AssignAmount(amount) => Rendered(None, s.(params := s.params.(inputAmount := amount)))
    case AssignRadius(radius) => Rendered(None, s.(params := s.params.(inputRadius := radius)))
    case AssignSharpnessFactor(factor) => Rendered(None, s.(params := s.params.(inputSharpnessFactor := factor)))
    case AssignControlPoints(points) => Rendered(None, ControlPointsAssigned(s, points))
    case ResetDefaults => Rendered(None, DefaultsRestored(s))
    case ReadOutput => Output(s, env)
  }

  function Run(s: State, ops: seq<Op>, env: Collaborators): (r: Replay)
    decreases |ops|
  {
    if ops == [] then Replay(s, [])
    else
      var step := Perform(s, ops[0], env);
      var rest := Run(step.state, ops[1..], env);
      Replay(rest.state, if ops[0].ReadOutput? then [step.image] + rest.outputs else rest.outputs)
  }

  /** Whatever a client does, the tone-curve filter keeps the curve the parameter designates. */
  lemma {:induction false} RunKeepsCurveInSync(s: State, ops: seq<Op>, env: Collaborators)
    requires CurveInSync(s)
    ensures CurveInSync(Run(s, ops, env).state)
    decreases |ops|
  {
    if ops != [] {
      RunKeepsCurveInSync(Perform(s, ops[0], env).state, ops[1..], env);
    }
  }

  /** From a fresh filter, no sequence of operations leaves the tone curve empty. */
  lemma ReachableCurveNeverEmpty(ops: seq<Op>, env: Collaborators)
    ensures Run(Initial(), ops, env).state.toneCurve.points != []
  {
    RunKeepsCurveInSync(Initial(), ops, env);
  }

  /** Any number of reads in a row all return what the first one returns. */
  lemma {:induction false} RepeatedReadsAgree(s: State, ops: seq<Op>, env: Collaborators)
    requires ops != []
    requires forall i :: 0 <= i < |ops| ==> ops[i].ReadOutput?
    ensures |Run(s, ops, env).outputs| == |ops|
    ensures forall i :: 0 <= i < |ops| ==> Run(s, ops, env).outputs[i] == Output(s, env).image
    ensures Run(s, ops, env).state == Output(s, env).state
    decreases |ops|
  {
    var first := Output(s, env);
    if |ops| > 1 {
      RepeatedReadsAgree(first.state, ops[1..], env);
      OutputIdempotent(s, env);
    }
  }
}
