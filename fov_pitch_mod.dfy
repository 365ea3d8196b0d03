/** The pitch-driven FOV modifier: reads the view pitch, optionally remaps it, and applies a curve
    of it to the field of view. */
module FovPitchMod {
  import opened Engine

  /** ECameraCurveModType, plus a case for a stored value outside the enumeration. */
  datatype CurveModType = CurveAdditive | CurveMultiplicative | CurveAbsolute | UnknownCurveMod

  /** An FFloatRange with both bounds set. */
  datatype FloatRange = FloatRange(lower: real, upper: real)

  /** The authored settings. The curve of FCameraCurveModData is read through its rich curve
      without a check, so it is given here as the curve's evaluation function. */
  datatype PitchModSettings = PitchModSettings(
    curve: real -> real,
    curveEvaluationType: CurveModType,
    remapPitch: bool,
    pitchRange: FloatRange,
    pitchOutRange: FloatRange)

  /** The constructor's settings for a given curve: additive, no remapping, pitch range
      [-160, -25] mapped onto [0, 1]. */
  function DefaultPitchModSettings(curve: real -> real): (r: PitchModSettings)
    ensures r.curve == curve && r.curveEvaluationType == CurveAdditive && !r.remapPitch
    ensures r.pitchRange == FloatRange(-160.0, -25.0) && r.pitchOutRange == FloatRange(0.0, 1.0)
  {
    PitchModSettings(curve, CurveAdditive, false, FloatRange(-160.0, -25.0), FloatRange(0.0, 1.0))
  }

  /** SMALL_NUMBER, the tolerance FMath::GetRangePct uses for an empty input range. */
  const SmallNumber: real := 0.00000001

  /** FMath::GetRangePct: where `value` lies in the input range as a fraction; an input range
      narrower than SMALL_NUMBER gives 1 at or above its upper bound and 0 below it. */
  function RangePct(input: FloatRange, value: real): (r: real)
    ensures input.lower < input.upper && value <= input.lower ==> r <= 0.0
    ensures input.lower < input.upper && value >= input.upper ==> r >= 1.0
  {
    var divisor := input.upper - input.lower;
    if Abs(divisor) <= SmallNumber then (if value >= input.upper then 1.0 else 0.0)
    else
      DivisionBounds(value - input.lower, divisor);
      (value - input.lower) / divisor
  }

  lemma DivisionBounds(a: real, b: real)
    requires b > 0.0 || b < -SmallNumber
    ensures b > 0.0 && a <= 0.0 ==> a / b <= 0.0
    ensures b > 0.0 && a >= b ==> a / b >= 1.0
  {
    assert a / b * b == a;
  }

  /** FMath::Clamp(x, 0, 1). */
  function ClampUnit(x: real): (r: real)
    ensures 0.0 <= r <= 1.0
    ensures x <= 0.0 ==> r == 0.0
    ensures x >= 1.0 ==> r == 1.0
    ensures 0.0 <= x <= 1.0 ==> r == x
  {
    if x < 0.0 then 0.0 else if x > 1.0 then 1.0 else x
  }

  /** FMath::GetMappedRangeValueClamped: the clamped fraction of `value` within the input range,
      taken as the same fraction of the output range. The result always lies within the output
      range and saturates at its bounds. */
  function MappedRangeValueClamped(input: FloatRange, output: FloatRange, value: real): (r: real)
    ensures Min(output.lower, output.upper) <= r <= Max(output.lower, output.upper)
    ensures value <= input.lower && input.lower < input.upper ==> r == output.lower
    ensures value >= input.upper && input.lower < input.upper ==> r == output.upper
  {
    var clamped := ClampUnit(RangePct(input, value));
    LerpWithinBounds(output.lower, output.upper, clamped);
    Lerp(output.lower, output.upper, clamped)
  }

  /** The pitch the curve is read at: a pitch above 90 degrees counts as 0, and with remapping the
      pitch is then clamp-mapped from the pitch range into the output range. */
  function CurveInput(s: PitchModSettings, pitch: real): (r: real)
    ensures !s.remapPitch ==> r == (if pitch > 90.0 then 0.0 else pitch)
    ensures s.remapPitch ==> Min(s.pitchOutRange.lower, s.pitchOutRange.upper) <= r <= Max(s.pitchOutRange.lower, s.pitchOutRange.upper)
  {
    var folded := if pitch > 90.0 then 0.0 else pitch;
    if s.remapPitch then MappedRangeValueClamped(s.pitchRange, s.pitchOutRange, folded) else folded
  }

  /** How the curve value is combined with the incoming FOV. */
  function ApplyCurveValue(t: CurveModType, fov: real, curveValue: real): (r: real)
    ensures t == CurveAbsolute ==> r == curveValue
    ensures t == CurveAdditive ==> r - fov == curveValue
    ensures t == CurveMultiplicative ==> r == fov * curveValue
    ensures t == UnknownCurveMod ==> r == fov
  {
    match t
    case CurveAbsolute => curveValue
    case CurveAdditive => fov + curveValue
    case CurveMultiplicative => fov * curveValue
    case UnknownCurveMod => fov
  }

  /** Every pitch above 90 degrees gives the same FOV as a level pitch, whatever the settings. */
  lemma SteepPitchCountsAsLevel(s: PitchModSettings, pitch: real)
    requires pitch > 90.0
    ensures CurveInput(s, pitch) == CurveInput(s, 0.0)
  {
  }

  /** With remapping, every pitch at or below the lower bound of a proper pitch range reads the
      curve at the lower output bound, and every pitch at or above the upper bound (up to 90) at
      the upper output bound. */
  lemma RemapSaturates(s: PitchModSettings, pitch: real)
    requires s.remapPitch && s.pitchRange.lower < s.pitchRange.upper
    ensures pitch <= s.pitchRange.lower ==> CurveInput(s, pitch) == s.pitchOutRange.lower
    ensures s.pitchRange.upper <= pitch <= 90.0 ==> CurveInput(s, pitch) == s.pitchOutRange.upper
  {
  }

  class FovPitchModModifier {
    const settings: PitchModSettings
    /** The FOV that came into the last frame. */
    var inFOV: real
    /** The FOV the last frame produced. */
    var outFOV: real

    constructor (settings: PitchModSettings)
      ensures this.settings == settings && inFOV == 0.0 && outFOV == 0.0
    {
      this.settings := settings;
      inFOV := 0.0;
      outFOV := 0.0;
    }

    constructor Copy(o: FovPitchModModifier)
      ensures settings == o.settings && inFOV == o.inFOV && outFOV == o.outFOV
    {
      settings := o.settings;
      inFOV := o.inFOV;
      outFOV := o.outFOV;
    }

    /** ModifyCameraBlended: the curve is read at the (folded, possibly remapped) pitch of the
        outgoing rotation and combined with the outgoing FOV; the incoming and resulting FOVs are
        recorded, and location and rotation pass through. */
    method ModifyCameraBlended(deltaTime: real, view: CameraPose, newPose: CameraPose) returns (r: CameraPose)
      modifies this
      ensures inFOV == view.fov
      ensures r.fov == ApplyCurveValue(settings.curveEvaluationType, newPose.fov,
                                       settings.curve(CurveInput(settings, newPose.rotation.pitch)))
      ensures outFOV == r.fov
      ensures r.location == newPose.location && r.rotation == newPose.rotation
    {
      inFOV := view.fov;
      var pitch := newPose.rotation.pitch;
      if pitch > 90.0 {
        pitch := 0.0;
      }
      if settings.remapPitch {
        pitch := MappedRangeValueClamped(settings.pitchRange, settings.pitchOutRange, pitch);
      }
      var evaluatedCurveValue := settings.curve(pitch);
      var newFov := newPose.fov;
      match settings.curveEvaluationType {
        case CurveAbsolute => newFov := evaluatedCurveValue;
        case CurveAdditive => newFov := newFov + evaluatedCurveValue;
        case CurveMultiplicative => newFov := newFov * evaluatedCurveValue;
        case UnknownCurveMod =>
      }
      r := newPose.(fov := newFov);
      outFOV := newFov;
    }
  }
}
