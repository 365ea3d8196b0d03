/** The follow modifier: once the player has stopped turning the camera, the view turns towards the
    direction the pawn is moving in, through the delta rotation. */
module VelocityToYaw {
  import opened Engine
  import opened DataTypes
  import opened FunctionLibrary

  /** EFollowCamPitchInfluence, plus a case for a stored value outside the enumeration. */
  datatype PitchInfluence = PitchIgnored | PitchInfluenced | PitchStatic | UnknownPitchInfluence

  /** The authored settings. */
  datatype FollowSettings = FollowSettings(
    waitForNoInput: bool,
    interpolationSpeed: real,
    influenceTimeSinceInput: FloatCurve,
    influenceTargetToCurrentDifference: FloatCurve,
    minTimeSinceRotationInput: real,
    pitchInfluenceType: PitchInfluence,
    velocityScale: Vec3,
    staticPitchValue: real,
    velocityYawInfluence: FloatCurve,
    velocityRotationOffset: Rotator)

  /** The constructor's settings (the curves are left empty): wait for no input, speed 1, 2.5 s
      without input, a static pitch of 15, and the vertical velocity ignored. */
  const DefaultFollowSettings: FollowSettings :=
    FollowSettings(true, 1.0, NoRichCurve, NoRichCurve, 2.5, PitchStatic, Vec3(1.0, 1.0, 0.0), 15.0, NoRichCurve, ZeroRotator)

  /** The pawn velocity the modifier follows: scaled per axis. */
  function ScaledVelocity(s: FollowSettings, velocity: Vec3): Vec3
  {
    velocity.Times(s.velocityScale)
  }

  /** The rotation the view turns towards: the direction of the scaled velocity, with its pitch
      replaced by the view's pitch (ignored) or the static pitch (static), then offset. */
  function FollowTarget(n: Numerics, s: FollowSettings, velocity: Vec3, viewRotation: Rotator): (r: Rotator)
    ensures r.yaw == n.vectorRotation(ScaledVelocity(s, velocity)).yaw + s.velocityRotationOffset.yaw
    ensures r.roll == n.vectorRotation(ScaledVelocity(s, velocity)).roll + s.velocityRotationOffset.roll
    ensures s.pitchInfluenceType == PitchIgnored ==> r.pitch == viewRotation.pitch + s.velocityRotationOffset.pitch
    ensures s.pitchInfluenceType == PitchStatic ==> r.pitch == s.staticPitchValue + s.velocityRotationOffset.pitch
    ensures s.pitchInfluenceType == PitchInfluenced || s.pitchInfluenceType == UnknownPitchInfluence ==>
              r.pitch == n.vectorRotation(ScaledVelocity(s, velocity)).pitch + s.velocityRotationOffset.pitch
  {
    var rot := n.vectorRotation(ScaledVelocity(s, velocity));
    var pitched := match s.pitchInfluenceType
      case PitchIgnored => rot.(pitch := viewRotation.pitch)
      case PitchStatic => rot.(pitch := s.staticPitchValue)
      case _ => rot;
    pitched.Plus(s.velocityRotationOffset)
  }

  /** With a static pitch the target does not depend on the view at all; with the pitch ignored it
      depends on the view's pitch only. */
  lemma FollowTargetViewDependence(n: Numerics, s: FollowSettings, velocity: Vec3, v1: Rotator, v2: Rotator)
    ensures s.pitchInfluenceType != PitchIgnored ==> FollowTarget(n, s, velocity, v1) == FollowTarget(n, s, velocity, v2)
    ensures v1.pitch == v2.pitch ==> FollowTarget(n, s, velocity, v1) == FollowTarget(n, s, velocity, v2)
  {
  }

  /** The interpolation speed after the input-time factor: the base speed, scaled by the curve of
      the time past the input threshold when waiting for no input. */
  function SpeedAfterInputTime(s: FollowSettings, timeSinceLastInput: real): real
  {
    if s.waitForNoInput
    then s.interpolationSpeed * EvaluateRuntimeFloatCurve(s.influenceTimeSinceInput, timeSinceLastInput - s.minTimeSinceRotationInput)
    else s.interpolationSpeed
  }

  /** The speed after the velocity factor: the input-time speed scaled by the velocity-yaw curve,
      read at the length of the scaled velocity. */
  function SpeedAfterVelocity(n: Numerics, s: FollowSettings, timeSinceLastInput: real, velocity: Vec3): real
  {
    SpeedAfterInputTime(s, timeSinceLastInput)
    * EvaluateRuntimeFloatCurve(s.velocityYawInfluence, n.vectorLength(ScaledVelocity(s, velocity)))
  }

  /** The angle in degrees between the view's forward vector and the follow target's. */
  function TargetDifference(n: Numerics, s: FollowSettings, velocity: Vec3, viewRotation: Rotator): real
  {
    n.acosDegrees(ForwardVector(n, FollowTarget(n, s, velocity, viewRotation)).Dot(ForwardVector(n, viewRotation)))
  }

  /** The interpolation speed of a following frame: the base speed times the three curve factors
      (time since input when waiting for no input, velocity, and the angle still to turn). */
  function FollowSpeed(n: Numerics, s: FollowSettings, timeSinceLastInput: real, velocity: Vec3, viewRotation: Rotator): real
  {
    SpeedAfterVelocity(n, s, timeSinceLastInput, velocity)
    * EvaluateRuntimeFloatCurve(s.influenceTargetToCurrentDifference, TargetDifference(n, s, velocity, viewRotation))
  }

  /** Whether a frame turns the camera, with the input timer already advanced: no rotation input,
      a positive input-time speed when waiting for no input, a pawn whose scaled velocity is not
      nearly zero, and a positive speed after the velocity factor and after the angle factor. */
  predicate Follows(n: Numerics, s: FollowSettings, ctx: ViewContext, timeSinceLastInput: real, viewRotation: Rotator)
  {
    n.rotatorIsNearlyZero(ctx.rotationInput)
    && (s.waitForNoInput ==> SpeedAfterInputTime(s, timeSinceLastInput) > 0.0)
    && ctx.pawn.Some?
    && !IsNearlyZeroVector(ScaledVelocity(s, ctx.pawn.value.velocity))
    && SpeedAfterVelocity(n, s, timeSinceLastInput, ctx.pawn.value.velocity) > 0.0
    && FollowSpeed(n, s, timeSinceLastInput, ctx.pawn.value.velocity, viewRotation) > 0.0
  }

  /** The delta rotation of a following frame: the RInterpTo step from the view towards the follow
      target at the follow speed, less the view. */
  function FollowDelta(n: Numerics, s: FollowSettings, timeSinceLastInput: real, velocity: Vec3, deltaTime: real,
                       viewRotation: Rotator): Rotator
  {
    n.rInterpTo(viewRotation, FollowTarget(n, s, velocity, viewRotation), deltaTime,
                FollowSpeed(n, s, timeSinceLastInput, velocity, viewRotation)).Minus(viewRotation)
  }

  /** The speed the frame leaves in TrueInterpSpeed: 0 after a rotation input, otherwise the
      partial product at the gate that ended the frame, or the full follow speed. */
  function FrameSpeed(n: Numerics, s: FollowSettings, ctx: ViewContext, timeSinceLastInput: real, viewRotation: Rotator): real
  {
    if !n.rotatorIsNearlyZero(ctx.rotationInput) then 0.0
    else if (s.waitForNoInput && SpeedAfterInputTime(s, timeSinceLastInput) <= 0.0) || ctx.pawn.None?
            || IsNearlyZeroVector(ScaledVelocity(s, ctx.pawn.value.velocity))
    then SpeedAfterInputTime(s, timeSinceLastInput)
    else if SpeedAfterVelocity(n, s, timeSinceLastInput, ctx.pawn.value.velocity) <= 0.0
    then SpeedAfterVelocity(n, s, timeSinceLastInput, ctx.pawn.value.velocity)
    else FollowSpeed(n, s, timeSinceLastInput, ctx.pawn.value.velocity, viewRotation)
  }

  /** A frame that follows leaves its follow speed, which is positive; a frame that does not leaves
      a speed of 0 or less unless it was ended by a missing pawn or a still pawn. */
  lemma FrameSpeedOfFollowing(n: Numerics, s: FollowSettings, ctx: ViewContext, time: real, view: Rotator)
    ensures Follows(n, s, ctx, time, view) ==>
              FrameSpeed(n, s, ctx, time, view) == FollowSpeed(n, s, time, ctx.pawn.value.velocity, view) > 0.0
    ensures !Follows(n, s, ctx, time, view) && ctx.pawn.Some? && !IsNearlyZeroVector(ScaledVelocity(s, ctx.pawn.value.velocity))
            ==> FrameSpeed(n, s, ctx, time, view) <= 0.0
  {
  }

  /** Waiting for no input with no time curve never turns the camera: the speed is 0 from the start. */
  lemma NoTimeCurveNeverFollows(n: Numerics, s: FollowSettings, ctx: ViewContext, time: real, view: Rotator)
    requires s.waitForNoInput && s.influenceTimeSinceInput.NoRichCurve?
    ensures SpeedAfterInputTime(s, time) == 0.0
    ensures !Follows(n, s, ctx, time, view)
  {
  }

  /** Each of the two later curves is a gate of its own: without a velocity-yaw curve or without a
      target-difference curve the camera never turns, so a modifier with the constructor's settings
      (whose curves are all empty) never follows. */
  lemma EveryCurveGates(n: Numerics, s: FollowSettings, ctx: ViewContext, time: real, view: Rotator)
    ensures s.velocityYawInfluence.NoRichCurve? ==> !Follows(n, s, ctx, time, view)
    ensures s.influenceTargetToCurrentDifference.NoRichCurve? ==> !Follows(n, s, ctx, time, view)
    ensures !Follows(n, DefaultFollowSettings, ctx, time, view)
  {
  }

  class VelocityToYawModifier {
    const settings: FollowSettings
    var rotationInput: Rotator
    var pawnVelocityVector: Vec3
    var pawnVelocityRotator: Rotator
    /** Seconds since the controller last had a rotation input. */
    var timeSinceLastInput: real
    /** The interpolation speed of the last frame. */
    var trueInterpSpeed: real

    constructor (settings: FollowSettings)
      ensures this.settings == settings && timeSinceLastInput == 0.0 && trueInterpSpeed == 0.0
    {
      this.settings := settings;
      rotationInput := ZeroRotator;
      pawnVelocityVector := ZeroVector;
      pawnVelocityRotator := ZeroRotator;
      timeSinceLastInput := 0.0;
      trueInterpSpeed := 0.0;
    }

    constructor Copy(o: VelocityToYawModifier)
      ensures settings == o.settings && rotationInput == o.rotationInput
      ensures pawnVelocityVector == o.pawnVelocityVector && pawnVelocityRotator == o.pawnVelocityRotator
      ensures timeSinceLastInput == o.timeSinceLastInput && trueInterpSpeed == o.trueInterpSpeed
    {
      settings := o.settings;
      rotationInput := o.rotationInput;
      pawnVelocityVector := o.pawnVelocityVector;
      pawnVelocityRotator := o.pawnVelocityRotator;
      timeSinceLastInput := o.timeSinceLastInput;
      trueInterpSpeed := o.trueInterpSpeed;
    }

    /** ProcessViewRotationBlended: never asks to stop the other modifiers and never writes the view
        rotation. A rotation input restarts the input timer; otherwise the timer advances by the
        frame time. The delta rotation is replaced exactly when the frame follows (every gate of
        Follows passes, read with the advanced timer), and then by the FollowDelta step. The
        recorded speed is FrameSpeed; the pawn velocity is recorded once the pawn is consulted,
        and the target rotation once the velocity is not nearly zero. */
    method ProcessViewRotationBlended(n: Numerics, ctx: ViewContext, deltaTime: real, viewRotation: Rotator, deltaRot: Rotator)
      returns (stop: bool, outViewRotation: Rotator, outDeltaRot: Rotator)
      modifies this
      ensures !stop && outViewRotation == viewRotation
      ensures rotationInput == ctx.rotationInput
      ensures timeSinceLastInput == if n.rotatorIsNearlyZero(ctx.rotationInput) then old(timeSinceLastInput) + deltaTime else 0.0
      ensures outDeltaRot == if Follows(n, settings, ctx, timeSinceLastInput, viewRotation)
                             then FollowDelta(n, settings, timeSinceLastInput, ctx.pawn.value.velocity, deltaTime, viewRotation)
                             else deltaRot
      ensures trueInterpSpeed == FrameSpeed(n, settings, ctx, timeSinceLastInput, viewRotation)
      ensures var consulted := n.rotatorIsNearlyZero(ctx.rotationInput)
                               && (settings.waitForNoInput ==> SpeedAfterInputTime(settings, timeSinceLastInput) > 0.0)
                               && ctx.pawn.Some?;
              (consulted ==> pawnVelocityVector == ScaledVelocity(settings, ctx.pawn.value.velocity)
                             && pawnVelocityRotator == (if !IsNearlyZeroVector(pawnVelocityVector)
                                                           && SpeedAfterVelocity(n, settings, timeSinceLastInput, ctx.pawn.value.velocity) > 0.0
                                                        then FollowTarget(n, settings, ctx.pawn.value.velocity, viewRotation)
                                                        else n.vectorRotation(pawnVelocityVector)))
              && (!consulted ==> pawnVelocityVector == old(pawnVelocityVector) && pawnVelocityRotator == old(pawnVelocityRotator))
    {
      stop, outViewRotation, outDeltaRot := false, viewRotation, deltaRot;
      trueInterpSpeed := settings.interpolationSpeed;
      rotationInput := ctx.rotationInput;
      if !n.rotatorIsNearlyZero(rotationInput) {
        timeSinceLastInput := 0.0;
        trueInterpSpeed := 0.0;
        return;
      }
      timeSinceLastInput := timeSinceLastInput + deltaTime;
      var time := timeSinceLastInput;
      if settings.waitForNoInput {
        trueInterpSpeed := trueInterpSpeed * EvaluateRuntimeFloatCurve(settings.influenceTimeSinceInput,
                                                                       timeSinceLastInput - settings.minTimeSinceRotationInput);
        if trueInterpSpeed <= 0.0 {
          return;
        }
      }
      assert trueInterpSpeed == SpeedAfterInputTime(settings, time);
      if ctx.pawn.None? {
        return;
      }
      outDeltaRot := FollowPawn(n, ctx.pawn.value.velocity, time, deltaTime, viewRotation, deltaRot);
    }

    /** The rest of ProcessViewRotationBlended once the pawn is found, with the speed so far in
        TrueInterpSpeed: the velocity gate, the velocity factor, the target with its pitch and
        offset, the angle factor, and the interpolation step. */
    method FollowPawn(n: Numerics, velocity: Vec3, time: real, deltaTime: real, viewRotation: Rotator, deltaRot: Rotator)
      returns (outDeltaRot: Rotator)
      requires trueInterpSpeed == SpeedAfterInputTime(settings, time)
      modifies this`pawnVelocityVector, this`pawnVelocityRotator, this`trueInterpSpeed
      ensures pawnVelocityVector == ScaledVelocity(settings, velocity)
      ensures pawnVelocityRotator == if !IsNearlyZeroVector(pawnVelocityVector) && SpeedAfterVelocity(n, settings, time, velocity) > 0.0
                                     then FollowTarget(n, settings, velocity, viewRotation)
                                     else n.vectorRotation(pawnVelocityVector)
      ensures trueInterpSpeed == if IsNearlyZeroVector(pawnVelocityVector) then SpeedAfterInputTime(settings, time)
                                 else if SpeedAfterVelocity(n, settings, time, velocity) <= 0.0 then SpeedAfterVelocity(n, settings, time, velocity)
                                 else FollowSpeed(n, settings, time, velocity, viewRotation)
      ensures outDeltaRot == if !IsNearlyZeroVector(pawnVelocityVector) && SpeedAfterVelocity(n, settings, time, velocity) > 0.0
                                && FollowSpeed(n, settings, time, velocity, viewRotation) > 0.0
                             then FollowDelta(n, settings, time, velocity, deltaTime, viewRotation)
                             else deltaRot
    {
      outDeltaRot := deltaRot;
      pawnVelocityVector := velocity.Times(settings.velocityScale);
      pawnVelocityRotator := n.vectorRotation(pawnVelocityVector);
      if IsNearlyZeroVector(pawnVelocityVector) {
        return;
      }
      trueInterpSpeed := trueInterpSpeed * EvaluateRuntimeFloatCurve(settings.velocityYawInfluence, n.vectorLength(pawnVelocityVector));
      if trueInterpSpeed <= 0.0 {
        return;
      }
      // the pitch handling and the rotation offset
      pawnVelocityRotator := FollowTarget(n, settings, velocity, viewRotation);
      var currentToTargetDifference := n.acosDegrees(ForwardVector(n, pawnVelocityRotator).Dot(ForwardVector(n, viewRotation)));
      trueInterpSpeed := trueInterpSpeed * EvaluateRuntimeFloatCurve(settings.influenceTargetToCurrentDifference, currentToTargetDifference);
      if trueInterpSpeed <= 0.0 {
        return;
      }
      var targetRotation := n.rInterpTo(viewRotation, pawnVelocityRotator, deltaTime, trueInterpSpeed);
      outDeltaRot := targetRotation.Minus(viewRotation);
    }
  }
}
