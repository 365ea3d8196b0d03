/** The dynamic Z modifier: while the character is airborne the camera's height lags behind it,
    and after landing it returns to the character's height. */
module PositionDynamicZ {
  import opened Engine
  import opened DataTypes
  import opened FunctionLibrary

  /** The authored settings: the airborne speed curve (read at the height above the last grounded
      position), the return speed curve (read at the height still to recover) and the snap
      threshold. The threshold is passed to CameraFInterp as its maximum speed, so the height
      snaps to the target once the interpolation speed reaches it; the header calls it a
      distance, but the code compares it with a speed. */
  datatype DynamicZSettings = DynamicZSettings(airborneInterpSpeed: FloatCurve, snapThreshold: real, returnSpeed: FloatCurve)

  /** The constructor's snap threshold. */
  const DefaultSnapThreshold: real := 10.0

  /** How close the camera must be to the character's height for the return after landing to count as done. */
  const LandedTolerance: real := 0.1

  /** The character's movement as the modifier sees it: no character or no movement component,
      moving on the ground, or not. */
  datatype Movement = NoMovement | Grounded | Airborne

  function MovementOf(pawn: Option<Pawn>): (r: Movement)
    ensures r == NoMovement <==> !IsValidPawn(pawn) || pawn.value.character.None? || pawn.value.character.value.movement.None?
    ensures r == Grounded <==> IsValidPawn(pawn) && pawn.value.character.Some? && pawn.value.character.value.movement == Some(true)
  {
    if !IsValidPawn(pawn) || pawn.value.character.None? then NoMovement
    else match pawn.value.character.value.movement
      case None => NoMovement
      case Some(onGround) => if onGround then Grounded else Airborne
  }

  /** The height the camera takes while airborne: CameraFInterp from the current height towards the
      target height, held at a speed of 0 or less and snapped at the snap threshold or more. */
  function AirborneZ(n: Numerics, s: DynamicZSettings, currentZ: real, targetZ: real, lastGroundedZ: real, deltaTime: real): (r: real)
    ensures var speed := EvaluateRuntimeFloatCurve(s.airborneInterpSpeed, targetZ - lastGroundedZ);
            (speed <= 0.0 ==> r == currentZ) && (speed > 0.0 && s.snapThreshold >= 0.0 && speed >= s.snapThreshold ==> r == targetZ)
  {
    var speed := EvaluateRuntimeFloatCurve(s.airborneInterpSpeed, targetZ - lastGroundedZ);
    CameraFInterp(n, currentZ, targetZ, deltaTime, speed, false, 0.0, s.snapThreshold)
  }

  /** The height the camera takes on landing while it is still away from the character's height:
      CameraFInterp without a lower speed guard, snapped at the snap threshold or more. */
  function ReturnZ(n: Numerics, s: DynamicZSettings, currentZ: real, targetZ: real, deltaTime: real): (r: real)
    ensures var speed := EvaluateRuntimeFloatCurve(s.returnSpeed, Abs(currentZ - targetZ));
            (s.snapThreshold >= 0.0 && speed >= s.snapThreshold ==> r == targetZ)
            && (s.snapThreshold < 0.0 || speed < s.snapThreshold ==> r == n.fInterpTo(currentZ, targetZ, deltaTime, speed))
  {
    var speed := EvaluateRuntimeFloatCurve(s.returnSpeed, Abs(currentZ - targetZ));
    CameraFInterp(n, currentZ, targetZ, deltaTime, speed, false, -1.0, s.snapThreshold)
  }

  /** Without an airborne speed curve the camera does not follow the character up at all: its height
      stays where it was, frame after frame. */
  lemma NoAirborneCurveHoldsHeight(n: Numerics, s: DynamicZSettings, currentZ: real, targetZ: real, lastGroundedZ: real, deltaTime: real)
    requires s.airborneInterpSpeed.NoRichCurve?
    ensures AirborneZ(n, s, currentZ, targetZ, lastGroundedZ, deltaTime) == currentZ
  {
  }

  class DynamicZModifier {
    const settings: DynamicZSettings
    /** The camera location when the character last stood on the ground (X and Y follow it while airborne). */
    var lastGroundedPosition: Vec3
    /** The location the modifier produced in the last frame it handled a character. */
    var currentPosition: Vec3
    /** The outgoing location as it came in, in the last frame. */
    var targetPosition: Vec3
    /** Set on landing: the camera is to return to the character's height. */
    var shouldDirectInterpZ: bool

    constructor (settings: DynamicZSettings)
      ensures this.settings == settings && !shouldDirectInterpZ
      ensures lastGroundedPosition == ZeroVector && currentPosition == ZeroVector && targetPosition == ZeroVector
    {
      this.settings := settings;
      lastGroundedPosition := ZeroVector;
      currentPosition := ZeroVector;
      targetPosition := ZeroVector;
      shouldDirectInterpZ := false;
    }

    constructor Copy(o: DynamicZModifier)
      ensures settings == o.settings && shouldDirectInterpZ == o.shouldDirectInterpZ
      ensures lastGroundedPosition == o.lastGroundedPosition && currentPosition == o.currentPosition
      ensures targetPosition == o.targetPosition
    {
      settings := o.settings;
      lastGroundedPosition := o.lastGroundedPosition;
      currentPosition := o.currentPosition;
      targetPosition := o.targetPosition;
      shouldDirectInterpZ := o.shouldDirectInterpZ;
    }

    /** AddedToCamera: the last grounded position starts at the camera manager's camera location. */
    method AddedToCamera(cameraLocation: Vec3)
      modifies this
      ensures lastGroundedPosition == cameraLocation
      ensures currentPosition == old(currentPosition) && targetPosition == old(targetPosition)
      ensures shouldDirectInterpZ == old(shouldDirectInterpZ)
    {
      lastGroundedPosition := cameraLocation;
    }

    /** OnCharacterLanded: the next grounded frames return the camera to the character's height. */
    method OnCharacterLanded()
      modifies this
      ensures shouldDirectInterpZ
      ensures lastGroundedPosition == old(lastGroundedPosition) && currentPosition == old(currentPosition)
      ensures targetPosition == old(targetPosition)
    {
      shouldDirectInterpZ := true;
    }

    /** ModifyCameraBlended: only the height of the outgoing location is ever changed.
        - No character or movement component: the location passes through.
        - Grounded: after a landing the height returns towards the character's (and the return
          ends once within 0.1); the result becomes both the current and the last grounded position.
        - Airborne: the last grounded position follows in X and Y only, and the height lags. */
    method ModifyCameraBlended(n: Numerics, ctx: ViewContext, deltaTime: real, view: CameraPose, newPose: CameraPose) returns (r: CameraPose)
      modifies this
      ensures targetPosition == newPose.location
      ensures r.location.x == newPose.location.x && r.location.y == newPose.location.y
      ensures r.rotation == newPose.rotation && r.fov == newPose.fov
      ensures MovementOf(ctx.pawn) == NoMovement ==>
                r == newPose && currentPosition == old(currentPosition)
                && lastGroundedPosition == old(lastGroundedPosition) && shouldDirectInterpZ == old(shouldDirectInterpZ)
      ensures MovementOf(ctx.pawn) == Grounded ==>
                currentPosition == r.location && lastGroundedPosition == r.location
                && (!old(shouldDirectInterpZ) ==> r == newPose && !shouldDirectInterpZ)
                && (old(shouldDirectInterpZ) && IsNearlyEqual(old(currentPosition).z, newPose.location.z, LandedTolerance) ==>
                      r == newPose && !shouldDirectInterpZ)
                && (old(shouldDirectInterpZ) && !IsNearlyEqual(old(currentPosition).z, newPose.location.z, LandedTolerance) ==>
                      r.location.z == ReturnZ(n, settings, old(currentPosition).z, newPose.location.z, deltaTime)
                      && shouldDirectInterpZ)
      ensures MovementOf(ctx.pawn) == Airborne ==>
                lastGroundedPosition == Vec3(newPose.location.x, newPose.location.y, old(lastGroundedPosition).z)
                && r.location.z == AirborneZ(n, settings, old(currentPosition).z, newPose.location.z, old(lastGroundedPosition).z, deltaTime)
                && currentPosition == r.location && shouldDirectInterpZ == old(shouldDirectInterpZ)
    {
      r := newPose;
      targetPosition := newPose.location;
      var movement := MovementOf(ctx.pawn);
      if movement == NoMovement {
        return;
      }
      if movement == Grounded {
        if shouldDirectInterpZ {
          if IsNearlyEqual(currentPosition.z, r.location.z, LandedTolerance) {
            shouldDirectInterpZ := false;
          } else {
            var directInterp := EvaluateRuntimeFloatCurve(settings.returnSpeed, Abs(currentPosition.z - r.location.z));
            var z := CameraFInterp(n, currentPosition.z, r.location.z, deltaTime, directInterp, false, -1.0, settings.snapThreshold);
            r := r.(location := r.location.(z := z));
          }
        }
        currentPosition := r.location;
        lastGroundedPosition := r.location;
        return;
      }
      lastGroundedPosition := lastGroundedPosition.(x := r.location.x, y := r.location.y);
      var distanceFromLastGrounded := r.location.z - lastGroundedPosition.z;
      var zInterp := EvaluateRuntimeFloatCurve(settings.airborneInterpSpeed, distanceFromLastGrounded);
      var z := CameraFInterp(n, currentPosition.z, r.location.z, deltaTime, zInterp, false, 0.0, settings.snapThreshold);
      r := r.(location := r.location.(z := z));
      currentPosition := r.location;
    }
  }
}
