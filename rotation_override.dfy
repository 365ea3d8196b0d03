/** The rotation override modifier: replaces the view rotation with a fixed rotation or with the
    rotation that looks from the camera at a location, an actor or a scene component. */
module RotationOverride {
  import opened Engine
  import opened DataTypes

  /** ECDRotationOverrideType, plus a case for a stored value outside the enumeration. */
  datatype RotationOverrideType = OverrideNone | OverrideAbsolute | LookAtLocation | LookAtActor | LookAtSceneComponent | UnknownOverride

  /** The authored settings. An actor or component target is given by its current location, or
      None when the target is not valid. */
  datatype OverrideSettings = OverrideSettings(
    rotationOverrideType: RotationOverrideType,
    rotationOverride: Rotator,
    lookAtLocation: Vec3,
    lookAtActor: Option<Vec3>,
    lookAtComponent: Option<Vec3>)

  /** The constructor's settings: no override, zero rotation, no targets. */
  const DefaultOverrideSettings: OverrideSettings := OverrideSettings(OverrideNone, ZeroRotator, ZeroVector, None, None)

  /** The rotation looking from the camera towards a target location. */
  function LookAt(n: Numerics, cameraLocation: Vec3, target: Vec3): Rotator
  {
    n.vectorRotation(target.Minus(cameraLocation))
  }

  /** Whether the override type takes over the view rotation at all. */
  predicate Overrides(t: RotationOverrideType)
  {
    t != OverrideNone && t != UnknownOverride
  }

  /** The rotation an overriding type sets: the fixed rotation, the look-at rotation towards the
      location, or towards a valid actor or component; an invalid target gives the zero rotator. */
  function OverrideRotation(n: Numerics, s: OverrideSettings, cameraLocation: Vec3): (r: Rotator)
    requires Overrides(s.rotationOverrideType)
    ensures s.rotationOverrideType == OverrideAbsolute ==> r == s.rotationOverride
    ensures s.rotationOverrideType == LookAtLocation ==> r == LookAt(n, cameraLocation, s.lookAtLocation)
    ensures s.rotationOverrideType == LookAtActor ==>
              r == (if s.lookAtActor.Some? then LookAt(n, cameraLocation, s.lookAtActor.value) else ZeroRotator)
    ensures s.rotationOverrideType == LookAtSceneComponent ==>
              r == (if s.lookAtComponent.Some? then LookAt(n, cameraLocation, s.lookAtComponent.value) else ZeroRotator)
  {
    match s.rotationOverrideType
    case OverrideAbsolute => s.rotationOverride
    case LookAtLocation => LookAt(n, cameraLocation, s.lookAtLocation)
    case LookAtActor => if s.lookAtActor.Some? then LookAt(n, cameraLocation, s.lookAtActor.value) else ZeroRotator
    case LookAtSceneComponent => if s.lookAtComponent.Some? then LookAt(n, cameraLocation, s.lookAtComponent.value) else ZeroRotator
  }

  /** Looking at an actor or a component is looking at its location: the three look-at types agree
      whenever their targets are valid and in the same place. */
  lemma LookAtTypesAgree(n: Numerics, s: OverrideSettings, cameraLocation: Vec3, target: Vec3)
    requires s.lookAtLocation == target && s.lookAtActor == Some(target) && s.lookAtComponent == Some(target)
    ensures OverrideRotation(n, s.(rotationOverrideType := LookAtLocation), cameraLocation)
         == OverrideRotation(n, s.(rotationOverrideType := LookAtActor), cameraLocation)
         == OverrideRotation(n, s.(rotationOverrideType := LookAtSceneComponent), cameraLocation)
  {
  }

  /** A fixed override does not depend on where the camera is. */
  lemma AbsoluteIgnoresCamera(n: Numerics, s: OverrideSettings, c1: Vec3, c2: Vec3)
    requires s.rotationOverrideType == OverrideAbsolute
    ensures OverrideRotation(n, s, c1) == OverrideRotation(n, s, c2) == s.rotationOverride
  {
  }

  class RotationOverrideModifier {
    const settings: OverrideSettings

    constructor (settings: OverrideSettings)
      ensures this.settings == settings
    {
      this.settings := settings;
    }

    constructor Copy(o: RotationOverrideModifier)
      ensures settings == o.settings
    {
      settings := o.settings;
    }

    /** ProcessViewRotationBlended: never asks to stop the other modifiers. With no override (or an
        unknown type) both rotations pass through; otherwise the view rotation is replaced by the
        override rotation and the delta rotation is cleared. */
    method ProcessViewRotationBlended(n: Numerics, ctx: ViewContext, deltaTime: real, viewRotation: Rotator, deltaRot: Rotator)
      returns (stop: bool, outViewRotation: Rotator, outDeltaRot: Rotator)
      ensures !stop
      ensures !Overrides(settings.rotationOverrideType) ==> outViewRotation == viewRotation && outDeltaRot == deltaRot
      ensures Overrides(settings.rotationOverrideType) ==>
                outViewRotation == OverrideRotation(n, settings, ctx.cameraLocation) && outDeltaRot == ZeroRotator
    {
      outViewRotation, outDeltaRot := viewRotation, deltaRot;
      var targetRotation := ZeroRotator;
      var targetDeltaRotation := ZeroRotator;
      match settings.rotationOverrideType {
        case OverrideAbsolute =>
          targetRotation := settings.rotationOverride;
        case LookAtLocation =>
          targetRotation := n.vectorRotation(settings.lookAtLocation.Minus(ctx.cameraLocation));
        case LookAtActor =>
          if settings.lookAtActor.Some? {
            targetRotation := n.vectorRotation(settings.lookAtActor.value.Minus(ctx.cameraLocation));
          }
        case LookAtSceneComponent =>
          if settings.lookAtComponent.Some? {
            targetRotation := n.vectorRotation(settings.lookAtComponent.value.Minus(ctx.cameraLocation));
          }
        case OverrideNone =>
          return false, outViewRotation, outDeltaRot;
        case UnknownOverride =>
          return false, outViewRotation, outDeltaRot;
      }
      outViewRotation := targetRotation;
      outDeltaRot := targetDeltaRotation;
      return false, outViewRotation, outDeltaRot;
    }
  }
}
