/** The distance modifier: pushes the camera along its forward axis. */
module PositionDistance {
  import opened Engine

  /** The authored smoothing settings. */
  datatype DistanceSettings = DistanceSettings(smoothDistanceChanges: bool, changeSmoothing: real)

  /** The constructor's settings: no smoothing, smoothing speed 2. */
  const DefaultDistanceSettings: DistanceSettings := DistanceSettings(false, 2.0)

  /** The constructor's target distance: 350 units behind the view. */
  const DefaultTargetDistance: real := -350.0

  /** The outgoing location moved along the forward vector of the rotation by `distance`. */
  function ForwardOffset(n: Numerics, location: Vec3, rotation: Rotator, distance: real): (r: Vec3)
    ensures distance == 0.0 ==> r == location
    ensures r.Minus(location) == ForwardVector(n, rotation).Scaled(distance)
  {
    location.Plus(ForwardVector(n, rotation).Scaled(distance))
  }

  /** Offsets along the same rotation add up: moving by d1 then by d2 is moving by d1 + d2. */
  lemma ForwardOffsetsAdd(n: Numerics, location: Vec3, rotation: Rotator, d1: real, d2: real)
    ensures ForwardOffset(n, ForwardOffset(n, location, rotation, d1), rotation, d2)
         == ForwardOffset(n, location, rotation, d1 + d2)
  {
  }

  class PositionDistanceModifier {
    const settings: DistanceSettings
    /** The distance the modifier moves towards. */
    var targetDistance: real
    /** The distance applied in the last frame. */
    var distance: real

    constructor (settings: DistanceSettings, targetDistance: real)
      ensures this.settings == settings && this.targetDistance == targetDistance && distance == targetDistance
    {
      this.settings := settings;
      this.targetDistance := targetDistance;
      distance := targetDistance;
    }

    constructor Copy(o: PositionDistanceModifier)
      ensures settings == o.settings && targetDistance == o.targetDistance && distance == o.distance
    {
      settings := o.settings;
      targetDistance := o.targetDistance;
      distance := o.distance;
    }

    /** AddedToCamera: the distance starts at the target, so smoothing has nothing to catch up. */
    method AddedToCamera()
      modifies this
      ensures distance == targetDistance && targetDistance == old(targetDistance)
    {
      distance := targetDistance;
    }

    /** ModifyCameraBlended: the distance follows the target (at once, or through FInterpTo when
        smoothing) and the outgoing location moves along the outgoing rotation by it. Rotation and
        FOV pass through. */
    method ModifyCameraBlended(n: Numerics, deltaTime: real, view: CameraPose, newPose: CameraPose) returns (r: CameraPose)
      modifies this
      ensures !settings.smoothDistanceChanges ==> distance == targetDistance
      ensures settings.smoothDistanceChanges ==>
                distance == n.fInterpTo(old(distance), targetDistance, deltaTime, settings.changeSmoothing)
      ensures r.location == ForwardOffset(n, newPose.location, newPose.rotation, distance)
      ensures r.rotation == newPose.rotation && r.fov == newPose.fov
      ensures targetDistance == old(targetDistance)
    {
      if settings.smoothDistanceChanges {
        distance := n.fInterpTo(distance, targetDistance, deltaTime, settings.changeSmoothing);
      } else {
        distance := targetDistance;
      }
      r := newPose.(location := newPose.location.Plus(ForwardVector(n, newPose.rotation).Scaled(distance)));
    }
  }
}
