/** The base position modifier: moves the camera towards a source point on the controlled pawn,
    axis by axis. */
module PositionBase {
  import opened Engine
  import opened DataTypes

  /** The authored settings: where the base position comes from and how much of it each axis takes. */
  datatype PositionBaseSettings = PositionBaseSettings(cameraBasePosition: SourcePositionData, axisInfluence: CameraAxisData)

  /** The defaults of the two structs: the pawn's eye height, taken on every axis. */
  const DefaultPositionBaseSettings: PositionBaseSettings := PositionBaseSettings(DefaultSourcePositionData, DefaultAxisData)

  /** The location the modifier produces for a valid pawn: the outgoing location moved towards the
      pawn's source position by the axis influences. */
  function BaseLocation(s: PositionBaseSettings, pawn: Pawn, location: Vec3): (r: Vec3)
    ensures r.Minus(location)
         == Vec3((FindSourcePosition(s.cameraBasePosition, Some(pawn)).x - location.x) * s.axisInfluence.GetXYInfluence(),
                 (FindSourcePosition(s.cameraBasePosition, Some(pawn)).y - location.y) * s.axisInfluence.GetXYInfluence(),
                 (FindSourcePosition(s.cameraBasePosition, Some(pawn)).z - location.z) * s.axisInfluence.GetZInfluence())
  {
    s.axisInfluence.ProcessAxis(location, FindSourcePosition(s.cameraBasePosition, Some(pawn)))
  }

  /** With the default settings the camera sits exactly at the pawn's eye height, wherever it was. */
  lemma DefaultBaseIsEyeHeight(pawn: Pawn, location: Vec3)
    requires pawn.valid
    ensures BaseLocation(DefaultPositionBaseSettings, pawn, location)
         == Vec3(pawn.location.x, pawn.location.y, pawn.location.z + pawn.baseEyeHeight)
  {
    DefaultAxisSelectsB(location, FindSourcePosition(DefaultSourcePositionData, Some(pawn)));
  }

  /** Applying the modifier twice in a row with full influence gives the same location as once:
      the camera is already at the source position. */
  lemma {:induction false} BaseLocationSettles(s: PositionBaseSettings, pawn: Pawn, location: Vec3)
    requires s.axisInfluence.GetXYInfluence() == 1.0 && s.axisInfluence.GetZInfluence() == 1.0
    ensures BaseLocation(s, pawn, BaseLocation(s, pawn, location)) == BaseLocation(s, pawn, location)
  {
    var src := FindSourcePosition(s.cameraBasePosition, Some(pawn));
    var once := BaseLocation(s, pawn, location);
    assert once == src;
    ProcessAxisIdempotent(s.axisInfluence, src);
  }

  class PositionBaseModifier {
    const settings: PositionBaseSettings
    /** The location the last frame with a valid pawn produced. */
    var cameraInitialPosition: Vec3

    constructor (settings: PositionBaseSettings)
      ensures this.settings == settings && cameraInitialPosition == ZeroVector
    {
      this.settings := settings;
      cameraInitialPosition := ZeroVector;
    }

    constructor Copy(o: PositionBaseModifier)
      ensures settings == o.settings && cameraInitialPosition == o.cameraInitialPosition
    {
      settings := o.settings;
      cameraInitialPosition := o.cameraInitialPosition;
    }

    /** ModifyCameraBlended: without a valid pawn nothing changes; otherwise the outgoing location
        becomes BaseLocation and is recorded. Rotation and FOV pass through. */
    method ModifyCameraBlended(ctx: ViewContext, deltaTime: real, view: CameraPose, newPose: CameraPose) returns (r: CameraPose)
      modifies this
      ensures !IsValidPawn(ctx.pawn) ==> r == newPose && cameraInitialPosition == old(cameraInitialPosition)
      ensures IsValidPawn(ctx.pawn) ==>
                r.location == BaseLocation(settings, ctx.pawn.value, newPose.location) && cameraInitialPosition == r.location
      ensures r.rotation == newPose.rotation && r.fov == newPose.fov
    {
      r := newPose;
      if !IsValidPawn(ctx.pawn) {
        return;
      }
      var potentialViewLocation := FindSourcePosition(settings.cameraBasePosition, ctx.pawn);
      r := r.(location := settings.axisInfluence.ProcessAxis(r.location, potentialViewLocation));
      cameraInitialPosition := r.location;
    }
  }
}
