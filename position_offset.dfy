/** The offset modifier: places the camera at an offset from the modifier's incoming view. */
module PositionOffset {
  import opened Engine
  import opened DataTypes

  class PositionOffsetModifier {
    const cameraOffsetPosition: OffsetPositionData
    /** The incoming view location of the last frame. */
    var unmodifiedPosition: Vec3
    /** The location the last frame produced. */
    var modifiedPosition: Vec3

    constructor (cameraOffsetPosition: OffsetPositionData)
      ensures this.cameraOffsetPosition == cameraOffsetPosition
      ensures unmodifiedPosition == ZeroVector && modifiedPosition == ZeroVector
    {
      this.cameraOffsetPosition := cameraOffsetPosition;
      unmodifiedPosition := ZeroVector;
      modifiedPosition := ZeroVector;
    }

    constructor Copy(o: PositionOffsetModifier)
      ensures cameraOffsetPosition == o.cameraOffsetPosition
      ensures unmodifiedPosition == o.unmodifiedPosition && modifiedPosition == o.modifiedPosition
    {
      cameraOffsetPosition := o.cameraOffsetPosition;
      unmodifiedPosition := o.unmodifiedPosition;
      modifiedPosition := o.modifiedPosition;
    }

    /** ModifyCameraBlended: the offset is taken from the modifier's incoming view (not from the
        outgoing location earlier modifiers produced), so the outgoing location is replaced by
        the incoming one moved by the offsets. Rotation and FOV pass through. */
    method ModifyCameraBlended(n: Numerics, deltaTime: real, view: CameraPose, newPose: CameraPose) returns (r: CameraPose)
      modifies this
      ensures unmodifiedPosition == view.location
      ensures modifiedPosition.Minus(view.location)
           == cameraOffsetPosition.targetOffset.Plus(TransformVector(n, view.rotation, cameraOffsetPosition.socketOffset))
      ensures r.location == modifiedPosition
      ensures cameraOffsetPosition == DefaultOffsetPositionData ==> r.location == view.location
      ensures r.rotation == newPose.rotation && r.fov == newPose.fov
    {
      unmodifiedPosition := view.location;
      modifiedPosition := cameraOffsetPosition.GetOffsetPosition(n, view.location, view.rotation);
      r := newPose.(location := modifiedPosition);
    }
  }
}
