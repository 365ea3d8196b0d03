/** The configuration structs of the camera core: where a camera position is sourced from,
    offsets from it, and the per-axis mask that blends one vector towards another. */
module DataTypes {
  import opened Engine

  /** ECameraSourcePosition. */
  datatype CameraSourcePosition = EyeHeight | Socket | LocalPosition | AbsPosition

  /** The engine's view of a character: where its mesh sockets are and how its movement component reports. */
  datatype Character = Character(
    socketLocation: string -> Vec3,
    movement: Option<bool>)      // None: no valid movement component; Some(b): IsMovingOnGround() == b

  /** The engine's view of a pawn. `valid` is IsValid(Pawn); a pawn that is not a character has no `character`. */
  datatype Pawn = Pawn(
    valid: bool,
    location: Vec3,
    baseEyeHeight: real,
    velocity: Vec3,
    character: Option<Character>)

  predicate IsValidPawn(pawn: Option<Pawn>)
  {
    pawn.Some? && pawn.value.valid
  }

  /** What a modifier can query about its owner during a frame: the controlled pawn (None when the
      controller has no pawn), the controller's pending rotation input, and the camera manager's
      current camera location. */
  datatype ViewContext = ViewContext(pawn: Option<Pawn>, rotationInput: Rotator, cameraLocation: Vec3)

  /** FCameraSourcePositionData. */
  datatype SourcePositionData = SourcePositionData(
    cameraSourcePosition: CameraSourcePosition,
    socketName: string,
    localPosition: Vec3,
    absolutePosition: Vec3)

  const DefaultSourcePositionData: SourcePositionData :=
    SourcePositionData(EyeHeight, "head", ZeroVector, ZeroVector)

  /** FindSourcePosition: the camera's source point for the given pawn. Every mode that cannot be
      served (no valid pawn for eye height, no character for a socket) falls back to the zero vector.
      LocalPosition reads the pawn's location without checking it, so a caller must supply a pawn. */
  function FindSourcePosition(d: SourcePositionData, pawn: Option<Pawn>): (r: Vec3)
    requires d.cameraSourcePosition == LocalPosition ==> pawn.Some?
    ensures d.cameraSourcePosition == AbsPosition ==> r == d.absolutePosition
    ensures d.cameraSourcePosition == EyeHeight ==>
              if IsValidPawn(pawn)
              then r.x == pawn.value.location.x && r.y == pawn.value.location.y
                   && r.z == pawn.value.location.z + pawn.value.baseEyeHeight
              else r == ZeroVector
    ensures d.cameraSourcePosition == Socket ==>
              if pawn.Some? && pawn.value.character.Some?
              then r == pawn.value.character.value.socketLocation(d.socketName)
              else r == ZeroVector
    ensures d.cameraSourcePosition == LocalPosition ==> r.Minus(pawn.value.location) == d.localPosition
  {
    match d.cameraSourcePosition
    case EyeHeight =>
      if !IsValidPawn(pawn) then ZeroVector
      else pawn.value.location.Plus(Vec3(0.0, 0.0, pawn.value.baseEyeHeight))
    case Socket =>
      if pawn.Some? && pawn.value.character.Some?
      then pawn.value.character.value.socketLocation(d.socketName)
      else ZeroVector
    case LocalPosition => d.localPosition.Plus(pawn.value.location)
    case AbsPosition => d.absolutePosition
  }

  /** FCameraOffsetPositionData. */
  datatype OffsetPositionData = OffsetPositionData(targetOffset: Vec3, socketOffset: Vec3)
  {
    /** GetOffsetPosition: the source moved by the world-space offset and by the local-space
        offset turned into world space by the source rotation. */
    function GetOffsetPosition(n: Numerics, source: Vec3, rotation: Rotator): (r: Vec3)
      ensures targetOffset == ZeroVector && socketOffset == ZeroVector ==> r == source
      ensures r.Minus(source) == targetOffset.Plus(TransformVector(n, rotation, socketOffset))
    {
      source.Plus(targetOffset).Plus(TransformVector(n, rotation, socketOffset))
    }
  }

  const DefaultOffsetPositionData: OffsetPositionData := OffsetPositionData(ZeroVector, ZeroVector)

  /** Moving the source moves the offset position by the same amount: the offsets do not depend on where the source is. */
  lemma OffsetPositionTranslates(d: OffsetPositionData, n: Numerics, source: Vec3, shift: Vec3, rotation: Rotator)
    ensures d.GetOffsetPosition(n, source.Plus(shift), rotation) == d.GetOffsetPosition(n, source, rotation).Plus(shift)
  {
  }

  /** FCDCameraAxisData: per-axis influence of one vector over another (XY together, Z alone). */
  datatype CameraAxisData = CameraAxisData(xyActive: bool, xyScale: real, zActive: bool, zScale: real)
  {
    /** GetXYInfluence: the XY scale, or nothing when XY is switched off. */
    function GetXYInfluence(): (r: real)
      ensures r == 0.0 || r == xyScale
      ensures !xyActive ==> r == 0.0
      ensures xyActive ==> r == xyScale
    {
      if xyActive then xyScale else 0.0
    }

    /** GetZInfluence: the Z scale, or nothing when Z is switched off. */
    function GetZInfluence(): (r: real)
      ensures r == 0.0 || r == zScale
      ensures !zActive ==> r == 0.0
      ensures zActive ==> r == zScale
    {
      if zActive then zScale else 0.0
    }

    /** ProcessAxis: X and Y move from A towards B by the XY influence, Z by the Z influence.
        Full influence on an axis gives B's component, none gives A's. */
    function ProcessAxis(a: Vec3, b: Vec3): (r: Vec3)
      ensures GetXYInfluence() == 1.0 ==> r.x == b.x && r.y == b.y
      ensures GetXYInfluence() == 0.0 ==> r.x == a.x && r.y == a.y
      ensures GetZInfluence() == 1.0 ==> r.z == b.z
      ensures GetZInfluence() == 0.0 ==> r.z == a.z
      ensures !xyActive && !zActive ==> r == a
      ensures r.Minus(a) == Vec3((b.x - a.x) * GetXYInfluence(), (b.y - a.y) * GetXYInfluence(), (b.z - a.z) * GetZInfluence())
    {
      Vec3(Lerp(a.x, b.x, GetXYInfluence()), Lerp(a.y, b.y, GetXYInfluence()), Lerp(a.z, b.z, GetZInfluence()))
    }
  }

  /** The defaults of FCDCameraAxisData: both axes active at full scale. */
  const DefaultAxisData: CameraAxisData := CameraAxisData(true, 1.0, true, 1.0)

  /** Blending a vector with itself leaves it as it is, for any axis data. */
  lemma ProcessAxisIdempotent(d: CameraAxisData, a: Vec3)
    ensures d.ProcessAxis(a, a) == a
  {
  }

  /** With the default axis data, ProcessAxis selects B outright. */
  lemma DefaultAxisSelectsB(a: Vec3, b: Vec3)
    ensures DefaultAxisData.ProcessAxis(a, b) == b
  {
  }

  /** With influences within [0, 1] every component of the result lies between A's and B's. */
  lemma {:induction false} ProcessAxisBetween(d: CameraAxisData, a: Vec3, b: Vec3)
    requires 0.0 <= d.xyScale <= 1.0 && 0.0 <= d.zScale <= 1.0
    ensures var r := d.ProcessAxis(a, b);
            Min(a.x, b.x) <= r.x <= Max(a.x, b.x) && Min(a.y, b.y) <= r.y <= Max(a.y, b.y)
            && Min(a.z, b.z) <= r.z <= Max(a.z, b.z)
  {
    LerpWithinBounds(a.x, b.x, d.GetXYInfluence());
    LerpWithinBounds(a.y, b.y, d.GetXYInfluence());
    LerpWithinBounds(a.z, b.z, d.GetZInfluence());
  }
}
