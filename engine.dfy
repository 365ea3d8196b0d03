/** Engine value types (FVector, FRotator, runtime curves) and the engine numerics that the camera
    core calls but does not define. The numerics are gathered in `Numerics`, a record of function
    values passed to every operation that needs them, so that each contract in this project holds
    for every engine implementation of interpolation, slerp, rotation matrices and angle clamping. */
module Engine {

  datatype Option<+T> = None | Some(value: T)

  function Abs(x: real): (r: real)
    ensures r >= 0.0 && (r == x || r == -x)
  {
    if x < 0.0 then -x else x
  }

  function Max(a: real, b: real): (r: real)
    ensures r >= a && r >= b && (r == a || r == b)
  {
    if a >= b then a else b
  }

  function Min(a: real, b: real): (r: real)
    ensures r <= a && r <= b && (r == a || r == b)
  {
    if a <= b then a else b
  }

  /** FMath::Lerp: A + Alpha * (B - A). */
  function Lerp(a: real, b: real, t: real): real
  {
    a + t * (b - a)
  }

  lemma MulNonNegative(x: real, y: real)
    requires x >= 0.0 && y >= 0.0
    ensures x * y >= 0.0
  {
  }

  /** For a blend fraction within [0, 1], Lerp stays between its end points and hits each end
      point at 0 and 1. */
  lemma {:induction false} LerpWithinBounds(a: real, b: real, t: real)
    requires 0.0 <= t <= 1.0
    ensures Min(a, b) <= Lerp(a, b, t) <= Max(a, b)
    ensures t == 0.0 ==> Lerp(a, b, t) == a
    ensures t == 1.0 ==> Lerp(a, b, t) == b
  {
    if a <= b {
      MulNonNegative(t, b - a);
      MulNonNegative(1.0 - t, b - a);
      assert (1.0 - t) * (b - a) == (b - a) - t * (b - a);
    } else {
      MulNonNegative(t, a - b);
      MulNonNegative(1.0 - t, a - b);
      assert (1.0 - t) * (a - b) == (a - b) - t * (a - b);
      assert t * (b - a) == -(t * (a - b));
    }
  }

  /** A world-space vector (FVector). */
  datatype Vec3 = Vec3(x: real, y: real, z: real)
  {
    function Plus(o: Vec3): Vec3 { Vec3(x + o.x, y + o.y, z + o.z) }
    function Minus(o: Vec3): Vec3 { Vec3(x - o.x, y - o.y, z - o.z) }
    function Scaled(s: real): Vec3 { Vec3(x * s, y * s, z * s) }
    /** Component-wise product (FVector * FVector). */
    function Times(o: Vec3): Vec3 { Vec3(x * o.x, y * o.y, z * o.z) }
    function Dot(o: Vec3): real { x * o.x + y * o.y + z * o.z }
  }

  const ZeroVector: Vec3 := Vec3(0.0, 0.0, 0.0)

  function LerpVector(a: Vec3, b: Vec3, t: real): Vec3
  {
    Vec3(Lerp(a.x, b.x, t), Lerp(a.y, b.y, t), Lerp(a.z, b.z, t))
  }

  /** An orientation in degrees (FRotator). Equality is the engine's exact component-wise `==`. */
  datatype Rotator = Rotator(pitch: real, yaw: real, roll: real)
  {
    function Plus(o: Rotator): Rotator { Rotator(pitch + o.pitch, yaw + o.yaw, roll + o.roll) }
    function Minus(o: Rotator): Rotator { Rotator(pitch - o.pitch, yaw - o.yaw, roll - o.roll) }
  }

  const ZeroRotator: Rotator := Rotator(0.0, 0.0, 0.0)

  /** The location, rotation and field of view a camera modifier reads and writes (the part of
      FMinimalViewInfo the camera core touches). */
  datatype CameraPose = CameraPose(location: Vec3, rotation: Rotator, fov: real)

  /** KINDA_SMALL_NUMBER, the engine's default tolerance for IsNearlyZero. */
  const KindaSmallNumber: real := 0.0001

  /** FVector::IsNearlyZero with the default tolerance. */
  predicate IsNearlyZeroVector(v: Vec3)
  {
    Abs(v.x) <= KindaSmallNumber && Abs(v.y) <= KindaSmallNumber && Abs(v.z) <= KindaSmallNumber
  }

  /** FMath::IsNearlyEqual(A, B, Tolerance). */
  predicate IsNearlyEqual(a: real, b: real, tolerance: real)
  {
    Abs(a - b) <= tolerance
  }

  /** An FRuntimeFloatCurve: either it has no rich curve, or it evaluates through one. */
  datatype FloatCurve = NoRichCurve | RichCurve(eval: real -> real)

  /** Engine maths the camera core relies on, left uninterpreted. */
  datatype Numerics = Numerics(
    fInterpTo: (real, real, real, real) -> real,            // FMath::FInterpTo(Current, Target, DeltaTime, Speed)
    fInterpConstantTo: (real, real, real, real) -> real,    // FMath::FInterpConstantTo
    vInterpTo: (Vec3, Vec3, real, real) -> Vec3,            // FMath::VInterpTo
    vInterpConstantTo: (Vec3, Vec3, real, real) -> Vec3,    // FMath::VInterpConstantTo
    rInterpTo: (Rotator, Rotator, real, real) -> Rotator,   // FMath::RInterpTo
    slerp: (Rotator, Rotator, real) -> Rotator,             // FQuat::Slerp(A.Quaternion(), B.Quaternion(), T).Rotator()
    rotationAxes: Rotator -> (Vec3, Vec3, Vec3),            // rows X, Y, Z of FRotationMatrix(R)
    vectorRotation: Vec3 -> Rotator,                        // FVector::Rotation()
    vectorLength: Vec3 -> real,                             // FVector::Length()
    acosDegrees: real -> real,                              // RadiansToDegrees(Acos(x))
    rotatorIsNearlyZero: Rotator -> bool,                   // FRotator::IsNearlyZero()
    composeRotations: (Rotator, Rotator, Rotator) -> Rotator, // OrientationAwareComposeRotations(Child, Parent, Reference, -Up)
    normalize: Rotator -> Rotator,                          // FRotator::Normalize()
    limitAxis: (real, real, real) -> real                   // the clamp applied by LimitViewPitch/Yaw/Roll to one axis
  )

  /** FRotationMatrix(R).TransformVector(V): the linear combination of the matrix rows. */
  function TransformVector(n: Numerics, r: Rotator, v: Vec3): Vec3
  {
    var (ax, ay, az) := n.rotationAxes(r);
    ax.Scaled(v.x).Plus(ay.Scaled(v.y)).Plus(az.Scaled(v.z))
  }

  /** FRotator::Vector(): the forward (X) axis of the rotation. */
  function ForwardVector(n: Numerics, r: Rotator): Vec3
  {
    n.rotationAxes(r).0
  }
}
