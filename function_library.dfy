/** The static helpers of the camera function library: guarded interpolation, axis scaling and
    runtime-curve evaluation. */
module FunctionLibrary {
  import opened Engine
  import opened DataTypes

  /** EvaluateRuntimeFloatCurve: a curve without a rich curve evaluates to 0. */
  function EvaluateRuntimeFloatCurve(curve: FloatCurve, time: real): (r: real)
    ensures curve.NoRichCurve? ==> r == 0.0
    ensures curve.RichCurve? ==> r == curve.eval(time)
  {
    match curve
    case NoRichCurve => 0.0
    case RichCurve(eval) => eval(time)
  }

  /** CameraFInterp: A at or below a non-negative minimum speed, B at or above a non-negative
      maximum speed (the minimum rule is checked first), otherwise the engine's interpolation,
      exponential or constant-step as asked. */
  function CameraFInterp(n: Numerics, a: real, b: real, deltaTime: real, interpSpeed: real,
                         constantStep: bool, minInterpSpeed: real, maxInterpSpeed: real): (r: real)
    ensures interpSpeed <= minInterpSpeed && minInterpSpeed >= 0.0 ==> r == a
    ensures (!(interpSpeed <= minInterpSpeed && minInterpSpeed >= 0.0)
             && interpSpeed >= maxInterpSpeed && maxInterpSpeed >= 0.0) ==> r == b
    ensures (minInterpSpeed < 0.0 || interpSpeed > minInterpSpeed)
            && (maxInterpSpeed < 0.0 || interpSpeed < maxInterpSpeed) ==>
              r == (if constantStep then n.fInterpConstantTo(a, b, deltaTime, interpSpeed)
                    else n.fInterpTo(a, b, deltaTime, interpSpeed))
  {
    if interpSpeed <= minInterpSpeed && minInterpSpeed >= 0.0 then a
    else if interpSpeed >= maxInterpSpeed && maxInterpSpeed >= 0.0 then b
    else if !constantStep then n.fInterpTo(a, b, deltaTime, interpSpeed)
    else n.fInterpConstantTo(a, b, deltaTime, interpSpeed)
  }

  /** CameraVInterp: the same gating as CameraFInterp, for vectors. */
  function CameraVInterp(n: Numerics, a: Vec3, b: Vec3, deltaTime: real, interpSpeed: real,
                         constantStep: bool, minInterpSpeed: real, maxInterpSpeed: real): (r: Vec3)
    ensures interpSpeed <= minInterpSpeed && minInterpSpeed >= 0.0 ==> r == a
    ensures (!(interpSpeed <= minInterpSpeed && minInterpSpeed >= 0.0)
             && interpSpeed >= maxInterpSpeed && maxInterpSpeed >= 0.0) ==> r == b
    ensures (minInterpSpeed < 0.0 || interpSpeed > minInterpSpeed)
            && (maxInterpSpeed < 0.0 || interpSpeed < maxInterpSpeed) ==>
              r == (if constantStep then n.vInterpConstantTo(a, b, deltaTime, interpSpeed)
                    else n.vInterpTo(a, b, deltaTime, interpSpeed))
  {
    if interpSpeed <= minInterpSpeed && minInterpSpeed >= 0.0 then a
    else if interpSpeed >= maxInterpSpeed && maxInterpSpeed >= 0.0 then b
    else if !constantStep then n.vInterpTo(a, b, deltaTime, interpSpeed)
    else n.vInterpConstantTo(a, b, deltaTime, interpSpeed)
  }

  /** With the default speeds (both -1) neither guard applies: CameraFInterp is plain FInterpTo. */
  lemma DefaultSpeedsDoNotGate(n: Numerics, a: real, b: real, deltaTime: real, interpSpeed: real)
    ensures CameraFInterp(n, a, b, deltaTime, interpSpeed, false, -1.0, -1.0) == n.fInterpTo(a, b, deltaTime, interpSpeed)
  {
  }

  /** The vector gating agrees with the scalar gating: whenever CameraFInterp snaps to A or B on
      every component, CameraVInterp snaps to the whole vector A or B. */
  lemma VInterpGatesLikeFInterp(n: Numerics, a: Vec3, b: Vec3, deltaTime: real, speed: real, minSpeed: real, maxSpeed: real)
    requires (speed <= minSpeed && minSpeed >= 0.0) || (speed >= maxSpeed && maxSpeed >= 0.0)
    ensures CameraVInterp(n, a, b, deltaTime, speed, false, minSpeed, maxSpeed)
         == Vec3(CameraFInterp(n, a.x, b.x, deltaTime, speed, false, minSpeed, maxSpeed),
                 CameraFInterp(n, a.y, b.y, deltaTime, speed, false, minSpeed, maxSpeed),
                 CameraFInterp(n, a.z, b.z, deltaTime, speed, false, minSpeed, maxSpeed))
  {
  }

  /** ScaleAxis: each component of the vector scaled by its axis influence. */
  function ScaleAxis(v: Vec3, d: CameraAxisData): (r: Vec3)
    ensures r == Vec3(v.x * d.GetXYInfluence(), v.y * d.GetXYInfluence(), v.z * d.GetZInfluence())
  {
    d.ProcessAxis(ZeroVector, v)
  }

  /** BlendVectorsByAxisData: A moved by the axis-scaled difference towards B. */
  function BlendVectorsByAxisData(a: Vec3, b: Vec3, d: CameraAxisData): (r: Vec3)
    ensures r == a.Plus(ScaleAxis(b.Minus(a), d))
  {
    d.ProcessAxis(a, b)
  }
}
