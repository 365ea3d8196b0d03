/** The FOV adjustment modifier: replaces, offsets or scales the field of view by a (possibly
    smoothed) FOV change. */
module FovAdjust {
  import opened Engine

  /** ECameraModOpType, plus a case for a stored value outside the enumeration. */
  datatype ModOpType = Absolute | Additive | Multiplicative | UnknownOp

  /** The authored settings of the modifier. */
  datatype FovAdjustSettings = FovAdjustSettings(
    defaultFOVChange: real,
    useSmoothing: bool,
    smoothingSpeed: real,
    modificationType: ModOpType)

  /** The settings the constructor gives: an absolute FOV of 90, no smoothing, smoothing speed 2. */
  const DefaultFovAdjustSettings: FovAdjustSettings := FovAdjustSettings(90.0, false, 2.0, Absolute)

  /** The FOV one operation type produces from the incoming FOV and the FOV change; a type
      outside the enumeration produces nothing new, so the previously changed FOV is kept. */
  function ApplyFovChange(op: ModOpType, fov: real, change: real, previous: real): (r: real)
    ensures op == Absolute ==> r == change
    ensures op == Additive ==> r - fov == change
    ensures op == Multiplicative ==> r == fov * change
    ensures op == UnknownOp ==> r == previous
  {
    match op
    case Absolute => change
    case Additive => fov + change
    case Multiplicative => fov * change
    case UnknownOp => previous
  }

  /** The neutral changes: adding 0 or multiplying by 1 leaves the incoming FOV as it is, and an
      absolute change gives the same FOV whatever came in. */
  lemma NeutralFovChanges(fov: real, otherFov: real, change: real, previous: real)
    ensures ApplyFovChange(Additive, fov, 0.0, previous) == fov
    ensures ApplyFovChange(Multiplicative, fov, 1.0, previous) == fov
    ensures ApplyFovChange(Absolute, fov, change, previous) == ApplyFovChange(Absolute, otherFov, change, previous)
  {
  }

  /** Two additive changes in a row add up: the second applied to the first's result is the
      incoming FOV plus both changes. */
  lemma AdditiveChangesCompose(fov: real, c1: real, c2: real, p1: real, p2: real)
    ensures ApplyFovChange(Additive, ApplyFovChange(Additive, fov, c1, p1), c2, p2)
         == ApplyFovChange(Additive, fov, c1 + c2, p1)
  {
  }

  class FovAdjustModifier {
    const settings: FovAdjustSettings
    /** The runtime FOV change the modifier moves towards. */
    var targetFOVChange: real
    /** The FOV change applied this frame. */
    var fovChange: real
    /** The FOV produced by the last frame. */
    var changedFOV: real

    /** The constructor: target, current change and changed FOV all start at the default change. */
    constructor (settings: FovAdjustSettings)
      ensures this.settings == settings
      ensures targetFOVChange == settings.defaultFOVChange && fovChange == settings.defaultFOVChange
      ensures changedFOV == settings.defaultFOVChange
    {
      this.settings := settings;
      targetFOVChange := settings.defaultFOVChange;
      fovChange := settings.defaultFOVChange;
      changedFOV := settings.defaultFOVChange;
    }

    /** A field-by-field copy, as the engine's object duplication makes. */
    constructor Copy(o: FovAdjustModifier)
      ensures settings == o.settings && targetFOVChange == o.targetFOVChange
      ensures fovChange == o.fovChange && changedFOV == o.changedFOV
    {
      settings := o.settings;
      targetFOVChange := o.targetFOVChange;
      fovChange := o.fovChange;
      changedFOV := o.changedFOV;
    }

    /** AddedToCamera: the target and the current change restart from the default change, so that
        smoothing starts from there. */
    method AddedToCamera()
      modifies this
      ensures targetFOVChange == settings.defaultFOVChange && fovChange == settings.defaultFOVChange
      ensures changedFOV == old(changedFOV)
    {
      targetFOVChange := settings.defaultFOVChange;
      fovChange := targetFOVChange;
    }

    /** ModifyCameraBlended: the FOV change follows the target (at once, or through FInterpTo when
        smoothing), the operation type turns it into the new FOV, and only the FOV of the outgoing
        pose is written. */
    method ModifyCameraBlended(n: Numerics, deltaTime: real, view: CameraPose, newPose: CameraPose) returns (r: CameraPose)
      modifies this
      ensures !settings.useSmoothing ==> fovChange == targetFOVChange
      ensures settings.useSmoothing ==>
                fovChange == n.fInterpTo(old(fovChange), targetFOVChange, deltaTime, settings.smoothingSpeed)
      ensures changedFOV == ApplyFovChange(settings.modificationType, view.fov, fovChange, old(changedFOV))
      ensures r.fov == changedFOV
      ensures r.location == newPose.location && r.rotation == newPose.rotation
      ensures targetFOVChange == old(targetFOVChange)
    {
      if settings.useSmoothing {
        fovChange := n.fInterpTo(fovChange, targetFOVChange, deltaTime, settings.smoothingSpeed);
      } else {
        fovChange := targetFOVChange;
      }
      match settings.modificationType {
        case Absolute => changedFOV := fovChange;
        case Additive => changedFOV := view.fov + fovChange;
        case Multiplicative => changedFOV := view.fov * fovChange;
        case UnknownOp =>
      }
      r := newPose.(fov := changedFOV);
    }
  }
}
