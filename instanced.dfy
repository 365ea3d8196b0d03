/** UCDCameraModifierInstanced: the modifier every camera-data modifier derives from. It keeps the
    blend state (proved against the transitions of module Blending), dispatches to the concrete
    modifier it is, and blends that modifier's output with its input by the effective alpha. */
module Instanced {
  import opened Engine
  import opened DataTypes
  import opened Blending
  import FovAdjust
  import FovPitchMod
  import PositionBase
  import PositionOffset
  import PositionDistance
  import PositionDynamicZ
  import RotationOverride
  import VelocityToYaw

  /** Which concrete modifier an instanced modifier is, with the object that holds that
      modifier's own settings and fields. `Plain` is the base class (or a Blueprint subclass). */
  datatype Variant =
    | Plain
    | AdjustFov(fovAdjust: FovAdjust.FovAdjustModifier)
    | PitchFov(pitchMod: FovPitchMod.FovPitchModModifier)
    | BasePosition(positionBase: PositionBase.PositionBaseModifier)
    | OffsetPosition(positionOffset: PositionOffset.PositionOffsetModifier)
    | DistancePosition(positionDistance: PositionDistance.PositionDistanceModifier)
    | DynamicZ(dynamicZ: PositionDynamicZ.DynamicZModifier)
    | OverrideRotation(rotationOverride: RotationOverride.RotationOverrideModifier)
    | FollowVelocity(velocityToYaw: VelocityToYaw.VelocityToYawModifier)
  {
    /** The objects holding the concrete modifier's fields. */
    function Objects(): set<object>
    {
      match this
      case Plain => {}
      case AdjustFov(m) => {m}
      case PitchFov(m) => {m}
      case BasePosition(m) => {m}
      case OffsetPosition(m) => {m}
      case DistancePosition(m) => {m}
      case DynamicZ(m) => {m}
      case OverrideRotation(m) => {m}
      case FollowVelocity(m) => {m}
    }

    /** The objects view-rotation processing may change: only velocity-to-yaw keeps state there. */
    function RotationObjects(): set<object>
    {
      if FollowVelocity? then {velocityToYaw} else {}
    }

    predicate SameKind(o: Variant)
    {
      (Plain? && o.Plain?) || (AdjustFov? && o.AdjustFov?) || (PitchFov? && o.PitchFov?)
      || (BasePosition? && o.BasePosition?) || (OffsetPosition? && o.OffsetPosition?)
      || (DistancePosition? && o.DistancePosition?) || (DynamicZ? && o.DynamicZ?)
      || (OverrideRotation? && o.OverrideRotation?) || (FollowVelocity? && o.FollowVelocity?)
    }
  }

  /** The object duplication of the concrete part: a fresh object of the same kind, copied
      field by field (each Copy constructor states the copy). */
  method CopyVariant(v: Variant) returns (c: Variant)
    ensures c.SameKind(v) && fresh(c.Objects())
  {
    if v.AdjustFov? {
      var o := new FovAdjust.FovAdjustModifier.Copy(v.fovAdjust);
      c := AdjustFov(o);
    } else if v.PitchFov? {
      var o := new FovPitchMod.FovPitchModModifier.Copy(v.pitchMod);
      c := PitchFov(o);
    } else if v.BasePosition? {
      var o := new PositionBase.PositionBaseModifier.Copy(v.positionBase);
      c := BasePosition(o);
    } else if v.OffsetPosition? {
      var o := new PositionOffset.PositionOffsetModifier.Copy(v.positionOffset);
      c := OffsetPosition(o);
    } else if v.DistancePosition? {
      var o := new PositionDistance.PositionDistanceModifier.Copy(v.positionDistance);
      c := DistancePosition(o);
    } else if v.DynamicZ? {
      var o := new PositionDynamicZ.DynamicZModifier.Copy(v.dynamicZ);
      c := DynamicZ(o);
    } else if v.OverrideRotation? {
      var o := new RotationOverride.RotationOverrideModifier.Copy(v.rotationOverride);
      c := OverrideRotation(o);
    } else if v.FollowVelocity? {
      var o := new VelocityToYaw.VelocityToYawModifier.Copy(v.velocityToYaw);
      c := FollowVelocity(o);
    } else {
      c := Plain;
    }
  }

  /** The Blueprint events a modifier may implement, as functions of their inputs to their outputs.
      - modifyCamera: the engine base class's BlueprintModifyCamera (delta time, view, new pose).
      - modifyCameraBlended: BlueprintModifyCameraBlended (alpha, delta time, view, new pose).
      - processViewRotationBlended: BlueprintProcessViewRotationBlended (alpha, delta time, view
        rotation, delta rotation, out view rotation, out delta rotation) to (stop, out view
        rotation, out delta rotation). */
  datatype BlueprintHooks = BlueprintHooks(
    modifyCamera: (real, CameraPose, CameraPose) -> CameraPose,
    modifyCameraBlended: (real, real, CameraPose, CameraPose) -> CameraPose,
    processViewRotationBlended: (real, real, Rotator, Rotator, Rotator, Rotator) -> (bool, Rotator, Rotator))

  /** No Blueprint implementation: an event that is not implemented leaves its out parameters as
      they were passed and returns false. */
  const NoBlueprint: BlueprintHooks := BlueprintHooks(
    (deltaTime: real, view: CameraPose, newPose: CameraPose) => newPose,
    (a: real, deltaTime: real, view: CameraPose, newPose: CameraPose) => newPose,
    (a: real, deltaTime: real, viewRotation: Rotator, deltaRot: Rotator, outViewRotation: Rotator, outDeltaRot: Rotator) =>
      (false, outViewRotation, outDeltaRot))

  /** The last step of ModifyCamera: at alpha 1 the candidate pose as it is; otherwise location and
      FOV lerped and rotation slerped from the modifier's incoming view towards the candidate. */
  function BlendPose(n: Numerics, a: real, view: CameraPose, candidate: CameraPose): (r: CameraPose)
    ensures a == 1.0 ==> r == candidate
  {
    if a == 1.0 then candidate
    else
      CameraPose(LerpVector(view.location, candidate.location, a), n.slerp(view.rotation, candidate.rotation, a),
                 Lerp(view.fov, candidate.fov, a))
  }

  /** The fast path at alpha 1 is the interpolation at alpha 1: whenever the engine's slerp reaches
      its end point at 1, skipping the blend changes nothing. */
  lemma {:induction false} FullAlphaSkipsNothing(n: Numerics, view: CameraPose, candidate: CameraPose)
    requires n.slerp(view.rotation, candidate.rotation, 1.0) == candidate.rotation
    ensures BlendPose(n, 1.0, view, candidate)
         == CameraPose(LerpVector(view.location, candidate.location, 1.0), n.slerp(view.rotation, candidate.rotation, 1.0),
                       Lerp(view.fov, candidate.fov, 1.0))
  {
    LerpWithinBounds(view.location.x, candidate.location.x, 1.0);
    LerpWithinBounds(view.location.y, candidate.location.y, 1.0);
    LerpWithinBounds(view.location.z, candidate.location.z, 1.0);
    LerpWithinBounds(view.fov, candidate.fov, 1.0);
  }

  /** For an alpha within [0, 1] the blended FOV, and the blended location axis by axis, lie
      between the incoming view and the candidate; alpha 0 keeps the incoming location and FOV. */
  lemma {:induction false} BlendedPoseBetween(n: Numerics, a: real, view: CameraPose, candidate: CameraPose)
    requires 0.0 <= a <= 1.0
    ensures var r := BlendPose(n, a, view, candidate);
            Min(view.fov, candidate.fov) <= r.fov <= Max(view.fov, candidate.fov)
            && Min(view.location.x, candidate.location.x) <= r.location.x <= Max(view.location.x, candidate.location.x)
            && Min(view.location.y, candidate.location.y) <= r.location.y <= Max(view.location.y, candidate.location.y)
            && Min(view.location.z, candidate.location.z) <= r.location.z <= Max(view.location.z, candidate.location.z)
    ensures a == 0.0 ==> (BlendPose(n, a, view, candidate).location == view.location
                          && BlendPose(n, a, view, candidate).fov == view.fov)
  {
    LerpWithinBounds(view.fov, candidate.fov, a);
    LerpWithinBounds(view.location.x, candidate.location.x, a);
    LerpWithinBounds(view.location.y, candidate.location.y, a);
    LerpWithinBounds(view.location.z, candidate.location.z, a);
  }

  /** The last step of ProcessViewRotation, from the incoming rotations, the native stop flag and
      the candidate (Blueprint stop flag, view rotation, delta rotation). Unchanged candidates give
      false and the incoming rotations, whatever was asked; otherwise the stop flag is the OR of
      both requests, and the rotations are the candidates at alpha 1 and slerped towards them below. */
  function BlendViewRotation(n: Numerics, a: real, viewRotation: Rotator, deltaRot: Rotator, nativeStop: bool,
                             candidate: (bool, Rotator, Rotator)): (r: (bool, Rotator, Rotator))
    ensures candidate.1 == viewRotation && candidate.2 == deltaRot ==> r == (false, viewRotation, deltaRot)
    ensures (candidate.1 != viewRotation || candidate.2 != deltaRot) ==> r.0 == (nativeStop || candidate.0)
    ensures a == 1.0 ==> r.1 == candidate.1 && r.2 == candidate.2
  {
    var stop := nativeStop || candidate.0;
    if candidate.1 == viewRotation && candidate.2 == deltaRot then (false, viewRotation, deltaRot)
    else if a == 1.0 then (stop, candidate.1, candidate.2)
    else (stop, n.slerp(viewRotation, candidate.1, a), n.slerp(deltaRot, candidate.2, a))
  }

  /** A modifier that changes no rotation never stops the chain: with no Blueprint implementation
      and native rotations that come back as they went in, the result is the input and false,
      even if the native part asked to stop. */
  lemma QuietModifierNeverStops(n: Numerics, a: real, deltaTime: real, viewRotation: Rotator, deltaRot: Rotator, nativeStop: bool)
    ensures BlendViewRotation(n, a, viewRotation, deltaRot, nativeStop,
              NoBlueprint.processViewRotationBlended(a, deltaTime, viewRotation, viewRotation, viewRotation, deltaRot))
         == (false, viewRotation, deltaRot)
  {
  }

  /** At alpha 1 the fast path is the slerp at 1, whenever the engine's slerp reaches its end point. */
  lemma FullAlphaRotationSkipsNothing(n: Numerics, viewRotation: Rotator, deltaRot: Rotator, nativeStop: bool,
                                      candidate: (bool, Rotator, Rotator))
    requires n.slerp(viewRotation, candidate.1, 1.0) == candidate.1 && n.slerp(deltaRot, candidate.2, 1.0) == candidate.2
    requires candidate.1 != viewRotation || candidate.2 != deltaRot
    ensures BlendViewRotation(n, 1.0, viewRotation, deltaRot, nativeStop, candidate)
         == (nativeStop || candidate.0, n.slerp(viewRotation, candidate.1, 1.0), n.slerp(deltaRot, candidate.2, 1.0))
  {
  }

  /** A camera data asset (UCDCameraData): the modifier templates it holds, in order. A slot may be empty. */
  class CameraData {
    const cameraModifiers: seq<Modifier?>

    constructor (cameraModifiers: seq<Modifier?>)
      ensures this.cameraModifiers == cameraModifiers
    {
      this.cameraModifiers := cameraModifiers;
    }
  }

  class Modifier {
    /** The classes this modifier is an instance of (IsA). */
    const classes: set<string>
    /** ModifierGameplayTags, as a flat set of tag names. */
    const gameplayTags: set<string>
    const useCustomPriority: bool
    const config: BlendConfig
    const viewTargetBlendOutTag: string
    const blueprint: BlueprintHooks
    const variant: Variant
    /** IsValid: false for an object that exists but is pending kill (a failed duplicate). */
    const valid: bool

    const priority: int
    var alpha: real
    var disabled: bool
    var pendingDisable: bool
    var customTargetBlendAlpha: real
    var customTargetBlendTime: real
    var alphaBeforeViewTargetTagBlendOut: real
    var markedForRemoval: bool
    /** Whether CameraOwner is a valid camera manager (it is set when the modifier is added to one). */
    var ownerValid: bool
    /** The removals this modifier has asked its camera manager for, oldest first. */
    var removalRequests: seq<RemovalRequest>
    var cameraDataSource: CameraData?
    var runtimeModifier: Modifier?

    /** The blend fields as a value. */
    function State(): BlendState
      reads this
    {
      BlendState(alpha, disabled, pendingDisable, customTargetBlendAlpha, customTargetBlendTime,
                 alphaBeforeViewTargetTagBlendOut, markedForRemoval)
    }

    /** GetCustomBlendAlpha(!bPendingDisable): the alpha ModifyCamera and ProcessViewRotation blend by. */
    function CurrentAlpha(): real
      reads this
    {
      EffectiveAlpha(State(), config, !pendingDisable)
    }

    /** The constructor: alpha and blend/in-out times as the source sets them, nothing custom,
        no owner, no data source. */
    constructor (classes: set<string>, gameplayTags: set<string>, useCustomPriority: bool, priority: int,
                 config: BlendConfig, viewTargetBlendOutTag: string, blueprint: BlueprintHooks, variant: Variant, valid: bool)
      ensures this.classes == classes && this.gameplayTags == gameplayTags && this.useCustomPriority == useCustomPriority
      ensures this.priority == priority && this.config == config && this.viewTargetBlendOutTag == viewTargetBlendOutTag
      ensures this.blueprint == blueprint && this.variant == variant && this.valid == valid
      ensures State() == InitialBlendState && !ownerValid && removalRequests == []
      ensures cameraDataSource == null && runtimeModifier == null
    {
      this.classes := classes;
      this.gameplayTags := gameplayTags;
      this.useCustomPriority := useCustomPriority;
      this.priority := priority;
      this.config := config;
      this.viewTargetBlendOutTag := viewTargetBlendOutTag;
      this.blueprint := blueprint;
      this.variant := variant;
      this.valid := valid;
      alpha := 0.0;
      disabled := false;
      pendingDisable := false;
      customTargetBlendAlpha := Unset;
      customTargetBlendTime := Unset;
      alphaBeforeViewTargetTagBlendOut := Unset;
      markedForRemoval := false;
      ownerValid := false;
      removalRequests := [];
      cameraDataSource := null;
      runtimeModifier := null;
    }

    /** DuplicateObject of a template: the same settings and blend state, a fresh copy of the
        concrete part, and neither owner, data source nor runtime modifier. The priority is the one
        the camera manager gives the duplicate straight after duplication (the template's own
        when it keeps it). */
    constructor Duplicate(t: Modifier, valid: bool, priority: int)
      ensures classes == t.classes && gameplayTags == t.gameplayTags && useCustomPriority == t.useCustomPriority
      ensures this.priority == priority && config == t.config && viewTargetBlendOutTag == t.viewTargetBlendOutTag
      ensures blueprint == t.blueprint && variant.SameKind(t.variant) && fresh(variant.Objects()) && this.valid == valid
      ensures State() == t.State() && !ownerValid && removalRequests == []
      ensures cameraDataSource == null && runtimeModifier == null
    {
      var v := CopyVariant(t.variant);
      classes := t.classes;
      gameplayTags := t.gameplayTags;
      useCustomPriority := t.useCustomPriority;
      this.priority := priority;
      config := t.config;
      viewTargetBlendOutTag := t.viewTargetBlendOutTag;
      blueprint := t.blueprint;
      variant := v;
      this.valid := valid;
      alpha := t.alpha;
      disabled := t.disabled;
      pendingDisable := t.pendingDisable;
      customTargetBlendAlpha := t.customTargetBlendAlpha;
      customTargetBlendTime := t.customTargetBlendTime;
      alphaBeforeViewTargetTagBlendOut := t.alphaBeforeViewTargetTagBlendOut;
      markedForRemoval := t.markedForRemoval;
      ownerValid := false;
      removalRequests := [];
      cameraDataSource := null;
      runtimeModifier := null;
    }

    /** UpdateAlpha: one step of alpha towards the target alpha over the blend time. */
    method UpdateAlpha(deltaTime: real)
      modifies this`alpha
      ensures State() == Ticked(old(State()), config, deltaTime)
    {
      var targetAlpha := TargetAlpha(State());
      var blendTime: real;
      if customTargetBlendTime >= 0.0 {
        blendTime := customTargetBlendTime;
      } else {
        blendTime := if targetAlpha == 0.0 then config.alphaOutTime else config.alphaInTime;
      }
      if blendTime <= 0.0 {
        alpha := targetAlpha;
      } else if alpha > targetAlpha {
        alpha := Max(alpha - deltaTime / blendTime, targetAlpha);
      } else {
        alpha := Min(alpha + deltaTime / blendTime, targetAlpha);
      }
    }

    /** BlendToNewTargetAlpha. */
    method BlendToNewTargetAlpha(newTargetAlpha: real, blendTime: real)
      modifies this`customTargetBlendAlpha, this`customTargetBlendTime
      ensures State() == WithCustomTarget(old(State()), newTargetAlpha, blendTime)
    {
      if pendingDisable {
        return;
      }
      customTargetBlendAlpha := newTargetAlpha;
      customTargetBlendTime := blendTime;
    }

    /** ResetBlendState. */
    method ResetBlendState()
      modifies this`customTargetBlendAlpha, this`customTargetBlendTime
      ensures State() == WithBlendReset(old(State()))
    {
      customTargetBlendAlpha := Unset;
      customTargetBlendTime := Unset;
    }

    /** OnViewTargetChangeStart, for a new view target carrying `newTargetTags` and a transition
        of `blendTime` seconds. */
    method OnViewTargetChangeStart(newTargetTags: set<string>, blendTime: real)
      modifies this`customTargetBlendAlpha, this`customTargetBlendTime, this`alphaBeforeViewTargetTagBlendOut
      ensures State() == AfterViewTargetChange(old(State()), viewTargetBlendOutTag in newTargetTags, blendTime)
    {
      if alphaBeforeViewTargetTagBlendOut >= 0.0 && viewTargetBlendOutTag !in newTargetTags && alphaBeforeViewTargetTagBlendOut >= 0.0 {
        BlendToNewTargetAlpha(alphaBeforeViewTargetTagBlendOut, blendTime);
        alphaBeforeViewTargetTagBlendOut := Unset;
        return;
      }
      if viewTargetBlendOutTag in newTargetTags {
        alphaBeforeViewTargetTagBlendOut := alpha;
        BlendToNewTargetAlpha(0.0, blendTime);
      }
    }

    /** EnableModifier: the engine's enable, then the removal mark cleared. */
    method EnableModifier()
      modifies this`disabled, this`pendingDisable, this`markedForRemoval
      ensures State() == AfterEnable(old(State()))
    {
      disabled := false;
      pendingDisable := false;
      markedForRemoval := false;
    }

    /** The engine base class's DisableModifier. */
    method DisableModifier(immediate: bool)
      modifies this`disabled, this`pendingDisable
      ensures State() == AfterDisable(old(State()), immediate)
    {
      if immediate {
        disabled := true;
        pendingDisable := false;
      } else if !disabled {
        pendingDisable := true;
      }
    }

    /** MarkForRemoval: starts the blend-out, then asks the owner for the removals. */
    method MarkForRemoval()
      modifies this`disabled, this`pendingDisable, this`removalRequests
      ensures State() == AfterDisable(old(State()), false)
      ensures removalRequests == old(removalRequests) + MarkForRemovalRequests(config, ownerValid)
    {
      DisableModifier(false);
      if !ownerValid {
        return;
      }
      if config.alphaOutTime <= 0.0 {
        removalRequests := removalRequests + [RemoveNow];
      }
      removalRequests := removalRequests + [RemoveAfter(config.alphaOutTime)];
    }

    /** AddedToCamera: the owner is set and the modifier enabled; then the concrete modifier's own
        AddedToCamera runs (`cameraLocation` is the manager's camera location). */
    method AddedToCamera(cameraLocation: Vec3)
      modifies this`ownerValid, this`disabled, this`pendingDisable, this`markedForRemoval, variant.Objects()
      ensures ownerValid && State() == AfterEnable(old(State()))
      ensures variant.AdjustFov? ==>
                variant.fovAdjust.targetFOVChange == variant.fovAdjust.settings.defaultFOVChange
                && variant.fovAdjust.fovChange == variant.fovAdjust.settings.defaultFOVChange
      ensures variant.DistancePosition? ==> variant.positionDistance.distance == variant.positionDistance.targetDistance
      ensures variant.DynamicZ? ==> variant.dynamicZ.lastGroundedPosition == cameraLocation
      ensures !variant.AdjustFov? && !variant.DistancePosition? && !variant.DynamicZ? ==> unchanged(variant.Objects())
    {
      ownerValid := true;
      EnableModifier();
      match variant {
        case AdjustFov(m) => m.AddedToCamera();
        case DistancePosition(m) => m.AddedToCamera();
        case DynamicZ(m) => m.AddedToCamera(cameraLocation);
        case _ =>
      }
    }

    /** What the concrete modifier's ModifyCameraBlended made of the incoming pose `newPose`, read
        from the fields it recorded. */
    predicate NativeBlended(n: Numerics, ctx: ViewContext, newPose: CameraPose, blended: CameraPose)
      reads variant.Objects()
    {
      match variant
      case AdjustFov(m) => blended == newPose.(fov := m.changedFOV)
      case PitchFov(m) => blended == newPose.(fov := m.outFOV)
      case BasePosition(m) => blended == (if IsValidPawn(ctx.pawn) then newPose.(location := m.cameraInitialPosition) else newPose)
      case OffsetPosition(m) => blended == newPose.(location := m.modifiedPosition)
      case DistancePosition(m) =>
        blended == newPose.(location := PositionDistance.ForwardOffset(n, newPose.location, newPose.rotation, m.distance))
      case DynamicZ(m) =>
        blended == (if PositionDynamicZ.MovementOf(ctx.pawn) == PositionDynamicZ.NoMovement then newPose
                    else newPose.(location := m.currentPosition))
      case _ => blended == newPose
    }

    /** ModifyCamera (the per-pose form): the base class's Blueprint event first; at an effective
        alpha of 0 nothing else runs. Otherwise the concrete modifier produces `blended`, the
        Blueprint event refines it, and the result is blended with the incoming view by the alpha. */
    method ModifyCamera(n: Numerics, ctx: ViewContext, deltaTime: real, view: CameraPose, newPose: CameraPose)
      returns (r: CameraPose, ghost blended: CameraPose)
      modifies variant.Objects()
      ensures var pre := blueprint.modifyCamera(deltaTime, view, newPose);
              (CurrentAlpha() == 0.0 ==> r == pre && unchanged(variant.Objects()))
              && (CurrentAlpha() != 0.0 ==>
                    NativeBlended(n, ctx, pre, blended)
                    && r == BlendPose(n, CurrentAlpha(), view,
                                      blueprint.modifyCameraBlended(CurrentAlpha(), deltaTime,
                                                                    CameraPose(blended.location, blended.rotation, view.fov), blended)))
    {
      var pre := blueprint.modifyCamera(deltaTime, view, newPose);
      var a := EffectiveAlpha(State(), config, !pendingDisable);
      if a == 0.0 {
        return pre, pre;
      }
      var candidate := pre;
      match variant {
        case AdjustFov(m) => candidate := m.ModifyCameraBlended(n, deltaTime, view, pre);
        case PitchFov(m) => candidate := m.ModifyCameraBlended(deltaTime, view, pre);
        case BasePosition(m) => candidate := m.ModifyCameraBlended(ctx, deltaTime, view, pre);
        case OffsetPosition(m) => candidate := m.ModifyCameraBlended(n, deltaTime, view, pre);
        case DistancePosition(m) => candidate := m.ModifyCameraBlended(n, deltaTime, view, pre);
        case DynamicZ(m) => candidate := m.ModifyCameraBlended(n, ctx, deltaTime, view, pre);
        case _ =>
      }
      blended := candidate;
      candidate := blueprint.modifyCameraBlended(a, deltaTime, CameraPose(candidate.location, candidate.rotation, view.fov), candidate);
      if a == 1.0 {
        return candidate, blended;
      }
      r := CameraPose(LerpVector(view.location, candidate.location, a), n.slerp(view.rotation, candidate.rotation, a),
                      Lerp(view.fov, candidate.fov, a));
    }

    /** ModifyCamera (the per-frame form): the engine steps alpha, runs the per-pose form with the
        pose as both view and new pose, and then turns a pending disable whose alpha has come down
        to 0 into a full disable; it never stops later modifiers. The per-pose form blends by the
        effective alpha of the ticked state, before that disable. */
    method ModifyCameraFrame(n: Numerics, ctx: ViewContext, deltaTime: real, pose: CameraPose)
      returns (stop: bool, r: CameraPose, ghost blended: CameraPose)
      modifies this`alpha, this`disabled, this`pendingDisable, variant.Objects()
      ensures !stop && State() == Framed(old(State()), config, deltaTime)
      ensures var pre := blueprint.modifyCamera(deltaTime, pose, pose);
              var a := EffectiveAlpha(Ticked(old(State()), config, deltaTime), config, !old(pendingDisable));
              (a == 0.0 ==> r == pre && unchanged(variant.Objects()))
              && (a != 0.0 ==>
                    NativeBlended(n, ctx, pre, blended)
                    && r == BlendPose(n, a, pose,
                                      blueprint.modifyCameraBlended(a, deltaTime,
                                                                    CameraPose(blended.location, blended.rotation, pose.fov), blended)))
    {
      UpdateAlpha(deltaTime);
      r, blended := ModifyCamera(n, ctx, deltaTime, pose, pose);
      if pendingDisable && alpha <= 0.0 {
        DisableModifier(true);
      }
      stop := false;
    }

    /** What the concrete modifier's ProcessViewRotationBlended returned: (stop, view rotation,
        delta rotation). Only the rotation override and the velocity follow change anything; the
        follow is read with the input timer it has after the frame. */
    predicate NativeRotation(n: Numerics, ctx: ViewContext, deltaTime: real, viewRotation: Rotator, deltaRot: Rotator,
                             native: (bool, Rotator, Rotator))
      reads variant.Objects()
    {
      match variant
      case OverrideRotation(m) =>
        native == (if RotationOverride.Overrides(m.settings.rotationOverrideType)
                   then (false, RotationOverride.OverrideRotation(n, m.settings, ctx.cameraLocation), ZeroRotator)
                   else (false, viewRotation, deltaRot))
      case FollowVelocity(m) =>
        native == (false, viewRotation,
                   if VelocityToYaw.Follows(n, m.settings, ctx, m.timeSinceLastInput, viewRotation)
                   then VelocityToYaw.FollowDelta(n, m.settings, m.timeSinceLastInput, ctx.pawn.value.velocity, deltaTime, viewRotation)
                   else deltaRot)
      case _ => native == (false, viewRotation, deltaRot)
    }

    /** ProcessViewRotation: at an effective alpha of 0, false and nothing changed. Otherwise the
        concrete modifier's candidate (`native`) goes through the Blueprint event (which receives
        the candidate view rotation as view, delta and out view rotation) and the result is
        BlendViewRotation of the incoming rotations and the candidate. */
    method ProcessViewRotation(n: Numerics, ctx: ViewContext, deltaTime: real, viewRotation: Rotator, deltaRot: Rotator)
      returns (stop: bool, outViewRotation: Rotator, outDeltaRot: Rotator, ghost native: (bool, Rotator, Rotator))
      modifies variant.RotationObjects()
      ensures CurrentAlpha() == 0.0 ==>
                !stop && outViewRotation == viewRotation && outDeltaRot == deltaRot && unchanged(variant.RotationObjects())
      ensures CurrentAlpha() != 0.0 ==>
                NativeRotation(n, ctx, deltaTime, viewRotation, deltaRot, native)
                && (stop, outViewRotation, outDeltaRot)
                   == BlendViewRotation(n, CurrentAlpha(), viewRotation, deltaRot, native.0,
                                        blueprint.processViewRotationBlended(CurrentAlpha(), deltaTime, native.1, native.1, native.1, native.2))
    {
      var a := EffectiveAlpha(State(), config, !pendingDisable);
      if a == 0.0 {
        return false, viewRotation, deltaRot, (false, viewRotation, deltaRot);
      }
      var potentialViewRotation, potentialDeltaRot := viewRotation, deltaRot;
      var nativeStop := false;
      match variant {
        case OverrideRotation(m) =>
          nativeStop, potentialViewRotation, potentialDeltaRot := m.ProcessViewRotationBlended(n, ctx, deltaTime, potentialViewRotation, potentialDeltaRot);
        case FollowVelocity(m) =>
          nativeStop, potentialViewRotation, potentialDeltaRot := m.ProcessViewRotationBlended(n, ctx, deltaTime, potentialViewRotation, potentialDeltaRot);
        case _ =>
      }
      native := (nativeStop, potentialViewRotation, potentialDeltaRot);
      var bpResult :=
        blueprint.processViewRotationBlended(a, deltaTime, potentialViewRotation, potentialViewRotation, potentialViewRotation, potentialDeltaRot);
      var bpStop := bpResult.0;
      potentialViewRotation, potentialDeltaRot := bpResult.1, bpResult.2;
      stop := nativeStop;
      if !stop && bpStop {
        stop := true;
      }
      if potentialViewRotation == viewRotation && potentialDeltaRot == deltaRot {
        return false, viewRotation, deltaRot, native;
      }
      if a == 1.0 {
        return stop, potentialViewRotation, potentialDeltaRot, native;
      }
      outViewRotation := n.slerp(viewRotation, potentialViewRotation, a);
      outDeltaRot := n.slerp(deltaRot, potentialDeltaRot, a);
    }
  }
}
