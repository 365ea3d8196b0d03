/** The blend state machine of an instanced camera modifier, as pure transitions on a value.
    The class `Instanced.Modifier` holds the same fields and proves each of its methods against
    these transitions; the lemmas here state what the transitions promise over many frames. */
module Blending {
  import opened Engine
  import opened FunctionLibrary

  /** The fields of one modifier that blending reads and writes. A value below 0 in the three
      custom fields means "unset". `disabled` and `pendingDisable` are the engine base class's
      bDisabled and bPendingDisable. */
  datatype BlendState = BlendState(
    alpha: real,
    disabled: bool,
    pendingDisable: bool,
    customTargetBlendAlpha: real,
    customTargetBlendTime: real,
    alphaBeforeViewTargetTagBlendOut: real,
    markedForRemoval: bool)

  /** The blend settings a modifier is authored with. */
  datatype BlendConfig = BlendConfig(
    alphaInTime: real,
    alphaOutTime: real,
    useCustomBlendIn: bool,
    useCustomBlendOut: bool,
    customBlendIn: FloatCurve,
    customBlendOut: FloatCurve)

  /** The value the constructor gives the custom fields: "unset". */
  const Unset: real := -1.0

  /** A freshly constructed modifier: not yet blended in, nothing custom, nothing suspended. */
  const InitialBlendState: BlendState := BlendState(0.0, false, false, Unset, Unset, Unset, false)

  const DefaultBlendConfig: BlendConfig := BlendConfig(1.0, 1.0, false, false, NoRichCurve, NoRichCurve)

  /** A request to the owning camera manager to drop this modifier from its list: at once, or
      when a timer of the given delay fires. */
  datatype RemovalRequest = RemoveNow | RemoveAfter(delay: real)

  /** GetTargetAlpha: a pending disable always blends towards 0; otherwise a set custom target
      takes precedence over the default target 1. The target is never negative. */
  function TargetAlpha(s: BlendState): (r: real)
    ensures r >= 0.0
    ensures s.pendingDisable ==> r == 0.0
    ensures !s.pendingDisable && s.customTargetBlendAlpha >= 0.0 ==> r == s.customTargetBlendAlpha
    ensures !s.pendingDisable && s.customTargetBlendAlpha < 0.0 ==> r == 1.0
    ensures r == 0.0 <==> s.pendingDisable || s.customTargetBlendAlpha == 0.0
  {
    if s.pendingDisable then 0.0
    else if s.customTargetBlendAlpha >= 0.0 then s.customTargetBlendAlpha
    else 1.0
  }

  /** The blend time UpdateAlpha uses: a set custom time wins; otherwise blending towards 0 uses
      the blend-out time and any other target the blend-in time. */
  function BlendTime(s: BlendState, cfg: BlendConfig): (r: real)
    ensures s.customTargetBlendTime >= 0.0 ==> r == s.customTargetBlendTime
    ensures s.customTargetBlendTime < 0.0 && s.pendingDisable ==> r == cfg.alphaOutTime
    ensures s.customTargetBlendTime < 0.0 && !s.pendingDisable && s.customTargetBlendAlpha == 0.0 ==> r == cfg.alphaOutTime
    ensures s.customTargetBlendTime < 0.0 && !s.pendingDisable && s.customTargetBlendAlpha != 0.0 ==> r == cfg.alphaInTime
  {
    if s.customTargetBlendTime >= 0.0 then s.customTargetBlendTime
    else if TargetAlpha(s) == 0.0 then cfg.alphaOutTime
    else cfg.alphaInTime
  }

  /** One UpdateAlpha step of `alpha` towards `target`. A blend time of 0 or less snaps to the
      target; otherwise alpha moves by deltaTime / blendTime and never crosses the target. */
  function StepAlpha(alpha: real, target: real, blendTime: real, deltaTime: real): (r: real)
    ensures blendTime <= 0.0 ==> r == target
    ensures deltaTime >= 0.0 ==> Min(alpha, target) <= r <= Max(alpha, target)
    ensures deltaTime >= 0.0 ==> Abs(r - target) <= Abs(alpha - target)
    ensures blendTime > 0.0 && deltaTime >= 0.0 && r != target ==>
              Abs(r - alpha) == deltaTime / blendTime
              && Abs(r - target) == Abs(alpha - target) - deltaTime / blendTime
  {
    if blendTime <= 0.0 then target
    else if alpha > target then Max(alpha - deltaTime / blendTime, target)
    else Min(alpha + deltaTime / blendTime, target)
  }

  /** UpdateAlpha on the whole state: only alpha changes. */
  function Ticked(s: BlendState, cfg: BlendConfig, deltaTime: real): BlendState
  {
    s.(alpha := StepAlpha(s.alpha, TargetAlpha(s), BlendTime(s, cfg), deltaTime))
  }

  /** BlendToNewTargetAlpha: ignored while a disable is pending; otherwise the custom target and
      time are taken as given, without clamping. */
  function WithCustomTarget(s: BlendState, newTargetAlpha: real, blendTime: real): (r: BlendState)
    ensures s.pendingDisable ==> r == s
    ensures !s.pendingDisable ==> r.customTargetBlendAlpha == newTargetAlpha && r.customTargetBlendTime == blendTime
    ensures r.alpha == s.alpha && r.pendingDisable == s.pendingDisable && r.disabled == s.disabled
    ensures r.alphaBeforeViewTargetTagBlendOut == s.alphaBeforeViewTargetTagBlendOut && r.markedForRemoval == s.markedForRemoval
  {
    if s.pendingDisable then s
    else s.(customTargetBlendAlpha := newTargetAlpha, customTargetBlendTime := blendTime)
  }

  /** ResetBlendState: both custom fields back to unset, so the default target and times apply again. */
  function WithBlendReset(s: BlendState): (r: BlendState)
    ensures TargetAlpha(r) == (if s.pendingDisable then 0.0 else 1.0)
    ensures r.customTargetBlendTime < 0.0
    ensures r.alpha == s.alpha && r.pendingDisable == s.pendingDisable && r.disabled == s.disabled
    ensures r.alphaBeforeViewTargetTagBlendOut == s.alphaBeforeViewTargetTagBlendOut && r.markedForRemoval == s.markedForRemoval
  {
    s.(customTargetBlendAlpha := Unset, customTargetBlendTime := Unset)
  }

  /** OnViewTargetChangeStart. Leaving for an untagged target while an alpha is stored requests
      the stored alpha again over the transition's blend time and forgets it; moving to a tagged
      target stores the current alpha and requests 0. The modifier's opt-in flag is not consulted. */
  function AfterViewTargetChange(s: BlendState, newTargetHasTag: bool, blendTime: real): (r: BlendState)
    ensures s.alphaBeforeViewTargetTagBlendOut >= 0.0 && !newTargetHasTag ==>
              r == WithCustomTarget(s, s.alphaBeforeViewTargetTagBlendOut, blendTime).(alphaBeforeViewTargetTagBlendOut := Unset)
    ensures newTargetHasTag ==>
              r.alphaBeforeViewTargetTagBlendOut == s.alpha
              && (!s.pendingDisable ==> TargetAlpha(r) == 0.0 && r.customTargetBlendTime == blendTime)
    ensures s.alphaBeforeViewTargetTagBlendOut < 0.0 && !newTargetHasTag ==> r == s
    ensures r.alpha == s.alpha && r.pendingDisable == s.pendingDisable && r.disabled == s.disabled
  {
    if s.alphaBeforeViewTargetTagBlendOut >= 0.0 && !newTargetHasTag then
      WithCustomTarget(s, s.alphaBeforeViewTargetTagBlendOut, blendTime).(alphaBeforeViewTargetTagBlendOut := Unset)
    else if newTargetHasTag then
      WithCustomTarget(s.(alphaBeforeViewTargetTagBlendOut := s.alpha), 0.0, blendTime)
    else s
  }

  /** EnableModifier: clears the engine's disable flags and the removal mark. */
  function AfterEnable(s: BlendState): (r: BlendState)
    ensures !r.disabled && !r.pendingDisable && !r.markedForRemoval
    ensures !s.pendingDisable ==> TargetAlpha(r) == TargetAlpha(s)
    ensures r.alpha == s.alpha && r.customTargetBlendAlpha == s.customTargetBlendAlpha
    ensures r.customTargetBlendTime == s.customTargetBlendTime
    ensures r.alphaBeforeViewTargetTagBlendOut == s.alphaBeforeViewTargetTagBlendOut
  {
    s.(disabled := false, pendingDisable := false, markedForRemoval := false)
  }

  /** The engine's DisableModifier: an immediate disable sets bDisabled and clears the pending
      flag; otherwise a modifier that is not already disabled becomes pending-disable. */
  function AfterDisable(s: BlendState, immediate: bool): (r: BlendState)
    ensures immediate ==> r.disabled && !r.pendingDisable
    ensures !immediate && !s.disabled ==> r.pendingDisable && TargetAlpha(r) == 0.0
    ensures !immediate && s.disabled ==> r == s
    ensures r.alpha == s.alpha && r.customTargetBlendAlpha == s.customTargetBlendAlpha
    ensures r.customTargetBlendTime == s.customTargetBlendTime
    ensures r.alphaBeforeViewTargetTagBlendOut == s.alphaBeforeViewTargetTagBlendOut
    ensures r.markedForRemoval == s.markedForRemoval
  {
    if immediate then s.(disabled := true, pendingDisable := false)
    else if !s.disabled then s.(pendingDisable := true)
    else s
  }

  /** A second non-immediate disable changes nothing: marking a modifier for removal twice leaves
      the blend state as marking it once. */
  lemma DisableTwiceIsDisableOnce(s: BlendState)
    ensures AfterDisable(AfterDisable(s, false), false) == AfterDisable(s, false)
  {
  }

  /** The removal requests MarkForRemoval issues after starting the blend-out. Without a valid
      owner there are none. With one, a blend-out time of 0 or less removes at once, and the
      removal timer is armed for the blend-out time in every case, even after the immediate removal. */
  function MarkForRemovalRequests(cfg: BlendConfig, ownerValid: bool): (r: seq<RemovalRequest>)
    ensures !ownerValid ==> r == []
    ensures ownerValid ==> |r| > 0 && r[|r| - 1] == RemoveAfter(cfg.alphaOutTime)
    ensures ownerValid ==> (RemoveNow in r <==> cfg.alphaOutTime <= 0.0)
  {
    if !ownerValid then []
    else if cfg.alphaOutTime <= 0.0 then [RemoveNow, RemoveAfter(cfg.alphaOutTime)]
    else [RemoveAfter(cfg.alphaOutTime)]
  }

  /** GetCustomBlendAlpha: alpha itself when fully in or fully out; otherwise the blend-in curve
      when blending in and it is enabled, else the blend-out curve when that is enabled, else alpha.
      The curves are read at the configured blend times, not at alpha. */
  function EffectiveAlpha(s: BlendState, cfg: BlendConfig, blendIn: bool): (r: real)
    ensures s.alpha == 0.0 || s.alpha == 1.0 ==> r == s.alpha
    ensures !(blendIn && cfg.useCustomBlendIn) && !cfg.useCustomBlendOut ==> r == s.alpha
    ensures s.alpha != 0.0 && s.alpha != 1.0 && blendIn && cfg.useCustomBlendIn ==>
              r == EvaluateRuntimeFloatCurve(cfg.customBlendIn, cfg.alphaInTime)
    ensures s.alpha != 0.0 && s.alpha != 1.0 && !(blendIn && cfg.useCustomBlendIn) && cfg.useCustomBlendOut ==>
              r == EvaluateRuntimeFloatCurve(cfg.customBlendOut, cfg.alphaOutTime)
  {
    if s.alpha == 0.0 || s.alpha == 1.0 then s.alpha
    else if blendIn && cfg.useCustomBlendIn then EvaluateRuntimeFloatCurve(cfg.customBlendIn, cfg.alphaInTime)
    else if cfg.useCustomBlendOut then EvaluateRuntimeFloatCurve(cfg.customBlendOut, cfg.alphaOutTime)
    else s.alpha
  }

  // ---------------------------------------------------------------------------------------
  // Over many frames

  function Sum(s: seq<real>): real
  {
    if |s| == 0 then 0.0 else s[0] + Sum(s[1..])
  }

  predicate AllNonNegative(s: seq<real>)
  {
    forall i :: 0 <= i < |s| ==> s[i] >= 0.0
  }

  lemma NonNegativeTail(s: seq<real>)
    requires |s| > 0 && AllNonNegative(s)
    ensures AllNonNegative(s[1..]) && Sum(s) == s[0] + Sum(s[1..])
  {
  }

  /** Alpha after a run of UpdateAlpha steps towards a fixed target with a fixed blend time. */
  function AlphaAfterSteps(alpha: real, target: real, blendTime: real, deltaTimes: seq<real>): real
    decreases |deltaTimes|
  {
    if |deltaTimes| == 0 then alpha
    else AlphaAfterSteps(StepAlpha(alpha, target, blendTime, deltaTimes[0]), target, blendTime, deltaTimes[1..])
  }

  /** UpdateAlpha applied once per frame with the given frame times. */
  function TickedMany(s: BlendState, cfg: BlendConfig, deltaTimes: seq<real>): BlendState
    decreases |deltaTimes|
  {
    if |deltaTimes| == 0 then s else TickedMany(Ticked(s, cfg, deltaTimes[0]), cfg, deltaTimes[1..])
  }

  /** The engine's per-frame ModifyCamera on the blend state: UpdateAlpha, then a pending disable
      whose alpha has come down to 0 becomes a full disable. */
  function Framed(s: BlendState, cfg: BlendConfig, deltaTime: real): (r: BlendState)
    ensures r.alpha == Ticked(s, cfg, deltaTime).alpha
    ensures r.pendingDisable ==> r.alpha > 0.0
    ensures s.pendingDisable && r.alpha <= 0.0 ==> r.disabled && !r.pendingDisable
    ensures !s.pendingDisable ==> r == Ticked(s, cfg, deltaTime)
  {
    var t := Ticked(s, cfg, deltaTime);
    if t.pendingDisable && t.alpha <= 0.0 then AfterDisable(t, true) else t
  }

  /** The frames the camera manager runs a modifier for: one Framed step per frame time, none
      once the modifier is disabled (the manager skips disabled modifiers). */
  function FramedMany(s: BlendState, cfg: BlendConfig, deltaTimes: seq<real>): BlendState
    decreases |deltaTimes|
  {
    if |deltaTimes| == 0 || s.disabled then s else FramedMany(Framed(s, cfg, deltaTimes[0]), cfg, deltaTimes[1..])
  }

  /** Once at its target, alpha stays there. */
  lemma {:induction false} StepsStayAtTarget(target: real, blendTime: real, deltaTimes: seq<real>)
    requires AllNonNegative(deltaTimes)
    ensures AlphaAfterSteps(target, target, blendTime, deltaTimes) == target
    decreases |deltaTimes|
  {
    if |deltaTimes| > 0 {
      assert StepAlpha(target, target, blendTime, deltaTimes[0]) == target;
      NonNegativeTail(deltaTimes);
      StepsStayAtTarget(target, blendTime, deltaTimes[1..]);
    }
  }

  /** Over any run of frames with non-negative frame times alpha never overshoots: it stays
      between where it started and the target, and its distance to the target never grows. */
  lemma {:induction false} StepsNeverOvershoot(alpha: real, target: real, blendTime: real, deltaTimes: seq<real>)
    requires AllNonNegative(deltaTimes)
    ensures var r := AlphaAfterSteps(alpha, target, blendTime, deltaTimes);
            Min(alpha, target) <= r <= Max(alpha, target) && Abs(r - target) <= Abs(alpha - target)
    decreases |deltaTimes|
  {
    if |deltaTimes| > 0 {
      var next := StepAlpha(alpha, target, blendTime, deltaTimes[0]);
      NonNegativeTail(deltaTimes);
      StepsNeverOvershoot(next, target, blendTime, deltaTimes[1..]);
    }
  }

  /** Alpha reaches its target exactly once the frame times add up to the blend time scaled by
      the distance still to go (a full blend from 0 to 1 takes the whole blend time). */
  lemma {:induction false} StepsReachTarget(alpha: real, target: real, blendTime: real, deltaTimes: seq<real>)
    requires blendTime > 0.0
    requires AllNonNegative(deltaTimes)
    requires Sum(deltaTimes) >= blendTime * Abs(alpha - target)
    ensures AlphaAfterSteps(alpha, target, blendTime, deltaTimes) == target
    decreases |deltaTimes|
  {
    if |deltaTimes| == 0 {
      assert blendTime * Abs(alpha - target) <= 0.0;
      assert Abs(alpha - target) <= 0.0;
    } else {
      var dt := deltaTimes[0];
      var next := StepAlpha(alpha, target, blendTime, dt);
      if next == target {
        NonNegativeTail(deltaTimes);
        StepsStayAtTarget(target, blendTime, deltaTimes[1..]);
      } else {
        assert Abs(next - target) == Abs(alpha - target) - dt / blendTime;
        assert blendTime * Abs(next - target) == blendTime * Abs(alpha - target) - dt by {
          assert blendTime * (dt / blendTime) == dt;
        }
        NonNegativeTail(deltaTimes);
        StepsReachTarget(next, target, blendTime, deltaTimes[1..]);
      }
    }
  }

  /** Ticking changes only alpha, so the target and blend time stay fixed while frames pass, and
      the alpha after many frames is the fixed-target run above. */
  lemma {:induction false} TickedManyIsSteps(s: BlendState, cfg: BlendConfig, deltaTimes: seq<real>)
    ensures TickedMany(s, cfg, deltaTimes) == s.(alpha := AlphaAfterSteps(s.alpha, TargetAlpha(s), BlendTime(s, cfg), deltaTimes))
    decreases |deltaTimes|
  {
    if |deltaTimes| > 0 {
      var next := Ticked(s, cfg, deltaTimes[0]);
      assert TargetAlpha(next) == TargetAlpha(s) && BlendTime(next, cfg) == BlendTime(s, cfg);
      TickedManyIsSteps(next, cfg, deltaTimes[1..]);
    }
  }

  /** A pending disable completes: a modifier blending out from a non-negative alpha over a
      positive blend time is fully disabled, at alpha 0, once the frame times add up to the
      blend time scaled by its alpha (and at least one frame has run). */
  lemma {:induction false} PendingDisableCompletes(s: BlendState, cfg: BlendConfig, deltaTimes: seq<real>)
    requires s.pendingDisable && !s.disabled && s.alpha >= 0.0 && BlendTime(s, cfg) > 0.0
    requires |deltaTimes| > 0 && AllNonNegative(deltaTimes) && Sum(deltaTimes) >= BlendTime(s, cfg) * s.alpha
    ensures var r := FramedMany(s, cfg, deltaTimes); r.disabled && !r.pendingDisable && r.alpha == 0.0
    decreases |deltaTimes|
  {
    var bt := BlendTime(s, cfg);
    var dt := deltaTimes[0];
    var t := Ticked(s, cfg, dt);
    NonNegativeTail(deltaTimes);
    assert 0.0 <= t.alpha <= s.alpha;
    if t.alpha > 0.0 {
      assert Framed(s, cfg, dt) == t;
      assert BlendTime(t, cfg) == bt;
      assert t.alpha == s.alpha - dt / bt;
      assert bt * t.alpha == bt * s.alpha - dt by {
        assert bt * (dt / bt) == dt;
      }
      assert Sum(deltaTimes[1..]) >= bt * t.alpha > 0.0;
      PendingDisableCompletes(t, cfg, deltaTimes[1..]);
    }
  }

  /** With alpha and target in [0, 1] and non-negative frame times, alpha stays in [0, 1]. A custom
      target above 1 is not clamped by BlendToNewTargetAlpha, hence the condition on the target. */
  lemma AlphaStaysInUnitRange(s: BlendState, cfg: BlendConfig, deltaTimes: seq<real>)
    requires 0.0 <= s.alpha <= 1.0 && TargetAlpha(s) <= 1.0
    requires AllNonNegative(deltaTimes)
    ensures 0.0 <= TickedMany(s, cfg, deltaTimes).alpha <= 1.0
  {
    TickedManyIsSteps(s, cfg, deltaTimes);
    StepsNeverOvershoot(s.alpha, TargetAlpha(s), BlendTime(s, cfg), deltaTimes);
  }

  /** A modifier enabled with a blend-in time T > 0 and nothing custom reaches full strength
      from 0 once T seconds of frames have passed. */
  lemma BlendInCompletes(s: BlendState, cfg: BlendConfig, deltaTimes: seq<real>)
    requires s.alpha == 0.0 && !s.pendingDisable && s.customTargetBlendAlpha < 0.0 && s.customTargetBlendTime < 0.0
    requires cfg.alphaInTime > 0.0
    requires AllNonNegative(deltaTimes) && Sum(deltaTimes) >= cfg.alphaInTime
    ensures TickedMany(s, cfg, deltaTimes).alpha == 1.0
  {
    TickedManyIsSteps(s, cfg, deltaTimes);
    StepsReachTarget(s.alpha, 1.0, cfg.alphaInTime, deltaTimes);
  }

  /** Suspension for a tagged view target and resumption: moving to a tagged target requests 0;
      however many frames pass while it is the view target, moving back to an untagged target
      requests the alpha the modifier had when it was suspended, over the new blend time, and
      nothing stays stored. */
  lemma SuspendThenResume(s: BlendState, cfg: BlendConfig, blendOutTime: real, deltaTimes: seq<real>, blendInTime: real)
    requires !s.pendingDisable && s.alpha >= 0.0
    ensures var suspended := AfterViewTargetChange(s, true, blendOutTime);
            var waited := TickedMany(suspended, cfg, deltaTimes);
            var resumed := AfterViewTargetChange(waited, false, blendInTime);
            TargetAlpha(suspended) == 0.0 && BlendTime(suspended, cfg) == (if blendOutTime >= 0.0 then blendOutTime else cfg.alphaOutTime)
            && TargetAlpha(resumed) == s.alpha && resumed.customTargetBlendTime == blendInTime
            && resumed.alphaBeforeViewTargetTagBlendOut == Unset
  {
    var suspended := AfterViewTargetChange(s, true, blendOutTime);
    TickedManyIsSteps(suspended, cfg, deltaTimes);
  }

  /** The scenario of a modifier at alpha 0.8 watching a sequencer tag: a tagged target with a
      1 second transition blends it to 0 within that second, and returning to an untagged target
      requests 0.8 again. */
  lemma SequencerScenario(s: BlendState, cfg: BlendConfig, deltaTimes: seq<real>, returnBlendTime: real)
    requires s.alpha == 0.8 && !s.pendingDisable
    requires AllNonNegative(deltaTimes) && Sum(deltaTimes) >= 1.0
    ensures var waited := TickedMany(AfterViewTargetChange(s, true, 1.0), cfg, deltaTimes);
            waited.alpha == 0.0 && TargetAlpha(AfterViewTargetChange(waited, false, returnBlendTime)) == 0.8
  {
    var suspended := AfterViewTargetChange(s, true, 1.0);
    TickedManyIsSteps(suspended, cfg, deltaTimes);
    StepsReachTarget(0.8, 0.0, 1.0, deltaTimes);
  }

  /** Only one suspension is tracked: a second tagged target overwrites the stored alpha with the
      alpha the modifier has at that moment. */
  lemma SecondSuspensionOverwrites(s: BlendState, blendTime1: real, later: real, blendTime2: real)
    ensures var first := AfterViewTargetChange(s, true, blendTime1);
            AfterViewTargetChange(first.(alpha := later), true, blendTime2).alphaBeforeViewTargetTagBlendOut == later
  {
  }

  /** While a disable is pending nothing overrides the blend-out: a custom target is ignored, and a
      tagged view target still records the alpha but leaves the target at 0. */
  lemma PendingDisableWins(s: BlendState, a: real, t: real, hasTag: bool, bt: real)
    requires !s.disabled
    ensures var p := AfterDisable(s, false);
            TargetAlpha(WithCustomTarget(p, a, t)) == 0.0
            && TargetAlpha(AfterViewTargetChange(p, hasTag, bt)) == 0.0
  {
  }

  /** When a custom blend curve applies, the effective alpha is the same for every alpha strictly
      inside (0, 1): the curve is read at the configured blend time, not at alpha. */
  lemma CustomCurveIgnoresAlpha(s1: BlendState, s2: BlendState, cfg: BlendConfig, blendIn: bool)
    requires s1.alpha != 0.0 && s1.alpha != 1.0 && s2.alpha != 0.0 && s2.alpha != 1.0
    requires (blendIn && cfg.useCustomBlendIn) || cfg.useCustomBlendOut
    ensures EffectiveAlpha(s1, cfg, blendIn) == EffectiveAlpha(s2, cfg, blendIn)
  {
  }
}
