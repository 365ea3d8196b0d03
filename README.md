# MCD camera dynamics core, in Dafny

This project models the runtime core of the MCD ("Camera Dynamics") camera plugin for Unreal Engine and proves properties of the model. The core has three parts.

- **The instanced camera modifier** (`UCDCameraModifierInstanced`). It is the base class of every modifier a camera data asset carries, and it has:
  - a blend state machine: alpha, custom target alpha and time, pending disable, and the alpha stored while a tagged view target is active;
  - removal marking;
  - the two wrappers, ModifyCamera and ProcessViewRotation. These run the concrete modifier and then blend its output with the incoming view by the effective alpha.
- **The player camera manager** (`ACDPlayerCameraManager`). It:
  - turns camera data assets into runtime modifiers, with batch priorities;
  - removes them again, one data asset or all of them;
  - looks modifiers up by class and gameplay tags;
  - runs the view rotation through its modifier stack until one modifier asks to stop, then composes the delta, clears it, and normalises or clamps the view.
- **The helpers and the concrete modifiers**:
  - the configuration structs (source position, offset position, axis influence);
  - the function library (guarded interpolation, axis scaling, curve evaluation);
  - eight modifiers: FOV adjust, FOV from pitch, base position, position offset, forward distance, dynamic Z, rotation override, and velocity-to-yaw follow.

## Layout

| file | module | what it holds |
|---|---|---|
| `engine.dfy` | `Engine` | vectors, rotators, camera pose, runtime curves, and `Numerics`: the engine maths as a record of function values |
| `data_types.dfy` | `DataTypes` | `FCameraSourcePositionData`, `FCameraOffsetPositionData`, `FCDCameraAxisData`, and the pawn and view context a modifier queries |
| `function_library.dfy` | `FunctionLibrary` | `UCameraDynamicsFunctionLibrary` |
| `blending.dfy` | `Blending` | the blend state machine as pure transitions on a `BlendState` value, with the lemmas about many frames |
| `instanced.dfy` | `Instanced` | the class `Modifier` (each method proved against a `Blending` transition) and the class `CameraData` |
| `fov_adjust.dfy` … `velocity_to_yaw.dfy` | one module each | the concrete modifiers, each a class with the fields the source updates every frame |
| `camera_manager.dfy` | `Manager` | the class `PlayerCameraManager` and the functions its contracts use |

## Modelling choices

- **Numbers.** Floating-point values are `real`. The engine maths the core calls but does not define are fields of `Engine.Numerics`: FInterpTo, VInterpTo, RInterpTo, quaternion slerp, rotation matrices, vector-to-rotator, Acos, orientation-aware composition, Normalize and the view-axis clamp. Every operation that needs them takes a `Numerics` argument, so every contract holds for any implementation of them.
- **Concrete modifiers.** Each modifier instance has a `variant`, a datatype naming which concrete modifier it is and holding the object with that modifier's own fields. ModifyCamera and ProcessViewRotation dispatch on it. Object duplication is the `Duplicate` constructor, which copies the settings and blend state and makes a fresh copy of the concrete part.
- **Blueprint events.** These are function values in `BlueprintHooks`. `NoBlueprint` stands for an event that is not implemented.
- **Removal.** MarkForRemoval does not touch the manager's list. It appends the removals it asks for (`RemoveNow`, `RemoveAfter(delay)`) to the modifier's `removalRequests`.
- **Failed duplicates.** A duplicate that comes out invalid is named by the `failing` slot set passed to AddCameraData.
- **Engine base class.** UCameraModifier's enable and disable are written out from their engine behaviour: `DisableModifier`, `AfterEnable` and `AfterDisable`. AddCameraModifierToList is the engine's insertion before the first entry whose priority is equal or greater, so a newcomer goes ahead of the entries that share its priority. The engine's per-frame ModifyCamera steps alpha and, once a pending disable has blended alpha down to 0, disables the modifier fully; a disabled modifier is not run again.

## Model

| member | source | states |
|---|---|---|
| Blending.TargetAlpha | Plugins/MCD/Source/CameraDynamics/Private/Modifiers/CDCameraModifier_Instanced.cpp:212-220 | A pending disable gives target 0. Otherwise a custom target that is set (0 or more) wins over the default 1. The target is never negative, and it is 0 exactly when a disable is pending or the custom target is 0 |
| Blending.BlendTime | Plugins/MCD/Source/CameraDynamics/Private/Modifiers/CDCameraModifier_Instanced.cpp:227-230 | A custom time that is set wins. Otherwise the alpha-out time applies when the target is 0 (pending disable or custom target 0), and the alpha-in time for any other target |
| Blending.StepAlpha | Plugins/MCD/Source/CameraDynamics/Private/Modifiers/CDCameraModifier_Instanced.cpp:232-246 | A blend time of 0 or less snaps alpha to the target. For a non-negative frame time the new alpha lies between the old alpha and the target, and its distance to the target never grows. A step that does not reach the target moves exactly deltaTime / blendTime |
| Blending.WithCustomTarget | Plugins/MCD/Source/CameraDynamics/Private/Modifiers/CDCameraModifier_Instanced.cpp:179-184 | Ignored while a disable is pending. Otherwise the custom target and time are taken as given, unclamped, and every other field is kept |
| Blending.WithBlendReset | Plugins/MCD/Source/CameraDynamics/Private/Modifiers/CDCameraModifier_Instanced.cpp:186-190 | The target returns to the default (1, or 0 while pending disable) and the custom time to unset. Every other field is kept |
| Blending.AfterViewTargetChange | Plugins/MCD/Source/CameraDynamics/Private/Modifiers/CDCameraModifier_Instanced.cpp:192-210 | Untagged new target with a stored alpha: the stored alpha is requested again over the transition time, and the store is cleared. Tagged new target: the current alpha is stored and target 0 is requested (unless a disable is pending). Otherwise nothing changes. Alpha and the disable flags never change |
| Blending.AfterEnable | Plugins/MCD/Source/CameraDynamics/Private/Modifiers/CDCameraModifier_Instanced.cpp:53-57 | Disabled, pending disable and the removal mark are cleared. The target is unchanged unless a disable was pending. Alpha and the custom fields are kept |
| Blending.AfterDisable | Plugins/MCD/Source/CameraDynamics/Private/Modifiers/CDCameraModifier_Instanced.cpp:150 | The engine's DisableModifier. Immediate: disabled and not pending. Otherwise a modifier that is not disabled becomes pending, with target 0, and a disabled one is unchanged |
| Blending.DisableTwiceIsDisableOnce | Plugins/MCD/Source/CameraDynamics/Private/Modifiers/CDCameraModifier_Instanced.cpp:148-150 | A second MarkForRemoval leaves the blend state as the first left it |
| Blending.MarkForRemovalRequests | Plugins/MCD/Source/CameraDynamics/Private/Modifiers/CDCameraModifier_Instanced.cpp:151-163 | Without a valid owner there are no requests. With one, the last request is the timer for the alpha-out time, and an immediate removal is requested exactly when the alpha-out time is 0 or less |
| Blending.EffectiveAlpha | Plugins/MCD/Source/CameraDynamics/Private/Modifiers/CDCameraModifier_Instanced.cpp:249-257 | Alpha itself at exactly 0 or 1, and whenever no custom curve applies. Otherwise the blend-in curve (when blending in and enabled), else the blend-out curve, each read at its configured blend time |
| Blending.StepsStayAtTarget | Plugins/MCD/Source/CameraDynamics/Private/Modifiers/CDCameraModifier_Instanced.cpp:232-246 | Once alpha is at its target, no number of frames moves it |
| Blending.StepsNeverOvershoot | Plugins/MCD/Source/CameraDynamics/Private/Modifiers/CDCameraModifier_Instanced.cpp:237-246 | Over any run of non-negative frame times, alpha stays between its start and the target and never gets further from the target |
| Blending.StepsReachTarget | Plugins/MCD/Source/CameraDynamics/Private/Modifiers/CDCameraModifier_Instanced.cpp:237-246 | Alpha reaches the target exactly once the frame times add up to the blend time times the distance still to go |
| Blending.TickedManyIsSteps | Plugins/MCD/Source/CameraDynamics/Private/Modifiers/CDCameraModifier_Instanced.cpp:223-246 | Frame after frame only alpha changes: the target and blend time stay fixed, and alpha follows the fixed-target run of steps |
| Blending.Framed | Plugins/MCD/Source/CameraDynamics/Private/Modifiers/CDCameraModifier_Instanced.cpp:134-146 | One frame changes alpha exactly as UpdateAlpha does. A pending disable whose alpha has come down to 0 ends fully disabled and no longer pending, and a disable is still pending only while alpha is above 0. Without a pending disable a frame is UpdateAlpha alone |
| Blending.PendingDisableCompletes | Plugins/MCD/Source/CameraDynamics/Private/Modifiers/CDCameraModifier_Instanced.cpp:148-150 | A blend-out started from a non-negative alpha with a positive blend time ends, after frames adding up to blend time × alpha, with the modifier fully disabled, no longer pending and at alpha 0 |
| Blending.AlphaStaysInUnitRange | Plugins/MCD/Source/CameraDynamics/Private/Modifiers/CDCameraModifier_Instanced.cpp:223-246 | With alpha and target in [0, 1] and non-negative frame times, alpha stays in [0, 1] |
| Blending.BlendInCompletes | Plugins/MCD/Source/CameraDynamics/Private/Modifiers/CDCameraModifier_Instanced.cpp:223-246 | A modifier at alpha 0 with nothing custom reaches alpha 1 once frames adding up to its blend-in time have passed |
| Blending.SuspendThenResume | Plugins/MCD/Source/CameraDynamics/Private/Modifiers/CDCameraModifier_Instanced.cpp:192-210 | A tagged view target requests 0 over its transition. However many frames pass, returning to an untagged target requests the suspended alpha again and leaves nothing stored |
| Blending.SequencerScenario | Plugins/MCD/Source/CameraDynamics/Private/Modifiers/CDCameraModifier_Instanced.cpp:192-210 | At alpha 0.8, a tagged target with a 1 second transition blends the modifier to 0 within that second, and returning requests 0.8 |
| Blending.SecondSuspensionOverwrites | Plugins/MCD/Source/CameraDynamics/Private/Modifiers/CDCameraModifier_Instanced.cpp:205-209 | A second tagged target overwrites the stored alpha with the alpha at that moment |
| Blending.PendingDisableWins | Plugins/MCD/Source/CameraDynamics/Private/Modifiers/CDCameraModifier_Instanced.cpp:179-184 | While a disable is pending, neither a custom target nor a tagged view target moves the target away from 0 |
| Blending.CustomCurveIgnoresAlpha | Plugins/MCD/Source/CameraDynamics/Private/Modifiers/CDCameraModifier_Instanced.cpp:252-255 | When a custom curve applies, every alpha strictly inside (0, 1) gives the same effective alpha |
| Instanced.CopyVariant | Plugins/MCD/Source/CameraDynamics/Private/CDPlayerCameraManager.cpp:41 | The duplicate's concrete part is a fresh object of the same kind |
| Instanced.BlendPose | Plugins/MCD/Source/CameraDynamics/Private/Modifiers/CDCameraModifier_Instanced.cpp:76-81 | At alpha 1 the candidate pose is returned unchanged |
| Instanced.FullAlphaSkipsNothing | Plugins/MCD/Source/CameraDynamics/Private/Modifiers/CDCameraModifier_Instanced.cpp:76-81 | The alpha-1 fast path equals the interpolation at alpha 1 whenever slerp reaches its end point |
| Instanced.BlendedPoseBetween | Plugins/MCD/Source/CameraDynamics/Private/Modifiers/CDCameraModifier_Instanced.cpp:79-81 | For alpha in [0, 1] the blended FOV and each location axis lie between the incoming view and the candidate. Alpha 0 keeps the incoming location and FOV |
| Instanced.BlendViewRotation | Plugins/MCD/Source/CameraDynamics/Private/Modifiers/CDCameraModifier_Instanced.cpp:106-125 | Candidates equal to the incoming rotations give false and the incoming rotations, even if a stop was asked. Otherwise the stop flag is the OR of the native and Blueprint flags. At alpha 1 the candidates are taken as they are |
| Instanced.QuietModifierNeverStops | Plugins/MCD/Source/CameraDynamics/Private/Modifiers/CDCameraModifier_Instanced.cpp:108-112 | A modifier with no Blueprint event whose native part returns the rotations unchanged never stops the chain, even when its native part asks to |
| Instanced.FullAlphaRotationSkipsNothing | Plugins/MCD/Source/CameraDynamics/Private/Modifiers/CDCameraModifier_Instanced.cpp:114-123 | The alpha-1 fast path equals the slerp at alpha 1 whenever slerp reaches its end point |
| Instanced.CameraData.constructor | Plugins/MCD/Source/CameraDynamics/Public/CDCameraStack.h:15-35 | A camera data asset holds its template slots in order |
| Instanced.Modifier.constructor | Plugins/MCD/Source/CameraDynamics/Private/Modifiers/CDCameraModifier_Instanced.cpp:18-43 | A new modifier has alpha 0, nothing custom, nothing stored or marked, no owner and no data source |
| Instanced.Modifier.Duplicate | Plugins/MCD/Source/CameraDynamics/Private/CDPlayerCameraManager.cpp:41-43 | The duplicate has the template's settings and blend state and a fresh concrete part. It has no owner, data source, runtime modifier or removal requests yet, and it has the priority the manager gives it |
| Instanced.Modifier.UpdateAlpha | Plugins/MCD/Source/CameraDynamics/Private/Modifiers/CDCameraModifier_Instanced.cpp:223-247 | The new blend state is the one-frame transition of the old |
| Instanced.Modifier.BlendToNewTargetAlpha | Plugins/MCD/Source/CameraDynamics/Private/Modifiers/CDCameraModifier_Instanced.cpp:179-184 | The new blend state is WithCustomTarget of the old |
| Instanced.Modifier.ResetBlendState | Plugins/MCD/Source/CameraDynamics/Private/Modifiers/CDCameraModifier_Instanced.cpp:186-190 | The new blend state is WithBlendReset of the old |
| Instanced.Modifier.OnViewTargetChangeStart | Plugins/MCD/Source/CameraDynamics/Private/Modifiers/CDCameraModifier_Instanced.cpp:192-210 | The new blend state is AfterViewTargetChange of the old, where the new target is tagged when its tags contain the modifier's blend-out tag. The opt-in flag is not consulted |
| Instanced.Modifier.EnableModifier | Plugins/MCD/Source/CameraDynamics/Private/Modifiers/CDCameraModifier_Instanced.cpp:53-57 | The new blend state is AfterEnable of the old |
| Instanced.Modifier.DisableModifier | Plugins/MCD/Source/CameraDynamics/Private/Modifiers/CDCameraModifier_Instanced.cpp:150 | The new blend state is AfterDisable of the old |
| Instanced.Modifier.MarkForRemoval | Plugins/MCD/Source/CameraDynamics/Private/Modifiers/CDCameraModifier_Instanced.cpp:148-164 | Starts the blend-out (a non-immediate disable) and appends exactly MarkForRemovalRequests to the requests issued so far |
| Instanced.Modifier.AddedToCamera | Plugins/MCD/Source/CameraDynamics/Private/Modifiers/CDCameraModifier_Instanced.cpp:45-51 | The owner is set and the modifier enabled. Then the FOV adjust, distance and dynamic Z modifiers reset their own fields, and every other concrete part is untouched |
| Instanced.Modifier.ModifyCamera | Plugins/MCD/Source/CameraDynamics/Private/Modifiers/CDCameraModifier_Instanced.cpp:59-82 | The base class's Blueprint event runs first. At effective alpha 0 its result is returned and the concrete part is untouched. Otherwise the result is the concrete modifier's pose, refined by the Blueprint event and blended with the incoming view by the effective alpha |
| Instanced.Modifier.ModifyCameraFrame | Plugins/MCD/Source/CameraDynamics/Private/Modifiers/CDCameraModifier_Instanced.cpp:134-146 | The blend state becomes Framed of the old one: one alpha step, then a pending disable at alpha 0 becomes a full disable. The per-pose form runs on the current pose with the effective alpha of the stepped state, and later modifiers are never stopped |
| Instanced.Modifier.ProcessViewRotation | Plugins/MCD/Source/CameraDynamics/Private/Modifiers/CDCameraModifier_Instanced.cpp:89-126 | At effective alpha 0: false and the rotations unchanged. Otherwise the concrete modifier's candidate, passed through the Blueprint event, is combined with the incoming rotations by BlendViewRotation. For the velocity follow the candidate delta is FollowDelta exactly when Follows holds and the incoming delta otherwise; for the rotation override it is the override and a zero delta |
| Manager.SlotIndex | Plugins/MCD/Source/CameraDynamics/Private/CDPlayerCameraManager.cpp:34-61 | The running index at a template slot never exceeds the slot's position |
| Manager.SlotIndexIsPosition | Plugins/MCD/Source/CameraDynamics/Private/CDPlayerCameraManager.cpp:52-61 | Without failed duplicates, a slot's index is its position, empty slots included |
| Manager.SlotIndexIncreases | Plugins/MCD/Source/CameraDynamics/Private/CDPlayerCameraManager.cpp:52-61 | After an empty slot or a valid duplicate, every later slot's index is strictly larger, so the batch priorities of one call differ |
| Manager.FailedDuplicateSharesIndex | Plugins/MCD/Source/CameraDynamics/Private/CDPlayerCameraManager.cpp:45-49 | A failed duplicate does not advance the index |
| Manager.ClonedSlots | Plugins/MCD/Source/CameraDynamics/Private/CDPlayerCameraManager.cpp:36-60 | The slots that give a runtime modifier are non-empty slots whose duplicate is valid, in order |
| Manager.InsertKeepsSorted | Plugins/MCD/Source/CameraDynamics/Private/CDPlayerCameraManager.cpp:59 | Inserting after every entry of no greater priority and before an entry of no smaller priority keeps the list ordered by priority |
| Manager.InsertByPriorityFacts | Plugins/MCD/Source/CameraDynamics/Private/CDPlayerCameraManager.cpp:59 | That insertion keeps the order and adds exactly the one entry |
| Manager.RuntimeModifiers | Plugins/MCD/Source/CameraDynamics/Private/CDPlayerCameraManager.cpp:75-85 | The runtime modifiers of the templates, never null |
| Manager.MarkTargets | Plugins/MCD/Source/CameraDynamics/Private/CDPlayerCameraManager.cpp:75-85 | The modifiers RemoveCameraData may mark, never null |
| Manager.Runtimes | Plugins/MCD/Source/CameraDynamics/Private/CDPlayerCameraManager.cpp:75-81 | Slot by slot, the template's runtime modifier, or null for an empty slot |
| Manager.MarkedIffListedRuntime | Plugins/MCD/Source/CameraDynamics/Private/CDPlayerCameraManager.cpp:75-86 | A modifier is marked at all exactly when it is in the modifier list and is the runtime modifier of a valid template |
| Manager.AllMarkTargets | Plugins/MCD/Source/CameraDynamics/Private/CDPlayerCameraManager.cpp:96-104 | Contains the mark targets of every data asset in the list |
| Manager.MarkedInStep | Plugins/MCD/Source/CameraDynamics/Private/CDPlayerCameraManager.cpp:99-103 | Marked by the first i+1 data assets exactly when marked by the first i or by the (i+1)-th |
| Manager.BlendingOutChains | Plugins/MCD/Source/CameraDynamics/Private/CDPlayerCameraManager.cpp:99-103 | Over two removals in a row, a modifier marked by either is blending out from where it started, and one marked by neither has at most started to |
| Manager.RemoveFirstCount | Plugins/MCD/Source/CameraDynamics/Private/CDPlayerCameraManager.cpp:88 | RemoveSingle removes one occurrence when there is one, and nothing otherwise |
| Manager.RemoveFirstAt | Plugins/MCD/Source/CameraDynamics/Private/CDPlayerCameraManager.cpp:88 | Only the first occurrence goes: entries before it stay, and later entries move down by one |
| Manager.FirstMatch | Plugins/MCD/Source/CameraDynamics/Private/CDPlayerCameraManager.cpp:106-130 | Null exactly when nothing matches. Otherwise a matching entry with no match before it |
| Manager.AllMatchesMembers | Plugins/MCD/Source/CameraDynamics/Private/CDPlayerCameraManager.cpp:132-160 | The result holds exactly the list's matching modifiers |
| Manager.FirstMatchIsFirstOfAll | Plugins/MCD/Source/CameraDynamics/Private/CDPlayerCameraManager.cpp:106-160 | GetActiveModifierOfClass returns the first of what GetAllActiveModifiersOfClass returns, or null when that is empty |
| Manager.FinishViewRotation | Plugins/MCD/Source/CameraDynamics/Private/CDPlayerCameraManager.cpp:177-208 | The delta is composed onto the view (orientation-aware or added). Under head tracking the result is normalised. Otherwise each axis is clamped to its own limits |
| Manager.DeltaAppliedOnce | Plugins/MCD/Source/CameraDynamics/Private/CDPlayerCameraManager.cpp:188-192 | Without orientation-aware composition the delta is applied exactly once: finishing with it equals finishing the moved view with a zero delta |
| Manager.HeadTrackingIgnoresLimits | Plugins/MCD/Source/CameraDynamics/Private/CDPlayerCameraManager.cpp:194-208 | Under head tracking the view limits have no effect |
| Manager.FollowDeltaReachesStep | Plugins/MCD/Source/CameraDynamics/Private/Modifiers/CDCameraModifier_Follow_VelocityToYaw.cpp:86-87 | For a following frame, composing the written delta onto the view without orientation awareness finishes exactly as the RInterpTo step towards the follow target at the follow speed does |
| Manager.EnabledUpTo | Plugins/MCD/Source/CameraDynamics/Private/CDPlayerCameraManager.cpp:165-175 | The positions consulted are exactly those holding a modifier that is present and not disabled |
| Manager.PlayerCameraManager.constructor | Plugins/MCD/Source/CameraDynamics/Private/CDPlayerCameraManager.cpp:14-18 | A new manager has no modifiers and no camera data, and orientation-aware composition is on |
| Manager.PlayerCameraManager.AddCameraModifierToList | Plugins/MCD/Source/CameraDynamics/Private/CDPlayerCameraManager.cpp:59 | The modifier joins the list exactly once, the priority order is kept, and the modifier is told it was added (owner set, enabled) |
| Manager.PlayerCameraManager.InsertByPriority | Plugins/MCD/Source/CameraDynamics/Private/CDPlayerCameraManager.cpp:59 | Inserts at the position whose earlier entries all have a strictly smaller priority and whose entry has an equal or greater one (or at the end): ahead of the entries sharing its priority, keeping the order and adding exactly the one entry |
| Manager.PlayerCameraManager.AddDuplicate | Plugins/MCD/Source/CameraDynamics/Private/CDPlayerCameraManager.cpp:38-59 | The duplicate records the data as its source and becomes the template's runtime modifier. A valid duplicate gets the batch priority unless it uses a custom one, and joins the list. An invalid one leaves the list as it was |
| Manager.PlayerCameraManager.AddCameraData | Plugins/MCD/Source/CameraDynamics/Private/CDPlayerCameraManager.cpp:27-67 | Null data or data without modifiers changes nothing. Otherwise the list gains exactly the valid duplicates of the cloned slots, each with the priority the modifier count before the call plus the slot's running index gives it, or its own custom one. The order is kept, every template records its runtime modifier, and the data is appended with no duplicate check |
| Manager.PlayerCameraManager.DuplicateTemplates | Plugins/MCD/Source/CameraDynamics/Private/CDPlayerCameraManager.cpp:34-62 | The loop of AddCameraData, with the same statement about clones, priorities and templates |
| Manager.PlayerCameraManager.DuplicateSlot | Plugins/MCD/Source/CameraDynamics/Private/CDPlayerCameraManager.cpp:36-61 | One slot of that loop moves every loop fact from slot i to slot i+1, and touches only that slot's template |
| Manager.PlayerCameraManager.MarkAgain | Plugins/MCD/Source/CameraDynamics/Private/CDPlayerCameraManager.cpp:84 | One more MarkForRemoval of a modifier already marked n times leaves it marked n+1 times |
| Manager.PlayerCameraManager.RemoveCameraData | Plugins/MCD/Source/CameraDynamics/Private/CDPlayerCameraManager.cpp:69-94 | Returns false exactly for null or unlisted data; then neither the data list nor any of the data's runtime modifiers changes. Otherwise each valid template's listed runtime modifier is marked once per such slot, and its blend state is blending out. Every other runtime modifier of the data keeps its blend state. The first occurrence of the data leaves the list, and the result is true |
| Manager.PlayerCameraManager.MarkRuntimeModifiers | Plugins/MCD/Source/CameraDynamics/Private/CDPlayerCameraManager.cpp:75-86 | The loop of RemoveCameraData: each runtime modifier is marked as many times as MarkCount says |
| Manager.PlayerCameraManager.MarkSlot | Plugins/MCD/Source/CameraDynamics/Private/CDPlayerCameraManager.cpp:77-85 | One slot of that loop moves the marking count from slot i to slot i+1 |
| Manager.PlayerCameraManager.RemoveAllCameraData | Plugins/MCD/Source/CameraDynamics/Private/CDPlayerCameraManager.cpp:96-104 | The data list ends empty. Each runtime modifier of the removed data is blending out if some data marked it (listed, from a valid template), and keeps its blend state otherwise |
| Manager.PlayerCameraManager.RemoveOneCameraData | Plugins/MCD/Source/CameraDynamics/Private/CDPlayerCameraManager.cpp:100-103 | One entry of the copy is removed, and the blending-out statement extends from the first i entries to the first i+1 |
| Manager.PlayerCameraManager.GetActiveModifierOfClass | Plugins/MCD/Source/CameraDynamics/Private/CDPlayerCameraManager.cpp:106-130 | Returns the first modifier of the list of the class that, when tags are required, is instanced, valid and owns them all. Null when there is none |
| Manager.PlayerCameraManager.GetAllActiveModifiersOfClass | Plugins/MCD/Source/CameraDynamics/Private/CDPlayerCameraManager.cpp:132-160 | Returns every such modifier, in list order |
| Manager.TurnStopsOnlyOnRequest | Plugins/MCD/Source/CameraDynamics/Private/Modifiers/CDCameraModifier_Instanced.cpp:93-110 | A turn stops the chain only at a non-zero alpha, when the native part or the Blueprint event asked to stop, and when the candidate changed the pair |
| Manager.ChainStopsOnlyOnRequest | Plugins/MCD/Source/CameraDynamics/Private/CDPlayerCameraManager.cpp:165-175 | A chain that stopped was stopped by the last modifier consulted: its effective alpha is not zero, and its native part or its Blueprint event asked to stop |
| Manager.TurnsOfEach | Plugins/MCD/Source/CameraDynamics/Private/CDPlayerCameraManager.cpp:165-175 | Each recorded turn belongs to the present modifier at its consulted position, with that modifier's alpha and Blueprint hooks, and was taken as TurnTaken says |
| Manager.ChainedEach | Plugins/MCD/Source/CameraDynamics/Private/CDPlayerCameraManager.cpp:165-175 | The first turn starts from the incoming pair, each later turn from the pair the one before returned, and no turn but the last asked to stop |
| Manager.PlayerCameraManager.RunChain | Plugins/MCD/Source/CameraDynamics/Private/CDPlayerCameraManager.cpp:165-175 | The loop: the turns of the consulted modifiers, chained from the incoming pair. It stops exactly when the last turn asked to stop, after consulting the enabled modifiers up to that one; otherwise it consults every enabled modifier |
| Manager.PlayerCameraManager.Consult | Plugins/MCD/Source/CameraDynamics/Private/CDPlayerCameraManager.cpp:170 | Records the modifier's turn: its effective alpha, its Blueprint hooks, the pair it was given, its native candidate and its result. The turn satisfies TurnTaken: at alpha 0 the pair passes through with no stop; otherwise the result is BlendViewRotation of the native candidate after the Blueprint event, and the native candidate is NativeRotation's |
| Manager.PlayerCameraManager.ProcessViewRotation | Plugins/MCD/Source/CameraDynamics/Private/CDPlayerCameraManager.cpp:162-209 | Consults the present, enabled modifiers in order. The trace of turns belongs to the consulted modifiers (TurnsOf) and is chained from the incoming pair (Chained). No turn but the last asked to stop. The loop stopped exactly when the last turn asked to stop; otherwise it consulted every enabled modifier. The output view is FinishViewRotation of the last turn's pair, and the output delta is zero |
| DataTypes.FindSourcePosition | Plugins/MCD/Source/CameraDynamics/Private/Data/CameraDynamicDataTypes.cpp:11-41 | AbsPosition gives the absolute position whatever the pawn. EyeHeight gives the pawn location raised by its eye height, or zero without a valid pawn. Socket gives the character's socket location, or zero without a character. LocalPosition gives the pawn location moved by the local position |
| DataTypes.OffsetPositionData.GetOffsetPosition | Plugins/MCD/Source/CameraDynamics/Private/Data/CameraDynamicDataTypes.cpp:43-55 | The result is the source moved by the world offset and the rotated socket offset. Zero offsets return the source |
| DataTypes.OffsetPositionTranslates | Plugins/MCD/Source/CameraDynamics/Private/Data/CameraDynamicDataTypes.cpp:43-55 | Moving the source moves the offset position by the same amount |
| DataTypes.CameraAxisData.GetXYInfluence | Plugins/MCD/Source/CameraDynamics/Private/Data/CameraDynamicDataTypes.cpp:61-65 | The XY scale when XY is active, else 0 |
| DataTypes.CameraAxisData.GetZInfluence | Plugins/MCD/Source/CameraDynamics/Private/Data/CameraDynamicDataTypes.cpp:67-71 | The Z scale when Z is active, else 0 |
| DataTypes.CameraAxisData.ProcessAxis | Plugins/MCD/Source/CameraDynamics/Private/Data/CameraDynamicDataTypes.cpp:73-80 | X and Y move from A towards B by the XY influence, and Z by the Z influence. Influence 1 gives B's component, influence 0 A's, and both axes off give A |
| DataTypes.ProcessAxisIdempotent | Plugins/MCD/Source/CameraDynamics/Private/Data/CameraDynamicDataTypes.cpp:73-80 | Blending a vector with itself returns it, for any axis data |
| DataTypes.DefaultAxisSelectsB | Plugins/MCD/Source/CameraDynamics/Public/Data/CameraDynamicDataTypes.h:101-107 | With the default axis data the result is B |
| DataTypes.ProcessAxisBetween | Plugins/MCD/Source/CameraDynamics/Private/Data/CameraDynamicDataTypes.cpp:73-80 | With scales in [0, 1], every component of the result lies between A's and B's |
| FunctionLibrary.EvaluateRuntimeFloatCurve | Plugins/MCD/Source/CameraDynamics/Private/CameraDynamicsFunctionLibrary.cpp:15-20 | A curve without a rich curve evaluates to 0. Otherwise it is the rich curve's value |
| FunctionLibrary.CameraFInterp | Plugins/MCD/Source/CameraDynamics/Private/CameraDynamicsFunctionLibrary.cpp:54-67 | A at or below a non-negative minimum speed. B at or above a non-negative maximum speed, with the minimum rule first. Otherwise FInterpTo or FInterpConstantTo, as asked |
| FunctionLibrary.CameraVInterp | Plugins/MCD/Source/CameraDynamics/Private/CameraDynamicsFunctionLibrary.cpp:69-82 | The same gating for vectors |
| FunctionLibrary.DefaultSpeedsDoNotGate | Plugins/MCD/Source/CameraDynamics/Public/CameraDynamicsFunctionLibrary.h:84 | With the default speeds (both -1) CameraFInterp is plain FInterpTo |
| FunctionLibrary.VInterpGatesLikeFInterp | Plugins/MCD/Source/CameraDynamics/Private/CameraDynamicsFunctionLibrary.cpp:69-82 | Whenever the gate fires, CameraVInterp is CameraFInterp on each component |
| FunctionLibrary.ScaleAxis | Plugins/MCD/Source/CameraDynamics/Private/CameraDynamicsFunctionLibrary.cpp:37-40 | Each component is scaled by its axis influence |
| FunctionLibrary.BlendVectorsByAxisData | Plugins/MCD/Source/CameraDynamics/Private/CameraDynamicsFunctionLibrary.cpp:42-46 | A is moved by the axis-scaled difference towards B |
| FovAdjust.ApplyFovChange | Plugins/MCD/Source/CameraDynamics/Private/Modifiers/CDCameraModifier_FOV_Adjust.cpp:40-53 | Absolute gives the change. Additive adds it to the FOV. Multiplicative multiplies the FOV by it. An unknown type keeps the previous changed FOV |
| FovAdjust.NeutralFovChanges | Plugins/MCD/Source/CameraDynamics/Private/Modifiers/CDCameraModifier_FOV_Adjust.cpp:40-53 | Adding 0 and multiplying by 1 leave the FOV. An absolute change ignores the incoming FOV |
| FovAdjust.AdditiveChangesCompose | Plugins/MCD/Source/CameraDynamics/Private/Modifiers/CDCameraModifier_FOV_Adjust.cpp:45-47 | Two additive changes in a row add up |
| FovAdjust.FovAdjustModifier.constructor | Plugins/MCD/Source/CameraDynamics/Private/Modifiers/CDCameraModifier_FOV_Adjust.cpp:8-19 | Target, current change and changed FOV all start at the default change |
| FovAdjust.FovAdjustModifier.Copy | Plugins/MCD/Source/CameraDynamics/Private/CDPlayerCameraManager.cpp:41 | A field-by-field copy |
| FovAdjust.FovAdjustModifier.AddedToCamera | Plugins/MCD/Source/CameraDynamics/Private/Modifiers/CDCameraModifier_FOV_Adjust.cpp:21-27 | Target and current change restart from the default |
| FovAdjust.FovAdjustModifier.ModifyCameraBlended | Plugins/MCD/Source/CameraDynamics/Private/Modifiers/CDCameraModifier_FOV_Adjust.cpp:29-55 | Without smoothing the change equals the target, and with it the change is FInterpTo towards the target. The changed FOV is ApplyFovChange of the incoming FOV, and the outgoing FOV equals it. Location, rotation and target are untouched |
| FovPitchMod.DefaultPitchModSettings | Plugins/MCD/Source/CameraDynamics/Private/Modifiers/CDCameraModifier_FOV_PitchMod.cpp:8-20 | Additive, no remap, pitch range [-160, -25] onto [0, 1] |
| FovPitchMod.RangePct | Plugins/MCD/Source/CameraDynamics/Private/Modifiers/CDCameraModifier_FOV_PitchMod.cpp:37 | Within a proper input range, values at or below the lower bound give 0 or less, and values at or above the upper bound give 1 or more |
| FovPitchMod.ClampUnit | Plugins/MCD/Source/CameraDynamics/Private/Modifiers/CDCameraModifier_FOV_PitchMod.cpp:37 | The result is in [0, 1], saturating at both ends, and is the identity inside |
| FovPitchMod.MappedRangeValueClamped | Plugins/MCD/Source/CameraDynamics/Private/Modifiers/CDCameraModifier_FOV_PitchMod.cpp:37 | The result always lies within the output range and saturates at its bounds |
| FovPitchMod.CurveInput | Plugins/MCD/Source/CameraDynamics/Private/Modifiers/CDCameraModifier_FOV_PitchMod.cpp:29-38 | A pitch above 90 counts as 0. With remapping the result lies within the output range |
| FovPitchMod.ApplyCurveValue | Plugins/MCD/Source/CameraDynamics/Private/Modifiers/CDCameraModifier_FOV_PitchMod.cpp:42-55 | Absolute gives the curve value. Additive adds it. Multiplicative multiplies by it. An unknown type keeps the FOV |
| FovPitchMod.SteepPitchCountsAsLevel | Plugins/MCD/Source/CameraDynamics/Private/Modifiers/CDCameraModifier_FOV_PitchMod.cpp:31-34 | Every pitch above 90 gives the same curve input as a level pitch |
| FovPitchMod.RemapSaturates | Plugins/MCD/Source/CameraDynamics/Private/Modifiers/CDCameraModifier_FOV_PitchMod.cpp:35-38 | Pitches at or beyond the range bounds read the curve at the output bounds |
| FovPitchMod.FovPitchModModifier.constructor | Plugins/MCD/Source/CameraDynamics/Private/Modifiers/CDCameraModifier_FOV_PitchMod.cpp:8-20 | Both recorded FOVs start at 0 |
| FovPitchMod.FovPitchModModifier.Copy | Plugins/MCD/Source/CameraDynamics/Private/CDPlayerCameraManager.cpp:41 | A field-by-field copy |
| FovPitchMod.FovPitchModModifier.ModifyCameraBlended | Plugins/MCD/Source/CameraDynamics/Private/Modifiers/CDCameraModifier_FOV_PitchMod.cpp:22-58 | Records the incoming FOV. The outgoing FOV is the curve at the folded, possibly remapped pitch of the outgoing rotation, combined by the evaluation type and recorded. Location and rotation pass through |
| PositionBase.BaseLocation | Plugins/MCD/Source/CameraDynamics/Private/Modifiers/CDCameraModifier_Position_Base.cpp:26-29 | The location moves towards the pawn's source position, by the XY influence on X and Y and by the Z influence on Z |
| PositionBase.DefaultBaseIsEyeHeight | Plugins/MCD/Source/CameraDynamics/Private/Modifiers/CDCameraModifier_Position_Base.cpp:26-29 | With the default settings the camera sits at the pawn's eye height |
| PositionBase.BaseLocationSettles | Plugins/MCD/Source/CameraDynamics/Private/Modifiers/CDCameraModifier_Position_Base.cpp:26-31 | With full influence, applying the modifier twice gives the same location as once |
| PositionBase.PositionBaseModifier.constructor | Plugins/MCD/Source/CameraDynamics/Private/Modifiers/CDCameraModifier_Position_Base.cpp:11-15 | The recorded position starts at zero |
| PositionBase.PositionBaseModifier.Copy | Plugins/MCD/Source/CameraDynamics/Private/CDPlayerCameraManager.cpp:41 | A field-by-field copy |
| PositionBase.PositionBaseModifier.ModifyCameraBlended | Plugins/MCD/Source/CameraDynamics/Private/Modifiers/CDCameraModifier_Position_Base.cpp:17-32 | Without a valid pawn nothing changes. Otherwise the location becomes BaseLocation and is recorded. Rotation and FOV pass through |
| PositionOffset.PositionOffsetModifier.constructor | Plugins/MCD/Source/CameraDynamics/Private/Modifiers/CDCameraModifier_Position_Offset.cpp:9-13 | Both recorded positions start at zero |
| PositionOffset.PositionOffsetModifier.Copy | Plugins/MCD/Source/CameraDynamics/Private/CDPlayerCameraManager.cpp:41 | A field-by-field copy |
| PositionOffset.PositionOffsetModifier.ModifyCameraBlended | Plugins/MCD/Source/CameraDynamics/Private/Modifiers/CDCameraModifier_Position_Offset.cpp:15-23 | Records the incoming view location. The new location is that view location moved by the world offset and the rotated socket offset, and is recorded; zero offsets keep the view location. Rotation and FOV pass through |
| PositionDistance.ForwardOffset | Plugins/MCD/Source/CameraDynamics/Private/Modifiers/CDCameraModifier_Position_Distance.cpp:35 | The location moves along the rotation's forward vector by the distance, and distance 0 keeps it |
| PositionDistance.ForwardOffsetsAdd | Plugins/MCD/Source/CameraDynamics/Private/Modifiers/CDCameraModifier_Position_Distance.cpp:35 | Two offsets along the same rotation add up |
| PositionDistance.PositionDistanceModifier.constructor | Plugins/MCD/Source/CameraDynamics/Private/Modifiers/CDCameraModifier_Position_Distance.cpp:6-13 | The distance starts at the target distance |
| PositionDistance.PositionDistanceModifier.Copy | Plugins/MCD/Source/CameraDynamics/Private/CDPlayerCameraManager.cpp:41 | A field-by-field copy |
| PositionDistance.PositionDistanceModifier.AddedToCamera | Plugins/MCD/Source/CameraDynamics/Private/Modifiers/CDCameraModifier_Position_Distance.cpp:15-20 | The distance restarts at the target |
| PositionDistance.PositionDistanceModifier.ModifyCameraBlended | Plugins/MCD/Source/CameraDynamics/Private/Modifiers/CDCameraModifier_Position_Distance.cpp:22-36 | Without smoothing the distance equals the target, and with it the distance is FInterpTo towards the target. The location is ForwardOffset along the outgoing rotation. Rotation, FOV and target are untouched |
| PositionDynamicZ.MovementOf | Plugins/MCD/Source/CameraDynamics/Private/Modifiers/CDCameraModifier_Position_DynamicZ.cpp:66-70 | No movement exactly without a valid pawn, character or movement component. Grounded exactly when the movement component reports moving on ground |
| PositionDynamicZ.AirborneZ | Plugins/MCD/Source/CameraDynamics/Private/Modifiers/CDCameraModifier_Position_DynamicZ.cpp:95-98 | A curve speed of 0 or less holds the height. A speed at or above a non-negative snap threshold snaps to the target |
| PositionDynamicZ.ReturnZ | Plugins/MCD/Source/CameraDynamics/Private/Modifiers/CDCameraModifier_Position_DynamicZ.cpp:81-83 | Snaps to the target at a curve speed at or above a non-negative snap threshold. Otherwise FInterpTo at the curve speed, with no lower guard |
| PositionDynamicZ.NoAirborneCurveHoldsHeight | Plugins/MCD/Source/CameraDynamics/Private/Modifiers/CDCameraModifier_Position_DynamicZ.cpp:96-98 | Without an airborne curve the height never follows the character |
| PositionDynamicZ.DynamicZModifier.constructor | Plugins/MCD/Source/CameraDynamics/Private/Modifiers/CDCameraModifier_Position_DynamicZ.cpp:15-22 | The landed flag starts false |
| PositionDynamicZ.DynamicZModifier.Copy | Plugins/MCD/Source/CameraDynamics/Private/CDPlayerCameraManager.cpp:41 | A field-by-field copy |
| PositionDynamicZ.DynamicZModifier.AddedToCamera | Plugins/MCD/Source/CameraDynamics/Private/Modifiers/CDCameraModifier_Position_DynamicZ.cpp:25-30 | The last grounded position starts at the camera location |
| PositionDynamicZ.DynamicZModifier.OnCharacterLanded | Plugins/MCD/Source/CameraDynamics/Private/Modifiers/CDCameraModifier_Position_DynamicZ.cpp:53-56 | Sets the landed flag, and nothing else |
| PositionDynamicZ.DynamicZModifier.ModifyCameraBlended | Plugins/MCD/Source/CameraDynamics/Private/Modifiers/CDCameraModifier_Position_DynamicZ.cpp:58-101 | Records the incoming location, and only its height ever changes. Without movement it passes through. Grounded: the current and last grounded positions equal the output; after a landing, the height returns by ReturnZ until within 0.1, which clears the flag. Airborne: the last grounded X and Y follow, its Z is kept, and the height is AirborneZ |
| RotationOverride.OverrideRotation | Plugins/MCD/Source/CameraDynamics/Private/Modifiers/CDCameraModifier_Rotation_Override.cpp:25-47 | Absolute gives the fixed rotation. Look-at types give the rotation from the camera towards the location, actor or component. An invalid target gives the zero rotator |
| RotationOverride.LookAtTypesAgree | Plugins/MCD/Source/CameraDynamics/Private/Modifiers/CDCameraModifier_Rotation_Override.cpp:33-47 | The three look-at types agree for targets in the same place |
| RotationOverride.AbsoluteIgnoresCamera | Plugins/MCD/Source/CameraDynamics/Private/Modifiers/CDCameraModifier_Rotation_Override.cpp:30-31 | A fixed override does not depend on the camera location |
| RotationOverride.RotationOverrideModifier.constructor | Plugins/MCD/Source/CameraDynamics/Private/Modifiers/CDCameraModifier_Rotation_Override.cpp:11-20 | Stores the settings (the default: no override) |
| RotationOverride.RotationOverrideModifier.Copy | Plugins/MCD/Source/CameraDynamics/Private/CDPlayerCameraManager.cpp:41 | A field-by-field copy |
| RotationOverride.RotationOverrideModifier.ProcessViewRotationBlended | Plugins/MCD/Source/CameraDynamics/Private/Modifiers/CDCameraModifier_Rotation_Override.cpp:22-55 | Never stops. No override or an unknown type passes both rotations through. Otherwise the view rotation becomes OverrideRotation and the delta is cleared |
| VelocityToYaw.FollowTarget | Plugins/MCD/Source/CameraDynamics/Private/Modifiers/CDCameraModifier_Follow_VelocityToYaw.cpp:54-76 | Yaw and roll come from the scaled velocity's direction plus the offset. The pitch is the view's (ignored), the static value (static) or the velocity's (influenced), plus the offset |
| VelocityToYaw.FollowTargetViewDependence | Plugins/MCD/Source/CameraDynamics/Private/Modifiers/CDCameraModifier_Follow_VelocityToYaw.cpp:64-76 | A target that does not ignore pitch is independent of the view. One that does depends only on the view's pitch |
| VelocityToYaw.NoTimeCurveNeverFollows | Plugins/MCD/Source/CameraDynamics/Private/Modifiers/CDCameraModifier_Follow_VelocityToYaw.cpp:46-49 | Waiting for no input with no time curve gives speed 0, so the frame never follows |
| VelocityToYaw.FrameSpeedOfFollowing | Plugins/MCD/Source/CameraDynamics/Private/Modifiers/CDCameraModifier_Follow_VelocityToYaw.cpp:29-82 | A following frame records its follow speed, which is positive. A frame that reached the curves but does not follow records a speed of 0 or less |
| VelocityToYaw.EveryCurveGates | Plugins/MCD/Source/CameraDynamics/Private/Modifiers/CDCameraModifier_Follow_VelocityToYaw.cpp:60-82 | Without a velocity-yaw curve, or without a target-difference curve, the camera never follows, so the constructor's settings never follow |
| VelocityToYaw.VelocityToYawModifier.constructor | Plugins/MCD/Source/CameraDynamics/Private/Modifiers/CDCameraModifier_Follow_VelocityToYaw.cpp:12-24 | The input timer and the speed start at 0 |
| VelocityToYaw.VelocityToYawModifier.Copy | Plugins/MCD/Source/CameraDynamics/Private/CDPlayerCameraManager.cpp:41 | A field-by-field copy |
| VelocityToYaw.VelocityToYawModifier.ProcessViewRotationBlended | Plugins/MCD/Source/CameraDynamics/Private/Modifiers/CDCameraModifier_Follow_VelocityToYaw.cpp:26-89 | Never stops and never writes the view rotation. A rotation input resets the timer; otherwise the timer advances by the frame time. The delta becomes FollowDelta (the RInterpTo step towards FollowTarget at the product of the three curve factors) exactly when every gate of Follows passes, and is passed through otherwise. The recorded speed is the partial product at the gate that ended the frame, and the velocity and target fields are recorded from the gate at which the source writes them |
| VelocityToYaw.VelocityToYawModifier.FollowPawn | Plugins/MCD/Source/CameraDynamics/Private/Modifiers/CDCameraModifier_Follow_VelocityToYaw.cpp:54-88 | Once the pawn is found: the scaled velocity is recorded; a nearly zero velocity or a non-positive speed after the velocity curve ends the frame with the delta unchanged; otherwise the target is FollowTarget, the speed is multiplied by the angle curve, and a positive speed writes FollowDelta |

## Left out

- Engine numerics: interpolation, slerp, rotation matrices, Acos, orientation-aware composition, Normalize and the view-axis clamp are uninterpreted `Numerics` fields. OrientationAwareComposeRotations (quaternion and Euler trigonometry) is the field `composeRotations`, used by the manager's ProcessViewRotation.
- OrientationAwareComposeTransforms: not modelled. No modelled operation calls it, so it lies outside the modelled core.
- Floating-point rounding: values are exact reals. The source's exact comparisons (`A == 0.0f`, `A == 1.0f`) are modelled as exact real comparisons.
- Timers, delegates and removal itself: SetTimer, RemoveSelfFromModifierList and RemoveCameraModifier are not executed. The requests are recorded in `removalRequests`. The AddDynamic bindings are not modelled: the view-target delegate, and DynamicZ's pawn-changed and landed bindings with its RemoveSelfFromModifierList override. OnViewTargetChangeStart and OnCharacterLanded are methods a caller invokes.
- Blueprint events are function values. BlueprintAddedToCamera, which returns nothing to the core, is not modelled.
- Logging (UE_LOG), DisplayDebug, debug drawing, bDrawDebugInfoThisFrame and the editor module are not modelled.
- InitializeFor, SetViewTarget, GetCameraDynamicsCameraManager and EvaluateRuntimeVectorCurve are outside the modelled core.
- The Lag, VelocityOffset and Sweep modifiers are left out. Their behaviour is vector interpolation, clamping and a physics sweep.
- Gameplay tags are flat sets of names, so HasAll is set inclusion and the tag hierarchy is not modelled. IsValid is the `valid` flag of a modifier or pawn.
- CameraDataSource and RuntimeModifier are weak object references in the source, and plain references here. Garbage collection is not modelled.
- The modifier list holds only instanced modifiers (or empty slots). An engine modifier of another class, for which the cast to an instanced modifier fails, is not modelled.
- A modifier's priority is fixed when it is duplicated. The source assigns it straight after duplication, before anything reads it.
- Instanced.Modifier.MarkForRemoval: bMarkedForRemoval is never set to true by the source, and the model keeps that.
- Instanced.CopyVariant: states only the kind and freshness of the copy. The field-by-field copy is stated by each concrete modifier's Copy constructor.
- Instanced.BlendPose: its own contract covers only alpha 1. The other alphas are covered by BlendedPoseBetween.
- Instanced.Modifier.ModifyCameraFrame: the engine's ModifyCamera(DeltaTime, InOutPOV) is not part of this model's sources. It is modelled as UpdateAlpha, the per-pose form on the current pose, and the full disable of a pending disable at alpha 0. Its post-process Blueprint event is not modelled.
- Manager.PlayerCameraManager.AddCameraModifierToList: requires that the modifier is not already in the list, which a freshly duplicated modifier never is. The engine's refusal of an exclusive modifier at a priority an exclusive one already holds is not modelled. The engine's insertion is not part of this model's sources; the placement ahead of equal priorities is taken from its behaviour.
- Priorities are unbounded integers. The engine's priority is an 8-bit unsigned value, so the batch priority InitialModCount + Index wraps at 256, and that wrap is not modelled.
- Manager.PlayerCameraManager.GetActiveModifierOfClass: requires a list without empty slots, because the source calls IsA on every entry without a null check.
- Manager.PlayerCameraManager.GetAllActiveModifiersOfClass: requires a list without empty slots, for the same reason.
- DataTypes.FindSourcePosition: requires a pawn for LocalPosition, because the source reads the pawn's location without a check.
- Manager.PlayerCameraManager.RemoveAllCameraData: states each runtime modifier's blend state, not the number of removal requests. RemoveCameraData states the counts for one data asset.
- The function library's GetOffsetPosition forwards to the struct's and is modelled once, as DataTypes.OffsetPositionData.GetOffsetPosition.
- The owning controller's rotation input is a field of the view context. The source reads the controller without a check, so the model always has one.
- The Blueprint getters GetOwnerControlledPawn and GetOwnerControlledCharacter are the pawn in the view context. CameraOwner's camera location is a field of the view context too.
- Manager.PlayerCameraManager.MarkSlot: marks nothing for a template without a runtime modifier. In the source, a null RuntimeModifier while the list holds an empty slot passes the Contains check and is dereferenced, which would crash.
- PositionDynamicZ.DynamicZModifier.AddedToCamera: binds no delegates, as noted above.
