/** ACDPlayerCameraManager: the player camera manager that turns camera data assets into runtime
    modifiers, removes them again, looks modifiers up by class and tags, and runs the view
    rotation through its modifier stack. */
module Manager {
  import opened Engine
  import opened DataTypes
  import opened Blending
  import opened Instanced
  import VelocityToYaw

  /** ViewPitchMin/Max, ViewYawMin/Max and ViewRollMin/Max. */
  datatype ViewLimits = ViewLimits(pitchMin: real, pitchMax: real, yawMin: real, yawMax: real, rollMin: real, rollMax: real)

  // ---------------------------------------------------------------------------------------
  // Batch priorities

  /** The value of AddCameraData's running index when it reaches template slot `i`: every
      earlier slot that is empty or whose duplicate is valid has advanced it; a failed duplicate
      (its slot in `failing`) has not. */
  function SlotIndex(templates: seq<Modifier?>, failing: set<nat>, i: nat): (r: nat)
    requires i <= |templates|
    ensures r <= i
  {
    if i == 0 then 0
    else SlotIndex(templates, failing, i - 1) + (if templates[i - 1] == null || (i - 1) !in failing then 1 else 0)
  }

  /** Without failed duplicates the running index is the slot's position in the array, empty
      slots included. */
  lemma {:induction false} SlotIndexIsPosition(templates: seq<Modifier?>, failing: set<nat>, i: nat)
    requires i <= |templates|
    requires forall j :: 0 <= j < i && templates[j] != null ==> j !in failing
    ensures SlotIndex(templates, failing, i) == i
  {
    if i > 0 {
      SlotIndexIsPosition(templates, failing, i - 1);
    }
  }

  /** Slots after an empty slot or a valid duplicate get a strictly larger index, so the batch
      priorities of the clones of one call are all different. */
  lemma {:induction false} SlotIndexIncreases(templates: seq<Modifier?>, failing: set<nat>, i: nat, j: nat)
    requires i < j <= |templates|
    requires templates[i] == null || i !in failing
    ensures SlotIndex(templates, failing, i) < SlotIndex(templates, failing, j)
  {
    if j > i + 1 {
      SlotIndexIncreases(templates, failing, i, j - 1);
    }
  }

  /** A failed duplicate does not advance the index: the next slot gets the same index. */
  lemma FailedDuplicateSharesIndex(templates: seq<Modifier?>, failing: set<nat>, i: nat)
    requires i < |templates| && templates[i] != null && i in failing
    ensures SlotIndex(templates, failing, i + 1) == SlotIndex(templates, failing, i)
  {
  }

  /** The template slots that give a runtime modifier, in order: non-empty, and not failing. */
  function ClonedSlots(templates: seq<Modifier?>, failing: set<nat>, i: nat): (r: seq<nat>)
    requires i <= |templates|
    ensures forall k :: 0 <= k < |r| ==> r[k] < i && templates[r[k]] != null && r[k] !in failing
  {
    if i == 0 then []
    else ClonedSlots(templates, failing, i - 1) + (if templates[i - 1] != null && (i - 1) !in failing then [i - 1] else [])
  }

  // ---------------------------------------------------------------------------------------
  // Priority order

  /** The modifier list is ordered by priority (empty slots aside). */
  predicate SortedByPriority(list: seq<Modifier?>)
  {
    forall i, j :: 0 <= i < j < |list| && list[i] != null && list[j] != null ==> list[i].priority <= list[j].priority
  }

  /** Inserting after every entry of a priority no greater and before an entry of a priority no
      smaller keeps the list ordered. */
  lemma {:induction false} InsertKeepsSorted(list: seq<Modifier?>, k: nat, m: Modifier)
    requires k <= |list| && SortedByPriority(list)
    requires forall j :: 0 <= j < k && list[j] != null ==> list[j].priority <= m.priority
    requires k < |list| ==> list[k] != null && list[k].priority >= m.priority
    ensures SortedByPriority(list[..k] + [m] + list[k..])
  {
    var l := list[..k] + [m] + list[k..];
    forall i, j | 0 <= i < j < |l| && l[i] != null && l[j] != null
      ensures l[i].priority <= l[j].priority
    {
      if j < k {
        assert l[i] == list[i] && l[j] == list[j];
      } else if j == k {
        assert l[i] == list[i];
      } else if i < k {
        assert l[i] == list[i] && l[j] == list[j - 1];
        assert list[k].priority <= list[j - 1].priority || k == j - 1;
      } else if i == k {
        assert l[j] == list[j - 1];
        assert k == j - 1 || list[k].priority <= list[j - 1].priority;
      } else {
        assert l[i] == list[i - 1] && l[j] == list[j - 1];
      }
    }
  }

  /** Inserting at the priority position keeps the list ordered and adds exactly the one entry. */
  lemma InsertByPriorityFacts(list: seq<Modifier?>, k: nat, m: Modifier)
    requires k <= |list|
    requires forall j :: 0 <= j < k && list[j] != null ==> list[j].priority <= m.priority
    requires k < |list| ==> list[k] != null && list[k].priority >= m.priority
    ensures SortedByPriority(list) ==> SortedByPriority(list[..k] + [m] + list[k..])
    ensures multiset(list[..k] + [m] + list[k..]) == multiset(list) + multiset{m}
  {
    if SortedByPriority(list) {
      InsertKeepsSorted(list, k, m);
    }
    assert list == list[..k] + list[k..];
  }

  // ---------------------------------------------------------------------------------------
  // Removal

  /** The runtime modifiers the templates point at. */
  function RuntimeModifiers(templates: seq<Modifier?>): (r: set<Modifier?>)
    reads (set t: Modifier | t in templates)`runtimeModifier
    ensures null !in r
  {
    set t: Modifier | t in templates && t.runtimeModifier != null :: t.runtimeModifier
  }

  /** RemoveCameraData's targets: the runtime modifiers of the data's templates, if any. */
  function MarkTargets(data: CameraData?): (r: set<Modifier?>)
    reads (if data == null then {} else set t: Modifier | t in data.cameraModifiers)`runtimeModifier
    ensures null !in r
  {
    if data == null then {} else RuntimeModifiers(data.cameraModifiers)
  }

  /** The runtime modifier of each template slot (null for an empty slot). */
  function Runtimes(templates: seq<Modifier?>): (r: seq<Modifier?>)
    reads (set t: Modifier | t in templates)`runtimeModifier
    ensures |r| == |templates|
    ensures forall j :: 0 <= j < |templates| ==> r[j] == (if templates[j] == null then null else templates[j].runtimeModifier)
  {
    if |templates| == 0 then []
    else
      var t := templates[|templates| - 1];
      Runtimes(templates[..|templates| - 1]) + [if t == null then null else t.runtimeModifier]
  }

  /** How many times RemoveCameraData marks `m` for removal among the first `i` template slots:
      once per valid template whose runtime modifier (`runtimes`) is `m`, when `m` is in the
      modifier list. */
  function MarkCount(templates: seq<Modifier?>, runtimes: seq<Modifier?>, list: seq<Modifier?>, i: nat, m: Modifier): nat
    requires i <= |templates| == |runtimes|
  {
    if i == 0 then 0
    else
      var t := templates[i - 1];
      MarkCount(templates, runtimes, list, i - 1, m) + (if t != null && t.valid && runtimes[i - 1] == m && m in list then 1 else 0)
  }

  /** A modifier is marked at all exactly when it is in the modifier list and is the runtime
      modifier of a valid template. */
  lemma {:induction false} MarkedIffListedRuntime(templates: seq<Modifier?>, runtimes: seq<Modifier?>, list: seq<Modifier?>, i: nat, m: Modifier)
    requires i <= |templates| == |runtimes|
    ensures MarkCount(templates, runtimes, list, i, m) > 0 <==>
              m in list && exists j :: 0 <= j < i && templates[j] != null && templates[j].valid && runtimes[j] == m
  {
    if i > 0 {
      MarkedIffListedRuntime(templates, runtimes, list, i - 1, m);
    }
  }

  /** The data list's removal targets together. */
  function AllMarkTargets(list: seq<CameraData>): (r: set<Modifier?>)
    reads (set d, t: Modifier | d in list && t in d.cameraModifiers :: t)`runtimeModifier
    ensures null !in r
    ensures forall d :: d in list ==> MarkTargets(d) <= r
  {
    set d, t: Modifier | d in list && t in d.cameraModifiers && t.runtimeModifier != null :: t.runtimeModifier
  }

  /** Some valid template of the data `ds` has `m` as its runtime modifier, and `m` is in `list`. */
  ghost predicate MarkedIn(ds: seq<CameraData>, list: seq<Modifier?>, m: Modifier)
    reads (set d, t: Modifier | d in ds && t in d.cameraModifiers :: t)`runtimeModifier
  {
    m in list && exists d, t: Modifier :: d in ds && t in d.cameraModifiers && t.valid && t.runtimeModifier == m
  }

  /** MarkedIn over one more data entry. */
  lemma MarkedInStep(ds: seq<CameraData>, i: nat, list: seq<Modifier?>, m: Modifier)
    requires i < |ds|
    ensures MarkedIn(ds[..i + 1], list, m) <==>
              MarkedIn(ds[..i], list, m)
              || (m in list && exists u: Modifier :: u in ds[i].cameraModifiers && u.valid && u.runtimeModifier == m)
  {
    assert ds[..i + 1] == ds[..i] + [ds[i]];
  }

  /** A runtime modifier after being marked `count` times from the state `s` and requests `q`:
      blending out once it was marked at all, and one MarkForRemoval's requests per marking. */
  ghost predicate WasMarked(m: Modifier, count: nat, s: BlendState, q: seq<RemovalRequest>)
    reads m
  {
    m.State() == (if count == 0 then s else AfterDisable(s, false))
    && m.removalRequests == q + Repeat(MarkForRemovalRequests(m.config, m.ownerValid), count)
  }

  /** Slots holding the same runtime modifier hold the same snapshot of its state and requests. */
  predicate SnapshotsAgree(runtimes: seq<Modifier?>, states: seq<BlendState>, requests: seq<seq<RemovalRequest>>)
    requires |runtimes| == |states| == |requests|
  {
    forall i, j :: 0 <= i < |runtimes| && 0 <= j < |runtimes| && runtimes[i] != null && runtimes[j] == runtimes[i] ==>
      states[j] == states[i] && requests[j] == requests[i]
  }

  /** The blend states of the modifiers `ms` (a placeholder for an empty slot). */
  ghost function StatesOf(ms: seq<Modifier?>): (r: seq<BlendState>)
    reads set m: Modifier | m in ms
    ensures |r| == |ms| && forall j :: 0 <= j < |ms| && ms[j] != null ==> r[j] == ms[j].State()
  {
    if |ms| == 0 then []
    else
      var m := ms[|ms| - 1];
      StatesOf(ms[..|ms| - 1]) + [if m == null then InitialBlendState else m.State()]
  }

  /** The removal requests issued so far by the modifiers `ms`. */
  ghost function RequestsOf(ms: seq<Modifier?>): (r: seq<seq<RemovalRequest>>)
    reads (set m: Modifier | m in ms)`removalRequests
    ensures |r| == |ms| && forall j :: 0 <= j < |ms| && ms[j] != null ==> r[j] == ms[j].removalRequests
  {
    if |ms| == 0 then []
    else
      var m := ms[|ms| - 1];
      RequestsOf(ms[..|ms| - 1]) + [if m == null then [] else m.removalRequests]
  }

  /** `now` has started blending out from `s` when `marked`, and is `s` itself otherwise. */
  predicate BlendingOutFrom(now: BlendState, marked: bool, s: BlendState)
  {
    now == (if marked then AfterDisable(s, false) else s)
  }

  /** Removals in a row: a modifier marked by either is blending out from the first state, and one
      marked by neither is untouched. */
  lemma {:induction false} BlendingOutChains(s0: BlendState, s1: BlendState, s2: BlendState, marked1: bool, marked2: bool)
    requires BlendingOutFrom(s1, marked1, s0) && BlendingOutFrom(s2, marked2, s1)
    ensures BlendingOutFrom(s2, marked1 || marked2, s0)
  {
    DisableTwiceIsDisableOnce(s0);
  }

  /** The modifier `m` has started blending out from `s` when `marked`, and is still in `s`
      otherwise. */
  ghost predicate BlendingOutIf(m: Modifier, marked: bool, s: BlendState)
    reads m
  {
    BlendingOutFrom(m.State(), marked, s)
  }

  /** `c` copies of the requests `s`, one after the other. */
  function Repeat(s: seq<RemovalRequest>, c: nat): (r: seq<RemovalRequest>)
    ensures |r| == c * |s|
  {
    if c == 0 then [] else Repeat(s, c - 1) + s
  }

  /** TArray::RemoveSingle: drops the first occurrence of `x`, if any. */
  function RemoveFirst<T(==)>(s: seq<T>, x: T): seq<T>
  {
    if |s| == 0 then []
    else if s[0] == x then s[1..]
    else [s[0]] + RemoveFirst(s[1..], x)
  }

  /** RemoveSingle removes one occurrence when there is one, and nothing otherwise. */
  lemma {:induction false} RemoveFirstCount<T>(s: seq<T>, x: T)
    ensures x !in s ==> RemoveFirst(s, x) == s
    ensures x in s ==> |RemoveFirst(s, x)| == |s| - 1 && multiset(RemoveFirst(s, x)) == multiset(s) - multiset{x}
  {
    if |s| > 0 {
      assert s == [s[0]] + s[1..];
      if s[0] != x {
        RemoveFirstCount(s[1..], x);
      }
    }
  }

  /** Only the first occurrence goes: the entries before it stay in place and those after it
      move down by one. */
  lemma {:induction false} RemoveFirstAt<T>(s: seq<T>, x: T, k: nat)
    requires k < |s| && s[k] == x && forall j :: 0 <= j < k ==> s[j] != x
    ensures RemoveFirst(s, x) == s[..k] + s[k + 1..]
  {
    if k > 0 {
      assert s[0] != x;
      assert RemoveFirst(s, x) == [s[0]] + RemoveFirst(s[1..], x);
      assert forall j :: 0 <= j < k - 1 ==> s[1..][j] == s[j + 1];
      RemoveFirstAt(s[1..], x, k - 1);
      assert s[..k] == [s[0]] + s[1..][..k - 1];
      assert s[k + 1..] == s[1..][k..];
    }
  }

  // ---------------------------------------------------------------------------------------
  // Lookup

  /** IsA(ModifierClass), and, when tags are required, an instanced modifier that is valid and
      owns all of them. */
  predicate Matches(m: Modifier, modifierClass: string, requiredTags: set<string>)
  {
    modifierClass in m.classes && (requiredTags == {} || (m.valid && requiredTags <= m.gameplayTags))
  }

  predicate NoNulls(list: seq<Modifier?>)
  {
    forall i :: 0 <= i < |list| ==> list[i] != null
  }

  /** Every matching modifier, in list order. */
  function AllMatches(list: seq<Modifier?>, modifierClass: string, requiredTags: set<string>): seq<Modifier?>
    requires NoNulls(list)
  {
    if |list| == 0 then []
    else (if Matches(list[0], modifierClass, requiredTags) then [list[0]] else []) + AllMatches(list[1..], modifierClass, requiredTags)
  }

  /** The first matching modifier, or null. */
  function FirstMatch(list: seq<Modifier?>, modifierClass: string, requiredTags: set<string>): (r: Modifier?)
    requires NoNulls(list)
    ensures r == null <==> forall i :: 0 <= i < |list| ==> !Matches(list[i], modifierClass, requiredTags)
    ensures r != null ==> exists i :: 0 <= i < |list| && list[i] == r && Matches(r, modifierClass, requiredTags)
                                      && forall j :: 0 <= j < i ==> !Matches(list[j], modifierClass, requiredTags)
  {
    if |list| == 0 then null
    else if Matches(list[0], modifierClass, requiredTags) then list[0]
    else
      var r := FirstMatch(list[1..], modifierClass, requiredTags);
      assert forall i :: 1 <= i < |list| ==> list[i] == list[1..][i - 1];
      assert r != null ==> exists i :: 0 <= i < |list| && list[i] == r && Matches(r, modifierClass, requiredTags)
                                       && forall j :: 0 <= j < i ==> !Matches(list[j], modifierClass, requiredTags) by {
        if r != null {
          var i :| 0 <= i < |list[1..]| && list[1..][i] == r && Matches(r, modifierClass, requiredTags)
                   && forall j :: 0 <= j < i ==> !Matches(list[1..][j], modifierClass, requiredTags);
          assert list[i + 1] == r;
          assert forall j :: 1 <= j < i + 1 ==> list[j] == list[1..][j - 1];
        }
      }
      r
  }

  /** The matches are exactly the modifiers of the list that match. */
  lemma {:induction false} AllMatchesMembers(list: seq<Modifier?>, modifierClass: string, requiredTags: set<string>, x: Modifier)
    requires NoNulls(list)
    ensures x in AllMatches(list, modifierClass, requiredTags) <==> x in list && Matches(x, modifierClass, requiredTags)
  {
    if |list| > 0 {
      AllMatchesMembers(list[1..], modifierClass, requiredTags, x);
      assert list == [list[0]] + list[1..];
    }
  }

  /** GetActiveModifierOfClass returns the first of what GetAllActiveModifiersOfClass returns. */
  lemma {:induction false} FirstMatchIsFirstOfAll(list: seq<Modifier?>, modifierClass: string, requiredTags: set<string>)
    requires NoNulls(list)
    ensures var all := AllMatches(list, modifierClass, requiredTags);
            FirstMatch(list, modifierClass, requiredTags) == (if all == [] then null else all[0])
  {
    if |list| > 0 {
      FirstMatchIsFirstOfAll(list[1..], modifierClass, requiredTags);
    }
  }

  // ---------------------------------------------------------------------------------------
  // View rotation

  /** The delta composed onto the view: OrientationAwareComposeRotations(delta, view, view, -Up)
      with orientation-aware composition, plain addition otherwise. */
  function Composed(n: Numerics, orientationAware: bool, view: Rotator, delta: Rotator): Rotator
  {
    if orientationAware then n.composeRotations(delta, view, view) else view.Plus(delta)
  }

  /** The end of ProcessViewRotation: compose the delta onto the view, then normalise (head
      tracking) or clamp each axis to its limits. */
  function FinishViewRotation(n: Numerics, orientationAware: bool, headTrackingAllowed: bool, limits: ViewLimits,
                              view: Rotator, delta: Rotator): (r: Rotator)
    ensures headTrackingAllowed ==> r == n.normalize(Composed(n, orientationAware, view, delta))
    ensures !headTrackingAllowed ==>
              var c := Composed(n, orientationAware, view, delta);
              r == Rotator(n.limitAxis(c.pitch, limits.pitchMin, limits.pitchMax),
                           n.limitAxis(c.yaw, limits.yawMin, limits.yawMax),
                           n.limitAxis(c.roll, limits.rollMin, limits.rollMax))
  {
    var c := Composed(n, orientationAware, view, delta);
    if headTrackingAllowed then n.normalize(c)
    else Rotator(n.limitAxis(c.pitch, limits.pitchMin, limits.pitchMax),
                 n.limitAxis(c.yaw, limits.yawMin, limits.yawMax),
                 n.limitAxis(c.roll, limits.rollMin, limits.rollMax))
  }

  /** Without orientation-aware composition the delta is applied exactly once: finishing with the
      delta is finishing the view already moved by it with a zero delta. */
  lemma DeltaAppliedOnce(n: Numerics, headTrackingAllowed: bool, limits: ViewLimits, view: Rotator, delta: Rotator)
    ensures FinishViewRotation(n, false, headTrackingAllowed, limits, view, delta)
         == FinishViewRotation(n, false, headTrackingAllowed, limits, view.Plus(delta), ZeroRotator)
  {
    assert view.Plus(delta).Plus(ZeroRotator) == view.Plus(delta);
  }

  /** The delta a following velocity-to-yaw frame writes is the whole turn of that frame: composed
      without orientation awareness it puts the view exactly on the RInterpTo step towards the
      follow target at the follow speed, which is then normalised or clamped like any view. */
  lemma FollowDeltaReachesStep(n: Numerics, s: VelocityToYaw.FollowSettings, ctx: ViewContext, time: real, deltaTime: real,
                               headTrackingAllowed: bool, limits: ViewLimits, view: Rotator)
    requires VelocityToYaw.Follows(n, s, ctx, time, view)
    ensures var velocity := ctx.pawn.value.velocity;
            var step := n.rInterpTo(view, VelocityToYaw.FollowTarget(n, s, velocity, view), deltaTime,
                                    VelocityToYaw.FollowSpeed(n, s, time, velocity, view));
            FinishViewRotation(n, false, headTrackingAllowed, limits, view, VelocityToYaw.FollowDelta(n, s, time, velocity, deltaTime, view))
            == FinishViewRotation(n, false, headTrackingAllowed, limits, step, ZeroRotator)
  {
    var velocity := ctx.pawn.value.velocity;
    var step := n.rInterpTo(view, VelocityToYaw.FollowTarget(n, s, velocity, view), deltaTime,
                            VelocityToYaw.FollowSpeed(n, s, time, velocity, view));
    DeltaAppliedOnce(n, headTrackingAllowed, limits, view, step.Minus(view));
    assert view.Plus(step.Minus(view)) == step;
  }

  /** With head tracking the view limits play no part. */
  lemma HeadTrackingIgnoresLimits(n: Numerics, orientationAware: bool, l1: ViewLimits, l2: ViewLimits, view: Rotator, delta: Rotator)
    ensures FinishViewRotation(n, orientationAware, true, l1, view, delta) == FinishViewRotation(n, orientationAware, true, l2, view, delta)
  {
  }

  /** The list positions holding a modifier that is present and not disabled, below `k`. */
  ghost function EnabledUpTo(list: seq<Modifier?>, k: nat): (r: seq<nat>)
    requires k <= |list|
    reads (set m: Modifier | m in list)`disabled
    ensures forall i :: 0 <= i < |r| ==> r[i] < k && list[r[i]] != null && !list[r[i]].disabled
  {
    if k == 0 then []
    else EnabledUpTo(list, k - 1) + (if list[k - 1] != null && !list[k - 1].disabled then [k - 1] else [])
  }

  /** One modifier's turn in the view-rotation chain: its effective alpha and Blueprint hooks,
      the running (view, delta) pair it was given, its native candidate and what it returned. */
  datatype Turn = Turn(alpha: real, hooks: BlueprintHooks, input: (Rotator, Rotator),
                       native: (bool, Rotator, Rotator), result: (bool, Rotator, Rotator))

  /** A turn as UCDCameraModifierInstanced::ProcessViewRotation takes it: at alpha 0 the pair
      passes through and the chain goes on; otherwise the native candidate goes through the
      Blueprint hook and is blended in by BlendViewRotation. */
  predicate TurnTaken(n: Numerics, deltaTime: real, t: Turn)
  {
    if t.alpha == 0.0 then t.result == (false, t.input.0, t.input.1)
    else t.result == BlendViewRotation(n, t.alpha, t.input.0, t.input.1, t.native.0,
                                       t.hooks.processViewRotationBlended(t.alpha, deltaTime, t.native.1, t.native.1, t.native.1, t.native.2))
  }

  /** A turn stops the chain only for a modifier whose alpha is not zero, whose native part or
      Blueprint hook asked to stop, and whose candidate changed the pair. */
  lemma TurnStopsOnlyOnRequest(n: Numerics, deltaTime: real, t: Turn)
    requires TurnTaken(n, deltaTime, t) && t.result.0
    ensures t.alpha != 0.0
    ensures var bp := t.hooks.processViewRotationBlended(t.alpha, deltaTime, t.native.1, t.native.1, t.native.1, t.native.2);
            (t.native.0 || bp.0) && (bp.1 != t.input.0 || bp.2 != t.input.1)
  {
  }

  /** The view-rotation chain: the first turn starts from the incoming pair, each later turn from
      the pair the one before returned, and no turn but the last asked to stop. */
  predicate Chained(turns: seq<Turn>, start: (Rotator, Rotator))
    decreases |turns|
  {
    turns != [] ==>
      var k := |turns| - 1;
      Chained(turns[..k], start)
      && turns[k].input == (if k == 0 then start else (turns[k - 1].result.1, turns[k - 1].result.2))
      && (k > 0 ==> !turns[k - 1].result.0)
  }

  /** The chain spelled out turn by turn. */
  lemma {:induction false} ChainedEach(turns: seq<Turn>, start: (Rotator, Rotator))
    requires Chained(turns, start)
    ensures |turns| > 0 ==> turns[0].input == start
    ensures forall k :: 0 < k < |turns| ==> turns[k].input == (turns[k - 1].result.1, turns[k - 1].result.2)
    ensures forall k :: 0 <= k < |turns| - 1 ==> !turns[k].result.0
  {
    if turns != [] {
      var k := |turns| - 1;
      ChainedEach(turns[..k], start);
      assert forall j :: 0 <= j < k ==> turns[..k][j] == turns[j];
    }
  }

  /** A turn that starts from the end of a chain whose last turn did not stop extends it, and
      its result is the new end. */
  lemma ChainedSnoc(turns: seq<Turn>, start: (Rotator, Rotator), turn: Turn)
    requires Chained(turns, start) && (|turns| > 0 ==> !turns[|turns| - 1].result.0)
    requires turn.input == ChainEnd(turns, start)
    ensures Chained(turns + [turn], start)
    ensures ChainEnd(turns + [turn], start) == (turn.result.1, turn.result.2)
  {
    assert (turns + [turn])[..|turns|] == turns;
  }

  /** The pair at the end of the chain. */
  function ChainEnd(turns: seq<Turn>, start: (Rotator, Rotator)): (r: (Rotator, Rotator))
    ensures |turns| > 0 ==> r == (turns[|turns| - 1].result.1, turns[|turns| - 1].result.2)
  {
    if turns == [] then start else (turns[|turns| - 1].result.1, turns[|turns| - 1].result.2)
  }

  /** `turns` are the turns of the modifiers at positions `consulted` of `list`, in order, each
      taken as TurnTaken says, with that modifier's alpha and Blueprint hooks. */
  ghost predicate TurnsOf(n: Numerics, deltaTime: real, list: seq<Modifier?>, consulted: seq<nat>, turns: seq<Turn>)
    reads set m: Modifier | m in list
    decreases |turns|
  {
    |turns| == |consulted|
    && (turns != [] ==>
          var k := |turns| - 1;
          TurnsOf(n, deltaTime, list, consulted[..k], turns[..k])
          && consulted[k] < |list| && list[consulted[k]] != null
          && turns[k].alpha == list[consulted[k]].CurrentAlpha() && turns[k].hooks == list[consulted[k]].blueprint
          && TurnTaken(n, deltaTime, turns[k]))
  }

  /** Recording the turn of the modifier at position `i` extends the record. */
  lemma TurnsOfSnoc(n: Numerics, deltaTime: real, list: seq<Modifier?>, consulted: seq<nat>, turns: seq<Turn>, i: nat, turn: Turn)
    requires TurnsOf(n, deltaTime, list, consulted, turns)
    requires i < |list| && list[i] != null
    requires turn.alpha == list[i].CurrentAlpha() && turn.hooks == list[i].blueprint && TurnTaken(n, deltaTime, turn)
    ensures TurnsOf(n, deltaTime, list, consulted + [i], turns + [turn])
  {
    assert (consulted + [i])[..|consulted|] == consulted && (turns + [turn])[..|turns|] == turns;
  }

  /** Every recorded turn belongs to the modifier at its consulted position and was taken with
      that modifier's alpha and Blueprint hooks. */
  lemma {:induction false} TurnsOfEach(n: Numerics, deltaTime: real, list: seq<Modifier?>, consulted: seq<nat>, turns: seq<Turn>)
    requires TurnsOf(n, deltaTime, list, consulted, turns)
    ensures |turns| == |consulted|
    ensures forall k :: 0 <= k < |turns| ==>
              consulted[k] < |list| && list[consulted[k]] != null
              && turns[k].alpha == list[consulted[k]].CurrentAlpha() && turns[k].hooks == list[consulted[k]].blueprint
              && TurnTaken(n, deltaTime, turns[k])
  {
    if turns != [] {
      var k := |turns| - 1;
      TurnsOfEach(n, deltaTime, list, consulted[..k], turns[..k]);
      assert forall j :: 0 <= j < k ==> turns[..k][j] == turns[j] && consulted[..k][j] == consulted[j];
    }
  }

  /** A recorded chain that stopped was stopped by the last modifier consulted: its alpha is not
      zero, and its native part or its Blueprint hook asked to stop. */
  lemma ChainStopsOnlyOnRequest(n: Numerics, deltaTime: real, list: seq<Modifier?>, consulted: seq<nat>, turns: seq<Turn>)
    requires TurnsOf(n, deltaTime, list, consulted, turns)
    requires |turns| > 0 && turns[|turns| - 1].result.0
    ensures var k := |turns| - 1;
            var t := turns[k];
            consulted[k] < |list| && list[consulted[k]] != null && list[consulted[k]].CurrentAlpha() != 0.0
            && (t.native.0 || t.hooks.processViewRotationBlended(t.alpha, deltaTime, t.native.1, t.native.1, t.native.1, t.native.2).0)
  {
    TurnStopsOnlyOnRequest(n, deltaTime, turns[|turns| - 1]);
  }

  /** The velocity-to-yaw parts of the list's modifiers: all that view-rotation processing
      changes. */
  function FollowersOf(list: seq<Modifier?>): set<object>
  {
    set m: Modifier | m in list && m.variant.FollowVelocity? :: m.variant.velocityToYaw
  }

  /** A runtime modifier made by AddCameraData from template slot `slot`: valid, added to the
      camera, recording the data as its source, and with the template's own priority when that is
      custom, otherwise the modifier count before the call plus the slot's running index. */
  ghost predicate CloneFromSlot(clone: Modifier?, data: CameraData, failing: set<nat>, slot: nat, initialModCount: nat)
    reads (if clone == null then {} else {clone})`ownerValid, (if clone == null then {} else {clone})`cameraDataSource
  {
    var templates := data.cameraModifiers;
    clone != null && clone.valid && clone.ownerValid && clone.cameraDataSource == data
    && slot < |templates| && templates[slot] != null
    && clone.priority == (if templates[slot].useCustomPriority then templates[slot].priority
                          else initialModCount + SlotIndex(templates, failing, slot))
  }

  /** A template after AddCameraData: its runtime modifier exists, names the data as its source,
      and is among the clones that joined the list when it is valid. */
  ghost predicate Recorded(t: Modifier, data: CameraData, clones: seq<Modifier?>)
    reads t`runtimeModifier, (if t.runtimeModifier == null then {} else {t.runtimeModifier})`cameraDataSource
  {
    t.runtimeModifier != null && t.runtimeModifier.cameraDataSource == data
    && (t.runtimeModifier.valid ==> t.runtimeModifier in clones)
  }

  class PlayerCameraManager {
    var modifierList: seq<Modifier?>
    var cameraDataList: seq<CameraData>
    var useOrientationAwareRotationComposition: bool
    var limits: ViewLimits

    /** The constructor: nothing added yet, orientation-aware composition on. */
    constructor (limits: ViewLimits)
      ensures modifierList == [] && cameraDataList == [] && useOrientationAwareRotationComposition && this.limits == limits
    {
      modifierList := [];
      cameraDataList := [];
      useOrientationAwareRotationComposition := true;
      this.limits := limits;
    }

    /** The engine's AddCameraModifierToList, for a modifier not yet in the list: inserted before
        the first entry of an equal or greater priority (or at the end), then told it was added. */
    method AddCameraModifierToList(m: Modifier, cameraLocation: Vec3)
      requires m !in modifierList
      modifies this`modifierList, m`ownerValid, m`disabled, m`pendingDisable, m`markedForRemoval, m.variant.Objects()
      ensures old(SortedByPriority(modifierList)) ==> SortedByPriority(modifierList)
      ensures multiset(modifierList) == multiset(old(modifierList)) + multiset{m}
      ensures m.ownerValid && m.State() == AfterEnable(old(m.State()))
    {
      ghost var k := InsertByPriority(m);
      m.AddedToCamera(cameraLocation);
    }

    /** The insertion of AddCameraModifierToList: before the first entry of an equal or greater
        priority, or at the end, so a newcomer goes ahead of the entries sharing its priority. */
    method InsertByPriority(m: Modifier) returns (ghost k: nat)
      modifies this`modifierList
      ensures k <= |old(modifierList)| && modifierList == old(modifierList)[..k] + [m] + old(modifierList)[k..]
      ensures forall j :: 0 <= j < k && old(modifierList)[j] != null ==> old(modifierList)[j].priority < m.priority
      ensures k < |old(modifierList)| ==> old(modifierList)[k] != null && old(modifierList)[k].priority >= m.priority
      ensures SortedByPriority(old(modifierList)) ==> SortedByPriority(modifierList)
      ensures multiset(modifierList) == multiset(old(modifierList)) + multiset{m}
    {
      var best := 0;
      while best < |modifierList|
        invariant 0 <= best <= |modifierList|
        invariant forall j :: 0 <= j < best && modifierList[j] != null ==> modifierList[j].priority < m.priority
      {
        var e := modifierList[best];
        if e != null && m.priority <= e.priority {
          break;
        }
        best := best + 1;
      }
      InsertByPriorityFacts(modifierList, best, m);
      modifierList := modifierList[..best] + [m] + modifierList[best..];
      k := best;
    }

    /** One slot of AddCameraData: duplicate the template, record the data as the duplicate's
        source and the duplicate as the template's runtime modifier; a valid duplicate takes
        `batchPriority` unless it uses a custom priority, and joins the modifier list. */
    method AddDuplicate(template: Modifier, valid: bool, data: CameraData, batchPriority: int, cameraLocation: Vec3)
      returns (clone: Modifier)
      modifies this`modifierList, template`runtimeModifier
      ensures fresh(clone) && clone.valid == valid && clone.cameraDataSource == data && template.runtimeModifier == clone
      ensures !valid ==> modifierList == old(modifierList)
      ensures valid ==> multiset(modifierList) == multiset(old(modifierList)) + multiset{clone}
      ensures valid ==> clone.ownerValid
                        && clone.priority == (if template.useCustomPriority then template.priority else batchPriority)
      ensures old(SortedByPriority(modifierList)) ==> SortedByPriority(modifierList)
    {
      var priority := if valid && !template.useCustomPriority then batchPriority else template.priority;
      clone := new Modifier.Duplicate(template, valid, priority);
      clone.cameraDataSource := data;
      template.runtimeModifier := clone;
      if clone.valid {
        AddCameraModifierToList(clone, cameraLocation);
      }
    }

    /** AddCameraData. Invalid (null) data and data without modifiers change nothing. Otherwise
        every non-empty template slot is duplicated; the duplicate records the data as its source
        and becomes the template's runtime modifier; a valid duplicate gets the batch priority
        (unless it uses a custom priority) and joins the modifier list; finally the data is
        appended to the data list, duplicates allowed. `failing` names the slots whose
        duplication gives an invalid object. */
    method AddCameraData(data: CameraData?, failing: set<nat>, cameraLocation: Vec3) returns (ghost clones: seq<Modifier?>)
      modifies this`modifierList, this`cameraDataList, (set t: Modifier | data != null && t in data.cameraModifiers)`runtimeModifier
      ensures data == null || |data.cameraModifiers| == 0 ==>
                clones == [] && modifierList == old(modifierList) && cameraDataList == old(cameraDataList)
      ensures data != null && |data.cameraModifiers| > 0 ==> cameraDataList == old(cameraDataList) + [data]
      ensures multiset(modifierList) == multiset(old(modifierList)) + multiset(clones)
      ensures old(SortedByPriority(modifierList)) ==> SortedByPriority(modifierList)
      ensures data != null ==>
                var slots := ClonedSlots(data.cameraModifiers, failing, |data.cameraModifiers|);
                |clones| == |slots|
                && forall k :: 0 <= k < |clones| ==>
                     fresh(clones[k]) && CloneFromSlot(clones[k], data, failing, slots[k], |old(modifierList)|)
      ensures data != null ==>
                forall t: Modifier :: t in data.cameraModifiers ==>
                  fresh(t.runtimeModifier) && Recorded(t, data, modifierList)
    {
      clones := [];
      if data == null || |data.cameraModifiers| == 0 {
        return;
      }
      clones := DuplicateTemplates(data, failing, cameraLocation, set t: Modifier | t in data.cameraModifiers);
      cameraDataList := cameraDataList + [data];
      forall t: Modifier | t in data.cameraModifiers
        ensures Recorded(t, data, modifierList)
      {
        assert Recorded(t, data, clones);
        assert t.runtimeModifier.valid ==> t.runtimeModifier in multiset(modifierList);
      }
    }

    /** The loop of AddCameraData over the template slots. */
    method DuplicateTemplates(data: CameraData, failing: set<nat>, cameraLocation: Vec3, ghost templateSet: set<Modifier>)
      returns (ghost clones: seq<Modifier?>)
      requires forall j :: 0 <= j < |data.cameraModifiers| && data.cameraModifiers[j] != null ==> data.cameraModifiers[j] in templateSet
      modifies this`modifierList, templateSet`runtimeModifier
      ensures multiset(modifierList) == multiset(old(modifierList)) + multiset(clones)
      ensures old(SortedByPriority(modifierList)) ==> SortedByPriority(modifierList)
      ensures var slots := ClonedSlots(data.cameraModifiers, failing, |data.cameraModifiers|);
              |clones| == |slots|
              && forall k :: 0 <= k < |clones| ==>
                   fresh(clones[k]) && CloneFromSlot(clones[k], data, failing, slots[k], |old(modifierList)|)
      ensures forall t: Modifier :: t in data.cameraModifiers ==> fresh(t.runtimeModifier) && Recorded(t, data, clones)
    {
      clones := [];
      var templates := data.cameraModifiers;
      var index := 0;
      var initialModCount := |modifierList|;
      ghost var start := modifierList;
      ghost var wasSorted := SortedByPriority(modifierList);
      var i := 0;
      ghost var slots: seq<nat> := [];
      while i < |templates|
        invariant 0 <= i <= |templates|
        invariant index == SlotIndex(templates, failing, i)
        invariant slots == ClonedSlots(templates, failing, i) && |clones| == |slots|
        invariant multiset(modifierList) == multiset(start) + multiset(clones)
        invariant wasSorted ==> SortedByPriority(modifierList)
        invariant forall k :: 0 <= k < |clones| ==> fresh(clones[k])
        invariant forall k :: 0 <= k < |clones| ==> CloneFromSlot(clones[k], data, failing, slots[k], initialModCount)
        invariant forall t: Modifier :: t in templates[..i] ==> fresh(t.runtimeModifier)
        invariant forall t: Modifier :: t in templates[..i] ==> Recorded(t, data, clones)
      {
        ghost var before := clones;
        index, clones, slots := DuplicateSlot(data, failing, cameraLocation, i, index, initialModCount, start, wasSorted, clones, slots);
        forall k | 0 <= k < |clones|
          ensures fresh(clones[k])
        {
          if k < |before| {
            assert clones[k] == before[k];
          }
        }
        forall t: Modifier | t in templates[..i + 1]
          ensures fresh(t.runtimeModifier)
        {
          if t != templates[i] {
            assert t in templates[..i];
          }
        }
        i := i + 1;
      }
      assert templates[..i] == templates;
    }

    /** One slot of that loop: a non-empty template is duplicated, and its duplicate is appended
        to `clones` (its slot to `slots`) when it is valid. */
    method DuplicateSlot(data: CameraData, failing: set<nat>, cameraLocation: Vec3, i: nat, index: nat, initialModCount: nat,
                         ghost start: seq<Modifier?>, ghost wasSorted: bool, ghost clones: seq<Modifier?>, ghost slots: seq<nat>)
      returns (nextIndex: nat, ghost clones': seq<Modifier?>, ghost slots': seq<nat>)
      requires i < |data.cameraModifiers| && index == SlotIndex(data.cameraModifiers, failing, i)
      requires slots == ClonedSlots(data.cameraModifiers, failing, i) && |clones| == |slots|
      requires multiset(modifierList) == multiset(start) + multiset(clones)
      requires wasSorted ==> SortedByPriority(modifierList)
      requires forall k :: 0 <= k < |clones| ==> CloneFromSlot(clones[k], data, failing, slots[k], initialModCount)
      requires forall t: Modifier :: t in data.cameraModifiers[..i] ==> Recorded(t, data, clones)
      modifies this`modifierList, (if data.cameraModifiers[i] == null then {} else {data.cameraModifiers[i]})`runtimeModifier
      ensures nextIndex == SlotIndex(data.cameraModifiers, failing, i + 1)
      ensures slots' == ClonedSlots(data.cameraModifiers, failing, i + 1) && |clones'| == |slots'|
      ensures multiset(modifierList) == multiset(start) + multiset(clones')
      ensures wasSorted ==> SortedByPriority(modifierList)
      ensures |clones| <= |clones'| && clones'[..|clones|] == clones
      ensures forall k :: |clones| <= k < |clones'| ==> fresh(clones'[k])
      ensures forall k :: 0 <= k < |clones'| ==> CloneFromSlot(clones'[k], data, failing, slots'[k], initialModCount)
      ensures forall t: Modifier :: t in data.cameraModifiers[..i + 1] ==> Recorded(t, data, clones')
      ensures forall t: Modifier :: t in data.cameraModifiers[..i + 1] ==>
                if t == data.cameraModifiers[i] then fresh(t.runtimeModifier) else t.runtimeModifier == old(t.runtimeModifier)
    {
      var template := data.cameraModifiers[i];
      clones', slots' := clones, slots;
      nextIndex := index + 1;
      if template != null {
        var clone := AddDuplicate(template, i !in failing, data, initialModCount + index, cameraLocation);
        if clone.valid {
          clones', slots' := clones + [clone], slots + [i];
        } else {
          nextIndex := index;
        }
      }
      assert data.cameraModifiers[..i + 1] == data.cameraModifiers[..i] + [template];
      forall t: Modifier | t in data.cameraModifiers[..i + 1]
        ensures Recorded(t, data, clones')
      {
        if t != template {
          assert t in data.cameraModifiers[..i];
        }
      }
    }

    /** One more MarkForRemoval of a runtime modifier already marked `count` times. */
    static method MarkAgain(m: Modifier, ghost count: nat, ghost s: BlendState, ghost q: seq<RemovalRequest>)
      requires WasMarked(m, count, s, q)
      modifies m`disabled, m`pendingDisable, m`removalRequests
      ensures WasMarked(m, count + 1, s, q)
    {
      DisableTwiceIsDisableOnce(s);
      m.MarkForRemoval();
    }

    /** RemoveCameraData. Invalid (null) data, or data that was never added, gives false and
        changes nothing. Otherwise every valid template whose runtime modifier is in the modifier
        list has that modifier marked for removal (once per such slot), every other runtime
        modifier of the data is left as it was, the first occurrence of the data leaves the data
        list, and the result is true. */
    method RemoveCameraData(data: CameraData?) returns (removed: bool)
      modifies this`cameraDataList, MarkTargets(data)`disabled, MarkTargets(data)`pendingDisable, MarkTargets(data)`removalRequests
      ensures !removed <==> data == null || data !in old(cameraDataList)
      ensures !removed ==> cameraDataList == old(cameraDataList) && unchanged(MarkTargets(data))
      ensures removed ==> cameraDataList == RemoveFirst<CameraData>(old(cameraDataList), data)
      ensures removed ==>
                var runtimes := Runtimes(data.cameraModifiers);
                forall j :: 0 <= j < |runtimes| && runtimes[j] != null ==>
                  WasMarked(runtimes[j], MarkCount(data.cameraModifiers, runtimes, modifierList, |runtimes|, runtimes[j]),
                            old(runtimes[j].State()), old(runtimes[j].removalRequests))
      ensures forall m: Modifier :: m in MarkTargets(data) ==>
                BlendingOutIf(m, removed && MarkedIn([data], modifierList, m), old(m.State()))
    {
      if data == null || data !in cameraDataList {
        return false;
      }
      var templates := data.cameraModifiers;
      ghost var runtimes := Runtimes(templates);
      MarkRuntimeModifiers(templates, runtimes, MarkTargets(data));
      forall m: Modifier | m in MarkTargets(data)
        ensures BlendingOutIf(m, MarkedIn([data], modifierList, m), old(m.State()))
      {
        var t: Modifier :| t in templates && t.runtimeModifier == m;
        var j :| 0 <= j < |templates| && templates[j] == t;
        MarkedIffListedRuntime(templates, runtimes, modifierList, |templates|, m);
        if MarkedIn([data], modifierList, m) {
          var d, u: Modifier :| d in [data] && u in d.cameraModifiers && u.valid && u.runtimeModifier == m;
          var k :| 0 <= k < |templates| && templates[k] == u;
          assert runtimes[k] == m;
        }
      }
      var listed: CameraData := data;
      cameraDataList := RemoveFirst(cameraDataList, listed);
      removed := true;
    }

    /** The loop of RemoveCameraData over the template slots, whose runtime modifiers are
        `runtimes`. */
    method MarkRuntimeModifiers(templates: seq<Modifier?>, ghost runtimes: seq<Modifier?>, ghost targets: set<Modifier?>)
      requires runtimes == Runtimes(templates)
      requires forall j :: 0 <= j < |runtimes| && runtimes[j] != null ==> runtimes[j] in targets
      modifies targets`disabled, targets`pendingDisable, targets`removalRequests
      ensures forall j :: 0 <= j < |runtimes| && runtimes[j] != null ==>
                WasMarked(runtimes[j], MarkCount(templates, runtimes, modifierList, |templates|, runtimes[j]),
                          old(runtimes[j].State()), old(runtimes[j].removalRequests))
    {
      var list := modifierList;
      ghost var states := StatesOf(runtimes);
      ghost var requests := RequestsOf(runtimes);
      assert forall j :: 0 <= j < |runtimes| && runtimes[j] != null ==>
               states[j] == old(runtimes[j].State()) && requests[j] == old(runtimes[j].removalRequests);
      assert SnapshotsAgree(runtimes, states, requests);
      forall j | 0 <= j < |runtimes| && runtimes[j] != null
        ensures WasMarked(runtimes[j], MarkCount(templates, runtimes, list, 0, runtimes[j]), states[j], requests[j])
      {
        var m := runtimes[j];
        assert requests[j] + Repeat(MarkForRemovalRequests(m.config, m.ownerValid), 0) == requests[j];
      }
      var i := 0;
      while i < |templates|
        invariant 0 <= i <= |templates| == |runtimes|
        invariant forall j :: 0 <= j < |templates| && templates[j] != null ==> runtimes[j] == templates[j].runtimeModifier
        invariant forall j :: 0 <= j < |runtimes| && runtimes[j] != null ==>
                    WasMarked(runtimes[j], MarkCount(templates, runtimes, list, i, runtimes[j]), states[j], requests[j])
      {
        MarkSlot(templates, runtimes, list, i, states, requests, targets);
        i := i + 1;
      }
    }

    /** One slot of that loop: a valid template whose runtime modifier is in the list has that
        modifier marked once more. */
    static method MarkSlot(templates: seq<Modifier?>, ghost runtimes: seq<Modifier?>, list: seq<Modifier?>, i: nat,
                           ghost states: seq<BlendState>, ghost requests: seq<seq<RemovalRequest>>, ghost targets: set<Modifier?>)
      requires i < |templates| == |runtimes| == |states| == |requests|
      requires runtimes[i] != null ==> runtimes[i] in targets
      requires forall j :: 0 <= j < |templates| && templates[j] != null ==> runtimes[j] == templates[j].runtimeModifier
      requires SnapshotsAgree(runtimes, states, requests)
      requires forall j :: 0 <= j < |runtimes| && runtimes[j] != null ==>
                 WasMarked(runtimes[j], MarkCount(templates, runtimes, list, i, runtimes[j]), states[j], requests[j])
      modifies targets`disabled, targets`pendingDisable, targets`removalRequests
      ensures forall j :: 0 <= j < |templates| && templates[j] != null ==> runtimes[j] == templates[j].runtimeModifier
      ensures forall j :: 0 <= j < |runtimes| && runtimes[j] != null ==>
                WasMarked(runtimes[j], MarkCount(templates, runtimes, list, i + 1, runtimes[j]), states[j], requests[j])
    {
      var template := templates[i];
      if template != null && template.valid && template.runtimeModifier != null && template.runtimeModifier in list {
        var m := template.runtimeModifier;
        MarkAgain(m, MarkCount(templates, runtimes, list, i, m), states[i], requests[i]);
        forall j | 0 <= j < |runtimes| && runtimes[j] != null && runtimes[j] != m
          ensures WasMarked(runtimes[j], MarkCount(templates, runtimes, list, i + 1, runtimes[j]), states[j], requests[j])
        {
          assert unchanged(runtimes[j]);
          assert old(WasMarked(runtimes[j], MarkCount(templates, runtimes, list, i, runtimes[j]), states[j], requests[j]));
        }
      }
    }

    /** RemoveAllCameraData: RemoveCameraData for each entry of a copy of the data list. The list
        ends empty, and every runtime modifier of every removed data is blending out if it was in
        the modifier list and came from a valid template, and untouched otherwise. */
    method RemoveAllCameraData()
      modifies this`cameraDataList, AllMarkTargets(cameraDataList)`disabled, AllMarkTargets(cameraDataList)`pendingDisable,
               AllMarkTargets(cameraDataList)`removalRequests
      ensures cameraDataList == []
      ensures forall m: Modifier :: m in old(AllMarkTargets(cameraDataList)) ==>
                BlendingOutIf(m, old(MarkedIn(cameraDataList, modifierList, m)), old(m.State()))
    {
      var copy := cameraDataList;
      ghost var targets := AllMarkTargets(copy);
      ghost var initial := map m: Modifier | m in targets :: m.State();
      var i := 0;
      while i < |copy|
        invariant 0 <= i <= |copy|
        invariant multiset(cameraDataList) == multiset(copy[i..])
        invariant forall m: Modifier :: m in initial ==> BlendingOutIf(m, MarkedIn(copy[..i], modifierList, m), initial[m])
      {
        RemoveOneCameraData(copy, i, initial, targets);
        i := i + 1;
      }
      assert copy[i..] == [];
      assert |multiset(cameraDataList)| == 0;
      assert copy[..i] == copy;
      forall m: Modifier | m in targets
        ensures BlendingOutIf(m, old(MarkedIn(cameraDataList, modifierList, m)), old(m.State()))
      {
        assert m in initial && initial[m] == old(m.State());
      }
    }

    /** One step of RemoveAllCameraData: the `i`-th entry of the copy is removed. */
    method RemoveOneCameraData(copy: seq<CameraData>, i: nat, ghost initial: map<Modifier, BlendState>, ghost targets: set<Modifier?>)
      requires i < |copy| && multiset(cameraDataList) == multiset(copy[i..])
      requires MarkTargets(copy[i]) <= targets
      requires forall m: Modifier :: m in initial ==> BlendingOutIf(m, MarkedIn(copy[..i], modifierList, m), initial[m])
      modifies this`cameraDataList, targets`disabled, targets`pendingDisable, targets`removalRequests
      ensures multiset(cameraDataList) == multiset(copy[i + 1..])
      ensures forall m: Modifier :: m in initial ==> BlendingOutIf(m, MarkedIn(copy[..i + 1], modifierList, m), initial[m])
    {
      var data := copy[i];
      assert copy[i..] == [data] + copy[i + 1..];
      assert data in multiset(cameraDataList);
      ghost var before := cameraDataList;
      var removed := RemoveCameraData(data);
      RemoveFirstCount(before, data);
      forall m: Modifier | m in initial
        ensures BlendingOutIf(m, MarkedIn(copy[..i + 1], modifierList, m), initial[m])
      {
        ghost var s0, s1, s2 := initial[m], old(m.State()), m.State();
        ghost var earlier := MarkedIn(copy[..i], modifierList, m);
        assert BlendingOutFrom(s1, earlier, s0) by {
          assert old(BlendingOutIf(m, MarkedIn(copy[..i], modifierList, m), initial[m]));
        }
        MarkedInStep(copy, i, modifierList, m);
        ghost var now := m in modifierList && exists u: Modifier :: u in data.cameraModifiers && u.valid && u.runtimeModifier == m;
        if m in old(MarkTargets(data)) {
          assert MarkedIn([data], modifierList, m) == now;
          BlendingOutChains(s0, s1, s2, earlier, now);
        } else {
          assert !now;
          assert s2 == s1;
          BlendingOutChains(s0, s1, s2, earlier, false);
        }
      }
    }

    /** GetActiveModifierOfClass: the first modifier of the list that is of the class and, when
        tags are asked for, owns them all; null when there is none. */
    method GetActiveModifierOfClass(modifierClass: string, requiredTags: set<string>) returns (r: Modifier?)
      requires NoNulls(modifierList)
      ensures r == FirstMatch(modifierList, modifierClass, requiredTags)
    {
      var i := 0;
      while i < |modifierList|
        invariant 0 <= i <= |modifierList|
        invariant FirstMatch(modifierList, modifierClass, requiredTags) == FirstMatch(modifierList[i..], modifierClass, requiredTags)
      {
        var m := modifierList[i];
        if modifierClass in m.classes {
          if requiredTags == {} {
            return m;
          }
          if m.valid && requiredTags <= m.gameplayTags {
            return m;
          }
        }
        assert modifierList[i..][1..] == modifierList[i + 1..];
        i := i + 1;
      }
      return null;
    }

    /** GetAllActiveModifiersOfClass: every modifier of the list that is of the class and, when
        tags are asked for, owns them all, in list order. */
    method GetAllActiveModifiersOfClass(modifierClass: string, requiredTags: set<string>) returns (r: seq<Modifier?>)
      requires NoNulls(modifierList)
      ensures r == AllMatches(modifierList, modifierClass, requiredTags)
    {
      r := [];
      var i := 0;
      while i < |modifierList|
        invariant 0 <= i <= |modifierList|
        invariant r + AllMatches(modifierList[i..], modifierClass, requiredTags) == AllMatches(modifierList, modifierClass, requiredTags)
      {
        var m := modifierList[i];
        assert modifierList[i..][1..] == modifierList[i + 1..];
        if modifierClass in m.classes {
          if requiredTags == {} || (m.valid && requiredTags <= m.gameplayTags) {
            r := r + [m];
          }
        }
        i := i + 1;
      }
    }

    /** One modifier's turn in ProcessViewRotation, recorded in `turn`: only its velocity-to-yaw
        part may change. */
    static method Consult(m: Modifier, n: Numerics, ctx: ViewContext, deltaTime: real, viewRotation: Rotator, deltaRot: Rotator)
      returns (stop: bool, outViewRotation: Rotator, outDeltaRot: Rotator, ghost turn: Turn)
      modifies m.variant.RotationObjects()
      ensures turn.alpha == m.CurrentAlpha() && turn.hooks == m.blueprint && turn.input == (viewRotation, deltaRot)
      ensures turn.result == (stop, outViewRotation, outDeltaRot) && TurnTaken(n, deltaTime, turn)
      ensures m.CurrentAlpha() != 0.0 ==> m.NativeRotation(n, ctx, deltaTime, viewRotation, deltaRot, turn.native)
    {
      ghost var native: (bool, Rotator, Rotator);
      stop, outViewRotation, outDeltaRot, native := m.ProcessViewRotation(n, ctx, deltaTime, viewRotation, deltaRot);
      turn := Turn(m.CurrentAlpha(), m.blueprint, (viewRotation, deltaRot), native, (stop, outViewRotation, outDeltaRot));
    }

    /** ProcessViewRotation's loop before position `i`: `consulted` are the enabled positions
        below `i`, `turns` their turns, chained from `start` to (`view`, `delta`), none of them a
        stop. */
    static ghost predicate Walked(n: Numerics, deltaTime: real, list: seq<Modifier?>, i: nat, start: (Rotator, Rotator),
                                  view: Rotator, delta: Rotator, consulted: seq<nat>, turns: seq<Turn>)
      reads set m: Modifier | m in list
    {
      i <= |list| && consulted == EnabledUpTo(list, i) && TurnsOf(n, deltaTime, list, consulted, turns)
      && Chained(turns, start) && (view, delta) == ChainEnd(turns, start)
      && (|turns| > 0 ==> !turns[|turns| - 1].result.0)
    }

    /** One pass of ProcessViewRotation's loop, at list position `i`: a modifier that is present
        and not disabled is consulted with the running pair and its turn is recorded; any other
        position is skipped. */
    static method Visit(list: seq<Modifier?>, i: nat, n: Numerics, ctx: ViewContext, deltaTime: real,
                        start: (Rotator, Rotator), view: Rotator, delta: Rotator,
                        ghost consulted: seq<nat>, ghost turns: seq<Turn>)
      returns (stop: bool, view': Rotator, delta': Rotator, ghost consulted': seq<nat>, ghost turns': seq<Turn>)
      requires i < |list| && Walked(n, deltaTime, list, i, start, view, delta, consulted, turns)
      modifies FollowersOf(list)
      ensures !stop ==> Walked(n, deltaTime, list, i + 1, start, view', delta', consulted', turns')
      ensures stop ==> consulted' == EnabledUpTo(list, i + 1) && |consulted'| > 0 && consulted'[|consulted'| - 1] == i
                       && TurnsOf(n, deltaTime, list, consulted', turns')
                       && Chained(turns', start) && (view', delta') == ChainEnd(turns', start)
                       && |turns'| > 0 && turns'[|turns'| - 1].result.0
    {
      var m := list[i];
      if m != null && !m.disabled {
        ghost var turn: Turn;
        stop, view', delta', turn := Consult(m, n, ctx, deltaTime, view, delta);
        consulted' := consulted + [i];
        ChainedSnoc(turns, start, turn);
        TurnsOfSnoc(n, deltaTime, list, consulted, turns, i, turn);
        turns' := turns + [turn];
      } else {
        stop, view', delta', consulted', turns' := false, view, delta, consulted, turns;
      }
    }

    /** The loop of ProcessViewRotation: each modifier of `list` that is present and not
        disabled, in order, processes the running pair from `start`, until one asks to stop. */
    static method RunChain(list: seq<Modifier?>, n: Numerics, ctx: ViewContext, deltaTime: real, start: (Rotator, Rotator))
      returns (chained: (Rotator, Rotator), ghost consulted: seq<nat>, ghost stopped: bool, ghost turns: seq<Turn>)
      modifies FollowersOf(list)
      ensures TurnsOf(n, deltaTime, list, consulted, turns)
      ensures Chained(turns, start) && chained == ChainEnd(turns, start)
      ensures stopped <==> |turns| > 0 && turns[|turns| - 1].result.0
      ensures !stopped ==> consulted == EnabledUpTo(list, |list|)
      ensures stopped ==> |consulted| > 0 && consulted[|consulted| - 1] < |list|
                          && consulted == EnabledUpTo(list, consulted[|consulted| - 1] + 1)
    {
      var view, delta := start.0, start.1;
      consulted := [];
      turns := [];
      stopped := false;
      var i := 0;
      while i < |list|
        invariant Walked(n, deltaTime, list, i, start, view, delta, consulted, turns)
        invariant !stopped
      {
        var stop: bool;
        stop, view, delta, consulted, turns := Visit(list, i, n, ctx, deltaTime, start, view, delta, consulted, turns);
        if stop {
          stopped := true;
          break;
        }
        i := i + 1;
      }
      chained := (view, delta);
    }

    /** ProcessViewRotation. Each modifier of the list that is present and not disabled, in order,
        processes the running view rotation and delta, until one asks to stop; `consulted` are
        the positions asked, `turns` what each of them was given and returned, `chained` the
        running pair at the end. The delta is then composed onto the view (orientation-aware or
        added), the delta comes back zero, and the view is normalised under head tracking or
        clamped to the view limits. */
    method ProcessViewRotation(n: Numerics, ctx: ViewContext, deltaTime: real, viewRotation: Rotator, deltaRot: Rotator,
                               headTrackingAllowed: bool)
      returns (outViewRotation: Rotator, outDeltaRot: Rotator, ghost consulted: seq<nat>, ghost stopped: bool,
               ghost chained: (Rotator, Rotator), ghost turns: seq<Turn>)
      modifies FollowersOf(modifierList)
      ensures TurnsOf(n, deltaTime, modifierList, consulted, turns)
      ensures Chained(turns, (viewRotation, deltaRot)) && chained == ChainEnd(turns, (viewRotation, deltaRot))
      ensures stopped <==> |turns| > 0 && turns[|turns| - 1].result.0
      ensures !stopped ==> consulted == EnabledUpTo(modifierList, |modifierList|)
      ensures stopped ==> |consulted| > 0 && consulted[|consulted| - 1] < |modifierList|
                          && consulted == EnabledUpTo(modifierList, consulted[|consulted| - 1] + 1)
      ensures outViewRotation == FinishViewRotation(n, useOrientationAwareRotationComposition, headTrackingAllowed, limits,
                                                    chained.0, chained.1)
      ensures outDeltaRot == ZeroRotator
    {
      var pair;
      pair, consulted, stopped, turns := RunChain(modifierList, n, ctx, deltaTime, (viewRotation, deltaRot));
      chained := pair;
      outViewRotation := FinishViewRotation(n, useOrientationAwareRotationComposition, headTrackingAllowed, limits, pair.0, pair.1);
      outDeltaRot := ZeroRotator;
    }
  }
}
