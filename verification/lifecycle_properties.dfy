/**
 * Properties of an ability's life cycle as a value: while one ability runs on a
 * component, the component's status tags, its follow-up window and the
 * ability's activity mirror the ability's phase, every transition keeps that
 * agreement, every other tag is left alone, and ending or cancelling leaves no
 * status tag behind.
 */
module LifecycleProperties {
  import opened Wrappers
  import opened GameplayTags
  import opened AbilityDefs
  import opened AbilityHooks
  import opened AbilitySystem

  /**
   * The component's view agrees with the ability's phase: on authority each
   * phase tag is held exactly while the ability is in that phase; the window
   * holds one more Waiting count while it is open; Block.WeaponSwitch is held
   * exactly while Executing; the window is the ability's follow-up inputs
   * while Waiting and closed otherwise.
   */
  predicate TagsAgree(s: Lifecycle, kind: AbilityKind, authority: bool)
  {
    && s.tags.preparing == (if authority && s.phase == Preparing then 1 else 0)
    && s.tags.executing == (if authority && s.phase == Executing then 1 else 0)
    && s.tags.waiting == (if authority && s.phase == Waiting then 1 else 0) + (if s.window != {} then 1 else 0)
    && s.tags.weaponSwitch == (if s.phase == Executing then 1 else 0)
    && s.window == (if s.phase == Waiting then FollowUpInputs(ConfigOf(kind).followUp) else {})
    && (s.window == {} ==> s.windowOwner == None)
  }

  /** The tags agree, the ability is active exactly while it has a phase, and the follow-up timer runs only in Waiting. */
  predicate Consistent(s: Lifecycle, kind: AbilityKind, authority: bool)
  {
    && TagsAgree(s, kind, authority)
    && (s.active <==> s.phase != NoPhase)
    && (s.timeoutArmed ==> s.phase == Waiting)
  }

  /** The tags an ability does not own keep their counts. */
  predicate OtherTagsKept(before: LooseTags, after: LooseTags)
  {
    after.others == before.others && after.activationBlock == before.activationBlock
  }

  /** The store with every status tag the ability drives back at zero. */
  function Released(tags: LooseTags): LooseTags
  {
    tags.(preparing := 0, waiting := 0, executing := 0, weaponSwitch := 0)
  }

  /** An idle ability on a component it has left clean. */
  predicate Idle(s: Lifecycle)
  {
    && s.phase == NoPhase && !s.active && !s.timeoutArmed && s.window == {} && s.windowOwner == None
    && s.previousEquipment == NoInteractor
  }

  /** An idle ability whose component holds no status tag is consistent. */
  lemma IdleIsConsistent(s: Lifecycle, kind: AbilityKind, authority: bool)
    requires Idle(s) && s.tags == Released(s.tags)
    ensures Consistent(s, kind, authority)
  {
  }

  /**
   * EndAbility from any consistent state: the ability is idle, every status
   * tag it drove is back at zero, and nothing else on the component moved.
   */
  lemma EndLeavesNoTags(s: Lifecycle, kind: AbilityKind, authority: bool)
    requires Consistent(s, kind, authority)
    ensures var e := EndedState(s, kind, authority);
      && Idle(e) && e.tags == Released(s.tags) && Consistent(e, kind, authority)
  {
    var e := EndedState(s, kind, authority);
    assert e.tags == EndTags(s.tags, s.phase, authority);
  }

  /** CancelAbility (and the follow-up timeout) from any consistent state: the same clean end. */
  lemma CancelLeavesNoTags(s: Lifecycle, kind: AbilityKind, authority: bool)
    requires Consistent(s, kind, authority)
    ensures var c := CancelledState(s, kind, authority);
      && Idle(c) && c.tags == Released(s.tags) && Consistent(c, kind, authority)
  {
    EndLeavesNoTags(s, kind, authority);
  }

  /** Entering Waiting from Preparing keeps the agreement and touches no other tag. */
  lemma WaitingKeepsConsistent(s: Lifecycle, kind: AbilityKind, assets: Assets, authority: bool, w: World)
    requires Consistent(s, kind, authority) && s.phase == Preparing
    ensures var n := WaitingEntered(WithPhase(s, Waiting, authority), kind, assets, authority, w);
      && n.phase == Waiting && n.timeoutArmed
      && Consistent(n, kind, authority) && OtherTagsKept(s.tags, n.tags)
  {
    assert FollowUpInputs(ConfigOf(kind).followUp) == {} <==> ConfigOf(kind).followUp == NoFollowUp;
  }

  /** A montage that completes or blends out keeps the agreement. */
  lemma MontageCompletionKeepsConsistent(s: Lifecycle, kind: AbilityKind, assets: Assets, authority: bool, w: World)
    requires Consistent(s, kind, authority)
    ensures var n := MontageCompleted(s, kind, assets, authority, w);
      Consistent(n, kind, authority) && OtherTagsKept(s.tags, n.tags)
  {
    match s.phase
    case Preparing => WaitingKeepsConsistent(s, kind, assets, authority, w);
    case Executing => EndLeavesNoTags(s, kind, authority);
    case _ =>
  }

  /** An instant ability, switched on, entering Executing: the agreement holds, and so it does after what follows. */
  lemma ExecutionKeepsConsistent(s: Lifecycle, kind: AbilityKind, assets: Assets, authority: bool)
    requires TagsAgree(s, kind, authority) && s.phase == NoPhase && s.active && !s.timeoutArmed
    ensures var n := Executed(WithPhase(s, Executing, authority), kind, assets, authority);
      Consistent(n, kind, authority) && OtherTagsKept(s.tags, n.tags)
      && (assets.executeMontage ==> n.phase == Executing && !n.timeoutArmed)
      && (!assets.executeMontage ==> Idle(n) && n.tags == Released(s.tags))
  {
    var x := WithPhase(s, Executing, authority);
    assert Consistent(x, kind, authority);
    if !assets.executeMontage {
      EndLeavesNoTags(x, kind, authority);
    }
  }

  /**
   * Activation of an idle ability keeps the agreement: afterwards the ability
   * is in the first phase of its activation policy, or already ended.
   */
  lemma ActivationKeepsConsistent(s: Lifecycle, kind: AbilityKind, assets: Assets, authority: bool, w: World)
    requires Consistent(s, kind, authority) && !s.active
    ensures var n := Activated(s, kind, assets, authority, w);
      Consistent(n, kind, authority) && OtherTagsKept(s.tags, n.tags)
  {
    var saved := EquipmentSaved(s.(active := true), authority);
    assert TagsAgree(saved, kind, authority);
    match ConfigOf(kind).activation
    case Instant => ExecutionKeepsConsistent(saved, kind, assets, authority);
    case WithPrepare => PreparationKeepsConsistent(saved, kind, assets, authority, w);
  }

  /** An ability with a preparation, switched on, entering Preparing (and Waiting without a prepare montage). */
  lemma PreparationKeepsConsistent(s: Lifecycle, kind: AbilityKind, assets: Assets, authority: bool, w: World)
    requires TagsAgree(s, kind, authority) && s.phase == NoPhase && s.active && !s.timeoutArmed
    ensures var preparing := WithPhase(s, Preparing, authority);
      var n := if assets.prepareMontage then preparing else MontageCompleted(preparing, kind, assets, authority, w);
      Consistent(n, kind, authority) && OtherTagsKept(s.tags, n.tags)
  {
    var preparing := WithPhase(s, Preparing, authority);
    assert Consistent(preparing, kind, authority);
    if !assets.prepareMontage {
      WaitingKeepsConsistent(preparing, kind, assets, authority, w);
    }
  }

  /** An accepted follow-up: the window closes, the ability executes, and the agreement holds. */
  lemma AcceptedFollowUpKeepsConsistent(s: Lifecycle, kind: AbilityKind, assets: Assets, authority: bool)
    requires Consistent(s, kind, authority) && s.phase == Waiting && s.window != {}
    ensures var n := Executed(WithPhase(WindowClosed(s), Executing, authority), kind, assets, authority);
      Consistent(n, kind, authority) && OtherTagsKept(s.tags, n.tags)
      && (!assets.executeMontage ==> Idle(n) && n.tags == Released(s.tags))
  {
    var x := WithPhase(WindowClosed(s), Executing, authority).(timeoutArmed := false);
    assert Consistent(x, kind, authority);
    if !assets.executeMontage {
      EndLeavesNoTags(x, kind, authority);
    }
  }

  /**
   * A follow-up input in Waiting keeps the agreement: the ability stays in
   * Waiting with its window, is cancelled, or closes its window and executes.
   */
  lemma FollowUpKeepsConsistent(s: Lifecycle, kind: AbilityKind, assets: Assets, input: Tag, w: World,
                                authority: bool, cls: Option<ProjectileClass>)
    requires Consistent(s, kind, authority) && s.phase == Waiting
    ensures var n := FollowedUp(s, kind, assets, input, w, authority, cls);
      Consistent(n, kind, authority) && OtherTagsKept(s.tags, n.tags)
  {
    var v := FollowUpVerdict(kind, input, w, authority, s.validPlacement, cls);
    var hooked := if ConsultsHook(ConfigOf(kind).followUp, input) then Hooked(s, kind, input, w, v, authority) else s;
    if v == Cancel {
      CancelLeavesNoTags(s, kind, authority);
    } else {
      assert hooked == s.(rotation := hooked.rotation, validPlacement := hooked.validPlacement);
      assert Consistent(hooked, kind, authority);
      if v == Execute {
        assert input in FollowUpInputs(ConfigOf(kind).followUp);
        AcceptedFollowUpKeepsConsistent(hooked, kind, assets, authority);
      }
    }
  }

  /**
   * While one ability runs consistently on a component, the component's state
   * queries read off the ability's phase: on authority Preparing, Executing and
   * Waiting are held exactly in those phases, activation is open exactly when
   * nothing blocks it and the ability is not executing, and an input is a valid
   * follow-up exactly while Waiting for one of the class's follow-up inputs.
   */
  lemma StatusQueriesFollowPhase(a: GameplayAbility, input: Tag)
    requires Consistent(a.State(), a.kind, a.asc.authority)
    ensures a.asc.authority ==> (a.asc.IsAbilityPreparing() <==> a.phase == Preparing)
    ensures a.asc.authority ==> (a.asc.IsAbilityExecuting() <==> a.phase == Executing)
    ensures a.asc.authority ==> (a.asc.IsWaitingForFollowUp() <==> a.phase == Waiting)
    ensures a.asc.authority ==>
      (a.asc.CanActivateAbilities() <==> !HasTag(a.asc.tags, BlockAbilityActivation) && a.phase != Executing)
    ensures a.asc.IsValidFollowUpInput(input) <==> a.phase == Waiting && input in FollowUpInputs(ConfigOf(a.kind).followUp)
  {
  }
}
