/**
 * The follow-up hooks of the concrete abilities, as decisions.
 *
 * A hook answers whether a follow-up input moves its ability to Executing.
 * Each ability class overrides some of the three hooks (left click, right click,
 * repeat); the base hooks answer true. HotHands is the one ability whose hook
 * can also cancel the ability. The effects the hooks have on the ability's own
 * fields are modelled by the ability class; this module only states the verdicts.
 */
module AbilityHooks {
  import opened Wrappers
  import opened GameplayTags
  import opened AbilityDefs

  /** What handling one consulted follow-up input does to the phase. */
  datatype Verdict = Execute | Stay | Cancel

  /** The guard of the base SpawnProjectile: authority, a projectile class and a character avatar. */
  predicate SpawnGuard(authority: bool, cls: Option<ProjectileClass>, w: World)
  {
    authority && cls.Some? && w.hasCharacter
  }

  /** The guard chain of ThrowKnife and ThrowFlashbang: the spawn guard, then a non-null spawned actor. */
  predicate ThrowSucceeds(authority: bool, cls: Option<ProjectileClass>, w: World)
  {
    SpawnGuard(authority, cls, w) && w.spawnSucceeds
  }

  /** Sage E left click: the trace from the owner hits an agent of the owner's team. */
  predicate HealingOrbHealsAlly(w: World)
  {
    w.hasCharacter && w.traceHitsAgent && w.tracedAgentSameTeam
  }

  /** Sage E right click: the owner is an agent and is hurt. */
  predicate HealingOrbHealsSelf(w: World)
  {
    w.hasCharacter && !w.ownerFullHealth
  }

  /**
   * The verdict of the hook that `input` reaches, for an ability of class `kind`.
   * `validPlacement` is Sage C's stored placement flag and `cls` the ability's
   * ProjectileClass at the moment the input arrives.
   */
  function HookVerdict(kind: AbilityKind, input: Tag, w: World, authority: bool,
                       validPlacement: bool, cls: Option<ProjectileClass>): Verdict
  {
    if input == InputLeftClick then
      match kind
      case SageBarrierOrb => if validPlacement then Execute else Stay
      case SageHealingOrb => if HealingOrbHealsAlly(w) then Execute else Stay
      case KayoZeroPoint => if ThrowSucceeds(authority, cls, w) then Execute else Stay
      case KayoFlashDrive => if ThrowSucceeds(authority, cls, w) then Execute else Stay
      case PhoenixHotHands => if SpawnGuard(authority, cls, w) then Execute else Cancel
      case _ => Execute
    else if input == InputRightClick then
      match kind
      case SageBarrierOrb => Stay
      case SageHealingOrb => if HealingOrbHealsSelf(w) then Execute else Stay
      case KayoFlashDrive => if ThrowSucceeds(authority, cls, w) then Execute else Stay
      case PhoenixHotHands => if SpawnGuard(authority, cls, w) then Execute else Cancel
      case _ => Execute
    else if input == InputRepeat then
      if kind == SageBarrierOrb then Stay else Execute
    else Stay
  }

  /**
   * The verdict of HandleFollowUpInput in Waiting: an input outside the ability's
   * follow-up table reaches no hook and leaves the ability waiting.
   */
  function FollowUpVerdict(kind: AbilityKind, input: Tag, w: World, authority: bool,
                           validPlacement: bool, cls: Option<ProjectileClass>): (v: Verdict)
    ensures !ConsultsHook(ConfigOf(kind).followUp, input) ==> v == Stay
    ensures v != Stay ==> input in FollowUpInputs(ConfigOf(kind).followUp)
  {
    if ConsultsHook(ConfigOf(kind).followUp, input) then HookVerdict(kind, input, w, authority, validPlacement, cls)
    else Stay
  }

  /** Sage C: right click and scroll only rotate the preview, so they never leave Waiting. */
  lemma BarrierOrbRotationInputsStay(input: Tag, w: World, authority: bool, valid: bool, cls: Option<ProjectileClass>)
    requires input != InputLeftClick
    ensures FollowUpVerdict(SageBarrierOrb, input, w, authority, valid, cls) == Stay
  {
  }

  /** Sage C: a left click places the wall exactly when the stored placement is valid. */
  lemma BarrierOrbLeftClickNeedsValidPlacement(w: World, authority: bool, valid: bool, cls: Option<ProjectileClass>)
    ensures FollowUpVerdict(SageBarrierOrb, InputLeftClick, w, authority, valid, cls) == (if valid then Execute else Stay)
  {
  }

  /** KAYO E accepts only a left click, and a left click executes exactly when the knife is thrown. */
  lemma ZeroPointAcceptsOnlyLeftClick(input: Tag, w: World, authority: bool, valid: bool, cls: Option<ProjectileClass>)
    ensures input != InputLeftClick ==> FollowUpVerdict(KayoZeroPoint, input, w, authority, valid, cls) == Stay
    ensures input == InputLeftClick ==>
      (FollowUpVerdict(KayoZeroPoint, input, w, authority, valid, cls) == Execute <==> ThrowSucceeds(authority, cls, w))
  {
  }

  /** KAYO Q: both clicks throw, and a click executes exactly when the flashbang is thrown. */
  lemma FlashDriveExecutesIffThrown(input: Tag, w: World, authority: bool, valid: bool, cls: Option<ProjectileClass>)
    requires input == InputLeftClick || input == InputRightClick
    ensures FollowUpVerdict(KayoFlashDrive, input, w, authority, valid, cls) == (if ThrowSucceeds(authority, cls, w) then Execute else Stay)
  {
  }

  /** HotHands: a click executes when the spawn guard passes and cancels the ability otherwise; it never stays. */
  lemma HotHandsExecutesOrCancels(input: Tag, w: World, authority: bool, valid: bool, cls: Option<ProjectileClass>)
    requires input == InputLeftClick || input == InputRightClick
    ensures FollowUpVerdict(PhoenixHotHands, input, w, authority, valid, cls) == (if SpawnGuard(authority, cls, w) then Execute else Cancel)
  {
  }

  /** Curveball and Slow Orb: either click executes, whatever the spawn does. */
  lemma CurveballAndSlowOrbAlwaysExecute(kind: AbilityKind, input: Tag, w: World, authority: bool, valid: bool, cls: Option<ProjectileClass>)
    requires kind == PhoenixCurveball || kind == SageSlowOrb
    requires input == InputLeftClick || input == InputRightClick
    ensures FollowUpVerdict(kind, input, w, authority, valid, cls) == Execute
  {
  }

  /** Sage E: a click executes exactly when it applies a heal, to an ally on the left and to the owner on the right. */
  lemma HealingOrbExecutesIffHealing(input: Tag, w: World, authority: bool, valid: bool, cls: Option<ProjectileClass>)
    ensures input == InputLeftClick ==>
      (FollowUpVerdict(SageHealingOrb, input, w, authority, valid, cls) == Execute <==> HealingOrbHealsAlly(w))
    ensures input == InputRightClick ==>
      (FollowUpVerdict(SageHealingOrb, input, w, authority, valid, cls) == Execute <==> HealingOrbHealsSelf(w))
    ensures input == InputRepeat ==> FollowUpVerdict(SageHealingOrb, input, w, authority, valid, cls) == Stay
  {
  }

  /** Only HotHands ever cancels from a hook. */
  lemma OnlyHotHandsCancels(kind: AbilityKind, input: Tag, w: World, authority: bool, valid: bool, cls: Option<ProjectileClass>)
    requires FollowUpVerdict(kind, input, w, authority, valid, cls) == Cancel
    ensures kind == PhoenixHotHands && !SpawnGuard(authority, cls, w)
  {
  }
}
