/**
 * Definitions shared by every agent ability: the activation and follow-up
 * enumerations, the per-class configuration each ability constructor writes,
 * the properties a designer sets on the ability asset, and the outcomes of
 * world queries (traces, spawns, health) that the abilities consult.
 */
module AbilityDefs {
  import opened Wrappers
  import opened GameplayTags

  /** EAbilityActivationType: exactly two ways to start. */
  datatype ActivationType = Instant | WithPrepare

  /** EFollowUpInputType: exactly six follow-up input kinds. */
  datatype FollowUpInputType = NoFollowUp | LeftClick | RightClick | RepeatKey | LeftOrRight | AnyInput

  /** What an ability constructor writes: id, activation, follow-up kind and window, asset tags. */
  datatype Config = Config(
    abilityId: int,
    activation: ActivationType,
    followUp: FollowUpInputType,
    followUpTime: real,
    assetTags: seq<Tag>)

  /** The defaults of the base ability class. */
  const DefaultConfig: Config := Config(0, Instant, NoFollowUp, 10.0, [])

  /** The concrete ability classes of this model; BaseAbility is the base class itself. */
  datatype AbilityKind =
    | BaseAbility
    | SageBarrierOrb | SageSlowOrb | SageHealingOrb
    | KayoFragment | KayoFlashDrive | KayoZeroPoint
    | PhoenixHotHands | PhoenixCurveball

  /** The configuration each ability class's constructor sets up. */
  function ConfigOf(k: AbilityKind): Config
  {
    match k
    case BaseAbility => DefaultConfig
    case SageBarrierOrb => Config(1001, WithPrepare, AnyInput, 30.0, [SkillC])
    case SageSlowOrb => Config(1002, WithPrepare, LeftOrRight, 10.0, [SkillQ])
    case SageHealingOrb => Config(1003, WithPrepare, LeftOrRight, 10.0, [SkillE])
    case KayoFragment => Config(3001, Instant, NoFollowUp, 10.0, [SkillC])
    case KayoFlashDrive => Config(3002, WithPrepare, LeftOrRight, 10.0, [SkillQ])
    case KayoZeroPoint => Config(3003, WithPrepare, LeftClick, 10.0, [SkillE])
    case PhoenixHotHands => Config(2002, WithPrepare, LeftOrRight, 10.0, [SkillQ])
    case PhoenixCurveball => Config(2003, WithPrepare, LeftOrRight, 10.0, [SkillE, Named("Ability.Phoenix.Curveball")])
  }

  /** The three follow-up input tags. */
  const FollowUpInputTags: set<Tag> := {InputLeftClick, InputRightClick, InputRepeat}

  /** The input set registered with the component on entering Waiting. */
  function FollowUpInputs(t: FollowUpInputType): (s: set<Tag>)
    ensures s <= FollowUpInputTags
    ensures s == {} <==> t == NoFollowUp
    ensures InputLeftClick in s <==> t in {LeftClick, LeftOrRight, AnyInput}
    ensures InputRightClick in s <==> t in {RightClick, LeftOrRight, AnyInput}
    ensures InputRepeat in s <==> t in {RepeatKey, AnyInput}
  {
    match t
    case NoFollowUp => {}
    case LeftClick => {InputLeftClick}
    case RightClick => {InputRightClick}
    case RepeatKey => {InputRepeat}
    case LeftOrRight => {InputLeftClick, InputRightClick}
    case AnyInput => {InputLeftClick, InputRightClick, InputRepeat}
  }

  /**
   * The table HandleFollowUpInput consults: for which follow-up kinds an input
   * reaches its hook. Written as the source's per-input branches.
   */
  predicate ConsultsHook(t: FollowUpInputType, input: Tag)
  {
    if input == InputLeftClick then t == LeftClick || t == LeftOrRight || t == AnyInput
    else if input == InputRightClick then t == RightClick || t == LeftOrRight || t == AnyInput
    else if input == InputRepeat then t == RepeatKey || t == AnyInput
    else false
  }

  /** The set registered on entering Waiting is exactly the set of inputs whose hook is consulted. */
  lemma RegisteredInputsAreConsultedInputs(t: FollowUpInputType, input: Tag)
    ensures ConsultsHook(t, input) <==> input in FollowUpInputs(t)
  {
  }

  /** The equipment kinds an agent can hold, as far as abilities care. */
  datatype Interactor = NoInteractor | Weapon(slot: nat) | AbilityInteractor

  /** A projectile class; `curveball` marks the class whose instances take a curve direction. */
  datatype ProjectileClass = ProjectileClass(id: nat, curveball: bool)

  /** A spawned projectile: its class, whether it was thrown with the alternate fire and its curve direction. */
  datatype Projectile = Projectile(cls: ProjectileClass, altFire: bool, curveRight: bool)

  /** Properties a designer sets on the ability asset (montages and spawned classes). */
  datatype Assets = Assets(
    prepareMontage: bool,
    waitingMontage: bool,
    executeMontage: bool,
    projectileClass: Option<ProjectileClass>,
    flashProjectileClass: Option<ProjectileClass>,
    barrierOrbClass: bool,
    barrierWallClass: bool,
    allowCancelDuringExecution: bool)

  /**
   * The outcome of the world queries an ability makes while handling one event:
   * whether the avatar is a character, whether SpawnActor returns an actor (the
   * preview wall Sage C spawns beside its orb on entering Waiting is a separate
   * SpawnActor call with an outcome of its own), what the healing trace hit, whether the owner is at full health and whether the
   * barrier placement trace accepts the current spot.
   */
  datatype World = World(
    hasCharacter: bool,
    spawnSucceeds: bool,
    previewSpawnSucceeds: bool,
    traceHitsAgent: bool,
    tracedAgentSameTeam: bool,
    ownerFullHealth: bool,
    placementValid: bool)
}
