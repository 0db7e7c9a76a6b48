/**
 * The agent ability system: the ability system component that routes skill
 * input and owns the status tags and the follow-up window, and the gameplay
 * ability whose phase machine (Preparing, Waiting, Executing) drives it.
 *
 * The two reference each other as in the game (the component owns its granted
 * ability instances; each instance acts on its component), so they live in one
 * module. Engine callbacks arrive as explicit event methods: a montage that
 * completes or blends out, the follow-up timer that fires, the preview timer
 * that ticks, input that arrives. Timers are armed flags. World queries
 * (traces, spawns, health) are the `World` parameter. The node's network role
 * is the component's `authority`.
 */
module AbilitySystem {
  import opened Wrappers
  import opened GameplayTags
  import opened AbilityDefs
  import opened AbilityHooks
  import BarrierOrb

  /** A row of the game's ability table: the ability id and its class with the class's asset properties. */
  datatype AbilityData = AbilityData(abilityId: int, kind: AbilityKind, assets: Assets)

  /** The ability ids of an agent's data row, one per slot. */
  datatype AgentData = AgentData(abilityC: int, abilityE: int, abilityQ: int, abilityX: int)

  /** What an ability tells its avatar when it starts preparing: its skill input tag and its follow-up kind. */
  datatype PrepareNotice = PrepareNotice(inputTag: Option<Tag>, followUp: FollowUpInputType)

  /** Who a Sage healing orb heals. */
  datatype HealTarget = TracedAlly | Owner

  /** HotHands' throw styles; the source ignores the choice when spawning. */
  datatype ThrowType = Straight | Curved

  /** GetAssetTags().First(): the first asset tag, or the empty tag. */
  function FirstTag(tags: seq<Tag>): (r: Option<Tag>)
    ensures r.Some? <==> |tags| > 0
    ensures r.Some? ==> r.value == tags[0]
  {
    if |tags| == 0 then None else Some(tags[0])
  }

  /** The first Input.Skill tag among the asset tags: the tag PrepareAbility announces. */
  function FirstSkillTag(tags: seq<Tag>): (r: Option<Tag>)
    ensures r.Some? ==> r.value in SkillTags
    ensures r.Some? ==> exists k :: 0 <= k < |tags| && tags[k] == r.value
                                   && forall j :: 0 <= j < k ==> tags[j] !in SkillTags
    ensures r.None? <==> forall i :: 0 <= i < |tags| ==> tags[i] !in SkillTags
  {
    if |tags| == 0 then None
    else if tags[0] in SkillTags then Some(tags[0])
    else
      var r := FirstSkillTag(tags[1..]);
      assert forall i :: 1 <= i < |tags| ==> tags[i] == tags[1..][i - 1];
      r
  }

  /** The last Input.Skill tag among the asset tags: the source tag SetAgentAbility attaches to the spec. */
  function LastSkillTag(tags: seq<Tag>): (r: Option<Tag>)
    ensures r.Some? ==> r.value in SkillTags
    ensures r.Some? ==> exists k :: 0 <= k < |tags| && tags[k] == r.value
                                   && forall j :: k < j < |tags| ==> tags[j] !in SkillTags
    ensures r.None? <==> forall i :: 0 <= i < |tags| ==> tags[i] !in SkillTags
  {
    if |tags| == 0 then None
    else if tags[|tags| - 1] in SkillTags then Some(tags[|tags| - 1])
    else
      var r := LastSkillTag(tags[..|tags| - 1]);
      assert forall i :: 0 <= i < |tags| - 1 ==> tags[..|tags| - 1][i] == tags[i];
      r
  }

  /** The tags after SetAbilityPhase(to) from phase `from`: nothing when the phase is unchanged. */
  function PhaseTransitionTags(tags: LooseTags, from: Phase, to: Phase, authority: bool): LooseTags
  {
    if from == to then tags else PhaseChangeTags(tags, to, authority)
  }

  /** A spawn by the base SpawnProjectile: a non-null actor on success of the guard, the stored one otherwise. */
  function SpawnResult(guard: bool, cls: Option<ProjectileClass>, w: World, stored: Option<Projectile>): Option<Projectile>
    requires guard ==> cls.Some?
  {
    if !guard then stored
    else if w.spawnSucceeds then Some(Projectile(cls.value, false, false))
    else None
  }

  /** A KAY/O throw: the thrown actor is stored only when the throw succeeded. */
  function ThrowResult(ok: bool, cls: Option<ProjectileClass>, altFire: bool, stored: Option<Projectile>): Option<Projectile>
    requires ok ==> cls.Some?
  {
    if ok then Some(Projectile(cls.value, altFire, false)) else stored
  }

  /** The projectile after ExecuteAbility: KAY/O C spawns through the base spawn, the others spawn nothing. */
  function ExecuteProjectile(kind: AbilityKind, authority: bool, cls: Option<ProjectileClass>, w: World,
                             stored: Option<Projectile>): Option<Projectile>
  {
    if kind == KayoFragment then SpawnResult(SpawnGuard(authority, cls, w), cls, w, stored) else stored
  }

  /**
   * The projectile after the hook that `input` reaches: the spawns of Sage Q,
   * KAY/O E and Q and Phoenix Q and E; the other hooks spawn nothing.
   */
  function HookProjectile(kind: AbilityKind, input: Tag, w: World, authority: bool, cls: Option<ProjectileClass>,
                          flashCls: Option<ProjectileClass>, stored: Option<Projectile>): Option<Projectile>
  {
    var left := input == InputLeftClick;
    var right := input == InputRightClick;
    match kind
    case SageSlowOrb => if left then SpawnResult(SpawnGuard(authority, cls, w), cls, w, stored) else stored
    case PhoenixHotHands =>
      if left || right then SpawnResult(SpawnGuard(authority, cls, w), cls, w, stored) else stored
    case KayoZeroPoint => if left then ThrowResult(ThrowSucceeds(authority, cls, w), cls, false, stored) else stored
    case KayoFlashDrive =>
      if left || right then ThrowResult(ThrowSucceeds(authority, cls, w), cls, right, stored) else stored
    case PhoenixCurveball =>
      if (left || right) && flashCls.Some? then
        WithCurveDirection(SpawnResult(SpawnGuard(authority, flashCls, w), flashCls, w, stored), right)
      else stored
    case _ => stored
  }

  /** The heal Sage E's hook applies for `input`, if any. */
  function HookHeals(kind: AbilityKind, input: Tag, w: World): seq<HealTarget>
  {
    if kind != SageHealingOrb then []
    else if input == InputLeftClick && HealingOrbHealsAlly(w) then [TracedAlly]
    else if input == InputRightClick && HealingOrbHealsSelf(w) then [Owner]
    else []
  }

  /** Curveball's SetCurveDirection, applied only when the stored projectile is a curveball. */
  function WithCurveDirection(p: Option<Projectile>, isRight: bool): (r: Option<Projectile>)
    ensures r.Some? <==> p.Some?
    ensures p.Some? && p.value.cls.curveball ==> r == Some(p.value.(curveRight := isRight))
    ensures p.Some? && !p.value.cls.curveball ==> r == p
  {
    if p.Some? && p.value.cls.curveball then Some(p.value.(curveRight := isRight)) else p
  }

  /** The avatar: its equipped interactor, and the per-ability charges kept by its player state. */
  class Agent {
    var equipment: Interactor
    var charges: map<int, nat>
    /** Whether a player controller with an agent player state stands behind the avatar. */
    const controlled: bool

    constructor (equipment: Interactor, charges: map<int, nat>, controlled: bool)
      ensures this.equipment == equipment && this.charges == charges && this.controlled == controlled
    {
      this.equipment := equipment;
      this.charges := charges;
      this.controlled := controlled;
    }

    /** The player state's charge count for an ability id; 0 when there is no player state. */
    function AbilityStack(id: int): nat
      reads this
    {
      if controlled && id in charges then charges[id] else 0
    }

    /** The charge map after one use of ability `id`: one charge fewer when one was left. */
    function ChargesAfterUse(id: int): map<int, nat>
      reads this
    {
      if AbilityStack(id) > 0 then charges[id := AbilityStack(id) - 1] else charges
    }

    /** The player state's ReduceAbilityStack: spend one charge when there is one. */
    method ReduceAbilityStack(id: int) returns (reduced: bool)
      modifies this`charges
      ensures reduced == (old(AbilityStack(id)) > 0)
      ensures charges == old(ChargesAfterUse(id))
      ensures AbilityStack(id) == if reduced then old(AbilityStack(id)) - 1 else old(AbilityStack(id))
      ensures forall other :: other != id ==> AbilityStack(other) == old(AbilityStack(other))
    {
      reduced := AbilityStack(id) > 0;
      if reduced {
        charges := charges[id := AbilityStack(id) - 1];
      }
    }
  }

  class AbilitySystemComponent {
    /** The owner's network role: true on the server. */
    const authority: bool
    const agent: Agent
    /** The loose gameplay tags with their reference counts. */
    var tags: LooseTags
    /** CurrentFollowUpInputs: the inputs the open window accepts. */
    var followUpInputs: set<Tag>
    /** CurrentExecutingAbility: the tag of the ability owning the window. */
    var executingAbility: Option<Tag>
    var abilityC: Option<AbilityData>
    var abilityE: Option<AbilityData>
    var abilityQ: Option<AbilityData>
    var abilityX: Option<AbilityData>
    var abilityDataMap: map<Tag, AbilityData>
    /** The granted abilities, one instance per spec, in the order they were given. */
    var abilities: seq<GameplayAbility>

    ghost predicate Valid()
      reads this, abilities
    {
      forall i :: 0 <= i < |abilities| ==> abilities[i].asc == this && abilities[i].Inv()
    }

    constructor (authority: bool, agent: Agent)
      ensures this.authority == authority && this.agent == agent
      ensures tags == NoLooseTags && followUpInputs == {} && executingAbility == None
      ensures abilityC == None && abilityE == None && abilityQ == None && abilityX == None
      ensures abilityDataMap == map[] && abilities == []
      ensures Valid()
    {
      this.authority := authority;
      this.agent := agent;
      tags := NoLooseTags;
      followUpInputs := {};
      executingAbility := None;
      abilityC, abilityE, abilityQ, abilityX := None, None, None, None;
      abilityDataMap := map[];
      abilities := [];
    }

    predicate IsAbilityPreparing() reads this { HasTag(tags, StatePreparing) }
    predicate IsAbilityExecuting() reads this { HasTag(tags, StateExecuting) }
    predicate IsWaitingForFollowUp() reads this { HasTag(tags, StateWaiting) }
    predicate CanActivateAbilities() reads this { !HasTag(tags, BlockAbilityActivation) && !IsAbilityExecuting() }
    predicate IsValidFollowUpInput(input: Tag) reads this { input in followUpInputs }

    /** The engine's AddLooseGameplayTag: one more count. */
    method AddLooseGameplayTag(t: Tag)
      modifies this`tags
      ensures tags == AddLooseTag(old(tags), t)
    {
      tags := AddLooseTag(tags, t);
    }

    /** The engine's RemoveLooseGameplayTag: one count less, never below zero. */
    method RemoveLooseGameplayTag(t: Tag)
      modifies this`tags
      ensures tags == RemoveLooseTag(old(tags), t)
    {
      tags := RemoveLooseTag(tags, t);
    }

    /** SetAbilityState: add the state tag when applying, remove one count otherwise. */
    method SetAbilityState(t: Tag, apply: bool)
      modifies this`tags
      ensures tags == ApplyLooseTag(old(tags), t, apply)
    {
      if apply {
        AddLooseGameplayTag(t);
      } else {
        RemoveLooseGameplayTag(t);
      }
    }

    /** The mirror handler of a state change: only a node without authority applies it. */
    method NotifyAbilityStateChanged(t: Tag, apply: bool)
      modifies this`tags
      ensures tags == if authority then old(tags) else ApplyLooseTag(old(tags), t, apply)
    {
      if !authority {
        if apply {
          AddLooseGameplayTag(t);
        } else {
          RemoveLooseGameplayTag(t);
        }
      }
    }

    /** Open a follow-up window: replace the input set and the owner, and apply Waiting. */
    method RegisterFollowUpInputs(inputs: set<Tag>, owner: Option<Tag>)
      modifies this`followUpInputs, this`executingAbility, this`tags
      ensures followUpInputs == inputs && executingAbility == owner
      ensures tags == AddLooseTag(old(tags), StateWaiting)
    {
      followUpInputs := inputs;
      executingAbility := owner;
      SetAbilityState(StateWaiting, true);
    }

    /** Close the follow-up window: empty set, empty owner, one Waiting count removed. */
    method ClearFollowUpInputs()
      modifies this`followUpInputs, this`executingAbility, this`tags
      ensures followUpInputs == {} && executingAbility == None
      ensures tags == RemoveLooseTag(old(tags), StateWaiting)
    {
      followUpInputs := {};
      executingAbility := None;
      SetAbilityState(StateWaiting, false);
    }

    /**
     * The cleanup every node runs: one count each of Preparing, Executing,
     * Waiting and Block.WeaponSwitch removed, then the window closed (which
     * removes a second Waiting count). Every other tag is kept.
     */
    method CleanupAbilityState()
      modifies this`followUpInputs, this`executingAbility, this`tags
      ensures followUpInputs == {} && executingAbility == None
      ensures tags == CleanedTags(old(tags))
    {
      SetAbilityState(StatePreparing, false);
      SetAbilityState(StateExecuting, false);
      SetAbilityState(StateWaiting, false);
      RemoveLooseGameplayTag(BlockWeaponSwitch);
      ClearFollowUpInputs();
    }

    /**
     * The loop of SetAgentAbility: every skill tag among `assetTags` fills its
     * slot and its data-map entry; the result is the last skill tag met.
     */
    method FileSkillTags(assetTags: seq<Tag>, data: AbilityData) returns (skillTag: Option<Tag>)
      modifies this`abilityC, this`abilityE, this`abilityQ, this`abilityX, this`abilityDataMap
      ensures skillTag == LastSkillTag(assetTags)
      ensures abilityDataMap == FiledSkills(old(abilityDataMap), assetTags, data)
      ensures abilityC == (if SkillC in assetTags then Some(data) else old(abilityC))
      ensures abilityE == (if SkillE in assetTags then Some(data) else old(abilityE))
      ensures abilityQ == (if SkillQ in assetTags then Some(data) else old(abilityQ))
      ensures abilityX == (if SkillX in assetTags then Some(data) else old(abilityX))
    {
      skillTag := None;
      for i := 0 to |assetTags|
        invariant abilityDataMap == FiledSkills(old(abilityDataMap), assetTags[..i], data)
        invariant abilityC == (if SkillC in assetTags[..i] then Some(data) else old(abilityC))
        invariant abilityE == (if SkillE in assetTags[..i] then Some(data) else old(abilityE))
        invariant abilityQ == (if SkillQ in assetTags[..i] then Some(data) else old(abilityQ))
        invariant abilityX == (if SkillX in assetTags[..i] then Some(data) else old(abilityX))
        invariant skillTag == LastSkillTag(assetTags[..i])
      {
        var tag := assetTags[i];
        assert assetTags[..i + 1] == assetTags[..i] + [tag];
        assert assetTags[..i + 1][..i] == assetTags[..i];
        if tag in SkillTags {
          if tag == SkillC {
            abilityC := Some(data);
          } else if tag == SkillE {
            abilityE := Some(data);
          } else if tag == SkillQ {
            abilityQ := Some(data);
          } else {
            abilityX := Some(data);
          }
          abilityDataMap := abilityDataMap[tag := data];
          skillTag := Some(tag);
        }
      }
      assert assetTags[..|assetTags|] == assetTags;
    }

    /** Give the ability of table row `abilityId` and file it under its skill slot. */
    method SetAgentAbility(abilityId: int, level: int, table: map<int, AbilityData>)
      requires Valid()
      requires abilityId in table
      modifies this`abilityC, this`abilityE, this`abilityQ, this`abilityX, this`abilityDataMap, this`abilities
      ensures Valid()
      ensures var data := table[abilityId]; var assetTags := ConfigOf(data.kind).assetTags;
        && abilityDataMap == FiledSkills(old(abilityDataMap), assetTags, data)
        && abilityC == (if SkillC in assetTags then Some(data) else old(abilityC))
        && abilityE == (if SkillE in assetTags then Some(data) else old(abilityE))
        && abilityQ == (if SkillQ in assetTags then Some(data) else old(abilityQ))
        && abilityX == (if SkillX in assetTags then Some(data) else old(abilityX))
      ensures var assetTags := ConfigOf(table[abilityId].kind).assetTags;
        && (LastSkillTag(assetTags).None? ==> abilities == old(abilities))
        && (LastSkillTag(assetTags).Some? ==>
              |abilities| == |old(abilities)| + 1 && abilities[..|old(abilities)|] == old(abilities)
              && fresh(abilities[|old(abilities)|])
              && abilities[|old(abilities)|].Granted(table[abilityId], level, LastSkillTag(assetTags)))
      ensures Appended(old(abilities), abilities, level, 1)
    {
      var data := table[abilityId];
      var assetTags := ConfigOf(data.kind).assetTags;
      if |assetTags| == 0 {
        return;
      }
      var skillTag := FileSkillTags(assetTags, data);
      if skillTag.None? {
        return;
      }
      var granted := new GameplayAbility(data, this, level, skillTag);
      abilities := abilities + [granted];
    }

    /** Register the agent's four abilities, C, E, Q and X, at level 1. */
    method RegisterAgentAbilities(agentData: AgentData, table: map<int, AbilityData>)
      requires Valid()
      requires agentData.abilityC in table && agentData.abilityE in table
      requires agentData.abilityQ in table && agentData.abilityX in table
      modifies this`abilityC, this`abilityE, this`abilityQ, this`abilityX, this`abilityDataMap, this`abilities
      ensures Valid()
      ensures Appended(old(abilities), abilities, 1, 4)
    {
      ghost var a0 := abilities;
      SetAgentAbility(agentData.abilityC, 1, table);
      ghost var a1 := abilities;
      SetAgentAbility(agentData.abilityE, 1, table);
      AppendedTrans(a0, a1, abilities, 1, 1, 1);
      ghost var a2 := abilities;
      SetAgentAbility(agentData.abilityQ, 1, table);
      AppendedTrans(a0, a2, abilities, 1, 2, 1);
      ghost var a3 := abilities;
      SetAgentAbility(agentData.abilityX, 1, table);
      AppendedTrans(a0, a3, abilities, 1, 3, 1);
    }

    /** Clear every granted spec and the data map; the slot fields keep their values. */
    method ResetAgentAbilities()
      modifies this`abilities, this`abilityDataMap
      ensures abilities == [] && abilityDataMap == map[]
      ensures Valid()
    {
      abilities := [];
      abilityDataMap := map[];
    }

    /**
     * Skill input. Without an open window: swallowed while an ability executes,
     * otherwise handled iff activating the abilities bound to the input succeeds.
     * With a window: always handled, and forwarded only when the window accepts it.
     */
    method TrySkillInput(input: Tag, w: World) returns (handled: bool)
      requires Valid()
      modifies this`tags, this`followUpInputs, this`executingAbility, agent, abilities
      ensures Valid() && abilities == old(abilities)
      ensures old(IsWaitingForFollowUp()) ==> handled
      ensures !old(IsWaitingForFollowUp()) && old(IsAbilityExecuting()) ==> handled
      ensures !handled || (old(IsWaitingForFollowUp()) && !old(IsValidFollowUpInput(input)))
              || (!old(IsWaitingForFollowUp()) && old(IsAbilityExecuting())) ==>
                unchanged(this) && unchanged(agent) && unchanged(abilities)
      ensures !old(IsWaitingForFollowUp()) && !old(IsAbilityExecuting()) ==>
                (handled <==> exists i :: 0 <= i < |abilities| && input in abilities[i].config.assetTags
                                && !old(abilities[i].active) && old(abilities[i].CanActivateAbility()))
    {
      if !IsWaitingForFollowUp() {
        if IsAbilityExecuting() {
          return true;
        }
        var activated := TryActivateAbilitiesByTag(input, w);
        if activated {
          return true;
        }
      } else {
        if IsValidFollowUpInput(input) {
          HandleGameplayEvent(input, w);
        }
        return true;
      }
      return false;
    }

    /** The engine's activation by tag: try every granted ability carrying the tag; true if any activated. */
    method TryActivateAbilitiesByTag(input: Tag, w: World) returns (ok: bool)
      requires Valid()
      modifies this`tags, this`followUpInputs, this`executingAbility, agent, abilities
      ensures Valid() && abilities == old(abilities)
      ensures !ok ==> unchanged(this) && unchanged(agent) && unchanged(abilities)
      ensures ok <==> exists i :: 0 <= i < |abilities| && input in abilities[i].config.assetTags
                        && !old(abilities[i].active) && old(abilities[i].CanActivateAbility())
    {
      ok := false;
      var i := 0;
      while i < |abilities|
        invariant 0 <= i <= |abilities| && abilities == old(abilities)
        invariant Valid()
        invariant !ok ==> unchanged(this) && unchanged(agent) && unchanged(abilities)
        invariant !ok ==> forall j :: 0 <= j < i && input in abilities[j].config.assetTags ==>
                            old(abilities[j].active) || !old(abilities[j].CanActivateAbility())
        invariant ok ==> exists j :: 0 <= j < i && input in abilities[j].config.assetTags
                           && !old(abilities[j].active) && old(abilities[j].CanActivateAbility())
      {
        var a := abilities[i];
        if input in a.config.assetTags {
          var activated := a.TryActivateAbility(w);
          ok := ok || activated;
        }
        i := i + 1;
      }
    }

    /**
     * A follow-up event: forwarded to the first active ability only when Waiting
     * is applied and the open window accepts the tag.
     */
    method HandleGameplayEvent(tag: Tag, w: World)
      requires Valid()
      modifies this`tags, this`followUpInputs, this`executingAbility, agent, abilities
      ensures Valid() && abilities == old(abilities)
      ensures !(old(IsWaitingForFollowUp()) && tag in old(followUpInputs)) ==>
        unchanged(this) && unchanged(agent) && unchanged(abilities)
    {
      if IsWaitingForFollowUp() && tag in followUpInputs {
        var i := 0;
        while i < |abilities|
          invariant 0 <= i <= |abilities| && Valid()
          invariant unchanged(this) && unchanged(agent) && unchanged(abilities)
        {
          var a := abilities[i];
          if a.active {
            a.HandleFollowUpInput(tag, w);
            return;
          }
          i := i + 1;
        }
      }
    }
  }

  /** The tags after CleanupAbilityState: Preparing, Executing, Waiting, Block.WeaponSwitch, then Waiting again, removed. */
  function CleanedTags(tags: LooseTags): LooseTags
  {
    var phases := RemoveLooseTag(RemoveLooseTag(RemoveLooseTag(tags, StatePreparing), StateExecuting), StateWaiting);
    RemoveLooseTag(RemoveLooseTag(phases, BlockWeaponSwitch), StateWaiting)
  }

  /**
   * Cleanup lowers Preparing, Executing and Block.WeaponSwitch by one count and
   * Waiting by two, never below zero, and keeps every other tag; so after it no
   * ability status tag is left when none held more than its usual count.
   */
  lemma CleanupCounts(tags: LooseTags, u: Tag)
    ensures u == StateWaiting ==> Count(CleanedTags(tags), u) == Dec(Dec(Count(tags, u)))
    ensures u == StatePreparing || u == StateExecuting || u == BlockWeaponSwitch ==>
      Count(CleanedTags(tags), u) == Dec(Count(tags, u))
    ensures !IsPhaseTag(u) && u != BlockWeaponSwitch ==> Count(CleanedTags(tags), u) == Count(tags, u)
  {
    if !IsStatusTag(u) {
      var a := RemoveLooseTag(tags, StatePreparing);
      var b := RemoveLooseTag(a, StateExecuting);
      var c := RemoveLooseTag(b, StateWaiting);
      var d := RemoveLooseTag(c, BlockWeaponSwitch);
      assert a.others == b.others == c.others == d.others == tags.others;
    }
  }

  /**
   * Cleanup is safe when nothing is active: it leaves a store without status
   * counts as it is; and it is idempotent on a store holding at most the counts
   * one ability gives (Waiting twice: phase and window).
   */
  lemma CleanupIdempotentWhenIdle(tags: LooseTags)
    ensures tags.preparing == 0 && tags.executing == 0 && tags.waiting == 0 && tags.weaponSwitch == 0 ==>
      CleanedTags(tags) == tags
    ensures tags.preparing <= 1 && tags.executing <= 1 && tags.waiting <= 2 && tags.weaponSwitch <= 1 ==>
      CleanedTags(CleanedTags(tags)) == CleanedTags(tags)
  {
  }

  /** `after` is `before` with at most `extra` abilities of level `level` appended. */
  ghost predicate Appended(before: seq<GameplayAbility>, after: seq<GameplayAbility>, level: int, extra: nat)
  {
    && |before| <= |after| <= |before| + extra
    && after[..|before|] == before
    && forall i :: |before| <= i < |after| ==> after[i].level == level
  }

  lemma AppendedTrans(a: seq<GameplayAbility>, b: seq<GameplayAbility>, c: seq<GameplayAbility>, level: int, m: nat, n: nat)
    requires Appended(a, b, level, m) && Appended(b, c, level, n)
    ensures Appended(a, c, level, m + n)
  {
    assert c[..|a|] == c[..|b|][..|a|];
    forall i | |a| <= i < |c|
      ensures c[i].level == level
    {
      if i < |b| {
        assert c[i] == c[..|b|][i];
      }
    }
  }

  /** The data map after SetAgentAbility's loop: every skill tag among the asset tags filed under `data`. */
  function FiledSkills(m: map<Tag, AbilityData>, assetTags: seq<Tag>, data: AbilityData): map<Tag, AbilityData>
  {
    if |assetTags| == 0 then m
    else
      var filed := FiledSkills(m, assetTags[..|assetTags| - 1], data);
      var t := assetTags[|assetTags| - 1];
      if t in SkillTags then filed[t := data] else filed
  }

  /**
   * SetAgentAbility files exactly the skill tags among the asset tags, each under
   * the new data, and keeps every other entry.
   */
  lemma {:induction false} FiledSkillsContents(m: map<Tag, AbilityData>, assetTags: seq<Tag>, data: AbilityData)
    ensures forall t :: t in FiledSkills(m, assetTags, data) <==> t in m || (t in assetTags && t in SkillTags)
    ensures forall t :: t in FiledSkills(m, assetTags, data) ==>
      FiledSkills(m, assetTags, data)[t] == if t in assetTags && t in SkillTags then data else m[t]
  {
    if |assetTags| > 0 {
      var prefix := assetTags[..|assetTags| - 1];
      FiledSkillsContents(m, prefix, data);
      assert assetTags == prefix + [assetTags[|assetTags| - 1]];
    }
  }

  /** The tags after EndAbility from phase `from`: the window's Waiting count removed, then the phase cleared. */
  function EndTags(tags: LooseTags, from: Phase, authority: bool): LooseTags
  {
    PhaseTransitionTags(RemoveLooseTag(tags, StateWaiting), from, NoPhase, authority)
  }

  /**
   * The tags after CancelAbility from phase `from`: the window is closed and the
   * phase cleared, and then EndAbility closes the window once more.
   */
  function CancelTags(tags: LooseTags, from: Phase, authority: bool): LooseTags
  {
    RemoveLooseTag(EndTags(tags, from, authority), StateWaiting)
  }

  /** The tags after the follow-up window opens: one more Waiting count unless the ability has no follow-up. */
  function WindowTags(tags: LooseTags, followUp: FollowUpInputType): LooseTags
  {
    if followUp == NoFollowUp then tags else AddLooseTag(tags, StateWaiting)
  }

  /**
   * The life cycle of one ability instance as a value: its phase, activity,
   * follow-up timer and saved equipment, Sage C's barrier state, and what it
   * drives on its component (the loose tags, the follow-up window and its
   * owner) and on its agent (the equipped slot).
   */
  datatype Lifecycle = Lifecycle(
    phase: Phase, active: bool, timeoutArmed: bool, previousEquipment: Interactor,
    rotation: int, validPlacement: bool, orbSpawned: bool, previewSpawned: bool, previewTimerArmed: bool,
    tags: LooseTags, window: set<Tag>, windowOwner: Option<Tag>, equipment: Interactor)

  /** SetAbilityPhase(p): the phase and, on a change, the status tags. */
  function WithPhase(s: Lifecycle, p: Phase, authority: bool): Lifecycle
  {
    s.(phase := p, tags := PhaseTransitionTags(s.tags, s.phase, p, authority))
  }

  /** Sage C's part of the end: preview timer stopped, orb and preview destroyed, yaw and placement reset. */
  function BarrierReset(s: Lifecycle, kind: AbilityKind): Lifecycle
  {
    if kind == SageBarrierOrb then
      s.(rotation := 0, validPlacement := false, orbSpawned := false, previewSpawned := false, previewTimerArmed := false)
    else s
  }

  /**
   * EndAbility: Sage C resets its barrier state; then the window closes, the
   * timer stops, the phase clears, the equipment is released and the ability
   * is inactive.
   */
  function EndedState(s: Lifecycle, kind: AbilityKind, authority: bool): Lifecycle
  {
    var reset := BarrierReset(s, kind);
    reset.(phase := NoPhase, active := false, timeoutArmed := false, previousEquipment := NoInteractor,
           equipment := (if s.previousEquipment != NoInteractor && authority then AbilityInteractor else s.equipment),
           tags := EndTags(s.tags, s.phase, authority), window := {}, windowOwner := None)
  }

  /** CancelAbility: the window is closed twice, once by the cancel and once by the end it leads to. */
  function CancelledState(s: Lifecycle, kind: AbilityKind, authority: bool): Lifecycle
  {
    EndedState(s, kind, authority).(tags := CancelTags(s.tags, s.phase, authority))
  }

  /** HandleWaitingPhase: Sage C's Waiting work, then the follow-up window and the follow-up timer. */
  function WaitingEntered(s: Lifecycle, kind: AbilityKind, assets: Assets, authority: bool, w: World): Lifecycle
  {
    var config := ConfigOf(kind);
    var worked :=
      if kind == SageBarrierOrb then
        s.(orbSpawned := (if authority && assets.barrierOrbClass && w.hasCharacter then w.spawnSucceeds else s.orbSpawned),
           previewSpawned := (if assets.barrierWallClass then w.previewSpawnSucceeds else s.previewSpawned),
           previewTimerArmed := true)
      else s;
    var windowed :=
      if config.followUp == NoFollowUp then worked
      else worked.(window := FollowUpInputs(config.followUp), windowOwner := FirstTag(config.assetTags));
    windowed.(tags := WindowTags(s.tags, config.followUp), timeoutArmed := true)
  }

  /** OnMontageCompleted: Preparing moves on to Waiting, Executing ends, the other phases are left alone. */
  function MontageCompleted(s: Lifecycle, kind: AbilityKind, assets: Assets, authority: bool, w: World): Lifecycle
  {
    match s.phase
    case Preparing => WaitingEntered(WithPhase(s, Waiting, authority), kind, assets, authority, w)
    case Executing => EndedState(s, kind, authority)
    case _ => s
  }

  /** HandleExecutePhase: the timer stops; without an execute montage the ability ends at once. */
  function Executed(s: Lifecycle, kind: AbilityKind, assets: Assets, authority: bool): Lifecycle
  {
    if assets.executeMontage then s.(timeoutArmed := false) else EndedState(s, kind, authority)
  }

  /**
   * StartAbilityExecution: an instant ability executes; one with a preparation
   * enters Preparing and, without a prepare montage, goes straight on to Waiting.
   */
  function Started(s: Lifecycle, kind: AbilityKind, assets: Assets, authority: bool, w: World): Lifecycle
  {
    match ConfigOf(kind).activation
    case Instant => Executed(WithPhase(s, Executing, authority), kind, assets, authority)
    case WithPrepare =>
      var preparing := WithPhase(s, Preparing, authority);
      if assets.prepareMontage then preparing else MontageCompleted(preparing, kind, assets, authority, w)
  }

  /** ActivateAbility's first step: the equipment is saved and, on authority, switched to the ability slot. */
  function EquipmentSaved(s: Lifecycle, authority: bool): Lifecycle
  {
    s.(previousEquipment := s.equipment, equipment := (if authority then AbilityInteractor else s.equipment))
  }

  /** The engine's activation of an inactive instance: switched on, equipment saved, started. */
  function Activated(s: Lifecycle, kind: AbilityKind, assets: Assets, authority: bool, w: World): Lifecycle
  {
    Started(EquipmentSaved(s.(active := true), authority), kind, assets, authority, w)
  }

  /**
   * What a hook with verdict `v` does to the life cycle: a cancelling hook has
   * cancelled the ability; Sage C's right click and scroll turn the barrier and
   * refresh its placement; nothing else changes it.
   */
  function Hooked(s: Lifecycle, kind: AbilityKind, input: Tag, w: World, v: Verdict, authority: bool): Lifecycle
  {
    if v == Cancel then CancelledState(s, kind, authority)
    else if kind == SageBarrierOrb && (input == InputRightClick || input == InputRepeat) then
      s.(rotation := BarrierOrb.RotatedBarrier(s.rotation, input == InputRightClick), validPlacement := w.placementValid)
    else s
  }

  /** UnregisterFollowUpInputs: the window and its owner cleared, one Waiting count removed. */
  function WindowClosed(s: Lifecycle): Lifecycle
  {
    s.(tags := RemoveLooseTag(s.tags, StateWaiting), window := {}, windowOwner := None)
  }

  /**
   * HandleFollowUpInput in Waiting: the hook the follow-up table lets through
   * acts, and an Execute verdict closes the window and executes.
   */
  function FollowedUp(s: Lifecycle, kind: AbilityKind, assets: Assets, input: Tag, w: World, authority: bool,
                      cls: Option<ProjectileClass>): Lifecycle
  {
    var v := FollowUpVerdict(kind, input, w, authority, s.validPlacement, cls);
    var hooked := if ConsultsHook(ConfigOf(kind).followUp, input) then Hooked(s, kind, input, w, v, authority) else s;
    if v == Execute then Executed(WithPhase(WindowClosed(hooked), Executing, authority), kind, assets, authority)
    else hooked
  }

  /**
   * One granted ability instance (instanced per actor). The class of the ability
   * is `kind`; the per-class fields (the spawned projectile, Sage C's rotation,
   * placement flag, orb and preview, Sage E's heal log) are kept on every
   * instance and used only by the class that owns them.
   */
  class GameplayAbility {
    const kind: AbilityKind
    const config: Config
    const assets: Assets
    const asc: AbilitySystemComponent
    const level: int
    /** The skill tag the spec was given as its dynamic source tag. */
    const sourceTag: Option<Tag>

    var active: bool
    var phase: Phase
    /** The follow-up timeout timer. */
    var timeoutArmed: bool
    var previousEquipment: Interactor
    var projectileClass: Option<ProjectileClass>
    var spawnedProjectile: Option<Projectile>
    /** The OnPrepareAbility broadcasts so far. */
    var prepareNotices: seq<PrepareNotice>
    /** Sage E: the heals applied so far. */
    var healTargets: seq<HealTarget>
    /** Sage C: the barrier yaw in whole degrees, its placement flag, the orb, the preview and its timer. */
    var rotation: int
    var validPlacement: bool
    var orbSpawned: bool
    var previewSpawned: bool
    var previewTimerArmed: bool
    /** Sage C: the barrier walls spawned and initialised so far. */
    var wallsPlaced: nat

    /**
     * Between events: an ability is active exactly when it has a phase, the
     * follow-up timer runs only while Waiting, Sage C's preview timer only while
     * Waiting or Executing, and the barrier yaw is a whole step in [0, 360).
     */
    ghost predicate Inv()
      reads this
    {
      && Settled()
      && (active <==> phase != NoPhase)
      && (timeoutArmed ==> phase == Waiting)
      && (previewTimerArmed ==> phase == Waiting || phase == Executing)
    }

    /**
     * What ending needs, and what still holds midway through a cancel once the
     * phase is cleared or while Executing still has its timer: the configuration
     * is the class's, the preview timer belongs to Sage C, and the rotation sits
     * on the 15-degree grid.
     */
    ghost predicate Settled()
      reads this
    {
      && config == ConfigOf(kind)
      && (previewTimerArmed ==> kind == SageBarrierOrb)
      && 0 <= rotation < 360 && rotation % BarrierOrb.RotationStep == 0
    }

    /** A fresh instance of the ability of `data`, given at `level` with `sourceTag`. */
    predicate Granted(data: AbilityData, level: int, sourceTag: Option<Tag>)
      reads this
    {
      && kind == data.kind && config == ConfigOf(data.kind) && assets == data.assets
      && this.level == level && this.sourceTag == sourceTag
      && !active && phase == NoPhase && !timeoutArmed && previousEquipment == NoInteractor
      && projectileClass == data.assets.projectileClass && spawnedProjectile == None
      && prepareNotices == [] && healTargets == []
      && rotation == 0 && !validPlacement && !orbSpawned && !previewSpawned && !previewTimerArmed
      && wallsPlaced == 0
    }

    constructor (data: AbilityData, asc: AbilitySystemComponent, level: int, sourceTag: Option<Tag>)
      ensures this.asc == asc && Granted(data, level, sourceTag) && Inv()
    {
      kind := data.kind;
      config := ConfigOf(data.kind);
      assets := data.assets;
      this.asc := asc;
      this.level := level;
      this.sourceTag := sourceTag;
      active := false;
      phase := NoPhase;
      timeoutArmed := false;
      previousEquipment := NoInteractor;
      projectileClass := data.assets.projectileClass;
      spawnedProjectile := None;
      prepareNotices := [];
      healTargets := [];
      rotation := 0;
      validPlacement := false;
      orbSpawned := false;
      previewSpawned := false;
      previewTimerArmed := false;
      wallsPlaced := 0;
    }

    /** Cancellable in Preparing and Waiting; in Executing only when the asset allows it. */
    predicate CanBeCanceled()
      reads this
    {
      if phase == Executing then assets.allowCancelDuringExecution else true
    }

    /** The charges left for this ability's id. */
    function GetAbilityStack(): nat
      reads asc.agent
    {
      asc.agent.AbilityStack(config.abilityId)
    }

    /** The engine's tag requirement (no Block.AbilityActivation), then at least one charge. */
    predicate CanActivateAbility()
      reads asc, asc.agent
    {
      !HasTag(asc.tags, BlockAbilityActivation) && GetAbilityStack() > 0
    }

    /** Spend one charge of this ability's id. */
    method ReduceAbilityStack() returns (reduced: bool)
      modifies asc.agent`charges
      ensures reduced == (old(GetAbilityStack()) > 0)
      ensures asc.agent.charges == old(asc.agent.ChargesAfterUse(config.abilityId))
    {
      reduced := asc.agent.ReduceAbilityStack(config.abilityId);
    }

    /** Move to phase `p`: on a change the status tags follow, nothing happens otherwise. */
    method SetAbilityPhase(p: Phase)
      modifies this`phase, asc`tags
      ensures State() == WithPhase(old(State()), p, asc.authority)
    {
      if phase == p {
        return;
      }
      phase := p;
      if asc.authority {
        OnRepCurrentPhase();
      }
      if p == Executing {
        asc.AddLooseGameplayTag(BlockWeaponSwitch);
      } else {
        asc.RemoveLooseGameplayTag(BlockWeaponSwitch);
      }
    }

    /** Mirror the phase on the component: one count of each phase tag removed, the current one added. */
    method OnRepCurrentPhase()
      modifies asc`tags
      ensures asc.tags == RephaseTags(old(asc.tags), phase)
    {
      asc.RemoveLooseGameplayTag(StatePreparing);
      asc.RemoveLooseGameplayTag(StateWaiting);
      asc.RemoveLooseGameplayTag(StateExecuting);
      var t := PhaseTag(phase);
      if t.Some? {
        asc.AddLooseGameplayTag(t.value);
      }
    }

    /** Open the window for this ability's follow-up kind, owned by its first asset tag. */
    method RegisterFollowUpInputs()
      modifies asc`followUpInputs, asc`executingAbility, asc`tags
      ensures config.followUp == NoFollowUp ==> unchanged(asc)
      ensures config.followUp != NoFollowUp ==>
        asc.followUpInputs == FollowUpInputs(config.followUp) && asc.executingAbility == FirstTag(config.assetTags)
      ensures asc.tags == WindowTags(old(asc.tags), config.followUp)
    {
      if config.followUp == NoFollowUp {
        return;
      }
      asc.RegisterFollowUpInputs(FollowUpInputs(config.followUp), FirstTag(config.assetTags));
    }

    method UnregisterFollowUpInputs()
      modifies asc`followUpInputs, asc`executingAbility, asc`tags
      ensures asc.followUpInputs == {} && asc.executingAbility == None
      ensures asc.tags == RemoveLooseTag(old(asc.tags), StateWaiting)
    {
      asc.ClearFollowUpInputs();
    }

    /** The life cycle of this instance, read off its fields, its component and its agent. */
    function State(): Lifecycle
      reads this`phase, this`active, this`timeoutArmed, this`previousEquipment, this`rotation,
            this`validPlacement, this`orbSpawned, this`previewSpawned, this`previewTimerArmed,
            asc`tags, asc`followUpInputs, asc`executingAbility, asc.agent`equipment
    {
      Lifecycle(phase, active, timeoutArmed, previousEquipment, rotation, validPlacement, orbSpawned,
                previewSpawned, previewTimerArmed, asc.tags, asc.followUpInputs, asc.executingAbility,
                asc.agent.equipment)
    }

    /**
     * End the ability: close the window, stop the timer, clear the phase,
     * release the equipment and deactivate. Sage C first stops its preview,
     * destroys its orb and preview and resets yaw and placement.
     */
    method EndAbility()
      requires Settled()
      modifies this`phase, this`active, this`timeoutArmed, this`previousEquipment, this`rotation,
               this`validPlacement, this`orbSpawned, this`previewSpawned, this`previewTimerArmed,
               asc`tags, asc`followUpInputs, asc`executingAbility, asc.agent`equipment
      ensures Inv() && State() == EndedState(old(State()), kind, asc.authority)
    {
      ResetBarrierOrb();
      UnregisterFollowUpInputs();
      timeoutArmed := false;
      SetAbilityPhase(NoPhase);
      ReleaseEquipment();
      active := false;
    }

    /** Sage C's part of EndAbility; other classes skip it. */
    method ResetBarrierOrb()
      modifies this`rotation, this`validPlacement, this`orbSpawned, this`previewSpawned, this`previewTimerArmed
      ensures State() == BarrierReset(old(State()), kind)
      ensures kind == SageBarrierOrb ==> rotation == 0 && !previewTimerArmed
    {
      if kind == SageBarrierOrb {
        previewTimerArmed := false;
        DestroyBarrierOrb();
        DestroyPreviewActors();
        rotation := 0;
        validPlacement := false;
      }
    }

    /** The end's release of the equipment: a saved equipment is forgotten, and on authority the agent holds the ability interactor. */
    method ReleaseEquipment()
      modifies this`previousEquipment, asc.agent`equipment
      ensures previousEquipment == NoInteractor
      ensures asc.agent.equipment ==
        if old(previousEquipment) != NoInteractor && asc.authority then AbilityInteractor else old(asc.agent.equipment)
    {
      if previousEquipment != NoInteractor {
        if asc.authority {
          asc.agent.equipment := AbilityInteractor;
        }
        previousEquipment := NoInteractor;
      }
    }

    /**
     * Cancel the ability: close the window, stop the timer and clear the phase;
     * the engine then ends it when it can be cancelled, which holds because the
     * phase is already cleared at that check.
     */
    method CancelAbility()
      requires Settled()
      modifies this`phase, this`active, this`timeoutArmed, this`previousEquipment, this`rotation,
               this`validPlacement, this`orbSpawned, this`previewSpawned, this`previewTimerArmed,
               asc`tags, asc`followUpInputs, asc`executingAbility, asc.agent`equipment
      ensures Inv() && State() == CancelledState(old(State()), kind, asc.authority)
    {
      UnregisterFollowUpInputs();
      timeoutArmed := false;
      SetAbilityPhase(NoPhase);
      if CanBeCanceled() {
        EndAbility();
      }
    }

    /** The follow-up timer fired: the ability is cancelled. */
    method OnWaitingTimeout()
      requires Inv()
      modifies this`phase, this`active, this`timeoutArmed, this`previousEquipment, this`rotation,
               this`validPlacement, this`orbSpawned, this`previewSpawned, this`previewTimerArmed,
               asc`tags, asc`followUpInputs, asc`executingAbility, asc.agent`equipment
      ensures Inv() && State() == CancelledState(old(State()), kind, asc.authority)
    {
      CancelAbility();
    }

    /** The base spawn: authority, a class and a character are required; the spawned actor may be null. */
    method SpawnProjectile(w: World) returns (ok: bool)
      modifies this`spawnedProjectile
      ensures ok == SpawnGuard(asc.authority, projectileClass, w)
      ensures spawnedProjectile == SpawnResult(ok, projectileClass, w, old(spawnedProjectile))
    {
      if !asc.authority || projectileClass.None? {
        return false;
      }
      if !w.hasCharacter {
        return false;
      }
      spawnedProjectile := if w.spawnSucceeds then Some(Projectile(projectileClass.value, false, false)) else None;
      return true;
    }

    /** KAY/O E: throw the knife; succeeds only when the knife actor was spawned. */
    method ThrowKnife(w: World) returns (ok: bool)
      modifies this`spawnedProjectile
      ensures ok == ThrowSucceeds(asc.authority, projectileClass, w)
      ensures spawnedProjectile == ThrowResult(ok, projectileClass, false, old(spawnedProjectile))
    {
      if !asc.authority || projectileClass.None? {
        return false;
      }
      if !w.hasCharacter {
        return false;
      }
      if w.spawnSucceeds {
        spawnedProjectile := Some(Projectile(projectileClass.value, false, false));
        return true;
      } else {
        return false;
      }
    }

    /** KAY/O Q: throw the flashbang, straight or with the alternate fire; succeeds only when it was spawned. */
    method ThrowFlashbang(altFire: bool, w: World) returns (ok: bool)
      modifies this`spawnedProjectile
      ensures ok == ThrowSucceeds(asc.authority, projectileClass, w)
      ensures spawnedProjectile == ThrowResult(ok, projectileClass, altFire, old(spawnedProjectile))
    {
      if !asc.authority || projectileClass.None? {
        return false;
      }
      if !w.hasCharacter {
        return false;
      }
      if w.spawnSucceeds {
        spawnedProjectile := Some(Projectile(projectileClass.value, altFire, false));
        return true;
      } else {
        return false;
      }
    }

    /** Phoenix Q: spawn with the ability's class whatever the throw type; the class is restored afterwards. */
    method SpawnProjectileByType(throwType: ThrowType, w: World) returns (ok: bool)
      modifies this`projectileClass, this`spawnedProjectile
      ensures projectileClass == old(projectileClass)
      ensures ok == SpawnGuard(asc.authority, projectileClass, w)
      ensures spawnedProjectile == SpawnResult(ok, projectileClass, w, old(spawnedProjectile))
    {
      var toSpawn := projectileClass;
      if toSpawn.None? {
        return false;
      }
      var original := projectileClass;
      projectileClass := toSpawn;
      ok := SpawnProjectile(w);
      projectileClass := original;
    }

    /**
     * Phoenix E: spawn the flash class through the base spawn, then set the curve
     * direction on the stored projectile when it is a curveball.
     */
    method SpawnFlashProjectile(isRight: bool, w: World) returns (ok: bool)
      modifies this`projectileClass, this`spawnedProjectile
      ensures assets.flashProjectileClass.None? ==>
        !ok && projectileClass == old(projectileClass) && spawnedProjectile == old(spawnedProjectile)
      ensures assets.flashProjectileClass.Some? ==>
        && projectileClass == assets.flashProjectileClass
        && ok == SpawnGuard(asc.authority, assets.flashProjectileClass, w)
        && spawnedProjectile == WithCurveDirection(SpawnResult(ok, assets.flashProjectileClass, w, old(spawnedProjectile)), isRight)
    {
      if assets.flashProjectileClass.None? {
        return false;
      }
      projectileClass := assets.flashProjectileClass;
      ok := SpawnProjectile(w);
      spawnedProjectile := WithCurveDirection(spawnedProjectile, isRight);
    }

    /** Sage C: the orb is spawned on authority when the asset has an orb class and the avatar is an agent. */
    method SpawnBarrierOrb(w: World)
      modifies this`orbSpawned
      ensures orbSpawned == if asc.authority && assets.barrierOrbClass && w.hasCharacter then w.spawnSucceeds else old(orbSpawned)
    {
      if !asc.authority || !assets.barrierOrbClass {
        return;
      }
      if !w.hasCharacter {
        return;
      }
      orbSpawned := w.spawnSucceeds;
    }

    method DestroyBarrierOrb()
      modifies this`orbSpawned
      ensures !orbSpawned
    {
      orbSpawned := false;
    }

    /** Sage C: the preview wall is spawned on every node when the asset has a wall class. */
    method CreatePreviewActors(w: World)
      modifies this`previewSpawned
      ensures previewSpawned == if assets.barrierWallClass then w.previewSpawnSucceeds else old(previewSpawned)
    {
      if !assets.barrierWallClass {
        return;
      }
      previewSpawned := w.previewSpawnSucceeds;
    }

    method DestroyPreviewActors()
      modifies this`previewSpawned
      ensures !previewSpawned
    {
      previewSpawned := false;
    }

    /** Sage C's Waiting work: orb, preview and the repeating preview timer. Other classes do nothing. */
    method WaitAbility(w: World)
      modifies this`orbSpawned, this`previewSpawned, this`previewTimerArmed
      ensures kind == SageBarrierOrb ==>
        && orbSpawned == (if asc.authority && assets.barrierOrbClass && w.hasCharacter then w.spawnSucceeds else old(orbSpawned))
        && previewSpawned == (if assets.barrierWallClass then w.previewSpawnSucceeds else old(previewSpawned))
        && previewTimerArmed
      ensures kind != SageBarrierOrb ==> unchanged(this)
    {
      if kind == SageBarrierOrb {
        SpawnBarrierOrb(w);
        CreatePreviewActors(w);
        previewTimerArmed := true;
      }
    }

    /**
     * Sage C's preview tick: store the placement verdict; the preview material and
     * the orb are told only when the verdict changed.
     */
    method UpdateBarrierPreview(w: World) returns (changed: bool)
      modifies this`validPlacement
      ensures validPlacement == w.placementValid
      ensures changed <==> old(validPlacement) != w.placementValid
    {
      changed := w.placementValid != validPlacement;
      if changed {
        validPlacement := w.placementValid;
      }
    }

    /** Sage C: turn the barrier one step, keep the yaw in [0, 360) and refresh the preview. */
    method RotateBarrier(clockwise: bool, w: World)
      requires 0 <= rotation < 360 && rotation % BarrierOrb.RotationStep == 0
      modifies this`rotation, this`validPlacement
      ensures rotation == BarrierOrb.RotatedBarrier(old(rotation), clockwise)
      ensures 0 <= rotation < 360 && rotation % BarrierOrb.RotationStep == 0
      ensures validPlacement == w.placementValid
    {
      BarrierOrb.RotationStaysInTurn(rotation, clockwise);
      rotation := BarrierOrb.RotatedBarrier(rotation, clockwise);
      var _ := UpdateBarrierPreview(w);
    }

    /** Sage C: spawn the real wall on authority when the asset has a wall class, and initialise it. */
    method SpawnBarrierWall(w: World)
      modifies this`wallsPlaced
      ensures wallsPlaced == if asc.authority && assets.barrierWallClass && w.spawnSucceeds then old(wallsPlaced) + 1 else old(wallsPlaced)
    {
      if !asc.authority || !assets.barrierWallClass {
        return;
      }
      if w.spawnSucceeds {
        wallsPlaced := wallsPlaced + 1;
      }
    }

    /** Announce the preparation: the first skill asset tag and the follow-up kind. */
    method PrepareAbility()
      modifies this`prepareNotices
      ensures prepareNotices == old(prepareNotices) + [PrepareNotice(FirstSkillTag(config.assetTags), config.followUp)]
    {
      prepareNotices := prepareNotices + [PrepareNotice(FirstSkillTag(config.assetTags), config.followUp)];
    }

    /** The class's execute work: KAY/O C spawns its grenade; the others do nothing here. */
    method ExecuteAbility(w: World)
      modifies this`spawnedProjectile
      ensures spawnedProjectile == ExecuteProjectile(kind, asc.authority, projectileClass, w, old(spawnedProjectile))
    {
      if kind == KayoFragment {
        var _ := SpawnProjectile(w);
      }
    }

    /** The charges after HandleExecutePhase: one use spent on authority. */
    twostate predicate ChargeSpent()
      reads asc, asc.agent
    {
      asc.agent.charges == if asc.authority then old(asc.agent.ChargesAfterUse(config.abilityId)) else old(asc.agent.charges)
    }

    /**
     * What the hook `input` reaches does: its verdict decides `shouldExecute`
     * and the life cycle follows Hooked; the class's own effect (spawn, heal,
     * wall) has happened.
     */
    twostate predicate HookOutcome(input: Tag, w: World, shouldExecute: bool)
      reads this, asc, asc.agent
    {
      var v := HookVerdict(kind, input, w, asc.authority, old(validPlacement), old(projectileClass));
      && shouldExecute == (v == Execute)
      && State() == Hooked(old(State()), kind, input, w, v, asc.authority)
      && spawnedProjectile ==
           HookProjectile(kind, input, w, asc.authority, old(projectileClass), assets.flashProjectileClass, old(spawnedProjectile))
      && projectileClass ==
           (if kind == PhoenixCurveball && (input == InputLeftClick || input == InputRightClick) && assets.flashProjectileClass.Some?
            then assets.flashProjectileClass else old(projectileClass))
      && healTargets == old(healTargets) + HookHeals(kind, input, w)
      && wallsPlaced == old(wallsPlaced) +
           (if kind == SageBarrierOrb && input == InputLeftClick && old(validPlacement) && asc.authority
               && assets.barrierWallClass && w.spawnSucceeds then 1 else 0)
    }

    /** Sage C's clicks: the left click places the wall when the preview is valid; the right click turns it clockwise. */
    method BarrierOrbClick(input: Tag, w: World) returns (shouldExecute: bool)
      requires Inv() && kind == SageBarrierOrb
      requires input == InputLeftClick || input == InputRightClick
      modifies this`phase, this`active, this`timeoutArmed, this`previousEquipment, this`rotation,
               this`validPlacement, this`orbSpawned, this`previewSpawned, this`previewTimerArmed,
               this`projectileClass, this`spawnedProjectile, this`healTargets, this`wallsPlaced,
               asc`tags, asc`followUpInputs, asc`executingAbility, asc.agent`equipment
      ensures Inv()
      ensures HookOutcome(input, w, shouldExecute)
    {
      if input == InputRightClick {
        RotateBarrier(true, w);
        return false;
      }
      if !validPlacement {
        return false;
      }
      SpawnBarrierWall(w);
      return true;
    }

    /** Sage E's clicks: heal the traced ally (left) or the owner (right) and execute, or keep waiting. */
    method HealingOrbClick(input: Tag, w: World) returns (shouldExecute: bool)
      requires Inv() && kind == SageHealingOrb
      requires input == InputLeftClick || input == InputRightClick
      modifies this`phase, this`active, this`timeoutArmed, this`previousEquipment, this`rotation,
               this`validPlacement, this`orbSpawned, this`previewSpawned, this`previewTimerArmed,
               this`projectileClass, this`spawnedProjectile, this`healTargets, this`wallsPlaced,
               asc`tags, asc`followUpInputs, asc`executingAbility, asc.agent`equipment
      ensures Inv()
      ensures HookOutcome(input, w, shouldExecute)
    {
      shouldExecute := false;
      if input == InputLeftClick {
        if HealingOrbHealsAlly(w) {
          healTargets := healTargets + [TracedAlly];
          shouldExecute := true;
        }
      } else {
        if HealingOrbHealsSelf(w) {
          healTargets := healTargets + [Owner];
          shouldExecute := true;
        }
      }
    }

    /** Sage Q's left click: spawn the orb and execute whatever the spawn gave. */
    method SlowOrbClick(w: World) returns (shouldExecute: bool)
      requires Inv() && kind == SageSlowOrb
      modifies this`phase, this`active, this`timeoutArmed, this`previousEquipment, this`rotation,
               this`validPlacement, this`orbSpawned, this`previewSpawned, this`previewTimerArmed,
               this`projectileClass, this`spawnedProjectile, this`healTargets, this`wallsPlaced,
               asc`tags, asc`followUpInputs, asc`executingAbility, asc.agent`equipment
      ensures Inv()
      ensures HookOutcome(InputLeftClick, w, shouldExecute)
    {
      var _ := SpawnProjectile(w);
      return true;
    }

    /** KAY/O's throws: the knife on the left click, the flash on either click; execute iff the throw succeeded. */
    method KayoThrowClick(input: Tag, w: World) returns (shouldExecute: bool)
      requires Inv() && (kind == KayoZeroPoint || kind == KayoFlashDrive)
      requires input == InputLeftClick || (input == InputRightClick && kind == KayoFlashDrive)
      modifies this`phase, this`active, this`timeoutArmed, this`previousEquipment, this`rotation,
               this`validPlacement, this`orbSpawned, this`previewSpawned, this`previewTimerArmed,
               this`projectileClass, this`spawnedProjectile, this`healTargets, this`wallsPlaced,
               asc`tags, asc`followUpInputs, asc`executingAbility, asc.agent`equipment
      ensures Inv()
      ensures HookOutcome(input, w, shouldExecute)
    {
      if kind == KayoZeroPoint {
        shouldExecute := ThrowKnife(w);
      } else {
        shouldExecute := ThrowFlashbang(input == InputRightClick, w);
      }
    }

    /**
     * Phoenix Q's clicks: throw the fireball (straight on the left, curved on
     * the right) and execute; a throw that could not spawn cancels the ability.
     */
    method HotHandsClick(input: Tag, w: World) returns (shouldExecute: bool)
      requires Inv() && kind == PhoenixHotHands
      requires input == InputLeftClick || input == InputRightClick
      modifies this`phase, this`active, this`timeoutArmed, this`previousEquipment, this`rotation,
               this`validPlacement, this`orbSpawned, this`previewSpawned, this`previewTimerArmed,
               this`projectileClass, this`spawnedProjectile, this`healTargets, this`wallsPlaced,
               asc`tags, asc`followUpInputs, asc`executingAbility, asc.agent`equipment
      ensures Inv()
      ensures HookOutcome(input, w, shouldExecute)
    {
      shouldExecute := SpawnProjectileByType(if input == InputLeftClick then Straight else Curved, w);
      if !shouldExecute {
        FizzleHotHands(input, w);
      }
    }

    /** Phoenix Q's failed throw: the ability is cancelled. */
    method FizzleHotHands(input: Tag, w: World)
      requires Inv() && kind == PhoenixHotHands
      requires input == InputLeftClick || input == InputRightClick
      requires !SpawnGuard(asc.authority, projectileClass, w)
      modifies this`phase, this`active, this`timeoutArmed, this`previousEquipment, this`rotation,
               this`validPlacement, this`orbSpawned, this`previewSpawned, this`previewTimerArmed,
               asc`tags, asc`followUpInputs, asc`executingAbility, asc.agent`equipment
      ensures Inv()
      ensures HookOutcome(input, w, false)
    {
      CancelAbility();
    }

    /** Phoenix E's clicks: throw the flash curving left or right, and execute. */
    method CurveballClick(input: Tag, w: World) returns (shouldExecute: bool)
      requires Inv() && kind == PhoenixCurveball
      requires input == InputLeftClick || input == InputRightClick
      modifies this`phase, this`active, this`timeoutArmed, this`previousEquipment, this`rotation,
               this`validPlacement, this`orbSpawned, this`previewSpawned, this`previewTimerArmed,
               this`projectileClass, this`spawnedProjectile, this`healTargets, this`wallsPlaced,
               asc`tags, asc`followUpInputs, asc`executingAbility, asc.agent`equipment
      ensures Inv()
      ensures HookOutcome(input, w, shouldExecute)
    {
      var _ := SpawnFlashProjectile(input == InputRightClick, w);
      return true;
    }

    /** Left click in Waiting: the class's hook; classes without one execute. */
    method OnLeftClickInput(w: World) returns (shouldExecute: bool)
      requires Inv()
      modifies this`phase, this`active, this`timeoutArmed, this`previousEquipment, this`rotation,
               this`validPlacement, this`orbSpawned, this`previewSpawned, this`previewTimerArmed,
               this`projectileClass, this`spawnedProjectile, this`healTargets, this`wallsPlaced,
               asc`tags, asc`followUpInputs, asc`executingAbility, asc.agent`equipment
      ensures Inv()
      ensures HookOutcome(InputLeftClick, w, shouldExecute)
    {
      match kind
      case SageBarrierOrb => shouldExecute := BarrierOrbClick(InputLeftClick, w);
      case SageHealingOrb => shouldExecute := HealingOrbClick(InputLeftClick, w);
      case SageSlowOrb => shouldExecute := SlowOrbClick(w);
      case KayoZeroPoint => shouldExecute := KayoThrowClick(InputLeftClick, w);
      case KayoFlashDrive => shouldExecute := KayoThrowClick(InputLeftClick, w);
      case PhoenixHotHands => shouldExecute := HotHandsClick(InputLeftClick, w);
      case PhoenixCurveball => shouldExecute := CurveballClick(InputLeftClick, w);
      case _ => return true;
    }

    /** Right click in Waiting: the class's hook; classes without one execute. */
    method OnRightClickInput(w: World) returns (shouldExecute: bool)
      requires Inv()
      modifies this`phase, this`active, this`timeoutArmed, this`previousEquipment, this`rotation,
               this`validPlacement, this`orbSpawned, this`previewSpawned, this`previewTimerArmed,
               this`projectileClass, this`spawnedProjectile, this`healTargets, this`wallsPlaced,
               asc`tags, asc`followUpInputs, asc`executingAbility, asc.agent`equipment
      ensures Inv()
      ensures HookOutcome(InputRightClick, w, shouldExecute)
    {
      match kind
      case SageBarrierOrb => shouldExecute := BarrierOrbClick(InputRightClick, w);
      case SageHealingOrb => shouldExecute := HealingOrbClick(InputRightClick, w);
      case KayoFlashDrive => shouldExecute := KayoThrowClick(InputRightClick, w);
      case PhoenixHotHands => shouldExecute := HotHandsClick(InputRightClick, w);
      case PhoenixCurveball => shouldExecute := CurveballClick(InputRightClick, w);
      case _ => return true;
    }

    /** Repeat key in Waiting: Sage C turns the barrier the other way; the other classes execute. */
    method OnRepeatInput(w: World) returns (shouldExecute: bool)
      requires Inv()
      modifies this`phase, this`active, this`timeoutArmed, this`previousEquipment, this`rotation,
               this`validPlacement, this`orbSpawned, this`previewSpawned, this`previewTimerArmed,
               this`projectileClass, this`spawnedProjectile, this`healTargets, this`wallsPlaced,
               asc`tags, asc`followUpInputs, asc`executingAbility, asc.agent`equipment
      ensures Inv()
      ensures HookOutcome(InputRepeat, w, shouldExecute)
    {
      if kind == SageBarrierOrb {
        RotateBarrier(false, w);
        return false;
      }
      return true;
    }

    /**
     * Executing: spend a charge on authority, run the class's execute work, stop
     * the follow-up timer, then wait for the execute montage or end at once.
     */
    method HandleExecutePhase(w: World)
      requires Settled() && active && phase == Executing
      modifies this`spawnedProjectile, this`phase, this`active, this`timeoutArmed, this`previousEquipment, this`rotation,
               this`validPlacement, this`orbSpawned, this`previewSpawned, this`previewTimerArmed,
               asc`tags, asc`followUpInputs, asc`executingAbility, asc.agent`equipment, asc.agent`charges
      ensures Inv() && ChargeSpent()
      ensures spawnedProjectile == ExecuteProjectile(kind, asc.authority, projectileClass, w, old(spawnedProjectile))
      ensures State() == Executed(old(State()), kind, assets, asc.authority)
    {
      if asc.authority {
        var _ := ReduceAbilityStack();
      }
      ExecuteAbility(w);
      timeoutArmed := false;
      if !assets.executeMontage {
        EndAbility();
      }
    }

    /** Waiting: the class's Waiting work, the follow-up window, and the follow-up timer. */
    method HandleWaitingPhase(w: World)
      requires Inv() && phase == Waiting
      modifies this`orbSpawned, this`previewSpawned, this`previewTimerArmed, this`timeoutArmed,
               asc`followUpInputs, asc`executingAbility, asc`tags
      ensures Inv() && State() == WaitingEntered(old(State()), kind, assets, asc.authority, w)
    {
      WaitAbility(w);
      RegisterFollowUpInputs();
      timeoutArmed := true;
    }

    /** A montage finished: Preparing moves on to Waiting, Executing ends; other phases ignore it. */
    method OnMontageCompleted(w: World)
      requires Inv()
      modifies this`phase, this`active, this`timeoutArmed, this`previousEquipment, this`rotation,
               this`validPlacement, this`orbSpawned, this`previewSpawned, this`previewTimerArmed,
               asc`tags, asc`followUpInputs, asc`executingAbility, asc.agent`equipment
      ensures Inv() && State() == MontageCompleted(old(State()), kind, assets, asc.authority, w)
    {
      if phase == Preparing {
        SetAbilityPhase(Waiting);
        HandleWaitingPhase(w);
      } else if phase == Executing {
        EndAbility();
      }
    }

    /** A montage was interrupted or blended out: treated as completed while the ability is active. */
    method OnMontageBlendOut(w: World)
      requires Inv()
      modifies this`phase, this`active, this`timeoutArmed, this`previousEquipment, this`rotation,
               this`validPlacement, this`orbSpawned, this`previewSpawned, this`previewTimerArmed,
               asc`tags, asc`followUpInputs, asc`executingAbility, asc.agent`equipment
      ensures Inv() && State() == MontageCompleted(old(State()), kind, assets, asc.authority, w)
    {
      if active {
        OnMontageCompleted(w);
      }
    }

    /** Preparing: announce, then wait for the prepare montage or go straight on to Waiting. */
    method HandlePreparePhase(w: World)
      requires Inv() && phase == Preparing
      modifies this`prepareNotices, this`phase, this`active, this`timeoutArmed, this`previousEquipment, this`rotation,
               this`validPlacement, this`orbSpawned, this`previewSpawned, this`previewTimerArmed,
               asc`tags, asc`followUpInputs, asc`executingAbility, asc.agent`equipment
      ensures Inv()
      ensures prepareNotices == old(prepareNotices) + [PrepareNotice(FirstSkillTag(config.assetTags), config.followUp)]
      ensures State() == if assets.prepareMontage then old(State())
                         else MontageCompleted(old(State()), kind, assets, asc.authority, w)
    {
      PrepareAbility();
      if !assets.prepareMontage {
        OnMontageCompleted(w);
      }
    }

    /** The state of an ability just switched on by the engine, before its first phase. */
    ghost predicate Starting()
      reads this
    {
      && Settled() && active && phase == NoPhase && !timeoutArmed && !previewTimerArmed
    }

    /**
     * Starting from the life cycle `before`: the life cycle follows Started; an
     * instant ability spends a charge on authority and runs its execute work;
     * one with a preparation announces itself and spends nothing yet.
     */
    twostate predicate StartOutcome(w: World, before: Lifecycle)
      reads this, asc, asc.agent
    {
      && State() == Started(before, kind, assets, asc.authority, w)
      && (config.activation == Instant ==>
            && ChargeSpent() && prepareNotices == old(prepareNotices)
            && spawnedProjectile == ExecuteProjectile(kind, asc.authority, old(projectileClass), w, old(spawnedProjectile)))
      && (config.activation == WithPrepare ==>
            && asc.agent.charges == old(asc.agent.charges) && spawnedProjectile == old(spawnedProjectile)
            && prepareNotices == old(prepareNotices) + [PrepareNotice(FirstSkillTag(config.assetTags), config.followUp)])
    }

    /** Enter the first phase according to the activation type. */
    method StartAbilityExecution(w: World)
      requires Starting()
      modifies this`spawnedProjectile, this`prepareNotices, this`phase, this`active, this`timeoutArmed, this`previousEquipment, this`rotation,
               this`validPlacement, this`orbSpawned, this`previewSpawned, this`previewTimerArmed,
               asc`tags, asc`followUpInputs, asc`executingAbility, asc.agent`equipment, asc.agent`charges
      ensures Inv() && StartOutcome(w, old(State()))
    {
      match config.activation
      case Instant =>
        SetAbilityPhase(Executing);
        HandleExecutePhase(w);
      case WithPrepare =>
        SetAbilityPhase(Preparing);
        HandlePreparePhase(w);
    }

    /** Save the equipment, switch to the ability slot on authority, and start. */
    method ActivateAbility(w: World)
      requires Starting()
      modifies this`spawnedProjectile, this`prepareNotices, this`phase, this`active, this`timeoutArmed, this`previousEquipment, this`rotation,
               this`validPlacement, this`orbSpawned, this`previewSpawned, this`previewTimerArmed,
               asc`tags, asc`followUpInputs, asc`executingAbility, asc.agent`equipment, asc.agent`charges
      ensures Inv() && StartOutcome(w, EquipmentSaved(old(State()), asc.authority))
    {
      previousEquipment := asc.agent.equipment;
      if asc.authority {
        asc.agent.equipment := AbilityInteractor;
      }
      StartAbilityExecution(w);
    }

    /**
     * The engine's activation: refused while the ability is active or when it
     * cannot activate (activation blocked, no charge); otherwise the ability is
     * switched on and activated.
     */
    method TryActivateAbility(w: World) returns (ok: bool)
      requires Inv()
      modifies this, asc`tags, asc`followUpInputs, asc`executingAbility, asc.agent
      ensures Inv()
      ensures ok == (!old(active) && old(CanActivateAbility()))
      ensures !ok ==> unchanged(this) && unchanged(asc) && unchanged(asc.agent)
      ensures ok ==> StartOutcome(w, EquipmentSaved(old(State()).(active := true), asc.authority))
    {
      if active || !CanActivateAbility() {
        return false;
      }
      active := true;
      ActivateAbility(w);
      return true;
    }

    /**
     * The outcome of a follow-up input in Waiting: the life cycle follows
     * FollowedUp, and a charge is spent exactly when the verdict executes.
     */
    twostate predicate FollowUpOutcome(input: Tag, w: World)
      reads this, asc, asc.agent
    {
      var v := FollowUpVerdict(kind, input, w, asc.authority, old(validPlacement), old(projectileClass));
      && State() == FollowedUp(old(State()), kind, assets, input, w, asc.authority, old(projectileClass))
      && (v == Execute ==> ChargeSpent())
      && (v != Execute ==> asc.agent.charges == old(asc.agent.charges))
    }

    /** The hook HandleFollowUpInput reaches for `input`, when the follow-up table lets it through. */
    method ConsultFollowUpHook(input: Tag, w: World) returns (shouldExecute: bool)
      requires Inv()
      modifies this`phase, this`active, this`timeoutArmed, this`previousEquipment, this`rotation,
               this`validPlacement, this`orbSpawned, this`previewSpawned, this`previewTimerArmed,
               this`projectileClass, this`spawnedProjectile, this`healTargets, this`wallsPlaced,
               asc`tags, asc`followUpInputs, asc`executingAbility, asc.agent`equipment
      ensures Inv()
      ensures var v := FollowUpVerdict(kind, input, w, asc.authority, old(validPlacement), old(projectileClass));
        && shouldExecute == (v == Execute)
        && State() == if ConsultsHook(config.followUp, input) then Hooked(old(State()), kind, input, w, v, asc.authority)
                      else old(State())
    {
      shouldExecute := false;
      if input == InputLeftClick {
        if config.followUp == LeftClick || config.followUp == LeftOrRight || config.followUp == AnyInput {
          shouldExecute := OnLeftClickInput(w);
        }
      } else if input == InputRightClick {
        if config.followUp == RightClick || config.followUp == LeftOrRight || config.followUp == AnyInput {
          shouldExecute := OnRightClickInput(w);
        }
      } else if input == InputRepeat {
        if config.followUp == RepeatKey || config.followUp == AnyInput {
          shouldExecute := OnRepeatInput(w);
        }
      }
    }

    /** An accepted follow-up: close the window, enter Executing and run the execute phase. */
    method ExecuteFollowUp(w: World)
      requires Inv() && phase == Waiting
      modifies this`spawnedProjectile, this`phase, this`active, this`timeoutArmed, this`previousEquipment, this`rotation,
               this`validPlacement, this`orbSpawned, this`previewSpawned, this`previewTimerArmed,
               asc`tags, asc`followUpInputs, asc`executingAbility, asc.agent`equipment, asc.agent`charges
      ensures Inv() && ChargeSpent()
      ensures State() == Executed(WithPhase(WindowClosed(old(State())), Executing, asc.authority), kind, assets, asc.authority)
    {
      UnregisterFollowUpInputs();
      SetAbilityPhase(Executing);
      HandleExecutePhase(w);
    }

    /** A follow-up input: only in Waiting, only through the follow-up table, then as the hook decides. */
    method HandleFollowUpInput(input: Tag, w: World)
      requires Inv()
      modifies this, asc`tags, asc`followUpInputs, asc`executingAbility, asc.agent
      ensures Inv()
      ensures old(phase) != Waiting ==> unchanged(this) && unchanged(asc) && unchanged(asc.agent)
      ensures old(phase) == Waiting ==> FollowUpOutcome(input, w)
    {
      if phase != Waiting {
        return;
      }
      var shouldExecute := ConsultFollowUpHook(input, w);
      if shouldExecute {
        ExecuteFollowUp(w);
      }
    }
  }
}
