/**
 * Gameplay tags used by the agent ability system, and the loose-tag store.
 *
 * The engine keeps loose gameplay tags reference-counted: adding a tag bumps its
 * count, removing it lowers the count by one but never below zero, and a tag
 * "matches" while its count is positive. The store here keeps one counter for
 * each status tag the ability system adds or removes, and a multiset for every
 * other tag.
 */
module GameplayTags {
  import opened Wrappers

  datatype Tag =
    | StatePreparing          // State.Ability.Preparing
    | StateWaiting            // State.Ability.Waiting
    | StateExecuting          // State.Ability.Executing
    | BlockWeaponSwitch       // Block.WeaponSwitch
    | BlockAbilityActivation  // Block.Ability.Activation
    | InputLeftClick          // Input.Default.LeftClick
    | InputRightClick         // Input.Default.RightClick
    | InputRepeat             // Input.Default.Repeat
    | SkillC | SkillE | SkillQ | SkillX   // Input.Skill.C / E / Q / X
    | Named(name: string)     // any other tag (ability identity tags and the like)

  /** The phase of an ability instance; NoPhase is the engine's empty tag. */
  datatype Phase = NoPhase | Preparing | Waiting | Executing

  /** The status tag that mirrors a phase on the component. */
  function PhaseTag(p: Phase): (t: Option<Tag>)
    ensures t.None? <==> p == NoPhase
    ensures t.Some? ==> IsPhaseTag(t.value)
  {
    match p
    case NoPhase => None
    case Preparing => Some(StatePreparing)
    case Waiting => Some(StateWaiting)
    case Executing => Some(StateExecuting)
  }

  predicate IsPhaseTag(t: Tag) {
    t == StatePreparing || t == StateWaiting || t == StateExecuting
  }

  /** The four skill input tags a component scans for (Input.Skill.C/E/Q/X). */
  const SkillTags: set<Tag> := {SkillC, SkillE, SkillQ, SkillX}

  /** The status tags with a counter of their own in the store. */
  predicate IsStatusTag(t: Tag) {
    IsPhaseTag(t) || t == BlockWeaponSwitch || t == BlockAbilityActivation
  }

  /**
   * The loose-tag counts of a component: a counter per status tag, and the
   * counts of all other tags in `others`.
   */
  datatype LooseTags = LooseTags(
    preparing: nat,
    waiting: nat,
    executing: nat,
    weaponSwitch: nat,
    activationBlock: nat,
    others: multiset<Tag>)

  const NoLooseTags: LooseTags := LooseTags(0, 0, 0, 0, 0, multiset{})

  /** A store whose status tags are all in their counters. */
  predicate WellFormed(tags: LooseTags) {
    && tags.others[StatePreparing] == 0 && tags.others[StateWaiting] == 0 && tags.others[StateExecuting] == 0
    && tags.others[BlockWeaponSwitch] == 0 && tags.others[BlockAbilityActivation] == 0
  }

  /** The count of tag `t`. */
  function Count(tags: LooseTags, t: Tag): nat
  {
    match t
    case StatePreparing => tags.preparing
    case StateWaiting => tags.waiting
    case StateExecuting => tags.executing
    case BlockWeaponSwitch => tags.weaponSwitch
    case BlockAbilityActivation => tags.activationBlock
    case _ => tags.others[t]
  }

  /** HasMatchingGameplayTag for a loose tag: its count is positive. */
  predicate HasTag(tags: LooseTags, t: Tag)
  {
    Count(tags, t) > 0
  }

  /** A count lowered by one, never below zero. */
  function Dec(n: nat): nat
  {
    if n == 0 then 0 else n - 1
  }

  /** AddLooseGameplayTag: one more count of `t`. */
  function AddLooseTag(tags: LooseTags, t: Tag): (r: LooseTags)
    ensures Count(r, t) == Count(tags, t) + 1 && HasTag(r, t)
  {
    match t
    case StatePreparing => tags.(preparing := tags.preparing + 1)
    case StateWaiting => tags.(waiting := tags.waiting + 1)
    case StateExecuting => tags.(executing := tags.executing + 1)
    case BlockWeaponSwitch => tags.(weaponSwitch := tags.weaponSwitch + 1)
    case BlockAbilityActivation => tags.(activationBlock := tags.activationBlock + 1)
    case _ => tags.(others := tags.others + multiset{t})
  }

  /** RemoveLooseGameplayTag: one count of `t` less, never below zero. */
  function RemoveLooseTag(tags: LooseTags, t: Tag): (r: LooseTags)
    ensures Count(r, t) == Dec(Count(tags, t))
  {
    match t
    case StatePreparing => tags.(preparing := Dec(tags.preparing))
    case StateWaiting => tags.(waiting := Dec(tags.waiting))
    case StateExecuting => tags.(executing := Dec(tags.executing))
    case BlockWeaponSwitch => tags.(weaponSwitch := Dec(tags.weaponSwitch))
    case BlockAbilityActivation => tags.(activationBlock := Dec(tags.activationBlock))
    case _ => tags.(others := tags.others - multiset{t})
  }

  /** AddLooseGameplayTag / RemoveLooseGameplayTag, chosen by a flag. */
  function ApplyLooseTag(tags: LooseTags, t: Tag, apply: bool): LooseTags
  {
    if apply then AddLooseTag(tags, t) else RemoveLooseTag(tags, t)
  }

  /** Adding a tag keeps the status tags out of `others`. */
  lemma AddLooseTagKeepsWellFormed(tags: LooseTags, t: Tag)
    ensures WellFormed(tags) ==> WellFormed(AddLooseTag(tags, t))
  {
    if !IsStatusTag(t) {
      assert AddLooseTag(tags, t).others == tags.others + multiset{t};
    }
  }

  /** Adding a tag changes the count of that tag only, and keeps the store well formed. */
  lemma AddLooseTagCounts(tags: LooseTags, t: Tag, u: Tag)
    ensures u != t ==> Count(AddLooseTag(tags, t), u) == Count(tags, u)
    ensures WellFormed(tags) ==> WellFormed(AddLooseTag(tags, t))
  {
    AddLooseTagKeepsWellFormed(tags, t);
    if !IsStatusTag(t) {
      var r := AddLooseTag(tags, t);
      assert r.others == tags.others + multiset{t};
      if u != t && !IsStatusTag(u) {
        assert r.others[u] == tags.others[u];
      }
    }
  }

  /** Removing a tag keeps the status tags out of `others`. */
  lemma RemoveLooseTagKeepsWellFormed(tags: LooseTags, t: Tag)
    ensures WellFormed(tags) ==> WellFormed(RemoveLooseTag(tags, t))
  {
    if !IsStatusTag(t) {
      assert RemoveLooseTag(tags, t).others == tags.others - multiset{t};
    }
  }

  /** Removing a tag changes the count of that tag only, and keeps the store well formed. */
  lemma RemoveLooseTagCounts(tags: LooseTags, t: Tag, u: Tag)
    ensures u != t ==> Count(RemoveLooseTag(tags, t), u) == Count(tags, u)
    ensures WellFormed(tags) ==> WellFormed(RemoveLooseTag(tags, t))
  {
    RemoveLooseTagKeepsWellFormed(tags, t);
    if !IsStatusTag(t) {
      var r := RemoveLooseTag(tags, t);
      assert r.others == tags.others - multiset{t};
      if u != t && !IsStatusTag(u) {
        assert r.others[u] == tags.others[u];
      }
    }
  }

  /** Removing a tag just added gives back the store it was added to. */
  lemma AddThenRemoveRestores(tags: LooseTags, t: Tag)
    ensures RemoveLooseTag(AddLooseTag(tags, t), t) == tags
  {
    if !IsStatusTag(t) {
      assert tags.others + multiset{t} - multiset{t} == tags.others;
    }
  }

  /** One count of each of the three phase tags removed; every other tag kept. */
  function ClearPhaseTags(tags: LooseTags): (r: LooseTags)
  {
    tags.(preparing := Dec(tags.preparing), waiting := Dec(tags.waiting), executing := Dec(tags.executing))
  }

  /**
   * The tag rewrite done when a phase is replicated on authority: one count of
   * each of the three phase tags is removed, then the new phase's tag is added.
   */
  function RephaseTags(tags: LooseTags, p: Phase): (r: LooseTags)
  {
    var cleared := ClearPhaseTags(tags);
    match PhaseTag(p)
    case None => cleared
    case Some(t) => AddLooseTag(cleared, t)
  }

  /**
   * The whole tag effect of a phase change: on authority the phase tags are
   * rewritten, and on every node Block.WeaponSwitch is added when the new phase
   * is Executing and loses one count otherwise.
   */
  function PhaseChangeTags(tags: LooseTags, p: Phase, authority: bool): (r: LooseTags)
  {
    var phased := if authority then RephaseTags(tags, p) else tags;
    ApplyLooseTag(phased, BlockWeaponSwitch, p == Executing)
  }

  /**
   * A phase rewrite on authority: the new phase's tag has a count of at least
   * one, the other two phase tags lose one count, and every non-phase tag keeps
   * its count.
   */
  lemma RephaseCounts(tags: LooseTags, p: Phase, u: Tag)
    ensures !IsPhaseTag(u) ==> Count(RephaseTags(tags, p), u) == Count(tags, u)
    ensures IsPhaseTag(u) && PhaseTag(p) != Some(u) ==> Count(RephaseTags(tags, p), u) == Dec(Count(tags, u))
    ensures PhaseTag(p) == Some(u) ==> Count(RephaseTags(tags, p), u) == Dec(Count(tags, u)) + 1
  {
  }

  /**
   * On authority, when no phase tag held more than one count before the change,
   * exactly the new phase's tag is left among the three phase tags.
   */
  lemma PhaseChangeLeavesOnlyCurrentPhaseTag(tags: LooseTags, p: Phase)
    requires tags.preparing <= 1 && tags.waiting <= 1 && tags.executing <= 1
    ensures forall u :: IsPhaseTag(u) ==> (HasTag(PhaseChangeTags(tags, p, true), u) <==> PhaseTag(p) == Some(u))
  {
    forall u | IsPhaseTag(u)
      ensures HasTag(PhaseChangeTags(tags, p, true), u) <==> PhaseTag(p) == Some(u)
    {
      RephaseCounts(tags, p, u);
      AddLooseTagCounts(RephaseTags(tags, p), BlockWeaponSwitch, u);
      RemoveLooseTagCounts(RephaseTags(tags, p), BlockWeaponSwitch, u);
    }
  }

  /** Block.WeaponSwitch is present after a change into Executing on any node, and gone after a change out of it. */
  lemma PhaseChangeWeaponSwitchBlock(tags: LooseTags, p: Phase, authority: bool)
    ensures p == Executing ==> HasTag(PhaseChangeTags(tags, p, authority), BlockWeaponSwitch)
    ensures p != Executing && tags.weaponSwitch <= 1 ==> !HasTag(PhaseChangeTags(tags, p, authority), BlockWeaponSwitch)
  {
  }
}
