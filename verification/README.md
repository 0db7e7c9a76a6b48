# Valorant ability system — a Dafny model

This project models the ability core of a Valorant-style Unreal Engine 5 game:

- the gameplay ability phase machine (`UBaseGameplayAbility`: Preparing, Waiting, Executing);
- the agent ability system component that routes skill input and owns the status tags and the follow-up window (`UAgentAbilitySystemComponent`);
- the follow-up hooks of Sage (Barrier Orb, Slow Orb, Healing Orb), KAY/O (FRAG/ment, ZERO/point, FLASH/drive) and Phoenix (Hot Hands, Curveball);
- the actors and widgets with state rules of their own: Sage's barrier wall, Phoenix's Blaze spline wall and Blaze projectile, the minimap widget and the flash overlay widget.

Every `.dfy` file is one module:

| file | module | models |
|---|---|---|
| `wrappers.dfy` | `Wrappers` | `Option` |
| `geometry.dfy` | `Geometry` | 2-D and 3-D vectors as reals |
| `tags.dfy` | `GameplayTags` | gameplay tags and the reference-counted loose-tag store; the phase-tag rules |
| `ability_defs.dfy` | `AbilityDefs` | activation and follow-up enumerations, per-class configuration, asset properties, world-query outcomes |
| `ability_hooks.dfy` | `AbilityHooks` | each ability class's left-click, right-click and repeat hooks as a verdict |
| `barrier_orb.dfy` | `BarrierOrb` | Sage C's barrier rotation and its normalisation into [0, 360) |
| `ability_system.dfy` | `AbilitySystem` | the component and the ability as classes, with every phase transition as a method |
| `lifecycle_properties.dfy` | `LifecycleProperties` | how each transition keeps the status tags in step with the phase |
| `barrier_wall.dfy` | `BarrierWall` | the three-segment barrier wall actor |
| `blaze_wall.dfy` | `BlazeWall` | the Blaze spline wall: points, overlap set, damage timer, ally rule |
| `blaze_projectile.dfy` | `BlazeProjectile` | the Blaze projectile: segment cap, distance, curve, stop |
| `minimap.dfy` | `Minimap` | tracked agents, the visibility rule, the world-to-minimap map |
| `flash_widget.dfy` | `FlashWidget` | flash intensity, the latched screen position, the flash type |

Classes whose fields the game updates in place (the component, the ability, the barrier wall, the spline wall, the projectile, the two widgets) are Dafny classes.
Their methods state their new state.
Where a class's whole state is small, each method is tied to a function over a state value (`State() == Ticked(old(State()), …)`).
Lemmas about those functions carry the properties.

Further modelling choices:

- Loose gameplay tags are reference-counted, as in Unreal.
  The store counts the five status tags each in a field of its own, and keeps every other tag in a multiset.
- The player state's charge ledger is a map from ability id to a natural number; a missing id holds no charge.
- Timers are armed flags. The timer's expiry is an event method.
- Montage completion, blend-out and input are event methods as well.
- The network role is a boolean (`authority`). A non-authority component's status tags are the replicated mirror.
- Engine world queries are inputs of type `World`: traces, spawn success, health, placement.
- Engine floats are Dafny `real`s.

## Model

| member | source | states |
|---|---|---|
| GameplayTags.PhaseTag | UnrealEngine/Valorant/Source/Valorant/AbilitySystem/Abilities/BaseGameplayAbility.cpp:469-476 | Exactly the three phases own a status tag and the empty phase owns none; every tag a phase owns is one of Preparing, Waiting, Executing. |
| GameplayTags.AddLooseTag | UnrealEngine/Valorant/Source/Valorant/AbilitySystem/AgentAbilitySystemComponent.cpp:228-231 | Adding a loose tag raises that tag's count by exactly one, so the component holds it afterwards. |
| GameplayTags.RemoveLooseTag | UnrealEngine/Valorant/Source/Valorant/AbilitySystem/AgentAbilitySystemComponent.cpp:232-235 | Removing a loose tag lowers that tag's count by one and never below zero. |
| GameplayTags.AddLooseTagKeepsWellFormed | UnrealEngine/Valorant/Source/Valorant/AbilitySystem/AgentAbilitySystemComponent.cpp:228-231 | Adding any tag keeps the counter store well formed: the five status tags live in their own counters and never in the bag of other tags. |
| GameplayTags.AddLooseTagCounts | UnrealEngine/Valorant/Source/Valorant/AbilitySystem/AgentAbilitySystemComponent.cpp:228-231 | Adding one tag leaves the count of every other tag unchanged. |
| GameplayTags.RemoveLooseTagKeepsWellFormed | UnrealEngine/Valorant/Source/Valorant/AbilitySystem/AgentAbilitySystemComponent.cpp:232-235 | Removing any tag keeps the counter store well formed. |
| GameplayTags.RemoveLooseTagCounts | UnrealEngine/Valorant/Source/Valorant/AbilitySystem/AgentAbilitySystemComponent.cpp:232-235 | Removing one tag leaves the count of every other tag unchanged. |
| GameplayTags.AddThenRemoveRestores | UnrealEngine/Valorant/Source/Valorant/AbilitySystem/AgentAbilitySystemComponent.cpp:226-235 | Applying and then releasing the same tag gives back exactly the store it started from. |
| GameplayTags.RephaseCounts | UnrealEngine/Valorant/Source/Valorant/AbilitySystem/Abilities/BaseGameplayAbility.cpp:460-478 | OnRep_CurrentPhase keeps every non-phase tag, takes one count off each phase tag other than the current one, and leaves the current phase tag at its decremented count plus one. |
| GameplayTags.PhaseChangeLeavesOnlyCurrentPhaseTag | UnrealEngine/Valorant/Source/Valorant/AbilitySystem/Abilities/BaseGameplayAbility.cpp:429-441 | When each phase tag is held at most once, a phase change on authority leaves the component holding exactly the new phase's tag among the three phase tags. |
| GameplayTags.PhaseChangeWeaponSwitchBlock | UnrealEngine/Valorant/Source/Valorant/AbilitySystem/Abilities/BaseGameplayAbility.cpp:443-457 | Entering Executing always holds Block.WeaponSwitch; entering any other phase releases it when it was held at most once. |
| AbilityDefs.ConfigOf | UnrealEngine/Valorant/Source/Valorant/AbilitySystem/Abilities/BaseGameplayAbility.h:40-49 | Each class's configuration as its constructor sets it over the base defaults (ID 0, instant, no follow-up input, a 10-second window, no asset tags): Sage C 1001, with preparation, any input, a 30-second window, Input.Skill.C (Sage_C_BarrierOrb.cpp:25-28); Sage Q 1002 and Sage E 1003, with preparation, left or right click (Sage_Q_SlowOrb.cpp:10-12, Sage_E_HealingOrb.cpp:15-17); KAY/O C 3001, instant (KAYO_C_FRAGMENT.cpp:9-12); KAY/O Q 3002, left or right click (KAYO_Q_FLASHDRIVE.cpp:11-15); KAY/O E 3003, left click only (KAYO_E_ZEROPOINT.cpp:12-16); Phoenix Q 2002 and Phoenix E 2003, left or right click, Phoenix E also tagged Ability.Phoenix.Curveball (Phoenix_Q_HotHands.cpp:14-16, Phoenix_E_Curveball.cpp:8-21). |
| AbilityDefs.FollowUpInputs | UnrealEngine/Valorant/Source/Valorant/AbilitySystem/Abilities/BaseGameplayAbility.cpp:493-513 | The registered follow-up set is empty exactly for None; it holds left click exactly for LeftClick, LeftOrRight and Any, right click exactly for RightClick, LeftOrRight and Any, repeat exactly for RepeatKey and Any, and no other input. |
| AbilityDefs.RegisteredInputsAreConsultedInputs | UnrealEngine/Valorant/Source/Valorant/AbilitySystem/Abilities/BaseGameplayAbility.cpp:316-342 | HandleFollowUpInput passes an input to a hook exactly when RegisterFollowUpInputs registered that input for the same follow-up type. |
| AbilityHooks.HookVerdict | UnrealEngine/Valorant/Source/Valorant/AbilitySystem/Abilities/BaseGameplayAbility.cpp:270-283 | The hook each input reaches: the base hooks execute; the overrides follow Sage_C_BarrierOrb.cpp:47-86 (left click only with a valid placement, right click and repeat keep waiting), Sage_E_HealingOrb.cpp:20-76 (left click on an ally, right click when hurt), KAYO_E_ZEROPOINT.cpp:27-73 and KAYO_Q_FLASHDRIVE.cpp:18-71 (execute exactly when the throw spawns), Phoenix_Q_HotHands.cpp:19-88 (cancel when the spawn guard fails), and Sage_Q_SlowOrb.cpp:15-19 and Phoenix_E_Curveball.cpp:23-59 (always execute). |
| AbilityHooks.FollowUpVerdict | UnrealEngine/Valorant/Source/Valorant/AbilitySystem/Abilities/BaseGameplayAbility.cpp:316-342 | An input outside the ability's follow-up table reaches no hook and leaves the ability waiting; any verdict other than staying comes from a registered input. |
| AbilityHooks.BarrierOrbRotationInputsStay | UnrealEngine/Valorant/Source/Valorant/AbilitySystem/Abilities/Sage/Sage_C_BarrierOrb.cpp:74-86 | Sage C's right click and scroll only turn the preview and never move the ability out of Waiting. |
| AbilityHooks.BarrierOrbLeftClickNeedsValidPlacement | UnrealEngine/Valorant/Source/Valorant/AbilitySystem/Abilities/Sage/Sage_C_BarrierOrb.cpp:47-72 | Sage C's left click executes exactly when the stored placement is valid, and otherwise keeps waiting. |
| AbilityHooks.ZeroPointAcceptsOnlyLeftClick | UnrealEngine/Valorant/Source/Valorant/AbilitySystem/Abilities/KAYO/KAYO_E_ZEROPOINT.cpp:27-73 | KAY/O E ignores every input except left click, and a left click executes exactly when the knife throw succeeds (authority, projectile class, character, spawned actor). |
| AbilityHooks.FlashDriveExecutesIffThrown | UnrealEngine/Valorant/Source/Valorant/AbilitySystem/Abilities/KAYO/KAYO_Q_FLASHDRIVE.cpp:18-71 | KAY/O Q: either click executes exactly when the flashbang throw succeeds and otherwise keeps waiting. |
| AbilityHooks.HotHandsExecutesOrCancels | UnrealEngine/Valorant/Source/Valorant/AbilitySystem/Abilities/Phoenix/Phoenix_Q_HotHands.cpp:19-52 | Phoenix Q: a click executes when the spawn guard passes and cancels the ability when it fails; it never keeps waiting. |
| AbilityHooks.CurveballAndSlowOrbAlwaysExecute | UnrealEngine/Valorant/Source/Valorant/AbilitySystem/Abilities/Phoenix/Phoenix_E_Curveball.cpp:23-42 | Phoenix E and Sage Q: a click always executes, whether or not the spawn succeeds. |
| AbilityHooks.HealingOrbExecutesIffHealing | UnrealEngine/Valorant/Source/Valorant/AbilitySystem/Abilities/Sage/Sage_E_HealingOrb.cpp:20-76 | Sage E: a left click executes exactly when the trace finds an ally, a right click exactly when the owner is hurt, and repeat never executes. |
| AbilityHooks.OnlyHotHandsCancels | UnrealEngine/Valorant/Source/Valorant/AbilitySystem/Abilities/Phoenix/Phoenix_Q_HotHands.cpp:19-52 | A hook that cancels is always Phoenix Q's, and only when its spawn guard failed. |
| BarrierOrb.FMod | UnrealEngine/Valorant/Source/Valorant/AbilitySystem/Abilities/Sage/Sage_C_BarrierOrb.cpp:158 | FMath::Fmod keeps the sign of the dividend: the result lies in [0, m) for a non-negative dividend and in (-m, 0] for a negative one. |
| BarrierOrb.RotationStaysInTurn | UnrealEngine/Valorant/Source/Valorant/AbilitySystem/Abilities/Sage/Sage_C_BarrierOrb.cpp:152-168 | Rotating from a yaw in [0, 360) stays in [0, 360) and stays on the 15-degree grid. |
| BarrierOrb.RotationRoundTrip | UnrealEngine/Valorant/Source/Valorant/AbilitySystem/Abilities/Sage/Sage_C_BarrierOrb.cpp:152-168 | A clockwise step followed by a counter-clockwise step, or the reverse, gives back the original yaw. |
| AbilitySystem.FirstTag | UnrealEngine/Valorant/Source/Valorant/AbilitySystem/Abilities/BaseGameplayAbility.cpp:515 | The owner tag is absent exactly when the ability has no asset tags, and otherwise is its first asset tag. |
| AbilitySystem.FirstSkillTag | UnrealEngine/Valorant/Source/Valorant/AbilitySystem/Abilities/BaseGameplayAbility.cpp:245-257 | The tag PrepareAbility announces is the FIRST asset tag that is a skill tag: no skill tag comes before it; there is none exactly when no asset tag is a skill tag. |
| AbilitySystem.LastSkillTag | UnrealEngine/Valorant/Source/Valorant/AbilitySystem/AgentAbilitySystemComponent.cpp:146-183 | The source tag a spec is given is the LAST asset tag that is a skill tag, as the loop keeps overwriting it: no skill tag comes after it; there is none exactly when no asset tag is a skill tag. |
| AbilitySystem.WithCurveDirection | UnrealEngine/Valorant/Source/Valorant/AbilitySystem/Abilities/Phoenix/Phoenix_E_Curveball.cpp:44-59 | Setting the curve direction keeps whether a projectile exists; a spawned curveball takes the click's side and any other projectile is left alone. |
| AbilitySystem.Agent.ReduceAbilityStack | UnrealEngine/Valorant/Source/Valorant/AbilitySystem/Abilities/BaseGameplayAbility.cpp:566-577 | Spending a charge succeeds exactly when the id has one; that id loses one charge and every other id keeps its count. |
| AbilitySystem.AbilitySystemComponent.constructor | UnrealEngine/Valorant/Source/Valorant/AbilitySystem/AgentAbilitySystemComponent.cpp:15-19 | A new component holds no loose tags, no follow-up window or owner, no ability data and no granted abilities, and its invariant holds. |
| AbilitySystem.AbilitySystemComponent.AddLooseGameplayTag | UnrealEngine/Valorant/Source/Valorant/AbilitySystem/AgentAbilitySystemComponent.cpp:230 | The store after the engine's add is one more count of the tag (see AddLooseTagCounts). |
| AbilitySystem.AbilitySystemComponent.RemoveLooseGameplayTag | UnrealEngine/Valorant/Source/Valorant/AbilitySystem/AgentAbilitySystemComponent.cpp:234 | The store after the engine's remove is one count less of the tag, never below zero. |
| AbilitySystem.AbilitySystemComponent.SetAbilityState | UnrealEngine/Valorant/Source/Valorant/AbilitySystem/AgentAbilitySystemComponent.cpp:226-244 | Applying a state adds one count of its tag and releasing it removes one; nothing else in the store changes. |
| AbilitySystem.AbilitySystemComponent.NotifyAbilityStateChanged | UnrealEngine/Valorant/Source/Valorant/AbilitySystem/AgentAbilitySystemComponent.cpp:351-366 | The multicast applies the state change on clients only, so the server's store, which already changed, is not changed twice. |
| AbilitySystem.AbilitySystemComponent.RegisterFollowUpInputs | UnrealEngine/Valorant/Source/Valorant/AbilitySystem/AgentAbilitySystemComponent.cpp:246-259 | The window becomes exactly the given inputs, owned by the given ability tag, and Waiting gains one count. |
| AbilitySystem.AbilitySystemComponent.ClearFollowUpInputs | UnrealEngine/Valorant/Source/Valorant/AbilitySystem/AgentAbilitySystemComponent.cpp:261-269 | The window is emptied, its owner cleared, and Waiting loses one count. |
| AbilitySystem.AbilitySystemComponent.CleanupAbilityState | UnrealEngine/Valorant/Source/Valorant/AbilitySystem/AgentAbilitySystemComponent.cpp:271-295 | The window and its owner are cleared and the tags end as the cleanup leaves them (counts stated by CleanupCounts). |
| AbilitySystem.CleanupCounts | UnrealEngine/Valorant/Source/Valorant/AbilitySystem/AgentAbilitySystemComponent.cpp:285-295 | Cleanup lowers Waiting by two (its own release plus ClearFollowUpInputs), Preparing, Executing and Block.WeaponSwitch by one, never below zero, and keeps every other tag. |
| AbilitySystem.AbilitySystemComponent.FileSkillTags | UnrealEngine/Valorant/Source/Valorant/AbilitySystem/AgentAbilitySystemComponent.cpp:146-177 | Each skill tag among the asset tags files the ability's data in its C, E, Q or X slot and in the data map; a slot whose tag is absent keeps its data; the tag returned is the last skill tag found. |
| AbilitySystem.FiledSkillsContents | UnrealEngine/Valorant/Source/Valorant/AbilitySystem/AgentAbilitySystemComponent.cpp:149-177 | After filing, the data map's keys are the old keys plus the asset skill tags; each filed skill tag maps to the new data and every other key keeps its old data. |
| AbilitySystem.AbilitySystemComponent.SetAgentAbility | UnrealEngine/Valorant/Source/Valorant/AbilitySystem/AgentAbilitySystemComponent.cpp:132-188 | The data is filed by its skill tags; exactly one fresh instance is granted, at the given level with the last skill tag as its source, when the asset tags hold a skill tag, and none otherwise; earlier instances are kept in order. |
| AbilitySystem.AppendedTrans | UnrealEngine/Valorant/Source/Valorant/AbilitySystem/AgentAbilitySystemComponent.cpp:126-129 | Granting at most m and then at most n instances of one level grants at most m + n and keeps the earlier instances. |
| AbilitySystem.AbilitySystemComponent.RegisterAgentAbilities | UnrealEngine/Valorant/Source/Valorant/AbilitySystem/AgentAbilitySystemComponent.cpp:123-130 | Registering an agent grants at most four new instances, all at level 1, and keeps the earlier ones. |
| AbilitySystem.AbilitySystemComponent.ResetAgentAbilities | UnrealEngine/Valorant/Source/Valorant/AbilitySystem/AgentAbilitySystemComponent.cpp:190-200 | Every granted ability is cleared and the ability data map is emptied. |
| AbilitySystem.AbilitySystemComponent.TrySkillInput | UnrealEngine/Valorant/Source/Valorant/AbilitySystem/AgentAbilitySystemComponent.cpp:302-339 | While waiting, every input is consumed and only a registered follow-up input changes anything; while executing, every input is consumed and nothing changes; otherwise the input is consumed exactly when some granted ability carrying it as an asset tag was inactive and could activate (no activation block, a charge left). |
| AbilitySystem.AbilitySystemComponent.TryActivateAbilitiesByTag | UnrealEngine/Valorant/Source/Valorant/AbilitySystem/AgentAbilitySystemComponent.cpp:314-319 | Activation by tag succeeds exactly when some granted ability carrying the tag was inactive and could activate on the state before the call; a failed try changes nothing. |
| AbilitySystem.AbilitySystemComponent.HandleGameplayEvent | UnrealEngine/Valorant/Source/Valorant/AbilitySystem/AgentAbilitySystemComponent.cpp:49-73 | An event reaches an ability only while the component waits and the event is a registered follow-up input; otherwise nothing changes. |
| AbilitySystem.GameplayAbility.constructor | UnrealEngine/Valorant/Source/Valorant/AbilitySystem/Abilities/BaseGameplayAbility.cpp:17-24 | A granted instance starts inactive, with no phase, no timer, no saved equipment, its class's configuration and assets and no spawned actor, and its invariant holds. |
| AbilitySystem.GameplayAbility.ReduceAbilityStack | UnrealEngine/Valorant/Source/Valorant/AbilitySystem/Abilities/BaseGameplayAbility.cpp:566-577 | The ability spends one charge of its own id exactly when one is left. |
| AbilitySystem.GameplayAbility.SetAbilityPhase | UnrealEngine/Valorant/Source/Valorant/AbilitySystem/Abilities/BaseGameplayAbility.cpp:429-458 | The phase becomes the new one; on a real change the phase tags follow on authority and Block.WeaponSwitch is held exactly when entering Executing (lemmas PhaseChangeLeavesOnlyCurrentPhaseTag and PhaseChangeWeaponSwitchBlock). |
| AbilitySystem.GameplayAbility.OnRepCurrentPhase | UnrealEngine/Valorant/Source/Valorant/AbilitySystem/Abilities/BaseGameplayAbility.cpp:460-478 | The phase tags are replaced by the current phase's tag (counts stated by RephaseCounts). |
| AbilitySystem.GameplayAbility.RegisterFollowUpInputs | UnrealEngine/Valorant/Source/Valorant/AbilitySystem/Abilities/BaseGameplayAbility.cpp:480-517 | Without a follow-up the component is untouched; otherwise its window is the follow-up set of the ability's type, owned by its first asset tag, with one more Waiting count. |
| AbilitySystem.GameplayAbility.UnregisterFollowUpInputs | UnrealEngine/Valorant/Source/Valorant/AbilitySystem/Abilities/BaseGameplayAbility.cpp:519-526 | The component's window and owner are cleared and Waiting loses one count. |
| AbilitySystem.GameplayAbility.EndAbility | UnrealEngine/Valorant/Source/Valorant/AbilitySystem/Abilities/BaseGameplayAbility.cpp:533-564 | Ending closes the window, stops the timer, clears the phase, releases the saved equipment and deactivates; with the tags consistent before, no status tag is left (EndLeavesNoTags). |
| AbilitySystem.GameplayAbility.ResetBarrierOrb | UnrealEngine/Valorant/Source/Valorant/AbilitySystem/Abilities/Sage/Sage_C_BarrierOrb.cpp:355-374 | Sage C's end stops the preview timer, destroys the orb and the preview, resets the yaw to 0 and the placement to invalid; other abilities are untouched. |
| AbilitySystem.GameplayAbility.ReleaseEquipment | UnrealEngine/Valorant/Source/Valorant/AbilitySystem/Abilities/BaseGameplayAbility.cpp:547-558 | The saved equipment is cleared; when one was saved, the agent is switched on authority to the ability slot, as the code does, and otherwise keeps its equipment. |
| AbilitySystem.GameplayAbility.CancelAbility | UnrealEngine/Valorant/Source/Valorant/AbilitySystem/Abilities/BaseGameplayAbility.cpp:64-77 | Cancelling ends the ability as EndAbility does, with the window released once more by the cancel itself; no status tag is left (CancelLeavesNoTags). |
| AbilitySystem.GameplayAbility.OnWaitingTimeout | UnrealEngine/Valorant/Source/Valorant/AbilitySystem/Abilities/BaseGameplayAbility.cpp:528-531 | The follow-up timeout cancels the ability. |
| AbilitySystem.GameplayAbility.SpawnProjectile | UnrealEngine/Valorant/Source/Valorant/AbilitySystem/Abilities/BaseGameplayAbility.cpp:401-427 | The spawn reports success exactly when authority, a projectile class and a character avatar are present; the stored actor is then the spawn's result (null when the world refuses it) and is otherwise kept. |
| AbilitySystem.GameplayAbility.ThrowKnife | UnrealEngine/Valorant/Source/Valorant/AbilitySystem/Abilities/KAYO/KAYO_E_ZEROPOINT.cpp:33-73 | The knife throw succeeds exactly when the spawn guard passes and an actor is spawned; only then is the thrown knife stored. |
| AbilitySystem.GameplayAbility.ThrowFlashbang | UnrealEngine/Valorant/Source/Valorant/AbilitySystem/Abilities/KAYO/KAYO_Q_FLASHDRIVE.cpp:30-71 | The flashbang throw succeeds exactly when the spawn guard passes and an actor is spawned; only then is it stored, as an alt-fire throw for the right click. |
| AbilitySystem.GameplayAbility.SpawnProjectileByType | UnrealEngine/Valorant/Source/Valorant/AbilitySystem/Abilities/Phoenix/Phoenix_Q_HotHands.cpp:54-88 | HotHands' spawn keeps its projectile class and succeeds exactly when the base spawn guard passes. |
| AbilitySystem.GameplayAbility.SpawnFlashProjectile | UnrealEngine/Valorant/Source/Valorant/AbilitySystem/Abilities/Phoenix/Phoenix_E_Curveball.cpp:44-59 | Without a flash projectile class nothing is spawned or changed; with one, it becomes the projectile class, the spawn succeeds exactly when the guard passes, and the spawned curveball takes the click's side. |
| AbilitySystem.GameplayAbility.SpawnBarrierOrb | UnrealEngine/Valorant/Source/Valorant/AbilitySystem/Abilities/Sage/Sage_C_BarrierOrb.cpp:88-115 | The orb exists afterwards when authority, an orb class and a character are present and the world spawns it; otherwise it is unchanged. |
| AbilitySystem.GameplayAbility.DestroyBarrierOrb | UnrealEngine/Valorant/Source/Valorant/AbilitySystem/Abilities/Sage/Sage_C_BarrierOrb.cpp:117-124 | No orb is left. |
| AbilitySystem.GameplayAbility.CreatePreviewActors | UnrealEngine/Valorant/Source/Valorant/AbilitySystem/Abilities/Sage/Sage_C_BarrierOrb.cpp:316-336 | With a wall class the preview exists exactly when its own SpawnActor call succeeds; without one it is unchanged. |
| AbilitySystem.GameplayAbility.DestroyPreviewActors | UnrealEngine/Valorant/Source/Valorant/AbilitySystem/Abilities/Sage/Sage_C_BarrierOrb.cpp:338-345 | No preview is left. |
| AbilitySystem.GameplayAbility.WaitAbility | UnrealEngine/Valorant/Source/Valorant/AbilitySystem/Abilities/Sage/Sage_C_BarrierOrb.cpp:31-45 | Sage C spawns its orb and its preview, each with its own spawn outcome, and arms the preview timer on entering Waiting; every other ability does nothing. |
| AbilitySystem.GameplayAbility.UpdateBarrierPreview | UnrealEngine/Valorant/Source/Valorant/AbilitySystem/Abilities/Sage/Sage_C_BarrierOrb.cpp:126-150 | The stored placement becomes the traced placement, and the preview material changes exactly when the placement flips. |
| AbilitySystem.GameplayAbility.RotateBarrier | UnrealEngine/Valorant/Source/Valorant/AbilitySystem/Abilities/Sage/Sage_C_BarrierOrb.cpp:152-168 | The yaw moves one 15-degree step in the given direction, stays in [0, 360) on the grid, and the placement is re-checked. |
| AbilitySystem.GameplayAbility.SpawnBarrierWall | UnrealEngine/Valorant/Source/Valorant/AbilitySystem/Abilities/Sage/Sage_C_BarrierOrb.cpp:290-314 | A wall is placed and initialised exactly when authority, a wall class and a successful spawn come together. |
| AbilitySystem.GameplayAbility.PrepareAbility | UnrealEngine/Valorant/Source/Valorant/AbilitySystem/Abilities/BaseGameplayAbility.cpp:243-260 | Preparing broadcasts one notice: the first skill tag of the ability and its follow-up type. |
| AbilitySystem.GameplayAbility.ExecuteAbility | UnrealEngine/Valorant/Source/Valorant/AbilitySystem/Abilities/KAYO/KAYO_C_FRAGMENT.cpp:15-26 | Only KAY/O C spawns on execution, through the base spawn; every other ability spawns nothing. |
| AbilitySystem.GameplayAbility.BarrierOrbClick | UnrealEngine/Valorant/Source/Valorant/AbilitySystem/Abilities/Sage/Sage_C_BarrierOrb.cpp:47-79 | Sage C's click: the verdict is its hook's, a valid left click places one wall on authority, and a right click turns the preview clockwise; the invariant holds. |
| AbilitySystem.GameplayAbility.HealingOrbClick | UnrealEngine/Valorant/Source/Valorant/AbilitySystem/Abilities/Sage/Sage_E_HealingOrb.cpp:20-76 | Sage E's click: the verdict is its hook's and exactly one heal is logged when the verdict executes (ally on the left, owner on the right). |
| AbilitySystem.GameplayAbility.SlowOrbClick | UnrealEngine/Valorant/Source/Valorant/AbilitySystem/Abilities/Sage/Sage_Q_SlowOrb.cpp:15-19 | Sage Q's left click spawns through the base spawn and always executes. |
| AbilitySystem.GameplayAbility.KayoThrowClick | UnrealEngine/Valorant/Source/Valorant/AbilitySystem/Abilities/KAYO/KAYO_E_ZEROPOINT.cpp:27-31 | KAY/O E's left click and KAY/O Q's clicks (KAYO_Q_FLASHDRIVE.cpp lines 18-28) throw and execute exactly when the throw succeeds. |
| AbilitySystem.GameplayAbility.HotHandsClick | UnrealEngine/Valorant/Source/Valorant/AbilitySystem/Abilities/Phoenix/Phoenix_Q_HotHands.cpp:19-52 | Phoenix Q's click executes after a spawn when the guard passes and otherwise cancels the ability; the invariant holds either way. |
| AbilitySystem.GameplayAbility.FizzleHotHands | UnrealEngine/Valorant/Source/Valorant/AbilitySystem/Abilities/Phoenix/Phoenix_Q_HotHands.cpp:27-32 | When Phoenix Q's spawn guard fails, the click cancels the ability and reports no execution. |
| AbilitySystem.GameplayAbility.CurveballClick | UnrealEngine/Valorant/Source/Valorant/AbilitySystem/Abilities/Phoenix/Phoenix_E_Curveball.cpp:23-42 | Phoenix E's click spawns a flash curveball bent to the click's side and always executes. |
| AbilitySystem.GameplayAbility.OnLeftClickInput | UnrealEngine/Valorant/Source/Valorant/AbilitySystem/Abilities/BaseGameplayAbility.cpp:270-273 | The left-click hook of the ability's class runs: verdict, life cycle and per-class effect as HookOutcome states; the base hook executes. |
| AbilitySystem.GameplayAbility.OnRightClickInput | UnrealEngine/Valorant/Source/Valorant/AbilitySystem/Abilities/BaseGameplayAbility.cpp:275-278 | The right-click hook of the ability's class runs as HookOutcome states; the base hook executes. |
| AbilitySystem.GameplayAbility.OnRepeatInput | UnrealEngine/Valorant/Source/Valorant/AbilitySystem/Abilities/BaseGameplayAbility.cpp:280-283 | The repeat hook runs: Sage C turns counter-clockwise and keeps waiting, every other ability executes. |
| AbilitySystem.GameplayAbility.HandleExecutePhase | UnrealEngine/Valorant/Source/Valorant/AbilitySystem/Abilities/BaseGameplayAbility.cpp:197-241 | Executing spends one charge on authority, runs the execute work, stops the timer, and ends the ability at once when there is no execute montage. |
| AbilitySystem.GameplayAbility.HandleWaitingPhase | UnrealEngine/Valorant/Source/Valorant/AbilitySystem/Abilities/BaseGameplayAbility.cpp:161-195 | Entering Waiting runs the class's waiting work, opens the follow-up window when the ability has one, and arms the timeout. |
| AbilitySystem.GameplayAbility.OnMontageCompleted | UnrealEngine/Valorant/Source/Valorant/AbilitySystem/Abilities/BaseGameplayAbility.cpp:285-298 | A finished montage moves Preparing on to Waiting and ends Executing; other phases are left alone. |
| AbilitySystem.GameplayAbility.OnMontageBlendOut | UnrealEngine/Valorant/Source/Valorant/AbilitySystem/Abilities/BaseGameplayAbility.cpp:300-307 | A blended-out montage does what a completed one does. |
| AbilitySystem.GameplayAbility.HandlePreparePhase | UnrealEngine/Valorant/Source/Valorant/AbilitySystem/Abilities/BaseGameplayAbility.cpp:119-159 | Preparing announces itself once and, without a prepare montage, goes straight on to Waiting. |
| AbilitySystem.GameplayAbility.StartAbilityExecution | UnrealEngine/Valorant/Source/Valorant/AbilitySystem/Abilities/BaseGameplayAbility.cpp:101-117 | An instant ability enters Executing and runs it, spending a charge on authority; one with a preparation enters Preparing, announces itself and spends nothing yet. |
| AbilitySystem.GameplayAbility.ActivateAbility | UnrealEngine/Valorant/Source/Valorant/AbilitySystem/Abilities/BaseGameplayAbility.cpp:79-99 | Activation saves the equipment, switches to the ability slot on authority, then starts as StartAbilityExecution states. |
| AbilitySystem.GameplayAbility.TryActivateAbility | UnrealEngine/Valorant/Source/Valorant/AbilitySystem/Abilities/BaseGameplayAbility.cpp:49-62 | Activation succeeds exactly when the instance is inactive, Block.AbilityActivation is not held and a charge is left; a refused activation changes nothing. |
| AbilitySystem.GameplayAbility.ConsultFollowUpHook | UnrealEngine/Valorant/Source/Valorant/AbilitySystem/Abilities/BaseGameplayAbility.cpp:316-342 | The hook is consulted only for an input in the follow-up table; the result is true exactly for an Execute verdict. |
| AbilitySystem.GameplayAbility.ExecuteFollowUp | UnrealEngine/Valorant/Source/Valorant/AbilitySystem/Abilities/BaseGameplayAbility.cpp:344-351 | An accepted follow-up closes the window, enters Executing and runs the execute phase, spending a charge on authority. |
| AbilitySystem.GameplayAbility.HandleFollowUpInput | UnrealEngine/Valorant/Source/Valorant/AbilitySystem/Abilities/BaseGameplayAbility.cpp:309-352 | Outside Waiting nothing changes; in Waiting the reached hook acts, and a charge is spent exactly when its verdict executes. |
| AbilitySystem.CleanupIdempotentWhenIdle | UnrealEngine/Valorant/Source/Valorant/AbilitySystem/AgentAbilitySystemComponent.cpp:285-295 | Cleanup leaves a store with no status counts unchanged, and cleaning twice equals cleaning once when no status tag holds more than one ability's counts. |
| AbilitySystem.AbilitySystemComponent.IsAbilityPreparing | UnrealEngine/Valorant/Source/Valorant/AbilitySystem/AgentAbilitySystemComponent.cpp:204-207 | Preparing is the query for a positive count of State.Ability.Preparing. |
| AbilitySystem.AbilitySystemComponent.IsAbilityExecuting | UnrealEngine/Valorant/Source/Valorant/AbilitySystem/AgentAbilitySystemComponent.cpp:209-212 | Executing is the query for a positive count of State.Ability.Executing. |
| AbilitySystem.AbilitySystemComponent.IsWaitingForFollowUp | UnrealEngine/Valorant/Source/Valorant/AbilitySystem/AgentAbilitySystemComponent.cpp:214-217 | Waiting is the query for a positive count of State.Ability.Waiting. |
| AbilitySystem.AbilitySystemComponent.CanActivateAbilities | UnrealEngine/Valorant/Source/Valorant/AbilitySystem/AgentAbilitySystemComponent.cpp:219-224 | Activation is open when Block.AbilityActivation is not held and no ability is executing. |
| AbilitySystem.AbilitySystemComponent.IsValidFollowUpInput | UnrealEngine/Valorant/Source/Valorant/AbilitySystem/AgentAbilitySystemComponent.cpp:341-344 | An input is a valid follow-up when it is in the open window's input set. |
| AbilitySystem.GameplayAbility.CanBeCanceled | UnrealEngine/Valorant/Source/Valorant/AbilitySystem/Abilities/BaseGameplayAbility.cpp:37-47 | In Executing the ability can be cancelled only when the asset allows cancelling during execution; in any other phase it can be. |
| AbilitySystem.GameplayAbility.GetAbilityStack | UnrealEngine/Valorant/Source/Valorant/AbilitySystem/Abilities/BaseGameplayAbility.cpp:579-590 | The charges left for the ability's id in the owner's ledger; 0 without a player controller and player state. |
| AbilitySystem.GameplayAbility.CanActivateAbility | UnrealEngine/Valorant/Source/Valorant/AbilitySystem/Abilities/BaseGameplayAbility.cpp:49-62 | The engine's tag requirement (no Block.AbilityActivation) holds and at least one charge is left. |
| LifecycleProperties.IdleIsConsistent | UnrealEngine/Valorant/Source/Valorant/AbilitySystem/Abilities/BaseGameplayAbility.cpp:533-564 | An idle ability whose component holds no status tag agrees with its component. |
| LifecycleProperties.EndLeavesNoTags | UnrealEngine/Valorant/Source/Valorant/AbilitySystem/Abilities/BaseGameplayAbility.cpp:533-564 | From any consistent state, ending leaves the ability idle, every status tag it drives at zero, and every other tag as it was. |
| LifecycleProperties.CancelLeavesNoTags | UnrealEngine/Valorant/Source/Valorant/AbilitySystem/Abilities/BaseGameplayAbility.cpp:64-77 | From any consistent state, cancelling leaves the ability idle with every status tag it drives at zero. |
| LifecycleProperties.WaitingKeepsConsistent | UnrealEngine/Valorant/Source/Valorant/AbilitySystem/Abilities/BaseGameplayAbility.cpp:161-195 | Moving from Preparing to Waiting keeps the tags, window and activity in agreement, arms the timeout, and keeps every other tag. |
| LifecycleProperties.MontageCompletionKeepsConsistent | UnrealEngine/Valorant/Source/Valorant/AbilitySystem/Abilities/BaseGameplayAbility.cpp:285-298 | A montage completion keeps the agreement and keeps every other tag. |
| LifecycleProperties.ExecutionKeepsConsistent | UnrealEngine/Valorant/Source/Valorant/AbilitySystem/Abilities/BaseGameplayAbility.cpp:101-109 | Entering Executing keeps the agreement; with an execute montage the ability stays Executing without a timer, without one it ends idle with no status tag. |
| LifecycleProperties.ActivationKeepsConsistent | UnrealEngine/Valorant/Source/Valorant/AbilitySystem/Abilities/BaseGameplayAbility.cpp:79-117 | Activating an inactive, consistent ability keeps the agreement and keeps every other tag. |
| LifecycleProperties.PreparationKeepsConsistent | UnrealEngine/Valorant/Source/Valorant/AbilitySystem/Abilities/BaseGameplayAbility.cpp:111-159 | Entering Preparing, and going on to Waiting without a prepare montage, keeps the agreement. |
| LifecycleProperties.AcceptedFollowUpKeepsConsistent | UnrealEngine/Valorant/Source/Valorant/AbilitySystem/Abilities/BaseGameplayAbility.cpp:344-351 | An accepted follow-up input keeps the agreement; without an execute montage it ends idle with no status tag. |
| LifecycleProperties.FollowUpKeepsConsistent | UnrealEngine/Valorant/Source/Valorant/AbilitySystem/Abilities/BaseGameplayAbility.cpp:309-352 | Any follow-up input in Waiting, whatever its verdict, keeps the agreement and every other tag. |
| LifecycleProperties.StatusQueriesFollowPhase | UnrealEngine/Valorant/Source/Valorant/AbilitySystem/AgentAbilitySystemComponent.cpp:204-224 | With one ability running consistently, on authority the Preparing, Executing and Waiting queries hold exactly in those phases and activation is open exactly when nothing blocks it and the ability is not executing; an input is a valid follow-up exactly while Waiting for one of the class's follow-up inputs. |
| BarrierWall.ClosestLive | UnrealEngine/Valorant/Source/Valorant/AbilitySystem/Abilities/Sage/BarrierWallActor.cpp:238-252 | The search returns a segment index or -1. |
| BarrierWall.ClosestLiveIsNearest | UnrealEngine/Valorant/Source/Valorant/AbilitySystem/Abilities/Sage/BarrierWallActor.cpp:238-252 | The search returns -1 exactly when every segment is destroyed, and otherwise the first live segment at least as near as every other live one. |
| BarrierWall.ClosestLiveUnique | UnrealEngine/Valorant/Source/Valorant/AbilitySystem/Abilities/Sage/BarrierWallActor.cpp:238-252 | Only one segment meets that description. |
| BarrierWall.SegmentsAfterDestroy | UnrealEngine/Valorant/Source/Valorant/AbilitySystem/Abilities/Sage/BarrierWallActor.cpp:291-296 | Destroying segment i marks exactly i destroyed when it is in range and leaves every other flag as it was. |
| BarrierWall.DestroySegmentIdempotent | UnrealEngine/Valorant/Source/Valorant/AbilitySystem/Abilities/Sage/BarrierWallActor.cpp:293-294 | Destroying the same segment twice is the same as destroying it once. |
| BarrierWall.DamageHitsOneLiveSegment | UnrealEngine/Valorant/Source/Valorant/AbilitySystem/Abilities/Sage/BarrierWallActor.cpp:241-256 | Damage changes the health of at most one segment, never a destroyed one, and none when all are destroyed. |
| BarrierWall.BuildStep | UnrealEngine/Valorant/Source/Valorant/AbilitySystem/Abilities/Sage/BarrierWallActor.cpp:123 | The build progress never exceeds 1. |
| BarrierWall.BuildStepRises | UnrealEngine/Valorant/Source/Valorant/AbilitySystem/Abilities/Sage/BarrierWallActor.cpp:117-141 | Each tick the build progress rises monotonically up to 1, and a zero build time completes it at once. |
| BarrierWall.BarrierWallActor.constructor | UnrealEngine/Valorant/Source/Valorant/AbilitySystem/Abilities/Sage/BarrierWallActor.cpp:60-115 | A wall starts with three segments at the default health, none destroyed; a real wall starts building from 0, a preview is complete at once. |
| BarrierWall.BarrierWallActor.InitializeBarrier | UnrealEngine/Valorant/Source/Valorant/AbilitySystem/Abilities/Sage/BarrierWallActor.cpp:143-161 | Every segment's health becomes the given health, the defaults are stored, and the lifespan timer is armed when the lifespan is positive and the wall is no preview. |
| BarrierWall.BarrierWallActor.SetPreviewMode | UnrealEngine/Valorant/Source/Valorant/AbilitySystem/Abilities/Sage/BarrierWallActor.cpp:163-174 | Entering preview stops the build at full progress; leaving it changes nothing else. |
| BarrierWall.BarrierWallActor.Tick | UnrealEngine/Valorant/Source/Valorant/AbilitySystem/Abilities/Sage/BarrierWallActor.cpp:117-141 | While building outside preview the progress takes one step and building stops exactly when it reaches 1; otherwise nothing changes. |
| BarrierWall.BarrierWallActor.FindClosestSegment | UnrealEngine/Valorant/Source/Valorant/AbilitySystem/Abilities/Sage/BarrierWallActor.cpp:238-252 | The loop over the segment array finds the nearest live segment, or -1 exactly when all are destroyed. |
| BarrierWall.BarrierWallActor.AllSegmentsDestroyed | UnrealEngine/Valorant/Source/Valorant/AbilitySystem/Abilities/Sage/BarrierWallActor.cpp:328-336 | The loop reports true exactly when every segment is destroyed. |
| BarrierWall.BarrierWallActor.DestroyBarrier | UnrealEngine/Valorant/Source/Valorant/AbilitySystem/Abilities/Sage/BarrierWallActor.cpp:344-350 | Destroying the wall clears its lifespan timer and destroys the actor. |
| BarrierWall.BarrierWallActor.DestroySegment | UnrealEngine/Valorant/Source/Valorant/AbilitySystem/Abilities/Sage/BarrierWallActor.cpp:291-342 | The segment is marked destroyed; the wall is destroyed and its timer cleared exactly when this call destroyed the last live segment. |
| BarrierWall.BarrierWallActor.TakeDamage | UnrealEngine/Valorant/Source/Valorant/AbilitySystem/Abilities/Sage/BarrierWallActor.cpp:230-289 | A building or preview wall takes nothing; otherwise the full amount is reported, only the nearest live segment loses health, and it is destroyed when its health reaches 0. |
| BlazeWall.PiecesJoinPoints | UnrealEngine/Valorant/Source/Valorant/AbilitySystem/Abilities/Phoenix/Phoenix_C_BlazeSplineWall.cpp:119-208 | The rebuilt wall has one piece per pair of consecutive spline points, none below two points, and the pieces join end to start in order. |
| BlazeWall.SweepStep | UnrealEngine/Valorant/Source/Valorant/AbilitySystem/Abilities/Phoenix/Phoenix_C_BlazeSplineWall.cpp:265-293 | Each agent handled by the pass over the copy is dropped from the set when invalid and flashed otherwise. |
| BlazeWall.SweepDone | UnrealEngine/Valorant/Source/Valorant/AbilitySystem/Abilities/Phoenix/Phoenix_C_BlazeSplineWall.cpp:265-293 | After the pass the set holds exactly its valid agents, and those are the ones flashed. |
| BlazeWall.AllyRule | UnrealEngine/Valorant/Source/Valorant/AbilitySystem/Abilities/Phoenix/Phoenix_C_BlazeSplineWall.cpp:296-317 | Between two agents, ally means the same team; with positive rates an agent's change per tick is positive exactly when it is on Phoenix's team. |
| BlazeWall.NonAgentsAreNotAllies | UnrealEngine/Valorant/Source/Valorant/AbilitySystem/Abilities/Phoenix/Phoenix_C_BlazeSplineWall.cpp:298-316 | A non-agent that is not Phoenix is never an ally, and without an instigator nobody is. |
| BlazeWall.DefaultTickValues | UnrealEngine/Valorant/Source/Valorant/AbilitySystem/Abilities/Phoenix/Phoenix_C_BlazeSplineWall.cpp:332-336 | With the default rates the per-tick values are 7.5 damage and 3.125 heal. |
| BlazeWall.BlazeSplineWall.constructor | UnrealEngine/Valorant/Source/Valorant/AbilitySystem/Abilities/Phoenix/Phoenix_C_BlazeSplineWall.cpp:11-32 | The spline starts with the spline component's two default points, which are never cleared; the per-tick values are the per-second rates times the interval; nothing is spawned, overlapped or armed yet. |
| BlazeWall.BlazeSplineWall.BeginPlay | UnrealEngine/Valorant/Source/Valorant/AbilitySystem/Abilities/Phoenix/Phoenix_C_BlazeSplineWall.cpp:39-49 | The server arms the duration timer. |
| BlazeWall.BlazeSplineWall.EndPlay | UnrealEngine/Valorant/Source/Valorant/AbilitySystem/Abilities/Phoenix/Phoenix_C_BlazeSplineWall.cpp:51-61 | Both timers are cleared. |
| BlazeWall.BlazeSplineWall.UpdateSplineMesh | UnrealEngine/Valorant/Source/Valorant/AbilitySystem/Abilities/Phoenix/Phoenix_C_BlazeSplineWall.cpp:119-208 | The meshes are one piece per pair of consecutive points, and the collision boxes the same pieces on the server only. |
| BlazeWall.BlazeSplineWall.MulticastAddSplinePoint | UnrealEngine/Valorant/Source/Valorant/AbilitySystem/Abilities/Phoenix/Phoenix_C_BlazeSplineWall.cpp:77-86 | Clients append the point, the server does not append it twice, and both rebuild the wall. |
| BlazeWall.BlazeSplineWall.AddSplinePoint | UnrealEngine/Valorant/Source/Valorant/AbilitySystem/Abilities/Phoenix/Phoenix_C_BlazeSplineWall.cpp:63-75 | Only the server adds a point, once, and rebuilds; clients change nothing. |
| BlazeWall.BlazeSplineWall.MulticastFinalizeWall | UnrealEngine/Valorant/Source/Valorant/AbilitySystem/Abilities/Phoenix/Phoenix_C_BlazeSplineWall.cpp:99-117 | The wall is rebuilt and the server binds the overlap events. |
| BlazeWall.BlazeSplineWall.FinalizeWall | UnrealEngine/Valorant/Source/Valorant/AbilitySystem/Abilities/Phoenix/Phoenix_C_BlazeSplineWall.cpp:88-97 | Only the server finalizes; clients change nothing. |
| BlazeWall.BlazeSplineWall.ApplyGameEffect | UnrealEngine/Valorant/Source/Valorant/AbilitySystem/Abilities/Phoenix/Phoenix_C_BlazeSplineWall.cpp:258-294 | On the server the invalid agents leave the set, exactly the valid ones are flashed, Phoenix and allies are healed and everyone else damaged by one tick; elsewhere nothing happens. |
| BlazeWall.BlazeSplineWall.OnBeginOverlap | UnrealEngine/Valorant/Source/Valorant/AbilitySystem/Abilities/Phoenix/Phoenix_C_BlazeSplineWall.cpp:210-237 | A new agent joins the set on the server; the first one starts the repeating timer and one effect tick at once. |
| BlazeWall.BlazeSplineWall.OnEndOverlap | UnrealEngine/Valorant/Source/Valorant/AbilitySystem/Abilities/Phoenix/Phoenix_C_BlazeSplineWall.cpp:239-256 | A leaving agent is removed on the server, and the effect timer stops exactly when nobody is left. |
| BlazeWall.BlazeSplineWall.OnElapsedDuration | UnrealEngine/Valorant/Source/Valorant/AbilitySystem/Abilities/Phoenix/Phoenix_C_BlazeSplineWall.cpp:319-330 | On the server both timers stop and the wall's short lifespan is set; clients change nothing. |
| BlazeWall.LaidPointsFollowDefaults | UnrealEngine/Valorant/Source/Valorant/AbilitySystem/Abilities/Phoenix/Phoenix_C_BlazeSplineWall.cpp:63-86 | Points added on the server and multicast land after the spline's two default points, so n added points rebuild into n + 1 pieces, the first joining the default points and the second running from the last default point to the first added one. |
| BlazeWall.IsPhoenixOrAlly | UnrealEngine/Valorant/Source/Valorant/AbilitySystem/Abilities/Phoenix/Phoenix_C_BlazeSplineWall.cpp:296-317 | No actor is never an ally, the instigator always is, and otherwise two agents are allies exactly when they are on the same team. |
| BlazeProjectile.StopHalts | UnrealEngine/Valorant/Source/Valorant/AbilitySystem/Abilities/Phoenix/Phoenix_C_BlazeProjectile.cpp:184-193 | Stopping zeroes the velocity, clears the spawn timer and destroys the projectile, keeping the laid wall, the distance and the curve. |
| BlazeProjectile.SpawnRespectsCap | UnrealEngine/Valorant/Source/Valorant/AbilitySystem/Abilities/Phoenix/Phoenix_C_BlazeProjectile.cpp:78-148 | A segment is added only with a segment class, below 40 segments and when the spawn succeeds, at the ground point when there is one; the projectile is stopped afterwards exactly when it already was, at the cap, without a class, or when the new segment finds the wall at its full length. |
| BlazeProjectile.BeginPlayReArmsTimer | UnrealEngine/Valorant/Source/Valorant/AbilitySystem/Abilities/Phoenix/Phoenix_C_BlazeProjectile.cpp:27-40 | Without a segment class BeginPlay stops the projectile and then still arms the spawn timer. |
| BlazeProjectile.CurveStaysClamped | UnrealEngine/Valorant/Source/Valorant/AbilitySystem/Abilities/Phoenix/Phoenix_C_BlazeProjectile.cpp:150-176 | The curve angle stays in [0, 90], grows by rate times time when that stays in range, never shrinks for a non-negative step, and leaves the speed alone. |
| BlazeProjectile.TickMeasuresDistance | UnrealEngine/Valorant/Source/Valorant/AbilitySystem/Abilities/Phoenix/Phoenix_C_BlazeProjectile.cpp:42-65 | Distance grows by speed times time once a spawn location has been recorded; a live projectile stays live exactly while under 2000 units and 40 segments; the wall is untouched. |
| BlazeProjectile.StoppedCoversNoDistance | UnrealEngine/Valorant/Source/Valorant/AbilitySystem/Abilities/Phoenix/Phoenix_C_BlazeProjectile.cpp:42-65 | A stopped projectile covers no more distance and stays destroyed. |
| BlazeProjectile.MovementSpeeds | UnrealEngine/Valorant/Source/Valorant/AbilitySystem/Abilities/Phoenix/Phoenix_C_BlazeProjectile.cpp:67-76 | Setting the movement type sets both speeds to that type's speed: 1500 when straight, 1200 when curved. |
| BlazeProjectile.Projectile.constructor | UnrealEngine/Valorant/Source/Valorant/AbilitySystem/Abilities/Phoenix/Phoenix_C_BlazeProjectile.cpp:8-25 | A new projectile is straight at 1500 with no wall, no distance, no curve and no timer. |
| BlazeProjectile.Projectile.StopProjectile | UnrealEngine/Valorant/Source/Valorant/AbilitySystem/Abilities/Phoenix/Phoenix_C_BlazeProjectile.cpp:184-193 | The projectile state becomes the stopped state (StopHalts). |
| BlazeProjectile.Projectile.SetMovementType | UnrealEngine/Valorant/Source/Valorant/AbilitySystem/Abilities/Phoenix/Phoenix_C_BlazeProjectile.cpp:67-76 | The movement type and speeds follow MovementSpeeds. |
| BlazeProjectile.Projectile.SpawnWallSegment | UnrealEngine/Valorant/Source/Valorant/AbilitySystem/Abilities/Phoenix/Phoenix_C_BlazeProjectile.cpp:78-148 | One spawn step as SpawnRespectsCap states, keeping the segment count equal to the wall's length and at most 40. |
| BlazeProjectile.Projectile.BeginPlay | UnrealEngine/Valorant/Source/Valorant/AbilitySystem/Abilities/Phoenix/Phoenix_C_BlazeProjectile.cpp:27-40 | The start point is recorded, the first segment spawned, and the spawn timer armed. |
| BlazeProjectile.Projectile.ApplyCurveMovement | UnrealEngine/Valorant/Source/Valorant/AbilitySystem/Abilities/Phoenix/Phoenix_C_BlazeProjectile.cpp:150-176 | The curve angle advances as CurveStaysClamped states. |
| BlazeProjectile.Projectile.Tick | UnrealEngine/Valorant/Source/Valorant/AbilitySystem/Abilities/Phoenix/Phoenix_C_BlazeProjectile.cpp:42-65 | One tick curves, measures and stops as TickMeasuresDistance states. |
| BlazeProjectile.Projectile.OnProjectileBounced | UnrealEngine/Valorant/Source/Valorant/AbilitySystem/Abilities/Phoenix/Phoenix_C_BlazeProjectile.cpp:178-182 | A bounce stops the projectile. |
| Minimap.ProjectIsInvertible | UnrealEngine/Valorant/Source/Valorant/Player/Widget/MiniMapWidget.cpp:184-195 | The world-to-minimap projection loses nothing (it has an inverse) and maps the world square onto the 450-unit minimap, edge to edge. |
| Minimap.ProjectKeepsOrder | UnrealEngine/Valorant/Source/Valorant/Player/Widget/MiniMapWidget.cpp:184-195 | The projection keeps order along world Y and reverses it along world X. |
| Minimap.AddedKeepsNoDup | UnrealEngine/Valorant/Source/Valorant/Player/Widget/MiniMapWidget.cpp:92-151 | Adding an agent keeps the tracked list duplicate-free, keeps the earlier entries and adds the agent exactly when it is valid. |
| Minimap.ScanTracksEveryValidAgent | UnrealEngine/Valorant/Source/Valorant/Player/Widget/MiniMapWidget.cpp:73-89 | After a scan the tracked list is duplicate-free, extends the old one, and holds exactly the old agents plus the valid found ones. |
| Minimap.WithoutRemovesOnlyTheAgent | UnrealEngine/Valorant/Source/Valorant/Player/Widget/MiniMapWidget.cpp:154-170 | Removal takes out every occurrence of the agent and nothing else, and keeps the list duplicate-free. |
| Minimap.TeamOfIsTheTeammates | UnrealEngine/Valorant/Source/Valorant/Player/Widget/MiniMapWidget.cpp:204-212 | The team list holds exactly the tracked agents that are the observer's teammates. |
| Minimap.VisibilityRule | UnrealEngine/Valorant/Source/Valorant/Player/Widget/MiniMapWidget.cpp:215-264 | An icon is shown exactly for a live agent that is the observer, a teammate, or seen by the observer or a teammate; it shows an icon image only then and only with one; its category is self, team or enemy. |
| Minimap.CreatedVisibilityRule | UnrealEngine/Valorant/Source/Valorant/Player/Widget/MiniMapWidget.cpp:92-151 | A new icon is shown exactly for a live agent that is the observer, a teammate or in view; it is placed by the projection when the observer is valid and at the centre otherwise. |
| Minimap.UpdateCallsCoverValidAgents | UnrealEngine/Valorant/Source/Valorant/Player/Widget/MiniMapWidget.cpp:198-265 | The update emits one call per valid tracked agent, each the agent's own update, and nothing for invalid ones. |
| Minimap.MiniMapWidget.constructor | UnrealEngine/Valorant/Source/Valorant/Player/Widget/MiniMapWidget.cpp:16-57 | A new widget tracks nobody, has no observer, no icons and no armed timer. |
| Minimap.MiniMapWidget.AddAgentToMinimap | UnrealEngine/Valorant/Source/Valorant/Player/Widget/MiniMapWidget.cpp:92-151 | The agent is tracked as AddedKeepsNoDup states and its icon is created once, when it is new and valid. |
| Minimap.MiniMapWidget.ScanForAgents | UnrealEngine/Valorant/Source/Valorant/Player/Widget/MiniMapWidget.cpp:73-89 | The loop over found agents tracks them as ScanTracksEveryValidAgent states and emits their create calls in order. |
| Minimap.MiniMapWidget.RemoveAgentFromMinimap | UnrealEngine/Valorant/Source/Valorant/Player/Widget/MiniMapWidget.cpp:154-170 | A valid agent is untracked and its icon widget dropped; an invalid one changes nothing. |
| Minimap.MiniMapWidget.SetMinimapScale | UnrealEngine/Valorant/Source/Valorant/Player/Widget/MiniMapWidget.cpp:174-180 | Only a positive scale is taken, so the scale stays positive. |
| Minimap.MiniMapWidget.UpdateAgentIcons | UnrealEngine/Valorant/Source/Valorant/Player/Widget/MiniMapWidget.cpp:198-265 | Without a valid observer nothing is emitted; otherwise one update per valid tracked agent, as UpdateCallsCoverValidAgents states. |
| Minimap.MiniMapWidget.UpdateOne | UnrealEngine/Valorant/Source/Valorant/Player/Widget/MiniMapWidget.cpp:215-264 | The icon update for one agent, whose loop over the team looks for a sighting, is the one VisibilityRule describes. |
| Minimap.MiniMapWidget.Scan | UnrealEngine/Valorant/Source/Valorant/Player/Widget/MiniMapWidget.cpp:59-63 | A scan tracks the found agents and then updates every icon. |
| Minimap.MiniMapWidget.NativeConstruct | UnrealEngine/Valorant/Source/Valorant/Player/Widget/MiniMapWidget.cpp:16-57 | Construction sets the observer from the owning player's pawn cast to an agent (none when the pawn is not an agent; unchanged without a controller or pawn), scans once and arms the repeating scan timer. |
| Minimap.MiniMapWidget.WorldToMinimapPosition | UnrealEngine/Valorant/Source/Valorant/Player/Widget/MiniMapWidget.cpp:184-195 | Without a valid observer the minimap centre; otherwise a point the inverse map takes back to the world's X and Y, inside the 450-unit minimap whenever the world point is inside the mapped square. |
| FlashWidget.IntensityIsClamped | UnrealEngine/Valorant/Source/Valorant/UI/FlashWidget.cpp:58-66 | The stored intensity is clamped to [0, 1] and equals the input when the input is in range; the overlay shows it in the current colour. |
| FlashWidget.PinsOnlyOnRisingEdge | UnrealEngine/Valorant/Source/Valorant/UI/FlashWidget.cpp:72-112 | The radial image is pinned exactly on a rise through 0.01 from a non-zero location, at that location's centred screen point; once pinned it stays put; at or below 0.01 it is unpinned. |
| FlashWidget.RadialOpacityRule | UnrealEngine/Valorant/Source/Valorant/UI/FlashWidget.cpp:82-104 | A pinned radial image shows min(1.2 times intensity, 1), an unpinned one the intensity at the centre; either way at least the intensity and at most 1. |
| FlashWidget.StartAndStopUnpin | UnrealEngine/Valorant/Source/Valorant/UI/FlashWidget.cpp:116-145 | Starting shows the widget with the chosen type and unpinned; stopping collapses it, unpins it and zeroes both opacities. |
| FlashWidget.TypeSelectsColorAndTexture | UnrealEngine/Valorant/Source/Valorant/UI/FlashWidget.cpp:147-211 | Each flash type takes its own colour and, when set, its own texture, falling back to the default texture; a missing texture leaves the image alone. |
| FlashWidget.ScreenPositionIsCentred | UnrealEngine/Valorant/Source/Valorant/UI/FlashWidget.cpp:163-185 | The screen point is the projected point moved so the viewport centre is the origin, and zero when projection fails. |
| FlashWidget.FlashOverlay.constructor | UnrealEngine/Valorant/Source/Valorant/UI/FlashWidget.cpp:8-53 | The widget's starting values: zero intensity, transparent white images, unpinned, the Default type and its colour, and the class's starting visibility as given (the header that sets them is not part of this model). |
| FlashWidget.FlashOverlay.NativeConstruct | UnrealEngine/Valorant/Source/Valorant/UI/FlashWidget.cpp:8-53 | Construction makes both images transparent and white, puts the radial image on the default texture when there is one, and selects the Default type. |
| FlashWidget.FlashOverlay.UpdateFlashIntensity | UnrealEngine/Valorant/Source/Valorant/UI/FlashWidget.cpp:55-114 | One intensity update as IntensityIsClamped, PinsOnlyOnRisingEdge and RadialOpacityRule state. |
| FlashWidget.FlashOverlay.SetFlashType | UnrealEngine/Valorant/Source/Valorant/UI/FlashWidget.cpp:147-161 | The flash type, colour and texture follow TypeSelectsColorAndTexture. |
| FlashWidget.FlashOverlay.StartFlashEffect | UnrealEngine/Valorant/Source/Valorant/UI/FlashWidget.cpp:116-126 | The widget is shown with the given type and unpinned. |
| FlashWidget.FlashOverlay.StopFlashEffect | UnrealEngine/Valorant/Source/Valorant/UI/FlashWidget.cpp:128-145 | The widget is collapsed, unpinned and cleared. |
| FlashWidget.ColorFor | UnrealEngine/Valorant/Source/Valorant/UI/FlashWidget.cpp:187-198 | Phoenix and KAY/O flashes take their own colour; every other flash takes the default colour. |
| FlashWidget.TextureFor | UnrealEngine/Valorant/Source/Valorant/UI/FlashWidget.cpp:200-211 | A flash type's radial texture is missing only when the default texture is missing too, since a missing type texture falls back to the default. |
| FlashWidget.ScreenPosition | UnrealEngine/Valorant/Source/Valorant/UI/FlashWidget.cpp:163-185 | The projected point relative to the viewport centre, or the centre itself when there is no controller or the projection fails (properties in ScreenPositionIsCentred). |

## Left out

- Animation and presentation are left out: montages played or stopped, Niagara effects, sounds, materials, light colours, the minimap background and icon brushes, and the canvas slot sizes and anchors.
  Montage completion and blend-out are event methods; whether an asset has a prepare, waiting or execute montage is an asset flag.
- Replication transport is left out: server and client RPCs, multicasts, `DOREPLIFETIME`, and the timing of replicated phase changes.
  The network role is a boolean. The mirror handlers (`OnRepCurrentPhase`, `NotifyAbilityStateChanged`) are methods that apply the replicated change.
- Engine world queries are inputs of type `World` (or of the module's own `World`): line and overlap traces, placement validity, spawn success, health, the owner's team, frustum and sightings.
  Vector maths on locations is left out: spawn locations, barrier placement, the closest-segment distance, the curve rotation and its trigonometry, segment box and mesh resizing, and projectile velocity except its speed.
- Engine floats are Dafny `real`s with no rounding. `FLT_MAX`, used as the starting closest distance, is an absent distance.
- The engine's ability-spec machinery is left out: spec handles, `GiveAbility`, and activation checks beyond the tag requirement and the charge.
  Activation by tag is modelled as trying each granted ability that carries the tag.
- The player state (`AAgentPlayerState`) is not part of this model. Its charge ledger is a map from ability id to a natural number; a missing id, or a missing player state, holds no charge.
- Functions the headers declare without a body (`ForceCleanupAllAbilities`, `TryActivateAbilityByTag`, `IsAbilityActive`, `MulticastRPC_OnAbilityExecuted`) are not modelled.
- Blueprint overrides of native events are not part of this model.
  The minimap's `CreateAgentIcon` and `UpdateAgentIcon` Blueprint events are modelled as the `IconCall` values the widget emits.
- `MiniMapWidget.h` and `FlashWidget.h` are not part of this model.
  The minimap's centre and map scale are constructor parameters. The flash widget's initial colour, textures and visibility are the class defaults, taken as constructor parameters.
- `NativeTick` of the minimap only logs, and logging is left out everywhere.
- `AbilitySystem.GameplayAbility.HandleExecutePhase`: the early return when an execute montage exists but the avatar is not an agent is not modelled; the avatar is always an agent.
- `AbilitySystem.GameplayAbility.HandleWaitingPhase`: the early return when a waiting montage exists but the avatar is not an agent is not modelled either.
- `AbilitySystem.GameplayAbility.CancelAbility`: modelled as written. The phase is cleared before the engine's cancel check, so `bAllowCancelDuringExecution` never prevents the end. `CanBeCanceled` still states the intended rule.
- `AbilitySystem.GameplayAbility.ReleaseEquipment`: modelled as written. The agent switches to the ability interactor, not to the saved equipment, and the saved value is only forgotten.
- `AbilitySystem.AbilitySystemComponent.SetAgentAbility`: requires the ability id to be in the ability table, because the source reads the table row without checking it.
- `AbilitySystem.AbilitySystemComponent.HandleGameplayEvent`: the contract states only that an event outside an open window changes nothing. What the receiving ability then does is stated by `GameplayAbility.HandleFollowUpInput`.
- `AbilitySystem.AbilitySystemComponent.TryActivateAbilitiesByTag`: the contract states when activation succeeds, but not which of the abilities carrying the tag activated, nor the activated ability's new state.
- `AbilitySystem.AbilitySystemComponent.TrySkillInput`: the contract has the same limit when it activates an ability.
  As in the source, a second skill input while another ability is Preparing is not refused by the component.
- An ability whose follow-up kind is None but whose activation is WithPrepare registers no inputs, so every follow-up input is dropped until the timeout cancels it. This is modelled as written.
- The cleanup multicast only clears tags and the window; it does not end the ability. This is modelled as written.
- Sage C's barrier yaw is kept in whole degrees. The step of 15 degrees and the source's wrap into [0, 360) are exact on that grid.
- `BlazeWall.BlazeSplineWall.ApplyGameEffect`: the returned effects are a map from agent to health change, so the order of the calls is not kept. `AdjustFlashEffectDirect` is reported as the set of agents flashed. Emptying the overlap set here does not stop the damage timer, as in the source.
- `BlazeWall.BlazeSplineWall.constructor`: the spline component's two default points, (0,0,0) and (100,0,0), are kept in the component's own frame; the actor's spawn transform that places them in the world is not modelled. Because they are never cleared, n laid-down points give n + 1 wall pieces.
- The Blaze spline wall's per-tick header defaults are overwritten by `CalculateTickValues` at construction. The model starts from the computed values.
- `BlazeProjectile.Projectile.BeginPlay` re-arms the spawn timer even after a stop, as in the source.
- The flash widget's `UpdateRadialImagePosition` assumes the owning player controller exists; the null-controller return is not modelled.
  The `Duration` parameter of `StartFlashEffect` is unused by the source and is left out.
- Phoenix's curving projectile, the healing and barrier orb actors' pulses, the incendiary ground and the slow orb actor are outside the core and are not modelled.
- `AbilitySystem.FirstSkillTag` and `AbilitySystem.LastSkillTag` recognise only the four slot tags Input.Skill.C, E, Q and X. The engine's `MatchesTag(Input.Skill)` is hierarchical and would also accept any other tag below Input.Skill; the model's ability configurations carry no such tag.
- `AbilitySystem.AbilitySystemComponent.ResetAgentAbilities` empties the spec list outright. The engine's `ClearAbility` is not part of this model. In the engine it refuses without authority, ends an ability that is still active (releasing its status tags and window), and removes the spec from the array the loop walks. The model keeps neither the refusal nor the end, so an active ability's status tags and window survive a reset.
- Activation-owned tags are left out: Phoenix E adds Input.Skill.E to `ActivationOwnedTags`, which the engine holds as a loose tag while the ability is active. No modelled query reads that tag.
