/**
 * The minimap widget: the agents it tracks (each at most once), the icon
 * requests it sends to its Blueprint half when an agent is added and on each
 * scan, the rule that decides whether an agent's icon is shown, and the map
 * from world coordinates onto the 450 by 450 minimap.
 *
 * Agents are ids; the world is a snapshot mapping each id to what the widget
 * reads from that agent. An id the snapshot lacks reads as an invalid agent.
 * Who sees whom, the observer's view frustum and the list of agents in the
 * level are parameters.
 */
module Minimap {
  import opened Wrappers
  import opened Geometry

  /** What the widget reads from an agent: IsValid, IsAttacker, IsDead, its location, and whether it has a minimap icon. */
  datatype AgentInfo = AgentInfo(valid: bool, attacker: bool, dead: bool, location: Vec3, hasIcon: bool)

  type World = map<nat, AgentInfo>

  datatype Visibility = Visible | Hidden

  /**
   * One call of the Blueprint's CreateAgentIcon or UpdateAgentIcon: the agent,
   * its minimap position, whether an icon texture is passed, its visibility
   * state and its category (0 self, 1 teammate, 2 enemy).
   */
  datatype IconCall = IconCall(agent: nat, position: Vec2, icon: bool, state: Visibility, category: int)

  /** The half-extent of the world the minimap covers, and the minimap's side, in its own units. */
  const WorldHalfExtent: real := 10000.0
  const MinimapSize: real := 450.0

  /** The agent behind an id: an absent id is an invalid agent. */
  function Look(world: World, id: nat): AgentInfo
  {
    if id in world then world[id] else AgentInfo(false, false, false, Zero3, false)
  }

  predicate NoDup(s: seq<nat>)
  {
    forall i, j :: 0 <= i < j < |s| ==> s[i] != s[j]
  }

  /** The affine map onto the minimap: world Y runs left to right, world X bottom to top. */
  function Project(loc: Vec3): Vec2
  {
    Vec2((loc.y + WorldHalfExtent) / (2.0 * WorldHalfExtent) * MinimapSize,
         (WorldHalfExtent - loc.x) / (2.0 * WorldHalfExtent) * MinimapSize)
  }

  /** Back from minimap coordinates to the world's X and Y. */
  function Unproject(p: Vec2): (real, real)
  {
    (WorldHalfExtent - p.y / MinimapSize * (2.0 * WorldHalfExtent), p.x / MinimapSize * (2.0 * WorldHalfExtent) - WorldHalfExtent)
  }

  /**
   * The map loses nothing of X and Y; it takes the square [-10000, 10000]^2
   * onto [0, 450]^2, sending Y = -10000 to the left edge and X = 10000 to the
   * top; and it keeps order along Y and reverses it along X.
   */
  lemma ProjectIsInvertible(loc: Vec3)
    ensures Unproject(Project(loc)) == (loc.x, loc.y)
    ensures -WorldHalfExtent <= loc.y <= WorldHalfExtent ==> 0.0 <= Project(loc).x <= MinimapSize
    ensures -WorldHalfExtent <= loc.x <= WorldHalfExtent ==> 0.0 <= Project(loc).y <= MinimapSize
    ensures loc.y == -WorldHalfExtent ==> Project(loc).x == 0.0
    ensures loc.x == WorldHalfExtent ==> Project(loc).y == 0.0
  {
  }

  /** Project is monotone: further along world Y is further right, further along world X is higher up (smaller Y). */
  lemma ProjectKeepsOrder(a: Vec3, b: Vec3)
    ensures a.y <= b.y <==> Project(a).x <= Project(b).x
    ensures a.x <= b.x <==> Project(a).y >= Project(b).y
  {
  }

  /** The icon category: 0 for the observer itself, 1 for a teammate, 2 for an enemy. */
  function Category(me: bool, sameTeam: bool): int
  {
    if me then 0 else if sameTeam then 1 else 2
  }

  /** AddAgentToMinimap's bookkeeping: a valid agent not yet tracked joins the end of the list. */
  function Added(mapped: seq<nat>, a: nat, world: World): seq<nat>
  {
    if Look(world, a).valid && a !in mapped then mapped + [a] else mapped
  }

  /**
   * The icon AddAgentToMinimap creates for a new agent, with the observer
   * `obs` set: shown, with its icon texture, when alive and the observer
   * itself, a teammate or inside the observer's view frustum.
   */
  function CreatedIcon(a: nat, world: World, obs: nat, frustum: set<nat>, center: Vec2): IconCall
  {
    var info := Look(world, a);
    var me := obs == a;
    var sameTeam := Look(world, obs).attacker == info.attacker;
    var shown := (me || sameTeam || a in frustum) && !info.dead;
    var position := if Look(world, obs).valid then Project(info.location) else center;
    IconCall(a, position, shown && info.hasIcon, if shown then Visible else Hidden, Category(me, sameTeam))
  }

  /** The icon request AddAgentToMinimap makes, if any: only for a new agent and with an observer set. */
  function AddCall(mapped: seq<nat>, a: nat, world: World, observer: Option<nat>, frustum: set<nat>, center: Vec2): Option<IconCall>
  {
    if Look(world, a).valid && a !in mapped && observer.Some? then Some(CreatedIcon(a, world, observer.value, frustum, center))
    else None
  }

  /** ScanForAgents' list: every valid agent found and not yet tracked is added, in the order found. */
  function Scanned(mapped: seq<nat>, found: seq<nat>, world: World): seq<nat>
  {
    if |found| == 0 then mapped
    else Added(Scanned(mapped, found[..|found| - 1], world), found[|found| - 1], world)
  }

  /** ScanForAgents' icon requests, one per agent it adds while an observer is set. */
  function ScanCalls(mapped: seq<nat>, found: seq<nat>, world: World, observer: Option<nat>, frustum: set<nat>,
                     center: Vec2): seq<IconCall>
  {
    if |found| == 0 then []
    else
      var before := found[..|found| - 1];
      var call := AddCall(Scanned(mapped, before, world), found[|found| - 1], world, observer, frustum, center);
      ScanCalls(mapped, before, world, observer, frustum, center) + (if call.Some? then [call.value] else [])
  }

  /** Adding keeps the list free of duplicates, keeps what was there, and tracks the agent afterwards if it is valid. */
  lemma AddedKeepsNoDup(mapped: seq<nat>, a: nat, world: World)
    requires NoDup(mapped)
    ensures var m := Added(mapped, a, world);
      && NoDup(m) && mapped <= m
      && (forall x :: x in m <==> x in mapped || (x == a && Look(world, a).valid))
  {
  }

  /**
   * A scan keeps the list free of duplicates and keeps its old entries first;
   * afterwards it tracks exactly the old agents and the valid agents found.
   */
  lemma {:induction false} ScanTracksEveryValidAgent(mapped: seq<nat>, found: seq<nat>, world: World)
    requires NoDup(mapped)
    ensures var m := Scanned(mapped, found, world);
      && NoDup(m) && mapped <= m
      && (forall x :: x in m <==> x in mapped || (x in found && Look(world, x).valid))
  {
    if |found| > 0 {
      var before := found[..|found| - 1];
      ScanTracksEveryValidAgent(mapped, before, world);
      AddedKeepsNoDup(Scanned(mapped, before, world), found[|found| - 1], world);
      assert found == before + [found[|found| - 1]];
    }
  }

  /** RemoveAgentFromMinimap's list: TArray::Remove drops every occurrence of the agent and keeps the rest in order. */
  function Without(mapped: seq<nat>, a: nat): seq<nat>
  {
    if |mapped| == 0 then []
    else Without(mapped[..|mapped| - 1], a) + (if mapped[|mapped| - 1] == a then [] else [mapped[|mapped| - 1]])
  }

  /** Removal leaves the agent untracked and every other agent tracked, without duplicates. */
  lemma {:induction false} WithoutRemovesOnlyTheAgent(mapped: seq<nat>, a: nat)
    ensures var m := Without(mapped, a);
      && a !in m && (forall x :: x in m <==> x in mapped && x != a)
      && (NoDup(mapped) ==> NoDup(m))
      && |m| <= |mapped|
  {
    if |mapped| > 0 {
      var before, last := mapped[..|mapped| - 1], mapped[|mapped| - 1];
      WithoutRemovesOnlyTheAgent(before, a);
      assert mapped == before + [last];
      if NoDup(mapped) {
        assert NoDup(before);
        assert last !in before;
      }
    }
  }

  /** A teammate whose sight counts for the observer: valid, not the observer, alive and on the observer's side. */
  predicate IsTeammate(world: World, obs: nat, t: nat)
  {
    Look(world, t).valid && t != obs && !Look(world, t).dead && Look(world, t).attacker == Look(world, obs).attacker
  }

  /** UpdateAgentIcons' cached TeamAgents: the teammates among the tracked agents, in order. */
  function TeamOf(agents: seq<nat>, world: World, obs: nat): seq<nat>
  {
    if |agents| == 0 then []
    else
      var t := agents[|agents| - 1];
      TeamOf(agents[..|agents| - 1], world, obs) + (if IsTeammate(world, obs, t) then [t] else [])
  }

  lemma {:induction false} TeamOfIsTheTeammates(agents: seq<nat>, world: World, obs: nat)
    ensures forall t :: t in TeamOf(agents, world, obs) <==> t in agents && IsTeammate(world, obs, t)
  {
    if |agents| > 0 {
      TeamOfIsTheTeammates(agents[..|agents| - 1], world, obs);
      assert agents == agents[..|agents| - 1] + [agents[|agents| - 1]];
    }
  }

  /** Some agent in `team` sees `a` (its visibility state for that agent is Visible); `sightings` holds (seen, seer) pairs. */
  predicate SeenByAny(a: nat, team: seq<nat>, sightings: set<(nat, nat)>)
  {
    exists t :: t in team && (a, t) in sightings
  }

  /**
   * The icon UpdateAgentIcons sends for a valid tracked agent `a`, with the
   * observer `obs` valid and `team` its cached teammates: shown, with its
   * icon texture, when alive and the observer itself or a teammate, or seen
   * by the observer or by one of the teammates.
   */
  function UpdatedIcon(a: nat, world: World, obs: nat, team: seq<nat>, sightings: set<(nat, nat)>): IconCall
  {
    var info := Look(world, a);
    var me := obs == a;
    var sameTeam := Look(world, obs).attacker == info.attacker;
    var shown := !info.dead && (me || sameTeam || (a, obs) in sightings || SeenByAny(a, team, sightings));
    IconCall(a, Project(info.location), shown && info.hasIcon, if shown then Visible else Hidden, Category(me, sameTeam))
  }

  /** UpdateAgentIcons' requests for the listed agents: one per valid agent, in order. */
  function UpdateCalls(agents: seq<nat>, world: World, obs: nat, team: seq<nat>, sightings: set<(nat, nat)>): seq<IconCall>
  {
    if |agents| == 0 then []
    else
      var a := agents[|agents| - 1];
      UpdateCalls(agents[..|agents| - 1], world, obs, team, sightings)
        + (if Look(world, a).valid then [UpdatedIcon(a, world, obs, team, sightings)] else [])
  }

  /**
   * The visibility rule of a scan: a dead agent is hidden; a live self or
   * teammate is shown; a live enemy is shown exactly when the observer or a
   * tracked, valid, live teammate other than the observer sees it. An icon
   * texture goes with exactly the shown agents that have one.
   */
  lemma VisibilityRule(a: nat, world: World, obs: nat, mapped: seq<nat>, sightings: set<(nat, nat)>)
    ensures var c := UpdatedIcon(a, world, obs, TeamOf(mapped, world, obs), sightings);
      var info := Look(world, a);
      var sameTeam := Look(world, obs).attacker == info.attacker;
      && (c.state == Visible <==>
            !info.dead
            && (a == obs || sameTeam || (a, obs) in sightings
                || exists t :: t in mapped && IsTeammate(world, obs, t) && (a, t) in sightings))
      && (c.icon <==> c.state == Visible && info.hasIcon)
      && c.category == (if a == obs then 0 else if sameTeam then 1 else 2)
  {
    TeamOfIsTheTeammates(mapped, world, obs);
  }

  /**
   * The visibility rule of a new agent: shown exactly when alive and the
   * observer itself, a teammate, or inside the observer's view frustum.
   */
  lemma CreatedVisibilityRule(a: nat, world: World, obs: nat, frustum: set<nat>, center: Vec2)
    ensures var c := CreatedIcon(a, world, obs, frustum, center);
      var info := Look(world, a);
      var sameTeam := Look(world, obs).attacker == info.attacker;
      && (c.state == Visible <==> !info.dead && (a == obs || sameTeam || a in frustum))
      && (c.icon <==> c.state == Visible && info.hasIcon)
      && (c.category == 0 <==> a == obs) && (c.category == 1 <==> a != obs && sameTeam)
      && (c.category == 2 <==> a != obs && !sameTeam)
      && c.position == (if Look(world, obs).valid then Project(info.location) else center)
  {
  }

  /** A scan sends exactly one request per valid tracked agent, in list order, each by the visibility rule. */
  lemma {:induction false} UpdateCallsCoverValidAgents(agents: seq<nat>, world: World, obs: nat, team: seq<nat>,
                                                      sightings: set<(nat, nat)>)
    ensures var calls := UpdateCalls(agents, world, obs, team, sightings);
      && |calls| <= |agents|
      && (forall c :: c in calls ==>
            c.agent in agents && Look(world, c.agent).valid && c == UpdatedIcon(c.agent, world, obs, team, sightings))
      && (forall a :: a in agents && Look(world, a).valid ==> UpdatedIcon(a, world, obs, team, sightings) in calls)
  {
    if |agents| > 0 {
      UpdateCallsCoverValidAgents(agents[..|agents| - 1], world, obs, team, sightings);
      assert agents == agents[..|agents| - 1] + [agents[|agents| - 1]];
    }
  }

  class MiniMapWidget {
    /** MinimapCenter, where icons go while there is no valid observer. */
    const minimapCenter: Vec2
    /** ObserverAgent: the owning player's pawn, once known. */
    var observer: Option<nat>
    /** MappedAgents. */
    var mapped: seq<nat>
    /**
     * The agents with an entry in AgentIconMap. The icon widgets themselves are
     * created by the widget's Blueprint in answer to the icon requests, so the
     * model only ever removes entries here.
     */
    var iconWidgets: set<nat>
    var mapScale: real
    var scanTimerArmed: bool

    ghost predicate Valid()
      reads this
    {
      NoDup(mapped)
    }

    /** A widget that tracks nothing and has no observer yet. */
    constructor (center: Vec2, scale: real)
      ensures Valid() && minimapCenter == center && mapScale == scale
      ensures observer == None && mapped == [] && iconWidgets == {} && !scanTimerArmed
    {
      minimapCenter := center;
      mapScale := scale;
      observer := None;
      mapped := [];
      iconWidgets := {};
      scanTimerArmed := false;
    }

    /** IsValid(ObserverAgent). */
    predicate ObserverValid(world: World)
      reads this
    {
      observer.Some? && Look(world, observer.value).valid
    }

    /** WorldToMinimapPosition: the minimap center without a valid observer, the projected point otherwise. */
    function WorldToMinimapPosition(loc: Vec3, world: World): (p: Vec2)
      reads this
      ensures !ObserverValid(world) ==> p == minimapCenter
      ensures ObserverValid(world) ==> Unproject(p) == (loc.x, loc.y)
      ensures ObserverValid(world) && -WorldHalfExtent <= loc.y <= WorldHalfExtent ==> 0.0 <= p.x <= MinimapSize
      ensures ObserverValid(world) && -WorldHalfExtent <= loc.x <= WorldHalfExtent ==> 0.0 <= p.y <= MinimapSize
    {
      if !ObserverValid(world) then minimapCenter else Project(loc)
    }

    method AddAgentToMinimap(a: nat, world: World, frustum: set<nat>) returns (call: Option<IconCall>)
      requires Valid()
      modifies this`mapped
      ensures Valid()
      ensures mapped == Added(old(mapped), a, world)
      ensures call == AddCall(old(mapped), a, world, observer, frustum, minimapCenter)
    {
      call := None;
      if Look(world, a).valid && a !in mapped {
        AddedKeepsNoDup(mapped, a, world);
        mapped := mapped + [a];
        if observer.Some? {
          var obs := observer.value;
          var position := WorldToMinimapPosition(Look(world, a).location, world);
          var me := obs == a;
          var sameTeam := Look(world, obs).attacker == Look(world, a).attacker;
          var dead := Look(world, a).dead;
          var state, icon;
          if (me || sameTeam || a in frustum) && !dead {
            state, icon := Visible, Look(world, a).hasIcon;
          } else {
            state, icon := Hidden, false;
          }
          call := Some(IconCall(a, position, icon, state, if me then 0 else if sameTeam then 1 else 2));
        }
      }
    }

    method ScanForAgents(found: seq<nat>, world: World, frustum: set<nat>) returns (calls: seq<IconCall>)
      requires Valid()
      modifies this`mapped
      ensures Valid()
      ensures mapped == Scanned(old(mapped), found, world)
      ensures calls == ScanCalls(old(mapped), found, world, observer, frustum, minimapCenter)
    {
      calls := [];
      var i := 0;
      while i < |found|
        invariant 0 <= i <= |found| && Valid()
        invariant mapped == Scanned(old(mapped), found[..i], world)
        invariant calls == ScanCalls(old(mapped), found[..i], world, observer, frustum, minimapCenter)
      {
        assert found[..i + 1][..i] == found[..i];
        var a := found[i];
        if Look(world, a).valid && a !in mapped {
          var call := AddAgentToMinimap(a, world, frustum);
          if call.Some? {
            calls := calls + [call.value];
          }
        }
        i := i + 1;
      }
      assert found[..i] == found;
    }

    method RemoveAgentFromMinimap(a: nat, world: World)
      requires Valid()
      modifies this`mapped, this`iconWidgets
      ensures Valid()
      ensures mapped == (if Look(world, a).valid then Without(old(mapped), a) else old(mapped))
      ensures iconWidgets == (if Look(world, a).valid then old(iconWidgets) - {a} else old(iconWidgets))
    {
      if Look(world, a).valid {
        WithoutRemovesOnlyTheAgent(mapped, a);
        mapped := Without(mapped, a);
        iconWidgets := iconWidgets - {a};
      }
    }

    method SetMinimapScale(scale: real)
      modifies this`mapScale
      ensures mapScale == (if scale > 0.0 then scale else old(mapScale))
      ensures old(mapScale) > 0.0 ==> mapScale > 0.0
    {
      if scale > 0.0 {
        mapScale := scale;
      }
    }

    /** UpdateAgentIcons: nothing without a valid observer; otherwise one request per valid tracked agent. */
    method UpdateAgentIcons(world: World, sightings: set<(nat, nat)>) returns (calls: seq<IconCall>)
      ensures calls == if !ObserverValid(world) then []
                       else UpdateCalls(mapped, world, observer.value, TeamOf(mapped, world, observer.value), sightings)
    {
      calls := [];
      if !ObserverValid(world) {
        return;
      }
      var obs := observer.value;
      var team: seq<nat> := [];
      var i := 0;
      while i < |mapped|
        invariant 0 <= i <= |mapped|
        invariant team == TeamOf(mapped[..i], world, obs)
      {
        assert mapped[..i + 1][..i] == mapped[..i];
        var a := mapped[i];
        if Look(world, a).valid && a != obs && !Look(world, a).dead && Look(world, a).attacker == Look(world, obs).attacker {
          team := team + [a];
        }
        i := i + 1;
      }
      assert mapped[..i] == mapped;
      i := 0;
      while i < |mapped|
        invariant 0 <= i <= |mapped|
        invariant calls == UpdateCalls(mapped[..i], world, obs, team, sightings)
      {
        assert mapped[..i + 1][..i] == mapped[..i];
        var a := mapped[i];
        if Look(world, a).valid {
          var call := UpdateOne(a, world, obs, team, sightings);
          calls := calls + [call];
        }
        i := i + 1;
      }
      assert mapped[..i] == mapped;
    }

    /** One agent of UpdateAgentIcons: its own sight first, then, for a live enemy, the teammates' until one sees it. */
    method UpdateOne(a: nat, world: World, obs: nat, team: seq<nat>, sightings: set<(nat, nat)>) returns (call: IconCall)
      requires observer == Some(obs) && Look(world, obs).valid
      ensures call == UpdatedIcon(a, world, obs, team, sightings)
    {
      var me := obs == a;
      var sameTeam := Look(world, obs).attacker == Look(world, a).attacker;
      var dead := Look(world, a).dead;
      var visible := (a, obs) in sightings;
      if !visible && !me && !sameTeam && !dead {
        var k := 0;
        while k < |team|
          invariant 0 <= k <= |team|
          invariant !visible ==> forall j :: 0 <= j < k ==> (a, team[j]) !in sightings
          invariant visible ==> SeenByAny(a, team, sightings)
        {
          if (a, team[k]) in sightings {
            visible := true;
            break;
          }
          k := k + 1;
        }
        if !visible {
          assert forall t :: t in team ==> (a, t) !in sightings;
        }
      }
      var state, icon;
      if (me || sameTeam) && !dead {
        state, icon := Visible, Look(world, a).hasIcon;
      } else if visible && !dead {
        state, icon := Visible, Look(world, a).hasIcon;
      } else {
        state, icon := Hidden, false;
      }
      call := IconCall(a, WorldToMinimapPosition(Look(world, a).location, world), icon, state,
                       if me then 0 else if sameTeam then 1 else 2);
    }

    /** Scan, on the repeating timer: look for new agents, then refresh every icon. */
    method Scan(found: seq<nat>, world: World, frustum: set<nat>, sightings: set<(nat, nat)>) returns (calls: seq<IconCall>)
      requires Valid()
      modifies this`mapped
      ensures Valid()
      ensures mapped == Scanned(old(mapped), found, world)
      ensures calls == ScanCalls(old(mapped), found, world, observer, frustum, minimapCenter)
                       + (if !ObserverValid(world) then []
                          else UpdateCalls(mapped, world, observer.value, TeamOf(mapped, world, observer.value), sightings))
    {
      var added := ScanForAgents(found, world, frustum);
      var updated := UpdateAgentIcons(world, sightings);
      calls := added + updated;
    }

    /**
     * NativeConstruct: when the owning player has a pawn, the observer becomes
     * that pawn cast to an agent, so no observer at all when the pawn is not
     * an agent (`pawnIsAgent` false); without a controller or pawn the
     * observer is left as it was. Then a first scan, and the scan timer starts.
     */
    method NativeConstruct(pawn: Option<nat>, pawnIsAgent: bool, found: seq<nat>, world: World, frustum: set<nat>)
      returns (calls: seq<IconCall>)
      requires Valid()
      modifies this`observer, this`mapped, this`scanTimerArmed
      ensures Valid() && scanTimerArmed
      ensures observer == (if pawn.None? then old(observer) else if pawnIsAgent then pawn else None)
      ensures mapped == Scanned(old(mapped), found, world)
      ensures calls == ScanCalls(old(mapped), found, world, observer, frustum, minimapCenter)
    {
      if pawn.Some? {
        observer := if pawnIsAgent then pawn else None;
      }
      calls := ScanForAgents(found, world, frustum);
      scanTimerArmed := true;
    }
  }
}
