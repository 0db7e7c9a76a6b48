/**
 * Phoenix C's Blaze wall: a spline of points laid down by the projectile,
 * rebuilt into one mesh (and, on authority, one collision box) per pair of
 * consecutive points; the agents standing in it, whose arrival starts a
 * repeating effect timer and whose departure stops it once nobody is left;
 * and the effect itself, which heals Phoenix and allies and damages everyone
 * else.
 *
 * Actors are values: an agent carries its id and team. Whether an agent is
 * still valid (not pending kill) is a parameter of the effect tick.
 */
module BlazeWall {
  import opened Geometry

  /** An actor reaching the wall: nothing, an agent with its team, or some other actor. */
  datatype ActorRef = NoActor | AgentActor(id: nat, blueTeam: bool) | OtherActor(id: nat)

  /** One spline mesh (or collision box): the piece of wall between two consecutive spline points. */
  datatype WallPiece = WallPiece(start: Vec3, end: Vec3)

  /** The wall's configuration defaults. */
  const WallDuration: real := 8.0
  const DamagePerSecond: real := 30.0
  const HealPerSecond: real := 12.5
  const EffectApplicationInterval: real := 0.25

  /**
   * The two points a freshly created spline component holds, in the
   * component's own frame; the wall never clears them, so the points the
   * projectile lays down follow them.
   */
  const DefaultSplinePoints: seq<Vec3> := [Vec3(0.0, 0.0, 0.0), Vec3(100.0, 0.0, 0.0)]

  /** UpdateSplineMesh's rebuild: one piece per pair of consecutive points, none below two points. */
  function Pieces(points: seq<Vec3>): (r: seq<WallPiece>)
  {
    if |points| < 2 then []
    else seq(|points| - 1, i requires 0 <= i < |points| - 1 => WallPiece(points[i], points[i + 1]))
  }

  /** The rebuilt wall has max(0, n - 1) pieces that join the points in order, end to start. */
  lemma PiecesJoinPoints(points: seq<Vec3>)
    ensures |Pieces(points)| == if |points| < 2 then 0 else |points| - 1
    ensures forall i :: 0 <= i < |Pieces(points)| ==>
      Pieces(points)[i].start == points[i] && Pieces(points)[i].end == points[i + 1]
    ensures forall i :: 0 <= i < |Pieces(points)| - 1 ==> Pieces(points)[i].end == Pieces(points)[i + 1].start
  {
  }

  /**
   * The points the projectile lays down follow the spline's two default points,
   * so `laid` points give one piece more than there are laid points, the first
   * joining the two default points.
   */
  lemma LaidPointsFollowDefaults(laid: seq<Vec3>)
    ensures |Pieces(DefaultSplinePoints + laid)| == |laid| + 1
    ensures Pieces(DefaultSplinePoints + laid)[0] == WallPiece(Vec3(0.0, 0.0, 0.0), Vec3(100.0, 0.0, 0.0))
    ensures |laid| > 0 ==> Pieces(DefaultSplinePoints + laid)[1] == WallPiece(Vec3(100.0, 0.0, 0.0), laid[0])
  {
    PiecesJoinPoints(DefaultSplinePoints + laid);
  }

  /** IsPhoenixOrAlly: no actor is never an ally; the instigator always is; otherwise two agents on one team are. */
  function IsPhoenixOrAlly(actor: ActorRef, instigator: ActorRef): bool
  {
    if actor.NoActor? then false
    else if actor == instigator then true
    else if actor.AgentActor? && instigator.AgentActor? then instigator.blueTeam == actor.blueTeam
    else false
  }

  /** The health change ApplyGameEffect hands an agent each tick: heal for Phoenix and allies, damage for the rest. */
  function TickEffect(actor: ActorRef, instigator: ActorRef, healPerTick: real, damagePerTick: real): real
  {
    if IsPhoenixOrAlly(actor, instigator) then healPerTick else -damagePerTick
  }

  /** The effects of one tick on the valid agents standing in the wall (none without a gameplay effect class). */
  function TickEffects(agents: set<ActorRef>, hasEffect: bool, instigator: ActorRef, healPerTick: real,
                       damagePerTick: real): map<ActorRef, real>
  {
    if hasEffect then map a | a in agents :: TickEffect(a, instigator, healPerTick, damagePerTick)
    else map[]
  }

  /**
   * Part-way through ApplyGameEffect's pass over the copy of the set: the
   * agents `done` so far and those `pending` split the original set, the
   * valid ones done were flashed, and the set still holds everything pending
   * and everything flashed.
   */
  ghost predicate Sweep(orig: set<ActorRef>, valid: set<ActorRef>, pending: set<ActorRef>, done: set<ActorRef>,
                        flashed: set<ActorRef>, kept: set<ActorRef>)
  {
    pending !! done && pending + done == orig && flashed == done * valid && kept == pending + flashed
  }

  /** One agent of the pass: dropped from the set when invalid, flashed otherwise. */
  lemma SweepStep(orig: set<ActorRef>, valid: set<ActorRef>, pending: set<ActorRef>, done: set<ActorRef>,
                  flashed: set<ActorRef>, kept: set<ActorRef>, a: ActorRef)
    requires Sweep(orig, valid, pending, done, flashed, kept) && a in pending
    ensures a !in valid ==> Sweep(orig, valid, pending - {a}, done + {a}, flashed, kept - {a})
    ensures a in valid ==> Sweep(orig, valid, pending - {a}, done + {a}, flashed + {a}, kept)
  {
    assert a !in flashed;
  }

  /** The finished pass: the set keeps exactly its valid agents, and those are the ones flashed. */
  lemma SweepDone(orig: set<ActorRef>, valid: set<ActorRef>, done: set<ActorRef>, flashed: set<ActorRef>,
                  kept: set<ActorRef>)
    requires Sweep(orig, valid, {}, done, flashed, kept)
    ensures kept == orig * valid && flashed == orig * valid
  {
  }

  /**
   * The ally rule: Phoenix's own agent and every agent of Phoenix's team are
   * healed, an agent of the other team is damaged, and an actor that is not an
   * agent is never an ally unless it is the instigator.
   */
  lemma AllyRule(actor: ActorRef, instigator: ActorRef, heal: real, damage: real)
    requires instigator.AgentActor? && actor.AgentActor?
    ensures IsPhoenixOrAlly(actor, instigator) <==> actor.blueTeam == instigator.blueTeam
    ensures heal > 0.0 && damage > 0.0 ==>
      (TickEffect(actor, instigator, heal, damage) > 0.0 <==> actor.blueTeam == instigator.blueTeam)
  {
  }

  /** Only the instigator can be an ally without being an agent, and nothing is an ally of nobody. */
  lemma NonAgentsAreNotAllies(actor: ActorRef, instigator: ActorRef)
    ensures !actor.AgentActor? && actor != instigator ==> !IsPhoenixOrAlly(actor, instigator)
    ensures instigator.NoActor? ==> (IsPhoenixOrAlly(actor, instigator) <==> false)
  {
  }

  /** With the defaults, CalculateTickValues gives 7.5 damage and 3.125 heal per 0.25-second tick. */
  lemma DefaultTickValues()
    ensures DamagePerSecond * EffectApplicationInterval == 7.5
    ensures HealPerSecond * EffectApplicationInterval == 3.125
  {
  }

  class BlazeSplineWall {
    /** HasAuthority(): this node is the server. */
    const authority: bool
    /** GetInstigator(): Phoenix. */
    const instigator: ActorRef
    /** A GameplayEffect class is set. */
    const hasGameplayEffect: bool

    var damagePerTick: real
    var healPerTick: real
    var points: seq<Vec3>
    var meshes: seq<WallPiece>
    var collisions: seq<WallPiece>
    var overlapped: set<ActorRef>
    var damageTimerActive: bool
    var durationTimerActive: bool
    var overlapEventsBound: bool
    var beingDestroyed: bool
    /** SetLifeSpan(0.1) was called: the actor is about to go. */
    var lifeSpanSet: bool

    ghost predicate Valid()
      reads this
    {
      forall a :: a in overlapped ==> a.AgentActor?
    }

    /** The constructor: a spline with its two default points, the per-tick values worked out, and nothing spawned yet. */
    constructor (isServer: bool, phoenix: ActorRef, effectClass: bool)
      ensures Valid() && authority == isServer && instigator == phoenix && hasGameplayEffect == effectClass
      ensures damagePerTick == DamagePerSecond * EffectApplicationInterval
      ensures healPerTick == HealPerSecond * EffectApplicationInterval
      ensures points == DefaultSplinePoints && meshes == [] && collisions == [] && overlapped == {}
      ensures !damageTimerActive && !durationTimerActive && !overlapEventsBound && !beingDestroyed && !lifeSpanSet
    {
      authority := isServer;
      instigator := phoenix;
      hasGameplayEffect := effectClass;
      points, meshes, collisions, overlapped := DefaultSplinePoints, [], [], {};
      damageTimerActive, durationTimerActive, overlapEventsBound := false, false, false;
      beingDestroyed, lifeSpanSet := false, false;
      damagePerTick := DamagePerSecond * EffectApplicationInterval;
      healPerTick := HealPerSecond * EffectApplicationInterval;
    }

    /** BeginPlay: the server starts the wall's duration timer. */
    method BeginPlay()
      modifies this`durationTimerActive
      ensures durationTimerActive == (old(durationTimerActive) || authority)
    {
      if authority {
        durationTimerActive := true;
      }
    }

    /** EndPlay: both timers are cleared. */
    method EndPlay()
      modifies this`damageTimerActive, this`durationTimerActive
      ensures !damageTimerActive && !durationTimerActive
    {
      damageTimerActive := false;
      durationTimerActive := false;
    }

    /** UpdateSplineMesh: throw away every mesh and box, then one mesh per spline piece and, on the server, one box each. */
    method UpdateSplineMesh()
      modifies this`meshes, this`collisions
      ensures meshes == Pieces(points)
      ensures collisions == if authority then Pieces(points) else []
    {
      meshes := [];
      collisions := [];
      var n := |points|;
      if n < 2 {
        return;
      }
      var i := 0;
      while i < n - 1
        invariant 0 <= i <= n - 1
        invariant meshes == Pieces(points)[..i]
        invariant collisions == if authority then Pieces(points)[..i] else []
      {
        assert Pieces(points)[..i + 1] == Pieces(points)[..i] + [WallPiece(points[i], points[i + 1])];
        meshes := meshes + [WallPiece(points[i], points[i + 1])];
        if authority {
          collisions := collisions + [WallPiece(points[i], points[i + 1])];
        }
        i := i + 1;
      }
      assert Pieces(points)[..i] == Pieces(points);
    }

    /** Multicast_AddSplinePoint: a client adds the point the server added; every node rebuilds. */
    method MulticastAddSplinePoint(location: Vec3)
      modifies this`points, this`meshes, this`collisions
      ensures points == if authority then old(points) else old(points) + [location]
      ensures meshes == Pieces(points) && collisions == if authority then Pieces(points) else []
    {
      if !authority {
        points := points + [location];
      }
      UpdateSplineMesh();
    }

    /** AddSplinePoint: only the server adds a point, and then multicasts it. */
    method AddSplinePoint(location: Vec3)
      modifies this`points, this`meshes, this`collisions
      ensures !authority ==> points == old(points) && meshes == old(meshes) && collisions == old(collisions)
      ensures authority ==> points == old(points) + [location] && meshes == Pieces(points) && collisions == meshes
    {
      if !authority {
        return;
      }
      points := points + [location];
      MulticastAddSplinePoint(location);
    }

    /** Multicast_FinalizeWall: every node rebuilds; the server binds the overlap events of its boxes. */
    method MulticastFinalizeWall()
      modifies this`meshes, this`collisions, this`overlapEventsBound
      ensures meshes == Pieces(points) && collisions == if authority then Pieces(points) else []
      ensures overlapEventsBound == (old(overlapEventsBound) || authority)
    {
      UpdateSplineMesh();
      if authority {
        overlapEventsBound := true;
      }
    }

    /** FinalizeWall: only the server finalises, through the multicast. */
    method FinalizeWall()
      modifies this`meshes, this`collisions, this`overlapEventsBound
      ensures !authority ==> meshes == old(meshes) && collisions == old(collisions) && overlapEventsBound == old(overlapEventsBound)
      ensures authority ==> meshes == Pieces(points) && collisions == meshes && overlapEventsBound
    {
      if !authority {
        return;
      }
      MulticastFinalizeWall();
    }

    /**
     * ApplyGameEffect: on the server, agents no longer valid leave the set;
     * every other agent in it is flashed and gets its tick's heal or damage.
     * `effects` records the health change each one was handed (none without
     * an effect class); the order of the calls is not kept.
     */
    method ApplyGameEffect(valid: set<ActorRef>) returns (flashed: set<ActorRef>, effects: map<ActorRef, real>)
      requires Valid()
      modifies this`overlapped
      ensures Valid()
      ensures !authority || beingDestroyed ==> overlapped == old(overlapped) && flashed == {} && effects == map[]
      ensures authority && !beingDestroyed ==>
        && overlapped == old(overlapped) * valid
        && flashed == old(overlapped) * valid
        && effects == TickEffects(flashed, hasGameplayEffect, instigator, healPerTick, damagePerTick)
    {
      flashed, effects := {}, map[];
      if !authority || beingDestroyed {
        return;
      }
      var pending := overlapped;
      ghost var done: set<ActorRef> := {};
      while pending != {}
        invariant Sweep(old(overlapped), valid, pending, done, flashed, overlapped)
        decreases |pending|
      {
        var agent :| agent in pending;
        SweepStep(old(overlapped), valid, pending, done, flashed, overlapped, agent);
        pending := pending - {agent};
        if agent !in valid {
          overlapped := overlapped - {agent};
        } else {
          flashed := flashed + {agent};
        }
        done := done + {agent};
      }
      SweepDone(old(overlapped), valid, done, flashed, overlapped);
      effects := TickEffects(flashed, hasGameplayEffect, instigator, healPerTick, damagePerTick);
    }

    /**
     * OnBeginOverlap: on the server, a new agent joins the set; when it is the
     * only one and the effect timer is idle, the timer starts and a first tick
     * is applied at once.
     */
    method OnBeginOverlap(other: ActorRef, valid: set<ActorRef>) returns (flashed: set<ActorRef>, effects: map<ActorRef, real>)
      requires Valid()
      modifies this`overlapped, this`damageTimerActive
      ensures Valid()
      ensures var joins := authority && !beingDestroyed && other.AgentActor? && other !in old(overlapped);
        var starts := joins && |old(overlapped) + {other}| == 1 && !old(damageTimerActive);
        && overlapped == (if starts then (old(overlapped) + {other}) * valid
                          else if joins then old(overlapped) + {other} else old(overlapped))
        && damageTimerActive == (old(damageTimerActive) || starts)
        && flashed == (if starts then (old(overlapped) + {other}) * valid else {})
        && effects == (if starts then TickEffects(flashed, hasGameplayEffect, instigator, healPerTick, damagePerTick)
                       else map[])
    {
      flashed, effects := {}, map[];
      if !authority || beingDestroyed || other.NoActor? {
        return;
      }
      if other.AgentActor? {
        if other !in overlapped {
          overlapped := overlapped + {other};
          if |overlapped| == 1 && !damageTimerActive {
            damageTimerActive := true;
            flashed, effects := ApplyGameEffect(valid);
          }
        }
      }
    }

    /** OnEndOverlap: on the server, an agent leaves the set, and the effect timer stops when the set is empty. */
    method OnEndOverlap(other: ActorRef)
      requires Valid()
      modifies this`overlapped, this`damageTimerActive
      ensures Valid()
      ensures var leaves := authority && !beingDestroyed && other.AgentActor?;
        && overlapped == (if leaves then old(overlapped) - {other} else old(overlapped))
        && damageTimerActive == (old(damageTimerActive) && !(leaves && overlapped == {}))
    {
      if !authority || beingDestroyed || other.NoActor? {
        return;
      }
      if other.AgentActor? {
        overlapped := overlapped - {other};
        if |overlapped| == 0 {
          damageTimerActive := false;
        }
      }
    }

    /** OnElapsedDuration: on the server, both timers stop and the wall gets a short life span. */
    method OnElapsedDuration()
      modifies this`damageTimerActive, this`durationTimerActive, this`lifeSpanSet
      ensures authority ==> !damageTimerActive && !durationTimerActive && lifeSpanSet
      ensures !authority ==>
        damageTimerActive == old(damageTimerActive) && durationTimerActive == old(durationTimerActive)
        && lifeSpanSet == old(lifeSpanSet)
    {
      if !authority {
        return;
      }
      damageTimerActive := false;
      durationTimerActive := false;
      lifeSpanSet := true;
    }
  }
}
