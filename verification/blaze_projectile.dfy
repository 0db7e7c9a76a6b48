/**
 * Phoenix C's Blaze projectile: an invisible projectile that lays a wall
 * segment where it stands every spawn interval, optionally curving to the
 * right, and stops itself once the wall reaches its length or segment limit
 * or once it hits something.
 *
 * The actor's location, the ground trace and whether the engine spawned the
 * segment are parameters. The velocity is kept as its size only: curving
 * turns it about the up axis and so leaves its size alone.
 */
module BlazeProjectile {
  import opened Wrappers
  import opened Geometry

  datatype MovementType = Straight | Curved

  /** The projectile's configuration defaults. */
  const SegmentSpawnInterval: real := 0.05
  const SegmentLength: real := 100.0
  const MaxWallLength: real := 2000.0
  const MaxSegments: int := 40
  const StraightSpeed: real := 1500.0
  const CurvedSpeed: real := 1200.0
  /** How fast the curve angle grows, in degrees per second, and where it stops. */
  const CurveRate: real := 30.0
  const MaxCurveAngle: real := 90.0

  /** The projectile's state as a value. `walls` holds the spawn location of each wall segment, in order. */
  datatype Flight = Flight(
    movementType: MovementType,
    speed: real,
    velocitySize: real,
    startLocation: Vec3,
    lastWallSpawnLocation: Vec3,
    walls: seq<Vec3>,
    segmentCount: int,
    totalDistance: real,
    curveAngle: real,
    spawnTimerArmed: bool,
    destroyed: bool)

  /** What every operation keeps: the count matches the walls and never passes the cap; the curve angle stays in range. */
  predicate Sane(f: Flight)
  {
    && f.segmentCount == |f.walls| <= MaxSegments
    && 0.0 <= f.curveAngle <= MaxCurveAngle
    && f.velocitySize >= 0.0
  }

  /** FMath::Clamp on floats. */
  function Clamp(v: real, lo: real, hi: real): real
  {
    if v < lo then lo else if v < hi then v else hi
  }

  /** The speed for a movement type. */
  function SpeedFor(t: MovementType): real
  {
    if t == Straight then StraightSpeed else CurvedSpeed
  }

  /** StopProjectile: the spawn timer cleared, the projectile halted and destroyed. */
  function Stopped(f: Flight): Flight
  {
    f.(spawnTimerArmed := false, velocitySize := 0.0, destroyed := true)
  }

  /** SetMovementType: the type, and a velocity of the type's speed along the actor's forward vector. */
  function MovementSet(f: Flight, t: MovementType): Flight
  {
    f.(movementType := t, speed := SpeedFor(t), velocitySize := SpeedFor(t))
  }

  /**
   * SpawnWallSegment, with the actor at `location`, `ground` the point the
   * downward trace hit (if any) and `spawned` whether the engine produced the
   * segment: without a segment class or at the cap the projectile stops;
   * otherwise a spawned segment is recorded at the ground point (or the actor's
   * location), and the projectile stops if the wall is already long enough.
   */
  function SegmentSpawned(f: Flight, hasSegmentClass: bool, location: Vec3, ground: Option<Vec3>, spawned: bool): Flight
  {
    if !hasSegmentClass || f.segmentCount >= MaxSegments then Stopped(f)
    else if !spawned then f
    else
      var at := if ground.Some? then ground.value else location;
      var g := f.(walls := f.walls + [at], segmentCount := f.segmentCount + 1, lastWallSpawnLocation := at);
      if g.totalDistance >= MaxWallLength then Stopped(g) else g
  }

  /** BeginPlay: remember the start, lay the first segment at once, then arm the repeating spawn timer. */
  function Began(f: Flight, hasSegmentClass: bool, location: Vec3, ground: Option<Vec3>, spawned: bool): Flight
  {
    var started := f.(startLocation := location, lastWallSpawnLocation := location);
    SegmentSpawned(started, hasSegmentClass, location, ground, spawned).(spawnTimerArmed := true)
  }

  /** ApplyCurveMovement: the curve angle grows by 30 degrees a second, clamped to [0, 90]. */
  function CurveApplied(f: Flight, dt: real): Flight
  {
    f.(curveAngle := Clamp(f.curveAngle + dt * CurveRate, 0.0, MaxCurveAngle))
  }

  /**
   * Tick: curve when curving; once a segment location is set (non-zero), add
   * the distance covered at the current velocity; stop at the length or
   * segment limit.
   */
  function Ticked(f: Flight, dt: real): Flight
  {
    var c := if f.movementType == Curved then CurveApplied(f, dt) else f;
    var d := if c.lastWallSpawnLocation != Zero3 then c.(totalDistance := c.totalDistance + c.velocitySize * dt) else c;
    if d.totalDistance >= MaxWallLength || d.segmentCount >= MaxSegments then Stopped(d) else d
  }

  /** Stopping halts the projectile, clears the timer and destroys it, and changes nothing else. */
  lemma StopHalts(f: Flight)
    ensures var s := Stopped(f);
      && s.velocitySize == 0.0 && !s.spawnTimerArmed && s.destroyed
      && s.walls == f.walls && s.totalDistance == f.totalDistance && s.curveAngle == f.curveAngle
      && (Sane(f) ==> Sane(s))
  {
  }

  /**
   * A spawn adds at most one wall, after the ones before, and only when there
   * is a segment class, the cap is not reached and the engine spawned it; it
   * stops the projectile exactly when there is no class, the cap was reached,
   * or the new segment completes a wall already long enough. The cap holds.
   */
  lemma SpawnRespectsCap(f: Flight, hasSegmentClass: bool, location: Vec3, ground: Option<Vec3>, spawned: bool)
    requires Sane(f)
    ensures var n := SegmentSpawned(f, hasSegmentClass, location, ground, spawned);
      var adds := hasSegmentClass && f.segmentCount < MaxSegments && spawned;
      && Sane(n)
      && n.walls == (if adds then f.walls + [if ground.Some? then ground.value else location] else f.walls)
      && (n.destroyed <==> f.destroyed || !hasSegmentClass || f.segmentCount >= MaxSegments
                           || (adds && f.totalDistance >= MaxWallLength))
      && n.totalDistance == f.totalDistance
  {
  }

  /**
   * BeginPlay arms the spawn timer even when its first spawn has already
   * stopped the projectile (no segment class): the stop's clearing of the
   * timer is undone.
   */
  lemma BeginPlayReArmsTimer(f: Flight, location: Vec3, ground: Option<Vec3>, spawned: bool)
    ensures var n := Began(f, false, location, ground, spawned);
      n.destroyed && n.spawnTimerArmed && n.velocitySize == 0.0 && n.walls == f.walls
  {
  }

  /** The curve angle stays in [0, 90]; it is the old angle plus 30 degrees a second while that is in range, and never falls. */
  lemma CurveStaysClamped(f: Flight, dt: real)
    requires Sane(f)
    ensures var n := CurveApplied(f, dt);
      && 0.0 <= n.curveAngle <= MaxCurveAngle
      && (0.0 <= f.curveAngle + dt * CurveRate <= MaxCurveAngle ==> n.curveAngle == f.curveAngle + dt * CurveRate)
      && (dt >= 0.0 ==> n.curveAngle >= f.curveAngle)
      && n.velocitySize == f.velocitySize
  {
  }

  /**
   * A tick adds the distance covered at the velocity's size once a segment
   * location is set, and never shrinks the total for a non-negative time step;
   * the projectile survives the tick only while both limits are unreached.
   */
  lemma TickMeasuresDistance(f: Flight, dt: real)
    requires Sane(f)
    ensures var n := Ticked(f, dt);
      && Sane(n)
      && n.totalDistance == f.totalDistance + (if f.lastWallSpawnLocation != Zero3 then f.velocitySize * dt else 0.0)
      && (dt >= 0.0 ==> n.totalDistance >= f.totalDistance)
      && (!f.destroyed ==> (!n.destroyed <==> n.totalDistance < MaxWallLength && n.segmentCount < MaxSegments))
      && n.walls == f.walls
  {
    var c := if f.movementType == Curved then CurveApplied(f, dt) else f;
    CurveStaysClamped(f, dt);
    assert c.velocitySize == f.velocitySize && c.lastWallSpawnLocation == f.lastWallSpawnLocation;
    if dt >= 0.0 {
      assert f.velocitySize * dt >= 0.0 * dt;
    }
  }

  /** A stopped projectile covers no more distance: its ticks leave the total where it was. */
  lemma StoppedCoversNoDistance(f: Flight, dt: real)
    ensures Ticked(Stopped(f), dt).totalDistance == f.totalDistance
    ensures Ticked(Stopped(f), dt).destroyed
  {
  }

  /** Each movement type flies at its own speed, straight the faster. */
  lemma MovementSpeeds(f: Flight, t: MovementType)
    ensures var n := MovementSet(f, t);
      && n.movementType == t && n.speed == n.velocitySize == SpeedFor(t)
      && (t == Straight <==> n.speed == StraightSpeed) && StraightSpeed > CurvedSpeed
      && (Sane(f) ==> Sane(n))
  {
  }

  class Projectile {
    /** WallSegmentClass is set. */
    const hasSegmentClass: bool
    var movementType: MovementType
    /** The movement component's initial and maximum speed. */
    var speed: real
    /** The size of the movement component's velocity. */
    var velocitySize: real
    var startLocation: Vec3
    var lastWallSpawnLocation: Vec3
    var walls: seq<Vec3>
    var segmentCount: int
    var totalDistance: real
    var curveAngle: real
    var spawnTimerArmed: bool
    var destroyed: bool

    function State(): Flight
      reads this
    {
      Flight(movementType, speed, velocitySize, startLocation, lastWallSpawnLocation, walls, segmentCount,
             totalDistance, curveAngle, spawnTimerArmed, destroyed)
    }

    ghost predicate Valid()
      reads this
    {
      Sane(State())
    }

    /** A straight projectile at the straight speed, with nothing laid yet. */
    constructor (segmentClass: bool)
      ensures Valid() && hasSegmentClass == segmentClass
      ensures State() == Flight(Straight, StraightSpeed, StraightSpeed, Zero3, Zero3, [], 0, 0.0, 0.0, false, false)
    {
      hasSegmentClass := segmentClass;
      movementType := Straight;
      speed := StraightSpeed;
      velocitySize := StraightSpeed;
      startLocation := Zero3;
      lastWallSpawnLocation := Zero3;
      walls := [];
      segmentCount := 0;
      totalDistance := 0.0;
      curveAngle := 0.0;
      spawnTimerArmed := false;
      destroyed := false;
    }

    method StopProjectile()
      requires Valid()
      modifies this
      ensures Valid() && State() == Stopped(old(State()))
    {
      spawnTimerArmed := false;
      velocitySize := 0.0;
      destroyed := true;
    }

    method SetMovementType(t: MovementType)
      requires Valid()
      modifies this
      ensures Valid() && State() == MovementSet(old(State()), t)
    {
      movementType := t;
      var newSpeed := if t == Straight then StraightSpeed else CurvedSpeed;
      speed := newSpeed;
      velocitySize := newSpeed;
    }

    method SpawnWallSegment(location: Vec3, ground: Option<Vec3>, spawned: bool)
      requires Valid()
      modifies this
      ensures Valid() && State() == SegmentSpawned(old(State()), hasSegmentClass, location, ground, spawned)
    {
      if !hasSegmentClass || segmentCount >= MaxSegments {
        StopProjectile();
        return;
      }
      var spawnLocation := location;
      if ground.Some? {
        spawnLocation := ground.value;
      }
      if spawned {
        walls := walls + [spawnLocation];
        segmentCount := segmentCount + 1;
        lastWallSpawnLocation := spawnLocation;
        if totalDistance >= MaxWallLength {
          StopProjectile();
        }
      }
    }

    method BeginPlay(location: Vec3, ground: Option<Vec3>, spawned: bool)
      requires Valid()
      modifies this
      ensures Valid() && State() == Began(old(State()), hasSegmentClass, location, ground, spawned)
    {
      startLocation := location;
      lastWallSpawnLocation := startLocation;
      SpawnWallSegment(location, ground, spawned);
      spawnTimerArmed := true;
    }

    method ApplyCurveMovement(dt: real)
      requires Valid()
      modifies this
      ensures Valid() && State() == CurveApplied(old(State()), dt)
    {
      curveAngle := curveAngle + dt * CurveRate;
      curveAngle := Clamp(curveAngle, 0.0, MaxCurveAngle);
    }

    method Tick(dt: real)
      requires Valid()
      modifies this
      ensures Valid() && State() == Ticked(old(State()), dt)
    {
      ghost var f := State();
      if movementType == Curved {
        ApplyCurveMovement(dt);
      }
      ghost var c := State();
      assert c == if f.movementType == Curved then CurveApplied(f, dt) else f;
      if lastWallSpawnLocation != Zero3 {
        totalDistance := totalDistance + velocitySize * dt;
      }
      ghost var d := State();
      assert d == if c.lastWallSpawnLocation != Zero3 then c.(totalDistance := c.totalDistance + c.velocitySize * dt) else c;
      if totalDistance >= MaxWallLength || segmentCount >= MaxSegments {
        StopProjectile();
      }
    }

    method OnProjectileBounced()
      requires Valid()
      modifies this
      ensures Valid() && State() == Stopped(old(State()))
    {
      StopProjectile();
    }
  }
}
