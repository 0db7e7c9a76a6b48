/**
 * Sage C's barrier wall: three segments, each with its own health and a
 * destroyed flag kept in two arrays updated in place; damage goes to the
 * nearest live segment, a segment whose health reaches zero is destroyed, and
 * the wall goes when all three are gone. While the wall is building (or is
 * only a preview) it takes no damage; the build progress rises tick by tick
 * to 1.
 *
 * Healths, damage, times and distances are reals: the model has no float
 * rounding. The distance from the damage to each segment is a parameter.
 */
module BarrierWall {

  /** The number of segments of a barrier wall. */
  const SegmentCount: nat := 3

  /** Every segment is destroyed. */
  predicate AllDown(destroyed: seq<bool>)
  {
    forall i :: 0 <= i < |destroyed| ==> destroyed[i]
  }

  /** Segment `i` exists and is not destroyed. */
  predicate Live(destroyed: seq<bool>, i: int)
  {
    0 <= i < |destroyed| && !destroyed[i]
  }

  /**
   * `i` is the segment TakeDamage picks: a live segment that no live segment
   * is strictly nearer to the damage than, and that every earlier live
   * segment is strictly farther from (the search keeps the first minimum).
   */
  predicate IsClosestLive(dist: seq<real>, destroyed: seq<bool>, i: int)
    requires |dist| == |destroyed|
  {
    && Live(destroyed, i)
    && (forall j :: 0 <= j < |dist| && !destroyed[j] ==> dist[i] <= dist[j])
    && (forall j :: 0 <= j < i && !destroyed[j] ==> dist[i] < dist[j])
  }

  /** The segment the nearest-segment search settles on, or -1 when every segment is destroyed. */
  function ClosestLive(dist: seq<real>, destroyed: seq<bool>): (i: int)
    requires |dist| == |destroyed|
    ensures -1 <= i < |dist|
  {
    if |dist| == 0 then -1
    else
      var n := |dist| - 1;
      var best := ClosestLive(dist[..n], destroyed[..n]);
      if !destroyed[n] && (best == -1 || dist[n] < dist[best]) then n else best
  }

  /** The search finds a segment exactly when one is live, and the one it finds is the nearest live segment. */
  lemma {:induction false} ClosestLiveIsNearest(dist: seq<real>, destroyed: seq<bool>)
    requires |dist| == |destroyed|
    ensures ClosestLive(dist, destroyed) == -1 <==> AllDown(destroyed)
    ensures ClosestLive(dist, destroyed) != -1 ==> IsClosestLive(dist, destroyed, ClosestLive(dist, destroyed))
  {
    if |dist| > 0 {
      var n := |dist| - 1;
      ClosestLiveIsNearest(dist[..n], destroyed[..n]);
      assert forall j :: 0 <= j < n ==> dist[..n][j] == dist[j] && destroyed[..n][j] == destroyed[j];
      if AllDown(destroyed[..n]) && destroyed[n] {
        assert AllDown(destroyed);
      }
    }
  }

  /** The nearest live segment is unique. */
  lemma ClosestLiveUnique(dist: seq<real>, destroyed: seq<bool>, i: int, j: int)
    requires |dist| == |destroyed|
    requires IsClosestLive(dist, destroyed, i) && IsClosestLive(dist, destroyed, j)
    ensures i == j
  {
  }

  /** DestroySegment's flag update: an index in range whose segment stands is marked destroyed; anything else is a no-op. */
  function SegmentsAfterDestroy(destroyed: seq<bool>, i: int): (r: seq<bool>)
    ensures |r| == |destroyed|
    ensures forall j :: 0 <= j < |r| ==> (r[j] <==> destroyed[j] || (j == i && i < SegmentCount))
  {
    if 0 <= i < SegmentCount && i < |destroyed| && !destroyed[i] then destroyed[i := true] else destroyed
  }

  /** Destroying the same segment twice is the same as destroying it once. */
  lemma DestroySegmentIdempotent(destroyed: seq<bool>, i: int)
    ensures SegmentsAfterDestroy(SegmentsAfterDestroy(destroyed, i), i) == SegmentsAfterDestroy(destroyed, i)
  {
  }

  /** The healths after TakeDamage outside building and preview: the nearest live segment loses `amount`. */
  function DamagedHealth(health: seq<real>, destroyed: seq<bool>, dist: seq<real>, amount: real): seq<real>
    requires |health| == |destroyed| == |dist|
  {
    var k := ClosestLive(dist, destroyed);
    if k == -1 then health else health[k := health[k] - amount]
  }

  /**
   * Damage lowers the health of at most one segment, never a destroyed one,
   * and of none at all once every segment is destroyed.
   */
  lemma DamageHitsOneLiveSegment(health: seq<real>, destroyed: seq<bool>, dist: seq<real>, amount: real)
    requires |health| == |destroyed| == |dist|
    ensures var h := DamagedHealth(health, destroyed, dist, amount);
      && |h| == |health|
      && (forall j :: 0 <= j < |h| && destroyed[j] ==> h[j] == health[j])
      && (forall j, k :: 0 <= j < k < |h| ==> h[j] == health[j] || h[k] == health[k])
      && (AllDown(destroyed) ==> h == health)
  {
    ClosestLiveIsNearest(dist, destroyed);
  }

  /** Tick's build step: the progress rises by DeltaTime / BuildDuration and is capped at 1. */
  function BuildStep(progress: real, delta: real, duration: real): (r: real)
    ensures r <= 1.0
  {
    if duration == 0.0 then 1.0
    else if progress + delta / duration <= 1.0 then progress + delta / duration
    else 1.0
  }

  /** With a non-negative tick and build time the progress never falls, stays within [0, 1], and a zero build time finishes at once. */
  lemma BuildStepRises(progress: real, delta: real, duration: real)
    requires 0.0 <= progress <= 1.0 && delta >= 0.0 && duration >= 0.0
    ensures progress <= BuildStep(progress, delta, duration) <= 1.0
    ensures duration == 0.0 ==> BuildStep(progress, delta, duration) == 1.0
  {
    if duration > 0.0 {
      assert delta / duration >= 0.0;
    }
  }

  class BarrierWallActor {
    /** SegmentHealthArray and SegmentDestroyedArray. */
    const health: array<real>
    const destroyed: array<bool>
    var defaultSegmentHealth: real
    var defaultLifespan: real
    var buildDuration: real
    var previewMode: bool
    var building: bool
    var buildProgress: real
    var lifespanTimerArmed: bool
    /** Destroy() was called on the actor. */
    var actorDestroyed: bool

    ghost predicate Valid()
      reads this
    {
      && health.Length == SegmentCount && destroyed.Length == SegmentCount
      && buildProgress <= 1.0
      && (building ==> !previewMode)
      && (previewMode ==> buildProgress == 1.0)
    }

    /**
     * The wall as spawned and started: every segment at the default health and
     * standing; a wall spawned for real starts building from zero, a preview
     * does not build and shows at full height.
     */
    constructor (segmentHealth: real, duration: real, preview: bool)
      ensures Valid()
      ensures fresh(health) && fresh(destroyed)
      ensures forall i :: 0 <= i < SegmentCount ==> health[i] == segmentHealth && !destroyed[i]
      ensures building == !preview && buildProgress == (if preview then 1.0 else 0.0)
      ensures previewMode == preview && !actorDestroyed && !lifespanTimerArmed
      ensures defaultSegmentHealth == segmentHealth && buildDuration == duration
    {
      health := new real[SegmentCount](_ => segmentHealth);
      destroyed := new bool[SegmentCount](_ => false);
      defaultSegmentHealth := segmentHealth;
      defaultLifespan := 0.0;
      buildDuration := duration;
      previewMode := preview;
      building := !preview;
      buildProgress := if preview then 1.0 else 0.0;
      lifespanTimerArmed := false;
      actorDestroyed := false;
    }

    /** InitializeBarrier: every segment to the new health, and the lifespan timer armed for a real wall with a lifespan. */
    method InitializeBarrier(segmentHealth: real, lifespan: real, buildTime: real)
      requires Valid()
      modifies this`defaultSegmentHealth, this`defaultLifespan, this`buildDuration, this`lifespanTimerArmed, health
      ensures Valid()
      ensures forall i :: 0 <= i < SegmentCount ==> health[i] == segmentHealth
      ensures defaultSegmentHealth == segmentHealth && defaultLifespan == lifespan && buildDuration == buildTime
      ensures lifespanTimerArmed == (old(lifespanTimerArmed) || (lifespan > 0.0 && !previewMode))
    {
      defaultSegmentHealth := segmentHealth;
      defaultLifespan := lifespan;
      buildDuration := buildTime;
      var i := 0;
      while i < health.Length
        invariant 0 <= i <= health.Length
        invariant forall j :: 0 <= j < i ==> health[j] == segmentHealth
        invariant defaultSegmentHealth == segmentHealth && defaultLifespan == lifespan && buildDuration == buildTime
        invariant lifespanTimerArmed == old(lifespanTimerArmed)
      {
        health[i] := segmentHealth;
        i := i + 1;
      }
      if lifespan > 0.0 && !previewMode {
        lifespanTimerArmed := true;
      }
    }

    /** SetPreviewMode: a preview stops building and shows at full height. */
    method SetPreviewMode(preview: bool)
      requires Valid()
      modifies this`previewMode, this`building, this`buildProgress
      ensures Valid() && previewMode == preview
      ensures preview ==> !building && buildProgress == 1.0
      ensures !preview ==> building == old(building) && buildProgress == old(buildProgress)
    {
      previewMode := preview;
      if previewMode {
        building := false;
        buildProgress := 1.0;
      }
    }

    /** Tick: a building wall advances its progress and completes the build on reaching 1. */
    method Tick(delta: real)
      requires Valid()
      modifies this`buildProgress, this`building
      ensures Valid()
      ensures old(building) && !previewMode ==>
        && buildProgress == BuildStep(old(buildProgress), delta, buildDuration)
        && building == (buildProgress < 1.0)
      ensures !(old(building) && !previewMode) ==> buildProgress == old(buildProgress) && building == old(building)
    {
      if building && !previewMode {
        buildProgress := BuildStep(buildProgress, delta, buildDuration);
        if buildProgress >= 1.0 {
          building := false;
        }
      }
    }

    /** The search of TakeDamage for the nearest live segment; -1 when none is left. */
    method FindClosestSegment(dist: seq<real>) returns (closest: int)
      requires Valid() && |dist| == SegmentCount
      ensures closest == ClosestLive(dist, destroyed[..])
      ensures closest == -1 <==> AllDown(destroyed[..])
      ensures closest != -1 ==> IsClosestLive(dist, destroyed[..], closest)
    {
      closest := -1;
      var i := 0;
      while i < SegmentCount
        invariant 0 <= i <= SegmentCount
        invariant closest == ClosestLive(dist[..i], destroyed[..i])
      {
        assert dist[..i + 1][..i] == dist[..i] && destroyed[..i + 1][..i] == destroyed[..i];
        if !destroyed[i] && (closest == -1 || dist[i] < dist[closest]) {
          closest := i;
        }
        i := i + 1;
      }
      assert dist[..i] == dist && destroyed[..i] == destroyed[..];
      ClosestLiveIsNearest(dist, destroyed[..]);
    }

    /** The check at the end of DestroySegment: are all segments down? */
    method AllSegmentsDestroyed() returns (all: bool)
      requires Valid()
      ensures all == AllDown(destroyed[..])
    {
      all := true;
      var i := 0;
      while i < destroyed.Length
        invariant 0 <= i <= destroyed.Length
        invariant all == AllDown(destroyed[..i])
      {
        if !destroyed[i] {
          assert !AllDown(destroyed[..]);
          return false;
        }
        assert destroyed[..i + 1] == destroyed[..i] + [destroyed[i]];
        i := i + 1;
      }
      assert destroyed[..i] == destroyed[..];
    }

    /** DestroyBarrier: the timers are cleared and the actor destroyed. */
    method DestroyBarrier()
      modifies this`lifespanTimerArmed, this`actorDestroyed
      ensures !lifespanTimerArmed && actorDestroyed
    {
      lifespanTimerArmed := false;
      actorDestroyed := true;
    }

    /**
     * DestroySegment: an index in range whose segment stands is marked
     * destroyed, and the wall is destroyed when that was the last one; any
     * other index changes nothing.
     */
    method DestroySegment(i: int)
      requires Valid()
      modifies destroyed, this`lifespanTimerArmed, this`actorDestroyed
      ensures Valid()
      ensures destroyed[..] == SegmentsAfterDestroy(old(destroyed[..]), i)
      ensures var fell := destroyed[..] != old(destroyed[..]);
        && actorDestroyed == (old(actorDestroyed) || (fell && AllDown(destroyed[..])))
        && lifespanTimerArmed == (old(lifespanTimerArmed) && !(fell && AllDown(destroyed[..])))
    {
      if i < 0 || i >= SegmentCount || destroyed[i] {
        return;
      }
      destroyed[i] := true;
      assert destroyed[..] != old(destroyed[..]) by { assert destroyed[..][i] != old(destroyed[..])[i]; }
      var all := AllSegmentsDestroyed();
      if all {
        DestroyBarrier();
      }
    }

    /**
     * TakeDamage: nothing while building or in preview (0 is returned);
     * otherwise the nearest live segment loses `amount`, is destroyed when
     * its health falls to zero or below, and `amount` is returned.
     */
    method TakeDamage(amount: real, dist: seq<real>) returns (applied: real)
      requires Valid() && |dist| == SegmentCount
      modifies health, destroyed, this`lifespanTimerArmed, this`actorDestroyed
      ensures Valid()
      ensures applied == if old(building || previewMode) then 0.0 else amount
      ensures old(building || previewMode) ==>
        && health[..] == old(health[..]) && destroyed[..] == old(destroyed[..])
        && actorDestroyed == old(actorDestroyed) && lifespanTimerArmed == old(lifespanTimerArmed)
      ensures !old(building || previewMode) ==>
        var k := ClosestLive(dist, old(destroyed[..]));
        && health[..] == DamagedHealth(old(health[..]), old(destroyed[..]), dist, amount)
        && destroyed[..] == (if k != -1 && health[k] <= 0.0 then SegmentsAfterDestroy(old(destroyed[..]), k)
                             else old(destroyed[..]))
      ensures !old(building || previewMode) ==>
        var fell := destroyed[..] != old(destroyed[..]);
        && actorDestroyed == (old(actorDestroyed) || (fell && AllDown(destroyed[..])))
        && lifespanTimerArmed == (old(lifespanTimerArmed) && !(fell && AllDown(destroyed[..])))
    {
      if building || previewMode {
        return 0.0;
      }
      var closest := FindClosestSegment(dist);
      if closest >= 0 {
        health[closest] := health[closest] - amount;
        if health[closest] <= 0.0 {
          DestroySegment(closest);
        }
      }
      return amount;
    }
  }
}
