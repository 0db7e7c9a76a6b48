/**
 * Sage's barrier orb (Sage C): the designer defaults of the ability and the
 * arithmetic of rotating the placement preview.
 *
 * Rotation is kept in whole degrees: the step is 15 and every value the
 * ability produces is an integer number of degrees, so the float arithmetic
 * of the engine is exact on it.
 */
module BarrierOrb {
  /** Degrees per rotation input. */
  const RotationStep: int := 15
  /** Health of each segment of a placed wall. */
  const BarrierHealth: real := 800.0
  /** Seconds a placed wall lives. */
  const BarrierLifespan: real := 40.0
  /** Seconds a placed wall takes to build. */
  const BarrierBuildTime: real := 2.0

  /**
   * FMath::Fmod on whole numbers: the remainder of a truncating division, so
   * it takes the sign of the dividend (Dafny's `%` is Euclidean instead).
   */
  function FMod(x: int, m: int): (r: int)
    requires m > 0
    ensures x >= 0 ==> 0 <= r < m
    ensures x < 0 ==> -m < r <= 0
  {
    if x >= 0 then x % m else -((-x) % m)
  }

  /** RotateBarrier: add or subtract one step, then fold into a turn with Fmod(r + 360, 360). */
  function RotatedBarrier(rotation: int, clockwise: bool): int
  {
    var turned := if clockwise then rotation + RotationStep else rotation - RotationStep;
    FMod(turned + 360, 360)
  }

  /** A rotation in [0, 360) stays in [0, 360) and stays on the 15-degree grid. */
  lemma RotationStaysInTurn(rotation: int, clockwise: bool)
    requires 0 <= rotation < 360
    ensures 0 <= RotatedBarrier(rotation, clockwise) < 360
    ensures rotation % RotationStep == 0 ==> RotatedBarrier(rotation, clockwise) % RotationStep == 0
  {
    var x := (if clockwise then rotation + RotationStep else rotation - RotationStep) + 360;
    ModOfOneOrTwoTurns(x);
  }

  /** A clockwise step followed by a counter-clockwise step (or the reverse) restores the rotation. */
  lemma RotationRoundTrip(rotation: int, clockwise: bool)
    requires 0 <= rotation < 360
    ensures RotatedBarrier(RotatedBarrier(rotation, clockwise), !clockwise) == rotation
  {
    var x := (if clockwise then rotation + RotationStep else rotation - RotationStep) + 360;
    ModOfOneOrTwoTurns(x);
    var once := RotatedBarrier(rotation, clockwise);
    var y := (if !clockwise then once + RotationStep else once - RotationStep) + 360;
    ModOfOneOrTwoTurns(y);
  }

  /** x mod 360 for 0 <= x < 1080, and the 15-degree grid survives it. */
  lemma ModOfOneOrTwoTurns(x: int)
    requires 0 <= x < 1080
    ensures x % 360 == if x < 360 then x else if x < 720 then x - 360 else x - 720
    ensures x % 15 == 0 ==> (x % 360) % 15 == 0
  {
    var q := if x < 360 then 0 else if x < 720 then 1 else 2;
    assert x == q * 360 + (x - q * 360) && 0 <= x - q * 360 < 360;
  }
}
