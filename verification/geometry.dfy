/** Engine vectors as values: FVector and FVector2D with real coordinates. */
module Geometry {
  datatype Vec3 = Vec3(x: real, y: real, z: real)
  datatype Vec2 = Vec2(x: real, y: real)

  const Zero3: Vec3 := Vec3(0.0, 0.0, 0.0)
  const Zero2: Vec2 := Vec2(0.0, 0.0)

  /** FVector::IsZero: every coordinate is exactly zero. */
  predicate IsZero(v: Vec3)
  {
    v.x == 0.0 && v.y == 0.0 && v.z == 0.0
  }
}
