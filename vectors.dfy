/**
 * Immutable vectors with exact real components. They stand for the `Vector`
 * values of Ruby's matrix library that the particle system uses for
 * positions, velocities, accelerations (two components) and colours (three).
 */
module Vectors {

  /** A two-dimensional vector: `Vector[x, y]`. */
  datatype Vec2 = Vec2(x: real, y: real) {

    /** `self + other`, component by component. */
    function Plus(other: Vec2): Vec2 {
      Vec2(x + other.x, y + other.y)
    }

    /** `self * k` for a scalar `k`. */
    function Scale(k: real): Vec2 {
      Vec2(x * k, y * k)
    }
  }

  /** A three-dimensional vector: `Vector[r, g, b]`, used for colours. */
  datatype Vec3 = Vec3(x: real, y: real, z: real) {

    function Plus(other: Vec3): Vec3 {
      Vec3(x + other.x, y + other.y, z + other.z)
    }

    function Scale(k: real): Vec3 {
      Vec3(x * k, y * k, z * k)
    }
  }

  const Zero2: Vec2 := Vec2(0.0, 0.0)
}
