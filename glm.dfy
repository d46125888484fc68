/** The small part of GLM and the C math library that the camera touches:
    3-vectors over the reals, their arithmetic, and the numerics the camera
    cannot see into. Floating-point rounding is not modelled: every scalar is
    a `real`. */
module Glm {

  /** A `glm::vec3`. */
  datatype Vec3 = Vec3(x: real, y: real, z: real)

  const Zero := Vec3(0.0, 0.0, 0.0)

  /** `u + v` */
  function Add(u: Vec3, v: Vec3): Vec3 {
    Vec3(u.x + v.x, u.y + v.y, u.z + v.z)
  }

  /** `u - v` */
  function Sub(u: Vec3, v: Vec3): Vec3 {
    Vec3(u.x - v.x, u.y - v.y, u.z - v.z)
  }

  /** `k * v` (and `v * k`, which GLM defines to be the same) */
  function Scale(k: real, v: Vec3): Vec3 {
    Vec3(k * v.x, k * v.y, k * v.z)
  }

  /** `glm::cross(u, v)`, the right-handed cross product, computed exactly. */
  function Cross(u: Vec3, v: Vec3): Vec3 {
    Vec3(u.y * v.z - u.z * v.y, u.z * v.x - u.x * v.z, u.x * v.y - u.y * v.x)
  }

  /** `glm::dot(u, v)` */
  function Dot(u: Vec3, v: Vec3): real {
    u.x * v.x + u.y * v.y + u.z * v.z
  }

  /** The cross product is perpendicular to both of its operands. */
  lemma CrossOrthogonal(u: Vec3, v: Vec3)
    ensures Dot(Cross(u, v), u) == 0.0 && Dot(Cross(u, v), v) == 0.0
  {
  }

  /** The floating-point library numerics the camera calls: `cos`, `sin`,
      `glm::radians` and `glm::normalize`. They are left uninterpreted: any
      total functions of these signatures will do, so nothing proved here
      depends on what they compute (in particular not on unit length). */
  datatype Numerics = Numerics(
    cos: real -> real,
    sin: real -> real,
    radians: real -> real,
    normalize: Vec3 -> Vec3)
}
