/** Three- and two-component vectors over the reals, standing for Rust's `[f32; 3]` and `[f32; 2]`. */
module Vectors {

  datatype Vec3 = Vec3(x: real, y: real, z: real)

  datatype Vec2 = Vec2(u: real, v: real)

  function Add(a: Vec3, b: Vec3): Vec3 {
    Vec3(a.x + b.x, a.y + b.y, a.z + b.z)
  }

  function Sub(a: Vec3, b: Vec3): Vec3 {
    Vec3(a.x - b.x, a.y - b.y, a.z - b.z)
  }

  function Scale(a: Vec3, k: real): Vec3 {
    Vec3(a.x * k, a.y * k, a.z * k)
  }

  function Dot(a: Vec3, b: Vec3): real {
    a.x * b.x + a.y * b.y + a.z * b.z
  }

  /** `cross_product`: the vector product. */
  function Cross(a: Vec3, b: Vec3): Vec3 {
    Vec3(a.y * b.z - a.z * b.y,
         a.z * b.x - a.x * b.z,
         a.x * b.y - a.y * b.x)
  }

  /** The vector product is orthogonal to both of its arguments. */
  lemma CrossOrthogonal(a: Vec3, b: Vec3)
    ensures Dot(Cross(a, b), a) == 0.0 && Dot(Cross(a, b), b) == 0.0
  {
  }

  /** Facing +z with +y up, the vector product points along -x. */
  lemma CrossOfDefaultBasis(d: Vec3, u: Vec3)
    requires d == Vec3(0.0, 0.0, 1.0) && u == Vec3(0.0, 1.0, 0.0)
    ensures Cross(d, u) == Vec3(-1.0, 0.0, 0.0)
  {
  }

  /** Swapping the arguments of `cross_product` negates the result. */
  lemma CrossAntiCommutes(a: Vec3, b: Vec3)
    ensures Cross(b, a) == Scale(Cross(a, b), -1.0)
  {
  }
}
