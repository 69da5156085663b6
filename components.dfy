/**
 * The two component kinds of the entity store (src/components.rs) and the
 * vector arithmetic they need. The program's vectors are `Vector3<f32>`;
 * here they are exact reals, so no rounding is modelled.
 */
module Components {

  datatype Vec3 = Vec3(x: real, y: real, z: real)

  function Add(a: Vec3, b: Vec3): Vec3 {
    Vec3(a.x + b.x, a.y + b.y, a.z + b.z)
  }

  function Sub(a: Vec3, b: Vec3): Vec3 {
    Vec3(a.x - b.x, a.y - b.y, a.z - b.z)
  }

  function Scale(a: Vec3, f: real): Vec3 {
    Vec3(f * a.x, f * a.y, f * a.z)
  }

  /** Squared Euclidean length; the program takes its square root (`magnitude`). */
  function SqNorm(a: Vec3): real {
    a.x * a.x + a.y * a.y + a.z * a.z
  }

  /**
   * cgmath's `from.lerp(to, amount)`: `from + (to - from) * amount`.
   * Its offset from `from` is the scaled difference, so amount 0 stays at
   * `from` and amount 1 reaches `to`.
   */
  function Lerp(from: Vec3, to: Vec3, amount: real): (r: Vec3)
    ensures Sub(r, from) == Scale(Sub(to, from), amount)
    ensures amount == 0.0 ==> r == from
    ensures amount == 1.0 ==> r == to
  {
    Add(from, Scale(Sub(to, from), amount))
  }

  /** Position component: where an entity is. */
  datatype Pos = Pos(v: Vec3)

  /** Movement target component: where the entity goes, and how far it goes per frame. */
  datatype MoveTo = MoveTo(target: Vec3, step: real)
}
