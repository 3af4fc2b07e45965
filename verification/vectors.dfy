/** Three-component vectors (`float3`), with `real` standing in for `float`. */
module Vectors {

  datatype Vec3 = Vec3(x: real, y: real, z: real) {

    function Add(o: Vec3): Vec3 {
      Vec3(x + o.x, y + o.y, z + o.z)
    }

    function Sub(o: Vec3): Vec3 {
      Vec3(x - o.x, y - o.y, z - o.z)
    }

    function Neg(): Vec3 {
      Vec3(-x, -y, -z)
    }

    /** Multiplication by a scalar. */
    function Scale(k: real): Vec3 {
      Vec3(k * x, k * y, k * z)
    }

    /** Component-wise product, as `float3 * float3`. */
    function Mul(o: Vec3): Vec3 {
      Vec3(x * o.x, y * o.y, z * o.z)
    }

    function Dot(o: Vec3): real {
      x * o.x + y * o.y + z * o.z
    }
  }

  const Zero: Vec3 := Vec3(0.0, 0.0, 0.0)
}
