/** glm::vec3 with its single-precision components idealised as reals. */
module Vectors {

  /** A three-component vector; as a colour, x, y and z stand for r, g and b. */
  datatype Vec3 = Vec3(x: real, y: real, z: real) {

    /** Component-wise `+`. */
    function Plus(v: Vec3): Vec3
    {
      Vec3(x + v.x, y + v.y, z + v.z)
    }

    /** `v * s` for a scalar s. */
    function Scale(s: real): Vec3
    {
      Vec3(x * s, y * s, z * s)
    }

    /** `v / s` for a non-zero scalar s. */
    function Div(s: real): Vec3
      requires s != 0.0
    {
      Vec3(x / s, y / s, z / s)
    }
  }
}
