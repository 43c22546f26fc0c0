/**
 * Three-component vectors of the game's coordinate space. The source uses single-precision
 * floats; here the components are exact reals, so rounding is not modelled.
 */
module Vectors {

  datatype Vector3 = Vector3(x: real, y: real, z: real)

  const Origin := Vector3(0.0, 0.0, 0.0)

  /** The component-wise `+` of the game's vector type. */
  function Add(a: Vector3, b: Vector3): Vector3
  {
    Vector3(a.x + b.x, a.y + b.y, a.z + b.z)
  }

  /** The component-wise `-` of the game's vector type. */
  function Sub(a: Vector3, b: Vector3): Vector3
  {
    Vector3(a.x - b.x, a.y - b.y, a.z - b.z)
  }
}
