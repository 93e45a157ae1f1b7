/**
 * The few pieces of the particle-transport toolkit that the geometry numbers pass through:
 * its system of units (every length in millimetres, every field in units where one tesla is
 * 0.001) and its three-vector.
 */
module Toolkit {

  const mm: real := 1.0
  const km: real := 1000000.0
  const tesla: real := 0.001
  const radian: real := 1.0
  const kelvin: real := 1.0
  const perCent: real := 0.01
  const m3: real := 1000000000.0
  /** One kilogram in MeV ns^2 / mm^2, as the toolkit defines it. */
  const kg: real := 6241509074.0 * 1000000000000000.0
  const second: real := 1000000000.0

  datatype Vector3 = Vector3(x: real, y: real, z: real)

  /** Every component of `v` multiplied by `k`. */
  function Scale(v: Vector3, k: real): Vector3
  {
    Vector3(v.x * k, v.y * k, v.z * k)
  }
}
