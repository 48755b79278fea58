/**
 * The few pieces of engine arithmetic the guard and the player controller rely on,
 * over mathematical reals (single-precision rounding is not modelled).
 */
module UnityMath {

  /** A point or direction in world space. */
  datatype Vector3 = Vector3(x: real, y: real, z: real)

  /** Square of the Euclidean distance between two points. */
  function SqrDistance(a: Vector3, b: Vector3): (d: real)
    ensures d >= 0.0
    ensures a == b ==> d == 0.0
  {
    var dx, dy, dz := a.x - b.x, a.y - b.y, a.z - b.z;
    assert dx * dx >= 0.0 && dy * dy >= 0.0 && dz * dz >= 0.0;
    dx * dx + dy * dy + dz * dz
  }

  /**
   * `Vector3.Distance(a, b) < limit`, decided without a square root: for a
   * non-negative distance d, d < limit holds exactly when limit is positive and
   * d * d < limit * limit.
   */
  predicate DistanceBelow(a: Vector3, b: Vector3, limit: real)
  {
    limit > 0.0 && SqrDistance(a, b) < limit * limit
  }

  /**
   * Unity's `Mathf.Clamp(value, min, max)`: a value below `min` becomes `min`,
   * otherwise a value above `max` becomes `max`. The result lies in the range
   * whenever the range is not empty, and a value already in range is kept.
   */
  function Clamp(value: real, min: real, max: real): (r: real)
    ensures min <= max ==> min <= r <= max
    ensures value < min ==> r == min
    ensures min <= value && value > max ==> r == max
    ensures min <= value <= max ==> r == value
  {
    if value < min then min else if value > max then max else value
  }

  /** The smaller of two reals. */
  function Min(a: real, b: real): (m: real)
    ensures m <= a && m <= b && (m == a || m == b)
  {
    if a <= b then a else b
  }

  /** The larger of two reals. */
  function Max(a: real, b: real): (m: real)
    ensures m >= a && m >= b && (m == a || m == b)
  {
    if a >= b then a else b
  }
}
