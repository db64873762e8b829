/** Shared value types: engine vectors and rotations, and the Option/Result
    wrappers used for lookups that may find nothing and spawns that may fail. */
module Common {

  /** A point in world space; the engine's single-precision floats become reals. */
  datatype Vec3 = Vec3(x: real, y: real, z: real)

  /** A prototype's default orientation. It is only ever copied, never computed. */
  datatype Rotation = Rotation(w: real, x: real, y: real, z: real)

  datatype Option<+T> = None | Some(value: T)

  datatype Result<+R, +E> = Success(value: R) | Failure(error: E)

  /** The values an integer draw `Random.Range(0, n)` may return: a value in
      [0, n) when the range is non-empty, and the lower bound 0 otherwise. */
  predicate IndexDraw(i: int, n: int)
  {
    if n > 0 then 0 <= i < n else i == 0
  }

  /** The values a float draw `Random.Range(a, b)` may return: both ends are
      inclusive, and the bounds may come in either order. */
  predicate Between(v: real, a: real, b: real)
  {
    (a <= v <= b) || (b <= v <= a)
  }
}
