/** Small value types shared by the components of the interview simulator. */
module Common {

  /** A value that may be absent: a C# `null` reference, or a raycast that hit nothing. */
  datatype Option<+T> = None | Some(value: T)

  /** Unity's `Vector3`, with exact real components instead of single-precision floats. */
  datatype Vec3 = Vec3(x: real, y: real, z: real)

  /** `Vector3.zero`. */
  const Zero: Vec3 := Vec3(0.0, 0.0, 0.0)

  /** Sum of a sequence of frame times. */
  function TotalTime(dts: seq<real>): real
  {
    if dts == [] then 0.0 else dts[0] + TotalTime(dts[1..])
  }
}
