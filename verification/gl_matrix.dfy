/**
 * `mat3ToMat4` from the gl-matrix helpers: the 4x4 matrix that applies a 3x3 linear
 * map to the x, y, z part of a point and leaves the homogeneous part alone.
 */
module GlMatrix {
  import opened Matrix

  /** A gl-matrix `mat3`, column-major: element `3 * col + row`. */
  datatype Mat3 = Mat3(c0: Vec3, c1: Vec3, c2: Vec3)

  function Component3(v: Vec3, row: int): real
    requires 0 <= row < 3
  {
    if row == 0 then v.x else if row == 1 then v.y else v.z
  }

  function Entry3(m: Mat3, i: int): real
    requires 0 <= i < 9
  {
    Component3(Column3(m, i / 3), i % 3)
  }

  function Column3(m: Mat3, col: int): Vec3
    requires 0 <= col < 3
  {
    if col == 0 then m.c0 else if col == 1 then m.c1 else m.c2
  }

  /** `mat3.create()`. */
  const Identity3: Mat3 := Mat3(Vec3(1.0, 0.0, 0.0), Vec3(0.0, 1.0, 0.0), Vec3(0.0, 0.0, 1.0))

  function Embed(v: Vec3): Vec4 { Vec4(v.x, v.y, v.z, 0.0) }

  /** `mat3ToMat4(m3)`: the columns of `m3` above a zero row, and the homogeneous unit column. */
  function Mat3ToMat4(m3: Mat3): Mat4
  {
    Mat4(Embed(m3.c0), Embed(m3.c1), Embed(m3.c2), Vec4(0.0, 0.0, 0.0, 1.0))
  }

  /**
   * Elements 0-2, 4-6 and 8-10 are the three columns of `m3`; elements 3, 7, 11,
   * 12, 13 and 14 are 0 and element 15 is 1.
   */
  lemma Mat3ToMat4Layout(m3: Mat3)
    ensures var r := Mat3ToMat4(m3);
      Entry(r, 0) == Entry3(m3, 0) && Entry(r, 1) == Entry3(m3, 1) && Entry(r, 2) == Entry3(m3, 2) &&
      Entry(r, 4) == Entry3(m3, 3) && Entry(r, 5) == Entry3(m3, 4) && Entry(r, 6) == Entry3(m3, 5) &&
      Entry(r, 8) == Entry3(m3, 6) && Entry(r, 9) == Entry3(m3, 7) && Entry(r, 10) == Entry3(m3, 8) &&
      Entry(r, 3) == 0.0 && Entry(r, 7) == 0.0 && Entry(r, 11) == 0.0 &&
      Entry(r, 12) == 0.0 && Entry(r, 13) == 0.0 && Entry(r, 14) == 0.0 && Entry(r, 15) == 1.0
  {
  }

  /** The 3x3 identity becomes the 4x4 identity. */
  lemma Mat3ToMat4Identity()
    ensures Mat3ToMat4(Identity3) == Identity
  {
  }

  /** The embedded map fixes the origin: it has no translation part. */
  lemma Mat3ToMat4FixesOrigin(m3: Mat3)
    ensures Apply(Mat3ToMat4(m3), Point(Vec3(0.0, 0.0, 0.0))) == Point(Vec3(0.0, 0.0, 0.0))
  {
  }
}
