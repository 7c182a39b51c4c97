/**
 * The value-returning matrix helpers of the by-value hierarchy variant:
 * `translate(matrix, offsetVec)`, `scale(matrix, scaleVec)` and
 * `rotateX/Y/Z(matrix, angDeg)` each build the elementary matrix and return
 * `matrix * M` as a new matrix, leaving `matrix` itself alone.  The hand-unrolled
 * arm drawing is written with the same helpers.
 */
module Transforms {
  import opened Matrix
  import opened GlMatrix
  import opened Rotations

  function Translate(m: Mat4, v: Vec3): Mat4 { Mul(m, Translation(v)) }

  function ScaleBy(m: Mat4, v: Vec3): Mat4 { Mul(m, Scaling(v)) }

  function RotateX(math: MathLib, m: Mat4, deg: real): Mat4 { Mul(m, Mat3ToMat4(RotX(math, deg))) }

  function RotateY(math: MathLib, m: Mat4, deg: real): Mat4 { Mul(m, Mat3ToMat4(RotY(math, deg))) }

  function RotateZ(math: MathLib, m: Mat4, deg: real): Mat4 { Mul(m, Mat3ToMat4(RotZ(math, deg))) }

  /** A translation keeps the three axes of the frame and moves its origin to where `m` maps the offset. */
  lemma TranslateMovesTheOrigin(m: Mat4, v: Vec3)
    ensures Translate(m, v) == Mat4(m.c0, m.c1, m.c2, Apply(m, Point(v)))
  {
    ApplyUnit(m);
  }

  /** A scaling stretches each axis of the frame by its factor and keeps the origin. */
  lemma ScaleByStretchesTheAxes(m: Mat4, v: Vec3)
    ensures ScaleBy(m, v) == Mat4(Scale(v.x, m.c0), Scale(v.y, m.c1), Scale(v.z, m.c2), m.c3)
  {
    ApplyUnit(m);
  }

  /** A rotation about X keeps the x axis and the origin and turns the y and z axes into each other. */
  lemma RotateXTurnsYAndZ(math: MathLib, m: Mat4, deg: real)
    ensures var c, s := Cos(math, deg), Sin(math, deg);
      RotateX(math, m, deg) == Mat4(m.c0, Add(Scale(c, m.c1), Scale(s, m.c2)), Add(Scale(-s, m.c1), Scale(c, m.c2)), m.c3)
  {
    ApplyUnit(m);
  }

  /** A rotation about Y keeps the y axis and the origin and turns the z and x axes into each other. */
  lemma RotateYTurnsZAndX(math: MathLib, m: Mat4, deg: real)
    ensures var c, s := Cos(math, deg), Sin(math, deg);
      RotateY(math, m, deg) == Mat4(Add(Scale(c, m.c0), Scale(-s, m.c2)), m.c1, Add(Scale(s, m.c0), Scale(c, m.c2)), m.c3)
  {
    ApplyUnit(m);
  }

  /** A rotation about Z keeps the z axis and the origin and turns the x and y axes into each other. */
  lemma RotateZTurnsXAndY(math: MathLib, m: Mat4, deg: real)
    ensures var c, s := Cos(math, deg), Sin(math, deg);
      RotateZ(math, m, deg) == Mat4(Add(Scale(c, m.c0), Scale(s, m.c1)), Add(Scale(-s, m.c0), Scale(c, m.c1)), m.c2, m.c3)
  {
    ApplyUnit(m);
  }
}
