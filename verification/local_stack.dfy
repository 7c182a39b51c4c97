/**
 * The small `MatrixStack` class that each hierarchy chapter file declares for
 * itself: a current matrix `currMat` and the saved matrices `matrices`.  Every
 * transform right-multiplies the current matrix; `push` saves it and `pop`
 * restores the most recently saved one.
 */
module ChapterStack {
  import opened Matrix
  import opened GlMatrix
  import opened Rotations

  class MatrixStack {
    var currMat: Mat4
    var matrices: seq<Mat4>

    /** A new stack: the identity, nothing saved. */
    constructor()
      ensures currMat == Identity && matrices == []
    {
      currMat := Identity;
      matrices := [];
    }

    method Top() returns (m: Mat4)
      ensures m == currMat
    {
      m := currMat;
    }

    method RotateX(math: MathLib, deg: real)
      modifies this
      ensures currMat == Mul(old(currMat), Mat3ToMat4(RotX(math, deg)))
      ensures matrices == old(matrices)
    {
      currMat := Mul(currMat, Mat3ToMat4(RotX(math, deg)));
    }

    method RotateY(math: MathLib, deg: real)
      modifies this
      ensures currMat == Mul(old(currMat), Mat3ToMat4(RotY(math, deg)))
      ensures matrices == old(matrices)
    {
      currMat := Mul(currMat, Mat3ToMat4(RotY(math, deg)));
    }

    method RotateZ(math: MathLib, deg: real)
      modifies this
      ensures currMat == Mul(old(currMat), Mat3ToMat4(RotZ(math, deg)))
      ensures matrices == old(matrices)
    {
      currMat := Mul(currMat, Mat3ToMat4(RotZ(math, deg)));
    }

    /** Right-multiply by the identity with `v` on the diagonal elements 0, 5 and 10. */
    method Scale(v: Vec3)
      modifies this
      ensures currMat == Mul(old(currMat), Scaling(v))
      ensures matrices == old(matrices)
    {
      currMat := Mul(currMat, Scaling(v));
    }

    /** Right-multiply by the identity with `v` in elements 12, 13 and 14. */
    method Translate(v: Vec3)
      modifies this
      ensures currMat == Mul(old(currMat), Translation(v))
      ensures matrices == old(matrices)
    {
      currMat := Mul(currMat, Translation(v));
    }

    method Push()
      modifies this
      ensures matrices == old(matrices) + [old(currMat)]
      ensures currMat == old(currMat)
    {
      matrices := matrices + [currMat];
    }

    /** Restore the most recently saved matrix; popping an empty stack fails an assertion in the source. */
    method Pop()
      requires |matrices| > 0
      modifies this
      ensures currMat == old(matrices[|matrices| - 1])
      ensures matrices == old(matrices[..|matrices| - 1])
    {
      currMat := matrices[|matrices| - 1];
      matrices := matrices[..|matrices| - 1];
    }
  }
}
