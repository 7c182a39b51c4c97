/**
 * The shared `MatrixStack` of the glutil library: a current matrix `currMatrix`
 * and a stack of preserved matrices.  Every transform right-multiplies the
 * current matrix by a transformation matrix; `push` preserves the current matrix,
 * `pop` restores the most recently preserved one and `reset` copies it back
 * without changing the depth.
 */
module Glutil {
  import opened Wrappers
  import opened Matrix
  import opened GlMatrix
  import opened Rotations

  /** Squared length of a vector. */
  function Length2(v: Vec3): real { v.x * v.x + v.y * v.y + v.z * v.z }

  /**
   * `vec3.normalize`: the vector scaled by one over its length; a zero vector
   * stays zero.  A square root that comes back 0 for a positive argument is
   * treated like a zero vector, so the division is always defined.
   */
  function Normalize(math: MathLib, v: Vec3): (r: Vec3)
    ensures Length2(v) == 0.0 ==> r == Vec3(0.0, 0.0, 0.0)
  {
    var l2 := Length2(v);
    var k := if l2 > 0.0 && math.sqrt(l2) != 0.0 then 1.0 / math.sqrt(l2) else 0.0;
    Vec3(v.x * k, v.y * k, v.z * k)
  }

  /** A diagonal element of the rotation about a unit axis: `u * u + (1 - u * u) * cos`. */
  function Diagonal(u: real, c: real): real { u * u + (1.0 - u * u) * c }

  /** An off-diagonal element: `u * v * (1 - cos)` plus a signed sine term `k`. */
  function Skew(u: real, v: real, c: real, k: real): real { u * v * (1.0 - c) + k }

  /**
   * The matrix `rotateRadians` fills in for a unit axis `a`, the cosine `c` and the
   * sine `s` of the angle, column by column, with the identity's last row and column.
   */
  function AxisRotation(a: Vec3, c: real, s: real): Mat4
  {
    Mat4(
      Vec4(Diagonal(a.x, c), Skew(a.x, a.y, c, a.z * s), Skew(a.x, a.z, c, -(a.y * s)), 0.0),
      Vec4(Skew(a.y, a.x, c, -(a.z * s)), Diagonal(a.y, c), Skew(a.y, a.z, c, a.x * s), 0.0),
      Vec4(Skew(a.z, a.x, c, a.y * s), Skew(a.z, a.y, c, -(a.x * s)), Diagonal(a.z, c), 0.0),
      Vec4(0.0, 0.0, 0.0, 1.0))
  }

  /**
   * Whether the library's `mat4.rotate` right-multiplies by the same matrix that
   * `rotateRadians` builds, for every axis that is not the zero vector.
   */
  ghost predicate RotatesLikeRotateRadians(math: MathLib)
  {
    forall axis: Vec3, rad: real ::
      Length2(axis) > 0.0 ==>
      math.axisRotation(axis, rad) == AxisRotation(Normalize(math, axis), math.cos(rad), math.sin(rad))
  }

  /** The offset `pixelPerfectOrtho` translates by: the corner of clip space and the middle of the depth range. */
  function PixelOrthoOffset(depthRange: Vec2, isTopLeft: bool): Vec3
  {
    Vec3(-1.0, if isTopLeft then 1.0 else -1.0, (depthRange.x + depthRange.y) / 2.0)
  }

  /** The factors `pixelPerfectOrtho` scales by: two over the window size, y flipped for a top-left origin. */
  function PixelOrthoFactors(size: Vec2, depthRange: Vec2, isTopLeft: bool): Vec3
    requires size.x != 0.0 && size.y != 0.0
    requires !isTopLeft ==> depthRange.y != depthRange.x
  {
    if isTopLeft then Vec3(2.0 / size.x, -2.0 / size.y, 1.0)
    else Vec3(2.0 / size.x, 2.0 / size.y, 2.0 / (depthRange.y - depthRange.x))
  }

  /** The matrix `pixelPerfectOrtho` right-multiplies by: the translation, then the scaling. */
  function PixelOrtho(size: Vec2, depthRange: Vec2, isTopLeft: bool): Mat4
    requires size.x != 0.0 && size.y != 0.0
    requires !isTopLeft ==> depthRange.y != depthRange.x
  {
    Mul(Translation(PixelOrthoOffset(depthRange, isTopLeft)), Scaling(PixelOrthoFactors(size, depthRange, isTopLeft)))
  }

  class MatrixStack {
    var currMatrix: Mat4
    var stack: seq<Mat4>

    /** The given matrix, or the identity when none is given; nothing preserved. */
    constructor(initialMatrix: Option<Mat4>)
      ensures currMatrix == (if initialMatrix.Some? then initialMatrix.value else Identity)
      ensures stack == []
    {
      currMatrix := Identity;
      stack := [];
      if initialMatrix.Some? {
        currMatrix := initialMatrix.value;
      }
    }

    /** Preserve the current matrix on the stack. */
    method Push()
      modifies this
      ensures stack == old(stack) + [old(currMatrix)]
      ensures currMatrix == old(currMatrix)
    {
      stack := stack + [currMatrix];
    }

    /** Restore the most recently preserved matrix and drop it from the stack. */
    method Pop()
      requires |stack| > 0
      modifies this
      ensures currMatrix == old(stack[|stack| - 1])
      ensures stack == old(stack[..|stack| - 1])
    {
      currMatrix := stack[|stack| - 1];
      stack := stack[..|stack| - 1];
    }

    /** Copy the most recently preserved matrix back; the depth stays the same. */
    method Reset()
      requires |stack| > 0
      modifies this
      ensures stack == old(stack)
      ensures currMatrix == stack[|stack| - 1]
    {
      currMatrix := stack[|stack| - 1];
    }

    method Top() returns (m: Mat4)
      ensures m == currMatrix
    {
      m := currMatrix;
    }

    /** Rotate about `axis` by `angDegCCW` degrees, through the library's `mat4.rotate`. */
    method Rotate(math: MathLib, axis: Vec3, angDegCCW: real)
      modifies this
      ensures currMatrix == Mul(old(currMatrix), math.axisRotation(axis, DegToRad(math, angDegCCW)))
      ensures stack == old(stack)
    {
      currMatrix := Mul(currMatrix, math.axisRotation(axis, DegToRad(math, angDegCCW)));
    }

    /** Rotate about the normalised `axisOfRotation` by `angRadCCW` radians, with the matrix built here. */
    method RotateRadians(math: MathLib, axisOfRotation: Vec3, angRadCCW: real)
      modifies this
      ensures currMatrix ==
        Mul(old(currMatrix), AxisRotation(Normalize(math, axisOfRotation), math.cos(angRadCCW), math.sin(angRadCCW)))
      ensures stack == old(stack)
    {
      var cos := math.cos(angRadCCW);
      var sin := math.sin(angRadCCW);
      var axis := Normalize(math, axisOfRotation);
      var theMat := AxisRotation(axis, cos, sin);
      currMatrix := Mul(currMatrix, theMat);
    }

    method RotateX(math: MathLib, angDegCCW: real)
      modifies this
      ensures currMatrix == Mul(old(currMatrix), math.axisRotation(Vec3(1.0, 0.0, 0.0), DegToRad(math, angDegCCW)))
      ensures stack == old(stack)
    {
      Rotate(math, Vec3(1.0, 0.0, 0.0), angDegCCW);
    }

    method RotateY(math: MathLib, angDegCCW: real)
      modifies this
      ensures currMatrix == Mul(old(currMatrix), math.axisRotation(Vec3(0.0, 1.0, 0.0), DegToRad(math, angDegCCW)))
      ensures stack == old(stack)
    {
      Rotate(math, Vec3(0.0, 1.0, 0.0), angDegCCW);
    }

    method RotateZ(math: MathLib, angDegCCW: real)
      modifies this
      ensures currMatrix == Mul(old(currMatrix), math.axisRotation(Vec3(0.0, 0.0, 1.0), DegToRad(math, angDegCCW)))
      ensures stack == old(stack)
    {
      Rotate(math, Vec3(0.0, 0.0, 1.0), angDegCCW);
    }

    /** `scale(scaleVec)`: right-multiply by `mat4.scale`'s diagonal matrix. */
    method Scale(scaleVec: Vec3)
      modifies this
      ensures currMatrix == Mul(old(currMatrix), Scaling(scaleVec))
      ensures stack == old(stack)
    {
      currMatrix := Mul(currMatrix, Scaling(scaleVec));
    }

    /** `scale(scaleX, scaleY, scaleZ)`. */
    method ScaleXYZ(scaleX: real, scaleY: real, scaleZ: real)
      modifies this
      ensures currMatrix == Mul(old(currMatrix), Scaling(Vec3(scaleX, scaleY, scaleZ)))
      ensures stack == old(stack)
    {
      Scale(Vec3(scaleX, scaleY, scaleZ));
    }

    /** `scale(uniformScale)`: the same factor on all three axes. */
    method ScaleUniform(uniformScale: real)
      modifies this
      ensures currMatrix == Mul(old(currMatrix), Scaling(Vec3(uniformScale, uniformScale, uniformScale)))
      ensures stack == old(stack)
    {
      Scale(Vec3(uniformScale, uniformScale, uniformScale));
    }

    /** `translate(offsetVec)`: right-multiply by `mat4.translate`'s translation matrix. */
    method Translate(offsetVec: Vec3)
      modifies this
      ensures currMatrix == Mul(old(currMatrix), Translation(offsetVec))
      ensures stack == old(stack)
    {
      currMatrix := Mul(currMatrix, Translation(offsetVec));
    }

    /** `translate(transX, transY, transZ)`. */
    method TranslateXYZ(transX: real, transY: real, transZ: real)
      modifies this
      ensures currMatrix == Mul(old(currMatrix), Translation(Vec3(transX, transY, transZ)))
      ensures stack == old(stack)
    {
      Translate(Vec3(transX, transY, transZ));
    }

    /** Window coordinates to clip space, with the origin at the top-left or the bottom-left corner. */
    method PixelPerfectOrtho(size: Vec2, depthRange: Vec2, isTopLeft: bool)
      requires size.x != 0.0 && size.y != 0.0
      requires !isTopLeft ==> depthRange.y != depthRange.x
      modifies this
      ensures currMatrix == Mul(old(currMatrix), PixelOrtho(size, depthRange, isTopLeft))
      ensures stack == old(stack)
    {
      var mid := (depthRange.x + depthRange.y) / 2.0;
      if isTopLeft {
        TranslateXYZ(-1.0, 1.0, mid);
        ScaleXYZ(2.0 / size.x, -2.0 / size.y, 1.0);
      } else {
        TranslateXYZ(-1.0, -1.0, mid);
        ScaleXYZ(2.0 / size.x, 2.0 / size.y, 2.0 / (depthRange.y - depthRange.x));
      }
      MulAssoc(old(currMatrix), Translation(PixelOrthoOffset(depthRange, isTopLeft)),
               Scaling(PixelOrthoFactors(size, depthRange, isTopLeft)));
    }

    /** Right-multiply by a matrix the caller supplies. */
    method ApplyMatrix(theMatrix: Mat4)
      modifies this
      ensures currMatrix == Mul(old(currMatrix), theMatrix)
      ensures stack == old(stack)
    {
      currMatrix := Mul(currMatrix, theMatrix);
    }

    /** Replace the current matrix; preserved matrices are unaffected. */
    method SetMatrix(theMatrix: Mat4)
      modifies this
      ensures currMatrix == theMatrix
      ensures stack == old(stack)
    {
      currMatrix := theMatrix;
    }

    method SetIdentity()
      modifies this
      ensures currMatrix == Identity
      ensures stack == old(stack)
    {
      currMatrix := Identity;
    }
  }

  /** A vector of unit length is left alone by normalising, when the square root of 1 is 1. */
  lemma NormalizeKeepsUnitVector(math: MathLib, v: Vec3)
    requires Length2(v) == 1.0 && math.sqrt(1.0) == 1.0
    ensures Normalize(math, v) == v
  {
    assert 1.0 / math.sqrt(Length2(v)) == 1.0;
  }

  /**
   * About the x axis, the matrix `rotateRadians` builds is the chapter's `rotateX`
   * matrix for the same angle (given that the square root of 1 is 1, so that
   * normalising the axis leaves it alone).
   */
  lemma AxisRotationAboutX(math: MathLib, deg: real)
    requires math.sqrt(1.0) == 1.0
    ensures AxisRotation(Normalize(math, Vec3(1.0, 0.0, 0.0)), Cos(math, deg), Sin(math, deg)) == Mat3ToMat4(RotX(math, deg))
  {
    NormalizeKeepsUnitVector(math, Vec3(1.0, 0.0, 0.0));
  }

  /** About the y axis, `rotateRadians` builds the chapter's `rotateY` matrix. */
  lemma AxisRotationAboutY(math: MathLib, deg: real)
    requires math.sqrt(1.0) == 1.0
    ensures AxisRotation(Normalize(math, Vec3(0.0, 1.0, 0.0)), Cos(math, deg), Sin(math, deg)) == Mat3ToMat4(RotY(math, deg))
  {
    NormalizeKeepsUnitVector(math, Vec3(0.0, 1.0, 0.0));
  }

  /** About the z axis, `rotateRadians` builds the chapter's `rotateZ` matrix. */
  lemma AxisRotationAboutZ(math: MathLib, deg: real)
    requires math.sqrt(1.0) == 1.0
    ensures AxisRotation(Normalize(math, Vec3(0.0, 0.0, 1.0)), Cos(math, deg), Sin(math, deg)) == Mat3ToMat4(RotZ(math, deg))
  {
    NormalizeKeepsUnitVector(math, Vec3(0.0, 0.0, 1.0));
  }

  /**
   * When the library's rotation is the one `rotateRadians` builds, the stack's
   * `rotateX` right-multiplies by the chapter's `rotateX` matrix.
   */
  lemma StackRotateXIsChapterRotateX(math: MathLib, deg: real)
    requires RotatesLikeRotateRadians(math)
    requires math.sqrt(1.0) == 1.0
    ensures math.axisRotation(Vec3(1.0, 0.0, 0.0), DegToRad(math, deg)) == Mat3ToMat4(RotX(math, deg))
  {
    AxisRotationAboutX(math, deg);
    assert Length2(Vec3(1.0, 0.0, 0.0)) > 0.0;
  }

  /** Likewise `rotateY` right-multiplies by the chapter's `rotateY` matrix. */
  lemma StackRotateYIsChapterRotateY(math: MathLib, deg: real)
    requires RotatesLikeRotateRadians(math)
    requires math.sqrt(1.0) == 1.0
    ensures math.axisRotation(Vec3(0.0, 1.0, 0.0), DegToRad(math, deg)) == Mat3ToMat4(RotY(math, deg))
  {
    AxisRotationAboutY(math, deg);
    assert Length2(Vec3(0.0, 1.0, 0.0)) > 0.0;
  }

  /** Likewise `rotateZ` right-multiplies by the chapter's `rotateZ` matrix. */
  lemma StackRotateZIsChapterRotateZ(math: MathLib, deg: real)
    requires RotatesLikeRotateRadians(math)
    requires math.sqrt(1.0) == 1.0
    ensures math.axisRotation(Vec3(0.0, 0.0, 1.0), DegToRad(math, deg)) == Mat3ToMat4(RotZ(math, deg))
  {
    AxisRotationAboutZ(math, deg);
    assert Length2(Vec3(0.0, 0.0, 1.0)) > 0.0;
  }

  /** Normalising a non-zero vector gives a unit vector, when the square root is one. */
  lemma NormalizeGivesUnitLength(math: MathLib, v: Vec3)
    requires Length2(v) > 0.0
    requires math.sqrt(Length2(v)) > 0.0 && math.sqrt(Length2(v)) * math.sqrt(Length2(v)) == Length2(v)
    ensures Length2(Normalize(math, v)) == 1.0
  {
    var l2 := Length2(v);
    var q := math.sqrt(l2);
    var k := 1.0 / q;
    assert Normalize(math, v) == Vec3(v.x * k, v.y * k, v.z * k);
    calc {
      Length2(Vec3(v.x * k, v.y * k, v.z * k));
      (v.x * v.x + v.y * v.y + v.z * v.z) * (k * k);
      l2 * (k * k);
      { assert k * k * (q * q) == 1.0; }
      1.0;
    }
  }

  /** A translation after a scaling moves a point to the scaled point plus the offset. */
  lemma TranslateScalePoint(t: Vec3, s: Vec3, p: Vec3)
    ensures Apply(Mul(Translation(t), Scaling(s)), Point(p)) == Point(Vec3(s.x * p.x + t.x, s.y * p.y + t.y, s.z * p.z + t.z))
  {
    ApplyMul(Translation(t), Scaling(s), Point(p));
    ScalingScalesPoint(s, p);
    TranslationMovesPoint(t, Vec3(s.x * p.x, s.y * p.y, s.z * p.z));
  }

  /**
   * `pixelPerfectOrtho` maps a window-space point to clip space: x from [0, width]
   * onto [-1, 1], y from [0, height] onto [1, -1] for a top-left origin and onto
   * [-1, 1] for a bottom-left one, and depth about the middle of the depth range.
   */
  lemma PixelOrthoMapsWindowToClip(size: Vec2, depthRange: Vec2, isTopLeft: bool, p: Vec3)
    requires size.x != 0.0 && size.y != 0.0
    requires !isTopLeft ==> depthRange.y != depthRange.x
    ensures
      var o, f := PixelOrthoOffset(depthRange, isTopLeft), PixelOrthoFactors(size, depthRange, isTopLeft);
      Apply(PixelOrtho(size, depthRange, isTopLeft), Point(p)) == Point(Vec3(f.x * p.x + o.x, f.y * p.y + o.y, f.z * p.z + o.z))
  {
    var o, f := PixelOrthoOffset(depthRange, isTopLeft), PixelOrthoFactors(size, depthRange, isTopLeft);
    assert PixelOrtho(size, depthRange, isTopLeft) == Mul(Translation(o), Scaling(f));
    TranslateScalePoint(o, f, p);
  }

  /** The window's corners land on the corners of clip space. */
  lemma PixelOrthoCorners(size: Vec2, depthRange: Vec2, isTopLeft: bool, z: real)
    requires size.x != 0.0 && size.y != 0.0
    requires !isTopLeft ==> depthRange.y != depthRange.x
    ensures
      var o := Apply(PixelOrtho(size, depthRange, isTopLeft), Point(Vec3(0.0, 0.0, z)));
      var e := Apply(PixelOrtho(size, depthRange, isTopLeft), Point(Vec3(size.x, size.y, z)));
      o.x == -1.0 && e.x == 1.0 &&
      (isTopLeft ==> o.y == 1.0 && e.y == -1.0) &&
      (!isTopLeft ==> o.y == -1.0 && e.y == 1.0)
  {
    var f := PixelOrthoFactors(size, depthRange, isTopLeft);
    PixelOrthoMapsWindowToClip(size, depthRange, isTopLeft, Vec3(0.0, 0.0, z));
    PixelOrthoMapsWindowToClip(size, depthRange, isTopLeft, Vec3(size.x, size.y, z));
    assert f.x * size.x == 2.0;
    assert f.y * size.y == if isTopLeft then -2.0 else 2.0;
  }
}
