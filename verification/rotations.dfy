/**
 * The chapter helpers `degToRad` and `rotateX` / `rotateY` / `rotateZ` (called
 * `rotX` / `rotY` / `rotZ` in the by-value variant): the 3x3 rotation by an angle
 * in degrees about one coordinate axis, built as the identity with four elements
 * replaced by the cosine and sine of the angle.
 */
module Rotations {
  import opened Matrix
  import opened GlMatrix

  /** Degrees to radians, as `angDeg * (Math.PI / 180)`. */
  function DegToRad(math: MathLib, deg: real): real
  {
    deg * (math.pi / 180.0)
  }

  function Cos(math: MathLib, deg: real): real { math.cos(DegToRad(math, deg)) }

  function Sin(math: MathLib, deg: real): real { math.sin(DegToRad(math, deg)) }

  /** Rotation about +X. */
  function RotX(math: MathLib, deg: real): Mat3
  {
    var c, s := Cos(math, deg), Sin(math, deg);
    Mat3(Vec3(1.0, 0.0, 0.0), Vec3(0.0, c, s), Vec3(0.0, -s, c))
  }

  /** Rotation about +Y. */
  function RotY(math: MathLib, deg: real): Mat3
  {
    var c, s := Cos(math, deg), Sin(math, deg);
    Mat3(Vec3(c, 0.0, -s), Vec3(0.0, 1.0, 0.0), Vec3(s, 0.0, c))
  }

  /** Rotation about +Z. */
  function RotZ(math: MathLib, deg: real): Mat3
  {
    var c, s := Cos(math, deg), Sin(math, deg);
    Mat3(Vec3(c, s, 0.0), Vec3(-s, c, 0.0), Vec3(0.0, 0.0, 1.0))
  }

  /** About X, elements 4 and 8 are the cosine, 5 the sine, 7 minus the sine, and the rest is the identity. */
  lemma RotXLayout(math: MathLib, deg: real)
    ensures var r := RotX(math, deg);
      (forall i :: 0 <= i < 9 && i != 4 && i != 5 && i != 7 && i != 8 ==> Entry3(r, i) == Entry3(Identity3, i)) &&
      Entry3(r, 4) == Cos(math, deg) && Entry3(r, 8) == Cos(math, deg) &&
      Entry3(r, 5) == Sin(math, deg) && Entry3(r, 7) == -Sin(math, deg)
  {
  }

  /** About Y, elements 0 and 8 are the cosine, 6 the sine, 2 minus the sine, and the rest is the identity. */
  lemma RotYLayout(math: MathLib, deg: real)
    ensures var r := RotY(math, deg);
      (forall i :: 0 <= i < 9 && i != 0 && i != 2 && i != 6 && i != 8 ==> Entry3(r, i) == Entry3(Identity3, i)) &&
      Entry3(r, 0) == Cos(math, deg) && Entry3(r, 8) == Cos(math, deg) &&
      Entry3(r, 6) == Sin(math, deg) && Entry3(r, 2) == -Sin(math, deg)
  {
  }

  /** About Z, elements 0 and 4 are the cosine, 1 the sine, 3 minus the sine, and the rest is the identity. */
  lemma RotZLayout(math: MathLib, deg: real)
    ensures var r := RotZ(math, deg);
      (forall i :: 0 <= i < 9 && i != 0 && i != 1 && i != 3 && i != 4 ==> Entry3(r, i) == Entry3(Identity3, i)) &&
      Entry3(r, 0) == Cos(math, deg) && Entry3(r, 4) == Cos(math, deg) &&
      Entry3(r, 1) == Sin(math, deg) && Entry3(r, 3) == -Sin(math, deg)
  {
  }

  /** Each rotation leaves its own axis where it is. */
  lemma RotationsFixTheirAxis(math: MathLib, deg: real)
    ensures Apply(Mat3ToMat4(RotX(math, deg)), Vec4(1.0, 0.0, 0.0, 0.0)) == Vec4(1.0, 0.0, 0.0, 0.0)
    ensures Apply(Mat3ToMat4(RotY(math, deg)), Vec4(0.0, 1.0, 0.0, 0.0)) == Vec4(0.0, 1.0, 0.0, 0.0)
    ensures Apply(Mat3ToMat4(RotZ(math, deg)), Vec4(0.0, 0.0, 1.0, 0.0)) == Vec4(0.0, 0.0, 1.0, 0.0)
  {
    ApplyUnit(Mat3ToMat4(RotX(math, deg)));
    ApplyUnit(Mat3ToMat4(RotY(math, deg)));
    ApplyUnit(Mat3ToMat4(RotZ(math, deg)));
  }

  /** With cos 0 = 1 and sin 0 = 0, a rotation by zero degrees is the identity. */
  lemma ZeroRotationIsIdentity(math: MathLib)
    requires math.cos(0.0) == 1.0 && math.sin(0.0) == 0.0
    ensures Mat3ToMat4(RotX(math, 0.0)) == Identity
    ensures Mat3ToMat4(RotY(math, 0.0)) == Identity
    ensures Mat3ToMat4(RotZ(math, 0.0)) == Identity
  {
    assert DegToRad(math, 0.0) == 0.0;
  }

  /**
   * Rotations do not commute: for any two angles whose sines are not zero, a turn
   * about X followed by one about Y is not the same as the other order, so the order
   * of a node's angle list matters.
   */
  lemma RotationOrderMatters(math: MathLib, a: real, b: real)
    requires Sin(math, a) != 0.0 && Sin(math, b) != 0.0
    ensures Mul(Mat3ToMat4(RotX(math, a)), Mat3ToMat4(RotY(math, b))) !=
            Mul(Mat3ToMat4(RotY(math, b)), Mat3ToMat4(RotX(math, a)))
  {
    var x, y := Mat3ToMat4(RotX(math, a)), Mat3ToMat4(RotY(math, b));
    ApplyUnit(x);
    // The first axis of y·x is y's own; that of x·y has picked up sin a · sin b.
    assert Mul(y, x).c0 == y.c0;
    assert Mul(x, y).c0.y == Sin(math, a) * Sin(math, b);
  }
}
