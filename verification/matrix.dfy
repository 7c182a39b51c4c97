/**
 * The gl-matrix value types the engine works with, and the parts of the gl-matrix
 * library it relies on: `mat4.create` (the identity), `mat4.multiply`, and the
 * translation and scaling matrices behind `mat4.translate` / `mat4.scale`.
 *
 * A `mat4` is stored column-major: element `4 * col + row` is row `row` of column
 * `col`.  Here a matrix is a record of its four columns, and `Entry` gives the flat
 * index view the source uses.  Numbers are mathematical reals: floating-point
 * rounding is not modelled.
 */
module Matrix {
  datatype Vec2 = Vec2(x: real, y: real)
  datatype Vec3 = Vec3(x: real, y: real, z: real)
  datatype Vec4 = Vec4(x: real, y: real, z: real, w: real)

  /** A 4x4 matrix as its columns `c0` .. `c3`. */
  datatype Mat4 = Mat4(c0: Vec4, c1: Vec4, c2: Vec4, c3: Vec4)

  /**
   * The floating-point library calls the engine makes and this model cannot see:
   * `Math.PI`, `Math.cos`, `Math.sin`, `Math.sqrt`, and the matrix that gl-matrix's
   * `mat4.rotate` right-multiplies by for an axis and an angle in radians.
   */
  datatype MathLib = MathLib(
    pi: real,
    cos: real -> real,
    sin: real -> real,
    sqrt: real -> real,
    axisRotation: (Vec3, real) -> Mat4)

  function Component(v: Vec4, row: int): real
    requires 0 <= row < 4
  {
    if row == 0 then v.x else if row == 1 then v.y else if row == 2 then v.z else v.w
  }

  function Column(m: Mat4, col: int): Vec4
    requires 0 <= col < 4
  {
    if col == 0 then m.c0 else if col == 1 then m.c1 else if col == 2 then m.c2 else m.c3
  }

  /** Element `i` of the flat column-major layout. */
  function Entry(m: Mat4, i: int): real
    requires 0 <= i < 16
  {
    Component(Column(m, i / 4), i % 4)
  }

  /** The homogeneous point for a position. */
  function Point(p: Vec3): Vec4 { Vec4(p.x, p.y, p.z, 1.0) }

  function Add(u: Vec4, v: Vec4): Vec4 { Vec4(u.x + v.x, u.y + v.y, u.z + v.z, u.w + v.w) }

  function Scale(s: real, u: Vec4): Vec4 { Vec4(s * u.x, s * u.y, s * u.z, s * u.w) }

  /** One row of a matrix, `(a, b, c, d)`, times a column. */
  function Dot(a: real, b: real, c: real, d: real, v: Vec4): real
  {
    a * v.x + b * v.y + c * v.z + d * v.w
  }

  /** The matrix applied to a column vector. */
  function Apply(m: Mat4, v: Vec4): Vec4
  {
    Vec4(Dot(m.c0.x, m.c1.x, m.c2.x, m.c3.x, v), Dot(m.c0.y, m.c1.y, m.c2.y, m.c3.y, v),
         Dot(m.c0.z, m.c1.z, m.c2.z, m.c3.z, v), Dot(m.c0.w, m.c1.w, m.c2.w, m.c3.w, v))
  }

  /** `mat4.create()`. */
  const Identity: Mat4 :=
    Mat4(Vec4(1.0, 0.0, 0.0, 0.0), Vec4(0.0, 1.0, 0.0, 0.0), Vec4(0.0, 0.0, 1.0, 0.0), Vec4(0.0, 0.0, 0.0, 1.0))

  /** `mat4.multiply(out, a, b)`: the product `a * b`; column `k` of it is `a` applied to column `k` of `b`. */
  function Mul(a: Mat4, b: Mat4): Mat4
  {
    Mat4(Apply(a, b.c0), Apply(a, b.c1), Apply(a, b.c2), Apply(a, b.c3))
  }

  /** `mat4.fromTranslation`: the identity with the offset in the last column. */
  function Translation(v: Vec3): Mat4
  {
    Identity.(c3 := Point(v))
  }

  /** `mat4.fromScaling`: the identity with the factors on the diagonal. */
  function Scaling(v: Vec3): Mat4
  {
    Identity.(c0 := Vec4(v.x, 0.0, 0.0, 0.0), c1 := Vec4(0.0, v.y, 0.0, 0.0), c2 := Vec4(0.0, 0.0, v.z, 0.0))
  }

  /** The translation matrix is the identity with the offset in elements 12, 13 and 14. */
  lemma TranslationLayout(v: Vec3)
    ensures var r := Translation(v);
      Entry(r, 0) == 1.0 && Entry(r, 5) == 1.0 && Entry(r, 10) == 1.0 && Entry(r, 15) == 1.0 &&
      Entry(r, 1) == 0.0 && Entry(r, 2) == 0.0 && Entry(r, 3) == 0.0 && Entry(r, 4) == 0.0 &&
      Entry(r, 6) == 0.0 && Entry(r, 7) == 0.0 && Entry(r, 8) == 0.0 && Entry(r, 9) == 0.0 && Entry(r, 11) == 0.0 &&
      Entry(r, 12) == v.x && Entry(r, 13) == v.y && Entry(r, 14) == v.z
  {
  }

  /** The scaling matrix is the identity with the factors in elements 0, 5 and 10. */
  lemma ScalingLayout(v: Vec3)
    ensures var r := Scaling(v);
      Entry(r, 1) == 0.0 && Entry(r, 2) == 0.0 && Entry(r, 3) == 0.0 && Entry(r, 4) == 0.0 &&
      Entry(r, 6) == 0.0 && Entry(r, 7) == 0.0 && Entry(r, 8) == 0.0 && Entry(r, 9) == 0.0 &&
      Entry(r, 11) == 0.0 && Entry(r, 12) == 0.0 && Entry(r, 13) == 0.0 && Entry(r, 14) == 0.0 &&
      Entry(r, 15) == 1.0 &&
      Entry(r, 0) == v.x && Entry(r, 5) == v.y && Entry(r, 10) == v.z
  {
  }

  /** Applying a matrix to a unit axis selects the matching column. */
  lemma ApplyUnit(m: Mat4)
    ensures Apply(m, Vec4(1.0, 0.0, 0.0, 0.0)) == m.c0
    ensures Apply(m, Vec4(0.0, 1.0, 0.0, 0.0)) == m.c1
    ensures Apply(m, Vec4(0.0, 0.0, 1.0, 0.0)) == m.c2
    ensures Apply(m, Vec4(0.0, 0.0, 0.0, 1.0)) == m.c3
  {
  }

  lemma ApplyIdentity(v: Vec4)
    ensures Apply(Identity, v) == v
  {
  }

  lemma MulIdentity(m: Mat4)
    ensures Mul(Identity, m) == m && Mul(m, Identity) == m
  {
    ApplyIdentity(m.c0);
    ApplyIdentity(m.c1);
    ApplyIdentity(m.c2);
    ApplyIdentity(m.c3);
  }

  lemma DotScale(a: real, b: real, c: real, d: real, s: real, u: Vec4)
    ensures Dot(a, b, c, d, Scale(s, u)) == s * Dot(a, b, c, d, u)
  {
  }

  /** Scaling a product: each row of `m` meets the scaled column in `s` times the unscaled row product. */
  lemma ScaledRowProducts(m: Mat4, s: real, u: Vec4)
    ensures s * Apply(m, u).x == s * Dot(m.c0.x, m.c1.x, m.c2.x, m.c3.x, u)
    ensures s * Apply(m, u).y == s * Dot(m.c0.y, m.c1.y, m.c2.y, m.c3.y, u)
    ensures s * Apply(m, u).z == s * Dot(m.c0.z, m.c1.z, m.c2.z, m.c3.z, u)
    ensures s * Apply(m, u).w == s * Dot(m.c0.w, m.c1.w, m.c2.w, m.c3.w, u)
  {
  }

  lemma ApplyToScaled(m: Mat4, s: real, u: Vec4)
    ensures Apply(m, Scale(s, u)) ==
      Vec4(s * Dot(m.c0.x, m.c1.x, m.c2.x, m.c3.x, u), s * Dot(m.c0.y, m.c1.y, m.c2.y, m.c3.y, u),
           s * Dot(m.c0.z, m.c1.z, m.c2.z, m.c3.z, u), s * Dot(m.c0.w, m.c1.w, m.c2.w, m.c3.w, u))
  {
    DotScale(m.c0.x, m.c1.x, m.c2.x, m.c3.x, s, u);
    DotScale(m.c0.y, m.c1.y, m.c2.y, m.c3.y, s, u);
    DotScale(m.c0.z, m.c1.z, m.c2.z, m.c3.z, s, u);
    DotScale(m.c0.w, m.c1.w, m.c2.w, m.c3.w, s, u);
  }

  lemma ScaledApply(m: Mat4, s: real, u: Vec4)
    ensures Scale(s, Apply(m, u)) ==
      Vec4(s * Dot(m.c0.x, m.c1.x, m.c2.x, m.c3.x, u), s * Dot(m.c0.y, m.c1.y, m.c2.y, m.c3.y, u),
           s * Dot(m.c0.z, m.c1.z, m.c2.z, m.c3.z, u), s * Dot(m.c0.w, m.c1.w, m.c2.w, m.c3.w, u))
  {
    ScaledRowProducts(m, s, u);
  }

  /** A matrix commutes with scaling its argument. */
  lemma ApplyScale(m: Mat4, s: real, u: Vec4)
    ensures Apply(m, Scale(s, u)) == Scale(s, Apply(m, u))
  {
    ApplyToScaled(m, s, u);
    ScaledApply(m, s, u);
  }

  lemma ApplyAdd(m: Mat4, u: Vec4, v: Vec4)
    ensures Apply(m, Add(u, v)) == Add(Apply(m, u), Apply(m, v))
  {
  }

  /** A column as the combination of the matrix's columns it selects. */
  function Combine(v: Vec4, m: Mat4): Vec4
  {
    Add(Add(Add(Scale(v.x, m.c0), Scale(v.y, m.c1)), Scale(v.z, m.c2)), Scale(v.w, m.c3))
  }

  lemma ApplyCombine(m: Mat4, v: Vec4)
    ensures Apply(m, v) == Combine(v, m)
  {
    var p, q := Apply(m, v), Combine(v, m);
    assert p.x == q.x;
    assert p.y == q.y;
    assert p.z == q.z;
    assert p.w == q.w;
  }

  /** Applying a product is applying its factors right to left. */
  lemma ApplyMul(a: Mat4, b: Mat4, v: Vec4)
    ensures Apply(Mul(a, b), v) == Apply(a, Apply(b, v))
  {
    var ab := Mul(a, b);
    ApplyCombine(b, v);
    ApplyCombine(ab, v);
    assert Apply(a, Combine(v, b)) == Combine(v, ab) by {
      ApplyAdd(a, Add(Add(Scale(v.x, b.c0), Scale(v.y, b.c1)), Scale(v.z, b.c2)), Scale(v.w, b.c3));
      ApplyAdd(a, Add(Scale(v.x, b.c0), Scale(v.y, b.c1)), Scale(v.z, b.c2));
      ApplyAdd(a, Scale(v.x, b.c0), Scale(v.y, b.c1));
      ApplyScale(a, v.x, b.c0);
      ApplyScale(a, v.y, b.c1);
      ApplyScale(a, v.z, b.c2);
      ApplyScale(a, v.w, b.c3);
    }
  }

  /** Matrix multiplication is associative. */
  lemma MulAssoc(a: Mat4, b: Mat4, c: Mat4)
    ensures Mul(Mul(a, b), c) == Mul(a, Mul(b, c))
  {
    ApplyMul(a, b, c.c0);
    ApplyMul(a, b, c.c1);
    ApplyMul(a, b, c.c2);
    ApplyMul(a, b, c.c3);
  }

  /** A translation moves a point by its offset. */
  lemma TranslationMovesPoint(v: Vec3, p: Vec3)
    ensures Apply(Translation(v), Point(p)) == Point(Vec3(p.x + v.x, p.y + v.y, p.z + v.z))
  {
  }

  /** A scaling multiplies each coordinate of a point by its factor. */
  lemma ScalingScalesPoint(v: Vec3, p: Vec3)
    ensures Apply(Scaling(v), Point(p)) == Point(Vec3(v.x * p.x, v.y * p.y, v.z * p.z))
  {
  }

  /** Two translations compose into the translation by the summed offset. */
  lemma TranslationsCompose(u: Vec3, v: Vec3)
    ensures Mul(Translation(u), Translation(v)) == Translation(Vec3(u.x + v.x, u.y + v.y, u.z + v.z))
  {
  }
}
