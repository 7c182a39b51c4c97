/**
 * The scene tree of the hierarchy chapter and what rendering it draws.
 *
 * A node has an optional origin, a list of axis rotations applied in list order,
 * an optional size (a node with a size is drawn), and children drawn after it.
 * An absent `angles` or `children` list is the empty list, as the renderers read
 * them with `?? []`.
 *
 * `Draws` is the reference meaning of every renderer in the project: the list of
 * model-to-camera matrices handed to the draw call, in pre-order.
 */
module Scene {
  import opened Wrappers
  import opened Matrix
  import opened GlMatrix
  import opened Rotations

  /** `{ x: deg }`, `{ y: deg }` or `{ z: deg }`. */
  datatype Angle = X(deg: real) | Y(deg: real) | Z(deg: real)

  datatype Node = Node(origin: Option<Vec3>, angles: seq<Angle>, size: Option<Vec3>, children: seq<Node>)

  /** The 4x4 matrix of one rotation entry: `mat3ToMat4(rotateX(deg))` and so on. */
  function RotationMatrix(math: MathLib, a: Angle): Mat4
  {
    match a
    case X(d) => Mat3ToMat4(RotX(math, d))
    case Y(d) => Mat3ToMat4(RotY(math, d))
    case Z(d) => Mat3ToMat4(RotZ(math, d))
  }

  /** `m` after the node's translation, if it has an origin. */
  function Translated(m: Mat4, origin: Option<Vec3>): Mat4
  {
    if origin.Some? then Mul(m, Translation(origin.value)) else m
  }

  /** `m` right-multiplied by each rotation in list order. */
  function Rotated(math: MathLib, m: Mat4, angles: seq<Angle>): Mat4
    decreases |angles|
  {
    if angles == [] then m else Rotated(math, Mul(m, RotationMatrix(math, angles[0])), angles[1..])
  }

  /** The node's own frame: what its children receive. */
  function Frame(math: MathLib, node: Node, m: Mat4): Mat4
  {
    Rotated(math, Translated(m, node.origin), node.angles)
  }

  /** The matrices drawn for `node` and its subtree, rendered under the matrix `m`. */
  function Draws(math: MathLib, node: Node, m: Mat4): seq<Mat4>
    decreases node, 1
  {
    var f := Frame(math, node, m);
    (if node.size.Some? then [Mul(f, Scaling(node.size.value))] else []) + DrawsAll(math, node.children, f)
  }

  /** The matrices drawn for the trees `nodes`, each rendered under `m`, in order. */
  function DrawsAll(math: MathLib, nodes: seq<Node>, m: Mat4): seq<Mat4>
    decreases nodes, 0
  {
    if nodes == [] then [] else Draws(math, nodes[0], m) + DrawsAll(math, nodes[1..], m)
  }

  function CountDrawn(node: Node): nat
    decreases node, 1
  {
    (if node.size.Some? then 1 else 0) + CountDrawnAll(node.children)
  }

  function CountDrawnAll(nodes: seq<Node>): nat
    decreases nodes, 0
  {
    if nodes == [] then 0 else CountDrawn(nodes[0]) + CountDrawnAll(nodes[1..])
  }

  function CountNodes(node: Node): nat
    decreases node, 1
  {
    1 + CountNodesAll(node.children)
  }

  function CountNodesAll(nodes: seq<Node>): nat
    decreases nodes, 0
  {
    if nodes == [] then 0 else CountNodes(nodes[0]) + CountNodesAll(nodes[1..])
  }

  /** Every matrix of `ms`, left-multiplied by `p`. */
  function Premultiplied(p: Mat4, ms: seq<Mat4>): (r: seq<Mat4>)
    ensures |r| == |ms|
  {
    if ms == [] then [] else [Mul(p, ms[0])] + Premultiplied(p, ms[1..])
  }

  lemma {:induction false} PremultipliedAppend(p: Mat4, a: seq<Mat4>, b: seq<Mat4>)
    ensures Premultiplied(p, a + b) == Premultiplied(p, a) + Premultiplied(p, b)
    decreases |a|
  {
    if a != [] {
      assert (a + b)[1..] == a[1..] + b;
      PremultipliedAppend(p, a[1..], b);
    } else {
      assert a + b == b;
    }
  }

  /** Each draw is one matrix: a tree draws exactly once per node that has a size. */
  lemma {:induction false} DrawCount(math: MathLib, node: Node, m: Mat4)
    ensures |Draws(math, node, m)| == CountDrawn(node)
    decreases node, 1
  {
    DrawCountAll(math, node.children, Frame(math, node, m));
  }

  lemma {:induction false} DrawCountAll(math: MathLib, nodes: seq<Node>, m: Mat4)
    ensures |DrawsAll(math, nodes, m)| == CountDrawnAll(nodes)
    decreases nodes, 0
  {
    if nodes != [] {
      DrawCount(math, nodes[0], m);
      DrawCountAll(math, nodes[1..], m);
    }
  }

  lemma {:induction false} RotatedUnderParent(math: MathLib, p: Mat4, m: Mat4, angles: seq<Angle>)
    ensures Rotated(math, Mul(p, m), angles) == Mul(p, Rotated(math, m, angles))
    decreases |angles|
  {
    if angles != [] {
      var r := RotationMatrix(math, angles[0]);
      MulAssoc(p, m, r);
      RotatedUnderParent(math, p, Mul(m, r), angles[1..]);
    }
  }

  /** A node's frame under `p * m` is `p` times its frame under `m`. */
  lemma FrameUnderParent(math: MathLib, p: Mat4, m: Mat4, node: Node)
    ensures Frame(math, node, Mul(p, m)) == Mul(p, Frame(math, node, m))
  {
    if node.origin.Some? {
      MulAssoc(p, m, Translation(node.origin.value));
    }
    RotatedUnderParent(math, p, Translated(m, node.origin), node.angles);
  }

  /**
   * The hierarchy is rigid: rendering a tree under `p * m` draws `p` times each
   * matrix drawn under `m`, so moving a parent frame moves the whole subtree.
   */
  lemma {:induction false} DrawsUnderParent(math: MathLib, p: Mat4, m: Mat4, node: Node)
    ensures Draws(math, node, Mul(p, m)) == Premultiplied(p, Draws(math, node, m))
    decreases node, 1
  {
    var f := Frame(math, node, m);
    FrameUnderParent(math, p, m, node);
    DrawsAllUnderParent(math, p, f, node.children);
    var own := if node.size.Some? then [Mul(f, Scaling(node.size.value))] else [];
    if node.size.Some? {
      MulAssoc(p, f, Scaling(node.size.value));
    }
    PremultipliedAppend(p, own, DrawsAll(math, node.children, f));
  }

  lemma {:induction false} DrawsAllUnderParent(math: MathLib, p: Mat4, m: Mat4, nodes: seq<Node>)
    ensures DrawsAll(math, nodes, Mul(p, m)) == Premultiplied(p, DrawsAll(math, nodes, m))
    decreases nodes, 0
  {
    if nodes != [] {
      DrawsUnderParent(math, p, m, nodes[0]);
      DrawsAllUnderParent(math, p, m, nodes[1..]);
      PremultipliedAppend(p, Draws(math, nodes[0], m), DrawsAll(math, nodes[1..], m));
    }
  }

  /**
   * The angle list is applied in its own order: swapping a turn about X and one
   * about Y changes the frame whenever neither sine is zero.
   */
  lemma AngleOrderMatters(math: MathLib, a: real, b: real)
    requires Sin(math, a) != 0.0 && Sin(math, b) != 0.0
    ensures Rotated(math, Identity, [X(a), Y(b)]) != Rotated(math, Identity, [Y(b), X(a)])
  {
    var rx, ry := RotationMatrix(math, X(a)), RotationMatrix(math, Y(b));
    assert Rotated(math, Identity, [X(a), Y(b)]) == Mul(Mul(Identity, rx), ry) by {
      assert [X(a), Y(b)][1..] == [Y(b)] && [Y(b)][1..] == [];
      assert Rotated(math, Identity, [X(a), Y(b)]) == Rotated(math, Mul(Identity, rx), [Y(b)]);
    }
    assert Rotated(math, Identity, [Y(b), X(a)]) == Mul(Mul(Identity, ry), rx) by {
      assert [Y(b), X(a)][1..] == [X(a)] && [X(a)][1..] == [];
      assert Rotated(math, Identity, [Y(b), X(a)]) == Rotated(math, Mul(Identity, ry), [X(a)]);
    }
    MulIdentity(rx);
    MulIdentity(ry);
    RotationOrderMatters(math, a, b);
  }

  /** A root with no origin, no angles and no size, drawn from the identity, draws only its children, each under the identity. */
  lemma BareRootDrawsChildren(math: MathLib, children: seq<Node>)
    ensures Draws(math, Node(None, [], None, children), Identity) == DrawsAll(math, children, Identity)
  {
  }

  lemma DrawsAllOne(math: MathLib, a: Node, m: Mat4)
    ensures DrawsAll(math, [a], m) == Draws(math, a, m)
  {
    assert DrawsAll(math, [a], m) == Draws(math, a, m) + DrawsAll(math, [], m);
  }

  lemma DrawsAllTwo(math: MathLib, a: Node, b: Node, m: Mat4)
    ensures DrawsAll(math, [a, b], m) == Draws(math, a, m) + Draws(math, b, m)
  {
    assert [a, b][1..] == [b];
    DrawsAllOne(math, b, m);
  }

  lemma DrawsAllThree(math: MathLib, a: Node, b: Node, c: Node, m: Mat4)
    ensures DrawsAll(math, [a, b, c], m) == Draws(math, a, m) + Draws(math, b, m) + Draws(math, c, m)
  {
    assert [a, b, c][1..] == [b, c];
    DrawsAllTwo(math, b, c, m);
  }
}
