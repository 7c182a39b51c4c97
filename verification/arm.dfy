/**
 * The robot arm's scene tree (`makeScene` / `scene(props)`), and the nine pieces it
 * draws written out part by part in the order the hand-unrolled renderer draws
 * them: left base, right base, upper arm, lower arm, wrist, left finger, left
 * lower finger, right finger, right lower finger.
 */
module Arm {
  import opened Wrappers
  import opened Matrix
  import opened GlMatrix
  import opened Rotations
  import opened Poses
  import opened Scene
  import opened Transforms

  /** A drawn leaf: an offset and a size, no rotation, no children. */
  function Box(origin: Vec3, size: Vec3): Node
  {
    Node(Some(origin), [], Some(size), [])
  }

  /** One finger segment, half its length out along z. */
  function FingerSegment(p: Pose): Node
  {
    Box(Vec3(0.0, 0.0, p.lenFinger / 2.0), Vec3(p.widthFinger / 2.0, p.widthFinger / 2.0, p.lenFinger / 2.0))
  }

  /** The lower part of a finger: at the end of the upper segment, bent by `bendAng`, with its own segment. */
  function LowerFingerTree(p: Pose, bendAng: real): Node
  {
    Node(Some(Vec3(0.0, 0.0, p.lenFinger)), [Y(bendAng)], None, [FingerSegment(p)])
  }

  /**
   * A finger at `pos`, opened by `openAng` about y, with a lower segment bent by
   * `bendAng`; the right finger is built with both angles negated.
   */
  function FingerTree(p: Pose, pos: Vec3, openAng: real, bendAng: real): Node
  {
    Node(Some(pos), [Y(openAng)], None, [FingerSegment(p), LowerFingerTree(p, bendAng)])
  }

  /** The wrist rolls about z, then pitches about x. */
  function WristTree(p: Pose): Node
  {
    Node(Some(p.posWrist), [Z(p.angWristRoll), X(p.angWristPitch)],
         Some(Vec3(p.widthWrist / 2.0, p.widthWrist / 2.0, p.lenWrist / 2.0)),
         [FingerTree(p, p.posLeftFinger, p.angFingerOpen, -p.angLowerFinger),
          FingerTree(p, p.posRightFinger, -p.angFingerOpen, p.angLowerFinger)])
  }

  function LowerArmTree(p: Pose): Node
  {
    Node(Some(p.posLowerArm), [X(p.angLowerArm)], None,
         [Box(Vec3(0.0, 0.0, p.lenLowerArm / 2.0), Vec3(p.widthLowerArm / 2.0, p.widthLowerArm / 2.0, p.lenLowerArm / 2.0)),
          WristTree(p)])
  }

  function UpperArmTree(p: Pose): Node
  {
    Node(None, [X(p.angUpperArm)], None,
         [Box(Vec3(0.0, 0.0, p.sizeUpperArm / 2.0 - 1.0), Vec3(1.0, 1.0, p.sizeUpperArm / 2.0)),
          LowerArmTree(p)])
  }

  /** `makeScene()` / `scene(props)`: a pure function of the pose. */
  function MakeScene(p: Pose): Node
  {
    Node(Some(p.posBase), [Y(p.angBase)], None,
         [Box(p.posBaseLeft, Vec3(1.0, 1.0, p.scaleBaseZ)),
          Box(p.posBaseRight, Vec3(1.0, 1.0, p.scaleBaseZ)),
          UpperArmTree(p)])
  }

  // The part-by-part drawing, each part under the frame its caller hands it.

  /** A box drawn under `m`: translate, then scale. */
  function BoxDraw(m: Mat4, origin: Vec3, size: Vec3): Mat4
  {
    Mul(Translate(m, origin), Scaling(size))
  }

  function FingerSegmentDraw(p: Pose, m: Mat4): Mat4
  {
    BoxDraw(m, Vec3(0.0, 0.0, p.lenFinger / 2.0), Vec3(p.widthFinger / 2.0, p.widthFinger / 2.0, p.lenFinger / 2.0))
  }

  /** A finger and its lower segment. */
  function OneFingerDraws(math: MathLib, p: Pose, m: Mat4, pos: Vec3, openAng: real, bendAng: real): seq<Mat4>
  {
    var finger := RotateY(math, Translate(m, pos), openAng);
    var lower := RotateY(math, Translate(finger, Vec3(0.0, 0.0, p.lenFinger)), bendAng);
    [FingerSegmentDraw(p, finger), FingerSegmentDraw(p, lower)]
  }

  /** Left finger, left lower finger, right finger, right lower finger. */
  function FingerDraws(math: MathLib, p: Pose, m: Mat4): seq<Mat4>
  {
    OneFingerDraws(math, p, m, p.posLeftFinger, p.angFingerOpen, -p.angLowerFinger)
      + OneFingerDraws(math, p, m, p.posRightFinger, -p.angFingerOpen, p.angLowerFinger)
  }

  function WristFrame(math: MathLib, p: Pose, m: Mat4): Mat4
  {
    RotateX(math, RotateZ(math, Translate(m, p.posWrist), p.angWristRoll), p.angWristPitch)
  }

  function WristDraws(math: MathLib, p: Pose, m: Mat4): seq<Mat4>
  {
    var w := WristFrame(math, p, m);
    [Mul(w, Scaling(Vec3(p.widthWrist / 2.0, p.widthWrist / 2.0, p.lenWrist / 2.0)))] + FingerDraws(math, p, w)
  }

  function LowerArmDraws(math: MathLib, p: Pose, m: Mat4): seq<Mat4>
  {
    var l := RotateX(math, Translate(m, p.posLowerArm), p.angLowerArm);
    [BoxDraw(l, Vec3(0.0, 0.0, p.lenLowerArm / 2.0), Vec3(p.widthLowerArm / 2.0, p.widthLowerArm / 2.0, p.lenLowerArm / 2.0))]
      + WristDraws(math, p, l)
  }

  function UpperArmDraws(math: MathLib, p: Pose, m: Mat4): seq<Mat4>
  {
    var u := RotateX(math, m, p.angUpperArm);
    [BoxDraw(u, Vec3(0.0, 0.0, p.sizeUpperArm / 2.0 - 1.0), Vec3(1.0, 1.0, p.sizeUpperArm / 2.0))]
      + LowerArmDraws(math, p, u)
  }

  function BaseFrame(math: MathLib, p: Pose, m: Mat4): Mat4
  {
    RotateY(math, Translate(m, p.posBase), p.angBase)
  }

  /** The nine drawn matrices of the whole arm under `m`. */
  function ArmDraws(math: MathLib, p: Pose, m: Mat4): seq<Mat4>
  {
    var b := BaseFrame(math, p, m);
    [BoxDraw(b, p.posBaseLeft, Vec3(1.0, 1.0, p.scaleBaseZ)), BoxDraw(b, p.posBaseRight, Vec3(1.0, 1.0, p.scaleBaseZ))]
      + UpperArmDraws(math, p, b)
  }

  lemma BoxDraws(math: MathLib, origin: Vec3, size: Vec3, m: Mat4)
    ensures Draws(math, Box(origin, size), m) == [BoxDraw(m, origin, size)]
  {
    assert Rotated(math, Translate(m, origin), []) == Translate(m, origin);
  }

  /** A node with an origin and one rotation hands its children `m * T(origin) * R`. */
  lemma FrameOfOneRotation(math: MathLib, node: Node, m: Mat4)
    requires node.origin.Some? && |node.angles| == 1
    ensures Frame(math, node, m) == Mul(Mul(m, Translation(node.origin.value)), RotationMatrix(math, node.angles[0]))
  {
    var t := Mul(m, Translation(node.origin.value));
    assert Rotated(math, t, node.angles) == Rotated(math, Mul(t, RotationMatrix(math, node.angles[0])), []);
  }

  lemma FingerTreeDraws(math: MathLib, p: Pose, m: Mat4, pos: Vec3, openAng: real, bendAng: real)
    ensures Draws(math, FingerTree(p, pos, openAng, bendAng), m) == OneFingerDraws(math, p, m, pos, openAng, bendAng)
  {
    var t := FingerTree(p, pos, openAng, bendAng);
    var seg := FingerSegment(p);
    var lower := t.children[1];
    var f := RotateY(math, Translate(m, pos), openAng);
    var g := RotateY(math, Translate(f, Vec3(0.0, 0.0, p.lenFinger)), bendAng);
    assert Frame(math, t, m) == f by { FrameOfOneRotation(math, t, m); }
    assert Frame(math, lower, f) == g by { FrameOfOneRotation(math, lower, f); }
    assert Draws(math, seg, f) == [FingerSegmentDraw(p, f)] by {
      BoxDraws(math, seg.origin.value, seg.size.value, f);
    }
    assert Draws(math, seg, g) == [FingerSegmentDraw(p, g)] by {
      BoxDraws(math, seg.origin.value, seg.size.value, g);
    }
    assert Draws(math, lower, f) == [FingerSegmentDraw(p, g)] by {
      DrawsAllOne(math, seg, g);
    }
    assert DrawsAll(math, t.children, f) == [FingerSegmentDraw(p, f), FingerSegmentDraw(p, g)] by {
      DrawsAllTwo(math, seg, lower, f);
    }
  }

  /** The wrist hands its children `m * T(posWrist) * Rz(roll) * Rx(pitch)`. */
  lemma WristFrameIsFrame(math: MathLib, p: Pose, m: Mat4)
    ensures Frame(math, WristTree(p), m) == WristFrame(math, p, m)
  {
    var t := WristTree(p);
    var a := Translate(m, p.posWrist);
    var b := RotateZ(math, a, p.angWristRoll);
    assert Rotated(math, a, t.angles) == Rotated(math, b, t.angles[1..]);
    assert Rotated(math, b, t.angles[1..]) == Rotated(math, RotateX(math, b, p.angWristPitch), []);
  }

  /** The wrist draws its own piece, then the left finger, then the right finger, each under the wrist frame. */
  lemma WristSplit(math: MathLib, p: Pose, m: Mat4)
    ensures var w := WristFrame(math, p, m);
      Draws(math, WristTree(p), m) ==
        [Mul(w, Scaling(Vec3(p.widthWrist / 2.0, p.widthWrist / 2.0, p.lenWrist / 2.0)))]
        + Draws(math, FingerTree(p, p.posLeftFinger, p.angFingerOpen, -p.angLowerFinger), w)
        + Draws(math, FingerTree(p, p.posRightFinger, -p.angFingerOpen, p.angLowerFinger), w)
  {
    var t := WristTree(p);
    WristFrameIsFrame(math, p, m);
    DrawsAllTwo(math, t.children[0], t.children[1], WristFrame(math, p, m));
  }

  lemma WristTreeDraws(math: MathLib, p: Pose, m: Mat4)
    ensures Draws(math, WristTree(p), m) == WristDraws(math, p, m)
  {
    var w := WristFrame(math, p, m);
    WristSplit(math, p, m);
    FingerTreeDraws(math, p, w, p.posLeftFinger, p.angFingerOpen, -p.angLowerFinger);
    FingerTreeDraws(math, p, w, p.posRightFinger, -p.angFingerOpen, p.angLowerFinger);
  }

  /** The lower arm draws its box, then the wrist subtree, both under the lower-arm frame. */
  lemma LowerArmSplit(math: MathLib, p: Pose, m: Mat4)
    ensures var l := RotateX(math, Translate(m, p.posLowerArm), p.angLowerArm);
      Draws(math, LowerArmTree(p), m) ==
        [BoxDraw(l, Vec3(0.0, 0.0, p.lenLowerArm / 2.0), Vec3(p.widthLowerArm / 2.0, p.widthLowerArm / 2.0, p.lenLowerArm / 2.0))]
        + Draws(math, WristTree(p), l)
  {
    var t := LowerArmTree(p);
    var l := RotateX(math, Translate(m, p.posLowerArm), p.angLowerArm);
    assert Frame(math, t, m) == l by { FrameOfOneRotation(math, t, m); }
    var box := t.children[0];
    DrawsAllTwo(math, box, t.children[1], l);
    BoxDraws(math, box.origin.value, box.size.value, l);
  }

  lemma LowerArmTreeDraws(math: MathLib, p: Pose, m: Mat4)
    ensures Draws(math, LowerArmTree(p), m) == LowerArmDraws(math, p, m)
  {
    LowerArmSplit(math, p, m);
    WristTreeDraws(math, p, RotateX(math, Translate(m, p.posLowerArm), p.angLowerArm));
  }

  /** The upper arm draws its box, then the lower-arm subtree, both under the upper-arm frame. */
  lemma UpperArmSplit(math: MathLib, p: Pose, m: Mat4)
    ensures var u := RotateX(math, m, p.angUpperArm);
      Draws(math, UpperArmTree(p), m) ==
        [BoxDraw(u, Vec3(0.0, 0.0, p.sizeUpperArm / 2.0 - 1.0), Vec3(1.0, 1.0, p.sizeUpperArm / 2.0))]
        + Draws(math, LowerArmTree(p), u)
  {
    var t := UpperArmTree(p);
    var u := RotateX(math, m, p.angUpperArm);
    assert Frame(math, t, m) == u by {
      assert Rotated(math, m, t.angles) == Rotated(math, u, []);
    }
    var box := t.children[0];
    DrawsAllTwo(math, box, t.children[1], u);
    BoxDraws(math, box.origin.value, box.size.value, u);
  }

  lemma UpperArmTreeDraws(math: MathLib, p: Pose, m: Mat4)
    ensures Draws(math, UpperArmTree(p), m) == UpperArmDraws(math, p, m)
  {
    UpperArmSplit(math, p, m);
    LowerArmTreeDraws(math, p, RotateX(math, m, p.angUpperArm));
  }

  /** The whole arm draws the two base pieces, then the upper-arm subtree, under the base frame. */
  lemma SceneSplit(math: MathLib, p: Pose, m: Mat4)
    ensures var b := BaseFrame(math, p, m);
      Draws(math, MakeScene(p), m) ==
        [BoxDraw(b, p.posBaseLeft, Vec3(1.0, 1.0, p.scaleBaseZ)), BoxDraw(b, p.posBaseRight, Vec3(1.0, 1.0, p.scaleBaseZ))]
        + Draws(math, UpperArmTree(p), b)
  {
    var t := MakeScene(p);
    var b := BaseFrame(math, p, m);
    assert Frame(math, t, m) == b by { FrameOfOneRotation(math, t, m); }
    var left, right := t.children[0], t.children[1];
    DrawsAllThree(math, left, right, t.children[2], b);
    BoxDraws(math, p.posBaseLeft, left.size.value, b);
    BoxDraws(math, p.posBaseRight, right.size.value, b);
  }

  /**
   * Rendering the scene tree draws exactly the nine parts of the hand-unrolled
   * renderer, in its order.
   */
  lemma ArmDrawOrder(math: MathLib, p: Pose, m: Mat4)
    ensures Draws(math, MakeScene(p), m) == ArmDraws(math, p, m)
  {
    SceneSplit(math, p, m);
    UpperArmTreeDraws(math, p, BaseFrame(math, p, m));
  }

  lemma CountsOfTwo(a: Node, b: Node)
    ensures CountNodesAll([a, b]) == CountNodes(a) + CountNodes(b)
    ensures CountDrawnAll([a, b]) == CountDrawn(a) + CountDrawn(b)
  {
    assert [a, b][1..] == [b];
    assert CountNodesAll([b]) == CountNodes(b) + CountNodesAll([]);
    assert CountDrawnAll([b]) == CountDrawn(b) + CountDrawnAll([]);
  }

  lemma CountsOfFinger(p: Pose, pos: Vec3, openAng: real, bendAng: real)
    ensures CountNodes(FingerTree(p, pos, openAng, bendAng)) == 4
    ensures CountDrawn(FingerTree(p, pos, openAng, bendAng)) == 2
  {
    var t := FingerTree(p, pos, openAng, bendAng);
    var seg := FingerSegment(p);
    assert CountNodes(seg) == 1 && CountDrawn(seg) == 1;
    assert CountNodesAll([seg]) == 1 && CountDrawnAll([seg]) == 1;
    CountsOfTwo(seg, t.children[1]);
  }

  /** The arm tree has sixteen nodes, nine of which are drawn. */
  lemma ArmShape(p: Pose)
    ensures CountNodes(MakeScene(p)) == 16
    ensures CountDrawn(MakeScene(p)) == 9
  {
    var w := WristTree(p);
    CountsOfFinger(p, p.posLeftFinger, p.angFingerOpen, -p.angLowerFinger);
    CountsOfFinger(p, p.posRightFinger, -p.angFingerOpen, p.angLowerFinger);
    CountsOfTwo(w.children[0], w.children[1]);
    assert CountNodes(w) == 9 && CountDrawn(w) == 5;
    var l := LowerArmTree(p);
    CountsOfTwo(l.children[0], w);
    assert CountNodes(l) == 11 && CountDrawn(l) == 6;
    var u := UpperArmTree(p);
    CountsOfTwo(u.children[0], l);
    assert CountNodes(u) == 13 && CountDrawn(u) == 7;
    var t := MakeScene(p);
    assert t.children[1..] == [t.children[1], u];
    CountsOfTwo(t.children[1], u);
    assert CountNodes(t.children[0]) == 1 && CountDrawn(t.children[0]) == 1;
    assert CountNodes(t.children[1]) == 1 && CountDrawn(t.children[1]) == 1;
    assert CountNodesAll(t.children) == CountNodes(t.children[0]) + CountNodesAll(t.children[1..]);
    assert CountDrawnAll(t.children) == CountDrawn(t.children[0]) + CountDrawnAll(t.children[1..]);
  }

  /** How many of the nine drawn parts come before the parts that joint `j` moves. */
  function PartsAbove(j: Joint): nat
  {
    match j
    case Base => 0
    case UpperArm => 2
    case LowerArm => 3
    case WristRoll => 4
    case WristPitch => 4
    case FingerOpen => 5
  }

  /**
   * Turning a joint moves only the parts below it in the hierarchy: every part
   * drawn before them is drawn with the same matrix whatever the joint's angle.
   */
  lemma JointMovesOnlyItsSubtree(math: MathLib, p: Pose, j: Joint, a: real, m: Mat4)
    ensures |ArmDraws(math, p, m)| == 9
    ensures ArmDraws(math, WithJointAngle(p, j, a), m)[..PartsAbove(j)] == ArmDraws(math, p, m)[..PartsAbove(j)]
  {
    var q := WithJointAngle(p, j, a);
    assert Rigid(q) == Rigid(p);
    assert q.posBase == p.posBase && q.posBaseLeft == p.posBaseLeft && q.posBaseRight == p.posBaseRight;
    assert q.scaleBaseZ == p.scaleBaseZ && q.sizeUpperArm == p.sizeUpperArm && q.posLowerArm == p.posLowerArm;
    assert q.lenLowerArm == p.lenLowerArm && q.widthLowerArm == p.widthLowerArm;
    assert q.posWrist == p.posWrist && q.lenWrist == p.lenWrist && q.widthWrist == p.widthWrist;
    var k := PartsAbove(j);
    ArmDrawsParts(math, p, m);
    ArmDrawsParts(math, q, m);
    if j != Base {
      BasePartsAgree(math, p, q, m);
      if j != UpperArm {
        UpperArmPartAgrees(math, p, q, m);
        if j != LowerArm {
          LowerArmPartAgrees(math, p, q, m);
          if j != WristRoll && j != WristPitch {
            WristPartAgrees(math, p, q, m);
          }
        }
      }
    }
    assert forall i | 0 <= i < k :: ArmDraws(math, q, m)[i] == ArmDraws(math, p, m)[i];
  }

  /** Both base boxes hang from the base frame alone. */
  lemma BasePartsAgree(math: MathLib, p: Pose, q: Pose, m: Mat4)
    requires q.posBase == p.posBase && q.angBase == p.angBase
    requires q.posBaseLeft == p.posBaseLeft && q.posBaseRight == p.posBaseRight && q.scaleBaseZ == p.scaleBaseZ
    ensures BaseFrame(math, q, m) == BaseFrame(math, p, m)
    ensures ArmDraws(math, q, m)[0] == ArmDraws(math, p, m)[0]
    ensures ArmDraws(math, q, m)[1] == ArmDraws(math, p, m)[1]
  {
    ArmDrawsParts(math, p, m);
    ArmDrawsParts(math, q, m);
  }

  /** The upper-arm box hangs from the base frame and the upper-arm angle. */
  lemma UpperArmPartAgrees(math: MathLib, p: Pose, q: Pose, m: Mat4)
    requires q.posBase == p.posBase && q.angBase == p.angBase
    requires q.angUpperArm == p.angUpperArm && q.sizeUpperArm == p.sizeUpperArm
    ensures ArmDraws(math, q, m)[2] == ArmDraws(math, p, m)[2]
  {
    ArmDrawsParts(math, p, m);
    ArmDrawsParts(math, q, m);
  }

  /** The lower-arm box hangs from the upper-arm frame and the lower-arm angle. */
  lemma LowerArmPartAgrees(math: MathLib, p: Pose, q: Pose, m: Mat4)
    requires q.posBase == p.posBase && q.angBase == p.angBase && q.angUpperArm == p.angUpperArm
    requires q.posLowerArm == p.posLowerArm && q.angLowerArm == p.angLowerArm
    requires q.lenLowerArm == p.lenLowerArm && q.widthLowerArm == p.widthLowerArm
    ensures ArmDraws(math, q, m)[3] == ArmDraws(math, p, m)[3]
  {
    ArmDrawsParts(math, p, m);
    ArmDrawsParts(math, q, m);
  }

  /** The wrist box hangs from the lower-arm frame and both wrist angles. */
  lemma WristPartAgrees(math: MathLib, p: Pose, q: Pose, m: Mat4)
    requires q.posBase == p.posBase && q.angBase == p.angBase && q.angUpperArm == p.angUpperArm
    requires q.posLowerArm == p.posLowerArm && q.angLowerArm == p.angLowerArm && q.lenLowerArm == p.lenLowerArm
    requires q.posWrist == p.posWrist && q.angWristRoll == p.angWristRoll && q.angWristPitch == p.angWristPitch
    requires q.lenWrist == p.lenWrist && q.widthWrist == p.widthWrist
    ensures ArmDraws(math, q, m)[4] == ArmDraws(math, p, m)[4]
  {
    ArmDrawsParts(math, p, m);
    ArmDrawsParts(math, q, m);
  }

  /** The first five parts of the arm, named by the frames they hang from. */
  lemma ArmDrawsParts(math: MathLib, p: Pose, m: Mat4)
    ensures
      var b := BaseFrame(math, p, m);
      var u := RotateX(math, b, p.angUpperArm);
      var l := RotateX(math, Translate(u, p.posLowerArm), p.angLowerArm);
      var w := WristFrame(math, p, l);
      |ArmDraws(math, p, m)| == 9 &&
      ArmDraws(math, p, m)[..5] ==
        [BoxDraw(b, p.posBaseLeft, Vec3(1.0, 1.0, p.scaleBaseZ)), BoxDraw(b, p.posBaseRight, Vec3(1.0, 1.0, p.scaleBaseZ)),
         BoxDraw(u, Vec3(0.0, 0.0, p.sizeUpperArm / 2.0 - 1.0), Vec3(1.0, 1.0, p.sizeUpperArm / 2.0)),
         BoxDraw(l, Vec3(0.0, 0.0, p.lenLowerArm / 2.0), Vec3(p.widthLowerArm / 2.0, p.widthLowerArm / 2.0, p.lenLowerArm / 2.0)),
         Mul(w, Scaling(Vec3(p.widthWrist / 2.0, p.widthWrist / 2.0, p.lenWrist / 2.0)))]
  {
  }
}
