/**
 * The hierarchy variant with no matrix stack: `render(node, matrix)` rebinds a
 * local matrix through the node's translation and rotations, draws
 * `scale(matrix, size)` without keeping it, and hands the unscaled matrix to each
 * child by value.  Its `Hierarchy` builds the tree with `scene(props)` from its own
 * pose fields.
 */
module ByValue {
  import opened Matrix
  import opened Scene
  import opened Transforms
  import opened Poses
  import opened Joints
  import Arm
  import DrawCalls
  import ChapterStack
  import NodeInterface

  /** `render(node, matrix)`: appends exactly the matrices of `Draws` for the node under `matrix`. */
  method Render(math: MathLib, node: Node, matrix: Mat4, canvas: DrawCalls.Canvas)
    modifies canvas
    ensures canvas.drawn == old(canvas.drawn) + Draws(math, node, matrix)
    decreases node, 1
  {
    var m := matrix;
    if node.origin.Some? {
      m := Translate(m, node.origin.value);
    }
    var i := 0;
    while i < |node.angles|
      invariant 0 <= i <= |node.angles|
      invariant canvas.drawn == old(canvas.drawn)
      invariant Rotated(math, m, node.angles[i..]) == Frame(math, node, matrix)
      decreases |node.angles| - i
    {
      assert node.angles[i..][1..] == node.angles[i + 1..];
      match node.angles[i] {
        case X(d) => m := RotateX(math, m, d);
        case Y(d) => m := RotateY(math, m, d);
        case Z(d) => m := RotateZ(math, m, d);
      }
      i := i + 1;
    }
    if node.size.Some? {
      var nodeMatrix := ScaleBy(m, node.size.value);
      canvas.Draw(nodeMatrix);
    }
    RenderChildren(math, node.children, m, canvas);
  }

  /** The `for (const child of node.children ?? [])` loop: each child under the same matrix, in order. */
  method RenderChildren(math: MathLib, nodes: seq<Node>, matrix: Mat4, canvas: DrawCalls.Canvas)
    modifies canvas
    ensures canvas.drawn == old(canvas.drawn) + DrawsAll(math, nodes, matrix)
    decreases nodes, 0
  {
    var j := 0;
    while j < |nodes|
      invariant 0 <= j <= |nodes|
      invariant canvas.drawn + DrawsAll(math, nodes[j..], matrix) == old(canvas.drawn) + DrawsAll(math, nodes, matrix)
      decreases |nodes| - j
    {
      assert nodes[j..][1..] == nodes[j + 1..];
      Render(math, nodes[j], matrix, canvas);
      j := j + 1;
    }
  }

  /**
   * The stack-based and the by-value renderer draw the same matrices in the same
   * order for every tree and every start matrix `m` (the `draw` methods start from
   * the identity).
   */
  method RenderersAgree(math: MathLib, node: Node, m: Mat4) returns (byStack: seq<Mat4>, byValue: seq<Mat4>)
    ensures byStack == byValue
    ensures byValue == Draws(math, node, m)
  {
    var stack := new ChapterStack.MatrixStack();
    stack.currMat := m;
    var first := new DrawCalls.Canvas();
    NodeInterface.Render(math, node, stack, first);
    byStack := first.drawn;
    var second := new DrawCalls.Canvas();
    Render(math, node, m, second);
    byValue := second.drawn;
  }

  class Hierarchy {
    var pose: Pose
    var scene: Node

    /** The scene always is `scene(this)` of the current pose. */
    ghost predicate Valid()
      reads this
    {
      scene == Arm.MakeScene(pose)
    }

    constructor()
      ensures pose == DefaultPose && Valid()
    {
      pose := DefaultPose;
      scene := Arm.MakeScene(DefaultPose);
    }

    method UpdateScene()
      modifies this
      ensures pose == old(pose) && Valid()
    {
      scene := Arm.MakeScene(pose);
    }

    /** `draw`: render the scene from `mat4.create()`, nine draws for the arm. */
    method Draw(math: MathLib, canvas: DrawCalls.Canvas)
      modifies canvas
      ensures canvas.drawn == old(canvas.drawn) + Draws(math, scene, Identity)
      ensures Valid() ==> |canvas.drawn| == |old(canvas.drawn)| + 9
    {
      if Valid() {
        Arm.ArmShape(pose);
        DrawCount(math, scene, Identity);
      }
      Render(math, scene, Identity, canvas);
    }

    method AdjBase(increment: bool)
      modifies this
      ensures pose == Adjust(old(pose), Base, increment) && Valid()
    {
      var step := if increment then StandardAngleIncrement else -StandardAngleIncrement;
      pose := pose.(angBase := Rem360(pose.angBase + step));
      UpdateScene();
    }

    method AdjUpperArm(increment: bool)
      modifies this
      ensures pose == Adjust(old(pose), UpperArm, increment) && Valid()
    {
      var step := if increment then StandardAngleIncrement else -StandardAngleIncrement;
      pose := pose.(angUpperArm := Clamp(pose.angUpperArm + step, -90.0, 0.0));
      UpdateScene();
    }

    method AdjLowerArm(increment: bool)
      modifies this
      ensures pose == Adjust(old(pose), LowerArm, increment) && Valid()
    {
      var step := if increment then StandardAngleIncrement else -StandardAngleIncrement;
      pose := pose.(angLowerArm := Clamp(pose.angLowerArm + step, 0.0, 146.25));
      UpdateScene();
    }

    method AdjWristPitch(increment: bool)
      modifies this
      ensures pose == Adjust(old(pose), WristPitch, increment) && Valid()
    {
      var step := if increment then StandardAngleIncrement else -StandardAngleIncrement;
      pose := pose.(angWristPitch := Clamp(pose.angWristPitch + step, 0.0, 90.0));
      UpdateScene();
    }

    method AdjWristRoll(increment: bool)
      modifies this
      ensures pose == Adjust(old(pose), WristRoll, increment) && Valid()
    {
      var step := if increment then StandardAngleIncrement else -StandardAngleIncrement;
      pose := pose.(angWristRoll := Rem360(pose.angWristRoll + step));
      UpdateScene();
    }

    method AdjFingerOpen(increment: bool)
      modifies this
      ensures pose == Adjust(old(pose), FingerOpen, increment) && Valid()
    {
      var step := if increment then SmallAngleIncrement else -SmallAngleIncrement;
      pose := pose.(angFingerOpen := Clamp(pose.angFingerOpen + step, 9.0, 180.0));
      UpdateScene();
    }
  }
}
