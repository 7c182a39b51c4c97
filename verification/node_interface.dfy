/**
 * The hierarchy variant whose scene is a tree of plain `Node` records rendered
 * with the chapter's own `MatrixStack`: `render` pushes, applies the node's
 * translation and rotations, draws the node (scaled) between a second push and
 * pop, renders the children and pops.  The `Hierarchy` class keeps the pose and
 * rebuilds the tree after each adjustment.
 */
module NodeInterface {
  import opened Wrappers
  import opened Matrix
  import opened Scene
  import opened Poses
  import opened Joints
  import Arm
  import ChapterStack
  import DrawCalls

  /** The `for (const angle of node.angles ?? [])` loop: each rotation in list order. */
  method RotateAll(math: MathLib, angles: seq<Angle>, stack: ChapterStack.MatrixStack)
    modifies stack
    ensures stack.currMat == Rotated(math, old(stack.currMat), angles)
    ensures stack.matrices == old(stack.matrices)
  {
    var i := 0;
    while i < |angles|
      invariant 0 <= i <= |angles|
      invariant stack.matrices == old(stack.matrices)
      invariant Rotated(math, stack.currMat, angles[i..]) == Rotated(math, old(stack.currMat), angles)
    {
      assert angles[i..][1..] == angles[i + 1..];
      match angles[i] {
        case X(d) => stack.RotateX(math, d);
        case Y(d) => stack.RotateY(math, d);
        case Z(d) => stack.RotateZ(math, d);
      }
      i := i + 1;
    }
  }

  /**
   * The start of `render`: save the current matrix, then apply the node's
   * origin (when it has one) and its rotations, so the current matrix is the
   * node's frame.
   */
  method Enter(math: MathLib, origin: Option<Vec3>, angles: seq<Angle>, stack: ChapterStack.MatrixStack)
    modifies stack
    ensures stack.currMat == Rotated(math, Translated(old(stack.currMat), origin), angles)
    ensures stack.matrices == old(stack.matrices) + [old(stack.currMat)]
  {
    stack.Push();
    if origin.Some? {
      stack.Translate(origin.value);
    }
    RotateAll(math, angles, stack);
  }

  /** The `if (node.size)` block: draw the current frame scaled to the node's size. */
  method DrawScaled(size: Vec3, stack: ChapterStack.MatrixStack, canvas: DrawCalls.Canvas)
    modifies stack, canvas
    ensures stack.currMat == old(stack.currMat) && stack.matrices == old(stack.matrices)
    ensures canvas.drawn == old(canvas.drawn) + [Mul(old(stack.currMat), Scaling(size))]
  {
    stack.Push();
    stack.Scale(size);
    var top := stack.Top();
    canvas.Draw(top);
    stack.Pop();
  }

  /**
   * `render(node, stack)`: appends exactly the matrices of `Draws` for the node
   * under the current matrix, and leaves the stack as it found it.
   */
  method Render(math: MathLib, node: Node, stack: ChapterStack.MatrixStack, canvas: DrawCalls.Canvas)
    modifies stack, canvas
    ensures stack.currMat == old(stack.currMat) && stack.matrices == old(stack.matrices)
    ensures canvas.drawn == old(canvas.drawn) + Draws(math, node, old(stack.currMat))
    decreases node, 1
  {
    Enter(math, node.origin, node.angles, stack);
    if node.size.Some? {
      DrawScaled(node.size.value, stack, canvas);
    }
    RenderChildren(math, node.children, stack, canvas);
    stack.Pop();
  }

  /** The `for (const child of node.children ?? [])` loop: render each child in order under the same frame. */
  method RenderChildren(math: MathLib, nodes: seq<Node>, stack: ChapterStack.MatrixStack, canvas: DrawCalls.Canvas)
    modifies stack, canvas
    ensures stack.currMat == old(stack.currMat) && stack.matrices == old(stack.matrices)
    ensures canvas.drawn == old(canvas.drawn) + DrawsAll(math, nodes, old(stack.currMat))
    decreases nodes, 0
  {
    var j := 0;
    while j < |nodes|
      invariant 0 <= j <= |nodes|
      invariant stack.currMat == old(stack.currMat) && stack.matrices == old(stack.matrices)
      invariant canvas.drawn + DrawsAll(math, nodes[j..], stack.currMat) == old(canvas.drawn) + DrawsAll(math, nodes, stack.currMat)
      decreases |nodes| - j
    {
      assert nodes[j..][1..] == nodes[j + 1..];
      Render(math, nodes[j], stack, canvas);
      j := j + 1;
    }
  }

  class Hierarchy {
    var pose: Pose
    var scene: Node

    /** The scene always is the tree built from the current pose. */
    ghost predicate Valid()
      reads this
    {
      scene == Arm.MakeScene(pose)
    }

    constructor()
      ensures pose == DefaultPose && Valid()
    {
      pose := DefaultPose;
      scene := Arm.MakeScene(DefaultPose);
    }

    /** `updateScene`: rebuild the tree from the pose. */
    method UpdateScene()
      modifies this
      ensures pose == old(pose) && Valid()
    {
      scene := Arm.MakeScene(pose);
    }

    /**
     * `draw`: render the scene on a fresh stack, so every drawn matrix is the
     * arm's own, nine in all, in the order of the arm's parts.
     */
    method Draw(math: MathLib, canvas: DrawCalls.Canvas)
      modifies canvas
      ensures canvas.drawn == old(canvas.drawn) + Draws(math, scene, Identity)
      ensures Valid() ==> |canvas.drawn| == |old(canvas.drawn)| + 9
    {
      if Valid() {
        Arm.ArmShape(pose);
        DrawCount(math, scene, Identity);
      }
      var stack := new ChapterStack.MatrixStack();
      Render(math, scene, stack, canvas);
    }

    method AdjBase(increment: bool)
      modifies this
      ensures pose == Adjust(old(pose), Base, increment) && Valid()
    {
      var step := if increment then StandardAngleIncrement else -StandardAngleIncrement;
      pose := pose.(angBase := Rem360(pose.angBase + step));
      UpdateScene();
    }

    method AdjUpperArm(increment: bool)
      modifies this
      ensures pose == Adjust(old(pose), UpperArm, increment) && Valid()
    {
      var step := if increment then StandardAngleIncrement else -StandardAngleIncrement;
      pose := pose.(angUpperArm := Clamp(pose.angUpperArm + step, -90.0, 0.0));
      UpdateScene();
    }

    method AdjLowerArm(increment: bool)
      modifies this
      ensures pose == Adjust(old(pose), LowerArm, increment) && Valid()
    {
      var step := if increment then StandardAngleIncrement else -StandardAngleIncrement;
      pose := pose.(angLowerArm := Clamp(pose.angLowerArm + step, 0.0, 146.25));
      UpdateScene();
    }

    method AdjWristPitch(increment: bool)
      modifies this
      ensures pose == Adjust(old(pose), WristPitch, increment) && Valid()
    {
      var step := if increment then StandardAngleIncrement else -StandardAngleIncrement;
      pose := pose.(angWristPitch := Clamp(pose.angWristPitch + step, 0.0, 90.0));
      UpdateScene();
    }

    method AdjWristRoll(increment: bool)
      modifies this
      ensures pose == Adjust(old(pose), WristRoll, increment) && Valid()
    {
      var step := if increment then StandardAngleIncrement else -StandardAngleIncrement;
      pose := pose.(angWristRoll := Rem360(pose.angWristRoll + step));
      UpdateScene();
    }

    method AdjFingerOpen(increment: bool)
      modifies this
      ensures pose == Adjust(old(pose), FingerOpen, increment) && Valid()
    {
      var step := if increment then SmallAngleIncrement else -SmallAngleIncrement;
      pose := pose.(angFingerOpen := Clamp(pose.angFingerOpen + step, 9.0, 180.0));
      UpdateScene();
    }
  }
}
