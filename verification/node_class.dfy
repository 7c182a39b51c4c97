/**
 * The hierarchy variant whose scene is a tree of `Node` objects: each node holds
 * an optional origin, a list of rotations, an optional size and its child nodes,
 * and renders itself on the chapter `MatrixStack`.  A node object stands for a
 * `Scene.Node` value (its ghost `model`); `Valid` says the objects below it form a
 * tree that matches that value, so rendering a node draws exactly `Scene.Draws`
 * of its model.
 */
module NodeClass {
  import opened Wrappers
  import opened Matrix
  import opened Poses
  import opened Joints
  import Scene
  import Arm
  import ChapterStack
  import DrawCalls
  import NodeInterface

  /** The values the nodes `nodes` stand for, in order. */
  ghost function Models(nodes: seq<Node>): (r: seq<Scene.Node>)
    reads nodes
    ensures |r| == |nodes|
    ensures forall i :: 0 <= i < |nodes| ==> r[i] == nodes[i].model
  {
    if nodes == [] then [] else [nodes[0].model] + Models(nodes[1..])
  }

  /** Every node object reachable from `nodes`. */
  ghost function ReprOf(nodes: seq<Node>): (r: set<Node>)
    reads nodes
    ensures forall i :: 0 <= i < |nodes| ==> nodes[i].Repr <= r
  {
    if nodes == [] then {} else nodes[0].Repr + ReprOf(nodes[1..])
  }

  lemma OneNode(a: Node)
    ensures ReprOf([a]) == a.Repr && Models([a]) == [a.model]
  {
    assert [a][1..] == [];
  }

  lemma TwoNodes(a: Node, b: Node)
    ensures ReprOf([a, b]) == a.Repr + b.Repr && Models([a, b]) == [a.model, b.model]
  {
    assert [a, b][1..] == [b];
    OneNode(b);
  }

  lemma ThreeNodes(a: Node, b: Node, c: Node)
    ensures ReprOf([a, b, c]) == a.Repr + b.Repr + c.Repr && Models([a, b, c]) == [a.model, b.model, c.model]
  {
    assert [a, b, c][1..] == [b, c];
    TwoNodes(b, c);
  }

  class Node {
    /** Never assigned by this variant: every node keeps a null parent. */
    var parent: Node?
    var origin: Option<Vec3>
    var angles: seq<Scene.Angle>
    var size: Option<Vec3>
    var children: seq<Node>

    ghost var model: Scene.Node
    ghost var Repr: set<Node>

    /** The node and the nodes below it form a tree whose value is `model`. */
    ghost predicate Valid()
      reads this, Repr
      decreases Repr, 1
    {
      this in Repr &&
      model.origin == origin && model.angles == angles && model.size == size &&
      |model.children| == |children| &&
      ChildrenValid()
    }

    /** Each child is a valid tree of its own, strictly below this node, standing for the matching child value. */
    ghost predicate ChildrenValid()
      reads this, Repr
      decreases Repr, 0
    {
      this in Repr &&
      forall i :: 0 <= i < |children| ==>
        children[i] in Repr && children[i].Repr <= Repr && this !in children[i].Repr &&
        i < |model.children| && children[i].model == model.children[i] && children[i].Valid()
    }

    /** `new Node(origin, angles, size, children)`, with a null list read as the empty list. */
    constructor(origin: Option<Vec3>, angles: seq<Scene.Angle>, size: Option<Vec3>, children: seq<Node>)
      requires forall i :: 0 <= i < |children| ==> children[i].Valid()
      ensures Valid() && Repr == {this} + ReprOf(children)
      ensures model == Scene.Node(origin, angles, size, Models(children))
      ensures parent == null
    {
      this.parent := null;
      this.origin := origin;
      this.angles := angles;
      this.size := size;
      this.children := children;
      this.model := Scene.Node(origin, angles, size, Models(children));
      this.Repr := {this} + ReprOf(children);
    }

    /**
     * `render(stack)`: push, apply the origin and the rotations, draw the node
     * scaled to its size, render the children, pop.  It appends exactly the
     * matrices of `Draws` for the model under the current matrix and leaves the
     * stack as it found it.
     */
    method Render(math: MathLib, stack: ChapterStack.MatrixStack, canvas: DrawCalls.Canvas)
      requires Valid()
      modifies stack, canvas
      ensures stack.currMat == old(stack.currMat) && stack.matrices == old(stack.matrices)
      ensures canvas.drawn == old(canvas.drawn) + Scene.Draws(math, model, old(stack.currMat))
      decreases Repr, 1
    {
      NodeInterface.Enter(math, origin, angles, stack);
      if size.Some? {
        NodeInterface.DrawScaled(size.value, stack, canvas);
      }
      RenderChildren(math, stack, canvas);
      stack.Pop();
    }

    /** The `for (const child of this.children ?? [])` loop: each child in order under the node's frame. */
    method RenderChildren(math: MathLib, stack: ChapterStack.MatrixStack, canvas: DrawCalls.Canvas)
      requires Valid()
      modifies stack, canvas
      ensures stack.currMat == old(stack.currMat) && stack.matrices == old(stack.matrices)
      ensures canvas.drawn == old(canvas.drawn) + Scene.DrawsAll(math, model.children, old(stack.currMat))
      decreases Repr, 0
    {
      var j := 0;
      while j < |children|
        invariant 0 <= j <= |children|
        invariant stack.currMat == old(stack.currMat) && stack.matrices == old(stack.matrices)
        invariant canvas.drawn + Scene.DrawsAll(math, model.children[j..], stack.currMat)
          == old(canvas.drawn) + Scene.DrawsAll(math, model.children, stack.currMat)
        decreases |children| - j
      {
        assert model.children[j..][1..] == model.children[j + 1..];
        assert children[j].Repr < Repr;
        children[j].Render(math, stack, canvas);
        j := j + 1;
      }
    }
  }

  /** A node drawn as a box: `new Node(origin, null, size)`. */
  method NewBox(origin: Vec3, size: Vec3) returns (n: Node)
    ensures n.Valid()
    ensures n.model == Arm.Box(origin, size)
  {
    n := new Node(Some(origin), [], Some(size), []);
  }

  /** The lower part of a finger in `makeScene`: moved to the end of the upper segment, bent, with its own segment. */
  method NewLowerFinger(p: Pose, bendAng: real) returns (n: Node)
    ensures n.Valid()
    ensures n.model == Arm.LowerFingerTree(p, bendAng)
  {
    var segment := NewBox(Vec3(0.0, 0.0, p.lenFinger / 2.0), Vec3(p.widthFinger / 2.0, p.widthFinger / 2.0, p.lenFinger / 2.0));
    OneNode(segment);
    n := new Node(Some(Vec3(0.0, 0.0, p.lenFinger)), [Scene.Y(bendAng)], None, [segment]);
  }

  /** One finger of `makeScene`: the finger node, its segment, and the bent lower finger. */
  method NewFinger(p: Pose, pos: Vec3, openAng: real, bendAng: real) returns (n: Node)
    ensures n.Valid()
    ensures n.model == Arm.FingerTree(p, pos, openAng, bendAng)
  {
    var upper := NewBox(Vec3(0.0, 0.0, p.lenFinger / 2.0), Vec3(p.widthFinger / 2.0, p.widthFinger / 2.0, p.lenFinger / 2.0));
    var lower := NewLowerFinger(p, bendAng);
    n := new Node(Some(pos), [Scene.Y(openAng)], None, [upper, lower]);
    TwoNodes(upper, lower);
  }

  /** The wrist node of `makeScene`, rolled then pitched, with the two fingers below it. */
  method NewWrist(p: Pose) returns (n: Node)
    ensures n.Valid()
    ensures n.model == Arm.WristTree(p)
  {
    var left := NewFinger(p, p.posLeftFinger, p.angFingerOpen, -p.angLowerFinger);
    var right := NewFinger(p, p.posRightFinger, -p.angFingerOpen, p.angLowerFinger);
    n := new Node(Some(p.posWrist), [Scene.Z(p.angWristRoll), Scene.X(p.angWristPitch)],
                  Some(Vec3(p.widthWrist / 2.0, p.widthWrist / 2.0, p.lenWrist / 2.0)), [left, right]);
    TwoNodes(left, right);
  }

  /** The lower-arm node of `makeScene`: its box and the wrist below it. */
  method NewLowerArm(p: Pose) returns (n: Node)
    ensures n.Valid()
    ensures n.model == Arm.LowerArmTree(p)
  {
    var box := NewBox(Vec3(0.0, 0.0, p.lenLowerArm / 2.0), Vec3(p.widthLowerArm / 2.0, p.widthLowerArm / 2.0, p.lenLowerArm / 2.0));
    var wrist := NewWrist(p);
    n := new Node(Some(p.posLowerArm), [Scene.X(p.angLowerArm)], None, [box, wrist]);
    TwoNodes(box, wrist);
  }

  /** The upper-arm node of `makeScene`: its box and the lower arm below it. */
  method NewUpperArm(p: Pose) returns (n: Node)
    ensures n.Valid()
    ensures n.model == Arm.UpperArmTree(p)
  {
    var box := NewBox(Vec3(0.0, 0.0, p.sizeUpperArm / 2.0 - 1.0), Vec3(1.0, 1.0, p.sizeUpperArm / 2.0));
    var lowerArm := NewLowerArm(p);
    n := new Node(None, [Scene.X(p.angUpperArm)], None, [box, lowerArm]);
    TwoNodes(box, lowerArm);
  }

  class Hierarchy {
    var pose: Pose
    var scene: Node

    /** The scene is a well-formed node tree whose value is the tree built from the current pose. */
    ghost predicate Valid()
      reads this, scene, scene.Repr
    {
      scene.Valid() && scene.model == Arm.MakeScene(pose)
    }

    constructor()
      ensures pose == DefaultPose && Valid()
    {
      pose := DefaultPose;
      var n := NewScene(DefaultPose);
      scene := n;
    }

    /** `updateScene`: replace the tree by a new one built from the pose. */
    method UpdateScene()
      modifies this
      ensures pose == old(pose) && Valid()
    {
      scene := NewScene(pose);
    }

    /**
     * `draw`: render the scene on a fresh stack; the drawn matrices are those of
     * the tree built from the pose, nine in all.
     */
    method Draw(math: MathLib, canvas: DrawCalls.Canvas)
      requires Valid()
      modifies canvas
      ensures canvas.drawn == old(canvas.drawn) + Scene.Draws(math, Arm.MakeScene(pose), Identity)
      ensures |canvas.drawn| == |old(canvas.drawn)| + 9
    {
      Arm.ArmShape(pose);
      Scene.DrawCount(math, scene.model, Identity);
      var stack := new ChapterStack.MatrixStack();
      scene.Render(math, stack, canvas);
    }

    method AdjBase(increment: bool)
      modifies this
      ensures pose == Adjust(old(pose), Base, increment) && Valid()
    {
      var step := if increment then StandardAngleIncrement else -StandardAngleIncrement;
      pose := pose.(angBase := Rem360(pose.angBase + step));
      UpdateScene();
    }

    method AdjUpperArm(increment: bool)
      modifies this
      ensures pose == Adjust(old(pose), UpperArm, increment) && Valid()
    {
      var step := if increment then StandardAngleIncrement else -StandardAngleIncrement;
      pose := pose.(angUpperArm := Clamp(pose.angUpperArm + step, -90.0, 0.0));
      UpdateScene();
    }

    method AdjLowerArm(increment: bool)
      modifies this
      ensures pose == Adjust(old(pose), LowerArm, increment) && Valid()
    {
      var step := if increment then StandardAngleIncrement else -StandardAngleIncrement;
      pose := pose.(angLowerArm := Clamp(pose.angLowerArm + step, 0.0, 146.25));
      UpdateScene();
    }

    method AdjWristPitch(increment: bool)
      modifies this
      ensures pose == Adjust(old(pose), WristPitch, increment) && Valid()
    {
      var step := if increment then StandardAngleIncrement else -StandardAngleIncrement;
      pose := pose.(angWristPitch := Clamp(pose.angWristPitch + step, 0.0, 90.0));
      UpdateScene();
    }

    method AdjWristRoll(increment: bool)
      modifies this
      ensures pose == Adjust(old(pose), WristRoll, increment) && Valid()
    {
      var step := if increment then StandardAngleIncrement else -StandardAngleIncrement;
      pose := pose.(angWristRoll := Rem360(pose.angWristRoll + step));
      UpdateScene();
    }

    method AdjFingerOpen(increment: bool)
      modifies this
      ensures pose == Adjust(old(pose), FingerOpen, increment) && Valid()
    {
      var step := if increment then SmallAngleIncrement else -SmallAngleIncrement;
      pose := pose.(angFingerOpen := Clamp(pose.angFingerOpen + step, 9.0, 180.0));
      UpdateScene();
    }
  }

  /** `makeScene()`: the whole arm as fresh node objects, from the base down. */
  method NewScene(p: Pose) returns (n: Node)
    ensures n.Valid()
    ensures n.model == Arm.MakeScene(p)
  {
    var left := NewBox(p.posBaseLeft, Vec3(1.0, 1.0, p.scaleBaseZ));
    var right := NewBox(p.posBaseRight, Vec3(1.0, 1.0, p.scaleBaseZ));
    var upperArm := NewUpperArm(p);
    ThreeNodes(left, right, upperArm);
    n := new Node(Some(p.posBase), [Scene.Y(p.angBase)], None, [left, right, upperArm]);
  }
}
