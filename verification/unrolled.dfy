/**
 * The hierarchy chapter's own `Hierarchy`: no scene tree, but the same walk
 * written out by hand as `draw`, `drawUpperArm`, `drawLowerArm`, `drawWrist`
 * and `drawFingers` on the chapter `MatrixStack`.  Each part is bracketed by a
 * push and a pop, each drawn piece by an inner push and pop around its scale.
 */
module Unrolled {
  import opened Matrix
  import opened Scene
  import opened Transforms
  import opened Poses
  import opened Joints
  import opened Arm
  import ChapterStack
  import DrawCalls

  /**
   * The block the chapter writes out for every drawn piece: push, move to the
   * piece's centre, scale to its half-extents, draw, pop.
   */
  method DrawBox(origin: Vec3, size: Vec3, stack: ChapterStack.MatrixStack, canvas: DrawCalls.Canvas)
    modifies stack, canvas
    ensures stack.currMat == old(stack.currMat) && stack.matrices == old(stack.matrices)
    ensures canvas.drawn == old(canvas.drawn) + [BoxDraw(old(stack.currMat), origin, size)]
  {
    stack.Push();
    stack.Translate(origin);
    stack.Scale(size);
    var top := stack.Top();
    canvas.Draw(top);
    stack.Pop();
  }

  /**
   * What `drawWrist` leaves on the canvas, the wrist piece and then the two
   * fingers under the wrist frame, is the wrist subtree's draws.
   */
  lemma WristAppended(math: MathLib, p: Pose, m: Mat4, before: seq<Mat4>, after: seq<Mat4>)
    requires var w := WristFrame(math, p, m);
      after == before + [Mul(w, Scaling(Vec3(p.widthWrist / 2.0, p.widthWrist / 2.0, p.lenWrist / 2.0)))]
        + Draws(math, FingerTree(p, p.posLeftFinger, p.angFingerOpen, -p.angLowerFinger), w)
        + Draws(math, FingerTree(p, p.posRightFinger, -p.angFingerOpen, p.angLowerFinger), w)
    ensures after == before + Draws(math, WristTree(p), m)
  {
    WristSplit(math, p, m);
    var w := WristFrame(math, p, m);
    var piece := [Mul(w, Scaling(Vec3(p.widthWrist / 2.0, p.widthWrist / 2.0, p.lenWrist / 2.0)))];
    var left := Draws(math, FingerTree(p, p.posLeftFinger, p.angFingerOpen, -p.angLowerFinger), w);
    var right := Draws(math, FingerTree(p, p.posRightFinger, -p.angFingerOpen, p.angLowerFinger), w);
    assert before + piece + left + right == before + (piece + left + right);
  }

  /** The inner block around each drawn piece that needs no offset: push, scale, draw, pop. */
  method DrawScaled(size: Vec3, stack: ChapterStack.MatrixStack, canvas: DrawCalls.Canvas)
    modifies stack, canvas
    ensures stack.currMat == old(stack.currMat) && stack.matrices == old(stack.matrices)
    ensures canvas.drawn == old(canvas.drawn) + [Mul(old(stack.currMat), Scaling(size))]
  {
    stack.Push();
    stack.Scale(size);
    var top := stack.Top();
    canvas.Draw(top);
    stack.Pop();
  }

  class Hierarchy {
    var pose: Pose

    constructor()
      ensures pose == DefaultPose
    {
      pose := DefaultPose;
    }

    /**
     * `draw`: from the identity, move to the base and turn it, draw the two base
     * pieces and then the arm; the matrices drawn are those of rendering the
     * scene tree of the same pose.
     */
    method Draw(math: MathLib, canvas: DrawCalls.Canvas)
      modifies canvas
      ensures canvas.drawn == old(canvas.drawn) + Draws(math, MakeScene(pose), Identity)
    {
      var stack := new ChapterStack.MatrixStack();
      stack.Translate(pose.posBase);
      stack.RotateY(math, pose.angBase);
      assert stack.currMat == BaseFrame(math, pose, Identity);
      SceneSplit(math, pose, Identity);
      DrawBox(pose.posBaseLeft, Vec3(1.0, 1.0, pose.scaleBaseZ), stack, canvas);
      DrawBox(pose.posBaseRight, Vec3(1.0, 1.0, pose.scaleBaseZ), stack, canvas);
      DrawUpperArm(math, stack, canvas);
    }

    /**
     * One finger of `drawFingers` (the chapter writes the block out twice, for the
     * left and the right finger): move to the finger's root, open it, draw the
     * upper segment, then move along it, bend, and draw the lower segment.
     */
    method DrawFinger(math: MathLib, pos: Vec3, openAng: real, bendAng: real,
                      stack: ChapterStack.MatrixStack, canvas: DrawCalls.Canvas)
      modifies stack, canvas
      ensures stack.currMat == old(stack.currMat) && stack.matrices == old(stack.matrices)
      ensures canvas.drawn == old(canvas.drawn) + Draws(math, FingerTree(pose, pos, openAng, bendAng), old(stack.currMat))
    {
      FingerTreeDraws(math, pose, stack.currMat, pos, openAng, bendAng);
      ghost var upper := RotateY(math, Translate(stack.currMat, pos), openAng);
      ghost var lower := RotateY(math, Translate(upper, Vec3(0.0, 0.0, pose.lenFinger)), bendAng);
      var segmentOrigin := Vec3(0.0, 0.0, pose.lenFinger / 2.0);
      var segmentSize := Vec3(pose.widthFinger / 2.0, pose.widthFinger / 2.0, pose.lenFinger / 2.0);

      stack.Push();
      stack.Translate(pos);
      stack.RotateY(math, openAng);
      assert stack.currMat == upper;
      DrawBox(segmentOrigin, segmentSize, stack, canvas);

      stack.Push();
      stack.Translate(Vec3(0.0, 0.0, pose.lenFinger));
      stack.RotateY(math, bendAng);
      assert stack.currMat == lower;
      DrawBox(segmentOrigin, segmentSize, stack, canvas);
      stack.Pop();

      stack.Pop();
    }

    /** `drawFingers`: the left finger, opened one way and bent back, then the right finger, mirrored. */
    method DrawFingers(math: MathLib, stack: ChapterStack.MatrixStack, canvas: DrawCalls.Canvas)
      modifies stack, canvas
      ensures stack.currMat == old(stack.currMat) && stack.matrices == old(stack.matrices)
      ensures canvas.drawn == old(canvas.drawn)
        + Draws(math, FingerTree(pose, pose.posLeftFinger, pose.angFingerOpen, -pose.angLowerFinger), old(stack.currMat))
        + Draws(math, FingerTree(pose, pose.posRightFinger, -pose.angFingerOpen, pose.angLowerFinger), old(stack.currMat))
    {
      DrawFinger(math, pose.posLeftFinger, pose.angFingerOpen, -pose.angLowerFinger, stack, canvas);
      DrawFinger(math, pose.posRightFinger, -pose.angFingerOpen, pose.angLowerFinger, stack, canvas);
    }

    /** The start of `drawWrist`: save the current matrix, move to the wrist, roll, then pitch. */
    method EnterWrist(math: MathLib, stack: ChapterStack.MatrixStack)
      modifies stack
      ensures stack.currMat == WristFrame(math, pose, old(stack.currMat))
      ensures stack.matrices == old(stack.matrices) + [old(stack.currMat)]
    {
      stack.Push();
      stack.Translate(pose.posWrist);
      stack.RotateZ(math, pose.angWristRoll);
      stack.RotateX(math, pose.angWristPitch);
    }

    /** `drawWrist`: move to the wrist, roll, pitch, draw the wrist piece, then the fingers. */
    method DrawWrist(math: MathLib, stack: ChapterStack.MatrixStack, canvas: DrawCalls.Canvas)
      modifies stack, canvas
      ensures stack.currMat == old(stack.currMat) && stack.matrices == old(stack.matrices)
      ensures canvas.drawn == old(canvas.drawn) + Draws(math, WristTree(pose), old(stack.currMat))
    {
      var size := Vec3(pose.widthWrist / 2.0, pose.widthWrist / 2.0, pose.lenWrist / 2.0);
      ghost var m := stack.currMat;
      EnterWrist(math, stack);
      DrawScaled(size, stack, canvas);
      DrawFingers(math, stack, canvas);
      WristAppended(math, pose, m, old(canvas.drawn), canvas.drawn);
      stack.Pop();
    }

    /** `drawLowerArm`: move to the elbow, bend, draw the lower arm, then the wrist. */
    method DrawLowerArm(math: MathLib, stack: ChapterStack.MatrixStack, canvas: DrawCalls.Canvas)
      modifies stack, canvas
      ensures stack.currMat == old(stack.currMat) && stack.matrices == old(stack.matrices)
      ensures canvas.drawn == old(canvas.drawn) + Draws(math, LowerArmTree(pose), old(stack.currMat))
    {
      LowerArmSplit(math, pose, stack.currMat);
      stack.Push();
      stack.Translate(pose.posLowerArm);
      stack.RotateX(math, pose.angLowerArm);
      DrawBox(Vec3(0.0, 0.0, pose.lenLowerArm / 2.0),
              Vec3(pose.widthLowerArm / 2.0, pose.widthLowerArm / 2.0, pose.lenLowerArm / 2.0), stack, canvas);
      DrawWrist(math, stack, canvas);
      stack.Pop();
    }

    /** `drawUpperArm`: turn at the shoulder, draw the upper arm, then the lower arm. */
    method DrawUpperArm(math: MathLib, stack: ChapterStack.MatrixStack, canvas: DrawCalls.Canvas)
      modifies stack, canvas
      ensures stack.currMat == old(stack.currMat) && stack.matrices == old(stack.matrices)
      ensures canvas.drawn == old(canvas.drawn) + Draws(math, UpperArmTree(pose), old(stack.currMat))
    {
      UpperArmSplit(math, pose, stack.currMat);
      stack.Push();
      stack.RotateX(math, pose.angUpperArm);
      DrawBox(Vec3(0.0, 0.0, pose.sizeUpperArm / 2.0 - 1.0), Vec3(1.0, 1.0, pose.sizeUpperArm / 2.0), stack, canvas);
      DrawLowerArm(math, stack, canvas);
      stack.Pop();
    }

    method AdjBase(increment: bool)
      modifies this
      ensures pose == Adjust(old(pose), Base, increment)
    {
      var step := if increment then StandardAngleIncrement else -StandardAngleIncrement;
      pose := pose.(angBase := Rem360(pose.angBase + step));
    }

    method AdjUpperArm(increment: bool)
      modifies this
      ensures pose == Adjust(old(pose), UpperArm, increment)
    {
      var step := if increment then StandardAngleIncrement else -StandardAngleIncrement;
      pose := pose.(angUpperArm := Clamp(pose.angUpperArm + step, -90.0, 0.0));
    }

    method AdjLowerArm(increment: bool)
      modifies this
      ensures pose == Adjust(old(pose), LowerArm, increment)
    {
      var step := if increment then StandardAngleIncrement else -StandardAngleIncrement;
      pose := pose.(angLowerArm := Clamp(pose.angLowerArm + step, 0.0, 146.25));
    }

    method AdjWristPitch(increment: bool)
      modifies this
      ensures pose == Adjust(old(pose), WristPitch, increment)
    {
      var step := if increment then StandardAngleIncrement else -StandardAngleIncrement;
      pose := pose.(angWristPitch := Clamp(pose.angWristPitch + step, 0.0, 90.0));
    }

    method AdjWristRoll(increment: bool)
      modifies this
      ensures pose == Adjust(old(pose), WristRoll, increment)
    {
      var step := if increment then StandardAngleIncrement else -StandardAngleIncrement;
      pose := pose.(angWristRoll := Rem360(pose.angWristRoll + step));
    }

    method AdjFingerOpen(increment: bool)
      modifies this
      ensures pose == Adjust(old(pose), FingerOpen, increment)
    {
      var step := if increment then SmallAngleIncrement else -SmallAngleIncrement;
      pose := pose.(angFingerOpen := Clamp(pose.angFingerOpen + step, 9.0, 180.0));
    }
  }
}
