/**
 * The arm's pose: the twenty-two fields every `Hierarchy` class of the chapter
 * declares (and that the by-value variant passes to `scene` as its props), with
 * their initial values, and the six joint angles the keyboard adjusts.
 */
module Poses {
  import opened Matrix

  datatype Pose = Pose(
    posBase: Vec3, angBase: real,
    posBaseLeft: Vec3, posBaseRight: Vec3, scaleBaseZ: real,
    angUpperArm: real, sizeUpperArm: real,
    posLowerArm: Vec3, angLowerArm: real, lenLowerArm: real, widthLowerArm: real,
    posWrist: Vec3, angWristRoll: real, angWristPitch: real, lenWrist: real, widthWrist: real,
    posLeftFinger: Vec3, posRightFinger: Vec3, angFingerOpen: real,
    lenFinger: real, widthFinger: real, angLowerFinger: real)

  /** The field initialisers of `Hierarchy`. */
  const DefaultPose: Pose := Pose(
    Vec3(3.0, -5.0, -40.0), -45.0,
    Vec3(2.0, 0.0, 0.0), Vec3(-2.0, 0.0, 0.0), 3.0,
    -60.0, 9.0,
    Vec3(0.0, 0.0, 8.0), 60.0, 5.0, 1.5,
    Vec3(0.0, 0.0, 5.0), 0.0, 90.0, 2.0, 2.0,
    Vec3(1.0, 0.0, 1.0), Vec3(-1.0, 0.0, 1.0), 27.0,
    2.0, 0.5, 45.0)

  /** The joints with an `adj*` operation. */
  datatype Joint = Base | UpperArm | LowerArm | WristPitch | WristRoll | FingerOpen

  function JointAngle(p: Pose, j: Joint): real
  {
    match j
    case Base => p.angBase
    case UpperArm => p.angUpperArm
    case LowerArm => p.angLowerArm
    case WristPitch => p.angWristPitch
    case WristRoll => p.angWristRoll
    case FingerOpen => p.angFingerOpen
  }

  /** The pose with joint `j` set to `a`. */
  function WithJointAngle(p: Pose, j: Joint, a: real): (q: Pose)
    ensures JointAngle(q, j) == a
    ensures forall k :: k != j ==> JointAngle(q, k) == JointAngle(p, k)
    ensures Rigid(q) == Rigid(p)
  {
    match j
    case Base => p.(angBase := a)
    case UpperArm => p.(angUpperArm := a)
    case LowerArm => p.(angLowerArm := a)
    case WristPitch => p.(angWristPitch := a)
    case WristRoll => p.(angWristRoll := a)
    case FingerOpen => p.(angFingerOpen := a)
  }

  /** Everything but the six adjustable angles: positions, sizes and the fixed lower-finger bend. */
  function Rigid(p: Pose): Pose
  {
    p.(angBase := 0.0, angUpperArm := 0.0, angLowerArm := 0.0, angWristPitch := 0.0,
       angWristRoll := 0.0, angFingerOpen := 0.0)
  }
}
