/**
 * The pose adjusters `adjBase` .. `adjFingerOpen` shared by every hierarchy
 * variant: step one joint angle by a fixed increment, then either clamp it into
 * the joint's range or wrap it with JavaScript's `% 360`.
 */
module Joints {
  import opened Poses

  const StandardAngleIncrement: real := 11.25
  const SmallAngleIncrement: real := 9.0

  /** `clamp(value, minValue, maxValue)`: below the range gives the minimum, above it the maximum. */
  function Clamp(value: real, lo: real, hi: real): (r: real)
    ensures lo <= hi ==> lo <= r <= hi
    ensures lo <= hi ==> (r == value <==> lo <= value <= hi)
    ensures lo <= hi && value <= lo ==> r == lo
    ensures lo <= hi && hi <= value ==> r == hi
  {
    if value < lo then lo else if value > hi then hi else value
  }

  /** JavaScript's truncation toward zero of a quotient. */
  function Trunc(x: real): (k: int)
    ensures 0.0 <= x ==> 0.0 <= x - k as real < 1.0
    ensures x <= 0.0 ==> -1.0 < x - k as real <= 0.0
  {
    if x >= 0.0 then x.Floor else -((-x).Floor)
  }

  /**
   * JavaScript's `a % 360`: the remainder of the quotient truncated toward zero,
   * so it has the sign of `a` (a Euclidean remainder would not).
   */
  function Rem360(a: real): (r: real)
    ensures -360.0 < r < 360.0
    ensures 0.0 <= a ==> 0.0 <= r
    ensures a <= 0.0 ==> r <= 0.0
    ensures -360.0 < a < 360.0 ==> r == a
    ensures ((a - r) / 360.0).Floor as real == (a - r) / 360.0
  {
    a - 360.0 * Trunc(a / 360.0) as real
  }

  /** The step of one key press: 11.25 degrees, or 9 for the fingers. */
  function Step(j: Joint, increment: bool): real
  {
    var size := if j == FingerOpen then SmallAngleIncrement else StandardAngleIncrement;
    if increment then size else -size
  }

  /** The joints whose angle wraps with `% 360` rather than being clamped. */
  predicate Wraps(j: Joint) { j == Base || j == WristRoll }

  /** The range a clamped joint is kept in. */
  function Lower(j: Joint): real
  {
    match j
    case UpperArm => -90.0
    case LowerArm => 0.0
    case WristPitch => 0.0
    case FingerOpen => 9.0
    case _ => -360.0
  }

  function Upper(j: Joint): real
  {
    match j
    case UpperArm => 0.0
    case LowerArm => 146.25
    case WristPitch => 90.0
    case FingerOpen => 180.0
    case _ => 360.0
  }

  /** The new angle of joint `j` after one adjustment. */
  function Adjusted(j: Joint, angle: real, increment: bool): real
  {
    var a := angle + Step(j, increment);
    if Wraps(j) then Rem360(a) else Clamp(a, Lower(j), Upper(j))
  }

  /** `adj<Joint>(increment)`: the pose after one adjustment of `j`. */
  function Adjust(p: Pose, j: Joint, increment: bool): Pose
  {
    WithJointAngle(p, j, Adjusted(j, JointAngle(p, j), increment))
  }

  /** A pose whose clamped joints are in range and whose wrapped joints are within one turn. */
  predicate InRange(p: Pose)
  {
    forall j: Joint :: Lower(j) <= JointAngle(p, j) <= Upper(j) && (Wraps(j) ==> -360.0 < JointAngle(p, j) < 360.0)
  }

  /** An adjustment changes its own joint and nothing else. */
  lemma AdjustOnlyTouchesItsJoint(p: Pose, j: Joint, increment: bool)
    ensures forall k :: k != j ==> JointAngle(Adjust(p, j, increment), k) == JointAngle(p, k)
    ensures Rigid(Adjust(p, j, increment)) == Rigid(p)
  {
  }

  /** A clamped joint ends in its range whatever angle it started from. */
  lemma AdjustClampsIntoRange(p: Pose, j: Joint, increment: bool)
    requires !Wraps(j)
    ensures Lower(j) <= JointAngle(Adjust(p, j, increment), j) <= Upper(j)
    ensures Upper(j) <= JointAngle(p, j) + Step(j, increment) ==> JointAngle(Adjust(p, j, increment), j) == Upper(j)
    ensures JointAngle(p, j) + Step(j, increment) <= Lower(j) ==> JointAngle(Adjust(p, j, increment), j) == Lower(j)
  {
  }

  /** A wrapped joint ends strictly within one turn, on the same side of zero as the stepped angle. */
  lemma AdjustWrapsWithinATurn(p: Pose, j: Joint, increment: bool)
    requires Wraps(j)
    ensures -360.0 < JointAngle(Adjust(p, j, increment), j) < 360.0
    ensures 0.0 <= JointAngle(p, j) + Step(j, increment) ==> 0.0 <= JointAngle(Adjust(p, j, increment), j)
    ensures JointAngle(p, j) + Step(j, increment) <= 0.0 ==> JointAngle(Adjust(p, j, increment), j) <= 0.0
  {
  }

  lemma DefaultPoseInRange()
    ensures InRange(DefaultPose)
  {
  }

  /** Adjusting any joint keeps a pose in range. */
  lemma AdjustPreservesInRange(p: Pose, j: Joint, increment: bool)
    requires InRange(p)
    ensures InRange(Adjust(p, j, increment))
  {
    var q := Adjust(p, j, increment);
    forall k: Joint
      ensures Lower(k) <= JointAngle(q, k) <= Upper(k) && (Wraps(k) ==> -360.0 < JointAngle(q, k) < 360.0)
    {
      if k != j {
        assert JointAngle(q, k) == JointAngle(p, k);
      } else if Wraps(j) {
        AdjustWrapsWithinATurn(p, j, increment);
      } else {
        AdjustClampsIntoRange(p, j, increment);
      }
    }
  }

  /** A full turn wraps to zero in both directions. */
  lemma BaseWrapsAtFullTurn(p: Pose)
    ensures Adjust(p.(angBase := 348.75), Base, true).angBase == 0.0
    ensures Adjust(p.(angBase := -348.75), Base, false).angBase == 0.0
  {
    assert Rem360(360.0) == 0.0 by { assert Trunc(360.0 / 360.0) == 1; }
    assert Rem360(-360.0) == 0.0 by { assert Trunc(-360.0 / 360.0) == -1; }
  }

  /** The wrap keeps the sign: past a negative full turn the angle stays negative. */
  lemma WrapKeepsSign()
    ensures Rem360(-366.25) == -6.25
  {
    assert Trunc(-366.25 / 360.0) == -1;
  }

  /** The pose after `k` key presses on the same joint in the same direction. */
  function Times(p: Pose, j: Joint, increment: bool, k: nat): Pose
    decreases k
  {
    if k == 0 then p else Adjust(Times(p, j, increment, k - 1), j, increment)
  }

  /** Eight presses of `adjBase(true)` from -45 degrees end at exactly 45: no wrap on the way. */
  lemma BaseEightStepsFromMinus45(p: Pose)
    ensures Times(p.(angBase := -45.0), Base, true, 8).angBase == 45.0
  {
    var q := p.(angBase := -45.0);
    assert Times(q, Base, true, 1).angBase == -33.75;
    assert Times(q, Base, true, 2).angBase == -22.5;
    assert Times(q, Base, true, 3).angBase == -11.25;
    assert Times(q, Base, true, 4).angBase == 0.0;
    assert Times(q, Base, true, 5).angBase == 11.25;
    assert Times(q, Base, true, 6).angBase == 22.5;
    assert Times(q, Base, true, 7).angBase == 33.75;
  }

  /** Six presses of `adjUpperArm(true)` from -60 degrees stop at the upper bound 0. */
  lemma UpperArmSixStepsFromMinus60(p: Pose)
    ensures Times(p.(angUpperArm := -60.0), UpperArm, true, 6).angUpperArm == 0.0
  {
    var q := p.(angUpperArm := -60.0);
    assert Times(q, UpperArm, true, 1).angUpperArm == -48.75;
    assert Times(q, UpperArm, true, 2).angUpperArm == -37.5;
    assert Times(q, UpperArm, true, 3).angUpperArm == -26.25;
    assert Times(q, UpperArm, true, 4).angUpperArm == -15.0;
    assert Times(q, UpperArm, true, 5).angUpperArm == -3.75;
  }
}
