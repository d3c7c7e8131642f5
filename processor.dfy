/**
 * The `Processor` component: a signed joint angle, three offset angles in
 * `yogaPoses`, and the `changeColour` flag that an if/else chain on the pose id sets.
 */
module Processor {
  import opened Wrappers
  import opened Keypoints
  import opened Skeleton

  /** Angle at `b`, in degrees, from the ray to `c` to the ray to `a`, with its sign. */
  function SignedAngle(trig: Trig, a: Position, b: Position, c: Position): real {
    (Direction(trig, b, a) - Direction(trig, b, c)) * trig.degreesPerRadian
  }

  /** `arcTanFunction`: undetermined exactly when some point is absent. */
  function ArcTan(trig: Trig, a: Option<Position>, b: Option<Position>, c: Option<Position>)
    : (theta: Option<real>)
    ensures theta.None? <==> (a.None? || b.None? || c.None?)
  {
    if a.None? || b.None? || c.None? then None
    else Some(SignedAngle(trig, a.value, b.value, c.value))
  }

  /** Swapping the outer points negates the angle. */
  lemma ArcTanAntiSymmetric(trig: Trig, a: Position, b: Position, c: Position)
    ensures ArcTan(trig, Some(a), Some(b), Some(c)).value == -ArcTan(trig, Some(c), Some(b), Some(a)).value
  {
  }

  /** Equal outer points give the angle 0. */
  lemma ArcTanDegenerate(trig: Trig, a: Position, b: Position)
    ensures ArcTan(trig, Some(a), Some(b), Some(a)) == Some(0.0)
  {
  }

  /** The record `yogaPoses`: three pose angles, each undetermined when a joint is missing. */
  datatype YogaPoses = YogaPoses(pos1: Option<real>, pos2: Option<real>, pos3: Option<real>)

  /**
   * `yogaPoses`: `pos1` is 360 minus the left arm angle, `pos2` the right arm angle,
   * `pos3` 180 plus the eye-hip-knee angle; each determined exactly when its three
   * joints were recorded, so the `?? 0` defaults never apply.
   */
  function ComputeYogaPoses(trig: Trig, jointAngles: JointMap): (y: YogaPoses)
    ensures y.pos1.Some? <==>
              "leftShoulder" in jointAngles && "leftElbow" in jointAngles && "leftWrist" in jointAngles
    ensures y.pos1.Some? ==>
              y.pos1.value == 360.0 - SignedAngle(trig, jointAngles["leftShoulder"],
                                                  jointAngles["leftElbow"], jointAngles["leftWrist"])
    ensures y.pos2.Some? <==>
              "rightShoulder" in jointAngles && "rightElbow" in jointAngles && "rightWrist" in jointAngles
    ensures y.pos2.Some? ==>
              y.pos2.value == SignedAngle(trig, jointAngles["rightShoulder"],
                                          jointAngles["rightElbow"], jointAngles["rightWrist"])
    ensures y.pos3.Some? <==>
              "rightEye" in jointAngles && "rightHip" in jointAngles && "rightKnee" in jointAngles
    ensures y.pos3.Some? ==>
              y.pos3.value == 180.0 + SignedAngle(trig, jointAngles["rightEye"],
                                                  jointAngles["rightHip"], jointAngles["rightKnee"])
  {
    var leftShoulder := Lookup(jointAngles, "leftShoulder");
    var leftElbow := Lookup(jointAngles, "leftElbow");
    var leftWrist := Lookup(jointAngles, "leftWrist");
    var rightShoulder := Lookup(jointAngles, "rightShoulder");
    var rightElbow := Lookup(jointAngles, "rightElbow");
    var rightWrist := Lookup(jointAngles, "rightWrist");
    var rightEye := Lookup(jointAngles, "rightEye");
    var rightHip := Lookup(jointAngles, "rightHip");
    var rightKnee := Lookup(jointAngles, "rightKnee");
    YogaPoses(
      pos1 := if leftShoulder.Some? && leftElbow.Some? && leftWrist.Some?
              then Some(360.0 - ArcTan(trig, leftShoulder, leftElbow, leftWrist).GetOr(0.0))
              else None,
      pos2 := if rightShoulder.Some? && rightElbow.Some? && rightWrist.Some?
              then ArcTan(trig, rightShoulder, rightElbow, rightWrist)
              else None,
      pos3 := if rightEye.Some? && rightHip.Some? && rightKnee.Some?
              then Some(180.0 + ArcTan(trig, rightEye, rightHip, rightKnee).GetOr(0.0))
              else None)
  }

  /** The colour of the skeleton for a flag value: 0 is red, anything else green. */
  function StrokeColour(changeColour: int): Colour {
    if changeColour == 0 then Red else Green
  }

  /**
   * `draw` without the canvas. The flag is 0 or 1. For `pose1` it is 1 exactly when
   * both arm angles are determined and one lies outside [165, 200]; for `pose2`
   * exactly when `pos3` is determined and above 40; for any other id it is always 1.
   * Every visible connection is drawn red when the flag is 0 and green otherwise.
   */
  method Draw(trig: Trig, poseNo: string, points: seq<Keypoint>) returns (changeColour: int, strokes: seq<Stroke>)
    requires |points| >= FrameSize
    ensures changeColour == 0 || changeColour == 1
    ensures var y := ComputeYogaPoses(trig, JointsOf(points));
            poseNo == "pose1" ==>
              (changeColour == 1 <==>
                 && y.pos1.Some? && y.pos2.Some?
                 && (y.pos1.value < 165.0 || y.pos1.value > 200.0 || y.pos2.value < 165.0 || y.pos2.value > 200.0))
    ensures var y := ComputeYogaPoses(trig, JointsOf(points));
            poseNo == "pose2" ==> (changeColour == 1 <==> y.pos3.Some? && y.pos3.value > 40.0)
    ensures poseNo != "pose1" && poseNo != "pose2" ==> changeColour == 1
    ensures |strokes| == |Connections()|
    ensures forall i :: 0 <= i < |strokes| ==>
              (strokes[i].Line? <==> Visible(points, Connections()[i]))
    ensures forall i :: 0 <= i < |strokes| && strokes[i].Line? ==>
              (strokes[i].colour == Red <==> changeColour == 0)
  {
    var jointAngles := CollectJoints(points);
    changeColour := 0;
    var yogaPoses := ComputeYogaPoses(trig, jointAngles);
    if poseNo == "pose1" {
      var ang1 := yogaPoses.pos1;
      var ang2 := yogaPoses.pos2;
      var maxAng1, maxAng2, minAng1, minAng2 := 200.0, 200.0, 165.0, 165.0;
      if ang1.Some? && ang2.Some? &&
         (minAng1 > ang1.value || maxAng1 < ang1.value || minAng2 > ang2.value || maxAng2 < ang2.value)
      {
        changeColour := 1;
      }
    } else if poseNo == "pose2" {
      var ang3 := yogaPoses.pos3;
      var maxAng3 := 40.0;
      if ang3.Some? && maxAng3 < ang3.value {
        changeColour := 1;
      }
    } else {
      changeColour := 1;
      var theta := yogaPoses.pos3;
      var threshold := 45.0;
      if theta.Some? && theta.value < threshold {
        changeColour := 1;
      }
    }
    strokes := DrawSkeleton(points, StrokeColour(changeColour));
  }
}
