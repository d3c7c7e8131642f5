/**
 * The `PoseProcessor` component: an unsigned joint angle, a table of named pose
 * validators with a fallback, and the per-frame classification in `draw`.
 */
module PoseProcessor {
  import opened Wrappers
  import opened Keypoints
  import opened Skeleton

  function Abs(v: real): real {
    if v < 0.0 then -v else v
  }

  /** Angle at `b`, in degrees, between the rays to `a` and `c`, taken without sign. */
  function UnsignedAngle(trig: Trig, a: Position, b: Position, c: Position): real {
    Abs((Direction(trig, b, a) - Direction(trig, b, c)) * trig.degreesPerRadian)
  }

  /** `calculateAngle`: undetermined when any point is absent, never negative otherwise. */
  function CalculateAngle(trig: Trig, a: Option<Position>, b: Option<Position>, c: Option<Position>)
    : (theta: Option<real>)
    ensures theta.None? <==> (a.None? || b.None? || c.None?)
    ensures theta.Some? ==> theta.value >= 0.0
  {
    if a.None? || b.None? || c.None? then None
    else Some(UnsignedAngle(trig, a.value, b.value, c.value))
  }

  /** Swapping the outer points does not change the angle. */
  lemma CalculateAngleSymmetric(trig: Trig, a: Option<Position>, b: Option<Position>, c: Option<Position>)
    ensures CalculateAngle(trig, a, b, c) == CalculateAngle(trig, c, b, a)
  {
  }

  /** Equal outer points give the angle 0. */
  lemma CalculateAngleDegenerate(trig: Trig, a: Position, b: Position)
    ensures CalculateAngle(trig, Some(a), Some(b), Some(a)) == Some(0.0)
  {
  }

  /** Arm angles accepted by `pose1`: between 165 and 200 degrees inclusive. */
  predicate InArmRange(angle: real) {
    165.0 <= angle <= 200.0
  }

  /** Both arms straight: each shoulder-elbow-wrist angle determined and in range. */
  function ValidatePose1(trig: Trig, jointAngles: JointMap): (ok: bool)
    ensures ok <==>
      && "leftShoulder" in jointAngles && "leftElbow" in jointAngles && "leftWrist" in jointAngles
      && "rightShoulder" in jointAngles && "rightElbow" in jointAngles && "rightWrist" in jointAngles
      && InArmRange(UnsignedAngle(trig, jointAngles["leftShoulder"], jointAngles["leftElbow"], jointAngles["leftWrist"]))
      && InArmRange(UnsignedAngle(trig, jointAngles["rightShoulder"], jointAngles["rightElbow"], jointAngles["rightWrist"]))
  {
    var leftArmAngle := CalculateAngle(trig, Lookup(jointAngles, "leftShoulder"),
                                       Lookup(jointAngles, "leftElbow"), Lookup(jointAngles, "leftWrist"));
    var rightArmAngle := CalculateAngle(trig, Lookup(jointAngles, "rightShoulder"),
                                        Lookup(jointAngles, "rightElbow"), Lookup(jointAngles, "rightWrist"));
    var isLeftArmValid := leftArmAngle.Some? && leftArmAngle.value >= 165.0 && leftArmAngle.value <= 200.0;
    var isRightArmValid := rightArmAngle.Some? && rightArmAngle.value >= 165.0 && rightArmAngle.value <= 200.0;
    isLeftArmValid && isRightArmValid
  }

  /** The eye-hip-knee angle `pose2` and `pose3` both test. */
  function HipKneeAngle(trig: Trig, jointAngles: JointMap): Option<real> {
    CalculateAngle(trig, Lookup(jointAngles, "rightEye"), Lookup(jointAngles, "rightHip"),
                   Lookup(jointAngles, "rightKnee"))
  }

  /** Hip folded: the eye-hip-knee angle determined and at most 40 degrees. */
  function ValidatePose2(trig: Trig, jointAngles: JointMap): (ok: bool)
    ensures ok <==>
      && "rightEye" in jointAngles && "rightHip" in jointAngles && "rightKnee" in jointAngles
      && UnsignedAngle(trig, jointAngles["rightEye"], jointAngles["rightHip"], jointAngles["rightKnee"]) <= 40.0
  {
    var hipKneeAngle := HipKneeAngle(trig, jointAngles);
    hipKneeAngle.Some? && hipKneeAngle.value <= 40.0
  }

  /** Hip open: the eye-hip-knee angle determined and at least 45 degrees; excludes `pose2`. */
  function ValidatePose3(trig: Trig, jointAngles: JointMap): (ok: bool)
    ensures ok <==>
      && "rightEye" in jointAngles && "rightHip" in jointAngles && "rightKnee" in jointAngles
      && UnsignedAngle(trig, jointAngles["rightEye"], jointAngles["rightHip"], jointAngles["rightKnee"]) >= 45.0
    ensures ok ==> !ValidatePose2(trig, jointAngles)
  {
    var hipKneeAngle := HipKneeAngle(trig, jointAngles);
    hipKneeAngle.Some? && hipKneeAngle.value >= 45.0
  }

  /** The entries of `poseValidations`. */
  datatype Validation = Pose1 | Pose2 | Pose3

  /** `poseValidations`: pose id to validator. */
  const PoseValidations: map<string, Validation> :=
    map["pose1" := Pose1, "pose2" := Pose2, "pose3" := Pose3]

  /** Run the validator an entry names. */
  function Validate(validation: Validation, trig: Trig, jointAngles: JointMap): bool {
    match validation
    case Pose1 => ValidatePose1(trig, jointAngles)
    case Pose2 => ValidatePose2(trig, jointAngles)
    case Pose3 => ValidatePose3(trig, jointAngles)
  }

  /** `poseValidations[poseNo] || poseValidations.pose3`. */
  function ValidationFor(poseNo: string): Validation {
    if poseNo in PoseValidations then PoseValidations[poseNo] else PoseValidations["pose3"]
  }

  /**
   * Classification of a joint map under a pose id: the table lookup agrees with
   * the named validators, and every id outside the table is judged as `pose3`.
   */
  function Classify(trig: Trig, poseNo: string, jointAngles: JointMap): (isValid: bool)
    ensures poseNo == "pose1" ==> (isValid <==> ValidatePose1(trig, jointAngles))
    ensures poseNo == "pose2" ==> (isValid <==> ValidatePose2(trig, jointAngles))
    ensures poseNo != "pose1" && poseNo != "pose2" ==> (isValid <==> ValidatePose3(trig, jointAngles))
  {
    Validate(ValidationFor(poseNo), trig, jointAngles)
  }

  /** Colour of the skeleton for a classification result. */
  function StrokeColour(isValid: bool): Colour {
    if isValid then Green else Red
  }

  /**
   * `draw` without the canvas: the frame's joint map decides `isValid`, and every
   * visible connection is drawn green when the pose is valid and red otherwise.
   */
  method Draw(trig: Trig, poseNo: string, points: seq<Keypoint>) returns (isValid: bool, strokes: seq<Stroke>)
    requires |points| >= FrameSize
    ensures isValid == Classify(trig, poseNo, JointsOf(points))
    ensures |strokes| == |Connections()|
    ensures forall i :: 0 <= i < |strokes| ==>
              (strokes[i].Line? <==> Visible(points, Connections()[i]))
    ensures forall i :: 0 <= i < |strokes| && strokes[i].Line? ==>
              (strokes[i].colour == Green <==> isValid)
  {
    var jointAngles := CollectJoints(points);
    var validatePose := ValidationFor(poseNo);
    isValid := Validate(validatePose, trig, jointAngles);
    strokes := DrawSkeleton(points, StrokeColour(isValid));
  }
}
