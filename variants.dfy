/**
 * How the two components' angle conventions relate, on the same joint map:
 * the unsigned angle is the magnitude of the signed one, and the `yogaPoses`
 * offsets shift the signed angle before any threshold is applied.
 */
module Variants {
  import opened Wrappers
  import opened Keypoints
  import PoseProcessor
  import Processor

  /** `calculateAngle` is the absolute value of `arcTanFunction`, and both are undetermined together. */
  lemma UnsignedIsAbsOfSigned(trig: Trig, a: Option<Position>, b: Option<Position>, c: Option<Position>)
    ensures PoseProcessor.CalculateAngle(trig, a, b, c).None? <==> Processor.ArcTan(trig, a, b, c).None?
    ensures Processor.ArcTan(trig, a, b, c).Some? ==>
              PoseProcessor.CalculateAngle(trig, a, b, c).value ==
              PoseProcessor.Abs(Processor.ArcTan(trig, a, b, c).value)
  {
  }

  /**
   * Each `yogaPoses` entry is determined exactly when the matching angle of the
   * other component is, and undoing its offset and sign gives that angle.
   */
  lemma AngleConventions(trig: Trig, jointAngles: JointMap)
    ensures var y := Processor.ComputeYogaPoses(trig, jointAngles);
            var left := PoseProcessor.CalculateAngle(trig, Lookup(jointAngles, "leftShoulder"),
                                                    Lookup(jointAngles, "leftElbow"), Lookup(jointAngles, "leftWrist"));
            && (y.pos1.Some? <==> left.Some?)
            && (y.pos1.Some? ==> left.value == PoseProcessor.Abs(360.0 - y.pos1.value))
    ensures var y := Processor.ComputeYogaPoses(trig, jointAngles);
            var right := PoseProcessor.CalculateAngle(trig, Lookup(jointAngles, "rightShoulder"),
                                                     Lookup(jointAngles, "rightElbow"), Lookup(jointAngles, "rightWrist"));
            && (y.pos2.Some? <==> right.Some?)
            && (y.pos2.Some? ==> right.value == PoseProcessor.Abs(y.pos2.value))
    ensures var y := Processor.ComputeYogaPoses(trig, jointAngles);
            var hipKnee := PoseProcessor.HipKneeAngle(trig, jointAngles);
            && (y.pos3.Some? <==> hipKnee.Some?)
            && (y.pos3.Some? ==> hipKnee.value == PoseProcessor.Abs(y.pos3.value - 180.0))
  {
  }
}
