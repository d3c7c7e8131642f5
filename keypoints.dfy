/**
 * One frame of pose-estimator output and the joint map built from it:
 * the first step of `draw` in both processor components.
 */
module Keypoints {
  import opened Wrappers

  /** A 2D coordinate in frame pixel space. */
  datatype Position = Position(x: real, y: real)

  /** One detected body part with the estimator's confidence in it. */
  datatype Keypoint = Keypoint(part: string, position: Position, score: real)

  /** Body-part name to the position of a reliably observed keypoint. */
  type JointMap = map<string, Position>

  /** Confidence a keypoint must exceed (strictly) to count as observed. */
  const MinScore: real := 0.2

  /** Number of keypoints the estimator reports per frame. */
  const FrameSize: nat := 17

  predicate Reliable(key: Keypoint) {
    key.score > MinScore
  }

  /**
   * `Math.atan2` and the factor `180 / Math.PI`. Their floating-point values are
   * not modelled: every property below holds for any choice of both.
   */
  datatype Trig = Trig(atan2: (real, real) -> real, degreesPerRadian: real)

  /** Direction, in radians, of the ray from `b` to `a`. */
  function Direction(trig: Trig, b: Position, a: Position): real {
    trig.atan2(a.y - b.y, a.x - b.x)
  }

  /** Property access `jointAngles.<part>`: undefined when the part was not recorded. */
  function Lookup(joints: JointMap, part: string): Option<Position> {
    if part in joints then Some(joints[part]) else None
  }

  /** The joint map once the keypoint loop has visited every point, in order. */
  function JointsOf(points: seq<Keypoint>): JointMap {
    if points == [] then map[]
    else
      var joints := JointsOf(points[..|points| - 1]);
      var key := points[|points| - 1];
      if Reliable(key) then joints[key.part := key.position] else joints
  }

  /** Index `i` holds a reliable keypoint for part `p`. */
  predicate ObservedAt(points: seq<Keypoint>, p: string, i: int) {
    0 <= i < |points| && Reliable(points[i]) && points[i].part == p
  }

  /** Index `i` holds the last reliable keypoint for part `p`. */
  predicate LastObservedAt(points: seq<Keypoint>, p: string, i: int) {
    ObservedAt(points, p, i) && forall j :: i < j < |points| ==> !ObservedAt(points, p, j)
  }

  /**
   * The joint map has a key exactly for the parts some reliable keypoint names,
   * and it holds the position of the last such keypoint.
   */
  lemma {:induction false} JointsOfCharacterization(points: seq<Keypoint>, p: string)
    ensures p in JointsOf(points) <==> exists i :: ObservedAt(points, p, i)
    ensures p in JointsOf(points) ==>
              exists i :: LastObservedAt(points, p, i) && JointsOf(points)[p] == points[i].position
  {
    if points != [] {
      var n := |points| - 1;
      var prefix := points[..n];
      var key := points[n];
      JointsOfCharacterization(prefix, p);
      if Reliable(key) && key.part == p {
        assert LastObservedAt(points, p, n);
      } else {
        assert p in JointsOf(points) <==> p in JointsOf(prefix);
        forall i | ObservedAt(points, p, i) ensures ObservedAt(prefix, p, i) {
          assert i != n;
          assert prefix[i] == points[i];
        }
        if p in JointsOf(points) {
          var i :| LastObservedAt(prefix, p, i) && JointsOf(prefix)[p] == prefix[i].position;
          assert prefix[i] == points[i];
          forall j | i < j < |points| ensures !ObservedAt(points, p, j) {
            if j < n {
              assert prefix[j] == points[j];
              assert !ObservedAt(prefix, p, j);
            }
          }
          assert LastObservedAt(points, p, i);
        }
      }
    }
  }

  /** The keypoint loop of `draw`: record every reliable keypoint's position under its part. */
  method CollectJoints(points: seq<Keypoint>) returns (jointAngles: JointMap)
    ensures jointAngles == JointsOf(points)
  {
    jointAngles := map[];
    var i := 0;
    while i < |points|
      invariant 0 <= i <= |points|
      invariant jointAngles == JointsOf(points[..i])
    {
      var key := points[i];
      assert points[..i + 1][..i] == points[..i];
      if key.score > MinScore {
        jointAngles := jointAngles[key.part := key.position];
      }
      i := i + 1;
    }
    assert points[..i] == points;
  }
}
