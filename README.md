# Yoga pose classifier: a Dafny model

This project models the per-frame pose-classification engine of a webcam yoga
pose checker. Each video frame yields a list of 17 scored keypoints (body-part
name, position, confidence). From that list the engine:

1. builds a joint map from part name to position, keeping only keypoints whose
   score is above 0.2 (a later keypoint of the same part overwrites an earlier one);
2. computes joint angles from triples of joints and decides whether the frame
   holds the chosen pose;
3. decides, for each of the 12 skeleton connections, whether it is drawn, and
   colours every drawn connection with the frame's single verdict.

The repository has two variants of this engine, and both are modelled:

- `PoseProcessor` (module `PoseProcessor`, from `src/components/PoseProcessor/index.tsx`):
  an unsigned angle `calculateAngle`, a table `poseValidations` of three named
  validators, and a lookup that falls back to `pose3` for an unknown pose id.
  Drawn connections are green when the pose is valid, red otherwise.
- `Processor` (module `Processor`, from `src/components/Processor/index.tsx`):
  a signed angle `arcTanFunction`, three offset angles in `yogaPoses`
  (`360 - θ`, `θ`, `180 + θ`), and an if/else chain on the pose id that sets a
  flag `changeColour`. Flag 0 draws red and flag 1 draws green. This is the reverse
  of `PoseProcessor`'s convention. The final `else` branch sets the flag to 1 whatever
  the angle. Both quirks are kept as written.

The two steps the variants share, the keypoint loop and the connection loop,
are written identically in both files (`PoseProcessor/index.tsx:136-167`,
`Processor/index.tsx:85-99` and `176-185`). They are modelled once, in the
modules `Keypoints` and `Skeleton`, and both `Draw` methods call them. The module
`Variants` relates the two angle conventions on the same joint map.

`Math.atan2` and the factor `180 / Math.PI` are a parameter `Trig` of every
angle operation. Every property holds for any choice of both, so no
trigonometry is assumed. Scores and coordinates are exact `real` numbers.
An absent keypoint or an undetermined angle is `None`.

## Model

| member | source | states |
|---|---|---|
| Keypoints.CollectJoints | src/components/PoseProcessor/index.tsx:136-150 | The keypoint loop of `draw` yields exactly the joint map `JointsOf(points)`. The same loop is at src/components/Processor/index.tsx:85-99. |
| Keypoints.JointsOfCharacterization | src/components/PoseProcessor/index.tsx:140-150 | A part is a key of the joint map iff some keypoint of that part has score > 0.2. Its value is the position of the last such keypoint. |
| Skeleton.Connections | src/components/PoseProcessor/index.tsx:30-43 | There are 12 connections, and every endpoint index is below 17. So every index lands inside a full frame. |
| Skeleton.DrawSkeleton | src/components/PoseProcessor/index.tsx:157-167 | Given a frame of at least 17 keypoints, it emits one stroke per connection. A stroke is a line iff either endpoint's score is > 0.2. The line joins the two endpoint positions in the one colour given. The same loop is at src/components/Processor/index.tsx:176-185. |
| PoseProcessor.CalculateAngle | src/components/PoseProcessor/index.tsx:95-111 | The result is undetermined iff any of the three points is absent. Otherwise it is a number that is never negative. |
| PoseProcessor.CalculateAngleSymmetric | src/components/PoseProcessor/index.tsx:105-108 | Swapping the two outer points does not change the result. |
| PoseProcessor.CalculateAngleDegenerate | src/components/PoseProcessor/index.tsx:105-108 | Equal outer points give angle 0. |
| PoseProcessor.ValidatePose1 | src/components/PoseProcessor/index.tsx:50-69 | True iff all six arm joints are in the map and both shoulder-elbow-wrist angles lie in [165, 200]. A missing joint makes it false. |
| PoseProcessor.ValidatePose2 | src/components/PoseProcessor/index.tsx:71-80 | True iff right eye, hip and knee are in the map and their angle is at most 40. |
| PoseProcessor.ValidatePose3 | src/components/PoseProcessor/index.tsx:82-91 | True iff right eye, hip and knee are in the map and their angle is at least 45. It is never true together with `pose2` on the same map. |
| PoseProcessor.Classify | src/components/PoseProcessor/index.tsx:153-154 | The table lookup judges "pose1" by the `pose1` validator and "pose2" by the `pose2` validator. Every other id, listed or not, is judged by the `pose3` validator. |
| PoseProcessor.Draw | src/components/PoseProcessor/index.tsx:124-168 | `isValid` is the classification of the frame's joint map. A connection is drawn iff either endpoint's score is > 0.2. Every drawn connection is green iff `isValid`. |
| Processor.ArcTan | src/components/Processor/index.tsx:55-70 | The result is undetermined iff any of the three points is absent. |
| Processor.ArcTanAntiSymmetric | src/components/Processor/index.tsx:65-67 | Swapping the two outer points negates the angle. There is no absolute value. |
| Processor.ArcTanDegenerate | src/components/Processor/index.tsx:65-67 | Equal outer points give angle 0. |
| Processor.ComputeYogaPoses | src/components/Processor/index.tsx:104-135 | `pos1` is 360 minus the left arm angle, `pos2` the right arm angle, and `pos3` 180 plus the eye-hip-knee angle. Each is determined iff its three joints are in the map, so the `?? 0` default never applies. |
| Processor.Draw | src/components/Processor/index.tsx:101-185 | The flag is always 0 or 1. For "pose1" it is 1 iff `pos1` and `pos2` are both determined and one of them lies outside [165, 200]. For "pose2" it is 1 iff `pos3` is determined and above 40. For every other id it is 1. A connection is drawn iff either endpoint's score is > 0.2, and every drawn connection is red iff the flag is 0. |
| Variants.UnsignedIsAbsOfSigned | src/components/Processor/index.tsx:65-67 | `calculateAngle` (src/components/PoseProcessor/index.tsx:105-108) is undetermined exactly when `arcTanFunction` is. Otherwise it is the absolute value of `arcTanFunction`. |
| Variants.AngleConventions | src/components/Processor/index.tsx:104-135 | On the same joint map, each `yogaPoses` entry is determined iff the matching `PoseProcessor` angle is. That angle equals the absolute value of `pos2`, of `360 - pos1`, or of `pos3 - 180`. |

## Left out

- React structure, `useState`/`useEffect`, `setIsPoseValid` and the returned JSX are UI state. The validity verdict is a result of `PoseProcessor.Draw` instead.
- Canvas calls (`clearRect`, `drawImage`, `arc`, `moveTo`, `lineTo`, `stroke`), line widths and pixel sizes are rendering. Only the per-connection decision is modelled: skip, or a line between two positions in one colour. The dot drawn for each reliable keypoint is also left out. So is the way the source's shared canvas path gets re-stroked in the current colour.
- The early returns of `draw` when the canvas, the video element or the 2D context is missing concern the rendering host. Each `Draw` models a frame that is actually drawn.
- Webcam capture, `posenet.load`, `estimateSinglePose` and the 150 ms `setInterval` polling are asynchronous I/O, timers and a foreign ML library. Their result, the keypoint list, is the input of each `Draw`.
- The values of `Math.atan2` and `Math.PI` are floating-point transcendental functions and stay uninterpreted (`Trig`). No range claim such as "angle ≤ 360" is made. IEEE rounding and NaN are not modelled: scores, coordinates and angles are exact reals.
- `console.log` calls are logging only.
- Skeleton.DrawSkeleton: a key list shorter than 17 entries is excluded by a precondition. In the source, such a list makes `points[link[0]].score` throw. The estimator always reports 17 keypoints.
- PoseProcessor.Classify: `poseValidations[poseNo]` is a plain JavaScript object lookup, so an id such as "toString" finds an inherited member of `Object.prototype`. The model treats only the three table keys as present. Every other id falls back to `pose3`.
- The static routing and landing pages (`src/app/**/page.tsx`) and `src/utils/initTensorflow.tsx` are navigation markup and library set-up, so they are not part of this model.
