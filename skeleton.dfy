/**
 * The skeleton overlay: which of the fixed connections are drawn for a frame,
 * and in which colour. The last step of `draw` in both processor components.
 */
module Skeleton {
  import opened Keypoints

  /** A connection: the indices of its two endpoints in the frame's keypoint list. */
  type Link = (nat, nat)

  /** The twelve skeleton connections. Every endpoint indexes into a full frame. */
  function Connections(): (links: seq<Link>)
    ensures |links| == 12
    ensures forall i :: 0 <= i < |links| ==> links[i].0 < FrameSize && links[i].1 < FrameSize
  {
    [(11, 5), (7, 5), (7, 9), (11, 13), (13, 15), (12, 6),
     (8, 6), (8, 10), (12, 14), (14, 16), (5, 6), (11, 12)]
  }

  datatype Colour = Red | Green

  /** What happens to one connection: nothing, or a line between its endpoints' positions. */
  datatype Stroke = Skip | Line(from: Position, to: Position, colour: Colour)

  /** A connection is drawn when at least one of its endpoints is reliable. */
  predicate Visible(points: seq<Keypoint>, link: Link)
    requires link.0 < |points| && link.1 < |points|
  {
    Reliable(points[link.0]) || Reliable(points[link.1])
  }

  /**
   * The connection loop of `draw`: one stroke per connection, a line exactly when
   * the connection is visible, every line in the one colour given for the frame.
   */
  method DrawSkeleton(points: seq<Keypoint>, colour: Colour) returns (strokes: seq<Stroke>)
    requires |points| >= FrameSize
    ensures |strokes| == |Connections()|
    ensures forall i :: 0 <= i < |strokes| ==>
              (strokes[i].Line? <==> Visible(points, Connections()[i]))
    ensures forall i :: 0 <= i < |strokes| && strokes[i].Line? ==>
              && strokes[i].from == points[Connections()[i].0].position
              && strokes[i].to == points[Connections()[i].1].position
              && strokes[i].colour == colour
  {
    var connections := Connections();
    strokes := [];
    var i := 0;
    while i < |connections|
      invariant 0 <= i <= |connections|
      invariant |strokes| == i
      invariant forall k :: 0 <= k < i ==>
                  (strokes[k].Line? <==> Visible(points, connections[k]))
      invariant forall k :: 0 <= k < i && strokes[k].Line? ==>
                  && strokes[k].from == points[connections[k].0].position
                  && strokes[k].to == points[connections[k].1].position
                  && strokes[k].colour == colour
    {
      var link := connections[i];
      if points[link.0].score > MinScore || points[link.1].score > MinScore {
        strokes := strokes + [Line(points[link.0].position, points[link.1].position, colour)];
      } else {
        strokes := strokes + [Skip];
      }
      i := i + 1;
    }
  }
}
