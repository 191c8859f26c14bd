/** The renderer. The 2D drawing context is modelled as the log of the
    segments stroked on it since it was last cleared; the renderer reads and
    moves the shared pen. */
module Canvas {
  import opened Geometry
  import opened Pens
  import opened History

  /** The part of the pen the renderer moves. */
  datatype Pose = Pose(position: Loc, control: Loc)

  /** One stroked path: a straight line, or a quadratic curve with its
      control point; each is stroked with its own line width. */
  datatype Segment =
    | Line(from: Loc, to: Loc, width: real)
    | Quad(from: Loc, control: Loc, to: Loc, width: real)

  /** What a sequence of drawing calls leaves behind: the pen's pose and the
      segments it stroked, in order. */
  datatype Trace = Trace(pose: Pose, segments: seq<Segment>)

  /** The curve the smoothed drawing strokes towards sample `p`: from the pen
      position to the midpoint of `p` and the control point, bent by the
      control point. */
  function SmoothSegment(pose: Pose, p: Point): Segment {
    Quad(pose.position, pose.control, Mid(p, pose.control), Width(p.force))
  }

  /** The pose after a smoothed step: the pen sits on the midpoint and the
      sample becomes the next control point. */
  function SmoothPose(pose: Pose, p: Point): Pose {
    Pose(Mid(p, pose.control), AtPoint(p))
  }

  /** The straight line the simple drawing strokes towards sample `p`. */
  function LineSegment(pose: Pose, p: Point): Segment {
    Line(pose.position, AtPoint(p), Width(p.force))
  }

  /** Smoothed drawing through the samples `pts`, one after the other. */
  function Replay(pose: Pose, pts: seq<Point>): (t: Trace)
    ensures |t.segments| == |pts|
    decreases |pts|
  {
    if pts == [] then Trace(pose, [])
    else
      var prev := Replay(pose, pts[..|pts| - 1]);
      var p := pts[|pts| - 1];
      Trace(SmoothPose(prev.pose, p), prev.segments + [SmoothSegment(prev.pose, p)])
  }

  /** The pose after the first `i` samples of `pts`, in closed form: from the
      second sample on it no longer depends on the pose drawing started from. */
  function PoseAfter(pose: Pose, pts: seq<Point>, i: nat): Pose
    requires i <= |pts|
  {
    if i == 0 then pose
    else if i == 1 then Pose(Mid(pts[0], pose.control), AtPoint(pts[0]))
    else Pose(Mid(pts[i - 1], AtPoint(pts[i - 2])), AtPoint(pts[i - 1]))
  }

  lemma {:induction false} ReplayPose(pose: Pose, pts: seq<Point>)
    ensures Replay(pose, pts).pose == PoseAfter(pose, pts, |pts|)
    decreases |pts|
  {
    if pts != [] {
      var n := |pts|;
      ReplayPose(pose, pts[..n - 1]);
    }
  }

  /** Segment `i` of a smoothed replay is the smoothed step from the pose
      after the first `i` samples. */
  lemma {:induction false} ReplayAt(pose: Pose, pts: seq<Point>, i: nat)
    requires i < |pts|
    ensures Replay(pose, pts).segments[i] == SmoothSegment(PoseAfter(pose, pts, i), pts[i])
    decreases |pts|
  {
    var n := |pts|;
    var front := pts[..n - 1];
    if i == n - 1 {
      ReplayPose(pose, front);
      assert PoseAfter(pose, front, i) == PoseAfter(pose, pts, i);
    } else {
      ReplayAt(pose, front, i);
      assert PoseAfter(pose, front, i) == PoseAfter(pose, pts, i);
    }
  }

  /** The smoothed path is connected: each segment starts where the one
      before it ends. */
  lemma SmoothPathIsContinuous(pose: Pose, pts: seq<Point>, i: nat)
    requires i + 1 < |pts|
    ensures Replay(pose, pts).segments[i + 1].from == Replay(pose, pts).segments[i].to
  {
    ReplayAt(pose, pts, i);
    ReplayAt(pose, pts, i + 1);
  }

  /** From the third segment on, smoothed drawing does not depend on the pose
      it started from. */
  lemma SmoothingForgetsStartPose(pose1: Pose, pose2: Pose, pts: seq<Point>, i: nat)
    requires 2 <= i < |pts|
    ensures Replay(pose1, pts).segments[i] == Replay(pose2, pts).segments[i]
  {
    ReplayAt(pose1, pts, i);
    ReplayAt(pose2, pts, i);
  }

  /** Drawing one stroke: nothing for fewer than two samples; otherwise the
      pen is put on the first sample and the rest are drawn smoothed. */
  function StrokeTrace(pose: Pose, points: seq<Point>): (t: Trace)
    ensures |points| < 2 ==> t == Trace(pose, [])
    ensures |points| >= 2 ==> |t.segments| == |points| - 1
  {
    if |points| > 1 then Replay(Pose(AtPoint(points[0]), AtPoint(points[0])), points[1..])
    else Trace(pose, [])
  }

  /** A stroke of two or more samples is drawn from its first sample, and the
      pen is left on the last midpoint with the last sample as control. */
  lemma StrokeShape(pose: Pose, points: seq<Point>)
    requires |points| >= 2
    ensures StrokeTrace(pose, points).segments[0].from == AtPoint(points[0])
    ensures var n := |points|;
      StrokeTrace(pose, points).pose == Pose(Mid(points[n - 1], AtPoint(points[n - 2])), AtPoint(points[n - 1]))
  {
    var start := Pose(AtPoint(points[0]), AtPoint(points[0]));
    ReplayAt(start, points[1..], 0);
    ReplayPose(start, points[1..]);
  }

  /** Replaying a list of strokes one after the other. */
  function RefreshTrace(pose: Pose, strokes: seq<Stroke>): Trace
    decreases |strokes|
  {
    if strokes == [] then Trace(pose, [])
    else
      var prev := RefreshTrace(pose, strokes[..|strokes| - 1]);
      var last := StrokeTrace(prev.pose, strokes[|strokes| - 1]);
      Trace(last.pose, prev.segments + last.segments)
  }

  /** The segments of each stroke in turn; no pen state involved. */
  function RefreshSegments(strokes: seq<Stroke>): seq<Segment>
    decreases |strokes|
  {
    if strokes == [] then []
    else
      var n := |strokes|;
      RefreshSegments(strokes[..n - 1]) + StrokeTrace(Pose(Undefined, Undefined), strokes[n - 1]).segments
  }

  /** Replay is deterministic: what a refresh strokes depends only on the
      visible strokes, never on where the pen was before. */
  lemma {:induction false} RefreshIgnoresPose(pose: Pose, strokes: seq<Stroke>)
    ensures RefreshTrace(pose, strokes).segments == RefreshSegments(strokes)
    decreases |strokes|
  {
    if strokes != [] {
      RefreshIgnoresPose(pose, strokes[..|strokes| - 1]);
    }
  }

  /** In the segment log, live drawing after a pen-down differs from
      replaying the committed samples: the pen-down leaves the control point
      undefined, so the first logged live segment has an undefined control
      point and end, the second an undefined start, and from the third on the
      live log holds what a replay of the same samples logs (one segment
      later). */
  lemma LiveDrawingVersusReplay(down: Loc, moves: seq<Point>, pose: Pose)
    requires |moves| >= 2
    ensures var live := Replay(Pose(down, Undefined), moves).segments;
      var replay := StrokeTrace(pose, moves).segments;
      && |live| == |replay| + 1
      && live[0] == Quad(down, Undefined, Undefined, Width(moves[0].force))
      && live[1] == replay[0].(from := Undefined)
      && forall k :: 1 <= k < |replay| ==> live[k + 1] == replay[k]
  {
    var live := Replay(Pose(down, Undefined), moves).segments;
    var start := Pose(AtPoint(moves[0]), AtPoint(moves[0]));
    var rest := moves[1..];
    var replay := Replay(start, rest).segments;
    ReplayAt(Pose(down, Undefined), moves, 0);
    ReplayAt(Pose(down, Undefined), moves, 1);
    ReplayAt(start, rest, 0);
    forall k | 1 <= k < |replay|
      ensures live[k + 1] == replay[k]
    {
      ReplayAt(Pose(down, Undefined), moves, k + 1);
      ReplayAt(start, rest, k);
    }
  }

  /** A single move after a pen-down logs one segment whose control point
      and end are undefined, and the committed one-sample stroke logs
      nothing when it is replayed. */
  lemma LiveSingleMove(down: Loc, m: Point, pose: Pose)
    ensures Replay(Pose(down, Undefined), [m]).segments == [Quad(down, Undefined, Undefined, Width(m.force))]
    ensures StrokeTrace(pose, [m]).segments == []
  {
    assert [m][..0] == [];
  }

  /** The drawing surface of one notepad. */
  class NotepadCanvas {
    const pen: Pen
    var log: seq<Segment>

    constructor (pen: Pen)
      ensures this.pen == pen && log == []
    {
      this.pen := pen;
      log := [];
    }

    function CurrentPose(): Pose
      reads pen
    {
      Pose(pen.position, pen.control)
    }

    /** The drawing strategy used for live input and replay. */
    method DrawTo(p: Point)
      modifies this, pen
      ensures log == old(log) + [SmoothSegment(old(CurrentPose()), p)]
      ensures CurrentPose() == SmoothPose(old(CurrentPose()), p)
      ensures pen.drawing == old(pen.drawing)
    {
      SmoothDrawTo(p);
    }

    /** Straight line to the sample; the control point is left alone. */
    method SimpleDrawTo(p: Point)
      modifies this, pen
      ensures log == old(log) + [LineSegment(old(CurrentPose()), p)]
      ensures pen.position == AtPoint(p) && pen.control == old(pen.control)
      ensures pen.drawing == old(pen.drawing)
    {
      log := log + [Line(pen.position, AtPoint(p), Width(p.force))];
      pen.position := AtPoint(p);
    }

    /** Curve to the midpoint of the sample and the control point. */
    method SmoothDrawTo(p: Point)
      modifies this, pen
      ensures log == old(log) + [SmoothSegment(old(CurrentPose()), p)]
      ensures CurrentPose() == SmoothPose(old(CurrentPose()), p)
      ensures pen.drawing == old(pen.drawing)
    {
      var mid := Mid(p, pen.control);
      log := log + [Quad(pen.position, pen.control, mid, Width(p.force))];
      pen.position := mid;
      pen.control := AtPoint(p);
    }

    method DrawStroke(points: seq<Point>)
      modifies this, pen
      ensures log == old(log) + StrokeTrace(old(CurrentPose()), points).segments
      ensures CurrentPose() == StrokeTrace(old(CurrentPose()), points).pose
      ensures pen.drawing == old(pen.drawing)
    {
      if |points| > 1 {
        pen.position := AtPoint(points[0]);
        pen.control := AtPoint(points[0]);
        ghost var start := CurrentPose();
        var i := 1;
        while i < |points|
          invariant 1 <= i <= |points|
          invariant log == old(log) + Replay(start, points[1..i]).segments
          invariant CurrentPose() == Replay(start, points[1..i]).pose
          invariant pen.drawing == old(pen.drawing)
        {
          DrawTo(points[i]);
          assert points[1..i + 1][..i - 1] == points[1..i];
          i := i + 1;
        }
        assert points[1..i] == points[1..];
      }
    }

    /** Clears the surface and replays the visible strokes. */
    method Refresh(history: StrokeHistory)
      requires history.Valid()
      modifies this, pen
      ensures log == RefreshTrace(old(CurrentPose()), history.CurrentStrokes()).segments
      ensures CurrentPose() == RefreshTrace(old(CurrentPose()), history.CurrentStrokes()).pose
      ensures pen.drawing == old(pen.drawing)
    {
      Clear();
      var strokes := history.CurrentStrokes();
      ghost var start := CurrentPose();
      var i := 0;
      while i < |strokes|
        invariant 0 <= i <= |strokes|
        invariant log == RefreshTrace(start, strokes[..i]).segments
        invariant CurrentPose() == RefreshTrace(start, strokes[..i]).pose
        invariant pen.drawing == old(pen.drawing)
      {
        DrawStroke(strokes[i]);
        assert strokes[..i + 1][..i] == strokes[..i];
        i := i + 1;
      }
      assert strokes[..i] == strokes;
    }

    method Clear()
      modifies this
      ensures log == []
    {
      log := [];
    }
  }
}
