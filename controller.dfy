/** The notepad controller: reacts to the canonical pen events by updating the
    pen, the stroke in progress, the history and the canvas. */
module Controller {
  import opened Geometry
  import opened Pens
  import opened History
  import opened Canvas
  import Input

  class Notepad {
    const pen: Pen
    const canvas: NotepadCanvas
    const history: StrokeHistory
    var curStroke: seq<Point>  // the stroke being drawn

    /** The pen and the canvas share one pen, the history is consistent,
        and an idle notepad has no stroke in progress. */
    ghost predicate Valid()
      reads this, history, pen
    {
      && canvas.pen == pen
      && history.Valid()
      && (!pen.drawing ==> curStroke == [])
    }

    /** A notepad seeded with restored strokes, which it draws at once. */
    constructor (initial: seq<Stroke>)
      ensures Valid() && fresh(pen) && fresh(canvas) && fresh(history)
      ensures history.Model() == Log(initial, |initial|)
      ensures curStroke == [] && !pen.drawing
      ensures canvas.log == RefreshTrace(Pose(At(0.0, 0.0), At(0.0, 0.0)), initial).segments
    {
      var p := new Pen();
      pen := p;
      canvas := new NotepadCanvas(p);
      history := new StrokeHistory(initial);
      curStroke := [];
      new;
      canvas.Refresh(history);
      assert history.CurrentStrokes() == initial;
    }

    /** Starts drawing at (x, y). The control point is read from fields the
        pen does not have, so it is left undefined; the stroke in progress is
        not touched, so from idle it is empty. */
    method PenDown(x: real, y: real)
      requires Valid()
      modifies pen
      ensures Valid()
      ensures pen.drawing && pen.position == At(x, y) && pen.control == Undefined
      ensures !old(pen.drawing) ==> curStroke == []
      ensures unchanged(this, history, canvas)
    {
      pen.drawing := true;
      pen.position := At(x, y);
      pen.control := Undefined;
    }

    /** Commits the stroke in progress, once, if the pen was drawing. */
    method PenUp()
      requires Valid()
      modifies this, pen, history
      ensures Valid()
      ensures old(pen.drawing) ==>
        && !pen.drawing
        && history.Model() == Added(old(history.Model()), old(curStroke))
        && curStroke == []
      ensures !old(pen.drawing) ==> unchanged(this, pen, history)
      ensures pen.position == old(pen.position) && pen.control == old(pen.control)
      ensures unchanged(canvas)
    {
      if pen.drawing {
        pen.drawing := false;
        history.AddStroke(curStroke);
        curStroke := [];
      }
    }

    /** Draws towards the sample and records it, if the pen is drawing. */
    method PenMove(p: Point)
      requires Valid()
      modifies this, pen, canvas
      ensures Valid()
      ensures old(pen.drawing) ==>
        && curStroke == old(curStroke) + [p]
        && canvas.log == old(canvas.log) + [SmoothSegment(old(canvas.CurrentPose()), p)]
        && canvas.CurrentPose() == SmoothPose(old(canvas.CurrentPose()), p)
      ensures !old(pen.drawing) ==> unchanged(this, pen, canvas)
      ensures pen.drawing == old(pen.drawing)
      ensures unchanged(history)
    {
      if pen.drawing {
        canvas.DrawTo(p);
        curStroke := curStroke + [p];
      }
    }

    method Undo()
      requires Valid()
      modifies pen, canvas, history
      ensures Valid()
      ensures history.Model() == Undone(old(history.Model()))
      ensures canvas.log == RefreshTrace(old(canvas.CurrentPose()), history.CurrentStrokes()).segments
      ensures canvas.CurrentPose() == RefreshTrace(old(canvas.CurrentPose()), history.CurrentStrokes()).pose
      ensures pen.drawing == old(pen.drawing)
      ensures unchanged(this)
    {
      history.Undo();
      canvas.Refresh(history);
    }

    method Redo()
      requires Valid()
      modifies pen, canvas, history
      ensures Valid()
      ensures history.Model() == Redone(old(history.Model()))
      ensures canvas.log == RefreshTrace(old(canvas.CurrentPose()), history.CurrentStrokes()).segments
      ensures canvas.CurrentPose() == RefreshTrace(old(canvas.CurrentPose()), history.CurrentStrokes()).pose
      ensures pen.drawing == old(pen.drawing)
      ensures unchanged(this)
    {
      history.Redo();
      canvas.Refresh(history);
    }

    /** A pen-down at (x, y) followed by the moves `moves`: the canvas logs
        exactly the smoothed replay from the pen-down position with an
        undefined control point, and the stroke in progress gains exactly the
        moves (from idle, it is exactly the moves). */
    method DrawLive(x: real, y: real, moves: seq<Point>)
      requires Valid()
      modifies this, pen, canvas
      ensures Valid()
      ensures canvas.log == old(canvas.log) + Replay(Pose(At(x, y), Undefined), moves).segments
      ensures canvas.CurrentPose() == Replay(Pose(At(x, y), Undefined), moves).pose
      ensures curStroke == (if old(pen.drawing) then old(curStroke) else []) + moves
      ensures pen.drawing
      ensures unchanged(history)
    {
      PenDown(x, y);
      ghost var start := canvas.CurrentPose();
      ghost var stroke0 := curStroke;
      var i := 0;
      while i < |moves|
        invariant 0 <= i <= |moves|
        invariant Valid() && pen.drawing
        invariant canvas.log == old(canvas.log) + Replay(start, moves[..i]).segments
        invariant canvas.CurrentPose() == Replay(start, moves[..i]).pose
        invariant curStroke == stroke0 + moves[..i]
        invariant unchanged(history)
      {
        PenMove(moves[i]);
        assert moves[..i + 1][..i] == moves[..i];
        i := i + 1;
      }
      assert moves[..i] == moves;
    }

    /** Delivers one canonical event to the handler registered for it. */
    method Handle(e: Input.PenEvent)
      requires Valid()
      modifies this, pen, canvas, history
      ensures Valid()
      ensures e.PenDown? ==>
        && pen.drawing && pen.position == At(e.x, e.y) && pen.control == Undefined
        && (!old(pen.drawing) ==> curStroke == [])
        && unchanged(this, history, canvas)
      ensures e.PenMove? ==>
        && unchanged(history)
        && pen.drawing == old(pen.drawing)
        && (old(pen.drawing) ==>
              && curStroke == old(curStroke) + [e.point]
              && canvas.log == old(canvas.log) + [SmoothSegment(old(canvas.CurrentPose()), e.point)]
              && canvas.CurrentPose() == SmoothPose(old(canvas.CurrentPose()), e.point))
        && (!old(pen.drawing) ==> unchanged(this, pen, canvas))
      ensures e.PenUp? ==>
        && unchanged(canvas)
        && pen.position == old(pen.position) && pen.control == old(pen.control)
        && (old(pen.drawing) ==>
              && !pen.drawing && curStroke == []
              && history.Model() == Added(old(history.Model()), old(curStroke)))
        && (!old(pen.drawing) ==> unchanged(this, pen, history))
      ensures e.Undo? ==>
        && history.Model() == Undone(old(history.Model()))
        && canvas.log == RefreshTrace(old(canvas.CurrentPose()), history.CurrentStrokes()).segments
        && canvas.CurrentPose() == RefreshTrace(old(canvas.CurrentPose()), history.CurrentStrokes()).pose
        && pen.drawing == old(pen.drawing) && unchanged(this)
      ensures e.Redo? ==>
        && history.Model() == Redone(old(history.Model()))
        && canvas.log == RefreshTrace(old(canvas.CurrentPose()), history.CurrentStrokes()).segments
        && canvas.CurrentPose() == RefreshTrace(old(canvas.CurrentPose()), history.CurrentStrokes()).pose
        && pen.drawing == old(pen.drawing) && unchanged(this)
    {
      match e
      case PenDown(x, y) => PenDown(x, y);
      case PenMove(p) => PenMove(p);
      case PenUp => PenUp();
      case Undo => Undo();
      case Redo => Redo();
    }

    /** The visible strokes, for saving. */
    method GetImageData() returns (strokes: seq<Stroke>)
      requires Valid()
      ensures strokes == Visible(history.Model())
    {
      strokes := history.CurrentStrokes();
    }
  }

  /** Pen down at (10, 10), one move to (20, 10) at half force, pen up; then
      undo and redo. The committed stroke holds only the moved-to sample:
      the pen-down location is never recorded. */
  method EndToEndScenario() returns (afterUp: seq<Stroke>, afterUndo: seq<Stroke>, afterRedo: seq<Stroke>)
    ensures afterUp == [[Point(20.0, 10.0, 0.5)]]
    ensures afterUndo == []
    ensures afterRedo == afterUp
  {
    var sample := Point(20.0, 10.0, 0.5);
    var pad := new Notepad([]);
    pad.PenDown(10.0, 10.0);
    assert pad.curStroke == [] && pad.history.Model() == Log([], 0);
    pad.PenMove(sample);
    assert pad.curStroke == [sample];
    pad.PenUp();
    assert pad.history.Model() == Log([[sample]], 1);
    afterUp := pad.GetImageData();
    pad.Undo();
    assert pad.history.Model() == Log([[sample]], 0);
    afterUndo := pad.GetImageData();
    pad.Redo();
    assert pad.history.Model() == Log([[sample]], 1);
    afterRedo := pad.GetImageData();
  }
}
