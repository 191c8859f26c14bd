# notepad.js in Dafny

A model of the core of `notepad.js`, a freehand drawing surface on an HTML
canvas. It has four parts:

- **Input normalisation** (`input.dfy`). Mouse, touch and keyboard events become
  canonical notepad events: pen-down, pen-move, pen-up, undo and redo. Each
  handler is a pure classifier from an abstract event record to the event it
  dispatches, if any. The device pixel ratio and the canvas's bounding rectangle
  are parameters.
- **Stroke history** (`history.dfy`). A linear undo/redo log: a list of strokes
  and a cursor `numStrokes`. It is the class `StrokeHistory`, whose methods are
  proved against the value functions `Added`, `Undone`, `Redone` and `Visible`
  on the abstract value `Log`.
- **Pen and renderer** (`pens.dfy`, `canvas.dfy`). The pen holds the position,
  the control point and the drawing flag. The 2D context is modelled as a log of
  stroked segments (line or quadratic curve, with start, control, end and
  width), and clearing the canvas empties the log. `NotepadCanvas` draws
  smoothed curves through the midpoints of consecutive samples. Its methods are
  proved against `Replay`, `StrokeTrace` and `RefreshTrace`. A closed form
  (`PoseAfter`, `ReplayAt`) gives every segment of a smoothed replay.
- **Controller** (`controller.dfy`). `Notepad` owns a pen, a canvas and a history.
  It reacts to the canonical events as a two-state machine over `pen.drawing`.

Coordinates, forces and widths are Dafny `real`s. A coordinate that is
`undefined` or `NaN` in the browser is `Loc.Undefined`. `Mid` propagates it the
way the browser's arithmetic propagates `NaN`.

Behaviour of the code that the model keeps as written:

- `penDown` sets the control point from `this.pen.x` and `this.pen.y`, fields
  the pen does not have (notepad.js:376). The control point is therefore
  undefined after every pen-down, and `Notepad.PenDown` sets it to
  `Undefined`. `Canvas.LiveDrawingVersusReplay` states the consequence for the
  segment log. The first logged live segment has an undefined control point
  and end. The second has an undefined start. From the third on, the live log
  holds the replay's segments, shifted by one.
- Only `penMove` records samples (notepad.js:390). The pen-down location is
  never part of a stroke. A pen-down, one move and a pen-up therefore commit a
  one-sample stroke (`Controller.EndToEndScenario`). Live, that stroke logs one
  segment whose control point and end are undefined. Replayed, it logs nothing,
  because `drawStroke` needs two samples (`Canvas.LiveSingleMove`).
- The mouse dispatches `penmove` on every mouse move, with or without a button
  held. It is the controller that ignores moves while the pen is not drawing.
- `penDown` does not reset the stroke in progress. A second pen-down without a
  pen-up in between continues the same stroke.

## Model

| member | source | states |
|---|---|---|
| Geometry.Mid | notepad.js:255-260 | the new curve end is defined exactly when the control point is, and it is equidistant from the sample and the control point |
| History.Visible | notepad.js:56-59 | the visible strokes are exactly the first `numStrokes` strokes; `StrokeHistory.CurrentStrokes` returns this of the history's state |
| History.Added | notepad.js:37-42 | adding drops the redo tail: strokes become the visible prefix plus the new stroke, the cursor is at the end, and the visible strokes gain exactly the new stroke |
| History.Undone | notepad.js:44-48 | undo never changes the strokes; with a visible stroke it hides exactly the last one; at cursor 0 it changes nothing |
| History.Redone | notepad.js:50-54 | redo never changes the strokes; with a redo tail it shows exactly the next stroke again; at the end it changes nothing |
| History.UndoThenRedo | notepad.js:44-54 | from a non-zero cursor, undo then redo restores the history and its visible strokes exactly |
| History.RedoThenUndo | notepad.js:44-54 | when a redo is possible, redo then undo restores the history |
| History.AddedLeavesNothingToRedo | notepad.js:37-54 | after adding a stroke, redo is a no-op |
| History.Apply | notepad.js:37-54 | each history call keeps `numStrokes <= |strokes|`, and the only stroke it may introduce is the one added |
| History.ApplyAll | notepad.js:18-60 | any sequence of add/undo/redo calls keeps the cursor in range, and every stroke then held was there at the start or was added by one of the calls |
| History.StrokeHistory.constructor | notepad.js:27-35 | the seed strokes are kept and all of them are visible |
| History.StrokeHistory.AddStroke | notepad.js:37-42 | the new state is `Added` of the old one; the invariant is kept |
| History.StrokeHistory.Undo | notepad.js:44-48 | the new state is `Undone` of the old one; the invariant is kept |
| History.StrokeHistory.Redo | notepad.js:50-54 | the new state is `Redone` of the old one; the invariant is kept |
| Pens.Width | notepad.js:312-319 | force 0 gives width 0, force 1 gives width 8, forces in [0,1] give widths in [0,8], and forces outside [0,1] are not clamped |
| Pens.WidthStrictlyIncreasing | notepad.js:312-319 | a larger force gives a strictly larger width |
| Pens.Pen.constructor | notepad.js:303-310 | a new pen sits at (0,0) with control (0,0) and is not drawing |
| Canvas.Replay | notepad.js:242-271 | smoothed drawing through n samples strokes exactly n segments |
| Canvas.ReplayPose | notepad.js:242-271 | after smoothed drawing the pen pose is the closed form `PoseAfter`: the last midpoint, with the last sample as control |
| Canvas.ReplayAt | notepad.js:242-271 | segment i of a smoothed replay is the curve from the pose after i samples, bent by its control point, to the midpoint with sample i, at width `Width(force)` |
| Canvas.SmoothPathIsContinuous | notepad.js:253-270 | each smoothed segment starts where the previous one ends |
| Canvas.SmoothingForgetsStartPose | notepad.js:257-270 | from the third segment on, smoothed drawing is the same whatever pose it started from |
| Canvas.StrokeTrace | notepad.js:273-282 | a stroke of fewer than 2 samples draws nothing and leaves the pen alone; otherwise it draws one segment per sample after the first |
| Canvas.StrokeShape | notepad.js:273-282 | a stroke of 2 or more samples starts at its first sample and leaves the pen on its last midpoint, with its last sample as control |
| Canvas.RefreshIgnoresPose | notepad.js:284-289 | what a refresh strokes depends only on the visible strokes, so two refreshes over the same history produce identical logs |
| Canvas.LiveDrawingVersusReplay | notepad.js:373-392 | after a pen-down, the first live segment has undefined control and end, the second differs from the replay's first only in its undefined start, and later live segments equal the replay's shifted by one |
| Canvas.LiveSingleMove | notepad.js:373-392 | a single move after a pen-down logs one segment with undefined control and end, and the committed one-sample stroke logs nothing on replay |
| Canvas.NotepadCanvas.constructor | notepad.js:207-218 | the canvas shares the given pen and starts blank |
| Canvas.NotepadCanvas.DrawTo | notepad.js:220-224 | live drawing uses the smoothed strategy |
| Canvas.NotepadCanvas.SimpleDrawTo | notepad.js:226-240 | appends one line (`LineSegment`) from the pen position to the sample at `Width(force)`, moves the pen to the sample and leaves the control point unchanged |
| Canvas.NotepadCanvas.SmoothDrawTo | notepad.js:242-271 | appends exactly one curve (`SmoothSegment`) from the old position via the old control to the midpoint with the sample, at `Width(force)`; the pose becomes `SmoothPose`: the position is that midpoint and the control is the sample |
| Canvas.NotepadCanvas.DrawStroke | notepad.js:273-282 | appends exactly the segments of `StrokeTrace` and leaves the pen at its pose |
| Canvas.NotepadCanvas.Refresh | notepad.js:284-289 | the log becomes exactly `RefreshTrace` of the visible strokes: their `StrokeTrace` segments, in order, and nothing else; the pen ends at that trace's pose |
| Canvas.NotepadCanvas.Clear | notepad.js:291-293 | the log is empty |
| Input.OnMouse | notepad.js:79-110 | mouse-down gives pen-down, mouse-up and mouse-out give pen-up, and every mouse move gives a pen-move of force exactly 0.2; coordinates are scaled canvas-relative client coordinates |
| Input.FindStylus | notepad.js:134 | the first stylus contact is found when there is one, and none is reported when there is none |
| Input.OnTouch | notepad.js:131-178 | touch start with a stylus gives pen-down at the first stylus; without one, exactly 2 contacts give undo, exactly 3 give redo, and any other count gives nothing; touch move gives a pen-move with the stylus's force, or nothing without a stylus; touch end and touch cancel always give pen-up |
| Input.StylusDisambiguation | notepad.js:159-173 | with a finger and a stylus down, in either order, a move carries the stylus's position and force |
| Input.OnKeyDown | notepad.js:193-201 | meta+z without shift gives undo, meta+shift+z gives redo, and every other key combination gives nothing |
| Controller.Notepad.constructor | notepad.js:329-371 | the history holds the seed strokes, all visible; nothing is in progress; the canvas shows exactly the replay of the seed |
| Controller.Notepad.PenDown | notepad.js:373-377 | the pen is drawing at the given point with an undefined control point; the stroke in progress, the history and the canvas are untouched; the notepad invariant (an idle notepad has no stroke in progress) makes a pen-down from idle start an empty stroke |
| Controller.Notepad.PenUp | notepad.js:379-385 | while drawing, the stroke in progress is added to the history once, drawing stops and the stroke in progress is emptied; while not drawing nothing changes |
| Controller.Notepad.PenMove | notepad.js:387-392 | while drawing, the sample is appended to the stroke in progress and exactly one smoothed segment is drawn; while not drawing nothing changes; the history is untouched |
| Controller.Notepad.Undo | notepad.js:394-397 | the history is undone and the canvas shows exactly the replay of the visible strokes |
| Controller.Notepad.Redo | notepad.js:399-402 | the history is redone and the canvas shows exactly the replay of the visible strokes |
| Controller.Notepad.DrawLive | notepad.js:373-392 | a pen-down at (x, y) followed by any sequence of moves logs exactly `Replay` from (x, y) with an undefined control point, leaves the pen at that replay's pose, and extends the stroke in progress by exactly the moves (from idle, the stroke is exactly the moves); the history is untouched |
| Controller.Notepad.Handle | notepad.js:363-367 | each canonical event reaches its handler: pen-down, pen-move, pen-up, undo and redo each change the state exactly as that handler's contract says |
| Controller.Notepad.GetImageData | notepad.js:404-408 | returns exactly the visible strokes |
| Controller.EndToEndScenario | notepad.js:373-408 | pen-down, one move and pen-up commit a one-sample stroke; undo hides it and redo shows it again unchanged |

## Left out

- Page bootstrap (notepad.js:1-16): finding the canvases and parsing their JSON seed. The seed stroke list is a constructor argument. A seed without a `strokes` field is not modelled.
- Event plumbing: `addEventListener`, `dispatchEvent`, `CustomEvent`, the unused `new Event(...)` calls and `preventDefault`. The classifiers state which event each handler dispatches. Whether a handler suppresses the browser's default action is not modelled.
- Canvas sizing from `getBoundingClientRect` and `devicePixelRatio` in the notepad constructor (notepad.js:344-348). This is layout with no logic to prove.
- The real 2D context calls (`beginPath`, `moveTo`, `lineTo`, `quadraticCurveTo`, `stroke`, `closePath`, `clearRect`) and the pen colour (`strokeStyle` is always `'black'`). They are replaced by the segment log.
- What the browser paints. A browser canvas ignores `moveTo` and `quadraticCurveTo` calls with a `NaN` argument. When the first path command is ignored, the curve starts at its own control point. The first live segment after a pen-down therefore paints nothing. The second paints the replay's first curve, though a canvas also ignores a `lineWidth` of 0, so a sample of force 0 keeps the previous width. The model states facts about the segment log only, not about pixels.
- IEEE floating point. Reals are exact, and `undefined`/`NaN` coordinates are collapsed into `Loc.Undefined`. A missing `force` in seed data, which would make a width `NaN`, is not representable.
- Sharing of JavaScript arrays. The seed array is aliased by the history until the first added stroke. Committed strokes and the result of `getImageData` share arrays with the history. The model uses immutable sequences, so this aliasing is not visible.
- The `bind(this)` boilerplate, which has no behaviour.
- Strategy selection. `drawTo` always uses the smoothed strategy, as in the code. `SimpleDrawTo` is modelled but nothing calls it.
