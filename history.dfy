/** The stroke history: every stroke kept so far and a cursor saying how many
    of them are visible. Strokes past the cursor can be redone until the next
    stroke is added. */
module History {
  import opened Geometry

  /** The abstract value of a history. */
  datatype Log = Log(strokes: seq<Stroke>, numStrokes: nat) {
    predicate Valid() {
      numStrokes <= |strokes|
    }
  }

  /** The strokes that should be visible: the first `numStrokes` of them. */
  function Visible(h: Log): (r: seq<Stroke>)
    requires h.Valid()
    ensures |r| == h.numStrokes
    ensures forall i :: 0 <= i < |r| ==> r[i] == h.strokes[i]
  {
    h.strokes[..h.numStrokes]
  }

  /** Adding a stroke drops the redo tail and appends the stroke. */
  function Added(h: Log, stroke: Stroke): (r: Log)
    requires h.Valid()
    ensures r.Valid() && r.numStrokes == |r.strokes|
    ensures r.strokes == h.strokes[..h.numStrokes] + [stroke]
    ensures Visible(r) == Visible(h) + [stroke]
  {
    var kept := Visible(h);
    Log(kept + [stroke], |kept| + 1)
  }

  /** Undo hides the last visible stroke, if there is one. */
  function Undone(h: Log): (r: Log)
    requires h.Valid()
    ensures r.Valid() && r.strokes == h.strokes
    ensures h.numStrokes > 0 ==> Visible(r) + [h.strokes[h.numStrokes - 1]] == Visible(h)
    ensures h.numStrokes == 0 ==> r == h
  {
    if h.numStrokes > 0 then h.(numStrokes := h.numStrokes - 1) else h
  }

  /** Redo shows again the most recently hidden stroke, if there is one. */
  function Redone(h: Log): (r: Log)
    requires h.Valid()
    ensures r.Valid() && r.strokes == h.strokes
    ensures h.numStrokes < |h.strokes| ==> Visible(r) == Visible(h) + [h.strokes[h.numStrokes]]
    ensures h.numStrokes == |h.strokes| ==> r == h
  {
    if h.numStrokes < |h.strokes| then h.(numStrokes := h.numStrokes + 1) else h
  }

  lemma UndoThenRedo(h: Log)
    requires h.Valid() && h.numStrokes > 0
    ensures Redone(Undone(h)) == h
    ensures Visible(Redone(Undone(h))) == Visible(h)
  {
  }

  lemma RedoThenUndo(h: Log)
    requires h.Valid() && h.numStrokes < |h.strokes|
    ensures Undone(Redone(h)) == h
  {
  }

  /** After a stroke is added nothing is left to redo. */
  lemma AddedLeavesNothingToRedo(h: Log, stroke: Stroke)
    requires h.Valid()
    ensures Redone(Added(h, stroke)) == Added(h, stroke)
  {
  }

  /** One call on the history, as the notepad makes them. */
  datatype Op = AddStroke(stroke: Stroke) | UndoOp | RedoOp

  function Apply(h: Log, op: Op): (r: Log)
    requires h.Valid()
    ensures r.Valid()
    ensures forall s :: s in r.strokes ==> s in h.strokes || op == AddStroke(s)
  {
    match op
    case AddStroke(s) =>
      assert forall t :: t in h.strokes[..h.numStrokes] ==> t in h.strokes;
      Added(h, s)
    case UndoOp => Undone(h)
    case RedoOp => Redone(h)
  }

  /** Any sequence of calls keeps the cursor in range, and every stroke the
      history then holds was either there at the start or added by one of the
      calls: strokes are never invented or altered. */
  function ApplyAll(h: Log, ops: seq<Op>): (r: Log)
    requires h.Valid()
    ensures r.Valid()
    ensures forall s :: s in r.strokes ==> s in h.strokes || AddStroke(s) in ops
    decreases |ops|
  {
    if ops == [] then h
    else
      var r := ApplyAll(Apply(h, ops[0]), ops[1..]);
      assert forall op :: op in ops[1..] ==> op in ops;
      r
  }

  /** The history of one notepad, updated in place. */
  class StrokeHistory {
    var strokes: seq<Stroke>
    var numStrokes: nat

    ghost predicate Valid()
      reads this
    {
      Model().Valid()
    }

    /** The abstract value of this history. */
    function Model(): Log
      reads this
    {
      Log(strokes, numStrokes)
    }

    /** A history seeded with restored strokes, all of them visible. */
    constructor (initial: seq<Stroke>)
      ensures Valid()
      ensures strokes == initial && numStrokes == |initial|
    {
      strokes := initial;
      numStrokes := |initial|;
    }

    method AddStroke(stroke: Stroke)
      requires Valid()
      modifies this
      ensures Valid()
      ensures Model() == Added(old(Model()), stroke)
    {
      strokes := CurrentStrokes();
      strokes := strokes + [stroke];
      numStrokes := |strokes|;
    }

    method Undo()
      requires Valid()
      modifies this
      ensures Valid()
      ensures Model() == Undone(old(Model()))
    {
      if numStrokes > 0 {
        numStrokes := numStrokes - 1;
      }
    }

    method Redo()
      requires Valid()
      modifies this
      ensures Valid()
      ensures Model() == Redone(old(Model()))
    {
      if numStrokes < |strokes| {
        numStrokes := numStrokes + 1;
      }
    }

    /** The visible strokes. */
    function CurrentStrokes(): seq<Stroke>
      reads this
      requires Valid()
    {
      Visible(Model())
    }
  }
}
