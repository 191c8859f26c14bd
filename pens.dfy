/** The pen: the drawing cursor shared by the controller and the renderer,
    and the force-to-width mapping of the "fountain pen" brush. */
module Pens {
  import opened Geometry

  const MinWidth: real := 0.0
  const MaxWidth: real := 8.0

  /** Line width for a force: linear interpolation between the two bounds.
      Forces outside [0, 1] are not clamped. */
  function Width(force: real): (w: real)
    ensures force == 0.0 ==> w == MinWidth
    ensures force == 1.0 ==> w == MaxWidth
    ensures 0.0 <= force <= 1.0 ==> MinWidth <= w <= MaxWidth
    ensures force < 0.0 ==> w < MinWidth
    ensures force > 1.0 ==> w > MaxWidth
  {
    MinWidth + force * (MaxWidth - MinWidth)
  }

  lemma WidthStrictlyIncreasing(f1: real, f2: real)
    requires f1 < f2
    ensures Width(f1) < Width(f2)
  {
  }

  class Pen {
    var position: Loc
    var control: Loc  // the control point of the next smoothed segment
    var drawing: bool

    constructor ()
      ensures position == At(0.0, 0.0) && control == At(0.0, 0.0)
      ensures !drawing
    {
      position := At(0.0, 0.0);
      control := At(0.0, 0.0);
      drawing := false;
    }
  }
}
