/** The shared vocabulary of the notepad: sampled points, strokes and the
    2D locations the pen moves through. */
module Geometry {

  /** A sampled pen location in canvas pixels, with the normalised force. */
  datatype Point = Point(x: real, y: real, force: real)

  /** A stroke is the ordered list of samples between a pen-down and a pen-up. */
  type Stroke = seq<Point>

  /** A pen location. `Undefined` stands for a location whose coordinates are
      `undefined` or `NaN` in the browser: the arithmetic below propagates it. */
  datatype Loc = Undefined | At(x: real, y: real)

  /** The location of a sample, without its force. */
  function AtPoint(p: Point): Loc {
    At(p.x, p.y)
  }

  /** The midpoint between a sample and a (possibly undefined) control point. */
  function Mid(p: Point, c: Loc): (m: Loc)
    ensures m.At? <==> c.At?
    ensures m.At? ==> m.x - p.x == c.x - m.x && m.y - p.y == c.y - m.y
  {
    if c.At? then At(0.5 * (p.x + c.x), 0.5 * (p.y + c.y)) else Undefined
  }
}
