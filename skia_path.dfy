/** The part of the Skia path object that the drawing code relies on: a path is
    an ordered list of drawing verbs, built in place by moveTo / quadTo / lineTo.
    Coordinates are exact reals. A stored path is a value `seq<Seg>`, so a copy
    of a path is simply its current verb list. */
module SkiaPath {

  /** A device-space coordinate pair. */
  datatype Point = Point(x: real, y: real)

  /** One verb of a path, with the points it carries. */
  datatype Seg =
    | MoveTo(to: Point)
    | QuadTo(control: Point, end: Point)
    | LineTo(to: Point)

  /** The point a verb leaves the pen at. */
  function PenAfter(s: Seg): Point
  {
    match s
    case MoveTo(p) => p
    case QuadTo(_, e) => e
    case LineTo(p) => p
  }

  /** A mutable path that the canvas grows one verb at a time. `verbs` is the
      whole geometry; every operation appends exactly one verb. */
  class LivePath {
    var verbs: seq<Seg>

    /** `Skia.Path.Make()`: a new, empty path. */
    constructor Make()
      ensures verbs == []
    {
      verbs := [];
    }

    method MoveTo(p: Point)
      modifies this
      ensures verbs == old(verbs) + [Seg.MoveTo(p)]
    {
      verbs := verbs + [Seg.MoveTo(p)];
    }

    method QuadTo(control: Point, end: Point)
      modifies this
      ensures verbs == old(verbs) + [Seg.QuadTo(control, end)]
    {
      verbs := verbs + [Seg.QuadTo(control, end)];
    }

    method LineTo(p: Point)
      modifies this
      ensures verbs == old(verbs) + [Seg.LineTo(p)]
    {
      verbs := verbs + [Seg.LineTo(p)];
    }
  }
}
