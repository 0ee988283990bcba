/** The drawing surface: how touch events become smoothed strokes that are
    handed to the store, and how a stored entry is painted. */
module Canvas {
  import opened SkiaPath
  import opened Drawing

  datatype Option<T> = None | Some(value: T)

  // ---------------------------------------------------------------------------
  // Geometry

  /** The point halfway between two points. */
  function MidPoint(p1: Point, p2: Point): (m: Point)
    ensures m.x - p1.x == p2.x - m.x && m.y - p1.y == p2.y - m.y
  {
    Point((p1.x + p2.x) / 2.0, (p1.y + p2.y) / 2.0)
  }

  lemma MidPointSymmetric(p1: Point, p2: Point)
    ensures MidPoint(p1, p2) == MidPoint(p2, p1)
  {
  }

  lemma MidPointOfSamePoint(p: Point)
    ensures MidPoint(p, p) == p
  {
  }

  /** The midpoint lies inside the box spanned by its two points. */
  lemma MidPointBetween(p1: Point, p2: Point)
    ensures p1.x <= p2.x ==> p1.x <= MidPoint(p1, p2).x <= p2.x
    ensures p2.x <= p1.x ==> p2.x <= MidPoint(p1, p2).x <= p1.x
    ensures p1.y <= p2.y ==> p1.y <= MidPoint(p1, p2).y <= p2.y
    ensures p2.y <= p1.y ==> p2.y <= MidPoint(p1, p2).y <= p1.y
  {
  }

  /** The last sample of a stroke that started at `start` and has moved
      through `samples`. */
  function LastSample(start: Point, samples: seq<Point>): Point
  {
    if samples == [] then start else samples[|samples| - 1]
  }

  /** The sample before the `i`-th move sample. */
  function Previous(start: Point, samples: seq<Point>, i: nat): Point
    requires i < |samples|
  {
    if i == 0 then start else samples[i - 1]
  }

  /** The live geometry after a grant at `start` and one move per sample: a
      move-to, then one quadratic segment per sample, each controlled by the
      previous sample and ending halfway to the new one. */
  function Smoothed(start: Point, samples: seq<Point>): (g: seq<Seg>)
    ensures |g| == |samples| + 1
    decreases |samples|
  {
    if samples == [] then [MoveTo(start)]
    else
      var before := samples[..|samples| - 1];
      var last := LastSample(start, before);
      Smoothed(start, before) + [QuadTo(last, MidPoint(last, samples[|samples| - 1]))]
  }

  /** The shape of a smoothed geometry, verb by verb. */
  lemma {:induction false} SmoothedShape(start: Point, samples: seq<Point>)
    ensures |Smoothed(start, samples)| == |samples| + 1
    ensures Smoothed(start, samples)[0] == MoveTo(start)
    ensures forall i :: 0 <= i < |samples| ==>
      Smoothed(start, samples)[i + 1]
        == QuadTo(Previous(start, samples, i), MidPoint(Previous(start, samples, i), samples[i]))
    decreases |samples|
  {
    if samples != [] {
      var before := samples[..|samples| - 1];
      SmoothedShape(start, before);
      forall i | 0 <= i < |samples|
        ensures Smoothed(start, samples)[i + 1]
          == QuadTo(Previous(start, samples, i), MidPoint(Previous(start, samples, i), samples[i]))
      {
        if i < |before| {
          assert Previous(start, samples, i) == Previous(start, before, i);
          assert samples[i] == before[i];
        }
      }
    }
  }

  /** A stroke that ends with the explicit line of a release stops exactly at
      the last sample recorded, while the smoothed part alone stops at a
      midpoint short of it. */
  lemma ReleasedStrokeEndsAtLastSample(start: Point, samples: seq<Point>)
    ensures PenAfter(Last(Smoothed(start, samples) + [LineTo(LastSample(start, samples))]))
      == LastSample(start, samples)
    ensures samples != [] ==>
      PenAfter(Last(Smoothed(start, samples)))
        == MidPoint(LastSample(start, samples[..|samples| - 1]), samples[|samples| - 1])
  {
  }

  function Last<T>(s: seq<T>): T
    requires s != []
  {
    s[|s| - 1]
  }

  // ---------------------------------------------------------------------------
  // Style of new entries and of painting

  const Transparent: string := "transparent"

  /** The entry the canvas hands to the store for the live geometry `g`: the
      current width and tool, and the current color unless the tool is the
      eraser, whose entries are transparent. */
  function StrokePayload(s: DrawingState, g: seq<Seg>): (p: PathData)
    ensures p.path == g && p.strokeWidth == s.currentStrokeWidth && p.tool == s.currentTool
    ensures p.tool == Eraser ==> p.color == Transparent
    ensures p.tool == Brush ==> p.color == s.currentColor
  {
    PathData(g, if s.currentTool == Eraser then Transparent else s.currentColor,
             s.currentStrokeWidth, s.currentTool)
  }

  datatype BlendMode = ClearBlend | SrcOver

  /** How an entry is painted. */
  datatype Paint = Paint(color: string, strokeWidth: real, blend: BlendMode)

  /** Eraser entries paint transparent with the clearing blend, whatever color
      they carry; brush entries paint their own color over what is there. */
  function PaintOf(p: PathData): (r: Paint)
    ensures r.strokeWidth == p.strokeWidth
    ensures p.tool == Eraser ==> r.color == Transparent && r.blend == ClearBlend
    ensures p.tool == Brush ==> r.color == p.color && r.blend == SrcOver
  {
    Paint(if p.tool == Eraser then Transparent else p.color,
          p.strokeWidth,
          if p.tool == Eraser then ClearBlend else SrcOver)
  }

  /** For every entry the canvas creates, painting uses exactly the color the
      entry carries, and the clearing blend exactly for eraser entries. */
  lemma CanvasEntriesPaintTheirOwnColor(s: DrawingState, g: seq<Seg>)
    ensures PaintOf(StrokePayload(s, g)).color == StrokePayload(s, g).color
    ensures PaintOf(StrokePayload(s, g)).blend == ClearBlend <==> s.currentTool == Eraser
  {
  }

  // ---------------------------------------------------------------------------
  // The touch handlers

  /** The drawing surface. `pathRef` is the live path of the stroke in
      progress and `lastPoint` its last recorded sample; both are absent
      between strokes. */
  class DrawingCanvas {
    const store: Store
    var pathRef: LivePath?
    var lastPoint: Option<Point>

    constructor (store: Store)
      ensures this.store == store && pathRef == null && lastPoint == None
    {
      this.store := store;
      pathRef := null;
      lastPoint := None;
    }

    /** A stroke is in progress. */
    predicate Active()
      reads this
    {
      lastPoint.Some? && pathRef != null
    }

    /** Touch down at `touch`: a new live path with a move-to, and one entry
        for it added to the store. */
    method Grant(touch: Point)
      requires store.Valid()
      modifies this, store
      ensures store.Valid()
      ensures pathRef != null && fresh(pathRef) && pathRef.verbs == [MoveTo(touch)]
      ensures lastPoint == Some(touch)
      ensures store.dispatched == old(store.dispatched) + [AddPath(StrokePayload(old(store.state), [MoveTo(touch)]))]
      ensures store.state == Reduce(old(store.state), AddPath(StrokePayload(old(store.state), [MoveTo(touch)])))
    {
      var newPath := new LivePath.Make();
      newPath.MoveTo(touch);
      pathRef := newPath;
      lastPoint := Some(touch);
      store.Dispatch(AddPath(StrokePayload(store.state, newPath.verbs)));
    }

    /** Touch moved to `current`: with a stroke in progress, one quadratic
        segment from the last sample towards `current` is appended to the live
        path, the grown path is added to the store as a new entry, and
        `current` becomes the last sample. The store reduces each action as it
        is dispatched, so entries already stored keep their geometry although
        the live path they were taken from has changed. */
    method Move(current: Point)
      requires store.Valid()
      modifies this, store, pathRef
      ensures store.Valid()
      ensures pathRef == old(pathRef)
      ensures old(Active()) ==>
        var last := old(lastPoint).value;
        && pathRef.verbs == old(pathRef.verbs) + [QuadTo(last, MidPoint(last, current))]
        && lastPoint == Some(current)
        && store.dispatched == old(store.dispatched) + [AddPath(StrokePayload(old(store.state), pathRef.verbs))]
        && store.state == Reduce(old(store.state), AddPath(StrokePayload(old(store.state), pathRef.verbs)))
        && store.state.paths[..|old(store.state.paths)|] == old(store.state.paths)
      ensures !old(Active()) ==>
        lastPoint == old(lastPoint) && store.state == old(store.state)
        && store.dispatched == old(store.dispatched)
        && (pathRef != null ==> pathRef.verbs == old(pathRef.verbs))
    {
      if lastPoint.Some? && pathRef != null {
        var currentPoint := current;
        var midPoint := MidPoint(lastPoint.value, currentPoint);
        pathRef.QuadTo(lastPoint.value, midPoint);
        store.Dispatch(AddPath(StrokePayload(store.state, pathRef.verbs)));
        lastPoint := Some(currentPoint);
      }
    }

    /** Touch released: with a stroke in progress, a line to the last sample
        (not to where the finger lifted) is appended and the finished path is
        added to the store; in every case the stroke then ends. */
    method Release()
      requires store.Valid()
      modifies this, store, pathRef
      ensures store.Valid()
      ensures pathRef == null && lastPoint == None
      ensures old(Active()) ==>
        var last := old(lastPoint).value;
        && old(pathRef).verbs == old(pathRef.verbs) + [LineTo(last)]
        && store.dispatched == old(store.dispatched) + [AddPath(StrokePayload(old(store.state), old(pathRef).verbs))]
        && store.state == Reduce(old(store.state), AddPath(StrokePayload(old(store.state), old(pathRef).verbs)))
        && store.state.paths[..|old(store.state.paths)|] == old(store.state.paths)
      ensures !old(Active()) ==>
        store.state == old(store.state) && store.dispatched == old(store.dispatched)
        && (old(pathRef) != null ==> old(pathRef).verbs == old(pathRef.verbs))
    {
      if lastPoint.Some? && pathRef != null {
        pathRef.LineTo(lastPoint.value);
        store.Dispatch(AddPath(StrokePayload(store.state, pathRef.verbs)));
      }
      lastPoint := None;
      pathRef := null;
    }

    /** The gesture was taken away: the stroke ends and nothing reaches the
        store. */
    method Terminate()
      modifies this
      ensures pathRef == null && lastPoint == None
      ensures store.state == old(store.state) && store.dispatched == old(store.dispatched)
    {
      lastPoint := None;
      pathRef := null;
    }
  }

  // ---------------------------------------------------------------------------
  // One whole touch contact

  /** The entries one stroke adds while in progress: one per event so far,
      the `k`-th holding the geometry after `k` move samples. */
  function StrokeEntries(s: DrawingState, start: Point, samples: seq<Point>): (es: seq<PathData>)
    ensures |es| == |samples| + 1
    ensures forall k :: 0 <= k <= |samples| ==> es[k] == StrokePayload(s, Smoothed(start, samples[..k]))
  {
    seq(|samples| + 1, k requires 0 <= k <= |samples| => StrokePayload(s, Smoothed(start, samples[..k])))
  }

  lemma StrokeEntriesExtend(s: DrawingState, start: Point, samples: seq<Point>, x: Point)
    ensures StrokeEntries(s, start, samples + [x])
      == StrokeEntries(s, start, samples) + [StrokePayload(s, Smoothed(start, samples + [x]))]
  {
    var longer := samples + [x];
    forall k | 0 <= k <= |samples|
      ensures StrokeEntries(s, start, longer)[k] == StrokeEntries(s, start, samples)[k]
    {
      assert longer[..k] == samples[..k];
    }
    assert longer[..|longer|] == longer;
  }

  /** One move sample extends the smoothed geometry by one segment and the
      stroke's entries by the entry for the grown geometry. */
  lemma StrokeStep(s: DrawingState, start: Point, prefix: seq<Point>, x: Point)
    ensures Smoothed(start, prefix + [x])
      == Smoothed(start, prefix) + [QuadTo(LastSample(start, prefix), MidPoint(LastSample(start, prefix), x))]
    ensures LastSample(start, prefix + [x]) == x
    ensures StrokeEntries(s, start, prefix + [x])
      == StrokeEntries(s, start, prefix) + [StrokePayload(s, Smoothed(start, prefix + [x]))]
  {
    assert (prefix + [x])[..|prefix|] == prefix;
    StrokeEntriesExtend(s, start, prefix, x);
  }

  /** The canvas and store in the middle of a stroke that started at `start`
      in state `s0` on top of the entries `base`, after the move samples
      `samples`. */
  ghost predicate Stroking(c: DrawingCanvas, s0: DrawingState, base: seq<PathData>,
                           start: Point, samples: seq<Point>)
    reads c, c.store, c.pathRef
  {
    && c.pathRef != null
    && c.pathRef.verbs == Smoothed(start, samples)
    && c.lastPoint == Some(LastSample(start, samples))
    && c.store.state.paths == base + StrokeEntries(s0, start, samples)
    && c.store.state.redoStack == [] && c.store.state.undoStack == s0.undoStack
    && SameStyle(c.store.state, s0)
  }

  /** One move event in the middle of a stroke. */
  method MoveStep(c: DrawingCanvas, ghost s0: DrawingState, ghost base: seq<PathData>,
                  start: Point, ghost prefix: seq<Point>, x: Point)
    requires c.store.Valid() && Stroking(c, s0, base, start, prefix)
    modifies c, c.store, c.pathRef
    ensures c.store.Valid() && Stroking(c, s0, base, start, prefix + [x])
    ensures c.pathRef == old(c.pathRef)
  {
    c.Move(x);
    StrokeStep(s0, start, prefix, x);
  }

  /** The move events of one touch contact after its grant, one per sample,
      each action reduced as it is dispatched. */
  method MoveThrough(c: DrawingCanvas, start: Point, samples: seq<Point>)
    requires c.store.Valid()
    requires c.pathRef != null && c.pathRef.verbs == [MoveTo(start)] && c.lastPoint == Some(start)
    requires c.store.state.paths != [] && c.store.state.redoStack == []
    requires Last(c.store.state.paths) == StrokePayload(c.store.state, [MoveTo(start)])
    modifies c, c.store, c.pathRef
    ensures c.store.Valid()
    ensures c.pathRef == old(c.pathRef) && c.pathRef.verbs == Smoothed(start, samples)
    ensures c.lastPoint == Some(LastSample(start, samples))
    ensures c.store.state.paths
      == DropLast(old(c.store.state.paths)) + StrokeEntries(old(c.store.state), start, samples)
    ensures c.store.state.redoStack == [] && c.store.state.undoStack == old(c.store.state.undoStack)
    ensures SameStyle(c.store.state, old(c.store.state))
  {
    ghost var s0 := c.store.state;
    ghost var base := DropLast(s0.paths);
    assert Smoothed(start, samples[..0]) == [MoveTo(start)];
    assert StrokeEntries(s0, start, samples[..0]) == [StrokePayload(s0, [MoveTo(start)])];
    var i := 0;
    while i < |samples|
      invariant 0 <= i <= |samples|
      invariant c.pathRef == old(c.pathRef)
      invariant c.store.Valid() && Stroking(c, s0, base, start, samples[..i])
    {
      assert samples[..i + 1] == samples[..i] + [samples[i]];
      MoveStep(c, s0, base, start, samples[..i], samples[i]);
      i := i + 1;
    }
    assert samples[..i] == samples;
  }

  /** A touch down at `start`, one move per sample and a release, with no
      other action dispatched in between, each action reduced as it is
      dispatched. The store gains one entry per event (so `|samples| + 2`),
      each a copy of the live path as it was at that event; the redo stack
      is emptied and the undo stack is untouched, since the canvas never
      finalizes a path. */
  method DrawStroke(c: DrawingCanvas, start: Point, samples: seq<Point>)
    requires c.store.Valid()
    modifies c, c.store
    ensures c.store.Valid()
    ensures c.pathRef == null && c.lastPoint == None
    ensures c.store.state.paths ==
      old(c.store.state.paths) + StrokeEntries(old(c.store.state), start, samples)
        + [StrokePayload(old(c.store.state), Smoothed(start, samples) + [LineTo(LastSample(start, samples))])]
    ensures |c.store.state.paths| == |old(c.store.state.paths)| + |samples| + 2
    ensures c.store.state.redoStack == [] && c.store.state.undoStack == old(c.store.state.undoStack)
    ensures SameStyle(c.store.state, old(c.store.state))
  {
    ghost var s0 := c.store.state;
    c.Grant(start);
    ghost var s1 := c.store.state;
    assert DropLast(s1.paths) == s0.paths;
    MoveThrough(c, start, samples);
    ghost var s2 := c.store.state;
    c.Release();
    assert StrokePayload(s2, Smoothed(start, samples) + [LineTo(LastSample(start, samples))])
      == StrokePayload(s0, Smoothed(start, samples) + [LineTo(LastSample(start, samples))]);
  }
}
