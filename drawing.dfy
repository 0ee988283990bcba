/** The drawing history: the shared drawing state, the closed set of actions on
    it, and the reducer that computes the next state from the current one. */
module Drawing {
  import opened SkiaPath

  datatype Tool = Brush | Eraser

  /** One stored stroke entry: its geometry and the style it was drawn with. */
  datatype PathData = PathData(path: seq<Seg>, color: string, strokeWidth: real, tool: Tool)

  /** The canvas content (`paths`, in paint order), the two history stacks and
      the style that new strokes will use. */
  datatype DrawingState = DrawingState(
    paths: seq<PathData>,
    undoStack: seq<PathData>,
    redoStack: seq<PathData>,
    currentColor: string,
    currentStrokeWidth: real,
    currentTool: Tool)

  datatype Action =
    | AddPath(payload: PathData)
    | UpdatePath(index: int, path: PathData)
    | FinalizePath(index: int, path: PathData)
    | Undo
    | Redo
    | Clear
    | SetColor(color: string)
    | SetStrokeWidth(width: real)
    | SetTool(tool: Tool)

  const InitialColor: string := "#000000"
  const InitialStrokeWidth: real := 5.0

  function InitialState(): (s: DrawingState)
    ensures s.paths == [] && s.undoStack == [] && s.redoStack == []
    ensures s.currentColor == InitialColor && s.currentStrokeWidth == InitialStrokeWidth
    ensures s.currentTool == Brush
  {
    DrawingState([], [], [], InitialColor, InitialStrokeWidth, Brush)
  }

  /** A copy of an entry. The geometry is a value, so the copy is an
      independent entry equal to the original in every field. */
  function ClonePath(p: PathData): (r: PathData)
    ensures r == p
  {
    PathData(p.path, p.color, p.strokeWidth, p.tool)
  }

  /** Entry-by-entry copy of a list of entries. */
  function ClonePaths(ps: seq<PathData>): (r: seq<PathData>)
    ensures |r| == |ps|
    ensures forall i :: 0 <= i < |r| ==> r[i] == ps[i]
  {
    seq(|ps|, i requires 0 <= i < |ps| => ClonePath(ps[i]))
  }

  /** `slice(0, -1)`: everything but the last element; empty stays empty. */
  function DropLast<T>(s: seq<T>): (r: seq<T>)
    ensures s == [] ==> r == []
    ensures s != [] ==> r + [s[|s| - 1]] == s
  {
    if s == [] then [] else s[..|s| - 1]
  }

  /** The style settings of two states agree. */
  predicate SameStyle(r: DrawingState, s: DrawingState)
  {
    r.currentColor == s.currentColor && r.currentStrokeWidth == s.currentStrokeWidth
    && r.currentTool == s.currentTool
  }

  /** The three sequences of two states agree. */
  predicate SameContent(r: DrawingState, s: DrawingState)
  {
    r.paths == s.paths && r.undoStack == s.undoStack && r.redoStack == s.redoStack
  }

  /** What the reducer demands of an action: an index it writes must name an
      existing entry. */
  predicate Applicable(s: DrawingState, a: Action)
  {
    match a
    case UpdatePath(i, _) => 0 <= i < |s.paths|
    case FinalizePath(i, _) => 0 <= i < |s.paths|
    case _ => true
  }

  /** The reducer. */
  function Reduce(s: DrawingState, a: Action): (r: DrawingState)
    requires Applicable(s, a)
    // adding appends exactly one copy and discards the redo history
    ensures a.AddPath? ==>
      r.paths == s.paths + [a.payload] && r.redoStack == [] && r.undoStack == s.undoStack
      && SameStyle(r, s)
    // updating overwrites one entry in place and leaves the history alone
    ensures a.UpdatePath? ==>
      |r.paths| == |s.paths| && r.paths[a.index] == a.path
      && (forall j :: 0 <= j < |s.paths| && j != a.index ==> r.paths[j] == s.paths[j])
      && r.undoStack == s.undoStack && r.redoStack == s.redoStack && SameStyle(r, s)
    // finalizing overwrites one entry and records it as the newest undo entry
    ensures a.FinalizePath? ==>
      |r.paths| == |s.paths| && r.paths[a.index] == a.path
      && (forall j :: 0 <= j < |s.paths| && j != a.index ==> r.paths[j] == s.paths[j])
      && r.undoStack == s.undoStack + [a.path] && r.redoStack == [] && SameStyle(r, s)
    // undo with nothing to undo changes nothing
    ensures a.Undo? && s.undoStack == [] ==> r == s
    // undo moves the newest undo entry to the front of the redo stack and drops the last path
    ensures a.Undo? && s.undoStack != [] ==>
      r.paths + (if s.paths == [] then [] else [s.paths[|s.paths| - 1]]) == s.paths
      && r.undoStack + [s.undoStack[|s.undoStack| - 1]] == s.undoStack
      && r.redoStack == [s.undoStack[|s.undoStack| - 1]] + s.redoStack
      && SameStyle(r, s)
    // redo with nothing to redo changes nothing
    ensures a.Redo? && s.redoStack == [] ==> r == s
    // redo moves the front of the redo stack onto the end of both paths and the undo stack
    ensures a.Redo? && s.redoStack != [] ==>
      r.paths == s.paths + [s.redoStack[0]]
      && r.undoStack == s.undoStack + [s.redoStack[0]]
      && [s.redoStack[0]] + r.redoStack == s.redoStack
      && SameStyle(r, s)
    // clearing empties all three sequences and keeps the style
    ensures a.Clear? ==>
      r.paths == [] && r.undoStack == [] && r.redoStack == [] && SameStyle(r, s)
    // each setter changes its own field and nothing else
    ensures a.SetColor? ==> r == s.(currentColor := a.color) && SameContent(r, s)
    ensures a.SetStrokeWidth? ==> r == s.(currentStrokeWidth := a.width) && SameContent(r, s)
    ensures a.SetTool? ==> r == s.(currentTool := a.tool) && SameContent(r, s)
  {
    match a
    case AddPath(p) =>
      s.(paths := s.paths + [ClonePath(p)], redoStack := [])
    case UpdatePath(i, p) =>
      s.(paths := s.paths[i := ClonePath(p)])
    case FinalizePath(i, p) =>
      s.(paths := s.paths[i := ClonePath(p)],
         undoStack := s.undoStack + [ClonePath(p)],
         redoStack := [])
    case Undo =>
      if s.undoStack == [] then s
      else
        var lastPath := s.undoStack[|s.undoStack| - 1];
        s.(paths := DropLast(s.paths),
           undoStack := DropLast(s.undoStack),
           redoStack := [ClonePath(lastPath)] + s.redoStack)
    case Redo =>
      if s.redoStack == [] then s
      else
        var pathToRedo := s.redoStack[0];
        s.(paths := s.paths + [ClonePath(pathToRedo)],
           redoStack := s.redoStack[1..],
           undoStack := s.undoStack + [ClonePath(pathToRedo)])
    case Clear =>
      s.(paths := [], undoStack := [], redoStack := [])
    case SetColor(c) =>
      s.(currentColor := c)
    case SetStrokeWidth(w) =>
      s.(currentStrokeWidth := w)
    case SetTool(t) =>
      s.(currentTool := t)
  }

  // ---------------------------------------------------------------------------
  // Undo and redo

  /** Undo then redo restores both stacks exactly; the paths get back their
      length, with the undone entry in the last place. */
  lemma UndoThenRedo(s: DrawingState)
    requires s.undoStack != [] && s.paths != []
    ensures Reduce(Reduce(s, Undo), Redo) ==
      s.(paths := s.paths[..|s.paths| - 1] + [s.undoStack[|s.undoStack| - 1]])
  {
    var u := Reduce(s, Undo);
    assert u.redoStack != [];
    assert u.redoStack[1..] == s.redoStack;
  }

  /** When the last path is the newest undo entry (as it is right after a redo
      or a finalize of the last entry), undo then redo is the identity. */
  lemma UndoThenRedoRestores(s: DrawingState)
    requires s.undoStack != [] && s.paths != []
    requires s.paths[|s.paths| - 1] == s.undoStack[|s.undoStack| - 1]
    ensures Reduce(Reduce(s, Undo), Redo) == s
  {
    UndoThenRedo(s);
  }

  /** Redo then undo is always the identity. */
  lemma RedoThenUndo(s: DrawingState)
    requires s.redoStack != []
    ensures Reduce(Reduce(s, Redo), Undo) == s
  {
    var r := Reduce(s, Redo);
    var u := Reduce(r, Undo);
    assert u.paths == s.paths;
    assert u.undoStack == s.undoStack;
    assert u.redoStack == [s.redoStack[0]] + s.redoStack[1..];
  }

  /** Undo and redo only move entries between the two stacks. */
  lemma UndoRedoKeepHistorySize(s: DrawingState, a: Action)
    requires a.Undo? || a.Redo?
    ensures |Reduce(s, a).undoStack| + |Reduce(s, a).redoStack| == |s.undoStack| + |s.redoStack|
  {
    var r := Reduce(s, a);
    if a.Undo? && s.undoStack != [] {
      assert |r.undoStack| + 1 == |s.undoStack|;
    } else if a.Redo? && s.redoStack != [] {
      assert 1 + |r.redoStack| == |s.redoStack|;
    }
  }

  /** After a clear there is nothing to undo or redo, and clearing twice is
      clearing once. */
  lemma ClearDiscardsHistory(s: DrawingState)
    ensures Reduce(Reduce(s, Clear), Undo) == Reduce(s, Clear)
    ensures Reduce(Reduce(s, Clear), Redo) == Reduce(s, Clear)
    ensures Reduce(Reduce(s, Clear), Clear) == Reduce(s, Clear)
  {
  }

  /** Adding a path after an undo discards what could have been redone. */
  lemma AddAfterUndoDiscardsRedo(s: DrawingState, p: PathData)
    ensures Reduce(Reduce(Reduce(s, Undo), AddPath(p)), Redo) == Reduce(Reduce(s, Undo), AddPath(p))
  {
  }

  // ---------------------------------------------------------------------------
  // Style settings never touch stored entries

  /** An action on the content or history. */
  predicate HistoryAction(a: Action)
  {
    a.AddPath? || a.Undo? || a.Redo? || a.Clear?
  }

  /** A style change commutes with every content or history action: the
      stored entries and stacks come out the same whichever runs first. */
  lemma StyleCommutesWithHistory(s: DrawingState, setter: Action, h: Action)
    requires setter.SetColor? || setter.SetStrokeWidth? || setter.SetTool?
    requires HistoryAction(h)
    ensures Reduce(Reduce(s, setter), h) == Reduce(Reduce(s, h), setter)
  {
  }

  // ---------------------------------------------------------------------------
  // What the application can reach

  /** The actions the application dispatches: the canvas only adds paths and
      the toolbar only undoes, redoes, clears and sets the style. Nothing
      dispatches UPDATE_PATH or FINALIZE_PATH. */
  predicate AppAction(a: Action)
  {
    !a.UpdatePath? && !a.FinalizePath?
  }

  /** Every action of `acts`, applied in order from `s`, is one the reducer
      accepts at the point where it is applied. */
  predicate Replayable(s: DrawingState, acts: seq<Action>)
    decreases |acts|
  {
    acts == [] || (Applicable(s, acts[0]) && Replayable(Reduce(s, acts[0]), acts[1..]))
  }

  /** Runs the reducer over a sequence of actions. */
  function ReduceAll(s: DrawingState, acts: seq<Action>): (r: DrawingState)
    requires Replayable(s, acts)
    decreases |acts|
  {
    if acts == [] then s
    else ReduceAll(Reduce(s, acts[0]), acts[1..])
  }

  /** Replaying one more action is reducing it in the replayed state. */
  lemma {:induction false} ReduceAllSnoc(s: DrawingState, acts: seq<Action>, a: Action)
    requires Replayable(s, acts) && Applicable(ReduceAll(s, acts), a)
    ensures Replayable(s, acts + [a])
    ensures ReduceAll(s, acts + [a]) == Reduce(ReduceAll(s, acts), a)
    decreases |acts|
  {
    if acts == [] {
      assert [a][1..] == [];
    } else {
      assert (acts + [a])[1..] == acts[1..] + [a];
      ReduceAllSnoc(Reduce(s, acts[0]), acts[1..], a);
    }
  }

  /** Starting from empty history, no sequence of application actions ever
      puts anything on either stack, so undo and redo do nothing. */
  lemma {:induction false} AppHistoryStaysEmpty(s: DrawingState, acts: seq<Action>)
    requires s.undoStack == [] && s.redoStack == []
    requires forall i :: 0 <= i < |acts| ==> AppAction(acts[i])
    ensures Replayable(s, acts)
    ensures ReduceAll(s, acts).undoStack == [] && ReduceAll(s, acts).redoStack == []
    ensures Reduce(ReduceAll(s, acts), Undo) == ReduceAll(s, acts)
    ensures Reduce(ReduceAll(s, acts), Redo) == ReduceAll(s, acts)
    decreases |acts|
  {
    if acts != [] {
      assert AppAction(acts[0]);
      AppHistoryStaysEmpty(Reduce(s, acts[0]), acts[1..]);
    }
  }

  /** The shared store that holds the state and runs every dispatched action
      through the reducer. `dispatched` records the actions in order, and the
      state is always the initial state with all of them replayed. */
  class Store {
    var state: DrawingState
    ghost var dispatched: seq<Action>

    ghost predicate Valid()
      reads this
    {
      Replayable(InitialState(), dispatched) && state == ReduceAll(InitialState(), dispatched)
    }

    constructor ()
      ensures Valid()
      ensures state == InitialState() && dispatched == []
    {
      state := InitialState();
      dispatched := [];
    }

    method Dispatch(a: Action)
      requires Valid()
      requires Applicable(state, a)
      modifies this
      ensures Valid()
      ensures state == Reduce(old(state), a)
      ensures dispatched == old(dispatched) + [a]
    {
      ReduceAllSnoc(InitialState(), dispatched, a);
      state := Reduce(state, a);
      dispatched := dispatched + [a];
    }
  }

  /** In a store that has only ever been sent application actions, both
      stacks are empty, so the undo and redo buttons change nothing. */
  lemma AppStoreHasNoHistory(st: Store)
    requires st.Valid()
    requires forall i :: 0 <= i < |st.dispatched| ==> AppAction(st.dispatched[i])
    ensures st.state.undoStack == [] && st.state.redoStack == []
    ensures Reduce(st.state, Undo) == st.state && Reduce(st.state, Redo) == st.state
  {
    AppHistoryStaysEmpty(InitialState(), st.dispatched);
  }
}
