# Drawing history and stroke builder of sketch-to-image

A model of the drawing core of the sketch-to-image app. It has two halves:

- **The drawing reducer** (`src/context/DrawingContext.tsx`). The shared state holds the
  stored entries (`paths`, in paint order), an undo stack, a redo stack, and the current
  color, stroke width and tool. The reducer is a total function over a closed set of nine
  actions. It is modelled as the pure function `Drawing.Reduce` over datatypes. Every path
  is a value (`seq<Seg>` of move-to, quad-to and line-to verbs), so a stored entry can
  never alias the live path. Skia's `copy()` therefore becomes the identity on values
  (`Drawing.ClonePath`).
- **The stroke builder** (`src/components/Canvas.tsx`). The pan handlers grow one Skia
  path in place and dispatch an `ADD_PATH` after every step. This is modelled as the class
  `Canvas.DrawingCanvas`. Its fields are `pathRef` (a `SkiaPath.LivePath`, a mutable
  verb list, or null) and `lastPoint`. The store it dispatches to is `Drawing.Store`, whose
  `Dispatch` runs `Reduce` and logs the action in a ghost list. Coordinates are exact
  `real`s, so the midpoint is exact.

Some behaviour of the code that the model keeps:

- Each grant, move and release adds a new entry to `paths`. A stroke with `n` move
  samples adds `n + 2` entries (`Canvas.DrawStroke`). When each action is reduced before
  the next touch event, each entry is a copy of the live path as it was at that event.
- Nothing dispatches `FINALIZE_PATH` or `UPDATE_PATH`. So the undo stack never grows,
  and undo and redo change nothing in any state the app can reach
  (`Drawing.AppHistoryStaysEmpty`).
- Release appends a line to the last move sample, not to where the finger lifted.
  Release takes no coordinates.
- A stroke's style is not frozen at touch-down. Each event reads the current color, width
  and tool, so a style change in the middle of a stroke applies to the later snapshots.
- `CLEAR` empties all three sequences, so it cannot be undone.
- A grant while a stroke is in progress starts a new live path. The old one is dropped,
  and its entries stay stored.

## Model

| member | source | states |
|---|---|---|
| `Drawing.InitialState` | src/context/DrawingContext.tsx:34-41 | empty paths and stacks, color `#000000`, width 5, brush |
| `Drawing.ClonePath` | src/context/DrawingContext.tsx:44-47 | the copy agrees with the original in geometry, color, width and tool |
| `Drawing.ClonePaths` | src/context/DrawingContext.tsx:50-51 | same length, and every copied entry equals the original at its index |
| `Drawing.DropLast` | src/context/DrawingContext.tsx:86 | `slice(0, -1)`: empty stays empty; otherwise the result plus the old last element is the input |
| `Drawing.Reduce` | src/context/DrawingContext.tsx:53-128 | per action: ADD_PATH appends exactly one copy and empties redo, leaving undo and style alone; UPDATE_PATH and FINALIZE_PATH overwrite only the indexed entry and keep the length, UPDATE leaves both stacks alone, FINALIZE appends the entry to undo and empties redo; UNDO on empty undo is the identity, otherwise it drops the last path (empty stays empty), pops undo and puts that entry at the front of redo; REDO on empty redo is the identity, otherwise it moves `redoStack[0]` to the end of both paths and undo; CLEAR empties all three and keeps the style; each setter changes only its own field |
| `Drawing.UndoThenRedo` | src/context/DrawingContext.tsx:82-106 | with non-empty undo and paths, undo then redo restores both stacks exactly, and paths become the old paths with the last entry replaced by the undone entry |
| `Drawing.UndoThenRedoRestores` | src/context/DrawingContext.tsx:82-106 | when the last path is the newest undo entry, undo then redo is the identity |
| `Drawing.RedoThenUndo` | src/context/DrawingContext.tsx:82-106 | with a non-empty redo stack, redo then undo is the identity |
| `Drawing.UndoRedoKeepHistorySize` | src/context/DrawingContext.tsx:82-106 | undo and redo each preserve `|undoStack| + |redoStack|` |
| `Drawing.ClearDiscardsHistory` | src/context/DrawingContext.tsx:108-114 | after a clear, undo and redo do nothing, and a second clear does nothing |
| `Drawing.AddAfterUndoDiscardsRedo` | src/context/DrawingContext.tsx:55-60 | adding a path after an undo empties redo, so a following redo does nothing |
| `Drawing.StyleCommutesWithHistory` | src/context/DrawingContext.tsx:116-123 | a color, width or tool change commutes with add, undo, redo and clear |
| `Drawing.AppHistoryStaysEmpty` | src/context/DrawingContext.tsx:53-128 | from empty history, any run of the actions the app dispatches (all except UPDATE_PATH and FINALIZE_PATH) leaves both stacks empty, so undo and redo are the identity there |
| `Drawing.ReduceAllSnoc` | src/context/DrawingContext.tsx:53-128 | replaying one more accepted action gives the reducer applied to the replayed state |
| `Drawing.AppStoreHasNoHistory` | src/context/DrawingContext.tsx:82-106 | a store that has only received the actions the app dispatches has empty undo and redo stacks, and undo and redo leave its state unchanged |
| `Drawing.Store.constructor` | src/context/DrawingContext.tsx:135-136 | the store starts in the initial state with nothing dispatched |
| `Drawing.Store.Dispatch` | src/context/DrawingContext.tsx:135-136 | the new state is the reducer applied to the old state and the action, the action is logged, and the state stays the initial state with the whole log replayed |
| `SkiaPath.LivePath.Make` | src/components/Canvas.tsx:63 | `Skia.Path.Make()` gives a path with no verbs |
| `SkiaPath.LivePath.MoveTo` | src/components/Canvas.tsx:64 | appends exactly one move-to to the path in place |
| `SkiaPath.LivePath.QuadTo` | src/components/Canvas.tsx:85-90 | appends exactly one quad-to with the given control and end points in place |
| `SkiaPath.LivePath.LineTo` | src/components/Canvas.tsx:106 | appends exactly one line-to in place |
| `Canvas.MidPoint` | src/components/Canvas.tsx:20-23 | the result is equidistant from both points in each coordinate |
| `Canvas.MidPointSymmetric` | src/components/Canvas.tsx:20-23 | the midpoint is symmetric in its arguments |
| `Canvas.MidPointOfSamePoint` | src/components/Canvas.tsx:20-23 | the midpoint of a point with itself is that point |
| `Canvas.MidPointBetween` | src/components/Canvas.tsx:20-23 | each coordinate of the midpoint lies between those of its arguments |
| `Canvas.Smoothed` | src/components/Canvas.tsx:63-64 | the geometry the handlers build after a grant and `n` moves; it has one verb more than there are samples (its verb-by-verb shape is `Canvas.SmoothedShape`) |
| `Canvas.SmoothedShape` | src/components/Canvas.tsx:61-101 | after a grant and `n` moves the live path is one move-to at the touch point, then `n` quad-tos; the `i`-th is controlled by the previous sample and ends at its midpoint with sample `i` |
| `Canvas.ReleasedStrokeEndsAtLastSample` | src/components/Canvas.tsx:103-106 | the released path ends exactly at the last recorded sample, while the un-released path ends at the last midpoint |
| `Canvas.StrokePayload` | src/components/Canvas.tsx:69-74 | the entry carries the live geometry, the current width and tool, the color `transparent` for the eraser and the current color for the brush |
| `Canvas.PaintOf` | src/components/Canvas.tsx:32-34 | eraser entries paint `transparent` with the `clear` blend; brush entries paint their own color with `srcOver`; the width is the entry's |
| `Canvas.CanvasEntriesPaintTheirOwnColor` | src/components/Canvas.tsx:32-34 | for every entry the canvas creates, the paint color is the entry's own color, and the blend is `clear` exactly when the tool is the eraser |
| `Canvas.DrawingCanvas.constructor` | src/components/Canvas.tsx:47-48 | no live path and no last point |
| `Canvas.DrawingCanvas.Grant` | src/components/Canvas.tsx:61-77 | a fresh live path that is exactly `[moveTo(touch)]`, `lastPoint` is the touch point, and exactly one ADD_PATH of that path in the current style is dispatched and reduced |
| `Canvas.DrawingCanvas.Move` | src/components/Canvas.tsx:78-102 | with a stroke in progress: one quad-to (control = old last point, end = midpoint with the new point) is appended, exactly one ADD_PATH of the grown path is dispatched, `lastPoint` becomes the new point, and the entries stored before keep their geometry although the live path changed; with no stroke in progress nothing changes and nothing is dispatched |
| `Canvas.DrawingCanvas.Release` | src/components/Canvas.tsx:103-119 | with a stroke in progress: a line-to the last recorded point is appended, exactly one ADD_PATH is dispatched, and stored entries are kept; in every case both refs become null |
| `Canvas.DrawingCanvas.Terminate` | src/components/Canvas.tsx:120-123 | both refs become null; the store's state and its dispatch log are unchanged |
| `Canvas.StrokeEntries` | src/components/Canvas.tsx:92-99 | the entries a stroke in progress has added: one more than its samples, the `k`-th being the canvas entry for the geometry after `k` samples |
| `Canvas.MoveThrough` | src/components/Canvas.tsx:78-101 | after a grant at `start`, one move per sample leaves the live path equal to `Canvas.Smoothed` of the samples, `lastPoint` at the last sample, and replaces the grant's entry with the stroke's entries after the old paths; redo stays empty, undo and style are kept |
| `Canvas.DrawStroke` | src/components/Canvas.tsx:61-123 | grant, `n` moves and release add `n + 2` entries after the old paths, the `k`-th holding the smoothed path after `k` samples and the last the released path; redo is empty, undo and the style are unchanged, and both refs end null |

## Left out

- React mechanics: the context, `useReducer`, `useMemo`, the dispatch queue and re-rendering. The store is a plain object whose `Dispatch` applies the reducer at once.
- Canvas.DrawingCanvas.Move: the entry it adds is the live path as it is at the dispatch call. In the source the payload holds the live `SkPath` itself, and the copy is made when the reducer runs. React may run it later, and if a further move has changed the path by then, both queued entries become copies of the later path. The model assumes each action is reduced before the next touch event.
- Canvas.DrawStroke: its per-sample entries hold under the same assumption that each action is reduced before the next touch event.
- The `PanResponder` event plumbing and the responder being rebuilt when the style changes. The handlers read the style from the store's current state, which is what the rebuilt closures see.
- Skia rasterisation. Rendering is modelled only as the choice of color and blend (`Canvas.PaintOf`).
- IEEE floating point in `getMidPoint`. Coordinates are exact reals.
- The reducer's `default` branch. The closed `Action` datatype cannot reach it.
- `Drawing.Reduce`: for UPDATE_PATH and FINALIZE_PATH it requires `0 <= index < |paths|`. It does not model JavaScript's assignment past the end of an array or at a negative or fractional index.
- `Drawing.AppHistoryStaysEmpty`: the set of app actions is taken from the dispatch sites in `src/components/Canvas.tsx` and `src/components/ToolBar.tsx`. The component wiring is not modelled.
- Screens, network calls, style catalog, buttons, headers, modals and theme constants: UI, with no logic of this core.
- `src/types/drawing.ts`: unused alternative types with no behaviour.
