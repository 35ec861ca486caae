# Paint drawing surface — a verified Dafny model

This project models `DrawingView`, the drawing surface of the Paint Android app. The view takes
single-pointer touch events and turns them into an ordered list of committed shapes
(colour, stroke width, vector path) plus one live, in-progress path. It supports undo and
replacing the background photo, and it renders a frame or an exported image in a fixed order.

- `paint_types.dfy` (module `PaintTypes`): tools, path commands (`MoveTo`, `QuadTo`, `Rect`,
  `Oval`), shapes, the background bitmap (only its width and height), `RectF`, touch events,
  draw operations, and the constants (`Color.RED`, `Color.WHITE`, the action codes, the touch
  tolerances 1 and 100).
- `coords.dfy` (module `Coords`): the pure computations. `toGlobalCoords` maps view
  coordinates into drawing space. `aspectFitRect` uses Kotlin `Int` arithmetic, which truncates
  toward zero; `TruncDiv` models it, because Dafny's `/` is Euclidean.
- `surface.dfy` (module `Surface`): the view's state as a value (`ViewState`), each handler as a
  function from the old state to the new one, `Replay` over a list of events, and lemmas about
  whole gestures.
- `drawing_view.dfy` (module `DrawingViews`): the class `DrawingView` with the source's fields.
  Its handlers update those fields step by step, and each one is proved to produce
  `Surface.<handler>(old(State()))`. `OnDraw` and `GetImage` loop over the shapes and return the
  ordered list of draw operations.

Behaviour that the model follows as the code does it:

- There is no idle/active guard. A MOVE or UP with no DOWN before it acts on whatever state
  exists, so an UP always commits a shape (`UpWithoutDownCommits`).
- `touchUp` does not reset the live path.
- `undo` clears the path only when there was a shape to remove.
- The last sample point is overwritten even when a freehand sample is rejected.
- A freehand MOVE on an empty path starts the path with a curve segment, not a move.
- In the shrink branch of `aspectFitRect`, the local `width`/`height` shadow the view's, so the
  centring offset is always zero. One might expect the shrunk image to be centred; the code
  places it at (0, 0).
- The multipliers are integer quotients, so the fit is approximate. A bitmap less than twice the
  view's width and less than twice its height is not shrunk at all. A shrunk bitmap can still be
  wider than the view (`AspectFitOverflowExamples`).

## Model

| member | source | states |
|---|---|---|
| `Coords.TruncDiv` | app/src/main/java/com/example/antonsapunov/paint/DrawingView.kt:167-168 | Kotlin `Int / Int`: the remainder is smaller than the divisor in magnitude and never has the opposite sign of the dividend (rounding toward zero) |
| `Coords.TruncDivOfNatural` | app/src/main/java/com/example/antonsapunov/paint/DrawingView.kt:167-168 | for a non-negative dividend and a positive divisor, truncating and Euclidean division agree |
| `Coords.ToGlobal` | app/src/main/java/com/example/antonsapunov/paint/DrawingView.kt:158-163 | the result is the drawing-space point that translate-by-origin-then-scale maps back onto the view coordinate |
| `Coords.ToGlobalIdentity` | app/src/main/java/com/example/antonsapunov/paint/DrawingView.kt:38-40 | with the initial transform (scale 1, origin 0) the coordinate mapping is the identity |
| `Coords.ShrinkDivisor` | app/src/main/java/com/example/antonsapunov/paint/DrawingView.kt:169-173 | the shrink divisor is one of the two integer multipliers, at least both of them (so the larger), and at least 2 |
| `Coords.AspectFitRect` | app/src/main/java/com/example/antonsapunov/paint/DrawingView.kt:165-189 | (with helpers `XMultiplier`, `YMultiplier`, `Shrinks` for lines 167-169) shrink branch: the rect is (0, 0, w/m, h/m) with m the larger multiplier; otherwise the offsets are the truncated halves of view size minus bitmap size, and the rect's sides equal the bitmap's |
| `Coords.AspectFitScalesUniformly` | app/src/main/java/com/example/antonsapunov/paint/DrawingView.kt:165-189 | (with helper `FitDivisor`: the shrink divisor, or 1 without a shrink, lines 169-187) both sides of the placed image are the bitmap's sides divided by one common factor of at least 1 and truncated; the image is never enlarged |
| `Coords.AspectFitCentresSmallBitmap` | app/src/main/java/com/example/antonsapunov/paint/DrawingView.kt:182-187 | a bitmap no larger than the view is not shrunk, lies inside the view, and its margins on opposite sides differ by at most one pixel |
| `Coords.AspectFitOverflowExamples` | app/src/main/java/com/example/antonsapunov/paint/DrawingView.kt:167-186 | concrete inputs where the placed image overflows the view: 299x100 in 100x100 gives (0,0,149,50); 150x100 gives (-25,0,125,100); 151x100 gives left -25 by truncation where Euclidean division gives -26 |
| `Surface.TouchStart` | app/src/main/java/com/example/antonsapunov/paint/DrawingView.kt:93-100 | the path becomes exactly one move to the transformed touch point; start and last sample are both that point; shapes, background and session fields are unchanged |
| `Surface.TouchMove` | app/src/main/java/com/example/antonsapunov/paint/DrawingView.kt:102-131 | (with helper `FreehandAccepts` for lines 112-113) freehand: exactly one quad segment (control = last sample, end = midpoint) is appended iff the sample is within the tolerances, and the old path is kept as a prefix; rect/oval: the path is exactly one box whose opposite corners are the start and the new point, with left <= right and top <= bottom; always: last sample = transformed new point, start and shapes unchanged |
| `Surface.TouchUp` | app/src/main/java/com/example/antonsapunov/paint/DrawingView.kt:133-135 | exactly one shape (current colour, current width, the live path) is appended after the unchanged earlier shapes; the path and every other field are unchanged |
| `Surface.Undo` | app/src/main/java/com/example/antonsapunov/paint/DrawingView.kt:197-203 | with shapes: only the last one is removed and the path is emptied; without shapes: nothing changes |
| `Surface.DrawImage` | app/src/main/java/com/example/antonsapunov/paint/DrawingView.kt:191-195 | shapes become empty, the background becomes the given bitmap, the path and the other fields are unchanged |
| `Surface.OnTouchEvent` | app/src/main/java/com/example/antonsapunov/paint/DrawingView.kt:137-156 | events with a pointer count other than 1, or with an action other than DOWN, MOVE or UP, change nothing; DOWN, MOVE and UP run touchStart, touchMove and touchUp |
| `Surface.MultiPointerEventsIgnored` | app/src/main/java/com/example/antonsapunov/paint/DrawingView.kt:137-156 | any sequence of events that are not single-pointer leaves the whole state unchanged |
| `Surface.ShapesChangeOnlyOnUp` | app/src/main/java/com/example/antonsapunov/paint/DrawingView.kt:137-156 | a sequence of events without a single-pointer UP leaves the shapes, background, tool, colour, width and transform unchanged |
| `Surface.CommittedShapeIsSnapshot` | app/src/main/java/com/example/antonsapunov/paint/DrawingView.kt:133-135 | after a commit, later path edits (any events without UP) do not alter the committed shape |
| `Surface.BoxGestureHoldsOneBox` | app/src/main/java/com/example/antonsapunov/paint/DrawingView.kt:120-127 | with the rectangle or oval tool the live path is, after any number of events, empty, the start move, or the single box spanned by start and last sample |
| `Surface.FreehandPathIsQuadRun` | app/src/main/java/com/example/antonsapunov/paint/DrawingView.kt:109-118 | with the freehand tool the live path stays a run of quad segments, optionally led by the move to the start point |
| `Surface.UndoAfterTouchUpRestoresShapes` | app/src/main/java/com/example/antonsapunov/paint/DrawingView.kt:197-203 | touchUp followed by undo restores the original shapes and leaves the path empty |
| `Surface.UpWithoutDownCommits` | app/src/main/java/com/example/antonsapunov/paint/DrawingView.kt:148-151 | an UP with no DOWN before it still appends a shape (here with the empty initial path) |
| `Surface.RectangleGestureThenUndo` | app/src/main/java/com/example/antonsapunov/paint/DrawingView.kt:93-135 | DOWN (10,10), MOVE (20,20) with the rectangle tool gives the path Rect(10,10,20,20); UP commits it in red with width 5; undo empties the shapes again |
| `DrawingViews.DrawingView.constructor` | app/src/main/java/com/example/antonsapunov/paint/DrawingView.kt:23-47 | the initial state: freehand tool, red, width 5, identity transform, no path, no shapes, no background |
| `DrawingViews.DrawingView.ToGlobalCoords` | app/src/main/java/com/example/antonsapunov/paint/DrawingView.kt:158-163 | the result times the scale factor plus the axis's origin is the view coordinate |
| `DrawingViews.DrawingView.TouchStart` | app/src/main/java/com/example/antonsapunov/paint/DrawingView.kt:93-100 | the new state is `Surface.TouchStart` of the old one |
| `DrawingViews.DrawingView.TouchMove` | app/src/main/java/com/example/antonsapunov/paint/DrawingView.kt:102-131 | the new state is `Surface.TouchMove` of the old one |
| `DrawingViews.DrawingView.TouchUp` | app/src/main/java/com/example/antonsapunov/paint/DrawingView.kt:133-135 | the new state is `Surface.TouchUp` of the old one: one shape appended, path kept |
| `DrawingViews.DrawingView.OnTouchEvent` | app/src/main/java/com/example/antonsapunov/paint/DrawingView.kt:137-156 | always returns true; the new state is `Surface.OnTouchEvent` of the old one, unchanged unless exactly one pointer is down |
| `DrawingViews.DrawingView.DrawImage` | app/src/main/java/com/example/antonsapunov/paint/DrawingView.kt:191-195 | the new state is `Surface.DrawImage` of the old one |
| `DrawingViews.DrawingView.Undo` | app/src/main/java/com/example/antonsapunov/paint/DrawingView.kt:197-203 | the new state is `Surface.Undo` of the old one |
| `DrawingViews.DrawingView.OnDraw` | app/src/main/java/com/example/antonsapunov/paint/DrawingView.kt:69-91 | (with helper `BackgroundOps` for lines 76-78) the frame is the view transform, then the background, then every shape in order with its own colour and width, then the live path with the current colour and width |
| `DrawingViews.DrawingView.GetImage` | app/src/main/java/com/example/antonsapunov/paint/DrawingView.kt:205-218 | (with helper `BackgroundOps` for lines 209-211) the export is a white image of the view's size, then the background, then every shape in order; no transform and no live path |

## Left out

- Rasterisation: `Canvas`, `Paint` and `Bitmap` calls, anti-aliasing, dither and stroke-style flags (DrawingView.kt:49-58). A frame is modelled as its ordered list of draw operations, not as pixels.
- `onSizeChanged` (DrawingView.kt:60-66): it allocates an off-screen bitmap that nothing else reads, and it resets the origin to (0, 0), which is already the origin's only value.
- `invalidate()`, `Log.v`, and `canvas.save`/`restore`.
- The view's width and height belong to the Android `View` base class. They are parameters of `AspectFitRect`, `OnDraw` and `GetImage`. Both must be positive: otherwise Kotlin's integer division, or `Bitmap.createBitmap` in getImage, throws.
- Floating point: Kotlin `Float` coordinates, widths and tolerances are `real`, and rounding is ignored. `aspectFitRect` converts its integer results to `Float`; the model keeps them exact.
- Android `Path` keeps an implicit current point, so a `quadTo` on an empty path starts at (0, 0). The model records only the commands the view issues.
- PaintActivity.kt, MainActivity.kt, ChooseWidth.kt and Extensions.kt are not part of this model. They hold intents, permissions, file and MediaStore I/O, pickers and logging. The tool, colour and stroke width they set are plain public fields of `DrawingView`.
