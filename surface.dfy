/** The state of the drawing surface as a value, and each of DrawingView's event handlers as a
    function from the old state to the new one. These functions specify the imperative methods
    of `DrawingViews.DrawingView`; the lemmas here state what whole gestures do. */
module Surface {
  import opened PaintTypes
  import opened Coords

  /** Every field of DrawingView that its gesture, undo and background code reads or writes. */
  datatype ViewState = ViewState(
    tool: Tool,
    color: Int32,
    strokeWidth: real,
    shapes: seq<Shape>,
    path: seq<PathCmd>,
    currentX: real, currentY: real,
    startX: real, startY: real,
    scaleFactor: PosReal,
    originX: real, originY: real,
    background: Option<Bitmap>)

  /** The field initialisers of DrawingView: freehand tool, red, width 5, identity transform,
      an empty path, no shapes and no background. */
  const Initial: ViewState :=
    ViewState(PATH, RED, 5.0, [], [], 0.0, 0.0, 0.0, 0.0, 1.0, 0.0, 0.0, None)

  /** The fields that the touch handlers, undo and drawImage leave alone. */
  predicate SameSession(s: ViewState, t: ViewState) {
    t.tool == s.tool && t.color == s.color && t.strokeWidth == s.strokeWidth &&
    t.scaleFactor == s.scaleFactor && t.originX == s.originX && t.originY == s.originY
  }

  function GlobalX(s: ViewState, x: real): real { ToGlobal(x, s.originX, s.scaleFactor) }

  function GlobalY(s: ViewState, y: real): real { ToGlobal(y, s.originY, s.scaleFactor) }

  /** A freehand sample is kept when it moved at least the minimum tolerance on some axis and
      at most the maximum tolerance on both. */
  predicate FreehandAccepts(dx: real, dy: real) {
    (dx >= TOUCH_TOLERANCE_MIN || dy >= TOUCH_TOLERANCE_MIN) &&
    dx <= TOUCH_TOLERANCE_MAX && dy <= TOUCH_TOLERANCE_MAX
  }

  /** `cmd` is the rectangle or oval of the tool whose opposite corners are (x0, y0) and
      (x1, y1), with left <= right and top <= bottom. */
  predicate SpansBox(cmd: PathCmd, tool: Tool, x0: real, y0: real, x1: real, y1: real) {
    (if tool == RECT then cmd.Rect? else tool == CIRCLE && cmd.Oval?) &&
    cmd.left <= cmd.right && cmd.top <= cmd.bottom &&
    ((cmd.left == x0 && cmd.right == x1) || (cmd.left == x1 && cmd.right == x0)) &&
    ((cmd.top == y0 && cmd.bottom == y1) || (cmd.top == y1 && cmd.bottom == y0))
  }

  /** touchStart: the path is restarted at the touched point, which becomes both the start and
      the last sample point. */
  function TouchStart(s: ViewState, x: real, y: real): (t: ViewState)
    ensures t.path == [MoveTo(t.startX, t.startY)]
    ensures t.currentX == t.startX && t.startX * s.scaleFactor + s.originX == x
    ensures t.currentY == t.startY && t.startY * s.scaleFactor + s.originY == y
    ensures t.shapes == s.shapes && t.background == s.background && SameSession(s, t)
  {
    var gx, gy := GlobalX(s, x), GlobalY(s, y);
    s.(path := [MoveTo(gx, gy)], currentX := gx, currentY := gy, startX := gx, startY := gy)
  }

  /** touchMove. Freehand: one smoothing segment is appended when the sample is accepted, its
      control point the last sample and its end point the midpoint of the last and the new
      sample; a rejected sample leaves the path alone. Rectangle and oval: the path becomes the
      single box spanned by the start point and the new point. In every case the new point
      becomes the last sample point, accepted or not. */
  function TouchMove(s: ViewState, x: real, y: real): (t: ViewState)
    ensures t.currentX * s.scaleFactor + s.originX == x
    ensures t.currentY * s.scaleFactor + s.originY == y
    ensures t.startX == s.startX && t.startY == s.startY
    ensures t.shapes == s.shapes && t.background == s.background && SameSession(s, t)
    ensures s.tool == PATH ==>
              var accepted := FreehandAccepts(RealAbs(t.currentX - s.currentX), RealAbs(t.currentY - s.currentY));
              |t.path| == |s.path| + (if accepted then 1 else 0) &&
              t.path[..|s.path|] == s.path &&
              (accepted ==> var q := t.path[|s.path|];
                 q.QuadTo? && q.cx == s.currentX && q.cy == s.currentY &&
                 2.0 * q.x == s.currentX + t.currentX && 2.0 * q.y == s.currentY + t.currentY)
    ensures s.tool != PATH ==>
              |t.path| == 1 && SpansBox(t.path[0], s.tool, s.startX, s.startY, t.currentX, t.currentY)
  {
    var nx, ny := GlobalX(s, x), GlobalY(s, y);
    var left, right := Min(s.startX, nx), Max(s.startX, nx);
    var top, bottom := Min(s.startY, ny), Max(s.startY, ny);
    var path :=
      match s.tool
      case PATH =>
        var dx, dy := RealAbs(nx - s.currentX), RealAbs(ny - s.currentY);
        if FreehandAccepts(dx, dy) then
          s.path + [QuadTo(s.currentX, s.currentY, (nx + s.currentX) / 2.0, (ny + s.currentY) / 2.0)]
        else s.path
      case RECT => [Rect(left, top, right, bottom)]
      case CIRCLE => [Oval(left, top, right, bottom)];
    s.(path := path, currentX := nx, currentY := ny)
  }

  /** touchUp: a shape with the current colour, width and a copy of the path is appended; the
      path itself stays as it is. */
  function TouchUp(s: ViewState): (t: ViewState)
    ensures |t.shapes| == |s.shapes| + 1 && t.shapes[..|s.shapes|] == s.shapes
    ensures t.shapes[|s.shapes|] == Shape(s.color, s.strokeWidth, s.path)
    ensures t.path == s.path && t.background == s.background && SameSession(s, t)
    ensures t.startX == s.startX && t.startY == s.startY
    ensures t.currentX == s.currentX && t.currentY == s.currentY
  {
    s.(shapes := s.shapes + [Shape(s.color, s.strokeWidth, s.path)])
  }

  /** undo: with shapes, the last one is removed and the path is cleared; without, nothing
      changes (the path included). */
  function Undo(s: ViewState): (t: ViewState)
    ensures |s.shapes| == 0 ==> t == s
    ensures |s.shapes| > 0 ==>
              t.shapes + [s.shapes[|s.shapes| - 1]] == s.shapes && t.path == [] &&
              t.background == s.background && SameSession(s, t) &&
              t.startX == s.startX && t.startY == s.startY &&
              t.currentX == s.currentX && t.currentY == s.currentY
  {
    if |s.shapes| > 0 then s.(shapes := s.shapes[..|s.shapes| - 1], path := []) else s
  }

  /** drawImage: the bitmap becomes the background and every shape is dropped; the path is
      left as it is. */
  function DrawImage(s: ViewState, bitmap: Bitmap): (t: ViewState)
    ensures t.shapes == [] && t.background == Some(bitmap)
    ensures t.path == s.path && SameSession(s, t)
    ensures t.startX == s.startX && t.startY == s.startY
    ensures t.currentX == s.currentX && t.currentY == s.currentY
  {
    s.(shapes := [], background := Some(bitmap))
  }

  /** onTouchEvent: only single-pointer DOWN, MOVE and UP events change anything. */
  function OnTouchEvent(s: ViewState, e: MotionEvent): (t: ViewState)
    ensures e.pointerCount != 1 ==> t == s
    ensures e.action !in {ACTION_DOWN, ACTION_MOVE, ACTION_UP} ==> t == s
    ensures e.pointerCount == 1 && e.action == ACTION_DOWN ==> t == TouchStart(s, e.x, e.y)
    ensures e.pointerCount == 1 && e.action == ACTION_MOVE ==> t == TouchMove(s, e.x, e.y)
    ensures e.pointerCount == 1 && e.action == ACTION_UP ==> t == TouchUp(s)
  {
    if e.pointerCount == 1 then
      if e.action == ACTION_DOWN then TouchStart(s, e.x, e.y)
      else if e.action == ACTION_MOVE then TouchMove(s, e.x, e.y)
      else if e.action == ACTION_UP then TouchUp(s)
      else s
    else s
  }

  /** The state after the view has received `events` in order. */
  function Replay(s: ViewState, events: seq<MotionEvent>): ViewState
    decreases |events|
  {
    if events == [] then s else Replay(OnTouchEvent(s, events[0]), events[1..])
  }

  predicate IsUp(e: MotionEvent) { e.pointerCount == 1 && e.action == ACTION_UP }
  /** Events with more than one pointer (or none) change nothing, however many arrive. */
  lemma {:induction false} MultiPointerEventsIgnored(s: ViewState, events: seq<MotionEvent>)
    requires forall i :: 0 <= i < |events| ==> events[i].pointerCount != 1
    ensures Replay(s, events) == s
    decreases |events|
  {
    if events != [] {
      MultiPointerEventsIgnored(s, events[1..]);
    }
  }

  /** Only an UP event touches the committed shapes; no event touches the background or the
      tool, colour, width and transform. */
  lemma {:induction false} ShapesChangeOnlyOnUp(s: ViewState, events: seq<MotionEvent>)
    requires forall i :: 0 <= i < |events| ==> !IsUp(events[i])
    ensures Replay(s, events).shapes == s.shapes
    ensures Replay(s, events).background == s.background && SameSession(s, Replay(s, events))
    decreases |events|
  {
    if events != [] {
      var t := OnTouchEvent(s, events[0]);
      assert t.shapes == s.shapes && t.background == s.background && SameSession(s, t);
      ShapesChangeOnlyOnUp(t, events[1..]);
    }
  }

  /** A committed shape keeps the path it had at commit time, whatever the following gesture
      does to the live path. */
  lemma CommittedShapeIsSnapshot(s: ViewState, events: seq<MotionEvent>)
    requires forall i :: 0 <= i < |events| ==> !IsUp(events[i])
    ensures Replay(TouchUp(s), events).shapes == s.shapes + [Shape(s.color, s.strokeWidth, s.path)]
  {
    ShapesChangeOnlyOnUp(TouchUp(s), events);
    assert TouchUp(s).shapes == s.shapes + [Shape(s.color, s.strokeWidth, s.path)];
  }

  /** The shape of the live path under the rectangle and oval tools: empty, just the start
      point, or the one box spanned by the start point and the last sample point. */
  predicate BoxInvariant(s: ViewState) {
    s.path == [] || s.path == [MoveTo(s.startX, s.startY)] ||
    (|s.path| == 1 && SpansBox(s.path[0], s.tool, s.startX, s.startY, s.currentX, s.currentY))
  }

  /** With the rectangle or oval tool the live path never holds more than one command, however
      many moves a gesture has: each move replaces the box instead of adding to it. */
  lemma {:induction false} BoxGestureHoldsOneBox(s: ViewState, events: seq<MotionEvent>)
    requires s.tool != PATH && BoxInvariant(s)
    ensures BoxInvariant(Replay(s, events)) && |Replay(s, events).path| <= 1
    decreases |events|
  {
    if events != [] {
      var t := OnTouchEvent(s, events[0]);
      assert t.tool == s.tool;
      assert BoxInvariant(t);
      BoxGestureHoldsOneBox(t, events[1..]);
    } else {
      assert |s.path| <= 1;
    }
  }

  /** The shape of the live path under the freehand tool: quadratic segments only, except
      that the first command may be the move to the start point. (A MOVE that arrives while the
      path is empty, after an undo, say, starts it with a segment.) */
  predicate FreehandInvariant(s: ViewState) {
    forall i :: 0 <= i < |s.path| ==>
      s.path[i].QuadTo? || (i == 0 && s.path[i] == MoveTo(s.startX, s.startY))
  }

  lemma {:induction false} FreehandPathIsQuadRun(s: ViewState, events: seq<MotionEvent>)
    requires s.tool == PATH && FreehandInvariant(s)
    ensures FreehandInvariant(Replay(s, events))
    decreases |events|
  {
    if events != [] {
      var t := OnTouchEvent(s, events[0]);
      assert t.tool == PATH;
      if events[0].pointerCount == 1 && events[0].action == ACTION_MOVE {
        assert t.path[..|s.path|] == s.path && t.startX == s.startX && t.startY == s.startY;
        forall i | 0 <= i < |t.path|
          ensures t.path[i].QuadTo? || (i == 0 && t.path[i] == MoveTo(t.startX, t.startY))
        {
          if i < |s.path| {
            assert t.path[i] == t.path[..|s.path|][i] == s.path[i];
          }
        }
      }
      assert FreehandInvariant(t);
      FreehandPathIsQuadRun(t, events[1..]);
    }
  }

  /** Undo right after a commit gives back the shapes from before the commit, and clears the
      live path. */
  lemma UndoAfterTouchUpRestoresShapes(s: ViewState)
    ensures Undo(TouchUp(s)).shapes == s.shapes && Undo(TouchUp(s)).path == []
  {
    var t := TouchUp(s);
    assert t.shapes[..|t.shapes| - 1] == s.shapes;
  }

  /** There is no idle state: an UP with no DOWN before it still commits the current path,
      here the empty path the view starts with. */
  lemma UpWithoutDownCommits()
    ensures OnTouchEvent(Initial, MotionEvent(1, ACTION_UP, 3.0, 4.0)).shapes == [Shape(RED, 5.0, [])]
  {
  }

  /** A rectangle dragged from (10, 10) to (20, 20) is committed with the current colour and
      width, and undo removes it again. */
  lemma RectangleGestureThenUndo()
    ensures var s0 := Initial.(tool := RECT);
            var s1 := Replay(s0, [MotionEvent(1, ACTION_DOWN, 10.0, 10.0), MotionEvent(1, ACTION_MOVE, 20.0, 20.0)]);
            var s2 := OnTouchEvent(s1, MotionEvent(1, ACTION_UP, 20.0, 20.0));
            s1.path == [Rect(10.0, 10.0, 20.0, 20.0)] &&
            s2.shapes == [Shape(RED, 5.0, [Rect(10.0, 10.0, 20.0, 20.0)])] &&
            Undo(s2).shapes == [] && Undo(s2).path == []
  {
    var s0 := Initial.(tool := RECT);
    ToGlobalIdentity(10.0);
    ToGlobalIdentity(20.0);
    var a := TouchStart(s0, 10.0, 10.0);
    assert a.startX == 10.0 && a.startY == 10.0;
    var b := TouchMove(a, 20.0, 20.0);
    assert b.path == [Rect(10.0, 10.0, 20.0, 20.0)];
    var events := [MotionEvent(1, ACTION_DOWN, 10.0, 10.0), MotionEvent(1, ACTION_MOVE, 20.0, 20.0)];
    assert Replay(s0, events) == Replay(a, events[1..]) == Replay(b, []) == b;
  }
}
