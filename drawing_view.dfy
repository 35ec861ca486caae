/** The DrawingView object: its fields, its touch, undo and background handlers, which update
    those fields step by step, and the draw lists of a displayed frame (onDraw) and of an
    exported image (getImage). Each handler is proved to move the object from state `s` to the
    state the matching function of `Surface` gives for `s`. */
module DrawingViews {
  import opened PaintTypes
  import opened Coords
  import Surface

  /** How one committed shape is drawn: the paint takes the shape's colour and width. */
  function PathOp(shape: Shape): DrawOp {
    DrawPath(shape.color, shape.width, shape.path)
  }

  class DrawingView {
    var tool: Tool
    var color: Int32
    var strokeWidth: real
    var shapes: seq<Shape>
    var path: seq<PathCmd>
    var background: Option<Bitmap>
    var scaleFactor: PosReal
    var originX: real
    var originY: real
    var currentX: real
    var currentY: real
    var startX: real
    var startY: real

    /** The object's fields as a value. */
    function State(): Surface.ViewState
      reads this
    {
      Surface.ViewState(tool, color, strokeWidth, shapes, path, currentX, currentY,
                        startX, startY, scaleFactor, originX, originY, background)
    }

    constructor ()
      ensures State() == Surface.Initial
    {
      tool := PATH;
      color := RED;
      strokeWidth := 5.0;
      shapes := [];
      path := [];
      background := None;
      scaleFactor := 1.0;
      originX, originY := 0.0, 0.0;
      currentX, currentY := 0.0, 0.0;
      startX, startY := 0.0, 0.0;
    }

    /** toGlobalCoords: the drawing-space coordinate that the view transform maps onto the
        view coordinate `coord` on the given axis. */
    function ToGlobalCoords(coord: real, axis: Axis): (r: real)
      reads this
      ensures r * scaleFactor + (if axis == X then originX else originY) == coord
    {
      match axis
      case X => ToGlobal(coord, originX, scaleFactor)
      case Y => ToGlobal(coord, originY, scaleFactor)
    }

    method TouchStart(x: real, y: real)
      modifies this
      ensures State() == Surface.TouchStart(old(State()), x, y)
      ensures path == [MoveTo(startX, startY)] && currentX == startX && currentY == startY
    {
      path := [];
      currentX := ToGlobalCoords(x, X);
      currentY := ToGlobalCoords(y, Y);
      startX := ToGlobalCoords(x, X);
      startY := ToGlobalCoords(y, Y);
      path := path + [MoveTo(startX, startY)];
    }

    method TouchMove(x: real, y: real)
      modifies this
      ensures State() == Surface.TouchMove(old(State()), x, y)
      ensures currentX == ToGlobalCoords(x, X) && currentY == ToGlobalCoords(y, Y)
      ensures startX == old(startX) && startY == old(startY) && shapes == old(shapes)
    {
      var left := Min(startX, ToGlobalCoords(x, X));
      var right := Max(startX, ToGlobalCoords(x, X));
      var top := Min(startY, ToGlobalCoords(y, Y));
      var bottom := Max(startY, ToGlobalCoords(y, Y));
      match tool {
        case PATH =>
          var dx := RealAbs(ToGlobalCoords(x, X) - currentX);
          var dy := RealAbs(ToGlobalCoords(y, Y) - currentY);
          if (dx >= TOUCH_TOLERANCE_MIN || dy >= TOUCH_TOLERANCE_MIN) &&
             (dx <= TOUCH_TOLERANCE_MAX && dy <= TOUCH_TOLERANCE_MAX)
          {
            path := path + [QuadTo(currentX, currentY,
                                   (ToGlobalCoords(x, X) + currentX) / 2.0,
                                   (ToGlobalCoords(y, Y) + currentY) / 2.0)];
          }
        case RECT =>
          path := [];
          path := path + [Rect(left, top, right, bottom)];
        case CIRCLE =>
          path := [];
          path := path + [Oval(left, top, right, bottom)];
      }
      currentX := ToGlobalCoords(x, X);
      currentY := ToGlobalCoords(y, Y);
    }

    method TouchUp()
      modifies this
      ensures State() == Surface.TouchUp(old(State()))
      ensures shapes == old(shapes) + [Shape(color, strokeWidth, path)] && path == old(path)
    {
      shapes := shapes + [Shape(color, strokeWidth, path)];
    }

    /** onTouchEvent: always reports the event as handled. */
    method OnTouchEvent(event: MotionEvent) returns (handled: bool)
      modifies this
      ensures handled
      ensures State() == Surface.OnTouchEvent(old(State()), event)
      ensures event.pointerCount != 1 ==> State() == old(State())
    {
      if event.pointerCount == 1 {
        if event.action == ACTION_DOWN {
          TouchStart(event.x, event.y);
        } else if event.action == ACTION_MOVE {
          TouchMove(event.x, event.y);
        } else if event.action == ACTION_UP {
          TouchUp();
        }
      }
      handled := true;
    }

    method DrawImage(bitmap: Bitmap)
      modifies this
      ensures State() == Surface.DrawImage(old(State()), bitmap)
      ensures shapes == [] && background == Some(bitmap) && path == old(path)
    {
      shapes := [];
      background := Some(bitmap);
    }

    method Undo()
      modifies this
      ensures State() == Surface.Undo(old(State()))
      ensures old(shapes) == [] ==> State() == old(State())
      ensures old(shapes) != [] ==> shapes == old(shapes)[..|old(shapes)| - 1] && path == []
    {
      if shapes != [] {
        shapes := shapes[..|shapes| - 1];
        path := [];
      }
    }

    /** The background step of a frame: the bitmap drawn into its aspect-fit rectangle. */
    function BackgroundOps(viewWidth: int, viewHeight: int): (ops: seq<DrawOp>)
      reads this
      requires background.Some? ==> viewWidth > 0 && viewHeight > 0
      ensures background.None? ==> ops == []
      ensures background.Some? ==>
                |ops| == 1 && ops[0].DrawBitmap? && ops[0].bitmap == background.value &&
                ops[0].dst == AspectFitRect(viewWidth, viewHeight, background.value)
    {
      match background
      case None => []
      case Some(b) => [DrawBitmap(b, AspectFitRect(viewWidth, viewHeight, b))]
    }

    /** onDraw: the view transform, the background, every committed shape oldest first with its
        own colour and width, and last the live path with the current colour and width. */
    method OnDraw(viewWidth: int, viewHeight: int) returns (ops: seq<DrawOp>)
      requires background.Some? ==> viewWidth > 0 && viewHeight > 0
      ensures var k := 1 + |BackgroundOps(viewWidth, viewHeight)|;
              |ops| == k + |shapes| + 1 &&
              ops[0] == Transform(originX, originY, scaleFactor) &&
              ops[1..k] == BackgroundOps(viewWidth, viewHeight) &&
              (forall j :: 0 <= j < |shapes| ==> ops[k + j] == PathOp(shapes[j])) &&
              ops[k + |shapes|] == DrawPath(color, strokeWidth, path)
    {
      var head := [Transform(originX, originY, scaleFactor)] + BackgroundOps(viewWidth, viewHeight);
      ops := head;
      var k := |head|;
      for i := 0 to |shapes|
        invariant |ops| == k + i
        invariant ops[..k] == head
        invariant forall j :: 0 <= j < i ==> ops[k + j] == PathOp(shapes[j])
      {
        ops := ops + [PathOp(shapes[i])];
      }
      ops := ops + [DrawPath(color, strokeWidth, path)];
    }

    /** getImage: a white image of the view's size with the background and every committed
        shape drawn on it, without the view transform and without the live path. */
    method GetImage(viewWidth: int, viewHeight: int) returns (image: Bitmap, ops: seq<DrawOp>)
      requires viewWidth > 0 && viewHeight > 0
      ensures image == Bitmap(viewWidth, viewHeight)
      ensures var k := 1 + |BackgroundOps(viewWidth, viewHeight)|;
              |ops| == k + |shapes| &&
              ops[0] == EraseColor(WHITE) &&
              ops[1..k] == BackgroundOps(viewWidth, viewHeight) &&
              (forall j :: 0 <= j < |shapes| ==> ops[k + j] == PathOp(shapes[j]))
    {
      image := Bitmap(viewWidth, viewHeight);
      var head := [EraseColor(WHITE)] + BackgroundOps(viewWidth, viewHeight);
      ops := head;
      var k := |head|;
      for i := 0 to |shapes|
        invariant |ops| == k + i
        invariant ops[..k] == head
        invariant forall j :: 0 <= j < i ==> ops[k + j] == PathOp(shapes[j])
      {
        ops := ops + [PathOp(shapes[i])];
      }
    }
  }
}
