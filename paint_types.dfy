/** Value types of the drawing surface in DrawingView.kt: the tools, the vector path commands,
    committed shapes, the background bitmap (only its size matters here), the rectangle the
    background is drawn into, the single-pointer touch event, and the draw operations a frame
    is made of. Kotlin `Float` coordinates are modelled as `real` (rounding ignored). */
module PaintTypes {

  datatype Option<T> = None | Some(value: T)

  /** Kotlin `Int`: colours are packed 32-bit ARGB values. */
  type Int32 = x: int | -0x8000_0000 <= x < 0x8000_0000

  /** A scale factor of the view transform; the view never lets it reach zero. */
  type PosReal = r: real | r > 0.0 witness 1.0

  datatype Tool = PATH | RECT | CIRCLE

  datatype Axis = X | Y

  /** The commands an Android `Path` receives from the drawing surface. */
  datatype PathCmd =
    | MoveTo(x: real, y: real)
    | QuadTo(cx: real, cy: real, x: real, y: real)
    | Rect(left: real, top: real, right: real, bottom: real)
    | Oval(left: real, top: real, right: real, bottom: real)

  /** A committed stroke: its colour, its stroke width and its own copy of the path. */
  datatype Shape = Shape(color: Int32, width: real, path: seq<PathCmd>)

  /** A decoded raster image; only its pixel size takes part in the logic. */
  datatype Bitmap = Bitmap(width: int, height: int)

  datatype RectF = RectF(left: real, top: real, right: real, bottom: real)

  /** One step of a rendered frame, in the order the canvas receives it. */
  datatype DrawOp =
    | Transform(dx: real, dy: real, scale: real)
    | EraseColor(color: Int32)
    | DrawBitmap(bitmap: Bitmap, dst: RectF)
    | DrawPath(color: Int32, width: real, path: seq<PathCmd>)

  /** The parts of an Android `MotionEvent` the surface reads. */
  datatype MotionEvent = MotionEvent(pointerCount: int, action: int, x: real, y: real)

  const ACTION_DOWN: int := 0
  const ACTION_UP: int := 1
  const ACTION_MOVE: int := 2

  /** `Color.RED` (0xFFFF0000) and `Color.WHITE` (0xFFFFFFFF) as signed Kotlin `Int`s. */
  const RED: Int32 := -65536
  const WHITE: Int32 := -1

  /** Freehand samples closer than MIN or farther than MAX on an axis are dropped. */
  const TOUCH_TOLERANCE_MIN: real := 1.0
  const TOUCH_TOLERANCE_MAX: real := 100.0
}
