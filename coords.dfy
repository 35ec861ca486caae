/** The pure computations of DrawingView.kt: mapping view coordinates into the drawing's own
    coordinate space (toGlobalCoords) and placing the background bitmap in the view
    (aspectFitRect), which works in Kotlin `Int` arithmetic. */
module Coords {
  import opened PaintTypes

  function IntAbs(x: int): nat { if x < 0 then -x else x }

  function RealAbs(x: real): real { if x < 0.0 then -x else x }

  function Min(a: real, b: real): real { if a <= b then a else b }

  function Max(a: real, b: real): real { if a >= b then a else b }

  /** Kotlin's `Int / Int`, which rounds toward zero (Dafny's `/` is Euclidean). The
      remainder is smaller than the divisor and never has the opposite sign of the dividend. */
  function TruncDiv(a: int, b: int): (q: int)
    requires b != 0
    ensures IntAbs(a - q * b) < IntAbs(b)
    ensures a - q * b == 0 || (a - q * b < 0 <==> a < 0)
  {
    var q0 := IntAbs(a) / IntAbs(b);
    var q := if (a < 0) == (b < 0) then q0 else -q0;
    TruncRemainder(a, b, q0, q);
    q
  }

  /** The remainder of dividing magnitudes carries over to the signed quotient. */
  lemma TruncRemainder(a: int, b: int, q0: int, q: int)
    requires b != 0 && q0 == IntAbs(a) / IntAbs(b)
    requires q == if (a < 0) == (b < 0) then q0 else -q0
    ensures IntAbs(a - q * b) < IntAbs(b)
    ensures a - q * b == 0 || (a - q * b < 0 <==> a < 0)
  {
    var n, d := IntAbs(a), IntAbs(b);
    var p := q0 * d;
    assert n == p + n % d && 0 <= n % d < d;
    MulSigns(q0, d);
    assert q * b == (if a < 0 then -p else p);
  }

  lemma MulSigns(x: int, y: int)
    ensures x * -y == -(x * y) && -x * y == -(x * y) && -x * -y == x * y
  {
  }

  /** On a non-negative dividend and a positive divisor both divisions agree. */
  lemma TruncDivOfNatural(a: int, b: int)
    requires a >= 0 && b > 0
    ensures TruncDiv(a, b) == a / b
  {
    assert IntAbs(a) == a && IntAbs(b) == b;
  }

  /** toGlobalCoords for one axis: `coord / scale - origin / scale`. The result is the
      drawing-space point that the view transform (translate by origin, then scale) puts at
      `coord`. */
  function ToGlobal(coord: real, origin: real, scale: PosReal): (r: real)
    ensures r * scale + origin == coord
  {
    var r := coord / scale - origin / scale;
    assert r * scale == (coord / scale) * scale - (origin / scale) * scale;
    r
  }

  /** With the transform the view starts with (origin 0, scale 1) the mapping is the identity. */
  lemma {:induction false} ToGlobalIdentity(coord: real)
    ensures ToGlobal(coord, 0.0, 1.0) == coord
  {
    var r := ToGlobal(coord, 0.0, 1.0);
    assert r * 1.0 + 0.0 == coord;
  }

  /** The per-axis multipliers of aspectFitRect, `bitmap.width / width` and
      `bitmap.height / height`. */
  function XMultiplier(viewWidth: int, bitmap: Bitmap): int
    requires viewWidth > 0
  {
    TruncDiv(bitmap.width, viewWidth)
  }

  function YMultiplier(viewHeight: int, bitmap: Bitmap): int
    requires viewHeight > 0
  {
    TruncDiv(bitmap.height, viewHeight)
  }

  /** aspectFitRect takes its shrink branch when either multiplier exceeds 1. */
  predicate Shrinks(viewWidth: int, viewHeight: int, bitmap: Bitmap)
    requires viewWidth > 0 && viewHeight > 0
  {
    XMultiplier(viewWidth, bitmap) > 1 || YMultiplier(viewHeight, bitmap) > 1
  }

  /** The common divisor of the shrink branch: the larger multiplier. */
  function ShrinkDivisor(viewWidth: int, viewHeight: int, bitmap: Bitmap): (m: int)
    requires viewWidth > 0 && viewHeight > 0
    requires Shrinks(viewWidth, viewHeight, bitmap)
    ensures m >= 2 && m >= XMultiplier(viewWidth, bitmap) && m >= YMultiplier(viewHeight, bitmap)
    ensures m == XMultiplier(viewWidth, bitmap) || m == YMultiplier(viewHeight, bitmap)
  {
    var xm, ym := XMultiplier(viewWidth, bitmap), YMultiplier(viewHeight, bitmap);
    if xm > ym then xm else ym
  }

  /** The rectangle of the view the background bitmap is drawn into. Shrinking divides both
      sides by the same integer and puts the image at the top-left corner (the local `width`
      and `height` shadow the view's, so the centring offset is `(width - width) / 2 == 0`);
      otherwise the image keeps its size and is centred, with Kotlin's truncating division. */
  function AspectFitRect(viewWidth: int, viewHeight: int, bitmap: Bitmap): (r: RectF)
    requires viewWidth > 0 && viewHeight > 0
    ensures Shrinks(viewWidth, viewHeight, bitmap) ==>
              var m := ShrinkDivisor(viewWidth, viewHeight, bitmap);
              r.left == 0.0 && r.top == 0.0 &&
              r.right == TruncDiv(bitmap.width, m) as real &&
              r.bottom == TruncDiv(bitmap.height, m) as real
    ensures !Shrinks(viewWidth, viewHeight, bitmap) ==>
              r.left == TruncDiv(viewWidth - bitmap.width, 2) as real &&
              r.top == TruncDiv(viewHeight - bitmap.height, 2) as real &&
              r.right - r.left == bitmap.width as real &&
              r.bottom - r.top == bitmap.height as real
  {
    var xMultiplier := TruncDiv(bitmap.width, viewWidth);
    var yMultiplier := TruncDiv(bitmap.height, viewHeight);
    if xMultiplier > 1 || yMultiplier > 1 then
      var multiplier := if xMultiplier > yMultiplier then xMultiplier else yMultiplier;
      var height := TruncDiv(bitmap.height, multiplier);
      var width := TruncDiv(bitmap.width, multiplier);
      var left := TruncDiv(width - width, 2);
      var top := TruncDiv(height - height, 2);
      RectF(left as real, top as real, (left + width) as real, (top + height) as real)
    else
      var left := TruncDiv(viewWidth - bitmap.width, 2);
      var top := TruncDiv(viewHeight - bitmap.height, 2);
      RectF(left as real, top as real, (left + bitmap.width) as real, (top + bitmap.height) as real)
  }
  /** The factor aspectFitRect divides the bitmap by: the larger multiplier, or 1 when it
      does not shrink. */
  function FitDivisor(viewWidth: int, viewHeight: int, bitmap: Bitmap): (m: int)
    requires viewWidth > 0 && viewHeight > 0
    ensures m >= 1
    ensures !Shrinks(viewWidth, viewHeight, bitmap) ==> m == 1
    ensures Shrinks(viewWidth, viewHeight, bitmap) ==> m == ShrinkDivisor(viewWidth, viewHeight, bitmap)
  {
    if Shrinks(viewWidth, viewHeight, bitmap) then ShrinkDivisor(viewWidth, viewHeight, bitmap) else 1
  }

  /** Dividing a non-negative side by a factor of at least 1 never enlarges it, and the
      truncated quotient times the factor falls short of the side by less than the factor. */
  lemma DividedSide(n: int, m: int)
    requires n >= 0 && m >= 1
    ensures var w := TruncDiv(n, m); 0 <= w <= n && 0 <= m * w <= n < m * w + m
  {
    var w := TruncDiv(n, m);
    TruncDivOfNatural(n, m);
    assert n == w * m + n % m && 0 <= n % m < m;
    assert w >= 0 by {
      if w < 0 { NegativeProduct(w, m); }
    }
    assert m * w == (m - 1) * w + w;
    NonNegativeProduct(m - 1, w);
  }

  lemma NegativeProduct(x: int, y: int)
    requires x < 0 && y > 0
    ensures x * y <= -y
    decreases -x
  {
    assert x * y == (x + 1) * y - y;
    if x < -1 { NegativeProduct(x + 1, y); }
  }

  lemma NonNegativeProduct(x: int, y: int)
    requires x >= 0 && y >= 0
    ensures x * y >= 0
  {
  }

  /** Both sides of the placed bitmap are its sides divided by one common factor of at least 1
      and truncated: the aspect ratio is kept up to truncation and the image is never enlarged. */
  lemma AspectFitScalesUniformly(viewWidth: int, viewHeight: int, bitmap: Bitmap)
    requires viewWidth > 0 && viewHeight > 0
    requires bitmap.width >= 0 && bitmap.height >= 0
    ensures var r := AspectFitRect(viewWidth, viewHeight, bitmap);
            var m := FitDivisor(viewWidth, viewHeight, bitmap);
            var w, h := TruncDiv(bitmap.width, m), TruncDiv(bitmap.height, m);
            r.right - r.left == w as real && r.bottom - r.top == h as real &&
            0 <= w <= bitmap.width && 0 <= h <= bitmap.height &&
            m * w <= bitmap.width < m * w + m &&
            m * h <= bitmap.height < m * h + m
  {
    var m := FitDivisor(viewWidth, viewHeight, bitmap);
    DividedSide(bitmap.width, m);
    DividedSide(bitmap.height, m);
    if !Shrinks(viewWidth, viewHeight, bitmap) {
      assert TruncDiv(bitmap.width, 1) == bitmap.width && TruncDiv(bitmap.height, 1) == bitmap.height;
    }
  }

  /** One axis of a bitmap side that fits the view side: the multiplier is at most 1 and the
      truncated half-margin puts the side inside the view with margins differing by 0 or 1. */
  lemma CentredSide(view: int, side: int)
    requires view > 0 && 0 <= side <= view
    ensures TruncDiv(side, view) <= 1
    ensures var left := TruncDiv(view - side, 2);
            0 <= left && left + side <= view && 0 <= (view - (left + side)) - left <= 1
  {
    var q := TruncDiv(side, view);
    assert 0 <= side - q * view < view;
    QuotientAtMostOne(q, view, side);
    TruncDivOfNatural(view - side, 2);
  }

  lemma QuotientAtMostOne(q: int, v: int, n: int)
    requires v > 0 && q * v <= n <= v
    ensures q <= 1
  {
    if q >= 2 {
      NonNegativeProduct(q - 2, v);
      assert q * v == (q - 2) * v + 2 * v;
    }
  }

  /** A bitmap no larger than the view is drawn at its own size, inside the view, centred: the
      margins on either side differ by at most one pixel (the right or bottom one is larger). */
  lemma AspectFitCentresSmallBitmap(viewWidth: int, viewHeight: int, bitmap: Bitmap)
    requires viewWidth > 0 && viewHeight > 0
    requires 0 <= bitmap.width <= viewWidth && 0 <= bitmap.height <= viewHeight
    ensures var r := AspectFitRect(viewWidth, viewHeight, bitmap);
            !Shrinks(viewWidth, viewHeight, bitmap) &&
            0.0 <= r.left && r.right <= viewWidth as real &&
            0.0 <= r.top && r.bottom <= viewHeight as real &&
            0.0 <= (viewWidth as real - r.right) - r.left <= 1.0 &&
            0.0 <= (viewHeight as real - r.bottom) - r.top <= 1.0
  {
    CentredSide(viewWidth, bitmap.width);
    CentredSide(viewHeight, bitmap.height);
  }

  /** Integer multipliers make the fit approximate: a bitmap almost three times as wide as the
      view is only halved and still overflows it, and one one-and-a-half times as wide is not
      shrunk at all and overflows on both sides. With an odd margin the centring offset rounds
      toward zero (-51 / 2 == -25), where Euclidean division would give -26. */
  lemma AspectFitOverflowExamples()
    ensures AspectFitRect(100, 100, Bitmap(299, 100)) == RectF(0.0, 0.0, 149.0, 50.0)
    ensures AspectFitRect(100, 100, Bitmap(150, 100)) == RectF(-25.0, 0.0, 125.0, 100.0)
    ensures AspectFitRect(100, 100, Bitmap(151, 100)) == RectF(-25.0, 0.0, 126.0, 100.0)
  {
    assert (100 - 151) / 2 == -26;
    assert TruncDiv(299, 100) == 2 && TruncDiv(100, 100) == 1;
    assert TruncDiv(299, 2) == 149 && TruncDiv(100, 2) == 50;
    assert TruncDiv(150, 100) == 1 && TruncDiv(-50, 2) == -25 && TruncDiv(0, 2) == 0;
    assert TruncDiv(151, 100) == 1 && TruncDiv(-51, 2) == -25;
  }
}
