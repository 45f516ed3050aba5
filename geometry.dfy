// System.Drawing's Point, Size, Rectangle and Bitmap, and C#'s integer division.
module Geometry {

  datatype Point = Point(x: int, y: int)

  datatype Size = Size(width: int, height: int)

  datatype Rectangle = Rectangle(x: int, y: int, width: int, height: int)

  /** A bitmap: its dimensions and the lines drawn on it, in drawing order. */
  datatype Bitmap = Bitmap(width: int, height: int, lines: seq<(Point, Point)>)

  /** new Rectangle(location, size). */
  function RectangleOf(location: Point, size: Size): (r: Rectangle)
    ensures Point(r.x, r.y) == location && Size(r.width, r.height) == size
  {
    Rectangle(location.x, location.y, size.width, size.height)
  }

  /** Rectangle.Contains(Point): the half-open box [x, x+w) x [y, y+h). */
  predicate Contains(r: Rectangle, p: Point)
  {
    r.x <= p.x && p.x < r.x + r.width && r.y <= p.y && p.y < r.y + r.height
  }

  /** C#'s integer division, which truncates toward zero (Dafny's `/` is Euclidean). */
  function Quot(a: int, b: int): int
    requires b != 0
  {
    if a >= 0 then (if b > 0 then a / b else -(a / -b))
    else (if b > 0 then -((-a) / b) else (-a) / (-b))
  }

  lemma MulNonNegative(x: int, y: int)
    requires x >= 0 && y >= 0
    ensures x * y >= 0
  {
  }

  lemma MulMonotone(b: int, x: int, y: int)
    requires b >= 0 && x <= y
    ensures b * x <= b * y
  {
    MulNonNegative(b, y - x);
    assert b * y - b * x == b * (y - x);
  }

  /** Euclidean division is characterised by its bracketing multiples. */
  lemma DivUnique(n: int, b: int, q: int)
    requires b > 0 && b * q <= n < b * q + b
    ensures n / b == q
  {
    var q' := n / b;
    assert b * q' <= n < b * q' + b;
    if q' > q {
      assert b * (q + 1) == b * q + b;
      MulMonotone(b, q + 1, q');
    } else if q' < q {
      MulMonotone(b, q' + 1, q);
    }
  }

  lemma QuotNonNegative(a: int, b: int)
    requires a >= 0 && b > 0
    ensures Quot(a, b) == a / b && 0 <= Quot(a, b) <= a
    ensures b * (a / b) <= a < b * (a / b) + b
  {
    var q := a / b;
    assert b * q <= a < b * q + b;
    if q < 0 {
      MulMonotone(b, q, -1);
    } else if q > a {
      MulMonotone(q, 1, b);
    }
  }

  /** Truncating division undoes an exact multiplication. */
  lemma QuotOfMultiple(a: int, b: int)
    requires b != 0
    ensures Quot(a * b, b) == a
  {
    if b > 0 {
      if a >= 0 {
        MulNonNegative(a, b);
        DivUnique(a * b, b, a);
      } else {
        MulNonNegative(-a, b);
        assert -(a * b) == (-a) * b;
        DivUnique((-a) * b, b, -a);
      }
    } else {
      if a >= 0 {
        MulNonNegative(a, -b);
        assert -(a * b) == a * (-b);
        DivUnique(a * (-b), -b, a);
        if a * b >= 0 {
          assert a * b == 0;
          assert a == 0 by { if a > 0 { MulMonotone(a, b, -1); } }
        }
      } else {
        MulNonNegative(-a, -b);
        assert a * b == (-a) * (-b);
        DivUnique((-a) * (-b), -b, -a);
      }
    }
  }

  /** For a non-negative numerator and a positive divisor, Quot is monotone. */
  lemma QuotMonotone(a: int, a': int, b: int)
    requires 0 <= a <= a' && b > 0
    ensures Quot(a, b) <= Quot(a', b)
  {
    var q, q' := a / b, a' / b;
    assert b * q <= a < b * q + b;
    assert b * q' <= a' < b * q' + b;
    if q > q' {
      MulMonotone(b, q' + 1, q);
    }
  }

  /** x * (newDim / origDim) in exact arithmetic, truncated toward zero. */
  function Scaled(v: int, newDim: int, origDim: int): int
    requires origDim != 0
  {
    Quot(v * newDim, origDim)
  }

  /** What the (int) cast of a float that is NaN or infinite gives. C#
      leaves it unspecified; the x86 and x64 conversion instructions give
      int.MinValue. */
  const IndefiniteInt: int := -0x8000_0000

  /** (int)(v * ((float)newDim / (float)origDim)) in exact arithmetic. A zero
      origDim makes the factor NaN or infinite, and so the product, whose
      cast gives IndefiniteInt; nothing throws. */
  function Resized(v: int, newDim: int, origDim: int): int
  {
    if origDim == 0 then IndefiniteInt else Scaled(v, newDim, origDim)
  }

  /** Scaling by a ratio of 1 changes nothing. */
  lemma ScaledIdentity(v: int, d: int)
    requires d != 0
    ensures Scaled(v, d, d) == v
  {
    QuotOfMultiple(v, d);
  }

  /** A non-negative value scaled by a non-negative ratio stays non-negative. */
  lemma ScaledNonNegative(v: int, newDim: int, origDim: int)
    requires v >= 0 && newDim >= 0 && origDim > 0
    ensures Scaled(v, newDim, origDim) >= 0
  {
    MulNonNegative(v, newDim);
    QuotNonNegative(v * newDim, origDim);
  }

  /** Scaling by a non-negative ratio keeps the order of non-negative values. */
  lemma ScaledMonotone(v: int, v': int, newDim: int, origDim: int)
    requires 0 <= v <= v' && newDim >= 0 && origDim > 0
    ensures Scaled(v, newDim, origDim) <= Scaled(v', newDim, origDim)
  {
    MulNonNegative(v, newDim);
    MulMonotone(newDim, v, v');
    QuotMonotone(v * newDim, v' * newDim, origDim);
  }

  /** A coordinate inside [0, origDim) scaled to a positive newDim lands
      inside [0, newDim). */
  lemma ScaledBelow(v: int, newDim: int, origDim: int)
    requires 0 <= v < origDim && newDim > 0
    ensures 0 <= Scaled(v, newDim, origDim) < newDim
  {
    ScaledNonNegative(v, newDim, origDim);
    MulNonNegative(v, newDim);
    QuotNonNegative(v * newDim, origDim);
    var q := (v * newDim) / origDim;
    assert origDim * q <= v * newDim;
    MulMonotone(newDim, v, origDim - 1);
    assert v * newDim < origDim * newDim;
    if q >= newDim {
      MulMonotone(origDim, newDim, q);
    }
  }
}
