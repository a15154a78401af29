/** Rectangles as sets of pixels, and how many there are. */
module Pixels {

  type Pixel = (int, int)

  /** The pixels from (x1, y1) to (x2, y2), both included. */
  ghost function Rectangle(x1: int, y1: int, x2: int, y2: int): set<Pixel> {
    set x: int, y: int | x1 <= x <= x2 && y1 <= y <= y2 :: (x, y)
  }

  function Side(low: int, high: int): nat {
    if low <= high then high - low + 1 else 0
  }

  lemma {:induction false} ColumnSize(x: int, y1: int, y2: int)
    ensures |Rectangle(x, y1, x, y2)| == Side(y1, y2)
    decreases y2 - y1
  {
    if y1 <= y2 {
      ColumnSize(x, y1, y2 - 1);
      assert Rectangle(x, y1, x, y2) == Rectangle(x, y1, x, y2 - 1) + {(x, y2)};
    } else {
      assert Rectangle(x, y1, x, y2) == {};
    }
  }

  lemma OneMoreColumn(x1: int, y1: int, x2: int, y2: int)
    requires x1 <= x2
    ensures |Rectangle(x1, y1, x2, y2)| == |Rectangle(x1, y1, x2 - 1, y2)| + |Rectangle(x2, y1, x2, y2)|
  {
    var rest, last := Rectangle(x1, y1, x2 - 1, y2), Rectangle(x2, y1, x2, y2);
    assert Rectangle(x1, y1, x2, y2) == rest + last;
    assert rest !! last;
  }

  lemma {:induction false} RectangleSize(x1: int, y1: int, x2: int, y2: int)
    ensures |Rectangle(x1, y1, x2, y2)| == Side(x1, x2) * Side(y1, y2)
    decreases x2 - x1
  {
    if x1 <= x2 {
      OneMoreColumn(x1, y1, x2, y2);
      hide Rectangle;
      RectangleSize(x1, y1, x2 - 1, y2);
      ColumnSize(x2, y1, y2);
      assert Side(x1, x2) == Side(x1, x2 - 1) + 1;
    } else {
      assert Rectangle(x1, y1, x2, y2) == {};
    }
  }

  lemma RectanglesMeet(ax1: int, ay1: int, ax2: int, ay2: int, bx1: int, by1: int, bx2: int, by2: int)
    ensures Rectangle(ax1, ay1, ax2, ay2) * Rectangle(bx1, by1, bx2, by2)
         == Rectangle(if ax1 < bx1 then bx1 else ax1, if ay1 < by1 then by1 else ay1,
                      if bx2 < ax2 then bx2 else ax2, if by2 < ay2 then by2 else ay2)
  {
  }

  lemma EitherSize(a: set<Pixel>, b: set<Pixel>)
    ensures |a + b| == |a| + |b| - |a * b|
  {
  }
}
