/** The pattern engine of the donut chart (`DonutChart._apply_pattern`): it
    textures the pixels of one sector by scanning the chart's bounding box with
    a stride and inking every scanned pixel whose stencil pixel is set. */
module Patterns {
  import opened Surface
  import opened PyNum

  /** The stencil of one sector: a `width` by `height` 1-bit image whose pixel
      `(mx, my)` is ink (0) exactly when `ink(mx, my)`. */
  datatype Mask = Mask(width: int, height: int, ink: (int, int) -> bool)

  /** The stencil is drawn 10 pixels in from its top-left corner. */
  const Offset := 10

  /** `0 <= mx < mask.width and 0 <= my < mask.height` and `mask.getpixel((mx, my)) == 0`. */
  predicate InMask(m: Mask, mx: int, my: int)
  {
    0 <= mx < m.width && 0 <= my < m.height && m.ink(mx, my)
  }

  /** Whether the scan of `kind` with stride `s` over box `b` visits pixel `(x, y)`
      (inside the box). Diagonal offsets are counted from the first offset the
      source's `range` starts at: `x1 - y2` for `/`, `x1 + y1` for `\`. */
  predicate OnStride(kind: PatternKind, b: Bounds, s: int, x: int, y: int)
    requires s > 0
  {
    match kind
    case Horizontal => (y - b.y0) % s == 0
    case Vertical => (x - b.x0) % s == 0
    case Diagonal1 => (x - y - (b.x0 - b.y1)) % s == 0
    case Diagonal2 => (x + y - (b.x0 + b.y0)) % s == 0
    case Dots => (x - b.x0) % s == 0 && (y - b.y0) % s == 0
    case Crosshatch => (y - b.y0) % s == 0 || (x - b.x0) % s == 0
  }

  /** Whether applying pattern `kind` inks pixel `(x, y)`: the pixel lies in the
      box, on the pattern's stride, and its stencil pixel is in bounds and set. */
  predicate Hit(kind: PatternKind, b: Bounds, s: int, m: Mask, x: int, y: int)
    requires s > 0
    ensures Hit(kind, b, s, m, x, y) ==>
      b.x0 <= x < b.x1 && b.y0 <= y < b.y1 && m.ink(x - b.x0 + Offset, y - b.y0 + Offset)
  {
    && b.x0 <= x < b.x1 && b.y0 <= y < b.y1
    && OnStride(kind, b, s, x, y)
    && InMask(m, x - b.x0 + Offset, y - b.y0 + Offset)
  }

  /** `dots` inks exactly where both the row pass and the column pass would,
      `crosshatch` exactly where either would. */
  lemma CombinedPatterns(b: Bounds, s: int, m: Mask, x: int, y: int)
    requires s > 0
    ensures Hit(Dots, b, s, m, x, y) <==> Hit(Horizontal, b, s, m, x, y) && Hit(Vertical, b, s, m, x, y)
    ensures Hit(Crosshatch, b, s, m, x, y) <==> Hit(Horizontal, b, s, m, x, y) || Hit(Vertical, b, s, m, x, y)
  {
  }

  /** Between two consecutive values of a `range(base, _, s)` there is no other one. */
  lemma StrideGap(base: int, a: int, t: int, s: int)
    requires s > 0 && (a - base) % s == 0 && a < t < a + s
    ensures (t - base) % s != 0
  {
    var q := (a - base) / s;
    DivModUnique(q, 0, s);
    DivModUnique(q, t - a, s);
  }

  /** The next value of a `range(base, _, s)` is again on the stride. */
  lemma StrideStep(base: int, a: int, s: int)
    requires s > 0 && (a - base) % s == 0
    ensures (a + s - base) % s == 0
  {
    var q := (a - base) / s;
    DivModUnique(q, 0, s);
    DivModUnique(q + 1, 0, s);
    assert a + s - base == (q + 1) * s;
  }

  /** One scanline `y` of the `horizontal` pass. */
  method InkRow(image: array2<int>, b: Bounds, s: int, m: Mask, y: int)
    requires s > 0 && (y - b.y0) % s == 0
    modifies image
    ensures forall px, py | 0 <= px < image.Length0 && 0 <= py < image.Length1 ::
      image[px, py] == if py == y && Hit(Horizontal, b, s, m, px, py) then Ink else old(image[px, py])
  {
    var x := b.x0;
    while x < b.x1
      invariant forall px, py | 0 <= px < image.Length0 && 0 <= py < image.Length1 ::
        image[px, py] == if py == y && px < x && Hit(Horizontal, b, s, m, px, py) then Ink else old(image[px, py])
    {
      if b.y0 <= y < b.y1 && InMask(m, x - b.x0 + Offset, y - b.y0 + Offset) {
        Plot(image, x, y);
      }
      x := x + 1;
    }
  }

  /** The `horizontal` pass: every `s`-th row of the box, pixel by pixel. */
  method InkRows(image: array2<int>, b: Bounds, s: int, m: Mask)
    requires s > 0
    modifies image
    ensures forall px, py | 0 <= px < image.Length0 && 0 <= py < image.Length1 ::
      image[px, py] == if Hit(Horizontal, b, s, m, px, py) then Ink else old(image[px, py])
  {
    var y := b.y0;
    while y < b.y1
      invariant b.y0 <= y && (y - b.y0) % s == 0
      invariant forall px, py | 0 <= px < image.Length0 && 0 <= py < image.Length1 ::
        image[px, py] == if py < y && Hit(Horizontal, b, s, m, px, py) then Ink else old(image[px, py])
    {
      InkRow(image, b, s, m, y);
      forall px, py | y < py < y + s
        ensures !Hit(Horizontal, b, s, m, px, py)
      {
        StrideGap(b.y0, y, py, s);
      }
      StrideStep(b.y0, y, s);
      y := y + s;
    }
  }

  /** One column `x` of the `vertical` pass. */
  method InkColumn(image: array2<int>, b: Bounds, s: int, m: Mask, x: int)
    requires s > 0 && (x - b.x0) % s == 0
    modifies image
    ensures forall px, py | 0 <= px < image.Length0 && 0 <= py < image.Length1 ::
      image[px, py] == if px == x && Hit(Vertical, b, s, m, px, py) then Ink else old(image[px, py])
  {
    var y := b.y0;
    while y < b.y1
      invariant forall px, py | 0 <= px < image.Length0 && 0 <= py < image.Length1 ::
        image[px, py] == if px == x && py < y && Hit(Vertical, b, s, m, px, py) then Ink else old(image[px, py])
    {
      if b.x0 <= x < b.x1 && InMask(m, x - b.x0 + Offset, y - b.y0 + Offset) {
        Plot(image, x, y);
      }
      y := y + 1;
    }
  }

  /** The `vertical` pass: every `s`-th column of the box, pixel by pixel. */
  method InkColumns(image: array2<int>, b: Bounds, s: int, m: Mask)
    requires s > 0
    modifies image
    ensures forall px, py | 0 <= px < image.Length0 && 0 <= py < image.Length1 ::
      image[px, py] == if Hit(Vertical, b, s, m, px, py) then Ink else old(image[px, py])
  {
    var x := b.x0;
    while x < b.x1
      invariant b.x0 <= x && (x - b.x0) % s == 0
      invariant forall px, py | 0 <= px < image.Length0 && 0 <= py < image.Length1 ::
        image[px, py] == if px < x && Hit(Vertical, b, s, m, px, py) then Ink else old(image[px, py])
    {
      InkColumn(image, b, s, m, x);
      forall px, py | x < px < x + s
        ensures !Hit(Vertical, b, s, m, px, py)
      {
        StrideGap(b.x0, x, px, s);
      }
      StrideStep(b.x0, x, s);
      x := x + s;
    }
  }

  /** One line `x - y == i` of the `diagonal1` pass, walked by column. */
  method InkRisingDiagonal(image: array2<int>, b: Bounds, s: int, m: Mask, i: int)
    requires s > 0 && (i - (b.x0 - b.y1)) % s == 0
    modifies image
    ensures forall px, py | 0 <= px < image.Length0 && 0 <= py < image.Length1 ::
      image[px, py] == if px - py == i && Hit(Diagonal1, b, s, m, px, py) then Ink else old(image[px, py])
  {
    var x := b.x0;
    while x < b.x1
      invariant forall px, py | 0 <= px < image.Length0 && 0 <= py < image.Length1 ::
        image[px, py] == if px - py == i && px < x && Hit(Diagonal1, b, s, m, px, py) then Ink else old(image[px, py])
    {
      var y := x - i;
      if b.y0 <= y < b.y1 && InMask(m, x - b.x0 + Offset, y - b.y0 + Offset) {
        Plot(image, x, y);
      }
      x := x + 1;
    }
  }

  /** The `diagonal1` pass (`/`): every `s`-th line `x - y == i` through the box. */
  method InkRisingDiagonals(image: array2<int>, b: Bounds, s: int, m: Mask)
    requires s > 0
    modifies image
    ensures forall px, py | 0 <= px < image.Length0 && 0 <= py < image.Length1 ::
      image[px, py] == if Hit(Diagonal1, b, s, m, px, py) then Ink else old(image[px, py])
  {
    var i := b.x0 - b.y1;
    while i < b.x1 - b.y0
      invariant b.x0 - b.y1 <= i && (i - (b.x0 - b.y1)) % s == 0
      invariant forall px, py | 0 <= px < image.Length0 && 0 <= py < image.Length1 ::
        image[px, py] == if px - py < i && Hit(Diagonal1, b, s, m, px, py) then Ink else old(image[px, py])
    {
      InkRisingDiagonal(image, b, s, m, i);
      forall px, py | i < px - py < i + s
        ensures !Hit(Diagonal1, b, s, m, px, py)
      {
        StrideGap(b.x0 - b.y1, i, px - py, s);
      }
      StrideStep(b.x0 - b.y1, i, s);
      i := i + s;
    }
  }

  /** One line `x + y == i` of the `diagonal2` pass, walked by column. */
  method InkFallingDiagonal(image: array2<int>, b: Bounds, s: int, m: Mask, i: int)
    requires s > 0 && (i - (b.x0 + b.y0)) % s == 0
    modifies image
    ensures forall px, py | 0 <= px < image.Length0 && 0 <= py < image.Length1 ::
      image[px, py] == if px + py == i && Hit(Diagonal2, b, s, m, px, py) then Ink else old(image[px, py])
  {
    var x := b.x0;
    while x < b.x1
      invariant forall px, py | 0 <= px < image.Length0 && 0 <= py < image.Length1 ::
        image[px, py] == if px + py == i && px < x && Hit(Diagonal2, b, s, m, px, py) then Ink else old(image[px, py])
    {
      var y := i - x;
      if b.y0 <= y < b.y1 && InMask(m, x - b.x0 + Offset, y - b.y0 + Offset) {
        Plot(image, x, y);
      }
      x := x + 1;
    }
  }

  /** The `diagonal2` pass (`\`): every `s`-th line `x + y == i` through the box. */
  method InkFallingDiagonals(image: array2<int>, b: Bounds, s: int, m: Mask)
    requires s > 0
    modifies image
    ensures forall px, py | 0 <= px < image.Length0 && 0 <= py < image.Length1 ::
      image[px, py] == if Hit(Diagonal2, b, s, m, px, py) then Ink else old(image[px, py])
  {
    var i := b.x0 + b.y0;
    while i < b.x1 + b.y1
      invariant b.x0 + b.y0 <= i && (i - (b.x0 + b.y0)) % s == 0
      invariant forall px, py | 0 <= px < image.Length0 && 0 <= py < image.Length1 ::
        image[px, py] == if px + py < i && Hit(Diagonal2, b, s, m, px, py) then Ink else old(image[px, py])
    {
      InkFallingDiagonal(image, b, s, m, i);
      forall px, py | i < px + py < i + s
        ensures !Hit(Diagonal2, b, s, m, px, py)
      {
        StrideGap(b.x0 + b.y0, i, px + py, s);
      }
      StrideStep(b.x0 + b.y0, i, s);
      i := i + s;
    }
  }

  /** The dots of column `x` of the `dots` pass: every `s`-th row. */
  method InkDotColumn(image: array2<int>, b: Bounds, s: int, m: Mask, x: int)
    requires s > 0 && (x - b.x0) % s == 0
    modifies image
    ensures forall px, py | 0 <= px < image.Length0 && 0 <= py < image.Length1 ::
      image[px, py] == if px == x && Hit(Dots, b, s, m, px, py) then Ink else old(image[px, py])
  {
    var y := b.y0;
    while y < b.y1
      invariant b.y0 <= y && (y - b.y0) % s == 0
      invariant forall px, py | 0 <= px < image.Length0 && 0 <= py < image.Length1 ::
        image[px, py] == if px == x && py < y && Hit(Dots, b, s, m, px, py) then Ink else old(image[px, py])
    {
      if b.x0 <= x < b.x1 && InMask(m, x - b.x0 + Offset, y - b.y0 + Offset) {
        Plot(image, x, y);
      }
      forall px, py | y < py < y + s
        ensures !Hit(Dots, b, s, m, px, py)
      {
        StrideGap(b.y0, y, py, s);
      }
      StrideStep(b.y0, y, s);
      y := y + s;
    }
  }

  /** The `dots` pass: every `s`-th column, and on it every `s`-th row. */
  method InkDots(image: array2<int>, b: Bounds, s: int, m: Mask)
    requires s > 0
    modifies image
    ensures forall px, py | 0 <= px < image.Length0 && 0 <= py < image.Length1 ::
      image[px, py] == if Hit(Dots, b, s, m, px, py) then Ink else old(image[px, py])
  {
    var x := b.x0;
    while x < b.x1
      invariant b.x0 <= x && (x - b.x0) % s == 0
      invariant forall px, py | 0 <= px < image.Length0 && 0 <= py < image.Length1 ::
        image[px, py] == if px < x && Hit(Dots, b, s, m, px, py) then Ink else old(image[px, py])
    {
      InkDotColumn(image, b, s, m, x);
      forall px, py | x < px < x + s
        ensures !Hit(Dots, b, s, m, px, py)
      {
        StrideGap(b.x0, x, px, s);
      }
      StrideStep(b.x0, x, s);
      x := x + s;
    }
  }

  /** `_apply_pattern` once the stencil exists: inks exactly the pixels `Hit`
      selects and leaves every other pixel as it was. `crosshatch` is the
      horizontal pass followed by the vertical one. */
  method ApplyPattern(image: array2<int>, kind: PatternKind, b: Bounds, s: int, m: Mask)
    requires s > 0
    modifies image
    ensures forall px, py | 0 <= px < image.Length0 && 0 <= py < image.Length1 ::
      image[px, py] == if Hit(kind, b, s, m, px, py) then Ink else old(image[px, py])
  {
    match kind
    case Horizontal => InkRows(image, b, s, m);
    case Vertical => InkColumns(image, b, s, m);
    case Diagonal1 => InkRisingDiagonals(image, b, s, m);
    case Diagonal2 => InkFallingDiagonals(image, b, s, m);
    case Dots => InkDots(image, b, s, m);
    case Crosshatch =>
      InkRows(image, b, s, m);
      InkColumns(image, b, s, m);
  }
}
