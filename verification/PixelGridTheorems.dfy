// What downsampling keeps: every pixel is counted once, light is neither lost nor made, and
// the two programs see the same brightness.
module PixelGridTheorems {
  import opened Options
  import opened PixelGrid

  // ---- The cells partition the image ----

  // The cell a pixel of a side belongs to.
  function CellAt(p: nat, n: nat, len: nat): int
    requires p < len
  {
    ((p + 1) * n - 1) / len
  }

  lemma QuotientIs(a: int, n: int, q: int)
    requires n > 0
    ensures q * n <= a < (q + 1) * n <==> q == a / n
  {
    var k := a / n;
    assert a == k * n + a % n;
    Scaled(k + 1, q, n);
    Scaled(q + 1, k, n);
  }

  lemma Scaled(a: int, b: int, n: int)
    requires n > 0
    ensures a <= b <==> a * n <= b * n
  {
    if a <= b {
      assert (b - a) * n >= 0;
    } else {
      assert (a - b) * n > 0;
    }
  }

  lemma BelowBound(p: nat, i: nat, n: nat, len: nat)
    requires n > 0
    ensures Bound(i, n, len) <= p <==> i * len < (p + 1) * n
  {
    var q := Bound(i, n, len);
    QuotientIs(i * len, n, q);
    Scaled(q + 1, p + 1, n);
    Scaled(p + 1, q, n);
  }

  // A pixel of a side lies in one cell, and no other.
  lemma OnePixelOneCell(p: nat, i: nat, n: nat, len: nat)
    requires p < len && i < n
    ensures Bound(i, n, len) <= p < Bound(i + 1, n, len) <==> i == CellAt(p, n, len)
    ensures 0 <= CellAt(p, n, len) < n
  {
    BelowBound(p, i, n, len);
    BelowBound(p, i + 1, n, len);
    QuotientIs((p + 1) * n - 1, len, i);
    var k := CellAt(p, n, len);
    QuotientIs((p + 1) * n - 1, len, k);
    Scaled(1, (p + 1), n);
    Scaled(p + 1, len, n);
    Scaled(k + 1, 0, len);
    Scaled(n, k, len);
  }

  predicate Covers(im: Image, row: nat, col: nat, rows: nat, cols: nat, x: nat, y: nat)
    requires rows > 0 && cols > 0
  {
    && Bound(col, cols, im.width) <= x < Bound(col + 1, cols, im.width)
    && Bound(row, rows, im.height) <= y < Bound(row + 1, rows, im.height)
  }

  // Every pixel of the image lies in exactly one cell of the grid, whatever the sizes.
  lemma CellsPartitionTheImage(im: Image, row: nat, col: nat, rows: nat, cols: nat, x: nat, y: nat)
    requires x < im.width && y < im.height && row < rows && col < cols
    ensures Covers(im, row, col, rows, cols, x, y) <==>
      (row == CellAt(y, rows, im.height) && col == CellAt(x, cols, im.width))
    ensures CellAt(y, rows, im.height) < rows && CellAt(x, cols, im.width) < cols
  {
    OnePixelOneCell(x, col, cols, im.width);
    OnePixelOneCell(y, row, rows, im.height);
  }

  lemma CellIsNotEmpty(i: nat, n: nat, len: nat)
    requires 0 < n <= len
    ensures Bound(i, n, len) < Bound(i + 1, n, len)
  {
    var q := Bound(i, n, len);
    QuotientIs(i * len, n, q);
    assert (q + 1) * n == q * n + n && (i + 1) * len == i * len + len;
    BelowBound(q, i + 1, n, len);
  }

  // No cell is empty exactly when there are no more cells than pixels.
  lemma {:induction false} EmptyCells(n: nat, len: nat)
    requires n > 0
    ensures (forall i :: 0 <= i < n ==> Bound(i, n, len) < Bound(i + 1, n, len)) <==> n <= len
  {
    if n <= len {
      forall i | 0 <= i < n
        ensures Bound(i, n, len) < Bound(i + 1, n, len)
      {
        CellIsNotEmpty(i, n, len);
      }
    } else if forall i :: 0 <= i < n ==> Bound(i, n, len) < Bound(i + 1, n, len) {
      BoundsTile(0, n, len);
      BoundsGrow(n, n, len);
      assert false;
    }
  }

  lemma {:induction false} BoundsGrow(k: nat, n: nat, len: nat)
    requires n > 0 && k <= n && forall i :: 0 <= i < n ==> Bound(i, n, len) < Bound(i + 1, n, len)
    ensures Bound(k, n, len) >= k
  {
    if k > 0 {
      BoundsGrow(k - 1, n, len);
      assert Bound(k - 1, n, len) < Bound(k - 1 + 1, n, len);
    }
  }

  // ---- Conservation ----

  // The sum over the first `c` cells of a row, and over the first `r` rows.
  function CellRowSum(f: (nat, nat) -> real, im: Image, row: nat, c: nat, rows: nat, cols: nat): real
    requires rows > 0 && cols > 0
  {
    if c == 0 then 0.0 else CellRowSum(f, im, row, c - 1, rows, cols) + CellSum(f, im, row, c - 1, rows, cols)
  }

  function CellGridSum(f: (nat, nat) -> real, im: Image, r: nat, rows: nat, cols: nat): real
    requires rows > 0 && cols > 0
  {
    if r == 0 then 0.0 else CellGridSum(f, im, r - 1, rows, cols) + CellRowSum(f, im, r - 1, cols, rows, cols)
  }

  lemma {:induction false} RowSplits(f: (nat, nat) -> real, y: nat, a: nat, b: nat, c: nat)
    requires a <= b <= c
    ensures RowSum(f, y, a, b) + RowSum(f, y, b, c) == RowSum(f, y, a, c)
  {
    if b < c {
      RowSplits(f, y, a, b, c - 1);
    }
  }

  lemma {:induction false} BlockSplitsAcross(f: (nat, nat) -> real, a: nat, b: nat, c: nat, y0: nat, y1: nat)
    requires a <= b <= c
    ensures BlockSum(f, a, b, y0, y1) + BlockSum(f, b, c, y0, y1) == BlockSum(f, a, c, y0, y1)
  {
    if y0 < y1 {
      BlockSplitsAcross(f, a, b, c, y0, y1 - 1);
      RowSplits(f, y1 - 1, a, b, c);
    }
  }

  lemma {:induction false} BlockSplitsDown(f: (nat, nat) -> real, x0: nat, x1: nat, a: nat, b: nat, c: nat)
    requires a <= b <= c
    ensures BlockSum(f, x0, x1, a, b) + BlockSum(f, x0, x1, b, c) == BlockSum(f, x0, x1, a, c)
  {
    if b < c {
      BlockSplitsDown(f, x0, x1, a, b, c - 1);
    }
  }

  lemma {:induction false} BlockWithoutColumns(f: (nat, nat) -> real, x: nat, y0: nat, y1: nat)
    ensures BlockSum(f, x, x, y0, y1) == 0.0
  {
    if y0 < y1 {
      BlockWithoutColumns(f, x, y0, y1 - 1);
    }
  }

  lemma {:induction false} RowOfCells(f: (nat, nat) -> real, im: Image, row: nat, c: nat, rows: nat, cols: nat)
    requires row < rows && c <= cols && cols > 0
    ensures CellRowSum(f, im, row, c, rows, cols)
         == BlockSum(f, 0, Bound(c, cols, im.width), Bound(row, rows, im.height), Bound(row + 1, rows, im.height))
  {
    var y0, y1 := Bound(row, rows, im.height), Bound(row + 1, rows, im.height);
    if c == 0 {
      BoundsTile(0, cols, im.width);
      BlockWithoutColumns(f, 0, y0, y1);
    } else {
      RowOfCells(f, im, row, c - 1, rows, cols);
      BoundsTile(c - 1, cols, im.width);
      BlockSplitsAcross(f, 0, Bound(c - 1, cols, im.width), Bound(c, cols, im.width), y0, y1);
    }
  }

  // Summed over all the cells, any quantity is its sum over the whole image.
  lemma {:induction false} Conservation(f: (nat, nat) -> real, im: Image, r: nat, rows: nat, cols: nat)
    requires r <= rows && rows > 0 && cols > 0
    ensures CellGridSum(f, im, r, rows, cols) == BlockSum(f, 0, im.width, 0, Bound(r, rows, im.height))
    ensures r == rows ==> CellGridSum(f, im, r, rows, cols) == BlockSum(f, 0, im.width, 0, im.height)
  {
    BoundsTile(0, rows, im.height);
    if r > 0 {
      Conservation(f, im, r - 1, rows, cols);
      RowOfCells(f, im, r - 1, cols, rows, cols);
      BoundsTile(0, cols, im.width);
      BoundsTile(r - 1, rows, im.height);
      BlockSplitsDown(f, 0, im.width, 0, Bound(r - 1, rows, im.height), Bound(r, rows, im.height));
    }
  }

  // The buffer holds every pixel of the image.
  predicate Complete(im: Image) {
    forall x, y :: 0 <= x < im.width && 0 <= y < im.height ==> Present(im, x, y)
  }

  // As a buffer of four bytes a pixel does.
  lemma FullIsComplete(im: Image)
    requires |im.pixels| >= im.width * im.height * 4
    ensures Complete(im)
  {
    forall x, y | 0 <= x < im.width && 0 <= y < im.height
      ensures Present(im, x, y)
    {
      TimesKeepsOrder(y + 1, im.height, im.width);
    }
  }

  lemma {:induction false} CountOfRow(im: Image, y: nat, x: nat)
    requires Complete(im) && y < im.height && x <= im.width
    ensures RowSum(Count(im), y, 0, x) == x as real
  {
    if x > 0 {
      CountOfRow(im, y, x - 1);
      assert Present(im, x - 1, y);
    }
  }

  lemma {:induction false} CountOfBlock(im: Image, y: nat)
    requires Complete(im) && y <= im.height
    ensures BlockSum(Count(im), 0, im.width, 0, y) == (im.width * y) as real
  {
    if y > 0 {
      CountOfBlock(im, y - 1);
      CountOfRow(im, y - 1, im.width);
      assert im.width * y == im.width * (y - 1) + im.width;
    }
  }

  // The cells of a complete image count each of its pixels once.
  lemma PixelsAreCounted(im: Image, rows: nat, cols: nat)
    requires Complete(im) && rows > 0 && cols > 0
    ensures CellGridSum(Count(im), im, rows, rows, cols) == (im.width * im.height) as real
  {
    Conservation(Count(im), im, rows, rows, cols);
    CountOfBlock(im, im.height);
  }

  // ---- Brightness ----

  // Grey keeps its level, and no colour leaves the range of greys it lies between.
  lemma LuminanceIsBetween(r: Byte, g: Byte, b: Byte, lo: Byte, hi: Byte)
    requires lo <= r <= hi && lo <= g <= hi && lo <= b <= hi
    ensures Luminance(lo, lo, lo) == lo as real / 255.0
    ensures Luminance(lo, lo, lo) <= Luminance(r, g, b) <= Luminance(hi, hi, hi)
  {
  }

  lemma PixelInRange(im: Image, x: nat, y: nat)
    ensures 0.0 <= PixelLight(im, x, y) <= Count(im)(x, y)
  {
    var i := Offset(x, y, im.width);
    if i + 2 < |im.pixels| {
      LuminanceIsBetween(im.pixels[i], im.pixels[i+1], im.pixels[i+2], 0, 255);
    }
  }

  lemma {:induction false} RowInRange(im: Image, y: nat, x0: nat, x1: nat)
    ensures 0.0 <= RowSum(Light(im), y, x0, x1) <= RowSum(Count(im), y, x0, x1)
    decreases x1
  {
    if x0 < x1 {
      RowInRange(im, y, x0, x1 - 1);
      PixelInRange(im, x1 - 1, y);
    }
  }

  lemma {:induction false} BlockInRange(im: Image, x0: nat, x1: nat, y0: nat, y1: nat)
    ensures 0.0 <= BlockSum(Light(im), x0, x1, y0, y1) <= BlockSum(Count(im), x0, x1, y0, y1)
    decreases y1
  {
    if y0 < y1 {
      BlockInRange(im, x0, x1, y0, y1 - 1);
      RowInRange(im, y1 - 1, x0, x1);
    }
  }

  lemma QuotientInRange(a: real, b: real)
    requires 0.0 <= a <= b && b > 0.0
    ensures 0.0 <= a / b <= 1.0 && a / b * b == a
  {
  }

  // A brightness lies in [0, 1], and times the pixel count it gives back the cell's light:
  // with Conservation, no light is lost or made.
  lemma BrightnessIsTheMean(im: Image, row: nat, col: nat, rows: nat, cols: nat)
    requires row < rows && col < cols
    ensures 0.0 <= Mean(im, row, col, rows, cols) <= 1.0
    ensures Mean(im, row, col, rows, cols) * CellSum(Count(im), im, row, col, rows, cols)
         == CellSum(Light(im), im, row, col, rows, cols)
  {
    BlockInRange(im, Bound(col, cols, im.width), Bound(col + 1, cols, im.width),
                 Bound(row, rows, im.height), Bound(row + 1, rows, im.height));
    if CellSum(Count(im), im, row, col, rows, cols) > 0.0 {
      QuotientInRange(CellSum(Light(im), im, row, col, rows, cols), CellSum(Count(im), im, row, col, rows, cols));
    }
  }

  // ---- The two programs ----

  function Map<T, U>(f: T -> U, xs: seq<T>): seq<U> {
    seq(|xs|, i requires 0 <= i < |xs| => f(xs[i]))
  }

  function MapGrid<T, U>(f: T -> U, g: seq<seq<T>>): seq<seq<U>> {
    seq(|g|, r requires 0 <= r < |g| => Map(f, g[r]))
  }

  lemma MapJoin<T, U>(f: T -> U, a: seq<T>, b: seq<T>)
    ensures Map(f, a + b) == Map(f, a) + Map(f, b)
  {
  }

  lemma {:induction false} FlatMap<T, U>(f: T -> U, g: seq<seq<T>>)
    ensures Flat(MapGrid(f, g)) == Map(f, Flat(g))
  {
    if g != [] {
      var n := |g| - 1;
      FlatMap(f, g[..n]);
      MapJoin(f, Flat(g[..n]), g[n]);
      assert MapGrid(f, g)[..n] == MapGrid(f, g[..n]);
    }
  }

  lemma {:induction false} FlatLength<T>(g: seq<seq<T>>, cols: nat)
    requires forall r :: 0 <= r < |g| ==> |g[r]| == cols
    ensures |Flat(g)| == |g| * cols
  {
    if g != [] {
      FlatLength(g[..|g|-1], cols);
      assert |g| * cols == (|g| - 1) * cols + cols;
    }
  }

  lemma {:induction false} FlatInjective<T>(g: seq<seq<T>>, h: seq<seq<T>>, cols: nat)
    requires |g| == |h| && (forall r :: 0 <= r < |g| ==> |g[r]| == |h[r]| == cols)
    requires Flat(g) == Flat(h)
    ensures g == h
  {
    if g != [] {
      var n := |g| - 1;
      FlatLength(g[..n], cols);
      FlatLength(h[..n], cols);
      assert Flat(g[..n]) == Flat(g)[..n * cols] == Flat(h[..n]);
      assert g[n] == Flat(g)[n * cols..] == h[n];
      FlatInjective(g[..n], h[..n], cols);
    }
  }

  lemma Positive(a: nat, b: nat)
    requires a > 0 && b > 0
    ensures a * b > 0
  {
  }

  function CompiledBrightness(): Cell<char, real> -> Number { (c: Cell<char, real>) => Num(c.brightness) }

  function FallbackBrightness(): Cell<Option<char>, Number> -> Number {
    (c: Cell<Option<char>, Number>) => c.brightness
  }

  lemma {:induction false} RowThereIff(im: Image, y: nat, x0: nat, x1: nat)
    ensures RowThere(im, y, x0, x1) <==> forall x :: x0 <= x < x1 ==> Present(im, x, y)
    decreases x1
  {
    if x0 < x1 {
      RowThereIff(im, y, x0, x1 - 1);
    }
  }

  lemma {:induction false} BlockThereIff(im: Image, x0: nat, x1: nat, y0: nat, y1: nat)
    ensures BlockThere(im, x0, x1, y0, y1) <==>
      forall x, y :: x0 <= x < x1 && y0 <= y < y1 ==> Present(im, x, y)
    decreases y1
  {
    if y0 < y1 {
      BlockThereIff(im, x0, x1, y0, y1 - 1);
      RowThereIff(im, y1 - 1, x0, x1);
    }
  }

  lemma CellThereIff(im: Image, row: nat, col: nat, rows: nat, cols: nat)
    requires row < rows && col < cols
    ensures CellThere(im, row, col, rows, cols) <==>
      forall x, y | 0 <= x < im.width && 0 <= y < im.height && Covers(im, row, col, rows, cols, x, y) ::
        Present(im, x, y)
  {
    BoundsTile(col, cols, im.width);
    BoundsTile(row, rows, im.height);
    BlockThereIff(im, Bound(col, cols, im.width), Bound(col + 1, cols, im.width),
                  Bound(row, rows, im.height), Bound(row + 1, rows, im.height));
  }

  lemma PixelThere(im: Image, rows: nat, cols: nat, x: nat, y: nat)
    requires x < im.width && y < im.height && rows > 0 && cols > 0
    requires forall row, col :: 0 <= row < rows && 0 <= col < cols ==> CellThere(im, row, col, rows, cols)
    ensures Present(im, x, y)
  {
    OnePixelOneCell(x, 0, cols, im.width);
    OnePixelOneCell(y, 0, rows, im.height);
    var row, col := CellAt(y, rows, im.height), CellAt(x, cols, im.width);
    CellsPartitionTheImage(im, row, col, rows, cols, x, y);
    CellThereIff(im, row, col, rows, cols);
  }

  // The cells are all there exactly when the image is.
  lemma CellsThereIff(im: Image, rows: nat, cols: nat)
    requires rows > 0 && cols > 0
    ensures Complete(im) <==>
      forall row, col :: 0 <= row < rows && 0 <= col < cols ==> CellThere(im, row, col, rows, cols)
  {
    if Complete(im) {
      forall row, col | 0 <= row < rows && 0 <= col < cols
        ensures CellThere(im, row, col, rows, cols)
      {
        CellThereIff(im, row, col, rows, cols);
      }
    } else if forall row, col :: 0 <= row < rows && 0 <= col < cols ==> CellThere(im, row, col, rows, cols) {
      forall x, y | 0 <= x < im.width && 0 <= y < im.height
        ensures Present(im, x, y)
      {
        PixelThere(im, rows, cols, x, y);
      }
    }
  }

  lemma SameBrightnessIff(im: Image, cols: nat, rows: nat, ramp: string, gamma: real -> real)
    requires rows > 0 && cols > 0
    ensures
      var a := MapGrid(CompiledBrightness(), CompiledGrid(im, cols, rows, ramp));
      var b := MapGrid(FallbackBrightness(), FallbackGrid(im, cols, rows, ramp, gamma));
      a == b <==> Complete(im)
  {
    var g, h := CompiledGrid(im, cols, rows, ramp), FallbackGrid(im, cols, rows, ramp, gamma);
    var a, b := MapGrid(CompiledBrightness(), g), MapGrid(FallbackBrightness(), h);
    CellsThereIff(im, rows, cols);
    forall row, col | 0 <= row < rows && 0 <= col < cols
      ensures a[row][col] == b[row][col] <==> CellThere(im, row, col, rows, cols)
    {
      assert a[row][col] == Num(Mean(im, row, col, rows, cols));
      assert b[row][col] == FallbackMean(im, row, col, rows, cols);
    }
    if Complete(im) {
      forall row | 0 <= row < rows
        ensures a[row] == b[row]
      {
      }
    }
  }

  // What the two rasterisers return for one image has the same brightness, cell for cell,
  // exactly when the grid asked for has cells and the buffer holds every pixel. For a grid
  // without cells the compiled one still makes some; a pixel that is not there the compiled
  // one skips and the fallback cannot add.
  lemma RastersAgree(im: Image, cols: nat, rows: nat, ramp: string, gamma: real -> real,
                     out: seq<Cell<char, real>>, grid: seq<seq<Cell<Option<char>, Number>>>)
    requires out == Flat(CompiledGrid(im, AtLeastOne(cols), AtLeastOne(rows), ramp))
    requires grid == FallbackGrid(im, cols, rows, ramp, gamma)
    ensures Map(CompiledBrightness(), out) == Map(FallbackBrightness(), Flat(grid))
      <==> cols > 0 && rows > 0 && Complete(im)
  {
    var g := CompiledGrid(im, AtLeastOne(cols), AtLeastOne(rows), ramp);
    FlatMap(CompiledBrightness(), g);
    FlatMap(FallbackBrightness(), grid);
    if cols > 0 && rows > 0 {
      SameBrightnessIff(im, cols, rows, ramp, gamma);
      if Flat(MapGrid(CompiledBrightness(), g)) == Flat(MapGrid(FallbackBrightness(), grid)) {
        FlatInjective(MapGrid(CompiledBrightness(), g), MapGrid(FallbackBrightness(), grid), cols);
      }
    } else {
      FlatLength(g, AtLeastOne(cols));
      Positive(|g|, AtLeastOne(cols));
      FlatLength(grid, cols);
      assert |grid| * cols == 0;
    }
  }

  lemma ClimbIsMonotone(p: real, q: real, n: nat)
    requires n > 0 && 0.0 <= p <= q
    ensures 0.0 <= Climb(p, n) <= Climb(q, n)
    ensures Climb(0.0, n) == 0.0 && Climb(1.0, n) == (n - 1) as real
  {
    var top := (n - 1) as real;
    assert p * top >= 0.0 && (q - p) * top >= 0.0;
  }

  // A ramp is climbed from its first rung to its last, never down.
  lemma RungClimbs(p: real, q: real, n: nat)
    requires n > 0 && 0.0 <= p <= q <= 1.0
    ensures 0 <= Rung(p, n) <= Rung(q, n) < n
    ensures Rung(0.0, n) == 0 && Rung(1.0, n) == n - 1
  {
    ClimbIsMonotone(p, q, n);
    ClimbIsMonotone(q, 1.0, n);
  }

  // A brighter cell of the fallback never gets an earlier glyph, for any gamma curve that
  // climbs from 0 to 1.
  lemma BrighterIsNotEarlier(a: real, b: real, n: nat, gamma: real -> real)
    requires n > 0 && a <= b && gamma(0.0) == 0.0 && gamma(1.0) == 1.0
    requires forall p, q :: 0.0 <= p <= q <= 1.0 ==> gamma(p) <= gamma(q)
    ensures 0 <= Rung(gamma(Clamp(a)), n) <= Rung(gamma(Clamp(b)), n) < n
  {
    RungClimbs(gamma(Clamp(a)), gamma(Clamp(b)), n);
  }

  // ---- The glyphs ----

  function Product(a: real, b: real): real { a * b }

  lemma Inverse(gap: real)
    requires gap > 0.0
    ensures Product(1.0 / gap, gap) == 1.0
  {
  }

  lemma LargerTimes(a: real, b: real, gap: real)
    requires a < b && gap > 0.0
    ensures Product(a, gap) < Product(b, gap)
  {
    assert (b - a) * gap > 0.0;
  }

  lemma LongEnough(gap: real) returns (m: nat)
    requires gap > 0.0
    ensures Product(m as real, gap) > 1.0
  {
    var inverse := 1.0 / gap;
    m := inverse.Floor + 1;
    Inverse(gap);
    LargerTimes(inverse, m as real, gap);
  }

  lemma ClimbParts(p: real, q: real, m: nat)
    ensures Climb(q, m + 1) - Climb(p, m + 1) == Product(m as real, q - p)
  {
    assert (m + 1 - 1) as real == m as real;
  }

  // Two brightnesses stand on different rungs of a long enough ramp.
  lemma LongRampParts(p: real, q: real) returns (n: nat)
    requires 0.0 <= p < q <= 1.0
    ensures n > 0 && Rung(p, n) < Rung(q, n)
  {
    var m := LongEnough(q - p);
    n := m + 1;
    ClimbParts(p, q, m);
    RungIsFloor(p, n);
    RungIsFloor(q, n);
  }

  lemma RungIsFloor(p: real, n: nat)
    requires n > 0 && 0.0 <= p <= 1.0
    ensures Rung(p, n) == Climb(p, n).Floor
  {
    ClimbIsMonotone(p, 1.0, n);
  }

  // Out of range, a brightness stands on the nearest rung.
  lemma RungClamps(p: real, n: nat)
    requires n > 0
    ensures Rung(p, n) == Rung(Clamp(p), n)
  {
    ClimbIsMonotone(0.0, 1.0, n);
    var top := (n - 1) as real;
    if p < 0.0 {
      assert p * top <= 0.0;
    } else if p > 1.0 {
      assert (p - 1.0) * top >= 0.0;
    }
  }

  predicate SameGlyph(b: real, ramp: string, gamma: real -> real) {
    FallbackGlyph(Num(b), ramp, gamma) == Some(CompiledGlyph(b, ramp))
  }

  // A ramp with one step, between rung k and the next.
  function Step(n: nat, k: int): string { seq(n, i => if i <= k then ' ' else '@') }

  // The two programs draw a brightness with the same glyph of every ramp exactly when the
  // gamma curve leaves it where it is.
  lemma GlyphsAgreeIff(b: real, gamma: real -> real)
    ensures (forall ramp :: ramp != "" ==> SameGlyph(b, ramp, gamma)) <==> Clamp(gamma(Clamp(b))) == Clamp(b)
  {
    var p, q := Clamp(b), Clamp(gamma(Clamp(b)));
    if p == q {
      forall ramp | ramp != ""
        ensures SameGlyph(b, ramp, gamma)
      {
        RungClamps(gamma(p), |ramp|);
        RungClimbs(p, p, |ramp|);
      }
    } else {
      var lo, hi := if p < q then p else q, if p < q then q else p;
      var n := LongRampParts(lo, hi);
      var ramp := Step(n, Rung(lo, n));
      RungClamps(gamma(p), n);
      RungClimbs(lo, hi, n);
      assert ramp != "" && !SameGlyph(b, ramp, gamma);
    }
  }

  // So a whole image looks the same in both, on every ramp, exactly when the curve fixes
  // the brightness of each of its cells.
  lemma SameLookIff(im: Image, cols: nat, rows: nat, gamma: real -> real)
    requires Complete(im) && cols > 0 && rows > 0
    ensures
      (forall ramp, r, c :: ramp != "" && 0 <= r < rows && 0 <= c < cols ==>
         FallbackCell(im, r, c, rows, cols, ramp, gamma).glyph == Some(CompiledCell(im, r, c, rows, cols, ramp).glyph))
      <==> forall r, c :: 0 <= r < rows && 0 <= c < cols ==>
             Clamp(gamma(Mean(im, r, c, rows, cols))) == Mean(im, r, c, rows, cols)
  {
    CellsThereIff(im, rows, cols);
    forall r, c | 0 <= r < rows && 0 <= c < cols
      ensures (forall ramp :: ramp != "" ==>
        (FallbackCell(im, r, c, rows, cols, ramp, gamma).glyph == Some(CompiledCell(im, r, c, rows, cols, ramp).glyph)))
        <==> Clamp(gamma(Mean(im, r, c, rows, cols))) == Mean(im, r, c, rows, cols)
    {
      var b := Mean(im, r, c, rows, cols);
      BrightnessIsTheMean(im, r, c, rows, cols);
      GlyphsAgreeIff(b, gamma);
      assert forall ramp :: SameGlyph(b, ramp, gamma) <==>
        FallbackCell(im, r, c, rows, cols, ramp, gamma).glyph == Some(CompiledCell(im, r, c, rows, cols, ramp).glyph);
    }
  }

  // On the empty ramp the compiled program falls back on its own, the page draws nothing.
  lemma EmptyRampDiffers(b: real, gamma: real -> real)
    ensures FallbackGlyph(Num(b), "", gamma) == None && !SameGlyph(b, "", gamma)
  {
  }

  // ---- What a pixel and a rung are ----

  // Each colour adds its share of the light, which for white is 1.
  lemma ColoursAdd(r: Byte, g: Byte, b: Byte)
    ensures Luminance(r, g, b) == Luminance(r, 0, 0) + Luminance(0, g, 0) + Luminance(0, 0, b)
    ensures Luminance(255, 0, 0) == 0.299 && Luminance(0, 255, 0) == 0.587 && Luminance(0, 0, 255) == 0.114
    ensures Luminance(255, 255, 255) == 1.0 && Luminance(0, 0, 0) == 0.0
    ensures Luminance(r, 0, 0) * 255.0 == r as real * 0.299 && Luminance(0, g, 0) * 255.0 == g as real * 0.587
    ensures Luminance(0, 0, b) * 255.0 == b as real * 0.114
  {
  }

  // The buffer holds the image row by row, four bytes a pixel: red, green, blue and opacity.
  lemma PixelOfRow(im: Image, before: seq<Byte>, row: seq<Byte>, after: seq<Byte>, x: nat, y: nat)
    requires im.pixels == before + row + after
    requires |before| == 4 * (im.width * y) && |row| == 4 * im.width && x < im.width
    ensures PixelLight(im, x, y) == Luminance(row[4 * x], row[4 * x + 1], row[4 * x + 2])
    ensures Present(im, x, y)
  {
    var i := Offset(x, y, im.width);
    assert i == |before| + 4 * x;
    assert im.pixels[i] == row[4 * x] && im.pixels[i+1] == row[4 * x + 1] && im.pixels[i+2] == row[4 * x + 2];
  }

  // A ramp of n glyphs has n - 1 steps of equal height, and a brightness draws the glyph of
  // the highest it reaches: rung k, from k steps up to short of k + 1.
  predicate Reaches(p: real, n: nat, k: nat) { n > 0 && k as real <= p * (n - 1) as real < k as real + 1.0 }

  lemma RungReached(p: real, n: nat, k: nat)
    requires 0.0 <= p <= 1.0 && Reaches(p, n, k)
    ensures Rung(p, n) == k
  {
    RungIsFloor(p, n);
    assert Climb(p, n) == p * (n - 1) as real;
  }

  lemma GlyphIs(b: real, ramp: string, gamma: real -> real, k: nat)
    requires 0.0 <= b <= 1.0 && k < |ramp|
    ensures Reaches(b, |ramp|, k) ==> CompiledGlyph(b, ramp) == ramp[k]
    ensures 0.0 <= gamma(b) <= 1.0 && Reaches(gamma(b), |ramp|, k) ==>
      FallbackGlyph(Num(b), ramp, gamma) == Some(ramp[k])
  {
    if Reaches(b, |ramp|, k) { RungReached(b, |ramp|, k); }
    if 0.0 <= gamma(b) <= 1.0 && Reaches(gamma(b), |ramp|, k) { RungReached(gamma(b), |ramp|, k); }
  }

  lemma GlyphsOutside(b: real, ramp: string)
    requires ramp != ""
    ensures b <= 0.0 ==> CompiledGlyph(b, ramp) == ramp[0]
    ensures b >= 1.0 ==> CompiledGlyph(b, ramp) == ramp[|ramp|-1]
  {
  }

  // Row-major order.
  function Place(r: nat, c: nat, cols: nat): nat { r * cols + c }

  lemma {:induction false} FlatAt<T>(g: seq<seq<T>>, cols: nat, r: nat, c: nat)
    requires (forall i :: 0 <= i < |g| ==> |g[i]| == cols) && r < |g| && c < cols
    ensures Place(r, c, cols) < |Flat(g)| && Flat(g)[Place(r, c, cols)] == g[r][c]
  {
    var n := |g| - 1;
    FlatLength(g, cols);
    FlatLength(g[..n], cols);
    TimesKeepsOrder(r + 1, |g|, cols);
    if r < n {
      FlatAt(g[..n], cols, r, c);
    }
  }

  // The compiled program's output, cell by cell: that in row r and column c of the grid comes
  // after r whole rows and c cells, with the mean of its own block of pixels.
  lemma OutputAt(im: Image, cols: nat, rows: nat, ramp: string, r: nat, c: nat)
    requires r < rows && c < cols
    ensures
      var out, b := Flat(CompiledGrid(im, cols, rows, ramp)), Mean(im, r, c, rows, cols);
      Place(r, c, cols) < |out| && out[Place(r, c, cols)] == Cell(CompiledGlyph(b, ramp), b)
  {
    FlatAt(CompiledGrid(im, cols, rows, ramp), cols, r, c);
  }

  // And the page's.
  lemma FallbackAt(im: Image, cols: nat, rows: nat, ramp: string, gamma: real -> real, r: nat, c: nat)
    requires r < rows && c < cols && Complete(im)
    ensures
      var cell, b := FallbackGrid(im, cols, rows, ramp, gamma)[r][c], Mean(im, r, c, rows, cols);
      cell == Cell(FallbackGlyph(Num(b), ramp, gamma), Num(b))
  {
    CellsThereIff(im, rows, cols);
  }
}
