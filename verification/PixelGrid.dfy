// Downsampling an RGBA image into a grid of character cells: the compiled rasteriser, its
// fallback, and the two-byte packing between the compiled one and the page.
module PixelGrid {
  import opened Options

  type Byte = b: int | 0 <= b < 256

  datatype Image = Image(pixels: seq<Byte>, width: nat, height: nat)
  // The compiled program computes a real brightness; the page a JavaScript number.
  datatype Number = NaN | Num(value: real)
  datatype Cell<G, B> = Cell(glyph: G, brightness: B)

  const DEFAULT_RAMP := " `.'-_:;~!>+|LTtIZeXUG#&RQBMN$W@"

  // ---- Cell bounds ----

  // floor(i * len / n): where the i-th of n cells begins along a side of `len` pixels.
  function Bound(i: nat, n: nat, len: nat): nat
    requires n > 0
  {
    i * len / n
  }

  function Least(a: int, b: int): int { if a < b then a else b }

  lemma TimesKeepsOrder(a: int, b: int, n: nat)
    ensures a <= b ==> a * n <= b * n
  {
  }

  lemma OverKeepsOrder(a: nat, b: nat, n: nat)
    requires n > 0 && a <= b
    ensures a / n <= b / n
  {
    TimesKeepsOrder(b / n + 1, a / n, n);
  }

  lemma TimesThenOver(a: nat, n: nat)
    requires n > 0
    ensures n * a / n == a
  {
    var q := n * a / n;
    assert n * a == q * n + n * a % n;
    TimesKeepsOrder(q + 1, a, n);
    TimesKeepsOrder(a + 1, q, n);
  }

  // A cell lies within the side, and begins where its predecessor ends.
  lemma BoundsTile(i: nat, n: nat, len: nat)
    requires i < n
    ensures Bound(0, n, len) == 0 <= Bound(i, n, len) <= Bound(i + 1, n, len) <= Bound(n, n, len) == len
  {
    TimesKeepsOrder(i, i + 1, len);
    OverKeepsOrder(i * len, (i + 1) * len, n);
    TimesKeepsOrder(i + 1, n, len);
    OverKeepsOrder((i + 1) * len, n * len, n);
    TimesThenOver(len, n);
  }

  // The two programs compute a bound from the cell's size, a fraction.
  function Edge(i: nat, n: nat, len: nat): int
    requires n > 0
  {
    (i as real * (len as real / n as real)).Floor
  }

  lemma FloorIsBound(i: nat, n: nat, len: nat)
    requires n > 0
    ensures Edge(i, n, len) == Bound(i, n, len)
  {
    var m := i * len;
    var q, r := m / n, m % n;
    var rest := r as real / n as real;
    assert m == q * n + r;
    assert i as real * len as real == m as real;
    assert i as real * (len as real / n as real) == m as real / n as real;
    QuotientSplits(q, r, n);
    assert 0.0 <= rest < 1.0;
  }

  lemma QuotientSplits(q: nat, r: nat, n: nat)
    requires n > 0
    ensures (q * n + r) as real / n as real == q as real + r as real / n as real
  {
    assert (q * n) as real == q as real * n as real;
  }

  // ---- Sums over blocks of pixels ----

  function RowSum(f: (nat, nat) -> real, y: nat, x0: nat, x1: nat): real
    decreases x1
  {
    if x1 <= x0 then 0.0 else RowSum(f, y, x0, x1 - 1) + f(x1 - 1, y)
  }

  function BlockSum(f: (nat, nat) -> real, x0: nat, x1: nat, y0: nat, y1: nat): real
    decreases y1
  {
    if y1 <= y0 then 0.0 else BlockSum(f, x0, x1, y0, y1 - 1) + RowSum(f, y1 - 1, x0, x1)
  }

  function CellSum(f: (nat, nat) -> real, im: Image, row: nat, col: nat, rows: nat, cols: nat): real
    requires rows > 0 && cols > 0
  {
    BlockSum(f, Bound(col, cols, im.width), Bound(col + 1, cols, im.width),
                Bound(row, rows, im.height), Bound(row + 1, rows, im.height))
  }

  // ---- Brightness ----

  function Luminance(r: Byte, g: Byte, b: Byte): real {
    (0.299 * r as real + 0.587 * g as real + 0.114 * b as real) / 255.0
  }

  function Offset(x: nat, y: nat, width: nat): nat { (y * width + x) * 4 }

  predicate Present(im: Image, x: nat, y: nat) { Offset(x, y, im.width) + 2 < |im.pixels| }

  function PixelLight(im: Image, x: nat, y: nat): real {
    var i := Offset(x, y, im.width);
    if i + 2 < |im.pixels| then Luminance(im.pixels[i], im.pixels[i+1], im.pixels[i+2]) else 0.0
  }

  function Light(im: Image): (nat, nat) -> real { (x: nat, y: nat) => PixelLight(im, x, y) }

  function Count(im: Image): (nat, nat) -> real { (x: nat, y: nat) => if Present(im, x, y) then 1.0 else 0.0 }

  // The mean luminance of the pixels of a cell, zero for a cell without pixels.
  function Mean(im: Image, row: nat, col: nat, rows: nat, cols: nat): real
    requires rows > 0 && cols > 0
  {
    var count := CellSum(Count(im), im, row, col, rows, cols);
    if count > 0.0 then CellSum(Light(im), im, row, col, rows, cols) / count else 0.0
  }

  // ---- Glyphs ----

  function Clamp(b: real): real { if b < 0.0 then 0.0 else if b > 1.0 then 1.0 else b }

  function Climb(perceived: real, n: nat): real { perceived * (n - 1) as real }

  // The rung of a ramp of n glyphs for a perceived brightness.
  function Rung(perceived: real, n: nat): int {
    var rung := Climb(perceived, n).Floor;
    Least(n - 1, if rung < 0 then 0 else rung)
  }

  // ramp.rs: linear, with a default for the empty ramp.
  function CompiledGlyph(brightness: real, ramp: string): char {
    var chars := if ramp == "" then DEFAULT_RAMP else ramp;
    chars[Rung(Clamp(brightness), |chars|)]
  }

  // fallback.ts: `gamma` stands for raising to the power 0.6; an empty ramp, or a brightness
  // that is not a number, has no glyph.
  function FallbackGlyph(brightness: Number, ramp: string, gamma: real -> real): Option<char> {
    if brightness.NaN? then None
    else
      var i := Rung(gamma(Clamp(brightness.value)), |ramp|);
      if 0 <= i < |ramp| then Some(ramp[i]) else None
  }

  // ---- The two rasterisers ----

  function Flat<T>(grid: seq<seq<T>>): seq<T> {
    if grid == [] then [] else Flat(grid[..|grid|-1]) + grid[|grid|-1]
  }

  function AtLeastOne(n: nat): nat { if n == 0 then 1 else n }

  function CompiledCell(im: Image, row: nat, col: nat, rows: nat, cols: nat, ramp: string): Cell<char, real>
    requires rows > 0 && cols > 0
  {
    Cell(CompiledGlyph(Mean(im, row, col, rows, cols), ramp), Mean(im, row, col, rows, cols))
  }

  function CompiledGrid(im: Image, cols: nat, rows: nat, ramp: string): seq<seq<Cell<char, real>>>
    requires rows > 0 && cols > 0
  {
    seq(rows, r requires 0 <= r < rows =>
      seq(cols, c requires 0 <= c < cols => CompiledCell(im, r, c, rows, cols, ramp)))
  }

  // Whether the buffer holds the pixels of a block.
  predicate RowThere(im: Image, y: nat, x0: nat, x1: nat)
    decreases x1
  {
    x1 <= x0 || (RowThere(im, y, x0, x1 - 1) && Present(im, x1 - 1, y))
  }

  predicate BlockThere(im: Image, x0: nat, x1: nat, y0: nat, y1: nat)
    decreases y1
  {
    y1 <= y0 || (BlockThere(im, x0, x1, y0, y1 - 1) && RowThere(im, y1 - 1, x0, x1))
  }

  predicate CellThere(im: Image, row: nat, col: nat, rows: nat, cols: nat)
    requires rows > 0 && cols > 0
  {
    BlockThere(im, Bound(col, cols, im.width), Bound(col + 1, cols, im.width),
                   Bound(row, rows, im.height), Bound(row + 1, rows, im.height))
  }

  // A pixel past the end of the buffer makes the mean of its cell not a number.
  function FallbackMean(im: Image, row: nat, col: nat, rows: nat, cols: nat): Number
    requires rows > 0 && cols > 0
  {
    if CellThere(im, row, col, rows, cols) then Num(Mean(im, row, col, rows, cols)) else NaN
  }

  function FallbackCell(im: Image, row: nat, col: nat, rows: nat, cols: nat, ramp: string, gamma: real -> real)
    : Cell<Option<char>, Number>
    requires rows > 0 && cols > 0
  {
    Cell(FallbackGlyph(FallbackMean(im, row, col, rows, cols), ramp, gamma), FallbackMean(im, row, col, rows, cols))
  }

  function FallbackGrid(im: Image, cols: nat, rows: nat, ramp: string, gamma: real -> real)
    : seq<seq<Cell<Option<char>, Number>>>
  {
    seq(rows, r requires 0 <= r < rows =>
      seq(cols, c requires 0 <= c < cols => FallbackCell(im, r, c, rows, cols, ramp, gamma)))
  }

  // The bounds of a cell along one side, as both programs compute them.
  method CellBounds(i: nat, n: nat, len: nat) returns (lo: nat, hi: nat)
    requires i < n
    ensures lo == Bound(i, n, len) <= hi == Bound(i + 1, n, len) <= len
  {
    FloorIsBound(i, n, len);
    FloorIsBound(i + 1, n, len);
    BoundsTile(i, n, len);
    lo := Edge(i, n, len);
    hi := Least(Edge(i + 1, n, len), len);
  }

  // The inner loops of rasterize_grid: a pixel past the end of the buffer is skipped.
  method AveragePresent(im: Image, x0: nat, x1: nat, y0: nat, y1: nat) returns (brightness: real)
    requires x0 <= x1 && y0 <= y1
    ensures var count := BlockSum(Count(im), x0, x1, y0, y1);
      brightness == if count > 0.0 then BlockSum(Light(im), x0, x1, y0, y1) / count else 0.0
  {
    var total, count := 0.0, 0.0;
    for y := y0 to y1
      invariant total == BlockSum(Light(im), x0, x1, y0, y)
      invariant count == BlockSum(Count(im), x0, x1, y0, y)
    {
      for x := x0 to x1
        invariant total == BlockSum(Light(im), x0, x1, y0, y) + RowSum(Light(im), y, x0, x)
        invariant count == BlockSum(Count(im), x0, x1, y0, y) + RowSum(Count(im), y, x0, x)
      {
        var i := Offset(x, y, im.width);
        if i + 2 >= |im.pixels| { continue; }
        total := total + Luminance(im.pixels[i], im.pixels[i+1], im.pixels[i+2]);
        count := count + 1.0;
      }
    }
    brightness := if count > 0.0 then total / count else 0.0;
  }

  // rasterize_grid: cells in row-major order.
  method RasterizeGrid(im: Image, cols0: nat, rows0: nat, ramp: string) returns (out: seq<Cell<char, real>>)
    ensures out == Flat(CompiledGrid(im, AtLeastOne(cols0), AtLeastOne(rows0), ramp))
  {
    var cols, rows := AtLeastOne(cols0), AtLeastOne(rows0);
    ghost var grid := CompiledGrid(im, cols, rows, ramp);
    out := [];
    for row := 0 to rows
      invariant out == Flat(grid[..row])
    {
      ghost var before := out;
      for col := 0 to cols
        invariant out == before + grid[row][..col]
      {
        var x0, x1 := CellBounds(col, cols, im.width);
        var y0, y1 := CellBounds(row, rows, im.height);
        var brightness := AveragePresent(im, x0, x1, y0, y1);
        assert brightness == Mean(im, row, col, rows, cols);
        out := out + [Cell(CompiledGlyph(brightness, ramp), brightness)];
      }
      assert out == before + grid[row];
      assert grid[..row+1][..row] == grid[..row];
    }
    assert grid[..rows] == grid;
  }

  // The inner loops of rasterizeFallback: a pixel past the end of the buffer reads as
  // undefined, and a sum with it is not a number.
  method AverageAll(im: Image, x0: nat, x1: nat, y0: nat, y1: nat) returns (brightness: Number)
    requires x0 <= x1 && y0 <= y1
    ensures var count := BlockSum(Count(im), x0, x1, y0, y1);
      brightness ==
        if !BlockThere(im, x0, x1, y0, y1) then NaN
        else if count > 0.0 then Num(BlockSum(Light(im), x0, x1, y0, y1) / count) else Num(0.0)
  {
    var total, count := Num(0.0), 0.0;
    for y := y0 to y1
      invariant count >= 0.0
      invariant if BlockThere(im, x0, x1, y0, y)
                then total == Num(BlockSum(Light(im), x0, x1, y0, y)) && count == BlockSum(Count(im), x0, x1, y0, y)
                else total.NaN? && count > 0.0
    {
      for x := x0 to x1
        invariant count >= 0.0
        invariant if BlockThere(im, x0, x1, y0, y) && RowThere(im, y, x0, x)
                  then && total == Num(BlockSum(Light(im), x0, x1, y0, y) + RowSum(Light(im), y, x0, x))
                       && count == BlockSum(Count(im), x0, x1, y0, y) + RowSum(Count(im), y, x0, x)
                  else total.NaN? && count > 0.0
      {
        total := Plus(total, ReadLuminance(im, Offset(x, y, im.width)));
        count := count + 1.0;
      }
    }
    if count > 0.0 {
      brightness := if total.NaN? then NaN else Num(total.value / count);
    } else {
      brightness := Num(0.0);
    }
  }

  function Plus(a: Number, b: Number): Number {
    if a.NaN? || b.NaN? then NaN else Num(a.value + b.value)
  }

  function ReadLuminance(im: Image, i: nat): Number {
    if i + 2 < |im.pixels| then Num(Luminance(im.pixels[i], im.pixels[i+1], im.pixels[i+2])) else NaN
  }

  // rasterizeFallback.
  method RasterizeFallback(im: Image, cols: nat, rows: nat, ramp: string, gamma: real -> real)
    returns (grid: seq<seq<Cell<Option<char>, Number>>>)
    ensures grid == FallbackGrid(im, cols, rows, ramp, gamma)
  {
    ghost var whole := FallbackGrid(im, cols, rows, ramp, gamma);
    grid := [];
    for row := 0 to rows
      invariant grid == whole[..row]
    {
      var cells := [];
      for col := 0 to cols
        invariant cells == whole[row][..col]
      {
        var x0, x1 := CellBounds(col, cols, im.width);
        var y0, y1 := CellBounds(row, rows, im.height);
        var brightness := AverageAll(im, x0, x1, y0, y1);
        assert brightness == FallbackMean(im, row, col, rows, cols);
        cells := cells + [Cell(FallbackGlyph(brightness, ramp, gamma), brightness)];
      }
      assert cells == whole[row];
      grid := grid + [cells];
    }
  }
}
