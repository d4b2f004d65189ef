// The two bytes per cell in which the compiled rasteriser hands a grid to the page.
module Packing {
  import opened Options
  import opened PixelGrid
  import opened PixelGridTheorems

  // `ch as u8` keeps the low byte of the code point.
  function CharByte(ch: char): Byte { ch as int % 256 }

  // A float cast to u8 rounds down.
  function BrightnessByte(b: real): Byte { (Clamp(b) * 255.0).Floor }

  function Packed(cells: seq<Cell<char, real>>): (packed: seq<Byte>)
    ensures |packed| == 2 * |cells|
  {
    seq(2 * |cells|, i requires 0 <= i < 2 * |cells| =>
      if i % 2 == 0 then CharByte(cells[i / 2].glyph) else BrightnessByte(cells[i / 2].brightness))
  }

  // rasterize in lib.rs, from the rasterised grid on.
  method Pack(grid: seq<Cell<char, real>>) returns (out: seq<Byte>)
    ensures out == Packed(grid)
  {
    out := [];
    for i := 0 to |grid|
      invariant out == Packed(grid)[..2 * i]
    {
      out := out + [CharByte(grid[i].glyph)];
      out := out + [BrightnessByte(grid[i].brightness)];
    }
  }

  function ByteAt(packed: seq<Byte>, i: nat): Option<Byte> {
    if i < |packed| then Some(packed[i]) else None
  }

  // Past the end of the array a code reads as undefined, which makes the character of code
  // 0, and a brightness as not a number.
  function CellOfBytes(code: Option<Byte>, brightness: Option<Byte>): Cell<char, Number> {
    Cell(if code.Some? then code.value as char else 0 as char,
         if brightness.Some? then Num(brightness.value as real / 255.0) else NaN)
  }

  function CellAtPair(packed: seq<Byte>, k: nat): Cell<char, Number> {
    CellOfBytes(ByteAt(packed, 2 * k), ByteAt(packed, 2 * k + 1))
  }

  function Unpacked(packed: seq<Byte>, n: nat): seq<Cell<char, Number>> {
    seq(n, k requires 0 <= k < n => CellAtPair(packed, k))
  }

  // decodeWasmGrid
  method DecodeWasmGrid(packed: seq<Byte>, cols: nat, rows: nat) returns (grid: seq<seq<Cell<char, Number>>>)
    ensures |grid| == rows && forall r :: 0 <= r < rows ==> |grid[r]| == cols
    ensures Flat(grid) == Unpacked(packed, rows * cols)
  {
    grid := [];
    var offset := 0;
    for row := 0 to rows
      invariant |grid| == row && forall r :: 0 <= r < row ==> |grid[r]| == cols
      invariant offset == 2 * (row * cols)
      invariant Flat(grid) == Unpacked(packed, row * cols)
    {
      NextRow(row, rows, cols);
      var cells := [];
      for col := 0 to cols
        invariant |cells| == col
        invariant offset == 2 * (row * cols + col)
        invariant Flat(grid) + cells == Unpacked(packed, row * cols + col)
      {
        NextPair(packed, row * cols + col);
        var charCode, brightnessByte := ByteAt(packed, offset), ByteAt(packed, offset + 1);
        offset := offset + 2;
        cells := cells + [CellOfBytes(charCode, brightnessByte)];
      }
      ghost var before := grid;
      grid := grid + [cells];
      assert grid[..row] == before;
    }
  }

  lemma NextPair(packed: seq<Byte>, k: nat)
    ensures Unpacked(packed, k + 1)
         == Unpacked(packed, k) + [CellOfBytes(ByteAt(packed, 2 * k), ByteAt(packed, 2 * k + 1))]
  {
  }

  lemma NextRow(row: nat, rows: nat, cols: nat)
    requires row < rows
    ensures (row + 1) * cols == row * cols + cols <= rows * cols
  {
    TimesKeepsOrder(row + 1, rows, cols);
  }

  // ---- The round trip ----

  // What survives of a cell.
  function Coarse(c: Cell<char, real>): Cell<char, Number> {
    CellOfBytes(Some(CharByte(c.glyph)), Some(BrightnessByte(c.brightness)))
  }

  function CoarseOf(): Cell<char, real> -> Cell<char, Number> { (c: Cell<char, real>) => Coarse(c) }

  lemma UnpackPack(cells: seq<Cell<char, real>>)
    ensures Unpacked(Packed(cells), |cells|) == Map(CoarseOf(), cells)
  {
    forall k | 0 <= k < |cells|
      ensures CellAtPair(Packed(cells), k) == Coarse(cells[k])
    {
      assert 2 * k / 2 == k && (2 * k + 1) / 2 == k;
    }
  }

  lemma RoundedDown(b: real, k: int)
    requires k == (b * 255.0).Floor
    ensures 0.0 <= b - k as real / 255.0 < 1.0 / 255.0
    ensures (k as real / 255.0 * 255.0).Floor == k
  {
  }

  // The glyph comes back exactly when its code fits in a byte; the brightness comes back
  // rounded down by less than 1/255, and once rounded it stays.
  lemma CellRoundTrip(c: Cell<char, real>)
    ensures Coarse(c).glyph == c.glyph <==> c.glyph as int < 256
    ensures Coarse(c).brightness.Num? && 0.0 <= Clamp(c.brightness) - Coarse(c).brightness.value < 1.0 / 255.0
    ensures Coarse(c.(brightness := Coarse(c).brightness.value)).brightness == Coarse(c).brightness
  {
    var k := BrightnessByte(c.brightness);
    RoundedDown(Clamp(c.brightness), k);
    var b := k as real / 255.0;
    assert Clamp(b) == b;
    assert BrightnessByte(b) == k;
  }

  // A full block, drawn by a ramp of just that glyph, is read back as a control character.
  lemma FullBlockIsLost(im: Image)
    ensures var c := CompiledCell(im, 0, 0, 1, 1, "\U{2588}");
      c.glyph == '\U{2588}' && Coarse(c).glyph == '\U{88}'
  {
    assert 0x2588 % 256 == 0x88;
  }

  // What the page reads back is the grid that was packed, cell for cell in its place, each
  // cell as coarse as its two bytes.
  lemma GridRoundTrip(g: seq<seq<Cell<char, real>>>, cols: nat, decoded: seq<seq<Cell<char, Number>>>)
    requires forall r :: 0 <= r < |g| ==> |g[r]| == cols
    requires |decoded| == |g| && forall r :: 0 <= r < |g| ==> |decoded[r]| == cols
    requires Flat(decoded) == Unpacked(Packed(Flat(g)), |g| * cols)
    ensures decoded == MapGrid(CoarseOf(), g)
  {
    FlatLength(g, cols);
    UnpackPack(Flat(g));
    FlatMap(CoarseOf(), g);
    FlatInjective(decoded, MapGrid(CoarseOf(), g), cols);
  }

  // Of the two bytes of a cell the first is the low byte of its glyph's code.
  lemma PackedAt(cells: seq<Cell<char, real>>, k: nat)
    requires k < |cells|
    ensures (cells[k].glyph as int - Packed(cells)[2 * k]) % 256 == 0
    ensures var b := Packed(cells)[2 * k + 1]; b as real <= Clamp(cells[k].brightness) * 255.0 < b as real + 1.0
  {
    assert 2 * k / 2 == k && (2 * k + 1) / 2 == k;
  }

  // Past the end of the bytes the page has the character of code 0 and no brightness.
  lemma PastTheEnd(packed: seq<Byte>, k: nat)
    ensures 2 * k >= |packed| ==> CellAtPair(packed, k) == Cell(0 as char, NaN)
    ensures 2 * k + 1 == |packed| ==> CellAtPair(packed, k) == Cell(packed[2 * k] as char, NaN)
    ensures 2 * k + 1 < |packed| ==>
      CellAtPair(packed, k) == Cell(packed[2 * k] as char, Num(packed[2 * k + 1] as real / 255.0))
  {
  }
}
