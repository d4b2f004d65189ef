// The two rasterisers on the curve the page ships with: perceived brightness is the power
// 0.6 of the mean, given by its defining equation, its fifth power being the cube.
module ShippedCurve {
  import opened Options
  import opened PixelGrid
  import opened PixelGridTheorems

  function Power(p: real, n: nat): real {
    if n == 0 then 1.0 else Power(p, n - 1) * p
  }

  lemma {:induction false} PowerGrows(p: real, q: real, n: nat)
    requires 0.0 <= p < q && n > 0
    ensures 0.0 <= Power(p, n) < Power(q, n)
  {
    if n == 1 {
      assert Power(p, 0) == 1.0 && Power(q, 0) == 1.0;
    } else {
      PowerGrows(p, q, n - 1);
      ProductGrows(Power(p, n - 1), Power(q, n - 1), p, q);
    }
  }

  lemma ProductGrows(a: real, b: real, p: real, q: real)
    requires 0.0 <= a < b && 0.0 <= p < q
    ensures 0.0 <= a * p < b * q
  {
    assert (b - a) * q > 0.0 && a * (q - p) >= 0.0;
    assert a * p >= 0.0;
    assert b * q - a * p == (b - a) * q + a * (q - p);
  }

  lemma FifthPower(p: real)
    ensures Power(p, 5) == p * p * p * p * p && Power(p, 3) == p * p * p
  {
    assert Power(p, 0) == 1.0;
    assert Power(p, 1) == p;
    assert Power(p, 2) == p * p;
    assert Power(p, 3) == p * p * p;
    assert Power(p, 4) == p * p * p * p;
  }

  // The power 0.6 of one half.
  lemma GammaAtHalf(p: real)
    requires p >= 0.0 && Power(p, 5) == Power(0.5, 3)
    ensures 0.65 < p < 0.67
  {
    FifthPower(0.5);
    FifthPower(0.65);
    FifthPower(0.67);
    if p < 0.65 { PowerGrows(p, 0.65, 5); }
    if p > 0.67 { PowerGrows(0.67, p, 5); }
  }

  lemma TwoPixelCell(f: (nat, nat) -> real, im: Image)
    requires im.width == 2 && im.height == 1
    ensures CellSum(f, im, 0, 0, 1, 1) == f(0, 0) + f(1, 0)
  {
    assert Bound(0, 1, 2) == 0 && Bound(1, 1, 2) == 2 && Bound(0, 1, 1) == 0 && Bound(1, 1, 1) == 1;
    TwoPixelSum(f);
  }

  lemma TwoPixelMean(im: Image)
    requires im.width == 2 && im.height == 1 && Present(im, 0, 0) && Present(im, 1, 0)
    ensures Mean(im, 0, 0, 1, 1) == (PixelLight(im, 0, 0) + PixelLight(im, 1, 0)) / 2.0
  {
    TwoPixelCell(Light(im), im);
    TwoPixelCell(Count(im), im);
    var light, count := CellSum(Light(im), im, 0, 0, 1, 1), CellSum(Count(im), im, 0, 0, 1, 1);
    assert light == PixelLight(im, 0, 0) + PixelLight(im, 1, 0);
    assert count == 2.0;
  }

  lemma TwoPixelSum(f: (nat, nat) -> real)
    ensures BlockSum(f, 0, 2, 0, 1) == f(0, 0) + f(1, 0)
  {
    assert RowSum(f, 0, 0, 0) == 0.0;
    assert RowSum(f, 0, 0, 1) == f(0, 0);
    assert RowSum(f, 0, 0, 2) == f(0, 0) + f(1, 0);
    assert BlockSum(f, 0, 2, 0, 0) == 0.0;
  }

  // Two pixels of middle grey, one just darker and one just lighter.
  predicate MiddleGrey(im: Image) {
    && im.width == 2 && im.height == 1 && |im.pixels| == 8
    && im.pixels[0] == 127 && im.pixels[1] == 127 && im.pixels[2] == 127
    && im.pixels[4] == 128 && im.pixels[5] == 128 && im.pixels[6] == 128
  }

  lemma MiddleGreyPixels(im: Image)
    requires MiddleGrey(im)
    ensures Present(im, 0, 0) && PixelLight(im, 0, 0) == 127.0 / 255.0
    ensures Present(im, 1, 0) && PixelLight(im, 1, 0) == 128.0 / 255.0
  {
  }

  lemma MiddleGreyMean(im: Image)
    requires MiddleGrey(im)
    ensures Complete(im) && Mean(im, 0, 0, 1, 1) == 0.5
  {
    FullIsComplete(im);
    MiddleGreyPixels(im);
    TwoPixelMean(im);
  }

  // The two do differ on the ramp both ship with: for one cell over two middle grey pixels,
  // and a curve that takes one half to near its power 0.6 (see GammaAtHalf), the compiled
  // program draws a t and the page a U.
  lemma MiddleGreyDiffers(im: Image, gamma: real -> real)
    requires MiddleGrey(im) && 0.65 < gamma(0.5) < 0.67
    ensures Complete(im) && CompiledCell(im, 0, 0, 1, 1, DEFAULT_RAMP).glyph == 't'
    ensures FallbackCell(im, 0, 0, 1, 1, DEFAULT_RAMP, gamma).glyph == Some('U')
  {
    MiddleGreyMean(im);
    CellsThereIff(im, 1, 1);
    GlyphAtHalf(gamma);
  }

  lemma GlyphAtHalf(gamma: real -> real)
    requires 0.65 < gamma(0.5) < 0.67
    ensures CompiledGlyph(0.5, DEFAULT_RAMP) == 't' && FallbackGlyph(Num(0.5), DEFAULT_RAMP, gamma) == Some('U')
  {
    var q := gamma(0.5);
    assert Climb(0.5, 32) == 15.5;
    assert 20.0 <= Climb(q, 32) < 21.0;
    assert |DEFAULT_RAMP| == 32 && DEFAULT_RAMP[15] == 't' && DEFAULT_RAMP[20] == 'U';
  }

  // ---- Where the curve changes nothing ----

  ghost predicate Shipped(gamma: real -> real) {
    forall p: real :: 0.0 <= p <= 1.0 ==> gamma(p) >= 0.0 && Power(gamma(p), 5) == Power(p, 3)
  }

  lemma PowerOfOne(n: nat)
    ensures Power(1.0, n) == 1.0 && (n > 0 ==> Power(0.0, n) == 0.0)
  {
  }

  lemma FifthBelowThird(p: real)
    requires 0.0 < p < 1.0
    ensures Power(p, 5) < Power(p, 3)
  {
    FifthPower(p);
    PowerGrows(0.0, p, 3);
    PowerOfOne(3);
    ProductGrows(0.0, p, 0.0, 1.0);
    var cube, square := Power(p, 3), p * p;
    assert square < 1.0 by { assert p * p < p; }
    assert Power(p, 5) == Product(cube, square);
    ProductShrinks(cube, square);
  }

  lemma ProductShrinks(a: real, b: real)
    requires a > 0.0 && b < 1.0
    ensures Product(a, b) < a
  {
    assert a * (1.0 - b) > 0.0;
  }

  // The curve brightens everything but black and white.
  lemma CurveBrightens(p: real, q: real)
    requires 0.0 <= p <= 1.0 && q >= 0.0 && Power(q, 5) == Power(p, 3)
    ensures p <= q <= 1.0 && (q == p <==> p == 0.0 || p == 1.0)
  {
    PowerOfOne(5);
    PowerOfOne(3);
    if q > 1.0 { PowerGrows(1.0, q, 5); }
    if p < 1.0 { PowerGrows(p, 1.0, 3); }
    if p == 0.0 {
      if q > 0.0 { PowerGrows(0.0, q, 5); }
    } else if p == 1.0 {
      if q < 1.0 { PowerGrows(q, 1.0, 5); }
    } else {
      FifthBelowThird(p);
      if q < p { PowerGrows(q, p, 5); }
    }
  }

  // ---- Wholly black, wholly white ----

  predicate Black(im: Image, x: nat, y: nat) {
    var i := Offset(x, y, im.width);
    i + 2 < |im.pixels| && im.pixels[i] == im.pixels[i+1] == im.pixels[i+2] == 0
  }

  predicate White(im: Image, x: nat, y: nat) {
    var i := Offset(x, y, im.width);
    i + 2 < |im.pixels| && im.pixels[i] == im.pixels[i+1] == im.pixels[i+2] == 255
  }

  lemma PixelExtremes(im: Image, x: nat, y: nat)
    requires Present(im, x, y)
    ensures PixelLight(im, x, y) == 0.0 <==> Black(im, x, y)
    ensures PixelLight(im, x, y) == 1.0 <==> White(im, x, y)
  {
  }

  ghost predicate CellBlack(im: Image, row: nat, col: nat, rows: nat, cols: nat)
    requires rows > 0 && cols > 0
  {
    forall x: nat, y: nat | Covers(im, row, col, rows, cols, x, y) :: Black(im, x, y)
  }

  ghost predicate CellWhite(im: Image, row: nat, col: nat, rows: nat, cols: nat)
    requires rows > 0 && cols > 0
  {
    forall x: nat, y: nat | Covers(im, row, col, rows, cols, x, y) :: White(im, x, y)
  }

  ghost predicate Below(f: (nat, nat) -> real, g: (nat, nat) -> real) {
    forall x: nat, y: nat :: f(x, y) <= g(x, y)
  }

  // Of two sums term below term, only those that agree everywhere are equal.
  lemma {:induction false} RowsEqualIff(f: (nat, nat) -> real, g: (nat, nat) -> real, y: nat, x0: nat, x1: nat)
    requires Below(f, g)
    ensures RowSum(f, y, x0, x1) <= RowSum(g, y, x0, x1)
    ensures RowSum(f, y, x0, x1) == RowSum(g, y, x0, x1) <==> forall x: nat :: x0 <= x < x1 ==> f(x, y) == g(x, y)
    decreases x1
  {
    if x0 < x1 {
      RowsEqualIff(f, g, y, x0, x1 - 1);
      assert f(x1 - 1, y) <= g(x1 - 1, y);
    }
  }

  lemma {:induction false} BlocksEqualIff(f: (nat, nat) -> real, g: (nat, nat) -> real,
                                          x0: nat, x1: nat, y0: nat, y1: nat)
    requires Below(f, g)
    ensures BlockSum(f, x0, x1, y0, y1) <= BlockSum(g, x0, x1, y0, y1)
    ensures BlockSum(f, x0, x1, y0, y1) == BlockSum(g, x0, x1, y0, y1)
      <==> forall x: nat, y: nat :: x0 <= x < x1 && y0 <= y < y1 ==> f(x, y) == g(x, y)
    decreases y1
  {
    if y0 < y1 {
      BlocksEqualIff(f, g, x0, x1, y0, y1 - 1);
      RowsEqualIff(f, g, y1 - 1, x0, x1);
    }
  }

  function Dark(): (nat, nat) -> real { (x: nat, y: nat) => 0.0 }

  lemma {:induction false} DarkRow(y: nat, x0: nat, x1: nat)
    ensures RowSum(Dark(), y, x0, x1) == 0.0
    decreases x1
  {
    if x0 < x1 { DarkRow(y, x0, x1 - 1); }
  }

  lemma {:induction false} DarkBlock(x0: nat, x1: nat, y0: nat, y1: nat)
    ensures BlockSum(Dark(), x0, x1, y0, y1) == 0.0
    decreases y1
  {
    if y0 < y1 {
      DarkBlock(x0, x1, y0, y1 - 1);
      DarkRow(y1 - 1, x0, x1);
    }
  }

  lemma LightIsBetween(im: Image)
    ensures Below(Dark(), Light(im)) && Below(Light(im), Count(im))
  {
    forall x: nat, y: nat
      ensures Dark()(x, y) <= Light(im)(x, y) <= Count(im)(x, y)
    {
      PixelInRange(im, x, y);
    }
  }

  lemma CoveredIsPresent(im: Image, row: nat, col: nat, rows: nat, cols: nat, x: nat, y: nat)
    requires Complete(im) && row < rows && col < cols && Covers(im, row, col, rows, cols, x, y)
    ensures Present(im, x, y)
  {
    BoundsTile(col, cols, im.width);
    BoundsTile(row, rows, im.height);
  }

  // A cell gives no light exactly when it is black, and all it can when it is white.
  lemma CellExtremes(im: Image, row: nat, col: nat, rows: nat, cols: nat)
    requires Complete(im) && row < rows && col < cols
    ensures CellSum(Light(im), im, row, col, rows, cols) == 0.0 <==> CellBlack(im, row, col, rows, cols)
    ensures CellSum(Light(im), im, row, col, rows, cols) == CellSum(Count(im), im, row, col, rows, cols)
      <==> CellWhite(im, row, col, rows, cols)
  {
    var x0, x1 := Bound(col, cols, im.width), Bound(col + 1, cols, im.width);
    var y0, y1 := Bound(row, rows, im.height), Bound(row + 1, rows, im.height);
    LightIsBetween(im);
    DarkBlock(x0, x1, y0, y1);
    BlocksEqualIff(Dark(), Light(im), x0, x1, y0, y1);
    BlocksEqualIff(Light(im), Count(im), x0, x1, y0, y1);
    forall x: nat, y: nat | Covers(im, row, col, rows, cols, x, y)
      ensures Dark()(x, y) == Light(im)(x, y) <==> Black(im, x, y)
      ensures Light(im)(x, y) == Count(im)(x, y) <==> White(im, x, y)
    {
      CoveredIsPresent(im, row, col, rows, cols, x, y);
      PixelExtremes(im, x, y);
    }
  }

  lemma QuotientExtremes(a: real, b: real)
    requires 0.0 <= a <= b && b > 0.0
    ensures a / b == 0.0 <==> a == 0.0
    ensures a / b == 1.0 <==> a == b
  {
  }

  lemma MeanExtremes(im: Image, row: nat, col: nat, rows: nat, cols: nat)
    requires Complete(im) && row < rows && col < cols
    ensures Mean(im, row, col, rows, cols) == 0.0 || Mean(im, row, col, rows, cols) == 1.0
      <==> CellBlack(im, row, col, rows, cols) || CellWhite(im, row, col, rows, cols)
  {
    CellExtremes(im, row, col, rows, cols);
    LightWithinCount(im, row, col, rows, cols);
    var light, count := CellSum(Light(im), im, row, col, rows, cols), CellSum(Count(im), im, row, col, rows, cols);
    if count > 0.0 { QuotientExtremes(light, count); }
  }

  lemma LightWithinCount(im: Image, row: nat, col: nat, rows: nat, cols: nat)
    requires rows > 0 && cols > 0
    ensures 0.0 <= CellSum(Light(im), im, row, col, rows, cols) <= CellSum(Count(im), im, row, col, rows, cols)
  {
    BlockInRange(im, Bound(col, cols, im.width), Bound(col + 1, cols, im.width),
                 Bound(row, rows, im.height), Bound(row + 1, rows, im.height));
  }

  // With the shipped curve the two programs draw an image alike, on every ramp, exactly
  // when each of its cells is wholly black or wholly white.
  lemma ShippedLookIff(im: Image, cols: nat, rows: nat, gamma: real -> real)
    requires Complete(im) && cols > 0 && rows > 0 && Shipped(gamma)
    ensures
      (forall ramp, r, c :: ramp != "" && 0 <= r < rows && 0 <= c < cols ==>
         FallbackCell(im, r, c, rows, cols, ramp, gamma).glyph == Some(CompiledCell(im, r, c, rows, cols, ramp).glyph))
      <==> forall r, c :: 0 <= r < rows && 0 <= c < cols ==>
             CellBlack(im, r, c, rows, cols) || CellWhite(im, r, c, rows, cols)
  {
    SameLookIff(im, cols, rows, gamma);
    forall r, c | 0 <= r < rows && 0 <= c < cols
      ensures Clamp(gamma(Mean(im, r, c, rows, cols))) == Mean(im, r, c, rows, cols)
        <==> CellBlack(im, r, c, rows, cols) || CellWhite(im, r, c, rows, cols)
    {
      BrightnessIsTheMean(im, r, c, rows, cols);
      CurveBrightens(Mean(im, r, c, rows, cols), gamma(Mean(im, r, c, rows, cols)));
      MeanExtremes(im, r, c, rows, cols);
    }
  }
}
