// What a cell of the shape's picture holds, in terms of the turned and the local normal of
// the point it shows, and where on the screen a point falls.
module ShapeLook {
  import opened Quaternions
  import opened ZBuffer
  import opened ZBufferTheorems

  function Size(d: real): real { if d < 0.0 then -d else d }

  // Near the silhouette a cell holds the outline's character for the turned normal,
  // elsewhere the ramp's for its own brightness.
  predicate GlyphFits(cell: ShapeCell, n: Vec, look: Look) {
    var edge := if look.sphere then 0.2 else 0.16;
    cell.glyph == if 0.05 < Size(n.z) && Size(n.z) < edge then look.contourGlyph(n) else look.rampGlyph(cell.brightness)
  }

  // A sphere is lit by how far the turned normal points at the viewer; any other shape by
  // how far the normal, not turned, points at the light, with its edges brighter but never
  // brighter than 1.
  predicate LitBy(lit: real, p: SurfacePoint, n: Vec, look: Look) {
    if look.sphere then lit == look.viewShade(-n.z)
    else
      var side := p.normal.x * look.light.x + p.normal.y * look.light.y + p.normal.z * look.light.z;
      lit <= 1.0 && lit <= look.dotShade(side) + p.edgeBoost
      && (lit == 1.0 || lit == look.dotShade(side) + p.edgeBoost)
  }

  // Occlusion takes up to 45 hundredths of it.
  ghost predicate BrightnessFits(cell: ShapeCell, p: SurfacePoint, n: Vec, look: Look) {
    exists lit: real :: LitBy(lit, p, n, look) && cell.brightness == lit - lit * p.occlusion * 0.45
  }

  ghost predicate LooksLike(cell: ShapeCell, p: SurfacePoint, v: View) {
    var n := Rotate(p.normal, v.orientation);
    GlyphFits(cell, n, v.look) && BrightnessFits(cell, p, n, v.look)
  }

  lemma Dimmed(lit: real, occlusion: real)
    ensures lit * (1.0 - INNER_OCCLUSION * occlusion) == lit - lit * occlusion * 0.45
  {
  }

  lemma ShadeOfFits(p: SurfacePoint, n: Vec, look: Look)
    ensures var cell := ShadeOf(p, -n.z, n, look); GlyphFits(cell, n, look) && BrightnessFits(cell, p, n, look)
  {
    var boosted := look.dotShade(Dot(p.normal, look.light)) + p.edgeBoost;
    var lit := if look.sphere then look.viewShade(-n.z) else if boosted < 1.0 then boosted else 1.0;
    Dimmed(lit, p.occlusion);
    assert Dot(p.normal, look.light)
        == p.normal.x * look.light.x + p.normal.y * look.light.y + p.normal.z * look.light.z;
    assert LitBy(lit, p, n, look);
  }

  lemma ShadeFits(p: SurfacePoint, v: View)
    ensures LooksLike(Shade(p, v), p, v)
  {
    ZOnlyIsZ(p.normal, v.orientation);
    ShadeOfFits(p, Rotate(p.normal, v.orientation), v.look);
  }

  // The whole picture: a cell into which no point falls is blank; any other looks like the
  // first of the nearest points that fall into it.
  lemma PictureLooks(ps: seq<SurfacePoint>, v: View, grid: seq<seq<ShapeCell>>, row: nat, col: nat)
    requires IsPicture(grid, ps, v) && row < v.rows && col < v.cols
    ensures (forall p :: p in ps ==> !Lands(p, v, row, col)) ==> grid[row][col] == ShapeCell(' ', 0.0)
    ensures (exists p :: p in ps && Lands(p, v, row, col)) ==>
      exists k: nat :: Owns(ps, v, row, col, k) && LooksLike(grid[row][col], ps[k], v)
  {
    assert Shows(ps, v, row, col, grid[row][col]);
    if exists j :: 0 <= j < |ps| && Lands(ps[j], v, row, col) {
      var k: nat :| Owns(ps, v, row, col, k) && grid[row][col] == Shade(ps[k], v);
      ShadeFits(ps[k], v);
      assert ps[k] in ps;
    }
  }

  // Turning a shape that is not a sphere leaves the brightness of its points alone.
  lemma TurningKeepsBrightness(p: SurfacePoint, v: View, q: Quat)
    requires !v.look.sphere
    ensures Shade(p, v.(orientation := q)).brightness == Shade(p, v).brightness
  {
    SameLight(p, -RotatedZOnly(p.normal, q), -RotatedZOnly(p.normal, v.orientation),
              Rotate(p.normal, q), Rotate(p.normal, v.orientation), v.look);
  }

  lemma SameLight(p: SurfacePoint, a: real, b: real, m: Vec, n: Vec, look: Look)
    requires !look.sphere
    ensures ShadeOf(p, a, m, look).brightness == ShadeOf(p, b, n, look).brightness
  {
  }

  // A sphere's point does not get darker by facing the viewer more.
  lemma FacingBrightens(p: SurfacePoint, q: SurfacePoint, v: View)
    requires v.look.sphere && p.occlusion == q.occlusion <= 1.0
    requires forall a: real, b: real :: a <= b ==> v.look.viewShade(a) <= v.look.viewShade(b)
    requires Rotate(p.normal, v.orientation).z <= Rotate(q.normal, v.orientation).z
    ensures Shade(p, v).brightness >= Shade(q, v).brightness
  {
    ZOnlyIsZ(p.normal, v.orientation);
    ZOnlyIsZ(q.normal, v.orientation);
    BrighterInFront(p, q, -Rotate(p.normal, v.orientation).z, -Rotate(q.normal, v.orientation).z, v.look);
  }

  lemma BrighterInFront(p: SurfacePoint, q: SurfacePoint, a: real, b: real, look: Look)
    requires look.sphere && p.occlusion == q.occlusion <= 1.0 && b <= a && look.viewShade(b) <= look.viewShade(a)
    ensures Luminance(p, a, look) >= Luminance(q, b, look)
  {
    NotNegative(look.viewShade(a) - look.viewShade(b), 1.0 - INNER_OCCLUSION * p.occlusion);
  }

  lemma NotNegative(x: real, y: real)
    requires x >= 0.0 && y >= 0.0
    ensures x * y >= 0.0
  {
  }

  // ---- Where a point falls ----

  lemma RoundIsNearest(x: real)
    ensures -0.5 < Round(x) as real - x <= 0.5
  {
  }

  // How far from the middle of the screen, for a side of the screen seen from a unit away.
  function Reach(x: real, invZ: real, side: real): real { x * invZ * side }

  // The camera is five units in front of the middle of the shape, and sees what is more
  // than a tenth of a unit away. A unit at distance z is as many rows as 38 hundredths of
  // the smaller side, in rows or half columns, over z, and twice as many columns.
  lemma FallsWhere(e: Vec, cols: nat, rows: nat)
    ensures
      var z, side := e.z + 5.0, (if cols < 2 * rows then cols else 2 * rows) as real;
      var l := Project(e, cols, rows);
      && (l.Behind? <==> z <= 0.1)
      && (l.At? ==>
            && l.invZ * z == 1.0
            && -0.5 < l.col as real - (cols as real / 2.0 + Reach(e.x, l.invZ, 0.76 * side)) <= 0.5
            && -0.5 < l.row as real - (rows as real / 2.0 - Reach(e.y, l.invZ, 0.38 * side)) <= 0.5)
  {
    var z, side := e.z + 5.0, (if cols < 2 * rows then cols else 2 * rows) as real;
    if z > 0.1 {
      var invZ := 1.0 / z;
      assert invZ * z == 1.0;
      var x, y := Perspective(e.x, invZ), Perspective(e.y, invZ);
      assert Scale(cols, rows) == 0.38 * side;
      assert x * Scale(cols, rows) * 2.0 == x * (0.76 * side);
      RoundIsNearest(cols as real / 2.0 + x * Scale(cols, rows) * 2.0);
      RoundIsNearest(rows as real / 2.0 - y * Scale(cols, rows));
    }
  }

  lemma Within(x: real, invZ: real, side: real)
    requires -1.0 <= x <= 1.0 && 0.0 < invZ <= 0.25 && side >= 0.0
    ensures -0.25 * side <= Reach(x, invZ, side) <= 0.25 * side
  {
    var q := x * invZ;
    NotNegative(1.0 - x, invZ);
    NotNegative(1.0 + x, invZ);
    NotNegative(0.25 - q, side);
    NotNegative(0.25 + q, side);
  }

  lemma QuarterAtMost(invZ: real, z: real)
    requires invZ * z == 1.0 && z >= 4.0
    ensures 0.0 < invZ <= 0.25
  {
  }

  lemma OnScreen(c: int, n: nat, offset: real)
    requires n >= 2 && -0.19 * n as real <= offset <= 0.19 * n as real
    requires -0.5 < c as real - (n as real / 2.0 + offset) <= 0.5
    ensures 0 <= c < n
  {
  }

  // A shape within the cube around its middle is never cut off.
  lemma ShapeFits(e: Vec, cols: nat, rows: nat)
    requires -1.0 <= e.x <= 1.0 && -1.0 <= e.y <= 1.0 && -1.0 <= e.z && cols >= 2 && rows >= 2
    ensures var l := Project(e, cols, rows); l.At? && 0 <= l.col < cols && 0 <= l.row < rows
  {
    FallsWhere(e, cols, rows);
    var side := (if cols < 2 * rows then cols else 2 * rows) as real;
    var l := Project(e, cols, rows);
    QuarterAtMost(l.invZ, e.z + 5.0);
    Within(e.x, l.invZ, 0.76 * side);
    Within(e.y, l.invZ, 0.38 * side);
    assert side <= cols as real && side <= 2.0 * rows as real;
    OnScreen(l.col, cols, Reach(e.x, l.invZ, 0.76 * side));
    OnScreen(l.row, rows, -Reach(e.y, l.invZ, 0.38 * side));
  }
}
