// Rasterising a point cloud with a z-buffer: the nearest point of a cell owns it.
module ZBuffer {
  import opened Quaternions

  // A missing edge boost or occlusion counts as zero.
  datatype SurfacePoint = SurfacePoint(position: Vec, normal: Vec, edgeBoost: real, occlusion: real)
  datatype ShapeCell = ShapeCell(glyph: char, brightness: real)

  // What the lighting is made of: the sphere follows the viewer, every other shape keeps
  // the light on the same side of the object. The curves and glyph tables are parameters.
  datatype Look = Look(sphere: bool, light: Vec, viewShade: real -> real, dotShade: real -> real,
                       contourGlyph: Vec -> char, rampGlyph: real -> char)
  datatype View = View(orientation: Quat, cols: nat, rows: nat, look: Look)

  const CAMERA_DISTANCE := 5.0
  const NEAR_PLANE := 0.1
  const INNER_OCCLUSION := 0.45
  const BLANK := ShapeCell(' ', 0.0)

  // Math.round
  function Round(x: real): int { (x + 0.5).Floor }

  // Cells are about twice as tall as wide.
  function Scale(cols: nat, rows: nat): real {
    (if cols < rows * 2 then cols else rows * 2) as real * 0.38
  }

  function ScreenCol(projX: real, cols: nat, rows: nat): int {
    Round(cols as real / 2.0 + projX * Scale(cols, rows) * 2.0)
  }

  function ScreenRow(projY: real, cols: nat, rows: nat): int {
    Round(rows as real / 2.0 - projY * Scale(cols, rows))
  }

  function Perspective(x: real, invZ: real): real { x * invZ }

  // Where a rotated position falls: the cell may lie outside the grid.
  datatype Landing = Behind | At(row: int, col: int, invZ: real)

  function Project(e: Vec, cols: nat, rows: nat): (l: Landing)
    ensures l.At? ==> l.invZ > 0.0
  {
    var z := e.z + CAMERA_DISTANCE;
    if z <= NEAR_PLANE then Behind
    else
      var invZ := 1.0 / z;
      At(ScreenRow(Perspective(e.y, invZ), cols, rows), ScreenCol(Perspective(e.x, invZ), cols, rows), invZ)
  }

  function LandingOf(p: SurfacePoint, v: View): Landing {
    Project(Rotate(p.position, v.orientation), v.cols, v.rows)
  }

  function Luminance(p: SurfacePoint, viewDot: real, look: Look): real {
    var lit :=
      if look.sphere then look.viewShade(viewDot)
      else
        var boosted := look.dotShade(Dot(p.normal, look.light)) + p.edgeBoost;
        if boosted < 1.0 then boosted else 1.0;
    lit * (1.0 - INNER_OCCLUSION * p.occlusion)
  }

  predicate InContourBand(viewDot: real, look: Look) {
    0.05 < (if viewDot < 0.0 then -viewDot else viewDot) < (if look.sphere then 0.2 else 0.16)
  }

  // The cell of a point whose normal is `rotated` under the current orientation.
  function ShadeOf(p: SurfacePoint, viewDot: real, rotated: Vec, look: Look): ShapeCell {
    var b := Luminance(p, viewDot, look);
    ShapeCell(if InContourBand(viewDot, look) then look.contourGlyph(rotated) else look.rampGlyph(b), b)
  }

  function Shade(p: SurfacePoint, v: View): ShapeCell {
    ShadeOf(p, -RotatedZOnly(p.normal, v.orientation), Rotate(p.normal, v.orientation), v.look)
  }

  // ---- What the picture must be ----

  predicate InFront(p: SurfacePoint, v: View) { LandingOf(p, v).At? }

  predicate Lands(p: SurfacePoint, v: View, row: int, col: int) {
    var l := LandingOf(p, v);
    l.At? && l.row == row && l.col == col
  }

  function InvZ(p: SurfacePoint, v: View): real
    requires InFront(p, v)
  {
    LandingOf(p, v).invZ
  }

  // Point k owns the cell: it lands there, and any other that does is farther, or as far
  // and later in the list.
  ghost predicate Owns(ps: seq<SurfacePoint>, v: View, row: int, col: int, k: nat) {
    && k < |ps| && Lands(ps[k], v, row, col)
    && forall j :: 0 <= j < |ps| && Lands(ps[j], v, row, col) ==>
         InvZ(ps[j], v) < InvZ(ps[k], v) || (InvZ(ps[j], v) == InvZ(ps[k], v) && k <= j)
  }

  ghost predicate Shows(ps: seq<SurfacePoint>, v: View, row: int, col: int, cell: ShapeCell) {
    if exists j :: 0 <= j < |ps| && Lands(ps[j], v, row, col)
    then exists k: nat :: Owns(ps, v, row, col, k) && cell == Shade(ps[k], v)
    else cell == BLANK
  }

  ghost predicate IsPicture(grid: seq<seq<ShapeCell>>, ps: seq<SurfacePoint>, v: View) {
    && |grid| == v.rows
    && (forall r :: 0 <= r < v.rows ==> |grid[r]| == v.cols)
    && forall r, c :: 0 <= r < v.rows && 0 <= c < v.cols ==> Shows(ps, v, r, c, grid[r][c])
  }

  // ---- The flat buffers ----

  function Index(row: nat, col: nat, cols: nat): nat { row * cols + col }

  lemma IndexInBounds(row: nat, col: nat, v: View)
    requires row < v.rows && col < v.cols
    ensures Index(row, col, v.cols) < v.cols * v.rows
  {
    assert (row + 1) * v.cols <= v.rows * v.cols;
  }

  lemma IndexInjective(r: nat, c: nat, row: nat, col: nat, cols: nat)
    requires c < cols && col < cols
    ensures Index(r, c, cols) == Index(row, col, cols) <==> r == row && c == col
  {
    if r < row {
      assert (r + 1) * cols <= row * cols;
    } else if row < r {
      assert (row + 1) * cols <= r * cols;
    }
  }

  datatype Depth = NegInfinity | Near(invZ: real)

  ghost predicate CellDone(ps: seq<SurfacePoint>, v: View, row: nat, col: nat, depth: Depth, cell: ShapeCell) {
    match depth
    case NegInfinity => cell == BLANK && forall j :: 0 <= j < |ps| ==> !Lands(ps[j], v, row, col)
    case Near(d) => exists k: nat :: Owns(ps, v, row, col, k) && d == InvZ(ps[k], v) && cell == Shade(ps[k], v)
  }

  // What one more point does to a cell.
  lemma OneMore(ps: seq<SurfacePoint>, p: SurfacePoint, v: View, row: nat, col: nat, depth: Depth, cell: ShapeCell)
    requires CellDone(ps, v, row, col, depth, cell)
    ensures
      if Lands(p, v, row, col) && (depth.NegInfinity? || InvZ(p, v) > depth.invZ)
      then CellDone(ps + [p], v, row, col, Near(InvZ(p, v)), Shade(p, v))
      else CellDone(ps + [p], v, row, col, depth, cell)
  {
    var qs := ps + [p];
    assert qs[|ps|] == p && forall j :: 0 <= j < |ps| ==> qs[j] == ps[j];
    if Lands(p, v, row, col) && (depth.NegInfinity? || InvZ(p, v) > depth.invZ) {
      assert Owns(qs, v, row, col, |ps|);
    } else if depth.Near? {
      var k: nat :| Owns(ps, v, row, col, k) && depth.invZ == InvZ(ps[k], v) && cell == Shade(ps[k], v);
      assert Owns(qs, v, row, col, k);
    }
  }

  lemma DoneShows(ps: seq<SurfacePoint>, v: View, row: nat, col: nat, depth: Depth, cell: ShapeCell)
    requires CellDone(ps, v, row, col, depth, cell)
    ensures Shows(ps, v, row, col, cell)
  {
    if depth.Near? {
      var k: nat :| Owns(ps, v, row, col, k) && depth.invZ == InvZ(ps[k], v) && cell == Shade(ps[k], v);
      assert Lands(ps[k], v, row, col);
    }
  }

  // The contents of the three buffers.
  datatype Planes = Planes(zs: seq<Depth>, chars: seq<char>, brightness: seq<real>) {
    predicate Sized(v: View) { |zs| == |chars| == |brightness| == v.cols * v.rows }

    // Cell (row, col) is right for the points plotted so far.
    ghost predicate DoneAt(ps: seq<SurfacePoint>, v: View, row: nat, col: nat)
      requires Sized(v) && row < v.rows && col < v.cols
    {
      IndexInBounds(row, col, v);
      var i := Index(row, col, v.cols);
      CellDone(ps, v, row, col, zs[i], ShapeCell(chars[i], brightness[i]))
    }

    ghost predicate Done(ps: seq<SurfacePoint>, v: View) {
      Sized(v) && forall r: nat, c: nat :: r < v.rows && c < v.cols ==> DoneAt(ps, v, r, c)
    }

    predicate Wins(p: SurfacePoint, v: View, row: nat, col: nat)
      requires Sized(v) && row < v.rows && col < v.cols && InFront(p, v)
    {
      IndexInBounds(row, col, v);
      var depth := zs[Index(row, col, v.cols)];
      depth.NegInfinity? || InvZ(p, v) > depth.invZ
    }

    function Drawn(i: nat, d: real, cell: ShapeCell): Planes
      requires i < |zs| == |chars| == |brightness|
    {
      Planes(zs[i := Near(d)], chars[i := cell.glyph], brightness[i := cell.brightness])
    }

    // A point that is not drawn leaves the cell right.
    lemma Skipped(p: SurfacePoint, ps: seq<SurfacePoint>, v: View, r: nat, c: nat)
      requires Sized(v) && r < v.rows && c < v.cols && DoneAt(ps, v, r, c)
      requires Lands(p, v, r, c) ==> !Wins(p, v, r, c)
      ensures DoneAt(ps + [p], v, r, c)
    {
      IndexInBounds(r, c, v);
      var i := Index(r, c, v.cols);
      OneMore(ps, p, v, r, c, zs[i], ShapeCell(chars[i], brightness[i]));
    }

    lemma AllSkipped(p: SurfacePoint, ps: seq<SurfacePoint>, v: View)
      requires Done(ps, v)
      requires forall r: nat, c: nat :: r < v.rows && c < v.cols && Lands(p, v, r, c) ==> !Wins(p, v, r, c)
      ensures Done(ps + [p], v)
    {
      forall r: nat, c: nat | r < v.rows && c < v.cols
        ensures DoneAt(ps + [p], v, r, c)
      {
        Skipped(p, ps, v, r, c);
      }
    }

    lemma DrawnHere(p: SurfacePoint, ps: seq<SurfacePoint>, v: View, row: nat, col: nat, i: nat)
      requires Sized(v) && row < v.rows && col < v.cols && DoneAt(ps, v, row, col)
      requires Lands(p, v, row, col) && Wins(p, v, row, col)
      requires i == Index(row, col, v.cols) < |zs|
      ensures Drawn(i, InvZ(p, v), Shade(p, v)).DoneAt(ps + [p], v, row, col)
    {
      OneMore(ps, p, v, row, col, zs[i], ShapeCell(chars[i], brightness[i]));
    }

    lemma DrawnElsewhere(ps: seq<SurfacePoint>, v: View, row: nat, col: nat, i: nat, d: real, cell: ShapeCell)
      requires Sized(v) && row < v.rows && col < v.cols && DoneAt(ps, v, row, col)
      requires i != Index(row, col, v.cols) && i < |zs|
      ensures Drawn(i, d, cell).DoneAt(ps, v, row, col)
    {
      IndexInBounds(row, col, v);
    }

    lemma DrawnIsDone(p: SurfacePoint, ps: seq<SurfacePoint>, v: View, row: nat, col: nat, i: nat)
      requires Done(ps, v) && row < v.rows && col < v.cols
      requires Lands(p, v, row, col) && Wins(p, v, row, col)
      requires i == Index(row, col, v.cols) < |zs|
      ensures Drawn(i, InvZ(p, v), Shade(p, v)).Done(ps + [p], v)
    {
      forall r: nat, c: nat | r < v.rows && c < v.cols
        ensures Drawn(i, InvZ(p, v), Shade(p, v)).DoneAt(ps + [p], v, r, c)
      {
        if r == row && c == col {
          DrawnHere(p, ps, v, row, col, i);
        } else {
          IndexInjective(r, c, row, col, v.cols);
          Skipped(p, ps, v, r, c);
          DrawnElsewhere(ps + [p], v, r, c, i, InvZ(p, v), Shade(p, v));
        }
      }
    }
  }

  class Buffers {
    const v: View
    const zBuffer: array<Depth>
    const charGrid: array<char>
    const brightnessGrid: array<real>

    function Now(): Planes
      reads this, zBuffer, charGrid, brightnessGrid
    {
      Planes(zBuffer[..], charGrid[..], brightnessGrid[..])
    }

    constructor (v: View)
      ensures this.v == v && Now().Done([], v)
      ensures fresh(zBuffer) && fresh(charGrid) && fresh(brightnessGrid)
    {
      this.v := v;
      zBuffer := new Depth[v.cols * v.rows](_ => NegInfinity);
      charGrid := new char[v.cols * v.rows](_ => ' ');
      brightnessGrid := new real[v.cols * v.rows](_ => 0.0);
      new;
      forall r: nat, c: nat | r < v.rows && c < v.cols
        ensures Now().DoneAt([], v, r, c)
      {
        IndexInBounds(r, c, v);
      }
    }

    // The body of the loop over the points.
    method Plot(p: SurfacePoint, ghost ps: seq<SurfacePoint>)
      requires Now().Done(ps, v)
      modifies zBuffer, charGrid, brightnessGrid
      ensures Now().Done(ps + [p], v)
    {
      ghost var before := Now();
      var landing := Project(Rotate(p.position, v.orientation), v.cols, v.rows);
      if landing.Behind? {
        before.AllSkipped(p, ps, v);
        return;
      }
      var invZ, col, row := landing.invZ, landing.col, landing.row;
      if col < 0 || col >= v.cols || row < 0 || row >= v.rows {
        before.AllSkipped(p, ps, v);
        return;
      }
      IndexInBounds(row, col, v);
      var idx := row * v.cols + col;
      assert before.Wins(p, v, row, col) <==> zBuffer[idx].NegInfinity? || invZ > zBuffer[idx].invZ;
      if zBuffer[idx].Near? && invZ <= zBuffer[idx].invZ {
        before.AllSkipped(p, ps, v);
        return;
      }
      before.DrawnIsDone(p, ps, v, row, col, idx);
      Write(idx, invZ, Shade(p, v));
    }

    method Write(idx: nat, invZ: real, cell: ShapeCell)
      requires idx < zBuffer.Length == charGrid.Length == brightnessGrid.Length
      modifies zBuffer, charGrid, brightnessGrid
      ensures Now() == old(Now()).Drawn(idx, invZ, cell)
    {
      zBuffer[idx] := Near(invZ);
      brightnessGrid[idx] := cell.brightness;
      charGrid[idx] := cell.glyph;
    }

    method Grid(ghost ps: seq<SurfacePoint>) returns (grid: seq<seq<ShapeCell>>)
      requires Now().Done(ps, v)
      ensures IsPicture(grid, ps, v)
    {
      grid := [];
      for row := 0 to v.rows
        invariant |grid| == row
        invariant forall r :: 0 <= r < row ==> |grid[r]| == v.cols
        invariant forall r, c :: 0 <= r < row && 0 <= c < v.cols ==> Shows(ps, v, r, c, grid[r][c])
      {
        var cells := [];
        for col := 0 to v.cols
          invariant |cells| == col
          invariant forall c :: 0 <= c < col ==> Shows(ps, v, row, c, cells[c])
        {
          IndexInBounds(row, col, v);
          var idx := row * v.cols + col;
          assert Now().DoneAt(ps, v, row, col);
          DoneShows(ps, v, row, col, zBuffer[idx], ShapeCell(charGrid[idx], brightnessGrid[idx]));
          cells := cells + [ShapeCell(charGrid[idx], brightnessGrid[idx])];
        }
        grid := grid + [cells];
      }
    }
  }

  // Every cell shows the earliest of the nearest points projecting into it, and is blank
  // exactly when none does.
  method RasterizeShape(ps: seq<SurfacePoint>, v: View) returns (grid: seq<seq<ShapeCell>>)
    ensures IsPicture(grid, ps, v)
  {
    var b := new Buffers(v);
    for k := 0 to |ps|
      invariant b.v == v && b.Now().Done(ps[..k], v)
    {
      b.Plot(ps[k], ps[..k]);
      assert ps[..k] + [ps[k]] == ps[..k+1];
    }
    assert ps[..|ps|] == ps;
    grid := b.Grid(ps);
  }
}
