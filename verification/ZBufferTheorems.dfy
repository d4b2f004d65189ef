// What the picture of a point cloud does and does not depend on.
module ZBufferTheorems {
  import opened Quaternions
  import opened ZBuffer

  // ---- Lines of sight ----

  // The point k times as far from the camera on the same line of sight.
  function Along(e: Vec, k: real): Vec {
    Vec(k * e.x, k * e.y, k * (e.z + CAMERA_DISTANCE) - CAMERA_DISTANCE)
  }

  lemma Foreshortened(x: real, z: real, k: real)
    requires z > 0.0 && k > 0.0 && k * z > 0.0
    ensures Perspective(k * x, 1.0 / (k * z)) == Perspective(x, 1.0 / z)
    ensures k > 1.0 <==> 1.0 / (k * z) < 1.0 / z
  {
    var f := 1.0 / (k * z);
    assert f * k * z == 1.0;
    assert f * k == 1.0 / z;
    assert k * x * f == x * (f * k);
    assert f > 0.0;
    if k > 1.0 {
      assert f * k > f;
    } else {
      assert f * k <= f * 1.0;
    }
  }

  lemma SameScreen(e: Vec, f: Vec, cols: nat, rows: nat)
    requires Project(e, cols, rows).At? && Project(f, cols, rows).At?
    requires Perspective(f.x, 1.0 / (f.z + CAMERA_DISTANCE)) == Perspective(e.x, 1.0 / (e.z + CAMERA_DISTANCE))
    requires Perspective(f.y, 1.0 / (f.z + CAMERA_DISTANCE)) == Perspective(e.y, 1.0 / (e.z + CAMERA_DISTANCE))
    ensures Project(f, cols, rows).row == Project(e, cols, rows).row
    ensures Project(f, cols, rows).col == Project(e, cols, rows).col
  {
  }

  // Points of one line of sight fall into one cell, and the buffer's 1/z ranks them by
  // nearness to the camera.
  lemma OneCellPerLineOfSight(e: Vec, k: real, cols: nat, rows: nat)
    requires k > 0.0 && Project(e, cols, rows).At? && Project(Along(e, k), cols, rows).At?
    ensures Project(Along(e, k), cols, rows).row == Project(e, cols, rows).row
    ensures Project(Along(e, k), cols, rows).col == Project(e, cols, rows).col
    ensures k > 1.0 <==> Project(Along(e, k), cols, rows).invZ < Project(e, cols, rows).invZ
  {
    var z, f := e.z + CAMERA_DISTANCE, Along(e, k);
    assert f.z + CAMERA_DISTANCE == k * z;
    Foreshortened(e.x, z, k);
    Foreshortened(e.y, z, k);
    SameScreen(e, f, cols, rows);
  }

  lemma PerspectiveIsMonotone(a: real, b: real, invZ: real)
    requires a <= b && invZ > 0.0
    ensures Perspective(a, invZ) <= Perspective(b, invZ) && Perspective(0.0, invZ) == 0.0
  {
    assert (b - a) * invZ >= 0.0;
  }

  lemma ScreenIsMonotone(a: real, b: real, cols: nat, rows: nat)
    requires a <= b
    ensures ScreenCol(a, cols, rows) <= ScreenCol(b, cols, rows) && ScreenRow(a, cols, rows) >= ScreenRow(b, cols, rows)
    ensures ScreenCol(0.0, cols, rows) == Round(cols as real / 2.0)
    ensures ScreenRow(0.0, cols, rows) == Round(rows as real / 2.0)
  {
    assert (b - a) * Scale(cols, rows) >= 0.0;
  }

  // At one depth, what is farther right is drawn no farther left, what is higher no lower,
  // and what is straight ahead in the middle.
  lemma ScreenDirections(e: Vec, f: Vec, cols: nat, rows: nat)
    requires e.z == f.z && Project(e, cols, rows).At?
    ensures e.x <= f.x ==> Project(e, cols, rows).col <= Project(f, cols, rows).col
    ensures e.y <= f.y ==> Project(e, cols, rows).row >= Project(f, cols, rows).row
    ensures e.x == 0.0 ==> Project(e, cols, rows).col == Round(cols as real / 2.0)
    ensures e.y == 0.0 ==> Project(e, cols, rows).row == Round(rows as real / 2.0)
  {
    var invZ := Project(e, cols, rows).invZ;
    PerspectiveIsMonotone(0.0, 0.0, invZ);
    ScreenIsMonotone(0.0, 0.0, cols, rows);
    if e.x <= f.x {
      PerspectiveIsMonotone(e.x, f.x, invZ);
      ScreenIsMonotone(Perspective(e.x, invZ), Perspective(f.x, invZ), cols, rows);
    }
    if e.y <= f.y {
      PerspectiveIsMonotone(e.y, f.y, invZ);
      ScreenIsMonotone(Perspective(e.y, invZ), Perspective(f.y, invZ), cols, rows);
    }
  }

  // ---- Exactly one picture ----

  lemma OneCell(ps: seq<SurfacePoint>, v: View, row: int, col: int, a: ShapeCell, b: ShapeCell)
    requires Shows(ps, v, row, col, a) && Shows(ps, v, row, col, b)
    ensures a == b
  {
    if exists j :: 0 <= j < |ps| && Lands(ps[j], v, row, col) {
      var k: nat :| Owns(ps, v, row, col, k) && a == Shade(ps[k], v);
      var l: nat :| Owns(ps, v, row, col, l) && b == Shade(ps[l], v);
      assert Lands(ps[k], v, row, col) && Lands(ps[l], v, row, col);
    }
  }

  lemma {:induction false} CellExists(ps: seq<SurfacePoint>, v: View, row: nat, col: nat)
    returns (depth: Depth, cell: ShapeCell)
    ensures CellDone(ps, v, row, col, depth, cell)
  {
    if ps == [] {
      return NegInfinity, BLANK;
    }
    var qs, p := ps[..|ps|-1], ps[|ps|-1];
    depth, cell := CellExists(qs, v, row, col);
    OneMore(qs, p, v, row, col, depth, cell);
    assert qs + [p] == ps;
    if Lands(p, v, row, col) && (depth.NegInfinity? || InvZ(p, v) > depth.invZ) {
      return Near(InvZ(p, v)), Shade(p, v);
    }
  }

  ghost function CellOf(ps: seq<SurfacePoint>, v: View, row: nat, col: nat): (cell: ShapeCell)
    ensures Shows(ps, v, row, col, cell)
  {
    assert exists cell :: Shows(ps, v, row, col, cell) by {
      var depth, cell := CellExists(ps, v, row, col);
      DoneShows(ps, v, row, col, depth, cell);
    }
    var cell :| Shows(ps, v, row, col, cell);
    cell
  }

  ghost function Picture(ps: seq<SurfacePoint>, v: View): seq<seq<ShapeCell>> {
    seq(v.rows, r requires 0 <= r < v.rows => seq(v.cols, c requires 0 <= c < v.cols => CellOf(ps, v, r, c)))
  }

  // Every point cloud has one picture, and no other.
  lemma PictureIsUnique(ps: seq<SurfacePoint>, v: View, grid: seq<seq<ShapeCell>>)
    ensures IsPicture(grid, ps, v) <==> grid == Picture(ps, v)
  {
    var p := Picture(ps, v);
    assert IsPicture(p, ps, v) by {
      forall r, c | 0 <= r < v.rows && 0 <= c < v.cols
        ensures Shows(ps, v, r, c, p[r][c])
      {
        assert p[r][c] == CellOf(ps, v, r, c);
      }
    }
    if IsPicture(grid, ps, v) {
      forall r | 0 <= r < v.rows
        ensures grid[r] == p[r]
      {
        forall c | 0 <= c < v.cols
          ensures grid[r][c] == p[r][c]
        {
          OneCell(ps, v, r, c, grid[r][c], p[r][c]);
        }
      }
    }
  }

  // ---- The order of the points ----

  // A point as near as any other in its cell.
  ghost predicate Nearest(ps: seq<SurfacePoint>, v: View, row: int, col: int, p: SurfacePoint) {
    && p in ps && Lands(p, v, row, col)
    && forall q :: q in ps && Lands(q, v, row, col) ==> InvZ(q, v) <= InvZ(p, v)
  }

  // The nearest points of a cell look alike.
  ghost predicate NoTies(ps: seq<SurfacePoint>, v: View) {
    forall row, col, p, q | 0 <= row < v.rows && 0 <= col < v.cols ::
      Nearest(ps, v, row, col, p) && Nearest(ps, v, row, col, q) ==> Shade(p, v) == Shade(q, v)
  }

  lemma OwnerIsNearest(ps: seq<SurfacePoint>, v: View, row: int, col: int, k: nat)
    requires Owns(ps, v, row, col, k)
    ensures Nearest(ps, v, row, col, ps[k])
  {
    forall q | q in ps && Lands(q, v, row, col)
      ensures InvZ(q, v) <= InvZ(ps[k], v)
    {
      var j :| 0 <= j < |ps| && ps[j] == q;
    }
  }

  lemma NearestIsShared(ps: seq<SurfacePoint>, qs: seq<SurfacePoint>, v: View, row: int, col: int, p: SurfacePoint)
    requires multiset(ps) == multiset(qs) && Nearest(ps, v, row, col, p)
    ensures Nearest(qs, v, row, col, p)
  {
    assert forall q :: q in ps <==> q in multiset(ps);
    assert forall q :: q in qs <==> q in multiset(qs);
  }

  lemma ReorderedCell(ps: seq<SurfacePoint>, qs: seq<SurfacePoint>, v: View, row: nat, col: nat,
                      a: ShapeCell, b: ShapeCell)
    requires multiset(ps) == multiset(qs) && NoTies(ps, v) && row < v.rows && col < v.cols
    requires Shows(ps, v, row, col, a) && Shows(qs, v, row, col, b)
    ensures a == b
  {
    assert forall q :: q in ps <==> q in multiset(ps);
    assert forall q :: q in qs <==> q in multiset(qs);
    if j :| 0 <= j < |ps| && Lands(ps[j], v, row, col) {
      assert ps[j] in qs;
      var k: nat :| Owns(ps, v, row, col, k) && a == Shade(ps[k], v);
      var l: nat :| Owns(qs, v, row, col, l) && b == Shade(qs[l], v);
      OwnerIsNearest(ps, v, row, col, k);
      OwnerIsNearest(qs, v, row, col, l);
      NearestIsShared(qs, ps, v, row, col, qs[l]);
    } else {
      assert forall j :: 0 <= j < |qs| ==> qs[j] in ps;
    }
  }

  function ToFront(ps: seq<SurfacePoint>, i: nat): seq<SurfacePoint>
    requires i < |ps|
  {
    [ps[i]] + (ps[..i] + ps[i+1..])
  }

  lemma ToFrontPermutes(ps: seq<SurfacePoint>, i: nat)
    requires i < |ps|
    ensures multiset(ToFront(ps, i)) == multiset(ps)
  {
    assert ps == ps[..i] + ([ps[i]] + ps[i+1..]);
  }

  // The nearest point of a cell owns it once it is drawn first.
  lemma FrontOwns(ps: seq<SurfacePoint>, v: View, row: nat, col: nat, i: nat)
    requires i < |ps| && row < v.rows && col < v.cols && Nearest(ps, v, row, col, ps[i])
    ensures Picture(ToFront(ps, i), v)[row][col] == Shade(ps[i], v)
  {
    var qs := ToFront(ps, i);
    ToFrontPermutes(ps, i);
    NearestIsShared(ps, qs, v, row, col, ps[i]);
    assert Owns(qs, v, row, col, 0);
    OneCell(qs, v, row, col, Shade(ps[i], v), CellOf(qs, v, row, col));
  }

  // The order in which the points are listed is irrelevant exactly when no cell has two
  // nearest points that look different.
  lemma OrderIrrelevantIff(ps: seq<SurfacePoint>, v: View)
    ensures NoTies(ps, v) <==> forall qs :: multiset(qs) == multiset(ps) ==> Picture(qs, v) == Picture(ps, v)
  {
    if NoTies(ps, v) {
      forall qs | multiset(qs) == multiset(ps)
        ensures Picture(qs, v) == Picture(ps, v)
      {
        forall r, c | 0 <= r < v.rows && 0 <= c < v.cols
          ensures Picture(qs, v)[r][c] == Picture(ps, v)[r][c]
        {
          ReorderedCell(ps, qs, v, r, c, CellOf(ps, v, r, c), CellOf(qs, v, r, c));
        }
        forall r | 0 <= r < v.rows
          ensures Picture(qs, v)[r] == Picture(ps, v)[r]
        {
        }
      }
    } else {
      var row, col, p, q :| 0 <= row < v.rows && 0 <= col < v.cols &&
        Nearest(ps, v, row, col, p) && Nearest(ps, v, row, col, q) && Shade(p, v) != Shade(q, v);
      var i :| 0 <= i < |ps| && ps[i] == p;
      var j :| 0 <= j < |ps| && ps[j] == q;
      ToFrontPermutes(ps, i);
      ToFrontPermutes(ps, j);
      FrontOwns(ps, v, row, col, i);
      FrontOwns(ps, v, row, col, j);
    }
  }

  // ---- Turning the object and turning the view ----

  function Turned(ps: seq<SurfacePoint>, q: Quat): seq<SurfacePoint> {
    seq(|ps|, i requires 0 <= i < |ps| => TurnedPoint(ps[i], q))
  }

  function TurnedPoint(p: SurfacePoint, q: Quat): SurfacePoint {
    p.(position := Rotate(p.position, q), normal := Rotate(p.normal, q))
  }

  // The sphere's shading does not look at the normal before rotation.
  lemma SphereShade(p: SurfacePoint, q: SurfacePoint, viewDot: real, rotated: Vec, look: Look)
    requires look.sphere && p.occlusion == q.occlusion
    ensures ShadeOf(p, viewDot, rotated, look) == ShadeOf(q, viewDot, rotated, look)
  {
  }

  // p under w and q under u cannot be told apart.
  ghost predicate Alike(p: SurfacePoint, w: View, q: SurfacePoint, u: View) {
    && (forall row, col :: Lands(p, w, row, col) <==> Lands(q, u, row, col))
    && (InFront(p, w) ==> InFront(q, u) && InvZ(q, u) == InvZ(p, w))
    && Shade(p, w) == Shade(q, u)
  }

  lemma SamePlace(p: SurfacePoint, w: View, q: SurfacePoint, u: View)
    requires Rotate(p.position, w.orientation) == Rotate(q.position, u.orientation)
    requires w.cols == u.cols && w.rows == u.rows
    ensures forall row, col :: Lands(p, w, row, col) <==> Lands(q, u, row, col)
    ensures InFront(p, w) ==> InFront(q, u) && InvZ(q, u) == InvZ(p, w)
  {
  }

  lemma SameShade(p: SurfacePoint, w: View, q: SurfacePoint, u: View)
    requires Rotate(p.normal, w.orientation) == Rotate(q.normal, u.orientation)
    requires w.look == u.look && w.look.sphere && p.occlusion == q.occlusion
    ensures Shade(p, w) == Shade(q, u)
  {
    ZOnlyIsZ(p.normal, w.orientation);
    ZOnlyIsZ(q.normal, u.orientation);
    SphereShade(p, q, -RotatedZOnly(p.normal, w.orientation), Rotate(p.normal, w.orientation), w.look);
  }

  lemma TurnedIsAlike(p: SurfacePoint, v: View, a: Quat, b: Quat)
    requires Unit(a) && Unit(b) && v.look.sphere
    ensures Alike(p, v.(orientation := Multiply(a, b)), TurnedPoint(p, b), v.(orientation := a))
  {
    Composition(p.position, a, b);
    Composition(p.normal, a, b);
    SamePlace(p, v.(orientation := Multiply(a, b)), TurnedPoint(p, b), v.(orientation := a));
    SameShade(p, v.(orientation := Multiply(a, b)), TurnedPoint(p, b), v.(orientation := a));
  }

  lemma AlikeCells(ps: seq<SurfacePoint>, w: View, qs: seq<SurfacePoint>, u: View, row: nat, col: nat, cell: ShapeCell)
    requires |ps| == |qs| && forall i :: 0 <= i < |ps| ==> Alike(ps[i], w, qs[i], u)
    requires Shows(ps, w, row, col, cell)
    ensures Shows(qs, u, row, col, cell)
  {
    if j :| 0 <= j < |ps| && Lands(ps[j], w, row, col) {
      var k: nat :| Owns(ps, w, row, col, k) && cell == Shade(ps[k], w);
      assert Alike(ps[j], w, qs[j], u) && Alike(ps[k], w, qs[k], u);
      assert Lands(qs[j], u, row, col);
      forall i | 0 <= i < |qs| && Lands(qs[i], u, row, col)
        ensures InvZ(qs[i], u) < InvZ(qs[k], u) || (InvZ(qs[i], u) == InvZ(qs[k], u) && k <= i)
      {
        assert Alike(ps[i], w, qs[i], u);
      }
      assert Owns(qs, u, row, col, k);
    } else {
      forall i | 0 <= i < |qs|
        ensures !Lands(qs[i], u, row, col)
      {
        assert Alike(ps[i], w, qs[i], u);
      }
    }
  }

  // With the light that follows the viewer, drawing at the orientation a b is drawing, at
  // the orientation a, the cloud already turned by b.
  lemma SpherePictureComposes(ps: seq<SurfacePoint>, v: View, a: Quat, b: Quat)
    requires Unit(a) && Unit(b) && v.look.sphere
    ensures Picture(ps, v.(orientation := Multiply(a, b))) == Picture(Turned(ps, b), v.(orientation := a))
  {
    var w, u, qs := v.(orientation := Multiply(a, b)), v.(orientation := a), Turned(ps, b);
    forall i | 0 <= i < |ps|
      ensures Alike(ps[i], w, qs[i], u)
    {
      TurnedIsAlike(ps[i], v, a, b);
    }
    var g := Picture(ps, w);
    PictureIsUnique(ps, w, g);
    assert IsPicture(g, qs, u) by {
      forall r, c | 0 <= r < u.rows && 0 <= c < u.cols
        ensures Shows(qs, u, r, c, g[r][c])
      {
        AlikeCells(ps, w, qs, u, r, c, g[r][c]);
      }
    }
    PictureIsUnique(qs, u, g);
  }
}
