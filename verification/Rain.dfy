// The falling-character layer: columns that drop in whole cells on their own schedule, and
// particles with gravity. Both are advanced by frames of any length.
module Rain {
  import opened Options

  datatype Stream = Stream(x: real, y: real, length: nat, interval: real, acc: real)

  // The number of whole intervals in a time.
  function Whole(time: real, interval: real): int
    requires interval > 0.0
  {
    if time < interval then 0 else (time / interval).Floor
  }

  function Times(k: int, interval: real): real { k as real * interval }

  function Fallen(s: Stream, ms: real, cellSize: real): Stream
    requires s.interval > 0.0
  {
    var k := Whole(s.acc + ms, s.interval);
    s.(y := s.y + Times(k, cellSize), acc := s.acc + ms - Times(k, s.interval))
  }

  predicate Gone(s: Stream, height: real, cellSize: real) { s.y - Times(s.length, cellSize) > height }

  lemma WholeIs(k: int, time: real, interval: real)
    requires interval > 0.0 && time >= 0.0
    ensures Times(k, interval) <= time < Times(k + 1, interval) <==> k == Whole(time, interval)
  {
    var q := time / interval;
    assert q * interval == time;
    Ratio(k, q, interval);
    Ratio(k + 1, q, interval);
    assert q >= 0.0;
    assert time < interval <==> q < 1.0;
  }

  lemma Ratio(k: int, q: real, interval: real)
    requires interval > 0.0
    ensures Times(k, interval) <= q * interval <==> k as real <= q
  {
    var d := q - k as real;
    assert q * interval - k as real * interval == d * interval;
    assert d >= 0.0 ==> d * interval >= 0.0;
    assert d < 0.0 ==> d * interval < 0.0;
  }

  lemma TimesSplits(j: int, k: int, unit: real)
    ensures Times(j + k, unit) == Times(j, unit) + Times(k, unit)
    ensures Times(0, unit) == 0.0 && Times(1, unit) == unit
  {
    assert (j + k) as real == j as real + k as real;
  }

  // One interval less is one step less.
  lemma WholeDrops(time: real, interval: real)
    requires 0.0 < interval <= time
    ensures Whole(time - interval, interval) == Whole(time, interval) - 1 >= 0
  {
    var k := Whole(time, interval);
    WholeIs(k, time, interval);
    TimesSplits(k, 1, interval);
    TimesSplits(k - 1, 1, interval);
    WholeIs(k - 1, time - interval, interval);
    WholeIs(0, time, interval);
    TimesSplits(0, 0, interval);
  }

  // stepStreams, one stream; `respawned` is what spawnStream would return.
  method StepStream(s: Stream, dtSeconds: real, height: real, cellSize: real, respawned: Stream) returns (r: Stream)
    requires s.interval > 0.0
    ensures var f := Fallen(s, dtSeconds * 1000.0, cellSize); r == if Gone(f, height, cellSize) then respawned else f
  {
    var y, acc := s.y, s.acc + dtSeconds * 1000.0;
    ghost var total := acc;
    ghost var k := 0;
    TimesSplits(0, 0, s.interval);
    TimesSplits(0, 0, cellSize);
    while acc >= s.interval
      invariant k >= 0 && k + Whole(acc, s.interval) == Whole(total, s.interval)
      invariant acc == total - Times(k, s.interval)
      invariant y == s.y + Times(k, cellSize)
      decreases Whole(acc, s.interval)
    {
      WholeDrops(acc, s.interval);
      TimesSplits(k, 1, s.interval);
      TimesSplits(k, 1, cellSize);
      acc := acc - s.interval;
      y := y + cellSize;
      k := k + 1;
    }
    if y - s.length as real * cellSize > height {
      return respawned;
    }
    r := s.(y := y, acc := acc);
  }

  method StepStreams(streams: seq<Stream>, dtSeconds: real, height: real, cellSize: real, respawned: seq<Stream>)
    returns (next: seq<Stream>)
    requires |respawned| == |streams| && forall i :: 0 <= i < |streams| ==> streams[i].interval > 0.0
    ensures |next| == |streams|
    ensures forall i :: 0 <= i < |streams| ==>
      var f := Fallen(streams[i], dtSeconds * 1000.0, cellSize);
      next[i] == if Gone(f, height, cellSize) then respawned[i] else f
  {
    next := [];
    for i := 0 to |streams|
      invariant |next| == i
      invariant forall j :: 0 <= j < i ==>
        var f := Fallen(streams[j], dtSeconds * 1000.0, cellSize);
        next[j] == if Gone(f, height, cellSize) then respawned[j] else f
    {
      var s := StepStream(streams[i], dtSeconds, height, cellSize, respawned[i]);
      next := next + [s];
    }
  }

  // ---- Frame rates ----

  function Total(frames: seq<real>): real {
    if frames == [] then 0.0 else Total(frames[..|frames|-1]) + frames[|frames|-1]
  }

  predicate Forward(frames: seq<real>) { forall i :: 0 <= i < |frames| ==> frames[i] >= 0.0 }

  // A column through frames of the given milliseconds; None once it has respawned.
  function Play(s: Stream, frames: seq<real>, height: real, cellSize: real): Option<Stream>
    requires s.interval > 0.0
    ensures Play(s, frames, height, cellSize).Some? ==> Play(s, frames, height, cellSize).value.interval == s.interval
  {
    if frames == [] then Some(s)
    else
      var before := Play(s, frames[..|frames|-1], height, cellSize);
      if before.None? then None
      else
        var f := Fallen(before.value, frames[|frames|-1], cellSize);
        if Gone(f, height, cellSize) then None else Some(f)
  }

  lemma {:induction false} TotalForward(frames: seq<real>)
    requires Forward(frames)
    ensures Total(frames) >= 0.0
  {
    if frames != [] {
      TotalForward(frames[..|frames|-1]);
    }
  }

  lemma TimesKeepsSign(k: int, unit: real)
    requires k >= 0 && unit >= 0.0
    ensures Times(k, unit) >= 0.0
  {
  }

  // Falling for a while and then some more is falling for the sum; what is left over is
  // less than an interval.
  lemma FallenTwice(s: Stream, first: real, then_: real, cellSize: real)
    requires s.interval > 0.0 && s.acc >= 0.0 && first >= 0.0 && then_ >= 0.0 && cellSize >= 0.0
    ensures 0.0 <= Fallen(s, first, cellSize).acc < s.interval
    ensures Fallen(Fallen(s, first, cellSize), then_, cellSize) == Fallen(s, first + then_, cellSize)
    ensures Fallen(s, first + then_, cellSize).y >= Fallen(s, first, cellSize).y
  {
    var i := s.interval;
    var a := s.acc + first;
    var j := Whole(a, i);
    WholeIs(j, a, i);
    TimesSplits(j, 1, i);
    var rest := a - Times(j, i);
    var k := Whole(rest + then_, i);
    WholeIs(k, rest + then_, i);
    TimesSplits(j, k, i);
    TimesSplits(j, k + 1, i);
    WholeIs(j + k, a + then_, i);
    TimesSplits(j, k, cellSize);
    WholeIs(-1, rest + then_, i);
    TimesKeepsSign(k, cellSize);
  }

  // However the elapsed time is cut into frames, a column ends in the same place with the
  // same remainder, and it has respawned exactly if a single frame of the whole time would
  // have respawned it.
  lemma {:induction false} FrameRateIndependent(s: Stream, frames: seq<real>, height: real, cellSize: real)
    requires s.interval > 0.0 && s.acc >= 0.0 && cellSize >= 0.0 && Forward(frames) && frames != []
    ensures
      var whole := Fallen(s, Total(frames), cellSize);
      Play(s, frames, height, cellSize) == if Gone(whole, height, cellSize) then None else Some(whole)
  {
    var n := |frames| - 1;
    var front, last := frames[..n], frames[n];
    TotalForward(front);
    if n == 0 {
      assert front == [];
      assert Total(frames) == last;
    } else {
      FrameRateIndependent(s, front, height, cellSize);
      FallenTwice(s, Total(front), last, cellSize);
    }
  }

  // ---- Particles ----

  // x and y are drawn, physX and physY are simulated.
  datatype Particle = Particle(x: real, y: real, physX: real, physY: real, vx: real, vy: real,
                               age: real, lifetime: real, cellSize: real, interval: real, acc: real)

  function Snap(position: real, cellSize: real): real
    requires cellSize > 0.0
  {
    Times((position / cellSize + 0.5).Floor, cellSize)
  }

  function StepParticle(p: Particle, dt: real, gravity: real): Option<Particle>
    requires p.interval > 0.0 && p.cellSize > 0.0
  {
    if p.age + dt >= p.lifetime then None
    else
      var physX, physY := p.physX + p.vx * dt, p.physY + p.vy * dt;
      var acc := p.acc + dt * 1000.0;
      var moved := p.(age := p.age + dt, physX := physX, physY := physY, vy := p.vy + gravity * dt, acc := acc);
      Some(
        if acc >= p.interval
        then moved.(acc := acc - Times((acc / p.interval).Floor, p.interval),
                    x := Snap(physX, p.cellSize), y := Snap(physY, p.cellSize))
        else moved)
  }

  function Stepped(ps: seq<Particle>, dt: real, gravity: real): seq<Particle>
    requires forall p :: p in ps ==> p.interval > 0.0 && p.cellSize > 0.0
  {
    if ps == [] then []
    else
      var last := StepParticle(ps[|ps|-1], dt, gravity);
      Stepped(ps[..|ps|-1], dt, gravity) + if last.Some? then [last.value] else []
  }

  method StepParticles(ps: seq<Particle>, dt: real, gravity: real) returns (next: seq<Particle>)
    requires forall p :: p in ps ==> p.interval > 0.0 && p.cellSize > 0.0
    ensures next == Stepped(ps, dt, gravity)
  {
    next := [];
    for i := 0 to |ps|
      invariant next == Stepped(ps[..i], dt, gravity)
    {
      assert ps[..i+1][..i] == ps[..i];
      var stepped := StepParticle(ps[i], dt, gravity);
      if stepped.Some? {
        next := next + [stepped.value];
      }
    }
    assert ps[..|ps|] == ps;
  }

  function Fly(p: Particle, frames: seq<real>, gravity: real): (r: Option<Particle>)
    requires p.interval > 0.0 && p.cellSize > 0.0
    ensures r.Some? ==> r.value.interval == p.interval && r.value.cellSize == p.cellSize
  {
    if frames == [] then Some(p)
    else
      var before := Fly(p, frames[..|frames|-1], gravity);
      if before.None? then None else StepParticle(before.value, frames[|frames|-1], gravity)
  }

  function Square(d: real): real { d * d }

  function Squares(frames: seq<real>): real {
    if frames == [] then 0.0 else Squares(frames[..|frames|-1]) + Square(frames[|frames|-1])
  }

  // How far a particle falls in a time cut into frames whose squares sum to `squares`.
  function Drop(vy: real, gravity: real, time: real, squares: real): real {
    vy * time + gravity * ((time * time - squares) / 2.0)
  }

  lemma OneMoreFrame(vy: real, gravity: real, t: real, squares: real, d: real)
    ensures Drop(vy, gravity, t, squares) + (vy + gravity * t) * d == Drop(vy, gravity, t + d, squares + Square(d))
  {
    var u := (t * t - squares) / 2.0;
    assert ((t + d) * (t + d) - (squares + d * d)) / 2.0 == u + t * d;
    assert gravity * (u + t * d) == gravity * u + gravity * t * d;
    assert (vy + gravity * t) * d == vy * d + gravity * t * d;
  }

  // q is p after a flight of this time.
  predicate OnPath(p: Particle, q: Particle, time: real, squares: real, gravity: real) {
    && q.age == p.age + time && q.lifetime == p.lifetime
    && q.vx == p.vx && q.physX == p.physX + p.vx * time
    && q.vy == p.vy + gravity * time
    && q.physY == p.physY + Drop(p.vy, gravity, time, squares)
  }

  lemma StepStaysOnPath(p: Particle, q: Particle, time: real, squares: real, gravity: real, d: real)
    requires q.interval > 0.0 && q.cellSize > 0.0 && OnPath(p, q, time, squares, gravity)
    requires StepParticle(q, d, gravity).Some?
    ensures OnPath(p, StepParticle(q, d, gravity).value, time + d, squares + Square(d), gravity)
  {
    OneMoreFrame(p.vy, gravity, time, squares, d);
    assert p.vx * (time + d) == p.vx * time + p.vx * d;
    assert gravity * (time + d) == gravity * time + gravity * d;
    assert StepParticle(q, d, gravity).value.physY == q.physY + (p.vy + gravity * time) * d;
  }

  lemma AtStart(p: Particle, gravity: real)
    ensures OnPath(p, p, 0.0, 0.0, gravity)
  {
  }

  // A particle's path, for as long as it lives: its age and its way sideways do not depend
  // on the frames; its fall does, by half of gravity times the sum of their squares.
  lemma {:induction false} Flight(p: Particle, frames: seq<real>, gravity: real)
    requires p.interval > 0.0 && p.cellSize > 0.0 && Fly(p, frames, gravity).Some?
    ensures OnPath(p, Fly(p, frames, gravity).value, Total(frames), Squares(frames), gravity)
  {
    if frames == [] {
      AtStart(p, gravity);
    } else {
      var n := |frames| - 1;
      Flight(p, frames[..n], gravity);
      var there := Fly(p, frames[..n], gravity).value;
      StepStaysOnPath(p, there, Total(frames[..n]), Squares(frames[..n]), gravity, frames[n]);
    }
  }

  // And how long that is does not depend on them either.
  lemma {:induction false} Lifetime(p: Particle, frames: seq<real>, gravity: real)
    requires p.interval > 0.0 && p.cellSize > 0.0 && Forward(frames) && frames != []
    ensures Fly(p, frames, gravity).None? <==> p.age + Total(frames) >= p.lifetime
  {
    var n := |frames| - 1;
    var before := Fly(p, frames[..n], gravity);
    if n > 0 {
      Lifetime(p, frames[..n], gravity);
    }
    if before.Some? {
      Flight(p, frames[..n], gravity);
    }
  }

  lemma DropAgrees(vy: real, gravity: real, time: real, s: real, t: real)
    ensures Drop(vy, gravity, time, s) == Drop(vy, gravity, time, t) <==> gravity == 0.0 || s == t
  {
    var u, v := (time * time - s) / 2.0, (time * time - t) / 2.0;
    assert gravity * u - gravity * v == gravity * (u - v);
  }

  // So two ways of cutting the same time agree on where a living particle is exactly when
  // there is no gravity or the squares of their frames have the same sum.
  lemma FallAgrees(p: Particle, frames: seq<real>, others: seq<real>, gravity: real)
    requires p.interval > 0.0 && p.cellSize > 0.0 && Forward(frames) && frames != [] && Forward(others) && others != []
    requires Total(frames) == Total(others) && p.age + Total(frames) < p.lifetime
    ensures Fly(p, frames, gravity).Some? && Fly(p, others, gravity).Some?
    ensures Fly(p, frames, gravity).value.physY == Fly(p, others, gravity).value.physY
      <==> gravity == 0.0 || Squares(frames) == Squares(others)
  {
    Lifetime(p, frames, gravity);
    Lifetime(p, others, gravity);
    Flight(p, frames, gravity);
    Flight(p, others, gravity);
    DropAgrees(p.vy, gravity, Total(frames), Squares(frames), Squares(others));
  }

  // Any living particle shows it: one frame of a time t, or two of half of it, end a quarter
  // of gravity times t squared apart.
  lemma HalvedFrameFallsFarther(p: Particle, t: real, gravity: real)
    requires p.interval > 0.0 && p.cellSize > 0.0 && t > 0.0 && p.age + t < p.lifetime
    ensures
      var one, two := Fly(p, [t], gravity), Fly(p, [t / 2.0, t / 2.0], gravity);
      one.Some? && two.Some? && two.value.physY - one.value.physY == gravity * Square(t) / 4.0
  {
    var h := t / 2.0;
    OneFrame(t);
    TwoFrames(h, h);
    Lifetime(p, [t], gravity);
    Lifetime(p, [h, h], gravity);
    Flight(p, [t], gravity);
    Flight(p, [h, h], gravity);
    QuarterApart(p.vy, gravity, t);
  }

  lemma OneFrame(t: real)
    ensures Total([t]) == t && Squares([t]) == Square(t)
  {
    var frames := [t];
    assert frames[..|frames|-1] == [];
  }

  lemma TwoFrames(s: real, t: real)
    ensures Total([s, t]) == s + t && Squares([s, t]) == Square(s) + Square(t)
  {
    var frames := [s, t];
    assert frames[..|frames|-1] == [s];
    OneFrame(s);
  }

  lemma QuarterApart(vy: real, gravity: real, t: real)
    ensures Drop(vy, gravity, t, Square(t / 2.0) + Square(t / 2.0)) - Drop(vy, gravity, t, Square(t))
         == gravity * Square(t) / 4.0
  {
    assert Square(t / 2.0) == Square(t) / 4.0;
    var u, v := (t * t - (Square(t / 2.0) + Square(t / 2.0))) / 2.0, (t * t - Square(t)) / 2.0;
    assert u == Square(t) / 4.0 && v == 0.0;
  }

  // The remainder of a particle's timer, unlike its fall, does not depend on the frames.
  lemma {:induction false} TimerIsFrameRateIndependent(p: Particle, frames: seq<real>, gravity: real)
    requires p.interval > 0.0 && p.cellSize > 0.0 && 0.0 <= p.acc && Forward(frames) && frames != []
    requires Fly(p, frames, gravity).Some?
    ensures var time := p.acc + Total(frames) * 1000.0;
      Fly(p, frames, gravity).value.acc == time - Times(Whole(time, p.interval), p.interval)
  {
    var n := |frames| - 1;
    var front, last := frames[..n], frames[n];
    TimesSplits(0, 0, p.interval);
    if n == 0 {
      assert front == [];
    } else {
      TimerIsFrameRateIndependent(p, front, gravity);
      TotalForward(front);
      FallenTwice(Stream(0.0, 0.0, 0, p.interval, p.acc), Total(front) * 1000.0, last * 1000.0, 0.0);
    }
  }

  // x is a grid point, and none is nearer to the position.
  ghost predicate NearestOnGrid(x: real, position: real, cellSize: real) {
    && (exists k: int :: x == Times(k, cellSize))
    && -cellSize / 2.0 < x - position <= cellSize / 2.0
  }

  lemma HalfScaled(d: real, unit: real)
    requires -0.5 < d <= 0.5 && unit > 0.0
    ensures -unit / 2.0 < d * unit <= unit / 2.0
  {
    var below, above := d + 0.5, 0.5 - d;
    assert below * unit > 0.0 && above * unit >= 0.0;
    assert below * unit == d * unit + 0.5 * unit && above * unit == 0.5 * unit - d * unit;
  }

  lemma Rounded(k: int, q: real, unit: real)
    requires k == (q + 0.5).Floor && unit > 0.0
    ensures -unit / 2.0 < Times(k, unit) - q * unit <= unit / 2.0
  {
    var d := k as real - q;
    assert -0.5 < d <= 0.5;
    assert Times(k, unit) - q * unit == d * unit;
    HalfScaled(d, unit);
  }

  lemma SnapIsNearest(position: real, cellSize: real)
    requires cellSize > 0.0
    ensures NearestOnGrid(Snap(position, cellSize), position, cellSize)
  {
    var q := position / cellSize;
    assert q * cellSize == position;
    Rounded((q + 0.5).Floor, q, cellSize);
  }

  // A particle is drawn by cells: it stays where it is until its timer runs out, and then
  // jumps to the grid point nearest to where it has flown.
  lemma DrawnByCells(p: Particle, dt: real, gravity: real)
    requires p.interval > 0.0 && p.cellSize > 0.0 && StepParticle(p, dt, gravity).Some?
    ensures
      var q := StepParticle(p, dt, gravity).value;
      if p.acc + dt * 1000.0 < p.interval then q.x == p.x && q.y == p.y
      else NearestOnGrid(q.x, q.physX, p.cellSize) && NearestOnGrid(q.y, q.physY, p.cellSize)
  {
    var q := StepParticle(p, dt, gravity).value;
    SnapIsNearest(q.physX, p.cellSize);
    SnapIsNearest(q.physY, p.cellSize);
    if p.acc + dt * 1000.0 >= p.interval {
      assert q.x == Snap(q.physX, p.cellSize) && q.y == Snap(q.physY, p.cellSize);
    }
  }

  // ---- Past the bottom ----

  // A column is replaced exactly when every place from its head up to one cell above its last
  // character is below the bottom edge.
  lemma GoneIff(s: Stream, height: real, cellSize: real)
    requires cellSize >= 0.0
    ensures Gone(s, height, cellSize) <==>
      forall k: nat :: k <= s.length ==> s.y - Times(k, cellSize) > height
  {
    forall k: nat | k <= s.length
      ensures Times(k, cellSize) <= Times(s.length, cellSize)
    {
      TimesSplits(k, s.length - k, cellSize);
      TimesKeepsSign(s.length - k, cellSize);
    }
  }

  lemma TimesIs(k: nat, unit: real)
    ensures Times(0, unit) == 0.0 && Times(k + 1, unit) == Times(k, unit) + unit
  {
    TimesSplits(k, 1, unit);
  }

  // A column that has waited for k whole intervals, and not one more, has dropped by k cells
  // and keeps waiting with what is left.
  lemma FallenIs(s: Stream, ms: real, cellSize: real, k: nat)
    requires s.interval > 0.0 && k as real * s.interval <= s.acc + ms < (k + 1) as real * s.interval
    ensures Fallen(s, ms, cellSize) == s.(y := s.y + k as real * cellSize, acc := s.acc + ms - k as real * s.interval)
  {
    TimesKeepsSign(k, s.interval);
    WholeIs(k, s.acc + ms, s.interval);
  }
}
