// Orientation of the spinning shape as an accumulated quaternion, over exact reals.
module Quaternions {
  datatype Vec = Vec(x: real, y: real, z: real)
  datatype Quat = Quat(w: real, x: real, y: real, z: real)

  const IDENTITY := Quat(1.0, 0.0, 0.0, 0.0)

  function Multiply(a: Quat, b: Quat): Quat {
    Quat(a.w * b.w - a.x * b.x - a.y * b.y - a.z * b.z,
         a.w * b.x + a.x * b.w + a.y * b.z - a.z * b.y,
         a.w * b.y - a.x * b.z + a.y * b.w + a.z * b.x,
         a.w * b.z + a.x * b.y - a.y * b.x + a.z * b.w)
  }

  function Norm2(q: Quat): real { q.w * q.w + q.x * q.x + q.y * q.y + q.z * q.z }

  predicate Unit(q: Quat) { Norm2(q) == 1.0 }

  // rotateByQuaternion: p + w t + v x t with t = 2 v x p, for q = (w, v).
  function Rotate(p: Vec, q: Quat): Vec {
    var tx := 2.0 * (q.y * p.z - q.z * p.y);
    var ty := 2.0 * (q.z * p.x - q.x * p.z);
    var tz := 2.0 * (q.x * p.y - q.y * p.x);
    Vec(p.x + q.w * tx + (q.y * tz - q.z * ty),
        p.y + q.w * ty + (q.z * tx - q.x * tz),
        p.z + q.w * tz + (q.x * ty - q.y * tx))
  }

  function RotatedZOnly(p: Vec, q: Quat): real {
    var tx := 2.0 * (q.y * p.z - q.z * p.y);
    var ty := 2.0 * (q.z * p.x - q.x * p.z);
    var tz := 2.0 * (q.x * p.y - q.y * p.x);
    p.z + q.w * tz + (q.x * ty - q.y * tx)
  }

  // ---- The algebra behind it ----

  function Conjugate(q: Quat): Quat { Quat(q.w, -q.x, -q.y, -q.z) }

  function WithVector(d: real, v: Vec): Quat { Quat(d, v.x, v.y, v.z) }

  function Dot(u: Vec, v: Vec): real { u.x * v.x + u.y * v.y + u.z * v.z }

  function Cross(u: Vec, v: Vec): Vec {
    Vec(u.y * v.z - u.z * v.y, u.z * v.x - u.x * v.z, u.x * v.y - u.y * v.x)
  }

  // Products are named, so that the identities below are sums of named terms.
  function Prod(k: real, f: real): real { k * f }

  lemma ByProd(a: Quat, b: Quat)
    ensures Multiply(a, b).w == Prod(a.w, b.w) - Prod(a.x, b.x) - Prod(a.y, b.y) - Prod(a.z, b.z)
    ensures Multiply(a, b).x == Prod(a.w, b.x) + Prod(a.x, b.w) + Prod(a.y, b.z) - Prod(a.z, b.y)
    ensures Multiply(a, b).y == Prod(a.w, b.y) - Prod(a.x, b.z) + Prod(a.y, b.w) + Prod(a.z, b.x)
    ensures Multiply(a, b).z == Prod(a.w, b.z) + Prod(a.x, b.y) - Prod(a.y, b.x) + Prod(a.z, b.w)
  {
  }

  lemma SpreadW(a: Quat, b: Quat, k: real, f: real)
    requires k == a.w * b.w - a.x * b.x - a.y * b.y - a.z * b.z
    ensures Prod(k, f) == a.w * b.w * f - a.x * b.x * f - a.y * b.y * f - a.z * b.z * f
  {
    assert k * f == (a.w * b.w - a.x * b.x - a.y * b.y - a.z * b.z) * f;
  }

  lemma SpreadX(a: Quat, b: Quat, k: real, f: real)
    requires k == a.w * b.x + a.x * b.w + a.y * b.z - a.z * b.y
    ensures Prod(k, f) == a.w * b.x * f + a.x * b.w * f + a.y * b.z * f - a.z * b.y * f
  {
    assert k * f == (a.w * b.x + a.x * b.w + a.y * b.z - a.z * b.y) * f;
  }

  lemma SpreadY(a: Quat, b: Quat, k: real, f: real)
    requires k == a.w * b.y - a.x * b.z + a.y * b.w + a.z * b.x
    ensures Prod(k, f) == a.w * b.y * f - a.x * b.z * f + a.y * b.w * f + a.z * b.x * f
  {
    assert k * f == (a.w * b.y - a.x * b.z + a.y * b.w + a.z * b.x) * f;
  }

  lemma SpreadZ(a: Quat, b: Quat, k: real, f: real)
    requires k == a.w * b.z + a.x * b.y - a.y * b.x + a.z * b.w
    ensures Prod(k, f) == a.w * b.z * f + a.x * b.y * f - a.y * b.x * f + a.z * b.w * f
  {
    assert k * f == (a.w * b.z + a.x * b.y - a.y * b.x + a.z * b.w) * f;
  }

  // The product (a b) f, spread out, for q standing for a b.
  predicate Spreads(q: Quat, a: Quat, b: Quat, f: real) {
    && Prod(q.w, f) == a.w * b.w * f - a.x * b.x * f - a.y * b.y * f - a.z * b.z * f
    && Prod(q.x, f) == a.w * b.x * f + a.x * b.w * f + a.y * b.z * f - a.z * b.y * f
    && Prod(q.y, f) == a.w * b.y * f - a.x * b.z * f + a.y * b.w * f + a.z * b.x * f
    && Prod(q.z, f) == a.w * b.z * f + a.x * b.y * f - a.y * b.x * f + a.z * b.w * f
  }

  predicate SpreadsBy(q: Quat, a: Quat, b: Quat, c: Quat) {
    Spreads(q, a, b, c.w) && Spreads(q, a, b, c.x) && Spreads(q, a, b, c.y) && Spreads(q, a, b, c.z)
  }

  lemma Spread(a: Quat, b: Quat, f: real)
    ensures Spreads(Multiply(a, b), a, b, f)
  {
    var q := Multiply(a, b);
    SpreadW(a, b, q.w, f);
    SpreadX(a, b, q.x, f);
    SpreadY(a, b, q.y, f);
    SpreadZ(a, b, q.z, f);
  }

  lemma SpreadBy(a: Quat, b: Quat, c: Quat)
    ensures SpreadsBy(Multiply(a, b), a, b, c)
  {
    Spread(a, b, c.w);
    Spread(a, b, c.x);
    Spread(a, b, c.y);
    Spread(a, b, c.z);
  }

  lemma AssociativeW(a: Quat, b: Quat, c: Quat, p: Quat, q: Quat)
    requires SpreadsBy(p, a, b, c) && SpreadsBy(q, b, c, a)
    ensures Prod(p.w, c.w) - Prod(p.x, c.x) - Prod(p.y, c.y) - Prod(p.z, c.z)
         == Prod(q.w, a.w) - Prod(q.x, a.x) - Prod(q.y, a.y) - Prod(q.z, a.z)
  {
  }

  lemma AssociativeX(a: Quat, b: Quat, c: Quat, p: Quat, q: Quat)
    requires SpreadsBy(p, a, b, c) && SpreadsBy(q, b, c, a)
    ensures Prod(p.w, c.x) + Prod(p.x, c.w) + Prod(p.y, c.z) - Prod(p.z, c.y)
         == Prod(q.x, a.w) + Prod(q.w, a.x) + Prod(q.z, a.y) - Prod(q.y, a.z)
  {
  }

  lemma AssociativeY(a: Quat, b: Quat, c: Quat, p: Quat, q: Quat)
    requires SpreadsBy(p, a, b, c) && SpreadsBy(q, b, c, a)
    ensures Prod(p.w, c.y) - Prod(p.x, c.z) + Prod(p.y, c.w) + Prod(p.z, c.x)
         == Prod(q.y, a.w) - Prod(q.z, a.x) + Prod(q.w, a.y) + Prod(q.x, a.z)
  {
  }

  lemma AssociativeZ(a: Quat, b: Quat, c: Quat, p: Quat, q: Quat)
    requires SpreadsBy(p, a, b, c) && SpreadsBy(q, b, c, a)
    ensures Prod(p.w, c.z) + Prod(p.x, c.y) - Prod(p.y, c.x) + Prod(p.z, c.w)
         == Prod(q.z, a.w) + Prod(q.y, a.x) - Prod(q.x, a.y) + Prod(q.w, a.z)
  {
  }

  lemma Associative(a: Quat, b: Quat, c: Quat)
    ensures Multiply(Multiply(a, b), c) == Multiply(a, Multiply(b, c))
  {
    var p, q := Multiply(a, b), Multiply(b, c);
    SpreadBy(a, b, c);
    SpreadBy(b, c, a);
    AssociativeW(a, b, c, p, q);
    AssociativeX(a, b, c, p, q);
    AssociativeY(a, b, c, p, q);
    AssociativeZ(a, b, c, p, q);
    ByProd(p, c);
    ByProd(a, q);
  }

  // Products commute, and signs come out.
  lemma Signs(k: real, f: real)
    ensures Prod(k, f) == Prod(f, k) == Prod(-k, -f)
    ensures Prod(-k, f) == -Prod(f, k) == Prod(k, -f)
  {
  }

  lemma ConjugateW(a: Quat, b: Quat)
    ensures Multiply(Conjugate(b), Conjugate(a)).w == Multiply(a, b).w
  {
    ByProd(a, b);
    ByProd(Conjugate(b), Conjugate(a));
    Signs(b.w, a.w); Signs(b.x, a.x); Signs(b.y, a.y); Signs(b.z, a.z);
  }

  lemma ConjugateX(a: Quat, b: Quat)
    ensures Multiply(Conjugate(b), Conjugate(a)).x == -Multiply(a, b).x
  {
    ByProd(a, b);
    ByProd(Conjugate(b), Conjugate(a));
    Signs(b.x, a.w); Signs(b.w, a.x); Signs(b.z, a.y); Signs(b.y, a.z);
  }

  lemma ConjugateY(a: Quat, b: Quat)
    ensures Multiply(Conjugate(b), Conjugate(a)).y == -Multiply(a, b).y
  {
    ByProd(a, b);
    ByProd(Conjugate(b), Conjugate(a));
    Signs(b.y, a.w); Signs(b.z, a.x); Signs(b.w, a.y); Signs(b.x, a.z);
  }

  lemma ConjugateZ(a: Quat, b: Quat)
    ensures Multiply(Conjugate(b), Conjugate(a)).z == -Multiply(a, b).z
  {
    ByProd(a, b);
    ByProd(Conjugate(b), Conjugate(a));
    Signs(b.z, a.w); Signs(b.y, a.x); Signs(b.x, a.y); Signs(b.w, a.z);
  }

  lemma ConjugateOfProduct(a: Quat, b: Quat)
    ensures Conjugate(Multiply(a, b)) == Multiply(Conjugate(b), Conjugate(a))
  {
    ConjugateW(a, b);
    ConjugateX(a, b);
    ConjugateY(a, b);
    ConjugateZ(a, b);
  }

  lemma ConjugateInverts(q: Quat)
    ensures Multiply(q, Conjugate(q)) == Scalar(Norm2(q)) == Multiply(Conjugate(q), q)
  {
  }

  function Scalar(n: real): Quat { Quat(n, 0.0, 0.0, 0.0) }

  lemma ScalarProduct(n: real, m: real, q: Quat)
    ensures Multiply(Scalar(n), q) == Multiply(q, Scalar(n)) == Quat(n * q.w, n * q.x, n * q.y, n * q.z)
    ensures Multiply(Scalar(n), Scalar(m)) == Scalar(n * m)
  {
  }

  lemma IdentityProduct(q: Quat)
    ensures Multiply(IDENTITY, q) == q == Multiply(q, IDENTITY)
  {
  }

  // The norm is multiplicative: (a b)(a b)* = a (b b*) a*.
  lemma NormMultiplies(a: Quat, b: Quat)
    ensures Norm2(Multiply(a, b)) == Norm2(a) * Norm2(b)
  {
    var ab, ca, cb := Multiply(a, b), Conjugate(a), Conjugate(b);
    ConjugateInverts(a);
    ConjugateInverts(b);
    ConjugateInverts(ab);
    ConjugateOfProduct(a, b);
    Associative(a, b, Multiply(cb, ca));
    Associative(b, cb, ca);
    ScalarProduct(Norm2(b), 0.0, ca);
    Associative(a, ca, Scalar(Norm2(b)));
    ScalarProduct(Norm2(a), Norm2(b), a);
  }

  function Sandwich(q: Quat, r: Quat): Quat { Multiply(Multiply(q, r), Conjugate(q)) }

  lemma ByConjugate(s: Quat, q: Quat)
    ensures Multiply(s, Conjugate(q)) ==
      Quat(Prod(s.w, q.w) + Prod(s.x, q.x) + Prod(s.y, q.y) + Prod(s.z, q.z),
           Prod(s.x, q.w) - Prod(s.w, q.x) - Prod(s.y, q.z) + Prod(s.z, q.y),
           Prod(s.y, q.w) - Prod(s.w, q.y) + Prod(s.x, q.z) - Prod(s.z, q.x),
           Prod(s.z, q.w) - Prod(s.w, q.z) - Prod(s.x, q.y) + Prod(s.y, q.x))
  {
  }

  lemma UnitTimes(q: Quat, f: real)
    requires Unit(q)
    ensures q.w * q.w * f + q.x * q.x * f + q.y * q.y * f + q.z * q.z * f == f
  {
    assert (q.w * q.w + q.x * q.x + q.y * q.y + q.z * q.z) * f == 1.0 * f;
  }

  lemma RotatedX(q: Quat, r: Quat)
    ensures Rotate(Vec(r.x, r.y, r.z), q).x ==
      r.x + 2.0 * (q.w * q.y * r.z - q.w * q.z * r.y + q.y * q.x * r.y
                   - q.y * q.y * r.x - q.z * q.z * r.x + q.z * q.x * r.z)
  {
  }

  lemma RotatedY(q: Quat, r: Quat)
    ensures Rotate(Vec(r.x, r.y, r.z), q).y ==
      r.y + 2.0 * (q.w * q.z * r.x - q.w * q.x * r.z + q.z * q.y * r.z
                   - q.z * q.z * r.y - q.x * q.x * r.y + q.x * q.y * r.x)
  {
  }

  lemma RotatedZ(q: Quat, r: Quat)
    ensures Rotate(Vec(r.x, r.y, r.z), q).z ==
      r.z + 2.0 * (q.w * q.x * r.y - q.w * q.y * r.x + q.x * q.z * r.x
                   - q.x * q.x * r.z - q.y * q.y * r.z + q.y * q.z * r.y)
  {
  }

  lemma SandwichW(q: Quat, r: Quat, s: Quat)
    requires SpreadsBy(s, q, r, q)
    requires q.w * q.w * r.w + q.x * q.x * r.w + q.y * q.y * r.w + q.z * q.z * r.w == r.w
    ensures Prod(s.w, q.w) + Prod(s.x, q.x) + Prod(s.y, q.y) + Prod(s.z, q.z) == r.w
  {
  }

  lemma SandwichX(q: Quat, r: Quat, s: Quat)
    requires SpreadsBy(s, q, r, q)
    requires q.w * q.w * r.x + q.x * q.x * r.x + q.y * q.y * r.x + q.z * q.z * r.x == r.x
    ensures Prod(s.x, q.w) - Prod(s.w, q.x) - Prod(s.y, q.z) + Prod(s.z, q.y) ==
      r.x + 2.0 * (q.w * q.y * r.z - q.w * q.z * r.y + q.y * q.x * r.y
                   - q.y * q.y * r.x - q.z * q.z * r.x + q.z * q.x * r.z)
  {
  }

  lemma SandwichY(q: Quat, r: Quat, s: Quat)
    requires SpreadsBy(s, q, r, q)
    requires q.w * q.w * r.y + q.x * q.x * r.y + q.y * q.y * r.y + q.z * q.z * r.y == r.y
    ensures Prod(s.y, q.w) - Prod(s.w, q.y) + Prod(s.x, q.z) - Prod(s.z, q.x) ==
      r.y + 2.0 * (q.w * q.z * r.x - q.w * q.x * r.z + q.z * q.y * r.z
                   - q.z * q.z * r.y - q.x * q.x * r.y + q.x * q.y * r.x)
  {
  }

  lemma SandwichZ(q: Quat, r: Quat, s: Quat)
    requires SpreadsBy(s, q, r, q)
    requires q.w * q.w * r.z + q.x * q.x * r.z + q.y * q.y * r.z + q.z * q.z * r.z == r.z
    ensures Prod(s.z, q.w) - Prod(s.w, q.z) - Prod(s.x, q.y) + Prod(s.y, q.x) ==
      r.z + 2.0 * (q.w * q.x * r.y - q.w * q.y * r.x + q.x * q.z * r.x
                   - q.x * q.x * r.z - q.y * q.y * r.z + q.y * q.z * r.y)
  {
  }

  // For a unit q, q r q* leaves the scalar part alone and rotates the vector part.
  lemma SandwichRotates(q: Quat, d: real, v: Vec)
    requires Unit(q)
    ensures Sandwich(q, WithVector(d, v)) == WithVector(d, Rotate(v, q))
  {
    var r := WithVector(d, v);
    var s := Multiply(q, r);
    SpreadBy(q, r, q);
    assert v == Vec(r.x, r.y, r.z);
    UnitTimes(q, r.w);
    SandwichW(q, r, s);
    ByConjugate(s, q);
    UnitTimes(q, r.x);
    SandwichX(q, r, s);
    RotatedX(q, r);
    UnitTimes(q, r.y);
    SandwichY(q, r, s);
    RotatedY(q, r);
    UnitTimes(q, r.z);
    SandwichZ(q, r, s);
    RotatedZ(q, r);
  }

  // ---- Rotations ----

  // Rotating by b and then by a is rotating by the product a b.
  lemma Composition(p: Vec, a: Quat, b: Quat)
    requires Unit(a) && Unit(b)
    ensures Unit(Multiply(a, b))
    ensures Rotate(Rotate(p, b), a) == Rotate(p, Multiply(a, b))
  {
    NormMultiplies(a, b);
    ConjugateOfProduct(a, b);
    var r, ab, ca, cb := WithVector(0.0, p), Multiply(a, b), Conjugate(a), Conjugate(b);
    SandwichRotates(b, 0.0, p);
    SandwichRotates(a, 0.0, Rotate(p, b));
    SandwichRotates(ab, 0.0, p);
    Associative(a, Multiply(b, r), cb);
    Associative(Multiply(a, Multiply(b, r)), cb, ca);
    Associative(a, b, r);
  }

  // One product of quaternions carries both the dot and the cross product.
  lemma VectorProduct(u: Vec, v: Vec)
    ensures Multiply(WithVector(0.0, u), WithVector(0.0, v)) == WithVector(-Dot(u, v), Cross(u, v))
  {
  }

  // A unit quaternion acts as a proper rotation: it preserves dot products (so lengths
  // and angles) and orientation.
  lemma RotationIsProper(u: Vec, v: Vec, q: Quat)
    requires Unit(q)
    ensures Dot(Rotate(u, q), Rotate(v, q)) == Dot(u, v)
    ensures Cross(Rotate(u, q), Rotate(v, q)) == Rotate(Cross(u, v), q)
  {
    var r, s := WithVector(0.0, u), WithVector(0.0, v);
    SandwichRotates(q, 0.0, u);
    SandwichRotates(q, 0.0, v);
    SandwichRotates(q, -Dot(u, v), Cross(u, v));
    VectorProduct(u, v);
    VectorProduct(Rotate(u, q), Rotate(v, q));
    SandwichProduct(q, r, s);
  }

  lemma SandwichProduct(q: Quat, r: Quat, s: Quat)
    requires Unit(q)
    ensures Multiply(Sandwich(q, r), Sandwich(q, s)) == Sandwich(q, Multiply(r, s))
  {
    var k, qr := Conjugate(q), Multiply(q, r);
    Associative(q, s, k);
    Associative(qr, k, Multiply(q, Multiply(s, k)));
    Associative(k, q, Multiply(s, k));
    ConjugateInverts(q);
    IdentityProduct(Multiply(s, k));
    Associative(qr, s, k);
    Associative(q, r, s);
  }

  lemma ConjugateUnit(q: Quat)
    ensures Norm2(Conjugate(q)) == Norm2(q)
  {
  }

  lemma RotateByIdentity(p: Vec)
    ensures Rotate(p, IDENTITY) == p
  {
  }

  // The conjugate turns back.
  lemma RotationInverts(p: Vec, q: Quat)
    requires Unit(q)
    ensures Unit(Conjugate(q)) && Rotate(Rotate(p, q), Conjugate(q)) == p
  {
    ConjugateUnit(q);
    ConjugateInverts(q);
    Composition(p, Conjugate(q), q);
    RotateByIdentity(p);
  }

  lemma ZOnlyIsZ(p: Vec, q: Quat)
    ensures RotatedZOnly(p, q) == Rotate(p, q).z
  {
  }

  // ---- Accumulating spin ----

  // quatNormalize, given the length it computes; a zero length is replaced by one.
  function Normalized(q: Quat, length: real): Quat {
    var l := if length == 0.0 then 1.0 else length;
    Quat(q.w / l, q.x / l, q.y / l, q.z / l)
  }

  predicate IsLength(q: Quat, length: real) { length >= 0.0 && length * length == Norm2(q) }

  // The solver does not multiply equations on its own.
  lemma Both(k: real, e: real, l: real, f: real)
    requires k == e && l == f
    ensures k * l == e * f
  {
  }

  lemma PositiveProduct(k: real, l: real)
    requires k > 0.0 && l > 0.0
    ensures Prod(k, l) > 0.0
  {
  }

  lemma TimesThenOver(x: real, k: real)
    requires k > 0.0
    ensures Prod(x, k) / k == x
  {
  }

  lemma SquareOfQuotient(w: real, l: real)
    requires l > 0.0 && Prod(l, l) > 0.0
    ensures Prod(w / l, w / l) == Prod(w, w) / Prod(l, l)
  {
    var a := w / l;
    assert w == a * l;
    Both(w, a * l, w, a * l);
    assert Prod(w, w) == Prod(Prod(a, a), Prod(l, l));
    TimesThenOver(Prod(a, a), Prod(l, l));
  }

  lemma Shares(e: real, f: real, g: real, h: real, whole: real)
    requires whole > 0.0 && e + f + g + h == whole
    ensures e / whole + f / whole + g / whole + h / whole == 1.0
  {
    assert e / whole + f / whole + g / whole + h / whole == (e + f + g + h) / whole;
  }

  lemma Divided(w: real, x: real, y: real, z: real, l: real)
    requires l > 0.0 && Prod(w, w) + Prod(x, x) + Prod(y, y) + Prod(z, z) == Prod(l, l)
    ensures Prod(w / l, w / l) + Prod(x / l, x / l) + Prod(y / l, y / l) + Prod(z / l, z / l) == 1.0
  {
    PositiveProduct(l, l);
    SquareOfQuotient(w, l);
    SquareOfQuotient(x, l);
    SquareOfQuotient(y, l);
    SquareOfQuotient(z, l);
    Shares(Prod(w, w), Prod(x, x), Prod(y, y), Prod(z, z), Prod(l, l));
  }

  lemma NormByProd(q: Quat)
    ensures Norm2(q) == Prod(q.w, q.w) + Prod(q.x, q.x) + Prod(q.y, q.y) + Prod(q.z, q.z)
  {
  }

  // Normalising yields a unit exactly when there is a direction to keep.
  lemma NormalizedUnit(q: Quat, length: real)
    requires IsLength(q, length)
    ensures Unit(Normalized(q, length)) <==> Norm2(q) > 0.0
  {
    if length == 0.0 {
      assert Normalized(q, length) == q;
    } else {
      NormByProd(q);
      NormByProd(Normalized(q, length));
      assert Prod(length, length) == Norm2(q);
      Divided(q.w, q.x, q.y, q.z, length);
      PositiveProduct(length, length);
    }
  }

  lemma UnitIsNormal(q: Quat, length: real)
    requires Unit(q) && IsLength(q, length)
    ensures Normalized(q, length) == q
  {
    RootOfOne(length);
  }

  lemma SquareSide(l: real)
    requires l >= 0.0
    ensures l < 1.0 ==> l * l < 1.0
    ensures l > 1.0 ==> l * l > 1.0
  {
    if l < 1.0 {
      assert l * l <= l * 1.0;
    } else {
      assert l * l >= l * 1.0;
    }
  }

  lemma RootOfOne(l: real)
    requires l >= 0.0 && l * l == 1.0
    ensures l == 1.0
  {
    SquareSide(l);
  }

  // One frame: a rotation increment and the length the normalisation computes.
  datatype Frame = Frame(increment: Quat, length: real)

  function Accumulate(start: Quat, frames: seq<Frame>): Quat {
    if frames == [] then start
    else
      var last := frames[|frames|-1];
      Normalized(Multiply(last.increment, Accumulate(start, frames[..|frames|-1])), last.length)
  }

  predicate Lengths(start: Quat, frames: seq<Frame>) {
    forall i :: 0 <= i < |frames| ==>
      IsLength(Multiply(frames[i].increment, Accumulate(start, frames[..i])), frames[i].length)
  }

  lemma LengthsPrefix(start: Quat, frames: seq<Frame>)
    requires frames != [] && Lengths(start, frames)
    ensures var n := |frames| - 1;
      && Lengths(start, frames[..n])
      && IsLength(Multiply(frames[n].increment, Accumulate(start, frames[..n])), frames[n].length)
  {
    var n := |frames| - 1;
    forall i | 0 <= i < n
      ensures IsLength(Multiply(frames[..n][i].increment, Accumulate(start, frames[..n][..i])), frames[..n][i].length)
    {
      assert frames[..n][..i] == frames[..i];
    }
  }

  predicate Turns(frames: seq<Frame>) {
    forall i :: 0 <= i < |frames| ==> Norm2(frames[i].increment) > 0.0
  }

  lemma NormIsNotNegative(q: Quat)
    ensures Norm2(q) >= 0.0
  {
  }

  lemma ZeroLength(q: Quat, length: real)
    requires IsLength(q, length) && Norm2(q) == 0.0
    ensures Normalized(q, length) == q
  {
    if length > 0.0 {
      PositiveProduct(length, length);
      assert false;
    }
  }

  lemma FrameKeepsUnit(increment: Quat, before: Quat, length: real)
    requires IsLength(Multiply(increment, before), length)
    requires Norm2(increment) > 0.0 && Unit(before)
    ensures Unit(Normalized(Multiply(increment, before), length))
  {
    NormMultiplies(increment, before);
    Both(Norm2(increment), Norm2(increment), Norm2(before), 1.0);
    NormalizedUnit(Multiply(increment, before), length);
  }

  lemma FrameCollapses(increment: Quat, before: Quat, length: real)
    requires IsLength(Multiply(increment, before), length)
    requires Norm2(increment) == 0.0 || Norm2(before) == 0.0
    ensures Norm2(Normalized(Multiply(increment, before), length)) == 0.0
  {
    NormMultiplies(increment, before);
    ZeroLength(Multiply(increment, before), length);
  }

  // However long the shape spins, its orientation stays a unit quaternion, unless an
  // increment was zero: that collapses it to zero for good.
  lemma {:induction false} OrientationStaysUnit(start: Quat, frames: seq<Frame>)
    requires Unit(start) && Lengths(start, frames)
    ensures Norm2(Accumulate(start, frames)) == if Turns(frames) then 1.0 else 0.0
  {
    if frames != [] {
      var n := |frames| - 1;
      LengthsPrefix(start, frames);
      OrientationStaysUnit(start, frames[..n]);
      NormIsNotNegative(frames[n].increment);
      if Turns(frames[..n]) && Norm2(frames[n].increment) > 0.0 {
        assert Turns(frames);
        FrameKeepsUnit(frames[n].increment, Accumulate(start, frames[..n]), frames[n].length);
      } else {
        assert !Turns(frames);
        FrameCollapses(frames[n].increment, Accumulate(start, frames[..n]), frames[n].length);
      }
    }
  }

  function RotateThrough(p: Vec, frames: seq<Frame>): Vec {
    if frames == [] then p else Rotate(RotateThrough(p, frames[..|frames|-1]), frames[|frames|-1].increment)
  }

  // And it stands for the whole motion: a point turned by the accumulated orientation is
  // the point turned by the start and then by every increment, in order.
  lemma {:induction false} OrientationIsTheMotion(p: Vec, start: Quat, frames: seq<Frame>)
    requires Unit(start) && Lengths(start, frames)
    requires forall i :: 0 <= i < |frames| ==> Unit(frames[i].increment)
    ensures Unit(Accumulate(start, frames))
    ensures Rotate(p, Accumulate(start, frames)) == RotateThrough(Rotate(p, start), frames)
  {
    if frames != [] {
      var n := |frames| - 1;
      LengthsPrefix(start, frames);
      OrientationIsTheMotion(p, start, frames[..n]);
      Composition(p, frames[n].increment, Accumulate(start, frames[..n]));
      UnitIsNormal(Multiply(frames[n].increment, Accumulate(start, frames[..n])), frames[n].length);
    }
  }

  // quatFromAngularVelocity: `magnitude` is the hypotenuse of (vx, vy), c and s are the
  // cosine and sine of half the angle turned.
  function AngularIncrement(vx: real, vy: real, magnitude: real, c: real, s: real): Quat {
    if magnitude == 0.0 then IDENTITY else Quat(c, (vx / magnitude) * s, (vy / magnitude) * s, 0.0)
  }

  lemma IncrementIsUnit(vx: real, vy: real, magnitude: real, c: real, s: real)
    requires magnitude >= 0.0 && magnitude * magnitude == vx * vx + vy * vy && c * c + s * s == 1.0
    ensures Unit(AngularIncrement(vx, vy, magnitude, c, s))
  {
    if magnitude != 0.0 {
      var a, b := vx / magnitude, vy / magnitude;
      Divided(vx, vy, 0.0, 0.0, magnitude);
      assert 0.0 / magnitude == 0.0;
      assert a * a + b * b == 1.0;
      Both(a * a + b * b, 1.0, s * s, s * s);
    }
  }

  // The increment of a motion (vx, vy) leaves its axis where it is, and turns what faces away
  // from the viewer over it, by the angle of whose half c and s are the cosine and sine.
  lemma IncrementTurns(vx: real, vy: real, magnitude: real, c: real, s: real)
    requires magnitude > 0.0 && magnitude * magnitude == vx * vx + vy * vy && c * c + s * s == 1.0
    ensures
      var a, b, q := vx / magnitude, vy / magnitude, AngularIncrement(vx, vy, magnitude, c, s);
      && Rotate(Vec(a, b, 0.0), q) == Vec(a, b, 0.0)
      && Rotate(Vec(0.0, 0.0, 1.0), q) == Vec(b * (2.0 * s * c), -(a * (2.0 * s * c)), 1.0 - 2.0 * s * s)
  {
    var a, b := vx / magnitude, vy / magnitude;
    Divided(vx, vy, 0.0, 0.0, magnitude);
    assert 0.0 / magnitude == 0.0;
    assert a * a + b * b == 1.0;
    TurnsOver(a, b, c, s);
    assert AngularIncrement(vx, vy, magnitude, c, s) == Quat(c, a * s, b * s, 0.0);
  }

  lemma TurnsOver(a: real, b: real, c: real, s: real)
    requires a * a + b * b == 1.0
    ensures
      var q := Quat(c, a * s, b * s, 0.0);
      && Rotate(Vec(a, b, 0.0), q) == Vec(a, b, 0.0)
      && Rotate(Vec(0.0, 0.0, 1.0), q) == Vec(b * (2.0 * s * c), -(a * (2.0 * s * c)), 1.0 - 2.0 * s * s)
  {
    assert a * s * (a * s) + b * s * (b * s) == (a * a + b * b) * (s * s);
  }
}
