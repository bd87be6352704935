/** Scalar multiplication on twisted Edwards points in extended coordinates (section 5.1.4 of RFC 8032). */
module Edwards {

  datatype Point = Point(x: int, y: int, z: int, t: int)

  // The field of the curve. `d` below is the curve's constant; nothing here depends on its value.
  const P := 0x7FFF_FFFF_FFFF_FFFF_FFFF_FFFF_FFFF_FFFF_FFFF_FFFF_FFFF_FFFF_FFFF_FFFF_FFFF_FFED

  const IDENTITY := Point(0, 1, 1, 0)

  function Add(a: Point, b: Point, d: int, p: int): Point
    requires p > 0
  {
    var e := (a.y - a.x) * (b.y - b.x) % p;
    var f := (a.y + a.x) * (b.y + b.x) % p;
    var g := 2 * a.t * b.t * d % p;
    var h := 2 * a.z * b.z % p;
    Point((f - e) * (h - g) % p, (h + g) * (f + e) % p, (h - g) * (h + g) % p, (f - e) * (f + e) % p)
  }

  predicate Equal(a: Point, b: Point, p: int)
    requires p > 0
  {
    (a.x * b.z - b.x * a.z) % p == 0 && (a.y * b.z - b.y * a.z) % p == 0
  }

  // Double and add, for any addition.
  function Ladder(scalar: nat, point: Point, result: Point, add: (Point, Point) -> Point): Point
    decreases scalar
  {
    if scalar == 0 then result
    else Ladder(scalar / 2, add(point, point), if scalar % 2 == 1 then add(result, point) else result, add)
  }

  // The loop's variables: bits left, the point doubled so far, the sum so far.
  datatype Progress = Progress(left: nat, doubled: Point, result: Point)

  function After(k: nat, scalar: nat, point: Point, add: (Point, Point) -> Point): Progress {
    if k == 0 then Progress(scalar, point, IDENTITY)
    else
      var s := After(k - 1, scalar, point, add);
      Progress(s.left / 2, add(s.doubled, s.doubled), if s.left % 2 == 1 then add(s.result, s.doubled) else s.result)
  }

  method Multiply(scalar: nat, point: Point, add: (Point, Point) -> Point) returns (result: Point)
    ensures result == Ladder(scalar, point, IDENTITY, add)
    ensures exists k :: After(k, scalar, point, add).left == 0 && After(k, scalar, point, add).result == result
  {
    result := IDENTITY;
    var left, doubled := scalar, point;
    ghost var k: nat := 0;
    while left != 0
      invariant Ladder(left, doubled, result, add) == Ladder(scalar, point, IDENTITY, add)
      invariant After(k, scalar, point, add) == Progress(left, doubled, result)
      decreases left
    {
      if left % 2 == 1 { result := add(result, doubled); }
      doubled := add(doubled, doubled);
      left := left / 2;
      k := k + 1;
    }
  }

  // ----- repeated addition

  ghost predicate IsMonoid<G(!new)>(op: (G, G) -> G, unit: G) {
    && (forall a, b, c :: op(op(a, b), c) == op(a, op(b, c)))
    && (forall a :: op(unit, a) == a && op(a, unit) == a)
  }

  // `add` on the points of `on` is `op` on what the points stand for, and IDENTITY stands for `unit`.
  ghost predicate StandsFor<G(!new)>(add: (Point, Point) -> Point, on: Point -> bool, value: Point -> G, op: (G, G) -> G, unit: G) {
    && on(IDENTITY) && value(IDENTITY) == unit
    && (forall a, b | on(a) && on(b) :: on(add(a, b)) && value(add(a, b)) == op(value(a), value(b)))
  }

  ghost function Times<G>(n: nat, g: G, op: (G, G) -> G, unit: G): G {
    if n == 0 then unit else op(Times(n - 1, g, op, unit), g)
  }

  lemma {:induction false} TimesLeft<G(!new)>(n: nat, g: G, op: (G, G) -> G, unit: G)
    requires IsMonoid(op, unit)
    ensures op(g, Times(n, g, op, unit)) == Times(n + 1, g, op, unit)
  {
    if n > 0 {
      TimesLeft(n - 1, g, op, unit);
      assert op(op(g, Times(n - 1, g, op, unit)), g) == op(g, op(Times(n - 1, g, op, unit), g));
    }
  }

  lemma {:induction false} TimesDouble<G(!new)>(n: nat, g: G, op: (G, G) -> G, unit: G)
    requires IsMonoid(op, unit)
    ensures Times(n, op(g, g), op, unit) == Times(2 * n, g, op, unit)
  {
    if n > 0 {
      TimesDouble(n - 1, g, op, unit);
      var t := Times(2 * (n - 1), g, op, unit);
      assert op(op(t, g), g) == op(t, op(g, g));
      assert Times(2 * n, g, op, unit) == op(Times(2 * n - 1, g, op, unit), g);
      assert Times(2 * n - 1, g, op, unit) == op(t, g);
    }
  }

  // A run of the loop adds `scalar` copies of the point to what it has.
  lemma {:induction false} LadderAdds<G(!new)>(scalar: nat, point: Point, result: Point, add: (Point, Point) -> Point,
                                               on: Point -> bool, value: Point -> G, op: (G, G) -> G, unit: G)
    requires IsMonoid(op, unit) && StandsFor(add, on, value, op, unit) && on(point) && on(result)
    ensures on(Ladder(scalar, point, result, add))
    ensures value(Ladder(scalar, point, result, add)) == op(value(result), Times(scalar, value(point), op, unit))
    decreases scalar
  {
    if scalar > 0 {
      var half, g := scalar / 2, value(point);
      var next := if scalar % 2 == 1 then add(result, point) else result;
      LadderAdds(half, add(point, point), next, add, on, value, op, unit);
      TimesDouble(half, g, op, unit);
      if scalar % 2 == 1 {
        assert scalar == 2 * half + 1;
        TimesLeft(2 * half, g, op, unit);
        assert op(op(value(result), g), Times(2 * half, g, op, unit)) == op(value(result), op(g, Times(2 * half, g, op, unit)));
      } else {
        assert scalar == 2 * half;
      }
    }
  }

  // Multiplying is repeated addition, for every scalar.
  lemma MultiplyIsRepeatedAddition<G(!new)>(scalar: nat, point: Point, add: (Point, Point) -> Point,
                                            on: Point -> bool, value: Point -> G, op: (G, G) -> G, unit: G)
    requires IsMonoid(op, unit) && StandsFor(add, on, value, op, unit) && on(point)
    ensures value(Ladder(scalar, point, IDENTITY, add)) == Times(scalar, value(point), op, unit)
  {
    LadderAdds(scalar, point, IDENTITY, add, on, value, op, unit);
  }

  // ----- the coordinates

  lemma {:induction false} SubtractsMultiple(n: int, k: int, p: int)
    requires p > 0
    ensures (n - p * k) % p == n % p
  {
    var q, r := (n - p * k) / p, (n - p * k) % p;
    var d := q + k - n / p;
    assert p * d == n % p - r;
    assert d > 0 ==> p * d >= p;
    assert d < 0 ==> p * d <= -p;
  }

  lemma ModProduct(a: int, b: int, p: int)
    requires p > 0
    ensures ((a % p) * (b % p)) % p == (a * b) % p
  {
    ModLeft(a, b, p);
    ModLeft(b, a % p, p);
    assert (b % p) * (a % p) == (a % p) * (b % p) && b * (a % p) == (a % p) * b;
  }

  lemma ModLeft(a: int, b: int, p: int)
    requires p > 0
    ensures ((a % p) * b) % p == (a * b) % p
  {
    Parts(a, a / p, a % p, b, p);
    SubtractsMultiple(a * b, (a / p) * b, p);
  }

  lemma Parts(a: int, q: int, r: int, b: int, p: int)
    requires a == p * q + r
    ensures r * b == a * b - p * (q * b)
  {
    calc {
      a * b;
      (p * q) * b + r * b;
      p * (q * b) + r * b;
    }
  }

  // x·y and z·t agree, as extended coordinates must.
  predicate Tied(a: Point, p: int)
    requires p > 0
  {
    (a.x * a.y) % p == (a.z * a.t) % p
  }

  lemma Regroup(u: int, v: int, w: int, s: int)
    ensures (u * v) * (w * s) == (v * w) * (u * s)
  {
  }

  lemma AddTied(a: Point, b: Point, d: int, p: int)
    requires p > 0
    ensures Tied(Add(a, b, d, p), p)
  {
    var e := (a.y - a.x) * (b.y - b.x) % p;
    var f := (a.y + a.x) * (b.y + b.x) % p;
    var g := 2 * a.t * b.t * d % p;
    var h := 2 * a.z * b.z % p;
    TiedFrom(f - e, h - g, h + g, f + e, p);
  }

  lemma TiedFrom(u: int, v: int, w: int, s: int, p: int)
    requires p > 0
    ensures ((u * v % p) * (w * s % p)) % p == ((v * w % p) * (u * s % p)) % p
  {
    ModProduct(u * v, w * s, p);
    ModProduct(v * w, u * s, p);
    Regroup(u, v, w, s);
  }

  // Every point the loop ever holds keeps its coordinates tied, whatever the scalar.
  lemma {:induction false} EveryPointTied(k: nat, scalar: nat, point: Point, d: int, p: int)
    requires p > 0 && Tied(point, p)
    ensures var s := After(k, scalar, point, (a: Point, b: Point) => Add(a, b, d, p)); Tied(s.doubled, p) && Tied(s.result, p)
  {
    hide Add;
    hide Tied;
    if k == 0 {
      StartsTied(0, 1, p);
    } else {
      EveryPointTied(k - 1, scalar, point, d, p);
      var s := After(k - 1, scalar, point, (a: Point, b: Point) => Add(a, b, d, p));
      AddTied(s.doubled, s.doubled, d, p);
      AddTied(s.result, s.doubled, d, p);
    }
  }

  lemma StartsTied(x: int, y: int, p: int)
    requires p > 0
    ensures Tied(Point(x, y, 1, x * y % p), p) && Tied(IDENTITY, p)
  {
    SubtractsMultiple(x * y, x * y / p, p);
  }

  // In the field of the curve, from any affine point.
  lemma MultiplyStaysTied(k: nat, scalar: nat, x: int, y: int, d: int)
    ensures var s := After(k, scalar, Point(x, y, 1, x * y % P), (a: Point, b: Point) => Add(a, b, d, P)); Tied(s.doubled, P) && Tied(s.result, P)
  {
    hide Add;
    hide Tied;
    StartsTied(x, y, P);
    EveryPointTied(k, scalar, Point(x, y, 1, x * y % P), d, P);
  }

  // ----- the identity

  lemma MultipleIsZero(k: int, p: int)
    requires p > 0
    ensures (p * k) % p == 0
  {
    SubtractsMultiple(0, -k, p);
  }

  lemma Expand(u: int, x: int, m: int, z: int, p: int)
    requires u == 2 * x + p * m
    ensures u * z == 2 * (x * z) + p * (m * z)
  {
    assert u * z == (2 * x) * z + (p * m) * z;
  }

  lemma Factor(u: int, h: int, x: int, z: int)
    ensures (u * h) * z - x * (h * h) == h * (u * z - x * h)
  {
    assert (u * h) * z == h * (u * z);
    assert x * (h * h) == h * (x * h);
  }

  lemma CrossTerms(u: int, h: int, x: int, z: int, m: int, n: int, p: int)
    requires u == 2 * x + p * m && h == 2 * z + p * n
    ensures (u * h) * z - x * (h * h) == p * (h * (m * z - x * n))
  {
    Factor(u, h, x, z);
    Expand(u, x, m, z, p);
    Expand(h, z, n, x, p);
    assert u * z - x * h == p * (m * z) - p * (n * x);
    var c := m * z - x * n;
    assert p * (m * z) - p * (n * x) == p * c;
    assert h * (p * c) == p * (h * c);
  }

  lemma Reduced(n: int, z: int, p: int)
    requires p > 0
    ensures (n % p) * z == n * z - p * ((n / p) * z)
  {
    assert n == p * (n / p) + n % p;
    assert n * z == p * (n / p) * z + (n % p) * z;
  }

  // A coordinate and z, both scaled alike, reduced at every step.
  lemma ScaledIsEqual(u: int, h: int, x: int, z: int, m: int, n: int, p: int)
    requires p > 0 && u == 2 * x + p * m && h == 2 * z + p * n
    ensures ((u * h % p) * z - x * (h * h % p)) % p == 0
  {
    CrossTerms(u, h, x, z, m, n, p);
    Reduced(u * h, z, p);
    Reduced(h * h, x, p);
    var i, j, k := (u * h / p) * z, (h * h / p) * x, h * (m * z - x * n);
    assert (u * h % p) * z - x * (h * h % p) == p * k - p * i + p * j;
    assert p * k - p * i + p * j == p * (k - i + j);
    MultipleIsZero(k - i + j, p);
  }

  lemma AddIdentity(a: Point, d: int, p: int)
    requires p > 0
    ensures var e, f, h := (a.y - a.x) % p, (a.y + a.x) % p, 2 * a.z % p;
            Add(a, IDENTITY, d, p) == Point((f - e) * h % p, (f + e) * h % p, h * h % p, (f - e) * (f + e) % p)
  {
    var e, f, h := (a.y - a.x) % p, (a.y + a.x) % p, 2 * a.z % p;
    assert h * (f + e) == (f + e) * h;
    assert 2 * a.t * IDENTITY.t * d == 0;
  }

  lemma Sides(x: int, y: int, p: int) returns (m: int, n: int)
    requires p > 0
    ensures (y + x) % p - (y - x) % p == 2 * x + p * m
    ensures (y + x) % p + (y - x) % p == 2 * y + p * n
  {
    var i, j := (y - x) / p, (y + x) / p;
    m, n := i - j, -i - j;
    assert p * m == p * i - p * j;
    assert p * n == -(p * i) - p * j;
  }

  lemma Twice(z: int, p: int) returns (n: int)
    requires p > 0
    ensures 2 * z % p == 2 * z + p * n
  {
    n := -(2 * z / p);
    assert p * n == -(p * (2 * z / p));
  }

  lemma EqualFrom(q: Point, a: Point, p: int)
    requires p > 0 && (q.x * a.z - a.x * q.z) % p == 0 && (q.y * a.z - a.y * q.z) % p == 0
    ensures Equal(q, a, p)
  {
  }

  // Adding (0, 1, 1, 0) changes nothing that Equal sees.
  lemma IdentityIsNeutral(a: Point, d: int, p: int)
    requires p > 0
    ensures Equal(Add(a, IDENTITY, d, p), a, p)
  {
    hide Add;
    hide Equal;
    AddIdentity(a, d, p);
    var m, k := Sides(a.x, a.y, p);
    var n := Twice(a.z, p);
    var e, f, h := (a.y - a.x) % p, (a.y + a.x) % p, 2 * a.z % p;
    ScaledIsEqual(f - e, h, a.x, a.z, m, n, p);
    ScaledIsEqual(f + e, h, a.y, a.z, k, n, p);
    EqualFrom(Add(a, IDENTITY, d, p), a, p);
  }
}
