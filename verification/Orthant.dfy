/**
 The ridge minimisers on the faces of the non-negative orthant: Cramer's rule finds them, and every point
 of the orthant costs at least as much as some feasible one of them.
 */
module Orthant {
  import opened Vectors
  import opened Ridge

  // ---------------------------------------------------------------- Cramer's rule, on numbers

  function Lin2(p: real, q: real, x: real, y: real): real {
    p * x + q * y
  }

  function Det9(m00: real, m01: real, m02: real, m10: real, m11: real, m12: real, m20: real, m21: real, m22: real): real {
    m00 * (m11 * m22 - m12 * m21) - m01 * (m10 * m22 - m12 * m20) + m02 * (m10 * m21 - m11 * m20)
  }

  lemma Cancel(a: real, b: real, d: real)
    requires d != 0.0 && Times(a, d) == Times(b, d)
    ensures a == b
  {
    assert a == Times(a, d) / d;
  }

  lemma Quotient(n: real, d: real)
    requires d != 0.0
    ensures Times(Over(n, d), d) == n
  {
  }

  lemma Pull2(p: real, q: real, x: real, y: real, d: real, u: real, v: real)
    requires Times(x, d) == u && Times(y, d) == v
    ensures Times(Lin2(p, q, x, y), d) == Lin2(p, q, u, v)
  {
    assert p * x * d == p * u;
    assert q * y * d == q * v;
  }

  lemma Pull3(p: real, q: real, r: real, x: real, y: real, z: real, d: real, u: real, v: real, w: real)
    requires Times(x, d) == u && Times(y, d) == v && Times(z, d) == w
    ensures Times(Lin3(p, q, r, x, y, z), d) == Lin3(p, q, r, u, v, w)
  {
    assert p * x * d == p * u;
    assert q * y * d == q * v;
    assert r * z * d == r * w;
  }

  lemma Numerators2(p: real, r: real, q: real, a: real, b: real)
    ensures Lin2(p, r, q * a - r * b, -r * a + p * b) == Times(a, Det2(p, r, q))
    ensures Lin2(r, q, q * a - r * b, -r * a + p * b) == Times(b, Det2(p, r, q))
  {
  }

  lemma NumeratorsA(aa: real, ab: real, ac: real, bb: real, bc: real, cc: real, ra: real, rb: real, rc: real)
    ensures Lin3(aa, ab, ac, Det9(ra, ab, ac, rb, bb, bc, rc, bc, cc), Det9(aa, ra, ac, ab, rb, bc, ac, rc, cc),
                 Det9(aa, ab, ra, ab, bb, rb, ac, bc, rc))
            == Times(ra, Det6(aa, ab, ac, bb, bc, cc))
  {
  }

  lemma NumeratorsB(aa: real, ab: real, ac: real, bb: real, bc: real, cc: real, ra: real, rb: real, rc: real)
    ensures Lin3(ab, bb, bc, Det9(ra, ab, ac, rb, bb, bc, rc, bc, cc), Det9(aa, ra, ac, ab, rb, bc, ac, rc, cc),
                 Det9(aa, ab, ra, ab, bb, rb, ac, bc, rc))
            == Times(rb, Det6(aa, ab, ac, bb, bc, cc))
  {
  }

  lemma NumeratorsC(aa: real, ab: real, ac: real, bb: real, bc: real, cc: real, ra: real, rb: real, rc: real)
    ensures Lin3(ac, bc, cc, Det9(ra, ab, ac, rb, bb, bc, rc, bc, cc), Det9(aa, ra, ac, ab, rb, bc, ac, rc, cc),
                 Det9(aa, ab, ra, ab, bb, rb, ac, bc, rc))
            == Times(rc, Det6(aa, ab, ac, bb, bc, cc))
  {
  }

  // ---------------------------------------------------------------- one, two and three free coefficients

  function OnlyFree(c: Col): Face {
    Face(c.ColLoaded?, c.ColIn?, c.ColOut?)
  }

  function PairFree(c: Col, d: Col): Face {
    Face(c.ColLoaded? || d.ColLoaded?, c.ColIn? || d.ColIn?, c.ColOut? || d.ColOut?)
  }

  function Solve1(m: Sym, r: Vec, c: Col): Vec
    requires Cell(m, c, c) != 0.0
  {
    Put(c, Over(Coord(r, c), Cell(m, c, c)))
  }

  function First2(p: real, e: real, q: real, a: real, b: real): real
    requires Det2(p, e, q) != 0.0
  {
    Over(q * a - e * b, Det2(p, e, q))
  }

  function Second2(p: real, e: real, q: real, a: real, b: real): real
    requires Det2(p, e, q) != 0.0
  {
    Over(-e * a + p * b, Det2(p, e, q))
  }

  function Solve2(m: Sym, r: Vec, c: Col, d: Col): Vec
    requires Det2(Cell(m, c, c), Cell(m, c, d), Cell(m, d, d)) != 0.0
  {
    var p, e, q := Cell(m, c, c), Cell(m, c, d), Cell(m, d, d);
    Pair(c, First2(p, e, q, Coord(r, c), Coord(r, d)), d, Second2(p, e, q, Coord(r, c), Coord(r, d)))
  }

  function Solve3(m: Sym, r: Vec): Vec
    requires Det(m) != 0.0
  {
    Vec(Over(Det9(r.a, m.ab, m.ac, r.b, m.bb, m.bc, r.c, m.bc, m.cc), Det(m)),
        Over(Det9(m.aa, r.a, m.ac, m.ab, r.b, m.bc, m.ac, r.c, m.cc), Det(m)),
        Over(Det9(m.aa, m.ab, r.a, m.ab, m.bb, r.b, m.ac, m.bc, r.c), Det(m)))
  }

  lemma ApplyPut(m: Sym, c: Col, x: real)
    ensures Coord(Apply(m, Put(c, x)), c) == Times(Cell(m, c, c), x)
  {
  }

  lemma ApplyPair(m: Sym, c: Col, x: real, d: Col, y: real)
    requires c != d
    ensures Coord(Apply(m, Pair(c, x, d, y)), c) == Lin2(Cell(m, c, c), Cell(m, c, d), x, y)
    ensures Coord(Apply(m, Pair(c, x, d, y)), d) == Lin2(Cell(m, c, d), Cell(m, d, d), x, y)
  {
  }

  lemma TimesSwap(x: real, y: real)
    ensures Times(x, y) == Times(y, x)
  {
  }

  lemma Solve1Row(m: Sym, r: Vec, c: Col)
    requires Cell(m, c, c) != 0.0
    ensures Coord(Apply(m, Solve1(m, r, c)), c) == Coord(r, c)
  {
    ApplyPut(m, c, Over(Coord(r, c), Cell(m, c, c)));
    Quotient(Coord(r, c), Cell(m, c, c));
    TimesSwap(Over(Coord(r, c), Cell(m, c, c)), Cell(m, c, c));
  }

  lemma Rule2(p: real, e: real, q: real, a: real, b: real)
    requires Det2(p, e, q) != 0.0
    ensures Lin2(p, e, First2(p, e, q, a, b), Second2(p, e, q, a, b)) == a
    ensures Lin2(e, q, First2(p, e, q, a, b), Second2(p, e, q, a, b)) == b
  {
    var d := Det2(p, e, q);
    var u, v := q * a - e * b, -e * a + p * b;
    Numerators2(p, e, q, a, b);
    Quotient(u, d);
    Quotient(v, d);
    Pull2(p, e, Over(u, d), Over(v, d), d, u, v);
    Pull2(e, q, Over(u, d), Over(v, d), d, u, v);
    Cancel(Lin2(p, e, Over(u, d), Over(v, d)), a, d);
    Cancel(Lin2(e, q, Over(u, d), Over(v, d)), b, d);
  }

  lemma Solve2Rows(m: Sym, r: Vec, c: Col, d: Col)
    requires c != d && Det2(Cell(m, c, c), Cell(m, c, d), Cell(m, d, d)) != 0.0
    ensures Coord(Apply(m, Solve2(m, r, c, d)), c) == Coord(r, c)
    ensures Coord(Apply(m, Solve2(m, r, c, d)), d) == Coord(r, d)
  {
    var p, e, q := Cell(m, c, c), Cell(m, c, d), Cell(m, d, d);
    ApplyPair(m, c, First2(p, e, q, Coord(r, c), Coord(r, d)), d, Second2(p, e, q, Coord(r, c), Coord(r, d)));
    Rule2(p, e, q, Coord(r, c), Coord(r, d));
  }

  lemma Rule3(p: real, q: real, r: real, u: real, v: real, w: real, b: real, d: real)
    requires d != 0.0 && Lin3(p, q, r, u, v, w) == Times(b, d)
    ensures Lin3(p, q, r, Over(u, d), Over(v, d), Over(w, d)) == b
  {
    Quotient(u, d);
    Quotient(v, d);
    Quotient(w, d);
    Pull3(p, q, r, Over(u, d), Over(v, d), Over(w, d), d, u, v, w);
    Cancel(Lin3(p, q, r, Over(u, d), Over(v, d), Over(w, d)), b, d);
  }

  lemma Solve3Rows(m: Sym, r: Vec)
    requires Det(m) != 0.0
    ensures Apply(m, Solve3(m, r)) == r
  {
    var x := Det9(r.a, m.ab, m.ac, r.b, m.bb, m.bc, r.c, m.bc, m.cc);
    var y := Det9(m.aa, r.a, m.ac, m.ab, r.b, m.bc, m.ac, r.c, m.cc);
    var z := Det9(m.aa, m.ab, r.a, m.ab, m.bb, r.b, m.ac, m.bc, r.c);
    NumeratorsA(m.aa, m.ab, m.ac, m.bb, m.bc, m.cc, r.a, r.b, r.c);
    NumeratorsB(m.aa, m.ab, m.ac, m.bb, m.bc, m.cc, r.a, r.b, r.c);
    NumeratorsC(m.aa, m.ab, m.ac, m.bb, m.bc, m.cc, r.a, r.b, r.c);
    Rule3(m.aa, m.ab, m.ac, x, y, z, r.a, Det(m));
    Rule3(m.ab, m.bb, m.bc, x, y, z, r.b, Det(m));
    Rule3(m.ac, m.bc, m.cc, x, y, z, r.c, Det(m));
  }

  // ---------------------------------------------------------------- the minimiser of each face

  lemma StationaryOnly(obs: seq<Obs>, c: Col)
    ensures Cell(Normal(obs), c, c) >= LAMBDA
    ensures Stationary(obs, OnlyFree(c), Solve1(Normal(obs), Rhs(obs), c))
  {
    Diagonal(obs, c);
    Solve1Row(Normal(obs), Rhs(obs), c);
  }

  lemma StationaryPair(obs: seq<Obs>, c: Col, d: Col)
    requires c != d
    ensures var m := Normal(obs); Det2(Cell(m, c, c), Cell(m, c, d), Cell(m, d, d)) >= LAMBDA * LAMBDA
    ensures Stationary(obs, PairFree(c, d), Solve2(Normal(obs), Rhs(obs), c, d))
  {
    PairDet(obs, c, d);
    Solve2Rows(Normal(obs), Rhs(obs), c, d);
  }

  lemma StationaryFree(obs: seq<Obs>)
    ensures Det(Normal(obs)) >= LAMBDA * LAMBDA * LAMBDA
    ensures Stationary(obs, FREE, Solve3(Normal(obs), Rhs(obs)))
  {
    FullDet(obs);
    Solve3Rows(Normal(obs), Rhs(obs));
  }

  lemma SolutionExists(obs: seq<Obs>, f: Face) returns (s: Vec)
    ensures Stationary(obs, f, s)
  {
    var m, r := Normal(obs), Rhs(obs);
    if f == FREE {
      StationaryFree(obs);
      s := Solve3(m, r);
    } else if f == Face(false, true, true) {
      StationaryPair(obs, ColIn, ColOut);
      s := Solve2(m, r, ColIn, ColOut);
    } else if f == Face(true, false, true) {
      StationaryPair(obs, ColLoaded, ColOut);
      s := Solve2(m, r, ColLoaded, ColOut);
    } else if f == Face(true, true, false) {
      StationaryPair(obs, ColLoaded, ColIn);
      s := Solve2(m, r, ColLoaded, ColIn);
    } else if f == ONLY_ZERO {
      s := ZERO;
    } else {
      var c := if f.a then ColLoaded else if f.b then ColIn else ColOut;
      StationaryOnly(obs, c);
      s := Solve1(m, r, c);
    }
  }

  lemma SomeSolution(obs: seq<Obs>, f: Face)
    ensures exists s :: Stationary(obs, f, s)
  {
    var s := SolutionExists(obs, f);
  }

  /** The one stationary point on a face; which one is computed from the sums is said by the lemmas above. */
  ghost function FaceSolution(obs: seq<Obs>, f: Face): (s: Vec)
    ensures Stationary(obs, f, s)
  {
    SomeSolution(obs, f);
    var s :| Stationary(obs, f, s);
    s
  }

  // ---------------------------------------------------------------- from any point down to a face solution

  /** How far one may go from `t >= 0` back towards `s` before the coordinate turns negative. */
  function Reach(s: real, t: real): real
    requires t >= 0.0
  {
    if s < 0.0 then Over(-s, t - s) else 0.0
  }

  lemma Reached(s: real, t: real, k: real)
    requires t >= 0.0
    ensures 0.0 <= Reach(s, t) <= 1.0
    ensures Reach(s, t) <= k <= 1.0 ==> s + Times(k, t - s) >= 0.0
    ensures s < 0.0 && k == Reach(s, t) ==> s + Times(k, t - s) == 0.0
  {
    if s < 0.0 {
      Quotient(-s, t - s);
      var q := Reach(s, t);
      assert Times(q, t - s) == -s;
      ReachedBelow(s, t, q, k);
    } else if 0.0 <= k <= 1.0 {
      Between(s, t, k);
    }
  }

  lemma ProductNonNeg(x: real, y: real)
    requires x >= 0.0 && y >= 0.0
    ensures Times(x, y) >= 0.0
  {
  }

  lemma Between(s: real, t: real, k: real)
    requires s >= 0.0 && t >= 0.0 && 0.0 <= k <= 1.0
    ensures s + Times(k, t - s) >= 0.0
  {
    ProductNonNeg(1.0 - k, s);
    ProductNonNeg(k, t);
    assert s + Times(k, t - s) == Times(1.0 - k, s) + Times(k, t);
  }

  lemma ReachedBelow(s: real, t: real, q: real, k: real)
    requires s < 0.0 && t >= 0.0 && Times(q, t - s) == -s
    ensures 0.0 <= q <= 1.0
    ensures q <= k ==> s + Times(k, t - s) >= 0.0
  {
    if q <= k {
      assert (k - q) * (t - s) >= 0.0;
    }
    assert q > 0.0;
    assert (1.0 - q) * (t - s) == t;
  }

  /** The point a fraction `k` of the way from `s` to `t`. */
  function Partway(s: Vec, t: Vec, k: real): Vec {
    Vec(s.a + Times(k, t.a - s.a), s.b + Times(k, t.b - s.b), s.c + Times(k, t.c - s.c))
  }

  lemma PartwayMinus(s: Vec, t: Vec, k: real)
    ensures Minus(Partway(s, t, k), s) == Scale(k, Minus(t, s))
  {
  }

  lemma PartwayQuad(m: Sym, s: Vec, t: Vec, k: real)
    ensures Quad(m, Minus(Partway(s, t, k), s)) == Times(Square(k), Quad(m, Minus(t, s)))
  {
    PartwayMinus(s, t, k);
    QuadScale(m, k, Minus(t, s));
  }

  lemma PartwayCost(obs: seq<Obs>, f: Face, s: Vec, t: Vec, k: real)
    requires Stationary(obs, f, s) && OnFace(f, t)
    ensures Cost(obs, Partway(s, t, k)) == Cost(obs, s) + Times(Square(k), Quad(Normal(obs), Minus(t, s)))
  {
    PartwayOnFace(f, s, t, k);
    CostOnFace(obs, f, s, Partway(s, t, k));
    PartwayQuad(Normal(obs), s, t, k);
  }

  lemma PartwayIsCheaper(obs: seq<Obs>, f: Face, s: Vec, t: Vec, k: real)
    requires Stationary(obs, f, s) && OnFace(f, t) && 0.0 <= k <= 1.0
    ensures Cost(obs, Partway(s, t, k)) <= Cost(obs, t)
  {
    PartwayCost(obs, f, s, t, k);
    CostOnFace(obs, f, s, t);
    Curved(obs, Minus(t, s));
    Shrinks(k, Quad(Normal(obs), Minus(t, s)));
  }

  lemma PartwayOnFace(f: Face, s: Vec, t: Vec, k: real)
    requires OnFace(f, s) && OnFace(f, t)
    ensures OnFace(f, Partway(s, t, k))
  {
  }

  lemma Shrinks(k: real, q: real)
    requires 0.0 <= k <= 1.0 && q >= 0.0
    ensures Times(Square(k), q) <= q
  {
    ProductNonNeg(k, 1.0 - k);
    assert Square(k) == k - Times(k, 1.0 - k);
    ProductNonNeg(1.0 - Square(k), q);
    OneLess(Square(k), q);
  }

  lemma OneLess(x: real, q: real)
    ensures Times(1.0 - x, q) == q - Times(x, q)
  {
  }

  function Max(x: real, y: real): real {
    if x >= y then x else y
  }

  function Pinned(f: Face, c: Col): Face {
    Face(f.a && !c.ColLoaded?, f.b && !c.ColIn?, f.c && !c.ColOut?)
  }

  function Size(f: Face): nat {
    (if f.a then 1 else 0) + (if f.b then 1 else 0) + (if f.c then 1 else 0)
  }

  /** The way from a point outside the orthant to one inside: where it enters, some coordinate is zero. */
  lemma Entering(f: Face, s: Vec, t: Vec) returns (c: Col, k: real)
    requires OnFace(f, s) && OnFace(f, t) && NonNeg(t) && !NonNeg(s)
    ensures 0.0 <= k <= 1.0 && NonNeg(Partway(s, t, k)) && OnFace(Pinned(f, c), Partway(s, t, k))
    ensures Size(Pinned(f, c)) < Size(f)
  {
    k := Max(Reach(s.a, t.a), Max(Reach(s.b, t.b), Reach(s.c, t.c)));
    Reached(s.a, t.a, k);
    Reached(s.b, t.b, k);
    Reached(s.c, t.c, k);
    PartwayOnFace(f, s, t, k);
    c := if s.a < 0.0 && k == Reach(s.a, t.a) then ColLoaded else if s.b < 0.0 && k == Reach(s.b, t.b) then ColIn else ColOut;
  }

  predicate SubFace(g: Face, f: Face) {
    (g.a ==> f.a) && (g.b ==> f.b) && (g.c ==> f.c)
  }

  /** Every point of the orthant costs at least as much as some feasible solution on its face or a smaller one. */
  lemma {:induction false} Descend(obs: seq<Obs>, f: Face, t: Vec) returns (g: Face)
    requires OnFace(f, t) && NonNeg(t)
    ensures SubFace(g, f) && NonNeg(FaceSolution(obs, g)) && Cost(obs, FaceSolution(obs, g)) <= Cost(obs, t)
    decreases Size(f)
  {
    var s := FaceSolution(obs, f);
    g := f;
    if NonNeg(s) {
      FaceMinimum(obs, f, s, t);
      NormPositive(Minus(t, s));
    } else {
      var c, k := Entering(f, s, t);
      PartwayIsCheaper(obs, f, s, t, k);
      g := Descend(obs, Pinned(f, c), Partway(s, t, k));
    }
  }
}
