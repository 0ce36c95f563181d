/**
 The ridge objective of the performance regression over exact reals: its minimiser, its determinants,
 and the minimisers on the faces of the non-negative orthant.
 */
module Ridge {
  import opened Vectors

  const LAMBDA: real := 0.0001

  datatype Obs = Obs(inTok: int, outTok: int, totalMs: int, loaded: bool)

  datatype Col = ColLoaded | ColIn | ColOut

  function Row(o: Obs): Vec {
    Vec(if o.loaded then 1.0 else 0.0, o.inTok as real, o.outTok as real)
  }

  function Coord(v: Vec, c: Col): real {
    match c
    case ColLoaded => v.a
    case ColIn => v.b
    case ColOut => v.c
  }

  /** The normal matrix: lambda on the diagonal plus the sum of the outer products of the rows. */
  function Normal(obs: seq<Obs>): Sym {
    if obs == [] then Sym(LAMBDA, 0.0, 0.0, LAMBDA, 0.0, LAMBDA)
    else Add(Normal(obs[..|obs| - 1]), Outer(Row(obs[|obs| - 1])))
  }

  function Rhs(obs: seq<Obs>): Vec {
    if obs == [] then ZERO
    else Sum(Rhs(obs[..|obs| - 1]), Scale(obs[|obs| - 1].totalMs as real, Row(obs[|obs| - 1])))
  }

  function Rss(obs: seq<Obs>, t: Vec): real {
    if obs == [] then 0.0
    else Rss(obs[..|obs| - 1], t) + Square(obs[|obs| - 1].totalMs as real - Dot(Row(obs[|obs| - 1]), t))
  }

  /** What the regression minimises. */
  function Cost(obs: seq<Obs>, t: Vec): real {
    Rss(obs, t) + LAMBDA * Norm2(t)
  }

  /** Half the gradient of the cost. */
  function Gradient(obs: seq<Obs>, t: Vec): Vec {
    Minus(Apply(Normal(obs), t), Rhs(obs))
  }

  // ---------------------------------------------------------------- the cost as a quadratic form

  function SumOfSquares(obs: seq<Obs>): real {
    if obs == [] then 0.0 else SumOfSquares(obs[..|obs| - 1]) + Square(obs[|obs| - 1].totalMs as real)
  }

  lemma SquareDiff(y: real, s: real)
    ensures Square(y - s) == Square(y) - 2.0 * Times(y, s) + Square(s)
  {
  }

  lemma DotRow(t: Vec, v: Vec, y: real, r: Vec)
    ensures Dot(t, Sum(v, Scale(y, r))) == Dot(t, v) + Times(y, Dot(r, t))
  {
    DotRowNumbers(t.a, t.b, t.c, v.a, v.b, v.c, y, r.a, r.b, r.c);
  }

  lemma DotRowNumbers(ta: real, tb: real, tc: real, va: real, vb: real, vc: real, y: real, ra: real, rb: real, rc: real)
    ensures Lin3(ta, tb, tc, va + Times(y, ra), vb + Times(y, rb), vc + Times(y, rc))
            == Lin3(ta, tb, tc, va, vb, vc) + Times(y, Lin3(ra, rb, rc, ta, tb, tc))
  {
  }

  lemma {:induction false} CostForm(obs: seq<Obs>, t: Vec)
    ensures Cost(obs, t) == Quad(Normal(obs), t) - 2.0 * Dot(t, Rhs(obs)) + SumOfSquares(obs)
  {
    if obs != [] {
      var rest, o := obs[..|obs| - 1], obs[|obs| - 1];
      CostForm(rest, t);
      QuadAdd(Normal(rest), Outer(Row(o)), t);
      QuadOuter(Row(o), t);
      SquareDiff(o.totalMs as real, Dot(Row(o), t));
      DotRow(t, Rhs(rest), o.totalMs as real, Row(o));
    }
  }

  lemma DotSum(x: Vec, y: Vec, v: Vec)
    ensures Dot(Sum(x, y), v) == Dot(x, v) + Dot(y, v)
  {
    DotSumNumbers(x.a, x.b, x.c, y.a, y.b, y.c, v.a, v.b, v.c);
  }

  lemma DotSumNumbers(xa: real, xb: real, xc: real, ya: real, yb: real, yc: real, va: real, vb: real, vc: real)
    ensures Lin3(xa + ya, xb + yb, xc + yc, va, vb, vc) == Lin3(xa, xb, xc, va, vb, vc) + Lin3(ya, yb, yc, va, vb, vc)
  {
  }

  lemma DotMinus(x: Vec, y: Vec, v: Vec)
    ensures Dot(v, Minus(x, y)) == Dot(v, x) - Dot(v, y)
  {
    DotMinusNumbers(x.a, x.b, x.c, y.a, y.b, y.c, v.a, v.b, v.c);
  }

  lemma DotMinusNumbers(xa: real, xb: real, xc: real, ya: real, yb: real, yc: real, va: real, vb: real, vc: real)
    ensures Lin3(va, vb, vc, xa - ya, xb - yb, xc - yc) == Lin3(va, vb, vc, xa, xb, xc) - Lin3(va, vb, vc, ya, yb, yc)
  {
  }

  /** The cost around a point: its value, the slope, and the curvature. */
  lemma CostAround(obs: seq<Obs>, t: Vec, d: Vec)
    ensures Cost(obs, Sum(t, d)) == Cost(obs, t) + 2.0 * Dot(d, Gradient(obs, t)) + Quad(Normal(obs), d)
  {
    CostForm(obs, t);
    CostForm(obs, Sum(t, d));
    QuadSum(Normal(obs), t, d);
    DotSum(t, d, Rhs(obs));
    DotMinus(Apply(Normal(obs), t), Rhs(obs), d);
  }

  /** The penalty bounds the curvature from below. */
  lemma {:induction false} Curved(obs: seq<Obs>, d: Vec)
    ensures Quad(Normal(obs), d) >= LAMBDA * Norm2(d) >= 0.0
  {
    NormPositive(d);
    if obs != [] {
      var rest, o := obs[..|obs| - 1], obs[|obs| - 1];
      Curved(rest, d);
      QuadAdd(Normal(rest), Outer(Row(o)), d);
      QuadOuter(Row(o), d);
      SquareNonNeg(Dot(Row(o), d));
    }
  }

  // ---------------------------------------------------------------- faces

  /** Which of the three coefficients are free; the others are zero. */
  datatype Face = Face(a: bool, b: bool, c: bool)

  const FREE := Face(true, true, true)

  /** The two token coefficients are free, the load time is zero. */
  const TOKENS := Face(false, true, true)

  const ONLY_ZERO := Face(false, false, false)

  predicate OnFace(f: Face, t: Vec) {
    (!f.a ==> t.a == 0.0) && (!f.b ==> t.b == 0.0) && (!f.c ==> t.c == 0.0)
  }

  predicate NonNeg(t: Vec) {
    t.a >= 0.0 && t.b >= 0.0 && t.c >= 0.0
  }

  /** The slope vanishes along the face. */
  predicate Stationary(obs: seq<Obs>, f: Face, t: Vec) {
    var g := Gradient(obs, t);
    OnFace(f, t) && (f.a ==> g.a == 0.0) && (f.b ==> g.b == 0.0) && (f.c ==> g.c == 0.0)
  }

  lemma DotVanishes(d: Vec, g: Vec)
    requires (d.a == 0.0 || g.a == 0.0) && (d.b == 0.0 || g.b == 0.0) && (d.c == 0.0 || g.c == 0.0)
    ensures Dot(d, g) == 0.0
  {
  }

  lemma Displacement(u: Vec, t: Vec)
    ensures Sum(t, Minus(u, t)) == u
    ensures u != t ==> Minus(u, t) != ZERO
  {
  }

  lemma NoSlope(obs: seq<Obs>, f: Face, t: Vec, u: Vec)
    requires Stationary(obs, f, t) && OnFace(f, u)
    ensures Dot(Minus(u, t), Gradient(obs, t)) == 0.0
  {
    DotVanishes(Minus(u, t), Gradient(obs, t));
  }

  lemma CostTo(obs: seq<Obs>, t: Vec, u: Vec)
    ensures Cost(obs, u) == Cost(obs, t) + 2.0 * Dot(Minus(u, t), Gradient(obs, t)) + Quad(Normal(obs), Minus(u, t))
  {
    Displacement(u, t);
    CostAround(obs, t, Minus(u, t));
  }

  lemma CostOnFace(obs: seq<Obs>, f: Face, t: Vec, u: Vec)
    requires Stationary(obs, f, t) && OnFace(f, u)
    ensures Cost(obs, u) == Cost(obs, t) + Quad(Normal(obs), Minus(u, t))
  {
    CostTo(obs, t, u);
    NoSlope(obs, f, t, u);
  }

  /** On its face, a stationary point is the unique minimiser, and the cost grows at least by lambda times the distance squared. */
  lemma FaceMinimum(obs: seq<Obs>, f: Face, t: Vec, u: Vec)
    requires Stationary(obs, f, t) && OnFace(f, u)
    ensures Cost(obs, u) >= Cost(obs, t) + LAMBDA * Norm2(Minus(u, t))
    ensures u != t ==> Cost(obs, u) > Cost(obs, t)
  {
    CostOnFace(obs, f, t, u);
    Curved(obs, Minus(u, t));
    NormPositive(Minus(u, t));
    Displacement(u, t);
  }

  lemma StationaryUnique(obs: seq<Obs>, f: Face, t: Vec, u: Vec)
    requires Stationary(obs, f, t) && Stationary(obs, f, u)
    ensures t == u
  {
    FaceMinimum(obs, f, t, u);
    FaceMinimum(obs, f, u, t);
  }

  // ---------------------------------------------------------------- determinants

  function Cell(m: Sym, c: Col, d: Col): real {
    match (c, d)
    case (ColLoaded, ColLoaded) => m.aa
    case (ColIn, ColIn) => m.bb
    case (ColOut, ColOut) => m.cc
    case (ColLoaded, ColIn) => m.ab
    case (ColIn, ColLoaded) => m.ab
    case (ColLoaded, ColOut) => m.ac
    case (ColOut, ColLoaded) => m.ac
    case (ColIn, ColOut) => m.bc
    case (ColOut, ColIn) => m.bc
  }

  function Put(c: Col, x: real): Vec {
    Vec(if c.ColLoaded? then x else 0.0, if c.ColIn? then x else 0.0, if c.ColOut? then x else 0.0)
  }

  function Pair(c: Col, x: real, d: Col, y: real): Vec {
    Sum(Put(c, x), Put(d, y))
  }

  lemma Diagonal(obs: seq<Obs>, c: Col)
    ensures Cell(Normal(obs), c, c) >= LAMBDA
  {
    Curved(obs, Put(c, 1.0));
  }

  lemma QuadPair(m: Sym, c: Col, d: Col)
    requires c != d
    ensures Quad(m, Pair(c, -Cell(m, c, d), d, Cell(m, c, c)))
            == Times(Cell(m, c, c), Det2(Cell(m, c, c), Cell(m, c, d), Cell(m, d, d)))
    ensures Norm2(Pair(c, -Cell(m, c, d), d, Cell(m, c, c))) >= Square(Cell(m, c, c))
  {
    SquareNonNeg(-Cell(m, c, d));
  }

  lemma Divided(p: real, x: real)
    requires p >= LAMBDA && Times(p, x) >= LAMBDA * Square(p)
    ensures x >= LAMBDA * p >= LAMBDA * LAMBDA
  {
  }

  /** The 2x2 determinants are at least lambda squared. */
  lemma PairDet(obs: seq<Obs>, c: Col, d: Col)
    requires c != d
    ensures var m := Normal(obs); Det2(Cell(m, c, c), Cell(m, c, d), Cell(m, d, d)) >= LAMBDA * LAMBDA
  {
    var m := Normal(obs);
    Diagonal(obs, c);
    QuadPair(m, c, d);
    Curved(obs, Pair(c, -Cell(m, c, d), d, Cell(m, c, c)));
    Divided(Cell(m, c, c), Det2(Cell(m, c, c), Cell(m, c, d), Cell(m, d, d)));
  }

  lemma Divided3(d: real, x: real, q: real, n: real)
    requires d >= LAMBDA * LAMBDA && Times(x, d) == q && q >= LAMBDA * n && n >= Square(d)
    ensures x >= LAMBDA * LAMBDA * LAMBDA
  {
    assert x >= LAMBDA * d;
  }

  /** The last column of the adjugate. */
  function LastColumn(m: Sym): Vec {
    Vec(m.ab * m.bc - m.bb * m.ac, m.ab * m.ac - m.aa * m.bc, Det2(m.aa, m.ab, m.bb))
  }

  lemma LastColumnIs(m: Sym)
    ensures Quad(m, LastColumn(m)) == Times(Det(m), Det2(m.aa, m.ab, m.bb))
    ensures Norm2(LastColumn(m)) >= Square(Det2(m.aa, m.ab, m.bb))
  {
    SchurNumbers(m.aa, m.ab, m.ac, m.bb, m.bc, m.cc);
    SquareNonNeg(LastColumn(m).a);
    SquareNonNeg(LastColumn(m).b);
  }

  /** The 3x3 determinant is at least lambda cubed. */
  lemma FullDet(obs: seq<Obs>)
    ensures Det(Normal(obs)) >= LAMBDA * LAMBDA * LAMBDA
  {
    var m := Normal(obs);
    PairDet(obs, ColLoaded, ColIn);
    LastColumnIs(m);
    Curved(obs, LastColumn(m));
    Divided3(Det2(m.aa, m.ab, m.bb), Det(m), Quad(m, LastColumn(m)), Norm2(LastColumn(m)));
  }
}
