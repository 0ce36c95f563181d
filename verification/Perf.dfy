/** The solvers of the performance tracker, as loops that accumulate sums, against `Ridge` and `Orthant`. */
module Perf {
  import opened Wrappers
  import opened Vectors
  import opened Ridge
  import opened Orthant
  import opened ActiveSet
  import opened TokenFit

  const MIN_SAMPLES := 3

  function Abs(x: real): real {
    if x < 0.0 then -x else x
  }

  function ColValue(o: Obs, c: Col): real {
    Coord(Row(o), c)
  }

  // ---------------------------------------------------------------- the sums

  lemma EntryAdd(m: Sym, n: Sym, c: Col, d: Col)
    ensures Cell(Add(m, n), c, d) == Cell(m, c, d) + Cell(n, c, d)
  {
  }

  lemma EntryOuter(z: Vec, c: Col, d: Col)
    ensures Cell(Outer(z), c, d) == Times(Coord(z, c), Coord(z, d))
  {
    TimesSwap(Coord(z, c), Coord(z, d));
  }

  lemma NextEntry(obs: seq<Obs>, i: nat, c: Col, d: Col)
    requires i < |obs|
    ensures Cell(Normal(obs[..i + 1]), c, d) == Cell(Normal(obs[..i]), c, d) + Times(ColValue(obs[i], c), ColValue(obs[i], d))
  {
    assert obs[..i + 1][..i] == obs[..i];
    EntryAdd(Normal(obs[..i]), Outer(Row(obs[i])), c, d);
    EntryOuter(Row(obs[i]), c, d);
  }

  lemma NextRhs(obs: seq<Obs>, i: nat, c: Col)
    requires i < |obs|
    ensures Coord(Rhs(obs[..i + 1]), c) == Coord(Rhs(obs[..i]), c) + Times(ColValue(obs[i], c), obs[i].totalMs as real)
  {
    assert obs[..i + 1][..i] == obs[..i];
    TimesSwap(ColValue(obs[i], c), obs[i].totalMs as real);
  }

  // ---------------------------------------------------------------- one and two columns

  /** The guard never trips, and the answer is the minimiser over one column. */
  method SolveNormal1(obs: seq<Obs>, c: Col) returns (beta: real, ok: bool)
    ensures ok && Put(c, beta) == FaceSolution(obs, OnlyFree(c))
  {
    var sxx, sxy := 0.0, 0.0;
    for i := 0 to |obs|
      invariant sxx == Cell(Normal(obs[..i]), c, c) - LAMBDA
      invariant sxy == Coord(Rhs(obs[..i]), c)
    {
      NextEntry(obs, i, c, c);
      NextRhs(obs, i, c);
      var x := ColValue(obs[i], c);
      var y := obs[i].totalMs as real;
      sxx := sxx + Times(x, x);
      sxy := sxy + Times(x, y);
    }
    assert obs[..|obs|] == obs;
    sxx := sxx + LAMBDA;
    StationaryOnly(obs, c);
    if sxx < 0.000000001 { return 0.0, false; }
    StationaryUnique(obs, OnlyFree(c), Solve1(Normal(obs), Rhs(obs), c), FaceSolution(obs, OnlyFree(c)));
    return Over(sxy, sxx), true;
  }

  /** The determinant passes the guard, and the two quotients are the solution of the face. */
  lemma PairSolved(obs: seq<Obs>, c: Col, d: Col)
    requires c != d
    ensures var m := Normal(obs); Abs(Det2(Cell(m, c, c), Cell(m, c, d), Cell(m, d, d))) >= 0.000000000001
    ensures Solve2(Normal(obs), Rhs(obs), c, d) == FaceSolution(obs, PairFree(c, d))
  {
    StationaryPair(obs, c, d);
    StationaryUnique(obs, PairFree(c, d), Solve2(Normal(obs), Rhs(obs), c, d), FaceSolution(obs, PairFree(c, d)));
  }

  /** The minimiser over two columns. */
  method SolveNormal2Cols(obs: seq<Obs>, c1: Col, c2: Col) returns (b1: real, b2: real, ok: bool)
    requires c1 != c2
    ensures ok && Pair(c1, b1, c2, b2) == FaceSolution(obs, PairFree(c1, c2))
  {
    var a11, a12, a22 := 0.0, 0.0, 0.0;
    var r1, r2 := 0.0, 0.0;
    for i := 0 to |obs|
      invariant a11 == Cell(Normal(obs[..i]), c1, c1) - LAMBDA
      invariant a12 == Cell(Normal(obs[..i]), c1, c2)
      invariant a22 == Cell(Normal(obs[..i]), c2, c2) - LAMBDA
      invariant r1 == Coord(Rhs(obs[..i]), c1) && r2 == Coord(Rhs(obs[..i]), c2)
    {
      NextEntry(obs, i, c1, c1);
      NextEntry(obs, i, c1, c2);
      NextEntry(obs, i, c2, c2);
      NextRhs(obs, i, c1);
      NextRhs(obs, i, c2);
      var x1, x2 := ColValue(obs[i], c1), ColValue(obs[i], c2);
      var y := obs[i].totalMs as real;
      a11, a12, a22 := a11 + Times(x1, x1), a12 + Times(x1, x2), a22 + Times(x2, x2);
      r1, r2 := r1 + Times(x1, y), r2 + Times(x2, y);
    }
    assert obs[..|obs|] == obs;
    a11, a22 := a11 + LAMBDA, a22 + LAMBDA;
    PairSolved(obs, c1, c2);
    var det := Det2(a11, a12, a22);
    if Abs(det) < 0.000000000001 { return 0.0, 0.0, false; }
    return First2(a11, a12, a22, r1, r2), Second2(a11, a12, a22, r1, r2), true;
  }

  /** The same for the two token columns. */
  method SolveNormal2(obs: seq<Obs>) returns (k1: real, k2: real, ok: bool)
    ensures ok && Vec(0.0, k1, k2) == FaceSolution(obs, TOKENS)
  {
    k1, k2, ok := SolveNormal2Cols(obs, ColIn, ColOut);
    assert Pair(ColIn, k1, ColOut, k2) == Vec(0.0, k1, k2) && PairFree(ColIn, ColOut) == TOKENS;
  }

  // ---------------------------------------------------------------- three columns

  /** A 3x3 matrix, row by row. */
  datatype Mat = Mat(m00: real, m01: real, m02: real, m10: real, m11: real, m12: real, m20: real, m21: real, m22: real)

  function Det3(m: Mat): real {
    Det9(m.m00, m.m01, m.m02, m.m10, m.m11, m.m12, m.m20, m.m21, m.m22)
  }

  function Full(m: Sym): Mat {
    Mat(m.aa, m.ab, m.ac, m.ab, m.bb, m.bc, m.ac, m.bc, m.cc)
  }

  lemma DetFull(m: Sym)
    ensures Det3(Full(m)) == Det(m)
  {
    DetFullNumbers(m.aa, m.ab, m.ac, m.bb, m.bc, m.cc);
  }

  lemma DetFullNumbers(aa: real, ab: real, ac: real, bb: real, bc: real, cc: real)
    ensures Det9(aa, ab, ac, ab, bb, bc, ac, bc, cc) == Det6(aa, ab, ac, bb, bc, cc)
  {
  }

  /** Cramer's rule: the determinants with one column replaced by the right-hand side. */
  function Cramer3(m: Mat, b: Vec): Option<Vec> {
    var d := Det3(m);
    if Abs(d) < 0.000000000001 then None
    else
      var m0 := m.(m00 := b.a, m10 := b.b, m20 := b.c);
      var m1 := m.(m01 := b.a, m11 := b.b, m21 := b.c);
      var m2 := m.(m02 := b.a, m12 := b.b, m22 := b.c);
      Some(Vec(Over(Det3(m0), d), Over(Det3(m1), d), Over(Det3(m2), d)))
  }

  /** On a symmetric matrix whose determinant passes the guard, the rule solves the system; otherwise it declines. */
  lemma CramerSolves(m: Sym, b: Vec)
    ensures Cramer3(Full(m), b).Some? <==> Abs(Det(m)) >= 0.000000000001
    ensures Cramer3(Full(m), b).Some? ==> Apply(m, Cramer3(Full(m), b).value) == b
    ensures Cramer3(Full(m), b).Some? ==> Cramer3(Full(m), b).value == Solve3(m, b)
  {
    DetFull(m);
    if Det(m) != 0.0 { Solve3Rows(m, b); }
  }

  method SolveNormal3(obs: seq<Obs>) returns (a: real, k1: real, k2: real, ok: bool)
    ensures ok && Vec(a, k1, k2) == FaceSolution(obs, FREE)
  {
    var m := Mat(0.0, 0.0, 0.0, 0.0, 0.0, 0.0, 0.0, 0.0, 0.0);
    var rhs := ZERO;
    for i := 0 to |obs|
      invariant var n := Normal(obs[..i]);
                m == Mat(n.aa - LAMBDA, n.ab, n.ac, 0.0, n.bb - LAMBDA, n.bc, 0.0, 0.0, n.cc - LAMBDA)
      invariant rhs == Rhs(obs[..i])
    {
      NextSums(obs, i);
      var x := Row(obs[i]);
      var y := obs[i].totalMs as real;
      m := m.(m00 := m.m00 + Times(x.a, x.a), m01 := m.m01 + Times(x.a, x.b), m02 := m.m02 + Times(x.a, x.c),
              m11 := m.m11 + Times(x.b, x.b), m12 := m.m12 + Times(x.b, x.c), m22 := m.m22 + Times(x.c, x.c));
      rhs := Vec(rhs.a + Times(y, x.a), rhs.b + Times(y, x.b), rhs.c + Times(y, x.c));
    }
    assert obs[..|obs|] == obs;
    m := m.(m00 := m.m00 + LAMBDA, m11 := m.m11 + LAMBDA, m22 := m.m22 + LAMBDA);
    m := m.(m10 := m.m01, m20 := m.m02, m21 := m.m12);
    assert m == Full(Normal(obs));
    FullDet(obs);
    CramerSolves(Normal(obs), rhs);
    StationaryFree(obs);
    StationaryUnique(obs, FREE, Solve3(Normal(obs), rhs), FaceSolution(obs, FREE));
    var x := Cramer3(m, rhs);
    if x.None? { return 0.0, 0.0, 0.0, false; }
    return x.value.a, x.value.b, x.value.c, true;
  }

  lemma NextSums(obs: seq<Obs>, i: nat)
    requires i < |obs|
    ensures Normal(obs[..i + 1]) == Add(Normal(obs[..i]), Outer(Row(obs[i])))
    ensures Rhs(obs[..i + 1]) == Sum(Rhs(obs[..i]), Scale(obs[i].totalMs as real, Row(obs[i])))
    ensures forall t :: Rss(obs[..i + 1], t) == Rss(obs[..i], t) + Square(obs[i].totalMs as real - Dot(Row(obs[i]), t))
  {
    assert obs[..i + 1][..i] == obs[..i];
  }

  // ---------------------------------------------------------------- the residual

  method Rss3(obs: seq<Obs>, a: real, k1: real, k2: real) returns (rss: real)
    ensures rss == Rss(obs, Vec(a, k1, k2))
  {
    rss := 0.0;
    for i := 0 to |obs|
      invariant rss == Rss(obs[..i], Vec(a, k1, k2))
    {
      NextSums(obs, i);
      var l := if obs[i].loaded then 1.0 else 0.0;
      var fit := Lin3(l, obs[i].inTok as real, obs[i].outTok as real, a, k1, k2);
      var d := obs[i].totalMs as real - fit;
      rss := rss + Square(d);
    }
    assert obs[..|obs|] == obs;
  }

  // ---------------------------------------------------------------- the active-set fit

  function ClampNonNeg(v: real): real {
    if v < 0.0 then 0.0 else v
  }

  /** Of the first `n` faces tried, `best` is the feasible solution that leads, if there is any. */
  ghost predicate Leading(ts: Trials, f: Face, n: nat, best: Vec, bestRss: Option<real>) {
    match bestRss
    case None => forall g :: !Boundary(ts, f, n, g)
    case Some(r) => exists g :: Leads(ts, f, n, g) && best == ts(g).at && r == ts(g).rss
  }

  /** Whose turn it is after the first `n`, with all three coefficients or with the two of the tokens. */
  function NextFace(f: Face, n: nat): Option<Face> {
    if f == FREE then
      if n == 0 then Some(TOKENS)
      else if n == 1 then Some(PairFree(ColLoaded, ColOut))
      else if n == 2 then Some(PairFree(ColLoaded, ColIn))
      else if n == 3 then Some(OnlyFree(ColOut))
      else if n == 4 then Some(OnlyFree(ColIn))
      else if n == 5 then Some(OnlyFree(ColLoaded))
      else if n == 6 then Some(ONLY_ZERO)
      else None
    else if f == TOKENS then
      if n == 0 then Some(OnlyFree(ColOut))
      else if n == 4 then Some(OnlyFree(ColIn))
      else if n == 5 then Some(ONLY_ZERO)
      else None
    else None
  }

  ghost predicate Next(f: Face, n: nat, g: Face) {
    g != f && SubFace(g, f) && n <= Rank(g) && forall h :: h != f && SubFace(h, f) && n <= Rank(h) ==> Rank(g) <= Rank(h)
  }

  lemma FaceIsNext(f: Face, n: nat)
    requires NextFace(f, n).Some?
    ensures Next(f, n, NextFace(f, n).value)
  {
  }

  lemma NothingTried(ts: Trials, f: Face)
    ensures Leading(ts, f, 0, ZERO, None)
  {
  }

  /** One candidate: it takes the lead if it is feasible and strictly better. */
  method Consider(obs: seq<Obs>, ghost f: Face, ghost n: nat, ghost g: Face, t: Vec, best: Vec, bestRss: Option<real>)
    returns (best': Vec, bestRss': Option<real>)
    requires Leading(TrialsOf(obs), f, n, best, bestRss) && NextFace(f, n) == Some(g) && t == FaceSolution(obs, g)
    ensures Leading(TrialsOf(obs), f, Rank(g) + 1, best', bestRss')
  {
    best', bestRss' := best, bestRss;
    FaceIsNext(f, n);
    if NonNeg(t) {
      var r := Rss3(obs, t.a, t.b, t.c);
      if bestRss.None? || r < bestRss.value {
        TakesLead(TrialsOf(obs), f, n, g, best, bestRss);
        return t, Some(r);
      }
    }
    KeepsLead(TrialsOf(obs), f, n, g, best, bestRss);
  }

  lemma OneFaceMore(ts: Trials, f: Face, n: nat, g: Face, h: Face)
    requires Next(f, n, g)
    ensures Boundary(ts, f, Rank(g) + 1, h) <==> Boundary(ts, f, n, h) || (h == g && ts(g).feasible)
  {
    RankIsPlace(g, h);
  }

  lemma TakesLead(ts: Trials, f: Face, n: nat, g: Face, best: Vec, bestRss: Option<real>)
    requires Leading(ts, f, n, best, bestRss) && Next(f, n, g)
    requires ts(g).feasible && (bestRss.None? || ts(g).rss < bestRss.value)
    ensures Leads(ts, f, Rank(g) + 1, g)
  {
    OneFaceMore(ts, f, n, g, g);
    forall h | Boundary(ts, f, Rank(g) + 1, h) ensures Precedes(ts, g, h) {
      OneFaceMore(ts, f, n, g, h);
      if h != g {
        var e :| Leads(ts, f, n, e) && bestRss == Some(ts(e).rss);
        assert Precedes(ts, e, h);
      }
    }
  }

  lemma KeepsLead(ts: Trials, f: Face, n: nat, g: Face, best: Vec, bestRss: Option<real>)
    requires Leading(ts, f, n, best, bestRss) && Next(f, n, g)
    requires ts(g).feasible ==> bestRss.Some? && bestRss.value <= ts(g).rss
    ensures Leading(ts, f, Rank(g) + 1, best, bestRss)
  {
    if bestRss.Some? {
      var e :| Leads(ts, f, n, e) && best == ts(e).at && bestRss.value == ts(e).rss;
      OneFaceMore(ts, f, n, g, e);
      forall h | Boundary(ts, f, Rank(g) + 1, h) ensures Precedes(ts, e, h) {
        OneFaceMore(ts, f, n, g, h);
      }
      assert Leads(ts, f, Rank(g) + 1, e);
    } else {
      var m := Rank(g) + 1;
      forall h ensures !Boundary(ts, f, m, h) {
        OneFaceMore(ts, f, n, g, h);
      }
    }
  }

  lemma ZeroIsThere(ts: Trials, f: Face)
    requires ts(ONLY_ZERO).feasible && f != ONLY_ZERO
    ensures Boundary(ts, f, TRIED, ONLY_ZERO)
  {
  }

  lemma LeaderIsFitted(obs: seq<Obs>, f: Face, best: Vec, bestRss: Option<real>)
    requires Leading(TrialsOf(obs), f, TRIED, best, bestRss) && !Feasible(obs, f)
    requires f != ONLY_ZERO
    ensures Fitted(obs, f, best)
  {
    ZeroIsFeasible(obs);
    ZeroIsThere(TrialsOf(obs), f);
  }

  /** The candidates with one coefficient at zero. */
  method BestPair(obs: seq<Obs>) returns (best: Vec, bestRss: Option<real>)
    ensures Leading(TrialsOf(obs), FREE, 3, best, bestRss)
  {
    NothingTried(TrialsOf(obs), FREE);
    best, bestRss := ZERO, None;
    var b1, b2, ok := SolveNormal2(obs);
    best, bestRss := Consider(obs, FREE, 0, TOKENS, Vec(0.0, b1, b2), best, bestRss);
    b1, b2, ok := SolveNormal2Cols(obs, ColLoaded, ColOut);
    best, bestRss := Consider(obs, FREE, 1, PairFree(ColLoaded, ColOut), Pair(ColLoaded, b1, ColOut, b2), best, bestRss);
    b1, b2, ok := SolveNormal2Cols(obs, ColLoaded, ColIn);
    best, bestRss := Consider(obs, FREE, 2, PairFree(ColLoaded, ColIn), Pair(ColLoaded, b1, ColIn, b2), best, bestRss);
  }

  /** Then those with two at zero, and zero itself. */
  method BestBelowFree(obs: seq<Obs>) returns (best: Vec, bestRss: Option<real>)
    ensures Leading(TrialsOf(obs), FREE, TRIED, best, bestRss)
  {
    best, bestRss := BestPair(obs);
    var b1, ok := SolveNormal1(obs, ColOut);
    best, bestRss := Consider(obs, FREE, 3, OnlyFree(ColOut), Put(ColOut, b1), best, bestRss);
    b1, ok := SolveNormal1(obs, ColIn);
    best, bestRss := Consider(obs, FREE, 4, OnlyFree(ColIn), Put(ColIn, b1), best, bestRss);
    b1, ok := SolveNormal1(obs, ColLoaded);
    best, bestRss := Consider(obs, FREE, 5, OnlyFree(ColLoaded), Put(ColLoaded, b1), best, bestRss);
    best, bestRss := Consider(obs, FREE, 6, ONLY_ZERO, ZERO, best, bestRss);
  }

  method SolveNNLS3(obs: seq<Obs>) returns (a: real, k1: real, k2: real, ok: bool)
    ensures ok && Fitted(obs, FREE, Vec(a, k1, k2))
  {
    a, k1, k2, ok := SolveNormal3(obs);
    if ok && a >= 0.0 && k1 >= 0.0 && k2 >= 0.0 {
      return a, k1, k2, true;
    }
    var best, bestRss := BestBelowFree(obs);
    LeaderIsFitted(obs, FREE, best, bestRss);
    FitIsFeasible(obs, FREE, best);
    return ClampNonNeg(best.a), ClampNonNeg(best.b), ClampNonNeg(best.c), true;
  }

  method BestBelowTokens(obs: seq<Obs>) returns (best: Vec, bestRss: Option<real>)
    ensures Leading(TrialsOf(obs), TOKENS, TRIED, best, bestRss)
  {
    NothingTried(TrialsOf(obs), TOKENS);
    best, bestRss := ZERO, None;
    var k2, ok := SolveNormal1(obs, ColOut);
    best, bestRss := Consider(obs, TOKENS, 0, OnlyFree(ColOut), Put(ColOut, k2), best, bestRss);
    var k1, ok' := SolveNormal1(obs, ColIn);
    best, bestRss := Consider(obs, TOKENS, 4, OnlyFree(ColIn), Put(ColIn, k1), best, bestRss);
    best, bestRss := Consider(obs, TOKENS, 5, ONLY_ZERO, ZERO, best, bestRss);
  }

  method SolveNNLS2(obs: seq<Obs>) returns (k1: real, k2: real, ok: bool)
    ensures ok && Fitted(obs, TOKENS, Vec(0.0, k1, k2))
  {
    k1, k2, ok := SolveNormal2(obs);
    if ok && k1 >= 0.0 && k2 >= 0.0 {
      assert NonNeg(Vec(0.0, k1, k2));
      return k1, k2, true;
    }
    var best, bestRss := BestBelowTokens(obs);
    LeaderIsFitted(obs, TOKENS, best, bestRss);
    FitIsFeasible(obs, TOKENS, best);
    assert Vec(0.0, ClampNonNeg(best.b), ClampNonNeg(best.c)) == best;
    return ClampNonNeg(best.b), ClampNonNeg(best.c), true;
  }

  // ---------------------------------------------------------------- the two-stage estimate

  function LoadedCount(obs: seq<Obs>): nat {
    if obs == [] then 0 else LoadedCount(obs[..|obs| - 1]) + if obs[|obs| - 1].loaded then 1 else 0
  }

  function Unloaded(obs: seq<Obs>): seq<Obs> {
    if obs == [] then []
    else Unloaded(obs[..|obs| - 1]) + if obs[|obs| - 1].loaded then [] else [obs[|obs| - 1]]
  }

  /** What the token coefficients leave of one observation. */
  function Left(o: Obs, k1: real, k2: real): real {
    o.totalMs as real - Times(k1, o.inTok as real) - Times(k2, o.outTok as real)
  }

  /** What they leave of all the loaded ones. */
  function LeftOver(obs: seq<Obs>, k1: real, k2: real): real {
    if obs == [] then 0.0
    else LeftOver(obs[..|obs| - 1], k1, k2) + if obs[|obs| - 1].loaded then Left(obs[|obs| - 1], k1, k2) else 0.0
  }

  lemma ResidualOf(o: Obs, t: real, k1: real, k2: real)
    ensures o.totalMs as real - Dot(Row(o), Vec(t, k1, k2)) == Left(o, k1, k2) - if o.loaded then t else 0.0
  {
    TimesSwap(k1, o.inTok as real);
    TimesSwap(k2, o.outTok as real);
  }

  /** The residual as a function of the load time alone. */
  lemma {:induction false} RssInLoad(obs: seq<Obs>, t: real, k1: real, k2: real)
    ensures Rss(obs, Vec(t, k1, k2))
            == Rss(obs, Vec(0.0, k1, k2)) - 2.0 * Times(t, LeftOver(obs, k1, k2)) + Times(LoadedCount(obs) as real, Square(t))
  {
    if obs != [] {
      var rest, o := obs[..|obs| - 1], obs[|obs| - 1];
      RssInLoad(rest, t, k1, k2);
      ResidualOf(o, t, k1, k2);
      ResidualOf(o, 0.0, k1, k2);
      if o.loaded {
        SquareDiff(Left(o, k1, k2), t);
        OneMore(t, LeftOver(rest, k1, k2), Left(o, k1, k2), LoadedCount(rest) as real);
      }
    }
  }

  lemma OneMore(t: real, s: real, d: real, n: real)
    ensures Times(t, s + d) == Times(t, s) + Times(d, t)
    ensures Times(n + 1.0, Square(t)) == Times(n, Square(t)) + Square(t)
  {
  }

  /** The clamped mean minimises the parabola over the non-negative numbers, and nothing else does. */
  lemma ClampedMean(n: real, s: real, t: real)
    requires n > 0.0 && t >= 0.0
    ensures var best := ClampNonNeg(Over(s, n));
            && Times(n, Square(best)) - 2.0 * Times(best, s) <= Times(n, Square(t)) - 2.0 * Times(t, s)
            && (t != best ==> Times(n, Square(best)) - 2.0 * Times(best, s) < Times(n, Square(t)) - 2.0 * Times(t, s))
  {
    var best := ClampNonNeg(Over(s, n));
    var d := t - best;
    Quotient(s, n);
    SquareNonNeg(d);
    ProductNonNeg(n, Square(d));
    if t != best {
      SquarePositive(d);
      ProductPositive(n, Square(d), Times(n, Square(d)));
    }
    if Over(s, n) >= 0.0 {
      Completed(n, s, t, best);
    } else {
      ProductPositive(n, -Over(s, n), -s);
      ProductNonNeg(t, -s);
      ZeroBest(n, s, t);
    }
  }

  lemma Completed(n: real, s: real, t: real, best: real)
    requires Times(best, n) == s
    ensures Times(n, Square(t)) - 2.0 * Times(t, s) == Times(n, Square(best)) - 2.0 * Times(best, s) + Times(n, Square(t - best))
  {
  }

  lemma ZeroBest(n: real, s: real, t: real)
    requires Times(t, -s) >= 0.0
    ensures Times(n, Square(0.0)) - 2.0 * Times(0.0, s) == 0.0
    ensures Times(n, Square(t)) - 2.0 * Times(t, s) >= Times(n, Square(t - 0.0))
  {
    assert Times(t, -s) == -Times(t, s);
  }

  /** With the token coefficients fixed, the clamped mean of what they leave is the best load time. */
  lemma LoadTimeIsBest(obs: seq<Obs>, k1: real, k2: real, t: real)
    requires LoadedCount(obs) > 0 && t >= 0.0
    ensures var best := ClampNonNeg(Over(LeftOver(obs, k1, k2), LoadedCount(obs) as real));
            && Rss(obs, Vec(best, k1, k2)) <= Rss(obs, Vec(t, k1, k2))
            && (t != best ==> Rss(obs, Vec(best, k1, k2)) < Rss(obs, Vec(t, k1, k2)))
  {
    var best := ClampNonNeg(Over(LeftOver(obs, k1, k2), LoadedCount(obs) as real));
    RssInLoad(obs, t, k1, k2);
    RssInLoad(obs, best, k1, k2);
    ClampedMean(LoadedCount(obs) as real, LeftOver(obs, k1, k2), t);
  }

  datatype PerfStats = PerfStats(samples: nat, loaded: nat, tLoadMs: real, kInMsTok: real, kOutMsTok: real, ok: bool)

  function Report(stats: PerfStats): Vec {
    Vec(stats.tLoadMs, stats.kInMsTok, stats.kOutMsTok)
  }

  /** The token coefficients alone, as where no row is loaded and in the first of the two stages. */
  function TokenReport(stats: PerfStats): Vec {
    Vec(0.0, stats.kInMsTok, stats.kOutMsTok)
  }

  /** Which of the three estimates the tracker reports. */
  ghost predicate Reported(obs: seq<Obs>, stats: PerfStats) {
    && stats.samples == |obs| && (stats.ok <==> |obs| >= 3)
    && (!stats.ok ==> stats == PerfStats(|obs|, 0, 0.0, 0.0, 0.0, false))
    && (stats.ok ==>
          && stats.loaded == LoadedCount(obs)
          && NonNeg(Report(stats))
          && (stats.loaded == 0 ==> stats.tLoadMs == 0.0 && Fitted(obs, TOKENS, TokenReport(stats)))
          && (stats.loaded > 0 && |Unloaded(obs)| >= 2 ==>
                && Fitted(Unloaded(obs), TOKENS, TokenReport(stats))
                && forall t | t >= 0.0 :: Rss(obs, Report(stats)) <= Rss(obs, Vec(t, stats.kInMsTok, stats.kOutMsTok)))
          && (stats.loaded > 0 && |Unloaded(obs)| < 2 ==> Fitted(obs, FREE, Report(stats))))
  }

  method FitRegression(obs: seq<Obs>) returns (stats: PerfStats)
    ensures Reported(obs, stats)
  {
    stats := PerfStats(|obs|, 0, 0.0, 0.0, 0.0, false);
    if |obs| < MIN_SAMPLES { return; }
    var loaded := 0;
    var loaded0: seq<Obs> := [];
    for i := 0 to |obs|
      invariant loaded == LoadedCount(obs[..i]) && loaded0 == Unloaded(obs[..i])
    {
      assert obs[..i + 1][..i] == obs[..i];
      if obs[i].loaded {
        loaded := loaded + 1;
      } else {
        loaded0 := loaded0 + [obs[i]];
      }
    }
    assert obs[..|obs|] == obs;
    var k1, k2, ok, tLoad;
    if loaded == 0 {
      k1, k2, ok := SolveNNLS2(obs);
      FitIsFeasible(obs, TOKENS, Vec(0.0, k1, k2));
      return PerfStats(|obs|, loaded, 0.0, k1, k2, true);
    }
    if |loaded0| >= 2 {
      k1, k2, ok := SolveNNLS2(loaded0);
      FitIsFeasible(loaded0, TOKENS, Vec(0.0, k1, k2));
      tLoad := MeanLeft(obs, k1, k2, loaded);
      return PerfStats(|obs|, loaded, tLoad, k1, k2, true);
    }
    tLoad, k1, k2, ok := SolveNNLS3(obs);
    FitIsFeasible(obs, FREE, Vec(tLoad, k1, k2));
    return PerfStats(|obs|, loaded, tLoad, k1, k2, true);
  }

  /** The second stage: the mean of what is left, clamped at zero. */
  method MeanLeft(obs: seq<Obs>, k1: real, k2: real, n: nat) returns (tLoad: real)
    requires n == LoadedCount(obs) > 0
    ensures tLoad >= 0.0
    ensures forall t | t >= 0.0 :: Rss(obs, Vec(tLoad, k1, k2)) <= Rss(obs, Vec(t, k1, k2))
  {
    var sum := 0.0;
    for i := 0 to |obs|
      invariant sum == LeftOver(obs[..i], k1, k2)
    {
      assert obs[..i + 1][..i] == obs[..i];
      if obs[i].loaded {
        sum := sum + (obs[i].totalMs as real - Times(k1, obs[i].inTok as real) - Times(k2, obs[i].outTok as real));
      }
    }
    assert obs[..|obs|] == obs;
    tLoad := ClampNonNeg(Over(sum, n as real));
    forall t | t >= 0.0 ensures Rss(obs, Vec(tLoad, k1, k2)) <= Rss(obs, Vec(t, k1, k2)) {
      LoadTimeIsBest(obs, k1, k2, t);
    }
  }

  // ---------------------------------------------------------------- what the report is worth

  /**
   The token coefficients reported without a load, and those of the first stage, are the ridge optimum, whatever
   the observations. Only with fewer than two rows without a load does it depend on the residuals.
   */
  lemma ReportOptimalIff(obs: seq<Obs>, stats: PerfStats, h: Face)
    requires Reported(obs, stats) && stats.ok && OptimalFace(obs, FREE, h)
    ensures stats.loaded == 0 ==> Optimal(obs, TOKENS, Report(stats))
    ensures stats.loaded > 0 && |Unloaded(obs)| >= 2 ==> Optimal(Unloaded(obs), TOKENS, TokenReport(stats))
    ensures stats.loaded > 0 && |Unloaded(obs)| < 2 ==>
              (Optimal(obs, FREE, Report(stats)) <==> Feasible(obs, FREE) || LeastResidual(TrialsOf(obs), FREE, h))
  {
    if stats.loaded == 0 {
      TokensAreOptimal(obs, Report(stats));
    } else if |Unloaded(obs)| >= 2 {
      TokensAreOptimal(Unloaded(obs), TokenReport(stats));
    } else {
      RidgeOptimalIff(obs, FREE, Report(stats), h);
    }
  }

  lemma OneMoreCounts(obs: seq<Obs>, o: Obs)
    ensures LoadedCount(obs + [o]) == LoadedCount(obs) + if o.loaded then 1 else 0
    ensures Unloaded(obs + [o]) == Unloaded(obs) + if o.loaded then [] else [o]
  {
    assert (obs + [o])[..|obs|] == obs;
  }

  lemma ExampleCounts()
    ensures |EXAMPLE| == 3 && LoadedCount(EXAMPLE) == 2 && |Unloaded(EXAMPLE)| == 1
  {
    var a, b, d := EXAMPLE[0], EXAMPLE[1], EXAMPLE[2];
    OneMoreCounts([], a);
    OneMoreCounts([a], b);
    OneMoreCounts([a, b], d);
    assert [] + [a] == [a] && [a] + [b] == [a, b] && [a, b] + [d] == EXAMPLE;
  }

  /** Three observations on which the report costs more than a feasible point. */
  lemma ReportCanMiss(stats: PerfStats) returns (h: Face)
    requires Reported(EXAMPLE, stats)
    ensures stats.ok && OptimalFace(EXAMPLE, FREE, h)
    ensures !Optimal(EXAMPLE, FREE, Report(stats)) && Cost(EXAMPLE, FaceSolution(EXAMPLE, h)) < Cost(EXAMPLE, Report(stats))
  {
    ExampleCounts();
    h := FallbackMissesOptimum(EXAMPLE);
  }
}
