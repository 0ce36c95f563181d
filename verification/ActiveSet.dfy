/**
 What the active-set fit answers, and when that is the ridge optimum over the non-negative orthant. `f` holds the
 coefficients that are fitted: all three, or the two of the tokens.
 */
module ActiveSet {
  import opened Vectors
  import opened Ridge
  import opened Orthant

  // ---------------------------------------------------------------- the answer

  /** The place of a face in the order the program tries them. */
  function Rank(g: Face): nat {
    if g == TOKENS then 0
    else if g == Face(true, false, true) then 1
    else if g == Face(true, true, false) then 2
    else if g == Face(false, false, true) then 3
    else if g == Face(false, true, false) then 4
    else if g == Face(true, false, false) then 5
    else if g == ONLY_ZERO then 6
    else 7
  }

  /** The solution on a face, whether it is feasible, and its residual. */
  datatype Trial = Trial(feasible: bool, rss: real, at: Vec)

  type Trials = Face -> Trial

  ghost function TrialsOf(obs: seq<Obs>): Trials {
    g => Trial(NonNeg(FaceSolution(obs, g)), Rss(obs, FaceSolution(obs, g)), FaceSolution(obs, g))
  }

  ghost predicate Feasible(obs: seq<Obs>, g: Face) {
    TrialsOf(obs)(g).feasible
  }

  /** A feasible solution with some of the coefficients of `f` at zero, among the first `n` to be tried. */
  predicate Boundary(ts: Trials, f: Face, n: nat, g: Face) {
    g != f && SubFace(g, f) && Rank(g) < n && ts(g).feasible
  }

  /** `g` has a smaller residual than `h`, or the same and its turn is before. */
  predicate Precedes(ts: Trials, g: Face, h: Face) {
    ts(g).rss < ts(h).rss || (ts(g).rss == ts(h).rss && Rank(g) <= Rank(h))
  }

  ghost predicate Leads(ts: Trials, f: Face, n: nat, g: Face) {
    Boundary(ts, f, n, g) && forall h | Boundary(ts, f, n, h) :: Precedes(ts, g, h)
  }

  const TRIED := 7

  /**
   The free solution if it is feasible, otherwise the feasible solution on the boundary with the least plain
   residual; of several with the same residual the one tried first.
   */
  ghost predicate Fitted(obs: seq<Obs>, f: Face, t: Vec) {
    if Feasible(obs, f) then t == FaceSolution(obs, f)
    else exists g :: Leads(TrialsOf(obs), f, TRIED, g) && t == TrialsOf(obs)(g).at
  }

  lemma RankIsPlace(g: Face, h: Face)
    ensures Rank(g) == Rank(h) <==> g == h
  {
  }

  lemma LeaderIsUnique(ts: Trials, f: Face, n: nat, g: Face, h: Face)
    requires Leads(ts, f, n, g) && Leads(ts, f, n, h)
    ensures g == h
  {
    assert Precedes(ts, g, h) && Precedes(ts, h, g);
    RankIsPlace(g, h);
  }

  /** So there is but one answer. */
  lemma AnswerIsUnique(obs: seq<Obs>, f: Face, t: Vec, u: Vec)
    requires Fitted(obs, f, t) && Fitted(obs, f, u)
    ensures t == u
  {
    if !Feasible(obs, f) {
      var ts := TrialsOf(obs);
      var g :| Leads(ts, f, TRIED, g) && t == ts(g).at;
      var h :| Leads(ts, f, TRIED, h) && u == ts(h).at;
      LeaderIsUnique(ts, f, TRIED, g, h);
    }
  }

  lemma PenaltyNonNeg(obs: seq<Obs>, t: Vec)
    ensures Rss(obs, t) <= Cost(obs, t)
  {
    NormPositive(t);
  }

  lemma {:induction false} RssAtZero(obs: seq<Obs>)
    ensures Rss(obs, ZERO) == SumOfSquares(obs) == Cost(obs, ZERO)
  {
    if obs != [] {
      RssAtZero(obs[..|obs| - 1]);
      assert Dot(Row(obs[|obs| - 1]), ZERO) == 0.0;
    }
  }

  /** A feasible free solution is the optimum of the ridge objective over the orthant, and the only one. */
  lemma FreeFitIsOptimal(obs: seq<Obs>, f: Face, t: Vec, u: Vec)
    requires Fitted(obs, f, t) && Feasible(obs, f) && OnFace(f, u)
    ensures Cost(obs, u) >= Cost(obs, t) + LAMBDA * Norm2(Minus(u, t))
    ensures u != t ==> Cost(obs, u) > Cost(obs, t)
  {
    FaceMinimum(obs, f, t, u);
  }

  lemma FitIsFeasible(obs: seq<Obs>, f: Face, t: Vec)
    requires Fitted(obs, f, t)
    ensures NonNeg(t) && OnFace(f, t)
  {
    if !Feasible(obs, f) {
      var g :| Leads(TrialsOf(obs), f, TRIED, g) && t == TrialsOf(obs)(g).at;
      assert Stationary(obs, g, t);
    }
  }

  lemma BelowAll(f: Face, g: Face)
    requires g != f && SubFace(g, f)
    ensures Rank(g) < TRIED
  {
  }

  /** The answer from the boundary has no larger residual than any feasible solution there. */
  lemma LeastOnBoundary(ts: Trials, f: Face, l: Face, g: Face)
    requires Leads(ts, f, TRIED, l) && g != f && SubFace(g, f) && ts(g).feasible
    ensures ts(l).rss <= ts(g).rss
  {
    BelowAll(f, g);
    assert Boundary(ts, f, TRIED, g);
  }

  lemma FitBeatsFaces(obs: seq<Obs>, f: Face, t: Vec, g: Face)
    requires Fitted(obs, f, t) && SubFace(g, f) && Feasible(obs, g)
    ensures Rss(obs, t) <= Cost(obs, FaceSolution(obs, g))
  {
    if Feasible(obs, f) {
      FaceMinimum(obs, f, t, FaceSolution(obs, g));
      NormPositive(Minus(FaceSolution(obs, g), t));
      PenaltyNonNeg(obs, t);
    } else {
      var l :| Leads(TrialsOf(obs), f, TRIED, l) && t == TrialsOf(obs)(l).at;
      LeastOnBoundary(TrialsOf(obs), f, l, g);
      PenaltyNonNeg(obs, FaceSolution(obs, g));
    }
  }

  /** In every case the residual is no more than the full ridge cost of any feasible point. */
  lemma FitBounds(obs: seq<Obs>, f: Face, t: Vec, u: Vec)
    requires Fitted(obs, f, t) && OnFace(f, u) && NonNeg(u)
    ensures Rss(obs, t) <= Cost(obs, u)
  {
    var g := Descend(obs, f, u);
    FitBeatsFaces(obs, f, t, g);
  }

  /** In particular no more than with all coefficients zero. */
  lemma FitBeatsZero(obs: seq<Obs>, f: Face, t: Vec)
    requires Fitted(obs, f, t)
    ensures Rss(obs, t) <= SumOfSquares(obs)
  {
    FitBounds(obs, f, t, ZERO);
    RssAtZero(obs);
  }

  // ---------------------------------------------------------------- the ridge optimum over the orthant

  ghost predicate Optimal(obs: seq<Obs>, f: Face, t: Vec) {
    && OnFace(f, t) && NonNeg(t)
    && forall u | OnFace(f, u) && NonNeg(u) :: Cost(obs, t) <= Cost(obs, u)
  }

  /** No fitted coefficient has a negative slope. */
  predicate NoDescent(f: Face, slope: Vec) {
    (f.a ==> slope.a >= 0.0) && (f.b ==> slope.b >= 0.0) && (f.c ==> slope.c >= 0.0)
  }

  /** The solution on face `h` is feasible, and nowhere falls the cost into the orthant. */
  ghost predicate OptimalFace(obs: seq<Obs>, f: Face, h: Face) {
    SubFace(h, f) && Feasible(obs, h) && NoDescent(f, Gradient(obs, FaceSolution(obs, h)))
  }

  lemma CoordinateNonNeg(d: real, g: real)
    requires (d >= 0.0 && g >= 0.0) || d == 0.0 || g == 0.0
    ensures Times(d, g) >= 0.0
  {
    if d != 0.0 && g != 0.0 { ProductNonNeg(d, g); }
  }

  /** Along every way into the orthant the cost does not fall at first. */
  lemma SlopeNonNeg(f: Face, h: Face, s: Vec, t: Vec, slope: Vec)
    requires NonNeg(t) && OnFace(f, t) && OnFace(h, s) && SubFace(h, f) && NoDescent(f, slope)
    requires (h.a ==> slope.a == 0.0) && (h.b ==> slope.b == 0.0) && (h.c ==> slope.c == 0.0)
    ensures Dot(Minus(t, s), slope) >= 0.0
  {
    var d := Minus(t, s);
    CoordinateNonNeg(d.a, slope.a);
    CoordinateNonNeg(d.b, slope.b);
    CoordinateNonNeg(d.c, slope.c);
    assert Dot(d, slope) == Times(d.a, slope.a) + Times(d.b, slope.b) + Times(d.c, slope.c);
  }

  /** Such a solution costs less than every other point of the orthant. */
  lemma StrictOptimum(obs: seq<Obs>, f: Face, h: Face, t: Vec)
    requires OptimalFace(obs, f, h) && NonNeg(t) && OnFace(f, t) && t != FaceSolution(obs, h)
    ensures Cost(obs, FaceSolution(obs, h)) < Cost(obs, t)
  {
    var s := FaceSolution(obs, h);
    CostTo(obs, s, t);
    SlopeNonNeg(f, h, s, t, Gradient(obs, s));
    Curved(obs, Minus(t, s));
    NormPositive(Minus(t, s));
    Displacement(t, s);
  }

  /** The solution on such a face is the optimum, and nothing else is. */
  lemma OptimalIff(obs: seq<Obs>, f: Face, h: Face, t: Vec)
    requires OptimalFace(obs, f, h)
    ensures Optimal(obs, f, t) <==> t == FaceSolution(obs, h)
  {
    var s := FaceSolution(obs, h);
    forall u | OnFace(f, u) && NonNeg(u) ensures Cost(obs, s) <= Cost(obs, u) {
      if u != s { StrictOptimum(obs, f, h, u); }
    }
    if Optimal(obs, f, t) && t != s { StrictOptimum(obs, f, h, t); }
  }

  lemma DotPut(c: Col, e: real, g: Vec)
    ensures Dot(Put(c, e), g) == Times(e, Coord(g, c))
  {
  }

  lemma QuadPut(m: Sym, c: Col, e: real)
    ensures Quad(m, Put(c, e)) == Times(e, Times(e, Cell(m, c, c)))
  {
  }

  lemma StepDown(g: real, n: real)
    requires g < 0.0 && n > 0.0
    ensures var e := Over(-g, n); e > 0.0 && 2.0 * Times(e, g) + Times(e, Times(e, n)) < 0.0
  {
    var e := Over(-g, n);
    Quotient(-g, n);
    ProductPositive(e, -g, Times(e, -g));
    assert Times(e, g) == -Times(e, -g);
  }

  /** A step along a coordinate on which the cost falls. */
  lemma Downhill(obs: seq<Obs>, f: Face, s: Vec, c: Col) returns (t: Vec)
    requires NonNeg(s) && OnFace(f, s) && OnFace(f, Put(c, 1.0)) && Coord(Gradient(obs, s), c) < 0.0
    ensures NonNeg(t) && OnFace(f, t) && Cost(obs, t) < Cost(obs, s)
  {
    Diagonal(obs, c);
    var g, n := Coord(Gradient(obs, s), c), Cell(Normal(obs), c, c);
    var e := Over(-g, n);
    StepDown(g, n);
    t := Sum(s, Put(c, e));
    CostAround(obs, s, Put(c, e));
    DotPut(c, e, Gradient(obs, s));
    QuadPut(Normal(obs), c, e);
  }

  lemma OptimumIsFlat(obs: seq<Obs>, f: Face, h: Face)
    requires SubFace(h, f) && Optimal(obs, f, FaceSolution(obs, h))
    ensures OptimalFace(obs, f, h)
  {
    var s := FaceSolution(obs, h);
    var slope := Gradient(obs, s);
    if !NoDescent(f, slope) {
      var t := Downhill(obs, f, s, if f.a && slope.a < 0.0 then ColLoaded else if f.b && slope.b < 0.0 then ColIn else ColOut);
    }
  }

  /** Of some faces, one of those with a feasible solution on which a cost is least. */
  lemma {:induction false} Cheapest(cost: Face -> real, feasible: Face -> bool, gs: set<Face>) returns (h: Face)
    requires exists g :: g in gs && feasible(g)
    ensures h in gs && feasible(h) && forall g | g in gs && feasible(g) :: cost(h) <= cost(g)
  {
    h :| h in gs && feasible(h);
    var rest := gs - {h};
    if exists g :: g in rest && feasible(g) {
      var k := Cheapest(cost, feasible, rest);
      if cost(k) < cost(h) { h := k; }
    }
  }

  lemma ZeroIsFeasible(obs: seq<Obs>)
    ensures Feasible(obs, ONLY_ZERO)
  {
    assert Stationary(obs, ONLY_ZERO, FaceSolution(obs, ONLY_ZERO));
  }

  /** For every list of observations there is an optimal face. */
  lemma OptimalFaceExists(obs: seq<Obs>, f: Face) returns (h: Face)
    ensures OptimalFace(obs, f, h)
  {
    var gs := set a: bool, b: bool, c: bool | SubFace(Face(a, b, c), f) :: Face(a, b, c);
    ZeroIsFeasible(obs);
    assert Face(false, false, false) in gs;
    h := Cheapest(g => Cost(obs, FaceSolution(obs, g)), g => Feasible(obs, g), gs);
    forall u | OnFace(f, u) && NonNeg(u) ensures Cost(obs, FaceSolution(obs, h)) <= Cost(obs, u) {
      var g := Descend(obs, f, u);
      assert Face(g.a, g.b, g.c) in gs;
    }
    OptimumIsFlat(obs, f, h);
  }

  // ---------------------------------------------------------------- when the answer is the optimum

  /**
   No feasible solution on the boundary has a smaller residual than that on `h`; one with the same residual is
   the same, or it is tried after a face with the solution on `h`.
   */
  ghost predicate LeastResidual(ts: Trials, f: Face, h: Face) {
    forall g | Boundary(ts, f, TRIED, g) && ts(g).at != ts(h).at ::
      exists e :: Boundary(ts, f, TRIED, e) && ts(e).at == ts(h).at && Precedes(ts, e, g)
  }

  lemma LeaderIsLeast(ts: Trials, f: Face, l: Face, h: Face)
    requires Leads(ts, f, TRIED, l) && Boundary(ts, f, TRIED, h)
    ensures ts(l).at == ts(h).at <==> LeastResidual(ts, f, h)
  {
    if LeastResidual(ts, f, h) && ts(l).at != ts(h).at {
      var e :| Boundary(ts, f, TRIED, e) && ts(e).at == ts(h).at && Precedes(ts, e, l);
      assert Precedes(ts, l, e);
      RankIsPlace(l, e);
    }
    if ts(l).at == ts(h).at {
      forall g | Boundary(ts, f, TRIED, g) && ts(g).at != ts(h).at
        ensures exists e :: Boundary(ts, f, TRIED, e) && ts(e).at == ts(h).at && Precedes(ts, e, g)
      {
        assert Precedes(ts, l, g);
      }
    }
  }

  /**
   The fallback compares plain residuals, so its answer need not be the ridge optimum over the orthant. With `h`
   the optimal face, it is exactly when the free solution is feasible or that on `h` has the least residual.
   */
  lemma RidgeOptimalIff(obs: seq<Obs>, f: Face, t: Vec, h: Face)
    requires Fitted(obs, f, t) && OptimalFace(obs, f, h)
    ensures Optimal(obs, f, t) <==> Feasible(obs, f) || LeastResidual(TrialsOf(obs), f, h)
  {
    if Feasible(obs, f) {
      FeasibleIsOptimal(obs, f, t);
    } else {
      var l :| Leads(TrialsOf(obs), f, TRIED, l) && t == TrialsOf(obs)(l).at;
      OptimalIff(obs, f, h, t);
      BelowAll(f, h);
      LeaderIsLeast(TrialsOf(obs), f, l, h);
    }
  }

  lemma FeasibleIsOptimal(obs: seq<Obs>, f: Face, t: Vec)
    requires Fitted(obs, f, t) && Feasible(obs, f)
    ensures Optimal(obs, f, t)
  {
    forall u | OnFace(f, u) && NonNeg(u) ensures Cost(obs, t) <= Cost(obs, u) {
      FreeFitIsOptimal(obs, f, t, u);
      NormPositive(Minus(u, t));
    }
  }

  // ---------------------------------------------------------------- observations on which it is not

  /** Three observations, one of them without a load, for which the fallback does miss the ridge optimum. */
  const EXAMPLE := [Obs(0, 1, 3, false), Obs(1, 2, 5, true), Obs(0, 1, 3, true)]
  const OPTIMUM := Vec(80000.0 / 300080001.0, 0.0, 800160000.0 / 300080001.0)
  const LEAST_RSS := Vec(0.0, 0.0, 160000.0 / 60001.0)

  lemma AddedRow(obs: seq<Obs>, o: Obs, t: Vec)
    ensures Normal(obs + [o]) == Add(Normal(obs), Outer(Row(o)))
    ensures Rhs(obs + [o]) == Sum(Rhs(obs), Scale(o.totalMs as real, Row(o)))
    ensures Rss(obs + [o], t) == Rss(obs, t) + Square(o.totalMs as real - Dot(Row(o), t))
  {
    assert (obs + [o])[..|obs|] == obs;
  }

  lemma ThreeRows(o1: Obs, o2: Obs, o3: Obs, t: Vec)
    ensures Normal([o1, o2, o3]) == Add(Add(Add(Normal([]), Outer(Row(o1))), Outer(Row(o2))), Outer(Row(o3)))
    ensures Rhs([o1, o2, o3]) == Sum(Sum(Sum(ZERO, Scale(o1.totalMs as real, Row(o1))), Scale(o2.totalMs as real, Row(o2))),
                                     Scale(o3.totalMs as real, Row(o3)))
    ensures Rss([o1, o2, o3], t) == Square(o1.totalMs as real - Dot(Row(o1), t))
              + Square(o2.totalMs as real - Dot(Row(o2), t)) + Square(o3.totalMs as real - Dot(Row(o3), t))
  {
    AddedRow([], o1, t);
    AddedRow([o1], o2, t);
    AddedRow([o1, o2], o3, t);
    assert [] + [o1] == [o1] && [o1] + [o2] == [o1, o2] && [o1, o2] + [o3] == [o1, o2, o3];
  }

  lemma ExampleRows()
    ensures Row(EXAMPLE[0]) == Vec(0.0, 0.0, 1.0) && Row(EXAMPLE[1]) == Vec(1.0, 1.0, 2.0) && Row(EXAMPLE[2]) == Vec(1.0, 0.0, 1.0)
  {
  }

  lemma OuterLiterals()
    ensures Outer(Vec(0.0, 0.0, 1.0)) == Sym(0.0, 0.0, 0.0, 0.0, 0.0, 1.0)
    ensures Outer(Vec(1.0, 1.0, 2.0)) == Sym(1.0, 1.0, 2.0, 1.0, 2.0, 4.0)
    ensures Outer(Vec(1.0, 0.0, 1.0)) == Sym(1.0, 0.0, 1.0, 0.0, 0.0, 1.0)
  {
  }

  lemma ScaleLiterals()
    ensures Scale(3.0, Vec(0.0, 0.0, 1.0)) == Vec(0.0, 0.0, 3.0)
    ensures Scale(5.0, Vec(1.0, 1.0, 2.0)) == Vec(5.0, 5.0, 10.0)
    ensures Scale(3.0, Vec(1.0, 0.0, 1.0)) == Vec(3.0, 0.0, 3.0)
  {
  }

  lemma ExampleNormal()
    ensures Normal(EXAMPLE) == Sym(2.0 + LAMBDA, 1.0, 3.0, 1.0 + LAMBDA, 2.0, 6.0 + LAMBDA)
    ensures Rhs(EXAMPLE) == Vec(8.0, 5.0, 16.0)
  {
    ThreeRows(EXAMPLE[0], EXAMPLE[1], EXAMPLE[2], ZERO);
    ExampleRows();
    OuterLiterals();
    ScaleLiterals();
    assert EXAMPLE == [EXAMPLE[0], EXAMPLE[1], EXAMPLE[2]];
  }

  lemma ExampleRss(t: Vec)
    requires t.b == 0.0
    ensures Rss(EXAMPLE, t) == Square(3.0 - t.c) + Square(5.0 - (t.a + 2.0 * t.c)) + Square(3.0 - (t.a + t.c))
  {
    ThreeRows(EXAMPLE[0], EXAMPLE[1], EXAMPLE[2], t);
    assert EXAMPLE == [EXAMPLE[0], EXAMPLE[1], EXAMPLE[2]];
  }

  lemma OptimumNumbers(a: real, c: real)
    requires a == 80000.0 / 300080001.0 && c == 800160000.0 / 300080001.0
    ensures Lin3(2.0 + LAMBDA, 1.0, 3.0, a, 0.0, c) == 8.0
    ensures Lin3(1.0, 1.0 + LAMBDA, 2.0, a, 0.0, c) > 5.0
    ensures Lin3(3.0, 2.0, 6.0 + LAMBDA, a, 0.0, c) == 16.0
    ensures Square(3.0 - c) + Square(5.0 - (a + 2.0 * c)) + Square(3.0 - (a + c)) > 0.33333336
  {
  }

  lemma LeastRssNumbers(c: real)
    requires c == 160000.0 / 60001.0
    ensures Lin3(3.0, 2.0, 6.0 + LAMBDA, 0.0, 0.0, c) == 16.0
    ensures Square(3.0 - c) + Square(5.0 - (0.0 + 2.0 * c)) + Square(3.0 - (0.0 + c)) < 0.33333336
  {
  }

  /** The slope in the example, row by row. */
  lemma ExampleSlope(obs: seq<Obs>, u: Vec)
    requires obs == EXAMPLE
    ensures Gradient(obs, u).a == Lin3(2.0 + LAMBDA, 1.0, 3.0, u.a, u.b, u.c) - 8.0
    ensures Gradient(obs, u).b == Lin3(1.0, 1.0 + LAMBDA, 2.0, u.a, u.b, u.c) - 5.0
    ensures Gradient(obs, u).c == Lin3(3.0, 2.0, 6.0 + LAMBDA, u.a, u.b, u.c) - 16.0
  {
    ExampleNormal();
  }

  lemma SlopeWhere(obs: seq<Obs>, u: Vec)
    requires obs == EXAMPLE && u.b == 0.0
    requires Lin3(2.0 + LAMBDA, 1.0, 3.0, u.a, 0.0, u.c) == 8.0
    requires Lin3(1.0, 1.0 + LAMBDA, 2.0, u.a, 0.0, u.c) > 5.0
    requires Lin3(3.0, 2.0, 6.0 + LAMBDA, u.a, 0.0, u.c) == 16.0
    ensures Gradient(obs, u).a == 0.0 && Gradient(obs, u).b > 0.0 && Gradient(obs, u).c == 0.0
  {
    ExampleSlope(obs, u);
  }

  lemma OptimumPoint() returns (u: Vec)
    ensures u.a >= 0.0 && u.b == 0.0 && u.c >= 0.0
    ensures Lin3(2.0 + LAMBDA, 1.0, 3.0, u.a, 0.0, u.c) == 8.0
    ensures Lin3(1.0, 1.0 + LAMBDA, 2.0, u.a, 0.0, u.c) > 5.0
    ensures Lin3(3.0, 2.0, 6.0 + LAMBDA, u.a, 0.0, u.c) == 16.0
    ensures Square(3.0 - u.c) + Square(5.0 - (u.a + 2.0 * u.c)) + Square(3.0 - (u.a + u.c)) > 0.33333336
  {
    u := OPTIMUM;
    OptimumNumbers(u.a, u.c);
  }

  /** The ridge optimum of the example has a positive load time ... */
  lemma ExampleOptimum(obs: seq<Obs>) returns (u: Vec)
    requires obs == EXAMPLE
    ensures Stationary(obs, PairFree(ColLoaded, ColOut), u) && NonNeg(u)
    ensures NonNeg(Gradient(obs, u)) && Gradient(obs, u).b > 0.0 && Rss(obs, u) > 0.33333336
  {
    u := OptimumPoint();
    SlopeWhere(obs, u);
    ExampleRss(u);
  }

  lemma LeastRssIsLess()
    ensures Rss(EXAMPLE, LEAST_RSS) < 0.33333336
  {
    ExampleRss(LEAST_RSS);
    LeastRssNumbers(LEAST_RSS.c);
  }

  /** ... but with the output column alone the residual is smaller. */
  lemma ExampleLeastRss(obs: seq<Obs>) returns (s: Vec)
    requires obs == EXAMPLE
    ensures Stationary(obs, OnlyFree(ColOut), s) && NonNeg(s) && Rss(obs, s) < 0.33333336
  {
    s := LEAST_RSS;
    ExampleSlope(obs, s);
    LeastRssNumbers(s.c);
    LeastRssIsLess();
  }

  /** The optimal face of the example has a positive slope, and another a smaller residual. */
  predicate Deceptive(obs: seq<Obs>, h: Face, u: Vec, g: Face, s: Vec) {
    && Stationary(obs, h, u) && NonNeg(u) && NonNeg(Gradient(obs, u)) && Gradient(obs, u).b > 0.0
    && Stationary(obs, g, s) && NonNeg(s) && g != FREE && Rss(obs, s) < Rss(obs, u)
  }

  lemma ExampleDeceives(obs: seq<Obs>) returns (h: Face, u: Vec, g: Face, s: Vec)
    requires obs == EXAMPLE
    ensures Deceptive(obs, h, u, g, s)
  {
    h, g := PairFree(ColLoaded, ColOut), OnlyFree(ColOut);
    u := ExampleOptimum(obs);
    s := ExampleLeastRss(obs);
  }

  lemma DeceptiveFaces(obs: seq<Obs>, h: Face, u: Vec, g: Face, s: Vec)
    requires Deceptive(obs, h, u, g, s)
    ensures OptimalFace(obs, FREE, h) && FaceSolution(obs, h) == u && Feasible(obs, g) && FaceSolution(obs, g) == s
  {
    StationaryUnique(obs, h, u, FaceSolution(obs, h));
    StationaryUnique(obs, g, s, FaceSolution(obs, g));
  }

  lemma PassedOver(ts: Trials, h: Face, g: Face)
    requires g != FREE && ts(g).feasible && ts(g).rss < ts(h).rss
    requires forall e :: ts(e).at == ts(h).at ==> ts(e).rss == ts(h).rss
    ensures !LeastResidual(ts, FREE, h)
  {
    BelowAll(FREE, g);
    assert Boundary(ts, FREE, TRIED, g);
    assert forall e | Precedes(ts, e, g) :: ts(e).at != ts(h).at;
  }

  /** When some slope at the optimum is positive, the free solution is another point and not feasible. */
  lemma FreeIsElsewhere(obs: seq<Obs>, h: Face)
    requires OptimalFace(obs, FREE, h) && Gradient(obs, FaceSolution(obs, h)).b > 0.0
    ensures !Feasible(obs, FREE)
  {
    var s, free := FaceSolution(obs, h), FaceSolution(obs, FREE);
    if NonNeg(free) {
      FaceMinimum(obs, FREE, free, s);
      if s != free { StrictOptimum(obs, FREE, h, free); }
    }
  }

  lemma DeceptionMisses(obs: seq<Obs>, h: Face, u: Vec, g: Face, s: Vec)
    requires Deceptive(obs, h, u, g, s)
    ensures OptimalFace(obs, FREE, h) && !Feasible(obs, FREE) && !LeastResidual(TrialsOf(obs), FREE, h)
  {
    DeceptiveFaces(obs, h, u, g, s);
    FreeIsElsewhere(obs, h);
    PassedOver(TrialsOf(obs), h, g);
  }

  lemma MissesBy(obs: seq<Obs>, t: Vec, h: Face)
    requires Fitted(obs, FREE, t) && OptimalFace(obs, FREE, h) && !Feasible(obs, FREE) && !LeastResidual(TrialsOf(obs), FREE, h)
    ensures !Optimal(obs, FREE, t) && Cost(obs, FaceSolution(obs, h)) < Cost(obs, t)
  {
    RidgeOptimalIff(obs, FREE, t, h);
    OptimalIff(obs, FREE, h, t);
    FitIsFeasible(obs, FREE, t);
    StrictOptimum(obs, FREE, h, t);
  }

  /** Whatever the fit answers there, a feasible point costs less. */
  ghost predicate Missed(obs: seq<Obs>, h: Face) {
    forall t | Fitted(obs, FREE, t) :: !Optimal(obs, FREE, t) && Cost(obs, FaceSolution(obs, h)) < Cost(obs, t)
  }

  lemma AllMissed(obs: seq<Obs>, h: Face)
    requires OptimalFace(obs, FREE, h) && !Feasible(obs, FREE) && !LeastResidual(TrialsOf(obs), FREE, h)
    ensures Missed(obs, h)
  {
    forall t | Fitted(obs, FREE, t) ensures !Optimal(obs, FREE, t) && Cost(obs, FaceSolution(obs, h)) < Cost(obs, t) {
      MissesBy(obs, t, h);
    }
  }

  /** Three observations on which the condition fails: the answer of the fit costs more than a feasible point. */
  lemma FallbackMissesOptimum(obs: seq<Obs>) returns (h: Face)
    requires obs == EXAMPLE
    ensures OptimalFace(obs, FREE, h) && !Feasible(obs, FREE) && !LeastResidual(TrialsOf(obs), FREE, h)
    ensures Missed(obs, h)
  {
    var u, g, s;
    h, u, g, s := ExampleDeceives(obs);
    DeceptionMisses(obs, h, u, g, s);
    AllMissed(obs, h);
  }
}
