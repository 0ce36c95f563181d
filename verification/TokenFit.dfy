/**
 With the two token coefficients alone the fallback does not miss: whatever the observations, the fit answers with
 the ridge optimum. On an axis the cost falls by less than the residual does, and of two axes the one from which the
 cost falls no further has the smaller residual.
 */
module TokenFit {
  import opened Wrappers
  import opened Vectors
  import opened Ridge
  import opened Orthant
  import opened ActiveSet

  // ---------------------------------------------------------------- on one axis

  function Own(obs: seq<Obs>, c: Col): real {
    Cell(Normal(obs), c, c)
  }

  /** The coefficient of a column that is fitted alone. */
  ghost function Alone(obs: seq<Obs>, c: Col): real {
    Coord(FaceSolution(obs, OnlyFree(c)), c)
  }

  lemma OnAxis(obs: seq<Obs>, c: Col)
    ensures FaceSolution(obs, OnlyFree(c)) == Put(c, Alone(obs, c))
    ensures Times(Own(obs, c), Alone(obs, c)) == Coord(Rhs(obs), c)
  {
    var s := FaceSolution(obs, OnlyFree(c));
    assert Stationary(obs, OnlyFree(c), s);
    assert s == Put(c, Coord(s, c));
    ApplyPut(Normal(obs), c, Coord(s, c));
    GradientAt(obs, s, c);
  }

  lemma GradientAt(obs: seq<Obs>, t: Vec, c: Col)
    ensures Coord(Gradient(obs, t), c) == Coord(Apply(Normal(obs), t), c) - Coord(Rhs(obs), c)
  {
  }

  lemma ApplyAcross(m: Sym, c: Col, x: real, d: Col)
    ensures Coord(Apply(m, Put(c, x)), d) == Times(Cell(m, c, d), x)
  {
  }

  lemma AxisNumbers(n: real, x: real, q: real, l: real)
    requires Times(n, x) == q
    ensures Times(x, Times(x, n)) - 2.0 * Times(x, q) - l * Square(x) == -Times(n + l, Square(x))
  {
    assert Times(x, q) == x * (n * x);
  }

  lemma NormPut(c: Col, x: real)
    ensures Norm2(Put(c, x)) == Square(x)
  {
  }

  /** What the residual falls by on an axis. */
  lemma AxisRss(obs: seq<Obs>, c: Col)
    ensures Rss(obs, FaceSolution(obs, OnlyFree(c))) == SumOfSquares(obs) - Times(Own(obs, c) + LAMBDA, Square(Alone(obs, c)))
  {
    var x := Alone(obs, c);
    OnAxis(obs, c);
    CostForm(obs, Put(c, x));
    QuadPut(Normal(obs), c, x);
    DotPut(c, x, Rhs(obs));
    NormPut(c, x);
    AxisNumbers(Own(obs, c), x, Coord(Rhs(obs), c), LAMBDA);
  }

  // ---------------------------------------------------------------- two axes

  function Form(a: real, m: real, b: real, x: real, y: real): real {
    x * x * a + 2.0 * x * y * m + y * y * b
  }

  lemma PairForm(n: Sym, c: Col, x: real, d: Col, y: real)
    requires c != d
    ensures Quad(n, Pair(c, x, d, y)) == Form(Cell(n, c, c), Cell(n, c, d), Cell(n, d, d), x, y)
    ensures Norm2(Pair(c, x, d, y)) == Square(x) + Square(y)
  {
  }

  lemma FormLess(a: real, m: real, b: real, x: real, y: real, l: real)
    ensures Form(a - l, m, b - l, x, y) == Form(a, m, b, x, y) - l * (Square(x) + Square(y))
  {
  }

  /** The sums themselves, without the penalty, form a quadratic that is nowhere negative. */
  lemma SumsNonNeg(obs: seq<Obs>, c: Col, x: real, d: Col, y: real)
    requires c != d
    ensures Form(Own(obs, c) - LAMBDA, Cell(Normal(obs), c, d), Own(obs, d) - LAMBDA, x, y) >= 0.0
  {
    PairForm(Normal(obs), c, x, d, y);
    Curved(obs, Pair(c, x, d, y));
    FormLess(Own(obs, c), Cell(Normal(obs), c, d), Own(obs, d), x, y, LAMBDA);
  }

  lemma AcrossNumbers(a: real, m: real, b: real)
    requires a > 0.0 && Form(a, m, b, -m, a) >= 0.0
    ensures m * m <= a * b
  {
    assert Form(a, m, b, -m, a) == a * (a * b - m * m);
  }

  lemma NoneAcross(m: real, b: real)
    requires b >= 0.0 && Form(0.0, m, b, -(b + 1.0), m) >= 0.0
    ensures m == 0.0
  {
    assert Form(0.0, m, b, -(b + 1.0), m) == -(m * m) * (b + 2.0);
    if m != 0.0 {
      SquarePositive(m);
      ProductPositive(m * m, b + 2.0, (m * m) * (b + 2.0));
    }
  }

  ghost predicate NowhereNegative(a: real, m: real, b: real) {
    forall x, y :: Form(a, m, b, x, y) >= 0.0
  }

  lemma SchwarzNumbers(a: real, m: real, b: real)
    requires a >= 0.0 && b >= 0.0 && NowhereNegative(a, m, b)
    ensures Square(m) <= Times(a, b)
  {
    if a > 0.0 {
      assert Form(a, m, b, -m, a) >= 0.0;
      AcrossNumbers(a, m, b);
    } else {
      assert Form(a, m, b, -(b + 1.0), m) >= 0.0;
      NoneAcross(m, b);
    }
  }

  /** What a column adds up to without the penalty. */
  function Bare(obs: seq<Obs>, c: Col): real {
    Own(obs, c) - LAMBDA
  }

  /** The inequality of Cauchy and Schwarz for the sums of two columns. */
  lemma Schwarz(obs: seq<Obs>, c: Col, d: Col)
    requires c != d
    ensures Bare(obs, c) >= 0.0 && Bare(obs, d) >= 0.0
    ensures Square(Cell(Normal(obs), c, d)) <= Times(Bare(obs, c), Bare(obs, d))
  {
    var a, b, m := Bare(obs, c), Bare(obs, d), Cell(Normal(obs), c, d);
    Diagonal(obs, c);
    Diagonal(obs, d);
    forall x, y ensures Form(a, m, b, x, y) >= 0.0 {
      SumsNonNeg(obs, c, x, d, y);
    }
    SchwarzNumbers(a, m, b);
  }

  lemma SquaresOrder(x: real, y: real)
    requires 0.0 <= x <= y
    ensures x * x <= y * y
  {
  }

  lemma TimesLess(b: real, x: real, y: real)
    requires b > 0.0 && b * x < b * y
    ensures x < y
  {
  }

  /**
   `a` and `b` are the sums of two columns, `m` that across, `j` and `k` what either has when fitted alone. When at
   `j` the cost does not fall along the other column, the residual has fallen by more there than at `k`.
   */
  lemma FallsMore(a: real, b: real, m: real, j: real, k: real, l: real)
    requires a >= 0.0 && b >= 0.0 && Square(m) <= Times(a, b) && l > 0.0 && j >= 0.0 && k > 0.0 && Times(b + l, k) <= Times(m, j)
    ensures Times(b + 2.0 * l, Square(k)) < Times(a + 2.0 * l, Square(j))
  {
    var left := (b + l) * k;
    ProductPositive(b + l, k, left);
    SquaresOrder(left, m * j);
    FallsMoreNumbers(a, b, m, j, k, l, left);
  }

  lemma SquareOfProduct(m: real, j: real)
    ensures (m * j) * (m * j) == (m * m) * (j * j)
  {
  }

  lemma TimesOrder(x: real, y: real, z: real)
    requires x <= y && z >= 0.0
    ensures x * z <= y * z
  {
  }

  lemma FallsMoreNumbers(a: real, b: real, m: real, j: real, k: real, l: real, left: real)
    requires a >= 0.0 && b >= 0.0 && m * m <= a * b && l > 0.0 && k > 0.0
    requires left == (b + l) * k && left > 0.0 && left * left <= (m * j) * (m * j)
    ensures Times(b + 2.0 * l, Square(k)) < Times(a + 2.0 * l, Square(j))
  {
    var jj, kk := j * j, k * k;
    SquareOfProduct(m, j);
    SquareOfProduct(b + l, k);
    SquareNonNeg(j);
    TimesOrder(m * m, a * b, jj);
    ProductPositive(k, k, kk);
    ProductPositive(left, left, left * left);
    assert (b + l) * (b + l) * kk <= a * b * jj;
    ProductPositive(l * l, kk, l * l * kk) by { ProductPositive(l, l, l * l); }
    assert (b + l) * (b + l) == b * (b + 2.0 * l) + l * l;
    assert b * ((b + 2.0 * l) * kk) < b * (a * jj);
    if b > 0.0 { TimesLess(b, (b + 2.0 * l) * kk, a * jj); }
    TimesOrder(a, a + 2.0 * l, jj);
  }

  // ---------------------------------------------------------------- the fit of the two token coefficients

  lemma NoFallAcross(obs: seq<Obs>, c: Col, d: Col)
    requires c != d && Coord(Gradient(obs, FaceSolution(obs, OnlyFree(c))), d) >= 0.0
    ensures Times(Own(obs, d), Alone(obs, d)) <= Times(Cell(Normal(obs), c, d), Alone(obs, c))
  {
    OnAxis(obs, c);
    OnAxis(obs, d);
    GradientAt(obs, Put(c, Alone(obs, c)), d);
    ApplyAcross(Normal(obs), c, Alone(obs, c), d);
  }

  lemma OwnIsBare(obs: seq<Obs>, c: Col)
    ensures Own(obs, c) == Bare(obs, c) + LAMBDA && Own(obs, c) + LAMBDA == Bare(obs, c) + 2.0 * LAMBDA
  {
  }

  lemma ColumnFallsMore(obs: seq<Obs>, c: Col, d: Col)
    requires c != d && Coord(Gradient(obs, FaceSolution(obs, OnlyFree(c))), d) >= 0.0
    requires Alone(obs, c) >= 0.0 && Alone(obs, d) > 0.0
    ensures Times(Own(obs, d) + LAMBDA, Square(Alone(obs, d))) < Times(Own(obs, c) + LAMBDA, Square(Alone(obs, c)))
  {
    NoFallAcross(obs, c, d);
    Schwarz(obs, c, d);
    OwnIsBare(obs, c);
    OwnIsBare(obs, d);
    FallsMore(Bare(obs, c), Bare(obs, d), Cell(Normal(obs), c, d), Alone(obs, c), Alone(obs, d), LAMBDA);
  }

  /** Where the cost does not fall along another column, that column fitted alone is behind. */
  lemma AxisBeatsAxis(obs: seq<Obs>, c: Col, d: Col)
    requires c != d && Coord(Gradient(obs, FaceSolution(obs, OnlyFree(c))), d) >= 0.0
    requires Alone(obs, c) >= 0.0 && Alone(obs, d) >= 0.0
    ensures Alone(obs, d) == 0.0 || Rss(obs, FaceSolution(obs, OnlyFree(c))) < Rss(obs, FaceSolution(obs, OnlyFree(d)))
  {
    AxisRss(obs, c);
    AxisRss(obs, d);
    if Alone(obs, d) > 0.0 { ColumnFallsMore(obs, c, d); }
  }

  /** Any column fitted alone is no worse than none, and better unless it is zero. */
  lemma AxisBeatsZero(obs: seq<Obs>, c: Col)
    ensures Alone(obs, c) == 0.0 || Rss(obs, FaceSolution(obs, OnlyFree(c))) < Rss(obs, ZERO)
  {
    Diagonal(obs, c);
    AxisRss(obs, c);
    RssAtZero(obs);
    if Alone(obs, c) != 0.0 {
      SquarePositive(Alone(obs, c));
      ProductPositive(Own(obs, c) + LAMBDA, Square(Alone(obs, c)), Times(Own(obs, c) + LAMBDA, Square(Alone(obs, c))));
    }
  }

  /** Where nothing draws the cost down from zero, no column fitted alone is positive. */
  lemma ZeroBeatsAxis(obs: seq<Obs>, c: Col)
    requires Coord(Gradient(obs, ZERO), c) >= 0.0 && Alone(obs, c) >= 0.0
    ensures Alone(obs, c) == 0.0
  {
    Diagonal(obs, c);
    OnAxis(obs, c);
    GradientAt(obs, ZERO, c);
    ApplyPut(Normal(obs), c, 0.0);
    assert Put(c, 0.0) == ZERO;
    if Alone(obs, c) > 0.0 { ProductPositive(Own(obs, c), Alone(obs, c), Times(Own(obs, c), Alone(obs, c))); }
  }

  lemma ZeroFace(obs: seq<Obs>)
    ensures FaceSolution(obs, ONLY_ZERO) == ZERO
  {
    assert Stationary(obs, ONLY_ZERO, FaceSolution(obs, ONLY_ZERO));
  }

  /** The faces below that of the tokens: one for each column, and zero. */
  function Below(c: Option<Col>): Face {
    match c
    case None => ONLY_ZERO
    case Some(d) => OnlyFree(d)
  }

  lemma BelowTokens(g: Face) returns (c: Option<Col>)
    requires g != TOKENS && SubFace(g, TOKENS)
    ensures g == Below(c) && c != Some(ColLoaded)
  {
    c := if g.b then Some(ColIn) else if g.c then Some(ColOut) else None;
  }

  /** Of two such faces, the optimal one has the smaller residual unless both have the same solution. */
  lemma OptimalPrecedes(obs: seq<Obs>, c: Option<Col>, d: Option<Col>)
    requires c != Some(ColLoaded) && d != Some(ColLoaded) && OptimalFace(obs, TOKENS, Below(c)) && Feasible(obs, Below(d))
    ensures FaceSolution(obs, Below(d)) == FaceSolution(obs, Below(c))
            || Rss(obs, FaceSolution(obs, Below(c))) < Rss(obs, FaceSolution(obs, Below(d)))
  {
    ZeroFace(obs);
    if c.Some? { OnAxis(obs, c.value); }
    if d.Some? { OnAxis(obs, d.value); }
    if c != d {
      if c.None? {
        ZeroBeatsAxis(obs, d.value);
      } else if d.None? {
        AxisBeatsZero(obs, c.value);
      } else {
        AxisBeatsAxis(obs, c.value, d.value);
        AxisBeatsZero(obs, c.value);
      }
    }
  }

  lemma TokensLeast(obs: seq<Obs>, h: Face)
    requires OptimalFace(obs, TOKENS, h) && !Feasible(obs, TOKENS)
    ensures LeastResidual(TrialsOf(obs), TOKENS, h)
  {
    var ts := TrialsOf(obs);
    var c := BelowTokens(h);
    BelowAll(TOKENS, h);
    forall g | Boundary(ts, TOKENS, TRIED, g) && ts(g).at != ts(h).at
      ensures exists e :: Boundary(ts, TOKENS, TRIED, e) && ts(e).at == ts(h).at && Precedes(ts, e, g)
    {
      var d := BelowTokens(g);
      OptimalPrecedes(obs, c, d);
      assert Boundary(ts, TOKENS, TRIED, h) && Precedes(ts, h, g);
    }
  }

  /** Whatever the observations, the fit of the two token coefficients is the ridge optimum. */
  lemma TokensAreOptimal(obs: seq<Obs>, t: Vec)
    requires Fitted(obs, TOKENS, t)
    ensures Optimal(obs, TOKENS, t)
  {
    var h := OptimalFaceExists(obs, TOKENS);
    if !Feasible(obs, TOKENS) { TokensLeast(obs, h); }
    RidgeOptimalIff(obs, TOKENS, t, h);
  }
}
