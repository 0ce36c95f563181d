/** Three-dimensional vectors and symmetric matrices over exact reals, and the identities the regression rests on. */
module Vectors {
  datatype Vec = Vec(a: real, b: real, c: real)

  /** A symmetric matrix by its upper triangle. */
  datatype Sym = Sym(aa: real, ab: real, ac: real, bb: real, bc: real, cc: real)

  const ZERO := Vec(0.0, 0.0, 0.0)

  function Dot(x: Vec, y: Vec): real {
    Lin3(x.a, x.b, x.c, y.a, y.b, y.c)
  }

  // Products and quotients are named, so that equal operands give equal results without arithmetic.
  function Times(x: real, y: real): real {
    x * y
  }

  function Over(x: real, y: real): real
    requires y != 0.0
  {
    x / y
  }

  function Square(x: real): real {
    x * x
  }

  /** The square of the length. */
  function Norm2(x: Vec): real {
    Square(x.a) + Square(x.b) + Square(x.c)
  }

  function Sum(x: Vec, y: Vec): Vec {
    Vec(x.a + y.a, x.b + y.b, x.c + y.c)
  }

  function Minus(x: Vec, y: Vec): Vec {
    Vec(x.a - y.a, x.b - y.b, x.c - y.c)
  }

  function Scale(k: real, x: Vec): Vec {
    Vec(Times(k, x.a), Times(k, x.b), Times(k, x.c))
  }

  function Lin3(p: real, q: real, r: real, x: real, y: real, z: real): real {
    p * x + q * y + r * z
  }

  function Apply(m: Sym, x: Vec): Vec {
    Vec(Lin3(m.aa, m.ab, m.ac, x.a, x.b, x.c), Lin3(m.ab, m.bb, m.bc, x.a, x.b, x.c), Lin3(m.ac, m.bc, m.cc, x.a, x.b, x.c))
  }

  function Quad6(aa: real, ab: real, ac: real, bb: real, bc: real, cc: real, xa: real, xb: real, xc: real): real {
    aa * xa * xa + bb * xb * xb + cc * xc * xc + 2.0 * (ab * xa * xb + ac * xa * xc + bc * xb * xc)
  }

  function Det6(aa: real, ab: real, ac: real, bb: real, bc: real, cc: real): real {
    aa * (bb * cc - bc * bc) - ab * (ab * cc - bc * ac) + ac * (ab * bc - bb * ac)
  }

  function Det2(p: real, r: real, q: real): real {
    p * q - r * r
  }

  /** The quadratic form of `m`. */
  function Quad(m: Sym, x: Vec): real {
    Quad6(m.aa, m.ab, m.ac, m.bb, m.bc, m.cc, x.a, x.b, x.c)
  }

  function Det(m: Sym): real {
    Det6(m.aa, m.ab, m.ac, m.bb, m.bc, m.cc)
  }

  function Add(m: Sym, n: Sym): Sym {
    Sym(m.aa + n.aa, m.ab + n.ab, m.ac + n.ac, m.bb + n.bb, m.bc + n.bc, m.cc + n.cc)
  }

  /** What a row `z` of the design adds to the normal matrix. */
  function Outer(z: Vec): Sym {
    Sym(Times(z.a, z.a), Times(z.a, z.b), Times(z.a, z.c), Times(z.b, z.b), Times(z.b, z.c), Times(z.c, z.c))
  }

  lemma SquareNonNeg(x: real)
    ensures Square(x) >= 0.0
  {
  }

  lemma ProductPositive(x: real, y: real, p: real)
    requires x > 0.0 && y > 0.0 && p == x * y
    ensures p > 0.0
  {
  }

  lemma SquarePositive(x: real)
    requires x != 0.0
    ensures Square(x) > 0.0
  {
    if x > 0.0 { ProductPositive(x, x, Square(x)); } else { ProductPositive(-x, -x, Square(x)); }
  }

  // ---------------------------------------------------------------- the identities, on numbers

  lemma OuterNumbers(za: real, zb: real, zc: real, xa: real, xb: real, xc: real, s: real)
    requires s == Lin3(za, zb, zc, xa, xb, xc)
    ensures Quad6(Times(za, za), Times(za, zb), Times(za, zc), Times(zb, zb), Times(zb, zc), Times(zc, zc), xa, xb, xc) == Square(s)
  {
  }

  /** The quadratic form at the last column of the adjugate. */
  lemma SchurNumbers(aa: real, ab: real, ac: real, bb: real, bc: real, cc: real)
    ensures Quad6(aa, ab, ac, bb, bc, cc, ab * bc - bb * ac, ab * ac - aa * bc, Det2(aa, ab, bb))
            == Times(Det6(aa, ab, ac, bb, bc, cc), Det2(aa, ab, bb))
  {
  }

  lemma QuadSumNumbers(aa: real, ab: real, ac: real, bb: real, bc: real, cc: real, xa: real, xb: real, xc: real,
                       ya: real, yb: real, yc: real)
    ensures
      Quad6(aa, ab, ac, bb, bc, cc, xa + ya, xb + yb, xc + yc)
      == Quad6(aa, ab, ac, bb, bc, cc, xa, xb, xc)
         + 2.0 * Lin3(ya, yb, yc, Lin3(aa, ab, ac, xa, xb, xc), Lin3(ab, bb, bc, xa, xb, xc), Lin3(ac, bc, cc, xa, xb, xc))
         + Quad6(aa, ab, ac, bb, bc, cc, ya, yb, yc)
  {
  }

  lemma QuadScaleNumbers(aa: real, ab: real, ac: real, bb: real, bc: real, cc: real, k: real, xa: real, xb: real, xc: real)
    ensures Quad6(aa, ab, ac, bb, bc, cc, Times(k, xa), Times(k, xb), Times(k, xc)) == Times(Square(k), Quad6(aa, ab, ac, bb, bc, cc, xa, xb, xc))
  {
  }

  // ---------------------------------------------------------------- and on vectors

  lemma NormPositive(x: Vec)
    ensures Norm2(x) >= 0.0
    ensures x != ZERO ==> Norm2(x) > 0.0
  {
    SquareNonNeg(x.a);
    SquareNonNeg(x.b);
    SquareNonNeg(x.c);
    if x.a != 0.0 { SquarePositive(x.a); }
    if x.b != 0.0 { SquarePositive(x.b); }
    if x.c != 0.0 { SquarePositive(x.c); }
  }

  lemma QuadAdd(m: Sym, n: Sym, x: Vec)
    ensures Quad(Add(m, n), x) == Quad(m, x) + Quad(n, x)
  {
  }

  lemma QuadOuter(z: Vec, x: Vec)
    ensures Quad(Outer(z), x) == Square(Dot(z, x))
  {
    OuterNumbers(z.a, z.b, z.c, x.a, x.b, x.c, Dot(z, x));
  }

  lemma QuadSum(m: Sym, x: Vec, y: Vec)
    ensures Quad(m, Sum(x, y)) == Quad(m, x) + 2.0 * Dot(y, Apply(m, x)) + Quad(m, y)
  {
    QuadSumNumbers(m.aa, m.ab, m.ac, m.bb, m.bc, m.cc, x.a, x.b, x.c, y.a, y.b, y.c);
  }

  lemma QuadScale(m: Sym, k: real, x: Vec)
    ensures Quad(m, Scale(k, x)) == Times(Square(k), Quad(m, x))
  {
    QuadScaleNumbers(m.aa, m.ab, m.ac, m.bb, m.bc, m.cc, k, x.a, x.b, x.c);
  }
}
