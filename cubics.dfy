// The piecewise cubic of 5_lab/src/main.cpp: two cubics joined at xmid = 0.4
// whose eight coefficients solve an 8 x 8 linear system of value and slope
// conditions, sampled as one line strip, and probed at the mouse's x to draw
// a tangent segment.

module Cubics {
  import opened Options
  import opened LinAlg

  /** `calcCubic`: c(0) x^3 + c(1) x^2 + c(2) x + c(3). */
  function Cubic(x: real, c: Vec4): real {
    c.x * x * x * x + c.y * x * x + c.z * x + c.w
  }

  /** `calcDXCubic`: 3 c(0) x^2 + 2 c(1) x + c(2). */
  function DCubic(x: real, c: Vec4): real {
    3.0 * c.x * x * x + 2.0 * c.y * x + 1.0 * c.z
  }

  /** `calcDXCubic` is the derivative of `calcCubic`: the Taylor expansion of
      the cubic around x, whose linear term is DCubic, is exact. */
  lemma DCubicIsDerivative(x: real, h: real, c: Vec4)
    ensures Cubic(x + h, c) ==
      Cubic(x, c) + h * DCubic(x, c) + h * h * (3.0 * c.x * x + c.y) + h * h * h * c.x
  {
    calc {
      Cubic(x + h, c);
      c.x * (x + h) * (x + h) * (x + h) + c.y * (x + h) * (x + h) + c.z * (x + h) + c.w;
      { CubeExpand(x, h); SquareExpand(x, h); }
      c.x * (x * x * x + 3.0 * x * x * h + 3.0 * x * h * h + h * h * h) +
        c.y * (x * x + 2.0 * x * h + h * h) + c.z * (x + h) + c.w;
    }
  }

  lemma SquareExpand(x: real, h: real)
    ensures (x + h) * (x + h) == x * x + 2.0 * x * h + h * h
  {
  }

  lemma CubeExpand(x: real, h: real)
    ensures (x + h) * (x + h) * (x + h) == x * x * x + 3.0 * x * x * h + 3.0 * x * h * h + h * h * h
  {
    SquareExpand(x, h);
  }

  // ---- the constraint system of init ----

  /** The breakpoint `xmid`, and the point 0.5 of the fifth and sixth rows. */
  const Mid := 0.4
  const Half := 0.5

  /** The matrix A: rows 1-2 pin piece 0 at x = 0, rows 3-4 join the pieces
      in value and slope at x = 0.4, rows 5-8 pin piece 1 at x = 0.5 and 1. */
  function SystemMatrix(): (a: seq<seq<real>>)
    ensures |a| == 8 && forall i :: 0 <= i < 8 ==> |a[i]| == 8
  {
    var m3, m2, m1 := Mid * Mid * Mid, Mid * Mid, Mid;
    var x3, x2, x1 := Half * Half * Half, Half * Half, Half;
    [[0.0, 0.0, 0.0, 1.0,  0.0, 0.0, 0.0, 0.0],
     [0.0, 0.0, 1.0, 0.0,  0.0, 0.0, 0.0, 0.0],
     [m3, m2, m1, 1.0,  -m3, -m2, -m1, -1.0],
     [3.0 * m2, 2.0 * m1, 1.0, 0.0,  -3.0 * m2, -2.0 * m1, -1.0, 0.0],
     [0.0, 0.0, 0.0, 0.0,  x3, x2, x1, 1.0],
     [0.0, 0.0, 0.0, 0.0,  3.0 * x2, 2.0 * x1, 1.0, 0.0],
     [0.0, 0.0, 0.0, 0.0,  1.0, 1.0, 1.0, 1.0],
     [0.0, 0.0, 0.0, 0.0,  3.0, 2.0, 1.0, 0.0]]
  }

  /** The right-hand side b. */
  function Rhs(): (b: seq<real>)
    ensures |b| == 8
  {
    [0.0, 0.0, 0.0, 0.0, 0.2, 0.0, 1.0, 0.0]
  }

  /** Row r of A times c. */
  function Dot8(r: seq<real>, c: seq<real>): real
    requires |r| == 8 && |c| == 8
  {
    r[0] * c[0] + r[1] * c[1] + r[2] * c[2] + r[3] * c[3] +
    r[4] * c[4] + r[5] * c[5] + r[6] * c[6] + r[7] * c[7]
  }

  /** A * c == b. */
  predicate Solves(c: seq<real>)
    requires |c| == 8
  {
    forall i :: 0 <= i < 8 ==> Dot8(SystemMatrix()[i], c) == Rhs()[i]
  }

  /** `coeffs0 << c(0), c(1), c(2), c(3)`. */
  function Coeffs0(c: seq<real>): Vec4
    requires |c| == 8
  {
    Vec4(c[0], c[1], c[2], c[3])
  }

  /** `coeffs1 << c(4), c(5), c(6), c(7)`. */
  function Coeffs1(c: seq<real>): Vec4
    requires |c| == 8
  {
    Vec4(c[4], c[5], c[6], c[7])
  }

  /** The eight conditions the comment in `init` lists. */
  predicate Conditions(c0: Vec4, c1: Vec4) {
    Cubic(0.0, c0) == 0.0 && DCubic(0.0, c0) == 0.0 &&
    Cubic(0.4, c0) == Cubic(0.4, c1) && DCubic(0.4, c0) == DCubic(0.4, c1) &&
    Cubic(0.5, c1) == 0.2 && DCubic(0.5, c1) == 0.0 &&
    Cubic(1.0, c1) == 1.0 && DCubic(1.0, c1) == 0.0
  }

  /** Each row of A * c == b is one of the eight conditions. */
  lemma Row0(c: seq<real>)
    requires |c| == 8
    ensures Dot8(SystemMatrix()[0], c) == Rhs()[0] <==> Cubic(0.0, Coeffs0(c)) == 0.0
  {
    assert SystemMatrix()[0] == [0.0, 0.0, 0.0, 1.0, 0.0, 0.0, 0.0, 0.0];
  }

  lemma Row1(c: seq<real>)
    requires |c| == 8
    ensures Dot8(SystemMatrix()[1], c) == Rhs()[1] <==> DCubic(0.0, Coeffs0(c)) == 0.0
  {
    assert SystemMatrix()[1] == [0.0, 0.0, 1.0, 0.0, 0.0, 0.0, 0.0, 0.0];
  }

  lemma Row2(c: seq<real>)
    requires |c| == 8
    ensures Dot8(SystemMatrix()[2], c) == Rhs()[2] <==> Cubic(0.4, Coeffs0(c)) == Cubic(0.4, Coeffs1(c))
  {
    assert SystemMatrix()[2] == [0.064, 0.16, 0.4, 1.0, -0.064, -0.16, -0.4, -1.0];
  }

  lemma Row3(c: seq<real>)
    requires |c| == 8
    ensures Dot8(SystemMatrix()[3], c) == Rhs()[3] <==> DCubic(0.4, Coeffs0(c)) == DCubic(0.4, Coeffs1(c))
  {
    assert SystemMatrix()[3] == [0.48, 0.8, 1.0, 0.0, -0.48, -0.8, -1.0, 0.0];
  }

  lemma Row4(c: seq<real>)
    requires |c| == 8
    ensures Dot8(SystemMatrix()[4], c) == Rhs()[4] <==> Cubic(0.5, Coeffs1(c)) == 0.2
  {
    assert SystemMatrix()[4] == [0.0, 0.0, 0.0, 0.0, 0.125, 0.25, 0.5, 1.0];
  }

  lemma Row5(c: seq<real>)
    requires |c| == 8
    ensures Dot8(SystemMatrix()[5], c) == Rhs()[5] <==> DCubic(0.5, Coeffs1(c)) == 0.0
  {
    assert SystemMatrix()[5] == [0.0, 0.0, 0.0, 0.0, 0.75, 1.0, 1.0, 0.0];
  }

  lemma Row6(c: seq<real>)
    requires |c| == 8
    ensures Dot8(SystemMatrix()[6], c) == Rhs()[6] <==> Cubic(1.0, Coeffs1(c)) == 1.0
  {
  }

  lemma Row7(c: seq<real>)
    requires |c| == 8
    ensures Dot8(SystemMatrix()[7], c) == Rhs()[7] <==> DCubic(1.0, Coeffs1(c)) == 0.0
  {
  }

  /** A * c == b holds exactly when the two pieces meet the eight conditions. */
  lemma SolvesIffConditions(c: seq<real>)
    requires |c| == 8
    ensures Solves(c) <==> Conditions(Coeffs0(c), Coeffs1(c))
  {
    Row0(c); Row1(c); Row2(c); Row3(c); Row4(c); Row5(c); Row6(c); Row7(c);
    if Conditions(Coeffs0(c), Coeffs1(c)) {
      forall i | 0 <= i < 8
        ensures Dot8(SystemMatrix()[i], c) == Rhs()[i]
      {
        if i == 0 {} else if i == 1 {} else if i == 2 {} else if i == 3 {}
        else if i == 4 {} else if i == 5 {} else if i == 6 {} else {}
      }
    }
  }

  /** The exact solution of the system. */
  function Solution(): (c: seq<real>)
    ensures |c| == 8
  {
    [-24.05, 11.55, 0.0, 0.0, -12.8, 28.8, -19.2, 4.2]
  }

  /** A is invertible: the system has exactly one solution, so whatever the
      QR solver returns, the coefficients are determined. */
  lemma SolutionIsUnique(c: seq<real>)
    requires |c| == 8
    ensures Solves(c) <==> c == Solution()
  {
    SolvesIffConditions(c);
    if Solves(c) {
      ConditionsDetermine(c);
    } else {
      SolutionSolves();
    }
  }

  /** The solution does solve the system. */
  lemma SolutionSolves()
    ensures Solves(Solution())
  {
    SolvesIffConditions(Solution());
    SolutionMeetsConditions();
  }

  /** The eight conditions leave no freedom in the coefficients. */
  lemma ConditionsDetermine(c: seq<real>)
    requires |c| == 8 && Conditions(Coeffs0(c), Coeffs1(c))
    ensures c == Solution()
  {
    SecondPieceDetermined(Coeffs1(c));
    FirstPieceDetermined(Coeffs0(c), Coeffs1(c));
    CoeffsAreSolution(c);
  }

  lemma CoeffsAreSolution(c: seq<real>)
    requires |c| == 8
    requires Coeffs0(c) == Vec4(-24.05, 11.55, 0.0, 0.0) && Coeffs1(c) == Vec4(-12.8, 28.8, -19.2, 4.2)
    ensures c == Solution()
  {
    assert c == [c[0], c[1], c[2], c[3], c[4], c[5], c[6], c[7]];
  }

  /** Rows 5-8 alone fix piece 1. */
  lemma SecondPieceDetermined(c1: Vec4)
    requires Cubic(0.5, c1) == 0.2 && DCubic(0.5, c1) == 0.0
    requires Cubic(1.0, c1) == 1.0 && DCubic(1.0, c1) == 0.0
    ensures c1 == Vec4(-12.8, 28.8, -19.2, 4.2)
  {
    assert Cubic(1.0, c1) == c1.x + c1.y + c1.z + c1.w;
    assert DCubic(1.0, c1) == 3.0 * c1.x + 2.0 * c1.y + c1.z;
    assert Cubic(0.5, c1) == 0.125 * c1.x + 0.25 * c1.y + 0.5 * c1.z + c1.w;
    assert DCubic(0.5, c1) == 0.75 * c1.x + c1.y + c1.z;
    SecondPieceSolve(c1.x, c1.y, c1.z, c1.w);
  }

  lemma SecondPieceSolve(a: real, b: real, c: real, d: real)
    requires a + b + c + d == 1.0 && 3.0 * a + 2.0 * b + c == 0.0
    requires 0.125 * a + 0.25 * b + 0.5 * c + d == 0.2 && 0.75 * a + b + c == 0.0
    ensures a == -12.8 && b == 28.8 && c == -19.2 && d == 4.2
  {
  }

  /** With piece 1 fixed, rows 1-4 fix piece 0. */
  lemma FirstPieceDetermined(c0: Vec4, c1: Vec4)
    requires c1 == Vec4(-12.8, 28.8, -19.2, 4.2)
    requires Cubic(0.0, c0) == 0.0 && DCubic(0.0, c0) == 0.0
    requires Cubic(0.4, c0) == Cubic(0.4, c1) && DCubic(0.4, c0) == DCubic(0.4, c1)
    ensures c0 == Vec4(-24.05, 11.55, 0.0, 0.0)
  {
    assert Cubic(0.0, c0) == c0.w && DCubic(0.0, c0) == c0.z;
    assert Cubic(0.4, c1) == 0.3088 && DCubic(0.4, c1) == -2.304;
    assert Cubic(0.4, c0) == 0.064 * c0.x + 0.16 * c0.y + 0.4 * c0.z + c0.w;
    assert DCubic(0.4, c0) == 0.48 * c0.x + 0.8 * c0.y + c0.z;
    FirstPieceSolve(c0.x, c0.y);
  }

  lemma FirstPieceSolve(a: real, b: real)
    requires 0.064 * a + 0.16 * b == 0.3088 && 0.48 * a + 0.8 * b == -2.304
    ensures a == -24.05 && b == 11.55
  {
  }

  lemma SolutionMeetsConditions()
    ensures Conditions(Coeffs0(Solution()), Coeffs1(Solution()))
  {
    var c0, c1 := Vec4(-24.05, 11.55, 0.0, 0.0), Vec4(-12.8, 28.8, -19.2, 4.2);
    assert Coeffs0(Solution()) == c0 && Coeffs1(Solution()) == c1;
    assert Cubic(0.0, c0) == 0.0;
    assert DCubic(0.0, c0) == 0.0;
    assert Cubic(0.4, c0) == -1.5392 + 1.848;
    assert Cubic(0.4, c1) == -0.8192 + 4.608 - 7.68 + 4.2;
    assert DCubic(0.4, c0) == -11.544 + 9.24;
    assert DCubic(0.4, c1) == -6.144 + 23.04 - 19.2;
    assert Cubic(0.5, c1) == 0.2;
    assert DCubic(0.5, c1) == 0.0;
    assert Cubic(1.0, c1) == 1.0;
    assert DCubic(1.0, c1) == 0.0;
  }

  // ---- init ----

  class CubicLab {
    var coeffs0: Vec4
    var coeffs1: Vec4
    var xmid: real

    /** The globals have static storage, so both pieces and the breakpoint
        start out zero. */
    constructor ()
      ensures coeffs0 == Zero4 && coeffs1 == Zero4 && xmid == 0.0
    {
      coeffs0, coeffs1, xmid := Zero4, Zero4, 0.0;
    }

    /** `init`: the solver's answer c to A * c == b is split into the two
        pieces, and the breakpoint set to 0.4, the x of rows 3 and 4. */
    method Init(c: seq<real>)
      requires |c| == 8 && Solves(c)
      modifies this
      ensures coeffs0 == Coeffs0(c) && coeffs1 == Coeffs1(c) && xmid == Mid
      ensures Conditions(coeffs0, coeffs1)
    {
      SolvesIffConditions(c);
      xmid := 0.4;
      coeffs0 := Vec4(c[0], c[1], c[2], c[3]);
      coeffs1 := Vec4(c[4], c[5], c[6], c[7]);
    }
  }

  // ---- drawCubics ----

  /** `NUM_SAMPLES`. */
  const NumSamples := 100

  /** `start * (1 - x_norm) + end * x_norm` with `x_norm = x / NUM_SAMPLES`. */
  function SampleX(start: real, end: real, i: int): real {
    var t := i as real / NumSamples as real;
    start * (1.0 - t) + end * t
  }

  /** The sample points begin at the piece's start, increase, and stay short
      of its end, which is never sampled. */
  lemma SampleXInPiece(start: real, end: real, i: int, j: int)
    requires start < end && 0 <= i < j < NumSamples
    ensures SampleX(start, end, 0) == start
    ensures start <= SampleX(start, end, i) < SampleX(start, end, j) < end
  {
    SampleAtStart(start, end);
    SampleAfterStart(start, end, i);
    SamplesIncrease(start, end, i, j);
    SampleBeforeEnd(start, end, j);
  }

  /** How far along its piece sample k lies, `x / NUM_SAMPLES`. */
  function Fraction(k: int): real {
    k as real / NumSamples as real
  }

  /** A sample lies the fraction k / NUM_SAMPLES of the way along the piece. */
  lemma SampleXIs(start: real, end: real, k: int)
    ensures SampleX(start, end, k) == start + (end - start) * Fraction(k)
  {
    var t := Fraction(k);
    assert SampleX(start, end, k) == start * (1.0 - t) + end * t;
    assert start * (1.0 - t) + end * t == start + (end - start) * t;
  }

  // The next four lemmas prove one fact each, so that no proof has to
  // combine several goals over the products in SampleX.

  lemma SampleAtStart(start: real, end: real)
    ensures SampleX(start, end, 0) == start
  {
    SampleXIs(start, end, 0);
  }

  lemma SampleAfterStart(start: real, end: real, i: int)
    requires start < end && 0 <= i
    ensures start <= SampleX(start, end, i)
  {
    SampleXIs(start, end, i);
    NonNegProduct(end - start, Fraction(i));
  }

  lemma SamplesIncrease(start: real, end: real, i: int, j: int)
    requires start < end && i < j
    ensures SampleX(start, end, i) < SampleX(start, end, j)
  {
    SampleXIs(start, end, i);
    SampleXIs(start, end, j);
    PosProduct(end - start, Fraction(j) - Fraction(i));
    assert (end - start) * Fraction(j) - (end - start) * Fraction(i) == (end - start) * (Fraction(j) - Fraction(i));
  }

  lemma SampleBeforeEnd(start: real, end: real, j: int)
    requires start < end && j < NumSamples
    ensures SampleX(start, end, j) < end
  {
    SampleXIs(start, end, j);
    PosProduct(end - start, 1.0 - Fraction(j));
    assert (end - start) - (end - start) * Fraction(j) == (end - start) * (1.0 - Fraction(j));
  }

  lemma NonNegProduct(a: real, b: real)
    requires a > 0.0 && b >= 0.0
    ensures a * b >= 0.0
  {
  }

  lemma PosProduct(a: real, b: real)
    requires a > 0.0 && b > 0.0
    ensures a * b > 0.0
  {
  }

  /** One piece drawn as `NUM_SAMPLES` vertices (x, calcCubic(x)). */
  method SamplePiece(start: real, end: real, c: Vec4) returns (pts: seq<Vec2>)
    ensures |pts| == NumSamples
    ensures forall i :: 0 <= i < NumSamples ==> pts[i] == Vec2(SampleX(start, end, i), Cubic(SampleX(start, end, i), c))
  {
    pts := [];
    var x := 0;
    while x < NumSamples
      invariant 0 <= x <= NumSamples && |pts| == x
      invariant forall i :: 0 <= i < x ==> pts[i] == Vec2(SampleX(start, end, i), Cubic(SampleX(start, end, i), c))
    {
      var xNorm := x as real / NumSamples as real;
      var realX := start * (1.0 - xNorm) + end * xNorm;
      pts := pts + [Vec2(realX, Cubic(realX, c))];
      x := x + 1;
    }
  }

  /** The red and green line strips: piece 0 over [0, xmid), then piece 1 over
      [xmid, 1). */
  method DrawPieces(c0: Vec4, c1: Vec4, xmid: real) returns (strip: seq<Vec2>)
    ensures |strip| == 2 * NumSamples
    ensures forall i :: 0 <= i < NumSamples ==>
      strip[i] == Vec2(SampleX(0.0, xmid, i), Cubic(SampleX(0.0, xmid, i), c0)) &&
      strip[NumSamples + i] == Vec2(SampleX(xmid, 1.0, i), Cubic(SampleX(xmid, 1.0, i), c1))
  {
    var first := SamplePiece(0.0, xmid, c0);
    var second := SamplePiece(xmid, 1.0, c1);
    strip := first + second;
  }

  /** Which piece the mouse's x selects. */
  datatype Piece = FirstPiece | SecondPiece | NoPiece

  /** `mx >= cubic1start && mx <= cubic2start` picks piece 0, otherwise
      `mx <= cubic2end` picks piece 1. */
  function PieceAt(mx: real, xmid: real): Piece {
    if 0.0 <= mx && mx <= xmid then FirstPiece
    else if mx <= 1.0 then SecondPiece
    else NoPiece
  }

  /** For 0 <= xmid <= 1 the pieces cover the whole line left of 1: piece 0
      exactly on [0, xmid], piece 1 on (xmid, 1] and also on every negative x,
      and nothing right of 1. */
  lemma PieceAtCovers(mx: real, xmid: real)
    requires 0.0 <= xmid <= 1.0
    ensures PieceAt(mx, xmid) == FirstPiece <==> 0.0 <= mx <= xmid
    ensures PieceAt(mx, xmid) == SecondPiece <==> mx < 0.0 || xmid < mx <= 1.0
    ensures PieceAt(mx, xmid) == NoPiece <==> 1.0 < mx
  {
  }

  /** The height `my` and slope `dy_dx` at the mouse's x: those of the
      selected piece, and 0 and 0 when no piece is selected. */
  function Probe(mx: real, c0: Vec4, c1: Vec4, xmid: real): (r: (real, real))
    ensures PieceAt(mx, xmid) == FirstPiece ==> r == (Cubic(mx, c0), DCubic(mx, c0))
    ensures PieceAt(mx, xmid) == SecondPiece ==> r == (Cubic(mx, c1), DCubic(mx, c1))
    ensures PieceAt(mx, xmid) == NoPiece ==> r == (0.0, 0.0)
  {
    if mx >= 0.0 && mx <= xmid then (Cubic(mx, c0), DCubic(mx, c0))
    else if mx <= 1.0 then (Cubic(mx, c1), DCubic(mx, c1))
    else (0.0, 0.0)
  }

  /** With coefficients meeting the conditions, the probe does not depend on
      which piece is taken at the breakpoint: both give the same height and
      slope there, and at x = 1 it reaches height 1 with a flat slope. */
  lemma ProbeContinuous(c0: Vec4, c1: Vec4)
    requires Conditions(c0, c1)
    ensures Probe(Mid, c0, c1, Mid) == (Cubic(Mid, c1), DCubic(Mid, c1))
    ensures Probe(1.0, c0, c1, Mid) == (1.0, 0.0)
    ensures Probe(0.0, c0, c1, Mid) == (0.0, 0.0)
  {
  }

  /** `dx = 1 / (dy_dx + 1)`, `dy = 1 - dx`: a direction whose components sum
      to 1 and whose slope dy / dx is dy_dx. At dy_dx = -1 the float division
      yields infinity and no direction exists: None. */
  function TangentDir(dydx: real): (r: Option<Vec2>)
    ensures r.None? <==> dydx == -1.0
    ensures r.Some? ==> r.value.x + r.value.y == 1.0 && r.value.y == dydx * r.value.x
  {
    if dydx + 1.0 == 0.0 then None
    else
      var dx := 1.0 / (dydx + 1.0);
      SlopeOfDirection(dydx, dx);
      Some(Vec2(dx, 1.0 - dx))
  }

  lemma SlopeOfDirection(s: real, dx: real)
    requires s + 1.0 != 0.0 && dx == 1.0 / (s + 1.0)
    ensures 1.0 - dx == s * dx
  {
    assert dx * (s + 1.0) == 1.0;
  }
}
