// Cubic spline segments shared by the curve labs (2_lab, 4_lab, keyframe_asgn).
// A segment is a window of four control points G (the columns of Eigen's 3x4
// block), a 4x4 basis matrix B, and the curve point G * B * (1, u, u^2, u^3).

module Splines {
  import opened LinAlg

  // ---- monomial vectors ----

  /** `u_vec`: (1, u, u^2, u^3). */
  function UVec(u: real): Vec4 { Vec4(1.0, u, u * u, u * u * u) }

  /** `d_u_vec` and `uvecify`: (0, 1, 2u, 3u^2). */
  function DUVec(u: real): Vec4 { Vec4(0.0, 1.0, 2.0 * u, 3.0 * u * u) }

  /** `d_2_u_vec`: (0, 0, 2, 6u). */
  function D2UVec(u: real): Vec4 { Vec4(0.0, 0.0, 2.0, 6.0 * u) }

  /** The (constant) third derivative of UVec. */
  const D3UVec := Vec4(0.0, 0.0, 0.0, 6.0)

  /** DUVec and D2UVec are the first and second derivatives of UVec: the cubic
      Taylor expansion of UVec around u with these vectors is exact. */
  lemma UVecTaylor(u: real, h: real)
    ensures UVec(u + h) ==
      Add4(UVec(u), Add4(Scale4(h, DUVec(u)),
        Add4(Scale4(h * h / 2.0, D2UVec(u)), Scale4(h * h * h / 6.0, D3UVec))))
  {
    assert (u + h) * (u + h) == u * u + 2.0 * u * h + h * h;
    assert (u + h) * (u + h) * (u + h) == u * u * u + 3.0 * u * u * h + 3.0 * u * h * h + h * h * h;
  }

  /** D2UVec is the derivative of DUVec, and D3UVec the derivative of D2UVec. */
  lemma DUVecTaylor(u: real, h: real)
    ensures DUVec(u + h) == Add4(DUVec(u), Add4(Scale4(h, D2UVec(u)), Scale4(h * h / 2.0, D3UVec)))
    ensures D2UVec(u + h) == Add4(D2UVec(u), Scale4(h, D3UVec))
  {
    assert 3.0 * (u + h) * (u + h) == 3.0 * u * u + 6.0 * u * h + 3.0 * h * h;
  }

  // ---- curve points ----

  /** Four consecutive control points: the columns of the 3x4 block `Gk`. */
  datatype Window = Window(p0: Vec3, p1: Vec3, p2: Vec3, p3: Vec3)

  /** The window of control points starting at column k (`G.block<3,4>(0,k)`). */
  function WindowAt(cps: seq<Vec3>, k: int): (g: Window)
    requires 0 <= k && k + 4 <= |cps|
    ensures g.p0 == cps[k] && g.p3 == cps[k + 3]
  {
    Window(cps[k], cps[k + 1], cps[k + 2], cps[k + 3])
  }

  /** One coordinate of G * w. */
  function Lin(w: Vec4, a: real, b: real, c: real, d: real): real {
    w.x * a + w.y * b + w.z * c + w.w * d
  }

  /** G * w for the 3x4 matrix G whose columns are the window's points. */
  function Combine(g: Window, w: Vec4): Vec3 {
    Vec3(Lin(w, g.p0.x, g.p1.x, g.p2.x, g.p3.x),
         Lin(w, g.p0.y, g.p1.y, g.p2.y, g.p3.y),
         Lin(w, g.p0.z, g.p1.z, g.p2.z, g.p3.z))
  }

  /** G * B * u_vec. */
  function CurvePoint(g: Window, b: Mat4, u: real): Vec3 {
    Combine(g, Apply(b, UVec(u)))
  }

  /** G * B * d_u_vec: the curve's derivative with respect to u. */
  function Tangent(g: Window, b: Mat4, u: real): Vec3 {
    Combine(g, Apply(b, DUVec(u)))
  }

  /** G * B * d_2_u_vec: the curve's second derivative with respect to u. */
  function Curvature(g: Window, b: Mat4, u: real): Vec3 {
    Combine(g, Apply(b, D2UVec(u)))
  }

  /** The four weights of w are a, b, c and d. */
  predicate IsWeights(w: Vec4, a: real, b: real, c: real, d: real) {
    w.x == a && w.y == b && w.z == c && w.w == d
  }

  // Where the weights at u are a unit vector, the curve passes through one
  // control point; these hold for every basis b.

  lemma PassesFirst(g: Window, b: Mat4, u: real)
    requires IsWeights(Apply(b, UVec(u)), 1.0, 0.0, 0.0, 0.0)
    ensures CurvePoint(g, b, u) == g.p0
  {
  }

  lemma PassesSecond(g: Window, b: Mat4, u: real)
    requires IsWeights(Apply(b, UVec(u)), 0.0, 1.0, 0.0, 0.0)
    ensures CurvePoint(g, b, u) == g.p1
  {
  }

  lemma PassesThird(g: Window, b: Mat4, u: real)
    requires IsWeights(Apply(b, UVec(u)), 0.0, 0.0, 1.0, 0.0)
    ensures CurvePoint(g, b, u) == g.p2
  {
  }

  lemma PassesLast(g: Window, b: Mat4, u: real)
    requires IsWeights(Apply(b, UVec(u)), 0.0, 0.0, 0.0, 1.0)
    ensures CurvePoint(g, b, u) == g.p3
  {
  }

  /** Derivative weights (-1/2, 0, 1/2, 0) give half the chord from point 0 to point 2. */
  lemma SlopeFirstChord(g: Window, b: Mat4, u: real)
    requires IsWeights(Apply(b, DUVec(u)), -0.5, 0.0, 0.5, 0.0)
    ensures Tangent(g, b, u) == Scale3(0.5, Sub3(g.p2, g.p0))
  {
  }

  /** Derivative weights (0, -1/2, 0, 1/2) give half the chord from point 1 to point 3. */
  lemma SlopeLastChord(g: Window, b: Mat4, u: real)
    requires IsWeights(Apply(b, DUVec(u)), 0.0, -0.5, 0.0, 0.5)
    ensures Tangent(g, b, u) == Scale3(0.5, Sub3(g.p3, g.p1))
  {
  }

  /** Weights (1/6, 4/6, 1/6, 0) at the start of the segment. */
  lemma StartInSixths(g: Window, b: Mat4)
    requires var w := Apply(b, UVec(0.0));
      6.0 * w.x == 1.0 && 6.0 * w.y == 4.0 && 6.0 * w.z == 1.0 && w.w == 0.0
    ensures CurvePoint(g, b, 0.0) == Scale3(1.0 / 6.0, Add3(Add3(g.p0, Scale3(4.0, g.p1)), g.p2))
  {
  }

  /** Weights (0, 1/6, 4/6, 1/6) at the end of the segment. */
  lemma EndInSixths(g: Window, b: Mat4)
    requires var w := Apply(b, UVec(1.0));
      w.x == 0.0 && 6.0 * w.y == 1.0 && 6.0 * w.z == 4.0 && 6.0 * w.w == 1.0
    ensures CurvePoint(g, b, 1.0) == Scale3(1.0 / 6.0, Add3(Add3(g.p1, Scale3(4.0, g.p2)), g.p3))
  {
  }

  /** The end weights are the start weights moved one control point on. */
  predicate ShiftedWeights(w0: Vec4, w1: Vec4) {
    w0.w == 0.0 && w1.x == 0.0 && w1.y == w0.x && w1.z == w0.y && w1.w == w0.z
  }

  /** Windows that overlap in three control points. */
  predicate Overlapping(g1: Window, g2: Window) {
    g2.p0 == g1.p1 && g2.p1 == g1.p2 && g2.p2 == g1.p3
  }

  /** With shifted weights, the end of one window's curve is the start of the
      next window's curve. */
  lemma JoinPoints(g1: Window, g2: Window, b: Mat4)
    requires Overlapping(g1, g2) && ShiftedWeights(Apply(b, UVec(0.0)), Apply(b, UVec(1.0)))
    ensures CurvePoint(g1, b, 1.0) == CurvePoint(g2, b, 0.0)
  {
  }

  /** The same for the derivative weights and the tangents. */
  lemma JoinTangents(g1: Window, g2: Window, b: Mat4)
    requires Overlapping(g1, g2) && ShiftedWeights(Apply(b, DUVec(0.0)), Apply(b, DUVec(1.0)))
    ensures Tangent(g1, b, 1.0) == Tangent(g2, b, 0.0)
  {
  }

  // ---- basis matrices ----

  /** The Bezier basis of 2_lab. */
  function Bezier(): Mat4 {
    Mat4(Vec4(1.0, -3.0, 3.0, -1.0),
         Vec4(0.0, 3.0, -6.0, 3.0),
         Vec4(0.0, 0.0, 3.0, -3.0),
         Vec4(0.0, 0.0, 0.0, 1.0))
  }

  /** The integer matrix of the labs' Catmull-Rom basis (before `*= 0.5`). */
  function CatmullRomIntegers(): Mat4 {
    Mat4(Vec4(0.0, -1.0, 2.0, -1.0),
         Vec4(2.0, 0.0, -5.0, 3.0),
         Vec4(0.0, 1.0, 4.0, -3.0),
         Vec4(0.0, 0.0, -1.0, 1.0))
  }

  /** The integer matrix of the labs' B-spline basis (before `/= 6`). */
  function BSplineIntegers(): Mat4 {
    Mat4(Vec4(1.0, -3.0, 3.0, -1.0),
         Vec4(4.0, 0.0, -6.0, 3.0),
         Vec4(1.0, 3.0, 3.0, -3.0),
         Vec4(0.0, 0.0, 0.0, 1.0))
  }

  /** The Catmull-Rom basis, its entries written out already halved. */
  function CatmullRom(): Mat4 {
    Mat4(Vec4(0.0, -0.5, 1.0, -0.5),
         Vec4(1.0, 0.0, -2.5, 1.5),
         Vec4(0.0, 0.5, 2.0, -1.5),
         Vec4(0.0, 0.0, -0.5, 0.5))
  }

  /** The uniform B-spline basis, its entries written out already divided by 6. */
  function BSpline(): Mat4 {
    Mat4(Vec4(1.0 / 6.0, -0.5, 0.5, -1.0 / 6.0),
         Vec4(4.0 / 6.0, 0.0, -1.0, 0.5),
         Vec4(1.0 / 6.0, 0.5, 0.5, -0.5),
         Vec4(0.0, 0.0, 0.0, 1.0 / 6.0))
  }

  /** The written-out entries are the labs' integer matrices scaled as the
      labs scale them. */
  lemma CatmullRomScaled()
    ensures CatmullRom() == ScaleMat(0.5, CatmullRomIntegers())
  {
  }

  lemma BSplineScaled()
    ensures ScaleMat(6.0, BSpline()) == BSplineIntegers()
  {
  }

  /** The column sums of b (the sum of its rows) are (1, 0, 0, 0). */
  predicate ColumnSumsUnit(b: Mat4) {
    b.r0.x + b.r1.x + b.r2.x + b.r3.x == 1.0 &&
    b.r0.y + b.r1.y + b.r2.y + b.r3.y == 0.0 &&
    b.r0.z + b.r1.z + b.r2.z + b.r3.z == 0.0 &&
    b.r0.w + b.r1.w + b.r2.w + b.r3.w == 0.0
  }

  lemma BezierColumnSums()
    ensures ColumnSumsUnit(Bezier())
  {
  }

  lemma CatmullRomColumnSums()
    ensures ColumnSumsUnit(CatmullRom())
  {
  }

  lemma BSplineColumnSums()
    ensures ColumnSumsUnit(BSpline())
  {
  }

  /** With unit column sums the four control-point weights sum to 1 for every u. */
  lemma WeightsSumToOne(b: Mat4, u: real)
    requires ColumnSumsUnit(b)
    ensures var w := Apply(b, UVec(u)); w.x + w.y + w.z + w.w == 1.0
  {
    var w := Apply(b, UVec(u));
    var uu := u * u;
    var uuu := u * u * u;
    assert w.x + w.y + w.z + w.w ==
      (b.r0.x + b.r1.x + b.r2.x + b.r3.x) + (b.r0.y + b.r1.y + b.r2.y + b.r3.y) * u +
      (b.r0.z + b.r1.z + b.r2.z + b.r3.z) * uu + (b.r0.w + b.r1.w + b.r2.w + b.r3.w) * uuu;
  }

  /** Every point of the window moved by t. */
  function Shifted(g: Window, t: Vec3): Window {
    Window(Add3(g.p0, t), Add3(g.p1, t), Add3(g.p2, t), Add3(g.p3, t))
  }

  /** Affine invariance: moving all control points by t moves the curve by t
      (a consequence of the unit column sums). */
  lemma TranslationInvariant(g: Window, b: Mat4, u: real, t: Vec3)
    requires ColumnSumsUnit(b)
    ensures CurvePoint(Shifted(g, t), b, u) == Add3(CurvePoint(g, b, u), t)
  {
    var w := Apply(b, UVec(u));
    WeightsSumToOne(b, u);
    LinShift(w, g.p0.x, g.p1.x, g.p2.x, g.p3.x, t.x);
    LinShift(w, g.p0.y, g.p1.y, g.p2.y, g.p3.y, t.y);
    LinShift(w, g.p0.z, g.p1.z, g.p2.z, g.p3.z, t.z);
  }

  lemma LinShift(w: Vec4, a: real, b: real, c: real, d: real, t: real)
    requires w.x + w.y + w.z + w.w == 1.0
    ensures Lin(w, a + t, b + t, c + t, d + t) == Lin(w, a, b, c, d) + t
  {
    assert (w.x + w.y + w.z + w.w) * t == w.x * t + w.y * t + w.z * t + w.w * t;
  }

  // The weights of each basis at the ends of the segment.

  lemma BezierWeightsStart()
    ensures IsWeights(Apply(Bezier(), UVec(0.0)), 1.0, 0.0, 0.0, 0.0)
  {
  }

  lemma BezierWeightsEnd()
    ensures IsWeights(Apply(Bezier(), UVec(1.0)), 0.0, 0.0, 0.0, 1.0)
  {
  }

  lemma CatmullRomWeightsStart()
    ensures IsWeights(Apply(CatmullRom(), UVec(0.0)), 0.0, 1.0, 0.0, 0.0)
  {
  }

  lemma CatmullRomWeightsEnd()
    ensures IsWeights(Apply(CatmullRom(), UVec(1.0)), 0.0, 0.0, 1.0, 0.0)
  {
  }

  lemma CatmullRomSlopeWeightsStart()
    ensures IsWeights(Apply(CatmullRom(), DUVec(0.0)), -0.5, 0.0, 0.5, 0.0)
  {
  }

  lemma CatmullRomSlopeWeightsEnd()
    ensures IsWeights(Apply(CatmullRom(), DUVec(1.0)), 0.0, -0.5, 0.0, 0.5)
  {
  }

  lemma BSplineWeightsStart()
    ensures var w := Apply(BSpline(), UVec(0.0));
      6.0 * w.x == 1.0 && 6.0 * w.y == 4.0 && 6.0 * w.z == 1.0 && w.w == 0.0
  {
  }

  lemma BSplineWeightsEnd()
    ensures var w := Apply(BSpline(), UVec(1.0));
      w.x == 0.0 && 6.0 * w.y == 1.0 && 6.0 * w.z == 4.0 && 6.0 * w.w == 1.0
  {
  }

  // ---- end points ----

  /** The Bezier segment starts at its first and ends at its last control point. */
  lemma BezierEndpoints(g: Window)
    ensures CurvePoint(g, Bezier(), 0.0) == g.p0
    ensures CurvePoint(g, Bezier(), 1.0) == g.p3
  {
    BezierStart(g);
    BezierEnd(g);
  }

  lemma BezierStart(g: Window)
    ensures CurvePoint(g, Bezier(), 0.0) == g.p0
  {
    BezierWeightsStart();
    PassesFirst(g, Bezier(), 0.0);
  }

  lemma BezierEnd(g: Window)
    ensures CurvePoint(g, Bezier(), 1.0) == g.p3
  {
    BezierWeightsEnd();
    PassesLast(g, Bezier(), 1.0);
  }

  /** The Catmull-Rom segment runs from control point 1 to control point 2,
      with tangents half the chords through its neighbours. */
  lemma CatmullRomEndpoints(g: Window)
    ensures CurvePoint(g, CatmullRom(), 0.0) == g.p1
    ensures CurvePoint(g, CatmullRom(), 1.0) == g.p2
    ensures Tangent(g, CatmullRom(), 0.0) == Scale3(0.5, Sub3(g.p2, g.p0))
    ensures Tangent(g, CatmullRom(), 1.0) == Scale3(0.5, Sub3(g.p3, g.p1))
  {
    CatmullRomStart(g);
    CatmullRomEnd(g);
    CatmullRomSlopeStart(g);
    CatmullRomSlopeEnd(g);
  }

  lemma CatmullRomStart(g: Window)
    ensures CurvePoint(g, CatmullRom(), 0.0) == g.p1
  {
    CatmullRomWeightsStart();
    PassesSecond(g, CatmullRom(), 0.0);
  }

  lemma CatmullRomEnd(g: Window)
    ensures CurvePoint(g, CatmullRom(), 1.0) == g.p2
  {
    CatmullRomWeightsEnd();
    PassesThird(g, CatmullRom(), 1.0);
  }

  lemma CatmullRomSlopeStart(g: Window)
    ensures Tangent(g, CatmullRom(), 0.0) == Scale3(0.5, Sub3(g.p2, g.p0))
  {
    CatmullRomSlopeWeightsStart();
    SlopeFirstChord(g, CatmullRom(), 0.0);
  }

  lemma CatmullRomSlopeEnd(g: Window)
    ensures Tangent(g, CatmullRom(), 1.0) == Scale3(0.5, Sub3(g.p3, g.p1))
  {
    CatmullRomSlopeWeightsEnd();
    SlopeLastChord(g, CatmullRom(), 1.0);
  }

  /** The B-spline segment starts at (G0 + 4 G1 + G2) / 6. */
  lemma BSplineStart(g: Window)
    ensures CurvePoint(g, BSpline(), 0.0) ==
      Scale3(1.0 / 6.0, Add3(Add3(g.p0, Scale3(4.0, g.p1)), g.p2))
  {
    BSplineWeightsStart();
    StartInSixths(g, BSpline());
  }

  /** The B-spline segment ends at (G1 + 4 G2 + G3) / 6. */
  lemma BSplineEnd(g: Window)
    ensures CurvePoint(g, BSpline(), 1.0) ==
      Scale3(1.0 / 6.0, Add3(Add3(g.p1, Scale3(4.0, g.p2)), g.p3))
  {
    BSplineWeightsEnd();
    EndInSixths(g, BSpline());
  }

  // ---- joining consecutive windows ----

  lemma CatmullRomShiftedPoints()
    ensures ShiftedWeights(Apply(CatmullRom(), UVec(0.0)), Apply(CatmullRom(), UVec(1.0)))
  {
    CatmullRomWeightsStart();
    CatmullRomWeightsEnd();
  }

  lemma CatmullRomShiftedSlopes()
    ensures ShiftedWeights(Apply(CatmullRom(), DUVec(0.0)), Apply(CatmullRom(), DUVec(1.0)))
  {
    CatmullRomSlopeWeightsStart();
    CatmullRomSlopeWeightsEnd();
  }

  lemma BSplineShifted()
    ensures ShiftedWeights(Apply(BSpline(), UVec(0.0)), Apply(BSpline(), UVec(1.0)))
  {
    BSplineWeightsStart();
    BSplineWeightsEnd();
    SixthsShifted(BSpline());
  }

  lemma SixthsShifted(b: Mat4)
    requires var w := Apply(b, UVec(0.0));
      6.0 * w.x == 1.0 && 6.0 * w.y == 4.0 && 6.0 * w.z == 1.0 && w.w == 0.0
    requires var w := Apply(b, UVec(1.0));
      w.x == 0.0 && 6.0 * w.y == 1.0 && 6.0 * w.z == 4.0 && 6.0 * w.w == 1.0
    ensures ShiftedWeights(Apply(b, UVec(0.0)), Apply(b, UVec(1.0)))
  {
  }

  /** Overlapping Catmull-Rom windows join with equal points. */
  lemma CatmullRomJoin(g1: Window, g2: Window)
    requires Overlapping(g1, g2)
    ensures CurvePoint(g1, CatmullRom(), 1.0) == CurvePoint(g2, CatmullRom(), 0.0)
  {
    CatmullRomShiftedPoints();
    JoinPoints(g1, g2, CatmullRom());
  }

  /** Overlapping Catmull-Rom windows join with equal tangents. */
  lemma CatmullRomSmoothJoin(g1: Window, g2: Window)
    requires Overlapping(g1, g2)
    ensures Tangent(g1, CatmullRom(), 1.0) == Tangent(g2, CatmullRom(), 0.0)
  {
    CatmullRomShiftedSlopes();
    JoinTangents(g1, g2, CatmullRom());
  }

  /** Overlapping B-spline windows join with equal points. */
  lemma BSplineJoin(g1: Window, g2: Window)
    requires Overlapping(g1, g2)
    ensures CurvePoint(g1, BSpline(), 1.0) == CurvePoint(g2, BSpline(), 0.0)
  {
    BSplineShifted();
    JoinPoints(g1, g2, BSpline());
  }

  // ---- derivatives of the curve ----

  /** G * B * v is linear in v. */
  lemma CombineApplyAdd(g: Window, b: Mat4, v: Vec4, w: Vec4)
    ensures Combine(g, Apply(b, Add4(v, w))) == Add3(Combine(g, Apply(b, v)), Combine(g, Apply(b, w)))
  {
    ApplyAdd(b, v, w);
    var x := Apply(b, v);
    var y := Apply(b, w);
    LinAdd(x, y, g.p0.x, g.p1.x, g.p2.x, g.p3.x);
    LinAdd(x, y, g.p0.y, g.p1.y, g.p2.y, g.p3.y);
    LinAdd(x, y, g.p0.z, g.p1.z, g.p2.z, g.p3.z);
  }

  lemma ApplyAdd(b: Mat4, v: Vec4, w: Vec4)
    ensures Apply(b, Add4(v, w)) == Add4(Apply(b, v), Apply(b, w))
  {
    DotAdd(b.r0, v, w);
    DotAdd(b.r1, v, w);
    DotAdd(b.r2, v, w);
    DotAdd(b.r3, v, w);
  }

  lemma CombineApplyScale(g: Window, b: Mat4, s: real, v: Vec4)
    ensures Combine(g, Apply(b, Scale4(s, v))) == Scale3(s, Combine(g, Apply(b, v)))
  {
    ApplyScale(b, s, v);
    CombineScale(g, s, Apply(b, v));
  }

  lemma ApplyScale(b: Mat4, s: real, v: Vec4)
    ensures Apply(b, Scale4(s, v)) == Scale4(s, Apply(b, v))
  {
    DotScale(b.r0, s, v);
    DotScale(b.r1, s, v);
    DotScale(b.r2, s, v);
    DotScale(b.r3, s, v);
  }

  lemma CombineScale(g: Window, s: real, x: Vec4)
    ensures Combine(g, Scale4(s, x)) == Scale3(s, Combine(g, x))
  {
    LinScale(x, s, g.p0.x, g.p1.x, g.p2.x, g.p3.x);
    LinScale(x, s, g.p0.y, g.p1.y, g.p2.y, g.p3.y);
    LinScale(x, s, g.p0.z, g.p1.z, g.p2.z, g.p3.z);
    var c := Combine(g, x);
    var d := Combine(g, Scale4(s, x));
    assert d.x == s * c.x;
    assert d.y == s * c.y;
    assert d.z == s * c.z;
  }

  lemma DotAdd(r: Vec4, v: Vec4, w: Vec4)
    ensures Dot4(r, Add4(v, w)) == Dot4(r, v) + Dot4(r, w)
  {
  }

  lemma DotScale(r: Vec4, s: real, v: Vec4)
    ensures Dot4(r, Scale4(s, v)) == s * Dot4(r, v)
  {
  }

  lemma LinAdd(v: Vec4, w: Vec4, a: real, b: real, c: real, d: real)
    ensures Lin(Add4(v, w), a, b, c, d) == Lin(v, a, b, c, d) + Lin(w, a, b, c, d)
  {
  }

  lemma LinScale(v: Vec4, s: real, a: real, b: real, c: real, d: real)
    ensures Lin(Scale4(s, v), a, b, c, d) == s * Lin(v, a, b, c, d)
  {
  }

  /** The vectors `draw_axes` computes are the curve's derivatives: the curve's
      cubic Taylor expansion around u, with Tangent and Curvature as first and
      second derivative, is exact. */
  lemma CurveTaylor(g: Window, b: Mat4, u: real, h: real)
    ensures CurvePoint(g, b, u + h) ==
      Add3(CurvePoint(g, b, u), Add3(Scale3(h, Tangent(g, b, u)),
        Add3(Scale3(h * h / 2.0, Curvature(g, b, u)), Scale3(h * h * h / 6.0, Combine(g, Apply(b, D3UVec))))))
  {
    UVecTaylor(u, h);
    var t3 := Scale4(h * h * h / 6.0, D3UVec);
    var t2 := Scale4(h * h / 2.0, D2UVec(u));
    var t1 := Scale4(h, DUVec(u));
    CombineApplyAdd(g, b, t2, t3);
    CombineApplyAdd(g, b, t1, Add4(t2, t3));
    CombineApplyAdd(g, b, UVec(u), Add4(t1, Add4(t2, t3)));
    CombineApplyScale(g, b, h * h * h / 6.0, D3UVec);
    CombineApplyScale(g, b, h * h / 2.0, D2UVec(u));
    CombineApplyScale(g, b, h, DUVec(u));
  }

  // ---- C library helpers used to pick a segment from a time value ----

  /** Truncation toward zero, as `modf` and `fmod` use it. */
  function Trunc(x: real): (r: int)
    ensures x >= 0.0 ==> r as real <= x < r as real + 1.0
  {
    if x >= 0.0 then x.Floor else -((-x).Floor)
  }

  /** `std::fmod(x, y)`: x minus y times the truncated quotient. */
  function Fmod(x: real, y: real): real
    requires y != 0.0
  {
    x - Trunc(x / y) as real * y
  }

  /** `u = std::modf(std::fmod(x, n), &kfloat); k = floor(kfloat)`: the segment
      index k and the parameter u within it. */
  function SegmentAt(x: real, n: real): (ku: (int, real))
    requires n != 0.0
  {
    var r := Fmod(x, n);
    (Trunc(r), r - Trunc(r) as real)
  }

  /** For a non-negative time and n >= 1 segments, the chosen segment is one
      of 0 .. n-1, u lies in [0, 1), and k + u is x reduced modulo n. */
  lemma SegmentInRange(x: real, n: int)
    requires x >= 0.0 && n >= 1
    ensures var (k, u) := SegmentAt(x, n as real);
      0 <= k < n && 0.0 <= u < 1.0 &&
      Trunc(x / n as real) >= 0 &&
      k as real + u == x - Trunc(x / n as real) as real * n as real
  {
    var y := n as real;
    var m := Trunc(x / y);
    FmodBounds(x, y);
    var r := Fmod(x, y);
    var k := Trunc(r);
    assert k as real <= r < k as real + 1.0;
    assert 0 <= k < n;
  }

  /** For x >= 0 and y > 0, fmod(x, y) lies in [0, y) and its quotient is >= 0. */
  lemma FmodBounds(x: real, y: real)
    requires x >= 0.0 && y > 0.0
    ensures Trunc(x / y) >= 0
    ensures 0.0 <= Fmod(x, y) < y
  {
    var q := x / y;
    var m := Trunc(q);
    assert m as real <= q < m as real + 1.0;
    RemainderBounds(x, y, q, m as real);
  }

  lemma RemainderBounds(x: real, y: real, q: real, m: real)
    requires y > 0.0 && x == q * y && m <= q < m + 1.0
    ensures 0.0 <= x - m * y < y
  {
    var d := q - m;
    assert x - m * y == d * y;
    assert (1.0 - d) * y > 0.0;
    assert d * y >= 0.0;
  }
}
