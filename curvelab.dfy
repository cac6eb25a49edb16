// The spline lab of 2_lab/src/main.cpp: a spline type cycled by key S, a list
// of control points cleared by key C and refilled by key R, and the render
// step that splits the control points into four-point windows, samples each
// window's curve, and draws the derivative axes on one animated window.

module CurveLab {
  import opened LinAlg
  import opened Splines

  /** The `SplineType` enumeration, in declaration order. */
  datatype SplineType = BezierCurve | CatmullRomCurve | BasisCurve

  /** `SPLINE_TYPE_COUNT`. */
  const SplineTypeCount := 3

  /** `U_STEPS`: samples per drawn segment. */
  const USteps := 100

  /** The number of random control points key R creates. */
  const RandomCount := 10

  function Ordinal(t: SplineType): (n: nat)
    ensures n < SplineTypeCount
  {
    match t
    case BezierCurve => 0
    case CatmullRomCurve => 1
    case BasisCurve => 2
  }

  function FromOrdinal(n: nat): (t: SplineType)
    requires n < SplineTypeCount
    ensures Ordinal(t) == n
  {
    if n == 0 then BezierCurve else if n == 1 then CatmullRomCurve else BasisCurve
  }

  /** `type = (SplineType)((type + 1) % SPLINE_TYPE_COUNT)`. */
  function Next(t: SplineType): (r: SplineType)
    ensures Ordinal(r) == (Ordinal(t) + 1) % SplineTypeCount
  {
    FromOrdinal((Ordinal(t) + 1) % SplineTypeCount)
  }

  /** Key S visits every type and returns to the start after three presses. */
  lemma NextCycles(t: SplineType)
    ensures Next(t) != t && Next(Next(t)) != t
    ensures Next(Next(Next(t))) == t
  {
  }

  /** The basis matrix `render` sets up for each spline type. */
  function BasisOf(t: SplineType): Mat4 {
    match t
    case BezierCurve => Bezier()
    case CatmullRomCurve => CatmullRom()
    case BasisCurve => BSpline()
  }

  /** Every basis has column sums (1, 0, 0, 0). */
  lemma BasisColumnSums(t: SplineType)
    ensures ColumnSumsUnit(BasisOf(t))
  {
    var b := BasisOf(t);
    if t == BezierCurve {
      assert b == Bezier();
      BezierColumnSums();
    } else if t == CatmullRomCurve {
      assert b == CatmullRom();
      CatmullRomColumnSums();
    } else {
      assert b == BSpline();
      BSplineColumnSums();
    }
  }

  /** Every basis weights the four control points with weights summing to 1,
      so every drawn curve is an affine combination of its window. */
  lemma BasisWeightsSumToOne(t: SplineType, u: real)
    ensures var w := Apply(BasisOf(t), UVec(u)); w.x + w.y + w.z + w.w == 1.0
  {
    BasisColumnSums(t);
    WeightsSumToOne(BasisOf(t), u);
  }

  // ---- render ----

  /** The windows `render` draws: none below four control points, only the
      first four points for Bezier, and every window cps[r .. r+3] with
      r <= ncps - 4 otherwise. */
  function DrawnWindows(cps: seq<Vec3>, t: SplineType): (ws: seq<Window>)
    ensures |cps| < 4 ==> ws == []
    ensures |cps| >= 4 && t == BezierCurve ==> ws == [WindowAt(cps, 0)]
    ensures |cps| >= 4 && t != BezierCurve ==>
      |ws| == |cps| - 3 && forall r :: 0 <= r < |ws| ==> ws[r] == WindowAt(cps, r)
  {
    if |cps| < 4 then []
    else if t == BezierCurve then [WindowAt(cps, 0)]
    else seq(|cps| - 3, r requires 0 <= r < |cps| - 3 => WindowAt(cps, r))
  }

  /** Consecutive non-Bezier windows share three control points. */
  lemma WindowsOverlap(cps: seq<Vec3>, t: SplineType, r: int)
    requires t != BezierCurve && 0 <= r && r + 1 < |DrawnWindows(cps, t)|
    ensures Overlapping(DrawnWindows(cps, t)[r], DrawnWindows(cps, t)[r + 1])
  {
  }

  /** The Bezier curve runs from the first to the fourth control point. */
  lemma BezierCurveEnds(cps: seq<Vec3>)
    requires |cps| >= 4
    ensures DrawnWindows(cps, BezierCurve) == [WindowAt(cps, 0)]
    ensures var first, last := cps[0], cps[3];
      CurvePoint(WindowAt(cps, 0), Bezier(), 0.0) == first &&
      CurvePoint(WindowAt(cps, 0), Bezier(), 1.0) == last
  {
    var g := WindowAt(cps, 0);
    assert g.p0 == cps[0] && g.p3 == cps[3];
    BezierEndpoints(g);
  }

  /** Consecutive Catmull-Rom windows join with equal points and tangents. */
  lemma CatmullRomJoins(cps: seq<Vec3>, r: int)
    requires 0 <= r && r + 1 < |DrawnWindows(cps, CatmullRomCurve)|
    ensures var ws := DrawnWindows(cps, CatmullRomCurve);
      CurvePoint(ws[r], CatmullRom(), 1.0) == CurvePoint(ws[r + 1], CatmullRom(), 0.0) &&
      Tangent(ws[r], CatmullRom(), 1.0) == Tangent(ws[r + 1], CatmullRom(), 0.0)
  {
    var ws := DrawnWindows(cps, CatmullRomCurve);
    WindowsOverlap(cps, CatmullRomCurve, r);
    CatmullRomJoin(ws[r], ws[r + 1]);
    CatmullRomSmoothJoin(ws[r], ws[r + 1]);
  }

  /** Consecutive B-spline windows join. */
  lemma BasisJoins(cps: seq<Vec3>, r: int)
    requires 0 <= r && r + 1 < |DrawnWindows(cps, BasisCurve)|
    ensures var ws := DrawnWindows(cps, BasisCurve);
      CurvePoint(ws[r], BSpline(), 1.0) == CurvePoint(ws[r + 1], BSpline(), 0.0)
  {
    var ws := DrawnWindows(cps, BasisCurve);
    WindowsOverlap(cps, BasisCurve, r);
    BSplineJoin(ws[r], ws[r + 1]);
  }

  /** The window index k and parameter u of the animated axes:
      `u = modf(fmod(t * 0.2, ncps - 3), &kfloat)`, `k = floor(kfloat)`. */
  function AxesSegment(time: real, ncps: int): (int, real)
    requires ncps >= 4
  {
    SegmentAt(time * 0.2, ncps as real - 3.0)
  }

  /** For a non-negative time and a drawn non-Bezier curve the axes land on
      exactly one drawn window, at a parameter in [0, 1). */
  lemma AxesOnDrawnWindow(cps: seq<Vec3>, t: SplineType, time: real)
    requires t != BezierCurve && |cps| >= 4 && time >= 0.0
    ensures var (k, u) := AxesSegment(time, |cps|);
      0 <= k < |DrawnWindows(cps, t)| && 0.0 <= u < 1.0
  {
    SegmentInRange(time * 0.2, |cps| - 3);
  }

  /** The points and derivative vectors `draw_axes` starts from: the curve
      point, G * B * d_u_vec and G * B * d_2_u_vec. */
  function AxesVectors(g: Window, b: Mat4, u: real): (Vec3, Vec3, Vec3) {
    (CurvePoint(g, b, u), Tangent(g, b, u), Curvature(g, b, u))
  }

  /** The axes' vectors are the curve's first and second derivatives. */
  lemma AxesAreDerivatives(g: Window, b: Mat4, u: real, h: real)
    ensures var (p, d1, d2) := AxesVectors(g, b, u);
      CurvePoint(g, b, u + h) ==
        Add3(p, Add3(Scale3(h, d1), Add3(Scale3(h * h / 2.0, d2),
          Scale3(h * h * h / 6.0, Combine(g, Apply(b, D3UVec))))))
  {
    CurveTaylor(g, b, u, h);
  }

  // ---- draw_curve ----

  /** The parameter of sample i: `(float) u_prog / U_STEPS`. */
  function SampleU(i: int): real {
    i as real / USteps as real
  }

  /** The samples start at 0, increase strictly and stay below 1, so u = 1 is
      never drawn. */
  lemma SamplesInUnitInterval(i: int, j: int)
    requires 0 <= i < j < USteps
    ensures SampleU(0) == 0.0
    ensures 0.0 <= SampleU(i) < SampleU(j) < 1.0
  {
  }

  /** `draw_curve`: the line strip through G * B * u_vec at the samples. */
  method DrawCurve(g: Window, b: Mat4) returns (strip: seq<Vec3>)
    ensures |strip| == USteps
    ensures forall i :: 0 <= i < USteps ==> strip[i] == CurvePoint(g, b, SampleU(i))
  {
    strip := [];
    var uProg := 0;
    while uProg < USteps
      invariant 0 <= uProg <= USteps
      invariant |strip| == uProg
      invariant forall i :: 0 <= i < uProg ==> strip[i] == CurvePoint(g, b, SampleU(i))
    {
      var u := uProg as real / USteps as real;
      strip := strip + [CurvePoint(g, b, u)];
      uProg := uProg + 1;
    }
  }

  // ---- key_callback ----

  /** The ten points key R creates from a default-seeded engine whose n-th
      draw is `draw(n)`: point i takes draws 3i, 3i+1, 3i+2. */
  function RandomPoints(draw: nat -> real): (ps: seq<Vec3>)
    ensures |ps| == RandomCount
  {
    seq(RandomCount, i requires 0 <= i < RandomCount => Vec3(draw(3 * i), draw(3 * i + 1), draw(3 * i + 2)))
  }

  /** With draws in [-0.8, 0.8) every random point lies in that cube. */
  lemma RandomPointsInCube(draw: nat -> real)
    requires forall n: nat :: -0.8 <= draw(n) < 0.8
    ensures forall i :: 0 <= i < RandomCount ==>
      -0.8 <= RandomPoints(draw)[i].x < 0.8 && -0.8 <= RandomPoints(draw)[i].y < 0.8 &&
      -0.8 <= RandomPoints(draw)[i].z < 0.8
  {
    forall i | 0 <= i < RandomCount
      ensures -0.8 <= RandomPoints(draw)[i].x < 0.8 && -0.8 <= RandomPoints(draw)[i].y < 0.8 &&
              -0.8 <= RandomPoints(draw)[i].z < 0.8
    {
      assert RandomPoints(draw)[i] == Vec3(draw(3 * i), draw(3 * i + 1), draw(3 * i + 2));
    }
  }

  class SplineLab {
    var splineType: SplineType
    var cps: seq<Vec3>

    /** The globals' initial values: `type = BEZIER`, no control points. */
    constructor ()
      ensures splineType == BezierCurve && cps == []
    {
      splineType := BezierCurve;
      cps := [];
    }

    /** Key S: the next spline type. */
    method KeyS()
      modifies this
      ensures splineType == Next(old(splineType)) && cps == old(cps)
    {
      splineType := Next(splineType);
    }

    /** Key C: remove every control point. */
    method KeyC()
      modifies this
      ensures cps == [] && splineType == old(splineType)
    {
      cps := [];
    }

    /** A shift-click: append the clicked point, already taken to world
        coordinates through the camera rotation. */
    method AddControlPoint(p: Vec3)
      modifies this
      ensures cps == old(cps) + [p] && splineType == old(splineType)
    {
      cps := cps + [p];
    }

    /** Key R: replace the control points with ten random ones. The engine is
        default-constructed on each press, so `draw` is the same sequence every
        time. */
    method KeyR(draw: nat -> real)
      modifies this
      ensures cps == RandomPoints(draw) && splineType == old(splineType)
    {
      cps := [];
      var i := 0;
      while i < RandomCount
        invariant 0 <= i <= RandomCount
        invariant cps == RandomPoints(draw)[..i]
        invariant splineType == old(splineType)
      {
        var x := draw(3 * i);
        var y := draw(3 * i + 1);
        var z := draw(3 * i + 2);
        assert RandomPoints(draw)[i] == Vec3(x, y, z);
        assert RandomPoints(draw)[..i + 1] == RandomPoints(draw)[..i] + [Vec3(x, y, z)];
        cps := cps + [Vec3(x, y, z)];
        i := i + 1;
      }
      assert RandomPoints(draw)[..RandomCount] == RandomPoints(draw);
    }
  }
}
