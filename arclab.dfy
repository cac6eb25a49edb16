// The arc-length lab of 4_lab/src/main.cpp: a Catmull-Rom or B-spline curve
// through the control points, a parameter-to-length table rebuilt after every
// change of the spline type or the control points, the inverse lookup `s2u`,
// and the render step that places points at equal arc-length steps.

module ArcLengthLab {
  import opened LinAlg
  import opened Splines
  import opened ArcLength

  /** The `SplineType` enumeration of this lab, in declaration order. */
  datatype SplineType = CatmullRomCurve | BasisCurve

  /** `SPLINE_TYPE_COUNT`. */
  const SplineTypeCount := 2

  function Ordinal(t: SplineType): (n: nat)
    ensures n < SplineTypeCount
  {
    if t == CatmullRomCurve then 0 else 1
  }

  /** `type = (SplineType)((type + 1) % SPLINE_TYPE_COUNT)`. */
  function Next(t: SplineType): (r: SplineType)
    ensures Ordinal(r) == (Ordinal(t) + 1) % SplineTypeCount
  {
    if t == CatmullRomCurve then BasisCurve else CatmullRomCurve
  }

  /** Key S alternates between the two types. */
  lemma NextAlternates(t: SplineType)
    ensures Next(t) != t && Next(Next(t)) == t
  {
  }

  /** `B = (type == CATMULL_ROM ? Bcr : Bb)`. */
  function BasisOf(t: SplineType): (b: Mat4)
    ensures t == CatmullRomCurve ==> b == CatmullRom()
    ensures t == BasisCurve ==> b == BSpline()
  {
    if t == CatmullRomCurve then CatmullRom() else BSpline()
  }

  // ---- key R ----

  /** The number of control points key R creates. */
  const RoseCount := 8

  /** `alpha = i / (n - 1.0f)`. */
  function RoseAlpha(i: int): real {
    i as real / (RoseCount as real - 1.0)
  }

  /** `angle = 2 * M_PI * alpha`. */
  function RoseAngle(i: int): real {
    2.0 * Pi * RoseAlpha(i)
  }

  /** Control point i of key R: on the rose r = cos(2 angle), at a depth that
      runs linearly from -0.5 to 0.5. */
  function RosePoint(cos: real -> real, sin: real -> real, i: int): Vec3 {
    var alpha := RoseAlpha(i);
    var angle := RoseAngle(i);
    var radius := cos(2.0 * angle);
    Vec3(radius * cos(angle), radius * sin(angle), (1.0 - alpha) * -0.5 + alpha * 0.5)
  }

  /** The eight points key R creates. */
  function RosePoints(cos: real -> real, sin: real -> real): (ps: seq<Vec3>)
    ensures |ps| == RoseCount
  {
    seq(RoseCount, i requires 0 <= i < RoseCount => RosePoint(cos, sin, i))
  }

  /** The depths rise strictly from -0.5 at the first point to 0.5 at the last. */
  lemma RoseDepthRises(cos: real -> real, sin: real -> real, i: int, j: int)
    requires 0 <= i < j < RoseCount
    ensures RosePoints(cos, sin)[0].z == -0.5 && RosePoints(cos, sin)[RoseCount - 1].z == 0.5
    ensures RosePoints(cos, sin)[i].z < RosePoints(cos, sin)[j].z
  {
    var ps := RosePoints(cos, sin);
    assert ps[0] == RosePoint(cos, sin, 0);
    assert ps[RoseCount - 1] == RosePoint(cos, sin, RoseCount - 1);
    assert ps[i].z == -0.5 + RoseAlpha(i);
    assert ps[j].z == -0.5 + RoseAlpha(j);
  }

  /** Where cos and sin satisfy the Pythagorean identity at the point's angle,
      the point lies at distance |cos(2 angle)| from the depth axis. */
  lemma RoseOnCurve(cos: real -> real, sin: real -> real, i: int)
    requires var a := RoseAngle(i); cos(a) * cos(a) + sin(a) * sin(a) == 1.0
    ensures var p := RosePoint(cos, sin, i); var r := cos(2.0 * RoseAngle(i));
      p.x * p.x + p.y * p.y == r * r
  {
    var a := RoseAngle(i);
    var r := cos(2.0 * a);
    var c, s := cos(a), sin(a);
    assert (r * c) * (r * c) + (r * s) * (r * s) == r * r * (c * c + s * s);
  }

  // ---- render: the spline segments ----

  /** `n = 32`: points per drawn segment. */
  const SegmentSteps := 32

  /** The parameter of point i: `u = i / (n - 1.0f)`. */
  function SegmentU(i: int): real {
    i as real / (SegmentSteps as real - 1.0)
  }

  /** Unlike the spline lab's strips, each segment is drawn from u = 0 up to
      and including u = 1, with strictly increasing parameters. */
  lemma SegmentSamplesSpanWindow(i: int, j: int)
    requires 0 <= i < j < SegmentSteps
    ensures SegmentU(0) == 0.0 && SegmentU(SegmentSteps - 1) == 1.0
    ensures 0.0 <= SegmentU(i) < SegmentU(j) <= 1.0
  {
  }

  /** The line strip of one segment: the curve of window Gk at the 32
      parameters. */
  method SegmentStrip(g: Window, b: Mat4) returns (strip: seq<Vec3>)
    ensures |strip| == SegmentSteps
    ensures forall i :: 0 <= i < SegmentSteps ==> strip[i] == CurvePoint(g, b, SegmentU(i))
  {
    strip := [];
    var n := SegmentSteps;
    var i := 0;
    while i < n
      invariant 0 <= i <= n
      invariant |strip| == i
      invariant forall j :: 0 <= j < i ==> strip[j] == CurvePoint(g, b, SegmentU(j))
    {
      var u := i as real / (n as real - 1.0);
      strip := strip + [CurvePoint(g, b, u)];
      i := i + 1;
    }
  }

  // ---- render: equally spaced points ----

  /** The arc-length step `ds`. */
  const Ds := 0.2

  /** `u = std::modf(uu, &kfloat); k = (int) std::floor(kfloat)`: the window
      index and the parameter within the window of a concatenated parameter. */
  function Modf(uu: real): (int, real) {
    (Trunc(uu), uu - Trunc(uu) as real)
  }

  /** The length of the curve up to its last table entry: `usTable.back().second`. */
  function LastLength(m: Maths, cps: seq<Vec3>, b: Mat4): real
    requires |cps| >= 4
  {
    Table(m, cps, b)[TableSize(|cps|) - 1].1
  }

  /** For 0 <= s below the last stored length, `s2u` lands inside the curve:
      the window index lies in [0, ncps - 4] and the parameter in [0, 1), so
      the window `G.block<3,4>(0,k)` is in bounds. */
  lemma SpacedPointInBounds(m: Maths, cps: seq<Vec3>, b: Mat4, s: real)
    requires Sound(m) && |cps| >= 4 && 0.0 <= s < LastLength(m, cps, b)
    ensures Table(m, cps, b)[0].1 <= s
    ensures var (k, u) := Modf(Lookup(Table(m, cps, b), s));
      0 <= k && k + 4 <= |cps| && 0.0 <= u < 1.0
  {
    var t := Table(m, cps, b);
    var n := |t|;
    TableStartsAtZero(m, cps, b);
    var i := FirstAbove(t, s, 0);
    assert i < n;
    assert 1 <= i;
    TableOrdered(m, cps, b, i - 1, i);
    LookupInRange(t, s);
    EntryUFifths(i - 1);
    EntryUFifths(i);
    var uu := Lookup(t, s);
    assert t[i - 1].0 == EntryU(i - 1) && t[i].0 == EntryU(i);
    assert 0.0 <= uu < i as real / MaxSamples as real;
    assert i as real / MaxSamples as real <= (|cps| - 3) as real;
  }

  /** The arc length of equally spaced point i: i steps of `ds` from 0. */
  function SpacedLength(i: int): real {
    Ds * i as real
  }

  /** While step i is below smax, i is at most smax / ds. */
  lemma StepsBounded(smax: real, i: nat)
    requires SpacedLength(i) < smax
    ensures i <= (smax / Ds).Floor
    ensures SpacedLength(i + 1) == SpacedLength(i) + Ds
  {
    assert i as real < smax / Ds;
  }

  /** The point drawn for arc length s. */
  function SpacedPoint(m: Maths, cps: seq<Vec3>, b: Mat4, s: real): Vec3
    requires Sound(m) && |cps| >= 4 && 0.0 <= s < LastLength(m, cps, b)
  {
    SpacedPointInBounds(m, cps, b, s);
    var (k, u) := Modf(Lookup(Table(m, cps, b), s));
    CurvePoint(WindowAt(cps, k), b, u)
  }

  /** Point i of pts is the curve at arc length i * ds, below the last
      stored length. */
  ghost predicate SpacedPrefix(m: Maths, cps: seq<Vec3>, b: Mat4, pts: seq<Vec3>) {
    Sound(m) && |cps| >= 4 &&
    forall i :: 0 <= i < |pts| ==>
      0.0 <= SpacedLength(i) < LastLength(m, cps, b) && pts[i] == SpacedPoint(m, cps, b, SpacedLength(i))
  }

  lemma SpacedStep(m: Maths, cps: seq<Vec3>, b: Mat4, pts: seq<Vec3>, p: Vec3)
    requires SpacedPrefix(m, cps, b, pts)
    requires 0.0 <= SpacedLength(|pts|) < LastLength(m, cps, b)
    requires p == SpacedPoint(m, cps, b, SpacedLength(|pts|))
    ensures SpacedPrefix(m, cps, b, pts + [p])
  {
    var q := pts + [p];
    forall i | 0 <= i < |q|
      ensures 0.0 <= SpacedLength(i) < LastLength(m, cps, b) && q[i] == SpacedPoint(m, cps, b, SpacedLength(i))
    {
      if i < |pts| {
        assert q[i] == pts[i];
      }
    }
  }

  // ---- the lab's state ----

  class ArcLab {
    /** The square root behind `norm()`. */
    const maths: Maths
    var splineType: SplineType
    var cps: seq<Vec3>
    var usTable: seq<Entry>

    /** The table matches the control points and the spline type. */
    predicate Valid()
      reads this
    {
      usTable == Table(maths, cps, BasisOf(splineType))
    }

    /** The globals' initial values: `type = CATMULL_ROM`, no control points,
        an empty table. */
    constructor (m: Maths)
      ensures maths == m && splineType == CatmullRomCurve && cps == [] && usTable == []
      ensures Valid()
    {
      maths := m;
      splineType := CatmullRomCurve;
      cps := [];
      usTable := [];
    }

    /** `buildTable`: clear the table and refill it from the current state. */
    method BuildTable()
      modifies this
      ensures usTable == Table(maths, cps, BasisOf(splineType))
      ensures splineType == old(splineType) && cps == old(cps)
    {
      usTable := ComputeTable(maths, cps, BasisOf(splineType));
    }

    /** Key S: the other spline type, and a rebuilt table. */
    method KeyS()
      modifies this
      ensures splineType == Next(old(splineType)) && cps == old(cps) && Valid()
    {
      splineType := Next(splineType);
      BuildTable();
    }

    /** Key C: no control points, and the (empty) table rebuilt. */
    method KeyC()
      modifies this
      ensures cps == [] && splineType == old(splineType) && usTable == []
    {
      cps := [];
      BuildTable();
    }

    /** Key R: the eight rose points, and a rebuilt table. */
    method KeyR(cos: real -> real, sin: real -> real)
      modifies this
      ensures cps == RosePoints(cos, sin) && splineType == old(splineType) && Valid()
    {
      cps := [];
      var n := RoseCount;
      var i := 0;
      while i < n
        invariant 0 <= i <= n
        invariant cps == RosePoints(cos, sin)[..i]
        invariant splineType == old(splineType)
      {
        var alpha := i as real / (n as real - 1.0);
        var angle := 2.0 * Pi * alpha;
        var radius := cos(2.0 * angle);
        var cp := Vec3(radius * cos(angle), radius * sin(angle), (1.0 - alpha) * -0.5 + alpha * 0.5);
        assert RosePoints(cos, sin)[i] == cp;
        assert RosePoints(cos, sin)[..i + 1] == RosePoints(cos, sin)[..i] + [cp];
        cps := cps + [cp];
        i := i + 1;
      }
      assert RosePoints(cos, sin)[..n] == RosePoints(cos, sin);
      BuildTable();
    }

    /** A shift-click: append the clicked world point and rebuild the table. */
    method AddControlPoint(p: Vec3)
      modifies this
      ensures cps == old(cps) + [p] && splineType == old(splineType) && Valid()
    {
      cps := cps + [p];
      BuildTable();
    }

    /** `s2u`: scan for the first entry longer than s and interpolate. */
    method S2u(s: real) returns (u: real)
      requires usTable == [] || usTable[0].1 <= s
      ensures u == Lookup(usTable, s)
    {
      var i := 0;
      while i < |usTable|
        invariant 0 <= i <= |usTable|
        invariant FirstAbove(usTable, s, 0) == FirstAbove(usTable, s, i)
      {
        if s < usTable[i].1 {
          assert i != 0;
          var s0 := usTable[i - 1].1;
          var s1 := usTable[i].1;
          var u0 := usTable[i - 1].0;
          var u1 := usTable[i].0;
          var alpha := (s - s0) / (s1 - s0);
          return (1.0 - alpha) * u0 + alpha * u1;
        }
        i := i + 1;
      }
      return 0.0;
    }

    /** The equally spaced points of `render` (drawn when the table is not
        empty): s runs from 0 in steps of `ds` while below the last stored
        length, and point i is the curve at s2u(i * ds). */
    method EquallySpacedPoints() returns (pts: seq<Vec3>)
      requires Sound(maths) && Valid() && usTable != []
      ensures SpacedPrefix(maths, cps, BasisOf(splineType), pts)
      ensures SpacedLength(|pts|) >= LastLength(maths, cps, BasisOf(splineType))
    {
      var b := BasisOf(splineType);
      var smax := usTable[|usTable| - 1].1;
      assert |cps| >= 4;
      assert smax == LastLength(maths, cps, b);
      pts := [];
      var s := 0.0;
      while s < smax
        invariant s == SpacedLength(|pts|)
        invariant SpacedPrefix(maths, cps, b, pts)
        decreases (smax / Ds).Floor + 1 - |pts|
      {
        StepsBounded(smax, |pts|);
        var p := PointAt(s);
        SpacedStep(maths, cps, b, pts, p);
        pts := pts + [p];
        s := s + Ds;
      }
    }

    /** The body of the equally-spaced loop: s2u, modf, and the window's point. */
    method PointAt(s: real) returns (p: Vec3)
      requires Sound(maths) && Valid() && |cps| >= 4
      requires 0.0 <= s < LastLength(maths, cps, BasisOf(splineType))
      ensures p == SpacedPoint(maths, cps, BasisOf(splineType), s)
    {
      var b := BasisOf(splineType);
      SpacedPointInBounds(maths, cps, b, s);
      var uu := S2u(s);
      var (k, u) := Modf(uu);
      p := CurvePoint(WindowAt(cps, k), b, u);
    }
  }
}
