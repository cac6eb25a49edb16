// The keyframe scene of keyframe_asgn/src/main.cpp: a Catmull-Rom basis and
// ten control points set up once by `init`, the spline drawn window by
// window, one static helicopter per window oriented along a tangent, and one
// helicopter moving along the curve with time.

module Keyframes {
  import opened LinAlg
  import opened Splines

  /** `SPREAD`: the factor every initial control point is scaled by. */
  const Spread := 1.5

  /** The six distinct control points of `init`, with the factor `SPREAD`
      already applied (`SpreadPoints` relates them to the unscaled ones). */
  const P0 := Vec3(0.0, 0.0, 0.0)
  const P1 := Vec3(1.8, 1.5, 0.0)
  const P2 := Vec3(-1.8, 1.8, -0.75)
  const P3 := Vec3(-1.8, 1.2, 0.75)
  const P4 := Vec3(1.8, 0.0, 1.05)
  const P5 := Vec3(1.5, 0.0, -1.05)

  /** Each point is `Vector3f(...) * SPREAD` of the coordinates `init` writes. */
  lemma SpreadPoints()
    ensures P0 == Scale3(Spread, Vec3(0.0, 0.0, 0.0))
    ensures P1 == Scale3(Spread, Vec3(1.2, 1.0, 0.0))
    ensures P2 == Scale3(Spread, Vec3(-1.2, 1.2, -0.5))
    ensures P3 == Scale3(Spread, Vec3(-1.2, 0.8, 0.5))
    ensures P4 == Scale3(Spread, Vec3(1.2, 0.0, 0.7))
    ensures P5 == Scale3(Spread, Vec3(1.0, 0.0, -0.7))
  {
    assert P0 == Scale3(Spread, Vec3(0.0, 0.0, 0.0));
    assert P1 == Scale3(Spread, Vec3(1.2, 1.0, 0.0));
    assert P2 == Scale3(Spread, Vec3(-1.2, 1.2, -0.5));
    assert P3 == Scale3(Spread, Vec3(-1.2, 0.8, 0.5));
    assert P4 == Scale3(Spread, Vec3(1.2, 0.0, 0.7));
  }

  /** The ten control points `init` pushes: the six, then the first four
      again "to connect everybody". */
  function InitialPoints(): (ps: seq<Vec3>)
    ensures |ps| == 10
  {
    [P0, P1, P2, P3, P4, P5, P0, P1, P2, P3]
  }

  /** The last four initial points repeat the first four. */
  lemma InitialPointsRepeat()
    ensures InitialPoints()[6..] == InitialPoints()[..4]
  {
  }

  // ---- drawSpline ----

  /** `n`: samples per drawn window. */
  const SplineSamples := 32

  /** `u = i / (n - 1.0f)`. */
  function SplineU(i: int): real {
    i as real / (SplineSamples as real - 1.0)
  }

  /** The samples run from u = 0 to u = 1, both ends included, increasing. */
  lemma SplineSamplesSpanWindow(i: int, j: int)
    requires 0 <= i < j < SplineSamples
    ensures SplineU(0) == 0.0 && SplineU(SplineSamples - 1) == 1.0
    ensures 0.0 <= SplineU(i) < SplineU(j) <= 1.0
  {
  }

  /** The line strip of one window: G_k * B * u_vec at the samples. */
  method WindowStrip(g: Window, b: Mat4) returns (strip: seq<Vec3>)
    ensures |strip| == SplineSamples
    ensures forall i :: 0 <= i < SplineSamples ==> strip[i] == CurvePoint(g, b, SplineU(i))
  {
    strip := [];
    var n := SplineSamples;
    var i := 0;
    while i < n
      invariant 0 <= i <= n
      invariant |strip| == i
      invariant forall j :: 0 <= j < i ==> strip[j] == CurvePoint(g, b, SplineU(j))
    {
      var u := i as real / (n as real - 1.0);
      strip := strip + [CurvePoint(g, b, u)];
      i := i + 1;
    }
  }

  /** `drawSpline`: one strip per window cps[k .. k + 3], k < ncps - 3; the
      returned vector is never filled. */
  method DrawSpline(cps: seq<Vec3>, bcr: Mat4) returns (result: seq<Mat4>, strips: seq<seq<Vec3>>)
    ensures result == []
    ensures |cps| < 4 ==> strips == []
    ensures |cps| >= 4 ==> |strips| == |cps| - 3
    ensures forall k :: 0 <= k < |strips| ==> (k + 4 <= |cps| &&
      |strips[k]| == SplineSamples &&
      forall i :: 0 <= i < SplineSamples ==> strips[k][i] == CurvePoint(WindowAt(cps, k), bcr, SplineU(i)))
  {
    result := [];
    strips := [];
    var ncps := |cps|;
    var k := 0;
    while k < ncps - 3
      invariant 0 <= k && (ncps >= 4 ==> k <= ncps - 3) && (ncps < 4 ==> k == 0)
      invariant |strips| == k
      invariant forall r :: 0 <= r < k ==> (r + 4 <= |cps| &&
        |strips[r]| == SplineSamples &&
        forall i :: 0 <= i < SplineSamples ==> strips[r][i] == CurvePoint(WindowAt(cps, r), bcr, SplineU(i)))
    {
      var gk := WindowAt(cps, k);
      var strip := WindowStrip(gk, bcr);
      strips := strips + [strip];
      k := k + 1;
    }
  }

  /** With the Catmull-Rom basis, consecutive strips meet: the last sample of
      window k is the first sample of window k + 1. */
  lemma StripsMeet(cps: seq<Vec3>, k: int)
    requires 0 <= k && k + 5 <= |cps|
    ensures CurvePoint(WindowAt(cps, k), CatmullRom(), SplineU(SplineSamples - 1)) ==
            CurvePoint(WindowAt(cps, k + 1), CatmullRom(), SplineU(0))
  {
    assert SplineU(SplineSamples - 1) == 1.0 && SplineU(0) == 0.0;
    CatmullRomJoin(WindowAt(cps, k), WindowAt(cps, k + 1));
  }

  // ---- render: the static helicopters ----

  /** 2^64: `cps.size()` is an unsigned 64-bit `size_t`. */
  const SizeModulus := 0x1_0000_0000_0000_0000

  /** The number of static helicopters, `cps.size() - 3` in size_t arithmetic. */
  function StaticCount(ncps: nat): int {
    (ncps - 3) % SizeModulus
  }

  /** With at least three control points there is one helicopter per window,
      and helicopter i reads cps[i .. i + 3] only. */
  lemma StaticCountInBounds(ncps: nat, i: int, cpNdx: int)
    requires 3 <= ncps < SizeModulus
    requires 0 <= i < StaticCount(ncps) && 0 <= cpNdx < 4
    ensures StaticCount(ncps) == ncps - 3
    ensures cpNdx + i < ncps
  {
  }

  /** Below three control points the subtraction wraps around and the first
      helicopter already reads cps[3], past the end. */
  lemma StaticCountWraps(ncps: nat)
    requires ncps < 3
    ensures StaticCount(ncps) == SizeModulus - 3 + ncps
    ensures StaticCount(ncps) > 0 && 3 >= ncps
  {
  }

  /** The tangent the static helicopter is turned towards, as written:
      `G * Bcr * (0, 1, 2, 3)`. */
  function StaticTangentAsWritten(g: Window, b: Mat4): Vec3 {
    Combine(g, Apply(b, Vec4(0.0, 1.0, 2.0, 3.0)))
  }

  /** (0, 1, 2, 3) is d_u_vec at u = 1, not at u = 0 as its comment says: the
      as-written tangent is the curve's slope at the end of the window. */
  lemma StaticTangentIsEndSlope(g: Window, b: Mat4)
    ensures StaticTangentAsWritten(g, b) == Tangent(g, b, 1.0)
  {
    assert DUVec(1.0) == Vec4(0.0, 1.0, 2.0, 3.0);
  }

  /** The tangent at u = 0, as the comment intends: for Catmull-Rom, half the
      chord from the window's first to its third point. */
  function StaticTangent(g: Window, b: Mat4): (r: Vec3)
    ensures b == CatmullRom() ==> r == Scale3(0.5, Sub3(g.p2, g.p0))
  {
    CatmullRomEndpoints(g);
    Tangent(g, b, 0.0)
  }

  /** The two agree exactly when the chords p3 - p1 and p2 - p0 are equal. */
  lemma StaticTangentsAgreeIff(g: Window)
    ensures StaticTangentAsWritten(g, CatmullRom()) == StaticTangent(g, CatmullRom()) <==>
            Sub3(g.p3, g.p1) == Sub3(g.p2, g.p0)
  {
    CatmullRomSlopeWeightsStart();
    CatmullRomSlopeWeightsEnd();
    EndSlopesAgreeIff(g, CatmullRom());
  }

  /** For any basis whose slope weights at the two ends are those of
      Catmull-Rom, the slope at the end equals the slope at the start exactly
      when the chords are equal. */
  lemma EndSlopesAgreeIff(g: Window, b: Mat4)
    requires IsWeights(Apply(b, DUVec(0.0)), -0.5, 0.0, 0.5, 0.0)
    requires IsWeights(Apply(b, DUVec(1.0)), 0.0, -0.5, 0.0, 0.5)
    ensures StaticTangentAsWritten(g, b) == StaticTangent(g, b) <==> Sub3(g.p3, g.p1) == Sub3(g.p2, g.p0)
  {
    SlopeFirstChord(g, b, 0.0);
    SlopeLastChord(g, b, 1.0);
    StaticTangentIsEndSlope(g, b);
    HalvesEqualIff(Sub3(g.p3, g.p1), Sub3(g.p2, g.p0));
  }

  lemma HalvesEqualIff(a: Vec3, b: Vec3)
    ensures Scale3(0.5, a) == Scale3(0.5, b) <==> a == b
  {
    if Scale3(0.5, a) == Scale3(0.5, b) {
      assert a.x == 2.0 * Scale3(0.5, a).x && b.x == 2.0 * Scale3(0.5, b).x;
      assert a.y == 2.0 * Scale3(0.5, a).y && b.y == 2.0 * Scale3(0.5, b).y;
      assert a.z == 2.0 * Scale3(0.5, a).z && b.z == 2.0 * Scale3(0.5, b).z;
    }
  }

  /** On the first window of the initial control points the two differ, so
      the first static helicopter points the wrong way. */
  lemma StaticTangentDiffersOnFirstWindow(g: Window)
    requires g == WindowAt(InitialPoints(), 0)
    ensures StaticTangentAsWritten(g, CatmullRom()) != StaticTangent(g, CatmullRom())
  {
    assert g == Window(P0, P1, P2, P3);
    StaticTangentsAgreeIff(g);
    ChordsDiffer();
  }

  lemma ChordsDiffer()
    ensures Sub3(P3, P1) != Sub3(P2, P0)
  {
    assert Sub3(P3, P1).x == -3.6;
    assert Sub3(P2, P0).x == -1.8;
  }

  /** The static helicopters: helicopter i sits at cps[i] and is turned
      towards the tangent the code computes with (0, 1, 2, 3), which is the
      slope of window i at its end (StaticTangentIsEndSlope). */
  method StaticHelicopters(cps: seq<Vec3>, bcr: Mat4) returns (poses: seq<(Vec3, Vec3)>)
    requires 3 <= |cps| < SizeModulus
    ensures |poses| == |cps| - 3
    ensures forall i :: 0 <= i < |poses| ==> (i + 4 <= |cps| &&
      poses[i] == (cps[i], StaticTangentAsWritten(WindowAt(cps, i), bcr)) &&
      poses[i].1 == Tangent(WindowAt(cps, i), bcr, 1.0))
  {
    poses := [];
    var ndx := 0;
    while ndx < StaticCount(|cps|)
      invariant 0 <= ndx <= |cps| - 3 && StaticCount(|cps|) == |cps| - 3
      invariant |poses| == ndx
      invariant forall i :: 0 <= i < ndx ==> (i + 4 <= |cps| &&
        poses[i] == (cps[i], StaticTangentAsWritten(WindowAt(cps, i), bcr)) &&
        poses[i].1 == Tangent(WindowAt(cps, i), bcr, 1.0))
    {
      var g := Window(cps[ndx], cps[ndx + 1], cps[ndx + 2], cps[ndx + 3]);
      assert g == WindowAt(cps, ndx);
      StaticTangentIsEndSlope(g, bcr);
      poses := poses + [(cps[ndx], StaticTangentAsWritten(g, bcr))];
      ndx := ndx + 1;
    }
  }

  // ---- render: the interpolated helicopter ----

  /** `u = modf(fmod(t * 0.4f, cps.size() - 4.0f), &kfloat)`, `k = floor(kfloat)`. */
  function InterpolatedSegment(time: real, ncps: int): (int, real)
    requires ncps >= 5
  {
    SegmentAt(time * 0.4, ncps as real - 4.0)
  }

  /** For t >= 0 the helicopter's window k lies in [0, ncps - 5] and u in
      [0, 1), so the reads cps[i + k], i < 4, are in bounds. */
  lemma InterpolatedInBounds(time: real, ncps: int)
    requires time >= 0.0 && ncps >= 5
    ensures var (k, u) := InterpolatedSegment(time, ncps);
      0 <= k && k + 5 <= ncps && 0.0 <= u < 1.0
  {
    SegmentInRange(time * 0.4, ncps - 4);
  }

  /** The interpolated helicopter's position G * Bcr * u_vec and the direction
      G * Bcr * d_u_vec it is turned towards. */
  function InterpolatedPose(cps: seq<Vec3>, bcr: Mat4, time: real): (Vec3, Vec3)
    requires time >= 0.0 && |cps| >= 5
  {
    InterpolatedInBounds(time, |cps|);
    var (k, u) := InterpolatedSegment(time, |cps|);
    var g := WindowAt(cps, k);
    (CurvePoint(g, bcr, u), Tangent(g, bcr, u))
  }

  /** The helicopter's direction is the derivative of its position: the cubic
      Taylor expansion of the position at u is exact. */
  lemma InterpolatedDirectionIsDerivative(g: Window, bcr: Mat4, u: real, h: real)
    ensures CurvePoint(g, bcr, u + h) ==
      Add3(CurvePoint(g, bcr, u), Add3(Scale3(h, Tangent(g, bcr, u)),
        Add3(Scale3(h * h / 2.0, Curvature(g, bcr, u)),
          Scale3(h * h * h / 6.0, Combine(g, Apply(bcr, D3UVec))))))
  {
    CurveTaylor(g, bcr, u, h);
  }

  /** The helicopter flies over windows 0 .. 5 of the initial points; since the
      last four points repeat the first four, the end of window 5 is the start
      of window 0, in position and direction, so the loop closes smoothly when
      fmod wraps around. */
  lemma LoopCloses(g5: Window, g0: Window)
    requires g5 == WindowAt(InitialPoints(), 5) && g0 == WindowAt(InitialPoints(), 0)
    ensures CurvePoint(g5, CatmullRom(), 1.0) == CurvePoint(g0, CatmullRom(), 0.0)
    ensures Tangent(g5, CatmullRom(), 1.0) == Tangent(g0, CatmullRom(), 0.0)
  {
    LastWindowOverlapsFirst(g5, g0);
    WrapJoins(g5, g0);
  }

  lemma LastWindowOverlapsFirst(g5: Window, g0: Window)
    requires g5 == WindowAt(InitialPoints(), 5) && g0 == WindowAt(InitialPoints(), 0)
    ensures Overlapping(g5, g0)
  {
    assert g5 == Window(P5, P0, P1, P2);
    assert g0 == Window(P0, P1, P2, P3);
  }

  /** Windows that overlap in three points join in position and slope. */
  lemma WrapJoins(g5: Window, g0: Window)
    requires Overlapping(g5, g0)
    ensures CurvePoint(g5, CatmullRom(), 1.0) == CurvePoint(g0, CatmullRom(), 0.0)
    ensures Tangent(g5, CatmullRom(), 1.0) == Tangent(g0, CatmullRom(), 0.0)
  {
    CatmullRomJoin(g5, g0);
    CatmullRomSmoothJoin(g5, g0);
  }

  // ---- the scene's state ----

  class Scene {
    var bcr: Mat4
    var cps: seq<Vec3>

    /** The globals before `init`: no control points. */
    constructor ()
      ensures cps == []
    {
      cps := [];
    }

    /** `init`: Bcr is half the integer Catmull-Rom matrix, and the ten
        initial control points are pushed. */
    method Init()
      modifies this
      ensures bcr == CatmullRom() && bcr == ScaleMat(0.5, CatmullRomIntegers())
      ensures cps == old(cps) + InitialPoints()
    {
      CatmullRomScaled();
      bcr := CatmullRom();
      cps := cps + [P0];
      cps := cps + [P1];
      cps := cps + [P2];
      cps := cps + [P3];
      cps := cps + [P4];
      cps := cps + [P5];
      cps := cps + [P0];
      cps := cps + [P1];
      cps := cps + [P2];
      cps := cps + [P3];
    }
  }
}
