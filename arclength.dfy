// The arc-length table shared by 4_lab/src/main.cpp and
// keyframe_asgn/src/util.cpp: every curve segment is cut into five
// sub-intervals of u, the length of each is estimated by three-point
// Gauss-Legendre quadrature of the speed |G * B * d_u_vec|, and the table
// records, for the start of every sub-interval, the concatenated parameter
// k + u and the length of the curve before it. The inverse lookup `s2u`
// interpolates linearly between two neighbouring entries.

module ArcLength {
  import opened LinAlg
  import opened Splines

  /** `MAX_SAMPLES`: sub-intervals per segment. */
  const MaxSamples := 5

  /** The outer Gauss-Legendre node on [-1, 1], as the labs write it. */
  const GaussNode := 0.77459

  /** The Gauss-Legendre weights of the outer and the middle node. */
  const OuterWeight := 5.0 / 9.0
  const MiddleWeight := 8.0 / 9.0

  /** A table entry: concatenated parameter and length so far. */
  type Entry = (real, real)

  /** The quadrature estimate of the length of sub-interval j of window g:
      half the interval width times the weighted speeds at the three nodes. */
  function SubLength(m: Maths, g: Window, b: Mat4, j: int): real {
    var ub := (j + 1) as real / MaxSamples as real;
    var ua := j as real / MaxSamples as real;
    var half := (ub - ua) / 2.0;
    var mid := (ub + ua) / 2.0;
    half * (OuterWeight * Norm3(m, Tangent(g, b, half * -GaussNode + mid)) +
            MiddleWeight * Norm3(m, Tangent(g, b, half * 0.0 + mid)) +
            OuterWeight * Norm3(m, Tangent(g, b, half * GaussNode + mid)))
  }

  /** With a square root that is never negative, no sub-length is negative. */
  lemma SubLengthNonNeg(m: Maths, g: Window, b: Mat4, j: int)
    requires Sound(m)
    ensures SubLength(m, g, b, j) >= 0.0
  {
    var ub := (j + 1) as real / MaxSamples as real;
    var ua := j as real / MaxSamples as real;
    var half := (ub - ua) / 2.0;
    var mid := (ub + ua) / 2.0;
    assert half == 0.1;
    Norm3NonNeg(m, Tangent(g, b, half * -GaussNode + mid));
    Norm3NonNeg(m, Tangent(g, b, half * 0.0 + mid));
    Norm3NonNeg(m, Tangent(g, b, half * GaussNode + mid));
  }

  /** The weights sum to 2, the width of [-1, 1]: a sub-interval traversed at
      the same speed c at all three nodes gets length c / 5, exactly. */
  lemma SubLengthConstantSpeed(m: Maths, g: Window, b: Mat4, j: int, c: real)
    requires var mid := (2 * j + 1) as real / 10.0;
      Norm3(m, Tangent(g, b, 0.1 * -GaussNode + mid)) == c &&
      Norm3(m, Tangent(g, b, 0.1 * 0.0 + mid)) == c &&
      Norm3(m, Tangent(g, b, 0.1 * GaussNode + mid)) == c
    ensures SubLength(m, g, b, j) == c / MaxSamples as real
  {
    var ub := (j + 1) as real / MaxSamples as real;
    var ua := j as real / MaxSamples as real;
    assert (ub - ua) / 2.0 == 0.1;
    assert (ub + ua) / 2.0 == (2 * j + 1) as real / 10.0;
  }

  /** The number of entries: five per segment, none below four control points. */
  function TableSize(ncps: int): (n: nat)
    ensures ncps >= 4 ==> n == MaxSamples * (ncps - 3)
    ensures ncps < 4 ==> n == 0
  {
    if ncps >= 4 then MaxSamples * (ncps - 3) else 0
  }

  /** The parameter of entry n: `ua + k` with k = n / 5 and ua = (n % 5) / 5. */
  function EntryU(n: nat): real {
    (n % MaxSamples) as real / MaxSamples as real + (n / MaxSamples) as real
  }

  /** The entry parameters are the fifths n / 5. */
  lemma EntryUFifths(n: nat)
    ensures EntryU(n) == n as real / MaxSamples as real
  {
    var k := n / MaxSamples;
    var j := n % MaxSamples;
    assert n == MaxSamples * k + j;
    assert n as real == MaxSamples as real * k as real + j as real;
  }

  /** Entry parameters increase strictly. */
  lemma EntryUIncreasing(i: nat, j: nat)
    requires i < j
    ensures EntryU(i) < EntryU(j)
  {
    EntryUFifths(i);
    EntryUFifths(j);
  }

  /** The length of sub-interval n of the whole curve (segment n / 5). */
  function SubLengthAt(m: Maths, cps: seq<Vec3>, b: Mat4, n: nat): real
    requires n < TableSize(|cps|)
  {
    SubLengthWithin(m, cps, b, n / MaxSamples, n % MaxSamples)
  }

  function SubLengthWithin(m: Maths, cps: seq<Vec3>, b: Mat4, k: nat, j: nat): real
    requires k + 4 <= |cps|
  {
    SubLength(m, WindowAt(cps, k), b, j)
  }

  /** The sub-lengths of the whole curve, in order. */
  function SubLengths(m: Maths, cps: seq<Vec3>, b: Mat4): (ls: seq<real>)
    ensures |ls| == TableSize(|cps|)
  {
    seq(TableSize(|cps|), n requires 0 <= n < TableSize(|cps|) => SubLengthAt(m, cps, b, n))
  }

  /** The sum of the first n of ls: the length of the curve before entry n. */
  function PrefixSum(ls: seq<real>, n: nat): real
    requires n <= |ls|
  {
    if n == 0 then 0.0 else PrefixSum(ls, n - 1) + ls[n - 1]
  }

  /** The table `buildTable` produces. */
  function Table(m: Maths, cps: seq<Vec3>, b: Mat4): (t: seq<Entry>)
    ensures |t| == TableSize(|cps|)
  {
    var ls := SubLengths(m, cps, b);
    seq(TableSize(|cps|), n requires 0 <= n < TableSize(|cps|) => (EntryU(n), PrefixSum(ls, n)))
  }

  /** The table starts at parameter 0 and length 0. */
  lemma TableStartsAtZero(m: Maths, cps: seq<Vec3>, b: Mat4)
    requires |cps| >= 4
    ensures Table(m, cps, b)[0] == (0.0, 0.0)
  {
  }

  /** The estimated length of the whole curve: `total_dist` after the loops. */
  function CurveLength(m: Maths, cps: seq<Vec3>, b: Mat4): real {
    PrefixSum(SubLengths(m, cps, b), TableSize(|cps|))
  }

  /** Each entry holds the length before its sub-interval, so the last entry
      falls short of the whole length by the last sub-length: the end of the
      curve has no entry. */
  lemma LastEntryBeforeEnd(m: Maths, cps: seq<Vec3>, b: Mat4)
    requires |cps| >= 4
    ensures var n := TableSize(|cps|);
      Table(m, cps, b)[n - 1].1 + SubLengths(m, cps, b)[n - 1] == CurveLength(m, cps, b)
  {
  }

  /** Sums of non-negative terms never decrease. */
  lemma {:induction false} PrefixSumMonotone(ls: seq<real>, i: nat, j: nat)
    requires forall n :: 0 <= n < |ls| ==> ls[n] >= 0.0
    requires i <= j <= |ls|
    ensures PrefixSum(ls, i) <= PrefixSum(ls, j)
    decreases j - i
  {
    if i < j {
      PrefixSumMonotone(ls, i, j - 1);
    }
  }

  /** With a square root that is never negative, every sub-length is. */
  lemma SubLengthsNonNeg(m: Maths, cps: seq<Vec3>, b: Mat4)
    requires Sound(m)
    ensures forall n :: 0 <= n < |SubLengths(m, cps, b)| ==> SubLengths(m, cps, b)[n] >= 0.0
  {
    forall n | 0 <= n < |SubLengths(m, cps, b)|
      ensures SubLengths(m, cps, b)[n] >= 0.0
    {
      SubLengthNonNeg(m, WindowAt(cps, n / MaxSamples), b, n % MaxSamples);
    }
  }

  /** The table's parameters increase strictly and its lengths never decrease. */
  lemma TableOrdered(m: Maths, cps: seq<Vec3>, b: Mat4, i: int, j: int)
    requires Sound(m) && 0 <= i < j < TableSize(|cps|)
    ensures Table(m, cps, b)[i].0 < Table(m, cps, b)[j].0
    ensures Table(m, cps, b)[i].1 <= Table(m, cps, b)[j].1
  {
    EntryUIncreasing(i, j);
    SubLengthsNonNeg(m, cps, b);
    PrefixSumMonotone(SubLengths(m, cps, b), i, j);
  }

  lemma DivMod(k: int, j: int)
    requires 0 <= k && 0 <= j < MaxSamples
    ensures (MaxSamples * k + j) / MaxSamples == k
    ensures (MaxSamples * k + j) % MaxSamples == j
  {
  }

  /** t holds the first |t| entries of the table whose sub-lengths are ls. */
  predicate TablePrefix(ls: seq<real>, t: seq<Entry>) {
    |t| <= |ls| &&
    forall n :: 0 <= n < |t| ==> t[n] == (EntryU(n), PrefixSum(ls, n))
  }

  /** The nested loops of `buildTable`: for each window k and each
      sub-interval, push (ua + k, total) and then add the sub-length. */
  method ComputeTable(m: Maths, cps: seq<Vec3>, b: Mat4) returns (table: seq<Entry>)
    ensures table == Table(m, cps, b)
  {
    ghost var ls := SubLengths(m, cps, b);
    table := [];
    var total := 0.0;
    var ncps := |cps|;
    var k := 0;
    while k < ncps - 3
      invariant 0 <= k && (ncps >= 4 ==> k <= ncps - 3)
      invariant ncps < 4 ==> k == 0
      invariant |table| == MaxSamples * k
      invariant TablePrefix(ls, table)
      invariant total == PrefixSum(ls, |table|)
    {
      table, total := SegmentEntries(m, cps, b, k, table, total);
      k := k + 1;
    }
    CompleteTable(m, cps, b, table);
  }

  /** A prefix as long as the table is the table. */
  lemma CompleteTable(m: Maths, cps: seq<Vec3>, b: Mat4, t: seq<Entry>)
    requires TablePrefix(SubLengths(m, cps, b), t) && |t| == TableSize(|cps|)
    ensures t == Table(m, cps, b)
  {
  }

  /** The inner loop of `buildTable` for window k. */
  method SegmentEntries(m: Maths, cps: seq<Vec3>, b: Mat4, k: nat, table0: seq<Entry>, total0: real)
    returns (table: seq<Entry>, total: real)
    requires k + 4 <= |cps| && |table0| == MaxSamples * k
    requires TablePrefix(SubLengths(m, cps, b), table0)
    requires total0 == PrefixSum(SubLengths(m, cps, b), |table0|)
    ensures |table| == MaxSamples * (k + 1)
    ensures TablePrefix(SubLengths(m, cps, b), table)
    ensures total == PrefixSum(SubLengths(m, cps, b), |table|)
  {
    ghost var ls := SubLengths(m, cps, b);
    table, total := table0, total0;
    var gk := WindowAt(cps, k);
    var sampleNum := 0;
    while sampleNum < MaxSamples
      invariant 0 <= sampleNum <= MaxSamples
      invariant |table| == MaxSamples * k + sampleNum
      invariant TablePrefix(ls, table)
      invariant total == PrefixSum(ls, |table|)
    {
      var ua := sampleNum as real / MaxSamples as real;
      var s := WindowSample(m, cps, b, k, gk, sampleNum, |table|);
      ghost var prev := table;
      table := table + [(ua + k as real, total)];
      assert EntryU(|prev|) == ua + k as real;
      assert table[..|prev|] == prev;
      PrefixStep(ls, prev, table, s);
      total := total + s;
      sampleNum := sampleNum + 1;
    }
  }

  /** Pushing (parameter, total) and adding the next sub-length extends the
      prefix by one entry. */
  lemma PrefixStep(ls: seq<real>, t: seq<Entry>, t': seq<Entry>, x: real)
    requires TablePrefix(ls, t) && |t| < |ls| && |t'| == |t| + 1
    requires t'[..|t|] == t && t'[|t|] == (EntryU(|t|), PrefixSum(ls, |t|)) && x == ls[|t|]
    ensures TablePrefix(ls, t')
    ensures t'[|t|].1 + x == PrefixSum(ls, |t'|)
  {
    forall n | 0 <= n < |t'|
      ensures t'[n] == (EntryU(n), PrefixSum(ls, n))
    {
      if n < |t| {
        assert t'[n] == t'[..|t|][n];
      }
    }
  }

  /** Sub-interval j of window gk = G_k is entry 5k + j of the curve. */
  method WindowSample(m: Maths, cps: seq<Vec3>, b: Mat4, k: nat, gk: Window, j: nat, ghost n: nat)
    returns (s: real)
    requires k + 4 <= |cps| && gk == WindowAt(cps, k) && j < MaxSamples && n == MaxSamples * k + j
    ensures n < |SubLengths(m, cps, b)|
    ensures s == SubLengths(m, cps, b)[n]
    ensures EntryU(n) == j as real / MaxSamples as real + k as real
  {
    s := SampleLength(m, gk, b, j);
    PushStep(m, cps, b, k, j);
  }

  /** The quadrature of one sub-interval, as `buildTable` computes it. */
  method SampleLength(m: Maths, gk: Window, b: Mat4, sampleNum: int) returns (s: real)
    ensures s == SubLength(m, gk, b, sampleNum)
  {
    var ub := (sampleNum + 1) as real / MaxSamples as real;
    var ua := sampleNum as real / MaxSamples as real;
    var half := (ub - ua) / 2.0;
    var mid := (ub + ua) / 2.0;
    var p1 := Tangent(gk, b, half * -GaussNode + mid);
    var p2 := Tangent(gk, b, half * 0.0 + mid);
    var p3 := Tangent(gk, b, half * GaussNode + mid);
    s := half * (OuterWeight * Norm3(m, p1) + MiddleWeight * Norm3(m, p2) + OuterWeight * Norm3(m, p3));
  }

  /** Entry 5k + j is (j/5 + k, length so far), and the next length adds
      sub-interval j of window k. */
  lemma PushStep(m: Maths, cps: seq<Vec3>, b: Mat4, k: nat, j: nat)
    requires k + 4 <= |cps| && j < MaxSamples
    ensures MaxSamples * k + j < TableSize(|cps|)
    ensures EntryU(MaxSamples * k + j) == j as real / MaxSamples as real + k as real
    ensures SubLengths(m, cps, b)[MaxSamples * k + j] == SubLength(m, WindowAt(cps, k), b, j)
  {
    DivMod(k, j);
  }

  // ---- s2u ----

  /** The first index from i on whose length exceeds s, or |t| if none does. */
  function FirstAbove(t: seq<Entry>, s: real, i: nat): (r: nat)
    requires i <= |t|
    ensures i <= r <= |t|
    ensures forall j :: i <= j < r ==> t[j].1 <= s
    ensures r < |t| ==> s < t[r].1
    decreases |t| - i
  {
    if i == |t| then i else if s < t[i].1 then i else FirstAbove(t, s, i + 1)
  }

  /** `s2u`: linear interpolation of the parameter between the entry before
      the first entry longer than s and that entry; 0 if there is none.
      An s below the first entry's length would read `usTable[-1]`. */
  function Lookup(t: seq<Entry>, s: real): real
    requires t == [] || t[0].1 <= s
  {
    var i := FirstAbove(t, s, 0);
    if i == |t| then 0.0
    else
      var s0 := t[i - 1].1;
      var s1 := t[i].1;
      var alpha := (s - s0) / (s1 - s0);
      (1.0 - alpha) * t[i - 1].0 + alpha * t[i].0
  }

  /** When an entry longer than s exists, the result lies between the
      parameters of the two entries around s. */
  lemma LookupInRange(t: seq<Entry>, s: real)
    requires t != [] && t[0].1 <= s
    requires FirstAbove(t, s, 0) < |t|
    ensures var i := FirstAbove(t, s, 0);
      1 <= i && t[i - 1].1 <= s < t[i].1 &&
      (t[i - 1].0 <= t[i].0 ==> t[i - 1].0 <= Lookup(t, s) <= t[i].0) &&
      (t[i - 1].0 < t[i].0 ==> Lookup(t, s) < t[i].0)
  {
    var i := FirstAbove(t, s, 0);
    var s0 := t[i - 1].1;
    var s1 := t[i].1;
    var alpha := (s - s0) / (s1 - s0);
    AlphaInUnit(s, s0, s1);
    Between(alpha, t[i - 1].0, t[i].0);
  }

  lemma AlphaInUnit(s: real, s0: real, s1: real)
    requires s0 <= s < s1
    ensures 0.0 <= (s - s0) / (s1 - s0) < 1.0
  {
    var d := s1 - s0;
    var a := (s - s0) / d;
    assert a * d == s - s0;
    if a < 0.0 {
      MulNegPos(a, d);
    }
    if a >= 1.0 {
      MulNonNeg(a - 1.0, d);
    }
  }

  lemma MulNonNeg(x: real, y: real)
    requires x >= 0.0 && y >= 0.0
    ensures x * y >= 0.0
  {
  }

  lemma MulPos(x: real, y: real)
    requires x > 0.0 && y > 0.0
    ensures x * y > 0.0
  {
  }

  lemma MulNegPos(x: real, y: real)
    requires x < 0.0 && y > 0.0
    ensures x * y < 0.0
  {
  }

  lemma Between(alpha: real, u0: real, u1: real)
    requires 0.0 <= alpha < 1.0
    ensures u0 <= u1 ==> u0 <= (1.0 - alpha) * u0 + alpha * u1 <= u1
    ensures u0 < u1 ==> (1.0 - alpha) * u0 + alpha * u1 < u1
  {
    var r := (1.0 - alpha) * u0 + alpha * u1;
    assert r == u0 + alpha * (u1 - u0);
    assert r == u1 - (1.0 - alpha) * (u1 - u0);
    if u0 <= u1 {
      MulNonNeg(alpha, u1 - u0);
      MulNonNeg(1.0 - alpha, u1 - u0);
    }
    if u0 < u1 {
      MulPos(1.0 - alpha, u1 - u0);
    }
  }

  /** Lengths strictly increasing along the table. */
  predicate StrictlyIncreasing(t: seq<Entry>) {
    forall i, j :: 0 <= i < j < |t| ==> t[i].1 < t[j].1
  }

  /** Looking up the length of any entry but the last gives back its parameter. */
  lemma LookupAtEntry(t: seq<Entry>, i: int)
    requires StrictlyIncreasing(t) && 0 <= i && i + 1 < |t|
    ensures Lookup(t, t[i].1) == t[i].0
  {
    var s := t[i].1;
    FirstAboveIs(t, s, 0, i + 1);
  }

  /** The first index above s, when every earlier entry is at most s and r is above it. */
  lemma {:induction false} FirstAboveIs(t: seq<Entry>, s: real, i: nat, r: nat)
    requires i <= r < |t| && s < t[r].1
    requires forall j :: i <= j < r ==> t[j].1 <= s
    ensures FirstAbove(t, s, i) == r
    decreases r - i
  {
    if i < r {
      FirstAboveIs(t, s, i + 1, r);
    }
  }

  /** A length at or beyond the last entry maps to parameter 0: the table has
      no entry for the end of the curve. */
  lemma LookupBeyondLast(t: seq<Entry>, s: real)
    requires t != [] && t[0].1 <= s
    requires forall j :: 0 <= j < |t| ==> t[j].1 <= s
    ensures Lookup(t, s) == 0.0
  {
    FirstAboveNone(t, s, 0);
  }

  lemma {:induction false} FirstAboveNone(t: seq<Entry>, s: real, i: nat)
    requires i <= |t|
    requires forall j :: i <= j < |t| ==> t[j].1 <= s
    ensures FirstAbove(t, s, i) == |t|
    decreases |t| - i
  {
    if i < |t| {
      FirstAboveNone(t, s, i + 1);
    }
  }
}
