// The table builder of keyframe_asgn/src/util.cpp: the same five-samples-per-
// segment Gauss-Legendre table as the arc-length lab, written into the
// caller's vector, with the length stored at the first sample of the last
// segment as the return value.

module KeyframeUtil {
  import opened LinAlg
  import opened Splines
  import opened ArcLength

  /** `buildTable(usTable, cps, Bcr)`: the vector behind `usTable` is cleared
      and refilled, so its new contents depend only on cps and the basis; the
      return value reads entry (ncps - 4) * 5, which exists only for ncps >= 4. */
  method BuildTable(m: Maths, cps: seq<Vec3>, bcr: Mat4) returns (usTable: seq<Entry>, last: real)
    requires |cps| >= 4
    ensures usTable == Table(m, cps, bcr)
    ensures MaxSamples * (|cps| - 4) < |usTable|
    ensures last == usTable[MaxSamples * (|cps| - 4)].1
  {
    usTable := ComputeTable(m, cps, bcr);
    last := usTable[(|cps| - 4) * MaxSamples].1;
  }

  /** The quadrature estimate of the length of segment k: its five
      sub-lengths, entries 5k .. 5k + 4 of the sub-length sequence (the
      quadrature estimates on window k, by `ArcLength.PushStep`). */
  function SegmentLength(m: Maths, cps: seq<Vec3>, b: Mat4, k: nat): real
    requires k + 4 <= |cps|
  {
    FiveFrom(SubLengths(m, cps, b), MaxSamples * k)
  }

  /** The sum of the five terms from index i on. */
  function FiveFrom(ls: seq<real>, i: nat): real
    requires i + 5 <= |ls|
  {
    ls[i] + ls[i + 1] + ls[i + 2] + ls[i + 3] + ls[i + 4]
  }

  /** The returned length is that of the curve before its last segment k =
      ncps - 4: the whole estimated length exceeds it by exactly the last
      segment's length. */
  lemma ReturnedLengthSkipsLastSegment(m: Maths, cps: seq<Vec3>, b: Mat4, k: nat)
    requires k + 4 == |cps|
    ensures Table(m, cps, b)[MaxSamples * k].1 + SegmentLength(m, cps, b, k) == CurveLength(m, cps, b)
  {
    var ls := SubLengths(m, cps, b);
    TableLengthAt(m, cps, b, MaxSamples * k);
    PrefixSumLastFive(ls, MaxSamples * k);
  }

  /** Entry n of the table stores the sum of the first n sub-lengths. */
  lemma TableLengthAt(m: Maths, cps: seq<Vec3>, b: Mat4, n: nat)
    requires n < TableSize(|cps|)
    ensures Table(m, cps, b)[n].1 == PrefixSum(SubLengths(m, cps, b), n)
  {
  }

  /** A prefix sum is the sum before the last five terms plus those five. */
  lemma PrefixSumLastFive(ls: seq<real>, base: nat)
    requires base + 5 == |ls|
    ensures PrefixSum(ls, |ls|) == PrefixSum(ls, base) + FiveFrom(ls, base)
  {
    assert PrefixSum(ls, base + 5) == PrefixSum(ls, base + 4) + ls[base + 4];
    assert PrefixSum(ls, base + 4) == PrefixSum(ls, base + 3) + ls[base + 3];
    assert PrefixSum(ls, base + 3) == PrefixSum(ls, base + 2) + ls[base + 2];
    assert PrefixSum(ls, base + 2) == PrefixSum(ls, base + 1) + ls[base + 1];
  }
}
