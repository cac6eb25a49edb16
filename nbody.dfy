// The n-body lab (9_lab/src/main.cpp): softened gravity between every pair
// of particles, one semi-implicit Euler step, the galaxy file loader, the
// header the saver writes, the two-body set-up, and the depth sort of
// particle indices for transparent drawing.

module NBody {
  import opened LinAlg
  import opened Options
  import opened Streams

  /** `#define G 1.0f`. */
  const G: real := 1.0

  /** The value of one particle: what `Particle`'s getters return. */
  datatype Body = Body(mass: real, position: Vec3, velocity: Vec3, color: Vec3, radius: real)

  // ---- forces ----

  /** The divisor pow(|d| * |d| + e2, 3/2) of one pair term; |d| is the norm
      of the displacement d. */
  function Divisor(mt: Maths, e2: real, d: Vec3): real {
    var nrm := Norm3(mt, d);
    mt.pow32(nrm * nrm + e2)
  }

  lemma DivisorPositive(mt: Maths, e2: real, d: Vec3)
    requires Sound(mt) && e2 > 0.0
    ensures Divisor(mt, e2, d) > 0.0
  {
    var nrm := Norm3(mt, d);
    assert nrm * nrm >= 0.0;
  }

  /** The force particle j exerts on particle i: G mi mj / divisor * (xj - xi). */
  function PairTerm(mt: Maths, e2: real, bi: Body, bj: Body): Vec3
    requires Sound(mt) && e2 > 0.0
  {
    var diff := Sub3(bj.position, bi.position);
    DivisorPositive(mt, e2, diff);
    Scale3(G * bi.mass * bj.mass / Divisor(mt, e2, diff), diff)
  }

  /** PairTerm written out with the loop's own intermediate values. */
  lemma PairTermIs(mt: Maths, e2: real, bi: Body, bj: Body, mi: real, mj: real, diff: Vec3, divisor: real)
    requires Sound(mt) && e2 > 0.0
    requires mi == bi.mass && mj == bj.mass && diff == Sub3(bj.position, bi.position)
    requires divisor == Divisor(mt, e2, diff)
    ensures divisor > 0.0 && PairTerm(mt, e2, bi, bj) == Scale3(G * mi * mj / divisor, diff)
  {
    DivisorPositive(mt, e2, diff);
  }

  /** A table of pair terms: entry (i, j) is the force particle j exerts on
      particle i. The sums below are stated over any such table. */
  type Terms = (nat, nat) -> Vec3

  /** The pair terms of the particles bs. */
  function PairTerms(mt: Maths, e2: real, bs: seq<Body>): Terms
    requires Sound(mt) && e2 > 0.0
  {
    (i: nat, j: nat) => if i < |bs| && j < |bs| then PairTerm(mt, e2, bs[i], bs[j]) else Zero3
  }

  /** The terms (i, 0), ..., (i, n-1) without (i, i), summed in index order as
      the inner force loop does. */
  function PartialSum(tf: Terms, i: nat, n: nat): Vec3 {
    if n == 0 then Zero3
    else if n - 1 == i then PartialSum(tf, i, n - 1)
    else Add3(PartialSum(tf, i, n - 1), tf(i, n - 1))
  }

  /** The summed force on particle i. */
  function Force(mt: Maths, e2: real, bs: seq<Body>, i: nat): Vec3
    requires Sound(mt) && e2 > 0.0 && i < |bs|
  {
    PartialSum(PairTerms(mt, e2, bs), i, |bs|)
  }

  /** The forces of one step, one per particle. */
  function Forces(mt: Maths, e2: real, bs: seq<Body>): (fs: seq<Vec3>)
    requires Sound(mt) && e2 > 0.0
    ensures |fs| == |bs|
  {
    seq(|bs|, i requires 0 <= i < |bs| => Force(mt, e2, bs, i))
  }

  function SumVec(fs: seq<Vec3>): Vec3 {
    if fs == [] then Zero3 else Add3(SumVec(fs[..|fs| - 1]), fs[|fs| - 1])
  }

  /** The net force over all particles. */
  function NetForce(mt: Maths, e2: real, bs: seq<Body>): Vec3
    requires Sound(mt) && e2 > 0.0
  {
    SumVec(Forces(mt, e2, bs))
  }

  /** Rows 0..m-1 summed, each over the partners 0..n-1. */
  function RowSums(tf: Terms, m: nat, n: nat): Vec3 {
    if m == 0 then Zero3 else Add3(RowSums(tf, m - 1, n), PartialSum(tf, m - 1, n))
  }

  /** The terms (0, j), ..., (m-1, j) summed. */
  function ColumnSum(tf: Terms, m: nat, j: nat): Vec3 {
    if m == 0 then Zero3 else Add3(ColumnSum(tf, m - 1, j), tf(m - 1, j))
  }

  ghost predicate Antisymmetric(tf: Terms, n: nat) {
    forall i: nat, j: nat :: i < n && j < n ==> tf(i, j) == Neg3(tf(j, i))
  }

  /** Pair terms are antisymmetric: the divisor depends on the displacement
      only through its squared length, which is the same both ways round. */
  lemma PairTermAntisymmetric(mt: Maths, e2: real, bi: Body, bj: Body)
    requires Sound(mt) && e2 > 0.0
    ensures PairTerm(mt, e2, bi, bj) == Neg3(PairTerm(mt, e2, bj, bi))
  {
    var d := Sub3(bj.position, bi.position);
    var e := Sub3(bi.position, bj.position);
    assert e == Neg3(d);
    assert SqLen3(e) == SqLen3(d);
    var k := Divisor(mt, e2, d);
    assert Divisor(mt, e2, e) == k;
    DivisorPositive(mt, e2, d);
    var c := G * bi.mass * bj.mass / k;
    assert G * bj.mass * bi.mass / k == c;
  }

  lemma PairTermsAntisymmetric(mt: Maths, e2: real, bs: seq<Body>)
    requires Sound(mt) && e2 > 0.0
    ensures Antisymmetric(PairTerms(mt, e2, bs), |bs|)
  {
    var tf := PairTerms(mt, e2, bs);
    forall i: nat, j: nat | i < |bs| && j < |bs|
      ensures tf(i, j) == Neg3(tf(j, i))
    {
      PairTermAntisymmetric(mt, e2, bs[i], bs[j]);
    }
  }

  /** Against a partner j not among 0..m-1, the partial sum of row j is minus
      the column sum of j. */
  lemma {:induction false} PartialSumIsMinusColumn(tf: Terms, n: nat, j: nat, m: nat)
    requires Antisymmetric(tf, n) && m <= j < n
    ensures PartialSum(tf, j, m) == Neg3(ColumnSum(tf, m, j))
  {
    if m > 0 {
      PartialSumIsMinusColumn(tf, n, j, m - 1);
      var p := PartialSum(tf, j, m - 1);
      var c := ColumnSum(tf, m - 1, j);
      var t := tf(m - 1, j);
      assert tf(j, m - 1) == Neg3(t);
      assert PartialSum(tf, j, m) == Add3(p, Neg3(t));
      assert ColumnSum(tf, m, j) == Add3(c, t);
      NegAdd3(c, t);
    }
  }

  /** Adding partner n to rows 0..m-1 (none of which is n) adds the column sum of n. */
  lemma {:induction false} RowSumsExtend(tf: Terms, m: nat, n: nat)
    requires m <= n
    ensures RowSums(tf, m, n + 1) == Add3(RowSums(tf, m, n), ColumnSum(tf, m, n))
  {
    if m > 0 {
      RowSumsExtend(tf, m - 1, n);
    }
  }

  /** The terms of n mutually attracting particles cancel. */
  lemma {:induction false} RowSumsSquareZero(tf: Terms, n: nat)
    requires Antisymmetric(tf, n)
    ensures RowSums(tf, n, n) == Zero3
  {
    if n > 0 {
      var k := n - 1;
      assert Antisymmetric(tf, k);
      RowSumsSquareZero(tf, k);
      RowSumsExtend(tf, k, k);
      PartialSumIsMinusColumn(tf, n, k, k);
      assert PartialSum(tf, k, n) == PartialSum(tf, k, k);
    }
  }

  /** Summing the forces of the first k particles sums the first k rows. */
  lemma {:induction false} SumVecRows(tf: Terms, fs: seq<Vec3>, n: nat, k: nat)
    requires k <= |fs| && forall i :: 0 <= i < |fs| ==> fs[i] == PartialSum(tf, i, n)
    ensures SumVec(fs[..k]) == RowSums(tf, k, n)
  {
    if k > 0 {
      SumVecRows(tf, fs, n, k - 1);
      SumVecSnoc(fs, k);
    } else {
      assert fs[..0] == [];
    }
  }

  /** The forces of one step sum to zero over all particles. */
  lemma NetForceZero(mt: Maths, e2: real, bs: seq<Body>)
    requires Sound(mt) && e2 > 0.0
    ensures NetForce(mt, e2, bs) == Zero3
  {
    var tf := PairTerms(mt, e2, bs);
    var fs := Forces(mt, e2, bs);
    PairTermsAntisymmetric(mt, e2, bs);
    RowSumsSquareZero(tf, |bs|);
    SumVecRows(tf, fs, |bs|, |bs|);
    assert fs[..|bs|] == fs;
  }

  /** `stepParticles` never adds a particle's own term: the force on i is the
      same whatever term (i, i) would be. */
  lemma {:induction false} PartialSumSkipsSelf(tf: Terms, tg: Terms, i: nat, n: nat)
    requires forall j: nat :: j < n && j != i ==> tf(i, j) == tg(i, j)
    ensures PartialSum(tf, i, n) == PartialSum(tg, i, n)
  {
    if n > 0 {
      PartialSumSkipsSelf(tf, tg, i, n - 1);
    }
  }

  /** A particle alone feels no force. */
  lemma LoneParticleFeelsNothing(mt: Maths, e2: real, b: Body)
    requires Sound(mt) && e2 > 0.0
    ensures Force(mt, e2, [b], 0) == Zero3
  {
    var tf := PairTerms(mt, e2, [b]);
    assert PartialSum(tf, 0, 1) == PartialSum(tf, 0, 0);
  }

  // ---- one step ----

  /** Semi-implicit Euler for one particle: the velocity is updated first and
      the position moves by the NEW velocity. */
  function Advance(b: Body, f: Vec3, h: real): (r: Body)
    requires b.mass != 0.0
    ensures r.mass == b.mass && r.color == b.color && r.radius == b.radius
    ensures Scale3(b.mass, r.velocity) == Add3(Scale3(b.mass, b.velocity), Scale3(h, f))
    ensures r.position == Add3(b.position, Scale3(h, r.velocity))
  {
    var v := Add3(b.velocity, Scale3(h * 1.0 / b.mass, f));
    b.(velocity := v, position := Add3(b.position, Scale3(h, v)))
  }

  predicate MassesNonZero(bs: seq<Body>) {
    forall i :: 0 <= i < |bs| ==> bs[i].mass != 0.0
  }

  /** Every particle advanced by its own force. */
  function AdvanceAll(bs: seq<Body>, fs: seq<Vec3>, h: real): (r: seq<Body>)
    requires |fs| == |bs| && MassesNonZero(bs)
    ensures |r| == |bs|
  {
    seq(|bs|, i requires 0 <= i < |bs| => Advance(bs[i], fs[i], h))
  }

  /** One step: all forces come from the positions before the step. */
  function Step(mt: Maths, h: real, e2: real, bs: seq<Body>): (r: seq<Body>)
    requires Sound(mt) && e2 > 0.0 && MassesNonZero(bs)
    ensures |r| == |bs|
  {
    AdvanceAll(bs, Forces(mt, e2, bs), h)
  }

  /** A step changes positions and velocities only. */
  lemma StepKeepsAttributes(mt: Maths, h: real, e2: real, bs: seq<Body>, i: nat)
    requires Sound(mt) && e2 > 0.0 && MassesNonZero(bs) && i < |bs|
    ensures Step(mt, h, e2, bs)[i].mass == bs[i].mass
    ensures Step(mt, h, e2, bs)[i].color == bs[i].color
    ensures Step(mt, h, e2, bs)[i].radius == bs[i].radius
  {
  }

  function Momentum(bs: seq<Body>): Vec3 {
    if bs == [] then Zero3
    else Add3(Momentum(bs[..|bs| - 1]), Scale3(bs[|bs| - 1].mass, bs[|bs| - 1].velocity))
  }

  /** Over the first k particles, advancing adds h times the summed forces to
      the total momentum. */
  lemma {:induction false} MomentumPrefix(bs: seq<Body>, fs: seq<Vec3>, h: real, k: nat)
    requires |fs| == |bs| && MassesNonZero(bs) && k <= |bs|
    ensures Momentum(AdvanceAll(bs, fs, h)[..k]) == Add3(Momentum(bs[..k]), Scale3(h, SumVec(fs[..k])))
  {
    var s := AdvanceAll(bs, fs, h);
    if k > 0 {
      MomentumPrefix(bs, fs, h, k - 1);
      MomentumSnoc(s, k);
      MomentumSnoc(bs, k);
      SumVecSnoc(fs, k);
      var p := Momentum(bs[..k - 1]);
      var sum := SumVec(fs[..k - 1]);
      var b := bs[k - 1];
      var f := fs[k - 1];
      var m0 := Scale3(b.mass, b.velocity);
      var mv := Scale3(b.mass, s[k - 1].velocity);
      assert mv == Add3(m0, Scale3(h, f));
      assert Momentum(s[..k]) == Add3(Add3(p, Scale3(h, sum)), Add3(m0, Scale3(h, f)));
      assert Momentum(bs[..k]) == Add3(p, m0);
      assert SumVec(fs[..k]) == Add3(sum, f);
      ScaleAdd3(h, sum, f);
      Regroup3(p, Scale3(h, sum), m0, Scale3(h, f));
    } else {
      assert s[..0] == [] && bs[..0] == [] && fs[..0] == [];
    }
  }

  lemma MomentumSnoc(bs: seq<Body>, k: nat)
    requires 0 < k <= |bs|
    ensures Momentum(bs[..k]) == Add3(Momentum(bs[..k - 1]), Scale3(bs[k - 1].mass, bs[k - 1].velocity))
  {
    assert bs[..k][..k - 1] == bs[..k - 1];
  }

  lemma SumVecSnoc(fs: seq<Vec3>, k: nat)
    requires 0 < k <= |fs|
    ensures SumVec(fs[..k]) == Add3(SumVec(fs[..k - 1]), fs[k - 1])
  {
    assert fs[..k][..k - 1] == fs[..k - 1];
  }

  lemma Regroup3(p: Vec3, a: Vec3, b: Vec3, c: Vec3)
    ensures Add3(Add3(p, a), Add3(b, c)) == Add3(Add3(p, b), Add3(a, c))
  {
  }

  /** Because the forces cancel, a step conserves total momentum. */
  lemma MomentumConserved(mt: Maths, h: real, e2: real, bs: seq<Body>)
    requires Sound(mt) && e2 > 0.0 && MassesNonZero(bs)
    ensures Momentum(Step(mt, h, e2, bs)) == Momentum(bs)
  {
    var fs := Forces(mt, e2, bs);
    var s := AdvanceAll(bs, fs, h);
    MomentumPrefix(bs, fs, h, |bs|);
    NetForceZero(mt, e2, bs);
    assert s[..|bs|] == s && bs[..|bs|] == bs && fs[..|bs|] == fs;
  }

  // ---- the galaxy file ----

  /** The loader's locals, declared once outside the record loop and never
      initialised; a field keeps its value from one record to the next
      whenever a read leaves it alone. */
  datatype Locals = Locals(mass: real, radius: real, x: real, y: real, z: real, xf: real, yf: real, zf: real)

  datatype RecordResult = RecordResult(s: Stream, l: Locals, body: Body)

  datatype VecRead = VecRead(s: Stream, v: Vec3)

  /** Three reads into x, y and z, each keeping its old value if it fails. */
  function ReadVec(s: Stream, x: real, y: real, z: real): VecRead {
    var r := ReadReals(s, [x, y, z]);
    VecRead(r.0, Vec3(r.1[0], r.1[1], r.1[2]))
  }

  /** One pass of the record loop: mass, position (into x, y, z), velocity
      (into the same x, y, z), colour (into xf, yf, zf), radius. */
  function ReadRecord(s: Stream, l: Locals): RecordResult {
    var m := ReadReal(s, l.mass);
    var p := ReadVec(m.0, l.x, l.y, l.z);
    var v := ReadVec(p.s, p.v.x, p.v.y, p.v.z);
    var c := ReadVec(v.s, l.xf, l.yf, l.zf);
    var r := ReadReal(c.s, l.radius);
    RecordResult(r.0, Locals(m.1, r.1, v.v.x, v.v.y, v.v.z, c.v.x, c.v.y, c.v.z),
                 Body(m.1, p.v, v.v, c.v, r.1))
  }

  /** The particles k passes of the record loop append. */
  function Records(s: Stream, l: Locals, k: nat): (r: seq<Body>)
    ensures |r| == k
    decreases k
  {
    if k == 0 then []
    else
      var rr := ReadRecord(s, l);
      [rr.body] + Records(rr.s, rr.l, k - 1)
  }

  /** The results of k passes of the record loop. */
  function Passes(s: Stream, l: Locals, k: nat): (r: seq<RecordResult>)
    ensures |r| == k
    decreases k
  {
    if k == 0 then []
    else
      var rr := ReadRecord(s, l);
      [rr] + Passes(rr.s, rr.l, k - 1)
  }

  /** The stream and locals pass i starts from. */
  function PassStart(runs: seq<RecordResult>, s0: Stream, l0: Locals, i: nat): (Stream, Locals)
    requires i <= |runs|
  {
    if i == 0 then (s0, l0) else (runs[i - 1].s, runs[i - 1].l)
  }

  function PassBodies(runs: seq<RecordResult>): (r: seq<Body>)
    ensures |r| == |runs| && forall i :: 0 <= i < |runs| ==> r[i] == runs[i].body
  {
    seq(|runs|, i requires 0 <= i < |runs| => runs[i].body)
  }

  /** Pass i reads one record from where pass i - 1 stopped. */
  lemma {:induction false} PassesStep(s0: Stream, l0: Locals, k: nat, i: nat)
    requires i < k
    ensures var runs := Passes(s0, l0, k);
      runs[i] == ReadRecord(PassStart(runs, s0, l0, i).0, PassStart(runs, s0, l0, i).1)
    decreases i
  {
    if i > 0 {
      var rr := ReadRecord(s0, l0);
      var runs, rest := Passes(s0, l0, k), Passes(rr.s, rr.l, k - 1);
      PassesStep(rr.s, rr.l, k - 1, i - 1);
      assert runs == [rr] + rest;
      assert runs[i] == rest[i - 1];
      assert PassStart(runs, s0, l0, i) == PassStart(rest, rr.s, rr.l, i - 1);
    }
  }

  /** The bodies of the passes are the records appended. */
  lemma {:induction false} PassesRecords(s0: Stream, l0: Locals, k: nat)
    ensures PassBodies(Passes(s0, l0, k)) == Records(s0, l0, k)
    decreases k
  {
    if k > 0 {
      var rr := ReadRecord(s0, l0);
      PassesRecords(rr.s, rr.l, k - 1);
      assert PassBodies(Passes(s0, l0, k)) == [rr.body] + PassBodies(Passes(rr.s, rr.l, k - 1));
    }
  }

  /** What a successful `loadParticles` ends with: h, e2 and the appended particles. */
  datatype Loaded = Loaded(h: real, e2: real, added: seq<Body>)

  /** The whole loader on an opened file. `n0`, `h0`, `e20` are the values n,
      h and e2 hold before their reads (n is an uninitialised local; h and e2
      are the globals), `l` the uninitialised record locals. */
  function LoadFile(toks: seq<Token>, n0: int, h0: real, e20: real, l: Locals): Loaded {
    var hd := ReadHeader(toks, n0, h0, e20);
    Loaded(hd.h, hd.e2, Records(hd.s, l, if hd.n < 0 then 0 else hd.n))
  }

  datatype HeaderResult = HeaderResult(s: Stream, n: int, h: real, e2: real)

  /** `in >> n; in >> h; in >> e2;` on a freshly opened file. */
  function ReadHeader(toks: seq<Token>, n0: int, h0: real, e20: real): HeaderResult {
    var rn := ReadInt(Stream(toks, 0, false), n0);
    var rh := ReadReal(rn.0, h0);
    var re := ReadReal(rh.0, e20);
    HeaderResult(re.0, rn.1, rh.1, re.1)
  }

  /** The 11 tokens of one particle record, in file order. */
  function RecordTokens(b: Body): (r: seq<Token>)
    ensures |r| == 11
  {
    [RealTok(b.mass),
     RealTok(b.position.x), RealTok(b.position.y), RealTok(b.position.z),
     RealTok(b.velocity.x), RealTok(b.velocity.y), RealTok(b.velocity.z),
     RealTok(b.color.x), RealTok(b.color.y), RealTok(b.color.z),
     RealTok(b.radius)]
  }

  function RecordsTokens(bs: seq<Body>): (r: seq<Token>)
    ensures |r| == 11 * |bs|
  {
    if bs == [] then [] else RecordTokens(bs[0]) + RecordsTokens(bs[1..])
  }

  /** The header line `<n> <h> <e2>`. */
  function Header(n: nat, h: real, e2: real): seq<Token> {
    [IntTok(n), RealTok(h), RealTok(e2)]
  }

  /** A complete galaxy file: the header and then every record. */
  function GalaxyFile(h: real, e2: real, bs: seq<Body>): seq<Token> {
    Header(|bs|, h, e2) + RecordsTokens(bs)
  }

  lemma ReadRecordOfTokens(toks: seq<Token>, pos: nat, l: Locals, b: Body)
    requires pos + 11 <= |toks| && toks[pos..pos + 11] == RecordTokens(b)
    ensures ReadRecord(Stream(toks, pos, false), l).s == Stream(toks, pos + 11, false)
    ensures ReadRecord(Stream(toks, pos, false), l).body == b
  {
    RecordTokensAt(toks, pos, b);
    var s0, s1 := Stream(toks, pos, false), Stream(toks, pos + 1, false);
    var m := ReadReal(s0, l.mass);
    assert m == (s1, b.mass);
    ReadVecAt(toks, pos + 1, l.x, l.y, l.z, b.position);
    var p := ReadVec(s1, l.x, l.y, l.z);
    assert p == VecRead(Stream(toks, pos + 4, false), b.position);
    ReadVecAt(toks, pos + 4, b.position.x, b.position.y, b.position.z, b.velocity);
    var v := ReadVec(p.s, p.v.x, p.v.y, p.v.z);
    assert v == VecRead(Stream(toks, pos + 7, false), b.velocity);
    ReadVecAt(toks, pos + 7, l.xf, l.yf, l.zf, b.color);
    var c := ReadVec(v.s, l.xf, l.yf, l.zf);
    assert c == VecRead(Stream(toks, pos + 10, false), b.color);
    var r := ReadReal(c.s, l.radius);
    assert r == (Stream(toks, pos + 11, false), b.radius);
  }

  /** The tokens of a record, one by one. */
  lemma RecordTokensAt(toks: seq<Token>, pos: nat, b: Body)
    requires pos + 11 <= |toks| && toks[pos..pos + 11] == RecordTokens(b)
    ensures toks[pos] == RealTok(b.mass) && toks[pos + 10] == RealTok(b.radius)
    ensures toks[pos + 1] == RealTok(b.position.x) && toks[pos + 2] == RealTok(b.position.y) && toks[pos + 3] == RealTok(b.position.z)
    ensures toks[pos + 4] == RealTok(b.velocity.x) && toks[pos + 5] == RealTok(b.velocity.y) && toks[pos + 6] == RealTok(b.velocity.z)
    ensures toks[pos + 7] == RealTok(b.color.x) && toks[pos + 8] == RealTok(b.color.y) && toks[pos + 9] == RealTok(b.color.z)
  {
    forall k | 0 <= k < 11
      ensures toks[pos + k] == RecordTokens(b)[k]
    {
      assert toks[pos..pos + 11][k] == toks[pos + k];
    }
  }

  /** Three reads at three real tokens take the vector they hold. */
  lemma ReadVecAt(toks: seq<Token>, pos: nat, x: real, y: real, z: real, v: Vec3)
    requires pos + 3 <= |toks|
    requires toks[pos] == RealTok(v.x) && toks[pos + 1] == RealTok(v.y) && toks[pos + 2] == RealTok(v.z)
    ensures ReadVec(Stream(toks, pos, false), x, y, z) == VecRead(Stream(toks, pos + 3, false), v)
  {
    var ws := [v.x, v.y, v.z];
    assert forall i :: 0 <= i < 3 ==> toks[pos + i] == RealTok(ws[i]);
    ReadRealsAt(toks, pos, [x, y, z], ws);
  }

  /** Reading well-formed records gives back exactly those particles. */
  lemma {:induction false} RecordsOfTokens(toks: seq<Token>, pos: nat, l: Locals, bs: seq<Body>)
    requires pos + 11 * |bs| <= |toks| && toks[pos..pos + 11 * |bs|] == RecordsTokens(bs)
    ensures Records(Stream(toks, pos, false), l, |bs|) == bs
    decreases |bs|
  {
    if bs != [] {
      var all := RecordsTokens(bs);
      assert all[..11] == RecordTokens(bs[0]);
      assert all[11..] == RecordsTokens(bs[1..]);
      assert toks[pos..pos + 11] == all[..11];
      ReadRecordOfTokens(toks, pos, l, bs[0]);
      var rr := ReadRecord(Stream(toks, pos, false), l);
      assert toks[pos + 11..pos + 11 + 11 * |bs[1..]|] == all[11..];
      RecordsOfTokens(toks, pos + 11, rr.l, bs[1..]);
    }
  }

  /** A well-formed galaxy file loads back h, e2 and exactly its particles in
      file order, whatever the uninitialised locals held. */
  lemma LoadGalaxyFile(h: real, e2: real, bs: seq<Body>, n0: int, h0: real, e20: real, l: Locals)
    ensures LoadFile(GalaxyFile(h, e2, bs), n0, h0, e20, l) == Loaded(h, e2, bs)
  {
    var toks := GalaxyFile(h, e2, bs);
    assert toks[3..3 + 11 * |bs|] == RecordsTokens(bs);
    RecordsOfTokens(toks, 3, l, bs);
  }

  /** The record built when every read fails: the locals as they were. */
  function StaleBody(l: Locals): Body {
    Body(l.mass, Vec3(l.x, l.y, l.z), Vec3(l.x, l.y, l.z), Vec3(l.xf, l.yf, l.zf), l.radius)
  }

  lemma {:induction false} RecordsAtEnd(toks: seq<Token>, l: Locals, k: nat)
    ensures forall i :: 0 <= i < k ==> Records(Stream(toks, |toks|, false), l, k)[i] == StaleBody(l)
  {
    if k > 0 {
      var s := Stream(toks, |toks|, false);
      RecordStale(s, l);
      RecordsFailed(ReadRecord(s, l).s, l, k - 1);
    }
  }

  lemma {:induction false} RecordsFailed(s: Stream, l: Locals, k: nat)
    requires s.fail
    ensures forall i :: 0 <= i < k ==> Records(s, l, k)[i] == StaleBody(l)
  {
    if k > 0 {
      RecordStale(s, l);
      RecordsFailed(s, l, k - 1);
    }
  }

  /** A record read after a failure or at the end of input stores nothing and
      leaves the fail bit set. */
  lemma RecordStale(s: Stream, l: Locals)
    requires s.fail || s.pos >= |s.toks|
    ensures ReadRecord(s, l) == RecordResult(s.(fail := true), l, StaleBody(l))
  {
    var f := s.(fail := true);
    ReadRealsStale(f, [l.x, l.y, l.z]);
    ReadRealsStale(f, [l.xf, l.yf, l.zf]);
  }

  /** The saver writes only the header, so loading what it wrote takes h and
      e2 from the header, as printed, but appends n particles that all carry
      the stale locals. */
  lemma LoadSavedHeader(n: nat, h: real, e2: real, n0: int, h0: real, e20: real, l: Locals)
    ensures LoadFile(Header(n, h, e2), n0, h0, e20, l).h == h
    ensures LoadFile(Header(n, h, e2), n0, h0, e20, l).e2 == e2
    ensures |LoadFile(Header(n, h, e2), n0, h0, e20, l).added| == n
    ensures forall i :: 0 <= i < n ==> LoadFile(Header(n, h, e2), n0, h0, e20, l).added[i] == StaleBody(l)
  {
    RecordsAtEnd(Header(n, h, e2), l, n);
  }

  /** An empty file: n, h and e2 all keep their old values (the read happens
      at the end of input), and the loop runs n0 times on stale locals. */
  lemma LoadEmptyFile(n0: int, h0: real, e20: real, l: Locals)
    ensures LoadFile([], n0, h0, e20, l).h == h0 && LoadFile([], n0, h0, e20, l).e2 == e20
    ensures |LoadFile([], n0, h0, e20, l).added| == if n0 < 0 then 0 else n0
  {
  }

  // ---- the two-body set-up ----

  /** The heavy body of `createParticles`: mass 1e-3 at rest at the origin.
      The colour and radius are whatever the default `Particle()` gives; that
      constructor is not part of this model, so they are parameters. */
  function Heavy(color: Vec3, radius: real): Body {
    Body(0.001, Zero3, Zero3, color, radius)
  }

  /** The light body: mass 1e-6 at (r, 0, 0) = (1, 0, 0) moving along y with
      speed sqrt(M (2/r - 1/a)) for r = 1, a = 2; colour and radius as for
      the heavy body. */
  function Light(mt: Maths, color: Vec3, radius: real): Body {
    var r := 1.0;
    var a := 2.0;
    Body(0.000001, Vec3(r, 0.0, 0.0), Vec3(0.0, mt.sqrt(0.001 * (2.0 / r - 1.0 / a)), 0.0), color, radius)
  }

  // ---- depth sort ----

  /** Camera-space z of a particle: row 2 of the view matrix times (x, y, z, 1). */
  function CameraZ(view: Mat4, b: Body): real {
    Dot4(view.r2, Point(b.position))
  }

  /** The indices 0..n-1 in increasing order. */
  function Range(n: nat): (r: seq<nat>)
    ensures |r| == n && forall i :: 0 <= i < n ==> r[i] == i
  {
    if n == 0 then [] else Range(n - 1) + [n - 1]
  }

  predicate SortedByDepth(view: Mat4, bs: seq<Body>, idx: seq<nat>)
    requires forall i :: 0 <= i < |idx| ==> idx[i] < |bs|
  {
    forall i, j :: 0 <= i < j < |idx| ==> CameraZ(view, bs[idx[i]]) <= CameraZ(view, bs[idx[j]])
  }

  /** A particle object; `shared_ptr<Particle>` in the lab. */
  class Particle {
    var mass: real
    var position: Vec3
    var velocity: Vec3
    var color: Vec3
    var radius: real

    function Value(): Body
      reads this
    {
      Body(mass, position, velocity, color, radius)
    }

    constructor (b: Body)
      ensures Value() == b
    {
      mass, position, velocity, color, radius := b.mass, b.position, b.velocity, b.color, b.radius;
    }
  }

  /** The lab's globals `particles`, `t`, `h` and `e2`. */
  class Simulation {
    var particles: seq<Particle>
    var t: real
    var h: real
    var e2: real

    /** Every particle of the vector is its own object. */
    ghost predicate Valid()
      reads this
    {
      forall i, j :: 0 <= i < j < |particles| ==> particles[i] != particles[j]
    }

    /** The values of the particles, in vector order. */
    ghost function State(): (r: seq<Body>)
      reads this, particles
      ensures |r| == |particles|
    {
      seq(|particles|, i reads this, particles requires 0 <= i < |particles| => particles[i].Value())
    }

    /** The globals have static storage: no particles, and t, h, e2 zero. */
    constructor ()
      ensures Valid() && particles == [] && t == 0.0 && h == 0.0 && e2 == 0.0
    {
      particles := [];
      t, h, e2 := 0.0, 0.0, 0.0;
    }

    /** `stepParticles`: first every force from the current positions, then
        the velocity and position updates. t, h, e2 and the particle vector
        itself are left alone. */
    method StepParticles(mt: Maths)
      requires Valid() && Sound(mt) && e2 > 0.0 && MassesNonZero(State())
      modifies particles
      ensures Valid() && State() == Step(mt, h, e2, old(State()))
    {
      var forces := ComputeForces(mt);
      ApplyForces(forces);
    }

    /** The first loop of `stepParticles`: one force per particle, pushed in
        index order, computed while nothing is written. */
    method ComputeForces(mt: Maths) returns (forces: seq<Vec3>)
      requires Sound(mt) && e2 > 0.0
      ensures forces == Forces(mt, e2, State())
    {
      var n := |particles|;
      forces := [];
      var ndx := 0;
      while ndx < n
        invariant 0 <= ndx <= n && |forces| == ndx
        invariant forall i :: 0 <= i < ndx ==> forces[i] == Force(mt, e2, State(), i)
      {
        var f := ForceOn(mt, ndx);
        forces := forces + [f];
        ndx := ndx + 1;
      }
    }

    /** The inner loop: the force on particle ndx, skipping its own term. */
    method ForceOn(mt: Maths, ndx: nat) returns (f: Vec3)
      requires Sound(mt) && e2 > 0.0 && ndx < |particles|
      ensures f == Force(mt, e2, State(), ndx)
    {
      ghost var pre := State();
      var n := |particles|;
      f := Zero3;
      var other := 0;
      while other < n
        invariant 0 <= other <= n
        invariant f == PartialSum(PairTerms(mt, e2, pre), ndx, other)
      {
        if other == ndx {
          other := other + 1;
          continue;
        }
        assert pre[ndx] == particles[ndx].Value() && pre[other] == particles[other].Value();
        var mi := particles[ndx].mass;
        var mj := particles[other].mass;
        var diff := Sub3(particles[other].position, particles[ndx].position);
        DivisorPositive(mt, e2, diff);
        var divisor := Divisor(mt, e2, diff);
        var term := Scale3(G * mi * mj / divisor, diff);
        assert term == PairTerm(mt, e2, pre[ndx], pre[other]) by {
          PairTermIs(mt, e2, pre[ndx], pre[other], mi, mj, diff, divisor);
        }
        assert PairTerms(mt, e2, pre)(ndx, other) == PairTerm(mt, e2, pre[ndx], pre[other]);
        f := Add3(f, term);
        other := other + 1;
      }
    }

    /** The second loop of `stepParticles`: the velocity of each particle
        first, then its position from the new velocity. */
    method ApplyForces(forces: seq<Vec3>)
      requires Valid() && |forces| == |particles| && MassesNonZero(State())
      modifies particles
      ensures Valid() && State() == AdvanceAll(old(State()), forces, h)
    {
      ghost var pre := State();
      ghost var post := AdvanceAll(pre, forces, h);
      var n := |particles|;
      assert forall i :: 0 <= i < n ==> particles[i].Value() == pre[i];
      var ndx := 0;
      while ndx < n
        invariant 0 <= ndx <= n
        invariant forall i :: 0 <= i < ndx ==> particles[i].Value() == post[i]
        invariant forall i :: ndx <= i < n ==> particles[i].Value() == pre[i]
      {
        var p := particles[ndx];
        var hmInverse := h * 1.0 / p.mass;
        var newVelocity := Add3(p.velocity, Scale3(hmInverse, forces[ndx]));
        p.velocity := newVelocity;
        var newPosition := Add3(p.position, Scale3(h, newVelocity));
        p.position := newPosition;
        ndx := ndx + 1;
      }
      assert State() == post;
    }

    /** `loadParticles`. `file` is None when the file cannot be opened; then
        nothing changes. Otherwise h and e2 are read from the header and the
        records are appended after the existing particles. */
    method LoadParticles(file: Option<seq<Token>>, n0: int, l0: Locals)
      requires Valid()
      modifies this
      ensures Valid() && t == old(t)
      ensures file.None? ==> particles == old(particles) && h == old(h) && e2 == old(e2)
      ensures file.Some? ==>
        var r := LoadFile(file.value, n0, old(h), old(e2), l0);
        h == r.h && e2 == r.e2 && State() == old(State()) + r.added
    {
      if file.None? {
        return;
      }
      ghost var before := State();
      ghost var start := particles;
      var hd := ReadHeader(file.value, n0, h, e2);
      h, e2 := hd.h, hd.e2;
      AppendRecords(hd.s, l0, hd.n);
    }

    /** The record loop of `loadParticles`: n passes, each reading one record
        into the loop's locals and appending a new particle built from them. */
    method AppendRecords(s0: Stream, l0: Locals, n: int)
      requires Valid()
      modifies this`particles
      ensures Valid() && State() == old(State()) + Records(s0, l0, if n < 0 then 0 else n)
    {
      ghost var before := State();
      ghost var total := if n < 0 then 0 else n;
      ghost var runs := Passes(s0, l0, total);
      var s, l := s0, l0;
      var ndx := 0;
      while ndx < n
        invariant 0 <= ndx <= total
        invariant (s, l) == PassStart(runs, s0, l0, ndx)
        invariant Valid() && State() == before + PassBodies(runs)[..ndx]
      {
        PassesStep(s0, l0, total, ndx);
        s, l := AppendRecord(s, l, runs[ndx]);
        ndx := ndx + 1;
        assert PassBodies(runs)[..ndx] == PassBodies(runs)[..ndx - 1] + [runs[ndx - 1].body];
      }
      PassesRecords(s0, l0, total);
      assert PassBodies(runs)[..ndx] == PassBodies(runs);
    }

    /** One pass of the record loop: read a record, append its particle. */
    method AppendRecord(s: Stream, l: Locals, ghost rr: RecordResult) returns (s2: Stream, l2: Locals)
      requires Valid() && rr == ReadRecord(s, l)
      modifies this`particles
      ensures Valid() && State() == old(State()) + [rr.body] && (s2, l2) == (rr.s, rr.l)
    {
      var r := ReadRecord(s, l);
      AddParticle(r.body);
      s2, l2 := r.s, r.l;
    }

    /** `make_shared<Particle>()`, the setters, then `particles.push_back(p)`. */
    method AddParticle(b: Body)
      requires Valid()
      modifies this`particles
      ensures Valid() && State() == old(State()) + [b]
      ensures |particles| == |old(particles)| + 1 && particles[..|old(particles)|] == old(particles)
    {
      ghost var before := State();
      var p := new Particle(b);
      particles := particles + [p];
      assert State() == before + [b] by {
        forall i | 0 <= i < |particles|
          ensures State()[i] == (before + [b])[i]
        {
          if i < |before| {
            assert particles[i] == old(particles)[i];
          }
        }
      }
    }

    /** `saveParticles`: None when the file cannot be opened; otherwise the
        tokens written, which are the header line alone. `printed(x)` is the
        number the text `out << x` stands for: six significant digits by
        default, so h and e2 are written as printed(h) and printed(e2). */
    method SaveParticles(canOpen: bool, printed: real -> real) returns (file: Option<seq<Token>>)
      ensures file.None? <==> !canOpen
      ensures file.Some? ==> file.value == Header(|particles|, printed(h), printed(e2))
    {
      if !canOpen {
        return None;
      }
      file := Some([IntTok(|particles|), RealTok(printed(h)), RealTok(printed(e2))]);
    }

    /** `createParticles`: t = 0, h = 1, e2 = 1e-4, and the heavy and the
        light body appended. */
    method CreateParticles(mt: Maths, defaultColor: Vec3, defaultRadius: real)
      requires Valid()
      modifies this
      ensures Valid() && t == 0.0 && h == 1.0 && e2 == 0.0001
      ensures State() == old(State()) + [Heavy(defaultColor, defaultRadius), Light(mt, defaultColor, defaultRadius)]
    {
      ghost var before := State();
      t := 0.0;
      h := 1.0;
      e2 := 0.0001;
      AddParticle(Heavy(defaultColor, defaultRadius));
      AddParticle(Light(mt, defaultColor, defaultRadius));
    }

    /** `sortIndices(particles)` with `ParticleSorter`: a permutation of the
        particle indices ordered by camera-space z; the particles themselves
        are not reordered. */
    method SortIndices(view: Mat4) returns (idx: seq<nat>)
      ensures |idx| == |particles| && multiset(idx) == multiset(Range(|particles|))
      ensures forall i :: 0 <= i < |idx| ==> idx[i] < |particles|
      ensures SortedByDepth(view, State(), idx)
    {
      ghost var bs := State();
      var n := |particles|;
      var a := new nat[n];
      var i := 0;
      while i < n
        invariant 0 <= i <= n
        invariant forall k :: 0 <= k < i ==> a[k] == k
      {
        a[i] := i;
        i := i + 1;
      }
      assert a[..] == Range(n);
      var keys: seq<real> := [];
      i := 0;
      while i < n
        invariant 0 <= i <= n && |keys| == i
        invariant forall k :: 0 <= k < i ==> keys[k] == CameraZ(view, bs[k])
        invariant a[..] == Range(n)
      {
        assert bs[i] == particles[i].Value();
        keys := keys + [Dot4(view.r2, Point(particles[i].position))];
        i := i + 1;
      }
      SortByKeys(a, keys);
      idx := a[..];
    }
  }

  predicate InRange(s: seq<nat>, n: nat) {
    forall k :: 0 <= k < |s| ==> s[k] < n
  }

  predicate SortedByKey(s: seq<nat>, keys: seq<real>)
    requires InRange(s, |keys|)
  {
    forall i, j :: 0 <= i < j < |s| ==> keys[s[i]] <= keys[s[j]]
  }

  /** The first k entries of a are ordered by their keys. */
  ghost predicate PrefixSorted(a: seq<nat>, keys: seq<real>, k: nat)
    requires k <= |a| && InRange(a, |keys|)
  {
    forall p, q :: 0 <= p < q < k ==> keys[a[p]] <= keys[a[q]]
  }

  /** Insertion sort of the index array by the keys it points to. */
  method SortByKeys(a: array<nat>, keys: seq<real>)
    requires InRange(a[..], |keys|)
    modifies a
    ensures multiset(a[..]) == multiset(old(a[..]))
    ensures InRange(a[..], |keys|) && SortedByKey(a[..], keys)
  {
    var i := 0;
    while i < a.Length
      invariant 0 <= i <= a.Length
      invariant multiset(a[..]) == multiset(old(a[..]))
      invariant InRange(a[..], |keys|) && PrefixSorted(a[..], keys, i)
    {
      Insert(a, keys, i);
      i := i + 1;
    }
  }

  /** Moves a[i] down into the sorted prefix a[..i] by adjacent swaps. */
  method Insert(a: array<nat>, keys: seq<real>, i: nat)
    requires i < a.Length && InRange(a[..], |keys|) && PrefixSorted(a[..], keys, i)
    modifies a
    ensures multiset(a[..]) == multiset(old(a[..]))
    ensures InRange(a[..], |keys|) && PrefixSorted(a[..], keys, i + 1)
  {
    var j := i;
    while j > 0 && keys[a[j - 1]] > keys[a[j]]
      invariant 0 <= j <= i
      invariant multiset(a[..]) == multiset(old(a[..]))
      invariant InRange(a[..], |keys|)
      invariant forall p, q :: 0 <= p < q <= i && q != j ==> keys[a[p]] <= keys[a[q]]
      invariant 0 < j < i ==> keys[a[j - 1]] <= keys[a[j + 1]]
    {
      Swap(a, j - 1, j);
      j := j - 1;
    }
  }

  /** Exchanges two entries of a. */
  method Swap(a: array<nat>, p: nat, q: nat)
    requires p < q < a.Length
    modifies a
    ensures a[..] == old(a[..])[p := old(a[q])][q := old(a[p])]
    ensures multiset(a[..]) == multiset(old(a[..]))
  {
    a[p], a[q] := a[q], a[p];
  }
}
