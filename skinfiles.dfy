// The two skinning-data loaders of the skeleton assignment: load_weights
// (per-vertex bone weights) and load_animation (one rigid transform per bone
// per frame), both in skeleton_asgn/src/Grid.cpp.

module SkinFiles {
  import opened LinAlg
  import opened Options
  import opened Streams

  // ---- load_weights ----

  /** A weights file as the extraction loop sees it once the first two lines
      are discarded: its tokens and whether whitespace (such as a final
      newline) follows the last one. */
  datatype WeightsFile = WeightsFile(toks: seq<Token>, trailingSpace: bool)

  /** Read position, fail bit and eof bit of the stream. */
  datatype WState = WState(pos: nat, fail: bool, eof: bool)

  /** One extraction `in >> v` with the eof bit: reaching the end while
      skipping whitespace fails and sets eof, leaving v alone; reading the
      last token sets eof when nothing follows it; a token of the wrong kind
      stores 0 and fails. `wantInt` selects an int target. */
  function Extract(f: WeightsFile, st: WState, v: real, wantInt: bool): (WState, real) {
    if st.fail then (st, v)
    else if st.pos >= |f.toks| then (st.(fail := true, eof := true), v)
    else
      var atEnd := st.pos + 1 == |f.toks| && !f.trailingSpace;
      match f.toks[st.pos]
      case IntTok(i) => (WState(st.pos + 1, false, atEnd), i as real)
      case RealTok(r) =>
        if wantInt then (st.(fail := true), 0.0) else (WState(st.pos + 1, false, atEnd), r)
      case Junk => (st.(fail := true), 0.0)
  }

  /** The state after `in >> num_verts; in >> num_bones;`. */
  function AfterHeader(f: WeightsFile): WState {
    var a := Extract(f, WState(0, false, false), 0.0, true);
    Extract(f, a.0, 0.0, true).0
  }

  /** The files the extraction loop of load_weights terminates on: only
      numbers, the first two of them integers. (On any other token the
      fail bit is set without the eof bit and the loop never ends.) */
  ghost predicate Numeric(f: WeightsFile) {
    (forall i :: 0 <= i < |f.toks| ==> !f.toks[i].Junk?) &&
    (forall i :: 0 <= i < |f.toks| && i < 2 ==> f.toks[i].IntTok?)
  }

  function TokenValue(t: Token): real {
    match t
    case IntTok(i) => i as real
    case RealTok(r) => r
    case Junk => 0.0
  }

  /** The numbers at the front of a token sequence, up to the first token
      that is not one. */
  function NumberPrefix(toks: seq<Token>): (r: seq<real>)
    ensures |r| <= |toks|
  {
    if toks == [] || toks[0].Junk? then [] else [TokenValue(toks[0])] + NumberPrefix(toks[1..])
  }

  /** The weights a weights file holds: the numbers after the two integer
      header fields. */
  function Weights(f: WeightsFile): seq<real> {
    if |f.toks| >= 2 && f.toks[0].IntTok? && f.toks[1].IntTok? then NumberPrefix(f.toks[2..]) else []
  }

  /** What the `while(!in.eof())` loop of load_weights returns: one more value
      than the file holds (the uninitialised `weight`, here `junk`) whenever
      whitespace ends the file. */
  function WeightsAsWritten(f: WeightsFile, junk: real): seq<real>
    requires Numeric(f)
  {
    if |f.toks| < 2 then []
    else NumberPrefix(f.toks[2..]) + Tail(f, junk)
  }

  /** The extra value the loop as written ends with. */
  function Tail(f: WeightsFile, junk: real): seq<real> {
    if f.trailingSpace then [junk] else []
  }

  /** One extraction in the loop of load_weights on a numeric file: either it
      takes the next number, setting eof after the last one when nothing
      follows, or it finds the end and returns the untouched `junk`. */
  lemma ExtractWeight(f: WeightsFile, st: WState, junk: real)
    requires Numeric(f) && !st.fail && st.pos <= |f.toks| && (st.pos < |f.toks| || f.trailingSpace)
    ensures var r := Extract(f, st, junk, false);
      if st.pos < |f.toks| then
        r.0 == WState(st.pos + 1, false, st.pos + 1 == |f.toks| && !f.trailingSpace) &&
        NumberPrefix(f.toks[st.pos..]) == [r.1] + NumberPrefix(f.toks[st.pos + 1..])
      else r == (WState(st.pos, true, true), junk) && NumberPrefix(f.toks[st.pos..]) == []
  {
    if st.pos < |f.toks| {
      assert f.toks[st.pos..][1..] == f.toks[st.pos + 1..];
    }
  }

  /** The invariant of the loop of load_weights as written: before the end
      the values read and those still ahead make up the result; at the end
      they are the result. */
  ghost predicate ReadingWeights(f: WeightsFile, junk: real, st: WState, result: seq<real>)
    requires Numeric(f)
  {
    st.pos <= |f.toks| &&
    (!st.eof ==> !st.fail && 2 <= st.pos && (st.pos < |f.toks| || f.trailingSpace) &&
                 result + NumberPrefix(f.toks[st.pos..]) + Tail(f, junk) == WeightsAsWritten(f, junk)) &&
    (st.eof && |f.toks| >= 2 ==> result == WeightsAsWritten(f, junk))
  }

  /** One turn of that loop keeps its invariant and makes progress. */
  lemma ReadingWeightsStep(f: WeightsFile, junk: real, st: WState, result: seq<real>)
    requires Numeric(f) && ReadingWeights(f, junk, st, result) && !st.eof
    ensures var r := Extract(f, st, junk, false);
      ReadingWeights(f, junk, r.0, result + [r.1]) &&
      (r.0.pos > st.pos || (r.0.pos == st.pos && r.0.eof))
  {
    ExtractWeight(f, st, junk);
    var r := Extract(f, st, junk, false);
    if st.pos < |f.toks| {
      assert result + [r.1] + NumberPrefix(f.toks[r.0.pos..]) == result + ([r.1] + NumberPrefix(f.toks[st.pos + 1..]));
    }
  }

  /** The loop of load_weights as written. `junk` is the value an
      uninitialised float holds. */
  method LoadWeightsAsWritten(file: Option<WeightsFile>, junk: real) returns (result: seq<real>)
    requires file.Some? ==> Numeric(file.value)
    ensures file.None? ==> result == []
    ensures file.Some? ==> result == WeightsAsWritten(file.value, junk)
  {
    if file.None? {
      return [];
    }
    var f := file.value;
    var st := AfterHeader(f);
    assert |f.toks| < 2 ==> st.eof;
    assert |f.toks| >= 2 ==> st == WState(2, false, |f.toks| == 2 && !f.trailingSpace);
    result := [];
    while !st.eof
      invariant ReadingWeights(f, junk, st, result)
      invariant |f.toks| < 2 ==> result == []
      decreases |f.toks| - st.pos, !st.eof
    {
      var weight := junk;
      ReadingWeightsStep(f, junk, st, result);
      var next := Extract(f, st, weight, false);
      st, weight := next.0, next.1;
      result := result + [weight];
    }
  }

  /** The loop written as `while(in >> weight) result.push_back(weight);`. */
  method LoadWeights(file: Option<WeightsFile>) returns (result: seq<real>)
    ensures file.None? ==> result == []
    ensures file.Some? ==> result == Weights(file.value)
  {
    if file.None? {
      return [];
    }
    var f := file.value;
    var st := AfterHeader(f);
    result := [];
    var ok := !st.fail;
    HeaderRead(f);
    while ok
      invariant ok ==> !st.fail && 2 <= st.pos <= |f.toks| && Weights(f) == result + NumberPrefix(f.toks[st.pos..])
      invariant !ok ==> result == Weights(f)
      decreases |f.toks| - st.pos, ok
    {
      var r := Extract(f, st, 0.0, false);
      WeightStep(f, st, result);
      if r.0.fail {
        ok := false;
      } else {
        result := result + [r.1];
        st := r.0;
      }
    }
  }

  /** After the header a read that has not failed stands at the first
      weight, behind two integers. */
  lemma HeaderRead(f: WeightsFile)
    ensures var st := AfterHeader(f);
      !st.fail ==> st.pos == 2 <= |f.toks| && Weights(f) == NumberPrefix(f.toks[2..])
    ensures AfterHeader(f).fail ==> Weights(f) == []
  {
  }

  /** One turn of `while(in >> weight)`: a failed read leaves the weights
      complete, a read that succeeds takes the next one. */
  lemma WeightStep(f: WeightsFile, st: WState, result: seq<real>)
    requires !st.fail && 2 <= st.pos <= |f.toks| && Weights(f) == result + NumberPrefix(f.toks[st.pos..])
    ensures var r := Extract(f, st, 0.0, false);
      if r.0.fail then result == Weights(f)
      else st.pos < r.0.pos <= |f.toks| && !r.0.fail &&
           Weights(f) == result + [r.1] + NumberPrefix(f.toks[r.0.pos..])
  {
    var r := Extract(f, st, 0.0, false);
    if r.0.fail {
      assert st.pos == |f.toks| || f.toks[st.pos].Junk?;
    } else {
      assert f.toks[st.pos..] == [f.toks[st.pos]] + f.toks[st.pos + 1..];
    }
  }

  function RealTokens(ws: seq<real>): (r: seq<Token>)
    ensures |r| == |ws| && forall i :: 0 <= i < |ws| ==> r[i] == RealTok(ws[i])
  {
    seq(|ws|, i requires 0 <= i < |ws| => RealTok(ws[i]))
  }

  /** A weights file holding the given weights after its header. */
  function WeightsFileOf(nverts: int, nbones: int, ws: seq<real>, trailingSpace: bool): WeightsFile {
    WeightsFile([IntTok(nverts), IntTok(nbones)] + RealTokens(ws), trailingSpace)
  }

  lemma {:induction false} NumberPrefixOfReals(ws: seq<real>)
    ensures NumberPrefix(RealTokens(ws)) == ws
  {
    if ws != [] {
      assert RealTokens(ws)[1..] == RealTokens(ws[1..]);
      NumberPrefixOfReals(ws[1..]);
    }
  }

  /** The corrected loader gives back exactly the weights written. */
  lemma LoadWeightsOfFile(nverts: int, nbones: int, ws: seq<real>, trailingSpace: bool)
    ensures Weights(WeightsFileOf(nverts, nbones, ws, trailingSpace)) == ws
  {
    var f := WeightsFileOf(nverts, nbones, ws, trailingSpace);
    assert f.toks[2..] == RealTokens(ws);
    NumberPrefixOfReals(ws);
  }

  /** The loop as written returns one value too many on every file that ends
      in whitespace, and the extra value is uninitialised. */
  lemma WeightsAsWrittenExtra(nverts: int, nbones: int, ws: seq<real>, junk: real)
    ensures Numeric(WeightsFileOf(nverts, nbones, ws, true))
    ensures WeightsAsWritten(WeightsFileOf(nverts, nbones, ws, true), junk) == ws + [junk]
  {
    var f := WeightsFileOf(nverts, nbones, ws, true);
    assert f.toks[2..] == RealTokens(ws);
    NumberPrefixOfReals(ws);
  }

  /** Without trailing whitespace the loop as written returns exactly the weights. */
  lemma WeightsAsWrittenExact(nverts: int, nbones: int, ws: seq<real>, junk: real)
    ensures Numeric(WeightsFileOf(nverts, nbones, ws, false))
    ensures WeightsAsWritten(WeightsFileOf(nverts, nbones, ws, false), junk) == ws
  {
    var f := WeightsFileOf(nverts, nbones, ws, false);
    assert f.toks[2..] == RealTokens(ws);
    NumberPrefixOfReals(ws);
  }

  // ---- load_animation ----

  /** A unit quaternion as Eigen stores it: real part w, vector part (x, y, z). */
  datatype Quat = Quat(w: real, x: real, y: real, z: real)

  /** One bone's pose in one frame: a rotation and a translation. */
  datatype Pose = Pose(q: Quat, p: Vec3)

  datatype PoseRead = PoseRead(s: Stream, pose: Pose)

  /** `in >> x >> y >> z >> w >> px >> py >> pz`: the quaternion is read
      vector part first, real part last. The seven floats are uninitialised
      locals, each indeterminate on its own; the one value `junk` stands for
      all seven, so a read that stores nothing leaves `junk` in each. */
  function ReadPose(s: Stream, junk: real): PoseRead {
    var r := ReadReals(s, [junk, junk, junk, junk, junk, junk, junk]);
    var v := r.1;
    PoseRead(r.0, Pose(Quat(v[3], v[0], v[1], v[2]), Vec3(v[4], v[5], v[6])))
  }

  /** The poses of k successive reads and the stream after them. */
  function ReadPoses(s: Stream, junk: real, k: nat): (r: (Stream, seq<Pose>))
    ensures |r.1| == k
  {
    if k == 0 then (s, [])
    else
      var first := ReadPoses(s, junk, k - 1);
      var pr := ReadPose(first.0, junk);
      (pr.s, first.1 + [pr.pose])
  }

  /** The matrix load_animation builds for a pose: the supplied
      quaternion-to-rotation conversion in the upper-left block, the
      translation in the last column, and the identity's bottom row. */
  function PoseMatrix(rot: Quat -> Mat3, pose: Pose): (m: Mat4)
    ensures m.r3 == Vec4(0.0, 0.0, 0.0, 1.0)
    ensures Xyz(Col(m, 3)) == pose.p
  {
    Affine(rot(pose.q), pose.p)
  }

  /** The header read of load_animation: num_frames and num_bones, which
      stay uninitialised (nf0, nb0) when a read fails. */
  function AnimationHeader(toks: seq<Token>, nf0: int, nb0: int): (Stream, int, int) {
    var rf := ReadInt(Stream(toks, 0, false), nf0);
    var rb := ReadInt(rf.0, nb0);
    (rb.0, rf.1, rb.1)
  }

  /** load_animation: None when the file cannot be opened; otherwise one
      matrix per (frame, bone), built from the poses in file order. */
  method LoadAnimation(file: Option<seq<Token>>, nf0: int, nb0: int, junk: real, rot: Quat -> Mat3)
    returns (result: seq<Mat4>)
    ensures file.None? ==> result == []
    ensures file.Some? ==>
              var h := AnimationHeader(file.value, nf0, nb0);
              var n := if h.1 * h.2 > 0 then h.1 * h.2 else 0;
              |result| == n &&
              forall i :: 0 <= i < n ==> result[i] == PoseMatrix(rot, ReadPoses(h.0, junk, n).1[i])
  {
    if file.None? {
      return [];
    }
    var h := AnimationHeader(file.value, nf0, nb0);
    var s := h.0;
    var numFrames, numBones := h.1, h.2;
    ghost var n := if numFrames * numBones > 0 then numFrames * numBones else 0;
    result := [];
    var matrixCounter := 0;
    while matrixCounter < numBones * numFrames
      invariant 0 <= matrixCounter <= n
      invariant (s, |result|) == (ReadPoses(h.0, junk, matrixCounter).0, matrixCounter)
      invariant forall i :: 0 <= i < matrixCounter ==> result[i] == PoseMatrix(rot, ReadPoses(h.0, junk, matrixCounter).1[i])
    {
      ghost var before := ReadPoses(h.0, junk, matrixCounter).1;
      matrixCounter := matrixCounter + 1;
      var pr := ReadPose(s, junk);
      s := pr.s;
      result := result + [Affine(rot(pr.pose.q), pr.pose.p)];
      assert ReadPoses(h.0, junk, matrixCounter).1 == before + [pr.pose];
    }
    assert matrixCounter == n;
  }

  /** The seven numbers of a pose in the order the file holds them. */
  function PoseValues(pose: Pose): seq<real> {
    [pose.q.x, pose.q.y, pose.q.z, pose.q.w, pose.p.x, pose.p.y, pose.p.z]
  }

  function PoseTokens(pose: Pose): (r: seq<Token>)
    ensures |r| == 7
  {
    RealTokens(PoseValues(pose))
  }

  /** The tokens of poses written one after another. */
  function PosesTokens(poses: seq<Pose>): (r: seq<Token>)
    ensures |r| == 7 * |poses|
  {
    if poses == [] then [] else PosesTokens(poses[..|poses| - 1]) + PoseTokens(poses[|poses| - 1])
  }

  /** An animation file: the two header integers, then the poses. */
  function AnimationFile(nframes: int, nbones: int, poses: seq<Pose>): seq<Token> {
    [IntTok(nframes), IntTok(nbones)] + PosesTokens(poses)
  }

  lemma ReadPoseOfTokens(toks: seq<Token>, pos: nat, end: nat, junk: real, pose: Pose)
    requires end == pos + 7 <= |toks| && toks[pos..end] == PoseTokens(pose)
    ensures ReadPose(Stream(toks, pos, false), junk) == PoseRead(Stream(toks, end, false), pose)
  {
    var ws := PoseValues(pose);
    forall i | 0 <= i < 7
      ensures toks[pos + i] == RealTok(ws[i])
    {
      assert toks[pos..end][i] == toks[pos + i];
    }
    ReadRealsAt(toks, pos, [junk, junk, junk, junk, junk, junk, junk], ws);
  }

  /** Reading poses from a file that holds them, one after another from
      token 2 on, gives them back and stops right after the last. */
  lemma ReadPosesOfTokens(toks: seq<Token>, junk: real, poses: seq<Pose>)
    requires 2 + 7 * |poses| <= |toks| && toks[2..2 + 7 * |poses|] == PosesTokens(poses)
    ensures ReadPoses(Stream(toks, 2, false), junk, |poses|) == (Stream(toks, 2 + 7 * |poses|, false), poses)
  {
    var ss := seq(|poses| + 1, j requires 0 <= j <= |poses| => Stream(toks, 2 + 7 * j, false));
    forall j | 0 <= j < |poses|
      ensures ReadPose(ss[j], junk) == PoseRead(ss[j + 1], poses[j])
    {
      PosesTokensAt(poses, j);
      SliceOfSlice(toks, 2, 2 + 7 * |poses|, 7 * j, 7 * (j + 1));
      ReadPoseOfTokens(toks, 2 + 7 * j, 2 + 7 * (j + 1), junk, poses[j]);
      assert ss[j] == Stream(toks, 2 + 7 * j, false) && ss[j + 1] == Stream(toks, 2 + 7 * (j + 1), false);
    }
    ReadPosesChain(ss, junk, poses);
  }

  lemma SliceOfSlice<T>(t: seq<T>, a: nat, b: nat, c: nat, d: nat)
    requires a <= b <= |t| && c <= d <= b - a
    ensures t[a..b][c..d] == t[a + c..a + d]
  {
    forall i | 0 <= i < d - c
      ensures t[a..b][c..d][i] == t[a + c..a + d][i]
    {
      assert t[a..b][c..d][i] == t[a..b][c + i] == t[a + c + i];
    }
  }

  /** The tokens of pose j sit at 7j .. 7j + 6 of the poses' tokens. */
  lemma {:induction false} PosesTokensAt(poses: seq<Pose>, j: nat)
    requires j < |poses|
    ensures PosesTokens(poses)[7 * j..7 * (j + 1)] == PoseTokens(poses[j])
  {
    var init := poses[..|poses| - 1];
    assert PosesTokens(poses) == PosesTokens(init) + PoseTokens(poses[|poses| - 1]);
    if j < |init| {
      PosesTokensAt(init, j);
      assert PosesTokens(poses)[7 * j..7 * (j + 1)] == PosesTokens(init)[7 * j..7 * (j + 1)];
    } else {
      assert PosesTokens(poses)[7 * j..7 * (j + 1)] == PoseTokens(poses[|poses| - 1]);
    }
  }

  /** Reads that each take the next pose, from stream ss[j] to ss[j + 1], make
      up ReadPoses. */
  lemma {:induction false} ReadPosesChain(ss: seq<Stream>, junk: real, poses: seq<Pose>)
    requires |ss| == |poses| + 1
    requires forall j :: 0 <= j < |poses| ==> ReadPose(ss[j], junk) == PoseRead(ss[j + 1], poses[j])
    ensures ReadPoses(ss[0], junk, |poses|) == (ss[|poses|], poses)
  {
    if poses != [] {
      var k := |poses| - 1;
      ReadPosesChain(ss[..k + 1], junk, poses[..k]);
      assert ReadPose(ss[k], junk) == PoseRead(ss[k + 1], poses[k]);
      ReadPosesSnoc(ss[0], junk, k, |poses|, ss[k], poses[..k], ss[k + 1], poses[k]);
      assert poses[..k] + [poses[k]] == poses;
    }
  }

  /** A further read appends its pose to those read before. */
  lemma ReadPosesSnoc(s: Stream, junk: real, k: nat, n: nat, s1: Stream, init: seq<Pose>, s2: Stream, pose: Pose)
    requires n == k + 1 && ReadPoses(s, junk, k) == (s1, init) && ReadPose(s1, junk) == PoseRead(s2, pose)
    ensures ReadPoses(s, junk, n) == (s2, init + [pose])
  {
  }

  /** Loading an animation file with nframes * nbones poses gives one matrix
      per pose, in file order, whatever the uninitialised values were. */
  lemma LoadAnimationFile(nframes: int, nbones: int, poses: seq<Pose>, nf0: int, nb0: int, junk: real)
    requires nframes * nbones == |poses|
    ensures var h := AnimationHeader(AnimationFile(nframes, nbones, poses), nf0, nb0);
      h.1 == nframes && h.2 == nbones && ReadPoses(h.0, junk, |poses|).1 == poses
  {
    var toks := AnimationFile(nframes, nbones, poses);
    assert toks[2..2 + 7 * |poses|] == PosesTokens(poses);
    ReadPosesOfTokens(toks, junk, poses);
  }
}
