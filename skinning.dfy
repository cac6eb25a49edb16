// Linear-blend skinning data of the skeleton assignment
// (skeleton_asgn/src/Shape.cpp): the per-vertex selection of influencing
// bones, its padding to 15 slots and flattening for the GPU, the frame
// counter, and the CPU skinning loop.

module Skinning {
  import opened LinAlg

  /** Bones of the skeleton (NUM_BONES). */
  const NumBones: int := 18

  /** Bone slots per vertex in the GPU buffers. */
  const Slots: int := 15

  function Abs(x: real): real { if x < 0.0 then -x else x }

  /** A weight counts as an influence when its magnitude exceeds 0.001. */
  predicate Influences(w: real) { Abs(w) > 0.001 }

  // ---- bone selection ----

  /** The bones of vertex v, ascending, that influence it according to the
      first n entries of the weight vector (entry 18v + b is bone b's weight). */
  function SelectedBelow(w: seq<real>, v: int, n: nat): (r: seq<int>)
    requires n <= |w|
  {
    if n == 0 then []
    else
      var prev := SelectedBelow(w, v, n - 1);
      if (n - 1) / NumBones == v && Influences(w[n - 1]) then prev + [(n - 1) % NumBones] else prev
  }

  /** Their weights, slot for slot. */
  function WeightsBelow(w: seq<real>, v: int, n: nat): (r: seq<real>)
    requires n <= |w|
  {
    if n == 0 then []
    else
      var prev := WeightsBelow(w, v, n - 1);
      if (n - 1) / NumBones == v && Influences(w[n - 1]) then prev + [w[n - 1]] else prev
  }

  function Selected(w: seq<real>, v: int): seq<int> { SelectedBelow(w, v, |w|) }
  function SelectedWeights(w: seq<real>, v: int): seq<real> { WeightsBelow(w, v, |w|) }

  /** The selection of vertex v is exactly the ascending list of bones b
      whose weight w[18v + b] influences it, each with its weight. */
  lemma {:induction false} SelectedBelowSpec(w: seq<real>, v: int, n: nat)
    requires n <= |w| && v >= 0
    ensures |SelectedBelow(w, v, n)| == |WeightsBelow(w, v, n)|
    ensures forall i :: 0 <= i < |SelectedBelow(w, v, n)| ==>
      0 <= SelectedBelow(w, v, n)[i] < NumBones && NumBones * v + SelectedBelow(w, v, n)[i] < n &&
      WeightsBelow(w, v, n)[i] == w[NumBones * v + SelectedBelow(w, v, n)[i]] &&
      Influences(WeightsBelow(w, v, n)[i])
    ensures forall i, j :: 0 <= i < j < |SelectedBelow(w, v, n)| ==> SelectedBelow(w, v, n)[i] < SelectedBelow(w, v, n)[j]
    ensures forall b :: 0 <= b < NumBones && NumBones * v + b < n && Influences(w[NumBones * v + b]) ==>
      b in SelectedBelow(w, v, n)
  {
    if n > 0 {
      SelectedBelowSpec(w, v, n - 1);
      var idx := n - 1;
      if idx / NumBones == v {
        assert idx == NumBones * v + idx % NumBones;
      }
      forall b | 0 <= b < NumBones && NumBones * v + b < n && Influences(w[NumBones * v + b])
        ensures b in SelectedBelow(w, v, n)
      {
        if NumBones * v + b == idx {
          assert idx / NumBones == v && idx % NumBones == b;
        } else {
          assert b in SelectedBelow(w, v, n - 1);
        }
      }
    }
  }

  lemma SelectedSpec(w: seq<real>, v: int)
    requires v >= 0
    ensures |Selected(w, v)| == |SelectedWeights(w, v)| <= NumBones
    ensures forall i :: 0 <= i < |Selected(w, v)| ==>
      0 <= Selected(w, v)[i] < NumBones && NumBones * v + Selected(w, v)[i] < |w| &&
      SelectedWeights(w, v)[i] == w[NumBones * v + Selected(w, v)[i]] &&
      Influences(SelectedWeights(w, v)[i])
    ensures forall i, j :: 0 <= i < j < |Selected(w, v)| ==> Selected(w, v)[i] < Selected(w, v)[j]
    ensures forall b :: 0 <= b < NumBones && NumBones * v + b < |w| ==>
      (b in Selected(w, v) <==> Influences(w[NumBones * v + b]))
  {
    SelectedBelowSpec(w, v, |w|);
    var s := Selected(w, v);
    AscendingBound(s);
    forall b | 0 <= b < NumBones && NumBones * v + b < |w| && b in s
      ensures Influences(w[NumBones * v + b])
    {
      var i :| 0 <= i < |s| && s[i] == b;
    }
  }

  /** A strictly ascending list of bones has at most NumBones entries. */
  lemma AscendingBound(s: seq<int>)
    requires forall i :: 0 <= i < |s| ==> 0 <= s[i] < NumBones
    requires forall i, j :: 0 <= i < j < |s| ==> s[i] < s[j]
    ensures |s| <= NumBones
  {
    if |s| > NumBones {
      AscendingAtLeast(s, NumBones);
      assert false;
    }
  }

  lemma {:induction false} AscendingAtLeast(s: seq<int>, i: nat)
    requires i < |s|
    requires forall i :: 0 <= i < |s| ==> 0 <= s[i]
    requires forall i, j :: 0 <= i < j < |s| ==> s[i] < s[j]
    ensures s[i] >= i
  {
    if i > 0 {
      AscendingAtLeast(s, i - 1);
    }
  }

  // ---- padding and flattening ----

  /** n copies of x. */
  function Fill<T>(n: nat, x: T): (r: seq<T>)
    ensures |r| == n && forall i :: 0 <= i < n ==> r[i] == x
  {
    seq(n, _ => x)
  }

  /** A list padded with `fill` up to 15 entries; never truncated. */
  function Padded<T>(s: seq<T>, fill: T): (r: seq<T>)
    ensures |r| == if |s| >= Slots then |s| else Slots
    ensures r[..|s|] == s
    ensures forall i :: |s| <= i < |r| ==> r[i] == fill
  {
    if |s| >= Slots then s else s + Fill(Slots - |s|, fill)
  }

  /** The first 15 slots of each list, one list after the other. */
  function Flatten<T>(ls: seq<seq<T>>): (r: seq<T>)
    requires forall v :: 0 <= v < |ls| ==> |ls[v]| >= Slots
    ensures |r| == Slots * |ls|
  {
    if ls == [] then [] else Flatten(ls[..|ls| - 1]) + ls[|ls| - 1][..Slots]
  }

  /** Slot v*15 + j of the flattened buffer holds entry j of vertex v. */
  lemma {:induction false} FlattenSlot<T>(ls: seq<seq<T>>, v: int, j: int)
    requires forall u :: 0 <= u < |ls| ==> |ls[u]| >= Slots
    requires 0 <= v < |ls| && 0 <= j < Slots
    ensures Flatten(ls)[Slots * v + j] == ls[v][j]
  {
    if v < |ls| - 1 {
      FlattenSlot(ls[..|ls| - 1], v, j);
    }
  }

  lemma FlattenWindow<T>(ls: seq<seq<T>>, v: int)
    requires forall u :: 0 <= u < |ls| ==> |ls[u]| >= Slots
    requires 0 <= v < |ls|
    ensures Flatten(ls)[Slots * v..Slots * v + Slots] == ls[v][..Slots]
  {
    forall j | 0 <= j < Slots
      ensures Flatten(ls)[Slots * v..Slots * v + Slots][j] == ls[v][..Slots][j]
    {
      FlattenSlot(ls, v, j);
    }
  }

  // ---- the phases of processData ----

  /** The selection loop: each vertex's influencing bones and their weights.
      Every influencing weight must belong to one of the nverts vertices. */
  method SelectBones(w: seq<real>, nverts: nat) returns (bones: seq<seq<int>>, weights: seq<seq<real>>)
    requires forall i :: 0 <= i < |w| && Influences(w[i]) ==> i / NumBones < nverts
    ensures |bones| == nverts && |weights| == nverts
    ensures forall v :: 0 <= v < nverts ==> bones[v] == Selected(w, v) && weights[v] == SelectedWeights(w, v)
  {
    bones := seq(nverts, _ => []);
    weights := seq(nverts, _ => []);
    var ndx := 0;
    while ndx < |w|
      invariant 0 <= ndx <= |w| && |bones| == nverts && |weights| == nverts
      invariant forall v :: 0 <= v < nverts ==> bones[v] == SelectedBelow(w, v, ndx) && weights[v] == WeightsBelow(w, v, ndx)
    {
      var currVertex := ndx / NumBones;
      if Influences(w[ndx]) {
        bones := bones[currVertex := bones[currVertex] + [ndx % NumBones]];
        weights := weights[currVertex := weights[currVertex] + [w[ndx]]];
      }
      ndx := ndx + 1;
    }
  }

  /** The padding loop: counts the selected bones, then pads every list to 15
      with bone 0 and weight 0. */
  method PadLists(bones: seq<seq<int>>, weights: seq<seq<real>>) returns (pb: seq<seq<int>>, pw: seq<seq<real>>, counts: seq<int>)
    requires |bones| == |weights| && forall v :: 0 <= v < |bones| ==> |bones[v]| == |weights[v]|
    ensures |pb| == |pw| == |counts| == |bones|
    ensures forall v :: 0 <= v < |bones| ==>
      counts[v] == |bones[v]| && pb[v] == Padded(bones[v], 0) && pw[v] == Padded(weights[v], 0.0)
  {
    pb, pw, counts := [], [], [];
    var ndx := 0;
    while ndx < |bones|
      invariant 0 <= ndx <= |bones| && |pb| == |pw| == |counts| == ndx
      invariant forall v :: 0 <= v < ndx ==>
        counts[v] == |bones[v]| && pb[v] == Padded(bones[v], 0) && pw[v] == Padded(weights[v], 0.0)
    {
      counts := counts + [|bones[ndx]|];
      var b, w := PadOne(bones[ndx], weights[ndx]);
      pb, pw := pb + [b], pw + [w];
      ndx := ndx + 1;
    }
  }

  /** `while (size() < 15) push_back(0)` on one vertex's bones and weights. */
  method PadOne(bones: seq<int>, weights: seq<real>) returns (b: seq<int>, w: seq<real>)
    requires |bones| == |weights|
    ensures b == Padded(bones, 0) && w == Padded(weights, 0.0)
  {
    b, w := bones, weights;
    while |b| < Slots
      invariant |b| == |w| && |bones| <= |b| && b[..|bones|] == bones && w[..|bones|] == weights
      invariant |bones| < Slots ==> |b| <= Slots
      invariant |bones| >= Slots ==> b == bones && w == weights
      invariant forall i :: |bones| <= i < |b| ==> b[i] == 0 && w[i] == 0.0
      decreases Slots - |b|
    {
      b, w := b + [0], w + [0.0];
    }
    if |bones| >= Slots {
      assert b == bones && w == weights;
    } else {
      assert b == bones + Fill(Slots - |bones|, 0);
      assert w == weights + Fill(Slots - |bones|, 0.0);
    }
  }

  /** The flattening loop: 15 slots per vertex, vertex after vertex. */
  method FlattenLists<T>(ls: seq<seq<T>>) returns (flat: seq<T>)
    requires forall v :: 0 <= v < |ls| ==> |ls[v]| >= Slots
    ensures flat == Flatten(ls)
  {
    flat := [];
    var vert := 0;
    while vert < |ls|
      invariant 0 <= vert <= |ls| && flat == Flatten(ls[..vert])
    {
      var bone := 0;
      while bone < Slots
        invariant 0 <= bone <= Slots && flat == Flatten(ls[..vert]) + ls[vert][..bone]
      {
        flat := flat + [ls[vert][bone]];
        assert ls[vert][..bone + 1] == ls[vert][..bone] + [ls[vert][bone]];
        bone := bone + 1;
      }
      assert ls[..vert + 1][..vert] == ls[..vert];
      vert := vert + 1;
    }
    assert ls[..vert] == ls;
  }

  /** The bind pose with its first 18 matrices inverted (by the supplied
      inverse); the rest as loaded. */
  function InvertedBindPose(anim: seq<Mat4>, inverse: Mat4 -> Mat4): (r: seq<Mat4>)
    requires |anim| >= NumBones
    ensures |r| == |anim|
    ensures forall i :: 0 <= i < NumBones ==> r[i] == inverse(anim[i])
    ensures forall i :: NumBones <= i < |anim| ==> r[i] == anim[i]
  {
    seq(|anim|, i requires 0 <= i < |anim| => if i < NumBones then inverse(anim[i]) else anim[i])
  }

  // ---- the frame counter ----

  /** C++ `%` on ints: truncates toward zero, so the result has the sign of a. */
  function CMod(a: int, b: int): int
    requires b != 0
  {
    var m := (if a < 0 then -a else a) % (if b < 0 then -b else b);
    if a < 0 then -m else m
  }

  /** `k++; k %= num_frames - 1;` */
  function NextFrame(k: int, numFrames: int): int
    requires numFrames != 1
  {
    CMod(k + 1, numFrames - 1)
  }

  /** The counter stays in [0, num_frames - 2], so the animation frame it
      selects, k + 1, is one of the loaded frames after the bind pose. */
  lemma NextFrameInRange(k: int, numFrames: int)
    requires numFrames >= 2 && k >= 0
    ensures 0 <= NextFrame(k, numFrames) <= numFrames - 2
    ensures (NextFrame(k, numFrames) + 2) * NumBones <= numFrames * NumBones
  {
  }

  // ---- CPU skinning ----

  /** The matrices a frame reads are there: 18 bind-pose matrices and frame k + 1. */
  predicate FrameOk(bind: seq<Mat4>, anim: seq<Mat4>, k: int) {
    NumBones <= |bind| && 0 <= k && (k + 2) * NumBones <= |anim|
  }

  predicate BonesOk(bones: seq<int>) {
    forall i :: 0 <= i < |bones| ==> 0 <= bones[i] < NumBones
  }

  /** One bone's contribution: the vertex taken to bone space by the bind
      pose, placed by frame k + 1, scaled by the weight. */
  function Term(bind: seq<Mat4>, anim: seq<Mat4>, k: int, p: Vec3, j: int, wgt: real): Vec4
    requires FrameOk(bind, anim, k) && 0 <= j < NumBones
  {
    Scale4(wgt, Apply(anim[(k + 1) * NumBones + j], Apply(bind[j], Point(p))))
  }

  /** The sum, in order, of the contributions of bones[i] with weight wts[i]. */
  function SkinSum(bind: seq<Mat4>, anim: seq<Mat4>, k: int, p: Vec3, bones: seq<int>, wts: seq<real>): Vec4
    requires FrameOk(bind, anim, k) && BonesOk(bones) && |wts| == |bones|
  {
    if bones == [] then Zero4
    else
      var n := |bones| - 1;
      Add4(SkinSum(bind, anim, k, p, bones[..n], wts[..n]), Term(bind, anim, k, p, bones[n], wts[n]))
  }

  /** Padding slots carry weight 0 and add nothing. */
  lemma {:induction false} SkinSumPadded(bind: seq<Mat4>, anim: seq<Mat4>, k: int, p: Vec3, bones: seq<int>, wts: seq<real>, extra: nat)
    requires FrameOk(bind, anim, k) && BonesOk(bones) && |wts| == |bones|
    ensures BonesOk(bones + Fill(extra, 0))
    ensures SkinSum(bind, anim, k, p, bones + Fill(extra, 0), wts + Fill(extra, 0.0)) == SkinSum(bind, anim, k, p, bones, wts)
  {
    var pb, pw := bones + Fill(extra, 0), wts + Fill(extra, 0.0);
    if extra > 0 {
      SkinSumPadded(bind, anim, k, p, bones, wts, extra - 1);
      assert pb[..|pb| - 1] == bones + Fill(extra - 1, 0);
      assert pw[..|pw| - 1] == wts + Fill(extra - 1, 0.0);
      assert Term(bind, anim, k, p, 0, 0.0) == Zero4;
    } else {
      assert pb == bones && pw == wts;
    }
  }

  /** Coordinate c (0, 1, 2) of a homogeneous result. */
  function Coord(v: Vec4, c: int): real {
    if c == 0 then v.x else if c == 1 then v.y else v.z
  }

  /** The x, y, z of each result, vertex after vertex. */
  function Coords(vs: seq<Vec4>): (r: seq<real>)
    ensures |r| == 3 * |vs|
  {
    if vs == [] then [] else Coords(vs[..|vs| - 1]) + [vs[|vs| - 1].x, vs[|vs| - 1].y, vs[|vs| - 1].z]
  }

  lemma {:induction false} CoordsSlot(vs: seq<Vec4>, t: int)
    requires 0 <= t < 3 * |vs|
    ensures Coords(vs)[t] == Coord(vs[t / 3], t % 3)
  {
    if t < 3 * (|vs| - 1) {
      CoordsSlot(vs[..|vs| - 1], t);
    }
  }

  /** One more vertex adds its three coordinates. */
  lemma CoordsPush(vs: seq<Vec4>, v: int)
    requires 0 <= v < |vs|
    ensures Coords(vs[..v + 1]) == Coords(vs[..v]) + [vs[v].x, vs[v].y, vs[v].z]
  {
    assert vs[..v + 1][..v] == vs[..v];
  }

  lemma CoordsAll(vs: seq<Vec4>)
    ensures forall t :: 0 <= t < 3 * |vs| ==> Coords(vs)[t] == Coord(vs[t / 3], t % 3)
  {
    forall t | 0 <= t < 3 * |vs|
      ensures Coords(vs)[t] == Coord(vs[t / 3], t % 3)
    {
      CoordsSlot(vs, t);
    }
  }

  /** Vertex v of a position buffer. */
  function Vertex(pos: seq<real>, v: int): Vec3
    requires 0 <= v && 3 * v + 2 < |pos|
  {
    Vec3(pos[3 * v], pos[3 * v + 1], pos[3 * v + 2])
  }

  /** What the bounds of the CPU skinning loop as written need. */
  predicate CpuInputsOk(pos: seq<real>, lists: seq<seq<int>>, gpu: seq<real>, bind: seq<Mat4>, anim: seq<Mat4>, k: int) {
    |pos| % 3 == 0 && |pos| / 3 <= |lists| && FrameOk(bind, anim, k) &&
    forall v :: 0 <= v < |lists| ==> BonesOk(lists[v]) && |lists[v]| <= |gpu|
  }

  /** The vertex do_cpu_skinning computes for vertex v: its bone list, but the
      weights gpu_skinning_weights[0..] of vertex 0. */
  function SkinnedVertexAsWritten(pos: seq<real>, lists: seq<seq<int>>, gpu: seq<real>, bind: seq<Mat4>, anim: seq<Mat4>, k: int, v: int): Vec4
    requires CpuInputsOk(pos, lists, gpu, bind, anim, k) && 0 <= v < |pos| / 3
  {
    SkinSum(bind, anim, k, Vertex(pos, v), lists[v], gpu[..|lists[v]|])
  }

  function SkinnedAsWritten(pos: seq<real>, lists: seq<seq<int>>, gpu: seq<real>, bind: seq<Mat4>, anim: seq<Mat4>, k: int): (r: seq<Vec4>)
    requires CpuInputsOk(pos, lists, gpu, bind, anim, k)
    ensures |r| == |pos| / 3
  {
    seq(|pos| / 3, v requires 0 <= v < |pos| / 3 => SkinnedVertexAsWritten(pos, lists, gpu, bind, anim, k, v))
  }

  /** do_cpu_skinning as written: three coordinates per input vertex; the input
      buffer is left alone. */
  method DoCpuSkinningAsWritten(pos: seq<real>, lists: seq<seq<int>>, gpu: seq<real>, bind: seq<Mat4>, anim: seq<Mat4>, k: int)
    returns (skinned: seq<real>)
    requires CpuInputsOk(pos, lists, gpu, bind, anim, k)
    ensures skinned == Coords(SkinnedAsWritten(pos, lists, gpu, bind, anim, k))
  {
    ghost var vs := SkinnedAsWritten(pos, lists, gpu, bind, anim, k);
    skinned := [];
    var i := 0;
    ghost var v := 0;
    while i < |pos|
      invariant 0 <= v <= |vs| && i == 3 * v && skinned == Coords(vs[..v])
    {
      var orig := Vec3(pos[i], pos[i + 1], pos[i + 2]);
      var currBones := lists[i / 3];
      var r := WeightedSum(bind, anim, k, orig, currBones, gpu[..|currBones|]);
      CoordsPush(vs, v);
      skinned := skinned + [r.x, r.y, r.z];
      i, v := i + 3, v + 1;
    }
    assert vs[..v] == vs;
  }

  /** The buffer do_cpu_skinning as written fills: one coordinate per input
      coordinate, coordinate t being coordinate t mod 3 of vertex t / 3. */
  lemma SkinnedAsWrittenCoords(pos: seq<real>, lists: seq<seq<int>>, gpu: seq<real>, bind: seq<Mat4>, anim: seq<Mat4>, k: int)
    requires CpuInputsOk(pos, lists, gpu, bind, anim, k)
    ensures |Coords(SkinnedAsWritten(pos, lists, gpu, bind, anim, k))| == |pos|
    ensures forall t :: 0 <= t < |pos| ==>
      Coords(SkinnedAsWritten(pos, lists, gpu, bind, anim, k))[t] ==
      Coord(SkinnedVertexAsWritten(pos, lists, gpu, bind, anim, k, t / 3), t % 3)
  {
    CoordsAll(SkinnedAsWritten(pos, lists, gpu, bind, anim, k));
  }

  /** The inner loop: accumulates the contributions of the listed bones. */
  method WeightedSum(bind: seq<Mat4>, anim: seq<Mat4>, k: int, p: Vec3, bones: seq<int>, wts: seq<real>) returns (r: Vec4)
    requires FrameOk(bind, anim, k) && BonesOk(bones) && |wts| == |bones|
    ensures r == SkinSum(bind, anim, k, p, bones, wts)
  {
    r := Zero4;
    var ndx := 0;
    while ndx < |bones|
      invariant 0 <= ndx <= |bones| && r == SkinSum(bind, anim, k, p, bones[..ndx], wts[..ndx])
    {
      var j := bones[ndx];
      var changed := Point(p);
      changed := Apply(bind[j], changed);
      changed := Apply(anim[(k + 1) * NumBones + j], changed);
      changed := Scale4(wts[ndx], changed);
      r := Add4(r, changed);
      assert bones[..ndx + 1][..ndx] == bones[..ndx] && wts[..ndx + 1][..ndx] == wts[..ndx];
      ndx := ndx + 1;
    }
    assert bones[..ndx] == bones && wts[..ndx] == wts;
  }

  /** What the corrected loop needs: 15 slots of bones and weights per vertex. */
  predicate SlotInputsOk(pos: seq<real>, flatBones: seq<int>, gpu: seq<real>, bind: seq<Mat4>, anim: seq<Mat4>, k: int) {
    |pos| % 3 == 0 && Slots * (|pos| / 3) <= |flatBones| && |flatBones| == |gpu| &&
    FrameOk(bind, anim, k) && BonesOk(flatBones)
  }

  lemma WindowBonesOk(flatBones: seq<int>, lo: int, hi: int)
    requires BonesOk(flatBones) && 0 <= lo <= hi <= |flatBones|
    ensures BonesOk(flatBones[lo..hi])
  {
  }

  /** The corrected vertex: vertex v's own 15 slots of bones and weights. */
  function SkinnedVertex(pos: seq<real>, flatBones: seq<int>, gpu: seq<real>, bind: seq<Mat4>, anim: seq<Mat4>, k: int, v: int): Vec4
    requires SlotInputsOk(pos, flatBones, gpu, bind, anim, k) && 0 <= v < |pos| / 3
  {
    WindowBonesOk(flatBones, Slots * v, Slots * v + Slots);
    SkinSum(bind, anim, k, Vertex(pos, v), flatBones[Slots * v..Slots * v + Slots], gpu[Slots * v..Slots * v + Slots])
  }

  function SkinnedAll(pos: seq<real>, flatBones: seq<int>, gpu: seq<real>, bind: seq<Mat4>, anim: seq<Mat4>, k: int): (r: seq<Vec4>)
    requires SlotInputsOk(pos, flatBones, gpu, bind, anim, k)
    ensures |r| == |pos| / 3
  {
    seq(|pos| / 3, v requires 0 <= v < |pos| / 3 => SkinnedVertex(pos, flatBones, gpu, bind, anim, k, v))
  }

  /** do_cpu_skinning reading vertex v's weights at gpu_skinning_weights[15v + ndx]. */
  method DoCpuSkinning(pos: seq<real>, flatBones: seq<int>, gpu: seq<real>, bind: seq<Mat4>, anim: seq<Mat4>, k: int)
    returns (skinned: seq<real>)
    requires SlotInputsOk(pos, flatBones, gpu, bind, anim, k)
    ensures skinned == Coords(SkinnedAll(pos, flatBones, gpu, bind, anim, k))
  {
    ghost var vs := SkinnedAll(pos, flatBones, gpu, bind, anim, k);
    skinned := [];
    var i := 0;
    ghost var v := 0;
    while i < |pos|
      invariant 0 <= v <= |vs| && i == 3 * v && skinned == Coords(vs[..v])
    {
      var r := SkinVertex(pos, flatBones, gpu, bind, anim, k, i, v);
      assert r == vs[v];
      CoordsPush(vs, v);
      skinned := skinned + [r.x, r.y, r.z];
      i, v := i + 3, v + 1;
    }
    assert vs[..v] == vs;
  }

  /** The buffer the corrected loop fills: coordinate t is coordinate t mod 3
      of vertex t / 3, skinned with that vertex's own slots. */
  lemma SkinnedAllCoords(pos: seq<real>, flatBones: seq<int>, gpu: seq<real>, bind: seq<Mat4>, anim: seq<Mat4>, k: int)
    requires SlotInputsOk(pos, flatBones, gpu, bind, anim, k)
    ensures |Coords(SkinnedAll(pos, flatBones, gpu, bind, anim, k))| == |pos|
    ensures forall t :: 0 <= t < |pos| ==>
      Coords(SkinnedAll(pos, flatBones, gpu, bind, anim, k))[t] ==
      Coord(SkinnedVertex(pos, flatBones, gpu, bind, anim, k, t / 3), t % 3)
  {
    CoordsAll(SkinnedAll(pos, flatBones, gpu, bind, anim, k));
  }

  /** The body of the corrected loop for the vertex at position i. */
  method SkinVertex(pos: seq<real>, flatBones: seq<int>, gpu: seq<real>, bind: seq<Mat4>, anim: seq<Mat4>, k: int,
                    i: int, ghost v: int)
    returns (r: Vec4)
    requires SlotInputsOk(pos, flatBones, gpu, bind, anim, k) && 0 <= v < |pos| / 3 && i == 3 * v
    ensures r == SkinnedVertex(pos, flatBones, gpu, bind, anim, k, v)
  {
    var orig := Vec3(pos[i], pos[i + 1], pos[i + 2]);
    var base := Slots * (i / 3);
    WindowBonesOk(flatBones, base, base + Slots);
    r := WeightedSum(bind, anim, k, orig, flatBones[base..base + Slots], gpu[base..base + Slots]);
  }

  /** The inversion loop over the first 18 bind-pose matrices. */
  method InvertFirstBones(anim: seq<Mat4>, inverse: Mat4 -> Mat4) returns (bind: seq<Mat4>)
    requires |anim| >= NumBones
    ensures bind == InvertedBindPose(anim, inverse)
  {
    bind := anim;
    var ndx := 0;
    while ndx < NumBones
      invariant 0 <= ndx <= NumBones && |bind| == |anim|
      invariant forall i :: 0 <= i < |anim| ==> bind[i] == if i < ndx then inverse(anim[i]) else anim[i]
    {
      bind := bind[ndx := inverse(bind[ndx])];
      ndx := ndx + 1;
    }
  }

  /** The padded bone lists and weight lists processData builds from w. */
  function BoneLists(w: seq<real>, nverts: nat): seq<seq<int>> {
    seq(nverts, v requires 0 <= v < nverts => Padded(Selected(w, v), 0))
  }

  function WeightLists(w: seq<real>, nverts: nat): seq<seq<real>> {
    seq(nverts, v requires 0 <= v < nverts => Padded(SelectedWeights(w, v), 0.0))
  }

  lemma ListsShape(w: seq<real>, nverts: nat)
    ensures forall v :: 0 <= v < nverts ==> |BoneLists(w, nverts)[v]| >= Slots && |WeightLists(w, nverts)[v]| >= Slots
    ensures forall v :: 0 <= v < nverts ==> BonesOk(BoneLists(w, nverts)[v])
    ensures forall v :: 0 <= v < nverts ==> |BoneLists(w, nverts)[v]| == |WeightLists(w, nverts)[v]| <= NumBones
  {
    forall v | 0 <= v < nverts
      ensures BonesOk(BoneLists(w, nverts)[v])
      ensures |BoneLists(w, nverts)[v]| == |WeightLists(w, nverts)[v]| <= NumBones
    {
      SelectedSpec(w, v);
    }
  }

  lemma FlatBonesOk(w: seq<real>, nverts: nat)
    ensures forall v :: 0 <= v < nverts ==> |BoneLists(w, nverts)[v]| >= Slots
    ensures BonesOk(Flatten(BoneLists(w, nverts)))
  {
    ListsShape(w, nverts);
    var ls := BoneLists(w, nverts);
    forall t | 0 <= t < |Flatten(ls)|
      ensures 0 <= Flatten(ls)[t] < NumBones
    {
      FlattenSlot(ls, t / Slots, t % Slots);
    }
  }

  /** How many bones influence each vertex. */
  function Counts(w: seq<real>, nverts: nat): seq<int> {
    seq(nverts, v requires 0 <= v < nverts => |Selected(w, v)|)
  }

  /** Every influencing weight belongs to one of the nverts vertices. */
  predicate WeightsFit(w: seq<real>, nverts: nat) {
    forall i :: 0 <= i < |w| && Influences(w[i]) ==> i / NumBones < nverts
  }

  /** The relations processData establishes among its outputs. */
  ghost predicate ProcessedState(w: seq<real>, anim: seq<Mat4>, bind: seq<Mat4>, numFrames: int, lists: seq<seq<int>>,
                                 counts: seq<int>, flatBones: seq<int>, gpu: seq<real>)
  {
    var nverts := |lists|;
    |anim| >= NumBones && |bind| == |anim| && bind[NumBones..] == anim[NumBones..] &&
    numFrames == |anim| / NumBones &&
    WeightsFit(w, nverts) &&
    lists == BoneLists(w, nverts) &&
    counts == Counts(w, nverts) &&
    flatBones == Flatten(BoneLists(w, nverts)) &&
    gpu == Flatten(WeightLists(w, nverts))
  }

  /** The phases of processData on values: selection, padding, flattening;
      and the inversion of the first 18 bind-pose matrices. */
  method ProcessValues(w: seq<real>, anim: seq<Mat4>, inverse: Mat4 -> Mat4, nverts: nat)
    returns (bind: seq<Mat4>, numFrames: int, lists: seq<seq<int>>, counts: seq<int>, flatBones: seq<int>, gpu: seq<real>)
    requires |anim| >= NumBones && WeightsFit(w, nverts)
    ensures ProcessedState(w, anim, bind, numFrames, lists, counts, flatBones, gpu)
    ensures bind == InvertedBindPose(anim, inverse) && |lists| == nverts
  {
    bind := InvertFirstBones(anim, inverse);
    numFrames := |bind| / NumBones;
    var pw;
    lists, pw, counts := BuildLists(w, nverts);
    ListsShape(w, nverts);
    flatBones := FlattenLists(lists);
    gpu := FlattenLists(pw);
  }

  /** Selection followed by padding gives the padded lists of every vertex. */
  method BuildLists(w: seq<real>, nverts: nat) returns (lists: seq<seq<int>>, pw: seq<seq<real>>, counts: seq<int>)
    requires WeightsFit(w, nverts)
    ensures lists == BoneLists(w, nverts) && pw == WeightLists(w, nverts) && counts == Counts(w, nverts)
  {
    var bones, wts := SelectBones(w, nverts);
    forall v | 0 <= v < nverts
      ensures |bones[v]| == |wts[v]|
    {
      SelectedSpec(w, v);
    }
    lists, pw, counts := PadLists(bones, wts);
  }

  /** The skinning state of skeleton_asgn/src/Shape.cpp: the mesh positions
      and the globals processData fills. In the source those globals
      (loaded_weights, the weight and bone buffers, num_frames, k) are shared
      by every Shape; here they are fields of one object, which stands for
      the one skinned shape the program draws. */
  class SkinnedShape {
    var posBuf: seq<real>
    var loadedWeights: bool
    var skinningWeights: seq<real>
    var animFrames: seq<Mat4>
    var bindPose: seq<Mat4>
    var multidValidBones: seq<seq<int>>
    var numBonesForVertex: seq<int>
    var validBones: seq<int>
    var gpuSkinningWeights: seq<real>
    var numFrames: int
    var k: int
    /** How many times processData has run. */
    ghost var processRuns: nat

    /** What processData leaves behind, for the weights it stored. */
    ghost predicate Processed()
      reads this
    {
      ProcessedState(skinningWeights, animFrames, bindPose, numFrames, multidValidBones, numBonesForVertex,
                     validBones, gpuSkinningWeights)
    }

    /** Before the first processData the buffers it appends to are empty;
        afterwards it has run exactly once. */
    ghost predicate Valid()
      reads this
    {
      k >= 0 &&
      (!loadedWeights ==> processRuns == 0 && multidValidBones == [] && numBonesForVertex == [] &&
                          validBones == [] && gpuSkinningWeights == []) &&
      (loadedWeights ==> processRuns == 1 && Processed())
    }

    constructor()
      ensures Valid() && !loadedWeights && k == 0 && numFrames == 0 && posBuf == []
    {
      posBuf, skinningWeights := [], [];
      loadedWeights := false;
      animFrames, bindPose := [], [];
      multidValidBones, numBonesForVertex, validBones, gpuSkinningWeights := [], [], [], [];
      numFrames, k := 0, 0;
      processRuns := 0;
    }

    /** processData, given what load_weights and load_animation returned and
        the supplied matrix inverse. It appends to the global buffers, so it
        needs them empty; the first 18 loaded matrices must exist, and every
        influencing weight must belong to a vertex of the mesh. */
    method ProcessData(weights: seq<real>, anim: seq<Mat4>, inverse: Mat4 -> Mat4)
      requires multidValidBones == [] && numBonesForVertex == [] && validBones == [] && gpuSkinningWeights == []
      requires |anim| >= NumBones && WeightsFit(weights, |posBuf| / 3)
      modifies this`loadedWeights, this`processRuns, this`skinningWeights, this`animFrames, this`bindPose,
               this`numFrames, this`multidValidBones, this`numBonesForVertex, this`validBones,
               this`gpuSkinningWeights
      ensures loadedWeights && processRuns == old(processRuns) + 1 && Processed()
      ensures skinningWeights == weights && animFrames == anim && bindPose == InvertedBindPose(anim, inverse)
      ensures |multidValidBones| == |posBuf| / 3
    {
      var bind, nf, lists, counts, flatBones, gpu := ProcessValues(weights, anim, inverse, |posBuf| / 3);
      loadedWeights, processRuns := true, processRuns + 1;
      Store(weights, anim, bind, nf, lists, counts, flatBones, gpu);
    }

    /** The globals processData fills, with the values it computed. */
    method Store(weights: seq<real>, anim: seq<Mat4>, bind: seq<Mat4>, nf: int, lists: seq<seq<int>>,
                 counts: seq<int>, flatBones: seq<int>, gpu: seq<real>)
      requires ProcessedState(weights, anim, bind, nf, lists, counts, flatBones, gpu)
      modifies this`skinningWeights, this`animFrames, this`bindPose, this`numFrames,
               this`multidValidBones, this`numBonesForVertex, this`validBones, this`gpuSkinningWeights
      ensures Processed()
      ensures skinningWeights == weights && animFrames == anim && bindPose == bind && numFrames == nf
      ensures multidValidBones == lists && numBonesForVertex == counts
      ensures validBones == flatBones && gpuSkinningWeights == gpu
    {
      skinningWeights, animFrames, bindPose, numFrames := weights, anim, bind, nf;
      multidValidBones, numBonesForVertex, validBones, gpuSkinningWeights := lists, counts, flatBones, gpu;
    }

    /** loadMesh: when the mesh loads (ok), it replaces the positions and runs
        processData the first time only. */
    method LoadMesh(ok: bool, positions: seq<real>, weights: seq<real>, anim: seq<Mat4>, inverse: Mat4 -> Mat4)
      requires Valid()
      requires ok && !loadedWeights ==> |anim| >= NumBones && WeightsFit(weights, |positions| / 3)
      modifies this
      ensures Valid() && processRuns <= 1
      ensures posBuf == if ok then positions else old(posBuf)
      ensures processRuns == if ok && !old(loadedWeights) then 1 else old(processRuns)
      ensures old(loadedWeights) ==> multidValidBones == old(multidValidBones) && gpuSkinningWeights == old(gpuSkinningWeights)
    {
      if ok {
        posBuf := positions;
        if !loadedWeights {
          ProcessData(weights, anim, inverse);
        }
      }
    }

    /** The frame counter of draw: k := (k + 1) mod (num_frames - 1). */
    method AdvanceFrame()
      requires numFrames != 1
      modifies this`k
      ensures k == NextFrame(old(k), numFrames)
    {
      k := k + 1;
      k := CMod(k, numFrames - 1);
    }

    /** draw on the CPU path: advance the frame, then run do_cpu_skinning as
        written, which blends vertex v's bone list multid_valid_bones[v] with
        the weights gpu_skinning_weights[0..] that belong to vertex 0. Those
        reads stay in the buffer only when no bone list is longer than it. */
    method Draw() returns (skinned: seq<real>)
      requires Valid() && loadedWeights && numFrames >= 2
      requires |posBuf| % 3 == 0 && |posBuf| / 3 <= |multidValidBones|
      requires forall v :: 0 <= v < |multidValidBones| ==> |multidValidBones[v]| <= |gpuSkinningWeights|
      modifies this`k
      ensures Valid() && 0 <= k <= numFrames - 2 && k == NextFrame(old(k), numFrames)
      ensures CpuInputsOk(posBuf, multidValidBones, gpuSkinningWeights, bindPose, animFrames, k)
      ensures skinned == Coords(SkinnedAsWritten(posBuf, multidValidBones, gpuSkinningWeights, bindPose, animFrames, k))
      ensures |skinned| == |posBuf|
      ensures forall t :: 0 <= t < |posBuf| ==>
        skinned[t] == Coord(SkinnedVertexAsWritten(posBuf, multidValidBones, gpuSkinningWeights, bindPose, animFrames, k, t / 3), t % 3)
    {
      NextFrameInRange(k, numFrames);
      AdvanceFrame();
      DrawInputsOk(this);
      skinned := DoCpuSkinningAsWritten(posBuf, multidValidBones, gpuSkinningWeights, bindPose, animFrames, k);
      SkinnedAsWrittenCoords(posBuf, multidValidBones, gpuSkinningWeights, bindPose, animFrames, k);
    }
  }

  /** After processData, and with the counter in range, every buffer index of
      the skinning loop as written is in bounds, in particular frame
      (k + 1) * 18 + j, provided the weights it reads exist. */
  lemma DrawInputsOk(s: SkinnedShape)
    requires s.Valid() && s.loadedWeights && s.numFrames >= 2 && 0 <= s.k <= s.numFrames - 2
    requires |s.posBuf| % 3 == 0 && |s.posBuf| / 3 <= |s.multidValidBones|
    requires forall v :: 0 <= v < |s.multidValidBones| ==> |s.multidValidBones[v]| <= |s.gpuSkinningWeights|
    ensures CpuInputsOk(s.posBuf, s.multidValidBones, s.gpuSkinningWeights, s.bindPose, s.animFrames, s.k)
    ensures SlotInputsOk(s.posBuf, s.validBones, s.gpuSkinningWeights, s.bindPose, s.animFrames, s.k)
  {
    FlatBonesOk(s.skinningWeights, |s.multidValidBones|);
    ListsShape(s.skinningWeights, |s.multidValidBones|);
  }

  /** With two vertices or more the weight buffer holds at least 30 entries,
      more than any bone list (at most 18), so draw's reads are in bounds. */
  lemma WeightReadsInBounds(w: seq<real>, nverts: nat)
    requires nverts >= 2
    ensures forall v :: 0 <= v < nverts ==> |BoneLists(w, nverts)[v]| <= |Flatten(WeightLists(w, nverts))|
  {
    ListsShape(w, nverts);
  }

  /** For a vertex with at most 15 influencing bones, its 15 slots of the GPU
      buffers give the weighted sum over exactly its selected bones. */
  lemma SlotsMatchSelection(w: seq<real>, nverts: nat, v: int, bind: seq<Mat4>, anim: seq<Mat4>, k: int, p: Vec3)
    requires 0 <= v < nverts && |Selected(w, v)| <= Slots && FrameOk(bind, anim, k)
    ensures BonesOk(Flatten(BoneLists(w, nverts)))
    ensures BonesOk(Selected(w, v)) && |SelectedWeights(w, v)| == |Selected(w, v)|
    ensures SkinSum(bind, anim, k, p, Flatten(BoneLists(w, nverts))[Slots * v..Slots * v + Slots],
                    Flatten(WeightLists(w, nverts))[Slots * v..Slots * v + Slots]) ==
            SkinSum(bind, anim, k, p, Selected(w, v), SelectedWeights(w, v))
  {
    FlatBonesOk(w, nverts);
    ListsShape(w, nverts);
    SelectedSpec(w, v);
    var sel, selw := Selected(w, v), SelectedWeights(w, v);
    var bl, wl := BoneLists(w, nverts), WeightLists(w, nverts);
    FlattenWindow(bl, v);
    FlattenWindow(wl, v);
    var extra := Slots - |sel|;
    assert bl[v][..Slots] == sel + Fill(extra, 0) by {
      assert bl[v] == Padded(sel, 0);
    }
    assert wl[v][..Slots] == selw + Fill(extra, 0.0) by {
      assert wl[v] == Padded(selw, 0.0);
    }
    SkinSumPadded(bind, anim, k, p, sel, selw, extra);
  }

  /** A vertex that exactly one bone influences selects that bone alone. */
  lemma SingleInfluence(w: seq<real>, v: int, b: int)
    requires v >= 0 && 0 <= b < NumBones && NumBones * v + b < |w| && Influences(w[NumBones * v + b])
    requires forall i :: NumBones * v <= i < NumBones * v + NumBones && i < |w| && i != NumBones * v + b ==> !Influences(w[i])
    ensures Selected(w, v) == [b] && SelectedWeights(w, v) == [w[NumBones * v + b]]
  {
    SelectedSpec(w, v);
    var s := Selected(w, v);
    assert b in s;
    forall i | 0 <= i < |s|
      ensures s[i] == b
    {
      assert Influences(w[NumBones * v + s[i]]);
    }
    if |s| >= 2 {
      FirstTwoAscending(s);
      assert false;
    }
  }

  lemma FirstTwoAscending(s: seq<int>)
    requires |s| >= 2 && forall i, j :: 0 <= i < j < |s| ==> s[i] < s[j]
    ensures s[0] < s[1]
  {
  }

  /** Two vertices of a two-vertex mesh: bone 0 moves vertex 0 with weight 1,
      bone 1 moves vertex 1 with weight 0.5. */
  function ExampleWeights(): (w: seq<real>)
    ensures |w| == 2 * NumBones
  {
    seq(2 * NumBones, i => if i == 0 then 1.0 else if i == NumBones + 1 then 0.5 else 0.0)
  }

  /** Identity bind pose, and identity matrices for frames 0 and 1. */
  function ExampleMatrices(): (ms: seq<Mat4>)
    ensures FrameOk(ms, ms, 0)
  {
    seq(2 * NumBones, _ => Identity())
  }

  /** Vertex 0 and vertex 1 both at (1, 0, 0). */
  const ExamplePositions: seq<real> := [1.0, 0.0, 0.0, 1.0, 0.0, 0.0]

  /** The weights of the example, entry by entry. */
  predicate LikeExample(w: seq<real>) {
    |w| == 2 * NumBones && w[0] == 1.0 && w[NumBones + 1] == 0.5 &&
    forall i :: 0 <= i < |w| && i != 0 && i != NumBones + 1 ==> w[i] == 0.0
  }

  lemma ExampleSelection(w: seq<real>)
    requires LikeExample(w)
    ensures Selected(w, 0) == [0] && SelectedWeights(w, 0) == [1.0]
    ensures Selected(w, 1) == [1] && SelectedWeights(w, 1) == [0.5]
  {
    SingleInfluence(w, 0, 0);
    SingleInfluence(w, 1, 1);
  }

  /** The padded bone lists and the flattened weights processData builds
      for the example. */
  const ExampleLists: seq<seq<int>> := [[0] + Fill(Slots - 1, 0), [1] + Fill(Slots - 1, 0)]
  const ExampleGpu: seq<real> := ([1.0] + Fill(Slots - 1, 0.0)) + ([0.5] + Fill(Slots - 1, 0.0))

  lemma ExampleBuffers(w: seq<real>)
    requires LikeExample(w)
    ensures BoneLists(w, 2) == ExampleLists
    ensures Flatten(BoneLists(w, 2)) == ExampleLists[0] + ExampleLists[1]
    ensures Flatten(WeightLists(w, 2)) == ExampleGpu
  {
    ExampleSelection(w);
    var bl, wl := BoneLists(w, 2), WeightLists(w, 2);
    assert bl[0] == ExampleLists[0] && bl[1] == ExampleLists[1];
    assert wl[0] == [1.0] + Fill(Slots - 1, 0.0) && wl[1] == [0.5] + Fill(Slots - 1, 0.0);
    assert bl[..1] == [bl[0]] && wl[..1] == [wl[0]];
    assert Flatten(bl[..1]) == bl[0] by {
      assert bl[..1][..0] == [];
    }
    assert Flatten(wl[..1]) == wl[0] by {
      assert wl[..1][..0] == [];
    }
  }

  /** The bind pose and frames of the example. */
  predicate AllIdentity(ms: seq<Mat4>) {
    forall i :: 0 <= i < |ms| ==> ms[i] == Identity()
  }

  /** The loop as written scales vertex 1 by the first weight of the buffer,
      vertex 0's weight 1, leaving it at x = 1. */
  lemma ExampleAsWritten(pos: seq<real>, lists: seq<seq<int>>, gpu: seq<real>, ms: seq<Mat4>)
    requires |pos| == 6 && pos[3..] == [1.0, 0.0, 0.0] && AllIdentity(ms)
    requires CpuInputsOk(pos, lists, gpu, ms, ms, 0)
    requires lists[1] == [1] + Fill(Slots - 1, 0) && gpu[..Slots] == [1.0] + Fill(Slots - 1, 0.0)
    ensures SkinnedVertexAsWritten(pos, lists, gpu, ms, ms, 0, 1).x == 1.0
  {
    var p := Vec3(1.0, 0.0, 0.0);
    assert Vertex(pos, 1) == p;
    SingleBoneOk(1);
    SkinSumPadded(ms, ms, 0, p, [1], [1.0], Slots - 1);
    OneTerm(ms, p, 1, 1.0);
  }

  /** A single bone of the identity example moves nothing: its term is the
      vertex scaled by the weight. */
  lemma OneTerm(ms: seq<Mat4>, p: Vec3, j: int, wgt: real)
    requires FrameOk(ms, ms, 0) && AllIdentity(ms) && 0 <= j < NumBones
    ensures SkinSum(ms, ms, 0, p, [j], [wgt]) == Scale4(wgt, Point(p))
  {
    assert [j][..0] == [] && [wgt][..0] == [];
    assert ms[NumBones + j] == Identity() && ms[j] == Identity();
    ApplyIdentity(Point(p));
  }

  /** Vertex 1's own slots scale it by its weight 0.5. */
  lemma ExampleCorrected(pos: seq<real>, flatBones: seq<int>, gpu: seq<real>, ms: seq<Mat4>)
    requires |pos| == 6 && pos[3..] == [1.0, 0.0, 0.0] && AllIdentity(ms)
    requires SlotInputsOk(pos, flatBones, gpu, ms, ms, 0)
    requires flatBones[Slots..2 * Slots] == [1] + Fill(Slots - 1, 0)
    requires gpu[Slots..2 * Slots] == [0.5] + Fill(Slots - 1, 0.0)
    ensures SkinnedVertex(pos, flatBones, gpu, ms, ms, 0, 1).x == 0.5
  {
    var p := Vec3(1.0, 0.0, 0.0);
    assert Vertex(pos, 1) == p;
    SingleBoneOk(1);
    SkinSumPadded(ms, ms, 0, p, [1], [0.5], Slots - 1);
    OneTerm(ms, p, 1, 0.5);
  }

  lemma SingleBoneOk(j: int)
    requires 0 <= j < NumBones
    ensures BonesOk([j])
  {
  }

  /** The as-written loop and the corrected one disagree on the two-vertex
      example, whose weights processData accepts. */
  lemma CpuSkinningUsesFirstVertexWeights()
    ensures var w, ms := ExampleWeights(), ExampleMatrices();
      WeightsFit(w, 2) &&
      CpuInputsOk(ExamplePositions, BoneLists(w, 2), Flatten(WeightLists(w, 2)), ms, ms, 0) &&
      SlotInputsOk(ExamplePositions, Flatten(BoneLists(w, 2)), Flatten(WeightLists(w, 2)), ms, ms, 0) &&
      SkinnedVertexAsWritten(ExamplePositions, BoneLists(w, 2), Flatten(WeightLists(w, 2)), ms, ms, 0, 1) !=
      SkinnedVertex(ExamplePositions, Flatten(BoneLists(w, 2)), Flatten(WeightLists(w, 2)), ms, ms, 0, 1)
  {
    var w := ExampleWeights();
    assert LikeExample(w);
    ExampleBuffers(w);
    assert WeightsFit(w, 2);
    var ms := ExampleMatrices();
    assert AllIdentity(ms);
    ExampleInputsOk(ExampleLists, ExampleGpu, ExampleLists[0] + ExampleLists[1], ms);
    ExampleAsWritten(ExamplePositions, ExampleLists, ExampleGpu, ms);
    ExampleCorrected(ExamplePositions, ExampleLists[0] + ExampleLists[1], ExampleGpu, ms);
  }

  /** The example's buffers meet the bounds of both loops. */
  lemma ExampleInputsOk(lists: seq<seq<int>>, gpu: seq<real>, fb: seq<int>, ms: seq<Mat4>)
    requires lists == ExampleLists && gpu == ExampleGpu && fb == lists[0] + lists[1]
    requires FrameOk(ms, ms, 0)
    ensures CpuInputsOk(ExamplePositions, lists, gpu, ms, ms, 0)
    ensures SlotInputsOk(ExamplePositions, fb, gpu, ms, ms, 0)
    ensures lists[1] == [1] + Fill(Slots - 1, 0) && gpu[..Slots] == [1.0] + Fill(Slots - 1, 0.0)
    ensures fb[Slots..2 * Slots] == [1] + Fill(Slots - 1, 0)
    ensures gpu[Slots..2 * Slots] == [0.5] + Fill(Slots - 1, 0.0)
  {
    PaddedBoneOk(0);
    PaddedBoneOk(1);
    BonesOkConcat(lists[0], lists[1]);
    assert |lists[0]| == Slots && |lists[1]| == Slots && |gpu| == 2 * Slots;
    assert fb[Slots..2 * Slots] == lists[1];
  }

  lemma PaddedBoneOk(j: int)
    requires 0 <= j < NumBones
    ensures BonesOk([j] + Fill(Slots - 1, 0))
  {
  }

  lemma BonesOkConcat(a: seq<int>, b: seq<int>)
    requires BonesOk(a) && BonesOk(b)
    ensures BonesOk(a + b)
  {
  }
}
