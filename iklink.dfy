// The links of the inverse-kinematics arm (ik_assignment/src/Link.cpp): each
// link holds shared pointers to its children and its parent, `add_child`
// hangs a chain of new links below a link, and `draw` walks the tree on the
// matrix stack, pushing and popping around every link.

module IkLinks {
  import opened LinAlg
  import opened MatrixStacks

  /** `SEGMENT_WIDTH`: the length of one link's mesh. */
  const SegmentWidth := 1.0

  /** The angle a new link starts with, `M_PI * 0.1f`. */
  const InitialAngle := Pi * 0.1

  /** The rotation `AngleAxisf(angle, UnitZ())`, given the cosine and sine of
      the angle. */
  function RotZ(c: real, s: real): Mat3 {
    Mat3(Vec3(c, -s, 0.0), Vec3(s, c, 0.0), Vec3(0.0, 0.0, 1.0))
  }

  /** `i_to_p_E`: the translation by (parent_offset, 0, 0) with its rotation
      block overwritten by the link's rotation. */
  function IToP(offset: real, c: real, s: real): Mat4 {
    Affine(RotZ(c, s), Vec3(offset, 0.0, 0.0))
  }

  /** `mesh_to_i_E`: the mesh is centred half a segment along the link's x. */
  function MeshToI(): Mat4 {
    Translation(Vec3(SegmentWidth / 2.0, 0.0, 0.0))
  }

  /** i_to_p_E takes the point x along the link's own x axis to the joint's
      offset plus x along the rotated axis (c, s). */
  lemma IToPOnAxis(offset: real, c: real, s: real, x: real)
    ensures Apply(IToP(offset, c, s), Point(Vec3(x, 0.0, 0.0))) == Point(Vec3(offset + x * c, x * s, 0.0))
  {
    var m := IToP(offset, c, s);
    var p := Point(Vec3(x, 0.0, 0.0));
    assert m.r0 == Vec4(c, -s, 0.0, offset) && m.r1 == Vec4(s, c, 0.0, 0.0);
    assert m.r2 == Vec4(0.0, 0.0, 1.0, 0.0) && m.r3 == Vec4(0.0, 0.0, 0.0, 1.0);
    assert p == Vec4(x, 0.0, 0.0, 1.0);
    assert Dot4(Vec4(c, -s, 0.0, offset), Vec4(x, 0.0, 0.0, 1.0)) == offset + x * c;
    assert Dot4(Vec4(s, c, 0.0, 0.0), Vec4(x, 0.0, 0.0, 1.0)) == x * s;
  }

  /** The link's frames on its own x axis: its mesh's centre, the image of the
      mesh origin under mesh_to_i_E, lies half a segment out, and a child with
      offset `SEGMENT_WIDTH` has its joint, the image of its origin under its
      i_to_p_E, one segment out, at the far end of this link's mesh. */
  lemma FramesOnAxis(c: real, s: real)
    ensures Apply(MeshToI(), Point(Zero3)) == Point(Vec3(SegmentWidth / 2.0, 0.0, 0.0))
    ensures Apply(IToP(SegmentWidth, c, s), Point(Zero3)) == Point(Vec3(SegmentWidth, 0.0, 0.0))
  {
    assert Apply(MeshToI(), Point(Zero3)) == Point(Vec3(SegmentWidth / 2.0, 0.0, 0.0));
  }

  /** Decrementing a count that starts at or below zero never reaches zero, so
      `add_child` with how_many <= 0 would never stop recursing. */
  lemma CountNeverReachesZero(howMany: int, calls: nat)
    requires howMany <= 0
    ensures howMany - (calls + 1) != 0
  {
  }

  class Link {
    var parent: Link?
    var children: seq<Link>
    var angle: real
    /** How far the joint is from the parent's joint. */
    var parentOffset: real

    /** `Link()`: angle 0.1 pi, offset one segment, no parent, no children. */
    constructor ()
      ensures angle == InitialAngle && parentOffset == SegmentWidth
      ensures parent == null && children == []
    {
      angle := Pi * 0.1;
      parentOffset := SegmentWidth;
      parent := null;
      children := [];
    }

    /** `add_child(me, how_many)`: below this link hangs a chain of
        how_many - 1 new links, one child per level; the first one's parent is
        `me` and every later one's parent is the link above it. Nothing else
        of this link changes. */
    method AddChild(me: Link?, howMany: int) returns (ghost chain: seq<Link>)
      requires howMany >= 1
      modifies this
      decreases howMany
      ensures |chain| == howMany - 1
      ensures angle == old(angle) && parentOffset == old(parentOffset) && parent == old(parent)
      ensures howMany == 1 ==> children == old(children)
      ensures howMany > 1 ==> children == old(children) + [chain[0]]
      ensures forall i :: 0 <= i < |chain| ==>
        fresh(chain[i]) && chain[i].angle == InitialAngle && chain[i].parentOffset == SegmentWidth
      ensures forall i :: 0 <= i < |chain| ==> chain[i].parent == if i == 0 then me else chain[i - 1]
      ensures forall i :: 0 <= i < |chain| - 1 ==> chain[i].children == [chain[i + 1]]
      ensures |chain| > 0 ==> chain[|chain| - 1].children == []
      ensures forall i, j :: 0 <= i < j < |chain| ==> chain[i] != chain[j]
    {
      var n := howMany - 1;
      if n == 0 {
        chain := [];
        return;
      }
      var newLink := new Link();
      children := children + [newLink];
      newLink.parent := me;
      ghost var rest := newLink.AddChild(newLink, n);
      assert newLink.parent == me;
      assert forall i :: 0 <= i < |rest| ==> rest[i] != newLink;
      chain := [newLink] + rest;
      forall i | 0 <= i < |chain|
        ensures chain[i].parent == if i == 0 then me else chain[i - 1]
      {
        if i == 0 {
          assert chain[0] == newLink;
        } else {
          assert chain[i] == rest[i - 1];
          assert rest[i - 1].parent == if i - 1 == 0 then newLink else rest[i - 2];
          assert chain[i - 1] == if i == 1 then newLink else rest[i - 2];
        }
      }
      assert forall i :: 1 <= i < |chain| ==> chain[i] == rest[i - 1];
    }

    /** `set_nth_angle`: its body is empty, so it changes nothing. */
    method SetNthAngle(ndx: int, newAngle: real)
      ensures unchanged(this)
    {
    }

    /** The links reachable from here form a tree of depth at most d inside
        `links`. */
    ghost predicate Tree(links: set<Link>, d: nat)
      reads links
      decreases d
    {
      this in links && d > 0 &&
      forall i :: 0 <= i < |children| ==> children[i] in links && children[i].Tree(links, d - 1)
    }

    /** The model-view matrices this link's subtree hands to the shader, in
        drawing order, when the stack's top is `top`: its own mesh at
        top * i_to_p_E * mesh_to_i_E, then each child's subtree seen from
        top * i_to_p_E. */
    ghost function Drawn(top: Mat4, cos: real -> real, sin: real -> real, links: set<Link>, d: nat): seq<Mat4>
      reads links
      requires Tree(links, d)
      decreases d, 1, 0
    {
      var t := Mul(top, IToP(parentOffset, cos(angle), sin(angle)));
      [Mul(t, MeshToI())] + ChildrenDrawn(0, t, cos, sin, links, d)
    }

    /** The matrices of children i.. seen from `top`. */
    ghost function ChildrenDrawn(i: nat, top: Mat4, cos: real -> real, sin: real -> real, links: set<Link>, d: nat): seq<Mat4>
      reads links
      requires Tree(links, d) && i <= |children|
      decreases d, 0, |children| - i
    {
      if i == |children| then []
      else children[i].Drawn(top, cos, sin, links, d - 1) + ChildrenDrawn(i + 1, top, cos, sin, links, d)
    }

    /** `draw`: two pushes, one pop before the children, one after them, so
        the stack is left as it was; the matrices handed to the shader are
        those of `Drawn`. The stack needs room for one more level per link
        on the path down. */
    method Draw(m: MatrixStack, cos: real -> real, sin: real -> real, ghost links: set<Link>, ghost d: nat)
      returns (drawn: seq<Mat4>)
      requires Tree(links, d) && m.Valid() && |m.stack| + d + 1 < MaxDepth
      modifies m
      decreases d, 1, 0
      ensures m.Valid() && m.stack == old(m.stack)
      ensures drawn == Drawn(old(m.Top()), cos, sin, links, d)
    {
      var iToP := IToP(parentOffset, cos(angle), sin(angle));
      ghost var s0 := m.stack;
      ghost var t := Mul(m.Top(), iToP);
      var mv := DrawMesh(m, iToP);
      drawn := [mv];
      var ndx := 0;
      while ndx < |children|
        invariant 0 <= ndx <= |children|
        invariant m.Valid() && m.stack == s0 + [t]
        invariant Tree(links, d)
        invariant drawn + ChildrenDrawn(ndx, t, cos, sin, links, d) == Drawn(old(m.Top()), cos, sin, links, d)
      {
        var sub := children[ndx].Draw(m, cos, sin, links, d - 1);
        AppendChild(drawn, sub, ndx, t, cos, sin, links, d);
        drawn := drawn + sub;
        ndx := ndx + 1;
      }
      m.PopMatrix();
    }

    /** Drawing child i moves its matrices from the pending ones to the drawn. */
    lemma AppendChild(drawn: seq<Mat4>, sub: seq<Mat4>, i: nat, top: Mat4, cos: real -> real, sin: real -> real,
                      links: set<Link>, d: nat)
      requires Tree(links, d) && i < |children|
      requires sub == children[i].Drawn(top, cos, sin, links, d - 1)
      ensures drawn + ChildrenDrawn(i, top, cos, sin, links, d) ==
              (drawn + sub) + ChildrenDrawn(i + 1, top, cos, sin, links, d)
    {
    }

    /** The part of `draw` before the children: push and apply i_to_p_E, push
        and apply mesh_to_i_E, hand the top to the shader, pop once. */
    static method DrawMesh(m: MatrixStack, iToP: Mat4) returns (mv: Mat4)
      requires m.Valid() && |m.stack| + 2 < MaxDepth
      modifies m
      ensures m.Valid() && m.stack == old(m.stack) + [Mul(old(m.Top()), iToP)]
      ensures mv == Mul(Mul(old(m.Top()), iToP), MeshToI())
    {
      ghost var s0 := m.stack;
      ghost var t := Mul(m.Top(), iToP);
      m.PushMatrix();
      m.MultMatrix(iToP);
      assert m.stack == s0 + [t];
      m.PushMatrix();
      m.MultMatrix(MeshToI());
      mv := m.TopMatrix();
      m.PopMatrix();
      assert m.stack == s0 + [t];
    }
  }
}
