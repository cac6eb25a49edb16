// The links of lab 7 (7_lab/src/Link.cpp): a link holds its children by
// value, and `draw` walks the tree on the matrix stack with both of its
// transforms still the identity, pushing and popping around every link.

module Lab7Links {
  import opened LinAlg
  import opened MatrixStacks

  /** A link and, by value, the links below it. */
  datatype Link = Link(angle: real, children: seq<Link>)

  /** `Link()`: a new link has angle 0 and no children. */
  function NewLink(): (l: Link)
    ensures l.angle == 0.0 && l.children == []
  {
    Link(0.0, [])
  }

  /** The number of links on the longest path down from l, l included. */
  function Height(l: Link): nat
    decreases l, 1, 0
  {
    1 + ChildrenHeight(l, 0)
  }

  /** The largest height among children i.. of l (0 when there are none). */
  function ChildrenHeight(l: Link, i: nat): nat
    requires i <= |l.children|
    decreases l, 0, |l.children| - i
  {
    if i == |l.children| then 0
    else
      var h, rest := Height(l.children[i]), ChildrenHeight(l, i + 1);
      if h < rest then rest else h
  }

  /** The number of links in the tree. */
  function Size(l: Link): nat
    decreases l, 1, 0
  {
    1 + ChildrenSize(l, 0)
  }

  function ChildrenSize(l: Link, i: nat): nat
    requires i <= |l.children|
    decreases l, 0, |l.children| - i
  {
    if i == |l.children| then 0 else Size(l.children[i]) + ChildrenSize(l, i + 1)
  }

  /** A child is lower than its parent (take j = 0): the stack needs one level
      less for it. */
  lemma {:induction false} ChildLower(l: Link, i: nat, j: nat)
    requires j <= i < |l.children|
    ensures Height(l.children[i]) <= ChildrenHeight(l, j)
    decreases i - j
  {
    if j < i {
      ChildLower(l, i, j + 1);
    }
  }

  /** The model-view matrices `draw` hands to the shader when the stack's top
      is `top`, in drawing order: the link's own mesh at
      top * i_to_p_E * mesh_to_i_E, then each child's subtree seen from
      top * i_to_p_E. */
  function Drawn(top: Mat4, l: Link): seq<Mat4>
    decreases l, 1, 0
  {
    var t := Mul(top, Identity());
    [Mul(t, Identity())] + ChildrenDrawn(t, l, 0)
  }

  /** The matrices of children i.. of l, seen from `top`. */
  function ChildrenDrawn(top: Mat4, l: Link, i: nat): seq<Mat4>
    requires i <= |l.children|
    decreases l, 0, |l.children| - i
  {
    if i == |l.children| then []
    else Drawn(top, l.children[i]) + ChildrenDrawn(top, l, i + 1)
  }

  /** Both transforms are the identity, so every link of the tree, in
      whatever order, is drawn with the incoming top, once per link. */
  lemma {:induction false} DrawnAllAtTop(top: Mat4, l: Link)
    ensures |Drawn(top, l)| == Size(l)
    ensures forall k :: 0 <= k < |Drawn(top, l)| ==> Drawn(top, l)[k] == top
    decreases l, 1, 0
  {
    MulIdentityRight(top);
    ChildrenDrawnAllAtTop(top, l, 0);
  }

  lemma {:induction false} ChildrenDrawnAllAtTop(top: Mat4, l: Link, i: nat)
    requires i <= |l.children|
    ensures |ChildrenDrawn(top, l, i)| == ChildrenSize(l, i)
    ensures forall k :: 0 <= k < |ChildrenDrawn(top, l, i)| ==> ChildrenDrawn(top, l, i)[k] == top
    decreases l, 0, |l.children| - i
  {
    if i < |l.children| {
      DrawnAllAtTop(top, l.children[i]);
      ChildrenDrawnAllAtTop(top, l, i + 1);
    }
  }

  /** The link's own mesh is drawn first, at top * i_to_p_E * mesh_to_i_E;
      child i's subtree, seen from top * i_to_p_E, comes after the subtrees of
      children 0 .. i-1 and before those of the later children: the children
      are drawn in vector order. */
  lemma {:induction false} ChildOrder(top: Mat4, l: Link, i: nat)
    requires i < |l.children|
    ensures var t := Mul(top, Identity());
      Drawn(top, l) ==
        [Mul(t, Identity())] + ChildrenSlice(t, l, 0, i) + Drawn(t, l.children[i]) + ChildrenDrawn(t, l, i + 1)
  {
    var t := Mul(top, Identity());
    ChildrenSplit(t, l, 0, i);
  }

  /** Children j .. i-1 of l, seen from `top`. */
  function ChildrenSlice(top: Mat4, l: Link, j: nat, i: nat): seq<Mat4>
    requires j <= i <= |l.children|
    decreases i - j
  {
    if j == i then [] else Drawn(top, l.children[j]) + ChildrenSlice(top, l, j + 1, i)
  }

  /** Children j.. are children j .. i-1 followed by children i.. */
  lemma {:induction false} ChildrenSplit(top: Mat4, l: Link, j: nat, i: nat)
    requires j <= i <= |l.children|
    ensures ChildrenDrawn(top, l, j) == ChildrenSlice(top, l, j, i) + ChildrenDrawn(top, l, i)
    decreases i - j
  {
    if j < i {
      ChildrenSplit(top, l, j + 1, i);
    }
  }

  /** `draw`: two pushes, one pop before the children and one after them, so
      the stack is left as it was; the matrices handed to the shader are those
      of `Drawn`. The stack needs room for one more level per link on the
      longest path down. */
  method Draw(m: MatrixStack, l: Link) returns (drawn: seq<Mat4>)
    requires m.Valid() && |m.stack| + Height(l) + 1 < MaxDepth
    modifies m
    decreases l
    ensures m.Valid() && m.stack == old(m.stack)
    ensures drawn == Drawn(old(m.Top()), l)
  {
    ghost var s0 := m.stack;
    ghost var t := Mul(m.Top(), Identity());
    var mv := DrawMesh(m);
    drawn := [mv];
    var ndx := 0;
    while ndx < |l.children|
      invariant 0 <= ndx <= |l.children|
      invariant m.Valid() && m.stack == s0 + [t]
      invariant drawn + ChildrenDrawn(t, l, ndx) == Drawn(old(m.Top()), l)
    {
      ChildLower(l, ndx, 0);
      var sub := Draw(m, l.children[ndx]);
      drawn := drawn + sub;
      ndx := ndx + 1;
    }
    m.PopMatrix();
  }

  /** The part of `draw` before the children: push and apply the identity
      i_to_p_E, push and apply the identity mesh_to_i_E, hand the top to the
      shader, pop once. */
  method DrawMesh(m: MatrixStack) returns (mv: Mat4)
    requires m.Valid() && |m.stack| + 2 < MaxDepth
    modifies m
    ensures m.Valid() && m.stack == old(m.stack) + [Mul(old(m.Top()), Identity())]
    ensures mv == Mul(Mul(old(m.Top()), Identity()), Identity())
  {
    ghost var s0 := m.stack;
    ghost var t := Mul(m.Top(), Identity());
    m.PushMatrix();
    m.MultMatrix(Identity());
    assert m.stack == s0 + [t];
    m.PushMatrix();
    m.MultMatrix(Identity());
    mv := m.TopMatrix();
    m.PopMatrix();
    assert m.stack == s0 + [t];
  }
}
