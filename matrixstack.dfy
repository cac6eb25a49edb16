// The lab matrix stack (3_lab/src/MatrixStack.cpp): a stack of 4x4 matrices
// that always keeps at least one entry and whose operations post-multiply
// or overwrite the top matrix.

module MatrixStacks {
  import opened LinAlg

  /** `pushMatrix` asserts that the depth stays below this bound. */
  const MaxDepth: nat := 100

  /** Identity with last column (t, 1): the matrix `translate` multiplies by. */
  function Translation(t: Vec3): Mat4 {
    Mat4(Vec4(1.0, 0.0, 0.0, t.x),
         Vec4(0.0, 1.0, 0.0, t.y),
         Vec4(0.0, 0.0, 1.0, t.z),
         Vec4(0.0, 0.0, 0.0, 1.0))
  }

  /** Identity with diagonal (s.x, s.y, s.z, 1): the matrix `scale` multiplies by. */
  function Scaling(s: Vec3): Mat4 {
    Mat4(Vec4(s.x, 0.0, 0.0, 0.0),
         Vec4(0.0, s.y, 0.0, 0.0),
         Vec4(0.0, 0.0, s.z, 0.0),
         Vec4(0.0, 0.0, 0.0, 1.0))
  }

  /** The orthographic projection `ortho` stores in the top. */
  function OrthoMatrix(l: real, r: real, b: real, t: real, n: real, f: real): Mat4
    requires l != r && b != t && n != f
  {
    Mat4(Vec4(2.0 / (r - l), 0.0, 0.0, -(r + l) / (r - l)),
         Vec4(0.0, 2.0 / (t - b), 0.0, -(t + b) / (t - b)),
         Vec4(0.0, 0.0, -2.0 / (f - n), -(f + n) / (f - n)),
         Vec4(0.0, 0.0, 0.0, 1.0))
  }

  /** The perspective frustum `frustum` stores in the top (all 16 entries). */
  function FrustumMatrix(l: real, r: real, b: real, t: real, n: real, f: real): Mat4
    requires l != r && b != t && n != f
  {
    var x := (2.0 * n) / (r - l);
    var y := (2.0 * n) / (t - b);
    var a := (r + l) / (r - l);
    var bb := (t + b) / (t - b);
    var c := -(f + n) / (f - n);
    var d := -(2.0 * f * n) / (f - n);
    Mat4(Vec4(x, 0.0, a, 0.0),
         Vec4(0.0, y, bb, 0.0),
         Vec4(0.0, 0.0, c, d),
         Vec4(0.0, 0.0, -1.0, 0.0))
  }

  /** The stack after `pushMatrix`: the top is duplicated. */
  function Pushed(s: seq<Mat4>): (r: seq<Mat4>)
    requires |s| >= 1
    ensures |r| == |s| + 1 && r[..|s|] == s && r[|s|] == s[|s| - 1]
  {
    s + [s[|s| - 1]]
  }

  /** The stack after `popMatrix`: the top is removed. */
  function Popped(s: seq<Mat4>): (r: seq<Mat4>)
    requires |s| >= 1
    ensures |r| == |s| - 1 && s == r + [s[|s| - 1]]
  {
    s[..|s| - 1]
  }

  /** The stack with its top replaced by m and every entry below kept. */
  function WithTop(s: seq<Mat4>, m: Mat4): (r: seq<Mat4>)
    requires |s| >= 1
    ensures |r| == |s| && r[..|s| - 1] == s[..|s| - 1] && r[|s| - 1] == m
  {
    s[..|s| - 1] + [m]
  }

  class MatrixStack {
    /** The stack, bottom first; the top is the last entry. */
    var stack: seq<Mat4>

    ghost predicate Valid()
      reads this
    {
      1 <= |stack| < MaxDepth
    }

    /** `topMatrix`. */
    function Top(): Mat4
      reads this
      requires Valid()
    {
      stack[|stack| - 1]
    }

    constructor ()
      ensures Valid() && stack == [Identity()]
    {
      stack := [Identity()];
    }

    /** Duplicates the top; the source asserts the new depth is below 100. */
    method PushMatrix()
      requires Valid() && |stack| + 1 < MaxDepth
      modifies this
      ensures Valid() && stack == Pushed(old(stack)) && Top() == old(Top())
    {
      stack := stack + [stack[|stack| - 1]];
    }

    /** Removes the top; the source asserts a matrix is left afterwards. */
    method PopMatrix()
      requires Valid() && |stack| >= 2
      modifies this
      ensures Valid() && stack == Popped(old(stack))
    {
      stack := stack[..|stack| - 1];
    }

    method LoadIdentity()
      requires Valid()
      modifies this
      ensures Valid() && stack == WithTop(old(stack), Identity())
    {
      stack := stack[..|stack| - 1] + [Identity()];
    }

    method Translate(t: Vec3)
      requires Valid()
      modifies this
      ensures Valid() && stack == WithTop(old(stack), Mul(old(Top()), Translation(t)))
    {
      var top := stack[|stack| - 1];
      stack := stack[..|stack| - 1] + [Mul(top, Translation(t))];
    }

    /** `scale(const Vector3f &)`. */
    method ScaleVec(s: Vec3)
      requires Valid()
      modifies this
      ensures Valid() && stack == WithTop(old(stack), Mul(old(Top()), Scaling(s)))
    {
      var top := stack[|stack| - 1];
      stack := stack[..|stack| - 1] + [Mul(top, Scaling(s))];
    }

    /** `scale(float)`: the same effect as scaling by (s, s, s). */
    method ScaleUniform(s: real)
      requires Valid()
      modifies this
      ensures Valid() && stack == WithTop(old(stack), Mul(old(Top()), Scaling(Vec3(s, s, s))))
    {
      var e := Identity();
      e := e.(r0 := e.r0.(x := s), r1 := e.r1.(y := s), r2 := e.r2.(z := s));
      var top := stack[|stack| - 1];
      stack := stack[..|stack| - 1] + [Mul(top, e)];
    }

    method MultMatrix(m: Mat4)
      requires Valid()
      modifies this
      ensures Valid() && stack == WithTop(old(stack), Mul(old(Top()), m))
    {
      var top := stack[|stack| - 1];
      stack := stack[..|stack| - 1] + [Mul(top, m)];
    }

    /** Overwrites the top with an orthographic projection; the source asserts
        the three pairs of planes are distinct. */
    method Ortho(l: real, r: real, b: real, t: real, n: real, f: real)
      requires Valid() && l != r && b != t && n != f
      modifies this
      ensures Valid() && stack == WithTop(old(stack), OrthoMatrix(l, r, b, t, n, f))
    {
      var m := ZeroMat();
      m := m.(r0 := m.r0.(x := 2.0 / (r - l)));
      m := m.(r1 := m.r1.(y := 2.0 / (t - b)));
      m := m.(r2 := m.r2.(z := -2.0 / (f - n)));
      m := m.(r0 := m.r0.(w := -(r + l) / (r - l)));
      m := m.(r1 := m.r1.(w := -(t + b) / (t - b)));
      m := m.(r2 := m.r2.(w := -(f + n) / (f - n)));
      m := m.(r3 := m.r3.(w := 1.0));
      stack := stack[..|stack| - 1] + [m];
    }

    method Ortho2D(l: real, r: real, b: real, t: real)
      requires Valid() && l != r && b != t
      modifies this
      ensures Valid() && stack == WithTop(old(stack), OrthoMatrix(l, r, b, t, -1.0, 1.0))
    {
      Ortho(l, r, b, t, -1.0, 1.0);
    }

    /** Overwrites all 16 entries of the top, whatever it held before. */
    method Frustum(l: real, r: real, b: real, t: real, n: real, f: real)
      requires Valid() && l != r && b != t && n != f
      modifies this
      ensures Valid() && stack == WithTop(old(stack), FrustumMatrix(l, r, b, t, n, f))
    {
      var x := (2.0 * n) / (r - l);
      var y := (2.0 * n) / (t - b);
      var a := (r + l) / (r - l);
      var bb := (t + b) / (t - b);
      var c := -(f + n) / (f - n);
      var d := -(2.0 * f * n) / (f - n);
      var m := Mat4(Vec4(x, 0.0, a, 0.0),
                    Vec4(0.0, y, bb, 0.0),
                    Vec4(0.0, 0.0, c, d),
                    Vec4(0.0, 0.0, -1.0, 0.0));
      stack := stack[..|stack| - 1] + [m];
    }

    /** `topMatrix`, read without changing anything. */
    method TopMatrix() returns (m: Mat4)
      requires Valid()
      ensures m == stack[|stack| - 1]
    {
      m := stack[|stack| - 1];
    }
  }

  // ---- properties ----

  /** `popMatrix` right after `pushMatrix` gives back the stack exactly. */
  lemma PopAfterPush(s: seq<Mat4>)
    requires |s| >= 1
    ensures Popped(Pushed(s)) == s
  {
  }

  /** Post-multiplying by a translation moves every point by t before the
      old top is applied. */
  lemma TranslateMovesPoints(m: Mat4, t: Vec3, p: Vec3)
    ensures Apply(Mul(m, Translation(t)), Point(p)) == Apply(m, Point(Add3(p, t)))
  {
    ApplyMul(m, Translation(t), Point(p));
  }

  /** Post-multiplying by a scaling scales every point before the old top is applied. */
  lemma ScaleScalesPoints(m: Mat4, s: Vec3, p: Vec3)
    ensures Apply(Mul(m, Scaling(s)), Point(p)) == Apply(m, Point(Vec3(s.x * p.x, s.y * p.y, s.z * p.z)))
  {
    ApplyMul(m, Scaling(s), Point(p));
  }

  /** `ortho` maps the corner (left, bottom, -near) to (-1, -1, -1) and the
      corner (right, top, -far) to (1, 1, 1). */
  lemma OrthoMapsBox(l: real, r: real, b: real, t: real, n: real, f: real)
    requires l != r && b != t && n != f
    ensures Apply(OrthoMatrix(l, r, b, t, n, f), Point(Vec3(l, b, -n))) == Point(Vec3(-1.0, -1.0, -1.0))
    ensures Apply(OrthoMatrix(l, r, b, t, n, f), Point(Vec3(r, t, -f))) == Point(Vec3(1.0, 1.0, 1.0))
  {
    OrthoAxis(l, r);
    OrthoAxis(b, t);
    OrthoAxis(-n, -f);
    assert -2.0 / (f - n) == 2.0 / (-f - -n);
    assert -(f + n) / (f - n) == -(-f + -n) / (-f - -n);
  }

  /** One axis of `ortho`: x = lo goes to -1 and x = hi goes to 1. */
  lemma OrthoAxis(lo: real, hi: real)
    requires lo != hi
    ensures 2.0 / (hi - lo) * lo - (hi + lo) / (hi - lo) == -1.0
    ensures 2.0 / (hi - lo) * hi - (hi + lo) / (hi - lo) == 1.0
  {
    var d := hi - lo;
    assert 2.0 / d * lo == (2.0 * lo) / d;
    assert 2.0 / d * hi == (2.0 * hi) / d;
    assert (2.0 * lo) / d - (hi + lo) / d == (lo - hi) / d;
    assert (2.0 * hi) / d - (hi + lo) / d == (hi - lo) / d;
  }

  /** The frustum sends the near lower-left corner to clip coordinates
      (-n, -n, -n, n), that is to (-1, -1, -1) after the divide by w. */
  lemma FrustumNearCorner(l: real, r: real, b: real, t: real, n: real, f: real)
    requires l != r && b != t && n != f
    ensures Apply(FrustumMatrix(l, r, b, t, n, f), Point(Vec3(l, b, -n))) == Vec4(-n, -n, -n, n)
  {
    FrustumAxisNear(l, r, n);
    FrustumAxisNear(b, t, n);
    FrustumDepth(n, f);
  }

  /** The frustum sends the far upper-right corner (r f / n, t f / n, -f) to
      clip coordinates (f, f, f, f), that is to (1, 1, 1) after the divide. */
  lemma FrustumFarCorner(l: real, r: real, b: real, t: real, n: real, f: real)
    requires l != r && b != t && n != f && n != 0.0
    ensures Apply(FrustumMatrix(l, r, b, t, n, f), Point(Vec3(r * f / n, t * f / n, -f))) == Vec4(f, f, f, f)
  {
    FrustumAxisFar(l, r, n, f);
    FrustumAxisFar(b, t, n, f);
    FrustumDepth(n, f);
  }

  lemma FrustumAxisNear(lo: real, hi: real, n: real)
    requires lo != hi
    ensures (2.0 * n) / (hi - lo) * lo + (hi + lo) / (hi - lo) * -n == -n
  {
    var d := hi - lo;
    assert (2.0 * n) / d * lo == (2.0 * n * lo) / d;
    assert (hi + lo) / d * -n == (-(hi + lo) * n) / d;
    assert (2.0 * n * lo) / d + (-(hi + lo) * n) / d == (n * (lo - hi)) / d;
  }

  lemma FrustumAxisFar(lo: real, hi: real, n: real, f: real)
    requires lo != hi && n != 0.0
    ensures (2.0 * n) / (hi - lo) * (hi * f / n) + (hi + lo) / (hi - lo) * -f == f
  {
    var d := hi - lo;
    assert hi * f / n * n == hi * f;
    assert (2.0 * n) / d * (hi * f / n) == (2.0 * hi * f) / d;
    assert (hi + lo) / d * -f == (-(hi + lo) * f) / d;
    assert (2.0 * hi * f) / d + (-(hi + lo) * f) / d == (f * (hi - lo)) / d;
  }

  /** The depth row of the frustum: z = -near gives -near and z = -far gives far. */
  lemma FrustumDepth(n: real, f: real)
    requires n != f
    ensures -(f + n) / (f - n) * -n + -(2.0 * f * n) / (f - n) == -n
    ensures -(f + n) / (f - n) * -f + -(2.0 * f * n) / (f - n) == f
  {
    var d := f - n;
    assert -(f + n) / d * -n + -(2.0 * f * n) / d == ((f + n) * n - 2.0 * f * n) / d;
    assert (f + n) * n - 2.0 * f * n == -n * d;
    assert -(f + n) / d * -f + -(2.0 * f * n) / d == ((f + n) * f - 2.0 * f * n) / d;
    assert (f + n) * f - 2.0 * f * n == f * d;
  }
}
