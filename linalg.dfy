// Small fixed-size linear algebra over the reals, standing in for the Eigen
// vector and matrix types the labs use (Vector2f, Vector3f/d, Vector4f,
// Matrix3f, Matrix4f). Every float or double of the C++ code is a real here.

module Options {
  datatype Option<T> = None | Some(value: T)
}

module LinAlg {

  datatype Vec2 = Vec2(x: real, y: real)
  datatype Vec3 = Vec3(x: real, y: real, z: real)
  datatype Vec4 = Vec4(x: real, y: real, z: real, w: real)

  /** A 3x3 matrix given by its rows. */
  datatype Mat3 = Mat3(r0: Vec3, r1: Vec3, r2: Vec3)

  /** A 4x4 matrix given by its rows. */
  datatype Mat4 = Mat4(r0: Vec4, r1: Vec4, r2: Vec4, r3: Vec4)

  // ---- 2-vectors ----

  function Add2(a: Vec2, b: Vec2): Vec2 { Vec2(a.x + b.x, a.y + b.y) }
  function Sub2(a: Vec2, b: Vec2): Vec2 { Vec2(a.x - b.x, a.y - b.y) }
  function Scale2(s: real, a: Vec2): Vec2 { Vec2(s * a.x, s * a.y) }
  function SqLen2(a: Vec2): real { a.x * a.x + a.y * a.y }

  // ---- 3-vectors ----

  const Zero3 := Vec3(0.0, 0.0, 0.0)

  function Add3(a: Vec3, b: Vec3): Vec3 { Vec3(a.x + b.x, a.y + b.y, a.z + b.z) }
  function Sub3(a: Vec3, b: Vec3): Vec3 { Vec3(a.x - b.x, a.y - b.y, a.z - b.z) }
  function Neg3(a: Vec3): Vec3 { Vec3(-a.x, -a.y, -a.z) }
  function Scale3(s: real, a: Vec3): Vec3 { Vec3(s * a.x, s * a.y, s * a.z) }
  function SqLen3(a: Vec3): real { a.x * a.x + a.y * a.y + a.z * a.z }

  /** The first three coordinates of a homogeneous 4-vector. */
  function Xyz(v: Vec4): Vec3 { Vec3(v.x, v.y, v.z) }

  /** A point in homogeneous coordinates (w = 1). */
  function Point(p: Vec3): Vec4 { Vec4(p.x, p.y, p.z, 1.0) }

  // ---- 4-vectors and 4x4 matrices ----

  function Add4(a: Vec4, b: Vec4): Vec4 { Vec4(a.x + b.x, a.y + b.y, a.z + b.z, a.w + b.w) }
  function Scale4(s: real, a: Vec4): Vec4 { Vec4(s * a.x, s * a.y, s * a.z, s * a.w) }
  function Dot4(a: Vec4, b: Vec4): real { a.x * b.x + a.y * b.y + a.z * b.z + a.w * b.w }

  const Zero4 := Vec4(0.0, 0.0, 0.0, 0.0)

  /** `M_PI`, to the digits of the C library's definition. */
  const Pi := 3.14159265358979323846

  function Identity(): Mat4 {
    Mat4(Vec4(1.0, 0.0, 0.0, 0.0),
         Vec4(0.0, 1.0, 0.0, 0.0),
         Vec4(0.0, 0.0, 1.0, 0.0),
         Vec4(0.0, 0.0, 0.0, 1.0))
  }

  function ZeroMat(): Mat4 { Mat4(Zero4, Zero4, Zero4, Zero4) }

  /** Column j (0..3) of m. */
  function Col(m: Mat4, j: nat): Vec4
    requires j < 4
  {
    if j == 0 then Vec4(m.r0.x, m.r1.x, m.r2.x, m.r3.x)
    else if j == 1 then Vec4(m.r0.y, m.r1.y, m.r2.y, m.r3.y)
    else if j == 2 then Vec4(m.r0.z, m.r1.z, m.r2.z, m.r3.z)
    else Vec4(m.r0.w, m.r1.w, m.r2.w, m.r3.w)
  }

  /** Matrix times column vector. */
  function Apply(m: Mat4, v: Vec4): Vec4 {
    Vec4(Dot4(m.r0, v), Dot4(m.r1, v), Dot4(m.r2, v), Dot4(m.r3, v))
  }

  /** One row of a product: row r of the left factor times b. */
  function RowTimes(r: Vec4, b: Mat4): Vec4 {
    Vec4(Dot4(r, Col(b, 0)), Dot4(r, Col(b, 1)), Dot4(r, Col(b, 2)), Dot4(r, Col(b, 3)))
  }

  /** The matrix product a * b (Eigen's `a *= b` stores this in a). */
  function Mul(a: Mat4, b: Mat4): Mat4 {
    Mat4(RowTimes(a.r0, b), RowTimes(a.r1, b), RowTimes(a.r2, b), RowTimes(a.r3, b))
  }

  function ScaleMat(s: real, m: Mat4): Mat4 {
    Mat4(Scale4(s, m.r0), Scale4(s, m.r1), Scale4(s, m.r2), Scale4(s, m.r3))
  }

  /** Identity with its upper-left 3x3 block replaced by `rot` and its last
      column's first three entries replaced by `t` (Eigen's block assignments). */
  function Affine(rot: Mat3, t: Vec3): Mat4 {
    Mat4(Vec4(rot.r0.x, rot.r0.y, rot.r0.z, t.x),
         Vec4(rot.r1.x, rot.r1.y, rot.r1.z, t.y),
         Vec4(rot.r2.x, rot.r2.y, rot.r2.z, t.z),
         Vec4(0.0, 0.0, 0.0, 1.0))
  }

  lemma NegAdd3(a: Vec3, b: Vec3)
    ensures Neg3(Add3(a, b)) == Add3(Neg3(a), Neg3(b))
  {
  }

  lemma ScaleAdd3(s: real, a: Vec3, b: Vec3)
    ensures Scale3(s, Add3(a, b)) == Add3(Scale3(s, a), Scale3(s, b))
  {
  }

  lemma MulIdentityRight(m: Mat4)
    ensures Mul(m, Identity()) == m
  {
  }

  lemma ApplyIdentity(v: Vec4)
    ensures Apply(Identity(), v) == v
  {
  }

  /** Matrix products act on vectors one factor after the other. */
  lemma ApplyMul(a: Mat4, b: Mat4, v: Vec4)
    ensures Apply(Mul(a, b), v) == Apply(a, Apply(b, v))
  {
    RowTimesDot(a.r0, b, v);
    RowTimesDot(a.r1, b, v);
    RowTimesDot(a.r2, b, v);
    RowTimesDot(a.r3, b, v);
  }

  lemma RowTimesDot(r: Vec4, b: Mat4, v: Vec4)
    ensures Dot4(RowTimes(r, b), v) == Dot4(r, Apply(b, v))
  {
    var p := Add4(Scale4(r.x, b.r0), Scale4(r.y, b.r1));
    var q := Add4(p, Scale4(r.z, b.r2));
    RowTimesCombines(r, b);
    DotAdd(q, Scale4(r.w, b.r3), v);
    DotAdd(p, Scale4(r.z, b.r2), v);
    DotAdd(Scale4(r.x, b.r0), Scale4(r.y, b.r1), v);
    DotScale(r.x, b.r0, v);
    DotScale(r.y, b.r1, v);
    DotScale(r.z, b.r2, v);
    DotScale(r.w, b.r3, v);
  }

  /** Row r times b is the combination of b's rows with r's entries. */
  lemma RowTimesCombines(r: Vec4, b: Mat4)
    ensures RowTimes(r, b) == Add4(Add4(Add4(Scale4(r.x, b.r0), Scale4(r.y, b.r1)), Scale4(r.z, b.r2)),
                                   Scale4(r.w, b.r3))
  {
    assert Col(b, 0) == Vec4(b.r0.x, b.r1.x, b.r2.x, b.r3.x);
    assert Col(b, 1) == Vec4(b.r0.y, b.r1.y, b.r2.y, b.r3.y);
    assert Col(b, 2) == Vec4(b.r0.z, b.r1.z, b.r2.z, b.r3.z);
    assert Col(b, 3) == Vec4(b.r0.w, b.r1.w, b.r2.w, b.r3.w);
  }

  lemma DotAdd(a: Vec4, b: Vec4, v: Vec4)
    ensures Dot4(Add4(a, b), v) == Dot4(a, v) + Dot4(b, v)
  {
  }

  lemma DotScale(s: real, a: Vec4, v: Vec4)
    ensures Dot4(Scale4(s, a), v) == s * Dot4(a, v)
  {
  }

  // ---- non-polynomial operations ----

  /** sqrt and pow(., 3/2) are not defined here: they are supplied by the
      caller, and only the facts of `Sound` are known about them. */
  datatype Maths = Maths(sqrt: real -> real, pow32: real -> real)

  ghost predicate Sound(m: Maths) {
    (forall x: real :: x >= 0.0 ==> m.sqrt(x) >= 0.0) &&
    (forall x: real :: x > 0.0 ==> m.pow32(x) > 0.0)
  }

  /** Eigen's `norm()`: the square root of the squared length, so it depends
      on the vector only through its squared length. */
  function Norm3(m: Maths, v: Vec3): real { m.sqrt(SqLen3(v)) }
  function Norm2(m: Maths, v: Vec2): real { m.sqrt(SqLen2(v)) }

  lemma SqLen3NonNeg(v: Vec3)
    ensures SqLen3(v) >= 0.0
  {
    assert v.x * v.x >= 0.0 && v.y * v.y >= 0.0 && v.z * v.z >= 0.0;
  }

  lemma SqLen2NonNeg(v: Vec2)
    ensures SqLen2(v) >= 0.0
  {
    assert v.x * v.x >= 0.0 && v.y * v.y >= 0.0;
  }

  lemma Norm3NonNeg(m: Maths, v: Vec3)
    requires Sound(m)
    ensures Norm3(m, v) >= 0.0
  {
    SqLen3NonNeg(v);
  }

  lemma Norm2NonNeg(m: Maths, v: Vec2)
    requires Sound(m)
    ensures Norm2(m, v) >= 0.0
  {
    SqLen2NonNeg(v);
  }
}
