/**
 * Vectors, matrices, quaternions and homogeneous transforms over the reals,
 * shared by the pose utilities, the Startouch SDK and the replay scripts.
 * numpy's trigonometry and scipy's `Rotation` conversions are not defined
 * here: they are records of functions handed in by the caller, with only
 * the facts a proof needs stated as predicates over them.
 */
module Geometry {
  type Vector = seq<real>
  type Matrix = seq<seq<real>>

  predicate IsMatrix(m: Matrix, rows: nat, cols: nat)
  {
    |m| == rows && forall i :: 0 <= i < rows ==> |m[i]| == cols
  }

  function Add(u: Vector, v: Vector): (w: Vector)
    requires |u| == |v|
    ensures |w| == |u| && forall i :: 0 <= i < |u| ==> w[i] == u[i] + v[i]
  {
    seq(|u|, i requires 0 <= i < |u| => u[i] + v[i])
  }

  function Sub(u: Vector, v: Vector): (w: Vector)
    requires |u| == |v|
    ensures |w| == |u| && forall i :: 0 <= i < |u| ==> w[i] == u[i] - v[i]
  {
    seq(|u|, i requires 0 <= i < |u| => u[i] - v[i])
  }

  function Scale(c: real, v: Vector): (w: Vector)
    ensures |w| == |v| && forall i :: 0 <= i < |v| ==> w[i] == c * v[i]
  {
    seq(|v|, i requires 0 <= i < |v| => c * v[i])
  }

  function Dot(u: Vector, v: Vector): (d: real)
    requires |u| == |v|
  {
    if u == [] then 0.0 else u[0] * v[0] + Dot(u[1..], v[1..])
  }

  lemma Dot3(u: Vector, v: Vector)
    requires |u| == |v| == 3
    ensures Dot(u, v) == u[0] * v[0] + u[1] * v[1] + u[2] * v[2]
  {
    assert Dot(u[2..], v[2..]) == u[2] * v[2] by {
      assert u[2..][1..] == [];
    }
    assert u[1..][1..] == u[2..] && v[1..][1..] == v[2..];
  }

  lemma Dot4(u: Vector, v: Vector)
    requires |u| == |v| == 4
    ensures Dot(u, v) == u[0] * v[0] + u[1] * v[1] + u[2] * v[2] + u[3] * v[3]
  {
    Dot3(u[1..], v[1..]);
  }

  /** Column `j` of a matrix whose rows are all longer than `j`. */
  function Column(m: Matrix, j: nat): (c: Vector)
    requires forall i :: 0 <= i < |m| ==> j < |m[i]|
    ensures |c| == |m| && forall i :: 0 <= i < |m| ==> c[i] == m[i][j]
  {
    seq(|m|, i requires 0 <= i < |m| => m[i][j])
  }

  /** The matrix product `a @ b` of an r×k and a k×c matrix. */
  function MatMul(a: Matrix, b: Matrix, k: nat, c: nat): (p: Matrix)
    requires IsMatrix(a, |a|, k) && IsMatrix(b, k, c)
    ensures IsMatrix(p, |a|, c)
    ensures forall i, j :: 0 <= i < |a| && 0 <= j < c ==> p[i][j] == Dot(a[i], Column(b, j))
  {
    seq(|a|, i requires 0 <= i < |a| => seq(c, j requires 0 <= j < c => Dot(a[i], Column(b, j))))
  }

  function MatVec(m: Matrix, v: Vector): (w: Vector)
    requires IsMatrix(m, |m|, |v|)
    ensures |w| == |m| && forall i :: 0 <= i < |m| ==> w[i] == Dot(m[i], v)
  {
    seq(|m|, i requires 0 <= i < |m| => Dot(m[i], v))
  }

  function Identity(n: nat): (m: Matrix)
    ensures IsMatrix(m, n, n)
    ensures forall i, j :: 0 <= i < n && 0 <= j < n ==> m[i][j] == if i == j then 1.0 else 0.0
  {
    seq(n, i requires 0 <= i < n => seq(n, j requires 0 <= j < n => if i == j then 1.0 else 0.0))
  }

  lemma MatVecIdentity(p: Vector)
    requires |p| == 3
    ensures MatVec(Identity(3), p) == p
  {
    var id := Identity(3);
    forall i | 0 <= i < 3
      ensures MatVec(id, p)[i] == p[i]
    {
      Dot3(id[i], p);
    }
  }

  /** The 3×3 identity is a two-sided unit of the matrix product. */
  lemma MatMulIdentity(r: Matrix)
    requires IsMatrix(r, 3, 3)
    ensures MatMul(Identity(3), r, 3, 3) == r && MatMul(r, Identity(3), 3, 3) == r
  {
    var left := MatMul(Identity(3), r, 3, 3);
    var right := MatMul(r, Identity(3), 3, 3);
    forall i, j | 0 <= i < 3 && 0 <= j < 3
      ensures left[i][j] == r[i][j] && right[i][j] == r[i][j]
    {
      IdentityDot(r, i, j);
    }
    assert left[0] == r[0] && left[1] == r[1] && left[2] == r[2];
    assert right[0] == r[0] && right[1] == r[1] && right[2] == r[2];
  }

  lemma IdentityDot(r: Matrix, i: nat, j: nat)
    requires IsMatrix(r, 3, 3) && i < 3 && j < 3
    ensures Dot(Identity(3)[i], Column(r, j)) == r[i][j]
    ensures Dot(r[i], Column(Identity(3), j)) == r[i][j]
  {
    var id := Identity(3);
    Dot3(id[i], Column(r, j));
    Dot3(r[i], Column(id, j));
  }

  /** The 4×4 transform with rotation `r` in the upper-left block, translation `p` in the last column, bottom row [0, 0, 0, 1]. */
  function Homogeneous(r: Matrix, p: Vector): (t: Matrix)
    requires IsMatrix(r, 3, 3) && |p| == 3
    ensures IsMatrix(t, 4, 4)
    ensures forall i, j :: 0 <= i < 3 && 0 <= j < 3 ==> t[i][j] == r[i][j]
    ensures forall i :: 0 <= i < 3 ==> t[i][3] == p[i]
    ensures t[3] == [0.0, 0.0, 0.0, 1.0]
  {
    [r[0] + [p[0]], r[1] + [p[1]], r[2] + [p[2]], [0.0, 0.0, 0.0, 1.0]]
  }

  /** `T[:3, :3]` */
  function RotationBlock(t: Matrix): (r: Matrix)
    requires IsMatrix(t, 4, 4)
    ensures IsMatrix(r, 3, 3) && forall i, j :: 0 <= i < 3 && 0 <= j < 3 ==> r[i][j] == t[i][j]
  {
    [t[0][..3], t[1][..3], t[2][..3]]
  }

  /** `T[:3, 3]` */
  function Translation(t: Matrix): (p: Vector)
    requires IsMatrix(t, 4, 4)
    ensures |p| == 3 && forall i :: 0 <= i < 3 ==> p[i] == t[i][3]
  {
    [t[0][3], t[1][3], t[2][3]]
  }

  lemma HomogeneousParts(r: Matrix, p: Vector)
    requires IsMatrix(r, 3, 3) && |p| == 3
    ensures RotationBlock(Homogeneous(r, p)) == r && Translation(Homogeneous(r, p)) == p
  {
    var t := Homogeneous(r, p);
    assert RotationBlock(t)[0] == r[0] && RotationBlock(t)[1] == r[1] && RotationBlock(t)[2] == r[2];
  }

  /**
   * Multiplying any 4×4 matrix `a` by a homogeneous transform: the result's
   * rotation block is `a`'s block times `r`, and its translation is `a`'s
   * block applied to `p` plus `a`'s translation.
   */
  lemma {:induction false} ComposeHomogeneous(a: Matrix, r: Matrix, p: Vector)
    requires IsMatrix(a, 4, 4) && IsMatrix(r, 3, 3) && |p| == 3
    ensures RotationBlock(MatMul(a, Homogeneous(r, p), 4, 4)) == MatMul(RotationBlock(a), r, 3, 3)
    ensures Translation(MatMul(a, Homogeneous(r, p), 4, 4)) == Add(MatVec(RotationBlock(a), p), Translation(a))
  {
    var h := Homogeneous(r, p);
    var t := MatMul(a, h, 4, 4);
    var ra := RotationBlock(a);
    var lhs := RotationBlock(t);
    var rhs := MatMul(ra, r, 3, 3);
    forall i, j | 0 <= i < 3 && 0 <= j < 3
      ensures lhs[i][j] == rhs[i][j]
    {
      Dot4(a[i], Column(h, j));
      Dot3(ra[i], Column(r, j));
    }
    assert lhs[0] == rhs[0] && lhs[1] == rhs[1] && lhs[2] == rhs[2];
    forall i | 0 <= i < 3
      ensures Translation(t)[i] == Add(MatVec(ra, p), Translation(a))[i]
    {
      Dot4(a[i], Column(h, 3));
      Dot3(ra[i], p);
    }
  }

  /** A quaternion with scalar part `w`. */
  /** The absolute value, as `abs` and `np.abs` give it. */
  function Abs(v: real): (a: real)
    ensures a >= 0.0 && (a == v || a == -v)
  {
    if v < 0.0 then -v else v
  }

  datatype Quat = Quat(w: real, x: real, y: real, z: real)

  const IdentityQuat := Quat(1.0, 0.0, 0.0, 0.0)

  /** As a [w, x, y, z] array. */
  function Wxyz(q: Quat): (s: Vector)
    ensures |s| == 4 && s[0] == q.w && s[1..] == [q.x, q.y, q.z]
  {
    [q.w, q.x, q.y, q.z]
  }

  /** As a scalar-last [x, y, z, w] array, scipy's convention. */
  function Xyzw(q: Quat): (s: Vector)
    ensures |s| == 4 && s[3] == q.w && s[..3] == [q.x, q.y, q.z]
  {
    [q.x, q.y, q.z, q.w]
  }

  function FromWxyz(s: Vector): (q: Quat)
    requires |s| == 4
    ensures Wxyz(q) == s
  {
    Quat(s[0], s[1], s[2], s[3])
  }

  function FromXyzw(s: Vector): (q: Quat)
    requires |s| == 4
    ensures Xyzw(q) == s
  {
    Quat(s[3], s[0], s[1], s[2])
  }

  /** Reading a scalar-first array as scalar-last and back loses nothing, and the two orders agree on the quaternion. */
  lemma ReorderRoundTrip(q: Quat)
    ensures FromWxyz(Wxyz(q)) == q && FromXyzw(Xyzw(q)) == q
    ensures Xyzw(q) == Wxyz(q)[1..] + [Wxyz(q)[0]]
  {
  }

  /** The Hamilton product `a ⊗ b`. */
  function Multiply(a: Quat, b: Quat): (q: Quat)
    ensures a == IdentityQuat ==> q == b
    ensures b == IdentityQuat ==> q == a
  {
    Quat(a.w * b.w - a.x * b.x - a.y * b.y - a.z * b.z,
         a.w * b.x + a.x * b.w + a.y * b.z - a.z * b.y,
         a.w * b.y - a.x * b.z + a.y * b.w + a.z * b.x,
         a.w * b.z + a.x * b.y - a.y * b.x + a.z * b.w)
  }

  function Conjugate(q: Quat): (c: Quat)
    ensures c.w == q.w
    ensures q.x == 0.0 && q.y == 0.0 && q.z == 0.0 ==> c == q
  {
    Quat(q.w, -q.x, -q.y, -q.z)
  }

  function NormSquared(q: Quat): (n: real)
    ensures n >= 0.0
  {
    q.w * q.w + q.x * q.x + q.y * q.y + q.z * q.z
  }

  function ScaleQuat(c: real, q: Quat): (r: Quat)
  {
    Quat(c * q.w, c * q.x, c * q.y, c * q.z)
  }

  /** [1, 0, 0, 0] (however it was computed) is a two-sided identity of the product. */
  lemma MultiplyIdentity(q: Quat, e: Quat)
    requires e == IdentityQuat
    ensures Multiply(e, q) == q && Multiply(q, e) == q
  {
  }

  lemma ConjugateIdentity()
    ensures Conjugate(IdentityQuat) == IdentityQuat
  {
  }

  lemma ConjugateInvolutive(q: Quat)
    ensures Conjugate(Conjugate(q)) == q
  {
  }

  /** `q ⊗ conj(q)` is the real quaternion |q|². */
  lemma MultiplyConjugate(q: Quat)
    ensures Multiply(q, Conjugate(q)) == Quat(NormSquared(q), 0.0, 0.0, 0.0)
  {
  }

  /** Multiplying by a real quaternion scales. */
  lemma MultiplyReal(q: Quat, c: real)
    ensures Multiply(q, Quat(c, 0.0, 0.0, 0.0)) == ScaleQuat(c, q)
  {
  }

  /** The conjugate of a product is the reversed product of the conjugates. */
  lemma ConjugateOfProduct(a: Quat, b: Quat)
    ensures Conjugate(Multiply(a, b)) == Multiply(Conjugate(b), Conjugate(a))
  {
    ConjugateOfProductW(a, b);
    ConjugateOfProductX(a, b);
    ConjugateOfProductY(a, b);
    ConjugateOfProductZ(a, b);
  }

  // One component at a time: the four real identities together are costly.
  lemma ConjugateOfProductW(a: Quat, b: Quat)
    ensures Conjugate(Multiply(a, b)).w == Multiply(Conjugate(b), Conjugate(a)).w
  {
  }

  lemma ConjugateOfProductX(a: Quat, b: Quat)
    ensures Conjugate(Multiply(a, b)).x == Multiply(Conjugate(b), Conjugate(a)).x
  {
  }

  lemma ConjugateOfProductY(a: Quat, b: Quat)
    ensures Conjugate(Multiply(a, b)).y == Multiply(Conjugate(b), Conjugate(a)).y
  {
  }

  lemma ConjugateOfProductZ(a: Quat, b: Quat)
    ensures Conjugate(Multiply(a, b)).z == Multiply(Conjugate(b), Conjugate(a)).z
  {
  }

  /** The vector part of `q ⊗ (0, v) ⊗ conj(q)`, the inner product taken first. */
  function RotateVector(q: Quat, v: Vector): (r: Vector)
    requires |v| == 3
    ensures |r| == 3
  {
    var p := Multiply(q, Multiply(Quat(0.0, v[0], v[1], v[2]), Conjugate(q)));
    [p.x, p.y, p.z]
  }

  lemma RotateByIdentity(v: Vector)
    requires |v| == 3
    ensures RotateVector(IdentityQuat, v) == v
  {
    var pure := Quat(0.0, v[0], v[1], v[2]);
    ConjugateIdentity();
    MultiplyIdentity(pure, Conjugate(IdentityQuat));
    MultiplyIdentity(pure, IdentityQuat);
  }

  lemma RotateZero(q: Quat)
    ensures RotateVector(q, [0.0, 0.0, 0.0]) == [0.0, 0.0, 0.0]
  {
    var zero := Quat(0.0, 0.0, 0.0, 0.0);
    assert Multiply(zero, Conjugate(q)) == zero;
    assert Multiply(q, zero) == zero;
  }

  /** numpy's elementwise functions, which the model does not define. */
  datatype Trig = Trig(
    atan2: (real, real) -> real,
    asin: real -> real,
    sin: real -> real,
    cos: real -> real,
    sqrt: real -> real,
    pi: real)

  /** The few facts about them that proofs here rely on. */
  predicate TrigLaws(t: Trig)
  {
    && t.sin(0.0) == 0.0
    && t.cos(0.0) == 1.0
    && t.pi > 0.0
  }

  /**
   * scipy's `Rotation` conversions, as the code calls them: `from_quat`
   * (scalar-last quaternion to matrix), `from_euler('xyz')`, `as_euler('xyz')`
   * and `as_quat` (scalar-last).
   */
  datatype Rotations = Rotations(
    fromQuat: Vector -> Matrix,
    fromEuler: Vector -> Matrix,
    asEuler: (Matrix, bool) -> Vector,
    asQuat: Matrix -> Vector)

  /** The shapes scipy returns: 3×3 matrices, three angles, four quaternion components. */
  ghost predicate Shapes(rot: Rotations)
  {
    && (forall q :: IsMatrix(rot.fromQuat(q), 3, 3))
    && (forall e :: IsMatrix(rot.fromEuler(e), 3, 3))
    && (forall m, degrees :: |rot.asEuler(m, degrees)| == 3)
    && (forall m :: |rot.asQuat(m)| == 4)
  }
}
