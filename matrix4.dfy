/** The 4x4 matrix (`mat4_type` in math/mat4.h), over `real`.
    A matrix is stored as four `vec4` values `val[0..3]`. The product treats
    each `val[i]` as a column: column `i` of `m1 * m2` is the combination of
    the columns of `m1` weighted by the components of column `i` of `m2`.
    `Entry(m, i, j)` is `m[i][j]`, component `j` of stored vector `i`. */
module Matrix4 {
  import Vector4

  type Vec4 = Vector4.Vec4

  /** `vec4_type<T> val[4]`. */
  type Mat4 = s: seq<Vec4> | |s| == 4
    witness [Vector4.Zero(), Vector4.Zero(), Vector4.Zero(), Vector4.Zero()]

  /** `m[i][j]`, defined for `i` and `j` in 0..3 only. */
  function Entry(m: Mat4, i: int, j: int): (r: real)
    requires 0 <= i < 4 && 0 <= j < 4
    ensures r == [m[i].x, m[i].y, m[i].z, m[i].w][j]
  {
    Vector4.At(m[i], j)
  }

  /** The matrix that `identity(s)` stores: `s` on the diagonal, 0 elsewhere. */
  function Identity(s: real): (r: Mat4)
    ensures forall i, j | 0 <= i < 4 && 0 <= j < 4 :: Entry(r, i, j) == if i == j then s else 0.0
  {
    [Vector4.Vec4(s, 0.0, 0.0, 0.0),
     Vector4.Vec4(0.0, s, 0.0, 0.0),
     Vector4.Vec4(0.0, 0.0, s, 0.0),
     Vector4.Vec4(0.0, 0.0, 0.0, s)]
  }

  /** The 16-scalar constructor: argument `m_ij` (the `j`-th of the `i`-th
      line of arguments) becomes `val[i][j]`. */
  function FromScalars(
    m00: real, m01: real, m02: real, m03: real,
    m10: real, m11: real, m12: real, m13: real,
    m20: real, m21: real, m22: real, m23: real,
    m30: real, m31: real, m32: real, m33: real): (r: Mat4)
    ensures forall i, j | 0 <= i < 4 && 0 <= j < 4 ::
      Entry(r, i, j) == [m00, m01, m02, m03,
                         m10, m11, m12, m13,
                         m20, m21, m22, m23,
                         m30, m31, m32, m33][4 * i + j]
  {
    [Vector4.Vec4(m00, m01, m02, m03),
     Vector4.Vec4(m10, m11, m12, m13),
     Vector4.Vec4(m20, m21, m22, m23),
     Vector4.Vec4(m30, m31, m32, m33)]
  }

  /** The value `+=` leaves behind: each stored vector plus the other's. */
  function Add(a: Mat4, b: Mat4): (r: Mat4)
    ensures forall i, j | 0 <= i < 4 && 0 <= j < 4 :: Entry(r, i, j) == Entry(a, i, j) + Entry(b, i, j)
  {
    [Vector4.Add(a[0], b[0]), Vector4.Add(a[1], b[1]),
     Vector4.Add(a[2], b[2]), Vector4.Add(a[3], b[3])]
  }

  /** The value `-=` leaves behind; it undoes `Add` of the same matrix. */
  function Sub(a: Mat4, b: Mat4): (r: Mat4)
    ensures forall i, j | 0 <= i < 4 && 0 <= j < 4 :: Entry(r, i, j) == Entry(a, i, j) - Entry(b, i, j)
    ensures Add(r, b) == a
  {
    [Vector4.Sub(a[0], b[0]), Vector4.Sub(a[1], b[1]),
     Vector4.Sub(a[2], b[2]), Vector4.Sub(a[3], b[3])]
  }

  /** `a0 * w[0] + a1 * w[1] + a2 * w[2] + a3 * w[3]`: the stored vectors of
      `a` weighted by the components of `w`, summed left to right. */
  function Combine(a: Mat4, w: Vec4): Vec4
  {
    Vector4.Add(
      Vector4.Add(
        Vector4.Add(Vector4.MulScalar(a[0], Vector4.At(w, 0)), Vector4.MulScalar(a[1], Vector4.At(w, 1))),
        Vector4.MulScalar(a[2], Vector4.At(w, 2))),
      Vector4.MulScalar(a[3], Vector4.At(w, 3)))
  }

  /** Component `j` of `Combine(a, m[i])` is `sum_k a[k][j] * m[i][k]`. */
  lemma {:induction false} CombineAt(a: Mat4, m: Mat4, i: int, j: int)
    requires 0 <= i < 4 && 0 <= j < 4
    ensures Vector4.At(Combine(a, m[i]), j)
         == Entry(a, 0, j) * Entry(m, i, 0) + Entry(a, 1, j) * Entry(m, i, 1)
          + Entry(a, 2, j) * Entry(m, i, 2) + Entry(a, 3, j) * Entry(m, i, 3)
  {
    var t0 := Vector4.MulScalar(a[0], Entry(m, i, 0));
    var t1 := Vector4.MulScalar(a[1], Entry(m, i, 1));
    var t2 := Vector4.MulScalar(a[2], Entry(m, i, 2));
    var t3 := Vector4.MulScalar(a[3], Entry(m, i, 3));
    assert Combine(a, m[i]) == Vector4.Add(Vector4.Add(Vector4.Add(t0, t1), t2), t3);
    ScaledEntry(a, 0, Entry(m, i, 0), j);
    ScaledEntry(a, 1, Entry(m, i, 1), j);
    ScaledEntry(a, 2, Entry(m, i, 2), j);
    ScaledEntry(a, 3, Entry(m, i, 3), j);
    assert Vector4.At(Vector4.Add(t0, t1), j) == Vector4.At(t0, j) + Vector4.At(t1, j);
    assert Vector4.At(Vector4.Add(Vector4.Add(t0, t1), t2), j)
        == Vector4.At(Vector4.Add(t0, t1), j) + Vector4.At(t2, j);
    assert Vector4.At(Combine(a, m[i]), j)
        == Vector4.At(Vector4.Add(Vector4.Add(t0, t1), t2), j) + Vector4.At(t3, j);
  }

  lemma {:induction false} ScaledEntry(a: Mat4, k: int, s: real, j: int)
    requires 0 <= k < 4 && 0 <= j < 4
    ensures Vector4.At(Vector4.MulScalar(a[k], s), j) == Entry(a, k, j) * s
  {
    assert Vector4.MulScalar(a[k], s) == Vector4.Mul(a[k], Vector4.Broadcast(s));
    assert Vector4.At(Vector4.Broadcast(s), j) == s;
  }

  /** Free `operator*(mat4, mat4)`: `res[i]` combines the stored vectors of
      `m1` with the components of `m2[i]`. */
  function Mul(m1: Mat4, m2: Mat4): Mat4
  {
    [Combine(m1, m2[0]), Combine(m1, m2[1]), Combine(m1, m2[2]), Combine(m1, m2[3])]
  }

  /** Entry `(i, j)` of the product is `sum_k m1[k][j] * m2[i][k]`. */
  lemma {:induction false} MulEntry(m1: Mat4, m2: Mat4, i: int, j: int)
    requires 0 <= i < 4 && 0 <= j < 4
    ensures Entry(Mul(m1, m2), i, j)
         == Entry(m1, 0, j) * Entry(m2, i, 0) + Entry(m1, 1, j) * Entry(m2, i, 1)
          + Entry(m1, 2, j) * Entry(m2, i, 2) + Entry(m1, 3, j) * Entry(m2, i, 3)
  {
    assert Mul(m1, m2)[i] == Combine(m1, m2[i]);
    assert Entry(Mul(m1, m2), i, j) == Vector4.At(Combine(m1, m2[i]), j);
    CombineAt(m1, m2, i, j);
  }

  /** All sixteen entries of the product at once. */
  lemma {:induction false} MulEntries(m1: Mat4, m2: Mat4)
    ensures forall i, j | 0 <= i < 4 && 0 <= j < 4 ::
      Entry(Mul(m1, m2), i, j)
        == Entry(m1, 0, j) * Entry(m2, i, 0) + Entry(m1, 1, j) * Entry(m2, i, 1)
         + Entry(m1, 2, j) * Entry(m2, i, 2) + Entry(m1, 3, j) * Entry(m2, i, 3)
  {
    forall i, j | 0 <= i < 4 && 0 <= j < 4
      ensures Entry(Mul(m1, m2), i, j)
        == Entry(m1, 0, j) * Entry(m2, i, 0) + Entry(m1, 1, j) * Entry(m2, i, 1)
         + Entry(m1, 2, j) * Entry(m2, i, 2) + Entry(m1, 3, j) * Entry(m2, i, 3)
    {
      MulEntry(m1, m2, i, j);
    }
  }

  /** The textbook product as a sum: the first `n` terms of
      `sum_k m1[k][j] * m2[i][k]`. */
  ghost function ProductSum(m1: Mat4, m2: Mat4, i: int, j: int, n: nat): real
    requires 0 <= i < 4 && 0 <= j < 4 && n <= 4
  {
    if n == 0 then 0.0 else ProductSum(m1, m2, i, j, n - 1) + Entry(m1, n - 1, j) * Entry(m2, i, n - 1)
  }

  lemma {:induction false} ProductSumUnrolled(m1: Mat4, m2: Mat4, i: int, j: int)
    requires 0 <= i < 4 && 0 <= j < 4
    ensures ProductSum(m1, m2, i, j, 4)
         == Entry(m1, 0, j) * Entry(m2, i, 0) + Entry(m1, 1, j) * Entry(m2, i, 1)
          + Entry(m1, 2, j) * Entry(m2, i, 2) + Entry(m1, 3, j) * Entry(m2, i, 3)
  {
    assert ProductSum(m1, m2, i, j, 0) == 0.0;
    assert ProductSum(m1, m2, i, j, 1) == ProductSum(m1, m2, i, j, 0) + Entry(m1, 0, j) * Entry(m2, i, 0);
    assert ProductSum(m1, m2, i, j, 2) == ProductSum(m1, m2, i, j, 1) + Entry(m1, 1, j) * Entry(m2, i, 1);
    assert ProductSum(m1, m2, i, j, 3) == ProductSum(m1, m2, i, j, 2) + Entry(m1, 2, j) * Entry(m2, i, 2);
    assert ProductSum(m1, m2, i, j, 4) == ProductSum(m1, m2, i, j, 3) + Entry(m1, 3, j) * Entry(m2, i, 3);
  }

  /** Every entry of `Mul` is the textbook sum over the inner index. */
  lemma {:induction false} MulIsProductSum(m1: Mat4, m2: Mat4)
    ensures forall i, j | 0 <= i < 4 && 0 <= j < 4 :: Entry(Mul(m1, m2), i, j) == ProductSum(m1, m2, i, j, 4)
  {
    forall i, j | 0 <= i < 4 && 0 <= j < 4
      ensures Entry(Mul(m1, m2), i, j) == ProductSum(m1, m2, i, j, 4)
    {
      MulEntry(m1, m2, i, j);
      ProductSumUnrolled(m1, m2, i, j);
    }
  }

  /** A matrix is determined by its sixteen entries. */
  lemma {:induction false} Extensionality(a: Mat4, b: Mat4)
    ensures a == b <==> forall i, j | 0 <= i < 4 && 0 <= j < 4 :: Entry(a, i, j) == Entry(b, i, j)
  {
    if forall i, j | 0 <= i < 4 && 0 <= j < 4 :: Entry(a, i, j) == Entry(b, i, j) {
      forall i | 0 <= i < 4
        ensures a[i] == b[i]
      {
        Vector4.Extensionality(a[i], b[i]);
        assert forall j | 0 <= j < 4 :: Vector4.At(a[i], j) == Entry(a, i, j);
      }
    }
  }

  /** `identity(1)` is a left neutral element of the product. */
  lemma {:induction false} MulIdentityLeft(m: Mat4)
    ensures Mul(Identity(1.0), m) == m
  {
    var e := Identity(1.0);
    MulEntries(e, m);
    forall i, j | 0 <= i < 4 && 0 <= j < 4
      ensures Entry(Mul(e, m), i, j) == Entry(m, i, j)
    {
      assert Entry(Mul(e, m), i, j)
          == Entry(e, 0, j) * Entry(m, i, 0) + Entry(e, 1, j) * Entry(m, i, 1)
           + Entry(e, 2, j) * Entry(m, i, 2) + Entry(e, 3, j) * Entry(m, i, 3);
    }
    Extensionality(Mul(e, m), m);
  }

  /** `identity(1)` is a right neutral element of the product. */
  lemma {:induction false} MulIdentityRight(m: Mat4)
    ensures Mul(m, Identity(1.0)) == m
  {
    var e := Identity(1.0);
    MulEntries(m, e);
    forall i, j | 0 <= i < 4 && 0 <= j < 4
      ensures Entry(Mul(m, e), i, j) == Entry(m, i, j)
    {
      assert Entry(Mul(m, e), i, j)
          == Entry(m, 0, j) * Entry(e, i, 0) + Entry(m, 1, j) * Entry(e, i, 1)
           + Entry(m, 2, j) * Entry(e, i, 2) + Entry(m, 3, j) * Entry(e, i, 3);
    }
    Extensionality(Mul(m, e), m);
  }

  /** Adding then subtracting the same matrix gives back the original. */
  lemma {:induction false} SubAddCancel(a: Mat4, b: Mat4)
    ensures Sub(Add(a, b), b) == a
  {
    Extensionality(Sub(Add(a, b), b), a);
  }

  /** The product distributes over `+` on the right. */
  lemma {:induction false} MulDistributesOverAdd(a: Mat4, b: Mat4, c: Mat4)
    ensures Mul(a, Add(b, c)) == Add(Mul(a, b), Mul(a, c))
  {
    forall i, j | 0 <= i < 4 && 0 <= j < 4
      ensures Entry(Mul(a, Add(b, c)), i, j) == Entry(Add(Mul(a, b), Mul(a, c)), i, j)
    {
      DistributeEntry(a, b, c, i, j);
    }
    Extensionality(Mul(a, Add(b, c)), Add(Mul(a, b), Mul(a, c)));
  }

  lemma {:induction false} DistributeEntry(a: Mat4, b: Mat4, c: Mat4, i: int, j: int)
    requires 0 <= i < 4 && 0 <= j < 4
    ensures Entry(Mul(a, Add(b, c)), i, j) == Entry(Mul(a, b), i, j) + Entry(Mul(a, c), i, j)
  {
    MulEntry(a, Add(b, c), i, j);
    MulEntry(a, b, i, j);
    MulEntry(a, c, i, j);
    WeightsOfSum(a, b, c, i, j);
  }

  /** The inner sum of a product with `b + c` splits into the two sums. */
  lemma {:induction false} WeightsOfSum(a: Mat4, b: Mat4, c: Mat4, i: int, j: int)
    requires 0 <= i < 4 && 0 <= j < 4
    ensures Entry(a, 0, j) * Entry(Add(b, c), i, 0) + Entry(a, 1, j) * Entry(Add(b, c), i, 1)
          + Entry(a, 2, j) * Entry(Add(b, c), i, 2) + Entry(a, 3, j) * Entry(Add(b, c), i, 3)
         == (Entry(a, 0, j) * Entry(b, i, 0) + Entry(a, 1, j) * Entry(b, i, 1)
           + Entry(a, 2, j) * Entry(b, i, 2) + Entry(a, 3, j) * Entry(b, i, 3))
          + (Entry(a, 0, j) * Entry(c, i, 0) + Entry(a, 1, j) * Entry(c, i, 1)
           + Entry(a, 2, j) * Entry(c, i, 2) + Entry(a, 3, j) * Entry(c, i, 3))
  {
    var bc := Add(b, c);
    Distribute4(Entry(a, 0, j), Entry(a, 1, j), Entry(a, 2, j), Entry(a, 3, j),
                Entry(bc, i, 0), Entry(bc, i, 1), Entry(bc, i, 2), Entry(bc, i, 3),
                Entry(b, i, 0), Entry(b, i, 1), Entry(b, i, 2), Entry(b, i, 3),
                Entry(c, i, 0), Entry(c, i, 1), Entry(c, i, 2), Entry(c, i, 3));
  }

  /** Arithmetic helper: a weighted sum of sums splits in two. */
  lemma Distribute4(a0: real, a1: real, a2: real, a3: real,
                    s0: real, s1: real, s2: real, s3: real,
                    b0: real, b1: real, b2: real, b3: real,
                    c0: real, c1: real, c2: real, c3: real)
    requires s0 == b0 + c0 && s1 == b1 + c1 && s2 == b2 + c2 && s3 == b3 + c3
    ensures a0 * s0 + a1 * s1 + a2 * s2 + a3 * s3
         == (a0 * b0 + a1 * b1 + a2 * b2 + a3 * b3) + (a0 * c0 + a1 * c1 + a2 * c2 + a3 * c3)
  {
  }

  /** Combining with a sum of weight vectors sums the two combinations. */
  lemma {:induction false} CombineAdd(a: Mat4, v: Vec4, u: Vec4)
    ensures Combine(a, Vector4.Add(v, u)) == Vector4.Add(Combine(a, v), Combine(a, u))
  {
    var w := Vector4.Add(v, u);
    assert Vector4.At(w, 0) == Vector4.At(v, 0) + Vector4.At(u, 0);
    assert Vector4.At(w, 1) == Vector4.At(v, 1) + Vector4.At(u, 1);
    assert Vector4.At(w, 2) == Vector4.At(v, 2) + Vector4.At(u, 2);
    assert Vector4.At(w, 3) == Vector4.At(v, 3) + Vector4.At(u, 3);
    Vector4.ScaleBySum(a[0], Vector4.At(v, 0), Vector4.At(u, 0));
    Vector4.ScaleBySum(a[1], Vector4.At(v, 1), Vector4.At(u, 1));
    Vector4.ScaleBySum(a[2], Vector4.At(v, 2), Vector4.At(u, 2));
    Vector4.ScaleBySum(a[3], Vector4.At(v, 3), Vector4.At(u, 3));
    Vector4.AddRegroup(
      Vector4.MulScalar(a[0], Vector4.At(v, 0)), Vector4.MulScalar(a[1], Vector4.At(v, 1)),
      Vector4.MulScalar(a[2], Vector4.At(v, 2)), Vector4.MulScalar(a[3], Vector4.At(v, 3)),
      Vector4.MulScalar(a[0], Vector4.At(u, 0)), Vector4.MulScalar(a[1], Vector4.At(u, 1)),
      Vector4.MulScalar(a[2], Vector4.At(u, 2)), Vector4.MulScalar(a[3], Vector4.At(u, 3)));
  }

  /** Combining with scaled weights scales the combination. */
  lemma {:induction false} CombineScale(a: Mat4, v: Vec4, s: real)
    ensures Combine(a, Vector4.MulScalar(v, s)) == Vector4.MulScalar(Combine(a, v), s)
  {
    var w := Vector4.MulScalar(v, s);
    Vector4.ScaleByProduct(a[0], Vector4.At(w, 0), Vector4.At(v, 0), s);
    Vector4.ScaleByProduct(a[1], Vector4.At(w, 1), Vector4.At(v, 1), s);
    Vector4.ScaleByProduct(a[2], Vector4.At(w, 2), Vector4.At(v, 2), s);
    Vector4.ScaleByProduct(a[3], Vector4.At(w, 3), Vector4.At(v, 3), s);
    var t0 := Vector4.MulScalar(a[0], Vector4.At(v, 0));
    var t1 := Vector4.MulScalar(a[1], Vector4.At(v, 1));
    var t2 := Vector4.MulScalar(a[2], Vector4.At(v, 2));
    var t3 := Vector4.MulScalar(a[3], Vector4.At(v, 3));
    Vector4.ScaleOfSum(Vector4.Add(Vector4.Add(t0, t1), t2), t3, s);
    Vector4.ScaleOfSum(Vector4.Add(t0, t1), t2, s);
    Vector4.ScaleOfSum(t0, t1, s);
    assert Combine(a, v) == Vector4.Add(Vector4.Add(Vector4.Add(t0, t1), t2), t3);
    assert Combine(a, w)
        == Vector4.Add(Vector4.Add(Vector4.Add(Vector4.MulScalar(t0, s), Vector4.MulScalar(t1, s)),
                                   Vector4.MulScalar(t2, s)),
                       Vector4.MulScalar(t3, s));
  }

  /** Column form of associativity. */
  lemma {:induction false} CombineCombine(a: Mat4, b: Mat4, w: Vec4)
    ensures Combine(a, Combine(b, w)) == Combine(Mul(a, b), w)
  {
    var c0 := Vector4.MulScalar(b[0], Vector4.At(w, 0));
    var c1 := Vector4.MulScalar(b[1], Vector4.At(w, 1));
    var c2 := Vector4.MulScalar(b[2], Vector4.At(w, 2));
    var c3 := Vector4.MulScalar(b[3], Vector4.At(w, 3));
    assert Combine(b, w) == Vector4.Add(Vector4.Add(Vector4.Add(c0, c1), c2), c3);
    CombineAdd(a, Vector4.Add(Vector4.Add(c0, c1), c2), c3);
    CombineAdd(a, Vector4.Add(c0, c1), c2);
    CombineAdd(a, c0, c1);
    CombineScale(a, b[0], Vector4.At(w, 0));
    CombineScale(a, b[1], Vector4.At(w, 1));
    CombineScale(a, b[2], Vector4.At(w, 2));
    CombineScale(a, b[3], Vector4.At(w, 3));
    var p := Mul(a, b);
    assert p[0] == Combine(a, b[0]) && p[1] == Combine(a, b[1]);
    assert p[2] == Combine(a, b[2]) && p[3] == Combine(a, b[3]);
  }

  /** The product is associative. */
  lemma {:induction false} MulAssociative(a: Mat4, b: Mat4, c: Mat4)
    ensures Mul(Mul(a, b), c) == Mul(a, Mul(b, c))
  {
    var l := Mul(Mul(a, b), c);
    var r := Mul(a, Mul(b, c));
    forall i | 0 <= i < 4
      ensures l[i] == r[i]
    {
      assert l[i] == Combine(Mul(a, b), c[i]);
      assert Mul(b, c)[i] == Combine(b, c[i]);
      assert r[i] == Combine(a, Combine(b, c[i]));
      CombineCombine(a, b, c[i]);
    }
  }

  /** Combining the columns of a sum of matrices sums the two combinations. */
  lemma {:induction false} CombineOfSum(a: Mat4, b: Mat4, w: Vec4)
    ensures Combine(Add(a, b), w) == Vector4.Add(Combine(a, w), Combine(b, w))
  {
    var ab := Add(a, b);
    assert ab[0] == Vector4.Add(a[0], b[0]) && ab[1] == Vector4.Add(a[1], b[1]);
    assert ab[2] == Vector4.Add(a[2], b[2]) && ab[3] == Vector4.Add(a[3], b[3]);
    Vector4.ScaleOfSum(a[0], b[0], Vector4.At(w, 0));
    Vector4.ScaleOfSum(a[1], b[1], Vector4.At(w, 1));
    Vector4.ScaleOfSum(a[2], b[2], Vector4.At(w, 2));
    Vector4.ScaleOfSum(a[3], b[3], Vector4.At(w, 3));
    Vector4.AddRegroup(
      Vector4.MulScalar(a[0], Vector4.At(w, 0)), Vector4.MulScalar(a[1], Vector4.At(w, 1)),
      Vector4.MulScalar(a[2], Vector4.At(w, 2)), Vector4.MulScalar(a[3], Vector4.At(w, 3)),
      Vector4.MulScalar(b[0], Vector4.At(w, 0)), Vector4.MulScalar(b[1], Vector4.At(w, 1)),
      Vector4.MulScalar(b[2], Vector4.At(w, 2)), Vector4.MulScalar(b[3], Vector4.At(w, 3)));
  }

  /** The product distributes over `+` on the left. */
  lemma {:induction false} MulDistributesOverAddLeft(a: Mat4, b: Mat4, c: Mat4)
    ensures Mul(Add(a, b), c) == Add(Mul(a, c), Mul(b, c))
  {
    var l := Mul(Add(a, b), c);
    var r := Add(Mul(a, c), Mul(b, c));
    forall i | 0 <= i < 4
      ensures l[i] == r[i]
    {
      assert l[i] == Combine(Add(a, b), c[i]);
      assert r[i] == Vector4.Add(Mul(a, c)[i], Mul(b, c)[i]);
      assert Mul(a, c)[i] == Combine(a, c[i]) && Mul(b, c)[i] == Combine(b, c[i]);
      CombineOfSum(a, b, c[i]);
    }
  }

  /** A `mat4` object: `val` is the storage its in-place operations overwrite. */
  class Mat4Var {
    const val: array<Vec4>

    ghost predicate Valid()
      reads this
    {
      val.Length == 4
    }

    function Value(): Mat4
      reads this, val
      requires Valid()
    {
      val[..]
    }

    /** `mat4_type()`, which delegates to `mat4_type(1)`. */
    constructor Default()
      ensures Valid() && fresh(val)
      ensures Value() == Identity(1.0)
    {
      val := new Vec4[4];
      new;
      SetIdentity(1.0);
    }

    /** `mat4_type(s)`, which calls `identity(s)`. */
    constructor Diagonal(s: real)
      ensures Valid() && fresh(val)
      ensures Value() == Identity(s)
    {
      val := new Vec4[4];
      new;
      SetIdentity(s);
    }

    /** The copy constructor. */
    constructor Copy(m: Mat4Var)
      requires m.Valid()
      ensures Valid() && fresh(val)
      ensures Value() == m.Value()
    {
      var a := new Vec4[4];
      a[0] := m.val[0];
      a[1] := m.val[1];
      a[2] := m.val[2];
      a[3] := m.val[3];
      val := a;
    }

    /** The four-vector constructor: the arguments become `val[0..3]`. */
    constructor FromVectors(r0: Vec4, r1: Vec4, r2: Vec4, r3: Vec4)
      ensures Valid() && fresh(val)
      ensures Value() == [r0, r1, r2, r3]
    {
      var a := new Vec4[4];
      a[0] := r0;
      a[1] := r1;
      a[2] := r2;
      a[3] := r3;
      val := a;
    }

    /** The 16-scalar constructor. */
    constructor Of16(
      m00: real, m01: real, m02: real, m03: real,
      m10: real, m11: real, m12: real, m13: real,
      m20: real, m21: real, m22: real, m23: real,
      m30: real, m31: real, m32: real, m33: real)
      ensures Valid() && fresh(val)
      ensures Value() == FromScalars(m00, m01, m02, m03, m10, m11, m12, m13,
                                     m20, m21, m22, m23, m30, m31, m32, m33)
    {
      var a := new Vec4[4];
      a[0] := Vector4.Vec4(m00, m01, m02, m03);
      a[1] := Vector4.Vec4(m10, m11, m12, m13);
      a[2] := Vector4.Vec4(m20, m21, m22, m23);
      a[3] := Vector4.Vec4(m30, m31, m32, m33);
      val := a;
    }

    /** Const `operator[]`: `val[i]`, for `i` in 0..3 only. */
    function Get(i: int): (r: Vec4)
      reads this, val
      requires Valid() && 0 <= i < 4
      ensures r == Value()[i]
    {
      val[i]
    }

    /** A write through the writable `operator[]`: only `val[i]` changes. */
    method SetColumn(i: int, v: Vec4)
      requires Valid() && 0 <= i < 4
      modifies val
      ensures Valid()
      ensures Value() == old(Value())[i := v]
    {
      val[i] := v;
    }

    /** `identity(s)`; `identity()` uses the default argument 1 and is
        `SetIdentity(1.0)`. */
    method SetIdentity(s: real)
      requires Valid()
      modifies val
      ensures Valid()
      ensures Value() == Identity(s)
    {
      val[0] := Vector4.Vec4(s, 0.0, 0.0, 0.0);
      val[1] := Vector4.Vec4(0.0, s, 0.0, 0.0);
      val[2] := Vector4.Vec4(0.0, 0.0, s, 0.0);
      val[3] := Vector4.Vec4(0.0, 0.0, 0.0, s);
    }

    /** `operator=`: copies `m`'s stored vectors one by one. `m` may be this
        very object; an `m` with storage of its own is left unchanged. */
    method Assign(m: Mat4Var)
      requires Valid() && m.Valid()
      modifies val
      ensures Valid()
      ensures Value() == old(m.Value())
      ensures m.val != val ==> m.Value() == old(m.Value())
    {
      val[0] := m.val[0];
      val[1] := m.val[1];
      val[2] := m.val[2];
      val[3] := m.val[3];
    }

    /** `operator+=`: `val[k] += m[k]` for k = 0, 1, 2, 3 in turn. Each step
        reads only `m[k]`, so the result is right even when `m` is this
        object (`a += a` doubles `a`). */
    method AddAssign(m: Mat4Var)
      requires Valid() && m.Valid()
      modifies val
      ensures Valid()
      ensures Value() == Add(old(Value()), old(m.Value()))
      ensures m.val != val ==> m.Value() == old(m.Value())
    {
      val[0] := Vector4.Add(val[0], m.val[0]);
      val[1] := Vector4.Add(val[1], m.val[1]);
      val[2] := Vector4.Add(val[2], m.val[2]);
      val[3] := Vector4.Add(val[3], m.val[3]);
    }

    /** `operator-=`: `val[k] -= m[k]` for k = 0, 1, 2, 3 in turn. */
    method SubAssign(m: Mat4Var)
      requires Valid() && m.Valid()
      modifies val
      ensures Valid()
      ensures Value() == Sub(old(Value()), old(m.Value()))
      ensures m.val != val ==> m.Value() == old(m.Value())
    {
      val[0] := Vector4.Sub(val[0], m.val[0]);
      val[1] := Vector4.Sub(val[1], m.val[1]);
      val[2] := Vector4.Sub(val[2], m.val[2]);
      val[3] := Vector4.Sub(val[3], m.val[3]);
    }

    /** `operator*=`: `*this = *this * m`; the product is formed before
        anything is written. */
    method MulAssign(m: Mat4Var)
      requires Valid() && m.Valid()
      modifies val
      ensures Valid()
      ensures Value() == Mul(old(Value()), old(m.Value()))
      ensures m.val != val ==> m.Value() == old(m.Value())
    {
      var res := Mul(Value(), m.Value());
      val[0] := res[0];
      val[1] := res[1];
      val[2] := res[2];
      val[3] := res[3];
    }
  }
}
