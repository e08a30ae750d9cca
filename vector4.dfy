/** Four-component vectors (`vec4_type` in math/vec4.h), over `real`.
    The alias groups `x/r`, `y/g`, `z/b` and `w/a` each share one storage
    slot, so the model has one field per group. The header declares every
    vector-vector operator twice, as a member and as a free function, with
    the same meaning; each is one function here. */
module Vector4 {

  /** A vector value; `vec4_type(x, y, z, w)` is the datatype constructor. */
  datatype Vec4 = Vec4(x: real, y: real, z: real, w: real)

  /** Const `operator[]`, which indexes from the address of `x`: slot `i` of the components
      laid out in order, for `i` in 0..3 only. */
  function At(v: Vec4, i: int): (r: real)
    requires 0 <= i < 4
    ensures r == [v.x, v.y, v.z, v.w][i]
  {
    if i == 0 then v.x else if i == 1 then v.y else if i == 2 then v.z else v.w
  }

  /** The value after writing `s` through the writable `operator[]` at `i`. */
  function With(v: Vec4, i: int, s: real): (r: Vec4)
    requires 0 <= i < 4
    ensures forall j | 0 <= j < 4 :: At(r, j) == if j == i then s else At(v, j)
  {
    if i == 0 then v.(x := s)
    else if i == 1 then v.(y := s)
    else if i == 2 then v.(z := s)
    else v.(w := s)
  }

  /** `vec4_type(value)`. */
  function Broadcast(value: real): (r: Vec4)
    ensures forall i | 0 <= i < 4 :: At(r, i) == value
  {
    Vec4(value, value, value, value)
  }

  /** `vec4_type()`, written out separately from `vec4_type(value)` but
      building the same value as `vec4_type(0)`. */
  function Zero(): (r: Vec4)
    ensures r == Broadcast(0.0)
  {
    Vec4(0.0, 0.0, 0.0, 0.0)
  }

  /** Unary `+`. */
  function Pos(v: Vec4): (r: Vec4)
    ensures r == v
  {
    Vec4(v.x, v.y, v.z, v.w)
  }

  /** Unary `-`: negates each component and is the additive inverse. */
  function Neg(v: Vec4): (r: Vec4)
    ensures forall i | 0 <= i < 4 :: At(r, i) == -At(v, i)
    ensures Add(v, r) == Zero()
  {
    Vec4(-v.x, -v.y, -v.z, -v.w)
  }

  /** Vector `+` vector. */
  function Add(a: Vec4, b: Vec4): (r: Vec4)
    ensures forall i | 0 <= i < 4 :: At(r, i) == At(a, i) + At(b, i)
  {
    Vec4(a.x + b.x, a.y + b.y, a.z + b.z, a.w + b.w)
  }

  /** Vector `-` vector. */
  function Sub(a: Vec4, b: Vec4): (r: Vec4)
    ensures forall i | 0 <= i < 4 :: At(r, i) == At(a, i) - At(b, i)
    ensures Add(r, b) == a
  {
    Vec4(a.x - b.x, a.y - b.y, a.z - b.z, a.w - b.w)
  }

  /** Vector `*` vector. */
  function Mul(a: Vec4, b: Vec4): (r: Vec4)
    ensures forall i | 0 <= i < 4 :: At(r, i) == At(a, i) * At(b, i)
  {
    Vec4(a.x * b.x, a.y * b.y, a.z * b.z, a.w * b.w)
  }

  predicate NonzeroComponents(v: Vec4)
  {
    v.x != 0.0 && v.y != 0.0 && v.z != 0.0 && v.w != 0.0
  }

  /** Vector `/` vector. */
  function Div(a: Vec4, b: Vec4): (r: Vec4)
    requires NonzeroComponents(b)
    ensures forall i | 0 <= i < 4 :: At(b, i) != 0.0 && At(r, i) == At(a, i) / At(b, i)
    ensures Mul(r, b) == a
  {
    Vec4(a.x / b.x, a.y / b.y, a.z / b.z, a.w / b.w)
  }

  /** Free `operator+(vec4, T)`. */
  function AddScalar(a: Vec4, b: real): (r: Vec4)
    ensures r == Add(a, Broadcast(b))
  {
    Vec4(a.x + b, a.y + b, a.z + b, a.w + b)
  }

  /** Free `operator-(vec4, T)`. */
  function SubScalar(a: Vec4, b: real): (r: Vec4)
    ensures r == Sub(a, Broadcast(b))
  {
    Vec4(a.x - b, a.y - b, a.z - b, a.w - b)
  }

  /** Free `operator*(vec4, T)`. */
  function MulScalar(a: Vec4, b: real): (r: Vec4)
    ensures r == Mul(a, Broadcast(b))
  {
    Vec4(a.x * b, a.y * b, a.z * b, a.w * b)
  }

  /** Free `operator/(vec4, T)`. */
  function DivScalar(a: Vec4, b: real): (r: Vec4)
    requires b != 0.0
    ensures r == Div(a, Broadcast(b))
  {
    Vec4(a.x / b, a.y / b, a.z / b, a.w / b)
  }

  /** Free `operator+(T, vec4)`. The header writes the last component as
      `a.w + b`, with the scalar `a` on the left of a member access, which
      does not type-check once the template is instantiated; this is the
      evident intent `a + b.w`, as in every sibling operator. */
  function ScalarAdd(a: real, b: Vec4): (r: Vec4)
    ensures r == Add(Broadcast(a), b)
  {
    Vec4(a + b.x, a + b.y, a + b.z, a + b.w)
  }

  /** Free `operator-(T, vec4)`. */
  function ScalarSub(a: real, b: Vec4): (r: Vec4)
    ensures r == Sub(Broadcast(a), b)
  {
    Vec4(a - b.x, a - b.y, a - b.z, a - b.w)
  }

  /** Free `operator*(T, vec4)`. */
  function ScalarMul(a: real, b: Vec4): (r: Vec4)
    ensures r == Mul(Broadcast(a), b)
  {
    Vec4(a * b.x, a * b.y, a * b.z, a * b.w)
  }

  /** Free `operator/(T, vec4)`. */
  function ScalarDiv(a: real, b: Vec4): (r: Vec4)
    requires NonzeroComponents(b)
    ensures r == Div(Broadcast(a), b)
  {
    Vec4(a / b.x, a / b.y, a / b.z, a / b.w)
  }

  /** `operator==`: exact comparison of the four components. */
  function Eq(a: Vec4, b: Vec4): (r: bool)
    ensures r <==> a == b
  {
    a.x == b.x && a.y == b.y && a.z == b.z && a.w == b.w
  }

  /** `operator!=`: the exact negation of `==`. */
  function Neq(a: Vec4, b: Vec4): (r: bool)
    ensures r <==> !Eq(a, b)
  {
    a.x != b.x || a.y != b.y || a.z != b.z || a.w != b.w
  }

  /** A vector is determined by its four indexed components. */
  lemma {:induction false} Extensionality(a: Vec4, b: Vec4)
    ensures a == b <==> forall i | 0 <= i < 4 :: At(a, i) == At(b, i)
  {
    if forall i | 0 <= i < 4 :: At(a, i) == At(b, i) {
      assert At(a, 0) == At(b, 0) && At(a, 1) == At(b, 1);
      assert At(a, 2) == At(b, 2) && At(a, 3) == At(b, 3);
    }
  }

  /** Reading back a written component, and reading any other one. */
  lemma AtWith(v: Vec4, i: int, j: int, s: real)
    requires 0 <= i < 4 && 0 <= j < 4
    ensures At(With(v, i, s), j) == if i == j then s else At(v, j)
  {
  }

  /** Writing back the component just read changes nothing. */
  lemma WithAt(v: Vec4, i: int)
    requires 0 <= i < 4
    ensures With(v, i, At(v, i)) == v
  {
  }

  lemma AddCommutative(a: Vec4, b: Vec4)
    ensures Add(a, b) == Add(b, a)
  {
  }

  lemma AddAssociative(a: Vec4, b: Vec4, c: Vec4)
    ensures Add(Add(a, b), c) == Add(a, Add(b, c))
  {
  }

  lemma AddZero(v: Vec4)
    ensures Add(v, Zero()) == v && Add(Zero(), v) == v
  {
  }

  lemma NegInvolutive(v: Vec4)
    ensures Neg(Neg(v)) == v
  {
  }

  lemma SubAddCancel(a: Vec4, b: Vec4)
    ensures Sub(Add(a, b), b) == a
  {
  }

  lemma DivMulCancel(a: Vec4, b: Vec4)
    requires NonzeroComponents(b)
    ensures Div(Mul(a, b), b) == a
  {
  }

  lemma ScalarOperandOrder(s: real, v: Vec4)
    ensures ScalarAdd(s, v) == AddScalar(v, s)
    ensures ScalarMul(s, v) == MulScalar(v, s)
    ensures ScalarSub(s, v) == Neg(SubScalar(v, s))
  {
  }

  /** Scaling by a sum of scalars is the sum of the two scalings. */
  lemma ScaleBySum(v: Vec4, s: real, t: real)
    ensures MulScalar(v, s + t) == Add(MulScalar(v, s), MulScalar(v, t))
  {
  }

  /** Scaling by `p == q * t` is scaling by `q` and then by `t`. */
  lemma ScaleByProduct(v: Vec4, p: real, q: real, t: real)
    requires p == q * t
    ensures MulScalar(v, p) == MulScalar(MulScalar(v, q), t)
  {
  }

  /** Scaling distributes over vector `+`. */
  lemma ScaleOfSum(v: Vec4, u: Vec4, s: real)
    ensures MulScalar(Add(v, u), s) == Add(MulScalar(v, s), MulScalar(u, s))
  {
  }

  /** A left-to-right sum of four pairwise sums regroups into two sums. */
  lemma AddRegroup(x0: Vec4, x1: Vec4, x2: Vec4, x3: Vec4, y0: Vec4, y1: Vec4, y2: Vec4, y3: Vec4)
    ensures Add(Add(Add(Add(x0, y0), Add(x1, y1)), Add(x2, y2)), Add(x3, y3))
         == Add(Add(Add(Add(x0, x1), x2), x3), Add(Add(Add(y0, y1), y2), y3))
  {
  }

  /** A `vec4` object: the storage behind the compound assignments and the
      writable `operator[]`. */
  class Vec4Var {
    var x: real
    var y: real
    var z: real
    var w: real

    function Value(): Vec4
      reads this
    {
      Vec4(x, y, z, w)
    }

    /** Any of the constructors, given the value it builds. */
    constructor (v: Vec4)
      ensures Value() == v
    {
      x, y, z, w := v.x, v.y, v.z, v.w;
    }

    /** `v[i] = s` through the writable `operator[]`: only component `i` changes. */
    method SetAt(i: int, s: real)
      requires 0 <= i < 4
      modifies this
      ensures Value() == With(old(Value()), i, s)
      ensures At(Value(), i) == s
      ensures forall j | 0 <= j < 4 && j != i :: At(Value(), j) == At(old(Value()), j)
    {
      if i == 0 {
        x := s;
      } else if i == 1 {
        y := s;
      } else if i == 2 {
        z := s;
      } else {
        w := s;
      }
    }

    method AddAssign(other: Vec4)
      modifies this
      ensures Value() == Add(old(Value()), other)
    {
      var r := Add(Value(), other);
      x, y, z, w := r.x, r.y, r.z, r.w;
    }

    method SubAssign(other: Vec4)
      modifies this
      ensures Value() == Sub(old(Value()), other)
    {
      var r := Sub(Value(), other);
      x, y, z, w := r.x, r.y, r.z, r.w;
    }

    method MulAssign(other: Vec4)
      modifies this
      ensures Value() == Mul(old(Value()), other)
    {
      var r := Mul(Value(), other);
      x, y, z, w := r.x, r.y, r.z, r.w;
    }

    method DivAssign(other: Vec4)
      requires NonzeroComponents(other)
      modifies this
      ensures Value() == Div(old(Value()), other)
    {
      var r := Div(Value(), other);
      x, y, z, w := r.x, r.y, r.z, r.w;
    }

    method AddAssignScalar(other: real)
      modifies this
      ensures Value() == AddScalar(old(Value()), other)
    {
      var r := AddScalar(Value(), other);
      x, y, z, w := r.x, r.y, r.z, r.w;
    }

    method SubAssignScalar(other: real)
      modifies this
      ensures Value() == SubScalar(old(Value()), other)
    {
      var r := SubScalar(Value(), other);
      x, y, z, w := r.x, r.y, r.z, r.w;
    }

    method MulAssignScalar(other: real)
      modifies this
      ensures Value() == MulScalar(old(Value()), other)
    {
      var r := MulScalar(Value(), other);
      x, y, z, w := r.x, r.y, r.z, r.w;
    }

    method DivAssignScalar(other: real)
      requires other != 0.0
      modifies this
      ensures Value() == DivScalar(old(Value()), other)
    {
      var r := DivScalar(Value(), other);
      x, y, z, w := r.x, r.y, r.z, r.w;
    }
  }
}
