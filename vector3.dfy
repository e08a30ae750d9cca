/** Three-component vectors (`vec3_type` in math/vec3.h), over `real`.
    The alias groups `x/u/r`, `y/v/g` and `z/w/b` each share one storage
    slot, so the model has one field per group. */
module Vector3 {

  /** A vector value; `vec3_type(x, y, z)` is the datatype constructor. */
  datatype Vec3 = Vec3(x: real, y: real, z: real)

  /** Const `operator[]`, which indexes from the address of `x`: slot `i` of the components
      laid out in order, for `i` in 0..2 only. */
  function At(v: Vec3, i: int): (r: real)
    requires 0 <= i < 3
    ensures r == [v.x, v.y, v.z][i]
  {
    if i == 0 then v.x else if i == 1 then v.y else v.z
  }

  /** The value after writing `s` through the writable `operator[]` at `i`. */
  function With(v: Vec3, i: int, s: real): (r: Vec3)
    requires 0 <= i < 3
    ensures forall j | 0 <= j < 3 :: At(r, j) == if j == i then s else At(v, j)
  {
    if i == 0 then v.(x := s) else if i == 1 then v.(y := s) else v.(z := s)
  }

  /** `vec3_type(value)`. */
  function Broadcast(value: real): (r: Vec3)
    ensures forall i | 0 <= i < 3 :: At(r, i) == value
  {
    Vec3(value, value, value)
  }

  /** `vec3_type()`, which delegates to `vec3_type(0)`. */
  function Zero(): (r: Vec3)
    ensures forall i | 0 <= i < 3 :: At(r, i) == 0.0
  {
    Broadcast(0.0)
  }

  /** Unary `+`. */
  function Pos(v: Vec3): (r: Vec3)
    ensures r == v
  {
    Vec3(v.x, v.y, v.z)
  }

  /** Unary `-`: negates each component and is the additive inverse. */
  function Neg(v: Vec3): (r: Vec3)
    ensures forall i | 0 <= i < 3 :: At(r, i) == -At(v, i)
    ensures Add(v, r) == Zero()
  {
    Vec3(-v.x, -v.y, -v.z)
  }

  /** Free `operator+(vec3, vec3)`. */
  function Add(a: Vec3, b: Vec3): (r: Vec3)
    ensures forall i | 0 <= i < 3 :: At(r, i) == At(a, i) + At(b, i)
  {
    Vec3(a.x + b.x, a.y + b.y, a.z + b.z)
  }

  /** Free `operator-(vec3, vec3)`. */
  function Sub(a: Vec3, b: Vec3): (r: Vec3)
    ensures forall i | 0 <= i < 3 :: At(r, i) == At(a, i) - At(b, i)
    ensures Add(r, b) == a
  {
    Vec3(a.x - b.x, a.y - b.y, a.z - b.z)
  }

  /** Free `operator*(vec3, vec3)`. */
  function Mul(a: Vec3, b: Vec3): (r: Vec3)
    ensures forall i | 0 <= i < 3 :: At(r, i) == At(a, i) * At(b, i)
  {
    Vec3(a.x * b.x, a.y * b.y, a.z * b.z)
  }

  predicate NonzeroComponents(v: Vec3)
  {
    v.x != 0.0 && v.y != 0.0 && v.z != 0.0
  }

  /** Free `operator/(vec3, vec3)`. */
  function Div(a: Vec3, b: Vec3): (r: Vec3)
    requires NonzeroComponents(b)
    ensures forall i | 0 <= i < 3 :: At(b, i) != 0.0 && At(r, i) == At(a, i) / At(b, i)
    ensures Mul(r, b) == a
  {
    Vec3(a.x / b.x, a.y / b.y, a.z / b.z)
  }

  /** Free `operator+(vec3, T)`. */
  function AddScalar(a: Vec3, b: real): (r: Vec3)
    ensures r == Add(a, Broadcast(b))
  {
    Vec3(a.x + b, a.y + b, a.z + b)
  }

  /** Free `operator-(vec3, T)`. */
  function SubScalar(a: Vec3, b: real): (r: Vec3)
    ensures r == Sub(a, Broadcast(b))
  {
    Vec3(a.x - b, a.y - b, a.z - b)
  }

  /** Free `operator*(vec3, T)`. */
  function MulScalar(a: Vec3, b: real): (r: Vec3)
    ensures r == Mul(a, Broadcast(b))
  {
    Vec3(a.x * b, a.y * b, a.z * b)
  }

  /** Free `operator/(vec3, T)`. */
  function DivScalar(a: Vec3, b: real): (r: Vec3)
    requires b != 0.0
    ensures r == Div(a, Broadcast(b))
  {
    Vec3(a.x / b, a.y / b, a.z / b)
  }

  /** Free `operator+(T, vec3)`: the scalar is the left operand. */
  function ScalarAdd(a: real, b: Vec3): (r: Vec3)
    ensures r == Add(Broadcast(a), b)
  {
    Vec3(a + b.x, a + b.y, a + b.z)
  }

  /** Free `operator-(T, vec3)`. */
  function ScalarSub(a: real, b: Vec3): (r: Vec3)
    ensures r == Sub(Broadcast(a), b)
  {
    Vec3(a - b.x, a - b.y, a - b.z)
  }

  /** Free `operator*(T, vec3)`. */
  function ScalarMul(a: real, b: Vec3): (r: Vec3)
    ensures r == Mul(Broadcast(a), b)
  {
    Vec3(a * b.x, a * b.y, a * b.z)
  }

  /** Free `operator/(T, vec3)`. */
  function ScalarDiv(a: real, b: Vec3): (r: Vec3)
    requires NonzeroComponents(b)
    ensures r == Div(Broadcast(a), b)
  {
    Vec3(a / b.x, a / b.y, a / b.z)
  }

  /** `operator==`: exact comparison of the three components. */
  function Eq(a: Vec3, b: Vec3): (r: bool)
    ensures r <==> a == b
  {
    a.x == b.x && a.y == b.y && a.z == b.z
  }

  /** `operator!=`: the exact negation of `==`. */
  function Neq(a: Vec3, b: Vec3): (r: bool)
    ensures r <==> !Eq(a, b)
  {
    a.x != b.x || a.y != b.y || a.z != b.z
  }

  /** A vector is determined by its three indexed components. */
  lemma {:induction false} Extensionality(a: Vec3, b: Vec3)
    ensures a == b <==> forall i | 0 <= i < 3 :: At(a, i) == At(b, i)
  {
    if forall i | 0 <= i < 3 :: At(a, i) == At(b, i) {
      assert At(a, 0) == At(b, 0) && At(a, 1) == At(b, 1) && At(a, 2) == At(b, 2);
    }
  }

  /** Reading back a written component, and reading any other one. */
  lemma AtWith(v: Vec3, i: int, j: int, s: real)
    requires 0 <= i < 3 && 0 <= j < 3
    ensures At(With(v, i, s), j) == if i == j then s else At(v, j)
  {
  }

  /** Writing back the component just read changes nothing. */
  lemma WithAt(v: Vec3, i: int)
    requires 0 <= i < 3
    ensures With(v, i, At(v, i)) == v
  {
  }

  lemma AddCommutative(a: Vec3, b: Vec3)
    ensures Add(a, b) == Add(b, a)
  {
  }

  lemma AddAssociative(a: Vec3, b: Vec3, c: Vec3)
    ensures Add(Add(a, b), c) == Add(a, Add(b, c))
  {
  }

  lemma AddZero(v: Vec3)
    ensures Add(v, Zero()) == v && Add(Zero(), v) == v
  {
  }

  lemma NegInvolutive(v: Vec3)
    ensures Neg(Neg(v)) == v
  {
  }

  lemma SubAddCancel(a: Vec3, b: Vec3)
    ensures Sub(Add(a, b), b) == a
  {
  }

  lemma DivMulCancel(a: Vec3, b: Vec3)
    requires NonzeroComponents(b)
    ensures Div(Mul(a, b), b) == a
  {
  }

  lemma ScalarOperandOrder(s: real, v: Vec3)
    ensures ScalarAdd(s, v) == AddScalar(v, s)
    ensures ScalarMul(s, v) == MulScalar(v, s)
    ensures ScalarSub(s, v) == Neg(SubScalar(v, s))
  {
  }

  /** A `vec3` object: the storage behind the compound assignments and the
      writable `operator[]`. */
  class Vec3Var {
    var x: real
    var y: real
    var z: real

    function Value(): Vec3
      reads this
    {
      Vec3(x, y, z)
    }

    /** Any of the constructors, given the value it builds. */
    constructor (v: Vec3)
      ensures Value() == v
    {
      x, y, z := v.x, v.y, v.z;
    }

    /** `v[i] = s` through the writable `operator[]`: only component `i` changes. */
    method SetAt(i: int, s: real)
      requires 0 <= i < 3
      modifies this
      ensures Value() == With(old(Value()), i, s)
      ensures At(Value(), i) == s
      ensures forall j | 0 <= j < 3 && j != i :: At(Value(), j) == At(old(Value()), j)
    {
      if i == 0 {
        x := s;
      } else if i == 1 {
        y := s;
      } else {
        z := s;
      }
    }

    method AddAssign(other: Vec3)
      modifies this
      ensures Value() == Add(old(Value()), other)
    {
      var r := Add(Value(), other);
      x, y, z := r.x, r.y, r.z;
    }

    method SubAssign(other: Vec3)
      modifies this
      ensures Value() == Sub(old(Value()), other)
    {
      var r := Sub(Value(), other);
      x, y, z := r.x, r.y, r.z;
    }

    method MulAssign(other: Vec3)
      modifies this
      ensures Value() == Mul(old(Value()), other)
    {
      var r := Mul(Value(), other);
      x, y, z := r.x, r.y, r.z;
    }

    method DivAssign(other: Vec3)
      requires NonzeroComponents(other)
      modifies this
      ensures Value() == Div(old(Value()), other)
    {
      var r := Div(Value(), other);
      x, y, z := r.x, r.y, r.z;
    }

    method AddAssignScalar(other: real)
      modifies this
      ensures Value() == AddScalar(old(Value()), other)
    {
      var r := AddScalar(Value(), other);
      x, y, z := r.x, r.y, r.z;
    }

    method SubAssignScalar(other: real)
      modifies this
      ensures Value() == SubScalar(old(Value()), other)
    {
      var r := SubScalar(Value(), other);
      x, y, z := r.x, r.y, r.z;
    }

    method MulAssignScalar(other: real)
      modifies this
      ensures Value() == MulScalar(old(Value()), other)
    {
      var r := MulScalar(Value(), other);
      x, y, z := r.x, r.y, r.z;
    }

    method DivAssignScalar(other: real)
      requires other != 0.0
      modifies this
      ensures Value() == DivScalar(old(Value()), other)
    {
      var r := DivScalar(Value(), other);
      x, y, z := r.x, r.y, r.z;
    }
  }
}
