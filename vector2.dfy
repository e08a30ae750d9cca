/** Two-component vectors (`vec2_type` in math/vec2.h).
    The scalar type parameter of the library is fixed to `real`, so every
    operation is exact; a component division needs a nonzero divisor.
    The aliases `u` and `v` share storage with `x` and `y` and are not
    separate fields here. */
module Vector2 {

  /** A vector value: `x` (alias `u`) and `y` (alias `v`). The per-component
      constructor `vec2_type(x, y)` is the datatype constructor. */
  datatype Vec2 = Vec2(x: real, y: real)

  /** `vec2_type(value)`: both components set to `value`. */
  function Broadcast(value: real): (r: Vec2)
    ensures r.x == value && r.y == value
  {
    Vec2(value, value)
  }

  /** `vec2_type()`, which delegates to `vec2_type(0)`. */
  function Zero(): (r: Vec2)
    ensures r.x == 0.0 && r.y == 0.0
  {
    Broadcast(0.0)
  }

  /** Unary `+`. */
  function Pos(v: Vec2): (r: Vec2)
    ensures r == v
  {
    Vec2(v.x, v.y)
  }

  /** Unary `-`: the additive inverse. */
  function Neg(v: Vec2): (r: Vec2)
    ensures Add(v, r) == Zero()
  {
    Vec2(-v.x, -v.y)
  }

  /** Vector `+` vector (the member and the free operator agree). */
  function Add(a: Vec2, b: Vec2): (r: Vec2)
    ensures r.x == a.x + b.x && r.y == a.y + b.y
  {
    Vec2(a.x + b.x, a.y + b.y)
  }

  /** Vector `-` vector: undoes an addition of `b`. */
  function Sub(a: Vec2, b: Vec2): (r: Vec2)
    ensures Add(r, b) == a
  {
    Vec2(a.x - b.x, a.y - b.y)
  }

  /** Vector `*` vector, component by component. */
  function Mul(a: Vec2, b: Vec2): (r: Vec2)
    ensures r.x == a.x * b.x && r.y == a.y * b.y
  {
    Vec2(a.x * b.x, a.y * b.y)
  }

  predicate NonzeroComponents(v: Vec2)
  {
    v.x != 0.0 && v.y != 0.0
  }

  /** Vector `/` vector: undoes a multiplication by `b`. */
  function Div(a: Vec2, b: Vec2): (r: Vec2)
    requires NonzeroComponents(b)
    ensures Mul(r, b) == a
  {
    Vec2(a.x / b.x, a.y / b.y)
  }

  /** Free `operator+(vec2, T)`: the same as adding the broadcast scalar. */
  function AddScalar(a: Vec2, b: real): (r: Vec2)
    ensures r == Add(a, Broadcast(b))
  {
    Vec2(a.x + b, a.y + b)
  }

  /** Free `operator-(vec2, T)`. */
  function SubScalar(a: Vec2, b: real): (r: Vec2)
    ensures r == Sub(a, Broadcast(b))
  {
    Vec2(a.x - b, a.y - b)
  }

  /** Free `operator*(vec2, T)`. */
  function MulScalar(a: Vec2, b: real): (r: Vec2)
    ensures r == Mul(a, Broadcast(b))
  {
    Vec2(a.x * b, a.y * b)
  }

  /** Free `operator/(vec2, T)`. */
  function DivScalar(a: Vec2, b: real): (r: Vec2)
    requires b != 0.0
    ensures r == Div(a, Broadcast(b))
  {
    Vec2(a.x / b, a.y / b)
  }

  /** Free `operator+(T, vec2)`: the scalar is the left operand of each component. */
  function ScalarAdd(a: real, b: Vec2): (r: Vec2)
    ensures r == Add(Broadcast(a), b)
  {
    Vec2(a + b.x, a + b.y)
  }

  /** Free `operator-(T, vec2)`. */
  function ScalarSub(a: real, b: Vec2): (r: Vec2)
    ensures r == Sub(Broadcast(a), b)
  {
    Vec2(a - b.x, a - b.y)
  }

  /** Free `operator*(T, vec2)`. */
  function ScalarMul(a: real, b: Vec2): (r: Vec2)
    ensures r == Mul(Broadcast(a), b)
  {
    Vec2(a * b.x, a * b.y)
  }

  /** Free `operator/(T, vec2)`. */
  function ScalarDiv(a: real, b: Vec2): (r: Vec2)
    requires NonzeroComponents(b)
    ensures r == Div(Broadcast(a), b)
  {
    Vec2(a / b.x, a / b.y)
  }

  /** `operator==`: exact comparison of both components is value equality. */
  function Eq(a: Vec2, b: Vec2): (r: bool)
    ensures r <==> a == b
  {
    a.x == b.x && a.y == b.y
  }

  /** `operator!=`: the exact negation of `==`. */
  function Neq(a: Vec2, b: Vec2): (r: bool)
    ensures r <==> !Eq(a, b)
  {
    a.x != b.x || a.y != b.y
  }

  lemma AddCommutative(a: Vec2, b: Vec2)
    ensures Add(a, b) == Add(b, a)
  {
  }

  lemma AddAssociative(a: Vec2, b: Vec2, c: Vec2)
    ensures Add(Add(a, b), c) == Add(a, Add(b, c))
  {
  }

  /** The default-constructed vector is neutral for `+`. */
  lemma AddZero(v: Vec2)
    ensures Add(v, Zero()) == v && Add(Zero(), v) == v
  {
  }

  lemma NegInvolutive(v: Vec2)
    ensures Neg(Neg(v)) == v
  {
  }

  lemma SubIsAddNeg(a: Vec2, b: Vec2)
    ensures Sub(a, b) == Add(a, Neg(b))
  {
  }

  /** Adding then subtracting the same vector gives back the original. */
  lemma SubAddCancel(a: Vec2, b: Vec2)
    ensures Sub(Add(a, b), b) == a
  {
  }

  /** Multiplying then dividing by the same vector gives back the original. */
  lemma DivMulCancel(a: Vec2, b: Vec2)
    requires NonzeroComponents(b)
    ensures Div(Mul(a, b), b) == a
  {
  }

  /** Operand order: it does not matter for `+` and `*`, and `s - v` is the
      negation of `v - s`. */
  lemma ScalarOperandOrder(s: real, v: Vec2)
    ensures ScalarAdd(s, v) == AddScalar(v, s)
    ensures ScalarMul(s, v) == MulScalar(v, s)
    ensures ScalarSub(s, v) == Neg(SubScalar(v, s))
  {
  }

  /** A `vec2` object: the storage that the compound assignments overwrite. */
  class Vec2Var {
    var x: real
    var y: real

    function Value(): Vec2
      reads this
    {
      Vec2(x, y)
    }

    /** Any of the constructors, given the value it builds. */
    constructor (v: Vec2)
      ensures Value() == v
    {
      x, y := v.x, v.y;
    }

    /** `*this = *this op other` for each compound assignment. */
    method AddAssign(other: Vec2)
      modifies this
      ensures Value() == Add(old(Value()), other)
    {
      var r := Add(Value(), other);
      x, y := r.x, r.y;
    }

    method SubAssign(other: Vec2)
      modifies this
      ensures Value() == Sub(old(Value()), other)
    {
      var r := Sub(Value(), other);
      x, y := r.x, r.y;
    }

    method MulAssign(other: Vec2)
      modifies this
      ensures Value() == Mul(old(Value()), other)
    {
      var r := Mul(Value(), other);
      x, y := r.x, r.y;
    }

    method DivAssign(other: Vec2)
      requires NonzeroComponents(other)
      modifies this
      ensures Value() == Div(old(Value()), other)
    {
      var r := Div(Value(), other);
      x, y := r.x, r.y;
    }

    method AddAssignScalar(other: real)
      modifies this
      ensures Value() == AddScalar(old(Value()), other)
    {
      var r := AddScalar(Value(), other);
      x, y := r.x, r.y;
    }

    method SubAssignScalar(other: real)
      modifies this
      ensures Value() == SubScalar(old(Value()), other)
    {
      var r := SubScalar(Value(), other);
      x, y := r.x, r.y;
    }

    method MulAssignScalar(other: real)
      modifies this
      ensures Value() == MulScalar(old(Value()), other)
    {
      var r := MulScalar(Value(), other);
      x, y := r.x, r.y;
    }

    method DivAssignScalar(other: real)
      requires other != 0.0
      modifies this
      ensures Value() == DivScalar(old(Value()), other)
    {
      var r := DivScalar(Value(), other);
      x, y := r.x, r.y;
    }
  }
}
