# Verified model of a small graphics math library

This project models the header-only C++ math library in `math/`: the
fixed-size vectors `vec2_type`, `vec3_type` and `vec4_type` with their
component-wise operators, and the 4x4 matrix `mat4_type` with its
constructors, `identity`, indexing, assignment, the compound operators
`+=`, `-=` and `*=`, and the free matrix product.

Modules follow the headers one to one:

- `Vector2` (`math/vec2.h`), `Vector3` (`math/vec3.h`), `Vector4`
  (`math/vec4.h`): a vector is a value datatype with one field per storage
  slot (aliases such as `u`, `r` or the `w` of `vec3` share a slot with
  `x`, `y`, `z` and are not separate fields). Every operator that returns a
  new vector is a function; the member and free forms of the same operator
  mean the same and are one function. The compound assignments and the
  writable `operator[]` change an object in place, so each vector type also
  has a class (`Vec2Var`, `Vec3Var`, `Vec4Var`) whose fields the methods
  overwrite.
- `Matrix4` (`math/mat4.h`): a matrix value is a sequence of four `Vec4`
  (the array `val[4]`), and `Mat4Var` is the object, holding `val` as an
  `array` of four vectors. The compound operators take the other operand
  as an object, so `a += a` and `a *= a` are covered: the product is
  computed into a temporary before `val` is overwritten, as in the source,
  while `+=` and `-=` update one slot at a time and read `m.val[k]` just
  before writing `val[k]`.

The scalar type `T` is fixed to the mathematical reals, so the arithmetic
is exact. Division is only specified for nonzero divisors.

Under the product of lines 100-118 of `math/mat4.h`, `val[i]` is the i-th
column: column i of `m1 * m2` is `m1[0] * m2[i][0] + ... + m1[3] * m2[i][3]`.
The model writes `Entry(m, i, j)` for `m[i][j]`, and entry (i, j) of the
product is the sum over k of `m1[k][j] * m2[i][k]`. The 16-scalar
constructor stores its arguments `m_i0 .. m_i3` in `val[i]`, so in this
convention each argument line becomes a column.

The free `operator+(T, vec4)` at line 72 of `math/vec4.h` writes its last
component as `a.w + b` where `a` is the scalar, which does not compile
once the template is instantiated. `Vector4.ScalarAdd` models the evident
intent, `a + b.w`, as in the three other components and every sibling
operator.

## Model

| member | source | states |
|---|---|---|
| Vector2.Broadcast | math/vec2.h:13 | `vec2(value)` sets both components to `value` |
| Vector2.Zero | math/vec2.h:14 | `vec2()` delegates to `vec2(0)` and yields (0, 0) |
| Vector2.Pos | math/vec2.h:18 | unary `+` returns a vector equal to its operand |
| Vector2.Neg | math/vec2.h:19 | unary `-` is the additive inverse: `v + (-v)` is the zero vector |
| Vector2.Add | math/vec2.h:21 | member and free vector `+` add x to x and y to y (the free one at lines 56-59 is the same function) |
| Vector2.Sub | math/vec2.h:22 | vector `-` undoes `+`: `(a - b) + b == a` |
| Vector2.Mul | math/vec2.h:23 | vector `*` multiplies x by x and y by y |
| Vector2.Div | math/vec2.h:24 | vector `/` (divisor components nonzero) undoes `*`: `(a / b) * b == a` |
| Vector2.AddScalar | math/vec2.h:44-47 | `v + s` equals `v + vec2(s)` |
| Vector2.SubScalar | math/vec2.h:62-65 | `v - s` equals `v - vec2(s)` |
| Vector2.MulScalar | math/vec2.h:80-83 | `v * s` equals `v * vec2(s)` |
| Vector2.DivScalar | math/vec2.h:98-101 | `v / s` (s nonzero) equals `v / vec2(s)` |
| Vector2.ScalarAdd | math/vec2.h:50-53 | `s + v` equals `vec2(s) + v`: the scalar is the left operand of each component |
| Vector2.ScalarSub | math/vec2.h:68-71 | `s - v` equals `vec2(s) - v`, i.e. (s - v.x, s - v.y) |
| Vector2.ScalarMul | math/vec2.h:86-89 | `s * v` equals `vec2(s) * v` |
| Vector2.ScalarDiv | math/vec2.h:104-107 | `s / v` (components of v nonzero) equals `vec2(s) / v` |
| Vector2.Eq | math/vec2.h:35 | `==` holds exactly when the two vectors are equal values (both components equal) |
| Vector2.Neq | math/vec2.h:36 | `!=` is the exact negation of `==` |
| Vector2.AddCommutative | math/vec2.h:21 | vector `+` is commutative |
| Vector2.AddAssociative | math/vec2.h:21 | vector `+` is associative |
| Vector2.AddZero | math/vec2.h:14 | the default vector is a two-sided neutral element of `+` |
| Vector2.NegInvolutive | math/vec2.h:19 | negating twice gives the original vector |
| Vector2.SubIsAddNeg | math/vec2.h:22 | `a - b` equals `a + (-b)` |
| Vector2.SubAddCancel | math/vec2.h:21-22 | `(a + b) - b == a` |
| Vector2.DivMulCancel | math/vec2.h:23-24 | `(a * b) / b == a` when the components of b are nonzero |
| Vector2.ScalarOperandOrder | math/vec2.h:44-71 | `s + v == v + s`, `s * v == v * s`, and `s - v == -(v - s)` |
| Vector2.Vec2Var.constructor | math/vec2.h:13-16 | a constructed object holds exactly the value built by the chosen constructor |
| Vector2.Vec2Var.AddAssign | math/vec2.h:26 | `a += b` with a vector `b` leaves `a` equal to old `a + b`; `b` is a value and is not changed |
| Vector2.Vec2Var.SubAssign | math/vec2.h:27 | `a -= b` with a vector `b` leaves `a` equal to old `a - b`; `b` is a value and is not changed |
| Vector2.Vec2Var.MulAssign | math/vec2.h:28 | `a *= b` with a vector `b` leaves `a` equal to old `a * b`; `b` is a value and is not changed |
| Vector2.Vec2Var.DivAssign | math/vec2.h:29 | `a /= b` with a vector `b` (divisor nonzero) leaves `a` equal to old `a / b`; `b` is a value and is not changed |
| Vector2.Vec2Var.AddAssignScalar | math/vec2.h:30 | `a += b` with a scalar `b` leaves `a` equal to old `a + b`; `b` is a value and is not changed |
| Vector2.Vec2Var.SubAssignScalar | math/vec2.h:31 | `a -= b` with a scalar `b` leaves `a` equal to old `a - b`; `b` is a value and is not changed |
| Vector2.Vec2Var.MulAssignScalar | math/vec2.h:32 | `a *= b` with a scalar `b` leaves `a` equal to old `a * b`; `b` is a value and is not changed |
| Vector2.Vec2Var.DivAssignScalar | math/vec2.h:33 | `a /= b` with a scalar `b` (divisor nonzero) leaves `a` equal to old `a / b`; `b` is a value and is not changed |
| Vector3.At | math/vec3.h:20 | const `operator[]` at i in 0..2 reads slot i of the components laid out as x, y, z |
| Vector3.With | math/vec3.h:19 | writing `s` at index i in 0..2 sets component i to `s` and keeps the other two |
| Vector3.Broadcast | math/vec3.h:14 | `vec3(value)` sets x, y and z (every index 0..2) to `value` |
| Vector3.Zero | math/vec3.h:15 | `vec3()` delegates to `vec3(0)`: every component is 0 |
| Vector3.Pos | math/vec3.h:22 | unary `+` returns a vector equal to its operand |
| Vector3.Neg | math/vec3.h:23 | unary `-` negates every component and is the additive inverse |
| Vector3.Add | math/vec3.h:55-58 | component i of `a + b` is `a[i] + b[i]` for every i in 0..2 |
| Vector3.Sub | math/vec3.h:73-76 | component i of `a - b` is `a[i] - b[i]`, and `(a - b) + b == a` |
| Vector3.Mul | math/vec3.h:91-94 | component i of `a * b` is `a[i] * b[i]` |
| Vector3.Div | math/vec3.h:109-112 | component i of `a / b` is `a[i] / b[i]` (divisors nonzero), and `(a / b) * b == a` |
| Vector3.AddScalar | math/vec3.h:43-46 | `v + s` equals `v + vec3(s)` |
| Vector3.SubScalar | math/vec3.h:61-64 | `v - s` equals `v - vec3(s)` |
| Vector3.MulScalar | math/vec3.h:79-82 | `v * s` equals `v * vec3(s)` |
| Vector3.DivScalar | math/vec3.h:97-100 | `v / s` (s nonzero) equals `v / vec3(s)` |
| Vector3.ScalarAdd | math/vec3.h:49-52 | `s + v` equals `vec3(s) + v` |
| Vector3.ScalarSub | math/vec3.h:67-70 | `s - v` equals `vec3(s) - v`: the scalar is on the left of each component |
| Vector3.ScalarMul | math/vec3.h:85-88 | `s * v` equals `vec3(s) * v` |
| Vector3.ScalarDiv | math/vec3.h:103-106 | `s / v` (components of v nonzero) equals `vec3(s) / v` |
| Vector3.Eq | math/vec3.h:34 | `==` holds exactly when the two vectors are equal values |
| Vector3.Neq | math/vec3.h:35 | `!=` is the exact negation of `==` |
| Vector3.Extensionality | math/vec3.h:19-20 | two vectors are equal exactly when `v[0]`, `v[1]`, `v[2]` agree |
| Vector3.AtWith | math/vec3.h:19-20 | after writing `v[i] = s`, reading `v[i]` gives `s` and every other index is unchanged |
| Vector3.WithAt | math/vec3.h:19-20 | writing back the value just read at an index changes nothing |
| Vector3.AddCommutative | math/vec3.h:55-58 | vector `+` is commutative |
| Vector3.AddAssociative | math/vec3.h:55-58 | vector `+` is associative |
| Vector3.AddZero | math/vec3.h:15 | the default vector is a two-sided neutral element of `+` |
| Vector3.NegInvolutive | math/vec3.h:23 | negating twice gives the original vector |
| Vector3.SubAddCancel | math/vec3.h:55-76 | `(a + b) - b == a` |
| Vector3.DivMulCancel | math/vec3.h:91-112 | `(a * b) / b == a` when the components of b are nonzero |
| Vector3.ScalarOperandOrder | math/vec3.h:43-70 | `s + v == v + s`, `s * v == v * s`, and `s - v == -(v - s)` |
| Vector3.Vec3Var.constructor | math/vec3.h:14-17 | a constructed object holds exactly the value built by the chosen constructor |
| Vector3.Vec3Var.SetAt | math/vec3.h:19 | a write through `operator[]` at i in 0..2 sets component i and leaves the other two unchanged |
| Vector3.Vec3Var.AddAssign | math/vec3.h:25 | `a += b` with a vector `b` leaves `a` equal to the free operator applied to old `a` and `b` |
| Vector3.Vec3Var.SubAssign | math/vec3.h:26 | `a -= b` with a vector `b` leaves `a` equal to the free operator applied to old `a` and `b` |
| Vector3.Vec3Var.MulAssign | math/vec3.h:27 | `a *= b` with a vector `b` leaves `a` equal to the free operator applied to old `a` and `b` |
| Vector3.Vec3Var.DivAssign | math/vec3.h:28 | `a /= b` with a vector `b` (divisor nonzero) leaves `a` equal to the free operator applied to old `a` and `b` |
| Vector3.Vec3Var.AddAssignScalar | math/vec3.h:29 | `a += b` with a scalar `b` leaves `a` equal to the free operator applied to old `a` and `b` |
| Vector3.Vec3Var.SubAssignScalar | math/vec3.h:30 | `a -= b` with a scalar `b` leaves `a` equal to the free operator applied to old `a` and `b` |
| Vector3.Vec3Var.MulAssignScalar | math/vec3.h:31 | `a *= b` with a scalar `b` leaves `a` equal to the free operator applied to old `a` and `b` |
| Vector3.Vec3Var.DivAssignScalar | math/vec3.h:32 | `a /= b` with a scalar `b` (divisor nonzero) leaves `a` equal to the free operator applied to old `a` and `b` |
| Vector4.At | math/vec4.h:21 | const `operator[]` at i in 0..3 reads slot i of the components laid out as x, y, z, w |
| Vector4.With | math/vec4.h:20 | writing `s` at index i in 0..3 sets component i to `s` and keeps the other three |
| Vector4.Broadcast | math/vec4.h:16 | `vec4(value)` sets x, y, z and w to `value` |
| Vector4.Zero | math/vec4.h:15 | `vec4()`, written separately, builds the same value as `vec4(0)` |
| Vector4.Pos | math/vec4.h:23 | unary `+` returns a vector equal to its operand |
| Vector4.Neg | math/vec4.h:24 | unary `-` negates every component and is the additive inverse |
| Vector4.Add | math/vec4.h:26-29 | component i of `a + b` is `a[i] + b[i]` for i in 0..3; the free operator at lines 76-79 is the same function |
| Vector4.Sub | math/vec4.h:31-34 | component i of `a - b` is `a[i] - b[i]`, and `(a - b) + b == a`; free operator at lines 94-97 |
| Vector4.Mul | math/vec4.h:36-39 | component i of `a * b` is `a[i] * b[i]`; free operator at lines 112-115 |
| Vector4.Div | math/vec4.h:41-44 | component i of `a / b` is `a[i] / b[i]` (divisors nonzero), and `(a / b) * b == a`; free operator at lines 130-133 |
| Vector4.AddScalar | math/vec4.h:64-67 | `v + s` equals `v + vec4(s)` |
| Vector4.SubScalar | math/vec4.h:82-85 | `v - s` equals `v - vec4(s)` |
| Vector4.MulScalar | math/vec4.h:100-103 | `v * s` equals `v * vec4(s)` |
| Vector4.DivScalar | math/vec4.h:118-121 | `v / s` (s nonzero) equals `v / vec4(s)` |
| Vector4.ScalarAdd | math/vec4.h:70-73 | `s + v` equals `vec4(s) + v`; the w component is the intended `s + v.w`, not the ill-typed `a.w + b` of line 72 |
| Vector4.ScalarSub | math/vec4.h:88-91 | `s - v` equals `vec4(s) - v` |
| Vector4.ScalarMul | math/vec4.h:106-109 | `s * v` equals `vec4(s) * v` |
| Vector4.ScalarDiv | math/vec4.h:124-127 | `s / v` (components of v nonzero) equals `vec4(s) / v` |
| Vector4.Eq | math/vec4.h:55 | `==` holds exactly when the two vectors are equal values |
| Vector4.Neq | math/vec4.h:56 | `!=` is the exact negation of `==` |
| Vector4.Extensionality | math/vec4.h:20-21 | two vectors are equal exactly when indices 0..3 agree |
| Vector4.AtWith | math/vec4.h:20-21 | after writing `v[i] = s`, reading `v[i]` gives `s` and the other three indices are unchanged |
| Vector4.WithAt | math/vec4.h:20-21 | writing back the value just read at an index changes nothing |
| Vector4.AddCommutative | math/vec4.h:76-79 | vector `+` is commutative |
| Vector4.AddAssociative | math/vec4.h:76-79 | vector `+` is associative |
| Vector4.AddZero | math/vec4.h:15 | the default vector is a two-sided neutral element of `+` |
| Vector4.NegInvolutive | math/vec4.h:24 | negating twice gives the original vector |
| Vector4.SubAddCancel | math/vec4.h:26-34 | `(a + b) - b == a` |
| Vector4.DivMulCancel | math/vec4.h:36-44 | `(a * b) / b == a` when the components of b are nonzero |
| Vector4.ScaleBySum | math/vec4.h:100-103 | `v * (s + t) == v * s + v * t` |
| Vector4.ScaleByProduct | math/vec4.h:100-103 | `v * (q * t) == (v * q) * t` |
| Vector4.ScaleOfSum | math/vec4.h:100-103 | `(v + u) * s == v * s + u * s` |
| Vector4.ScalarOperandOrder | math/vec4.h:64-91 | `s + v == v + s`, `s * v == v * s`, and `s - v == -(v - s)` |
| Vector4.Vec4Var.constructor | math/vec4.h:15-18 | a constructed object holds exactly the value built by the chosen constructor |
| Vector4.Vec4Var.SetAt | math/vec4.h:20 | a write through `operator[]` at i in 0..3 sets component i and leaves the other three unchanged |
| Vector4.Vec4Var.AddAssign | math/vec4.h:46 | `a += b` with a vector `b` leaves `a` equal to old `a + b` |
| Vector4.Vec4Var.SubAssign | math/vec4.h:47 | `a -= b` with a vector `b` leaves `a` equal to old `a - b` |
| Vector4.Vec4Var.MulAssign | math/vec4.h:48 | `a *= b` with a vector `b` leaves `a` equal to old `a * b` |
| Vector4.Vec4Var.DivAssign | math/vec4.h:49 | `a /= b` with a vector `b` (divisor nonzero) leaves `a` equal to old `a / b` |
| Vector4.Vec4Var.AddAssignScalar | math/vec4.h:50 | `a += b` with a scalar `b` leaves `a` equal to old `a + b` |
| Vector4.Vec4Var.SubAssignScalar | math/vec4.h:51 | `a -= b` with a scalar `b` leaves `a` equal to old `a - b` |
| Vector4.Vec4Var.MulAssignScalar | math/vec4.h:52 | `a *= b` with a scalar `b` leaves `a` equal to old `a * b` |
| Vector4.Vec4Var.DivAssignScalar | math/vec4.h:53 | `a /= b` with a scalar `b` (divisor nonzero) leaves `a` equal to old `a / b` |
| Matrix4.Entry | math/mat4.h:46-49 | `m[i][j]`: component j (as read by the const `operator[]` of `vec4`, lines 20-21 of `math/vec4.h`) of the stored vector `val[i]` |
| Matrix4.Identity | math/mat4.h:51-57 | `identity(s)` puts `s` at every `[i][i]` and 0 at every off-diagonal entry |
| Matrix4.FromScalars | math/mat4.h:29-39 | the 16-scalar constructor gives `val[i][j] == m_ij` for all i, j in 0..3 (argument `4*i + j`) |
| Matrix4.Add | math/mat4.h:68-75 | the value `+=` produces: entry (i, j) is the sum of the two entries |
| Matrix4.Sub | math/mat4.h:77-84 | the value `-=` produces: entry (i, j) is the difference, and subtracting undoes adding |
| Matrix4.Combine | math/mat4.h:113-116 | the column expression `a0 * w[0] + a1 * w[1] + a2 * w[2] + a3 * w[3]`, summed left to right; its meaning is stated by `CombineAt`, `CombineAdd`, `CombineScale` and `CombineCombine` |
| Matrix4.CombineAt | math/mat4.h:113-116 | `a0 * w[0] + a1 * w[1] + a2 * w[2] + a3 * w[3]` has component j equal to the sum over k of `a[k][j] * w[k]` |
| Matrix4.Mul | math/mat4.h:100-118 | the free `operator*`: column i of the result is `Combine(m1, m2[i])`; its contract is stated by `MulEntry`, `MulEntries` and `MulIsProductSum` (entries are the inner-index sums) and by the algebraic lemmas below |
| Matrix4.MulEntry | math/mat4.h:100-118 | entry (i, j) of `m1 * m2` is `sum_k m1[k][j] * m2[i][k]` |
| Matrix4.MulEntries | math/mat4.h:100-118 | the same, for all sixteen entries at once |
| Matrix4.MulIsProductSum | math/mat4.h:100-118 | `m1 * m2` agrees entry by entry with the textbook sum over the inner index, defined recursively |
| Matrix4.Extensionality | math/mat4.h:8 | two matrices are equal exactly when all sixteen entries `val[i][j]` agree |
| Matrix4.MulIdentityLeft | math/mat4.h:51-57 | `identity(1) * m == m` for every m |
| Matrix4.MulIdentityRight | math/mat4.h:100-118 | `m * identity(1) == m` for every m |
| Matrix4.SubAddCancel | math/mat4.h:68-84 | `+=` followed by `-=` of the same matrix restores the original value |
| Matrix4.MulDistributesOverAdd | math/mat4.h:100-118 | `a * (b + c) == a * b + a * c` |
| Matrix4.MulDistributesOverAddLeft | math/mat4.h:100-118 | `(a + b) * c == a * c + b * c` |
| Matrix4.CombineAdd | math/mat4.h:112-116 | a column of the product is linear in the weight column: weights `v + u` give the sum of the columns for `v` and for `u` |
| Matrix4.CombineScale | math/mat4.h:112-116 | weights `v * s` give the column for `v` scaled by `s` |
| Matrix4.CombineOfSum | math/mat4.h:112-116 | the column formed from `a + b` is the sum of the columns formed from `a` and from `b` |
| Matrix4.CombineCombine | math/mat4.h:100-118 | forming a column with `b` and then with `a` is the same as forming it with `a * b` |
| Matrix4.MulAssociative | math/mat4.h:100-118 | `(a * b) * c == a * (b * c)` for all matrices |
| Matrix4.Mat4Var.Default | math/mat4.h:10 | `mat4()` delegates to `mat4(1)`: the identity matrix |
| Matrix4.Mat4Var.Diagonal | math/mat4.h:11 | `mat4(s)` calls `identity(s)`: `s` on the diagonal, 0 elsewhere |
| Matrix4.Mat4Var.Copy | math/mat4.h:13-19 | the copy constructor makes `val[k]` equal to `m[k]` for every k, in fresh storage |
| Matrix4.Mat4Var.FromVectors | math/mat4.h:21-27 | the four-vector constructor makes `val[k]` equal to the k-th argument |
| Matrix4.Mat4Var.Of16 | math/mat4.h:29-39 | the 16-scalar constructor stores `FromScalars` of its arguments |
| Matrix4.Mat4Var.Get | math/mat4.h:46-49 | const `operator[]` is defined for i in 0..3 only and returns `val[i]` |
| Matrix4.Mat4Var.SetColumn | math/mat4.h:41-44 | a write through the writable `operator[]` replaces `val[i]` and nothing else |
| Matrix4.Mat4Var.SetIdentity | math/mat4.h:51-57 | `identity(s)` overwrites the whole matrix with the diagonal matrix of `s` |
| Matrix4.Mat4Var.Assign | math/mat4.h:59-66 | `operator=` makes `val[k]` equal to old `m[k]` for every k, also when `m` is the object itself; `m` with its own storage is not changed |
| Matrix4.Mat4Var.AddAssign | math/mat4.h:68-75 | after `a += m`, `a` is old `a` plus old `m` entrywise, even when `m` is `a` itself; `m` with its own storage is not changed |
| Matrix4.Mat4Var.SubAssign | math/mat4.h:77-84 | after `a -= m`, `a` is old `a` minus old `m` entrywise; `m` with its own storage is not changed |
| Matrix4.Mat4Var.MulAssign | math/mat4.h:86-89 | after `a *= m`, `a` equals old `a * m`; `m` with its own storage is not changed |

## Left out

- `math/func.h` (`pi`, `toDeg`, `toRad`, `toGl` for each vector and the matrix, `length`, `dot`, `clamp`, `cross`, `normalize`, `perspective`, `ortho`, `lookAt`, `inverse`, `translate`, `rotate`, `scale`): these are declared in `math/func.h`; their bodies are in `func.inl`, and `func.inl` is not part of this model.
- `mat4 /=` (lines 91-94 of `math/mat4.h`): it multiplies by `inverse(m)`, which is declared in `math/func.h`; its body is in `func.inl`, and `func.inl` is not part of this model.
- Floating-point rounding, infinities and NaN: the scalar type is `real`, so `==` on vectors is exact equality and the cancellation lemmas (`SubAddCancel`, `DivMulCancel`) hold only in this exact model.
- Division by a zero component: every division carries a nonzero-divisor precondition; IEEE results for zero divisors are not modelled.
- The generic scalar `T` and the `GLfloat` aliases `vec2`, `vec3`, `vec4`, `mat4`: only the real-valued instance is modelled.
- The unions and pointer views of the storage (aliases, taking the address of the first component, passing `val` to OpenGL): each alias group is one field, and memory layout is not modelled.
- The references returned by the compound operators and `operator=` (used for chaining) are not modelled; each method returns nothing.
- Vector compound assignments take the right operand as a value: the source computes the whole new value before overwriting `*this`, so `v += v` gives the same result as with a copy.
- `operator[]` on vectors and matrices with an index outside the valid range is undefined behaviour in the source; the model requires a valid index.
