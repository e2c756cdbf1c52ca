# vec2 / vec3 / vec4 and the Image pixel buffer, in Dafny

This project models two parts of a small C++ ray-tracing code base and proves
properties of the model.

1. **The fixed-size vector types `vec2`, `vec3` and `vec4`.** Each is a tuple of
   2, 3 or 4 float components. Each has three constructors (zero, full, broadcast).
   The compound assignments `+= -= *= /=` take a vector or a scalar; they update the
   receiver in place and return it. The free binary operators include
   scalar-on-the-left multiplication. There are also unary minus, exact `==` and
   `!=`, and stream output and input. Each arity lays a second set of names over the
   same storage: `x/y` and `u/v`; `x/y/z` and `r/g/b`; `x/y/z/w` and `r/g/b/a`.
2. **The pixel buffer `Image`.** It is a `width x height` grid of four-channel
   colours, read and written through `operator()(row, column)`. Its `write()`
   flattens the grid into the RGBA byte buffer that is handed to the PNG encoder.

## Layout

| file | module | what it holds |
|---|---|---|
| scalar.dfy | `Scalar` | the component type (`real`), the four operators, and unchecked division `Quot` |
| vectors.dfy | `Vectors` | the arity-independent reference: an N-vector as `seq<real>`; componentwise `Zip`/`Spread`/`Negate`/`Fill`; the AND/OR reductions of `==`/`!=`; the output template `( c0 ; c1 ; ... )`; lemmas about these |
| vec2.dfy, vec3.dfy, vec4.dfy | `Vector2`, `Vector3`, `Vector4` | per arity: the value datatype `VecN`, with the alias names as member functions; the pure operators as functions; the class `MutableVecN`, whose methods are the constructors and the in-place compound operators; stream input as `Read` |
| image.dfy | `ImageBuffer` | the `Image` class over an `array2<Color>`; the byte conversion; the specification of the flattened buffer (`Flatten`) and its layout lemmas; `Write` as the nested loop of the source, its inner loop as `WriteLine` |

How the model is built:

- **Components.** A component is a `real`. Each pure operator is written field by
  field, as the source writes it. Its contract ties the result to the generic
  componentwise definition in `Vectors`. So every operator is stated against one
  independent definition of "componentwise".
- **Compound operators.** These are methods of `MutableVecN` with `modifies this`.
  Each method's postcondition says the object now holds the matching binary
  operator's result on the old values, and that the method returns `this`. The
  argument may be the receiver itself. The postcondition reads it through `old`,
  so it also covers `v += v`. That case is well defined because each line of the
  source reads only the component it writes.
- **Alias names.** `r()`, `g()`, `b()`, `a()`, `u()` and `v()` are functions that
  read the same field as their geometric twin. The `SetR`-style methods show that a
  write through one name is read back through the other and changes nothing else.
- **The image grid.** `Image.data[i, j]` has `i < width` and `j < height`, as in
  the source's `data[row][column]`. The argument called "row" therefore ranges over
  the width. The const `operator()` is the function `Image.At`. A store through the
  reference that the non-const `operator()` returns is `Image.SetPixel`.
- **`Write`.** It runs height outer and width inner, as the source does, and
  appends four bytes per pixel. The inner loop is the method `WriteLine`. The loop
  invariants tie the bytes emitted so far to the specification function `Flatten`. Lemmas about `Flatten` give the buffer's
  length `4 * (height * width)` and the layout: channel `k` of pixel `(i, j)` is at
  `4 * (j * width + i) + k`. They also show that this layout is a bijection onto the
  buffer positions. Each byte is a `uint8`; `ToByte`'s contract gives its value.

Where the header comments and the code disagree, the model follows the code. The
comments of `operator>>` in include/vec3.hpp:128-135 and include/vec2.hpp:124-131
say "four values", but the code reads three and two values. `Vector3.Read` and
`Vector2.Read` model the code.

## Model

| member | source | states |
|---|---|---|
| Scalar.Quot | src/maths/vec4.cpp:77-84 | float division as the operators use it: for a non-zero divisor `q * b == a`; no caller must avoid a zero divisor |
| Vectors.NegateProperties | include/vec4.hpp:203-208 | componentwise negation is the product by -1, and negating twice restores the vector (any arity) |
| Vectors.AllEqualIsEquality | src/maths/vec4.cpp:86-88 | the AND-reduction of component equalities holds exactly when the two vectors are equal (any arity) |
| Vectors.AnyDifferIsNegation | src/maths/vec4.cpp:90-92 | the OR-reduction of component inequalities is exactly the negation of the AND-reduction of equalities (any arity) |
| Vectors.JoinSeparators | src/maths/vec3.cpp:86-89 | joining N printed components with ` ; ` adds exactly N - 1 `;` when no component contains one |
| Vectors.TemplateShape | include/vec4.hpp:122-129 | the output template opens with `( `, closes with ` )` and holds exactly N - 1 `;` |
| Vector4.Zero | src/maths/vec4.cpp:8 | `vec4()` holds the all-zero vector of 4 components |
| Vector4.Broadcast | src/maths/vec4.cpp:12 | `vec4(value)` holds `value` in each of the 4 components |
| Vector4.Add | src/maths/vec4.cpp:104-111 | `left + right` is the componentwise `+` of the two vectors (the generic `Zip(Plus, ...)`) |
| Vector4.Sub | src/maths/vec4.cpp:113-120 | `left - right` is the componentwise `-` of the two vectors (the generic `Zip(Minus, ...)`) |
| Vector4.Mul | src/maths/vec4.cpp:122-129 | `left * right` is the componentwise `*` of the two vectors (the generic `Zip(Times, ...)`) |
| Vector4.Div | src/maths/vec4.cpp:131-138 | `left / right` is the componentwise `/` of the two vectors (the generic `Zip(Over, ...)`); no divisor precondition |
| Vector4.AddScalar | src/maths/vec4.cpp:140-147 | `vec + value` applies `+ value` to every component (the generic `Spread(Plus, ...)`) |
| Vector4.SubScalar | src/maths/vec4.cpp:149-156 | `vec - value` applies `- value` to every component (the generic `Spread(Minus, ...)`) |
| Vector4.MulScalar | src/maths/vec4.cpp:158-165 | `vec * value` applies `* value` to every component (the generic `Spread(Times, ...)`) |
| Vector4.DivScalar | src/maths/vec4.cpp:176-183 | `vec / value` applies `/ value` to every component (the generic `Spread(Over, ...)`); no divisor precondition |
| Vector4.ScalarMul | src/maths/vec4.cpp:167-174 | `value * vec` is the same vector as `vec * value` |
| Vector4.Neg | src/maths/vec4.cpp:185-187 | unary minus negates every component and equals the product by -1 |
| Vector4.NegInvolution | include/vec4.hpp:203-208 | negating twice returns the original vector |
| Vector4.AddCommutes | src/maths/vec4.cpp:104-111 | `a + b == b + a` for all vectors |
| Vector4.MulCommutes | src/maths/vec4.cpp:122-129 | `a * b == b * a` for all vectors |
| Vector4.SubSelf | src/maths/vec4.cpp:113-120 | `a - a` is the zero vector `vec4()` for every vector |
| Vector4.Eq | src/maths/vec4.cpp:86-88 | `==` is the AND-reduction of the component equalities and holds exactly when the two vectors are equal |
| Vector4.Ne | src/maths/vec4.cpp:90-92 | `!=` is the OR-reduction of the component inequalities and is exactly the negation of `==` |
| Vector4.Format | src/maths/vec4.cpp:94-97 | `<<` writes the template `( x ; y ; z ; w )` over the printed components, in order |
| Vector4.FormatSeparators | include/vec4.hpp:122-129 | the output opens with `( `, closes with ` )` and holds exactly 3 `;` separator(s) when no printed number contains `;` |
| Vector4.Read | src/maths/vec4.cpp:99-102 | `>>` assigns the next 4 numbers to x, y, z, w in that order and consumes them |
| Vector4.MutableVec4.constructor | src/maths/vec4.cpp:8 | the default constructor leaves every field zero |
| Vector4.MutableVec4.Full | src/maths/vec4.cpp:10 | the full constructor stores its arguments positionally into x, y, z, w |
| Vector4.MutableVec4.FromScalar | src/maths/vec4.cpp:12 | the broadcast constructor stores `value` in every field |
| Vector4.MutableVec4.SetR | include/vec4.hpp:105-119 | `r()` and `x` name the same slot of the union: a write through `r` is read back through both `r()` and `x`, and no other component changes |
| Vector4.MutableVec4.SetG | include/vec4.hpp:105-119 | `g()` and `y` name the same slot of the union: a write through `g` is read back through both `g()` and `y`, and no other component changes |
| Vector4.MutableVec4.SetB | include/vec4.hpp:105-119 | `b()` and `z` name the same slot of the union: a write through `b` is read back through both `b()` and `z`, and no other component changes |
| Vector4.MutableVec4.SetA | include/vec4.hpp:105-119 | `a()` and `w` name the same slot of the union: a write through `a` is read back through both `a()` and `w`, and no other component changes |
| Vector4.MutableVec4.AddAssign | src/maths/vec4.cpp:14-21 | `v += vec` leaves `v` holding `Add(old v, old vec)`, the binary operator's result, even when `vec` is `v` itself; returns `this`; changes nothing else |
| Vector4.MutableVec4.SubAssign | src/maths/vec4.cpp:23-30 | `v -= vec` leaves `v` holding `Sub(old v, old vec)`, the binary operator's result, even when `vec` is `v` itself; returns `this`; changes nothing else |
| Vector4.MutableVec4.MulAssign | src/maths/vec4.cpp:32-39 | `v *= vec` leaves `v` holding `Mul(old v, old vec)`, the binary operator's result, even when `vec` is `v` itself; returns `this`; changes nothing else |
| Vector4.MutableVec4.DivAssign | src/maths/vec4.cpp:41-48 | `v /= vec` leaves `v` holding `Div(old v, old vec)`, the binary operator's result, even when `vec` is `v` itself; returns `this`; changes nothing else |
| Vector4.MutableVec4.AddScalarAssign | src/maths/vec4.cpp:50-57 | `v += value` leaves `v` holding `AddScalar(old v, value)`; returns `this`; changes nothing else |
| Vector4.MutableVec4.SubScalarAssign | src/maths/vec4.cpp:59-66 | `v -= value` leaves `v` holding `SubScalar(old v, value)`; returns `this`; changes nothing else |
| Vector4.MutableVec4.MulScalarAssign | src/maths/vec4.cpp:68-75 | `v *= value` leaves `v` holding `MulScalar(old v, value)`; returns `this`; changes nothing else |
| Vector4.MutableVec4.DivScalarAssign | src/maths/vec4.cpp:77-84 | `v /= value` leaves `v` holding `DivScalar(old v, value)`; returns `this`; changes nothing else |
| Vector3.Zero | src/maths/vec3.cpp:8 | `vec3()` holds the all-zero vector of 3 components |
| Vector3.Broadcast | src/maths/vec3.cpp:12 | `vec3(value)` holds `value` in each of the 3 components |
| Vector3.Add | src/maths/vec3.cpp:96-102 | `left + right` is the componentwise `+` of the two vectors (the generic `Zip(Plus, ...)`) |
| Vector3.Sub | src/maths/vec3.cpp:104-110 | `left - right` is the componentwise `-` of the two vectors (the generic `Zip(Minus, ...)`) |
| Vector3.Mul | src/maths/vec3.cpp:112-118 | `left * right` is the componentwise `*` of the two vectors (the generic `Zip(Times, ...)`) |
| Vector3.Div | src/maths/vec3.cpp:120-126 | `left / right` is the componentwise `/` of the two vectors (the generic `Zip(Over, ...)`); no divisor precondition |
| Vector3.AddScalar | src/maths/vec3.cpp:128-134 | `vec + value` applies `+ value` to every component (the generic `Spread(Plus, ...)`) |
| Vector3.SubScalar | src/maths/vec3.cpp:136-142 | `vec - value` applies `- value` to every component (the generic `Spread(Minus, ...)`) |
| Vector3.MulScalar | src/maths/vec3.cpp:144-150 | `vec * value` applies `* value` to every component (the generic `Spread(Times, ...)`) |
| Vector3.DivScalar | src/maths/vec3.cpp:160-166 | `vec / value` applies `/ value` to every component (the generic `Spread(Over, ...)`); no divisor precondition |
| Vector3.ScalarMul | src/maths/vec3.cpp:152-158 | `value * vec` is the same vector as `vec * value` |
| Vector3.Neg | src/maths/vec3.cpp:168-170 | unary minus negates every component and equals the product by -1 |
| Vector3.NegInvolution | include/vec3.hpp:200-205 | negating twice returns the original vector |
| Vector3.AddCommutes | src/maths/vec3.cpp:96-102 | `a + b == b + a` for all vectors |
| Vector3.MulCommutes | src/maths/vec3.cpp:112-118 | `a * b == b * a` for all vectors |
| Vector3.SubSelf | src/maths/vec3.cpp:104-110 | `a - a` is the zero vector `vec3()` for every vector |
| Vector3.Eq | src/maths/vec3.cpp:78-80 | `==` is the AND-reduction of the component equalities and holds exactly when the two vectors are equal |
| Vector3.Ne | src/maths/vec3.cpp:82-84 | `!=` is the OR-reduction of the component inequalities and is exactly the negation of `==` |
| Vector3.Format | src/maths/vec3.cpp:86-89 | `<<` writes the template `( x ; y ; z )` over the printed components, in order |
| Vector3.FormatSeparators | include/vec3.hpp:119-126 | the output opens with `( `, closes with ` )` and holds exactly 2 `;` separator(s) when no printed number contains `;` |
| Vector3.Read | src/maths/vec3.cpp:91-94 | `>>` assigns the next 3 numbers to x, y, z in that order and consumes them |
| Vector3.MutableVec3.constructor | src/maths/vec3.cpp:8 | the default constructor leaves every field zero |
| Vector3.MutableVec3.Full | src/maths/vec3.cpp:10 | the full constructor stores its arguments positionally into x, y, z |
| Vector3.MutableVec3.FromScalar | src/maths/vec3.cpp:12 | the broadcast constructor stores `value` in every field |
| Vector3.MutableVec3.SetR | include/vec3.hpp:104-116 | `r()` and `x` name the same slot of the union: a write through `r` is read back through both `r()` and `x`, and no other component changes |
| Vector3.MutableVec3.SetG | include/vec3.hpp:104-116 | `g()` and `y` name the same slot of the union: a write through `g` is read back through both `g()` and `y`, and no other component changes |
| Vector3.MutableVec3.SetB | include/vec3.hpp:104-116 | `b()` and `z` name the same slot of the union: a write through `b` is read back through both `b()` and `z`, and no other component changes |
| Vector3.MutableVec3.AddAssign | src/maths/vec3.cpp:14-20 | `v += vec` leaves `v` holding `Add(old v, old vec)`, the binary operator's result, even when `vec` is `v` itself; returns `this`; changes nothing else |
| Vector3.MutableVec3.SubAssign | src/maths/vec3.cpp:22-28 | `v -= vec` leaves `v` holding `Sub(old v, old vec)`, the binary operator's result, even when `vec` is `v` itself; returns `this`; changes nothing else |
| Vector3.MutableVec3.MulAssign | src/maths/vec3.cpp:30-36 | `v *= vec` leaves `v` holding `Mul(old v, old vec)`, the binary operator's result, even when `vec` is `v` itself; returns `this`; changes nothing else |
| Vector3.MutableVec3.DivAssign | src/maths/vec3.cpp:38-44 | `v /= vec` leaves `v` holding `Div(old v, old vec)`, the binary operator's result, even when `vec` is `v` itself; returns `this`; changes nothing else |
| Vector3.MutableVec3.AddScalarAssign | src/maths/vec3.cpp:46-52 | `v += value` leaves `v` holding `AddScalar(old v, value)`; returns `this`; changes nothing else |
| Vector3.MutableVec3.SubScalarAssign | src/maths/vec3.cpp:54-60 | `v -= value` leaves `v` holding `SubScalar(old v, value)`; returns `this`; changes nothing else |
| Vector3.MutableVec3.MulScalarAssign | src/maths/vec3.cpp:62-68 | `v *= value` leaves `v` holding `MulScalar(old v, value)`; returns `this`; changes nothing else |
| Vector3.MutableVec3.DivScalarAssign | src/maths/vec3.cpp:70-76 | `v /= value` leaves `v` holding `DivScalar(old v, value)`; returns `this`; changes nothing else |
| Vector2.Zero | src/maths/vec2.cpp:8 | `vec2()` holds the all-zero vector of 2 components |
| Vector2.Broadcast | src/maths/vec2.cpp:12 | `vec2(value)` holds `value` in each of the 2 components |
| Vector2.Add | src/maths/vec2.cpp:88-93 | `left + right` is the componentwise `+` of the two vectors (the generic `Zip(Plus, ...)`) |
| Vector2.Sub | src/maths/vec2.cpp:95-100 | `left - right` is the componentwise `-` of the two vectors (the generic `Zip(Minus, ...)`) |
| Vector2.Mul | src/maths/vec2.cpp:102-107 | `left * right` is the componentwise `*` of the two vectors (the generic `Zip(Times, ...)`) |
| Vector2.Div | src/maths/vec2.cpp:109-114 | `left / right` is the componentwise `/` of the two vectors (the generic `Zip(Over, ...)`); no divisor precondition |
| Vector2.AddScalar | src/maths/vec2.cpp:116-121 | `vec + value` applies `+ value` to every component (the generic `Spread(Plus, ...)`) |
| Vector2.SubScalar | src/maths/vec2.cpp:123-128 | `vec - value` applies `- value` to every component (the generic `Spread(Minus, ...)`) |
| Vector2.MulScalar | src/maths/vec2.cpp:130-135 | `vec * value` applies `* value` to every component (the generic `Spread(Times, ...)`) |
| Vector2.DivScalar | src/maths/vec2.cpp:144-149 | `vec / value` applies `/ value` to every component (the generic `Spread(Over, ...)`); no divisor precondition |
| Vector2.ScalarMul | src/maths/vec2.cpp:137-142 | `value * vec` is the same vector as `vec * value` |
| Vector2.Neg | src/maths/vec2.cpp:151-153 | unary minus negates every component and equals the product by -1 |
| Vector2.NegInvolution | include/vec2.hpp:196-201 | negating twice returns the original vector |
| Vector2.AddCommutes | src/maths/vec2.cpp:88-93 | `a + b == b + a` for all vectors |
| Vector2.MulCommutes | src/maths/vec2.cpp:102-107 | `a * b == b * a` for all vectors |
| Vector2.SubSelf | src/maths/vec2.cpp:95-100 | `a - a` is the zero vector `vec2()` for every vector |
| Vector2.Eq | src/maths/vec2.cpp:70-72 | `==` is the AND-reduction of the component equalities and holds exactly when the two vectors are equal |
| Vector2.Ne | src/maths/vec2.cpp:74-76 | `!=` is the OR-reduction of the component inequalities and is exactly the negation of `==` |
| Vector2.Format | src/maths/vec2.cpp:78-81 | `<<` writes the template `( x ; y )` over the printed components, in order |
| Vector2.FormatSeparators | include/vec2.hpp:116-122 | the output opens with `( `, closes with ` )` and holds exactly 1 `;` separator(s) when no printed number contains `;` |
| Vector2.Read | src/maths/vec2.cpp:83-86 | `>>` assigns the next 2 numbers to x, y in that order and consumes them |
| Vector2.MutableVec2.constructor | src/maths/vec2.cpp:8 | the default constructor leaves every field zero |
| Vector2.MutableVec2.Full | src/maths/vec2.cpp:10 | the full constructor stores its arguments positionally into x, y |
| Vector2.MutableVec2.FromScalar | src/maths/vec2.cpp:12 | the broadcast constructor stores `value` in every field |
| Vector2.MutableVec2.SetU | include/vec2.hpp:103-113 | `u()` and `x` name the same slot of the union: a write through `u` is read back through both `u()` and `x`, and no other component changes |
| Vector2.MutableVec2.SetV | include/vec2.hpp:103-113 | `v()` and `y` name the same slot of the union: a write through `v` is read back through both `v()` and `y`, and no other component changes |
| Vector2.MutableVec2.AddAssign | src/maths/vec2.cpp:14-19 | `v += vec` leaves `v` holding `Add(old v, old vec)`, the binary operator's result, even when `vec` is `v` itself; returns `this`; changes nothing else |
| Vector2.MutableVec2.SubAssign | src/maths/vec2.cpp:21-26 | `v -= vec` leaves `v` holding `Sub(old v, old vec)`, the binary operator's result, even when `vec` is `v` itself; returns `this`; changes nothing else |
| Vector2.MutableVec2.MulAssign | src/maths/vec2.cpp:28-33 | `v *= vec` leaves `v` holding `Mul(old v, old vec)`, the binary operator's result, even when `vec` is `v` itself; returns `this`; changes nothing else |
| Vector2.MutableVec2.DivAssign | src/maths/vec2.cpp:35-40 | `v /= vec` leaves `v` holding `Div(old v, old vec)`, the binary operator's result, even when `vec` is `v` itself; returns `this`; changes nothing else |
| Vector2.MutableVec2.AddScalarAssign | src/maths/vec2.cpp:42-47 | `v += value` leaves `v` holding `AddScalar(old v, value)`; returns `this`; changes nothing else |
| Vector2.MutableVec2.SubScalarAssign | src/maths/vec2.cpp:49-54 | `v -= value` leaves `v` holding `SubScalar(old v, value)`; returns `this`; changes nothing else |
| Vector2.MutableVec2.MulScalarAssign | src/maths/vec2.cpp:56-61 | `v *= value` leaves `v` holding `MulScalar(old v, value)`; returns `this`; changes nothing else |
| Vector2.MutableVec2.DivScalarAssign | src/maths/vec2.cpp:63-68 | `v /= value` leaves `v` holding `DivScalar(old v, value)`; returns `this`; changes nothing else |
| ImageBuffer.Clamp | src/Image.cpp:39-42 | `std::clamp(v, lo, hi)` lies in `[lo, hi]`; it is `lo` below the range, `hi` above it and `v` inside it |
| ImageBuffer.ToByte | src/Image.cpp:39-42 | a channel becomes the byte `clamp(255 * c, 0, 255)` truncated: 0 for `c <= 0`, 255 for `c >= 1`, and in between the whole part of `255 * c` |
| ImageBuffer.LineBytesLength | src/Image.cpp:37-43 | the inner loop emits 4 bytes per pixel of the line |
| ImageBuffer.LineBytesLayout | src/Image.cpp:37-43 | within a line, pixel `i` occupies bytes `4 * i` to `4 * i + 3` in the order r, g, b, a |
| ImageBuffer.LineStartIsProduct | src/Image.cpp:36-43 | the line-by-line offset of line `j` (`j` lines of `4 * width` bytes) is `4 * (j * width)` |
| ImageBuffer.FlattenLength | src/Image.cpp:36-44 | after `lines` passes of the outer loop the buffer ends where line `lines` would start |
| ImageBuffer.FlattenLastLine | src/Image.cpp:36-43 | the line emitted by the latest pass of the outer loop follows all earlier lines, pixel `i` of it `4 * i` bytes from its start |
| ImageBuffer.FlattenLayout | src/Image.cpp:36-43 | after any number of passes, channel `k` of each pixel `(i, j)` already emitted is at `Offset(width, i, j, k)` and later passes do not move it |
| ImageBuffer.FlattenPixel | src/Image.cpp:36-43 | in the finished buffer, channel `k` of pixel `(i, j)` is at `4 * (j * width + i) + k` |
| ImageBuffer.FlattenShape | src/Image.cpp:33-44 | the finished buffer has `4 * (height * width)` bytes, and channel `k` of every pixel `(i, j)` is at `Offset(width, i, j, k)`, the line-by-line offset that `FlattenPixel` and `LineStartIsProduct` put in closed form |
| ImageBuffer.OffsetDecodes | src/Image.cpp:36-43 | distinct channels of distinct pixels land on distinct positions inside the buffer: a position gives back `i`, `j` and `k` |
| ImageBuffer.PositionDecodes | src/Image.cpp:36-43 | every position below `4 * (height * width)` is the position of channel `p % 4` of pixel `((p / 4) % width, (p / 4) / width)` |
| ImageBuffer.FlattenDecodes | src/Image.cpp:36-43 | each byte of the buffer is channel `p % 4` of the pixel that position `p` decodes to |
| ImageBuffer.Image.constructor | src/Image.cpp:13-17 | the new image keeps `width` and `height` and has a fresh `width x height` grid of default (zero) colours |
| ImageBuffer.Image.At | src/Image.cpp:28-30 | the const `image(row, column)` reads the colour of grid cell `(row, column)`, with `row < width` and `column < height` |
| ImageBuffer.Image.SetPixel | src/Image.cpp:24-26 | storing through `image(row, column)` changes that pixel, as the const accessor reads it back, and no other |
| ImageBuffer.Image.WriteLine | src/Image.cpp:37-43 | one pass of the outer loop appends exactly the bytes of line `j`, pixels left to right, r, g, b, a each |
| ImageBuffer.Image.Write | src/Image.cpp:32-45 | the buffer is the flattening of the grid, line after line (its size and layout are `FlattenShape` and `FlattenPixel`); the image is not modified |

## Left out

- IEEE-754 behaviour: rounding, infinities, NaN and signed zero. Components are
  `real`, so laws such as `a == a`, `a - a == vec()`, or `==` being exactly
  equality of the values, hold in the model although infinities and NaN break them
  in the source.
- Scalar.Quot: a zero divisor gives 0.0 in the model, where the source gives an
  infinity or NaN. Reals have neither value. No precondition is added, and no
  proved property depends on that value.
- Float-to-text conversion: the `show` parameter of `Format` stands for the
  stream's rendering of one float; the model fixes only the template around it.
- Vector4.Read: the stream is modelled as the numbers it would parse, and at least
  four are required. Parse failure and stream state are not modelled.
- Vector3.Read: as for Vector4.Read, with three numbers.
- Vector2.Read: as for Vector4.Read, with two numbers.
- The return value of `operator<<` and `operator>>` (the stream reference, for
  chaining) is not modelled.
- `stbi_flip_vertically_on_write` and `stbi_write_png` (src/Image.cpp:46-47) are a
  foreign library and file I/O. The model ends at the byte buffer.
- Raw `new[]`/`delete[]` in the constructor and the destructor
  (src/Image.cpp:13-22): the grid is one Dafny `array2`, allocated once. The
  `Color**` pointer is never reassigned in the source, so `data` is a `const`
  field.
- `normalized_data.reserve(width * height * 4)` only reserves capacity, so it is
  not modelled, and neither is its 32-bit wrap-around for huge images.
- `255.0f * channel` is computed in float arithmetic in the source. The model
  uses exact real arithmetic. The conversion of a NaN channel to `uint8_t` is
  undefined behaviour in C++ and has no counterpart here.
- Color.hpp is not part of this model. `Color` is taken to be `vec4`, because
  `write()` reads the four channels r, g, b, a of each pixel.
- ImageBuffer.Image.SetPixel: the source's non-const accessor hands out a
  reference. The model covers only a store through it; reads through that
  reference are the const accessor `Image.At`. As in the source, no bounds are
  checked, so callers must stay inside the grid.
- include/Ray.hpp, src/Ray.cpp and src/main.cpp (the driver) are not part of this
  model.
