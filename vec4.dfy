/** vec4: four components, addressable as x/y/z/w or as the colour channels r/g/b/a.
 *
 *  Vec4 is the value (what a copy of a vec4 holds); the free binary operators, unary
 *  minus, `==`, `!=` and the output template are functions on it. MutableVec4 is a
 *  vec4 object whose fields the compound assignment operators update in place.
 */
module Vector4 {
  import opened Scalar
  import Vectors

  datatype Vec4 = Vec4(x: real, y: real, z: real, w: real)
  {
    // The colour names are a second view of the same four slots.
    function r(): real { x }
    function g(): real { y }
    function b(): real { z }
    function a(): real { w }

    /** The components in declaration order. */
    function Seq(): (s: seq<real>)
      ensures |s| == 4
    {
      [x, y, z, w]
    }
  }

  /** `vec4()`: every component value-initialised to zero. */
  function Zero(): (v: Vec4)
    ensures v.Seq() == Vectors.Fill(4, 0.0)
  {
    Vec4(0.0, 0.0, 0.0, 0.0)
  }

  /** `explicit vec4(float value)`: the same value in every component. */
  function Broadcast(value: real): (v: Vec4)
    ensures v.Seq() == Vectors.Fill(4, value)
  {
    Vec4(value, value, value, value)
  }

  /** `left + right` */
  function Add(left: Vec4, right: Vec4): (v: Vec4)
    ensures v.Seq() == Vectors.Zip(Plus, left.Seq(), right.Seq())
  {
    Vec4(left.x + right.x, left.y + right.y, left.z + right.z, left.w + right.w)
  }

  /** `left - right` */
  function Sub(left: Vec4, right: Vec4): (v: Vec4)
    ensures v.Seq() == Vectors.Zip(Minus, left.Seq(), right.Seq())
  {
    Vec4(left.x - right.x, left.y - right.y, left.z - right.z, left.w - right.w)
  }

  /** `left * right` */
  function Mul(left: Vec4, right: Vec4): (v: Vec4)
    ensures v.Seq() == Vectors.Zip(Times, left.Seq(), right.Seq())
  {
    var v := Vec4(left.x * right.x, left.y * right.y, left.z * right.z, left.w * right.w);
    assert forall k :: 0 <= k < 4 ==> v.Seq()[k] == left.Seq()[k] * right.Seq()[k];
    v
  }

  /** `left / right`, with no check of the divisor's components. */
  function Div(left: Vec4, right: Vec4): (v: Vec4)
    ensures v.Seq() == Vectors.Zip(Over, left.Seq(), right.Seq())
  {
    Vec4(Quot(left.x, right.x), Quot(left.y, right.y), Quot(left.z, right.z), Quot(left.w, right.w))
  }

  /** `vec + value` */
  function AddScalar(vec: Vec4, value: real): (v: Vec4)
    ensures v.Seq() == Vectors.Spread(Plus, vec.Seq(), value)
  {
    Vec4(vec.x + value, vec.y + value, vec.z + value, vec.w + value)
  }

  /** `vec - value` */
  function SubScalar(vec: Vec4, value: real): (v: Vec4)
    ensures v.Seq() == Vectors.Spread(Minus, vec.Seq(), value)
  {
    Vec4(vec.x - value, vec.y - value, vec.z - value, vec.w - value)
  }

  /** `vec * value` */
  function MulScalar(vec: Vec4, value: real): (v: Vec4)
    ensures v.Seq() == Vectors.Spread(Times, vec.Seq(), value)
  {
    var v := Vec4(vec.x * value, vec.y * value, vec.z * value, vec.w * value);
    assert forall k :: 0 <= k < 4 ==> v.Seq()[k] == vec.Seq()[k] * value;
    v
  }

  /** `value * vec`: the same vector as `vec * value`. */
  function ScalarMul(value: real, vec: Vec4): (v: Vec4)
    ensures v == MulScalar(vec, value)
  {
    Vec4(value * vec.x, value * vec.y, value * vec.z, value * vec.w)
  }

  /** `vec / value`, with no check of the divisor. */
  function DivScalar(vec: Vec4, value: real): (v: Vec4)
    ensures v.Seq() == Vectors.Spread(Over, vec.Seq(), value)
  {
    Vec4(Quot(vec.x, value), Quot(vec.y, value), Quot(vec.z, value), Quot(vec.w, value))
  }

  /** Unary `-vec`: the componentwise product by -1. */
  function Neg(vec: Vec4): (v: Vec4)
    ensures v.Seq() == Vectors.Negate(vec.Seq())
    ensures v == MulScalar(vec, -1.0)
  {
    Vec4(-vec.x, -vec.y, -vec.z, -vec.w)
  }

  /** Negating twice gives back the original vector. */
  lemma NegInvolution(vec: Vec4)
    ensures Neg(Neg(vec)) == vec
  {
    Vectors.NegateProperties(vec.Seq());
  }

  /** `+` does not depend on the order of its operands. */
  lemma AddCommutes(left: Vec4, right: Vec4)
    ensures Add(left, right) == Add(right, left)
  {
    Vectors.ZipLaws(left.Seq(), right.Seq());
  }

  /** `*` does not depend on the order of its operands. */
  lemma MulCommutes(left: Vec4, right: Vec4)
    ensures Mul(left, right) == Mul(right, left)
  {
    Vectors.ZipLaws(left.Seq(), right.Seq());
  }

  /** A vector minus itself is the zero vector. */
  lemma SubSelf(vec: Vec4)
    ensures Sub(vec, vec) == Zero()
  {
    Vectors.ZipLaws(vec.Seq(), vec.Seq());
  }

  /** `==`: exact equality of all four components. */
  function Eq(left: Vec4, right: Vec4): (e: bool)
    ensures e == Vectors.AllEqual(left.Seq(), right.Seq())
    ensures e <==> left == right
  {
    Vectors.AllEqualIsEquality(left.Seq(), right.Seq());
    left.x == right.x && left.y == right.y && left.z == right.z && left.w == right.w
  }

  /** `!=`: some component differs; exactly the negation of `==`. */
  function Ne(left: Vec4, right: Vec4): (n: bool)
    ensures n == Vectors.AnyDiffer(left.Seq(), right.Seq())
    ensures n == !Eq(left, right)
  {
    Vectors.AllEqualIsEquality(left.Seq(), right.Seq());
    Vectors.AnyDifferIsNegation(left.Seq(), right.Seq());
    left.x != right.x || left.y != right.y || left.z != right.z || left.w != right.w
  }

  /** `operator<<`: the text "( x ; y ; z ; w )", where `show` stands for the stream's
   *  rendering of one float. */
  function Format(vec: Vec4, show: real -> string): (s: string)
    ensures s == Vectors.Template([show(vec.x), show(vec.y), show(vec.z), show(vec.w)])
  {
    var parts := [show(vec.x), show(vec.y), show(vec.z), show(vec.w)];
    assert Vectors.Join(parts[3..]) == show(vec.w);
    assert Vectors.Join(parts[2..]) == show(vec.z) + " ; " + show(vec.w);
    assert Vectors.Join(parts[1..]) == show(vec.y) + " ; " + show(vec.z) + " ; " + show(vec.w);
    "( " + show(vec.x) + " ; " + show(vec.y) + " ; " + show(vec.z) + " ; " + show(vec.w) + " )"
  }

  /** The printed text opens with "( ", closes with " )" and holds exactly three
   *  separators, provided no printed component contains ';'. */
  lemma FormatSeparators(vec: Vec4, show: real -> string)
    requires forall c :: ';' !in show(c)
    ensures Format(vec, show)[..2] == "( "
    ensures Format(vec, show)[|Format(vec, show)| - 2..] == " )"
    ensures multiset(Format(vec, show))[';'] == 3
  {
    Vectors.TemplateShape([show(vec.x), show(vec.y), show(vec.z), show(vec.w)]);
  }

  /** A vec4 object: the four fields that the compound assignment operators update. */
  class MutableVec4 {
    var x: real
    var y: real
    var z: real
    var w: real

    /** The value the object currently holds. */
    function Value(): Vec4
      reads this
    {
      Vec4(x, y, z, w)
    }

    // The colour names read the same fields as x, y, z, w.
    function r(): real reads this { x }
    function g(): real reads this { y }
    function b(): real reads this { z }
    function a(): real reads this { w }

    /** `vec4()` */
    constructor ()
      ensures Value() == Zero()
    {
      x, y, z, w := 0.0, 0.0, 0.0, 0.0;
    }

    /** `vec4(x, y, z, w)`: the arguments stored in order. */
    constructor Full(x: real, y: real, z: real, w: real)
      ensures Value() == Vec4(x, y, z, w)
    {
      this.x, this.y, this.z, this.w := x, y, z, w;
    }

    /** `explicit vec4(value)` */
    constructor FromScalar(value: real)
      ensures Value() == Broadcast(value)
    {
      x, y, z, w := value, value, value, value;
    }

    /** A write through `r` is read back through `r` and through `x`; nothing else
     *  changes. */
    method SetR(value: real)
      modifies this
      ensures r() == value && x == value
      ensures Value() == old(Value()).(x := value)
    {
      x := value;
    }

    /** A write through `g` is read back through `g` and through `y`; nothing else
     *  changes. */
    method SetG(value: real)
      modifies this
      ensures g() == value && y == value
      ensures Value() == old(Value()).(y := value)
    {
      y := value;
    }

    /** A write through `b` is read back through `b` and through `z`; nothing else
     *  changes. */
    method SetB(value: real)
      modifies this
      ensures b() == value && z == value
      ensures Value() == old(Value()).(z := value)
    {
      z := value;
    }

    /** A write through `a` is read back through `a` and through `w`; nothing else
     *  changes. */
    method SetA(value: real)
      modifies this
      ensures a() == value && w == value
      ensures Value() == old(Value()).(w := value)
    {
      w := value;
    }

    /** `*this += vec`. `vec` may be this very object: each line reads only the
     *  component it updates, so `v += v` gives `v + v`. */
    method AddAssign(vec: MutableVec4) returns (self: MutableVec4)
      modifies this
      ensures self == this
      ensures Value() == Add(old(Value()), old(vec.Value()))
    {
      x := x + vec.x;
      y := y + vec.y;
      z := z + vec.z;
      w := w + vec.w;
      self := this;
    }

    /** `*this -= vec` (`vec` may be this object). */
    method SubAssign(vec: MutableVec4) returns (self: MutableVec4)
      modifies this
      ensures self == this
      ensures Value() == Sub(old(Value()), old(vec.Value()))
    {
      x := x - vec.x;
      y := y - vec.y;
      z := z - vec.z;
      w := w - vec.w;
      self := this;
    }

    /** `*this *= vec` (`vec` may be this object). */
    method MulAssign(vec: MutableVec4) returns (self: MutableVec4)
      modifies this
      ensures self == this
      ensures Value() == Mul(old(Value()), old(vec.Value()))
    {
      x := x * vec.x;
      y := y * vec.y;
      z := z * vec.z;
      w := w * vec.w;
      self := this;
    }

    /** `*this /= vec` (`vec` may be this object), with no check of the divisor. */
    method DivAssign(vec: MutableVec4) returns (self: MutableVec4)
      modifies this
      ensures self == this
      ensures Value() == Div(old(Value()), old(vec.Value()))
    {
      x := Quot(x, vec.x);
      y := Quot(y, vec.y);
      z := Quot(z, vec.z);
      w := Quot(w, vec.w);
      self := this;
    }

    /** `*this += value` */
    method AddScalarAssign(value: real) returns (self: MutableVec4)
      modifies this
      ensures self == this
      ensures Value() == AddScalar(old(Value()), value)
    {
      x := x + value;
      y := y + value;
      z := z + value;
      w := w + value;
      self := this;
    }

    /** `*this -= value` */
    method SubScalarAssign(value: real) returns (self: MutableVec4)
      modifies this
      ensures self == this
      ensures Value() == SubScalar(old(Value()), value)
    {
      x := x - value;
      y := y - value;
      z := z - value;
      w := w - value;
      self := this;
    }

    /** `*this *= value` */
    method MulScalarAssign(value: real) returns (self: MutableVec4)
      modifies this
      ensures self == this
      ensures Value() == MulScalar(old(Value()), value)
    {
      x := x * value;
      y := y * value;
      z := z * value;
      w := w * value;
      self := this;
    }

    /** `*this /= value`, with no check of the divisor. */
    method DivScalarAssign(value: real) returns (self: MutableVec4)
      modifies this
      ensures self == this
      ensures Value() == DivScalar(old(Value()), value)
    {
      x := Quot(x, value);
      y := Quot(y, value);
      z := Quot(z, value);
      w := Quot(w, value);
      self := this;
    }
  }

  /** `operator>>`: the next four numbers of the input go to x, y, z and w, in that
   *  order; `tokens` stands for the numbers the stream would parse. */
  method Read(tokens: seq<real>, vec: MutableVec4) returns (rest: seq<real>)
    requires |tokens| >= 4
    modifies vec
    ensures vec.Value() == Vec4(tokens[0], tokens[1], tokens[2], tokens[3])
    ensures rest == tokens[4..]
  {
    vec.x := tokens[0];
    vec.y := tokens[1];
    vec.z := tokens[2];
    vec.w := tokens[3];
    rest := tokens[4..];
  }
}
