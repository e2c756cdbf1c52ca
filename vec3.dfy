/** vec3: three components, addressable as x/y/z or as the colour channels r/g/b.
 *
 *  Vec3 is the value (what a copy of a vec3 holds); the free binary operators, unary
 *  minus, `==`, `!=` and the output template are functions on it. MutableVec3 is a
 *  vec3 object whose fields the compound assignment operators update in place.
 */
module Vector3 {
  import opened Scalar
  import Vectors

  datatype Vec3 = Vec3(x: real, y: real, z: real)
  {
    // The colour names are a second view of the same three slots.
    function r(): real { x }
    function g(): real { y }
    function b(): real { z }

    /** The components in declaration order. */
    function Seq(): (s: seq<real>)
      ensures |s| == 3
    {
      [x, y, z]
    }
  }

  /** `vec3()`: every component value-initialised to zero. */
  function Zero(): (v: Vec3)
    ensures v.Seq() == Vectors.Fill(3, 0.0)
  {
    Vec3(0.0, 0.0, 0.0)
  }

  /** `explicit vec3(float value)`: the same value in every component. */
  function Broadcast(value: real): (v: Vec3)
    ensures v.Seq() == Vectors.Fill(3, value)
  {
    Vec3(value, value, value)
  }

  /** `left + right` */
  function Add(left: Vec3, right: Vec3): (v: Vec3)
    ensures v.Seq() == Vectors.Zip(Plus, left.Seq(), right.Seq())
  {
    Vec3(left.x + right.x, left.y + right.y, left.z + right.z)
  }

  /** `left - right` */
  function Sub(left: Vec3, right: Vec3): (v: Vec3)
    ensures v.Seq() == Vectors.Zip(Minus, left.Seq(), right.Seq())
  {
    Vec3(left.x - right.x, left.y - right.y, left.z - right.z)
  }

  /** `left * right` */
  function Mul(left: Vec3, right: Vec3): (v: Vec3)
    ensures v.Seq() == Vectors.Zip(Times, left.Seq(), right.Seq())
  {
    var v := Vec3(left.x * right.x, left.y * right.y, left.z * right.z);
    assert forall k :: 0 <= k < 3 ==> v.Seq()[k] == left.Seq()[k] * right.Seq()[k];
    v
  }

  /** `left / right`, with no check of the divisor's components. */
  function Div(left: Vec3, right: Vec3): (v: Vec3)
    ensures v.Seq() == Vectors.Zip(Over, left.Seq(), right.Seq())
  {
    Vec3(Quot(left.x, right.x), Quot(left.y, right.y), Quot(left.z, right.z))
  }

  /** `vec + value` */
  function AddScalar(vec: Vec3, value: real): (v: Vec3)
    ensures v.Seq() == Vectors.Spread(Plus, vec.Seq(), value)
  {
    Vec3(vec.x + value, vec.y + value, vec.z + value)
  }

  /** `vec - value` */
  function SubScalar(vec: Vec3, value: real): (v: Vec3)
    ensures v.Seq() == Vectors.Spread(Minus, vec.Seq(), value)
  {
    Vec3(vec.x - value, vec.y - value, vec.z - value)
  }

  /** `vec * value` */
  function MulScalar(vec: Vec3, value: real): (v: Vec3)
    ensures v.Seq() == Vectors.Spread(Times, vec.Seq(), value)
  {
    var v := Vec3(vec.x * value, vec.y * value, vec.z * value);
    assert forall k :: 0 <= k < 3 ==> v.Seq()[k] == vec.Seq()[k] * value;
    v
  }

  /** `value * vec`: the same vector as `vec * value`. */
  function ScalarMul(value: real, vec: Vec3): (v: Vec3)
    ensures v == MulScalar(vec, value)
  {
    Vec3(value * vec.x, value * vec.y, value * vec.z)
  }

  /** `vec / value`, with no check of the divisor. */
  function DivScalar(vec: Vec3, value: real): (v: Vec3)
    ensures v.Seq() == Vectors.Spread(Over, vec.Seq(), value)
  {
    Vec3(Quot(vec.x, value), Quot(vec.y, value), Quot(vec.z, value))
  }

  /** Unary `-vec`: the componentwise product by -1. */
  function Neg(vec: Vec3): (v: Vec3)
    ensures v.Seq() == Vectors.Negate(vec.Seq())
    ensures v == MulScalar(vec, -1.0)
  {
    Vec3(-vec.x, -vec.y, -vec.z)
  }

  /** Negating twice gives back the original vector. */
  lemma NegInvolution(vec: Vec3)
    ensures Neg(Neg(vec)) == vec
  {
    Vectors.NegateProperties(vec.Seq());
  }

  /** `+` does not depend on the order of its operands. */
  lemma AddCommutes(left: Vec3, right: Vec3)
    ensures Add(left, right) == Add(right, left)
  {
    Vectors.ZipLaws(left.Seq(), right.Seq());
  }

  /** `*` does not depend on the order of its operands. */
  lemma MulCommutes(left: Vec3, right: Vec3)
    ensures Mul(left, right) == Mul(right, left)
  {
    Vectors.ZipLaws(left.Seq(), right.Seq());
  }

  /** A vector minus itself is the zero vector. */
  lemma SubSelf(vec: Vec3)
    ensures Sub(vec, vec) == Zero()
  {
    Vectors.ZipLaws(vec.Seq(), vec.Seq());
  }

  /** `==`: exact equality of all three components. */
  function Eq(left: Vec3, right: Vec3): (e: bool)
    ensures e == Vectors.AllEqual(left.Seq(), right.Seq())
    ensures e <==> left == right
  {
    Vectors.AllEqualIsEquality(left.Seq(), right.Seq());
    left.x == right.x && left.y == right.y && left.z == right.z
  }

  /** `!=`: some component differs; exactly the negation of `==`. */
  function Ne(left: Vec3, right: Vec3): (n: bool)
    ensures n == Vectors.AnyDiffer(left.Seq(), right.Seq())
    ensures n == !Eq(left, right)
  {
    Vectors.AllEqualIsEquality(left.Seq(), right.Seq());
    Vectors.AnyDifferIsNegation(left.Seq(), right.Seq());
    left.x != right.x || left.y != right.y || left.z != right.z
  }

  /** `operator<<`: the text "( x ; y ; z )", where `show` stands for the stream's
   *  rendering of one float. */
  function Format(vec: Vec3, show: real -> string): (s: string)
    ensures s == Vectors.Template([show(vec.x), show(vec.y), show(vec.z)])
  {
    var parts := [show(vec.x), show(vec.y), show(vec.z)];
    assert Vectors.Join(parts[2..]) == show(vec.z);
    assert Vectors.Join(parts[1..]) == show(vec.y) + " ; " + show(vec.z);
    "( " + show(vec.x) + " ; " + show(vec.y) + " ; " + show(vec.z) + " )"
  }

  /** The printed text opens with "( ", closes with " )" and holds exactly two
   *  separators, provided no printed component contains ';'. */
  lemma FormatSeparators(vec: Vec3, show: real -> string)
    requires forall c :: ';' !in show(c)
    ensures Format(vec, show)[..2] == "( "
    ensures Format(vec, show)[|Format(vec, show)| - 2..] == " )"
    ensures multiset(Format(vec, show))[';'] == 2
  {
    Vectors.TemplateShape([show(vec.x), show(vec.y), show(vec.z)]);
  }

  /** A vec3 object: the three fields that the compound assignment operators update. */
  class MutableVec3 {
    var x: real
    var y: real
    var z: real

    /** The value the object currently holds. */
    function Value(): Vec3
      reads this
    {
      Vec3(x, y, z)
    }

    // The colour names read the same fields as x, y, z.
    function r(): real reads this { x }
    function g(): real reads this { y }
    function b(): real reads this { z }

    /** `vec3()` */
    constructor ()
      ensures Value() == Zero()
    {
      x, y, z := 0.0, 0.0, 0.0;
    }

    /** `vec3(x, y, z)`: the arguments stored in order. */
    constructor Full(x: real, y: real, z: real)
      ensures Value() == Vec3(x, y, z)
    {
      this.x, this.y, this.z := x, y, z;
    }

    /** `explicit vec3(value)` */
    constructor FromScalar(value: real)
      ensures Value() == Broadcast(value)
    {
      x, y, z := value, value, value;
    }

    /** A write through `r` is read back through `r` and through `x`; nothing else
     *  changes. */
    method SetR(value: real)
      modifies this
      ensures r() == value && x == value
      ensures Value() == old(Value()).(x := value)
    {
      x := value;
    }

    /** A write through `g` is read back through `g` and through `y`; nothing else
     *  changes. */
    method SetG(value: real)
      modifies this
      ensures g() == value && y == value
      ensures Value() == old(Value()).(y := value)
    {
      y := value;
    }

    /** A write through `b` is read back through `b` and through `z`; nothing else
     *  changes. */
    method SetB(value: real)
      modifies this
      ensures b() == value && z == value
      ensures Value() == old(Value()).(z := value)
    {
      z := value;
    }

    /** `*this += vec`. `vec` may be this very object: each line reads only the
     *  component it updates, so `v += v` gives `v + v`. */
    method AddAssign(vec: MutableVec3) returns (self: MutableVec3)
      modifies this
      ensures self == this
      ensures Value() == Add(old(Value()), old(vec.Value()))
    {
      x := x + vec.x;
      y := y + vec.y;
      z := z + vec.z;
      self := this;
    }

    /** `*this -= vec` (`vec` may be this object). */
    method SubAssign(vec: MutableVec3) returns (self: MutableVec3)
      modifies this
      ensures self == this
      ensures Value() == Sub(old(Value()), old(vec.Value()))
    {
      x := x - vec.x;
      y := y - vec.y;
      z := z - vec.z;
      self := this;
    }

    /** `*this *= vec` (`vec` may be this object). */
    method MulAssign(vec: MutableVec3) returns (self: MutableVec3)
      modifies this
      ensures self == this
      ensures Value() == Mul(old(Value()), old(vec.Value()))
    {
      x := x * vec.x;
      y := y * vec.y;
      z := z * vec.z;
      self := this;
    }

    /** `*this /= vec` (`vec` may be this object), with no check of the divisor. */
    method DivAssign(vec: MutableVec3) returns (self: MutableVec3)
      modifies this
      ensures self == this
      ensures Value() == Div(old(Value()), old(vec.Value()))
    {
      x := Quot(x, vec.x);
      y := Quot(y, vec.y);
      z := Quot(z, vec.z);
      self := this;
    }

    /** `*this += value` */
    method AddScalarAssign(value: real) returns (self: MutableVec3)
      modifies this
      ensures self == this
      ensures Value() == AddScalar(old(Value()), value)
    {
      x := x + value;
      y := y + value;
      z := z + value;
      self := this;
    }

    /** `*this -= value` */
    method SubScalarAssign(value: real) returns (self: MutableVec3)
      modifies this
      ensures self == this
      ensures Value() == SubScalar(old(Value()), value)
    {
      x := x - value;
      y := y - value;
      z := z - value;
      self := this;
    }

    /** `*this *= value` */
    method MulScalarAssign(value: real) returns (self: MutableVec3)
      modifies this
      ensures self == this
      ensures Value() == MulScalar(old(Value()), value)
    {
      x := x * value;
      y := y * value;
      z := z * value;
      self := this;
    }

    /** `*this /= value`, with no check of the divisor. */
    method DivScalarAssign(value: real) returns (self: MutableVec3)
      modifies this
      ensures self == this
      ensures Value() == DivScalar(old(Value()), value)
    {
      x := Quot(x, value);
      y := Quot(y, value);
      z := Quot(z, value);
      self := this;
    }
  }

  /** `operator>>`: the next three numbers of the input go to x, y and z, in that
   *  order; `tokens` stands for the numbers the stream would parse. */
  method Read(tokens: seq<real>, vec: MutableVec3) returns (rest: seq<real>)
    requires |tokens| >= 3
    modifies vec
    ensures vec.Value() == Vec3(tokens[0], tokens[1], tokens[2])
    ensures rest == tokens[3..]
  {
    vec.x := tokens[0];
    vec.y := tokens[1];
    vec.z := tokens[2];
    rest := tokens[3..];
  }
}
