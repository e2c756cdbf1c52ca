/** vec2: two components, addressable as x/y or as the texture coordinates u/v.
 *
 *  Vec2 is the value (what a copy of a vec2 holds); the free binary operators, unary
 *  minus, `==`, `!=` and the output template are functions on it. MutableVec2 is a
 *  vec2 object whose fields the compound assignment operators update in place.
 */
module Vector2 {
  import opened Scalar
  import Vectors

  datatype Vec2 = Vec2(x: real, y: real)
  {
    // The texture-coordinate names are a second view of the same two slots.
    function u(): real { x }
    function v(): real { y }

    /** The components in declaration order. */
    function Seq(): (s: seq<real>)
      ensures |s| == 2
    {
      [x, y]
    }
  }

  /** `vec2()`: every component value-initialised to zero. */
  function Zero(): (v: Vec2)
    ensures v.Seq() == Vectors.Fill(2, 0.0)
  {
    Vec2(0.0, 0.0)
  }

  /** `explicit vec2(float value)`: the same value in every component. */
  function Broadcast(value: real): (v: Vec2)
    ensures v.Seq() == Vectors.Fill(2, value)
  {
    Vec2(value, value)
  }

  /** `left + right` */
  function Add(left: Vec2, right: Vec2): (v: Vec2)
    ensures v.Seq() == Vectors.Zip(Plus, left.Seq(), right.Seq())
  {
    Vec2(left.x + right.x, left.y + right.y)
  }

  /** `left - right` */
  function Sub(left: Vec2, right: Vec2): (v: Vec2)
    ensures v.Seq() == Vectors.Zip(Minus, left.Seq(), right.Seq())
  {
    Vec2(left.x - right.x, left.y - right.y)
  }

  /** `left * right` */
  function Mul(left: Vec2, right: Vec2): (v: Vec2)
    ensures v.Seq() == Vectors.Zip(Times, left.Seq(), right.Seq())
  {
    var v := Vec2(left.x * right.x, left.y * right.y);
    assert forall k :: 0 <= k < 2 ==> v.Seq()[k] == left.Seq()[k] * right.Seq()[k];
    v
  }

  /** `left / right`, with no check of the divisor's components. */
  function Div(left: Vec2, right: Vec2): (v: Vec2)
    ensures v.Seq() == Vectors.Zip(Over, left.Seq(), right.Seq())
  {
    Vec2(Quot(left.x, right.x), Quot(left.y, right.y))
  }

  /** `vec + value` */
  function AddScalar(vec: Vec2, value: real): (v: Vec2)
    ensures v.Seq() == Vectors.Spread(Plus, vec.Seq(), value)
  {
    Vec2(vec.x + value, vec.y + value)
  }

  /** `vec - value` */
  function SubScalar(vec: Vec2, value: real): (v: Vec2)
    ensures v.Seq() == Vectors.Spread(Minus, vec.Seq(), value)
  {
    Vec2(vec.x - value, vec.y - value)
  }

  /** `vec * value` */
  function MulScalar(vec: Vec2, value: real): (v: Vec2)
    ensures v.Seq() == Vectors.Spread(Times, vec.Seq(), value)
  {
    var v := Vec2(vec.x * value, vec.y * value);
    assert forall k :: 0 <= k < 2 ==> v.Seq()[k] == vec.Seq()[k] * value;
    v
  }

  /** `value * vec`: the same vector as `vec * value`. */
  function ScalarMul(value: real, vec: Vec2): (v: Vec2)
    ensures v == MulScalar(vec, value)
  {
    Vec2(value * vec.x, value * vec.y)
  }

  /** `vec / value`, with no check of the divisor. */
  function DivScalar(vec: Vec2, value: real): (v: Vec2)
    ensures v.Seq() == Vectors.Spread(Over, vec.Seq(), value)
  {
    Vec2(Quot(vec.x, value), Quot(vec.y, value))
  }

  /** Unary `-vec`: the componentwise product by -1. */
  function Neg(vec: Vec2): (v: Vec2)
    ensures v.Seq() == Vectors.Negate(vec.Seq())
    ensures v == MulScalar(vec, -1.0)
  {
    Vec2(-vec.x, -vec.y)
  }

  /** Negating twice gives back the original vector. */
  lemma NegInvolution(vec: Vec2)
    ensures Neg(Neg(vec)) == vec
  {
    Vectors.NegateProperties(vec.Seq());
  }

  /** `+` does not depend on the order of its operands. */
  lemma AddCommutes(left: Vec2, right: Vec2)
    ensures Add(left, right) == Add(right, left)
  {
    Vectors.ZipLaws(left.Seq(), right.Seq());
  }

  /** `*` does not depend on the order of its operands. */
  lemma MulCommutes(left: Vec2, right: Vec2)
    ensures Mul(left, right) == Mul(right, left)
  {
    Vectors.ZipLaws(left.Seq(), right.Seq());
  }

  /** A vector minus itself is the zero vector. */
  lemma SubSelf(vec: Vec2)
    ensures Sub(vec, vec) == Zero()
  {
    Vectors.ZipLaws(vec.Seq(), vec.Seq());
  }

  /** `==`: exact equality of all two components. */
  function Eq(left: Vec2, right: Vec2): (e: bool)
    ensures e == Vectors.AllEqual(left.Seq(), right.Seq())
    ensures e <==> left == right
  {
    Vectors.AllEqualIsEquality(left.Seq(), right.Seq());
    left.x == right.x && left.y == right.y
  }

  /** `!=`: some component differs; exactly the negation of `==`. */
  function Ne(left: Vec2, right: Vec2): (n: bool)
    ensures n == Vectors.AnyDiffer(left.Seq(), right.Seq())
    ensures n == !Eq(left, right)
  {
    Vectors.AllEqualIsEquality(left.Seq(), right.Seq());
    Vectors.AnyDifferIsNegation(left.Seq(), right.Seq());
    left.x != right.x || left.y != right.y
  }

  /** `operator<<`: the text "( x ; y )", where `show` stands for the stream's
   *  rendering of one float. */
  function Format(vec: Vec2, show: real -> string): (s: string)
    ensures s == Vectors.Template([show(vec.x), show(vec.y)])
  {
    var parts := [show(vec.x), show(vec.y)];
    assert Vectors.Join(parts[1..]) == show(vec.y);
    "( " + show(vec.x) + " ; " + show(vec.y) + " )"
  }

  /** The printed text opens with "( ", closes with " )" and holds exactly one
   *  separator, provided no printed component contains ';'. */
  lemma FormatSeparators(vec: Vec2, show: real -> string)
    requires forall c :: ';' !in show(c)
    ensures Format(vec, show)[..2] == "( "
    ensures Format(vec, show)[|Format(vec, show)| - 2..] == " )"
    ensures multiset(Format(vec, show))[';'] == 1
  {
    Vectors.TemplateShape([show(vec.x), show(vec.y)]);
  }

  /** A vec2 object: the two fields that the compound assignment operators update. */
  class MutableVec2 {
    var x: real
    var y: real

    /** The value the object currently holds. */
    function Value(): Vec2
      reads this
    {
      Vec2(x, y)
    }

    // The texture-coordinate names read the same fields as x, y.
    function u(): real reads this { x }
    function v(): real reads this { y }

    /** `vec2()` */
    constructor ()
      ensures Value() == Zero()
    {
      x, y := 0.0, 0.0;
    }

    /** `vec2(x, y)`: the arguments stored in order. */
    constructor Full(x: real, y: real)
      ensures Value() == Vec2(x, y)
    {
      this.x, this.y := x, y;
    }

    /** `explicit vec2(value)` */
    constructor FromScalar(value: real)
      ensures Value() == Broadcast(value)
    {
      x, y := value, value;
    }

    /** A write through `u` is read back through `u` and through `x`; nothing else
     *  changes. */
    method SetU(value: real)
      modifies this
      ensures u() == value && x == value
      ensures Value() == old(Value()).(x := value)
    {
      x := value;
    }

    /** A write through `v` is read back through `v` and through `y`; nothing else
     *  changes. */
    method SetV(value: real)
      modifies this
      ensures v() == value && y == value
      ensures Value() == old(Value()).(y := value)
    {
      y := value;
    }

    /** `*this += vec`. `vec` may be this very object: each line reads only the
     *  component it updates, so `v += v` gives `v + v`. */
    method AddAssign(vec: MutableVec2) returns (self: MutableVec2)
      modifies this
      ensures self == this
      ensures Value() == Add(old(Value()), old(vec.Value()))
    {
      x := x + vec.x;
      y := y + vec.y;
      self := this;
    }

    /** `*this -= vec` (`vec` may be this object). */
    method SubAssign(vec: MutableVec2) returns (self: MutableVec2)
      modifies this
      ensures self == this
      ensures Value() == Sub(old(Value()), old(vec.Value()))
    {
      x := x - vec.x;
      y := y - vec.y;
      self := this;
    }

    /** `*this *= vec` (`vec` may be this object). */
    method MulAssign(vec: MutableVec2) returns (self: MutableVec2)
      modifies this
      ensures self == this
      ensures Value() == Mul(old(Value()), old(vec.Value()))
    {
      x := x * vec.x;
      y := y * vec.y;
      self := this;
    }

    /** `*this /= vec` (`vec` may be this object), with no check of the divisor. */
    method DivAssign(vec: MutableVec2) returns (self: MutableVec2)
      modifies this
      ensures self == this
      ensures Value() == Div(old(Value()), old(vec.Value()))
    {
      x := Quot(x, vec.x);
      y := Quot(y, vec.y);
      self := this;
    }

    /** `*this += value` */
    method AddScalarAssign(value: real) returns (self: MutableVec2)
      modifies this
      ensures self == this
      ensures Value() == AddScalar(old(Value()), value)
    {
      x := x + value;
      y := y + value;
      self := this;
    }

    /** `*this -= value` */
    method SubScalarAssign(value: real) returns (self: MutableVec2)
      modifies this
      ensures self == this
      ensures Value() == SubScalar(old(Value()), value)
    {
      x := x - value;
      y := y - value;
      self := this;
    }

    /** `*this *= value` */
    method MulScalarAssign(value: real) returns (self: MutableVec2)
      modifies this
      ensures self == this
      ensures Value() == MulScalar(old(Value()), value)
    {
      x := x * value;
      y := y * value;
      self := this;
    }

    /** `*this /= value`, with no check of the divisor. */
    method DivScalarAssign(value: real) returns (self: MutableVec2)
      modifies this
      ensures self == this
      ensures Value() == DivScalar(old(Value()), value)
    {
      x := Quot(x, value);
      y := Quot(y, value);
      self := this;
    }
  }

  /** `operator>>`: the next two numbers of the input go to x and y, in that
   *  order; `tokens` stands for the numbers the stream would parse. */
  method Read(tokens: seq<real>, vec: MutableVec2) returns (rest: seq<real>)
    requires |tokens| >= 2
    modifies vec
    ensures vec.Value() == Vec2(tokens[0], tokens[1])
    ensures rest == tokens[2..]
  {
    vec.x := tokens[0];
    vec.y := tokens[1];
    rest := tokens[2..];
  }
}
