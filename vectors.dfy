/** The arity-independent reference for vec2, vec3 and vec4: a vector of N components
 *  as a sequence of N reals, with every operation stated once, componentwise.
 *
 *  Each per-arity operation in Vector2, Vector3 and Vector4 is written out field by
 *  field, as the source writes it, and its contract ties it to the definition here.
 */
module Vectors {
  import opened Scalar

  /** Every component equal to `value` (the broadcast constructor; `value == 0.0`
   *  gives the default constructor). */
  function Fill(n: nat, value: real): (c: seq<real>)
    ensures |c| == n
  {
    seq(n, _ => value)
  }

  /** `op` applied to same-position components of two vectors of one arity. */
  function Zip(op: Op, a: seq<real>, b: seq<real>): (c: seq<real>)
    requires |a| == |b|
    ensures |c| == |a|
    ensures forall k :: 0 <= k < |a| ==> c[k] == Apply(op, a[k], b[k])
  {
    seq(|a|, k requires 0 <= k < |a| => Apply(op, a[k], b[k]))
  }

  /** `op` applied to every component with the same scalar on the right. */
  function Spread(op: Op, a: seq<real>, s: real): (c: seq<real>)
    ensures |c| == |a|
    ensures forall k :: 0 <= k < |a| ==> c[k] == Apply(op, a[k], s)
  {
    seq(|a|, k requires 0 <= k < |a| => Apply(op, a[k], s))
  }

  /** Every component negated. */
  function Negate(a: seq<real>): (c: seq<real>)
    ensures |c| == |a|
    ensures forall k :: 0 <= k < |a| ==> c[k] == -a[k]
  {
    seq(|a|, k requires 0 <= k < |a| => -a[k])
  }

  /** Negation is the componentwise product by -1, and undoing it restores the vector. */
  lemma NegateProperties(a: seq<real>)
    ensures Negate(a) == Spread(Times, a, -1.0)
    ensures Negate(Negate(a)) == a
  {
  }

  /** The componentwise sum and product do not depend on the order of the operands,
   *  and the componentwise difference of a vector with itself is all zeros. */
  lemma ZipLaws(a: seq<real>, b: seq<real>)
    requires |a| == |b|
    ensures Zip(Plus, a, b) == Zip(Plus, b, a)
    ensures Zip(Times, a, b) == Zip(Times, b, a)
    ensures Zip(Minus, a, a) == Fill(|a|, 0.0)
  {
  }

  /** `==` reduces the component equalities with AND, first component first. */
  function AllEqual(a: seq<real>, b: seq<real>): bool
    requires |a| == |b|
  {
    |a| == 0 || (a[0] == b[0] && AllEqual(a[1..], b[1..]))
  }

  /** `!=` reduces the component inequalities with OR, first component first. */
  function AnyDiffer(a: seq<real>, b: seq<real>): bool
    requires |a| == |b|
  {
    |a| != 0 && (a[0] != b[0] || AnyDiffer(a[1..], b[1..]))
  }

  /** The AND-reduction is exact equality of the two vectors. */
  lemma {:induction false} AllEqualIsEquality(a: seq<real>, b: seq<real>)
    requires |a| == |b|
    ensures AllEqual(a, b) <==> a == b
  {
    if |a| != 0 {
      AllEqualIsEquality(a[1..], b[1..]);
      assert a == [a[0]] + a[1..];
      assert b == [b[0]] + b[1..];
    }
  }

  /** The OR-reduction of the inequalities is exactly the negation of the AND-reduction
   *  of the equalities. */
  lemma {:induction false} AnyDifferIsNegation(a: seq<real>, b: seq<real>)
    requires |a| == |b|
    ensures AnyDiffer(a, b) == !AllEqual(a, b)
  {
    if |a| != 0 {
      AnyDifferIsNegation(a[1..], b[1..]);
    }
  }

  /** The printed components joined by the separator " ; ". */
  function Join(parts: seq<string>): string
  {
    if |parts| == 0 then ""
    else if |parts| == 1 then parts[0]
    else parts[0] + " ; " + Join(parts[1..])
  }

  /** The output template "( c0 ; c1 ; ... )". */
  function Template(parts: seq<string>): string
  {
    "( " + Join(parts) + " )"
  }

  /** When no printed component contains ';', the separators are the only ';'
   *  characters of the joined text: one fewer than there are components. */
  lemma {:induction false} JoinSeparators(parts: seq<string>)
    requires |parts| >= 1
    requires forall i :: 0 <= i < |parts| ==> ';' !in parts[i]
    ensures multiset(Join(parts))[';'] == |parts| - 1
  {
    if |parts| == 1 {
      assert ';' !in parts[0];
    } else {
      JoinSeparators(parts[1..]);
      assert ';' !in parts[0];
      assert multiset(" ; ")[';'] == 1;
    }
  }

  /** The template delimits the joined components with "( " and " )" and adds no
   *  further ';': a vector of N components prints exactly N - 1 separators. */
  lemma TemplateShape(parts: seq<string>)
    requires |parts| >= 1
    requires forall i :: 0 <= i < |parts| ==> ';' !in parts[i]
    ensures Template(parts)[..2] == "( "
    ensures Template(parts)[|Template(parts)| - 2..] == " )"
    ensures multiset(Template(parts))[';'] == |parts| - 1
  {
    JoinSeparators(parts);
  }
}
