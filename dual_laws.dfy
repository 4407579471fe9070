/**
  Algebraic laws of the dual-number operators.  The four arithmetic operators
  are exact over `real`, so they satisfy the identities of differentiation
  (inverse operators, commutativity, scaling by a constant).  The chain-rule
  operators are related to each other under the pointwise laws of the scalar
  functions they call, stated as preconditions (for instance sin^2 + cos^2 = 1
  at the point in question).
*/
module DualLaws {
  import opened DualNumbers

  // ---------------------------------------------------------------------
  // Real-arithmetic helpers.  Each is stated over distinct variables so that
  // the solver never has to reason about a square it cannot see through.
  // ---------------------------------------------------------------------

  lemma MulDivCancel(x: real, z: real)
    requires z != 0.0
    ensures (x * z) / z == x
  {
  }

  lemma DivMulCancel(x: real, z: real)
    requires z != 0.0
    ensures (x / z) * z == x
  {
  }

  lemma DivEq(x: real, y: real, z: real)
    requires z != 0.0 && x == y
    ensures x / z == y / z
  {
  }

  lemma MulEq(k: real, x: real, y: real)
    requires x == y
    ensures k * x == k * y
  {
  }

  lemma DivByOne(x: real, z: real)
    requires z == 1.0
    ensures x / z == x
  {
  }

  /** Dividing by a product is dividing by each factor in turn. */
  lemma DivDiv(x: real, y: real, z: real)
    requires y != 0.0 && z != 0.0
    ensures y * z != 0.0
    ensures x / (y * z) == x / y / z
  {
    assert y * z != 0.0;
    var q := x / y / z;
    assert q * z == x / y;
    assert q * z * y == x;
  }

  // ---------------------------------------------------------------------
  // + and -
  // ---------------------------------------------------------------------

  /** Subtraction undoes addition, value and every partial. */
  lemma {:induction false} SumThenDifference(a: DualNumber, b: DualNumber)
    requires Fits(a, b)
    ensures Fits(Sum(a, b), b)
    ensures Difference(Sum(a, b), b) == a
  {
    var d := Difference(Sum(a, b), b);
    forall i | 0 <= i < a.numVariables ensures d.dual[i] == a.dual[i] {}
    assert d.dual == a.dual;
  }

  /** Addition undoes subtraction, value and every partial. */
  lemma {:induction false} DifferenceThenSum(a: DualNumber, b: DualNumber)
    requires Fits(a, b)
    ensures Fits(Difference(a, b), b)
    ensures Sum(Difference(a, b), b) == a
  {
    var s := Sum(Difference(a, b), b);
    forall i | 0 <= i < a.numVariables ensures s.dual[i] == a.dual[i] {}
    assert s.dual == a.dual;
  }

  /** `+` is commutative on operands over the same variables. */
  lemma SumCommutes(a: DualNumber, b: DualNumber)
    requires a.Valid() && b.Valid() && a.numVariables == b.numVariables
    ensures Sum(a, b) == Sum(b, a)
  {
    assert Sum(a, b).dual == Sum(b, a).dual;
  }

  /** The sum of two constants is the constant of their sum. */
  lemma SumOfConstants(n: nat, f: real, g: real)
    ensures Sum(Constant(n, f), Constant(n, g)) == Constant(n, f + g)
  {
    assert Sum(Constant(n, f), Constant(n, g)).dual == Constant(n, f + g).dual;
  }

  /**
    The zero constant is a left identity of `+`: the cost and the epoch sum
    start from it and add terms over the same variables.
  */
  lemma {:induction false} ZeroPlus(c: DualNumber)
    requires c.Valid()
    ensures Sum(Constant(c.numVariables), c) == c
  {
    var s := Sum(Constant(c.numVariables), c);
    forall i | 0 <= i < c.numVariables ensures s.dual[i] == c.dual[i] {}
    assert s.dual == c.dual;
  }

  // ---------------------------------------------------------------------
  // * and /
  // ---------------------------------------------------------------------

  /** `*` is commutative on operands over the same variables (the product rule is symmetric). */
  lemma ProductCommutes(a: DualNumber, b: DualNumber)
    requires a.Valid() && b.Valid() && a.numVariables == b.numVariables
    ensures Product(a, b) == Product(b, a)
  {
    assert Product(a, b).dual == Product(b, a).dual;
  }

  /**
    Multiplying by a constant scales the value and every partial by the
    constant's value; this is how the gradient is scaled by the learning rate.
  */
  lemma ProductByConstant(a: DualNumber, c: DualNumber)
    requires Fits(a, c) && c.IsConstant()
    ensures Product(a, c).value == c.value * a.value
    ensures forall i :: 0 <= i < a.numVariables ==> Product(a, c).dual[i] == c.value * a.dual[i]
  {
  }

  /** Dividing by a nonzero constant divides the value and every partial by it. */
  lemma QuotientByConstant(a: DualNumber, c: DualNumber)
    requires Fits(a, c) && c.IsConstant() && c.value != 0.0
    ensures Quotient(a, c).value == a.value / c.value
    ensures forall i :: 0 <= i < a.numVariables ==> Quotient(a, c).dual[i] == a.dual[i] / c.value
  {
    forall i | 0 <= i < a.numVariables
      ensures Quotient(a, c).dual[i] == a.dual[i] / c.value
    {
      QuotientPartialByConstant(a.dual[i], a.value, c.value);
    }
  }

  lemma QuotientPartialByConstant(da: real, va: real, vc: real)
    requires vc != 0.0
    ensures QuotientPartial(da, 0.0, va, vc) == da / vc
  {
    DivDiv(da * vc - va * 0.0, vc, vc);
    MulDivCancel(da, vc);
  }

  /** Division undoes multiplication: (a * b) / b == a, value and every partial. */
  lemma ProductThenQuotient(a: DualNumber, b: DualNumber)
    requires Fits(a, b) && b.value != 0.0
    ensures Fits(Product(a, b), b) && Product(a, b).value == a.value * b.value
    ensures Quotient(Product(a, b), b) == a
  {
    var p := Product(a, b);
    var q := Quotient(p, b);
    MulDivCancel(a.value, b.value);
    forall i | 0 <= i < a.numVariables ensures q.dual[i] == a.dual[i] {
      QuotientPartialOfProduct(p.dual[i], p.value, a.dual[i], b.dual[i], a.value, b.value);
    }
    assert q.dual == a.dual;
  }

  lemma QuotientPartialOfProduct(dp: real, vp: real, da: real, db: real, va: real, vb: real)
    requires vb != 0.0 && dp == va * db + da * vb && vp == va * vb
    ensures QuotientPartial(dp, db, vp, vb) == da
  {
    QuotientPartialTwice(dp, db, vp, vb);
    ProductRuleUndone(dp, vp, da, db, va, vb);
  }

  /** The quotient rule's division by b^2 is a division by b, twice. */
  lemma QuotientPartialTwice(da: real, db: real, va: real, vb: real)
    requires vb != 0.0
    ensures QuotientPartial(da, db, va, vb) == (da * vb - va * db) / vb / vb
  {
    DivDiv(da * vb - va * db, vb, vb);
  }

  lemma ProductRuleUndone(dp: real, vp: real, da: real, db: real, va: real, vb: real)
    requires vb != 0.0 && dp == va * db + da * vb && vp == va * vb
    ensures (dp * vb - vp * db) / vb / vb == da
  {
    MulEq(vb, dp, va * db + da * vb);
    MulEq(db, vp, va * vb);
    assert dp * vb - vp * db == (da * vb) * vb;
    DivEq(dp * vb - vp * db, (da * vb) * vb, vb);
    MulDivCancel(da * vb, vb);
    DivEq((dp * vb - vp * db) / vb, da * vb, vb);
    MulDivCancel(da, vb);
  }

  // ---------------------------------------------------------------------
  // Chain-rule operators under laws of the scalar functions
  // ---------------------------------------------------------------------

  /** With pow(x, 2) = x^2 and pow(x, 1) = x at a's value, `pow(a, 2)` is `a * a`. */
  lemma PowerTwoIsSquare(m: Libm, a: DualNumber)
    requires a.Valid()
    requires m.pow(a.value, 2.0) == a.value * a.value && m.pow(a.value, 1.0) == a.value
    ensures Power(m, a, 2.0) == Product(a, a)
  {
    assert Power(m, a, 2.0).dual == Product(a, a).dual;
  }

  /** With sqrt(x)^2 = x at a's value, `sqrt(a) * sqrt(a)` gives `a` back. */
  lemma SquareRootSquared(m: Libm, a: DualNumber)
    requires a.Valid() && m.sqrt(a.value) != 0.0
    requires m.sqrt(a.value) * m.sqrt(a.value) == a.value
    ensures Product(SquareRoot(m, a), SquareRoot(m, a)) == a
  {
    var s := SquareRoot(m, a);
    var p := Product(s, s);
    forall i | 0 <= i < a.numVariables ensures p.dual[i] == a.dual[i] {
      DivMulCancel(0.5 * a.dual[i], m.sqrt(a.value));
    }
    assert p.dual == a.dual;
  }

  /** With sin^2 + cos^2 = 1 at a's value, `sin(a)^2 + cos(a)^2` is the constant 1. */
  lemma PythagoreanIdentity(m: Libm, a: DualNumber)
    requires a.Valid()
    requires m.sin(a.value) * m.sin(a.value) + m.cos(a.value) * m.cos(a.value) == 1.0
    ensures Fits(Product(Sine(m, a), Sine(m, a)), Product(Cosine(m, a), Cosine(m, a)))
    ensures Sum(Product(Sine(m, a), Sine(m, a)), Product(Cosine(m, a), Cosine(m, a))) == Constant(a.numVariables, 1.0)
  {
    var s := Sum(Product(Sine(m, a), Sine(m, a)), Product(Cosine(m, a), Cosine(m, a)));
    forall i | 0 <= i < a.numVariables ensures s.dual[i] == 0.0 {}
    assert s.dual == Constant(a.numVariables, 1.0).dual;
  }

  /**
    With tan = sin / cos and sin^2 + cos^2 = 1 at a's value, `tan(a)` is
    `sin(a) / cos(a)`: the tangent rule agrees with the quotient rule.
  */
  lemma TangentIsSineOverCosine(m: Libm, a: DualNumber)
    requires a.Valid() && m.cos(a.value) != 0.0
    requires m.tan(a.value) == m.sin(a.value) / m.cos(a.value)
    requires m.sin(a.value) * m.sin(a.value) + m.cos(a.value) * m.cos(a.value) == 1.0
    ensures Fits(Sine(m, a), Cosine(m, a))
    ensures Quotient(Sine(m, a), Cosine(m, a)) == Tangent(m, a)
  {
    var q := Quotient(Sine(m, a), Cosine(m, a));
    forall i | 0 <= i < a.numVariables ensures q.dual[i] == Tangent(m, a).dual[i] {
      QuotientPartialOfSineCosine(a.dual[i], m.sin(a.value), m.cos(a.value));
    }
    assert q.dual == Tangent(m, a).dual;
  }

  lemma QuotientPartialOfSineCosine(d: real, s: real, c: real)
    requires c != 0.0 && s * s + c * c == 1.0
    ensures QuotientPartial(d * c, -d * s, s, c) == TangentPartial(d, c)
  {
    MulEq(d, s * s + c * c, 1.0);
    assert (d * c) * c - s * (-d * s) == d;
    DivDiv((d * c) * c - s * (-d * s), c, c);
    DivDiv(d, c, c);
    DivEq((d * c) * c - s * (-d * s), d, c);
  }

  /**
    With tan(atan x) = x and cos(atan x)^2 (1 + x^2) = 1, the tangent undoes
    the corrected arc tangent: value and every partial come back.
  */
  lemma TangentOfArcTangent(m: Libm, a: DualNumber)
    requires a.Valid()
    requires m.tan(m.atan(a.value)) == a.value
    requires m.cos(m.atan(a.value)) != 0.0
    requires (1.0 + a.value * a.value) * (m.cos(m.atan(a.value)) * m.cos(m.atan(a.value))) == 1.0
    ensures Tangent(m, ArcTangent(m, a)) == a
  {
    var t := Tangent(m, ArcTangent(m, a));
    forall i | 0 <= i < a.numVariables ensures t.dual[i] == a.dual[i] {
      TangentPartialOfArcTangent(a.dual[i], a.value, m.cos(m.atan(a.value)));
    }
    assert t.dual == a.dual;
  }

  lemma TangentPartialOfArcTangent(d: real, x: real, c: real)
    requires c != 0.0 && (1.0 + x * x) * (c * c) == 1.0
    ensures 1.0 + x * x != 0.0
    ensures TangentPartial(d / (1.0 + x * x), c) == d
  {
    OnePlusSquarePositive(x);
    DivDiv(d / (1.0 + x * x), c, c);
    DivDiv(d, 1.0 + x * x, c * c);
    DivByOne(d, (1.0 + x * x) * (c * c));
  }

  /**
    The arc tangent as written differs from the corrected one in its value
    alone, whenever tan and atan disagree at a's value.
  */
  lemma ArcTangentAsWrittenDiffers(m: Libm, a: DualNumber)
    requires a.Valid() && m.tan(a.value) != m.atan(a.value)
    ensures ArcTangentAsWritten(m, a).dual == ArcTangent(m, a).dual
    ensures ArcTangentAsWritten(m, a).value != ArcTangent(m, a).value
  {
  }

  /** A scalar library whose tangent doubles and whose arc tangent halves (tan(atan x) = x). */
  function Doubling(): Libm {
    Libm(x => x, (x, y) => x, x => x, x => 1.0, x => 2.0 * x, x => x / 2.0)
  }

  /**
    Counterexample: for the tracked variable x = 1, tan(atan(x)) gives x back
    with the corrected arc tangent, but not with the arc tangent as written,
    which already applies tan once.
  */
  lemma ArcTangentAsWrittenBreaksRoundTrip()
    ensures Tangent(Doubling(), ArcTangent(Doubling(), Variable(1, 1.0, 0))).value == 1.0
    ensures Tangent(Doubling(), ArcTangentAsWritten(Doubling(), Variable(1, 1.0, 0))).value == 4.0
  {
  }
}
