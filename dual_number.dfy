/**
  Multivariable dual numbers for forward-mode automatic differentiation.

  A dual number carries a real value and one partial derivative per tracked
  variable.  Arithmetic is exact over `real`; the scalar elementary functions
  of the C math library are not defined here: they are the fields of a `Libm`
  value that every operation using them takes as a parameter, so that the
  proofs only depend on how they are wired into the value and the partials.
*/
module DualNumbers {

  /** The scalar functions of the C math library that the operators call. */
  datatype Libm = Libm(
    sqrt: real -> real,
    pow: (real, real) -> real,
    sin: real -> real,
    cos: real -> real,
    tan: real -> real,
    atan: real -> real)

  /** `numVariables` is NUMVARIABLES, `value` is m_real, `dual` is m_dual. */
  datatype DualNumber = DualNumber(numVariables: nat, value: real, dual: seq<real>)
  {
    /** Every constructor leaves NUMVARIABLES equal to the length of m_dual. */
    predicate Valid() {
      |dual| == numVariables
    }

    /** All partials are zero: the value does not depend on any tracked variable. */
    predicate IsConstant() {
      forall i :: 0 <= i < |dual| ==> dual[i] == 0.0
    }
  }

  /** The binary operators loop over `a`'s NUMVARIABLES and read as many partials of `b`. */
  predicate Fits(a: DualNumber, b: DualNumber) {
    a.Valid() && a.numVariables <= |b.dual|
  }

  // ---------------------------------------------------------------------
  // Constructors (specification functions)
  // ---------------------------------------------------------------------

  /** The default constructor: no variables, value 0. */
  function Empty(): DualNumber {
    DualNumber(0, 0.0, [])
  }

  /** A constant over `n` variables; the value defaults to 0. */
  function Constant(n: nat, f: real := 0.0): DualNumber {
    DualNumber(n, f, seq(n, i => 0.0))
  }

  /** The tracked variable number `k` among `n`: a one-hot partials vector. */
  function Variable(n: nat, f: real, k: nat): DualNumber
    requires k < n
  {
    DualNumber(n, f, seq(n, i => if i == k then 1.0 else 0.0))
  }

  // ---------------------------------------------------------------------
  // Operators (specification functions)
  // ---------------------------------------------------------------------

  /** `a + b`: linearity. */
  function Sum(a: DualNumber, b: DualNumber): (r: DualNumber)
    requires Fits(a, b)
    ensures r.Valid() && r.numVariables == a.numVariables
  {
    DualNumber(a.numVariables, a.value + b.value,
      seq(a.numVariables, i requires 0 <= i < a.numVariables => a.dual[i] + b.dual[i]))
  }

  /** `a - b`: linearity. */
  function Difference(a: DualNumber, b: DualNumber): (r: DualNumber)
    requires Fits(a, b)
    ensures r.Valid() && r.numVariables == a.numVariables
  {
    DualNumber(a.numVariables, a.value - b.value,
      seq(a.numVariables, i requires 0 <= i < a.numVariables => a.dual[i] - b.dual[i]))
  }

  /** `a * b`: the product rule. */
  function Product(a: DualNumber, b: DualNumber): (r: DualNumber)
    requires Fits(a, b)
    ensures r.Valid() && r.numVariables == a.numVariables
  {
    DualNumber(a.numVariables, a.value * b.value,
      seq(a.numVariables, i requires 0 <= i < a.numVariables => a.value * b.dual[i] + a.dual[i] * b.value))
  }

  /** A nonzero number has a nonzero square. */
  lemma SquareNonZero(x: real)
    requires x != 0.0
    ensures x * x != 0.0
  {
  }

  /** One partial of `a / b` by the quotient rule, from a's and b's partial and value. */
  function QuotientPartial(da: real, db: real, va: real, vb: real): real
    requires vb != 0.0
  {
    SquareNonZero(vb);
    (da * vb - va * db) / (vb * vb)
  }

  /** `a / b`: the quotient rule; the denominator must not be zero. */
  function Quotient(a: DualNumber, b: DualNumber): (r: DualNumber)
    requires Fits(a, b) && b.value != 0.0
    ensures r.Valid() && r.numVariables == a.numVariables
  {
    DualNumber(a.numVariables, a.value / b.value,
      seq(a.numVariables, i requires 0 <= i < a.numVariables =>
        QuotientPartial(a.dual[i], b.dual[i], a.value, b.value)))
  }

  /**
    `sqrt(a)`: the chain rule with derivative 1 / (2 sqrt x).  The root
    divides only the partials, so it must be nonzero only when there are some.
  */
  function SquareRoot(m: Libm, a: DualNumber): (r: DualNumber)
    requires a.Valid() && (a.numVariables > 0 ==> m.sqrt(a.value) != 0.0)
    ensures r.Valid() && r.numVariables == a.numVariables
  {
    var s := m.sqrt(a.value);
    DualNumber(a.numVariables, s,
      seq(a.numVariables, i requires 0 <= i < a.numVariables => 0.5 * a.dual[i] / s))
  }

  /** `pow(a, y)` for a scalar exponent `y`: derivative y x^(y-1). */
  function Power(m: Libm, a: DualNumber, y: real): (r: DualNumber)
    requires a.Valid()
    ensures r.Valid() && r.numVariables == a.numVariables
  {
    DualNumber(a.numVariables, m.pow(a.value, y),
      seq(a.numVariables, i requires 0 <= i < a.numVariables => y * a.dual[i] * m.pow(a.value, y - 1.0)))
  }

  /** `sin(a)`: derivative cos x. */
  function Sine(m: Libm, a: DualNumber): (r: DualNumber)
    requires a.Valid()
    ensures r.Valid() && r.numVariables == a.numVariables
  {
    DualNumber(a.numVariables, m.sin(a.value),
      seq(a.numVariables, i requires 0 <= i < a.numVariables => a.dual[i] * m.cos(a.value)))
  }

  /** `cos(a)`: derivative -sin x. */
  function Cosine(m: Libm, a: DualNumber): (r: DualNumber)
    requires a.Valid()
    ensures r.Valid() && r.numVariables == a.numVariables
  {
    DualNumber(a.numVariables, m.cos(a.value),
      seq(a.numVariables, i requires 0 <= i < a.numVariables => -a.dual[i] * m.sin(a.value)))
  }

  /** One partial of `tan(a)`: the partial divided by cos^2 x. */
  function TangentPartial(da: real, c: real): real
    requires c != 0.0
  {
    SquareNonZero(c);
    da / (c * c)
  }

  /** `tan(a)`: derivative 1 / cos^2 x; cos x must not be zero when there are partials. */
  function Tangent(m: Libm, a: DualNumber): (r: DualNumber)
    requires a.Valid() && (a.numVariables > 0 ==> m.cos(a.value) != 0.0)
    ensures r.Valid() && r.numVariables == a.numVariables
  {
    DualNumber(a.numVariables, m.tan(a.value),
      seq(a.numVariables, i requires 0 <= i < a.numVariables => TangentPartial(a.dual[i], m.cos(a.value))))
  }

  /** The denominator 1 + x^2 of the arc tangent's derivative is never zero. */
  lemma OnePlusSquarePositive(x: real)
    ensures 1.0 + x * x > 0.0
  {
    if x < 0.0 {
      assert x * x == (-x) * (-x);
    }
  }

  /**
    `atan(a)` as the source writes it: the partials follow the arc tangent's
    derivative 1 / (1 + x^2), but the value is computed with tan, not atan.
  */
  function ArcTangentAsWritten(m: Libm, a: DualNumber): (r: DualNumber)
    requires a.Valid()
    ensures r.Valid() && r.numVariables == a.numVariables
  {
    OnePlusSquarePositive(a.value);
    DualNumber(a.numVariables, m.tan(a.value),
      seq(a.numVariables, i requires 0 <= i < a.numVariables => a.dual[i] / (1.0 + a.value * a.value)))
  }

  /** `atan(a)` as evidently intended: value atan x, derivative 1 / (1 + x^2). */
  function ArcTangent(m: Libm, a: DualNumber): (r: DualNumber)
    requires a.Valid()
    ensures r.Valid() && r.numVariables == a.numVariables
  {
    OnePlusSquarePositive(a.value);
    DualNumber(a.numVariables, m.atan(a.value),
      seq(a.numVariables, i requires 0 <= i < a.numVariables => a.dual[i] / (1.0 + a.value * a.value)))
  }

  // ---------------------------------------------------------------------
  // Constructors as the source runs them: allocate m_dual, zero it, then
  // (for a tracked variable) write the one.
  // ---------------------------------------------------------------------

  /** The default constructor. */
  method NewEmpty() returns (d: DualNumber)
    ensures d.Valid() && d.numVariables == 0 && d.value == 0.0 && d.dual == []
    ensures d == Empty()
  {
    d := DualNumber(0, 0.0, []);
  }

  /** The constant constructor; `CDualNumber(n)` is the zero constant. */
  method NewConstant(n: nat, f: real := 0.0) returns (d: DualNumber)
    ensures d.Valid() && d.numVariables == n && d.value == f
    ensures forall i :: 0 <= i < n ==> d.dual[i] == 0.0
    ensures d == Constant(n, f)
  {
    var buffer := new real[n];
    for i := 0 to n
      invariant forall j :: 0 <= j < i ==> buffer[j] == 0.0
    {
      buffer[i] := 0.0;
    }
    d := DualNumber(n, f, buffer[..]);
    assert d.dual == Constant(n, f).dual;
  }

  /** The tracked-variable constructor: partial `k` is 1, every other partial 0. */
  method NewVariable(n: nat, f: real, k: nat) returns (d: DualNumber)
    requires k < n
    ensures d.Valid() && d.numVariables == n && d.value == f
    ensures d.dual[k] == 1.0
    ensures forall i :: 0 <= i < n && i != k ==> d.dual[i] == 0.0
    ensures d == Variable(n, f, k)
  {
    var buffer := new real[n];
    for i := 0 to n
      invariant forall j :: 0 <= j < i ==> buffer[j] == 0.0
    {
      buffer[i] := 0.0;
    }
    buffer[k] := 1.0;
    d := DualNumber(n, f, buffer[..]);
    assert d.dual == Variable(n, f, k).dual;
  }
}
