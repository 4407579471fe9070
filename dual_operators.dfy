/**
  The dual-number operators as the source runs them: each one constructs a
  fresh zero constant over `a`'s variables, sets its value, then fills its
  partials one index at a time.  Operands are never changed.  Each method is
  proved to compute the corresponding specification function of DualNumbers.
*/
module DualOperators {
  import opened DualNumbers

  /** `operator +`. */
  method Add(a: DualNumber, b: DualNumber) returns (r: DualNumber)
    requires Fits(a, b)
    ensures r == Sum(a, b)
  {
    r := NewConstant(a.numVariables);
    r := r.(value := a.value + b.value);
    for i := 0 to a.numVariables
      invariant r.numVariables == a.numVariables && |r.dual| == a.numVariables
      invariant r.value == a.value + b.value
      invariant forall j :: 0 <= j < i ==> r.dual[j] == a.dual[j] + b.dual[j]
    {
      r := r.(dual := r.dual[i := a.dual[i] + b.dual[i]]);
    }
    forall j | 0 <= j < a.numVariables ensures r.dual[j] == Sum(a, b).dual[j] {}
    assert r.dual == Sum(a, b).dual;
  }

  /** `operator -`. */
  method Sub(a: DualNumber, b: DualNumber) returns (r: DualNumber)
    requires Fits(a, b)
    ensures r == Difference(a, b)
  {
    r := NewConstant(a.numVariables);
    r := r.(value := a.value - b.value);
    for i := 0 to a.numVariables
      invariant r.numVariables == a.numVariables && |r.dual| == a.numVariables
      invariant r.value == a.value - b.value
      invariant forall j :: 0 <= j < i ==> r.dual[j] == a.dual[j] - b.dual[j]
    {
      r := r.(dual := r.dual[i := a.dual[i] - b.dual[i]]);
    }
    forall j | 0 <= j < a.numVariables ensures r.dual[j] == Difference(a, b).dual[j] {}
    assert r.dual == Difference(a, b).dual;
  }

  /** `operator *`. */
  method Mul(a: DualNumber, b: DualNumber) returns (r: DualNumber)
    requires Fits(a, b)
    ensures r == Product(a, b)
  {
    r := NewConstant(a.numVariables);
    r := r.(value := a.value * b.value);
    for i := 0 to a.numVariables
      invariant r.numVariables == a.numVariables && |r.dual| == a.numVariables
      invariant r.value == a.value * b.value
      invariant forall j :: 0 <= j < i ==> r.dual[j] == a.value * b.dual[j] + a.dual[j] * b.value
    {
      r := r.(dual := r.dual[i := a.value * b.dual[i] + a.dual[i] * b.value]);
    }
    forall j | 0 <= j < a.numVariables ensures r.dual[j] == Product(a, b).dual[j] {}
    assert r.dual == Product(a, b).dual;
  }

  /** `operator /`. */
  method Div(a: DualNumber, b: DualNumber) returns (r: DualNumber)
    requires Fits(a, b) && b.value != 0.0
    ensures r == Quotient(a, b)
  {
    r := NewConstant(a.numVariables);
    r := r.(value := a.value / b.value);
    for i := 0 to a.numVariables
      invariant r.numVariables == a.numVariables && |r.dual| == a.numVariables
      invariant r.value == a.value / b.value
      invariant forall j :: 0 <= j < i ==> r.dual[j] == QuotientPartial(a.dual[j], b.dual[j], a.value, b.value)
    {
      r := r.(dual := r.dual[i := QuotientPartial(a.dual[i], b.dual[i], a.value, b.value)]);
    }
    forall j | 0 <= j < a.numVariables ensures r.dual[j] == Quotient(a, b).dual[j] {}
    assert r.dual == Quotient(a, b).dual;
  }

  /** `sqrt(a)`; the root is a divisor only when there are partials to fill. */
  method Sqrt(m: Libm, a: DualNumber) returns (r: DualNumber)
    requires a.Valid() && (a.numVariables > 0 ==> m.sqrt(a.value) != 0.0)
    ensures r == SquareRoot(m, a)
  {
    r := NewConstant(a.numVariables);
    var sqrtReal := m.sqrt(a.value);
    r := r.(value := sqrtReal);
    for i := 0 to a.numVariables
      invariant r.numVariables == a.numVariables && |r.dual| == a.numVariables
      invariant r.value == sqrtReal
      invariant forall j :: 0 <= j < i ==> r.dual[j] == 0.5 * a.dual[j] / sqrtReal
    {
      r := r.(dual := r.dual[i := 0.5 * a.dual[i] / sqrtReal]);
    }
    forall j | 0 <= j < a.numVariables ensures r.dual[j] == SquareRoot(m, a).dual[j] {}
    assert r.dual == SquareRoot(m, a).dual;
  }

  /** `pow(a, y)`. */
  method Pow(m: Libm, a: DualNumber, y: real) returns (r: DualNumber)
    requires a.Valid()
    ensures r == Power(m, a, y)
  {
    r := NewConstant(a.numVariables);
    r := r.(value := m.pow(a.value, y));
    for i := 0 to a.numVariables
      invariant r.numVariables == a.numVariables && |r.dual| == a.numVariables
      invariant r.value == m.pow(a.value, y)
      invariant forall j :: 0 <= j < i ==> r.dual[j] == y * a.dual[j] * m.pow(a.value, y - 1.0)
    {
      r := r.(dual := r.dual[i := y * a.dual[i] * m.pow(a.value, y - 1.0)]);
    }
    forall j | 0 <= j < a.numVariables ensures r.dual[j] == Power(m, a, y).dual[j] {}
    assert r.dual == Power(m, a, y).dual;
  }

  /** `sin(a)`. */
  method Sin(m: Libm, a: DualNumber) returns (r: DualNumber)
    requires a.Valid()
    ensures r == Sine(m, a)
  {
    r := NewConstant(a.numVariables);
    r := r.(value := m.sin(a.value));
    for i := 0 to a.numVariables
      invariant r.numVariables == a.numVariables && |r.dual| == a.numVariables
      invariant r.value == m.sin(a.value)
      invariant forall j :: 0 <= j < i ==> r.dual[j] == a.dual[j] * m.cos(a.value)
    {
      r := r.(dual := r.dual[i := a.dual[i] * m.cos(a.value)]);
    }
    forall j | 0 <= j < a.numVariables ensures r.dual[j] == Sine(m, a).dual[j] {}
    assert r.dual == Sine(m, a).dual;
  }

  /** `cos(a)`. */
  method Cos(m: Libm, a: DualNumber) returns (r: DualNumber)
    requires a.Valid()
    ensures r == Cosine(m, a)
  {
    r := NewConstant(a.numVariables);
    r := r.(value := m.cos(a.value));
    for i := 0 to a.numVariables
      invariant r.numVariables == a.numVariables && |r.dual| == a.numVariables
      invariant r.value == m.cos(a.value)
      invariant forall j :: 0 <= j < i ==> r.dual[j] == -a.dual[j] * m.sin(a.value)
    {
      r := r.(dual := r.dual[i := -a.dual[i] * m.sin(a.value)]);
    }
    forall j | 0 <= j < a.numVariables ensures r.dual[j] == Cosine(m, a).dual[j] {}
    assert r.dual == Cosine(m, a).dual;
  }

  /** `tan(a)`; cos x is a divisor only when there are partials to fill. */
  method Tan(m: Libm, a: DualNumber) returns (r: DualNumber)
    requires a.Valid() && (a.numVariables > 0 ==> m.cos(a.value) != 0.0)
    ensures r == Tangent(m, a)
  {
    r := NewConstant(a.numVariables);
    r := r.(value := m.tan(a.value));
    var c := m.cos(a.value);
    for i := 0 to a.numVariables
      invariant r.numVariables == a.numVariables && |r.dual| == a.numVariables
      invariant r.value == m.tan(a.value)
      invariant forall j :: 0 <= j < i ==> r.dual[j] == TangentPartial(a.dual[j], c)
    {
      r := r.(dual := r.dual[i := TangentPartial(a.dual[i], c)]);
    }
    forall j | 0 <= j < a.numVariables ensures r.dual[j] == Tangent(m, a).dual[j] {}
    assert r.dual == Tangent(m, a).dual;
  }

  /** `atan(a)`, reproducing the source: the value is tan x (see ArcTangentAsWritten). */
  method Atan(m: Libm, a: DualNumber) returns (r: DualNumber)
    requires a.Valid()
    ensures r == ArcTangentAsWritten(m, a)
  {
    r := NewConstant(a.numVariables);
    r := r.(value := m.tan(a.value));
    OnePlusSquarePositive(a.value);
    for i := 0 to a.numVariables
      invariant r.numVariables == a.numVariables && |r.dual| == a.numVariables
      invariant r.value == m.tan(a.value)
      invariant forall j :: 0 <= j < i ==> r.dual[j] == a.dual[j] / (1.0 + a.value * a.value)
    {
      r := r.(dual := r.dual[i := a.dual[i] / (1.0 + a.value * a.value)]);
    }
    forall j | 0 <= j < a.numVariables ensures r.dual[j] == ArcTangentAsWritten(m, a).dual[j] {}
    assert r.dual == ArcTangentAsWritten(m, a).dual;
  }
}
