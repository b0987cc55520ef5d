/** The four arithmetic tools of `CalculatorElements`: add, subtract and
    multiply on integers, and a power with a whole exponent. Integers are
    unbounded here; PHP's overflow of `int` into `float` is not modelled. */
module CalculatorElements {

  /** `add_numbers`: the sum, which taking `b` away undoes. */
  function Add(a: int, b: int): (r: int)
    ensures r - b == a && r - a == b
  {
    a + b
  }

  /** `subtract_numbers`: the second number taken from the first, which adding it back undoes. */
  function Subtract(a: int, b: int): (r: int)
    ensures r + b == a
    ensures r == 0 <==> a == b
  {
    a - b
  }

  /** `multiply_numbers`. */
  function Multiply(a: int, b: int): (r: int)
    ensures a == 0 || b == 0 ==> r == 0
    ensures b == 1 ==> r == a
    ensures a == 1 ==> r == b
  {
    a * b
  }

  lemma SubtractUndoesAdd(a: int, b: int)
    ensures Subtract(Add(a, b), b) == a
    ensures Add(Subtract(a, b), b) == a
  {
  }

  /** Multiplication distributes over the sum and the difference. */
  lemma MultiplyDistributes(a: int, b: int, c: int)
    ensures Multiply(a, Add(b, c)) == Add(Multiply(a, b), Multiply(a, c))
    ensures Multiply(a, Subtract(b, c)) == Subtract(Multiply(a, b), Multiply(a, c))
  {
    assert a * (b + c) == a * b + a * c;
    assert a * (b - c) == a * b - a * c;
  }

  /** The declared domain of `calculate_power`: base in [0, 1000], exponent in [0, 10]. */
  predicate PowerDomain(base: real, exponent: int)
  {
    0.0 <= base <= 1000.0 && 0 <= exponent <= 10
  }

  /** `calculate_power`: the base multiplied by itself `exponent` times, in
      exact arithmetic. The schema's bounds constrain the caller, not `pow`
      itself, so they appear only where a property needs them. */
  function Power(base: real, exponent: nat): (r: real)
    ensures exponent == 0 ==> r == 1.0
  {
    if exponent == 0 then 1.0 else base * Power(base, exponent - 1)
  }

  /** On the schema's domain a power is never negative; it is at least 1
      for a base of at least 1 and at most 1 for a base of at most 1. */
  lemma {:induction false} PowerBounds(base: real, exponent: nat)
    requires PowerDomain(base, exponent)
    ensures Power(base, exponent) >= 0.0
    ensures base >= 1.0 ==> Power(base, exponent) >= 1.0
    ensures base <= 1.0 ==> Power(base, exponent) <= 1.0
  {
    if exponent > 0 {
      var p := Power(base, exponent - 1);
      PowerBounds(base, exponent - 1);
      assert Power(base, exponent) == base * p;
      MulBounds(base, p);
    }
  }

  lemma MulBounds(a: real, b: real)
    requires a >= 0.0 && b >= 0.0
    ensures a * b >= 0.0
    ensures a >= 1.0 && b >= 1.0 ==> a * b >= 1.0
    ensures a <= 1.0 && b <= 1.0 ==> a * b <= 1.0
  {
    if a >= 1.0 && b >= 1.0 {
      assert a * b >= 1.0 * b;
    }
    if a <= 1.0 && b <= 1.0 {
      assert a * b <= 1.0 * b;
    }
  }

  /** One more factor of the base: `pow($base, $e + 1) == pow($base, $e) * $base`. */
  lemma PowerStep(base: real, exponent: nat)
    ensures Power(base, exponent + 1) == Power(base, exponent) * base
  {
  }

  /** Raising to the first power gives the base, and zero stays zero for a positive exponent. */
  lemma {:induction false} PowerSmallCases(base: real, exponent: nat)
    ensures Power(base, 1) == base
    ensures exponent > 0 && base == 0.0 ==> Power(base, exponent) == 0.0
  {
  }

  /** Exponents add: `pow($b, $m + $n) == pow($b, $m) * pow($b, $n)`. */
  lemma {:induction false} PowerAdd(base: real, m: nat, n: nat)
    ensures Power(base, m + n) == Power(base, m) * Power(base, n)
  {
    if n > 0 {
      PowerAdd(base, m, n - 1);
      PowerAddStep(base, m, n);
    }
  }

  /** The inductive step of `PowerAdd`: from `n - 1` to `n`. */
  lemma PowerAddStep(base: real, m: nat, n: nat)
    requires n > 0
    requires Power(base, m + (n - 1)) == Power(base, m) * Power(base, n - 1)
    ensures Power(base, m + n) == Power(base, m) * Power(base, n)
  {
    var k := m + (n - 1);
    PowerUnfold(base, k + 1);
    PowerUnfold(base, n);
    Regroup(base, Power(base, m), Power(base, n - 1), Power(base, k), Power(base, k + 1), Power(base, n));
  }

  lemma PowerUnfold(base: real, k: nat)
    requires k > 0
    ensures Power(base, k) == base * Power(base, k - 1)
  {
  }

  /** `x * (p * q) == p * (x * q)`, on names, so that the solver meets no
      other product. */
  lemma Regroup(x: real, p: real, q: real, s: real, r: real, t: real)
    requires s == p * q && r == x * s && t == x * q
    ensures r == p * t
  {
    assert x * (p * q) == p * (x * q);
  }
}
