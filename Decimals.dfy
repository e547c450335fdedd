/** Exact model of the fixed-point step every precision rule goes through:
    Decimal(str(v)).quantize(Decimal('0.' + '0' * d), rounding=ROUND_DOWN)
    in Python's default decimal context.

    Values are exact reals. ROUND_DOWN truncates toward zero. The default
    context keeps 28 significant digits, and quantize signals
    InvalidOperation when the coefficient it would produce needs more. */
module Decimals {

  /** The exceptions the order pipeline's arithmetic can raise. */
  datatype Fault = InvalidOperation | ZeroDivision

  /** What str(e) gives for each raised exception. */
  function FaultText(f: Fault): string
  {
    match f
    case InvalidOperation => "[<class 'decimal.InvalidOperation'>]"
    case ZeroDivision => "float division by zero"
  }

  /** A value, or the exception raised while computing it. */
  datatype Outcome<T> = Ok(value: T) | Err(fault: Fault)

  /** 10^28: the first coefficient that no longer fits the 28 significant
      digits of Python's default decimal context. */
  const CoefficientLimit: int := 10_000_000_000_000_000_000_000_000_000

  function Pow10(d: nat): (p: nat)
    ensures p >= 1
  {
    if d == 0 then 1 else 10 * Pow10(d - 1)
  }

  /** 10^d as a real: the factor that moves d fractional digits left of the point. */
  function Scale(d: nat): (p: real)
    ensures p >= 1.0
  {
    Pow10(d) as real
  }

  /** The smallest positive step at d fractional digits, 10^-d. */
  function Unit(d: nat): real
  {
    1.0 / Scale(d)
  }

  function Abs(x: real): real
  {
    if x < 0.0 then -x else x
  }

  /** s truncated toward zero. */
  function Trunc(s: real): int
  {
    if s >= 0.0 then s.Floor else -((-s).Floor)
  }

  predicate IsIntegral(s: real)
  {
    s.Floor as real == s
  }

  /** A coefficient the 28-digit context can hold. */
  predicate InContext(c: int)
  {
    -CoefficientLimit < c < CoefficientLimit
  }

  /** quantize at scale p: with p = Scale(d) this is quantize to d fractional
      digits, rounding toward zero. */
  function Quantize(v: real, p: real): (r: Outcome<real>)
    requires p > 0.0
    ensures r.Err? ==> r == Err(InvalidOperation)
    ensures r.Ok? ==> IsIntegral(Shifted(r.value, p))
  {
    var c := Trunc(v * p);
    if InContext(c) then
      DivThenScale(c as real, p);
      IntegralOfEqual(Shifted(c as real / p, p), c);
      Ok(c as real / p)
    else Err(InvalidOperation)
  }

  /** x with its point moved right by the scale p. Kept as a function of its
      own so that equal arguments give the same term to the solver. */
  function Shifted(x: real, p: real): real
  {
    x * p
  }

  /** x has at most d fractional digits. */
  predicate IsCanonical(x: real, d: nat)
  {
    IsIntegral(Shifted(x, Scale(d)))
  }

  // The proofs below are done once for an arbitrary scale p > 0 and then
  // instantiated with p = 10^d, which keeps each proof obligation small.

  lemma TruncBounds(s: real)
    ensures s >= 0.0 ==> 0 <= Trunc(s) && Trunc(s) as real <= s < Trunc(s) as real + 1.0
    ensures s < 0.0 ==> Trunc(s) <= 0 && Trunc(s) as real - 1.0 < s <= Trunc(s) as real
    ensures InContext(Trunc(s)) <==> Abs(s) < CoefficientLimit as real
  {
  }

  lemma TruncOfIntegral(s: real)
    requires IsIntegral(s)
    ensures Trunc(s) as real == s
  {
    if s < 0.0 {
      var n := s.Floor;
      assert -s == (-n) as real;
      assert (-s).Floor == -n;
    }
  }

  lemma ScaleFacts(a: real, b: real, p: real)
    requires p > 0.0
    ensures a * p < b * p <==> a < b
    ensures a * p <= b * p <==> a <= b
    ensures (a - b) * p == a * p - b * p
  {
  }

  lemma AbsScale(v: real, p: real)
    requires p > 0.0
    ensures Abs(v) * p == Abs(v * p)
  {
  }

  lemma DivThenScale(c: real, p: real)
    requires p > 0.0
    ensures (c / p) * p == c
  {
  }

  lemma ScaleThenDiv(x: real, p: real)
    requires p > 0.0
    ensures (x * p) / p == x
  {
  }

  /** quantize fails exactly when |v| * p reaches 10^28. */
  lemma QuantizeDefinedIff(v: real, p: real)
    requires p > 0.0
    ensures Quantize(v, p).Ok? <==> Abs(v) * p < CoefficientLimit as real
  {
    AbsScale(v, p);
    TruncBounds(v * p);
  }

  lemma BoundsOfCoefficient(v: real, p: real, c: int)
    requires p > 0.0
    requires v >= 0.0 ==> 0 <= c && c as real <= v * p < c as real + 1.0
    requires v < 0.0 ==> c <= 0 && c as real - 1.0 < v * p <= c as real
    ensures var r := c as real / p;
      (v >= 0.0 ==> 0.0 <= r <= v && v - r < 1.0 / p)
      && (v < 0.0 ==> v <= r <= 0.0 && r - v < 1.0 / p)
  {
    var r := c as real / p;
    DivThenScale(c as real, p);
    DivThenScale(1.0, p);
    ScaleFacts(v, r, p);
    ScaleFacts(r, v, p);
    ScaleFacts(v - r, 1.0 / p, p);
    ScaleFacts(r - v, 1.0 / p, p);
    ScaleFacts(0.0, r, p);
    ScaleFacts(r, 0.0, p);
    ScaleFacts(0.0, v, p);
  }

  /** ROUND_DOWN never moves away from zero and loses less than one step 1/p. */
  lemma QuantizeBounds(v: real, p: real)
    requires p > 0.0 && Quantize(v, p).Ok?
    ensures var r := Quantize(v, p).value;
      (v >= 0.0 ==> 0.0 <= r <= v && v - r < 1.0 / p)
      && (v < 0.0 ==> v <= r <= 0.0 && r - v < 1.0 / p)
  {
    var c := Trunc(v * p);
    TruncBounds(v * p);
    BoundsOfCoefficient(v, p, c);
    assert Quantize(v, p).value == c as real / p;
  }

  lemma IntegralOfEqual(x: real, c: int)
    requires x == c as real
    ensures IsIntegral(x)
  {
  }

  lemma FixedAt(x: real, p: real)
    requires p > 0.0 && IsIntegral(Shifted(x, p)) && Abs(x) * p < CoefficientLimit as real
    ensures Quantize(x, p) == Ok(x)
  {
    var c := Trunc(x * p);
    TruncOfIntegral(x * p);
    QuantizeDefinedIff(x, p);
    ScaleThenDiv(x, p);
    assert c as real / p == x;
    assert Quantize(x, p).value == c as real / p;
  }

  lemma AtLeastUnitAt(x: real, p: real)
    requires p > 0.0 && IsIntegral(Shifted(x, p)) && x > 0.0
    ensures x >= 1.0 / p
  {
    ScaleFacts(0.0, x, p);
    assert x * p >= 1.0;
    DivThenScale(1.0, p);
    ScaleFacts(1.0 / p, x, p);
  }

  /** A quantized value has at most d fractional digits. */
  lemma QuantizeCanonical(v: real, d: nat)
    requires Quantize(v, Scale(d)).Ok?
    ensures IsCanonical(Quantize(v, Scale(d)).value, d)
  {
  }

  /** A value with at most d fractional digits that fits the context is left as it is. */
  lemma QuantizeFixesCanonical(x: real, d: nat)
    requires IsCanonical(x, d)
    requires Abs(x) * Scale(d) < CoefficientLimit as real
    ensures Quantize(x, Scale(d)) == Ok(x)
  {
    FixedAt(x, Scale(d));
  }

  /** Quantizing twice gives the same result as quantizing once. */
  lemma QuantizeIdempotent(v: real, d: nat)
    requires Quantize(v, Scale(d)).Ok?
    ensures Quantize(Quantize(v, Scale(d)).value, Scale(d)) == Quantize(v, Scale(d))
  {
    var r := Quantize(v, Scale(d)).value;
    QuantizeBounds(v, Scale(d));
    QuantizeCanonical(v, d);
    QuantizeDefinedIff(v, Scale(d));
    assert Abs(r) <= Abs(v);
    ScaleFacts(Abs(r), Abs(v), Scale(d));
    QuantizeFixesCanonical(r, d);
  }

  /** A positive value with at most d fractional digits is at least 10^-d. */
  lemma CanonicalPositiveAtLeastUnit(x: real, d: nat)
    requires IsCanonical(x, d) && x > 0.0
    ensures x >= Unit(d)
  {
    AtLeastUnitAt(x, Scale(d));
  }
}
