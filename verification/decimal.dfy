/**
  Non-negative decimals coeff × 10^-places and the decimal quantize
  operation (clause 5.3.2 of IEEE 754-2008) under the rounding directions
  roundTowardNegative (Floor) and roundTiesToAway (HalfUp) of clause 4.3,
  as Python's Decimal.quantize performs them.
 */
module Decimal {
  import opened Wrappers
  import opened Digits
  import opened IntRounding

  /** A non-negative decimal: coeff units of the places-th decimal place. */
  datatype Dec = Dec(coeff: nat, places: nat)

  /** The two rounding policies the experiment compares. */
  datatype Rounding = Floor | HalfUp

  /** The condition quantize signals when its result does not fit the context. */
  datatype Signal = InvalidOperation

  function Abs(r: real): real {
    if r < 0.0 then -r else r
  }

  /** The exact value j × 10^-n of j units of the n-th decimal place. */
  function Scaled(j: int, n: nat): real {
    j as real / Pow10(n) as real
  }

  /** The exact rational value of a decimal. */
  function Value(x: Dec): real {
    Scaled(x.coeff, x.places)
  }

  // ---- arithmetic on values given in units of one decimal place ----

  lemma CancelFactor(j: int, a: nat, b: nat, c: nat)
    requires a >= 1 && b >= 1 && c == a * b
    ensures j as real / a as real == (j * b) as real / c as real
  {
    var s := j as real / a as real;
    assert s * a as real == j as real;
    assert (j * b) as real == j as real * b as real;
    assert c as real == a as real * b as real;
    assert s * c as real == (j * b) as real;
  }

  /** Writing a value with k more places multiplies its units by 10^k. */
  lemma ScaledShift(j: int, n: nat, k: nat)
    ensures Scaled(j, n) == Scaled(j * Pow10(k), n + k)
  {
    Pow10Add(n, k);
    CancelFactor(j, Pow10(n), Pow10(k), Pow10(n + k));
  }

  lemma ScaledOrder(a: int, b: int, n: nat)
    ensures Scaled(a, n) <= Scaled(b, n) <==> a <= b
    ensures Scaled(a, n) < Scaled(b, n) <==> a < b
  {
    var p := Pow10(n) as real;
    assert Scaled(a, n) * p == a as real;
    assert Scaled(b, n) * p == b as real;
  }

  lemma ScaledSub(a: int, b: int, n: nat)
    ensures Scaled(a, n) - Scaled(b, n) == Scaled(a - b, n)
  {
  }

  lemma ScaledDist(a: int, b: int, n: nat)
    ensures Abs(Scaled(a, n) - Scaled(b, n)) == Scaled(Dist(a, b), n)
  {
    ScaledSub(a, b, n);
    ScaledSub(b, a, n);
    ScaledOrder(a, b, n);
  }

  /** One unit of the n-th place, n times over, is one. */
  lemma ScaledOne(n: nat)
    ensures Scaled(Pow10(n), n) == 1.0
  {
    var a := Pow10(n) as real;
    assert a >= 1.0;
    assert a / a == 1.0;
  }

  lemma ScaledTwice(a: int, n: nat)
    ensures 2.0 * Scaled(a, n) == Scaled(2 * a, n)
  {
    ScaledSub(2 * a, a, n);
  }

  // ---- quantize ----

  /**
    The coefficient of x written with n places: exact zero padding when n
    is at least x.places, otherwise division by 10^(x.places - n) rounded
    by the given policy.
   */
  function Rescale(x: Dec, n: nat, mode: Rounding): nat {
    if n >= x.places then Pad(x.coeff, Pow10(n - x.places))
    else RoundDiv(x.coeff, Pow10(x.places - n), mode)
  }

  /** c followed by as many zeros as e has: c·e, a natural number. */
  function Pad(c: nat, e: nat): nat {
    MulLe(0, c, e);
    c * e
  }

  /** u / d rounded by the given policy. */
  function RoundDiv(u: nat, d: nat, mode: Rounding): nat
    requires d >= 1
  {
    match mode
    case Floor => u / d
    case HalfUp => HalfUpDiv(u, d)
  }

  /** x rounded to exactly n decimal places. */
  function Cut(x: Dec, n: nat, mode: Rounding): Dec {
    Dec(Rescale(x, n, mode), n)
  }

  /**
    x.quantize(template, rounding=mode) in a context of the given precision:
    the result takes the template's exponent, and the operation signals
    InvalidOperation when the result's coefficient does not fit the
    precision. What the test against 10^precision means is stated by
    QuantizeDigitLimit, and what the result is, by QuantizeRounds.
   */
  function Quantize(x: Dec, template: Dec, mode: Rounding, precision: nat): (r: Result<Dec, Signal>)
    ensures r.Success? <==> 1 <= precision && Rescale(x, template.places, mode) < Pow10(precision)
    ensures r.Success? ==> r.value.places == template.places
    ensures r.Success? ==> r.value == Cut(x, template.places, mode)
    ensures r.Failure? ==> r.error == InvalidOperation
  {
    var q := Rescale(x, template.places, mode);
    if precision == 0 || q >= Pow10(precision) then Failure(InvalidOperation)
    else Success(Dec(q, template.places))
  }

  /**
    The limit Quantize enforces is a digit count: it succeeds exactly when
    the result's coefficient has at most precision digits, and otherwise
    signals InvalidOperation.
   */
  lemma QuantizeDigitLimit(x: Dec, template: Dec, mode: Rounding, precision: nat)
    ensures Quantize(x, template, mode, precision).Success?
      <==> NumDigits(Rescale(x, template.places, mode)) <= precision
    ensures Quantize(x, template, mode, precision).Failure? ==>
      Quantize(x, template, mode, precision).error == InvalidOperation
  {
    NumDigitsWithin(Rescale(x, template.places, mode), precision);
  }

  /**
    What a successful quantize returns: under Floor the largest value with
    the template's places that is not above x, under HalfUp a value within
    half a unit of the last kept place of x.
   */
  lemma QuantizeRounds(x: Dec, template: Dec, mode: Rounding, precision: nat)
    requires Quantize(x, template, mode, precision).Success?
    ensures var v := Value(Quantize(x, template, mode, precision).value);
      mode == Floor ==> v <= Value(x) < v + Scaled(1, template.places)
    ensures var v := Value(Quantize(x, template, mode, precision).value);
      mode == HalfUp ==> 2.0 * Abs(Value(x) - v) <= Scaled(1, template.places)
  {
    FloorBounds(x, template.places);
    HalfUpWithinHalfUnit(x, template.places);
  }

  /**
    If x lies in [lo, hi) then its cut at any number of places lies in
    [lo, hi]: quantization cannot leave the unit interval it starts in, bar
    rounding up onto its upper end.
   */
  lemma RescaleBetween(x: Dec, n: nat, mode: Rounding, lo: nat, hi: nat)
    requires lo * Pow10(x.places) <= x.coeff < hi * Pow10(x.places)
    ensures lo * Pow10(n) <= Rescale(x, n, mode) <= hi * Pow10(n)
  {
    var P := Pow10(x.places);
    if n >= x.places {
      var e := Pow10(n - x.places);
      Pow10Add(x.places, n - x.places);
      ScaleBetween(x.coeff, P, e, lo, hi);
    } else {
      var d := Pow10(x.places - n);
      Pow10Add(n, x.places - n);
      DivideBetween(x.coeff, Pow10(n), d, lo, hi);
    }
  }

  lemma ScaleBetween(u: nat, p: nat, e: nat, lo: nat, hi: nat)
    requires lo * p <= u < hi * p
    ensures lo * (p * e) <= u * e <= hi * (p * e)
  {
    MulLe(lo * p, u, e);
    MulLe(u, hi * p, e);
    assert lo * (p * e) == (lo * p) * e;
    assert hi * (p * e) == (hi * p) * e;
  }

  lemma DivideBetween(u: nat, m: nat, d: nat, lo: nat, hi: nat)
    requires 0 < d && lo * (m * d) <= u < hi * (m * d)
    ensures lo * m <= u / d && u / d + 1 <= hi * m
    ensures lo * m <= HalfUpDiv(u, d) <= hi * m
  {
    assert (lo * m) * d == lo * (m * d);
    assert (hi * m) * d == hi * (m * d);
    FloorDivGreatest(u, d, lo * m);
    FloorDivGreatest(u, d, hi * m);
  }

  /** Quantizing to at least as many places as x has changes nothing but the representation. */
  lemma CutExact(x: Dec, n: nat, mode: Rounding)
    requires n >= x.places
    ensures Value(Cut(x, n, mode)) == Value(x)
  {
    ScaledShift(x.coeff, x.places, n - x.places);
  }

  /** Below x's own places, a cut at n places sits at units·10^(p-n) in the p-th place. */
  lemma CutValueAtSourcePlaces(x: Dec, n: nat, mode: Rounding)
    requires n < x.places
    ensures Value(Cut(x, n, mode)) == Scaled(Rescale(x, n, mode) * Pow10(x.places - n), x.places)
  {
    ScaledShift(Rescale(x, n, mode), n, x.places - n);
  }

  /**
    Floor quantization is one-sided: it never exceeds x and falls short of
    it by less than one unit of the n-th place.
   */
  lemma FloorBounds(x: Dec, n: nat)
    ensures Value(Cut(x, n, Floor)) <= Value(x) < Value(Cut(x, n, Floor)) + Scaled(1, n)
  {
    var t := Cut(x, n, Floor);
    ScaledOrder(0, 1, n);
    if n >= x.places {
      CutExact(x, n, Floor);
    } else {
      var k := x.places - n;
      var d := Pow10(k);
      var q := t.coeff;
      CutValueAtSourcePlaces(x, n, Floor);
      assert x.coeff == q * d + x.coeff % d;
      ScaledOrder(q * d, x.coeff, x.places);
      ScaledOrder(x.coeff, q * d + d, x.places);
      ScaledSub(q * d + d, q * d, x.places);
      ScaledShift(1, n, k);
    }
  }

  /**
    Floor quantization picks the greatest n-place value not above x: any
    multiple of 10^-n is at most x exactly when it is at most the floor.
   */
  lemma FloorGreatest(x: Dec, n: nat, j: int)
    ensures Scaled(j, n) <= Value(x) <==> Scaled(j, n) <= Value(Cut(x, n, Floor))
  {
    if n >= x.places {
      CutExact(x, n, Floor);
    } else {
      var k := x.places - n;
      var d := Pow10(k);
      var q := x.coeff / d;
      CutValueAtSourcePlaces(x, n, Floor);
      ScaledShift(j, n, k);
      ScaledOrder(j * d, x.coeff, x.places);
      ScaledOrder(j * d, q * d, x.places);
      FloorDivGreatest(x.coeff, d, j);
      MulLeIff(j, q, d);
    }
  }

  /** Half-up quantization is within half a unit of the n-th place of x. */
  lemma HalfUpWithinHalfUnit(x: Dec, n: nat)
    ensures 2.0 * Abs(Value(x) - Value(Cut(x, n, HalfUp))) <= Scaled(1, n)
  {
    ScaledOrder(0, 1, n);
    if n >= x.places {
      CutExact(x, n, HalfUp);
    } else {
      var k := x.places - n;
      var d := Pow10(k);
      var e := Dist(x.coeff, HalfUpDiv(x.coeff, d) * d);
      CutValueAtSourcePlaces(x, n, HalfUp);
      ScaledDist(x.coeff, HalfUpDiv(x.coeff, d) * d, x.places);
      ScaledTwice(e, x.places);
      HalfUpDivHalfStep(x.coeff, d);
      ScaledOrder(2 * e, d, x.places);
      ScaledShift(1, n, k);
    }
  }

  /**
    Half-up quantization is a nearest n-place value: no multiple of 10^-n is
    closer to x.
   */
  lemma HalfUpNearest(x: Dec, n: nat, j: int)
    ensures Abs(Value(x) - Value(Cut(x, n, HalfUp))) <= Abs(Value(x) - Scaled(j, n))
  {
    if n >= x.places {
      CutExact(x, n, HalfUp);
    } else {
      var k := x.places - n;
      var d := Pow10(k);
      var q := HalfUpDiv(x.coeff, d);
      CutValueAtSourcePlaces(x, n, HalfUp);
      ScaledShift(j, n, k);
      ScaledDist(x.coeff, q * d, x.places);
      ScaledDist(x.coeff, j * d, x.places);
      HalfUpDivNearest(x.coeff, d, j);
      ScaledOrder(Dist(x.coeff, q * d), Dist(x.coeff, j * d), x.places);
    }
  }

  /** The i-th digit after the decimal point of x (1 <= i <= x.places). */
  function DecimalDigit(x: Dec, i: nat): (d: nat)
    requires 1 <= i <= x.places
    ensures d < 10
  {
    DigitAt(x.coeff, x.places - i)
  }

  /**
    Half-up quantization to n < x.places places lands above x exactly when
    the (n+1)-th decimal digit of x is 5 or more; otherwise it is the floor.
   */
  lemma HalfUpAboveIff(x: Dec, n: nat)
    requires n < x.places
    ensures Value(Cut(x, n, HalfUp)) > Value(x) <==> DecimalDigit(x, n + 1) >= 5
    ensures Value(Cut(x, n, HalfUp)) <= Value(x) ==> Cut(x, n, HalfUp) == Cut(x, n, Floor)
  {
    var k := x.places - n;
    var d := Pow10(k);
    var q := HalfUpDiv(x.coeff, d);
    CutValueAtSourcePlaces(x, n, HalfUp);
    ScaledOrder(x.coeff, q * d, x.places);
    HalfUpDivAbove(x.coeff, d);
    HalfOfPlace(x.coeff, k);
  }

  /** Half-up quantization is never farther from x than floor quantization. */
  lemma HalfUpNoWorseThanFloor(x: Dec, n: nat)
    ensures Abs(Value(x) - Value(Cut(x, n, HalfUp))) <= Abs(Value(x) - Value(Cut(x, n, Floor)))
  {
    HalfUpNearest(x, n, Cut(x, n, Floor).coeff);
  }

  /**
    Half-up quantization to n < x.places places is strictly closer to x
    than floor quantization exactly when what is discarded exceeds half a
    unit of the n-th place.
   */
  lemma HalfUpStrictlyBetterIff(x: Dec, n: nat)
    requires n < x.places
    ensures Abs(Value(x) - Value(Cut(x, n, HalfUp))) < Abs(Value(x) - Value(Cut(x, n, Floor)))
        <==> 2 * (x.coeff % Pow10(x.places - n)) > Pow10(x.places - n)
  {
    var d := Pow10(x.places - n);
    var r, t := HalfUpDiv(x.coeff, d), x.coeff / d;
    CutValueAtSourcePlaces(x, n, HalfUp);
    CutValueAtSourcePlaces(x, n, Floor);
    ScaledDist(x.coeff, r * d, x.places);
    ScaledDist(x.coeff, t * d, x.places);
    ScaledOrder(Dist(x.coeff, r * d), Dist(x.coeff, t * d), x.places);
    HalfUpDivStrictlyCloser(x.coeff, d);
  }

  /** More places never move the floor down: its error shrinks as n grows. */
  lemma FloorMonotone(x: Dec, n1: nat, n2: nat)
    requires n1 <= n2
    ensures Value(Cut(x, n1, Floor)) <= Value(Cut(x, n2, Floor)) <= Value(x)
  {
    var t1 := Cut(x, n1, Floor);
    FloorBounds(x, n1);
    FloorBounds(x, n2);
    ScaledShift(t1.coeff, n1, n2 - n1);
    FloorGreatest(x, n2, t1.coeff * Pow10(n2 - n1));
  }

  /** More places never make half-up quantization farther from x. */
  lemma HalfUpMonotone(x: Dec, n1: nat, n2: nat)
    requires n1 <= n2
    ensures Abs(Value(x) - Value(Cut(x, n2, HalfUp))) <= Abs(Value(x) - Value(Cut(x, n1, HalfUp)))
  {
    var r1 := Cut(x, n1, HalfUp);
    ScaledShift(r1.coeff, n1, n2 - n1);
    HalfUpNearest(x, n2, r1.coeff * Pow10(n2 - n1));
  }
}
