/**
  The pendulum timing experiment: pi is cut to n decimal places by floor
  and by half-up quantization, each cut is turned into a pendulum period
  2·pi·sqrt(L/g), and the absolute difference from the period computed
  with the 100-place reference pi is measured. The driver does this for
  the precisions 20, 40, 60 and 100.
 */
module Pendulum {
  import opened Wrappers
  import opened Digits
  import opened IntRounding
  import opened Decimal

  /** The 101 digits of the reference value of pi, 3.1415…0679. */
  const PiCoeff: nat := 31415926535897932384626433832795028841971693993751058209749445923078164062862089986280348253421170679

  /** The reference pi: 100 decimal places. */
  const PiTrue: Dec := Dec(PiCoeff, 100)

  /** Significant digits carried by the decimal context. */
  const ContextPrecision: nat := 150

  /** The precisions the experiment evaluates, in order. */
  const ProgramPrecisions: seq<int> := [20, 40, 60, 100]

  const TenToTen: nat := 10000000000

  /**
    Decimal('1.' + '0' * n): the value one written with n places. Repeating
    a string a negative number of times gives the empty string, so a
    negative n yields "1." with no places.
   */
  function Template(n: int): (t: Dec)
    ensures Value(t) == 1.0
    ensures n >= 0 ==> t.places == n
    ensures n < 0 ==> t.places == 0
  {
    var p: nat := if n > 0 then n else 0;
    ScaledOne(p);
    Dec(Pow10(p), p)
  }

  /** The two absolute timing errors, of the floor cut and of the half-up cut. */
  datatype ErrorPair = ErrorPair(truncErr: real, roundErr: real)

  /** The period 2·pi·factor, where factor stands for sqrt(L/g). */
  function Period(pi: real, factor: real): real {
    2.0 * pi * factor
  }

  /**
    get_time_error: the timing errors of pi cut to n places by floor and by
    half-up quantization, for the shared factor sqrt(L/g). Quantization
    signals InvalidOperation when the cut needs more digits than the
    context holds.
   */
  function TimeErrors(n: int, factor: real): (r: Result<ErrorPair, Signal>)
    ensures r.Success? ==> 0.0 <= r.value.truncErr && 0.0 <= r.value.roundErr
  {
    var fmt := Template(n);
    var piTrunc :- Quantize(PiTrue, fmt, Floor, ContextPrecision);
    var piRound :- Quantize(PiTrue, fmt, HalfUp, ContextPrecision);
    Success(PeriodErrors(Value(PiTrue), Value(piTrunc), Value(piRound), factor))
  }

  /**
    The absolute differences between the period computed with the
    reference pi and the periods computed with the two cuts of it.
   */
  function PeriodErrors(reference: real, piTrunc: real, piRound: real, factor: real): ErrorPair {
    var timeTrue := Period(reference, factor);
    var timeTrunc := Period(piTrunc, factor);
    var timeRound := Period(piRound, factor);
    ErrorPair(Abs(timeTrue - timeTrunc), Abs(timeTrue - timeRound))
  }

  /** The two errors of cutting a reference x at p places, for the shared factor. */
  function CutErrors(x: Dec, p: nat, factor: real): ErrorPair {
    PeriodErrors(Value(x), Value(Cut(x, p, Floor)), Value(Cut(x, p, HalfUp)), factor)
  }

  // ---- real-number helpers ----

  /** The period difference is the pi difference scaled by 2·|factor|. */
  lemma PeriodDifference(a: real, b: real, c: real)
    ensures Abs(2.0 * a * c - 2.0 * b * c) == 2.0 * Abs(c) * Abs(a - b)
  {
    var d := a - b;
    assert 2.0 * a * c - 2.0 * b * c == 2.0 * (c * d);
    AbsOfProduct(c, d);
    assert Abs(2.0 * (c * d)) == 2.0 * Abs(c * d);
  }

  /** |c·d| == |c|·|d|, by the signs of the two factors. */
  lemma AbsOfProduct(c: real, d: real)
    ensures Abs(c * d) == Abs(c) * Abs(d)
  {
    if c >= 0.0 && d >= 0.0 {
      ProductSign(c, d);
    } else if c >= 0.0 {
      ProductSign(c, -d);
      assert c * d == -(c * -d);
    } else if d >= 0.0 {
      ProductSign(-c, d);
      assert c * d == -(-c * d);
    } else {
      ProductSign(-c, -d);
      assert c * d == -c * -d;
    }
  }

  lemma ProductSign(c: real, d: real)
    requires 0.0 <= c && 0.0 <= d
    ensures 0.0 <= c * d
  {
  }

  lemma ScaleLe(c: real, a: real, b: real)
    requires 0.0 <= c && a <= b
    ensures c * a <= c * b
  {
    assert c * b - c * a == c * (b - a);
  }

  lemma ScaleLt(c: real, a: real, b: real)
    requires 0.0 < c && a < b
    ensures c * a < c * b
  {
    assert c * b - c * a == c * (b - a);
  }

  // ---- the reference value ----

  lemma PowersOfTen()
    ensures Pow10(40) == TenToTen * TenToTen * TenToTen * TenToTen
    ensures Pow10(60) == Pow10(40) * TenToTen * TenToTen
    ensures Pow10(79) == Pow10(60) * TenToTen * 1000000000
    ensures Pow10(80) == Pow10(60) * TenToTen * TenToTen
    ensures Pow10(96) == Pow10(80) * TenToTen * 1000000
    ensures Pow10(100) == Pow10(80) * TenToTen * TenToTen
  {
    assert Pow10(10) == TenToTen;
    assert Pow10(9) == 1000000000;
    assert Pow10(6) == 1000000;
    Pow10Add(10, 10);
    Pow10Add(20, 10);
    Pow10Add(30, 10);
    Pow10Add(40, 10);
    Pow10Add(50, 10);
    Pow10Add(60, 10);
    Pow10Add(70, 9);
    Pow10Add(70, 10);
    Pow10Add(80, 10);
    Pow10Add(90, 6);
    Pow10Add(90, 10);
  }

  /** The reference pi lies between 3 and 4. */
  lemma PiTrueBetweenThreeAndFour()
    ensures 3 * Pow10(100) <= PiCoeff < 4 * Pow10(100)
  {
    PowersOfTen();
  }

  /** Whatever the places and policy, the value of the cut lies in [3, 4]. */
  lemma PiCutBounds(p: nat, mode: Rounding)
    ensures 3 * Pow10(p) <= Rescale(PiTrue, p, mode) <= 4 * Pow10(p)
  {
    PiTrueBetweenThreeAndFour();
    RescaleBetween(PiTrue, p, mode, 3, 4);
  }

  // ---- get_time_error ----

  /**
    get_time_error succeeds exactly for the n below the context precision,
    and then returns the errors of the floor and half-up cuts of pi at the
    template's places.
   */
  lemma TimeErrorsClosedForm(n: int, factor: real)
    ensures TimeErrors(n, factor) ==
      if n < ContextPrecision then Success(CutErrors(PiTrue, Template(n).places, factor))
      else Failure(InvalidOperation)
  {
    QuantizePi(n, Floor);
    QuantizePi(n, HalfUp);
  }

  /** Quantizing pi with the template for n fits the context exactly for n below its precision. */
  lemma QuantizePi(n: int, mode: Rounding)
    ensures Quantize(PiTrue, Template(n), mode, ContextPrecision) ==
      if n < ContextPrecision then Success(Cut(PiTrue, Template(n).places, mode))
      else Failure(InvalidOperation)
  {
    var p := Template(n).places;
    PiCutBounds(p, mode);
    FitsIff(Rescale(PiTrue, p, mode), p, ContextPrecision);
  }

  /** A coefficient of p places whose value lies in [3, 4] has p + 1 digits, so it fits c digits exactly when p < c. */
  lemma FitsIff(q: nat, p: nat, c: nat)
    requires 3 * Pow10(p) <= q <= 4 * Pow10(p)
    ensures q < Pow10(c) <==> p < c
  {
    if p < c {
      Pow10Monotone(p + 1, c);
    } else {
      Pow10Monotone(c, p);
    }
  }

  /**
    For 0 <= n below the context precision, the truncation error is at most
    2·|factor|·10^-n and the rounding error at most |factor|·10^-n.
   */
  lemma TimeErrorBounds(n: int, factor: real)
    requires 0 <= n < ContextPrecision
    ensures TimeErrors(n, factor).Success?
    ensures TimeErrors(n, factor).value.truncErr <= 2.0 * Abs(factor) * Scaled(1, n)
    ensures TimeErrors(n, factor).value.roundErr <= Abs(factor) * Scaled(1, n)
  {
    TimeErrorsClosedForm(n, factor);
    CutErrorsBounds(PiTrue, n, factor);
  }

  /** Rounding is never worse than truncation, whatever n and factor. */
  lemma RoundingNeverWorse(n: int, factor: real)
    requires n < ContextPrecision
    ensures TimeErrors(n, factor).Success?
    ensures TimeErrors(n, factor).value.roundErr <= TimeErrors(n, factor).value.truncErr
  {
    TimeErrorsClosedForm(n, factor);
    CutErrorsRoundingNeverWorse(PiTrue, Template(n).places, factor);
  }

  /** Asking for more decimals never increases either error. */
  lemma ErrorsNonIncreasing(n1: int, n2: int, factor: real)
    requires n1 <= n2 < ContextPrecision
    ensures TimeErrors(n1, factor).Success? && TimeErrors(n2, factor).Success?
    ensures TimeErrors(n2, factor).value.truncErr <= TimeErrors(n1, factor).value.truncErr
    ensures TimeErrors(n2, factor).value.roundErr <= TimeErrors(n1, factor).value.roundErr
  {
    TimeErrorsClosedForm(n1, factor);
    TimeErrorsClosedForm(n2, factor);
    CutErrorsNonIncreasing(PiTrue, Template(n1).places, Template(n2).places, factor);
  }

  // ---- the errors of cutting any reference value ----

  /**
    Each error is 2·|factor| times the distance between the reference and
    that policy's value of pi.
   */
  lemma PeriodErrorsScaled(a: real, vt: real, vr: real, factor: real)
    ensures PeriodErrors(a, vt, vr, factor) == ErrorPair(
      2.0 * Abs(factor) * Abs(a - vt), 2.0 * Abs(factor) * Abs(a - vr))
  {
    PeriodDifference(a, vt, factor);
    PeriodDifference(a, vr, factor);
  }

  /**
    The truncation error is at most 2·|factor|·10^-p and the rounding error
    at most half of that.
   */
  lemma CutErrorsBounds(x: Dec, p: nat, factor: real)
    ensures CutErrors(x, p, factor).truncErr <= 2.0 * Abs(factor) * Scaled(1, p)
    ensures CutErrors(x, p, factor).roundErr <= Abs(factor) * Scaled(1, p)
  {
    FloorBounds(x, p);
    HalfUpWithinHalfUnit(x, p);
    PeriodErrorsBounded(Value(x), Value(Cut(x, p, Floor)), Value(Cut(x, p, HalfUp)), factor, Scaled(1, p));
  }

  lemma PeriodErrorsBounded(a: real, vt: real, vr: real, factor: real, unit: real)
    requires vt <= a < vt + unit && 2.0 * Abs(a - vr) <= unit
    ensures PeriodErrors(a, vt, vr, factor).truncErr <= 2.0 * Abs(factor) * unit
    ensures PeriodErrors(a, vt, vr, factor).roundErr <= Abs(factor) * unit
  {
    PeriodErrorsScaled(a, vt, vr, factor);
    ScaleLe(2.0 * Abs(factor), Abs(a - vt), unit);
    ScaleLe(Abs(factor), 2.0 * Abs(a - vr), unit);
  }

  /** Rounding is never worse than truncation: the gap t_err - r_err is never negative. */
  lemma CutErrorsRoundingNeverWorse(x: Dec, p: nat, factor: real)
    ensures CutErrors(x, p, factor).roundErr <= CutErrors(x, p, factor).truncErr
  {
    HalfUpNoWorseThanFloor(x, p);
    PeriodErrorsOrdered(Value(x), Value(Cut(x, p, Floor)), Value(Cut(x, p, HalfUp)), factor);
  }

  lemma PeriodErrorsOrdered(a: real, vt: real, vr: real, factor: real)
    requires Abs(a - vr) <= Abs(a - vt)
    ensures PeriodErrors(a, vt, vr, factor).roundErr <= PeriodErrors(a, vt, vr, factor).truncErr
  {
    PeriodErrorsScaled(a, vt, vr, factor);
    ScaleLe(2.0 * Abs(factor), Abs(a - vr), Abs(a - vt));
  }

  /** Cutting at more places never increases either error. */
  lemma CutErrorsNonIncreasing(x: Dec, p1: nat, p2: nat, factor: real)
    requires p1 <= p2
    ensures CutErrors(x, p2, factor).truncErr <= CutErrors(x, p1, factor).truncErr
    ensures CutErrors(x, p2, factor).roundErr <= CutErrors(x, p1, factor).roundErr
  {
    FloorMonotone(x, p1, p2);
    HalfUpMonotone(x, p1, p2);
    PeriodErrorsCompared(Value(x), Value(Cut(x, p1, Floor)), Value(Cut(x, p1, HalfUp)),
      Value(Cut(x, p2, Floor)), Value(Cut(x, p2, HalfUp)), factor);
  }

  lemma PeriodErrorsCompared(a: real, vt1: real, vr1: real, vt2: real, vr2: real, factor: real)
    requires vt1 <= vt2 <= a && Abs(a - vr2) <= Abs(a - vr1)
    ensures PeriodErrors(a, vt2, vr2, factor).truncErr <= PeriodErrors(a, vt1, vr1, factor).truncErr
    ensures PeriodErrors(a, vt2, vr2, factor).roundErr <= PeriodErrors(a, vt1, vr1, factor).roundErr
  {
    PeriodErrorsScaled(a, vt1, vr1, factor);
    PeriodErrorsScaled(a, vt2, vr2, factor);
    ScaleLe(2.0 * Abs(factor), Abs(a - vt2), Abs(a - vt1));
    ScaleLe(2.0 * Abs(factor), Abs(a - vr2), Abs(a - vr1));
  }

  /** Cutting at x's own places or more leaves nothing to measure. */
  lemma CutErrorsVanish(x: Dec, p: nat, factor: real)
    requires x.places <= p
    ensures CutErrors(x, p, factor) == ErrorPair(0.0, 0.0)
  {
    CutExact(x, p, Floor);
    CutExact(x, p, HalfUp);
    PeriodErrorsScaled(Value(x), Value(x), Value(x), factor);
  }

  /**
    Rounding is strictly better than truncation at p < x.places places, for
    a non-zero factor, when what is discarded exceeds half a unit of the
    p-th place.
   */
  lemma CutErrorsRoundingStrictlyBetter(x: Dec, p: nat, factor: real)
    requires p < x.places && factor != 0.0
    requires 2 * (x.coeff % Pow10(x.places - p)) > Pow10(x.places - p)
    ensures CutErrors(x, p, factor).roundErr < CutErrors(x, p, factor).truncErr
  {
    HalfUpStrictlyBetterIff(x, p);
    PeriodErrorsStrictlyOrdered(Value(x), Value(Cut(x, p, Floor)), Value(Cut(x, p, HalfUp)), factor);
  }

  lemma PeriodErrorsStrictlyOrdered(a: real, vt: real, vr: real, factor: real)
    requires factor != 0.0 && Abs(a - vr) < Abs(a - vt)
    ensures PeriodErrors(a, vt, vr, factor).roundErr < PeriodErrors(a, vt, vr, factor).truncErr
  {
    PeriodErrorsScaled(a, vt, vr, factor);
    ScaleLt(2.0 * Abs(factor), Abs(a - vr), Abs(a - vt));
  }

  // ---- facts about the reference pi ----

  /**
    At 100 places both quantizations return the reference pi itself, and
    from there up to the context's limit both errors are exactly zero.
   */
  lemma FullPrecisionExact(n: int, factor: real)
    requires 100 <= n < ContextPrecision
    ensures Quantize(PiTrue, Template(100), Floor, ContextPrecision) == Success(PiTrue)
    ensures Quantize(PiTrue, Template(100), HalfUp, ContextPrecision) == Success(PiTrue)
    ensures TimeErrors(n, factor) == Success(ErrorPair(0.0, 0.0))
  {
    TimeErrorsClosedForm(100, factor);
    TimeErrorsClosedForm(n, factor);
    CutErrorsVanish(PiTrue, n, factor);
  }

  /** At four places truncation gives 3.1415 and rounding gives 3.1416. */
  lemma FourPlacesExample()
    ensures Quantize(PiTrue, Template(4), Floor, ContextPrecision) == Success(Dec(31415, 4))
    ensures Quantize(PiTrue, Template(4), HalfUp, ContextPrecision) == Success(Dec(31416, 4))
  {
    FourPlacesCoefficients();
    Pow10Monotone(5, ContextPrecision);
    assert Pow10(5) == 100000;
  }

  lemma FourPlacesCoefficients()
    ensures Rescale(PiTrue, 4, Floor) == 31415
    ensures Rescale(PiTrue, 4, HalfUp) == 31416
  {
    PowersOfTen();
    var d := Pow10(96);
    assert d == 1000000000000000000000000000000000000000000000000000000000000000000000000000000000000000000000000;
    assert PiCoeff / d == 31415;
    assert 2 * (PiCoeff % d) >= d;
  }

  /**
    The digits following the program's first three cut points: the 21st
    decimal of the reference pi is 2, so at 20 places rounding equals
    truncation; what is discarded at 40 and 60 places exceeds half a unit,
    so there rounding is strictly better for any non-zero factor.
   */
  lemma ProgramCutPoints(factor: real)
    ensures DecimalDigit(PiTrue, 21) == 2
    ensures CutErrors(PiTrue, 20, factor).roundErr == CutErrors(PiTrue, 20, factor).truncErr
    ensures factor != 0.0 ==> CutErrors(PiTrue, 40, factor).roundErr < CutErrors(PiTrue, 40, factor).truncErr
    ensures factor != 0.0 ==> CutErrors(PiTrue, 60, factor).roundErr < CutErrors(PiTrue, 60, factor).truncErr
  {
    TwentyFirstDigit();
    HalfUpAboveIff(PiTrue, 20);
    if factor != 0.0 {
      DiscardedAtFortyAndSixty();
      CutErrorsRoundingStrictlyBetter(PiTrue, 40, factor);
      CutErrorsRoundingStrictlyBetter(PiTrue, 60, factor);
    }
  }

  lemma TwentyFirstDigit()
    ensures DecimalDigit(PiTrue, 21) == 2
  {
    PowersOfTen();
    var d := Pow10(79);
    assert d == 10000000000000000000000000000000000000000000000000000000000000000000000000000000;
    assert (PiCoeff / d) % 10 == 2;
  }

  lemma DiscardedAtFortyAndSixty()
    ensures 2 * (PiCoeff % Pow10(60)) > Pow10(60)
    ensures 2 * (PiCoeff % Pow10(40)) > Pow10(40)
  {
    PowersOfTen();
    var d40, d60 := Pow10(40), Pow10(60);
    assert d40 == 10000000000000000000000000000000000000000;
    assert d60 == 1000000000000000000000000000000000000000000000000000000000000;
    assert 2 * (PiCoeff % d60) > d60;
    assert 2 * (PiCoeff % d40) > d40;
  }

  // ---- the experiment ----

  /**
    The driver's two result lists and the GAP column it prints: one entry
    per requested precision, in order.
   */
  datatype Experiment = Experiment(truncResults: seq<real>, roundResults: seq<real>, gaps: seq<real>) {
    function Append(row: ErrorPair): Experiment {
      Experiment(truncResults + [row.truncErr], roundResults + [row.roundErr], gaps + [row.truncErr - row.roundErr])
    }
  }

  /**
    e holds, row by row, what get_time_error returns for each precision,
    and each row's gap is its truncation error minus its rounding error.
   */
  predicate Tabulates(e: Experiment, precisions: seq<int>, factor: real) {
    && |e.truncResults| == |precisions|
    && |e.roundResults| == |precisions|
    && |e.gaps| == |precisions|
    && forall i :: 0 <= i < |precisions| ==>
         && TimeErrors(precisions[i], factor) == Success(ErrorPair(e.truncResults[i], e.roundResults[i]))
         && e.gaps[i] == e.truncResults[i] - e.roundResults[i]
  }

  /**
    The driver loop: get_time_error for each precision in turn, appending
    both errors to their columns and the gap to the column the program
    prints. The first precision the context cannot hold aborts the run with
    InvalidOperation.
   */
  method RunExperiment(precisions: seq<int>, factor: real) returns (r: Result<Experiment, Signal>)
    ensures r.Success? <==> forall i :: 0 <= i < |precisions| ==> precisions[i] < ContextPrecision
    ensures r.Success? ==> Tabulates(r.value, precisions, factor)
    ensures r.Failure? ==> r.error == InvalidOperation
  {
    var e := Experiment([], [], []);
    var i := 0;
    while i < |precisions|
      invariant 0 <= i <= |precisions|
      invariant Tabulates(e, precisions[..i], factor)
    {
      var errors := TimeErrors(precisions[i], factor);
      TimeErrorsSucceedIff(precisions[i], factor);
      if errors.Failure? {
        assert !(precisions[i] < ContextPrecision);
        return Failure(errors.error);
      }
      TabulatesExtend(e, precisions, factor, i, errors.value);
      e := e.Append(errors.value);
      i := i + 1;
    }
    assert precisions[..i] == precisions;
    TabulatedFit(e, precisions, factor);
    r := Success(e);
  }

  /** Every precision of a tabulated run fits the context. */
  lemma TabulatedFit(e: Experiment, precisions: seq<int>, factor: real)
    requires Tabulates(e, precisions, factor)
    ensures forall i :: 0 <= i < |precisions| ==> precisions[i] < ContextPrecision
  {
    forall i | 0 <= i < |precisions|
      ensures precisions[i] < ContextPrecision
    {
      TimeErrorsSucceedIff(precisions[i], factor);
    }
  }

  /** get_time_error fails, always with InvalidOperation, exactly at n >= the context precision. */
  lemma TimeErrorsSucceedIff(n: int, factor: real)
    ensures TimeErrors(n, factor).Success? <==> n < ContextPrecision
    ensures TimeErrors(n, factor).Failure? ==> TimeErrors(n, factor).error == InvalidOperation
  {
    TimeErrorsClosedForm(n, factor);
  }

  /** Appending the row of get_time_error results for the next precision keeps a table faithful. */
  lemma TabulatesExtend(e: Experiment, precisions: seq<int>, factor: real, i: nat, row: ErrorPair)
    requires i < |precisions|
    requires Tabulates(e, precisions[..i], factor)
    requires TimeErrors(precisions[i], factor) == Success(row)
    ensures Tabulates(e.Append(row), precisions[..i + 1], factor)
  {
    assert precisions[..i + 1] == precisions[..i] + [precisions[i]];
  }

  /**
    In any tabulated run every gap is non-negative, and a row with more
    decimals never has a larger error than a row with fewer.
   */
  lemma ExperimentOrdering(e: Experiment, precisions: seq<int>, factor: real)
    requires Tabulates(e, precisions, factor)
    ensures forall i :: 0 <= i < |e.gaps| ==> 0.0 <= e.gaps[i]
    ensures forall i, j :: 0 <= i < |precisions| && 0 <= j < |precisions| && precisions[i] <= precisions[j] ==>
      e.truncResults[j] <= e.truncResults[i] && e.roundResults[j] <= e.roundResults[i]
  {
    forall i | 0 <= i < |e.gaps|
      ensures 0.0 <= e.gaps[i]
    {
      TimeErrorsClosedForm(precisions[i], factor);
      RoundingNeverWorse(precisions[i], factor);
    }
    forall i, j | 0 <= i < |precisions| && 0 <= j < |precisions| && precisions[i] <= precisions[j]
      ensures e.truncResults[j] <= e.truncResults[i] && e.roundResults[j] <= e.roundResults[i]
    {
      TimeErrorsClosedForm(precisions[j], factor);
      ErrorsNonIncreasing(precisions[i], precisions[j], factor);
    }
  }

  /**
    The program's run over 20, 40, 60 and 100 decimals: the errors fall
    row by row; the gap at 20 decimals is zero; for a non-zero factor the
    gaps at 40 and 60 are positive; and at 100 decimals both errors vanish.
   */
  lemma ProgramExperiment(e: Experiment, factor: real)
    requires Tabulates(e, ProgramPrecisions, factor)
    ensures forall i :: 0 < i < 4 ==> e.truncResults[i] <= e.truncResults[i - 1]
    ensures forall i :: 0 < i < 4 ==> e.roundResults[i] <= e.roundResults[i - 1]
    ensures e.gaps[0] == 0.0
    ensures factor != 0.0 ==> 0.0 < e.gaps[1] && 0.0 < e.gaps[2]
    ensures e.truncResults[3] == 0.0 && e.roundResults[3] == 0.0 && e.gaps[3] == 0.0
  {
    ProgramErrorsFall(e, factor);
    ProgramGaps(e, factor);
    ProgramLastRow(e, factor);
  }

  /** Both error columns of the run over 20, 40, 60 and 100 decimals fall row by row. */
  lemma ProgramErrorsFall(e: Experiment, factor: real)
    requires Tabulates(e, ProgramPrecisions, factor)
    ensures forall i :: 0 < i < 4 ==> e.truncResults[i] <= e.truncResults[i - 1]
    ensures forall i :: 0 < i < 4 ==> e.roundResults[i] <= e.roundResults[i - 1]
  {
    ExperimentOrdering(e, ProgramPrecisions, factor);
    forall i | 0 < i < 4
      ensures e.truncResults[i] <= e.truncResults[i - 1] && e.roundResults[i] <= e.roundResults[i - 1]
    {
      assert ProgramPrecisions[i - 1] <= ProgramPrecisions[i];
    }
  }

  /** The gap is zero at 20 decimals and, for a non-zero factor, positive at 40 and 60. */
  lemma ProgramGaps(e: Experiment, factor: real)
    requires Tabulates(e, ProgramPrecisions, factor)
    ensures e.gaps[0] == 0.0
    ensures factor != 0.0 ==> 0.0 < e.gaps[1] && 0.0 < e.gaps[2]
  {
    TabulatedRow(e, ProgramPrecisions, factor, 0);
    TabulatedRow(e, ProgramPrecisions, factor, 1);
    TabulatedRow(e, ProgramPrecisions, factor, 2);
    ProgramCutPoints(factor);
  }

  /** At 100 decimals both errors and the gap are zero. */
  lemma ProgramLastRow(e: Experiment, factor: real)
    requires Tabulates(e, ProgramPrecisions, factor)
    ensures e.truncResults[3] == 0.0 && e.roundResults[3] == 0.0 && e.gaps[3] == 0.0
  {
    TabulatedRow(e, ProgramPrecisions, factor, 3);
    CutErrorsVanish(PiTrue, 100, factor);
  }

  /** Row i of a tabulated run holds the errors of cutting pi at that row's places. */
  lemma TabulatedRow(e: Experiment, precisions: seq<int>, factor: real, i: nat)
    requires Tabulates(e, precisions, factor)
    requires i < |precisions|
    ensures precisions[i] < ContextPrecision
    ensures ErrorPair(e.truncResults[i], e.roundResults[i]) == CutErrors(PiTrue, Template(precisions[i]).places, factor)
    ensures e.gaps[i] == e.truncResults[i] - e.roundResults[i]
  {
    TimeErrorsClosedForm(precisions[i], factor);
  }

  /**
    The program's own run: all four precisions fit the context, so the loop
    completes with one row each, and the table shows what ProgramExperiment
    proves about it.
   */
  method RunProgramExperiment(factor: real) returns (e: Experiment)
    ensures Tabulates(e, ProgramPrecisions, factor)
    ensures e.gaps[0] == 0.0
    ensures factor != 0.0 ==> 0.0 < e.gaps[1] && 0.0 < e.gaps[2]
    ensures e.truncResults[3] == 0.0 && e.roundResults[3] == 0.0
  {
    var r := RunExperiment(ProgramPrecisions, factor);
    assert forall i :: 0 <= i < |ProgramPrecisions| ==> ProgramPrecisions[i] < ContextPrecision;
    e := r.value;
    ProgramExperiment(e, factor);
  }
}
