# Pendulum pi-precision experiment, modelled in Dafny

The program measures how many decimals of pi a pendulum-period formula
needs. `PI_TRUE` is a 100-place decimal constant. `get_time_error(n)` cuts
it to `n` places twice, once with `ROUND_FLOOR` and once with
`ROUND_HALF_UP`, using `Decimal.quantize` in a context of 150 significant
digits. It then computes the period `2·pi·sqrt(L/g)` with the reference
value and with each cut, and returns the two absolute differences. The
driver loop calls it for 20, 40, 60 and 100 places. It appends the two
errors to two result lists (lines 51-52). It also computes the gap,
truncation error minus rounding error, and prints it as the table's GAP
column (lines 55 and 58). The model's `Experiment` keeps three columns:
`truncResults` and `roundResults` are the two lists, and `gaps` stands for
the printed GAP column.

The model has five modules:

- `Wrappers`: a `Result` type, so a signalled `InvalidOperation` is a
  value rather than an exception.
- `Digits`: powers of ten, the decimal digit count of a natural number,
  and single digits.
- `IntRounding`: floor and half-up integer division, and their
  nearest-multiple properties.
- `Decimal`: non-negative decimals `Dec(coeff, places)` with value
  `coeff / 10^places`. It has one `Quantize` operation taking a rounding
  policy (`Floor` or `HalfUp`) and a context precision. `Quantize` pads
  with zeros when asked for more places than the operand has. It signals
  `InvalidOperation` when the result coefficient would have more digits
  than the precision.
- `Pendulum`: the reference constant, the format template, `TimeErrors`
  (get_time_error), the driver loop `RunExperiment`, and the properties
  of their results.

Factor: the shared factor `sqrt(L/g)` is a real parameter `factor`, so
every property holds for any length and gravity. Because each error is
`2·|factor|·|pi_ref − pi_cut|`, the properties about the cuts carry over
to the timing errors unchanged.

## Model

| member | source | states |
|---|---|---|
| `Pendulum.Template` | lab1_test.py.py:21 | `Decimal('1.' + '0'*n)` has value one and exactly n places; a negative n repeats the string zero times and gives 0 places |
| `Decimal.QuantizeDigitLimit` | lab1_test.py.py:6-25 | quantize in a context of `precision` digits succeeds exactly when the result's coefficient has at most `precision` digits, and every failure is InvalidOperation |
| `Decimal.QuantizeRounds` | lab1_test.py.py:24-25 | a successful quantize with ROUND_FLOOR lies at or below x and less than one unit of the template's last place below it; with ROUND_HALF_UP it lies within half such a unit of x |
| `Decimal.CutExact` | lab1_test.py.py:24-25 | asking for at least as many places as x has (zero padding) changes nothing, under either policy |
| `Decimal.FloorBounds` | lab1_test.py.py:24 | the floor cut lies at or below x and less than one unit of the last kept place below it |
| `Decimal.FloorGreatest` | lab1_test.py.py:24 | the floor cut is the greatest n-place value not above x, in both directions |
| `Decimal.FloorMonotone` | lab1_test.py.py:24 | more places give a floor cut that is no smaller and still not above x |
| `Decimal.HalfUpWithinHalfUnit` | lab1_test.py.py:25 | the half-up cut is within half a unit of the last kept place of x |
| `Decimal.HalfUpNearest` | lab1_test.py.py:25 | no n-place value is closer to x than the half-up cut |
| `Decimal.HalfUpAboveIff` | lab1_test.py.py:25 | half-up lands above x exactly when the first discarded digit is 5 or more; otherwise it equals the floor cut |
| `Decimal.HalfUpNoWorseThanFloor` | lab1_test.py.py:24-25 | the half-up cut is never farther from x than the floor cut |
| `Decimal.HalfUpStrictlyBetterIff` | lab1_test.py.py:24-25 | half-up is strictly closer than floor exactly when the discarded part exceeds half a unit |
| `Decimal.HalfUpMonotone` | lab1_test.py.py:25 | more places never move the half-up cut farther from x |
| `Decimal.RescaleBetween` | lab1_test.py.py:24-25 | a value in [lo, hi) stays within [lo, hi] when cut at any number of places |
| `Pendulum.PiTrueBetweenThreeAndFour` | lab1_test.py.py:14 | the 101-digit reference constant lies in [3, 4) |
| `Pendulum.PiCutBounds` | lab1_test.py.py:14-25 | every cut of the reference pi, at any places and either policy, lies in [3, 4] |
| `Pendulum.TimeErrors` | lab1_test.py.py:16-38 | when get_time_error returns, both errors are non-negative |
| `Pendulum.TimeErrorsClosedForm` | lab1_test.py.py:16-38 | get_time_error(n) fails with InvalidOperation exactly for n ≥ 150; otherwise it returns the period errors of the floor and half-up cuts of pi at max(n, 0) places |
| `Pendulum.QuantizePi` | lab1_test.py.py:6-25 | quantizing PI_TRUE with the template for n, under either rounding, returns the cut of pi at max(n, 0) places for n < 150 and signals InvalidOperation for n ≥ 150 |
| `Pendulum.TimeErrorsSucceedIff` | lab1_test.py.py:21-25 | get_time_error(n) succeeds exactly for n < 150, and any failure is InvalidOperation |
| `Pendulum.PeriodErrorsScaled` | lab1_test.py.py:28-36 | each period error is 2·abs(factor) times the distance between the reference pi and that policy's pi |
| `Pendulum.TimeErrorBounds` | lab1_test.py.py:16-38 | for 0 ≤ n < 150 the truncation error is at most 2·abs(factor)·10^-n and the rounding error at most abs(factor)·10^-n |
| `Pendulum.RoundingNeverWorse` | lab1_test.py.py:35-36 | for every n < 150 the rounding error is at most the truncation error, so the gap is never negative |
| `Pendulum.ErrorsNonIncreasing` | lab1_test.py.py:16-38 | for n1 ≤ n2 < 150 both errors at n2 are at most those at n1 |
| `Pendulum.CutErrorsBounds` | lab1_test.py.py:24-36 | for any reference value and places, the same error bounds hold |
| `Pendulum.CutErrorsRoundingNeverWorse` | lab1_test.py.py:24-36 | for any reference value, rounding error ≤ truncation error |
| `Pendulum.CutErrorsNonIncreasing` | lab1_test.py.py:24-36 | for any reference value, both errors are non-increasing in the places |
| `Pendulum.CutErrorsVanish` | lab1_test.py.py:24-36 | cutting at the reference's own places or more gives two zero errors |
| `Pendulum.CutErrorsRoundingStrictlyBetter` | lab1_test.py.py:24-36 | with a non-zero factor, rounding error < truncation error when the discarded part exceeds half a unit |
| `Pendulum.FullPrecisionExact` | lab1_test.py.py:24-36 | at 100 places both quantizations return the reference pi itself, and for 100 ≤ n < 150 both errors are exactly zero |
| `Pendulum.FourPlacesCoefficients` | lab1_test.py.py:24-25 | at 4 places the floor coefficient is 31415 and the half-up coefficient is 31416 |
| `Pendulum.FourPlacesExample` | lab1_test.py.py:24-25 | at 4 places quantize returns 3.1415 with floor and 3.1416 with half-up, as the program's comments say |
| `Pendulum.TwentyFirstDigit` | lab1_test.py.py:14 | the 21st decimal of the reference pi is 2 |
| `Pendulum.DiscardedAtFortyAndSixty` | lab1_test.py.py:14 | the decimals after the 40th and the 60th place exceed half a unit of that place |
| `Pendulum.ProgramCutPoints` | lab1_test.py.py:14-36 | at 20 places the two errors are equal; at 40 and 60 places, with a non-zero factor, rounding is strictly better |
| `Pendulum.RunExperiment` | lab1_test.py.py:41-55 | the loop completes exactly when every precision is below 150, and then its three columns hold, row by row in order, get_time_error's two errors and their difference; otherwise it ends with InvalidOperation |
| `Pendulum.TabulatesExtend` | lab1_test.py.py:49-55 | appending the next precision's errors and gap keeps the columns in step with the precisions |
| `Pendulum.TabulatedFit` | lab1_test.py.py:49-52 | a completed table implies every precision was below 150 |
| `Pendulum.ExperimentOrdering` | lab1_test.py.py:49-55 | in any completed table every gap is non-negative, and a row with more places has no larger error than a row with fewer |
| `Pendulum.TabulatedRow` | lab1_test.py.py:49-55 | each row of a completed table is get_time_error's pair for that row's precision, which was below 150, and its gap is their difference |
| `Pendulum.ProgramErrorsFall` | lab1_test.py.py:41-52 | for precisions 20, 40, 60, 100 both error columns fall row by row |
| `Pendulum.ProgramGaps` | lab1_test.py.py:41-55 | for precisions 20, 40, 60, 100 the gap at 20 is zero and, with a non-zero factor, the gaps at 40 and 60 are positive |
| `Pendulum.ProgramLastRow` | lab1_test.py.py:41-55 | for precisions 20, 40, 60, 100 the last row has both errors and the gap equal to zero |
| `Pendulum.ProgramExperiment` | lab1_test.py.py:41-55 | for precisions 20, 40, 60, 100 both error columns fall row by row; the gap at 20 is zero; with a non-zero factor the gaps at 40 and 60 are positive; at 100 both errors and the gap are zero |
| `Pendulum.RunProgramExperiment` | lab1_test.py.py:41-55 | the run over 20, 40, 60, 100 always completes, with the gap and zero-error facts above |

## Notes on the program's behaviour

- **Precisions up to 149 succeed.** When the template asks for more places
  than PI_TRUE has (lines 14, 21), `quantize` pads the coefficient with
  zeros (lines 24-25). It signals InvalidOperation only when the result's
  coefficient would need more than the 150 digits of the context (line 6).
  Every cut of pi has one digit before the point, so get_time_error(n)
  returns for every n ≤ 149 and signals InvalidOperation for every
  n ≥ 150 (`TimeErrorsSucceedIff`, `QuantizePi`).
- **The gap at 20 places is zero.** The 21st decimal of PI_TRUE (line 14)
  is 2, so ROUND_HALF_UP keeps the same 20 decimals as ROUND_FLOOR and
  both errors are equal (`ProgramCutPoints`, `ProgramGaps`). At 40 and 60
  places the first discarded digits are 6 and 5, followed by non-zero
  digits, so there rounding is strictly closer (line 54 asks "How much
  better is Rounding?").
- **Both errors are zero at 100 places.** PI_TRUE has exactly 100
  decimals, so both quantizations at 100 places return PI_TRUE itself and
  the three periods of lines 30-32 have identical operands
  (`FullPrecisionExact`, `ProgramLastRow`). The same holds for every n
  from 100 to 149. The comment on line 5 calls 150 digits enough "to
  handle the 100th decimal test".
- **An undersized context is signalled, not silent.** If the context were
  smaller than a result's coefficient, `quantize` would signal
  InvalidOperation rather than drop digits (`QuantizeDigitLimit`).

## Left out

- The 150-digit rounding of `LENGTH / GRAVITY`, of `sqrt` and of the
  three products (lines 10-11, 28, 30-32) is not modelled. `factor` is an
  arbitrary real, and the periods and their differences are exact real
  arithmetic. The error bounds, orderings and monotonicity are therefore
  stated for exact arithmetic. The zero errors at 100 places are
  unaffected, since the operands there are identical.
- The global context (`getcontext().prec = 150`, line 6) is the constant
  `ContextPrecision`, passed explicitly to `Quantize`.
- `quantize`'s exponent-range checks (Emax, Etiny) are not modelled. No
  exponent reached by these inputs comes near them.
- Decimals are non-negative only. The one value ever quantized, pi, is
  positive, so floor and truncation toward zero coincide.
- Printing the table (lines 45-47 and 57-58) is left out. So is the
  conversion to `float` for display.
- The chart (lines 1 and 60-73) is left out: plotting only consumes the
  two result columns.
- `RunExperiment` returns no partial table when a precision fails. The
  program prints the rows computed before the exception, and then the
  exception ends it.
