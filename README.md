# Exposure time calculator, modelled in Dafny

The exposure time calculator answers one question for an observer: how faint
a star can be and still reach a target signal-to-noise ratio (SNR) in a given
integration. The `ExposureTimeCalculator` in `main.py` works in three steps.

- Construction takes a detector's dark current, its readout noise and the
  seeing. It refuses any of the three that has the wrong physical dimension.
- `calculate_snr` evaluates the SNR of a source of a given magnitude.
  - It fetches the sky background on its first call and keeps it.
  - It works out the pixels the seeing disc covers and the telescope's
    collecting area.
  - It combines four photon counts: signal, sky background, dark current and
    readout.
  - The result is `signal / sqrt(signal + background + dark + readout)`.
- Calling the calculator hands `calculate_snr(m) - target` to a bisection
  root finder over magnitudes 0 to 30.

The model has four modules:

- `Results` (`results.dfy`): the `Option` and `Result` types.
- `Units` (`units.dfy`): a quantity is a real value tagged with the exponents
  of photon count, second, metre and angle. Multiplication adds exponents. A
  sum of two quantities exists only between equal dimensions; otherwise it is
  astropy's `UnitConversionError`. A bare number is treated as a
  dimensionless quantity (see "Left out" for the one place where astropy
  treats it differently).
- `Bisection` (`bisection.dfy`): the contract of SciPy's `optimize.bisect`.
  - It evaluates both ends first.
  - It refuses a bracket whose ends have the same sign.
  - It returns an end at which the objective is zero.
  - An error it passes on was raised by the objective at a point of the bracket.
  - Otherwise it either returns one end of a sign-change sub-bracket no
    wider than `xtol + rtol·abs(answer)`, or gives up with
    `ConvergenceError`. It can give up only when 100 halvings leave the
    bracket at least `xtol` wide, which never happens for [0, 30] with
    xtol 1e-6.
- `ExposureTime` (`calculator.dfy`): the calculator itself, a class.
  - Its detector parameters are `const` fields.
  - Its background cache is a mutable `Option` field. A ghost field records
    every query made to the sky model, so the contracts can say when it is
    asked.
  - The external services are passed in as a `Services` value: the two
    photometry lookups, the square root and the root finder. A lookup that
    raises answers `None`.

`calculator_tests.dfy` restates the repository's unit tests as proved facts.
It adds two client scenarios about the cache.

Two details of the code shape the model:

- The cache keeps the first background ever fetched (`main.py:89-90`). Later
  evaluations in another filter, airmass or water vapour reuse it.
- The constructor turns a unit conversion error into a `TypeError`
  (`main.py:26-27`), modelled as the single error `IncompatibleUnits`.

The seeing test in `test_main.py:16-18` passes a readout noise in seconds, so
seeing validation is never exercised there. `CalculatorTests.RejectsSeeingAsTime`
proves the case the test's name promises.

## Model

| member | source | states |
|---|---|---|
| ExposureTime.CheckUnits | main.py:22-27 | The check passes exactly when dark is photons per second, readout is photons and seeing is an angle, whatever the values; any failure is the one configuration error. |
| ExposureTime.ExposureTimeCalculator.Create | main.py:11-34 | Construction fails with `IncompatibleUnits` exactly on a dimension mismatch. On success the calculator is new and valid, holds the three arguments unchanged and has an empty background cache. Defaults are 0 ph/s, 0 ph and 1 arcsec. |
| ExposureTime.ExposureTimeCalculator.constructor | main.py:22-34 | Only parameters of the checked dimensions can be stored; the new calculator is valid, its fields hold the arguments and the cache starts empty. |
| ExposureTime.PixelCount | main.py:94 | The pixel count for an angular seeing is dimensionless and non-negative, and it equals π·(seeing/0.106)². |
| ExposureTime.CollectingArea | main.py:95 | The area is π·4.1² square metres. |
| ExposureTime.CollectingAreaIsSquare | main.py:95 | The area is π times the mirror radius to the power 2, as the source writes it. |
| ExposureTime.ExposureTimeCalculator.Signal | main.py:104-106 | The signal is flux·dit·area exactly. It is a photon count when flux is ph/(s·m²), dit is in seconds and area is in m². |
| ExposureTime.ExposureTimeCalculator.NoiseBackgroundSquared | main.py:108-110 | The background term is flux·pixels·dit·area. It is a photon count for a photon flux, dimensionless pixels, seconds and square metres. |
| ExposureTime.ExposureTimeCalculator.NoiseDarkSquared | main.py:112-113 | The dark term is dark·pixels·ndit·dit, with ndit defaulting to 1. For a valid calculator it is a photon count. |
| ExposureTime.ExposureTimeCalculator.NoiseReadoutSquared | main.py:115-116 | The readout term is readout·pixels. For a valid calculator it is a photon count. |
| ExposureTime.Variance | main.py:102 | The left-to-right sum of the four terms exists exactly when all have the signal's dimension, and it is then the sum of their values. |
| ExposureTime.SnrOf | main.py:102 | The SNR exists exactly when the sum exists and is positive. An incompatible sum is a unit error. snr²·sum = signal², and the SNR has the sign of the signal: non-negative for a non-negative signal, negative for a negative one. |
| ExposureTime.FirstFound | main.py:89-90 | Over a run of sky-model answers, a first answer exists exactly when some lookup in the run answered, and it is then the answer of a lookup that no earlier lookup in the run preceded with an answer. |
| ExposureTime.CacheKeepsFirstBackground | main.py:89-93 | After any run of evaluations, a filled cache is unchanged. An empty one holds the first answer the sky model gave, whatever filters, airmasses or water vapours were asked for. |
| ExposureTime.ExposureTimeCalculator.FetchBackground | main.py:89-90 | The sky model is queried, with the call's filter, airmass and water vapour, exactly when the cache is empty, and its answer is then cached; a filled cache is kept and no query is made. Only the cache and the query record change. |
| ExposureTime.ExposureTimeCalculator.SnrAt | main.py:92-102 | A failed photometry lookup is an upstream error. A value, when there is one, is an SNR: its square times the sum of the signal, background, dark and readout photon counts is the signal squared, and it is non-negative when the signal is. |
| ExposureTime.ExposureTimeCalculator.Objective | main.py:61 | At every magnitude the objective succeeds exactly when the SNR evaluation does; its value plus the target is the SNR, and a failed evaluation's error is passed on unchanged. |
| ExposureTime.ExposureTimeCalculator.CalculateSnr | main.py:65-102 | An evaluation changes only the cache, which follows the first-answer rule, and the sky model is queried only when the cache was empty. With no background it is an upstream error. Otherwise it is the SNR against the cached background, whatever filter it is given. |
| ExposureTime.ExposureTimeCalculator.LimitingMagnitude | main.py:36-63 | A call changes only the cache, querying the sky model only when the cache was empty. A failed sky lookup propagates as the objective's error. Otherwise the answer is the root finder applied to SNR(m) − target on [0, 30] with xtol 1e-6, so it meets the root finder's contract. Any magnitude returned lies in [0, 30], and the call never ends in the solver giving up. |
| ExposureTime.BudgetIsPhotonCounts | main.py:97-102 | With valid parameters and photon fluxes, every term is a photon count, so the four add up to a photon count. |
| ExposureTime.BudgetIsNonNegative | main.py:97-100 | Non-negative parameters and inputs give four non-negative terms. |
| ExposureTime.SignalIsPositive | main.py:104-106 | A positive flux, time and area give a positive signal. |
| ExposureTime.BudgetIsPhysical | main.py:97-100 | Physical inputs with a positive source flux make the four terms non-negative photon counts with a positive signal. |
| ExposureTime.PhysicalVarianceIsPositive | main.py:102 | Non-negative photon counts with a positive signal have a positive sum. |
| ExposureTime.PhysicalSnrSquareLaw | main.py:102 | For such terms the SNR exists and is non-negative, and snr²·(signal + background + dark + readout) = signal². The signal itself, not its square, stands under the root. |
| ExposureTime.EvaluationBudgetIsPhysical | main.py:94-100 | The terms over the pixels of the seeing disc and the telescope's area are physical whenever the inputs are. |
| ExposureTime.CalculatedSnrIsPhysical | main.py:92-102 | With physical inputs and a source that delivers photons, the calculator's value is the SNR of a physical budget, and it exists and is non-negative. |
| ExposureTime.ReadoutLinearInPixels | main.py:115-116 | The readout term is additive in the pixel count, and its slope (its value at one pixel) is the configured readout noise. |
| ExposureTime.DarkLinear | main.py:112-113 | The dark term is additive in the pixel count, in the integration time and in the number of integrations. |
| ExposureTime.TargetAboveBrightestNotBracketed | main.py:60-63 | If the SNR at magnitude 0 and the SNR at magnitude 30 are both below the target, the solver refuses the bracket. |
| ExposureTime.SolvedMagnitudeReachesTarget | main.py:60-63 | A magnitude the solver returns lies in [0, 30]. It is one end of a bracket no wider than 1e-6 plus the relative tolerance times the answer, across which the SNR passes through the target. |
| Units.Div | main.py:94 | A quotient times its divisor gives back the dividend, in value and dimension. |
| Units.Pow | main.py:94-95 | A power scales the dimension exponents by n and keeps a non-negative base non-negative. |
| Units.Add | main.py:22-27 | A sum exists exactly when the dimensions are equal; it keeps the dimension and adds the values. |
| Units.SquareIsProduct | main.py:94-95 | A quantity squared is its product with itself. |
| Units.MulDistributesOverAdd | main.py:112-116 | Multiplying both operands of a sum by one factor multiplies the sum by it. |
| Bisection.BisectSpec | main.py:60-63 | Under the root finder's contract, a value is answered only when both ends of the bracket evaluate and zero lies between the objective's values there. A raised error is always one the objective raises at some point of the bracket, and the solver gives up only on a bracket at least 2^100 tolerances wide. |
| Bisection.TotalObjectiveNeverRaises | main.py:60-63 | An objective that evaluates at every point of the bracket never leads the solver to report a raised error. |
| Bisection.TargetOutsideNotBracketed | main.py:60-63 | If the curve is on one side of the target at both ends, the shifted objective is refused as not bracketed. |
| Bisection.RootReachesTarget | main.py:60-63 | An answer lies in the bracket and is one of two points at most `xtol + rtol·abs(answer)` apart between which the curve passes through the target. |
| CalculatorTests.RejectsWrongDimensions | test_main.py:8-18 | A bare number as dark current is refused with `IncompatibleUnits`, and so are a readout in metres and a readout in seconds. |
| CalculatorTests.RejectsSeeingAsTime | main.py:25-27 | A seeing given in seconds is refused. |
| CalculatorTests.SignalValueAndUnits | test_main.py:21-33 | 1e8 ph/(s·m²) over 50 s and 1 m² gives exactly 5e9 photons, and a photon count can be added to it. |
| CalculatorTests.NoiseTermValues | test_main.py:36-57 | For dark 0.01 ph/s and readout 5 ph: 5 pixels give 25 readout photons, and 50 pixels over 7 s give 3.5 dark photons. Both terms are photon counts. |
| CalculatorTests.BackgroundSharedAcrossFilters | main.py:89-93 | If the sky model answers for K, it is queried once only and a later evaluation in J uses the K background. If it raises, the cache stays empty and the J evaluation queries it again, for J. |
| CalculatorTests.RepeatedLimitingMagnitude | main.py:36-63 | Once the cache is filled, with one query to the sky model, asking twice for the same limiting magnitude gives the identical answer. The answer is a magnitude in [0, 30] or an error. |

## Left out

- Floating point: every value is an exact real, so numpy/astropy rounding is not modelled.
  - π is the exact decimal 3.141592653589793, the literal that rounds to numpy's double. Only its sign matters to the proofs.
  - Unit scales are not modelled. Two quantities are compatible exactly when their dimension exponents are equal, so for example photons per minute counts the same as photons per second.
- External services: the photometry lookup `hmbp.for_flux_in_filter`, the sky model `hmbp.in_skycalc_background`, numpy's square root and SciPy's bisection are parameters.
  - Each lookup answers a quantity or fails.
  - The square root and the solver are constrained only by their contracts (`IsSqrt`, `IsBisect`).
  - Every service is a deterministic function of its arguments. A download that fails once and then succeeds for the same arguments cannot be expressed; the identical answers of `CalculatorTests.RepeatedLimitingMagnitude` rest on this.
  - The solver's individual iterations are not modelled. Its relative tolerance enters only the final bracket width, and its 100-iteration cap only the condition under which it may give up.
- ExposureTime.CheckUnits: astropy adds a bare number whose values are all 0, inf or nan to a quantity of any unit, so `dark=0`, `readout=0` or `seeing=0` given without a unit passes the constructor's check in the source and only fails later, in the sum at `main.py:102`. The model treats a bare number as a dimensionless quantity and refuses these at construction.
- ExposureTime.SnrOf: numpy yields inf or nan when the sum under the root is zero or negative. The model reports this as the error `NotFinite` and does not carry non-finite floats.
- ExposureTime.SnrOf: the SNR's dimension, photon count to the power ½, is not modelled. The value is stripped of its unit (as the source's `.value` does), and the dimension check stops at the sum.
- ExposureTime.ExposureTimeCalculator.LimitingMagnitude: the sky cache is filled before the solver starts, not inside the solver's first evaluation. The SciPy solver always evaluates the lower end first, so the cached value and every error are the same.
- ExposureTime.CalculatedSnrIsPhysical: `ndit` is required non-negative as a real number (`0.0 <= ndit as real`). This is equivalent to `ndit >= 0`.
- Monotonicity of the SNR in magnitude depends on the external photometry and is not a property of this code. The solver lemmas assume only the values at the two ends.
- Sign checks: no member checks that `ndit`, the integration time or the target SNR are positive, since the source does not check them.
- `app_etc.py` (a script that prints one result) and `etc.py` (an unused earlier draft) are not part of this model.
