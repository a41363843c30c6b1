/**
 * The exposure time calculator: for a detector (dark current, readout noise)
 * under a given seeing, the signal-to-noise ratio a source of a given
 * magnitude reaches in a given integration, and the faintest magnitude that
 * still reaches a target ratio.
 *
 * The sky background is looked up on the first evaluation and kept for the
 * lifetime of the calculator, whatever filter, airmass or water vapour later
 * calls ask for. The photometric and sky-model lookups, the square root and
 * the root finder are collaborators the calculator does not implement; they
 * are passed in as a `Services` value.
 */
module ExposureTime {
  import opened Results
  import opened Units
  import opened Bisection

  /** np.pi as written in decimal (the model's reals are exact); only its sign matters to the proofs. */
  const Pi: real := 3.141592653589793
  /** angular size of one detector pixel: 0.106 arcsec */
  const PixelScale: Quantity := Quantity(0.106, Angle)
  /** radius of the telescope's collecting area: 4.1 m */
  const MirrorRadius: Quantity := Quantity(4.1, Metre)
  const Instrument: string := "HAWKI"
  const Observatory: string := "Paranal"
  /** the magnitude bracket and tolerance the solver is called with */
  const MinMagnitude: real := 0.0
  const MaxMagnitude: real := 30.0
  const XTol: real := 0.000001

  /** Constructor defaults: no dark current, no readout noise, 1 arcsec seeing. */
  const DefaultDark: Quantity := Quantity(0.0, PhotonRate)
  const DefaultReadout: Quantity := Quantity(0.0, Photon)
  const DefaultSeeing: Quantity := Quantity(1.0, Angle)

  /** The `TypeError` the constructor raises for a parameter of the wrong dimension. */
  datatype InitError = IncompatibleUnits

  /** Why one SNR evaluation yields no number. */
  datatype SnrError =
    | UpstreamLookupError  // a photometry or sky-model lookup raised
    | IncompatibleTerms    // the four terms could not be added (astropy's UnitConversionError)
    | NotFinite            // the variance is not positive: numpy yields inf or nan

  /** The external collaborators; a lookup that raises answers None. */
  datatype Services = Services(
    skyBackground: (string, real, real) -> Option<Quantity>,
    fluxInFilter: (string, real, string, string) -> Option<Quantity>,
    sqrt: real -> real,
    bisect: (real -> Result<real, SnrError>, real, real, real) -> Result<real, BisectError<SnrError>>)

  /** np.sqrt on the non-negative reals. */
  ghost predicate IsSqrt(sqrt: real -> real) {
    forall x: real :: 0.0 <= x ==> 0.0 <= sqrt(x) && sqrt(x) * sqrt(x) == x
  }

  /** The constructor's check: add a reference quantity of the expected
      dimension to each parameter, and turn any conversion error into one
      configuration error. */
  function CheckUnits(dark: Quantity, readout: Quantity, seeing: Quantity): (r: Result<(), InitError>)
    ensures r.Success? <==> dark.dim == PhotonRate && readout.dim == Photon && seeing.dim == Angle
    ensures r.Failure? ==> r.error == IncompatibleUnits
  {
    if || Add(dark, Quantity(1.0, PhotonRate)).Failure?
       || Add(readout, Quantity(1.0, Photon)).Failure?
       || Add(seeing, Quantity(1.0, Angle)).Failure?
    then Failure(IncompatibleUnits)
    else Success(())
  }

  /** Number of pixels a seeing disc covers: π (seeing / pixel size)². */
  function PixelCount(seeing: Quantity): (p: Quantity)
    ensures seeing.dim == Angle ==> p.dim == Dimensionless
    ensures p.value >= 0.0
    ensures p.value * (PixelScale.value * PixelScale.value) == Pi * (seeing.value * seeing.value)
  {
    var ratio := Div(seeing, PixelScale);
    SquareIsProduct(ratio);
    ScaledSquare(Pi, ratio.value, PixelScale.value, seeing.value);
    Mul(Number(Pi), Pow(ratio, 2))
  }

  /** k x², times c², is k s² when x c = s. */
  lemma ScaledSquare(k: real, x: real, c: real, s: real)
    requires x * c == s
    ensures k * (x * x) * (c * c) == k * (s * s)
  {
  }

  /** Collecting area of the telescope: π (4.1 m)². */
  function CollectingArea(): (area: Quantity)
    ensures area == Quantity(Pi * (4.1 * 4.1), SquareMetre)
  {
    Mul(Number(Pi), Mul(MirrorRadius, MirrorRadius))
  }

  /** The area is π times the mirror radius raised to the power 2. */
  lemma CollectingAreaIsSquare()
    ensures CollectingArea() == Mul(Number(Pi), Pow(MirrorRadius, 2))
  {
    SquareIsProduct(MirrorRadius);
  }

  /** The four photon counts whose sum is the variance under the square root. */
  datatype NoiseBudget = NoiseBudget(signal: Quantity, background: Quantity, dark: Quantity, readout: Quantity)

  /** Every term is a non-negative photon count. */
  predicate PhysicalBudget(b: NoiseBudget) {
    && b.signal.dim == Photon && b.background.dim == Photon
    && b.dark.dim == Photon && b.readout.dim == Photon
    && b.signal.value >= 0.0 && b.background.value >= 0.0
    && b.dark.value >= 0.0 && b.readout.value >= 0.0
  }

  /** `signal + background + dark + readout`, added left to right. */
  function Variance(b: NoiseBudget): (r: Result<Quantity, UnitError>)
    ensures r.Success? <==> b.background.dim == b.signal.dim && b.dark.dim == b.signal.dim && b.readout.dim == b.signal.dim
    ensures r.Success? ==> r.value.dim == b.signal.dim
    ensures r.Success? ==> r.value.value == b.signal.value + b.background.value + b.dark.value + b.readout.value
  {
    var withBackground :- Add(b.signal, b.background);
    var withDark :- Add(withBackground, b.dark);
    Add(withDark, b.readout)
  }

  /** `signal / sqrt(signal + background + dark + readout)`, stripped of its unit.
      The signal itself, not its square, stands under the root. */
  function SnrOf(b: NoiseBudget, sqrt: real -> real): (r: Result<real, SnrError>)
    requires IsSqrt(sqrt)
    ensures Variance(b).Failure? ==> r == Failure(IncompatibleTerms)
    ensures r.Success? <==> Variance(b).Success? && Variance(b).value.value > 0.0
    ensures r.Success? ==> r.value * r.value * Variance(b).value.value == b.signal.value * b.signal.value
    ensures r.Success? && b.signal.value >= 0.0 ==> r.value >= 0.0
    ensures r.Success? && b.signal.value < 0.0 ==> r.value < 0.0
  {
    match Variance(b)
    case Failure(_) => Failure(IncompatibleTerms)
    case Success(total) =>
      if total.value > 0.0 then
        var root := sqrt(total.value);
        assert root > 0.0 && root * root == total.value;
        SnrOfRoot(b.signal.value, total.value, root);
        Success(b.signal.value / root)
      else
        Failure(NotFinite)
  }

  /** s / √v squared, times v, is s². */
  lemma SnrOfRoot(s: real, v: real, root: real)
    requires root > 0.0 && root * root == v
    ensures (s / root) * (s / root) * v == s * s
    ensures s >= 0.0 ==> s / root >= 0.0
    ensures s < 0.0 ==> s / root < 0.0
  {
  }

  /** The sky background slot after one evaluation: the first value found stays. */
  function CacheAfter(cache: Option<Quantity>, lookup: Option<Quantity>): Option<Quantity> {
    if cache.Some? then cache else lookup
  }

  /** The slot after a run of evaluations whose lookups would answer `lookups` in turn. */
  function CacheAfterAll(cache: Option<Quantity>, lookups: seq<Option<Quantity>>): Option<Quantity>
    decreases |lookups|
  {
    if lookups == [] then cache else CacheAfterAll(CacheAfter(cache, lookups[0]), lookups[1..])
  }

  /** The first lookup in the run that answered. */
  function FirstFound(lookups: seq<Option<Quantity>>): (r: Option<Quantity>)
    ensures r.Some? <==> exists i :: 0 <= i < |lookups| && lookups[i].Some?
    ensures r.Some? ==>
              exists i :: 0 <= i < |lookups| && lookups[i] == r && forall j :: 0 <= j < i ==> lookups[j].None?
  {
    if lookups == [] then None
    else if lookups[0].Some? then lookups[0]
    else
      assert forall i :: 1 <= i < |lookups| ==> lookups[i] == lookups[1..][i - 1];
      FirstFound(lookups[1..])
  }

  /** A filled slot never changes; an empty one takes the first answer of the run,
      whatever filter, airmass or water vapour the later evaluations ask for. */
  lemma {:induction false} CacheKeepsFirstBackground(cache: Option<Quantity>, lookups: seq<Option<Quantity>>)
    ensures CacheAfterAll(cache, lookups) == if cache.Some? then cache else FirstFound(lookups)
    decreases |lookups|
  {
    if lookups != [] {
      CacheKeepsFirstBackground(CacheAfter(cache, lookups[0]), lookups[1..]);
    }
  }

  class ExposureTimeCalculator {
    /** dark current (photons per second), readout noise (photons), seeing (angle) */
    const dark: Quantity
    const readout: Quantity
    const seeing: Quantity
    /** the sky background flux, fetched on first use and never refreshed */
    var skycalc: Option<Quantity>
    /** every (filter, airmass, pwv) the sky model has been asked for, in order */
    ghost var skyQueries: seq<(string, real, real)>

    /** The three detector parameters have the dimensions the constructor checks. */
    predicate Valid() {
      dark.dim == PhotonRate && readout.dim == Photon && seeing.dim == Angle
    }

    /** Stores parameters of the checked dimensions and leaves the cache empty. */
    constructor (dark: Quantity, readout: Quantity, seeing: Quantity)
      requires dark.dim == PhotonRate && readout.dim == Photon && seeing.dim == Angle
      ensures Valid()
      ensures this.dark == dark && this.readout == readout && this.seeing == seeing
      ensures skycalc == None && skyQueries == []
    {
      this.dark := dark;
      this.readout := readout;
      this.seeing := seeing;
      skycalc := None;
      skyQueries := [];
    }

    /** Construction: refuses a parameter of the wrong dimension, otherwise a
        calculator holding exactly the given parameters and an empty cache. */
    static method Create(nameonly dark: Quantity := DefaultDark, nameonly readout: Quantity := DefaultReadout,
                         nameonly seeing: Quantity := DefaultSeeing)
      returns (r: Result<ExposureTimeCalculator, InitError>)
      ensures r.Success? <==> dark.dim == PhotonRate && readout.dim == Photon && seeing.dim == Angle
      ensures r.Failure? ==> r.error == IncompatibleUnits
      ensures r.Success? ==> fresh(r.value) && r.value.Valid() && r.value.skycalc == None && r.value.skyQueries == []
      ensures r.Success? ==> r.value.dark == dark && r.value.readout == readout && r.value.seeing == seeing
    {
      var check := CheckUnits(dark, readout, seeing);
      if check.Failure? {
        return Failure(check.error);
      }
      var created := new ExposureTimeCalculator(dark, readout, seeing);
      return Success(created);
    }

    /** `flux * dit * area`: the photons the source delivers. */
    static function Signal(flux: Quantity, dit: Quantity, area: Quantity): (r: Quantity)
      ensures r.value == flux.value * dit.value * area.value
      ensures flux.dim == PhotonFlux && dit.dim == Second && area.dim == SquareMetre ==> r.dim == Photon
    {
      Mul(Mul(flux, dit), area)
    }

    /** `background_flux * pixels * dit * area`: the sky photons over the source's pixels. */
    static function NoiseBackgroundSquared(backgroundFlux: Quantity, pixels: Quantity, dit: Quantity, area: Quantity): (r: Quantity)
      ensures r.value == backgroundFlux.value * pixels.value * dit.value * area.value
      ensures backgroundFlux.dim == PhotonFlux && pixels.dim == Dimensionless && dit.dim == Second && area.dim == SquareMetre
              ==> r.dim == Photon
    {
      Mul(Mul(Mul(backgroundFlux, pixels), dit), area)
    }

    /** `dark * pixels * ndit * dit`: the dark-current photons. */
    function NoiseDarkSquared(pixels: Quantity, dit: Quantity, ndit: int := 1): (r: Quantity)
      ensures r.value == dark.value * pixels.value * (ndit as real) * dit.value
      ensures Valid() && pixels.dim == Dimensionless && dit.dim == Second ==> r.dim == Photon
    {
      Mul(Mul(Mul(dark, pixels), Number(ndit as real)), dit)
    }

    /** `readout * pixels`: the readout noise, independent of the integration time. */
    function NoiseReadoutSquared(pixels: Quantity): (r: Quantity)
      ensures r.value == readout.value * pixels.value
      ensures Valid() && pixels.dim == Dimensionless ==> r.dim == Photon
    {
      Mul(readout, pixels)
    }

    /** The four terms for a source flux and a sky flux over `pixels` pixels
        and a collecting area `area`. */
    function Budget(objFlux: Quantity, bkgFlux: Quantity, pixels: Quantity, area: Quantity, dit: Quantity, ndit: int)
      : NoiseBudget
    {
      NoiseBudget(Signal(objFlux, dit, area), NoiseBackgroundSquared(bkgFlux, pixels, dit, area),
                  NoiseDarkSquared(pixels, dit, ndit), NoiseReadoutSquared(pixels))
    }

    /** The SNR of a source of the given magnitude against a given sky
        background: a failed photometry lookup is an upstream error, and a
        value is a non-negative-signal ratio whose square times the four
        photon counts' sum is the signal squared. */
    function SnrAt(bkgFlux: Quantity, magnitude: real, dit: Quantity, ndit: int, filterName: string, env: Services)
      : (r: Result<real, SnrError>)
      requires IsSqrt(env.sqrt)
      ensures env.fluxInFilter(filterName, magnitude, Instrument, Observatory).None? ==> r == Failure(UpstreamLookupError)
      ensures r.Success? ==>
                var b := Budget(env.fluxInFilter(filterName, magnitude, Instrument, Observatory).value, bkgFlux,
                                PixelCount(seeing), CollectingArea(), dit, ndit);
                && Variance(b).Success?
                && r.value * r.value * Variance(b).value.value == b.signal.value * b.signal.value
                && (b.signal.value >= 0.0 ==> r.value >= 0.0)
    {
      match env.fluxInFilter(filterName, magnitude, Instrument, Observatory)
      case None => Failure(UpstreamLookupError)
      case Some(objFlux) => SnrOf(Budget(objFlux, bkgFlux, PixelCount(seeing), CollectingArea(), dit, ndit), env.sqrt)
    }

    /** The SNR as a function of magnitude, for a fixed background. */
    function SnrCurve(bkgFlux: Quantity, dit: Quantity, ndit: int, filterName: string, env: Services)
      : real -> Result<real, SnrError>
      requires IsSqrt(env.sqrt)
    {
      m => SnrAt(bkgFlux, m, dit, ndit, filterName, env)
    }

    /** The solver's objective: SNR at magnitude m minus the target; an
        evaluation that raises passes its error on. */
    function Objective(bkgFlux: Quantity, targetSnr: real, dit: Quantity, ndit: int, filterName: string, env: Services)
      : (f: real -> Result<real, SnrError>)
      requires IsSqrt(env.sqrt)
      ensures forall m: real :: f(m).Success? <==> SnrAt(bkgFlux, m, dit, ndit, filterName, env).Success?
      ensures forall m: real :: f(m).Success? ==> f(m).value + targetSnr == SnrAt(bkgFlux, m, dit, ndit, filterName, env).value
      ensures forall m: real :: f(m).Failure? ==> f(m).error == SnrAt(bkgFlux, m, dit, ndit, filterName, env).error
    {
      Shifted(SnrCurve(bkgFlux, dit, ndit, filterName, env), targetSnr)
    }

    /** Fills the empty cache from the sky model; a filled cache is kept, and
        the sky model is then not asked at all. */
    method FetchBackground(env: Services, filterName: string, airmass: real, pwv: real) returns (bkg: Option<Quantity>)
      modifies this`skycalc, this`skyQueries
      ensures skycalc == CacheAfter(old(skycalc), env.skyBackground(filterName, airmass, pwv))
      ensures skyQueries == old(skyQueries) + if old(skycalc).None? then [(filterName, airmass, pwv)] else []
      ensures bkg == skycalc
    {
      if skycalc.None? {
        skycalc := env.skyBackground(filterName, airmass, pwv);
        skyQueries := skyQueries + [(filterName, airmass, pwv)];
      }
      bkg := skycalc;
    }

    /** One SNR evaluation. It changes nothing but the cache, and the
        background term always uses the cached flux. */
    method CalculateSnr(env: Services, magnitude: real, dit: Quantity, ndit: int := 1, nameonly filterName: string := "K",
                        nameonly airmass: real := 1.0, nameonly pwv: real := 0.5)
      returns (r: Result<real, SnrError>)
      requires IsSqrt(env.sqrt)
      modifies this`skycalc, this`skyQueries
      ensures skycalc == CacheAfter(old(skycalc), env.skyBackground(filterName, airmass, pwv))
      ensures skyQueries == old(skyQueries) + if old(skycalc).None? then [(filterName, airmass, pwv)] else []
      ensures skycalc.None? ==> r == Failure(UpstreamLookupError)
      ensures skycalc.Some? ==> r == SnrAt(skycalc.value, magnitude, dit, ndit, filterName, env)
    {
      var bkg := FetchBackground(env, filterName, airmass, pwv);
      if bkg.None? {
        return Failure(UpstreamLookupError);
      }
      r := SnrAt(bkg.value, magnitude, dit, ndit, filterName, env);
    }

    /** The faintest magnitude in [0, 30] at which the target SNR is reached.
        The solver's first evaluation fills the cache; every evaluation after
        it sees the same background, so the objective is a pure function. */
    method LimitingMagnitude(env: Services, targetSnr: real, dit: Quantity, ndit: int := 1, nameonly filterName: string := "K",
                             nameonly airmass: real := 1.0, nameonly pwv: real := 0.5)
      returns (r: Result<real, BisectError<SnrError>>)
      requires IsSqrt(env.sqrt) && IsBisect(env.bisect)
      modifies this`skycalc, this`skyQueries
      ensures skycalc == CacheAfter(old(skycalc), env.skyBackground(filterName, airmass, pwv))
      ensures skyQueries == old(skyQueries) + if old(skycalc).None? then [(filterName, airmass, pwv)] else []
      ensures r.Success? ==> MinMagnitude <= r.value <= MaxMagnitude
      ensures r != Failure(ConvergenceError)
      ensures skycalc.None? ==> r == Failure(Raised(UpstreamLookupError))
      ensures skycalc.Some? ==>
                r == env.bisect(Objective(skycalc.value, targetSnr, dit, ndit, filterName, env), MinMagnitude, MaxMagnitude, XTol)
      ensures skycalc.Some? ==>
                BisectSpec(Objective(skycalc.value, targetSnr, dit, ndit, filterName, env), MinMagnitude, MaxMagnitude, XTol, r)
    {
      var bkg := FetchBackground(env, filterName, airmass, pwv);
      if bkg.None? {
        return Failure(Raised(UpstreamLookupError));
      }
      var objective := Objective(bkg.value, targetSnr, dit, ndit, filterName, env);
      r := env.bisect(objective, MinMagnitude, MaxMagnitude, XTol);
    }
  }

  /** With the detector parameters the constructor admits, source and sky
      fluxes in photons per second per square metre, a dimensionless pixel
      count, an area in square metres and an integration time in seconds,
      each of the four terms is a photon count, so they can be added, and
      their sum is a photon count. */
  lemma BudgetIsPhotonCounts(etc: ExposureTimeCalculator, objFlux: Quantity, bkgFlux: Quantity, pixels: Quantity,
                             area: Quantity, dit: Quantity, ndit: int)
    requires etc.Valid()
    requires objFlux.dim == PhotonFlux && bkgFlux.dim == PhotonFlux && dit.dim == Second
    requires pixels.dim == Dimensionless && area.dim == SquareMetre
    ensures var b := etc.Budget(objFlux, bkgFlux, pixels, area, dit, ndit);
      && b.signal.dim == Photon && b.background.dim == Photon && b.dark.dim == Photon && b.readout.dim == Photon
      && Variance(b).Success? && Variance(b).value.dim == Photon
  {
  }

  /** With non-negative inputs every term is non-negative. */
  lemma BudgetIsNonNegative(etc: ExposureTimeCalculator, objFlux: Quantity, bkgFlux: Quantity, pixels: Quantity,
                            area: Quantity, dit: Quantity, ndit: int)
    requires etc.dark.value >= 0.0 && etc.readout.value >= 0.0 && 0.0 <= ndit as real
    requires objFlux.value >= 0.0 && bkgFlux.value >= 0.0 && dit.value >= 0.0
    requires pixels.value >= 0.0 && area.value >= 0.0
    ensures var b := etc.Budget(objFlux, bkgFlux, pixels, area, dit, ndit);
      b.signal.value >= 0.0 && b.background.value >= 0.0 && b.dark.value >= 0.0 && b.readout.value >= 0.0
  {
    NonNegativeProduct3(objFlux.value, dit.value, area.value);
    NonNegativeProduct4(bkgFlux.value, pixels.value, dit.value, area.value);
    NonNegativeProduct4(etc.dark.value, pixels.value, ndit as real, dit.value);
    NonNegativeProduct2(etc.readout.value, pixels.value);
  }

  lemma NonNegativeProduct2(a: real, b: real)
    ensures a >= 0.0 && b >= 0.0 ==> a * b >= 0.0
  {
  }

  lemma NonNegativeProduct3(a: real, b: real, c: real)
    ensures a >= 0.0 && b >= 0.0 && c >= 0.0 ==> a * b * c >= 0.0
  {
    if a >= 0.0 && b >= 0.0 && c >= 0.0 {
      assert a * b >= 0.0;
    }
  }

  lemma NonNegativeProduct4(a: real, b: real, c: real, d: real)
    ensures a >= 0.0 && b >= 0.0 && c >= 0.0 && d >= 0.0 ==> a * b * c * d >= 0.0
  {
    if a >= 0.0 && b >= 0.0 && c >= 0.0 && d >= 0.0 {
      assert a * b >= 0.0;
      assert a * b * c >= 0.0;
    }
  }

  /** A source that delivers photons over a positive time and area gives a positive signal. */
  lemma SignalIsPositive(flux: Quantity, dit: Quantity, area: Quantity)
    requires flux.value > 0.0 && dit.value > 0.0 && area.value > 0.0
    ensures ExposureTimeCalculator.Signal(flux, dit, area).value > 0.0
  {
    PositiveProduct3(flux.value, dit.value, area.value);
  }

  lemma PositiveProduct3(a: real, b: real, c: real)
    requires a > 0.0 && b > 0.0 && c > 0.0
    ensures a * b * c > 0.0
  {
    assert a * b > 0.0;
  }

  /** With the dimensions and signs above and a source that delivers photons,
      the four terms are non-negative photon counts with a positive signal. */
  lemma BudgetIsPhysical(etc: ExposureTimeCalculator, objFlux: Quantity, bkgFlux: Quantity, pixels: Quantity,
                         area: Quantity, dit: Quantity, ndit: int)
    requires etc.Valid()
    requires etc.dark.value >= 0.0 && etc.readout.value >= 0.0 && 0.0 <= ndit as real
    requires objFlux.dim == PhotonFlux && objFlux.value > 0.0 && bkgFlux.dim == PhotonFlux && bkgFlux.value >= 0.0
    requires dit.dim == Second && dit.value > 0.0
    requires pixels.dim == Dimensionless && pixels.value >= 0.0 && area.dim == SquareMetre && area.value > 0.0
    ensures var b := etc.Budget(objFlux, bkgFlux, pixels, area, dit, ndit);
      PhysicalBudget(b) && b.signal.value > 0.0
  {
    SignalIsPositive(objFlux, dit, area);
    BudgetIsNonNegative(etc, objFlux, bkgFlux, pixels, area, dit, ndit);
    BudgetIsPhotonCounts(etc, objFlux, bkgFlux, pixels, area, dit, ndit);
  }

  /** Photon counts that are all non-negative, with a positive signal, add up
      to a positive variance. */
  lemma PhysicalVarianceIsPositive(b: NoiseBudget)
    requires PhysicalBudget(b) && b.signal.value > 0.0
    ensures Variance(b).Success? && Variance(b).value.value > 0.0
  {
  }

  /** The SNR of non-negative photon counts with a positive signal. */
  lemma PhysicalSnrSquareLaw(b: NoiseBudget, sqrt: real -> real)
    requires IsSqrt(sqrt) && PhysicalBudget(b) && b.signal.value > 0.0
    ensures var total := b.signal.value + b.background.value + b.dark.value + b.readout.value;
      var r := SnrOf(b, sqrt);
      && total > 0.0
      && r.Success? && r.value >= 0.0
      && r.value * r.value * total == b.signal.value * b.signal.value
  {
    PhysicalVarianceIsPositive(b);
  }

  /** The terms of one evaluation, over the pixels the seeing disc covers and
      the telescope's collecting area, form a physical budget with a positive
      signal. */
  lemma EvaluationBudgetIsPhysical(etc: ExposureTimeCalculator, objFlux: Quantity, bkgFlux: Quantity, dit: Quantity,
                                   ndit: int)
    requires etc.Valid()
    requires etc.dark.value >= 0.0 && etc.readout.value >= 0.0 && 0.0 <= ndit as real
    requires objFlux.dim == PhotonFlux && objFlux.value > 0.0 && bkgFlux.dim == PhotonFlux && bkgFlux.value >= 0.0
    requires dit.dim == Second && dit.value > 0.0
    ensures var b := etc.Budget(objFlux, bkgFlux, PixelCount(etc.seeing), CollectingArea(), dit, ndit);
      PhysicalBudget(b) && b.signal.value > 0.0
  {
    BudgetIsPhysical(etc, objFlux, bkgFlux, PixelCount(etc.seeing), CollectingArea(), dit, ndit);
  }

  /** One SNR evaluation with physical inputs and a source that delivers
      photons: the four terms form a physical budget with a positive signal,
      the calculator's value is the SNR of that budget, and it exists and is
      non-negative (its square law is `PhysicalSnrSquareLaw`). */
  lemma CalculatedSnrIsPhysical(etc: ExposureTimeCalculator, bkgFlux: Quantity, magnitude: real, dit: Quantity, ndit: int,
                                filterName: string, env: Services)
    requires IsSqrt(env.sqrt) && etc.Valid()
    requires etc.dark.value >= 0.0 && etc.readout.value >= 0.0 && 0.0 <= ndit as real
    requires bkgFlux.dim == PhotonFlux && bkgFlux.value >= 0.0 && dit.dim == Second && dit.value > 0.0
    requires var objFlux := env.fluxInFilter(filterName, magnitude, Instrument, Observatory);
      objFlux.Some? && objFlux.value.dim == PhotonFlux && objFlux.value.value > 0.0
    ensures var b := etc.Budget(env.fluxInFilter(filterName, magnitude, Instrument, Observatory).value, bkgFlux,
                                PixelCount(etc.seeing), CollectingArea(), dit, ndit);
      var r := etc.SnrAt(bkgFlux, magnitude, dit, ndit, filterName, env);
      && PhysicalBudget(b) && b.signal.value > 0.0
      && r == SnrOf(b, env.sqrt)
      && r.Success? && r.value >= 0.0
  {
    var objFlux := env.fluxInFilter(filterName, magnitude, Instrument, Observatory).value;
    var b := etc.Budget(objFlux, bkgFlux, PixelCount(etc.seeing), CollectingArea(), dit, ndit);
    EvaluationBudgetIsPhysical(etc, objFlux, bkgFlux, dit, ndit);
    PhysicalSnrSquareLaw(b, env.sqrt);
    SnrAtFoundFlux(etc, bkgFlux, magnitude, dit, ndit, filterName, env);
  }

  /** Unfolds one evaluation once the source flux is found. */
  lemma SnrAtFoundFlux(etc: ExposureTimeCalculator, bkgFlux: Quantity, magnitude: real, dit: Quantity, ndit: int,
                       filterName: string, env: Services)
    requires IsSqrt(env.sqrt)
    requires env.fluxInFilter(filterName, magnitude, Instrument, Observatory).Some?
    ensures etc.SnrAt(bkgFlux, magnitude, dit, ndit, filterName, env)
            == SnrOf(etc.Budget(env.fluxInFilter(filterName, magnitude, Instrument, Observatory).value, bkgFlux,
                                PixelCount(etc.seeing), CollectingArea(), dit, ndit), env.sqrt)
  {
  }

  /** The readout term is linear in the pixel count, with the configured
      readout noise as slope. */
  lemma ReadoutLinearInPixels(etc: ExposureTimeCalculator, p: Quantity, q: Quantity)
    requires Add(p, q).Success?
    ensures Add(etc.NoiseReadoutSquared(p), etc.NoiseReadoutSquared(q)) == Success(etc.NoiseReadoutSquared(Add(p, q).value))
    ensures etc.NoiseReadoutSquared(Number(1.0)) == etc.readout
  {
    MulDistributesOverAdd(p, q, etc.readout);
    assert Mul(etc.readout, p) == Mul(p, etc.readout);
    assert Mul(etc.readout, q) == Mul(q, etc.readout);
    assert Mul(etc.readout, Add(p, q).value) == Mul(Add(p, q).value, etc.readout);
  }

  /** The dark term is additive in the pixel count, in the integration time
      and in the number of integrations. */
  lemma DarkLinear(etc: ExposureTimeCalculator, p: Quantity, q: Quantity, dit: Quantity, dit2: Quantity, ndit: int, ndit2: int)
    requires Add(p, q).Success? && Add(dit, dit2).Success?
    ensures Add(etc.NoiseDarkSquared(p, dit, ndit), etc.NoiseDarkSquared(q, dit, ndit))
            == Success(etc.NoiseDarkSquared(Add(p, q).value, dit, ndit))
    ensures Add(etc.NoiseDarkSquared(p, dit, ndit), etc.NoiseDarkSquared(p, dit2, ndit))
            == Success(etc.NoiseDarkSquared(p, Add(dit, dit2).value, ndit))
    ensures Add(etc.NoiseDarkSquared(p, dit, ndit), etc.NoiseDarkSquared(p, dit, ndit2))
            == Success(etc.NoiseDarkSquared(p, dit, ndit + ndit2))
  {
    var d := etc.dark.value;
    var x, y := p.value, q.value;
    var t, u := dit.value, dit2.value;
    var n, m := ndit as real, ndit2 as real;
    var base := etc.NoiseDarkSquared(p, dit, ndit);

    var pixelSum := Add(p, q).value;
    var other := etc.NoiseDarkSquared(q, dit, ndit);
    var whole := etc.NoiseDarkSquared(pixelSum, dit, ndit);
    assert pixelSum.value == x + y;
    FourProductAdditive(d, x, n, t, y);
    assert whole.value == base.value + other.value;
    assert whole.dim == base.dim && other.dim == base.dim;

    var timeSum := Add(dit, dit2).value;
    var later := etc.NoiseDarkSquared(p, dit2, ndit);
    var longer := etc.NoiseDarkSquared(p, timeSum, ndit);
    assert timeSum.value == t + u;
    FourProductAdditive(d, x, n, t, u);
    assert longer.value == base.value + later.value;
    assert longer.dim == base.dim && later.dim == base.dim;

    var more := etc.NoiseDarkSquared(p, dit, ndit2);
    var both := etc.NoiseDarkSquared(p, dit, ndit + ndit2);
    assert (ndit + ndit2) as real == n + m;
    FourProductAdditive(d, x, n, t, m);
    assert both.value == base.value + more.value;
    assert both.dim == base.dim && more.dim == base.dim;
  }

  /** A product of four factors is additive in each of its last three factors. */
  lemma FourProductAdditive(a: real, b: real, c: real, d: real, x: real)
    ensures a * (b + x) * c * d == a * b * c * d + a * x * c * d
    ensures a * b * (c + x) * d == a * b * c * d + a * b * x * d
    ensures a * b * c * (d + x) == a * b * c * d + a * b * c * x
  {
    assert a * (b + x) == a * b + a * x;
    assert (a * b + a * x) * c == a * b * c + a * x * c;
    assert (a * b * c + a * x * c) * d == a * b * c * d + a * x * c * d;
    assert a * b * (c + x) == a * b * c + a * b * x;
    assert (a * b * c + a * b * x) * d == a * b * c * d + a * b * x * d;
    assert a * b * c * (d + x) == a * b * c * d + a * b * c * x;
  }

  /** If the SNR at the brightest and at the faintest magnitude are both
      below the target, the solver refuses the bracket. */
  lemma TargetAboveBrightestNotBracketed(etc: ExposureTimeCalculator, bkgFlux: Quantity, targetSnr: real, dit: Quantity,
                                         ndit: int, filterName: string, env: Services,
                                         r: Result<real, BisectError<SnrError>>, brightest: real, faintest: real)
    requires IsSqrt(env.sqrt)
    requires BisectSpec(etc.Objective(bkgFlux, targetSnr, dit, ndit, filterName, env), MinMagnitude, MaxMagnitude, XTol, r)
    requires etc.SnrAt(bkgFlux, MinMagnitude, dit, ndit, filterName, env) == Success(brightest)
    requires etc.SnrAt(bkgFlux, MaxMagnitude, dit, ndit, filterName, env) == Success(faintest)
    requires brightest < targetSnr && faintest < targetSnr
    ensures r == Failure(RootNotBracketed)
  {
    var curve := etc.SnrCurve(bkgFlux, dit, ndit, filterName, env);
    assert curve(MinMagnitude) == Success(brightest) && curve(MaxMagnitude) == Success(faintest);
    TargetOutsideNotBracketed(curve, targetSnr, MinMagnitude, MaxMagnitude, XTol, r, brightest, faintest);
  }

  /** A magnitude the solver returns lies in [0, 30], and within the solver's
      final bracket around it the SNR passes through the target. */
  lemma SolvedMagnitudeReachesTarget(etc: ExposureTimeCalculator, bkgFlux: Quantity, targetSnr: real, dit: Quantity,
                                     ndit: int, filterName: string, env: Services, r: Result<real, BisectError<SnrError>>)
    requires IsSqrt(env.sqrt)
    requires BisectSpec(etc.Objective(bkgFlux, targetSnr, dit, ndit, filterName, env), MinMagnitude, MaxMagnitude, XTol, r)
    requires r.Success?
    ensures MinMagnitude <= r.value <= MaxMagnitude
    ensures exists lo: real, hi: real ::
      && MinMagnitude <= lo <= r.value <= hi <= MaxMagnitude
      && (r.value == lo || r.value == hi)
      && hi - lo <= Window(XTol, r.value)
      && etc.SnrAt(bkgFlux, lo, dit, ndit, filterName, env).Success?
      && etc.SnrAt(bkgFlux, hi, dit, ndit, filterName, env).Success?
      && Between(targetSnr, etc.SnrAt(bkgFlux, lo, dit, ndit, filterName, env).value,
                 etc.SnrAt(bkgFlux, hi, dit, ndit, filterName, env).value)
  {
    var curve := etc.SnrCurve(bkgFlux, dit, ndit, filterName, env);
    RootReachesTarget(curve, targetSnr, MinMagnitude, MaxMagnitude, XTol, r);
    var lo: real, hi: real :|
      && MinMagnitude <= lo <= r.value <= hi <= MaxMagnitude
      && (r.value == lo || r.value == hi)
      && hi - lo <= Window(XTol, r.value)
      && curve(lo).Success? && curve(hi).Success?
      && Between(targetSnr, curve(lo).value, curve(hi).value);
    assert curve(lo) == etc.SnrAt(bkgFlux, lo, dit, ndit, filterName, env);
    assert curve(hi) == etc.SnrAt(bkgFlux, hi, dit, ndit, filterName, env);
  }
}
