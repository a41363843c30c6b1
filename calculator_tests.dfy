/**
 * The calculator's unit tests, restated as proved facts about the model:
 * construction refuses parameters of the wrong dimension, and the signal,
 * readout and dark terms have the values and the photon dimension the tests
 * expect. Two client scenarios add what the tests leave implicit: the sky
 * background is fetched once and then shared by evaluations in other
 * filters.
 */
module CalculatorTests {
  import opened Results
  import opened Units
  import opened Bisection
  import opened ExposureTime

  /** A bare number as dark current, and a readout noise in metres or in
      seconds, are each refused with the constructor's error. */
  method RejectsWrongDimensions()
    returns (darkAsNumber: Result<ExposureTimeCalculator, InitError>,
             readoutInMetres: Result<ExposureTimeCalculator, InitError>,
             readoutInSeconds: Result<ExposureTimeCalculator, InitError>)
    ensures darkAsNumber == Failure(IncompatibleUnits)
    ensures readoutInMetres == Failure(IncompatibleUnits)
    ensures readoutInSeconds == Failure(IncompatibleUnits)
  {
    darkAsNumber := ExposureTimeCalculator.Create(dark := Number(0.01));
    readoutInMetres := ExposureTimeCalculator.Create(readout := Quantity(5.0, Metre));
    readoutInSeconds := ExposureTimeCalculator.Create(readout := Quantity(5.0, Second));
  }

  /** A seeing given as a time is refused too (the source's seeing test
      passes a readout noise in seconds instead). */
  method RejectsSeeingAsTime() returns (r: Result<ExposureTimeCalculator, InitError>)
    ensures r == Failure(IncompatibleUnits)
  {
    r := ExposureTimeCalculator.Create(seeing := Quantity(0.6, Second));
  }

  /** 1e8 photons per second per square metre over 50 s and 1 m² is 5e9
      photons, and a photon count can be added to it. */
  lemma SignalValueAndUnits()
    ensures var signal := ExposureTimeCalculator.Signal(Quantity(100000000.0, PhotonFlux), Quantity(50.0, Second),
                                                        Quantity(1.0, SquareMetre));
      && signal == Quantity(5000000000.0, Photon)
      && Add(signal, Quantity(1.0, Photon)).Success?
  {
  }

  /** The test calculator: dark 0.01 ph/s, readout 5 ph, seeing 0.6 arcsec.
      Its readout term over 5 pixels is 25 photons, its dark term over 50
      pixels and 7 s is 3.5 photons, and both are photon counts (the
      dimension tests use 50 pixels, and 7 pixels over 3 s). */
  method NoiseTermValues()
    returns (readout: Quantity, readoutTerm: Quantity, dark: Quantity, darkTerm: Quantity)
    ensures readout == Quantity(25.0, Photon) && dark == Quantity(3.5, Photon)
    ensures readoutTerm.dim == Photon && darkTerm.dim == Photon
  {
    var created := ExposureTimeCalculator.Create(dark := Quantity(0.01, PhotonRate), readout := Quantity(5.0, Photon),
                                                 seeing := Quantity(0.6, Angle));
    var etc := created.value;
    readout := etc.NoiseReadoutSquared(Number(5.0));
    readoutTerm := etc.NoiseReadoutSquared(Number(50.0));
    dark := etc.NoiseDarkSquared(Number(50.0), Quantity(7.0, Second));
    darkTerm := etc.NoiseDarkSquared(Number(7.0), Quantity(3.0, Second));
  }

  /** A calculator that evaluates the SNR in K and then in J. When the sky
      model answers for K, it is asked nothing more and the J evaluation uses
      the K background; when it raises, the cache stays empty and the J
      evaluation asks again. */
  method BackgroundSharedAcrossFilters(env: Services, dit: Quantity)
    returns (etc: ExposureTimeCalculator, inK: Result<real, SnrError>, inJ: Result<real, SnrError>)
    requires IsSqrt(env.sqrt)
    ensures env.skyBackground("K", 1.0, 0.5).Some? ==>
              && etc.skycalc == env.skyBackground("K", 1.0, 0.5)
              && etc.skyQueries == [("K", 1.0, 0.5)]
              && inJ == etc.SnrAt(etc.skycalc.value, 20.0, dit, 1, "J", env)
    ensures env.skyBackground("K", 1.0, 0.5).None? ==>
              && inK == Failure(UpstreamLookupError)
              && etc.skycalc == env.skyBackground("J", 1.5, 2.0)
              && etc.skyQueries == [("K", 1.0, 0.5), ("J", 1.5, 2.0)]
  {
    var created := ExposureTimeCalculator.Create();
    etc := created.value;
    inK := etc.CalculateSnr(env, 20.0, dit);
    inJ := etc.CalculateSnr(env, 20.0, dit, filterName := "J", airmass := 1.5, pwv := 2.0);
  }

  /** Asking twice for the same limiting magnitude gives the same answer once
      the first call has filled the cache, the sky model being asked once;
      that answer is a magnitude in
      [0, 30] or an error. */
  method RepeatedLimitingMagnitude(env: Services, dit: Quantity)
    returns (etc: ExposureTimeCalculator, first: Result<real, BisectError<SnrError>>,
             second: Result<real, BisectError<SnrError>>)
    requires IsSqrt(env.sqrt) && IsBisect(env.bisect)
    ensures env.skyBackground("K", 1.0, 0.5).Some? ==>
              && etc.skycalc == env.skyBackground("K", 1.0, 0.5)
              && etc.skyQueries == [("K", 1.0, 0.5)]
              && first == second
    ensures first.Success? ==> MinMagnitude <= first.value <= MaxMagnitude
  {
    var created := ExposureTimeCalculator.Create();
    etc := created.value;
    first := etc.LimitingMagnitude(env, 5.0, dit);
    second := etc.LimitingMagnitude(env, 5.0, dit);
  }
}
