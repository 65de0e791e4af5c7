/** The daily codes and indices of the Canadian Forest Fire Weather Index
    System as backend/FireThreatEstimator.py computes them, one value per day
    (the source evaluates each formula per pixel; every branch here is the
    per-value branch its comments and the standard describe). */
module FireWeatherIndex {
  import opened Numeric

  // ---------------------------------------------------------------------------
  // Weather conversions
  // ---------------------------------------------------------------------------

  function ToCelsius(kelvin: real): real
  {
    kelvin - 273.15
  }

  /** Magnus approximation of the (saturation) vapour pressure at `celsius`. */
  function VapourPressure(f: Analytic, celsius: real): real
  {
    6.112 * f.exp(EeDiv(17.67 * celsius, celsius + 243.5))
  }

  /** Relative humidity in percent from air and dew-point temperature (Kelvin). */
  function RelativeHumidity(f: Analytic, tempK: real, dewK: real): (rh: real)
    ensures 0.0 <= rh <= 100.0
  {
    Clamp(EeDiv(VapourPressure(f, ToCelsius(dewK)), VapourPressure(f, ToCelsius(tempK))) * 100.0, 0.0, 100.0)
  }

  /** Saturated air (dew point equal to air temperature) has humidity 100. */
  lemma SaturatedAirHumidity(f: Analytic, tempK: real)
    requires Lawful(f)
    ensures RelativeHumidity(f, tempK, tempK) == 100.0
  {
    var e := VapourPressure(f, ToCelsius(tempK));
    EeDivSelf(e, e);
  }

  /** Wind speed in km/h from the east/west and north/south components in m/s. */
  function WindSpeedKmh(f: Analytic, u: real, v: real): real
  {
    f.sqrt(u * u + v * v) * 3.6
  }

  lemma WindSpeedLaws(f: Analytic, u: real, v: real)
    requires Lawful(f)
    ensures WindSpeedKmh(f, u, v) >= 0.0
    ensures u == 0.0 && v == 0.0 ==> WindSpeedKmh(f, u, v) == 0.0
  {
    assert u * u >= 0.0 && v * v >= 0.0;
  }

  // ---------------------------------------------------------------------------
  // Fine Fuel Moisture Code
  // ---------------------------------------------------------------------------

  /** Fine-fuel moisture content of an FFMC value, after clamping it to
      [0, 101] (the divisor is at least 59.5). */
  function Moisture(ffmc: real): (mo: real)
    ensures 0.0 <= mo < 250.0
    ensures ffmc <= 0.0 ==> mo == 147.2 * 101.0 / 59.5
    ensures ffmc >= 101.0 ==> mo == 0.0
  {
    var c := Clamp(ffmc, 0.0, 101.0);
    QuotientBounds(147.2 * (101.0 - c), 59.5 + c, 0.0, 147.2 * 101.0 / 59.5);
    147.2 * (101.0 - c) / (59.5 + c)
  }

  /** FFMC of a moisture content (the inverse transform, before clamping). */
  function MoistureToFfmc(m: real): real
  {
    EeDiv(59.5 * (250.0 - m), 147.2 + m)
  }

  lemma MoistureToFfmcForm(m: real)
    requires -147.2 < m
    ensures MoistureToFfmc(m) == 59.5 * 397.2 / (147.2 + m) - 59.5
  {
  }

  /** The transform back to FFMC falls as moisture rises. */
  lemma MoistureToFfmcAntitone(a: real, b: real)
    requires -147.2 < a <= b
    ensures MoistureToFfmc(b) <= MoistureToFfmc(a)
  {
    MoistureToFfmcForm(a);
    MoistureToFfmcForm(b);
    QuotientAntitone(59.5 * 397.2, 147.2 + a, 147.2 + b);
  }

  /** The effective rain `rf`: what falls beyond the first 0.5 mm. */
  function FfmcRain(rainMm: real): (rf: real)
    ensures rf >= 0.0
    ensures rf > 0.0 <==> rainMm > 0.5
  {
    Max(rainMm - 0.5, 0.0)
  }

  /** exp(-100 / (251 - mo)): how much room the fuel has left to absorb. */
  function Absorbency(f: Analytic, mo: real): real
  {
    f.exp(EeDiv(-100.0, 251.0 - mo))
  }

  /** 1 - exp(-6.93 / rf): the share of the effective rain that is taken up. */
  function Uptake(f: Analytic, rf: real): real
  {
    1.0 - f.exp(EeDiv(-6.93, rf))
  }

  /** Moisture taken up from the effective rain in the first stage. */
  function RainGain(f: Analytic, mo: real, rf: real): real
  {
    42.5 * rf * Absorbency(f, mo) * Uptake(f, rf)
  }

  /** The extra uptake of very wet fuel in the second stage. */
  function WetFuelGain(f: Analytic, mo: real, rf: real): real
  {
    0.0015 * Square(mo - 150.0) * f.sqrt(rf)
  }

  function Square(x: real): (r: real)
    ensures r >= 0.0
  {
    x * x
  }

  /** The square of a non-zero number is positive; the square is written as
      `2 * (y * (y / 2))` with `y = |x|` so that the solver sees a product of
      two distinct terms. */
  lemma SquarePositive(x: real)
    requires x != 0.0
    ensures Square(x) > 0.0
  {
    var y := if x > 0.0 then x else -x;
    var h := y / 2.0;
    MulPositive(y, h);
    assert Square(x) == 2.0 * (y * h);
  }

  /** First stage of the rain absorption. */
  function RainFirstStage(f: Analytic, mo: real, rf: real): real
  {
    mo + RainGain(f, mo, rf)
  }

  /** Second stage, the extra absorption of very wet fuel. */
  function RainSecondStage(f: Analytic, mo: real, rf: real): real
  {
    RainFirstStage(f, mo, rf) + WetFuelGain(f, mo, rf)
  }

  /** The first-stage uptake is zero without effective rain and positive with it. */
  lemma RainGainSign(f: Analytic, mo: real, rf: real)
    requires Lawful(f) && 0.0 <= rf
    ensures rf == 0.0 ==> RainGain(f, mo, rf) == 0.0
    ensures rf > 0.0 ==> RainGain(f, mo, rf) > 0.0
  {
    if rf > 0.0 {
      ExpBelowOne(f, EeDiv(-6.93, rf));
      var a, u := Absorbency(f, mo), Uptake(f, rf);
      ScaledProductPositive(42.5, rf, a, u);
      assert RainGain(f, mo, rf) == 42.5 * rf * a * u;
    }
  }

  /** The second-stage uptake is zero without effective rain and never negative. */
  lemma WetFuelGainSign(f: Analytic, mo: real, rf: real)
    requires Lawful(f) && 0.0 <= rf
    ensures rf == 0.0 ==> WetFuelGain(f, mo, rf) == 0.0
    ensures WetFuelGain(f, mo, rf) >= 0.0
  {
    MulNonNegative(0.0015 * Square(mo - 150.0), f.sqrt(rf));
  }

  /** Without effective rain neither stage adds anything; with it, the first
      stage adds a positive amount and the second at least as much again. */
  lemma RainStages(f: Analytic, mo: real, rf: real)
    requires Lawful(f) && 0.0 <= rf
    ensures rf == 0.0 ==> RainFirstStage(f, mo, rf) == mo && RainSecondStage(f, mo, rf) == mo
    ensures rf > 0.0 ==> mo < RainFirstStage(f, mo, rf) <= RainSecondStage(f, mo, rf)
  {
    RainGainSign(f, mo, rf);
    WetFuelGainSign(f, mo, rf);
  }

  /** Moisture content after the day's rain, capped at 250; the second stage
      applies only to fuel wetter than 150. */
  function RainedMoisture(f: Analytic, mo: real, rainMm: real): (mr: real)
    ensures mr <= 250.0
    ensures mo <= 150.0 ==> mr == Min(RainFirstStage(f, mo, FfmcRain(rainMm)), 250.0)
    ensures mo > 150.0 ==> mr == Min(RainSecondStage(f, mo, FfmcRain(rainMm)), 250.0)
  {
    var rf := FfmcRain(rainMm);
    Min(if mo > 150.0 then RainSecondStage(f, mo, rf) else RainFirstStage(f, mo, rf), 250.0)
  }

  /** Rain changes the moisture content exactly when more than 0.5 mm falls,
      and then only raises it. */
  lemma RainedMoistureThreshold(f: Analytic, mo: real, rainMm: real)
    requires Lawful(f) && 0.0 <= mo < 250.0
    ensures mo <= RainedMoisture(f, mo, rainMm)
    ensures RainedMoisture(f, mo, rainMm) == mo <==> rainMm <= 0.5
  {
    RainStages(f, mo, FfmcRain(rainMm));
  }

  /** Line 87 as the code evaluates it: the condition image is always truthy,
      so the wet-fuel stage is applied to every fuel. */
  function RainedMoistureAsWritten(f: Analytic, mo: real, rainMm: real): (mr: real)
    ensures mr <= 250.0
  {
    Min(RainSecondStage(f, mo, FfmcRain(rainMm)), 250.0)
  }

  /** For fuel drier than 150 that takes up rain, the code as written adds
      the wet-fuel term the intended rule keeps for wetter fuel, so it ends
      wetter (unless the intended value is already at the 250 cap). */
  lemma RainedMoistureAsWrittenWetter(f: Analytic, mo: real, rainMm: real)
    requires Lawful(f) && mo < 150.0 && rainMm > 0.5
    ensures RainedMoisture(f, mo, rainMm) <= RainedMoistureAsWritten(f, mo, rainMm)
    ensures RainedMoisture(f, mo, rainMm) < 250.0 ==>
              RainedMoisture(f, mo, rainMm) < RainedMoistureAsWritten(f, mo, rainMm)
  {
    var rf := FfmcRain(rainMm);
    SquarePositive(mo - 150.0);
    var sq, r := Square(mo - 150.0), f.sqrt(rf);
    assert r > 0.0;
    MulPositive(0.0015 * sq, r);
    assert WetFuelGain(f, mo, rf) == 0.0015 * sq * r;
    assert RainSecondStage(f, mo, rf) > RainFirstStage(f, mo, rf);
  }


  /** Equilibrium moisture content for drying (Ed). */
  function DryingEquilibrium(f: Analytic, rh: real, t: real): real
  {
    0.942 * f.pow(rh, 0.679) + 11.0 * f.exp((rh - 100.0) / 10.0)
      + 0.18 * (21.1 - t) * (1.0 - f.exp(-0.115 * rh))
  }

  /** Equilibrium moisture content for wetting (Ew). */
  function WettingEquilibrium(f: Analytic, rh: real, t: real): real
  {
    0.618 * f.pow(rh, 0.753) + 10.0 * f.exp((rh - 100.0) / 10.0)
      + 0.18 * (21.1 - t) * (1.0 - f.exp(-0.115 * rh))
  }

  /** The temperature term is common to both equilibria, so their gap
      depends on humidity alone. */
  lemma EquilibriumGap(f: Analytic, rh: real, t: real)
    ensures DryingEquilibrium(f, rh, t) - WettingEquilibrium(f, rh, t)
            == 0.942 * f.pow(rh, 0.679) - 0.618 * f.pow(rh, 0.753) + f.exp((rh - 100.0) / 10.0)
  {
  }

  /** For any humidity and a temperature up to 800 C the wetting equilibrium
      lies above -147.2, where the moisture-to-FFMC map is defined. */
  lemma WettingEquilibriumAbove(f: Analytic, rh: real, t: real)
    requires Lawful(f) && 0.0 <= rh && t <= 800.0
    ensures -147.2 < WettingEquilibrium(f, rh, t)
  {
    var k := 0.115 * rh;
    ExpDecay(f, k);
    assert -0.115 * rh == -k;
    var c := 1.0 - f.exp(-0.115 * rh);
    var a := 0.18 * (21.1 - t);
    ProductFloor(a, c, -140.202);
    assert 0.18 * (21.1 - t) * c == a * c;
    assert 0.0 <= f.pow(rh, 0.753) && 0.0 < f.exp((rh - 100.0) / 10.0);
  }

  /** 1 - d^e, the part of a rate term left at dryness fraction `d`. */
  function Complement(f: Analytic, d: real, e: real): real
  {
    1.0 - f.pow(d, e)
  }

  /** The log rate before the temperature correction. */
  function BaseRate(f: Analytic, d: real, w: real): real
  {
    0.424 * Complement(f, d, 1.7) + 0.0694 * f.sqrt(w) * Complement(f, d, 8.0)
  }

  /** Log drying or wetting rate for a fraction `d` (RH/100 for drying,
      (100-RH)/100 for wetting), times 0.581 exp(0.0365 T). */
  function LogRate(f: Analytic, d: real, w: real, t: real): real
  {
    BaseRate(f, d, w) * 0.581 * f.exp(0.0365 * t)
  }

  lemma LogRateNonNegative(f: Analytic, d: real, w: real, t: real)
    requires Lawful(f) && 0.0 <= d <= 1.0 && 0.0 <= w
    ensures LogRate(f, d, w, t) >= 0.0
  {
    MulNonNegative(f.sqrt(w), Complement(f, d, 8.0));
    MulNonNegative(BaseRate(f, d, w), f.exp(0.0365 * t));
  }

  /** Drying rate ko. */
  function DryingRate(f: Analytic, rh: real, w: real, t: real): real
  {
    LogRate(f, rh / 100.0, w, t)
  }

  /** Wetting rate kw. */
  function WettingRate(f: Analytic, rh: real, w: real, t: real): real
  {
    LogRate(f, (100.0 - rh) / 100.0, w, t)
  }

  /** Drying from `mr` toward Ed with decay factor exp(-ko). */
  function Dry(mr: real, ed: real, decay: real): real
  {
    ed + (mr - ed) * decay
  }

  /** Wetting from `mr` toward Ew with decay factor exp(-kw). */
  function Wet(mr: real, ew: real, decay: real): real
  {
    ew - (ew - mr) * decay
  }

  lemma DryBounds(mr: real, ed: real, decay: real)
    requires ed < mr && 0.0 < decay <= 1.0
    ensures ed < Dry(mr, ed, decay) <= mr
  {
    Distribute(mr, ed, decay);
    MulStrict(ed, mr, decay);
    ShrinkGap(mr, ed, decay);
  }

  lemma WetBounds(mr: real, ew: real, decay: real)
    requires mr < ew && 0.0 < decay <= 1.0
    ensures mr <= Wet(mr, ew, decay) < ew
  {
    Distribute(ew, mr, decay);
    MulStrict(mr, ew, decay);
    ShrinkGap(ew, mr, decay);
  }

  lemma DryMonotone(a: real, b: real, ed: real, decay: real)
    requires a <= b && 0.0 < decay
    ensures Dry(a, ed, decay) <= Dry(b, ed, decay)
  {
    Distribute(a, ed, decay);
    Distribute(b, ed, decay);
    MulMonotone(a, b, decay);
  }

  lemma WetMonotone(a: real, b: real, ew: real, decay: real)
    requires a <= b && 0.0 < decay
    ensures Wet(a, ew, decay) <= Wet(b, ew, decay)
  {
    Distribute(ew, a, decay);
    Distribute(ew, b, decay);
    MulMonotone(a, b, decay);
  }

  /** The day's moisture from the rained moisture `mr`: toward Ed when above
      it, else toward Ew when below it, else unchanged. */
  function Relax(mr: real, ed: real, ew: real, dryDecay: real, wetDecay: real): real
  {
    if mr > ed then Dry(mr, ed, dryDecay)
    else if mr < ew then Wet(mr, ew, wetDecay)
    else mr
  }

  /** Drying approaches Ed from above without passing it, wetting approaches
      Ew from below without passing it, and in between nothing changes. */
  lemma RelaxBranches(mr: real, ed: real, ew: real, dryDecay: real, wetDecay: real)
    requires 0.0 < dryDecay <= 1.0 && 0.0 < wetDecay <= 1.0
    ensures mr > ed ==> ed < Relax(mr, ed, ew, dryDecay, wetDecay) <= mr
    ensures mr <= ed && mr < ew ==> mr <= Relax(mr, ed, ew, dryDecay, wetDecay) < ew
    ensures ew <= mr <= ed ==> Relax(mr, ed, ew, dryDecay, wetDecay) == mr
  {
    if mr > ed {
      DryBounds(mr, ed, dryDecay);
    } else if mr < ew {
      WetBounds(mr, ew, wetDecay);
    }
  }

  /** When Ew <= Ed, a wetter start never gives a drier result, and the result
      is never below both the start and Ew. */
  lemma RelaxMonotone(a: real, b: real, ed: real, ew: real, dryDecay: real, wetDecay: real)
    requires 0.0 < dryDecay <= 1.0 && 0.0 < wetDecay <= 1.0 && ew <= ed && a <= b
    ensures Relax(a, ed, ew, dryDecay, wetDecay) <= Relax(b, ed, ew, dryDecay, wetDecay)
    ensures Relax(a, ed, ew, dryDecay, wetDecay) >= Min(a, ew)
  {
    RelaxBranches(a, ed, ew, dryDecay, wetDecay);
    RelaxBranches(b, ed, ew, dryDecay, wetDecay);
    if a > ed {
      DryMonotone(a, b, ed, dryDecay);
    } else if b < ew {
      WetMonotone(a, b, ew, wetDecay);
    }
  }

  /** Lines 117-122 as the code evaluates them: the outer condition image is
      always truthy, so every day dries toward Ed. */
  function RelaxAsWritten(mr: real, ed: real, dryDecay: real): real
  {
    Dry(mr, ed, dryDecay)
  }

  /** From below Ew the code as written moves toward Ed and can pass Ew,
      where the intended wetting stays below it: mr 10, Ed 20, Ew 12 and both
      decays 0.5 give 15 as written and 11 as intended. */
  lemma RelaxAsWrittenOvershoots(mr: real, ed: real, ew: real, dryDecay: real, wetDecay: real)
    requires mr < ew <= ed && 0.0 < dryDecay <= 1.0 && 0.0 < wetDecay <= 1.0
    ensures dryDecay < (ed - ew) / (ed - mr) ==> RelaxAsWritten(mr, ed, dryDecay) > ew
    ensures Relax(mr, ed, ew, dryDecay, wetDecay) < ew
    ensures RelaxAsWritten(10.0, 20.0, 0.5) == 15.0 && Relax(10.0, 20.0, 12.0, 0.5, 0.5) == 11.0
  {
    RelaxBranches(mr, ed, ew, dryDecay, wetDecay);
    var g := ed - mr;
    if dryDecay < (ed - ew) / g {
      MulStrict(dryDecay, (ed - ew) / g, g);
      DivTimes(ed - ew, g);
      assert g * dryDecay < ed - ew;
    }
  }


  /** Next day's FFMC from the previous FFMC and today's temperature (C),
      humidity (%), wind (km/h) and rain (mm). */
  function FfmcNext(f: Analytic, ffmcPrev: real, t: real, rh: real, w: real, rainMm: real): (ffmc: real)
    ensures 0.0 <= ffmc <= 101.0
  {
    var mr := RainedMoisture(f, Moisture(ffmcPrev), rainMm);
    var m := Relax(mr, DryingEquilibrium(f, rh, t), WettingEquilibrium(f, rh, t),
                   f.exp(-DryingRate(f, rh, w, t)), f.exp(-WettingRate(f, rh, w, t)));
    Clamp(MoistureToFfmc(m), 0.0, 101.0)
  }

  /** Rain of 0.5 mm or less has no effect on FFMC. */
  lemma FfmcRainThreshold(f: Analytic, ffmcPrev: real, t: real, rh: real, w: real, rainMm: real)
    requires Lawful(f) && rainMm <= 0.5
    ensures FfmcNext(f, ffmcPrev, t, rh, w, rainMm) == FfmcNext(f, ffmcPrev, t, rh, w, 0.0)
  {
    var mo := Moisture(ffmcPrev);
    RainedMoistureThreshold(f, mo, rainMm);
    RainedMoistureThreshold(f, mo, 0.0);
  }

  /** A rainy day never ends with a higher FFMC than the same day without rain
      (for physical equilibria, Ew <= Ed, and temperatures up to 800 C). */
  lemma RainNeverRaisesFfmc(f: Analytic, ffmcPrev: real, t: real, rh: real, w: real, rainMm: real)
    requires Lawful(f) && 0.0 <= rh <= 100.0 && 0.0 <= w && t <= 800.0
    requires WettingEquilibrium(f, rh, t) <= DryingEquilibrium(f, rh, t)
    ensures FfmcNext(f, ffmcPrev, t, rh, w, rainMm) <= FfmcNext(f, ffmcPrev, t, rh, w, 0.0)
  {
    WettingEquilibriumAbove(f, rh, t);
    var mo := Moisture(ffmcPrev);
    RainedMoistureThreshold(f, mo, rainMm);
    RainedMoistureThreshold(f, mo, 0.0);
    var wet := RainedMoisture(f, mo, rainMm);
    var ed, ew := DryingEquilibrium(f, rh, t), WettingEquilibrium(f, rh, t);
    var ko, kw := DryingRate(f, rh, w, t), WettingRate(f, rh, w, t);
    LogRateNonNegative(f, rh / 100.0, w, t);
    LogRateNonNegative(f, (100.0 - rh) / 100.0, w, t);
    ExpDecay(f, ko);
    ExpDecay(f, kw);
    var dd, wd := f.exp(-ko), f.exp(-kw);
    RelaxMonotone(mo, wet, ed, ew, dd, wd);
    var dry := Relax(mo, ed, ew, dd, wd);
    var rained := Relax(wet, ed, ew, dd, wd);
    MoistureToFfmcAntitone(dry, rained);
    ClampMonotone(MoistureToFfmc(rained), MoistureToFfmc(dry), 0.0, 101.0);
  }

  // ---------------------------------------------------------------------------
  // Initial Spread Index
  // ---------------------------------------------------------------------------

  /** Wind function fW = exp(0.05039 W). */
  function WindFactor(f: Analytic, w: real): real
  {
    f.exp(0.05039 * w)
  }

  /** 1 + m^5.31 / 4.93e7, the correction of fF for wet fuel. */
  function WetFuelTerm(f: Analytic, m: real): real
  {
    1.0 + f.pow(m, 5.31) / 49300000.0
  }

  /** Fine-fuel function fF of the moisture content. */
  function FuelFactor(f: Analytic, m: real): real
  {
    91.9 * f.exp(-0.1386 * m) * WetFuelTerm(f, m)
  }

  /** Initial Spread Index from the day's FFMC and wind (km/h), floored at 0. */
  function Isi(f: Analytic, ffmc: real, w: real): (isi: real)
    ensures isi >= 0.0
  {
    Max(WindFactor(f, w) * FuelFactor(f, Moisture(ffmc)) * 0.208, 0.0)
  }

  /** The floor at 0 never engages: ISI is strictly positive. */
  lemma IsiPositive(f: Analytic, ffmc: real, w: real)
    requires Lawful(f)
    ensures Isi(f, ffmc, w) > 0.0
  {
    var m := Moisture(ffmc);
    assert WetFuelTerm(f, m) > 0.0;
    MulPositive(91.9 * f.exp(-0.1386 * m), WetFuelTerm(f, m));
    MulPositive(WindFactor(f, w), FuelFactor(f, m));
  }

  // ---------------------------------------------------------------------------
  // Duff Moisture Code
  // ---------------------------------------------------------------------------

  /** Effective day length by month, January to December. */
  const DayLengths: seq<real> := [6.5, 7.5, 9.0, 12.8, 13.9, 13.9, 12.4, 10.9, 9.4, 8.0, 7.0, 6.0]

  type Month = m: int | 1 <= m <= 12 witness 1

  function DayLength(month: Month): (le: real)
    ensures 6.0 <= le <= 13.9
  {
    var i := month - 1;
    assert forall j :: 0 <= j < 12 ==> 6.0 <= DayLengths[j] <= 13.9;
    DayLengths[i]
  }

  /** 1.894 (T + 1.1) (100 - H): the weather part of the duff drying rate. */
  function DuffWeather(tf: real, rh: real): real
  {
    1.894 * (tf + 1.1) * (100.0 - rh)
  }

  /** Daily duff drying K = 1.894 (T + 1.1) (100 - H) Le 10^-6, with the
      temperature first floored at -1.1 C. */
  function DuffDrying(t: real, rh: real, month: Month): (k: real)
    ensures rh <= 100.0 ==> k >= 0.0
    ensures t <= -1.1 || rh == 100.0 ==> k == 0.0
  {
    var tf := Max(t, -1.1);
    var k := DuffWeather(tf, rh) * DayLength(month) * 0.000001;
    assert rh <= 100.0 ==> k >= 0.0 by {
      if rh <= 100.0 {
        MulNonNegative(tf + 1.1, 100.0 - rh);
        MulNonNegative(DuffWeather(tf, rh), DayLength(month));
      }
    }
    k
  }

  /** Effective rain for the duff layer. */
  function DmcRain(rainMm: real): (re: real)
    ensures re >= 0.0
    ensures re > 0.0 <==> rainMm > 1.27 / 0.92
  {
    Max(0.92 * rainMm - 1.27, 0.0)
  }

  /** The slope `b` of the rain routine, by three ranges of the previous DMC. */
  function DuffSlope(f: Analytic, p0: real): real
  {
    if p0 <= 33.0 then EeDiv(100.0, 0.5 + 0.3 * p0)
    else if p0 <= 65.0 then 14.0 - 1.3 * f.ln(p0)
    else 6.2 * f.ln(p0) - 17.2
  }

  /** For a DMC of at most 33 the slope is positive. */
  lemma DuffSlopeLow(f: Analytic, p0: real)
    requires 0.0 <= p0 <= 33.0
    ensures DuffSlope(f, p0) > 0.0
  {
    EeDivPositive(100.0, 0.5 + 0.3 * p0);
  }

  /** With ln 65 anywhere in [2.8, 10] (it is about 4.17) the slope is
      positive over every range of the previous DMC. */
  lemma DuffSlopePositive(f: Analytic, p0: real)
    requires Lawful(f) && 0.0 <= p0 && 2.8 <= f.ln(65.0) <= 10.0
    ensures DuffSlope(f, p0) > 0.0
  {
    if p0 <= 33.0 {
      DuffSlopeLow(f, p0);
    } else if p0 <= 65.0 {
      assert f.ln(p0) <= f.ln(65.0);
    } else {
      assert f.ln(65.0) <= f.ln(p0);
    }
  }

  /** Lines 172-177 always take the first formula; for a previous DMC of 50
      it gives 100 / 15.5 (about 6.45) where the middle range gives
      14 - 1.3 ln 50 (about 8.91), so rain wets the duff more than intended. */
  lemma DuffSlopeAsWrittenLower(f: Analytic)
    requires Lawful(f) && f.ln(50.0) <= 4.0
    ensures EeDiv(100.0, 0.5 + 0.3 * 50.0) < DuffSlope(f, 50.0)
  {
    assert EeDiv(100.0, 0.5 + 0.3 * 50.0) == 100.0 / 15.5;
    assert 100.0 / 15.5 < 6.5;
  }

  /** Duff moisture content of a DMC value (Mo). */
  function DuffMoisture(f: Analytic, p0: real): real
  {
    20.0 + f.exp(5.6348 - p0 / 43.43)
  }

  /** Moisture added by the effective rain: 1000 re / (48.77 + b re). */
  function DuffWetting(f: Analytic, p0: real, re: real): real
  {
    EeDiv(1000.0 * re, 48.77 + DuffSlope(f, p0) * re)
  }

  /** DMC after the rain routine (Pr), floored at 0. */
  function DmcAfterRain(f: Analytic, p0: real, rainMm: real): (pr: real)
    ensures pr >= 0.0
  {
    var mr := DuffMoisture(f, p0) + DuffWetting(f, p0, DmcRain(rainMm));
    Max(244.72 - 43.43 * f.ln(mr - 20.0), 0.0)
  }

  /** Next day's DMC: the rain routine only for more than 1.5 mm, then the
      drying term, floored at 0. */
  function DmcNext(f: Analytic, p0: real, t: real, rh: real, rainMm: real, month: Month): (dmc: real)
    ensures dmc >= 0.0
    ensures rainMm > 1.5 ==> dmc == Max(DmcAfterRain(f, p0, rainMm) + 100.0 * DuffDrying(t, rh, month), 0.0)
    ensures rainMm <= 1.5 ==> dmc == Max(p0 + 100.0 * DuffDrying(t, rh, month), 0.0)
  {
    var base := if rainMm > 1.5 then DmcAfterRain(f, p0, rainMm) else p0;
    Max(base + 100.0 * DuffDrying(t, rh, month), 0.0)
  }

  /** Rain of 1.5 mm or less has no effect, and then a DMC never falls. */
  lemma DmcRainThreshold(f: Analytic, p0: real, t: real, rh: real, rainMm: real, month: Month)
    requires rainMm <= 1.5
    ensures DmcNext(f, p0, t, rh, rainMm, month) == DmcNext(f, p0, t, rh, 0.0, month)
    ensures 0.0 <= p0 && rh <= 100.0 ==> DmcNext(f, p0, t, rh, rainMm, month) >= p0
  {
  }

  /** With a non-negative slope b the rain routine never raises the DMC by
      more than 0.000636, the amount by which 244.72 exceeds 43.43 * 5.6348. */
  lemma DmcAfterRainBound(f: Analytic, p0: real, rainMm: real)
    requires Lawful(f) && 0.0 <= p0 && DuffSlope(f, p0) >= 0.0
    ensures DmcAfterRain(f, p0, rainMm) <= p0 + 0.000636
  {
    var re := DmcRain(rainMm);
    MulNonNegative(DuffSlope(f, p0), re);
    EeDivNonNegative(1000.0 * re, 48.77 + DuffSlope(f, p0) * re);
    var x := 5.6348 - p0 / 43.43;
    var mr := DuffMoisture(f, p0) + DuffWetting(f, p0, re);
    assert f.ln(f.exp(x)) <= f.ln(mr - 20.0);
  }

  /** So a rainy day never ends with a DMC more than 0.000636 above the same
      day without rain. */
  lemma DmcRainNeverRaises(f: Analytic, p0: real, t: real, rh: real, rainMm: real, month: Month)
    requires Lawful(f) && 0.0 <= p0 && DuffSlope(f, p0) >= 0.0
    ensures DmcNext(f, p0, t, rh, rainMm, month) <= DmcNext(f, p0, t, rh, 0.0, month) + 0.000636
  {
    DmcAfterRainBound(f, p0, rainMm);
  }

  /** DMC as lines 172-177 and 189 evaluate: both condition images are always
      truthy, so the slope is always 100 / (0.5 + 0.3 P0) and the rain
      routine runs every day. */
  function DmcNextAsWritten(f: Analytic, p0: real, t: real, rh: real, rainMm: real, month: Month): (dmc: real)
    ensures dmc >= 0.0
  {
    var re := DmcRain(rainMm);
    var mr := DuffMoisture(f, p0) + EeDiv(1000.0 * re, 48.77 + EeDiv(100.0, 0.5 + 0.3 * p0) * re);
    var pr := Max(244.72 - 43.43 * f.ln(mr - 20.0), 0.0);
    Max(pr + 100.0 * DuffDrying(t, rh, month), 0.0)
  }

  /** On a day without effective rain the code as written runs the rain
      routine anyway, which returns P0 + 0.000636 instead of P0: DMC creeps
      up by 0.000636 a day that the intended recurrence does not add. */
  lemma DmcAsWrittenDrifts(f: Analytic, p0: real, t: real, rh: real, rainMm: real, month: Month)
    requires Lawful(f) && 0.0 <= p0 && rh <= 100.0 && rainMm <= 1.27 / 0.92
    ensures DmcNextAsWritten(f, p0, t, rh, rainMm, month) == DmcNext(f, p0, t, rh, rainMm, month) + 0.000636
  {
    var x := 5.6348 - p0 / 43.43;
    assert DmcRain(rainMm) == 0.0;
    assert DuffMoisture(f, p0) - 20.0 == f.exp(x);
    assert f.ln(f.exp(x)) == x;
    assert 244.72 - 43.43 * x == p0 + 0.000636;
  }


  // ---------------------------------------------------------------------------
  // Drought Code
  // ---------------------------------------------------------------------------

  /** Effective rain for the drought code. */
  function DcRain(rainMm: real): (re: real)
    ensures re >= 0.0
    ensures re > 0.0 <==> rainMm > 1.27 / 0.83
  {
    Max(0.83 * rainMm - 1.27, 0.0)
  }

  /** The rain reduction 400 re / (re + 800) (the divisor is at least 800). */
  function DcReduction(re: real): (red: real)
    requires re >= 0.0
    ensures 0.0 <= red < 400.0
    ensures red == 0.0 <==> re == 0.0
  {
    QuotientBelow(re * 400.0, re + 800.0, 400.0);
    QuotientBounds(re * 400.0, re + 800.0, 0.0, 400.0);
    assert re > 0.0 ==> re * 400.0 / (re + 800.0) > 0.0 by {
      if re > 0.0 {
        QuotientPositive(re * 400.0, re + 800.0);
      }
    }
    re * 400.0 / (re + 800.0)
  }

  /** Next day's DC: reduced by rain of more than 2.8 mm, otherwise raised by
      0.05 per degree C; floored at 0. */
  function DcNext(dcPrev: real, t: real, rainMm: real): (dc: real)
    ensures dc >= 0.0
    ensures rainMm > 2.8 ==> dc == Max(dcPrev - DcReduction(DcRain(rainMm)), 0.0)
    ensures rainMm <= 2.8 ==> dc == Max(dcPrev + 0.05 * t, 0.0)
  {
    Max(if rainMm > 2.8 then dcPrev - DcReduction(DcRain(rainMm)) else dcPrev + 0.05 * t, 0.0)
  }

  /** Rain of more than 2.8 mm lowers a positive DC, by less than 400. */
  lemma DcRainReduces(dcPrev: real, t: real, rainMm: real)
    requires rainMm > 2.8
    ensures dcPrev - 400.0 < DcNext(dcPrev, t, rainMm) <= Max(dcPrev, 0.0)
    ensures dcPrev > 0.0 ==> DcNext(dcPrev, t, rainMm) < dcPrev
  {
  }

  /** Without enough rain DC rises on a warm day by 0.05 per degree C. */
  lemma DcDryingRaises(dcPrev: real, t: real, rainMm: real)
    requires rainMm <= 2.8 && dcPrev >= 0.0
    ensures t > 0.0 ==> DcNext(dcPrev, t, rainMm) > dcPrev
    ensures t >= -20.0 * dcPrev ==> DcNext(dcPrev, t, rainMm) == dcPrev + 0.05 * t
  {
  }

  /** DC as line 205 evaluates it: `ee.Algorithms.If` tests the truthiness of
      the condition object, and an image is always truthy, so the rain branch
      is taken every day and DC can never rise. */
  function DcNextAsWritten(dcPrev: real, t: real, rainMm: real): (dc: real)
    ensures dc >= 0.0
    ensures dc <= Max(dcPrev, 0.0)
  {
    Max(dcPrev - DcReduction(DcRain(rainMm)), 0.0)
  }

  /** On a dry warm day the code as written keeps DC where it was, where the
      intended recurrence raises it: from DC 100 at 30 C without rain it
      stays at 100 instead of rising to 101.5. */
  lemma DcAsWrittenNeverDries(dcPrev: real, t: real, rainMm: real)
    requires dcPrev >= 0.0 && t > 0.0 && 0.0 <= rainMm <= 1.5
    ensures DcNextAsWritten(dcPrev, t, rainMm) == dcPrev < DcNext(dcPrev, t, rainMm)
    ensures DcNextAsWritten(100.0, 30.0, 0.0) == 100.0 && DcNext(100.0, 30.0, 0.0) == 101.5
  {
    assert DcRain(rainMm) == 0.0;
    assert DcRain(0.0) == 0.0;
  }

  // ---------------------------------------------------------------------------
  // Buildup Index
  // ---------------------------------------------------------------------------

  /** BUI when DMC is at most 0.4 DC. */
  function BuiLow(dmc: real, dc: real): real
  {
    EeDiv(dmc * (0.8 * dc), dmc + 0.4 * dc)
  }

  /** 1 - 0.8 DC / (DMC + 0.4 DC), the weight of the correction in the
      second case. */
  function BuiWeight(dmc: real, dc: real): real
  {
    1.0 - EeDiv(0.8 * dc, dmc + 0.4 * dc)
  }

  /** BUI when DMC exceeds 0.4 DC. */
  function BuiHigh(f: Analytic, dmc: real, dc: real): real
  {
    dmc - BuiWeight(dmc, dc) * (0.92 + f.pow(0.0114 * dmc, 1.7))
  }

  /** Buildup Index from the day's DMC and DC, floored at 0. */
  function Bui(f: Analytic, dmc: real, dc: real): (bui: real)
    ensures bui >= 0.0
    ensures dmc <= 0.4 * dc ==> bui == Max(BuiLow(dmc, dc), 0.0)
    ensures dmc > 0.4 * dc ==> bui == Max(BuiHigh(f, dmc, dc), 0.0)
  {
    Max(if dmc <= 0.4 * dc then BuiLow(dmc, dc) else BuiHigh(f, dmc, dc), 0.0)
  }

  /** For valid codes in the first case, BUI lies between DMC and 0.8 DC. */
  lemma BuiLowBounds(f: Analytic, dmc: real, dc: real)
    requires 0.0 <= dmc <= 0.4 * dc
    ensures dmc <= Bui(f, dmc, dc) <= 0.8 * dc
  {
    var s, t := dmc + 0.4 * dc, 0.8 * dc;
    if s > 0.0 {
      ScaledQuotient(dmc, s, t);
      assert BuiLow(dmc, dc) == dmc * t / s;
      assert dmc <= BuiLow(dmc, dc) <= t;
    }
  }

  /** For valid codes in the second case, BUI is below DMC and above DMC less
      the full correction 0.92 + (0.0114 DMC)^1.7: it tracks DMC. */
  lemma BuiHighBounds(f: Analytic, dmc: real, dc: real)
    requires Lawful(f) && 0.0 <= dc && 0.4 * dc < dmc
    ensures dmc - (0.92 + f.pow(0.0114 * dmc, 1.7)) <= Bui(f, dmc, dc) < dmc
  {
    EeDivBelow(0.8 * dc, dmc + 0.4 * dc, 1.0);
    EeDivNonNegative(0.8 * dc, dmc + 0.4 * dc);
    var w, g := BuiWeight(dmc, dc), 0.92 + f.pow(0.0114 * dmc, 1.7);
    var wg := w * g;
    MulPositive(w, g);
    assert w <= 1.0 && g > 0.0;
    MulMonotone(w, 1.0, g);
    assert 0.0 < wg <= g;
    var high := BuiHigh(f, dmc, dc);
    assert high == dmc - wg;
    assert Bui(f, dmc, dc) == Max(high, 0.0);
  }

  /** The two cases agree where they meet, at DMC == 0.4 DC: BUI == DMC. */
  lemma BuiContinuousAtSwitch(f: Analytic, dc: real)
    requires dc > 0.0
    ensures BuiLow(0.4 * dc, dc) == 0.4 * dc
    ensures BuiHigh(f, 0.4 * dc, dc) == 0.4 * dc
  {
    var dmc, t := 0.4 * dc, 0.8 * dc;
    EeDivCancel(dmc, t, dmc + 0.4 * dc);
    assert BuiLow(dmc, dc) == EeDiv(dmc * t, dmc + 0.4 * dc);
    EeDivSelf(t, dmc + 0.4 * dc);
    assert BuiWeight(dmc, dc) == 0.0;
  }

  /** BUI as line 227 evaluates it: the condition image is always truthy, so
      the first formula is used for every DMC. */
  function BuiAsWritten(dmc: real, dc: real): (bui: real)
    ensures bui >= 0.0
  {
    Max(BuiLow(dmc, dc), 0.0)
  }

  /** As written BUI never exceeds 0.8 DC however large DMC grows: at
      DMC = DC = 100 it is 400/7 (about 57.1), where the intended second
      formula gives more than 99 for any (0.0114 * 100)^1.7 up to 1.3. */
  lemma BuiAsWrittenCapped(f: Analytic, dmc: real, dc: real)
    requires 0.0 <= dmc && 0.0 <= dc
    ensures BuiAsWritten(dmc, dc) <= 0.8 * dc
    ensures BuiAsWritten(100.0, 100.0) == 400.0 / 7.0
    ensures f.pow(1.14, 1.7) <= 1.3 ==> Bui(f, 100.0, 100.0) > 99.0
  {
    var s, t := dmc + 0.4 * dc, 0.8 * dc;
    if s > 0.0 {
      MulMonotone(dmc, s, t);
      DivTimes(dmc * t, s);
      QuotientMonotone(dmc * t, s * t, s);
      QuotientOfProduct(s, t);
      assert BuiLow(dmc, dc) == dmc * t / s;
    }
    assert EeDiv(100.0 * 80.0, 140.0) == 400.0 / 7.0;
    assert EeDiv(80.0, 140.0) == 4.0 / 7.0;
    var p := f.pow(0.0114 * 100.0, 1.7);
    assert 0.0114 * 100.0 == 1.14;
    assert BuiHigh(f, 100.0, 100.0) == 100.0 - (3.0 / 7.0) * (0.92 + p);
  }


  // ---------------------------------------------------------------------------
  // Fire Weather Index
  // ---------------------------------------------------------------------------

  /** Duff factor fD: power form up to BUI 80, rational form above. */
  function DuffFactor(f: Analytic, bui: real): real
  {
    if bui <= 80.0 then 0.626 * f.pow(bui, 0.809) + 2.0
    else EeDiv(1000.0, 25.0 + 108.64 * f.exp(-0.023 * bui))
  }

  lemma DuffFactorBounds(f: Analytic, bui: real)
    requires Lawful(f) && 0.0 <= bui
    ensures bui <= 80.0 ==> DuffFactor(f, bui) >= 2.0
    ensures bui > 80.0 ==> 0.0 < DuffFactor(f, bui) < 40.0
  {
    if bui > 80.0 {
      var d := 25.0 + 108.64 * f.exp(-0.023 * bui);
      EeDivBelow(1000.0, d, 40.0);
      EeDivPositive(1000.0, d);
    }
  }

  /** The intermediate B = 0.1 * ISI * fD. */
  function Intensity(f: Analytic, isi: real, bui: real): real
  {
    isi * DuffFactor(f, bui) * 0.1
  }

  /** Fire Weather Index from the day's ISI and BUI, floored at 0. */
  function Fwi(f: Analytic, isi: real, bui: real): (fwi: real)
    ensures fwi >= 0.0
    ensures Intensity(f, isi, bui) <= 1.0 ==> fwi == Max(Intensity(f, isi, bui), 0.0)
  {
    var b := Intensity(f, isi, bui);
    Max(if b <= 1.0 then b else f.exp(2.72 * f.pow(0.434 * f.ln(b), 0.647)), 0.0)
  }

  /** For valid indices, FWI is B itself up to 1 and is positive exactly when
      ISI is. */
  lemma FwiRegimes(f: Analytic, isi: real, bui: real)
    requires Lawful(f) && 0.0 <= isi && 0.0 <= bui
    ensures Intensity(f, isi, bui) >= 0.0
    ensures Intensity(f, isi, bui) <= 1.0 ==> Fwi(f, isi, bui) == Intensity(f, isi, bui)
    ensures Fwi(f, isi, bui) > 0.0 <==> isi > 0.0
  {
    DuffFactorBounds(f, bui);
    MulNonNegative(isi, DuffFactor(f, bui));
    if isi > 0.0 {
      MulPositive(isi, DuffFactor(f, bui));
    }
  }

  /** Above B = 1 the intended FWI is exp(2.72 (0.434 ln B)^0.647), and for B
      up to about 10 (0.434 ln B at most 1) it exceeds B. */
  lemma FwiHighRegime(f: Analytic, isi: real, bui: real)
    requires Lawful(f)
    ensures Intensity(f, isi, bui) > 1.0 ==>
              Fwi(f, isi, bui) == f.exp(2.72 * f.pow(0.434 * f.ln(Intensity(f, isi, bui)), 0.647))
    ensures Intensity(f, isi, bui) > 1.0 && 0.434 * f.ln(Intensity(f, isi, bui)) <= 1.0 ==>
              Fwi(f, isi, bui) > Intensity(f, isi, bui)
  {
    var b := Intensity(f, isi, bui);
    if b > 1.0 {
      var l := f.ln(b);
      assert f.exp(l) == b;
      assert f.exp(0.0) == 1.0;
      assert l > 0.0;
      var c := 0.434 * l;
      if c <= 1.0 {
        var p := f.pow(c, 0.647);
        assert c <= p;
        assert l < 2.72 * p;
        assert f.exp(l) < f.exp(2.72 * p);
      }
    }
  }

  /** B as lines 242 and 244 evaluate it: the condition image of line 242 is
      always truthy, so the power form of fD is used for every BUI. */
  function IntensityAsWritten(f: Analytic, isi: real, bui: real): real
  {
    isi * (0.626 * f.pow(bui, 0.809) + 2.0) * 0.1
  }

  /** FWI as line 251 evaluates it: always B itself, floored at 0. */
  function FwiAsWritten(f: Analytic, isi: real, bui: real): (fwi: real)
    ensures fwi >= 0.0
  {
    Max(IntensityAsWritten(f, isi, bui), 0.0)
  }

  /** Line 242 always takes the power form of fD; above BUI 80 it exceeds the
      intended bounded form. At BUI 200 (200^0.809 is about 72.7) it gives
      about 47.5 where the intended form gives about 38.3, which raises B. */
  lemma DuffFactorAsWrittenTooHigh(f: Analytic)
    requires Lawful(f) && f.pow(200.0, 0.809) >= 61.0
    ensures DuffFactor(f, 200.0) < 40.0 < 0.626 * f.pow(200.0, 0.809) + 2.0
    ensures Intensity(f, 1.0, 200.0) < IntensityAsWritten(f, 1.0, 200.0)
  {
    DuffFactorBounds(f, 200.0);
  }

  /** Up to BUI 80 both read the same B, but for B above 1 (and up to about
      10) the code as written reports B where the intended FWI is larger: at
      ISI 3 and BUI 20, B is about 2.7 and the intended FWI about 4.9. */
  lemma FwiAsWrittenTooLow(f: Analytic, isi: real, bui: real)
    requires Lawful(f) && 0.0 <= isi && 0.0 <= bui <= 80.0
    requires 1.0 < Intensity(f, isi, bui) && 0.434 * f.ln(Intensity(f, isi, bui)) <= 1.0
    ensures FwiAsWritten(f, isi, bui) == Intensity(f, isi, bui) < Fwi(f, isi, bui)
  {
    FwiHighRegime(f, isi, bui);
    assert IntensityAsWritten(f, isi, bui) == Intensity(f, isi, bui);
  }

}
