/** Threat aggregation of backend/FireThreatEstimator.py: fire power, spread
    and exposure are each normalised to [0, 1], combined with the user's
    renormalised weights into a clamped score, and the score is classified
    into three levels. */
module FireThreat {
  import opened Numeric
  import opened FireWeatherIndex
  import opened DailyRecurrence

  /** Normalisation caps. */
  const FrpMax: real := 200.0
  const PopMax: real := 500.0
  const FwiCap: real := 50.0

  // ---------------------------------------------------------------------------
  // Normalisation and the spread index
  // ---------------------------------------------------------------------------

  /** `normalize`: val / max clamped to [0, 1]. */
  function Normalize(val: real, max: real): (r: real)
    ensures 0.0 <= r <= 1.0
  {
    Clamp(EeDiv(val, max), 0.0, 1.0)
  }

  /** For a positive cap: values up to 0 give 0, values from the cap on give
      1, values in between give their share of the cap, and larger values
      never give less. */
  lemma NormalizeLaws(val: real, other: real, max: real)
    requires max > 0.0
    ensures val <= 0.0 ==> Normalize(val, max) == 0.0
    ensures val >= max ==> Normalize(val, max) == 1.0
    ensures 0.0 <= val <= max ==> Normalize(val, max) * max == val
    ensures val <= other ==> Normalize(val, max) <= Normalize(other, max)
  {
    DivTimes(val, max);
    if val <= 0.0 {
      QuotientMonotone(val, 0.0, max);
    }
    if val >= max {
      QuotientMonotone(max, val, max);
      DivTimes(1.0, max);
      QuotientBounds(max, max, 1.0, 1.0);
    }
    if 0.0 <= val <= max {
      QuotientBounds(val, max, 0.0, 1.0);
    }
    if val <= other {
      QuotientMonotone(val, other, max);
      ClampMonotone(EeDiv(val, max), EeDiv(other, max), 0.0, 1.0);
    }
  }

  /** The slope modifier 1 + 0.3 clamp(slope / 45, 0, 1). */
  function SlopeFactor(slopeDeg: real): (sf: real)
    ensures 1.0 <= sf <= 1.3
    ensures slopeDeg <= 0.0 ==> sf == 1.0
    ensures slopeDeg >= 45.0 ==> sf == 1.3
  {
    Clamp(EeDiv(slopeDeg, 45.0), 0.0, 1.0) * 0.3 + 1.0
  }

  /** Spread at one pixel: the normalised FWI scaled by the slope factor,
      clamped to [0, 1]. */
  function SpreadValue(fwi: real, slopeDeg: real): (s: real)
    ensures 0.0 <= s <= 1.0
  {
    Clamp(Normalize(fwi, FwiCap) * SlopeFactor(slopeDeg), 0.0, 1.0)
  }

  /** No fire weather means no spread, fire weather at the cap means full
      spread, and on flat ground the spread is the normalised FWI. */
  lemma SpreadValueLaws(fwi: real, slopeDeg: real)
    ensures fwi <= 0.0 ==> SpreadValue(fwi, slopeDeg) == 0.0
    ensures fwi >= FwiCap ==> SpreadValue(fwi, slopeDeg) == 1.0
    ensures slopeDeg <= 0.0 ==> SpreadValue(fwi, slopeDeg) == Normalize(fwi, FwiCap)
  {
    NormalizeLaws(fwi, fwi, FwiCap);
    var n, sf := Normalize(fwi, FwiCap), SlopeFactor(slopeDeg);
    MulMonotone(1.0, sf, n);
  }

  /** The mean of a region's pixel values, or nothing for an empty region. */
  function Mean(values: seq<real>): Option<real>
  {
    if |values| == 0 then None else Some(Sum(values) / (|values| as real))
  }

  lemma {:induction false} SumBounds(values: seq<real>)
    requires forall i :: 0 <= i < |values| ==> 0.0 <= values[i] <= 1.0
    ensures 0.0 <= Sum(values) <= |values| as real
  {
    if |values| > 0 {
      SumBounds(values[..|values| - 1]);
    }
  }

  /** `mean_in_aoi`: the regional mean, 0 when the region yields nothing. */
  function AoiMean(values: seq<real>): real
  {
    SafeNumber(Mean(values), 0.0)
  }

  /** The mean of values in [0, 1] is in [0, 1]. */
  lemma AoiMeanBounds(values: seq<real>)
    requires forall i :: 0 <= i < |values| ==> 0.0 <= values[i] <= 1.0
    ensures 0.0 <= AoiMean(values) <= 1.0
  {
    if |values| > 0 {
      SumBounds(values);
      QuotientBounds(Sum(values), |values| as real, 0.0, 1.0);
    }
  }

  /** The spread value of each pixel of the region. */
  function SpreadValues(fwi: real, pixelSlopes: seq<real>): (values: seq<real>)
    ensures |values| == |pixelSlopes|
    ensures forall i :: 0 <= i < |values| ==> values[i] == SpreadValue(fwi, pixelSlopes[i])
  {
    seq(|pixelSlopes|, i requires 0 <= i < |pixelSlopes| => SpreadValue(fwi, pixelSlopes[i]))
  }

  /** The spread index: the regional mean of the pixel spread values. */
  function SpreadIndex(fwi: real, pixelSlopes: seq<real>): (s: real)
    ensures 0.0 <= s <= 1.0
  {
    AoiMeanBounds(SpreadValues(fwi, pixelSlopes));
    AoiMean(SpreadValues(fwi, pixelSlopes))
  }

  /** Without fire weather there is no spread anywhere in the region. */
  lemma SpreadIndexCalm(fwi: real, pixelSlopes: seq<real>)
    requires fwi <= 0.0
    ensures SpreadIndex(fwi, pixelSlopes) == 0.0
  {
    var values := SpreadValues(fwi, pixelSlopes);
    forall i | 0 <= i < |values| ensures values[i] == 0.0 {
      SpreadValueLaws(fwi, pixelSlopes[i]);
    }
    SumZero(values);
  }

  lemma {:induction false} SumZero(values: seq<real>)
    requires forall i :: 0 <= i < |values| ==> values[i] == 0.0
    ensures Sum(values) == 0.0
  {
    if |values| > 0 {
      SumZero(values[..|values| - 1]);
    }
  }

  // ---------------------------------------------------------------------------
  // Weights
  // ---------------------------------------------------------------------------

  datatype Weights = Weights(fire: real, spread: real, exposure: real)

  /** The weights used when the request names none. */
  const DefaultWeights: Weights := Weights(0.25, 0.35, 0.40)

  /** A requested weight, clamped to [0.10, 1.0]. */
  function ClampWeight(x: real): (r: real)
    ensures 0.10 <= r <= 1.0
  {
    Clamp(x, 0.10, 1.0)
  }

  function Requested(x: Option<real>, default: real): real
  {
    if x.Some? then x.value else default
  }

  /** Three shares of their positive total. */
  function Shares(a: real, b: real, c: real): (w: Weights)
    requires 0.0 < a + b + c
  {
    var total := a + b + c;
    Weights(a / total, b / total, c / total)
  }

  lemma SharesSumToOne(a: real, b: real, c: real)
    requires 0.0 < a + b + c
    ensures Shares(a, b, c).fire + Shares(a, b, c).spread + Shares(a, b, c).exposure == 1.0
  {
    var t := a + b + c;
    QuotientSum(a, b, c, t);
  }

  /** The route's weights: each requested weight (or its default) clamped to
      [0.10, 1.0], then divided by their total. */
  function RouteWeights(wFire: Option<real>, wSpread: Option<real>, wExposure: Option<real>): (w: Weights)
    ensures w.fire + w.spread + w.exposure == 1.0
    ensures 1.0 / 21.0 <= w.fire <= 5.0 / 6.0
    ensures 1.0 / 21.0 <= w.spread <= 5.0 / 6.0
    ensures 1.0 / 21.0 <= w.exposure <= 5.0 / 6.0
  {
    var a := ClampWeight(Requested(wFire, DefaultWeights.fire));
    var b := ClampWeight(Requested(wSpread, DefaultWeights.spread));
    var c := ClampWeight(Requested(wExposure, DefaultWeights.exposure));
    SharesSumToOne(a, b, c);
    ShareBounds(a, b, c);
    ShareBounds(b, c, a);
    ShareBounds(c, a, b);
    Shares(a, b, c)
  }

  /** A clamped weight is at least 1/21 and at most 5/6 of the total. */
  lemma ShareBounds(a: real, b: real, c: real)
    requires 0.10 <= a <= 1.0 && 0.10 <= b <= 1.0 && 0.10 <= c <= 1.0
    ensures 1.0 / 21.0 <= a / (a + b + c) <= 5.0 / 6.0
    ensures 1.0 / 21.0 <= a / (b + c + a) <= 5.0 / 6.0
    ensures 1.0 / 21.0 <= a / (c + a + b) <= 5.0 / 6.0
  {
    QuotientBounds(a, a + b + c, 1.0 / 21.0, 5.0 / 6.0);
    assert b + c + a == a + b + c && c + a + b == a + b + c;
  }

  /** Renormalisation keeps the order of the clamped weights. */
  lemma RouteWeightsOrder(x: real, y: real, z: real)
    requires ClampWeight(x) <= ClampWeight(y)
    ensures RouteWeights(Some(x), Some(y), Some(z)).fire <= RouteWeights(Some(x), Some(y), Some(z)).spread
  {
    var a, b, c := ClampWeight(x), ClampWeight(y), ClampWeight(z);
    QuotientMonotone(a, b, a + b + c);
  }

  /** Weights in [0.10, 1.0] that already sum to 1 are kept as they are; the
      defaults are such weights. */
  lemma RouteWeightsKeepNormalised(x: real, y: real, z: real)
    requires 0.10 <= x <= 1.0 && 0.10 <= y <= 1.0 && 0.10 <= z <= 1.0 && x + y + z == 1.0
    ensures RouteWeights(Some(x), Some(y), Some(z)) == Weights(x, y, z)
    ensures RouteWeights(None, None, None) == DefaultWeights
  {
  }

  // ---------------------------------------------------------------------------
  // Score and level
  // ---------------------------------------------------------------------------

  /** The weighted sum of the three sub-scores, clamped to [0, 1]. */
  function ThreatScore(firePower: real, spread: real, exposure: real, w: Weights): (s: real)
    ensures 0.0 <= s <= 1.0
  {
    Clamp(firePower * w.fire + spread * w.spread + exposure * w.exposure, 0.0, 1.0)
  }

  /** With sub-scores in [0, 1] and weights summing to 1 the clamp never
      engages: the score is the weighted mean, between the smallest and the
      largest sub-score. */
  lemma ThreatScoreConvex(firePower: real, spread: real, exposure: real, w: Weights)
    requires 0.0 <= firePower <= 1.0 && 0.0 <= spread <= 1.0 && 0.0 <= exposure <= 1.0
    requires 0.0 <= w.fire && 0.0 <= w.spread && 0.0 <= w.exposure
    requires w.fire + w.spread + w.exposure == 1.0
    ensures ThreatScore(firePower, spread, exposure, w)
            == firePower * w.fire + spread * w.spread + exposure * w.exposure
    ensures Min(firePower, Min(spread, exposure)) <= ThreatScore(firePower, spread, exposure, w)
    ensures ThreatScore(firePower, spread, exposure, w) <= Max(firePower, Max(spread, exposure))
  {
    var sum := firePower * w.fire + spread * w.spread + exposure * w.exposure;
    ConvexBetween(firePower, spread, exposure, w.fire, w.spread, w.exposure, 0.0, 1.0);
    assert 0.0 <= sum <= 1.0;
    assert ThreatScore(firePower, spread, exposure, w) == Clamp(sum, 0.0, 1.0) == sum;
    var lo, hi := Min(firePower, Min(spread, exposure)), Max(firePower, Max(spread, exposure));
    ConvexBetween(firePower, spread, exposure, w.fire, w.spread, w.exposure, lo, hi);
  }

  /** A higher sub-score never lowers the score. */
  lemma ThreatScoreMonotone(fp1: real, fp2: real, sp1: real, sp2: real, ex1: real, ex2: real, w: Weights)
    requires fp1 <= fp2 && sp1 <= sp2 && ex1 <= ex2
    requires 0.0 <= w.fire && 0.0 <= w.spread && 0.0 <= w.exposure
    ensures ThreatScore(fp1, sp1, ex1, w) <= ThreatScore(fp2, sp2, ex2, w)
  {
    WeightedMonotone(fp1, fp2, sp1, sp2, ex1, ex2, w.fire, w.spread, w.exposure);
    ClampMonotone(fp1 * w.fire + sp1 * w.spread + ex1 * w.exposure,
                  fp2 * w.fire + sp2 * w.spread + ex2 * w.exposure, 0.0, 1.0);
  }

  datatype ThreatLevel = Low | Medium | High

  /** The level of a score: low below 0.33, medium below 0.66, else high. */
  function Classify(score: real): (l: ThreatLevel)
    ensures l == Low <==> score < 0.33
    ensures l == Medium <==> 0.33 <= score < 0.66
    ensures l == High <==> score >= 0.66
  {
    if score < 0.33 then Low else if score < 0.66 then Medium else High
  }

  function Rank(l: ThreatLevel): nat
  {
    match l
    case Low => 0
    case Medium => 1
    case High => 2
  }

  /** A higher score never gets a lower level. */
  lemma ClassifyMonotone(s: real, t: real)
    requires s <= t
    ensures Rank(Classify(s)) <= Rank(Classify(t))
  {
  }

  /** The level's label as the service reports it. */
  function Label(l: ThreatLevel): string
  {
    match l
    case Low => "منخفضة"
    case Medium => "متوسطة"
    case High => "عالية"
  }

  /** The label reported for a score: each of the three labels exactly on its
      band of scores. */
  lemma LabelOfScore(score: real)
    ensures Label(Classify(score)) == "منخفضة" <==> score < 0.33
    ensures Label(Classify(score)) == "متوسطة" <==> 0.33 <= score < 0.66
    ensures Label(Classify(score)) == "عالية" <==> score >= 0.66
  {
    assert "منخفضة" != "متوسطة" && "منخفضة" != "عالية" && "متوسطة" != "عالية" by {
      assert "منخفضة"[1] != "متوسطة"[1];
      assert "منخفضة"[0] != "عالية"[0];
      assert "متوسطة"[0] != "عالية"[0];
    }
  }

  // ---------------------------------------------------------------------------
  // The whole computation for one query
  // ---------------------------------------------------------------------------

  /** The ISI and FWI of the queried day. */
  datatype DayIndices = DayIndices(isi: real, fwi: real)

  /** What replaces a missing day: all zero. */
  const ZeroDay: DayIndices := DayIndices(0.0, 0.0)

  /** The first record at or after position `from` dated `day`. */
  function FindDay(records: seq<DayRecord>, day: int, from: nat): (k: Option<nat>)
    requires from <= |records|
    ensures k.Some? ==> from <= k.value < |records| && records[k.value].sample.date == day
    ensures k.Some? ==> forall j :: from <= j < k.value ==> records[j].sample.date != day
    ensures k.None? ==> forall j :: from <= j < |records| ==> records[j].sample.date != day
    decreases |records| - from
  {
    if from == |records| then None
    else if records[from].sample.date == day then Some(from)
    else FindDay(records, day, from + 1)
  }

  /** The indices of the first record dated `day`, or the zero day. */
  function SelectDay(records: seq<DayRecord>, day: int): (d: DayIndices)
    ensures (forall i :: 0 <= i < |records| ==> ValidRecord(records[i])) ==> d.isi >= 0.0 && d.fwi >= 0.0
  {
    var k := FindDay(records, day, 0);
    if k.Some? then DayIndices(records[k.value].isi, records[k.value].fwi) else ZeroDay
  }

  /** SelectDay takes the earliest matching record, and the zero day exactly
      when no record matches. */
  lemma SelectDayFirstMatch(records: seq<DayRecord>, day: int, i: int)
    requires 0 <= i < |records| && records[i].sample.date == day
    requires forall j :: 0 <= j < i ==> records[j].sample.date != day
    ensures SelectDay(records, day) == DayIndices(records[i].isi, records[i].fwi)
  {
    var k := FindDay(records, day, 0);
    assert k.Some?;
    assert k.value == i;
  }

  lemma SelectDayMissing(records: seq<DayRecord>, day: int)
    requires forall j :: 0 <= j < |records| ==> records[j].sample.date != day
    ensures SelectDay(records, day) == ZeroDay
  {
  }

  /** One threat query: the day number, the window's daily inputs starting at
      that day, the region's strongest fire radiative power (MW), the slopes
      of its pixels (degrees), its mean population, and the weights. */
  datatype ThreatQuery = ThreatQuery(day: int, window: seq<DayInput>, frpMax: Option<real>,
                                     pixelSlopes: seq<real>, popMean: Option<real>, weights: Weights)

  datatype ThreatResult = ThreatResult(frpMax: real, firePower: real, isi: real, fwi: real,
                                       spreadIndex: real, popMean: real, exposure: real,
                                       score: real, level: ThreatLevel, levelLabel: string)

  /** The queried day's ISI and FWI from the recurrence over the window. */
  function QueryDay(f: Analytic, q: ThreatQuery): (d: DayIndices)
    ensures d.isi >= 0.0 && d.fwi >= 0.0
  {
    SelectDay(Run(f, DailySeries(f, q.day, q.window)), q.day)
  }

  /** The aggregation of the day's indices with fire power, slopes and
      population into the score and level. */
  function Assess(frpMax: Option<real>, d: DayIndices, pixelSlopes: seq<real>, popMean: Option<real>,
                  weights: Weights): (r: ThreatResult)
    ensures 0.0 <= r.firePower <= 1.0 && 0.0 <= r.spreadIndex <= 1.0 && 0.0 <= r.exposure <= 1.0
    ensures 0.0 <= r.score <= 1.0
    ensures r.isi == d.isi && r.fwi == d.fwi
    ensures r.level == Classify(r.score) && r.levelLabel == Label(r.level)
    ensures r.score == ThreatScore(r.firePower, r.spreadIndex, r.exposure, weights)
  {
    var frp := SafeNumber(frpMax, 0.0);
    var pop := SafeNumber(popMean, 0.0);
    var firePower := Normalize(frp, FrpMax);
    var spread := SpreadIndex(d.fwi, pixelSlopes);
    var exposure := Normalize(pop, PopMax);
    var score := ThreatScore(firePower, spread, exposure, weights);
    var level := Classify(score);
    ThreatResult(frp, firePower, d.isi, d.fwi, spread, pop, exposure, score, level, Label(level))
  }

  /** `compute_fire_threat` on the scalar outputs of the data sources. */
  function ComputeFireThreat(f: Analytic, q: ThreatQuery): (r: ThreatResult)
    ensures 0.0 <= r.firePower <= 1.0 && 0.0 <= r.spreadIndex <= 1.0 && 0.0 <= r.exposure <= 1.0
    ensures 0.0 <= r.score <= 1.0
    ensures r.isi >= 0.0 && r.fwi >= 0.0
    ensures r.level == Classify(r.score) && r.levelLabel == Label(r.level)
  {
    Assess(q.frpMax, QueryDay(f, q), q.pixelSlopes, q.popMean, q.weights)
  }

  /** The window of the source is the queried day alone: its indices are
      those of one step from the start-up values. */
  lemma OneDayWindow(f: Analytic, q: ThreatQuery)
    requires |q.window| == 1
    ensures var rec := Step(f, StartUp, DailyWeather(f, q.day, q.window[0]));
            QueryDay(f, q) == DayIndices(rec.isi, rec.fwi)
  {
    var days := DailySeries(f, q.day, q.window);
    assert days[0] == DailyWeather(f, q.day, q.window[0]);
    RunFirstDay(f, days);
    var records := Run(f, days);
    assert records[0].sample.date == q.day;
    SelectDayFirstMatch(records, q.day, 0);
  }

  /** With no day to read, the zero day is used and the spread index is 0. */
  lemma EmptyWindow(f: Analytic, q: ThreatQuery)
    requires |q.window| == 0
    ensures QueryDay(f, q) == ZeroDay
    ensures ComputeFireThreat(f, q).spreadIndex == 0.0
  {
    assert Run(f, DailySeries(f, q.day, q.window)) == [];
    SpreadIndexCalm(0.0, q.pixelSlopes);
  }

  /** Missing fire power and population count as 0: the score then rests on
      the spread alone. */
  lemma NoFireNoPeople(d: DayIndices, pixelSlopes: seq<real>, w: Weights)
    ensures Assess(None, d, pixelSlopes, None, w).firePower == 0.0
    ensures Assess(None, d, pixelSlopes, None, w).exposure == 0.0
    ensures Assess(None, d, pixelSlopes, None, w).score
            == Clamp(SpreadIndex(d.fwi, pixelSlopes) * w.spread, 0.0, 1.0)
  {
    NormalizeLaws(0.0, 0.0, FrpMax);
    NormalizeLaws(0.0, 0.0, PopMax);
  }
}
