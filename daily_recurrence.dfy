/** The daily recurrence of backend/FireThreatEstimator.py: each day's weather
    sample is assembled from the 09:00 ERA5-Land hour (or a fixed fallback) and
    the day's summed precipitation, and a fold threads the three moisture codes
    FFMC, DMC and DC through the days in date order, emitting one record of
    codes and indices per day. */
module DailyRecurrence {
  import opened Numeric
  import opened FireWeatherIndex

  // ---------------------------------------------------------------------------
  // Daily weather samples
  // ---------------------------------------------------------------------------

  /** One ERA5-Land hour at the point: 2 m air and dew-point temperature
      (Kelvin) and the 10 m wind components (m/s). */
  datatype Era5Hour = Era5Hour(tempK: real, dewK: real, u: real, v: real)

  /** What the data source supplies for one day, the 24 hours that start at
      the query's timestamp: the month, the first image stamped 09:00 in that
      window if there is one, and the hourly precipitation (metres). */
  datatype DayInput = DayInput(month: Month, hour9: Option<Era5Hour>, hourlyPrecipM: seq<real>)

  /** A day's weather: temperature (C), relative humidity (%), wind (km/h) and
      rain (mm), dated by a day number. */
  datatype WeatherSample = WeatherSample(date: int, month: Month, t: real, rh: real, w: real, rain: real)

  /** The hour used when the day has no 09:00 image: 273.15 K air and dew
      point, no wind. */
  const Fallback: Era5Hour := Era5Hour(273.15, 273.15, 0.0, 0.0)

  function Sum(xs: seq<real>): real
  {
    if |xs| == 0 then 0.0 else Sum(xs[..|xs| - 1]) + xs[|xs| - 1]
  }

  lemma {:induction false} SumNonNegative(xs: seq<real>)
    requires forall i :: 0 <= i < |xs| ==> xs[i] >= 0.0
    ensures Sum(xs) >= 0.0
  {
    if |xs| > 0 {
      SumNonNegative(xs[..|xs| - 1]);
    }
  }

  /** The weather sample of day `date`. */
  function DailyWeather(f: Analytic, date: int, input: DayInput): (s: WeatherSample)
    ensures s.date == date && s.month == input.month
    ensures 0.0 <= s.rh <= 100.0
    ensures s.rain == Sum(input.hourlyPrecipM) * 1000.0
  {
    var hour := if input.hour9.Some? then input.hour9.value else Fallback;
    WeatherSample(date, input.month, ToCelsius(hour.tempK), RelativeHumidity(f, hour.tempK, hour.dewK),
                  WindSpeedKmh(f, hour.u, hour.v), Sum(input.hourlyPrecipM) * 1000.0)
  }

  /** A day without its 09:00 hour gets 0 C, 100 % humidity and no wind. */
  lemma FallbackWeather(f: Analytic, date: int, input: DayInput)
    requires Lawful(f) && input.hour9.None?
    ensures DailyWeather(f, date, input).t == 0.0
    ensures DailyWeather(f, date, input).rh == 100.0
    ensures DailyWeather(f, date, input).w == 0.0
  {
    SaturatedAirHumidity(f, 273.15);
    WindSpeedLaws(f, 0.0, 0.0);
  }

  /** Wind is never negative, and rain is not when the hourly amounts are not. */
  lemma DailyWeatherRanges(f: Analytic, date: int, input: DayInput)
    requires Lawful(f)
    ensures DailyWeather(f, date, input).w >= 0.0
    ensures (forall i :: 0 <= i < |input.hourlyPrecipM| ==> input.hourlyPrecipM[i] >= 0.0) ==>
              DailyWeather(f, date, input).rain >= 0.0
  {
    var hour := if input.hour9.Some? then input.hour9.value else Fallback;
    WindSpeedLaws(f, hour.u, hour.v);
    if forall i :: 0 <= i < |input.hourlyPrecipM| ==> input.hourlyPrecipM[i] >= 0.0 {
      SumNonNegative(input.hourlyPrecipM);
    }
  }

  /** One sample per input day, dated start, start + 1, ... */
  function DailySeries(f: Analytic, start: int, inputs: seq<DayInput>): (days: seq<WeatherSample>)
    ensures |days| == |inputs|
    ensures forall i :: 0 <= i < |days| ==> days[i] == DailyWeather(f, start + i, inputs[i])
  {
    seq(|inputs|, i requires 0 <= i < |inputs| => DailyWeather(f, start + i, inputs[i]))
  }

  /** Dates strictly increase, so sorting by date leaves the order unchanged. */
  ghost predicate Chronological(days: seq<WeatherSample>)
  {
    forall i, j :: 0 <= i < j < |days| ==> days[i].date < days[j].date
  }

  /** The generated days have no gaps and are already in date order. */
  lemma DailySeriesChronological(f: Analytic, start: int, inputs: seq<DayInput>)
    ensures Chronological(DailySeries(f, start, inputs))
    ensures forall i :: 0 <= i < |inputs| ==> DailySeries(f, start, inputs)[i].date == start + i
  {
  }

  // ---------------------------------------------------------------------------
  // The fold
  // ---------------------------------------------------------------------------

  /** The state the fold threads from day to day. */
  datatype Codes = Codes(ffmc: real, dmc: real, dc: real)

  /** One emitted day: the sample and the day's codes and indices. */
  datatype DayRecord = DayRecord(sample: WeatherSample, ffmc: real, dmc: real, dc: real,
                                 bui: real, isi: real, fwi: real)

  /** The start-up values of the fold. */
  const StartUp: Codes := Codes(85.0, 6.0, 15.0)

  predicate ValidCodes(c: Codes)
  {
    0.0 <= c.ffmc <= 101.0 && c.dmc >= 0.0 && c.dc >= 0.0
  }

  predicate ValidRecord(r: DayRecord)
  {
    ValidCodes(CodesOf(r)) && r.bui >= 0.0 && r.isi >= 0.0 && r.fwi >= 0.0
  }

  function CodesOf(r: DayRecord): Codes
  {
    Codes(r.ffmc, r.dmc, r.dc)
  }

  /** The step of the fold: today's codes from yesterday's and today's
      weather, then today's ISI, BUI and FWI. */
  function Step(f: Analytic, prev: Codes, day: WeatherSample): (r: DayRecord)
    ensures r.sample == day
    ensures ValidRecord(r)
    ensures r.bui == Bui(f, r.dmc, r.dc) && r.isi == Isi(f, r.ffmc, day.w) && r.fwi == Fwi(f, r.isi, r.bui)
  {
    var ffmc := FfmcNext(f, prev.ffmc, day.t, day.rh, day.w, day.rain);
    var dmc := DmcNext(f, prev.dmc, day.t, day.rh, day.rain, day.month);
    var dc := DcNext(prev.dc, day.t, day.rain);
    var isi := Isi(f, ffmc, day.w);
    var bui := Bui(f, dmc, dc);
    DayRecord(day, ffmc, dmc, dc, bui, isi, Fwi(f, isi, bui))
  }

  /** The fold from state `c` over `days`: one valid record per day, in the
      order of the days. */
  function Iterate(f: Analytic, c: Codes, days: seq<WeatherSample>): (records: seq<DayRecord>)
    ensures |records| == |days|
    ensures forall i :: 0 <= i < |days| ==> records[i].sample == days[i] && ValidRecord(records[i])
    decreases |days|
  {
    if |days| == 0 then []
    else
      var r := Step(f, c, days[0]);
      [r] + Iterate(f, CodesOf(r), days[1..])
  }

  /** The codes after folding over `days` from `c` (the state the source's
      iterate ends with). */
  function CodesAfter(f: Analytic, c: Codes, days: seq<WeatherSample>): Codes
    decreases |days|
  {
    if |days| == 0 then c else CodesAfter(f, CodesOf(Step(f, c, days[0])), days[1..])
  }

  /** Folding over a concatenation is folding over the first part, then over
      the second from where the first ended. */
  lemma {:induction false} IterateAppend(f: Analytic, c: Codes, xs: seq<WeatherSample>, ys: seq<WeatherSample>)
    ensures Iterate(f, c, xs + ys) == Iterate(f, c, xs) + Iterate(f, CodesAfter(f, c, xs), ys)
    ensures CodesAfter(f, c, xs + ys) == CodesAfter(f, CodesAfter(f, c, xs), ys)
    decreases |xs|
  {
    if |xs| > 0 {
      var r := Step(f, c, xs[0]);
      assert (xs + ys)[0] == xs[0];
      assert (xs + ys)[1..] == xs[1..] + ys;
      IterateAppend(f, CodesOf(r), xs[1..], ys);
    } else {
      assert xs + ys == ys;
    }
  }

  /** Day i's record depends only on the days before it: it is the step from
      the codes left by days 0..i-1. */
  lemma {:induction false} IterateAt(f: Analytic, c: Codes, days: seq<WeatherSample>, i: int)
    requires 0 <= i < |days|
    ensures Iterate(f, c, days)[i] == Step(f, CodesAfter(f, c, days[..i]), days[i])
  {
    assert days == days[..i] + days[i..];
    IterateAppend(f, c, days[..i], days[i..]);
    assert Iterate(f, c, days)[i] == Iterate(f, CodesAfter(f, c, days[..i]), days[i..])[0];
  }

  /** The last record carries the codes the fold ends with. */
  lemma {:induction false} LastRecordCodes(f: Analytic, c: Codes, days: seq<WeatherSample>)
    requires |days| > 0
    ensures CodesOf(Iterate(f, c, days)[|days| - 1]) == CodesAfter(f, c, days)
    decreases |days|
  {
    var next := CodesOf(Step(f, c, days[0]));
    if |days| > 1 {
      LastRecordCodes(f, next, days[1..]);
      assert Iterate(f, c, days)[|days| - 1] == Iterate(f, next, days[1..])[|days| - 2];
    } else {
      assert CodesAfter(f, next, days[1..]) == next;
    }
  }

  /** The recurrence from the start-up values. */
  function Run(f: Analytic, days: seq<WeatherSample>): (records: seq<DayRecord>)
    ensures |records| == |days|
    ensures forall i :: 0 <= i < |days| ==> records[i].sample == days[i] && ValidRecord(records[i])
  {
    Iterate(f, StartUp, days)
  }

  /** The first day's record is the step from the start-up values. */
  lemma RunFirstDay(f: Analytic, days: seq<WeatherSample>)
    requires |days| > 0
    ensures Run(f, days)[0] == Step(f, StartUp, days[0])
  {
  }
}
