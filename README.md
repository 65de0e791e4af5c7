# Wildfire danger model

A Dafny model of the wildfire-danger core of the backend. It has two endpoints:

- The fire-threat estimate (`backend/FireThreatEstimator.py`) computes a threat score in [0, 1] and a three-level Arabic label. It combines three inputs:
  - the strongest active-fire radiative power near a point;
  - a spread index derived from the Canadian Fire Weather Index (FWI) and the terrain slope;
  - the population near the point.
- The spread-direction estimate (`backend/FireSpreadEstimator.py`) adds a slope vector and a wind vector. It then names the bearing of the sum as one of eight Arabic compass points.

The modules follow the source:

- `Numeric` holds the arithmetic the other modules share:
  - clamps, `EeDiv` (Earth Engine's divide, which gives 0 for a zero divisor), and `SafeNumber` (`safe_number` and Python's `or` default);
  - `Analytic`, the record of transcendental functions (exp, ln, pow, sqrt, sin, cos, tan, atan2, pi) that every formula takes as a parameter `f`;
  - `Lawful(f)`, the laws of those functions that the proofs use. `LawfulWitness` shows the laws can be met together.
- `FireWeatherIndex` covers the per-day codes and indices of the FWI system as the code computes them:
  - relative humidity, wind speed and Celsius;
  - FFMC (Fine Fuel Moisture Code) with its rain, drying and wetting stages;
  - ISI (Initial Spread Index), DMC (Duff Moisture Code), DC (Drought Code), BUI (Buildup Index) and FWI.
- `DailyRecurrence` covers the daily weather samples and the fold. The fold threads FFMC, DMC and DC through the days from the start-up values 85, 6 and 15, and emits one record per day.
- `FireThreat` covers:
  - normalisation, the slope factor and the spread index;
  - the weight clamping and renormalisation of the route;
  - the weighted score and its classification;
  - the selection of the requested day's record, and the whole threat computation.
- `FireSpread` covers:
  - `_norm_deg` and `_dir8_ar`;
  - the upslope direction;
  - the slope-plus-wind vector sum and the bearing it gives.

Every Earth Engine image in the source is modelled as one value per point. A region reduction is modelled as its result: a maximum or mean that may be missing, or, for the spread index, the mean of a sequence of per-pixel values.

The source chooses branches with `ee.Algorithms.If(image.gt(..), a, b)` at:

- `backend/FireThreatEstimator.py:87`, 117-122, 172-177, 189, 205, 227, 242 and 251.

Earth Engine decides such a condition by the truthiness of the whole image object. An image is always truthy, so the first branch is always taken. Each of these is modelled as the per-value branch that the comments and the FWI standard describe:

- "only if rain > 0.5 mm" (line 73);
- "only if r0 > 1.5 mm" (line 158);
- `P0 <= 33` (line 174), and so on.

The Findings section shows, for each of these sites, what the code does as written and an input where it differs.

## Model

| member | source | states |
|---|---|---|
| Numeric.EeDiv | backend/FireThreatEstimator.py:214-216 | Earth Engine division: a nonzero divisor gives the exact quotient (r·b = a), a zero divisor gives 0 |
| Numeric.SafeNumberZeroDefault | backend/FireThreatEstimator.py:24-25 | with default 0, a present value comes back unchanged and a missing one becomes 0 |
| FireWeatherIndex.RelativeHumidity | backend/FireThreatEstimator.py:51-57 | relative humidity from the Magnus vapour pressures always lies in [0, 100] |
| FireWeatherIndex.SaturatedAirHumidity | backend/FireThreatEstimator.py:51-57 | a dew point equal to the air temperature gives exactly 100 % |
| FireWeatherIndex.WindSpeedLaws | backend/FireThreatEstimator.py:43-46 | wind speed in km/h is never negative and is 0 for calm components u = v = 0 |
| FireWeatherIndex.Moisture | backend/FireThreatEstimator.py:66-71 | after clamping FFMC to [0, 101], fine-fuel moisture lies in [0, 250); FFMC 101 gives 0 and FFMC 0 gives 147.2·101/59.5 |
| FireWeatherIndex.MoistureToFfmcAntitone | backend/FireThreatEstimator.py:124 | converting moisture back to FFMC is antitone: wetter fuel never has a higher code |
| FireWeatherIndex.MoistureToFfmcForm | backend/FireThreatEstimator.py:124 | the conversion (59.5(250 − m))/(147.2 + m) equals 59.5·397.2/(147.2 + m) − 59.5, the form used for monotonicity |
| FireWeatherIndex.FfmcRain | backend/FireThreatEstimator.py:74 | effective rain is non-negative and positive exactly when rain exceeds 0.5 mm |
| FireWeatherIndex.RainGainSign | backend/FireThreatEstimator.py:77-80 | the first rain term 42.5·rf·e^(−100/(251−mo))·(1 − e^(−6.93/rf)) is 0 without effective rain and positive with it |
| FireWeatherIndex.WetFuelGainSign | backend/FireThreatEstimator.py:82-85 | the wet-fuel term 0.0015(mo − 150)²·√rf is never negative and vanishes without effective rain |
| FireWeatherIndex.RainStages | backend/FireThreatEstimator.py:77-85 | without effective rain both stages leave moisture unchanged; with it the first stage raises moisture and the second never undoes that |
| FireWeatherIndex.RainedMoisture | backend/FireThreatEstimator.py:87 | moisture after rain is capped at 250 and takes the wet-fuel stage exactly when mo > 150 |
| FireWeatherIndex.RainedMoistureThreshold | backend/FireThreatEstimator.py:73-87 | rain never lowers moisture, and moisture is unchanged if and only if rain is at most 0.5 mm |
| FireWeatherIndex.RainedMoistureAsWritten | backend/FireThreatEstimator.py:87 | moisture after rain as the code evaluates it (wet-fuel stage always) is at most 250 |
| FireWeatherIndex.RainedMoistureAsWrittenWetter | backend/FireThreatEstimator.py:76-87 | below mo = 150 with rain over 0.5 mm, the code as written gives at least the intended moisture, and strictly more unless the intended value is already capped at 250 |
| FireWeatherIndex.EquilibriumGap | backend/FireThreatEstimator.py:90-97 | Ed − Ew = 0.942·RH^0.679 − 0.618·RH^0.753 + exp((RH − 100)/10): the temperature term cancels, so the order of the equilibria depends on humidity alone |
| FireWeatherIndex.WettingEquilibriumAbove | backend/FireThreatEstimator.py:94-97 | for humidity ≥ 0 and temperatures up to 800 °C, Ew lies above −147.2, where the moisture-to-FFMC map is defined |
| FireWeatherIndex.LogRateNonNegative | backend/FireThreatEstimator.py:99-110 | the drying and wetting rate bases 0.424(1 − x^1.7) + 0.0694√W(1 − x^8) are non-negative for x in [0, 1] |
| FireWeatherIndex.DryBounds | backend/FireThreatEstimator.py:113 | drying towards Ed moves moisture down and stays strictly above Ed |
| FireWeatherIndex.WetBounds | backend/FireThreatEstimator.py:114 | wetting towards Ew moves moisture up and stays strictly below Ew |
| FireWeatherIndex.DryMonotone | backend/FireThreatEstimator.py:113 | drying preserves the order of moistures |
| FireWeatherIndex.WetMonotone | backend/FireThreatEstimator.py:114 | wetting preserves the order of moistures |
| FireWeatherIndex.RelaxBranches | backend/FireThreatEstimator.py:112-122 | above Ed the fuel dries towards Ed, below Ew it wets towards Ew, in between it is unchanged |
| FireWeatherIndex.RelaxMonotone | backend/FireThreatEstimator.py:112-122 | with Ew ≤ Ed, the day's relaxation preserves the order of moistures and never falls below min(m, Ew) |
| FireWeatherIndex.RelaxAsWrittenOvershoots | backend/FireThreatEstimator.py:112-122 | for moisture below Ew ≤ Ed the code as written (drying branch always) moves towards Ed and passes Ew when the decay is small enough, while the intended wetting stays below Ew; at m 10, Ed 20, Ew 12, decays 0.5 it gives 15 against 11 |
| FireWeatherIndex.FfmcNext | backend/FireThreatEstimator.py:59-125 | next-day FFMC always lies in [0, 101] |
| FireWeatherIndex.FfmcRainThreshold | backend/FireThreatEstimator.py:73-74 | rain of at most 0.5 mm gives the same FFMC as no rain |
| FireWeatherIndex.RainNeverRaisesFfmc | backend/FireThreatEstimator.py:59-125 | for humidity in [0, 100], wind ≥ 0, temperatures up to 800 °C and Ew ≤ Ed, rain never raises next-day FFMC above the dry-day value |
| FireWeatherIndex.Isi | backend/FireThreatEstimator.py:127-136 | ISI is never negative |
| FireWeatherIndex.IsiPositive | backend/FireThreatEstimator.py:127-136 | ISI is strictly positive for every FFMC and wind (the max(0) floor never bites) |
| FireWeatherIndex.DayLength | backend/FireThreatEstimator.py:151-152 | the effective day length of every month lies in [6.0, 13.9] |
| FireWeatherIndex.DuffDrying | backend/FireThreatEstimator.py:148-156 | the drying rate K is non-negative for RH ≤ 100 and is 0 at T ≤ −1.1 °C or RH = 100 |
| FireWeatherIndex.DmcRain | backend/FireThreatEstimator.py:162 | DMC effective rain is non-negative and positive exactly when rain exceeds 1.27/0.92 mm |
| FireWeatherIndex.DuffSlopeLow | backend/FireThreatEstimator.py:168 | the slope b = 100/(0.5 + 0.3 P0) is positive for P0 ≤ 33 |
| FireWeatherIndex.DuffSlopePositive | backend/FireThreatEstimator.py:166-177 | the three-range slope b is positive for every P0 ≥ 0, given only that ln 65 lies in [2.8, 10] |
| FireWeatherIndex.DuffSlopeAsWrittenLower | backend/FireThreatEstimator.py:166-177 | at P0 = 50 the always-first formula gives 100/15.5 ≈ 6.45, strictly below the intended 14 − 1.3 ln 50, given ln 50 ≤ 4 |
| FireWeatherIndex.DmcAfterRain | backend/FireThreatEstimator.py:179-186 | DMC after the rain routine is never negative |
| FireWeatherIndex.DmcNext | backend/FireThreatEstimator.py:141-192 | next-day DMC is never negative; the rain routine applies exactly when rain exceeds 1.5 mm |
| FireWeatherIndex.DmcRainThreshold | backend/FireThreatEstimator.py:158-159 | rain of at most 1.5 mm gives the same DMC as no rain, and then DMC never falls |
| FireWeatherIndex.DmcAfterRainBound | backend/FireThreatEstimator.py:164-186 | with b ≥ 0 the rain routine never raises DMC beyond P0 + 0.000636 (the slack of the constants 244.72 and 43.43·5.6348) |
| FireWeatherIndex.DmcRainNeverRaises | backend/FireThreatEstimator.py:141-192 | with b ≥ 0 rain never raises next-day DMC beyond the dry-day value plus 0.000636 |
| FireWeatherIndex.DmcNextAsWritten | backend/FireThreatEstimator.py:172-192 | next-day DMC as the code evaluates it (b from the P0 ≤ 33 formula, rain routine always) is never negative |
| FireWeatherIndex.DmcAsWrittenDrifts | backend/FireThreatEstimator.py:189 | on a day without effective rain the code as written gives the intended DMC plus 0.000636 |
| FireWeatherIndex.DcRain | backend/FireThreatEstimator.py:199 | DC effective rain is non-negative and positive exactly when rain exceeds 1.27/0.83 mm |
| FireWeatherIndex.DcReduction | backend/FireThreatEstimator.py:202 | the rain reduction 400re/(re + 800) lies in [0, 400) and is 0 exactly without effective rain |
| FireWeatherIndex.DcNext | backend/FireThreatEstimator.py:194-205 | next-day DC is never negative; the rain branch applies exactly when rain exceeds 2.8 mm |
| FireWeatherIndex.DcRainReduces | backend/FireThreatEstimator.py:202-205 | rain above 2.8 mm lowers a positive DC, by less than 400 |
| FireWeatherIndex.DcDryingRaises | backend/FireThreatEstimator.py:203-205 | without rain above 2.8 mm, DC rises by 0.05 per degree on a warm day |
| FireWeatherIndex.DcNextAsWritten | backend/FireThreatEstimator.py:205 | DC as the code evaluates it (rain branch always) is never negative and never rises |
| FireWeatherIndex.DcAsWrittenNeverDries | backend/FireThreatEstimator.py:205 | on a warm day with at most 1.5 mm of rain the code as written keeps DC unchanged while the intended recurrence raises it (100 at 30 °C: 100 against 101.5) |
| FireWeatherIndex.Bui | backend/FireThreatEstimator.py:207-228 | BUI is never negative and switches formula exactly at DMC = 0.4·DC |
| FireWeatherIndex.BuiLowBounds | backend/FireThreatEstimator.py:214 | for DMC ≤ 0.4·DC, BUI lies between DMC and 0.8·DC |
| FireWeatherIndex.BuiHighBounds | backend/FireThreatEstimator.py:216-225 | for DMC > 0.4·DC, BUI lies between DMC − (0.92 + (0.0114·DMC)^1.7) and DMC, strictly below DMC |
| FireWeatherIndex.BuiContinuousAtSwitch | backend/FireThreatEstimator.py:214-225 | at DMC = 0.4·DC both BUI formulas give 0.4·DC, so the switch is continuous |
| FireWeatherIndex.BuiAsWritten | backend/FireThreatEstimator.py:227-228 | BUI as the code evaluates it (low-DMC formula always) is never negative |
| FireWeatherIndex.BuiAsWrittenCapped | backend/FireThreatEstimator.py:214-228 | the code as written never gives BUI above 0.8·DC; at DMC = DC = 100 it gives 400/7 ≈ 57.1, while the intended BUI exceeds 99 whenever 1.14^1.7 ≤ 1.3 |
| FireWeatherIndex.DuffFactorBounds | backend/FireThreatEstimator.py:234-242 | the duff factor is at least 2 up to BUI 80 and in (0, 40) above it |
| FireWeatherIndex.Fwi | backend/FireThreatEstimator.py:244-252 | FWI is never negative and equals B = 0.1·ISI·fD when B ≤ 1 |
| FireWeatherIndex.FwiRegimes | backend/FireThreatEstimator.py:230-252 | B is non-negative, FWI equals B in the low regime, and FWI is positive if and only if ISI is |
| FireWeatherIndex.FwiHighRegime | backend/FireThreatEstimator.py:246-251 | above B = 1 FWI is exp(2.72·(0.434·ln B)^0.647), and it exceeds B while 0.434·ln B ≤ 1 |
| FireWeatherIndex.FwiAsWritten | backend/FireThreatEstimator.py:242-252 | FWI as the code evaluates it (first fD formula and B always) is never negative |
| FireWeatherIndex.DuffFactorAsWrittenTooHigh | backend/FireThreatEstimator.py:232-242 | at BUI 200, given 200^0.809 ≥ 61, the always-power fD exceeds 40 while the intended fD stays below 40, so B as written is strictly larger |
| FireWeatherIndex.FwiAsWrittenTooLow | backend/FireThreatEstimator.py:242-252 | up to BUI 80, with B > 1 and 0.434·ln B ≤ 1, the code as written reports B, strictly below the intended FWI |
| DailyRecurrence.SumNonNegative | backend/FireThreatEstimator.py:316-319 | the day's summed precipitation is non-negative when every hourly amount is |
| DailyRecurrence.DailyWeather | backend/FireThreatEstimator.py:290-329 | a day's sample keeps its date and month, has humidity in [0, 100] and rain equal to the summed hourly precipitation in mm |
| DailyRecurrence.FallbackWeather | backend/FireThreatEstimator.py:298-306 | a day without its 09:00 image gets 0 °C, 100 % humidity and no wind |
| DailyRecurrence.DailyWeatherRanges | backend/FireThreatEstimator.py:290-329 | the sample's wind is never negative, nor its rain when the hourly amounts are not |
| DailyRecurrence.DailySeries | backend/FireThreatEstimator.py:331-335 | one sample per day of the window, day i dated start + i |
| DailyRecurrence.DailySeriesChronological | backend/FireThreatEstimator.py:331-335 | the samples are strictly increasing in date, so sorting by time (line 377) leaves them in place |
| DailyRecurrence.Step | backend/FireThreatEstimator.py:342-374 | a step keeps the day's sample, yields codes in range and non-negative indices, with BUI, ISI and FWI computed from today's codes |
| DailyRecurrence.Iterate | backend/FireThreatEstimator.py:342-378 | the fold emits one valid record per day, in the order of the days |
| DailyRecurrence.IterateAppend | backend/FireThreatEstimator.py:376-377 | folding over a concatenation is folding over the first part, then over the second from the codes the first left |
| DailyRecurrence.IterateAt | backend/FireThreatEstimator.py:342-378 | day i's record is the step from the codes left by days 0..i−1 (only earlier days influence a day) |
| DailyRecurrence.LastRecordCodes | backend/FireThreatEstimator.py:374-377 | the last record carries the codes the fold ends with |
| DailyRecurrence.Run | backend/FireThreatEstimator.py:338-378 | the recurrence from FFMC 85, DMC 6, DC 15 emits one valid record per day |
| DailyRecurrence.RunFirstDay | backend/FireThreatEstimator.py:338-376 | the first record is the step from the start-up values |
| FireThreat.Normalize | backend/FireThreatEstimator.py:20-21 | a normalised value lies in [0, 1] |
| FireThreat.NormalizeLaws | backend/FireThreatEstimator.py:20-21 | non-positive values give 0, values at or above the maximum give 1, in between the value is val/max exactly, and normalising is monotone |
| FireThreat.SlopeFactor | backend/FireThreatEstimator.py:394 | the slope factor lies in [1, 1.3], is 1 on flat ground and 1.3 from 45° up |
| FireThreat.SpreadValue | backend/FireThreatEstimator.py:396-397 | a pixel's spread value lies in [0, 1] |
| FireThreat.SpreadValueLaws | backend/FireThreatEstimator.py:396-397 | no fire weather gives 0, FWI at the cap 50 gives 1, and on flat ground the spread value is the normalised FWI |
| FireThreat.AoiMeanBounds | backend/FireThreatEstimator.py:27-34 | the region mean of values in [0, 1] lies in [0, 1], including the empty region that falls back to 0 |
| FireThreat.SpreadValues | backend/FireThreatEstimator.py:394-397 | one spread value per pixel, each from that pixel's slope |
| FireThreat.SpreadIndex | backend/FireThreatEstimator.py:394-398 | the spread index lies in [0, 1] |
| FireThreat.SpreadIndexCalm | backend/FireThreatEstimator.py:396-398 | with FWI ≤ 0 the spread index is 0 whatever the terrain |
| FireThreat.ClampWeight | backend/FireThreatEstimator.py:480-485 | a requested weight is clamped into [0.10, 1.0] |
| FireThreat.SharesSumToOne | backend/FireThreatEstimator.py:487-490 | dividing by the total makes the three weights sum to 1 |
| FireThreat.RouteWeights | backend/FireThreatEstimator.py:483-490 | the final weights sum to 1 and each lies in [1/21, 5/6] |
| FireThreat.RouteWeightsOrder | backend/FireThreatEstimator.py:483-490 | renormalisation keeps the order of the clamped weights |
| FireThreat.RouteWeightsKeepNormalised | backend/FireThreatEstimator.py:15-17 | weights already in range and summing to 1 pass through unchanged; with none given the defaults 0.25, 0.35 and 0.40 are used |
| FireThreat.ThreatScore | backend/FireThreatEstimator.py:418-423 | the threat score lies in [0, 1] |
| FireThreat.ThreatScoreConvex | backend/FireThreatEstimator.py:418-423 | with normalised weights the score lies between the smallest and the largest of the three components (the clamp is idle) |
| FireThreat.ThreatScoreMonotone | backend/FireThreatEstimator.py:418-423 | raising any component never lowers the score |
| FireThreat.Classify | backend/FireThreatEstimator.py:425-428 | low exactly below 0.33, medium exactly in [0.33, 0.66), high exactly from 0.66 |
| FireThreat.ClassifyMonotone | backend/FireThreatEstimator.py:425-428 | a higher score never gets a lower level |
| FireThreat.LabelOfScore | backend/FireThreatEstimator.py:425-428 | the reported label is "منخفضة" exactly below 0.33, "متوسطة" exactly in [0.33, 0.66) and "عالية" exactly from 0.66 |
| FireThreat.FindDay | backend/FireThreatEstimator.py:380 | the first record at or after a position with the requested date, or none when no record has it |
| FireThreat.SelectDay | backend/FireThreatEstimator.py:380-389 | the selected ISI and FWI are non-negative when the records are valid |
| FireThreat.SelectDayFirstMatch | backend/FireThreatEstimator.py:380 | the first record with the requested date supplies the day's ISI and FWI |
| FireThreat.SelectDayMissing | backend/FireThreatEstimator.py:382-386 | without a record for the date, ISI and FWI are 0 |
| FireThreat.QueryDay | backend/FireThreatEstimator.py:283-389 | the requested day's ISI and FWI are non-negative |
| FireThreat.Assess | backend/FireThreatEstimator.py:279-428 | the components and the score lie in [0, 1], the score is the clamped weighted sum of the components, the level is its classification and the label is the level's |
| FireThreat.ComputeFireThreat | backend/FireThreatEstimator.py:256-463 | every reported component and the score lie in [0, 1], ISI and FWI are non-negative, and the level and its label match the score |
| FireThreat.OneDayWindow | backend/FireThreatEstimator.py:331-389 | for the one-day window, the reported ISI and FWI are those of the step from the start-up codes over that day's sample |
| FireThreat.EmptyWindow | backend/FireThreatEstimator.py:382-398 | with no day in the window ISI and FWI are 0 and so is the spread index |
| FireThreat.NoFireNoPeople | backend/FireThreatEstimator.py:280-281 | with neither fire power nor population data, those components are 0 and the score is the weighted spread alone |
| FireSpread.Mod360Periodic | backend/FireSpreadEstimator.py:8 | Python's floored `% 360.0` is unchanged by whole turns |
| FireSpread.Mod360Identity | backend/FireSpreadEstimator.py:8 | an angle already in [0, 360) is its own remainder |
| FireSpread.NormDeg | backend/FireSpreadEstimator.py:7-8 | a normalised angle lies in [0, 360) |
| FireSpread.NormDegIsMod360 | backend/FireSpreadEstimator.py:7-8 | the extra "+ 360, % 360" changes nothing: normalising is the floored remainder |
| FireSpread.NormDegLaws | backend/FireSpreadEstimator.py:7-8 | normalising is the identity on [0, 360), idempotent, and unchanged by whole turns |
| FireSpread.Sector | backend/FireSpreadEstimator.py:12 | the sector index lies in 0..7 |
| FireSpread.SectorBounds | backend/FireSpreadEstimator.py:12 | sector k ≥ 1 is exactly the wedge [45k − 22.5, 45k + 22.5); sector 0 is exactly the wedge within 22.5° of north, wrapping past 360 |
| FireSpread.Dir8 | backend/FireSpreadEstimator.py:10-12 | the name is always one of the eight Arabic compass points |
| FireSpread.Dir8Cardinals | backend/FireSpreadEstimator.py:10-12 | 0°, 90°, 180°, 270° name north, east, south and west; 337.5° and −90° name north and west; whole turns do not change the name |
| FireSpread.TruncMod360 | backend/FireSpreadEstimator.py:59 | Earth Engine's remainder lies in (−360, 360) and has the sign of the dividend |
| FireSpread.UpslopeIsBearing | backend/FireSpreadEstimator.py:59 | for aspects from −180° up the upslope direction is the normalised bearing aspect + 180 |
| FireSpread.RadiansOfSlope | backend/FireSpreadEstimator.py:98 | a slope strictly between 0° and 90° is strictly between 0 and π/2 radians |
| FireSpread.WindToward | backend/FireSpreadEstimator.py:90 | the bearing the wind blows towards lies in [0, 360) |
| FireSpread.SpreadVectorLaws | backend/FireSpreadEstimator.py:90-102 | without wind the sum is the slope vector (tan(slope), 0); with the wind blowing straight upslope (ω = 0) it is (tan(slope) + wind speed, 0) |
| FireSpread.SpreadBearing | backend/FireSpreadEstimator.py:105-106 | the spread bearing lies in [0, 360) |
| FireSpread.CalmSpreadsUpslope | backend/FireSpreadEstimator.py:90-106 | without wind, on any slope in [0°, 90°), the fire spreads straight upslope |
| FireSpread.AlignedWindSpreadsUpslope | backend/FireSpreadEstimator.py:90-106 | a wind blowing straight upslope keeps the fire spreading upslope |
| FireSpread.SpreadDirection | backend/FireSpreadEstimator.py:84-107 | the answer is always one of the eight compass points |
| FireSpread.MissingSlopeAndWind | backend/FireSpreadEstimator.py:84-107 | with slope and wind missing the fire spreads upslope; for aspect 180 the answer is north |

## Findings

| source | as written | input that shows it | evidently intended | confidence | as-written member | corrected member |
|---|---|---|---|---|---|---|
| backend/FireThreatEstimator.py:205 | `ee.Algorithms.If(R.gt(2.8), dc_rain, dc_no_rain)` tests whether the condition image exists, which is always true, so the rain formula is used every day and DC never rises | previous DC 100, 30 °C, no rain: as written 100, intended 101.5 | the rain branch only where rain exceeds 2.8 mm, otherwise DC + 0.05·T | high for the Earth Engine semantics, not executed | FireWeatherIndex.DcAsWrittenNeverDries | FireWeatherIndex.DcDryingRaises |
| backend/FireThreatEstimator.py:87 | `ee.Algorithms.If(mo.gt(150), mr2, mr1)` always takes the wet-fuel stage mr2, so rain on fuel below mo = 150 adds 0.0015·(mo − 150)²·√rf too much | FFMC 101 (mo 0) with 10 mm of rain: as written about 244, intended about 140 (hand computation) | the wet-fuel stage only above mo = 150 | high for the Earth Engine semantics, not executed | FireWeatherIndex.RainedMoistureAsWrittenWetter | FireWeatherIndex.RainedMoisture |
| backend/FireThreatEstimator.py:117-122 | the outer `ee.Algorithms.If(mr.gt(Ed), m_dry, …)` always takes the drying branch, so fuel wetter than Ed and fuel drier than Ew both move towards Ed | m 10, Ed 20, Ew 12, both decays 0.5: as written 15, intended 11 | drying above Ed, wetting below Ew, unchanged in between | high for the Earth Engine semantics, not executed | FireWeatherIndex.RelaxAsWrittenOvershoots | FireWeatherIndex.RelaxBranches |
| backend/FireThreatEstimator.py:172-177 | the outer `ee.Algorithms.If(P0.lte(33), b_13a, …)` always takes the first formula, so b is 100/(0.5 + 0.3·P0) for every P0 and rain wets the duff more than intended above P0 = 33 (the as-written DMC, FireWeatherIndex.DmcNextAsWritten, uses this b) | previous DMC 50: as written b = 100/15.5 ≈ 6.45, intended 14 − 1.3 ln 50 ≈ 8.91 | the three ranges ≤ 33, ≤ 65 and above 65 | high for the Earth Engine semantics, not executed | FireWeatherIndex.DuffSlopeAsWrittenLower | FireWeatherIndex.DuffSlopePositive |
| backend/FireThreatEstimator.py:189 | `ee.Algorithms.If(rain_event, Pr, P0)` always takes the rain routine; with no effective rain it returns P0 + 0.000636 instead of P0 | previous DMC 6, no rain: as written 6.000636 + 100K, intended 6 + 100K | the rain routine only above 1.5 mm | high for the Earth Engine semantics, not executed | FireWeatherIndex.DmcAsWrittenDrifts | FireWeatherIndex.DmcRainThreshold |
| backend/FireThreatEstimator.py:227 | `ee.Algorithms.If(dmc.lte(c04dc), bui_case1, bui_case2)` always takes the low-DMC formula, so BUI never exceeds 0.8·DC | DMC = DC = 100: as written 400/7 ≈ 57.1, intended about 99.1 | the low-DMC formula only up to DMC = 0.4·DC | high for the Earth Engine semantics, not executed | FireWeatherIndex.BuiAsWrittenCapped | FireWeatherIndex.BuiHighBounds |
| backend/FireThreatEstimator.py:242 | `ee.Algorithms.If(bui.lte(80), fD_case1, fD_case2)` always takes the power form, so above BUI 80 fD keeps growing instead of levelling off below 40 | ISI 1, BUI 200: fD as written about 47.5, intended about 38.3 (hand computation) | the bounded form 1000/(25 + 108.64·exp(−0.023·BUI)) above BUI 80 | high for the Earth Engine semantics, not executed | FireWeatherIndex.DuffFactorAsWrittenTooHigh | FireWeatherIndex.DuffFactorBounds |
| backend/FireThreatEstimator.py:251 | `ee.Algorithms.If(B.lte(1), fwi_case1, fwi_case2)` always takes the first branch, so FWI is always B | ISI 3, BUI 20: B about 2.7, so as written FWI about 2.7, intended about 4.9 (hand computation) | the exponential form above B = 1 | high for the Earth Engine semantics, not executed | FireWeatherIndex.FwiAsWrittenTooLow | FireWeatherIndex.FwiHighRegime |

The model uses the intended per-value branches throughout; each as-written member above exhibits one site.

## Left out

- Earth Engine collections, region reductions, masks, scales and `getInfo` are left out. They appear as values: the point's or region's weather, FRP maximum, population mean and per-pixel slopes.
- The Flask routes, request parsing, JSON output and exception handling are left out. Validation of lat/lon/datetime (`backend/FireThreatEstimator.py:493-494`) only decides whether the computation runs. A non-numeric weight makes `float()` raise; this is not modelled.
- Floating-point rounding and NaN are left out. Arithmetic is on exact reals.
- The values of exp, ln, pow, sqrt, sin, cos, tan, atan2 and pi are left out. They are a parameter, and proofs use only the laws in `Numeric.Lawful`.
- The calendar is left out. Days are numbered. Each day's month is given with its input, as `date.get("month")` does.
- A day's window is the 24 hours from the query's timestamp, not a calendar day: `START` is the parsed timestamp itself (`backend/FireThreatEstimator.py:259-261`) and each day's images are filtered from it (lines 293-296, 316-317). So the image stamped 09:00 may fall on the next calendar day, and the precipitation spans two calendar days unless the timestamp is midnight. The model takes each day's 09:00 image and hourly precipitation as given (`DayInput`) and does not model timestamps.
- Sorting by `system:time_start` is left out. The generated days are already in date order (`DailySeriesChronological`).
- The AOI means of ISI and FWI that are only reported (lines 448-449) are left out. So are `fire_present` and the printed debug output.
- A null terrain aspect makes the spread endpoint fail inside Earth Engine (`ee.Number(None)`). This is not modelled: the aspect is a required input.
- `USE_TEST_INPUT` and the fixed test coordinates in `backend/FireSpreadEstimator.py` are left out. So is the one-hour wind window: u and v are inputs.
- An empty precipitation collection sums to 0 here. Earth Engine's sum of an empty collection is an image without bands, and that case is not modelled.
- FireWeatherIndex.DmcRainNeverRaises: assumes the slope b is non-negative. This holds up to P0 = 33 (`DuffSlopeLow`), and for every P0 once ln 65 is known to lie in [2.8, 10] (`DuffSlopePositive`); the model has no value for ln 65.
- FireWeatherIndex.RainNeverRaisesFfmc: assumes the wetting equilibrium is at most the drying one, as the FWI standard's equations give for humidity in [0, 100]. The gap depends on humidity alone (`EquilibriumGap`), but it compares two powers of RH, and the model has no values for them. It also assumes a temperature of at most 800 °C, which keeps Ew above −147.2 (`WettingEquilibriumAbove`).
