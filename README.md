# Weather-Drone flight advisor: the condition evaluator

Weather-Drone is a browser page that tells the owner of a DJI Mini 2 whether it is safe
to fly. From a forecast's hourly columns it picks the hour the user is looking at
(`getCurrentHourData`). It reduces the NOAA planetary K-index feed to one current Kp
value and status (`loadKpIndex`). It then runs the condition evaluator
(`evaluateConditions`): seven if/else-if chains compare the hour's readings and the Kp
value against the drone's limits (`config.limits`). Together they build the `conditions`
record: a `safe` flag, short danger and warning messages, and one detail per reported
dimension. The page turns that record into a status banner, a recommendation list and a
Kp risk label.

The Dafny modules follow that flow:

- `Limits` holds the DJI Mini 2 profile.
- `HourSelector` holds the sample type, the per-hour columns and the hour selection.
  The `Option` type it uses is in `Wrappers`.
- `KpIndex` holds the feed filter, the mean of the last three values and the status
  bands. It also holds `KpState`, a class for `state.kpIndex` and `state.kpStatus`,
  whose `Load` method writes them.
- `Evaluator` holds the bands, details and record.
  - `Evaluate` is the specification: the summary of the details the seven chains select.
  - `EvaluateConditions` is the imperative evaluator. It pushes onto the record chain by
    chain and is proved equal to `Evaluate`.
- `VerdictProperties` holds what that record promises. `safe` is false exactly when
  there is a danger, which is also exactly when a reading is outside the envelope. The
  details keep the fixed dimension order. There are at most six dangers. Each sample
  dimension's band is an integer range; the Kp bands are real ranges.
- `Presentation` holds the banner, the details button, the recommendation policy and the
  Kp risk label.

Units:

- All sample fields except visibility are whole numbers, as `Math.round` leaves them.
- Visibility is in tenths of a km, which is what `toFixed(1)` produces.
- Kp is a real.

Real arithmetic is exact, so the 70% warning thresholds are 20.3 km/h for wind and
26.6 km/h for gusts.

## Model

| member | source | states |
|---|---|---|
| Limits.DjiMini2IsWellFormed | app.js:9-18 | The DJI Mini 2 profile has a non-empty temperature range and positive thresholds, with gusts above sustained wind |
| HourSelector.Round | app.js:182-187 | Rounding lands within half a unit of its argument, halves going up |
| HourSelector.HourIndex | app.js:179 | The index is the requested hour when the forecast has it, otherwise the last hour; it is in range whenever the forecast is non-empty |
| HourSelector.Truthy | app.js:182-187 | The `x \|\| default` test: a missing, NaN or zero entry is falsy, any other number truthy (its characterising lemma is `ValueAt`'s contract) |
| HourSelector.ValueAt | app.js:182-187 | A truthy entry at an in-range index is read as is; a falsy entry or an index past the column's end reads the default |
| HourSelector.SelectHour | app.js:165-176 | With no forecast, the fixed fallback sample (22, 12, 15, 30, 5, 10.0 km) is returned; with one, including one whose columns are empty, `SelectedReadingsAreNearest` and `SelectedVisibilityIsNearestTenth` state every field |
| HourSelector.HoursPastTheEndReadTheLast | app.js:178-187 | Every hour past the end of the forecast reads the same sample as the last hour |
| HourSelector.SelectedReadingsAreNearest | app.js:179-186 | At the clamped hour, temperature, wind, gusts, cloud cover and rain probability are each their entry rounded to within half a unit; a missing, NaN or zero entry, or a column too short for the hour, reads 0; this holds for an empty forecast too, whose index is -1 |
| HourSelector.SelectedVisibilityIsNearestTenth | app.js:179-187 | Visibility is the entry converted to km, to within half a tenth; a falsy entry, 0 m included, reads 10.0 km |
| HourSelector.EmptyForecastReadsDefaults | app.js:179-187 | A forecast with an empty temperature column reads index -1, so every field takes its default: 0 for the five whole-number fields and 10.0 km for visibility |
| KpIndex.StatusOf | app.js:338-341 | The status is low iff Kp ≤ 3, moderate iff 3 < Kp ≤ 5, high iff 5 < Kp ≤ 7, storm iff Kp > 7 |
| KpIndex.IsValid | app.js:330 | A cell is kept iff it is a number, not NaN, and not negative (its characterising lemmas are `ValidReadings` and `InvalidRowIsIgnored`) |
| KpIndex.ValidReadings | app.js:323-330 | The kept values are non-negative feed values, no more of them than rows; none is kept iff no row is valid |
| KpIndex.Recent | app.js:334 | The window is the last min(3, n) values |
| KpIndex.Sum | app.js:335 | The sum of the window; bounded by `SumBelow`, `SumAbove` and `SumIsNonNegative` |
| KpIndex.Mean | app.js:335 | The mean multiplied by the number of values is their sum |
| KpIndex.Aggregate | app.js:320-341 | Any reading produced is non-negative, and its status is the status band of its value |
| KpIndex.ValidReadingsAppend | app.js:323-330 | Filtering commutes with concatenation: rows are filtered independently, in order |
| KpIndex.SumBelow | app.js:335 | A sum of values all below m is below n·m |
| KpIndex.SumAbove | app.js:335 | A sum of values all above m is above n·m |
| KpIndex.SumIsNonNegative | app.js:335 | A sum of non-negative values is non-negative |
| KpIndex.MeanIsNonNegative | app.js:335 | The mean of non-negative values is non-negative |
| KpIndex.MeanIsBetween | app.js:335 | The mean lies between the smallest and the largest averaged value |
| KpIndex.AggregateIsNoneIff | app.js:320-332 | No reading iff the table has no data row or no data row holds a valid value |
| KpIndex.AggregateUsesLastThree | app.js:334-335 | With three or more valid recent rows, older rows do not change the reading |
| KpIndex.AggregateIsWithinRecent | app.js:334-335 | The reading is the mean of the last 1 to 3 valid values and lies between their minimum and maximum |
| KpIndex.ThreeReadingsExample | app.js:323-341 | Valid values 2, 4, 6 give Kp 4.0, moderate |
| KpIndex.InvalidRowIsIgnored | app.js:323-330 | A null, NaN or negative row anywhere in the feed does not change the reading |
| KpIndex.NonNumericFeedExample | app.js:323-332 | A feed with only non-numeric rows gives no reading |
| KpIndex.KpState.constructor | app.js:25-26 | The state starts at Kp 2, status low, which is consistent |
| KpIndex.KpState.Load | app.js:313-351 | A failed fetch or parse installs 2 / low; a table with a reading installs it; a non-table body or a table with no valid row leaves the state unchanged; status and index are consistent after every overwrite, and stay consistent when nothing is written |
| Evaluator.KindOf | app.js:367-503 | The `type` of each band's push: too cold, too hot, strong wind, strong gusts, likely rain, poor visibility and a Kp storm are dangers; the edge temperatures, moderate wind and gusts, possible rain, high cloud, reduced visibility and a disturbed Kp are warnings; the quiet-Kp band is the one `safe` note; `VerdictProperties` band lemmas state which readings select which kind |
| Evaluator.Title | app.js:368-504 | The `title` of each band's detail; `TitleIdentifiesBand` states that no two bands share one |
| Evaluator.Label | app.js:365-494 | The short-message prefix of each danger or warning band; `LabelIdentifiesBand` states that no two share one |
| Evaluator.TitleIdentifiesBand | app.js:364-508 | No two detail titles are equal: each title names exactly one band |
| Evaluator.LabelIdentifiesBand | app.js:364-507 | No two danger or warning labels are equal: each short message names exactly one band |
| Evaluator.TemperatureDetail | app.js:364-391 | The temperature chain's choice; what it selects for each range is `VerdictProperties.TemperatureBands` |
| Evaluator.WindDetail | app.js:393-411 | The wind chain's choice; characterised by `VerdictProperties.WindBands` |
| Evaluator.GustsDetail | app.js:413-431 | The gusts chain's choice; characterised by `VerdictProperties.GustsBands` |
| Evaluator.RainDetail | app.js:433-451 | The rain chain's choice; characterised by `VerdictProperties.RainBands` |
| Evaluator.CloudsDetail | app.js:453-462 | The cloud chain's choice; characterised by `VerdictProperties.CloudsBands` |
| Evaluator.VisibilityDetail | app.js:464-482 | The visibility chain's choice; characterised by `VerdictProperties.VisibilityBands` |
| Evaluator.KpDetail | app.js:484-508 | The Kp chain's choice; characterised by `VerdictProperties.KpBands` |
| Evaluator.Details | app.js:364-508 | The seven chains' selections concatenated in evaluation order; `VerdictProperties.DetailsFollowDimensionOrder` states the order and the bound of seven |
| Evaluator.Summarize | app.js:356-508 | The record of a detail list: `safe` iff no detail is a danger, `dangers` and `warnings` the short forms of the danger and warning details in order; `SummarizeAppend` and `VerdictProperties.NoDangerIffNoDangerMessages` characterise it |
| Evaluator.Evaluate | app.js:355-511 | The record of a sample and a Kp value; `EvaluateConditions` computes it, and `VerdictProperties.SafeIffWithinEnvelope`, `DetailsFollowDimensionOrder` and `AtMostSixDangers` state what it promises |
| Evaluator.InitialIsSummaryOfNothing | app.js:356-361 | The starting record (`Initial`) is safe with empty lists, the summary of no details |
| Evaluator.Push | app.js:364-508 | One branch's push; `ApplyKeepsSummary` states that it keeps `safe` and both message lists in step with `details` |
| Evaluator.Apply | app.js:364-508 | One chain's push of its detail, if any; characterised by `ApplyKeepsSummary` |
| Evaluator.ProjectAppend | app.js:364-507 | The messages of a kind in a concatenation are those of the parts, in order |
| Evaluator.NoDangerAppend | app.js:364-508 | A concatenation has no danger iff neither part has one |
| Evaluator.SummarizeAppend | app.js:364-508 | The summary of a concatenation combines the parts' flags and message lists |
| Evaluator.ApplyKeepsSummary | app.js:364-508 | Running one chain on a summarised record gives the summary of the longer detail list: every push keeps `safe` and both message lists in step with `details` |
| Evaluator.RunChainsIsEvaluate | app.js:355-511 | Running the seven chains in order from the empty record gives the summary of the details they select |
| Evaluator.EvaluateConditions | app.js:355-511 | The record built step by step is `Evaluate`: safe iff no detail is a danger, dangers and warnings the short forms of the danger and warning details in order, details in chain order |
| Evaluator.CheckTemperature | app.js:364-391 | The temperature chain pushes exactly the temperature band's message and detail |
| Evaluator.CheckWind | app.js:393-411 | The wind chain pushes exactly the wind band's message and detail |
| Evaluator.CheckGusts | app.js:413-431 | The gusts chain pushes exactly the gusts band's message and detail |
| Evaluator.CheckRain | app.js:433-451 | The rain chain pushes exactly the rain band's message and detail |
| Evaluator.CheckClouds | app.js:453-462 | The cloud chain pushes at most a warning and its detail |
| Evaluator.CheckVisibility | app.js:464-482 | The visibility chain pushes exactly the visibility band's message and detail |
| Evaluator.CheckGeomagnetic | app.js:484-508 | The Kp chain pushes exactly the Kp band's message and detail; the note pushes only a detail |
| VerdictProperties.TemperatureBands | app.js:364-391 | Danger iff temp < 0 or temp > 40; warning iff 0 ≤ temp < 5 or 35 < temp ≤ 40; nothing iff 5 ≤ temp ≤ 35 |
| VerdictProperties.WindBands | app.js:393-411 | Danger iff wind ≥ 30; warning iff 21 ≤ wind ≤ 29 (29 is a warning, not a danger); nothing iff wind ≤ 20 |
| VerdictProperties.GustsBands | app.js:413-431 | Danger iff gusts ≥ 39; warning iff 27 ≤ gusts ≤ 38; nothing iff gusts ≤ 26 |
| VerdictProperties.RainBands | app.js:433-451 | Danger iff rain ≥ 21 %; warning iff 1 ≤ rain ≤ 20; nothing iff rain ≤ 0 |
| VerdictProperties.CloudsBands | app.js:453-462 | Warning iff clouds ≥ 71 %; never a danger |
| VerdictProperties.VisibilityBands | app.js:464-482 | Danger iff visibility ≤ 2.9 km; warning iff 3.0 to 4.9 km (3.0 is a warning); nothing from 5.0 km |
| VerdictProperties.KpBands | app.js:484-508 | Danger iff Kp > 6; warning iff 4 < Kp ≤ 6; informational note iff 2 < Kp ≤ 4; nothing iff Kp ≤ 2 |
| VerdictProperties.NoDangerIffNoDangerMessages | app.js:364-508 | A detail list has no danger iff its danger messages are empty |
| VerdictProperties.NoDangerOfSeven | app.js:364-508 | Seven chains together have no danger iff none has one |
| VerdictProperties.ProjectOfSeven | app.js:364-507 | The messages of seven chains together are the chains' messages, in chain order |
| VerdictProperties.ProjectOfChain | app.js:364-507 | One chain contributes at most one message, and a danger-free chain no danger message |
| VerdictProperties.ExtendOrder | app.js:364-508 | Appending a later dimension's chain keeps the details in dimension order |
| VerdictProperties.OrderOfFirstFour | app.js:364-451 | The temperature, wind, gusts and rain chains give at most four details in dimension order, all before clouds |
| VerdictProperties.OrderOfSeven | app.js:364-508 | Seven chains in the evaluator's order give at most seven details in dimension order |
| VerdictProperties.SafeIffNoDangers | app.js:364-508 | `safe` is false iff `dangers` is non-empty |
| VerdictProperties.SafeIffWithinEnvelope | app.js:364-508 | `safe` iff 0 ≤ temp ≤ 40, wind ≤ 29, gusts ≤ 38, rain ≤ 20, visibility ≥ 3.0 km and Kp ≤ 6 |
| VerdictProperties.StrongerWindIsNeverSafer | app.js:393-402 | Raising the wind never turns an unsafe record into a safe one |
| VerdictProperties.DetailsFollowDimensionOrder | app.js:364-508 | Details go temperature, wind, gusts, rain, clouds, visibility, Kp; no dimension appears twice; at most seven |
| VerdictProperties.AtMostSixDangers | app.js:364-508 | At most six dangers and at most seven warnings |
| VerdictProperties.CloudsNeverEndanger | app.js:453-462 | Cloud cover changes neither `safe` nor the danger list |
| VerdictProperties.QuietKpOnlyAddsANote | app.js:501-507 | For 2 < Kp ≤ 4 the record equals the quiet-Kp record plus one trailing note detail |
| VerdictProperties.AllClearExample | app.js:355-511 | 20 °C, 10 km/h, gusts 12, clouds 10 %, rain 0, 10 km, Kp 2 give a safe, empty record |
| VerdictProperties.HotDayExample | app.js:373-381 | 45 °C on an otherwise clear day gives exactly one danger and `safe` false |
| VerdictProperties.FallbackSampleExample | app.js:166-175 | The fallback sample with the fallback Kp only warns of possible rain |
| VerdictProperties.QuietKpNoteExample | app.js:501-507 | Kp 3.5 on a clear day adds one note and no message |
| Presentation.BannerOf | app.js:618-633 | The banner's choice; `BannerFollowsSafety` and `NoFlyIffOutsideEnvelope` characterise it |
| Presentation.ShowsDetailsButton | app.js:611-615 | The details button's test; `DetailsButtonUnlessOptimal` characterises it |
| Presentation.BannerFollowsSafety | app.js:618-633 | "NO VOLAR" iff not safe; "VOLAR CON PRECAUCIÓN" iff safe with warnings; "CONDICIONES ÓPTIMAS" iff safe without warnings |
| Presentation.NoFlyIffOutsideEnvelope | app.js:618-622 | "NO VOLAR" iff some reading is outside the envelope |
| Presentation.DetailsButtonUnlessOptimal | app.js:610-615 | The details button shows iff the banner is not "CONDICIONES ÓPTIMAS" |
| Presentation.Negatives | app.js:642-644 | One negative line per danger, in order |
| Presentation.Advisories | app.js:647-649 | One warning line per warning, in order |
| Presentation.Recommendations | app.js:642-661 | The recommendation list; it has four lines when the record is safe with nothing reported, and otherwise one line per danger and per warning plus the "with care" line when safe, and `RecommendationPolicy` states its whole shape |
| Presentation.PositiveCountAppend | app.js:642-661 | Positive lines of a concatenation add up |
| Presentation.NoPositiveAmongMessages | app.js:642-649 | A list of danger and warning lines has no positive line |
| Presentation.RecommendationPolicy | app.js:642-661 | Dangers first, then warnings, in order; the four positive lines iff safe with both lists empty; otherwise exactly one "posible con precauciones" line at the end when safe, none when not |
| Presentation.AllClearLinesOnlyWhenNothingReported | app.js:652-658 | The four positive lines appear iff the record is safe with no message |
| Presentation.AllClearLinesIffOptimal | app.js:618-633 | For an evaluated record the four positive lines appear iff the banner is "CONDICIONES ÓPTIMAS" |
| Presentation.RiskLabel | app.js:697-701 | The risk label's choice; `RiskLabelAgreesWithStatus` and `HighRiskIffKpReported` characterise it |
| Presentation.RiskLabelAgreesWithStatus | app.js:697-701 | "(Normal)" iff the status is low; "(Precaución)" iff moderate with Kp ≤ 4; "(Alto riesgo)" iff Kp > 4 |
| Presentation.HighRiskIffKpReported | app.js:719-725 | "(Alto riesgo)" iff the evaluator reports a Kp warning or danger |

## Left out

- Network and asynchrony: the forecast, geocoding and Kp `fetch` calls, the CORS proxy and the synthetic fallback forecast are left out. `KpState.Load` takes the outcome of fetching and parsing as a parameter instead.
- Overlapping loads: the race between two loads is not modelled. Each `Load` is one settled response.
- The DOM: element lookups, event listeners, the clock, debouncing, style toggles, the details modal and injected styles are left out. The banner, the details button, the recommendations and the risk label are modelled as values; the HTML they become is not.
- Message prose: detail messages and the `toFixed(1)` formatting inside messages are left out. A detail carries its band, which fixes its type, title and short label; the icon is not modelled. A short message carries its band and the reading it quotes.
- IEEE behaviour of `parseFloat`, `Math.round` and `toFixed`: these are treated as given.
  - A feed cell is already a number or `None`.
  - Rounding is half-up on exact reals, so `toFixed` on a binary value that is not exact may differ from it.
  - In IEEE, 29·0.7 is 20.299999999999997. That makes no difference here, because wind and gusts are whole numbers.
- Arithmetic and missing columns:
  - On a negative tie, `toFixed(1)` rounds away from zero, while `Round` rounds upwards. This only matters for a negative visibility, which is a danger either way.
  - The mean of the last three Kp values is a floating-point sum and division in the source; the model uses exact reals.
  - A missing hourly column makes the source throw a `TypeError` when it is read. `Hourly` always has all six columns, so this case cannot be represented.
- Visibility type: the source compares visibility as the string `toFixed(1)` returns, which JavaScript converts back to a number. The model uses the number directly. With no forecast, the source's fallback sample has the number 10; the model's fallback has 100 tenths.
- The Kp marker position (`kpIndex / 9 · 100 %`) in `updateKpDisplay` is presentation only and is not modelled.
- `Evaluator.EvaluateConditions`: the seven chains are separate methods (`CheckTemperature` … `CheckGeomagnetic`) called in order, not one method body. Each one's branches and pushes are those of the source.
- Recommendations: nothing is left out, but two details are easy to miss. The four positive lines need `safe` as well as two empty lists. A safe record with messages also gets the extra "Vuelo posible con precauciones" line. The model follows the code on both.
- Banner: the source tests `!safe || dangers.length > 0`. The model keeps both tests, and `BannerFollowsSafety` shows the second is redundant for evaluated records.
- Kp thresholds: the evaluator compares Kp with the literals 6, 4 and 2, not with `config.limits.kpIndex`. The risk label uses `config.limits.kpIndex` (4) and 3. Both are modelled as written.
