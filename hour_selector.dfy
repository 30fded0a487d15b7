/**
 * The hour selector (`getCurrentHourData` in app.js): picks one hour out of the
 * forecast's parallel per-hour columns and turns it into the sample the condition
 * evaluator reads.
 */
module HourSelector {
  import opened Wrappers

  /** One hour's readings, as the evaluator sees them: temperature in degrees C, wind and
      gusts in km/h, cloud cover and rain probability in percent, all rounded to whole
      numbers, and visibility in TENTHS of a km (the one-decimal string the source
      produces, read as a number). */
  datatype Sample = Sample(
    temp: int,
    wind: int,
    gusts: int,
    clouds: int,
    rain: int,
    visibility: int)

  /** The forecast's hourly block. Each entry is `None` when it is null, undefined or not
      a number; visibility is in metres. */
  datatype Hourly = Hourly(
    temperature: seq<Option<real>>,
    windspeed: seq<Option<real>>,
    windgusts: seq<Option<real>>,
    cloudcover: seq<Option<real>>,
    precipitation: seq<Option<real>>,
    visibility: seq<Option<real>>)

  /** The sample used when no forecast has been loaded. */
  const FallbackSample: Sample := Sample(22, 12, 15, 30, 5, 100)

  /** Visibility, in metres, assumed for a falsy visibility entry. */
  const DefaultVisibilityMetres: real := 10000.0

  /** Rounding to the nearest integer, halves upwards: `Math.round` and, on tenths,
      `toFixed(1)`. */
  function Round(x: real): (n: int)
    ensures n as real - 0.5 <= x < n as real + 0.5
  {
    (x + 0.5).Floor
  }

  /** JavaScript truthiness of a numeric entry: missing, NaN and zero are falsy. */
  predicate Truthy(e: Option<real>) {
    e.Some? && e.value != 0.0
  }

  /** `column[i] || default`; an index outside the column reads undefined. */
  function ValueAt(column: seq<Option<real>>, i: int, default: real): (v: real)
    ensures 0 <= i < |column| && Truthy(column[i]) ==> v == column[i].value && v != 0.0
    ensures !(0 <= i < |column| && Truthy(column[i])) ==> v == default
  {
    if 0 <= i < |column| && Truthy(column[i]) then column[i].value else default
  }

  /** `Math.min(hour, n - 1)`: the requested hour, clamped to the last one available. */
  function HourIndex(hour: nat, n: nat): (i: int)
    ensures n > 0 ==> 0 <= i < n
    ensures hour < n ==> i == hour
    ensures hour >= n ==> i == n - 1
  {
    if hour < n - 1 then hour else n - 1
  }

  /** The sample for `hour`; the index is clamped against the temperature column. */
  function SelectHour(forecast: Option<Hourly>, hour: nat): (s: Sample)
    ensures forecast.None? ==> s == FallbackSample
  {
    match forecast
    case None => FallbackSample
    case Some(h) =>
      var i := HourIndex(hour, |h.temperature|);
      Sample(
        Round(ValueAt(h.temperature, i, 0.0)),
        Round(ValueAt(h.windspeed, i, 0.0)),
        Round(ValueAt(h.windgusts, i, 0.0)),
        Round(ValueAt(h.cloudcover, i, 0.0)),
        Round(ValueAt(h.precipitation, i, 0.0)),
        Round(ValueAt(h.visibility, i, DefaultVisibilityMetres) / 100.0))
  }

  /** Every hour past the end of the forecast reads the last hour. */
  lemma HoursPastTheEndReadTheLast(h: Hourly, hour: nat)
    requires |h.temperature| > 0
    requires hour >= |h.temperature|
    ensures SelectHour(Some(h), hour) == SelectHour(Some(h), |h.temperature| - 1)
  {
  }

  /** `Math.round(column[i] || 0)` at `n`: a truthy entry is rounded to within half a
      unit, and a falsy or missing one reads 0. */
  predicate NearestOrZero(n: int, column: seq<Option<real>>, i: int) {
    && (0 <= i < |column| && Truthy(column[i]) ==> -0.5 < n as real - column[i].value <= 0.5)
    && (!(0 <= i < |column| && Truthy(column[i])) ==> n == 0)
  }

  /** At the clamped index, each whole-number reading is its column's entry rounded to
      within half a unit, or 0 for a falsy or missing entry. */
  lemma SelectedReadingsAreNearest(h: Hourly, hour: nat)
    ensures var i := HourIndex(hour, |h.temperature|);
      var s := SelectHour(Some(h), hour);
      && NearestOrZero(s.temp, h.temperature, i)
      && NearestOrZero(s.wind, h.windspeed, i)
      && NearestOrZero(s.gusts, h.windgusts, i)
      && NearestOrZero(s.clouds, h.cloudcover, i)
      && NearestOrZero(s.rain, h.precipitation, i)
  {
  }

  /** The visibility read is the entry in km to within half a tenth, and a falsy entry,
      zero metres included, reads as 10.0 km. */
  lemma SelectedVisibilityIsNearestTenth(h: Hourly, hour: nat)
    ensures var i := HourIndex(hour, |h.temperature|);
      var s := SelectHour(Some(h), hour);
      && (0 <= i < |h.visibility| && Truthy(h.visibility[i]) ==>
            -0.05 < s.visibility as real / 10.0 - h.visibility[i].value / 1000.0 <= 0.05)
      && (!(0 <= i < |h.visibility| && Truthy(h.visibility[i])) ==> s.visibility == 100)
  {
  }

  /** With an empty temperature column the index is -1, so every entry reads undefined:
      the five whole-number fields read 0 and visibility 10.0 km. */
  lemma EmptyForecastReadsDefaults(h: Hourly, hour: nat)
    requires |h.temperature| == 0
    ensures SelectHour(Some(h), hour) == Sample(0, 0, 0, 0, 0, 100)
  {
  }
}
