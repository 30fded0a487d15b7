/**
 * The condition evaluator (`evaluateConditions` in app.js): seven independent
 * if/else-if chains, one per measured dimension, that together decide whether the
 * DJI Mini 2 may fly and why.
 */
module Evaluator {
  import opened Limits
  import opened HourSelector

  /** The measured dimensions, in the order the evaluator visits them. */
  datatype Dimension = Temperature | Wind | Gusts | Rain | Clouds | Visibility | Geomagnetic

  function Rank(d: Dimension): nat {
    match d
    case Temperature => 0
    case Wind => 1
    case Gusts => 2
    case Rain => 3
    case Clouds => 4
    case Visibility => 5
    case Geomagnetic => 6
  }

  /** A detail's `type`: 'danger', 'warning' or 'safe' (an informational note). */
  datatype Kind = Danger | Warning | Safe

  /** Every band a chain can select. A band fixes its detail's type and title and,
      for dangers and warnings, the label of the short message pushed beside it. */
  datatype Band =
    | TempLow | TempHigh | TempEdge
    | WindStrong | WindModerate
    | GustsStrong | GustsModerate
    | RainLikely | RainPossible
    | CloudsHigh
    | VisibilityPoor | VisibilityReduced
    | KpStorm | KpDisturbed | KpQuiet

  function DimensionOf(b: Band): Dimension {
    match b
    case TempLow | TempHigh | TempEdge => Temperature
    case WindStrong | WindModerate => Wind
    case GustsStrong | GustsModerate => Gusts
    case RainLikely | RainPossible => Rain
    case CloudsHigh => Clouds
    case VisibilityPoor | VisibilityReduced => Visibility
    case KpStorm | KpDisturbed | KpQuiet => Geomagnetic
  }

  function KindOf(b: Band): Kind {
    match b
    case TempLow | TempHigh | WindStrong | GustsStrong | RainLikely | VisibilityPoor | KpStorm => Danger
    case TempEdge | WindModerate | GustsModerate | RainPossible | CloudsHigh | VisibilityReduced
      | KpDisturbed => Warning
    case KpQuiet => Safe
  }

  /** The detail's title. */
  function Title(b: Band): string {
    match b
    case TempLow => "Temperatura baja"
    case TempHigh => "Temperatura alta"
    case TempEdge => "Temperatura extrema"
    case WindStrong => "Viento excesivo"
    case WindModerate => "Viento moderado"
    case GustsStrong => "Ráfagas peligrosas"
    case GustsModerate => "Ráfagas presentes"
    case RainLikely => "Riesgo de lluvia"
    case RainPossible => "Posible lluvia"
    case CloudsHigh => "Nubosidad alta"
    case VisibilityPoor => "Visibilidad limitada"
    case VisibilityReduced => "Visibilidad reducida"
    case KpStorm => "Tormenta geomagnética"
    case KpDisturbed => "Alteraciones magnéticas"
    case KpQuiet => "Actividad geomagnética baja"
  }

  /** The text of the short message, before the parenthesised reading. */
  function Label(b: Band): string
    requires KindOf(b) != Safe
  {
    match b
    case TempLow => "Temperatura muy baja"
    case TempHigh => "Temperatura muy alta"
    case TempEdge => "Temperatura en límites"
    case WindStrong => "Viento fuerte"
    case WindModerate => "Viento moderado"
    case GustsStrong => "Ráfagas fuertes"
    case GustsModerate => "Ráfagas moderadas"
    case RainLikely => "Probabilidad de lluvia alta"
    case RainPossible => "Posibilidad de lluvia"
    case CloudsHigh => "Mucha nubosidad"
    case VisibilityPoor => "Visibilidad reducida"
    case VisibilityReduced => "Visibilidad moderada"
    case KpStorm => "Alta actividad geomagnética"
    case KpDisturbed => "Actividad geomagnética moderada"
  }

  /** No two bands share a title: the details list names each case the chains tell apart. */
  lemma TitleIdentifiesBand(a: Band, b: Band)
    ensures Title(a) == Title(b) <==> a == b
  {
  }

  /** No two dangers or warnings share a short message label. */
  lemma LabelIdentifiesBand(a: Band, b: Band)
    requires KindOf(a) != Safe && KindOf(b) != Safe
    ensures Label(a) == Label(b) <==> a == b
  {
  }

  /** One entry of `details`: the band it reports and the reading its message quotes
      (degrees C, km/h, percent, km or Kp). */
  datatype Detail = Detail(band: Band, reading: real)

  /** One entry of `dangers` or `warnings`: the short message `Label(band) (reading)`. */
  datatype Notice = Notice(band: Band, reading: real)

  /** The evaluator's result, the `conditions` record. */
  datatype Verdict = Verdict(safe: bool, warnings: seq<Notice>, dangers: seq<Notice>, details: seq<Detail>)

  /** The short message that goes with a danger or warning detail. */
  function ShortForm(d: Detail): Notice
    requires KindOf(d.band) != Safe
  {
    Notice(d.band, d.reading)
  }

  /** Visibility in km from the sample's tenths. */
  function Km(tenths: int): real {
    tenths as real / 10.0
  }

  // The seven chains, each giving the one detail it selects or none.

  function TemperatureDetail(temp: int): seq<Detail> {
    if temp < DjiMini2.tempMin then [Detail(TempLow, temp as real)]
    else if temp > DjiMini2.tempMax then [Detail(TempHigh, temp as real)]
    else if temp < 5 || temp > 35 then [Detail(TempEdge, temp as real)]
    else []
  }

  function WindDetail(wind: int): seq<Detail> {
    if wind > DjiMini2.wind then [Detail(WindStrong, wind as real)]
    else if wind as real > DjiMini2.wind as real * 0.7 then [Detail(WindModerate, wind as real)]
    else []
  }

  function GustsDetail(gusts: int): seq<Detail> {
    if gusts > DjiMini2.gusts then [Detail(GustsStrong, gusts as real)]
    else if gusts as real > DjiMini2.gusts as real * 0.7 then [Detail(GustsModerate, gusts as real)]
    else []
  }

  function RainDetail(rain: int): seq<Detail> {
    if rain > DjiMini2.rain then [Detail(RainLikely, rain as real)]
    else if rain > 0 then [Detail(RainPossible, rain as real)]
    else []
  }

  function CloudsDetail(clouds: int): seq<Detail> {
    if clouds > DjiMini2.clouds then [Detail(CloudsHigh, clouds as real)] else []
  }

  function VisibilityDetail(visibility: int): seq<Detail> {
    if Km(visibility) < DjiMini2.visibility as real then [Detail(VisibilityPoor, Km(visibility))]
    else if Km(visibility) < 5.0 then [Detail(VisibilityReduced, Km(visibility))]
    else []
  }

  function KpDetail(kp: real): seq<Detail> {
    if kp > 6.0 then [Detail(KpStorm, kp)]
    else if kp > 4.0 then [Detail(KpDisturbed, kp)]
    else if kp > 2.0 then [Detail(KpQuiet, kp)]
    else []
  }

  /** All details, in dimension order. */
  function Details(s: Sample, kp: real): seq<Detail> {
    TemperatureDetail(s.temp) + WindDetail(s.wind) + GustsDetail(s.gusts) + RainDetail(s.rain)
      + CloudsDetail(s.clouds) + VisibilityDetail(s.visibility) + KpDetail(kp)
  }

  /** The short messages of the details of kind `k`, in order. */
  function Project(ds: seq<Detail>, k: Kind): seq<Notice>
    requires k != Safe
  {
    if ds == [] then []
    else (if KindOf(ds[0].band) == k then [ShortForm(ds[0])] else []) + Project(ds[1..], k)
  }

  /** No detail in `ds` is a danger. */
  predicate NoDanger(ds: seq<Detail>) {
    ds == [] || (KindOf(ds[0].band) != Danger && NoDanger(ds[1..]))
  }

  /** The record a detail list determines: safe exactly when no detail is a danger, and
      the two message lists the short forms of the danger and warning details. */
  function Summarize(ds: seq<Detail>): Verdict {
    Verdict(NoDanger(ds), Project(ds, Warning), Project(ds, Danger), ds)
  }

  /** What the evaluator decides for one sample and the current Kp index. */
  function Evaluate(s: Sample, kp: real): Verdict {
    Summarize(Details(s, kp))
  }

  lemma {:induction false} ProjectAppend(a: seq<Detail>, b: seq<Detail>, k: Kind)
    requires k != Safe
    ensures Project(a + b, k) == Project(a, k) + Project(b, k)
  {
    if a == [] {
      assert a + b == b;
    } else {
      var head := if KindOf(a[0].band) == k then [ShortForm(a[0])] else [];
      assert (a + b)[0] == a[0];
      assert (a + b)[1..] == a[1..] + b;
      ProjectAppend(a[1..], b, k);
      assert Project(a + b, k) == head + (Project(a[1..], k) + Project(b, k));
      assert Project(a, k) == head + Project(a[1..], k);
    }
  }

  lemma {:induction false} NoDangerAppend(a: seq<Detail>, b: seq<Detail>)
    ensures NoDanger(a + b) == (NoDanger(a) && NoDanger(b))
  {
    if a == [] {
      assert a + b == b;
    } else {
      assert (a + b)[1..] == a[1..] + b;
      NoDangerAppend(a[1..], b);
    }
  }

  /** Appending further details to a summarised list summarises the longer list. */
  lemma SummarizeAppend(a: seq<Detail>, b: seq<Detail>)
    ensures Summarize(a + b) == Verdict(
      NoDanger(a) && NoDanger(b),
      Project(a, Warning) + Project(b, Warning),
      Project(a, Danger) + Project(b, Danger),
      a + b)
  {
    ProjectAppend(a, b, Warning);
    ProjectAppend(a, b, Danger);
    NoDangerAppend(a, b);
  }

  /** The empty record every evaluation starts from. */
  const Initial: Verdict := Verdict(safe := true, warnings := [], dangers := [], details := [])

  /** The empty record is the summary of no details: safe, with nothing reported. */
  lemma InitialIsSummaryOfNothing()
    ensures Initial == Summarize([])
    ensures Initial.safe && Initial.warnings == [] && Initial.dangers == [] && Initial.details == []
  {
  }

  /** What one branch of a chain does to the record: a danger pushes its short form onto
      `dangers` and clears `safe`, a warning pushes its short form onto `warnings`, and
      every band pushes its detail. */
  function Push(c: Verdict, d: Detail): Verdict {
    match KindOf(d.band)
    case Danger => c.(dangers := c.dangers + [ShortForm(d)], details := c.details + [d], safe := false)
    case Warning => c.(warnings := c.warnings + [ShortForm(d)], details := c.details + [d])
    case Safe => c.(details := c.details + [d])
  }

  /** What one whole chain does: push the detail it selects, if any. */
  function Apply(c: Verdict, band: seq<Detail>): Verdict
    requires |band| <= 1
  {
    if band == [] then c else Push(c, band[0])
  }

  /** The seven chains run in order on the empty record. */
  function RunChains(s: Sample, kp: real): Verdict {
    var c := Apply(Initial, TemperatureDetail(s.temp));
    var c := Apply(c, WindDetail(s.wind));
    var c := Apply(c, GustsDetail(s.gusts));
    var c := Apply(c, RainDetail(s.rain));
    var c := Apply(c, CloudsDetail(s.clouds));
    var c := Apply(c, VisibilityDetail(s.visibility));
    Apply(c, KpDetail(kp))
  }

  /** Running a chain on a summarised record gives the summary of the longer detail list:
      every push keeps `safe` and the two message lists in step with `details`. */
  lemma ApplyKeepsSummary(ds: seq<Detail>, band: seq<Detail>)
    requires |band| <= 1
    ensures Apply(Summarize(ds), band) == Summarize(ds + band)
  {
    if band == [] {
      assert ds + band == ds;
    } else {
      SummarizeAppend(ds, band);
      assert band == [band[0]];
    }
  }

  /** The record the chains build is the summary of the details they select. */
  lemma RunChainsIsEvaluate(s: Sample, kp: real)
    ensures RunChains(s, kp) == Evaluate(s, kp)
  {
    var t, w, g := TemperatureDetail(s.temp), WindDetail(s.wind), GustsDetail(s.gusts);
    var r, cl := RainDetail(s.rain), CloudsDetail(s.clouds);
    var v, k := VisibilityDetail(s.visibility), KpDetail(kp);
    InitialIsSummaryOfNothing();
    ApplyKeepsSummary([], t);
    assert [] + t == t;
    ApplyKeepsSummary(t, w);
    ApplyKeepsSummary(t + w, g);
    ApplyKeepsSummary(t + w + g, r);
    ApplyKeepsSummary(t + w + g + r, cl);
    ApplyKeepsSummary(t + w + g + r + cl, v);
    ApplyKeepsSummary(t + w + g + r + cl + v, k);
  }

  /**
   * `evaluateConditions(data)` with `state.kpIndex` passed as `kp`. It starts from a safe
   * record with empty lists and runs the seven chains in order; each pushes at most one
   * short message and one detail, clearing `safe` on every danger.
   */
  method EvaluateConditions(data: Sample, kp: real) returns (c: Verdict)
    ensures c == Evaluate(data, kp)
  {
    c := Verdict(safe := true, warnings := [], dangers := [], details := []);
    c := CheckTemperature(c, data.temp);
    c := CheckWind(c, data.wind);
    c := CheckGusts(c, data.gusts);
    c := CheckRain(c, data.rain);
    c := CheckClouds(c, data.clouds);
    c := CheckVisibility(c, data.visibility);
    c := CheckGeomagnetic(c, kp);
    RunChainsIsEvaluate(data, kp);
  }

  /** The temperature chain: below the minimum or above the maximum is a danger, within
      5 degrees of either end a warning. */
  method CheckTemperature(c: Verdict, temp: int) returns (r: Verdict)
    ensures r == Apply(c, TemperatureDetail(temp))
  {
    r := c;
    if temp < DjiMini2.tempMin {
      var d := Detail(TempLow, temp as real);
      r := r.(dangers := r.dangers + [ShortForm(d)], details := r.details + [d], safe := false);
    } else if temp > DjiMini2.tempMax {
      var d := Detail(TempHigh, temp as real);
      r := r.(dangers := r.dangers + [ShortForm(d)], details := r.details + [d], safe := false);
    } else if temp < 5 || temp > 35 {
      var d := Detail(TempEdge, temp as real);
      r := r.(warnings := r.warnings + [ShortForm(d)], details := r.details + [d]);
    }
  }

  /** The wind chain: above the limit is a danger, above 70% of it a warning. */
  method CheckWind(c: Verdict, wind: int) returns (r: Verdict)
    ensures r == Apply(c, WindDetail(wind))
  {
    r := c;
    if wind > DjiMini2.wind {
      var d := Detail(WindStrong, wind as real);
      r := r.(dangers := r.dangers + [ShortForm(d)], details := r.details + [d], safe := false);
    } else if wind as real > DjiMini2.wind as real * 0.7 {
      var d := Detail(WindModerate, wind as real);
      r := r.(warnings := r.warnings + [ShortForm(d)], details := r.details + [d]);
    }
  }

  /** The gusts chain: above the limit is a danger, above 70% of it a warning. */
  method CheckGusts(c: Verdict, gusts: int) returns (r: Verdict)
    ensures r == Apply(c, GustsDetail(gusts))
  {
    r := c;
    if gusts > DjiMini2.gusts {
      var d := Detail(GustsStrong, gusts as real);
      r := r.(dangers := r.dangers + [ShortForm(d)], details := r.details + [d], safe := false);
    } else if gusts as real > DjiMini2.gusts as real * 0.7 {
      var d := Detail(GustsModerate, gusts as real);
      r := r.(warnings := r.warnings + [ShortForm(d)], details := r.details + [d]);
    }
  }

  /** The rain chain: a probability above the limit is a danger, any positive one a warning. */
  method CheckRain(c: Verdict, rain: int) returns (r: Verdict)
    ensures r == Apply(c, RainDetail(rain))
  {
    r := c;
    if rain > DjiMini2.rain {
      var d := Detail(RainLikely, rain as real);
      r := r.(dangers := r.dangers + [ShortForm(d)], details := r.details + [d], safe := false);
    } else if rain > 0 {
      var d := Detail(RainPossible, rain as real);
      r := r.(warnings := r.warnings + [ShortForm(d)], details := r.details + [d]);
    }
  }

  /** The cloud chain: cover above the limit is a warning, never a danger. */
  method CheckClouds(c: Verdict, clouds: int) returns (r: Verdict)
    ensures r == Apply(c, CloudsDetail(clouds))
  {
    r := c;
    if clouds > DjiMini2.clouds {
      var d := Detail(CloudsHigh, clouds as real);
      r := r.(warnings := r.warnings + [ShortForm(d)], details := r.details + [d]);
    }
  }

  /** The visibility chain: below the limit is a danger, below 5 km a warning. */
  method CheckVisibility(c: Verdict, visibility: int) returns (r: Verdict)
    ensures r == Apply(c, VisibilityDetail(visibility))
  {
    r := c;
    if Km(visibility) < DjiMini2.visibility as real {
      var d := Detail(VisibilityPoor, Km(visibility));
      r := r.(dangers := r.dangers + [ShortForm(d)], details := r.details + [d], safe := false);
    } else if Km(visibility) < 5.0 {
      var d := Detail(VisibilityReduced, Km(visibility));
      r := r.(warnings := r.warnings + [ShortForm(d)], details := r.details + [d]);
    }
  }

  /** The geomagnetic chain, on fixed thresholds: above 6 a danger, above 4 a warning,
      above 2 a note that changes neither list. */
  method CheckGeomagnetic(c: Verdict, kp: real) returns (r: Verdict)
    ensures r == Apply(c, KpDetail(kp))
  {
    r := c;
    if kp > 6.0 {
      var d := Detail(KpStorm, kp);
      r := r.(dangers := r.dangers + [ShortForm(d)], details := r.details + [d], safe := false);
    } else if kp > 4.0 {
      var d := Detail(KpDisturbed, kp);
      r := r.(warnings := r.warnings + [ShortForm(d)], details := r.details + [d]);
    } else if kp > 2.0 {
      r := r.(details := r.details + [Detail(KpQuiet, kp)]);
    }
  }
}
