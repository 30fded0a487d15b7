/**
 * What the evaluator's record promises: `safe` and the danger list move together, the
 * safety envelope in integer terms, one detail per dimension in a fixed order, the
 * message lists as projections chain by chain, and worked examples.
 */
module VerdictProperties {
  import opened Limits
  import opened HourSelector
  import opened Evaluator

  /** What a chain gives: no detail, or one detail of dimension `dim`. */
  predicate IsChain(p: seq<Detail>, dim: Dimension) {
    |p| <= 1 && (p != [] ==> DimensionOf(p[0].band) == dim)
  }

  /** Ranks strictly increase along the list. */
  predicate InDimensionOrder(ds: seq<Detail>) {
    forall i, j :: 0 <= i < j < |ds| ==> Rank(DimensionOf(ds[i].band)) < Rank(DimensionOf(ds[j].band))
  }

  /** Every rank in the list is below `n`. */
  predicate RanksBelow(ds: seq<Detail>, n: nat) {
    forall i :: 0 <= i < |ds| ==> Rank(DimensionOf(ds[i].band)) < n
  }

  /** Every reading no worse than its limit (temperature inside the range, visibility in
      tenths of a km) and Kp at most 6. */
  predicate WithinEnvelope(s: Sample, kp: real) {
    && DjiMini2.tempMin <= s.temp <= DjiMini2.tempMax
    && s.wind <= DjiMini2.wind
    && s.gusts <= DjiMini2.gusts
    && s.rain <= DjiMini2.rain
    && s.visibility >= 10 * DjiMini2.visibility
    && kp <= 6.0
  }

  /** A detail list has no danger exactly when its danger projection is empty. */
  lemma {:induction false} NoDangerIffNoDangerMessages(ds: seq<Detail>)
    ensures NoDanger(ds) <==> Project(ds, Danger) == []
  {
    if ds != [] {
      NoDangerIffNoDangerMessages(ds[1..]);
    }
  }

  /** Seven chains in a row have no danger exactly when none of them has one. */
  lemma NoDangerOfSeven(t: seq<Detail>, w: seq<Detail>, g: seq<Detail>, r: seq<Detail>,
                        c: seq<Detail>, v: seq<Detail>, k: seq<Detail>)
    ensures NoDanger(t + w + g + r + c + v + k) <==>
      NoDanger(t) && NoDanger(w) && NoDanger(g) && NoDanger(r) && NoDanger(c) && NoDanger(v) && NoDanger(k)
  {
    NoDangerAppend(t, w);
    NoDangerAppend(t + w, g);
    NoDangerAppend(t + w + g, r);
    NoDangerAppend(t + w + g + r, c);
    NoDangerAppend(t + w + g + r + c, v);
    NoDangerAppend(t + w + g + r + c + v, k);
  }

  /** The messages of kind `kind` of seven chains in a row, chain by chain. */
  lemma ProjectOfSeven(t: seq<Detail>, w: seq<Detail>, g: seq<Detail>, r: seq<Detail>,
                       c: seq<Detail>, v: seq<Detail>, k: seq<Detail>, kind: Kind)
    requires kind != Safe
    ensures Project(t + w + g + r + c + v + k, kind) ==
      Project(t, kind) + Project(w, kind) + Project(g, kind) + Project(r, kind)
      + Project(c, kind) + Project(v, kind) + Project(k, kind)
  {
    ProjectAppend(t, w, kind);
    ProjectAppend(t + w, g, kind);
    ProjectAppend(t + w + g, r, kind);
    ProjectAppend(t + w + g + r, c, kind);
    ProjectAppend(t + w + g + r + c, v, kind);
    ProjectAppend(t + w + g + r + c + v, k, kind);
  }

  /** A chain contributes at most one message, and a danger-free one no danger message. */
  lemma ProjectOfChain(p: seq<Detail>, dim: Dimension, kind: Kind)
    requires IsChain(p, dim) && kind != Safe
    ensures |Project(p, kind)| <= 1
    ensures kind == Danger && NoDanger(p) ==> Project(p, kind) == []
  {
  }

  /** Appending a chain of rank `n` to an ordered list of lower ranks keeps it ordered,
      with ranks now below `n + 1`. */
  lemma ExtendOrder(a: seq<Detail>, p: seq<Detail>, dim: Dimension)
    requires InDimensionOrder(a) && RanksBelow(a, Rank(dim)) && IsChain(p, dim)
    ensures InDimensionOrder(a + p) && RanksBelow(a + p, Rank(dim) + 1)
  {
  }

  /** The first four chains give a list in dimension order, of ranks below that of clouds. */
  lemma OrderOfFirstFour(t: seq<Detail>, w: seq<Detail>, g: seq<Detail>, r: seq<Detail>)
    requires IsChain(t, Temperature) && IsChain(w, Wind) && IsChain(g, Gusts) && IsChain(r, Rain)
    ensures InDimensionOrder(t + w + g + r) && RanksBelow(t + w + g + r, Rank(Clouds))
    ensures |t + w + g + r| <= 4
  {
    assert [] + t == t;
    ExtendOrder([], t, Temperature);
    ExtendOrder(t, w, Wind);
    ExtendOrder(t + w, g, Gusts);
    ExtendOrder(t + w + g, r, Rain);
  }

  /** The seven chains in the evaluator's order give a list in dimension order. */
  lemma OrderOfSeven(t: seq<Detail>, w: seq<Detail>, g: seq<Detail>, r: seq<Detail>,
                     c: seq<Detail>, v: seq<Detail>, k: seq<Detail>)
    requires IsChain(t, Temperature) && IsChain(w, Wind) && IsChain(g, Gusts) && IsChain(r, Rain)
    requires IsChain(c, Clouds) && IsChain(v, Visibility) && IsChain(k, Geomagnetic)
    ensures InDimensionOrder(t + w + g + r + c + v + k)
    ensures |t + w + g + r + c + v + k| <= 7
  {
    var p := t + w + g + r;
    OrderOfFirstFour(t, w, g, r);
    ExtendOrder(p, c, Clouds);
    ExtendOrder(p + c, v, Visibility);
    ExtendOrder(p + c + v, k, Geomagnetic);
  }

  // The band each chain selects, as a range of the rounded reading.

  lemma TemperatureBands(temp: int)
    ensures TemperatureDetail(temp) == [Detail(TempLow, temp as real)] <==> temp < 0
    ensures TemperatureDetail(temp) == [Detail(TempHigh, temp as real)] <==> temp > 40
    ensures TemperatureDetail(temp) == [Detail(TempEdge, temp as real)] <==> 0 <= temp < 5 || 35 < temp <= 40
    ensures TemperatureDetail(temp) == [] <==> 5 <= temp <= 35
    ensures IsChain(TemperatureDetail(temp), Temperature)
    ensures NoDanger(TemperatureDetail(temp)) <==> 0 <= temp <= 40
  {
  }

  /** 70% of the 29 km/h limit is 20.3, so 21 to 29 km/h is a warning and 29 is not a danger. */
  lemma WindBands(wind: int)
    ensures WindDetail(wind) == [Detail(WindStrong, wind as real)] <==> wind >= 30
    ensures WindDetail(wind) == [Detail(WindModerate, wind as real)] <==> 21 <= wind <= 29
    ensures WindDetail(wind) == [] <==> wind <= 20
    ensures IsChain(WindDetail(wind), Wind)
    ensures NoDanger(WindDetail(wind)) <==> wind <= 29
  {
  }

  /** 70% of the 38 km/h limit is 26.6, so 27 to 38 km/h is a warning. */
  lemma GustsBands(gusts: int)
    ensures GustsDetail(gusts) == [Detail(GustsStrong, gusts as real)] <==> gusts >= 39
    ensures GustsDetail(gusts) == [Detail(GustsModerate, gusts as real)] <==> 27 <= gusts <= 38
    ensures GustsDetail(gusts) == [] <==> gusts <= 26
    ensures IsChain(GustsDetail(gusts), Gusts)
    ensures NoDanger(GustsDetail(gusts)) <==> gusts <= 38
  {
  }

  lemma RainBands(rain: int)
    ensures RainDetail(rain) == [Detail(RainLikely, rain as real)] <==> rain >= 21
    ensures RainDetail(rain) == [Detail(RainPossible, rain as real)] <==> 1 <= rain <= 20
    ensures RainDetail(rain) == [] <==> rain <= 0
    ensures IsChain(RainDetail(rain), Rain)
    ensures NoDanger(RainDetail(rain)) <==> rain <= 20
  {
  }

  lemma CloudsBands(clouds: int)
    ensures CloudsDetail(clouds) == [Detail(CloudsHigh, clouds as real)] <==> clouds >= 71
    ensures CloudsDetail(clouds) == [] <==> clouds <= 70
    ensures IsChain(CloudsDetail(clouds), Clouds)
    ensures NoDanger(CloudsDetail(clouds))
  {
  }

  /** In tenths of a km: up to 2.9 km is a danger, 3.0 to 4.9 km a warning. */
  lemma VisibilityBands(visibility: int)
    ensures VisibilityDetail(visibility) == [Detail(VisibilityPoor, Km(visibility))] <==> visibility <= 29
    ensures VisibilityDetail(visibility) == [Detail(VisibilityReduced, Km(visibility))] <==> 30 <= visibility <= 49
    ensures VisibilityDetail(visibility) == [] <==> visibility >= 50
    ensures IsChain(VisibilityDetail(visibility), Visibility)
    ensures NoDanger(VisibilityDetail(visibility)) <==> visibility >= 30
  {
  }

  lemma KpBands(kp: real)
    ensures KpDetail(kp) == [Detail(KpStorm, kp)] <==> kp > 6.0
    ensures KpDetail(kp) == [Detail(KpDisturbed, kp)] <==> 4.0 < kp <= 6.0
    ensures KpDetail(kp) == [Detail(KpQuiet, kp)] <==> 2.0 < kp <= 4.0
    ensures KpDetail(kp) == [] <==> kp <= 2.0
    ensures IsChain(KpDetail(kp), Geomagnetic)
    ensures NoDanger(KpDetail(kp)) <==> kp <= 6.0
  {
  }

  /** `safe` is false exactly when `dangers` is non-empty. */
  lemma SafeIffNoDangers(s: Sample, kp: real)
    ensures Evaluate(s, kp).safe <==> Evaluate(s, kp).dangers == []
  {
    NoDangerIffNoDangerMessages(Details(s, kp));
  }

  /** The record is safe exactly inside the envelope; a reading equal to its limit is
      never a danger. */
  lemma SafeIffWithinEnvelope(s: Sample, kp: real)
    ensures Evaluate(s, kp).safe <==> WithinEnvelope(s, kp)
  {
    NoDangerOfSeven(TemperatureDetail(s.temp), WindDetail(s.wind), GustsDetail(s.gusts),
      RainDetail(s.rain), CloudsDetail(s.clouds), VisibilityDetail(s.visibility), KpDetail(kp));
    TemperatureBands(s.temp);
    WindBands(s.wind);
    GustsBands(s.gusts);
    RainBands(s.rain);
    CloudsBands(s.clouds);
    VisibilityBands(s.visibility);
    KpBands(kp);
  }

  /** Higher wind never turns an unsafe record into a safe one. */
  lemma StrongerWindIsNeverSafer(s: Sample, kp: real, wind: int)
    requires wind >= s.wind
    ensures Evaluate(s.(wind := wind), kp).safe ==> Evaluate(s, kp).safe
  {
    SafeIffWithinEnvelope(s, kp);
    SafeIffWithinEnvelope(s.(wind := wind), kp);
  }

  /** The details come in the fixed order temperature, wind, gusts, rain, clouds,
      visibility, Kp; so no dimension appears twice and there are at most seven. */
  lemma DetailsFollowDimensionOrder(s: Sample, kp: real)
    ensures InDimensionOrder(Evaluate(s, kp).details)
    ensures forall i, j :: 0 <= i < j < |Evaluate(s, kp).details| ==>
      DimensionOf(Evaluate(s, kp).details[i].band) != DimensionOf(Evaluate(s, kp).details[j].band)
    ensures |Evaluate(s, kp).details| <= 7
  {
    TemperatureBands(s.temp);
    WindBands(s.wind);
    GustsBands(s.gusts);
    RainBands(s.rain);
    CloudsBands(s.clouds);
    VisibilityBands(s.visibility);
    KpBands(kp);
    OrderOfSeven(TemperatureDetail(s.temp), WindDetail(s.wind), GustsDetail(s.gusts),
      RainDetail(s.rain), CloudsDetail(s.clouds), VisibilityDetail(s.visibility), KpDetail(kp));
  }

  /** At most six dangers (the cloud chain has none) and at most seven warnings. */
  lemma AtMostSixDangers(s: Sample, kp: real)
    ensures |Evaluate(s, kp).dangers| <= 6
    ensures |Evaluate(s, kp).warnings| <= 7
  {
    var t, w, g := TemperatureDetail(s.temp), WindDetail(s.wind), GustsDetail(s.gusts);
    var r, c := RainDetail(s.rain), CloudsDetail(s.clouds);
    var v, k := VisibilityDetail(s.visibility), KpDetail(kp);
    ProjectOfSeven(t, w, g, r, c, v, k, Danger);
    ProjectOfSeven(t, w, g, r, c, v, k, Warning);
    TemperatureBands(s.temp);
    WindBands(s.wind);
    GustsBands(s.gusts);
    RainBands(s.rain);
    CloudsBands(s.clouds);
    VisibilityBands(s.visibility);
    KpBands(kp);
    ProjectOfChain(t, Temperature, Danger);
    ProjectOfChain(w, Wind, Danger);
    ProjectOfChain(g, Gusts, Danger);
    ProjectOfChain(r, Rain, Danger);
    ProjectOfChain(c, Clouds, Danger);
    ProjectOfChain(v, Visibility, Danger);
    ProjectOfChain(k, Geomagnetic, Danger);
    ProjectOfChain(t, Temperature, Warning);
    ProjectOfChain(w, Wind, Warning);
    ProjectOfChain(g, Gusts, Warning);
    ProjectOfChain(r, Rain, Warning);
    ProjectOfChain(c, Clouds, Warning);
    ProjectOfChain(v, Visibility, Warning);
    ProjectOfChain(k, Geomagnetic, Warning);
  }

  /** Cloud cover never changes `safe` or the danger list. */
  lemma CloudsNeverEndanger(s: Sample, kp: real, clouds: int)
    ensures Evaluate(s.(clouds := clouds), kp).safe == Evaluate(s, kp).safe
    ensures Evaluate(s.(clouds := clouds), kp).dangers == Evaluate(s, kp).dangers
  {
    var t, w, g := TemperatureDetail(s.temp), WindDetail(s.wind), GustsDetail(s.gusts);
    var r := RainDetail(s.rain);
    var v, k := VisibilityDetail(s.visibility), KpDetail(kp);
    SafeIffWithinEnvelope(s, kp);
    SafeIffWithinEnvelope(s.(clouds := clouds), kp);
    ProjectOfSeven(t, w, g, r, CloudsDetail(s.clouds), v, k, Danger);
    ProjectOfSeven(t, w, g, r, CloudsDetail(clouds), v, k, Danger);
    CloudsBands(s.clouds);
    CloudsBands(clouds);
    ProjectOfChain(CloudsDetail(s.clouds), Clouds, Danger);
    ProjectOfChain(CloudsDetail(clouds), Clouds, Danger);
  }

  /** A Kp in (2, 4] adds only the informational note: `safe` and both message lists are
      those of a quiet Kp, and the note is the last detail. */
  lemma QuietKpOnlyAddsANote(s: Sample, kp: real)
    requires 2.0 < kp <= 4.0
    ensures Evaluate(s, kp).safe == Evaluate(s, 0.0).safe
    ensures Evaluate(s, kp).warnings == Evaluate(s, 0.0).warnings
    ensures Evaluate(s, kp).dangers == Evaluate(s, 0.0).dangers
    ensures Evaluate(s, kp).details == Evaluate(s, 0.0).details + [Detail(KpQuiet, kp)]
  {
    var pre := TemperatureDetail(s.temp) + WindDetail(s.wind) + GustsDetail(s.gusts)
      + RainDetail(s.rain) + CloudsDetail(s.clouds) + VisibilityDetail(s.visibility);
    assert KpDetail(0.0) == [];
    assert Details(s, 0.0) == pre;
    assert Details(s, kp) == pre + [Detail(KpQuiet, kp)];
    SummarizeAppend(pre, [Detail(KpQuiet, kp)]);
  }

  /** A mild, clear day with a quiet Kp gives a safe record with no entries at all. */
  lemma AllClearExample()
    ensures Evaluate(Sample(20, 10, 12, 10, 0, 100), 2.0) == Verdict(true, [], [], [])
  {
  }

  /** 45 degrees is too hot: one danger, one detail, not safe. */
  lemma HotDayExample()
    ensures Evaluate(Sample(45, 10, 12, 10, 0, 100), 2.0) ==
      Verdict(false, [], [Notice(TempHigh, 45.0)], [Detail(TempHigh, 45.0)])
  {
  }

  /** The sample used when there is no forecast, with the fallback Kp of 2, only warns
      of possible rain. */
  lemma FallbackSampleExample()
    ensures Evaluate(FallbackSample, 2.0) ==
      Verdict(true, [Notice(RainPossible, 5.0)], [], [Detail(RainPossible, 5.0)])
  {
  }

  /** A Kp of 3.5 on an all-clear day adds one informational note and nothing else. */
  lemma QuietKpNoteExample()
    ensures Evaluate(Sample(20, 10, 12, 10, 0, 100), 3.5) ==
      Verdict(true, [], [], [Detail(KpQuiet, 3.5)])
  {
  }
}
