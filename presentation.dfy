/**
 * The decisions the page takes from the evaluator's record and the Kp state: the status
 * banner (`updateStatusBanner`), the recommendation list (`updateRecommendations`) and
 * the risk label beside the Kp value (`updateKpDisplay`). Only the choice is modelled;
 * the HTML it becomes is not.
 */
module Presentation {
  import opened Limits
  import opened HourSelector
  import opened KpIndex
  import opened Evaluator
  import opened VerdictProperties

  /** The banner's three states: "NO VOLAR", "VOLAR CON PRECAUCIÓN", "CONDICIONES ÓPTIMAS". */
  datatype Banner = NoFly | Caution | Optimal

  function BannerOf(v: Verdict): Banner {
    if !v.safe || v.dangers != [] then NoFly
    else if v.warnings != [] then Caution
    else Optimal
  }

  /** Whether the details button is shown. */
  predicate ShowsDetailsButton(v: Verdict) {
    !v.safe || v.warnings != []
  }

  /** For an evaluated record the banner reads "NO VOLAR" exactly when it is not safe,
      "VOLAR CON PRECAUCIÓN" exactly when it is safe with warnings, and "CONDICIONES
      ÓPTIMAS" exactly when it is safe without warnings. */
  lemma BannerFollowsSafety(s: Sample, kp: real)
    ensures BannerOf(Evaluate(s, kp)) == NoFly <==> !Evaluate(s, kp).safe
    ensures BannerOf(Evaluate(s, kp)) == Caution <==> Evaluate(s, kp).safe && Evaluate(s, kp).warnings != []
    ensures BannerOf(Evaluate(s, kp)) == Optimal <==> Evaluate(s, kp).safe && Evaluate(s, kp).warnings == []
  {
    SafeIffNoDangers(s, kp);
  }

  /** "NO VOLAR" exactly outside the safety envelope. */
  lemma NoFlyIffOutsideEnvelope(s: Sample, kp: real)
    ensures BannerOf(Evaluate(s, kp)) == NoFly <==> !WithinEnvelope(s, kp)
  {
    SafeIffNoDangers(s, kp);
    SafeIffWithinEnvelope(s, kp);
  }

  /** The details button is shown exactly when the banner is not "CONDICIONES ÓPTIMAS". */
  lemma DetailsButtonUnlessOptimal(s: Sample, kp: real)
    ensures ShowsDetailsButton(Evaluate(s, kp)) <==> BannerOf(Evaluate(s, kp)) != Optimal
  {
    SafeIffNoDangers(s, kp);
  }

  /** One paragraph of the recommendation list: a danger (negative), a warning, or one of
      the fixed positive lines. */
  datatype Line = Negative(notice: Notice) | Advisory(notice: Notice) | Positive(text: string)

  /** The four positive lines shown when nothing is reported. */
  const AllClearLines: seq<Line> := [
    Positive("Condiciones óptimas para vuelo"),
    Positive("Viento dentro de límites seguros"),
    Positive("Buena visibilidad"),
    Positive("Temperatura adecuada")
  ]

  /** The line added after the warnings of a safe record. */
  const PossibleWithCare: Line := Positive("Vuelo posible con precauciones")

  function Negatives(ns: seq<Notice>): (lines: seq<Line>)
    ensures |lines| == |ns|
    ensures forall i :: 0 <= i < |ns| ==> lines[i] == Negative(ns[i])
  {
    if ns == [] then [] else [Negative(ns[0])] + Negatives(ns[1..])
  }

  function Advisories(ns: seq<Notice>): (lines: seq<Line>)
    ensures |lines| == |ns|
    ensures forall i :: 0 <= i < |ns| ==> lines[i] == Advisory(ns[i])
  {
    if ns == [] then [] else [Advisory(ns[0])] + Advisories(ns[1..])
  }

  /** The dangers, then the warnings; replaced by the four positive lines when the record
      is safe and both lists are empty, and followed by the "with care" line when it is
      safe otherwise. */
  function Recommendations(v: Verdict): (lines: seq<Line>)
    ensures v.safe && v.warnings == [] && v.dangers == [] ==> |lines| == 4
    ensures !(v.safe && v.warnings == [] && v.dangers == []) ==>
      |lines| == |v.dangers| + |v.warnings| + (if v.safe then 1 else 0)
  {
    if v.safe && v.warnings == [] && v.dangers == [] then AllClearLines
    else Negatives(v.dangers) + Advisories(v.warnings) + (if v.safe then [PossibleWithCare] else [])
  }

  /** How many positive lines a list has. */
  function PositiveCount(lines: seq<Line>): nat {
    if lines == [] then 0
    else (if lines[0].Positive? then 1 else 0) + PositiveCount(lines[1..])
  }

  lemma {:induction false} PositiveCountAppend(a: seq<Line>, b: seq<Line>)
    ensures PositiveCount(a + b) == PositiveCount(a) + PositiveCount(b)
  {
    if a == [] {
      assert a + b == b;
    } else {
      assert (a + b)[1..] == a[1..] + b;
      PositiveCountAppend(a[1..], b);
    }
  }

  lemma {:induction false} NoPositiveAmongMessages(lines: seq<Line>)
    requires forall i :: 0 <= i < |lines| ==> !lines[i].Positive?
    ensures PositiveCount(lines) == 0
  {
    if lines != [] {
      NoPositiveAmongMessages(lines[1..]);
    }
  }

  /** The list opens with one negative line per danger and continues with one warning
      line per warning, in their order; the four positive lines appear exactly when both
      lists are empty and the record is safe; otherwise a safe record gets exactly one
      positive line, "with care", at the end, and an unsafe one none. */
  lemma RecommendationPolicy(v: Verdict)
    ensures v.safe && v.warnings == [] && v.dangers == [] ==> Recommendations(v) == AllClearLines
    ensures !(v.safe && v.warnings == [] && v.dangers == []) ==>
      var lines, nd, nw := Recommendations(v), |v.dangers|, |v.warnings|;
      && |lines| == nd + nw + (if v.safe then 1 else 0)
      && (forall i :: 0 <= i < nd ==> lines[i] == Negative(v.dangers[i]))
      && (forall i :: 0 <= i < nw ==> lines[nd + i] == Advisory(v.warnings[i]))
      && (v.safe ==> lines[nd + nw] == PossibleWithCare)
      && PositiveCount(lines) == (if v.safe then 1 else 0)
  {
    if !(v.safe && v.warnings == [] && v.dangers == []) {
      var msgs := Negatives(v.dangers) + Advisories(v.warnings);
      var tail: seq<Line> := if v.safe then [PossibleWithCare] else [];
      assert forall i :: 0 <= i < |msgs| ==> !msgs[i].Positive? by {
        forall i | 0 <= i < |msgs| ensures !msgs[i].Positive? {
          if i < |v.dangers| {
            assert msgs[i] == Negatives(v.dangers)[i];
          } else {
            assert msgs[i] == Advisories(v.warnings)[i - |v.dangers|];
          }
        }
      }
      NoPositiveAmongMessages(msgs);
      PositiveCountAppend(msgs, tail);
      if v.safe {
        assert tail[1..] == [];
      }
    }
  }

  /** The four positive lines are never the list of a record that reports anything or is
      not safe: they appear exactly in the all-clear case. */
  lemma AllClearLinesOnlyWhenNothingReported(v: Verdict)
    ensures Recommendations(v) == AllClearLines <==> v.safe && v.warnings == [] && v.dangers == []
  {
    RecommendationPolicy(v);
  }

  /** For an evaluated record the positive lines appear exactly under "CONDICIONES ÓPTIMAS". */
  lemma AllClearLinesIffOptimal(s: Sample, kp: real)
    ensures Recommendations(Evaluate(s, kp)) == AllClearLines <==> BannerOf(Evaluate(s, kp)) == Optimal
  {
    AllClearLinesOnlyWhenNothingReported(Evaluate(s, kp));
  }

  /** The label after the Kp status: "(Alto riesgo)", "(Precaución)" or "(Normal)". */
  datatype Risk = HighRisk | Precaution | Normal

  /** Above the profile's Kp limit is a high risk, above 3 a precaution. */
  function RiskLabel(kp: real): Risk {
    if kp > DjiMini2.kpIndex as real then HighRisk
    else if kp > 3.0 then Precaution
    else Normal
  }

  /** The label is "(Normal)" exactly when the status is "bajo", and "(Precaución)"
      exactly on the lower, up-to-4 part of the "moderado" band. */
  lemma RiskLabelAgreesWithStatus(kp: real)
    ensures RiskLabel(kp) == Normal <==> StatusOf(kp) == Low
    ensures RiskLabel(kp) == Precaution <==> StatusOf(kp) == Moderate && kp <= 4.0
    ensures RiskLabel(kp) == HighRisk <==> kp > 4.0
  {
  }

  /** The label reads "(Alto riesgo)" exactly when the evaluator reports a Kp warning or
      danger; a Kp note and no Kp entry at all both come with a lower label. */
  lemma HighRiskIffKpReported(kp: real)
    ensures RiskLabel(kp) == HighRisk <==>
      KpDetail(kp) == [Detail(KpDisturbed, kp)] || KpDetail(kp) == [Detail(KpStorm, kp)]
  {
  }
}
