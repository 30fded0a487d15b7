/**
 * The geomagnetic aggregator (the value computation inside `loadKpIndex` in app.js):
 * reduces the planetary K-index feed to one current value and a coarse status, and the
 * process-wide Kp state that the loader overwrites.
 */
module KpIndex {
  import opened Wrappers

  /** The coarse activity label: "bajo", "moderado", "alto", "tormenta". */
  datatype Status = Low | Moderate | High | Storm

  datatype KpReading = KpReading(value: real, status: Status)

  /** Index and status assumed when the feed cannot be fetched or parsed. */
  const FallbackIndex: real := 2.0
  const FallbackStatus: Status := Low

  /** Status bands: at most 3 low, at most 5 moderate, at most 7 high, above that a storm. */
  function StatusOf(kp: real): (s: Status)
    ensures s == Low <==> kp <= 3.0
    ensures s == Moderate <==> 3.0 < kp <= 5.0
    ensures s == High <==> 5.0 < kp <= 7.0
    ensures s == Storm <==> 7.0 < kp
  {
    if kp <= 3.0 then Low
    else if kp <= 5.0 then Moderate
    else if kp <= 7.0 then High
    else Storm
  }

  /** A parsed feed cell is kept when it is a number (not null, not NaN) and not negative. */
  predicate IsValid(cell: Option<real>) {
    cell.Some? && cell.value >= 0.0
  }

  /** The valid cells' values, in feed order. */
  function ValidReadings(cells: seq<Option<real>>): (vs: seq<real>)
    ensures |vs| <= |cells|
    ensures forall k :: 0 <= k < |vs| ==> vs[k] >= 0.0 && Some(vs[k]) in cells
    ensures vs == [] <==> forall k :: 0 <= k < |cells| ==> !IsValid(cells[k])
  {
    if cells == [] then []
    else if IsValid(cells[0]) then [cells[0].value] + ValidReadings(cells[1..])
    else ValidReadings(cells[1..])
  }

  /** The last three values, or all of them when there are fewer. */
  function Recent(vs: seq<real>): (w: seq<real>)
    ensures |w| == if |vs| < 3 then |vs| else 3
    ensures w == vs[|vs| - |w|..]
  {
    if |vs| <= 3 then vs else vs[|vs| - 3..]
  }

  /** The sum of the values; the real numbers make the order of the additions irrelevant. */
  function Sum(vs: seq<real>): real {
    if vs == [] then 0.0 else vs[0] + Sum(vs[1..])
  }

  /** The arithmetic mean: the value that, taken once per entry, adds up to the sum. */
  function Mean(vs: seq<real>): (m: real)
    requires vs != []
    ensures m * |vs| as real == Sum(vs)
  {
    Sum(vs) / |vs| as real
  }

  /** The current reading from the feed's kp column, header row included; `None` when the
      table has no data row or no data row holds a valid value. */
  function Aggregate(column: seq<Option<real>>): (r: Option<KpReading>)
    ensures r.Some? ==> r.value.value >= 0.0
    ensures r.Some? ==> r.value.status == StatusOf(r.value.value)
  {
    if |column| <= 1 then None
    else
      var vs := ValidReadings(column[1..]);
      if vs == [] then None
      else
        var w := Recent(vs);
        MeanIsNonNegative(w);
        var kp := Mean(w);
        Some(KpReading(kp, StatusOf(kp)))
  }

  lemma {:induction false} ValidReadingsAppend(a: seq<Option<real>>, b: seq<Option<real>>)
    ensures ValidReadings(a + b) == ValidReadings(a) + ValidReadings(b)
  {
    if a != [] {
      assert (a + b)[1..] == a[1..] + b;
      ValidReadingsAppend(a[1..], b);
    } else {
      assert a + b == b;
    }
  }

  lemma {:induction false} SumBelow(vs: seq<real>, m: real)
    requires forall k :: 0 <= k < |vs| ==> vs[k] < m
    requires vs != []
    ensures Sum(vs) < |vs| as real * m
  {
    if |vs| > 1 {
      SumBelow(vs[1..], m);
    }
  }

  lemma {:induction false} SumAbove(vs: seq<real>, m: real)
    requires forall k :: 0 <= k < |vs| ==> vs[k] > m
    requires vs != []
    ensures Sum(vs) > |vs| as real * m
  {
    if |vs| > 1 {
      SumAbove(vs[1..], m);
    }
  }

  /** The mean is reached or passed by some value on each side: it lies between the
      smallest and the largest of them. */
  lemma MeanIsBetween(vs: seq<real>)
    requires vs != []
    ensures exists k :: 0 <= k < |vs| && vs[k] <= Mean(vs)
    ensures exists k :: 0 <= k < |vs| && vs[k] >= Mean(vs)
  {
    var m := Mean(vs);
    var n := |vs| as real;
    assert Sum(vs) == n * m;
    if forall k :: 0 <= k < |vs| ==> vs[k] > m {
      SumAbove(vs, m);
    }
    if forall k :: 0 <= k < |vs| ==> vs[k] < m {
      SumBelow(vs, m);
    }
  }

  lemma {:induction false} MeanIsNonNegative(vs: seq<real>)
    requires vs != []
    requires forall k :: 0 <= k < |vs| ==> vs[k] >= 0.0
    ensures Mean(vs) >= 0.0
  {
    SumIsNonNegative(vs);
  }

  lemma {:induction false} SumIsNonNegative(vs: seq<real>)
    requires forall k :: 0 <= k < |vs| ==> vs[k] >= 0.0
    ensures Sum(vs) >= 0.0
  {
    if vs != [] {
      SumIsNonNegative(vs[1..]);
    }
  }

  /** No reading exactly when the table has no data row or no data row is valid. */
  lemma AggregateIsNoneIff(column: seq<Option<real>>)
    ensures Aggregate(column).None? <==>
      |column| <= 1 || forall k :: 1 <= k < |column| ==> !IsValid(column[k])
  {
  }

  /** The reading depends only on the last three valid values: older rows, valid or not,
      do not move it. */
  lemma {:induction false} AggregateUsesLastThree(
    header: Option<real>, older: seq<Option<real>>, latest: seq<Option<real>>)
    requires |ValidReadings(latest)| >= 3
    ensures Aggregate([header] + older + latest) == Aggregate([header] + latest)
  {
    assert ([header] + older + latest)[1..] == older + latest;
    assert ([header] + latest)[1..] == latest;
    ValidReadingsAppend(older, latest);
    var a, b := ValidReadings(older), ValidReadings(latest);
    assert (a + b)[|a + b| - 3..] == b[|b| - 3..];
  }

  /** The reading is the mean of the last valid values, and it lies between the smallest
      and the largest of them. */
  lemma AggregateIsWithinRecent(column: seq<Option<real>>)
    requires Aggregate(column).Some?
    ensures |column| > 1
    ensures var w := Recent(ValidReadings(column[1..]));
      && 1 <= |w| <= 3
      && Aggregate(column).value.value == Sum(w) / |w| as real
      && (exists k :: 0 <= k < |w| && w[k] <= Aggregate(column).value.value)
      && (exists k :: 0 <= k < |w| && w[k] >= Aggregate(column).value.value)
  {
    MeanIsBetween(Recent(ValidReadings(column[1..])));
  }

  /** Valid values 2, 4 and 6 give 4.0, a moderate status. */
  lemma ThreeReadingsExample()
    ensures Aggregate([None, Some(2.0), Some(4.0), Some(6.0)]) == Some(KpReading(4.0, Moderate))
  {
    assert [None, Some(2.0), Some(4.0), Some(6.0)][1..] == [Some(2.0), Some(4.0), Some(6.0)];
    assert ValidReadings([Some(2.0), Some(4.0), Some(6.0)]) == [2.0, 4.0, 6.0];
    assert Sum([2.0, 4.0, 6.0]) == 12.0;
    assert Recent([2.0, 4.0, 6.0]) == [2.0, 4.0, 6.0];
    assert Mean([2.0, 4.0, 6.0]) == 4.0;
  }

  /** A non-numeric or negative row, wherever it stands, does not change the reading. */
  lemma InvalidRowIsIgnored(
    header: Option<real>, before: seq<Option<real>>, cell: Option<real>, after: seq<Option<real>>)
    requires !IsValid(cell)
    ensures Aggregate([header] + before + [cell] + after) == Aggregate([header] + before + after)
  {
    assert ([header] + before + [cell] + after)[1..] == before + ([cell] + after);
    assert ([header] + before + after)[1..] == before + after;
    ValidReadingsAppend(before, [cell] + after);
    ValidReadingsAppend(before, after);
    assert ([cell] + after)[1..] == after;
  }

  /** A feed whose rows are all non-numeric gives no reading. */
  lemma NonNumericFeedExample()
    ensures Aggregate([None, None, None]) == None
  {
  }

  /** The result of fetching the feed: a transport or JSON error, or the parsed body. */
  datatype FetchOutcome = Failed | Fetched(body: Body)

  /** A parsed body is either not a list, or a table whose kp column (the second field of
      each row) has been run through `parseFloat`. A row that is not itself a list, or is
      too short to have a second field, is `None`, like an entry that does not parse. */
  datatype Body = NotATable | Table(column: seq<Option<real>>)

  /** `state.kpIndex` and `state.kpStatus`. */
  class KpState {
    var kpIndex: real
    var kpStatus: Status

    /** The status always matches the index. */
    ghost predicate Valid()
      reads this
    {
      kpStatus == StatusOf(kpIndex)
    }

    constructor ()
      ensures Valid()
      ensures kpIndex == FallbackIndex && kpStatus == FallbackStatus
    {
      kpIndex := FallbackIndex;
      kpStatus := FallbackStatus;
    }

    /** One settled load of the feed: a failure installs the fallback, a table with a
        reading installs it, anything else leaves the state as it was. */
    method Load(outcome: FetchOutcome)
      modifies this
      ensures outcome.Failed? ==> kpIndex == FallbackIndex && kpStatus == FallbackStatus
      ensures outcome.Fetched? && outcome.body.Table? && Aggregate(outcome.body.column).Some? ==>
        kpIndex == Aggregate(outcome.body.column).value.value &&
        kpStatus == Aggregate(outcome.body.column).value.status
      ensures outcome.Fetched? && (outcome.body.NotATable? || Aggregate(outcome.body.column).None?) ==>
        kpIndex == old(kpIndex) && kpStatus == old(kpStatus)
      ensures outcome.Failed? ==> Valid()
      ensures outcome.Fetched? && outcome.body.Table? && Aggregate(outcome.body.column).Some? ==> Valid()
      ensures old(Valid()) ==> Valid()
    {
      match outcome
      case Failed =>
        kpIndex := FallbackIndex;
        kpStatus := FallbackStatus;
      case Fetched(body) =>
        if body.Table? {
          var reading := Aggregate(body.column);
          if reading.Some? {
            kpIndex := reading.value.value;
            kpStatus := reading.value.status;
          }
        }
    }
  }
}
