/**
 * The alert decision shared by both revisions of the anomaly detector
 * (src/anomaly_detector.py and the older top-level anomaly_detector.py carry
 * token-identical bodies for `should_notify` and for the anomaly-row filter of
 * `save_alert_chart`), together with the values both revisions draw from.
 *
 * A series is what ML.DETECT_ANOMALIES returns, one row per hour, in the order
 * the query returns it. Neither query has an ORDER BY, so "last" below always
 * means last by position.
 */
module AnomalyRule {

  datatype Option<T> = None | Some(value: T)

  /** One row of the anomaly query. The metric and its bounds are floats the
      code never computes on; they are carried as reals and only copied. */
  datatype Row = Row(dateHour: int, value: real, lowerBound: real, upperBound: real, isAnomaly: bool)

  /** What the chart shows: a band and a line over the whole series, and a
      red marker on each row in `markers`. Stands for the encoded PNG. */
  datatype Chart = Chart(title: Option<string>, series: seq<Row>, markers: seq<Row>)

  /** CONSECUTIVE_ANOMALIES_REQ of the example configuration. */
  const ConsecutiveAnomaliesReq: int := 3

  /** The `is_anomaly` column of a series. */
  function AnomalyFlags(rows: seq<Row>): (flags: seq<bool>)
    ensures |flags| == |rows|
    ensures forall i :: 0 <= i < |rows| ==> flags[i] == rows[i].isAnomaly
  {
    seq(|rows|, i requires 0 <= i < |rows| => rows[i].isAnomaly)
  }

  /** Python's `all` over a list of booleans. */
  function All(s: seq<bool>): (r: bool)
    ensures r <==> forall i :: 0 <= i < |s| ==> s[i]
  {
    if s == [] then true else s[0] && All(s[1..])
  }

  /** `should_notify`: no alert while the series is shorter than the
      threshold, otherwise alert exactly when the last `k` flags are all set.
      The source demands nothing of `k`; the configured value is positive, and
      `k == 0` (where Python's `[-0:]` is the whole list) is not modelled. */
  function ShouldNotify(flags: seq<bool>, k: int): (r: bool)
    requires k >= 1
    ensures r <==> |flags| >= k && forall i :: |flags| - k <= i < |flags| ==> flags[i]
  {
    if |flags| < k then false
    else All(flags[|flags| - k..])
  }

  /** Reference definition: the length of the run of set flags that ends
      the series. */
  function TrailingRun(flags: seq<bool>): (n: nat)
    ensures n <= |flags|
    ensures forall i :: |flags| - n <= i < |flags| ==> flags[i]
    ensures n < |flags| ==> !flags[|flags| - 1 - n]
  {
    if flags == [] || !flags[|flags| - 1] then 0
    else 1 + TrailingRun(flags[..|flags| - 1])
  }

  /** The rule alerts exactly when the series ends in a run of at least `k`
      anomalies. It is a check of the trailing window, not a search for the
      longest run anywhere in the series. */
  lemma ShouldNotifyIffTrailingRun(flags: seq<bool>, k: int)
    requires k >= 1
    ensures ShouldNotify(flags, k) <==> TrailingRun(flags) >= k
  {
  }

  lemma ShortSeriesNeverAlerts(flags: seq<bool>, k: int)
    requires k >= 1 && |flags| < k
    ensures !ShouldNotify(flags, k)
  {
  }

  lemma EmptySeriesNeverAlerts(k: int)
    requires k >= 1
    ensures !ShouldNotify([], k)
  {
  }

  /** Once the series holds `k` flags, whatever precedes them is irrelevant. */
  lemma OnlyTrailingWindowMatters(earlier: seq<bool>, flags: seq<bool>, k: int)
    requires k >= 1 && |flags| >= k
    ensures ShouldNotify(earlier + flags, k) == ShouldNotify(flags, k)
  {
    var whole := earlier + flags;
    assert whole[|whole| - k..] == flags[|flags| - k..];
  }

  /** Any history followed by `k` anomalies alerts. */
  lemma AnomalousTailAlerts(earlier: seq<bool>, tail: seq<bool>, k: int)
    requires k >= 1 && |tail| == k
    requires forall i :: 0 <= i < |tail| ==> tail[i]
    ensures ShouldNotify(earlier + tail, k)
  {
  }

  /** One normal hour inside the window suppresses the alert, whatever
      came before it. */
  lemma NormalHourInWindowSuppresses(flags: seq<bool>, k: int, i: int)
    requires k >= 1
    requires 0 <= i < |flags| && |flags| - k <= i
    requires !flags[i]
    ensures !ShouldNotify(flags, k)
  {
  }

  /** A series that alerts at threshold `k` alerts at every smaller
      positive threshold. */
  lemma ThresholdMonotone(flags: seq<bool>, j: int, k: int)
    requires 1 <= j <= k
    requires ShouldNotify(flags, k)
    ensures ShouldNotify(flags, j)
  {
  }

  lemma TrailingRunExtends(flags: seq<bool>)
    ensures TrailingRun(flags + [true]) == TrailingRun(flags) + 1
    ensures TrailingRun(flags + [false]) == 0
  {
  }

  /** Evaluated hour after hour: a normal hour always clears the alert, and
      one more anomaly alerts at `k` exactly when the series before it
      alerted at `k - 1`. */
  lemma NextHour(flags: seq<bool>, k: int)
    requires k >= 1
    ensures !ShouldNotify(flags + [false], k)
    ensures k >= 2 ==> (ShouldNotify(flags + [true], k) <==> ShouldNotify(flags, k - 1))
    ensures ShouldNotify(flags + [true], 1)
  {
    TrailingRunExtends(flags);
    ShouldNotifyIffTrailingRun(flags + [false], k);
    ShouldNotifyIffTrailingRun(flags + [true], k);
    ShouldNotifyIffTrailingRun(flags + [true], 1);
    if k >= 2 {
      ShouldNotifyIffTrailingRun(flags, k - 1);
    }
  }

  /** The four cases of the unit tests, at the configured threshold. */
  lemma UnitTestCases()
    ensures ShouldNotify([false, true, false, true, true, true], ConsecutiveAnomaliesReq)
    ensures !ShouldNotify([true, true, true, false, true], ConsecutiveAnomaliesReq)
    ensures !ShouldNotify([true, true], ConsecutiveAnomaliesReq)
    ensures !ShouldNotify([], ConsecutiveAnomaliesReq)
  {
    var recovery := [true, true, true, false, true];
    assert !recovery[3];
  }

  /** The index labels of `data[data.is_anomaly]`: positions of flagged
      rows, strictly ascending. That every flagged position is among them is
      MarkerPositionsComplete. */
  function MarkerPositions(rows: seq<Row>): (ps: seq<nat>)
    ensures forall j :: 0 <= j < |ps| ==> ps[j] < |rows| && rows[ps[j]].isAnomaly
    ensures forall j, j' :: 0 <= j < j' < |ps| ==> ps[j] < ps[j']
  {
    if rows == [] then []
    else
      var ps := MarkerPositions(rows[..|rows| - 1]);
      if rows[|rows| - 1].isAnomaly then ps + [|rows| - 1] else ps
  }

  lemma {:induction false} MarkerPositionsComplete(rows: seq<Row>, i: int)
    requires 0 <= i < |rows| && rows[i].isAnomaly
    ensures i in MarkerPositions(rows)
  {
    var prefix := rows[..|rows| - 1];
    if i < |rows| - 1 {
      MarkerPositionsComplete(prefix, i);
    }
  }

  /** `data[data.is_anomaly]`: the rows selected by their own anomaly flag,
      kept in series order. */
  function AnomalyRows(rows: seq<Row>): (sel: seq<Row>)
    ensures |sel| == |MarkerPositions(rows)|
    ensures forall j :: 0 <= j < |sel| ==> sel[j] == rows[MarkerPositions(rows)[j]]
  {
    if rows == [] then []
    else
      var last := rows[|rows| - 1];
      AnomalyRows(rows[..|rows| - 1]) + (if last.isAnomaly then [last] else [])
  }

  /** A row carries a marker exactly when it is a flagged row of the series. */
  lemma AnomalyRowsMembers(rows: seq<Row>, r: Row)
    ensures r in AnomalyRows(rows) <==> r in rows && r.isAnomaly
  {
  }

  /** No flagged row, no marker; and the converse. */
  lemma NoAnomalyNoMarkers(rows: seq<Row>)
    ensures AnomalyRows(rows) == [] <==> forall i :: 0 <= i < |rows| ==> !rows[i].isAnomaly
  {
    forall i | 0 <= i < |rows| && rows[i].isAnomaly
      ensures AnomalyRows(rows) != []
    {
      MarkerPositionsComplete(rows, i);
    }
  }

  lemma SuffixOfSnoc<T>(s: seq<T>, x: T, k: int)
    requires 1 <= k <= |s| + 1
    ensures (s + [x])[|s| + 1 - k..] == s[|s| - (k - 1)..] + [x]
  {
  }

  /** When the rule fires, the chart ends with a marker on each of the last
      `k` rows: the alerting streak is what the chart highlights last. */
  lemma {:induction false} AlertingStreakIsMarked(rows: seq<Row>, k: int)
    requires k >= 1
    requires ShouldNotify(AnomalyFlags(rows), k)
    ensures |AnomalyRows(rows)| >= k
    ensures AnomalyRows(rows)[|AnomalyRows(rows)| - k..] == rows[|rows| - k..]
  {
    var prefix, last := rows[..|rows| - 1], rows[|rows| - 1];
    assert rows == prefix + [last];
    FlagsOfSnoc(prefix, last);
    AnomalyRowsSnoc(prefix, last);
    var sel, all := AnomalyRows(prefix), AnomalyRows(rows);
    assert all == sel + [last];
    if k == 1 {
      assert all[|all| - 1..] == [last] == rows[|rows| - 1..];
    } else {
      NextHour(AnomalyFlags(prefix), k);
      AlertingStreakIsMarked(prefix, k - 1);
      SuffixOfSnoc(sel, last, k);
      SuffixOfSnoc(prefix, last, k);
    }
  }

  lemma FlagsOfSnoc(prefix: seq<Row>, last: Row)
    ensures AnomalyFlags(prefix + [last]) == AnomalyFlags(prefix) + [last.isAnomaly]
  {
  }

  lemma AnomalyRowsSnoc(prefix: seq<Row>, last: Row)
    ensures AnomalyRows(prefix + [last]) == AnomalyRows(prefix) + (if last.isAnomaly then [last] else [])
  {
  }
}
