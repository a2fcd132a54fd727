/**
 * The severity bar chart (src/components/ThreatsChart.js): nothing to draw for a missing
 * or empty list, otherwise one bar per distinct severity string present, labelled by
 * `Object.keys` of the count object and sized by `Object.values`.
 */
module ThreatsChart {
  import opened Wrappers
  import opened Records
  import Tally
  import ObjectKeys

  datatype Chart =
    | NoData                                        // the "No data available" paragraph
    | Bars(labels: seq<string>, data: seq<nat>)

  /** The chart for the `threats` prop (`None` when the prop is `undefined` or `null`). */
  function ChartFor(threats: Option<seq<Threat>>): Chart
  {
    if threats.None? || |threats.value| == 0 then NoData
    else TallyChart(Severities(threats.value))
  }

  /** The bars for a list of severity strings: counted, then enumerated as `Object.keys`. */
  function TallyChart(keys: seq<string>): (c: Chart)
    ensures c.Bars?
  {
    var h := Tally.Tally(keys);
    var labels := ObjectKeys.EnumerationOrder(h.order);
    Tally.TallyWellFormed(keys);
    ObjectKeys.EnumerationOrderProperties(h.order);
    Bars(labels, Tally.Values(labels, h.counts))
  }

  /** The guard: there is no chart exactly when the prop is missing or empty. */
  lemma NoDataExactly(threats: Option<seq<Threat>>)
    ensures ChartFor(threats) == NoData <==> threats.None? || threats.value == []
  {
  }

  /** The labels of the bars for `keys` are its distinct strings, each once. */
  lemma TallyChartLabels(keys: seq<string>)
    ensures var c := TallyChart(keys);
      && |c.labels| == |c.data|
      && ObjectKeys.Distinct(c.labels)
      && (forall s :: s in c.labels <==> s in keys)
  {
    var h := Tally.Tally(keys);
    Tally.TallyWellFormed(keys);
    ObjectKeys.EnumerationOrderProperties(h.order);
    forall s ensures s in h.order <==> s in keys {
      Tally.TallyCounts(keys, s);
    }
  }

  /** Each bar for `keys` is the number of occurrences of its label, and they sum to |keys|. */
  lemma TallyChartData(keys: seq<string>)
    ensures var c := TallyChart(keys);
      && (forall i :: 0 <= i < |c.labels| && i < |c.data| ==> c.data[i] == Occurrences(keys, c.labels[i]) >= 1)
      && Tally.Sum(c.data) == |keys|
  {
    var h := Tally.Tally(keys);
    var c := TallyChart(keys);
    Tally.TallyWellFormed(keys);
    ObjectKeys.EnumerationOrderProperties(h.order);
    forall i | 0 <= i < |c.labels| && i < |c.data| ensures c.data[i] == Occurrences(keys, c.labels[i]) >= 1 {
      Tally.ValuesAt(c.labels, h.counts, i);
      Tally.TallyCounts(keys, c.labels[i]);
    }
    Tally.TallySum(keys);
    Tally.SumEnumerationOrder(h.order, h.counts);
  }

  /**
   * For a non-empty list: labels and data are index-aligned; the labels are exactly the
   * severities that occur, each once; each bar is the number of records with that
   * severity, so at least one; the bars add up to the number of records.
   */
  lemma ChartCounts(ts: seq<Threat>)
    requires ts != []
    ensures ChartFor(Some(ts)).Bars?
    ensures var c := ChartFor(Some(ts));
      && |c.labels| == |c.data|
      && ObjectKeys.Distinct(c.labels)
      && (forall s :: s in c.labels <==> exists i :: 0 <= i < |ts| && ts[i].severity == s)
      && (forall i :: 0 <= i < |c.labels| ==> c.data[i] == CountSeverity(ts, c.labels[i]) >= 1)
      && Tally.Sum(c.data) == |ts|
  {
    var keys := Severities(ts);
    var c := ChartFor(Some(ts));
    assert c == TallyChart(keys);
    TallyChartLabels(keys);
    TallyChartData(keys);
    forall s ensures s in keys <==> exists i :: 0 <= i < |ts| && ts[i].severity == s {
      if s in keys {
        var i :| 0 <= i < |keys| && keys[i] == s;
        assert ts[i].severity == s;
      }
    }
    forall i | 0 <= i < |c.labels| ensures c.data[i] == CountSeverity(ts, c.labels[i]) {
      CountSeverityIsOccurrences(ts, c.labels[i]);
    }
  }

  /** Without array-index keys the labels are the keys in creation order. */
  lemma TallyChartCreationOrder(keys: seq<string>)
    requires forall k :: k in keys ==> !ObjectKeys.IsArrayIndex(k)
    ensures TallyChart(keys).labels == Tally.Tally(keys).order
  {
    var h := Tally.Tally(keys);
    Tally.TallyFirstOccurrenceOrder(keys);
    assert forall i :: 0 <= i < |h.order| ==> h.order[i] in keys;
    ObjectKeys.EnumerationWithoutIndices(h.order);
  }

  /**
   * When no severity string is an array index (such as "Critical" or "High"), the bars
   * come in the order in which each severity first occurs in the list.
   */
  lemma ChartFirstOccurrenceOrder(ts: seq<Threat>)
    requires ts != []
    requires forall i :: 0 <= i < |ts| ==> !ObjectKeys.IsArrayIndex(ts[i].severity)
    ensures ChartFor(Some(ts)).Bars?
    ensures var labels := ChartFor(Some(ts)).labels;
      && (forall s :: s in labels ==> s in Severities(ts))
      && forall i, j :: 0 <= i < j < |labels| ==>
           Tally.FirstIndex(Severities(ts), labels[i]) < Tally.FirstIndex(Severities(ts), labels[j])
  {
    var keys := Severities(ts);
    assert ChartFor(Some(ts)) == TallyChart(keys);
    TallyChartCreationOrder(keys);
    Tally.TallyFirstOccurrenceOrder(keys);
  }

  /** Severities "High", "Critical", "High" give the bars High = 2, Critical = 1. */
  lemma ChartExample(a: Threat, b: Threat, c: Threat)
    requires a.severity == "High" && b.severity == "Critical" && c.severity == "High"
    ensures ChartFor(Some([a, b, c])) == Bars(["High", "Critical"], [2, 1])
  {
    assert Severities([a, b, c]) == ["High", "Critical", "High"];
    ExampleTallyChart();
  }

  lemma ExampleTallyChart()
    ensures TallyChart(["High", "Critical", "High"]) == Bars(["High", "Critical"], [2, 1])
  {
    var keys := ["High", "Critical", "High"];
    ExampleTally();
    assert !ObjectKeys.IsArrayIndex("High") && !ObjectKeys.IsArrayIndex("Critical") by {
      assert !ObjectKeys.IsDigit("High"[0]) && !ObjectKeys.IsDigit("Critical"[0]);
    }
    TallyChartCreationOrder(keys);
    ExampleValues();
  }

  lemma ExampleValues()
    ensures Tally.Values(["High", "Critical"], map["High" := 2, "Critical" := 1]) == [2, 1]
  {
    assert ["High", "Critical"][..1] == ["High"];
    assert ["High"][..0] == [];
  }

  lemma ExampleTally()
    ensures Tally.Tally(["High", "Critical", "High"]) ==
      Tally.Histogram(map["High" := 2, "Critical" := 1], ["High", "Critical"])
  {
    var s := ["High", "Critical", "High"];
    assert s[..2] == ["High", "Critical"];
    assert ["High", "Critical"][..1] == ["High"];
    assert ["High"][..0] == [];
  }
}
