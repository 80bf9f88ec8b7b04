/** From increments to the dashboard: what was counted is what is read, label set by label set. */
module DashboardTotals {
  import opened Text
  import opened Exposition
  import opened MetricsText
  import opened MetricsLines
  import opened MetricsRoundTrip
  import opened MetricSeries

  /** How a value is printed. */
  type Printer = real -> string

  ghost predicate Prints(show: Printer, numerals: Numerals) {
    forall x: real :: IsToken(show(x)) && numerals(show(x))
  }

  ghost predicate Kept(m: SeriesMap) {
    forall i | 0 <= i < |m.order| :: m.order[i] in m.entries
  }

  /** The series a counter renders, in the order they were first seen. */
  function SeriesOf(m: SeriesMap, show: Printer): seq<Series>
    requires Kept(m)
  {
    seq(|m.order|, i requires 0 <= i < |m.order| => Series(m.entries[m.order[i]].labels, show(m.entries[m.order[i]].value)))
  }

  ghost predicate Printables(increments: seq<Increment>) {
    forall i | 0 <= i < |increments| :: SoundLabels(increments[i].labels) && AllPrintable(increments[i].labels)
  }

  /** Every entry kept is in order, and its labels are those of an increment. */
  ghost predicate FromIncrements(m: SeriesMap) {
    Kept(m) && forall key <- m.entries :: WellNamed(m.entries[key].labels) && AllPrintable(m.entries[key].labels)
  }

  lemma {:induction false} EntriesComeFromIncrements(increments: seq<Increment>)
    requires Printables(increments)
    ensures FromIncrements(MetricSeries.After(increments))
  {
    if increments != [] {
      var last := increments[|increments| - 1];
      EntriesComeFromIncrements(increments[..|increments| - 1]);
      assert SoundLabels(last.labels) && AllPrintable(last.labels);
    }
  }

  lemma CounterIsSound(name: string, help: string, m: SeriesMap, show: Printer, numerals: Numerals)
    requires IsMetricName(name) && Tidy(help) && FromIncrements(m) && Prints(show, numerals)
    ensures SoundRegistry([Counter(name, help, SeriesOf(m, show))], numerals)
  {
    var metric := Counter(name, help, SeriesOf(m, show));
    forall i | 0 <= i < |SamplesOf(metric)| ensures Readable(SamplesOf(metric)[i], numerals) {
      assert m.order[i] in m.entries;
    }
  }

  /**
   * End to end: after any run of increments, the families parsed from the rendered counter hold, for every
   * label set that was counted, a sample whose value is the printed total of that label set.
   */
  lemma DashboardReadsTotals(name: string, help: string, increments: seq<Increment>, labels: seq<Label>, show: Printer, numerals: Numerals)
    returns (families: Families, i: nat)
    requires IsMetricName(name) && Tidy(help) && Printables(increments) && Prints(show, numerals)
    requires SoundLabels(labels) && Seen(increments, ToRecord(labels))
    ensures FromIncrements(MetricSeries.After(increments))
    ensures families == ReadLines(map[], Split(Render([Counter(name, help, SeriesOf(MetricSeries.After(increments), show))]), '\n'), numerals)
    ensures name in families && i < |families[name].samples|
    ensures families[name].samples[i] == RawSample(name, ToRecord(labels), show(TotalOf(increments, ToRecord(labels))))
  {
    var m, key := MetricSeries.After(increments), SeriesKey(labels);
    EntriesComeFromIncrements(increments);
    CounterIsTotal(increments, labels);
    var metric := Counter(name, help, SeriesOf(m, show));
    CounterIsSound(name, help, m, show, numerals);
    MetricsRoundTrip.MetricsRoundTrip([metric], numerals);
    families := Expected([metric]);
    assert [metric][..0] == [];
    i :| 0 <= i < |m.order| && m.order[i] == key;
    assert SamplesOf(metric)[i] == Printed(name, m.entries[key].labels, show(m.entries[key].value));
  }
}
