/**
 * From observations to the dashboard's quantile: what a metric prints (metrics.ts) is what its family holds
 * (prometheus.ts), sample by sample, and the estimate read off it is that of the observations.
 */
module DashboardHistograms {
  import opened Text
  import opened Exposition
  import opened MetricsText
  import opened MetricsLines
  import opened MetricsRoundTrip
  import Q = Quantile

  // ---------------------------------------------------------------------------------------------
  // Labels

  lemma {:induction false} RecordFirst(first: Label, rest: seq<Label>)
    ensures ToRecord([first] + rest) == map[first.0 := first.1] + ToRecord(rest)
  {
    var labels := [first] + rest;
    if rest == [] {
      assert labels[..0] == [];
    } else {
      var front, last := rest[..|rest| - 1], rest[|rest| - 1];
      assert labels[..|labels| - 1] == [first] + front;
      RecordFirst(first, front);
    }
  }

  lemma {:induction false} NotInRecord(labels: seq<Label>, name: string)
    requires forall i | 0 <= i < |labels| :: labels[i].0 != name
    ensures name !in ToRecord(labels)
  {
    if labels == [] {
    } else {
      NotInRecord(labels[..|labels| - 1], name);
    }
  }

  lemma OverwrittenFirst(key: string, was: string, value: string, rest: map<string, string>)
    requires key !in rest
    ensures map[key := value] + rest == (map[key := was] + rest)[key := value]
  {
  }

  lemma OverwrittenLater(first: Label, key: string, value: string, rest: map<string, string>)
    requires first.0 != key
    ensures map[first.0 := first.1] + rest[key := value] == (map[first.0 := first.1] + rest)[key := value]
  {
  }

  lemma BoundFirst(first: Label, rest: seq<Label>, le: string)
    requires first.0 == "le" && forall i | 0 <= i < |rest| :: rest[i].0 != "le"
    ensures ToRecord([("le", le)] + rest) == ToRecord([first] + rest)["le" := le]
  {
    RecordFirst(first, rest);
    RecordFirst(("le", le), rest);
    NotInRecord(rest, "le");
    OverwrittenFirst("le", first.1, le, ToRecord(rest));
  }

  lemma BoundLater(first: Label, rest: seq<Label>, le: string)
    requires first.0 != "le" && ToRecord(WithLe(rest, le)) == ToRecord(rest)["le" := le]
    ensures ToRecord([first] + WithLe(rest, le)) == ToRecord([first] + rest)["le" := le]
  {
    RecordFirst(first, rest);
    RecordFirst(first, WithLe(rest, le));
    OverwrittenLater(first, "le", le, ToRecord(rest));
  }

  lemma BoundAlone(le: string)
    ensures ToRecord([("le", le)]) == map["le" := le]
  {
    assert [("le", le)][..0] == [];
  }

  /** The printed bucket carries the labels of its series, and its bound under `le`. */
  lemma {:induction false} BoundIsSet(labels: seq<Label>, le: string)
    requires Exposition.DistinctNames(labels)
    ensures ToRecord(WithLe(labels, le)) == ToRecord(labels)["le" := le]
  {
    if labels == [] {
      BoundAlone(le);
    } else {
      var first, rest := labels[0], labels[1..];
      assert labels == [first] + rest;
      if first.0 == "le" {
        BoundFirst(first, rest, le);
      } else {
        BoundIsSet(rest, le);
        BoundLater(first, rest, le);
      }
    }
  }

  // ---------------------------------------------------------------------------------------------
  // Families

  /** The samples of one series of a histogram: a bucket for each bound, one for infinity, the sum and the count. */
  ghost predicate TellsSeries(samples: seq<RawSample>, name: string, bounds: seq<string>, s: HistogramSeries) {
    var n, labels := |bounds|, ToRecord(s.labels);
    && |samples| == n + 3 && |s.buckets| == n
    && (forall i | 0 <= i < n :: samples[i] == RawSample(name + "_bucket", labels["le" := bounds[i]], s.buckets[i]))
    && samples[n] == RawSample(name + "_bucket", labels["le" := "+Inf"], s.count)
    && samples[n + 1] == RawSample(name + "_sum", labels, s.sum)
    && samples[n + 2] == RawSample(name + "_count", labels, s.count)
  }

  function SeriesSamples(name: string, bounds: seq<string>, s: HistogramSeries): seq<Printed> {
    BucketSamples(name, bounds, s) + TotalSamples(name, s)
  }

  lemma SeriesIsTold(name: string, bounds: seq<string>, s: HistogramSeries)
    requires |s.buckets| == |bounds| && Exposition.DistinctNames(s.labels)
    ensures TellsSeries(Raws(SeriesSamples(name, bounds, s)), name, bounds, s)
  {
    forall i | 0 <= i < |bounds| ensures ToRecord(WithLe(s.labels, bounds[i])) == ToRecord(s.labels)["le" := bounds[i]] {
      BoundIsSet(s.labels, bounds[i]);
    }
    BoundIsSet(s.labels, "+Inf");
  }

  /** Each series stands behind those before it, all of one length. */
  lemma {:induction false} SeriesStandsAt(name: string, bounds: seq<string>, histograms: seq<HistogramSeries>, k: nat, width: nat)
    returns (before: seq<Printed>, after: seq<Printed>)
    requires k < |histograms| && width == |bounds| + 3
    ensures HistogramSamples(name, bounds, histograms) == before + SeriesSamples(name, bounds, histograms[k]) + after
    ensures |before| == k * width
    decreases |histograms|
  {
    var first, rest := SeriesSamples(name, bounds, histograms[0]), HistogramSamples(name, bounds, histograms[1..]);
    if k == 0 {
      before, after := [], rest;
      assert [] + first == first;
    } else {
      before, after := SeriesStandsAt(name, bounds, histograms[1..], k - 1, width);
      Regrouped(first, before, SeriesSamples(name, bounds, histograms[k]), after);
      before := first + before;
      Multiple(k, width);
    }
  }

  lemma Regrouped<T>(a: seq<T>, b: seq<T>, c: seq<T>, d: seq<T>)
    ensures a + (b + c + d) == (a + b) + c + d
  {
  }

  lemma Multiple(n: nat, width: nat)
    requires n > 0
    ensures n * width == (n - 1) * width + width
  {
  }

  lemma {:induction false} AllSeries(name: string, bounds: seq<string>, histograms: seq<HistogramSeries>, width: nat)
    requires width == |bounds| + 3
    ensures |HistogramSamples(name, bounds, histograms)| == |histograms| * width
    decreases |histograms|
  {
    if histograms == [] {
    } else {
      AllSeries(name, bounds, histograms[1..], width);
      Multiple(|histograms|, width);
    }
  }

  lemma FamilyIsRead(registry: seq<Metric>, j: nat, numerals: Numerals)
    requires SoundRegistry(registry, numerals) && KeepsNames(registry) && j < |registry|
    ensures var read := ReadLines(map[], Split(Render(registry), '\n'), numerals);
            registry[j].name in read && read[registry[j].name] == FamilyFor(registry[j])
  {
    MetricsRoundTrip.MetricsRoundTrip(registry, numerals);
    ExpectedFamily(registry, j);
  }

  /** A counter or gauge is read as what it counted: one sample a series, in order, and its type and help. */
  lemma PlainIsRead(registry: seq<Metric>, j: nat, numerals: Numerals)
    requires SoundRegistry(registry, numerals) && KeepsNames(registry) && j < |registry| && !registry[j].Histogram?
    ensures var read, m := ReadLines(map[], Split(Render(registry), '\n'), numerals), registry[j];
            && m.name in read && read[m.name].help == m.help
            && read[m.name].kind == (if m.Counter? then "counter" else "gauge")
            && |read[m.name].samples| == |m.series|
            && forall i | 0 <= i < |m.series| :: read[m.name].samples[i] == RawSample(m.name, ToRecord(m.series[i].labels), m.series[i].value)
  {
    FamilyIsRead(registry, j, numerals);
  }

  lemma RawsAppend(a: seq<Printed>, b: seq<Printed>, c: seq<Printed>)
    ensures Raws(a + b + c) == Raws(a) + Raws(b) + Raws(c)
  {
  }

  /** A histogram is read as what it counted, series by series: every bucket under its bound, the sum and the count. */
  lemma HistogramIsRead(registry: seq<Metric>, j: nat, k: nat, numerals: Numerals)
    returns (before: seq<RawSample>, own: seq<RawSample>, after: seq<RawSample>)
    requires SoundRegistry(registry, numerals) && KeepsNames(registry) && j < |registry|
    requires registry[j].Histogram? && k < |registry[j].histograms|
    requires |registry[j].histograms[k].buckets| == |registry[j].bounds| && Exposition.DistinctNames(registry[j].histograms[k].labels)
    ensures var read := ReadLines(map[], Split(Render(registry), '\n'), numerals);
            registry[j].name in read && read[registry[j].name] == Family("histogram", registry[j].help, before + own + after)
    ensures |before| == k * (|registry[j].bounds| + 3) && |before + own + after| == |registry[j].histograms| * (|registry[j].bounds| + 3)
    ensures TellsSeries(own, registry[j].name, registry[j].bounds, registry[j].histograms[k])
  {
    var m := registry[j];
    FamilyIsRead(registry, j, numerals);
    var earlier, later := SeriesStandsAt(m.name, m.bounds, m.histograms, k, |m.bounds| + 3);
    AllSeries(m.name, m.bounds, m.histograms, |m.bounds| + 3);
    RawsAppend(earlier, SeriesSamples(m.name, m.bounds, m.histograms[k]), later);
    SeriesIsTold(m.name, m.bounds, m.histograms[k]);
    before, own, after := Raws(earlier), Raws(SeriesSamples(m.name, m.bounds, m.histograms[k])), Raws(later);
  }

  // ---------------------------------------------------------------------------------------------
  // The estimate

  /** How bounds and counts are printed, and read back. */
  datatype Numbers = Numbers(bound: real -> string, count: nat -> string, boundOf: string -> real, countOf: string -> nat)

  ghost predicate ReadBack(n: Numbers) {
    && (forall x: real :: n.boundOf(n.bound(x)) == x && n.bound(x) != "+Inf")
    && (forall k: nat :: n.countOf(n.count(k)) == k)
  }

  /** `endsWith("_bucket")`; a bucket without its bound is not printed. */
  predicate IsBucket(sample: RawSample) {
    EndsWith(sample.name, "_bucket") && "le" in sample.labels
  }

  function BucketFrom(sample: RawSample, n: Numbers): Q.Bucket
    requires IsBucket(sample)
  {
    Q.Bucket(if sample.labels["le"] == "+Inf" then Q.Infinite else Q.Finite(n.boundOf(sample.labels["le"])), n.countOf(sample.token))
  }

  /** The buckets that the dashboard finds among a family's samples. */
  function BucketsRead(samples: seq<RawSample>, n: Numbers): seq<Q.Bucket> {
    if samples == [] then []
    else
      var last := samples[|samples| - 1];
      BucketsRead(samples[..|samples| - 1], n) + if IsBucket(last) then [BucketFrom(last, n)] else []
  }

  function Shown(bounds: seq<real>, n: Numbers): (r: seq<string>)
    ensures |r| == |bounds| && forall i | 0 <= i < |bounds| :: r[i] == n.bound(bounds[i])
  {
    seq(|bounds|, i requires 0 <= i < |bounds| => n.bound(bounds[i]))
  }

  function Counted(bounds: seq<real>, observations: seq<real>, n: Numbers): (r: seq<string>)
    ensures |r| == |bounds| && forall i | 0 <= i < |bounds| :: r[i] == n.count(Q.CountAtMost(observations, bounds[i]))
  {
    seq(|bounds|, i requires 0 <= i < |bounds| => n.count(Q.CountAtMost(observations, bounds[i])))
  }

  /** One series that has seen these observations, as it is printed. */
  function Observed(labels: seq<Label>, bounds: seq<real>, observations: seq<real>, sum: string, n: Numbers): HistogramSeries {
    HistogramSeries(labels, Counted(bounds, observations, n), sum, n.count(|observations|))
  }

  lemma BucketsStep(samples: seq<RawSample>, i: nat, n: Numbers)
    requires i < |samples|
    ensures BucketsRead(samples[..i + 1], n) == BucketsRead(samples[..i], n) + if IsBucket(samples[i]) then [BucketFrom(samples[i], n)] else []
  {
    assert samples[..i + 1][..i] == samples[..i];
  }

  lemma BucketIsRead(name: string, labels: map<string, string>, le: string, token: string, n: Numbers)
    ensures var sample := RawSample(name + "_bucket", labels["le" := le], token);
            IsBucket(sample) && BucketFrom(sample, n) == Q.Bucket(if le == "+Inf" then Q.Infinite else Q.Finite(n.boundOf(le)), n.countOf(token))
  {
    EndsIn(name, "_bucket", name + "_bucket");
  }

  lemma TotalsAreNoBuckets(name: string)
    ensures !EndsWith(name + "_sum", "_bucket") && !EndsWith(name + "_count", "_bucket")
  {
    if |name + "_sum"| >= 7 {
      OtherEnd(name + "_sum", "_bucket", 6);
    }
    if |name + "_count"| >= 7 {
      OtherEnd(name + "_count", "_bucket", 1);
    }
  }

  lemma BucketsNext(bounds: seq<real>, observations: seq<real>, i: nat)
    requires i < |bounds|
    ensures |Q.BucketsOf(bounds, observations)| > i
    ensures Q.BucketsOf(bounds, observations)[..i + 1]
            == Q.BucketsOf(bounds, observations)[..i] + [Q.Bucket(Q.Finite(bounds[i]), Q.CountAtMost(observations, bounds[i]))]
  {
  }

  lemma {:induction false} FirstBucketsRead(samples: seq<RawSample>, name: string, labels: seq<Label>, bounds: seq<real>, observations: seq<real>,
                                            sum: string, n: Numbers, i: nat)
    requires ReadBack(n) && i <= |bounds|
    requires TellsSeries(samples, name, Shown(bounds, n), Observed(labels, bounds, observations, sum, n))
    ensures BucketsRead(samples[..i], n) == Q.BucketsOf(bounds, observations)[..i]
    decreases i
  {
    if i == 0 {
    } else {
      FirstBucketsRead(samples, name, labels, bounds, observations, sum, n, i - 1);
      BucketsStep(samples, i - 1, n);
      BucketIsRead(name, ToRecord(labels), n.bound(bounds[i - 1]), n.count(Q.CountAtMost(observations, bounds[i - 1])), n);
      BucketsNext(bounds, observations, i - 1);
    }
  }

  lemma TotalsAddOne(samples: seq<RawSample>, k: nat, n: Numbers)
    requires |samples| == k + 3 && IsBucket(samples[k]) && !IsBucket(samples[k + 1]) && !IsBucket(samples[k + 2])
    ensures BucketsRead(samples, n) == BucketsRead(samples[..k], n) + [BucketFrom(samples[k], n)]
  {
    BucketsStep(samples, k, n);
    BucketsStep(samples, k + 1, n);
    BucketsStep(samples, k + 2, n);
    assert samples[..k + 3] == samples;
  }

  lemma TotalsTold(samples: seq<RawSample>, name: string, bounds: seq<string>, s: HistogramSeries, n: Numbers)
    requires TellsSeries(samples, name, bounds, s)
    ensures var k := |bounds|;
            && IsBucket(samples[k]) && BucketFrom(samples[k], n) == Q.Bucket(Q.Infinite, n.countOf(s.count))
            && !IsBucket(samples[k + 1]) && !IsBucket(samples[k + 2])
  {
    BucketIsRead(name, ToRecord(s.labels), "+Inf", s.count, n);
    TotalsAreNoBuckets(name);
  }

  lemma BucketsEnd(bounds: seq<real>, observations: seq<real>)
    ensures |Q.BucketsOf(bounds, observations)| == |bounds| + 1
    ensures Q.BucketsOf(bounds, observations) == Q.BucketsOf(bounds, observations)[..|bounds|] + [Q.Bucket(Q.Infinite, |observations|)]
  {
  }

  /** What the dashboard finds among a series' samples are its buckets. */
  lemma SeriesBucketsRead(samples: seq<RawSample>, name: string, labels: seq<Label>, bounds: seq<real>, observations: seq<real>,
                          sum: string, n: Numbers)
    requires ReadBack(n)
    requires TellsSeries(samples, name, Shown(bounds, n), Observed(labels, bounds, observations, sum, n))
    ensures BucketsRead(samples, n) == Q.BucketsOf(bounds, observations)
  {
    FirstBucketsRead(samples, name, labels, bounds, observations, sum, n, |bounds|);
    TotalsTold(samples, name, Shown(bounds, n), Observed(labels, bounds, observations, sum, n), n);
    TotalsAddOne(samples, |bounds|, n);
    BucketsEnd(bounds, observations);
  }

  lemma OneSeriesIsRead(name: string, help: string, bounds: seq<string>, s: HistogramSeries, numerals: Numerals) returns (samples: seq<RawSample>)
    requires SoundRegistry([Histogram(name, help, bounds, [s])], numerals)
    requires |s.buckets| == |bounds| && Exposition.DistinctNames(s.labels)
    ensures var read := ReadLines(map[], Split(Render([Histogram(name, help, bounds, [s])]), '\n'), numerals);
            name in read && read[name].samples == samples
    ensures TellsSeries(samples, name, bounds, s)
  {
    var registry := [Histogram(name, help, bounds, [s])];
    assert KeepsNames(registry);
    var before, after;
    before, samples, after := HistogramIsRead(registry, 0, 0, numerals);
    Alone(before, samples, after, |bounds| + 3);
  }

  lemma Alone<T>(before: seq<T>, own: seq<T>, after: seq<T>, width: nat)
    requires |before| == 0 * width && |own| == width && |before + own + after| == 1 * width
    ensures before + own + after == own
  {
    assert |before| == 0 && |after| == 0;
  }

  /**
   * End to end: the quantile that the dashboard estimates from the text of a histogram lies in the first bucket whose
   * count reaches the rank, in proportion to the observations there.
   */
  lemma DashboardEstimates(name: string, help: string, labels: seq<Label>, bounds: seq<real>, observations: seq<real>, sum: string,
                           n: Numbers, numerals: Numerals, q: real) returns (estimate: real, j: nat)
    requires SoundRegistry([Histogram(name, help, Shown(bounds, n), [Observed(labels, bounds, observations, sum, n)])], numerals)
    requires ReadBack(n) && Exposition.DistinctNames(labels) && Q.StrictlyRising(bounds) && observations != [] && q <= 1.0
    ensures var m := Histogram(name, help, Shown(bounds, n), [Observed(labels, bounds, observations, sum, n)]);
            var read := ReadLines(map[], Split(Render([m]), '\n'), numerals);
            name in read && Q.QuantileOf(BucketsRead(read[name].samples, n), q) == Some(Q.Finite(estimate))
    ensures Q.EstimatedIn(bounds, observations, q * |observations| as real, j, estimate)
  {
    var s := Observed(labels, bounds, observations, sum, n);
    var samples := OneSeriesIsRead(name, help, Shown(bounds, n), s, numerals);
    SeriesBucketsRead(samples, name, labels, bounds, observations, sum, n);
    estimate, j := Q.EstimateIsInterpolated(bounds, observations, q);
  }
}
