/**
 * Parsing a rendered registry gives back every family: its type, its help, and every sample in order; unless a
 * counter or gauge is called like a series of an earlier histogram.
 */
module MetricsRoundTrip {
  import opened Text
  import opened Exposition
  import opened MetricsText
  import opened MetricsLines

  ghost predicate SoundMetric(m: Metric, numerals: Numerals) {
    IsMetricName(m.name) && Tidy(m.help) && forall i | 0 <= i < |SamplesOf(m)| :: Readable(SamplesOf(m)[i], numerals)
  }

  function Raws(samples: seq<Printed>): seq<RawSample> {
    seq(|samples|, i requires 0 <= i < |samples| => Raw(samples[i]))
  }

  function FamilyFor(m: Metric): Family {
    Family(TypeName(m), m.help, Raws(SamplesOf(m)))
  }

  function Expected(registry: seq<Metric>): Families {
    if registry == [] then map[]
    else
      var m := registry[|registry| - 1];
      Expected(registry[..|registry| - 1])[m.name := FamilyFor(m)]
  }

  // ---------------------------------------------------------------------------------------------
  // One metric

  /** Every sample belongs to the family `name` of type `kind`, beside `families`. */
  ghost predicate OwnedBy(families: Families, name: string, kind: string, sample: string) {
    var base := BaseOf(sample);
    if base == name && kind == "histogram" then true
    else sample == name && (base == name || base !in families || families[base].kind != "histogram")
  }

  lemma {:induction false} TakeAppends(families: Families, a: seq<Effect>, b: seq<Effect>)
    ensures TakeAll(families, a + b) == TakeAll(TakeAll(families, a), b)
    decreases a
  {
    if a == [] {
      assert a + b == b;
    } else {
      TakeAppends(Take(families, a[0]), a[1..], b);
      assert (a + b)[1..] == a[1..] + b;
    }
  }

  lemma TakeOne(families: Families, effect: Effect)
    ensures TakeAll(families, [effect]) == Take(families, effect)
  {
    assert [effect][1..] == [];
  }

  lemma FiledUnderOwner(families: Families, name: string, family: Family, sample: RawSample)
    requires OwnedBy(families, name, family.kind, sample.name)
    ensures WithSample(families[name := family], sample) == families[name := family.(samples := family.samples + [sample])]
  {
  }

  function Additions(samples: seq<RawSample>): seq<Effect> {
    seq(|samples|, i requires 0 <= i < |samples| => AddSample(samples[i]))
  }

  function Holding(families: Families, name: string, kind: string, help: string, samples: seq<RawSample>): Families {
    families[name := Family(kind, help, samples)]
  }

  lemma OneIsFiled(families: Families, name: string, kind: string, help: string, samples: seq<RawSample>, sample: RawSample)
    requires OwnedBy(families, name, kind, sample.name)
    ensures TakeAll(Holding(families, name, kind, help, samples), [AddSample(sample)]) == Holding(families, name, kind, help, samples + [sample])
  {
    FiledUnderOwner(families, name, Family(kind, help, samples), sample);
    TakeOne(Holding(families, name, kind, help, samples), AddSample(sample));
  }

  lemma AdditionsAppend(samples: seq<RawSample>, n: nat)
    requires 0 < n <= |samples|
    ensures Additions(samples[..n]) == Additions(samples[..n - 1]) + [AddSample(samples[n - 1])]
    ensures samples[..n] == samples[..n - 1] + [samples[n - 1]]
  {
  }

  lemma {:induction false} SamplesAreFiled(families: Families, name: string, kind: string, help: string, samples: seq<RawSample>, n: nat)
    requires forall i | 0 <= i < |samples| :: OwnedBy(families, name, kind, samples[i].name)
    requires n <= |samples|
    ensures TakeAll(Holding(families, name, kind, help, []), Additions(samples[..n])) == Holding(families, name, kind, help, samples[..n])
    decreases n
  {
    if n > 0 {
      SamplesAreFiled(families, name, kind, help, samples, n - 1);
      AdditionsAppend(samples, n);
      OneIsFiled(families, name, kind, help, samples[..n - 1], samples[n - 1]);
      TakeAppends(Holding(families, name, kind, help, []), Additions(samples[..n - 1]), [AddSample(samples[n - 1])]);
    }
  }

  lemma EndsIn(name: string, suffix: string, s: string)
    requires s == name + suffix
    ensures EndsWith(s, suffix) && s[..|s| - |suffix|] == name
  {
    assert s[|s| - |suffix|..] == suffix;
  }

  lemma OtherEnd(s: string, suffix: string, k: nat)
    requires k < |suffix| <= |s| && s[|s| - |suffix| + k] != suffix[k]
    ensures !EndsWith(s, suffix)
  {
    assert s[|s| - |suffix|..][k] == s[|s| - |suffix| + k];
  }

  lemma SuffixedName(name: string, suffix: string)
    requires IsMetricName(name) && suffix in {"_bucket", "_sum", "_count"}
    ensures BaseOf(name + suffix) == name
  {
    var s := name + suffix;
    EndsIn(name, suffix, s);
    if suffix == "_count" {
      if |s| >= 7 {
        OtherEnd(s, "_bucket", 1);
      }
      OtherEnd(s, "_sum", 3);
    } else if suffix == "_sum" && |s| >= 7 {
      OtherEnd(s, "_bucket", 6);
    }
  }

  lemma SuffixedIsName(name: string, suffix: string)
    requires IsMetricName(name) && suffix in {"_bucket", "_sum", "_count"}
    ensures IsMetricName(name + suffix)
  {
  }

  lemma HistogramSuffixes(name: string)
    requires IsMetricName(name)
    ensures forall suffix | suffix in {"_bucket", "_sum", "_count"} :: IsMetricName(name + suffix) && BaseOf(name + suffix) == name
  {
    forall suffix | suffix in {"_bucket", "_sum", "_count"}
      ensures IsMetricName(name + suffix) && BaseOf(name + suffix) == name
    {
      SuffixedName(name, suffix);
      SuffixedIsName(name, suffix);
    }
  }

  ghost predicate NamedFor(samples: seq<Printed>, name: string) {
    forall i | 0 <= i < |samples| :: IsMetricName(samples[i].name) && BaseOf(samples[i].name) == name
  }

  lemma OneHistogramNames(name: string, bounds: seq<string>, s: HistogramSeries)
    requires IsMetricName(name)
    ensures NamedFor(BucketSamples(name, bounds, s) + TotalSamples(name, s), name)
  {
    HistogramSuffixes(name);
  }

  lemma {:induction false} HistogramNames(name: string, bounds: seq<string>, histograms: seq<HistogramSeries>)
    requires IsMetricName(name)
    ensures NamedFor(HistogramSamples(name, bounds, histograms), name)
    decreases histograms
  {
    if histograms == [] {
    } else {
      OneHistogramNames(name, bounds, histograms[0]);
      HistogramNames(name, bounds, histograms[1..]);
    }
  }

  lemma MetricSamplesOwned(families: Families, m: Metric)
    requires IsMetricName(m.name)
    requires !m.Histogram? ==> BaseOf(m.name) !in families || families[BaseOf(m.name)].kind != "histogram"
    ensures forall i | 0 <= i < |SamplesOf(m)| ::
              IsMetricName(SamplesOf(m)[i].name) && OwnedBy(families, m.name, TypeName(m), SamplesOf(m)[i].name)
  {
    match m
    case Counter(_, _, _) =>
    case Gauge(_, _, _) =>
    case Histogram(name, _, bounds, histograms) => HistogramNames(name, bounds, histograms);
  }

  function EffectsFor(m: Metric): seq<Effect> {
    [SetHelp(m.name, m.help), SetKind(m.name, TypeName(m))] + Additions(Raws(SamplesOf(m)))
  }

  lemma MappedAppends<S, T>(f: S -> T, a: seq<S>, b: seq<S>)
    ensures Mapped(f, a + b) == Mapped(f, a) + Mapped(f, b)
  {
  }

  lemma SamplesHaveEffects(samples: seq<Printed>, numerals: Numerals)
    requires forall i | 0 <= i < |samples| :: IsMetricName(samples[i].name) && Readable(samples[i], numerals)
    ensures Effects(SampleLines(samples), numerals) == Additions(Raws(samples))
  {
    var f, lines := Reader(numerals), SampleLines(samples);
    forall i | 0 <= i < |samples| ensures f(lines[i]) == AddSample(Raw(samples[i])) {
      SampleIsRead(samples[i], numerals);
    }
  }

  lemma TwoEffects(a: string, b: string, first: Effect, second: Effect, numerals: Numerals)
    requires EffectOf(a, numerals) == first && EffectOf(b, numerals) == second
    ensures Effects([a, b], numerals) == [first, second]
  {
    var f := Reader(numerals);
    assert f(a) == first && f(b) == second;
  }

  lemma HeadHasEffects(name: string, help: string, kind: string, a: string, b: string, numerals: Numerals)
    requires IsMetricName(name) && Tidy(help) && IsToken(kind)
    requires a == DirectiveLine("HELP", name, help) && b == DirectiveLine("TYPE", name, kind)
    ensures Effects([a, b], numerals) == [SetHelp(name, help), SetKind(name, kind)]
  {
    HelpHasEffect(name, help, a, numerals);
    TypeHasEffect(name, kind, b, numerals);
    TwoEffects(a, b, SetHelp(name, help), SetKind(name, kind), numerals);
  }

  lemma LinesHaveEffects(m: Metric, numerals: Numerals)
    requires SoundMetric(m, numerals)
    ensures Effects(LinesOf(m), numerals) == EffectsFor(m)
  {
    var a, b, rest := DirectiveLine("HELP", m.name, m.help), DirectiveLine("TYPE", m.name, TypeName(m)), SampleLines(SamplesOf(m));
    MetricNames(m);
    HeadHasEffects(m.name, m.help, TypeName(m), a, b, numerals);
    SamplesHaveEffects(SamplesOf(m), numerals);
    MappedAppends(Reader(numerals), [a, b], rest);
  }

  lemma Declared(families: Families, name: string, help: string, kind: string)
    requires name !in families
    ensures TakeAll(families, [SetHelp(name, help), SetKind(name, kind)]) == families[name := Family(kind, help, [])]
  {
    var first := Take(families, SetHelp(name, help));
    var both := [SetHelp(name, help), SetKind(name, kind)];
    assert both[1..] == [SetKind(name, kind)] && both[1..][1..] == [];
    assert TakeAll(first, both[1..]) == Take(first, SetKind(name, kind));
  }

  /** A counter or gauge whose name is that of a series of a histogram already read. */
  predicate Borrows(families: Families, m: Metric) {
    !m.Histogram? && BaseOf(m.name) in families && families[BaseOf(m.name)].kind == "histogram"
  }

  /** A metric's lines add its family, and touch no other. */
  lemma MetricIsRead(families: Families, m: Metric)
    requires IsMetricName(m.name) && m.name !in families && !Borrows(families, m)
    ensures TakeAll(families, EffectsFor(m)) == families[m.name := FamilyFor(m)]
  {
    var head, samples := [SetHelp(m.name, m.help), SetKind(m.name, TypeName(m))], Raws(SamplesOf(m));
    Declared(families, m.name, m.help, TypeName(m));
    MetricSamplesOwned(families, m);
    SamplesAreFiled(families, m.name, TypeName(m), m.help, samples, |samples|);
    assert samples[..|samples|] == samples;
    TakeAppends(families, head, Additions(samples));
  }

  /** `families` with `samples` added to those of the family `name`. */
  function Adding(families: Families, name: string, samples: seq<RawSample>): Families
    requires name in families
  {
    families[name := families[name].(samples := families[name].samples + samples)]
  }

  lemma OneIsMisfiled(families: Families, owner: string, samples: seq<RawSample>, sample: RawSample)
    requires owner in families && families[owner].kind == "histogram" && BaseOf(sample.name) == owner
    ensures TakeAll(Adding(families, owner, samples), [AddSample(sample)]) == Adding(families, owner, samples + [sample])
  {
    TakeOne(Adding(families, owner, samples), AddSample(sample));
    var before := families[owner].samples;
    assert before + samples + [sample] == before + (samples + [sample]);
  }

  lemma AddingNothing(families: Families, name: string)
    requires name in families
    ensures Adding(families, name, []) == families
  {
    assert families[name].samples + [] == families[name].samples;
  }

  lemma {:induction false} SamplesAreMisfiled(families: Families, owner: string, samples: seq<RawSample>, n: nat)
    requires owner in families && families[owner].kind == "histogram" && n <= |samples|
    requires forall i | 0 <= i < |samples| :: BaseOf(samples[i].name) == owner
    ensures TakeAll(families, Additions(samples[..n])) == Adding(families, owner, samples[..n])
    decreases n
  {
    if n == 0 {
      AddingNothing(families, owner);
    } else {
      SamplesAreMisfiled(families, owner, samples, n - 1);
      AdditionsAppend(samples, n);
      OneIsMisfiled(families, owner, samples[..n - 1], samples[n - 1]);
      TakeAppends(families, Additions(samples[..n - 1]), [AddSample(samples[n - 1])]);
    }
  }

  /** What a metric's lines leave: its family, or, under a borrowed name, an empty one and a longer histogram. */
  function Filed(families: Families, m: Metric): Families {
    if Borrows(families, m) then
      Adding(families[m.name := Family(TypeName(m), m.help, [])], BaseOf(m.name), Raws(SamplesOf(m)))
    else families[m.name := FamilyFor(m)]
  }

  lemma BorrowedIsRead(families: Families, m: Metric)
    requires IsMetricName(m.name) && m.name !in families && Borrows(families, m)
    ensures TakeAll(families, EffectsFor(m)) == Filed(families, m)
  {
    var head, samples := [SetHelp(m.name, m.help), SetKind(m.name, TypeName(m))], Raws(SamplesOf(m));
    var declared := families[m.name := Family(TypeName(m), m.help, [])];
    Declared(families, m.name, m.help, TypeName(m));
    SamplesAreMisfiled(declared, BaseOf(m.name), samples, |samples|);
    assert samples[..|samples|] == samples;
    TakeAppends(families, head, Additions(samples));
  }

  lemma MetricIsFiled(families: Families, m: Metric)
    requires IsMetricName(m.name) && m.name !in families
    ensures TakeAll(families, EffectsFor(m)) == Filed(families, m)
  {
    if Borrows(families, m) {
      BorrowedIsRead(families, m);
    } else {
      MetricIsRead(families, m);
    }
  }

  // ---------------------------------------------------------------------------------------------
  // The registry

  ghost predicate DistinctNames(registry: seq<Metric>) {
    forall i, j | 0 <= i < j < |registry| :: registry[i].name != registry[j].name
  }

  ghost predicate SoundRegistry(registry: seq<Metric>, numerals: Numerals) {
    DistinctNames(registry) && forall i | 0 <= i < |registry| :: SoundMetric(registry[i], numerals)
  }

  /** A metric's name is that of a series of an earlier histogram. */
  ghost predicate BorrowedAt(registry: seq<Metric>, j: nat) {
    j < |registry| && !registry[j].Histogram? && exists i | 0 <= i < j :: registry[i].Histogram? && registry[i].name == BaseOf(registry[j].name)
  }

  /** No sample is printed under a borrowed name. */
  ghost predicate KeepsNames(registry: seq<Metric>) {
    forall j | 0 <= j < |registry| :: BorrowedAt(registry, j) ==> SamplesOf(registry[j]) == []
  }

  /** The families the lines leave, metric by metric. */
  function Actual(registry: seq<Metric>): Families {
    if registry == [] then map[] else Filed(Actual(registry[..|registry| - 1]), registry[|registry| - 1])
  }

  /** A name has a family exactly when a metric bears it, and the family has that metric's type. */
  ghost predicate Declares(families: Families, registry: seq<Metric>) {
    && (forall name <- families :: exists i | 0 <= i < |registry| :: registry[i].name == name)
    && (forall i | 0 <= i < |registry| :: registry[i].name in families && families[registry[i].name].kind == TypeName(registry[i]))
  }

  lemma FiledAdds(families: Families, m: Metric)
    requires m.name !in families
    ensures Filed(families, m).Keys == families.Keys + {m.name} && Filed(families, m)[m.name].kind == TypeName(m)
    ensures forall name <- families :: Filed(families, m)[name].kind == families[name].kind
  {
  }

  lemma FiledDeclares(families: Families, front: seq<Metric>, m: Metric)
    requires Declares(families, front) && m.name !in families
    ensures Declares(Filed(families, m), front + [m])
  {
    var after, registry := Filed(families, m), front + [m];
    FiledAdds(families, m);
    assert registry[|front|] == m;
    forall name <- after ensures exists i | 0 <= i < |registry| :: registry[i].name == name {
      if name in families {
        var i :| 0 <= i < |front| && front[i].name == name;
        assert registry[i].name == name;
      }
    }
    forall i | 0 <= i < |registry| ensures registry[i].name in after && after[registry[i].name].kind == TypeName(registry[i]) {
      if i < |front| {
        assert registry[i] == front[i];
      }
    }
  }

  lemma NewName(front: seq<Metric>, m: Metric, families: Families)
    requires Declares(families, front) && DistinctNames(front + [m])
    ensures m.name !in families && DistinctNames(front)
  {
    var registry := front + [m];
    assert registry[|front|] == m;
    assert forall i | 0 <= i < |front| :: registry[i] == front[i];
    forall i | 0 <= i < |front| ensures front[i].name != m.name {
      assert registry[i].name != registry[|front|].name;
    }
  }

  lemma ActualGrows(front: seq<Metric>, m: Metric)
    ensures Actual(front + [m]) == Filed(Actual(front), m)
  {
    assert (front + [m])[..|front|] == front;
  }

  lemma ExpectedGrows(front: seq<Metric>, m: Metric)
    ensures Expected(front + [m]) == Expected(front)[m.name := FamilyFor(m)]
  {
    assert (front + [m])[..|front|] == front;
  }

  lemma {:induction false} ActualDeclares(registry: seq<Metric>)
    requires DistinctNames(registry)
    ensures Declares(Actual(registry), registry)
  {
    if registry == [] {
    } else {
      var front, m := registry[..|registry| - 1], registry[|registry| - 1];
      assert registry == front + [m];
      ActualDeclares(front);
      NewName(front, m, Actual(front));
      ActualGrows(front, m);
      FiledDeclares(Actual(front), front, m);
    }
  }

  /** The last metric borrows a name from the families read so far exactly when it borrows it from the registry. */
  lemma BorrowsFromRegistry(families: Families, front: seq<Metric>, m: Metric)
    requires Declares(families, front)
    ensures Borrows(families, m) <==> BorrowedAt(front + [m], |front|)
  {
    var registry, base := front + [m], BaseOf(m.name);
    assert registry[|front|] == m;
    assert forall i | 0 <= i < |front| :: registry[i] == front[i];
    if Borrows(families, m) {
      var i :| 0 <= i < |front| && front[i].name == base;
      assert registry[i].Histogram? && registry[i].name == base;
    }
  }

  lemma EarlierBorrowed(front: seq<Metric>, m: Metric, j: nat)
    requires j < |front|
    ensures BorrowedAt(front + [m], j) <==> BorrowedAt(front, j)
  {
    var registry := front + [m];
    assert forall i | 0 <= i < |front| :: registry[i] == front[i];
  }

  /** What becomes of one counter's or gauge's family. */
  function FamilyLeft(m: Metric, borrowed: bool): Family {
    Family(TypeName(m), m.help, if borrowed then [] else Raws(SamplesOf(m)))
  }

  lemma FiledKeeps(families: Families, m: Metric, name: string)
    requires name in families && families[name].kind != "histogram" && name != m.name
    ensures name in Filed(families, m) && Filed(families, m)[name] == families[name]
  {
  }

  lemma FiledLast(families: Families, m: Metric)
    requires !m.Histogram? && m.name !in families
    ensures m.name in Filed(families, m) && Filed(families, m)[m.name] == FamilyLeft(m, Borrows(families, m))
  {
  }

  /** A counter's or gauge's family keeps what its own lines gave it: nothing later is filed there. */
  lemma {:induction false} ActualFamily(registry: seq<Metric>, j: nat)
    requires DistinctNames(registry) && j < |registry| && !registry[j].Histogram?
    ensures registry[j].name in Actual(registry)
    ensures Actual(registry)[registry[j].name] == FamilyLeft(registry[j], BorrowedAt(registry, j))
    decreases |registry|
  {
    var front, m := registry[..|registry| - 1], registry[|registry| - 1];
    assert registry == front + [m];
    ActualDeclares(front);
    NewName(front, m, Actual(front));
    ActualGrows(front, m);
    if j == |front| {
      BorrowsFromRegistry(Actual(front), front, m);
      FiledLast(Actual(front), m);
    } else {
      ActualFamily(front, j);
      EarlierBorrowed(front, m, j);
      FiledKeeps(Actual(front), m, registry[j].name);
    }
  }

  lemma {:induction false} ExpectedFamily(registry: seq<Metric>, j: nat)
    requires DistinctNames(registry) && j < |registry|
    ensures registry[j].name in Expected(registry) && Expected(registry)[registry[j].name] == FamilyFor(registry[j])
    decreases |registry|
  {
    var front, m := registry[..|registry| - 1], registry[|registry| - 1];
    assert registry == front + [m];
    ExpectedGrows(front, m);
    if j < |front| {
      assert DistinctNames(front);
      ExpectedFamily(front, j);
    }
  }

  lemma FiledWhole(families: Families, m: Metric)
    requires m.name !in families && (Borrows(families, m) ==> SamplesOf(m) == [])
    ensures Filed(families, m) == families[m.name := FamilyFor(m)]
  {
    if Borrows(families, m) {
      assert Raws(SamplesOf(m)) == [];
      AddingNothing(families[m.name := FamilyFor(m)], BaseOf(m.name));
    }
  }

  lemma KeepsNamesFront(front: seq<Metric>, m: Metric)
    requires KeepsNames(front + [m])
    ensures KeepsNames(front)
  {
    forall j | 0 <= j < |front| && BorrowedAt(front, j) ensures SamplesOf(front[j]) == [] {
      EarlierBorrowed(front, m, j);
      assert (front + [m])[j] == front[j];
    }
  }

  lemma {:induction false} KeptIsExpected(registry: seq<Metric>)
    requires DistinctNames(registry) && KeepsNames(registry)
    ensures Actual(registry) == Expected(registry)
  {
    if registry == [] {
    } else {
      var front, m := registry[..|registry| - 1], registry[|registry| - 1];
      assert registry == front + [m];
      KeepsNamesFront(front, m);
      ActualDeclares(front);
      NewName(front, m, Actual(front));
      KeptIsExpected(front);
      ActualGrows(front, m);
      ExpectedGrows(front, m);
      BorrowsFromRegistry(Actual(front), front, m);
      FiledWhole(Actual(front), m);
    }
  }

  lemma ExpectedIsKept(registry: seq<Metric>)
    requires DistinctNames(registry) && Actual(registry) == Expected(registry)
    ensures KeepsNames(registry)
  {
    forall j | 0 <= j < |registry| && BorrowedAt(registry, j) ensures SamplesOf(registry[j]) == [] {
      ActualFamily(registry, j);
      ExpectedFamily(registry, j);
      assert |Raws(SamplesOf(registry[j]))| == |SamplesOf(registry[j])|;
    }
  }

  function AllEffects(registry: seq<Metric>): seq<Effect> {
    Between(Mapped(EffectsFor, registry), Nothing)
  }

  lemma MetricNames(m: Metric)
    requires IsMetricName(m.name)
    ensures forall i | 0 <= i < |SamplesOf(m)| :: IsMetricName(SamplesOf(m)[i].name)
  {
    MetricSamplesOwned(map[], m);
  }

  lemma BlankDoesNothing(numerals: Numerals)
    ensures Effects([[]], numerals) == [Nothing]
  {
    var f: string -> Effect := Reader(numerals);
    assert f([]) == Nothing;
  }

  function BlockReader(numerals: Numerals): seq<string> -> seq<Effect> {
    lines => Effects(lines, numerals)
  }

  lemma BlockMore(before: seq<string>, block: seq<string>, numerals: Numerals)
    ensures Effects(before + [[]] + block, numerals) == Effects(before, numerals) + [Nothing] + Effects(block, numerals)
  {
    BlankDoesNothing(numerals);
    MappedAppends(Reader(numerals), before + [[]], block);
    MappedAppends(Reader(numerals), before, [[]]);
  }

  lemma {:induction false} BetweenHasEffects(blocks: seq<seq<string>>, numerals: Numerals)
    ensures Effects(Between(blocks, []), numerals) == Between(Mapped(BlockReader(numerals), blocks), Nothing)
  {
    var n, g := |blocks| - 1, BlockReader(numerals);
    if n < 0 {
      BlankDoesNothing(numerals);
    } else if n == 0 {
      assert Mapped(g, blocks) == [g(blocks[0])];
    } else {
      var front, last := blocks[..n], blocks[n];
      assert blocks == front + [last];
      BetweenHasEffects(front, numerals);
      BetweenLast(front, last, []);
      BlockMore(Between(front, []), last, numerals);
      MappedLast(g, front, last);
      BetweenLast(Mapped(g, front), g(last), Nothing);
    }
  }

  lemma RegistryLinesHaveEffects(registry: seq<Metric>, numerals: Numerals)
    requires forall i | 0 <= i < |registry| :: SoundMetric(registry[i], numerals)
    ensures Effects(AllLines(registry), numerals) == AllEffects(registry)
  {
    var blocks, g := Mapped(LinesOf, registry), BlockReader(numerals);
    BetweenHasEffects(blocks, numerals);
    forall i | 0 <= i < |registry| ensures g(blocks[i]) == EffectsFor(registry[i]) {
      LinesHaveEffects(registry[i], numerals);
    }
    assert Mapped(g, blocks) == Mapped(EffectsFor, registry);
  }

  lemma TakeNothing(families: Families)
    ensures TakeAll(families, [Nothing]) == families
  {
    assert [Nothing][1..] == [];
  }

  lemma MappedLast<S, T>(f: S -> T, front: seq<S>, last: S)
    ensures Mapped(f, front + [last]) == Mapped(f, front) + [f(last)]
  {
  }

  lemma AllEffectsStep(front: seq<Metric>, m: Metric)
    ensures AllEffects(front + [m]) == if front == [] then EffectsFor(m) else AllEffects(front) + [Nothing] + EffectsFor(m)
  {
    MappedLast(EffectsFor, front, m);
    if front == [] {
      assert Mapped(EffectsFor, front + [m]) == [EffectsFor(m)];
    } else {
      BetweenLast(Mapped(EffectsFor, front), EffectsFor(m), Nothing);
    }
  }

  lemma TakeStep(families: Families, a: seq<Effect>, b: seq<Effect>)
    ensures TakeAll(families, a + [Nothing] + b) == TakeAll(TakeAll(families, a), b)
  {
    TakeAppends(families, a + [Nothing], b);
    TakeAppends(families, a, [Nothing]);
    TakeNothing(TakeAll(families, a));
  }

  /** One metric more: its lines come after those before it, and a blank one. */
  lemma MetricMore(front: seq<Metric>, m: Metric)
    requires TakeAll(map[], AllEffects(front)) == Actual(front)
    ensures TakeAll(map[], AllEffects(front + [m])) == TakeAll(Actual(front), EffectsFor(m))
  {
    AllEffectsStep(front, m);
    if front == [] {
      assert Actual(front) == map[];
    } else {
      TakeStep(map[], AllEffects(front), EffectsFor(m));
    }
  }

  lemma NewMetric(front: seq<Metric>, m: Metric, registry: seq<Metric>, numerals: Numerals)
    requires registry == front + [m] && SoundRegistry(registry, numerals)
    ensures SoundRegistry(front, numerals) && SoundMetric(m, numerals) && m.name !in Actual(front)
  {
    assert registry[|front|] == m;
    assert forall i | 0 <= i < |front| :: registry[i] == front[i];
    ActualDeclares(front);
    NewName(front, m, Actual(front));
  }

  lemma {:induction false} RegistryIsRead(registry: seq<Metric>, numerals: Numerals)
    requires SoundRegistry(registry, numerals)
    ensures TakeAll(map[], AllEffects(registry)) == Actual(registry)
  {
    if registry == [] {
      TakeNothing(map[]);
    } else {
      var front, m := registry[..|registry| - 1], registry[|registry| - 1];
      assert registry == front + [m];
      NewMetric(front, m, registry, numerals);
      RegistryIsRead(front, numerals);
      MetricMore(front, m);
      MetricIsFiled(Actual(front), m);
      ActualGrows(front, m);
    }
  }

  // ---------------------------------------------------------------------------------------------
  // The text

  lemma {:induction false} EscapedHasNoBreak(v: string)
    ensures '\n' !in Escape(v)
  {
    if v != [] {
      EscapedHasNoBreak(v[1..]);
    }
  }

  lemma {:induction false} PairsHaveNoBreak(labels: seq<Label>)
    requires WellNamed(labels)
    ensures '\n' !in RenderPairs(labels)
  {
    if labels != [] {
      PassesEscapeEach(labels[0].1);
      EscapedHasNoBreak(labels[0].1);
      PairsHaveNoBreak(labels[1..]);
    }
  }

  lemma SampleHasNoBreak(p: Printed)
    requires IsMetricName(p.name) && WellNamed(p.labels) && IsToken(p.token)
    ensures '\n' !in RenderSample(p.name, p.labels, p.token)
  {
    PairsHaveNoBreak(p.labels);
  }

  lemma OneLineAppends(a: seq<string>, b: seq<string>)
    requires OneLineEach(a) && OneLineEach(b)
    ensures OneLineEach(a + b)
  {
  }

  lemma SamplesHaveNoBreak(samples: seq<Printed>, numerals: Numerals)
    requires forall i | 0 <= i < |samples| :: IsMetricName(samples[i].name) && Readable(samples[i], numerals)
    ensures OneLineEach(SampleLines(samples))
  {
    forall i | 0 <= i < |samples| ensures '\n' !in SampleLines(samples)[i] {
      SampleHasNoBreak(samples[i]);
    }
  }

  lemma DirectiveHasNoBreak(keyword: string, name: string, rest: string)
    requires IsToken(keyword) && IsMetricName(name) && OnOneLine(rest)
    ensures '\n' !in DirectiveLine(keyword, name, rest)
  {
  }

  lemma MetricHasNoBreak(m: Metric, numerals: Numerals)
    requires SoundMetric(m, numerals)
    ensures OneLineEach(LinesOf(m))
  {
    MetricNames(m);
    SamplesHaveNoBreak(SamplesOf(m), numerals);
    DirectiveHasNoBreak("HELP", m.name, m.help);
    DirectiveHasNoBreak("TYPE", m.name, TypeName(m));
    OneLineAppends([DirectiveLine("HELP", m.name, m.help), DirectiveLine("TYPE", m.name, TypeName(m))], SampleLines(SamplesOf(m)));
  }

  lemma {:induction false} BetweenHasNoBreak(blocks: seq<seq<string>>)
    requires forall i | 0 <= i < |blocks| :: OneLineEach(blocks[i])
    ensures OneLineEach(Between(blocks, []))
  {
    var n := |blocks| - 1;
    if n >= 1 {
      BetweenHasNoBreak(blocks[..n]);
      OneLineAppends(Between(blocks[..n], []), [[]]);
      OneLineAppends(Between(blocks[..n], []) + [[]], blocks[n]);
    }
  }

  lemma RegistryHasNoBreak(registry: seq<Metric>, numerals: Numerals)
    requires forall i | 0 <= i < |registry| :: SoundMetric(registry[i], numerals)
    ensures OneLineEach(AllLines(registry))
  {
    forall i | 0 <= i < |registry| ensures OneLineEach(Mapped(LinesOf, registry)[i]) {
      MetricHasNoBreak(registry[i], numerals);
    }
    BetweenHasNoBreak(Mapped(LinesOf, registry));
  }

  /** What the dashboard reads is what the lines leave. */
  lemma TextIsRead(registry: seq<Metric>, numerals: Numerals)
    requires SoundRegistry(registry, numerals)
    ensures ReadLines(map[], Split(Render(registry), '\n'), numerals) == Actual(registry)
  {
    RegistryHasNoBreak(registry, numerals);
    TextIsLines(registry);
    RegistryLinesHaveEffects(registry, numerals);
    MappedAppends(Reader(numerals), AllLines(registry), [[]]);
    BlankDoesNothing(numerals);
    RegistryIsRead(registry, numerals);
    TakeAppends(map[], AllEffects(registry), [Nothing]);
    TakeNothing(Actual(registry));
  }

  /**
   * The dashboard reads back exactly what the backend counted (every family, its type, its help, and its samples
   * in order, label values holding any characters but an unescaped line break) if and only if no counter or
   * gauge prints samples under the name of an earlier histogram's series.
   */
  lemma MetricsRoundTrip(registry: seq<Metric>, numerals: Numerals)
    requires SoundRegistry(registry, numerals)
    ensures ReadLines(map[], Split(Render(registry), '\n'), numerals) == Expected(registry) <==> KeepsNames(registry)
  {
    TextIsRead(registry, numerals);
    if KeepsNames(registry) {
      KeptIsExpected(registry);
    }
    if Actual(registry) == Expected(registry) {
      ExpectedIsKept(registry);
    }
  }

  lemma OneMetric(m: Metric)
    ensures Actual([m]) == map[m.name := FamilyFor(m)]
  {
    ActualGrows([], m);
    assert [] + [m] == [m];
  }

  lemma BorrowedFiled(h: Metric, c: Metric)
    requires h.Histogram? && !c.Histogram? && BaseOf(c.name) == h.name && c.name != h.name
    ensures Filed(map[h.name := FamilyFor(h)], c)
            == map[h.name := Family("histogram", h.help, Raws(SamplesOf(h)) + Raws(SamplesOf(c))), c.name := Family(TypeName(c), c.help, [])]
  {
  }

  /**
   * A counter called like a histogram's count, after that histogram: the dashboard shows the counter without
   * samples, and its samples among the histogram's.
   */
  lemma BorrowedNameIsMisfiled(h: Metric, c: Metric, numerals: Numerals)
    requires SoundRegistry([h, c], numerals) && h.Histogram? && !c.Histogram? && c.name == h.name + "_count"
    ensures var read := ReadLines(map[], Split(Render([h, c]), '\n'), numerals);
            && h.name in read && read[h.name] == Family("histogram", h.help, Raws(SamplesOf(h)) + Raws(SamplesOf(c)))
            && c.name in read && read[c.name] == Family(TypeName(c), c.help, [])
  {
    var registry := [h, c];
    TextIsRead(registry, numerals);
    assert registry[0] == h && registry[1] == c && registry == [h] + [c];
    SuffixedName(h.name, "_count");
    OneMetric(h);
    ActualGrows([h], c);
    BorrowedFiled(h, c);
  }
}
