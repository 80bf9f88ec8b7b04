/** The whole exposition: the backend's registry as text (metrics.ts), the dashboard's families from it (prometheus.ts). */
module MetricsText {
  import opened Text
  import opened Exposition

  // ---------------------------------------------------------------------------------------------
  // Printing

  /** Numbers are held as they are printed. */
  datatype Series = Series(labels: seq<Label>, value: string)

  datatype HistogramSeries = HistogramSeries(labels: seq<Label>, buckets: seq<string>, sum: string, count: string)

  datatype Metric = Counter(name: string, help: string, series: seq<Series>)
                  | Gauge(name: string, help: string, series: seq<Series>)
                  | Histogram(name: string, help: string, bounds: seq<string>, histograms: seq<HistogramSeries>)

  datatype Printed = Printed(name: string, labels: seq<Label>, token: string)

  function TypeName(m: Metric): string {
    match m
    case Counter(_, _, _) => "counter"
    case Gauge(_, _, _) => "gauge"
    case Histogram(_, _, _, _) => "histogram"
  }

  /** `{...labels, le}`: an existing `le` is overwritten where it stands. */
  function WithLe(labels: seq<Label>, le: string): seq<Label> {
    if labels == [] then [("le", le)]
    else if labels[0].0 == "le" then [("le", le)] + labels[1..]
    else [labels[0]] + WithLe(labels[1..], le)
  }

  function PlainSamples(name: string, series: seq<Series>): seq<Printed> {
    seq(|series|, i requires 0 <= i < |series| => Printed(name, series[i].labels, series[i].value))
  }

  function BucketSamples(name: string, bounds: seq<string>, s: HistogramSeries): seq<Printed> {
    seq(|bounds|, i requires 0 <= i < |bounds| =>
      Printed(name + "_bucket", WithLe(s.labels, bounds[i]), if i < |s.buckets| then s.buckets[i] else "undefined"))
  }

  /** The `+Inf` bucket, the sum and the count of one series. */
  function TotalSamples(name: string, s: HistogramSeries): seq<Printed> {
    [Printed(name + "_bucket", WithLe(s.labels, "+Inf"), s.count), Printed(name + "_sum", s.labels, s.sum), Printed(name + "_count", s.labels, s.count)]
  }

  function HistogramSamples(name: string, bounds: seq<string>, histograms: seq<HistogramSeries>): seq<Printed> {
    if histograms == [] then []
    else
      var s := histograms[0];
      BucketSamples(name, bounds, s) + TotalSamples(name, s) + HistogramSamples(name, bounds, histograms[1..])
  }

  function SamplesOf(m: Metric): seq<Printed> {
    match m
    case Counter(name, _, series) => PlainSamples(name, series)
    case Gauge(name, _, series) => PlainSamples(name, series)
    case Histogram(name, _, bounds, histograms) => HistogramSamples(name, bounds, histograms)
  }

  function SampleLines(samples: seq<Printed>): seq<string> {
    seq(|samples|, i requires 0 <= i < |samples| => RenderSample(samples[i].name, samples[i].labels, samples[i].token))
  }

  function DirectiveLine(keyword: string, name: string, rest: string): string {
    "# " + keyword + " " + name + " " + rest
  }

  function LinesOf(m: Metric): seq<string> {
    [DirectiveLine("HELP", m.name, m.help), DirectiveLine("TYPE", m.name, TypeName(m))] + SampleLines(SamplesOf(m))
  }

  function Join(parts: seq<string>, separator: string): string {
    if parts == [] then []
    else if |parts| == 1 then parts[0]
    else Join(parts[..|parts| - 1], separator) + separator + parts[|parts| - 1]
  }

  function Mapped<S, T>(f: S -> T, items: seq<S>): (r: seq<T>)
    ensures |r| == |items| && forall i | 0 <= i < |items| :: r[i] == f(items[i])
  {
    seq(|items|, i requires 0 <= i < |items| => f(items[i]))
  }

  function RenderMetric(m: Metric): string {
    Join(LinesOf(m), "\n")
  }

  function Render(registry: seq<Metric>): string {
    Join(Mapped(RenderMetric, registry), "\n\n") + "\n"
  }

  // ---------------------------------------------------------------------------------------------
  // Reading

  datatype Family = Family(kind: string, help: string, samples: seq<RawSample>)

  type Families = map<string, Family>

  /** Whether `Number` or one of the three special words makes a value of a token. */
  type Numerals = string -> bool

  function TrimEnd(s: string): string {
    if s == [] || !IsSpace(s[|s| - 1]) then s else TrimEnd(s[..|s| - 1])
  }

  function Trim(s: string): string {
    TrimEnd(s[Span(s, IsSpace)..])
  }

  function SkipSpace(s: string): Option<string> {
    var n := Span(s, IsSpace);
    if n == 0 then None else Some(s[n..])
  }

  /** White space, a word, white space, and what follows. */
  function WordAndRest(t: string): Option<(string, string)> {
    match SkipSpace(t)
    case None => None
    case Some(u) =>
      var n := Span(u, c => !IsSpace(c));
      if n == 0 then None
      else match SkipSpace(u[n..])
        case None => None
        case Some(rest) => Some((u[..n], rest))
  }

  /** `# keyword name rest`. */
  function Directive(line: string, keyword: string): Option<(string, string)> {
    if line == [] || line[0] != '#' then None
    else match SkipSpace(line[1..])
      case None => None
      case Some(s) => if keyword <= s then WordAndRest(s[|keyword|..]) else None
  }

  function FamilyOf(families: Families, name: string): Family {
    if name in families then families[name] else Family("untyped", [], [])
  }

  predicate EndsWith(s: string, suffix: string) {
    |suffix| <= |s| && s[|s| - |suffix|..] == suffix
  }

  /** The name without one histogram suffix. */
  function BaseOf(name: string): string {
    if EndsWith(name, "_bucket") then name[..|name| - 7]
    else if EndsWith(name, "_sum") then name[..|name| - 4]
    else if EndsWith(name, "_count") then name[..|name| - 6]
    else name
  }

  /** The family a sample belongs to: the histogram that declared its base name, or its own name. */
  function OwnerOf(families: Families, name: string): string {
    var base := BaseOf(name);
    if base in families && families[base].kind == "histogram" then base else name
  }

  function WithSample(families: Families, sample: RawSample): Families {
    var owner := OwnerOf(families, sample.name);
    var family := FamilyOf(families, owner);
    families[owner := family.(samples := family.samples + [sample])]
  }

  /** What a line does to the families. */
  datatype Effect = Nothing | SetHelp(name: string, help: string) | SetKind(name: string, kind: string) | AddSample(sample: RawSample)

  function CommentEffect(line: string): Effect {
    var help, kind := Directive(line, "HELP"), Directive(line, "TYPE");
    if help.Some? && OnOneLine(help.value.1) then SetHelp(help.value.0, help.value.1)
    else if kind.Some? && IsToken(kind.value.1) then SetKind(kind.value.0, kind.value.1)
    else Nothing
  }

  function SampleEffect(line: string, numerals: Numerals): Effect {
    match ParseSample(line)
    case Some(sample) => if numerals(sample.token) then AddSample(sample) else Nothing
    case None => Nothing
  }

  function EffectOf(raw: string, numerals: Numerals): Effect {
    var line := Trim(raw);
    if line == [] then Nothing
    else if line[0] == '#' then CommentEffect(line)
    else SampleEffect(line, numerals)
  }

  function Take(families: Families, effect: Effect): Families {
    match effect
    case Nothing => families
    case SetHelp(name, help) => families[name := FamilyOf(families, name).(help := help)]
    case SetKind(name, kind) => families[name := FamilyOf(families, name).(kind := kind)]
    case AddSample(sample) => WithSample(families, sample)
  }

  function ReadLine(families: Families, raw: string, numerals: Numerals): Families {
    Take(families, EffectOf(raw, numerals))
  }

  function Reader(numerals: Numerals): string -> Effect {
    line => EffectOf(line, numerals)
  }

  function Effects(lines: seq<string>, numerals: Numerals): seq<Effect> {
    Mapped(Reader(numerals), lines)
  }

  function TakeAll(families: Families, effects: seq<Effect>): Families
    decreases effects
  {
    if effects == [] then families else TakeAll(Take(families, effects[0]), effects[1..])
  }

  function ReadLines(families: Families, lines: seq<string>, numerals: Numerals): Families {
    TakeAll(families, Effects(lines, numerals))
  }

  method ParsePrometheusText(text: string, numerals: Numerals) returns (families: Families)
    ensures families == ReadLines(map[], Split(text, '\n'), numerals)
  {
    families := map[];
    var lines := Split(text, '\n');
    for i := 0 to |lines|
      invariant TakeAll(map[], Effects(lines, numerals)) == TakeAll(families, Effects(lines, numerals)[i..])
    {
      families := ReadLine(families, lines[i], numerals);
      assert Effects(lines, numerals)[i..][1..] == Effects(lines, numerals)[i + 1..];
    }
  }

  // ---------------------------------------------------------------------------------------------
  // From lines to text and back

  ghost predicate FreeOf(parts: seq<string>, separator: char) {
    forall i | 0 <= i < |parts| :: separator !in parts[i]
  }

  ghost predicate OneLineEach(lines: seq<string>) {
    FreeOf(lines, '\n')
  }

  lemma JoinLast(front: seq<string>, last: string, separator: string)
    requires front != []
    ensures Join(front + [last], separator) == Join(front, separator) + separator + last
  {
    assert (front + [last])[..|front|] == front;
  }

  lemma {:induction false} SplitInvertsJoin(parts: seq<string>, separator: char)
    requires parts != [] && FreeOf(parts, separator)
    ensures Split(Join(parts, [separator]), separator) == parts
  {
    var n := |parts| - 1;
    if n == 0 {
      SplitWhole(parts[0], separator);
    } else {
      var front, last := parts[..n], parts[n];
      assert parts == front + [last];
      SplitInvertsJoin(front, separator);
      JoinLast(front, last, [separator]);
      SplitLast(Join(front, [separator]), separator, last);
    }
  }

  lemma {:induction false} JoinAppends(a: seq<string>, b: seq<string>)
    requires a != [] && b != []
    ensures Join(a + b, "\n") == Join(a, "\n") + "\n" + Join(b, "\n")
  {
    var n := |b| - 1;
    if n == 0 {
      assert (a + b)[..|a + b| - 1] == a;
    } else {
      assert (a + b)[..|a + b| - 1] == a + b[..n];
      JoinAppends(a, b[..n]);
      var x, y, z := Join(a, "\n"), Join(b[..n], "\n"), b[n];
      assert x + "\n" + y + "\n" + z == x + "\n" + (y + "\n" + z);
    }
  }

  /** Blocks one after the other, with one blank element between them. */
  function Between<T>(blocks: seq<seq<T>>, blank: T): (r: seq<T>)
    ensures (forall i | 0 <= i < |blocks| :: blocks[i] != []) ==> r != []
  {
    if blocks == [] then [blank]
    else if |blocks| == 1 then blocks[0]
    else Between(blocks[..|blocks| - 1], blank) + [blank] + blocks[|blocks| - 1]
  }

  /** The lines of the whole exposition: a blank one between metrics. */
  function AllLines(registry: seq<Metric>): seq<string> {
    Between(Mapped(LinesOf, registry), [])
  }

  lemma BlankLineJoins(a: seq<string>, b: seq<string>)
    requires a != [] && b != []
    ensures Join(a + [[]] + b, "\n") == Join(a, "\n") + "\n\n" + Join(b, "\n")
  {
    JoinAppends(a, [[]]);
    JoinAppends(a + [[]], b);
    var x, y := Join(a, "\n"), Join(b, "\n");
    assert Join([[]], "\n") == [];
    assert x + "\n" + [] + "\n" + y == x + "\n\n" + y;
  }

  function Lined(): seq<string> -> string {
    block => Join(block, "\n")
  }

  lemma MappedFront<S, T>(f: S -> T, items: seq<S>, n: nat)
    requires |items| == n + 1
    ensures Mapped(f, items) == Mapped(f, items[..n]) + [f(items[n])]
  {
  }

  lemma BetweenLast<T>(front: seq<seq<T>>, last: seq<T>, blank: T)
    requires front != []
    ensures Between(front + [last], blank) == Between(front, blank) + [blank] + last
  {
    assert (front + [last])[..|front|] == front;
  }

  lemma {:induction false} BlocksAreLines(blocks: seq<seq<string>>)
    requires forall i | 0 <= i < |blocks| :: blocks[i] != []
    ensures Join(Mapped(Lined(), blocks), "\n\n") == Join(Between(blocks, []), "\n")
  {
    var n := |blocks| - 1;
    if n < 0 {
    } else if n == 0 {
      assert Lined()(blocks[0]) == Join(blocks[0], "\n");
    } else {
      var front, last := blocks[..n], blocks[n];
      assert blocks == front + [last];
      BlocksAreLines(front);
      MappedFront(Lined(), blocks, n);
      JoinLast(Mapped(Lined(), front), Lined()(last), "\n\n");
      BetweenLast(front, last, []);
      BlankLineJoins(Between(front, []), last);
    }
  }

  lemma TextIsLines(registry: seq<Metric>)
    requires OneLineEach(AllLines(registry))
    ensures Split(Render(registry), '\n') == AllLines(registry) + [[]]
  {
    var blocks, lines := Mapped(LinesOf, registry), AllLines(registry);
    assert Mapped(RenderMetric, registry) == Mapped(Lined(), blocks);
    BlocksAreLines(blocks);
    JoinAppends(lines, [[]]);
    assert Render(registry) == Join(lines, "\n") + "\n" + [];
    SplitInvertsJoin(lines + [[]], '\n');
  }
}
