/** What single lines of the exposition are read as: a help line, a type line, a sample line. */
module MetricsLines {
  import opened Text
  import opened Exposition
  import opened MetricsText

  /** Text on one line that trimming leaves alone. */
  ghost predicate Tidy(s: string) {
    s != [] && !IsSpace(s[0]) && !IsSpace(s[|s| - 1]) && OnOneLine(s)
  }

  ghost predicate Readable(p: Printed, numerals: Numerals) {
    WellNamed(p.labels) && AllPrintable(p.labels) && IsToken(p.token) && numerals(p.token)
  }

  function Raw(p: Printed): RawSample {
    RawSample(p.name, ToRecord(p.labels), p.token)
  }

  // ---------------------------------------------------------------------------------------------
  // Single lines

  lemma TrimKeeps(s: string)
    requires s != [] && !IsSpace(s[0]) && !IsSpace(s[|s| - 1])
    ensures Trim(s) == s
  {
    SpanOf([], s, IsSpace);
    assert [] + s == s && s[0..] == s;
  }

  lemma NonSpaceRun(word: string, rest: string)
    requires IsToken(word) && (rest == [] || IsSpace(rest[0]))
    ensures Span(word + rest, c => !IsSpace(c)) == |word|
  {
    SpanOf(word, rest, c => !IsSpace(c));
  }

  lemma SkipOne(rest: string)
    requires rest != [] && !IsSpace(rest[0])
    ensures SkipSpace(" " + rest) == Some(rest)
  {
    SpanOf(" ", rest, IsSpace);
  }

  lemma WordIsRead(name: string, rest: string, t: string)
    requires IsToken(name) && rest != [] && !IsSpace(rest[0]) && t == " " + (name + (" " + rest))
    ensures WordAndRest(t) == Some((name, rest))
  {
    var v := " " + rest;
    SkipOne(name + v);
    NonSpaceRun(name, v);
    assert (name + v)[..|name|] == name && (name + v)[|name|..] == v;
    SkipOne(rest);
  }

  lemma KeywordIsRead(keyword: string, t: string, line: string)
    requires IsToken(keyword) && line == "#" + (" " + (keyword + t))
    ensures Directive(line, keyword) == WordAndRest(t)
  {
    assert line[1..] == " " + (keyword + t);
    SkipOne(keyword + t);
    assert (keyword + t)[|keyword|..] == t;
  }

  lemma KeywordIsNotRead(keyword: string, other: string, t: string, line: string)
    requires IsToken(keyword) && other != [] && other[0] != keyword[0] && line == "#" + (" " + (keyword + t))
    ensures Directive(line, other) == None
  {
    assert line[1..] == " " + (keyword + t);
    SkipOne(keyword + t);
    assert (keyword + t)[0] == keyword[0];
  }

  lemma DirectiveParts(keyword: string, name: string, rest: string, line: string)
    requires line == DirectiveLine(keyword, name, rest)
    ensures line == "#" + (" " + (keyword + (" " + (name + (" " + rest)))))
  {
  }

  lemma DirectiveTrimmed(keyword: string, name: string, rest: string, line: string)
    requires line == DirectiveLine(keyword, name, rest) && rest != [] && !IsSpace(rest[|rest| - 1])
    ensures Trim(line) == line && line != [] && line[0] == '#'
  {
    assert line[|line| - 1] == rest[|rest| - 1];
    TrimKeeps(line);
  }

  ghost predicate IsComment(line: string) {
    Trim(line) == line && line != [] && line[0] == '#'
  }

  lemma DirectiveIsRead(keyword: string, name: string, rest: string, line: string)
    requires IsToken(keyword) && IsToken(name) && rest != [] && !IsSpace(rest[0]) && line == DirectiveLine(keyword, name, rest)
    ensures Directive(line, keyword) == Some((name, rest))
  {
    var t := " " + (name + (" " + rest));
    DirectiveParts(keyword, name, rest, line);
    KeywordIsRead(keyword, t, line);
    WordIsRead(name, rest, t);
  }

  lemma DirectiveIsNotRead(keyword: string, other: string, name: string, rest: string, line: string)
    requires IsToken(keyword) && other != [] && other[0] != keyword[0] && line == DirectiveLine(keyword, name, rest)
    ensures Directive(line, other) == None
  {
    var t := " " + (name + (" " + rest));
    DirectiveParts(keyword, name, rest, line);
    KeywordIsNotRead(keyword, other, t, line);
  }

  lemma HelpIsRead(name: string, help: string, line: string, numerals: Numerals)
    requires IsComment(line) && Directive(line, "HELP") == Some((name, help)) && OnOneLine(help)
    ensures EffectOf(line, numerals) == SetHelp(name, help)
  {
  }

  lemma TypeIsRead(name: string, kind: string, line: string, numerals: Numerals)
    requires IsComment(line) && Directive(line, "TYPE") == Some((name, kind)) && Directive(line, "HELP") == None && IsToken(kind)
    ensures EffectOf(line, numerals) == SetKind(name, kind)
  {
  }

  lemma NameIsToken(name: string)
    requires IsMetricName(name)
    ensures IsToken(name)
  {
    forall i | 0 <= i < |name| ensures !IsSpace(name[i]) {
      assert IsNameChar(name[i]);
    }
  }

  lemma CommentIsRead(keyword: string, name: string, rest: string, line: string)
    requires IsToken(keyword) && IsToken(name) && Tidy(rest) && line == DirectiveLine(keyword, name, rest)
    ensures IsComment(line) && Directive(line, keyword) == Some((name, rest))
  {
    DirectiveTrimmed(keyword, name, rest, line);
    DirectiveIsRead(keyword, name, rest, line);
  }

  lemma HelpHasEffect(name: string, help: string, line: string, numerals: Numerals)
    requires IsMetricName(name) && Tidy(help) && line == DirectiveLine("HELP", name, help)
    ensures EffectOf(line, numerals) == SetHelp(name, help)
  {
    NameIsToken(name);
    CommentIsRead("HELP", name, help, line);
    HelpIsRead(name, help, line, numerals);
  }

  lemma TypeHasEffect(name: string, kind: string, line: string, numerals: Numerals)
    requires IsMetricName(name) && IsToken(kind) && line == DirectiveLine("TYPE", name, kind)
    ensures EffectOf(line, numerals) == SetKind(name, kind)
  {
    NameIsToken(name);
    CommentIsRead("TYPE", name, kind, line);
    DirectiveIsNotRead("TYPE", "HELP", name, kind, line);
    TypeIsRead(name, kind, line, numerals);
  }

  lemma SampleTrimmed(p: Printed, line: string)
    requires IsMetricName(p.name) && IsToken(p.token) && line == RenderSample(p.name, p.labels, p.token)
    ensures Trim(line) == line && line != [] && line[0] != '#'
  {
    assert line[0] == p.name[0] && line[|line| - 1] == p.token[|p.token| - 1];
    TrimKeeps(line);
  }

  lemma SampleHasEffect(line: string, sample: RawSample, numerals: Numerals)
    requires Trim(line) == line && line != [] && line[0] != '#' && ParseSample(line) == Some(sample) && numerals(sample.token)
    ensures EffectOf(line, numerals) == AddSample(sample)
  {
  }

  lemma SampleIsRead(p: Printed, numerals: Numerals)
    requires IsMetricName(p.name) && Readable(p, numerals)
    ensures EffectOf(RenderSample(p.name, p.labels, p.token), numerals) == AddSample(Raw(p))
  {
    var line := RenderSample(p.name, p.labels, p.token);
    SampleTrimmed(p, line);
    SampleRoundTrip(p.name, p.labels, p.token);
    SampleHasEffect(line, Raw(p), numerals);
  }
}
