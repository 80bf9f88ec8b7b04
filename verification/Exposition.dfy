/** One sample line of the text exposition format: printed by the backend (metrics.ts), read by the dashboard (prometheus.ts). */
module Exposition {
  import opened Text

  type Label = (string, string)

  // ---------------------------------------------------------------------------------------------
  // Characters

  /** What `.` in a pattern does not match. */
  predicate IsTerminator(c: char) {
    c == '\n' || c == '\r' || c == '\U{2028}' || c == '\U{2029}'
  }

  predicate IsSpace(c: char) {
    || IsTerminator(c) || c == ' ' || c == '\t' || c == '\U{000B}' || c == '\U{000C}' || c == '\U{00A0}' || c == '\U{1680}'
    || '\U{2000}' <= c <= '\U{200A}' || c == '\U{202F}' || c == '\U{205F}' || c == '\U{3000}' || c == '\U{FEFF}'
  }

  predicate IsLabelStart(c: char) {
    'a' <= c <= 'z' || 'A' <= c <= 'Z' || c == '_'
  }

  predicate IsLabelChar(c: char) {
    IsLabelStart(c) || IsDigit(c)
  }

  predicate IsNameStart(c: char) {
    IsLabelStart(c) || c == ':'
  }

  predicate IsNameChar(c: char) {
    IsNameStart(c) || IsDigit(c)
  }

  predicate IsLabelName(s: string) {
    s != [] && IsLabelStart(s[0]) && forall i | 0 <= i < |s| :: IsLabelChar(s[i])
  }

  predicate IsMetricName(s: string) {
    s != [] && IsNameStart(s[0]) && forall i | 0 <= i < |s| :: IsNameChar(s[i])
  }

  /** A printed number: something, and no white space in it. */
  predicate IsToken(s: string) {
    s != [] && forall i | 0 <= i < |s| :: !IsSpace(s[i])
  }

  predicate OnOneLine(s: string) {
    forall i | 0 <= i < |s| :: !IsTerminator(s[i])
  }

  /** The length of the longest prefix of characters that satisfy `p`. */
  function Span(s: string, p: char -> bool): (n: nat)
    ensures n <= |s| && (forall i | 0 <= i < n :: p(s[i])) && (n < |s| ==> !p(s[n]))
  {
    if s == [] || !p(s[0]) then 0 else 1 + Span(s[1..], p)
  }

  // ---------------------------------------------------------------------------------------------
  // Printing

  function Replace(s: string, c: char, replacement: string): string {
    if s == [] then [] else (if s[0] == c then replacement else [s[0]]) + Replace(s[1..], c, replacement)
  }

  /** Three global replacements, one after the other. */
  function EscapeValue(v: string): string {
    Replace(Replace(Replace(v, '\\', "\\\\"), '"', "\\\""), '\n', "\\n")
  }

  function RenderPair(pair: Label): string {
    pair.0 + "=\"" + EscapeValue(pair.1) + "\""
  }

  function RenderPairs(labels: seq<Label>): string {
    if labels == [] then []
    else if |labels| == 1 then RenderPair(labels[0])
    else RenderPair(labels[0]) + "," + RenderPairs(labels[1..])
  }

  function RenderLabels(labels: seq<Label>): string {
    if labels == [] then [] else "{" + RenderPairs(labels) + "}"
  }

  function RenderSample(name: string, labels: seq<Label>, token: string): string {
    name + RenderLabels(labels) + " " + token
  }

  // ---------------------------------------------------------------------------------------------
  // Reading

  /** Where the quoted text that starts here ends: at the first quote no backslash precedes. */
  function CloseQuote(s: string): (n: Option<nat>)
    ensures n.Some? ==> n.value < |s| && s[n.value] == '"'
  {
    if s == [] then None
    else if s[0] == '"' then Some(0)
    else if s[0] == '\\' then
      if |s| < 2 || IsTerminator(s[1]) then None
      else match CloseQuote(s[2..])
        case Some(n) => Some(n + 2)
        case None => None
    else match CloseQuote(s[1..])
      case Some(n) => Some(n + 1)
      case None => None
  }

  /** The text up to its closing quote, and the length of the whole pair. */
  function QuotedText(name: string, tail: string): (m: Option<(string, string, nat)>)
    ensures m.Some? ==> |name| + 2 < m.value.2 <= |name| + 2 + |tail|
  {
    match CloseQuote(tail)
    case Some(k) => Some((name, tail[..k], |name| + k + 3))
    case None => None
  }

  /** A `name="text"` pair that starts here: name, text as written, and length. */
  function MatchPair(s: string): (m: Option<(string, string, nat)>)
    ensures m.Some? ==> 0 < m.value.2 <= |s|
  {
    if s == [] || !IsLabelStart(s[0]) then None
    else
      var n := Span(s, IsLabelChar);
      if |s| < n + 2 || s[n] != '=' || s[n + 1] != '"' then None else QuotedText(s[..n], s[n + 2..])
  }

  function Unescape(s: string): string {
    if |s| >= 2 && s[0] == '\\' && (s[1] == '"' || s[1] == '\\' || s[1] == 'n')
    then [if s[1] == 'n' then '\n' else s[1]] + Unescape(s[2..])
    else if s == [] then []
    else [s[0]] + Unescape(s[1..])
  }

  /** The pattern applied over and over, each time at the leftmost place it matches. */
  function ParsePairs(s: string): seq<Label>
    decreases |s|
  {
    if s == [] then []
    else match MatchPair(s)
      case Some((name, text, length)) => [(name, Unescape(text))] + ParsePairs(s[length..])
      case None => ParsePairs(s[1..])
  }

  /** A record: the last of equal keys wins. */
  function ToRecord(labels: seq<Label>): map<string, string> {
    if labels == [] then map[] else ToRecord(labels[..|labels| - 1])[labels[|labels| - 1].0 := labels[|labels| - 1].1]
  }

  /** White space, then the rest of the line. A trimmed line does not end in white space. */
  function AfterSpace(s: string): Option<string> {
    var n := Span(s, IsSpace);
    if n == 0 || n == |s| || !OnOneLine(s[n..]) then None else Some(s[n..])
  }

  /** A brace that can close the label section and leave a value behind it. */
  predicate ClosesAt(s: string, i: nat) {
    1 <= i < |s| && s[i] == '}' && OnOneLine(s[1..i]) && AfterSpace(s[i + 1..]).Some?
  }

  function LastWhere(p: nat -> bool, n: nat): (i: Option<nat>)
    ensures i.Some? ==> i.value < n && p(i.value)
  {
    if n == 0 then None else if p(n - 1) then Some(n - 1) else LastWhere(p, n - 1)
  }

  function CloserOf(s: string): nat -> bool {
    (i: nat) => ClosesAt(s, i)
  }

  /** The label section is as long as the rest of the pattern allows. */
  function CloseBrace(s: string): (i: Option<nat>)
    ensures i.Some? ==> ClosesAt(s, i.value)
  {
    LastWhere(CloserOf(s), |s|)
  }

  datatype RawSample = RawSample(name: string, labels: map<string, string>, token: string)

  function ParseRest(name: string, rest: string): Option<RawSample> {
    if rest != [] && rest[0] == '{' then
      match CloseBrace(rest)
      case None => None
      case Some(i) => Some(RawSample(name, ToRecord(ParsePairs(rest[1..i])), FirstToken(AfterSpace(rest[i + 1..]).value)))
    else
      match AfterSpace(rest)
      case None => None
      case Some(value) => Some(RawSample(name, map[], FirstToken(value)))
  }

  /** A trimmed line as a sample, its value still as printed. */
  function ParseSample(line: string): Option<RawSample> {
    if line == [] || !IsNameStart(line[0]) then None
    else
      var n := Span(line, IsNameChar);
      ParseRest(line[..n], line[n..])
  }

  function FirstToken(s: string): string {
    s[..Span(s, c => !IsSpace(c))]
  }

  // ---------------------------------------------------------------------------------------------
  // Escaping round trip

  function EscapeChar(c: char): string {
    if c == '\\' then "\\\\" else if c == '"' then "\\\"" else if c == '\n' then "\\n" else [c]
  }

  function Escape(v: string): string {
    if v == [] then [] else EscapeChar(v[0]) + Escape(v[1..])
  }

  lemma ReplaceFirst(d: char, s: string, c: char, replacement: string)
    ensures Replace([d] + s, c, replacement) == (if d == c then replacement else [d]) + Replace(s, c, replacement)
  {
    assert ([d] + s)[1..] == s;
  }

  lemma {:induction false} ReplaceSplits(a: string, b: string, c: char, replacement: string)
    ensures Replace(a + b, c, replacement) == Replace(a, c, replacement) + Replace(b, c, replacement)
  {
    if a == [] {
      assert a + b == b;
    } else {
      var d, tail := a[0], a[1..];
      assert a == [d] + tail && a + b == [d] + (tail + b);
      ReplaceSplits(tail, b, c, replacement);
      ReplaceFirst(d, tail + b, c, replacement);
      ReplaceFirst(d, tail, c, replacement);
    }
  }

  /** The three passes escape each character on its own: none touches what another wrote. */
  lemma {:induction false} PassesEscapeEach(v: string)
    ensures EscapeValue(v) == Escape(v)
  {
    if v != [] {
      var head, tail := [v[0]], v[1..];
      assert v == head + tail;
      PassesEscapeEach(tail);
      var one, rest := Replace(head, '\\', "\\\\"), Replace(tail, '\\', "\\\\");
      ReplaceSplits(head, tail, '\\', "\\\\");
      ReplaceSplits(one, rest, '"', "\\\"");
      ReplaceSplits(Replace(one, '"', "\\\""), Replace(rest, '"', "\\\""), '\n', "\\n");
      EscapeOne(v[0]);
    }
  }

  lemma {:induction false} ReplaceAbsent(s: string, c: char, replacement: string)
    requires c !in s
    ensures Replace(s, c, replacement) == s
  {
    if s != [] {
      ReplaceAbsent(s[1..], c, replacement);
    }
  }

  lemma ReplaceChar(d: char, c: char, replacement: string)
    ensures Replace([d], c, replacement) == if d == c then replacement else [d]
  {
    assert [d][1..] == [];
    assert replacement + [] == replacement && [d] + [] == [d];
  }

  lemma EscapeOne(c: char)
    ensures EscapeValue([c]) == Escape([c])
  {
    ReplaceChar(c, '\\', "\\\\");
    ReplaceChar(c, '"', "\\\"");
    ReplaceChar(c, '\n', "\\n");
    ReplaceAbsent("\\\\", '"', "\\\"");
    ReplaceAbsent("\\\\", '\n', "\\n");
    ReplaceAbsent("\\\"", '\n', "\\n");
    assert [c][1..] == [];
  }

  lemma {:induction false} UnescapeInvertsEscape(v: string)
    ensures Unescape(Escape(v)) == v
  {
    if v != [] {
      UnescapeInvertsEscape(v[1..]);
      var tail := Escape(v[1..]);
      if v[0] == '\\' || v[0] == '"' || v[0] == '\n' {
        assert Escape(v)[2..] == tail;
      } else {
        assert Escape(v)[1..] == tail;
      }
    }
  }

  lemma PlainDoesNotClose(c: char, s: string, n: nat)
    requires c != '"' && c != '\\' && CloseQuote(s) == Some(n)
    ensures CloseQuote([c] + s) == Some(n + 1)
  {
    assert ([c] + s)[1..] == s;
  }

  lemma EscapedDoesNotClose(c: char, s: string, n: nat)
    requires !IsTerminator(c) && CloseQuote(s) == Some(n)
    ensures CloseQuote(['\\', c] + s) == Some(n + 2)
  {
    assert (['\\', c] + s)[2..] == s;
  }

  lemma EscapedCharDoesNotClose(c: char, s: string, n: nat)
    requires CloseQuote(s) == Some(n)
    ensures CloseQuote(EscapeChar(c) + s) == Some(|EscapeChar(c)| + n)
  {
    if |EscapeChar(c)| == 1 {
      PlainDoesNotClose(c, s, n);
    } else {
      EscapedDoesNotClose(if c == '\n' then 'n' else c, s, n);
    }
  }

  lemma {:induction false} EscapedTextCloses(v: string, tail: string)
    requires tail != [] && tail[0] == '"'
    ensures CloseQuote(Escape(v) + tail) == Some(|Escape(v)|)
  {
    if v == [] {
      assert Escape(v) + tail == tail;
    } else {
      var first, text := EscapeChar(v[0]), Escape(v[1..]);
      EscapedTextCloses(v[1..], tail);
      EscapedCharDoesNotClose(v[0], text + tail, |text|);
      assert first + text + tail == first + (text + tail);
    }
  }

  lemma {:induction false} SpanOf(a: string, b: string, p: char -> bool)
    requires forall i | 0 <= i < |a| :: p(a[i])
    requires b == [] || !p(b[0])
    ensures Span(a + b, p) == |a|
  {
    if a != [] {
      assert (a + b)[1..] == a[1..] + b;
      SpanOf(a[1..], b, p);
    } else {
      assert a + b == b;
    }
  }

  lemma QuotedParts(name: string, tail: string, s: string)
    requires s == name + ("=\"" + tail)
    ensures |s| == |name| + 2 + |tail| && s[..|name|] == name && s[|name|] == '=' && s[|name| + 1] == '"' && s[|name| + 2..] == tail
  {
  }

  lemma MatchesAt(name: string, tail: string, s: string)
    requires IsLabelName(name) && s == name + ("=\"" + tail)
    ensures MatchPair(s) == QuotedText(name, tail)
  {
    SpanOf(name, "=\"" + tail, IsLabelChar);
    QuotedParts(name, tail, s);
    assert s[0] == name[0];
  }

  lemma TextIsQuoted(name: string, text: string, tail: string)
    requires CloseQuote(text + tail) == Some(|text|)
    ensures QuotedText(name, text + tail) == Some((name, text, |name| + |text| + 3))
  {
    assert (text + tail)[..|text|] == text;
  }

  lemma RenderedPair(pair: Label, rest: string)
    ensures RenderPair(pair) + rest == pair.0 + ("=\"" + (Escape(pair.1) + ("\"" + rest)))
    ensures |RenderPair(pair)| == |pair.0| + |Escape(pair.1)| + 3
  {
    PassesEscapeEach(pair.1);
  }

  lemma PairMatches(name: string, text: string, tail: string, s: string)
    requires IsLabelName(name) && CloseQuote(text + tail) == Some(|text|) && s == name + ("=\"" + (text + tail))
    ensures MatchPair(s) == Some((name, text, |name| + |text| + 3))
  {
    MatchesAt(name, text + tail, s);
    TextIsQuoted(name, text, tail);
  }

  lemma PairThen(pair: Label, rest: string)
    requires IsLabelName(pair.0)
    ensures ParsePairs(RenderPair(pair) + rest) == [pair] + ParsePairs(rest)
  {
    var s := RenderPair(pair) + rest;
    RenderedPair(pair, rest);
    EscapedTextCloses(pair.1, "\"" + rest);
    PairMatches(pair.0, Escape(pair.1), "\"" + rest, s);
    UnescapeInvertsEscape(pair.1);
    assert s[|RenderPair(pair)|..] == rest;
  }

  lemma CommaIsSkipped(rest: string)
    ensures ParsePairs("," + rest) == ParsePairs(rest)
  {
    assert MatchPair("," + rest) == None;
    assert ("," + rest)[1..] == rest;
  }

  lemma RenderFirst(first: Label, more: seq<Label>)
    ensures RenderPairs([first] + more) == RenderPair(first) + if more == [] then [] else "," + RenderPairs(more)
  {
    assert ([first] + more)[1..] == more;
    assert RenderPair(first) + [] == RenderPair(first);
  }

  /** Whatever the values hold, the pairs are read back one by one. */
  lemma {:induction false} PairsRoundTrip(labels: seq<Label>)
    requires forall i | 0 <= i < |labels| :: IsLabelName(labels[i].0)
    ensures ParsePairs(RenderPairs(labels)) == labels
  {
    if labels == [] {
    } else {
      var first, more := labels[0], labels[1..];
      assert labels == [first] + more;
      PairsRoundTrip(more);
      RenderFirst(first, more);
      if more == [] {
        PairThen(first, []);
      } else {
        PairThen(first, "," + RenderPairs(more));
        CommaIsSkipped(RenderPairs(more));
      }
    }
  }

  // ---------------------------------------------------------------------------------------------
  // A whole line

  lemma SpaceThenToken(token: string)
    requires IsToken(token)
    ensures AfterSpace(" " + token) == Some(token) && FirstToken(token) == token
  {
    SpanOf(" ", token, IsSpace);
    SpanOf(token, [], c => !IsSpace(c));
    assert token + [] == token;
  }

  lemma {:induction false} LastWhereSkips(p: nat -> bool, m: nat, n: nat)
    requires m <= n && forall k | m <= k < n :: !p(k)
    ensures LastWhere(p, n) == LastWhere(p, m)
    decreases n
  {
    if m < n {
      LastWhereSkips(p, m, n - 1);
    }
  }

  lemma TokenDoesNotClose(token: string, k: nat)
    requires IsToken(token) && k <= |token|
    ensures AfterSpace(token[k..]) == None
  {
  }

  lemma LaterDoesNotClose(inner: string, token: string, s: string, k: nat)
    requires IsToken(token) && s == "{" + inner + "} " + token && |inner| + 1 < k < |s|
    ensures !ClosesAt(s, k)
  {
    if k == |inner| + 2 {
      assert s[k] == ' ';
    } else {
      assert s[k + 1..] == token[k - |inner| - 2..];
      TokenDoesNotClose(token, k - |inner| - 2);
    }
  }

  lemma SectionParts(inner: string, token: string, s: string)
    requires IsToken(token) && s == "{" + inner + "} " + token
    ensures s[0] == '{' && s[1..|inner| + 1] == inner && s[|inner| + 1] == '}' && s[|inner| + 2..] == " " + token
    ensures ClosesAt(s, |inner| + 1) <==> OnOneLine(inner)
  {
    SpaceThenToken(token);
    assert s[1..|inner| + 1] == inner && s[|inner| + 2..] == " " + token;
  }

  lemma LaterNeverCloses(inner: string, token: string, s: string)
    requires IsToken(token) && s == "{" + inner + "} " + token
    ensures LastWhere(CloserOf(s), |s|) == LastWhere(CloserOf(s), |inner| + 2)
  {
    var p := CloserOf(s);
    forall k | |inner| + 2 <= k < |s| ensures !p(k) {
      LaterDoesNotClose(inner, token, s, k);
    }
    LastWhereSkips(p, |inner| + 2, |s|);
  }

  /** The label section ends at its own brace: the printed value leaves no later one that could. */
  lemma SectionCloses(inner: string, token: string, s: string)
    requires IsToken(token) && s == "{" + inner + "} " + token
    ensures CloseBrace(s) == if OnOneLine(inner) then Some(|inner| + 1) else LastWhere(CloserOf(s), |inner| + 1)
  {
    SectionParts(inner, token, s);
    LaterNeverCloses(inner, token, s);
    LastOrBefore(CloserOf(s), |inner| + 1);
  }

  lemma LastOrBefore(p: nat -> bool, n: nat)
    ensures LastWhere(p, n + 1) == if p(n) then Some(n) else LastWhere(p, n)
  {
  }

  /** What a value must be free of to be printed: a line break other than the one that is escaped. */
  predicate Printable(v: string) {
    forall i | 0 <= i < |v| :: v[i] == '\n' || !IsTerminator(v[i])
  }

  lemma ConcatOnLine(a: string, b: string)
    ensures OnOneLine(a + b) <==> OnOneLine(a) && OnOneLine(b)
  {
    var s := a + b;
    if OnOneLine(s) {
      forall i | 0 <= i < |a| ensures !IsTerminator(a[i]) { assert s[i] == a[i]; }
      forall i | 0 <= i < |b| ensures !IsTerminator(b[i]) { assert s[|a| + i] == b[i]; }
    }
  }

  lemma {:induction false} EscapeStaysOnLine(v: string)
    ensures OnOneLine(Escape(v)) <==> Printable(v)
  {
    if v != [] {
      EscapeStaysOnLine(v[1..]);
      ConcatOnLine(EscapeChar(v[0]), Escape(v[1..]));
      assert v == [v[0]] + v[1..];
    }
  }

  lemma NamesOnLine(name: string)
    requires IsLabelName(name) || IsMetricName(name)
    ensures OnOneLine(name)
  {
  }

  lemma PairOnLine(pair: Label)
    requires IsLabelName(pair.0)
    ensures OnOneLine(RenderPair(pair)) <==> Printable(pair.1)
  {
    var text := EscapeValue(pair.1);
    PassesEscapeEach(pair.1);
    EscapeStaysOnLine(pair.1);
    NamesOnLine(pair.0);
    ConcatOnLine(pair.0 + "=\"" + text, "\"");
    ConcatOnLine(pair.0 + "=\"", text);
    ConcatOnLine(pair.0, "=\"");
  }

  ghost predicate WellNamed(labels: seq<Label>) {
    forall i | 0 <= i < |labels| :: IsLabelName(labels[i].0)
  }

  ghost predicate AllPrintable(labels: seq<Label>) {
    forall i | 0 <= i < |labels| :: Printable(labels[i].1)
  }

  lemma {:induction false} PairsOnLine(labels: seq<Label>)
    requires WellNamed(labels)
    ensures OnOneLine(RenderPairs(labels)) <==> AllPrintable(labels)
  {
    if labels != [] {
      var first, more := labels[0], labels[1..];
      PairOnLine(first);
      PairsOnLine(more);
      assert labels == [first] + more;
      if more != [] {
        ConcatOnLine(RenderPair(first) + ",", RenderPairs(more));
        ConcatOnLine(RenderPair(first), ",");
      }
    }
  }

  lemma NameThenRest(name: string, rest: string, line: string)
    requires IsMetricName(name) && line == name + rest && rest != [] && !IsNameChar(rest[0])
    ensures line != [] && IsNameStart(line[0]) && Span(line, IsNameChar) == |name| && line[..|name|] == name && line[|name|..] == rest
  {
    SpanOf(name, rest, IsNameChar);
    assert line[0] == name[0];
  }

  lemma SectionRoundTrip(name: string, labels: seq<Label>, token: string, rest: string)
    requires WellNamed(labels) && IsToken(token) && AllPrintable(labels)
    requires rest == "{" + RenderPairs(labels) + "} " + token
    ensures ParseRest(name, rest) == Some(RawSample(name, ToRecord(labels), token))
  {
    var inner := RenderPairs(labels);
    SpaceThenToken(token);
    PairsOnLine(labels);
    SectionParts(inner, token, rest);
    SectionCloses(inner, token, rest);
    PairsRoundTrip(labels);
  }

  function RestOf(labels: seq<Label>, token: string): string {
    RenderLabels(labels) + " " + token
  }

  lemma RestIsSection(labels: seq<Label>, token: string)
    requires labels != []
    ensures RestOf(labels, token) == "{" + RenderPairs(labels) + "} " + token
  {
  }

  lemma LineSplits(name: string, labels: seq<Label>, token: string)
    requires IsMetricName(name)
    ensures ParseSample(RenderSample(name, labels, token)) == ParseRest(name, RestOf(labels, token))
    ensures RestOf(labels, token) != [] && RestOf(labels, token)[0] == if labels == [] then ' ' else '{'
  {
    var rest, line := RestOf(labels, token), RenderSample(name, labels, token);
    assert line == name + rest;
    NameThenRest(name, rest, line);
  }

  /** A printed sample is read back: its name, its labels, its value, whatever characters the values hold on one line. */
  lemma SampleRoundTrip(name: string, labels: seq<Label>, token: string)
    requires IsMetricName(name) && WellNamed(labels) && IsToken(token) && AllPrintable(labels)
    ensures ParseSample(RenderSample(name, labels, token)) == Some(RawSample(name, ToRecord(labels), token))
  {
    LineSplits(name, labels, token);
    if labels == [] {
      SpaceThenToken(token);
    } else {
      RestIsSection(labels, token);
      SectionRoundTrip(name, labels, token, RestOf(labels, token));
    }
  }

  // ---------------------------------------------------------------------------------------------
  // A line break that is not escaped is never read back

  lemma {:induction false} UnescapedPrintable(s: string)
    requires OnOneLine(s)
    ensures Printable(Unescape(s))
  {
    if |s| >= 2 && s[0] == '\\' && (s[1] == '"' || s[1] == '\\' || s[1] == 'n') {
      UnescapedPrintable(s[2..]);
    } else if s != [] {
      UnescapedPrintable(s[1..]);
    }
  }

  lemma MatchIsWithin(s: string)
    requires OnOneLine(s) && MatchPair(s).Some?
    ensures OnOneLine(MatchPair(s).value.1) && OnOneLine(s[MatchPair(s).value.2..])
  {
    var n := Span(s, IsLabelChar);
    var k := CloseQuote(s[n + 2..]).value;
    var text := s[n + 2..n + 2 + k];
    assert forall i | 0 <= i < |text| :: text[i] == s[n + 2 + i];
  }

  lemma {:induction false} ParsedPrintable(s: string)
    requires OnOneLine(s)
    ensures AllPrintable(ParsePairs(s))
    decreases |s|
  {
    if s != [] {
      if MatchPair(s).Some? {
        MatchIsWithin(s);
        UnescapedPrintable(MatchPair(s).value.1);
        ParsedPrintable(s[MatchPair(s).value.2..]);
      } else {
        ParsedPrintable(s[1..]);
      }
    }
  }

  ghost predicate DistinctNames(labels: seq<Label>) {
    forall i, j | 0 <= i < j < |labels| :: labels[i].0 != labels[j].0
  }

  lemma {:induction false} RecordHolds(labels: seq<Label>, i: nat)
    requires DistinctNames(labels) && i < |labels|
    ensures labels[i].0 in ToRecord(labels) && ToRecord(labels)[labels[i].0] == labels[i].1
  {
    if i < |labels| - 1 {
      RecordHolds(labels[..|labels| - 1], i);
    }
  }

  lemma {:induction false} RecordIsPrintable(labels: seq<Label>, key: string)
    requires AllPrintable(labels) && key in ToRecord(labels)
    ensures Printable(ToRecord(labels)[key])
  {
    if key != labels[|labels| - 1].0 {
      RecordIsPrintable(labels[..|labels| - 1], key);
    }
  }

  /** A value that holds one does not come back under its name, wherever the label section is cut. */
  lemma BreakIsNotReadBack(labels: seq<Label>, section: string)
    requires DistinctNames(labels) && !AllPrintable(labels) && OnOneLine(section)
    ensures ToRecord(ParsePairs(section)) != ToRecord(labels)
  {
    var i :| 0 <= i < |labels| && !Printable(labels[i].1);
    RecordHolds(labels, i);
    ParsedPrintable(section);
    if ToRecord(ParsePairs(section)) == ToRecord(labels) {
      RecordIsPrintable(ParsePairs(section), labels[i].0);
    }
  }

  lemma BreakIsLost(name: string, labels: seq<Label>, token: string, rest: string)
    requires DistinctNames(labels) && !AllPrintable(labels) && rest != [] && rest[0] == '{'
    ensures ParseRest(name, rest) != Some(RawSample(name, ToRecord(labels), token))
  {
    var close := CloseBrace(rest);
    if close.Some? {
      BreakIsNotReadBack(labels, rest[1..close.value]);
    }
  }

  /** Exactly the values free of an unescaped line break are read back. */
  lemma ReadBackExactly(name: string, labels: seq<Label>, token: string)
    requires IsMetricName(name) && WellNamed(labels) && DistinctNames(labels) && IsToken(token)
    ensures ParseSample(RenderSample(name, labels, token)) == Some(RawSample(name, ToRecord(labels), token)) <==> AllPrintable(labels)
  {
    if AllPrintable(labels) {
      SampleRoundTrip(name, labels, token);
    } else {
      LineSplits(name, labels, token);
      BreakIsLost(name, labels, token, RestOf(labels, token));
    }
  }
}
