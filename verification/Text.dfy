/** Strings as the program uses them: lower-casing, decimal numerals, splitting on one character. */
module Text {

  datatype Option<+T> = None | Some(value: T)

  datatype Result<+T, +E> = Ok(value: T) | Err(error: E)

  function LowerChar(c: char): char {
    if 'A' <= c <= 'Z' then (c as int + 32) as char else c
  }

  /** `toLowerCase` on the ASCII strings (addresses, hashes) it is applied to. */
  function Lower(s: string): string {
    seq(|s|, i requires 0 <= i < |s| => LowerChar(s[i]))
  }

  /** The same character, or the same letter of the alphabet in either case. */
  predicate SameLetter(c: char, d: char) {
    c == d || ('A' <= c <= 'Z' && d as int == c as int + 32) || ('A' <= d <= 'Z' && c as int == d as int + 32)
  }

  /** Two strings are alike in lower case exactly when they differ in the case of letters at most. */
  lemma LowerIgnoresCase(a: string, b: string)
    ensures Lower(a) == Lower(b) <==> |a| == |b| && forall i | 0 <= i < |a| :: SameLetter(a[i], b[i])
  {
    if Lower(a) == Lower(b) {
      assert |a| == |Lower(a)| == |Lower(b)| == |b|;
      forall i | 0 <= i < |a| ensures SameLetter(a[i], b[i]) {
        assert Lower(a)[i] == Lower(b)[i];
      }
    }
  }

  predicate IsDigit(c: char) {
    '0' <= c <= '9'
  }

  /** The decimal numeral a template literal prints for a non-negative integer. */
  function Dec(n: nat): (s: string)
    ensures s != []
    ensures forall i | 0 <= i < |s| :: IsDigit(s[i])
  {
    var last := [('0' as int + n % 10) as char];
    if n < 10 then last else Dec(n / 10) + last
  }

  /** `Number(s)` on a numeral; `None` where it would not be a plain decimal number. */
  function ParseDec(s: string): Option<nat> {
    if s == [] || !IsDigit(s[|s| - 1]) then None
    else
      var unit := s[|s| - 1] as int - '0' as int;
      if |s| == 1 then Some(unit)
      else match ParseDec(s[..|s| - 1])
        case None => None
        case Some(n) => Some(10 * n + unit)
  }

  lemma {:induction false} ParseDecInvertsDec(n: nat)
    ensures ParseDec(Dec(n)) == Some(n)
  {
    var s := Dec(n);
    if n >= 10 {
      ParseDecInvertsDec(n / 10);
      assert s[..|s| - 1] == Dec(n / 10);
    }
  }

  /** One more character: the separator starts a new part, anything else grows the last. */
  function Grow(parts: seq<string>, sep: char, c: char): seq<string>
    requires |parts| >= 1
  {
    if c == sep then parts + [[]] else parts[..|parts| - 1] + [parts[|parts| - 1] + [c]]
  }

  /** `s.split(sep)` for a one-character separator. */
  function Split(s: string, sep: char): (parts: seq<string>)
    ensures |parts| >= 1
  {
    if s == [] then [[]] else Grow(Split(s[..|s| - 1], sep), sep, s[|s| - 1])
  }

  lemma SplitGrows(s: string, sep: char, c: char)
    ensures Split(s + [c], sep) == Grow(Split(s, sep), sep, c)
  {
    assert (s + [c])[..|s|] == s;
  }

  lemma GrowLast(parts: seq<string>, part: string, sep: char, c: char)
    requires c != sep
    ensures Grow(parts + [part], sep, c) == parts + [part + [c]]
  {
    assert (parts + [part])[..|parts|] == parts;
  }

  lemma SplitGrowsLast(s: string, parts: seq<string>, part: string, sep: char, c: char)
    requires Split(s, sep) == parts + [part] && c != sep
    ensures Split(s + [c], sep) == parts + [part + [c]]
  {
    SplitGrows(s, sep, c);
    GrowLast(parts, part, sep, c);
  }

  /** Characters other than the separator all go to the last part. */
  lemma {:induction false} SplitTail(s: string, parts: seq<string>, part: string, sep: char, b: string)
    requires Split(s, sep) == parts + [part] && sep !in b
    ensures Split(s + b, sep) == parts + [part + b]
    decreases |b|
  {
    if b == [] {
      assert s + b == s && part + b == part;
    } else {
      var c, tail := b[0], b[1..];
      assert b == [c] + tail && c in b;
      SplitGrowsLast(s, parts, part, sep, c);
      SplitTail(s + [c], parts, part + [c], sep, tail);
      assert s + b == s + [c] + tail && part + b == part + [c] + tail;
    }
  }

  lemma SplitLast(a: string, sep: char, b: string)
    requires sep !in b
    ensures Split(a + [sep] + b, sep) == Split(a, sep) + [b]
  {
    SplitGrows(a, sep, sep);
    SplitTail(a + [sep], Split(a, sep), [], sep, b);
    assert [] + b == b;
  }

  lemma SplitWhole(s: string, sep: char)
    requires sep !in s
    ensures Split(s, sep) == [s]
  {
    SplitTail([], [], [], sep, s);
    assert [] + s == s && [] + [s] == [s];
  }

  /** The text before the first `sep`. */
  function Before(s: string, sep: char): string {
    if s == [] || s[0] == sep then [] else [s[0]] + Before(s[1..], sep)
  }

  lemma BeforeGrows(c: char, s: string, sep: char)
    ensures Before([c] + s, sep) == if c == sep then [] else [c] + Before(s, sep)
  {
    assert ([c] + s)[1..] == s;
  }

  lemma {:induction false} BeforeFirst(a: string, sep: char, rest: string)
    requires sep !in a
    ensures Before(a + [sep] + rest, sep) == a
  {
    if a == [] {
      assert a + [sep] + rest == [sep] + rest;
    } else {
      var tail := a[1..];
      assert a == [a[0]] + tail && a[0] in a;
      BeforeFirst(tail, sep, rest);
      BeforeGrows(a[0], tail + [sep] + rest, sep);
      assert a + [sep] + rest == [a[0]] + (tail + [sep] + rest);
    }
  }

  /** The text is what comes before the first `sep`, then `sep`, then the rest. */
  lemma {:induction false} BeforeSplits(s: string, sep: char) returns (rest: string)
    requires sep in s
    ensures sep !in Before(s, sep) && s == Before(s, sep) + [sep] + rest
  {
    var tail := s[1..];
    assert s == [s[0]] + tail;
    if s[0] == sep {
      rest := tail;
      assert s == [] + [sep] + rest;
    } else {
      rest := BeforeSplits(tail, sep);
      assert s == [s[0]] + Before(tail, sep) + [sep] + rest;
    }
  }
}
