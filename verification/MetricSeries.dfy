/** Counters and gauges as they accumulate, one value per label set (metrics.ts). */
module MetricSeries {
  import opened Text
  import opened Exposition
  import opened MetricsText

  // ---------------------------------------------------------------------------------------------
  // The key of a label set

  /** The order of the default sort: by characters, a prefix first. */
  predicate Precedes(a: string, b: string) {
    b != [] && (a == [] || a[0] < b[0] || (a[0] == b[0] && Precedes(a[1..], b[1..])))
  }

  function InsertName(sorted: seq<string>, name: string): seq<string> {
    if sorted == [] then [name]
    else if Precedes(name, sorted[|sorted| - 1]) then InsertName(sorted[..|sorted| - 1], name) + [sorted[|sorted| - 1]]
    else sorted + [name]
  }

  function SortNames(names: seq<string>): seq<string> {
    if names == [] then [] else InsertName(SortNames(names[..|names| - 1]), names[|names| - 1])
  }

  function NamesOf(labels: seq<Label>): (names: seq<string>)
    ensures |names| == |labels| && forall i | 0 <= i < |labels| :: names[i] == labels[i].0
  {
    seq(|labels|, i requires 0 <= i < |labels| => labels[i].0)
  }

  function Assignments(names: seq<string>, record: map<string, string>): (r: seq<string>)
    requires forall i | 0 <= i < |names| :: names[i] in record
    ensures |r| == |names| && forall i | 0 <= i < |names| :: r[i] == names[i] + "=" + record[names[i]]
  {
    seq(|names|, i requires 0 <= i < |names| => names[i] + "=" + record[names[i]])
  }

  lemma {:induction false} RecordKeys(labels: seq<Label>, name: string)
    ensures name in ToRecord(labels) <==> name in NamesOf(labels)
  {
    if labels != [] {
      RecordKeys(labels[..|labels| - 1], name);
      assert NamesOf(labels) == NamesOf(labels[..|labels| - 1]) + [labels[|labels| - 1].0];
    }
  }

  lemma {:induction false} InsertHolds(sorted: seq<string>, name: string, x: string)
    ensures x in InsertName(sorted, name) <==> x in sorted || x == name
  {
    if sorted != [] {
      assert sorted == sorted[..|sorted| - 1] + [sorted[|sorted| - 1]];
      InsertHolds(sorted[..|sorted| - 1], name, x);
    }
  }

  lemma {:induction false} SortHolds(names: seq<string>, x: string)
    ensures x in SortNames(names) <==> x in names
  {
    if names != [] {
      assert names == names[..|names| - 1] + [names[|names| - 1]];
      SortHolds(names[..|names| - 1], x);
      InsertHolds(SortNames(names[..|names| - 1]), names[|names| - 1], x);
    }
  }

  function SeriesKey(labels: seq<Label>): string {
    var names, record := SortNames(NamesOf(labels)), ToRecord(labels);
    SortedNamesInRecord(labels);
    Join(Assignments(names, record), ",")
  }

  lemma SortedNamesInRecord(labels: seq<Label>)
    ensures forall i | 0 <= i < |SortNames(NamesOf(labels))| :: SortNames(NamesOf(labels))[i] in ToRecord(labels)
  {
    var names := SortNames(NamesOf(labels));
    forall i | 0 <= i < |names| ensures names[i] in ToRecord(labels) {
      SortHolds(NamesOf(labels), names[i]);
      RecordKeys(labels, names[i]);
    }
  }

  // ---------------------------------------------------------------------------------------------
  // The order is total and strict

  lemma {:induction false} PrecedesIsStrict(a: string, b: string)
    ensures !(Precedes(a, b) && Precedes(b, a)) && !Precedes(a, a)
    ensures Precedes(a, b) || Precedes(b, a) || a == b
  {
    if a != [] && b != [] {
      PrecedesIsStrict(a[1..], b[1..]);
      if a[0] == b[0] && a[1..] == b[1..] {
        assert a == [a[0]] + a[1..] && b == [b[0]] + b[1..];
      }
    }
    if a != [] && b == [] {
      PrecedesIsStrict(a[1..], b);
    }
  }

  lemma {:induction false} PrecedesIsTransitive(a: string, b: string, c: string)
    requires Precedes(a, b) && Precedes(b, c)
    ensures Precedes(a, c)
  {
    if a != [] && a[0] == b[0] == c[0] {
      PrecedesIsTransitive(a[1..], b[1..], c[1..]);
    }
  }

  ghost predicate Increasing(names: seq<string>) {
    forall i, j | 0 <= i < j < |names| :: Precedes(names[i], names[j])
  }

  ghost predicate AllDistinct(names: seq<string>) {
    forall i, j | 0 <= i < j < |names| :: names[i] != names[j]
  }

  lemma {:induction false} InsertIncreases(sorted: seq<string>, name: string)
    requires Increasing(sorted) && name !in sorted
    ensures Increasing(InsertName(sorted, name))
  {
    if sorted != [] {
      var front, last := sorted[..|sorted| - 1], sorted[|sorted| - 1];
      PrecedesIsStrict(name, last);
      if Precedes(name, last) {
        InsertIncreases(front, name);
        var r := InsertName(front, name);
        forall i | 0 <= i < |r| ensures Precedes(r[i], last) {
          InsertHolds(front, name, r[i]);
        }
      } else {
        forall i | 0 <= i < |sorted| ensures Precedes(sorted[i], name) {
          if i < |sorted| - 1 {
            PrecedesIsTransitive(sorted[i], last, name);
          }
        }
      }
    }
  }

  lemma {:induction false} SortIncreases(names: seq<string>)
    requires AllDistinct(names)
    ensures Increasing(SortNames(names))
  {
    if names != [] {
      SortIncreases(names[..|names| - 1]);
      SortHolds(names[..|names| - 1], names[|names| - 1]);
      InsertIncreases(SortNames(names[..|names| - 1]), names[|names| - 1]);
    }
  }

  ghost predicate SameNames(a: seq<string>, b: seq<string>) {
    forall x :: x in a <==> x in b
  }

  lemma SameGreatest(a: seq<string>, b: seq<string>)
    requires Increasing(a) && Increasing(b) && SameNames(a, b) && a != [] && b != []
    ensures a[|a| - 1] == b[|b| - 1]
  {
    var x, y := a[|a| - 1], b[|b| - 1];
    assert x in b && y in a;
    var i :| 0 <= i < |b| && b[i] == x;
    var j :| 0 <= j < |a| && a[j] == y;
    PrecedesIsStrict(x, y);
  }

  lemma FrontNames(a: seq<string>)
    requires Increasing(a) && a != []
    ensures Increasing(a[..|a| - 1])
    ensures forall x :: x in a[..|a| - 1] <==> x in a && x != a[|a| - 1]
  {
    var n := |a| - 1;
    assert a == a[..n] + [a[n]];
    forall i | 0 <= i < n ensures a[i] != a[n] {
      PrecedesIsStrict(a[i], a[n]);
    }
  }

  lemma HasNames(a: seq<string>, b: seq<string>)
    requires SameNames(a, b) && b != []
    ensures a != []
  {
    assert b[0] in b;
  }

  lemma {:induction false} OneIncreasingOrder(a: seq<string>, b: seq<string>)
    requires Increasing(a) && Increasing(b) && SameNames(a, b)
    ensures a == b
  {
    if b != [] {
      HasNames(a, b);
    }
    if a != [] {
      assert a[0] in b;
      SameGreatest(a, b);
      FrontNames(a);
      FrontNames(b);
      var frontA, frontB := a[..|a| - 1], b[..|b| - 1];
      forall x: string ensures x in frontA <==> x in frontB {
        assert x in a <==> x in b;
      }
      OneIncreasingOrder(frontA, frontB);
      assert a == a[..|a| - 1] + [a[|a| - 1]] && b == b[..|b| - 1] + [b[|b| - 1]];
    }
  }

  lemma DistinctNamesAre(labels: seq<Label>)
    requires DistinctNames(labels)
    ensures AllDistinct(NamesOf(labels))
  {
  }

  /** The key does not depend on the order in which the labels were written. */
  lemma KeyIgnoresOrder(a: seq<Label>, b: seq<Label>)
    requires DistinctNames(a) && DistinctNames(b) && ToRecord(a) == ToRecord(b)
    ensures SeriesKey(a) == SeriesKey(b)
  {
    var x, y := SortNames(NamesOf(a)), SortNames(NamesOf(b));
    forall name: string ensures name in x <==> name in y {
      SortHolds(NamesOf(a), name);
      SortHolds(NamesOf(b), name);
      RecordKeys(a, name);
      RecordKeys(b, name);
    }
    DistinctNamesAre(a);
    DistinctNamesAre(b);
    SortIncreases(NamesOf(a));
    SortIncreases(NamesOf(b));
    OneIncreasingOrder(x, y);
  }

  // ---------------------------------------------------------------------------------------------
  // Different label sets, different keys

  /** Values without a comma, as every bounded dimension has. */
  ghost predicate CommaFree(labels: seq<Label>) {
    forall i | 0 <= i < |labels| :: ',' !in labels[i].1
  }

  lemma {:induction false} RecordValue(labels: seq<Label>, name: string)
    requires name in ToRecord(labels)
    ensures (name, ToRecord(labels)[name]) in labels
  {
    var n := |labels| - 1;
    assert labels == labels[..n] + [labels[n]];
    if labels[n].0 != name {
      RecordValue(labels[..n], name);
    }
  }

  lemma AssignmentsAreFree(labels: seq<Label>)
    requires WellNamed(labels) && CommaFree(labels)
    ensures forall i | 0 <= i < |SortNames(NamesOf(labels))| :: SortNames(NamesOf(labels))[i] in ToRecord(labels)
    ensures FreeOf(Assignments(SortNames(NamesOf(labels)), ToRecord(labels)), ',')
    ensures forall i | 0 <= i < |SortNames(NamesOf(labels))| :: '=' !in SortNames(NamesOf(labels))[i]
  {
    var names, record := SortNames(NamesOf(labels)), ToRecord(labels);
    SortedNamesInRecord(labels);
    var parts := Assignments(names, record);
    forall i | 0 <= i < |names| ensures ',' !in parts[i] && '=' !in names[i] {
      RecordValue(labels, names[i]);
      var k :| 0 <= k < |labels| && labels[k] == (names[i], record[names[i]]);
    }
  }

  lemma KeyParts(labels: seq<Label>)
    requires WellNamed(labels) && CommaFree(labels) && labels != []
    ensures forall i | 0 <= i < |SortNames(NamesOf(labels))| :: SortNames(NamesOf(labels))[i] in ToRecord(labels)
    ensures SortNames(NamesOf(labels)) != [] && SeriesKey(labels) != []
    ensures Split(SeriesKey(labels), ',') == Assignments(SortNames(NamesOf(labels)), ToRecord(labels))
  {
    var names, record := SortNames(NamesOf(labels)), ToRecord(labels);
    AssignmentsAreFree(labels);
    SortHolds(NamesOf(labels), NamesOf(labels)[0]);
    SplitInvertsJoin(Assignments(names, record), ',');
    JoinHolds(Assignments(names, record), ",");
  }

  lemma {:induction false} JoinHolds(parts: seq<string>, separator: string)
    requires parts != [] && forall i | 0 <= i < |parts| :: parts[i] != []
    ensures Join(parts, separator) != []
  {
  }

  /** Comma-free label sets share a series if and only if they are the same record. */
  lemma KeyIsInjective(a: seq<Label>, b: seq<Label>)
    requires WellNamed(a) && WellNamed(b) && CommaFree(a) && CommaFree(b) && DistinctNames(a) && DistinctNames(b)
    ensures SeriesKey(a) == SeriesKey(b) <==> ToRecord(a) == ToRecord(b)
  {
    if ToRecord(a) == ToRecord(b) {
      KeyIgnoresOrder(a, b);
    }
    if SeriesKey(a) == SeriesKey(b) {
      if a == [] || b == [] {
        if a != [] { KeyParts(a); }
        if b != [] { KeyParts(b); }
      } else {
        SameAssignments(a, b);
      }
    }
  }

  lemma SplitsAtEquals(name: string, value: string, other: string, text: string)
    requires '=' !in name && '=' !in other && name + "=" + value == other + "=" + text
    ensures name == other && value == text
  {
    Text.BeforeFirst(name, '=', value);
    Text.BeforeFirst(other, '=', text);
    assert (name + "=" + value)[|name| + 1..] == value && (other + "=" + text)[|other| + 1..] == text;
  }

  ghost predicate Known(names: seq<string>, record: map<string, string>) {
    forall i | 0 <= i < |names| :: names[i] in record && '=' !in names[i]
  }

  /** Equal assignments are of equal names and values. */
  lemma SameParts(x: seq<string>, r: map<string, string>, y: seq<string>, s: map<string, string>)
    requires Known(x, r) && Known(y, s) && Assignments(x, r) == Assignments(y, s)
    ensures x == y && forall i | 0 <= i < |x| :: x[i] in s && r[x[i]] == s[x[i]]
  {
    var p := Assignments(x, r);
    assert |x| == |p| == |y|;
    forall i | 0 <= i < |x| ensures x[i] == y[i] && r[x[i]] == s[y[i]] {
      assert p[i] == x[i] + "=" + r[x[i]] == y[i] + "=" + s[y[i]];
      SplitsAtEquals(x[i], r[x[i]], y[i], s[y[i]]);
    }
  }

  lemma NamesAreKeys(labels: seq<Label>, name: string)
    ensures name in ToRecord(labels) <==> name in SortNames(NamesOf(labels))
  {
    SortHolds(NamesOf(labels), name);
    RecordKeys(labels, name);
  }

  lemma SameAssignments(a: seq<Label>, b: seq<Label>)
    requires WellNamed(a) && WellNamed(b) && CommaFree(a) && CommaFree(b) && a != [] && b != []
    requires SeriesKey(a) == SeriesKey(b)
    ensures ToRecord(a) == ToRecord(b)
  {
    KeyParts(a);
    KeyParts(b);
    AssignmentsAreFree(a);
    AssignmentsAreFree(b);
    var x, y, r, s := SortNames(NamesOf(a)), SortNames(NamesOf(b)), ToRecord(a), ToRecord(b);
    SameParts(x, r, y, s);
    forall name: string ensures (name in r <==> name in s) && (name in r ==> r[name] == s[name]) {
      NamesAreKeys(a, name);
      NamesAreKeys(b, name);
    }
  }

  lemma OneLabel(name: string, value: string)
    ensures ToRecord([(name, value)]) == map[name := value] && SeriesKey([(name, value)]) == name + "=" + value
  {
    var labels := [(name, value)];
    assert labels[..0] == [] && ToRecord(labels) == map[name := value];
    assert NamesOf(labels) == [name] && [name][..0] == [] && SortNames([name]) == [name];
    assert Assignments([name], map[name := value]) == [name + "=" + value];
  }

  lemma TwoLabels(first: Label, second: Label)
    requires first.0 != second.0 && !Precedes(second.0, first.0)
    ensures ToRecord([first, second]) == map[first.0 := first.1, second.0 := second.1]
    ensures SeriesKey([first, second]) == first.0 + "=" + first.1 + "," + second.0 + "=" + second.1
  {
    var labels, names, record := [first, second], [first.0, second.0], map[first.0 := first.1, second.0 := second.1];
    OneLabel(first.0, first.1);
    assert labels[..1] == [first] && ToRecord(labels) == record;
    assert NamesOf(labels) == names && names[..1] == [first.0] && [first.0][..0] == [];
    assert SortNames([first.0]) == [first.0];
    assert SortNames(names) == names;
    var one, two := first.0 + "=" + first.1, second.0 + "=" + second.1;
    assert Assignments(names, record) == [one, two];
    JoinOfTwo(one, two);
    assert one + "," + two == one + "," + second.0 + "=" + second.1;
  }

  /** With a comma in a value two label sets can share one series. */
  lemma CommaCollides()
    ensures SeriesKey([("a", "1,b=2")]) == SeriesKey([("a", "1"), ("b", "2")])
    ensures ToRecord([("a", "1,b=2")]) != ToRecord([("a", "1"), ("b", "2")])
  {
    OneLabel("a", "1,b=2");
    TwoLabels(("a", "1"), ("b", "2"));
    assert "a" + "=" + "1,b=2" == "a" + "=" + "1" + "," + "b" + "=" + "2";
  }

  lemma JoinOfTwo(a: string, b: string)
    ensures Join([a, b], ",") == a + "," + b
  {
    assert [a, b][..1] == [a];
  }

  // ---------------------------------------------------------------------------------------------
  // Accumulating

  /** A series under its key, with the labels it was first seen with. */
  datatype Entry = Entry(labels: seq<Label>, value: real)

  /** An insertion-ordered map. */
  datatype SeriesMap = SeriesMap(order: seq<string>, entries: map<string, Entry>)

  const EMPTY := SeriesMap([], map[])

  function Put(m: SeriesMap, key: string, e: Entry): SeriesMap {
    SeriesMap(if key in m.entries then m.order else m.order + [key], m.entries[key := e])
  }

  function Increased(m: SeriesMap, labels: seq<Label>, amount: real): SeriesMap {
    var key := SeriesKey(labels);
    Put(m, key, if key in m.entries then m.entries[key].(value := m.entries[key].value + amount) else Entry(labels, amount))
  }

  function Assigned(m: SeriesMap, labels: seq<Label>, value: real): SeriesMap {
    Put(m, SeriesKey(labels), Entry(labels, value))
  }

  class CounterMetric {
    var order: seq<string>
    var entries: map<string, Entry>

    constructor ()
      ensures Contents() == EMPTY
    {
      order, entries := [], map[];
    }

    function Contents(): SeriesMap
      reads this
    {
      SeriesMap(order, entries)
    }

    method Inc(labels: seq<Label>, amount: real)
      modifies this
      ensures Contents() == Increased(old(Contents()), labels, amount)
    {
      var key := SeriesKey(labels);
      if key !in entries {
        order := order + [key];
        entries := entries[key := Entry(labels, amount)];
      } else {
        var existing := entries[key];
        entries := entries[key := existing.(value := existing.value + amount)];
      }
    }
  }

  class GaugeMetric {
    var order: seq<string>
    var entries: map<string, Entry>

    constructor ()
      ensures Contents() == EMPTY
    {
      order, entries := [], map[];
    }

    function Contents(): SeriesMap
      reads this
    {
      SeriesMap(order, entries)
    }

    method Set(value: real, labels: seq<Label>)
      modifies this
      ensures Contents() == Assigned(old(Contents()), labels, value)
    {
      var key := SeriesKey(labels);
      if key !in entries {
        order := order + [key];
      }
      entries := entries[key := Entry(labels, value)];
    }
  }

  /** One increment. */
  datatype Increment = Increment(labels: seq<Label>, amount: real)

  function After(increments: seq<Increment>): SeriesMap {
    if increments == [] then EMPTY
    else
      var last := increments[|increments| - 1];
      Increased(After(increments[..|increments| - 1]), last.labels, last.amount)
  }

  /** What was added for one label set, whatever the order its labels were written in. */
  function TotalOf(increments: seq<Increment>, record: map<string, string>): real {
    if increments == [] then 0.0
    else
      var last := increments[|increments| - 1];
      TotalOf(increments[..|increments| - 1], record) + if ToRecord(last.labels) == record then last.amount else 0.0
  }

  predicate Seen(increments: seq<Increment>, record: map<string, string>) {
    exists i | 0 <= i < |increments| :: ToRecord(increments[i].labels) == record
  }

  ghost predicate SoundLabels(labels: seq<Label>) {
    WellNamed(labels) && CommaFree(labels) && DistinctNames(labels)
  }

  ghost predicate AllSound(increments: seq<Increment>) {
    forall i | 0 <= i < |increments| :: SoundLabels(increments[i].labels)
  }

  /** A series stands for its label set: present once it was counted, and holding its total. */
  ghost predicate Counts(m: SeriesMap, increments: seq<Increment>, labels: seq<Label>) {
    var key := SeriesKey(labels);
    && (key in m.entries <==> Seen(increments, ToRecord(labels)))
    && (key in m.entries ==> m.entries[key].value == TotalOf(increments, ToRecord(labels)))
    && (key in m.entries ==> ToRecord(m.entries[key].labels) == ToRecord(labels))
    && (key in m.order <==> key in m.entries)
  }

  lemma {:induction false} UnseenIsZero(increments: seq<Increment>, record: map<string, string>)
    requires !Seen(increments, record)
    ensures TotalOf(increments, record) == 0.0
  {
    if increments != [] {
      var front, last := increments[..|increments| - 1], increments[|increments| - 1];
      assert increments == front + [last];
      SeenGrows(front, last, record);
      UnseenIsZero(front, record);
    }
  }

  lemma SeenGrows(front: seq<Increment>, last: Increment, record: map<string, string>)
    ensures Seen(front + [last], record) <==> Seen(front, record) || ToRecord(last.labels) == record
  {
    var all := front + [last];
    if Seen(front, record) {
      var i :| 0 <= i < |front| && ToRecord(front[i].labels) == record;
      assert all[i] == front[i];
    }
    if ToRecord(last.labels) == record {
      assert all[|front|] == last;
    }
  }

  /** After any run of increments each series holds exactly the total of its label set. */
  lemma {:induction false} CounterIsTotal(increments: seq<Increment>, labels: seq<Label>)
    requires AllSound(increments) && SoundLabels(labels)
    ensures Counts(After(increments), increments, labels)
  {
    if increments != [] {
      var front, last := increments[..|increments| - 1], increments[|increments| - 1];
      assert increments == front + [last];
      CounterIsTotal(front, labels);
      SeenGrows(front, last, ToRecord(labels));
      KeyIsInjective(last.labels, labels);
      if !Seen(front, ToRecord(labels)) {
        UnseenIsZero(front, ToRecord(labels));
      }
    }
  }

  /** One assignment of a gauge. */
  datatype Assignment = Assignment(labels: seq<Label>, value: real)

  function AfterSets(sets: seq<Assignment>): SeriesMap {
    if sets == [] then EMPTY
    else
      var last := sets[|sets| - 1];
      Assigned(AfterSets(sets[..|sets| - 1]), last.labels, last.value)
  }

  function LatestOf(sets: seq<Assignment>, record: map<string, string>): Option<real> {
    if sets == [] then None
    else
      var last := sets[|sets| - 1];
      if ToRecord(last.labels) == record then Some(last.value) else LatestOf(sets[..|sets| - 1], record)
  }

  /** After any run of assignments each series holds the latest value of its label set. */
  lemma {:induction false} GaugeIsLatest(sets: seq<Assignment>, labels: seq<Label>)
    requires (forall i | 0 <= i < |sets| :: SoundLabels(sets[i].labels)) && SoundLabels(labels)
    ensures var m, key := AfterSets(sets), SeriesKey(labels);
            LatestOf(sets, ToRecord(labels)) == if key in m.entries then Some(m.entries[key].value) else None
  {
    if sets != [] {
      GaugeIsLatest(sets[..|sets| - 1], labels);
      KeyIsInjective(sets[|sets| - 1].labels, labels);
    }
  }
}
