/**
  Latency histograms: the key under which a sample is kept, read back by a parser, and the
  cumulative bucket counts over any run of observations.
 */
module Histogram {
  import opened Wrappers

  // Label entries in insertion order.
  type Labels = seq<(string, string)>

  predicate DistinctNames(labels: Labels) {
    forall i, j | 0 <= i < j < |labels| :: labels[i].0 != labels[j].0
  }

  // ---- The key -------------------------------------------------------------------------------

  /**
    String comparison, character by character: by code point, where JavaScript compares UTF-16 code
    units.  The two differ beyond U+FFFF only, and what is proved needs no more than a total order.
   */
  predicate Less(a: string, b: string) {
    b != "" && (a == "" || a[0] < b[0] || (a[0] == b[0] && Less(a[1..], b[1..])))
  }

  function Insert(e: (string, string), sorted: Labels): Labels {
    if sorted == [] || Less(e.0, sorted[0].0) then [e] + sorted
    else [sorted[0]] + Insert(e, sorted[1..])
  }

  function Sort(labels: Labels): Labels {
    if labels == [] then [] else Insert(labels[0], Sort(labels[1..]))
  }

  /** One global replacement of a character. */
  function ReplaceAll(s: string, c: char, sub: string): string {
    if s == "" then "" else (if s[0] == c then sub else [s[0]]) + ReplaceAll(s[1..], c, sub)
  }

  function Escape(v: string): string {
    ReplaceAll(ReplaceAll(ReplaceAll(v, '\\', "\\\\"), '\"', "\\\""), '\n', "\\n")
  }

  function Entry(e: (string, string)): string {
    e.0 + "=\"" + Escape(e.1) + "\""
  }

  function Join(labels: Labels): string {
    if labels == [] then ""
    else if |labels| == 1 then Entry(labels[0])
    else Entry(labels[0]) + "," + Join(labels[1..])
  }

  function HistogramKey(name: string, labels: Labels): string {
    name + "{" + Join(Sort(labels)) + "}"
  }

  // ---- Reading a key back --------------------------------------------------------------------

  function IndexOf(s: string, c: char): (i: nat)
    ensures i <= |s| && (i < |s| ==> s[i] == c) && c !in s[..i]
  {
    if s == "" || s[0] == c then 0 else IndexOf(s[1..], c) + 1
  }

  /** A quoted value up to its closing quote, and what follows. */
  function ReadValue(s: string): Option<(string, string)> {
    if s == "" then None
    else if s[0] == '\"' then Some(("", s[1..]))
    else if s[0] != '\\' then
      var rest := ReadValue(s[1..]);
      if rest.None? then None else Some(([s[0]] + rest.value.0, rest.value.1))
    else if |s| < 2 then None
    else
      var rest := ReadValue(s[2..]);
      if rest.None? then None
      else Some(([if s[1] == 'n' then '\n' else s[1]] + rest.value.0, rest.value.1))
  }

  function ReadLabels(s: string): Option<Labels>
    decreases |s|
  {
    if s == "}" then Some([])
    else
      var i := IndexOf(s, '=');
      if i + 1 >= |s| || s[i + 1] != '\"' then None
      else
        var v := ReadValue(s[i + 2..]);
        if v.None? then None
        else if v.value.1 == "}" then Some([(s[..i], v.value.0)])
        else if v.value.1 == "" || v.value.1[0] != ',' || |v.value.1| > |s| then None
        else
          var rest := ReadLabels(v.value.1[1..]);
          if rest.None? then None else Some([(s[..i], v.value.0)] + rest.value)
  }

  function ReadKey(s: string): Option<(string, Labels)> {
    var i := IndexOf(s, '{');
    if i == |s| then None
    else
      var labels := ReadLabels(s[i + 1..]);
      if labels.None? then None else Some((s[..i], labels.value))
  }

  // ---- Escaping ------------------------------------------------------------------------------

  /** What the three passes do to one character. */
  function EscapeChar(c: char): string {
    if c == '\\' then "\\\\" else if c == '\"' then "\\\"" else if c == '\n' then "\\n" else [c]
  }

  lemma {:induction false} ReplaceConcat(a: string, b: string, c: char, sub: string)
    ensures ReplaceAll(a + b, c, sub) == ReplaceAll(a, c, sub) + ReplaceAll(b, c, sub)
    decreases |a|
  {
    if a == "" {
      assert a + b == b;
    } else {
      assert (a + b)[1..] == a[1..] + b;
      ReplaceConcat(a[1..], b, c, sub);
    }
  }

  lemma ReplaceTwo(a: char, b: char, c: char, sub: string)
    ensures ReplaceAll([a, b], c, sub) == (if a == c then sub else [a]) + (if b == c then sub else [b])
  {
    assert [a, b][1..] == [b] && [b][1..] == "";
    assert ReplaceAll([b], c, sub) == (if b == c then sub else [b]) + "";
  }

  /** The passes do not see each other's output: no inserted backslash is escaped again. */
  lemma EscapeFirst(c: char, rest: string)
    ensures Escape([c] + rest) == EscapeChar(c) + Escape(rest)
  {
    hide ReplaceAll;
    var r1 := ReplaceAll(rest, '\\', "\\\\");
    var r2 := ReplaceAll(r1, '\"', "\\\"");
    var c1 := if c == '\\' then "\\\\" else [c];
    var c2 := if c == '\"' then "\\\"" else c1;
    ReplaceConcat([c], rest, '\\', "\\\\");
    ReplaceConcat(c1, r1, '\"', "\\\"");
    ReplaceConcat(c2, r2, '\n', "\\n");
    ReplaceOne(c, '\\', "\\\\");
    ReplaceOne(c, '\"', "\\\"");
    ReplaceOne(c, '\n', "\\n");
    ReplaceTwo('\\', '\\', '\"', "\\\"");
    ReplaceTwo('\\', '\\', '\n', "\\n");
    ReplaceTwo('\\', '\"', '\n', "\\n");
    assert ReplaceAll([c] + rest, '\\', "\\\\") == c1 + r1;
    assert ReplaceAll(c1 + r1, '\"', "\\\"") == c2 + r2;
    assert ReplaceAll(c2, '\n', "\\n") == EscapeChar(c);
  }

  lemma ReplaceOne(c: char, d: char, sub: string)
    ensures ReplaceAll([c], d, sub) == if c == d then sub else [c]
  {
  }

  /** A value in quotes is read back whole, whatever it contains and whatever follows. */
  lemma {:induction false} ValueReadBack(v: string, rest: string)
    ensures ReadValue(Escape(v) + "\"" + rest) == Some((v, rest))
    decreases |v|
  {
    if v == "" {
      assert Escape(v) + "\"" + rest == "\"" + rest;
    } else {
      assert v == [v[0]] + v[1..];
      EscapeFirst(v[0], v[1..]);
      ValueReadBack(v[1..], rest);
      var tail := Escape(v[1..]) + "\"" + rest;
      assert Escape(v) + "\"" + rest == EscapeChar(v[0]) + tail;
      ReadEscaped(v[0], tail);
    }
  }

  lemma ReadEscaped(c: char, tail: string)
    requires ReadValue(tail).Some?
    ensures ReadValue(EscapeChar(c) + tail) == Some(([c] + ReadValue(tail).value.0, ReadValue(tail).value.1))
  {
  }

  // ---- The whole key -------------------------------------------------------------------------

  predicate Plain(labels: Labels) {
    forall e <- labels :: '=' !in e.0
  }

  lemma {:induction false} FirstIndex(a: string, c: char, b: string)
    requires c !in a
    ensures IndexOf(a + [c] + b, c) == |a|
    decreases |a|
  {
    if a == "" {
      assert a + [c] + b == [c] + b;
    } else {
      assert a[0] in a && (a + [c] + b)[1..] == a[1..] + [c] + b;
      FirstIndex(a[1..], c, b);
    }
  }

  lemma LabelAhead(k: string, v: string, tail: string)
    requires '=' !in k
    ensures var s := Entry((k, v)) + tail;
      && |s| >= |k| + 2 && IndexOf(s, '=') == |k| && s[..|k|] == k && s[|k| + 1] == '\"'
      && ReadValue(s[|k| + 2..]) == Some((v, tail))
  {
    var s := Entry((k, v)) + tail;
    var quoted := Escape(v) + "\"" + tail;
    assert s == k + ['='] + ("\"" + quoted);
    FirstIndex(k, '=', "\"" + quoted);
    ValueReadBack(v, tail);
    assert s[|k| + 2..] == quoted;
  }

  lemma ReadOneLabel(k: string, v: string, tail: string)
    requires '=' !in k
    ensures tail == "}" ==> ReadLabels(Entry((k, v)) + tail) == Some([(k, v)])
    ensures tail != "" && tail[0] == ',' && ReadLabels(tail[1..]).Some? ==>
      ReadLabels(Entry((k, v)) + tail) == Some([(k, v)] + ReadLabels(tail[1..]).value)
  {
    hide IndexOf, ReadValue, Entry;
    LabelAhead(k, v, tail);
    EntryLength(k, v);
  }

  lemma EntryLength(k: string, v: string)
    ensures |Entry((k, v))| >= 2
  {
  }

  lemma {:induction false} LabelsReadBack(labels: Labels)
    requires Plain(labels)
    ensures ReadLabels(Join(labels) + "}") == Some(labels)
    decreases |labels|
  {
    hide Entry;
    if labels == [] {
      assert Join(labels) + "}" == "}";
    } else {
      var k, v := labels[0].0, labels[0].1;
      assert labels[0] in labels;
      var tail := if |labels| == 1 then "}" else "," + (Join(labels[1..]) + "}");
      assert Join(labels) + "}" == Entry((k, v)) + tail;
      LabelsReadBack(labels[1..]);
      assert |labels| > 1 ==> tail[1..] == Join(labels[1..]) + "}";
      hide ReadLabels, Join;
      ReadOneLabel(k, v, tail);
      assert labels == [(k, v)] + labels[1..];
      if |labels| == 1 {
        assert labels == [(k, v)];
      } else {
        assert tail[0] == ',' && ReadLabels(tail[1..]) == Some(labels[1..]);
      }
    }
  }

  /** A key can be read back into its name and its sorted labels. */
  lemma KeyReadBack(name: string, labels: Labels)
    requires '{' !in name && Plain(labels)
    ensures ReadKey(HistogramKey(name, labels)) == Some((name, Sort(labels)))
  {
    var rest := Join(Sort(labels)) + "}";
    var s := HistogramKey(name, labels);
    assert s == name + ['{'] + rest;
    FirstIndex(name, '{', rest);
    assert s[|name| + 1..] == rest && s[..|name|] == name;
    SortKeeps(labels);
    LabelsReadBack(Sort(labels));
  }

  // ---- Sorting -------------------------------------------------------------------------------

  lemma {:induction false} LessTransitive(a: string, b: string, c: string)
    requires Less(a, b) && Less(b, c)
    ensures Less(a, c)
  {
    if a != "" && a[0] == b[0] && b[0] == c[0] {
      LessTransitive(a[1..], b[1..], c[1..]);
    }
  }

  lemma {:induction false} LessTotal(a: string, b: string)
    ensures Less(a, b) || a == b || Less(b, a)
    ensures !(Less(a, b) && Less(b, a)) && !Less(a, a)
  {
    if a != "" {
      LessTotal(a[1..], a[1..]);
    }
    if a != "" && b != "" && a[0] == b[0] {
      LessTotal(a[1..], b[1..]);
      assert a == [a[0]] + a[1..] && b == [b[0]] + b[1..];
    }
  }

  predicate Sorted(labels: Labels) {
    forall i, j | 0 <= i < j < |labels| :: Less(labels[i].0, labels[j].0)
  }

  lemma {:induction false} InsertKeeps(e: (string, string), sorted: Labels)
    ensures forall x :: x in Insert(e, sorted) <==> x == e || x in sorted
    ensures Sorted(sorted) && (forall x <- sorted :: x.0 != e.0) ==> Sorted(Insert(e, sorted))
  {
    if sorted != [] {
      InsertKeeps(e, sorted[1..]);
      var head := sorted[0];
      assert sorted == [head] + sorted[1..];
      LessTotal(e.0, head.0);
      if Sorted(sorted) && (forall x <- sorted :: x.0 != e.0) {
        assert head in sorted;
        if Less(e.0, head.0) {
          forall x | x in sorted[1..] ensures Less(e.0, x.0) {
            LessTransitive(e.0, head.0, x.0);
          }
        } else {
          var rest := Insert(e, sorted[1..]);
          forall i | 0 <= i < |rest| ensures Less(head.0, rest[i].0) {
            assert rest[i] in rest;
          }
        }
      }
    }
  }

  lemma {:induction false} SortKeeps(labels: Labels)
    ensures forall x :: x in Sort(labels) <==> x in labels
    ensures DistinctNames(labels) ==> Sorted(Sort(labels))
  {
    if labels != [] {
      SortKeeps(labels[1..]);
      InsertKeeps(labels[0], Sort(labels[1..]));
      assert labels == [labels[0]] + labels[1..];
      if DistinctNames(labels) {
        forall x | x in labels[1..] ensures x.0 != labels[0].0 {
          var i :| 0 <= i < |labels[1..]| && labels[1..][i] == x;
          assert labels[i + 1] == x;
        }
      }
    }
  }

  predicate SameEntries(a: Labels, b: Labels) {
    (forall e <- a :: e in b) && (forall e <- b :: e in a)
  }

  lemma {:induction false} SortedUnique(a: Labels, b: Labels)
    requires Sorted(a) && Sorted(b) && SameEntries(a, b)
    ensures a == b
    decreases |a|
  {
    assert |a| > 0 ==> a[0] in b;
    assert |b| > 0 ==> b[0] in a;
    if a != [] {
      HeadsAgree(a, b);
      forall e | e in a[1..] ensures e in b[1..] { TailEntry(a, b, e); }
      forall e | e in b[1..] ensures e in a[1..] { TailEntry(b, a, e); }
      SortedUnique(a[1..], b[1..]);
      assert a == [a[0]] + a[1..] && b == [b[0]] + b[1..];
    }
  }

  lemma HeadsAgree(a: Labels, b: Labels)
    requires a != [] && b != [] && Sorted(a) && Sorted(b) && SameEntries(a, b)
    ensures a[0] == b[0]
  {
    assert a[0] in a && b[0] in b;
    var i :| 0 <= i < |b| && b[i] == a[0];
    var j :| 0 <= j < |a| && a[j] == b[0];
    LessTotal(a[0].0, b[0].0);
  }

  lemma TailEntry(a: Labels, b: Labels, e: (string, string))
    requires a != [] && b != [] && a[0] == b[0] && Sorted(a) && SameEntries(a, b) && e in a[1..]
    ensures e in b[1..]
  {
    var i :| 0 <= i < |a[1..]| && a[1..][i] == e;
    assert a[i + 1] == e && e in a && Less(a[0].0, e.0);
    LessTotal(e.0, e.0);
    var j :| 0 <= j < |b| && b[j] == e;
    assert j > 0 && b[1..][j - 1] == e;
  }

  /**
    Two samples share a key exactly when their names agree and their labels are the same map,
    whatever the insertion orders.
   */
  lemma KeysAgreeIff(name1: string, labels1: Labels, name2: string, labels2: Labels)
    requires '{' !in name1 && '{' !in name2 && Plain(labels1) && Plain(labels2)
    requires DistinctNames(labels1) && DistinctNames(labels2)
    ensures HistogramKey(name1, labels1) == HistogramKey(name2, labels2)
       <==> name1 == name2 && SameEntries(labels1, labels2)
  {
    hide HistogramKey, ReadKey, Sort;
    SortKeeps(labels1);
    SortKeeps(labels2);
    KeyReadBack(name1, labels1);
    KeyReadBack(name2, labels2);
    if name1 == name2 && SameEntries(labels1, labels2) {
      SortedUnique(Sort(labels1), Sort(labels2));
      SortedKey(name1, labels1, labels2);
    }
  }

  lemma SortedKey(name: string, labels1: Labels, labels2: Labels)
    requires Sort(labels1) == Sort(labels2)
    ensures HistogramKey(name, labels1) == HistogramKey(name, labels2)
  {
  }

  lemma KeyOfOne(name: string, k: string)
    ensures HistogramKey(name, [(k, "2")]) == name + "{" + k + "=\"2\"}"
  {
    EscapeFirst('2', "");
    assert ['2'] + "" == "2";
    hide Escape;
    var labels := [(k, "2")];
    SortOne(k);
    assert Join(labels) == Entry(labels[0]);
  }

  lemma SortOne(k: string)
    ensures Sort([(k, "2")]) == [(k, "2")]
  {
  }

  lemma KeyOfTwo(name: string, k1: string, k2: string)
    requires Less(k1, k2)
    ensures HistogramKey(name, [(k1, "1"), (k2, "2")]) == name + "{" + k1 + "=\"1\"," + k2 + "=\"2\"}"
  {
    EscapeFirst('1', "");
    EscapeFirst('2', "");
    assert ['1'] + "" == "1" && ['2'] + "" == "2";
    hide Escape;
    var labels := [(k1, "1"), (k2, "2")];
    assert labels[1..] == [(k2, "2")] && labels[1..][1..] == [];
    SortOne(k2);
    assert Sort(labels) == Insert(labels[0], labels[1..]);
    assert Join(labels) == Entry(labels[0]) + "," + Entry(labels[1]);
  }

  /** Neither restriction can be dropped: a brace in a name, or an equals sign in a label, lets keys collide. */
  lemma DelimitersCollide()
    ensures HistogramKey("m{a=\"1\",b", [("c", "2")]) == HistogramKey("m", [("a", "1"), ("b{c", "2")])
    ensures HistogramKey("m", [("a=\"1\",b", "2")]) == HistogramKey("m", [("a", "1"), ("b", "2")])
  {
    hide HistogramKey;
    KeyOfOne("m{a=\"1\",b", "c");
    KeyOfTwo("m", "a", "b{c");
    KeyOfOne("m", "a=\"1\",b");
    KeyOfTwo("m", "a", "b");
  }
}
