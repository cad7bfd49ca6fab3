/**
  Printing a filter group and reading it back.  The two undo each other exactly when no pattern
  holds a double quote or a control character (other than tab), which the printer does not escape.
*/
module TomlRoundTrip {
  import opened Prelude
  import opened TgMessage
  import opened Filters
  import opened FilterToml

  /** No double quote, and no control character but tab. */
  predicate Clean(ptn: string) {
    forall i | 0 <= i < |ptn| :: ptn[i] != '"' && (ptn[i] == '\t' || ' ' <= ptn[i] < '\U{7f}' || '\U{7f}' < ptn[i])
  }

  predicate CleanRule(ptns: seq<string>) { forall i | 0 <= i < |ptns| :: Clean(ptns[i]) }
  predicate CleanFilter(f: Filter) { forall k | 0 <= k < 6 :: CleanRule(Rule(f, ORDER[k])) }
  predicate CleanGroup(fs: seq<Filter>) { forall i | 0 <= i < |fs| :: CleanFilter(fs[i]) }

  // ---- strings ----

  lemma CleanSplit(p: string)
    requires p != ""
    ensures Clean(p) <==> p[0] != '"' && !Control(p[0]) && Clean(p[1..])
  {
    assert forall i | 1 <= i < |p| :: p[i] == p[1..][i - 1];
  }

  lemma ReadOneChar(c: char, u: string)
    ensures c == '\\' ==> ReadChars("\\\\" + u) == match ReadChars(u) case None => None case Some((s, v)) => Some(([c] + s, v))
    ensures c != '\\' && c != '"' && !Control(c) ==>
      ReadChars([c] + u) == match ReadChars(u) case None => None case Some((s, v)) => Some(([c] + s, v))
    ensures Control(c) ==> ReadChars([c] + u) == None
    ensures c == '"' ==> ReadChars([c] + u) == Some(("", u))
  {
    assert ("\\\\" + u)[2..] == u;
    assert ([c] + u)[1..] == u;
  }

  lemma EscapeSplit(p: string, x: string)
    requires p != ""
    ensures Escape(p) + x == (if p[0] == '\\' then "\\\\" else [p[0]]) + (Escape(p[1..]) + x)
  {}

  /** A quoted pattern reads back as itself exactly when it is clean. */
  lemma {:induction false} ReadEscaped(p: string, rest: string)
    ensures var r := ReadChars(Escape(p) + ("\"" + rest));
      if Clean(p) then r == Some((p, rest)) else r.None? || r.value.0 != p
  {
    if p == "" {
      assert Escape(p) + ("\"" + rest) == "\"" + rest;
      assert ("\"" + rest)[1..] == rest;
    } else {
      hide ReadChars, Clean, Control, Escape;
      ReadEscaped(p[1..], rest);
      CleanSplit(p);
      var u := Escape(p[1..]) + ("\"" + rest);
      ReadOneChar(p[0], u);
      EscapeSplit(p, "\"" + rest);
      assert p == [p[0]] + p[1..];
    }
  }

  // ---- arrays ----

  lemma ReadValuesSpace(t: string)
    ensures ReadValues(" " + t) == ReadValues(t)
  {
    assert (" " + t)[1..] == t;
    assert SkipSpace(" " + t) == SkipSpace(t);
  }

  /** What the reader makes of one printed value, followed by a comma or the closing bracket. */
  lemma ReadFirstValue(p: string, rest: string)
    requires rest != "" && (rest[0] == ',' || rest[0] == ']')
    ensures var t := Quoted(p) + rest;
      && t[0] == '"' && SkipSpace(t) == t && t[1..] == Escape(p) + ("\"" + rest)
      && (Clean(p) ==> !("\"\"\"" <= t))
  {
    var t := Quoted(p) + rest;
    assert t == "\"" + (Escape(p) + ("\"" + rest));
    if Clean(p) && p != "" {
      assert Escape(p)[0] == p[0];
      assert t[1] == p[0] != '"';
    } else if p == "" {
      assert t == "\"\"" + rest;
      assert t[2] == rest[0];
    }
  }

  lemma ReadOneMore(p: string, u: string)
    ensures var r := ReadValues(Quoted(p) + (", " + u));
      if Clean(p) then
        match ReadValues(u)
        case None => r == None
        case Some((ss, v)) => r == Some(([p] + ss, v))
      else r.None? || (r.value.0 != [] && r.value.0[0] != p)
  {
    var tail := ", " + u;
    ReadFirstValue(p, tail);
    ReadEscaped(p, tail);
    assert tail[1..] == " " + u;
    ReadValuesSpace(u);
  }

  lemma ReadLast(p: string, rest: string)
    ensures var r := ReadValues(Quoted(p) + ("]" + rest));
      if Clean(p) then r == Some(([p], rest)) else r.None? || (r.value.0 != [] && r.value.0[0] != p)
  {
    ReadFirstValue(p, "]" + rest);
    ReadEscaped(p, "]" + rest);
    assert ("]" + rest)[1..] == rest;
  }

  lemma CleanRuleSplit(ps: seq<string>)
    requires ps != []
    ensures CleanRule(ps) <==> Clean(ps[0]) && CleanRule(ps[1..])
  {
    assert forall i | 1 <= i < |ps| :: ps[i] == ps[1..][i - 1];
  }

  lemma Regroup(a: string, b: string, c: string, d: string)
    ensures (a + b + c) + d == a + (b + (c + d))
  {}

  lemma PrintValuesSplit(ps: seq<string>, x: string)
    ensures ps == [] ==> PrintValues(ps) + x == x
    ensures |ps| == 1 ==> PrintValues(ps) + x == Quoted(ps[0]) + x
    ensures |ps| > 1 ==> PrintValues(ps) + x == Quoted(ps[0]) + (", " + (PrintValues(ps[1..]) + x))
  {
    hide Quoted;
    if |ps| > 1 { Regroup(Quoted(ps[0]), ", ", PrintValues(ps[1..]), x); }
  }

  lemma ReadNoValues(rest: string)
    ensures ReadValues("]" + rest) == Some(([], rest))
    ensures CleanRule([])
  {
    assert ("]" + rest)[1..] == rest;
  }

  lemma {:induction false} ReadPrintedValues(ps: seq<string>, rest: string)
    ensures var r := ReadValues(PrintValues(ps) + ("]" + rest));
      if CleanRule(ps) then r == Some((ps, rest)) else r.None? || r.value.0 != ps
    decreases |ps|
  {
    hide *;
    PrintValuesSplit(ps, "]" + rest);
    ReadNoValues(rest);
    if ps != [] {
      CleanRuleSplit(ps);
      assert ps == [ps[0]] + ps[1..];
      if |ps| == 1 {
        ReadLast(ps[0], rest);
        assert ps[1..] == [] && ps == [ps[0]];
      } else {
        ReadOneMore(ps[0], PrintValues(ps[1..]) + ("]" + rest));
        ReadPrintedValues(ps[1..], rest);
      }
    }
  }

  // ---- lines ----

  lemma KeyOfChars(p: Property)
    ensures forall i | 0 <= i < |KeyOf(p)| :: IsKeyChar(KeyOf(p)[i])
    ensures |KeyOf(p)| == match p
      case Titles => 6 case NoTitles => 9 case Senders => 7 case NoSenders => 10 case Keywords => 8 case NoKeywords => 11
  {
    match p
    case Titles =>
    case NoTitles =>
    case Senders =>
    case NoSenders =>
    case Keywords =>
    case NoKeywords =>
  }

  lemma {:induction false} KeyLengthOf(key: string, u: string)
    requires forall i | 0 <= i < |key| :: IsKeyChar(key[i])
    requires u != "" && !IsKeyChar(u[0])
    ensures KeyLength(key + u) == |key|
  {
    if key == "" {
      assert key + u == u;
    } else {
      assert (key + u)[1..] == key[1..] + u;
      KeyLengthOf(key[1..], u);
    }
  }

  lemma KeyAndRest(p: Property, w: string)
    ensures var t := KeyOf(p) + (" = [" + w); var n := KeyLength(t);
      0 < n && t[..n] == KeyOf(p) && t[n..] == " = [" + w
  {
    KeyOfChars(p);
    KeyLengthOf(KeyOf(p), " = [" + w);
  }

  lemma EolHere(rest: string)
    ensures ReadEol("\n" + rest) == Some(rest)
  {
    assert ("\n" + rest)[1..] == rest;
  }

  /** A printed rule reads back as itself exactly when its values are clean. */
  lemma ReadPrintedRule(p: Property, ps: seq<string>, rest: string)
    ensures var r := ReadRule(PrintRule(KeyOf(p), ps) + rest);
      if CleanRule(ps) then r == Some((KeyOf(p), ps, rest)) else r.None? || (r.value.0 == KeyOf(p) && r.value.1 != ps)
  {
    hide *;
    var key := KeyOf(p);
    var w := PrintValues(ps) + ("]" + ("\n" + rest));
    var t := PrintRule(key, ps) + rest;
    assert t == key + (" = [" + w) by { PrintRuleIs(key, ps, rest); }
    KeyAndRest(p, w);
    ReadEquals(w);
    ReadRuleIs(t, w);
    ReadPrintedValues(ps, "\n" + rest);
    EolHere(rest);
  }

  lemma PrintRuleIs(key: string, ps: seq<string>, rest: string)
    ensures PrintRule(key, ps) + rest == key + (" = [" + (PrintValues(ps) + ("]" + ("\n" + rest))))
  {
    hide PrintValues;
  }

  /** A line whose key is followed by " = [" is its key and the values behind the bracket. */
  lemma ReadRuleIs(t: string, w: string)
    requires 0 < KeyLength(t) && t[KeyLength(t)..] == " = [" + w
    ensures ReadRule(t) == match ReadValues(w)
      case None => None
      case Some((ss, x)) =>
        match ReadEol(x)
        case None => None
        case Some(y) => Some((t[..KeyLength(t)], ss, y))
  {
    hide KeyLength, ReadValues, ReadEol, SkipBlanks;
    ReadEquals(w);
  }

  lemma ReadEquals(w: string)
    ensures SkipBlanks(" = [" + w) == "= [" + w
    ensures SkipBlanks(("= [" + w)[1..]) == "[" + w
    ensures ("[" + w)[1..] == w
  {
    assert (" = [" + w)[1..] == "= [" + w;
    assert ("= [" + w)[1..] == " [" + w;
    assert (" [" + w)[1..] == "[" + w;
  }

  // ---- tables ----

  /** The table read so far when the first k rules of f have been read. */
  function TableUpTo(f: Filter, k: nat): Table
    requires k <= 6
  {
    if k == 0 then map[] else TableUpTo(f, k - 1)[KeyOf(ORDER[k - 1]) := Rule(f, ORDER[k - 1])]
  }

  lemma {:induction false} TableKeys(f: Filter, k: nat)
    requires k <= 6
    ensures forall j | 0 <= j < 6 :: KeyOf(ORDER[j]) in TableUpTo(f, k) <==> j < k
    ensures forall j | 0 <= j < k :: TableUpTo(f, k)[KeyOf(ORDER[j])] == Rule(f, ORDER[j])
  {
    if k > 0 {
      TableKeys(f, k - 1);
      forall j | 0 <= j < 6
        ensures KeyOf(ORDER[j]) == KeyOf(ORDER[k - 1]) <==> j == k - 1
      {
        KeyOfChars(ORDER[j]);
        KeyOfChars(ORDER[k - 1]);
      }
    }
  }

  lemma FullTable(f: Filter)
    ensures ToFilter(TableUpTo(f, 6)) == f
  {
    TableKeys(f, 6);
    assert ORDER[0] == Titles && ORDER[1] == NoTitles && ORDER[2] == Senders && ORDER[3] == NoSenders
      && ORDER[4] == Keywords && ORDER[5] == NoKeywords;
  }

  lemma KeyStartsLine(p: Property, ps: seq<string>, rest: string)
    ensures var t := PrintRule(KeyOf(p), ps) + rest;
      SkipSpace(t) == t && t != "" && !(HEADER <= t)
  {
    KeyOfChars(p);
    var t := PrintRule(KeyOf(p), ps) + rest;
    assert t[0] == KeyOf(p)[0] && IsKeyChar(t[0]);
    assert HEADER[0] == '[';
  }

  /** Later lines only add keys to the open table, and tables behind it. */
  lemma {:induction false} ReadingKeeps(t: string, acc: seq<Table>, r: seq<Table>)
    requires acc != [] && ReadTables(t, acc) == Some(r)
    ensures var n := |acc| - 1;
      |r| > n && r[..n] == acc[..n] && forall key | key in acc[n] :: key in r[n] && r[n][key] == acc[n][key]
    decreases |t|
  {
    var n := |acc| - 1;
    var t := SkipSpace(t);
    if t == "" {
    } else if HEADER <= t {
      var u := ReadEol(t[|HEADER|..]).value;
      ReadingKeeps(u, acc + [map[]], r);
      assert r[..n + 1] == acc;
      assert r[..n] == r[..n + 1][..n];
      assert r[n] == r[..n + 1][n];
    } else {
      var (key, ss, u) := ReadRule(t).value;
      ReadingKeeps(u, acc[n := acc[n][key := ss]], r);
    }
  }

  lemma TableNext(f: Filter, k: nat)
    requires k < 6
    ensures TableUpTo(f, k + 1) == TableUpTo(f, k)[KeyOf(ORDER[k]) := Rule(f, ORDER[k])]
  {}

  /** Reading the k-th printed rule of f, with the first k - 1 in the open table. */
  lemma ReadOneRule(f: Filter, k: nat, rest: string, acc: seq<Table>)
    requires k < 6 && acc != [] && acc[|acc| - 1] == TableUpTo(f, k)
    ensures var n := |acc| - 1; var key := KeyOf(ORDER[k]); var ps := Rule(f, ORDER[k]);
      var r := ReadTables(PrintRule(key, ps) + rest, acc);
      if CleanRule(ps) then r == ReadTables(rest, acc[n := TableUpTo(f, k + 1)])
      else r.None? || (|r.value| > n && r.value[..n] == acc[..n] && key in r.value[n] && r.value[n][key] != ps)
  {
    hide KeyOf, PrintRule, CleanRule, ReadRule, TableUpTo;
    var key, ps := KeyOf(ORDER[k]), Rule(f, ORDER[k]);
    assert TableUpTo(f, k + 1) == TableUpTo(f, k)[key := ps] by { TableNext(f, k); }
    KeyStartsLine(ORDER[k], ps, rest);
    ReadPrintedRule(ORDER[k], ps, rest);
    TableKeys(f, k);
    var read := ReadRule(PrintRule(key, ps) + rest);
    if !CleanRule(ps) && read.Some? {
      var r := ReadTables(PrintRule(key, ps) + rest, acc);
      if r.Some? {
        ReadingKeeps(read.value.2, acc[|acc| - 1 := TableUpTo(f, k)[key := read.value.1]], r.value);
      }
    }
  }


  predicate CleanFrom(f: Filter, k: nat) { forall j | k <= j < 6 :: CleanRule(Rule(f, ORDER[j])) }

  /** The n-th table read is not the one that was printed. */
  predicate Spoilt(r: Option<seq<Table>>, acc: seq<Table>, f: Filter) {
    r.None? || (|r.value| > |acc| && r.value[..|acc|] == acc && ToFilter(r.value[|acc|]) != f)
  }

  lemma OtherRuleOtherFilter(f: Filter, t: Table, k: nat)
    requires k < 6 && KeyOf(ORDER[k]) in t && t[KeyOf(ORDER[k])] != Rule(f, ORDER[k])
    ensures ToFilter(t) != f
  {
    assert Rule(ToFilter(t), ORDER[k]) == Get(t, ORDER[k]);
  }

  /** A rule that is not clean spoils its table, whatever follows. */
  lemma SpoiltRule(f: Filter, k: nat, rest: string, acc: seq<Table>)
    requires k < 6 && !CleanRule(Rule(f, ORDER[k]))
    ensures Spoilt(ReadTables(PrintRule(KeyOf(ORDER[k]), Rule(f, ORDER[k])) + rest, acc + [TableUpTo(f, k)]), acc, f)
  {
    hide ReadTables, ReadRule, PrintRule, CleanRule, ToFilter;
    var open := acc + [TableUpTo(f, k)];
    ReadOneRule(f, k, rest, open);
    assert open[..|acc|] == acc;
    var r := ReadTables(PrintRule(KeyOf(ORDER[k]), Rule(f, ORDER[k])) + rest, open);
    if r.Some? { OtherRuleOtherFilter(f, r.value[|acc|], k); }
  }

  lemma {:induction false} ReadRules(f: Filter, k: nat, rest: string, acc: seq<Table>)
    requires k <= 6
    ensures var r := ReadTables(PrintRules(f, k) + rest, acc + [TableUpTo(f, k)]);
      if CleanFrom(f, k) then r == ReadTables(rest, acc + [TableUpTo(f, 6)]) else Spoilt(r, acc, f)
    decreases 6 - k
  {
    hide ReadTables, ReadRule, PrintRule, CleanRule, ToFilter, Spoilt, KeyOf;
    var open := acc + [TableUpTo(f, k)];
    if k == 6 {
      assert PrintRules(f, k) + rest == rest;
    } else {
      var rule := PrintRule(KeyOf(ORDER[k]), Rule(f, ORDER[k]));
      var more := PrintRules(f, k + 1) + rest;
      assert PrintRules(f, k) + rest == rule + more;
      assert CleanFrom(f, k) <==> CleanRule(Rule(f, ORDER[k])) && CleanFrom(f, k + 1);
      if CleanRule(Rule(f, ORDER[k])) {
        ReadOneRule(f, k, more, open);
        assert open[|acc| := TableUpTo(f, k + 1)] == acc + [TableUpTo(f, k + 1)];
        ReadRules(f, k + 1, rest, acc);
      } else {
        SpoiltRule(f, k, more, acc);
      }
    }
  }

  lemma ReadPrintedFilter(f: Filter, rest: string, acc: seq<Table>)
    ensures var r := ReadTables(PrintFilter(f) + rest, acc);
      if CleanFilter(f) then r == ReadTables(rest, acc + [TableUpTo(f, 6)]) else Spoilt(r, acc, f)
  {
    hide ReadTables, ReadRule, PrintRules, CleanRule, Spoilt;
    var body := PrintRules(f, 0) + rest;
    ReadHeader(body, acc);
    assert PrintFilter(f) + rest == "\n" + (HEADER + ("\n" + body));
    ReadRules(f, 0, rest, acc);
  }

  lemma ReadHeader(body: string, acc: seq<Table>)
    ensures ReadTables("\n" + (HEADER + ("\n" + body)), acc) == ReadTables(body, acc + [map[]])
  {
    var t := HEADER + ("\n" + body);
    assert ("\n" + t)[1..] == t;
    assert t[0] == '[';
    assert SkipSpace("\n" + t) == t;
    assert t[|HEADER|..] == "\n" + body;
    assert ("\n" + body)[1..] == body;
  }

  lemma CleanGroupSplit(fs: seq<Filter>)
    requires fs != []
    ensures CleanGroup(fs) <==> CleanFilter(fs[0]) && CleanGroup(fs[1..])
  {
    assert forall i | 1 <= i < |fs| :: fs[i] == fs[1..][i - 1];
  }

  lemma NoMoreTables(acc: seq<Table>)
    ensures ReadTables("", acc) == Some(acc) && CleanGroup([])
  {}

  lemma SpoiltGroup(r: Option<seq<Table>>, acc: seq<Table>, fs: seq<Filter>)
    requires fs != [] && Spoilt(r, acc, fs[0])
    ensures r.None? || ToFilters(r.value) != ToFilters(acc) + fs
  {
    hide ToFilter;
    if r.Some? {
      assert ToFilters(r.value)[|acc|] == ToFilter(r.value[|acc|]) != fs[0];
      assert (ToFilters(acc) + fs)[|acc|] == fs[0];
    }
  }

  lemma {:induction false} ReadPrintedGroup(fs: seq<Filter>, acc: seq<Table>)
    ensures var r := ReadTables(Print(fs), acc);
      if CleanGroup(fs) then r.Some? && ToFilters(r.value) == ToFilters(acc) + fs
      else r.None? || ToFilters(r.value) != ToFilters(acc) + fs
    decreases |fs|
  {
    hide PrintFilter, CleanFilter, ToFilter, TableUpTo, ReadTables, Spoilt, CleanGroup;
    if fs == [] {
      NoMoreTables(acc);
    } else {
      CleanGroupSplit(fs);
      ReadPrintedFilter(fs[0], Print(fs[1..]), acc);
      if CleanFilter(fs[0]) {
        var next := acc + [TableUpTo(fs[0], 6)];
        ReadPrintedGroup(fs[1..], next);
        FullTable(fs[0]);
        assert ToFilters(next) == ToFilters(acc) + [fs[0]];
        assert ToFilters(acc) + fs == ToFilters(next) + fs[1..];
      } else {
        SpoiltGroup(ReadTables(Print(fs), acc), acc, fs);
      }
    }
  }

  lemma EmptyIsClean()
    ensures CleanGroup([EMPTY])
  {
    assert CleanFilter(EMPTY);
  }

  // ---- the main results ----

  /** Reading the printed form gives the group back exactly when every pattern is clean. */
  lemma PrintReadsBack(fs: seq<Filter>)
    requires fs != []
    ensures Load(Print(fs)) == fs <==> CleanGroup(fs)
  {
    hide ReadTables, CleanGroup, CleanFilter, Print;
    ReadPrintedGroup(fs, []);
    assert ToFilters([]) + fs == fs;
    EmptyIsClean();
  }

  /** Printing what was read from a printed clean group gives the same text. */
  lemma PrintStable(fs: seq<Filter>)
    requires fs != [] && CleanGroup(fs)
    ensures Print(Load(Print(fs))) == Print(fs)
  {
    PrintReadsBack(fs);
  }

  // ---- the default file (src/user_data.cc:183-190) ----

  const DEFAULT: string := "[[focus-filter]]\n"
    + "titles = []\n" + "no-titles = []\n" + "senders = []\n" + "no-senders = []\n"
    + "keywords = [\"tg-focus\"]\n" + "no-keywords = []\n"

  /** A fresh installation holds one filter that collects messages with the word "tg-focus". */
  lemma DefaultLoads()
    ensures Load(DEFAULT) == [FIRST]
    ensures CleanGroup([FIRST])
  {
    hide *;
    DefaultIsPrinted();
    SkipsNewline(DEFAULT);
    FirstIsClean();
    PrintReadsBack([FIRST]);
  }

  const FIRST := Filter([], [], [], [], ["tg-focus"], [])

  lemma DefaultIsPrinted()
    ensures Print([FIRST]) == "\n" + DEFAULT
  {
    hide HEADER, PrintRule, Print;
    HeaderIs();
    FirstRules();
    PrintsSixRules(FIRST);
  }

  lemma HeaderIs()
    ensures HEADER == "[[focus-filter]]"
  {}

  lemma FirstRules()
    ensures PrintRule("titles", []) == "titles = []\n"
    ensures PrintRule("no-titles", []) == "no-titles = []\n"
    ensures PrintRule("senders", []) == "senders = []\n"
    ensures PrintRule("no-senders", []) == "no-senders = []\n"
    ensures PrintRule("keywords", ["tg-focus"]) == "keywords = [\"tg-focus\"]\n"
    ensures PrintRule("no-keywords", []) == "no-keywords = []\n"
  {
    hide Escape;
    EscapePlain("tg-focus");
    assert PrintValues([]) == "";
    assert PrintValues(["tg-focus"]) == "\"tg-focus\"";
    hide PrintValues;
  }

  lemma PrintsSixRules(f: Filter)
    ensures Print([f]) == "\n" + (HEADER + "\n" + PrintRule("titles", f.titles) + PrintRule("no-titles", f.noTitles)
      + PrintRule("senders", f.senders) + PrintRule("no-senders", f.noSenders)
      + PrintRule("keywords", f.keywords) + PrintRule("no-keywords", f.noKeywords))
  {
    hide PrintRule;
    assert PrintRules(f, 6) == "";
    assert PrintRules(f, 5) == PrintRule("no-keywords", f.noKeywords);
    assert PrintRules(f, 4) == PrintRule("keywords", f.keywords) + PrintRules(f, 5);
    assert PrintRules(f, 3) == PrintRule("no-senders", f.noSenders) + PrintRules(f, 4);
    assert PrintRules(f, 2) == PrintRule("senders", f.senders) + PrintRules(f, 3);
    assert PrintRules(f, 1) == PrintRule("no-titles", f.noTitles) + PrintRules(f, 2);
    assert PrintRules(f, 0) == PrintRule("titles", f.titles) + PrintRules(f, 1);
  }

  lemma SkipsNewline(t: string)
    ensures Load("\n" + t) == Load(t)
  {
    hide ReadRule, ReadEol;
    assert ("\n" + t)[1..] == t;
    assert SkipSpace("\n" + t) == SkipSpace(t);
  }

  lemma FirstIsClean()
    ensures CleanGroup([FIRST])
  {
    assert Clean("tg-focus");
  }

  lemma {:induction false} EscapePlain(s: string)
    requires forall i | 0 <= i < |s| :: s[i] != '\\'
    ensures Escape(s) == s
  {
    if s != "" {
      EscapePlain(s[1..]);
      assert s == [s[0]] + s[1..];
    }
  }

  // ---- the form in characters ----

  /** A backslash is doubled, any other character stays. */
  lemma EscapedAre()
    ensures Escape("a\\b") == "a\\\\b" && Escape("c d") == "c d" && Escape("e") == "e"
  {
    EscapePlain("c d");
    EscapePlain("e");
    EscapePlain("b");
    assert Escape("\\b") == "\\\\" + Escape("b");
    assert Escape("a\\b") == "a" + Escape("\\b");
  }

  lemma ThreeValues(a: string, b: string, c: string)
    ensures PrintValues([a, b, c]) == Quoted(a) + ", " + (Quoted(b) + ", " + Quoted(c))
  {
    hide Quoted;
    assert PrintValues([c]) == Quoted(c);
    assert [a, b, c][1..] == [b, c] && [b, c][1..] == [c];
    assert PrintValues([b, c]) == Quoted(b) + ", " + PrintValues([c]);
  }

  /** How values look: each in quotes with its backslashes doubled, a comma and a blank between them. */
  lemma PrintedLine()
    ensures PrintRule("senders", ["a\\b", "c d", "e"]) == "senders = [\"a\\\\b\", \"c d\", \"e\"]\n"
  {
    hide Escape, PrintValues;
    EscapedAre();
    ThreeValues("a\\b", "c d", "e");
  }

  /** The escapes of TOML v1.0.0 that are one letter long; no other letter may follow a backslash here. */
  lemma EscapesRead(c: char, s: string, u: string)
    requires ReadChars(s) == Some(("", u))
    ensures ReadChars("\\" + ([c] + s)) ==
      if c == 'b' then Some(("\U{08}", u)) else if c == 't' then Some(("\U{09}", u)) else if c == 'n' then Some(("\U{0a}", u))
      else if c == 'f' then Some(("\U{0c}", u)) else if c == 'r' then Some(("\U{0d}", u))
      else if c == '"' then Some(("\U{22}", u)) else if c == '\\' then Some(("\U{5c}", u)) else None
  {
    assert ("\\" + ([c] + s))[2..] == s;
    assert forall d: char :: [d] + "" == [d];
  }

  /** What cannot be read, and what holds no filter, stands for one filter that matches every message. */
  lemma FallbackIs(re: Regex, text: string, m: TgMsg)
    requires ReadTables(text, []) == None || ReadTables(text, []) == Some([])
    ensures Load(text) == [Filter([], [], [], [], [], [])]
    ensures NeedCollect(re, text, m)
  {
    hide ReadTables;
    DecideMeans(re, EMPTY, m);
    GroupMeans(re, [EMPTY], m);
    assert DecidedAt(re, [EMPTY], m, 0);
  }

  // ---- how freely a text may be written ----

  predicate Blanks(w: string) { forall i | 0 <= i < |w| :: w[i] == ' ' || w[i] == '\t' }
  predicate Space(w: string) { forall i | 0 <= i < |w| :: w[i] == ' ' || w[i] == '\t' || w[i] == '\n' }

  lemma {:induction false} BlanksSkip(w: string, t: string)
    requires Blanks(w)
    ensures SkipBlanks(w + t) == SkipBlanks(t)
  {
    if w == "" {
      assert w + t == t;
    } else {
      assert (w + t)[0] == w[0] && (w + t)[1..] == w[1..] + t;
      BlanksSkip(w[1..], t);
    }
  }

  lemma {:induction false} SpaceSkip(w: string, t: string)
    requires Space(w)
    ensures SkipSpace(w + t) == SkipSpace(t)
  {
    if w == "" {
      assert w + t == t;
    } else {
      assert (w + t)[0] == w[0] && (w + t)[1..] == w[1..] + t;
      SpaceSkip(w[1..], t);
    }
  }

  /** Blank lines and indentation do not matter, before a text, before a line and inside an array; a line may end with the text. */
  lemma SpaceIgnored(w: string, t: string, acc: seq<Table>)
    requires Space(w)
    ensures Load(w + t) == Load(t) && ReadTables(w + t, acc) == ReadTables(t, acc) && ReadValues(w + t) == ReadValues(t)
    ensures Blanks(w) ==> ReadEol(w) == Some("") && ReadEol(w + ("\n" + t)) == Some(t)
  {
    hide ReadRule, ReadChars;
    SpaceSkip(w, t);
    if Blanks(w) {
      BlanksSkip(w, "");
      assert w + "" == w;
      BlanksSkip(w, "\n" + t);
      assert ("\n" + t)[1..] == t;
    }
  }

  lemma ReadNoMore(v: string, rest: string)
    requires Space(v)
    ensures ReadValues(v + ("]" + rest)) == Some(([], rest))
  {
    SpaceIgnored(v, "]" + rest, []);
    ReadNoValues(rest);
  }

  /** After the last value of an array a comma may stand. */
  lemma CommaMayFollow(p: string, v: string, rest: string)
    requires Clean(p) && Space(v)
    ensures ReadValues(Quoted(p) + ("," + (v + ("]" + rest)))) == Some(([p], rest))
  {
    hide Clean, Space, SkipSpace, Escape;
    ReadNoMore(v, rest);
    FirstOfMore(p, v + ("]" + rest));
    var none: seq<string> := [];
    assert [p] + none == [p];
  }

  lemma FirstOfMore(p: string, u: string)
    requires Clean(p)
    ensures ReadValues(Quoted(p) + ("," + u)) == match ReadValues(u) case None => None case Some((ss, v)) => Some(([p] + ss, v))
  {
    var tail := "," + u;
    ReadFirstValue(p, tail);
    ReadEscaped(p, tail);
    assert tail[1..] == u;
  }

  /** A bare key: letters, digits, underscores and dashes. */
  predicate BareKey(key: string) {
    key != "" && forall i | 0 <= i < |key| ::
      'a' <= key[i] <= 'z' || 'A' <= key[i] <= 'Z' || '0' <= key[i] <= '9' || key[i] == '-' || key[i] == '_'
  }

  lemma BareChars(key: string, u: string)
    requires BareKey(key) && u != "" && (u[0] == ' ' || u[0] == '\t' || u[0] == '=')
    ensures KeyLength(key + u) == |key|
  {
    KeyLengthOf(key, u);
  }

  /** Any bare key with any blanks around the sign is read; only the six known ones count. */
  lemma LooseLine(key: string, a: string, b: string, w: string)
    requires BareKey(key) && Blanks(a) && Blanks(b)
    ensures ReadRule(key + (a + ("=" + (b + ("[" + w))))) == match ReadValues(w)
      case None => None
      case Some((ss, x)) =>
        match ReadEol(x)
        case None => None
        case Some(y) => Some((key, ss, y))
  {
    hide ReadValues, ReadEol, SkipBlanks, KeyLength;
    var u := a + ("=" + (b + ("[" + w)));
    var t := key + u;
    BareChars(key, u);
    assert t[..|key|] == key && t[|key|..] == u;
    BlanksSkip(a, "=" + (b + ("[" + w)));
    BlanksSkip(b, "[" + w);
    StandsStill(w, b);
  }

  lemma StandsStill(w: string, b: string)
    ensures SkipBlanks("=" + (b + ("[" + w))) == "=" + (b + ("[" + w)) && ("=" + (b + ("[" + w)))[1..] == b + ("[" + w)
    ensures SkipBlanks("[" + w) == "[" + w && ("[" + w)[1..] == w
  {}

  lemma OtherKeysIgnored(t: Table, key: string, ss: seq<string>)
    requires key !in ["titles", "no-titles", "senders", "no-senders", "keywords", "no-keywords"]
    ensures ToFilter(t[key := ss]) == ToFilter(t)
  {}

  /** A line with one of the six keys, where another filter has begun, is taken unless it repeats a key; before a header it is not. */
  lemma LineTaken(p: Property, ps: seq<string>, rest: string, acc: seq<Table>)
    requires CleanRule(ps)
    ensures ReadTables(PrintRule(KeyOf(p), ps) + rest, acc) ==
      if acc == [] || KeyOf(p) in acc[|acc| - 1] then None
      else ReadTables(rest, acc[|acc| - 1 := acc[|acc| - 1][KeyOf(p) := ps]])
  {
    hide KeyOf, PrintRule, CleanRule, ReadRule;
    KeyStartsLine(p, ps, rest);
    ReadPrintedRule(p, ps, rest);
  }
}
