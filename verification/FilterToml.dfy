/**
  The stored form of a filter group (src/filter.cc): the hand-written printer, and a reader for the
  part of TOML v1.0.0 that it and the default file use - arrays of tables, arrays of basic strings,
  blank lines and blanks.
*/
module FilterToml {
  import opened Prelude
  import opened TgMessage
  import opened Filters

  // ---- printing ----

  function Escape(s: string): string {
    if s == "" then "" else (if s[0] == '\\' then "\\\\" else [s[0]]) + Escape(s[1..])
  }

  function Quoted(ptn: string): string { "\"" + Escape(ptn) + "\"" }

  function PrintValues(ptns: seq<string>): string {
    if ptns == [] then ""
    else if |ptns| == 1 then Quoted(ptns[0])
    else Quoted(ptns[0]) + ", " + PrintValues(ptns[1..])
  }

  function PrintRule(key: string, ptns: seq<string>): string {
    key + " = [" + PrintValues(ptns) + "]\n"
  }

  const HEADER := "[[focus-filter]]"

  function KeyOf(p: Property): string {
    match p
    case Titles => "titles"
    case NoTitles => "no-titles"
    case Senders => "senders"
    case NoSenders => "no-senders"
    case Keywords => "keywords"
    case NoKeywords => "no-keywords"
  }

  /** The order in which the rules are written. */
  const ORDER: seq<Property> := [Titles, NoTitles, Senders, NoSenders, Keywords, NoKeywords]

  function PrintRules(f: Filter, k: nat): string
    requires k <= 6
    decreases 6 - k
  {
    if k == 6 then "" else PrintRule(KeyOf(ORDER[k]), Rule(f, ORDER[k])) + PrintRules(f, k + 1)
  }

  function PrintFilter(f: Filter): string {
    "\n" + HEADER + "\n" + PrintRules(f, 0)
  }

  function Print(fs: seq<Filter>): string {
    if fs == [] then "" else PrintFilter(fs[0]) + Print(fs[1..])
  }

  /** The program's escape: a loop over the characters into a stream. */
  method EscapeLoop(self: string) returns (news: string)
    ensures news == Escape(self)
  {
    news := "";
    for i := 0 to |self|
      invariant Escape(self) == news + Escape(self[i..])
    {
      if self[i] == '\\' {
        news := news + "\\\\";
      } else {
        news := news + [self[i]];
      }
      assert self[i..][1..] == self[i + 1..];
    }
  }

  method PrintRuleLoop(key: string, ptns: seq<string>) returns (oss: string)
    ensures oss == PrintRule(key, ptns)
  {
    oss := key + " = [";
    ghost var head := oss;
    for ii := 0 to |ptns|
      invariant head + PrintValues(ptns) == oss + PrintValues(ptns[ii..])
    {
      ghost var before := oss;
      var s := EscapeLoop(ptns[ii]);
      oss := oss + "\"" + s + "\"";
      if ii < |ptns| - 1 {
        oss := oss + ", ";
      }
      assert ptns[ii..][1..] == ptns[ii + 1..];
      assert before + PrintValues(ptns[ii..]) == oss + PrintValues(ptns[ii + 1..]) by {
        if ii < |ptns| - 1 {
          assert before + (Quoted(ptns[ii]) + ", " + PrintValues(ptns[ii + 1..])) ==
            (before + "\"" + s + "\"" + ", ") + PrintValues(ptns[ii + 1..]);
        } else {
          assert before + Quoted(ptns[ii]) == before + "\"" + s + "\"";
        }
      }
    }
    oss := oss + "]\n";
  }

  method PrintFilterLoops(el: Filter) returns (oss: string)
    ensures oss == PrintFilter(el)
  {
    var titles := PrintRuleLoop("titles", el.titles);
    var noTitles := PrintRuleLoop("no-titles", el.noTitles);
    var senders := PrintRuleLoop("senders", el.senders);
    var noSenders := PrintRuleLoop("no-senders", el.noSenders);
    var keywords := PrintRuleLoop("keywords", el.keywords);
    var noKeywords := PrintRuleLoop("no-keywords", el.noKeywords);
    oss := "\n" + HEADER + "\n" + (titles + (noTitles + (senders + (noSenders + (keywords + (noKeywords + ""))))));
    assert PrintRules(el, 5) == noKeywords + "";
    assert PrintRules(el, 4) == keywords + PrintRules(el, 5);
    assert PrintRules(el, 3) == noSenders + PrintRules(el, 4);
    assert PrintRules(el, 2) == senders + PrintRules(el, 3);
    assert PrintRules(el, 1) == noTitles + PrintRules(el, 2);
  }

  method AsFsdata(filters: seq<Filter>) returns (oss: string)
    ensures oss == Print(filters)
  {
    oss := "";
    for i := 0 to |filters|
      invariant Print(filters) == oss + Print(filters[i..])
    {
      var el := PrintFilterLoops(filters[i]);
      PrintFrom(filters, i);
      Assoc(oss, el, Print(filters[i + 1..]));
      oss := oss + el;
    }
  }

  lemma PrintFrom(fs: seq<Filter>, i: nat)
    requires i < |fs|
    ensures Print(fs[i..]) == PrintFilter(fs[i]) + Print(fs[i + 1..])
  {
    assert fs[i..][1..] == fs[i + 1..];
  }

  lemma Assoc(a: string, b: string, c: string)
    ensures a + (b + c) == a + b + c
  {}

  // ---- reading ----

  predicate IsBlank(c: char) { c == ' ' || c == '\t' }

  function SkipBlanks(t: string): (u: string)
    ensures |u| <= |t| && (u != "" ==> !IsBlank(u[0]))
  {
    if t != "" && IsBlank(t[0]) then SkipBlanks(t[1..]) else t
  }

  function SkipSpace(t: string): (u: string)
    ensures |u| <= |t| && (u != "" ==> !IsBlank(u[0]) && u[0] != '\n')
  {
    if t != "" && (IsBlank(t[0]) || t[0] == '\n') then SkipSpace(t[1..]) else t
  }

  /** Control characters other than tab, which a basic string may not hold. */
  predicate Control(c: char) { (c < ' ' && c != '\t') || c == '\U{7f}' }

  function Unescape(c: char): Option<char> {
    match c
    case '\\' => Some('\\')
    case '"' => Some('"')
    case 'n' => Some('\n')
    case 't' => Some('\t')
    case 'r' => Some('\r')
    case 'b' => Some('\U{08}')
    case 'f' => Some('\U{0c}')
    case _ => None
  }

  /** The rest of a basic string after its opening quote, and the text behind it. */
  function ReadChars(t: string): (r: Option<(string, string)>)
    ensures r.Some? ==> |r.value.1| < |t|
  {
    if t == "" || Control(t[0]) then None
    else if t[0] == '"' then Some(("", t[1..]))
    else if t[0] == '\\' then
      if |t| < 2 || Unescape(t[1]).None? then None
      else match ReadChars(t[2..])
        case None => None
        case Some((s, u)) => Some(([Unescape(t[1]).value] + s, u))
    else match ReadChars(t[1..])
      case None => None
      case Some((s, u)) => Some(([t[0]] + s, u))
  }

  /** The values of an array after its opening bracket.  A text opening with three quotes is not read. */
  function ReadValues(t: string): (r: Option<(seq<string>, string)>)
    ensures r.Some? ==> |r.value.1| < |t|
    decreases |t|
  {
    var t := SkipSpace(t);
    if t == "" then None
    else if t[0] == ']' then Some(([], t[1..]))
    else if t[0] != '"' || "\"\"\"" <= t then None
    else match ReadChars(t[1..])
      case None => None
      case Some((s, u)) =>
        var u := SkipSpace(u);
        if u != "" && u[0] == ']' then Some(([s], u[1..]))
        else if u != "" && u[0] == ',' then
          match ReadValues(u[1..])
          case None => None
          case Some((ss, v)) => Some(([s] + ss, v))
        else None
  }

  predicate IsKeyChar(c: char) {
    'a' <= c <= 'z' || 'A' <= c <= 'Z' || '0' <= c <= '9' || c == '-' || c == '_'
  }

  function KeyLength(t: string): (n: nat)
    ensures n <= |t|
  {
    if t != "" && IsKeyChar(t[0]) then 1 + KeyLength(t[1..]) else 0
  }

  /** The end of a line: blanks and a newline, or the end of the text. */
  function ReadEol(t: string): (r: Option<string>)
    ensures r.Some? ==> |r.value| <= |t|
  {
    var t := SkipBlanks(t);
    if t == "" then Some("") else if t[0] == '\n' then Some(t[1..]) else None
  }

  /** A line `key = [values]`. */
  function ReadRule(t: string): (r: Option<(string, seq<string>, string)>)
    ensures r.Some? ==> |r.value.2| < |t|
  {
    var n := KeyLength(t);
    var u := SkipBlanks(t[n..]);
    if n == 0 || u == "" || u[0] != '=' then None
    else
      var v := SkipBlanks(u[1..]);
      if v == "" || v[0] != '[' then None
      else match ReadValues(v[1..])
        case None => None
        case Some((ss, w)) =>
          match ReadEol(w)
          case None => None
          case Some(x) => Some((t[..n], ss, x))
  }

  type Table = map<string, seq<string>>

  /** The tables of array focus-filter; a repeated key and a key before the first header are not read. */
  function ReadTables(t: string, acc: seq<Table>): Option<seq<Table>>
    decreases |t|
  {
    var t := SkipSpace(t);
    if t == "" then Some(acc)
    else if HEADER <= t then
      match ReadEol(t[|HEADER|..])
      case None => None
      case Some(u) => ReadTables(u, acc + [map[]])
    else match ReadRule(t)
      case None => None
      case Some((key, ss, u)) =>
        if acc == [] || key in acc[|acc| - 1] then None
        else ReadTables(u, acc[|acc| - 1 := acc[|acc| - 1][key := ss]])
  }

  function Get(t: Table, p: Property): seq<string> {
    if KeyOf(p) in t then t[KeyOf(p)] else []
  }

  function ToFilter(t: Table): Filter {
    Filter(Get(t, Titles), Get(t, NoTitles), Get(t, Senders), Get(t, NoSenders), Get(t, Keywords), Get(t, NoKeywords))
  }

  function ToFilters(ts: seq<Table>): (fs: seq<Filter>)
    ensures |fs| == |ts|
  {
    seq(|ts|, i requires 0 <= i < |ts| => ToFilter(ts[i]))
  }

  /** The group a stored text stands for; a text that cannot be read stands for one empty filter. */
  function Load(text: string): (fs: seq<Filter>)
    ensures fs != []
  {
    match ReadTables(text, [])
    case None => [EMPTY]
    case Some(ts) => if ts == [] then [EMPTY] else ToFilters(ts)
  }

  /** What the collector asks of the stored filters for one message (src/worker/coll_consumer.cc:19-30). */
  predicate NeedCollect(re: Regex, text: string, m: TgMsg) {
    GroupMatches(re, Load(text), m)
  }
}
