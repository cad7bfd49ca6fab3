/**
  The text commands that edit the stored filters (src/chatcmd.cc): how a command is taken apart with
  two cursors, what it asks for, and what it does to the stored text.
*/
module ChatCmd {
  import opened Prelude
  import opened Filters
  import Group = FilterGroup
  import opened FilterToml

  // ---- std::string and atoi ----

  /** string::npos; cursors are 64 bits wide. */
  const NPOS: nat := U64 - 1

  /** find_first_of (" ", from) */
  function FindSpace(s: string, from: nat): nat
    decreases |s| - from
  {
    if from >= |s| then NPOS else if s[from] == ' ' then from else FindSpace(s, from + 1)
  }

  /** find_first_not_of (" ", from) */
  function FindNonSpace(s: string, from: nat): nat
    decreases |s| - from
  {
    if from >= |s| then NPOS else if s[from] != ' ' then from else FindNonSpace(s, from + 1)
  }

  function Sub64(a: nat, b: nat): nat { (a - b) % U64 }

  function Substr(s: string, pos: nat, n: nat): string
    requires pos <= |s|
  {
    s[pos..Min(pos + n, |s|)]
  }

  predicate IsSpace(c: char) { c == ' ' || '\t' <= c <= '\r' }
  predicate IsDigit(c: char) { '0' <= c <= '9' }

  function DigitValue(c: char): nat
    requires IsDigit(c)
  {
    (c - '0') as nat
  }

  /** The number in the digits s begins with, after those read into acc. */
  function Number(s: string, acc: nat): nat {
    if s == "" || !IsDigit(s[0]) then acc else Number(s[1..], 10 * acc + DigitValue(s[0]))
  }

  /** strtol: blanks, a sign, digits; out of range it saturates at 64 bits. */
  function Strtol(s: string): int {
    if s != "" && IsSpace(s[0]) then Strtol(s[1..])
    else if s != "" && s[0] == '-' then -Min(Number(s[1..], 0), 0x8000_0000_0000_0000)
    else Min(Number(if s != "" && s[0] == '+' then s[1..] else s, 0), 0x7fff_ffff_ffff_ffff)
  }

  /** atoi of the GNU C library: strtol cut down to 32 bits. */
  function Atoi(s: string): (n: int)
    ensures -0x8000_0000 <= n <= I32_MAX
  {
    Group.AsI32(Strtol(s))
  }

  // ---- the fields of a command ----

  function DropSpaces(s: string): (r: string)
    ensures |r| <= |s| && (r != "" ==> r[0] != ' ')
  {
    if s != "" && s[0] == ' ' then DropSpaces(s[1..]) else s
  }

  function WordLength(s: string): (n: nat)
    ensures n <= |s| && (n < |s| ==> s[n] == ' ') && ' ' !in s[..n]
  {
    if s != "" && s[0] != ' ' then 1 + WordLength(s[1..]) else 0
  }

  function Word(s: string): string { s[..WordLength(s)] }

  function AfterWord(s: string): (r: string)
    ensures |r| <= |s|
  {
    s[WordLength(s)..]
  }

  /** Up to n fields separated by spaces; the n-th is all the rest. */
  function Fields(s: string, n: nat): (fs: seq<string>)
    ensures |fs| <= n && forall i | 0 <= i < |fs| :: fs[i] != "" && fs[i][0] != ' ' && |fs[i]| <= |s|
    decreases n
  {
    var d := DropSpaces(s);
    if n == 0 || d == "" then []
    else if n == 1 then [d]
    else [Word(d)] + Fields(AfterWord(d), n - 1)
  }

  // ---- what the cursors find ----

  lemma {:induction false} FindSpaceIs(s: string, b: nat)
    requires b <= |s| < NPOS
    ensures var e := b + WordLength(s[b..]); e <= |s| && FindSpace(s, b) == if e == |s| then NPOS else e
    decreases |s| - b
  {
    if b < |s| && s[b] != ' ' {
      FindSpaceIs(s, b + 1);
      assert s[b..][1..] == s[b + 1..];
    }
  }

  lemma {:induction false} FindNonSpaceIs(s: string, e: nat)
    requires e <= |s| < NPOS
    ensures var b := FindNonSpace(s, e);
      if DropSpaces(s[e..]) == "" then b == NPOS else e <= b < |s| && s[b..] == DropSpaces(s[e..])
    decreases |s| - e
  {
    if e < |s| && s[e] == ' ' {
      FindNonSpaceIs(s, e + 1);
      assert s[e..][1..] == s[e + 1..];
    }
  }

  lemma SubstrTo(s: string, b: nat, e: nat)
    requires b <= |s| < NPOS && (b <= e <= |s| || e == NPOS)
    ensures Substr(s, b, Sub64(e, b)) == if e == NPOS then s[b..] else s[b..e]
  {
    assert s[b..] == s[b..|s|];
  }

  /** The word at b ends where the next space is found. */
  lemma WordAt(s: string, b: nat)
    requires b < |s| < NPOS
    ensures var e := FindSpace(s, b);
      && Substr(s, b, Sub64(e, b)) == Word(s[b..])
      && (if e == NPOS then AfterWord(s[b..]) == "" else b <= e < |s| && s[e..] == AfterWord(s[b..]))
  {
    hide FindSpace, Substr, Sub64;
    FindSpaceIs(s, b);
    var k := WordLength(s[b..]);
    assert s[b..][..k] == s[b..b + k];
    assert s[b..][k..] == s[b + k..];
    SubstrTo(s, b, FindSpace(s, b));
  }

  lemma NoMoreFields(n: nat)
    ensures Fields("", n) == []
  {}

  /** From the end of a field, the cursors find the next one, or that there is none. */
  lemma NextField(s: string, e: nat, n: nat)
    requires e <= |s| < NPOS && n > 1
    ensures var b := FindNonSpace(s, e);
      (b == NPOS ==> Fields(s[e..], n) == []) && (b != NPOS ==> b < |s| && FoundField(s, e, b, FindSpace(s, b), n))
  {
    hide FindSpace, FindNonSpace, Substr, Sub64, Word, AfterWord, DropSpaces;
    FindNonSpaceIs(s, e);
    var b := FindNonSpace(s, e);
    if b != NPOS {
      WordAt(s, b);
      NoMoreFields(n - 1);
    }
  }

  predicate FoundField(s: string, e: nat, b: nat, e': nat, n: nat)
    requires e <= |s| && b <= |s| && n > 0
  {
    && (e' == NPOS || e' < |s|)
    && Fields(s[e..], n) == [Substr(s, b, Sub64(e', b))] + if e' == NPOS then [] else Fields(s[e'..], n - 1)
  }

  lemma LastField(s: string, e: nat)
    requires e <= |s| < NPOS
    ensures var b := FindNonSpace(s, e);
      if b == NPOS then Fields(s[e..], 1) == [] else b < |s| && Fields(s[e..], 1) == [Substr(s, b, Sub64(NPOS, b))]
  {
    FindNonSpaceIs(s, e);
    if FindNonSpace(s, e) != NPOS { SubstrTo(s, FindNonSpace(s, e), NPOS); }
  }

  lemma FirstSpace(s: string, n: nat)
    requires |s| < NPOS
    ensures var e := FindSpace(s, 0);
      if e == NPOS then Fields(AfterWord(s), n) == [] else e < |s| && s[e..] == AfterWord(s)
  {
    FindSpaceIs(s, 0);
    assert s[0..] == s;
  }

  method EditFields(cmdipt: string) returns (chunks: seq<string>)
    requires |cmdipt| < NPOS
    ensures chunks == Fields(AfterWord(cmdipt), 4)
  {
    hide FindSpace, FindNonSpace, Fields, AfterWord, Substr, Sub64;
    chunks := [];
    var begi := 0;
    var endi := FindSpace(cmdipt, begi);
    FirstSpace(cmdipt, 4);
    if endi == NPOS { return; }

    NextField(cmdipt, endi, 4);
    begi := FindNonSpace(cmdipt, endi);
    if begi == NPOS { return; }
    endi := FindSpace(cmdipt, begi);
    var chunk1 := Substr(cmdipt, begi, Sub64(endi, begi));
    if endi == NPOS { return [chunk1]; }

    NextField(cmdipt, endi, 3);
    begi := FindNonSpace(cmdipt, endi);
    if begi == NPOS { return [chunk1]; }
    endi := FindSpace(cmdipt, begi);
    var chunk2 := Substr(cmdipt, begi, Sub64(endi, begi));
    if endi == NPOS { return [chunk1, chunk2]; }

    NextField(cmdipt, endi, 2);
    begi := FindNonSpace(cmdipt, endi);
    if begi == NPOS { return [chunk1, chunk2]; }
    endi := FindSpace(cmdipt, begi);
    var chunk3 := Substr(cmdipt, begi, Sub64(endi, begi));
    if endi == NPOS { return [chunk1, chunk2, chunk3]; }

    LastField(cmdipt, endi);
    begi := FindNonSpace(cmdipt, endi);
    if begi == NPOS { return [chunk1, chunk2, chunk3]; }
    endi := NPOS;
    var chunk4 := Substr(cmdipt, begi, Sub64(endi, begi));
    chunks := [chunk1, chunk2, chunk3, chunk4];
  }

  // ---- what a command asks for ----

  const EDITF := "filter.edit"
  const INSF := "filter.insert"
  const RMF := "filter.remove"

  datatype Reason = NotTheCommand | Need(arg: nat) | Invalid(arg: nat) | Refused

  datatype Request =
    | Insert(id: u32)
    | Remove(id: u32)
    | Edit(id: u32, p: Property, add: bool, value: string)

  datatype Parsed = Ok(req: Request) | Err(why: Reason)

  datatype Command = InsertCommand(text: string) | RemoveCommand(text: string) | EditCommand(text: string)

  function PropertyOf(s: string): Option<Property> {
    if s == "titles" then Some(Titles)
    else if s == "no-titles" then Some(NoTitles)
    else if s == "keywords" then Some(Keywords)
    else if s == "no-keywords" then Some(NoKeywords)
    else if s == "senders" then Some(Senders)
    else if s == "no-senders" then Some(NoSenders)
    else None
  }

  predicate IsQuoted(s: string) { s != "" && s[0] == '"' && s[|s| - 1] == '"' }

  /** A value in quotes; a single quote mark counts as both. */
  function Unquoted(s: string): string
    requires IsQuoted(s)
  {
    if |s| == 1 then "" else s[1..|s| - 1]
  }

  lemma UnquotedIs(s: string)
    requires IsQuoted(s) && |s| < NPOS
    ensures Substr(s, 1, Sub64(|s|, 2)) == Unquoted(s)
  {}

  /** A missing id is the largest 32-bit one. */
  function ParseInsert(cmd: string): Parsed {
    var fs := Fields(AfterWord(cmd), 2);
    if !(INSF <= cmd) then Err(NotTheCommand)
    else if fs == [] then Ok(Insert(U32 - 1))
    else if Atoi(fs[0]) <= 0 then Err(Invalid(1))
    else Ok(Insert(Atoi(fs[0])))
  }

  function ParseRemove(cmd: string): Parsed {
    var fs := Fields(AfterWord(cmd), 2);
    if !(RMF <= cmd) then Err(NotTheCommand)
    else if fs == [] then Err(Need(1))
    else if Atoi(fs[0]) == 0 then Err(Invalid(1))
    else Ok(Remove(Atoi(fs[0]) % U32))
  }

  function ParseFields(re: Regex, fs: seq<string>): Parsed
    requires |fs| == 4
  {
    if Atoi(fs[0]) == 0 then Err(Invalid(1))
    else if PropertyOf(fs[1]).None? then Err(Invalid(2))
    else if fs[2] != "add" && fs[2] != "del" then Err(Invalid(3))
    else if !IsQuoted(fs[3]) || !re.accepts(Unquoted(fs[3])) then Err(Invalid(4))
    else Ok(Edit(Atoi(fs[0]) % U32, PropertyOf(fs[1]).value, fs[2] == "add", Unquoted(fs[3])))
  }

  function ParseEdit(re: Regex, cmd: string): Parsed {
    var fs := Fields(AfterWord(cmd), 4);
    if !(EDITF <= cmd) then Err(NotTheCommand)
    else if |fs| < 4 then Err(Need(|fs| + 1))
    else ParseFields(re, fs)
  }

  function Parse(re: Regex, c: Command): Parsed {
    match c
    case InsertCommand(t) => ParseInsert(t)
    case RemoveCommand(t) => ParseRemove(t)
    case EditCommand(t) => ParseEdit(re, t)
  }

  // ---- what a command does ----

  /** The edit of the group that a request names; None when the group refuses it. */
  function Apply(re: Regex, fs: seq<Filter>, q: Request): (r: Option<seq<Filter>>)
    requires fs != []
    ensures r.Some? ==> r.value != []
  {
    match q
    case Insert(id) =>
      (match Group.Insert(fs, id, Group.NEW_FILTER)
       case None => None
       case Some(e) => Some(e.filters))
    case Remove(id) => Group.Remove(fs, id)
    case Edit(id, p, add, v) =>
      if add then Some(Group.Add(re, fs, id, p, v).filters)
      else match Group.Delete(re, fs, id, p, v)
        case None => None
        case Some(e) => Some(e.filters)
  }

  datatype Outcome = Done(text: string) | Failed(why: Reason)

  /** What becomes of the stored text. */
  function Perform(re: Regex, text: string, c: Command): Outcome {
    match Parse(re, c)
    case Err(why) => Failed(why)
    case Ok(q) =>
      match Apply(re, Load(text), q)
      case None => Failed(Refused)
      case Some(gs) => Done(Print(gs))
  }

  /** The sizes the file reader of the program takes. */
  const MAX_TEXT: nat := 0x10_0000

  lemma {:induction false} TablesBounded(t: string, acc: seq<Table>)
    ensures ReadTables(t, acc).Some? ==> |ReadTables(t, acc).value| <= |acc| + |t|
    decreases |t|
  {
    var u := SkipSpace(t);
    if u == "" {
    } else if HEADER <= u {
      if ReadEol(u[|HEADER|..]).Some? { TablesBounded(ReadEol(u[|HEADER|..]).value, acc + [map[]]); }
    } else if ReadRule(u).Some? {
      var (key, ss, v) := ReadRule(u).value;
      if acc != [] { TablesBounded(v, acc[|acc| - 1 := acc[|acc| - 1][key := ss]]); }
    }
  }

  lemma LoadBounded(text: string)
    ensures |Load(text)| <= |text| + 1
  {
    TablesBounded(text, []);
  }

  lemma PrintsSomething(fs: seq<Filter>)
    requires fs != []
    ensures Print(fs) != ""
  {
    assert Print(fs)[0] == '\n';
  }

  /** The filter store, taken as an exact cell; an empty text is not written. */
  class UserData {
    var filters: string

    constructor (text: string)
      ensures filters == text
    {
      filters := text;
    }

    method SetFilters(text: string)
      modifies this
      ensures filters == if text == "" then old(filters) else text
    {
      if text != "" {
        filters := text;
      }
    }

    method Store(fs: seq<Filter>)
      requires fs != []
      modifies this
      ensures filters == Print(fs)
    {
      var text := AsFsdata(fs);
      PrintsSomething(fs);
      SetFilters(text);
    }
  }

  // ---- the handlers ----

  method HandleInsFilter(re: Regex, cmdipt: string, userdata: UserData) returns (ok: bool, why: Reason)
    requires |cmdipt| < NPOS && |userdata.filters| < MAX_TEXT
    modifies userdata
    ensures var want := Perform(re, old(userdata.filters), InsertCommand(cmdipt));
      if ok then want == Done(userdata.filters) else want == Failed(why) && userdata.filters == old(userdata.filters)
  {
    hide FindSpace, FindNonSpace, Fields, AfterWord, Substr, Sub64, Atoi, Load, Print, Group.Insert, Group.Remove, Group.Add, Group.Delete;
    why := Refused;
    if !(INSF <= cmdipt) {
      return false, NotTheCommand;
    }
    var filterId := U32 - 1;
    var begi := 0;
    var endi := FindSpace(cmdipt, begi);
    FirstSpace(cmdipt, 2);
    if endi != NPOS {
      NextField(cmdipt, endi, 2);
      begi := FindNonSpace(cmdipt, endi);
      if begi != NPOS {
        endi := FindSpace(cmdipt, begi);
        var chunk1 := Substr(cmdipt, begi, Sub64(endi, begi));
        var mayFilterId := Atoi(chunk1);
        if mayFilterId <= 0 {
          return false, Invalid(1);
        }
        filterId := mayFilterId;
      }
    }
    LoadBounded(userdata.filters);
    var fg := new Group.FilterGroup(Load(userdata.filters));
    var which;
    ok, which := fg.InsFilter(filterId, None);
    if ok {
      assert Apply(re, Load(userdata.filters), Insert(filterId)) == Some(fg.filters);
      userdata.Store(fg.filters);
    }
  }

  method HandleRmFilter(re: Regex, cmdipt: string, userdata: UserData) returns (ok: bool, why: Reason)
    requires |cmdipt| < NPOS && |userdata.filters| < MAX_TEXT
    modifies userdata
    ensures var want := Perform(re, old(userdata.filters), RemoveCommand(cmdipt));
      if ok then want == Done(userdata.filters) else want == Failed(why) && userdata.filters == old(userdata.filters)
  {
    hide FindSpace, FindNonSpace, Fields, AfterWord, Substr, Sub64, Atoi, Load, Print, Group.Insert, Group.Remove, Group.Add, Group.Delete;
    why := Refused;
    if !(RMF <= cmdipt) {
      return false, NotTheCommand;
    }
    var begi := 0;
    var endi := FindSpace(cmdipt, begi);
    FirstSpace(cmdipt, 2);
    if endi == NPOS {
      return false, Need(1);
    }
    NextField(cmdipt, endi, 2);
    begi := FindNonSpace(cmdipt, endi);
    if begi == NPOS {
      return false, Need(1);
    }
    endi := FindSpace(cmdipt, begi);
    var chunk1 := Substr(cmdipt, begi, Sub64(endi, begi));
    var filterId := Atoi(chunk1) % U32;
    if filterId <= 0 {
      return false, Invalid(1);
    }
    LoadBounded(userdata.filters);
    var fg := new Group.FilterGroup(Load(userdata.filters));
    ok := fg.RmFilter(filterId);
    if ok {
      assert Apply(re, Load(userdata.filters), Remove(filterId)) == Some(fg.filters);
      userdata.Store(fg.filters);
    }
  }

  method HandleEditFilter(re: Regex, cmdipt: string, userdata: UserData) returns (ok: bool, why: Reason)
    requires |cmdipt| < NPOS && |userdata.filters| < MAX_TEXT
    modifies userdata
    ensures var want := Perform(re, old(userdata.filters), EditCommand(cmdipt));
      if ok then want == Done(userdata.filters) else want == Failed(why) && userdata.filters == old(userdata.filters)
  {
    hide FindSpace, FindNonSpace, Fields, AfterWord, Substr, Sub64, Atoi, Load, Print, Group.Insert, Group.Remove, Group.Add, Group.Delete;
    why := Refused;
    if !(EDITF <= cmdipt) {
      return false, NotTheCommand;
    }
    var chunks := EditFields(cmdipt);
    if |chunks| < 4 {
      return false, Need(|chunks| + 1);
    }
    var filterId := Atoi(chunks[0]) % U32;
    if filterId <= 0 {
      return false, Invalid(1);
    }
    var property := PropertyOf(chunks[1]);
    if property.None? {
      return false, Invalid(2);
    }
    var action := chunks[2];
    if action != "add" && action != "del" {
      return false, Invalid(3);
    }
    var chunk4 := chunks[3];
    if chunk4[0] != '"' || chunk4[|chunk4| - 1] != '"' {
      return false, Invalid(4);
    }
    UnquotedIs(chunk4);
    var unquotedRe := Substr(chunk4, 1, Sub64(|chunk4|, 2));
    if !re.accepts(unquotedRe) {
      return false, Invalid(4);
    }
    LoadBounded(userdata.filters);
    var fg := new Group.FilterGroup(Load(userdata.filters));
    var which;
    if action == "add" {
      ok, which := fg.AddOne(re, filterId, property.value, unquotedRe);
    } else {
      ok, which := fg.DelOne(re, filterId, property.value, unquotedRe);
    }
    if ok {
      assert Apply(re, Load(userdata.filters), Edit(filterId, property.value, action == "add", unquotedRe)) == Some(fg.filters);
      userdata.Store(fg.filters);
    }
  }
}
