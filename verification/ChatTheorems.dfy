/**
  What the text commands guarantee: spelling out a command and taking it apart undo each other, and
  the stored text follows an abstract list of filters over every sequence of commands - as long as no
  added value holds a double quote or a control character, and only then.
*/
module ChatTheorems {
  import opened Prelude
  import opened Filters
  import Group = FilterGroup
  import opened FilterToml
  import opened TomlRoundTrip
  import opened ChatCmd

  // ---- spelling fields out ----

  function Spaces(n: nat): string { seq(n, _ => ' ') }

  /** Every field behind a gap of spaces. */
  function Joined(fs: seq<string>, gaps: seq<nat>): string
    requires |fs| == |gaps|
  {
    if fs == [] then "" else Spaces(gaps[0]) + (fs[0] + Joined(fs[1..], gaps[1..]))
  }

  predicate IsWord(s: string) { s != "" && ' ' !in s }

  /** Fields a command can carry: words, and a last one that only begins with no space. */
  predicate Spellable(fs: seq<string>) {
    fs != [] && fs[|fs| - 1] != "" && fs[|fs| - 1][0] != ' ' && forall i | 0 <= i < |fs| - 1 :: IsWord(fs[i])
  }

  predicate Gaps(gaps: seq<nat>) { forall i | 0 <= i < |gaps| :: gaps[i] > 0 }

  lemma {:induction false} DropsSpaces(n: nat, t: string)
    requires t == "" || t[0] != ' '
    ensures DropSpaces(Spaces(n) + t) == t
  {
    if n == 0 {
      assert Spaces(n) + t == t;
    } else {
      assert (Spaces(n) + t)[1..] == Spaces(n - 1) + t;
      DropsSpaces(n - 1, t);
    }
  }

  lemma {:induction false} WordThen(w: string, u: string)
    requires ' ' !in w && (u == "" || u[0] == ' ')
    ensures Word(w + u) == w && AfterWord(w + u) == u
  {
    if w == "" {
      assert w + u == u;
    } else {
      assert (w + u)[1..] == w[1..] + u;
      WordThen(w[1..], u);
    }
  }

  lemma OneField(n: nat, w: string, u: string, k: nat)
    requires IsWord(w) && (u == "" || u[0] == ' ') && k > 1
    ensures Fields(Spaces(n) + (w + u), k) == [w] + Fields(u, k - 1)
  {
    DropsSpaces(n, w + u);
    WordThen(w, u);
  }

  /** Any number of fields, with any positive number of spaces before each, comes apart as it was put together. */
  lemma {:induction false} FieldsOfJoined(fs: seq<string>, gaps: seq<nat>)
    requires |fs| == |gaps| && Spellable(fs) && Gaps(gaps)
    ensures Fields(Joined(fs, gaps), |fs|) == fs
    ensures Joined(fs, gaps) != "" && Joined(fs, gaps)[0] == ' '
    decreases |fs|
  {
    hide Fields;
    if |fs| == 1 {
      assert Joined(fs[1..], gaps[1..]) == "";
      assert Joined(fs, gaps) == Spaces(gaps[0]) + fs[0];
      OnlyField(gaps[0], fs[0]);
      assert fs == [fs[0]];
    } else {
      FieldsOfJoined(fs[1..], gaps[1..]);
      OneField(gaps[0], fs[0], Joined(fs[1..], gaps[1..]), |fs|);
      assert fs == [fs[0]] + fs[1..];
    }
  }

  lemma OnlyField(n: nat, q: string)
    requires q != "" && q[0] != ' '
    ensures Fields(Spaces(n) + q, 1) == [q]
  {
    DropsSpaces(n, q);
  }

  lemma {:induction false} LeadingSpaces(s: string) returns (n: nat)
    ensures s == Spaces(n) + DropSpaces(s)
    ensures s != "" && s[0] == ' ' ==> n > 0
  {
    n := 0;
    if s != "" && s[0] == ' ' {
      n := LeadingSpaces(s[1..]);
      n := n + 1;
      assert s == [' '] + s[1..];
      assert [' '] + Spaces(n - 1) == Spaces(n);
    }
  }

  lemma FirstWord(d: string)
    requires d != "" && d[0] != ' '
    ensures IsWord(Word(d)) && d == Word(d) + AfterWord(d) && (AfterWord(d) == "" || AfterWord(d)[0] == ' ')
  {}

  lemma JoinedFirst(w: string, fs: seq<string>, k: nat, gaps: seq<nat>)
    requires |fs| == |gaps|
    ensures Joined([w] + fs, [k] + gaps) == Spaces(k) + (w + Joined(fs, gaps))
    ensures Spellable(fs) && IsWord(w) ==> Spellable([w] + fs)
  {
    assert ([w] + fs)[1..] == fs && ([k] + gaps)[1..] == gaps;
  }

  /** And a text that comes apart into n fields is those fields put together. */
  lemma {:induction false} JoinedOfFields(s: string, n: nat) returns (gaps: seq<nat>)
    requires s == "" || s[0] == ' '
    requires n > 0 && |Fields(s, n)| == n
    ensures |gaps| == n && Gaps(gaps) && Spellable(Fields(s, n)) && s == Joined(Fields(s, n), gaps)
    decreases n
  {
    hide Word, AfterWord, DropSpaces, Spaces, Joined, Spellable;
    var d := DropSpaces(s);
    var k := LeadingSpaces(s);
    if n == 1 {
      gaps := [k];
      JoinedOne(d, k);
    } else {
      FirstWord(d);
      var rest := JoinedOfFields(AfterWord(d), n - 1);
      gaps := [k] + rest;
      JoinedFirst(Word(d), Fields(AfterWord(d), n - 1), k, rest);
    }
  }

  lemma JoinedOne(q: string, k: nat)
    ensures Joined([q], [k]) == Spaces(k) + q
    ensures q != "" && q[0] != ' ' ==> Spellable([q])
  {
    assert [q][1..] == [] && [k][1..] == [];
    assert Joined([], []) == "";
  }

  // ---- numbers ----

  function DigitOf(d: nat): char
    requires d < 10
  {
    '0' + d as char
  }

  function Decimal(n: nat): (s: string)
    ensures s != ""
  {
    if n < 10 then [DigitOf(n)] else Decimal(n / 10) + [DigitOf(n % 10)]
  }

  lemma {:induction false} NumberAppend(s: string, c: char, acc: nat)
    requires IsDigit(c) && forall i | 0 <= i < |s| :: IsDigit(s[i])
    ensures Number(s + [c], acc) == 10 * Number(s, acc) + DigitValue(c)
  {
    if s == "" {
      assert (s + [c])[1..] == "";
    } else {
      assert (s + [c])[1..] == s[1..] + [c];
      NumberAppend(s[1..], c, 10 * acc + DigitValue(s[0]));
    }
  }

  lemma {:induction false} NumberOfDecimal(n: nat)
    ensures Number(Decimal(n), 0) == n && forall i | 0 <= i < |Decimal(n)| :: IsDigit(Decimal(n)[i])
  {
    if n < 10 {
      assert Decimal(n)[1..] == "";
    } else {
      NumberOfDecimal(n / 10);
      NumberAppend(Decimal(n / 10), DigitOf(n % 10), 0);
    }
  }

  lemma AtoiOfDecimal(n: nat)
    requires n <= I32_MAX
    ensures Atoi(Decimal(n)) == n && IsWord(Decimal(n))
  {
    NumberOfDecimal(n);
    assert IsDigit(Decimal(n)[0]);
  }

  lemma {:induction false} BlanksSkipped(w: string, t: string)
    requires forall i | 0 <= i < |w| :: w[i] in " \t\n\U{0b}\U{0c}\r"
    ensures Strtol(w + t) == Strtol(t)
  {
    if w == "" {
      assert w + t == t;
    } else {
      assert (w + t)[0] == w[0] && (w + t)[1..] == w[1..] + t;
      BlanksSkipped(w[1..], t);
    }
  }

  /** Where the digits end. */
  predicate NoDigitFirst(u: string) { u == "" || !('0' <= u[0] <= '9') }

  lemma {:induction false} NumberStops(s: string, u: string, acc: nat)
    requires NoDigitFirst(u) && forall i | 0 <= i < |s| :: IsDigit(s[i])
    ensures Number(s + u, acc) == Number(s, acc)
  {
    if s == "" {
      assert s + u == u;
    } else {
      assert (s + u)[1..] == s[1..] + u;
      NumberStops(s[1..], u, 10 * acc + DigitValue(s[0]));
    }
  }

  lemma {:induction false} ZerosVanish(k: nat, s: string)
    ensures Number(Zeros(k) + s, 0) == Number(s, 0)
  {
    if k == 0 {
      assert Zeros(0) + s == s;
    } else {
      assert (Zeros(k) + s)[0] == '0' && (Zeros(k) + s)[1..] == Zeros(k - 1) + s;
      ZerosVanish(k - 1, s);
    }
  }

  function Zeros(k: nat): string { seq(k, _ => '0') }

  lemma DigitsRead(k: nat, n: nat, u: string)
    requires NoDigitFirst(u)
    ensures var t := Zeros(k) + Decimal(n) + u; t != "" && IsDigit(t[0]) && Number(t, 0) == n
  {
    hide Number, Decimal;
    var d := Zeros(k) + Decimal(n);
    DecimalDigits(k, n);
    NumberStops(d, u, 0);
    ZerosVanish(k, Decimal(n));
    NumberOfDecimal(n);
    assert (d + u)[0] == d[0];
  }

  lemma SignRead(sign: string, t: string)
    requires (sign == "" || sign == "+" || sign == "-") && t != "" && IsDigit(t[0])
    ensures Strtol(sign + t) ==
      if sign == "-" then -Min(Number(t, 0), 0x8000_0000_0000_0000) else Min(Number(t, 0), 0x7fff_ffff_ffff_ffff)
  {
    hide Number;
    assert (sign + t)[|sign|..] == t;
    if sign == "" { assert sign + t == t; } else { assert (sign + t)[0] == sign[0]; }
  }

  /** Blanks, a sign, zeros and a numeral of any size, and whatever follows that is no digit. */
  lemma NumeralRead(w: string, sign: string, k: nat, n: nat, u: string)
    requires sign == "" || sign == "+" || sign == "-"
    requires NoDigitFirst(u) && forall i | 0 <= i < |w| :: w[i] in " \t\n\U{0b}\U{0c}\r"
    ensures Strtol(w + (sign + (Zeros(k) + Decimal(n) + u))) ==
      if sign == "-" then (if n <= 0x8000_0000_0000_0000 then -(n as int) else -0x8000_0000_0000_0000)
      else if n <= 0x7fff_ffff_ffff_ffff then n else 0x7fff_ffff_ffff_ffff
  {
    hide Number, Decimal, Zeros, Strtol;
    DigitsRead(k, n, u);
    SignRead(sign, Zeros(k) + Decimal(n) + u);
    BlanksSkipped(w, sign + (Zeros(k) + Decimal(n) + u));
  }

  lemma DecimalDigits(k: nat, n: nat)
    ensures var d := Zeros(k) + Decimal(n); d != "" && forall i | 0 <= i < |d| :: IsDigit(d[i])
  {
    hide Decimal;
    NumberOfDecimal(n);
  }

  /** Without a digit the number is 0. */
  lemma NoNumeral(w: string, sign: string, u: string)
    requires sign == "" || sign == "+" || sign == "-"
    requires NoDigitFirst(u) && forall i | 0 <= i < |w| :: w[i] in " \t\n\U{0b}\U{0c}\r"
    requires sign == "" && u != "" ==> u[0] !in " \t\n\U{0b}\U{0c}\r+-"
    ensures Strtol(w + (sign + u)) == 0
  {
    BlanksSkipped(w, sign + u);
    assert (sign + u)[|sign|..] == u;
  }

  /** What fits 32 bits signed is read as it stands; everything else is that value modulo 2^32. */
  lemma AtoiIsStrtol(s: string)
    ensures -0x8000_0000 <= Atoi(s) < 0x8000_0000 && (Strtol(s) - Atoi(s)) % 0x1_0000_0000 == 0
    ensures -0x8000_0000 <= Strtol(s) < 0x8000_0000 ==> Atoi(s) == Strtol(s)
  {
    hide Strtol;
    Congruent(Strtol(s), Atoi(s));
  }

  lemma Congruent(a: int, b: int)
    requires (b - a) % 0x1_0000_0000 == 0
    ensures (a - b) % 0x1_0000_0000 == 0
  {}

  // ---- commands ----

  function ActionName(add: bool): string { if add then "add" else "del" }

  function EditFieldsOf(id: nat, p: Property, add: bool, v: string): seq<string> {
    [Decimal(id), KeyOf(p), ActionName(add), "\"" + v + "\""]
  }

  lemma PropertyNames(p: Property)
    ensures PropertyOf(KeyOf(p)) == Some(p) && IsWord(KeyOf(p))
  {
    match p
    case Titles =>
    case NoTitles =>
    case Senders =>
    case NoSenders =>
    case Keywords =>
    case NoKeywords =>
  }

  /**
    An edit command spelled out with any id from 1 to 2^31 - 1, any property, action and value (spaces
    and quotes included) and any positive numbers of spaces is understood as exactly that edit,
    unless the value does not compile as a regular expression.
  */
  lemma EditCommandUnderstood(re: Regex, id: nat, p: Property, add: bool, v: string, gaps: seq<nat>)
    requires 1 <= id <= I32_MAX && |gaps| == 4 && Gaps(gaps)
    ensures ParseEdit(re, "filter.edit" + Joined(EditFieldsOf(id, p, add, v), gaps)) ==
      if re.accepts(v) then Ok(Edit(id, p, add, v)) else Err(Invalid(4))
  {
    hide Joined, Fields, Word, AfterWord, ParseFields, EditFieldsOf;
    var fs := EditFieldsOf(id, p, add, v);
    FieldsUnderstood(re, id, p, add, v);
    FieldsOfJoined(fs, gaps);
    WordThen(EDITF, Joined(fs, gaps));
  }

  lemma FieldsUnderstood(re: Regex, id: nat, p: Property, add: bool, v: string)
    requires 1 <= id <= I32_MAX
    ensures var fs := EditFieldsOf(id, p, add, v);
      && |fs| == 4 && Spellable(fs)
      && ParseFields(re, fs) == if re.accepts(v) then Ok(Edit(id, p, add, v)) else Err(Invalid(4))
  {
    hide Atoi, Decimal, KeyOf, PropertyOf;
    AtoiOfDecimal(id);
    PropertyNames(p);
    assert IsWord("add") && IsWord("del");
    var q := "\"" + v + "\"";
    assert q[1..|q| - 1] == v;
  }

  /** Conversely a command that is understood is spelled that way, up to how its number is written. */
  lemma UnderstoodEditIsSpelled(re: Regex, cmd: string) returns (id: string, q: string, gaps: seq<nat>)
    requires ParseEdit(re, cmd).Ok?
    ensures var e := ParseEdit(re, cmd).req;
      && e.Edit? && 1 <= e.id && e.id == Atoi(id) % U32 && re.accepts(e.value)
      && ((q == "\"" && e.value == "") || q == "\"" + e.value + "\"") && |gaps| == 4 && Gaps(gaps)
      && "filter.edit" <= Word(cmd) && cmd == Word(cmd) + Joined([id, KeyOf(e.p), ActionName(e.add), q], gaps)
  {
    hide Joined, Fields, Word, AfterWord, Atoi, KeyOf, PropertyOf, IsQuoted, Unquoted;
    var s := AfterWord(cmd);
    var fs := Fields(s, 4);
    SplitsAtSpace(cmd);
    gaps := JoinedOfFields(s, 4);
    id, q := fs[0], fs[3];
    NameOfProperty(fs[1]);
    assert fs == [fs[0], fs[1], fs[2], fs[3]];
    QuotedIs(re, q);
    PrefixInWord(EDITF, cmd);
  }

  lemma SplitsAtSpace(s: string)
    ensures s == Word(s) + AfterWord(s) && (AfterWord(s) == "" || AfterWord(s)[0] == ' ')
  {}

  lemma NameOfProperty(s: string)
    ensures PropertyOf(s).Some? ==> KeyOf(PropertyOf(s).value) == s
  {}

  lemma PrefixInWord(w: string, s: string)
    requires IsWord(w) && w <= s
    ensures w <= Word(s)
  {
    assert forall i | 0 <= i < |w| :: s[i] == w[i] != ' ';
    assert |w| <= WordLength(s);
    assert Word(s)[..|w|] == s[..|w|];
  }

  /** Fewer fields than asked for: all of them are words. */
  lemma {:induction false} FewFields(fs: seq<string>, gaps: seq<nat>, n: nat)
    requires |fs| == |gaps| < n && Gaps(gaps) && forall i | 0 <= i < |fs| :: IsWord(fs[i])
    ensures Fields(Joined(fs, gaps), n) == fs
    ensures fs != [] ==> Joined(fs, gaps) != "" && Joined(fs, gaps)[0] == ' '
    decreases |fs|
  {
    hide Fields;
    if fs == [] {
      NoMoreFields(n);
    } else {
      FewFields(fs[1..], gaps[1..], n - 1);
      OneField(gaps[0], fs[0], Joined(fs[1..], gaps[1..]), n);
      assert fs == [fs[0]] + fs[1..];
    }
  }

  /** An edit command that ends after its k-th argument fails for want of the next, whatever the arguments. */
  lemma EditWithoutArgumentFails(re: Regex, fs: seq<string>, gaps: seq<nat>)
    requires |fs| == |gaps| < 4 && Gaps(gaps) && forall i | 0 <= i < |fs| :: IsWord(fs[i])
    ensures ParseEdit(re, "filter.edit" + Joined(fs, gaps)) == Err(Need(|fs| + 1))
  {
    hide Fields, Word, AfterWord;
    FewFields(fs, gaps, 4);
    WordThen(EDITF, Joined(fs, gaps));
  }

  lemma OneArgument(word: string, id: nat, gap: nat)
    requires IsWord(word) && id <= I32_MAX && gap > 0
    ensures word <= word + Joined([Decimal(id)], [gap])
    ensures Fields(AfterWord(word + Joined([Decimal(id)], [gap])), 2) == [Decimal(id)] && Atoi(Decimal(id)) == id
  {
    hide Fields, Word, AfterWord, Decimal, Atoi;
    AtoiOfDecimal(id);
    FewFields([Decimal(id)], [gap], 2);
    WordThen(word, Joined([Decimal(id)], [gap]));
  }

  /** An insert puts a filter for "tg-focus" before the one its id names, or at the end. */
  lemma InsertCommandWorks(re: Regex, text: string, id: nat, gap: nat)
    requires 1 <= id <= I32_MAX && gap > 0
    ensures var fs := Load(text); var k := Min(id - 1, |fs|);
      Perform(re, text, InsertCommand("filter.insert" + Joined([Decimal(id)], [gap]))) ==
        Done(Print(fs[..k] + [Filter([], [], [], [], ["tg-focus"], [])] + fs[k..]))
  {
    hide Fields, AfterWord, Atoi, Decimal, Load, Print, Joined;
    OneArgument("filter.insert", id, gap);
  }

  /** A remove takes out the filter its id names, and fails exactly when there is none or no other. */
  lemma RemoveCommandWorks(re: Regex, text: string, id: nat, gap: nat)
    requires 1 <= id <= I32_MAX && gap > 0
    ensures var fs := Load(text);
      Perform(re, text, RemoveCommand("filter.remove" + Joined([Decimal(id)], [gap]))) ==
        if id <= |fs| && |fs| > 1 then Done(Print(fs[..id - 1] + fs[id..])) else Failed(Refused)
  {
    hide Fields, AfterWord, Atoi, Decimal, Load, Print, Joined;
    OneArgument("filter.remove", id, gap);
  }

  /** An insert without its argument always fails, whatever is stored. */
  lemma InsertWithoutIdFails(re: Regex, text: string, n: nat)
    ensures Perform(re, text, InsertCommand("filter.insert" + Spaces(n))) == Failed(Refused)
  {
    WordThen(INSF, Spaces(n));
    DropsSpaces(n, "");
    assert Spaces(n) + "" == Spaces(n);
    hide AfterWord, Load;
    assert Fields(Spaces(n), 2) == [];
  }

  /** A remove without its argument fails for want of it, whatever is stored. */
  lemma RemoveWithoutIdFails(re: Regex, text: string, n: nat)
    ensures Perform(re, text, RemoveCommand("filter.remove" + Spaces(n))) == Failed(Need(1))
  {
    WordThen(RMF, Spaces(n));
    DropsSpaces(n, "");
    assert Spaces(n) + "" == Spaces(n);
    hide AfterWord, Load;
    assert Fields(Spaces(n), 2) == [];
  }

  /** The first of the fields behind the command word, and what surrounds it. */
  lemma FirstFieldAt(cmd: string) returns (gap: nat, rest: string)
    requires Fields(AfterWord(cmd), 2) != []
    ensures var id := Fields(AfterWord(cmd), 2)[0];
      IsWord(id) && gap > 0 && (rest == "" || rest[0] == ' ') && cmd == Word(cmd) + (Spaces(gap) + (id + rest))
  {
    hide Word, AfterWord, DropSpaces, Spaces;
    SplitsAtSpace(cmd);
    var s := AfterWord(cmd);
    gap := LeadingSpaces(s);
    var d := DropSpaces(s);
    FirstWord(d);
    rest := AfterWord(d);
  }

  lemma NoFieldAt(cmd: string) returns (n: nat)
    requires Fields(AfterWord(cmd), 2) == []
    ensures cmd == Word(cmd) + Spaces(n)
  {
    hide Word, AfterWord, Spaces;
    SplitsAtSpace(cmd);
    n := LeadingSpaces(AfterWord(cmd));
    assert Spaces(n) + "" == Spaces(n);
  }

  /** A remove that is understood carries a number other than 0 behind its word, and asks for that filter. */
  lemma UnderstoodRemoveIsSpelled(cmd: string) returns (id: string, gap: nat, rest: string)
    requires ParseRemove(cmd).Ok?
    ensures "filter.remove" <= Word(cmd) && IsWord(id) && gap > 0 && (rest == "" || rest[0] == ' ')
    ensures cmd == Word(cmd) + (Spaces(gap) + (id + rest))
    ensures Atoi(id) != 0 && ParseRemove(cmd) == Ok(Remove(Atoi(id) % 0x1_0000_0000))
  {
    hide Fields, Word, AfterWord, Atoi, Spaces;
    id := Fields(AfterWord(cmd), 2)[0];
    gap, rest := FirstFieldAt(cmd);
    PrefixInWord(RMF, cmd);
  }

  /** An insert that is understood carries a positive number, or nothing, which names no place. */
  lemma UnderstoodInsertIsSpelled(cmd: string) returns (id: string, gap: nat, rest: string)
    requires ParseInsert(cmd).Ok?
    ensures "filter.insert" <= Word(cmd)
    ensures id == "" ==> cmd == Word(cmd) + Spaces(gap) && ParseInsert(cmd) == Ok(Insert(0xffff_ffff))
    ensures id != "" ==> IsWord(id) && gap > 0 && (rest == "" || rest[0] == ' ') && cmd == Word(cmd) + (Spaces(gap) + (id + rest))
    ensures id != "" ==> Atoi(id) > 0 && ParseInsert(cmd) == Ok(Insert(Atoi(id)))
  {
    hide Fields, Word, AfterWord, Atoi, Spaces;
    PrefixInWord(INSF, cmd);
    if Fields(AfterWord(cmd), 2) == [] {
      id, rest := "", "";
      gap := NoFieldAt(cmd);
    } else {
      id := Fields(AfterWord(cmd), 2)[0];
      gap, rest := FirstFieldAt(cmd);
    }
  }

  /** Only a text that begins with the command's word is taken for it. */
  lemma OtherWordsRefused(re: Regex, text: string, cmd: string)
    ensures Perform(re, text, InsertCommand(cmd)) == Failed(NotTheCommand) <==> !("filter.insert" <= cmd)
    ensures Perform(re, text, RemoveCommand(cmd)) == Failed(NotTheCommand) <==> !("filter.remove" <= cmd)
    ensures Perform(re, text, EditCommand(cmd)) == Failed(NotTheCommand) <==> !("filter.edit" <= cmd)
  {
    hide Fields, AfterWord, Atoi, Load, Print, Apply, PropertyOf, IsQuoted, Unquoted;
  }

  /** A number that is 0, or not positive for an insert, is an invalid argument, whatever follows it. */
  lemma BadIdRefused(re: Regex, text: string, w: string, gap: nat, rest: string)
    requires IsWord(w) && gap > 0 && (rest == "" || rest[0] == ' ')
    ensures Perform(re, text, RemoveCommand("filter.remove" + (Spaces(gap) + (w + rest)))) == Failed(Invalid(1)) <==> Atoi(w) == 0
    ensures Perform(re, text, InsertCommand("filter.insert" + (Spaces(gap) + (w + rest)))) == Failed(Invalid(1)) <==> Atoi(w) <= 0
  {
    var s := Spaces(gap) + (w + rest);
    assert s[0] == ' ' && IsWord("filter.remove") && IsWord("filter.insert");
    WordThen("filter.remove", s);
    WordThen("filter.insert", s);
    OneField(gap, w, rest, 2);
    hide Fields, AfterWord, Atoi, Load, Print, Apply;
  }

  // ---- an edit command, from its text to the stored text ----

  predicate IsName(name: string) {
    name in ["titles", "no-titles", "senders", "no-senders", "keywords", "no-keywords"]
  }

  /** A value more at the end of the rule of that name. */
  function Extended(f: Filter, name: string, v: string): Filter {
    match name
    case "titles" => f.(titles := f.titles + [v])
    case "no-titles" => f.(noTitles := f.noTitles + [v])
    case "senders" => f.(senders := f.senders + [v])
    case "no-senders" => f.(noSenders := f.noSenders + [v])
    case "keywords" => f.(keywords := f.keywords + [v])
    case _ => f.(noKeywords := f.noKeywords + [v])
  }

  /** The first such value fewer in the rule of that name. */
  function Shrunk(f: Filter, name: string, v: string): Filter {
    match name
    case "titles" => f.(titles := Group.EraseFirst(f.titles, v))
    case "no-titles" => f.(noTitles := Group.EraseFirst(f.noTitles, v))
    case "senders" => f.(senders := Group.EraseFirst(f.senders, v))
    case "no-senders" => f.(noSenders := Group.EraseFirst(f.noSenders, v))
    case "keywords" => f.(keywords := Group.EraseFirst(f.keywords, v))
    case _ => f.(noKeywords := Group.EraseFirst(f.noKeywords, v))
  }

  lemma NamedRule(name: string, f: Filter, v: string) returns (p: Property)
    requires IsName(name)
    ensures KeyOf(p) == name && Group.Added(f, p, v) == Extended(f, name, v) && Group.Erased(f, p, v) == Shrunk(f, name, v)
  {
    hide Group.EraseFirst;
    p := PropertyOf(name).value;
  }

  /**
    What an edit command stores: the value at the end of the named rule of the numbered filter, or of a
    filter of its own behind the last for a larger number; or without the first such value in the
    numbered filter, or in the last one for a larger number.  No other rule and no other filter changes.
  */
  lemma EditCommandWorks(re: Regex, text: string, id: nat, name: string, add: bool, v: string, gaps: seq<nat>)
    requires 1 <= id <= I32_MAX && IsName(name) && |gaps| == 4 && Gaps(gaps) && re.accepts(v)
    ensures var fs := Load(text); var k := if id <= |fs| then id - 1 else |fs| - 1;
      Perform(re, text, EditCommand("filter.edit" + Joined([Decimal(id), name, if add then "add" else "del", "\"" + v + "\""], gaps))) ==
        Done(Print(if !add then fs[k := Shrunk(fs[k], name, v)]
                   else if id <= |fs| then fs[k := Extended(fs[k], name, v)]
                   else fs + [Extended(Filter([], [], [], [], [], []), name, v)]))
  {
    hide Joined, Decimal, Load, Print, ParseEdit, Extended, Shrunk, KeyOf, Group.Added, Group.Erased, IsName;
    var fs := Load(text);
    var k := if id <= |fs| then id - 1 else |fs| - 1;
    var p := NamedRule(name, fs[k], v);
    var q := NamedRule(name, Filter([], [], [], [], [], []), v);
    SameName(p, q);
    EditCommandUnderstood(re, id, p, add, v, gaps);
    assert (fs + [EMPTY])[|fs| := Group.Added(EMPTY, p, v)] == fs + [Group.Added(EMPTY, p, v)];
  }

  lemma SameName(p: Property, q: Property)
    requires KeyOf(p) == KeyOf(q)
    ensures p == q
  {
    PropertyNames(p);
    PropertyNames(q);
  }

  /** A value in double quotes that compiles; one quote mark alone stands for the empty value. */
  ghost predicate Compiles(re: Regex, q: string) {
    (q == "\"" && re.accepts("")) || exists v :: q == "\"" + v + "\"" && re.accepts(v)
  }

  /** Which argument of an edit command with four of them is found invalid, exactly. */
  lemma EditRefusedExactly(re: Regex, cmd: string)
    requires "filter.edit" <= cmd && |Fields(AfterWord(cmd), 4)| == 4
    ensures var fs := Fields(AfterWord(cmd), 4); var q := fs[3]; var why := ParseEdit(re, cmd);
      && (why == Err(Invalid(1)) <==> Atoi(fs[0]) == 0)
      && (why == Err(Invalid(2)) <==> Atoi(fs[0]) != 0 && !IsName(fs[1]))
      && (why == Err(Invalid(3)) <==> Atoi(fs[0]) != 0 && IsName(fs[1]) && fs[2] != "add" && fs[2] != "del")
      && (why.Ok? ==> (q == "\"" && why.req.value == "") || q == "\"" + why.req.value + "\"")
      && (why.Ok? <==> Atoi(fs[0]) != 0 && IsName(fs[1]) && (fs[2] == "add" || fs[2] == "del") && Compiles(re, q))
      && (why.Err? ==> why.why in [Invalid(1), Invalid(2), Invalid(3), Invalid(4)])
  {
    hide Fields, AfterWord, Atoi;
    var fs := Fields(AfterWord(cmd), 4);
    var q := fs[3];
    NamesKnown(fs[1]);
    QuotedIs(re, q);
    hide PropertyOf, IsName, IsQuoted, Unquoted;
  }

  lemma NamesKnown(s: string)
    ensures PropertyOf(s).Some? <==> IsName(s)
  {}

  lemma QuotedIs(re: Regex, q: string)
    ensures IsQuoted(q) ==> (q == "\"" && Unquoted(q) == "") || q == "\"" + Unquoted(q) + "\""
    ensures IsQuoted(q) && re.accepts(Unquoted(q)) <==> Compiles(re, q)
  {
    if IsQuoted(q) && |q| > 1 {
      assert q == "\"" + Unquoted(q) + "\"";
    }
    if v :| q == "\"" + v + "\"" && re.accepts(v) {
      assert q[|q| - 1] == '"';
      assert q[1..|q| - 1] == v;
    }
  }

  /** A remove command works exactly on the ids of the group, and only while two filters are left. */
  lemma RemoveWorksExactly(re: Regex, text: string, cmd: string)
    requires Parse(re, RemoveCommand(cmd)).Ok?
    ensures var fs := Load(text); var id := Parse(re, RemoveCommand(cmd)).req.id;
      if 1 <= id <= |fs| && |fs| > 1 then Perform(re, text, RemoveCommand(cmd)) == Done(Print(fs[..id - 1] + fs[id..]))
      else Perform(re, text, RemoveCommand(cmd)) == Failed(Refused)
  {
    hide Load, Print, Atoi, Fields, AfterWord;
  }

  // ---- the stored text over sequences of commands ----

  /** The abstract list after a command. */
  function NextGroup(re: Regex, fs: seq<Filter>, c: Command): (gs: seq<Filter>)
    requires fs != []
    ensures gs != []
  {
    match Parse(re, c)
    case Err(_) => fs
    case Ok(q) =>
      match Apply(re, fs, q)
      case None => fs
      case Some(gs) => gs
  }

  /** The stored text after a command. */
  function NextText(re: Regex, text: string, c: Command): string {
    match Perform(re, text, c)
    case Done(t) => t
    case Failed(_) => text
  }

  function RunGroup(re: Regex, fs: seq<Filter>, cs: seq<Command>): (gs: seq<Filter>)
    requires fs != []
    ensures gs != []
  {
    if cs == [] then fs else NextGroup(re, RunGroup(re, fs, cs[..|cs| - 1]), cs[|cs| - 1])
  }

  function RunText(re: Regex, text: string, cs: seq<Command>): string {
    if cs == [] then text else NextText(re, RunText(re, text, cs[..|cs| - 1]), cs[|cs| - 1])
  }

  /** What the command would add to the group is clean. */
  predicate CleanCommand(re: Regex, c: Command) {
    var r := Parse(re, c);
    r.Ok? && r.req.Edit? && r.req.add ==> Clean(r.req.value)
  }

  lemma NewFilterIsClean()
    ensures CleanFilter(Group.NEW_FILTER) && CleanFilter(EMPTY)
  {
    FirstIsClean();
    assert [FIRST][0] == Group.NEW_FILTER;
    EmptyIsClean();
    assert [EMPTY][0] == EMPTY;
  }

  lemma AddedClean(f: Filter, p: Property, v: string)
    requires CleanFilter(f)
    ensures CleanFilter(Group.Added(f, p, v)) <==> Clean(v)
  {
    WithRuleSets(f, p, Rule(f, p) + [v]);
    var r := Rule(f, p) + [v];
    assert r[|r| - 1] == v;
    var k := match p case Titles => 0 case NoTitles => 1 case Senders => 2 case NoSenders => 3 case Keywords => 4 case NoKeywords => 5;
    assert ORDER[k] == p;
    assert CleanRule(Rule(f, ORDER[k]));
    assert CleanRule(r) <==> Clean(v);
    forall j | 0 <= j < 6 && j != k
      ensures Rule(Group.Added(f, p, v), ORDER[j]) == Rule(f, ORDER[j])
    {
      assert ORDER[j] != p;
    }
  }

  lemma ErasedClean(f: Filter, p: Property, v: string)
    requires CleanFilter(f)
    ensures CleanFilter(Group.Erased(f, p, v))
  {
    Group.ErasedNarrows(f, p, v);
    var g := Group.Erased(f, p, v);
    forall j | 0 <= j < 6
      ensures CleanRule(Rule(g, ORDER[j]))
    {
      forall i | 0 <= i < |Rule(g, ORDER[j])|
        ensures Clean(Rule(g, ORDER[j])[i])
      {
        assert Rule(g, ORDER[j])[i] in Rule(f, ORDER[j]);
        assert CleanRule(Rule(f, ORDER[j]));
      }
    }
  }

  /** A request as the handlers make it: no id 0, and only values that compile. */
  predicate Proper(re: Regex, q: Request) {
    q.Edit? ==> q.id > 0 && re.accepts(q.value)
  }

  lemma ParsedIsProper(re: Regex, c: Command)
    ensures Parse(re, c).Ok? ==> Proper(re, Parse(re, c).req)
  {
    hide Atoi, Fields, PropertyOf, AfterWord;
  }

  /** A clean group stays clean under every edit except an added value that is not clean. */
  lemma EditedClean(re: Regex, fs: seq<Filter>, q: Request)
    requires fs != [] && CleanGroup(fs) && Proper(re, q) && Apply(re, fs, q).Some?
    ensures CleanGroup(Apply(re, fs, q).value) <==> (q.Edit? && q.add ==> Clean(q.value))
  {
    hide CleanFilter, Clean;
    var gs := Apply(re, fs, q).value;
    NewFilterIsClean();
    match q
    case Insert(_) =>
    case Remove(_) =>
    case Edit(id, p, add, v) =>
      if add {
        var hs := if id <= |fs| then fs else fs + [EMPTY];
        var k := Min(id, |hs|) - 1;
        AddedClean(hs[k], p, v);
        assert gs[k] == Group.Added(hs[k], p, v);
      } else {
        ErasedClean(fs[Min(id, |fs|) - 1], p, v);
      }
  }

  /**
    One command on a text that stands for a clean group: the text then stands for the abstractly
    edited group exactly when the command adds no unclean value; a failed command changes nothing.
  */
  lemma CommandRefines(re: Regex, text: string, c: Command)
    requires CleanGroup(Load(text))
    ensures Perform(re, text, c).Failed? ==> NextText(re, text, c) == text && NextGroup(re, Load(text), c) == Load(text)
    ensures Perform(re, text, c).Done? ==>
      (Load(NextText(re, text, c)) == NextGroup(re, Load(text), c) <==> CleanCommand(re, c))
    ensures CleanCommand(re, c) ==> Load(NextText(re, text, c)) == NextGroup(re, Load(text), c)
    ensures CleanCommand(re, c) ==> CleanGroup(Load(NextText(re, text, c)))
  {
    hide Load, Print, Apply, Parse, CleanGroup, Clean;
    var fs := Load(text);
    ParsedIsProper(re, c);
    if Parse(re, c).Ok? && Apply(re, fs, Parse(re, c).req).Some? {
      var gs := Apply(re, fs, Parse(re, c).req).value;
      EditedClean(re, fs, Parse(re, c).req);
      PrintReadsBack(gs);
    }
  }

  /** Over every sequence of commands that add only clean values, the stored text stands for the abstract list. */
  lemma {:induction false} StoredTextRefines(re: Regex, text: string, cs: seq<Command>)
    requires CleanGroup(Load(text)) && forall i | 0 <= i < |cs| :: CleanCommand(re, cs[i])
    ensures Load(RunText(re, text, cs)) == RunGroup(re, Load(text), cs)
    ensures CleanGroup(Load(RunText(re, text, cs)))
    ensures RunGroup(re, Load(text), cs) != []
    decreases |cs|
  {
    hide Load, NextText, NextGroup, CleanGroup, CleanCommand;
    if cs != [] {
      var n := |cs| - 1;
      StoredTextRefines(re, text, cs[..n]);
      CommandRefines(re, RunText(re, text, cs[..n]), cs[n]);
    }
  }

  /** From a fresh installation on. */
  lemma FromTheDefault(re: Regex, cs: seq<Command>)
    requires forall i | 0 <= i < |cs| :: CleanCommand(re, cs[i])
    ensures Load(RunText(re, DEFAULT, cs)) == RunGroup(re, [FIRST], cs)
  {
    hide Load, CleanCommand, CleanGroup;
    DefaultLoads();
    StoredTextRefines(re, DEFAULT, cs);
  }
}
