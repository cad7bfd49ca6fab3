/**
  The group of filters as the program keeps and edits it (src/filter.hh:389-655): indices are
  1-based, 32 bits wide and clamped in mixed signed and unsigned arithmetic.
*/
module FilterGroup {
  import opened Prelude
  import opened TgMessage
  import opened Filters

  // ---- what the edits mean ----

  const NEW_FILTER := EMPTY.(keywords := ["tg-focus"])

  function InsertAt<T>(s: seq<T>, k: nat, x: T): seq<T>
    requires k <= |s|
  {
    s[..k] + [x] + s[k..]
  }

  function RemoveAt<T>(s: seq<T>, k: nat): seq<T>
    requires k < |s|
  {
    s[..k] + s[k + 1..]
  }

  /** An edited group and the position the edit reports back; None when the edit is refused. */
  datatype Edited = Edited(filters: seq<Filter>, which: nat)

  function Insert(fs: seq<Filter>, which: u32, f: Filter): Option<Edited> {
    if 1 <= which <= I32_MAX + 1 then
      var k := Min(which - 1, |fs|);
      Some(Edited(InsertAt(fs, k, f), k + 1))
    else None
  }

  function Remove(fs: seq<Filter>, which: u32): Option<seq<Filter>> {
    if 1 <= which <= |fs| && |fs| != 1 then Some(RemoveAt(fs, which - 1)) else None
  }

  function Added(f: Filter, p: Property, v: string): Filter { WithRule(f, p, Rule(f, p) + [v]) }
  function Erased(f: Filter, p: Property, v: string): Filter { WithRule(f, p, EraseFirst(Rule(f, p), v)) }

  /** An index past the end appends a filter first, even when the value is then not accepted. */
  function Add(re: Regex, fs: seq<Filter>, which: u32, p: Property, v: string): Edited
    requires fs != []
  {
    if which < 1 then Edited(fs, which)
    else
      var gs := if which <= |fs| then fs else fs + [EMPTY];
      var k := Min(which, |gs|) - 1;
      Edited(if re.accepts(v) then gs[k := Added(gs[k], p, v)] else gs, k + 1)
  }

  function EraseFirst(s: seq<string>, v: string): seq<string> {
    if s == [] then [] else if s[0] == v then s[1..] else [s[0]] + EraseFirst(s[1..], v)
  }

  lemma {:induction false} EraseFirstAt(s: seq<string>, k: nat, v: string)
    requires k <= |s| && v !in s[..k] && (k < |s| ==> s[k] == v)
    ensures EraseFirst(s, v) == if k < |s| then RemoveAt(s, k) else s
  {
    if 0 < k {
      assert s[0] in s[..k];
      assert s[1..][..k - 1] == s[..k][1..];
      EraseFirstAt(s[1..], k - 1, v);
    }
  }

  lemma {:induction false} EraseFirstMultiset(s: seq<string>, v: string)
    ensures v in s ==> multiset(EraseFirst(s, v)) == multiset(s) - multiset{v}
    ensures v !in s ==> EraseFirst(s, v) == s
  {
    if s != [] {
      assert s == [s[0]] + s[1..];
      if s[0] != v { EraseFirstMultiset(s[1..], v); }
    }
  }

  lemma {:induction false} EraseFirstSubset(s: seq<string>, v: string)
    ensures forall x | x in EraseFirst(s, v) :: x in s
  {
    if s != [] && s[0] != v {
      EraseFirstSubset(s[1..], v);
    }
  }

  /** A value erased, or added, makes the rule narrower or wider and touches no other. */
  lemma ErasedNarrows(f: Filter, p: Property, v: string)
    ensures Widens(Erased(f, p, v), f, p)
  {
    EraseFirstSubset(Rule(f, p), v);
    WithRuleSets(f, p, EraseFirst(Rule(f, p), v));
  }

  lemma AddedWidens(f: Filter, p: Property, v: string)
    ensures Widens(f, Added(f, p, v), p)
  {
    WithRuleSets(f, p, Rule(f, p) + [v]);
  }

  predicate Widens(f: Filter, g: Filter, p: Property) {
    (forall v :: v in Rule(f, p) ==> v in Rule(g, p)) && forall q: Property | q != p :: Rule(g, q) == Rule(f, q)
  }

  /** An index past the end means the last filter. */
  function Delete(re: Regex, fs: seq<Filter>, which: u32, p: Property, v: string): Option<Edited>
    requires fs != []
  {
    if which < 1 then None
    else
      var k := Min(which, |fs|) - 1;
      if re.accepts(v) then Some(Edited(fs[k := Erased(fs[k], p, v)], k + 1)) else None
  }

  // ---- the class ----

  /** A 32-bit pattern read as signed. */
  function AsI32(n: int): (r: int)
    ensures -0x8000_0000 <= r <= I32_MAX && (-0x8000_0000 <= n <= I32_MAX ==> r == n)
    ensures (r - n) % 0x1_0000_0000 == 0
  {
    var u := n % U32;
    if u <= I32_MAX then u else u - U32
  }

  class FilterGroup {
    var filters: seq<Filter>
    var iPrevVisited: nat

    constructor (fs: seq<Filter>)
      ensures filters == fs && iPrevVisited == 0
    {
      filters, iPrevVisited := fs, 0;
    }

    method MtchTgmsg(re: Regex, m: TgMsg) returns (hit: bool)
      modifies this`iPrevVisited
      ensures hit <==> GroupMatches(re, filters, m)
      ensures iPrevVisited == FirstNonSkip(Decisions(re, filters, m))
    {
      iPrevVisited := 0;
      ghost var ds := Decisions(re, filters, m);
      for i := 0 to |filters|
        invariant iPrevVisited == i <= FirstNonSkip(ds)
      {
        assert ds[i] == Decide(re, filters[i], m);
        if Decide(re, filters[i], m) == Accept {
          return true;
        }
        if Decide(re, filters[i], m) == Reject {
          return false;
        }
        iPrevVisited := iPrevVisited + 1;
      }
      hit := false;
    }

    method InsFilter(which: u32, f: Option<Filter>) returns (ok: bool, which': nat)
      requires |filters| < I32_MAX
      modifies this`filters
      ensures var want := Insert(old(filters), which, if f.Some? then f.value else NEW_FILTER);
        && (ok <==> want.Some?)
        && (ok ==> Edited(filters, which') == want.value)
        && (!ok ==> filters == old(filters) && which' == which)
    {
      var idx := AsI32(which - 1);
      if idx < 0 {
        return false, which;
      }
      if idx > |filters| {
        idx := AsI32(|filters|);
      }
      var x := if f.Some? then f.value else EMPTY.(keywords := EMPTY.keywords + ["tg-focus"]);
      assert f.None? ==> x.keywords == ["tg-focus"];
      filters := filters[..idx] + [x] + filters[idx..];
      return true, idx + 1;
    }

    method RmFilter(which: u32) returns (ok: bool)
      requires 0 < |filters| < I32_MAX
      modifies this`filters
      ensures var want := Remove(old(filters), which);
        && (ok <==> want.Some?)
        && filters == if ok then want.value else old(filters)
    {
      var idx := (which - 1) % U32;
      if idx < 0 || |filters| == 1 || idx > |filters| - 1 {
        return false;
      }
      filters := filters[..idx] + filters[idx + 1..];
      ok := true;
    }

    /** Answers true on its refusing path as well. */
    method AddOne(re: Regex, which: u32, p: Property, v: string) returns (ok: bool, which': nat)
      requires 0 < |filters| < I32_MAX
      modifies this`filters
      ensures ok && Edited(filters, which') == Add(re, old(filters), which, p, v)
    {
      which' := which;
      if which < 1 {
        return true, which';
      }
      var idx := (which - 1) % U32;
      if idx > |filters| - 1 {
        filters := filters + [EMPTY];
        idx := |filters| - 1;
        which' := |filters|;
      }
      if !re.accepts(v) {
        return true, which';
      }
      var f := filters[idx];
      filters := filters[idx := WithRule(f, p, Rule(f, p) + [v])];
      ok := true;
    }

    method DelOne(re: Regex, which: u32, p: Property, v: string) returns (ok: bool, which': nat)
      requires 0 < |filters| < I32_MAX
      modifies this`filters
      ensures var want := Delete(re, old(filters), which, p, v);
        && (ok <==> want.Some?)
        && (ok ==> Edited(filters, which') == want.value)
        && (!ok ==> filters == old(filters))
    {
      hide Rule, WithRule, EraseFirst;
      which' := which;
      if which < 1 {
        return false, which';
      }
      var idx := (which - 1) % U32;
      if idx > |filters| - 1 {
        idx := |filters| - 1;
        which' := |filters|;
      }
      if !re.accepts(v) {
        return false, which';
      }
      var f := filters[idx];
      var list := EraseOne(Rule(f, p), v);
      filters := filters[idx := WithRule(f, p, list)];
      ok := true;
    }

    /** The iterator loop: the first value equal to v is erased. */
    static method EraseOne(s: seq<string>, v: string) returns (list: seq<string>)
      ensures list == EraseFirst(s, v)
    {
      list := s;
      var it := 0;
      while it < |list|
        invariant it <= |list| && list == s && v !in s[..it]
      {
        if list[it] == v {
          list := list[..it] + list[it + 1..];
          EraseFirstAt(s, it, v);
          return;
        }
        it := it + 1;
      }
      EraseFirstAt(s, |s|, v);
    }
  }

  // ---- edits undo each other ----

  /** For every index the program accepts, clamped or not, removing at the reported position restores the group. */
  lemma RemoveUndoesInsert(fs: seq<Filter>, which: u32, f: Filter)
    requires 0 < |fs| < I32_MAX
    ensures Insert(fs, which, f).Some? <==> 1 <= which <= I32_MAX + 1
    ensures Insert(fs, which, f).Some? ==>
      var e := Insert(fs, which, f).value;
      e.filters[e.which - 1] == f && Remove(e.filters, e.which) == Some(fs)
  {
    if Insert(fs, which, f).Some? {
      var e := Insert(fs, which, f).value;
      assert RemoveAt(e.filters, e.which - 1) == fs;
    }
  }

  /** Only the last filter, and indices that name none, cannot be removed. */
  lemma RemoveKeepsOthers(fs: seq<Filter>, which: u32, k: nat)
    requires Remove(fs, which).Some? && k < |fs| - 1
    ensures Remove(fs, which).value[k] == fs[if k < which - 1 then k else k + 1]
    ensures Remove(fs, which).value != []
  {}

  predicate SameValues(f: Filter, g: Filter) {
    && multiset(f.titles) == multiset(g.titles) && multiset(f.noTitles) == multiset(g.noTitles)
    && multiset(f.senders) == multiset(g.senders) && multiset(f.noSenders) == multiset(g.noSenders)
    && multiset(f.keywords) == multiset(g.keywords) && multiset(f.noKeywords) == multiset(g.noKeywords)
  }

  lemma SameValuesSameDecision(re: Regex, f: Filter, g: Filter, m: TgMsg)
    requires SameValues(f, g)
    ensures Decide(re, f, m) == Decide(re, g, m)
  {
    forall p: Property, v: string
      ensures v in Rule(f, p) <==> v in Rule(g, p)
    {
      assert multiset(Rule(f, p)) == multiset(Rule(g, p));
      assert v in Rule(f, p) <==> v in multiset(Rule(f, p));
      assert v in Rule(g, p) <==> v in multiset(Rule(g, p));
    }
    ValueOrderIrrelevant(re, f, g, m);
  }

  lemma EraseAppended(f: Filter, p: Property, v: string)
    ensures SameValues(Erased(Added(f, p, v), p, v), f)
  {
    var r := Rule(f, p) + [v];
    EraseFirstMultiset(r, v);
    assert multiset(EraseFirst(r, v)) == multiset(Rule(f, p)) by { assert v in r; }
    match p
    case Titles =>
    case NoTitles =>
    case Senders =>
    case NoSenders =>
    case Keywords =>
    case NoKeywords =>
  }

  lemma AddAt(re: Regex, fs: seq<Filter>, which: u32, p: Property, v: string)
    requires 1 <= which <= |fs|
    ensures Add(re, fs, which, p, v) == Edited(if re.accepts(v) then fs[which - 1 := Added(fs[which - 1], p, v)] else fs, which)
  {}

  lemma DeleteAt(re: Regex, fs: seq<Filter>, which: u32, p: Property, v: string)
    requires 1 <= which <= |fs| && re.accepts(v)
    ensures Delete(re, fs, which, p, v) == Some(Edited(fs[which - 1 := Erased(fs[which - 1], p, v)], which))
  {}

  /** An index past the end means a filter of its own, which is there even when the value is then not taken. */
  lemma AddPastEnd(re: Regex, fs: seq<Filter>, which: u32, p: Property, v: string)
    requires fs != [] && which > |fs|
    ensures var e := Add(re, fs, which, p, v);
      && |e.filters| == |fs| + 1 && e.filters[..|fs|] == fs && e.which == |fs| + 1
      && (re.accepts(v) ==> Rule(e.filters[|fs|], p) == [v])
      && (!re.accepts(v) ==> Rule(e.filters[|fs|], p) == [])
      && forall q | q != p :: Rule(e.filters[|fs|], q) == []
  {
    WithRuleSets(EMPTY, p, [v]);
    assert Rule(EMPTY, p) == [];
    assert [] + [v] == [v];
  }

  /** Index 0 names nothing: an addition there changes nothing. */
  lemma AddAtZero(re: Regex, fs: seq<Filter>, p: Property, v: string)
    requires fs != []
    ensures Add(re, fs, 0, p, v) == Edited(fs, 0)
  {}

  /** A deletion past the end touches the last filter only; it is refused for id 0 and values that do not compile. */
  lemma DeletePastEnd(re: Regex, fs: seq<Filter>, which: u32, p: Property, v: string)
    requires fs != []
    ensures Delete(re, fs, which, p, v).None? <==> which == 0 || !re.accepts(v)
    ensures which > |fs| && re.accepts(v) ==>
      var e := Delete(re, fs, which, p, v).value; var n := |fs| - 1;
      && |e.filters| == |fs| && e.filters[..n] == fs[..n] && e.which == |fs|
      && Rule(e.filters[n], p) == EraseFirst(Rule(fs[n], p), v)
      && forall q | q != p :: Rule(e.filters[n], q) == Rule(fs[n], q)
  {
    var n := |fs| - 1;
    WithRuleSets(fs[n], p, EraseFirst(Rule(fs[n], p), v));
  }

  lemma DeleteAdded(re: Regex, fs: seq<Filter>, which: u32, p: Property, v: string)
    requires 1 <= which <= |fs| && re.accepts(v)
    ensures Add(re, fs, which, p, v).which == which
    ensures Delete(re, Add(re, fs, which, p, v).filters, which, p, v) ==
      Some(Edited(fs[which - 1 := Erased(Added(fs[which - 1], p, v), p, v)], which))
  {
    var k := which - 1;
    AddAt(re, fs, which, p, v);
    var gs := fs[k := Added(fs[k], p, v)];
    DeleteAt(re, gs, which, p, v);
    assert gs[k := Erased(gs[k], p, v)] == fs[k := Erased(gs[k], p, v)];
  }

  /**
    Adding a value at an existing index and deleting it again keeps every rule as a multiset, leaves
    every other filter as it was, and keeps the group's verdict on every message.
  */
  lemma DeleteUndoesAdd(re: Regex, fs: seq<Filter>, which: u32, p: Property, v: string, m: TgMsg)
    requires 1 <= which <= |fs| && re.accepts(v)
    ensures var added := Add(re, fs, which, p, v);
      var back := Delete(re, added.filters, added.which, p, v);
      && added.which == which && back.Some? && back.value.which == which && |back.value.filters| == |fs|
      && SameValues(back.value.filters[which - 1], fs[which - 1])
      && (forall j | 0 <= j < |fs| && j != which - 1 :: back.value.filters[j] == fs[j])
      && GroupMatches(re, back.value.filters, m) == GroupMatches(re, fs, m)
  {
    var k := which - 1;
    var f := Erased(Added(fs[k], p, v), p, v);
    DeleteAdded(re, fs, which, p, v);
    EraseAppended(fs[k], p, v);
    SameValuesSameDecision(re, f, fs[k], m);
    ReplacedMonotone(re, fs, k, f, m);
  }

  // ---- edits are monotone ----

  /** A longer negative rule can only reject more; a longer positive rule that was not empty can only match more. */
  lemma WiderRule(re: Regex, f: Filter, g: Filter, p: Property, m: TgMsg)
    requires Widens(f, g, p)
    ensures Negative(p) ==> Rank(Decide(re, g, m)) <= Rank(Decide(re, f, m))
    ensures !Negative(p) && Rule(f, p) != [] ==> Rank(Decide(re, f, m)) <= Rank(Decide(re, g, m))
  {
    DecideMeans(re, f, m);
    DecideMeans(re, g, m);
    ByRule(re, f, m);
    ByRule(re, g, m);
    forall q: Property
      ensures Listed(re, f, q, m) ==> Listed(re, g, q, m)
      ensures q != p ==> Listed(re, g, q, m) ==> Listed(re, f, q, m)
    {
      if Listed(re, f, q, m) {
        var ptn :| ptn in Rule(f, q) && re.accepts(ptn) && re.finds(ptn, Subject(m, q));
        assert ptn in Rule(g, q);
      }
    }
    if Rule(f, p) != [] { assert Rule(f, p)[0] in Rule(g, p); }
  }

  /** At an existing index: a value added to a no-rule never lets a discarded message through, and one added
      to a positive rule that has values never stops a forwarded one. */
  lemma AddMonotone(re: Regex, fs: seq<Filter>, which: u32, p: Property, v: string, m: TgMsg)
    requires 1 <= which <= |fs|
    ensures var gs := Add(re, fs, which, p, v).filters;
      && (Negative(p) && GroupMatches(re, gs, m) ==> GroupMatches(re, fs, m))
      && (!Negative(p) && Rule(fs[which - 1], p) != [] && GroupMatches(re, fs, m) ==> GroupMatches(re, gs, m))
  {
    var f := fs[which - 1];
    AddAt(re, fs, which, p, v);
    AddedWidens(f, p, v);
    WiderRule(re, f, Added(f, p, v), p, m);
    ReplacedMonotone(re, fs, which - 1, Added(f, p, v), m);
  }

  /** Deleting is the other way around, as long as a positive rule keeps a value. */
  lemma DeleteMonotone(re: Regex, fs: seq<Filter>, which: u32, p: Property, v: string, m: TgMsg)
    requires 1 <= which <= |fs| && re.accepts(v)
    ensures var gs := Delete(re, fs, which, p, v).value.filters;
      && (Negative(p) && GroupMatches(re, fs, m) ==> GroupMatches(re, gs, m))
      && (!Negative(p) && Rule(gs[which - 1], p) != [] && GroupMatches(re, gs, m) ==> GroupMatches(re, fs, m))
  {
    var f := fs[which - 1];
    DeleteAt(re, fs, which, p, v);
    ErasedNarrows(f, p, v);
    WiderRule(re, Erased(f, p, v), f, p, m);
    ReplacedMonotone(re, fs, which - 1, Erased(f, p, v), m);
  }

  /** The condition on positive rules is needed: the first value of an empty rule can stop a message. */
  lemma FirstValueNarrows(re: Regex, v: string, m: TgMsg)
    requires re.accepts(v) && !re.finds(v, m.title)
    ensures GroupMatches(re, [EMPTY], m) && !GroupMatches(re, Add(re, [EMPTY], 1, Titles, v).filters, m)
  {
    var gs := Add(re, [EMPTY], 1, Titles, v).filters;
    assert gs[0].titles == [v];
    DecideMeans(re, gs[0], m);
    assert !Matches(re, gs[0], m);
    assert Decisions(re, gs, m)[0] != Accept && Decisions(re, [EMPTY], m)[0] == Accept;
  }
}
