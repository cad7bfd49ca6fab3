/**
  Filters and how a group of them decides on a message (src/filter.hh).  A regular expression is
  known by its pattern text; which patterns compile and what they find is a parameter.
*/
module Filters {
  import opened Prelude
  import opened TgMessage

  /** POSIX extended regular expressions: `accepts` says a pattern compiles, `finds` that it matches. */
  datatype Regex = Regex(accepts: string -> bool, finds: (string, string) -> bool)

  /** No answer for a pattern that did not compile. */
  function IsMatch(re: Regex, ptn: string, text: string): Option<bool> {
    if re.accepts(ptn) then Some(re.finds(ptn, text)) else None
  }

  datatype Filter = Filter(
    titles: seq<string>, noTitles: seq<string>, senders: seq<string>, noSenders: seq<string>,
    keywords: seq<string>, noKeywords: seq<string>)

  const EMPTY := Filter([], [], [], [], [], [])

  datatype Property = Titles | NoTitles | Senders | NoSenders | Keywords | NoKeywords

  predicate Negative(p: Property) { p.NoTitles? || p.NoSenders? || p.NoKeywords? }

  function Rule(f: Filter, p: Property): seq<string> {
    match p
    case Titles => f.titles
    case NoTitles => f.noTitles
    case Senders => f.senders
    case NoSenders => f.noSenders
    case Keywords => f.keywords
    case NoKeywords => f.noKeywords
  }

  function WithRule(f: Filter, p: Property, r: seq<string>): Filter {
    match p
    case Titles => f.(titles := r)
    case NoTitles => f.(noTitles := r)
    case Senders => f.(senders := r)
    case NoSenders => f.(noSenders := r)
    case Keywords => f.(keywords := r)
    case NoKeywords => f.(noKeywords := r)
  }

  lemma WithRuleSets(f: Filter, p: Property, r: seq<string>)
    ensures Rule(WithRule(f, p, r), p) == r
    ensures forall q | q != p :: Rule(WithRule(f, p, r), q) == Rule(f, q)
  {}

  /** The part of a message a rule looks at. */
  function Subject(m: TgMsg, p: Property): string {
    match p
    case Titles => m.title
    case NoTitles => m.title
    case Senders => m.sender
    case NoSenders => m.sender
    case Keywords => m.text
    case NoKeywords => m.text
  }

  // ---- one filter ----

  datatype Decision = Reject | Skip | Accept

  predicate Hits(re: Regex, ptn: string, text: string) { IsMatch(re, ptn, text) == Some(true) }

  /** Tries the patterns in order from the i-th on, as the program's loops do. */
  predicate AnyMatch(re: Regex, ptns: seq<string>, text: string, i: nat)
    decreases |ptns| - i
  {
    i < |ptns| && (Hits(re, ptns[i], text) || AnyMatch(re, ptns, text, i + 1))
  }

  /** An empty positive rule matches anything; an empty negative rule matches nothing. */
  predicate Mtch(re: Regex, f: Filter, p: Property, m: TgMsg) {
    (!Negative(p) && Rule(f, p) == []) || AnyMatch(re, Rule(f, p), Subject(m, p), 0)
  }

  function Decide(re: Regex, f: Filter, m: TgMsg): Decision {
    if Mtch(re, f, NoTitles, m) then Reject
    else if Mtch(re, f, NoSenders, m) then Reject
    else if Mtch(re, f, NoKeywords, m) then Reject
    else if !Mtch(re, f, Titles, m) then Skip
    else if !Mtch(re, f, Senders, m) then Skip
    else if !Mtch(re, f, Keywords, m) then Skip
    else Accept
  }

  lemma {:induction false} AnyMatchExists(re: Regex, ptns: seq<string>, text: string, i: nat)
    ensures AnyMatch(re, ptns, text, i) <==> exists j | i <= j < |ptns| :: Hits(re, ptns[j], text)
    decreases |ptns| - i
  {
    if i < |ptns| {
      AnyMatchExists(re, ptns, text, i + 1);
    }
  }

  // ---- the rules as the documentation states them (README.md:323-347) ----

  /** One of the values compiles and is found in the text. */
  ghost predicate FoundIn(re: Regex, values: seq<string>, text: string) {
    exists v | v in values :: re.accepts(v) && re.finds(v, text)
  }

  /** Each of the three rules is empty or has a value found in its part of the message. */
  ghost predicate Matches(re: Regex, f: Filter, m: TgMsg) {
    && (f.titles == [] || FoundIn(re, f.titles, m.title))
    && (f.senders == [] || FoundIn(re, f.senders, m.sender))
    && (f.keywords == [] || FoundIn(re, f.keywords, m.text))
  }

  /** One of the three no-rules has a value found in its part of the message. */
  ghost predicate Rejects(re: Regex, f: Filter, m: TgMsg) {
    FoundIn(re, f.noTitles, m.title) || FoundIn(re, f.noSenders, m.sender) || FoundIn(re, f.noKeywords, m.text)
  }

  /** One of the rule's values is found in the message. */
  ghost predicate Listed(re: Regex, f: Filter, p: Property, m: TgMsg) {
    FoundIn(re, Rule(f, p), Subject(m, p))
  }

  lemma MtchListed(re: Regex, f: Filter, p: Property, m: TgMsg)
    ensures Mtch(re, f, p, m) <==> (!Negative(p) && Rule(f, p) == []) || Listed(re, f, p, m)
  {
    var vs, text := Rule(f, p), Subject(m, p);
    AnyMatchExists(re, vs, text, 0);
    if FoundIn(re, vs, text) {
      var v :| v in vs && re.accepts(v) && re.finds(v, text);
      var j :| 0 <= j < |vs| && vs[j] == v;
      assert Hits(re, vs[j], text);
    }
  }

  /** The six tests: which values are tried on which part of the message, and what an empty rule says. */
  lemma MtchMeans(re: Regex, f: Filter, m: TgMsg)
    ensures Mtch(re, f, Titles, m) <==> f.titles == [] || FoundIn(re, f.titles, m.title)
    ensures Mtch(re, f, Senders, m) <==> f.senders == [] || FoundIn(re, f.senders, m.sender)
    ensures Mtch(re, f, Keywords, m) <==> f.keywords == [] || FoundIn(re, f.keywords, m.text)
    ensures Mtch(re, f, NoTitles, m) <==> FoundIn(re, f.noTitles, m.title)
    ensures Mtch(re, f, NoSenders, m) <==> FoundIn(re, f.noSenders, m.sender)
    ensures Mtch(re, f, NoKeywords, m) <==> FoundIn(re, f.noKeywords, m.text)
  {
    hide FoundIn, Mtch;
    MtchListed(re, f, Titles, m);
    MtchListed(re, f, Senders, m);
    MtchListed(re, f, Keywords, m);
    MtchListed(re, f, NoTitles, m);
    MtchListed(re, f, NoSenders, m);
    MtchListed(re, f, NoKeywords, m);
  }

  /** A filter decides as documented: a rejected message is rejected, a matched one accepted, others skipped. */
  lemma DecideMeans(re: Regex, f: Filter, m: TgMsg)
    ensures Decide(re, f, m) ==
      if Rejects(re, f, m) then Reject else if Matches(re, f, m) then Accept else Skip
  {
    hide FoundIn, Mtch;
    MtchMeans(re, f, m);
  }

  /** The same rule by rule. */
  lemma ByRule(re: Regex, f: Filter, m: TgMsg)
    ensures Matches(re, f, m) <==> forall p: Property | !Negative(p) :: Rule(f, p) == [] || Listed(re, f, p, m)
    ensures Rejects(re, f, m) <==> exists p: Property | Negative(p) :: Listed(re, f, p, m)
  {
    hide FoundIn;
    assert Listed(re, f, Titles, m) <==> FoundIn(re, f.titles, m.title);
    assert Listed(re, f, Senders, m) <==> FoundIn(re, f.senders, m.sender);
    assert Listed(re, f, Keywords, m) <==> FoundIn(re, f.keywords, m.text);
    assert Listed(re, f, NoTitles, m) <==> FoundIn(re, f.noTitles, m.title);
    assert Listed(re, f, NoSenders, m) <==> FoundIn(re, f.noSenders, m.sender);
    assert Listed(re, f, NoKeywords, m) <==> FoundIn(re, f.noKeywords, m.text);
    if forall p: Property | !Negative(p) :: Rule(f, p) == [] || Listed(re, f, p, m) {
      assert !Negative(Titles) && !Negative(Senders) && !Negative(Keywords);
      assert Rule(f, Titles) == f.titles && Rule(f, Senders) == f.senders && Rule(f, Keywords) == f.keywords;
    }
    assert Negative(NoTitles) && Negative(NoSenders) && Negative(NoKeywords);
  }

  // ---- a group ----

  /** The place of the first decision that is not Skip, from the i-th on, or the number of decisions. */
  function FirstFrom(ds: seq<Decision>, i: nat): (k: nat)
    requires i <= |ds|
    ensures i <= k <= |ds|
    ensures forall j | i <= j < k :: ds[j] == Skip
    ensures k < |ds| ==> ds[k] != Skip
    decreases |ds| - i
  {
    if i == |ds| || ds[i] != Skip then i else FirstFrom(ds, i + 1)
  }

  function FirstNonSkip(ds: seq<Decision>): (k: nat)
    ensures k <= |ds|
    ensures forall j | 0 <= j < k :: ds[j] == Skip
    ensures k < |ds| ==> ds[k] != Skip
  {
    FirstFrom(ds, 0)
  }

  predicate Verdict(ds: seq<Decision>) {
    var k := FirstNonSkip(ds);
    k < |ds| && ds[k] == Accept
  }

  function Decisions(re: Regex, fs: seq<Filter>, m: TgMsg): (ds: seq<Decision>)
    ensures |ds| == |fs|
  {
    seq(|fs|, j requires 0 <= j < |fs| => Decide(re, fs[j], m))
  }

  predicate GroupMatches(re: Regex, fs: seq<Filter>, m: TgMsg) {
    Verdict(Decisions(re, fs, m))
  }

  /** Filter k is the first to match or reject the message, and it matches without rejecting. */
  ghost predicate DecidedAt(re: Regex, fs: seq<Filter>, m: TgMsg, k: nat) {
    && k < |fs| && Matches(re, fs[k], m) && !Rejects(re, fs[k], m)
    && forall j | 0 <= j < k :: !Matches(re, fs[j], m) && !Rejects(re, fs[j], m)
  }

  /** A message is forwarded iff some filter matches it without rejecting it and no earlier one did either. */
  lemma GroupMeans(re: Regex, fs: seq<Filter>, m: TgMsg)
    ensures GroupMatches(re, fs, m) <==> exists k :: DecidedAt(re, fs, m, k)
  {
    var ds := Decisions(re, fs, m);
    forall j | 0 <= j < |fs|
      ensures ds[j] == Skip <==> !Matches(re, fs[j], m) && !Rejects(re, fs[j], m)
      ensures ds[j] == Accept <==> Matches(re, fs[j], m) && !Rejects(re, fs[j], m)
    {
      DecideMeans(re, fs[j], m);
    }
    if Verdict(ds) {
      assert DecidedAt(re, fs, m, FirstNonSkip(ds));
    }
    if k :| DecidedAt(re, fs, m, k) {
      assert FirstNonSkip(ds) == k;
    }
  }

  /** Filters after the one that decides do not matter. */
  lemma LaterFiltersIrrelevant(re: Regex, fs: seq<Filter>, gs: seq<Filter>, m: TgMsg)
    requires var k := FirstNonSkip(Decisions(re, fs, m)); k < |fs| && k < |gs| && gs[..k + 1] == fs[..k + 1]
    ensures GroupMatches(re, gs, m) == GroupMatches(re, fs, m)
  {
    var k := FirstNonSkip(Decisions(re, fs, m));
    var ds, es := Decisions(re, fs, m), Decisions(re, gs, m);
    forall j | 0 <= j <= k
      ensures es[j] == ds[j]
    {
      assert gs[j] == gs[..k + 1][j] == fs[..k + 1][j] == fs[j];
    }
    assert FirstNonSkip(es) == k;
  }

  /** The order of values inside a rule does not matter, nor how often one is listed. */
  lemma ValueOrderIrrelevant(re: Regex, f: Filter, g: Filter, m: TgMsg)
    requires forall p: Property, v: string :: v in Rule(f, p) <==> v in Rule(g, p)
    ensures Decide(re, f, m) == Decide(re, g, m)
  {
    DecideMeans(re, f, m);
    DecideMeans(re, g, m);
    ByRule(re, f, m);
    ByRule(re, g, m);
    forall p: Property
      ensures Listed(re, f, p, m) <==> Listed(re, g, p, m)
      ensures Rule(f, p) == [] <==> Rule(g, p) == []
    {
      if Rule(f, p) != [] { assert Rule(f, p)[0] in Rule(g, p); }
      if Rule(g, p) != [] { assert Rule(g, p)[0] in Rule(f, p); }
    }
  }

  // ---- a group is monotone in its filters' decisions ----

  function Rank(d: Decision): nat {
    match d
    case Reject => 0
    case Skip => 1
    case Accept => 2
  }

  /** Raising decisions in the order Reject, Skip, Accept never turns forwarding into discarding. */
  lemma VerdictMonotone(ds: seq<Decision>, es: seq<Decision>)
    requires |ds| == |es| && forall j | 0 <= j < |ds| :: Rank(ds[j]) <= Rank(es[j])
    ensures Verdict(ds) ==> Verdict(es)
  {
    var k, l := FirstNonSkip(ds), FirstNonSkip(es);
    if Verdict(ds) {
      assert Rank(ds[k]) <= Rank(es[k]);
      assert l <= k;
      assert Rank(ds[l]) <= Rank(es[l]);
    }
  }

  /** Replacing one filter moves the group's verdict in the direction of that filter's decision. */
  lemma ReplacedMonotone(re: Regex, fs: seq<Filter>, k: nat, g: Filter, m: TgMsg)
    requires k < |fs|
    ensures Rank(Decide(re, fs[k], m)) <= Rank(Decide(re, g, m)) && GroupMatches(re, fs, m) ==> GroupMatches(re, fs[k := g], m)
    ensures Rank(Decide(re, g, m)) <= Rank(Decide(re, fs[k], m)) && GroupMatches(re, fs[k := g], m) ==> GroupMatches(re, fs, m)
  {
    var ds := Decisions(re, fs, m);
    var d := Decide(re, g, m);
    assert Decisions(re, fs[k := g], m) == ds[k := d];
    if Rank(ds[k]) <= Rank(d) { VerdictMonotone(ds, ds[k := d]); }
    if Rank(d) <= Rank(ds[k]) { VerdictMonotone(ds[k := d], ds); }
  }
}
