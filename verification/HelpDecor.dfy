/**
  The extra markup of the help text (extra_decoration_help, src/td_coll.cc:228-323): one pass over the
  UTF-16 units opens and closes folds, code spans and links, and lists the entities to be set.
*/
module HelpDecor {
  import opened Prelude
  import opened Utf

  datatype Kind = Bold | Fold | Code | Url

  datatype Entity = Entity(off: nat, len: nat, kind: Kind)

  const EXAMPLES: seq<u16> := [0x45, 0x58, 0x41, 0x4D, 0x50, 0x4C, 0x45, 0x53, 0x20, 0x3A]
  const MORE_EXAMPLES: seq<u16> := [0x4D, 0x4F, 0x52, 0x45, 0x20, 0x45, 0x58, 0x41, 0x4D, 0x50, 0x4C, 0x45, 0x53, 0x20, 0x3A]
  const CLICK_TO_HIDE: seq<u16> := [0x3C, 0x43, 0x4C, 0x49, 0x43, 0x4B, 0x2D, 0x54, 0x4F, 0x2D, 0x48, 0x49, 0x44, 0x45, 0x3E]

  const CODE_MARK: u16 := 0x2002
  const URL_MARK: u16 := 0x2003

  /** The words p stand at i. */
  predicate Reads(us: seq<u16>, i: nat, p: seq<u16>) {
    i + |p| <= |us| && us[i..i + |p|] == p
  }

  // ---- what is to be listed ----

  /** The places of a mark, in order, from i on. */
  function Marks(us: seq<u16>, c: u16, i: nat): seq<nat>
    decreases |us| - i
  {
    if i >= |us| then [] else (if us[i] == c then [i] else []) + Marks(us, c, i + 1)
  }

  /** Marks are taken in pairs, from the first to the second; a pair that begins the text is passed over. */
  function Pairs(ms: seq<nat>, kind: Kind): seq<Entity> {
    if |ms| < 2 then []
    else (if ms[0] > 0 && ms[0] <= ms[1] then [Entity(ms[0], ms[1] - ms[0] + 1, kind)] else []) + Pairs(ms[2..], kind)
  }

  /** The headline that opens a fold at i, if one stands there. */
  function Headline(us: seq<u16>, i: nat): Option<nat> {
    if Reads(us, i, EXAMPLES) then Some(|EXAMPLES|)
    else if Reads(us, i, MORE_EXAMPLES) then Some(|MORE_EXAMPLES|)
    else None
  }

  /** The folds from i on: each goes from a headline to the end of the next closing words. */
  function Folds(us: seq<u16>, i: nat, begi: Option<nat>): seq<Entity>
    decreases |us| - i
  {
    if i >= |us| then []
    else match begi
      case None => Folds(us, i + 1, if Headline(us, i).Some? then Some(i) else None)
      case Some(b) =>
        if Reads(us, i, CLICK_TO_HIDE) then
          (if b <= i then [Entity(b, i - b + |CLICK_TO_HIDE|, Fold)] else []) + Folds(us, i + 1, None)
        else Folds(us, i + 1, begi)
  }

  /** The headlines that open a fold are set in bold. */
  function Headlines(us: seq<u16>, i: nat, inFold: bool): seq<Entity>
    decreases |us| - i
  {
    if i >= |us| then []
    else if inFold then Headlines(us, i + 1, !Reads(us, i, CLICK_TO_HIDE))
    else match Headline(us, i)
      case None => Headlines(us, i + 1, false)
      case Some(n) => [Entity(i, n, Bold)] + Headlines(us, i + 1, true)
  }

  function Only(es: seq<Entity>, kind: Kind): seq<Entity> {
    if es == [] then []
    else
      var e := es[|es| - 1];
      Only(es[..|es| - 1], kind) + if e.kind == kind then [e] else []
  }

  lemma OnlyMore(es: seq<Entity>, e: Entity, kind: Kind)
    ensures Only(es + [e], kind) == Only(es, kind) + if e.kind == kind then [e] else []
  {
    assert (es + [e])[..|es|] == es;
  }

  /** The unit at which the scanner lists an entity, and the turn it comes in there. */
  function ListedAt(e: Entity): int {
    match e.kind
    case Bold => e.off
    case Fold => e.off + e.len - |CLICK_TO_HIDE|
    case _ => e.off + e.len - 1
  }

  function Turn(kind: Kind): nat {
    match kind
    case Bold => 0
    case Fold => 1
    case Code => 2
    case Url => 3
  }

  predicate Earlier(e: Entity, f: Entity) {
    ListedAt(e) < ListedAt(f) || (ListedAt(e) == ListedAt(f) && Turn(e.kind) < Turn(f.kind))
  }

  predicate InTurn(es: seq<Entity>) {
    forall j, k | 0 <= j < k < |es| :: Earlier(es[j], es[k])
  }

  /** The entities of each kind in a list, and how the kinds are mixed. */
  predicate Lists(es: seq<Entity>, us: seq<u16>) {
    && InTurn(es)
    && Only(es, Bold) == Headlines(us, 0, false)
    && Only(es, Fold) == Folds(us, 0, None)
    && Only(es, Code) == Pairs(Marks(us, CODE_MARK, 0), Code)
    && Only(es, Url) == Pairs(Marks(us, URL_MARK, 0), Url)
  }

  // ---- the scanner's state ----

  /** Where a block was opened: an unsigned 64-bit place, or all ones. */
  const NOWHERE: nat := U64 - 1

  function Open(ent: bool, lasti: nat): Option<nat> { if ent then Some(lasti) else None }

  /** The marks of a kind still to be paired: an open one and those from i on. */
  function Left(us: seq<u16>, c: u16, i: nat, ent: bool, lasti: nat): seq<nat> {
    (if ent then [lasti] else []) + Marks(us, c, i)
  }

  lemma FirstPair(a: nat, b: nat, rest: seq<nat>, kind: Kind)
    requires a <= b
    ensures Pairs([a] + ([b] + rest), kind) == (if a > 0 then [Entity(a, b - a + 1, kind)] else []) + Pairs(rest, kind)
  {
    assert ([a] + ([b] + rest))[2..] == rest;
  }

  /** At most one entity is added, at unit i and in one of the turns from lo to hi. */
  predicate Adds(es: seq<Entity>, es': seq<Entity>, i: nat, lo: nat, hi: nat) {
    es' == es || (|es'| == |es| + 1 && es'[..|es|] == es && ListedAt(es'[|es|]) == i && lo <= Turn(es'[|es|].kind) <= hi)
  }

  /** Everything in the list comes before turn t at unit i. */
  predicate Before(es: seq<Entity>, i: nat, t: nat) {
    forall k | 0 <= k < |es| :: ListedAt(es[k]) < i || (ListedAt(es[k]) == i && Turn(es[k].kind) < t)
  }

  lemma AddedInTurn(es: seq<Entity>, es': seq<Entity>, i: nat, lo: nat, hi: nat)
    requires InTurn(es) && Before(es, i, lo) && Adds(es, es', i, lo, hi) && lo <= hi
    ensures InTurn(es') && Before(es', i, hi + 1)
  {
    if es' != es { assert forall k | 0 <= k < |es| :: es'[k] == es'[..|es|][k] == es[k]; }
  }

  /** One unit of a kind of marks: what the code spans and the links do alike. */
  method Toggle(us: seq<u16>, c: u16, kind: Kind, i: nat, ent: bool, lasti: nat, es: seq<Entity>)
    returns (ent': bool, lasti': nat, es': seq<Entity>)
    requires i < |us| && (ent ==> lasti < i)
    ensures ent' ==> lasti' <= i
    ensures Only(es', kind) + Pairs(Left(us, c, i + 1, ent', lasti'), kind) == Only(es, kind) + Pairs(Left(us, c, i, ent, lasti), kind)
    ensures forall k: Kind | k != kind :: Only(es', k) == Only(es, k)
    ensures kind.Code? || kind.Url? ==> Adds(es, es', i, Turn(kind), Turn(kind))
  {
    hide Only, InTurn, Headlines, Folds;
    ent', lasti', es' := ent, lasti, es;
    if us[i] == c {
      if ent && lasti > 0 {
        var e := Entity(lasti, i - lasti + 1, kind);
        es' := es + [e];
        forall k: Kind ensures Only(es', k) == Only(es, k) + if k == kind then [e] else [] { OnlyMore(es, e, k); }
        lasti' := NOWHERE;
      } else {
        lasti' := i;
      }
      ent' := !ent;
      if ent {
        FirstPair(lasti, i, Marks(us, c, i + 1), kind);
        assert Left(us, c, i, ent, lasti) == [lasti] + ([i] + Marks(us, c, i + 1));
        var more := Pairs(Marks(us, c, i + 1), kind);
        assert Only(es', kind) + more == Only(es, kind) + ((if lasti > 0 then [Entity(lasti, i - lasti + 1, kind)] else []) + more);
      }
      assert Left(us, c, i + 1, ent', lasti') == if ent then Marks(us, c, i + 1) else Marks(us, c, i);
      assert !ent ==> Left(us, c, i, ent, lasti) == Marks(us, c, i);
    } else {
      assert Left(us, c, i + 1, ent, lasti) == Left(us, c, i, ent, lasti);
    }
  }

  /** Headlines and closing words. */
  method FoldStep(us: seq<u16>, i: nat, ent: bool, lasti: nat, es: seq<Entity>)
    returns (ent': bool, lasti': nat, es': seq<Entity>)
    requires i < |us| && (ent ==> lasti < i)
    ensures ent' ==> lasti' <= i
    ensures Only(es', Bold) + Headlines(us, i + 1, ent') == Only(es, Bold) + Headlines(us, i, ent)
    ensures Only(es', Fold) + Folds(us, i + 1, Open(ent', lasti')) == Only(es, Fold) + Folds(us, i, Open(ent, lasti))
    ensures Only(es', Code) == Only(es, Code) && Only(es', Url) == Only(es, Url)
    ensures Adds(es, es', i, 0, 1)
  {
    ent', lasti', es' := ent, lasti, es;
    OtherWords(us, i);
    if !ent' && Reads(us, i, EXAMPLES) {
      ent', lasti' := true, i;
      es' := es' + [Entity(i, |EXAMPLES|, Bold)];
    }
    if !ent' && Reads(us, i, MORE_EXAMPLES) {
      ent', lasti' := true, i;
      es' := es' + [Entity(i, |MORE_EXAMPLES|, Bold)];
    }
    if ent' && Reads(us, i, CLICK_TO_HIDE) {
      es' := es' + [Entity(lasti', i + (|CLICK_TO_HIDE| - 1) - lasti' + 1, Fold)];
      ent', lasti' := false, NOWHERE;
    }
    if es' != es {
      var e := es'[|es|];
      assert es' == es + [e];
      OnlyMore(es, e, Bold);
      OnlyMore(es, e, Fold);
      OnlyMore(es, e, Code);
      OnlyMore(es, e, Url);
    }
  }

  lemma OtherWords(us: seq<u16>, i: nat)
    ensures Headline(us, i).Some? ==> !Reads(us, i, CLICK_TO_HIDE)
  {
    if Reads(us, i, EXAMPLES) { assert us[i] == us[i..i + |EXAMPLES|][0]; }
    if Reads(us, i, MORE_EXAMPLES) { assert us[i] == us[i..i + |MORE_EXAMPLES|][0]; }
    if Reads(us, i, CLICK_TO_HIDE) { assert us[i] == us[i..i + |CLICK_TO_HIDE|][0]; }
  }

  lemma AtStart(us: seq<u16>, c: u16, kind: Kind)
    ensures Only([], kind) + Pairs(Left(us, c, 0, false, NOWHERE), kind) == Pairs(Marks(us, c, 0), kind)
    ensures Only([], kind) == []
  {
    assert Left(us, c, 0, false, NOWHERE) == Marks(us, c, 0);
  }

  lemma NothingInTurn()
    ensures InTurn([])
  {}

  lemma AtEnd(us: seq<u16>, c: u16, kind: Kind, ent: bool, lasti: nat)
    ensures Pairs(Left(us, c, |us|, ent, lasti), kind) == [] && Headlines(us, |us|, ent) == []
    ensures Folds(us, |us|, Open(ent, lasti)) == []
  {}

  method ExtraDecorationHelp(decoList: seq<Entity>, msgtxt: seq<byte>) returns (es: seq<Entity>)
    requires |msgtxt| < NOWHERE
    ensures exists added :: es == decoList + added && Lists(added, Transcode(msgtxt))
  {
    hide Transcode, Only, Headlines, Folds, Pairs, Marks, Left, InTurn, Adds;
    var us := GetC16Seq(msgtxt);
    var added: seq<Entity> := [];
    var i := 0;
    var entFold, entCode, entUrl := false, false, false;
    var lastiFold: nat, lastiCode: nat, lastiUrl: nat := NOWHERE, NOWHERE, NOWHERE;
    AtStart(us, CODE_MARK, Code);
    AtStart(us, URL_MARK, Url);
    AtStart(us, URL_MARK, Bold);
    AtStart(us, URL_MARK, Fold);
    NothingInTurn();
    while i < |us|
      invariant i <= |us|
      invariant (entFold ==> lastiFold < i) && (entCode ==> lastiCode < i) && (entUrl ==> lastiUrl < i)
      invariant InTurn(added) && Before(added, i, 0)
      invariant Only(added, Bold) + Headlines(us, i, entFold) == Headlines(us, 0, false)
      invariant Only(added, Fold) + Folds(us, i, Open(entFold, lastiFold)) == Folds(us, 0, None)
      invariant Only(added, Code) + Pairs(Left(us, CODE_MARK, i, entCode, lastiCode), Code) == Pairs(Marks(us, CODE_MARK, 0), Code)
      invariant Only(added, Url) + Pairs(Left(us, URL_MARK, i, entUrl, lastiUrl), Url) == Pairs(Marks(us, URL_MARK, 0), Url)
    {
      ghost var before := added;
      entFold, lastiFold, added := FoldStep(us, i, entFold, lastiFold, added);
      AddedInTurn(before, added, i, 0, 1);
      before := added;
      entCode, lastiCode, added := Toggle(us, CODE_MARK, Code, i, entCode, lastiCode, added);
      AddedInTurn(before, added, i, 2, 2);
      before := added;
      entUrl, lastiUrl, added := Toggle(us, URL_MARK, Url, i, entUrl, lastiUrl, added);
      AddedInTurn(before, added, i, 3, 3);
      i := i + 1;
    }
    AtEnd(us, CODE_MARK, Code, entCode, lastiCode);
    AtEnd(us, URL_MARK, Url, entUrl, lastiUrl);
    AtEnd(us, URL_MARK, Url, entFold, lastiFold);
    es := decoList + added;
    assert Lists(added, us);
  }

  // ---- what is listed fits ----

  predicate InRange(es: seq<Entity>, n: nat) {
    forall k | 0 <= k < |es| :: es[k].off + es[k].len <= n
  }

  predicate Disjoint(es: seq<Entity>) {
    forall j, k | 0 <= j < k < |es| :: es[j].off + es[j].len <= es[k].off
  }

  predicate From(es: seq<Entity>, i: nat) {
    forall k | 0 <= k < |es| :: i <= es[k].off
  }

  predicate Increasing(ms: seq<nat>, from: nat, n: nat) {
    (forall k | 0 <= k < |ms| :: from <= ms[k] < n) && forall j, k | 0 <= j < k < |ms| :: ms[j] < ms[k]
  }

  lemma {:induction false} MarksIncrease(us: seq<u16>, c: u16, i: nat)
    ensures Increasing(Marks(us, c, i), i, |us|)
    ensures forall k | i <= k < |us| :: us[k] == c <==> k in Marks(us, c, i)
    decreases |us| - i
  {
    if i < |us| { MarksIncrease(us, c, i + 1); }
  }

  lemma {:induction false} PairsFit(ms: seq<nat>, from: nat, n: nat, kind: Kind)
    requires Increasing(ms, from, n)
    ensures var es := Pairs(ms, kind); InRange(es, n) && Disjoint(es) && From(es, from)
    decreases |ms|
  {
    if |ms| >= 2 {
      PairsFit(ms[2..], ms[1] + 1, n, kind);
    }
  }

  lemma UnitOf(us: seq<u16>, i: nat, p: seq<u16>, k: nat)
    requires Reads(us, i, p) && k < |p|
    ensures us[i + k] == p[k]
  {
    assert us[i + k] == us[i..i + |p|][k];
  }

  /** No headline begins inside the closing words. */
  lemma NoHeadline(us: seq<u16>, i: nat, k: nat)
    requires Reads(us, i, CLICK_TO_HIDE) && 0 < k < |CLICK_TO_HIDE|
    ensures Headline(us, i + k).None?
  {
    UnitOf(us, i, CLICK_TO_HIDE, k);
    UnitOf(us, i, CLICK_TO_HIDE, 14);
    if Reads(us, i + k, EXAMPLES) {
      UnitOf(us, i + k, EXAMPLES, 1);
      UnitOf(us, i + k, EXAMPLES, 0);
    }
    if Reads(us, i + k, MORE_EXAMPLES) {
      UnitOf(us, i + k, MORE_EXAMPLES, 0);
    }
  }

  lemma {:induction false} NothingInside(us: seq<u16>, i: nat, k: nat)
    requires Reads(us, i, CLICK_TO_HIDE) && 0 < k <= |CLICK_TO_HIDE|
    ensures Folds(us, i + k, None) == Folds(us, i + |CLICK_TO_HIDE|, None)
    decreases |CLICK_TO_HIDE| - k
  {
    if k < |CLICK_TO_HIDE| {
      NoHeadline(us, i, k);
      NothingInside(us, i, k + 1);
    }
  }

  lemma {:induction false} FoldsFit(us: seq<u16>, i: nat, begi: Option<nat>)
    requires begi.Some? ==> begi.value < i
    ensures var es := Folds(us, i, begi);
      InRange(es, |us|) && Disjoint(es) && From(es, if begi.Some? then begi.value else i)
    decreases |us| - i
  {
    hide Headline;
    if i < |us| {
      match begi
      case None => FoldsFit(us, i + 1, if Headline(us, i).Some? then Some(i) else None);
      case Some(b) =>
        if Reads(us, i, CLICK_TO_HIDE) {
          NothingInside(us, i, 1);
          FoldsFit(us, i + |CLICK_TO_HIDE|, None);
        } else {
          FoldsFit(us, i + 1, begi);
        }
    }
  }

  /** No closing words begin inside a headline. */
  lemma NoClosing(us: seq<u16>, i: nat, k: nat)
    requires Headline(us, i).Some? && 0 < k < Headline(us, i).value
    ensures !Reads(us, i + k, CLICK_TO_HIDE)
  {
    var p := if Reads(us, i, EXAMPLES) then EXAMPLES else MORE_EXAMPLES;
    UnitOf(us, i, p, k);
    if Reads(us, i + k, CLICK_TO_HIDE) { UnitOf(us, i + k, CLICK_TO_HIDE, 0); }
  }

  lemma {:induction false} HeadlinePassed(us: seq<u16>, i: nat, k: nat)
    requires Headline(us, i).Some? && 0 < k <= Headline(us, i).value
    ensures Headlines(us, i + k, true) == Headlines(us, i + Headline(us, i).value, true)
    decreases Headline(us, i).value - k
  {
    if k < Headline(us, i).value {
      NoClosing(us, i, k);
      HeadlinePassed(us, i, k + 1);
    }
  }

  lemma {:induction false} HeadlinesFit(us: seq<u16>, i: nat, inFold: bool)
    ensures var es := Headlines(us, i, inFold); InRange(es, |us|) && Disjoint(es) && From(es, i)
    decreases |us| - i
  {
    hide Reads;
    if i < |us| {
      if inFold {
        HeadlinesFit(us, i + 1, !Reads(us, i, CLICK_TO_HIDE));
      } else if Headline(us, i).None? {
        HeadlinesFit(us, i + 1, false);
      } else {
        HeadlineFits(us, i);
        HeadlinePassed(us, i, 1);
        HeadlinesFit(us, i + Headline(us, i).value, true);
      }
    }
  }

  lemma HeadlineFits(us: seq<u16>, i: nat)
    requires Headline(us, i).Some?
    ensures 0 < Headline(us, i).value && i + Headline(us, i).value <= |us|
  {}

  lemma {:induction false} OnlyHolds(es: seq<Entity>, k: nat)
    requires k < |es|
    ensures es[k] in Only(es, es[k].kind)
  {
    if k < |es| - 1 { OnlyHolds(es[..|es| - 1], k); }
  }

  /** Whatever the text, every entity listed lies inside it, and no two of a kind overlap. */
  lemma HelpEntitiesFit(es: seq<Entity>, us: seq<u16>)
    requires Lists(es, us)
    ensures InRange(es, |us|)
    ensures forall kind: Kind :: Disjoint(Only(es, kind))
  {
    HeadlinesFit(us, 0, false);
    FoldsFit(us, 0, None);
    MarksIncrease(us, CODE_MARK, 0);
    MarksIncrease(us, URL_MARK, 0);
    PairsFit(Marks(us, CODE_MARK, 0), 0, |us|, Code);
    PairsFit(Marks(us, URL_MARK, 0), 0, |us|, Url);
    forall k | 0 <= k < |es|
      ensures es[k].off + es[k].len <= |us|
    {
      OnlyHolds(es, k);
      assert InRange(Only(es, es[k].kind), |us|);
    }
  }

  predicate SameKinds(es: seq<Entity>, fs: seq<Entity>) { forall kind: Kind :: Only(es, kind) == Only(fs, kind) }

  lemma {:induction false} OnlyFrom(es: seq<Entity>, kind: Kind)
    ensures forall e | e in Only(es, kind) :: e in es
  {
    if es != [] { OnlyFrom(es[..|es| - 1], kind); }
  }

  lemma LastIsLast(es: seq<Entity>, fs: seq<Entity>)
    requires SameKinds(es, fs) && InTurn(es) && InTurn(fs) && es != []
    ensures fs != [] && fs[|fs| - 1] == es[|es| - 1]
  {
    var e := es[|es| - 1];
    OnlyHolds(es, |es| - 1);
    OnlyFrom(fs, e.kind);
    assert e in fs;
    var f := fs[|fs| - 1];
    OnlyHolds(fs, |fs| - 1);
    OnlyFrom(es, f.kind);
    assert f in es;
    assert e == f || Earlier(e, f);
    assert e == f || Earlier(f, e);
  }

  lemma {:induction false} KindsFixList(es: seq<Entity>, fs: seq<Entity>)
    requires SameKinds(es, fs) && InTurn(es) && InTurn(fs)
    ensures es == fs
    decreases |es|
  {
    if es == [] {
      if fs != [] { LastIsLast(fs, es); }
    } else {
      LastIsLast(es, fs);
      var m, n := |es| - 1, |fs| - 1;
      assert es == es[..m] + [es[m]] && fs == fs[..n] + [fs[n]];
      forall kind: Kind
        ensures Only(es[..m], kind) == Only(fs[..n], kind)
      {
        OnlyMore(es[..m], es[m], kind);
        OnlyMore(fs[..n], fs[n], kind);
        if es[m].kind == kind {
          assert Only(es[..m], kind) == Only(es, kind)[..|Only(es, kind)| - 1];
          assert Only(fs[..n], kind) == Only(fs, kind)[..|Only(fs, kind)| - 1];
        } else {
          assert Only(es[..m], kind) + [] == Only(es[..m], kind);
          assert Only(fs[..n], kind) + [] == Only(fs[..n], kind);
        }
      }
      KindsFixList(es[..m], fs[..n]);
    }
  }

  /** The kinds and the turns together fix the list: two lists of the same text are the same. */
  lemma ListFixed(es: seq<Entity>, fs: seq<Entity>, us: seq<u16>)
    requires Lists(es, us) && Lists(fs, us)
    ensures es == fs
  {
    hide Only, Headlines, Folds, Pairs, InTurn, Marks;
    forall kind: Kind
      ensures Only(es, kind) == Only(fs, kind)
    {
      match kind
      case Bold =>
      case Fold =>
      case Code =>
      case Url =>
    }
    KindsFixList(es, fs);
  }

  lemma PairsFrom(ms: seq<nat>, kind: Kind, e: Entity)
    requires |ms| >= 2 && ms[0] < ms[1]
    ensures e in Pairs(ms, kind) <==> (ms[0] > 0 && e == Entity(ms[0], ms[1] - ms[0] + 1, kind)) || e in Pairs(ms[2..], kind)
  {}

  lemma TailIncreases(ms: seq<nat>, from: nat, n: nat)
    requires Increasing(ms, from, n) && |ms| >= 2
    ensures Increasing(ms[2..], ms[1] + 1, n)
  {}

  /** The k-th pair of marks is taken if and only if its first mark is not the first unit. */
  lemma {:induction false} PairSetExactly(ms: seq<nat>, from: nat, n: nat, kind: Kind, k: nat)
    requires Increasing(ms, from, n) && 2 * k + 1 < |ms|
    ensures Entity(ms[2 * k], ms[2 * k + 1] - ms[2 * k] + 1, kind) in Pairs(ms, kind) <==> ms[2 * k] > 0
    decreases |ms|
  {
    hide Pairs;
    PairsFrom(ms, kind, Entity(ms[2 * k], ms[2 * k + 1] - ms[2 * k] + 1, kind));
    TailIncreases(ms, from, n);
    PairsFit(ms[2..], ms[1] + 1, n, kind);
    if k > 0 {
      assert ms[2..][2 * (k - 1)] == ms[2 * k] && ms[2..][2 * (k - 1) + 1] == ms[2 * k + 1];
      PairSetExactly(ms[2..], ms[1] + 1, n, kind, k - 1);
    }
  }

  /** The marks of code spans and of links. */
  function MarkOf(kind: Kind): u16
    requires kind.Code? || kind.Url?
  {
    if kind.Code? then 0x2002 else 0x2003
  }

  lemma ListedIfOfItsKind(es: seq<Entity>, e: Entity)
    ensures e in es <==> e in Only(es, e.kind)
  {
    OnlyFrom(es, e.kind);
    if e in es {
      var k :| 0 <= k < |es| && es[k] == e;
      OnlyHolds(es, k);
    }
  }

  /**
    The k-th code span or link of a text, from one of its marks to the next, is listed if and only if it
    does not begin the text.
  */
  lemma SpanSetExactly(es: seq<Entity>, us: seq<u16>, kind: Kind, k: nat)
    requires Lists(es, us) && (kind.Code? || kind.Url?) && 2 * k + 1 < |Marks(us, MarkOf(kind), 0)|
    ensures var ms := Marks(us, MarkOf(kind), 0);
      && ms[2 * k] < ms[2 * k + 1] < |us| && us[ms[2 * k]] == us[ms[2 * k + 1]] == MarkOf(kind)
      && (Entity(ms[2 * k], ms[2 * k + 1] - ms[2 * k] + 1, kind) in es <==> ms[2 * k] != 0)
  {
    hide Only, Headlines, Folds, Pairs, InTurn;
    MarksIncrease(us, MarkOf(kind), 0);
    var ms := Marks(us, MarkOf(kind), 0);
    assert ms[2 * k] in ms && ms[2 * k + 1] in ms;
    PairSetExactly(ms, 0, |us|, kind, k);
    ListedIfOfItsKind(es, Entity(ms[2 * k], ms[2 * k + 1] - ms[2 * k] + 1, kind));
  }

  /** So the first code span or link is listed if and only if the text does not begin with its mark. */
  lemma FirstSpanPassedOver(es: seq<Entity>, us: seq<u16>, kind: Kind)
    requires Lists(es, us) && (kind.Code? || kind.Url?) && |Marks(us, MarkOf(kind), 0)| >= 2
    ensures var ms := Marks(us, MarkOf(kind), 0);
      ms[0] < ms[1] < |us| && (Entity(ms[0], ms[1] - ms[0] + 1, kind) in es <==> us[0] != MarkOf(kind))
  {
    hide Lists;
    MarksIncrease(us, MarkOf(kind), 0);
    SpanSetExactly(es, us, kind, 0);
    assert us[0] == MarkOf(kind) ==> 0 in Marks(us, MarkOf(kind), 0);
  }

  // ---- exactly which entities there are ----

  function Units(s: string): seq<u16>
    requires forall i | 0 <= i < |s| :: s[i] < '\U{80}'
  {
    seq(|s|, i requires 0 <= i < |s| => s[i] as int)
  }

  /** The words as they are read. */
  lemma WordsSpelled()
    ensures EXAMPLES == Units("EXAMPLES :") && MORE_EXAMPLES == Units("MORE EXAMPLES :")
    ensures CLICK_TO_HIDE == Units("<CLICK-TO-HIDE>") && CODE_MARK == 0x2002 && URL_MARK == 0x2003
  {}

  predicate NoClosingIn(us: seq<u16>, from: nat, to: nat) {
    forall k | from <= k < to :: !Reads(us, k, CLICK_TO_HIDE)
  }

  /** A headline stands before i, and no closing words since. */
  ghost predicate InFold(us: seq<u16>, i: nat) {
    exists j | 0 <= j < i :: Headline(us, j).Some? && NoClosingIn(us, j, i)
  }

  /** The headline at b opens a fold: none is open there. */
  ghost predicate OpensAt(us: seq<u16>, b: nat) { Headline(us, b).Some? && !InFold(us, b) }

  /** The fold opened at b is closed by the words at c, the first ones behind b. */
  ghost predicate FoldFrom(us: seq<u16>, b: nat, c: nat) {
    b < c && OpensAt(us, b) && Reads(us, c, CLICK_TO_HIDE) && NoClosingIn(us, b, c)
  }

  lemma FoldGoesOn(us: seq<u16>, i: nat)
    ensures InFold(us, i) ==> (InFold(us, i + 1) <==> !Reads(us, i, CLICK_TO_HIDE))
    ensures !InFold(us, i) ==> (InFold(us, i + 1) <==> Headline(us, i).Some?)
  {
    hide Headline, Reads;
    OtherWords(us, i);
    if InFold(us, i) && !Reads(us, i, CLICK_TO_HIDE) {
      var j :| 0 <= j < i && Headline(us, j).Some? && NoClosingIn(us, j, i);
      assert NoClosingIn(us, j, i + 1);
    }
    if Headline(us, i).Some? {
      assert NoClosingIn(us, i, i + 1);
    }
    if InFold(us, i + 1) && !InFold(us, i) {
      var j :| 0 <= j < i + 1 && Headline(us, j).Some? && NoClosingIn(us, j, i + 1);
      assert NoClosingIn(us, j, i);
    }
  }

  lemma {:induction false} HeadlinesExactly(us: seq<u16>, i: nat, e: Entity)
    ensures e in Headlines(us, i, InFold(us, i)) <==>
      i <= e.off && e.kind == Bold && OpensAt(us, e.off) && Headline(us, e.off) == Some(e.len)
    decreases |us| - i
  {
    hide Reads, InFold, Headline;
    if i >= |us| {
      NoHeadlineBehind(us, e.off);
    } else {
      FoldGoesOn(us, i);
      HeadlinesExactly(us, i + 1, e);
    }
  }

  lemma NoHeadlineBehind(us: seq<u16>, i: nat)
    ensures i >= |us| ==> Headline(us, i).None?
  {}

  lemma OneOpen(us: seq<u16>, b: nat, d: nat, i: nat)
    requires OpensAt(us, b) && OpensAt(us, d) && b < i && d < i && NoClosingIn(us, b, i) && NoClosingIn(us, d, i)
    ensures b == d
  {
    hide Headline, Reads;
    assert NoClosingIn(us, b, d);
    assert NoClosingIn(us, d, b);
  }

  /** What the scanner remembers at i is the fold that is open there. */
  ghost predicate Remembers(us: seq<u16>, i: nat, begi: Option<nat>) {
    match begi
    case None => !InFold(us, i)
    case Some(b) => b < i && OpensAt(us, b) && NoClosingIn(us, b, i)
  }

  ghost predicate IsFold(us: seq<u16>, i: nat, e: Entity) {
    e.kind == Fold && exists c | i <= c :: FoldFrom(us, e.off, c) && e.off + e.len == c + |CLICK_TO_HIDE|
  }

  lemma {:induction false} FoldsFromExactly(us: seq<u16>, i: nat, begi: Option<nat>, e: Entity)
    requires Remembers(us, i, begi)
    ensures e in Folds(us, i, begi) <==> IsFold(us, i, e)
    decreases |us| - i
  {
    hide Reads, InFold, Headline, FoldFrom;
    if i >= |us| {
      assert !IsFold(us, i, e) by { NoFoldBehind(us, i, e); }
    } else {
      FoldGoesOn(us, i);
      ClosesHere(us, i, begi, e);
      match begi
      case None =>
        var next := if Headline(us, i).Some? then Some(i) else None;
        assert Headline(us, i).Some? ==> NoClosingIn(us, i, i + 1) by { OtherWords(us, i); }
        FoldsFromExactly(us, i + 1, next, e);
      case Some(b) =>
        assert InFold(us, i) by { IsInFold(us, b, i); }
        FoldsFromExactly(us, i + 1, if Reads(us, i, CLICK_TO_HIDE) then None else begi, e);
    }
  }

  lemma IsInFold(us: seq<u16>, b: nat, i: nat)
    requires b < i && Headline(us, b).Some? && NoClosingIn(us, b, i)
    ensures InFold(us, i)
  {}

  lemma NoFoldBehind(us: seq<u16>, i: nat, e: Entity)
    requires i >= |us|
    ensures !IsFold(us, i, e)
  {}

  predicate EndsAt(us: seq<u16>, i: nat, begi: Option<nat>, e: Entity) {
    begi.Some? && Reads(us, i, CLICK_TO_HIDE) && e.kind == Fold && e.off == begi.value && e.off + e.len == i + |CLICK_TO_HIDE|
  }

  /** The folds that end at i or later are those that end later and the one that ends at i. */
  lemma ClosesHere(us: seq<u16>, i: nat, begi: Option<nat>, e: Entity)
    requires Remembers(us, i, begi)
    ensures IsFold(us, i, e) <==> IsFold(us, i + 1, e) || EndsAt(us, i, begi, e)
  {
    hide Reads, Headline;
    if IsFold(us, i, e) && !IsFold(us, i + 1, e) {
      assert FoldFrom(us, e.off, i);
      assert InFold(us, i) by { IsInFold(us, e.off, i); }
      OneOpen(us, e.off, begi.value, i);
    }
    if begi.Some? && Reads(us, i, CLICK_TO_HIDE) {
      assert FoldFrom(us, begi.value, i);
    }
  }

  /** A headline is set in bold if and only if no fold is open where it stands. */
  lemma BoldExactly(es: seq<Entity>, us: seq<u16>, off: nat, len: nat)
    requires Lists(es, us)
    ensures Entity(off, len, Bold) in es <==> OpensAt(us, off) && Headline(us, off) == Some(len)
  {
    hide Headline, Folds, Pairs, Marks, Only, Reads;
    assert !InFold(us, 0);
    HeadlinesExactly(us, 0, Entity(off, len, Bold));
    ListedIfOfItsKind(es, Entity(off, len, Bold));
  }

  /** A fold is listed if and only if it goes from such a headline to the end of the next closing words. */
  lemma FoldExactly(es: seq<Entity>, us: seq<u16>, off: nat, len: nat)
    requires Lists(es, us)
    ensures Entity(off, len, Fold) in es <==> len >= |CLICK_TO_HIDE| && FoldFrom(us, off, off + len - |CLICK_TO_HIDE|)
  {
    hide Headline, Headlines, Pairs, Marks, Only, Reads;
    assert !InFold(us, 0);
    FoldsFromExactly(us, 0, None, Entity(off, len, Fold));
    ListedIfOfItsKind(es, Entity(off, len, Fold));
  }

  /** The entity goes from the 2k-th mark, which is not the first unit, to the one behind it. */
  predicate KthSpan(ms: seq<nat>, kind: Kind, k: nat, e: Entity) {
    2 * k + 1 < |ms| && e.kind == kind && 0 < e.off == ms[2 * k] && e.off + e.len == ms[2 * k + 1] + 1
  }

  lemma {:induction false} PairsOnly(ms: seq<nat>, kind: Kind, e: Entity)
    requires forall j, k | 0 <= j < k < |ms| :: ms[j] < ms[k]
    ensures e in Pairs(ms, kind) ==> exists k: nat :: KthSpan(ms, kind, k, e)
    decreases |ms|
  {
    hide Pairs;
    if |ms| < 2 {
      NoPairs(ms, kind);
    } else if e in Pairs(ms, kind) {
      PairsFrom(ms, kind, e);
      if e in Pairs(ms[2..], kind) {
        PairsOnly(ms[2..], kind, e);
        var k: nat :| KthSpan(ms[2..], kind, k, e);
        assert KthSpan(ms, kind, k + 1, e);
      } else {
        assert KthSpan(ms, kind, 0, e);
      }
    }
  }

  lemma NoPairs(ms: seq<nat>, kind: Kind)
    ensures |ms| < 2 ==> Pairs(ms, kind) == []
  {}

  /** And every code span or link listed goes from a mark with an even number of marks before it to the next mark. */
  lemma SpansOnly(es: seq<Entity>, us: seq<u16>, e: Entity)
    requires Lists(es, us) && (e.kind.Code? || e.kind.Url?) && e in es
    ensures exists k: nat :: KthSpan(Marks(us, MarkOf(e.kind), 0), e.kind, k, e)
  {
    hide Only, Headlines, Folds, Pairs, InTurn, Marks;
    MarksIncrease(us, MarkOf(e.kind), 0);
    ListedIfOfItsKind(es, e);
    PairsOnly(Marks(us, MarkOf(e.kind), 0), e.kind, e);
  }
}
