/**
  Header positions (src/tg_msg.cc): a forwarded message is written with five headers in the host's
  language, and a scanner over its UTF-16 units is to find them again so that they can be set in bold.
*/
module Decor {
  import opened Prelude
  import opened Utf

  datatype Lang = Unknown | EnUs | EnGb | EnHk | EnAu | ZhHk | ZhCn | OtherLang

  predicate English(l: Lang) { l.EnUs? || l.EnGb? || l.EnHk? || l.EnAu? }
  predicate Chinese(l: Lang) { l.ZhHk? || l.ZhCn? }

  datatype Field = Chat | Sender | Content | Date | Id

  const FIELDS: seq<Field> := [Chat, Sender, Content, Date, Id]

  // ---- writing ----

  /** The two characters between the brackets of a Chinese header. */
  function Label(l: Lang, f: Field): (u16, u16)
    requires Chinese(l)
  {
    match f
    case Chat => (0x7FA4, if l.ZhHk? then 0x7D44 else 0x7EC4)
    case Sender => (0x7528, if l.ZhHk? then 0x6236 else 0x6237)
    case Content => (if l.ZhHk? then 0x8A0A else 0x4FE1, 0x606F)
    case Date => (if l.ZhHk? then 0x6642 else 0x65F6, if l.ZhHk? then 0x9593 else 0x95F4)
    case Id => (if l.ZhHk? then 0x6A19 else 0x6807, if l.ZhHk? then 0x8B58 else 0x8BC6)
  }

  function Sign(f: Field): nat {
    match f
    case Chat => 0x1_F4A1
    case Sender => 0x2709
    case Content => 0x1_F4AC
    case Date => 0x1_F554
    case Id => 0x267E
  }

  /** The code points of a header, as to_locale_string writes it. */
  function Header(l: Lang, f: Field): (cps: seq<nat>)
    ensures Text(cps) && NoNul(cps)
  {
    if Chinese(l) then [0x5B, 0x20, Label(l, f).0, Label(l, f).1, 0x20, 0x5D, 0x20]
    else [Sign(f), 0x20, 0x7C, 0x20]
  }

  /** The text of the first k fields, each behind its header and before a newline. */
  function Written(l: Lang, fields: seq<seq<nat>>, k: nat): seq<nat>
    requires |fields| == 5 && k <= 5
  {
    if k == 0 then [] else Written(l, fields, k - 1) + Header(l, FIELDS[k - 1]) + fields[k - 1] + [0x0A]
  }

  function WrittenBytes(l: Lang, fields: seq<seq<byte>>, k: nat): seq<byte>
    requires |fields| == 5 && k <= 5
  {
    if k == 0 then [] else WrittenBytes(l, fields, k - 1) + Utf8(Header(l, FIELDS[k - 1])) + fields[k - 1] + [0x0A]
  }

  method ToLocaleString(l: Lang, title: seq<byte>, sender: seq<byte>, txt: seq<byte>, tstamp: seq<byte>, id: seq<byte>)
    returns (ret: seq<byte>)
    ensures ret == WrittenBytes(l, [title, sender, txt, tstamp, id], 5)
  {
    hide Utf8;
    ret := [];
    ret := ret + Utf8(Header(l, Chat)) + title + [0x0A];
    ret := ret + Utf8(Header(l, Sender)) + sender + [0x0A];
    ret := ret + Utf8(Header(l, Content)) + txt + [0x0A];
    ret := ret + Utf8(Header(l, Date)) + tstamp + [0x0A];
    ret := ret + Utf8(Header(l, Id)) + id + [0x0A];
    ghost var fs := [title, sender, txt, tstamp, id];
    assert WrittenBytes(l, fs, 3) == WrittenBytes(l, fs, 2) + Utf8(Header(l, Content)) + txt + [0x0A];
    assert WrittenBytes(l, fs, 1) == WrittenBytes(l, fs, 0) + Utf8(Header(l, Chat)) + title + [0x0A];
  }

  // ---- finding ----

  /** The units get_endi_* look for, from the first to the last; none in other languages. */
  function Pattern(l: Lang, f: Field): seq<u16> {
    if English(l) then
      match f
      case Chat => [0xD83D, 0xDCA1, 0x20, 0x5B, 0x20]
      case Sender => [0x7D44, 0x20, 0x5B, 0x20]
      case Content => [0xD83D, 0xDCAC, 0x20, 0x5B, 0x20]
      case Date => [0xD83D, 0xDD54, 0x20, 0x5B, 0x20]
      case Id => [0x267E, 0x20, 0x5B, 0x20]
    else if Chinese(l) then [0x5B, 0x20, Label(l, f).0, Label(l, f).1, 0x20, 0x5D]
    else []
  }

  /** The pattern of field f begins at i. */
  predicate FoundAt(l: Lang, f: Field, us: seq<u16>, i: nat) {
    var p := Pattern(l, f);
    p != [] && i + |p| <= |us| && us[i..i + |p|] == p
  }

  /** The offset of a header's last unit from its first. */
  function GetEndi(l: Lang, f: Field, us: seq<u16>, begi: nat): Option<nat>
    requires begi < |us|
  {
    if FoundAt(l, f, us, begi) then Some(|Pattern(l, f)| - 1) else None
  }

  datatype Pos = Pos(begi: nat, len: nat)

  /** Every position is a header that is there, and all of those before n are listed, in order and apart. */
  predicate Finds(l: Lang, us: seq<u16>, n: nat, ps: seq<Pos>) {
    && (forall k | 0 <= k < |ps| :: Listed(l, us, n, ps[k]))
    && (forall f: Field, i | 0 <= i < n && FoundAt(l, f, us, i) :: Pos(i, |Pattern(l, f)|) in ps)
    && Apart(ps)
  }

  predicate Listed(l: Lang, us: seq<u16>, n: nat, p: Pos) {
    p.begi < n && exists f: Field :: FoundAt(l, f, us, p.begi) && p.len == |Pattern(l, f)|
  }

  predicate Apart(ps: seq<Pos>) {
    forall j, k | 0 <= j < k < |ps| :: ps[j].begi + ps[j].len <= ps[k].begi
  }

  lemma SameHeader(l: Lang, f: Field, g: Field, us: seq<u16>, i: nat)
    requires FoundAt(l, f, us, i) && FoundAt(l, g, us, i)
    ensures f == g
  {
    var p, q := Pattern(l, f), Pattern(l, g);
    assert forall k | 0 <= k < |p| :: us[i + k] == us[i..i + |p|][k] == p[k];
    assert forall k | 0 <= k < |q| :: us[i + k] == us[i..i + |q|][k] == q[k];
    assert p[0] == q[0] && p[1] == q[1] && p[2] == q[2] && p[3] == q[3];
  }

  lemma NotInside(l: Lang, f: Field, g: Field, us: seq<u16>, i: nat, k: nat)
    requires FoundAt(l, f, us, i) && 0 < k < |Pattern(l, f)|
    ensures Pattern(l, g) != [] && us[i + k] != Pattern(l, g)[0]
  {
    assert us[i + k] == us[i..i + |Pattern(l, f)|][k];
  }

  /** Two headers do not overlap, and no two fields have the same header. */
  lemma HeadersApart(l: Lang, f: Field, g: Field, us: seq<u16>, i: nat, j: nat)
    requires FoundAt(l, f, us, i) && FoundAt(l, g, us, j) && i <= j
    ensures i == j ==> f == g
    ensures i < j ==> i + |Pattern(l, f)| <= j
  {
    hide Pattern;
    if i == j {
      SameHeader(l, f, g, us, i);
    } else if j < i + |Pattern(l, f)| {
      assert us[j] == us[j..j + |Pattern(l, g)|][0];
      NotInside(l, f, g, us, i, j - i);
    }
  }

  /** The positions among the fields from the k-th on that are found at i: at most one. */
  method Probe(l: Lang, us: seq<u16>, i: nat) returns (ps: seq<Pos>)
    requires i < |us|
    ensures |ps| <= 1
    ensures forall f: Field | FoundAt(l, f, us, i) :: ps == [Pos(i, |Pattern(l, f)|)]
    ensures ps != [] ==> exists f: Field :: FoundAt(l, f, us, i) && ps == [Pos(i, |Pattern(l, f)|)]
  {
    hide Pattern, FoundAt;
    ps := [];
    forall f: Field, g: Field | FoundAt(l, f, us, i) && FoundAt(l, g, us, i)
      ensures f == g
    {
      HeadersApart(l, f, g, us, i, i);
    }
    var endi := GetEndi(l, Chat, us, i);
    if endi.Some? { ps := ps + [Pos(i, endi.value + 1)]; }
    endi := GetEndi(l, Sender, us, i);
    if endi.Some? { ps := ps + [Pos(i, endi.value + 1)]; }
    endi := GetEndi(l, Content, us, i);
    if endi.Some? { ps := ps + [Pos(i, endi.value + 1)]; }
    endi := GetEndi(l, Date, us, i);
    if endi.Some? { ps := ps + [Pos(i, endi.value + 1)]; }
    endi := GetEndi(l, Id, us, i);
    if endi.Some? { ps := ps + [Pos(i, endi.value + 1)]; }
  }

  lemma FindsMore(l: Lang, us: seq<u16>, n: nat, ps: seq<Pos>, more: seq<Pos>)
    requires n < |us| && Finds(l, us, n, ps)
    requires |more| <= 1 && forall f: Field | FoundAt(l, f, us, n) :: more == [Pos(n, |Pattern(l, f)|)]
    requires more != [] ==> exists f: Field :: FoundAt(l, f, us, n) && more == [Pos(n, |Pattern(l, f)|)]
    ensures Finds(l, us, n + 1, ps + more)
  {
    hide Pattern, FoundAt;
    var all := ps + more;
    forall k | 0 <= k < |all|
      ensures Listed(l, us, n + 1, all[k])
    {
      if k < |ps| { assert Listed(l, us, n, ps[k]); }
    }
    forall j, k | 0 <= j < k < |all|
      ensures all[j].begi + all[j].len <= all[k].begi
    {
      if k == |ps| {
        assert Listed(l, us, n, ps[j]);
        var f: Field :| FoundAt(l, f, us, all[j].begi) && all[j].len == |Pattern(l, f)|;
        var g: Field :| FoundAt(l, g, us, n);
        HeadersApart(l, f, g, us, all[j].begi, n);
      }
    }
  }

  // ---- get_decor_pos ----

  /** The units before the closing NUL, unless some bytes are no character. */
  function UnitsOf(str: seq<byte>): Option<seq<u16>> {
    var us := Transcode(str + [0]);
    if us != [] && us[|us| - 1] == 0 then Some(us[..|us| - 1]) else None
  }

  lemma UnitsNotNul(s: seq<byte>)
    ensures var r := Mbrtoc16(Initial, s); (r.ret > 0 ==> r.unit != 0 && 0 !in PendingUnits(r.state)) && (r.ret == 0 ==> r.unit == 0)
  {}

  method DecodeUnits(str: seq<byte>) returns (r: Option<seq<u16>>)
    ensures r == UnitsOf(str)
  {
    hide Mbrtoc16, Transcode;
    var s := str + [0];
    var n := |s|;
    var cuseq: seq<u16> := [];
    var ptr, state := 0, Initial;
    assert s[0..] == s;
    while true
      invariant 0 <= ptr <= n && 0 !in cuseq && 0 !in PendingUnits(state)
      invariant Transcode(s) == cuseq + (PendingUnits(state) + Transcode(s[ptr..]))
      decreases 2 * (n - ptr) + |PendingUnits(state)|
    {
      OneCall(state, s[ptr..]);
      UnitsNotNul(s[ptr..]);
      var c := Mbrtoc16(state, s[ptr..]);
      state := c.state;
      if c.ret == 0 {
        assert Transcode(s) == cuseq + [0];
        break;
      }
      if c.ret == -3 {
        cuseq := cuseq + [c.unit];
      } else if c.ret == -2 {
        assert Transcode(s) == cuseq;
        return None;
      } else if c.ret == -1 {
        assert Transcode(s) == cuseq;
        return None;
      } else {
        assert s[ptr..][c.ret..] == s[ptr + c.ret..];
        cuseq := cuseq + [c.unit];
        ptr := ptr + c.ret;
      }
    }
    r := Some(cuseq);
  }

  /** The positions of a text: every header that is there, or none where the text cannot be read. */
  predicate DecorOf(l: Lang, str: seq<byte>, ps: seq<Pos>) {
    if l.Unknown? || UnitsOf(str).None? then ps == [] else Finds(l, UnitsOf(str).value, |UnitsOf(str).value|, ps)
  }

  method GetDecorPos(l: Lang, str: seq<byte>) returns (ret: seq<Pos>)
    ensures DecorOf(l, str, ret)
  {
    hide UnitsOf, Pattern, FoundAt;
    ret := [];
    if l.Unknown? {
      return;
    }
    var r := DecodeUnits(str);
    if r.None? {
      return;
    }
    var us := r.value;
    for i := 0 to |us|
      invariant Finds(l, us, i, ret)
    {
      var more := Probe(l, us, i);
      FindsMore(l, us, i, ret, more);
      ret := ret + more;
    }
  }

  // ---- are the headers found? ----

  lemma EncodedCons(c: nat, cps: seq<nat>)
    requires Scalar(c) && Text(cps)
    ensures Text([c] + cps) && Utf8([c] + cps) == Encode8(c) + Utf8(cps) && Utf16([c] + cps) == Encode16(c) + Utf16(cps)
  {
    hide Encode8, Encode16;
    assert ([c] + cps)[1..] == cps;
  }

  lemma NothingEncoded()
    ensures Text([]) && Utf8([]) == [] && Utf16([]) == []
  {}

  lemma {:induction false} Utf8Append(a: seq<nat>, b: seq<nat>)
    requires Text(a) && Text(b)
    ensures Text(a + b) && Utf8(a + b) == Utf8(a) + Utf8(b) && Utf16(a + b) == Utf16(a) + Utf16(b)
  {
    hide Encode8, Encode16, Utf8, Utf16;
    if a == [] {
      NothingEncoded();
      assert a + b == b;
    } else {
      Utf8Append(a[1..], b);
      EncodedCons(a[0], a[1..]);
      EncodedCons(a[0], a[1..] + b);
      assert a == [a[0]] + a[1..];
      assert a + b == [a[0]] + (a[1..] + b);
    }
  }

  /** The fields of a message as TDLib hands them over: text without NUL. */
  predicate Fields(fields: seq<seq<nat>>) {
    |fields| == 5 && forall k | 0 <= k < 5 :: Text(fields[k]) && NoNul(fields[k])
  }

  function Encoded(fields: seq<seq<nat>>): (bs: seq<seq<byte>>)
    requires Fields(fields)
    ensures |bs| == 5
  {
    [Utf8(fields[0]), Utf8(fields[1]), Utf8(fields[2]), Utf8(fields[3]), Utf8(fields[4])]
  }

  lemma {:induction false} WrittenIsText(l: Lang, fields: seq<seq<nat>>, k: nat)
    requires Fields(fields) && k <= 5
    ensures Text(Written(l, fields, k)) && NoNul(Written(l, fields, k))
    ensures WrittenBytes(l, Encoded(fields), k) == Utf8(Written(l, fields, k))
  {
    hide Utf8, Header;
    if k > 0 {
      WrittenIsText(l, fields, k - 1);
      var a, h, x := Written(l, fields, k - 1), Header(l, FIELDS[k - 1]), fields[k - 1];
      NewlineIsByte();
      Utf8Append(a, h);
      Utf8Append(a + h, x);
      Utf8Append(a + h + x, [0x0A]);
      assert Encoded(fields)[k - 1] == Utf8(fields[k - 1]);
    } else {
      EmptyIsNoBytes();
    }
  }

  lemma NewlineIsByte()
    ensures Text([0x0A]) && Utf8([0x0A]) == [0x0A]
  {
    assert Utf8([]) == [];
  }

  lemma EmptyIsNoBytes()
    ensures Utf8([]) == []
  {}

  lemma NulStops()
    ensures Stops([0]) && StopUnits([0]) == [0]
  {}

  /** What get_decor_pos reads of a written message is its text in UTF-16. */
  lemma ReadsWritten(l: Lang, fields: seq<seq<nat>>)
    requires Fields(fields)
    ensures Text(Written(l, fields, 5))
    ensures UnitsOf(WrittenBytes(l, Encoded(fields), 5)) == Some(Utf16(Written(l, fields, 5)))
  {
    hide Written, WrittenBytes, Transcode, Utf8, Utf16, Text, NoNul, Decode8;
    WrittenIsText(l, fields, 5);
    NulStops();
    TranscodesText(Written(l, fields, 5), [0]);
  }

  lemma StopsBeforeNul(t: seq<byte>)
    requires Stops(t)
    ensures Stops(t + [0]) && StopUnits(t + [0]) == if t == [] || t[0] == 0 then [0] else []
  {
    if t != [] {
      var u := t + [0];
      assert u[0] == t[0];
      assert |t| > 1 ==> u[1] == t[1];
      assert |t| > 2 ==> u[2] == t[2];
      assert |t| > 3 ==> u[3] == t[3];
    }
  }

  /**
    Which texts are scanned at all, and as what: those that are well formed up to their end or their
    first NUL, as the UTF-16 of that; in any other nothing is looked for.
  */
  lemma UnitsExactly(cps: seq<nat>, t: seq<byte>)
    requires Text(cps) && NoNul(cps) && Stops(t)
    ensures UnitsOf(Utf8(cps) + t) == if t == [] || t[0] == 0 then Some(Utf16(cps)) else None
  {
    hide Transcode, Utf8, Utf16, Decode8;
    var str := Utf8(cps) + t;
    StopsBeforeNul(t);
    TranscodesText(cps, t + [0]);
    assert str + [0] == Utf8(cps) + (t + [0]);
    NoNulUnits(cps);
    var us := Utf16(cps);
    assert us != [] ==> us[|us| - 1] in us;
    assert us + [] == us;
  }

  lemma {:induction false} NoNulUnits(cps: seq<nat>)
    requires Text(cps) && NoNul(cps)
    ensures 0 !in Utf16(cps)
  {
    if cps != [] {
      assert cps[0] in cps;
      NoNulUnits(cps[1..]);
    }
  }

  /** Where the header of the k-th field begins, in UTF-16 units. */
  function HeaderPos(l: Lang, fields: seq<seq<nat>>, k: nat): nat
    requires Fields(fields) && k < 5
  {
    WrittenIsText(l, fields, k);
    |Utf16(Written(l, fields, k))|
  }

  lemma Regroup(a: seq<nat>, b: seq<nat>, h: seq<nat>, x: seq<nat>, n: seq<nat>)
    ensures (a + b) + h + x + n == a + (b + h + x + n)
  {}

  /** A message goes on behind what was written of it. */
  lemma {:induction false} WrittenGoesOn(l: Lang, fields: seq<seq<nat>>, j: nat, k: nat) returns (rest: seq<nat>)
    requires Fields(fields) && j <= k <= 5
    ensures Text(rest) && Written(l, fields, k) == Written(l, fields, j) + rest
  {
    hide Header;
    if j == k {
      rest := [];
    } else {
      var more := WrittenGoesOn(l, fields, j, k - 1);
      rest := more + Header(l, FIELDS[k - 1]) + fields[k - 1] + [0x0A];
      Regroup(Written(l, fields, j), more, Header(l, FIELDS[k - 1]), fields[k - 1], [0x0A]);
    }
  }

  lemma InTheMiddle(a: seq<nat>, h: seq<nat>, more: seq<nat>)
    requires Text(a) && Text(h) && Text(more)
    ensures Text(a + h + more)
    ensures var us := Utf16(a + h + more); var p := |Utf16(a)|;
      p + |Utf16(h)| <= |us| && us[p..p + |Utf16(h)|] == Utf16(h)
  {
    Utf8Append(a, h);
    Utf8Append(a + h, more);
  }

  lemma WrittenAround(l: Lang, fields: seq<seq<nat>>, k: nat) returns (more: seq<nat>)
    requires Fields(fields) && k < 5
    ensures Text(more) && Written(l, fields, 5) == Written(l, fields, k) + Header(l, FIELDS[k]) + more
  {
    hide Header;
    var rest := WrittenGoesOn(l, fields, k + 1, 5);
    more := fields[k] + [0x0A] + rest;
    Regroup3(Written(l, fields, k) + Header(l, FIELDS[k]), fields[k], [0x0A], rest);
  }

  lemma Regroup3(a: seq<nat>, x: seq<nat>, n: seq<nat>, r: seq<nat>)
    ensures a + x + n + r == a + (x + n + r)
  {}

  lemma HeaderThere(l: Lang, fields: seq<seq<nat>>, k: nat)
    requires Fields(fields) && k < 5
    ensures Text(Written(l, fields, 5)) && Text(Written(l, fields, k))
    ensures var us := Utf16(Written(l, fields, 5)); var h := Utf16(Header(l, FIELDS[k])); var p := HeaderPos(l, fields, k);
      p + |h| <= |us| && us[p..p + |h|] == h
  {
    hide Utf16, Utf8, Header, Written, Text;
    WrittenIsText(l, fields, 5);
    WrittenIsText(l, fields, k);
    var more := WrittenAround(l, fields, k);
    InTheMiddle(Written(l, fields, k), Header(l, FIELDS[k]), more);
  }

  lemma {:induction false} BmpIsItself(cps: seq<nat>)
    requires Text(cps) && forall i | 0 <= i < |cps| :: cps[i] < 0x1_0000
    ensures Utf16(cps) == cps
  {
    if cps != [] {
      BmpIsItself(cps[1..]);
      assert cps == [cps[0]] + cps[1..];
    }
  }

  /** In Chinese locales, a header is written as the units the scanner looks for, and a space. */
  lemma HeaderMatches(l: Lang, f: Field)
    requires Chinese(l)
    ensures Utf16(Header(l, f)) == Pattern(l, f) + [0x20]
  {
    BmpIsItself(Header(l, f));
  }

  /**
    In Chinese locales all five headers of every message are found where they were written, whatever
    the fields hold; so GetDecorPos, which lists every header there is, lists them.
  */
  lemma ChineseHeadersFound(l: Lang, fields: seq<seq<nat>>, ps: seq<Pos>)
    requires Chinese(l) && Fields(fields)
    requires DecorOf(l, WrittenBytes(l, Encoded(fields), 5), ps)
    ensures UnitsOf(WrittenBytes(l, Encoded(fields), 5)).Some?
    ensures forall k | 0 <= k < 5 :: Pos(HeaderPos(l, fields, k), 6) in ps
  {
    hide UnitsOf, Utf16, Written, WrittenBytes, HeaderPos, Pattern, Header;
    ReadsWritten(l, fields);
    var us := Utf16(Written(l, fields, 5));
    forall k | 0 <= k < 5
      ensures Pos(HeaderPos(l, fields, k), 6) in ps
    {
      HeaderThere(l, fields, k);
      HeaderMatches(l, FIELDS[k]);
      PatternThere(l, FIELDS[k], us, HeaderPos(l, fields, k));
    }
  }

  lemma PatternThere(l: Lang, f: Field, us: seq<u16>, i: nat)
    requires Chinese(l)
    requires var h := Pattern(l, f) + [0x20]; i + |h| <= |us| && us[i..i + |h|] == h
    ensures i < |us| && FoundAt(l, f, us, i) && |Pattern(l, f)| == 6
  {
    assert us[i..i + 6] == us[i..i + 7][..6];
  }

  lemma SignIs(f: Field)
    ensures Scalar(Sign(f)) && (Sign(f) < 0x1_0000 <==> f.Sender? || f.Id?)
  {}

  lemma BarIsItself(cp: nat)
    requires Scalar(cp)
    ensures Text([cp, 0x20, 0x7C, 0x20]) && Utf16([cp, 0x20, 0x7C, 0x20]) == Encode16(cp) + [0x20, 0x7C, 0x20]
  {
    var tail: seq<nat> := [0x20, 0x7C, 0x20];
    BmpIsItself(tail);
    assert [cp, 0x20, 0x7C, 0x20][1..] == tail;
  }

  /** The units of a written English header. */
  lemma EnglishHeaderUnits(l: Lang, f: Field)
    requires English(l)
    ensures var h := Utf16(Header(l, f));
      |h| >= 4 && (f.Sender? || f.Id? ==> h == [Sign(f), 0x20, 0x7C, 0x20])
      && (f.Chat? || f.Content? || f.Date? ==> h == [High(Sign(f)), Low(Sign(f)), 0x20, 0x7C, 0x20])
  {
    hide Sign, Utf16;
    SignIs(f);
    BarIsItself(Sign(f));
  }

  lemma FirstFour(us: seq<u16>, i: nat, h: seq<u16>)
    requires |h| >= 4 && i + |h| <= |us| && us[i..i + |h|] == h
    ensures us[i..i + 4] == h[..4]
  {}

  /** A written English header and a pattern clash by the fourth unit. */
  lemma HeaderClashes(l: Lang, f: Field, g: Field)
    requires English(l)
    ensures |Utf16(Header(l, f))| >= 4 && |Pattern(l, g)| >= 4 && Utf16(Header(l, f))[..4] != Pattern(l, g)[..4]
  {
    hide Utf16, Header;
    EnglishHeaderUnits(l, f);
    var h, p := Utf16(Header(l, f)), Pattern(l, g);
    assert forall k | 0 <= k < 4 :: h[..4][k] == h[k] && p[..4][k] == p[k];
    assert h[..4][0] != p[..4][0] || h[..4][1] != p[..4][1] || h[..4][2] != p[..4][2] || h[..4][3] != p[..4][3];
  }

  lemma EnglishHeaderClashes(l: Lang, f: Field, g: Field, us: seq<u16>, i: nat)
    requires English(l) && var h := Utf16(Header(l, f)); i + |h| <= |us| && us[i..i + |h|] == h
    ensures !FoundAt(l, g, us, i)
  {
    hide Utf16, Header, Pattern;
    HeaderClashes(l, f, g);
    FirstFour(us, i, Utf16(Header(l, f)));
    if FoundAt(l, g, us, i) { FirstFour(us, i, Pattern(l, g)); }
  }

  /**
    In English locales no header of any message is ever found where it was written, whatever the
    fields hold: headers are written with a bar, and the scanner looks for a bracket.
  */
  lemma EnglishHeadersMissed(l: Lang, fields: seq<seq<nat>>, ps: seq<Pos>, k: nat, n: nat)
    requires English(l) && Fields(fields) && k < 5
    requires DecorOf(l, WrittenBytes(l, Encoded(fields), 5), ps)
    ensures UnitsOf(WrittenBytes(l, Encoded(fields), 5)).Some?
    ensures Pos(HeaderPos(l, fields, k), n) !in ps
  {
    hide UnitsOf, Utf16, Written, WrittenBytes, HeaderPos, Header, Pattern, FoundAt;
    ReadsWritten(l, fields);
    HeaderThere(l, fields, k);
    var us, at := Utf16(Written(l, fields, 5)), HeaderPos(l, fields, k);
    forall g: Field
      ensures !FoundAt(l, g, us, at)
    {
      EnglishHeaderClashes(l, FIELDS[k], g, us, at);
    }
    forall j | 0 <= j < |ps|
      ensures ps[j] != Pos(at, n)
    {
      assert Listed(l, us, |us|, ps[j]);
    }
  }

  lemma NotListed(l: Lang, us: seq<u16>, n: nat, p: Pos)
    requires !English(l) && !Chinese(l)
    ensures !Listed(l, us, n, p)
  {}

  /** In other locales the scanner looks for nothing. */
  lemma NothingElsewhere(l: Lang, str: seq<byte>, ps: seq<Pos>)
    requires !English(l) && !Chinese(l) && DecorOf(l, str, ps)
    ensures ps == []
  {
    hide UnitsOf, Listed, Pattern;
    if ps != [] {
      var us := UnitsOf(str).value;
      NotListed(l, us, |us|, ps[0]);
    }
  }

  /** Over all locales, messages and headers: a header is listed where it was written exactly in the Chinese ones. */
  lemma HeadersListedExactly(l: Lang, fields: seq<seq<nat>>, ps: seq<Pos>, k: nat)
    requires Fields(fields) && k < 5 && DecorOf(l, WrittenBytes(l, Encoded(fields), 5), ps)
    ensures (exists n: nat :: Pos(HeaderPos(l, fields, k), n) in ps) <==> Chinese(l)
  {
    hide DecorOf, WrittenBytes, HeaderPos;
    if Chinese(l) {
      ChineseHeadersFound(l, fields, ps);
      assert Pos(HeaderPos(l, fields, k), 6) in ps;
    } else if English(l) {
      forall n: nat ensures Pos(HeaderPos(l, fields, k), n) !in ps { EnglishHeadersMissed(l, fields, ps, k, n); }
    } else {
      NothingElsewhere(l, WrittenBytes(l, Encoded(fields), 5), ps);
    }
  }

  /** Only a bracket in one of the message's own fields can make the scanner list anything. */
  lemma EnglishNothingListed(l: Lang, fields: seq<seq<nat>>, ps: seq<Pos>)
    requires English(l) && Fields(fields) && forall k | 0 <= k < 5 :: 0x5B !in fields[k]
    requires DecorOf(l, WrittenBytes(l, Encoded(fields), 5), ps)
    ensures ps == []
  {
    hide UnitsOf, Utf16, Written, WrittenBytes;
    ReadsWritten(l, fields);
    var us := Utf16(Written(l, fields, 5));
    NoBracketWritten(l, fields, 5);
    NoBracketUnits(Written(l, fields, 5));
    if ps != [] {
      assert Listed(l, us, |us|, ps[0]);
      var f: Field :| FoundAt(l, f, us, ps[0].begi);
      BracketNeeded(l, f, us, ps[0].begi);
    }
  }

  lemma BracketNeeded(l: Lang, f: Field, us: seq<u16>, i: nat)
    requires English(l) && FoundAt(l, f, us, i)
    ensures 0x5B in us
  {
    var p := Pattern(l, f);
    assert us[i + |p| - 2] == us[i..i + |p|][|p| - 2] == 0x5B;
  }

  lemma {:induction false} NoBracketWritten(l: Lang, fields: seq<seq<nat>>, k: nat)
    requires English(l) && Fields(fields) && k <= 5 && forall j | 0 <= j < 5 :: 0x5B !in fields[j]
    ensures Text(Written(l, fields, k)) && 0x5B !in Written(l, fields, k)
  {
    hide Header, Text, Utf8, WrittenBytes;
    WrittenIsText(l, fields, k);
    if k > 0 {
      NoBracketWritten(l, fields, k - 1);
      NoBracketHeader(l, FIELDS[k - 1]);
      Avoids(Written(l, fields, k - 1), Header(l, FIELDS[k - 1]), fields[k - 1]);
    }
  }

  lemma NoBracketHeader(l: Lang, f: Field)
    requires English(l)
    ensures 0x5B !in Header(l, f)
  {}

  lemma Avoids(a: seq<nat>, h: seq<nat>, x: seq<nat>)
    requires 0x5B !in a && 0x5B !in h && 0x5B !in x
    ensures 0x5B !in a + h + x + [0x0A]
  {}

  lemma {:induction false} NoBracketUnits(cps: seq<nat>)
    requires Text(cps) && 0x5B !in cps
    ensures 0x5B !in Utf16(cps)
  {
    if cps != [] {
      assert cps[0] in cps;
      NoBracketUnits(cps[1..]);
    }
  }

  // ---- the headers in characters ----

  function Codes(s: string): seq<nat> { seq(|s|, i requires 0 <= i < |s| => s[i] as nat) }

  /** What a message looks like in each language. */
  function Spelled(l: Lang, f: Field): string {
    if l.ZhCn? then
      match f
      case Chat => "[ 群组 ] "
      case Sender => "[ 用户 ] "
      case Content => "[ 信息 ] "
      case Date => "[ 时间 ] "
      case Id => "[ 标识 ] "
    else if l.ZhHk? then
      match f
      case Chat => "[ 群組 ] "
      case Sender => "[ 用戶 ] "
      case Content => "[ 訊息 ] "
      case Date => "[ 時間 ] "
      case Id => "[ 標識 ] "
    else
      match f
      case Chat => "\U{1F4A1} | "
      case Sender => "\U{2709} | "
      case Content => "\U{1F4AC} | "
      case Date => "\U{1F554} | "
      case Id => "\U{267E} | "
  }

  lemma HeadersSpelled(l: Lang, f: Field)
    ensures Header(l, f) == Codes(Spelled(l, f))
  {}

  /** The message as a whole: the fields in their order, each behind its header and before a newline. */
  lemma MessageSpelled(l: Lang, title: seq<byte>, sender: seq<byte>, txt: seq<byte>, tstamp: seq<byte>, id: seq<byte>)
    ensures forall f :: Text(Codes(Spelled(l, f)))
    ensures WrittenBytes(l, [title, sender, txt, tstamp, id], 5) ==
      Utf8(Codes(Spelled(l, Chat))) + title + [10] + Utf8(Codes(Spelled(l, Sender))) + sender + [10]
      + Utf8(Codes(Spelled(l, Content))) + txt + [10] + Utf8(Codes(Spelled(l, Date))) + tstamp + [10]
      + Utf8(Codes(Spelled(l, Id))) + id + [10]
  {
    hide Utf8, Codes, Spelled, Header, WrittenBytes, Text;
    var fs := [title, sender, txt, tstamp, id];
    forall f: Field ensures Text(Codes(Spelled(l, f))) { HeadersSpelled(l, f); }
    NothingWritten(l, fs);
    FieldWritten(l, fs, 0);
    FieldWritten(l, fs, 1);
    FieldWritten(l, fs, 2);
    FieldWritten(l, fs, 3);
    FieldWritten(l, fs, 4);
  }

  lemma NothingWritten(l: Lang, fields: seq<seq<byte>>)
    requires |fields| == 5
    ensures WrittenBytes(l, fields, 0) == []
    ensures forall bs: seq<byte> :: [] + bs == bs
  {}

  lemma FieldWritten(l: Lang, fields: seq<seq<byte>>, k: nat)
    requires |fields| == 5 && k < 5
    ensures var f := [Chat, Sender, Content, Date, Id][k];
      Text(Codes(Spelled(l, f))) &&
      WrittenBytes(l, fields, k + 1) == WrittenBytes(l, fields, k) + Utf8(Codes(Spelled(l, f))) + fields[k] + [10]
  {
    hide Utf8, Codes, Spelled, Header;
    HeadersSpelled(l, FIELDS[k]);
  }

  lemma BracketIsItself(cp: nat)
    requires Scalar(cp)
    ensures Text([cp, 0x20, 0x5B, 0x20]) && Utf16([cp, 0x20, 0x5B, 0x20]) == Encode16(cp) + [0x20, 0x5B, 0x20]
  {
    var tail: seq<nat> := [0x20, 0x5B, 0x20];
    BmpIsItself(tail);
    assert [cp, 0x20, 0x5B, 0x20][1..] == tail;
  }

  /** The sign an English header is searched by; the one of the sender is a Chinese character. */
  function Sought(f: Field): string {
    match f
    case Chat => "\U{1F4A1} [ "
    case Sender => "組 [ "
    case Content => "\U{1F4AC} [ "
    case Date => "\U{1F554} [ "
    case Id => "\U{267E} [ "
  }

  /** What the scanner looks for: in Chinese the header itself, in English another text. */
  lemma PatternsSpelled(l: Lang, f: Field)
    ensures Chinese(l) ==> Pattern(l, f) + [0x20] == Codes(Spelled(l, f))
    ensures English(l) ==> Text(Codes(Sought(f))) && Pattern(l, f) == Utf16(Codes(Sought(f)))
    ensures !English(l) && !Chinese(l) ==> Pattern(l, f) == []
  {
    hide Utf16, Codes, Spelled, Sought;
    HeadersSpelled(l, f);
    SoughtUnits(f);
  }

  lemma SoughtUnits(f: Field)
    ensures Text(Codes(Sought(f)))
    ensures Utf16(Codes(Sought(f))) == match f
      case Chat => [0xD83D, 0xDCA1, 0x20, 0x5B, 0x20]
      case Sender => [0x7D44, 0x20, 0x5B, 0x20]
      case Content => [0xD83D, 0xDCAC, 0x20, 0x5B, 0x20]
      case Date => [0xD83D, 0xDD54, 0x20, 0x5B, 0x20]
      case Id => [0x267E, 0x20, 0x5B, 0x20]
  {
    hide Utf16;
    var s := Sought(f);
    assert Codes(s) == [s[0] as nat, 0x20, 0x5B, 0x20];
    BracketIsItself(s[0] as nat);
  }
}
