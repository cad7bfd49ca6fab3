/**
  From UTF-8 bytes to UTF-16 code units (src/utfutils.cc): the pointer loops around mbrtoc16, against
  a decoder after sections 3 and 4 of RFC 3629 and an encoder after section 2.1 of RFC 2781.
*/
module Utf {
  import opened Prelude

  /** Code points that are characters: all but the surrogates. */
  predicate Scalar(cp: nat) { cp < 0xD800 || 0xE000 <= cp < 0x11_0000 }

  // ---- RFC 3629, section 3: encoding one character ----

  function Encode8(cp: nat): (bs: seq<byte>)
    requires Scalar(cp)
    ensures 1 <= |bs| <= 4
  {
    if cp < 0x80 then [cp]
    else if cp < 0x800 then [0xC0 + cp / 0x40, 0x80 + cp % 0x40]
    else if cp < 0x1_0000 then [0xE0 + cp / 0x1000, 0x80 + cp / 0x40 % 0x40, 0x80 + cp % 0x40]
    else [0xF0 + cp / 0x4_0000, 0x80 + cp / 0x1000 % 0x40, 0x80 + cp / 0x40 % 0x40, 0x80 + cp % 0x40]
  }

  /** The table of section 3: the ranges, and where the bits of the number are. */
  lemma Encode8Is(cp: nat)
    requires Scalar(cp)
    ensures var bs: seq<int> := Encode8(cp);
      && (|bs| == 1 <==> cp <= 0x7F) && (|bs| == 2 <==> 0x80 <= cp <= 0x7FF)
      && (|bs| == 3 <==> 0x800 <= cp <= 0xFFFF) && (|bs| == 4 <==> 0x1_0000 <= cp <= 0x10_FFFF)
    ensures var bs: seq<int> := Encode8(cp);
      && (|bs| == 1 ==> cp == bs[0])
      && (|bs| == 2 ==> 0xC2 <= bs[0] <= 0xDF && cp == 64 * (bs[0] - 0xC0) + (bs[1] - 0x80))
      && (|bs| == 3 ==> 0xE0 <= bs[0] <= 0xEF && cp == 4096 * (bs[0] - 0xE0) + 64 * (bs[1] - 0x80) + (bs[2] - 0x80))
      && (|bs| == 4 ==> 0xF0 <= bs[0] <= 0xF4 && cp == 262144 * (bs[0] - 0xF0) + 4096 * (bs[1] - 0x80) + 64 * (bs[2] - 0x80) + (bs[3] - 0x80))
    ensures forall i | 0 < i < |Encode8(cp)| :: 0x80 <= Encode8(cp)[i] <= 0xBF
  {
    Digits(cp);
    Digits(cp / 0x40);
    Digits(cp / 0x1000);
  }

  // ---- RFC 3629, section 4: the syntax of byte sequences ----

  /** What a text begins with: a character of n bytes, nothing valid, or the beginning of one. */
  datatype First = Char(cp: nat, n: nat) | Invalid | Incomplete

  predicate Tail(b: int) { 0x80 <= b <= 0xBF }

  /** The range of the second byte depends on the first. */
  predicate Second(b0: int, b1: int) {
    match b0
    case 0xE0 => 0xA0 <= b1 <= 0xBF
    case 0xED => 0x80 <= b1 <= 0x9F
    case 0xF0 => 0x90 <= b1 <= 0xBF
    case 0xF4 => 0x80 <= b1 <= 0x8F
    case _ => Tail(b1)
  }

  function Two(a: int, b: int): int { (a - 0xC0) * 0x40 + (b - 0x80) }
  function Three(a: int, b: int, c: int): int { (a - 0xE0) * 0x1000 + (b - 0x80) * 0x40 + (c - 0x80) }
  function Four(a: int, b: int, c: int, d: int): int {
    (a - 0xF0) * 0x4_0000 + (b - 0x80) * 0x1000 + (c - 0x80) * 0x40 + (d - 0x80)
  }

  function Decode8(s: seq<byte>): (f: First)
    requires s != []
    ensures f.Char? ==> 1 <= f.n <= |s| && f.n <= 4 && Scalar(f.cp)
    ensures f.Char? && f.cp >= 0x1_0000 ==> f.n == 4
  {
    var b0 := s[0];
    if b0 < 0x80 then Char(b0, 1)
    else if b0 < 0xC2 || b0 > 0xF4 then Invalid
    else if |s| == 1 then Incomplete
    else if !Second(b0, s[1]) then Invalid
    else if b0 < 0xE0 then Char(Two(b0, s[1]), 2)
    else if |s| == 2 then Incomplete
    else if !Tail(s[2]) then Invalid
    else if b0 < 0xF0 then Char(Three(b0, s[1], s[2]), 3)
    else if |s| == 3 then Incomplete
    else if !Tail(s[3]) then Invalid
    else Char(Four(b0, s[1], s[2], s[3]), 4)
  }

  /** A number in base 64 is the number of its digits, and its digits are those it was made of. */
  lemma Digits(cp: nat)
    ensures cp == 0x40 * (cp / 0x40) + cp % 0x40
    ensures cp / 0x1000 == cp / 0x40 / 0x40 && cp / 0x4_0000 == cp / 0x1000 / 0x40
  {}

  lemma DigitsOf(hi: nat, lo: nat)
    requires lo < 0x40
    ensures (0x40 * hi + lo) / 0x40 == hi && (0x40 * hi + lo) % 0x40 == lo
  {}

  /** The decoder accepts every encoded character and gives it back. */
  lemma DecodesEncoded(cp: nat, rest: seq<byte>)
    requires Scalar(cp)
    ensures Decode8(Encode8(cp) + rest) == Char(cp, |Encode8(cp)|)
  {
    if cp < 0x80 {
      assert ([cp] + rest)[0] == cp;
    } else if cp < 0x800 {
      DecodesTwo(cp, rest);
    } else if cp < 0x1_0000 {
      DecodesThree(cp, rest);
    } else {
      DecodesFour(cp, rest);
    }
  }

  lemma DecodesTwo(cp: nat, rest: seq<byte>)
    requires 0x80 <= cp < 0x800
    ensures Decode8(Encode8(cp) + rest) == Char(cp, 2)
  {
    Digits(cp);
    var a, b := 0xC0 + cp / 0x40, 0x80 + cp % 0x40;
    var s := [a, b] + rest;
    assert s[0] == a && s[1] == b && Two(a, b) == cp;
  }

  lemma DecodesThree(cp: nat, rest: seq<byte>)
    requires 0x800 <= cp < 0x1_0000 && Scalar(cp)
    ensures Decode8(Encode8(cp) + rest) == Char(cp, 3)
  {
    Digits(cp);
    Digits(cp / 0x40);
    var a, b, c := 0xE0 + cp / 0x1000, 0x80 + cp / 0x40 % 0x40, 0x80 + cp % 0x40;
    var s := [a, b, c] + rest;
    assert s[0] == a && s[1] == b && s[2] == c && Three(a, b, c) == cp;
  }

  lemma DecodesFour(cp: nat, rest: seq<byte>)
    requires 0x1_0000 <= cp && Scalar(cp)
    ensures Decode8(Encode8(cp) + rest) == Char(cp, 4)
  {
    Digits(cp);
    Digits(cp / 0x40);
    Digits(cp / 0x1000);
    var a, b, c, d := 0xF0 + cp / 0x4_0000, 0x80 + cp / 0x1000 % 0x40, 0x80 + cp / 0x40 % 0x40, 0x80 + cp % 0x40;
    var s := [a, b, c, d] + rest;
    assert s[0] == a && s[1] == b && s[2] == c && s[3] == d && Four(a, b, c, d) == cp;
  }

  lemma EncodesTwo(a: nat, b: nat)
    requires 0xC2 <= a <= 0xDF && Tail(b)
    ensures Scalar(Two(a, b)) && Encode8(Two(a, b)) == [a, b]
  {
    DigitsOf(a - 0xC0, b - 0x80);
  }

  lemma EncodesThree(a: nat, b: nat, c: nat)
    requires 0xE0 <= a <= 0xEF && Tail(b) && Second(a, b) && Tail(c)
    ensures Scalar(Three(a, b, c)) && Encode8(Three(a, b, c)) == [a, b, c]
  {
    var hi := (a - 0xE0) * 0x40 + (b - 0x80);
    DigitsOf(hi, c - 0x80);
    DigitsOf(a - 0xE0, b - 0x80);
    Digits(Three(a, b, c));
  }

  lemma EncodesFour(a: nat, b: nat, c: nat, d: nat)
    requires 0xF0 <= a <= 0xF4 && Tail(b) && Second(a, b) && Tail(c) && Tail(d)
    ensures Scalar(Four(a, b, c, d)) && Encode8(Four(a, b, c, d)) == [a, b, c, d]
  {
    var hi := (a - 0xF0) * 0x40 + (b - 0x80);
    DigitsOf(0x40 * hi + (c - 0x80), d - 0x80);
    DigitsOf(hi, c - 0x80);
    DigitsOf(a - 0xF0, b - 0x80);
    Digits(Four(a, b, c, d));
  }

  /** And nothing else: what it accepts is the encoding of what it gives. */
  lemma DecodedIsEncoded(s: seq<byte>)
    requires s != [] && Decode8(s).Char?
    ensures s[..Decode8(s).n] == Encode8(Decode8(s).cp)
  {
    hide Encode8;
    var n := Decode8(s).n;
    if n == 1 {
      assert s[..1] == [s[0]] == Encode8(s[0]) by { EncodesOne(s[0]); }
    } else if n == 2 {
      EncodesTwo(s[0], s[1]);
      assert s[..2] == [s[0], s[1]];
    } else if n == 3 {
      EncodesThree(s[0], s[1], s[2]);
      assert s[..3] == [s[0], s[1], s[2]];
    } else {
      EncodesFour(s[0], s[1], s[2], s[3]);
      assert s[..4] == [s[0], s[1], s[2], s[3]];
    }
  }

  lemma EncodesOne(a: nat)
    requires a < 0x80
    ensures Encode8(a) == [a]
  {}

  // ---- RFC 2781, section 2.1: UTF-16 ----

  function High(cp: nat): u16
    requires 0x1_0000 <= cp < 0x11_0000
  {
    0xD800 + (cp - 0x1_0000) / 0x400
  }

  function Low(cp: nat): u16
    requires 0x1_0000 <= cp < 0x11_0000
  {
    0xDC00 + (cp - 0x1_0000) % 0x400
  }

  function Encode16(cp: nat): seq<u16>
    requires Scalar(cp)
  {
    if cp < 0x1_0000 then [cp] else [High(cp), Low(cp)]
  }

  predicate Text(cps: seq<nat>) { forall i | 0 <= i < |cps| :: Scalar(cps[i]) }

  function Utf8(cps: seq<nat>): seq<byte>
    requires Text(cps)
  {
    if cps == [] then [] else Encode8(cps[0]) + Utf8(cps[1..])
  }

  function Utf16(cps: seq<nat>): seq<u16>
    requires Text(cps)
  {
    if cps == [] then [] else Encode16(cps[0]) + Utf16(cps[1..])
  }

  predicate IsHigh(u: u16) { 0xD800 <= u <= 0xDBFF }
  predicate IsLow(u: u16) { 0xDC00 <= u <= 0xDFFF }

  /** The units of one character: itself, or two surrogates that share its bits. */
  lemma Encode16Is(cp: nat)
    requires Scalar(cp)
    ensures var us: seq<int> := Encode16(cp);
      if cp <= 0xFFFF then us == [cp] && !IsHigh(cp) && !IsLow(cp)
      else |us| == 2 && IsHigh(us[0]) && IsLow(us[1]) && cp == 0x1_0000 + 0x400 * (us[0] - 0xD800) + (us[1] - 0xDC00)
  {}

  /** Every high surrogate is followed by a low one, and no other unit is a low one. */
  predicate Paired(us: seq<u16>) {
    && (forall i | 0 <= i < |us| :: IsHigh(us[i]) ==> i + 1 < |us| && IsLow(us[i + 1]))
    && (forall i | 0 <= i < |us| :: IsLow(us[i]) ==> i > 0 && IsHigh(us[i - 1]))
  }

  lemma PairedMore(cp: nat, us: seq<u16>)
    requires Scalar(cp) && Paired(us)
    ensures Paired(Encode16(cp) + us)
  {
    Encode16Is(cp);
    hide Encode16;
    var all, n := Encode16(cp) + us, |Encode16(cp)|;
    assert us != [] ==> !IsLow(us[0]);
    forall i | 0 <= i < |all|
      ensures IsHigh(all[i]) ==> i + 1 < |all| && IsLow(all[i + 1])
      ensures IsLow(all[i]) ==> i > 0 && IsHigh(all[i - 1])
    {
      if i >= n { assert all[i] == us[i - n]; }
    }
  }

  lemma {:induction false} Utf16Paired(cps: seq<nat>)
    requires Text(cps)
    ensures Paired(Utf16(cps))
  {
    hide Encode16;
    if cps != [] {
      Utf16Paired(cps[1..]);
      PairedMore(cps[0], Utf16(cps[1..]));
    }
  }

  /** RFC 2781, section 2.2: decoding. */
  function FromUtf16(us: seq<u16>): seq<nat> {
    if us == [] then []
    else if |us| > 1 && IsHigh(us[0]) && IsLow(us[1]) then
      [0x1_0000 + (us[0] - 0xD800) * 0x400 + (us[1] - 0xDC00)] + FromUtf16(us[2..])
    else [us[0]] + FromUtf16(us[1..])
  }

  lemma {:induction false} Utf16RoundTrip(cps: seq<nat>)
    requires Text(cps)
    ensures FromUtf16(Utf16(cps)) == cps
  {
    hide Encode16;
    if cps != [] {
      Utf16RoundTrip(cps[1..]);
      Encode16Is(cps[0]);
      var us, rest := Utf16(cps), Utf16(cps[1..]);
      assert us[|Encode16(cps[0])|..] == rest;
      assert cps == [cps[0]] + cps[1..];
    }
  }

  // ---- mbrtoc16 (section 7.28.1.1 of C11), in a UTF-8 locale ----

  datatype MbState = Initial | Pending(low: u16)

  /** The value returned, with -1, -2 and -3 as the standard has them, the unit stored, the new state. */
  datatype Converted = Converted(ret: int, unit: u16, state: MbState)

  function Mbrtoc16(state: MbState, s: seq<byte>): (r: Converted)
    ensures -3 <= r.ret <= |s|
  {
    match state
    case Pending(low) => Converted(-3, low, Initial)
    case Initial =>
      if s == [] then Converted(-2, 0, state)
      else match Decode8(s)
        case Invalid => Converted(-1, 0, state)
        case Incomplete => Converted(-2, 0, state)
        case Char(cp, n) =>
          if cp == 0 then Converted(0, 0, state)
          else if cp < 0x1_0000 then Converted(n, cp, state)
          else Converted(n, High(cp), Pending(Low(cp)))
  }

  // ---- the loops ----

  /** What the loops are to produce: up to the first byte that begins no character, or through the first NUL. */
  function Transcode(s: seq<byte>): (us: seq<u16>)
    ensures |us| <= |s|
  {
    if s == [] then []
    else match Decode8(s)
      case Char(cp, n) => if cp == 0 then [0] else Encode16(cp) + Transcode(s[n..])
      case _ => []
  }

  function PendingUnits(state: MbState): seq<u16> {
    match state
    case Initial => []
    case Pending(low) => [low]
  }

  /** One call of mbrtoc16 against what is still to be produced. */
  lemma OneCall(state: MbState, s: seq<byte>)
    ensures var r := Mbrtoc16(state, s);
      match state
      case Pending(low) => r == Converted(-3, low, Initial)
      case Initial =>
        if r.ret < 0 then r.ret == (if s != [] && Decode8(s).Invalid? then -1 else -2) && r.state == Initial && Transcode(s) == []
        else if r.ret == 0 then s != [] && r.state == Initial && Transcode(s) == [r.unit]
        else |PendingUnits(r.state)| < r.ret && Transcode(s) == [r.unit] + (PendingUnits(r.state) + Transcode(s[r.ret..]))
  {
    hide Decode8, High, Low;
    if state.Initial? && s != [] {
      match Decode8(s)
      case Invalid =>
      case Incomplete =>
      case Char(cp, n) =>
        var more := Transcode(s[n..]);
        if 0 < cp < 0x1_0000 {
          assert [cp] + more == [cp] + ([] + more);
        } else if cp > 0 {
          assert [High(cp), Low(cp)] + more == [High(cp)] + ([Low(cp)] + more);
        }
    }
  }

  method GetC16Seq(utf8s: seq<byte>) returns (rtn: seq<u16>)
    ensures rtn == Transcode(utf8s) && Paired(rtn)
  {
    hide Mbrtoc16, Transcode, Paired;
    AlwaysPaired(utf8s);
    if |utf8s| == 0 {
      OneCall(Initial, utf8s);
      return [];
    }
    var n := |utf8s|;
    var buf := new u16[n];
    var p8, p16, converted, state := 0, 0, -1, Initial;
    assert utf8s[0..] == utf8s;
    while converted != 0
      invariant p16 + |PendingUnits(state)| <= p8 <= n || (converted == 0 && p16 <= n && p8 <= n)
      invariant Transcode(utf8s) == buf[..p16] + if converted == 0 then [] else PendingUnits(state) + Transcode(utf8s[p8..])
      decreases 2 * (n - p8) + |PendingUnits(state)|, converted != 0
    {
      OneCall(state, utf8s[p8..]);
      var r := Mbrtoc16(state, utf8s[p8..]);
      converted, state := r.ret, r.state;
      if converted == -1 {
        break;
      } else if converted == -2 {
        break;
      } else if converted == -3 {
        buf[p16] := r.unit;
        p16 := p16 + 1;
      } else {
        assert utf8s[p8..][converted..] == utf8s[p8 + converted..];
        buf[p16] := r.unit;
        p8 := p8 + converted;
        p16 := p16 + 1;
      }
    }
    rtn := buf[..p16];
  }

  /** The length alone; longer texts are not measured. */
  method GetC16Len(utf8s: seq<byte>) returns (len: nat)
    ensures len == if |utf8s| > 1024 then 0 else |Transcode(utf8s)|
  {
    hide Mbrtoc16, Transcode;
    if |utf8s| == 0 {
      OneCall(Initial, utf8s);
      return 0;
    }
    var n := |utf8s|;
    if n > 1024 {
      return 0;
    }
    var buf := new u16[n];
    var p8, p16, converted, state := 0, 0, -1, Initial;
    assert utf8s[0..] == utf8s;
    while converted != 0
      invariant p16 + |PendingUnits(state)| <= p8 <= n || (converted == 0 && p16 <= n && p8 <= n)
      invariant |Transcode(utf8s)| == p16 + if converted == 0 then 0 else |PendingUnits(state)| + |Transcode(utf8s[p8..])|
      decreases 2 * (n - p8) + |PendingUnits(state)|, converted != 0
    {
      OneCall(state, utf8s[p8..]);
      var r := Mbrtoc16(state, utf8s[p8..]);
      converted, state := r.ret, r.state;
      if converted == -1 {
        break;
      } else if converted == -2 {
        break;
      } else if converted == -3 {
        buf[p16] := r.unit;
        p16 := p16 + 1;
      } else {
        assert utf8s[p8..][converted..] == utf8s[p8 + converted..];
        buf[p16] := r.unit;
        p8 := p8 + converted;
        p16 := p16 + 1;
      }
    }
    len := p16;
  }

  // ---- what they produce ----

  /** Where the loops stop: at the end, at a NUL, or where no character begins. */
  predicate Stops(t: seq<byte>) {
    t == [] || match Decode8(t) case Char(cp, _) => cp == 0 case _ => true
  }

  predicate NoNul(cps: seq<nat>) { 0 !in cps }

  function StopUnits(t: seq<byte>): seq<u16> { if t != [] && t[0] == 0 then [0] else [] }

  /** Every byte string is a text without NUL and a rest the loops stop at. */
  lemma {:induction false} Splits(s: seq<byte>) returns (cps: seq<nat>, t: seq<byte>)
    ensures Text(cps) && NoNul(cps) && Stops(t) && s == Utf8(cps) + t
    decreases |s|
  {
    hide Encode8;
    if Stops(s) {
      cps, t := [], s;
    } else {
      var cp, n := Decode8(s).cp, Decode8(s).n;
      DecodedIsEncoded(s);
      var more;
      more, t := Splits(s[n..]);
      cps := [cp] + more;
      assert cps[1..] == more;
      assert s == s[..n] + s[n..];
    }
  }

  /**
    For every text without NUL, and whatever follows it that no character begins, the result is the
    text's UTF-16 encoding; a NUL behind it gives one more unit, and all after it is dropped.
  */
  lemma {:induction false} TranscodesText(cps: seq<nat>, t: seq<byte>)
    requires Text(cps) && NoNul(cps) && Stops(t)
    ensures Transcode(Utf8(cps) + t) == Utf16(cps) + StopUnits(t)
    decreases |cps|
  {
    hide Encode8, Encode16;
    if cps == [] {
      assert Utf8(cps) + t == t;
    } else {
      var rest := Utf8(cps[1..]) + t;
      assert Utf8(cps) + t == Encode8(cps[0]) + rest;
      DecodesEncoded(cps[0], rest);
      assert (Encode8(cps[0]) + rest)[|Encode8(cps[0])|..] == rest;
      assert cps[0] in cps;
      TranscodesText(cps[1..], t);
    }
  }

  /** For well-formed UTF-8 without NUL the units are the text's UTF-16 encoding, and the text can be read back from them. */
  lemma WellFormed(cps: seq<nat>)
    requires Text(cps) && NoNul(cps)
    ensures Transcode(Utf8(cps)) == Utf16(cps)
    ensures FromUtf16(Transcode(Utf8(cps))) == cps && Paired(Transcode(Utf8(cps)))
    ensures |Transcode(Utf8(cps))| <= |Utf8(cps)|
  {
    TranscodesText(cps, []);
    assert Utf8(cps) + [] == Utf8(cps);
    Utf16RoundTrip(cps);
    Utf16Paired(cps);
  }

  /** Whatever the bytes, no lone surrogate is produced. */
  lemma AlwaysPaired(s: seq<byte>)
    ensures Paired(Transcode(s))
  {
    hide Transcode, Utf8, Utf16;
    var cps, t := Splits(s);
    TranscodesText(cps, t);
    Utf16Paired(cps);
    PairedEnd(Utf16(cps), StopUnits(t));
  }

  lemma PairedEnd(us: seq<u16>, more: seq<u16>)
    requires Paired(us) && (more == [] || more == [0])
    ensures Paired(us + more)
  {
    var all := us + more;
    forall i | 0 <= i < |all|
      ensures IsHigh(all[i]) ==> i + 1 < |all| && IsLow(all[i + 1])
      ensures IsLow(all[i]) ==> i > 0 && IsHigh(all[i - 1])
    {
      if i < |us| { assert all[i] == us[i]; }
    }
  }

  /** A byte string that holds no whole character is the beginning of one, or of none, and is told apart. */
  lemma IncompleteExactly(s: seq<byte>)
    requires s != []
    ensures Decode8(s).Incomplete? <==> exists cp | Scalar(cp) :: s < Encode8(cp)
  {
    if Decode8(s).Incomplete? {
      var cp := Completed(s);
    }
    if cp :| Scalar(cp) && s < Encode8(cp) {
      Truncated(s, cp);
    }
  }

  lemma Truncated(s: seq<byte>, cp: nat)
    requires s != [] && Scalar(cp) && s < Encode8(cp)
    ensures Decode8(s).Incomplete?
  {
    var bs := Encode8(cp);
    Encode8Is(cp);
    DecodesEncoded(cp, []);
    assert bs + [] == bs;
    assert forall i | 0 <= i < |s| :: s[i] == bs[i];
    hide Encode8;
  }

  /** A character that begins with the bytes of an incomplete one: with the lowest bytes behind them. */
  lemma Completed(s: seq<byte>) returns (cp: nat)
    requires s != [] && Decode8(s).Incomplete?
    ensures Scalar(cp) && s < Encode8(cp)
  {
    var b0 := s[0];
    if b0 < 0xE0 {
      cp := Two(b0, 0x80);
      EncodesTwo(b0, 0x80);
    } else {
      var b1 := if |s| > 1 then s[1] else if b0 == 0xE0 then 0xA0 else if b0 == 0xF0 then 0x90 else 0x80;
      var b2 := if |s| > 2 then s[2] else 0x80;
      if b0 < 0xF0 {
        cp := Three(b0, b1, 0x80);
        EncodesThree(b0, b1, 0x80);
        hide Encode8;
        Prefix(s, [b0, b1, 0x80]);
      } else {
        cp := Four(b0, b1, b2, 0x80);
        EncodesFour(b0, b1, b2, 0x80);
        hide Encode8;
        Prefix(s, [b0, b1, b2, 0x80]);
      }
    }
  }

  lemma Prefix(s: seq<byte>, bs: seq<byte>)
    requires |s| < |bs| && forall i | 0 <= i < |s| :: s[i] == bs[i]
    ensures s < bs
  {
    assert bs[..|s|] == s;
  }
}
