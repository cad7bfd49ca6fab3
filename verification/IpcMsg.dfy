/**
  The 64-byte frame of the local command protocol (src/ipc_msg.cc): magic "tgf", a two-byte type, the
  length of the extra arguments in four bytes, both big-endian, and 55 bytes of arguments.
*/
module IpcMsg {
  import opened Prelude

  const ALL: nat := 64
  const MAGIC: nat := 3
  const TYPE: nat := 2
  const EXTARGS: nat := 4
  const ARGS: nat := 55

  const TGF: seq<byte> := [0x74, 0x67, 0x66]
  const IGNORE: u16 := 0x0101

  // ---- the format ----

  datatype Frame = Frame(typ: u16, extlen: u32, args: seq<byte>)

  function Big(n: nat, v: nat): (bs: seq<byte>)
    ensures |bs| == n
  {
    if n == 0 then [] else Big(n - 1, v / 256) + [v % 256]
  }

  function Value(bs: seq<byte>): nat {
    if bs == [] then 0 else 256 * Value(bs[..|bs| - 1]) + bs[|bs| - 1]
  }

  lemma {:induction false} BigOfValue(bs: seq<byte>)
    ensures Big(|bs|, Value(bs)) == bs
  {
    if bs != [] {
      var n := |bs| - 1;
      BigOfValue(bs[..n]);
      assert bs == bs[..n] + [bs[n]];
    }
  }

  lemma ValueTwo(a: byte, b: byte)
    ensures Value([a, b]) == 0x100 * a + b
  {
    assert [a, b][..1] == [a] && [a][..0] == [];
    assert Value([a]) == a;
  }

  lemma ValueFour(a: byte, b: byte, c: byte, d: byte)
    ensures Value([a, b, c, d]) == 0x100_0000 * a + 0x1_0000 * b + 0x100 * c + d
  {
    assert [a, b, c, d][..3] == [a, b, c] && [a, b, c][..2] == [a, b];
    ValueTwo(a, b);
    assert Value([a, b, c]) == 256 * Value([a, b]) + c;
  }

  lemma BigTwo(v: u16)
    ensures Big(2, v) == [v / 0x100, v % 0x100]
  {
    assert Big(1, v / 256) == Big(0, v / 256 / 256) + [v / 256 % 256];
  }

  lemma BigFour(v: u32)
    ensures Big(4, v) == [v / 0x100_0000, v / 0x1_0000 % 256, v / 0x100 % 256, v % 256]
  {
    assert Big(3, v / 256) == Big(2, v / 256 / 256) + [v / 256 % 256];
    BigTwo(v / 256 / 256);
  }

  function Encode(f: Frame): seq<byte> {
    TGF + Big(TYPE, f.typ) + Big(EXTARGS, f.extlen) + f.args
  }

  function Decode(buf: seq<byte>): Option<Frame>
    requires |buf| == ALL
  {
    if buf[..3] != TGF then None
    else
      ValueTwo(buf[3], buf[4]);
      ValueFour(buf[5], buf[6], buf[7], buf[8]);
      Some(Frame(Value([buf[3], buf[4]]), Value([buf[5], buf[6], buf[7], buf[8]]), buf[9..]))
  }

  // ---- the class ----

  class IpcMsg {
    var typ: u16
    var data: array<byte>
    var dataLen: nat
    var extargsLen: u32
    var isParsed: bool

    /** The frame it holds, if it was one. */
    ghost predicate Holds(f: Option<Frame>)
      reads this, data
    {
      && (isParsed <==> f.Some?) && data.Length == ALL
      && (f.Some? ==> dataLen == ALL && typ == f.value.typ && extargsLen == f.value.extlen && data[..] == Encode(f.value))
      && (f.None? ==> dataLen == 0 && typ == 0x0101 && forall k | 0 <= k < ALL :: data[k] == 0)
    }

    constructor (buffer: array<byte>)
      requires buffer.Length == ALL
      ensures Holds(Decode(buffer[..])) && fresh(data)
    {
      typ := IGNORE;
      data := new byte[ALL](_ => 0);
      dataLen := 0;
      isParsed := false;
      extargsLen := 0;
      new;
      var t, extlen;
      isParsed, t, extlen := Scan(buffer[..]);
      if isParsed {
        DecodedIsEncoded(buffer[..]);
        forall k | 0 <= k < ALL { data[k] := buffer[k]; }
        typ := t;
        dataLen := ALL;
        extargsLen := extlen;
        assert data[..] == buffer[..];
      }
    }

    /** The constructor's loop: big-endian numbers are put together byte by byte. */
    static method Scan(buffer: seq<byte>) returns (isParsed: bool, t: u16, extlen: u32)
      requires |buffer| == ALL
      ensures isParsed <==> Decode(buffer).Some?
      ensures isParsed ==> t == Decode(buffer).value.typ && extlen == Decode(buffer).value.extlen
    {
      hide Value;
      var magic: u32 := 0;
      isParsed, t, extlen := false, 0, 0;
      ValueMore([], 0);
      assert buffer[..0] == [] && buffer[3..3] == [] && buffer[5..5] == [];
      for i := 0 to ALL
        invariant magic == Value(buffer[..Min(i, 3)])
        invariant i > 3 ==> buffer[..3] == TGF
        invariant isParsed <==> i > 3
        invariant t == if i < 3 then 0 else Value(buffer[3..Min(i, 5)])
        invariant extlen == if i < 5 then 0 else Value(buffer[5..Min(i, 9)])
      {
        if i < MAGIC {
          assert buffer[..i + 1] == buffer[..i] + [buffer[i]];
          ValueMore(buffer[..i], buffer[i]);
          magic := (magic * 256 + buffer[i]) % U32;
        } else {
          IsMagic(buffer[..3]);
          if magic == 0x746766 {
            isParsed := true;
          } else {
            break;
          }
          if i < MAGIC + TYPE {
            assert buffer[3..i + 1] == buffer[3..i] + [buffer[i]];
            ValueMore(buffer[3..i], buffer[i]);
            t := (t * 256 + buffer[i]) % 0x1_0000;
          } else if i < MAGIC + TYPE + EXTARGS {
            assert buffer[5..i + 1] == buffer[5..i] + [buffer[i]];
            ValueMore(buffer[5..i], buffer[i]);
            extlen := (extlen * 256 + buffer[i]) % U32;
          }
        }
      }
      assert buffer[3..5] == [buffer[3], buffer[4]];
      assert buffer[5..9] == [buffer[5], buffer[6], buffer[7], buffer[8]];
    }

    method SerializeInto(buf: array<byte>)
      requires data.Length == ALL == buf.Length && buf != data
      modifies buf
      ensures buf[..] == data[..]
    {
      forall k | 0 <= k < ALL { buf[k] := data[k]; }
    }
  }

  lemma {:induction false} ValueSmall(bs: seq<byte>)
    ensures |bs| == 1 ==> Value(bs) < 0x100
    ensures |bs| == 2 ==> Value(bs) < 0x1_0000
    ensures |bs| == 3 ==> Value(bs) < 0x100_0000
  {
    if 0 < |bs| <= 3 { ValueSmall(bs[..|bs| - 1]); }
  }

  /** One more byte fits as long as there are no more than four. */
  lemma ValueMore(bs: seq<byte>, b: byte)
    ensures Value(bs + [b]) == 256 * Value(bs) + b && Value([]) == 0
    ensures |bs| <= 1 ==> 256 * Value(bs) + b < 0x1_0000
    ensures |bs| <= 3 ==> 256 * Value(bs) + b < U32
  {
    assert (bs + [b])[..|bs|] == bs;
    ValueSmall(bs);
  }

  lemma IsMagic(bs: seq<byte>)
    requires |bs| == 3
    ensures Value(bs) == 0x746766 <==> bs == TGF
  {
    assert bs[..2] == [bs[0], bs[1]] && TGF[..2] == [0x74, 0x67];
    ValueTwo(bs[0], bs[1]);
    ValueTwo(0x74, 0x67);
  }

  /** new_ipcmsg: the blocks are copied through a moving pointer, then read back. */
  method NewIpcMsg(typ: u16, extlen: u32, args: array<byte>) returns (msg: IpcMsg)
    requires args.Length == ARGS
    ensures fresh(msg) && msg.Holds(Some(Frame(typ, extlen, args[..])))
  {
    hide Encode, Decode;
    var buf := new byte[ALL](_ => 0);
    var bufp := 0;
    Copy([0x74, 0x67, 0x66], buf, bufp);
    bufp := bufp + 3;
    assert buf[..3] == TGF;
    var b2, b1 := typ % 256, typ / 0x100 % 256;
    Copy([b1, b2], buf, bufp);
    bufp := bufp + 2;
    assert buf[..5] == TGF + [b1, b2];
    var c4, c3, c2, c1 := extlen % 256, extlen / 0x100 % 256, extlen / 0x1_0000 % 256, extlen / 0x100_0000 % 256;
    Copy([c1, c2, c3, c4], buf, bufp);
    bufp := bufp + 4;
    assert buf[..9] == TGF + [b1, b2] + [c1, c2, c3, c4];
    Copy(args[..], buf, bufp);
    assert buf[..] == TGF + [b1, b2] + [c1, c2, c3, c4] + args[..];
    BlocksAreEncoded(Frame(typ, extlen, args[..]));
    EncodedDecodes(Frame(typ, extlen, args[..]));
    msg := new IpcMsg(buf);
  }

  lemma BlocksAreEncoded(f: Frame)
    ensures Encode(f) == TGF + [f.typ / 0x100 % 256, f.typ % 256]
      + [f.extlen / 0x100_0000 % 256, f.extlen / 0x1_0000 % 256, f.extlen / 0x100 % 256, f.extlen % 256] + f.args
  {
    BigTwo(f.typ);
    BigFour(f.extlen);
  }

  /** memcpy */
  method Copy(from: seq<byte>, buf: array<byte>, p: nat)
    requires p + |from| <= buf.Length
    modifies buf
    ensures buf[..] == old(buf[..p]) + from + old(buf[p + |from|..])
  {
    forall k | 0 <= k < |from| { buf[p + k] := from[k]; }
  }

  // ---- the format is a bijection ----

  /** Where the parts of a frame are. */
  lemma Parts(f: Frame)
    requires |f.args| == ARGS
    ensures var buf := Encode(f); |buf| == ALL && buf[..3] == TGF && buf[9..] == f.args
    ensures var buf := Encode(f); [buf[3], buf[4]] == Big(2, f.typ) && [buf[5], buf[6], buf[7], buf[8]] == Big(4, f.extlen)
  {
    hide Big;
    var buf, b, c := Encode(f), Big(TYPE, f.typ), Big(EXTARGS, f.extlen);
    assert buf[3] == b[0] && buf[4] == b[1];
    assert buf[5] == c[0] && buf[6] == c[1] && buf[7] == c[2] && buf[8] == c[3];
  }

  /** The frame byte by byte: "tgf", the type and the length with their highest byte first, the arguments. */
  lemma FrameLayout(f: Frame)
    requires |f.args| == 55
    ensures |Encode(f)| == 64
    ensures var buf := Encode(f);
      && buf[0] == 0x74 && buf[1] == 0x67 && buf[2] == 0x66
      && buf[3] == f.typ / 256 && buf[4] == f.typ % 256
      && buf[5] == f.extlen / 16777216 && buf[6] == f.extlen / 65536 % 256 && buf[7] == f.extlen / 256 % 256 && buf[8] == f.extlen % 256
      && buf[9..] == f.args
  {
    hide Big, Encode;
    Parts(f);
    var buf := Encode(f);
    assert buf[0] == buf[..3][0] && buf[1] == buf[..3][1] && buf[2] == buf[..3][2];
    BigTwo(f.typ);
    BigFour(f.extlen);
    var x, y := [buf[3], buf[4]], [buf[5], buf[6], buf[7], buf[8]];
    assert buf[3] == x[0] && buf[4] == x[1];
    assert buf[5] == y[0] && buf[6] == y[1] && buf[7] == y[2] && buf[8] == y[3];
  }

  lemma {:induction false} ValueOfBig(n: nat, v: nat)
    requires v < Power256(n)
    ensures Value(Big(n, v)) == v
  {
    if n > 0 {
      ValueOfBig(n - 1, v / 256);
      assert Big(n, v)[..n - 1] == Big(n - 1, v / 256);
    }
  }

  function Power256(n: nat): nat { if n == 0 then 1 else 256 * Power256(n - 1) }

  lemma Widths(typ: u16, extlen: u32)
    ensures typ < Power256(2) && extlen < Power256(4)
  {
    assert Power256(2) == 0x100 * Power256(1);
  }

  /** Every type, length and arguments come back. */
  lemma EncodedDecodes(f: Frame)
    requires |f.args| == ARGS
    ensures |Encode(f)| == ALL && Decode(Encode(f)) == Some(f)
  {
    hide Big, Value, Encode, Power256;
    Parts(f);
    Widths(f.typ, f.extlen);
    ValueOfBig(2, f.typ);
    ValueOfBig(4, f.extlen);
  }

  /** And every buffer that begins with the magic is the encoding of its own fields; no other is taken. */
  lemma DecodedIsEncoded(buf: seq<byte>)
    requires |buf| == ALL
    ensures Decode(buf).Some? <==> TGF <= buf
    ensures Decode(buf).Some? ==> |Decode(buf).value.args| == ARGS && Encode(Decode(buf).value) == buf
  {
    if Decode(buf).Some? {
      BigOfValue([buf[3], buf[4]]);
      BigOfValue([buf[5], buf[6], buf[7], buf[8]]);
      assert buf == buf[..3] + [buf[3], buf[4]] + [buf[5], buf[6], buf[7], buf[8]] + buf[9..];
    }
  }
}
