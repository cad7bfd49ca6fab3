/**
  Signed numbers in files, least significant byte first (src/user_data.cc): the API id in four bytes,
  the id of the chat TG-FOCUS in eight.
*/
module IntFiles {
  import opened Prelude

  /** 256 to the n */
  function P(n: nat): (p: nat)
    ensures p > 0 && (n > 0 ==> p % 2 == 0)
  {
    if n == 0 then 1 else 256 * P(n - 1)
  }

  /** What n bytes can hold. */
  predicate Fits(n: nat, x: int) { 0 <= 2 * x + P(n) && 2 * x < P(n) }

  /** The n bytes of x in two's complement, the lowest first. */
  function Bytes(n: nat, x: int): (bs: seq<byte>)
    ensures |bs| == n
  {
    if n == 0 then [] else [x % 256] + Bytes(n - 1, x / 256)
  }

  function Unsigned(bs: seq<byte>): nat {
    if bs == [] then 0 else bs[0] + 256 * Unsigned(bs[1..])
  }

  /** A pattern of n bytes read as signed. */
  function Signed(n: nat, u: int): int { if 2 * u < P(n) then u else u - P(n) }

  /** The i-th byte of a file, as fread leaves it: 0 behind the end. */
  function ByteAt(file: seq<byte>, i: nat): byte { if i < |file| then file[i] else 0 }

  function Padded(file: seq<byte>, n: nat): (bs: seq<byte>)
    ensures |bs| == n
  {
    seq(n, i requires 0 <= i < n => ByteAt(file, i))
  }

  // ---- the loops ----

  class IntFile {
    var file: seq<byte>

    constructor (bs: seq<byte>)
      ensures file == bs
    {
      file := bs;
    }

    /** set_api_id with n = 4, set_tgfid with n = 8. */
    method Set(n: nat, x: int)
      modifies this
      ensures file == Bytes(n, x)
    {
      file := [];
      var tmp := x;
      for i := 0 to n
        invariant Bytes(n, x) == file + Bytes(n - i, if i > 0 then tmp / 256 else tmp)
      {
        if i > 0 {
          tmp := tmp / 256;
        }
        ghost var before := file;
        file := file + [tmp % 256];
        assert before + ([tmp % 256] + Bytes(n - i - 1, tmp / 256)) == file + Bytes(n - i - 1, tmp / 256);
      }
    }

    /** get_api_id with n = 4, get_tgfid with n = 8. */
    method Get(n: nat) returns (ret: int)
      requires n > 0
      ensures ret == Signed(n, Unsigned(Padded(file, n)))
    {
      ret := 0;
      ghost var bs := Padded(file, n);
      for i := 0 to n
        invariant 0 <= Unsigned(bs[..i]) < P(i)
        invariant ret == if i < n then Unsigned(bs[..i]) else Signed(n, Unsigned(bs[..i]))
      {
        var b := ByteAt(file, i);
        UnsignedMore(bs[..i], b);
        assert bs[..i + 1] == bs[..i] + [b];
        Smaller(i + 1, n);
        ret := Signed(n, b * P(i) + ret);
      }
      assert bs[..n] == bs;
    }

    method IsTgfidValid() returns (valid: bool)
      ensures valid <==> Padded(file, 8) != [255, 255, 255, 255, 255, 255, 255, 255]
    {
      MinusOne();
      var res := Get(8);
      OnlyMinusOne(8, Padded(file, 8));
      valid := res != -1;
    }
  }

  // ---- which byte is where ----

  lemma MinusOne()
    ensures Bytes(8, -1) == [255, 255, 255, 255, 255, 255, 255, 255]
  {
    assert Bytes(4, -1) == [255, 255, 255, 255];
  }

  /** The i-th byte of a file holds the i-th digit to base 256, the lowest first. */
  lemma {:induction false} ByteIs(n: nat, x: int, i: nat)
    requires i < n
    ensures Bytes(n, x)[i] == x / P(i) % 256
  {
    if i > 0 {
      ByteIs(n - 1, x / 256, i - 1);
      DivDiv(x, P(i - 1));
    }
  }

  lemma DivDiv(x: int, p: nat)
    requires p > 0
    ensures x / 256 / p == x / (256 * p)
  {
    var q, r := x / (256 * p), x % (256 * p);
    assert x == 256 * (p * q) + r;
    assert x / 256 == p * q + r / 256;
    assert 0 <= r / 256 < p;
    QuotientIs(x / 256, p, q, r / 256);
  }

  lemma QuotientIs(y: int, p: nat, q: int, s: int)
    requires p > 0 && y == p * q + s && 0 <= s < p
    ensures y / p == q
  {
    var d := y / p - q;
    assert p * d == s - y % p;
    MultipleOf(p, d);
  }

  lemma MultipleOf(p: nat, d: int)
    ensures (d >= 1 ==> p * d >= p) && (d <= -1 ==> p * d <= -(p as int))
  {}

  /** A short file reads as its bytes alone, and of a long one only the first n count. */
  lemma {:induction false} ShortAndLong(file: seq<byte>, n: nat)
    ensures |file| <= n ==> Unsigned(Padded(file, n)) == Unsigned(file)
    ensures |file| >= n ==> Padded(file, n) == file[..n]
    decreases n
  {
    if 0 < n {
      if file == [] {
        assert Padded(file, n)[1..] == Padded(file, n - 1);
        ShortAndLong(file, n - 1);
      } else {
        assert Padded(file, n)[1..] == Padded(file[1..], n - 1);
        ShortAndLong(file[1..], n - 1);
      }
    }
  }

  // ---- the two directions ----

  lemma {:induction false} UnsignedMore(bs: seq<byte>, b: byte)
    ensures Unsigned(bs + [b]) == b * P(|bs|) + Unsigned(bs)
    ensures Unsigned(bs) < P(|bs|) ==> Unsigned(bs + [b]) < P(|bs| + 1)
  {
    if bs == [] {
      assert (bs + [b])[1..] == [];
    } else {
      assert (bs + [b])[1..] == bs[1..] + [b];
      UnsignedMore(bs[1..], b);
      var p := P(|bs| - 1);
      assert 256 * (b * p) == b * (256 * p);
    }
    Product(b, P(|bs|));
  }

  lemma Product(b: byte, p: nat)
    ensures b * p + p <= 256 * p
  {}

  lemma {:induction false} Smaller(i: nat, n: nat)
    requires i <= n
    ensures i < n ==> 2 * P(i) <= P(n)
    ensures P(i) <= P(n)
    decreases n - i
  {
    if i < n { Smaller(i + 1, n); }
  }

  lemma {:induction false} UnsignedBelow(bs: seq<byte>)
    ensures Unsigned(bs) < P(|bs|)
  {
    if bs != [] { UnsignedBelow(bs[1..]); }
  }

  /** The bytes of x are those of its remainder: x is a multiple of 256^n away from their value. */
  lemma {:induction false} UnsignedOfBytes(n: nat, x: int) returns (q: int)
    ensures x == P(n) * q + Unsigned(Bytes(n, x))
  {
    if n == 0 {
      q := x;
    } else {
      q := UnsignedOfBytes(n - 1, x / 256);
      assert Bytes(n, x)[1..] == Bytes(n - 1, x / 256);
      var p, u := P(n - 1), Unsigned(Bytes(n - 1, x / 256));
      assert 256 * (p * q + u) == (256 * p) * q + 256 * u;
    }
  }

  lemma Multiples(p: nat, q: int)
    ensures q >= 1 ==> p * q >= p
    ensures q <= -2 ==> p * q + 2 * p <= 0
  {}

  lemma NearZero(p: nat, q: int, u: nat, x: int)
    requires p > 0 && u < p && x == p * q + u && 0 <= 2 * x + p && 2 * x < p
    ensures x == if 2 * u < p then u else u - p
  {
    Multiples(p, q);
  }

  /** Reading back gives every number that fits. */
  lemma ReadsBack(n: nat, x: int)
    requires n > 0 && Fits(n, x)
    ensures Signed(n, Unsigned(Padded(Bytes(n, x), n))) == x
  {
    assert Padded(Bytes(n, x), n) == Bytes(n, x);
    UnsignedBelow(Bytes(n, x));
    var q := UnsignedOfBytes(n, x);
    NearZero(P(n), q, Unsigned(Bytes(n, x)), x);
  }

  lemma {:induction false} BytesOfUnsigned(bs: seq<byte>, k: int)
    ensures Bytes(|bs|, Unsigned(bs) + k * P(|bs|)) == bs
  {
    if bs != [] {
      var p, u := P(|bs| - 1), Unsigned(bs[1..]);
      assert k * (256 * p) == 256 * (k * p);
      var x := bs[0] + 256 * (u + k * p);
      assert x / 256 == u + k * p && x % 256 == bs[0];
      BytesOfUnsigned(bs[1..], k);
      assert bs == [bs[0]] + bs[1..];
    }
  }

  /** And every file of n bytes holds the number it is read as, which fits. */
  lemma WritesBack(n: nat, bs: seq<byte>)
    requires n > 0 && |bs| == n
    ensures Fits(n, Signed(n, Unsigned(bs))) && Bytes(n, Signed(n, Unsigned(bs))) == bs
  {
    UnsignedBelow(bs);
    BytesOfUnsigned(bs, 0);
    BytesOfUnsigned(bs, -1);
  }

  lemma OnlyMinusOne(n: nat, bs: seq<byte>)
    requires n > 0 && |bs| == n
    ensures Signed(n, Unsigned(bs)) == -1 <==> bs == Bytes(n, -1)
  {
    WritesBack(n, bs);
    ReadsBack(n, -1);
    assert Padded(Bytes(n, -1), n) == Bytes(n, -1);
  }

  /** The stored chat id counts as valid exactly when it is not -1. */
  lemma ValidExactly(x: int)
    requires Fits(8, x)
    ensures Padded(Bytes(8, x), 8) != [255, 255, 255, 255, 255, 255, 255, 255] <==> x != -1
  {
    MinusOne();
    assert Padded(Bytes(8, x), 8) == Bytes(8, x);
    ReadsBack(8, x);
    OnlyMinusOne(8, Bytes(8, x));
  }

  lemma Widths()
    ensures P(4) == 0x1_0000_0000 && P(8) == 0x1_0000_0000_0000_0000
  {
    assert P(1) == 0x100 && P(2) == 0x1_0000 && P(3) == 0x100_0000;
    assert P(5) == 0x100_0000_0000 && P(6) == 0x1_0000_0000_0000 && P(7) == 0x100_0000_0000_0000;
  }

  /** At the program's widths: every int32_t API id and every int64_t chat id comes back from its file. */
  lemma StoredNumbersComeBack(apiId: int, tgfid: int)
    requires -0x8000_0000 <= apiId < 0x8000_0000
    requires -0x8000_0000_0000_0000 <= tgfid < 0x8000_0000_0000_0000
    ensures Signed(4, Unsigned(Padded(Bytes(4, apiId), 4))) == apiId
    ensures Signed(8, Unsigned(Padded(Bytes(8, tgfid), 8))) == tgfid
  {
    hide P, Bytes, Unsigned, Padded;
    Widths();
    ReadsBack(4, apiId);
    ReadsBack(8, tgfid);
  }
}
