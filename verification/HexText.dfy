/** Bytes, numbers and their hexadecimal text. */
module HexText {
  import opened Sorting
  import opened Patterns

  type Byte = b: int | 0 <= b < 256

  function HexDigit(d: int): (c: char)
    requires 0 <= d < 16
    ensures Hex(c) && HexValue(c) == d
  {
    if d < 10 then ('0' as int + d) as char else ('a' as int + d - 10) as char
  }

  function HexValue(c: char): (d: int)
    requires Hex(c)
    ensures 0 <= d < 16
  {
    if Digit(c) then c as int - '0' as int else c as int - 'a' as int + 10
  }

  function HexByte(b: Byte): string {
    [HexDigit(b / 16), HexDigit(b % 16)]
  }

  /** `%x` of a byte slice. */
  function HexBytes(bs: seq<Byte>): (s: string)
    ensures |s| == 2 * |bs| && AllHex(s)
  {
    if bs == [] then [] else HexBytes(bs[..|bs| - 1]) + HexByte(bs[|bs| - 1])
  }

  /** `%0wx` of a number below `16^w`. */
  function PaddedHex(n: nat, w: nat): (s: string)
    ensures |s| == w && AllHex(s)
  {
    if w == 0 then [] else PaddedHex(n / 16, w - 1) + [HexDigit(n % 16)]
  }

  /** The number a hexadecimal text denotes. */
  function ParseHex(s: string): nat
    requires AllHex(s)
  {
    if s == [] then 0 else 16 * ParseHex(s[..|s| - 1]) + HexValue(s[|s| - 1])
  }

  /** The low `k` bytes of a number, most significant first. */
  function BigEndian(n: nat, k: nat): (bs: seq<Byte>)
    ensures |bs| == k
  {
    if k == 0 then [] else BigEndian(n / 256, k - 1) + [n % 256]
  }

  function FromBytes(bs: seq<Byte>): nat {
    if bs == [] then 0 else 256 * FromBytes(bs[..|bs| - 1]) + bs[|bs| - 1]
  }

  function Pow(base: nat, k: nat): nat {
    if k == 0 then 1 else base * Pow(base, k - 1)
  }

  lemma HexBytesSnoc(bs: seq<Byte>, b: Byte)
    ensures HexBytes(bs + [b]) == HexBytes(bs) + HexByte(b)
  {
    assert (bs + [b])[..|bs|] == bs;
  }

  lemma {:induction false} HexBytesAppend(a: seq<Byte>, b: seq<Byte>)
    ensures HexBytes(a + b) == HexBytes(a) + HexBytes(b)
  {
    if b == [] {
      assert a + b == a;
    } else {
      assert (a + b)[..|a + b| - 1] == a + b[..|b| - 1];
      HexBytesAppend(a, b[..|b| - 1]);
    }
  }

  lemma Nibbles(q: nat, b: Byte)
    ensures var n := 256 * q + b; n / 16 / 16 == q && n / 16 % 16 == b / 16 && n % 16 == b % 16
  {
    assert 256 * q + b == 16 * (16 * q + b / 16) + b % 16;
  }

  lemma PaddedTwo(q: nat, b: Byte, w: nat)
    ensures PaddedHex(256 * q + b, w + 2) == PaddedHex(q, w) + HexByte(b)
  {
    Nibbles(q, b);
    var n := 256 * q + b;
    assert PaddedHex(n / 16, w + 1) == PaddedHex(q, w) + [HexDigit(b / 16)];
  }

  /** Printing a byte slice and printing the number it spells are the same. */
  lemma {:induction false} PaddedIsBytes(bs: seq<Byte>)
    ensures PaddedHex(FromBytes(bs), 2 * |bs|) == HexBytes(bs)
  {
    if bs != [] {
      PaddedIsBytes(bs[..|bs| - 1]);
      PaddedTwo(FromBytes(bs[..|bs| - 1]), bs[|bs| - 1], 2 * |bs| - 2);
    }
  }

  lemma {:induction false} FromBigEndian(n: nat, k: nat)
    requires n < Pow(256, k)
    ensures FromBytes(BigEndian(n, k)) == n
  {
    if k > 0 {
      assert n / 256 < Pow(256, k - 1);
      FromBigEndian(n / 256, k - 1);
    }
  }

  lemma {:induction false} FromBytesBound(bs: seq<Byte>)
    ensures FromBytes(bs) < Pow(256, |bs|)
    ensures BigEndian(FromBytes(bs), |bs|) == bs
  {
    if bs != [] { FromBytesBound(bs[..|bs| - 1]); }
  }

  lemma {:induction false} ParsePadded(n: nat, w: nat)
    requires n < Pow(16, w)
    ensures ParseHex(PaddedHex(n, w)) == n
  {
    if w > 0 {
      assert n / 16 < Pow(16, w - 1);
      ParsePadded(n / 16, w - 1);
    }
  }

  lemma {:induction false} BelowPrefix(a: string, b: string, x: string, y: string)
    requires |a| == |b| && (Below(a, b) || (a == b && Below(x, y)))
    ensures Below(a + x, b + y)
  {
    if a == [] {
      assert a + x == x && b + y == y;
    } else {
      assert (a + x)[1..] == a[1..] + x && (b + y)[1..] == b[1..] + y;
      if a[0] == b[0] { BelowPrefix(a[1..], b[1..], x, y); }
    }
  }

  /** Padded numbers sort as texts the way they sort as numbers. */
  lemma {:induction false} PaddedMonotonic(n: nat, m: nat, w: nat)
    requires n < m < Pow(16, w)
    ensures Below(PaddedHex(n, w), PaddedHex(m, w))
  {
    if w > 0 {
      assert m / 16 < Pow(16, w - 1);
      if n / 16 < m / 16 { PaddedMonotonic(n / 16, m / 16, w - 1); }
      BelowPrefix(PaddedHex(n / 16, w - 1), PaddedHex(m / 16, w - 1), [HexDigit(n % 16)], [HexDigit(m % 16)]);
    }
  }

  // ----- Decoding

  function ByteOf(c: char, d: char): Byte
    requires Hex(c) && Hex(d)
  {
    16 * HexValue(c) + HexValue(d)
  }

  /** The bytes of an even number of hexadecimal digits. */
  function DecodeHex(s: string): (bs: seq<Byte>)
    requires AllHex(s) && |s| % 2 == 0
    ensures |bs| == |s| / 2
  {
    if s == [] then []
    else DecodeHex(s[..|s| - 2]) + [ByteOf(s[|s| - 2], s[|s| - 1])]
  }

  lemma ByteOfDigits(c: char, d: char)
    requires Hex(c) && Hex(d)
    ensures HexByte(ByteOf(c, d)) == [c, d]
  {
  }

  lemma {:induction false} EncodeDecode(s: string)
    requires AllHex(s) && |s| % 2 == 0
    ensures HexBytes(DecodeHex(s)) == s
  {
    if s != [] {
      var init, c, d := s[..|s| - 2], s[|s| - 2], s[|s| - 1];
      EncodeDecode(init);
      ByteOfDigits(c, d);
      HexBytesSnoc(DecodeHex(init), ByteOf(c, d));
      assert s == init + [c, d];
    }
  }

  lemma {:induction false} DecodeEncode(bs: seq<Byte>)
    ensures DecodeHex(HexBytes(bs)) == bs
  {
    if bs != [] {
      var init, s := bs[..|bs| - 1], HexBytes(bs);
      DecodeEncode(init);
      assert s[..|s| - 2] == HexBytes(init);
    }
  }
}
