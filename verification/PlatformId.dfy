/** Prefixed UUIDv7 identifiers: the layout of section 5.7 of RFC 9562 and the text pattern that accepts it. */
module PlatformId {
  import opened Sql
  import opened Sorting
  import opened Patterns
  import opened HexText
  import opened Bits

  const PREFIXES: set<string> := {
    "acct", "org", "mbr", "inv", "prj", "env", "svc", "src", "snp", "bld", "rev", "dep", "rel", "op", "dom",
    "crt", "rte", "add", "att", "bkp", "rst", "sch", "wh", "whd", "key", "evt", "tgt", "edg", "cell", "pop",
    "use", "sec", "var", "vol", "job", "run", "pol", "inc", "ses", "tok", "upl", "fet", "psb"}

  /** One past the largest 48-bit millisecond value. */
  const END_OF_TIME: int := 0x1_0000_0000_0000

  /** The version, 7, over the high four bits. */
  function WithVersion(b: Byte): Byte { 0x70 + b % 16 }

  /** The variant, binary 10, over the high two bits. */
  function WithVariant(b: Byte): Byte { 0x80 + b % 64 }

  predicate HasVersion(b: Byte) { b / 16 == 7 }

  predicate HasVariant(b: Byte) { b / 64 == 2 }

  /** `0x70 | (b & 0x0f)`, as both implementations write the version. */
  function StampVersion(b: Byte): (r: Byte)
    ensures r == WithVersion(b)
  {
    Sixteenths(b);
    Sixteenths(7);
    AndOnes(b, 4);
    OrShifted(7, b, 4);
    Or(0x70, And(b, 0x0f))
  }

  /** `0x80 | (b & 0x3f)`. */
  function StampVariant(b: Byte): (r: Byte)
    ensures r == WithVariant(b)
  {
    SixtyFourths(b);
    SixtyFourths(2);
    AndOnes(b, 6);
    OrShifted(2, b, 6);
    Or(0x80, And(b, 0x3f))
  }

  /** `b >> 4 == 7`. */
  predicate IsVersion7(b: Byte)
    ensures IsVersion7(b) <==> HasVersion(b)
  {
    Sixteenths(b);
    ShiftRight(b, 4) == 7
  }

  /** `b & 0xc0 == 0x80`. */
  predicate IsVariant(b: Byte)
    ensures IsVariant(b) <==> HasVariant(b)
  {
    SixtyFourths(b);
    SixtyFourths(3);
    SixtyFourths(And(b / 64, 3));
    AndShifted(b, 3, 6);
    AndOnes(b / 64, 2);
    Quarters(b / 64);
    assert Ones(2) == 3;
    And(b, 0xc0) == 0x80
  }

  /** Six bytes of time, ten of randomness, version and variant written over them. */
  function Layout(ms: nat, tail: seq<Byte>): (b: seq<Byte>)
    requires |tail| == 10
    ensures |b| == 16
  {
    BigEndian(ms, 6) + [WithVersion(tail[0]), tail[1], WithVariant(tail[2])] + tail[3..]
  }

  lemma LayoutFrom(ms: nat, tail: seq<Byte>, raw: seq<Byte>)
    requires |tail| == 10 && |raw| == 16 && raw[..6] == BigEndian(ms, 6)
    requires raw[6] == WithVersion(tail[0]) && raw[7] == tail[1] && raw[8] == WithVariant(tail[2])
    requires raw[9..] == tail[3..]
    ensures raw == Layout(ms, tail)
  {
    assert raw == raw[..6] + [raw[6], raw[7], raw[8]] + raw[9..];
  }

  function Hyphenate(h: string): string
    requires |h| == 32
  {
    h[..8] + "-" + h[8..12] + "-" + h[12..16] + "-" + h[16..20] + "-" + h[20..]
  }

  function Uuid(b: seq<Byte>): string
    requires |b| == 16
  {
    Hyphenate(HexBytes(b))
  }

  function IdText(prefix: string, ms: nat, tail: seq<Byte>): string
    requires |tail| == 10
  {
    prefix + "_" + Uuid(Layout(ms, tail))
  }

  /** The positions of the hyphens. */
  predicate Gap(i: int) { i == 8 || i == 13 || i == 18 || i == 23 }

  /** `[0-9a-f]{8}-[0-9a-f]{4}-7[0-9a-f]{3}-[89ab][0-9a-f]{3}-[0-9a-f]{12}` */
  predicate UuidPattern(u: string) {
    && |u| == 36
    && (forall i :: 0 <= i < 36 ==> if Gap(i) then u[i] == '-' else Hex(u[i]))
    && u[14] == '7'
    && (u[19] == '8' || u[19] == '9' || u[19] == 'a' || u[19] == 'b')
  }

  /** `\A([a-z]{2,5})_(uuid)\z`, the prefix being `k` characters long. */
  predicate PatternAt(s: string, k: nat) {
    && 2 <= k <= 5 && |s| == k + 37
    && AllLower(s[..k]) && s[k] == '_' && UuidPattern(s[k + 1..])
  }

  /** A text of the pattern with a known prefix, the given one if there is one. */
  predicate ValidFor(s: string, prefix: Option<string>) {
    exists k: nat :: 2 <= k <= 5 && PatternAt(s, k) && s[..k] in PREFIXES && (prefix == None || s[..k] == prefix.value)
  }

  predicate Valid(s: string) { ValidFor(s, None) }

  // ----- Texts and bytes

  /** The digits of a hyphenated text. */
  function Digits(u: string): string
    requires |u| == 36
  {
    u[..8] + u[9..13] + u[14..18] + u[19..23] + u[24..]
  }

  lemma HyphenateDigits(u: string)
    requires UuidPattern(u)
    ensures |Digits(u)| == 32 && AllHex(Digits(u)) && Hyphenate(Digits(u)) == u
  {
    var h := Digits(u);
    forall i | 0 <= i < 32 ensures Hex(h[i]) {
      var j := if i < 8 then i else if i < 12 then i + 1 else if i < 16 then i + 2 else if i < 20 then i + 3 else i + 4;
      assert h[i] == u[j] && !Gap(j);
    }
    assert h[..8] == u[..8] && h[8..12] == u[9..13] && h[12..16] == u[14..18] && h[16..20] == u[19..23];
    assert h[20..] == u[24..];
    assert Gap(8) && Gap(13) && Gap(18) && Gap(23);
    assert u == u[..8] + "-" + u[9..13] + "-" + u[14..18] + "-" + u[19..23] + "-" + u[24..];
  }

  lemma DigitsHyphenate(h: string)
    requires |h| == 32 && AllHex(h)
    ensures |Hyphenate(h)| == 36 && Digits(Hyphenate(h)) == h
    ensures forall i :: 0 <= i < 36 ==> if Gap(i) then Hyphenate(h)[i] == '-' else Hex(Hyphenate(h)[i])
    ensures Hyphenate(h)[14] == h[12] && Hyphenate(h)[19] == h[16]
  {
    var u := Hyphenate(h);
    assert u[..8] == h[..8] && u[9..13] == h[8..12] && u[14..18] == h[12..16] && u[19..23] == h[16..20];
    assert u[24..] == h[20..];
    assert h == h[..8] + h[8..12] + h[12..16] + h[16..20] + h[20..];
    forall i | 0 <= i < 36 ensures if Gap(i) then u[i] == '-' else Hex(u[i]) {
      if !Gap(i) {
        var j :=
          if i < 8 then i else if i < 13 then i - 1 else if i < 18 then i - 2 else if i < 23 then i - 3 else i - 4;
        assert u[i] == h[j];
      }
    }
  }

  lemma {:induction false} HexBytesAt(bs: seq<Byte>, i: nat)
    requires i < |bs|
    ensures HexBytes(bs)[2 * i] == HexDigit(bs[i] / 16) && HexBytes(bs)[2 * i + 1] == HexDigit(bs[i] % 16)
  {
    if i < |bs| - 1 { HexBytesAt(bs[..|bs| - 1], i); }
  }

  /** A printed UUID matches the pattern exactly when its version and variant bits are right. */
  lemma UuidMatches(b: seq<Byte>)
    requires |b| == 16
    ensures UuidPattern(Uuid(b)) <==> HasVersion(b[6]) && HasVariant(b[8])
  {
    DigitsHyphenate(HexBytes(b));
    HexBytesAt(b, 6);
    HexBytesAt(b, 8);
    VersionDigit(b[6]);
    VariantDigit(b[8]);
  }

  lemma VersionDigit(b: Byte)
    ensures HexDigit(b / 16) == '7' <==> HasVersion(b)
  {
  }

  lemma VariantDigit(b: Byte)
    ensures HexDigit(b / 16) in {'8', '9', 'a', 'b'} <==> HasVariant(b)
  {
    assert b / 64 == b / 16 / 4;
  }

  /** The bytes a matching text spells. */
  function UuidBytes(u: string): (b: seq<Byte>)
    requires UuidPattern(u)
    ensures |b| == 16
  {
    HyphenateDigits(u);
    DecodeHex(Digits(u))
  }

  lemma UuidRoundTrip(u: string)
    requires UuidPattern(u)
    ensures Uuid(UuidBytes(u)) == u && HasVersion(UuidBytes(u)[6]) && HasVariant(UuidBytes(u)[8])
  {
    HyphenateDigits(u);
    EncodeDecode(Digits(u));
    UuidMatches(UuidBytes(u));
  }

  // ----- Identifiers

  lemma PrefixShape(p: string)
    requires p in PREFIXES
    ensures 2 <= |p| <= 4 && AllLower(p)
  {
  }

  /** The millisecond value in the first twelve digits. */
  function Millis(u: string): nat
    requires UuidPattern(u)
  {
    FromBytes(UuidBytes(u)[..6])
  }

  lemma PatternSplits(p: string, u: string)
    requires UuidPattern(u) && 2 <= |p| <= 5 && AllLower(p)
    ensures PatternAt(p + "_" + u, |p|) && (p + "_" + u)[..|p|] == p
  {
    var s := p + "_" + u;
    assert s[..|p|] == p && s[|p| + 1..] == u;
  }

  lemma LayoutMatches(ms: nat, tail: seq<Byte>)
    requires |tail| == 10 && ms < END_OF_TIME
    ensures var u := Uuid(Layout(ms, tail)); UuidPattern(u) && UuidBytes(u) == Layout(ms, tail) && Millis(u) == ms
  {
    var b := Layout(ms, tail);
    UuidMatches(b);
    DigitsHyphenate(HexBytes(b));
    DecodeEncode(b);
    assert b[..6] == BigEndian(ms, 6);
    FromBigEndian(ms, 6);
  }

  /** Every identifier that is generated is valid, carries its prefix and gives back its millisecond. */
  lemma GeneratedIsValid(prefix: string, ms: nat, tail: seq<Byte>)
    requires prefix in PREFIXES && |tail| == 10 && ms < END_OF_TIME
    ensures Valid(IdText(prefix, ms, tail))
    ensures PatternAt(IdText(prefix, ms, tail), |prefix|) && IdText(prefix, ms, tail)[..|prefix|] == prefix
    ensures Millis(IdText(prefix, ms, tail)[|prefix| + 1..]) == ms
  {
    PrefixShape(prefix);
    GeneratedMatches(prefix, ms, tail);
  }

  lemma GeneratedMatches(prefix: string, ms: nat, tail: seq<Byte>)
    requires 2 <= |prefix| <= 5 && AllLower(prefix) && |tail| == 10 && ms < END_OF_TIME
    ensures PatternAt(IdText(prefix, ms, tail), |prefix|) && IdText(prefix, ms, tail)[..|prefix|] == prefix
    ensures Millis(IdText(prefix, ms, tail)[|prefix| + 1..]) == ms
  {
    LayoutMatches(ms, tail);
    var u := Uuid(Layout(ms, tail));
    PatternSplits(prefix, u);
    assert IdText(prefix, ms, tail)[|prefix| + 1..] == u;
  }

  lemma LayoutCovers(b: seq<Byte>)
    requires |b| == 16 && HasVersion(b[6]) && HasVariant(b[8])
    ensures Layout(FromBytes(b[..6]), b[6..]) == b && FromBytes(b[..6]) < END_OF_TIME
  {
    FromBytesBound(b[..6]);
  }

  /** Every valid identifier is generated: from its own prefix, its own millisecond and its last ten bytes. */
  lemma ValidIsGenerated(s: string, k: nat)
    requires PatternAt(s, k)
    ensures var u := s[k + 1..];
      && Millis(u) < END_OF_TIME
      && s == IdText(s[..k], Millis(u), UuidBytes(u)[6..])
  {
    var u := s[k + 1..];
    UuidRoundTrip(u);
    LayoutCovers(UuidBytes(u));
    assert s == s[..k] + "_" + u;
  }

  // ----- Order

  lemma TimeDigits(ms: nat, tail: seq<Byte>)
    requires |tail| == 10 && ms < END_OF_TIME
    ensures HexBytes(Layout(ms, tail))[..12] == PaddedHex(ms, 12)
  {
    var b := Layout(ms, tail);
    HexBytesAppend(b[..6], b[6..]);
    assert b == b[..6] + b[6..] && b[..6] == BigEndian(ms, 6);
    FromBigEndian(ms, 6);
    PaddedIsBytes(b[..6]);
  }

  lemma HyphenateBelow(g: string, h: string)
    requires |g| == |h| == 32 && Below(g[..12], h[..12])
    ensures Below(Hyphenate(g), Hyphenate(h))
  {
    BelowTakes(g[..12], h[..12], 8);
    assert g[..12][..8] == g[..8] && h[..12][..8] == h[..8];
    assert g[..12][8..] == g[8..12] && h[..12][8..] == h[8..12];
    var x := "-" + g[8..12] + "-" + g[12..16] + "-" + g[16..20] + "-" + g[20..];
    var y := "-" + h[8..12] + "-" + h[12..16] + "-" + h[16..20] + "-" + h[20..];
    assert Hyphenate(g) == g[..8] + x && Hyphenate(h) == h[..8] + y;
    if !Below(g[..8], h[..8]) {
      BelowPrefix(g[8..12], h[8..12], "-" + g[12..16] + "-" + g[16..20] + "-" + g[20..],
                  "-" + h[12..16] + "-" + h[16..20] + "-" + h[20..]);
      assert x[1..] == g[8..12] + ("-" + g[12..16] + "-" + g[16..20] + "-" + g[20..]);
      assert y[1..] == h[8..12] + ("-" + h[12..16] + "-" + h[16..20] + "-" + h[20..]);
      assert Below(x, y);
    }
    BelowPrefix(g[..8], h[..8], x, y);
  }

  lemma {:induction false} BelowTakes(a: string, b: string, n: nat)
    requires Below(a, b) && n <= |a| == |b|
    ensures Below(a[..n], b[..n]) || (a[..n] == b[..n] && Below(a[n..], b[n..]))
  {
    if n > 0 && a[0] == b[0] {
      BelowTakes(a[1..], b[1..], n - 1);
      assert a[..n] == [a[0]] + a[1..][..n - 1] && b[..n] == [b[0]] + b[1..][..n - 1];
      assert a[n..] == a[1..][n - 1..] && b[n..] == b[1..][n - 1..];
    }
  }

  /** Identifiers of one kind sort by time: an earlier millisecond gives a smaller text. */
  lemma OrderFollowsTime(prefix: string, ms: nat, tail: seq<Byte>, later: nat, other: seq<Byte>)
    requires |tail| == |other| == 10 && ms < later < END_OF_TIME
    ensures Below(IdText(prefix, ms, tail), IdText(prefix, later, other))
  {
    var g, h := HexBytes(Layout(ms, tail)), HexBytes(Layout(later, other));
    TimeDigits(ms, tail);
    TimeDigits(later, other);
    assert Pow(16, 4) == 0x1_0000 && Pow(16, 8) == 0x1_0000_0000 && Pow(16, 12) == END_OF_TIME;
    PaddedMonotonic(ms, later, 12);
    HyphenateBelow(g, h);
    BelowPrefix(prefix + "_", prefix + "_", Hyphenate(g), Hyphenate(h));
  }
}
