/** The Go implementation: it fills a byte array, and parses by decoding and printing again. */
module GoPlatformId {
  import opened Sql
  import opened Patterns
  import opened HexText
  import opened PlatformId

  datatype Error =
    | UnsupportedPrefix | NoRandomness | OutOfRange | ReadFailed
    | NoSeparator | NotLowercase | BadSeparators | Malformed | WrongVersion | WrongVariant | NotCanonical

  datatype Result<T> = Ok(value: T) | Err(error: Error)

  /** `fmt.Sprintf("%08x-%04x-%04x-%04x-%012x", …)`: four numbers and a slice. */
  function Format(raw: seq<Byte>): string
    requires |raw| == 16
  {
    PaddedHex(FromBytes(raw[0..4]), 8) + "-" + PaddedHex(FromBytes(raw[4..6]), 4) + "-" +
    PaddedHex(FromBytes(raw[6..8]), 4) + "-" + PaddedHex(FromBytes(raw[8..10]), 4) + "-" + HexBytes(raw[10..16])
  }

  /** `fmt.Sprintf("%x-%x-%x-%x-%x", …)`: five slices. */
  function FormatSlices(raw: seq<Byte>): string
    requires |raw| == 16
  {
    HexBytes(raw[0..4]) + "-" + HexBytes(raw[4..6]) + "-" + HexBytes(raw[6..8]) + "-" +
    HexBytes(raw[8..10]) + "-" + HexBytes(raw[10..16])
  }

  lemma HexOfParts(a: seq<Byte>, b: seq<Byte>, c: seq<Byte>, d: seq<Byte>, e: seq<Byte>)
    ensures HexBytes(a + b + c + d + e) == HexBytes(a) + HexBytes(b) + HexBytes(c) + HexBytes(d) + HexBytes(e)
  {
    HexBytesAppend(a, b);
    HexBytesAppend(a + b, c);
    HexBytesAppend(a + b + c, d);
    HexBytesAppend(a + b + c + d, e);
  }

  lemma HyphenateParts(a: string, b: string, c: string, d: string, e: string)
    requires |a| == 8 && |b| == |c| == |d| == 4 && |e| == 12
    ensures Hyphenate(a + b + c + d + e) == a + "-" + b + "-" + c + "-" + d + "-" + e
  {
    var h := a + b + c + d + e;
    assert h[..8] == a && h[8..12] == b && h[12..16] == c && h[16..20] == d && h[20..] == e;
  }

  lemma SlicesAreUuid(raw: seq<Byte>)
    requires |raw| == 16
    ensures FormatSlices(raw) == Uuid(raw)
  {
    HexOfParts(raw[0..4], raw[4..6], raw[6..8], raw[8..10], raw[10..16]);
    assert raw == raw[0..4] + raw[4..6] + raw[6..8] + raw[8..10] + raw[10..16];
    HyphenateParts(HexBytes(raw[0..4]), HexBytes(raw[4..6]), HexBytes(raw[6..8]), HexBytes(raw[8..10]),
                   HexBytes(raw[10..16]));
  }

  lemma FormatIsUuid(raw: seq<Byte>)
    requires |raw| == 16
    ensures Format(raw) == Uuid(raw)
  {
    PaddedIsBytes(raw[0..4]);
    PaddedIsBytes(raw[4..6]);
    PaddedIsBytes(raw[6..8]);
    PaddedIsBytes(raw[8..10]);
    SlicesAreUuid(raw);
  }

  lemma TimeBytes(ms: nat)
    ensures BigEndian(ms, 6) ==
      [ms / 0x100_0000_0000 % 256, ms / 0x1_0000_0000 % 256, ms / 0x100_0000 % 256, ms / 0x1_0000 % 256,
       ms / 0x100 % 256, ms % 256]
  {
    assert ms / 256 / 256 == ms / 0x1_0000;
    assert ms / 0x1_0000 / 256 == ms / 0x100_0000;
    assert ms / 0x100_0000 / 256 == ms / 0x1_0000_0000;
    assert ms / 0x1_0000_0000 / 256 == ms / 0x100_0000_0000;
    assert BigEndian(ms / 0x100_0000_0000, 1) == [ms / 0x100_0000_0000 % 256];
    assert BigEndian(ms / 0x1_0000_0000, 2) == BigEndian(ms / 0x100_0000_0000, 1) + [ms / 0x1_0000_0000 % 256];
    assert BigEndian(ms / 0x100_0000, 3) == BigEndian(ms / 0x1_0000_0000, 2) + [ms / 0x100_0000 % 256];
    assert BigEndian(ms / 0x1_0000, 4) == BigEndian(ms / 0x100_0000, 3) + [ms / 0x1_0000 % 256];
    assert BigEndian(ms / 256, 5) == BigEndian(ms / 0x1_0000, 4) + [ms / 256 % 256];
  }

  /** Overwrites the time, the version and the variant. */
  method Stamp(raw: array<Byte>, ms: nat)
    requires raw.Length == 16
    modifies raw
    ensures raw[..] == Layout(ms, old(raw[6..16]))
  {
    ghost var tail := raw[6..16];
    raw[0] := ms / 0x100_0000_0000 % 256;
    raw[1] := ms / 0x1_0000_0000 % 256;
    raw[2] := ms / 0x100_0000 % 256;
    raw[3] := ms / 0x1_0000 % 256;
    raw[4] := ms / 0x100 % 256;
    raw[5] := ms % 256;
    raw[6] := StampVersion(raw[6]);
    raw[8] := StampVariant(raw[8]);
    TimeBytes(ms);
    assert raw[..][..6] == BigEndian(ms, 6);
    assert raw[..][9..] == tail[3..];
    LayoutFrom(ms, tail, raw[..]);
  }

  /** The randomness is what the reader yields; no reader is None. */
  method NewAt(prefix: string, ms: int, randomness: Option<seq<Byte>>) returns (r: Result<string>)
    ensures r.Ok? <==>
      prefix in PREFIXES && randomness.Some? && 0 <= ms < END_OF_TIME && |randomness.value| >= 16
    ensures r.Ok? ==> r.value == IdText(prefix, ms, randomness.value[6..16])
    ensures r.Err? ==> (r.error == if prefix !in PREFIXES then UnsupportedPrefix
                                   else if randomness == None then NoRandomness
                                   else if ms < 0 || ms >= END_OF_TIME then OutOfRange else ReadFailed)
  {
    if prefix !in PREFIXES { return Err(UnsupportedPrefix); }
    if randomness == None { return Err(NoRandomness); }
    if ms < 0 || ms > END_OF_TIME - 1 { return Err(OutOfRange); }
    if |randomness.value| < 16 { return Err(ReadFailed); }
    var random := randomness.value;
    var raw := new Byte[16](i requires 0 <= i < 16 => random[i]);
    assert raw[6..16] == random[6..16];
    Stamp(raw, ms);
    FormatIsUuid(raw[..]);
    return Ok(prefix + "_" + Format(raw[..]));
  }

  // ----- Parse

  /** `strings.Cut` at the first occurrence, or -1. */
  function IndexOf(s: string, c: char): (r: int)
    ensures -1 <= r < |s|
    ensures r >= 0 ==> s[r] == c && c !in s[..r]
    ensures r == -1 ==> c !in s
  {
    if s == [] then -1
    else if s[0] == c then 0
    else
      var r := IndexOf(s[1..], c);
      if r == -1 then
        assert s == [s[0]] + s[1..];
        -1
      else
        assert s[..r + 1] == [s[0]] + s[1..][..r];
        r + 1
  }

  lemma {:induction false} IndexIs(s: string, c: char, k: nat)
    requires k < |s| && s[k] == c && forall j :: 0 <= j < k ==> s[j] != c
    ensures IndexOf(s, c) == k
  {
    if k > 0 { IndexIs(s[1..], c, k - 1); }
  }

  /** `strings.ReplaceAll(s, "-", "")`. */
  function Compact(s: string): (r: string)
    ensures |r| <= |s|
  {
    if s == [] then [] else Compact(s[..|s| - 1]) + if s[|s| - 1] == '-' then [] else [s[|s| - 1]]
  }

  lemma {:induction false} CompactAppend(a: string, b: string)
    ensures Compact(a + b) == Compact(a) + Compact(b)
  {
    if b == [] {
      assert a + b == a;
    } else {
      assert (a + b)[..|a + b| - 1] == a + b[..|b| - 1];
      CompactAppend(a, b[..|b| - 1]);
    }
  }

  lemma {:induction false} CompactHex(s: string)
    requires AllHex(s)
    ensures Compact(s) == s
  {
    if s != [] { CompactHex(s[..|s| - 1]); }
  }

  lemma CompactDash(a: string, b: string)
    requires AllHex(b)
    ensures Compact(a + "-" + b) == Compact(a) + b
  {
    assert Compact("-") == "" by { assert "-"[..0] == ""; }
    assert Compact(a + "-") == Compact(a) by { CompactAppend(a, "-"); }
    CompactHex(b);
    CompactAppend(a + "-", b);
  }

  lemma CompactPattern(u: string)
    requires UuidPattern(u)
    ensures Compact(u) == Digits(u) && Compact(u[..13]) == u[..8] + u[9..13]
  {
    CompactHex(u[..8]);
    CompactDash(u[..8], u[9..13]);
    assert u[..13] == u[..8] + "-" + u[9..13];
    CompactDash(u[..13], u[14..18]);
    assert u[..18] == u[..13] + "-" + u[14..18];
    CompactDash(u[..18], u[19..23]);
    assert u[..23] == u[..18] + "-" + u[19..23];
    CompactDash(u[..23], u[24..]);
    assert u == u[..23] + "-" + u[24..];
  }

  /** What the decoder's table accepts: upper case too. */
  function NibbleOf(c: char): Option<int> {
    if Hex(c) then Some(HexValue(c)) else if 'A' <= c <= 'F' then Some(c as int - 'A' as int + 10) else None
  }

  lemma NibbleRange(c: char)
    ensures NibbleOf(c).Some? ==> 0 <= NibbleOf(c).value < 16
  {
  }

  /** The byte two accepted digits spell, in either case. */
  function PairOf(high: char, low: char): int
    requires NibbleOf(high).Some? && NibbleOf(low).Some?
  {
    16 * NibbleOf(high).value + NibbleOf(low).value
  }

  /** `hex.Decode`: fills as many bytes as there are pairs of digits. */
  method DecodeInto(raw: array<Byte>, src: string) returns (ok: bool)
    requires |src| <= 2 * raw.Length
    modifies raw
    ensures ok <==> |src| % 2 == 0 && forall k :: 0 <= k < |src| ==> NibbleOf(src[k]).Some?
    ensures ok ==> forall k :: 0 <= k < |src| / 2 ==> raw[k] == PairOf(src[2 * k], src[2 * k + 1])
    ensures AllHex(src) && |src| % 2 == 0 ==> raw[..|src| / 2] == DecodeHex(src)
    ensures forall k :: |src| / 2 <= k < raw.Length ==> raw[k] == old(raw[k])
  {
    var i, j := 0, 1;
    while j < |src|
      invariant j == 2 * i + 1 && i <= |src| / 2
      invariant forall k :: 0 <= k < 2 * i ==> NibbleOf(src[k]).Some?
      invariant forall k :: 0 <= k < i ==> raw[k] == PairOf(src[2 * k], src[2 * k + 1])
      invariant AllHex(src) && |src| % 2 == 0 ==> raw[..i] == DecodeHex(src[..2 * i])
      invariant forall k :: |src| / 2 <= k < raw.Length ==> raw[k] == old(raw[k])
    {
      var a, b := NibbleOf(src[j - 1]), NibbleOf(src[j]);
      NibbleRange(src[j - 1]);
      NibbleRange(src[j]);
      if a == None || b == None { return false; }
      raw[i] := 16 * a.value + b.value;
      assert AllHex(src) && |src| % 2 == 0 ==> raw[..i + 1] == DecodeHex(src[..2 * (i + 1)]) by {
        assert src[..2 * (i + 1)][..2 * i] == src[..2 * i];
        assert raw[..i + 1][..i] == raw[..i];
      }
      i, j := i + 1, j + 2;
    }
    assert |src| % 2 == 0 ==> src[..2 * i] == src;
    return |src| % 2 == 0;
  }

  predicate AnyUpper(s: string) {
    exists i :: 0 <= i < |s| && 'A' <= s[i] <= 'Z'
  }

  /** A matching text is cut at its one separator. */
  lemma PatternCut(s: string, k: nat)
    requires PatternAt(s, k)
    ensures IndexOf(s, '_') == k
  {
    forall j | 0 <= j < k ensures s[j] != '_' { assert s[j] == s[..k][j]; }
    IndexIs(s, '_', k);
  }

  lemma CutMatches(s: string)
    requires IndexOf(s, '_') >= 0
    requires var i := IndexOf(s, '_'); 2 <= i <= 5 && AllLower(s[..i]) && UuidPattern(s[i + 1..])
    ensures PatternAt(s, IndexOf(s, '_'))
  {
  }

  lemma ValidIsCut(s: string)
    requires Valid(s)
    ensures var i := IndexOf(s, '_'); i >= 0 && s[..i] in PREFIXES && UuidPattern(s[i + 1..])
  {
    var k: nat :| 2 <= k <= 5 && PatternAt(s, k) && s[..k] in PREFIXES;
    PatternCut(s, k);
  }

  lemma ValidIff(s: string)
    ensures var i := IndexOf(s, '_');
      Valid(s) <==> i >= 0 && s[..i] in PREFIXES && UuidPattern(s[i + 1..])
  {
    var i := IndexOf(s, '_');
    if Valid(s) { ValidIsCut(s); }
    if i >= 0 && s[..i] in PREFIXES && UuidPattern(s[i + 1..]) {
      PrefixShape(s[..i]);
      CutMatches(s);
    }
  }

  lemma PatternCompacts(u: string)
    requires UuidPattern(u)
    ensures |Compact(u)| == 32 && AllHex(Compact(u))
  {
    CompactPattern(u);
    HyphenateDigits(u);
  }

  lemma PatternDecodes(u: string, raw: seq<Byte>)
    requires UuidPattern(u) && |raw| == 16 && AllHex(Compact(u)) && |Compact(u)| == 32 && raw == DecodeHex(Compact(u))
    ensures HasVersion(raw[6]) && HasVariant(raw[8]) && FormatSlices(raw) == u
  {
    CompactPattern(u);
    UuidRoundTrip(u);
    SlicesAreUuid(raw);
  }

  lemma PatternText(u: string)
    requires UuidPattern(u)
    ensures !AnyUpper(u) && u[8] == '-' && u[13] == '-' && u[18] == '-' && u[23] == '-'
  {
    assert Gap(8) && Gap(13) && Gap(18) && Gap(23);
  }

  /** Decodes the text and compares it with what the bytes print as: an extra hyphen or a missing digit
      cannot survive that. */
  method ParseUuid(uuid: string) returns (error: Option<Error>)
    ensures error == None <==> UuidPattern(uuid)
    ensures error == Some(NotLowercase) <==> |uuid| != 36 || AnyUpper(uuid)
    ensures error == Some(BadSeparators) <==>
      |uuid| == 36 && !AnyUpper(uuid) && !(uuid[8] == uuid[13] == uuid[18] == uuid[23] == '-')
    ensures error.Some? ==> error.value != NoSeparator && error.value != UnsupportedPrefix
  {
    if UuidPattern(uuid) { PatternText(uuid); }
    if |uuid| != 36 || AnyUpper(uuid) { return Some(NotLowercase); }
    if uuid[8] != '-' || uuid[13] != '-' || uuid[18] != '-' || uuid[23] != '-' { return Some(BadSeparators); }
    var compact := Compact(uuid);
    CompactLength(uuid);
    var raw := new Byte[16](_ => 0);
    var decoded := DecodeInto(raw, compact);
    if UuidPattern(uuid) {
      PatternCompacts(uuid);
      assert raw[..16] == raw[..];
      PatternDecodes(uuid, raw[..]);
    }
    if !decoded { return Some(Malformed); }
    if !IsVersion7(raw[6]) { return Some(WrongVersion); }
    if !IsVariant(raw[8]) { return Some(WrongVariant); }
    SlicesAreUuid(raw[..]);
    UuidMatches(raw[..]);
    if uuid != FormatSlices(raw[..]) { return Some(NotCanonical); }
    return None;
  }

  /** Accepts exactly the valid texts, and so exactly what the Ruby pattern accepts. */
  method Parse(value: string) returns (r: Result<string>)
    ensures r.Ok? <==> Valid(value)
    ensures r.Ok? ==> r.value == value
    ensures r == Err(NoSeparator) <==> '_' !in value
    ensures r == Err(UnsupportedPrefix) <==> '_' in value && value[..IndexOf(value, '_')] !in PREFIXES
  {
    ValidIff(value);
    var cut := IndexOf(value, '_');
    if cut < 0 { return Err(NoSeparator); }
    if value[..cut] !in PREFIXES { return Err(UnsupportedPrefix); }
    var error := ParseUuid(value[cut + 1..]);
    if error.Some? { return Err(error.value); }
    return Ok(value);
  }

  lemma CompactLength(u: string)
    requires |u| == 36 && u[8] == '-' && u[13] == '-' && u[18] == '-' && u[23] == '-'
    ensures |Compact(u)| <= 32
  {
    assert u == u[..8] + "-" + u[9..13] + "-" + u[14..18] + "-" + u[19..23] + "-" + u[24..];
    CompactAppend(u[..8] + "-" + u[9..13] + "-" + u[14..18] + "-" + u[19..23] + "-", u[24..]);
    CompactAppend(u[..8] + "-" + u[9..13] + "-" + u[14..18] + "-" + u[19..23], "-");
    CompactAppend(u[..8] + "-" + u[9..13] + "-" + u[14..18] + "-", u[19..23]);
    CompactAppend(u[..8] + "-" + u[9..13] + "-" + u[14..18], "-");
    CompactAppend(u[..8] + "-" + u[9..13] + "-", u[14..18]);
    CompactAppend(u[..8] + "-" + u[9..13], "-");
    CompactAppend(u[..8] + "-", u[9..13]);
    CompactAppend(u[..8], "-");
    assert Compact("-") == "";
  }

  /** The text before the first separator, or the whole text. */
  function Prefix(id: string): string {
    var cut := IndexOf(id, '_');
    if cut < 0 then id else id[..cut]
  }

  lemma TimeText(u: string)
    requires UuidPattern(u)
    ensures AllHex(u[..8] + u[9..13]) && ParseHex(u[..8] + u[9..13]) == Millis(u)
  {
    var b := UuidBytes(u);
    UuidRoundTrip(u);
    LayoutCovers(b);
    TimeDigits(Millis(u), b[6..]);
    DigitsHyphenate(HexBytes(b));
    assert Digits(u)[..12] == u[..8] + u[9..13];
    assert Pow(16, 4) == 0x1_0000 && Pow(16, 8) == 0x1_0000_0000 && Pow(16, 12) == END_OF_TIME;
    ParsePadded(Millis(u), 12);
  }

  /** The millisecond that is in the identifier. */
  method Time(id: string) returns (r: Result<int>)
    ensures r.Ok? <==> Valid(id)
    ensures r.Ok? ==> var cut := IndexOf(id, '_');
      cut >= 0 && UuidPattern(id[cut + 1..]) && r.value == Millis(id[cut + 1..])
  {
    var parsed := Parse(id);
    if parsed.Err? { return Err(parsed.error); }
    ValidIff(id);
    var uuid := parsed.value[IndexOf(parsed.value, '_') + 1..];
    CompactPattern(uuid);
    TimeText(uuid);
    return Ok(ParseHex(Compact(uuid[..13])));
  }

  /** What the accessors answer about a generated identifier. */
  lemma AccessorsOfGenerated(prefix: string, ms: nat, tail: seq<Byte>)
    requires prefix in PREFIXES && |tail| == 10 && ms < END_OF_TIME
    ensures Prefix(IdText(prefix, ms, tail)) == prefix
    ensures var id := IdText(prefix, ms, tail); var cut := IndexOf(id, '_');
      cut >= 0 && UuidPattern(id[cut + 1..]) && Millis(id[cut + 1..]) == ms
  {
    var id := IdText(prefix, ms, tail);
    PrefixShape(prefix);
    GeneratedMatches(prefix, ms, tail);
    PatternCut(id, |prefix|);
  }
}
