/** The Ruby implementation: it packs the time, edits two bytes, and cuts one long hexadecimal text. */
module RubyPlatformId {
  import opened Sql
  import opened HexText
  import opened PlatformId

  datatype Generated = Id(text: string) | ArgumentError

  lemma PackedTime(ms: nat)
    ensures BigEndian(ms / 0x1_0000, 4) + BigEndian(ms % 0x1_0000, 2) == BigEndian(ms, 6)
  {
    var lo := ms % 0x1_0000;
    assert ms / 256 / 256 == ms / 0x1_0000;
    assert lo % 256 == ms % 256 && lo / 256 % 256 == ms / 256 % 256;
    assert BigEndian(lo, 2) == BigEndian(lo / 256, 1) + [lo % 256];
    assert BigEndian(lo / 256, 1) == [lo / 256 % 256];
    assert BigEndian(ms, 6) == BigEndian(ms / 256, 5) + [ms % 256];
    assert BigEndian(ms / 256, 5) == BigEndian(ms / 0x1_0000, 4) + [ms / 256 % 256];
  }

  /** Packs, and sets the version and variant bytes. */
  method Pack(ms: nat, random: seq<Byte>) returns (bytes: array<Byte>)
    requires |random| == 10
    ensures bytes[..] == Layout(ms, random)
  {
    var packed := BigEndian(ms / 0x1_0000, 4) + BigEndian(ms % 0x1_0000, 2) + random;
    bytes := new Byte[16](i requires 0 <= i < 16 => packed[i]);
    bytes[6] := StampVersion(bytes[6]);
    bytes[8] := StampVariant(bytes[8]);
    PackedTime(ms);
    assert packed[..6] == BigEndian(ms, 6) && packed[6..] == random;
    assert bytes[..][..6] == packed[..6];
    assert bytes[..][9..] == random[3..];
    LayoutFrom(ms, random, bytes[..]);
  }

  /** Generates the text the Go implementation generates from the same millisecond when its last ten random
      bytes are these. */
  method Generate(prefix: string, ms: int, random: seq<Byte>) returns (r: Generated)
    ensures r.Id? <==> prefix in PREFIXES && |random| == 10 && 0 <= ms < END_OF_TIME
    ensures r.Id? ==> r.text == IdText(prefix, ms, random)
  {
    if prefix !in PREFIXES || |random| != 10 || !(0 <= ms < END_OF_TIME) { return ArgumentError; }
    var bytes := Pack(ms, random);
    var hex := HexBytes(bytes[..]);
    var uuid := hex[0..8] + "-" + hex[8..12] + "-" + hex[12..16] + "-" + hex[16..20] + "-" + hex[20..32];
    return Id(prefix + "_" + uuid);
  }

  lemma PatternIsGenerated(s: string, k: nat)
    requires PatternAt(s, k)
    ensures Generates(s[..k], Millis(s[k + 1..]), UuidBytes(s[k + 1..])[6..], s)
  {
    ValidIsGenerated(s, k);
  }

  lemma ValidForIsGenerated(s: string, prefix: string)
    requires ValidFor(s, Some(prefix))
    ensures prefix in PREFIXES && exists ms: nat, tail: seq<Byte> :: Generates(prefix, ms, tail, s)
  {
    var k: nat :| 2 <= k <= 5 && PatternAt(s, k) && s[..k] in PREFIXES && s[..k] == prefix;
    PatternIsGenerated(s, k);
  }

  predicate Generates(prefix: string, ms: nat, tail: seq<Byte>, s: string) {
    |tail| == 10 && ms < END_OF_TIME && s == IdText(prefix, ms, tail)
  }

  lemma GeneratedIsValidFor(s: string, prefix: string, ms: nat, tail: seq<Byte>)
    requires prefix in PREFIXES && Generates(prefix, ms, tail, s)
    ensures ValidFor(s, Some(prefix))
  {
    PrefixShape(prefix);
    GeneratedMatches(prefix, ms, tail);
  }

  /** `valid?` may ask for one particular prefix, which accepts exactly the identifiers generated with it. */
  lemma ValidForIff(s: string, prefix: string)
    ensures ValidFor(s, Some(prefix)) <==>
      prefix in PREFIXES && exists ms: nat, tail: seq<Byte> :: Generates(prefix, ms, tail, s)
  {
    if ValidFor(s, Some(prefix)) { ValidForIsGenerated(s, prefix); }
    if prefix in PREFIXES {
      forall ms: nat, tail: seq<Byte> | Generates(prefix, ms, tail, s) ensures ValidFor(s, Some(prefix)) {
        GeneratedIsValidFor(s, prefix, ms, tail);
      }
    }
  }
}
