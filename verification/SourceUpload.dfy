/** Uploading a source archive in parts: the client's cut of the archive and the server's limits. */
module SourceUpload {
  import opened Sorting

  const MAX_ARCHIVE_BYTES := 1024 * 1024 * 1024
  const MAX_PART_BYTES := 16 * 1024 * 1024
  const MAX_PARTS := 256

  type Bytes = seq<bv8>

  datatype Part = Part(number: int, url: string)

  datatype Uploaded = Uploaded(number: int, size: nat)

  datatype Error = NoParts | InvalidNumbers | InsufficientParts | BadTransport | EmptyPart | UploadFailed

  datatype Result = Ok(parts: seq<Uploaded>) | Err(error: Error)

  /** `Math.ceil(n / p)`. */
  function CeilDiv(n: nat, p: nat): nat
    requires p > 0
  {
    (n + p - 1) / p
  }

  // ----- Numbers 1 to p, in any order

  function Numbers(parts: seq<Part>): seq<int> {
    if parts == [] then [] else [parts[0].number] + Numbers(parts[1..])
  }

  lemma {:induction false} NumbersAre(parts: seq<Part>)
    ensures |Numbers(parts)| == |parts|
    ensures forall i :: 0 <= i < |parts| ==> Numbers(parts)[i] == parts[i].number
  {
    if parts != [] { NumbersAre(parts[1..]); }
  }

  predicate ByNumber(a: Part, b: Part) {
    a.number < b.number
  }

  /** Every number from 1 to the number of parts is there once. */
  predicate Numbered(parts: seq<Part>) {
    && NoRepeats(Numbers(parts))
    && forall n :: n in Numbers(parts) ==> 1 <= n <= |parts|
  }

  lemma {:induction false} NumbersAppend(a: seq<Part>, b: seq<Part>)
    ensures Numbers(a + b) == Numbers(a) + Numbers(b)
  {
    if a == [] {
      assert a + b == b;
    } else {
      assert (a + b)[1..] == a[1..] + b;
      NumbersAppend(a[1..], b);
    }
  }

  lemma {:induction false} InsertNumbers(x: Part, xs: seq<Part>)
    ensures multiset(Numbers(Insert(ByNumber, x, xs))) == multiset(Numbers(xs)) + multiset{x.number}
  {
    if xs != [] {
      InsertNumbers(x, xs[1..]);
      NumbersAppend([x], xs);
      assert Numbers(xs) == [xs[0].number] + Numbers(xs[1..]);
    }
  }

  lemma LastNumber(xs: seq<Part>)
    requires xs != []
    ensures multiset(Numbers(xs)) == multiset(Numbers(xs[..|xs| - 1])) + multiset{xs[|xs| - 1].number}
  {
    var init, last := xs[..|xs| - 1], xs[|xs| - 1];
    assert xs == init + [last];
    NumbersAppend(init, [last]);
    assert Numbers([last]) == [last.number];
  }

  lemma {:induction false} SortNumbers(xs: seq<Part>)
    ensures multiset(Numbers(Sort(ByNumber, xs))) == multiset(Numbers(xs))
  {
    if xs != [] {
      LastNumber(xs);
      SortNumbers(xs[..|xs| - 1]);
      InsertNumbers(xs[|xs| - 1], Sort(ByNumber, xs[..|xs| - 1]));
    }
  }

  predicate InOrder(parts: seq<Part>) {
    forall i :: 0 <= i < |parts| ==> parts[i].number == i + 1
  }

  lemma SortedIsInOrder(xs: seq<int>, i: nat)
    requires NoRepeats(xs) && (forall n :: n in xs ==> 1 <= n <= |xs|)
    requires forall a, b :: 0 <= a < b < |xs| ==> xs[a] <= xs[b]
    requires i < |xs|
    ensures xs[i] == i + 1
  {
    AtLeast(xs, i);
    AtMost(xs, i);
  }

  lemma {:induction false} AtLeast(xs: seq<int>, i: nat)
    requires NoRepeats(xs) && (forall n :: n in xs ==> 1 <= n <= |xs|)
    requires forall a, b :: 0 <= a < b < |xs| ==> xs[a] <= xs[b]
    requires i < |xs|
    ensures xs[i] >= i + 1
  {
    assert xs[i] in xs;
    if i > 0 { AtLeast(xs, i - 1); }
  }

  lemma {:induction false} AtMost(xs: seq<int>, i: nat)
    requires NoRepeats(xs) && (forall n :: n in xs ==> 1 <= n <= |xs|)
    requires forall a, b :: 0 <= a < b < |xs| ==> xs[a] <= xs[b]
    requires i < |xs|
    ensures xs[i] <= i + 1
    decreases |xs| - i
  {
    assert xs[i] in xs;
    if i < |xs| - 1 { AtMost(xs, i + 1); }
  }

  /** Sorting puts the parts in order exactly when they are numbered 1 to p. */
  lemma SortedInOrderIff(parts: seq<Part>)
    ensures |Sort(ByNumber, parts)| == |parts|
    ensures InOrder(Sort(ByNumber, parts)) <==> Numbered(parts)
  {
    var sorted := Sort(ByNumber, parts);
    var xs, ys := Numbers(sorted), Numbers(parts);
    SortNumbers(parts);
    SameElements(xs, ys);
    NumbersAre(sorted);
    NumbersAre(parts);
    if InOrder(sorted) {
      NoRepeatsCounts(xs);
      CountsNoRepeats(ys);
      forall n | n in ys ensures 1 <= n <= |parts| { assert n in xs; }
    }
    if Numbered(parts) {
      NoRepeatsCounts(ys);
      CountsNoRepeats(xs);
      SortSorted(ByNumber, parts);
      forall a, b | 0 <= a < b < |xs| ensures xs[a] <= xs[b] { assert !ByNumber(sorted[b], sorted[a]); }
      forall n | n in xs ensures 1 <= n <= |xs| { assert n in ys; }
      forall i | 0 <= i < |sorted| ensures sorted[i].number == i + 1 { SortedIsInOrder(xs, i); }
    }
  }

  // ----- The cut

  /** `bytes.subarray(from, to)`, which clamps. */
  function Subarray(bytes: Bytes, from: nat, to: nat): Bytes {
    var hi := if to <= |bytes| then to else |bytes|;
    if from <= hi then bytes[from..hi] else []
  }

  /** Chunk `i` of size `c`. */
  function Chunk(bytes: Bytes, c: nat, i: nat): Bytes {
    Subarray(bytes, i * c, i * c + c)
  }

  function Chunks(bytes: Bytes, c: nat, k: nat): seq<Bytes> {
    if k == 0 then [] else Chunks(bytes, c, k - 1) + [Chunk(bytes, c, k - 1)]
  }

  function Join(pieces: seq<Bytes>): Bytes {
    if pieces == [] then [] else Join(pieces[..|pieces| - 1]) + pieces[|pieces| - 1]
  }

  /** The first `n` bytes. */
  function Upto(bytes: Bytes, n: nat): Bytes {
    if n <= |bytes| then bytes[..n] else bytes
  }

  /** The first k chunks are the first k * c bytes. */
  lemma {:induction false} ChunksJoin(bytes: Bytes, c: nat, k: nat)
    ensures |Chunks(bytes, c, k)| == k
    ensures k * c >= 0 && Join(Chunks(bytes, c, k)) == Upto(bytes, k * c)
  {
    if k > 0 {
      ChunksJoin(bytes, c, k - 1);
      JoinSnoc(Chunks(bytes, c, k - 1), Chunk(bytes, c, k - 1));
      NextMultiple(k, c);
      ChunkContinues(bytes, (k - 1) * c, c);
    }
  }

  lemma NextMultiple(k: nat, c: nat)
    requires k > 0
    ensures (k - 1) * c >= 0 && k * c == (k - 1) * c + c
  {
  }

  lemma JoinSnoc(pieces: seq<Bytes>, piece: Bytes)
    ensures Join(pieces + [piece]) == Join(pieces) + piece
  {
    assert (pieces + [piece])[..|pieces|] == pieces;
  }

  lemma ChunkContinues(bytes: Bytes, from: nat, c: nat)
    ensures Upto(bytes, from) + Subarray(bytes, from, from + c) == Upto(bytes, from + c)
  {
  }

  lemma {:induction false} ChunkAt(bytes: Bytes, c: nat, k: nat, i: nat)
    requires i < k
    ensures |Chunks(bytes, c, k)| == k && Chunks(bytes, c, k)[i] == Chunk(bytes, c, i)
  {
    ChunksJoin(bytes, c, k);
    if i < k - 1 {
      ChunkAt(bytes, c, k - 1, i);
    } else {
      ChunksJoin(bytes, c, k - 1);
    }
  }

  // ----- Arithmetic of the cut

  lemma CeilDivBounds(n: nat, p: nat)
    requires p > 0
    ensures p * CeilDiv(n, p) >= n && p * CeilDiv(n, p) < n + p
  {
    var q, r := (n + p - 1) / p, (n + p - 1) % p;
    assert n + p - 1 == p * q + r && 0 <= r < p;
  }

  lemma {:induction false} MulMonotonic(a: nat, b: nat, c: nat)
    requires a <= b
    ensures a * c <= b * c
  {
    assert b * c - a * c == (b - a) * c;
  }

  /** The chunks cover the archive. */
  lemma ChunksCover(bytes: Bytes, p: nat)
    requires p > 0
    ensures Join(Chunks(bytes, CeilDiv(|bytes|, p), p)) == bytes
  {
    ChunksJoin(bytes, CeilDiv(|bytes|, p), p);
    CeilDivBounds(|bytes|, p);
  }

  /** No chunk is empty when the last one starts inside the archive. */
  lemma ChunkIsNonempty(bytes: Bytes, c: nat, p: nat, i: nat)
    requires i < p && (p - 1) * c < |bytes| && c > 0
    ensures 0 < |Chunk(bytes, c, i)| <= c
  {
    MulMonotonic(i, p - 1, c);
  }

  lemma LastIsEmpty(bytes: Bytes, c: nat, p: nat)
    requires p > 0 && (p - 1) * c >= |bytes|
    ensures Chunk(bytes, c, p - 1) == []
  {
  }

  // ----- The upload

  /** Exactly when an upload goes through: the parts are numbered 1 to p, no chunk is over 16 MiB and none is empty, and
      every part is sent over an acceptable address and accepted. */
  ghost predicate GoesThrough(parts: seq<Part>, size: nat, transport: string -> bool, accepted: int -> bool) {
    var p := |parts|;
    && p >= 1 && Numbered(parts)
    && CeilDiv(size, p) <= MAX_PART_BYTES
    && (p - 1) * CeilDiv(size, p) < size
    && forall part :: part in parts ==> transport(part.url) && accepted(part.number)
  }

  ghost predicate Reports(uploaded: seq<Uploaded>, sent: seq<Bytes>) {
    && |uploaded| == |sent|
    && forall i :: 0 <= i < |sent| ==> uploaded[i] == Uploaded(i + 1, |sent[i]|)
  }

  ghost predicate Sendable(part: Part, bytes: Bytes, c: nat, i: nat, transport: string -> bool, accepted: int -> bool) {
    transport(part.url) && accepted(part.number) && |Chunk(bytes, c, i)| > 0
  }

  lemma ChunkSize(bytes: Bytes, c: nat, i: nat)
    ensures |Chunk(bytes, c, i)| <= c
  {
  }

  /** The loop: parts in the order of their numbers, until one cannot be sent. */
  method SendParts(ordered: seq<Part>, bytes: Bytes, c: nat, transport: string -> bool, accepted: int -> bool)
    returns (r: Result, sent: seq<Bytes>)
    requires InOrder(ordered)
    ensures r.Ok? <==> forall i :: 0 <= i < |ordered| ==> Sendable(ordered[i], bytes, c, i, transport, accepted)
    ensures r.Ok? ==> Reports(r.parts, sent) && |sent| == |ordered|
    ensures r.Err? ==>
      && |sent| < |ordered|
      && (r.error == BadTransport <==> !transport(ordered[|sent|].url))
      && (r.error == EmptyPart <==> transport(ordered[|sent|].url) && Chunk(bytes, c, |sent|) == [])
      && r.error in {BadTransport, EmptyPart, UploadFailed}
    ensures sent == Chunks(bytes, c, |sent|)
    ensures forall i :: 0 <= i < |sent| ==> 0 < |sent[i]| <= c
  {
    var uploaded := [];
    sent := [];
    for i := 0 to |ordered|
      invariant sent == Chunks(bytes, c, i) && |sent| == i && Reports(uploaded, sent)
      invariant forall k :: 0 <= k < i ==> Sendable(ordered[k], bytes, c, k, transport, accepted)
      invariant forall k :: 0 <= k < i ==> 0 < |sent[k]| <= c
    {
      var part := ordered[i];
      if !transport(part.url) { return Err(BadTransport), sent; }
      var offset := (part.number - 1) * c;
      var body := Subarray(bytes, offset, if offset + c <= |bytes| then offset + c else |bytes|);
      assert body == Chunk(bytes, c, i);
      ChunkSize(bytes, c, i);
      if |body| == 0 { return Err(EmptyPart), sent; }
      if !accepted(part.number) { return Err(UploadFailed), sent; }
      uploaded := uploaded + [Uploaded(part.number, |body|)];
      sent := sent + [body];
    }
    r := Ok(uploaded);
  }

  /** No chunk is empty exactly when the last one starts inside the archive. */
  lemma NoChunkEmptyIff(bytes: Bytes, p: nat)
    requires p > 0
    ensures var c := CeilDiv(|bytes|, p);
      (forall i :: 0 <= i < p ==> |Chunk(bytes, c, i)| > 0) <==> (p - 1) * c < |bytes|
  {
    var c := CeilDiv(|bytes|, p);
    if (p - 1) * c < |bytes| {
      CeilDivBounds(|bytes|, p);
      assert c > 0;
      forall i | 0 <= i < p ensures |Chunk(bytes, c, i)| > 0 { ChunkIsNonempty(bytes, c, p, i); }
    } else {
      LastIsEmpty(bytes, c, p);
      assert |Chunk(bytes, c, p - 1)| == 0;
    }
  }

  lemma SendableIff(parts: seq<Part>, bytes: Bytes, transport: string -> bool, accepted: int -> bool)
    requires |parts| > 0 && Numbered(parts) && CeilDiv(|bytes|, |parts|) <= MAX_PART_BYTES
    ensures var ordered, c := Sort(ByNumber, parts), CeilDiv(|bytes|, |parts|);
      (forall i :: 0 <= i < |ordered| ==> Sendable(ordered[i], bytes, c, i, transport, accepted))
      <==> GoesThrough(parts, |bytes|, transport, accepted)
  {
    var ordered, c := Sort(ByNumber, parts), CeilDiv(|bytes|, |parts|);
    SortPermutes(ByNumber, parts);
    SameElements(ordered, parts);
    NoChunkEmptyIff(bytes, |parts|);
    if forall i :: 0 <= i < |ordered| ==> Sendable(ordered[i], bytes, c, i, transport, accepted) {
      forall part | part in parts ensures transport(part.url) && accepted(part.number) {
        var i :| 0 <= i < |ordered| && ordered[i] == part;
        assert Sendable(ordered[i], bytes, c, i, transport, accepted);
      }
      forall i | 0 <= i < |parts| ensures |Chunk(bytes, c, i)| > 0 {
        assert Sendable(ordered[i], bytes, c, i, transport, accepted);
      }
    }
    if GoesThrough(parts, |bytes|, transport, accepted) {
      forall i | 0 <= i < |ordered| ensures Sendable(ordered[i], bytes, c, i, transport, accepted) {
        assert ordered[i] in parts;
      }
    }
  }

  /** Sends the archive in the parts the server named. `transport` says which addresses are acceptable and `accepted`
      which parts the store takes; `sent` is what it has taken, in order. */
  method UploadParts(parts: seq<Part>, bytes: Bytes, transport: string -> bool, accepted: int -> bool)
    returns (r: Result, sent: seq<Bytes>)
    ensures r.Ok? <==> GoesThrough(parts, |bytes|, transport, accepted)
    ensures r.Ok? ==> Reports(r.parts, sent) && |sent| == |parts| && Join(sent) == bytes
    ensures forall i :: 0 <= i < |sent| ==> 0 < |sent[i]| <= MAX_PART_BYTES
    ensures Join(sent) <= bytes
    ensures r == Err(NoParts) <==> parts == []
    ensures r == Err(InvalidNumbers) <==> parts != [] && !Numbered(parts)
    ensures r == Err(InsufficientParts) <==>
      parts != [] && Numbered(parts) && CeilDiv(|bytes|, |parts|) > MAX_PART_BYTES
  {
    var ordered := Sort(ByNumber, parts);
    SortedInOrderIff(parts);
    var p := |ordered|;
    if p < 1 { return Err(NoParts), []; }
    if !InOrder(ordered) { return Err(InvalidNumbers), []; }
    var c := CeilDiv(|bytes|, p);
    if c > MAX_PART_BYTES { return Err(InsufficientParts), []; }
    r, sent := SendParts(ordered, bytes, c, transport, accepted);
    SendableIff(parts, bytes, transport, accepted);
    ChunksJoin(bytes, c, |sent|);
    ChunksCover(bytes, p);
  }

  // ----- The server's limits

  /** The validations of an upload session. */
  predicate ServerAccepts(size: int, parts: int) {
    0 < size <= MAX_ARCHIVE_BYTES && 0 < parts <= MAX_PARTS && size <= parts * MAX_PART_BYTES
  }

  /** The part count the command line asks for. */
  function ExpectedParts(size: nat): nat {
    CeilDiv(size, MAX_PART_BYTES)
  }

  lemma AskedPartsFit(size: nat)
    requires 0 < size <= MAX_ARCHIVE_BYTES
    ensures 1 <= ExpectedParts(size) <= 64
    ensures forall p: nat :: size <= p * MAX_PART_BYTES <==> p >= ExpectedParts(size)
  {
  }

  /** Cut into the parts it asked for, an archive has no empty chunk and none over the limit. */
  lemma AskedCutFits(n: nat, p: nat)
    requires 0 < n <= MAX_ARCHIVE_BYTES && p == ExpectedParts(n)
    ensures 1 <= p && CeilDiv(n, p) <= MAX_PART_BYTES && (p - 1) * CeilDiv(n, p) < n
  {
    AskedPartsFit(n);
    var c := CeilDiv(n, p);
    CeilDivBounds(n, p);
    assert (p - 1) * MAX_PART_BYTES < n <= p * MAX_PART_BYTES;
    assert p * (MAX_PART_BYTES + 1) == p * MAX_PART_BYTES + p;
    Cancel(p, c, MAX_PART_BYTES + 1);
    if p > 1 {
      MulMonotonic(p, 64, p);
      Cancel(p, p, c);
    }
    NextMultiple(p, c);
  }

  lemma Cancel(p: nat, a: nat, b: nat)
    requires p * a < p * b
    ensures a < b
  {
    assert p * b - p * a == p * (b - a);
  }

  /** For every archive from one byte to 1 GiB, the count asked for is the least the server's rules accept, and when
      the server returns that many parts numbered from 1, in any order, the upload goes through as soon as every address
      is acceptable and every part is taken. */
  lemma AskedUploadFits(bytes: Bytes, parts: seq<Part>, transport: string -> bool, accepted: int -> bool)
    requires 0 < |bytes| <= MAX_ARCHIVE_BYTES && |parts| == ExpectedParts(|bytes|) && Numbered(parts)
    requires forall part :: part in parts ==> transport(part.url) && accepted(part.number)
    ensures ServerAccepts(|bytes|, |parts|)
    ensures forall p: nat :: ServerAccepts(|bytes|, p) ==> p >= |parts|
    ensures GoesThrough(parts, |bytes|, transport, accepted)
  {
    AskedPartsFit(|bytes|);
    AskedCutFits(|bytes|, |parts|);
  }

  /** The server's rules alone do not exclude a count whose last chunk would be empty. */
  lemma AcceptedCountMayFail(bytes: Bytes, parts: seq<Part>, transport: string -> bool, accepted: int -> bool)
    requires |bytes| == 5 && |parts| == 4
    ensures ServerAccepts(|bytes|, |parts|) && !GoesThrough(parts, |bytes|, transport, accepted)
  {
    assert CeilDiv(5, 4) == 2;
  }
}
