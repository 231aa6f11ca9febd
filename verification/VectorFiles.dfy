/** The binary file of one vector entry: magic, a little-endian metadata length, the metadata,
    and four little-endian bytes per component. */
module VectorFiles {
  import opened Text
  import opened Types
  import opened Normalize
  import opened Vectors

  /** "KILOVEC1" and a newline. */
  const MAGIC: Bytes := [0x4B, 0x49, 0x4C, 0x4F, 0x56, 0x45, 0x43, 0x31, 0x0A]

  const MAX_UINT32 := 0xFFFF_FFFF

  datatype Metadata = Metadata(
    nodeID: string, nodeType: string, hierarchyScope: map<string, string>, embeddingModel: string,
    dimensions: int, sourceSeq: nat, attributes: map<string, string>)

  /** The JSON codec of the metadata: what it encodes it decodes again, and nothing encodes to
      the empty string. What it makes of other bytes is left open. */
  datatype Codec = Codec(encode: Metadata -> Bytes, decode: Bytes -> Option<Metadata>)

  ghost predicate Lossless(codec: Codec) {
    forall m :: codec.decode(codec.encode(m)) == Some(m) && codec.encode(m) != []
  }

  // ---------------------------------------------------------------- numbers

  function LittleEndian(n: Bits): (b: Bytes)
    ensures |b| == 4
  {
    [n % 256, n / 256 % 256, n / 65536 % 256, n / 16777216]
  }

  function FromLittleEndian(b: Bytes): Bits
    requires |b| == 4
  {
    (b[0] as int) + 256 * (b[1] as int) + 65536 * (b[2] as int) + 16777216 * (b[3] as int)
  }

  /** The least significant byte comes first. */
  lemma LittleEndianRoundTrip(n: Bits)
    ensures FromLittleEndian(LittleEndian(n)) == n
    ensures var b := LittleEndian(n);
      n == (b[0] as int) + 0x100 * (b[1] as int) + 0x1_0000 * (b[2] as int) + 0x100_0000 * (b[3] as int)
  {
    BytesOf(n);
    hide LittleEndian;
  }

  lemma BytesOf(n: Bits)
    ensures var b := LittleEndian(n);
      n == (b[0] as int) + 0x100 * (b[1] as int) + 0x1_0000 * (b[2] as int) + 0x100_0000 * (b[3] as int)
  {
    var m := n / 256;
    assert n == n % 256 + 256 * m;
    var k := m / 256;
    assert m == m % 256 + 256 * k && k == n / 65536;
    assert k == k % 256 + 256 * (k / 256) && k / 256 == n / 16777216;
  }

  lemma LittleEndianOf(b: Bytes)
    requires |b| == 4
    ensures LittleEndian(FromLittleEndian(b)) == b
  {
    var n := FromLittleEndian(b);
    assert n / 256 == (b[1] as int) + 256 * (b[2] as int) + 65536 * (b[3] as int);
    assert n / 65536 == (b[2] as int) + 256 * (b[3] as int);
  }

  // ---------------------------------------------------------------- vectors

  function VectorBytes(v: seq<Bits>): (b: Bytes)
    ensures |b| == 4 * |v|
  {
    if v == [] then [] else VectorBytes(v[..|v| - 1]) + LittleEndian(v[|v| - 1])
  }

  function VectorOf(b: Bytes): (v: seq<Bits>)
    requires |b| % 4 == 0
    ensures |v| == |b| / 4
  {
    if b == [] then [] else VectorOf(b[..|b| - 4]) + [FromLittleEndian(b[|b| - 4..])]
  }

  lemma VectorOfSnoc(b: Bytes, c: Bytes)
    requires |b| % 4 == 0 && |c| == 4
    ensures |b + c| % 4 == 0
    ensures VectorOf(b + c) == VectorOf(b) + [FromLittleEndian(c)]
  {
    hide FromLittleEndian;
    var d := b + c;
    assert d[..|d| - 4] == b && d[|d| - 4..] == c;
  }

  lemma {:induction false} VectorRoundTrip(v: seq<Bits>)
    ensures VectorOf(VectorBytes(v)) == v
  {
    hide LittleEndian, FromLittleEndian, VectorOf;
    if v == [] {
      NothingToRead();
    } else {
      var init, x := v[..|v| - 1], v[|v| - 1];
      LittleEndianRoundTrip(x);
      VectorRoundTrip(init);
      VectorOfSnoc(VectorBytes(init), LittleEndian(x));
    }
  }

  /** No bytes read as a vector that another encoding than theirs has. */
  lemma {:induction false} VectorBytesOf(b: Bytes)
    requires |b| % 4 == 0
    ensures VectorBytes(VectorOf(b)) == b
  {
    hide LittleEndian, FromLittleEndian;
    if b != [] {
      VectorBytesOf(b[..|b| - 4]);
      LittleEndianOf(b[|b| - 4..]);
      var v := VectorOf(b);
      assert v[..|v| - 1] == VectorOf(b[..|b| - 4]);
      assert b == b[..|b| - 4] + b[|b| - 4..];
    }
  }

  lemma NothingToRead()
    ensures VectorOf([]) == []
  {
  }

  // ---------------------------------------------------------------- entries

  function MetadataOf(e: VectorEntry): Metadata {
    Metadata(e.nodeID, e.nodeType, e.hierarchyScope, e.embeddingModel, e.dimensions, e.sourceSeq, e.attributes)
  }

  function OperationOf(m: Metadata, vector: seq<Bits>): VectorOperation {
    VectorOperation(Upsert, m.nodeID, m.nodeType, m.hierarchyScope, m.embeddingModel, m.dimensions, vector,
                    m.sourceSeq, m.attributes)
  }

  /** What an index stores: the entry of a normalized upsert. */
  predicate NormalEntry(e: VectorEntry) {
    NormalizeOperation(OperationOf(MetadataOf(e), e.vector), e.sourceSeq) == Ok(OperationOf(MetadataOf(e), e.vector))
  }

  lemma NormalEntryFacts(e: VectorEntry)
    requires NormalEntry(e)
    ensures e.dimensions == |e.vector| > 0 && e.sourceSeq > 0 && e.nodeID != ""
  {
    hide Trim, NormalizeMap;
  }

  lemma StoredEntriesAreNormal(op: VectorOperation, fallback: nat)
    requires NormalizeOperation(op, fallback).Ok? && NormalizeOperation(op, fallback).value.kind == Upsert
    ensures NormalEntry(EntryOf(NormalizeOperation(op, fallback).value))
  {
    hide NormalizeOperation;
    var n := NormalizeOperation(op, fallback).value;
    NormalizeOperationFixes(op, fallback, n.sourceSeq);
    assert OperationOf(MetadataOf(EntryOf(n)), n.vector) == n;
  }

  function Encoded(codec: Codec, e: VectorEntry): Option<Bytes> {
    var meta := codec.encode(MetadataOf(e));
    if |meta| > MAX_UINT32 then None
    else Some(MAGIC + LittleEndian(|meta|) + meta + VectorBytes(e.vector))
  }

  method EncodeEntry(codec: Codec, e: VectorEntry) returns (out: Option<Bytes>)
    ensures out == Encoded(codec, e)
  {
    var meta := codec.encode(MetadataOf(e));
    if |meta| > MAX_UINT32 { return None; }
    var tail: Bytes := [];
    for i := 0 to |e.vector|
      invariant tail == VectorBytes(e.vector[..i])
    {
      assert e.vector[..i + 1][..i] == e.vector[..i];
      tail := tail + LittleEndian(e.vector[i]);
    }
    assert e.vector[..|e.vector|] == e.vector;
    out := Some(MAGIC + LittleEndian(|meta|) + meta + tail);
  }

  /** The checks after the metadata: a positive number of dimensions that matches what is left. */
  function DecodedBody(m: Metadata, rest: Bytes): Result<VectorEntry> {
    if m.dimensions <= 0 then Err(Corrupt)
    else if m.dimensions > |rest| / 4 then Err(Corrupt)
    else if |rest| != m.dimensions * 4 then Err(Corrupt)
    else
      match NormalizeOperation(OperationOf(m, VectorOf(rest)), m.sourceSeq)
      case Err(_) => Err(Corrupt)
      case Ok(n) => Ok(EntryOf(n))
  }

  function Decoded(codec: Codec, raw: Bytes): Result<VectorEntry> {
    if !(MAGIC <= raw) then Err(Corrupt)
    else if |raw| < 13 then Err(Corrupt)
    else
      var size := FromLittleEndian(raw[9..13]);
      if size == 0 || size > |raw| - 13 then Err(Corrupt)
      else
        match codec.decode(raw[13..13 + size])
        case None => Err(Corrupt)
        case Some(m) => DecodedBody(m, raw[13 + size..])
  }

  method ReadVector(rest: Bytes, dimensions: nat) returns (vector: seq<Bits>)
    requires |rest| == dimensions * 4
    ensures vector == VectorOf(rest)
  {
    hide FromLittleEndian;
    vector := [];
    for i := 0 to dimensions
      invariant vector == VectorOf(rest[..4 * i])
    {
      assert rest[..4 * (i + 1)][..4 * i] == rest[..4 * i];
      assert rest[..4 * (i + 1)][4 * i..] == rest[4 * i..4 * i + 4];
      vector := vector + [FromLittleEndian(rest[4 * i..4 * i + 4])];
    }
    assert rest[..4 * dimensions] == rest;
  }

  method ReadEntry(codec: Codec, raw: Bytes) returns (r: Result<VectorEntry>)
    ensures r == Decoded(codec, raw)
  {
    hide NormalizeOperation, FromLittleEndian, VectorOf;
    if !(MAGIC <= raw) { return Err(Corrupt); }
    if |raw| - |MAGIC| < 4 { return Err(Corrupt); }
    var size := FromLittleEndian(raw[9..13]);
    if size == 0 || size > |raw| - 13 { return Err(Corrupt); }
    var metadata := codec.decode(raw[13..13 + size]);
    if metadata.None? { return Err(Corrupt); }
    var m, rest := metadata.value, raw[13 + size..];
    if m.dimensions <= 0 { return Err(Corrupt); }
    if m.dimensions > |rest| / 4 { return Err(Corrupt); }
    if |rest| != m.dimensions * 4 { return Err(Corrupt); }
    var vector := ReadVector(rest, m.dimensions);
    var n := NormalizeOperation(OperationOf(m, vector), m.sourceSeq);
    if n.Err? { return Err(Corrupt); }
    r := Ok(EntryOf(n.value));
  }

  // ---------------------------------------------------------------- the laws of the codec

  /** The three parts of an encoding, at fixed places. */
  lemma Parts(codec: Codec, e: VectorEntry, raw: Bytes, more: Bytes)
    requires Lossless(codec) && Encoded(codec, e) == Some(raw)
    ensures var meta := codec.encode(MetadataOf(e));
      var all := raw + more;
      && 0 < |meta| <= MAX_UINT32 && |raw| == 13 + |meta| + 4 * |e.vector|
      && MAGIC <= all && FromLittleEndian(all[9..13]) == |meta|
      && all[13..13 + |meta|] == meta && all[13 + |meta|..] == VectorBytes(e.vector) + more
  {
    hide VectorBytes;
    var meta := codec.encode(MetadataOf(e));
    assert (raw + more)[9..13] == LittleEndian(|meta|);
    LittleEndianRoundTrip(|meta|);
  }

  /** A stored entry reads back as itself. */
  lemma RoundTrip(codec: Codec, e: VectorEntry)
    requires Lossless(codec) && NormalEntry(e) && Encoded(codec, e).Some?
    ensures Decoded(codec, Encoded(codec, e).value) == Ok(e)
  {
    hide NormalizeOperation, VectorBytes, VectorOf, FromLittleEndian, Encoded;
    var raw := Encoded(codec, e).value;
    var meta := codec.encode(MetadataOf(e));
    Parts(codec, e, raw, []);
    assert raw + [] == raw;
    NormalEntryFacts(e);
    VectorRoundTrip(e.vector);
    assert raw[13 + |meta|..] == VectorBytes(e.vector);
    assert codec.decode(meta) == Some(MetadataOf(e));
  }

  /** A file with bytes behind the entry is rejected. */
  lemma ExtensionRejected(codec: Codec, e: VectorEntry, more: Bytes)
    requires Lossless(codec) && NormalEntry(e) && Encoded(codec, e).Some? && more != []
    ensures Decoded(codec, Encoded(codec, e).value + more) == Err(Corrupt)
  {
    hide NormalizeOperation, VectorBytes, VectorOf, FromLittleEndian, Encoded;
    var raw := Encoded(codec, e).value;
    var meta := codec.encode(MetadataOf(e));
    Parts(codec, e, raw, more);
    NormalEntryFacts(e);
    assert codec.decode(meta) == Some(MetadataOf(e));
  }

  /** A file cut anywhere is rejected. */
  lemma PrefixRejected(codec: Codec, e: VectorEntry, n: nat)
    requires Lossless(codec) && NormalEntry(e) && Encoded(codec, e).Some? && n < |Encoded(codec, e).value|
    ensures Decoded(codec, Encoded(codec, e).value[..n]) == Err(Corrupt)
  {
    hide NormalizeOperation, VectorBytes, VectorOf, FromLittleEndian, Encoded;
    var raw := Encoded(codec, e).value;
    var meta := codec.encode(MetadataOf(e));
    var cut := raw[..n];
    Parts(codec, e, raw, []);
    assert raw + [] == raw;
    NormalEntryFacts(e);
    if n >= 13 {
      assert cut[9..13] == raw[9..13];
      if n >= 13 + |meta| {
        assert cut[13..13 + |meta|] == meta;
        assert codec.decode(meta) == Some(MetadataOf(e));
        assert |cut[13 + |meta|..]| < 4 * |e.vector|;
      }
    }
  }

  /** Only files of this layout decode: nine bytes of magic, the length of the metadata with its
      least significant byte first, the metadata, and as many components as the metadata says. */
  lemma DecodesIff(codec: Codec, raw: Bytes)
    ensures Decoded(codec, raw).Ok? <==>
      && |raw| >= 13 && raw[..9] == [0x4B, 0x49, 0x4C, 0x4F, 0x56, 0x45, 0x43, 0x31, 0x0A]
      && var size :=
           (raw[9] as int) + 0x100 * (raw[10] as int) + 0x1_0000 * (raw[11] as int) + 0x100_0000 * (raw[12] as int);
         && 0 < size <= |raw| - 13
         && codec.decode(raw[13..13 + size]).Some?
         && var m, rest := codec.decode(raw[13..13 + size]).value, raw[13 + size..];
            && m.dimensions > 0 && |rest| == 4 * m.dimensions
            && m.sourceSeq > 0 && !AllSpace(m.nodeID) && !AllSpace(m.nodeType) && !AllSpace(m.embeddingModel)
  {
    hide Trim, AllSpace, NormalizeMap, VectorOf, NormalizeOperation;
    if |raw| >= 13 {
      var size := FromLittleEndian(raw[9..13]);
      assert MAGIC <= raw <==> raw[..9] == MAGIC;
      if 0 < size <= |raw| - 13 && codec.decode(raw[13..13 + size]).Some? {
        var m, rest := codec.decode(raw[13..13 + size]).value, raw[13 + size..];
        if |rest| % 4 == 0 { NormalizeOperationAcceptsIff(OperationOf(m, VectorOf(rest)), m.sourceSeq); }
      }
    }
  }

  /** And the entry read is the one the file says: the metadata, trimmed, and components whose
      bytes are those in the file. */
  lemma DecodedSays(codec: Codec, raw: Bytes)
    requires Decoded(codec, raw).Ok?
    ensures |raw| >= 13
    ensures var size := FromLittleEndian(raw[9..13]);
      && 13 + size <= |raw| && codec.decode(raw[13..13 + size]).Some?
      && var m, e := codec.decode(raw[13..13 + size]).value, Decoded(codec, raw).value;
         && e.nodeID == Trim(m.nodeID) && e.nodeType == Trim(m.nodeType) && e.embeddingModel == Trim(m.embeddingModel)
         && e.hierarchyScope == NormalizeMap(m.hierarchyScope) && e.attributes == NormalizeMap(m.attributes)
         && e.sourceSeq == m.sourceSeq && e.dimensions == |e.vector| && VectorBytes(e.vector) == raw[13 + size..]
  {
    hide Trim, NormalizeMap, VectorOf, VectorBytes, NormalizeOperation, FromLittleEndian;
    var size := FromLittleEndian(raw[9..13]);
    var m, rest := codec.decode(raw[13..13 + size]).value, raw[13 + size..];
    NormalizedOperation(OperationOf(m, VectorOf(rest)), m.sourceSeq);
    VectorBytesOf(rest);
  }
}
