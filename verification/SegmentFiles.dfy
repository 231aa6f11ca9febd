/** The segment of a `Disk` and the file that holds it. The two ways the segment changes, one
    more frame and the swap of a compaction, are the two ways bytes are written. */
module SegmentFiles {
  import opened Text
  import opened Types
  import opened Normalize
  import opened Catalogs
  import opened Disks
  import opened SegmentBytes
  import opened Logs

  /** `json.Marshal` and `json.Unmarshal` of mutations; the chunk content is not encoded. */
  datatype MutationCodec = MutationCodec(encode: Mutation -> Bytes, decode: Bytes -> Option<Mutation>)

  /** What `json.Marshal` makes is valid and canonical, and decodes to what it was made of. */
  ghost predicate Marshals(f: Format, codec: MutationCodec) {
    forall m :: f.valid(codec.encode(m)) && f.canon(codec.encode(m)) == codec.encode(m)
      && codec.decode(codec.encode(m)) == Some(WithoutContent(m))
  }

  function EncodedEntries(codec: MutationCodec, entries: seq<Entry>): (r: seq<LogEntry>)
    ensures |r| == |entries|
    ensures forall i :: 0 <= i < |r| ==> r[i] == LogEntry(entries[i].seqNo, codec.encode(entries[i].mutation))
  {
    seq(|entries|, i requires 0 <= i < |entries| => LogEntry(entries[i].seqNo, codec.encode(entries[i].mutation)))
  }

  /** Replaying the file gives the entries of the segment and its next sequence. */
  ghost predicate Holds(f: Format, codec: MutationCodec, file: Bytes, s: Segment) {
    && Contiguous(s.base, s.entries)
    && Replayed(f, file) == Ok(SegmentBytes.Log(EncodedEntries(codec, s.entries), NextSeq(s)))
  }

  /** What `Open` decodes from the replayed entries. */
  function DecodedEntries(codec: MutationCodec, entries: seq<LogEntry>): Option<seq<Entry>> {
    if entries == [] then Some([])
    else
      var last := entries[|entries| - 1];
      match DecodedEntries(codec, entries[..|entries| - 1])
      case None => None
      case Some(before) =>
        match codec.decode(last.payload)
        case None => None
        case Some(m) => Some(before + [Entry(last.seqNo, m)])
  }

  /** The entries read back are those of the segment. */
  lemma {:induction false} EntriesReadBack(f: Format, codec: MutationCodec, entries: seq<Entry>)
    requires Marshals(f, codec) && forall i :: 0 <= i < |entries| ==> entries[i].mutation.chunkContent == []
    ensures DecodedEntries(codec, EncodedEntries(codec, entries)) == Some(entries)
  {
    if entries != [] {
      var n := |entries| - 1;
      EntriesReadBack(f, codec, entries[..n]);
      assert EncodedEntries(codec, entries)[..n] == EncodedEntries(codec, entries[..n]);
      var m := entries[n].mutation;
      assert codec.decode(codec.encode(m)) == Some(WithoutContent(m));
      assert WithoutContent(m) == m;
      assert entries == entries[..n] + [entries[n]];
    }
  }

  /** Appending the frame of a mutation to the file is `WithEntry` on the disk, as long as the
      frame fits the scanner. */
  lemma AppendIsWithEntry(f: Format, codec: MutationCodec, file: Bytes, d: Disk, m: Mutation)
    requires Lossless(f) && Marshals(f, codec) && Holds(f, codec, file, d.segment)
    requires Fits(FrameLine(f, NextSeq(d.segment), codec.encode(m)))
    ensures Holds(f, codec, file + (FrameLine(f, NextSeq(d.segment), codec.encode(m)) + [NEWLINE]),
                  WithEntry(d, NextSeq(d.segment), m).segment)
  {
    hide Lossless, Replayed, Fits, FrameLine;
    var n, e := NextSeq(d.segment), codec.encode(m);
    AppendReplaysIffFits(f, file, SegmentBytes.Log(EncodedEntries(codec, d.segment.entries), n), e);
    var after := WithEntry(d, n, m).segment;
    assert EncodedEntries(codec, after.entries) == EncodedEntries(codec, d.segment.entries) + [LogEntry(n, e)];
  }

  /** Writing the kept entries under the new header is `Swapped` on the disk. */
  lemma WriteIsSwapped(f: Format, codec: MutationCodec, d: Disk, n: nat)
    requires Lossless(f) && Marshals(f, codec)
    requires Contiguous(d.segment.base, d.segment.entries) && HasFrames(d.segment, n) && n < NextSeq(d.segment)
    requires AllFit(SegmentLines(f, n + 1, EncodedEntries(codec, After(d.segment.entries, n))))
    ensures Writable(f, n + 1, EncodedEntries(codec, After(d.segment.entries, n)))
    ensures Holds(f, codec, Join(SegmentLines(f, n + 1, EncodedEntries(codec, After(d.segment.entries, n)))),
                  Swapped(d, n).segment)
  {
    hide Lossless, Replayed, AllFit, After, HasFrames;
    FramesReach(d.segment, n);
    var kept := EncodedEntries(codec, After(d.segment.entries, n));
    WrittenReplays(f, n + 1, kept);
    assert Canonical(f, kept) == kept;
  }

  /** The first segment of a fresh store. */
  lemma HeaderIsFresh(f: Format, codec: MutationCodec)
    requires Lossless(f) && Fits(HeaderLine(f, 1))
    ensures Holds(f, codec, HeaderLine(f, 1) + [NEWLINE], FRESH_DISK.segment)
  {
    hide Lossless, Replayed, Fits, HeaderLine, AllFit, Join, SegmentLines;
    HeaderAlone(f, 1);
    WrittenReplays(f, 1, []);
    assert Canonical(f, []) == [] == EncodedEntries(codec, []);
  }

  lemma HeaderAlone(f: Format, base: nat)
    ensures SegmentLines(f, base, []) == [HeaderLine(f, base)]
    ensures Join([HeaderLine(f, base)]) == HeaderLine(f, base) + [NEWLINE]
    ensures AllFit([HeaderLine(f, base)]) <==> Fits(HeaderLine(f, base))
  {
    hide Fits, HeaderLine;
    assert [HeaderLine(f, base)][..0] == [];
    NothingFits();
    AllFitSnoc([], HeaderLine(f, base));
    assert [] + [HeaderLine(f, base)] == [HeaderLine(f, base)];
  }

  // ---------------------------------------------------------------- a mutation that loses the log

  /** A record with a summary of 64 MiB. */
  function LongRecord(): (m: Mutation)
    ensures m.kind == CreateRecord && |m.record.summary| == MAX_LINE
  {
    BLANK.(kind := CreateRecord, at := 1,
           record := BLANK.record.(id := "r", namespace := "n", kind := "k", summary := seq(MAX_LINE, _ => 'x')))
  }

  /** Any store accepts the long record unless it has one with that id. */
  lemma LongRecordAccepted(hash: Hash, c: Catalog)
    requires "r" !in c.records
    ensures NormalizeMutation(LongRecord(), hash).Ok?
    ensures var n := NormalizeMutation(LongRecord(), hash).value;
      n.kind == CreateRecord && n.record.summary == LongRecord().record.summary && Accepts(c, n)
  {
    hide Trim, AllSpace, NormalizeMap, TagsOf, Trimmed, NormalizeRefs;
    var m := LongRecord();
    LongRecordNotBlank();
    NormalizeAcceptsIff(m, hash);
    NormalizeEstablishes(m, hash);
    TrimFixes(m.record.summary);
    TrimFixes("r");
    TrimFixes("");
    ShortTrimmed();
  }

  lemma ShortTrimmed()
    ensures Trimmed("r") && Trimmed("")
  {
  }

  lemma LongRecordNotBlank()
    ensures AcceptableRecord(LongRecord().record) && Trimmed(LongRecord().record.summary)
  {
    var r := LongRecord().record;
    assert r.summary[0] == 'x' && r.summary[|r.summary| - 1] == 'x';
    assert r.id[0] == 'r' && r.namespace[0] == 'n' && r.kind[0] == 'k';
  }

  /** JSON writes every character of a summary, and a frame spells out its payload. So a store
      accepts the long record, appends its frame, and can never be opened again. */
  lemma LongRecordLosesTheLog(hash: Hash, f: Format, codec: MutationCodec, file: Bytes, d: Disk, c: Catalog)
    requires Lossless(f) && Marshals(f, codec) && Holds(f, codec, file, d.segment) && "r" !in c.records
    requires Spells(f)
    requires forall m: Mutation :: m.kind == CreateRecord ==> |codec.encode(m)| >= |m.record.summary|
    ensures NormalizeMutation(LongRecord(), hash).Ok?
    ensures var n := NormalizeMutation(LongRecord(), hash).value;
      && Accepts(c, n)
      && Replayed(f, file + (FrameLine(f, NextSeq(d.segment), codec.encode(n)) + [NEWLINE])) == Err(Corrupt)
  {
    hide Accepts, NormalizeMutation, LongRecord, Lossless, Replayed;
    LongRecordAccepted(hash, c);
    var n := NormalizeMutation(LongRecord(), hash).value;
    var log := SegmentBytes.Log(EncodedEntries(codec, d.segment.entries), NextSeq(d.segment));
    AppendReplaysIffFits(f, file, log, codec.encode(n));
  }
}
