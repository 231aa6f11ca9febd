/** The segment file byte by byte: what is written is replayed, what is torn is rejected, and
    exactly which frames the log accepts but can never read back. */
module SegmentBytes {
  import opened Types

  const NEWLINE: Byte := 10

  /** The longest line, newline included, the scanner of `replay` accepts. */
  const MAX_LINE := 64 * 1024 * 1024

  const SEGMENT_TYPE := "kilo.segment"
  const SEGMENT_VERSION := 1
  const FRAME_VERSION := 1

  datatype Header = Header(kind: string, version: int, base: nat)

  datatype Frame = Frame(version: int, seqNo: nat, payload: Bytes, crc: string)

  datatype LogEntry = LogEntry(seqNo: nat, payload: Bytes)

  /** JSON and CRC-32. A payload is any text `json.Valid` accepts; inside a frame `json.Marshal`
      rewrites it to its canonical form, without white space and with HTML characters escaped. */
  datatype Format = Format(
    encodeHeader: Header -> Bytes, decodeHeader: Bytes -> Option<Header>,
    encodeFrame: Frame -> Bytes, decodeFrame: Bytes -> Option<Frame>,
    checksum: (int, nat, Bytes) -> string, valid: Bytes -> bool, canon: Bytes -> Bytes)

  predicate OneLine(b: Bytes) {
    NEWLINE !in b
  }

  /** Encoded JSON holds no raw newline (RFC 8259 section 7). A header decodes to what was
      encoded, a frame with a valid payload to the same frame with the canonical payload; and the
      checksum, taken of the encoded data, does not see the difference. */
  ghost predicate Lossless(f: Format) {
    && (forall h :: f.decodeHeader(f.encodeHeader(h)) == Some(h) && OneLine(f.encodeHeader(h)))
    && (forall x: Frame :: f.valid(x.payload) ==>
          OneLine(f.encodeFrame(x)) && f.decodeFrame(f.encodeFrame(x)) == Some(x.(payload := f.canon(x.payload))))
    && (forall p :: f.valid(p) ==> f.valid(f.canon(p)))
    && (forall v, n, p :: f.valid(p) ==> f.checksum(v, n, f.canon(p)) == f.checksum(v, n, p))
  }

  // ---------------------------------------------------------------- lines

  function Join(lines: seq<Bytes>): Bytes {
    if lines == [] then [] else Join(lines[..|lines| - 1]) + lines[|lines| - 1] + [NEWLINE]
  }

  /** The bytes before the first newline. */
  function Head(b: Bytes): (n: nat)
    ensures n <= |b| && OneLine(b[..n]) && (n < |b| ==> b[n] == NEWLINE)
  {
    if b == [] || b[0] == NEWLINE then 0
    else
      var n := 1 + Head(b[1..]);
      assert b[..n] == [b[0]] + b[1..][..n - 1];
      n
  }

  /** `bufio.ScanLines` on a file that ends in a newline. */
  function Lines(b: Bytes): seq<Bytes>
    decreases |b|
  {
    if b == [] then []
    else
      var n := Head(b);
      if n == |b| then [b] else [b[..n]] + Lines(b[n + 1..])
  }

  predicate Terminated(b: Bytes) {
    b != [] && b[|b| - 1] == NEWLINE
  }

  lemma HeadUnique(b: Bytes, n: nat)
    requires n < |b| && OneLine(b[..n]) && b[n] == NEWLINE
    ensures Head(b) == n
  {
    OneLineEnds(b, n, Head(b));
    OneLineEnds(b, Head(b), n);
  }

  /** No newline before `n`, a newline at `m`: then `m` is not before `n`. */
  lemma OneLineEnds(b: Bytes, n: nat, m: nat)
    requires n <= |b| && OneLine(b[..n]) && (m < |b| ==> b[m] == NEWLINE)
    ensures n <= m
  {
    assert forall i :: 0 <= i < n ==> b[..n][i] != NEWLINE;
  }

  lemma {:induction false} JoinFront(line: Bytes, lines: seq<Bytes>)
    ensures Join([line] + lines) == line + [NEWLINE] + Join(lines)
  {
    if lines == [] {
      assert ([line] + lines)[..0] == [];
    } else {
      var init, last := lines[..|lines| - 1], lines[|lines| - 1];
      JoinFront(line, init);
      assert ([line] + lines)[..|lines|] == [line] + init;
      assert line + [NEWLINE] + (Join(init) + last + [NEWLINE]) == line + [NEWLINE] + Join(init) + last + [NEWLINE];
    }
  }

  lemma {:induction false} LinesOfJoin(lines: seq<Bytes>)
    requires forall l :: l in lines ==> OneLine(l)
    ensures Lines(Join(lines)) == lines
  {
    if lines != [] {
      var line, rest := lines[0], lines[1..];
      assert lines == [line] + rest;
      JoinFront(line, rest);
      var b := Join(lines);
      assert b[..|line|] == line && b[|line| + 1..] == Join(rest);
      assert line in lines;
      HeadUnique(b, |line|);
      LinesOfJoin(rest);
    }
  }

  lemma {:induction false} JoinOfLines(b: Bytes)
    requires b == [] || Terminated(b)
    ensures Join(Lines(b)) == b && forall l :: l in Lines(b) ==> OneLine(l)
    decreases |b|
  {
    hide OneLine, Join;
    if b == [] {
      NothingToJoin();
    } else {
      var n := Head(b);
      OneLineEnds(b, n, |b| - 1);
      var line, rest := b[..n], b[n + 1..];
      assert b == line + [NEWLINE] + rest;
      JoinOfLines(rest);
      JoinFront(line, Lines(rest));
      SplitLines(b, n);
    }
  }

  lemma NothingToJoin()
    ensures Join([]) == []
  {
  }

  lemma SplitLines(b: Bytes, n: nat)
    requires n < |b| && n == Head(b)
    ensures Lines(b) == [b[..n]] + Lines(b[n + 1..])
  {
    hide Head, OneLine;
    assert b != [];
  }

  /** One more line at the end is one more line. */
  lemma LinesAppend(b: Bytes, line: Bytes)
    requires (b == [] || Terminated(b)) && OneLine(line)
    ensures Lines(b + (line + [NEWLINE])) == Lines(b) + [line]
  {
    JoinOfLines(b);
    var all := Lines(b) + [line];
    assert all[..|all| - 1] == Lines(b);
    assert Join(all) == b + (line + [NEWLINE]);
    LinesOfJoin(all);
  }

  // ---------------------------------------------------------------- replay

  datatype Log = Log(entries: seq<LogEntry>, nextSeq: nat)

  predicate Fits(line: Bytes) {
    |line| + 1 <= MAX_LINE
  }

  predicate AllFit(lines: seq<Bytes>) {
    forall l :: l in lines ==> Fits(l)
  }

  lemma AllFitSnoc(lines: seq<Bytes>, line: Bytes)
    ensures AllFit(lines + [line]) <==> AllFit(lines) && Fits(line)
  {
    hide Fits;
    assert forall l :: l in lines + [line] <==> l in lines || l == line;
  }

  function ScanHeader(f: Format, line: Bytes): Result<Log> {
    if !Fits(line) then Err(Corrupt)
    else
      match f.decodeHeader(line)
      case None => Err(Corrupt)
      case Some(h) =>
        if h.kind != SEGMENT_TYPE || h.version != SEGMENT_VERSION || h.base == 0 then Err(Corrupt)
        else Ok(Log([], h.base))
  }

  function ScanFrame(f: Format, log: Log, line: Bytes): Result<Log> {
    if !Fits(line) then Err(Corrupt)
    else
      match f.decodeFrame(line)
      case None => Err(Corrupt)
      case Some(x) =>
        if x.version != FRAME_VERSION || x.seqNo != log.nextSeq then Err(Corrupt)
        else if f.checksum(x.version, x.seqNo, x.payload) != x.crc || !f.valid(x.payload) then Err(Corrupt)
        else Ok(Log(log.entries + [LogEntry(x.seqNo, x.payload)], log.nextSeq + 1))
  }

  function Scan(f: Format, lines: seq<Bytes>): Result<Log> {
    if lines == [] then Err(Corrupt)
    else if |lines| == 1 then ScanHeader(f, lines[0])
    else
      match Scan(f, lines[..|lines| - 1])
      case Err(e) => Err(e)
      case Ok(log) => ScanFrame(f, log, lines[|lines| - 1])
  }

  /** `replay`. */
  function Replayed(f: Format, file: Bytes): Result<Log> {
    if !Terminated(file) then Err(Corrupt) else Scan(f, Lines(file))
  }

  lemma {:induction false} ScanStops(f: Format, lines: seq<Bytes>, n: nat)
    requires 0 < n <= |lines| && Scan(f, lines[..n]).Err?
    ensures Scan(f, lines) == Scan(f, lines[..n])
    decreases |lines| - n
  {
    hide ScanFrame, ScanHeader;
    if n == |lines| {
      assert lines[..n] == lines;
    } else {
      assert lines[..n + 1][..n] == lines[..n];
      ScanStops(f, lines, n + 1);
    }
  }

  /** A line of at most 64 MiB, newline included, that decodes to a frame of version 1 with this
      number, whose checksum is that of its data and whose payload is valid. */
  ghost predicate GoodFrame(f: Format, line: Bytes, n: nat) {
    && |line| < 67_108_864 && f.decodeFrame(line).Some?
    && var x := f.decodeFrame(line).value;
       x.version == 1 && x.seqNo == n && x.crc == f.checksum(x.version, x.seqNo, x.payload) && f.valid(x.payload)
  }

  ghost predicate GoodHeader(f: Format, line: Bytes) {
    && |line| < 67_108_864 && f.decodeHeader(line).Some?
    && var h := f.decodeHeader(line).value; h.kind == "kilo.segment" && h.version == 1 && h.base > 0
  }

  /** What a scan accepts, and what it then returns: a good header, and behind it nothing but good
      frames, numbered from its base without a gap. One bad line anywhere and all is refused. */
  lemma {:induction false} ScanAcceptsIff(f: Format, lines: seq<Bytes>)
    requires lines != []
    ensures Scan(f, lines).Ok? <==>
      GoodHeader(f, lines[0])
      && forall i :: 1 <= i < |lines| ==> GoodFrame(f, lines[i], f.decodeHeader(lines[0]).value.base + i - 1)
    ensures Scan(f, lines).Ok? ==>
      var log, base := Scan(f, lines).value, f.decodeHeader(lines[0]).value.base;
      && log.nextSeq == base + |lines| - 1 && |log.entries| == |lines| - 1
      && forall i :: 1 <= i < |lines| ==>
           log.entries[i - 1] == LogEntry(base + i - 1, f.decodeFrame(lines[i]).value.payload)
  {
    if |lines| > 1 {
      var n := |lines| - 1;
      ScanAcceptsIff(f, lines[..n]);
      assert forall i :: 1 <= i < n ==> lines[..n][i] == lines[i];
    }
  }

  /** `replay` opens exactly the files that end in a newline and whose lines are those of a log. */
  lemma ReplayAcceptsIff(f: Format, file: Bytes)
    ensures Replayed(f, file).Ok? <==>
      && file != [] && file[|file| - 1] == NEWLINE && Lines(file) != []
      && GoodHeader(f, Lines(file)[0])
      && forall i :: 1 <= i < |Lines(file)| ==>
           GoodFrame(f, Lines(file)[i], f.decodeHeader(Lines(file)[0]).value.base + i - 1)
    ensures Replayed(f, file).Ok? ==>
      var log, base := Replayed(f, file).value, f.decodeHeader(Lines(file)[0]).value.base;
      && log.nextSeq == base + |Lines(file)| - 1 && |log.entries| == |Lines(file)| - 1
      && forall i :: 1 <= i < |Lines(file)| ==>
           log.entries[i - 1] == LogEntry(base + i - 1, f.decodeFrame(Lines(file)[i]).value.payload)
  {
    hide GoodHeader, GoodFrame;
    if Lines(file) != [] { ScanAcceptsIff(f, Lines(file)); }
  }

  /** In particular a frame whose data was altered, so that its checksum is another, is refused
      wherever it stands. */
  lemma AlteredFrameRefused(f: Format, file: Bytes, i: nat)
    requires 1 <= i < |Lines(file)| && f.decodeFrame(Lines(file)[i]).Some?
    requires var x := f.decodeFrame(Lines(file)[i]).value; x.crc != f.checksum(x.version, x.seqNo, x.payload)
    ensures Replayed(f, file).Err?
  {
    ReplayAcceptsIff(f, file);
  }

  method Replay(f: Format, file: Bytes) returns (r: Result<Log>)
    ensures r == Replayed(f, file)
    ensures r.Ok? <==>
      && Terminated(file) && Lines(file) != [] && GoodHeader(f, Lines(file)[0])
      && forall i :: 1 <= i < |Lines(file)| ==>
           GoodFrame(f, Lines(file)[i], f.decodeHeader(Lines(file)[0]).value.base + i - 1)
  {
    hide GoodHeader, GoodFrame;
    ReplayAcceptsIff(f, file);
    if file == [] { return Err(Corrupt); }
    if file[|file| - 1] != NEWLINE { return Err(Corrupt); }
    var lines := Lines(file);
    if |lines| == 0 { return Err(Corrupt); }
    assert lines[..1] == [lines[0]];
    var first := lines[0];
    var header := if Fits(first) then f.decodeHeader(first) else None;
    if || header.None? || header.value.kind != SEGMENT_TYPE || header.value.version != SEGMENT_VERSION
       || header.value.base == 0
    {
      ScanStops(f, lines, 1);
      return Err(Corrupt);
    }
    var expected := header.value.base;
    var entries: seq<LogEntry> := [];
    for i := 1 to |lines|
      invariant Scan(f, lines[..i]) == Ok(Log(entries, expected))
    {
      assert lines[..i + 1][..i] == lines[..i];
      var frame := if Fits(lines[i]) then f.decodeFrame(lines[i]) else None;
      if frame.None? || frame.value.version != FRAME_VERSION || frame.value.seqNo != expected
        || f.checksum(frame.value.version, frame.value.seqNo, frame.value.payload) != frame.value.crc
        || !f.valid(frame.value.payload)
      {
        ScanStops(f, lines, i + 1);
        return Err(Corrupt);
      }
      entries := entries + [LogEntry(frame.value.seqNo, frame.value.payload)];
      expected := expected + 1;
    }
    assert lines[..|lines|] == lines;
    r := Ok(Log(entries, expected));
  }

  // ---------------------------------------------------------------- writing

  function FrameLine(f: Format, seqNo: nat, payload: Bytes): Bytes {
    f.encodeFrame(Frame(FRAME_VERSION, seqNo, payload, f.checksum(FRAME_VERSION, seqNo, payload)))
  }

  function HeaderLine(f: Format, base: nat): Bytes {
    f.encodeHeader(Header(SEGMENT_TYPE, SEGMENT_VERSION, base))
  }

  function SegmentLines(f: Format, base: nat, entries: seq<LogEntry>): (lines: seq<Bytes>)
    ensures |lines| == |entries| + 1
  {
    if entries == [] then [HeaderLine(f, base)]
    else
      var last := entries[|entries| - 1];
      SegmentLines(f, base, entries[..|entries| - 1]) + [FrameLine(f, last.seqNo, last.payload)]
  }

  /** What replay sees of entries: the same numbers, the canonical payloads. */
  function Canonical(f: Format, entries: seq<LogEntry>): (r: seq<LogEntry>)
    ensures |r| == |entries|
    ensures forall i :: 0 <= i < |r| ==> r[i] == LogEntry(entries[i].seqNo, f.canon(entries[i].payload))
  {
    seq(|entries|, i requires 0 <= i < |entries| => LogEntry(entries[i].seqNo, f.canon(entries[i].payload)))
  }

  /** What `writeSegmentContent` accepts: numbered from the base without a gap, valid payloads. */
  predicate Writable(f: Format, base: nat, entries: seq<LogEntry>) {
    base > 0 && forall i :: 0 <= i < |entries| ==> entries[i].seqNo == base + i && f.valid(entries[i].payload)
  }

  method WriteSegmentContent(f: Format, base: nat, entries: seq<LogEntry>) returns (file: Option<Bytes>)
    ensures file == if Writable(f, base, entries) then Some(Join(SegmentLines(f, base, entries))) else None
  {
    hide FrameLine, HeaderLine;
    if base == 0 { return None; }
    var out := HeaderLine(f, base) + [NEWLINE];
    assert [HeaderLine(f, base)][..0] == [];
    var expected := base;
    for i := 0 to |entries|
      invariant expected == base + i && Writable(f, base, entries[..i])
      invariant out == Join(SegmentLines(f, base, entries[..i]))
    {
      if entries[i].seqNo != expected { return None; }
      if !f.valid(entries[i].payload) { return None; }
      var line := FrameLine(f, entries[i].seqNo, entries[i].payload);
      assert entries[..i + 1][..i] == entries[..i];
      var lines := SegmentLines(f, base, entries[..i + 1]);
      assert lines[..|lines| - 1] == SegmentLines(f, base, entries[..i]);
      out := out + (line + [NEWLINE]);
      expected := expected + 1;
    }
    assert entries[..|entries|] == entries;
    file := Some(out);
  }

  // ---------------------------------------------------------------- the laws

  lemma LinesAreOneLine(f: Format, base: nat, entries: seq<LogEntry>)
    requires Lossless(f) && Writable(f, base, entries)
    ensures forall l :: l in SegmentLines(f, base, entries) ==> OneLine(l)
  {
    hide OneLine;
    if entries != [] { LinesAreOneLine(f, base, entries[..|entries| - 1]); }
  }

  lemma FrameScans(f: Format, log: Log, payload: Bytes)
    requires Lossless(f) && f.valid(payload)
    ensures var line := FrameLine(f, log.nextSeq, payload);
      ScanFrame(f, log, line) == if Fits(line) then Ok(Extended(f, log, payload)) else Err(Corrupt)
  {
    hide OneLine, Fits;
    var x := Frame(FRAME_VERSION, log.nextSeq, payload, f.checksum(FRAME_VERSION, log.nextSeq, payload));
    assert f.decodeFrame(f.encodeFrame(x)) == Some(x.(payload := f.canon(payload)));
  }

  /** The log with one more entry, as replay sees it. */
  function Extended(f: Format, log: Log, payload: Bytes): Log {
    Log(log.entries + [LogEntry(log.nextSeq, f.canon(payload))], log.nextSeq + 1)
  }

  lemma {:induction false} WrittenScans(f: Format, base: nat, entries: seq<LogEntry>)
    requires Lossless(f) && Writable(f, base, entries)
    ensures Scan(f, SegmentLines(f, base, entries)) ==
      if AllFit(SegmentLines(f, base, entries)) then Ok(Log(Canonical(f, entries), base + |entries|)) else Err(Corrupt)
  {
    hide OneLine, Fits, FrameLine, AllFit, ScanFrame;
    var lines := SegmentLines(f, base, entries);
    if entries == [] {
      AllFitSnoc([], lines[0]);
      NothingFits();
      assert [] + [lines[0]] == lines;
      var h := Header(SEGMENT_TYPE, SEGMENT_VERSION, base);
      assert f.decodeHeader(f.encodeHeader(h)) == Some(h);
    } else {
      var n := |entries| - 1;
      var init := entries[..n];
      WrittenScans(f, base, init);
      assert lines[..|lines| - 1] == SegmentLines(f, base, init);
      AllFitSnoc(SegmentLines(f, base, init), lines[|lines| - 1]);
      assert lines == SegmentLines(f, base, init) + [lines[|lines| - 1]];
      FrameScans(f, Log(Canonical(f, init), base + n), entries[n].payload);
      assert Canonical(f, init) + [LogEntry(base + n, f.canon(entries[n].payload))] == Canonical(f, entries);
    }
  }

  lemma NothingFits()
    ensures AllFit([])
  {
  }

  lemma Ends(lines: seq<Bytes>)
    requires lines != []
    ensures Terminated(Join(lines))
  {
  }

  /** A written segment replays to exactly its entries, in canonical form, and the next number,
      unless a line is too long for the scanner; then it is refused. */
  lemma WrittenReplays(f: Format, base: nat, entries: seq<LogEntry>)
    requires Lossless(f) && Writable(f, base, entries)
    ensures Replayed(f, Join(SegmentLines(f, base, entries))) ==
      if AllFit(SegmentLines(f, base, entries)) then Ok(Log(Canonical(f, entries), base + |entries|)) else Err(Corrupt)
  {
    hide OneLine, AllFit, Scan, Terminated;
    var lines := SegmentLines(f, base, entries);
    LinesAreOneLine(f, base, entries);
    LinesOfJoin(lines);
    Ends(lines);
    WrittenScans(f, base, entries);
  }

  lemma LineOfFrame(f: Format, seqNo: nat, payload: Bytes)
    requires Lossless(f) && f.valid(payload)
    ensures OneLine(FrameLine(f, seqNo, payload))
  {
    hide OneLine;
  }

  /** `Append` accepts every valid payload, but the log can be opened afterwards if and only if
      the frame fits the scanner: then replay sees the old entries and the new one. */
  lemma AppendReplaysIffFits(f: Format, file: Bytes, log: Log, payload: Bytes)
    requires Lossless(f) && Replayed(f, file) == Ok(log) && f.valid(payload)
    ensures var line := FrameLine(f, log.nextSeq, payload);
      Replayed(f, file + (line + [NEWLINE])) == if Fits(line) then Ok(Extended(f, log, payload)) else Err(Corrupt)
  {
    hide OneLine, Fits, FrameLine, ScanFrame, ScanHeader;
    var line := FrameLine(f, log.nextSeq, payload);
    LineOfFrame(f, log.nextSeq, payload);
    LinesAppend(file, line);
    var all := Lines(file) + [line];
    assert all[..|all| - 1] == Lines(file);
    FrameScans(f, log, payload);
  }

  /** A crash during an append leaves a prefix of the frame. None of it: the old log. All of it:
      the new log. Anything between is rejected as a partial frame. */
  lemma TornAppend(f: Format, file: Bytes, log: Log, payload: Bytes, n: nat)
    requires Lossless(f) && Replayed(f, file) == Ok(log) && f.valid(payload)
    requires n <= |FrameLine(f, log.nextSeq, payload)| + 1
    ensures var line := FrameLine(f, log.nextSeq, payload);
      Replayed(f, file + (line + [NEWLINE])[..n]) ==
        if n == 0 then Ok(log)
        else if n <= |line| then Err(Corrupt)
        else Replayed(f, file + (line + [NEWLINE]))
  {
    hide Scan, FrameLine;
    var line := FrameLine(f, log.nextSeq, payload);
    LineOfFrame(f, log.nextSeq, payload);
    var torn := file + (line + [NEWLINE])[..n];
    if n == 0 {
      assert torn == file;
    } else if n <= |line| {
      assert torn[|torn| - 1] == line[n - 1];
      assert line[n - 1] in line;
    } else {
      assert (line + [NEWLINE])[..n] == line + [NEWLINE];
    }
  }

  /** A crash while the first segment is created leaves a prefix of its header; every proper
      prefix is rejected, the empty file included. */
  lemma TornHeader(f: Format, base: nat, n: nat)
    requires Lossless(f) && n <= |HeaderLine(f, base)|
    ensures Replayed(f, (HeaderLine(f, base) + [NEWLINE])[..n]) == Err(Corrupt)
  {
    hide OneLine, Scan;
    var line := HeaderLine(f, base);
    assert OneLine(line);
    var torn := (line + [NEWLINE])[..n];
    if n > 0 { NoNewlineWithin(line, n); }
  }

  lemma NoNewlineWithin(line: Bytes, n: nat)
    requires OneLine(line) && 0 < n <= |line|
    ensures !Terminated((line + [NEWLINE])[..n])
  {
    assert line[n - 1] in line;
  }

  // ---------------------------------------------------------------- appending

  /** The checks of `Append`. On a log that replays, what is appended is what replay then sees in
      addition, if the frame fits; and if it does not, the log is lost. */
  method Append(f: Format, file: Bytes, nextSeq: nat, seqNo: nat, payload: Bytes) returns (out: Option<Bytes>)
    ensures out.Some? <==> seqNo == nextSeq && f.valid(payload)
    ensures out.Some? ==> out.value == file + (FrameLine(f, nextSeq, payload) + [NEWLINE])
    ensures out.Some? && Lossless(f) && Replayed(f, file).Ok? && Replayed(f, file).value.nextSeq == nextSeq ==>
      Replayed(f, out.value) ==
        if Fits(FrameLine(f, seqNo, payload)) then Ok(Extended(f, Replayed(f, file).value, payload)) else Err(Corrupt)
  {
    hide FrameLine, Replayed, Lossless, Fits;
    if seqNo != nextSeq { return None; }
    if !f.valid(payload) { return None; }
    out := Some(file + (FrameLine(f, seqNo, payload) + [NEWLINE]));
    if Lossless(f) && Replayed(f, file).Ok? && Replayed(f, file).value.nextSeq == nextSeq {
      AppendReplaysIffFits(f, file, Replayed(f, file).value, payload);
    }
  }

  /** The file after appending the payloads one by one. */
  function AppendAll(f: Format, file: Bytes, nextSeq: nat, payloads: seq<Bytes>): Bytes {
    if payloads == [] then file
    else
      var n := |payloads| - 1;
      AppendAll(f, file, nextSeq, payloads[..n]) + (FrameLine(f, nextSeq + n, payloads[n]) + [NEWLINE])
  }

  function ExtendAll(f: Format, log: Log, payloads: seq<Bytes>): (r: Log)
    ensures r.nextSeq == log.nextSeq + |payloads|
  {
    if payloads == [] then log
    else Extended(f, ExtendAll(f, log, payloads[..|payloads| - 1]), payloads[|payloads| - 1])
  }

  predicate FramesFit(f: Format, nextSeq: nat, payloads: seq<Bytes>) {
    forall i :: 0 <= i < |payloads| ==> Fits(FrameLine(f, nextSeq + i, payloads[i]))
  }

  lemma FramesFitSnoc(f: Format, nextSeq: nat, payloads: seq<Bytes>)
    requires payloads != []
    ensures var n := |payloads| - 1;
      FramesFit(f, nextSeq, payloads) <==>
        FramesFit(f, nextSeq, payloads[..n]) && Fits(FrameLine(f, nextSeq + n, payloads[n]))
  {
    hide Fits, FrameLine;
    var n := |payloads| - 1;
    if FramesFit(f, nextSeq, payloads[..n]) && Fits(FrameLine(f, nextSeq + n, payloads[n])) {
      forall i | 0 <= i < |payloads| ensures Fits(FrameLine(f, nextSeq + i, payloads[i])) {
        if i < n { assert payloads[..n][i] == payloads[i]; }
      }
    }
    if FramesFit(f, nextSeq, payloads) {
      forall i | 0 <= i < n ensures Fits(FrameLine(f, nextSeq + i, payloads[..n][i])) {
        assert payloads[..n][i] == payloads[i];
      }
    }
  }

  /** Once a line is refused, appending more does not help. */
  lemma RefusedStaysRefused(f: Format, file: Bytes, line: Bytes)
    requires Terminated(file) && Replayed(f, file).Err? && OneLine(line)
    ensures Terminated(file + (line + [NEWLINE])) && Replayed(f, file + (line + [NEWLINE])) == Err(Corrupt)
  {
    hide ScanFrame, ScanHeader, OneLine;
    LinesAppend(file, line);
    var all := Lines(file) + [line];
    SomeLine(file);
    assert all[..|all| - 1] == Lines(file);
    ScanStops(f, all, |all| - 1);
    OnlyCorrupt(f, all);
  }

  lemma SomeLine(file: Bytes)
    requires file != []
    ensures Lines(file) != []
  {
  }

  lemma {:induction false} OnlyCorrupt(f: Format, lines: seq<Bytes>)
    requires Scan(f, lines).Err?
    ensures Scan(f, lines) == Err(Corrupt)
  {
    if |lines| > 1 && Scan(f, lines[..|lines| - 1]).Err? { OnlyCorrupt(f, lines[..|lines| - 1]); }
  }

  /** Any number of appends to a log that replays: replay sees the old entries and all new ones,
      exactly if every new frame fits the scanner. */
  lemma {:induction false} AppendsReplayIffFit(f: Format, file: Bytes, log: Log, payloads: seq<Bytes>)
    requires Lossless(f) && Replayed(f, file) == Ok(log) && AllValid(f, payloads)
    ensures Replayed(f, AppendAll(f, file, log.nextSeq, payloads)) ==
      if FramesFit(f, log.nextSeq, payloads) then Ok(ExtendAll(f, log, payloads)) else Err(Corrupt)
    decreases |payloads|
  {
    hide Lossless, FrameLine, FramesFit, Fits, OneLine, Replayed, Terminated, Extended, AllValid;
    if payloads == [] {
      NoFrames(f, log.nextSeq);
    } else {
      var n := |payloads| - 1;
      var init, last := payloads[..n], payloads[n];
      ValidSnoc(f, payloads);
      AppendsReplayIffFit(f, file, log, init);
      FramesFitSnoc(f, log.nextSeq, payloads);
      LineOfFrame(f, log.nextSeq + n, last);
      var before, line := AppendAll(f, file, log.nextSeq, init), FrameLine(f, log.nextSeq + n, last);
      assert AppendAll(f, file, log.nextSeq, payloads) == before + (line + [NEWLINE]);
      if FramesFit(f, log.nextSeq, init) {
        AppendReplaysIffFits(f, before, ExtendAll(f, log, init), last);
      } else {
        AppendAllTerminated(f, file, log, init);
        RefusedStaysRefused(f, before, line);
      }
    }
  }

  predicate AllValid(f: Format, payloads: seq<Bytes>) {
    forall p :: p in payloads ==> f.valid(p)
  }

  lemma ValidSnoc(f: Format, payloads: seq<Bytes>)
    requires AllValid(f, payloads) && payloads != []
    ensures AllValid(f, payloads[..|payloads| - 1]) && f.valid(payloads[|payloads| - 1])
  {
  }

  lemma AppendAllTerminated(f: Format, file: Bytes, log: Log, payloads: seq<Bytes>)
    requires Replayed(f, file) == Ok(log)
    ensures Terminated(AppendAll(f, file, log.nextSeq, payloads))
  {
    hide Scan, FrameLine;
  }

  lemma NoFrames(f: Format, nextSeq: nat)
    ensures FramesFit(f, nextSeq, [])
  {
  }

  /** A segment written and then appended to any number of times replays to its entries and the
      appended ones, if all lines fit. */
  lemma WrittenThenAppendedReplays(f: Format, base: nat, entries: seq<LogEntry>, payloads: seq<Bytes>)
    requires Lossless(f) && Writable(f, base, entries) && AllFit(SegmentLines(f, base, entries))
    requires AllValid(f, payloads)
    ensures var log := Log(Canonical(f, entries), base + |entries|);
      Replayed(f, AppendAll(f, Join(SegmentLines(f, base, entries)), log.nextSeq, payloads)) ==
        if FramesFit(f, log.nextSeq, payloads) then Ok(ExtendAll(f, log, payloads)) else Err(Corrupt)
  {
    hide Lossless, Writable, AllFit, FramesFit, Replayed;
    WrittenReplays(f, base, entries);
    var log := Log(Canonical(f, entries), base + |entries|);
    AppendsReplayIffFit(f, Join(SegmentLines(f, base, entries)), log, payloads);
  }

  /** A frame spells out its payload, in the canonical form. */
  ghost predicate Spells(f: Format) {
    forall x: Frame :: f.valid(x.payload) ==> |f.encodeFrame(x)| >= |f.canon(x.payload)|
  }

  /** A frame is no shorter than the canonical form of its payload. So a valid payload whose
      canonical form is long enough is accepted by `Append`, and the log can never be opened
      again. */
  lemma LongPayloadLosesTheLog(f: Format, file: Bytes, log: Log, payload: Bytes)
    requires Lossless(f) && Replayed(f, file) == Ok(log) && f.valid(payload)
    requires |f.canon(payload)| >= MAX_LINE && Spells(f)
    ensures Replayed(f, AppendAll(f, file, log.nextSeq, [payload])) == Err(Corrupt)
  {
    hide Lossless, Replayed;
    AppendReplaysIffFits(f, file, log, payload);
    assert [payload][..0] == [];
    assert AppendAll(f, file, log.nextSeq, []) == file;
  }
}
