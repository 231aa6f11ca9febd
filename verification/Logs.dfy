/** The store directory and the segment log, in the form the source has: an object whose methods
    change files and fields in place. */
module Logs {
  import opened Types
  import opened Disks

  /** The store directory. `trace` records every state it goes through. */
  class Device {
    var state: Disk
    /** Every file decodes and carries its checksum. */
    const intact: bool
    ghost var trace: seq<Disk>

    constructor (d: Disk, intact: bool)
      ensures state == d && trace == [] && this.intact == intact
    {
      state, this.intact := d, intact;
      trace := [];
    }

    /** What opening checks before it looks at the contents: no file is damaged, and the segment
        has a base and no gap in its sequence numbers. */
    ghost predicate Readable()
      reads this
    {
      intact && state.segment.base > 0 && Contiguous(state.segment.base, state.segment.entries)
    }

    /** One rename, append, truncation or removal. */
    method Write(d: Disk)
      modifies this
      ensures state == d && trace == old(trace) + [d]
    {
      state := d;
      trace := trace + [d];
    }
  }

  // ---------------------------------------------------------------- segment log

  lemma {:induction false} AfterSuffix(base: nat, entries: seq<Entry>, n: nat)
    requires Contiguous(base, entries) && base <= n + 1 <= base + |entries|
    ensures After(entries, n) == entries[n + 1 - base..]
    decreases |entries|
  {
    if entries != [] {
      var init := entries[..|entries| - 1];
      if n + 1 == base + |entries| {
        AfterAll(entries, n);
      } else {
        AfterSuffix(base, init, n);
        assert entries[n + 1 - base..] == init[n + 1 - base..] + [entries[|entries| - 1]];
      }
    }
  }

  lemma AfterSnoc(entries: seq<Entry>, i: nat, n: nat)
    requires i < |entries|
    ensures After(entries[..i + 1], n) == After(entries[..i], n) + if entries[i].seqNo > n then [entries[i]] else []
  {
    assert entries[..i + 1][..i] == entries[..i];
  }

  class Log {
    const device: Device
    var nextSeq: nat
    var isOpen: bool

    ghost predicate Valid()
      reads this, device
    {
      device.Readable() && nextSeq == NextSeq(device.state.segment)
    }

    constructor (device: Device, nextSeq: nat)
      ensures this.device == device && this.nextSeq == nextSeq && isOpen
    {
      this.device, this.nextSeq := device, nextSeq;
      isOpen := true;
    }

    /** Replay the segment, checking that no number is skipped, and continue after its end. */
    static method Open(device: Device) returns (r: Result<Log>)
      ensures r.Ok? <==> device.Readable()
      ensures r.Ok? ==> fresh(r.value) && r.value.device == device && r.value.isOpen && r.value.Valid()
      ensures r.Err? ==> r.error == Corrupt
    {
      var segment := device.state.segment;
      if !device.intact || segment.base == 0 { return Err(Corrupt); }
      var expected := segment.base;
      for i := 0 to |segment.entries|
        invariant expected == segment.base + i && Contiguous(segment.base, segment.entries[..i])
      {
        if segment.entries[i].seqNo != expected { return Err(Corrupt); }
        expected := expected + 1;
      }
      assert segment.entries[..|segment.entries|] == segment.entries;
      var log := new Log(device, expected);
      r := Ok(log);
    }

    method Append(n: nat, m: Mutation) returns (failure: Option<Error>)
      requires Valid()
      modifies `nextSeq, device
      ensures Valid()
      ensures failure.None? <==> isOpen && n == old(nextSeq)
      ensures failure.Some? ==> failure.value == (if isOpen then Refused else Closed)
      ensures failure.Some? ==> device.state == old(device.state) && device.trace == old(device.trace)
      ensures failure.Some? ==> nextSeq == old(nextSeq)
      ensures failure.None? ==> nextSeq == n + 1 && device.state == WithEntry(old(device.state), n, m)
      ensures failure.None? ==> device.trace == old(device.trace) + [device.state]
    {
      if !isOpen { return Some(Closed); }
      if n != nextSeq { return Some(Refused); }
      device.Write(WithEntry(device.state, n, m));
      nextSeq := nextSeq + 1;
      failure := None;
    }

    /** Write the kept entries under a new header, checking that no number is skipped. */
    method WriteSegment(base: nat, entries: seq<Entry>) returns (segment: Option<Segment>)
      ensures segment.Some? <==> base > 0 && Contiguous(base, entries)
      ensures segment.Some? ==> segment.value == Segment(base, entries)
    {
      if base == 0 { return None; }
      var expected := base;
      var written := [];
      for i := 0 to |entries|
        invariant expected == base + i && written == entries[..i]
        invariant Contiguous(base, entries[..i])
      {
        if entries[i].seqNo != expected { return None; }
        written := written + [entries[i]];
        expected := expected + 1;
      }
      assert entries[..|entries|] == entries;
      segment := Some(Segment(base, written));
    }

    /** The entries after `n`, and how many are not. */
    method Split(n: nat) returns (tail: seq<Entry>, removed: nat)
      ensures tail == After(device.state.segment.entries, n)
      ensures removed == 0 <==> !HasFrames(device.state.segment, n)
    {
      var entries := device.state.segment.entries;
      tail, removed := [], 0;
      for i := 0 to |entries|
        invariant tail == After(entries[..i], n)
        invariant removed > 0 <==> exists j :: 0 <= j < i && entries[j].seqNo <= n
      {
        AfterSnoc(entries, i, n);
        if entries[i].seqNo <= n {
          removed := removed + 1;
        } else {
          tail := tail + [entries[i]];
        }
      }
      assert entries[..|entries|] == entries;
    }

    /** Archive the segment, then keep only the entries after `n`. */
    method CompactThrough(n: nat) returns (failure: Option<Error>)
      requires Valid()
      modifies this, device
      ensures Valid()
      ensures failure.None? <==> old(isOpen) && 0 < n < old(nextSeq) && HasFrames(old(device.state.segment), n)
      ensures isOpen == old(isOpen)
      ensures failure.Some? ==> failure.value == (if isOpen then Refused else Closed)
      ensures failure.Some? ==> device.state == old(device.state) && device.trace == old(device.trace)
      ensures failure.Some? ==> nextSeq == old(nextSeq)
      ensures failure.None? ==>
        var d2 := ArchiveTruncated(old(device.state), n);
        var d3 := Archived(d2, n);
        device.state == Swapped(d3, n) && device.trace == old(device.trace) + [d2, d3, Swapped(d3, n)]
    {
      hide After, HasFrames;
      if !isOpen { return Some(Closed); }
      if n == 0 { return Some(Refused); }
      if n >= nextSeq { return Some(Refused); }
      var tail, removed := Split(n);
      if removed == 0 { return Some(Refused); }
      FramesReach(device.state.segment, n);
      device.Write(ArchiveTruncated(device.state, n));
      device.Write(Archived(device.state, n));
      var segment := WriteSegment(n + 1, tail);
      isOpen := false;
      device.Write(device.state.(segment := segment.value));
      isOpen := true;
      nextSeq := if tail == [] then n + 1 else tail[|tail| - 1].seqNo + 1;
      failure := None;
    }
  }

  lemma FramesReach(s: Segment, n: nat)
    requires Contiguous(s.base, s.entries) && HasFrames(s, n) && n < NextSeq(s)
    ensures After(s.entries, n) == s.entries[n + 1 - s.base..]
    ensures Contiguous(n + 1, After(s.entries, n))
  {
    var i :| 0 <= i < |s.entries| && s.entries[i].seqNo <= n;
    AfterSuffix(s.base, s.entries, n);
  }
}
