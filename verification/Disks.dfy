/** What survives a crash, and what `Open` makes of it.

    A `Disk` holds the files of a store directory at the granularity at which they change:
    the catalog snapshot, checkpoints and manifests are replaced by one rename each, the
    segment grows by one frame (`SegmentBytes` relates it to its bytes) and is swapped by one
    rename, and an archive is first truncated and then filled. */
module Disks {
  import opened Types
  import opened Catalogs

  datatype Entry = Entry(seqNo: nat, mutation: Mutation)

  datatype Segment = Segment(base: nat, entries: seq<Entry>)

  datatype Disk = Disk(
    snapshot: Option<Catalog>,
    segment: Segment,
    archives: map<nat, Segment>,
    manifests: set<nat>,
    bodies: map<string, seq<Byte>>,
    checkpoints: map<string, nat>)

  /** A new store directory: one empty segment with the first base sequence. */
  const FRESH_DISK := Disk(None, Segment(1, []), map[], {}, map[], map[])

  /** What the process holds in memory, without the indexes. */
  datatype View = View(
    catalog: Catalog,
    nextSeq: nat,
    snapshotSeq: nat,
    compactionSeq: nat,
    events: seq<Event>,
    checkpoints: map<string, nat>)

  // ---------------------------------------------------------------- durable steps

  function WithBody(d: Disk, id: string, content: seq<Byte>): Disk {
    d.(bodies := d.bodies[id := content])
  }

  function WithEntry(d: Disk, n: nat, m: Mutation): Disk {
    d.(segment := d.segment.(entries := d.segment.entries + [Entry(n, m)]))
  }

  function WithSnapshot(d: Disk, c: Catalog): Disk {
    d.(snapshot := Some(c))
  }

  function ArchiveTruncated(d: Disk, n: nat): Disk {
    d.(archives := d.archives - {n})
  }

  function Archived(d: Disk, n: nat): Disk {
    d.(archives := d.archives[n := d.segment])
  }

  /** The entries after `n`, under a header with base `n + 1`. */
  function Swapped(d: Disk, n: nat): Disk {
    d.(segment := Segment(n + 1, After(d.segment.entries, n)))
  }

  function WithManifest(d: Disk, n: nat): Disk {
    d.(manifests := d.manifests + {n})
  }

  function WithCheckpoint(d: Disk, name: string, n: nat): Disk {
    d.(checkpoints := d.checkpoints[name := n])
  }

  function After(entries: seq<Entry>, n: nat): seq<Entry> {
    if entries == [] then []
    else
      var last := entries[|entries| - 1];
      After(entries[..|entries| - 1], n) + if last.seqNo > n then [last] else []
  }

  /** A segment as replay accepts it: no gap in the sequence numbers. */
  ghost predicate Contiguous(base: nat, entries: seq<Entry>) {
    forall i :: 0 <= i < |entries| ==> entries[i].seqNo == base + i
  }

  lemma {:induction false} AfterAll(entries: seq<Entry>, n: nat)
    requires forall i :: 0 <= i < |entries| ==> entries[i].seqNo <= n
    ensures After(entries, n) == []
  {
    if entries != [] { AfterAll(entries[..|entries| - 1], n); }
  }

  // ---------------------------------------------------------------- recovery

  function NextSeq(s: Segment): nat {
    if s.entries == [] then s.base else s.entries[|s.entries| - 1].seqNo + 1
  }

  function Max(a: nat, b: nat): nat {
    if a < b then b else a
  }

  /** The manifest with the highest sequence is the latest one. */
  ghost predicate IsLatest(manifests: set<nat>, n: nat) {
    if manifests == {} then n == 0 else n in manifests && forall x :: x in manifests ==> x <= n
  }

  function Latest(manifests: set<nat>): (n: nat)
    ensures IsLatest(manifests, n)
  {
    if manifests == {} then 0
    else
      HasMaximum(manifests);
      var n :| n in manifests && forall x :: x in manifests ==> x <= n;
      n
  }

  lemma HasMaximum(s: set<nat>)
    requires s != {}
    ensures exists n :: n in s && forall x :: x in s ==> x <= n
  {
    var n :| n in s;
    if s != {n} {
      HasMaximum(s - {n});
      var m :| m in s - {n} && forall x :: x in s - {n} ==> x <= m;
      var top := Max(m, n);
      assert forall x :: x in s ==> x == n || x in s - {n};
      assert top in s && forall x :: x in s ==> x <= top;
    } else {
      assert n in s && forall x :: x in s ==> x <= n;
    }
  }

  /** One entry of the segment: covered by the snapshot, it is only queued for projectors;
      otherwise it is applied, and queued unless its key is known. */
  function ReplayOne(v: View, e: Entry, clock: Time): Result<View> {
    if e.seqNo <= v.catalog.durableSeq then Ok(v.(events := v.events + [EventOf(e.seqNo, e.mutation)]))
    else
      match Step(v.catalog, e.seqNo, e.mutation, clock)
      case Err(x) => Err(x)
      case Ok(o) =>
        Ok(v.(catalog := o.catalog,
              events := if o.result.idempotent then v.events else v.events + [EventOf(e.seqNo, e.mutation)]))
  }

  function ReplayAll(v: View, entries: seq<Entry>, clock: Time): Result<View> {
    if entries == [] then Ok(v)
    else
      match ReplayAll(v, entries[..|entries| - 1], clock)
      case Err(x) => Err(x)
      case Ok(w) => ReplayOne(w, entries[|entries| - 1], clock)
  }

  /** The view before the segment is replayed: the snapshot if there is one. */
  function Loaded(d: Disk): View {
    var c := if d.snapshot.Some? then d.snapshot.value else EMPTY_CATALOG;
    View(c, NextSeq(d.segment), c.durableSeq, Latest(d.manifests), [], d.checkpoints)
  }

  /** `Open`: load the snapshot, refuse one older than the latest manifest, replay the tail. */
  function Recover(d: Disk, clock: Time): Result<View> {
    var v := Loaded(d);
    if d.manifests != {} && v.snapshotSeq < v.compactionSeq then Err(Behind(v.compactionSeq))
    else ReplayAll(v, d.segment.entries, clock)
  }

  // ---------------------------------------------------------------- compaction

  /** `projectionEventsAfterSeq`. */
  function EventsAfter(events: seq<Event>, n: nat): seq<Event> {
    if events == [] then []
    else
      var last := events[|events| - 1];
      EventsAfter(events[..|events| - 1], n) + if last.seqNo > n then [last] else []
  }

  /** Durable step number `done` of `Compact`, for the catalog `c` it captured. */
  function CompactStep(d: Disk, c: Catalog, done: nat): Disk {
    match done
    case 0 => WithSnapshot(d, c)
    case 1 => ArchiveTruncated(d, c.durableSeq)
    case 2 => Archived(d, c.durableSeq)
    case 3 => Swapped(d, c.durableSeq)
    case _ => WithManifest(d, c.durableSeq)
  }

  /** The disk states an undisturbed `Compact` goes through, one per durable step. */
  function CompactionSteps(d: Disk, c: Catalog): seq<Disk> {
    var d1 := CompactStep(d, c, 0);
    var d2 := CompactStep(d1, c, 1);
    var d3 := CompactStep(d2, c, 2);
    var d4 := CompactStep(d3, c, 3);
    var d5 := CompactStep(d4, c, 4);
    [d1, d2, d3, d4, d5]
  }

  /** `CompactThrough` refuses when no frame at or before `n` is left in the segment. */
  predicate HasFrames(s: Segment, n: nat) {
    exists i :: 0 <= i < |s.entries| && s.entries[i].seqNo <= n
  }

  function CompactedView(v: View): View {
    var n := v.catalog.durableSeq;
    v.(nextSeq := n + 1, snapshotSeq := n, compactionSeq := n, events := EventsAfter(v.events, n))
  }

  /** Every known projector has indexed everything the compaction would drop. */
  predicate ProjectorsReady(checkpoints: map<string, nat>, n: nat) {
    forall name :: name in checkpoints ==> n <= checkpoints[name]
  }

  // ---------------------------------------------------------------- projectors

  /** `RegisterProjector` admits the name: nothing was compacted, or it has indexed all that was. */
  predicate MayRegister(v: View, name: string) {
    v.compactionSeq > 0 ==> name in v.checkpoints && v.compactionSeq <= v.checkpoints[name]
  }

  function CheckpointOf(checkpoints: map<string, nat>, name: string): nat {
    if name in checkpoints then checkpoints[name] else 0
  }

  /** The first queued event past the checkpoint. */
  function NextEvent(events: seq<Event>, indexed: nat): Option<Event> {
    if events == [] then None
    else if events[0].seqNo > indexed then Some(events[0])
    else NextEvent(events[1..], indexed)
  }

  lemma {:induction false} NextIsLater(events: seq<Event>, indexed: nat)
    ensures NextEvent(events, indexed).Some? ==> NextEvent(events, indexed).value.seqNo > indexed
  {
    if events != [] && events[0].seqNo <= indexed { NextIsLater(events[1..], indexed); }
  }
}
