/** Every action of the system keeps its invariant, hence every run does. */
module Safety {
  import opened Text
  import opened Types
  import opened Normalize
  import opened Catalogs
  import opened Laws
  import opened Disks
  import opened Recovery
  import opened Vectors
  import opened System

  // ---------------------------------------------------------------- growing histories

  lemma {:induction false} FoldEntriesPrefix(mapper: Mapper, h: History, m: Mutation, k: nat)
    requires k <= |h|
    ensures FoldEntries(mapper, h + [m], k) == FoldEntries(mapper, h, k)
  {
    hide Project;
    if k > 0 {
      FoldEntriesPrefix(mapper, h, m, k - 1);
      assert (h + [m])[k - 1] == h[k - 1];
    }
  }

  lemma SinkAtGrows(mapper: Mapper, h: History, m: Mutation, sink: Entries, k: nat)
    requires SinkAt(mapper, h, sink, k)
    ensures SinkAt(mapper, h + [m], sink, k)
  {
    hide FoldEntries;
    if k <= |h| { FoldEntriesPrefix(mapper, h, m, k); }
    if k + 1 <= |h| { FoldEntriesPrefix(mapper, h, m, k + 1); }
  }

  lemma EntriesGrow(h: History, m: Mutation, from: nat)
    requires from <= |h|
    ensures EntriesOf(h + [m], from) == EntriesOf(h, from) + [Entry(|h| + 1, m)]
  {
  }

  lemma SnapshotStays(d: Disk, n: nat, m: Mutation)
    ensures SnapshotSeq(WithEntry(d, n, m)) == SnapshotSeq(d) && WithEntry(d, n, m).snapshot == d.snapshot
    ensures WithEntry(d, n, m).segment == Segment(d.segment.base, d.segment.entries + [Entry(n, m)])
    ensures WithEntry(d, n, m).manifests == d.manifests
  {
  }

  lemma JournalGrows(d: Disk, h: History, m: Mutation)
    requires Journal(d, h) && Accepts(Fold(h), m)
    ensures Journal(WithEntry(d, |h| + 1, m), h + [m])
  {
    hide Legal, Fold, Accepts, EntriesOf, Step, SnapshotSeq, WithEntry;
    LegalSnoc(h, m);
    EntriesGrow(h, m, d.segment.base - 1);
    SnapshotStays(d, |h| + 1, m);
    assert (h + [m])[..SnapshotSeq(d)] == h[..SnapshotSeq(d)];
  }

  lemma ArchivesGrow(d: Disk, h: History, m: Mutation)
    requires ArchivesKeep(d, h) && d.segment.base <= |h| + 1
    ensures ArchivesKeep(WithEntry(d, |h| + 1, m), h + [m])
  {
    var e := WithEntry(d, |h| + 1, m);
    forall i | 1 <= i <= |h + [m]| && i < e.segment.base ensures InArchive(e, h + [m], i) {
      assert InArchive(d, h, i);
      var n :| n in d.archives && n < d.segment.base && Archive(d.archives[n], h, i);
      assert Archive(e.archives[n], h + [m], i);
    }
  }

  // ---------------------------------------------------------------- core: disk and memory

  lemma OpenCore(env: Env, s: State, clock: Time)
    requires CoreInv(env, s) && Covers(s.disk) && TakeOpen(s, clock).Some?
    ensures CoreInv(env, TakeOpen(s, clock).value)
  {
    hide Legal, Fold, BodiesMatch, ArchivesKeep, Recover;
    RecoveryComplete(s.disk, s.history, clock);
  }

  lemma PreparedAccepted(hash: Hash, c: Catalog, m: Mutation, n: Mutation, now: Time)
    requires NormalizeMutation(m, hash) == Ok(n) && now > 0
    requires !KnownKey(c, Prepared(n, now)) && Preflight(c, Prepared(n, now)).None?
    ensures var p := Prepared(n, now);
      && Accepts(c, p)
      && (p.kind == CreateChunk ==>
            p.chunk.contentHash == hash(m.chunkContent) && p.chunk.contentLength == |m.chunkContent|)
  {
    hide NormalizeMutation, Preflight;
    hide ValidateRecord, ValidateChunk, ValidateSpan, ValidateNode, ValidateEdge, ValidatePurge;
    NormalizeEstablishes(m, hash);
    var p := Prepared(n, now);
    assert p.record == n.record && p.node == n.node && p.edge == n.edge && p.kind == n.kind;
    assert Normalized(p);
  }

  lemma BeginApplyCore(env: Env, s: State, mem: Memory, m: Mutation, now: Time)
    requires CoreInv(env, s) && s.memory == Some(mem) && TakeBeginApply(env, s, mem, m, now).Some?
    ensures CoreInv(env, TakeBeginApply(env, s, mem, m, now).value)
  {
    hide NormalizeMutation, Preflight, Accepts, Prepared, KnownKey, Legal, Fold, DiskInv, CapturesInv, WorkerInv;
    var n := NormalizeMutation(m, env.hash).value;
    PreparedAccepted(env.hash, mem.view.catalog, m, n, now);
    assert Legal(s.history) by { LegalOf(env, s.disk, s.history); }
  }

  lemma LegalOf(env: Env, d: Disk, h: History)
    requires DiskInv(env, d, h)
    ensures Legal(h) && Journal(d, h)
    ensures 1 <= d.segment.base <= |h| + 1
  {
    hide Legal;
  }

  lemma ChunkIsNew(c: Catalog, m: Mutation)
    requires Accepts(c, m) && m.kind == CreateChunk
    ensures m.chunk.id !in c.chunks
  {
    hide Normalized, KnownKey;
  }

  lemma BodyWritten(hash: Hash, bodies: map<string, seq<Byte>>, c: Catalog, k: Chunk, content: seq<Byte>)
    requires BodiesMatch(hash, bodies, c) && k.id !in c.chunks
    requires k.contentLength == |content| && k.contentHash == hash(content)
    ensures BodiesMatch(hash, bodies[k.id := content], c) && BodyMatches(hash, bodies[k.id := content], k)
  {
  }

  lemma ArchivesFrame(d: Disk, e: Disk, h: History)
    requires ArchivesKeep(d, h) && e.archives == d.archives && e.segment.base == d.segment.base
    ensures ArchivesKeep(e, h)
  {
    hide Archive;
    forall i | 1 <= i <= |h| && i < e.segment.base ensures InArchive(e, h, i) {
      assert InArchive(d, h, i);
    }
  }

  lemma WorkersFrame(d: Disk, e: Disk, h: History, mem: Memory, after: Memory)
    requires WorkersInv(d, h, mem)
    requires e.segment.base == d.segment.base && e.checkpoints == d.checkpoints
    requires after.workers == mem.workers && after.view.checkpoints == mem.view.checkpoints
    ensures WorkersInv(e, h, after)
  {
    forall name | name in after.workers ensures WorkerInv(e, h, after.view, name, after.workers[name]) {
      assert WorkerInv(d, h, mem.view, name, mem.workers[name]);
    }
  }

  lemma WriteBodyCore(env: Env, s: State, mem: Memory)
    requires CoreInv(env, s) && s.memory == Some(mem) && TakeWriteBody(s, mem).Some?
    ensures CoreInv(env, TakeWriteBody(s, mem).value)
  {
    hide Accepts, Legal, Fold, CapturesInv, WorkersInv, ArchivesKeep, BodiesMatch, BodyMatches;
    var m, content := mem.phase.m, mem.phase.content;
    ChunkIsNew(Fold(s.history), m);
    BodyWritten(env.hash, s.disk.bodies, Fold(s.history), m.chunk, content);
    var t := TakeWriteBody(s, mem).value;
    ArchivesFrame(s.disk, t.disk, s.history);
    WorkersFrame(s.disk, t.disk, s.history, mem, t.memory.value);
  }

  /** The appended chunk's body is on disk already. */
  lemma BodiesGrow(env: Env, bodies: map<string, seq<Byte>>, h: History, m: Mutation)
    requires Legal(h) && Accepts(Fold(h), m) && BodiesMatch(env.hash, bodies, Fold(h))
    requires m.kind == CreateChunk ==> BodyMatches(env.hash, bodies, m.chunk)
    ensures BodiesMatch(env.hash, bodies, Fold(h + [m]))
  {
    hide Legal, Fold, Accepts;
    LegalSnoc(h, m);
    AcceptedFacts(Fold(h), m);
    ChunksAfter(Fold(h), |h| + 1, m, 0);
  }

  lemma ChunksAfter(c: Catalog, n: nat, m: Mutation, clock: Time)
    requires Step(c, n, m, clock).Ok? && !KnownKey(c, m)
    ensures var d := Step(c, n, m, clock).value.catalog;
      d.chunks == if m.kind != CreateChunk then c.chunks
                  else c.chunks[m.chunk.id := m.chunk.(stamp := Born(n, AtOr(m, clock)))]
  {
    hide ApplyCreate, ApplyUpdate, ApplyDelete, ApplyCreateNode, ApplyUpdateNode, ApplyDeleteNode, ApplyCreateEdge,
      ApplyDeleteEdge, ApplyCreateSourceSpan, ApplyCreatePurgeRequest, Born;
    ChunkKind(c, n, m, clock);
    match Materialize(c, n, m, clock).value {
      case RecordEntity(_) => case ChunkEntity(_) => case SpanEntity(_) =>
      case NodeEntity(_) => case EdgeEntity(_) => case PurgeEntity(_) =>
    }
  }

  lemma ChunkKind(c: Catalog, n: nat, m: Mutation, clock: Time)
    requires Materialize(c, n, m, clock).Ok?
    ensures Materialize(c, n, m, clock).value.ChunkEntity? <==> m.kind == CreateChunk
    ensures m.kind == CreateChunk ==>
      Materialize(c, n, m, clock).value == ChunkEntity(m.chunk.(stamp := Born(n, AtOr(m, clock))))
  {
    hide Trim, CheckRecord, CheckNode, CheckEdge, ValidateSpanReferences, ValidateEdgeEndpoints, SortRefs, Born, Bumped;
    match m.kind {
      case CreateRecord => case UpdateRecord => case DeleteRecord =>
      case CreateChunk => case CreateSourceSpan => case CreatePurgeRequest =>
      case CreateNode => case UpdateNode => case DeleteNode =>
      case CreateEdge => case DeleteEdge =>
      case Unknown =>
    }
  }

  lemma QueueGrows(d: Disk, h: History, v: View, w: View, m: Mutation, phase: Phase)
    requires QueueInv(d, h, v, Idle) && !SwapDone(phase)
    requires w.events == v.events && w.catalog == v.catalog && w.compactionSeq == v.compactionSeq
    ensures QueueInv(WithEntry(d, |h| + 1, m), h + [m], w, phase)
  {
    var n := v.catalog.durableSeq;
    assert Events(h + [m], n - |v.events|, n) == Events(h, n - |v.events|, n);
  }

  lemma WorkersGrow(d: Disk, h: History, mem: Memory, after: Memory, m: Mutation)
    requires WorkersInv(d, h, mem)
    requires after.workers == mem.workers && after.view.checkpoints == mem.view.checkpoints
    ensures WorkersInv(WithEntry(d, |h| + 1, m), h + [m], after)
  {
    var e := WithEntry(d, |h| + 1, m);
    forall name | name in after.workers ensures WorkerInv(e, h + [m], after.view, name, after.workers[name]) {
      assert WorkerInv(d, h, mem.view, name, mem.workers[name]);
    }
  }

  lemma CapturesGrow(h: History, captures: set<Catalog>, m: Mutation)
    requires CapturesInv(h, captures)
    ensures CapturesInv(h + [m], captures)
  {
    hide Fold;
    forall c | c in captures ensures c.durableSeq <= |h + [m]| && c == Fold((h + [m])[..c.durableSeq]) {
      assert (h + [m])[..c.durableSeq] == h[..c.durableSeq];
    }
  }

  lemma AppendCore(env: Env, s: State, mem: Memory)
    requires CoreInv(env, s) && s.memory == Some(mem) && TakeAppend(s, mem).Some?
    ensures CoreInv(env, TakeAppend(s, mem).value)
  {
    hide Accepts, Legal, Fold, CapturesInv, WorkersInv, ArchivesKeep, BodiesMatch, BodyMatches, QueueInv, Journal;
    var m, h := mem.phase.m, s.history;
    var t := TakeAppend(s, mem).value;
    assert Legal(h) && 1 <= s.disk.segment.base <= |h| + 1 by { LegalOf(env, s.disk, h); }
    FoldSeq(h);
    LegalSnoc(h, m);
    JournalGrows(s.disk, h, m);
    ArchivesGrow(s.disk, h, m);
    BodiesGrow(env, s.disk.bodies, h, m);
    QueueIdle(s.disk, h, mem.view, mem.phase);
    QueueGrows(s.disk, h, mem.view, t.memory.value.view, m, Materializing(m));
    WorkersGrow(s.disk, h, mem, t.memory.value, m);
    CapturesGrow(h, mem.captures, m);
    CapturesGrow(h, s.strays, m);
    assert (h + [m])[..|h + [m]| - 1] == h;
  }

  lemma QueueIdle(d: Disk, h: History, v: View, phase: Phase)
    requires QueueInv(d, h, v, phase) && !SwapDone(phase)
    ensures QueueInv(d, h, v, Idle)
  {
  }

  /** The mutation in flight materializes to the fold of the history and joins the queue. */
  lemma MaterializedFold(h: History, v: View, clock: Time)
    requires Legal(h) && h != [] && v.catalog == Fold(h[..|h| - 1])
    ensures v.catalog.durableSeq == |h| - 1 && Fold(h).durableSeq == |h|
    ensures Materialized(v, h[|h| - 1], clock) ==
      Ok(v.(catalog := Fold(h), events := v.events + [EventOf(|h|, h[|h| - 1])]))
  {
    hide Accepts, Legal, Fold, Step;
    var n := |h| - 1;
    LegalPrefix(h, n);
    FoldSeq(h[..n]);
    LegalStep(h, n);
    AcceptedFacts(Fold(h[..n]), h[n]);
    ReplayIgnoresClock(Fold(h[..n]), n + 1, h[n], clock, 0);
    assert h[..n + 1] == h;
  }

  lemma QueueExtends(d: Disk, h: History, v: View, w: View, phase: Phase)
    requires h != [] && QueueInv(d, h, v, phase) && !SwapDone(phase) && v.catalog.durableSeq == |h| - 1
    requires w.catalog.durableSeq == |h| && w.events == v.events + [EventOf(|h|, h[|h| - 1])]
    requires w.compactionSeq == v.compactionSeq
    ensures QueueInv(d, h, w, Idle)
  {
    var n, k := |h| - 1, |v.events|;
    assert Events(h, n - k, n + 1) == Events(h, n - k, n) + [EventOf(n + 1, h[n])];
  }

  lemma ApplyCore(env: Env, s: State, mem: Memory, clock: Time)
    requires CoreInv(env, s) && s.memory == Some(mem) && TakeApply(s, mem, clock).Some?
    ensures CoreInv(env, TakeApply(s, mem, clock).value)
    ensures TakeApply(s, mem, clock).value.memory.value.view.catalog == Fold(s.history)
  {
    hide Accepts, Legal, Fold, CapturesInv, WorkersInv, DiskInv, Step, QueueInv, Materialized;
    var h := s.history;
    LegalOf(env, s.disk, h);
    MaterializedFold(h, mem.view, clock);
    var after := TakeApply(s, mem, clock).value.memory.value;
    WorkersFrame(s.disk, s.disk, h, mem, after);
    QueueExtends(s.disk, h, mem.view, after.view, mem.phase);
  }

  /** Neither the folds of the past nor the memory depend on the snapshot file. */
  lemma InstalledJournal(d: Disk, h: History, c: Catalog)
    requires Journal(d, h) && c.durableSeq <= |h| && c == Fold(h[..c.durableSeq])
    ensures Journal(WithSnapshot(d, c), h)
  {
    hide Legal, Fold, EntriesOf;
  }

  lemma InstallCore(env: Env, s: State, c: Catalog)
    requires CoreInv(env, s) && TakeInstall(s, c).Some?
    ensures CoreInv(env, TakeInstall(s, c).value)
  {
    hide Legal, Fold, ArchivesKeep, BodiesMatch, MemoryInv, Journal;
    LegalOf(env, s.disk, s.history);
    var d := WithSnapshot(s.disk, c);
    assert c.durableSeq <= |s.history| && c == Fold(s.history[..c.durableSeq]) by { PendingOf(env, s, c); }
    InstalledJournal(s.disk, s.history, c);
    ArchivesFrame(s.disk, d, s.history);
    if s.memory.Some? { InstalledMemory(env, s.disk, s.history, s.memory.value, c); }
  }

  lemma PendingOf(env: Env, s: State, c: Catalog)
    requires CoreInv(env, s) && TakeInstall(s, c).Some?
    ensures c.durableSeq <= |s.history| && c == Fold(s.history[..c.durableSeq])
  {
    hide Legal, Fold, DiskInv, PhaseInv, QueueInv, WorkersInv;
    LegalOf(env, s.disk, s.history);
  }

  lemma InstalledMemory(env: Env, d: Disk, h: History, mem: Memory, c: Catalog)
    requires Legal(h) && MemoryInv(env, d, h, mem)
    ensures MemoryInv(env, WithSnapshot(d, c), h, mem)
  {
    hide Legal, Fold, WorkersInv, CapturesInv, QueueInv, BodyMatches, Accepts, ProjectorsReady;
    WorkersFrame(d, WithSnapshot(d, c), h, mem, mem);
    QueueFrame(d, WithSnapshot(d, c), h, mem.view, mem.view, mem.phase);
  }

  lemma CloseCore(env: Env, s: State, mem: Memory)
    requires CoreInv(env, s) && s.memory == Some(mem) && TakeClose(s, mem).Some?
    ensures CoreInv(env, TakeClose(s, mem).value)
  {
    hide Fold, DiskInv, PhaseInv, QueueInv, WorkersInv;
    LegalOf(env, s.disk, s.history);
  }

  lemma QueueFrame(d: Disk, e: Disk, h: History, v: View, w: View, phase: Phase)
    requires QueueInv(d, h, v, phase) && e.segment.base == d.segment.base
    requires w.events == v.events && w.catalog == v.catalog && w.compactionSeq == v.compactionSeq
    ensures QueueInv(e, h, w, phase)
  {
    hide Events;
  }

  /** Noting a capture, in memory, and noting that its file is installed. */
  lemma SnapshotCore(env: Env, s: State, mem: Memory, a: Action)
    requires CoreInv(env, s) && s.memory == Some(mem) && TakeSnapshot(s, mem, a).Some?
    ensures CoreInv(env, TakeSnapshot(s, mem, a).value)
  {
    hide Legal, Fold, WorkersInv, DiskInv, Accepts, QueueInv;
    LegalOf(env, s.disk, s.history);
    var h, after := s.history, TakeSnapshot(s, mem, a).value.memory.value;
    WorkersFrame(s.disk, s.disk, h, mem, after);
    QueueFrame(s.disk, s.disk, h, mem.view, after.view, mem.phase);
    FoldSeq(h);
    assert h[..|h|] == h;
  }

  // ---------------------------------------------------------------- core: compaction

  lemma {:induction false} EventsAfterAll(events: seq<Event>, n: nat)
    requires forall i :: 0 <= i < |events| ==> events[i].seqNo <= n
    ensures EventsAfter(events, n) == []
  {
    if events != [] { EventsAfterAll(events[..|events| - 1], n); }
  }

  /** Truncating and filling the archive of an unfinished compaction harms no older one. */
  lemma ArchiveStepKeeps(d: Disk, e: Disk, h: History)
    requires ArchivesKeep(d, h) && d.segment.base <= |h|
    requires e == ArchiveTruncated(d, |h|) || e == Archived(d, |h|)
    ensures ArchivesKeep(e, h)
  {
    hide Archive;
    forall i | 1 <= i <= |h| && i < e.segment.base ensures InArchive(e, h, i) {
      assert InArchive(d, h, i);
      var n :| n in d.archives && n < d.segment.base && Archive(d.archives[n], h, i);
      assert n in e.archives && e.archives[n] == d.archives[n];
    }
  }

  /** The swap drops only entries the archive holds. */
  lemma SwapKeeps(d: Disk, h: History)
    requires Journal(d, h) && ArchivesKeep(d, h)
    requires |h| in d.archives && d.archives[|h|] == d.segment
    ensures Journal(Swapped(d, |h|), h) && ArchivesKeep(Swapped(d, |h|), h)
    ensures Swapped(d, |h|).segment == Segment(|h| + 1, [])
  {
    hide Legal, Fold;
    AfterAll(d.segment.entries, |h|);
    var e := Swapped(d, |h|);
    assert e.segment.entries == EntriesOf(h, |h|);
    forall i | 1 <= i <= |h| && i < e.segment.base ensures InArchive(e, h, i) {
      if i < d.segment.base {
        assert InArchive(d, h, i);
        var n :| n in d.archives && n < d.segment.base && Archive(d.archives[n], h, i);
        assert Archive(e.archives[n], h, i);
      } else {
        assert Archive(e.archives[|h|], h, i);
      }
    }
  }

  /** While every projector is ready for the compaction no worker is in flight. */
  lemma NoneInFlight(d: Disk, h: History, mem: Memory)
    requires WorkersInv(d, h, mem) && ProjectorsReady(mem.view.checkpoints, |h|)
    ensures forall name :: name in mem.workers ==> mem.workers[name].stage.Waiting?
    ensures forall name :: name in d.checkpoints ==> |h| <= d.checkpoints[name]
    ensures forall name :: name in mem.view.checkpoints ==> CheckpointOf(d.checkpoints, name) == |h|
  {
    forall name | name in mem.workers ensures mem.workers[name].stage.Waiting? {
      assert WorkerInv(d, h, mem.view, name, mem.workers[name]);
    }
    forall name | name in mem.view.checkpoints ensures CheckpointOf(d.checkpoints, name) == |h| {
      if name in mem.workers { assert WorkerInv(d, h, mem.view, name, mem.workers[name]); }
    }
  }

  lemma WorkersRest(d: Disk, e: Disk, h: History, mem: Memory, after: Memory)
    requires WorkersInv(d, h, mem) && ProjectorsReady(mem.view.checkpoints, |h|)
    requires e.checkpoints == d.checkpoints
    requires after.workers == mem.workers && after.view.checkpoints == mem.view.checkpoints
    ensures WorkersInv(e, h, after)
  {
    NoneInFlight(d, h, mem);
    forall name | name in after.workers ensures WorkerInv(e, h, after.view, name, after.workers[name]) {
      assert WorkerInv(d, h, mem.view, name, mem.workers[name]);
    }
  }

  /** What one durable step of a compaction does to the files. */
  lemma CompactDisk(env: Env, d: Disk, h: History, mem: Memory, done: nat)
    requires DiskInv(env, d, h) && MemoryInv(env, d, h, mem) && mem.phase == Compacting(done) && done < 5
    requires done == 1 ==> HasFrames(d.segment, |h|)
    ensures var e := CompactStep(d, mem.view.catalog, done);
      DiskInv(env, e, h) && PhaseInv(env, e, h, mem.view, Compacting(done + 1))
  {
    hide Legal, Fold, WorkersInv, QueueInv, CapturesInv, BodiesMatch, ArchivesKeep;
    var e := CompactStep(d, mem.view.catalog, done);
    FoldSeq(h);
    assert h[..|h|] == h;
    NoneInFlight(d, h, mem);
    match done {
      case 0 => ArchivesFrame(d, e, h);
      case 1 => ArchiveStepKeeps(d, e, h);
      case 2 => ArchiveStepKeeps(d, e, h);
      case 3 => SwapKeeps(d, h);
      case 4 => ArchivesFrame(d, e, h);
    }
  }

  lemma CompactQueue(d: Disk, h: History, v: View, done: nat)
    requires QueueInv(d, h, v, Compacting(done)) && v.catalog.durableSeq == |h| && done < 5
    requires done >= 4 ==> d.segment.base == |h| + 1
    requires done == 3 ==> d.segment.base <= |h|
    ensures QueueInv(CompactStep(d, v.catalog, done), h, v, Compacting(done + 1))
  {
    hide Legal, Fold;
  }

  lemma CompactNextCore(env: Env, s: State, mem: Memory)
    requires CoreInv(env, s) && s.memory == Some(mem) && TakeCompact(s, mem, CompactNext).Some?
    ensures CoreInv(env, TakeCompact(s, mem, CompactNext).value)
  {
    hide Legal, Fold, WorkersInv, CapturesInv, DiskInv, CompactStep, QueueInv, ProjectorsReady;
    LegalOf(env, s.disk, s.history);
    FoldSeq(s.history);
    var done := mem.phase.done;
    var t := TakeCompact(s, mem, CompactNext).value;
    CompactDisk(env, s.disk, s.history, mem, done);
    CompactQueue(s.disk, s.history, mem.view, done);
    CompactCheckpoints(s.disk, mem.view.catalog, done);
    WorkersRest(s.disk, t.disk, s.history, mem, t.memory.value);
  }

  lemma CompactCheckpoints(d: Disk, c: Catalog, done: nat)
    ensures CompactStep(d, c, done).checkpoints == d.checkpoints && CompactStep(d, c, done).bodies == d.bodies
  {
  }

  /** Beginning and refusing only move the phase. */
  lemma PhaseCore(env: Env, s: State, mem: Memory, a: Action)
    requires CoreInv(env, s) && s.memory == Some(mem) && TakeCompact(s, mem, a).Some?
    requires a.BeginCompact? || a.RefuseCompact?
    ensures CoreInv(env, TakeCompact(s, mem, a).value)
  {
    hide Legal, Fold, WorkersInv, CapturesInv, DiskInv, ProjectorsReady, HasFrames, Events;
    LegalOf(env, s.disk, s.history);
    FoldSeq(s.history);
    WorkersFrame(s.disk, s.disk, s.history, mem, TakeCompact(s, mem, a).value.memory.value);
  }

  /** After the last durable step the queue is empty. */
  lemma TrimmedQueue(d: Disk, h: History, v: View)
    requires QueueInv(d, h, v, Compacting(5)) && v.catalog.durableSeq == |h| && d.segment.base == |h| + 1
    ensures CompactedView(v).events == [] && QueueInv(d, h, CompactedView(v), Idle)
  {
    EventsAfterAll(v.events, |h|);
    assert Events(h, |h|, |h|) == [];
  }

  lemma FinishCore(env: Env, s: State, mem: Memory)
    requires CoreInv(env, s) && s.memory == Some(mem) && mem.phase == Compacting(5)
    ensures CoreInv(env, TakeCompact(s, mem, FinishCompact).value)
  {
    hide Legal, Fold, WorkersInv, CapturesInv, DiskInv, QueueInv, ProjectorsReady, EventsAfter;
    LegalOf(env, s.disk, s.history);
    FoldSeq(s.history);
    TrimmedQueue(s.disk, s.history, mem.view);
    WorkersFrame(s.disk, s.disk, s.history, mem, TakeCompact(s, mem, FinishCompact).value.memory.value);
  }

  lemma CompactOtherCore(env: Env, s: State, mem: Memory, a: Action)
    requires CoreInv(env, s) && s.memory == Some(mem) && TakeCompact(s, mem, a).Some? && a != CompactNext
    ensures CoreInv(env, TakeCompact(s, mem, a).value)
  {
    hide CoreInv, ProjectorsReady, HasFrames;
    if a.FinishCompact? { FinishCore(env, s, mem); } else { PhaseCore(env, s, mem, a); }
  }

  // ---------------------------------------------------------------- core: projectors

  /** In a queue that is the end of the history, the first event past a checkpoint is the one
      after it, or the first of the queue when that is later. */
  lemma {:induction false} NextEventIs(h: History, from: nat, upTo: nat, indexed: nat)
    requires from <= upTo <= |h|
    ensures var first := Max(from, indexed) + 1;
      NextEvent(Events(h, from, upTo), indexed) == (if first <= upTo then Some(EventOf(first, h[first - 1])) else None)
    decreases upTo - from
  {
    var events := Events(h, from, upTo);
    if from < upTo {
      assert events[0] == EventOf(from + 1, h[from]);
      if from + 1 <= indexed {
        assert events[1..] == Events(h, from + 1, upTo);
        NextEventIs(h, from + 1, upTo, indexed);
      }
    }
  }

  lemma RegisterCore(env: Env, s: State, mem: Memory, name: string)
    requires CoreInv(env, s) && s.memory == Some(mem) && TakeRegister(s, mem, name).Some?
    ensures CoreInv(env, TakeRegister(s, mem, name).value)
  {
    hide Legal, Fold, CapturesInv, DiskInv;
    LegalOf(env, s.disk, s.history);
    var h, after := s.history, TakeRegister(s, mem, name).value.memory.value;
    forall other | other in after.workers ensures WorkerInv(s.disk, h, after.view, other, after.workers[other]) {
      if other != name { assert WorkerInv(s.disk, h, mem.view, other, mem.workers[other]); }
    }
  }

  /** One worker moves, the others and the checkpoints stay. */
  lemma OneWorker(d: Disk, h: History, mem: Memory, after: Memory, name: string, w: Worker)
    requires WorkersInv(d, h, mem) && name in mem.workers && WorkerInv(d, h, mem.view, name, w)
    requires after.view == mem.view && after.workers == mem.workers[name := w]
    ensures WorkersInv(d, h, after)
  {
    forall other | other in after.workers ensures WorkerInv(d, h, after.view, other, after.workers[other]) {
      if other != name { assert WorkerInv(d, h, mem.view, other, mem.workers[other]); }
    }
  }

  lemma FetchCore(env: Env, s: State, mem: Memory, name: string)
    requires CoreInv(env, s) && s.memory == Some(mem) && TakeFetch(s, mem, name).Some?
    ensures CoreInv(env, TakeFetch(s, mem, name).value)
    ensures var e := TakeFetch(s, mem, name).value.memory.value.workers[name].stage.event;
      e.seqNo == Max(s.disk.segment.base - 1, CheckpointOf(mem.view.checkpoints, name)) + 1
  {
    hide Legal, Fold, CapturesInv, DiskInv, NextEvent;
    LegalOf(env, s.disk, s.history);
    FoldSeq(s.history);
    var h, v := s.history, mem.view;
    NextEventIs(h, s.disk.segment.base - 1, |h|, CheckpointOf(v.checkpoints, name));
    var after := TakeFetch(s, mem, name).value.memory.value;
    assert WorkerInv(s.disk, h, v, name, mem.workers[name]);
    OneWorker(s.disk, h, mem, after, name, after.workers[name]);
  }

  lemma DeliverCore(env: Env, s: State, mem: Memory, name: string)
    requires CoreInv(env, s) && s.memory == Some(mem) && TakeDeliver(env, s, mem, name).Some?
    ensures CoreInv(env, TakeDeliver(env, s, mem, name).value)
  {
    hide Legal, Fold, CapturesInv, DiskInv, Project, QueueInv, PhaseInv, WorkerInv;
    LegalOf(env, s.disk, s.history);
    var after := TakeDeliver(env, s, mem, name).value.memory.value;
    var w := mem.workers[name];
    Delivered(s.disk, s.history, mem.view, name, w);
    OneWorker(s.disk, s.history, mem, after, name, after.workers[name]);
  }

  lemma Delivered(d: Disk, h: History, v: View, name: string, w: Worker)
    requires WorkerInv(d, h, v, name, w) && w.stage.Fetched?
    ensures WorkerInv(d, h, v, name, Worker(Waiting, w.stage.event.seqNo))
    ensures WorkerInv(d, h, v, name, Worker(Projected(w.stage.event.seqNo), w.stage.event.seqNo))
  {
  }

  /** Only the entries of `name` differ between the two states of files and workers. */
  ghost predicate OnlyMoved(d: Disk, e: Disk, mem: Memory, after: Memory, name: string) {
    && name in mem.workers && e.segment == d.segment
    && after.workers.Keys == mem.workers.Keys
    && after.view.checkpoints.Keys == mem.view.checkpoints.Keys + {name}
    && d.checkpoints.Keys <= e.checkpoints.Keys <= d.checkpoints.Keys + {name}
    && (forall other :: other in mem.workers && other != name ==> after.workers[other] == mem.workers[other])
    && (forall other :: other in d.checkpoints && other != name ==> e.checkpoints[other] == d.checkpoints[other])
    && (forall other :: other in mem.view.checkpoints && other != name ==>
          after.view.checkpoints[other] == mem.view.checkpoints[other])
  }

  /** Replacing the entries of `name`, if at all, moves only them. */
  lemma MovesOnly(d: Disk, e: Disk, mem: Memory, after: Memory, name: string, w: Worker, k: nat, n: nat)
    requires name in mem.workers && name in mem.view.checkpoints
    requires after.workers == mem.workers[name := w]
    requires e == d || e == WithCheckpoint(d, name, k)
    requires after.view.checkpoints == mem.view.checkpoints || after.view.checkpoints == mem.view.checkpoints[name := n]
    ensures OnlyMoved(d, e, mem, after, name)
  {
  }

  lemma CheckpointMoves(s: State, mem: Memory, name: string, a: Action)
    requires name in mem.view.checkpoints && TakeCheckpoint(s, mem, name, a).Some?
    ensures var t := TakeCheckpoint(s, mem, name, a).value;
      t.memory.Some? && OnlyMoved(s.disk, t.disk, mem, t.memory.value, name)
  {
    hide OnlyMoved, WithCheckpoint, CheckpointOf;
    var t := TakeCheckpoint(s, mem, name, a).value;
    var after, w := t.memory.value, mem.workers[name];
    var n := Max(CheckpointOf(mem.view.checkpoints, name), if w.stage.Saved? then w.stage.seqNo else 0);
    var k := if w.stage.Projected? then w.stage.seqNo else 0;
    match a { case Retry(_) => case Save(_) => case Publish(_) => case _ => }
    MovesOnly(s.disk, t.disk, mem, after, name, after.workers[name], k, n);
  }

  lemma OwnCheckpoint(s: State, h: History, mem: Memory, name: string, a: Action)
    requires name in mem.workers && WorkerInv(s.disk, h, mem.view, name, mem.workers[name])
    requires mem.view.checkpoints[name] <= |h| && TakeCheckpoint(s, mem, name, a).Some?
    ensures var t := TakeCheckpoint(s, mem, name, a).value;
      && t.memory.Some? && name in t.memory.value.workers
      && WorkerInv(t.disk, h, t.memory.value.view, name, t.memory.value.workers[name])
      && t.memory.value.view.checkpoints[name] <= |h|
  {
    match a { case Retry(_) => case Save(_) => case Publish(_) => case _ => }
  }

  lemma MovedWorkers(d: Disk, e: Disk, h: History, mem: Memory, after: Memory, name: string)
    requires WorkersInv(d, h, mem) && name in mem.view.checkpoints && OnlyMoved(d, e, mem, after, name)
    requires WorkerInv(e, h, after.view, name, after.workers[name]) && after.view.checkpoints[name] <= |h|
    ensures WorkersInv(e, h, after)
  {
    hide WorkerInv;
    assert name in mem.workers;
    forall other | other in after.workers ensures WorkerInv(e, h, after.view, other, after.workers[other]) {
      if other != name {
        assert WorkerInv(d, h, mem.view, other, mem.workers[other]);
        OtherWorker(d, e, h, mem.view, after.view, other, mem.workers[other]);
      }
    }
    assert forall other :: other in e.checkpoints && other != name ==> other in d.checkpoints;
  }

  lemma OtherWorker(d: Disk, e: Disk, h: History, v: View, w: View, name: string, worker: Worker)
    requires WorkerInv(d, h, v, name, worker) && e.segment == d.segment
    requires name in v.checkpoints ==> name in w.checkpoints && w.checkpoints[name] == v.checkpoints[name]
    requires name in d.checkpoints <==> name in e.checkpoints
    requires name in d.checkpoints ==> e.checkpoints[name] == d.checkpoints[name]
    ensures WorkerInv(e, h, w, name, worker)
  {
  }

  lemma CheckpointWorkers(s: State, h: History, mem: Memory, name: string, a: Action)
    requires WorkersInv(s.disk, h, mem) && TakeCheckpoint(s, mem, name, a).Some?
    ensures var t := TakeCheckpoint(s, mem, name, a).value;
      t.memory.Some? && WorkersInv(t.disk, h, t.memory.value)
  {
    assert WorkerInv(s.disk, h, mem.view, name, mem.workers[name]) && name in mem.view.checkpoints;
    hide WorkersInv, WorkerInv, TakeCheckpoint, OnlyMoved;
    CheckpointMoves(s, mem, name, a);
    OwnCheckpoint(s, h, mem, name, a);
    var t := TakeCheckpoint(s, mem, name, a).value;
    MovedWorkers(s.disk, t.disk, h, mem, t.memory.value, name);
  }

  lemma SavedDisk(env: Env, d: Disk, h: History, name: string, n: nat)
    requires DiskInv(env, d, h) && d.segment.base <= n <= |h|
    ensures DiskInv(env, WithCheckpoint(d, name, n), h)
  {
    hide Legal, Fold, ArchivesKeep, BodiesMatch;
    ArchivesFrame(d, WithCheckpoint(d, name, n), h);
  }

  lemma CheckpointFrame(s: State, mem: Memory, name: string, a: Action)
    requires TakeCheckpoint(s, mem, name, a).Some?
    ensures var t := TakeCheckpoint(s, mem, name, a).value;
      && t.disk.(checkpoints := s.disk.checkpoints) == s.disk
      && t.memory.Some? && t.memory.value.phase == mem.phase && t.memory.value.captures == mem.captures
      && t.memory.value.view.(checkpoints := mem.view.checkpoints) == mem.view
      && (mem.phase.Idle? || t.memory.value.view == mem.view)
  {
    match a { case Retry(_) => case Save(_) => case Publish(_) => case _ => }
  }

  lemma PhaseFrame(env: Env, d: Disk, e: Disk, h: History, v: View, w: View, phase: Phase)
    requires Legal(h) && PhaseInv(env, d, h, v, phase) && e.(checkpoints := d.checkpoints) == d
    requires w.(checkpoints := v.checkpoints) == v && (phase.Idle? || w == v)
    ensures PhaseInv(env, e, h, w, phase)
  {
    hide Legal, Fold, BodyMatches, Accepts, ProjectorsReady;
  }

  /** The memory side of a checkpoint: apart from the checkpoints nothing but workers moves. */
  lemma MemoryFrame(env: Env, d: Disk, e: Disk, h: History, mem: Memory, after: Memory)
    requires Legal(h) && MemoryInv(env, d, h, mem) && WorkersInv(e, h, after)
    requires e.(checkpoints := d.checkpoints) == d && after.phase == mem.phase && after.captures == mem.captures
    requires after.view.(checkpoints := mem.view.checkpoints) == mem.view && (mem.phase.Idle? || after.view == mem.view)
    ensures MemoryInv(env, e, h, after)
  {
    hide Legal, PhaseInv, CapturesInv, WorkersInv, QueueInv;
    PhaseFrame(env, d, e, h, mem.view, after.view, mem.phase);
    QueueFrame(d, e, h, mem.view, after.view, mem.phase);
  }

  lemma CheckpointMemory(env: Env, s: State, mem: Memory, name: string, a: Action)
    requires Legal(s.history) && MemoryInv(env, s.disk, s.history, mem) && TakeCheckpoint(s, mem, name, a).Some?
    ensures var t := TakeCheckpoint(s, mem, name, a).value;
      t.memory.Some? && MemoryInv(env, t.disk, s.history, t.memory.value)
  {
    assert WorkersInv(s.disk, s.history, mem);
    hide Legal, WorkersInv, MemoryInv, TakeCheckpoint;
    CheckpointWorkers(s, s.history, mem, name, a);
    CheckpointFrame(s, mem, name, a);
    var t := TakeCheckpoint(s, mem, name, a).value;
    MemoryFrame(env, s.disk, t.disk, s.history, mem, t.memory.value);
  }

  lemma CheckpointCore(env: Env, s: State, mem: Memory, name: string, a: Action)
    requires CoreInv(env, s) && s.memory == Some(mem) && TakeCheckpoint(s, mem, name, a).Some?
    ensures CoreInv(env, TakeCheckpoint(s, mem, name, a).value)
  {
    hide Legal, DiskInv, PhaseInv, QueueInv, CapturesInv, WorkersInv;
    LegalOf(env, s.disk, s.history);
    CheckpointMemory(env, s, mem, name, a);
    SavedBound(s, s.history, mem, name);
    if mem.workers[name].stage.Projected? {
      SavedDisk(env, s.disk, s.history, name, mem.workers[name].stage.seqNo);
    }
  }

  lemma SavedBound(s: State, h: History, mem: Memory, name: string)
    requires WorkersInv(s.disk, h, mem) && name in mem.workers
    ensures mem.workers[name].stage.Projected? ==>
      s.disk.segment.base <= mem.workers[name].stage.seqNo <= |h|
  {
    assert WorkerInv(s.disk, h, mem.view, name, mem.workers[name]);
  }

  // ---------------------------------------------------------------- orderly snapshots

  lemma OrderedInstall(s: State, c: Catalog)
    requires Ordered(s.disk, s.history, s.memory) && TakeInstall(s, c).Some?
    ensures var t := TakeInstall(s, c).value;
      t.orderly ==> Ordered(t.disk, t.history, t.memory)
  {
  }

  lemma OrderedCompaction(env: Env, s: State, mem: Memory, a: Action)
    requires CoreInv(env, s) && s.memory == Some(mem) && Ordered(s.disk, s.history, s.memory)
    requires TakeCompact(s, mem, a).Some?
    ensures var t := TakeCompact(s, mem, a).value;
      Ordered(t.disk, t.history, t.memory)
  {
    hide Legal, Fold, WorkersInv, CapturesInv, QueueInv, ArchivesKeep, BodiesMatch, ProjectorsReady, HasFrames, After;
    LegalOf(env, s.disk, s.history);
    FoldSeq(s.history);
  }

  /** Actions that leave snapshot and base alone, outside a compaction. */
  ghost predicate Quiet(s: State, t: State) {
    && t.disk.snapshot == s.disk.snapshot && t.disk.segment.base == s.disk.segment.base
    && (t.memory.Some? && t.memory.value.phase.Compacting? ==>
          s.memory.Some? && t.memory.value.phase == s.memory.value.phase && t.history == s.history)
  }

  lemma QuietOrdered(s: State, t: State)
    requires Ordered(s.disk, s.history, s.memory) && Quiet(s, t)
    ensures Ordered(t.disk, t.history, t.memory)
  {
  }

  lemma OthersQuiet(env: Env, s: State, a: Action)
    requires Take(env, s, a).Some?
    requires !a.Install?
    requires !a.BeginCompact? && !a.CompactNext? && !a.RefuseCompact? && !a.FinishCompact?
    ensures Quiet(s, Take(env, s, a).value)
  {
    hide Recover, Project, Materialized, NormalizeMutation, Preflight, NextEvent, MayRegister, KnownKey, Covers,
      ManifestDurable, Prepared, Sink, CheckpointOf, TakeInstall, TakeCompact;
    match a {
      case OpenStore(_) => case Close => case Crash => case BeginApply(_, _) => case WriteBody => case AppendFrame =>
      case ApplyInMemory(_) => case Capture => case NoteSnapshot(_) => case Register(_) => case Fetch(_) =>
      case Deliver(_) => case Retry(_) => case Save(_) => case Publish(_) =>
    }
  }

  lemma OrderKept(env: Env, s: State, a: Action)
    requires CoreInv(env, s) && Ordered(s.disk, s.history, s.memory) && Take(env, s, a).Some?
    ensures var t := Take(env, s, a).value;
      t.orderly ==> Ordered(t.disk, t.history, t.memory)
  {
    hide CoreInv, Ordered, TakeOpen, TakeBeginApply, TakeWriteBody, TakeAppend, TakeApply, TakeRegister, TakeFetch,
      TakeDeliver, TakeCheckpoint, TakeSnapshot, TakeCompact, TakeClose, TakeInstall, Quiet;
    if a.Install? {
      OrderedInstall(s, a.c);
    } else if a.BeginCompact? || a.CompactNext? || a.RefuseCompact? || a.FinishCompact? {
      OrderedCompaction(env, s, s.memory.value, a);
    } else {
      OthersQuiet(env, s, a);
      QuietOrdered(s, Take(env, s, a).value);
    }
  }
}
