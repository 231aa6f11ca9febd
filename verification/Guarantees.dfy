/** The promises made to the callers of the store, over every run. */
module Guarantees {
  import opened Text
  import opened Types
  import opened Normalize
  import opened Catalogs
  import opened Laws
  import opened Integrity
  import opened Contents
  import opened Disks
  import opened Recovery
  import opened System
  import opened Safety
  import opened Delivery
  import opened Theorems

  // ---------------------------------------------------------------- at most once

  /** Once a keyed mutation is in the history, by whatever path it got there, an `Apply` with the
      same key returns its sequence number and entity, appends nothing and changes nothing. */
  lemma AtMostOnce(env: Env, run: seq<Action>, s: State, i: nat, again: Mutation, now: Time)
    requires Reached(env, run, s) && s.intact && s.memory.Some? && s.memory.value.phase.Idle?
    requires i < |s.history| && s.history[i].idempotencyKey != ""
    requires NormalizeMutation(again, env.hash).Ok? && Trim(again.idempotencyKey) == s.history[i].idempotencyKey
    ensures Legal(s.history)
    ensures var c, n := s.memory.value.view.catalog, NormalizeMutation(again, env.hash).value;
      && Step(c, c.durableSeq + 1, n, now) == Ok(Outcome(c, ResultAt(s.history, i).(idempotent := true)))
      && ResultAt(s.history, i).seqNo == i + 1
    ensures Take(env, s, BeginApply(again, now)) == None
  {
    hide Exec, Ordered, ProjectionInv, Legal, Fold, Accepts, NormalizeMutation, Preflight, Normalized, Materialize,
      ResultAt;
    CoreOf(env, run, s);
    LiveCatalog(env, run, s, s.memory.value);
    NormalizeEstablishes(again, env.hash);
    KeysAreUsedOnce(s.history);
  }

  // ---------------------------------------------------------------- nothing is lost

  predicate InSegment(d: Disk, h: History, i: nat)
    requires 1 <= i <= |h|
  {
    d.segment.base <= i < d.segment.base + |d.segment.entries|
    && d.segment.entries[i - d.segment.base] == Entry(i, h[i - 1])
  }

  /** At every crash point every appended mutation is in the active segment or in an archive. */
  lemma NoFrameIsLost(env: Env, run: seq<Action>, s: State, i: nat)
    requires Reached(env, run, s) && s.intact && 1 <= i <= |s.history|
    ensures InSegment(s.disk, s.history, i) || InArchive(s.disk, s.history, i)
  {
    hide Exec, Ordered, ProjectionInv, Legal, Fold, MemoryInv, BodiesMatch, InArchive;
    CoreOf(env, run, s);
  }

  // ---------------------------------------------------------------- compaction

  predicate Compacts(a: Action) {
    a.BeginCompact? || a.CompactNext? || a.RefuseCompact? || a.FinishCompact?
  }

  lemma CompactionFrame(env: Env, s: State, a: Action)
    requires Compacts(a) && Take(env, s, a).Some?
    ensures var t := Take(env, s, a).value;
      && t.memory.Some? && s.memory.Some?
      && t.memory.value.view.catalog == s.memory.value.view.catalog
      && t.memory.value.view.checkpoints == s.memory.value.view.checkpoints
      && t.disk.checkpoints == s.disk.checkpoints && t.disk.bodies == s.disk.bodies
      && t.history == s.history && t.orderly == s.orderly && t.sinks == s.sinks
      && (a == FinishCompact ==> t.memory.value.view.nextSeq == s.memory.value.view.catalog.durableSeq + 1)
      && (a != FinishCompact ==> t.memory.value.view == s.memory.value.view)
  {
    if a == CompactNext { CompactCheckpoints(s.disk, s.memory.value.view.catalog, s.memory.value.phase.done); }
  }

  /** Compaction is transparent: not one of its steps changes the live catalog, the idempotency
      table or the next sequence, nor what a reopened store would see of them. */
  lemma CompactionIsTransparent(env: Env, run: seq<Action>, s: State, a: Action, clock: Time)
    requires Reached(env, run, s) && s.orderly && Compacts(a) && Take(env, s, a).Some?
    ensures var t := Take(env, s, a).value;
      && t.memory.Some? && s.memory.Some?
      && t.memory.value.view.catalog == s.memory.value.view.catalog
      && t.memory.value.view.nextSeq == s.memory.value.view.nextSeq
      && Recover(s.disk, clock).Ok? && Recover(t.disk, clock).Ok?
      && var before, after := Recover(s.disk, clock).value, Recover(t.disk, clock).value;
         after.catalog == before.catalog && after.nextSeq == before.nextSeq
         && after.checkpoints == before.checkpoints
  {
    hide Take, Recover, Legal, Fold, Compacts;
    var t := Take(env, s, a).value;
    CompactionFrame(env, s, a);
    var after := run + [a];
    assert after[..|after| - 1] == run;
    OrderlyRunsStayIntact(env, run, s);
    OrderlyRunsStayIntact(env, after, t);
    RecoveryIsComplete(env, run, s, clock);
    RecoveryIsComplete(env, after, t, clock);
    LiveCatalog(env, run, s, s.memory.value);
    LiveCatalog(env, after, t, t.memory.value);
  }

  // ---------------------------------------------------------------- delivery

  /** The queue holds event `i`: the number, the mutation itself and its time. */
  ghost predicate Queued(events: seq<Event>, h: History, i: nat)
    requires 1 <= i <= |h|
  {
    Event(i, h[i - 1], h[i - 1].at) in events
  }

  /** What was logged has no body to strip, so an event carries the logged mutation as it is. */
  lemma LoggedWithoutContent(h: History)
    requires Legal(h)
    ensures forall i :: 0 <= i < |h| ==> h[i] == WithoutContent(h[i])
  {
    hide Fold;
    forall i | 0 <= i < |h| ensures h[i] == WithoutContent(h[i]) {
      assert Accepts(Fold(h[..i]), h[i]);
    }
  }

  /** Gap-free queue, in every phase of the lock holder: for every registered projector, the queue
      still holds every materialized event past its checkpoint, and the next one it will be
      handed is the one right after the checkpoint, with the mutation as it was logged. */
  lemma QueueHasNoGap(env: Env, run: seq<Action>, s: State, mem: Memory, name: string)
    requires Reached(env, run, s) && s.intact && s.clean && s.memory == Some(mem) && name in mem.workers
    ensures name in mem.view.checkpoints
    ensures var k, n := mem.view.checkpoints[name], mem.view.catalog.durableSeq;
      && n == |s.history| - (if mem.phase.Materializing? then 1 else 0)
      && (forall i | k < i <= n :: Queued(mem.view.events, s.history, i))
      && NextEvent(mem.view.events, k) ==
           if k < n then Some(Event(k + 1, s.history[k], s.history[k].at)) else None
  {
    hide Exec, NextEvent, CoreInv, ProjectionInv, Legal, Journal;
    CoreOf(env, run, s);
    LoggedWithoutContent(s.history);
    var from := QueueIsTheEnd(env, run, s, mem, name);
    var k, n := mem.view.checkpoints[name], mem.view.catalog.durableSeq;
    NextEventIs(s.history, from, n, k);
    forall i | k < i <= n ensures Queued(mem.view.events, s.history, i) {
      assert mem.view.events[i - from - 1] == EventOf(i, s.history[i - 1]);
    }
  }

  /** The queue is what was materialized after some sequence at or before the checkpoint. */
  lemma QueueIsTheEnd(env: Env, run: seq<Action>, s: State, mem: Memory, name: string) returns (from: nat)
    requires Reached(env, run, s) && s.intact && s.clean && s.memory == Some(mem) && name in mem.workers
    ensures var n := mem.view.catalog.durableSeq;
      && from <= n <= |s.history| && mem.view.events == Events(s.history, from, n)
      && n == |s.history| - (if mem.phase.Materializing? then 1 else 0)
    ensures name in mem.view.checkpoints && from <= mem.view.checkpoints[name]
  {
    hide Exec, Ordered, Legal, Fold, CapturesInv, SinksInv, CleanWorker, WorkerInv, DiskInv, Accepts;
    CoreOf(env, run, s);
    DurableOf(env, run, s, mem);
    WorkerOf(env, s, mem, name);
    assert CleanWorkers(env, s, mem);
    from := mem.view.catalog.durableSeq - |mem.view.events|;
  }

  lemma DurableOf(env: Env, run: seq<Action>, s: State, mem: Memory)
    requires Reached(env, run, s) && s.intact && s.memory == Some(mem)
    ensures mem.view.catalog.durableSeq == |s.history| - (if mem.phase.Materializing? then 1 else 0)
  {
    hide Exec, Legal, Fold, CoreInv, Inv;
    CoreOf(env, run, s);
    LiveCatalog(env, run, s, mem);
    var n := |s.history| - if mem.phase.Materializing? then 1 else 0;
    LegalPrefix(s.history, n);
    FoldSeq(s.history);
    FoldSeq(s.history[..n]);
  }

  /** Ordered delivery: a projector is handed again the event it was handed last, or the one
      after it. It never sees a gap and never goes further back. */
  lemma DeliveriesStepByOne(env: Env, run: seq<Action>, s: State, mem: Memory, name: string)
    requires Reached(env, run, s) && s.intact && s.clean && s.memory == Some(mem)
    requires name in mem.workers && mem.workers[name].stage.Fetched?
    ensures var e, last := mem.workers[name].stage.event, mem.workers[name].last;
      && (e.seqNo == last || e.seqNo == last + 1)
      && 1 <= e.seqNo <= |s.history|
      && e.mutation == s.history[e.seqNo - 1] && e.at == s.history[e.seqNo - 1].at
  {
    hide Exec, Ordered, Legal, Fold, DiskInv, CapturesInv, SinksInv, CoreInv;
    CoreOf(env, run, s);
    LoggedWithoutContent(s.history);
    WorkerOf(env, s, mem, name);
    assert CleanWorker(env, s, mem.view, name, mem.workers[name]);
  }

  /** Every event past the checkpoint a name starts from is still queued. */
  ghost predicate MissesNothing(s: State, v: View, name: string) {
    forall i | CheckpointOf(v.checkpoints, name) < i <= |s.history| :: Queued(v.events, s.history, i)
  }

  lemma BaseTellsTheGap(env: Env, run: seq<Action>, s: State, mem: Memory, name: string)
    requires Reached(env, run, s) && s.intact && s.memory == Some(mem) && mem.phase.Idle?
    requires name !in mem.workers
    ensures s.disk.segment.base - 1 <= CheckpointOf(mem.view.checkpoints, name)
      <==> s.disk.segment.base == 1 || name in s.disk.checkpoints
    ensures mem.view.compactionSeq == s.disk.segment.base - 1 ==>
      (MayRegister(mem.view, name) <==> s.disk.segment.base == 1 || name in s.disk.checkpoints)
    ensures MayRegister(mem.view, name) <== s.disk.segment.base == 1 || name in s.disk.checkpoints
    ensures 1 <= s.disk.segment.base <= |s.history| + 1
    ensures mem.view.events == Events(s.history, s.disk.segment.base - 1, |s.history|)
  {
    hide Exec, Ordered, ProjectionInv, Legal, Fold, CapturesInv, BodiesMatch, ArchivesKeep, Accepts, Events;
    CoreOf(env, run, s);
    FoldSeq(s.history);
  }

  /** The queue holds event `i` exactly if it starts no later. */
  lemma QueuedIff(h: History, from: nat, i: nat)
    requires Legal(h) && from <= |h| && 1 <= i <= |h|
    ensures Queued(Events(h, from, |h|), h, i) <==> from < i
  {
    hide Legal;
    LoggedWithoutContent(h);
    var events := Events(h, from, |h|);
    if from < i {
      assert events[i - from - 1] == EventOf(i, h[i - 1]);
    } else {
      assert forall k :: 0 <= k < |events| ==> events[k].seqNo != i;
    }
  }

  /** A name that asks to be registered misses no event if and only if nothing was ever
      compacted away or it left a checkpoint on disk; and once the manifest of the last
      compaction is known, the guard of `RegisterProjector` admits exactly those names. */
  lemma RegistrationGapFreeIff(env: Env, run: seq<Action>, s: State, mem: Memory, name: string)
    requires Reached(env, run, s) && s.intact && s.memory == Some(mem) && mem.phase.Idle?
    requires name !in mem.workers
    ensures MissesNothing(s, mem.view, name) <==> s.disk.segment.base == 1 || name in s.disk.checkpoints
    ensures mem.view.compactionSeq == s.disk.segment.base - 1 ==>
      (MayRegister(mem.view, name) <==> MissesNothing(s, mem.view, name))
    ensures MissesNothing(s, mem.view, name) ==> MayRegister(mem.view, name)
  {
    hide Reached, Queued, MayRegister, Events, Legal, CoreInv, Journal;
    CoreOf(env, run, s);
    BaseTellsTheGap(env, run, s, mem, name);
    var h, b, k := s.history, s.disk.segment.base - 1, CheckpointOf(mem.view.checkpoints, name);
    forall i | 1 <= i <= |h| ensures Queued(mem.view.events, h, i) <==> b < i {
      QueuedIff(h, b, i);
    }
    if k < b {
      assert !Queued(mem.view.events, h, k + 1);
    }
  }

  // ---------------------------------------------------------------- exactly-once effect

  /** However often events are delivered again, the index of a projector holds the effect of
      events `1 .. m` once each, where `m` is its durable checkpoint or the one after it. */
  lemma ExactlyOnceEffect(env: Env, run: seq<Action>, s: State, name: string) returns (m: nat)
    requires Reached(env, run, s) && s.intact && s.clean
    ensures m <= |s.history| && Sink(s, name) == FoldEntries(env.mapper, s.history, m)
    ensures var k := CheckpointOf(s.disk.checkpoints, name); m == k || m == k + 1
  {
    hide Exec, Ordered, Legal, Fold, CoreInv, FoldEntries, CleanInv;
    CoreOf(env, run, s);
    var k := CheckpointOf(s.disk.checkpoints, name);
    assert SinkAt(env.mapper, s.history, Sink(s, name), k);
    m := if k <= |s.history| && Sink(s, name) == FoldEntries(env.mapper, s.history, k) then k else k + 1;
  }

  datatype Status = Status(durableSeq: nat, indexedSeq: nat, lag: nat)

  function StatusOf(v: View, name: string): Status
    requires name in v.checkpoints
  {
    var indexed, durable := v.checkpoints[name], v.catalog.durableSeq;
    Status(durable, indexed, if durable > indexed then durable - indexed else 0)
  }

  lemma {:induction false} EventsAfterCheckpoint(h: History, from: nat, upTo: nat, k: nat)
    requires from <= k && from <= upTo <= |h|
    ensures EventsAfter(Events(h, from, upTo), k) == if k <= upTo then Events(h, k, upTo) else []
    decreases upTo
  {
    var events := Events(h, from, upTo);
    if from < upTo {
      EventsSnoc(h, from, upTo);
      EventsAfterCheckpoint(h, from, upTo - 1, k);
      assert events[..|events| - 1] == Events(h, from, upTo - 1);
      if k < upTo { EventsSnoc(h, k, upTo); }
    }
  }

  /** The lag a projector reports is exact: it is the number of events still queued for it, and
      those are precisely the events after its checkpoint. A wait is satisfied exactly if the
      checkpoint has reached the sequence and no more events are queued than the lag allows. */
  lemma LagCountsPendingEvents(env: Env, run: seq<Action>, s: State, mem: Memory, name: string)
    requires Reached(env, run, s) && s.intact && s.clean && s.memory == Some(mem) && mem.phase.Idle?
    requires name in mem.workers
    ensures name in mem.view.checkpoints
    ensures var status := StatusOf(mem.view, name);
      && status.durableSeq == |s.history| && status.indexedSeq + status.lag == |s.history|
      && EventsAfter(mem.view.events, status.indexedSeq) == Events(s.history, status.indexedSeq, |s.history|)
      && status.lag == |EventsAfter(mem.view.events, status.indexedSeq)|
      && forall w: Wait :: WaitSatisfied(w, status) <==>
           && w.minIndexedSeq <= mem.view.checkpoints[name]
           && (w.enforceMaxLag ==> |EventsAfter(mem.view.events, mem.view.checkpoints[name])| <= w.maxLag)
  {
    hide Exec, EventsAfter, CoreInv, ProjectionInv;
    CheckpointInQueue(env, run, s, mem, name);
    EventsAfterCheckpoint(s.history, s.disk.segment.base - 1, |s.history|, mem.view.checkpoints[name]);
  }

  lemma CheckpointInQueue(env: Env, run: seq<Action>, s: State, mem: Memory, name: string)
    requires Reached(env, run, s) && s.intact && s.clean && s.memory == Some(mem) && mem.phase.Idle?
    requires name in mem.workers
    ensures mem.view.catalog.durableSeq == |s.history| && 1 <= s.disk.segment.base <= |s.history| + 1
    ensures mem.view.events == Events(s.history, s.disk.segment.base - 1, |s.history|)
    ensures name in mem.view.checkpoints
    ensures s.disk.segment.base - 1 <= mem.view.checkpoints[name] <= |s.history|
  {
    hide Exec, Ordered, Legal, Fold, CapturesInv, SinksInv, CleanWorker, WorkerInv, DiskInv, Accepts;
    CoreOf(env, run, s);
    LegalOf(env, s.disk, s.history);
    FoldSeq(s.history);
    WorkerOf(env, s, mem, name);
    assert CleanWorkers(env, s, mem);
  }

  datatype Wait = Wait(minIndexedSeq: nat, maxLag: nat, enforceMaxLag: bool)

  predicate WaitSatisfied(w: Wait, s: Status) {
    s.indexedSeq >= w.minIndexedSeq && (w.enforceMaxLag ==> s.lag <= w.maxLag)
  }

  /** A satisfied wait is a promise about the index itself: it reflects at least the events up
      to the sequence waited for, and at most the allowed lag is missing. */
  lemma SatisfiedWaitIsFresh(env: Env, run: seq<Action>, s: State, mem: Memory, name: string, w: Wait) returns (m: nat)
    requires Reached(env, run, s) && s.intact && s.clean && s.memory == Some(mem) && mem.phase.Idle?
    requires name in mem.view.checkpoints && WaitSatisfied(w, StatusOf(mem.view, name))
    ensures m <= |s.history| && Sink(s, name) == FoldEntries(env.mapper, s.history, m)
    ensures m >= w.minIndexedSeq
    ensures w.enforceMaxLag ==> |s.history| <= m + w.maxLag
  {
    hide Exec, Ordered, Legal, Fold, FoldEntries, CleanInv, DiskInv, CapturesInv, SinksInv, Accepts;
    CoreOf(env, run, s);
    FoldSeq(s.history);
    m := ExactlyOnceEffect(env, run, s, name);
    if name in mem.workers { WorkerOf(env, s, mem, name); }
  }

  // ---------------------------------------------------------------- citations

  ghost predicate Cited(hash: Hash, d: Disk, c: Catalog, s: SourceSpan) {
    && s.recordID in c.records
    && forall r :: r in s.chunkRefs ==> RefSound(c.chunks, r) && BodyMatches(hash, d.bodies, c.chunks[r.chunkID])
  }

  /** Citations never dangle: at every crash point, what the next `Open` rebuilds cites only
      records and parts of chunks that exist, and every chunk has its body, of the recorded
      length and hash. */
  lemma CitationsNeverDangle(env: Env, run: seq<Action>, s: State, clock: Time)
    requires Reached(env, run, s) && s.orderly
    ensures Recover(s.disk, clock).Ok?
    ensures var c := Recover(s.disk, clock).value.catalog;
      && Sound(c) && BodiesMatch(env.hash, s.disk.bodies, c)
      && forall id :: id in c.sourceSpans ==> Cited(env.hash, s.disk, c, c.sourceSpans[id])
  {
    hide Exec, Ordered, ProjectionInv, Legal, Fold, MemoryInv, Journal, ArchivesKeep, CheckpointsBounded, Recover,
      BodyMatches;
    OrderlyRunsStayIntact(env, run, s);
    CoreOf(env, run, s);
    RecoveryIsComplete(env, run, s, clock);
    HistorySound(s.history);
    var c := Fold(s.history);
    forall id | id in c.sourceSpans ensures Cited(env.hash, s.disk, c, c.sourceSpans[id]) {
      assert SpanSound(c, c.sourceSpans[id]);
      forall r | r in c.sourceSpans[id].chunkRefs
        ensures RefSound(c.chunks, r) && BodyMatches(env.hash, s.disk.bodies, c.chunks[r.chunkID])
      {
        assert RefSound(c.chunks, r);
      }
    }
  }

  // ---------------------------------------------------------------- laws over runs

  /** Reads see the last write, live and after any crash: every entity says what the last
      mutation that created or updated it said, and is deleted exactly if a delete followed. */
  lemma ReadsSeeTheLastWrite(env: Env, run: seq<Action>, s: State, id: string, clock: Time)
    requires Reached(env, run, s) && s.intact
    ensures s.memory.Some? && !s.memory.value.phase.Materializing? ==>
      AllSay(s.history, s.memory.value.view.catalog, id)
    ensures s.orderly ==> Recover(s.disk, clock).Ok? && AllSay(s.history, Recover(s.disk, clock).value.catalog, id)
  {
    hide Exec, Inv, CoreInv, ProjectionInv, Ordered, Legal, Journal, Fold, AllSay, Recover;
    CoreOf(env, run, s);
    HistorySays(s.history, id);
    if s.memory.Some? { LiveCatalog(env, run, s, s.memory.value); }
    if s.orderly { RecoveryIsComplete(env, run, s, clock); }
  }

  /** The catalog of a live store is conserved and sound. */
  lemma LawsOfTheLiveStore(env: Env, run: seq<Action>, s: State, mem: Memory)
    requires Reached(env, run, s) && s.intact && s.memory == Some(mem)
    ensures Conserved(Stamps(mem.view.catalog), mem.view.catalog.durableSeq)
    ensures Sound(mem.view.catalog)
  {
    hide Exec, Ordered, ProjectionInv, Legal, Fold, CoreInv, Conserved, Stamps, Sound;
    CoreOf(env, run, s);
    LiveCatalog(env, run, s, mem);
    var h := if mem.phase.Materializing? then s.history[..|s.history| - 1] else s.history;
    if mem.phase.Materializing? { LegalPrefix(s.history, |s.history| - 1); }
    HistoryConserves(h);
    HistorySound(h);
    FoldSeq(h);
  }

  /** What was durable at some point of a run is durable at every later one: tombstones and the
      immutable entities are unchanged, nothing is missing, and no revision has shrunk. */
  lemma DurableStatesOnlyGrow(env: Env, run: seq<Action>, n: nat, s: State, t: State, clock: Time)
    requires n <= |run| && Reached(env, run[..n], s) && Reached(env, run, t) && t.orderly
    ensures Recover(s.disk, clock).Ok? && Recover(t.disk, clock).Ok?
    ensures var c, d := Recover(s.disk, clock).value.catalog, Recover(t.disk, clock).value.catalog;
      && KeepsTombstones(c, d) && KeepsImmutable(c, d)
      && forall k :: k in Stamps(c) ==> k in Stamps(d) && Stamps(c)[k].revision <= Stamps(d)[k].revision
  {
    hide Exec, Ordered, ProjectionInv, CoreInv, Legal, Fold, Recover, KeepsTombstones, KeepsImmutable, Stamps;
    HistoriesGrow(env, run, n);
    RecoveryIsComplete(env, run[..n], s, clock);
    RecoveryIsComplete(env, run, t, clock);
    OrderlyRunsStayIntact(env, run, t);
    CoreOf(env, run, t);
    var h, i := t.history, |s.history|;
    assert h[..i] == s.history && h[..|h|] == h;
    TombstonesArePermanent(h, i, |h|);
    forall k | k in Stamps(Fold(h[..i]))
      ensures k in Stamps(Fold(h)) && Stamps(Fold(h[..i]))[k].revision <= Stamps(Fold(h))[k].revision
    {
      RevisionsGrow(h, i, |h|, k);
    }
  }

  /** Optimistic concurrency over a whole run: two updates or deletes of one entity that both
      named the revision they expect never named the same one. */
  lemma OneWriterPerRevisionInRuns(env: Env, run: seq<Action>, s: State, i: nat, j: nat)
    requires Reached(env, run, s) && s.intact && i < j < |s.history|
    requires Revises(s.history[i].kind) && Revises(s.history[j].kind) && Target(s.history[i]) == Target(s.history[j])
    requires s.history[i].expectedRevision > 0 && s.history[j].expectedRevision > 0
    ensures s.history[i].expectedRevision < s.history[j].expectedRevision
  {
    hide Exec, Ordered, ProjectionInv, CoreInv, Legal, Fold, Target, Revises;
    CoreOf(env, run, s);
    OneWriterPerRevision(s.history, i, j);
  }
}
