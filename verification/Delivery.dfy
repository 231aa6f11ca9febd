/** Projectors over every interleaving: gap-free ordered delivery, and an index that always
    holds the effect of a prefix of the history although events may be delivered twice. */
module Delivery {
  import opened Types
  import opened Catalogs
  import opened Disks
  import opened Recovery
  import opened Vectors
  import opened System
  import opened Safety

  // ---------------------------------------------------------------- sinks

  /** Delivering event `k + 1` to a sink that holds `1 .. k` or already `1 .. k + 1`. */
  lemma DeliveryAdvances(mapper: Mapper, h: History, sink: Entries, k: nat)
    requires k < |h| && SinkAt(mapper, h, sink, k)
    ensures var r := Project(mapper, sink, EventOf(k + 1, h[k]));
      r.Ok? ==> r.value == FoldEntries(mapper, h, k + 1)
  {
    hide Project;
    var event, before := EventOf(k + 1, h[k]), FoldEntries(mapper, h, k);
    RedeliveryChangesNothing(mapper, before, event);
    FailureIgnoresEntries(mapper, before, sink, event);
  }

  lemma SinksSame(env: Env, s: State, t: State)
    requires SinksInv(env, s) && t.history == s.history && t.sinks == s.sinks
    requires t.disk.checkpoints == s.disk.checkpoints
    ensures SinksInv(env, t)
  {
    hide SinkAt;
    forall name ensures SinkAt(env.mapper, t.history, Sink(t, name), CheckpointOf(t.disk.checkpoints, name)) {
      assert Sink(t, name) == Sink(s, name);
    }
  }

  lemma SinksGrow(env: Env, s: State, t: State, m: Mutation)
    requires SinksInv(env, s) && t.history == s.history + [m] && t.sinks == s.sinks
    requires t.disk.checkpoints == s.disk.checkpoints
    ensures SinksInv(env, t)
  {
    hide SinkAt;
    forall name ensures SinkAt(env.mapper, t.history, Sink(t, name), CheckpointOf(t.disk.checkpoints, name)) {
      assert Sink(t, name) == Sink(s, name);
      SinkAtGrows(env.mapper, s.history, m, Sink(s, name), CheckpointOf(s.disk.checkpoints, name));
    }
  }

  // ---------------------------------------------------------------- workers

  lemma CleanSame(env: Env, s: State, t: State, mem: Memory, after: Memory)
    requires CleanWorkers(env, s, mem)
    requires t.history == s.history && t.sinks == s.sinks
    requires after.workers == mem.workers && after.view.checkpoints == mem.view.checkpoints
    ensures CleanWorkers(env, t, after)
  {
    hide FoldEntries;
    forall name | name in after.workers
      ensures name in after.view.checkpoints && CleanWorker(env, t, after.view, name, after.workers[name])
    {
      assert CleanWorker(env, s, mem.view, name, mem.workers[name]);
      assert Sink(t, name) == Sink(s, name);
    }
  }

  lemma CleanGrows(env: Env, s: State, t: State, mem: Memory, after: Memory, m: Mutation)
    requires CleanWorkers(env, s, mem)
    requires t.history == s.history + [m] && t.sinks == s.sinks
    requires after.workers == mem.workers && after.view.checkpoints == mem.view.checkpoints
    ensures CleanWorkers(env, t, after)
  {
    hide FoldEntries;
    forall name | name in after.workers
      ensures name in after.view.checkpoints && CleanWorker(env, t, after.view, name, after.workers[name])
    {
      var w := mem.workers[name];
      assert CleanWorker(env, s, mem.view, name, w);
      assert Sink(t, name) == Sink(s, name);
      if w.stage.Projected? { FoldEntriesPrefix(env.mapper, s.history, m, w.stage.seqNo); }
    }
  }

  /** One worker moves; checkpoints and sinks of the others stay. */
  lemma CleanOther(env: Env, s: State, t: State, mem: Memory, after: Memory, name: string)
    requires CleanWorkers(env, s, mem) && t.history == s.history
    requires name in after.workers && after.workers.Keys == mem.workers.Keys + {name}
    requires forall other :: other in mem.workers && other != name ==>
      && after.workers[other] == mem.workers[other] && Sink(t, other) == Sink(s, other)
      && other in after.view.checkpoints
      && (other in mem.view.checkpoints ==> after.view.checkpoints[other] == mem.view.checkpoints[other])
    requires name in after.view.checkpoints && CleanWorker(env, t, after.view, name, after.workers[name])
    ensures CleanWorkers(env, t, after)
  {
    hide FoldEntries, Sink;
    forall other | other in after.workers
      ensures other in after.view.checkpoints && CleanWorker(env, t, after.view, other, after.workers[other])
    {
      if other != name { assert CleanWorker(env, s, mem.view, other, mem.workers[other]); }
    }
  }

  // ---------------------------------------------------------------- one action each

  lemma OpenClean(env: Env, s: State, clock: Time)
    requires CoreInv(env, s) && ProjectionInv(env, s) && Covers(s.disk) && ManifestDurable(s.disk)
    requires TakeOpen(s, clock).Some?
    ensures ProjectionInv(env, TakeOpen(s, clock).value)
  {
    hide Legal, Fold, BodiesMatch, ArchivesKeep, Recover, SinksInv;
    RecoveryComplete(s.disk, s.history, clock);
    SinksSame(env, s, TakeOpen(s, clock).value);
  }

  /** Actions that touch neither workers, checkpoints, sinks, base nor history. */
  ghost predicate Aside(s: State, t: State) {
    && s.memory.Some? && t.memory.Some?
    && t.history == s.history && t.sinks == s.sinks
    && t.disk.checkpoints == s.disk.checkpoints && t.disk.segment.base == s.disk.segment.base
    && t.memory.value.workers == s.memory.value.workers
    && t.memory.value.view.checkpoints == s.memory.value.view.checkpoints
    && t.memory.value.view.compactionSeq == s.memory.value.view.compactionSeq
    && (SwapDone(s.memory.value.phase) ==> SwapDone(t.memory.value.phase))
  }

  lemma AsideClean(env: Env, s: State, t: State)
    requires ProjectionInv(env, s) && Aside(s, t)
    ensures ProjectionInv(env, t)
  {
    hide SinksInv, CleanWorker;
    SinksSame(env, s, t);
    CleanSame(env, s, t, s.memory.value, t.memory.value);
  }

  lemma AppendClean(env: Env, s: State, mem: Memory)
    requires ProjectionInv(env, s) && s.memory == Some(mem) && TakeAppend(s, mem).Some?
    ensures ProjectionInv(env, TakeAppend(s, mem).value)
  {
    hide SinksInv, CleanWorker;
    var t := TakeAppend(s, mem).value;
    if t.history == s.history {
      AsideClean(env, s, t);
    } else {
      SinksGrow(env, s, t, mem.phase.m);
      CleanGrows(env, s, t, mem, t.memory.value, mem.phase.m);
    }
  }

  lemma ApplyAside(s: State, mem: Memory, clock: Time)
    requires s.memory == Some(mem) && TakeApply(s, mem, clock).Some?
    ensures Aside(s, TakeApply(s, mem, clock).value)
  {
    hide Step;
  }

  /** Beginning and refusing a compaction, and its durable steps: the base moves only when every
      projector is past it. */
  lemma CompactClean(env: Env, s: State, mem: Memory, a: Action)
    requires CoreInv(env, s) && ProjectionInv(env, s) && s.memory == Some(mem) && TakeCompact(s, mem, a).Some?
    ensures ProjectionInv(env, TakeCompact(s, mem, a).value)
  {
    hide SinksInv, CleanWorkers, DiskInv, Legal, Fold, CapturesInv, QueueInv, WorkersInv, HasFrames, After, EventsAfter,
      CompactStep;
    LegalOf(env, s.disk, s.history);
    FoldSeq(s.history);
    var t := TakeCompact(s, mem, a).value;
    var done := if mem.phase.Compacting? then mem.phase.done else 0;
    CompactCheckpoints(s.disk, mem.view.catalog, done);
    CompactBase(s.disk, mem.view.catalog, done);
    SinksSame(env, s, t);
    CleanSame(env, s, t, mem, t.memory.value);
  }

  lemma CompactBase(d: Disk, c: Catalog, done: nat)
    ensures CompactStep(d, c, done).segment.base == if done == 3 then c.durableSeq + 1 else d.segment.base
  {
    hide After;
  }

  lemma RegisterClean(env: Env, s: State, mem: Memory, name: string)
    requires CoreInv(env, s) && ProjectionInv(env, s) && s.memory == Some(mem) && TakeRegister(s, mem, name).Some?
    ensures ProjectionInv(env, TakeRegister(s, mem, name).value)
  {
    hide SinksInv, FoldEntries, CoreInv;
    var t := TakeRegister(s, mem, name).value;
    SinksSame(env, s, t);
    assert forall other :: Sink(t, other) == Sink(s, other);
    CleanOther(env, s, t, mem, t.memory.value, name);
  }

  lemma FetchClean(env: Env, s: State, mem: Memory, name: string)
    requires CoreInv(env, s) && ProjectionInv(env, s) && s.memory == Some(mem) && TakeFetch(s, mem, name).Some?
    ensures ProjectionInv(env, TakeFetch(s, mem, name).value)
  {
    hide SinksInv, FoldEntries, CoreInv;
    FetchCore(env, s, mem, name);
    var t := TakeFetch(s, mem, name).value;
    SinksSame(env, s, t);
    assert forall other :: Sink(t, other) == Sink(s, other);
    assert CleanWorker(env, s, mem.view, name, mem.workers[name]);
    CleanOther(env, s, t, mem, t.memory.value, name);
  }

  lemma WorkerOf(env: Env, s: State, mem: Memory, name: string)
    requires CoreInv(env, s) && s.memory == Some(mem) && name in mem.workers
    ensures WorkerInv(s.disk, s.history, mem.view, name, mem.workers[name])
  {
    hide WorkerInv, DiskInv, PhaseInv, QueueInv, CapturesInv, Legal;
  }

  lemma DeliverSinks(env: Env, s: State, mem: Memory, name: string)
    requires CoreInv(env, s) && ProjectionInv(env, s) && s.memory == Some(mem) && TakeDeliver(env, s, mem, name).Some?
    ensures SinksInv(env, TakeDeliver(env, s, mem, name).value)
    ensures var e := mem.workers[name].stage.event;
      Project(env.mapper, Sink(s, name), e).Ok? ==>
        Sink(TakeDeliver(env, s, mem, name).value, name) == FoldEntries(env.mapper, s.history, e.seqNo)
  {
    hide FoldEntries, CoreInv, Project, SinkAt;
    var t := TakeDeliver(env, s, mem, name).value;
    var e := mem.workers[name].stage.event;
    WorkerOf(env, s, mem, name);
    assert CleanWorker(env, s, mem.view, name, mem.workers[name]);
    var k := CheckpointOf(s.disk.checkpoints, name);
    assert SinkAt(env.mapper, s.history, Sink(s, name), k);
    DeliveryAdvances(env.mapper, s.history, Sink(s, name), k);
    SinkNext(env.mapper, s.history, k);
    forall other ensures SinkAt(env.mapper, t.history, Sink(t, other), CheckpointOf(t.disk.checkpoints, other)) {
      assert SinkAt(env.mapper, s.history, Sink(s, other), CheckpointOf(s.disk.checkpoints, other));
    }
  }

  lemma SinkNext(mapper: Mapper, h: History, k: nat)
    requires k + 1 <= |h|
    ensures SinkAt(mapper, h, FoldEntries(mapper, h, k + 1), k)
  {
    hide FoldEntries;
  }

  lemma DeliverClean(env: Env, s: State, mem: Memory, name: string)
    requires CoreInv(env, s) && ProjectionInv(env, s) && s.memory == Some(mem) && TakeDeliver(env, s, mem, name).Some?
    ensures ProjectionInv(env, TakeDeliver(env, s, mem, name).value)
  {
    hide FoldEntries, CoreInv, Project, SinksInv;
    var t := TakeDeliver(env, s, mem, name).value;
    DeliverSinks(env, s, mem, name);
    WorkerOf(env, s, mem, name);
    assert CleanWorker(env, s, mem.view, name, mem.workers[name]);
    forall other | other != name ensures Sink(t, other) == Sink(s, other) {}
    CleanOther(env, s, t, mem, t.memory.value, name);
  }

  lemma CheckpointSinks(env: Env, s: State, mem: Memory, name: string, a: Action)
    requires CoreInv(env, s) && ProjectionInv(env, s) && s.memory == Some(mem) && TakeCheckpoint(s, mem, name, a).Some?
    ensures SinksInv(env, TakeCheckpoint(s, mem, name, a).value)
  {
    hide FoldEntries, CoreInv;
    var t := TakeCheckpoint(s, mem, name, a).value;
    assert CleanWorker(env, s, mem.view, name, mem.workers[name]);
    forall other ensures SinkAt(env.mapper, t.history, Sink(t, other), CheckpointOf(t.disk.checkpoints, other)) {
      assert SinkAt(env.mapper, s.history, Sink(s, other), CheckpointOf(s.disk.checkpoints, other));
      assert Sink(t, other) == Sink(s, other);
    }
  }

  /** The one worker that moves, and what moves with it. */
  lemma CheckpointWorker(env: Env, s: State, mem: Memory, name: string, a: Action)
    requires CleanWorkers(env, s, mem) && TakeCheckpoint(s, mem, name, a).Some?
    requires WorkerInv(s.disk, s.history, mem.view, name, mem.workers[name])
    ensures var t := TakeCheckpoint(s, mem, name, a).value;
      var after := t.memory.value;
      && t.history == s.history && t.sinks == s.sinks && OnlyMoved(s.disk, t.disk, mem, after, name)
      && name in mem.view.checkpoints && mem.view.checkpoints[name] <= after.view.checkpoints[name]
      && CleanWorker(env, t, after.view, name, after.workers[name])
  {
    hide FoldEntries, OnlyMoved, CleanWorker, WorkerInv, TakeCheckpoint;
    assert name in mem.workers by { CheckpointName(s, mem, name, a); }
    assert CleanWorker(env, s, mem.view, name, mem.workers[name]);
    CheckpointMoves(s, mem, name, a);
    CheckpointOwnClean(env, s, mem, name, a);
  }

  lemma CheckpointOwnClean(env: Env, s: State, mem: Memory, name: string, a: Action)
    requires name in mem.workers && name in mem.view.checkpoints && TakeCheckpoint(s, mem, name, a).Some?
    requires CleanWorker(env, s, mem.view, name, mem.workers[name])
    ensures var t := TakeCheckpoint(s, mem, name, a).value;
      && t.history == s.history && t.sinks == s.sinks && t.memory.Some?
      && name in t.memory.value.workers && name in t.memory.value.view.checkpoints
      && mem.view.checkpoints[name] <= t.memory.value.view.checkpoints[name]
      && CleanWorker(env, t, t.memory.value.view, name, t.memory.value.workers[name])
  {
    hide FoldEntries;
    match a { case Retry(_) => case Save(_) => case Publish(_) => case _ => }
  }

  lemma CheckpointClean(env: Env, s: State, mem: Memory, name: string, a: Action)
    requires CoreInv(env, s) && ProjectionInv(env, s) && s.memory == Some(mem) && TakeCheckpoint(s, mem, name, a).Some?
    ensures ProjectionInv(env, TakeCheckpoint(s, mem, name, a).value)
  {
    hide FoldEntries, CoreInv, SinksInv, TakeCheckpoint, CleanWorker, WorkerInv;
    var t := TakeCheckpoint(s, mem, name, a).value;
    CheckpointSinks(env, s, mem, name, a);
    CheckpointName(s, mem, name, a);
    WorkerOf(env, s, mem, name);
    CheckpointWorker(env, s, mem, name, a);
    CheckpointFrame(s, mem, name, a);
    assert forall other :: Sink(t, other) == Sink(s, other);
    CleanOther(env, s, t, mem, t.memory.value, name);
  }

  lemma CheckpointName(s: State, mem: Memory, name: string, a: Action)
    requires TakeCheckpoint(s, mem, name, a).Some?
    ensures name in mem.workers
  {
  }
}
