/** What holds in every state a run can reach, whatever the interleaving and wherever it was cut
    by a crash. */
module Theorems {
  import opened Types
  import opened Normalize
  import opened Catalogs
  import opened Disks
  import opened Recovery
  import opened Vectors
  import opened System
  import opened Safety
  import opened Delivery

  // ---------------------------------------------------------------- one action, any action

  /** Disk and memory agree with the history after every action. */
  lemma CoreKept(env: Env, s: State, a: Action)
    requires CoreInv(env, s) && Take(env, s, a).Some? && (a.OpenStore? ==> Covers(s.disk))
    ensures CoreInv(env, Take(env, s, a).value)
  {
    hide CoreInv, TakeOpen, TakeBeginApply, TakeWriteBody, TakeAppend, TakeApply, TakeRegister, TakeFetch,
      TakeDeliver, TakeCheckpoint, TakeSnapshot, TakeCompact, TakeClose, TakeInstall, Covers;
    match a {
      case OpenStore(clock) => OpenCore(env, s, clock);
      case Close => CloseCore(env, s, s.memory.value);
      case Crash => CrashCore(env, s);
      case BeginApply(m, now) => BeginApplyCore(env, s, s.memory.value, m, now);
      case WriteBody => WriteBodyCore(env, s, s.memory.value);
      case AppendFrame => AppendCore(env, s, s.memory.value);
      case ApplyInMemory(clock) => ApplyCore(env, s, s.memory.value, clock);
      case Capture => SnapshotCore(env, s, s.memory.value, a);
      case Install(c) => InstallCore(env, s, c);
      case NoteSnapshot(_) => SnapshotCore(env, s, s.memory.value, a);
      case BeginCompact => CompactOtherCore(env, s, s.memory.value, a);
      case CompactNext => CompactNextCore(env, s, s.memory.value);
      case RefuseCompact => CompactOtherCore(env, s, s.memory.value, a);
      case FinishCompact => CompactOtherCore(env, s, s.memory.value, a);
      case Register(name) => RegisterCore(env, s, s.memory.value, name);
      case Fetch(name) => FetchCore(env, s, s.memory.value, name);
      case Deliver(name) => DeliverCore(env, s, s.memory.value, name);
      case Retry(name) => CheckpointCore(env, s, s.memory.value, name, a);
      case Save(name) => CheckpointCore(env, s, s.memory.value, name, a);
      case Publish(name) => CheckpointCore(env, s, s.memory.value, name, a);
    }
  }

  lemma CrashCore(env: Env, s: State)
    requires CoreInv(env, s)
    ensures CoreInv(env, s.(memory := None, strays := {}))
  {
    hide DiskInv, MemoryInv, Fold;
  }

  /** Without a store in memory only the indexes are left. */
  lemma DownClean(env: Env, s: State, t: State)
    requires ProjectionInv(env, s) && t.memory.None?
    requires t.history == s.history && t.sinks == s.sinks && t.disk.checkpoints == s.disk.checkpoints
    ensures ProjectionInv(env, t)
  {
    hide SinksInv, CleanInv;
    SinksSame(env, s, t);
  }

  lemma InstallClean(env: Env, s: State, c: Catalog)
    requires ProjectionInv(env, s) && TakeInstall(s, c).Some?
    ensures ProjectionInv(env, TakeInstall(s, c).value)
  {
    hide ProjectionInv;
    if s.memory.None? {
      DownClean(env, s, TakeInstall(s, c).value);
    } else {
      AsideClean(env, s, TakeInstall(s, c).value);
    }
  }

  lemma CloseFrame(s: State, mem: Memory)
    requires TakeClose(s, mem).Some?
    ensures var t := TakeClose(s, mem).value;
      t.memory.None? && t.history == s.history && t.sinks == s.sinks && t.disk == s.disk
  {
  }

  lemma BeginApplyAside(env: Env, s: State, mem: Memory, m: Mutation, now: Time)
    requires s.memory == Some(mem) && TakeBeginApply(env, s, mem, m, now).Some?
    ensures Aside(s, TakeBeginApply(env, s, mem, m, now).value)
  {
    hide NormalizeMutation, Prepared, Preflight;
  }

  lemma WriteBodyAside(s: State, mem: Memory)
    requires s.memory == Some(mem) && TakeWriteBody(s, mem).Some?
    ensures Aside(s, TakeWriteBody(s, mem).value)
  {
  }

  lemma SnapshotAside(s: State, mem: Memory, a: Action)
    requires s.memory == Some(mem) && TakeSnapshot(s, mem, a).Some?
    ensures Aside(s, TakeSnapshot(s, mem, a).value)
  {
  }

  /** Projectors and indexes agree with the history after every action. */
  lemma ProjectionKept(env: Env, s: State, a: Action)
    requires CoreInv(env, s) && ProjectionInv(env, s) && Take(env, s, a).Some?
    requires a.OpenStore? ==> Covers(s.disk) && ManifestDurable(s.disk)
    ensures ProjectionInv(env, Take(env, s, a).value)
  {
    hide CoreInv, ProjectionInv, TakeOpen, TakeBeginApply, TakeWriteBody, TakeAppend, TakeApply, TakeRegister,
      TakeFetch, TakeDeliver, TakeCheckpoint, TakeSnapshot, TakeCompact, TakeClose, TakeInstall, Covers,
      ManifestDurable, Aside;
    match a {
      case OpenStore(clock) => OpenClean(env, s, clock);
      case Close =>
        CloseFrame(s, s.memory.value);
        DownClean(env, s, Take(env, s, a).value);
      case Crash => DownClean(env, s, Take(env, s, a).value);
      case BeginApply(m, now) =>
        BeginApplyAside(env, s, s.memory.value, m, now);
        AsideClean(env, s, Take(env, s, a).value);
      case WriteBody =>
        WriteBodyAside(s, s.memory.value);
        AsideClean(env, s, Take(env, s, a).value);
      case AppendFrame => AppendClean(env, s, s.memory.value);
      case ApplyInMemory(clock) =>
        ApplyAside(s, s.memory.value, clock);
        AsideClean(env, s, Take(env, s, a).value);
      case Capture =>
        SnapshotAside(s, s.memory.value, a);
        AsideClean(env, s, Take(env, s, a).value);
      case Install(c) => InstallClean(env, s, c);
      case NoteSnapshot(_) =>
        SnapshotAside(s, s.memory.value, a);
        AsideClean(env, s, Take(env, s, a).value);
      case BeginCompact => CompactClean(env, s, s.memory.value, a);
      case CompactNext => CompactClean(env, s, s.memory.value, a);
      case RefuseCompact => CompactClean(env, s, s.memory.value, a);
      case FinishCompact => CompactClean(env, s, s.memory.value, a);
      case Register(name) => RegisterClean(env, s, s.memory.value, name);
      case Fetch(name) => FetchClean(env, s, s.memory.value, name);
      case Deliver(name) => DeliverClean(env, s, s.memory.value, name);
      case Retry(name) => CheckpointClean(env, s, s.memory.value, name, a);
      case Save(name) => CheckpointClean(env, s, s.memory.value, name, a);
      case Publish(name) => CheckpointClean(env, s, s.memory.value, name, a);
    }
  }

  /** The flags only ever fall, and only `OpenStore` and `Install` can lower them. */
  lemma FlagsFall(env: Env, s: State, a: Action)
    requires Take(env, s, a).Some?
    ensures var t := Take(env, s, a).value;
      && (t.intact <==> s.intact && (a.OpenStore? ==> Covers(s.disk)))
      && (t.clean <==> s.clean && (a.OpenStore? ==> ManifestDurable(s.disk)))
      && (t.orderly ==> s.orderly)
  {
    hide Recover, Project, Materialized, NormalizeMutation, Preflight, NextEvent, MayRegister, KnownKey, Covers,
      ManifestDurable, Prepared, Sink, CheckpointOf, CompactStep, HasFrames, ProjectorsReady, CompactedView;
    match a {
      case OpenStore(_) => case Close => case Crash => case BeginApply(_, _) => case WriteBody => case AppendFrame =>
      case ApplyInMemory(_) => case Capture => case Install(_) => case NoteSnapshot(_) =>
      case BeginCompact => case CompactNext => case RefuseCompact => case FinishCompact =>
      case Register(_) => case Fetch(_) => case Deliver(_) => case Retry(_) => case Save(_) => case Publish(_) =>
    }
  }

  lemma InvKept(env: Env, s: State, a: Action)
    requires Inv(env, s) && Take(env, s, a).Some?
    ensures Inv(env, Take(env, s, a).value)
  {
    hide Take, CoreInv, ProjectionInv, Ordered, Covers, ManifestDurable;
    var t := Take(env, s, a).value;
    FlagsFall(env, s, a);
    if t.intact {
      CoreKept(env, s, a);
      if t.orderly { OrderKept(env, s, a); }
      if t.clean { ProjectionKept(env, s, a); }
    }
  }

  lemma StartInv(env: Env)
    ensures Inv(env, START)
  {
    assert EntriesOf([], 0) == [];
    assert BodiesMatch(env.hash, map[], EMPTY_CATALOG);
    forall name ensures SinkAt(env.mapper, [], Sink(START, name), CheckpointOf(START.disk.checkpoints, name)) {
      assert FoldEntries(env.mapper, [], 0) == map[];
    }
  }

  /** Every state of every run satisfies the invariant. */
  lemma {:induction false} RunsKeepInv(env: Env, run: seq<Action>)
    requires Exec(env, run).Some?
    ensures Inv(env, Exec(env, run).value)
  {
    hide Take, Inv;
    if run == [] {
      StartInv(env);
    } else {
      RunsKeepInv(env, run[..|run| - 1]);
      InvKept(env, Exec(env, run[..|run| - 1]).value, run[|run| - 1]);
    }
  }

  /** `s` is the state after `run`. */
  ghost predicate Reached(env: Env, run: seq<Action>, s: State) {
    Exec(env, run) == Some(s)
  }

  lemma CoreOf(env: Env, run: seq<Action>, s: State)
    requires Reached(env, run, s) && s.intact
    ensures CoreInv(env, s) && Legal(s.history) && Journal(s.disk, s.history)
    ensures s.orderly ==> Ordered(s.disk, s.history, s.memory)
    ensures s.clean ==> ProjectionInv(env, s)
  {
    hide Exec, CoreInv, Ordered, ProjectionInv, Legal, Journal;
    RunsKeepInv(env, run);
    DiskOf(env, s);
    LegalOf(env, s.disk, s.history);
  }

  lemma DiskOf(env: Env, s: State)
    requires CoreInv(env, s)
    ensures DiskInv(env, s.disk, s.history)
  {
    hide DiskInv, MemoryInv;
  }

  // ---------------------------------------------------------------- recovery

  /** As long as no stale snapshot is installed, no `Open` ever finds a gap. */
  lemma {:induction false} OrderlyRunsStayIntact(env: Env, run: seq<Action>, s: State)
    requires Reached(env, run, s) && s.orderly
    ensures s.intact && Covers(s.disk)
  {
    hide Take, Inv, Covers;
    if run != [] {
      var before := Exec(env, run[..|run| - 1]).value;
      FlagsFall(env, before, run[|run| - 1]);
      OrderlyRunsStayIntact(env, run[..|run| - 1], before);
    }
    assert s.intact;
    CoreOf(env, run, s);
    OrderedCovers(s);
  }

  lemma OrderedCovers(s: State)
    requires Ordered(s.disk, s.history, s.memory)
    ensures Covers(s.disk)
  {
  }

  /** Crash-safe recovery. Wherever a run is cut, the next `Open` succeeds, and catalog,
      idempotency table, watermark and next sequence are those of every mutation ever appended. */
  lemma RecoveryIsComplete(env: Env, run: seq<Action>, s: State, clock: Time)
    requires Reached(env, run, s) && s.orderly
    ensures Recover(s.disk, clock).Ok?
    ensures var v := Recover(s.disk, clock).value;
      && v.catalog == Fold(s.history)
      && v.catalog.durableSeq == |s.history| && v.nextSeq == |s.history| + 1
      && v.checkpoints == s.disk.checkpoints
      && v.snapshotSeq >= v.compactionSeq
  {
    hide Exec, CoreInv, Ordered, ProjectionInv, Legal, Fold, Recover;
    OrderlyRunsStayIntact(env, run, s);
    CoreOf(env, run, s);
    RecoveryComplete(s.disk, s.history, clock);
  }

  /** When snapshots do race with compactions: `Open` rebuilds the history exactly if the
      snapshot on disk reaches the base of the segment. */
  lemma RecoveryIffCovered(env: Env, run: seq<Action>, s: State, clock: Time)
    requires Reached(env, run, s) && s.intact
    ensures Recover(s.disk, clock).Ok? && Recover(s.disk, clock).value.catalog == Fold(s.history) <==> Covers(s.disk)
  {
    hide Exec, CoreInv, Ordered, ProjectionInv, Legal, Fold, Recover, Covers;
    CoreOf(env, run, s);
    RecoveryExact(s.disk, s.history, clock);
  }

  /** The live store is the fold of the history, less the mutation whose `Apply` is between
      append and materialization. */
  lemma LiveCatalog(env: Env, run: seq<Action>, s: State, mem: Memory)
    requires Reached(env, run, s) && s.intact && s.memory == Some(mem)
    ensures !mem.phase.Materializing? ==> mem.view.catalog == Fold(s.history)
    ensures mem.phase.Materializing? ==>
      s.history != [] && mem.phase.m == s.history[|s.history| - 1]
      && mem.view.catalog == Fold(s.history[..|s.history| - 1])
    ensures mem.view.nextSeq == |s.history| + 1
  {
    hide Exec, Ordered, ProjectionInv, Legal, Fold, DiskInv, QueueInv, WorkersInv, CapturesInv, Accepts;
    CoreOf(env, run, s);
  }

  // ---------------------------------------------------------------- acknowledgements

  /** The mutations whose `Apply` returned success, by sequence number. */
  ghost function Acknowledged(env: Env, run: seq<Action>): map<nat, Mutation>
    requires Exec(env, run).Some?
  {
    if run == [] then map[]
    else
      var before := Exec(env, run[..|run| - 1]).value;
      var acks := Acknowledged(env, run[..|run| - 1]);
      if run[|run| - 1].ApplyInMemory? then acks[|before.history| := before.memory.value.phase.m] else acks
  }

  ghost predicate InFlight(s: State) {
    s.memory.Some? && s.memory.value.phase.Materializing?
  }

  /** Sequence numbers that were appended but whose `Apply` was cut by a crash. */
  ghost function CutOff(env: Env, run: seq<Action>): set<nat>
    requires Exec(env, run).Some?
  {
    if run == [] then {}
    else
      var before := Exec(env, run[..|run| - 1]).value;
      var cut := CutOff(env, run[..|run| - 1]);
      if run[|run| - 1].Crash? && InFlight(before) then cut + {|before.history|} else cut
  }

  ghost predicate Balanced(h: History, inFlight: bool, acks: map<nat, Mutation>, cut: set<nat>) {
    && (forall n :: n in acks ==> 1 <= n <= |h| && acks[n] == h[n - 1])
    && (forall n :: n in cut ==> 1 <= n <= |h|)
    && (forall n :: n in acks ==> n !in cut)
    && (inFlight ==> |h| !in acks && |h| !in cut)
    && (forall n :: 1 <= n <= |h| ==> n in acks || n in cut || (n == |h| && inFlight))
  }

  ghost predicate Account(env: Env, run: seq<Action>, s: State)
    requires Exec(env, run).Some?
  {
    Balanced(s.history, InFlight(s), Acknowledged(env, run), CutOff(env, run))
  }

  /** What an action does to the history and to the mutation in flight. */
  lemma HistoryStep(env: Env, s: State, a: Action)
    requires Take(env, s, a).Some?
    ensures var t := Take(env, s, a).value;
      && (t.history == s.history || (a.AppendFrame? && !InFlight(s) && InFlight(t) && |t.history| == |s.history| + 1
                                     && s.history == t.history[..|s.history|]))
      && (a.ApplyInMemory? <==> InFlight(s) && !InFlight(t) && !a.Crash?)
      && (InFlight(t) && !InFlight(s) ==> |t.history| == |s.history| + 1)
      && (a.Crash? ==> !InFlight(t))
  {
    hide Recover, Project, Materialized, NormalizeMutation, Preflight, NextEvent, MayRegister, KnownKey, Covers,
      ManifestDurable, Prepared, Sink, CheckpointOf, CompactStep, HasFrames, ProjectorsReady, CompactedView;
    match a {
      case OpenStore(_) => case Close => case Crash => case BeginApply(_, _) => case WriteBody => case AppendFrame =>
      case ApplyInMemory(_) => case Capture => case Install(_) => case NoteSnapshot(_) =>
      case BeginCompact => case CompactNext => case RefuseCompact => case FinishCompact =>
      case Register(_) => case Fetch(_) => case Deliver(_) => case Retry(_) => case Save(_) => case Publish(_) =>
    }
  }

  lemma AppendBalances(h: History, m: Mutation, acks: map<nat, Mutation>, cut: set<nat>)
    requires Balanced(h, false, acks, cut)
    ensures Balanced(h + [m], true, acks, cut)
  {
  }

  lemma EndBalances(h: History, acks: map<nat, Mutation>, cut: set<nat>)
    requires Balanced(h, true, acks, cut) && h != []
    ensures Balanced(h, false, acks[|h| := h[|h| - 1]], cut)
    ensures Balanced(h, false, acks, cut + {|h|})
  {
  }

  /** The history is exactly the acknowledged mutations, those cut by a crash, at most one per
      crash, and at most one still in flight; an acknowledged mutation is never displaced. */
  lemma {:induction false} EveryMutationAccounted(env: Env, run: seq<Action>, s: State)
    requires Reached(env, run, s) && s.intact
    ensures Account(env, run, s)
  {
    hide Take, Inv, Legal, Balanced, InFlight;
    if run == [] {
      NothingYet();
    } else {
      var prefix, a := run[..|run| - 1], run[|run| - 1];
      var before := Exec(env, prefix).value;
      var acks, cut, h := Acknowledged(env, prefix), CutOff(env, prefix), before.history;
      FlagsFall(env, before, a);
      EveryMutationAccounted(env, prefix, before);
      HistoryStep(env, before, a);
      if InFlight(before) {
        FlightOf(env, prefix, before);
        EndBalances(h, acks, cut);
      } else if s.history != h {
        assert s.history == h + [s.history[|h|]];
        AppendBalances(h, s.history[|h|], acks, cut);
      }
    }
  }

  lemma NothingYet()
    ensures Balanced([], InFlight(START), map[], {})
  {
  }

  lemma FlightOf(env: Env, run: seq<Action>, s: State)
    requires Reached(env, run, s) && s.intact && InFlight(s)
    ensures s.history != [] && s.memory.value.phase.m == s.history[|s.history| - 1]
  {
    hide Exec;
    LiveCatalog(env, run, s, s.memory.value);
  }

  /** A run only ever extends the history, and cannot regain a flag it lost. */
  lemma {:induction false} HistoriesGrow(env: Env, run: seq<Action>, n: nat)
    requires n <= |run| && Exec(env, run).Some?
    ensures Exec(env, run[..n]).Some?
    ensures var s, t := Exec(env, run[..n]).value, Exec(env, run).value;
      s.history <= t.history && (t.orderly ==> s.orderly) && (t.intact ==> s.intact)
    decreases |run| - n
  {
    hide Take, InFlight;
    if n == |run| {
      assert run[..n] == run;
    } else {
      var m := |run| - 1;
      HistoriesGrow(env, run[..m], n);
      assert run[..m][..n] == run[..n];
      HistoryStep(env, Exec(env, run[..m]).value, run[m]);
      FlagsFall(env, Exec(env, run[..m]).value, run[m]);
    }
  }
}
