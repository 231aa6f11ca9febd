/** Three runs in which the store falls short. A snapshot that loses the race against a compaction
    makes the store unopenable, or, when the process dies before the manifest is written, opens
    without its history and accepts nothing any more; a crash between the segment rename and the
    manifest lets a new projector register although its first events are gone. `Theorems` and `Guarantees` say
    exactly when none of this can happen. */
module Witnesses {
  import opened Text
  import opened Types
  import opened Normalize
  import opened Catalogs
  import opened Disks
  import opened System
  import opened Operations
  import opened Theorems

  const SAMPLE := BLANK.(kind := CreateNode, at := 1, node := Node("n", "t", "", "", map[], false, NO_STAMP))

  const SAMPLE_NODE := SAMPLE.node.(stamp := Born(1, 1))
  const AFTER_SAMPLE := EMPTY_CATALOG.(durableSeq := 1, nodes := map["n" := SAMPLE_NODE])

  lemma SampleIsNormal(hash: Hash)
    ensures NormalizeMutation(SAMPLE, hash) == Ok(SAMPLE)
  {
    hide Trim, Lower;
    TrimFixes("");
    TrimFixes("n");
    TrimFixes("t");
    assert CleanKeys(map[]) == {};
    assert NormalizeMap(map[]) == map[];
    assert CleanTags([]) == {};
    assert TagsOf([]) == [];
  }

  lemma SampleApplies(clock: Time)
    ensures Preflight(EMPTY_CATALOG, SAMPLE).None? && !KnownKey(EMPTY_CATALOG, SAMPLE)
    ensures Step(EMPTY_CATALOG, 1, SAMPLE, clock) ==
      Ok(Outcome(AFTER_SAMPLE, ApplyResult(1, NodeEntity(SAMPLE_NODE), false)))
  {
  }

  lemma Then(env: Env, run: seq<Action>, s: State, a: Action, t: State)
    requires Reached(env, run, s) && Take(env, s, a) == Some(t)
    ensures Reached(env, run + [a], t)
    ensures a.ApplyInMemory? && InFlight(s) ==>
      Acknowledged(env, run + [a]) == Acknowledged(env, run)[|s.history| := s.memory.value.phase.m]
    ensures !a.ApplyInMemory? ==> Acknowledged(env, run + [a]) == Acknowledged(env, run)
  {
    hide Take;
    assert (run + [a])[..|run + [a]| - 1] == run;
  }

  function Live(d: Disk, h: History, v: View, phase: Phase): State {
    State(d, h, Some(Memory(v, phase, {EMPTY_CATALOG}, map[])), map[], {}, true, true, true)
  }

  const EMPTY_VIEW := View(EMPTY_CATALOG, 1, 0, 0, [], map[])

  /** Open a fresh store and capture its empty catalog for a snapshot. */
  lemma Captured(env: Env) returns (run: seq<Action>)
    ensures Reached(env, run, Live(FRESH_DISK, [], EMPTY_VIEW, Idle)) && Acknowledged(env, run) == map[]
  {
    run := [];
    assert Acknowledged(env, run) == map[];
    var ready := State(FRESH_DISK, [], Some(Memory(EMPTY_VIEW, Idle, {}, map[])), map[], {}, true, true, true);
    assert Recover(FRESH_DISK, 1) == Ok(EMPTY_VIEW);
    assert Take(env, START, OpenStore(1)) == Some(ready);
    Then(env, run, START, OpenStore(1), ready);
    run := run + [OpenStore(1)];
    var t := Live(FRESH_DISK, [], EMPTY_VIEW, Idle);
    assert {} + {EMPTY_CATALOG} == {EMPTY_CATALOG};
    assert Take(env, ready, Capture) == Some(t);
    Then(env, run, ready, Capture, t);
    run := run + [Capture];
  }

  const ONE_FRAME := FRESH_DISK.(segment := Segment(1, [Entry(1, SAMPLE)]))
  const SAMPLE_VIEW := View(AFTER_SAMPLE, 2, 0, 0, [EventOf(1, SAMPLE)], map[])

  /** Apply one mutation. */
  lemma Applied(env: Env) returns (run: seq<Action>)
    ensures Reached(env, run, Live(ONE_FRAME, [SAMPLE], SAMPLE_VIEW, Idle))
    ensures Acknowledged(env, run) == map[1 := SAMPLE]
  {
    hide Exec, Acknowledged, NormalizeMutation, Preflight, Step;
    run := Captured(env);
    SampleIsNormal(env.hash);
    SampleApplies(1);
    var s := Live(FRESH_DISK, [], EMPTY_VIEW, Idle);
    var begun := Live(FRESH_DISK, [], EMPTY_VIEW, Appending(SAMPLE));
    assert Prepared(SAMPLE, 1) == SAMPLE;
    assert Take(env, s, BeginApply(SAMPLE, 1)) == Some(begun);
    Then(env, run, s, BeginApply(SAMPLE, 1), begun);
    run := run + [BeginApply(SAMPLE, 1)];
    var appended := Live(ONE_FRAME, [SAMPLE], EMPTY_VIEW.(nextSeq := 2), Materializing(SAMPLE));
    assert WithEntry(FRESH_DISK, 1, SAMPLE) == ONE_FRAME by { assert [] + [Entry(1, SAMPLE)] == [Entry(1, SAMPLE)]; }
    assert [] + [SAMPLE] == [SAMPLE];
    assert Take(env, begun, AppendFrame) == Some(appended);
    Then(env, run, begun, AppendFrame, appended);
    run := run + [AppendFrame];
    var t := Live(ONE_FRAME, [SAMPLE], SAMPLE_VIEW, Idle);
    assert [] + [EventOf(1, SAMPLE)] == [EventOf(1, SAMPLE)];
    assert Materialized(EMPTY_VIEW.(nextSeq := 2), SAMPLE, 1) == Ok(SAMPLE_VIEW);
    assert Take(env, appended, ApplyInMemory(1)) == Some(t);
    Then(env, run, appended, ApplyInMemory(1), t);
    run := run + [ApplyInMemory(1)];
  }

  const SWAPPED := Disk(Some(AFTER_SAMPLE), Segment(2, []), map[1 := Segment(1, [Entry(1, SAMPLE)])], {}, map[], map[])

  /** Compact it up to and including the rename of the segment. */
  lemma Renamed(env: Env) returns (run: seq<Action>)
    ensures Reached(env, run, Live(SWAPPED, [SAMPLE], SAMPLE_VIEW, Compacting(4)))
    ensures Acknowledged(env, run) == map[1 := SAMPLE]
  {
    hide Exec, Acknowledged;
    run := Applied(env);
    var h := [SAMPLE];
    var d0 := ONE_FRAME;
    var s := Live(d0, h, SAMPLE_VIEW, Idle);
    var c0 := Live(d0, h, SAMPLE_VIEW, Compacting(0));
    assert Take(env, s, BeginCompact) == Some(c0);
    Then(env, run, s, BeginCompact, c0);
    run := run + [BeginCompact];
    var d1 := WithSnapshot(d0, AFTER_SAMPLE);
    var c1 := Live(d1, h, SAMPLE_VIEW, Compacting(1));
    assert Take(env, c0, CompactNext) == Some(c1);
    Then(env, run, c0, CompactNext, c1);
    run := run + [CompactNext];
    assert HasFrames(d1.segment, 1) by { assert d1.segment.entries[0].seqNo <= 1; }
    var c2 := Live(ArchiveTruncated(d1, 1), h, SAMPLE_VIEW, Compacting(2));
    assert Take(env, c1, CompactNext) == Some(c2);
    Then(env, run, c1, CompactNext, c2);
    run := run + [CompactNext];
    var c3 := Live(Archived(ArchiveTruncated(d1, 1), 1), h, SAMPLE_VIEW, Compacting(3));
    assert Take(env, c2, CompactNext) == Some(c3);
    Then(env, run, c2, CompactNext, c3);
    run := run + [CompactNext];
    assert After([Entry(1, SAMPLE)], 1) == [] by { assert [Entry(1, SAMPLE)][..0] == []; }
    var c4 := Live(SWAPPED, h, SAMPLE_VIEW, Compacting(4));
    assert Swapped(c3.disk, 1) == SWAPPED;
    assert Take(env, c3, CompactNext) == Some(c4);
    Then(env, run, c3, CompactNext, c4);
    run := run + [CompactNext];
  }

  /** A snapshot captured before a compaction and installed after it: the next `Open` refuses. */
  lemma StaleSnapshotLocksTheStore(env: Env, clock: Time) returns (run: seq<Action>, s: State)
    ensures Reached(env, run, s) && s.intact && !s.orderly && s.memory.None?
    ensures Recover(s.disk, clock) == Err(Behind(1))
  {
    hide Exec;
    run := Renamed(env);
    var h := [SAMPLE];
    var c4 := Live(SWAPPED, h, SAMPLE_VIEW, Compacting(4));
    var d5 := WithManifest(SWAPPED, 1);
    var c5 := Live(d5, h, SAMPLE_VIEW, Compacting(5));
    assert Take(env, c4, CompactNext) == Some(c5);
    Then(env, run, c4, CompactNext, c5);
    run := run + [CompactNext];
    var idle := Live(d5, h, CompactedView(SAMPLE_VIEW), Idle);
    assert Take(env, c5, FinishCompact) == Some(idle);
    Then(env, run, c5, FinishCompact, idle);
    run := run + [FinishCompact];
    var stale := idle.(disk := WithSnapshot(d5, EMPTY_CATALOG), orderly := false);
    assert Take(env, idle, Install(EMPTY_CATALOG)) == Some(stale);
    Then(env, run, idle, Install(EMPTY_CATALOG), stale);
    run := run + [Install(EMPTY_CATALOG)];
    s := stale.(memory := None, strays := {});
    Then(env, run, stale, Crash, s);
    run := run + [Crash];
    assert Latest({1}) == 1;
  }

  const EMPTIED := SWAPPED.(snapshot := Some(EMPTY_CATALOG))

  /** The same race, but the process dies before the manifest is written. `Open` succeeds, the
      acknowledged mutation is gone, and since the log expects number 2 and the catalog offers
      number 1, no mutation is ever accepted again. */
  lemma StaleSnapshotForgetsTheHistory(env: Env, clock: Time) returns (run: seq<Action>, s: State)
    ensures Reached(env, run, s) && s.intact && !s.orderly && s.memory.None?
    ensures s.history == [SAMPLE] && Acknowledged(env, run) == map[1 := SAMPLE]
    ensures Recover(s.disk, clock) == Ok(EMPTY_VIEW.(nextSeq := 2))
    ensures forall m, now :: ApplyOn(env.hash, s.disk, EMPTY_VIEW.(nextSeq := 2), m, now).result.Err?
  {
    hide Exec, Acknowledged;
    run := Renamed(env);
    var c4 := Live(SWAPPED, [SAMPLE], SAMPLE_VIEW, Compacting(4));
    var stale := c4.(disk := EMPTIED, orderly := false);
    assert Take(env, c4, Install(EMPTY_CATALOG)) == Some(stale);
    Then(env, run, c4, Install(EMPTY_CATALOG), stale);
    run := run + [Install(EMPTY_CATALOG)];
    s := stale.(memory := None, strays := {});
    Then(env, run, stale, Crash, s);
    run := run + [Crash];
    assert Recover(EMPTIED, clock) == Ok(EMPTY_VIEW.(nextSeq := 2));
    NothingIsAccepted(env, s.disk);
  }

  lemma NothingIsAccepted(env: Env, d: Disk)
    ensures forall m, now :: ApplyOn(env.hash, d, EMPTY_VIEW.(nextSeq := 2), m, now).result.Err?
  {
    hide NormalizeMutation, Preflight, Step, Prepared;
  }

  /** A crash right after the rename: the reopened store admits a projector without a
      checkpoint, and event 1 is no longer queued for it. */
  lemma LostManifestLosesEvents(env: Env) returns (run: seq<Action>, s: State)
    ensures Reached(env, run, s) && s.intact && s.orderly && !s.clean
    ensures s.memory.Some? && "p" in s.memory.value.workers
    ensures CheckpointOf(s.memory.value.view.checkpoints, "p") == 0
    ensures s.history == [SAMPLE] && NextEvent(s.memory.value.view.events, 0) == None
  {
    hide Exec;
    run := Renamed(env);
    var h := [SAMPLE];
    var c4 := Live(SWAPPED, h, SAMPLE_VIEW, Compacting(4));
    var down := c4.(memory := None, strays := {});
    Then(env, run, c4, Crash, down);
    run := run + [Crash];
    var v := View(AFTER_SAMPLE, 2, 1, 0, [], map[]);
    assert Recover(SWAPPED, 1) == Ok(v);
    var up := State(SWAPPED, h, Some(Memory(v, Idle, {}, map[])), map[], {}, true, false, true);
    assert Take(env, down, OpenStore(1)) == Some(up);
    Then(env, run, down, OpenStore(1), up);
    run := run + [OpenStore(1)];
    s := up.(memory := Some(Memory(v.(checkpoints := map["p" := 0]), Idle, {}, map["p" := Worker(Waiting, 0)])));
    assert Take(env, up, Register("p")) == Some(s);
    Then(env, run, up, Register("p"), s);
    run := run + [Register("p")];
  }
}
