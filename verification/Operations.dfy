/** What one undisturbed call of `Apply`, `Compact` or `WriteSnapshot` does: the disk states it
    goes through, the view it leaves and what it returns. The methods of `Stores` are proved
    against these functions, and these functions are runs of the state machine in `System`. */
module Operations {
  import opened Types
  import opened Normalize
  import opened Catalogs
  import opened Disks
  import opened Vectors
  import opened System
  import opened Safety

  datatype Done<+T> = Done(steps: seq<Disk>, view: View, result: Result<T>)

  function LastOf(d: Disk, steps: seq<Disk>): Disk {
    if steps == [] then d else steps[|steps| - 1]
  }

  /** The accepted part of `Apply`: body, frame, memory. */
  function Commit(d: Disk, v: View, p: Mutation, content: seq<Byte>, clock: Time): Done<ApplyResult> {
    var bodies := if p.kind == CreateChunk then [WithBody(d, p.chunk.id, content)] else [];
    var n := v.catalog.durableSeq + 1;
    if n != v.nextSeq then Done(bodies, v, Err(Refused))
    else
      var steps := bodies + [WithEntry(LastOf(d, bodies), n, p)];
      var w := v.(nextSeq := n + 1);
      match Step(v.catalog, n, p, clock)
      case Err(e) => Done(steps, w, Err(e))
      case Ok(o) => Done(steps, w.(catalog := o.catalog, events := v.events + [EventOf(n, p)]), Ok(o.result))
  }

  function ApplyOn(hash: Hash, d: Disk, v: View, m: Mutation, now: Time): Done<ApplyResult> {
    match NormalizeMutation(m, hash)
    case Err(e) => Done([], v, Err(e))
    case Ok(n) =>
      if KnownKey(v.catalog, n) then Done([], v, Ok(Remembered(v.catalog, n)))
      else
        match Preflight(v.catalog, Prepared(n, now))
        case Some(e) => Done([], v, Err(e))
        case None => Commit(d, v, Prepared(n, now), n.chunkContent, now)
  }

  function CompactOn(d: Disk, v: View): Done<nat> {
    var c, n := v.catalog, v.catalog.durableSeq;
    if n == 0 || !ProjectorsReady(v.checkpoints, n) then Done([], v, Err(Refused))
    else if n >= v.nextSeq || !HasFrames(d.segment, n) then Done([WithSnapshot(d, c)], v, Err(Refused))
    else Done(CompactionSteps(d, c), CompactedView(v).(nextSeq := NextSeq(Swapped(d, n).segment)), Ok(n))
  }

  function SnapshotOn(d: Disk, v: View): Done<nat> {
    var n := v.catalog.durableSeq;
    Done([WithSnapshot(d, v.catalog)], v.(snapshotSeq := Max(v.snapshotSeq, n)), Ok(n))
  }

  /** What registering `name` makes of the view, or nothing when it is refused. */
  function RegisterOn(v: View, registered: set<string>, name: string): Option<View> {
    if name in registered || !MayRegister(v, name) then None
    else Some(v.(checkpoints := v.checkpoints[name := CheckpointOf(v.checkpoints, name)]))
  }

  /** The checkpoint file first, then memory; never back. */
  function AdvanceOn(d: Disk, v: View, name: string, indexed: nat): Done<nat> {
    var known := CheckpointOf(v.checkpoints, name);
    if known >= indexed then Done([], v, Ok(known))
    else Done([WithCheckpoint(d, name, indexed)], v.(checkpoints := v.checkpoints[name := indexed]), Ok(indexed))
  }

  /** A worker's turn with an event in the queue: what becomes of the index, and the rest. */
  datatype Turn = Turn(event: Event, entries: Entries, done: Done<nat>)

  /** Fetch, project, advance. `refuses` says which events the index does not take. */
  ghost function TurnOn(
    mapper: Mapper, d: Disk, v: View, name: string, entries: Entries, refuses: Event -> bool): Option<Turn>
  {
    match NextEvent(v.events, CheckpointOf(v.checkpoints, name))
    case None => None
    case Some(e) =>
      match Project(mapper, entries, e)
      case Err(x) => Some(Turn(e, entries, Done([], v, Err(x))))
      case Ok(after) =>
        if refuses(e) then Some(Turn(e, entries, Done([], v, Err(Refused))))
        else Some(Turn(e, after, AdvanceOn(d, v, name, e.seqNo)))
  }

  /** A snapshot replaces the snapshot file by the catalog and nothing else, and the watermark of
      the snapshot never goes back. */
  lemma SnapshotLeaves(d: Disk, v: View)
    ensures var r := SnapshotOn(d, v);
      && LastOf(d, r.steps) == Disk(Some(v.catalog), d.segment, d.archives, d.manifests, d.bodies, d.checkpoints)
      && r.view == View(v.catalog, v.nextSeq, r.view.snapshotSeq, v.compactionSeq, v.events, v.checkpoints)
      && r.view.snapshotSeq >= v.snapshotSeq && r.view.snapshotSeq >= v.catalog.durableSeq
      && r.view.snapshotSeq in {v.snapshotSeq, v.catalog.durableSeq}
  {
  }

  /** A compaction happens exactly if there is a mutation, every known projector has indexed all of
      them, and the segment still holds a frame. Then snapshot and manifest say the watermark, the
      archive of that number is the old segment, the new one starts behind it with the later
      frames, and only later events stay queued. */
  lemma CompactLeaves(d: Disk, v: View)
    ensures var r, n := CompactOn(d, v), v.catalog.durableSeq;
      && (r.result.Ok? <==>
            && 0 < n < v.nextSeq && (forall name :: name in v.checkpoints ==> v.checkpoints[name] >= n)
            && exists i :: 0 <= i < |d.segment.entries| && d.segment.entries[i].seqNo <= n)
      && (r.result.Ok? ==>
            && r.result == Ok(n)
            && LastOf(d, r.steps) == Disk(
                 Some(v.catalog), Segment(n + 1, After(d.segment.entries, n)), d.archives[n := d.segment],
                 d.manifests + {n}, d.bodies, d.checkpoints)
            && r.view == View(v.catalog, r.view.nextSeq, n, n, EventsAfter(v.events, n), v.checkpoints)
            && (forall e :: e in r.view.events <==> e in v.events && e.seqNo > n)
            && (forall e :: e in After(d.segment.entries, n) <==> e in d.segment.entries && e.seqNo > n))
      && (r.result.Err? ==>
            r.result == Err(Refused) && r.view == v && (r.steps == [] || r.steps == [WithSnapshot(d, v.catalog)]))
  {
    var n := v.catalog.durableSeq;
    KeptEvents(v.events, n);
    KeptEntries(d.segment.entries, n);
    hide After, EventsAfter;
  }

  lemma {:induction false} KeptEvents(events: seq<Event>, n: nat)
    ensures forall e :: e in EventsAfter(events, n) <==> e in events && e.seqNo > n
  {
    if events != [] {
      KeptEvents(events[..|events| - 1], n);
      assert events == events[..|events| - 1] + [events[|events| - 1]];
    }
  }

  lemma {:induction false} KeptEntries(entries: seq<Entry>, n: nat)
    ensures forall e :: e in After(entries, n) <==> e in entries && e.seqNo > n
  {
    if entries != [] {
      KeptEntries(entries[..|entries| - 1], n);
      assert entries == entries[..|entries| - 1] + [entries[|entries| - 1]];
    }
  }

  // ---------------------------------------------------------------- they are runs of the machine

  /** The state after `run`, starting in `s`. */
  function Follow(env: Env, s: State, run: seq<Action>): Option<State>
    decreases |run|
  {
    if run == [] then Some(s)
    else
      match Take(env, s, run[0])
      case None => None
      case Some(t) => Follow(env, t, run[1..])
  }

  lemma {:induction false} FollowReaches(env: Env, before: seq<Action>, s: State, run: seq<Action>)
    requires Exec(env, before) == Some(s) && Follow(env, s, run).Some?
    ensures Exec(env, before + run) == Follow(env, s, run)
    decreases |run|
  {
    hide Take;
    if run == [] {
      assert before + run == before;
    } else {
      var next := before + [run[0]];
      assert next[..|next| - 1] == before;
      FollowReaches(env, next, Take(env, s, run[0]).value, run[1..]);
      assert next + run[1..] == before + run;
    }
  }

  function ApplyActions(m: Mutation, now: Time): seq<Action> {
    [BeginApply(m, now)] + (if m.kind == CreateChunk then [WriteBody] else []) + [AppendFrame, ApplyInMemory(now)]
  }

  /** An `Apply` either changes nothing, on disk or in memory, or is the run that begins it,
      writes the body if there is one, appends the frame and materializes it. */
  lemma ApplyIsARun(env: Env, s: State, mem: Memory, m: Mutation, now: Time)
    requires CoreInv(env, s) && s.memory == Some(mem) && mem.phase.Idle? && now > 0
    ensures var r := ApplyOn(env.hash, s.disk, mem.view, m, now);
      || (r.steps == [] && r.view == mem.view && (r.result.Ok? ==> r.result.value.idempotent))
      || (&& r.result.Ok? && !r.result.value.idempotent
          && |r.steps| > 0 && NormalizeMutation(m, env.hash).Ok?
          && Follow(env, s, ApplyActions(m, now)) ==
             Some(s.(disk := r.steps[|r.steps| - 1], memory := Some(mem.(view := r.view)),
                     history := s.history + [Prepared(NormalizeMutation(m, env.hash).value, now)])))
  {
    hide NormalizeMutation, Preflight, Step, Follow, Fold, Accepts, Legal, CoreInv, Prepared, EventOf;
    var r := ApplyOn(env.hash, s.disk, mem.view, m, now);
    if TakeBeginApply(env, s, mem, m, now).Some? {
      var n := NormalizeMutation(m, env.hash).value;
      var p := Prepared(n, now);
      NormalizeEstablishes(m, env.hash);
      PreparedKeeps(n, now);
      IdleReady(env, s, mem);
      PreparedAccepted(env.hash, mem.view.catalog, m, n, now);
      AcceptedSteps(mem.view.catalog, mem.view.catalog.durableSeq + 1, p, now);
      CommitIsARun(env, s, mem, m, now);
    } else if NormalizeMutation(m, env.hash).Ok? {
      PreparedKeeps(NormalizeMutation(m, env.hash).value, now);
    }
  }

  /** What an `Apply` logs is what it was given: of a mutation without surrounding blanks every
      field, but for the time of day where none was given, the body, which goes to a file of its
      own, and the length and hash recorded of it. */
  lemma LoggedAsGiven(m: Mutation, hash: Hash, now: Time)
    requires Clean(m) && NormalizeMutation(m, hash).Ok?
    ensures Prepared(NormalizeMutation(m, hash).value, now) ==
      m.(at := if m.at == 0 then now else m.at, chunkContent := [],
         chunk := if m.kind != CreateChunk then m.chunk
                  else m.chunk.(contentHash := hash(m.chunkContent), contentLength := |m.chunkContent|))
  {
    hide Clean, Cleaned, NormalizeChunk;
    CleanMutationUnchanged(m);
    CleanChunk(m);
  }

  lemma CleanChunk(m: Mutation)
    requires Cleaned(m) == m
    ensures NormalizeChunk(m.chunk) == m.chunk
  {
    hide NormalizeChunk;
    assert Cleaned(m).chunk == NormalizeChunk(m.chunk);
  }

  lemma PreparedKeeps(n: Mutation, now: Time)
    ensures Prepared(n, now).kind == n.kind && Prepared(n, now).idempotencyKey == n.idempotencyKey
    ensures Prepared(n, now).chunk == n.chunk
  {
  }

  lemma IdleReady(env: Env, s: State, mem: Memory)
    requires CoreInv(env, s) && s.memory == Some(mem) && mem.phase.Idle?
    ensures mem.view.nextSeq == mem.view.catalog.durableSeq + 1
  {
    hide Fold, DiskInv, QueueInv, WorkersInv, CapturesInv;
    LegalOf(env, s.disk, s.history);
    FoldSeq(s.history);
  }

  lemma CommitIsARun(env: Env, s: State, mem: Memory, m: Mutation, now: Time)
    requires s.memory == Some(mem) && TakeBeginApply(env, s, mem, m, now).Some? && NormalizeMutation(m, env.hash).Ok?
    requires mem.view.nextSeq == mem.view.catalog.durableSeq + 1 && mem.phase.Idle?
    requires NormalizeMutation(m, env.hash).value.kind == m.kind
    requires NormalizeMutation(m, env.hash).value.chunkContent == m.chunkContent
    requires var p := Prepared(NormalizeMutation(m, env.hash).value, now);
      var st := Step(mem.view.catalog, mem.view.nextSeq, p, now);
      st.Ok? && !st.value.result.idempotent
    ensures var p := Prepared(NormalizeMutation(m, env.hash).value, now);
      var r := Commit(s.disk, mem.view, p, m.chunkContent, now);
      Follow(env, s, ApplyActions(m, now)) ==
        Some(s.(disk := r.steps[|r.steps| - 1], memory := Some(mem.(view := r.view)), history := s.history + [p]))
  {
    hide NormalizeMutation, Preflight, Step, Follow, EventOf, Take, TakeBeginApply, Prepared;
    var p := Prepared(NormalizeMutation(m, env.hash).value, now);
    PreparedKeeps(NormalizeMutation(m, env.hash).value, now);
    var begun := With(s, mem.(phase := if m.kind == CreateChunk then WritingBody(p, m.chunkContent) else Appending(p)));
    var d := if m.kind == CreateChunk then WithBody(s.disk, p.chunk.id, m.chunkContent) else s.disk;
    var written := With(s, mem.(phase := Appending(p))).(disk := d);
    BeginThenWrite(env, s, mem, m, now);
    AppendThenApply(env, s, mem, d, p, now);
    var n := mem.view.nextSeq;
    var appended := With(s, mem.(phase := Materializing(p), view := mem.view.(nextSeq := n + 1)))
      .(disk := WithEntry(d, n, p), history := s.history + [p]);
    FollowTail(env, s, m, now, begun, written, appended, Take(env, appended, ApplyInMemory(now)).value);
    var r := Commit(s.disk, mem.view, p, m.chunkContent, now);
    assert r.steps[|r.steps| - 1] == WithEntry(d, n, p);
    assert mem.phase == Idle;
  }

  lemma BeginThenWrite(env: Env, s: State, mem: Memory, m: Mutation, now: Time)
    requires s.memory == Some(mem) && TakeBeginApply(env, s, mem, m, now).Some? && NormalizeMutation(m, env.hash).Ok?
    requires NormalizeMutation(m, env.hash).value.kind == m.kind
    ensures var p := Prepared(NormalizeMutation(m, env.hash).value, now);
      var phase := if m.kind == CreateChunk then WritingBody(p, m.chunkContent) else Appending(p);
      var begun := With(s, mem.(phase := phase));
      && Take(env, s, BeginApply(m, now)) == Some(begun)
      && (m.kind == CreateChunk ==>
            Take(env, begun, WriteBody)
            == Some(With(s, mem.(phase := Appending(p))).(disk := WithBody(s.disk, p.chunk.id, m.chunkContent))))
  {
    hide NormalizeMutation, Preflight;
  }

  lemma AppendThenApply(env: Env, s: State, mem: Memory, d: Disk, p: Mutation, now: Time)
    requires mem.view.nextSeq == mem.view.catalog.durableSeq + 1
    requires Step(mem.view.catalog, mem.view.nextSeq, p, now).Ok?
    requires !Step(mem.view.catalog, mem.view.nextSeq, p, now).value.result.idempotent
    ensures var n := mem.view.nextSeq;
      var written := With(s, mem.(phase := Appending(p))).(disk := d);
      var appended := With(s, mem.(phase := Materializing(p), view := mem.view.(nextSeq := n + 1)))
        .(disk := WithEntry(d, n, p), history := s.history + [p]);
      var o := Step(mem.view.catalog, n, p, now).value;
      && Take(env, written, AppendFrame) == Some(appended)
      && Take(env, appended, ApplyInMemory(now)) ==
           Some(With(appended, Memory(
             mem.view.(nextSeq := n + 1, catalog := o.catalog, events := mem.view.events + [EventOf(n, p)]),
             Idle, mem.captures, mem.workers)))
  {
    hide Step, EventOf;
  }

  lemma FollowTail(env: Env, s: State, m: Mutation, now: Time, begun: State, written: State, appended: State,
                   applied: State)
    requires Take(env, s, BeginApply(m, now)) == Some(begun)
    requires if m.kind == CreateChunk then Take(env, begun, WriteBody) == Some(written) else written == begun
    requires Take(env, written, AppendFrame) == Some(appended)
    requires Take(env, appended, ApplyInMemory(now)) == Some(applied)
    ensures Follow(env, s, ApplyActions(m, now)) == Some(applied)
  {
    hide Take;
    var tail := [AppendFrame, ApplyInMemory(now)];
    assert tail[1..] == [ApplyInMemory(now)] && tail[1..][1..] == [];
    assert Follow(env, appended, tail[1..]) == Some(applied);
    assert Follow(env, written, tail) == Some(applied);
    if m.kind == CreateChunk {
      assert ([WriteBody] + tail)[1..] == tail;
      assert Follow(env, begun, [WriteBody] + tail) == Some(applied);
      assert ApplyActions(m, now)[1..] == [WriteBody] + tail;
    } else {
      assert ApplyActions(m, now)[1..] == tail;
    }
  }

  // ---------------------------------------------------------------- compaction

  /** The state of a compaction after `done` of its durable steps. */
  function Halfway(s: State, mem: Memory, done: nat): State
    requires done <= 5
  {
    With(s, mem.(phase := Compacting(done)))
    .(disk := if done == 0 then s.disk else CompactionSteps(s.disk, mem.view.catalog)[done - 1])
  }

  lemma CompactionAdvances(env: Env, s: State, mem: Memory, done: nat)
    requires done < 5 && (done == 1 ==> HasFrames(s.disk.segment, mem.view.catalog.durableSeq))
    ensures Take(env, Halfway(s, mem, done), CompactNext) == Some(Halfway(s, mem, done + 1))
  {
    hide HasFrames, After;
  }

  function Steps(n: nat): seq<Action> {
    if n == 0 then [FinishCompact] else [CompactNext] + Steps(n - 1)
  }

  lemma {:induction false} CompactionFollows(env: Env, s: State, mem: Memory, done: nat, t: State)
    requires done <= 5 && (done <= 1 ==> HasFrames(s.disk.segment, mem.view.catalog.durableSeq))
    requires Take(env, Halfway(s, mem, 5), FinishCompact) == Some(t)
    ensures Follow(env, Halfway(s, mem, done), Steps(5 - done)) == Some(t)
    decreases 5 - done
  {
    hide Take, Halfway, HasFrames;
    var run := Steps(5 - done);
    if done == 5 {
      assert run[1..] == [];
    } else {
      CompactionAdvances(env, s, mem, done);
      CompactionFollows(env, s, mem, done + 1, t);
      assert run[1..] == Steps(5 - (done + 1));
    }
  }

  /** A `Compact` is refused with nothing changed but the snapshot, or it is the run through all
      five durable steps. */
  lemma CompactIsARun(env: Env, s: State, mem: Memory)
    requires CoreInv(env, s) && s.memory == Some(mem) && mem.phase.Idle?
    ensures var r := CompactOn(s.disk, mem.view);
      if r.result.Ok? then
        Follow(env, s, [BeginCompact] + Steps(5)) == Some(s.(disk := r.steps[4], memory := Some(mem.(view := r.view))))
      else if r.steps == [] then
        r.view == mem.view && Take(env, s, BeginCompact) == None
      else
        && Follow(env, s, [BeginCompact, CompactNext, RefuseCompact]) == Some(s.(disk := r.steps[0]))
        && r.view == mem.view && r.steps == [WithSnapshot(s.disk, mem.view.catalog)]
  {
    hide HasFrames, CoreInv, Follow, ProjectorsReady, After;
    var n := mem.view.catalog.durableSeq;
    IdleReady(env, s, mem);
    if n > 0 && ProjectorsReady(mem.view.checkpoints, n) {
      assert Take(env, s, BeginCompact) == Some(Halfway(s, mem, 0));
      if HasFrames(s.disk.segment, n) {
        CompactEnds(env, s, mem);
      } else {
        CompactRefused(env, s, mem);
      }
    }
  }

  lemma NothingRemains(env: Env, s: State, mem: Memory)
    requires CoreInv(env, s) && s.memory == Some(mem) && mem.phase.Idle?
    ensures NextSeq(Swapped(s.disk, mem.view.catalog.durableSeq).segment) == mem.view.catalog.durableSeq + 1
  {
    hide Legal, Fold, ArchivesKeep, BodiesMatch, QueueInv, WorkersInv, CapturesInv;
    LegalOf(env, s.disk, s.history);
    FoldSeq(s.history);
    AfterAll(s.disk.segment.entries, |s.history|);
  }

  lemma CompactEnds(env: Env, s: State, mem: Memory)
    requires CoreInv(env, s) && s.memory == Some(mem) && mem.phase.Idle?
    requires CompactOn(s.disk, mem.view).result.Ok?
    ensures var r := CompactOn(s.disk, mem.view);
      && |r.steps| == 5
      && Follow(env, s, [BeginCompact] + Steps(5)) == Some(s.(disk := r.steps[4], memory := Some(mem.(view := r.view))))
  {
    hide HasFrames, CoreInv, ProjectorsReady, After, Steps, Swapped;
    NothingRemains(env, s, mem);
    var r := CompactOn(s.disk, mem.view);
    var t := s.(disk := r.steps[4], memory := Some(mem.(view := r.view)));
    assert mem.phase == Idle;
    assert r.view == CompactedView(mem.view);
    assert Take(env, Halfway(s, mem, 5), FinishCompact) == Some(t);
    assert Take(env, s, BeginCompact) == Some(Halfway(s, mem, 0));
    CompactionFollows(env, s, mem, 0, t);
    assert ([BeginCompact] + Steps(5))[1..] == Steps(5);
  }

  lemma CompactRefused(env: Env, s: State, mem: Memory)
    requires s.memory == Some(mem) && mem.phase.Idle? && Take(env, s, BeginCompact) == Some(Halfway(s, mem, 0))
    requires !HasFrames(s.disk.segment, mem.view.catalog.durableSeq)
    ensures Follow(env, s, [BeginCompact, CompactNext, RefuseCompact])
         == Some(s.(disk := WithSnapshot(s.disk, mem.view.catalog)))
  {
    hide HasFrames;
    CompactionAdvances(env, s, mem, 0);
    var t := s.(disk := WithSnapshot(s.disk, mem.view.catalog));
    var half := Halfway(s, mem, 1);
    assert mem.phase == Idle;
    assert Take(env, half, RefuseCompact) == Some(t);
    var run := [BeginCompact, CompactNext, RefuseCompact];
    assert run[1..] == [CompactNext, RefuseCompact] && run[1..][1..] == [RefuseCompact] && run[1..][1..][1..] == [];
    assert Follow(env, half, [RefuseCompact]) == Some(t);
    assert Follow(env, Halfway(s, mem, 0), run[1..]) == Some(t);
  }

  // ---------------------------------------------------------------- snapshots and projectors

  /** A `WriteSnapshot` nothing interrupts captures, installs and notes, and stays orderly. */
  lemma SnapshotIsARun(env: Env, s: State, mem: Memory)
    requires CoreInv(env, s) && s.memory == Some(mem) && mem.phase.Idle?
    ensures var r, c := SnapshotOn(s.disk, mem.view), mem.view.catalog;
      Follow(env, s, [Capture, Install(c), NoteSnapshot(c)]) ==
        Some(s.(disk := LastOf(s.disk, r.steps),
                memory := Some(mem.(view := r.view, captures := mem.captures + {c}))))
  {
    hide CoreInv, Follow;
    var c := mem.view.catalog;
    CapturedReaches(env, s, mem);
    var noted := mem.(captures := mem.captures + {c});
    var captured := With(s, noted);
    var installed := captured.(disk := WithSnapshot(s.disk, c));
    var done := With(installed, noted.(view := SnapshotOn(s.disk, mem.view).view));
    assert Take(env, captured, Install(c)) == Some(installed);
    assert Take(env, installed, NoteSnapshot(c)) == Some(done);
    FollowThree(env, s, [Capture, Install(c), NoteSnapshot(c)], captured, installed, done);
  }

  lemma CapturedReaches(env: Env, s: State, mem: Memory)
    requires CoreInv(env, s) && s.memory == Some(mem) && mem.phase.Idle?
    ensures s.disk.segment.base <= mem.view.catalog.durableSeq + 1
  {
    hide Fold, QueueInv, WorkersInv, CapturesInv, ArchivesKeep, BodiesMatch, Legal;
    LegalOf(env, s.disk, s.history);
    FoldSeq(s.history);
  }

  lemma FollowThree(env: Env, s: State, run: seq<Action>, t: State, u: State, v: State)
    requires |run| == 3 && Take(env, s, run[0]) == Some(t) && Take(env, t, run[1]) == Some(u)
    requires Take(env, u, run[2]) == Some(v)
    ensures Follow(env, s, run) == Some(v)
  {
    hide Take;
    assert run[1..] == [run[1], run[2]] && run[1..][1..] == [run[2]] && run[1..][1..][1..] == [];
    assert Follow(env, u, run[1..][1..]) == Some(v);
    assert Follow(env, t, run[1..]) == Some(v);
  }

  /** `RegisterProjector` succeeds exactly when the machine may register, with the same memory. */
  lemma RegisterIsAStep(env: Env, s: State, mem: Memory, name: string)
    requires s.memory == Some(mem) && mem.phase.Idle?
    ensures var r := RegisterOn(mem.view, mem.workers.Keys, name);
      Take(env, s, Register(name)) ==
        match r
        case None => None
        case Some(v) =>
          Some(With(s, mem.(view := v, workers := mem.workers[name := Worker(Waiting, v.checkpoints[name])])))
  {
  }

  /** A turn of a waiting worker: nothing to fetch, or a run that ends with the event refused and
      only noted as handed out, or the run through index, checkpoint file and memory. */
  lemma TurnIsARun(env: Env, s: State, mem: Memory, name: string, refuses: Event -> bool)
    requires s.memory == Some(mem) && mem.phase.Idle?
    requires name in mem.workers && mem.workers[name].stage.Waiting?
    ensures match TurnOn(env.mapper, s.disk, mem.view, name, Sink(s, name), refuses)
      case None => Take(env, s, Fetch(name)) == None
      case Some(t) =>
        var workers := mem.workers[name := Worker(Waiting, t.event.seqNo)];
        if t.done.result.Err? then
          && t.entries == Sink(s, name) && t.done.steps == [] && t.done.view == mem.view
          && var last := if Project(env.mapper, Sink(s, name), t.event).Err? then Deliver(name) else Retry(name);
             Follow(env, s, [Fetch(name), last]) == Some(With(s, mem.(workers := workers)))
        else
          Follow(env, s, [Fetch(name), Deliver(name), Save(name), Publish(name)]) ==
            Some(s.(disk := LastOf(s.disk, t.done.steps), sinks := s.sinks[name := t.entries],
                    memory := Some(mem.(view := t.done.view, workers := workers))))
  {
    hide Project, NextEvent, Follow;
    var turn := TurnOn(env.mapper, s.disk, mem.view, name, Sink(s, name), refuses);
    if turn.Some? {
      var e := turn.value.event;
      NextIsLater(mem.view.events, CheckpointOf(mem.view.checkpoints, name));
      var fetched := With(s, mem.(workers := mem.workers[name := Worker(Fetched(e), mem.workers[name].last)]));
      assert Take(env, s, Fetch(name)) == Some(fetched);
      if turn.value.done.result.Err? {
        GivenUp(env, s, mem, name, e, fetched);
      } else {
        Advanced(env, s, mem, name, e, mem.workers[name].last);
      }
    }
  }

  lemma GivenUp(env: Env, s: State, mem: Memory, name: string, e: Event, fetched: State)
    requires s.memory == Some(mem) && name in mem.workers && Take(env, s, Fetch(name)) == Some(fetched)
    requires fetched == With(s, mem.(workers := mem.workers[name := Worker(Fetched(e), mem.workers[name].last)]))
    ensures Project(env.mapper, Sink(s, name), e).Err? ==>
      Follow(env, s, [Fetch(name), Deliver(name)]) ==
        Some(With(s, mem.(workers := mem.workers[name := Worker(Waiting, e.seqNo)])))
    ensures Follow(env, s, [Fetch(name), Retry(name)]) ==
        Some(With(s, mem.(workers := mem.workers[name := Worker(Waiting, e.seqNo)])))
  {
    hide Project, Follow;
    var t := With(s, mem.(workers := mem.workers[name := Worker(Waiting, e.seqNo)]));
    assert mem.workers[name := Worker(Fetched(e), mem.workers[name].last)][name := Worker(Waiting, e.seqNo)]
        == mem.workers[name := Worker(Waiting, e.seqNo)];
    assert Sink(fetched, name) == Sink(s, name);
    FollowTwo(env, s, [Fetch(name), Retry(name)], fetched, t);
    if Project(env.mapper, Sink(s, name), e).Err? { FollowTwo(env, s, [Fetch(name), Deliver(name)], fetched, t); }
  }

  lemma FollowTwo(env: Env, s: State, run: seq<Action>, t: State, u: State)
    requires |run| == 2 && Take(env, s, run[0]) == Some(t) && Take(env, t, run[1]) == Some(u)
    ensures Follow(env, s, run) == Some(u)
  {
    hide Take;
    assert run[1..] == [run[1]] && run[1..][1..] == [];
    assert Follow(env, t, run[1..]) == Some(u);
  }

  /** The worker `name` in stage `stage`, having been handed `n` last. */
  function Staged(mem: Memory, name: string, stage: Stage, n: nat): Memory {
    mem.(workers := mem.workers[name := Worker(stage, n)])
  }

  lemma Delivers(env: Env, s: State, mem: Memory, name: string, e: Event, last: nat)
    requires s.memory == Some(mem) && Project(env.mapper, Sink(s, name), e).Ok?
    ensures Take(env, With(s, Staged(mem, name, Fetched(e), last)), Deliver(name)) ==
      Some(With(s, Staged(mem, name, Projected(e.seqNo), e.seqNo))
           .(sinks := s.sinks[name := Project(env.mapper, Sink(s, name), e).value]))
  {
    hide Project;
    var t := With(s, Staged(mem, name, Fetched(e), last));
    assert Sink(t, name) == Sink(s, name);
    assert t.memory.value.workers[name := Worker(Projected(e.seqNo), e.seqNo)]
        == Staged(mem, name, Projected(e.seqNo), e.seqNo).workers;
  }

  lemma Saves(env: Env, s: State, mem: Memory, name: string, n: nat)
    requires CheckpointOf(mem.view.checkpoints, name) < n
    ensures Take(env, With(s, Staged(mem, name, Projected(n), n)), Save(name)) ==
      Some(With(s, Staged(mem, name, Saved(n), n)).(disk := WithCheckpoint(s.disk, name, n)))
  {
    var t := Staged(mem, name, Projected(n), n);
    assert t.workers[name := Worker(Saved(n), n)] == Staged(mem, name, Saved(n), n).workers;
  }

  lemma Publishes(env: Env, s: State, mem: Memory, name: string, n: nat)
    requires CheckpointOf(mem.view.checkpoints, name) < n && mem.phase.Idle?
    ensures var view := mem.view.(checkpoints := mem.view.checkpoints[name := n]);
      Take(env, With(s, Staged(mem, name, Saved(n), n)), Publish(name)) ==
        Some(With(s, Staged(mem, name, Waiting, n).(view := view)))
  {
    var t := Staged(mem, name, Saved(n), n);
    assert t.workers[name := Worker(Waiting, n)] == Staged(mem, name, Waiting, n).workers;
  }

  lemma Advanced(env: Env, s: State, mem: Memory, name: string, e: Event, last: nat)
    requires s.memory == Some(mem) && mem.phase.Idle?
    requires CheckpointOf(mem.view.checkpoints, name) < e.seqNo
    requires Take(env, s, Fetch(name)) == Some(With(s, Staged(mem, name, Fetched(e), last)))
    requires Project(env.mapper, Sink(s, name), e).Ok?
    ensures var r, after := AdvanceOn(s.disk, mem.view, name, e.seqNo), Project(env.mapper, Sink(s, name), e).value;
      Follow(env, s, [Fetch(name), Deliver(name), Save(name), Publish(name)]) ==
        Some(s.(disk := LastOf(s.disk, r.steps), sinks := s.sinks[name := after],
                memory := Some(Staged(mem, name, Waiting, e.seqNo).(view := r.view))))
  {
    hide Project, Follow, Take, Staged;
    var r, after, n := AdvanceOn(s.disk, mem.view, name, e.seqNo), Project(env.mapper, Sink(s, name), e).value, e.seqNo;
    var sunk := s.(sinks := s.sinks[name := after]);
    var saved := sunk.(disk := WithCheckpoint(s.disk, name, n));
    Delivers(env, s, mem, name, e, last);
    Saves(env, sunk, mem, name, n);
    Publishes(env, saved, mem, name, n);
    var run := [Fetch(name), Deliver(name), Save(name), Publish(name)];
    assert run[1..] == [Deliver(name), Save(name), Publish(name)];
    FollowThree(env, With(s, Staged(mem, name, Fetched(e), last)), run[1..],
      With(sunk, Staged(mem, name, Projected(n), n)), With(saved, Staged(mem, name, Saved(n), n)),
      With(saved, Staged(mem, name, Waiting, n).(view := r.view)));
    FollowFirst(env, s, run, With(s, Staged(mem, name, Fetched(e), last)));
  }

  lemma FollowFirst(env: Env, s: State, run: seq<Action>, t: State)
    requires run != [] && Take(env, s, run[0]) == Some(t)
    ensures Follow(env, s, run) == Follow(env, t, run[1..])
  {
    hide Take;
  }
}
