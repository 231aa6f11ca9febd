/** The whole store as a state machine of small steps. `Apply` and `Compact` hold the lock but
    change the disk one step at a time; `WriteSnapshot` captures under the lock and installs
    later; projector workers run in between; and the process may die between any two steps. */
module System {
  import opened Types
  import opened Normalize
  import opened Catalogs
  import opened Disks
  import opened Recovery
  import opened Vectors

  /** The content hash and the mapper of the vector projectors. */
  datatype Env = Env(hash: Hash, mapper: Mapper)

  /** Where the holder of the lock stands. */
  datatype Phase =
    | Idle
    | WritingBody(m: Mutation, content: seq<Byte>)
    | Appending(m: Mutation)
    | Materializing(m: Mutation)
    | Compacting(done: nat)

  /** Where a worker stands: waiting, holding an event, past `Project`, past the checkpoint file. */
  datatype Stage = Waiting | Fetched(event: Event) | Projected(seqNo: nat) | Saved(seqNo: nat)

  /** `last` is the last sequence handed to the projector since it was registered. */
  datatype Worker = Worker(stage: Stage, last: nat)

  datatype Memory = Memory(view: View, phase: Phase, captures: set<Catalog>, workers: map<string, Worker>)

  /** `history` is every mutation ever appended, `sinks` the durable vector index each projector
      feeds, `strays` the snapshots captured by stores this process has closed and not installed
      yet. The flags record what happened on the way: `intact`, every `Open` found a disk
      whose snapshot covers the segment; `clean`, every `Open` found the manifest of the last
      compaction; `orderly`, no snapshot was installed during a compaction or below the base. */
  datatype State = State(
    disk: Disk, history: History, memory: Option<Memory>, sinks: map<string, Entries>,
    strays: set<Catalog>, intact: bool, clean: bool, orderly: bool)

  datatype Action =
    | OpenStore(clock: Time) | Close | Crash
    | BeginApply(m: Mutation, now: Time) | WriteBody | AppendFrame | ApplyInMemory(clock: Time)
    | Capture | Install(c: Catalog) | NoteSnapshot(c: Catalog)
    | BeginCompact | CompactNext | RefuseCompact | FinishCompact
    | Register(name: string) | Fetch(name: string) | Deliver(name: string) | Retry(name: string)
    | Save(name: string) | Publish(name: string)

  const START := State(FRESH_DISK, [], None, map[], {}, true, true, true)

  function Sink(s: State, name: string): Entries {
    if name in s.sinks then s.sinks[name] else map[]
  }

  predicate ManifestDurable(d: Disk) {
    Latest(d.manifests) + 1 == d.segment.base
  }

  // ---------------------------------------------------------------- steps

  function With(s: State, m: Memory): State {
    s.(memory := Some(m))
  }

  function TakeOpen(s: State, clock: Time): Option<State> {
    if s.memory.Some? then None
    else
      match Recover(s.disk, clock)
      case Err(_) => None
      case Ok(v) =>
        Some(With(s, Memory(v, Idle, {}, map[])).(intact := s.intact && Covers(s.disk),
                                                  clean := s.clean && ManifestDurable(s.disk)))
  }

  /** `Close` takes the lock and waits for the workers, but not for a `WriteSnapshot` that has
      captured and not installed yet. */
  function TakeClose(s: State, mem: Memory): Option<State> {
    if !mem.phase.Idle? then None else Some(s.(memory := None, strays := s.strays + mem.captures))
  }

  /** The rename of a captured snapshot needs no lock, and no open store. */
  function TakeInstall(s: State, c: Catalog): Option<State> {
    if c !in s.strays && (s.memory.None? || c !in s.memory.value.captures) then None
    else
      Some(s.(disk := WithSnapshot(s.disk, c),
              orderly := && s.orderly && s.disk.segment.base <= c.durableSeq + 1
                         && (s.memory.Some? ==> !s.memory.value.phase.Compacting?)))
  }

  /** The mutation `Apply` appends: normalized, stamped, its body on the side. */
  function Prepared(n: Mutation, now: Time): Mutation {
    WithoutContent(n.(at := if n.at == 0 then now else n.at))
  }

  function TakeBeginApply(env: Env, s: State, mem: Memory, m: Mutation, now: Time): Option<State> {
    match NormalizeMutation(m, env.hash)
    case Err(_) => None
    case Ok(n) =>
      var p := Prepared(n, now);
      if !mem.phase.Idle? || now == 0 || KnownKey(mem.view.catalog, p) || Preflight(mem.view.catalog, p).Some? then None
      else Some(With(s, mem.(phase := if p.kind == CreateChunk then WritingBody(p, m.chunkContent) else Appending(p))))
  }

  function TakeWriteBody(s: State, mem: Memory): Option<State> {
    match mem.phase
    case WritingBody(m, content) =>
      Some(With(s, mem.(phase := Appending(m))).(disk := WithBody(s.disk, m.chunk.id, content)))
    case _ => None
  }

  /** `Log.Append` refuses any sequence but the next; then `Apply` returns with nothing changed. */
  function TakeAppend(s: State, mem: Memory): Option<State> {
    match mem.phase
    case Appending(m) =>
      var n := mem.view.catalog.durableSeq + 1;
      if n != mem.view.nextSeq then Some(With(s, mem.(phase := Idle)))
      else
        Some(With(s, mem.(phase := Materializing(m), view := mem.view.(nextSeq := n + 1)))
             .(disk := WithEntry(s.disk, n, m), history := s.history + [m]))
    case _ => None
  }

  function Materialized(v: View, m: Mutation, clock: Time): Result<View> {
    match Step(v.catalog, v.catalog.durableSeq + 1, m, clock)
    case Err(e) => Err(e)
    case Ok(o) =>
      Ok(v.(catalog := o.catalog,
            events := if o.result.idempotent then v.events else v.events + [EventOf(v.catalog.durableSeq + 1, m)]))
  }

  function TakeApply(s: State, mem: Memory, clock: Time): Option<State> {
    match mem.phase
    case Materializing(m) =>
      (match Materialized(mem.view, m, clock)
       case Err(_) => None
       case Ok(v) => Some(With(s, mem.(phase := Idle, view := v))))
    case _ => None
  }

  function TakeSnapshot(s: State, mem: Memory, a: Action): Option<State> {
    match a
    case Capture =>
      if !mem.phase.Idle? then None else Some(With(s, mem.(captures := mem.captures + {mem.view.catalog})))
    case NoteSnapshot(c) =>
      if c !in mem.captures || !mem.phase.Idle? then None
      else Some(With(s, mem.(view := mem.view.(snapshotSeq := Max(mem.view.snapshotSeq, c.durableSeq)))))
    case _ => None
  }

  function TakeCompact(s: State, mem: Memory, a: Action): Option<State> {
    var n := mem.view.catalog.durableSeq;
    match a
    case BeginCompact =>
      if !mem.phase.Idle? || n == 0 || !ProjectorsReady(mem.view.checkpoints, n) then None
      else Some(With(s, mem.(phase := Compacting(0))))
    case CompactNext =>
      if !mem.phase.Compacting? || mem.phase.done >= 5 then None
      else if mem.phase.done == 1 && !HasFrames(s.disk.segment, n) then None
      else Some(With(s, mem.(phase := Compacting(mem.phase.done + 1)))
                .(disk := CompactStep(s.disk, mem.view.catalog, mem.phase.done)))
    case RefuseCompact =>
      if mem.phase == Compacting(1) && !HasFrames(s.disk.segment, n) then Some(With(s, mem.(phase := Idle))) else None
    case FinishCompact =>
      if mem.phase == Compacting(5) then Some(With(s, mem.(phase := Idle, view := CompactedView(mem.view)))) else None
    case _ => None
  }

  function TakeRegister(s: State, mem: Memory, name: string): Option<State> {
    var v := mem.view;
    if !mem.phase.Idle? || name in mem.workers || !MayRegister(v, name) then None
    else
      var known := CheckpointOf(v.checkpoints, name);
      Some(With(s, mem.(view := v.(checkpoints := v.checkpoints[name := known]),
                        workers := mem.workers[name := Worker(Waiting, known)])))
  }

  function TakeFetch(s: State, mem: Memory, name: string): Option<State> {
    if !mem.phase.Idle? || name !in mem.workers || !mem.workers[name].stage.Waiting? then None
    else
      match NextEvent(mem.view.events, CheckpointOf(mem.view.checkpoints, name))
      case None => None
      case Some(e) => Some(With(s, mem.(workers := mem.workers[name := mem.workers[name].(stage := Fetched(e))])))
  }

  /** `Project` succeeds and the index has changed, or it fails and the event is fetched again. */
  function TakeDeliver(env: Env, s: State, mem: Memory, name: string): Option<State> {
    if name !in mem.workers || !mem.workers[name].stage.Fetched? then None
    else
      var e := mem.workers[name].stage.event;
      match Project(env.mapper, Sink(s, name), e)
      case Err(_) => Some(With(s, mem.(workers := mem.workers[name := Worker(Waiting, e.seqNo)])))
      case Ok(entries) =>
        Some(With(s, mem.(workers := mem.workers[name := Worker(Projected(e.seqNo), e.seqNo)]))
             .(sinks := s.sinks[name := entries]))
  }

  /** `advanceProjectorCheckpoint`, split at the write of the checkpoint file. `Retry` is a turn
      given up: the index refused what it was handed, or the checkpoint could not be written. */
  function TakeCheckpoint(s: State, mem: Memory, name: string, a: Action): Option<State> {
    if name !in mem.workers then None
    else
      var w := mem.workers[name];
      var known := CheckpointOf(mem.view.checkpoints, name);
      match a
      case Retry(_) =>
        if w.stage.Fetched? then
          Some(With(s, mem.(workers := mem.workers[name := Worker(Waiting, w.stage.event.seqNo)])))
        else if w.stage.Projected? then Some(With(s, mem.(workers := mem.workers[name := w.(stage := Waiting)])))
        else None
      case Save(_) =>
        if !w.stage.Projected? then None
        else if known >= w.stage.seqNo then Some(With(s, mem.(workers := mem.workers[name := w.(stage := Waiting)])))
        else Some(With(s, mem.(workers := mem.workers[name := w.(stage := Saved(w.stage.seqNo))]))
                  .(disk := WithCheckpoint(s.disk, name, w.stage.seqNo)))
      case Publish(_) =>
        if !w.stage.Saved? || !mem.phase.Idle? then None
        else Some(With(s, mem.(workers := mem.workers[name := w.(stage := Waiting)],
                               view := mem.view.(checkpoints :=
                                 mem.view.checkpoints[name := Max(known, w.stage.seqNo)]))))
      case _ => None
  }

  function Take(env: Env, s: State, a: Action): Option<State> {
    match a
    case OpenStore(clock) => TakeOpen(s, clock)
    case Install(c) => TakeInstall(s, c)
    case _ =>
      if s.memory.None? then None
      else
        var mem := s.memory.value;
        match a
        case OpenStore(_) => None
        case Install(_) => None
        case Close => TakeClose(s, mem)
        case Crash => Some(s.(memory := None, strays := {}))
        case BeginApply(m, now) => TakeBeginApply(env, s, mem, m, now)
        case WriteBody => TakeWriteBody(s, mem)
        case AppendFrame => TakeAppend(s, mem)
        case ApplyInMemory(clock) => TakeApply(s, mem, clock)
        case Capture => TakeSnapshot(s, mem, a)
        case NoteSnapshot(_) => TakeSnapshot(s, mem, a)
        case BeginCompact => TakeCompact(s, mem, a)
        case CompactNext => TakeCompact(s, mem, a)
        case RefuseCompact => TakeCompact(s, mem, a)
        case FinishCompact => TakeCompact(s, mem, a)
        case Register(name) => TakeRegister(s, mem, name)
        case Fetch(name) => TakeFetch(s, mem, name)
        case Deliver(name) => TakeDeliver(env, s, mem, name)
        case Retry(name) => TakeCheckpoint(s, mem, name, a)
        case Save(name) => TakeCheckpoint(s, mem, name, a)
        case Publish(name) => TakeCheckpoint(s, mem, name, a)
  }

  /** The state a run of actions ends in, or nothing when one of them is not enabled. */
  function Exec(env: Env, run: seq<Action>): Option<State> {
    if run == [] then Some(START)
    else
      match Exec(env, run[..|run| - 1])
      case None => None
      case Some(s) => Take(env, s, run[|run| - 1])
  }

  // ---------------------------------------------------------------- the invariant

  /** `archive` still holds entry `i` of the history. */
  ghost predicate Archive(archive: Segment, h: History, i: nat)
    requires 1 <= i <= |h|
  {
    && archive.base <= i < archive.base + |archive.entries|
    && archive.entries[i - archive.base] == Entry(i, h[i - 1])
  }

  /** Entry `i` is in an archive whose compaction has swapped the segment. */
  ghost predicate InArchive(d: Disk, h: History, i: nat)
    requires 1 <= i <= |h|
  {
    exists n :: n in d.archives && n < d.segment.base && Archive(d.archives[n], h, i)
  }

  /** What left the active segment is in an archive. */
  ghost predicate ArchivesKeep(d: Disk, h: History) {
    forall i | 1 <= i <= |h| && i < d.segment.base :: InArchive(d, h, i)
  }

  predicate BodyMatches(hash: Hash, bodies: map<string, seq<Byte>>, k: Chunk) {
    k.id in bodies && |bodies[k.id]| == k.contentLength && hash(bodies[k.id]) == k.contentHash
  }

  /** Every catalogued chunk has its body. */
  ghost predicate BodiesMatch(hash: Hash, bodies: map<string, seq<Byte>>, c: Catalog) {
    forall id :: id in c.chunks ==> c.chunks[id].id == id && BodyMatches(hash, bodies, c.chunks[id])
  }

  ghost predicate CheckpointsBounded(d: Disk, h: History) {
    forall name :: name in d.checkpoints ==> d.segment.base - 1 <= d.checkpoints[name] <= |h|
  }

  /** The lock holder's phase against the history and the disk. */
  ghost predicate PhaseInv(env: Env, d: Disk, h: History, v: View, phase: Phase)
    requires Legal(h)
  {
    && v.nextSeq == |h| + 1
    && (!phase.Materializing? ==> v.catalog == Fold(h))
    && match phase
       case Idle => true
       case WritingBody(m, content) =>
         && Accepts(Fold(h), m) && m.kind == CreateChunk
         && m.chunk.contentLength == |content| && m.chunk.contentHash == env.hash(content)
       case Appending(m) =>
         && Accepts(Fold(h), m)
         && (m.kind == CreateChunk ==> BodyMatches(env.hash, d.bodies, m.chunk))
       case Materializing(m) => h != [] && m == h[|h| - 1] && v.catalog == Fold(h[..|h| - 1])
       case Compacting(done) =>
         && done <= 5 && |h| > 0 && ProjectorsReady(v.checkpoints, |h|)
         && (2 <= done <= 3 ==> d.segment.base <= |h|)
         && (done == 3 ==> |h| in d.archives && d.archives[|h|] == d.segment)
         && (done >= 4 ==> d.segment.base == |h| + 1)
         && (done == 5 ==> |h| in d.manifests)
  }

  /** The new base is installed but the queue has not been trimmed yet. */
  predicate SwapDone(phase: Phase) {
    phase.Compacting? && phase.done >= 4
  }

  /** The queue is the end of the history, and it starts at the base of the segment. */
  ghost predicate QueueInv(d: Disk, h: History, v: View, phase: Phase) {
    var n := v.catalog.durableSeq;
    && |v.events| <= n <= |h|
    && v.events == Events(h, n - |v.events|, n)
    && n - |v.events| <= d.segment.base - 1
    && (!SwapDone(phase) ==> n - |v.events| == d.segment.base - 1)
    && v.compactionSeq <= d.segment.base - 1
  }

  /** A worker between fetch and publish holds an event past its checkpoint and past the base. */
  ghost predicate WorkerInv(d: Disk, h: History, v: View, name: string, w: Worker) {
    && name in v.checkpoints
    && match w.stage
       case Waiting => CheckpointOf(d.checkpoints, name) == v.checkpoints[name]
       case Fetched(e) =>
         && v.checkpoints[name] < e.seqNo <= |h| && d.segment.base <= e.seqNo
         && e == EventOf(e.seqNo, h[e.seqNo - 1])
         && CheckpointOf(d.checkpoints, name) == v.checkpoints[name]
       case Projected(n) =>
         && v.checkpoints[name] < n <= |h| && d.segment.base <= n
         && CheckpointOf(d.checkpoints, name) == v.checkpoints[name]
       case Saved(n) =>
         && v.checkpoints[name] < n <= |h| && d.segment.base <= n
         && name in d.checkpoints && d.checkpoints[name] == n
  }

  ghost predicate WorkersInv(d: Disk, h: History, mem: Memory) {
    && (forall name :: name in d.checkpoints ==> name in mem.view.checkpoints)
    && (forall name :: name in mem.view.checkpoints ==> mem.view.checkpoints[name] <= |h|)
    && (forall name :: name in mem.workers ==> WorkerInv(d, h, mem.view, name, mem.workers[name]))
    && (forall name :: name in mem.view.checkpoints && name !in mem.workers ==>
          CheckpointOf(d.checkpoints, name) == mem.view.checkpoints[name])
  }

  ghost predicate CapturesInv(h: History, captures: set<Catalog>) {
    forall c :: c in captures ==> c.durableSeq <= |h| && c == Fold(h[..c.durableSeq])
  }

  ghost predicate MemoryInv(env: Env, d: Disk, h: History, mem: Memory)
    requires Legal(h)
  {
    && PhaseInv(env, d, h, mem.view, mem.phase)
    && QueueInv(d, h, mem.view, mem.phase)
    && WorkersInv(d, h, mem)
    && CapturesInv(h, mem.captures)
  }

  /** The files alone. */
  ghost predicate DiskInv(env: Env, d: Disk, h: History) {
    && Journal(d, h)
    && ArchivesKeep(d, h)
    && BodiesMatch(env.hash, d.bodies, Fold(h))
    && CheckpointsBounded(d, h)
  }

  /** Nothing between the snapshot and the segment is missing, not even during a compaction. */
  ghost predicate Ordered(d: Disk, h: History, memory: Option<Memory>) {
    && Covers(d)
    && (memory.Some? && memory.value.phase.Compacting? && memory.value.phase.done >= 1 ==> SnapshotSeq(d) == |h|)
  }

  /** The index content after projecting events `1 .. m`. */
  ghost function FoldEntries(mapper: Mapper, h: History, m: nat): Entries
    requires m <= |h|
  {
    if m == 0 then map[]
    else
      var before := FoldEntries(mapper, h, m - 1);
      match Project(mapper, before, EventOf(m, h[m - 1]))
      case Ok(after) => after
      case Err(_) => before
  }

  /** The sink holds the effect of events `1 .. k` or `1 .. k + 1`. */
  ghost predicate SinkAt(mapper: Mapper, h: History, sink: Entries, k: nat) {
    || (k <= |h| && sink == FoldEntries(mapper, h, k))
    || (k + 1 <= |h| && sink == FoldEntries(mapper, h, k + 1))
  }

  ghost predicate SinksInv(env: Env, s: State) {
    forall name :: SinkAt(env.mapper, s.history, Sink(s, name), CheckpointOf(s.disk.checkpoints, name))
  }

  /** No gap: every registered projector's next event is the one after its checkpoint. */
  ghost predicate CleanWorker(env: Env, s: State, v: View, name: string, w: Worker)
    requires name in v.checkpoints
  {
    var known := v.checkpoints[name];
    && known <= w.last <= known + 1
    && match w.stage
       case Waiting => true
       case Fetched(e) => e.seqNo == known + 1
       case Projected(n) =>
         && n == known + 1 && w.last == n && n <= |s.history|
         && Sink(s, name) == FoldEntries(env.mapper, s.history, n)
       case Saved(n) => n == known + 1 && w.last == n
  }

  ghost predicate CleanWorkers(env: Env, s: State, mem: Memory) {
    forall name :: name in mem.workers ==>
      name in mem.view.checkpoints && CleanWorker(env, s, mem.view, name, mem.workers[name])
  }

  ghost predicate CleanInv(env: Env, s: State, mem: Memory) {
    && (!SwapDone(mem.phase) ==> mem.view.compactionSeq == s.disk.segment.base - 1)
    && (forall name :: name in mem.view.checkpoints ==> s.disk.segment.base - 1 <= mem.view.checkpoints[name])
    && CleanWorkers(env, s, mem)
  }

  /** Disk and memory against the history. */
  ghost predicate CoreInv(env: Env, s: State) {
    && DiskInv(env, s.disk, s.history)
    && CapturesInv(s.history, s.strays)
    && (s.memory.Some? ==> MemoryInv(env, s.disk, s.history, s.memory.value))
  }

  /** Projectors and their indexes against the history. */
  ghost predicate ProjectionInv(env: Env, s: State) {
    && SinksInv(env, s)
    && (s.memory.Some? ==> CleanInv(env, s, s.memory.value))
  }

  ghost predicate Inv(env: Env, s: State) {
    s.intact ==>
      && CoreInv(env, s)
      && (s.orderly ==> Ordered(s.disk, s.history, s.memory))
      && (s.clean ==> ProjectionInv(env, s))
  }
}
