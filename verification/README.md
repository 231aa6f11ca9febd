# Kilo: a verified model of the durable store

Kilo is a local store for memory records, content chunks, source spans, a graph of nodes and
edges, and purge requests. Every change is a mutation appended to a segment log; the catalog
is what the mutations materialize to, together with a table of idempotency keys. Snapshots
and compactions shorten recovery, projector workers feed vector indexes asynchronously, and
queries are answered from inverted indexes that are maintained incrementally.

This project models that store in Dafny and proves one theorem in many parts: whatever
sequence of operations, crashes and reopens happened, what is seen is the fold of the
mutation history.

## How it is built

- `Text`, `Sorting`, `Types`, `Normalize`: strings, orders and rankings, the entities, and what
  `normalizeMutation` guarantees.
- `Catalogs`, `Laws`, `Integrity`: preflight, the eleven apply functions and `applyLocked` as
  functions on the catalog; a `History` is the list of mutations ever appended and `Fold` the
  catalog it leads to. Laws over histories: conservation of revisions, one writer per revision,
  permanent tombstones, keys used once, references that never dangle.
- `Contents`: what one mutation leaves, field by field, and what a history leaves: every entity
  says what the last mutation that wrote it said.
- `Disks`, `Recovery`: a `Disk` is the store directory at the granularity at which it changes
  (one rename or append a step). `Recover` is what `Open` makes of it, and `RecoveryExact` says
  when that is the fold of the history.
- `System`: the store as a state machine of twenty small actions. `Apply` and `Compact` change
  the disk one step at a time, `WriteSnapshot` captures under the lock and installs later, even
  after a `Close`, workers fetch, project, save and publish in between, and `Crash` is possible
  everywhere.
  `Safety` and `Delivery` prove its invariant action by action, `Theorems` for every run;
  `Guarantees` are the promises read off it; `Witnesses` are three runs in which the store
  falls short.
- `Operations`, `Logs`, `Stores`, `Reopening`: the imperative side. The objects `Device`, `Log`
  and `Store` have the fields of the source, and their methods update them in place; each is
  proved against a function of the lower modules, including the exact sequence of disk states
  it goes through, and `Operations` shows that an `Apply`, a `Compact`, a `WriteSnapshot`, a
  registration and a worker's turn are runs of the state machine.
- `Indexes`, `Queries`, `Graphs`: inverted indexes and adjacency, queries over them, traversal
  and expansion, each answer also described in plain terms.
- `Vectors`, `VectorFiles`, `VectorIndexes`, `Projectors`: vector operations, the binary file
  codec, the index in memory and the index on files, worker turns and fresh searches.
- `SegmentBytes`, `SegmentFiles`: the segment file byte by byte, and that appending a frame and
  writing a segment are the two ways in which the segment of a `Disk` changes.
- `ImportWrites`, `Imports`: the pilot importer.

## Where the store falls short

Three promises hold only under a condition. For each there is the exact condition and an input
that violates it.

- `WriteSnapshot` installs after releasing the lock. A snapshot captured before a compaction and
  installed after it makes the next `Open` refuse (`Witnesses.StaleSnapshotLocksTheStore`). If it
  is installed between the rename of the segment and the manifest and the process then dies,
  `Open` succeeds instead, with the old catalog: acknowledged mutations are gone, and every later
  `Apply` is refused, since log and catalog disagree on the next number
  (`Witnesses.StaleSnapshotForgetsTheHistory`). `Open` rebuilds the history if and only if the snapshot reaches the base of the segment
  (`Recovery.RecoveryExact`, `Theorems.RecoveryIffCovered`); runs without that race always meet
  the condition (`Theorems.OrderlyRunsStayIntact`).
- A crash between the rename of the segment and the manifest lets a projector without a
  checkpoint register although events are gone (`Witnesses.LostManifestLosesEvents`). It misses
  nothing if and only if the segment starts at 1 or its checkpoint is on disk
  (`Guarantees.RegistrationGapFreeIff`).
- `Append` accepts frames the scanner of `replay` cannot read back. The log can be opened again
  if and only if every line, newline included, has at most 64 MiB
  (`SegmentBytes.AppendsReplayIffFit`). A record with a summary of 64 MiB passes normalization
  and preflight and locks the store for good (`SegmentFiles.LongRecordLosesTheLog`).

A crash inside a write can do the same. An append that reaches the disk in part makes `Open`
refuse, unless nothing or everything arrived (`SegmentBytes.TornAppend`), and so does a first
segment of which only a part of the header was written, since `createSegment` writes in place
(`SegmentBytes.TornHeader`). The state machine takes both writes as one step each.

Three smaller ones. A payload that is valid JSON but not in the form `json.Marshal` gives it
comes back re-encoded (`SegmentBytes.WrittenReplays`); the payloads of `Apply` have that form,
because `json.Marshal` made them. Preflight and the delete functions disagree on ids with
surrounding blanks (`Catalogs.PreflightNeedsTrimmedIDs`), which normalization rules out. When
two keys of a string map trim to the same text the winner depends on map order in the source,
which the model replaces by the least key (`Normalize.NormalizeMapExact` says what holds
whoever wins).

## Assumptions

JSON is a lossless encoding of valid UTF-8 strings without raw newlines, with nil and empty
maps equal; CRC-32 and SHA-256 are deterministic functions, and file names derived from
SHA-256 are injective. Times and sequence numbers are naturals and the clock never returns the
zero time. An I/O error inside the process is fail-stop, so it is a crash. One process holds
the store (the owner lock). A directory with a file that fails its checksum or does not decode
is a `Device` that is not `intact`; `Open` refuses it.

## Model

| member | source | states |
|---|---|---|
| `Text.TrimKeepsTheCore` | `pkg/kilo/store.go:624-637` | trimming removes white space at the two ends and nothing between |
| `Text.LessIff` | `pkg/kilo/store.go:334-339` | the order of strings: where they first differ the smaller code point decides, a proper prefix comes first |
| `Normalize.NormalizeMapExact` | `pkg/kilo/helpers.go:5-15` | the keys are the trimmed non-blank ones, each value is that of a key that trims to it, and a key no other collides with keeps its own |
| `Normalize.NormalizeTags` | `pkg/kilo/store.go:655-671` | the result is the ranking of the distinct, lower-cased, non-blank tags |
| `Normalize.NormalizeAcceptsIff` | `pkg/kilo/store.go:565-622` | a mutation is accepted exactly if what its kind requires is not blank, in range and present, for all eleven kinds |
| `Normalize.CleanMutationUnchanged` | `pkg/kilo/store.go:565-578` | a mutation without surrounding blanks comes back unchanged, every field in its place |
| `Normalize.NormalizedFields` | `pkg/kilo/store.go:565-637` | every string of an accepted mutation is the given one, trimmed, in its own field; tags, maps and refs are normalized, and nothing else changes |
| `Normalize.NormalizeRefsOneByOne` | `pkg/kilo/source_span.go:164-174` | refs are normalized one by one, in their places |
| `Normalize.NormalizeEstablishes` | `pkg/kilo/store.go:565-622` | an accepted mutation is well formed for its kind, keeps time, kind and expected revision, and a chunk carries hash and length of its content |
| `Normalize.NormalizeMutationFixes` | `pkg/kilo/store.go:565-622` | normalizing an accepted mutation again changes nothing |
| `Sorting.SortRanks` | `pkg/kilo/store.go:334-339` | sorting a duplicate-free list lists exactly its members in ascending order |
| `Sorting.RankingUnique` | `pkg/kilo/store.go:334-339` | under a strict total order there is one listing, so the order a map was walked in cannot show |
| `Catalogs.PreflightExact` | `pkg/kilo/store.go:365-439` | for a normalized mutation of any of the eleven kinds preflight reports exactly the error the apply function would |
| `Catalogs.PreflightNeedsTrimmedIDs` | `pkg/kilo/store.go:542-546` | without normalization a padded id fails preflight and applies |
| `Catalogs.AcceptedSteps` | `pkg/kilo/store.go:441-496` | a mutation past normalization and preflight with a new key always applies, under its own sequence number |
| `Catalogs.ReplayIgnoresClock` | `pkg/kilo/store.go:498-516` | a logged mutation replays to the same state whatever the clock says |
| `Contents.RecordStep` | `pkg/kilo/store.go:498-563` | when a create, update or delete of a record is accepted and with which error it is refused; the record it leaves, every field and its stamp, what is returned and remembered, and that nothing else changes |
| `Contents.NodeStep` | `pkg/kilo/graph.go:155-215` | the same for nodes |
| `Contents.EdgeStep` | `pkg/kilo/graph.go:217-259` | the same for edges, whose endpoints must be live |
| `Contents.ChunkStep` | `pkg/kilo/chunk.go:107-124` | the same for chunks |
| `Contents.SpanStep` | `pkg/kilo/source_span.go:82-150` | the same for spans: exactly those that cite a live record and existing parts of chunks, stored with their refs in chunk order |
| `Contents.PurgeStep` | `pkg/kilo/purge.go:22-38` | the same for purge requests |
| `Contents.HistorySays` | `pkg/kilo/store.go:441-496` | after every history each entity says what its last create or update said, and is deleted exactly if a delete followed; nothing else exists |
| `Laws.StepTouchesOne` | `pkg/kilo/store.go:448-475` | every mutation touches the bookkeeping of exactly one entity: first stamp for a create, next revision for an update or delete |
| `Laws.StepAddsOneRevision` | `pkg/kilo/store.go:441-496` | a step that is no idempotent hit adds exactly one revision to the store, a hit adds none |
| `Laws.HistoryConserves` | `pkg/kilo/store.go:507-512` | the revisions of all six maps add up to the watermark, no two entities share a last or first sequence, creation never follows the last update |
| `Laws.RevisionsGrow` | `pkg/kilo/store.go:518-540` | no entity leaves its map and its revision never shrinks |
| `Laws.OneWriterPerRevision` | `pkg/kilo/store.go:518-525` | of all updates and deletes of one entity naming the same expected revision at most one was ever accepted |
| `Laws.TombstonesArePermanent` | `pkg/kilo/store.go:542-563` | a deleted record, node or edge is never written again; chunks, spans and purge requests never change |
| `Laws.KeysAreUsedOnce` | `pkg/kilo/store.go:486-488` | the table holds for every key the result of the one mutation that used it, and no two mutations share a key |
| `Integrity.CheckedRefsSound` | `pkg/kilo/source_span.go:119-137` | refs that pass validation cite existing chunks inside their length |
| `Integrity.SortedRefsAgree` | `pkg/kilo/source_span.go:139-150` | any two sorts of the same refs cite the same chunks in the same order |
| `Integrity.StepSound` | `pkg/kilo/source_span.go:82-103` | every step keeps all spans and edges sound |
| `Integrity.HistorySound` | `pkg/kilo/graph.go:217-238` | in every reachable catalog spans cite existing records and chunk ranges in chunk order, and edges end at nodes |
| `Recovery.ReplayReaches` | `pkg/kilo/store.go:168-181` | after n replayed entries the catalog is the fold up to the snapshot or the entry, whichever is later, and all n are queued |
| `Recovery.RecoveryComplete` | `pkg/kilo/store.go:151-181` | with the segment covered, `Open` yields the fold of the history, its watermark, next sequence, queue and checkpoints |
| `Recovery.GapLosesHistory` | `pkg/kilo/store.go:162-165` | with a gap, `Open` refuses or rebuilds something else |
| `Recovery.RecoveryExact` | `pkg/kilo/store.go:151-181` | `Open` succeeds with the fold of the history if and only if the snapshot covers everything below the segment base |
| `Theorems.CoreKept` | `pkg/kilo/store.go:220-261` | every action keeps disk and memory in agreement with the history |
| `Theorems.ProjectionKept` | `pkg/kilo/projector.go:129-178` | every action keeps workers, checkpoints and indexes in agreement with the history |
| `Theorems.RunsKeepInv` | `pkg/kilo/store.go:220-261` | the invariant holds after every run of actions, crashes included |
| `Theorems.OrderlyRunsStayIntact` | `pkg/kilo/snapshot.go:45-71` | as long as no snapshot is installed during or below a compaction, the snapshot always covers the segment |
| `Theorems.RecoveryIsComplete` | `pkg/kilo/store.go:73-183` | wherever such a run is cut between durable steps, `Open` succeeds with every mutation ever appended |
| `Theorems.RecoveryIffCovered` | `pkg/kilo/snapshot.go:49-59` | with racing snapshots, `Open` rebuilds the history exactly if the snapshot reaches the base |
| `Theorems.LiveCatalog` | `pkg/kilo/store.go:251-260` | the live catalog is the fold of the history, less the one mutation between append and materialization |
| `Theorems.EveryMutationAccounted` | `pkg/kilo/store.go:251-260` | the history is the acknowledged mutations, those cut by a crash, and at most one in flight; acknowledged ones are never displaced |
| `Guarantees.AtMostOnce` | `pkg/kilo/store.go:233-238` | a used key returns the original sequence and entity, appends nothing and changes nothing, also after reopening |
| `Guarantees.NoFrameIsLost` | `internal/segmentlog/log.go:143-188` | at every crash point each appended mutation is in the active segment or an archive, with its payload |
| `Guarantees.CompactionIsTransparent` | `pkg/kilo/compaction.go:45-89` | no step of a compaction changes catalog, key table or next sequence, live or after reopening |
| `Guarantees.QueueHasNoGap` | `pkg/kilo/projector.go:162-178` | in every phase, compactions included: every materialized event past a registered projector's checkpoint is queued with its mutation, and the next one handed out is the one after the checkpoint, as it was logged |
| `Guarantees.DeliveriesStepByOne` | `pkg/kilo/projector.go:129-160` | a projector is handed the event it was handed last or the one after it, with the mutation and the time that were logged |
| `Guarantees.RegistrationGapFreeIff` | `pkg/kilo/projector.go:49-52` | every event past the checkpoint a name registers with is queued if and only if nothing was compacted or its checkpoint is on disk; with the manifest known the guard admits exactly those |
| `Guarantees.ExactlyOnceEffect` | `pkg/kilo/projector.go:138-158` | the index holds the effect of events 1..m once each, m the durable checkpoint or the one after |
| `Guarantees.LagCountsPendingEvents` | `pkg/kilo/projector.go:262-282` | the lag a projector reports is the number of events still queued for it, exactly those after its checkpoint; a wait is satisfied exactly if the checkpoint has reached the sequence and no more are queued than the lag allows |
| `Guarantees.SatisfiedWaitIsFresh` | `pkg/kilo/projector.go:419-427` | after a satisfied wait the index reflects at least the sequence waited for and at most the allowed lag is missing |
| `Guarantees.CitationsNeverDangle` | `pkg/kilo/chunk.go:48-67` | at every crash point the rebuilt catalog cites existing records and ranges, and every chunk has a body of its length and hash |
| `Guarantees.LawsOfTheLiveStore` | `pkg/kilo/store.go:441-496` | every live catalog is conserved and sound |
| `Guarantees.DurableStatesOnlyGrow` | `pkg/kilo/store.go:518-563` | over a run, across crashes and reopens, tombstones and immutable entities stay unchanged, nothing goes missing, no revision shrinks |
| `Guarantees.OneWriterPerRevisionInRuns` | `pkg/kilo/store.go:523-525` | over a run, two accepted writes to one entity never named the same expected revision |
| `Guarantees.ReadsSeeTheLastWrite` | `pkg/kilo/store.go:441-496` | live and after any crash every entity says what the last mutation that wrote it said, and is deleted exactly if a delete followed |
| `Witnesses.StaleSnapshotLocksTheStore` | `pkg/kilo/snapshot.go:49-59` | a run that captures, compacts, then installs ends in a disk `Open` refuses |
| `Witnesses.StaleSnapshotForgetsTheHistory` | `pkg/kilo/snapshot.go:49-59` | a run that installs a stale snapshot before the manifest is written and dies: `Open` succeeds without an acknowledged mutation, and nothing is ever accepted again |
| `Witnesses.LostManifestLosesEvents` | `pkg/kilo/compaction.go:66-84` | a run cut between rename and manifest ends with a registered projector whose first event is no longer queued |
| `Vectors.NormalizeOperationAcceptsIff` | `pkg/kilo/vector.go:88-135` | an operation is accepted exactly if its kind's fields are present and its dimensions fit; what an accepted one carries |
| `Vectors.NormalizeOperationFixes` | `pkg/kilo/vector.go:88-135` | the second normalization, by the index, changes nothing |
| `Vectors.RedeliveryChangesNothing` | `pkg/kilo/vector.go:76-86` | delivering an event a second time changes nothing |
| `Vectors.ProjectedEffect` | `pkg/kilo/vector.go:76-86` | projecting a delete removes the node and nothing else; an upsert stores the fields of the operation, stamped with the event unless it has a sequence of its own |
| `Operations.ApplyIsARun` | `pkg/kilo/store.go:220-261` | an `Apply` changes nothing or is the run body, frame, memory of the state machine |
| `Operations.LoggedAsGiven` | `pkg/kilo/store.go:220-260` | what is logged is the mutation given, field by field, but for a missing time, the body, and its length and hash |
| `Operations.CompactIsARun` | `pkg/kilo/compaction.go:45-89` | a `Compact` is refused, with at most the snapshot changed, or is the run through all five durable steps |
| `Operations.CompactLeaves` | `pkg/kilo/compaction.go:45-89` | when a compaction happens, and the files and the queue it leaves: snapshot, archive, new segment, manifest, later events |
| `Operations.SnapshotLeaves` | `pkg/kilo/snapshot.go:45-71` | a snapshot replaces the snapshot file and nothing else |
| `Operations.SnapshotIsARun` | `pkg/kilo/snapshot.go:45-71` | an undisturbed `WriteSnapshot` is the run capture, install, note, and stays orderly |
| `Operations.RegisterIsAStep` | `pkg/kilo/projector.go:29-69` | `RegisterProjector` succeeds exactly when the state machine may register, with the same memory |
| `Operations.TurnIsARun` | `pkg/kilo/projector.go:129-160` | a worker's turn fetches nothing, gives the event up with nothing changed, or is the run fetch, deliver, save, publish |
| `Logs.Log.Open` | `internal/segmentlog/log.go:60-91` | the log opens exactly if its file is intact and its numbers have no gap, and continues after the last one |
| `Logs.Log.Append` | `internal/segmentlog/log.go:93-126` | only the next sequence on an open log is appended, one frame, and the number advances by one |
| `Logs.Log.WriteSegment` | `internal/segmentlog/log.go:360-403` | writing succeeds exactly for a non-zero base and numbers without a gap |
| `Logs.Log.CompactThrough` | `internal/segmentlog/log.go:128-198` | refused without touching a file unless frames at or before the sequence exist; otherwise archive truncated, archive filled, segment swapped, in this order |
| `Stores.Store.constructor` | `pkg/kilo/store.go:127-149` | an empty catalog with exact indexes |
| `Stores.Store.IndexRecord` | `pkg/kilo/store.go:702-713` | the record is filed under each of its eight fields and every tag |
| `Stores.Store.RemoveRecordIndex` | `pkg/kilo/store.go:715-726` | the record is removed from all of them, empty buckets dropped |
| `Stores.Store.InstallCatalogSnapshot` | `pkg/kilo/snapshot.go:211-237` | the catalog is the snapshot and every rebuilt index is exact |
| `Stores.Store.ApplyCreate` | `pkg/kilo/store.go:498-516` | result and catalog as specified, indexes stay exact |
| `Stores.Store.ApplyUpdate` | `pkg/kilo/store.go:518-540` | result and catalog as specified, indexes stay exact |
| `Stores.Store.ApplyDelete` | `pkg/kilo/store.go:542-563` | result and catalog as specified, indexes stay exact |
| `Stores.Store.ApplyCreateChunk` | `pkg/kilo/chunk.go:107-124` | result and catalog as specified, indexes stay exact |
| `Stores.Store.ValidateSourceSpanReferences` | `pkg/kilo/source_span.go:119-137` | the loop finds the first fault the specification names |
| `Stores.Store.ApplyCreateSourceSpan` | `pkg/kilo/source_span.go:82-103` | result and catalog as specified, indexes stay exact |
| `Stores.Store.ApplyCreateNode` | `pkg/kilo/graph.go:155-172` | result and catalog as specified |
| `Stores.Store.ApplyUpdateNode` | `pkg/kilo/graph.go:174-194` | result and catalog as specified |
| `Stores.Store.ApplyDeleteNode` | `pkg/kilo/graph.go:196-215` | result and catalog as specified |
| `Stores.Store.ApplyCreateEdge` | `pkg/kilo/graph.go:217-238` | result and catalog as specified, adjacency stays exact |
| `Stores.Store.ApplyDeleteEdge` | `pkg/kilo/graph.go:240-259` | result and catalog as specified, adjacency keeps the tombstone |
| `Stores.Store.ApplyCreatePurgeRequest` | `pkg/kilo/purge.go:22-38` | result and catalog as specified |
| `Stores.Store.ApplyLocked` | `pkg/kilo/store.go:441-496` | catalog, key table and queue as specified; soundness and exact indexes kept |
| `Stores.Store.LatestManifest` | `pkg/kilo/compaction.go:193-215` | the manifest with the highest sequence, none if there is none |
| `Stores.Store.ReplayTail` | `pkg/kilo/store.go:168-181` | covered entries are only queued, the others applied, the first failure stops |
| `Stores.Store.Open` | `pkg/kilo/store.go:73-183` | any directory: refused if a file is damaged or a number is skipped, otherwise exactly what recovery specifies or its error; from a directory a store wrote all indexes are exact |
| `Stores.Store.CommitMutation` | `pkg/kilo/store.go:244-260` | body, frame, memory in this order, with every disk state named |
| `Stores.Store.Apply` | `pkg/kilo/store.go:220-261` | result, view and sequence of disk states as specified; catalog stays sound, indexes exact |
| `Stores.Store.WriteSnapshot` | `pkg/kilo/snapshot.go:45-71` | one rename, the snapshot watermark never goes back, the final disk state as specified; a closed store writes nothing |
| `Stores.Store.EnsureProjectorsReady` | `pkg/kilo/compaction.go:91-98` | ready exactly if every known checkpoint has reached the sequence |
| `Stores.Store.ProjectionEventsAfter` | `pkg/kilo/compaction.go:126-134` | exactly the events past the sequence, in order |
| `Stores.Store.CompactFiles` | `pkg/kilo/compaction.go:61-84` | snapshot, archive, swap, manifest in this order; a refusal leaves only the snapshot |
| `Stores.Store.Compact` | `pkg/kilo/compaction.go:45-89` | result, view and the five disk states as specified |
| `Stores.Store.RegisterProjector` | `pkg/kilo/projector.go:29-69` | admitted exactly for a new non-blank name on an open store that passes the compaction guard; a refusal changes nothing |
| `Stores.Store.NextEvent` | `pkg/kilo/projector.go:162-178` | the first queued event past the checkpoint |
| `Stores.Store.AdvanceProjectorCheckpoint` | `pkg/kilo/projector.go:202-232` | file before memory, and never back |
| `Stores.Store.ReadChunkContent` | `pkg/kilo/chunk.go:48-67` | the body exactly if it exists with the recorded length and hash, an error otherwise |
| `Stores.SameCatalogSameIndexes` | `pkg/kilo/snapshot.go:211-237` | two stores with the same catalog have the same indexes, however they were maintained |
| `Reopening.CloseAndReopen` | `pkg/kilo/store.go:151-181` | a reopened store has the catalog, key table, next sequence and all indexes it had |
| `Indexes.AddAllHas` | `pkg/kilo/store.go:728-738` | filing adds exactly the non-blank values of the entity |
| `Indexes.RemoveAllHas` | `pkg/kilo/store.go:740-752` | unfiling removes exactly those and leaves no empty bucket |
| `Indexes.ExactReplace` | `pkg/kilo/store.go:536-538` | removing the old version and filing the new one keeps an index exact |
| `Indexes.ExactUnique` | `pkg/kilo/store.go:728-752` | there is only one exact index for given entities |
| `Indexes.IndexesUnique` | `pkg/kilo/snapshot.go:211-237` | incrementally maintained indexes equal rebuilt ones, all twenty of them |
| `Queries.Intersect` | `pkg/kilo/store.go:756-770` | a blank value changes nothing, the first filter starts from its bucket, any other intersects |
| `Queries.UnknownValueAdmitsNothing` | `pkg/kilo/store.go:756-770` | a value no entity has is not in the index and leaves no candidate, whatever the other filters: it empties the answer instead of lifting the filter |
| `Queries.CandidateIDs` | `pkg/kilo/store.go:754-795` | the ranking of exactly the ids every filter admits |
| `Queries.RecordCandidates` | `pkg/kilo/store.go:772-780` | the filters admit exactly the records a scan of the fields matches |
| `Queries.AnswerUnique` | `pkg/kilo/store.go:334-342` | the set of matches determines the answer |
| `Queries.TopMeans` | `pkg/kilo/store.go:334-342` | a cut ranking is in order, from the set, and leaves out only what comes after all it contains, once the limit is reached |
| `Queries.QueryRecords` | `pkg/kilo/store.go:310-350` | exactly the records with the asked fields and tags, the most recently updated first, ties by id; one left out is no more recent than any returned, and then the limit is reached; the audit ids are those of all matches |
| `Queries.QueryChunks` | `pkg/kilo/chunk.go:69-105` | exactly the chunks with the asked fields and sequence range, lowest sequence first, ties by id, cut at the limit; the ids of the answer |
| `Queries.QuerySourceSpans` | `pkg/kilo/source_span.go:43-80` | exactly the spans with the asked fields, the most recently updated first, ties by id, cut at the limit; the sorted ids of the answer |
| `Queries.ReadSpan` | `pkg/kilo/source_span.go:105-117` | reading a sound span never fails and only permutes refs to one chunk |
| `Queries.ReadSourceSpan` | `pkg/kilo/source_span.go:25-41` | found exactly if stored, and then read without error |
| `Graphs.AdjacencyExact` | `pkg/kilo/graph.go:280-283` | outgoing and incoming hold exactly the edges of a node, tombstones included |
| `Graphs.TraverseIDs` | `pkg/kilo/graph.go:496-503` | exactly the edges of a node that may be followed, in id order, each with its far node |
| `Graphs.Traverse` | `pkg/kilo/graph.go:128-153` | not found for a missing or hidden start; otherwise exactly its edges in that direction of the asked type which, with their other node, are visible, by id, each with its other node |
| `Graphs.ExpandQueryResult` | `pkg/kilo/graph.go:406-443` | the id-sorted, duplicate-free union of allowed neighbours and edges of the matched nodes |
| `Graphs.RelatedEdges` | `pkg/kilo/graph.go:371-394` | exactly the edges relating the node in an asked direction, by id, each as often as it is related |
| `Graphs.QueryNodes` | `pkg/kilo/graph.go:42-100` | exactly the nodes with the asked type, times, attributes and relation, the most recently updated first, cut at the limit; the edges that relate them, the expansion by parents, children and evidence, the cited spans, and no failure |
| `Graphs.ExpandSourceSpans` | `pkg/kilo/graph.go:445-494` | every span of the cited records, latest first, and no read fails |
| `VectorFiles.LittleEndianRoundTrip` | `pkg/kilo/file_vector_index.go:255-263` | four bytes, the least significant first, read back as the number written |
| `VectorFiles.VectorRoundTrip` | `pkg/kilo/file_vector_index.go:259-263` | the components read back as written |
| `VectorFiles.EncodeEntry` | `pkg/kilo/file_vector_index.go:236-265` | the bytes of the entry, refused exactly for oversized metadata |
| `VectorFiles.ReadEntry` | `pkg/kilo/file_vector_index.go:267-332` | every check in the order of the source |
| `VectorFiles.RoundTrip` | `pkg/kilo/file_vector_index.go:267-332` | a stored entry reads back as itself |
| `VectorFiles.PrefixRejected` | `pkg/kilo/file_vector_index.go:272-297` | every strict prefix of an encoding is rejected |
| `VectorFiles.ExtensionRejected` | `pkg/kilo/file_vector_index.go:294-297` | every extension of an encoding is rejected |
| `VectorFiles.DecodesIff` | `pkg/kilo/file_vector_index.go:267-332` | exactly the files decode that have the magic, a metadata length, valid metadata and as many components as it says |
| `VectorFiles.DecodedSays` | `pkg/kilo/file_vector_index.go:267-332` | the entry read has the fields of the metadata, trimmed, and components whose bytes are those of the file |
| `VectorIndexes.DotProduct` | `pkg/kilo/vector_search.go:335-344` | the loop computes the dot product |
| `VectorIndexes.CauchySchwarz` | `pkg/kilo/vector_search.go:335-344` | the square of the dot product is at most the product of the squared lengths |
| `VectorIndexes.ScoresAreBounded` | `pkg/kilo/vector_search.go:335-344` | every score lies between -1 and 1, whichever vector is the query |
| `VectorIndexes.SelfScoresOne` | `pkg/kilo/vector_search.go:335-344` | a vector that is not zero scores 1 against itself |
| `VectorIndexes.HitsOrdered` | `pkg/kilo/vector_search.go:308-318` | score, source sequence and id order hits of different nodes totally |
| `VectorIndexes.Search` | `pkg/kilo/vector_search.go:123-175` | exactly the entries of the asked model, dimensions, types and scope, the best score first, then the latest source, then the smallest id; one left out comes after all returned, and then the limit is reached; all candidate ids, and staleness by the watermark |
| `VectorIndexes.SearchAnswerIs` | `pkg/kilo/vector_search.go:123-175` | which queries are answered, and that the answer is the one just described, each hit with the score of its vector |
| `VectorIndexes.ExactVectorIndex.ApplyVectorOperation` | `pkg/kilo/vector_search.go:88-121` | accepted exactly if its fields are there; an upsert stores them under the node, a delete removes the node, the watermark rises to the sequence, nothing else changes; a rejected operation changes nothing |
| `VectorIndexes.FileVectorIndex.ApplyVectorOperation` | `pkg/kilo/file_vector_index.go:63-103` | as the index in memory, except that oversized metadata is refused, and only that; the file of the node is there after an upsert and gone after a delete, and the files always encode the entries |
| `VectorIndexes.FileVectorIndex.Load` | `pkg/kilo/file_vector_index.go:158-175` | any directory: refused exactly if a file does not decode, otherwise every file gives its entry and the watermark is the latest; the files of an index restore its entries, with a watermark at most the live one |
| `VectorIndexes.FileIndexRefinesExact` | `pkg/kilo/file_vector_index.go:63-103` | fed the same operations both indexes hold the same entries and watermark |
| `VectorIndexes.SearchesAgree` | `pkg/kilo/file_vector_index.go:105-156` | equal contents give equal answers |
| `VectorIndexes.ReloadOnlyOverreportsStaleness` | `pkg/kilo/file_vector_index.go:158-175` | after a reload the hits are the same and what was stale stays stale |
| `Projectors.ProjectEvent` | `pkg/kilo/vector.go:76-86` | the index becomes what projection specifies, or the event is refused and nothing changes; refused exactly if the mapper or the operation fails or its metadata is oversized |
| `Projectors.RunOnce` | `pkg/kilo/projector.go:129-160` | one turn projects the next event and advances to it, or leaves index and checkpoint alone and notes the error |
| `Projectors.SearchVectors` | `pkg/kilo/vector_search.go:177-222` | the hits of the index, staleness judged by watermark and lag, the expansion of the live nodes of the hits and the spans they cite, in plain terms; it succeeds exactly if the projector is known and the index answers |
| `SegmentBytes.Replay` | `internal/segmentlog/log.go:230-289` | every check of the scan in order, stopping at the first fault; opens exactly if header and all frames are good |
| `SegmentBytes.ReplayAcceptsIff` | `internal/segmentlog/log.go:230-289` | a file replays exactly if it ends in a newline, begins with a header of the right type, version and base, and holds only frames that fit, are numbered without a gap and have the checksum of their data; the entries are their payloads |
| `SegmentBytes.AlteredFrameRefused` | `internal/segmentlog/log.go:273-276` | a frame whose data no longer has its checksum is refused wherever it stands |
| `SegmentBytes.WriteSegmentContent` | `internal/segmentlog/log.go:360-403` | header and frames, refused exactly for a zero base, a gap or an invalid payload |
| `SegmentBytes.Append` | `internal/segmentlog/log.go:93-126` | accepted exactly for the next sequence and a valid payload; what is appended replays to one more entry if its line fits and is refused if not |
| `SegmentBytes.WrittenReplays` | `internal/segmentlog/log.go:360-403` | what was written replays to its entries, payloads in canonical form, and the next number, exactly if every line fits |
| `SegmentBytes.AppendReplaysIffFits` | `internal/segmentlog/log.go:240-241` | after an append the log opens with one more entry if and only if the frame fits the scanner |
| `SegmentBytes.AppendsReplayIffFit` | `internal/segmentlog/log.go:93-126` | after any number of appends the log opens with all of them if and only if every frame fits; one that does not is never made good |
| `SegmentBytes.WrittenThenAppendedReplays` | `internal/segmentlog/log.go:230-289` | a segment written and then appended to replays to the written entries followed by the appended ones |
| `SegmentBytes.LongPayloadLosesTheLog` | `internal/segmentlog/log.go:240-241` | a valid payload whose canonical form has 64 MiB makes the log unreadable |
| `SegmentBytes.TornAppend` | `internal/segmentlog/log.go:291-315` | of a torn frame nothing gives the old log, all gives the new log, anything between is rejected |
| `SegmentBytes.TornHeader` | `internal/segmentlog/log.go:209-228` | every proper prefix of a fresh segment is rejected, the empty file included |
| `SegmentFiles.AppendIsWithEntry` | `internal/segmentlog/log.go:93-126` | appending the frame of a mutation to a file that holds the segment gives a file that holds it with one more entry |
| `SegmentFiles.WriteIsSwapped` | `internal/segmentlog/log.go:128-198` | what compaction writes is a file that holds the entries after the sequence under the new base |
| `SegmentFiles.HeaderIsFresh` | `internal/segmentlog/log.go:209-228` | a lone header holds the empty segment of a fresh store |
| `SegmentFiles.EntriesReadBack` | `pkg/kilo/store.go:168-173` | the mutations decoded from the replayed entries are those that were appended |
| `SegmentFiles.LongRecordLosesTheLog` | `internal/segmentlog/log.go:240-241` | a mutation every store accepts after which its log cannot be opened |
| `ImportWrites.ImportKeyInjective` | `internal/pilotimport/memory.go:218-219` | different entities have different import keys |
| `ImportWrites.ImportKeyIs` | `internal/pilotimport/memory.go:219` | the import key of an entity is `pilot-import:`, its kind and its id |
| `ImportWrites.Ensure` | `internal/pilotimport/memory.go:273-290` | an entity is created exactly if it is missing, tombstones counting as present, and then says what was asked for; where it is present the call succeeds and appends nothing; nothing else changes |
| `ImportWrites.EnsureAll` | `internal/pilotimport/memory.go:147-196` | all planned entities exist, what is new was made from the plan, the maps grew by what was counted; if all were there the call succeeds and appends nothing |
| `ImportWrites.CreatedSays` | `internal/pilotimport/memory.go:273-290` | an accepted creation leaves the entity as asked for, normalized and live, and everything else as it was |
| `Imports.NormalizeMemoryIff` | `internal/pilotimport/memory.go:435-505` | which memory records are accepted, and what becomes of each of their fields |
| `Imports.AttributesSay` | `internal/pilotimport/memory.go:507-540` | each of the eighteen attributes carries its field, a blank one is left out |
| `Imports.OriginalTagsAre` | `internal/pilotimport/memory.go:682-697` | the tags kept are exactly the trimmed non-blank ones, each once, in the order of first appearance |
| `Imports.DigitsAre` | `internal/pilotimport/memory.go:731-736` | a line number prints as digits that stand for it |
| `Imports.GrownIsTheBatch` | `internal/pilotimport/memory.go:210-404` | whatever is new is a record, node, chunk, span or edge of a memory record of the batch, with the fields, type and endpoints that one gives it |
| `Imports.ImportedIsPresent` | `internal/pilotimport/memory.go:142-208` | every entity and edge a memory record asks for is there |
| `Imports.ImportEntities` | `internal/pilotimport/memory.go:142-193` | the first pass: records, nodes, embeddings and excerpts are there, growth equals what was counted, the index reflects the batch |
| `Imports.EmbeddingAccepted` | `internal/pilotimport/memory.go:241-257` | what the importer checks of an embedding is all the index asks for: once the store has a watermark, the upsert is accepted and becomes the entry of the memory node, field by field |
| `Imports.ImportMemoryRecords` | `internal/pilotimport/memory.go:122-208` | nothing that was there changes, whatever is new belongs to a memory record of the batch and says what that one says, everything asked for is there; every counter is the growth of its map, records and skips add up to the inputs, the skipped supersessions are those without a target, the index holds the last embedding of every node in the batch; importing the same batch again, into a store that has a watermark, succeeds and appends nothing |

## Left out

- CLI, HTTP adapter, `sdk.go` dispatch, `tail.go`, status and catalog counts, `internal/pilotvalidate`: single-branch code.
- The owner lock: exactly one live store per directory is assumed.
- JSON, CRC-32, SHA-256, fsync, temporary files: a lossless codec, deterministic functions and atomic installs.
- I/O errors inside a living process: fail-stop, so they are crashes.
- A torn frame: the state machine appends atomically; `SegmentBytes.TornAppend` covers what lies between, which `Open` rejects.
- Frames over 64 MiB: excluded in the state machine, treated in `SegmentBytes` and `SegmentFiles`.
- `Logs.Log.Append`: entries are mutations here, so the check for valid JSON is in `SegmentBytes.Append`.
- `Logs.Log.WriteSegment`: entries are mutations here, so the check for valid JSON is in `SegmentBytes.WriteSegmentContent`.
- Wrap-around of 64-bit sequence numbers, and of `int` in chunk lengths.
- `Normalize.NormalizeTags`: lower-casing maps ASCII letters only, not all of Unicode.
- `Normalize.NormalizeMap`: the winner among keys that trim to the same text is the least key, not any.
- Tie order of `sort.Slice`: a stable insertion; `Integrity.SortedRefsAgree` says why it does not matter for refs.
- The five bookkeeping fields of the Go entities are one `Stamp`; type strings are a datatype.
- Timers, deadlines and retry sleeps of waits and workers: only the satisfied predicate and the watermark steps.
- Rounding and NaN in scores: real numbers with a square root as a parameter.
- `VectorIndexes.ScoresAreBounded`: without the rounding of floating point, which can leave the interval.
- `VectorIndexes.SelfScoresOne`: without the rounding of floating point, which can miss 1.
- `Projectors.RunOnce`: a worker's turn is one call here and the pause before a retry is left out; `Operations.TurnIsARun` makes it a run of `System`, where the interleavings are.
- `Stores.Store.WriteSnapshot`: capture and install are one call here; `Operations.SnapshotIsARun` makes it a run of `System`, where the race is.
- A carriage return before a newline, which the scanner strips: encoded frames end in a brace.
- `Imports.ImportMemoryRecords`: the index given to an import is the one in memory, not the one on files, which may also refuse oversized metadata; the JSON loader is left out.
- Context cancellation at the start of every call.
