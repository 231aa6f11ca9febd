/** The object and the state machine together: closing a store and opening it again. */
module Reopening {
  import opened Types
  import opened Catalogs
  import opened Disks
  import opened Recovery
  import opened Stores
  import Indexes
  import Integrity

  /** A store that was closed and opened again is the store it was: same catalog, idempotency
      table and next sequence, and the indexes rebuilt from the snapshot and the tail are the
      ones that were maintained through every create, update and tombstone. */
  method CloseAndReopen(s: Store, ghost h: History, now: Time) returns (t: Store)
    requires s.Valid() && Journal(s.log.device.state, h) && Covers(s.log.device.state) && s.Data() == Fold(h)
    modifies s, s.log
    ensures fresh(t) && t.Valid() && t.Data() == old(s.Data()) && t.log.nextSeq == |h| + 1
    ensures t.indexes == old(s.indexes) && t.chunkIndexes == old(s.chunkIndexes)
    ensures t.spanIndexes == old(s.spanIndexes) && t.graph == old(s.graph)
    ensures t.projectionEvents == Events(h, s.log.device.state.segment.base - 1, |h|)
    ensures t.projectorCheckpoints == s.log.device.state.checkpoints
  {
    hide Fold, Journal, Trusted, Indexes.Indexed, Integrity.Sound, Recover;
    JournalTrusted(s.log.device.state, h);
    RecoveryComplete(s.log.device.state, h, now);
    s.Close();
    var opening := Store.Open(s.log.device, s.hash, now);
    t := opening.value;
    SameCatalogSameIndexes(s, t);
  }
}
