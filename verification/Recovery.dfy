/** What `Open` finds after a crash: exactly the fold of the history, if and only if the
    snapshot reaches up to the base of the segment. */
module Recovery {
  import opened Types
  import opened Normalize
  import opened Catalogs
  import opened Laws
  import opened Disks

  function EntriesOf(h: History, from: nat): (r: seq<Entry>)
    requires from <= |h|
    ensures |r| == |h| - from
    ensures forall i :: 0 <= i < |r| ==> r[i] == Entry(from + i + 1, h[from + i])
  {
    seq(|h| - from, i requires 0 <= i < |h| - from => Entry(from + i + 1, h[from + i]))
  }

  /** The projection events of mutations `from + 1 .. to`. */
  function Events(h: History, from: nat, to: nat): (r: seq<Event>)
    requires from <= to <= |h|
    ensures |r| == to - from
    ensures forall i :: 0 <= i < |r| ==> r[i] == EventOf(from + i + 1, h[from + i])
  {
    seq(to - from, i requires 0 <= i < to - from => EventOf(from + i + 1, h[from + i]))
  }

  function SnapshotSeq(d: Disk): nat {
    if d.snapshot.Some? then d.snapshot.value.durableSeq else 0
  }

  /** The files agree with the history of mutations appended so far. */
  ghost predicate Journal(d: Disk, h: History) {
    && Legal(h)
    && 1 <= d.segment.base <= |h| + 1
    && d.segment.entries == EntriesOf(h, d.segment.base - 1)
    && SnapshotSeq(d) <= |h|
    && (d.snapshot.Some? ==> d.snapshot.value == Fold(h[..SnapshotSeq(d)]))
    && (forall n :: n in d.manifests ==> 0 < n < d.segment.base)
  }

  /** No mutation is missing between the snapshot and the segment. */
  predicate Covers(d: Disk) {
    d.segment.base <= SnapshotSeq(d) + 1
  }

  /** The view of a store that lost nothing. */
  ghost function Recovered(d: Disk, h: History): View
    requires Journal(d, h)
  {
    View(Fold(h), |h| + 1, SnapshotSeq(d), Latest(d.manifests), Events(h, d.segment.base - 1, |h|), d.checkpoints)
  }

  lemma LoadedPrefix(d: Disk, h: History)
    requires Journal(d, h)
    ensures Loaded(d) ==
      View(Fold(h[..SnapshotSeq(d)]), |h| + 1, SnapshotSeq(d), Latest(d.manifests), [], d.checkpoints)
  {
    hide Legal;
    assert SnapshotSeq(d) == 0 ==> h[..SnapshotSeq(d)] == [];
    if d.snapshot.None? { assert Fold(h[..0]) == EMPTY_CATALOG; }
  }

  /** The view after `n` entries: the catalog is the fold up to the snapshot or up to the entry,
      whichever is later, and every entry has been queued. */
  ghost function Replayed(d: Disk, h: History, n: nat): View
    requires Journal(d, h) && Covers(d) && n <= |d.segment.entries|
  {
    var b := d.segment.base - 1;
    Loaded(d).(catalog := Fold(h[..Max(SnapshotSeq(d), b + n)]), events := Events(h, b, b + n))
  }

  lemma {:induction false} ReplayReaches(d: Disk, h: History, n: nat, clock: Time)
    requires Journal(d, h) && Covers(d) && n <= |d.segment.entries|
    ensures ReplayAll(Loaded(d), d.segment.entries[..n], clock) == Ok(Replayed(d, h, n))
  {
    hide Legal, Fold, Step, Loaded, Events, EntriesOf, ReplayOne;
    var b := d.segment.base - 1;
    var es := d.segment.entries[..n];
    if n == 0 {
      LoadedPrefix(d, h);
      assert Events(h, b, b + n) == [];
    } else {
      ReplayReaches(d, h, n - 1, clock);
      assert es[..n - 1] == d.segment.entries[..n - 1];
      assert es[n - 1] == Entry(b + n, h[b + n - 1]);
      ReplayNext(h, Max(SnapshotSeq(d), b + n - 1), Replayed(d, h, n - 1), b + n, clock);
      EventsSnoc(h, b, b + n);
    }
  }

  lemma EventsSnoc(h: History, from: nat, upTo: nat)
    requires from < upTo <= |h|
    ensures Events(h, from, upTo) == Events(h, from, upTo - 1) + [EventOf(upTo, h[upTo - 1])]
  {
  }

  /** Replaying entry `n` on the fold of at least `n - 1` mutations. */
  lemma ReplayNext(h: History, k: nat, w: View, n: nat, clock: Time)
    requires Legal(h) && n - 1 <= k <= |h| && 0 < n <= |h| && w.catalog == Fold(h[..k])
    ensures ReplayOne(w, Entry(n, h[n - 1]), clock)
         == Ok(w.(catalog := Fold(h[..Max(k, n)]), events := w.events + [EventOf(n, h[n - 1])]))
  {
    hide Legal, Fold, Step;
    LegalPrefix(h, k);
    FoldSeq(h[..k]);
    if k == n - 1 {
      LegalStep(h, k);
      AcceptedFacts(Fold(h[..k]), h[k]);
      ReplayIgnoresClock(Fold(h[..k]), n, h[k], clock, 0);
    }
  }

  /** Recovery is complete when nothing is missing: catalog, idempotency table, watermark,
      next sequence and projector queue are those of the whole history. */
  lemma RecoveryComplete(d: Disk, h: History, clock: Time)
    requires Journal(d, h) && Covers(d)
    ensures Recover(d, clock) == Ok(Recovered(d, h))
    ensures Recovered(d, h).catalog.durableSeq == |h|
  {
    hide Legal, Fold, Step;
    var es := d.segment.entries;
    ReplayReaches(d, h, |es|, clock);
    assert es[..|es|] == es;
    assert h[..|h|] == h;
    LoadedPrefix(d, h);
    FoldSeq(h);
    assert Latest(d.manifests) <= SnapshotSeq(d);
  }

  /** Replaying entries adds at most one revision each, whatever they are applied to. */
  lemma {:induction false} ReplayAddsRevisions(v: View, entries: seq<Entry>, clock: Time)
    requires Keyed(v.catalog) && ReplayAll(v, entries, clock).Ok?
    requires forall i :: 0 <= i < |entries| ==> Normalized(entries[i].mutation)
    ensures var w := ReplayAll(v, entries, clock).value;
      Keyed(w.catalog) && Total(Stamps(w.catalog)) <= Total(Stamps(v.catalog)) + |entries|
  {
    hide Normalized, Step, Stamps, Total, Keyed;
    if entries != [] {
      var n := |entries| - 1;
      ReplayAddsRevisions(v, entries[..n], clock);
      var w := ReplayAll(v, entries[..n], clock).value;
      var e := entries[n];
      if e.seqNo > w.catalog.durableSeq {
        StepAddsOneRevision(w.catalog, e.seqNo, e.mutation, clock);
      }
    }
  }

  /** With a gap between snapshot and segment the history is lost: `Open` refuses, or what it
      rebuilds has too few revisions to be the fold of the history. */
  lemma GapLosesHistory(d: Disk, h: History, clock: Time)
    requires Journal(d, h) && !Covers(d)
    ensures Recover(d, clock).Ok? ==> Recover(d, clock).value.catalog != Fold(h)
  {
    hide Legal, Fold, Step, Stamps, Total, Keyed, Normalized, Conserved;
    if Recover(d, clock).Ok? {
      var k := SnapshotSeq(d);
      LoadedPrefix(d, h);
      LegalPrefix(h, k);
      HistoryConserves(h[..k]);
      HistoryConserves(h);
      ConservedTotal(Stamps(Fold(h)), |h|);
      ConservedTotal(Stamps(Fold(h[..k])), k);
      forall i | 0 <= i < |d.segment.entries| ensures Normalized(d.segment.entries[i].mutation) {
        LegalStep(h, d.segment.base - 1 + i);
        AcceptedFacts(Fold(h[..d.segment.base - 1 + i]), h[d.segment.base - 1 + i]);
      }
      ReplayAddsRevisions(Loaded(d), d.segment.entries, clock);
    }
  }

  lemma ConservedTotal(s: map<Key, Stamp>, d: nat)
    requires Conserved(s, d)
    ensures Total(s) == d
  {
  }

  /** Crash recovery, exactly: `Open` succeeds with the fold of every appended mutation if and
      only if the snapshot covers everything below the segment base. */
  lemma RecoveryExact(d: Disk, h: History, clock: Time)
    requires Journal(d, h)
    ensures Recover(d, clock).Ok? && Recover(d, clock).value.catalog == Fold(h) <==> Covers(d)
  {
    hide Legal, Fold, Recover;
    if Covers(d) { RecoveryComplete(d, h, clock); } else { GapLosesHistory(d, h, clock); }
  }
}
