/** incremental.go: the watermark delta on top of the overwrite protocol. */
module DeltaSync {
  import opened Rows
  import opened Checkpoint
  import opened Outside
  import opened PartitionInvariant
  import opened Sites
  import opened OverwriteSync

  // ---------- What each save leaves on disk keeps the invariant ----------

  lemma SeededKeepsInv(w: World, d: PartitionRow, i: Identity, m: Option<int>, dirty: bool)
    requires Inv(w, d, true) && d.pendingDelta.None? && d.importedIdentity == Some(i) && i in w.hist
    requires w.mode == TimeWindow && IsMax(w.hist[i], m)
    requires TargetHolds(w.target, w.hist[i]) && OnlyFull(w.target, w.hist[i])
    ensures Inv(w, Seeded(d, m), dirty)
  {
  }

  /** A row from which a delta to `i` may begin. */
  predicate MayBegin(d: PartitionRow, to: int, i: Identity) {
    && d.pendingDelta.None? && d.backupReady && !d.importInProgress && d.watermarkReady
    && d.watermark.Some? && d.watermark.value < to
    && d.importedIdentity.Some? && d.importedIdentity.value.id == i.id
  }

  lemma BegunKeepsInv(w: World, d: PartitionRow, dirty: bool, to: int, i: Identity)
    requires Inv(w, d, dirty) && MayBegin(d, to, i) && i in w.hist && w.mode == TimeWindow
    requires w.cur == Some(i) ==> IsMax(w.hist[i], Some(to))
    ensures Inv(w, DeltaBegun(d, to, i), dirty)
  {
  }

  lemma AcceptedKeepsInv(w: World, d: PartitionRow, dirty: bool, objects: set<string>)
    requires Inv(w, d, dirty) && d.pendingDelta.Some? && !d.pendingDelta.value.backupReady
    requires w.cur == Some(d.pendingDelta.value.identity)
    requires At(w, d.pendingDelta.value.prefix) == Batch(objects,
               After(w.hist[d.pendingDelta.value.identity], d.pendingDelta.value.from, d.pendingDelta.value.to))
    ensures Inv(w, DeltaAccepted(d, objects), dirty)
  {
  }

  lemma StartedKeepsInv(w: World, d: PartitionRow, dirty: bool)
    requires Inv(w, d, dirty) && d.pendingDelta.Some? && d.pendingDelta.value.backupReady && !Started(d)
    ensures Inv(w, DeltaStarted(d), dirty)
  {
  }

  lemma DiscardedKeepsInv(w: World, d: PartitionRow, dirty: bool)
    requires Inv(w, d, dirty) && !Started(d)
    ensures Inv(w, DeltaDiscarded(d), dirty)
  {
  }

  /** Finishing is sound when the target really holds the delta's contents. */
  lemma FinishedKeepsInv(w: World, d: PartitionRow, dirty: bool)
    requires Inv(w, d, dirty) && Started(d) && d.pendingDelta.value.identity in w.hist && w.target.inflight.None?
    requires dirty || TargetHolds(w.target, w.hist[d.pendingDelta.value.identity])
    ensures Inv(w, DeltaFinished(d), dirty)
  {
  }

  /** Submitting the delta: with it in flight the target is still one step from exact. */
  lemma LaunchDeltaKeepsInv(w: World, d: PartitionRow, dirty: bool, x: Statement)
    requires Inv(w, d, dirty) && Started(d) && w.target.inflight.None? && x.Append?
    requires d.pendingDelta.value.identity in w.hist && d.importedIdentity.Some? && d.importedIdentity.value in w.hist
    requires x.rows == After(w.hist[d.pendingDelta.value.identity], d.pendingDelta.value.from, d.pendingDelta.value.to)
    requires dirty || TargetHolds(w.target, w.hist[d.importedIdentity.value])
    ensures Inv(Launched(w, x), d, dirty)
  {
  }

  // ---------- seedWatermark ----------

  /** The target is known to hold the imported contents, or no delta has ever run. */
  ghost predicate Seedable(s: Site, i: Identity)
    reads s
  {
    && s.w.mode == TimeWindow && s.disk.importedIdentity == Some(i) && i in s.w.hist
    && (!s.disk.watermarkReady || (TargetHolds(s.w.target, s.w.hist[i]) && s.w.target.inflight.None?))
  }

  lemma SeedableDrift(a: World, b: World, d: PartitionRow, dirty: bool, i: Identity)
    requires Drift(a, b) && i in a.hist
    ensures i in b.hist && b.hist[i] == a.hist[i] && b.mode == a.mode
    ensures TargetHolds(a.target, a.hist[i]) && a.target.inflight.None? ==>
              TargetHolds(b.target, b.hist[i]) && b.target.inflight.None?
  {
  }

  /** The identity a listing shows is the one the query before it saw. */
  lemma SameAsAsked(a: World, b: World, i: Identity)
    requires Drift(a, b) && i in a.hist && b.cur == Some(i)
    ensures a.cur == Some(i) && i in b.hist && b.hist[i] == a.hist[i]
  {
  }

  /** MAX(time) of the identity's contents: queried, and the source listed after it. */
  method AskMax(s: Site, i: Identity) returns (m: Reply<Option<int>>)
    requires Ready(s, i) && Seedable(s, i)
    modifies s`w, s`faults, s`listed, s`listedAt
    ensures s.Valid() && s.faults >= old(s.faults) && s.since == old(s.since) && s.w.mode == old(s.w.mode)
    ensures Seedable(s, i)
    ensures if m.Ok? then s.w.cur == Some(i) && s.since.cur == Some(i) && IsMax(s.w.hist[i], m.value)
            else Faulted(s) || Moved(s.w, i)
  {
    hide Inv, Past, DriftBut, Drift, SourceDrift, TargetHolds, OnlyFull, IsMax;
    m := s.MaxTime();
    SeedableDrift(old(s.w), s.w, s.disk, s.dirty, i);
    if m.Ok? {
      ghost var asked := s.w;
      var current := s.SourcePartition();
      SeedableDrift(asked, s.w, s.disk, s.dirty, i);
      if current == Ok(Some(i)) {
        SameAsAsked(asked, s.w, i);
        Sandwich(s.since, s.since, s.w, i);
      } else {
        m := Err;
      }
    }
  }

  /** Record MAX(time) as the watermark, if the source still has the identity. */
  method SeedWatermark(s: Site, i: Identity) returns (r: Outcome)
    requires Ready(s, i) && Seedable(s, i)
    modifies s`w, s`faults, s`disk, s`dirty, s`listed, s`listedAt, s.entry
    ensures s.Valid() && s.faults >= old(s.faults) && s.since == old(s.since) && s.w.mode == old(s.w.mode)
    ensures r == Imported || r == Failed || r == NotPersisted
    ensures r != NotPersisted ==> s.Synced()
    ensures r == Failed ==> s.disk == old(s.disk) && s.dirty == old(s.dirty)
    ensures if r == Imported then s.since.cur == Some(i) else Faulted(s) || Moved(s.w, i)
    ensures (s.dirty ==> old(s.dirty)) && s.disk.objects == old(s.disk.objects)
    ensures s.disk.pendingDelta.None? && s.disk.importedIdentity == old(s.disk.importedIdentity)
    ensures r == Imported ==> i in s.w.hist && s.disk == Seeded(old(s.disk), s.disk.watermark)
                              && IsMax(s.w.hist[i], s.disk.watermark) && !s.dirty
  {
    hide Inv, Past, SourceDrift, TargetHolds, OnlyFull, IsMax;
    var m := AskMax(s, i);
    if m.Err? { return Failed; }
    SeedTarget(s.w, s.disk, s.dirty, i);
    DirtyKeepsInv(s.w, s.disk, s.dirty);
    SeededKeepsInv(s.w, s.disk, i, m.value, false);
    SeededKeepsInv(s.w, s.disk, i, m.value, s.dirty);
    s.entry.Seed(m.value);
    r := SaveSeed(s, i, m.value);
  }

  /** Where no delta has ever run, overwrite soundness says what the target holds. */
  lemma SeedTarget(w: World, d: PartitionRow, dirty: bool, i: Identity)
    requires Inv(w, d, dirty) && w.mode == TimeWindow && d.importedIdentity == Some(i) && w.cur == Some(i)
    requires !d.watermarkReady || (i in w.hist && TargetHolds(w.target, w.hist[i]) && w.target.inflight.None?)
    ensures i in w.hist && TargetHolds(w.target, w.hist[i]) && OnlyFull(w.target, w.hist[i])
  {
  }

  /** Save the seeded row; the row and the target agree again once it is on disk. */
  method SaveSeed(s: Site, i: Identity, ghost m: Option<int>) returns (r: Outcome)
    requires s.Valid() && s.entry.Row() == Seeded(s.disk, m) && s.disk.pendingDelta.None?
    requires s.disk.importedIdentity == Some(i) && i in s.w.hist && IsMax(s.w.hist[i], m)
    requires Inv(s.w, s.entry.Row(), s.dirty) && Inv(s.w, s.entry.Row(), false)
    modifies s`w, s`faults, s`disk, s`dirty
    ensures s.Valid() && s.faults >= old(s.faults) && s.w.mode == old(s.w.mode) && s.disk.pendingDelta.None?
    ensures s.disk.importedIdentity == old(s.disk.importedIdentity) && s.disk.objects == old(s.disk.objects)
    ensures s.dirty ==> old(s.dirty)
    ensures r == Imported || (r == NotPersisted && Faulted(s))
    ensures r == Imported ==> s.Synced() && s.disk == Seeded(old(s.disk), m) && !s.dirty
                              && i in s.w.hist && IsMax(s.w.hist[i], m)
  {
    hide Inv, Past, StoreDrift, SourceValid, TargetDrift, IsMax;
    var saved := s.Save();
    QuietDriftKeepsInv(old(s.w), s.w, s.entry.Row(), false);
    if s.disk == s.entry.Row() { s.dirty := false; }
    r := if saved then Imported else NotPersisted;
  }

  /** A row with nothing left to do but to follow the source. */
  predicate Settled(d: PartitionRow, mode: Mode) {
    && d.importedIdentity.Some? && !d.importInProgress && d.pendingDelta.None?
    && (mode == TimeWindow ==> d.watermarkReady)
  }

  // ---------- resumeDelta ----------

  /** What every delta step may rely on and leaves. */
  ghost predicate Pending(s: Site)
    reads s, s.entry
  {
    && s.Valid() && s.Synced() && s.disk.pendingDelta.Some?
    && s.disk.pendingDelta.value.identity in s.since.hist
  }

  /** The rows of the pending batch. */
  ghost function Missing(w: World, delta: DeltaState): Bag
    requires delta.identity in w.hist
  {
    After(w.hist[delta.identity], delta.from, delta.to)
  }

  /** Drop a delta that has not started: the source moved away from its identity. */
  method Discard(s: Site) returns (r: Outcome)
    requires Pending(s) && !Started(s.disk)
    modifies s`w, s`faults, s`disk, s.entry
    ensures s.Valid() && s.faults >= old(s.faults) && s.w.mode == old(s.w.mode)
    ensures r == Failed || r == NotPersisted
    ensures if r == Failed then s.Synced() else Faulted(s)
    ensures Moved(old(s.w), old(s.disk.pendingDelta.value.identity)) ==> Moved(s.w, old(s.disk.pendingDelta.value.identity))
    ensures s.disk == DeltaDiscarded(old(s.disk)) || (r == NotPersisted && s.disk == old(s.disk))
  {
    hide Inv, Past, StoreDrift, SourceDrift, TargetDrift;
    ghost var i := s.disk.pendingDelta.value.identity;
    KnownSince(s, i);
    s.entry.DiscardDelta();
    DiscardedKeepsInv(s.w, s.disk, s.dirty);
    var saved := s.Save();
    if Moved(old(s.w), i) { MovedStays(old(s.w), s.w, i); }
    r := if saved then Failed else NotPersisted;
  }

  /** The last export of the pending batch found no row for it. */
  ghost predicate NothingRead(s: Site)
    reads s
  {
    && s.disk.pendingDelta.Some? && Contents(s.snap).Some?
    && After(Contents(s.snap).value, s.disk.pendingDelta.value.from, s.disk.pendingDelta.value.to) == multiset{}
  }

  /** An advanced watermark has rows to show for it, while the source has the identity. */
  lemma NothingReadMoved(since: World, snap: World, w: World, d: PartitionRow, dirty: bool)
    requires Inv(w, d, dirty) && d.pendingDelta.Some? && d.pendingDelta.value.identity in since.hist
    requires SourceDrift(since, snap) && SourceDrift(snap, w) && Contents(snap).Some?
    requires After(Contents(snap).value, d.pendingDelta.value.from, d.pendingDelta.value.to) == multiset{}
    ensures Moved(w, d.pendingDelta.value.identity)
  {
    var delta := d.pendingDelta.value;
    if w.cur == Some(delta.identity) {
      Sandwich(since, snap, w, delta.identity);
      MaxIsAfter(w.hist[delta.identity], delta.from, delta.to);
    }
  }

  lemma MaxIsAfter(c: Bag, from: int, to: int)
    requires IsMax(c, Some(to)) && from < to
    ensures After(c, from, to) != multiset{}
  {
    var top :| top in c && top.time == to;
    assert After(c, from, to)[top] > 0;
  }

  /** The files of a ready batch are not what was recorded. */
  predicate DeltaLost(w: World, d: PartitionRow) {
    d.pendingDelta.Some? && d.pendingDelta.value.backupReady
    && At(w, d.pendingDelta.value.prefix).files != d.pendingDelta.value.objects
  }

  /** Clear the batch's own prefix, export the rows and list them. */
  method UploadDelta(s: Site) returns (r: Reply<set<string>>)
    requires Pending(s) && !s.disk.pendingDelta.value.backupReady
    modifies s`w, s`faults, s`snap
    ensures s.Valid() && s.faults >= old(s.faults) && s.w.mode == old(s.w.mode)
    ensures r.Ok? ==> s.disk.pendingDelta.value.prefix in s.w.pinned && s.disk.pendingDelta.value.prefix !in s.w.late
    ensures r.Ok? ==> r.value == At(s.w, s.disk.pendingDelta.value.prefix).files && r.value != {}
    ensures r.Err? ==> Faulted(s) || (Moved(s.w, s.disk.pendingDelta.value.identity) && NothingRead(s))
    ensures r.Ok? ==> SourceDrift(s.since, s.snap) && Contents(s.snap).Some?
                      && At(s.w, s.disk.pendingDelta.value.prefix).rows
                         == After(Contents(s.snap).value, s.disk.pendingDelta.value.from, s.disk.pendingDelta.value.to)
  {
    hide Inv, Past, SourceDrift, TargetDrift;
    var delta := s.entry.pendingDelta.value;
    InvParts(s.w, s.disk, s.dirty);
    var cleared := s.ClearDelta(delta.prefix);
    if !cleared { return Err; }
    var exported := s.OutfileDelta(delta.prefix, delta.from, delta.to);
    if !exported { return Err; }
    ghost var written := s.w;
    r := s.List(delta.prefix);
    AtOutsideDrift(written, s.w, {}, delta.prefix);
    if r == Ok({}) {
      if s.faults == old(s.faults) { NothingReadMoved(s.since, s.snap, s.w, s.disk, s.dirty); }
      return Err;
    }
  }

  /** The sandwich for a delta: what was read at `snap` are the rows the batch is for. */
  lemma SandwichedDelta(since: World, snap: World, w: World, delta: DeltaState, objects: set<string>)
    requires delta.identity in since.hist && SourceDrift(since, snap) && SourceDrift(snap, w)
    requires w.cur == Some(delta.identity) && Contents(snap).Some?
    requires At(w, delta.prefix) == Batch(objects, After(Contents(snap).value, delta.from, delta.to))
    ensures delta.identity in w.hist && At(w, delta.prefix) == Batch(objects, Missing(w, delta))
  {
  }

  /** The batch of `a` is ready in `b`, and nothing else has changed. */
  predicate DeltaAcceptedFrom(a: PartitionRow, b: PartitionRow) {
    a.pendingDelta.Some? && b.pendingDelta.Some? && b == DeltaAccepted(a, b.pendingDelta.value.objects)
  }

  /** Record the exported batch as ready. */
  method AcceptBatch(s: Site, objects: set<string>) returns (r: Outcome)
    requires Pending(s) && !s.disk.pendingDelta.value.backupReady
    requires s.w.cur == Some(s.disk.pendingDelta.value.identity) && s.disk.pendingDelta.value.identity in s.w.hist
    requires At(s.w, s.disk.pendingDelta.value.prefix) == Batch(objects, Missing(s.w, s.disk.pendingDelta.value))
    modifies s`w, s`faults, s`disk, s.entry
    ensures s.Valid() && s.faults >= old(s.faults) && s.w.mode == old(s.w.mode) && s.since == old(s.since)
    ensures r == Imported || (r == NotPersisted && Faulted(s))
    ensures r == Imported ==> s.Synced() && DeltaAcceptedFrom(old(s.disk), s.disk)
    ensures s.disk == old(s.disk) || DeltaAcceptedFrom(old(s.disk), s.disk)
  {
    hide Inv, Past, StoreDrift, SourceDrift, TargetDrift;
    AcceptedKeepsInv(s.w, s.disk, s.dirty, objects);
    s.entry.AcceptDelta(objects);
    var saved := s.Save();
    r := if saved then Imported else NotPersisted;
  }

  /** The backup half of resumeDelta; Imported here means that the batch is ready. */
  method BackUpDelta(s: Site) returns (r: Outcome)
    requires Pending(s) && !s.disk.pendingDelta.value.backupReady
    modifies s`w, s`faults, s`disk, s`snap, s`listed, s`listedAt, s.entry
    ensures s.Valid() && s.faults >= old(s.faults) && s.w.mode == old(s.w.mode) && s.since == old(s.since)
    ensures r == Imported || r == Failed || r == NotPersisted
    ensures r != NotPersisted ==> s.Synced()
    ensures s.disk == old(s.disk) || s.disk == DeltaDiscarded(old(s.disk)) || DeltaAcceptedFrom(old(s.disk), s.disk)
    ensures r != Imported ==>
              Faulted(s) || (Moved(s.w, old(s.disk.pendingDelta.value.identity)) && (s.disk == DeltaDiscarded(old(s.disk)) || NothingRead(s)))
    ensures r == Imported ==> DeltaAcceptedFrom(old(s.disk), s.disk)
  {
    hide Inv, Past, StoreDrift, SourceDrift, TargetDrift, DeltaAcceptedFrom;
    PendingStarted(s.w, s.disk, s.dirty);
    var objects := UploadDelta(s);
    if objects.Err? { return Failed; }
    ghost var listed := s.w;
    var delta := s.entry.pendingDelta.value;
    var current := s.SourcePartition();
    if current.Err? { return Failed; }
    if current.value != Some(delta.identity) {
      r := Discard(s);
      return;
    }
    AtOutsideDrift(listed, s.w, {}, delta.prefix);
    SandwichedDelta(s.since, s.snap, s.w, delta, objects.value);
    r := AcceptBatch(s, objects.value);
  }

  /** The batch is still whole and the source still has its identity. */
  ghost predicate DeltaImportable(s: Site)
    reads s
  {
    && s.disk.pendingDelta.Some? && s.disk.pendingDelta.value.backupReady && !Started(s.disk)
    && s.disk.pendingDelta.value.identity in s.w.hist
    && s.disk.pendingDelta.value.prefix in s.w.pinned && s.disk.pendingDelta.value.prefix !in s.w.late
    && At(s.w, s.disk.pendingDelta.value.prefix).rows == Missing(s.w, s.disk.pendingDelta.value)
    && s.listed == Some(s.disk.pendingDelta.value.identity)
  }

  /** Before the import: the objects are unchanged, no earlier process may have started
      this very import, and the source still has the identity. */
  method CheckDelta(s: Site) returns (r: Outcome)
    requires Pending(s) && s.disk.pendingDelta.value.backupReady
    modifies s`w, s`faults, s`disk, s`listed, s`listedAt, s.entry
    ensures s.Valid() && s.faults >= old(s.faults) && s.w.mode == old(s.w.mode) && s.since == old(s.since)
    ensures r == Imported || r == Failed || r == NotPersisted
    ensures r != NotPersisted ==> s.Synced()
    ensures Started(old(s.disk)) ==> r == Failed
    ensures r == Imported || Started(old(s.disk)) ==> s.disk == old(s.disk)
    ensures s.disk == old(s.disk) || s.disk == DeltaDiscarded(old(s.disk))
    ensures r != Imported ==>
              Faulted(s) || Started(old(s.disk)) || DeltaLost(s.w, s.disk)
              || (Moved(s.w, old(s.disk.pendingDelta.value.identity)) && s.disk == DeltaDiscarded(old(s.disk)))
    ensures r == Imported ==> DeltaImportable(s) && s.since.cur == Some(s.disk.pendingDelta.value.identity)
  {
    hide Inv, Past, StoreDrift, SourceDrift, TargetDrift;
    var delta := s.entry.pendingDelta.value;
    var actual := s.List(delta.prefix);
    if actual.Err? || actual.value != delta.objects { return Failed; }
    if delta.importStarted { return Failed; }
    BatchParts(s.w, s.disk, s.dirty);
    s.Pin(delta.prefix);
    ghost var pinned := s.w;
    var current := s.SourcePartition();
    if current.Err? { return Failed; }
    if current.value != Some(delta.identity) {
      r := Discard(s);
      return;
    }
    AtOutsideDrift(pinned, s.w, {}, delta.prefix);
    MissingDrift(pinned, s.w, delta);
    Sandwich(s.since, s.since, s.w, delta.identity);
    r := Imported;
  }

  /** A ready batch whose objects are all there. */
  lemma BatchParts(w: World, d: PartitionRow, dirty: bool)
    requires Inv(w, d, dirty) && d.pendingDelta.Some? && d.pendingDelta.value.backupReady
    ensures d.pendingDelta.value.identity in w.hist && d.pendingDelta.value.prefix !in w.late
    ensures At(w, d.pendingDelta.value.prefix).files == d.pendingDelta.value.objects ==>
              At(w, d.pendingDelta.value.prefix).rows == Missing(w, d.pendingDelta.value)
  {
  }

  lemma MissingDrift(a: World, b: World, delta: DeltaState)
    requires Drift(a, b) && delta.identity in a.hist
    ensures delta.identity in b.hist && Missing(b, delta) == Missing(a, delta) && b.hist[delta.identity] == a.hist[delta.identity]
  {
  }

  /** No full statement is at work, and the target holds what the row says it imported. */
  ghost predicate AtImported(w: World, d: PartitionRow, dirty: bool) {
    d.importedIdentity.Some? && d.importedIdentity.value in w.hist
    && (dirty || (TargetHolds(w.target, w.hist[d.importedIdentity.value])
                  && OnlyFull(w.target, w.hist[d.importedIdentity.value])))
  }

  lemma ExactAtImported(w: World, d: PartitionRow, dirty: bool)
    requires Inv(w, d, dirty) && d.pendingDelta.Some? && !Started(d)
    ensures AtImported(w, d, dirty)
  {
  }

  lemma AtImportedDrift(a: World, b: World, d: PartitionRow, dirty: bool)
    requires Drift(a, b) && Inv(a, d, dirty) && AtImported(a, d, dirty)
    ensures AtImported(b, d, dirty)
  {
    TargetDriftKeepsFull(a.target, b.target, a.autoMatches, a.hist[d.importedIdentity.value]);
  }

  /** The batch stays importable while the world moves. */
  lemma DeltaImportableDrift(a: World, b: World, delta: DeltaState)
    requires Drift(a, b) && delta.identity in a.hist && delta.prefix in a.pinned && delta.prefix !in a.late
    ensures delta.identity in b.hist && delta.prefix in b.pinned && delta.prefix !in b.late
    ensures At(b, delta.prefix) == At(a, delta.prefix) && Missing(b, delta) == Missing(a, delta)
  {
  }

  /** A started delta whose statement has not been submitted yet. */
  ghost predicate Marked(s: Site)
    reads s
  {
    && Started(s.disk) && s.disk.pendingDelta.value.backupReady
    && s.disk.pendingDelta.value.identity in s.w.hist && s.listed == Some(s.disk.pendingDelta.value.identity)
    && s.disk.pendingDelta.value.prefix in s.w.pinned && s.disk.pendingDelta.value.prefix !in s.w.late
    && At(s.w, s.disk.pendingDelta.value.prefix).rows == Missing(s.w, s.disk.pendingDelta.value)
    && AtImported(s.w, s.disk, s.dirty)
  }

  /** Mark the import as started, durably, before anything is submitted. */
  method MarkStarted(s: Site) returns (persisted: bool)
    requires Pending(s) && DeltaImportable(s)
    modifies s`w, s`faults, s`disk, s.entry
    ensures s.Valid() && s.faults >= old(s.faults) && s.w.mode == old(s.w.mode) && s.since == old(s.since)
    ensures s.disk == DeltaStarted(old(s.disk)) || (!persisted && s.disk == old(s.disk))
    ensures if persisted then s.Synced() && Marked(s) else Faulted(s)
  {
    hide Inv, Past, StoreDrift, SourceDrift, TargetDrift, AtImported, TargetHolds, OnlyFull;
    ghost var delta := s.disk.pendingDelta.value;
    ExactAtImported(s.w, s.disk, s.dirty);
    StartedKeepsInv(s.w, s.disk, s.dirty);
    s.entry.StartDelta();
    persisted := s.Save();
    DeltaImportableDrift(old(s.w), s.w, delta);
    AtImportedDrift(old(s.w), s.w, old(s.disk), s.dirty);
    SameImported(s.w, old(s.disk), DeltaStarted(old(s.disk)), s.dirty);
  }

  lemma SameImported(w: World, d: PartitionRow, e: PartitionRow, dirty: bool)
    requires AtImported(w, d, dirty) && e.importedIdentity == d.importedIdentity
    ensures AtImported(w, e, dirty)
  {
  }

  /** Earlier statements on the partition settle before the INSERT. */
  method SettleTarget(s: Site)
    requires Pending(s) && Marked(s)
    modifies s`w, s`faults
    ensures s.Valid() && s.faults >= old(s.faults) && s.w.mode == old(s.w.mode) && s.since == old(s.since)
    ensures Marked(s) && s.w.target.inflight.None?
  {
    hide Inv, Past, StoreDrift, SourceDrift, TargetDrift, AtImported, TargetHolds, OnlyFull;
    s.Settle();
    DeltaImportableDrift(old(s.w), s.w, s.disk.pendingDelta.value);
    AtImportedDrift(old(s.w), s.w, s.disk, s.dirty);
  }

  /** The delta appended to the old contents makes the new ones. */
  lemma AppendGives(pre: World, x: Statement, d: PartitionRow, dirty: bool)
    requires Inv(pre, d, dirty) && !dirty && Started(d) && AtImported(pre, d, dirty) && pre.target.inflight.None?
    requires d.pendingDelta.value.identity in pre.hist && x == Append(Missing(pre, d.pendingDelta.value))
    ensures var t := Committed(pre, x).target;
            t.inflight.None? && (t.dropped || TargetHolds(t, pre.hist[d.pendingDelta.value.identity]))
  {
    var delta := d.pendingDelta.value;
    DeltaCompletes(pre.hist[d.importedIdentity.value], pre.hist[delta.identity], delta.from, delta.to);
  }

  lemma AppendCompletes(pre: World, x: Statement, w: World, d: PartitionRow, dirty: bool)
    requires Inv(pre, d, dirty) && !dirty && Started(d) && AtImported(pre, d, dirty) && pre.target.inflight.None?
    requires d.pendingDelta.value.identity in pre.hist && x == Append(Missing(pre, d.pendingDelta.value))
    requires Drift(Committed(pre, x), w)
    ensures d.pendingDelta.value.identity in w.hist && w.target.inflight.None?
    ensures w.target.dropped || TargetHolds(w.target, w.hist[d.pendingDelta.value.identity])
  {
    AppendGives(pre, x, d, dirty);
    hide Inv, Started, AtImported, Missing, TargetHolds, Committed;
    assert Committed(pre, x).hist == pre.hist by { SameHistory(pre, x); }
    if Committed(pre, x).target.dropped {
      SettledDrift(Committed(pre, x), w);
    } else {
      HoldsStays(Committed(pre, x), w, d.pendingDelta.value.identity);
    }
    KeepsContents(pre, x, w, d.pendingDelta.value.identity);
  }

  lemma SameHistory(w: World, x: Statement)
    ensures Committed(w, x).hist == w.hist
  {
  }

  lemma CommittedSettles(pre: World, x: Statement, w: World)
    requires Drift(Committed(pre, x), w)
    ensures w.target.inflight.None?
  {
  }

  /** The labelled INSERT, submitted once. */
  method SubmitDelta(s: Site) returns (ok: bool)
    requires Pending(s) && Marked(s) && s.w.target.inflight.None?
    modifies s`w, s`faults, s`dirty, s`log, s`fulls, s`excused
    ensures s.Valid() && s.faults >= old(s.faults) && s.w.mode == old(s.w.mode) && s.since == old(s.since) && s.disk == old(s.disk)
    ensures s.fulls == old(s.fulls) && s.excused == old(s.excused)
    ensures s.log != old(s.log) && AppendedOnce(old(s.log), s.log)
    ensures s.log[|s.log| - 1].statement.rows == Missing(old(s.w), s.disk.pendingDelta.value)
    ensures s.dirty == old(s.dirty) && s.disk.pendingDelta.value.identity in s.w.hist
    ensures if ok then s.w.target.inflight.None? else Faulted(s)
    ensures ok && !s.dirty && !s.w.target.dropped ==>
              TargetHolds(s.w.target, s.w.hist[s.disk.pendingDelta.value.identity])
  {
    hide Inv, Past, StoreDrift, SourceDrift, TargetDrift;
    ghost var pre := s.w;
    var delta := s.entry.pendingDelta.value;
    ghost var x := Append(Missing(s.w, delta));
    PendingStarted(s.w, s.disk, s.dirty);
    LaunchDeltaKeepsInv(s.w, s.disk, s.dirty, x);
    ok := s.Exec(AppendKind, delta.prefix, false, pre);
    KeepsContents(pre, x, s.w, delta.identity);
    if ok { CommittedSettles(pre, x, s.w); }
    if ok && !s.dirty { AppendCompletes(pre, x, s.w, s.disk, s.dirty); }
  }

  lemma ExcusePast(w: World, initial: Option<Bag>, excused: bool)
    requires Past(w.mode, w.autoMatches, w.hist, w.target, initial, excused) && w.target.dropped && w.target.inflight.None?
    ensures Past(w.mode, w.autoMatches, w.hist, w.target, initial, true)
  {
  }

  /** A delta is about to be recorded onto a target that may have been dropped. */
  ghost method ExcuseDrop(s: Site)
    requires s.Valid() && s.w.target.inflight.None?
    modifies s`dirty, s`excused
    ensures s.Valid()
    ensures if s.w.target.dropped then s.dirty && s.excused else s.dirty == old(s.dirty) && s.excused == old(s.excused)
  {
    hide Inv, Past;
    if s.w.target.dropped {
      DirtyKeepsInv(s.w, s.disk, s.dirty);
      ExcusePast(s.w, s.initial, s.excused);
      s.dirty, s.excused := true, true;
    }
  }

  /** The watermark is the maximum time of the imported identity's contents. */
  ghost predicate Topped(s: Site)
    reads s
  {
    s.disk.importedIdentity.Some? && s.disk.importedIdentity.value in s.w.hist
    && IsMax(s.w.hist[s.disk.importedIdentity.value], s.disk.watermark)
  }

  lemma FinishedTop(a: World, b: World, d: PartitionRow, dirty: bool)
    requires Inv(a, d, dirty) && Drift(a, b) && d.pendingDelta.Some? && d.pendingDelta.value.backupReady
    ensures d.pendingDelta.value.identity in b.hist
    ensures IsMax(b.hist[d.pendingDelta.value.identity], Some(d.pendingDelta.value.to))
  {
  }

  /** finishDelta: the delta's identity is imported and its end is the new watermark. */
  method FinishDelta(s: Site) returns (r: Outcome)
    requires Pending(s) && Started(s.disk) && s.w.target.inflight.None?
    requires s.disk.pendingDelta.value.identity in s.w.hist && s.disk.pendingDelta.value.backupReady
    requires s.dirty || s.w.target.dropped
             || TargetHolds(s.w.target, s.w.hist[s.disk.pendingDelta.value.identity])
    modifies s`w, s`faults, s`disk, s`dirty, s`excused, s.entry
    ensures s.Valid() && s.faults >= old(s.faults) && s.w.mode == old(s.w.mode) && s.since == old(s.since)
    ensures r == Imported || (r == NotPersisted && Faulted(s))
    ensures r == Imported ==> Topped(s)
    ensures r == Imported ==> s.Synced()
    ensures s.disk == DeltaFinished(old(s.disk)) || (r == NotPersisted && s.disk == old(s.disk))
    ensures (s.dirty ==> old(s.dirty) || s.excused) && (old(s.excused) ==> s.excused)
  {
    hide Inv, Past, Drift, TargetHolds;
    ExcuseDrop(s);
    FinishedKeepsInv(s.w, s.disk, s.dirty);
    s.entry.FinishDelta();
    var saved := s.Save();
    FinishedTop(old(s.w), s.w, old(s.disk), old(s.dirty));
    DriftKeepsMode(old(s.w), s.w);
    r := if saved then Imported else NotPersisted;
  }

  /** From the durable mark on: wait for earlier statements, insert, record. */
  method DeliverDelta(s: Site) returns (r: Outcome)
    requires Pending(s) && Marked(s)
    modifies s`w, s`faults, s`disk, s`dirty, s`log, s`fulls, s`excused, s.entry
    ensures s.Valid() && s.faults >= old(s.faults) && s.w.mode == old(s.w.mode) && s.since == old(s.since)
    ensures r == Imported || r == Failed || r == NotPersisted
    ensures r != NotPersisted ==> s.Synced()
    ensures s.log != old(s.log) && AppendedOnce(old(s.log), s.log)
    ensures s.disk == old(s.disk) || s.disk == DeltaFinished(old(s.disk))
    ensures if r == Imported then s.disk == DeltaFinished(old(s.disk)) && Topped(s) else Faulted(s)
    ensures (s.dirty ==> old(s.dirty) || s.excused) && (old(s.excused) ==> s.excused) && s.fulls == old(s.fulls)
  {
    hide Inv, Past, Drift, TargetHolds, Announced, Site.Valid, Topped, AtImported;
    SettleTarget(s);
    r := Failed;
    var ran := SubmitDelta(s);
    if ran { r := FinishDelta(s); }
  }

  /** The import half of resumeDelta, from a batch that is ready. */
  method ImportDelta(s: Site) returns (r: Outcome)
    requires Pending(s) && s.disk.pendingDelta.value.backupReady
    modifies s`w, s`faults, s`disk, s`dirty, s`log, s`fulls, s`excused, s`listed, s`listedAt, s`snap, s.entry
    ensures s.Valid() && s.faults >= old(s.faults) && s.w.mode == old(s.w.mode) && s.since == old(s.since)
    ensures r == Imported || r == Failed || r == NotPersisted
    ensures r != NotPersisted ==> s.Synced()
    ensures Started(old(s.disk)) ==> r == Failed && s.disk == old(s.disk) && s.log == old(s.log)
    ensures DeltaRow(old(s.disk), s.disk, s.log != old(s.log), r)
    ensures AppendedOnce(old(s.log), s.log)
    ensures r == Imported ==> Topped(s) && s.since.cur == s.disk.importedIdentity && Settled(s.disk, TimeWindow)
    ensures r != Imported ==>
              Faulted(s) || Started(old(s.disk)) || DeltaLost(s.w, s.disk) || Moved(s.w, old(s.disk.pendingDelta.value.identity))
    ensures (s.dirty ==> old(s.dirty) || s.excused) && (old(s.excused) ==> s.excused) && s.fulls == old(s.fulls)
  {
    hide Inv, Past, Drift, TargetHolds, DeltaImportable, Announced, Site.Valid, DeltaLost, Moved, Topped, Marked;
    PendingOf(s);
    r := CheckDelta(s);
    if r == Imported {
      var persisted := MarkStarted(s);
      r := NotPersisted;
      if persisted { r := DeliverDelta(s); }
    }
  }

  /** How a delta's row may end: the same, discarded unstarted, started, or finished; and
      a statement went out only if the row is started or finished. */
  ghost predicate DeltaRow(a: PartitionRow, b: PartitionRow, submitted: bool, r: Outcome) {
    a.pendingDelta.Some?
    && (|| b == a || (!Started(a) && b == DeltaDiscarded(a))
        || b == DeltaStarted(a) || b == DeltaFinished(DeltaStarted(a)))
    && (submitted ==> b == DeltaStarted(a) || b == DeltaFinished(a))
    && (r == Imported ==> submitted && b == DeltaFinished(a))
  }

  /** At most one delta INSERT was submitted. */
  ghost predicate AppendedOnce(before: seq<Write>, after: seq<Write>) {
    after == before || exists x: Write :: after == before + [x] && x.statement.Append?
  }

  /** resumeDelta. A batch that is not ready is exported again; one whose import has
      started is left exactly as it is. */
  method ResumeDelta(s: Site) returns (r: Outcome)
    requires Pending(s)
    modifies s`w, s`faults, s`disk, s`dirty, s`log, s`fulls, s`excused, s`listed, s`listedAt, s`snap, s.entry
    ensures s.Valid() && s.faults >= old(s.faults) && s.w.mode == old(s.w.mode) && s.since == old(s.since)
    ensures r == Imported || r == Failed || r == NotPersisted
    ensures r != NotPersisted ==> s.Synced()
    ensures Started(old(s.disk)) ==> r == Failed && s.disk == old(s.disk) && s.log == old(s.log)
    ensures AppendedOnce(old(s.log), s.log)
    ensures r == Imported ==> Topped(s) && s.since.cur == s.disk.importedIdentity && Settled(s.disk, TimeWindow)
    ensures r != Imported ==>
              Faulted(s) || Started(old(s.disk)) || DeltaLost(s.w, s.disk) || Moved(s.w, old(s.disk.pendingDelta.value.identity))
    ensures r == Imported ==> s.disk.pendingDelta.None? && s.log != old(s.log)
                              && s.disk.importedIdentity == Some(old(s.disk.pendingDelta.value.identity))
                              && s.disk.watermark == Some(old(s.disk.pendingDelta.value.to))
    ensures (s.dirty ==> old(s.dirty) || s.excused) && (old(s.excused) ==> s.excused) && s.fulls == old(s.fulls)
  {
    hide Inv, Past, StoreDrift, SourceDrift, TargetDrift, Announced;
    PendingStarted(s.w, s.disk, s.dirty);
    if !s.entry.pendingDelta.value.backupReady {
      r := BackUpDelta(s);
      if r != Imported { return; }
    }
    r := ImportDelta(s);
  }

  lemma PendingStarted(w: World, d: PartitionRow, dirty: bool)
    requires Inv(w, d, dirty) && d.pendingDelta.Some?
    ensures Started(d) ==> d.pendingDelta.value.backupReady
    ensures d.pendingDelta.value.identity in w.hist && w.mode == TimeWindow
  {
  }

  /** startDelta: record the batch, then carry it out. */
  method StartDelta(s: Site, i: Identity, to: int) returns (r: Outcome)
    requires Ready(s, i) && MayBegin(s.disk, to, i) && i in s.w.hist && s.w.mode == TimeWindow
    requires s.w.cur == Some(i) ==> IsMax(s.w.hist[i], Some(to))
    modifies s`w, s`faults, s`disk, s`dirty, s`log, s`fulls, s`excused, s`listed, s`listedAt, s`snap, s.entry
    ensures s.Valid() && s.faults >= old(s.faults) && s.w.mode == old(s.w.mode) && s.since == old(s.since)
    ensures r == Imported || r == Failed || r == NotPersisted
    ensures r != NotPersisted ==> s.Synced()
    ensures AppendedOnce(old(s.log), s.log)
    ensures r == Imported ==> Topped(s) && s.since.cur == Some(i) && Settled(s.disk, TimeWindow)
    ensures r != Imported ==> Faulted(s) || DeltaLost(s.w, s.disk) || Moved(s.w, i)
    ensures r == Imported ==> s.disk.pendingDelta.None? && s.log != old(s.log)
                              && s.disk.importedIdentity == Some(i) && s.disk.watermark == Some(to)
    ensures (s.dirty ==> old(s.dirty) || s.excused) && (old(s.excused) ==> s.excused) && s.fulls == old(s.fulls)
  {
    hide Inv, Past, StoreDrift, SourceDrift, TargetDrift, Announced;
    BegunKeepsInv(s.w, s.disk, s.dirty, to, i);
    s.entry.BeginDelta(to, i);
    var saved := s.Save();
    if !saved { return NotPersisted; }
    r := ResumeDelta(s);
  }

  // ---------- syncPartitionByMode ----------

  /** A statement other than a delta's was submitted. */
  ghost predicate FullSent(before: seq<Write>, after: seq<Write>) {
    exists x: Write :: after == before + [x] && !x.statement.Append?
  }

  lemma WroteIsFull(before: seq<Write>, after: seq<Write>, c: Bag)
    requires WroteOnly(before, after, c) && after != before
    ensures FullSent(before, after)
  {
  }

  /** However a call ends, the row stays exact unless a full import was submitted or
      recorded, or a delta was recorded onto a target that someone had dropped. */
  twostate predicate Excusing(s: Site)
    reads s
  {
    && old(s.fulls) <= s.fulls
    && (s.dirty ==> old(s.dirty) || s.excused || s.fulls > old(s.fulls))
    && (s.fulls == old(s.fulls) && old(s.excused) ==> s.excused)
  }

  /** At most one statement was submitted. */
  ghost predicate OneWrite(before: seq<Write>, after: seq<Write>) {
    after == before || exists x: Write :: after == before + [x]
  }

  /** A full import followed by a new watermark. If the second part fails, the row may
      carry the imported identity beside an older watermark. */
  method FullThenSeed(s: Site, i: Identity) returns (r: Outcome)
    requires Ready(s, i) && s.w.mode == TimeWindow && (s.disk.watermarkReady ==> !Skips(s.disk, i))
    modifies s`w, s`faults, s`disk, s`dirty, s`log, s`fulls, s`excused, s`listed, s`listedAt, s`snap, s.entry
    ensures s.Valid() && s.faults >= old(s.faults) && s.w.mode == TimeWindow && s.disk.pendingDelta.None? && s.since == old(s.since)
    ensures r == Imported || r == Failed || r == NotPersisted
    ensures r != NotPersisted ==> s.Synced()
    ensures OneWrite(old(s.log), s.log)
    ensures if r == Imported then s.since.cur == Some(i) && Topped(s) && Settled(s.disk, TimeWindow) else Faulted(s) || Hindered(s.w, s.disk, s.auto, i)
    ensures r == Imported && !Skips(old(s.disk), i) ==> s.fulls > old(s.fulls)
    ensures Replaced(old(s.log), s.log) && old(s.w.target.inflight).None? ==> old(s.w.target.rows).Some?
    ensures r == Imported ==> !s.dirty && s.disk.importedIdentity == Some(i) && s.disk.watermarkReady
    ensures (s.dirty ==> old(s.dirty) || s.fulls > old(s.fulls)) && old(s.fulls) <= s.fulls
    ensures s.fulls == old(s.fulls) ==> s.log == old(s.log) && s.excused == old(s.excused)
    ensures s.fulls > old(s.fulls) ==> FullSent(old(s.log), s.log) || s.disk.objects == {}
  {
    hide Inv, Past, StoreDrift, SourceDrift, TargetDrift, Announced, SourceValid;
    r := SyncPartition(s, i, false);
    if s.log != old(s.log) { WroteIsFull(old(s.log), s.log, s.w.hist[i]); }
    if r == Imported || r == Unchanged { r := SeedWatermark(s, i); }
  }

  /** A row that is up to date but for a newer version of the same partition. */
  predicate DeltaDue(d: PartitionRow, i: Identity) {
    && d.pendingDelta.None? && d.backupReady && !d.importInProgress && d.watermarkReady
    && d.importedIdentity.Some? && d.importedIdentity != Some(i) && d.importedIdentity.value.id == i.id
  }

  /** The maximum time of `c` is later than the watermark. */
  ghost predicate Advanced(d: PartitionRow, c: Bag) {
    d.watermark.Some? && exists v :: v > d.watermark.value && IsMax(c, Some(v))
  }

  /** What was asked before decides, if the source still had the identity after it. */
  lemma SameMaximum(asked: World, w: World, d: PartitionRow, i: Identity, m: Option<int>, top: Option<int>)
    requires SourceDrift(asked, w) && i in asked.hist && IsMax(w.hist[i], top)
    requires asked.cur.Some? && asked.cur.value in asked.hist && IsMax(asked.hist[asked.cur.value], m)
    requires asked.cur == Some(i) || (d.watermark.Some? && top.Some? && top.value > d.watermark.value)
    ensures i in w.hist
    ensures Advanced(d, w.hist[i]) <==> d.watermark.Some? && top.Some? && top.value > d.watermark.value
    ensures asked.cur == Some(i) ==> top == m
  {
  }

  /** The choice between a delta and a full import, once the target is known to exist. */
  method Advance(s: Site, i: Identity) returns (r: Outcome)
    requires Ready(s, i) && s.w.mode == TimeWindow && !Skips(s.disk, i)
    requires s.disk.backupReady && !s.disk.importInProgress && s.disk.watermarkReady
    requires s.disk.importedIdentity.Some? && s.disk.importedIdentity.value.id == i.id
    modifies s`w, s`faults, s`disk, s`dirty, s`log, s`fulls, s`excused, s`listed, s`listedAt, s`snap, s`since, s.entry
    ensures s.Valid() && s.faults >= old(s.faults) && s.w.mode == TimeWindow && s.since == old(s.since)
    ensures r == Imported || r == Failed || r == NotPersisted
    ensures r != NotPersisted ==> s.Synced()
    ensures OneWrite(old(s.log), s.log)
    ensures r == Imported ==> i in s.w.hist && (s.fulls == old(s.fulls) <==> Advanced(old(s.disk), s.w.hist[i]))
    ensures r != Imported ==> Faulted(s) || Hindered(s.w, s.disk, s.auto, i) || DeltaLost(s.w, s.disk)
    ensures r == Imported ==> s.since.cur == Some(i) && Settled(s.disk, TimeWindow)
    ensures r == Imported ==> s.disk.importedIdentity == Some(i) && s.disk.pendingDelta.None?
                              && (s.dirty ==> old(s.dirty) || s.excused)
    ensures s.faults >= old(s.faults) && Excusing(s) && (s.fulls > old(s.fulls) ==> FullSent(old(s.log), s.log) || s.disk.objects == {})
  {
    hide Inv, Past, Drift, SourceDrift, Announced, SourceValid, IsMax, Site.Valid, Replaced, Lost, Homeless;
    ghost var start, row := s.since, s.disk;
    var newMax := s.MaxTime();
    DriftKeepsMode(old(s.w), s.w);
    KnownSince(s, i);
    if newMax.Err? { return Failed; }
    var entry := s.entry;
    ghost var asked := s.w;
    Rebase(s);
    if entry.watermark.Some? && newMax.value.Some? && newMax.value.value > entry.watermark.value {
      r := StartDelta(s, i, newMax.value.value);
    } else {
      r := FullThenSeed(s, i);
    }
    Unbase(s, start, asked);
    if r == Imported { SameMaximum(asked, s.w, row, i, newMax.value, s.disk.watermark); }
  }

  /** What is known now stays known. */
  ghost method Rebase(s: Site)
    requires s.Valid()
    modifies s`since
    ensures s.Valid() && s.since == s.w && SourceDrift(old(s.since), s.since)
  {
    hide Inv, Past;
    s.since := s.w;
  }

  ghost method Unbase(s: Site, start: World, mid: World)
    requires s.Valid() && s.since == mid && SourceDrift(start, mid)
    modifies s`since
    ensures s.Valid() && s.since == start && SourceDrift(mid, s.w)
    ensures mid.cur.Some? && mid.cur.value in start.hist ==> start.cur == mid.cur
  {
    hide Inv, Past;
    SourceDriftTransitive(start, mid, s.w);
    s.since := start;
  }

  /** A newer version of the same partition is brought by a delta exactly if the maximum
      time has advanced and the target is there: without an advance by a full import, and
      with one never by replacing a target that is there. */
  twostate predicate ChoseRight(s: Site, i: Identity)
    reads s
  {
    DeltaDue(old(s.disk), i) && old(s.w.target.inflight).None? ==>
      && i in s.w.hist
      && if s.fulls == old(s.fulls) then Advanced(old(s.disk), s.w.hist[i]) && old(s.w.target.rows).Some?
         else !Advanced(old(s.disk), s.w.hist[i]) || !Replaced(old(s.log), s.log)
  }

  /** Why an attempt may fail: a foreign call did, it is hindered, a delta had been started
      before, a delta's files are not all there, or the source moved on from the pending
      delta's identity. */
  twostate predicate Stopped(s: Site, i: Identity)
    reads s
  {
    || Faulted(s) || Hindered(s.w, s.disk, s.auto, i)
    || Started(old(s.disk)) || DeltaLost(s.w, s.disk)
    || (old(s.disk.pendingDelta).Some? && Moved(s.w, old(s.disk.pendingDelta.value.identity)))
  }

  /** What an attempt that succeeds has imported: a pending delta, or what was listed. */
  function Wanted(d: PartitionRow, i: Identity): Identity {
    if d.pendingDelta.Some? then d.pendingDelta.value.identity else i
  }

  /** A newer version of an imported partition: a delta, or a full import where the target
      is gone or the maximum has not advanced. */
  method BringNewer(s: Site, i: Identity) returns (r: Outcome)
    requires Ready(s, i) && s.w.mode == TimeWindow && DeltaDue(s.disk, i)
    modifies s`w, s`faults, s`disk, s`dirty, s`log, s`fulls, s`excused, s`listed, s`listedAt, s`snap, s`since, s.entry
    ensures s.Valid() && s.w.mode == TimeWindow && s.since == old(s.since)
    ensures r == Imported || r == Failed || r == NotPersisted
    ensures r != NotPersisted ==> s.Synced()
    ensures OneWrite(old(s.log), s.log)
    ensures if r == Imported then ChoseRight(s, i) && s.since.cur == Some(i) && s.disk.importedIdentity == Some(i)
                                  && Settled(s.disk, TimeWindow)
            else Stopped(s, i)
    ensures r == Imported && s.dirty ==> old(s.dirty) || s.excused
    ensures s.faults >= old(s.faults) && Excusing(s) && (s.fulls > old(s.fulls) ==> FullSent(old(s.log), s.log) || s.disk.objects == {})
  {
    hide Inv, Past, SourceDrift, Announced, Site.Valid, FullSent, Drift, Lost, Homeless, Started, Advanced, IsMax;
    var found := s.TargetPartition();
    ghost var looked := s.w;
    DriftKeepsMode(old(s.w), looked);
    OneLook(old(s.w), looked);
    r := Failed;
    if found == Ok(false) {
      r := FullThenSeed(s, i);
    } else if found.Ok? {
      r := Advance(s, i);
    }
  }

  /** syncPartitionByMode in time-window mode. */
  method SyncByWatermark(s: Site, i: Identity) returns (r: Outcome)
    requires s.Valid() && s.Synced() && i in s.w.hist && s.since == s.w && s.w.mode == TimeWindow
    modifies s`w, s`faults, s`disk, s`dirty, s`log, s`fulls, s`excused, s`listed, s`listedAt, s`snap, s`since, s.entry
    ensures s.Valid() && s.w.mode == TimeWindow && s.since == old(s.since)
    ensures r != NotPersisted ==> s.Synced()
    ensures OneWrite(old(s.log), s.log)
    ensures Started(old(s.disk)) ==> r == Failed && s.disk == old(s.disk) && s.log == old(s.log)
    ensures r == Unchanged ==> s.disk == old(s.disk) && s.log == old(s.log) && Skips(s.disk, i)
    ensures old(s.w.target.rows).None? && old(s.w.target.inflight).None? && old(s.disk.objects) != {} ==> r != Unchanged
    ensures r == Imported ==> s.disk.importedIdentity == s.since.cur == Some(Wanted(old(s.disk), i))
    ensures r == Imported || r == Unchanged ==> Settled(s.disk, TimeWindow)
    ensures r == Imported && s.dirty ==> old(s.dirty) || s.excused
    ensures r == Imported ==> ChoseRight(s, i)
    ensures r == Failed || r == NotPersisted ==> Stopped(s, i)
    ensures s.faults >= old(s.faults) && Excusing(s) && (s.fulls > old(s.fulls) ==> FullSent(old(s.log), s.log) || s.disk.objects == {})
  {
    hide Inv, Past, SourceDrift, Announced, PendingShape, WatermarkFits, Site.Valid, FullSent, Replaced, Drift, Lost, Homeless,
      Advanced, Topped;
    PendingOf(s);
    var entry := s.entry;
    if !entry.backupReady || entry.importInProgress || entry.importedIdentity.None? || !entry.watermarkReady {
      NoPending(s.disk);
      r := FullThenSeed(s, i);
    } else if entry.pendingDelta.Some? {
      r := ResumeDelta(s);
    } else if entry.importedIdentity == Some(i) {
      r := Restore(s, i);
    } else if entry.importedIdentity.value.id != i.id {
      r := FullThenSeed(s, i);
    } else {
      r := BringNewer(s, i);
    }
  }

  /** The identity is imported already: skip it, or restore a target that vanished. The
      watermark is not seeded again, and need not be. */
  method Restore(s: Site, i: Identity) returns (r: Outcome)
    requires Ready(s, i) && s.since == s.w && s.w.mode == TimeWindow
    requires s.disk.watermarkReady && s.disk.importedIdentity == Some(i)
    modifies s`w, s`faults, s`disk, s`dirty, s`log, s`fulls, s`excused, s`listed, s`listedAt, s`snap, s.entry
    ensures s.Valid() && s.w.mode == TimeWindow && s.disk.pendingDelta.None? && s.since == old(s.since)
    ensures r != NotPersisted ==> s.Synced()
    ensures OneWrite(old(s.log), s.log)
    ensures r == Unchanged ==> s.disk == old(s.disk) && s.log == old(s.log) && Skips(s.disk, i)
    ensures r == Imported ==> s.disk.importedIdentity == Some(i) && (s.dirty ==> old(s.dirty))
    ensures r == Imported ==> s.since.cur == Some(i) && Settled(s.disk, TimeWindow)
    ensures r == Failed || r == NotPersisted ==> Faulted(s) || Hindered(s.w, s.disk, s.auto, i)
    ensures old(s.w.target.rows).None? && old(s.w.target.inflight).None? && old(s.disk.objects) != {} ==> r != Unchanged
    ensures s.faults >= old(s.faults) && Excusing(s) && (s.fulls > old(s.fulls) ==> FullSent(old(s.log), s.log) || s.disk.objects == {})
  {
    hide Inv, Past, SourceDrift, StoreDrift, TargetDrift, Announced, WatermarkFits, Hindered;
    ExactFits(s, i);
    r := SyncPartition(s, i, false);
    SameFits(s, old(s.w), old(s.disk), i);
    if s.log != old(s.log) { WroteIsFull(old(s.log), s.log, s.w.hist[i]); }
  }

  /** syncPartitionByMode: one attempt to bring one partition up to date, from any state
      of the checkpoint, given any identity that was listed at some time. */
  method SyncPartitionByMode(s: Site, i: Identity, force: bool) returns (r: Outcome)
    requires s.Valid() && s.Synced() && i in s.w.hist && (force ==> s.w.mode == OverwriteMode)
    modifies s, s.entry
    ensures s.Valid() && s.w.mode == old(s.w.mode) && s.since == old(s.w) && s.attempts == old(s.attempts) + [i]
    ensures r != NotPersisted ==> s.Synced()
    ensures OneWrite(old(s.log), s.log)
    ensures Started(old(s.disk)) ==> r == Failed && s.disk == old(s.disk) && s.log == old(s.log)
    ensures r == Unchanged ==> s.disk == old(s.disk) && s.log == old(s.log) && Skips(s.disk, i) && !force
    ensures old(s.w.target.rows).None? && old(s.w.target.inflight).None? && old(s.disk.objects) != {} ==> r != Unchanged
    ensures r == Imported && s.w.mode == OverwriteMode ==> Imports(s, i)
    ensures r == Imported ==> s.disk.importedIdentity == old(s.w.cur) == Some(Wanted(old(s.disk), i))
    ensures r == Imported || r == Unchanged ==> Settled(s.disk, s.w.mode)
    ensures r == Imported && s.w.mode == TimeWindow && s.dirty ==> old(s.dirty) || s.excused
    ensures r == Imported && s.w.mode == TimeWindow ==> ChoseRight(s, i)
    ensures r == Failed || r == NotPersisted ==> Stopped(s, i)
    ensures s.faults >= old(s.faults) && Excusing(s) && (s.fulls > old(s.fulls) ==> FullSent(old(s.log), s.log) || s.disk.objects == {})
  {
    hide Inv, Past, SourceDrift, Announced, PendingShape, WatermarkFits, Site.Valid, FullSent, Hindered, Drift, Replaced, Advanced;
    s.Begin(i);
    PendingOf(s);
    if s.w.mode == OverwriteMode {
      r := SyncPartition(s, i, force);
      if s.log != old(s.log) { WroteIsFull(old(s.log), s.log, s.w.hist[i]); }
    } else {
      r := SyncByWatermark(s, i);
    }
  }

  /** While the row is exact its watermark is the maximum of what it says is imported. */
  lemma ExactFits(s: Site, i: Identity)
    requires s.Valid() && s.w.mode == TimeWindow && s.disk.watermarkReady && s.disk.importedIdentity == Some(i)
    ensures !s.dirty ==> WatermarkFits(s.w, s.disk, i)
  {
  }

  lemma SameFits(s: Site, before: World, d: PartitionRow, i: Identity)
    requires s.Valid() && s.since == before && i in before.hist
    requires s.disk.watermark == d.watermark && s.disk.watermarkReady == d.watermarkReady
    ensures WatermarkFits(before, d, i) ==> WatermarkFits(s.w, s.disk, i)
  {
  }

  lemma PendingOf(s: Site)
    requires s.Valid()
    ensures PendingShape(s.disk)
    ensures s.disk.pendingDelta.Some? ==> s.w.mode == TimeWindow && s.disk.pendingDelta.value.identity in s.w.hist
  {
  }

  lemma NoPending(d: PartitionRow)
    requires PendingShape(d)
    requires !d.backupReady || d.importInProgress || d.importedIdentity.None? || !d.watermarkReady
    ensures d.pendingDelta.None?
  {
  }

  // ---------- Delta safety ----------

  /** What the target holds; a partition that is not there holds no row. */
  function Held(t: Target): Bag {
    if t.rows.Some? then t.rows.value else multiset{}
  }

  /** Delta safety. Whatever versions the source reaches under the same partition ID, the
      target holds exactly its rows at or before the watermark; with a started delta it
      may instead hold exactly those at or before the delta's end: the delta counts once
      or not at all. */
  ghost predicate DeltaExact(w: World, d: PartitionRow) {
    w.mode == TimeWindow && d.watermarkReady && d.watermark.Some? && d.importedIdentity.Some? ==>
      forall j | j in w.hist && j.id == d.importedIdentity.value.id && d.importedIdentity.value.version <= j.version
                 && (Started(d) ==> d.pendingDelta.value.identity.version <= j.version) ::
        || Held(w.target) == UpTo(w.hist[j], d.watermark)
        || (Started(d) && Held(w.target) == UpTo(w.hist[j], Some(d.pendingDelta.value.to)))
  }

  /** It takes a target nobody dropped, and a watermark that was the maximum of what was
      imported. */
  lemma DeltaSafety(w: World, d: PartitionRow)
    requires Inv(w, d, false) && !w.target.dropped
    ensures DeltaExact(w, d)
  {
    if w.mode == TimeWindow && d.watermarkReady && d.watermark.Some? && d.importedIdentity.Some? {
      forall j | j in w.hist && j.id == d.importedIdentity.value.id && d.importedIdentity.value.version <= j.version
                 && (Started(d) ==> d.pendingDelta.value.identity.version <= j.version)
        ensures || Held(w.target) == UpTo(w.hist[j], d.watermark)
                || (Started(d) && Held(w.target) == UpTo(w.hist[j], Some(d.pendingDelta.value.to)))
      {
        UpToMax(w.hist[d.importedIdentity.value], w.hist[j], d.watermark);
        if Started(d) { UpToMax(w.hist[d.pendingDelta.value.identity], w.hist[j], Some(d.pendingDelta.value.to)); }
      }
    }
  }

  /** Over append-only data the rows at or before an old maximum are the old contents. */
  lemma UpToMax(before: Bag, now: Bag, m: Option<int>)
    requires Appends(before, now) && m.Some? && IsMax(before, m)
    ensures UpTo(now, m) == before
  {
  }
}
