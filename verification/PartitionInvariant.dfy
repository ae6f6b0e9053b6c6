/** What holds of one partition in every reachable state, at every point where the
    process may die: between the outside world `w` and the durable row `d`.
    `dirty` is history: a full import has touched the target since the watermark was
    last known to be the maximum of what the target holds. */
module PartitionInvariant {
  import opened Rows
  import opened Checkpoint
  import opened Outside

  /** The target holds `c`, unless the partition was dropped from outside. */
  ghost predicate TargetHolds(t: Target, c: Bag) {
    t.rows == Some(c) || (t.rows.None? && (t.dropped || c == multiset{}))
  }

  /** Nothing is in flight that could bring the target anything but `c`. */
  ghost predicate OnlyFull(t: Target, c: Bag) {
    t.inflight.None? || (!t.inflight.value.Append? && t.inflight.value.rows == c)
  }

  /** The initial statement is only ever submitted for a partition that is absent. */
  ghost predicate CreateIntoAbsent(t: Target) {
    t.inflight.Some? && t.inflight.value.Create? ==> t.rows.None?
  }

  /** Every identity and prefix the row names was really seen. */
  ghost predicate Known(w: World, d: PartitionRow) {
    && (d.importedIdentity.Some? ==> d.importedIdentity.value in w.hist)
    && (d.backupIdentity.Some? ==> d.backupIdentity.value in w.hist)
    && (d.backupPrefix.Some? ==> d.backupPrefix.value.Full? && d.backupPrefix.value in w.used)
    && w.late <= w.used
    && (forall p | p in w.used :: p.Full?)
    && (forall p | p in w.store && p.Full? :: p in w.used)
  }

  /** The snapshot sandwich: a ready backup whose objects are all still there holds
      exactly the contents of its identity. */
  ghost predicate BackupSound(w: World, d: PartitionRow) {
    d.backupReady ==>
      && d.backupIdentity.Some? && d.backupIdentity.value in w.hist
      && d.backupPrefix.Some? && d.backupPrefix.value !in w.late
      && At(w, d.backupPrefix.value).files <= d.objects
      && (At(w, d.backupPrefix.value).files == d.objects ==>
            At(w, d.backupPrefix.value).rows == w.hist[d.backupIdentity.value])
      && (d.objects == {} ==> w.hist[d.backupIdentity.value] == multiset{})
  }

  /** Overwrite soundness. It is not claimed once deltas may run: see Exact. */
  ghost predicate ImportSound(w: World, d: PartitionRow) {
    (w.mode == OverwriteMode || !d.watermarkReady) && d.importedIdentity.Some? ==>
      && (d.importedIdentity == w.cur ==>
            && d.importedIdentity.value in w.hist
            && TargetHolds(w.target, w.hist[d.importedIdentity.value])
            && OnlyFull(w.target, w.hist[d.importedIdentity.value]))
      && (d.backupReady && d.backupIdentity != d.importedIdentity ==> d.importedIdentity != w.cur)
  }

  /** The pending-delta invariant. */
  ghost predicate PendingShape(d: PartitionRow) {
    d.pendingDelta.Some? ==>
      var delta := d.pendingDelta.value;
      && d.backupReady && !d.importInProgress && d.watermarkReady
      && d.importedIdentity.Some? && d.importedIdentity.value.id == delta.identity.id
      && d.watermark == Some(delta.from) && delta.from < delta.to
      && delta.prefix == Incremental(delta.from, delta.to, delta.identity)
      && (delta.importStarted ==> delta.backupReady)
  }

  /** A ready delta batch holds exactly the rows between the two watermarks. */
  ghost predicate PendingSound(w: World, d: PartitionRow) {
    d.pendingDelta.Some? ==>
      var delta := d.pendingDelta.value;
      && w.mode == TimeWindow && delta.identity in w.hist
      && (w.cur == Some(delta.identity) || delta.backupReady ==>
            IsMax(w.hist[delta.identity], Some(delta.to)))
      && (delta.backupReady ==>
            && d.importedIdentity.Some? && d.importedIdentity.value.version <= delta.identity.version
            && At(w, delta.prefix).files <= delta.objects
            && (At(w, delta.prefix).files == delta.objects ==>
                  At(w, delta.prefix).rows == After(w.hist[delta.identity], delta.from, delta.to)))
  }

  /** A statement in flight is one the durable row announces. */
  ghost predicate InflightSound(w: World, d: PartitionRow) {
    && (w.autoMatches ==> w.target.stray == multiset{})
    && CreateIntoAbsent(w.target)
    && (w.target.inflight.Some? && w.target.inflight.value.Append? ==>
          w.mode == TimeWindow && d.pendingDelta.Some? && d.pendingDelta.value.importStarted)
  }

  ghost predicate Started(d: PartitionRow) {
    d.pendingDelta.Some? && d.pendingDelta.value.importStarted
  }

  /** Delta soundness: the watermark is the maximum time of the imported contents, and
      the target holds exactly those contents, or with a started delta possibly those
      of the delta's identity: the delta counted once or not at all. */
  ghost predicate Exact(w: World, d: PartitionRow, dirty: bool) {
    w.mode == TimeWindow && d.watermarkReady && !dirty && d.importedIdentity.Some? ==>
      && d.importedIdentity.value in w.hist
      && IsMax(w.hist[d.importedIdentity.value], d.watermark)
      && (if Started(d)
          then d.pendingDelta.value.identity in w.hist
               && StartedExact(w.target, w.hist[d.importedIdentity.value],
                               w.hist[d.pendingDelta.value.identity], d.pendingDelta.value)
          else TargetHolds(w.target, w.hist[d.importedIdentity.value])
               && OnlyFull(w.target, w.hist[d.importedIdentity.value]))
  }

  /** Before the delta commits. */
  ghost predicate DeltaOutstanding(t: Target, before: Bag, now: Bag, delta: DeltaState) {
    && TargetHolds(t, before)
    && (OnlyFull(t, before) || t.inflight == Some(Append(After(now, delta.from, delta.to))))
  }

  /** A started delta: the target holds the old contents, and at most the delta is in
      flight; or it holds the new ones and nothing is; or someone dropped it meanwhile. */
  ghost predicate StartedExact(t: Target, before: Bag, now: Bag, delta: DeltaState) {
    || DeltaOutstanding(t, before, now, delta)
    || (t.rows == Some(now) && t.inflight.None?)
    || (t.dropped && t.inflight.None?)
  }

  /** A ready backup is the one begun last. */
  predicate Aligned(d: PartitionRow) {
    d.backupReady ==> d.sourceIdentity == d.backupIdentity
  }

  ghost predicate Inv(w: World, d: PartitionRow, dirty: bool) {
    && SourceValid(w)
    && Known(w, d)
    && Aligned(d)
    && BackupSound(w, d)
    && ImportSound(w, d)
    && PendingShape(d)
    && PendingSound(w, d)
    && InflightSound(w, d)
    && Exact(w, d, dirty)
  }

  // ---------- The environment keeps the invariant ----------

  /** The prefixes in `spare` carry nothing the row relies on. */
  ghost predicate Unneeded(w: World, d: PartitionRow, spare: set<Prefix>) {
    && (forall p | p in spare && p.Full? :: p in w.used)
    && (d.backupReady && d.backupPrefix.Some? ==> d.backupPrefix.value !in spare)
    && (d.pendingDelta.Some? && d.pendingDelta.value.backupReady ==> d.pendingDelta.value.prefix !in spare)
  }

  lemma AtOutsideDrift(a: World, b: World, spare: set<Prefix>, p: Prefix)
    requires DriftBut(a, b, spare) && p !in a.late + spare
    ensures At(b, p) == At(a, p) || (p !in a.pinned && At(b, p).files < At(a, p).files)
    ensures p !in b.late
  {
  }

  lemma DriftKeepsBackup(a: World, b: World, spare: set<Prefix>, d: PartitionRow)
    requires DriftBut(a, b, spare) && SourceValid(a) && Known(a, d) && BackupSound(a, d)
    requires Unneeded(a, d, spare) && b.late <= b.used
    ensures Known(b, d) && BackupSound(b, d)
  {
    if d.backupReady { AtOutsideDrift(a, b, spare, d.backupPrefix.value); }
  }

  /** The target holds `c`, and a statement in flight could only bring `c` again. */
  ghost predicate Holds(t: Target, c: Bag) {
    TargetHolds(t, c) && OnlyFull(t, c)
  }

  ghost predicate TargetSound(t: Target, auto: bool) {
    CreateIntoAbsent(t) && (auto ==> t.stray == multiset{})
  }

  lemma DropKeepsFull(a: Target, b: Target, auto: bool, c: Bag)
    requires MayDrop(a, b) && TargetSound(a, auto)
    ensures TargetSound(b, auto) && b.inflight == a.inflight && (Holds(a, c) ==> Holds(b, c))
  {
  }

  lemma SettlingKeepsFull(t: Target, auto: bool, c: Bag)
    requires t.inflight.Some? && TargetSound(t, auto)
    ensures TargetSound(Abandon(t), auto) && (Holds(t, c) ==> Holds(Abandon(t), c))
    ensures TargetSound(Commit(t, auto), auto) && (Holds(t, c) ==> Holds(Commit(t, auto), c))
    ensures Commit(t, auto).inflight.None? && Abandon(t).inflight.None?
  {
  }

  /** A full statement in flight can only bring what the target should hold. */
  lemma TargetDriftKeepsFull(a: Target, b: Target, auto: bool, c: Bag)
    requires TargetDrift(a, b, auto) && TargetSound(a, auto)
    ensures TargetSound(b, auto)
    ensures a.inflight.None? ==> b.inflight.None? && MayDrop(a, b)
    ensures b.inflight == a.inflight || b.inflight.None?
    ensures Holds(a, c) ==> Holds(b, c)
  {
    hide Holds, TargetSound, Commit;
    var d := Drop(a);
    DropKeepsFull(a, d, auto, c);
    if MayDrop(a, b) {
      DropKeepsFull(a, b, auto, c);
    } else {
      SettlingKeepsFull(a, auto, c);
      SettlingKeepsFull(d, auto, c);
      if MayDrop(Abandon(a), b) {
        DropKeepsFull(Abandon(a), b, auto, c);
      } else if MayDrop(Commit(a, auto), b) {
        DropKeepsFull(Commit(a, auto), b, auto, c);
      } else {
        DropKeepsFull(Commit(d, auto), b, auto, c);
      }
    }
  }

  lemma DriftKeepsImport(a: World, b: World, spare: set<Prefix>, d: PartitionRow)
    requires DriftBut(a, b, spare) && Known(a, d) && ImportSound(a, d) && InflightSound(a, d)
    ensures ImportSound(b, d) && InflightSound(b, d)
  {
    hide StoreDrift, SourceValid, TargetDrift;
    if d.importedIdentity.Some? {
      TargetDriftKeepsFull(a.target, b.target, a.autoMatches, a.hist[d.importedIdentity.value]);
    } else {
      TargetDriftKeepsFull(a.target, b.target, a.autoMatches, multiset{});
    }
  }

  lemma DriftKeepsPending(a: World, b: World, spare: set<Prefix>, d: PartitionRow)
    requires DriftBut(a, b, spare) && SourceValid(a) && Known(a, d) && PendingShape(d) && PendingSound(a, d)
    requires Unneeded(a, d, spare)
    ensures PendingSound(b, d)
  {
    if d.pendingDelta.Some? {
      var delta := d.pendingDelta.value;
      if delta.backupReady { AtOutsideDrift(a, b, spare, delta.prefix); }
    }
  }

  /** A started delta commits at most once, and then completes the target. */
  lemma CommitCompletesDelta(t: Target, auto: bool, before: Bag, now: Bag, delta: DeltaState)
    requires DeltaOutstanding(t, before, now, delta)
    requires t.inflight == Some(Append(After(now, delta.from, delta.to)))
    requires before + After(now, delta.from, delta.to) == now
    ensures StartedExact(Commit(t, auto), before, now, delta)
    ensures !t.dropped ==> Commit(t, auto).rows == Some(now)
  {
  }

  lemma DropKeepsDelta(a: Target, b: Target, before: Bag, now: Bag, delta: DeltaState)
    requires MayDrop(a, b) && StartedExact(a, before, now, delta)
    ensures StartedExact(b, before, now, delta)
  {
  }

  /** Settling a statement in flight, one way or the other. */
  lemma SettlingKeepsDelta(t: Target, auto: bool, before: Bag, now: Bag, delta: DeltaState)
    requires t.inflight.Some? && CreateIntoAbsent(t) && (auto ==> t.stray == multiset{})
    requires StartedExact(t, before, now, delta) && before + After(now, delta.from, delta.to) == now
    ensures StartedExact(Abandon(t), before, now, delta) && StartedExact(Commit(t, auto), before, now, delta)
  {
    if OnlyFull(t, before) {
      TargetDriftKeepsFull(t, Abandon(t), auto, before);
      TargetDriftKeepsFull(t, Commit(t, auto), auto, before);
    } else {
      CommitCompletesDelta(t, auto, before, now, delta);
    }
  }

  lemma TargetDriftKeepsDelta(a: Target, b: Target, auto: bool, before: Bag, now: Bag, delta: DeltaState)
    requires TargetDrift(a, b, auto) && CreateIntoAbsent(a)
    requires auto ==> a.stray == multiset{}
    requires StartedExact(a, before, now, delta)
    requires before + After(now, delta.from, delta.to) == now
    ensures StartedExact(b, before, now, delta)
  {
    hide StartedExact, Commit;
    var d := Drop(a);
    DropKeepsDelta(a, d, before, now, delta);
    if MayDrop(a, b) {
      DropKeepsDelta(a, b, before, now, delta);
    } else {
      SettlingKeepsDelta(a, auto, before, now, delta);
      SettlingKeepsDelta(d, auto, before, now, delta);
      if MayDrop(Abandon(a), b) {
        DropKeepsDelta(Abandon(a), b, before, now, delta);
      } else if MayDrop(Commit(a, auto), b) {
        DropKeepsDelta(Commit(a, auto), b, before, now, delta);
      } else {
        DropKeepsDelta(Commit(d, auto), b, before, now, delta);
      }
    }
  }

  lemma DriftKeepsExact(a: World, b: World, spare: set<Prefix>, d: PartitionRow, dirty: bool)
    requires DriftBut(a, b, spare) && Inv(a, d, dirty)
    ensures Exact(b, d, dirty)
  {
    if b.mode == TimeWindow && d.watermarkReady && !dirty && d.importedIdentity.Some? {
      var before := a.hist[d.importedIdentity.value];
      if Started(d) {
        var delta := d.pendingDelta.value;
        DeltaCompletes(before, a.hist[delta.identity], delta.from, delta.to);
        TargetDriftKeepsDelta(a.target, b.target, a.autoMatches, before, a.hist[delta.identity], delta);
      } else {
        TargetDriftKeepsFull(a.target, b.target, a.autoMatches, before);
      }
    }
  }

  lemma DriftKeepsInv(a: World, b: World, spare: set<Prefix>, d: PartitionRow, dirty: bool)
    requires DriftBut(a, b, spare) && Inv(a, d, dirty)
    requires Unneeded(a, d, spare) && b.late <= b.used
    ensures Inv(b, d, dirty)
  {
    DriftKeepsBackup(a, b, spare, d);
    DriftKeepsImport(a, b, spare, d);
    DriftKeepsPending(a, b, spare, d);
    DriftKeepsExact(a, b, spare, d, dirty);
  }

  lemma QuietDriftKeepsInv(a: World, b: World, d: PartitionRow, dirty: bool)
    requires Drift(a, b) && Inv(a, d, dirty)
    ensures Inv(b, d, dirty)
  {
    DriftKeepsInv(a, b, {}, d, dirty);
  }

  /** The parts of the invariant that the program's steps use, named so that the rest
      of it can stay folded. */
  lemma InvParts(w: World, d: PartitionRow, dirty: bool)
    requires Inv(w, d, dirty)
    ensures SourceValid(w) && Known(w, d) && BackupSound(w, d) && ImportSound(w, d)
    ensures PendingShape(d) && PendingSound(w, d) && InflightSound(w, d)
  {
  }

  // ---------- What is kept about the past ----------

  /** The target partition was dropped, and nothing in flight could bring it back whole. */
  predicate Excused(t: Target) {
    t.dropped && (t.inflight.None? || t.inflight.value.Append?)
  }

  /** `c` is what some version of the source held. */
  predicate IsVersion(hist: map<Identity, Bag>, c: Bag) {
    exists i | i in hist :: hist[i] == c
  }

  /** In overwrite mode the target never holds anything but what it held at first, or the
      contents of one version, whole and once; and nothing else is on its way. */
  predicate Whole(mode: Mode, auto: bool, hist: map<Identity, Bag>, t: Target, initial: Option<Bag>) {
    mode == OverwriteMode && auto ==>
      && (t.rows.None? || t.rows == initial || IsVersion(hist, t.rows.value))
      && (t.inflight.Some? ==> !t.inflight.value.Append? && IsVersion(hist, t.inflight.value.rows))
  }

  predicate Past(mode: Mode, auto: bool, hist: map<Identity, Bag>, t: Target, initial: Option<Bag>, excused: bool) {
    Whole(mode, auto, hist, t, initial) && (excused ==> Excused(t))
  }

  lemma VersionStays(a: World, b: World, c: Bag)
    requires SourceDrift(a, b) && IsVersion(a.hist, c)
    ensures IsVersion(b.hist, c)
  {
  }

  lemma DriftKeepsPast(a: World, b: World, spare: set<Prefix>, initial: Option<Bag>, excused: bool)
    requires DriftBut(a, b, spare) && CreateIntoAbsent(a.target)
    requires Past(a.mode, a.autoMatches, a.hist, a.target, initial, excused)
    ensures Past(b.mode, b.autoMatches, b.hist, b.target, initial, excused)
  {
    hide StoreDrift, IsVersion, SourceDrift;
    if a.target.rows.Some? && IsVersion(a.hist, a.target.rows.value) { VersionStays(a, b, a.target.rows.value); }
    if a.target.inflight.Some? && IsVersion(a.hist, a.target.inflight.value.rows) {
      VersionStays(a, b, a.target.inflight.value.rows);
    }
  }
}
