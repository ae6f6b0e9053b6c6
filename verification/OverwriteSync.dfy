/** main.go: syncPartition, the backup, verify and replace protocol of one partition. */
module OverwriteSync {
  import opened Rows
  import opened Checkpoint
  import opened Outside
  import opened PartitionInvariant
  import opened Sites

  /** How a call ends. NotPersisted is errStatePersistence: it ends the run. */
  datatype Outcome = Unchanged | Imported | Failed | NotPersisted

  // ---------- What each save leaves on disk keeps the invariant ----------

  lemma BeginBackupKeepsInv(w: World, d: PartitionRow, dirty: bool, i: Identity, p: Prefix)
    requires Inv(w, d, dirty) && d.pendingDelta.None? && p.Full? && p in w.used
    ensures Inv(w, BackupBegun(d, i, p), dirty)
  {
  }

  lemma BackupDoneKeepsInv(w: World, d: PartitionRow, dirty: bool, i: Identity, objects: set<string>)
    requires Inv(w, d, dirty) && d.pendingDelta.None? && d.backupPrefix.Some? && i in w.hist
    requires BackupSound(w, BackupAccepted(d, i, objects)) && d.sourceIdentity == Some(i)
    requires d.importedIdentity.Some? && d.importedIdentity != Some(i) ==> d.importedIdentity != w.cur
    ensures Inv(w, BackupAccepted(d, i, objects), dirty)
  {
  }

  lemma ForgetImportKeepsInv(w: World, d: PartitionRow, dirty: bool)
    requires Inv(w, d, dirty) && d.pendingDelta.None?
    ensures Inv(w, d.(importedIdentity := None), dirty)
  {
  }

  lemma BeginImportKeepsInv(w: World, d: PartitionRow, dirty: bool)
    requires Inv(w, d, dirty) && d.pendingDelta.None?
    ensures Inv(w, d.(importInProgress := true), dirty)
  {
  }

  /** Only here can an old watermark end up beside newer contents: the row is exact
      again only if the saved watermark happens to be the new maximum. */
  lemma ImportDoneKeepsInv(w: World, d: PartitionRow, i: Identity, dirty: bool)
    requires Inv(w, d, true) && d.pendingDelta.None? && i in w.hist && d.backupIdentity == Some(i)
    requires TargetHolds(w.target, w.hist[i]) && w.target.inflight.None?
    requires dirty || (d.watermarkReady && IsMax(w.hist[i], d.watermark))
    ensures Inv(w, ImportFinished(d, i), dirty)
  {
  }

  /** Submitting a full statement: whatever it brings is the backup's contents. */
  lemma LaunchFullKeepsInv(w: World, d: PartitionRow, dirty: bool, x: Statement)
    requires Inv(w, d, dirty) && w.target.inflight.None? && d.pendingDelta.None? && !x.Append?
    requires d.backupReady && d.backupIdentity.Some? && d.backupIdentity.value in w.hist
    requires x.rows == w.hist[d.backupIdentity.value]
    requires x.Create? ==> w.target.rows.None?
    ensures Inv(Launched(w, x), d, true)
  {
  }

  // ---------- The protocol ----------

  /** What every call may rely on: the identity it was given was listed before. */
  ghost predicate Ready(s: Site, i: Identity)
    reads s, s.entry
  {
    s.Valid() && s.Synced() && i in s.since.hist && s.disk.pendingDelta.None?
  }

  /** What every step leaves in place, however it ends. */
  twostate predicate Kept(s: Site)
    reads s, s.entry
  {
    && s.Valid() && s.since == old(s.since) && old(s.faults) <= s.faults
    && s.w.mode == old(s.w.mode) && s.w.autoMatches == old(s.w.autoMatches)
    && s.disk.pendingDelta.None?
    && s.disk.watermark == old(s.disk.watermark) && s.disk.watermarkReady == old(s.disk.watermarkReady)
  }

  // What keeps an attempt for `i` from succeeding though every foreign call is answered.

  predicate Moved(w: World, i: Identity) {
    w.cur != Some(i)
  }

  /** The recorded objects are not all there. */
  predicate Lost(w: World, d: PartitionRow) {
    d.backupReady && d.backupPrefix.Some? && At(w, d.backupPrefix.value).files != d.objects
  }

  /** There is no target partition: dropped, or AUTO PARTITION does not make one. */
  predicate Homeless(w: World, auto: bool) {
    w.target.rows.None? && (w.target.dropped || !auto || !w.autoMatches)
  }

  predicate Hindered(w: World, d: PartitionRow, auto: bool, i: Identity) {
    Moved(w, i) || Lost(w, d) || Homeless(w, auto)
  }

  /** A foreign call failed since. */
  twostate predicate Faulted(s: Site)
    reads s
  {
    s.faults > old(s.faults)
  }

  /** A source that has moved on does not come back to an identity known before. */
  lemma MovedStays(a: World, b: World, i: Identity)
    requires SourceDrift(a, b) && i in a.hist && Moved(a, i)
    ensures Moved(b, i)
  {
  }

  /** With nothing in flight a target only changes by being dropped. */
  predicate Quiet(a: Target, b: Target) {
    && b.inflight.None? && b.stray == a.stray && (a.dropped ==> b.dropped)
    && (b.rows == a.rows || (b.rows.None? && b.dropped))
    && (b.dropped ==> a.dropped || a.rows.Some?)
  }

  twostate predicate Rests(s: Site)
    reads s
  {
    old(s.w.target.inflight).None? ==> Quiet(old(s.w.target), s.w.target)
  }

  lemma DriftIsQuiet(a: World, b: World)
    requires Drift(a, b) && a.target.inflight.None?
    ensures Quiet(a.target, b.target)
  {
  }

  lemma DriftFrame(a: World, b: World)
    requires Drift(a, b)
    ensures b.mode == a.mode && b.autoMatches == a.autoMatches && b.used == a.used
  {
  }

  lemma OneLook(a: World, b: World)
    requires Drift(a, b)
    ensures b.mode == a.mode && b.autoMatches == a.autoMatches && b.used == a.used
    ensures a.target.inflight.None? ==>
              Quiet(a.target, b.target) && b.target.inflight.None? && (b.target.rows.Some? ==> a.target.rows.Some?)
  {
  }

  lemma DriftButIsQuiet(a: World, b: World, spare: set<Prefix>)
    requires DriftBut(a, b, spare) && a.target.inflight.None?
    ensures Quiet(a.target, b.target)
  {
  }

  /** With nothing in flight an absent target stays absent. */
  lemma AbsentStays(a: Target, b: Target)
    requires a.inflight.None? ==> Quiet(a, b)
    ensures a.inflight.None? ==> b.inflight.None? && (b.rows.Some? ==> a.rows.Some?)
  {
  }

  lemma SelfQuiet(t: Target)
    ensures t.inflight.None? ==> Quiet(t, t)
  {
  }

  lemma QuietTwice(a: Target, b: Target, c: Target)
    requires (a.inflight.None? ==> Quiet(a, b)) && (b.inflight.None? ==> Quiet(b, c))
    ensures a.inflight.None? ==> Quiet(a, c)
  {
  }

  /** Unless a full import was submitted or recorded, nothing was sent to the target; and
      one without a statement is one without rows. */
  twostate predicate OnlyIfFull(s: Site)
    reads s
  {
    && old(s.fulls) <= s.fulls
    && (s.fulls == old(s.fulls) ==> s.dirty == old(s.dirty) && s.log == old(s.log) && s.excused == old(s.excused))
    && (s.fulls > old(s.fulls) ==> s.log != old(s.log) || s.disk.objects == {})
  }

  /** Record a fresh generation, before anything is written under it. */
  method StartBackup(s: Site, i: Identity) returns (r: Reply<Prefix>, persisted: bool)
    requires Ready(s, i)
    modifies s`w, s`faults, s`disk, s.entry
    ensures Kept(s) && Rests(s)
    ensures persisted ==> s.Synced()
    ensures r.Err? ==> Faulted(s)
    ensures !persisted ==> r.Err?
    ensures s.disk.importedIdentity == old(s.disk.importedIdentity)
    ensures r.Ok? ==> persisted && s.w.pinned == {} && r.value !in s.w.store && r.value !in s.w.late
                      && r.value !in old(s.w.used) && s.disk == BackupBegun(old(s.disk), i, r.value)
  {
    hide Past, SourceDrift, TargetDrift, Quiet, BackupSound, ImportSound, PendingSound, InflightSound, Exact;
    r := s.NewGeneration();
    if r.Err? {
      SelfQuiet(s.w.target);
      return r, true;
    }
    ghost var drawn := s.w;
    s.entry.BeginBackup(i, r.value);
    BeginBackupKeepsInv(s.w, s.disk, s.dirty, i, r.value);
    persisted := s.Save();
    StaysQuiet(old(s.w), drawn, s.w);
    if !persisted { r := Err; }
  }

  /** Clear the partition's prefix and export. */
  method Export(s: Site, prefix: Prefix) returns (ok: bool)
    requires s.Valid() && s.Synced() && s.disk.pendingDelta.None?
    requires !s.disk.backupReady && s.disk.backupPrefix == Some(prefix)
    requires s.w.pinned == {} && prefix !in s.w.store && prefix !in s.w.late
    modifies s`w, s`faults, s`snap
    ensures Kept(s) && Rests(s) && (!ok ==> Faulted(s))
    ensures ok ==> prefix in s.w.pinned && prefix !in s.w.late && s.w.store.Keys <= s.w.late + {prefix}
    ensures ok ==> SourceDrift(s.since, s.snap) && SourceDrift(s.snap, s.w) && Exported(s.w, prefix, Contents(s.snap))
    ensures ok && At(s.w, prefix) == NO_OBJECTS && Contents(s.snap) != Some(multiset{}) ==> Faulted(s)
  {
    hide Inv, Past, SourceDrift, TargetDrift, Quiet, Contents;
    InvParts(s.w, s.disk, s.dirty);
    ok := s.ClearAll();
    ghost var clean := s.w;
    if old(s.w).target.inflight.None? { DriftButIsQuiet(old(s.w), clean, old(s.w).store.Keys); }
    if ok {
      AbsentStays(old(s.w).target, clean.target);
      InvParts(s.w, s.disk, s.dirty);
      ok := s.OutfilePartition(prefix);
      if clean.target.inflight.None? { DriftButIsQuiet(clean, s.w, {prefix}); }
      QuietTwice(old(s.w).target, clean.target, s.w.target);
    }
  }

  /** Clear the partition's prefix, export and list. */
  method Upload(s: Site, i: Identity, prefix: Prefix) returns (r: Reply<set<string>>)
    requires Ready(s, i) && !s.disk.backupReady && s.disk.backupPrefix == Some(prefix)
    requires s.w.pinned == {} && prefix !in s.w.store && prefix !in s.w.late
    modifies s`w, s`faults, s`snap
    ensures Kept(s) && Rests(s)
    ensures r.Ok? ==> prefix in s.w.pinned && prefix !in s.w.late && s.w.store.Keys <= s.w.late + {prefix}
    ensures r.Ok? ==> SourceDrift(s.since, s.snap) && Exported(s.w, prefix, Contents(s.snap))
    ensures r.Ok? ==> r.value == At(s.w, prefix).files
    ensures r.Err? || (r.value == {} && Contents(s.snap) != Some(multiset{})) ==> Faulted(s)
  {
    hide Inv, Past, Site.Valid, SourceDrift, TargetDrift, Quiet, Contents;
    r := Err;
    var exported := Export(s, prefix);
    if exported {
      ghost var written := s.w;
      r := s.List(prefix);
      StaysQuiet(old(s.w), written, s.w);
      AtOutsideDrift(written, s.w, {}, prefix);
    }
  }

  /** The sandwich closes: what was read at `snap`, and found empty at `probed`, is what
      the identity listed before and after stands for. */
  lemma SandwichedBackup(since: World, snap: World, probed: World, w: World, d: PartitionRow,
                         i: Identity, prefix: Prefix, objects: set<string>)
    requires i in since.hist && SourceDrift(since, snap) && SourceDrift(snap, probed)
    requires SourceDrift(probed, w) && w.cur == Some(i)
    requires d.backupPrefix == Some(prefix) && prefix !in w.late && objects == At(w, prefix).files
    requires Exported(w, prefix, Contents(snap))
    requires objects == {} ==> Contents(probed) == Some(multiset{})
    ensures BackupSound(w, BackupAccepted(d, i, objects))
  {
  }

  /** An export that read no rows and a probe that found one saw two versions. */
  lemma ProbedMoved(since: World, snap: World, probed: World, i: Identity)
    requires i in since.hist && SourceDrift(since, snap) && SourceDrift(snap, probed)
    requires Contents(snap) == Some(multiset{}) && Contents(probed).Some? && Contents(probed) != Some(multiset{})
    ensures Moved(probed, i)
  {
  }

  /** See that an empty listing is an empty partition, and that the source still has the
      identity: then the objects hold exactly its rows. */
  method Confirm(s: Site, i: Identity, prefix: Prefix, objects: set<string>) returns (ok: bool)
    requires Ready(s, i) && !s.disk.backupReady && s.disk.backupPrefix == Some(prefix)
    requires prefix in s.w.pinned && prefix !in s.w.late && s.w.store.Keys <= s.w.late + {prefix}
    requires SourceDrift(s.since, s.snap) && Exported(s.w, prefix, Contents(s.snap))
    requires objects == At(s.w, prefix).files
    modifies s`w, s`faults, s`listed, s`listedAt
    ensures Kept(s) && Rests(s)
    ensures ok ==> s.w.cur == Some(i) && s.w.store.Keys <= s.w.late + {prefix}
    ensures !ok ==> Faulted(s) || Moved(s.w, i) || (objects == {} && Contents(s.snap) != Some(multiset{}))
    ensures ok ==> BackupSound(s.w, BackupAccepted(s.disk, i, objects))
  {
    hide Inv, Past, SourceDrift, TargetDrift, BackupSound, Quiet;
    if objects == {} {
      var rows := s.ProbeSource();
      AtOutsideDrift(old(s.w), s.w, {}, prefix);
      StaysQuiet(old(s.w), old(s.w), s.w);
      if rows == Ok(true) && Contents(s.snap) == Some(multiset{}) { ProbedMoved(s.since, s.snap, s.w, i); }
      if rows.Err? || rows.value { return false; }
    }
    ghost var probed := s.w;
    var current := s.SourcePartition();
    StaysQuiet(old(s.w), probed, s.w);
    AtOutsideDrift(probed, s.w, {}, prefix);
    ok := current.Ok? && current.value == Some(i);
    if ok { SandwichedBackup(s.since, s.snap, probed, s.w, s.disk, i, prefix, objects); }
  }

  /** Record the verified backup. */
  method AcceptBackup(s: Site, i: Identity, prefix: Prefix, objects: set<string>) returns (saved: bool)
    requires Ready(s, i) && s.disk.backupPrefix == Some(prefix) && !s.disk.importInProgress
    requires s.w.cur == Some(i) && s.w.store.Keys <= s.w.late + {prefix}
    requires BackupSound(s.w, BackupAccepted(s.disk, i, objects)) && s.disk.sourceIdentity == Some(i)
    modifies s`w, s`faults, s`disk, s.entry
    ensures Kept(s) && Rests(s) && (if saved then s.Synced() else Faulted(s))
    ensures s.disk == old(s.disk) || s.disk == BackupAccepted(old(s.disk), i, objects)
    ensures saved ==> s.disk == BackupAccepted(old(s.disk), i, objects) && s.w.store.Keys <= s.w.late + {prefix}
  {
    hide Inv, Past, BackupSound, DriftBut, Quiet;
    s.entry.AcceptBackup(i, objects);
    BackupDoneKeepsInv(s.w, s.disk, s.dirty, i, objects);
    ghost var confirmed := s.w;
    saved := s.Save();
    SavedStore(confirmed, s.w, prefix);
    StaysQuiet(old(s.w), confirmed, s.w);
    if saved { s.Unpin(); }
  }

  /** The backup half of syncPartition. */
  method BackUp(s: Site, i: Identity) returns (r: Outcome)
    requires Ready(s, i)
    modifies s`w, s`faults, s`disk, s`listed, s`listedAt, s`snap, s.entry
    ensures Kept(s) && Rests(s)
    ensures r == Imported || r == Failed || r == NotPersisted
    ensures r != NotPersisted ==> s.Synced()
    ensures r != Imported ==> Faulted(s) || Moved(s.w, i)
    ensures s.disk.importedIdentity == old(s.disk.importedIdentity)
    ensures r == Imported ==>
              && s.disk.backupReady && s.disk.backupIdentity == Some(i) && !s.disk.importInProgress
              && s.disk.backupPrefix.Some? && s.disk.backupPrefix.value !in old(s.w.used)
              && s.w.store.Keys <= s.w.late + {s.disk.backupPrefix.value}
  {
    hide Inv, Past, BackupSound, DriftBut, Quiet, SourceDrift, Moved;
    var prefix, persisted := StartBackup(s, i);
    if !persisted { return NotPersisted; }
    if prefix.Err? { return Failed; }
    ghost var begun := s.w.target;
    var objects := Upload(s, i, prefix.value);
    ghost var uploaded := s.w.target;
    QuietTwice(old(s.w.target), begun, uploaded);
    if objects.Err? { return Failed; }
    var same := Confirm(s, i, prefix.value, objects.value);
    ghost var confirmed := s.w.target;
    QuietTwice(old(s.w.target), uploaded, confirmed);
    if !same { return Failed; }
    var saved := AcceptBackup(s, i, prefix.value, objects.value);
    QuietTwice(old(s.w.target), confirmed, s.w.target);
    r := if saved then Imported else NotPersisted;
  }

  lemma SavedStore(a: World, b: World, p: Prefix)
    requires Drift(a, b)
    ensures b.mode == a.mode && b.autoMatches == a.autoMatches
    ensures a.store.Keys <= a.late + {p} ==> b.store.Keys <= b.late + {p}
  {
  }

  /** The rows a ready backup of `i` brings are its contents, and they will stay there. */
  ghost predicate Importable(s: Site, i: Identity)
    reads s
  {
    && s.disk.backupReady && s.disk.backupIdentity == Some(i) && s.disk.backupPrefix.Some?
    && i in s.w.hist && s.disk.backupPrefix.value !in s.w.late
    && At(s.w, s.disk.backupPrefix.value).files == s.disk.objects
    && (if s.disk.objects == {} then s.w.hist[i] == multiset{}
        else At(s.w, s.disk.backupPrefix.value).rows == s.w.hist[i])
    && s.disk.backupPrefix.value in s.w.pinned
  }

  lemma ImportableDrift(a: World, b: World, d: PartitionRow, i: Identity)
    requires Drift(a, b) && d.backupPrefix.Some? && i in a.hist
    requires d.backupPrefix.value !in a.late && d.backupPrefix.value in a.pinned
    ensures i in b.hist && b.hist[i] == a.hist[i] && At(b, d.backupPrefix.value) == At(a, d.backupPrefix.value)
    ensures d.backupPrefix.value !in b.late && d.backupPrefix.value in b.pinned
  {
  }

  /** The recorded objects are all there, and the source still has the identity. */
  method CheckObjects(s: Site, i: Identity) returns (ok: bool)
    requires Ready(s, i) && s.disk.backupReady && s.disk.backupIdentity == Some(i)
    modifies s`w, s`faults, s`listed, s`listedAt
    ensures Kept(s) && Rests(s)
    ensures ok ==> Importable(s, i) && s.listed == Some(i)
    ensures !ok ==> Faulted(s) || Moved(s.w, i) || Lost(s.w, s.disk)
  {
    hide Inv, Past, SourceDrift, TargetDrift, StoreDrift, Quiet;
    InvParts(s.w, s.disk, s.dirty);
    var prefix := s.entry.backupPrefix.value;
    var objects := s.List(prefix);
    InvParts(s.w, s.disk, s.dirty);
    StaysQuiet(old(s.w), old(s.w), s.w);
    if objects.Err? || objects.value != s.entry.objects { return false; }
    s.Pin(prefix);
    ghost var pinned := s.w;
    var current := s.SourcePartition();
    ImportableDrift(pinned, s.w, s.disk, i);
    StaysQuiet(old(s.w), pinned, s.w);
    return current == Ok(Some(i));
  }

  /** Quiet steps one after the other. */
  lemma StaysQuiet(a: World, b: World, c: World)
    requires Drift(b, c)
    requires a.target.inflight.None? ==> b.target == a.target || Quiet(a.target, b.target)
    ensures a.target.inflight.None? ==> Quiet(a.target, c.target)
  {
    if a.target.inflight.None? { DriftIsQuiet(b, c); }
  }

  /** Look the target partition up, once earlier statements on it have settled. */
  method FindTarget(s: Site, i: Identity) returns (r: Reply<bool>)
    requires Ready(s, i) && Importable(s, i) && s.listed == Some(i)
    modifies s`w, s`faults
    ensures Kept(s) && Rests(s)
    ensures r.Ok? ==> Importable(s, i) && s.w.target.inflight.None?
    ensures r.Ok? && !r.value ==> s.w.target.rows.None? && s.auto
    ensures r.Ok? && r.value && old(s.w.target.inflight).None? ==> old(s.w.target.rows).Some?
    ensures r.Err? ==> Faulted(s) || Homeless(s.w, s.auto)
  {
    hide Inv, Past, SourceDrift, StoreDrift, TargetDrift, Quiet;
    s.Settle();
    ImportableDrift(old(s.w), s.w, s.disk, i);
    StaysQuiet(old(s.w), old(s.w), s.w);
    AbsentStays(old(s.w).target, s.w.target);
    ghost var settled := s.w;
    r := s.TargetPartition();
    ImportableDrift(settled, s.w, s.disk, i);
    StaysQuiet(old(s.w), settled, s.w);
    StaysQuiet(settled, settled, s.w);
    AbsentStays(settled.target, s.w.target);
    ghost var found := s.w;
    if r == Ok(false) {
      var auto := s.IsAutoPartition();
      ImportableDrift(found, s.w, s.disk, i);
      StaysQuiet(old(s.w), found, s.w);
      StaysQuiet(found, found, s.w);
      AbsentStays(found.target, s.w.target);
      if auto.Err? || !auto.value { return Err; }
    }
  }

  /** At most one statement was submitted, and it brings `c`. */
  ghost predicate WroteOnly(before: seq<Write>, after: seq<Write>, c: Bag) {
    after == before
    || exists x: Write :: after == before + [x] && !x.statement.Append? && x.statement.rows == c
  }

  /** An INSERT OVERWRITE of a partition that was there was submitted. */
  ghost predicate Replaced(before: seq<Write>, after: seq<Write>) {
    after != before && after != [] && after[|after| - 1].statement.Overwrite?
  }

  lemma CommittedFull(pre: World, x: Statement, w: World)
    requires Drift(Committed(pre, x), w) && !x.Append?
    requires if x.Overwrite? then pre.target.rows.Some? else pre.target.rows.None?
    ensures w.target.inflight.None? && (w.target.rows == Some(x.rows) || w.target.rows.None?)
    ensures Quiet(Committed(pre, x).target, w.target)
  {
  }

  lemma SubmittedRows(kind: Kind, w: World, p: Prefix, empty: bool, d: PartitionRow, i: Identity)
    requires i in w.hist && d.backupPrefix == Some(p) && empty == (d.objects == {}) && kind != AppendKind
    requires if d.objects == {} then w.hist[i] == multiset{} else At(w, p).rows == w.hist[i]
    ensures Site.Submitted(kind, w, p, empty).rows == w.hist[i] && !Site.Submitted(kind, w, p, empty).Append?
    ensures Site.Submitted(kind, w, p, empty).Overwrite? <==> kind == OverwriteKind
    ensures IsVersion(w.hist, Site.Submitted(kind, w, p, empty).rows)
  {
  }

  /** What the target holds once a full statement of the given kind has committed. */
  function Brought(w: World, kind: Kind, rows: Bag): Target {
    var x := match kind
      case OverwriteKind => Overwrite(rows)
      case CreateKind => Create(rows)
      case RecreateKind => Recreate(rows)
      case AppendKind => Append(rows);
    Committed(w, x).target
  }

  /** Submit one full statement and wait for it. */
  method Submit(s: Site, i: Identity, kind: Kind) returns (ok: bool)
    requires Ready(s, i) && Importable(s, i) && s.listed == Some(i) && s.disk.importInProgress
    requires s.w.target.inflight.None? && kind != AppendKind && (kind != OverwriteKind ==> s.w.target.rows.None?)
    modifies s`w, s`faults, s`dirty, s`log, s`fulls, s`excused
    ensures Kept(s) && i in s.w.hist && s.w.hist[i] == old(s.w.hist[i])
    ensures s.log != old(s.log) && WroteOnly(old(s.log), s.log, s.w.hist[i]) && s.dirty && s.fulls > old(s.fulls)
    ensures !ok ==> Faulted(s)
    ensures Replaced(old(s.log), s.log) <==> kind == OverwriteKind
    ensures ok ==> (kind == OverwriteKind ==> old(s.w).target.rows.Some?)
                   && Quiet(Brought(old(s.w), kind, s.w.hist[i]), s.w.target)
    ensures ok ==> s.w.target.inflight.None? && (s.w.target.rows == Some(s.w.hist[i]) || s.w.target.rows.None?)
  {
    hide Inv, Past, Drift, Commit, Quiet, Committed, Launched, WroteOnly, Replaced;
    ghost var pre := s.w;
    var prefix := s.entry.backupPrefix.value;
    var empty := s.entry.objects == {};
    SubmittedRows(kind, s.w, prefix, empty, s.disk, i);
    ghost var x := Site.Submitted(kind, s.w, prefix, empty);
    LaunchFullKeepsInv(s.w, s.disk, s.dirty, x);
    ok := s.Exec(kind, prefix, empty, pre);
    KeepsContents(pre, x, s.w, i);
    OneSent(old(s.log), s.log[|old(s.log)|]);
    if ok { CommittedFull(pre, x, s.w); }
  }

  lemma OneSent(log: seq<Write>, x: Write)
    requires !x.statement.Append?
    ensures WroteOnly(log, log + [x], x.statement.rows) && (Replaced(log, log + [x]) <==> x.statement.Overwrite?)
  {
  }

  lemma KeepsContents(pre: World, x: Statement, w: World, i: Identity)
    requires i in pre.hist && (Drift(Committed(pre, x), w) || Drift(Launched(pre, x), w))
    ensures i in w.hist && w.hist[i] == pre.hist[i] && w.mode == pre.mode && w.autoMatches == pre.autoMatches
  {
  }

  /** Replace a partition that exists, or have AUTO PARTITION create the one that does
      not. No rows and no partition need no statement. */
  method Launch(s: Site, i: Identity, force: bool, present: bool) returns (ok: bool)
    requires Ready(s, i) && Importable(s, i) && s.listed == Some(i) && s.disk.importInProgress
    requires s.w.target.inflight.None? && (!present ==> s.w.target.rows.None?)
    modifies s`w, s`faults, s`dirty, s`log, s`fulls, s`excused
    ensures Kept(s) && i in s.w.hist && s.w.hist[i] == old(s.w.hist[i])
    ensures WroteOnly(old(s.log), s.log, s.w.hist[i])
    ensures if s.log == old(s.log) then s.dirty == old(s.dirty) && s.fulls == old(s.fulls) && s.excused == old(s.excused)
            else s.dirty && s.fulls > old(s.fulls)
    ensures !ok ==> Faulted(s)
    ensures Replaced(old(s.log), s.log) <==> present
    ensures s.log == old(s.log) <==> !present && s.disk.objects == {}
    ensures ok && present ==> old(s.w).target.rows.Some?
                              && Quiet(Brought(old(s.w), OverwriteKind, s.w.hist[i]), s.w.target)
    ensures ok && !present && s.disk.objects != {} ==>
              Quiet(Brought(old(s.w), if force then RecreateKind else CreateKind, s.w.hist[i]), s.w.target)
    ensures ok ==> s.w.target.inflight.None? && (s.w.target.rows == Some(s.w.hist[i]) || s.w.target.rows.None?)
  {
    if present {
      ok := Submit(s, i, OverwriteKind);
    } else if force && s.entry.objects != {} {
      ok := Submit(s, i, RecreateKind);
    } else if s.entry.objects != {} {
      ok := Submit(s, i, CreateKind);
    } else {
      ok := true;
    }
  }

  /** With nothing in flight the rows stay, or the partition is dropped. */
  lemma RowsStay(a: World, b: World, i: Identity)
    requires Drift(a, b) && i in a.hist && a.target.inflight.None?
    ensures i in b.hist && b.hist[i] == a.hist[i] && b.target.inflight.None?
    ensures b.target.rows == a.target.rows || b.target.rows.None?
    ensures b.mode == a.mode && b.autoMatches == a.autoMatches
  {
  }

  /** After the import: a partition that matches is there, if rows were to be brought,
      and the source still has the identity. */
  method ConfirmImport(s: Site, i: Identity) returns (ok: bool)
    requires Ready(s, i) && i in s.w.hist && s.w.target.inflight.None?
    requires s.disk.objects == {} ==> s.w.hist[i] == multiset{}
    requires s.w.target.rows == Some(s.w.hist[i]) || s.w.target.rows.None?
    modifies s`w, s`faults, s`listed, s`listedAt
    ensures Kept(s) && i in s.w.hist && s.w.hist[i] == old(s.w.hist[i]) && Rests(s)
    ensures ok ==> TargetHolds(s.w.target, s.w.hist[i]) && s.w.target.inflight.None?
    ensures ok && s.disk.objects != {} ==> s.w.target.rows.Some? || s.w.target.dropped
    ensures !ok ==> Faulted(s) || Moved(s.w, i) || (s.disk.objects != {} && s.w.target.rows.None?)
    ensures ok ==> s.listed == Some(i) && s.listedAt == |s.log| && s.since.cur == Some(i)
  {
    hide Inv, Past, DriftBut;
    if s.entry.objects != {} {
      var found := s.TargetPartition();
      RowsStay(old(s.w), s.w, i);
      StaysQuiet(old(s.w), old(s.w), s.w);
      if found != Ok(true) { return false; }
    }
    ghost var matched := s.w;
    var current := s.SourcePartition();
    HoldsStays(matched, s.w, i);
    StaysQuiet(old(s.w), matched, s.w);
    if current == Ok(Some(i)) { Sandwich(s.since, s.since, s.w, i); }
    return current == Ok(Some(i));
  }

  /** The checks before an import: the objects, the source, and the target partition. */
  method CheckImport(s: Site, i: Identity) returns (present: Reply<bool>)
    requires Ready(s, i) && s.disk.backupReady && s.disk.backupIdentity == Some(i)
    modifies s`w, s`faults, s`listed, s`listedAt
    ensures Kept(s) && Rests(s)
    ensures present.Ok? ==> Importable(s, i) && s.listed == Some(i) && s.w.target.inflight.None?
    ensures present.Ok? && !present.value ==> s.w.target.rows.None? && s.auto
    ensures present.Ok? && present.value && old(s.w.target.inflight).None? ==> old(s.w.target.rows).Some?
    ensures present.Err? ==> Faulted(s) || Hindered(s.w, s.disk, s.auto, i)
  {
    hide Inv, Past, StoreDrift, SourceDrift, SourceValid, TargetDrift, Quiet, Importable, Site.Valid;
    var whole := CheckObjects(s, i);
    if !whole { return Err; }
    ghost var checked := s.w;
    present := FindTarget(s, i);
    QuietTwice(old(s.w).target, checked.target, s.w.target);
    AbsentStays(old(s.w).target, checked.target);
  }

  /** Everything up to the durable mark that an import is under way. */
  method PrepareImport(s: Site, i: Identity) returns (present: Reply<bool>, persisted: bool)
    requires Ready(s, i) && s.disk.backupReady && s.disk.backupIdentity == Some(i)
    modifies s`w, s`faults, s`disk, s`listed, s`listedAt, s.entry
    ensures Kept(s) && i in s.w.hist && Rests(s)
    ensures persisted ==> s.Synced()
    ensures s.disk == old(s.disk) || s.disk == old(s.disk).(importInProgress := true)
    ensures present.Ok? ==> persisted && Importable(s, i) && s.listed == Some(i) && s.disk.importInProgress
    ensures present.Ok? ==> s.w.target.inflight.None? && (!present.value ==> s.w.target.rows.None? && s.auto)
    ensures present.Ok? && present.value && old(s.w.target.inflight).None? ==> old(s.w.target.rows).Some?
    ensures present.Err? ==> Faulted(s) || Hindered(s.w, s.disk, s.auto, i)
    ensures !persisted ==> present.Err?
  {
    hide Inv, Past, SourceDrift, Drift, DriftBut, Quiet, Hindered;
    present := CheckImport(s, i);
    persisted := true;
    KnownSince(s, i);
    if present.Err? { return; }
    s.entry.BeginImport();
    BeginImportKeepsInv(s.w, s.disk, s.dirty);
    ghost var found := s.w;
    persisted := s.Save();
    DriftFrame(found, s.w);
    ImportableDrift(found, s.w, s.disk, i);
    SettledDrift(found, s.w);
    DriftIsQuiet(found, s.w);
    QuietTwice(old(s.w).target, found.target, s.w.target);
    if !persisted { present := Err; }
  }

  lemma SettledDrift(a: World, b: World)
    requires Drift(a, b) && a.target.inflight.None?
    ensures b.target.inflight.None? && (b.target.rows == a.target.rows || b.target.rows.None?)
    ensures a.target.dropped ==> b.target.dropped
  {
  }

  lemma DirtyKeepsInv(w: World, d: PartitionRow, dirty: bool)
    requires Inv(w, d, dirty)
    ensures Inv(w, d, true)
  {
  }

  /** The saved watermark is the maximum time of the contents of `i`. */
  predicate WatermarkFits(w: World, d: PartitionRow, i: Identity) {
    d.watermarkReady && i in w.hist && IsMax(w.hist[i], d.watermark)
  }

  /** A target that holds what it should, with nothing in flight, goes on holding it. */
  lemma HoldsStays(a: World, b: World, i: Identity)
    requires Drift(a, b) && i in a.hist && TargetHolds(a.target, a.hist[i]) && a.target.inflight.None?
    ensures i in b.hist && b.hist[i] == a.hist[i] && TargetHolds(b.target, b.hist[i]) && b.target.inflight.None?
    ensures b.mode == a.mode && b.autoMatches == a.autoMatches
  {
  }

  /** Record the finished import. The row is exact again only if the watermark it still
      carries is the maximum time of what was imported. */
  method RecordImport(s: Site, i: Identity) returns (persisted: bool)
    requires Ready(s, i) && i in s.w.hist && s.disk.backupIdentity == Some(i) && s.disk.backupReady
    requires TargetHolds(s.w.target, s.w.hist[i]) && s.w.target.inflight.None?
    modifies s`w, s`faults, s`disk, s`dirty, s`fulls, s.entry
    ensures Kept(s) && i in s.w.hist && s.w.hist[i] == old(s.w.hist[i]) && s.fulls == old(s.fulls) + 1
    ensures s.disk == ImportFinished(old(s.disk), i) || (!persisted && s.disk == old(s.disk))
    ensures if persisted then s.Synced() else Faulted(s)
    ensures TargetHolds(s.w.target, s.w.hist[i]) && s.w.target.inflight.None?
    ensures s.dirty == !(s.disk == ImportFinished(old(s.disk), i) && WatermarkFits(s.w, s.disk, i))
  {
    hide Inv, Past, DriftBut, TargetHolds, SourceDrift, StoreDrift, TargetDrift, SourceValid, IsMax;
    DirtyKeepsInv(s.w, s.disk, s.dirty);
    s.dirty, s.fulls := true, s.fulls + 1;
    s.entry.FinishImport(i);
    ImportDoneKeepsInv(s.w, s.disk, i, true);
    persisted := s.Save();
    HoldsStays(old(s.w), s.w, i);
    if s.disk == ImportFinished(old(s.disk), i) && WatermarkFits(s.w, s.disk, i) {
      ExactAgain(s.w, s.disk, i);
      s.dirty := false;
    }
  }

  /** A watermark that is the maximum of what the target holds makes the row exact. */
  lemma ExactAgain(w: World, d: PartitionRow, i: Identity)
    requires Inv(w, d, true) && d.pendingDelta.None? && d.importedIdentity == Some(i) && i in w.hist
    requires TargetHolds(w.target, w.hist[i]) && w.target.inflight.None? && IsMax(w.hist[i], d.watermark)
    ensures Inv(w, d, false)
  {
  }

  /** The statement, and the look at the target and the source after it. */
  method Deliver(s: Site, i: Identity, force: bool, present: bool) returns (ok: bool)
    requires Ready(s, i) && Importable(s, i) && s.listed == Some(i) && s.disk.importInProgress
    requires s.w.target.inflight.None? && (!present ==> s.w.target.rows.None?)
    modifies s`w, s`faults, s`dirty, s`log, s`fulls, s`excused, s`listed, s`listedAt
    ensures Kept(s) && i in s.w.hist && s.w.hist[i] == old(s.w.hist[i]) && OnlyIfFull(s)
    ensures WroteOnly(old(s.log), s.log, s.w.hist[i]) && (Replaced(old(s.log), s.log) <==> present)
    ensures ok ==> TargetHolds(s.w.target, s.w.hist[i]) && s.w.target.inflight.None?
    ensures ok ==> s.listed == Some(i) && s.listedAt == |s.log| && s.since.cur == Some(i)
    ensures s.log == old(s.log) <==> !present && s.disk.objects == {}
    ensures !ok ==> Faulted(s) || Moved(s.w, i) || Homeless(s.w, s.auto)
  {
    hide Inv, Past, Site.Valid, Drift, Quiet, Brought, Replaced, WroteOnly, TargetHolds;
    ghost var start := s.w;
    ok := Launch(s, i, force, present);
    if ok {
      ghost var launched := s.w;
      ok := ConfirmImport(s, i);
      if !ok && s.disk.objects != {} {
        BroughtHome(start, if present then OverwriteKind else if force then RecreateKind else CreateKind,
                    s.w.hist[i], launched.target, s.w);
      }
    }
  }

  /** The statement and what follows it, once the import is marked. */
  method Bring(s: Site, i: Identity, force: bool, present: bool) returns (r: Outcome)
    requires Ready(s, i) && Importable(s, i) && s.listed == Some(i) && s.disk.importInProgress
    requires s.w.target.inflight.None? && (!present ==> s.w.target.rows.None?)
    modifies s`w, s`faults, s`disk, s`dirty, s`log, s`fulls, s`excused, s`listed, s`listedAt, s.entry
    ensures Kept(s) && i in s.w.hist && OnlyIfFull(s)
    ensures r == Imported || r == Failed || r == NotPersisted
    ensures r != NotPersisted ==> s.Synced()
    ensures WroteOnly(old(s.log), s.log, s.w.hist[i]) && (Replaced(old(s.log), s.log) <==> present)
    ensures s.disk == old(s.disk) || (r != Failed && s.disk == ImportFinished(old(s.disk), i))
    ensures r == Imported ==> Imports(s, i) && (s.dirty <==> !WatermarkFits(s.w, s.disk, i)) && s.fulls > old(s.fulls)
    ensures r != Imported ==> Faulted(s) || Hindered(s.w, s.disk, s.auto, i)
  {
    hide Inv, WatermarkFits, Past, Site.Valid, Drift, Quiet, IsMax, Replaced, WroteOnly, TargetHolds;
    var done := Deliver(s, i, force, present);
    r := Failed;
    if done {
      var persisted := RecordImport(s, i);
      r := if persisted then Imported else NotPersisted;
    }
  }

  /** After a full statement the target is absent only if it was dropped since, or if AUTO
      PARTITION does not make one that matches. */
  lemma BroughtHome(w: World, kind: Kind, rows: Bag, launched: Target, now: World)
    requires kind != AppendKind && (kind == OverwriteKind ==> w.target.rows.Some?)
    requires Quiet(Brought(w, kind, rows), launched) && Quiet(launched, now.target) && now.autoMatches == w.autoMatches
    ensures now.target.rows.None? ==> now.target.dropped || !now.autoMatches
  {
  }

  /** The import half of syncPartition, from a ready backup of `i`. */
  method Import(s: Site, i: Identity, force: bool) returns (r: Outcome)
    requires Ready(s, i) && s.disk.backupReady && s.disk.backupIdentity == Some(i)
    modifies s`w, s`faults, s`disk, s`dirty, s`log, s`fulls, s`excused, s`listed, s`listedAt, s`snap, s.entry
    ensures Kept(s) && i in s.w.hist
    ensures r == Imported || r == Failed || r == NotPersisted
    ensures r != NotPersisted ==> s.Synced()
    ensures WroteOnly(old(s.log), s.log, s.w.hist[i])
    ensures s.disk.backupPrefix == old(s.disk.backupPrefix)
    ensures r == Imported ==> Imports(s, i) && (s.dirty <==> !WatermarkFits(s.w, s.disk, i)) && s.fulls > old(s.fulls)
    ensures s.disk.importedIdentity == old(s.disk.importedIdentity) || s.disk.importedIdentity == Some(i)
    ensures r == Failed ==> s.disk.importedIdentity == old(s.disk.importedIdentity)
    ensures OnlyIfFull(s)
    ensures Replaced(old(s.log), s.log) && old(s.w.target.inflight).None? ==> old(s.w.target.rows).Some?
    ensures r != Imported ==> Faulted(s) || Hindered(s.w, s.disk, s.auto, i)
  {
    hide Inv, SourceDrift, SourceValid, WatermarkFits, Past, Site.Valid, Quiet, IsMax, Importable, Imports;
    var present, persisted := PrepareImport(s, i);
    if !persisted { return NotPersisted; }
    if present.Err? { return Failed; }
    r := Bring(s, i, force, present.value);
  }

  /** The state a successful import leaves: recorded, confirmed against the source after
      the statement returned, and true of the target; the source had the identity all along. */
  ghost predicate Imports(s: Site, i: Identity)
    reads s
  {
    && i in s.w.hist && s.disk.importedIdentity == Some(i) && s.disk.backupIdentity == Some(i)
    && s.disk.backupReady && !s.disk.importInProgress
    && s.listed == Some(i) && s.listedAt == |s.log| && s.since.cur == Some(i)
    && TargetHolds(s.w.target, s.w.hist[i]) && s.w.target.inflight.None?
  }

  /** A row whose backup need not be made again for `i`. */
  predicate HasBackup(d: PartitionRow, i: Identity) {
    d.backupIdentity == Some(i) && d.backupReady && d.backupPrefix.Some?
  }

  /** A row that says the target already holds `i`. */
  predicate Skips(d: PartitionRow, i: Identity) {
    d.backupReady && d.backupPrefix.Some? && d.importedIdentity == Some(i) && !d.importInProgress
  }

  /** Is the partition known to be current? A row with objects also needs a matching
      target partition; without one the import is forgotten and made again. */
  method SkipOrForget(s: Site, i: Identity, force: bool) returns (r: Outcome, settled: bool)
    requires Ready(s, i)
    modifies s`w, s`faults, s`disk, s.entry
    ensures Kept(s) && Rests(s) && s.w.used == old(s.w.used)
    ensures settled && r != NotPersisted ==> s.Synced() && s.disk == old(s.disk)
    ensures !settled ==> s.Synced()
    ensures s.disk == old(s.disk) || s.disk == old(s.disk).(importedIdentity := None)
    ensures settled && r == Unchanged ==> !force && Skips(s.disk, i)
    ensures settled ==> r != Imported
    ensures !force && Skips(old(s.disk), i) ==>
              if old(s.disk.objects) == {} then settled && r == Unchanged
              else settled || s.disk == old(s.disk).(importedIdentity := None)
    ensures force || !Skips(old(s.disk), i) ==> !settled && s.disk == old(s.disk)
    ensures settled && r != Unchanged ==> Faulted(s)
    ensures old(s.w.target.rows).None? && old(s.w.target.inflight).None? && old(s.disk.objects) != {} ==> r != Unchanged
    ensures !force && Skips(old(s.disk), i) && !settled && old(s.w.target.inflight).None? ==> s.w.target.rows.None?
  {
    hide Inv, Past, Site.Valid, Quiet, Drift;
    var entry := s.entry;
    SelfQuiet(s.w.target);
    r, settled := Failed, false;
    if !force && entry.backupReady && entry.backupPrefix.Some? && entry.importedIdentity == Some(i)
       && !entry.importInProgress
    {
      if entry.objects == {} { return Unchanged, true; }
      var found := s.TargetPartition();
      ghost var looked := s.w;
      OneLook(old(s.w), looked);
      if found.Err? { return Failed, true; }
      if found.value { return Unchanged, true; }
      var saved := Forget(s);
      OneLook(looked, s.w);
      QuietTwice(old(s.w).target, looked.target, s.w.target);
      if !saved { return NotPersisted, true; }
    }
  }

  /** Forget that the target holds anything, durably. */
  method Forget(s: Site) returns (saved: bool)
    requires s.Valid() && s.Synced() && s.disk.pendingDelta.None?
    modifies s`w, s`faults, s`disk, s.entry
    ensures Kept(s) && Drift(old(s.w), s.w)
    ensures s.disk == old(s.disk).(importedIdentity := None) || (!saved && s.disk == old(s.disk))
    ensures if saved then s.Synced() else Faulted(s)
  {
    hide Inv, Past, SourceDrift;
    s.entry.ForgetImport();
    ForgetImportKeepsInv(s.w, s.disk, s.dirty);
    saved := s.Save();
  }

  /** Export, unless there is a backup of this very identity. */
  method EnsureBackup(s: Site, i: Identity, force: bool) returns (r: Outcome)
    requires Ready(s, i)
    modifies s`w, s`faults, s`disk, s`listed, s`listedAt, s`snap, s.entry
    ensures Kept(s) && Rests(s)
    ensures r == Imported || r == Failed || r == NotPersisted
    ensures r != NotPersisted ==> s.Synced()
    ensures r != Imported ==> Faulted(s) || Moved(s.w, i)
    ensures s.disk.importedIdentity == old(s.disk.importedIdentity)
    ensures r == Imported ==> s.disk.backupReady && s.disk.backupIdentity == Some(i)
    ensures r == Imported ==>
              if !force && HasBackup(old(s.disk), i) then s.disk.backupPrefix == old(s.disk.backupPrefix)
              else s.disk.backupPrefix.Some? && s.disk.backupPrefix.value !in old(s.w.used)
  {
    hide Inv, Past, SourceDrift, SourceValid, StoreDrift, TargetDrift;
    r := Imported;
    SelfQuiet(s.w.target);
    if force || s.entry.backupIdentity != Some(i) || !s.entry.backupReady || s.entry.backupPrefix.None? {
      r := BackUp(s, i);
    }
  }

  /** Export if need be, and import. */
  method Rebuild(s: Site, i: Identity, force: bool) returns (r: Outcome)
    requires Ready(s, i)
    modifies s`w, s`faults, s`disk, s`dirty, s`log, s`fulls, s`excused, s`listed, s`listedAt, s`snap, s.entry
    ensures Kept(s) && i in s.w.hist && OnlyIfFull(s)
    ensures r == Imported || r == Failed || r == NotPersisted
    ensures r != NotPersisted ==> s.Synced()
    ensures WroteOnly(old(s.log), s.log, s.w.hist[i])
    ensures Replaced(old(s.log), s.log) && old(s.w.target.inflight).None? ==> old(s.w.target.rows).Some?
    ensures r == Imported ==> Imports(s, i) && (s.dirty <==> !WatermarkFits(s.w, s.disk, i)) && s.fulls > old(s.fulls)
    ensures r == Imported ==>
              if !force && HasBackup(old(s.disk), i) then s.disk.backupPrefix == old(s.disk.backupPrefix)
              else s.disk.backupPrefix.Some? && s.disk.backupPrefix.value !in old(s.w.used)
    ensures s.disk.importedIdentity == old(s.disk.importedIdentity) || s.disk.importedIdentity == Some(i)
    ensures r == Failed ==> s.disk.importedIdentity == old(s.disk.importedIdentity)
    ensures r != Imported ==> Faulted(s) || Hindered(s.w, s.disk, s.auto, i)
  {
    hide Inv, Imports, WroteOnly, WatermarkFits, Past, Site.Valid, Quiet, Drift, Lost, Homeless;
    r := EnsureBackup(s, i, force);
    AbsentStays(old(s.w.target), s.w.target);
    KnownSince(s, i);
    NothingWritten(s.log, s.w.hist[i]);
    if r == Imported { r := Import(s, i, force); }
  }

  /** syncPartition. It skips only what it may skip, exports unless it has a backup of
      this very identity, and otherwise brings the target to the identity's contents
      with one statement; whatever fails, the invariant stands. A target that is there is
      replaced only if the row may not be skipped, and one that is not is not skipped. The
      attempt fails only if a foreign call does, or if it is hindered. */
  method SyncPartition(s: Site, i: Identity, force: bool) returns (r: Outcome)
    requires Ready(s, i) && (force ==> s.w.mode == OverwriteMode)
    modifies s`w, s`faults, s`disk, s`dirty, s`log, s`fulls, s`excused, s`listed, s`listedAt, s`snap, s.entry
    ensures Kept(s) && i in s.w.hist && OnlyIfFull(s)
    ensures r != NotPersisted ==> s.Synced()
    ensures WroteOnly(old(s.log), s.log, s.w.hist[i])
    ensures r == Unchanged ==> !force && Skips(s.disk, i)
                               && s.disk == old(s.disk) && s.log == old(s.log) && s.dirty == old(s.dirty)
    ensures !force && Skips(old(s.disk), i) && old(s.disk.objects) == {} ==> r == Unchanged
    ensures old(s.w.target.rows).None? && old(s.w.target.inflight).None? && old(s.disk.objects) != {} ==> r != Unchanged
    ensures Replaced(old(s.log), s.log) && old(s.w.target.inflight).None? ==>
              old(s.w.target.rows).Some? && (force || !Skips(old(s.disk), i))
    ensures r == Imported ==> Imports(s, i) && (s.dirty <==> !WatermarkFits(s.w, s.disk, i)) && s.fulls > old(s.fulls)
    ensures r == Imported ==>
              if !force && HasBackup(old(s.disk), i) then s.disk.backupPrefix == old(s.disk.backupPrefix)
              else s.disk.backupPrefix.Some? && s.disk.backupPrefix.value !in old(s.w.used)
    ensures s.disk.importedIdentity in {old(s.disk.importedIdentity), None, Some(i)}
    ensures r == Failed ==> s.disk.importedIdentity in {old(s.disk.importedIdentity), None}
    ensures r == Failed || r == NotPersisted ==> Faulted(s) || Hindered(s.w, s.disk, s.auto, i)
  {
    hide Inv, Imports, WroteOnly, WatermarkFits, Past, Site.Valid, Quiet, Drift, Hindered;
    KnownSince(s, i);
    var settled;
    r, settled := SkipOrForget(s, i, force);
    KnownSince(s, i);
    NothingWritten(s.log, s.w.hist[i]);
    AbsentStays(old(s.w.target), s.w.target);
    if !settled { r := Rebuild(s, i, force); }
  }

  lemma NothingWritten(log: seq<Write>, c: Bag)
    ensures WroteOnly(log, log, c)
  {
  }

  lemma KnownSince(s: Site, i: Identity)
    requires s.Valid() && i in s.since.hist
    ensures i in s.w.hist && s.w.hist[i] == s.since.hist[i]
  {
  }

  /** Overwrite soundness, as the skip decision needs it: if the row says the source's
      present identity is imported, the target holds exactly the source's present rows,
      unless someone dropped it. With deltas this takes a watermark that is exact. */
  lemma ImportedIsCurrent(w: World, d: PartitionRow, dirty: bool)
    requires Inv(w, d, dirty) && d.importedIdentity.Some? && d.importedIdentity == w.cur
    requires w.mode == OverwriteMode || !d.watermarkReady || (!dirty && !Started(d))
    ensures d.importedIdentity.value in w.hist && TargetHolds(w.target, w.hist[d.importedIdentity.value])
    ensures !w.target.dropped ==>
              (if w.target.rows.Some? then w.target.rows.value else multiset{}) == w.hist[d.importedIdentity.value]
    ensures w.autoMatches ==> w.target.stray == multiset{}
  {
  }
}
