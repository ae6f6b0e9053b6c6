/** Where the guarantees stop: the conditions under which the protocol does what it is for,
    each with the inputs that show what happens without it. */
module Limits {
  import opened Rows
  import opened Checkpoint
  import opened Outside
  import opened PartitionInvariant
  import opened Sites
  import opened OverwriteSync
  import opened DeltaSync
  import Strings

  // ---------- A watermark left behind ----------

  /** Every row of `imported` is at or before `m`, and every row added since is after it. */
  ghost predicate Separates(imported: Bag, now: Bag, m: int) {
    && (forall r | r in imported :: r.time <= m)
    && (forall r | r in now && now[r] > imported[r] :: m < r.time)
  }

  /** A full import whose seedWatermark fails leaves a watermark that need not belong to
      what was imported: that of an earlier version, or of another partition ID. The delta
      that follows is right if and only if the watermark separates the imported rows from
      those added since. */
  lemma StaleWatermarkIff(imported: Bag, now: Bag, m: int, to: int)
    requires Appends(imported, now) && IsMax(now, Some(to)) && m <= to
    ensures imported + After(now, m, to) == now <==> Separates(imported, now, m)
  {
    hide Appends, IsMax;
    DeltaExactIff(imported, now, m, to);
    UpToIff(imported, now, m);
  }

  lemma UpToIff(imported: Bag, now: Bag, m: int)
    requires Appends(imported, now)
    ensures imported == UpTo(now, Some(m)) <==> Separates(imported, now, m)
  {
    var upTo := UpTo(now, Some(m));
    if Separates(imported, now, m) {
      forall r ensures imported[r] == upTo[r] {
        if r !in now { assert imported[r] == now[r] == 0; }
      }
    }
    if imported == upTo {
      forall r | r in imported ensures r.time <= m { assert upTo[r] > 0; }
      forall r | r in now && now[r] > imported[r] ensures m < r.time { assert upTo[r] < now[r]; }
    }
  }

  /** At the time of the import the next version is not known: every delta that can follow
      is right if and only if the watermark is the maximum time of what was imported. */
  lemma StaleWatermarkSafeIff(imported: Bag, m: int)
    ensures (forall now, to | Appends(imported, now) && IsMax(now, Some(to)) && m < to ::
               imported + After(now, m, to) == now)
            <==> IsMax(imported, Some(m))
  {
    hide Appends;
    if IsMax(imported, Some(m)) {
      forall now, to | Appends(imported, now) && IsMax(now, Some(to)) && m < to
        ensures imported + After(now, m, to) == now
      {
        DeltaCompletes(imported, now, m, to);
      }
    } else {
      var top := LatestTime(imported, m);
      var now := imported + multiset{Row(m, 0), Row(top + 1, 0)};
      if top > m { now := imported + multiset{Row(top + 1, 0)}; }
      NextVersion(imported, m, top, now);
      StaleWatermarkIff(imported, now, m, top + 1);
    }
  }

  /** The latest time in `c`, or `m` if that is later. */
  lemma {:induction false} LatestTime(c: Bag, m: int) returns (top: int)
    ensures top >= m && (forall r | r in c :: r.time <= top) && (top == m || exists r | r in c :: r.time == top)
    decreases |c|
  {
    top := m;
    if r :| r in c {
      top := LatestTime(c - multiset{r}, m);
      var rest := c - multiset{r};
      assert forall s | s in c :: s == r || s in rest;
      if r.time > top { top := r.time; }
    }
  }

  /** A next version that a watermark other than the maximum does not fit. */
  lemma NextVersion(imported: Bag, m: int, top: int, now: Bag)
    requires top >= m && (forall r | r in imported :: r.time <= top) && !IsMax(imported, Some(m))
    requires top == m || exists r | r in imported :: r.time == top
    requires now == imported + if top > m then multiset{Row(top + 1, 0)} else multiset{Row(m, 0), Row(top + 1, 0)}
    ensures Appends(imported, now) && IsMax(now, Some(top + 1)) && !Separates(imported, now, m)
  {
    assert Row(top + 1, 0) in now;
    if top == m { assert Row(m, 0) in now && now[Row(m, 0)] > imported[Row(m, 0)]; }
  }

  /** After a restore under the same partition ID the watermark is the maximum of an older
      version. No row can be lost then, and already the one next version shows whether the
      watermark is the maximum of what was imported. */
  lemma SameIdWatermarkIff(older: Bag, imported: Bag, now: Bag, m: int, to: int)
    requires Appends(older, imported) && Appends(imported, now)
    requires IsMax(older, Some(m)) && IsMax(now, Some(to))
    ensures imported + After(now, m, to) == now <==> IsMax(imported, Some(m))
    ensures now <= imported + After(now, m, to)
  {
    hide Appends, IsMax, Separates;
    SeparatesIff(older, imported, now, m, to);
    StaleWatermarkIff(imported, now, m, to);
    forall r ensures now[r] <= (imported + After(now, m, to))[r] { NothingLost(older, imported, now, m, to, r); }
  }

  lemma SeparatesIff(older: Bag, imported: Bag, now: Bag, m: int, to: int)
    requires Appends(older, imported) && Appends(imported, now) && IsMax(older, Some(m)) && IsMax(now, Some(to))
    ensures Separates(imported, now, m) <==> IsMax(imported, Some(m))
    ensures m <= to
  {
    var top :| top in older && top.time == m;
    assert top in imported && top in now;
  }

  lemma NothingLost(older: Bag, imported: Bag, now: Bag, m: int, to: int, r: Row)
    requires Appends(older, imported) && Appends(imported, now) && IsMax(older, Some(m)) && IsMax(now, Some(to))
    ensures now[r] <= imported[r] + After(now, m, to)[r]
  {
    var top :| top in older && top.time == m;
    if now[r] > imported[r] { assert top in imported && r in now; }
  }

  /** The same of any state that satisfies the invariant: what the next delta makes of a
      target that holds what the row says. */
  lemma NextDeltaIff(w: World, d: PartitionRow, dirty: bool, i: Identity, to: int)
    requires Inv(w, d, dirty) && w.mode == TimeWindow && w.cur == Some(i) && IsMax(w.hist[i], Some(to))
    requires MayBegin(d, to, i) && w.target.rows == Some(w.hist[d.importedIdentity.value])
    ensures w.target.rows.value + After(w.hist[i], d.watermark.value, to) == w.hist[i]
            <==> Separates(w.hist[d.importedIdentity.value], w.hist[i], d.watermark.value)
  {
    hide Appends, IsMax, BackupSound, ImportSound, PendingShape, PendingSound, InflightSound, Exact, Separates;
    StaleWatermarkIff(w.hist[d.importedIdentity.value], w.hist[i], d.watermark.value, to);
  }

  const A := Identity("p", 1)
  const B := Identity("p", 2)
  const C := Identity("p", 3)

  function Stamped(t: int): Row {
    Row(t, 0)
  }

  /** Three versions, each appending one row. */
  const VERSIONS: map<Identity, Bag> :=
    map[A := multiset{Stamped(1)},
        B := multiset{Stamped(1), Stamped(2)},
        C := multiset{Stamped(1), Stamped(2), Stamped(3)}]

  function WorldAt(mode: Mode, i: Identity, target: Option<Bag>, store: map<Prefix, Batch>, used: set<Prefix>): World {
    World(mode, true, VERSIONS, Some(i), store, used, {}, {}, Target(target, multiset{}, false, None))
  }

  /** A row exact at version A: imported, with its maximum time as the watermark. */
  const IMPORTED_A := PartitionRow(Some(A), Some(A), Some(Full(0)), Some(A), {"a"}, true, false, Some(1), true, None)

  /** The full restore of version B, finished, before seedWatermark. */
  const RESTORED_B := ImportFinished(
    BackupAccepted(BackupBegun(IMPORTED_A, B, Full(1)), B, {"b"}).(importInProgress := true), B)

  /** A version that adds rows with later stamps. */
  lemma LaterRowsAppend(c: Bag, more: Bag, m: int)
    requires (forall r | r in c :: r.time <= m) && forall r | r in more :: m < r.time
    ensures Appends(c, c + more)
  {
  }

  lemma BGrows()
    ensures VERSIONS[B] == VERSIONS[A] + multiset{Stamped(2)}
    ensures Appends(VERSIONS[A], VERSIONS[B])
  {
    LaterRowsAppend(VERSIONS[A], multiset{Stamped(2)}, 1);
  }

  lemma CGrows()
    ensures VERSIONS[C] == VERSIONS[B] + multiset{Stamped(3)}
    ensures Appends(VERSIONS[B], VERSIONS[C])
  {
    LaterRowsAppend(VERSIONS[B], multiset{Stamped(3)}, 2);
  }

  lemma CGrowsTwice()
    ensures VERSIONS[C] == VERSIONS[A] + multiset{Stamped(2), Stamped(3)}
    ensures Appends(VERSIONS[A], VERSIONS[C])
  {
    LaterRowsAppend(VERSIONS[A], multiset{Stamped(2), Stamped(3)}, 1);
  }

  lemma VersionsAppend()
    ensures Appends(VERSIONS[A], VERSIONS[B]) && Appends(VERSIONS[B], VERSIONS[C]) && Appends(VERSIONS[A], VERSIONS[C])
    ensures forall i | i in VERSIONS :: Appends(VERSIONS[i], VERSIONS[i])
  {
    hide Appends;
    BGrows();
    CGrows();
    CGrowsTwice();
    forall i | i in VERSIONS ensures Appends(VERSIONS[i], VERSIONS[i]) { SelfAppends(VERSIONS[i]); }
  }

  lemma SelfAppends(c: Bag)
    ensures Appends(c, c)
  {
  }

  lemma VersionsMax()
    ensures IsMax(VERSIONS[A], Some(1)) && IsMax(VERSIONS[C], Some(3))
  {
    assert Stamped(1) in VERSIONS[A] && Stamped(3) in VERSIONS[C];
  }

  /** The world in which the restore of B has just been recorded and the source is at C. */
  const AT_C := WorldAt(TimeWindow, C, Some(VERSIONS[B]), map[Full(1) := Batch({"b"}, VERSIONS[B])], {Full(0), Full(1)})

  lemma VersionsAreSource()
    ensures SourceValid(AT_C)
  {
    hide Appends;
    VersionsAppend();
    forall i, j | i in AT_C.hist && j in AT_C.hist && i.id == j.id && i.version <= j.version
      ensures Appends(AT_C.hist[i], AT_C.hist[j])
    {
      assert i in {A, B, C} && j in {A, B, C};
    }
  }

  lemma RestoredIsAllowed()
    ensures Inv(AT_C, RESTORED_B, true)
  {
    hide SourceValid, Appends, IsMax;
    VersionsAreSource();
    assert BackupSound(AT_C, RESTORED_B);
  }

  /** seedWatermark fails after a restore: the row is what the restore's own steps leave,
      the state satisfies all that is proved of reachable ones, the target is right, and the
      next attempt begins a delta that brings row 2 a second time. */
  lemma StaleWatermarkDuplicates()
    ensures Inv(AT_C, RESTORED_B, true) && AT_C.target.rows == Some(VERSIONS[B])
    ensures MayBegin(RESTORED_B, 3, C) && IsMax(VERSIONS[C], Some(3))
    ensures VERSIONS[C][Stamped(2)] == 1 && (VERSIONS[B] + After(VERSIONS[C], 1, 3))[Stamped(2)] == 2
  {
    hide Inv;
    RestoredIsAllowed();
    VersionsMax();
  }

  // ---------- A watermark of another partition ID ----------

  const P := Identity("p", 1)
  const Q1 := Identity("q", 1)
  const Q2 := Identity("q", 2)

  /** Partition ID p was replaced by q, whose rows are earlier. */
  const REPLACED: map<Identity, Bag> :=
    map[P := multiset{Stamped(10)},
        Q1 := multiset{Stamped(1), Stamped(2)},
        Q2 := multiset{Stamped(1), Stamped(2), Stamped(5), Stamped(11)}]

  /** A row exact at P, and what the full replace by Q1 leaves of it before seedWatermark. */
  const IMPORTED_P := PartitionRow(Some(P), Some(P), Some(Full(0)), Some(P), {"p"}, true, false, Some(10), true, None)
  const REPLACED_Q := ImportFinished(
    BackupAccepted(BackupBegun(IMPORTED_P, Q1, Full(1)), Q1, {"q"}).(importInProgress := true), Q1)

  /** The world in which that has just been recorded and the source is at Q2. */
  const AT_Q2 := World(TimeWindow, true, REPLACED, Some(Q2), map[Full(1) := Batch({"q"}, REPLACED[Q1])],
                       {Full(0), Full(1)}, {}, {}, Target(Some(REPLACED[Q1]), multiset{}, false, None))

  lemma QGrows()
    ensures Appends(REPLACED[Q1], REPLACED[Q2]) && IsMax(REPLACED[Q2], Some(11))
  {
    assert REPLACED[Q2] == REPLACED[Q1] + multiset{Stamped(5), Stamped(11)};
    LaterRowsAppend(REPLACED[Q1], multiset{Stamped(5), Stamped(11)}, 2);
    assert Stamped(11) in REPLACED[Q2];
  }

  lemma ReplacedIsAllowed()
    ensures Inv(AT_Q2, REPLACED_Q, true)
  {
    hide Appends, IsMax;
    QGrows();
    forall i | i in REPLACED ensures Appends(REPLACED[i], REPLACED[i]) { SelfAppends(REPLACED[i]); }
    forall i, j | i in REPLACED && j in REPLACED && i.id == j.id && i.version <= j.version
      ensures Appends(REPLACED[i], REPLACED[j])
    {
      assert i in {P, Q1, Q2} && j in {P, Q1, Q2};
    }
    assert BackupSound(AT_Q2, REPLACED_Q);
  }

  /** seedWatermark fails after the partition ID changed: again the row is what the
      protocol's own steps leave and the target is right, but the next attempt begins a
      delta from the other partition's watermark, and row 5 is never brought. */
  lemma StaleWatermarkLoses()
    ensures Inv(AT_Q2, REPLACED_Q, true) && AT_Q2.target.rows == Some(REPLACED[Q1])
    ensures MayBegin(REPLACED_Q, 11, Q2) && IsMax(REPLACED[Q2], Some(11))
    ensures REPLACED[Q2][Stamped(5)] == 1 && (REPLACED[Q1] + After(REPLACED[Q2], 10, 11))[Stamped(5)] == 0
  {
    hide Inv;
    ReplacedIsAllowed();
    QGrows();
  }

  /** Had only row 11 been added, the same delta would have been right. */
  lemma StaleWatermarkMayFit()
    ensures REPLACED[Q1] + After(REPLACED[Q1] + multiset{Stamped(11)}, 10, 11) == REPLACED[Q1] + multiset{Stamped(11)}
    ensures !IsMax(REPLACED[Q1], Some(10))
  {
    var now := REPLACED[Q1] + multiset{Stamped(11)};
    LaterRowsAppend(REPLACED[Q1], multiset{Stamped(11)}, 2);
    assert Stamped(11) in now;
    StaleWatermarkIff(REPLACED[Q1], now, 10, 11);
  }

  // ---------- The naive invariant ----------

  /** The row after: A imported; B backed up and its replacement committed; a crash before
      that was saved; and then a backup begun for C. */
  const MOVED_ON := BackupBegun(
    BackupAccepted(BackupBegun(IMPORTED_A.(watermark := None, watermarkReady := false), B, Full(1)), B, {"b"})
      .(importInProgress := true), C, Full(2))

  /** "The target holds what the row says it imported" does not follow from Inv, and no
      stronger invariant could have it: the row is what the protocol's own steps leave, the
      target holds version B, the row says A, and no import is marked as in progress. What
      does hold is Inv, because A can never be the source's identity again. */
  lemma NaiveInvariantFails()
    ensures var w := WorldAt(OverwriteMode, C, Some(VERSIONS[B]), map[], {Full(0), Full(1), Full(2)});
            && Inv(w, MOVED_ON, true)
            && MOVED_ON.importedIdentity == Some(A) && !MOVED_ON.importInProgress
            && w.target.inflight.None? && w.target.rows == Some(VERSIONS[B]) && !TargetHolds(w.target, VERSIONS[A])
  {
    assert VERSIONS[A][Stamped(2)] == 0 && VERSIONS[B][Stamped(2)] == 1;
  }

  // ---------- The initial import ----------

  /** What one attempt of an initial import leaves when its statement commits but the
      attempt fails: it replaces a partition that is there and inserts otherwise. */
  function Attempt(w: World, rows: Bag): World {
    Committed(w, if w.target.rows.Some? then Overwrite(rows) else Create(rows))
  }

  /** All rows of the target table that came from this partition. */
  function Everything(w: World): Bag {
    Held(w.target) + w.target.stray
  }

  /** An initial import that is retried after its INSERT committed leaves every row once
      if and only if AUTO PARTITION made a partition that matches the source's. */
  lemma RetryDoublesIff(w: World, rows: Bag)
    requires w.target == Target(None, multiset{}, false, None)
    ensures Everything(Attempt(Attempt(w, rows), rows)) == rows <==> w.autoMatches || rows == multiset{}
    ensures !w.autoMatches ==> Everything(Attempt(Attempt(w, rows), rows)) == rows + rows
  {
  }

  /** The same of two attempts as the program makes them: the first one's INSERT commits,
      but the attempt does not get past the lookup and listing that follow; the second
      one checks the objects again, looks for a target partition and writes to it. `ran`
      says that both statements committed. Without a partition that matches, the first
      attempt cannot be confirmed, so there always is a second. */
  method RetryImport(s: Site, i: Identity) returns (confirmed: bool, ran: bool)
    requires Ready(s, i) && Importable(s, i) && s.listed == Some(i) && s.disk.importInProgress
    requires s.disk.objects != {} && s.w.target == Target(None, multiset{}, false, None)
    modifies s`w, s`faults, s`disk, s`dirty, s`log, s`fulls, s`excused, s`listed, s`listedAt, s.entry
    ensures s.Valid() && i in s.w.hist && s.w.hist[i] == old(s.w.hist[i]) && s.w.autoMatches == old(s.w.autoMatches)
    ensures confirmed ==> s.w.autoMatches
    ensures ran && !s.w.target.dropped ==>
              (Everything(s.w) == s.w.hist[i] <==> s.w.autoMatches || s.w.hist[i] == multiset{})
    ensures ran && !s.w.autoMatches ==> Everything(s.w) == s.w.hist[i] + s.w.hist[i]
  {
    hide Inv, Past, Site.Valid, SourceDrift, Brought, Quiet, Everything;
    ghost var rows := s.w.hist[i];
    confirmed, ran := false, false;
    ghost var start := s.w;
    var launched := Launch(s, i, false, false);
    if !launched { return; }
    ghost var first := s.w;
    confirmed := ConfirmImport(s, i);
    ghost var second := s.w;
    FirstAttempt(start, rows, first.target, second.target);
    if confirmed { return; }
    KnownSince(s, i);
    var present, persisted := PrepareImport(s, i);
    KnownSince(s, i);
    if present.Err? { return; }
    ghost var third := s.w;
    ran := Launch(s, i, false, present.value);
    if ran { SecondAttempt(second.target, third, present.value, rows, s.w); }
  }

  lemma FirstAttempt(w: World, rows: Bag, after: Target, confirmed: Target)
    requires w.target == Target(None, multiset{}, false, None)
    requires Quiet(Brought(w, CreateKind, rows), after) && Quiet(after, confirmed)
    ensures AfterInsert(w.autoMatches, confirmed, rows)
  {
  }

  /** What an initial INSERT of `rows` leaves. */
  predicate AfterInsert(auto: bool, t: Target, rows: Bag) {
    if auto then t.inflight.None? && t.stray == multiset{} && (t.rows == Some(rows) || (t.rows.None? && t.dropped))
    else t == Target(None, rows, false, None)
  }

  lemma SecondAttempt(t: Target, w: World, present: bool, rows: Bag, after: World)
    requires AfterInsert(w.autoMatches, t, rows) && Quiet(t, w.target) && after.autoMatches == w.autoMatches
    requires if present then w.target.rows.Some? else w.target.rows.None?
    requires Quiet(Brought(w, if present then OverwriteKind else CreateKind, rows), after.target)
    ensures w.autoMatches && !after.target.dropped ==> Everything(after) == rows
    ensures !w.autoMatches ==> Everything(after) == rows + rows
  {
  }

  /** Even a matching partition does not help while the first INSERT has not settled: both
      attempts see no partition, both insert, and both commit. */
  lemma UnsettledDoublesIff(w: World, rows: Bag)
    requires w.autoMatches && w.target == Target(None, multiset{}, false, None)
    ensures var late := Committed(Committed(w, Create(rows)), Create(rows));
            && Everything(late) == rows + rows
            && (Everything(late) == rows <==> rows == multiset{})
  {
  }

  // ---------- Identities and late writers ----------

  /** The sandwich needs identities that never recur. A backup accepted for the identity the
      last listing shows is sound if and only if the export read that identity's contents.
      Identities that do not recur see to that; going from A to B and back to A between
      the two listings would not. */
  lemma AcceptedBackupIff(snap: World, last: World, d: PartitionRow, i: Identity, prefix: Prefix)
    requires last.cur == Some(i) && i in last.hist && Contents(snap).Some?
    requires d.backupPrefix == Some(prefix) && prefix !in last.late
    requires At(last, prefix).files != {} && At(last, prefix).rows == Contents(snap).value
    ensures BackupSound(last, BackupAccepted(d, i, At(last, prefix).files)) <==> Contents(snap) == Some(last.hist[i])
    ensures i in snap.hist && SourceDrift(snap, last) ==> BackupSound(last, BackupAccepted(d, i, At(last, prefix).files))
    ensures snap.hist == last.hist && snap.cur != Some(i) && last.hist[snap.cur.value] != last.hist[i] ==>
              !BackupSound(last, BackupAccepted(d, i, At(last, prefix).files))
  {
  }

  /** A batch that was checked, and that nothing may remove, is what the INSERT reads some
      time later, whatever happens in between, if and only if no late writer is left under
      its prefix: exactly then the delta is sure to complete the target. */
  lemma LateWriterIff(w: World, p: Prefix, before: Bag, now: Bag, from: int, to: int)
    requires Appends(before, now) && IsMax(before, Some(from)) && IsMax(now, Some(to))
    requires p in w.pinned && At(w, p).rows == After(now, from, to)
    ensures (forall b | Drift(w, b) :: before + At(b, p).rows == now) <==> p !in w.late
  {
    hide Appends, IsMax;
    DeltaCompletes(before, now, from, to);
    if p in w.late {
      var more := Batch(At(w, p).files, At(w, p).rows + multiset{Row(to, 0)});
      var b := w.(store := w.store[p := more]);
      LateWriteDrifts(w, p, more);
      assert At(b, p) == more;
      assert (before + At(b, p).rows)[Row(to, 0)] == now[Row(to, 0)] + 1;
    } else {
      forall b | Drift(w, b) ensures before + At(b, p).rows == now { AtOutsideDrift(w, b, {}, p); }
    }
  }

  /** Under a prefix with a late writer anything may appear. */
  lemma LateWriteDrifts(w: World, p: Prefix, batch: Batch)
    requires p in w.late
    ensures Drift(w, w.(store := w.store[p := batch]))
  {
  }

  // ---------- The header of MAX(time) ----------

  /** normalizeHeader: underscores and blanks removed, letters in lower case. */
  function NormalizeHeader(s: string): string {
    if s == "" then ""
    else (if s[0] == '_' || s[0] == ' ' then "" else [Strings.Lower(s[0])]) + NormalizeHeader(s[1..])
  }

  /** query files every column under its normalized header, and maxTime looks for one with
      an underscore: as written it finds none, whatever the server calls the column. */
  lemma {:induction false} MaxTimeIsNeverFound(header: string)
    ensures '_' !in NormalizeHeader(header) && NormalizeHeader(header) != "max_time"
  {
    if header != "" {
      MaxTimeIsNeverFound(header[1..]);
    }
    assert "max_time"[3] == '_';
  }
}
