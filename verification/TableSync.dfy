/** main.go: syncTable, maybeScanCompleted and the restarts around them. */
module TableSync {
  import opened Rows
  import opened Checkpoint
  import opened Outside
  import opened PartitionInvariant
  import opened Sites
  import opened OverwriteSync
  import opened DeltaSync

  /** openState: all a new process knows is the saved row. */
  method Restart(s: Site)
    requires s.Valid()
    modifies s.entry
    ensures s.Valid() && s.Synced()
  {
    s.entry.Load(s.disk);
  }

  /** Any run of the service on one partition: attempts for whatever identity was ever
      listed, forced or not, crashes and restarts, in any number and order. An attempt may
      end at any of its foreign calls, so what holds at the end of every run holds in
      every reachable state. */
  method Run(s: Site, attempts: nat)
    requires s.Valid()
    modifies s, s.entry
    ensures s.Valid() && s.Synced()
    ensures Skippable(s.w, s.disk)
    ensures WholeOrAbsent(s.w, s.initial)
    ensures old(Inv(s.w, s.disk, false)) && s.fulls == old(s.fulls) && !s.w.target.dropped ==> DeltaExact(s.w, s.disk)
    ensures old(s.log) <= s.log && forall x | x in s.log :: Announced(x)
    ensures Started(old(s.disk)) ==> s.log == old(s.log) && s.disk == old(s.disk)
  {
    hide Site.Valid, Skippable, Started, DeltaExact, WholeOrAbsent, Announced, Inv;
    StartExact(s);
    Restart(s);
    var k := 0;
    while k < attempts
      invariant s.Valid() && s.Synced() && old(s.log) <= s.log && old(s.fulls) <= s.fulls
      invariant old(Inv(s.w, s.disk, false)) && s.fulls == old(s.fulls) && s.dirty ==> s.excused
      invariant Started(old(s.disk)) ==> s.log == old(s.log) && s.disk == old(s.disk)
    {
      Turn(s);
      k := k + 1;
    }
    AtAnyTime(s);
  }

  /** If the row is exact, it counts as exact. */
  ghost method StartExact(s: Site)
    requires s.Valid()
    modifies s`dirty
    ensures s.Valid() && (Inv(s.w, s.disk, false) ==> !s.dirty)
  {
    hide Inv;
    if Inv(s.w, s.disk, false) { s.dirty := false; }
  }

  /** One turn of a run: the world moves, the process may have been restarted, and there
      may be an attempt. */
  method Turn(s: Site)
    requires s.Valid() && s.Synced()
    modifies s, s.entry
    ensures s.Valid() && s.Synced() && old(s.log) <= s.log && Excusing(s)
    ensures Started(old(s.disk)) ==> s.log == old(s.log) && s.disk == old(s.disk)
  {
    hide Site.Valid, Started, Drift, Imports;
    s.Unpin();
    s.Interfere();
    if * { Restart(s); }
    var i: Identity := *;
    var force: bool := *;
    if i in s.w.hist && (force ==> s.w.mode == OverwriteMode) {
      var r := SyncPartitionByMode(s, i, force);
      if r == NotPersisted { Restart(s); }
    }
  }

  /** What holds of a partition in every state. */
  lemma AtAnyTime(s: Site)
    requires s.Valid()
    ensures Skippable(s.w, s.disk) && WholeOrAbsent(s.w, s.initial)
    ensures (s.excused ==> s.w.target.dropped) && (!s.dirty && !s.w.target.dropped ==> DeltaExact(s.w, s.disk))
    ensures forall x | x in s.log :: Announced(x)
  {
    hide Inv, Past, Skippable, DeltaExact, WholeOrAbsent, Announced;
    InvSkippable(s.w, s.disk, s.dirty);
    PastWhole(s.w, s.disk, s.dirty, s.initial, s.excused);
    if !s.dirty && !s.w.target.dropped { DeltaSafety(s.w, s.disk); }
    NotExcused(s.w, s.initial, s.excused);
  }

  /** Overwrite soundness: a partition the row says is current is current, unless someone
      dropped it; and no import was ever loaded beside its partition. */
  ghost predicate Skippable(w: World, d: PartitionRow) {
    w.mode == OverwriteMode && d.importedIdentity.Some? && d.importedIdentity == w.cur ==>
      && d.importedIdentity.value in w.hist
      && (!w.target.dropped ==> Held(w.target) == w.hist[d.importedIdentity.value])
      && (w.autoMatches ==> w.target.stray == multiset{})
  }

  lemma InvSkippable(w: World, d: PartitionRow, dirty: bool)
    requires Inv(w, d, dirty)
    ensures Skippable(w, d)
  {
  }

  /** Never doubled, in any state: the target holds nothing, what it held at first, or one
      version of the source, each row as often as that version has it. */
  ghost predicate WholeOrAbsent(w: World, initial: Option<Bag>) {
    w.mode == OverwriteMode && w.autoMatches ==>
      && w.target.stray == multiset{}
      && (w.target.rows.None? || w.target.rows == initial || exists i | i in w.hist :: w.hist[i] == w.target.rows.value)
  }

  lemma PastWhole(w: World, d: PartitionRow, dirty: bool, initial: Option<Bag>, excused: bool)
    requires Inv(w, d, dirty) && Past(w.mode, w.autoMatches, w.hist, w.target, initial, excused)
    ensures WholeOrAbsent(w, initial)
  {
  }

  lemma NotExcused(w: World, initial: Option<Bag>, excused: bool)
    requires Past(w.mode, w.autoMatches, w.hist, w.target, initial, excused)
    ensures excused ==> w.target.dropped
  {
  }

  // ---------- Many partitions ----------

  /** The partitions of all tables: each has its own checkpoint entry. */
  ghost predicate Fleet(sites: seq<Site>)
    reads sites
  {
    && (forall s | s in sites :: s.Valid())
    && (forall j, k | 0 <= j < k < |sites| :: sites[j] != sites[k] && sites[j].entry != sites[k].entry)
  }

  ghost function Entries(sites: seq<Site>): set<object> {
    set s | s in sites :: s.entry
  }

  /** Memory and disk agree for the first `n` partitions. */
  ghost predicate SyncedTo(sites: seq<Site>, n: nat)
    requires n <= |sites|
    reads sites, Entries(sites)
  {
    forall k | 0 <= k < n :: sites[k].Synced()
  }

  ghost predicate SyncedFrom(sites: seq<Site>, n: nat)
    reads sites, Entries(sites)
  {
    forall k | n <= k < |sites| :: sites[k].Synced()
  }

  ghost predicate AllSynced(sites: seq<Site>)
    reads sites, Entries(sites)
  {
    SyncedTo(sites, |sites|)
  }

  lemma SyncedBothWays(sites: seq<Site>)
    requires AllSynced(sites)
    ensures SyncedFrom(sites, 0) && SyncedTo(sites, 0)
  {
  }

  // The fleet's state as values, so that what a loop keeps can be said without the heap.

  ghost function WorldsOf(sites: seq<Site>): (a: seq<World>)
    reads sites`w
    ensures |a| == |sites|
  {
    if sites == [] then [] else WorldsOf(sites[..|sites| - 1]) + [sites[|sites| - 1].w]
  }

  /** The rows on disk. */
  ghost function RowsOf(sites: seq<Site>): (a: seq<PartitionRow>)
    reads sites`disk
    ensures |a| == |sites|
  {
    if sites == [] then [] else RowsOf(sites[..|sites| - 1]) + [sites[|sites| - 1].disk]
  }

  /** The attempts made so far, partition by partition. */
  ghost function AttemptsOf(sites: seq<Site>): (a: seq<seq<Identity>>)
    reads sites`attempts
    ensures |a| == |sites|
  {
    if sites == [] then [] else AttemptsOf(sites[..|sites| - 1]) + [sites[|sites| - 1].attempts]
  }

  lemma {:induction false} AllAt(sites: seq<Site>)
    ensures forall k | 0 <= k < |sites| :: WorldsOf(sites)[k] == sites[k].w
    ensures forall k | 0 <= k < |sites| :: RowsOf(sites)[k] == sites[k].disk
    ensures forall k | 0 <= k < |sites| :: AttemptsOf(sites)[k] == sites[k].attempts
  {
    if sites != [] {
      var front := sites[..|sites| - 1];
      AllAt(front);
      forall k | 0 <= k < |sites| - 1 ensures sites[k] == front[k] {}
    }
  }

  /** Modes stay, and the sources only move on. */
  ghost predicate Later(a: seq<World>, b: seq<World>) {
    |a| == |b| && forall k | 0 <= k < |a| :: b[k].mode == a[k].mode && SourceDrift(a[k], b[k])
  }

  ghost predicate ModeIs(a: seq<World>, mode: Mode) {
    forall k | 0 <= k < |a| :: a[k].mode == mode
  }

  /** A listing of the partitions from `lo`: what it shows is known. */
  ghost predicate Lists(a: seq<World>, lo: nat, found: seq<Option<Identity>>) {
    lo + |found| <= |a| && forall k | 0 <= k < |found| && found[k].Some? :: found[k].value in a[lo + k].hist
  }

  /** The source partition has one identity before and after, and so all along. */
  predicate Stayed(a: World, b: World) {
    a.cur.Some? && a.cur.value in a.hist && b.cur == a.cur
  }

  lemma StayedBetween(a: World, b: World, c: World)
    requires SourceDrift(a, b) && SourceDrift(b, c) && Stayed(a, c)
    ensures Stayed(a, b) && Stayed(b, c)
  {
    Sandwich(a, b, c, a.cur.value);
  }

  /** A listing made between `a` and `b` shows every partition that stayed, as it is; one
      that is not whole may lack it. */
  ghost predicate Shown(a: seq<World>, b: seq<World>, lo: nat, found: seq<Option<Identity>>, whole: bool) {
    lo + |found| <= |a| == |b| && forall k | 0 <= k < |found| && Stayed(a[lo + k], b[lo + k]) ::
      found[k] == a[lo + k].cur || (!whole && found[k].None?)
  }

  lemma ShownKeeps(a: seq<World>, b: seq<World>, c: seq<World>, lo: nat, found: seq<Option<Identity>>, whole: bool)
    requires Later(a, b) && Later(b, c) && Shown(a, b, lo, found, whole)
    ensures Shown(a, c, lo, found, whole)
  {
    forall k | 0 <= k < |found| && Stayed(a[lo + k], c[lo + k])
      ensures found[k] == a[lo + k].cur || (!whole && found[k].None?)
    {
      StayedBetween(a[lo + k], b[lo + k], c[lo + k]);
    }
  }

  lemma ShownWeaker(a: seq<World>, b: seq<World>, lo: nat, found: seq<Option<Identity>>, whole: bool, less: bool)
    requires Shown(a, b, lo, found, whole) && (less ==> whole)
    ensures Shown(a, b, lo, found, less)
  {
  }

  lemma ShownMore(a: seq<World>, b: seq<World>, c: seq<World>, lo: nat, found: seq<Option<Identity>>, whole: bool,
                  line: Reply<Option<Identity>>)
    requires Later(a, b) && Later(b, c) && Shown(a, b, lo, found, whole) && lo + |found| < |c|
    requires line.Ok? ==> line.value == c[lo + |found|].cur
    ensures Shown(a, c, lo, found + [if line.Ok? then line.value else None], whole && line.Ok?)
  {
    ShownKeeps(a, b, c, lo, found, whole);
  }

  lemma LaterKeeps(a: seq<World>, b: seq<World>, c: seq<World>, mode: Mode, lo: nat, found: seq<Option<Identity>>)
    requires Later(a, b) && Later(b, c)
    ensures Later(a, c)
    ensures ModeIs(b, mode) ==> ModeIs(c, mode)
    ensures Lists(b, lo, found) ==> Lists(c, lo, found)
  {
    forall k | 0 <= k < |a| ensures SourceDrift(a[k], c[k]) { SourceDriftTransitive(a[k], b[k], c[k]); }
  }

  lemma LaterSelf(a: seq<World>)
    ensures Later(a, a)
  {
  }

  ghost predicate Grown(a: seq<seq<Identity>>, b: seq<seq<Identity>>) {
    |a| == |b| && forall k | 0 <= k < |a| :: a[k] <= b[k]
  }

  // ---------- Listings ----------

  /** What the process does besides the attempts. `trouble` counts the foreign calls that
      failed and the attempts that did. */
  class Service {
    ghost var trouble: nat

    /** A foreign call whose answer is not modelled, or a look whether the run is cancelled. */
    method Call() returns (ok: bool)
      modifies this
      ensures trouble == old(trouble) + if ok then 0 else 1
    {
      ok := *;
      if !ok { trouble := trouble + 1; }
    }

    ghost method Failed()
      modifies this
      ensures trouble == old(trouble) + 1
    {
      trouble := trouble + 1;
    }
  }

  /** One partition's line of a listing of the source. */
  method Look(s: Site, svc: Service) returns (r: Reply<Option<Identity>>)
    requires s.Valid()
    modifies s`w, s`faults, s`listed, s`listedAt, svc
    ensures s.Valid() && s.w.mode == old(s.w.mode) && SourceDrift(old(s.w), s.w)
    ensures r.Ok? ==> r.value == s.w.cur && (r.value.Some? ==> r.value.value in s.w.hist)
    ensures svc.trouble == old(svc.trouble) + if r.Ok? then 0 else 1
  {
    hide Drift, Announced, SourceDrift;
    r := s.SourcePartition();
    LookFinds(old(s.w), s.w, s.disk, s.dirty);
    if r.Err? { svc.Failed(); }
  }

  lemma LookFinds(a: World, b: World, d: PartitionRow, dirty: bool)
    requires Drift(a, b) && Inv(b, d, dirty)
    ensures b.mode == a.mode && SourceDrift(a, b) && (b.cur.Some? ==> b.cur.value in b.hist)
  {
  }

  /** findPartition in a new listing of the source: this partition's line. */
  method LookUp(sites: seq<Site>, svc: Service, n: nat) returns (line: Reply<Option<Identity>>)
    requires Fleet(sites) && n < |sites|
    modifies sites`w, sites`faults, sites`listed, sites`listedAt, svc
    ensures Fleet(sites) && Later(old(WorldsOf(sites)), WorldsOf(sites)) && AllSynced(sites) == old(AllSynced(sites))
    ensures line.Ok? ==> line.value == WorldsOf(sites)[n].cur
    ensures line.Ok? && line.value.Some? ==> line.value.value in WorldsOf(sites)[n].hist
    ensures svc.trouble == old(svc.trouble) + if line.Ok? then 0 else 1
    ensures RowsOf(sites) == old(RowsOf(sites))
  {
    hide WorldsOf, RowsOf, AttemptsOf, Inv, SourceDrift, Announced, Site.Valid;
    AllAt(sites);
    line := Look(sites[n], svc);
    OneLater(old(WorldsOf(sites)), n, sites[n].w);
    AllAt(sites);
    OnlyOne(old(WorldsOf(sites)), WorldsOf(sites), n);
  }

  lemma OneLater(a: seq<World>, n: nat, w: World)
    requires n < |a| && w.mode == a[n].mode && SourceDrift(a[n], w)
    ensures Later(a, a[n := w])
  {
  }

  lemma OnlyOne(a: seq<World>, b: seq<World>, n: nat)
    requires |a| == |b| && n < |a| && forall k | 0 <= k < |a| && k != n :: b[k] == a[k]
    ensures b == a[n := b[n]]
  {
  }

  /** A listing of the source: one line for each partition from `lo` up to `hi`. None is a
      partition that is not there, or whose table could not be listed. */
  method ListAll(sites: seq<Site>, svc: Service, lo: nat, hi: nat) returns (found: seq<Option<Identity>>, failed: bool)
    requires Fleet(sites) && lo <= hi <= |sites|
    modifies sites`w, sites`faults, sites`listed, sites`listedAt, svc
    ensures Fleet(sites) && Later(old(WorldsOf(sites)), WorldsOf(sites)) && AllSynced(sites) == old(AllSynced(sites))
    ensures |found| == hi - lo && Lists(WorldsOf(sites), lo, found)
    ensures Shown(old(WorldsOf(sites)), WorldsOf(sites), lo, found, !failed) && RowsOf(sites) == old(RowsOf(sites))
    ensures svc.trouble >= old(svc.trouble) && (failed ==> svc.trouble > old(svc.trouble))
  {
    hide WorldsOf, RowsOf, AttemptsOf, Inv, SourceDrift, Announced, Site.Valid, Later, Lists, Fleet, AllSynced, Shown, ModeIs;
    found, failed := [], false;
    ghost var start := WorldsOf(sites);
    LaterSelf(start);
    NothingListed(start, lo);
    for n := lo to hi
      invariant Fleet(sites) && Later(start, WorldsOf(sites)) && AllSynced(sites) == old(AllSynced(sites))
      invariant |found| == n - lo && Lists(WorldsOf(sites), lo, found) && Shown(start, WorldsOf(sites), lo, found, !failed)
      invariant RowsOf(sites) == old(RowsOf(sites))
      invariant svc.trouble >= old(svc.trouble) && (failed ==> svc.trouble > old(svc.trouble))
    {
      ghost var before := WorldsOf(sites);
      var line := LookUp(sites, svc, n);
      LaterKeeps(start, before, WorldsOf(sites), OverwriteMode, lo, found);
      ShownMore(start, before, WorldsOf(sites), lo, found, !failed, line);
      found := found + [if line.Ok? then line.value else None];
      ListsMore(WorldsOf(sites), lo, found);
      failed := failed || line.Err?;
    }
  }

  lemma NothingListed(a: seq<World>, lo: nat)
    requires lo <= |a|
    ensures Lists(a, lo, []) && Shown(a, a, lo, [], true)
  {
  }

  lemma ListsMore(a: seq<World>, lo: nat, found: seq<Option<Identity>>)
    requires found != [] && Lists(a, lo, found[..|found| - 1]) && lo + |found| <= |a|
    requires found[|found| - 1].Some? ==> found[|found| - 1].value in a[lo + |found| - 1].hist
    ensures Lists(a, lo, found)
  {
  }

  // ---------- Rows that are up to date ----------

  /** Nothing is left to do for a source of identity `i`. */
  predicate UpToDate(d: PartitionRow, i: Option<Identity>, mode: Mode) {
    Settled(d, mode) && d.importedIdentity == i
  }

  /** A partition that is up to date holds the source's rows, unless someone dropped it. */
  lemma UpToDateHolds(w: World, d: PartitionRow, dirty: bool)
    requires Inv(w, d, dirty) && w.cur.Some? && UpToDate(d, w.cur, w.mode) && !w.target.dropped
    requires w.mode == OverwriteMode || !dirty
    ensures Contents(w) == Some(Held(w.target))
  {
    ImportedIsCurrent(w, d, dirty);
  }

  /** Of the partitions whose source stayed, those that were up to date still are. */
  ghost predicate KeptUp(a: seq<World>, b: seq<World>, before: seq<PartitionRow>, after: seq<PartitionRow>, mode: Mode) {
    && |a| == |b| == |before| == |after|
    && forall k | 0 <= k < |a| && Stayed(a[k], b[k]) && UpToDate(before[k], a[k].cur, mode) :: UpToDate(after[k], a[k].cur, mode)
  }

  lemma KeptUpTwice(a: seq<World>, b: seq<World>, c: seq<World>, before: seq<PartitionRow>, mid: seq<PartitionRow>,
                    after: seq<PartitionRow>, mode: Mode)
    requires Later(a, b) && Later(b, c) && KeptUp(a, b, before, mid, mode) && KeptUp(b, c, mid, after, mode)
    ensures KeptUp(a, c, before, after, mode)
  {
    forall k | 0 <= k < |a| && Stayed(a[k], c[k]) ensures Stayed(a[k], b[k]) && Stayed(b[k], c[k]) {
      StayedBetween(a[k], b[k], c[k]);
    }
  }

  lemma SameIsKept(a: seq<World>, b: seq<World>, rows: seq<PartitionRow>, mode: Mode)
    requires |a| == |b| == |rows|
    ensures KeptUp(a, b, rows, rows, mode)
  {
  }

  /** One row may differ. */
  lemma OneIsKept(a: seq<World>, b: seq<World>, before: seq<PartitionRow>, after: seq<PartitionRow>, mode: Mode, n: nat)
    requires |a| == |b| == |before| == |after| && n < |a| && forall k | 0 <= k < |a| && k != n :: after[k] == before[k]
    requires Stayed(a[n], b[n]) && UpToDate(before[n], a[n].cur, mode) ==> UpToDate(after[n], a[n].cur, mode)
    ensures KeptUp(a, b, before, after, mode)
  {
  }

  /** The partitions from `lo` up to `n` whose source stayed are up to date. */
  ghost predicate AllUp(a: seq<World>, b: seq<World>, rows: seq<PartitionRow>, mode: Mode, lo: nat, n: nat) {
    lo <= n <= |a| == |b| == |rows| && forall k | lo <= k < n && Stayed(a[k], b[k]) :: UpToDate(rows[k], a[k].cur, mode)
  }

  lemma AllUpLater(a: seq<World>, b: seq<World>, c: seq<World>, mid: seq<PartitionRow>, after: seq<PartitionRow>, mode: Mode,
                   lo: nat, n: nat)
    requires Later(a, b) && Later(b, c) && AllUp(a, b, mid, mode, lo, n) && KeptUp(b, c, mid, after, mode)
    ensures AllUp(a, c, after, mode, lo, n)
  {
    forall k | lo <= k < n && Stayed(a[k], c[k]) ensures Stayed(a[k], b[k]) && Stayed(b[k], c[k]) {
      StayedBetween(a[k], b[k], c[k]);
    }
  }

  lemma AllUpSince(a: seq<World>, b: seq<World>, c: seq<World>, rows: seq<PartitionRow>, mode: Mode, lo: nat, n: nat)
    requires Later(a, b) && Later(b, c) && AllUp(b, c, rows, mode, lo, n)
    ensures AllUp(a, c, rows, mode, lo, n)
  {
    forall k | lo <= k < n && Stayed(a[k], c[k]) ensures Stayed(b[k], c[k]) && b[k].cur == a[k].cur {
      StayedBetween(a[k], b[k], c[k]);
    }
  }

  // ---------- One partition of the fleet ----------

  /** syncPartitionByMode on one partition, with what it says of a source that stayed. */
  method Attempt(s: Site, svc: Service, i: Identity, force: bool) returns (r: Outcome)
    requires s.Valid() && s.Synced() && i in s.w.hist && (force ==> s.w.mode == OverwriteMode)
    modifies s, s.entry, svc
    ensures s.Valid() && s.w.mode == old(s.w.mode) && SourceDrift(old(s.w), s.w) && s.attempts == old(s.attempts) + [i]
    ensures r != NotPersisted ==> s.Synced()
    ensures if r == Failed || r == NotPersisted then Stopped(s, i) else SyncedUp(old(s.w), s.w, old(s.disk), s.disk, i)
    ensures svc.trouble == old(svc.trouble) + if r == Failed || r == NotPersisted then 1 else 0
  {
    hide Inv, SourceDrift, Announced, OneWrite, Started, Imports, ChoseRight, Excusing, Hindered, Site.Valid;
    r := SyncPartitionByMode(s, i, force);
    KeptHistory(s, old(s.w));
    if r == Failed || r == NotPersisted { svc.Failed(); }
  }

  /** syncPartitionByMode on one partition of the fleet. */
  method SyncOne(sites: seq<Site>, svc: Service, n: nat, i: Identity, force: bool) returns (r: Outcome)
    requires Fleet(sites) && n < |sites| && sites[n].Synced() && i in WorldsOf(sites)[n].hist
    requires force ==> WorldsOf(sites)[n].mode == OverwriteMode
    modifies sites[n], sites[n].entry, svc
    ensures Fleet(sites) && Later(old(WorldsOf(sites)), WorldsOf(sites))
    ensures r != NotPersisted ==> sites[n].Synced()
    ensures AttemptsOf(sites) == old(AttemptsOf(sites))[n := old(AttemptsOf(sites))[n] + [i]]
    ensures forall k | 0 <= k < |sites| && k != n ::
              sites[k].Synced() == old(sites[k].Synced()) && sites[k].disk == old(sites[k].disk)
    ensures r == Failed || r == NotPersisted ==> Stopped(sites[n], i)
    ensures r == Unchanged || r == Imported ==>
              SyncedUp(old(WorldsOf(sites))[n], WorldsOf(sites)[n], old(RowsOf(sites))[n], RowsOf(sites)[n], i)
    ensures forall k | 0 <= k < |sites| && k != n :: RowsOf(sites)[k] == old(RowsOf(sites))[k]
    ensures svc.trouble == old(svc.trouble) + if r == Failed || r == NotPersisted then 1 else 0
  {
    hide WorldsOf, RowsOf, AttemptsOf, SourceDrift, Site.Valid, Stopped, SyncedUp;
    AllAt(sites);
    r := Attempt(sites[n], svc, i, force);
    OneLater(old(WorldsOf(sites)), n, sites[n].w);
    AllAt(sites);
    OnlyOne(old(WorldsOf(sites)), WorldsOf(sites), n);
  }

  /** After an attempt for `i` that succeeded: a source that stayed is up to date if it was
      before, or if `i` is its identity. */
  predicate SyncedUp(a: World, b: World, before: PartitionRow, after: PartitionRow, i: Identity) {
    Stayed(a, b) && (a.cur == Some(i) || UpToDate(before, a.cur, a.mode)) ==> UpToDate(after, a.cur, a.mode)
  }

  lemma KeptHistory(s: Site, before: World)
    requires s.Valid() && s.since == before
    ensures SourceDrift(before, s.w)
  {
  }

  // ---------- maybeScanCompleted ----------

  /** An imported partition that the scan would take up again. */
  predicate Candidate(d: PartitionRow, i: Identity, mode: Mode) {
    && d.importedIdentity.Some?
    && (d.importedIdentity != Some(i) || d.importInProgress || d.pendingDelta.Some?
        || (mode == TimeWindow && !d.watermarkReady))
  }

  /** The scan takes up what was listed and is a candidate. */
  predicate Taken(d: PartitionRow, listed: Option<Identity>, mode: Mode) {
    listed.Some? && Candidate(d, listed.value, mode)
  }

  function Worse(r: Outcome, o: Outcome): Outcome {
    if r == NotPersisted || o == NotPersisted then NotPersisted
    else if r == Failed || o == Failed then Failed
    else Unchanged
  }

  /** One attempt more for each candidate among the first `n`, and for no other. */
  ghost predicate Scanned(before: seq<seq<Identity>>, after: seq<seq<Identity>>, rows: seq<PartitionRow>, mode: Mode,
                          found: seq<Option<Identity>>, n: nat)
  {
    && |before| == |after| == |rows| == |found| && n <= |found|
    && forall k | 0 <= k < |found| ::
         after[k] == before[k] + if k < n && Taken(rows[k], found[k], mode) then [found[k].value] else []
  }

  lemma NoneScanned(before: seq<seq<Identity>>, rows: seq<PartitionRow>, mode: Mode, found: seq<Option<Identity>>)
    requires |before| == |rows| == |found|
    ensures Scanned(before, before, rows, mode, found, 0)
  {
  }

  lemma ScannedStep(before: seq<seq<Identity>>, after: seq<seq<Identity>>, rows: seq<PartitionRow>, mode: Mode,
                    found: seq<Option<Identity>>, n: nat)
    requires Scanned(before, after, rows, mode, found, n) && n < |found|
    ensures Scanned(before, if Taken(rows[n], found[n], mode) then after[n := after[n] + [found[n].value]] else after,
                    rows, mode, found, n + 1)
  {
  }

  lemma ScannedGrown(before: seq<seq<Identity>>, after: seq<seq<Identity>>, rows: seq<PartitionRow>, mode: Mode,
                     found: seq<Option<Identity>>, n: nat)
    requires Scanned(before, after, rows, mode, found, n)
    ensures Grown(before, after)
  {
  }

  /** The rows from `n` on are those of `rows`. */
  ghost predicate SameFrom(a: seq<PartitionRow>, rows: seq<PartitionRow>, n: nat) {
    |a| == |rows| && forall k | n <= k < |rows| :: a[k] == rows[k]
  }

  /** One turn of the scan's loop. */
  method ScanTurn(sites: seq<Site>, svc: Service, n: nat, listed: Option<Identity>, mode: Mode, ghost rows: seq<PartitionRow>)
    returns (r: Outcome)
    requires Fleet(sites) && n < |sites| && SyncedFrom(sites, n) && SameFrom(RowsOf(sites), rows, n)
    requires WorldsOf(sites)[n].mode == mode && (listed.Some? ==> listed.value in WorldsOf(sites)[n].hist)
    modifies sites[n], sites[n].entry, svc
    ensures Fleet(sites) && Later(old(WorldsOf(sites)), WorldsOf(sites))
    ensures SyncedFrom(sites, n + 1) && SameFrom(RowsOf(sites), rows, n + 1)
    ensures AttemptsOf(sites) == if Taken(rows[n], listed, mode)
                                 then old(AttemptsOf(sites))[n := old(AttemptsOf(sites))[n] + [listed.value]]
                                 else old(AttemptsOf(sites))
    ensures old(SyncedTo(sites, n)) && r != NotPersisted ==> SyncedTo(sites, n + 1)
    ensures forall k | 0 <= k < |sites| && k != n :: RowsOf(sites)[k] == old(RowsOf(sites))[k]
    ensures if !Taken(rows[n], listed, mode) then r == Unchanged && RowsOf(sites)[n] == rows[n]
            else r == Unchanged || r == Imported ==>
              SyncedUp(old(WorldsOf(sites))[n], WorldsOf(sites)[n], rows[n], RowsOf(sites)[n], listed.value)
    ensures svc.trouble == old(svc.trouble) + if r == Failed || r == NotPersisted then 1 else 0
  {
    hide WorldsOf, RowsOf, AttemptsOf, Inv, SourceDrift, Announced, Site.Valid, Later, Stopped, SyncedUp;
    r := Unchanged;
    LaterSelf(WorldsOf(sites));
    AllAt(sites);
    if listed.Some? && Candidate(sites[n].entry.Row(), listed.value, sites[n].w.mode) {
      r := SyncOne(sites, svc, n, listed.value, false);
      AllAt(sites);
    }
  }

  /** What the scan leaves of the rows up to `n`: a partition that stayed and was up to date
      is left alone; and if nothing failed, each imported one that stayed is up to date. */
  ghost predicate Refreshed(a: seq<World>, b: seq<World>, before: seq<PartitionRow>, after: seq<PartitionRow>, mode: Mode,
                            n: nat, ok: bool)
  {
    && |a| == |b| == |before| == |after| && n <= |a|
    && forall k | 0 <= k < n && Stayed(a[k], b[k]) ::
         && (UpToDate(before[k], a[k].cur, mode) ==> after[k] == before[k])
         && (ok && before[k].importedIdentity.Some? ==> UpToDate(after[k], a[k].cur, mode))
  }

  lemma NoneRefreshed(a: seq<World>, b: seq<World>, rows: seq<PartitionRow>, mode: Mode, ok: bool)
    requires |a| == |b| == |rows|
    ensures Refreshed(a, b, rows, rows, mode, 0, ok)
  {
  }

  lemma RefreshedStep(a: seq<World>, b: seq<World>, c: seq<World>, rows: seq<PartitionRow>, mid: seq<PartitionRow>,
                      after: seq<PartitionRow>, mode: Mode, n: nat, r: Outcome, o: Outcome, found: seq<Option<Identity>>,
                      whole: bool)
    requires Later(a, b) && Later(b, c) && n < |a| == |found| && |after| == |rows| && ModeIs(b, mode)
    requires Refreshed(a, b, rows, mid, mode, n, r == Unchanged) && SameFrom(mid, rows, n) && Shown(a, b, 0, found, whole)
    requires r in {Unchanged, Failed, NotPersisted} && (r == Unchanged ==> whole)
    requires forall k | 0 <= k < |a| && k != n :: after[k] == mid[k]
    requires if !Taken(rows[n], found[n], mode) then o == Unchanged && after[n] == rows[n]
             else o == Unchanged || o == Imported ==> SyncedUp(b[n], c[n], rows[n], after[n], found[n].value)
    ensures Refreshed(a, c, rows, after, mode, n + 1, Worse(r, o) == Unchanged)
  {
    forall k | 0 <= k < n + 1 && Stayed(a[k], c[k])
      ensures UpToDate(rows[k], a[k].cur, mode) ==> after[k] == rows[k]
      ensures Worse(r, o) == Unchanged && rows[k].importedIdentity.Some? ==> UpToDate(after[k], a[k].cur, mode)
    {
      StayedBetween(a[k], b[k], c[k]);
    }
  }

  lemma RefreshedKeepsUp(a: seq<World>, b: seq<World>, before: seq<PartitionRow>, after: seq<PartitionRow>, mode: Mode, ok: bool)
    requires Refreshed(a, b, before, after, mode, |a|, ok)
    ensures KeptUp(a, b, before, after, mode)
  {
  }

  /** maybeScanCompleted: one attempt for each candidate of one listing, and for nothing
      else. It goes on after a failure, even one to save, and reports it at the end. */
  method ScanCompleted(sites: seq<Site>, svc: Service, mode: Mode) returns (r: Outcome, found: seq<Option<Identity>>)
    requires Fleet(sites) && AllSynced(sites) && ModeIs(WorldsOf(sites), mode)
    modifies sites, Entries(sites), svc
    ensures Fleet(sites) && Later(old(WorldsOf(sites)), WorldsOf(sites))
    ensures r != NotPersisted ==> AllSynced(sites)
    ensures r in {Unchanged, Failed, NotPersisted}
    ensures Scanned(old(AttemptsOf(sites)), AttemptsOf(sites), old(RowsOf(sites)), mode, found, |sites|)
    ensures Shown(old(WorldsOf(sites)), WorldsOf(sites), 0, found, r == Unchanged)
    ensures Refreshed(old(WorldsOf(sites)), WorldsOf(sites), old(RowsOf(sites)), RowsOf(sites), mode, |sites|, r == Unchanged)
    ensures svc.trouble >= old(svc.trouble) && (r != Unchanged ==> svc.trouble > old(svc.trouble))
  {
    hide WorldsOf, RowsOf, AttemptsOf, Inv, SourceDrift, Announced, Site.Valid, Candidate, Scanned, Taken, Later, Fleet, SameFrom,
      SyncedTo, SyncedFrom, Shown, Lists, ModeIs, Refreshed, SyncedUp, UpToDate;
    SyncedBothWays(sites);
    ghost var start, rows, worlds := AttemptsOf(sites), RowsOf(sites), WorldsOf(sites);
    var failed;
    found, failed := ListAll(sites, svc, 0, |sites|);
    r := if failed then Failed else Unchanged;
    NoneScanned(start, rows, mode, found);
    NoneRefreshed(worlds, WorldsOf(sites), rows, mode, r == Unchanged);
    SameRows(rows);
    SyncedBothWays(sites);
    LaterSelf(worlds);
    LaterKeeps(worlds, worlds, WorldsOf(sites), mode, 0, found);
    for n := 0 to |sites|
      invariant Fleet(sites) && Later(worlds, WorldsOf(sites)) && r in {Unchanged, Failed, NotPersisted}
      invariant ModeIs(WorldsOf(sites), mode) && Lists(WorldsOf(sites), 0, found)
      invariant Shown(worlds, WorldsOf(sites), 0, found, !failed) && (failed ==> r != Unchanged)
      invariant Refreshed(worlds, WorldsOf(sites), rows, RowsOf(sites), mode, n, r == Unchanged)
      invariant SyncedFrom(sites, n) && (r != NotPersisted ==> SyncedTo(sites, n))
      invariant SameFrom(RowsOf(sites), rows, n)
      invariant Scanned(start, AttemptsOf(sites), rows, mode, found, n)
      invariant svc.trouble >= old(svc.trouble) && (r != Unchanged ==> svc.trouble > old(svc.trouble))
    {
      ghost var before, mid := WorldsOf(sites), RowsOf(sites);
      ScannedStep(start, AttemptsOf(sites), rows, mode, found, n);
      ListedAt(before, found, n, mode);
      var o := ScanTurn(sites, svc, n, found[n], mode, rows);
      LaterKeeps(worlds, before, WorldsOf(sites), mode, 0, found);
      ShownKeeps(worlds, before, WorldsOf(sites), 0, found, !failed);
      RefreshedStep(worlds, before, WorldsOf(sites), rows, mid, RowsOf(sites), mode, n, r, o, found, !failed);
      r := Worse(r, o);
    }
    ShownWeaker(worlds, WorldsOf(sites), 0, found, !failed, r == Unchanged);
  }

  lemma ListedAt(a: seq<World>, found: seq<Option<Identity>>, n: nat, mode: Mode)
    requires Lists(a, 0, found) && ModeIs(a, mode) && n < |found|
    ensures a[n].mode == mode && (found[n].Some? ==> found[n].value in a[n].hist)
  {
  }

  lemma SameRows(rows: seq<PartitionRow>)
    ensures SameFrom(rows, rows, 0)
  {
  }

  // ---------- syncTable ----------

  /** Every listed partition from `lo` up to `n` was attempted. */
  ghost predicate Attempted(before: seq<seq<Identity>>, after: seq<seq<Identity>>, lo: nat, n: nat,
                            parts: seq<Option<Identity>>)
  {
    && Grown(before, after) && lo <= n <= lo + |parts| <= |before|
    && forall k | lo <= k < n && parts[k - lo].Some? :: before[k] < after[k]
  }

  lemma NoneAttempted(before: seq<seq<Identity>>, lo: nat, parts: seq<Option<Identity>>)
    requires lo + |parts| <= |before|
    ensures Attempted(before, before, lo, lo, parts) && Grown(before, before)
  {
  }

  lemma AttemptedStep(before: seq<seq<Identity>>, mid: seq<seq<Identity>>, after: seq<seq<Identity>>, lo: nat, n: nat,
                      parts: seq<Option<Identity>>)
    requires Attempted(before, mid, lo, n, parts) && n < lo + |parts| && Grown(mid, after)
    requires parts[n - lo].None? || mid[n] < after[n]
    ensures Attempted(before, after, lo, n + 1, parts)
  {
  }

  /** The scan that may come first. Afterwards only this partition is looked up again. */
  method Refresh(sites: seq<Site>, svc: Service, n: nat, listed: Identity, mode: Mode) returns (part: Identity, r: Outcome)
    requires Fleet(sites) && AllSynced(sites) && n < |sites| && listed in WorldsOf(sites)[n].hist
    requires ModeIs(WorldsOf(sites), mode)
    modifies sites, Entries(sites), svc
    ensures Fleet(sites) && Later(old(WorldsOf(sites)), WorldsOf(sites)) && Grown(old(AttemptsOf(sites)), AttemptsOf(sites))
    ensures r != NotPersisted ==> AllSynced(sites)
    ensures r in {Unchanged, Failed, NotPersisted}
    ensures r == Unchanged ==> part in WorldsOf(sites)[n].hist
    ensures r == Unchanged ==> part == listed || WorldsOf(sites)[n].cur == Some(part)
    ensures KeptUp(old(WorldsOf(sites)), WorldsOf(sites), old(RowsOf(sites)), RowsOf(sites), mode)
    ensures svc.trouble >= old(svc.trouble)
    ensures r != Unchanged ==> svc.trouble > old(svc.trouble) || WorldsOf(sites)[n].cur.None?
  {
    hide WorldsOf, RowsOf, AttemptsOf, Inv, SourceDrift, Announced, Site.Valid, Grown, Scanned, Later, Fleet, ModeIs, AllSynced, Shown, Refreshed, KeptUp;
    SameIsKept(WorldsOf(sites), WorldsOf(sites), RowsOf(sites), mode);
    part := listed;
    r := Unchanged;
    NoneAttempted(AttemptsOf(sites), 0, []);
    LaterSelf(WorldsOf(sites));
    var due: bool := *;
    if due {
      var found;
      r, found := ScanCompleted(sites, svc, mode);
      ScannedGrown(old(AttemptsOf(sites)), AttemptsOf(sites), old(RowsOf(sites)), mode, found, |sites|);
      RefreshedKeepsUp(old(WorldsOf(sites)), WorldsOf(sites), old(RowsOf(sites)), RowsOf(sites), mode, r == Unchanged);
      if r == NotPersisted { return; }
      ghost var scanned := WorldsOf(sites);
      var line := LookUp(sites, svc, n);
      SameIsKept(scanned, WorldsOf(sites), RowsOf(sites), mode);
      KeptUpTwice(old(WorldsOf(sites)), scanned, WorldsOf(sites), old(RowsOf(sites)), RowsOf(sites), RowsOf(sites), mode);
      LaterKeeps(old(WorldsOf(sites)), scanned, WorldsOf(sites), mode, 0, []);
      if line.Err? || line.value.None? { return part, Failed; }
      return line.value.value, Unchanged;
    }
  }

  /** The attempts since, on a partition whose source stayed, include one for its identity. */
  ghost predicate Served(a: World, b: World, before: seq<Identity>, after: seq<Identity>) {
    Stayed(a, b) ==> before <= after && a.cur.value in after[|before|..]
  }

  /** One turn of syncTable's loop. `stop` says that the partition disappeared, or could not
      be looked up, after a scan: that ends the table. */
  method SyncListed(sites: seq<Site>, svc: Service, n: nat, listed: Identity, force: bool, mode: Mode)
    returns (r: Outcome, stop: bool)
    requires Fleet(sites) && AllSynced(sites) && n < |sites| && listed in WorldsOf(sites)[n].hist
    requires (force ==> mode == OverwriteMode) && ModeIs(WorldsOf(sites), mode)
    modifies sites, Entries(sites), svc
    ensures Fleet(sites) && Later(old(WorldsOf(sites)), WorldsOf(sites)) && Grown(old(AttemptsOf(sites)), AttemptsOf(sites))
    ensures r != NotPersisted ==> AllSynced(sites)
    ensures r == Unchanged || r == Imported ==> old(AttemptsOf(sites))[n] < AttemptsOf(sites)[n]
    ensures (r == Unchanged || r == Imported) && old(WorldsOf(sites))[n].cur == Some(listed) ==>
              Served(old(WorldsOf(sites))[n], WorldsOf(sites)[n], old(AttemptsOf(sites))[n], AttemptsOf(sites)[n])
    ensures r == Unchanged || r == Imported ==>
              KeptUp(old(WorldsOf(sites)), WorldsOf(sites), old(RowsOf(sites)), RowsOf(sites), mode)
    ensures (r == Unchanged || r == Imported) && old(WorldsOf(sites))[n].cur == Some(listed) ==>
              AllUp(old(WorldsOf(sites)), WorldsOf(sites), RowsOf(sites), mode, n, n + 1)
    ensures svc.trouble >= old(svc.trouble) && (stop ==> r == Failed || r == NotPersisted)
    ensures r == Failed || r == NotPersisted ==>
              svc.trouble > old(svc.trouble) || (stop && !Stayed(old(WorldsOf(sites))[n], WorldsOf(sites)[n]))
  {
    hide WorldsOf, RowsOf, AttemptsOf, Inv, SourceDrift, Announced, Site.Valid, Grown, Later, Served, Stayed, Stopped, Fleet, ModeIs,
      AllSynced, KeptUp, AllUp, SyncedUp, UpToDate;
    ghost var start, worlds, rows := AttemptsOf(sites), WorldsOf(sites), RowsOf(sites);
    SameIsKept(worlds, worlds, rows, mode);
    var part := listed;
    NoneAttempted(start, 0, []);
    LaterSelf(worlds);
    stop := false;
    if !force {
      part, r := Refresh(sites, svc, n, listed, mode);
      if r != Unchanged {
        GoneMoved(worlds, WorldsOf(sites), n);
        return r, true;
      }
    }
    ghost var before, mid, refreshed := WorldsOf(sites), AttemptsOf(sites), RowsOf(sites);
    OneMore(start, mid, n, part);
    SitesSynced(sites, n);
    ModeAt(worlds, before, n, mode);
    r := SyncOne(sites, svc, n, part, force);
    LaterKeeps(worlds, before, WorldsOf(sites), mode, 0, []);
    SyncedBack(sites, n);
    if r == Unchanged || r == Imported {
      UpNow(worlds, before, WorldsOf(sites), rows, refreshed, RowsOf(sites), mode, n, part, listed);
    }
    if worlds[n].cur == Some(listed) { ServedNow(worlds, before, WorldsOf(sites), start, mid, n, part, listed); }
  }

  lemma UpNow(a: seq<World>, b: seq<World>, c: seq<World>, rows: seq<PartitionRow>, mid: seq<PartitionRow>,
              after: seq<PartitionRow>, mode: Mode, n: nat, part: Identity, listed: Identity)
    requires Later(a, b) && Later(b, c) && KeptUp(a, b, rows, mid, mode) && n < |a| && b[n].mode == mode && |after| == |a|
    requires SyncedUp(b[n], c[n], mid[n], after[n], part) && forall k | 0 <= k < |a| && k != n :: after[k] == mid[k]
    requires part == listed || b[n].cur == Some(part)
    ensures KeptUp(a, c, rows, after, mode)
    ensures a[n].cur == Some(listed) ==> AllUp(a, c, after, mode, n, n + 1)
  {
    OneIsKept(b, c, mid, after, mode, n);
    KeptUpTwice(a, b, c, rows, mid, after, mode);
    if Stayed(a[n], c[n]) { StayedBetween(a[n], b[n], c[n]); }
  }

  lemma GoneMoved(a: seq<World>, b: seq<World>, n: nat)
    requires n < |a| == |b|
    ensures b[n].cur.None? ==> !Stayed(a[n], b[n])
  {
  }

  lemma ModeAt(a: seq<World>, b: seq<World>, n: nat, mode: Mode)
    requires ModeIs(a, mode) && Later(a, b) && n < |b|
    ensures b[n].mode == mode
  {
  }

  lemma SitesSynced(sites: seq<Site>, n: nat)
    requires AllSynced(sites) && n < |sites|
    ensures forall k | 0 <= k < |sites| :: sites[k].Synced()
  {
  }

  lemma SyncedBack(sites: seq<Site>, n: nat)
    requires forall k | 0 <= k < |sites| && k != n :: sites[k].Synced()
    requires n < |sites|
    ensures sites[n].Synced() ==> AllSynced(sites)
  {
  }

  /** The identity attempted is the listed one or the one found in between; of a partition
      that stayed, both are its own. */
  lemma ServedNow(a: seq<World>, b: seq<World>, c: seq<World>, start: seq<seq<Identity>>, mid: seq<seq<Identity>>, n: nat,
                  part: Identity, listed: Identity)
    requires Later(a, b) && Later(b, c) && Grown(start, mid) && n < |a| == |start|
    requires a[n].cur == Some(listed) && (part == listed || b[n].cur == Some(part))
    ensures Served(a[n], c[n], start[n], mid[n] + [part])
  {
    if Stayed(a[n], c[n]) {
      StayedBetween(a[n], b[n], c[n]);
      assert (mid[n] + [part])[|start[n]|..] == mid[n][|start[n]|..] + [part];
    }
  }

  lemma OneMore(a: seq<seq<Identity>>, b: seq<seq<Identity>>, n: nat, i: Identity)
    requires Grown(a, b) && n < |a|
    ensures Grown(a, b[n := b[n] + [i]]) && a[n] < b[n := b[n] + [i]][n]
  {
  }

  /** The first part of syncTable: the columns are checked, the target table is created if
      need be, and the table's schema is recorded. That save can fail as well, before any
      partition is attempted. */
  method RecordSchema(svc: Service) returns (r: Outcome)
    modifies svc
    ensures r in {Unchanged, Failed, NotPersisted}
    ensures svc.trouble == old(svc.trouble) + if r == Unchanged then 0 else 1
  {
    var checked := svc.Call();
    if !checked { return Failed; }
    var saved := svc.Call();
    r := if saved then Unchanged else NotPersisted;
  }

  /** Every partition from `lo` up to `n` was served. */
  ghost predicate AllServed(a: seq<World>, b: seq<World>, before: seq<seq<Identity>>, after: seq<seq<Identity>>, lo: nat, n: nat) {
    lo <= n <= |a| == |b| == |before| == |after| && forall k | lo <= k < n :: Served(a[k], b[k], before[k], after[k])
  }

  lemma AllServedKeeps(a: seq<World>, b: seq<World>, c: seq<World>, before: seq<seq<Identity>>, mid: seq<seq<Identity>>,
                       after: seq<seq<Identity>>, lo: nat, n: nat)
    requires Later(a, b) && Later(b, c) && Grown(mid, after) && AllServed(a, b, before, mid, lo, n)
    ensures AllServed(a, c, before, after, lo, n)
  {
    forall k | lo <= k < n ensures Served(a[k], c[k], before[k], after[k]) {
      if Stayed(a[k], c[k]) {
        StayedBetween(a[k], b[k], c[k]);
        assert mid[k] <= after[k] && mid[k][|before[k]|..] <= after[k][|before[k]|..];
      }
    }
  }

  /** One partition more: it was listed and served, or was not there to be listed. */
  lemma AllServedStep(a: seq<World>, b: seq<World>, c: seq<World>, before: seq<seq<Identity>>, mid: seq<seq<Identity>>,
                      after: seq<seq<Identity>>, lo: nat, n: nat, parts: seq<Option<Identity>>)
    requires Later(a, b) && Later(b, c) && Grown(before, mid) && Grown(mid, after) && AllServed(a, b, before, mid, lo, n)
    requires n < lo + |parts| && Shown(a, b, lo, parts, true) && n < |a|
    requires parts[n - lo].Some? && b[n].cur == parts[n - lo] ==> Served(b[n], c[n], mid[n], after[n])
    ensures AllServed(a, c, before, after, lo, n + 1)
  {
    AllServedKeeps(a, b, c, before, mid, after, lo, n);
    hide AllServed, Later, Grown;
    if Stayed(a[n], c[n]) {
      StayedAt(a, b, c, n);
      TailOf(before[n], mid[n], after[n]);
    }
    AllServedEnd(a, c, before, after, lo, n);
  }

  lemma StayedAt(a: seq<World>, b: seq<World>, c: seq<World>, n: nat)
    requires Later(a, b) && Later(b, c) && n < |a| && Stayed(a[n], c[n])
    ensures Stayed(a[n], b[n]) && Stayed(b[n], c[n])
  {
    StayedBetween(a[n], b[n], c[n]);
  }

  lemma TailOf(a: seq<Identity>, b: seq<Identity>, c: seq<Identity>)
    requires a <= b <= c
    ensures forall i | i in c[|b|..] :: i in c[|a|..]
  {
    assert c[|b|..] == c[|a|..][|b| - |a|..];
  }

  lemma AllServedEnd(a: seq<World>, b: seq<World>, before: seq<seq<Identity>>, after: seq<seq<Identity>>, lo: nat, n: nat)
    requires AllServed(a, b, before, after, lo, n) && n < |a| && Served(a[n], b[n], before[n], after[n])
    ensures AllServed(a, b, before, after, lo, n + 1)
  {
  }

  /** Served since `b` is served since any time before. */
  lemma AllServedSince(a: seq<World>, b: seq<World>, c: seq<World>, before: seq<seq<Identity>>, mid: seq<seq<Identity>>,
                       after: seq<seq<Identity>>, lo: nat, n: nat)
    requires Later(a, b) && Later(b, c) && Grown(before, mid) && AllServed(b, c, mid, after, lo, n)
    ensures AllServed(a, c, before, after, lo, n)
  {
    forall k | lo <= k < n ensures Served(a[k], c[k], before[k], after[k]) {
      if Stayed(a[k], c[k]) {
        StayedBetween(a[k], b[k], c[k]);
        assert after[k][|mid[k]|..] == after[k][|before[k]|..][|mid[k]| - |before[k]|..];
      }
    }
  }

  lemma GrownTwice(a: seq<seq<Identity>>, b: seq<seq<Identity>>, c: seq<seq<Identity>>)
    requires Grown(a, b) && Grown(b, c)
    ensures Grown(a, c)
  {
  }

  /** Something went wrong: a foreign call or an attempt failed, or a partition from `lo` up
      to `hi` did not stay as it was. */
  ghost predicate Troubled(before: nat, after: nat, a: seq<World>, b: seq<World>, lo: nat, hi: nat) {
    after > before || (hi <= |a| == |b| && exists k :: lo <= k < hi && !Stayed(a[k], b[k]))
  }

  lemma NowTroubled(before: nat, after: nat, a: seq<World>, b: seq<World>, lo: nat, hi: nat)
    ensures after > before ==> Troubled(before, after, a, b, lo, hi)
  {
  }

  lemma StillTroubled(before: nat, after: nat, a: seq<World>, b: seq<World>, c: seq<World>, lo: nat, hi: nat, n: nat)
    requires Later(a, b) && Later(b, c) && lo <= n < hi <= |a|
    requires after > before || !Stayed(b[n], c[n])
    ensures Troubled(before, after, a, c, lo, hi)
  {
    if Stayed(a[n], c[n]) { StayedBetween(a[n], b[n], c[n]); }
  }

  /** What the loop of syncTable keeps of the fleet, seen from its start. */
  ghost predicate Underway(worlds: seq<World>, now: seq<World>, start: seq<seq<Identity>>, attempts: seq<seq<Identity>>,
                           mode: Mode, lo: nat, parts: seq<Option<Identity>>)
  {
    && Later(worlds, now) && Grown(start, attempts) && |worlds| == |start|
    && ModeIs(now, mode) && Lists(now, lo, parts) && Shown(worlds, now, lo, parts, true)
  }

  lemma UnderwayLater(worlds: seq<World>, before: seq<World>, now: seq<World>, start: seq<seq<Identity>>,
                      mid: seq<seq<Identity>>, attempts: seq<seq<Identity>>, mode: Mode, lo: nat, parts: seq<Option<Identity>>)
    requires Underway(worlds, before, start, mid, mode, lo, parts) && Later(before, now) && Grown(mid, attempts)
    ensures Underway(worlds, now, start, attempts, mode, lo, parts)
  {
    LaterKeeps(worlds, before, now, mode, lo, parts);
    ShownKeeps(worlds, before, now, lo, parts, true);
  }

  /** The loop's progress: the listed partitions up to `n` attempted, and those that stayed
      for their identity. */
  ghost predicate Covered(worlds: seq<World>, now: seq<World>, start: seq<seq<Identity>>, attempts: seq<seq<Identity>>,
                          first: seq<PartitionRow>, rows: seq<PartitionRow>, mode: Mode, lo: nat, n: nat,
                          parts: seq<Option<Identity>>)
  {
    && Attempted(start, attempts, lo, n, parts) && AllServed(worlds, now, start, attempts, lo, n)
    && KeptUp(worlds, now, first, rows, mode) && AllUp(worlds, now, rows, mode, lo, n)
  }

  lemma AllUpEnd(a: seq<World>, b: seq<World>, c: seq<World>, rows: seq<PartitionRow>, mode: Mode, lo: nat, n: nat,
                 parts: seq<Option<Identity>>)
    requires Later(a, b) && Later(b, c) && lo <= n < lo + |parts| && Shown(a, b, lo, parts, true)
    requires AllUp(a, c, rows, mode, lo, n)
    requires parts[n - lo].Some? && b[n].cur == parts[n - lo] ==> AllUp(b, c, rows, mode, n, n + 1)
    ensures AllUp(a, c, rows, mode, lo, n + 1)
  {
    if Stayed(a[n], c[n]) { StayedBetween(a[n], b[n], c[n]); }
  }

  lemma CoveredStep(worlds: seq<World>, before: seq<World>, now: seq<World>, start: seq<seq<Identity>>,
                    mid: seq<seq<Identity>>, attempts: seq<seq<Identity>>, first: seq<PartitionRow>, rows: seq<PartitionRow>,
                    after: seq<PartitionRow>, mode: Mode, lo: nat, n: nat, parts: seq<Option<Identity>>)
    requires Underway(worlds, before, start, mid, mode, lo, parts) && Later(before, now) && Grown(mid, attempts)
    requires lo <= n < lo + |parts| && Covered(worlds, before, start, mid, first, rows, mode, lo, n, parts)
    requires KeptUp(before, now, rows, after, mode)
    requires parts[n - lo].Some? && before[n].cur == parts[n - lo] ==> AllUp(before, now, after, mode, n, n + 1)
    requires parts[n - lo].Some? ==> mid[n] < attempts[n]
    requires parts[n - lo].Some? && before[n].cur == parts[n - lo] ==> Served(before[n], now[n], mid[n], attempts[n])
    ensures Covered(worlds, now, start, attempts, first, after, mode, lo, n + 1, parts)
  {
    hide Later, Grown, KeptUp, AllUp, AllServed, Attempted, Served, Lists, Shown, ModeIs, Stayed, UpToDate;
    KeptUpTwice(worlds, before, now, first, rows, after, mode);
    AllUpLater(worlds, before, now, rows, after, mode, lo, n);
    AllUpEnd(worlds, before, now, after, mode, lo, n, parts);
    AttemptedStep(start, mid, attempts, lo, n, parts);
    AllServedStep(worlds, before, now, start, mid, attempts, lo, n, parts);
  }

  lemma NowUnderway(worlds: seq<World>, now: seq<World>, start: seq<seq<Identity>>, mode: Mode, lo: nat,
                    parts: seq<Option<Identity>>, rows: seq<PartitionRow>, failed: bool)
    requires |rows| == |worlds| && Later(worlds, now) && ModeIs(worlds, mode) && Lists(now, lo, parts) && |worlds| == |start|
    requires !failed ==> Shown(worlds, now, lo, parts, true)
    ensures ModeIs(now, mode) && Grown(start, start)
    ensures !failed ==> Underway(worlds, now, start, start, mode, lo, parts) && Covered(worlds, now, start, start, rows, rows, mode, lo, lo, parts)
  {
  }

  lemma UnderwayIs(worlds: seq<World>, now: seq<World>, start: seq<seq<Identity>>, attempts: seq<seq<Identity>>,
                   mode: Mode, lo: nat, parts: seq<Option<Identity>>, before: nat, after: nat, hi: nat)
    requires Underway(worlds, now, start, attempts, mode, lo, parts)
    ensures Later(worlds, now) && Grown(start, attempts) && ModeIs(now, mode) && |now| == |worlds|
    ensures after > before ==> Troubled(before, after, worlds, now, lo, hi)
  {
  }

  lemma CoveredIs(worlds: seq<World>, now: seq<World>, start: seq<seq<Identity>>, attempts: seq<seq<Identity>>, lo: nat, n: nat,
                  parts: seq<Option<Identity>>, first: seq<PartitionRow>, rows: seq<PartitionRow>, mode: Mode)
    requires Covered(worlds, now, start, attempts, first, rows, mode, lo, n, parts)
    ensures Attempted(start, attempts, lo, n, parts) && AllServed(worlds, now, start, attempts, lo, n)
    ensures KeptUp(worlds, now, first, rows, mode) && AllUp(worlds, now, rows, mode, lo, n)
  {
  }

  /** One turn of the loop: one line of the listing. */
  method TableTurn(sites: seq<Site>, svc: Service, n: nat, lo: nat, parts: seq<Option<Identity>>, force: bool, mode: Mode,
                   ghost start: seq<seq<Identity>>, ghost worlds: seq<World>, ghost first: seq<PartitionRow>) returns (o: Outcome, stop: bool)
    requires Fleet(sites) && AllSynced(sites) && lo <= n < lo + |parts| <= |sites| && (force ==> mode == OverwriteMode)
    requires Underway(worlds, WorldsOf(sites), start, AttemptsOf(sites), mode, lo, parts)
    modifies sites, Entries(sites), svc
    ensures Fleet(sites) && Underway(worlds, WorldsOf(sites), start, AttemptsOf(sites), mode, lo, parts)
    ensures Later(old(WorldsOf(sites)), WorldsOf(sites)) && (o != NotPersisted ==> AllSynced(sites))
    ensures o == Unchanged || o == Imported ==>
              (old(Covered(worlds, WorldsOf(sites), start, AttemptsOf(sites), first, RowsOf(sites), mode, lo, n, parts)) ==>
               Covered(worlds, WorldsOf(sites), start, AttemptsOf(sites), first, RowsOf(sites), mode, lo, n + 1, parts))
    ensures svc.trouble >= old(svc.trouble) && (stop ==> o == Failed || o == NotPersisted)
    ensures o == Failed || o == NotPersisted ==>
              svc.trouble > old(svc.trouble) || (stop && !Stayed(old(WorldsOf(sites))[n], WorldsOf(sites)[n]))
  {
    hide WorldsOf, RowsOf, AttemptsOf, Inv, SourceDrift, Announced, Site.Valid, Grown, Later, Fleet, ModeIs, AllSynced, Lists, Shown,
      Served, Stayed, Covered, Underway, KeptUp, AllUp;
    ghost var before, mid, rows := WorldsOf(sites), AttemptsOf(sites), RowsOf(sites);
    SameIsKept(before, before, rows, mode);
    NoneAttempted(mid, 0, []);
    LaterSelf(before);
    o, stop := Unchanged, false;
    if parts[n - lo].Some? {
      UnderwayParts(worlds, before, start, mid, mode, lo, parts, n);
      o, stop := SyncListed(sites, svc, n, parts[n - lo].value, force, mode);
    }
    UnderwayLater(worlds, before, WorldsOf(sites), start, mid, AttemptsOf(sites), mode, lo, parts);
    if (o == Unchanged || o == Imported) && Covered(worlds, before, start, mid, first, rows, mode, lo, n, parts) {
      CoveredStep(worlds, before, WorldsOf(sites), start, mid, AttemptsOf(sites), first, rows, RowsOf(sites), mode, lo, n, parts);
    }
  }

  lemma UnderwayParts(worlds: seq<World>, now: seq<World>, start: seq<seq<Identity>>, attempts: seq<seq<Identity>>,
                      mode: Mode, lo: nat, parts: seq<Option<Identity>>, n: nat)
    requires Underway(worlds, now, start, attempts, mode, lo, parts)
    requires lo <= n < lo + |parts| && parts[n - lo].Some?
    ensures ModeIs(now, mode) && n < |now| && parts[n - lo].value in now[n].hist
  {
  }

  /** syncTable over the partitions from `lo` up to `hi` of the fleet, which may scan all of
      it between any two. It stops at the first failure to save, and where a partition is
      gone after a scan; a forced run stops at the first failure of any kind. If it reports
      no failure, every partition of its listing was attempted, and every partition whose
      source stayed as it was, for its identity. It reports one only if something failed. */
  method SyncTable(sites: seq<Site>, svc: Service, lo: nat, hi: nat, force: bool, mode: Mode)
    returns (r: Outcome, parts: seq<Option<Identity>>)
    requires Fleet(sites) && AllSynced(sites) && lo <= hi <= |sites|
    requires (force ==> mode == OverwriteMode) && ModeIs(WorldsOf(sites), mode)
    modifies sites, Entries(sites), svc
    ensures Fleet(sites) && ModeIs(WorldsOf(sites), mode) && r in {Unchanged, Failed, NotPersisted}
    ensures Later(old(WorldsOf(sites)), WorldsOf(sites)) && Grown(old(AttemptsOf(sites)), AttemptsOf(sites))
    ensures r != NotPersisted ==> AllSynced(sites)
    ensures r == Unchanged ==> |parts| == hi - lo && Attempted(old(AttemptsOf(sites)), AttemptsOf(sites), lo, hi, parts)
    ensures r == Unchanged ==>
              AllServed(old(WorldsOf(sites)), WorldsOf(sites), old(AttemptsOf(sites)), AttemptsOf(sites), lo, hi)
    ensures r == Unchanged ==>
              && AllUp(old(WorldsOf(sites)), WorldsOf(sites), RowsOf(sites), mode, lo, hi)
              && KeptUp(old(WorldsOf(sites)), WorldsOf(sites), old(RowsOf(sites)), RowsOf(sites), mode)
    ensures svc.trouble >= old(svc.trouble)
    ensures r != Unchanged ==> Troubled(old(svc.trouble), svc.trouble, old(WorldsOf(sites)), WorldsOf(sites), lo, hi)
  {
    hide WorldsOf, RowsOf, AttemptsOf, Inv, SourceDrift, Announced, Site.Valid, Grown, Later, Fleet, ModeIs,
      AllSynced, Lists, Shown, Served, Attempted, AllServed, Stayed, Underway, Covered, Troubled, KeptUp, AllUp;
    ghost var start, worlds, first := AttemptsOf(sites), WorldsOf(sites), RowsOf(sites);
    var failed;
    parts, failed := ListAll(sites, svc, lo, hi);
    LaterSelf(worlds);
    r := if failed then Failed else Unchanged;
    if !failed { r := RecordSchema(svc); }
    NowUnderway(worlds, WorldsOf(sites), start, mode, lo, parts, first, failed);
    NowTroubled(old(svc.trouble), svc.trouble, worlds, WorldsOf(sites), lo, hi);
    if r != Unchanged { return; }
    for n := lo to hi
      invariant Fleet(sites) && AllSynced(sites) && r in {Unchanged, Failed}
      invariant Underway(worlds, WorldsOf(sites), start, AttemptsOf(sites), mode, lo, parts)
      invariant r == Unchanged ==> Covered(worlds, WorldsOf(sites), start, AttemptsOf(sites), first, RowsOf(sites), mode, lo, n, parts)
      invariant svc.trouble >= old(svc.trouble) && (r != Unchanged ==> svc.trouble > old(svc.trouble))
    {
      var proceed := svc.Call();
      if !proceed {
        UnderwayIs(worlds, WorldsOf(sites), start, AttemptsOf(sites), mode, lo, parts, old(svc.trouble), svc.trouble, hi);
        r := Failed;
        return;
      }
      ghost var trouble, before, mid := svc.trouble, WorldsOf(sites), AttemptsOf(sites);
      var o, stop := TableTurn(sites, svc, n, lo, parts, force, mode, start, worlds, first);
      if stop || o == NotPersisted || (force && o == Failed) {
        UnderwayIs(worlds, WorldsOf(sites), start, AttemptsOf(sites), mode, lo, parts, old(svc.trouble), svc.trouble, hi);
        UnderwayIs(worlds, before, start, mid, mode, lo, parts, old(svc.trouble), trouble, hi);
        StillTroubled(old(svc.trouble), svc.trouble, worlds, before, WorldsOf(sites), lo, hi, n);
        r := o;
        return;
      }
      r := Worse(r, o);
    }
    UnderwayIs(worlds, WorldsOf(sites), start, AttemptsOf(sites), mode, lo, parts, old(svc.trouble), svc.trouble, hi);
    if r == Unchanged { CoveredIs(worlds, WorldsOf(sites), start, AttemptsOf(sites), lo, hi, parts, first, RowsOf(sites), mode); }
  }
}
