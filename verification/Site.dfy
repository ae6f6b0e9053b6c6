/** One source partition, its target and its checkpoint, with the foreign calls the
    program makes. Every call lets the world drift first, and may report a failure at
    any time: a crash is a failure after which nothing but the saved row is kept. */
module Sites {
  import opened Rows
  import opened Checkpoint
  import opened Outside
  import opened PartitionInvariant

  datatype Reply<T> = Err | Ok(value: T)

  datatype Kind = OverwriteKind | CreateKind | RecreateKind | AppendKind

  /** A statement submitted to the target, with the row that was durable then and what
      the last listing of the source had shown. */
  datatype Write = Write(statement: Statement, prefix: Prefix, record: PartitionRow, listed: Option<Identity>)

  /** Write-ahead: before it was submitted the durable row already named this very write
      and the identity it brings, and the source had been seen to have that identity. */
  predicate Announced(x: Write) {
    if x.statement.Append? then
      && x.record.pendingDelta.Some? && x.record.pendingDelta.value.importStarted
      && x.record.pendingDelta.value.backupReady && x.record.pendingDelta.value.prefix == x.prefix
      && x.listed == Some(x.record.pendingDelta.value.identity)
    else
      && x.record.importInProgress && x.record.backupReady && x.record.backupPrefix == Some(x.prefix)
      && x.listed.Some? && x.record.backupIdentity == x.listed
  }

  /** An OUTFILE that succeeded wrote all of the rows it read, or no file at all. */
  ghost predicate Exported(w: World, p: Prefix, read: Option<Bag>) {
    read.Some? && (At(w, p) == NO_OBJECTS || (At(w, p).files != {} && At(w, p).rows == read.value))
  }

  class Site {
    var w: World
    var disk: PartitionRow
    const entry: PartitionState
    ghost var dirty: bool
    ghost var log: seq<Write>
    ghost var listed: Option<Identity>    // what the last listing of the source showed
    ghost var listedAt: nat               // how many writes had been submitted by then
    ghost var since: World                // the world when the operation under way began
    ghost var attempts: seq<Identity>     // the identities that attempts were made for
    ghost var snap: World                 // the world the last export read
    ghost var fulls: nat                  // full statements submitted and full imports recorded
    ghost var excused: bool               // a delta was recorded onto a target someone had dropped
    ghost const initial: Option<Bag>      // what the target held at first
    ghost var faults: nat                 // foreign calls that failed, and OUTFILEs that lost their rows
    const auto: bool                      // the target table is declared AUTO PARTITION

    ghost predicate Valid()
      reads this
    {
      && Inv(w, disk, dirty)
      && SourceDrift(since, w) && SourceDrift(snap, w)
      && Past(w.mode, w.autoMatches, w.hist, w.target, initial, excused)
      && forall x | x in log :: Announced(x)
    }

    /** Memory and disk agree. */
    predicate Synced()
      reads this, entry
    {
      entry.Row() == disk
    }

    /** A new state file, and a source and target in any condition. */
    constructor (mode: Mode, auto: bool, autoMatches: bool, source: map<Identity, Bag>, cur: Option<Identity>,
                 target: Option<Bag>)
      requires SourceValid(World(mode, autoMatches, source, cur, map[], {}, {}, {}, Target(target, multiset{}, false, None)))
      ensures Valid() && Synced() && disk == EMPTY_ROW && log == [] && attempts == []
      ensures w.mode == mode && w.hist == source && w.cur == cur && w.target.rows == target
      ensures fresh(entry) && !dirty && !excused && initial == target && this.auto == auto
    {
      w := World(mode, autoMatches, source, cur, map[], {}, {}, {}, Target(target, multiset{}, false, None));
      disk := EMPTY_ROW;
      entry := new PartitionState();
      dirty, log, listed, listedAt, attempts := false, [], None, 0, [];
      since, snap, fulls, excused, initial := w, w, 0, false, target;
      this.auto, faults := auto, 0;
    }

    /** The world moves. */
    method Interfere()
      requires Valid()
      modifies this`w
      ensures Valid() && Drift(old(w), w)
    {
      var next: World := *;
      if Drift(w, next) {
        InvCreates(w, disk, dirty);
        DriftKeepsInv(w, next, {}, disk, dirty);
        DriftKeepsPast(w, next, {}, initial, excused);
        SourceDriftTransitive(since, w, next);
        SourceDriftTransitive(snap, w, next);
        w := next;
      }
    }

    /** Does a foreign call get an answer? */
    method Answered() returns (ok: bool)
      modifies this`faults
      ensures faults == old(faults) + if ok then 0 else 1
    {
      ok := *;
      if !ok { faults := faults + 1; }
    }

    /** An attempt begins: identities known now stay known. */
    ghost method Begin(i: Identity)
      requires Valid()
      modifies this`since, this`attempts
      ensures Valid() && since == w && attempts == old(attempts) + [i]
    {
      since := w;
      attempts := attempts + [i];
    }

    /** savePartition: one SQLite upsert, which may fail before or after committing. */
    method Save() returns (ok: bool)
      requires Valid() && Inv(w, entry.Row(), dirty)
      modifies this`w, this`faults, this`disk
      ensures Valid() && Inv(w, entry.Row(), dirty)
      ensures Drift(old(w), w)
      ensures disk == entry.Row() || (!ok && disk == old(disk))
      ensures faults == old(faults) + if ok then 0 else 1
    {
      hide Inv, Past, SourceDrift, DriftBut, Drift;
      Interfere();
      QuietDriftKeepsInv(old(w), w, entry.Row(), dirty);
      ok := Answered();
      var committed: bool := *;
      if !ok && !committed { return; }
      disk := entry.Row();
    }

    /** SHOW PARTITIONS on the source, reduced to this partition. */
    method SourcePartition() returns (r: Reply<Option<Identity>>)
      requires Valid()
      modifies this`w, this`faults, this`listed, this`listedAt
      ensures Valid() && Drift(old(w), w)
      ensures r.Ok? ==> r.value == w.cur && listed == r.value && listedAt == |log|
      ensures r.Err? ==> listed == old(listed) && listedAt == old(listedAt)
      ensures faults == old(faults) + if r.Ok? then 0 else 1
    {
      Interfere();
      var answered := Answered();
      if !answered { return Err; }
      listed, listedAt := w.cur, |log|;
      return Ok(w.cur);
    }

    /** SELECT 1 ... LIMIT 1 on the source partition: is there a row? */
    method ProbeSource() returns (r: Reply<bool>)
      requires Valid()
      modifies this`w, this`faults
      ensures Valid() && Drift(old(w), w)
      ensures r.Ok? ==> w.cur.Some? && w.cur.value in w.hist && (r.value <==> w.hist[w.cur.value] != multiset{})
      ensures faults == old(faults) + if r.Ok? then 0 else 1
    {
      Interfere();
      var answered := Answered();
      if !answered { return Err; }
      if w.cur.None? || w.cur.value !in w.hist {
        faults := faults + 1;
        return Err;
      }
      return Ok(w.hist[w.cur.value] != multiset{});
    }

    /** SELECT MAX(time) on the source partition; None is NULL. */
    method MaxTime() returns (r: Reply<Option<int>>)
      requires Valid()
      modifies this`w, this`faults
      ensures Valid() && Drift(old(w), w)
      ensures r.Ok? ==> w.cur.Some? && w.cur.value in w.hist && IsMax(w.hist[w.cur.value], r.value)
      ensures faults == old(faults) + if r.Ok? then 0 else 1
    {
      Interfere();
      var m: Option<int> := *;
      if w.cur.None? || w.cur.value !in w.hist || !IsMax(w.hist[w.cur.value], m) {
        faults := faults + 1;
        return Err;
      }
      return Ok(m);
    }

    /** A random generation; the draw is taken to be fresh, or to fail. What an earlier
        attempt had pinned is given up. */
    method NewGeneration() returns (r: Reply<Prefix>)
      requires Valid()
      modifies this`w, this`faults
      ensures Valid()
      ensures r.Err? ==> w == old(w)
      ensures r.Ok? ==> r.value.Full? && r.value !in old(w).used
                        && w == old(w).(used := old(w).used + {r.value}, pinned := {})
      ensures faults == old(faults) + if r.Ok? then 0 else 1
    {
      hide Inv, SourceDrift, Past;
      var g: nat := *;
      if Full(g) in w.used {
        faults := faults + 1;
        return Err;
      }
      ForgetfulKeeps(since, snap, w, disk, dirty, {Full(g)}, {});
      w := w.(used := w.used + {Full(g)}, pinned := {});
      return Ok(Full(g));
    }

    /** Nothing removes the objects under `p` from here until a statement has read them. */
    method Pin(p: Prefix)
      requires Valid()
      modifies this`w
      ensures Valid() && w == old(w).(pinned := {p})
    {
      hide Inv, SourceDrift, Past;
      ForgetfulKeeps(since, snap, w, disk, dirty, {}, {p});
      w := w.(used := w.used + {}, pinned := {p});
    }

    method Unpin()
      requires Valid()
      modifies this`w
      ensures Valid() && w == old(w).(pinned := {})
    {
      hide Inv, SourceDrift, Past;
      ForgetfulKeeps(since, snap, w, disk, dirty, {}, {});
      w := w.(used := w.used + {}, pinned := {});
    }

    /** Delete every object below the partition's own prefix, or only some. */
    method ClearAll() returns (ok: bool)
      requires Valid() && w.pinned == {} && !disk.backupReady && disk.pendingDelta.None?
      modifies this`w, this`faults
      ensures Valid() && DriftBut(old(w), w, old(w).store.Keys)
      ensures w.late == old(w).late && w.pinned == {}
      ensures ok ==> w.store.Keys <= w.late
      ensures faults == old(faults) + if ok then 0 else 1
    {
      hide Inv, SourceDrift, DriftBut, StoreDrift, TargetDrift;
      Interfere();
      var kept: set<Prefix> := *;
      ok := Answered();
      ClearKeeps(old(w), w, disk, dirty, if ok then {} else kept);
      w := Cleared(w, if ok then {} else kept);
      SameSource(since, old(w), w);
      SameSource(snap, old(w), w);
    }

    /** Delete the objects under one delta's prefix, or only some. */
    method ClearDelta(p: Prefix) returns (ok: bool)
      requires Valid() && p.Incremental? && Unneeded(w, disk, {p})
      modifies this`w, this`faults
      ensures Valid() && DriftBut(old(w), w, {p}) && Unneeded(w, disk, {p})
      ensures w.late == old(w).late && w.pinned == old(w).pinned
      ensures ok ==> At(w, p) == NO_OBJECTS
      ensures faults == old(faults) + if ok then 0 else 1
    {
      hide Inv, SourceDrift, DriftBut, StoreDrift, TargetDrift, Past;
      Interfere();
      var left: Batch := *;
      ok := Answered();
      if ok { left := NO_OBJECTS; }
      PrefixKeeps(old(w), w, disk, dirty, p, left);
      w := w.(store := w.store[p := left]);
      SameSource(since, old(w), w);
      SameSource(snap, old(w), w);
    }

    /** A failed OUTFILE leaves anything under its prefix. A full attempt may even go on
        writing there later; a delta attempt is taken to have ended. */
    method FailedOutfile(p: Prefix)
      requires Valid() && Unneeded(w, disk, {p})
      modifies this`w, this`faults
      ensures Valid() && DriftBut(old(w), w, {p}) && w.pinned == old(w).pinned
      ensures w.late == old(w).late + if p.Full? then {p} else {}
      ensures faults > old(faults)
    {
      hide Inv, SourceDrift, DriftBut, StoreDrift, TargetDrift, Unneeded;
      Interfere();
      faults := faults + 1;
      var left: Batch := *;
      LeftKeeps(old(w), w, disk, dirty, p, left);
      w := Left(w, p, left);
      SameSource(since, old(w), w);
      SameSource(snap, old(w), w);
    }

    /** A successful OUTFILE: `batch` appears under the prefix, unless it is no file at all,
        and stays until it is listed. */
    method Put(p: Prefix, batch: Batch)
      requires Valid() && Unneeded(w, disk, {p}) && At(w, p) == NO_OBJECTS && p !in w.late
      modifies this`w, this`faults, this`snap
      ensures Valid() && w == old(w).(store := w.store, pinned := {p}) && DriftBut(old(w), w, {p}) && snap == w
      ensures faults == old(faults) + if batch.files == {} && batch.rows != multiset{} then 1 else 0
      ensures At(w, p) == if batch.files == {} then NO_OBJECTS else batch
    {
      hide Inv, SourceDrift, DriftBut, Unneeded;
      PutKeeps(since, w, disk, dirty, p, batch);
      w := if batch.files != {} then w.(store := w.store[p := batch], pinned := {p}) else w.(pinned := {p});
      snap := w;
      if batch.files == {} && batch.rows != multiset{} { faults := faults + 1; }
    }

    /** The world as an OUTFILE under a spare prefix finds it, if the partition is there. */
    method Approach(p: Prefix) returns (ok: bool)
      requires Valid() && Unneeded(w, disk, {p}) && At(w, p) == NO_OBJECTS && p !in w.late
      modifies this`w, this`faults
      ensures Valid() && Unneeded(w, disk, {p}) && At(w, p) == NO_OBJECTS && p !in w.late
      ensures Drift(old(w), w) && DriftBut(old(w), w, {p}) && w.late == old(w).late && w.pinned == old(w).pinned
      ensures ok ==> w.cur.Some? && w.cur.value in w.hist
      ensures faults == old(faults) + if ok then 0 else 1
    {
      hide Inv, Past, SourceDrift, DriftBut, Drift, Unneeded;
      Interfere();
      SpareDrift(old(w), w, disk, p);
      ok := w.cur.Some? && w.cur.value in w.hist;
      if !ok { faults := faults + 1; }
    }

    /** OUTFILE of the whole partition under a fresh prefix. It reads one snapshot of the
        source, taken at the world `snap`, and either writes all of it or no file at all.
        Nothing removes the files before they are listed. */
    method OutfilePartition(p: Prefix) returns (ok: bool)
      requires Valid() && Unneeded(w, disk, {p}) && p !in w.store && p !in w.late
      modifies this`w, this`faults, this`snap
      ensures Valid() && DriftBut(old(w), w, {p}) && w.late <= old(w).late + if p.Full? then {p} else {}
      ensures !ok ==> w.pinned == old(w).pinned
      ensures ok ==> w.late == old(w).late && w.pinned == {p}
      ensures ok ==> SourceDrift(since, snap) && Exported(w, p, Contents(snap))
      ensures faults >= old(faults) && (!ok ==> faults > old(faults))
      ensures ok && At(w, p) == NO_OBJECTS && Contents(snap) != Some(multiset{}) ==> faults > old(faults)
    {
      if * {
        FailedOutfile(p);
        return false;
      }
      hide Inv, Past, TargetDrift, SourceDrift, StoreDrift, DriftBut, Drift, Unneeded;
      ok := Approach(p);
      if !ok { return; }
      ghost var read := w;
      var names: set<string> := *;
      Put(p, Batch(names, w.hist[w.cur.value]));
      DriftThenBut(old(w), read, w, p);
    }

    /** OUTFILE of the rows with from < time <= to, likewise. */
    method OutfileDelta(p: Prefix, from: int, to: int) returns (ok: bool)
      requires Valid() && p.Incremental? && Unneeded(w, disk, {p}) && At(w, p) == NO_OBJECTS && p !in w.late
      modifies this`w, this`faults, this`snap
      ensures Valid() && DriftBut(old(w), w, {p}) && w.late == old(w).late
      ensures !ok ==> w.pinned == old(w).pinned
      ensures ok ==> w.pinned == {p}
      ensures ok ==> SourceDrift(since, snap)
                     && Exported(w, p, if Contents(snap).Some? then Some(After(Contents(snap).value, from, to)) else None)
      ensures faults >= old(faults) && (!ok ==> faults > old(faults))
      ensures ok && At(w, p) == NO_OBJECTS && Contents(snap).Some? && After(Contents(snap).value, from, to) != multiset{} ==> faults > old(faults)
    {
      if * {
        FailedOutfile(p);
        return false;
      }
      hide Inv, Past, TargetDrift, SourceDrift, StoreDrift, DriftBut, Drift, Unneeded;
      ok := Approach(p);
      if !ok { return; }
      ghost var read := w;
      var names: set<string> := *;
      var rows: Bag := *;
      if !IsAfter(w.hist[w.cur.value], from, to, rows) {
        faults := faults + 1;
        return false;
      }
      Put(p, Batch(names, rows));
      DriftThenBut(old(w), read, w, p);
    }

    /** ListObjectsV2 under a prefix: the sorted names, kept as a set. */
    method List(p: Prefix) returns (r: Reply<set<string>>)
      requires Valid()
      modifies this`w, this`faults
      ensures Valid() && Drift(old(w), w)
      ensures r.Ok? ==> r.value == At(w, p).files
      ensures faults == old(faults) + if r.Ok? then 0 else 1
    {
      Interfere();
      var answered := Answered();
      if !answered { return Err; }
      return Ok(At(w, p).files);
    }

    /** SHOW PARTITIONS on the target and matchTargetPartition: is there a match? */
    method TargetPartition() returns (r: Reply<bool>)
      requires Valid()
      modifies this`w, this`faults
      ensures Valid() && Drift(old(w), w)
      ensures r.Ok? ==> r.value == w.target.rows.Some?
      ensures faults == old(faults) + if r.Ok? then 0 else 1
    {
      Interfere();
      var answered := Answered();
      if !answered { return Err; }
      return Ok(w.target.rows.Some?);
    }

    /** SHOW CREATE TABLE on the target: does it say AUTO PARTITION? */
    method IsAutoPartition() returns (r: Reply<bool>)
      requires Valid()
      modifies this`w, this`faults
      ensures Valid() && Drift(old(w), w)
      ensures faults == old(faults) + if r.Ok? then 0 else 1
      ensures r.Ok? ==> r.value == auto
    {
      Interfere();
      var answered := Answered();
      if !answered { return Err; }
      return Ok(auto);
    }

    /** The settling assumption: whatever was submitted to this target partition before
        has committed or has been abandoned. */
    method Settle()
      requires Valid()
      modifies this`w
      ensures Valid() && Drift(old(w), w) && w.target.inflight.None?
    {
      hide Inv, SourceDrift, Drift, DriftBut, Past;
      if w.target.inflight.Some? {
        SettleKeeps(since, snap, w, disk, dirty);
        InvCreates(w, disk, dirty);
        DriftParts(w, w.(target := Commit(w.target, w.autoMatches)));
        DriftParts(w, w.(target := Abandon(w.target)));
        DriftKeepsPast(w, w.(target := Commit(w.target, w.autoMatches)), {}, initial, excused);
        DriftKeepsPast(w, w.(target := Abandon(w.target)), {}, initial, excused);
        if * {
          w := w.(target := Commit(w.target, w.autoMatches));
        } else {
          w := w.(target := Abandon(w.target));
        }
      } else {
        DriftSelf(w);
      }
    }

    /** The rows an import of `p` brings; `empty` is the form that selects nothing. */
    static function Submitted(kind: Kind, w: World, p: Prefix, empty: bool): Statement {
      var rows := if empty then multiset{} else At(w, p).rows;
      match kind
      case OverwriteKind => Overwrite(rows)
      case CreateKind => Create(rows)
      case RecreateKind => Recreate(rows)
      case AppendKind => Append(rows)
    }

    /** Submit one statement, the invariant holding of the world just before it, `pre`,
        and just after. If the call succeeds the statement has committed; if it fails,
        the statement may never commit, have committed, or commit later. */
    method Exec(kind: Kind, p: Prefix, empty: bool, ghost pre: World) returns (ok: bool)
      requires Valid() && w == pre && w.target.inflight.None?
      requires Announced(Write(Submitted(kind, w, p, empty), p, disk, listed))
      requires Inv(Launched(w, Submitted(kind, w, p, empty)), disk, dirty || kind != AppendKind)
      requires kind != AppendKind ==> IsVersion(w.hist, Submitted(kind, w, p, empty).rows)
      requires kind == AppendKind ==> w.mode == TimeWindow
      modifies this`w, this`faults, this`dirty, this`log, this`fulls, this`excused
      ensures Valid()
      ensures log == old(log) + [Write(Submitted(kind, pre, p, empty), p, disk, listed)]
      ensures dirty == (old(dirty) || kind != AppendKind)
      ensures if kind == AppendKind then fulls == old(fulls) && excused == old(excused) else fulls == old(fulls) + 1
      ensures ok ==> (kind == OverwriteKind ==> pre.target.rows.Some?)
                     && Drift(Committed(pre, Submitted(kind, pre, p, empty)), w)
      ensures !ok ==> Drift(Launched(pre, Submitted(kind, pre, p, empty)), w)
      ensures faults == old(faults) + if ok then 0 else 1
    {
      hide Inv, SourceDrift, Past, Drift, DriftBut, Submitted, Announced, Launched, IsVersion;
      var statement := Submitted(kind, w, p, empty);
      SubmittedKind(kind, w, p, empty);
      LaunchNow(statement, p);
      ok := *;
      if kind == OverwriteKind && w.target.rows.None? { ok := false; }
      if !ok { faults := faults + 1; }
      LaunchedRows(pre, statement);
      if ok { CommitNow(pre, statement); }
      Interfere();
    }

    /** The statement goes out: from here on it may commit at any time. */
    method LaunchNow(x: Statement, ghost p: Prefix)
      requires Valid() && Announced(Write(x, p, disk, listed))
      requires Inv(Launched(w, x), disk, dirty || !x.Append?)
      requires if x.Append? then w.mode == TimeWindow else IsVersion(w.hist, x.rows)
      modifies this`w, this`dirty, this`log, this`fulls, this`excused
      ensures Valid() && w == Launched(old(w), x) && log == old(log) + [Write(x, p, disk, listed)]
      ensures dirty == (old(dirty) || !x.Append?)
      ensures if x.Append? then fulls == old(fulls) && excused == old(excused) else fulls == old(fulls) + 1
    {
      hide Inv, SourceDrift, Past, Announced, IsVersion;
      log := log + [Write(x, p, disk, listed)];
      LaunchKeepsPast(w, x, initial, excused);
      if !x.Append? { dirty, excused, fulls := true, false, fulls + 1; }
      ghost var pre := w;
      w := Launched(w, x);
      LaunchKeepsSource(since, pre, w);
      LaunchKeepsSource(snap, pre, w);
    }

    /** The statement just submitted commits. */
    method CommitNow(ghost pre: World, ghost x: Statement)
      requires Valid() && w == Launched(pre, x)
      modifies this`w
      ensures Valid() && w == Committed(pre, x)
    {
      hide Inv, SourceDrift, Past, Drift, DriftBut;
      SettleKeeps(since, snap, w, disk, dirty);
      InvCreates(w, disk, dirty);
      DriftParts(w, w.(target := Commit(w.target, w.autoMatches)));
      DriftKeepsPast(w, w.(target := Commit(w.target, w.autoMatches)), {}, initial, excused);
      w := w.(target := Commit(w.target, w.autoMatches));
    }
  }

  /** The world with `x` in flight. */
  function Launched(w: World, x: Statement): World {
    w.(target := w.target.(inflight := Some(x)))
  }

  /** The world once `x` has committed. */
  function Committed(w: World, x: Statement): World {
    w.(target := Commit(w.target.(inflight := Some(x)), w.autoMatches))
  }

  lemma LaunchKeepsSource(a: World, b: World, c: World)
    requires SourceDrift(a, b) && c == b.(target := c.target)
    ensures SourceDrift(a, c)
  {
  }

  /** Writing under a prefix that nothing relies on. */
  lemma PutKeeps(since: World, w: World, d: PartitionRow, dirty: bool, p: Prefix, batch: Batch)
    requires Inv(w, d, dirty) && SourceDrift(since, w) && Unneeded(w, d, {p})
    ensures var c := if batch.files != {} then w.(store := w.store[p := batch], pinned := {p}) else w.(pinned := {p});
            Inv(c, d, dirty) && SourceDrift(since, c) && SourceDrift(c, c) && DriftBut(w, c, {p})
  {
    hide TargetDrift;
    var c := if batch.files != {} then w.(store := w.store[p := batch], pinned := {p}) else w.(pinned := {p});
    DriftSelf(w);
    DriftThenWrite(w, w, p, batch, {p});
    SourceDriftTransitive(since, w, c);
    InvParts(w, d, dirty);
    hide Inv;
    DriftKeepsInv(w, c, {p}, d, dirty);
  }

  lemma SettleDrifts(w: World)
    requires w.target.inflight.Some?
    ensures Drift(w, w.(target := Commit(w.target, w.autoMatches))) && Drift(w, w.(target := Abandon(w.target)))
    ensures Commit(w.target, w.autoMatches).inflight.None?
  {
  }

  /** Committing and abandoning are both things that may happen to a statement. */
  lemma SettleKeeps(since: World, snap: World, w: World, d: PartitionRow, dirty: bool)
    requires Inv(w, d, dirty) && SourceDrift(since, w) && SourceDrift(snap, w) && w.target.inflight.Some?
    ensures var c := w.(target := Commit(w.target, w.autoMatches));
            Inv(c, d, dirty) && Drift(w, c) && SourceDrift(since, c) && SourceDrift(snap, c) && c.target.inflight.None?
    ensures var c := w.(target := Abandon(w.target));
            Inv(c, d, dirty) && Drift(w, c) && SourceDrift(since, c) && SourceDrift(snap, c) && c.target.inflight.None?
  {
    hide Inv;
    var c, e := w.(target := Commit(w.target, w.autoMatches)), w.(target := Abandon(w.target));
    SettleDrifts(w);
    QuietDriftKeepsInv(w, c, d, dirty);
    QuietDriftKeepsInv(w, e, d, dirty);
  }

  /** The world without the objects that were cleared. */
  function Cleared(w: World, kept: set<Prefix>): World {
    w.(store := map p | p in w.store && (p in w.late || p in kept) :: w.store[p])
  }

  lemma ClearKeeps(a: World, w: World, d: PartitionRow, dirty: bool, kept: set<Prefix>)
    requires Drift(a, w) && Inv(w, d, dirty) && Inv(a, d, dirty) && a.pinned == {} && !d.backupReady && d.pendingDelta.None?
    ensures Inv(Cleared(w, kept), d, dirty) && DriftBut(a, Cleared(w, kept), a.store.Keys)
    ensures SourceDrift(a, Cleared(w, kept)) && Cleared(w, kept).late == a.late && Cleared(w, kept).pinned == {}
    ensures kept == {} ==> Cleared(w, kept).store.Keys <= a.late
  {
    hide TargetDrift;
    var c := Cleared(w, kept);
    InvParts(a, d, dirty);
    hide Inv;
    DriftKeepsInv(a, c, a.store.Keys, d, dirty);
  }

  lemma SameSource(s: World, a: World, c: World)
    requires SourceDrift(s, a) && SourceDrift(a, c)
    ensures SourceDrift(s, c)
  {
  }

  /** The world with anything under a prefix, and a full attempt's writer still at work. */
  function Left(w: World, p: Prefix, left: Batch): World {
    w.(store := w.store[p := left], late := w.late + if p.Full? then {p} else {})
  }

  lemma LeftKeeps(a: World, w: World, d: PartitionRow, dirty: bool, p: Prefix, left: Batch)
    requires Drift(a, w) && Inv(a, d, dirty) && Unneeded(a, d, {p})
    ensures Inv(Left(w, p, left), d, dirty) && DriftBut(a, Left(w, p, left), {p}) && SourceDrift(a, Left(w, p, left))
    ensures w.late == a.late && w.pinned == a.pinned
  {
    hide TargetDrift;
    DriftThenWrite(a, w, p, left, w.pinned);
    InvParts(a, d, dirty);
    hide Inv;
    DriftKeepsInv(a, Left(w, p, left), {p}, d, dirty);
  }

  lemma DriftSelf(w: World)
    ensures Drift(w, w)
  {
  }

  /** What is spare, and empty, stays so while the world moves. */
  lemma SpareDrift(a: World, b: World, d: PartitionRow, p: Prefix)
    requires Drift(a, b) && Unneeded(a, d, {p}) && At(a, p) == NO_OBJECTS && p !in a.late
    ensures Unneeded(b, d, {p}) && At(b, p) == NO_OBJECTS && p !in b.late
    ensures b.late == a.late && b.pinned == a.pinned && DriftBut(a, b, {p})
  {
  }

  lemma DriftThenBut(a: World, b: World, c: World, p: Prefix)
    requires Drift(a, b) && DriftBut(b, c, {p}) && c == b.(store := c.store, pinned := c.pinned)
    ensures DriftBut(a, c, {p}) && SourceDrift(a, c)
  {
    SourceDriftTransitive(a, b, c);
  }

  lemma SubmittedKind(kind: Kind, w: World, p: Prefix, empty: bool)
    ensures Site.Submitted(kind, w, p, empty).Append? <==> kind == AppendKind
  {
  }

  lemma LaunchedRows(w: World, x: Statement)
    ensures Launched(w, x).target.rows == w.target.rows
  {
  }

  /** Drawing a prefix and pinning others touch nothing the invariant is about. */
  lemma ForgetfulKeeps(since: World, snap: World, w: World, d: PartitionRow, dirty: bool, drawn: set<Prefix>, pinned: set<Prefix>)
    requires Inv(w, d, dirty) && SourceDrift(since, w) && SourceDrift(snap, w) && forall p | p in drawn :: p.Full?
    ensures var c := w.(used := w.used + drawn, pinned := pinned);
            Inv(c, d, dirty) && SourceDrift(since, c) && SourceDrift(snap, c)
  {
  }

  /** Writing under a delta's own prefix. */
  lemma PrefixKeeps(a: World, w: World, d: PartitionRow, dirty: bool, p: Prefix, left: Batch)
    requires Drift(a, w) && Inv(a, d, dirty) && Unneeded(a, d, {p})
    ensures var c := w.(store := w.store[p := left]);
            && Inv(c, d, dirty) && DriftBut(a, c, {p}) && SourceDrift(a, c) && Unneeded(c, d, {p})
            && c.late == a.late && c.pinned == a.pinned
  {
    hide TargetDrift;
    DriftThenWrite(a, w, p, left, w.pinned);
    InvParts(a, d, dirty);
    hide Inv;
    DriftKeepsInv(a, w.(store := w.store[p := left]), {p}, d, dirty);
  }

  lemma InvCreates(w: World, d: PartitionRow, dirty: bool)
    requires Inv(w, d, dirty)
    ensures CreateIntoAbsent(w.target)
  {
  }

  lemma DriftParts(a: World, b: World)
    requires Drift(a, b)
    ensures DriftBut(a, b, {})
  {
  }

  /** A full statement brings a version of the source, and ends the excuse of a drop. */
  lemma LaunchKeepsPast(w: World, x: Statement, initial: Option<Bag>, excused: bool)
    requires Past(w.mode, w.autoMatches, w.hist, w.target, initial, excused)
    requires if x.Append? then w.mode == TimeWindow else IsVersion(w.hist, x.rows)
    ensures Past(w.mode, w.autoMatches, w.hist, Launched(w, x).target, initial, excused && x.Append?)
  {
  }
}
