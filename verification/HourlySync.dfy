/** hourly.go: syncHourlyTable, syncHourlyWindow and finishHourly. */
module HourlySync {
  import opened Rows
  import opened HourlyZone
  import opened HourlyCheckpoint

  datatype Reply<T> = Err | Ok(value: T)

  /** NotPersisted is errStatePersistence. */
  datatype Outcome = Done | Failed | NotPersisted

  /** An INSERT that was submitted: whose objects it reads, under which label, and the row
      that was durable then. */
  datatype Insert = Insert(span: Span, generation: nat, batch: Label, rows: Bag, record: HourlyRow)

  /** Write-ahead: the durable row already said that this very window had started, from the
      objects of this generation and under this label. */
  ghost predicate Announced(x: Insert) {
    && x.record.pending.Some?
    && x.record.pending.value.importStarted && x.record.pending.value.backupReady
    && x.record.pending.value.generation == Some(x.generation) && x.record.pending.value.batch == Some(x.batch)
    && x.span == (x.record.pending.value.from, x.record.pending.value.to)
    && x.record.next == x.span.0 < x.span.1
    && x.batch == Label(x.span.0, x.span.1, x.generation)
  }

  /** At most once: the windows submitted so far lie one after the other. */
  ghost predicate Ordered(log: seq<Insert>) {
    && (forall x | x in log :: Announced(x))
    && forall j, k :: 0 <= j < k < |log| ==> log[j].span.1 <= log[k].span.0
  }

  /** All submitted windows lie before the cursor, save the started one. */
  ghost predicate Submitted(log: seq<Insert>, d: HourlyRow) {
    && Ordered(log)
    && forall x | x in log ::
         x.span.1 <= d.next || (Started(d) && x.span == (d.pending.value.from, d.pending.value.to))
  }

  /** The row names the objects of generation `g` and a label to import them under. */
  predicate Names(d: HourlyRow, g: nat) {
    d.pending.Some? && d.pending.value.generation == Some(g) && d.pending.value.batch.Some?
  }

  /** The INSERT that the row announces. */
  function InsertOf(d: HourlyRow, g: nat, rows: Bag): Insert
    requires Names(d, g)
  {
    var p := d.pending.value;
    Insert((d.next, p.to), g, p.batch.value, rows, d)
  }

  ghost predicate Started(d: HourlyRow) {
    d.pending.Some? && d.pending.value.importStarted
  }

  /** The window is the wall clock of one hour, and the clock reading that admitted it has
      a cutoff its end does not pass. */
  ghost predicate Eligible(z: Zone, span: Span, now: int) {
    exists t :: z.format(t) == span.0 && z.format(t + HOUR) == span.1 && t + HOUR <= Cutoff(z, now)
  }

  /** In-memory entry of one run of the loop. */
  class HourlyEntry {
    var next: int
    var pending: Option<Pending>

    function Row(): HourlyRow
      reads this
    {
      HourlyRow(next, pending)
    }

    constructor (d: HourlyRow)
      ensures Row() == d
    {
      next, pending := d.next, d.pending;
    }

    method Begin(to: int)
      modifies this
      ensures Row() == HourlyRow(old(next), Some(Pending(old(next), to, None, {}, false, false, None)))
    {
      pending := Some(Pending(next, to, None, {}, false, false, None));
    }

    method Choose(g: nat)
      requires pending.Some?
      modifies this
      ensures Row() == Chosen(old(Row()), g)
    {
      var p := pending.value;
      pending := Some(p.(generation := Some(g), objects := {}, batch := Some(Label(p.from, p.to, g))));
    }

    method Accept(names: set<string>)
      requires pending.Some?
      modifies this
      ensures Row() == Accepted(old(Row()), names)
    {
      pending := Some(pending.value.(objects := names, backupReady := true));
    }

    method Start()
      requires pending.Some?
      modifies this
      ensures Row() == ImportStarted(old(Row()))
    {
      pending := Some(pending.value.(importStarted := true));
    }

    method Advance(to: int)
      modifies this
      ensures Row() == HourlyRow(to, None)
    {
      next, pending := to, None;
    }
  }

  function Chosen(d: HourlyRow, g: nat): HourlyRow
    requires d.pending.Some?
  {
    var p := d.pending.value;
    d.(pending := Some(p.(generation := Some(g), objects := {}, batch := Some(Label(p.from, p.to, g)))))
  }

  function Accepted(d: HourlyRow, names: set<string>): HourlyRow
    requires d.pending.Some?
  {
    d.(pending := Some(d.pending.value.(objects := names, backupReady := true)))
  }

  function ImportStarted(d: HourlyRow): HourlyRow
    requires d.pending.Some?
  {
    d.(pending := Some(d.pending.value.(importStarted := true)))
  }

  /** A pending window is the one that the cursor and the zone give. */
  predicate Fits(z: Zone, d: HourlyRow) {
    d.pending.Some? ==> WindowEnd(z, d.next) == Some(d.pending.value.to)
  }

  class HourlySite {
    const zone: Zone
    const start: int                      // the recorded first window
    var w: World
    var disk: Option<HourlyRow>
    ghost var log: seq<Insert>
    ghost var windows: seq<Span>          // windows finished so far
    ghost var clocks: seq<int>            // the clock reading that admitted each of them
    ghost var now: int                    // the last clock reading
    ghost var faults: nat                 // foreign calls that failed, or lost what they were asked for
    const limit: int                      // no clock reading exceeds this

    /** The row a load would give. */
    function Row(): HourlyRow
      reads this
    {
      if disk.Some? then disk.value else HourlyRow(start, None)
    }

    ghost predicate Valid()
      reads this
    {
      && ZoneValid(zone)
      && Inv(w, Row(), start)
      && Submitted(log, Row())
      && Fits(zone, Row())
      && Tiles(windows, start, Row().next)
      && |clocks| == |windows|
      && (forall k :: 0 <= k < |windows| ==> Eligible(zone, windows[k], clocks[k]))
    }

    /** A new task. What the target already holds is not counted as loaded. */
    constructor (zone: Zone, start: int, source: Bag, limit: int)
      requires ZoneValid(zone)
      ensures Valid() && disk.None? && log == [] && windows == [] && faults == 0
      ensures this.zone == zone && this.start == start && w.source == source && this.limit == limit
    {
      this.zone, this.start, this.limit := zone, start, limit;
      w := World(source, start, map[], {}, {}, {}, multiset{}, None);
      disk, log, windows, clocks, now, faults := None, [], [], [], 0, 0;
      new;
      EmptyWindow(source, start);
    }

    method Interfere()
      requires Valid()
      modifies this`w
      ensures Valid() && Drift(old(w), w)
    {
      var next: World := *;
      if Drift(w, next) {
        DriftKeepsInv(w, next, Row(), start);
        w := next;
      }
    }

    /** time.Now(). */
    method Clock() returns (t: int)
      modifies this`now
      ensures t <= limit && now == t
    {
      t := *;
      if t > limit { t := limit; }
      now := t;
    }

    /** Any other foreign call on the way, or the check whether the service is cancelled. */
    method Call() returns (ok: bool)
      modifies this`faults
      ensures faults == old(faults) + if ok then 0 else 1
    {
      ok := *;
      if !ok { faults := faults + 1; }
    }

    /** saveHourly: one upsert, which may fail before or after committing. */
    method Save(entry: HourlyEntry) returns (ok: bool)
      requires Valid() && Inv(w, entry.Row(), start) && Submitted(log, entry.Row()) && entry.next == Row().next
      requires Fits(zone, entry.Row())
      modifies this`w, this`faults, this`disk
      ensures Valid() && Drift(old(w), w)
      ensures disk == Some(entry.Row()) || (!ok && disk == old(disk))
      ensures faults == old(faults) + if ok then 0 else 1
    {
      hide Inv, Submitted, Tiles, Eligible, HourlyCheckpoint.Drift, ZoneValid, Fits;
      Interfere();
      DriftKeepsInv(old(w), w, entry.Row(), start);
      ok := Call();
      var committed: bool := *;
      if !ok && !committed { return; }
      disk := Some(entry.Row());
    }

    /** saveCompletedHourly: the row moves past the window, in one transaction. */
    method SaveCompleted(entry: HourlyEntry, to: int) returns (ok: bool)
      requires Valid() && entry.Row() == HourlyRow(to, None) && Row().next < to
      requires Inv(w, HourlyRow(to, None), start) && Submitted(log, HourlyRow(to, None))
      requires Eligible(zone, (Row().next, to), now)
      modifies this`w, this`faults, this`disk, this`windows, this`clocks
      ensures Valid() && Drift(old(w), w)
      ensures if disk == Some(HourlyRow(to, None)) then windows == old(windows) + [(old(Row()).next, to)]
              else !ok && disk == old(disk) && windows == old(windows)
      ensures clocks == if disk == old(disk) then old(clocks) else old(clocks) + [now]
      ensures faults == old(faults) + if ok then 0 else 1
    {
      hide Inv, Submitted, Tiles, Eligible, HourlyCheckpoint.Drift, ZoneValid;
      Interfere();
      DriftKeepsInv(old(w), w, HourlyRow(to, None), start);
      ok := Call();
      var committed: bool := *;
      if !ok && !committed { return; }
      TilesExtend(windows, start, Row().next, to);
      windows := windows + [(Row().next, to)];
      clocks := clocks + [now];
      disk := Some(entry.Row());
    }

    /** The rows of an eligible window no longer change. */
    method Settle(to: int)
      requires Valid()
      modifies this`w
      ensures Valid() && w.settled >= to && w == old(w).(settled := w.settled)
    {
      if to > w.settled {
        SettleKeepsInv(w, Row(), start, to);
        w := w.(settled := to);
      }
    }

    /** SELECT 1 ... WHERE in the window LIMIT 1: is there a row? */
    method Probe(from: int, to: int) returns (r: Reply<bool>)
      requires Valid()
      modifies this`w, this`faults
      ensures Valid() && Drift(old(w), w)
      ensures r.Ok? ==> (r.value <==> Window(w.source, from, to) != multiset{})
      ensures faults == old(faults) + if r.Ok? then 0 else 1
    {
      Interfere();
      var ok := Call();
      if !ok { return Err; }
      r := Ok(exists r | r in w.source :: from <= r.time < to);
      ProbeFinds(w.source, from, to);
    }

    /** A random generation, fresh or failing; it is now the only prefix of interest. */
    method NewGeneration() returns (r: Reply<nat>)
      requires Valid()
      modifies this`w, this`faults
      ensures Valid() && faults == old(faults) + if r.Ok? then 0 else 1
      ensures r.Ok? ==> r.value !in old(w).used && w == old(w).(used := old(w).used + {r.value}, pinned := {r.value})
      ensures r.Err? ==> w == old(w)
    {
      var g: nat := *;
      hide Inv, Submitted, Tiles, Eligible, ZoneValid;
      if g in w.used {
        faults := faults + 1;
        return Err;
      }
      DrawKeepsInv(w, Row(), start, g);
      w := w.(used := w.used + {g}, pinned := {g});
      return Ok(g);
    }

    /** What an OUTFILE leaves under a generation: the whole batch, unless it is no file; or
        anything, now or later, if it failed. */
    method Write(g: nat, batch: Batch, whole: bool)
      requires Valid() && g in w.used && (Row().pending.Some? ==> !Row().pending.value.backupReady)
      modifies this`w, this`faults
      ensures Valid()
      ensures w == if !whole then old(w).(store := old(w).store[g := batch], late := old(w).late + {g})
                   else if batch.files != {} then old(w).(store := old(w).store[g := batch]) else old(w)
      ensures faults == old(faults) + if !whole || (batch.files == {} && batch.rows != multiset{}) then 1 else 0
    {
      hide Inv, Submitted, Tiles, Eligible, ZoneValid, Fits, HourlyCheckpoint.Drift;
      WriteKeepsInv(w, Row(), start, g, batch);
      if !whole {
        w, faults := w.(store := w.store[g := batch], late := w.late + {g}), faults + 1;
      } else if batch.files != {} {
        w := w.(store := w.store[g := batch]);
      } else if batch.rows != multiset{} {
        faults := faults + 1;
      }
    }

    /** OUTFILE of the window under a fresh generation: all of its rows or no file. A
        failed attempt may still write there at any later time. */
    method Outfile(g: nat, from: int, to: int) returns (ok: bool)
      requires Valid() && g in w.used && g !in w.store && g !in w.late && g in w.pinned
      requires Row().pending.Some? ==> !Row().pending.value.backupReady
      modifies this`w, this`faults
      ensures Valid() && w.settled == old(w).settled && w.used == old(w).used && w.pinned == old(w).pinned
      ensures to <= w.settled ==> Window(w.source, from, to) == Window(old(w).source, from, to)
      ensures ok ==> Exported(w, g, from, to)
      ensures faults >= old(faults) && (!ok ==> faults > old(faults))
      ensures ok && At(w, g).files == {} && Window(w.source, from, to) != multiset{} ==> faults > old(faults)
    {
      hide Inv, Submitted, Tiles, Eligible, ZoneValid, Fits, HourlyCheckpoint.Drift, Valid;
      Interfere();
      WindowStays(old(w), w, from, to);
      FreshDrift(old(w), w, g);
      var rows: Bag := *;
      var names: set<string> := *;
      ok := *;
      ok := ok && IsWindow(w.source, from, to, rows);
      Write(g, Batch(names, rows), ok);
    }

    method List(g: nat) returns (r: Reply<set<string>>)
      requires Valid()
      modifies this`w, this`faults
      ensures Valid() && Drift(old(w), w) && faults == old(faults) + if r.Ok? then 0 else 1
      ensures r.Ok? ==> r.value == At(w, g).files
    {
      Interfere();
      var ok := Call();
      if !ok { return Err; }
      return Ok(At(w, g).files);
    }

    /** Nothing removes the objects of `g` until the INSERT has read them. */
    method Pin(g: nat)
      requires Valid()
      modifies this`w
      ensures Valid() && w == old(w).(pinned := {g})
    {
      w := w.(pinned := {g});
    }

    /** The labelled INSERT. On failure it may have committed, or commit later, or never. */
    method Import(g: nat) returns (ok: bool)
      requires Valid() && disk.Some? && Started(Row()) && Names(Row(), g) && w.inflight.None?
      requires Loaded(w, start, Row().next) && At(w, g).rows == Window(w.source, Row().next, Row().pending.value.to)
      requires forall x | x in log :: x.span.1 <= Row().next
      modifies this`w, this`faults, this`log
      ensures Valid()
      ensures log == old(log) + [InsertOf(Row(), g, At(old(w), g).rows)]
      ensures ok ==> w.inflight.None? && Loaded(w, start, Row().pending.value.to)
      ensures w.settled == old(w.settled) && faults == old(faults) + if ok then 0 else 1
    {
      hide Inv, Submitted, Tiles, Eligible, ZoneValid, HourlyCheckpoint.Drift, ExactlyOnce, Loaded;
      var rows := At(w, g).rows;
      LaunchKeepsInv(w, Row(), start);
      SubmittedExtend(log, w, Row(), start, g, rows);
      log := log + [InsertOf(Row(), g, rows)];
      ok := Call();
      if ok {
        w := w.(inflight := None, loaded := w.loaded + rows);
        ghost var committed := w;
        Interfere();
        LoadedStays(committed, w, Row(), start);
        return;
      }
      w := w.(inflight := Some(rows));
      ghost var launched := w;
      Interfere();
      SettledStays(launched, w);
    }
  }

  /** Writing under a generation no ready backup uses. */
  lemma WriteKeepsInv(w: World, d: HourlyRow, start: int, g: nat, batch: Batch)
    requires Inv(w, d, start) && g in w.used && (d.pending.Some? ==> !d.pending.value.backupReady)
    ensures Inv(w.(store := w.store[g := batch]), d, start)
    ensures Inv(w.(store := w.store[g := batch], late := w.late + {g}), d, start)
  {
  }

  /** The INSERT of the started window, in flight or committed. */
  lemma LaunchKeepsInv(w: World, d: HourlyRow, start: int)
    requires Inv(w, d, start) && Started(d) && w.inflight.None? && Loaded(w, start, d.next)
    ensures var rows := Window(w.source, d.next, d.pending.value.to);
            && Inv(w.(inflight := Some(rows)), d, start)
            && Inv(w.(inflight := None, loaded := w.loaded + rows), d, start)
            && Loaded(w.(inflight := None, loaded := w.loaded + rows), start, d.pending.value.to)
  {
    WindowsJoin(w.source, start, d.next, d.pending.value.to);
  }

  lemma SubmittedExtend(log: seq<Insert>, w: World, d: HourlyRow, start: int, g: nat, rows: Bag)
    requires Inv(w, d, start) && Started(d) && Names(d, g) && Submitted(log, d)
    requires forall x | x in log :: x.span.1 <= d.next
    ensures Submitted(log + [InsertOf(d, g, rows)], d)
  {
  }

  lemma SettledStays(a: World, b: World)
    requires Drift(a, b)
    ensures b.settled == a.settled
  {
  }

  lemma LoadedStays(a: World, b: World, d: HourlyRow, start: int)
    requires Drift(a, b) && Inv(a, d, start) && Started(d) && a.inflight.None? && Loaded(a, start, d.pending.value.to)
    ensures b.inflight.None? && Loaded(b, start, d.pending.value.to) && b.settled == a.settled
  {
    SettledWindow(a, b, start, d.pending.value.to);
  }

  lemma WindowStays(a: World, b: World, from: int, to: int)
    requires Drift(a, b)
    ensures to <= a.settled ==> Window(b.source, from, to) == Window(a.source, from, to)
  {
    if to <= a.settled { SettledWindow(a, b, from, to); }
  }

  ghost predicate Exported(w: World, g: nat, from: int, to: int) {
    g !in w.late && (At(w, g) == NO_OBJECTS || (At(w, g).files != {} && At(w, g).rows == Window(w.source, from, to)))
  }

  lemma ProbeFinds(c: Bag, from: int, to: int)
    ensures (exists r | r in c :: from <= r.time < to) <==> Window(c, from, to) != multiset{}
  {
  }

  lemma SettleKeepsInv(w: World, d: HourlyRow, start: int, to: int)
    requires Inv(w, d, start) && to > w.settled
    ensures Inv(w.(settled := to), d, start)
  {
  }

  lemma DrawKeepsInv(w: World, d: HourlyRow, start: int, g: nat)
    requires Inv(w, d, start)
    ensures Inv(w.(used := w.used + {g}, pinned := {g}), d, start)
  {
  }

  // ---------- What each save leaves on disk keeps the invariant ----------

  lemma BegunKeepsInv(w: World, d: HourlyRow, start: int, to: int, log: seq<Insert>)
    requires Inv(w, d, start) && d.pending.None? && d.next < to && Submitted(log, d)
    ensures Inv(w, HourlyRow(d.next, Some(Pending(d.next, to, None, {}, false, false, None))), start)
    ensures Submitted(log, HourlyRow(d.next, Some(Pending(d.next, to, None, {}, false, false, None))))
  {
  }

  lemma ChosenKeepsInv(w: World, d: HourlyRow, start: int, g: nat, log: seq<Insert>)
    requires Inv(w, d, start) && d.pending.Some? && !d.pending.value.backupReady && Submitted(log, d)
    ensures Inv(w, Chosen(d, g), start) && Submitted(log, Chosen(d, g))
  {
  }

  lemma AcceptedKeepsInv(w: World, d: HourlyRow, start: int, names: set<string>, log: seq<Insert>)
    requires Inv(w, d, start) && d.pending.Some? && !d.pending.value.backupReady && Submitted(log, d)
    requires BackupSound(w, Accepted(d, names).pending.value)
    ensures Inv(w, Accepted(d, names), start) && Submitted(log, Accepted(d, names))
  {
  }

  lemma StartedKeepsInv(w: World, d: HourlyRow, start: int, log: seq<Insert>)
    requires Inv(w, d, start) && d.pending.Some? && d.pending.value.backupReady && !Started(d) && Submitted(log, d)
    ensures Inv(w, ImportStarted(d), start) && Submitted(log, ImportStarted(d))
    ensures w.inflight.None? && Loaded(w, start, d.next)
  {
  }

  /** The cursor may pass a window whose rows have been loaded, or that has none. */
  lemma FinishedKeepsInv(w: World, d: HourlyRow, start: int, log: seq<Insert>)
    requires Inv(w, d, start) && d.pending.Some? && Submitted(log, d) && d.pending.value.to <= w.settled
    requires w.inflight.None?
    requires Loaded(w, start, d.pending.value.to)
             || (!Started(d) && Window(w.source, d.next, d.pending.value.to) == multiset{})
    ensures Inv(w, HourlyRow(d.pending.value.to, None), start)
    ensures Submitted(log, HourlyRow(d.pending.value.to, None))
  {
  }

  lemma NotStarted(w: World, d: HourlyRow, start: int)
    requires Inv(w, d, start) && !Started(d)
    ensures w.inflight.None? && Loaded(w, start, d.next)
  {
  }

  // ---------- The protocol ----------

  /** Memory and disk agree on a pending window that a clock reading admitted. */
  ghost predicate InWindow(s: HourlySite, e: HourlyEntry)
    reads s, e
  {
    && s.Valid() && s.disk == Some(e.Row()) && e.pending.Some?
    && e.next == e.pending.value.from < e.pending.value.to <= s.w.settled
    && Eligible(s.zone, (e.next, e.pending.value.to), s.now)
  }

  /** finishHourly: the entry moves past the window only after the row has. */
  method FinishHourly(s: HourlySite, e: HourlyEntry) returns (r: Outcome)
    requires InWindow(s, e) && s.w.inflight.None?
    requires Loaded(s.w, s.start, e.pending.value.to)
             || (!Started(e.Row()) && Window(s.w.source, e.next, e.pending.value.to) == multiset{})
    modifies s`w, s`faults, s`disk, s`windows, s`clocks, e
    ensures s.Valid() && s.w.settled == old(s.w.settled)
    ensures r == Done || r == NotPersisted
    ensures s.faults == old(s.faults) + if r == Done then 0 else 1
    ensures r == Done ==> s.disk == Some(e.Row()) && e.Row() == HourlyRow(old(e.pending.value.to), None)
    ensures if s.disk == Some(HourlyRow(old(e.pending.value.to), None))
            then s.windows == old(s.windows) + [(old(e.next), old(e.pending.value.to))] && s.clocks == old(s.clocks) + [s.now]
            else s.disk == old(s.disk) && s.windows == old(s.windows) && s.clocks == old(s.clocks)
  {
    hide Inv, Submitted, Tiles, Eligible, ZoneValid, ExactlyOnce, Loaded;
    FinishedKeepsInv(s.w, s.Row(), s.start, s.log);
    var to := e.pending.value.to;
    var completed := new HourlyEntry(HourlyRow(to, None));
    var saved := s.SaveCompleted(completed, to);
    if !saved { return NotPersisted; }
    e.Advance(to);
    return Done;
  }

  datatype Backup = Ready | Empty | NotReady | Unsaved

  /** A generation under which nothing was written yet, and nothing late will be. */
  ghost predicate Fresh(w: World, g: nat) {
    g in w.used && g !in w.store && g !in w.late && g in w.pinned
  }

  lemma FreshDrift(a: World, b: World, g: nat)
    requires Drift(a, b) && Fresh(a, g)
    ensures Fresh(b, g) && b.settled == a.settled && b.used == a.used && b.pinned == a.pinned
  {
  }

  /** A fresh generation and its label, recorded before anything is written under it. */
  method ChooseGeneration(s: HourlySite, e: HourlyEntry) returns (g: Reply<nat>, persisted: bool)
    requires InWindow(s, e) && !e.pending.value.backupReady && !Started(e.Row())
    modifies s`w, s`faults, s`disk, e
    ensures s.Valid() && s.w.settled == old(s.w.settled)
    ensures s.faults == old(s.faults) + if g.Ok? then 0 else 1
    ensures g.Ok? ==> persisted && InWindow(s, e) && Fresh(s.w, g.value) && e.Row() == Chosen(old(e.Row()), g.value)
    ensures s.disk.Some? && s.disk.value.pending.Some? && !Started(s.disk.value) && s.disk.value.next == old(e.next)
  {
    hide Inv, Submitted, Tiles, Eligible, ZoneValid, ExactlyOnce, Loaded, HourlyCheckpoint.Drift;
    PendingParts(s.w, s.Row(), s.start);
    g := s.NewGeneration();
    if g.Err? { return g, true; }
    ghost var drawn := s.w;
    ChosenKeepsInv(s.w, s.Row(), s.start, g.value, s.log);
    e.Choose(g.value);
    persisted := s.Save(e);
    FreshDrift(drawn, s.w, g.value);
    if !persisted { g := Err; }
  }

  /** The backup half of syncHourlyWindow: probe, export under a fresh generation, list. */
  method BackUpWindow(s: HourlySite, e: HourlyEntry) returns (r: Backup)
    requires InWindow(s, e) && !e.pending.value.backupReady && !Started(e.Row())
    modifies s`w, s`faults, s`disk, e
    ensures s.Valid() && s.w.settled == old(s.w.settled)
    ensures r == Ready || r == Empty ==> InWindow(s, e) && !Started(e.Row())
                                         && e.next == old(e.next) && e.pending.value.to == old(e.pending.value.to)
    ensures r == Ready ==> e.pending.value.backupReady
    ensures r == Empty ==> Window(s.w.source, e.next, e.pending.value.to) == multiset{}
    ensures s.faults >= old(s.faults) && (r == NotReady || r == Unsaved ==> s.faults > old(s.faults))
    ensures s.disk.Some? && s.disk.value.pending.Some? && !Started(s.disk.value) && s.disk.value.next == old(e.next)
  {
    hide Inv, Submitted, Tiles, Eligible, ZoneValid, ExactlyOnce, Loaded, HourlyCheckpoint.Drift, Fresh;
    var from, to := e.next, e.pending.value.to;
    var g, persisted := ChooseGeneration(s, e);
    if !persisted { return Unsaved; }
    if g.Err? { return NotReady; }
    ghost var chosen := s.w;
    var rows := s.Probe(from, to);
    FreshDrift(chosen, s.w, g.value);
    if rows.Err? { return NotReady; }
    if !rows.value { return Empty; }
    r := ExportWindow(s, e, g.value);
  }

  lemma PendingParts(w: World, d: HourlyRow, start: int)
    requires Inv(w, d, start) && d.pending.Some?
    ensures d.pending.value.importStarted ==> d.pending.value.backupReady
    ensures w.store.Keys <= w.used && w.late <= w.used && BackupSound(w, d.pending.value)
  {
  }

  method ExportWindow(s: HourlySite, e: HourlyEntry, g: nat) returns (r: Backup)
    requires InWindow(s, e) && !e.pending.value.backupReady && !Started(e.Row())
    requires e.pending.value.generation == Some(g) && e.pending.value.batch.Some?
    requires Fresh(s.w, g) && Window(s.w.source, e.next, e.pending.value.to) != multiset{}
    modifies s`w, s`faults, s`disk, e
    ensures s.Valid() && s.w.settled == old(s.w.settled)
    ensures r == Ready || r == NotReady || r == Unsaved
    ensures s.faults >= old(s.faults) && (r != Ready ==> s.faults > old(s.faults))
    ensures r == Ready ==> InWindow(s, e) && e.next == old(e.next) && e.pending.value.to == old(e.pending.value.to)
                           && e.pending.value.backupReady && !Started(e.Row())
    ensures s.disk.Some? && s.disk.value.pending.Some? && !Started(s.disk.value) && s.disk.value.next == old(e.next)
  {
    hide Inv, Submitted, Tiles, Eligible, ZoneValid, ExactlyOnce, Loaded, HourlyCheckpoint.Drift, Exported, Fits, Started;
    var from, to := e.next, e.pending.value.to;
    var exported := s.Outfile(g, from, to);
    if !exported { return NotReady; }
    ghost var written := s.w;
    var names := s.List(g);
    ListedDrift(written, s.w, g, from, to);
    if names.Err? || names.value == {} { return NotReady; }
    r := AcceptWindow(s, e, g, names.value);
  }

  method AcceptWindow(s: HourlySite, e: HourlyEntry, g: nat, names: set<string>) returns (r: Backup)
    requires InWindow(s, e) && !e.pending.value.backupReady && !Started(e.Row())
    requires e.pending.value.generation == Some(g) && e.pending.value.batch.Some? && g in s.w.used
    requires names != {} && names == At(s.w, g).files && Exported(s.w, g, e.next, e.pending.value.to)
    modifies s`w, s`faults, s`disk, e
    ensures s.Valid() && s.w.settled == old(s.w.settled)
    ensures r == Ready || r == Unsaved
    ensures s.faults == old(s.faults) + if r == Ready then 0 else 1
    ensures r == Ready ==> InWindow(s, e) && e.next == old(e.next) && e.pending.value.to == old(e.pending.value.to)
                           && e.pending.value.backupReady && !Started(e.Row())
    ensures s.disk.Some? && s.disk.value.pending.Some? && !Started(s.disk.value) && s.disk.value.next == old(e.next)
  {
    hide Inv, Submitted, Tiles, Eligible, ZoneValid, ExactlyOnce, Loaded;
    AcceptedKeepsInv(s.w, s.Row(), s.start, names, s.log);
    e.Accept(names);
    var saved := s.Save(e);
    r := if saved then Ready else Unsaved;
  }

  lemma ListedDrift(a: World, b: World, g: nat, from: int, to: int)
    requires Drift(a, b) && g in a.pinned && Exported(a, g, from, to) && to <= a.settled
    ensures Exported(b, g, from, to) && b.settled == a.settled && At(b, g) == At(a, g)
  {
    SettledWindow(a, b, from, to);
  }

  /** Why a window is refused: an earlier process had started it in the row `before`, or its
      files are not what the row `now` records. */
  ghost predicate Refused(w: World, before: HourlyRow, now: HourlyRow) {
    Started(before) || (!Started(now) && Lost(w, now))
  }

  predicate Incomplete(d: HourlyRow) {
    d.pending.Some? && d.pending.value.backupReady
    && (d.pending.value.generation.None? || d.pending.value.batch.None? || d.pending.value.objects == {})
  }

  predicate Lost(w: World, d: HourlyRow) {
    d.pending.Some? && d.pending.value.backupReady && d.pending.value.generation.Some?
    && At(w, d.pending.value.generation.value).files != d.pending.value.objects
  }

  /** No reachable record of a ready backup is incomplete. */
  lemma NeverIncomplete(w: World, d: HourlyRow, start: int)
    requires Inv(w, d, start)
    ensures !Incomplete(d)
  {
  }

  /** Before the import: the files are all there, and no earlier process may have
      started this very import. */
  method CheckWindow(s: HourlySite, e: HourlyEntry) returns (ok: bool)
    requires InWindow(s, e) && e.pending.value.backupReady
    modifies s`w, s`faults
    ensures InWindow(s, e) && s.w.settled == old(s.w.settled) && s.faults >= old(s.faults)
    ensures !ok ==> s.faults > old(s.faults) || Refused(s.w, e.Row(), e.Row())
    ensures ok ==> !Started(e.Row()) && e.pending.value.generation.Some? && e.pending.value.batch.Some?
                   && e.pending.value.generation.value in s.w.pinned && e.pending.value.generation.value !in s.w.late
                   && At(s.w, e.pending.value.generation.value).rows == Window(s.w.source, e.next, e.pending.value.to)
  {
    hide Inv, Submitted, Tiles, Eligible, ZoneValid, ExactlyOnce, Loaded;
    var p := e.pending.value;
    NeverIncomplete(s.w, s.Row(), s.start);
    if p.generation.None? || p.batch.None? || p.objects == {} { return false; }
    var actual := s.List(p.generation.value);
    PendingParts(s.w, s.Row(), s.start);
    if actual.Err? || actual.value != p.objects || p.importStarted { return false; }
    s.Pin(p.generation.value);
    return true;
  }

  /** A started window whose INSERT has not been submitted yet. */
  ghost predicate Marked(s: HourlySite, e: HourlyEntry, g: nat)
    reads s, e
  {
    && InWindow(s, e) && Started(e.Row()) && Names(e.Row(), g) && s.w.inflight.None? && Loaded(s.w, s.start, e.next)
    && At(s.w, g).rows == Window(s.w.source, e.next, e.pending.value.to)
    && forall x | x in s.log :: x.span.1 <= e.next
  }

  /** Mark the import as started, durably, before anything is submitted. */
  method MarkWindow(s: HourlySite, e: HourlyEntry, g: nat) returns (persisted: bool)
    requires InWindow(s, e) && e.pending.value.backupReady && !Started(e.Row())
    requires Names(e.Row(), g) && g in s.w.pinned && g !in s.w.late
    requires At(s.w, g).rows == Window(s.w.source, e.next, e.pending.value.to)
    modifies s`w, s`faults, s`disk, e
    ensures s.Valid() && s.w.settled == old(s.w.settled)
    ensures s.faults == old(s.faults) + if persisted then 0 else 1
    ensures persisted ==> Marked(s, e, g) && e.next == old(e.next) && e.pending.value.to == old(e.pending.value.to)
    ensures s.disk.Some? && s.disk.value.next == old(e.next)
  {
    hide Inv, Submitted, Tiles, Eligible, ZoneValid, ExactlyOnce, Loaded, HourlyCheckpoint.Drift;
    StartedKeepsInv(s.w, s.Row(), s.start, s.log);
    LogBefore(s.log, s.Row());
    e.Start();
    persisted := s.Save(e);
    ReadyDrift(old(s.w), s.w, old(e.Row()), s.start, g);
  }

  /** The import half of syncHourlyWindow: mark, then submit once. */
  method ImportWindow(s: HourlySite, e: HourlyEntry) returns (r: Outcome)
    requires InWindow(s, e) && e.pending.value.backupReady
    modifies s`w, s`faults, s`disk, s`log, e
    ensures s.Valid() && s.w.settled == old(s.w.settled)
    ensures r == Done ==> InWindow(s, e) && Started(e.Row()) && s.w.inflight.None?
                          && e.next == old(e.next) && e.pending.value.to == old(e.pending.value.to)
                          && Loaded(s.w, s.start, e.pending.value.to)
    ensures InsertedOnce(old(s.log), s.log, (old(e.next), old(e.pending.value.to)))
    ensures Started(old(e.Row())) ==> r == Failed && s.disk == old(s.disk) && s.log == old(s.log)
    ensures r == Done ==> s.log != old(s.log)
    ensures s.faults >= old(s.faults) && (r != Done ==> s.faults > old(s.faults) || Refused(s.w, old(e.Row()), s.Row()))
    ensures s.disk.Some? && s.disk.value.next == old(e.next)
  {
    hide Inv, Submitted, Tiles, Eligible, ZoneValid, ExactlyOnce, Loaded, HourlyCheckpoint.Drift, InsertedOnce;
    ghost var span := (e.next, e.pending.value.to);
    NoneInserted(s.log, span);
    var ok := CheckWindow(s, e);
    if !ok { return Failed; }
    var g := e.pending.value.generation.value;
    var persisted := MarkWindow(s, e, g);
    if !persisted { return NotPersisted; }
    ghost var before := s.log;
    var ran := s.Import(g);
    OneInserted(before, s.log[|before|]);
    r := if ran then Done else Failed;
  }

  /** At most one INSERT was submitted, and it is for this window. */
  ghost predicate InsertedOnce(before: seq<Insert>, after: seq<Insert>, span: Span) {
    after == before || exists x: Insert :: after == before + [x] && x.span == span
  }

  lemma NoneInserted(log: seq<Insert>, span: Span)
    ensures InsertedOnce(log, log, span)
  {
  }

  lemma OneInserted(log: seq<Insert>, x: Insert)
    ensures InsertedOnce(log, log + [x], x.span)
  {
  }

  lemma LogBefore(log: seq<Insert>, d: HourlyRow)
    requires Submitted(log, d) && !Started(d)
    ensures forall x | x in log :: x.span.1 <= d.next
  {
  }

  lemma ReadyDrift(a: World, b: World, d: HourlyRow, start: int, g: nat)
    requires Drift(a, b) && Inv(a, d, start) && d.pending.Some? && !Started(d) && d.pending.value.to <= a.settled
    requires g in a.pinned && g !in a.late
    requires At(a, g).rows == Window(a.source, d.next, d.pending.value.to)
    ensures b.inflight.None? && Loaded(b, start, d.next) && b.settled == a.settled
    ensures At(b, g).rows == Window(b.source, d.next, d.pending.value.to)
  {
    DriftKeepsInv(a, b, d, start);
    SettledWindow(a, b, d.next, d.pending.value.to);
  }

  /** A fresh pending window, saved before anything is exported. */
  method BeginWindow(s: HourlySite, e: HourlyEntry, to: int) returns (persisted: bool)
    requires s.Valid() && s.disk == Some(e.Row()) && e.next < to && e.pending.None? && WindowEnd(s.zone, e.next) == Some(to)
    modifies s`w, s`faults, s`disk, e
    ensures s.Valid() && s.w.settled == old(s.w.settled)
    ensures persisted ==> s.disk == Some(e.Row())
    ensures e.Row() == HourlyRow(old(e.next), Some(Pending(old(e.next), to, None, {}, false, false, None)))
    ensures s.disk == Some(e.Row()) || s.disk == old(s.disk)
    ensures s.faults == old(s.faults) + if persisted then 0 else 1
  {
    hide Inv, Submitted, Tiles, Eligible, ZoneValid, ExactlyOnce, Loaded, HourlyCheckpoint.Drift;
    BegunKeepsInv(s.w, s.Row(), s.start, to, s.log);
    e.Begin(to);
    persisted := s.Save(e);
    SettledStays(old(s.w), s.w);
  }

  /** What one window leaves of the run's history, however it ends: at most one INSERT, for
      this window; and the window is recorded exactly if the cursor moved past it. */
  ghost predicate OneWindow(s: HourlySite, span: Span, log: seq<Insert>, windows: seq<Span>, clocks: seq<int>)
    reads s
  {
    && InsertedOnce(log, s.log, span)
    && (|| (s.windows == windows && s.clocks == clocks && s.Row().next == span.0)
        || (s.windows == windows + [span] && s.clocks == clocks + [s.now] && s.Row() == HourlyRow(span.1, None)))
  }

  /** At most one more window and one more INSERT than before. */
  lemma OneWindowExtends(s: HourlySite, span: Span, log: seq<Insert>, windows: seq<Span>, clocks: seq<int>)
    requires OneWindow(s, span, log, windows, clocks)
    ensures log <= s.log && windows <= s.windows && |s.windows| <= |windows| + 1
  {
  }

  /** syncHourlyWindow. A window whose import was started by an earlier attempt is refused
      and stays exactly as it is. */
  method SyncHourlyWindow(s: HourlySite, e: HourlyEntry, from: int, to: int) returns (r: Outcome)
    requires s.Valid() && s.disk == Some(e.Row()) && from == e.next < to <= s.w.settled && WindowEnd(s.zone, from) == Some(to)
    requires Eligible(s.zone, (from, to), s.now)
    modifies s`w, s`faults, s`disk, s`log, s`windows, s`clocks, e
    ensures s.Valid() && s.w.settled == old(s.w.settled)
    ensures OneWindow(s, (from, to), old(s.log), old(s.windows), old(s.clocks))
    ensures r == Done ==> s.disk == Some(e.Row()) && e.Row() == HourlyRow(to, None)
                          && s.windows == old(s.windows) + [(from, to)]
    ensures r == Failed ==> s.windows == old(s.windows)
    ensures s.faults >= old(s.faults)
    ensures r != Done ==> s.faults > old(s.faults) || Refused(s.w, old(e.Row()), s.Row())
    ensures Started(old(e.Row())) ==> r == Failed && s.disk == old(s.disk) && s.log == old(s.log)
  {
    hide Inv, Submitted, Tiles, Eligible, ZoneValid, ExactlyOnce, Loaded, InsertedOnce;
    SamePending(s.w, s.Row(), s.start);
    NoneInserted(s.log, (from, to));
    if e.pending.None? {
      var persisted := BeginWindow(s, e, to);
      if !persisted { return NotPersisted; }
    }
    if e.pending.value.from != from || e.pending.value.to != to { return Failed; }
    r := CompleteWindow(s, e);
  }

  lemma SamePending(w: World, d: HourlyRow, start: int)
    requires Inv(w, d, start)
    ensures d.pending.Some? ==> d.pending.value.from == d.next
    ensures Started(d) ==> d.pending.value.backupReady
  {
  }

  /** The window from its durable pending record to its end. */
  method CompleteWindow(s: HourlySite, e: HourlyEntry) returns (r: Outcome)
    requires InWindow(s, e)
    modifies s`w, s`faults, s`disk, s`log, s`windows, s`clocks, e
    ensures s.Valid() && s.w.settled == old(s.w.settled)
    ensures OneWindow(s, (old(e.next), old(e.pending.value.to)), old(s.log), old(s.windows), old(s.clocks))
    ensures r == Done ==> s.disk == Some(e.Row()) && e.Row() == HourlyRow(old(e.pending.value.to), None)
                          && s.windows == old(s.windows) + [(old(e.next), old(e.pending.value.to))]
    ensures r == Failed ==> s.windows == old(s.windows)
    ensures s.faults >= old(s.faults) && (r != Done ==> s.faults > old(s.faults) || Refused(s.w, old(e.Row()), s.Row()))
    ensures Started(old(e.Row())) ==> r == Failed && s.disk == old(s.disk) && s.log == old(s.log)
  {
    hide Inv, Submitted, Tiles, Eligible, ZoneValid, ExactlyOnce, Loaded, InsertedOnce;
    NoneInserted(s.log, (e.next, e.pending.value.to));
    SamePending(s.w, s.Row(), s.start);
    if !e.pending.value.backupReady {
      var backup := BackUpWindow(s, e);
      match backup {
        case Ready =>
        case Empty => NotStarted(s.w, s.Row(), s.start); r := FinishHourly(s, e); return;
        case NotReady => return Failed;
        case Unsaved => return NotPersisted;
      }
    }
    r := ImportWindow(s, e);
    if r == Done { r := FinishHourly(s, e); }
  }

  // ---------- The count in a fixed-offset zone ----------

  /** A window of a fixed-offset zone is exactly one hour long, and ended at least an hour
      before the clock reading that admitted it. */
  lemma EligibleIsOld(z: Zone, offset: int, span: Span, now: int)
    requires IsFixed(z, offset) && Eligible(z, span, now)
    ensures span.1 - span.0 == HOUR && (span.1 - offset) + HOUR <= now
  {
  }

  /** The count: the cursor has moved by one hour for every window completed. */
  lemma {:induction false} CountIsHours(windows: seq<Span>, start: int, next: int)
    requires Tiles(windows, start, next)
    requires forall x | x in windows :: x.1 - x.0 == HOUR
    ensures next - start == |windows| * HOUR
  {
    if windows != [] {
      assert windows[0] in windows;
      CountIsHours(windows[1..], windows[0].1, next);
    }
  }

  ghost predicate Fixed(z: Zone) {
    exists offset :: IsFixed(z, offset)
  }

  /** In a fixed-offset zone the cursor stands one hour past the start for each window
      finished so far. */
  lemma FixedCount(s: HourlySite)
    requires s.Valid()
    ensures Fixed(s.zone) ==> s.Row().next == s.start + |s.windows| * HOUR
  {
    hide Inv, Submitted, ZoneValid, Tiles, Eligible, IsFixed;
    if Fixed(s.zone) {
      var offset :| IsFixed(s.zone, offset);
      forall x | x in s.windows ensures x.1 - x.0 == HOUR {
        var k :| 0 <= k < |s.windows| && s.windows[k] == x;
        EligibleIsOld(s.zone, offset, x, s.clocks[k]);
      }
      CountIsHours(s.windows, s.start, s.Row().next);
    }
  }

  // ---------- The loop ----------

  /** The checks before the loop, and loadHourly: a table without a checkpoint gets one at
      the recorded start. */
  method LoadHourly(s: HourlySite) returns (e: HourlyEntry, r: Outcome)
    requires s.Valid()
    modifies s`w, s`faults, s`disk
    ensures s.Valid() && fresh(e) && e.Row() == s.Row() == old(s.Row())
    ensures r == Done ==> s.disk == Some(e.Row())
    ensures s.faults >= old(s.faults) && (r != Done ==> s.faults > old(s.faults))
  {
    e := new HourlyEntry(s.Row());
    var ready := s.Call();
    if !ready {
      var persisted: bool := *;
      return e, if persisted then Failed else NotPersisted;
    }
    r := Done;
    if s.disk.None? {
      var saved := s.Save(e);
      if !saved { r := NotPersisted; }
    }
  }

  /** The loop cannot go on: the stamp does not parse, or its hour is repeated. */
  predicate Stuck(z: Zone, next: int) {
    match WindowEnd(z, next)
    case None => true
    case Some(to) => to <= next
  }

  /** The loop has caught up: one more hour would pass the cutoff of the clock reading. */
  ghost predicate CaughtUp(z: Zone, next: int, now: int) {
    exists t :: z.format(t) == next && t + HOUR > Cutoff(z, now)
  }

  /** One turn of the loop: the next window, if the clock admits it. */
  method NextWindow(s: HourlySite, e: HourlyEntry) returns (r: Outcome, caughtUp: bool)
    requires s.Valid() && s.disk == Some(e.Row())
    modifies s`w, s`faults, s`disk, s`log, s`windows, s`clocks, s`now, e
    ensures s.Valid() && old(s.log) <= s.log && old(s.windows) <= s.windows && s.faults >= old(s.faults)
    ensures caughtUp ==> r == Done && CaughtUp(s.zone, s.Row().next, s.now)
    ensures caughtUp || r == Failed ==> s.windows == old(s.windows)
    ensures r == Done && !caughtUp ==> s.disk == Some(e.Row()) && e.pending.None? && |s.windows| == |old(s.windows)| + 1
    ensures r == Done && !caughtUp ==> old(e.next) < e.next < s.limit + DAY
    ensures |s.windows| <= |old(s.windows)| + 1
    ensures r != Done ==> s.faults > old(s.faults) || Stuck(s.zone, s.Row().next) || Refused(s.w, old(e.Row()), s.Row())
    ensures Started(old(e.Row())) ==> s.log == old(s.log) && s.disk == old(s.disk) && (r == Done ==> caughtUp)
  {
    hide Inv, Submitted, Tiles, Eligible, ExactlyOnce, Loaded, Started, ZoneValid, OneWindow, CaughtUp, Refused, Fits;
    caughtUp := false;
    var proceed := s.Call();
    if !proceed { return Failed, false; }
    var from := ParseHourlyStart(s.zone, e.next);
    if from.None? { return Failed, false; }
    var end := from.value + HOUR;
    if s.zone.format(end) <= s.zone.format(from.value) { return Failed, false; }
    var now := s.Clock();
    if end > Cutoff(s.zone, now) {
      StaysCaughtUp(s.zone, from.value, s.Row().next, s.now);
      return Done, true;
    }
    ZoneBound(s.zone, from.value, now);
    s.Settle(s.zone.format(end));
    ghost var log, windows, clocks := s.log, s.windows, s.clocks;
    r := SyncHourlyWindow(s, e, s.zone.format(from.value), s.zone.format(end));
    OneWindowExtends(s, (s.zone.format(from.value), s.zone.format(end)), log, windows, clocks);
  }

  /** A window that was pending by itself is not one an earlier process had started. */
  lemma RefusedSince(w: World, before: HourlyRow, mid: HourlyRow, now: HourlyRow)
    requires Refused(w, mid, now) && (mid == before || mid.pending.None?)
    ensures Refused(w, before, now)
  {
  }

  /** syncHourlyTable's loop. The count it returns is the number of windows it completed; it
      ends normally only when it has caught up; and it always does, unless a foreign call
      failed, the zone stops it, or the pending window is refused. */
  method SyncHourlyTable(s: HourlySite) returns (completed: nat, r: Outcome)
    requires s.Valid()
    modifies s`w, s`faults, s`disk, s`log, s`windows, s`clocks, s`now
    ensures s.Valid()
    ensures old(s.windows) <= s.windows && old(s.log) <= s.log
    ensures |s.windows| - |old(s.windows)| == completed || (r == NotPersisted && |s.windows| - |old(s.windows)| == completed + 1)
    ensures r == Done ==> CaughtUp(s.zone, s.Row().next, s.now)
    ensures s.faults >= old(s.faults)
    ensures r != Done ==> s.faults > old(s.faults) || Stuck(s.zone, s.Row().next) || Refused(s.w, old(s.Row()), s.Row())
    ensures Started(old(s.Row())) ==> s.log == old(s.log) && s.Row() == old(s.Row()) && completed == 0
    ensures Fixed(s.zone) ==>
              var hours := s.Row().next - old(s.Row().next);
              hours == completed * HOUR || (r == NotPersisted && hours == (completed + 1) * HOUR)
  {
    hide Inv, Submitted, Tiles, Eligible, ExactlyOnce, Loaded, Started, ZoneValid, Fixed, CaughtUp, Refused, Fits, Stuck;
    completed := 0;
    FixedCount(s);
    var e: HourlyEntry;
    e, r := LoadHourly(s);
    if r != Done { return; }
    while true
      invariant s.Valid() && s.disk == Some(e.Row()) && fresh(e) && s.faults >= old(s.faults)
      invariant old(s.windows) <= s.windows && old(s.log) <= s.log
      invariant |s.windows| - |old(s.windows)| == completed
      invariant Fixed(s.zone) ==> s.Row().next == old(s.Row().next) + completed * HOUR
      invariant Started(old(s.Row())) ==> s.log == old(s.log) && s.Row() == old(s.Row()) && completed == 0
      invariant s.Row() == old(s.Row()) || s.Row().pending.None?
      decreases s.limit + DAY - e.next
    {
      ghost var before := s.Row();
      var caughtUp;
      r, caughtUp := NextWindow(s, e);
      FixedCount(s);
      if r != Done && Refused(s.w, before, s.Row()) { RefusedSince(s.w, old(s.Row()), before, s.Row()); }
      if caughtUp || r != Done { return; }
      completed := completed + 1;
    }
  }

  lemma StaysCaughtUp(z: Zone, t: int, next: int, now: int)
    requires z.format(t) == next && t + HOUR > Cutoff(z, now)
    ensures CaughtUp(z, next, now)
  {
  }

  /** An admitted window ends within a day of the clock. */
  lemma ZoneBound(z: Zone, t: int, now: int)
    requires ZoneValid(z) && t + HOUR <= Cutoff(z, now)
    ensures z.format(t + HOUR) < now + DAY && z.format(t) < now + DAY
    ensures Eligible(z, (z.format(t), z.format(t + HOUR)), now)
  {
  }

  /** Any run of the service on one table: loops, crashes and restarts in any number and
      order. Everything the process knew is lost in between; only the row and the world remain. */
  method Run(s: HourlySite, cycles: nat)
    requires s.Valid()
    modifies s`w, s`faults, s`disk, s`log, s`windows, s`clocks, s`now
    ensures s.Valid() && old(s.log) <= s.log && old(s.windows) <= s.windows
    ensures AtMostOnce(s.log) && forall x | x in s.log :: Announced(x)
    ensures ExactlyOnce(s.w, s.Row(), s.start)
    ensures Tiles(s.windows, s.start, s.Row().next)
    ensures Started(old(s.Row())) ==> s.log == old(s.log) && s.Row() == old(s.Row())
    ensures cycles > 0 ==> s.faults > old(s.faults) || Rested(s)
  {
    hide Submitted, Tiles, Eligible, Loaded, ZoneValid, ExactlyOnce, Started, HourlyCheckpoint.Drift, AtMostOnce, Rested,
      CaughtUp, Stuck, Refused, Fits;
    var k := 0;
    while k < cycles
      invariant s.Valid() && old(s.log) <= s.log && old(s.windows) <= s.windows
      invariant Started(old(s.Row())) ==> s.log == old(s.log) && s.Row() == old(s.Row())
      invariant s.faults >= old(s.faults) && (k > 0 ==> s.faults > old(s.faults) || Rested(s))
    {
      s.Interfere();
      ghost var before, faults := s.Row(), s.faults;
      var completed, r := SyncHourlyTable(s);
      if s.faults == faults { NowRested(s, before, r); }
      k := k + 1;
    }
    SubmittedOnce(s.log, s.Row());
  }

  /** Nothing is left to do: the cursor has caught up, the zone stops it, or the pending
      window is one that is refused. */
  ghost predicate Rested(s: HourlySite)
    reads s
  {
    CaughtUp(s.zone, s.Row().next, s.now) || Stuck(s.zone, s.Row().next) || Started(s.Row()) || Lost(s.w, s.Row())
  }

  lemma NowRested(s: HourlySite, before: HourlyRow, r: Outcome)
    requires if r == Done then CaughtUp(s.zone, s.Row().next, s.now)
             else Stuck(s.zone, s.Row().next) || Refused(s.w, before, s.Row())
    requires Started(before) ==> s.Row() == before
    ensures Rested(s)
  {
  }

  /** No two INSERTs ever submitted share a window, or any stamp of one. */
  ghost predicate AtMostOnce(log: seq<Insert>) {
    forall j, k, t :: 0 <= j < k < |log| ==> !(Inside(log[j].span, t) && Inside(log[k].span, t))
  }

  lemma SubmittedOnce(log: seq<Insert>, d: HourlyRow)
    requires Submitted(log, d)
    ensures AtMostOnce(log) && forall x | x in log :: Announced(x)
    ensures forall j, k :: 0 <= j < k < |log| ==> log[j].span != log[k].span && log[j].batch != log[k].batch
  {
    assert forall k | 0 <= k < |log| :: log[k] in log;
  }

  /** The target has each source row of [lo, hi) as often as the source does, and no other. */
  ghost predicate EachOnce(w: World, lo: int, hi: int) {
    forall r :: w.loaded[r] == if lo <= r.time < hi then w.source[r] else 0
  }

  /** Exactly once, row by row: up to the cursor, or, with a started import, the pending
      window may be there as well, whole and once. */
  lemma LoadedExactly(w: World, d: HourlyRow, start: int)
    requires Inv(w, d, start)
    ensures EachOnce(w, start, d.next) || (Started(d) && EachOnce(w, start, d.pending.value.to))
  {
  }

  // ---------- A fixed-offset zone ----------

  /** In a fixed-offset zone an exact hour always parses and the next one is later, so the
      loop stops only when caught up: then less than three hours
      separate the cursor from the clock. */
  lemma FixedAdvances(z: Zone, offset: int, next: int)
    requires IsFixed(z, offset) && next % HOUR == 0
    ensures ParseHourlyStart(z, next) == Some(next - offset)
    ensures z.format(next - offset + HOUR) == next + HOUR && (next + HOUR) % HOUR == 0
  {
  }

  lemma FixedCaughtUp(z: Zone, offset: int, next: int, now: int)
    requires IsFixed(z, offset) && CaughtUp(z, next, now)
    ensures now < (next - offset) + 3 * HOUR
  {
  }
}
