/** hourly.go: the durable hourly checkpoint of one table, and the world around it. */
module HourlyCheckpoint {
  import opened Rows

  /** Every attempt exports under its own generation; the label names table, window and
      generation, so the hash of it is taken to be that triple. */
  datatype Label = Label(from: int, to: int, generation: nat)

  datatype Pending = Pending(
    from: int, to: int, generation: Option<nat>, objects: set<string>,
    backupReady: bool, importStarted: bool, batch: Option<Label>)

  datatype HourlyRow = HourlyRow(next: int, pending: Option<Pending>)

  datatype Batch = Batch(files: set<string>, rows: Bag)

  /** The outside of one hourly task. `settled` is a wall-clock stamp before which the
      source no longer changes: the end of the last window that was eligible. */
  datatype World = World(
    source: Bag, settled: int,
    store: map<nat, Batch>, used: set<nat>, late: set<nat>, pinned: set<nat>,
    loaded: Bag,                       // what the imports have brought to the target
    inflight: Option<Bag>)             // an INSERT whose client is gone

  const NO_OBJECTS := Batch({}, multiset{})

  function At(w: World, g: nat): Batch {
    if g in w.store then w.store[g] else NO_OBJECTS
  }

  /** What may happen outside between two steps. The INSERT may commit at any time. */
  predicate Drift(a: World, b: World) {
    && b.settled == a.settled && b.used == a.used && b.late == a.late && b.pinned == a.pinned
    && (forall r | r in a.source + b.source && r.time < a.settled :: b.source[r] == a.source[r])
    && b.store.Keys <= a.store.Keys + a.late
    && (forall g | g in a.store.Keys && g !in a.late ::
          At(b, g) == At(a, g) || (g !in a.pinned && At(b, g).files < At(a, g).files))
    && (|| (b.inflight == a.inflight && b.loaded == a.loaded)
        || (a.inflight.Some? && b.inflight.None? && (b.loaded == a.loaded || b.loaded == a.loaded + a.inflight.value)))
  }

  // ---------- Windows ----------

  type Span = (int, int)

  /** Contiguous windows from `start` to `next`, each of positive length. */
  ghost predicate Tiles(windows: seq<Span>, start: int, next: int) {
    if windows == [] then start == next
    else windows[0].0 == start && start < windows[0].1 && Tiles(windows[1..], windows[0].1, next)
  }

  lemma {:induction false} TilesExtend(windows: seq<Span>, start: int, next: int, to: int)
    requires Tiles(windows, start, next) && next < to
    ensures Tiles(windows + [(next, to)], start, to)
  {
    if windows == [] {
      assert windows + [(next, to)] == [(next, to)];
      assert [(next, to)][1..] == [];
    } else {
      TilesExtend(windows[1..], windows[0].1, next, to);
      assert (windows + [(next, to)])[1..] == windows[1..] + [(next, to)];
    }
  }

  predicate Inside(w: Span, t: int) {
    w.0 <= t < w.1
  }

  /** Tiling means that each stamp from the start up to the cursor lies in exactly one
      window, and no stamp outside lies in any. */
  lemma {:induction false} TilesCoverOnce(windows: seq<Span>, start: int, next: int, t: int)
    requires Tiles(windows, start, next)
    ensures start <= next
    ensures (exists k :: 0 <= k < |windows| && Inside(windows[k], t)) <==> start <= t < next
    ensures forall j, k :: 0 <= j < k < |windows| ==> !(Inside(windows[j], t) && Inside(windows[k], t))
  {
    if windows != [] {
      var rest := windows[1..];
      TilesCoverOnce(rest, windows[0].1, next, t);
      forall k | 0 < k < |windows| ensures windows[k] == rest[k - 1] {}
      if start <= t < next {
        if t < windows[0].1 {
          assert Inside(windows[0], t);
        } else {
          var k :| 0 <= k < |rest| && Inside(rest[k], t);
          assert Inside(windows[k + 1], t);
        }
      }
      forall j, k | 0 <= j < k < |windows| ensures !(Inside(windows[j], t) && Inside(windows[k], t)) {
        assert Inside(windows[k], t) ==> exists m :: 0 <= m < |rest| && Inside(rest[m], t) by {
          if Inside(windows[k], t) { assert Inside(rest[k - 1], t); }
        }
        if j > 0 { assert windows[j] == rest[j - 1] && windows[k] == rest[k - 1]; }
      }
    }
  }

  // ---------- The invariant ----------

  /** Rows of the source in [lo, hi). */
  ghost predicate Loaded(w: World, lo: int, hi: int) {
    w.loaded == Window(w.source, lo, hi)
  }

  /** The backup of a ready window holds exactly its rows, as long as no file is missing. */
  ghost predicate BackupSound(w: World, p: Pending) {
    p.backupReady ==>
      && p.generation.Some? && p.batch.Some? && p.generation.value in w.used && p.generation.value !in w.late
      && p.objects != {} && p.to <= w.settled
      && At(w, p.generation.value).files <= p.objects
      && (At(w, p.generation.value).files == p.objects ==>
            At(w, p.generation.value).rows == Window(w.source, p.from, p.to))
  }

  /** Prefix and label are drawn together. */
  predicate Labelled(p: Pending) {
    p.batch == if p.generation.Some? then Some(Label(p.from, p.to, p.generation.value)) else None
  }

  /** Exactly once: without a started import the target has the rows before the cursor;
      with one, those, or those and the pending window's, once. */
  ghost predicate ExactlyOnce(w: World, d: HourlyRow, start: int) {
    match d.pending
    case None => Loaded(w, start, d.next) && w.inflight.None?
    case Some(p) =>
      if !p.importStarted then Loaded(w, start, d.next) && w.inflight.None?
      else
        || (Loaded(w, start, d.next)
            && (w.inflight.None? || w.inflight == Some(Window(w.source, p.from, p.to))))
        || (Loaded(w, start, p.to) && w.inflight.None?)
  }

  ghost predicate Inv(w: World, d: HourlyRow, start: int) {
    && start <= d.next && (d.next == start || d.next <= w.settled)
    && w.late <= w.used && w.store.Keys <= w.used
    && (d.pending.Some? ==>
          && d.pending.value.from == d.next && d.next < d.pending.value.to
          && (d.pending.value.importStarted ==> d.pending.value.backupReady)
          && Labelled(d.pending.value)
          && BackupSound(w, d.pending.value))
    && ExactlyOnce(w, d, start)
  }

  lemma SettledWindow(a: World, b: World, lo: int, hi: int)
    requires Drift(a, b) && hi <= a.settled
    ensures Window(b.source, lo, hi) == Window(a.source, lo, hi)
  {
  }

  lemma EmptyWindow(c: Bag, lo: int)
    ensures Window(c, lo, lo) == multiset{}
  {
  }

  lemma WindowsJoin(c: Bag, lo: int, mid: int, hi: int)
    requires lo <= mid <= hi
    ensures Window(c, lo, mid) + Window(c, mid, hi) == Window(c, lo, hi)
  {
  }

  /** What is loaded stays right; a late INSERT completes the pending window. */
  lemma DriftKeepsLoaded(a: World, b: World, d: HourlyRow, start: int)
    requires Drift(a, b) && Inv(a, d, start)
    ensures ExactlyOnce(b, d, start)
  {
    if d.next == start {
      EmptyWindow(a.source, start);
      EmptyWindow(b.source, start);
    } else {
      SettledWindow(a, b, start, d.next);
    }
    if d.pending.Some? && d.pending.value.importStarted {
      var p := d.pending.value;
      SettledWindow(a, b, p.from, p.to);
      SettledWindow(a, b, start, p.to);
      WindowsJoin(a.source, start, p.from, p.to);
    }
  }

  lemma DriftKeepsBackup(a: World, b: World, p: Pending)
    requires Drift(a, b) && BackupSound(a, p)
    ensures BackupSound(b, p)
  {
    if p.backupReady { SettledWindow(a, b, p.from, p.to); }
  }

  lemma DriftKeepsInv(a: World, b: World, d: HourlyRow, start: int)
    requires Drift(a, b) && Inv(a, d, start)
    ensures Inv(b, d, start)
  {
    DriftKeepsLoaded(a, b, d, start);
    if d.pending.Some? { DriftKeepsBackup(a, b, d.pending.value); }
  }
}
