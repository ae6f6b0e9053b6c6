/** Everything the tool does not own: the source partition and its history, the
    object store, the target partition, and statements still running on a server.
    The environment moves between any two steps of the program, as Drift says. */
module Outside {
  import opened Rows
  import opened Checkpoint

  /** OverwriteMode: the source may change its rows arbitrarily between versions.
      TimeWindow: within one partition ID rows are only appended, with rising time. */
  datatype Mode = OverwriteMode | TimeWindow

  /** What a listing sees under a prefix, and the rows an import of it would read. */
  datatype Batch = Batch(files: set<string>, rows: Bag)

  const NO_OBJECTS := Batch({}, multiset{})

  /** A statement on the target partition. Overwrite replaces an existing partition
      atomically; Create is the insert used when no partition matches, and relies on AUTO
      PARTITION; Recreate is the forced form of it, which replaces whatever partitions the
      rows fall in; Append is the labelled delta INSERT. */
  datatype Statement = Overwrite(rows: Bag) | Create(rows: Bag) | Recreate(rows: Bag) | Append(rows: Bag)

  /** The target side of one partition. */
  datatype Target = Target(
    rows: Option<Bag>,                 // the matching target partition, if there is one
    stray: Bag,                        // rows an import left in other target partitions
    dropped: bool,                     // the partition was dropped since the tool last built it
    inflight: Option<Statement>)       // submitted, client gone, may still commit

  datatype World = World(
    mode: Mode,
    autoMatches: bool,                 // AUTO PARTITION creates a partition that matches the source
    hist: map<Identity, Bag>,          // the contents every identity so far stood for
    cur: Option<Identity>,             // what SHOW PARTITIONS lists now
    store: map<Prefix, Batch>,
    used: set<Prefix>,                 // generations ever drawn
    late: set<Prefix>,                 // prefixes an abandoned OUTFILE may still write to
    pinned: set<Prefix>,               // checked objects whose import has not read them yet
    target: Target)

  function At(w: World, p: Prefix): Batch {
    if p in w.store then w.store[p] else NO_OBJECTS
  }

  // ---------- The source ----------

  /** What a query of the source partition would read. */
  function Contents(w: World): Option<Bag> {
    if w.cur.Some? && w.cur.value in w.hist then Some(w.hist[w.cur.value]) else None
  }

  /** Contents under one partition ID only grow in TimeWindow mode, and versions of
      the listed partition are the latest of its ID. */
  predicate SourceValid(w: World) {
    && (w.cur.Some? ==> w.cur.value in w.hist)
    && (w.cur.Some? ==>
          forall i | i in w.hist && i.id == w.cur.value.id :: i.version <= w.cur.value.version)
    && (w.mode == TimeWindow ==>
          forall i, j | i in w.hist && j in w.hist && i.id == j.id && i.version <= j.version ::
            Appends(w.hist[i], w.hist[j]))
  }

  /** Identities never recur: a partition either still has its identity, is gone, or
      has one never seen before. */
  predicate SourceDrift(a: World, b: World) {
    && a.hist.Keys <= b.hist.Keys
    && (forall i | i in a.hist :: b.hist[i] == a.hist[i])
    && (b.cur == a.cur || b.cur.None? || b.cur.value !in a.hist)
    && (SourceValid(a) ==> SourceValid(b))
  }

  lemma SourceDriftTransitive(a: World, b: World, c: World)
    requires SourceDrift(a, b) && SourceDrift(b, c)
    ensures SourceDrift(a, c)
  {
  }

  /** Seeing an identity at the end of an interval it was already known in means the
      partition had it all along. */
  lemma Sandwich(a: World, b: World, c: World, i: Identity)
    requires SourceDrift(a, b) && SourceDrift(b, c)
    requires i in a.hist && c.cur == Some(i)
    ensures b.cur == Some(i) && a.cur == Some(i)
  {
  }

  // ---------- The object store ----------

  /** Objects may vanish from a prefix nothing writes to, but never change or return;
      under a prefix with an abandoned writer anything may happen. The prefixes in
      `spare` are those the step itself works on. */
  predicate StoreDrift(a: World, b: World, spare: set<Prefix>) {
    && b.store.Keys <= a.store.Keys + a.late + spare
    && a.late <= b.late <= a.late + spare
    && forall p | p in a.store.Keys + b.store.Keys && p !in a.late + spare ::
         At(b, p) == At(a, p) || (p !in a.pinned && At(b, p).files < At(a, p).files)
  }

  // ---------- The target ----------

  function Drop(t: Target): Target {
    t.(rows := None, dropped := t.dropped || t.rows.Some?)
  }

  function Abandon(t: Target): Target {
    t.(inflight := None)
  }

  /** The statement in flight takes effect. */
  function Commit(t: Target, autoMatches: bool): Target
    requires t.inflight.Some?
  {
    match t.inflight.value
    case Overwrite(rows) =>
      if t.rows.Some? then Target(Some(rows), t.stray, false, None) else Abandon(t)
    case Create(rows) =>
      if !autoMatches then Target(t.rows, t.stray + rows, t.dropped, None)
      else if t.rows.None? then Target(Some(rows), t.stray, false, None)
      else Target(Some(t.rows.value + rows), t.stray, t.dropped, None)
    case Recreate(rows) =>
      if autoMatches then Target(Some(rows), t.stray, false, None) else Target(t.rows, rows, t.dropped, None)
    case Append(rows) =>
      Target(Some((if t.rows.Some? then t.rows.value else multiset{}) + rows), t.stray, t.dropped, None)
  }

  predicate MayDrop(a: Target, b: Target) {
    b == a || b == Drop(a)
  }

  /** Someone may drop the partition; a statement in flight may commit or be abandoned,
      before or after that. */
  predicate TargetDrift(a: Target, b: Target, autoMatches: bool) {
    || MayDrop(a, b)
    || (a.inflight.Some?
        && (|| MayDrop(Abandon(a), b)
            || MayDrop(Commit(a, autoMatches), b)
            || MayDrop(Commit(Drop(a), autoMatches), b)))
  }

  /** What may happen outside during a step that works on the prefixes in `spare`. */
  predicate DriftBut(a: World, b: World, spare: set<Prefix>) {
    && b.mode == a.mode && b.autoMatches == a.autoMatches
    && b.used == a.used
    && SourceDrift(a, b)
    && StoreDrift(a, b, spare)
    && TargetDrift(a.target, b.target, a.autoMatches)
  }

  /** What may happen outside between two steps of the program. */
  predicate Drift(a: World, b: World) {
    DriftBut(a, b, {}) && b.pinned == a.pinned
  }

  /** Writing under one prefix, on top of a drift. */
  lemma DriftThenWrite(a: World, b: World, p: Prefix, batch: Batch, pinned: set<Prefix>)
    requires Drift(a, b)
    ensures DriftBut(a, b.(store := b.store[p := batch], pinned := pinned), {p})
    ensures DriftBut(a, b.(pinned := pinned), {p})
    ensures SourceDrift(b, b.(store := b.store[p := batch], pinned := pinned))
    ensures SourceDrift(b, b.(pinned := pinned))
  {
    var c := b.(store := b.store[p := batch], pinned := pinned);
    var d := b.(pinned := pinned);
    assert SourceDrift(a, c) && SourceDrift(a, d);
    forall q | q in a.store.Keys + c.store.Keys && q !in a.late + {p} ensures At(c, q) == At(b, q) {}
    forall q | q in a.store.Keys + b.store.Keys && q !in a.late + {p} ensures At(d, q) == At(b, q) {}
  }

  lemma DriftKeepsMode(a: World, b: World)
    requires Drift(a, b)
    ensures b.mode == a.mode && b.autoMatches == a.autoMatches
  {
  }
}
