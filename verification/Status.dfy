/** status.go: how a checkpoint is summed up for the operator. */
module Status {
  import opened Rows
  import opened Checkpoint
  import opened Outside
  import opened PartitionInvariant
  import opened OverwriteSync
  import opened DeltaSync

  datatype Phase = Monitoring | Syncing | InitialBackup | InitialImport

  function PhaseOf(d: PartitionRow): Phase {
    if d.importedIdentity.Some? && d.importedIdentity == d.sourceIdentity && d.backupPrefix.Some?
       && !d.importInProgress && d.pendingDelta.None? then Monitoring
    else if d.importedIdentity.Some? then Syncing
    else if d.backupReady then InitialImport
    else InitialBackup
  }

  /** A partition is shown as monitored exactly if it is one that a sync for its recorded
      source identity would skip, once it has a ready backup: imported at that identity,
      nothing in progress and no delta pending. */
  lemma MonitoredIsSkipped(w: World, d: PartitionRow, dirty: bool)
    requires Inv(w, d, dirty) && d.backupReady && d.sourceIdentity.Some?
    ensures PhaseOf(d) == Monitoring <==> Skips(d, d.sourceIdentity.value) && d.pendingDelta.None?
  {
  }

  /** Status truth: in overwrite mode a partition shown as monitored, whose recorded identity
      the source still has, holds exactly the source's rows, unless someone dropped it. */
  lemma StatusTruth(w: World, d: PartitionRow, dirty: bool)
    requires Inv(w, d, dirty) && w.mode == OverwriteMode
    requires PhaseOf(d) == Monitoring && d.sourceIdentity == w.cur && !w.target.dropped
    ensures Contents(w) == Some(Held(w.target))
  {
  }

  /** In any reachable state, a finished delta is shown as monitored if and only if the last
      backup is one of the delta's own identity: the recorded source identity is that of
      the backup, and a delta does not move it. */
  lemma FinishedDeltaShownIff(w: World, d: PartitionRow, dirty: bool)
    requires Inv(w, d, dirty) && Started(d)
    ensures PhaseOf(DeltaFinished(d)) in {Monitoring, Syncing}
    ensures PhaseOf(DeltaFinished(d)) == Monitoring <==> d.backupIdentity == Some(d.pendingDelta.value.identity)
  {
  }

  /** The backup is not newer than the import: so after every completed full import, and
      until another backup is accepted. */
  predicate NotNewer(d: PartitionRow) {
    d.backupIdentity.Some? && d.importedIdentity.Some? && d.backupIdentity.value.id == d.importedIdentity.value.id ==>
      d.backupIdentity.value.version <= d.importedIdentity.value.version
  }

  lemma FullImportNotNewer(d: PartitionRow, i: Identity)
    requires d.backupIdentity == Some(i)
    ensures NotNewer(ImportFinished(d, i))
  {
  }

  /** From a completed full import on, every delta that finishes leaves the partition shown
      as syncing, though it is up to date; and so does the next one. */
  lemma FinishedDeltaShowsSyncing(w: World, d: PartitionRow)
    requires Inv(w, d, false) && Started(d) && NotNewer(d)
    ensures PhaseOf(DeltaFinished(d)) == Syncing && NotNewer(DeltaFinished(d))
  {
    FinishedDeltaShownIff(w, d, false);
    var delta := d.pendingDelta.value;
    assert w.hist[d.importedIdentity.value] != w.hist[delta.identity];
  }

  // ---------- readStatus ----------

  datatype Table = Table(sourceDB: string, targetDB: string, name: string)

  /** One row of partition_state. */
  datatype Line = Line(table: Table, partition: string, row: PartitionRow)

  datatype Counts = Counts(total: int, inventoryKnown: bool, observed: nat, current: nat, monitoring: nat, syncing: nat)

  datatype Report = Report(
    tables: map<Table, Counts>, active: seq<Line>, syncing: seq<Line>,
    knownTotal: int, current: nat, monitoringCount: nat, syncingCount: nat)

  const ANY := {Monitoring, Syncing, InitialBackup, InitialImport}

  /** Lines of the given tables in the given phases. */
  function Count(lines: seq<Line>, tables: set<Table>, phases: set<Phase>): nat {
    if lines == [] then 0
    else
      var last := lines[|lines| - 1];
      Count(lines[..|lines| - 1], tables, phases)
      + if last.table in tables && PhaseOf(last.row) in phases then 1 else 0
  }

  lemma CountNext(lines: seq<Line>, i: nat, tables: set<Table>, phases: set<Phase>)
    requires i < |lines|
    ensures Count(lines[..i + 1], tables, phases) ==
            Count(lines[..i], tables, phases) + if lines[i].table in tables && PhaseOf(lines[i].row) in phases then 1 else 0
  {
    assert lines[..i + 1][..i] == lines[..i];
  }

  lemma {:induction false} CountUnion(lines: seq<Line>, a: set<Table>, b: set<Table>, phases: set<Phase>)
    requires a !! b
    ensures Count(lines, a + b, phases) == Count(lines, a, phases) + Count(lines, b, phases)
  {
    if lines != [] { CountUnion(lines[..|lines| - 1], a, b, phases); }
  }

  lemma {:induction false} CountNone(lines: seq<Line>, phases: set<Phase>)
    ensures Count(lines, {}, phases) == 0
  {
    if lines != [] { CountNone(lines[..|lines| - 1], phases); }
  }

  lemma {:induction false} CountAll(lines: seq<Line>, tables: set<Table>)
    requires forall x | x in lines :: x.table in tables
    ensures Count(lines, tables, {Monitoring}) + Count(lines, tables, ANY - {Monitoring}) == |lines|
  {
    if lines != [] {
      var front := lines[..|lines| - 1];
      assert lines[|lines| - 1] in lines && forall x | x in front :: x in lines;
      CountAll(front, tables);
    }
  }

  /** The counters of one table are those of its lines. */
  ghost predicate CountsOf(c: Counts, lines: seq<Line>, t: Table) {
    && c.observed == Count(lines, {t}, ANY)
    && c.current == c.monitoring == Count(lines, {t}, {Monitoring})
    && c.syncing == Count(lines, {t}, {Syncing})
  }

  const NOTHING := Counts(0, false, 0, 0, 0, 0)

  function Get(tables: map<Table, Counts>, t: Table): Counts {
    if t in tables then tables[t] else NOTHING
  }

  /** What the switch does to the counters of a line's table. */
  function Tallied(c: Counts, phase: Phase): Counts {
    var d := c.(observed := c.observed + 1);
    match phase
    case Monitoring => d.(current := c.current + 1, monitoring := c.monitoring + 1)
    case Syncing => d.(syncing := c.syncing + 1)
    case _ => d
  }

  lemma CountsStep(c: Counts, lines: seq<Line>, i: nat, t: Table)
    requires i < |lines| && CountsOf(c, lines[..i], t)
    ensures CountsOf(if lines[i].table == t then Tallied(c, PhaseOf(lines[i].row)) else c, lines[..i + 1], t)
  {
    CountNext(lines, i, {t}, ANY);
    CountNext(lines, i, {t}, {Monitoring});
    CountNext(lines, i, {t}, {Syncing});
  }

  /** The counters are right for the first `i` lines, also of tables without any. */
  ghost predicate Tallies(tables: map<Table, Counts>, inventory: map<Table, int>, lines: seq<Line>, i: nat)
    requires i <= |lines|
  {
    && (forall t :: CountsOf(Get(tables, t), lines[..i], t))
    && (forall t | t in inventory :: t in tables && tables[t].total == inventory[t] && tables[t].inventoryKnown)
    && (forall t | t in tables && t !in inventory :: !tables[t].inventoryKnown)
    && (forall t :: t in tables <==> t in inventory || exists k :: 0 <= k < i && lines[k].table == t)
  }

  lemma TalliesStart(inventory: map<Table, int>, lines: seq<Line>)
    ensures Tallies(map t | t in inventory :: Counts(inventory[t], true, 0, 0, 0, 0), inventory, lines, 0)
  {
  }

  lemma TalliesStep(tables: map<Table, Counts>, inventory: map<Table, int>, lines: seq<Line>, i: nat)
    requires i < |lines| && Tallies(tables, inventory, lines, i)
    ensures var x := lines[i];
            Tallies(tables[x.table := Tallied(Get(tables, x.table), PhaseOf(x.row))], inventory, lines, i + 1)
  {
    hide CountsOf, PhaseOf;
    var x := lines[i];
    var more := tables[x.table := Tallied(Get(tables, x.table), PhaseOf(x.row))];
    forall t ensures CountsOf(Get(more, t), lines[..i + 1], t) {
      CountsStep(Get(tables, t), lines, i, t);
    }
    forall t ensures t in more <==> t in inventory || exists k :: 0 <= k < i + 1 && lines[k].table == t {
      if t in tables && t !in inventory { var k :| 0 <= k < i && lines[k].table == t; }
      if t == x.table { assert lines[i].table == t; }
    }
  }

  /** The lines in the given phases, in their order. */
  function Lines(lines: seq<Line>, phases: set<Phase>): seq<Line> {
    if lines == [] then []
    else
      var last := lines[|lines| - 1];
      Lines(lines[..|lines| - 1], phases) + if PhaseOf(last.row) in phases then [last] else []
  }

  lemma LinesNext(lines: seq<Line>, i: nat, phases: set<Phase>)
    requires i < |lines|
    ensures Lines(lines[..i + 1], phases) ==
            Lines(lines[..i], phases) + if PhaseOf(lines[i].row) in phases then [lines[i]] else []
  {
    assert lines[..i + 1][..i] == lines[..i];
  }

  lemma {:induction false} LinesCount(lines: seq<Line>, tables: set<Table>, phases: set<Phase>)
    requires forall x | x in lines :: x.table in tables
    ensures |Lines(lines, phases)| == Count(lines, tables, phases)
    ensures forall x :: x in Lines(lines, phases) <==> x in lines && PhaseOf(x.row) in phases
  {
    if lines != [] {
      var front := lines[..|lines| - 1];
      assert lines == front + [lines[|lines| - 1]] && forall x | x in front :: x in lines;
      assert lines[|lines| - 1] in lines;
      LinesCount(front, tables, phases);
    }
  }

  /** The first loop: one line after the other into its table's counters and the lists. */
  method Tally(inventory: map<Table, int>, lines: seq<Line>)
    returns (tables: map<Table, Counts>, active: seq<Line>, syncing: seq<Line>)
    ensures Tallies(tables, inventory, lines, |lines|)
    ensures active == Lines(lines, ANY - {Monitoring}) && syncing == Lines(lines, {Syncing})
  {
    hide Tallies, Tallied, Lines;
    tables := map t | t in inventory :: Counts(inventory[t], true, 0, 0, 0, 0);
    TalliesStart(inventory, lines);
    active, syncing := [], [];
    NoLines(ANY - {Monitoring});
    NoLines({Syncing});
    for i := 0 to |lines|
      invariant Tallies(tables, inventory, lines, i)
      invariant active == Lines(lines[..i], ANY - {Monitoring}) && syncing == Lines(lines[..i], {Syncing})
    {
      var x := lines[i];
      TalliesStep(tables, inventory, lines, i);
      LinesNext(lines, i, ANY - {Monitoring});
      LinesNext(lines, i, {Syncing});
      var t := Get(tables, x.table);
      t := CountLine(t, PhaseOf(x.row));
      tables := tables[x.table := t];
      if PhaseOf(x.row) == Syncing { syncing := syncing + [x]; }
      if PhaseOf(x.row) != Monitoring { active := active + [x]; }
    }
    assert lines[..|lines|] == lines;
  }

  lemma NoLines(phases: set<Phase>)
    ensures Lines([], phases) == []
  {
  }

  /** The switch on one line. */
  method CountLine(before: Counts, phase: Phase) returns (t: Counts)
    ensures t == Tallied(before, phase)
  {
    t := before.(observed := before.observed + 1);
    match phase {
      case Monitoring =>
        t := t.(current := t.current + 1);
        t := t.(monitoring := t.monitoring + 1);
      case Syncing => t := t.(syncing := t.syncing + 1);
      case _ =>
    }
  }

  /** The known totals of the given tables. */
  ghost function Known(inventory: map<Table, int>, tables: set<Table>): int {
    if tables == {} then 0
    else
      var t :| t in tables;
      Known(inventory, tables - {t}) + if t in inventory then inventory[t] else 0
  }

  lemma {:induction false} KnownAdd(inventory: map<Table, int>, tables: set<Table>, t: Table)
    requires t !in tables
    ensures Known(inventory, tables + {t}) == Known(inventory, tables) + if t in inventory then inventory[t] else 0
    decreases |tables|
  {
    var all := tables + {t};
    var u :| u in all && Known(inventory, all) == Known(inventory, all - {u}) + if u in inventory then inventory[u] else 0;
    if u == t {
      assert all - {t} == tables;
    } else {
      assert all - {u} == (tables - {u}) + {t};
      KnownAdd(inventory, tables - {u}, t);
      KnownAdd(inventory, tables - {u}, u);
      assert (tables - {u}) + {u} == tables;
    }
  }

  /** The second loop: the sums over all tables, in any order. */
  method Totals(inventory: map<Table, int>, lines: seq<Line>, tables: map<Table, Counts>)
    returns (knownTotal: int, current: nat, monitoring: nat, syncing: nat)
    requires Tallies(tables, inventory, lines, |lines|)
    ensures knownTotal == Known(inventory, inventory.Keys)
    ensures current == monitoring == Count(lines, tables.Keys, {Monitoring})
    ensures syncing == Count(lines, tables.Keys, {Syncing})
    ensures forall x | x in lines :: x.table in tables.Keys
  {
    hide Tallies, Count;
    knownTotal, current, monitoring, syncing := 0, 0, 0, 0;
    var rest := tables.Keys;
    CountNone(lines, {Monitoring});
    CountNone(lines, {Syncing});
    while rest != {}
      invariant rest <= tables.Keys
      invariant knownTotal == Known(inventory, tables.Keys - rest)
      invariant current == monitoring == Count(lines, tables.Keys - rest, {Monitoring})
      invariant syncing == Count(lines, tables.Keys - rest, {Syncing})
      decreases |rest|
    {
      var t :| t in rest;
      ghost var done := tables.Keys - rest;
      rest := rest - {t};
      assert tables.Keys - rest == done + {t};
      TableCounts(tables, inventory, lines, t);
      KnownAdd(inventory, done, t);
      CountUnion(lines, done, {t}, {Monitoring});
      CountUnion(lines, done, {t}, {Syncing});
      if tables[t].inventoryKnown { knownTotal := knownTotal + tables[t].total; }
      current := current + tables[t].current;
      monitoring := monitoring + tables[t].monitoring;
      syncing := syncing + tables[t].syncing;
    }
    assert tables.Keys - rest == tables.Keys;
    LinesInTables(tables, inventory, lines);
    KnownOnly(inventory, tables.Keys);
  }

  lemma LinesInTables(tables: map<Table, Counts>, inventory: map<Table, int>, lines: seq<Line>)
    requires Tallies(tables, inventory, lines, |lines|)
    ensures (forall x | x in lines :: x.table in tables.Keys) && inventory.Keys <= tables.Keys
  {
  }

  lemma TableCounts(tables: map<Table, Counts>, inventory: map<Table, int>, lines: seq<Line>, t: Table)
    requires Tallies(tables, inventory, lines, |lines|) && t in tables
    ensures tables[t].current == tables[t].monitoring == Count(lines, {t}, {Monitoring})
    ensures tables[t].syncing == Count(lines, {t}, {Syncing})
    ensures tables[t].inventoryKnown <==> t in inventory
    ensures t in inventory ==> tables[t].total == inventory[t]
  {
    assert lines[..|lines|] == lines;
    assert CountsOf(Get(tables, t), lines[..|lines|], t);
  }

  /** Tables without an inventory add nothing. */
  lemma {:induction false} KnownOnly(inventory: map<Table, int>, tables: set<Table>)
    requires inventory.Keys <= tables
    ensures Known(inventory, tables) == Known(inventory, inventory.Keys)
    decreases |tables|
  {
    if t :| t in tables && t !in inventory {
      KnownOnly(inventory, tables - {t});
      KnownAdd(inventory, tables - {t}, t);
      assert (tables - {t}) + {t} == tables;
    } else {
      assert tables == inventory.Keys;
    }
  }

  /** readStatus, from the loaded rows: the report's totals are those of all its lines. */
  method ReadStatus(inventory: map<Table, int>, lines: seq<Line>) returns (r: Report)
    ensures Tallies(r.tables, inventory, lines, |lines|)
    ensures r.active == Lines(lines, ANY - {Monitoring}) && r.syncing == Lines(lines, {Syncing})
    ensures r.monitoringCount == r.current && r.monitoringCount + |r.active| == |lines|
    ensures r.syncingCount == |r.syncing| && forall x | x in r.syncing :: x in r.active
    ensures r.knownTotal == Known(inventory, inventory.Keys)
  {
    var tables, active, syncing := Tally(inventory, lines);
    var knownTotal, current, monitoring, count := Totals(inventory, lines, tables);
    TotalsAgree(lines, tables.Keys);
    r := Report(tables, active, syncing, knownTotal, current, monitoring, count);
  }

  lemma {:induction false} TotalsAgree(lines: seq<Line>, tables: set<Table>)
    requires forall x | x in lines :: x.table in tables
    ensures Count(lines, tables, {Monitoring}) + |Lines(lines, ANY - {Monitoring})| == |lines|
    ensures Count(lines, tables, {Syncing}) == |Lines(lines, {Syncing})|
    ensures forall x | x in Lines(lines, {Syncing}) :: x in Lines(lines, ANY - {Monitoring})
  {
    CountAll(lines, tables);
    LinesCount(lines, tables, ANY - {Monitoring});
    LinesCount(lines, tables, {Syncing});
  }
}
