/** The one target table behind the partitions: each source partition sees the part of it
    that matchTargetPartition picks, and a statement for one leaves the view of the others. */
module TargetTables {
  import opened Rows
  import opened Checkpoint
  import opened Outside
  import opened PartitionInvariant
  import opened Sites
  import opened Matching

  /** The partitions of a target table and what they hold, by name. */
  datatype Table = Table(parts: seq<Partition>, contents: map<string, Bag>)

  ghost predicate TableValid(t: Table) {
    UniqueNames(t.parts) && forall p | p in t.parts :: p.name in t.contents
  }

  /** What the source partition `s` has for a target: `rows` is None where nothing matches. */
  ghost predicate Sees(t: Table, s: Partition, rows: Option<Bag>)
    requires TableValid(t)
  {
    match rows
    case None => Answers(s, t.parts, Absent)
    case Some(c) => exists p :: p in t.parts && Answers(s, t.parts, Found(p)) && t.contents[p.name] == c
  }

  /** Committing `x`, submitted for `s`, turns `a` into `b`. */
  ghost predicate Commits(a: Table, s: Partition, x: Statement, b: Table)
    requires TableValid(a)
  {
    match x
    case Overwrite(rows) =>
      exists p :: p in a.parts && Answers(s, a.parts, Found(p)) && b == a.(contents := a.contents[p.name := rows])
    case Append(rows) =>
      exists p :: p in a.parts && Answers(s, a.parts, Found(p))
        && b == a.(contents := a.contents[p.name := a.contents[p.name] + rows])
    case _ =>
      && Answers(s, a.parts, Absent)
      && exists made :: Makes(s, a.parts, made) && b == Table(a.parts + [made], a.contents[made.name := x.rows])
  }

  /** A created partition does not take the name of another source partition. */
  predicate TakesName(a: Table, b: Table, u: Partition) {
    exists m | m in b.parts :: m !in a.parts && m.name == u.name
  }

  lemma CommitValid(a: Table, s: Partition, x: Statement, b: Table)
    requires TableValid(a) && Commits(a, s, x, b)
    ensures TableValid(b)
  {
  }

  lemma SeesOnce(t: Table, s: Partition, a: Option<Bag>, b: Option<Bag>)
    requires TableValid(t) && Sees(t, s, a) && Sees(t, s, b)
    ensures a == b
  {
    hide Answers;
    if a.Some? && b.Some? {
      var p :| p in t.parts && Answers(s, t.parts, Found(p)) && t.contents[p.name] == a.value;
      var q :| q in t.parts && Answers(s, t.parts, Found(q)) && t.contents[q.name] == b.value;
      FoundOnce(s, t.parts, p, q);
    } else if a.Some? {
      var p :| p in t.parts && Answers(s, t.parts, Found(p)) && t.contents[p.name] == a.value;
      AbsentNotFound(s, t.parts, p);
    } else if b.Some? {
      var p :| p in t.parts && Answers(s, t.parts, Found(p)) && t.contents[p.name] == b.value;
      AbsentNotFound(s, t.parts, p);
    }
  }

  /** The world of one partition is a projection of the table: what the statement makes of
      its target there is what it sees of the table afterwards. */
  lemma CommitProjects(a: Table, s: Partition, x: Statement, b: Table, w: World)
    requires TableValid(a) && Commits(a, s, x, b) && TableValid(b)
    requires w.autoMatches && Sees(a, s, w.target.rows)
    ensures Sees(b, s, Committed(w, x).target.rows)
  {
    hide Answers;
    if x.Overwrite? || x.Append? {
      var p :| p in a.parts && Answers(s, a.parts, Found(p))
        && b == a.(contents := a.contents[p.name := if x.Overwrite? then x.rows else a.contents[p.name] + x.rows]);
      assert Sees(a, s, Some(a.contents[p.name]));
      SeesOnce(a, s, w.target.rows, Some(a.contents[p.name]));
      assert Sees(b, s, Some(b.contents[p.name]));
    } else {
      var made :| Makes(s, a.parts, made) && b == Table(a.parts + [made], a.contents[made.name := x.rows]);
      SeesOnce(a, s, w.target.rows, None);
      assert (a.parts + [made])[|a.parts|] == made;
      assert Sees(b, s, Some(x.rows));
    }
  }

  lemma NewcomerIsNew(parts: seq<Partition>, made: Partition)
    requires UniqueNames(parts + [made])
    ensures made in parts + [made] && forall p | p in parts :: p.name != made.name
  {
    var all := parts + [made];
    assert all[|parts|] == made;
    forall p | p in parts ensures p.name != made.name {
      var k :| 0 <= k < |parts| && parts[k] == p;
      assert all[k].name != all[|parts|].name;
    }
  }

  lemma CreateFrames(a: Table, made: Partition, c: Bag, u: Partition, rows: Option<Bag>)
    requires TableValid(a) && Sees(a, u, rows) && u.bounds.Some? && made.bounds != u.bounds && made.name != u.name
    requires UniqueNames(a.parts + [made]) && TableValid(Table(a.parts + [made], a.contents[made.name := c]))
    ensures Sees(Table(a.parts + [made], a.contents[made.name := c]), u, rows)
  {
    NewcomerIsNew(a.parts, made);
    if rows.Some? {
      var p :| p in a.parts && Answers(u, a.parts, Found(p)) && a.contents[p.name] == rows.value;
      StaysFound(u, a.parts, [made], p);
    }
  }

  lemma ReplaceFrames(a: Table, s: Partition, p: Partition, c: Bag, u: Partition, rows: Option<Bag>)
    requires TableValid(a) && Sees(a, u, rows) && p in a.parts && Answers(s, a.parts, Found(p))
    requires s.name != u.name && s.bounds.Some? && u.bounds.Some? && s.bounds != u.bounds
    ensures Sees(a.(contents := a.contents[p.name := c]), u, rows)
  {
    if rows.Some? {
      var v :| v in a.parts && Answers(u, a.parts, Found(v)) && a.contents[v.name] == rows.value;
      OverwriteIsFramed(s, u, a.parts, a.contents, p, v, c);
    }
  }

  /** And what any other partition sees stays the same. */
  lemma CommitFrames(a: Table, s: Partition, x: Statement, b: Table, u: Partition, rows: Option<Bag>)
    requires TableValid(a) && Commits(a, s, x, b) && TableValid(b) && Sees(a, u, rows)
    requires s.name != u.name && s.bounds.Some? && u.bounds.Some? && s.bounds != u.bounds && !TakesName(a, b, u)
    ensures Sees(b, u, rows)
  {
    hide Answers, Sees;
    if x.Overwrite? || x.Append? {
      var p :| p in a.parts && Answers(s, a.parts, Found(p))
        && b == a.(contents := a.contents[p.name := if x.Overwrite? then x.rows else a.contents[p.name] + x.rows]);
      ReplaceFrames(a, s, p, b.contents[p.name], u, rows);
    } else {
      var made :| Makes(s, a.parts, made) && b == Table(a.parts + [made], a.contents[made.name := x.rows]);
      NewcomerIsNew(a.parts, made);
      CreateFrames(a, made, x.rows, u, rows);
    }
  }

  /** So syncing one partition preserves the soundness of every other: whatever `u` sees of
      the table after a statement for `s` has committed, its recorded import is as sound as
      it was. */
  lemma OthersStaySound(a: Table, s: Partition, x: Statement, b: Table, u: Partition, w: World, after: World, d: PartitionRow)
    requires TableValid(a) && Commits(a, s, x, b) && TableValid(b)
    requires s.name != u.name && s.bounds.Some? && u.bounds.Some? && s.bounds != u.bounds && !TakesName(a, b, u)
    requires Sees(a, u, w.target.rows) && Sees(b, u, after.target.rows)
    requires after == w.(target := w.target.(rows := after.target.rows))
    ensures after == w && (ImportSound(w, d) ==> ImportSound(after, d))
  {
    CommitFrames(a, s, x, b, u, w.target.rows);
    SeesOnce(b, u, w.target.rows, after.target.rows);
  }

  // ---------- A whole fleet over one table ----------

  /** Each source partition's world shows what it sees of the table. */
  ghost predicate Projects(t: Table, sources: seq<Partition>, worlds: seq<World>) {
    TableValid(t) && |sources| == |worlds| && forall k | 0 <= k < |sources| :: Sees(t, sources[k], worlds[k].target.rows)
  }

  ghost predicate Ranged(sources: seq<Partition>) {
    && UniqueNames(sources) && (forall k | 0 <= k < |sources| :: sources[k].bounds.Some?)
    && forall j, k :: 0 <= j < k < |sources| ==> sources[j].bounds != sources[k].bounds
  }

  /** A step of one partition's world that commits a statement is a step of the whole fleet:
      the worlds of the others need not move. */
  lemma FleetCommit(a: Table, sources: seq<Partition>, worlds: seq<World>, k: nat, x: Statement, b: Table)
    requires Projects(a, sources, worlds) && Ranged(sources) && k < |sources| && worlds[k].autoMatches
    requires Commits(a, sources[k], x, b)
    requires forall j | 0 <= j < |sources| && j != k :: !TakesName(a, b, sources[j])
    ensures Projects(b, sources, worlds[k := Committed(worlds[k], x)])
  {
    hide Sees, Commits, TakesName;
    CommitValid(a, sources[k], x, b);
    CommitProjects(a, sources[k], x, b, worlds[k]);
    forall j | 0 <= j < |sources| && j != k ensures Sees(b, sources[j], worlds[j].target.rows) {
      CommitFrames(a, sources[k], x, b, sources[j], worlds[j].target.rows);
    }
  }
}
