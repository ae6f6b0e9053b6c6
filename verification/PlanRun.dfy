/** overwrite_plan.go: carrying out a forced-overwrite plan, with the target partitions that
    matchTargetPartition picks. */
module PlanRuns {
  import opened Rows
  import opened OverwritePlan
  import opened Matching

  /** What a run did, in order. */
  datatype Event =
    | Checked(table: nat)                                    // its preflight succeeded
    | Cleared(table: nat, source: Partition)                 // objects of the partition removed
    | Exported(table: nat, source: Partition)                // OUTFILE submitted
    | Overwrote(table: nat, source: Partition, target: Partition)
    | Inserted(table: nat, source: Partition, made: Option<Partition>)  // PARTITION(*), and what it created
    | Skipped(table: nat, source: Partition)                 // neither rows nor a target: nothing to do

  /** A source partition and the target partition it was written to. */
  datatype Wrote = Wrote(source: Partition, target: Partition)

  /** What one event writes to a table. */
  function Effect(e: Event, table: nat): seq<Wrote> {
    match e
    case Overwrote(k, p, t) => if k == table then [Wrote(p, t)] else []
    case Inserted(k, p, made) => if k == table && made.Some? then [Wrote(p, made.value)] else []
    case _ => []
  }

  /** All that was written to a table. */
  function Writes(log: seq<Event>, table: nat): seq<Wrote> {
    if log == [] then [] else Writes(log[..|log| - 1], table) + Effect(log[|log| - 1], table)
  }

  lemma WritesNext(log: seq<Event>, e: Event, table: nat)
    ensures Writes(log + [e], table) == Writes(log, table) + Effect(e, table)
  {
    assert (log + [e])[..|log|] == log;
  }

  // ---------- One table ----------

  /** Ranges of different source partitions differ. */
  ghost predicate DistinctRanges(source: seq<Partition>) {
    forall j, k :: 0 <= j < k < |source| && source[j].bounds.Some? ==> source[j].bounds != source[k].bounds
  }

  ghost predicate SourceListing(source: seq<Partition>) {
    UniqueNames(source) && DistinctRanges(source)
  }

  /** The first `n` source partitions have been dealt with: `now` is the target listing,
      `first` what it was before the run. */
  ghost predicate TableRun(first: seq<Partition>, now: seq<Partition>, source: seq<Partition>, names: seq<string>,
                           writes: seq<Wrote>, n: nat)
  {
    && first <= now && UniqueNames(now) && n <= |source|
    && (forall x | x in writes ::
          x.source in source[..n] && x.source.name in names && x.target in now && Answers(x.source, now, Found(x.target)))
    && (forall j, k :: 0 <= j < k < |writes| ==> writes[j].source != writes[k].source)
    && (forall m | m in now[|first|..] :: exists x :: x in writes && x.target == m && x.source.bounds == m.bounds)
    && forall k, t | 0 <= k < n && source[k].name in names && t in first && Answers(source[k], first, Found(t)) ::
         Wrote(source[k], t) in writes
  }

  /** `p` is none of the partitions dealt with, and shares no range with any. */
  lemma Untouched(source: seq<Partition>, n: nat, x: Partition)
    requires SourceListing(source) && n < |source| && x in source[..n]
    ensures x != source[n] && (x.bounds.Some? ==> x.bounds != source[n].bounds)
  {
  }

  /** The partitions created so far have other ranges than the next source partition. */
  lemma AddedDiffer(first: seq<Partition>, now: seq<Partition>, source: seq<Partition>, names: seq<string>,
                    writes: seq<Wrote>, n: nat)
    requires TableRun(first, now, source, names, writes, n) && SourceListing(source) && n < |source|
    ensures now == first + now[|first|..]
    ensures forall m | m in now[|first|..] :: !SameRange(source[n], m)
  {
    forall m | m in now[|first|..] ensures !SameRange(source[n], m) {
      var x :| x in writes && x.target == m && x.source.bounds == m.bounds;
      Untouched(source, n, x.source);
    }
  }

  /** What the next source partition matched before the run, it still matches. */
  lemma StillMatches(first: seq<Partition>, now: seq<Partition>, source: seq<Partition>, names: seq<string>,
                     writes: seq<Wrote>, n: nat, t: Partition)
    requires TableRun(first, now, source, names, writes, n) && SourceListing(source) && n < |source| && t in first
    ensures Answers(source[n], first, Found(t)) <==> Answers(source[n], now, Found(t))
  {
    AddedDiffer(first, now, source, names, writes, n);
    StaysFound(source[n], first, now[|first|..], t);
  }

  lemma OverwriteKeepsRun(first: seq<Partition>, now: seq<Partition>, source: seq<Partition>, names: seq<string>,
                          writes: seq<Wrote>, n: nat, t: Partition)
    requires TableRun(first, now, source, names, writes, n) && SourceListing(source) && n < |source|
    requires source[n].name in names && t in now && Answers(source[n], now, Found(t))
    ensures TableRun(first, now, source, names, writes + [Wrote(source[n], t)], n + 1)
  {
    hide Answers;
    var more := writes + [Wrote(source[n], t)];
    assert more[|writes|] == Wrote(source[n], t);
    assert source[..n + 1] == source[..n] + [source[n]];
    forall x | x in writes ensures x.source != source[n] { Untouched(source, n, x.source); }
    forall u | u in first && Answers(source[n], first, Found(u)) ensures u == t {
      StillMatches(first, now, source, names, writes, n, u);
      FoundOnce(source[n], now, t, u);
    }
    forall m | m in now[|first|..] ensures exists x :: x in more && x.target == m && x.source.bounds == m.bounds {
      var x :| x in writes && x.target == m && x.source.bounds == m.bounds;
      assert x in more;
    }
  }

  lemma InsertKeepsRun(first: seq<Partition>, now: seq<Partition>, source: seq<Partition>, names: seq<string>,
                       writes: seq<Wrote>, n: nat, made: Partition)
    requires TableRun(first, now, source, names, writes, n) && SourceListing(source) && n < |source|
    requires source[n].name in names && Answers(source[n], now, Absent) && Makes(source[n], now, made)
    ensures TableRun(first, now + [made], source, names, writes + [Wrote(source[n], made)], n + 1)
  {
    var more := writes + [Wrote(source[n], made)];
    var after := now + [made];
    assert more[|writes|] == Wrote(source[n], made) && after[|now|] == made;
    assert source[..n + 1] == source[..n] + [source[n]];
    forall x | x in writes ensures x.source != source[n] && Answers(x.source, after, Found(x.target)) {
      Untouched(source, n, x.source);
      StaysFound(x.source, now, [made], x.target);
    }
    hide Answers;
    forall u | u in first ensures !Answers(source[n], first, Found(u)) {
      StillMatches(first, now, source, names, writes, n, u);
      AbsentNotFound(source[n], now, u);
    }
    assert after[|first|..] == now[|first|..] + [made];
    forall m | m in after[|first|..] ensures exists x :: x in more && x.target == m && x.source.bounds == m.bounds {
      if m in now[|first|..] {
        var x :| x in writes && x.target == m && x.source.bounds == m.bounds;
        assert x in more;
      } else {
        assert Wrote(source[n], made) in more;
      }
    }
  }

  /** A partition that is not selected, or that has neither rows nor a target. */
  lemma SkipKeepsRun(first: seq<Partition>, now: seq<Partition>, source: seq<Partition>, names: seq<string>,
                     writes: seq<Wrote>, n: nat)
    requires TableRun(first, now, source, names, writes, n) && SourceListing(source) && n < |source|
    requires source[n].name !in names || Answers(source[n], now, Absent)
    ensures TableRun(first, now, source, names, writes, n + 1)
  {
    assert source[..n + 1] == source[..n] + [source[n]];
    hide Answers;
    forall u | u in first && source[n].name in names ensures !Answers(source[n], first, Found(u)) {
      StillMatches(first, now, source, names, writes, n, u);
      AbsentNotFound(source[n], now, u);
    }
  }

  // ---------- Is a target written twice? ----------

  ghost predicate Twice(writes: seq<Wrote>, t: Partition) {
    exists j, k :: 0 <= j < k < |writes| && writes[j].target == t && writes[k].target == t
  }

  /** `p` has the range of `t`, and `u` its name and no range. */
  predicate Shares(p: Partition, u: Partition, t: Partition) {
    SameRange(p, t) && u.bounds.None? && u.name == t.name
  }

  /** Two selected source partitions share the target `t`. */
  ghost predicate SharedBy(source: seq<Partition>, names: seq<string>, t: Partition) {
    exists j, k :: 0 <= j < |source| && 0 <= k < |source| && source[j].name in names && source[k].name in names
      && Shares(source[j], source[k], t)
  }

  /** The preflight's verdict on a table: every selected partition has a target, or has none
      and AUTO PARTITION may create it. */
  ghost predicate Matchable(source: seq<Partition>, names: seq<string>, targets: seq<Partition>, auto: bool) {
    forall p | p in source && p.name in names ::
      (exists t :: t in targets && Answers(p, targets, Found(t))) || (auto && Answers(p, targets, Absent))
  }

  lemma BothFound(p: Partition, u: Partition, targets: seq<Partition>, t: Partition)
    requires UniqueNames(targets) && p.name != u.name && t in targets
    requires p.bounds.Some? ==> p.bounds != u.bounds
    requires Answers(p, targets, Found(t)) && Answers(u, targets, Found(t))
    ensures Shares(p, u, t) || Shares(u, p, t)
  {
    SharedIff(p, u, targets, t);
  }

  lemma SharingFound(p: Partition, u: Partition, targets: seq<Partition>, t: Partition)
    requires UniqueNames(targets) && p.name != u.name && t in targets && Shares(p, u, t)
    requires (exists r :: Answers(p, targets, r) && r != Ambiguous) && exists r :: Answers(u, targets, r) && r != Ambiguous
    ensures Answers(p, targets, Found(t)) && Answers(u, targets, Found(t))
  {
    SharedIff(p, u, targets, t);
  }

  lemma MatchableNotAmbiguous(source: seq<Partition>, names: seq<string>, targets: seq<Partition>, auto: bool, p: Partition)
    requires Matchable(source, names, targets, auto) && p in source && p.name in names
    ensures exists r :: Answers(p, targets, r) && r != Ambiguous
  {
    if t :| t in targets && Answers(p, targets, Found(t)) {
      assert Found(t) != Ambiguous;
    } else {
      assert Answers(p, targets, Absent) && Absent != Ambiguous;
    }
  }

  lemma SourcesApart(source: seq<Partition>, p: Partition, u: Partition)
    requires SourceListing(source) && p in source && u in source && p != u
    ensures p.name != u.name && (p.bounds.Some? ==> p.bounds != u.bounds)
  {
    var j :| 0 <= j < |source| && source[j] == p;
    var k :| 0 <= k < |source| && source[k] == u;
  }

  /** However far a run came, a target is written twice only if two selected partitions
      share it. */
  lemma TwiceIsShared(first: seq<Partition>, now: seq<Partition>, source: seq<Partition>, names: seq<string>,
                      writes: seq<Wrote>, n: nat, t: Partition)
    requires TableRun(first, now, source, names, writes, n) && SourceListing(source) && Twice(writes, t)
    ensures SharedBy(source, names, t)
  {
    hide Answers;
    var j, k :| 0 <= j < k < |writes| && writes[j].target == t && writes[k].target == t;
    var p, u := writes[j].source, writes[k].source;
    assert writes[j] in writes && writes[k] in writes;
    SourcesApart(source, p, u);
    BothFound(p, u, now, t);
    var a :| 0 <= a < |source| && source[a] == p;
    var b :| 0 <= b < |source| && source[b] == u;
    assert Shares(source[a], source[b], t) || Shares(source[b], source[a], t);
  }

  /** Once a table is completed, a target that was there before is written twice if and only
      if two selected partitions share it: which can be seen before the run. */
  lemma WrittenTwiceIff(first: seq<Partition>, now: seq<Partition>, source: seq<Partition>, names: seq<string>,
                        writes: seq<Wrote>, auto: bool, t: Partition)
    requires TableRun(first, now, source, names, writes, |source|) && SourceListing(source)
    requires UniqueNames(first) && Matchable(source, names, first, auto) && t in first
    ensures Twice(writes, t) <==> SharedBy(source, names, t)
  {
    hide Answers, TableRun, Matchable;
    if Twice(writes, t) { TwiceIsShared(first, now, source, names, writes, |source|, t); }
    if SharedBy(source, names, t) {
      var a, b :| 0 <= a < |source| && 0 <= b < |source| && source[a].name in names && source[b].name in names
        && Shares(source[a], source[b], t);
      SourcesApart(source, source[a], source[b]);
      MatchableNotAmbiguous(source, names, first, auto, source[a]);
      MatchableNotAmbiguous(source, names, first, auto, source[b]);
      SharingFound(source[a], source[b], first, t);
      BothWritten(first, now, source, names, writes, a, b, t);
    }
  }

  lemma BothWritten(first: seq<Partition>, now: seq<Partition>, source: seq<Partition>, names: seq<string>,
                    writes: seq<Wrote>, a: nat, b: nat, t: Partition)
    requires TableRun(first, now, source, names, writes, |source|) && t in first && a < |source| && b < |source|
    requires source[a].name in names && source[b].name in names && source[a] != source[b]
    requires Answers(source[a], first, Found(t)) && Answers(source[b], first, Found(t))
    ensures Twice(writes, t)
  {
    hide Answers;
    assert Wrote(source[a], t) in writes && Wrote(source[b], t) in writes;
    var j :| 0 <= j < |writes| && writes[j] == Wrote(source[a], t);
    var k :| 0 <= k < |writes| && writes[k] == Wrote(source[b], t);
    assert j < k || k < j;
  }

  // An accepted selection that writes one target twice: p has the range of the target q, and
  // q, which has none, its name.

  const P := Partition("p", Some("R"))
  const Q := Partition("q", None)
  const TARGET := Partition("q", Some("R"))

  lemma WrittenTwiceHappens()
    ensures SourceListing([P, Q]) && UniqueNames([TARGET]) && DistinctNames(["p", "q"])
    ensures Matchable([P, Q], ["p", "q"], [TARGET], false) && SharedBy([P, Q], ["p", "q"], TARGET)
  {
    var targets := [TARGET];
    assert targets[0] == TARGET && TARGET in targets;
    assert Answers(P, targets, Found(TARGET));
    assert LastNamed(Q, targets, TARGET) && Answers(Q, targets, Found(TARGET));
    var names := ["p", "q"];
    assert names[0] == "p" && names[1] == "q";
    assert Shares([P, Q][0], [P, Q][1], TARGET);
  }

  // ---------- Target tables ----------

  datatype TargetTable = TargetTable(db: string, table: string)

  function TargetOf(item: Item): TargetTable {
    TargetTable(item.targetDB, item.table)
  }

  ghost predicate DistinctTargets(plan: seq<Item>) {
    forall j, k :: 0 <= j < k < |plan| ==> TargetOf(plan[j]) != TargetOf(plan[k])
  }

  /** In a plan that was accepted no two items write one target table. */
  lemma ValidIsDistinct(plan: seq<Item>, mappings: seq<(string, string)>)
    requires PlanValid(plan, mappings)
    ensures DistinctTargets(plan)
  {
    forall j, k | 0 <= j < k < |plan| ensures TargetOf(plan[j]) != TargetOf(plan[k]) {
      assert TargetKey(plan[j]) != TargetKey(plan[k]);
    }
  }

  function PartsOf(targets: map<TargetTable, seq<Partition>>, item: Item): seq<Partition> {
    if TargetOf(item) in targets then targets[TargetOf(item)] else []
  }

  /** The listings of the items' target tables, item by item. */
  function AllParts(plan: seq<Item>, targets: map<TargetTable, seq<Partition>>): (r: seq<seq<Partition>>)
    ensures |r| == |plan| && forall k | 0 <= k < |plan| :: r[k] == PartsOf(targets, plan[k])
  {
    seq(|plan|, k requires 0 <= k < |plan| => PartsOf(targets, plan[k]))
  }

  /** What happens to one item's target table does not show in any other's. */
  lemma PartsStep(plan: seq<Item>, targets: map<TargetTable, seq<Partition>>, k: nat, listing: seq<Partition>)
    requires DistinctTargets(plan) && k < |plan|
    ensures AllParts(plan, targets[TargetOf(plan[k]) := listing]) == AllParts(plan, targets)[k := listing]
  {
  }

  /** A table that was checked exists in the target. */
  ghost predicate Present(plan: seq<Item>, targets: map<TargetTable, seq<Partition>>, log: seq<Event>) {
    forall k | 0 <= k < |plan| && Checked(k) in log :: TargetOf(plan[k]) in targets
  }

  /** All that was written to a target table, whichever item asked for it. */
  function WritesTo(log: seq<Event>, plan: seq<Item>, t: TargetTable): seq<Wrote> {
    if log == [] then []
    else
      var e := log[|log| - 1];
      WritesTo(log[..|log| - 1], plan, t)
      + if e.table < |plan| && TargetOf(plan[e.table]) == t then Effect(e, e.table) else []
  }

  /** It was asked for by one item. */
  lemma {:induction false} OneItemWrites(log: seq<Event>, plan: seq<Item>, k: nat)
    requires DistinctTargets(plan) && k < |plan|
    ensures WritesTo(log, plan, TargetOf(plan[k])) == Writes(log, k)
  {
    if log != [] {
      OneItemWrites(log[..|log| - 1], plan, k);
      var e := log[|log| - 1];
      if e.table < |plan| && e.table != k { assert TargetOf(plan[e.table]) != TargetOf(plan[k]); }
    }
  }

  // ---------- The log ----------

  ghost predicate AllChecked(log: seq<Event>, n: nat) {
    forall k | 0 <= k < n :: Checked(k) in log
  }

  ghost predicate OnlyChecked(log: seq<Event>) {
    forall e | e in log :: e.Checked?
  }

  predicate IsStatement(e: Event) {
    e.Overwrote? || e.Inserted?
  }

  /** Nothing is removed, exported or written before the last table was checked. */
  ghost predicate TwoPhases(log: seq<Event>, n: nat) {
    && (forall i, j :: 0 <= i < j < |log| && log[j].Checked? ==> log[i].Checked?)
    && (OnlyChecked(log) || AllChecked(log, n))
  }

  /** Then the tables follow each other, up to `done`. */
  ghost predicate InTurn(log: seq<Event>, n: nat, done: nat) {
    && (forall e | e in log && !e.Checked? :: e.table <= done && e.table < n)
    && forall i, j :: 0 <= i < j < |log| && !log[i].Checked? ==> log[i].table <= log[j].table
  }

  /** Every statement is preceded by the export of its partition. */
  ghost predicate ExportFirst(log: seq<Event>) {
    forall j :: 0 <= j < |log| && IsStatement(log[j]) ==> Exported(log[j].table, log[j].source) in log[..j]
  }

  ghost predicate LogValid(log: seq<Event>, n: nat, done: nat) {
    TwoPhases(log, n) && InTurn(log, n, done) && ExportFirst(log)
  }

  lemma PhasesStep(log: seq<Event>, n: nat, e: Event)
    requires TwoPhases(log, n) && AllChecked(log, n) && !e.Checked?
    ensures TwoPhases(log + [e], n) && AllChecked(log + [e], n)
  {
  }

  lemma InTurnStep(log: seq<Event>, n: nat, done: nat, e: Event)
    requires InTurn(log, n, done) && !e.Checked? && e.table == done < n
    ensures InTurn(log + [e], n, done)
  {
    var more := log + [e];
    forall i, j | 0 <= i < j < |more| && !more[i].Checked? ensures more[i].table <= more[j].table {
      assert more[i] in log;
    }
  }

  lemma ExportFirstStep(log: seq<Event>, e: Event)
    requires ExportFirst(log) && (IsStatement(e) ==> Exported(e.table, e.source) in log)
    ensures ExportFirst(log + [e])
  {
    var more := log + [e];
    forall j | 0 <= j < |more| && IsStatement(more[j]) ensures Exported(more[j].table, more[j].source) in more[..j] {
      assert more[..j] == log[..j];
    }
  }

  lemma LogStep(log: seq<Event>, n: nat, done: nat, e: Event)
    requires LogValid(log, n, done) && AllChecked(log, n) && !e.Checked? && e.table == done < n
    requires IsStatement(e) ==> Exported(e.table, e.source) in log
    ensures LogValid(log + [e], n, done) && AllChecked(log + [e], n)
  {
    hide TwoPhases, InTurn, ExportFirst, AllChecked;
    PhasesStep(log, n, e);
    InTurnStep(log, n, done, e);
    ExportFirstStep(log, e);
  }

  lemma CheckStep(log: seq<Event>, n: nat, k: nat)
    requires LogValid(log, n, 0) && OnlyChecked(log) && AllChecked(log, k)
    ensures LogValid(log + [Checked(k)], n, 0) && OnlyChecked(log + [Checked(k)]) && AllChecked(log + [Checked(k)], k + 1)
  {
    var more := log + [Checked(k)];
    assert more[|log|] == Checked(k);
    assert forall j | 0 <= j < |more| :: more[j] in more;
  }

  lemma NotChecked(log: seq<Event>, n: nat, k: nat)
    requires |log| == k < n && forall j | 0 <= j < k :: log[j] == Checked(j)
    ensures !AllChecked(log, n)
  {
    assert Checked(k) !in log;
  }

  lemma DoneStep(log: seq<Event>, n: nat, done: nat)
    requires LogValid(log, n, done)
    ensures LogValid(log, n, done + 1)
  {
  }

  // ---------- All tables ----------

  /** Each selected partition so far was written, or had neither rows nor a target. */
  ghost predicate Handled(log: seq<Event>, table: nat, source: seq<Partition>, names: seq<string>, n: nat) {
    n <= |source| && forall k | 0 <= k < n && source[k].name in names :: Dealt(log, table, source[k])
  }

  ghost predicate Dealt(log: seq<Event>, table: nat, p: Partition) {
    Skipped(table, p) in log || exists x :: x in Writes(log, table) && x.source == p
  }

  lemma DealtStays(log: seq<Event>, e: Event, table: nat, p: Partition)
    requires Dealt(log, table, p)
    ensures Dealt(log + [e], table, p)
  {
    WritesNext(log, e, table);
    if x :| x in Writes(log, table) && x.source == p { assert x in Writes(log + [e], table); }
  }

  /** Every table of the plan is as far as `progress` says. */
  ghost predicate Tables(first: seq<seq<Partition>>, now: seq<seq<Partition>>, source: seq<seq<Partition>>,
                         plan: seq<Item>, log: seq<Event>, progress: seq<nat>)
  {
    && |first| == |now| == |source| == |plan| == |progress|
    && forall k | 0 <= k < |plan| ::
         && TableRun(first[k], now[k], source[k], plan[k].partitions, Writes(log, k), progress[k])
         && Handled(log, k, source[k], plan[k].partitions, progress[k])
  }

  lemma TablesStep(first: seq<seq<Partition>>, now: seq<seq<Partition>>, source: seq<seq<Partition>>, plan: seq<Item>,
                   log: seq<Event>, progress: seq<nat>, e: Event, listing: seq<Partition>, n: nat)
    requires Tables(first, now, source, plan, log, progress) && e.table < |plan|
    requires TableRun(first[e.table], listing, source[e.table], plan[e.table].partitions,
                      Writes(log, e.table) + Effect(e, e.table), n)
    requires n <= |source[e.table]|
    requires n == progress[e.table]
             || (n == progress[e.table] + 1
                 && (source[e.table][n - 1].name in plan[e.table].partitions ==>
                       Dealt(log + [e], e.table, source[e.table][n - 1])))
    ensures Tables(first, now[e.table := listing], source, plan, log + [e], progress[e.table := n])
  {
    hide TableRun, Dealt, Handled, Writes;
    forall k | 0 <= k < |plan|
      ensures Handled(log + [e], k, source[k], plan[k].partitions, progress[e.table := n][k])
      ensures Writes(log + [e], k) == if k == e.table then Writes(log, k) + Effect(e, k) else Writes(log, k)
    {
      WritesNext(log, e, k);
      HandledStep(log, e, k, source[k], plan[k].partitions, progress[k], if k == e.table then n else progress[k]);
    }
  }

  lemma HandledStep(log: seq<Event>, e: Event, table: nat, source: seq<Partition>, names: seq<string>, n: nat, m: nat)
    requires Handled(log, table, source, names, n)
    requires m == n || (n < |source| && m == n + 1 && (source[n].name in names ==> Dealt(log + [e], table, source[n])))
    ensures Handled(log + [e], table, source, names, m)
  {
    hide Dealt;
    forall k | 0 <= k < n && source[k].name in names ensures Dealt(log + [e], table, source[k]) {
      DealtStays(log, e, table, source[k]);
    }
  }

  class Runner {
    const plan: seq<Item>
    const source: seq<seq<Partition>>      // each table's source partitions, in their order
    const holds: seq<map<Partition, Bag>>  // what they hold; a partition without an entry holds no row
    const auto: seq<bool>                  // whether each target table is AUTO PARTITION
    ghost const first: map<TargetTable, seq<Partition>> // each target table's partitions before the run
    var targets: map<TargetTable, seq<Partition>>       // and now
    var partitions: seq<string>            // options.Partitions, which both loops set
    ghost var log: seq<Event>
    ghost var done: nat                    // tables completed
    ghost var progress: seq<nat>           // source partitions dealt with, table by table
    ghost var faults: nat                  // foreign calls that failed

    ghost predicate Sized()
      reads `progress
    {
      |source| == |holds| == |auto| == |progress| == |plan|
    }

    /** The listing of the target table of item `k`. */
    function Target(k: nat): seq<Partition>
      reads `targets
      requires k < |plan|
    {
      PartsOf(targets, plan[k])
    }

    ghost function First(k: nat): seq<Partition>
      requires k < |plan|
    {
      PartsOf(first, plan[k])
    }

    /** What a source partition holds. */
    function Rows(k: nat, p: Partition): Bag {
      if k < |holds| && p in holds[k] then holds[k][p] else multiset{}
    }

    /** Only partitions without rows were skipped. */
    ghost predicate SkipsEmpty()
      reads `log
    {
      forall e | e in log && e.Skipped? :: Rows(e.table, e.source) == multiset{}
    }

    ghost predicate Valid()
      reads `targets, `log, `progress, `done
    {
      && Sized() && DistinctTargets(plan)
      && Tables(AllParts(plan, first), AllParts(plan, targets), source, plan, log, progress)
      && (forall k | 0 <= k < |plan| :: SourceListing(source[k]) && UniqueNames(First(k)))
      && Present(plan, targets, log) && SkipsEmpty()
      && LogValid(log, |plan|, done)
    }

    /** A plan that was accepted: its items write distinct target tables. */
    constructor (plan: seq<Item>, ghost mappings: seq<(string, string)>, source: seq<seq<Partition>>,
                 holds: seq<map<Partition, Bag>>, targets: map<TargetTable, seq<Partition>>, auto: seq<bool>)
      requires PlanValid(plan, mappings) && |plan| == |source| == |holds| == |auto|
      requires forall k | 0 <= k < |plan| :: SourceListing(source[k]) && UniqueNames(PartsOf(targets, plan[k]))
      ensures Valid() && Sized() && log == [] && done == 0 && progress == seq(|plan|, _ => 0)
      ensures this.plan == plan && this.source == source && first == targets && this.targets == targets && this.auto == auto
      ensures this.holds == holds && faults == 0
    {
      ValidIsDistinct(plan, mappings);
      this.plan, this.source, this.holds, this.auto, this.first, this.targets := plan, source, holds, auto, targets, targets;
      partitions, log, done, progress, faults := [], [], 0, seq(|plan|, _ => 0), 0;
    }

    /** A foreign call, or a look whether the run is cancelled. */
    method Call() returns (ok: bool)
      modifies `faults
      ensures faults == old(faults) + if ok then 0 else 1
    {
      ok := *;
      if !ok { faults := faults + 1; }
    }

    /** Why a preflight refuses a table though every foreign call is answered: there is no
        such target table, a listed partition is not in the source, or one has no target and
        cannot get one. */
    ghost predicate Refused(k: nat)
      reads `targets
      requires Sized() && k < |plan|
      reads `progress
    {
      || TargetOf(plan[k]) !in targets
      || (exists name :: name in plan[k].partitions && forall p | p in source[k] :: p.name != name)
      || Unmatched(k)
    }

    /** A selected partition whose target is ambiguous, has another range, or is missing in a
        table that is not AUTO PARTITION. */
    ghost predicate Unmatched(k: nat)
      reads `targets, `progress
      requires Sized() && k < |plan|
    {
      exists p :: p in source[k] && p.name in plan[k].partitions && Unmatchable(p, Target(k), auto[k])
    }

    /** ensureTargetTable in a forced run, and the checks around it: they only read. Every
        listed partition is in the source, and has a target or may get one. */
    method Preflight(k: nat) returns (ok: bool)
      requires Valid() && Sized() && k < |plan| && done == 0 && OnlyChecked(log) && AllChecked(log, k)
      modifies `partitions, `log, `faults
      ensures Valid() && Sized() && OnlyChecked(log) && log == old(log) + if ok then [Checked(k)] else []
      ensures ok ==> AllChecked(log, k + 1) && Matchable(source[k], plan[k].partitions, Target(k), auto[k])
      ensures faults >= old(faults) && (!ok ==> faults > old(faults) || Refused(k))
      ensures ok ==> forall name | name in plan[k].partitions :: exists p :: p in source[k] && p.name == name
    {
      hide Tables, LogValid, Answers;
      partitions := plan[k].partitions;
      var readable := Call();
      if !readable || TargetOf(plan[k]) !in targets { return false; }
      ok := MatchAll(source[k], partitions, Target(k), auto[k]);
      if !ok { return false; }
      ok := SeeAll(partitions, source[k]);
      if !ok { return false; }
      CheckedKeepsTables(AllParts(plan, first), AllParts(plan, targets), source, plan, log, progress, k);
      CheckStep(log, |plan|, k);
      log := log + [Checked(k)];
    }

    /** Something happens to the table at hand. */
    method Record(k: nat, ghost e: Event, listing: seq<Partition>, ghost n: nat)
      requires Valid() && Sized() && AllChecked(log, |plan|) && !e.Checked? && e.table == k == done < |plan|
      requires IsStatement(e) ==> Exported(e.table, e.source) in log
      requires e.Skipped? ==> Rows(k, e.source) == multiset{}
      requires n <= |source[done]|
      requires TableRun(First(done), listing, source[done], plan[done].partitions, Writes(log, done) + Effect(e, done), n)
      requires n == progress[done]
               || (n == progress[done] + 1
                   && (source[done][n - 1].name in plan[done].partitions ==> Dealt(log + [e], done, source[done][n - 1])))
      modifies `log, `targets, `progress
      ensures Valid() && Sized() && AllChecked(log, |plan|) && log == old(log) + [e]
      ensures targets == old(targets)[TargetOf(plan[k]) := listing] && progress == old(progress)[done := n]
    {
      hide LogValid, TableRun, AllChecked, Dealt, SourceListing, UniqueNames, Handled, Tables, Writes, Effect;
      PartsStep(plan, targets, k, listing);
      TablesStep(AllParts(plan, first), AllParts(plan, targets), source, plan, log, progress, e, listing, n);
      LogStep(log, |plan|, done, e);
      targets := targets[TargetOf(plan[k]) := listing];
      log, progress := log + [e], progress[done := n];
    }

    lemma IsThere(k: nat)
      requires Valid() && k < |plan| && AllChecked(log, |plan|)
      ensures TargetOf(plan[k]) in targets
    {
    }

    /** What holds of the table at hand. */
    lemma TableAt(k: nat)
      requires Valid() && Sized() && k < |plan|
      ensures TableRun(First(k), Target(k), source[k], plan[k].partitions, Writes(log, k), progress[k])
      ensures SourceListing(source[k]) && UniqueNames(First(k)) && UniqueNames(Target(k)) && progress[k] <= |source[k]|
      ensures DistinctTargets(plan)
    {
    }

    /** The backup of one partition: its prefix is cleared, then it is exported. Either may
        fail, before or after. */
    method Export(k: nat, n: nat) returns (ok: bool)
      requires Valid() && Sized() && AllChecked(log, |plan|) && k == done < |plan| && n == progress[k] < |source[k]|
      modifies `faults, `log, `targets, `progress
      ensures Valid() && Sized() && AllChecked(log, |plan|) && old(log) <= log && targets == old(targets) && progress == old(progress)
      ensures faults >= old(faults) && (if ok then Exported(k, source[k][n]) in log else faults > old(faults))
    {
      hide LogValid, TableRun, AllChecked, Dealt, Tables, SourceListing, UniqueNames, Valid, Writes;
      IsThere(k);
      TableAt(k);
      var begun := Call();
      if !begun { return false; }
      NoEffect(Writes(log, k), Cleared(k, source[k][n]), k);
      Record(k, Cleared(k, source[k][n]), Target(k), n);
      TableAt(k);
      var submitted := Call();
      if !submitted { return false; }
      NoEffect(Writes(log, k), Exported(k, source[k][n]), k);
      Record(k, Exported(k, source[k][n]), Target(k), n);
      ok := Call();
    }

    /** INSERT OVERWRITE of the target partition that was found. */
    method Overwrite(k: nat, n: nat, t: Partition) returns (ok: bool)
      requires Valid() && Sized() && AllChecked(log, |plan|) && k == done < |plan| && n == progress[k] < |source[k]|
      requires source[k][n].name in plan[k].partitions && Exported(k, source[k][n]) in log
      requires Answers(source[k][n], Target(k), Found(t))
      modifies `faults, `log, `targets, `progress
      ensures Valid() && Sized() && AllChecked(log, |plan|) && old(log) <= log
      ensures targets == old(targets)[TargetOf(plan[k]) := Target(k)] && progress == old(progress)[k := progress[k]]
      ensures progress[k] == n + 1 && faults == old(faults) + if ok then 0 else 1
    {
      hide LogValid, TableRun, AllChecked, Dealt, Tables, SourceListing, UniqueNames, Valid, Answers;
      IsThere(k);
      var p := source[k][n];
      TableAt(k);
      FoundIsThere(p, Target(k), t);
      OverwriteKeepsRun(First(k), Target(k), source[k], plan[k].partitions, Writes(log, k), n, t);
      WroteIsDealt(log, Overwrote(k, p, t), k, p, t);
      Record(k, Overwrote(k, p, t), Target(k), n + 1);
      ok := Call();
    }

    /** INSERT OVERWRITE PARTITION(*) where there is no target: it may fail, leave no
        partition that matches, or make one. */
    method Insert(k: nat, n: nat) returns (ok: bool)
      requires Valid() && Sized() && AllChecked(log, |plan|) && k == done < |plan| && n == progress[k] < |source[k]|
      requires source[k][n].name in plan[k].partitions && Exported(k, source[k][n]) in log
      requires Answers(source[k][n], Target(k), Absent)
      modifies `faults, `log, `targets, `progress
      ensures Valid() && Sized() && AllChecked(log, |plan|) && old(log) <= log
      ensures targets == old(targets)[TargetOf(plan[k]) := Target(k)] && progress == old(progress)[k := progress[k]]
      ensures if ok then progress[k] == n + 1 else progress[k] in {n, n + 1}
      ensures faults == old(faults) + if ok then 0 else 1
    {
      hide LogValid, TableRun, AllChecked, Dealt, Tables, SourceListing, UniqueNames, Valid, Answers, Makes, Writes;
      IsThere(k);
      var p := source[k][n];
      TableAt(k);
      var made := AutoPartition(p, Target(k));
      if made.None? {
        NoEffect(Writes(log, k), Inserted(k, p, None), k);
        Record(k, Inserted(k, p, None), Target(k), n);
        faults := faults + 1;
        return false;
      }
      InsertKeepsRun(First(k), Target(k), source[k], plan[k].partitions, Writes(log, k), n, made.value);
      WroteIsDealt(log, Inserted(k, p, made), k, p, made.value);
      Record(k, Inserted(k, p, made), Target(k) + [made.value], n + 1);
      ok := Call();
    }

    /** No rows and no target: nothing to do. */
    method Skip(k: nat, n: nat)
      requires Valid() && Sized() && AllChecked(log, |plan|) && k == done < |plan| && n == progress[k] < |source[k]|
      requires Answers(source[k][n], Target(k), Absent) && Rows(k, source[k][n]) == multiset{}
      modifies `log, `targets, `progress
      ensures Valid() && Sized() && AllChecked(log, |plan|) && old(log) <= log
      ensures targets == old(targets) && progress == old(progress)[k := n + 1]
    {
      hide LogValid, TableRun, AllChecked, Tables, SourceListing, UniqueNames, Valid, Answers;
      IsThere(k);
      TableAt(k);
      SkipKeepsRun(First(k), Target(k), source[k], plan[k].partitions, Writes(log, k), n);
      assert (log + [Skipped(k, source[k][n])])[|log|] == Skipped(k, source[k][n]);
      NoEffect(Writes(log, k), Skipped(k, source[k][n]), k);
      Record(k, Skipped(k, source[k][n]), Target(k), n + 1);
    }

    /** One partition of a forced run: export it, look its target up, and overwrite that;
        where there is none, let AUTO PARTITION make one, unless there are no rows. */
    method SyncPart(k: nat, n: nat) returns (ok: bool)
      requires Valid() && Sized() && AllChecked(log, |plan|) && k == done < |plan| && n == progress[k] < |source[k]|
      requires source[k][n].name in plan[k].partitions
      modifies `faults, `log, `targets, `progress
      ensures Valid() && Sized() && AllChecked(log, |plan|) && old(log) <= log
      ensures targets == old(targets)[TargetOf(plan[k]) := Target(k)] && progress == old(progress)[k := progress[k]]
      ensures if ok then progress[k] == n + 1 else progress[k] in {n, n + 1}
      ensures faults >= old(faults) && (!ok ==> faults > old(faults) || Unmatched(k))
    {
      hide Tables, LogValid, Answers, TableRun, AllChecked, UniqueNames, SourceListing, Valid;
      IsThere(k);
      TableAt(k);
      var p := source[k][n];
      var exported := Export(k, n);
      if !exported { return false; }
      var empty := Rows(k, p) == multiset{};
      var r := MatchTargetPartition(p, Target(k));
      match r {
        case Found(t) => ok := Overwrite(k, n, t);
        case Absent =>
          if !auto[k] {
            ok := false;
          } else if empty {
            Skip(k, n);
            ok := true;
          } else {
            ok := Insert(k, n);
          }
        case _ => ok := false;
      }
    }

    /** A source partition that is not selected. */
    method Pass(k: nat, n: nat)
      requires Valid() && Sized() && k == done < |plan| && n == progress[k] < |source[k]|
      requires source[k][n].name !in plan[k].partitions
      modifies `progress
      ensures Valid() && Sized() && progress == old(progress)[k := n + 1]
    {
      hide LogValid, TableRun, AllChecked, Tables, SourceListing, UniqueNames, Handled, Writes, Answers;
      TableAt(k);
      SkipKeepsRun(First(k), Target(k), source[k], plan[k].partitions, Writes(log, k), n);
      TablesPass(AllParts(plan, first), AllParts(plan, targets), source, plan, log, progress, k, n);
      progress := progress[k := n + 1];
    }

    /** syncTable on one table of the plan: its source partitions in order, each that is
        selected synced once; the first failure ends it. */
    method SyncTable(k: nat) returns (ok: bool)
      requires Valid() && Sized() && AllChecked(log, |plan|) && k == done < |plan| && progress[k] == 0
      requires partitions == plan[k].partitions
      modifies `faults, `log, `targets, `progress, `done
      ensures Valid() && Sized() && AllChecked(log, |plan|) && old(log) <= log
      ensures targets == old(targets)[TargetOf(plan[k]) := Target(k)] && progress == old(progress)[k := progress[k]]
      ensures done == k + if ok then 1 else 0
      ensures ok ==> progress[k] == |source[k]|
      ensures faults >= old(faults) && (!ok ==> faults > old(faults) || Unmatched(k))
    {
      hide LogValid, AllChecked, Valid;
      IsThere(k);
      for n := 0 to |source[k]|
        invariant Valid() && Sized() && AllChecked(log, |plan|) && old(log) <= log && done == k && progress[k] == n
        invariant targets == old(targets)[TargetOf(plan[k]) := Target(k)] && progress == old(progress)[k := progress[k]]
        invariant faults >= old(faults)
      {
        if source[k][n].name in partitions {
          ok := SyncPart(k, n);
          if !ok { return; }
        } else {
          Pass(k, n);
        }
      }
      Finish();
      return true;
    }

    /** The table at hand is completed. */
    ghost method Finish()
      requires Valid() && done < |plan|
      modifies `done
      ensures Valid() && done == old(done) + 1
    {
      hide LogValid, Tables;
      DoneStep(log, |plan|, done);
      done := done + 1;
    }

    /** cycleOverwritePlan. Nothing is removed, exported or written before every table was
        checked; a failure leaves exactly the tables before it completed; and a target that
        was there is written twice only where two selected partitions share it. */
    method CycleOverwritePlan() returns (ok: bool)
      requires Valid() && Sized() && log == [] && done == 0 && targets == first
      requires forall k | 0 <= k < |plan| :: progress[k] == 0
      modifies this
      ensures Valid() && Sized() && done <= |plan| && (ok <==> done == |plan|)
      ensures !AllChecked(log, |plan|) ==> OnlyChecked(log) && targets == first && done == 0
      ensures forall k | 0 <= k < done :: progress[k] == |source[k]|
      ensures forall k, t | 0 <= k < |plan| && Twice(WritesTo(log, plan, TargetOf(plan[k])), t) ::
                SharedBy(source[k], plan[k].partitions, t)
      ensures forall k, t | 0 <= k < done && t in First(k) ::
                Twice(WritesTo(log, plan, TargetOf(plan[k])), t) <==> SharedBy(source[k], plan[k].partitions, t)
      ensures forall k, p | 0 <= k < done && p in source[k] && p.name in plan[k].partitions && Rows(k, p) != multiset{} ::
                exists x :: x in WritesTo(log, plan, TargetOf(plan[k])) && x.source == p
      ensures !ok ==> faults > old(faults) || exists k :: 0 <= k < |plan| && Refused(k)
    {
      hide LogValid, Valid, Twice, SharedBy, Writes, WritesTo, Refused, AllChecked, OnlyChecked;
      ok := PreflightAll();
      if ok {
        ok := SyncAll();
      }
      TwiceOnlyShared();
      TwiceIff();
      RowsWritten();
    }

    /** The first loop. */
    method PreflightAll() returns (ok: bool)
      requires Valid() && Sized() && log == [] && done == 0
      modifies `partitions, `log, `faults
      ensures Valid() && Sized() && OnlyChecked(log) && faults >= old(faults)
      ensures (ok <==> AllChecked(log, |plan|)) && (!ok ==> |plan| > 0)
      ensures ok ==> forall j | 0 <= j < |plan| :: Matchable(source[j], plan[j].partitions, Target(j), auto[j])
      ensures !ok ==> faults > old(faults) || exists k :: 0 <= k < |plan| && Refused(k)
    {
      hide LogValid, Valid, Matchable, Refused;
      for k := 0 to |plan|
        invariant Valid() && Sized() && OnlyChecked(log) && AllChecked(log, k) && |log| == k && faults >= old(faults)
        invariant forall j | 0 <= j < k :: log[j] == Checked(j)
        invariant forall j | 0 <= j < k :: Matchable(source[j], plan[j].partitions, Target(j), auto[j])
      {
        ok := Call();
        if ok { ok := Preflight(k); }
        if !ok {
          NotChecked(log, |plan|, k);
          return;
        }
      }
      return true;
    }

    /** The second loop. */
    method SyncAll() returns (ok: bool)
      requires Valid() && Sized() && AllChecked(log, |plan|) && done == 0
      requires forall k | 0 <= k < |plan| :: progress[k] == 0
      modifies this
      ensures Valid() && Sized() && done <= |plan| && (ok <==> done == |plan|) && AllChecked(log, |plan|) && old(log) <= log
      ensures forall k | 0 <= k < done :: progress[k] == |source[k]|
      ensures faults >= old(faults) && (!ok ==> faults > old(faults) || exists k :: 0 <= k < |plan| && Refused(k))
    {
      hide LogValid, Valid, AllChecked, Unmatched;
      for k := 0 to |plan|
        invariant Valid() && Sized() && done == k && AllChecked(log, |plan|) && old(log) <= log && faults >= old(faults)
        invariant forall j | k <= j < |plan| :: progress[j] == 0
        invariant forall j | 0 <= j < k :: progress[j] == |source[j]|
      {
        partitions := plan[k].partitions;
        ok := SyncTable(k);
        if !ok {
          assert faults > old(faults) || Refused(k);
          return;
        }
      }
      return true;
    }

    /** Every selected partition with rows of a completed table was written. */
    lemma RowsWritten()
      requires Valid() && Sized() && done <= |plan| && forall j | 0 <= j < done :: progress[j] == |source[j]|
      ensures forall k, p | 0 <= k < done && p in source[k] && p.name in plan[k].partitions && Rows(k, p) != multiset{} ::
                exists x :: x in WritesTo(log, plan, TargetOf(plan[k])) && x.source == p
    {
      hide TableRun, LogValid, Writes, WritesTo, SourceListing, UniqueNames;
      forall k, p | 0 <= k < done && p in source[k] && p.name in plan[k].partitions && Rows(k, p) != multiset{}
        ensures exists x :: x in WritesTo(log, plan, TargetOf(plan[k])) && x.source == p
      {
        OneItemWrites(log, plan, k);
        var n :| 0 <= n < |source[k]| && source[k][n] == p;
        assert Dealt(log, k, source[k][n]);
      }
    }

    lemma TwiceOnlyShared()
      requires Valid() && Sized()
      ensures forall k, t | 0 <= k < |plan| && Twice(WritesTo(log, plan, TargetOf(plan[k])), t) ::
                SharedBy(source[k], plan[k].partitions, t)
    {
      hide Valid, TableRun, Twice, SharedBy, Writes, WritesTo;
      forall k, t | 0 <= k < |plan| && Twice(WritesTo(log, plan, TargetOf(plan[k])), t)
        ensures SharedBy(source[k], plan[k].partitions, t)
      {
        TableAt(k);
        OneItemWrites(log, plan, k);
        TwiceIsShared(First(k), Target(k), source[k], plan[k].partitions, Writes(log, k), progress[k], t);
      }
    }

    lemma TwiceIff()
      requires Valid() && Sized() && done <= |plan| && forall j | 0 <= j < done :: progress[j] == |source[j]|
      requires forall j | 0 <= j < done :: Matchable(source[j], plan[j].partitions, First(j), auto[j])
      ensures forall k, t | 0 <= k < done && t in First(k) ::
                Twice(WritesTo(log, plan, TargetOf(plan[k])), t) <==> SharedBy(source[k], plan[k].partitions, t)
    {
      hide Valid, TableRun, Twice, SharedBy, Writes, WritesTo, Matchable;
      forall k, t | 0 <= k < done && t in First(k)
        ensures Twice(WritesTo(log, plan, TargetOf(plan[k])), t) <==> SharedBy(source[k], plan[k].partitions, t)
      {
        TableAt(k);
        OneItemWrites(log, plan, k);
        WrittenTwiceIff(First(k), Target(k), source[k], plan[k].partitions, Writes(log, k), auto[k], t);
      }
    }
  }

  lemma TablesPass(first: seq<seq<Partition>>, now: seq<seq<Partition>>, source: seq<seq<Partition>>, plan: seq<Item>,
                   log: seq<Event>, progress: seq<nat>, k: nat, n: nat)
    requires Tables(first, now, source, plan, log, progress) && k < |plan| && n == progress[k] < |source[k]|
    requires source[k][n].name !in plan[k].partitions
    requires TableRun(first[k], now[k], source[k], plan[k].partitions, Writes(log, k), n + 1)
    ensures Tables(first, now, source, plan, log, progress[k := n + 1])
  {
    hide TableRun, Writes, Dealt;
  }

  lemma WroteIsDealt(log: seq<Event>, e: Event, k: nat, p: Partition, t: Partition)
    requires Effect(e, k) == [Wrote(p, t)]
    ensures Dealt(log + [e], k, p)
  {
    WritesNext(log, e, k);
    assert Writes(log + [e], k)[|Writes(log, k)|] == Wrote(p, t);
  }

  lemma NoEffect(w: seq<Wrote>, e: Event, k: nat)
    requires Effect(e, k) == []
    ensures w + Effect(e, k) == w
  {
  }

  /** What the statement makes of the target table, as the lookup after it shows. */
  method AutoPartition(p: Partition, targets: seq<Partition>) returns (made: Option<Partition>)
    requires UniqueNames(targets)
    ensures made.Some? ==> Makes(p, targets, made.value)
  {
    hide Answers;
    var name: string := *;
    var t := Partition(name, p.bounds);
    var found := MatchTargetPartition(p, targets + [t]);
    if found != Found(t) || exists u :: u in targets && u.name == name { return None; }
    return Some(t);
  }

  ghost predicate Unmatchable(p: Partition, targets: seq<Partition>, auto: bool) {
    Answers(p, targets, Ambiguous) || Answers(p, targets, Differs) || (!auto && Answers(p, targets, Absent))
  }

  method MatchAll(source: seq<Partition>, names: seq<string>, targets: seq<Partition>, auto: bool) returns (ok: bool)
    ensures ok ==> Matchable(source, names, targets, auto)
    ensures !ok ==> exists p :: p in source && p.name in names && Unmatchable(p, targets, auto)
  {
    hide Answers;
    for i := 0 to |source|
      invariant Matchable(source[..i], names, targets, auto)
    {
      assert source[..i + 1] == source[..i] + [source[i]];
      if source[i].name in names {
        var r := MatchTargetPartition(source[i], targets);
        match r {
          case Found(t) => FoundIsThere(source[i], targets, t);
          case Absent =>
            if !auto {
              assert Unmatchable(source[i], targets, auto);
              return false;
            }
          case _ =>
            assert Unmatchable(source[i], targets, auto);
            return false;
        }
      }
    }
    assert source[..|source|] == source;
    return true;
  }

  lemma FoundIsThere(s: Partition, targets: seq<Partition>, t: Partition)
    requires Answers(s, targets, Found(t))
    ensures t in targets
  {
  }

  method SeeAll(names: seq<string>, source: seq<Partition>) returns (ok: bool)
    ensures ok <==> forall name | name in names :: exists p :: p in source && p.name == name
  {
    var seen: set<string> := set p | p in source :: p.name;
    for i := 0 to |names|
      invariant forall j | 0 <= j < i :: names[j] in seen
    {
      if names[i] !in seen {
        assert forall p | p in source :: p.name in seen;
        assert names[i] in names;
        return false;
      }
    }
    return true;
  }

  lemma CheckedKeepsTables(first: seq<seq<Partition>>, now: seq<seq<Partition>>, source: seq<seq<Partition>>,
                           plan: seq<Item>, log: seq<Event>, progress: seq<nat>, k: nat)
    requires Tables(first, now, source, plan, log, progress)
    ensures Tables(first, now, source, plan, log + [Checked(k)], progress)
  {
    hide TableRun, Handled, Writes;
    forall j | 0 <= j < |plan|
      ensures Handled(log + [Checked(k)], j, source[j], plan[j].partitions, progress[j])
      ensures Writes(log + [Checked(k)], j) == Writes(log, j)
    {
      WritesNext(log, Checked(k), j);
      HandledSame(log, Checked(k), j, source[j], plan[j].partitions, progress[j]);
    }
  }

  lemma HandledSame(log: seq<Event>, e: Event, table: nat, source: seq<Partition>, names: seq<string>, n: nat)
    requires Handled(log, table, source, names, n)
    ensures Handled(log + [e], table, source, names, n)
  {
    HandledStep(log, e, table, source, names, n, n);
  }
}
