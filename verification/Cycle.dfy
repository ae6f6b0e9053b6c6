/** main.go: cycle and run, over all tables. */
module Cycles {
  import opened Rows
  import opened Checkpoint
  import opened Outside
  import opened Sites
  import opened OverwriteSync
  import opened TableSync

  /** What ensureTargetTable reported of one table: to be synced, skipped, or an error,
      which may be that the inventory could not be saved. */
  datatype Check = Ready | Skipped | Broken(unsaved: bool)

  /** The sync of one table: which, how it ended, and what its listing of the source showed. */
  datatype Sync = Sync(table: nat, outcome: Outcome, listing: seq<Option<Identity>>)

  /** One cycle as it went: what each preflight reported, what each sync did, and whether
      the cycle gave up in between (cancelled, a foreign call failed, a selected partition
      not found). */
  datatype Trace = Trace(checks: seq<Check>, syncs: seq<Sync>, gaveUp: bool)

  /** The tables of a fleet are ranges of its partitions. */
  datatype Table = Table(lo: nat, hi: nat)

  ghost predicate TablesOf(tables: seq<Table>, n: nat) {
    forall k | 0 <= k < |tables| :: tables[k].lo <= tables[k].hi <= n
  }

  /** The tables that are ready, in order. */
  function ReadyOf(checks: seq<Check>): seq<nat> {
    if checks == [] then []
    else ReadyOf(checks[..|checks| - 1]) + if checks[|checks| - 1].Ready? then [|checks| - 1] else []
  }

  /** The syncs so far are those of the first ready tables. */
  ghost predicate InOrder(syncs: seq<Sync>, checks: seq<Check>) {
    |syncs| <= |ReadyOf(checks)| && forall k | 0 <= k < |syncs| :: syncs[k].table == ReadyOf(checks)[k]
  }

  /** A sync could not save; it is the last one. */
  predicate Unsaved(t: Trace) {
    t.syncs != [] && t.syncs[|t.syncs| - 1].outcome == NotPersisted
  }

  /** How a cycle over `n` tables may end. Only a sync that could not save, or in a forced
      run the preflight before it, makes the cycle report that; whatever else fails is
      counted, and the cycle goes on with the next table. */
  ghost predicate Ends(t: Trace, n: nat, force: bool, r: Outcome) {
    && |t.checks| <= n && InOrder(t.syncs, t.checks)
    && (t.syncs != [] ==> |t.checks| == n)
    && (forall k | 0 <= k < |t.syncs| - 1 :: t.syncs[k].outcome != NotPersisted)
    && (r == NotPersisted <==> Unsaved(t) || (force && t.checks != [] && t.checks[|t.checks| - 1] == Broken(true)))
    && (!t.gaveUp && r != NotPersisted && !force ==> |t.checks| == n && |t.syncs| == |ReadyOf(t.checks)|)
    && (r == Unchanged <==>
          && !t.gaveUp && |t.checks| == n && |t.syncs| == |ReadyOf(t.checks)|
          && (forall k | 0 <= k < |t.checks| :: !t.checks[k].Broken?)
          && forall k | 0 <= k < |t.syncs| :: t.syncs[k].outcome == Unchanged)
    && r in {Unchanged, Failed, NotPersisted}
  }

  /** What a sync that reported no failure did: every partition of its listing was
      attempted, and every partition whose source stayed as it was, for its identity. */
  ghost predicate Did(x: Sync, tables: seq<Table>, a: seq<World>, b: seq<World>, before: seq<seq<Identity>>,
                      after: seq<seq<Identity>>)
  {
    x.outcome == Unchanged ==>
      && x.table < |tables| && |x.listing| == tables[x.table].hi - tables[x.table].lo
      && Attempted(before, after, tables[x.table].lo, tables[x.table].hi, x.listing)
      && AllServed(a, b, before, after, tables[x.table].lo, tables[x.table].hi)
  }

  ghost predicate AllDid(syncs: seq<Sync>, tables: seq<Table>, a: seq<World>, b: seq<World>, before: seq<seq<Identity>>,
                         after: seq<seq<Identity>>)
  {
    forall x | x in syncs :: Did(x, tables, a, b, before, after)
  }

  /** A ready table whose sync reported no failure, seen from the whole cycle. */
  lemma DidAll(syncs: seq<Sync>, x: Sync, tables: seq<Table>, a: seq<World>, b: seq<World>, c: seq<World>,
               before: seq<seq<Identity>>, mid: seq<seq<Identity>>, after: seq<seq<Identity>>)
    requires Later(a, b) && Later(b, c) && Grown(before, mid) && Grown(mid, after)
    requires AllDid(syncs, tables, a, b, before, mid) && Did(x, tables, b, c, mid, after)
    ensures AllDid(syncs + [x], tables, a, c, before, after)
  {
    hide Did, Later, Grown;
    forall y | y in syncs ensures Did(y, tables, a, c, before, after) {
      DidLater(y, tables, a, b, c, before, mid, after);
    }
    DidEarlier(x, tables, a, b, c, before, mid, after);
  }

  lemma DidLater(x: Sync, tables: seq<Table>, a: seq<World>, b: seq<World>, c: seq<World>,
                 before: seq<seq<Identity>>, mid: seq<seq<Identity>>, after: seq<seq<Identity>>)
    requires Later(a, b) && Later(b, c) && Grown(mid, after) && Did(x, tables, a, b, before, mid)
    ensures Did(x, tables, a, c, before, after)
  {
    if x.outcome == Unchanged {
      AllServedKeeps(a, b, c, before, mid, after, tables[x.table].lo, tables[x.table].hi);
    }
  }

  lemma DidEarlier(x: Sync, tables: seq<Table>, a: seq<World>, b: seq<World>, c: seq<World>,
                   before: seq<seq<Identity>>, mid: seq<seq<Identity>>, after: seq<seq<Identity>>)
    requires Later(a, b) && Later(b, c) && Grown(before, mid) && Did(x, tables, b, c, mid, after)
    ensures Did(x, tables, a, c, before, after)
  {
    if x.outcome == Unchanged {
      AllServedSince(a, b, c, before, mid, after, tables[x.table].lo, tables[x.table].hi);
    }
  }

  /** The first loop of cycle: check all tables before any is synced. */
  method CheckAll(svc: Service, n: nat, force: bool) returns (checks: seq<Check>, failed: nat, stopped: bool)
    modifies svc
    ensures |checks| <= n && (!stopped ==> |checks| == n)
    ensures failed > 0 <==> exists k :: 0 <= k < |checks| && checks[k].Broken?
    ensures force && !stopped ==> failed == 0
    ensures svc.trouble >= old(svc.trouble) && (stopped || failed > 0 ==> svc.trouble > old(svc.trouble))
  {
    checks, failed, stopped := [], 0, false;
    for i := 0 to n
      invariant |checks| == i
      invariant failed > 0 <==> exists k :: 0 <= k < |checks| && checks[k].Broken?
      invariant force ==> failed == 0
      invariant svc.trouble >= old(svc.trouble) && (failed > 0 ==> svc.trouble > old(svc.trouble))
    {
      var proceed := svc.Call();
      if !proceed { return checks, failed, true; }
      var check := CheckTable(svc);
      ghost var before := checks;
      checks := checks + [check];
      assert checks[i] == check && forall j | 0 <= j < i :: checks[j] == before[j];
      if check.Broken? {
        failed := failed + 1;
        if force { return checks, failed, true; }
      }
    }
  }

  /** ensureTargetTable of one table. */
  method CheckTable(svc: Service) returns (check: Check)
    modifies svc
    ensures svc.trouble == old(svc.trouble) + if check.Broken? then 1 else 0
  {
    check := *;
    if check.Broken? { svc.Failed(); }
  }

  /** How far the second loop has come: nothing so far ended it. */
  ghost predicate Syncing(t: Trace, n: nat, force: bool, failed: nat)
    requires n <= |t.checks|
  {
    && (force ==> failed == 0)
    && |t.syncs| == |ReadyOf(t.checks[..n])| && InOrder(t.syncs, t.checks) && !t.gaveUp
    && (forall k | 0 <= k < |t.syncs| :: t.syncs[k].outcome == Unchanged || (t.syncs[k].outcome == Failed && !force))
    && (failed == 0 <==>
          && (forall k | 0 <= k < |t.checks| :: !t.checks[k].Broken?)
          && forall k | 0 <= k < |t.syncs| :: t.syncs[k].outcome == Unchanged)
  }

  lemma ReadyNext(checks: seq<Check>, k: nat)
    requires k < |checks|
    ensures ReadyOf(checks[..k + 1]) == ReadyOf(checks[..k]) + if checks[k].Ready? then [k] else []
    ensures ReadyOf(checks[..k + 1]) <= ReadyOf(checks)
  {
    assert checks[..k + 1][..k] == checks[..k];
    ReadyPrefix(checks, k + 1);
  }

  lemma {:induction false} ReadyPrefix(checks: seq<Check>, k: nat)
    requires k <= |checks|
    ensures ReadyOf(checks[..k]) <= ReadyOf(checks)
  {
    if k == |checks| {
      assert checks[..k] == checks;
    } else {
      var front := checks[..|checks| - 1];
      ReadyPrefix(front, k);
      assert front[..k] == checks[..k];
    }
  }

  /** The partitions of the tables synced, if their source stayed, are up to date. */
  ghost predicate TablesUp(syncs: seq<Sync>, tables: seq<Table>, a: seq<World>, b: seq<World>, rows: seq<PartitionRow>, mode: Mode) {
    forall x | x in syncs :: x.table < |tables| && AllUp(a, b, rows, mode, tables[x.table].lo, tables[x.table].hi)
  }

  lemma OneMoreUp(syncs: seq<Sync>, x: Sync, tables: seq<Table>, a: seq<World>, b: seq<World>, c: seq<World>,
                  mid: seq<PartitionRow>, rows: seq<PartitionRow>, mode: Mode)
    requires Later(a, b) && Later(b, c) && TablesUp(syncs, tables, a, b, mid, mode) && x.table < |tables|
    requires KeptUp(b, c, mid, rows, mode) && AllUp(b, c, rows, mode, tables[x.table].lo, tables[x.table].hi)
    ensures TablesUp(syncs + [x], tables, a, c, rows, mode)
  {
    hide AllUp, KeptUp, Later;
    forall y | y in syncs ensures AllUp(a, c, rows, mode, tables[y.table].lo, tables[y.table].hi) {
      AllUpLater(a, b, c, mid, rows, mode, tables[y.table].lo, tables[y.table].hi);
    }
    AllUpSince(a, b, c, rows, mode, tables[x.table].lo, tables[x.table].hi);
  }

  /** What the second loop keeps of the fleet, seen from the start of the cycle. */
  ghost predicate Passing(syncs: seq<Sync>, tables: seq<Table>, worlds: seq<World>, now: seq<World>,
                          start: seq<seq<Identity>>, attempts: seq<seq<Identity>>, mode: Mode)
  {
    ModeIs(now, mode) && Later(worlds, now) && Grown(start, attempts) && AllDid(syncs, tables, worlds, now, start, attempts)
  }

  /** One ready table: its sync, and a look whether the cycle is cancelled. */
  method CycleTurn(sites: seq<Site>, svc: Service, tables: seq<Table>, k: nat, force: bool, mode: Mode, ghost syncs: seq<Sync>,
                   ghost first: nat, ghost worlds: seq<World>, ghost start: seq<seq<Identity>>, ghost failed: nat)
    returns (o: Outcome, listing: seq<Option<Identity>>, proceed: bool)
    requires Fleet(sites) && AllSynced(sites) && k < |tables| && tables[k].lo <= tables[k].hi <= |sites|
    requires (force ==> mode == OverwriteMode) && first <= svc.trouble
    requires Passing(syncs, tables, worlds, WorldsOf(sites), start, AttemptsOf(sites), mode)
    requires failed > 0 ==> Troubled(first, svc.trouble, worlds, WorldsOf(sites), 0, |sites|)
    modifies sites, Entries(sites), svc
    ensures Fleet(sites) && (o != NotPersisted ==> AllSynced(sites)) && o in {Unchanged, Failed, NotPersisted}
    ensures Passing(syncs + [Sync(k, o, listing)], tables, worlds, WorldsOf(sites), start, AttemptsOf(sites), mode)
    ensures svc.trouble >= old(svc.trouble)
    ensures o == Unchanged && old(TablesUp(syncs, tables, worlds, WorldsOf(sites), RowsOf(sites), mode)) ==>
              TablesUp(syncs + [Sync(k, o, listing)], tables, worlds, WorldsOf(sites), RowsOf(sites), mode)
    ensures failed > 0 || o != Unchanged ==> Troubled(first, svc.trouble, worlds, WorldsOf(sites), 0, |sites|)
  {
    hide Fleet, AllSynced, Attempted, WorldsOf, AttemptsOf, AllServed, Later, Grown, AllDid, Did, Stayed, Troubled, RowsOf,
      TablesUp, AllUp, KeptUp;
    ghost var before, mid, rows, trouble := WorldsOf(sites), AttemptsOf(sites), RowsOf(sites), svc.trouble;
    o, listing := SyncTable(sites, svc, tables[k].lo, tables[k].hi, force, mode);
    ghost var now := svc.trouble;
    proceed := svc.Call();
    LaterKeeps(worlds, before, WorldsOf(sites), mode, 0, []);
    GrownTwice(start, mid, AttemptsOf(sites));
    NowDid(tables, k, o, listing, before, WorldsOf(sites), mid, AttemptsOf(sites));
    DidAll(syncs, Sync(k, o, listing), tables, worlds, before, WorldsOf(sites), start, mid, AttemptsOf(sites));
    if o == Unchanged && TablesUp(syncs, tables, worlds, before, rows, mode) {
      OneMoreUp(syncs, Sync(k, o, listing), tables, worlds, before, WorldsOf(sites), rows, RowsOf(sites), mode);
    }
    StaysTroubled(first, trouble, now, svc.trouble, worlds, before, WorldsOf(sites), tables[k], o, failed);
  }

  /** cycle: check all tables, then sync the ready ones in order. Unless a sync could not
      save, memory and disk agree for every partition when it ends. A ready table whose
      sync reported no failure, and so every one if the cycle reports none, had its
      partitions attempted; and if the cycle reports none, every partition of a ready table
      whose source stayed as it was is up to date. A failure is reported only if something
      failed. */
  method Cycle(sites: seq<Site>, svc: Service, tables: seq<Table>, force: bool, mode: Mode) returns (r: Outcome, t: Trace)
    requires Fleet(sites) && AllSynced(sites) && ModeIs(WorldsOf(sites), mode)
    requires TablesOf(tables, |sites|) && (force ==> mode == OverwriteMode)
    modifies sites, Entries(sites), svc
    ensures Fleet(sites) && ModeIs(WorldsOf(sites), mode)
    ensures Unsaved(t) || AllSynced(sites)
    ensures Ends(t, |tables|, force, r) && svc.trouble >= old(svc.trouble)
    ensures Later(old(WorldsOf(sites)), WorldsOf(sites)) && Grown(old(AttemptsOf(sites)), AttemptsOf(sites))
    ensures AllDid(t.syncs, tables, old(WorldsOf(sites)), WorldsOf(sites), old(AttemptsOf(sites)), AttemptsOf(sites))
    ensures r == Unchanged ==> TablesUp(t.syncs, tables, old(WorldsOf(sites)), WorldsOf(sites), RowsOf(sites), mode)
    ensures r != Unchanged ==>
              Troubled(old(svc.trouble), svc.trouble, old(WorldsOf(sites)), WorldsOf(sites), 0, |sites|)
  {
    hide Fleet, ModeIs, AllSynced, Attempted, Syncing, WorldsOf, AttemptsOf, AllServed, Later, Grown, AllDid, Did, TablesOf, Stayed,
      Troubled, RowsOf, TablesUp;
    ghost var worlds, start := WorldsOf(sites), AttemptsOf(sites);
    LaterSelf(worlds);
    NoneAttempted(start, 0, []);
    NoneDid(tables, worlds, start);
    var checks, failed, stopped := CheckAll(svc, |tables|, force);
    t := Trace(checks, [], stopped);
    InTrouble(old(svc.trouble), svc.trouble, worlds, worlds);
    if stopped {
      r := if force && checks != [] && checks[|checks| - 1] == Broken(true) then NotPersisted else Failed;
      return;
    }
    var complete := svc.Call();
    InTrouble(old(svc.trouble), svc.trouble, worlds, worlds);
    if !complete { return Failed, Trace(checks, [], true); }
    StartSyncing(checks, force, failed);
    for k := 0 to |tables|
      invariant Fleet(sites) && AllSynced(sites) && svc.trouble >= old(svc.trouble)
      invariant t.checks == checks && |checks| == |tables| && Syncing(t, k, force, failed)
      invariant Passing(t.syncs, tables, worlds, WorldsOf(sites), start, AttemptsOf(sites), mode)
      invariant failed == 0 ==> TablesUp(t.syncs, tables, worlds, WorldsOf(sites), RowsOf(sites), mode)
      invariant failed > 0 ==> Troubled(old(svc.trouble), svc.trouble, worlds, WorldsOf(sites), 0, |sites|)
    {
      if checks[k].Ready? {
        TableIn(tables, |sites|, k);
        var o, listing, proceed := CycleTurn(sites, svc, tables, k, force, mode, t.syncs, old(svc.trouble), worlds, start, failed);
        SyncedNext(t, k, force, failed, o, listing, !proceed);
        t := Trace(checks, t.syncs + [Sync(k, o, listing)], o == Failed && !force && !proceed);
        if o != Unchanged {
          failed := failed + 1;
          if force || o == NotPersisted { return o, t; }
          if !proceed { return Failed, t; }
        }
      } else {
        ReadyNext(checks, k);
        SkippedNext(t, k, force, failed);
      }
    }
    SyncingDone(t, |tables|, force, failed);
    r := if failed > 0 then Failed else Unchanged;
  }

  lemma NoneDid(tables: seq<Table>, a: seq<World>, before: seq<seq<Identity>>)
    ensures AllDid([], tables, a, a, before, before)
    ensures forall rows, mode :: TablesUp([], tables, a, a, rows, mode)
  {
  }

  lemma TableIn(tables: seq<Table>, n: nat, k: nat)
    requires TablesOf(tables, n) && k < |tables|
    ensures tables[k].lo <= tables[k].hi <= n
  {
  }

  lemma NowDid(tables: seq<Table>, k: nat, o: Outcome, listing: seq<Option<Identity>>, a: seq<World>, b: seq<World>,
               before: seq<seq<Identity>>, after: seq<seq<Identity>>)
    requires k < |tables| && tables[k].lo <= tables[k].hi
    requires o == Unchanged ==>
               && |listing| == tables[k].hi - tables[k].lo
               && Attempted(before, after, tables[k].lo, tables[k].hi, listing)
               && AllServed(a, b, before, after, tables[k].lo, tables[k].hi)
    ensures Did(Sync(k, o, listing), tables, a, b, before, after)
  {
  }

  lemma InTrouble(before: nat, after: nat, a: seq<World>, b: seq<World>)
    ensures after > before ==> Troubled(before, after, a, b, 0, |a|)
  {
  }

  lemma StaysTroubled(first: nat, before: nat, now: nat, after: nat, a: seq<World>, b: seq<World>, c: seq<World>, x: Table, o: Outcome,
                      failed: nat)
    requires Later(a, b) && Later(b, c) && first <= before <= now <= after && x.lo <= x.hi <= |a|
    requires failed > 0 ==> Troubled(first, before, a, b, 0, |a|)
    requires o != Unchanged ==> Troubled(before, now, b, c, x.lo, x.hi)
    ensures failed > 0 || o != Unchanged ==> Troubled(first, after, a, c, 0, |a|)
  {
    forall k | 0 <= k < |a| && Stayed(a[k], c[k]) ensures Stayed(a[k], b[k]) && Stayed(b[k], c[k]) {
      StayedBetween(a[k], b[k], c[k]);
    }
  }

  lemma StartSyncing(checks: seq<Check>, force: bool, failed: nat)
    requires (failed > 0 <==> exists k :: 0 <= k < |checks| && checks[k].Broken?) && (force ==> failed == 0)
    ensures Syncing(Trace(checks, [], false), 0, force, failed)
  {
  }

  lemma SkippedNext(t: Trace, k: nat, force: bool, failed: nat)
    requires k < |t.checks| && !t.checks[k].Ready? && Syncing(t, k, force, failed)
    ensures Syncing(t, k + 1, force, failed)
  {
    ReadyNext(t.checks, k);
  }

  lemma SyncedNext(t: Trace, k: nat, force: bool, failed: nat, o: Outcome, listing: seq<Option<Identity>>, cancelled: bool)
    requires k < |t.checks| && t.checks[k].Ready? && Syncing(t, k, force, failed)
    requires o in {Unchanged, Failed, NotPersisted}
    ensures var u := Trace(t.checks, t.syncs + [Sync(k, o, listing)], o == Failed && !force && cancelled);
            && (o == Unchanged ==> Syncing(u, k + 1, force, failed))
            && (o == Failed && !force && !cancelled ==> Syncing(u, k + 1, force, failed + 1))
            && (o == NotPersisted || (force && o == Failed) ==> Ends(u, |t.checks|, force, o))
            && (o == Failed && !force && cancelled ==> Ends(u, |t.checks|, force, Failed))
  {
    ReadyNext(t.checks, k);
    var x := Sync(k, o, listing);
    var u := Trace(t.checks, t.syncs + [x], o == Failed && !force && cancelled);
    assert u.syncs[|t.syncs|] == x && forall j | 0 <= j < |t.syncs| :: u.syncs[j] == t.syncs[j];
    assert ReadyOf(t.checks[..k + 1])[|t.syncs|] == k;
  }

  lemma SyncingDone(t: Trace, n: nat, force: bool, failed: nat)
    requires |t.checks| == n && Syncing(t, n, force, failed)
    ensures Ends(t, n, force, if failed > 0 then Failed else Unchanged)
  {
    assert t.checks[..n] == t.checks;
  }

  /** A preflight that could not save its inventory is counted like any other failure: the
      cycle goes on, syncs every table that is ready, and reports a plain failure. */
  lemma InventoryFailureGoesOn(t: Trace, n: nat, r: Outcome)
    requires Ends(t, n, false, r) && !t.gaveUp && Broken(true) in t.checks && !Unsaved(t)
    ensures r == Failed && |t.checks| == n && |t.syncs| == |ReadyOf(t.checks)|
  {
  }

  // ---------- run ----------

  /** openState for every partition. */
  method RestartAll(sites: seq<Site>)
    requires Fleet(sites)
    modifies Entries(sites)
    ensures Fleet(sites) && AllSynced(sites)
  {
    for n := 0 to |sites|
      invariant Fleet(sites) && SyncedTo(sites, n)
    {
      Restart(sites[n]);
    }
  }

  /** What the cycles of a run did, seen from its start. */
  ghost predicate RunDid(traces: seq<Trace>, results: seq<Outcome>, plans: seq<seq<Table>>, a: seq<World>, b: seq<World>,
                         before: seq<seq<Identity>>, after: seq<seq<Identity>>)
  {
    && |results| == |traces| <= |plans|
    && forall k | 0 <= k < |traces| ::
         Ends(traces[k], |plans[k]|, false, results[k]) && AllDid(traces[k].syncs, plans[k], a, b, before, after)
  }

  lemma RunDidMore(traces: seq<Trace>, results: seq<Outcome>, plans: seq<seq<Table>>, a: seq<World>, b: seq<World>, c: seq<World>,
                   before: seq<seq<Identity>>, mid: seq<seq<Identity>>, after: seq<seq<Identity>>, t: Trace, r: Outcome)
    requires Later(a, b) && Later(b, c) && Grown(before, mid) && Grown(mid, after) && |traces| < |plans|
    requires RunDid(traces, results, plans, a, b, before, mid)
    requires Ends(t, |plans[|traces|]|, false, r) && AllDid(t.syncs, plans[|traces|], b, c, mid, after)
    ensures RunDid(traces + [t], results + [r], plans, a, c, before, after)
  {
    hide Later, Grown, Did, Ends;
    forall k | 0 <= k < |traces| ensures AllDid(traces[k].syncs, plans[k], a, c, before, after) {
      forall x | x in traces[k].syncs ensures Did(x, plans[k], a, c, before, after) {
        DidLater(x, plans[k], a, b, c, before, mid, after);
      }
    }
    forall x | x in t.syncs ensures Did(x, plans[|traces|], a, c, before, after) {
      DidEarlier(x, plans[|traces|], a, b, c, before, mid, after);
    }
  }

  /** Every cycle was all right, or something failed. */
  ghost predicate Justified(results: seq<Outcome>, before: nat, after: nat, a: seq<World>, b: seq<World>) {
    (forall x | x in results :: x == Unchanged) || Troubled(before, after, a, b, 0, |a|)
  }

  lemma JustifiedMore(results: seq<Outcome>, r: Outcome, first: nat, before: nat, after: nat, a: seq<World>, b: seq<World>, c: seq<World>)
    requires Later(a, b) && Later(b, c) && first <= before <= after && Justified(results, first, before, a, b)
    requires r != Unchanged ==> Troubled(before, after, b, c, 0, |a|)
    ensures Justified(results + [r], first, after, a, c)
  {
    forall k | 0 <= k < |a| && Stayed(a[k], c[k]) ensures Stayed(a[k], b[k]) && Stayed(b[k], c[k]) {
      StayedBetween(a[k], b[k], c[k]);
    }
  }

  lemma NoneYet(plans: seq<seq<Table>>, a: seq<World>, before: seq<seq<Identity>>, trouble: nat)
    ensures RunDid([], [], plans, a, a, before, before) && Justified([], trouble, trouble, a, a)
    ensures Later(a, a) && Grown(before, before)
  {
  }

  /** run, with an interval: the cycles of one process, and what it reports. Unless it is
      cancelled it ends with the first cycle in which a sync could not save, reporting
      that, and with no other; until then memory and disk agree. Each cycle did what
      Cycle says, over the plan that was due. */
  method RunLoop(sites: seq<Site>, svc: Service, plans: seq<seq<Table>>, mode: Mode)
    returns (r: Outcome, traces: seq<Trace>, cancelled: bool, ghost results: seq<Outcome>)
    requires Fleet(sites) && ModeIs(WorldsOf(sites), mode)
    requires forall k | 0 <= k < |plans| :: TablesOf(plans[k], |sites|)
    modifies sites, Entries(sites), svc
    ensures Fleet(sites) && ModeIs(WorldsOf(sites), mode)
    ensures |traces| <= |plans| && forall k | 0 <= k < |traces| - 1 :: !Unsaved(traces[k])
    ensures r == NotPersisted <==> !cancelled && traces != [] && Unsaved(traces[|traces| - 1])
    ensures AllSynced(sites) || (traces != [] && Unsaved(traces[|traces| - 1]))
    ensures r == NotPersisted || cancelled || |traces| == |plans|
    ensures RunDid(traces, results, plans, old(WorldsOf(sites)), WorldsOf(sites), old(AttemptsOf(sites)), AttemptsOf(sites))
    ensures Justified(results, old(svc.trouble), svc.trouble, old(WorldsOf(sites)), WorldsOf(sites))
  {
    hide Fleet, ModeIs, AllSynced, WorldsOf, AttemptsOf, RowsOf, AllDid, Troubled, TablesUp, RunDid, Justified, Later, Grown, TablesOf;
    ghost var worlds, start := WorldsOf(sites), AttemptsOf(sites);
    NoneYet(plans, worlds, start, svc.trouble);
    RestartAll(sites);
    r, traces, cancelled, results := Unchanged, [], false, [];
    for k := 0 to |plans|
      invariant Fleet(sites) && AllSynced(sites) && ModeIs(WorldsOf(sites), mode)
      invariant |traces| == k && r != NotPersisted && svc.trouble >= old(svc.trouble)
      invariant forall j | 0 <= j < k :: !Unsaved(traces[j])
      invariant Later(worlds, WorldsOf(sites)) && Grown(start, AttemptsOf(sites))
      invariant RunDid(traces, results, plans, worlds, WorldsOf(sites), start, AttemptsOf(sites))
      invariant Justified(results, old(svc.trouble), svc.trouble, worlds, WorldsOf(sites))
    {
      ghost var before, mid, trouble := WorldsOf(sites), AttemptsOf(sites), svc.trouble;
      var t: Trace;
      r, t := Cycle(sites, svc, plans[k], false, mode);
      RunDidMore(traces, results, plans, worlds, before, WorldsOf(sites), start, mid, AttemptsOf(sites), t, r);
      JustifiedMore(results, r, old(svc.trouble), trouble, svc.trouble, worlds, before, WorldsOf(sites));
      LaterKeeps(worlds, before, WorldsOf(sites), mode, 0, []);
      GrownTwice(start, mid, AttemptsOf(sites));
      traces, results := traces + [t], results + [r];
      cancelled := *;
      if cancelled { return Unchanged, traces, true, results; }
      if r == NotPersisted { return; }
    }
  }
}
