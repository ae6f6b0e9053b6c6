/** overwrite_plan.go: checking a forced-overwrite plan. */
module OverwritePlan {
  import opened StateKeys
  import opened Strings

  datatype Item = Item(sourceDB: string, targetDB: string, table: string, partitions: seq<string>)

  // ---------- validateOverwritePlan ----------

  ghost predicate DistinctNames(names: seq<string>) {
    && (forall k :: 0 <= k < |names| ==> Exact(names[k]))
    && forall j, k :: 0 <= j < k < |names| ==> names[j] != names[k]
  }

  /** validatePartitionNames. */
  method ValidatePartitionNames(names: seq<string>) returns (ok: bool)
    ensures ok <==> DistinctNames(names)
  {
    var seen: set<string> := {};
    for i := 0 to |names|
      invariant DistinctNames(names[..i]) && seen == set x | x in names[..i]
    {
      assert names[..i + 1] == names[..i] + [names[i]];
      if !Exact(names[i]) { assert names[i] == names[..i + 1][i]; return false; }
      if names[i] in seen {
        assert exists j :: 0 <= j < i && names[j] == names[i];
        return false;
      }
      seen := seen + {names[i]};
    }
    assert names[..|names|] == names;
    return true;
  }

  predicate Configured(item: Item, mappings: seq<(string, string)>) {
    (item.sourceDB, item.targetDB) in mappings
  }

  ghost predicate ItemValid(item: Item, mappings: seq<(string, string)>) {
    && Exact(item.sourceDB) && Exact(item.targetDB) && Exact(item.table)
    && Configured(item, mappings)
    && item.partitions != [] && DistinctNames(item.partitions)
  }

  function TableKey(item: Item): string {
    StateKey(item.sourceDB, item.targetDB, item.table, "")
  }

  function TargetKey(item: Item): string {
    StateKey("", item.targetDB, item.table, "")
  }

  /** What a plan must be: exact names, configured databases, and no table twice. */
  ghost predicate PlanValid(plan: seq<Item>, mappings: seq<(string, string)>) {
    && plan != []
    && (forall k :: 0 <= k < |plan| ==> ItemValid(plan[k], mappings))
    && forall j, k :: 0 <= j < k < |plan| ==>
         TableKey(plan[j]) != TableKey(plan[k]) && TargetKey(plan[j]) != TargetKey(plan[k])
  }

  /** The body of validateOverwritePlan's loop, up to the duplicate checks. */
  method ValidateItem(item: Item, mappings: seq<(string, string)>) returns (ok: bool)
    ensures ok <==> ItemValid(item, mappings)
  {
    if !Exact(item.sourceDB) || !Exact(item.targetDB) || !Exact(item.table) { return false; }
    var pairFound := false;
    for m := 0 to |mappings|
      invariant pairFound <==> (item.sourceDB, item.targetDB) in mappings[..m]
    {
      assert mappings[..m + 1] == mappings[..m] + [mappings[m]];
      if mappings[m] == (item.sourceDB, item.targetDB) { pairFound := true; }
    }
    assert mappings[..|mappings|] == mappings;
    if !pairFound || |item.partitions| == 0 { return false; }
    ok := ValidatePartitionNames(item.partitions);
  }

  /** validateOverwritePlan. */
  method ValidateOverwritePlan(plan: seq<Item>, mappings: seq<(string, string)>) returns (ok: bool)
    ensures ok <==> PlanValid(plan, mappings)
  {
    hide ItemValid, StateKey;
    if |plan| == 0 { return false; }
    var seen: set<string> := {};
    var seenTargets: set<string> := {};
    for i := 0 to |plan|
      invariant forall k :: 0 <= k < i ==> ItemValid(plan[k], mappings)
      invariant forall j, k :: 0 <= j < k < i ==>
                  TableKey(plan[j]) != TableKey(plan[k]) && TargetKey(plan[j]) != TargetKey(plan[k])
      invariant seen == set k | 0 <= k < i :: TableKey(plan[k])
      invariant seenTargets == set k | 0 <= k < i :: TargetKey(plan[k])
    {
      var valid := ValidateItem(plan[i], mappings);
      if !valid || TableKey(plan[i]) in seen || TargetKey(plan[i]) in seenTargets { return false; }
      seen := seen + {TableKey(plan[i])};
      seenTargets := seenTargets + {TargetKey(plan[i])};
    }
    return true;
  }

  predicate HasNoNul(item: Item) {
    NUL !in item.sourceDB && NUL !in item.targetDB && NUL !in item.table
  }

  /** The keys mean what they should: two items clash exactly if they write one table. */
  lemma ClashIff(a: Item, b: Item)
    requires HasNoNul(a) && HasNoNul(b)
    ensures TableKey(a) == TableKey(b) || TargetKey(a) == TargetKey(b) <==> a.targetDB == b.targetDB && a.table == b.table
  {
    if TableKey(a) == TableKey(b) {
      KeyInjective(a.sourceDB, a.targetDB, a.table, "", b.sourceDB, b.targetDB, b.table, "");
    }
    if TargetKey(a) == TargetKey(b) {
      KeyInjective("", a.targetDB, a.table, "", "", b.targetDB, b.table, "");
    }
  }
}
