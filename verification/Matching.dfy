/** database.go: matchTargetPartition, which decides what target partition a source
    partition is replicated to. */
module Matching {
  import opened Rows
  import opened Strings

  /** `bounds` is what partitionRangeBounds reads off the range, if it can. */
  datatype Partition = Partition(name: string, bounds: Option<string>)

  datatype Match = Found(target: Partition) | Absent | Ambiguous | Differs

  predicate SameRange(s: Partition, t: Partition) {
    s.bounds.Some? && t.bounds == s.bounds
  }

  /** Both have a range and the ranges differ. */
  predicate Conflict(s: Partition, t: Partition) {
    s.bounds.Some? && t.bounds.Some? && t.bounds != s.bounds
  }

  /** What the answer means: a single partition of the same range wins over any name; a
      partition of the same name counts only if its range is not known to be another. */
  ghost predicate Answers(s: Partition, targets: seq<Partition>, r: Match) {
    match r
    case Ambiguous => exists j, k :: 0 <= j < k < |targets| && SameRange(s, targets[j]) && SameRange(s, targets[k])
    case Found(t) =>
      || (exists k :: 0 <= k < |targets| && targets[k] == t && SameRange(s, t)
            && forall j :: 0 <= j < |targets| && SameRange(s, targets[j]) ==> j == k)
      || (NoRange(s, targets) && LastNamed(s, targets, t) && !Conflict(s, t))
    case Differs => NoRange(s, targets) && exists t :: LastNamed(s, targets, t) && Conflict(s, t)
    case Absent => NoRange(s, targets) && forall t | t in targets :: t.name != s.name
  }

  ghost predicate NoRange(s: Partition, targets: seq<Partition>) {
    forall t | t in targets :: !SameRange(s, t)
  }

  /** `t` is the last partition that has the name of `s`. */
  ghost predicate LastNamed(s: Partition, targets: seq<Partition>, t: Partition) {
    exists k :: 0 <= k < |targets| && targets[k] == t && t.name == s.name
      && forall j :: k < j < |targets| ==> targets[j].name != s.name
  }

  /** matchTargetPartition. */
  method MatchTargetPartition(s: Partition, targets: seq<Partition>) returns (r: Match)
    ensures Answers(s, targets, r)
  {
    var sameName: Option<Partition> := None;
    var sameRange: Option<Partition> := None;
    for i := 0 to |targets|
      invariant sameName.None? ==> forall j :: 0 <= j < i ==> targets[j].name != s.name
      invariant sameName.Some? ==> LastNamed(s, targets[..i], sameName.value)
      invariant sameRange.None? ==> forall j :: 0 <= j < i ==> !SameRange(s, targets[j])
      invariant sameRange.Some? ==> exists k :: 0 <= k < i && targets[k] == sameRange.value && SameRange(s, targets[k])
                                      && forall j :: 0 <= j < i && SameRange(s, targets[j]) ==> j == k
    {
      var target := targets[i];
      LastNamedStep(s, targets, i, sameName);
      if target.name == s.name { sameName := Some(target); }
      if s.bounds.Some? {
        if target.bounds == s.bounds {
          if sameRange.Some? { return Ambiguous; }
          sameRange := Some(target);
        }
      }
    }
    assert targets[..|targets|] == targets;
    if sameRange.Some? { return Found(sameRange.value); }
    if sameName.Some? {
      if s.bounds.Some? && sameName.value.bounds.Some? && sameName.value.bounds != s.bounds { return Differs; }
      return Found(sameName.value);
    }
    return Absent;
  }

  lemma LastNamedStep(s: Partition, targets: seq<Partition>, i: nat, before: Option<Partition>)
    requires i < |targets| && (before.Some? ==> LastNamed(s, targets[..i], before.value))
    ensures targets[i].name == s.name ==> LastNamed(s, targets[..i + 1], targets[i])
    ensures targets[i].name != s.name && before.Some? ==> LastNamed(s, targets[..i + 1], before.value)
  {
    if targets[i].name == s.name {
      assert targets[..i + 1][i] == targets[i];
    } else if before.Some? {
      var k :| 0 <= k < i && targets[..i][k] == before.value && forall j :: k < j < i ==> targets[..i][j].name != s.name;
      assert targets[..i + 1][k] == before.value;
      forall j | k < j < i + 1 ensures targets[j].name != s.name {
        if j < i { assert targets[..i][j] == targets[j]; }
      }
    }
  }

  /** Names are unique in a listing of one table. */
  ghost predicate UniqueNames(parts: seq<Partition>) {
    forall j, k :: 0 <= j < k < |parts| ==> parts[j].name != parts[k].name
  }

  /** With unique names an answer says the same of the set of partitions, in any order. */
  ghost predicate AnswersSet(s: Partition, targets: set<Partition>, r: Match) {
    match r
    case Ambiguous => exists t, u :: t in targets && u in targets && t != u && SameRange(s, t) && SameRange(s, u)
    case Found(t) =>
      && t in targets
      && (|| (SameRange(s, t) && forall u | u in targets && SameRange(s, u) :: u == t)
          || ((forall u | u in targets :: !SameRange(s, u)) && t.name == s.name && !Conflict(s, t)))
    case Differs => (forall u | u in targets :: !SameRange(s, u)) && exists t :: t in targets && t.name == s.name && Conflict(s, t)
    case Absent => forall u | u in targets :: !SameRange(s, u) && u.name != s.name
  }

  function Members(parts: seq<Partition>): set<Partition> {
    set t | t in parts
  }

  lemma AnswersAnyOrder(s: Partition, targets: seq<Partition>, r: Match)
    requires UniqueNames(targets) && Answers(s, targets, r)
    ensures AnswersSet(s, Members(targets), r)
  {
  }

  /** And conversely, for the answer that names a partition. */
  lemma FoundAnyOrder(s: Partition, targets: seq<Partition>, t: Partition)
    requires UniqueNames(targets)
    ensures Answers(s, targets, Found(t)) <==> AnswersSet(s, Members(targets), Found(t))
  {
    if AnswersSet(s, Members(targets), Found(t)) {
      var k :| 0 <= k < |targets| && targets[k] == t;
      if SameRange(s, t) {
        forall j | 0 <= j < |targets| && SameRange(s, targets[j]) ensures j == k {
          assert targets[j] in Members(targets);
        }
      } else {
        assert forall u | u in targets :: u in Members(targets);
        assert LastNamed(s, targets, t);
      }
    }
  }

  /** Partitions of other ranges that are added, or taken away, do not change what a source
      partition's target is, as long as that is there. */
  lemma StaysFound(s: Partition, targets: seq<Partition>, added: seq<Partition>, t: Partition)
    requires UniqueNames(targets + added) && t in targets && forall m | m in added :: !SameRange(s, m)
    ensures Answers(s, targets, Found(t)) <==> Answers(s, targets + added, Found(t))
  {
    PrefixUnique(targets, added);
    FoundAnyOrder(s, targets, t);
    FoundAnyOrder(s, targets + added, t);
    assert Members(targets + added) == Members(targets) + Members(added);
  }

  lemma PrefixUnique(targets: seq<Partition>, added: seq<Partition>)
    requires UniqueNames(targets + added)
    ensures UniqueNames(targets)
  {
    var all := targets + added;
    forall j, k | 0 <= j < k < |targets| ensures targets[j].name != targets[k].name {
      assert all[j].name != all[k].name;
    }
  }

  lemma AbsentNotFound(s: Partition, targets: seq<Partition>, t: Partition)
    requires Answers(s, targets, Absent)
    ensures !Answers(s, targets, Found(t))
  {
  }

  /** A source partition has one target at most. */
  lemma FoundOnce(s: Partition, targets: seq<Partition>, t: Partition, u: Partition)
    requires UniqueNames(targets) && Answers(s, targets, Found(t)) && Answers(s, targets, Found(u))
    ensures t == u
  {
    NamedOnce(targets);
  }

  /** The answer depends on which target partitions there are, not on how they are listed. */
  lemma MatchAnyOrder(s: Partition, a: seq<Partition>, b: seq<Partition>, q: Match, r: Match)
    requires UniqueNames(a) && UniqueNames(b) && multiset(a) == multiset(b)
    requires Answers(s, a, q) && Answers(s, b, r)
    ensures q == r
  {
    assert Members(a) == Members(b) by {
      forall t ensures t in a <==> t in b { assert t in multiset(a) <==> t in multiset(b); }
    }
    AnswersAnyOrder(s, a, q);
    AnswersAnyOrder(s, b, r);
    var all := Members(a);
    NamedOnce(a);
    OneAnswer(s, all, q, r);
  }

  lemma NamedOnce(parts: seq<Partition>)
    requires UniqueNames(parts)
    ensures forall t, u | t in parts && u in parts && t.name == u.name :: t == u
  {
  }

  lemma OneAnswer(s: Partition, all: set<Partition>, q: Match, r: Match)
    requires AnswersSet(s, all, q) && AnswersSet(s, all, r)
    requires forall t, u | t in all && u in all && t.name == u.name :: t == u
    ensures q == r
  {
  }

  /** Injectivity: source partitions with ranges of their own never share a target. */
  lemma MatchInjective(s: Partition, u: Partition, targets: seq<Partition>, t: Partition)
    requires s.name != u.name && s.bounds.Some? && u.bounds.Some? && s.bounds != u.bounds
    requires Answers(s, targets, Found(t))
    ensures !Answers(u, targets, Found(t))
  {
  }

  /** Two source partitions of different names share a target partition if and only if
      both have its range, or one has it and the other has its name and no range. */
  lemma SharedIff(s: Partition, u: Partition, targets: seq<Partition>, t: Partition)
    requires UniqueNames(targets) && s.name != u.name && t in targets
    requires exists r :: Answers(s, targets, r) && r != Ambiguous
    requires exists r :: Answers(u, targets, r) && r != Ambiguous
    ensures Answers(s, targets, Found(t)) && Answers(u, targets, Found(t)) <==>
              || (SameRange(s, t) && SameRange(u, t))
              || (SameRange(s, t) && u.bounds.None? && u.name == t.name)
              || (SameRange(u, t) && s.bounds.None? && s.name == t.name)
  {
  }

  /** AUTO PARTITION made a partition that matches `p`. */
  ghost predicate Makes(p: Partition, targets: seq<Partition>, made: Partition) {
    UniqueNames(targets + [made]) && made.bounds == p.bounds && Answers(p, targets + [made], Found(made))
  }

  // ---------- The frame ----------

  /** The partitions of a target table and what they hold, by name. */
  ghost predicate Listing<T>(targets: seq<Partition>, contents: map<string, T>) {
    UniqueNames(targets) && forall t | t in targets :: t.name in contents
  }

  /** Overwriting the partition matched for `s` leaves every other source partition's
      match as it was, and its contents too. */
  lemma OverwriteIsFramed<T>(s: Partition, u: Partition, targets: seq<Partition>, contents: map<string, T>,
                             t: Partition, v: Partition, x: T)
    requires s.name != u.name && s.bounds.Some? && u.bounds.Some? && s.bounds != u.bounds
    requires Listing(targets, contents)
    requires Answers(s, targets, Found(t)) && Answers(u, targets, Found(v))
    ensures v.name in contents && contents[t.name := x][v.name] == contents[v.name]
  {
  }

  /** A partition that AUTO PARTITION adds for `s` changes no other source partition's
      answer, unless it takes that one's name. */
  lemma CreateIsFramed(s: Partition, u: Partition, targets: seq<Partition>, made: Partition, q: Match, r: Match)
    requires u.name != made.name && s.bounds.Some? && u.bounds.Some? && s.bounds != u.bounds && SameRange(s, made)
    requires UniqueNames(targets + [made])
    requires Answers(u, targets, q) && Answers(u, targets + [made], r)
    ensures q == r
  {
    var more := targets + [made];
    forall k | 0 <= k < |targets| ensures targets[k] == more[k] {}
    assert UniqueNames(targets) by {
      forall j, k | 0 <= j < k < |targets| ensures targets[j].name != targets[k].name {
        assert more[j].name != more[k].name;
      }
    }
    AnswersAnyOrder(u, targets, q);
    AnswersAnyOrder(u, more, r);
    NamedOnce(targets);
    var all := Members(targets);
    assert Members(more) == all + {made};
    WithoutStranger(u, all, made, r);
    OneAnswer(u, all, q, r);
  }

  lemma WithoutStranger(u: Partition, all: set<Partition>, made: Partition, r: Match)
    requires u.name != made.name && !SameRange(u, made) && AnswersSet(u, all + {made}, r)
    ensures AnswersSet(u, all, r)
  {
  }

  // ---------- The order of a listing ----------

  /** A partition with the key rangeOrderKey sorts it by. */
  datatype Listed = Listed(key: string, name: string)

  /** The comparison of the sort: by key, then by name. */
  predicate Precedes(a: Listed, b: Listed) {
    if a.key == b.key then Before(a.name, b.name) else Before(a.key, b.key)
  }

  lemma PrecedesTransitive(a: Listed, b: Listed, c: Listed)
    requires Precedes(a, b) && Precedes(b, c)
    ensures Precedes(a, c) && a != c
  {
    if a.key == b.key && b.key == c.key {
      BeforeTransitive(a.name, b.name, c.name);
    } else if a.key != b.key && b.key != c.key {
      BeforeTransitive(a.key, b.key, c.key);
    } else if a.key == b.key {
      BeforeIrreflexive(a.name);
    } else {
      BeforeIrreflexive(b.name);
    }
  }

  /** Partitions of different names are always ordered, one way and not the other. */
  lemma PrecedesTotal(a: Listed, b: Listed)
    requires a.name != b.name
    ensures Precedes(a, b) <==> !Precedes(b, a)
  {
    BeforeTotal(a.name, b.name);
    BeforeTotal(a.key, b.key);
    if Precedes(a, b) && Precedes(b, a) { PrecedesTransitive(a, b, a); }
  }

  ghost predicate Ordered(parts: seq<Listed>) {
    forall j, k :: 0 <= j < k < |parts| ==> Precedes(parts[j], parts[k])
  }

  lemma SameHead(a: seq<Listed>, b: seq<Listed>)
    requires Ordered(a) && Ordered(b) && multiset(a) == multiset(b) && a != []
    ensures b != [] && a[0] == b[0]
  {
    hide Precedes;
    assert |b| == |multiset(b)| == |multiset(a)| == |a|;
    assert a[0] in multiset(b) && b[0] in multiset(a);
    var j :| 0 <= j < |b| && b[j] == a[0];
    var k :| 0 <= k < |a| && a[k] == b[0];
    if j > 0 && k > 0 { PrecedesTransitive(a[0], b[0], a[0]); }
  }

  lemma Behead(a: seq<Listed>)
    requires a != []
    ensures multiset(a[1..]) == multiset(a) - multiset{a[0]}
  {
    assert a == [a[0]] + a[1..];
  }

  /** Sorting puts the same partitions in the same order, however the server listed them. */
  lemma {:induction false} OneOrder(a: seq<Listed>, b: seq<Listed>)
    requires Ordered(a) && Ordered(b) && multiset(a) == multiset(b)
    ensures a == b
  {
    hide Precedes;
    assert |b| == |multiset(b)| == |multiset(a)| == |a|;
    if a != [] {
      SameHead(a, b);
      Behead(a);
      Behead(b);
      OneOrder(a[1..], b[1..]);
      assert a == [a[0]] + a[1..] && b == [b[0]] + b[1..];
    }
  }
}
