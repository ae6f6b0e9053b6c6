/** objectstore.go: how object prefixes are built, listed and cleared. A Go string is its
    bytes, kept as characters below 256. */
module ObjectStore {
  import opened Strings

  // ---------- url.PathEscape ----------

  predicate IsBytes(s: string) {
    forall k | 0 <= k < |s| :: s[k] as int < 256
  }

  /** The bytes that a path segment shows as they are. */
  predicate Plain(c: char) {
    || 'a' <= c <= 'z' || 'A' <= c <= 'Z' || '0' <= c <= '9'
    || c in {'-', '_', '.', '~', '$', '&', '+', '=', ':', '@'}
  }

  function Hex(n: nat): (c: char)
    requires n < 16
  {
    "0123456789ABCDEF"[n]
  }

  function Unhex(c: char): (n: nat)
    ensures n < 16
  {
    if '0' <= c <= '9' then c as int - '0' as int
    else if 'A' <= c <= 'F' then c as int - 'A' as int + 10
    else 0
  }

  function EscapeByte(c: char): string
    requires c as int < 256
  {
    if Plain(c) then [c] else ['%', Hex(c as int / 16), Hex(c as int % 16)]
  }

  function PathEscape(s: string): string
    requires IsBytes(s)
  {
    if s == "" then "" else EscapeByte(s[0]) + PathEscape(s[1..])
  }

  function PathUnescape(s: string): string {
    if s == "" then ""
    else if s[0] == '%' && |s| >= 3 then [(16 * Unhex(s[1]) + Unhex(s[2])) as char] + PathUnescape(s[3..])
    else [s[0]] + PathUnescape(s[1..])
  }

  lemma HexRoundTrip(n: nat)
    requires n < 16
    ensures Unhex(Hex(n)) == n && Hex(n) != '/'
  {
  }

  /** The two digits give the byte back. */
  lemma ByteRoundTrip(c: char)
    requires c as int < 256
    ensures (16 * Unhex(Hex(c as int / 16)) + Unhex(Hex(c as int % 16))) as char == c
  {
    HexRoundTrip(c as int / 16);
    HexRoundTrip(c as int % 16);
    hide Hex, Unhex;
    assert 16 * (c as int / 16) + c as int % 16 == c as int;
  }

  lemma PlainIsNotPercent(c: char)
    ensures Plain(c) ==> c != '%'
  {
  }

  lemma UnescapeByte(c: char, rest: string)
    requires c as int < 256
    ensures PathUnescape(EscapeByte(c) + rest) == [c] + PathUnescape(rest)
  {
    ByteRoundTrip(c);
    PlainIsNotPercent(c);
    hide Hex, Unhex, Plain;
    var t := EscapeByte(c) + rest;
    if Plain(c) {
      assert t[0] == c && t[1..] == rest;
    } else {
      var n := c as int;
      assert t[0] == '%' && t[1] == Hex(n / 16) && t[2] == Hex(n % 16) && t[3..] == rest;
    }
  }

  lemma {:induction false} EscapeRoundTrip(s: string)
    requires IsBytes(s)
    ensures PathUnescape(PathEscape(s)) == s
  {
    hide EscapeByte, PathUnescape;
    if s == "" {
      UnescapeNothing();
    } else {
      UnescapeByte(s[0], PathEscape(s[1..]));
      EscapeRoundTrip(s[1..]);
      assert s == [s[0]] + s[1..];
    }
  }

  lemma UnescapeNothing()
    ensures PathUnescape("") == ""
  {
  }

  lemma ByteHasNoSlash(c: char)
    requires c as int < 256
    ensures '/' !in EscapeByte(c)
  {
    HexRoundTrip(c as int / 16);
    HexRoundTrip(c as int % 16);
  }

  lemma {:induction false} EscapeHasNoSlash(s: string)
    requires IsBytes(s)
    ensures '/' !in PathEscape(s)
  {
    if s != "" {
      hide EscapeByte;
      ByteHasNoSlash(s[0]);
      EscapeHasNoSlash(s[1..]);
    }
  }

  // ---------- Prefixes ----------

  /** Database names, table and partition of one source partition. */
  datatype Names = Names(sourceDB: string, targetDB: string, table: string, partition: string)

  predicate NamesValid(n: Names) {
    IsBytes(n.sourceDB) && IsBytes(n.targetDB) && IsBytes(n.table) && IsBytes(n.partition)
  }

  /** strings.Trim(s, "/"). */
  function TrimSlashes(s: string): (t: string)
    ensures t != "" ==> t[0] != '/' && t[|t| - 1] != '/'
    decreases |s|
  {
    if s != "" && s[0] == '/' then TrimSlashes(s[1..])
    else if s != "" && s[|s| - 1] == '/' then TrimSlashes(s[..|s| - 1])
    else s
  }

  predicate OnlySlashes(s: string) {
    forall k :: 0 <= k < |s| ==> s[k] == '/'
  }

  /** Trimming takes slashes off both ends and nothing else. */
  lemma {:induction false} TrimSlashesIs(s: string) returns (before: string, after: string)
    ensures s == before + TrimSlashes(s) + after && OnlySlashes(before) && OnlySlashes(after)
    decreases |s|
  {
    hide OnlySlashes;
    EmptyIsSlashes();
    before, after := "", "";
    if s != "" && s[0] == '/' {
      before, after := TrimSlashesIs(s[1..]);
      SlashAround(before);
      assert s == "/" + s[1..];
      before := "/" + before;
    } else if s != "" && s[|s| - 1] == '/' {
      before, after := TrimSlashesIs(s[..|s| - 1]);
      SlashAround(after);
      assert s == s[..|s| - 1] + "/";
      after := after + "/";
    } else {
      assert s == "" + s + "";
    }
  }

  lemma EmptyIsSlashes()
    ensures OnlySlashes("")
  {
  }

  lemma SlashAround(s: string)
    requires OnlySlashes(s)
    ensures OnlySlashes("/" + s) && OnlySlashes(s + "/")
  {
  }

  lemma {:induction false} NothingLeftIff(s: string)
    ensures TrimSlashes(s) == "" <==> OnlySlashes(s)
    decreases |s|
  {
    if s != "" && s[0] == '/' {
      NothingLeftIff(s[1..]);
      assert OnlySlashes(s) ==> OnlySlashes(s[1..]);
      assert forall k | 1 <= k < |s| :: s[k] == s[1..][k - 1];
    } else if s != "" && s[|s| - 1] == '/' {
      assert !OnlySlashes(s);
      NothingLeftIff(s[..|s| - 1]);
      assert s[..|s| - 1][0] == s[0];
    }
  }

  function PartitionPrefix(root: string, n: Names): string
    requires NamesValid(n)
  {
    TrimSlashes(root) + "/" + (PathEscape(n.sourceDB) + "/" + (PathEscape(n.targetDB) + "/"
      + (PathEscape(n.table) + "/" + (PathEscape(n.partition) + "/"))))
  }

  /** Where one full attempt, or one delta, writes. */
  datatype Place = FullAttempt(id: string) | Delta(batch: string)

  predicate PlaceValid(p: Place) {
    '/' !in Leaf(p)
  }

  function Folder(p: Place): string {
    if p.FullAttempt? then "full" else "incremental"
  }

  function Leaf(p: Place): string {
    if p.FullAttempt? then p.id else p.batch
  }

  function PlacePrefix(root: string, n: Names, p: Place): string
    requires NamesValid(n)
  {
    PartitionPrefix(root, n) + (Folder(p) + "/" + (Leaf(p) + "/"))
  }

  function Slashes(s: string): nat {
    if s == "" then 0 else (if s[0] == '/' then 1 else 0) + Slashes(s[1..])
  }

  lemma {:induction false} SlashesAdd(a: string, b: string)
    ensures Slashes(a + b) == Slashes(a) + Slashes(b)
  {
    if a == "" {
      assert a + b == b;
    } else {
      assert (a + b)[1..] == a[1..] + b;
      SlashesAdd(a[1..], b);
    }
  }

  lemma {:induction false} NoSlashes(s: string)
    requires '/' !in s
    ensures Slashes(s) == 0
  {
    if s != "" { NoSlashes(s[1..]); }
  }

  /** One segment in front of the rest. */
  lemma SegmentSlashes(a: string, rest: string)
    requires '/' !in a
    ensures Slashes(a + "/" + rest) == 1 + Slashes(rest)
  {
    NoSlashes(a);
    SlashesAdd(a + "/", rest);
    SlashesAdd(a, "/");
  }

  /** The first slash is where the first segment ends. */
  lemma SegmentUnique(a: string, b: string, x: string, y: string)
    requires '/' !in a && '/' !in b && a + "/" + x == b + "/" + y
    ensures a == b && x == y
  {
    var s, t := a + "/" + x, b + "/" + y;
    assert s[|a|] == '/' && t[|b|] == '/';
    assert s[..|a|] == a && t[..|b|] == b && s[|a| + 1..] == x && t[|b| + 1..] == y;
  }

  /** The escaped segments of a partition's prefix below the root. */
  function Below(n: Names): string
    requires NamesValid(n)
  {
    PathEscape(n.sourceDB) + "/" + (PathEscape(n.targetDB) + "/" + (PathEscape(n.table) + "/" + (PathEscape(n.partition) + "/")))
  }

  lemma BelowSlashes(n: Names)
    requires NamesValid(n)
    ensures Slashes(Below(n)) == 4
  {
    EscapeHasNoSlash(n.sourceDB);
    EscapeHasNoSlash(n.targetDB);
    EscapeHasNoSlash(n.table);
    EscapeHasNoSlash(n.partition);
    var p := PathEscape(n.partition) + "/";
    assert p == PathEscape(n.partition) + "/" + "";
    SegmentSlashes(PathEscape(n.partition), "");
    SegmentSlashes(PathEscape(n.table), p);
    SegmentSlashes(PathEscape(n.targetDB), PathEscape(n.table) + "/" + p);
    SegmentSlashes(PathEscape(n.sourceDB), PathEscape(n.targetDB) + "/" + (PathEscape(n.table) + "/" + p));
  }

  /** The first segment gives back the name it was made from. */
  lemma StepInjective(a: string, b: string, x: string, y: string)
    requires IsBytes(a) && IsBytes(b) && PathEscape(a) + "/" + x == PathEscape(b) + "/" + y
    ensures a == b && x == y
  {
    EscapeHasNoSlash(a);
    EscapeHasNoSlash(b);
    SegmentUnique(PathEscape(a), PathEscape(b), x, y);
    EscapeRoundTrip(a);
    EscapeRoundTrip(b);
  }

  lemma BelowInjective(m: Names, n: Names)
    requires NamesValid(m) && NamesValid(n) && Below(m) == Below(n)
    ensures m == n
  {
    hide PathEscape, IsBytes;
    var mp, np := PathEscape(m.partition) + "/", PathEscape(n.partition) + "/";
    var mt, nt := PathEscape(m.table) + "/" + mp, PathEscape(n.table) + "/" + np;
    StepInjective(m.sourceDB, n.sourceDB, PathEscape(m.targetDB) + "/" + mt, PathEscape(n.targetDB) + "/" + nt);
    StepInjective(m.targetDB, n.targetDB, mt, nt);
    StepInjective(m.table, n.table, mp, np);
    assert mp == mp + "" && np == np + "";
    StepInjective(m.partition, n.partition, "", "");
  }

  /** Distinct partitions have distinct prefixes. */
  lemma PrefixInjective(root: string, m: Names, n: Names)
    requires NamesValid(m) && NamesValid(n) && PartitionPrefix(root, m) == PartitionPrefix(root, n)
    ensures m == n
  {
    hide PathEscape, IsBytes;
    var r := TrimSlashes(root) + "/";
    assert PartitionPrefix(root, m) == r + Below(m) && PartitionPrefix(root, n) == r + Below(n);
    assert (r + Below(m))[|r|..] == Below(m) && (r + Below(n))[|r|..] == Below(n);
    BelowInjective(m, n);
  }

  /** Two prefixes that end with a slash and have equally many of them: if some key lies
      under both, they are the same prefix. */
  lemma SharedKey(p: string, q: string, key: string)
    requires p != "" && q != "" && p[|p| - 1] == '/' && q[|q| - 1] == '/'
    requires Slashes(p) == Slashes(q) && p <= key && q <= key
    ensures p == q
  {
    if |p| < |q| {
      ExtensionHasMore(p, q);
    } else if |q| < |p| {
      ExtensionHasMore(q, p);
    }
  }

  lemma ExtensionHasMore(p: string, q: string)
    requires p < q && q[|q| - 1] == '/'
    ensures Slashes(p) < Slashes(q)
  {
  }

  /** Export isolation between partitions: no object lies under the prefixes of two
      different partitions, so neither prefix extends the other. */
  lemma PartitionsDisjoint(root: string, m: Names, n: Names, key: string)
    requires NamesValid(m) && NamesValid(n) && PartitionPrefix(root, m) <= key && PartitionPrefix(root, n) <= key
    ensures m == n
  {
    PrefixSlashes(root, m);
    PrefixSlashes(root, n);
    SharedKey(PartitionPrefix(root, m), PartitionPrefix(root, n), key);
    PrefixInjective(root, m, n);
  }

  lemma PrefixSlashes(root: string, n: Names)
    requires NamesValid(n)
    ensures Slashes(PartitionPrefix(root, n)) == Slashes(TrimSlashes(root)) + 5
    ensures PartitionPrefix(root, n)[|PartitionPrefix(root, n)| - 1] == '/'
  {
    var r := TrimSlashes(root) + "/";
    assert PartitionPrefix(root, n) == r + Below(n);
    SlashesAdd(r, Below(n));
    SlashesAdd(TrimSlashes(root), "/");
    BelowSlashes(n);
  }

  lemma FolderHasNoSlash(p: Place)
    ensures '/' !in Folder(p)
  {
  }

  lemma PlaceSlashes(root: string, n: Names, p: Place)
    requires NamesValid(n) && PlaceValid(p)
    ensures Slashes(PlacePrefix(root, n, p)) == Slashes(TrimSlashes(root)) + 7
    ensures PlacePrefix(root, n, p)[|PlacePrefix(root, n, p)| - 1] == '/'
  {
    FolderHasNoSlash(p);
    hide Slashes, Folder, Leaf, PartitionPrefix, TrimSlashes;
    PrefixSlashes(root, n);
    SegmentSlashes(Leaf(p), "");
    EmptySlashes();
    assert Leaf(p) + "/" + "" == Leaf(p) + "/";
    SegmentSlashes(Folder(p), Leaf(p) + "/");
    SlashesAdd(PartitionPrefix(root, n), Folder(p) + "/" + (Leaf(p) + "/"));
  }

  /** Export isolation between attempts: an object that one attempt writes is under no
      other attempt's prefix, whatever the partition, however late it is written. */
  lemma AttemptsDisjoint(root: string, m: Names, p: Place, n: Names, q: Place, key: string)
    requires NamesValid(m) && NamesValid(n) && PlaceValid(p) && PlaceValid(q)
    requires PlacePrefix(root, m, p) <= key && PlacePrefix(root, n, q) <= key
    ensures m == n && p == q
  {
    hide PathEscape, Slashes, Folder, Leaf;
    PlaceSlashes(root, m, p);
    PlaceSlashes(root, n, q);
    SharedKey(PlacePrefix(root, m, p), PlacePrefix(root, n, q), key);
    assert PartitionPrefix(root, m) <= key && PartitionPrefix(root, n) <= key;
    PartitionsDisjoint(root, m, n, key);
    SamePlace(PartitionPrefix(root, m), p, q);
  }

  lemma SamePlace(base: string, p: Place, q: Place)
    requires PlaceValid(p) && PlaceValid(q)
    requires base + (Folder(p) + "/" + (Leaf(p) + "/")) == base + (Folder(q) + "/" + (Leaf(q) + "/"))
    ensures p == q
  {
    SameTail(base, Folder(p) + "/" + (Leaf(p) + "/"), Folder(q) + "/" + (Leaf(q) + "/"));
    FolderHasNoSlash(p);
    FolderHasNoSlash(q);
    hide Folder;
    SegmentUnique(Folder(p), Folder(q), Leaf(p) + "/", Leaf(q) + "/");
    SameFolder(p, q);
  }

  lemma SameTail(base: string, x: string, y: string)
    requires base + x == base + y
    ensures x == y
  {
    assert (base + x)[|base|..] == x && (base + y)[|base|..] == y;
  }

  lemma SameFolder(p: Place, q: Place)
    requires Folder(p) == Folder(q) && Leaf(p) + "/" == Leaf(q) + "/"
    ensures p == q
  {
    assert Folder(p)[0] == if p.FullAttempt? then 'f' else 'i';
    assert Folder(q)[0] == if q.FullAttempt? then 'f' else 'i';
    assert (Leaf(p) + "/")[..|Leaf(p)|] == Leaf(p) && (Leaf(q) + "/")[..|Leaf(q)|] == Leaf(q);
  }

  // ---------- The guard of clear ----------

  /** clear refuses a prefix that is not at least four segments below the root. */
  predicate SafeToClear(root: string, prefix: string) {
    var r := TrimSlashes(root);
    r != "" && r + "/" <= prefix && Slashes(prefix[|r| + 1..]) >= 4
  }

  lemma SafeIff(root: string, rest: string)
    ensures SafeToClear(root, TrimSlashes(root) + "/" + rest) <==> TrimSlashes(root) != "" && Slashes(rest) >= 4
  {
    hide TrimSlashes, Slashes;
    var r := TrimSlashes(root);
    assert (r + "/" + rest)[|r| + 1..] == rest && (r + "/" + rest)[..|r| + 1] == r + "/";
  }

  /** What the program clears passes the guard, unless the root is nothing but slashes. */
  lemma GuardAcceptsIff(root: string, n: Names, batch: string)
    requires NamesValid(n)
    ensures SafeToClear(root, PartitionPrefix(root, n)) <==> !OnlySlashes(root)
    ensures SafeToClear(root, PlacePrefix(root, n, Delta(batch))) <==> !OnlySlashes(root)
  {
    hide PathEscape, Slashes, TrimSlashes, SafeToClear;
    NothingLeftIff(root);
    var r := TrimSlashes(root);
    var tail := "incremental" + "/" + (batch + "/");
    assert PartitionPrefix(root, n) == r + "/" + Below(n);
    assert PlacePrefix(root, n, Delta(batch)) == r + "/" + (Below(n) + tail);
    hide Below, PartitionPrefix, PlacePrefix;
    SafeIff(root, Below(n));
    SafeIff(root, Below(n) + tail);
    BelowSlashes(n);
    SlashesAdd(Below(n), tail);
  }

  /** And what passes the guard reaches the objects of one partition at most. */
  lemma GuardedIsOnePartition(root: string, prefix: string, m: Names, n: Names, j: string, k: string)
    requires NamesValid(m) && NamesValid(n) && SafeToClear(root, prefix) && prefix <= j && prefix <= k
    requires PartitionPrefix(root, m) <= j && PartitionPrefix(root, n) <= k
    ensures m == n
  {
    GuardedIsBelow(root, prefix, m, j);
    GuardedIsBelow(root, prefix, n, k);
    PartitionsDisjoint(root, m, n, prefix);
  }

  lemma GuardedIsBelow(root: string, prefix: string, n: Names, key: string)
    requires NamesValid(n) && SafeToClear(root, prefix) && prefix <= key && PartitionPrefix(root, n) <= key
    ensures PartitionPrefix(root, n) <= prefix
  {
    hide PathEscape, Slashes;
    var r := TrimSlashes(root);
    var p := PartitionPrefix(root, n);
    PrefixSlashes(root, n);
    assert prefix == (r + "/") + prefix[|r| + 1..];
    SlashesAdd(r + "/", prefix[|r| + 1..]);
    SlashesAdd(r, "/");
    assert Slashes("/") == 1 by { SegmentSlashes("", ""); assert "" + "/" + "" == "/"; EmptySlashes(); }
    if |prefix| < |p| { ExtensionHasMore(prefix, p); }
  }

  lemma EmptySlashes()
    ensures Slashes("") == 0
  {
  }

  // ---------- Comparing listings ----------

  /** equalStrings; the lists it is given are sorted, see Strings.SortedIsSet. */
  method EqualLists(a: seq<string>, b: seq<string>) returns (same: bool)
    ensures same <==> a == b
  {
    if |a| != |b| { return false; }
    for i := 0 to |a|
      invariant a[..i] == b[..i]
    {
      if a[i] != b[i] { return false; }
    }
    assert a == a[..|a|] && b == b[..|b|];
    return true;
  }

  // ---------- list and clear ----------

  /** The name ends in .parquet, in any case. */
  predicate IsParquet(key: string) {
    |key| >= 8 && forall k :: 0 <= k < 8 ==> Lower(key[|key| - 8 + k]) == ".parquet"[k]
  }

  /** list's filter: a nonempty parquet object directly below the prefix. */
  predicate Listed(prefix: string, key: string, size: nat) {
    prefix <= key && size > 0 && IsParquet(key) && '/' !in key[|prefix|..]
  }

  function ToLower(s: string): string {
    if s == "" then "" else [Lower(s[0])] + ToLower(s[1..])
  }

  lemma {:induction false} ToLowerAt(s: string, k: nat)
    requires k < |s|
    ensures |ToLower(s)| == |s| && ToLower(s)[k] == Lower(s[k])
  {
    if |s| > 1 { ToLowerAt(s[1..], if k > 0 then k - 1 else 0); }
  }

  /** The suffix test of the program, on the key in lower case. */
  lemma IsParquetIff(key: string)
    ensures IsParquet(key) <==> |key| >= 8 && |ToLower(key)| == |key| && ToLower(key)[|key| - 8..] == ".parquet"
  {
    if |key| >= 8 {
      forall k | 0 <= k < |key| ensures |ToLower(key)| == |key| && ToLower(key)[k] == Lower(key[k]) { ToLowerAt(key, k); }
      var tail := ToLower(key)[|key| - 8..];
      assert forall k | 0 <= k < 8 :: tail[k] == Lower(key[|key| - 8 + k]);
      assert |tail| == |".parquet"|;
    }
  }

  /** What a listing of a prefix shows: the parquet objects with rows directly below it, in
      particular none of a deeper prefix. */
  lemma ListedIff(prefix: string, name: string, size: nat)
    ensures Listed(prefix, prefix + name, size) <==>
              size > 0 && '/' !in name
              && |prefix + name| >= 8 && |ToLower(prefix + name)| == |prefix + name|
              && ToLower(prefix + name)[|prefix + name| - 8..] == ".parquet"
  {
    IsParquetIff(prefix + name);
    assert (prefix + name)[|prefix|..] == name;
  }

  class Bucket {
    const root: string
    var objects: map<string, nat>         // key and size
    ghost var faults: nat                 // requests that failed

    constructor (root: string)
      ensures this.root == root && objects == map[] && faults == 0
    {
      this.root, objects, faults := root, map[], 0;
    }

    /** list: the names that pass the filter, in order. */
    method List(prefix: string) returns (keys: seq<string>)
      ensures Ascending(keys)
      ensures forall k :: k in keys <==> k in objects && Listed(prefix, k, objects[k])
    {
      keys := [];
      var rest := objects.Keys;
      while rest != {}
        invariant rest <= objects.Keys && Ascending(keys)
        invariant forall k :: k in keys <==> k in objects && k !in rest && Listed(prefix, k, objects[k])
        decreases |rest|
      {
        var key :| key in rest;
        rest := rest - {key};
        if Listed(prefix, key, objects[key]) { keys := Insert(keys, key); }
      }
    }

    /** clear: every object below the prefix, one by one, or only some of them. */
    method Clear(prefix: string) returns (ok: bool)
      modifies this
      ensures !SafeToClear(root, prefix) ==> !ok && objects == old(objects)
      ensures ok <==> SafeToClear(root, prefix) && faults == old(faults)
      ensures ok ==> objects == map k | k in old(objects) && !(prefix <= k) :: old(objects)[k]
      ensures objects.Keys <= old(objects.Keys)
      ensures forall k | k in old(objects) && (k in objects || !(prefix <= k)) :: k in objects && objects[k] == old(objects)[k]
    {
      if !SafeToClear(root, prefix) { return false; }
      var rest := set k | k in objects && prefix <= k;
      while rest != {}
        invariant faults == old(faults) && rest <= objects.Keys <= old(objects.Keys) && forall k | k in rest :: prefix <= k
        invariant forall k | k in old(objects) :: k in objects <==> !(prefix <= k) || k in rest
        invariant forall k | k in objects :: objects[k] == old(objects)[k]
        decreases |rest|
      {
        var failed: bool := *;
        if failed {
          faults := faults + 1;
          return false;
        }
        var key :| key in rest;
        objects := objects - {key};
        rest := rest - {key};
      }
      return true;
    }

    /** Clearing one partition's prefix leaves every object of every other partition. */
    method ClearPartition(n: Names) returns (ok: bool)
      requires NamesValid(n)
      modifies this
      ensures ok <==> !OnlySlashes(root) && faults == old(faults)
      ensures ok ==> forall k | k in objects :: !(PartitionPrefix(root, n) <= k)
      ensures forall m, k | NamesValid(m) && m != n && k in old(objects) && PartitionPrefix(root, m) <= k ::
                k in objects && objects[k] == old(objects)[k]
    {
      GuardAcceptsIff(root, n, "");
      ok := Clear(PartitionPrefix(root, n));
      forall m, k | NamesValid(m) && m != n && k in old(objects) && PartitionPrefix(root, m) <= k
        ensures k in objects && objects[k] == old(objects)[k]
      {
        if PartitionPrefix(root, n) <= k { PartitionsDisjoint(root, m, n, k); }
      }
    }
  }
}
