/** Strings of bytes, as Go compares and trims them, and sorted lists of them. */
module Strings {
  /** Go's < on strings of bytes. */
  predicate Before(a: string, b: string) {
    |b| > 0 && (|a| == 0 || a[0] < b[0] || (a[0] == b[0] && Before(a[1..], b[1..])))
  }

  lemma {:induction false} BeforeSamePrefix(p: string, a: string, b: string)
    ensures Before(p + a, p + b) <==> Before(a, b)
  {
    if p == [] {
      assert p + a == a && p + b == b;
    } else {
      assert (p + a)[1..] == p[1..] + a && (p + b)[1..] == p[1..] + b;
      BeforeSamePrefix(p[1..], a, b);
    }
  }

  lemma {:induction false} BeforeTotal(a: string, b: string)
    ensures a == b || Before(a, b) || Before(b, a)
  {
    if a != "" && b != "" && a[0] == b[0] {
      BeforeTotal(a[1..], b[1..]);
      assert a == [a[0]] + a[1..] && b == [b[0]] + b[1..];
    }
  }

  lemma {:induction false} BeforeTransitive(a: string, b: string, c: string)
    requires Before(a, b) && Before(b, c)
    ensures Before(a, c) && a != c
  {
    if a != "" && a[0] == b[0] && b[0] == c[0] { BeforeTransitive(a[1..], b[1..], c[1..]); }
  }

  lemma {:induction false} BeforeIrreflexive(a: string)
    ensures !Before(a, a)
  {
    if a != "" { BeforeIrreflexive(a[1..]); }
  }

  function Lower(c: char): char {
    if 'A' <= c <= 'Z' then (c as int + 32) as char else c
  }

  // ---------- Names ----------

  /** unicode.IsSpace. */
  predicate IsSpace(c: char) {
    || '\t' <= c <= '\r' || c == ' ' || c as int in {0x85, 0xA0, 0x1680, 0x2028, 0x2029, 0x202F, 0x205F, 0x3000}
    || 0x2000 <= c as int <= 0x200A
  }

  /** strings.TrimSpace. */
  function TrimSpace(s: string): string
    decreases |s|
  {
    if s != "" && IsSpace(s[0]) then TrimSpace(s[1..])
    else if s != "" && IsSpace(s[|s| - 1]) then TrimSpace(s[..|s| - 1])
    else s
  }

  /** Nonempty, and without blanks around it. */
  predicate Exact(s: string) {
    s != "" && !IsSpace(s[0]) && !IsSpace(s[|s| - 1])
  }

  lemma {:induction false} TrimIsShorter(s: string)
    ensures |TrimSpace(s)| <= |s|
    decreases |s|
  {
    if s != "" && IsSpace(s[0]) {
      TrimIsShorter(s[1..]);
    } else if s != "" && IsSpace(s[|s| - 1]) {
      TrimIsShorter(s[..|s| - 1]);
    }
  }

  /** An exact name is one that trimming leaves alone. */
  lemma ExactIff(s: string)
    ensures Exact(s) <==> s != "" && TrimSpace(s) == s
  {
    if s != "" && IsSpace(s[0]) {
      TrimIsShorter(s[1..]);
    } else if s != "" && IsSpace(s[|s| - 1]) {
      TrimIsShorter(s[..|s| - 1]);
    }
  }

  // ---------- Sorted lists ----------

  predicate Ascending(keys: seq<string>) {
    forall j, k :: 0 <= j < k < |keys| ==> Before(keys[j], keys[k])
  }

  /** Insertion into a sorted listing; sort.Strings is the fold of it. */
  function Insert(keys: seq<string>, key: string): (r: seq<string>)
    requires Ascending(keys) && key !in keys
    ensures Ascending(r) && forall x :: x in r <==> x in keys || x == key
  {
    if keys == [] then [key]
    else if Before(key, keys[0]) then
      assert forall k | 0 < k < |keys| :: Before(key, keys[k]) by {
        forall k | 0 < k < |keys| ensures Before(key, keys[k]) { BeforeTransitive(key, keys[0], keys[k]); }
      }
      [key] + keys
    else
      var rest := Insert(keys[1..], key);
      assert forall x | x in rest :: Before(keys[0], x) by { BeforeTotal(key, keys[0]); }
      [keys[0]] + rest
  }

  /** Sorted listings are equal if and only if they have the same names: so the program,
      which compares sorted lists, compares sets of objects. */
  lemma SortedIsSet(a: seq<string>, b: seq<string>)
    requires Ascending(a) && Ascending(b)
    ensures a == b <==> Members(a) == Members(b)
  {
    if Members(a) == Members(b) {
      forall x ensures x in a <==> x in b {
        assert x in a <==> x in Members(a);
        assert x in b <==> x in Members(b);
      }
      SameMembers(a, b);
    }
  }

  function Members(keys: seq<string>): set<string> {
    set x | x in keys
  }

  lemma {:induction false} SameMembers(a: seq<string>, b: seq<string>)
    requires Ascending(a) && Ascending(b) && forall x :: x in a <==> x in b
    ensures a == b
  {
    HeadIsMember(b);
    if a != [] {
      assert a[0] in b && (b != [] ==> b[0] in a);
      if a[0] != b[0] { BeforeTransitive(a[0], b[0], a[0]); }
      forall x ensures x in a[1..] <==> x in b[1..] {
        NotAgain(a, x);
        NotAgain(b, x);
      }
      SameMembers(a[1..], b[1..]);
    }
  }

  lemma HeadIsMember(a: seq<string>)
    ensures a != [] ==> a[0] in a
  {
  }

  lemma NotAgain(a: seq<string>, x: string)
    requires Ascending(a) && a != []
    ensures x in a[1..] <==> x in a && x != a[0]
  {
    if x in a[1..] {
      var k :| 0 <= k < |a[1..]| && a[1..][k] == x;
      if x == a[0] { BeforeTransitive(a[0], a[k + 1], a[0]); }
    }
  }
}
