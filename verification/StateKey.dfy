/** state.go: the keys of the checkpoint maps. */
module StateKeys {
  const NUL := '\0'

  /** stateKey: four names joined by NUL. */
  function StateKey(a: string, b: string, c: string, d: string): string {
    a + [NUL] + (b + [NUL] + (c + [NUL] + d))
  }

  /** strings.Split(s, "\x00"). */
  function Split(s: string): (parts: seq<string>)
    ensures parts != []
  {
    if s == "" then [""]
    else if s[0] == NUL then [""] + Split(s[1..])
    else
      var rest := Split(s[1..]);
      [[s[0]] + rest[0]] + rest[1..]
  }

  /** splitStateKey: an error unless there are four parts. */
  function SplitStateKey(key: string): seq<string> {
    if |Split(key)| == 4 then Split(key) else []
  }

  function Count(s: string): nat {
    if s == "" then 0 else (if s[0] == NUL then 1 else 0) + Count(s[1..])
  }

  lemma {:induction false} CountAbsent(s: string)
    ensures Count(s) == 0 <==> NUL !in s
  {
    if s != "" {
      CountAbsent(s[1..]);
      assert s == [s[0]] + s[1..];
    }
  }

  lemma {:induction false} SplitLength(s: string)
    ensures |Split(s)| == Count(s) + 1
  {
    if s != "" { SplitLength(s[1..]); }
  }

  lemma {:induction false} CountJoin(a: string, s: string)
    ensures Count(a + [NUL] + s) == Count(a) + 1 + Count(s)
  {
    if a == "" {
      assert a + [NUL] + s == [NUL] + s;
    } else {
      assert (a + [NUL] + s)[1..] == a[1..] + [NUL] + s;
      CountJoin(a[1..], s);
    }
  }

  lemma {:induction false} SplitJoin(a: string, s: string)
    requires NUL !in a
    ensures Split(a + [NUL] + s) == [a] + Split(s)
  {
    var t := a + [NUL] + s;
    if a == "" {
      assert t == [NUL] + s;
    } else {
      assert t[1..] == a[1..] + [NUL] + s && t[0] == a[0];
      SplitJoin(a[1..], s);
      assert [a[0]] + a[1..] == a;
    }
  }

  lemma {:induction false} SplitWhole(s: string)
    requires NUL !in s
    ensures Split(s) == [s]
  {
    if s != "" {
      SplitWhole(s[1..]);
      assert [s[0]] + s[1..] == s;
    }
  }

  /** The round trip: a key splits back into its names if and only if none has a NUL; a key
      of any other names is refused. */
  lemma KeyRoundTripIff(a: string, b: string, c: string, d: string)
    ensures SplitStateKey(StateKey(a, b, c, d)) == [a, b, c, d] <==> NUL !in a && NUL !in b && NUL !in c && NUL !in d
    ensures SplitStateKey(StateKey(a, b, c, d)) in {[], [a, b, c, d]}
  {
    var cd := c + [NUL] + d;
    CountJoin(a, b + [NUL] + cd);
    CountJoin(b, cd);
    CountJoin(c, d);
    CountAbsent(a);
    CountAbsent(b);
    CountAbsent(c);
    CountAbsent(d);
    SplitLength(StateKey(a, b, c, d));
    if NUL !in a && NUL !in b && NUL !in c && NUL !in d {
      SplitJoin(a, b + [NUL] + cd);
      SplitJoin(b, cd);
      SplitJoin(c, d);
      SplitWhole(d);
    }
  }

  /** So entries of different partitions never share a key. */
  lemma KeyInjective(a: string, b: string, c: string, d: string, e: string, f: string, g: string, h: string)
    requires NUL !in a && NUL !in b && NUL !in c && NUL !in d && NUL !in e && NUL !in f && NUL !in g && NUL !in h
    requires StateKey(a, b, c, d) == StateKey(e, f, g, h)
    ensures a == e && b == f && c == g && d == h
  {
    KeyRoundTripIff(a, b, c, d);
    KeyRoundTripIff(e, f, g, h);
    var k := [a, b, c, d];
    assert k[0] == a && k[1] == b && k[2] == c && k[3] == d;
  }

  // ---------- Source identities ----------

  /** sourceIdentity. */
  function Identity(id: string, version: string): string {
    id + ":" + version
  }

  /** A version is a number, so an identity names one ID and one version. */
  lemma IdentityInjective(id: string, version: string, id': string, version': string)
    requires ':' !in version && ':' !in version' && Identity(id, version) == Identity(id', version')
    ensures id == id' && version == version'
  {
    var s := Identity(id, version);
    var t := Identity(id', version');
    assert s[|id|] == ':' && t[|id'|] == ':';
    assert s[|id| + 1..] == version && t[|id'| + 1..] == version' && s[..|id|] == id && t[..|id'|] == id';
  }

  /** The test whether the imported identity has the ID of the listed partition. */
  lemma SameIdIff(imported: string, version: string, id: string)
    requires ':' !in imported && ':' !in id
    ensures id + ":" <= Identity(imported, version) <==> imported == id
  {
    var s := Identity(imported, version);
    assert s[|imported|] == ':';
    if id + ":" <= s {
      assert s[|id|] == ':' && s[..|id|] == id by { assert (id + ":")[|id|] == ':' && s[..|id|] == (id + ":")[..|id|]; }
      assert s[..|imported|] == imported;
    }
  }
}
