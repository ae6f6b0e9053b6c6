/** sql.go: the quoting of names, strings and property lists. */
module Sql {
  import opened Rows
  import opened Strings
  import opened Scanner

  // ---------- Names ----------

  /** strings.ReplaceAll of one character. */
  function Replace(s: string, c: char, text: string): string {
    if s == "" then "" else (if s[0] == c then text else [s[0]]) + Replace(s[1..], c, text)
  }

  function DoubleTicks(s: string): string {
    Replace(s, '`', "``")
  }

  /** ident. */
  function Ident(s: string): string {
    "`" + (DoubleTicks(s) + "`")
  }

  /** What a SQL lexer reads after an opening backtick: the name, and the text behind it. */
  function ReadTicks(s: string): Option<(string, string)> {
    if s == "" then None
    else if s[0] != '`' then
      var r := ReadTicks(s[1..]);
      if r.None? then None else Some(([s[0]] + r.value.0, r.value.1))
    else if |s| > 1 && s[1] == '`' then
      var r := ReadTicks(s[2..]);
      if r.None? then None else Some((['`'] + r.value.0, r.value.1))
    else Some(("", s[1..]))
  }

  function ReadIdent(s: string): Option<(string, string)> {
    if s == "" || s[0] != '`' then None else ReadTicks(s[1..])
  }

  lemma {:induction false} TicksRoundTrip(s: string, rest: string)
    requires rest == "" || rest[0] != '`'
    ensures ReadTicks(DoubleTicks(s) + "`" + rest) == Some((s, rest))
  {
    var t := DoubleTicks(s) + "`" + rest;
    if s == "" {
      assert t == "`" + rest && t[1..] == rest;
    } else {
      var u := DoubleTicks(s[1..]) + "`" + rest;
      TicksRoundTrip(s[1..], rest);
      assert s == [s[0]] + s[1..];
      if s[0] == '`' {
        assert t == "``" + u && t[2..] == u;
      } else {
        assert t == [s[0]] + u && t[1..] == u;
      }
    }
  }

  /** Any name reads back from its quoted form, whatever it contains. */
  lemma IdentRoundTrip(s: string, rest: string)
    requires rest == "" || rest[0] != '`'
    ensures ReadIdent(Ident(s) + rest) == Some((s, rest))
  {
    TicksRoundTrip(s, rest);
    assert (Ident(s) + rest)[1..] == DoubleTicks(s) + "`" + rest;
  }

  /** The column list of an export or import: quoted names joined by ", ". */
  function ColumnList(columns: seq<string>): string {
    if columns == [] then ""
    else if |columns| == 1 then Ident(columns[0])
    else Ident(columns[0]) + (", " + ColumnList(columns[1..]))
  }

  function ReadColumns(s: string): Option<seq<string>>
    decreases |s|
  {
    var first := ReadIdent(s);
    if first.None? then None
    else
      var (name, rest) := first.value;
      if rest == "" then Some([name])
      else if |rest| < 2 || rest[..2] != ", " || |rest| >= |s| then None
      else
        var more := ReadColumns(rest[2..]);
        if more.None? then None else Some([name] + more.value)
  }

  /** Generated column lists name exactly the input columns, in their order. */
  lemma {:induction false} ColumnsRoundTrip(columns: seq<string>)
    requires columns != []
    ensures ReadColumns(ColumnList(columns)) == Some(columns)
  {
    hide Ident, ReadIdent;
    if |columns| == 1 {
      IdentRoundTrip(columns[0], "");
      assert Ident(columns[0]) + "" == Ident(columns[0]);
      assert columns == [columns[0]];
    } else {
      var tail := ", " + ColumnList(columns[1..]);
      IdentRoundTrip(columns[0], tail);
      ColumnsRoundTrip(columns[1..]);
      assert tail[..2] == ", " && tail[2..] == ColumnList(columns[1..]);
      assert |Ident(columns[0])| > 0 by { IdentNotEmpty(columns[0]); }
      assert columns == [columns[0]] + columns[1..];
    }
  }

  lemma IdentNotEmpty(s: string)
    ensures |Ident(s)| > 0
  {
  }

  // ---------- Strings ----------

  /** sqlString. */
  function SqlString(s: string): string {
    "\"" + (Replace(Replace(s, '\\', "\\\\"), '"', "\\\"") + "\"")
  }

  /** The two replacements of sqlString at once. */
  function EscapeString(s: string): string {
    if s == "" then ""
    else (if s[0] == '\\' || s[0] == '"' then ['\\', s[0]] else [s[0]]) + EscapeString(s[1..])
  }

  lemma {:induction false} TwoReplacements(s: string)
    ensures Replace(Replace(s, '\\', "\\\\"), '"', "\\\"") == EscapeString(s)
  {
    if s != "" {
      TwoReplacements(s[1..]);
      var r := Replace(s[1..], '\\', "\\\\");
      if s[0] == '\\' {
        var t := "\\\\" + r;
        assert Replace(s, '\\', "\\\\") == t && t[1..][1..] == r;
        assert Replace(t, '"', "\\\"") == ['\\'] + Replace(t[1..], '"', "\\\"");
        assert Replace(t[1..], '"', "\\\"") == ['\\'] + Replace(r, '"', "\\\"");
      } else {
        assert ([s[0]] + r)[1..] == r;
      }
    }
  }

  /** What a SQL lexer reads after an opening double quote. */
  function ReadEscaped(s: string): Option<(string, string)> {
    if s == "" then None
    else if s[0] == '"' then Some(("", s[1..]))
    else if s[0] == '\\' then
      if |s| == 1 then None
      else
        var r := ReadEscaped(s[2..]);
        if r.None? then None else Some(([s[1]] + r.value.0, r.value.1))
    else
      var r := ReadEscaped(s[1..]);
      if r.None? then None else Some(([s[0]] + r.value.0, r.value.1))
  }

  function ReadString(s: string): Option<(string, string)> {
    if s == "" || s[0] != '"' then None else ReadEscaped(s[1..])
  }

  /** One character of the escaped text is read back as itself. */
  lemma ReadEscapedChar(c: char, u: string)
    requires ReadEscaped(u).Some?
    ensures var t := (if c == '\\' || c == '"' then ['\\', c] else [c]) + u;
            ReadEscaped(t) == Some(([c] + ReadEscaped(u).value.0, ReadEscaped(u).value.1))
  {
    if c == '\\' || c == '"' {
      var t := ['\\', c] + u;
      assert t[0] == '\\' && t[1] == c && t[2..] == u;
    } else {
      assert ([c] + u)[1..] == u;
    }
  }

  lemma {:induction false} EscapedRoundTrip(s: string, rest: string)
    ensures ReadEscaped(EscapeString(s) + ("\"" + rest)) == Some((s, rest))
  {
    if s == "" {
      assert EscapeString(s) + ("\"" + rest) == "\"" + rest && ("\"" + rest)[1..] == rest;
    } else {
      EscapedRoundTrip(s[1..], rest);
      EscapeSplits(s, "\"" + rest);
      ReadEscapedChar(s[0], EscapeString(s[1..]) + ("\"" + rest));
      assert s == [s[0]] + s[1..];
    }
  }

  lemma EscapeSplits(s: string, tail: string)
    requires s != ""
    ensures EscapeString(s) + tail
         == (if s[0] == '\\' || s[0] == '"' then ['\\', s[0]] else [s[0]]) + (EscapeString(s[1..]) + tail)
  {
  }

  lemma StringRoundTrip(s: string, rest: string)
    ensures ReadString(SqlString(s) + rest) == Some((s, rest))
  {
    TwoReplacements(s);
    EscapedRoundTrip(s, rest);
    assert (SqlString(s) + rest)[1..] == EscapeString(s) + ("\"" + rest);
  }

  // ---------- Properties ----------

  function Item(key: string, value: string): string {
    SqlString(key) + (" = " + SqlString(value))
  }

  predicate Known(keys: seq<string>, props: map<string, string>) {
    forall k :: 0 <= k < |keys| ==> keys[k] in props
  }

  /** strings.Join of the items of the given keys. */
  function Items(keys: seq<string>, props: map<string, string>): string
    requires Known(keys, props)
  {
    if keys == [] then ""
    else Item(keys[0], props[keys[0]]) + if |keys| == 1 then "" else ", " + Items(keys[1..], props)
  }

  lemma {:induction false} ItemsAppend(keys: seq<string>, key: string, props: map<string, string>)
    requires Known(keys, props) && key in props
    ensures Items(keys + [key], props) == Items(keys, props) + (if keys == [] then "" else ", ") + Item(key, props[key])
  {
    hide Item;
    if keys == [] {
      assert keys + [key] == [key];
    } else {
      assert (keys + [key])[1..] == keys[1..] + [key];
      ItemsAppend(keys[1..], key, props);
    }
  }

  /** Ranging over a map gives its keys in any order; sorting makes one of them. */
  method SortedKeys(props: map<string, string>) returns (keys: seq<string>)
    ensures Ascending(keys) && Members(keys) == props.Keys
  {
    keys := [];
    var rest := props.Keys;
    while rest != {}
      invariant rest <= props.Keys && Ascending(keys) && Members(keys) == props.Keys - rest
      decreases |rest|
    {
      var key :| key in rest;
      rest := rest - {key};
      assert key !in Members(keys);
      ghost var before := keys;
      keys := Insert(keys, key);
      assert Members(keys) == Members(before) + {key};
    }
  }

  lemma SortedKnown(keys: seq<string>, props: map<string, string>)
    requires Members(keys) == props.Keys
    ensures Known(keys, props)
  {
  }

  /** sqlProperties. */
  method SqlProperties(props: map<string, string>) returns (text: string, ghost sorted: seq<string>)
    ensures Ascending(sorted) && Members(sorted) == props.Keys && Known(sorted, props)
    ensures text == Items(sorted, props)
  {
    hide Item, Ascending, Members, Items;
    var keys := SortedKeys(props);
    SortedKnown(keys, props);
    NoItems(props);
    text := "";
    for i := 0 to |keys|
      invariant text == Items(keys[..i], props)
    {
      assert keys[..i + 1] == keys[..i] + [keys[i]];
      ItemsAppend(keys[..i], keys[i], props);
      text := text + (if i == 0 then "" else ", ") + Item(keys[i], props[keys[i]]);
    }
    assert keys[..|keys|] == keys;
    sorted := keys;
  }

  lemma NoItems(props: map<string, string>)
    ensures Items([], props) == ""
  {
  }

  /** What a SQL parser reads from a property list. */
  function ReadItems(s: string): Option<map<string, string>>
    decreases |s|
  {
    if s == "" then Some(map[])
    else
      var key := ReadString(s);
      if key.None? then None
      else
        var t := key.value.1;
        if !(" = " <= t) then None
        else
          var value := ReadString(t[3..]);
          if value.None? then None
          else
            var rest := value.value.1;
            if rest == "" then Some(map[key.value.0 := value.value.0])
            else if !(", " <= rest) || |rest| >= |s| then None
            else
              var more := ReadItems(rest[2..]);
              if more.None? || key.value.0 in more.value then None else Some(more.value[key.value.0 := value.value.0])
  }

  function Restrict(props: map<string, string>, keys: seq<string>): map<string, string> {
    map k | k in props && k in keys :: props[k]
  }

  /** One item and what follows it. */
  lemma ReadOne(key: string, value: string, rest: string)
    ensures ReadString(Item(key, value) + rest) == Some((key, " = " + SqlString(value) + rest))
    ensures ReadString((" = " + SqlString(value) + rest)[3..]) == Some((value, rest))
    ensures " = " <= " = " + SqlString(value) + rest && |Item(key, value)| > 0
  {
    hide EscapeString, ReadEscaped;
    var tail := " = " + SqlString(value) + rest;
    assert Item(key, value) + rest == SqlString(key) + tail;
    StringRoundTrip(key, tail);
    assert tail[3..] == SqlString(value) + rest && tail[..3] == " = ";
    StringRoundTrip(value, rest);
  }

  lemma ReadLast(key: string, value: string)
    ensures ReadItems(Item(key, value)) == Some(map[key := value])
  {
    hide Item, ReadString, SqlString;
    ReadOne(key, value, "");
    assert Item(key, value) + "" == Item(key, value);
  }

  lemma ReadMore(key: string, value: string, more: string)
    requires ReadItems(more).Some? && key !in ReadItems(more).value
    ensures ReadItems(Item(key, value) + (", " + more)) == Some(ReadItems(more).value[key := value])
  {
    hide Item, ReadString, SqlString;
    var rest := ", " + more;
    ReadOne(key, value, rest);
    assert rest[..2] == ", " && rest[2..] == more;
  }

  lemma {:induction false} ItemsRoundTrip(keys: seq<string>, props: map<string, string>)
    requires Known(keys, props) && Ascending(keys)
    ensures ReadItems(Items(keys, props)) == Some(Restrict(props, keys))
  {
    hide Item, ReadItems;
    if keys == [] {
      assert Restrict(props, keys) == map[];
      NoItemsRead();
    } else if |keys| == 1 {
      ReadLast(keys[0], props[keys[0]]);
      assert Items(keys, props) == Item(keys[0], props[keys[0]]);
      OneKey(props, keys);
    } else {
      ItemsRoundTrip(keys[1..], props);
      NotAgain(keys, keys[0]);
      ReadMore(keys[0], props[keys[0]], Items(keys[1..], props));
      RestrictStep(props, keys);
    }
  }

  lemma OneKey(props: map<string, string>, keys: seq<string>)
    requires |keys| == 1 && Known(keys, props)
    ensures Restrict(props, keys) == map[keys[0] := props[keys[0]]]
  {
    assert keys == [keys[0]];
  }

  lemma NoItemsRead()
    ensures ReadItems("") == Some(map[])
  {
  }

  lemma RestrictStep(props: map<string, string>, keys: seq<string>)
    requires keys != [] && Known(keys, props)
    ensures Restrict(props, keys) == Restrict(props, keys[1..])[keys[0] := props[keys[0]]]
  {
  }

  /** The round trip: parsing what sqlProperties prints gives back the map. */
  lemma PropertiesRoundTrip(props: map<string, string>, sorted: seq<string>)
    requires Ascending(sorted) && Members(sorted) == props.Keys && Known(sorted, props)
    ensures ReadItems(Items(sorted, props)) == Some(props)
  {
    ItemsRoundTrip(sorted, props);
    forall k ensures k in Restrict(props, sorted) <==> k in props { assert k in Members(sorted) <==> k in sorted; }
    assert Restrict(props, sorted) == props;
  }

  /** The text does not depend on the order in which the map was ranged over. */
  lemma OneText(props: map<string, string>, a: seq<string>, b: seq<string>)
    requires Ascending(a) && Ascending(b) && Members(a) == props.Keys == Members(b)
    ensures a == b
  {
    SortedIsSet(a, b);
  }

  // ---------- A name inside a group ----------

  /** A run of backslashes of odd length ends the string. */
  predicate OddTail(s: string) {
    s != "" && s[|s| - 1] == '\\' && !OddTail(s[..|s| - 1])
  }

  /** No backquote comes right after an odd run of backslashes. */
  predicate TicksFit(n: string) {
    forall k | 0 <= k < |n| && n[k] == '`' :: !OddTail(n[..k])
  }

  /** Nor does the end of the name. */
  predicate Unescaped(n: string) {
    !OddTail(n) && TicksFit(n)
  }

  /** closingParen reads backslashes as escapes in backquotes too, where neither ident nor
      the pattern of createPrefix does. So a group that holds one quoted name, whatever its
      characters, is closed at the right place if and only if the name is Unescaped. */
  lemma NameInGroupIff(n: string, rest: string)
    ensures Has("(" + Ident(n) + ")" + rest, 0, "(" + Ident(n) + ")")
    ensures Scan("(" + Ident(n) + ")" + rest, 0, Outside, 0) == Some(|Ident(n)| + 1) <==> Unescaped(n)
  {
    var sql := "(" + Ident(n) + ")" + rest;
    assert sql == ['(', '`'] + (DoubleTicks(n) + "`)") + rest;
    assert sql[0] == '(' && sql[1] == '`';
    ScanOutside(sql, 0, 0);
    ScanOutside(sql, 1, 1);
    assert "" + n == n;
    ScanName(sql, 2, "", n);
  }

  /** The rest `m` of a name stands at `i`, with the closing quote and parenthesis. */
  predicate NameAt(sql: string, i: nat, m: string) {
    Has(sql, i, DoubleTicks(m) + "`)")
  }

  lemma NameAtStep(sql: string, i: nat, m: string)
    requires m != "" && NameAt(sql, i, m)
    ensures if m[0] == '`' then i + 1 < |sql| && sql[i] == '`' && sql[i + 1] == '`' && NameAt(sql, i + 2, m[1..])
            else i < |sql| && sql[i] == m[0] && NameAt(sql, i + 1, m[1..])
    ensures |DoubleTicks(m)| == |DoubleTicks(m[1..])| + if m[0] == '`' then 2 else 1
  {
    var tail := DoubleTicks(m[1..]) + "`)";
    if m[0] == '`' {
      assert DoubleTicks(m) + "`)" == ['`', '`'] + tail;
      HasTwo(sql, i, '`', '`', tail);
    } else {
      assert DoubleTicks(m) + "`)" == [m[0]] + tail;
      HasParts(sql, i, [m[0]], tail);
      HasChar(sql, i, m[0]);
    }
  }

  lemma NameAtEnd(sql: string, i: nat)
    requires NameAt(sql, i, "")
    ensures i + 1 < |sql| && sql[i] == '`' && sql[i + 1] == ')'
  {
    assert DoubleTicks("") + "`)" == ['`', ')'] + "";
    HasTwo(sql, i, '`', ')', "");
  }

  /** Outside backquotes at a boundary of the name: having read one as escaped. */
  predicate Flipped(s: State) {
    s.Outside? || (s.q != '`' && IsQuote(s.q))
  }

  /** Once flipped the scan is never inside backquotes again at a boundary of the name, so
      the parenthesis behind it is read as quoted. */
  lemma {:induction false} ScanFlipped(sql: string, i: nat, m: string, s: State, depth: int)
    requires NameAt(sql, i, m) && Flipped(s) && i <= |sql|
    ensures Scan(sql, i, s, depth) != Some(i + |DoubleTicks(m)| + 1)
    decreases |m|
  {
    if m == "" {
      NameAtEnd(sql, i);
      assert Scan(sql, i, s, depth) == Scan(sql, i + 1, Step(s, '`'), depth);
      assert Scan(sql, i + 1, Step(s, '`'), depth) == Scan(sql, i + 2, Step(Step(s, '`'), ')'), depth);
    } else {
      NameAtStep(sql, i, m);
      if m[0] == '`' {
        assert Scan(sql, i, s, depth) == Scan(sql, i + 1, Step(s, '`'), depth);
        assert Scan(sql, i + 1, Step(s, '`'), depth) == Scan(sql, i + 2, Step(Step(s, '`'), '`'), depth);
        ScanFlipped(sql, i + 2, m[1..], Step(Step(s, '`'), '`'), depth);
      } else {
        ScanFlipped(sql, i + 1, m[1..], Step(s, m[0]), Deeper(s, m[0], depth));
      }
    }
  }

  /** Where the scan is inside the backquotes once `read` of the name is behind it. */
  function NameState(read: string): State {
    if OddTail(read) then Escape('`') else Inside('`')
  }

  lemma ScanNameEnd(sql: string, i: nat, read: string)
    requires NameAt(sql, i, "") && i <= |sql|
    ensures Scan(sql, i, NameState(read), 1) == Some(i + 1) <==> !OddTail(read)
  {
    hide OddTail;
    NameAtEnd(sql, i);
    assert Scan(sql, i, NameState(read), 1) == Scan(sql, i + 1, Step(NameState(read), '`'), 1);
    if OddTail(read) {
      assert Scan(sql, i + 1, Inside('`'), 1) == Scan(sql, i + 2, Inside('`'), 1);
    } else {
      ScanOutside(sql, i + 1, 1);
    }
  }

  lemma ScanNameChar(sql: string, i: nat, read: string, c: char)
    requires i < |sql| && sql[i] == c && c != '`'
    ensures Scan(sql, i, NameState(read), 1) == Scan(sql, i + 1, NameState(read + [c]), 1)
  {
    assert (read + [c])[..|read|] == read;
  }

  lemma ScanNameTick(sql: string, i: nat, read: string)
    requires i + 1 < |sql| && sql[i] == sql[i + 1] == '`'
    ensures Scan(sql, i, NameState(read), 1) == Scan(sql, i + 2, if OddTail(read) then Outside else Inside('`'), 1)
  {
    hide OddTail;
    assert Scan(sql, i, NameState(read), 1) == Scan(sql, i + 1, Step(NameState(read), '`'), 1);
    assert Scan(sql, i + 1, Step(NameState(read), '`'), 1) == Scan(sql, i + 2, Step(Step(NameState(read), '`'), '`'), 1);
  }

  lemma TicksNext(read: string, c: char)
    requires TicksFit(read) && (c == '`' ==> !OddTail(read))
    ensures TicksFit(read + [c]) && (c == '`' ==> !OddTail(read + [c]))
  {
    var more := read + [c];
    assert more[..|read|] == read;
    assert forall k | 0 <= k < |read| :: more[k] == read[k] && more[..k] == read[..k];
  }

  /** A backquote that the scan takes as escaped. */
  lemma Flips(read: string, m: string)
    requires m != "" && m[0] == '`' && OddTail(read)
    ensures !Unescaped(read + m)
  {
    assert (read + m)[|read|] == '`' && (read + m)[..|read|] == read;
  }

  /** From inside the backquotes, `read` of the name behind and `m` ahead. */
  lemma {:induction false} ScanName(sql: string, i: nat, read: string, m: string)
    requires NameAt(sql, i, m) && i <= |sql| && TicksFit(read)
    ensures Scan(sql, i, NameState(read), 1) == Some(i + |DoubleTicks(m)| + 1) <==> Unescaped(read + m)
    decreases |m|
  {
    hide Scan, NameAt, DoubleTicks, OddTail, TicksFit;
    if m == "" {
      assert read + m == read;
      ScanNameEnd(sql, i, read);
      NoTicks(read);
    } else {
      NameAtStep(sql, i, m);
      var more := read + [m[0]];
      assert read + m == more + m[1..];
      if m[0] != '`' {
        ScanNameChar(sql, i, read, m[0]);
        TicksNext(read, m[0]);
        ScanName(sql, i + 1, more, m[1..]);
      } else {
        ScanNameTick(sql, i, read);
        if OddTail(read) {
          Flips(read, m);
          ScanFlipped(sql, i + 2, m[1..], Outside, 1);
        } else {
          TicksNext(read, m[0]);
          ScanName(sql, i + 2, more, m[1..]);
        }
      }
    }
  }

  lemma NoTicks(read: string)
    requires TicksFit(read)
    ensures DoubleTicks("") == "" && (Unescaped(read) <==> !OddTail(read))
  {
  }
}
