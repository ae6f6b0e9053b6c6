/** sql.go: closingParen, the quote-aware search for the close of a group. */
module Scanner {
  import opened Rows

  predicate IsQuote(c: char) {
    c == '\'' || c == '"' || c == '`'
  }

  // ---------- The reference automaton ----------

  /** Between characters the scan is outside quotes, inside, or after a backslash. */
  datatype State = Outside | Inside(q: char) | Escape(q: char)

  function Step(s: State, c: char): State {
    match s
    case Outside => if IsQuote(c) then Inside(c) else Outside
    case Inside(q) => if c == '\\' then Escape(q) else if c == q then Outside else Inside(q)
    case Escape(q) => Inside(q)
  }

  function Deeper(s: State, c: char, depth: int): int {
    if s == Outside && c == '(' then depth + 1
    else if s == Outside && c == ')' then depth - 1
    else depth
  }

  /** The first close that brings the depth to zero. A quote simply closes, and opens again
      if the next character is one: no lookahead. */
  function Scan(sql: string, i: nat, s: State, depth: int): (r: Option<nat>)
    requires i <= |sql|
    ensures r.Some? ==> i <= r.value < |sql|
    decreases |sql| - i
  {
    if i == |sql| then None
    else
      var d := Deeper(s, sql[i], depth);
      if s == Outside && sql[i] == ')' && d == 0 then Some(i) else Scan(sql, i + 1, Step(s, sql[i]), d)
  }

  /** closingParen, with its lookahead for doubled quotes: it is the automaton. */
  method ClosingParen(sql: string, start: nat) returns (r: Option<nat>)
    requires start <= |sql|
    ensures r == Scan(sql, start, Outside, 0)
  {
    var depth := 0;
    var quote: Option<char> := None;
    var i := start;
    while i < |sql|
      invariant start <= i <= |sql|
      invariant Scan(sql, start, Outside, 0) == Scan(sql, i, if quote.None? then Outside else Inside(quote.value), depth)
      invariant quote.Some? ==> IsQuote(quote.value)
    {
      var c := sql[i];
      if quote.Some? {
        if c == '\\' && i + 1 < |sql| {
          i := i + 1;
        } else if c == quote.value {
          if i + 1 < |sql| && sql[i + 1] == quote.value {
            i := i + 1;
          } else {
            quote := None;
          }
        }
      } else {
        match c {
          case '\'' => quote := Some(c);
          case '"' => quote := Some(c);
          case '`' => quote := Some(c);
          case '(' => depth := depth + 1;
          case ')' =>
            depth := depth - 1;
            if depth == 0 { return Some(i); }
          case _ =>
        }
      }
      i := i + 1;
    }
    return None;
  }

  // ---------- What a group is ----------

  /** Inside a quoted string: a character, one after a backslash, or the quote doubled. */
  datatype Body = Done | Raw(c: char, rest: Body) | Escaped(c: char, rest: Body) | Doubled(rest: Body)

  /** SQL text with balanced parentheses. */
  datatype Text = End | Plain(c: char, after: Text) | Group(inner: Text, after: Text) | Quote(q: char, body: Body, after: Text)

  predicate BodyValid(b: Body, q: char) {
    match b
    case Done => true
    case Raw(c, rest) => c != q && c != '\\' && BodyValid(rest, q)
    case Escaped(_, rest) => BodyValid(rest, q)
    case Doubled(rest) => BodyValid(rest, q)
  }

  predicate TextValid(t: Text) {
    match t
    case End => true
    case Plain(c, after) => !IsQuote(c) && c != '(' && c != ')' && TextValid(after)
    case Group(inner, after) => TextValid(inner) && TextValid(after)
    case Quote(q, body, after) => IsQuote(q) && BodyValid(body, q) && TextValid(after)
  }

  function PrintBody(b: Body, q: char): string {
    match b
    case Done => ""
    case Raw(c, rest) => [c] + PrintBody(rest, q)
    case Escaped(c, rest) => ['\\', c] + PrintBody(rest, q)
    case Doubled(rest) => [q, q] + PrintBody(rest, q)
  }

  function Print(t: Text): string {
    match t
    case End => ""
    case Plain(c, after) => [c] + Print(after)
    case Group(inner, after) => "(" + Print(inner) + ")" + Print(after)
    case Quote(q, body, after) => [q] + PrintBody(body, q) + [q] + Print(after)
  }

  /** `sql` has `part` at `i`. */
  predicate Has(sql: string, i: nat, part: string) {
    i + |part| <= |sql| && sql[i..i + |part|] == part
  }

  lemma HasParts(sql: string, i: nat, a: string, b: string)
    ensures Has(sql, i, a + b) <==> Has(sql, i, a) && Has(sql, i + |a|, b)
  {
    if i + |a| + |b| <= |sql| {
      var whole := sql[i..i + |a + b|];
      assert whole[..|a|] == sql[i..i + |a|] && whole[|a|..] == sql[i + |a|..i + |a| + |b|];
      assert (a + b)[..|a|] == a && (a + b)[|a|..] == b;
      assert whole == whole[..|a|] + whole[|a|..];
    }
  }

  lemma HasChar(sql: string, i: nat, c: char)
    ensures Has(sql, i, [c]) <==> i < |sql| && sql[i] == c
  {
  }

  // ---------- The same, character by character ----------

  function BodyLength(b: Body): nat {
    match b
    case Done => 0
    case Raw(_, rest) => 1 + BodyLength(rest)
    case Escaped(_, rest) => 2 + BodyLength(rest)
    case Doubled(rest) => 2 + BodyLength(rest)
  }

  function Length(t: Text): nat {
    match t
    case End => 0
    case Plain(_, after) => 1 + Length(after)
    case Group(inner, after) => 2 + Length(inner) + Length(after)
    case Quote(_, body, after) => 2 + BodyLength(body) + Length(after)
  }

  predicate BodyAt(sql: string, i: nat, b: Body, q: char)
    decreases b
  {
    && i + BodyLength(b) <= |sql|
    && match b
       case Done => true
       case Raw(c, rest) => sql[i] == c && BodyAt(sql, i + 1, rest, q)
       case Escaped(c, rest) => sql[i] == '\\' && sql[i + 1] == c && BodyAt(sql, i + 2, rest, q)
       case Doubled(rest) => sql[i] == q && sql[i + 1] == q && BodyAt(sql, i + 2, rest, q)
  }

  predicate TextAt(sql: string, i: nat, t: Text)
    decreases t
  {
    && i + Length(t) <= |sql|
    && match t
       case End => true
       case Plain(c, after) => sql[i] == c && TextAt(sql, i + 1, after)
       case Group(inner, after) =>
         && sql[i] == '(' && TextAt(sql, i + 1, inner) && sql[i + 1 + Length(inner)] == ')'
         && TextAt(sql, i + 2 + Length(inner), after)
       case Quote(q, body, after) =>
         && sql[i] == q && BodyAt(sql, i + 1, body, q) && sql[i + 1 + BodyLength(body)] == q
         && TextAt(sql, i + 2 + BodyLength(body), after)
  }

  lemma {:induction false} BodyAtIff(sql: string, i: nat, b: Body, q: char)
    ensures |PrintBody(b, q)| == BodyLength(b)
    ensures BodyAt(sql, i, b, q) <==> Has(sql, i, PrintBody(b, q))
    decreases b
  {
    hide Has;
    match b {
      case Done => HasNothing(sql, i);
      case Raw(c, rest) =>
        BodyAtIff(sql, i + 1, rest, q);
        HasParts(sql, i, [c], PrintBody(rest, q));
        HasChar(sql, i, c);
      case Escaped(c, rest) =>
        BodyAtIff(sql, i + 2, rest, q);
        HasTwo(sql, i, '\\', c, PrintBody(rest, q));
      case Doubled(rest) =>
        BodyAtIff(sql, i + 2, rest, q);
        HasTwo(sql, i, q, q, PrintBody(rest, q));
    }
    HasLength(sql, i, PrintBody(b, q));
  }

  lemma HasNothing(sql: string, i: nat)
    ensures Has(sql, i, "") <==> i <= |sql|
  {
  }

  lemma HasLength(sql: string, i: nat, part: string)
    ensures Has(sql, i, part) ==> i + |part| <= |sql|
  {
  }

  lemma HasTwo(sql: string, i: nat, a: char, b: char, rest: string)
    ensures Has(sql, i, [a, b] + rest) <==>
              i + 1 < |sql| && sql[i] == a && sql[i + 1] == b && Has(sql, i + 2, rest)
  {
    assert [a, b] + rest == [a] + ([b] + rest);
    HasParts(sql, i, [a], [b] + rest);
    HasParts(sql, i + 1, [b], rest);
    HasChar(sql, i, a);
    HasChar(sql, i + 1, b);
  }

  /** A bracketed part: an opening character, the part, a closing one, and the rest. */
  lemma HasBracket(sql: string, i: nat, a: char, part: string, b: char, rest: string)
    ensures Has(sql, i, [a] + part + [b] + rest) <==>
              && i < |sql| && sql[i] == a && Has(sql, i + 1, part)
              && i + 1 + |part| < |sql| && sql[i + 1 + |part|] == b && Has(sql, i + 2 + |part|, rest)
  {
    HasParts(sql, i, [a] + part + [b], rest);
    HasParts(sql, i, [a] + part, [b]);
    HasParts(sql, i, [a], part);
    HasChar(sql, i, a);
    HasChar(sql, i + 1 + |part|, b);
  }

  // One level of each kind of text, for proofs in which the definitions stay folded.

  lemma EndParts(sql: string, i: nat)
    ensures Length(End) == 0 && Print(End) == "" && TextValid(End)
    ensures TextAt(sql, i, End) <==> i <= |sql|
  {
  }

  lemma PlainParts(sql: string, i: nat, c: char, after: Text)
    ensures var t := Plain(c, after);
            && Length(t) == 1 + Length(after) && Print(t) == [c] + Print(after)
            && (TextValid(t) <==> !IsQuote(c) && c != '(' && c != ')' && TextValid(after))
            && (TextAt(sql, i, t) <==> i + Length(t) <= |sql| && sql[i] == c && TextAt(sql, i + 1, after))
  {
  }

  lemma GroupParts(sql: string, i: nat, inner: Text, after: Text)
    ensures var t := Group(inner, after);
            && Length(t) == 2 + Length(inner) + Length(after)
            && Print(t) == ['('] + Print(inner) + [')'] + Print(after)
            && (TextValid(t) <==> TextValid(inner) && TextValid(after))
            && (TextAt(sql, i, t) <==>
                  && i + Length(t) <= |sql| && sql[i] == '(' && TextAt(sql, i + 1, inner)
                  && sql[i + 1 + Length(inner)] == ')' && TextAt(sql, i + 2 + Length(inner), after))
  {
    hide BodyAt, BodyLength, BodyValid, PrintBody, IsQuote;
  }

  lemma QuoteParts(sql: string, i: nat, q: char, body: Body, after: Text)
    ensures var t := Quote(q, body, after);
            && Length(t) == 2 + BodyLength(body) + Length(after)
            && Print(t) == [q] + PrintBody(body, q) + [q] + Print(after)
            && (TextValid(t) <==> IsQuote(q) && BodyValid(body, q) && TextValid(after))
            && (TextAt(sql, i, t) <==>
                  && i + Length(t) <= |sql| && sql[i] == q && BodyAt(sql, i + 1, body, q)
                  && sql[i + 1 + BodyLength(body)] == q && TextAt(sql, i + 2 + BodyLength(body), after))
  {
    hide BodyAt, BodyLength, BodyValid, PrintBody, IsQuote;
  }

  lemma TextFits(sql: string, i: nat, t: Text)
    requires TextAt(sql, i, t)
    ensures i + Length(t) <= |sql|
  {
  }

  lemma {:induction false} TextAtIff(sql: string, i: nat, t: Text)
    ensures |Print(t)| == Length(t)
    ensures TextAt(sql, i, t) <==> Has(sql, i, Print(t))
    decreases t
  {
    hide Has, BodyAt, BodyLength, PrintBody, TextAt, Print, Length, IsQuote, TextValid;
    match t {
      case End =>
        EndParts(sql, i);
        HasNothing(sql, i);
      case Plain(c, after) =>
        PlainParts(sql, i, c, after);
        TextAtIff(sql, i + 1, after);
        HasParts(sql, i, [c], Print(after));
        HasChar(sql, i, c);
      case Group(inner, after) =>
        GroupParts(sql, i, inner, after);
        TextAtIff(sql, i + 1, inner);
        TextAtIff(sql, i + 2 + Length(inner), after);
        HasBracket(sql, i, '(', Print(inner), ')', Print(after));
      case Quote(q, body, after) =>
        QuoteParts(sql, i, q, body, after);
        BodyAtIff(sql, i + 1, body, q);
        TextAtIff(sql, i + 2 + BodyLength(body), after);
        HasBracket(sql, i, q, PrintBody(body, q), q, Print(after));
    }
    HasLength(sql, i, Print(t));
  }

  // ---------- One step of the scan ----------

  lemma ScanOutside(sql: string, i: nat, depth: int)
    requires i <= |sql|
    ensures i == |sql| ==> Scan(sql, i, Outside, depth) == None
    ensures i < |sql| && sql[i] == '(' ==> Scan(sql, i, Outside, depth) == Scan(sql, i + 1, Outside, depth + 1)
    ensures i < |sql| && sql[i] == ')' ==>
              Scan(sql, i, Outside, depth) == if depth == 1 then Some(i) else Scan(sql, i + 1, Outside, depth - 1)
    ensures i < |sql| && sql[i] != '(' && sql[i] != ')' ==>
              Scan(sql, i, Outside, depth) == Scan(sql, i + 1, if IsQuote(sql[i]) then Inside(sql[i]) else Outside, depth)
  {
  }

  lemma ScanInside(sql: string, i: nat, q: char, depth: int)
    requires i <= |sql| && IsQuote(q)
    ensures i == |sql| || (i + 1 == |sql| && sql[i] == '\\') ==> Scan(sql, i, Inside(q), depth) == None
    ensures i + 1 < |sql| && sql[i] == '\\' ==> Scan(sql, i, Inside(q), depth) == Scan(sql, i + 2, Inside(q), depth)
    ensures i < |sql| && sql[i] != '\\' ==>
              Scan(sql, i, Inside(q), depth) == Scan(sql, i + 1, if sql[i] == q then Outside else Inside(q), depth)
  {
  }

  // ---------- Every group is found ----------

  /** Scanning over the body of a quote ends inside the quote. */
  lemma {:induction false} ScanBody(sql: string, i: nat, b: Body, q: char, depth: int)
    requires BodyValid(b, q) && IsQuote(q) && BodyAt(sql, i, b, q)
    ensures Scan(sql, i, Inside(q), depth) == Scan(sql, i + BodyLength(b), Inside(q), depth)
    decreases b
  {
    hide Scan;
    ScanInside(sql, i, q, depth);
    if b.Doubled? { ScanOutside(sql, i + 1, depth); }
    match b {
      case Done =>
      case Raw(c, rest) => ScanBody(sql, i + 1, rest, q, depth);
      case Escaped(c, rest) => ScanBody(sql, i + 2, rest, q, depth);
      case Doubled(rest) => ScanBody(sql, i + 2, rest, q, depth);
    }
  }

  /** Scanning over balanced text, inside a group, changes nothing. */
  lemma {:induction false} ScanText(sql: string, i: nat, t: Text, depth: int)
    requires TextValid(t) && TextAt(sql, i, t) && i + Length(t) <= |sql| && depth > 0
    ensures Scan(sql, i, Outside, depth) == Scan(sql, i + Length(t), Outside, depth)
    decreases t
  {
    hide Scan, BodyAt, BodyLength, BodyValid, TextAt, TextValid, Length;
    ScanOutside(sql, i, depth);
    match t {
      case End => EndParts(sql, i);
      case Plain(c, after) =>
        PlainParts(sql, i, c, after);
        ScanText(sql, i + 1, after, depth);
      case Group(inner, after) =>
        GroupParts(sql, i, inner, after);
        ScanText(sql, i + 1, inner, depth + 1);
        ScanOutside(sql, i + 1 + Length(inner), depth + 1);
        ScanText(sql, i + 2 + Length(inner), after, depth);
      case Quote(q, body, after) =>
        QuoteParts(sql, i, q, body, after);
        BodyFits(sql, i + 1, body, q);
        ScanBody(sql, i + 1, body, q, depth);
        ScanInside(sql, i + 1 + BodyLength(body), q, depth);
        ScanText(sql, i + 2 + BodyLength(body), after, depth);
    }
  }

  lemma BodyFits(sql: string, i: nat, b: Body, q: char)
    requires BodyAt(sql, i, b, q)
    ensures i + BodyLength(b) <= |sql|
  {
  }

  // ---------- Nothing else is ----------

  /** From inside a quote: the text up to its end, and the scan after it. */
  lemma {:induction false} PeelBody(sql: string, i: nat, q: char, depth: int) returns (b: Body)
    requires i <= |sql| && IsQuote(q) && Scan(sql, i, Inside(q), depth).Some?
    ensures BodyValid(b, q) && BodyAt(sql, i, b, q) && i + BodyLength(b) < |sql| && sql[i + BodyLength(b)] == q
    ensures Scan(sql, i + BodyLength(b) + 1, Outside, depth) == Scan(sql, i, Inside(q), depth)
    decreases |sql| - i
  {
    hide Scan, IsQuote;
    ScanInside(sql, i, q, depth);
    if sql[i] == '\\' {
      var rest := PeelBody(sql, i + 2, q, depth);
      b := Escaped(sql[i + 1], rest);
    } else if sql[i] == q {
      b := Done;
    } else {
      var rest := PeelBody(sql, i + 1, q, depth);
      b := Raw(sql[i], rest);
    }
  }

  /** From inside a group: the balanced text up to its close, and the scan after it. */
  lemma {:induction false} PeelText(sql: string, i: nat, depth: int) returns (t: Text)
    requires i <= |sql| && depth > 0 && Scan(sql, i, Outside, depth).Some?
    ensures TextValid(t) && TextAt(sql, i, t) && i + Length(t) < |sql| && sql[i + Length(t)] == ')'
    ensures Scan(sql, i, Outside, depth)
            == if depth == 1 then Some(i + Length(t)) else Scan(sql, i + Length(t) + 1, Outside, depth - 1)
    decreases |sql| - i
  {
    hide Scan, IsQuote, TextAt, TextValid, Length;
    ScanOutside(sql, i, depth);
    var c := sql[i];
    if c == ')' {
      t := End;
      EndParts(sql, i);
    } else if c == '(' {
      var inner := PeelText(sql, i + 1, depth + 1);
      var after := PeelText(sql, i + 2 + Length(inner), depth);
      t := Group(inner, after);
      TextFits(sql, i + 2 + Length(inner), after);
      GroupParts(sql, i, inner, after);
    } else if IsQuote(c) {
      var body := PeelBody(sql, i + 1, c, depth);
      var after := PeelText(sql, i + 2 + BodyLength(body), depth);
      t := Quote(c, body, after);
      TextFits(sql, i + 2 + BodyLength(body), after);
      QuoteParts(sql, i, c, body, after);
    } else {
      var after := PeelText(sql, i + 1, depth);
      t := Plain(c, after);
      TextFits(sql, i + 1, after);
      PlainParts(sql, i, c, after);
    }
  }

  // ---------- The theorem ----------

  /** The group that opens at `start` is balanced text and closes at `k`. */
  ghost predicate Closes(sql: string, start: nat, k: nat) {
    exists t :: TextValid(t) && k == start + 1 + |Print(t)| && Has(sql, start, "(" + Print(t) + ")")
  }

  lemma ClosesIff(sql: string, start: nat, t: Text)
    ensures |Print(t)| == Length(t)
    ensures Has(sql, start, "(" + Print(t) + ")") <==>
              && start < |sql| && sql[start] == '(' && TextAt(sql, start + 1, t)
              && start + 1 + Length(t) < |sql| && sql[start + 1 + Length(t)] == ')'
  {
    TextAtIff(sql, start + 1, t);
    assert "(" + Print(t) + ")" == ['('] + Print(t) + [')'] + "";
    HasBracket(sql, start, '(', Print(t), ')', "");
  }

  /** Whatever stands before and after a group, its close is what closingParen answers. */
  lemma GroupIsFound(sql: string, start: nat, t: Text)
    requires TextValid(t) && Has(sql, start, "(" + Print(t) + ")")
    ensures Scan(sql, start, Outside, 0) == Some(start + 1 + |Print(t)|)
  {
    hide Has, TextAt, Print, TextValid, Scan;
    ClosesIff(sql, start, t);
    ScanOutside(sql, start, 0);
    ScanText(sql, start + 1, t, 1);
    ScanOutside(sql, start + 1 + Length(t), 1);
  }

  /** closingParen answers `k` exactly if the group at `start` is balanced text that closes
      there; so it fails exactly if there is no such group. */
  lemma ScanIff(sql: string, start: nat, k: nat)
    requires start < |sql| && sql[start] == '('
    ensures Scan(sql, start, Outside, 0) == Some(k) <==> Closes(sql, start, k)
    ensures Scan(sql, start, Outside, 0) == None <==> forall m: nat :: !Closes(sql, start, m)
  {
    hide Has, TextAt, Print, TextValid;
    forall m: nat | Closes(sql, start, m) ensures Scan(sql, start, Outside, 0) == Some(m) {
      var t :| TextValid(t) && m == start + 1 + |Print(t)| && Has(sql, start, "(" + Print(t) + ")");
      GroupIsFound(sql, start, t);
    }
    if Scan(sql, start, Outside, 0).Some? {
      var t := PeelText(sql, start + 1, 1);
      ClosesIff(sql, start, t);
      assert Closes(sql, start, start + 1 + Length(t));
    }
  }
}
