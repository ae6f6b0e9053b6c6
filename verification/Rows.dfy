/** Rows of a Doris table or partition, as multisets, and the time selections
    that the watermark delta and the hourly window export. */
module Rows {
  datatype Option<+T> = None | Some(value: T)

  /** A row is identified by `id`; `time` is its value in the configured time
      field, as a wall-clock instant. */
  datatype Row = Row(time: int, id: nat)

  type Bag = multiset<Row>

  /** The rows of `c` that satisfy `p`, with their multiplicities. */
  ghost function Select(c: Bag, p: Row -> bool): (d: Bag)
    ensures forall r :: d[r] == if p(r) then c[r] else 0
  {
    if c == multiset{} then
      multiset{}
    else
      var r :| r in c;
      (if p(r) then multiset{r} else multiset{}) + Select(c - multiset{r}, p)
  }

  /** Rows with lo < time <= hi: what one delta exports. */
  ghost function After(c: Bag, lo: int, hi: int): Bag {
    Select(c, (r: Row) => lo < r.time <= hi)
  }

  /** Rows at or before the watermark; an absent watermark admits none. */
  ghost function UpTo(c: Bag, w: Option<int>): Bag {
    Select(c, (r: Row) => w.Some? && r.time <= w.value)
  }

  /** Rows with lo <= time < hi: what one hourly window exports. */
  ghost function Window(c: Bag, lo: int, hi: int): Bag {
    Select(c, (r: Row) => lo <= r.time < hi)
  }

  /** An executable test that `d` is After(c, lo, hi). */
  predicate IsAfter(c: Bag, lo: int, hi: int, d: Bag)
    ensures IsAfter(c, lo, hi, d) <==> d == After(c, lo, hi)
  {
    var b := forall r | r in c + d :: d[r] == if lo < r.time <= hi then c[r] else 0;
    assert b ==> forall r :: d[r] == After(c, lo, hi)[r] by {
      if b {
        forall r ensures d[r] == After(c, lo, hi)[r] {
          if r in c + d {} else { assert c[r] == 0 && d[r] == 0; }
        }
      }
    }
    b
  }

  /** An executable test that `d` is Window(c, lo, hi). */
  predicate IsWindow(c: Bag, lo: int, hi: int, d: Bag)
    ensures IsWindow(c, lo, hi, d) <==> d == Window(c, lo, hi)
  {
    var b := forall r | r in c + d :: d[r] == if lo <= r.time < hi then c[r] else 0;
    assert b ==> forall r :: d[r] == Window(c, lo, hi)[r] by {
      if b {
        forall r ensures d[r] == Window(c, lo, hi)[r] {
          if r in c + d {} else { assert c[r] == 0 && d[r] == 0; }
        }
      }
    }
    b
  }

  /** `m` is MAX(time) over `c`; None stands for SQL NULL, the maximum of no rows. */
  predicate IsMax(c: Bag, m: Option<int>) {
    match m
    case None => c == multiset{}
    case Some(v) => (exists r | r in c :: r.time == v) && forall r | r in c :: r.time <= v
  }

  /** `d` continues `c`: nothing is lost and every new row is later than every old one. */
  predicate Appends(c: Bag, d: Bag) {
    && c <= d
    && forall r, s | r in d && d[r] > c[r] && s in c :: s.time < r.time
  }

  /** The heart of the delta: over append-only data, the rows at or before the
      old maximum are exactly the old contents, so the rows after it are exactly
      what is missing. */
  lemma DeltaCompletes(c: Bag, d: Bag, from: int, to: int)
    requires Appends(c, d) && IsMax(c, Some(from)) && IsMax(d, Some(to))
    ensures UpTo(d, Some(from)) == c
    ensures c + After(d, from, to) == d
  {
    var top :| top in c && top.time == from;
    forall r ensures UpTo(d, Some(from))[r] == c[r] && After(d, from, to)[r] == d[r] - c[r] {
      if r in d {
        if d[r] > c[r] { assert top.time < r.time; }
        if r in c {
          assert r.time <= from;
        }
      } else {
        assert d[r] == 0 && c[r] == 0;
      }
    }
  }

  /** A delta brings the target up to date exactly when the target held the
      source rows at or before the watermark it started from: the append-only
      source is not even needed. */
  lemma DeltaExactIff(target: Bag, source: Bag, from: int, to: int)
    requires IsMax(source, Some(to)) && from <= to
    ensures target + After(source, from, to) == source <==> target == UpTo(source, Some(from))
  {
    var delta := After(source, from, to);
    forall r ensures source[r] == UpTo(source, Some(from))[r] + delta[r] {
      if r in source {} else { assert source[r] == 0; }
    }
    if target + delta == source {
      forall r ensures target[r] == UpTo(source, Some(from))[r] {
        assert (target + delta)[r] == target[r] + delta[r];
      }
    }
  }
}
