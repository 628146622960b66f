/** Sorting of a copy of a record list, as both data tables and the
    ranking panel do it: `[...rows].sort((a, b) => asc ? (a[k] > b[k] ? 1 : -1)
    : (a[k] < b[k] ? 1 : -1))`.

    The comparator never answers 0, so for rows with equal keys the result
    depends on the engine's sorting algorithm. The model sorts by insertion
    and promises only what holds for any algorithm: the result is a
    permutation of the input, and it is strictly ordered when the keys are
    pairwise distinct. */
module Sorting {
  import opened Common

  datatype Direction = Asc | Desc

  /** The `{ key, direction }` state of a sortable table. */
  datatype SortConfig<K> = SortConfig(key: K, direction: Direction)

  /** A field value as the comparator sees it: a number or a string. */
  datatype Value = Num(n: real) | Text(s: string)

  predicate SameKind(a: Value, b: Value)
  {
    a.Num? == b.Num?
  }

  /** JavaScript `a > b` on two values of one column: numeric order on
      numbers, character-wise lexicographic order on strings. */
  predicate Gt(a: Value, b: Value)
  {
    match (a, b)
    case (Num(x), Num(y)) => x > y
    case (Text(x), Text(y)) => StrLess(y, x)
    case _ => false
  }

  /** The comparator answers 1 for `(a, b)`: `a` belongs after `b`. */
  predicate After(ka: Value, kb: Value, dir: Direction)
  {
    if dir == Asc then Gt(ka, kb) else Gt(kb, ka)
  }

  lemma AfterTransitive(a: Value, b: Value, c: Value, dir: Direction)
    requires After(a, b, dir) && After(b, c, dir)
    ensures After(a, c, dir)
  {
    if a.Text? && b.Text? && c.Text? {
      if dir == Asc {
        StrLessTransitive(c.s, b.s, a.s);
      } else {
        StrLessTransitive(a.s, b.s, c.s);
      }
    }
  }

  lemma AfterTotal(a: Value, b: Value, dir: Direction)
    requires a != b && SameKind(a, b)
    ensures After(a, b, dir) || After(b, a, dir)
  {
    if a.Text? {
      StrLessTotal(a.s, b.s);
    }
  }

  lemma AfterAsymmetric(a: Value, b: Value, dir: Direction)
    requires After(a, b, dir)
    ensures !After(b, a, dir)
  {
    if a.Text? && b.Text? {
      if dir == Asc {
        StrLessAsymmetric(b.s, a.s);
      } else {
        StrLessAsymmetric(a.s, b.s);
      }
    }
  }

  /** Inserts `x` before the first row it does not belong after. */
  function Insert<R(!new)>(x: R, s: seq<R>, key: R -> Value, dir: Direction): (r: seq<R>)
    ensures multiset(r) == multiset(s) + multiset{x}
    ensures |r| == |s| + 1
  {
    if s == [] || !After(key(x), key(s[0]), dir) then [x] + s
    else
      assert s == [s[0]] + s[1..];
      [s[0]] + Insert(x, s[1..], key, dir)
  }

  /** The sorted copy. */
  function SortedCopy<R(!new)>(s: seq<R>, key: R -> Value, dir: Direction): (r: seq<R>)
    ensures multiset(r) == multiset(s)
    ensures |r| == |s|
  {
    if s == [] then []
    else
      assert s == [s[0]] + s[1..];
      Insert(s[0], SortedCopy(s[1..], key, dir), key, dir)
  }

  /** Every later row belongs after every earlier one. */
  ghost predicate StrictlyOrdered<R>(r: seq<R>, key: R -> Value, dir: Direction)
  {
    forall i, j :: 0 <= i < j < |r| ==> After(key(r[j]), key(r[i]), dir)
  }

  /** The keys of the rows are pairwise different values of one kind. */
  ghost predicate DistinctKeys<R>(s: seq<R>, key: R -> Value)
  {
    forall i, j :: 0 <= i < j < |s| ==> key(s[i]) != key(s[j]) && SameKind(key(s[i]), key(s[j]))
  }

  /** Inserting adds `x` and nothing else. */
  lemma InsertElements<R(!new)>(x: R, s: seq<R>, key: R -> Value, dir: Direction)
    ensures forall y :: y in Insert(x, s, key, dir) ==> y == x || y in s
  {
    var r := Insert(x, s, key, dir);
    forall y | y in r ensures y == x || y in s {
      assert y in multiset(r);
    }
  }

  lemma HeadBeforeRest<R>(s: seq<R>, key: R -> Value, dir: Direction, y: R)
    requires StrictlyOrdered(s, key, dir) && |s| > 0 && y in s[1..]
    ensures After(key(y), key(s[0]), dir)
  {
    var k :| 0 <= k < |s[1..]| && s[1..][k] == y;
    assert s[k + 1] == y;
  }

  /** A row that every row of an ordered list belongs after can head it. */
  lemma ConsOrdered<R>(h: R, t: seq<R>, key: R -> Value, dir: Direction)
    requires StrictlyOrdered(t, key, dir)
    requires forall y :: y in t ==> After(key(y), key(h), dir)
    ensures StrictlyOrdered([h] + t, key, dir)
  {
    var r := [h] + t;
    forall i, j | 0 <= i < j < |r| ensures After(key(r[j]), key(r[i]), dir) {
      assert r[j] == t[j - 1];
      if i > 0 {
        assert r[i] == t[i - 1];
      }
    }
  }

  lemma {:induction false} InsertOrdered<R(!new)>(x: R, s: seq<R>, key: R -> Value, dir: Direction)
    requires StrictlyOrdered(s, key, dir)
    requires forall y :: y in s ==> key(y) != key(x) && SameKind(key(y), key(x))
    ensures StrictlyOrdered(Insert(x, s, key, dir), key, dir)
  {
    if s == [] {
    } else if !After(key(x), key(s[0]), dir) {
      assert s[0] in s;
      AfterTotal(key(s[0]), key(x), dir);
      forall y | y in s ensures After(key(y), key(x), dir) {
        if y != s[0] {
          assert s == [s[0]] + s[1..];
          HeadBeforeRest(s, key, dir, y);
          AfterTransitive(key(y), key(s[0]), key(x), dir);
        }
      }
      ConsOrdered(x, s, key, dir);
    } else {
      var t := Insert(x, s[1..], key, dir);
      assert forall y :: y in s[1..] ==> y in s;
      InsertOrdered(x, s[1..], key, dir);
      InsertElements(x, s[1..], key, dir);
      forall y | y in t ensures After(key(y), key(s[0]), dir) {
        if y != x {
          HeadBeforeRest(s, key, dir, y);
        }
      }
      ConsOrdered(s[0], t, key, dir);
    }
  }

  /** With pairwise-distinct keys the sorted copy is strictly ascending
      (`Asc`) or strictly descending (`Desc`). */
  lemma {:induction false} SortedCopyOrdered<R(!new)>(s: seq<R>, key: R -> Value, dir: Direction)
    requires DistinctKeys(s, key)
    ensures StrictlyOrdered(SortedCopy(s, key, dir), key, dir)
  {
    if s != [] {
      var t := SortedCopy(s[1..], key, dir);
      SortedCopyOrdered(s[1..], key, dir);
      forall y | y in t ensures key(y) != key(s[0]) && SameKind(key(y), key(s[0])) {
        assert y in multiset(s[1..]);
        var k :| 0 <= k < |s[1..]| && s[1..][k] == y;
        assert s[k + 1] == y;
      }
      InsertOrdered(s[0], t, key, dir);
    }
  }

  // ---------------------------------------------------------------------
  // Header clicks of the two data tables

  /** `handleSort(key)` of the keyword and campaign tables: descending only
      when the same key is currently ascending, ascending otherwise. */
  function TableSortClick<K(==)>(cfg: SortConfig<K>, key: K): (r: SortConfig<K>)
    ensures r.key == key
    ensures r.direction == Desc <==> cfg.key == key && cfg.direction == Asc
  {
    SortConfig(key, if cfg.key == key && cfg.direction == Asc then Desc else Asc)
  }

  /** Clicking the current column twice restores the configuration; a new
      column always starts ascending. */
  lemma TableSortClickTwice<K>(cfg: SortConfig<K>, key: K)
    ensures cfg.key == key ==> TableSortClick(TableSortClick(cfg, key), key) == cfg
    ensures cfg.key != key ==> TableSortClick(cfg, key) == SortConfig(key, Asc)
    ensures cfg.key != key ==> TableSortClick(TableSortClick(cfg, key), key) == SortConfig(key, Desc)
  {
  }

  function Flip(d: Direction): (r: Direction)
    ensures r != d
  {
    if d == Asc then Desc else Asc
  }
}
