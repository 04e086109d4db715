/**
 * The semantics of a SQLite table as the store uses it: a sequence of rows in
 * insertion order, `DELETE ... WHERE` as a filter, `SELECT ... .first()` as the
 * first matching row, and `INSERT` checked against a UNIQUE constraint.
 */
module Table {
  import opened Wrappers

  /** The rows a `DELETE` leaves behind: those satisfying `keep`, in order. */
  function Filter<R(==)>(rows: seq<R>, keep: R -> bool): (r: seq<R>)
    ensures |r| <= |rows|
    ensures forall i :: 0 <= i < |r| ==> r[i] in rows && keep(r[i])
    ensures forall i :: 0 <= i < |rows| && keep(rows[i]) ==> rows[i] in r
    ensures multiset(r) <= multiset(rows)
  {
    if rows == [] then []
    else
      assert rows == [rows[0]] + rows[1..];
      if keep(rows[0]) then [rows[0]] + Filter(rows[1..], keep)
      else Filter(rows[1..], keep)
  }

  /** The row `SELECT ... WHERE p ... .first()` returns. */
  function First<R>(rows: seq<R>, p: R -> bool): (r: Option<R>)
    ensures r.Some? <==> exists i :: 0 <= i < |rows| && p(rows[i])
    ensures r.Some? ==> p(r.value) && exists i :: 0 <= i < |rows| && rows[i] == r.value
  {
    if rows == [] then None
    else if p(rows[0]) then Some(rows[0])
    else First(rows[1..], p)
  }

  /** A UNIQUE (or PRIMARY KEY) constraint on the column(s) `key`. */
  predicate UniqueOn<R, K(==)>(rows: seq<R>, key: R -> K) {
    forall i, j :: 0 <= i < j < |rows| ==> key(rows[i]) != key(rows[j])
  }

  function KeyIs<R, K(==)>(key: R -> K, k: K): R -> bool {
    r => key(r) == k
  }

  function KeyIsNot<R, K(==)>(key: R -> K, k: K): R -> bool {
    r => key(r) != k
  }

  /**
   * A single-row `INSERT` into a table whose `key` is UNIQUE: SQLite raises an
   * integrity error (here `None`) when a row with the same key is present.
   */
  function Insert<R, K(==)>(rows: seq<R>, row: R, key: R -> K): (r: Option<seq<R>>)
    ensures r.Some? <==> forall i :: 0 <= i < |rows| ==> key(rows[i]) != key(row)
    ensures r.Some? ==> r.value == rows + [row]
  {
    if exists i :: 0 <= i < |rows| && key(rows[i]) == key(row) then None
    else Some(rows + [row])
  }

  /** A delete keeps every surviving row exactly as often as it occurred, and no deleted row. */
  lemma {:induction false} FilterCount<R>(rows: seq<R>, keep: R -> bool, x: R)
    ensures multiset(Filter(rows, keep))[x] == if keep(x) then multiset(rows)[x] else 0
  {
    if rows != [] {
      FilterCount(rows[1..], keep, x);
      assert rows == [rows[0]] + rows[1..];
    }
  }

  /** Deleting every row with a key makes room for a row with that key. */
  lemma DeleteMakesRoom<R, K>(rows: seq<R>, row: R, key: R -> K)
    requires UniqueOn(rows, key)
    ensures var kept := Filter(rows, KeyIsNot(key, key(row)));
      && Insert(kept, row, key).Some?
      && UniqueOn(kept + [row], key)
  {
    var kept := Filter(rows, KeyIsNot(key, key(row)));
    forall i | 0 <= i < |kept|
      ensures key(kept[i]) != key(row)
    {
      assert kept[i] in kept;
    }
    FilterKeepsUnique(rows, KeyIsNot(key, key(row)), key);
  }

  lemma {:induction false} FilterKeepsUnique<R, K>(rows: seq<R>, keep: R -> bool, key: R -> K)
    requires UniqueOn(rows, key)
    ensures UniqueOn(Filter(rows, keep), key)
  {
    if rows != [] {
      var tail := rows[1..];
      assert UniqueOn(tail, key) by {
        forall i, j | 0 <= i < j < |tail| ensures key(tail[i]) != key(tail[j]) {
          assert tail[i] == rows[i + 1] && tail[j] == rows[j + 1];
        }
      }
      FilterKeepsUnique(tail, keep, key);
      if keep(rows[0]) {
        var f := Filter(tail, keep);
        var r := [rows[0]] + f;
        forall i, j | 0 <= i < j < |r| ensures key(r[i]) != key(r[j]) {
          if i == 0 {
            assert r[j] in tail;
            var m :| 0 <= m < |tail| && tail[m] == r[j];
            assert rows[m + 1] == r[j];
          }
        }
      }
    }
  }

  /** `.first()` over a concatenation looks in the second part only when the first has no match. */
  lemma {:induction false} FirstOfConcat<R>(a: seq<R>, b: seq<R>, p: R -> bool)
    ensures First(a + b, p) == if First(a, p).Some? then First(a, p) else First(b, p)
  {
    if a != [] {
      assert (a + b)[1..] == a[1..] + b;
      FirstOfConcat(a[1..], b, p);
    } else {
      assert a + b == b;
    }
  }

  /** A delete that keeps every row `p` selects does not change what `p` selects first. */
  lemma {:induction false} FirstOfFilterIrrelevant<R>(rows: seq<R>, keep: R -> bool, p: R -> bool)
    requires forall x :: p(x) ==> keep(x)
    ensures First(Filter(rows, keep), p) == First(rows, p)
  {
    if rows != [] {
      FirstOfFilterIrrelevant(rows[1..], keep, p);
      if keep(rows[0]) {
        assert ([rows[0]] + Filter(rows[1..], keep))[1..] == Filter(rows[1..], keep);
      }
    }
  }

  /** A delete that removes every row `p` selects leaves nothing for `p`. */
  lemma FirstOfFilterDisjoint<R>(rows: seq<R>, keep: R -> bool, p: R -> bool)
    requires forall x :: p(x) ==> !keep(x)
    ensures First(Filter(rows, keep), p) == None
  {
  }

  /** A delete of rows matching one condition distributes over concatenation. */
  lemma {:induction false} FilterOfConcat<R>(a: seq<R>, b: seq<R>, keep: R -> bool)
    ensures Filter(a + b, keep) == Filter(a, keep) + Filter(b, keep)
  {
    if a == [] {
      assert a + b == b;
    } else {
      assert (a + b)[1..] == a[1..] + b;
      FilterOfConcat(a[1..], b, keep);
    }
  }

  /** Filtering a filtered table by a stronger condition is filtering once. */
  lemma {:induction false} FilterOfFilter<R>(rows: seq<R>, first: R -> bool, second: R -> bool)
    requires forall x :: second(x) ==> first(x)
    ensures Filter(Filter(rows, first), second) == Filter(rows, second)
  {
    if rows != [] {
      FilterOfFilter(rows[1..], first, second);
      if first(rows[0]) {
        assert ([rows[0]] + Filter(rows[1..], first))[1..] == Filter(rows[1..], first);
      }
    }
  }

  /** Filtering by conditions that exclude each other leaves nothing. */
  lemma FilterOfFilterDisjoint<R>(rows: seq<R>, first: R -> bool, second: R -> bool)
    requires forall x :: second(x) ==> !first(x)
    ensures Filter(Filter(rows, first), second) == []
  {
  }

  /** Filtering rows that all satisfy the condition keeps them all, in order. */
  lemma {:induction false} FilterAll<R>(rows: seq<R>, keep: R -> bool)
    requires forall i :: 0 <= i < |rows| ==> keep(rows[i])
    ensures Filter(rows, keep) == rows
  {
    if rows != [] {
      FilterAll(rows[1..], keep);
      assert [rows[0]] + rows[1..] == rows;
    }
  }

  /** Filtering rows none of which satisfies the condition leaves nothing. */
  lemma FilterNone<R>(rows: seq<R>, keep: R -> bool)
    requires forall i :: 0 <= i < |rows| ==> !keep(rows[i])
    ensures Filter(rows, keep) == []
  {
  }
}
