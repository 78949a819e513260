/** ORDER BY and `sorted`: insertion sort over any total preorder, and the uniqueness of the
    sorted arrangement when no two distinct rows tie. */
module Sorting {

  function Insert<T>(le: (T, T) -> bool, x: T, rows: seq<T>): seq<T> {
    if rows == [] then [x]
    else if le(x, rows[0]) then [x] + rows
    else [rows[0]] + Insert(le, x, rows[1..])
  }

  function Sort<T>(le: (T, T) -> bool, rows: seq<T>): seq<T> {
    if rows == [] then [] else Insert(le, rows[0], Sort(le, rows[1..]))
  }

  ghost predicate TotalPreorder<T(!new)>(le: (T, T) -> bool) {
    && (forall x, y :: le(x, y) || le(y, x))
    && (forall x, y, z :: le(x, y) && le(y, z) ==> le(x, z))
  }

  ghost predicate Sorted<T>(le: (T, T) -> bool, rows: seq<T>) {
    forall i, j :: 0 <= i < j < |rows| ==> le(rows[i], rows[j])
  }

  /** Two rows that tie are the same row. */
  ghost predicate TieFree<T(!new)>(le: (T, T) -> bool, rows: seq<T>) {
    forall x, y :: x in rows && y in rows && le(x, y) && le(y, x) ==> x == y
  }

  lemma {:induction false} InsertPermutes<T>(le: (T, T) -> bool, x: T, rows: seq<T>)
    ensures multiset(Insert(le, x, rows)) == multiset(rows) + multiset{x}
  {
    if rows != [] {
      assert rows == [rows[0]] + rows[1..];
      if !le(x, rows[0]) {
        InsertPermutes(le, x, rows[1..]);
      }
    }
  }

  lemma {:induction false} InsertSorted<T(!new)>(le: (T, T) -> bool, x: T, rows: seq<T>)
    requires TotalPreorder(le) && Sorted(le, rows)
    ensures Sorted(le, Insert(le, x, rows))
  {
    if rows != [] {
      if le(x, rows[0]) {
        forall j | 0 <= j < |rows| ensures le(x, rows[j]) {
          if j > 0 { assert le(rows[0], rows[j]); }
        }
      } else {
        var tail := Insert(le, x, rows[1..]);
        InsertSorted(le, x, rows[1..]);
        InsertPermutes(le, x, rows[1..]);
        forall j | 0 <= j < |tail| ensures le(rows[0], tail[j]) {
          assert tail[j] in multiset(rows[1..]) + multiset{x};
          if tail[j] != x {
            assert tail[j] in rows[1..];
          }
        }
      }
    }
  }

  lemma {:induction false} SortSorts<T(!new)>(le: (T, T) -> bool, rows: seq<T>)
    requires TotalPreorder(le)
    ensures Sorted(le, Sort(le, rows)) && multiset(Sort(le, rows)) == multiset(rows)
  {
    if rows != [] {
      SortSorts(le, rows[1..]);
      InsertSorted(le, rows[0], Sort(le, rows[1..]));
      InsertPermutes(le, rows[0], Sort(le, rows[1..]));
      assert rows == [rows[0]] + rows[1..];
    }
  }

  lemma {:induction false} SameHead<T(!new)>(le: (T, T) -> bool, a: seq<T>, b: seq<T>)
    requires a != [] && b != []
    requires Sorted(le, a) && Sorted(le, b) && multiset(a) == multiset(b)
    requires TieFree(le, a)
    ensures a[0] == b[0]
  {
    assert a[0] in multiset(b);
    var j :| 0 <= j < |b| && b[j] == a[0];
    assert b[0] in multiset(a);
    var m :| 0 <= m < |a| && a[m] == b[0];
    assert m == 0 || le(a[0], a[m]);
    assert j == 0 || le(b[0], b[j]);
  }

  lemma {:induction false} TailMultiset<T>(a: seq<T>)
    requires a != []
    ensures multiset(a[1..]) == multiset(a) - multiset{a[0]}
  {
    assert a == [a[0]] + a[1..];
  }

  lemma {:induction false} SortedUnique<T(!new)>(le: (T, T) -> bool, a: seq<T>, b: seq<T>)
    requires Sorted(le, a) && Sorted(le, b) && multiset(a) == multiset(b)
    requires TieFree(le, a)
    ensures a == b
    decreases |a|
  {
    assert |a| == |multiset(a)| == |multiset(b)| == |b|;
    if a != [] {
      SameHead(le, a, b);
      TailMultiset(a);
      TailMultiset(b);
      SortedUnique(le, a[1..], b[1..]);
      assert a == [a[0]] + a[1..] && b == [b[0]] + b[1..];
    }
  }

  /** Any table holding the rows of a sorted, tie-free sequence sorts to that sequence. */
  lemma {:induction false} SortRestores<T(!new)>(le: (T, T) -> bool, table: seq<T>, a: seq<T>)
    requires TotalPreorder(le) && Sorted(le, a) && multiset(table) == multiset(a)
    requires TieFree(le, a)
    ensures Sort(le, table) == a
  {
    SortSorts(le, table);
    SortedUnique(le, a, Sort(le, table));
  }

  // ---- WHERE -----------------------------------------------------------------------

  function Filter<T>(keep: T -> bool, rows: seq<T>): seq<T> {
    if rows == [] then []
    else
      var last := rows[|rows| - 1];
      Filter(keep, rows[..|rows| - 1]) + (if keep(last) then [last] else [])
  }

  lemma {:induction false} FilterCount<T>(keep: T -> bool, rows: seq<T>, x: T)
    ensures multiset(Filter(keep, rows))[x] == if keep(x) then multiset(rows)[x] else 0
    decreases |rows|
  {
    if rows != [] {
      FilterCount(keep, rows[..|rows| - 1], x);
      assert rows == rows[..|rows| - 1] + [rows[|rows| - 1]];
    }
  }

  lemma {:induction false} FilterSame<T(!new)>(keep: T -> bool, a: seq<T>, b: seq<T>)
    requires multiset(a) == multiset(b)
    ensures multiset(Filter(keep, a)) == multiset(Filter(keep, b))
  {
    forall x ensures multiset(Filter(keep, a))[x] == multiset(Filter(keep, b))[x] {
      FilterCount(keep, a, x);
      FilterCount(keep, b, x);
    }
  }

  lemma {:induction false} FilterKeeps<T>(keep: T -> bool, rows: seq<T>, x: T)
    ensures x in Filter(keep, rows) <==> keep(x) && x in rows
  {
    FilterCount(keep, rows, x);
    assert x in multiset(Filter(keep, rows)) <==> x in Filter(keep, rows);
    assert x in multiset(rows) <==> x in rows;
  }

  lemma {:induction false} FilterSorted<T>(le: (T, T) -> bool, keep: T -> bool, rows: seq<T>)
    requires Sorted(le, rows)
    ensures Sorted(le, Filter(keep, rows))
    decreases |rows|
  {
    if rows != [] {
      var init, last := rows[..|rows| - 1], rows[|rows| - 1];
      FilterSorted(le, keep, init);
      forall i | 0 <= i < |Filter(keep, init)| ensures le(Filter(keep, init)[i], last) {
        FilterKeeps(keep, init, Filter(keep, init)[i]);
      }
    }
  }

  /** A filtered, ordered query over a table in any physical order returns the filtered
      rows of the sorted sequence that the table holds. */
  lemma {:induction false} QueryRows<T(!new)>(le: (T, T) -> bool, keep: T -> bool, table: seq<T>, rows: seq<T>)
    requires TotalPreorder(le) && Sorted(le, rows) && TieFree(le, rows) && multiset(table) == multiset(rows)
    ensures Sort(le, Filter(keep, table)) == Filter(keep, rows)
  {
    FilterSame(keep, table, rows);
    FilterSorted(le, keep, rows);
    forall x | x in Filter(keep, rows) ensures x in rows {
      FilterKeeps(keep, rows, x);
    }
    SortRestores(le, Filter(keep, table), Filter(keep, rows));
  }
}
