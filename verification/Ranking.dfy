/**
 The deterministic order of scored products: score descending, then product ID ascending
 (`rows.sort(key=...)` in scripts/experiments/module4c_streaming_demo.py).
 */
module Ranking {
  import opened Collections

  datatype SortKey = SortKey(score: real, id: int)

  predicate Precedes(a: SortKey, b: SortKey) {
    a.score > b.score || (a.score == b.score && a.id < b.id)
  }

  function Insert<T>(row: T, sorted: seq<T>, key: T -> SortKey): seq<T> {
    if sorted != [] && Precedes(key(row), key(sorted[|sorted| - 1]))
    then Insert(row, sorted[..|sorted| - 1], key) + [sorted[|sorted| - 1]]
    else sorted + [row]
  }

  /** Python's stable sort by this key. */
  function Sort<T>(rows: seq<T>, key: T -> SortKey): seq<T> {
    if rows == [] then [] else Insert(rows[|rows| - 1], Sort(rows[..|rows| - 1], key), key)
  }

  /** No later row precedes an earlier one. */
  ghost predicate Sorted<T>(rows: seq<T>, key: T -> SortKey) {
    forall i, j :: 0 <= i < j < |rows| ==> !Precedes(key(rows[j]), key(rows[i]))
  }

  lemma {:induction false} InsertPermutes<T>(row: T, sorted: seq<T>, key: T -> SortKey)
    ensures multiset(Insert(row, sorted, key)) == multiset(sorted) + multiset{row}
    ensures |Insert(row, sorted, key)| == |sorted| + 1
  {
    if sorted != [] && Precedes(key(row), key(sorted[|sorted| - 1])) {
      InsertPermutes(row, sorted[..|sorted| - 1], key);
      assert sorted == sorted[..|sorted| - 1] + [sorted[|sorted| - 1]];
    }
  }

  lemma {:induction false} InsertSorts<T>(row: T, sorted: seq<T>, key: T -> SortKey)
    requires Sorted(sorted, key)
    ensures Sorted(Insert(row, sorted, key), key)
  {
    if sorted != [] && Precedes(key(row), key(sorted[|sorted| - 1])) {
      var shorter, last := sorted[..|sorted| - 1], sorted[|sorted| - 1];
      InsertSorts(row, shorter, key);
      InsertPermutes(row, shorter, key);
      var inserted := Insert(row, shorter, key);
      forall i | 0 <= i < |inserted| ensures !Precedes(key(last), key(inserted[i])) {
        assert inserted[i] in multiset(inserted);
        if inserted[i] != row {
          assert inserted[i] in shorter;
        }
      }
    }
  }

  lemma {:induction false} SortHolds<T>(rows: seq<T>, key: T -> SortKey)
    ensures multiset(Sort(rows, key)) == multiset(rows) && |Sort(rows, key)| == |rows|
    ensures Sorted(Sort(rows, key), key)
  {
    if rows != [] {
      var earlier, last := rows[..|rows| - 1], rows[|rows| - 1];
      SortHolds(earlier, key);
      InsertPermutes(last, Sort(earlier, key), key);
      InsertSorts(last, Sort(earlier, key), key);
      assert rows == earlier + [last];
    }
  }

  ghost predicate UniqueIds<T>(rows: seq<T>, key: T -> SortKey) {
    forall i, j :: 0 <= i < j < |rows| ==> key(rows[i]).id != key(rows[j]).id
  }

  lemma UniqueIdsPermuted<T>(a: seq<T>, b: seq<T>, key: T -> SortKey)
    requires UniqueIds(a, key) && multiset(a) == multiset(b)
    ensures UniqueIds(b, key)
  {
    DistinctByPermutation(a, b, (x: T) => key(x).id);
  }

  lemma SortedLast<T>(a: seq<T>, b: seq<T>, key: T -> SortKey)
    requires multiset(a) == multiset(b) && UniqueIds(a, key) && a != []
    requires Sorted(a, key) && Sorted(b, key)
    ensures b != [] && a[|a| - 1] == b[|b| - 1]
  {
    SameElements(a, b);
    UniqueIdsPermuted(a, b, key);
    var x, y := a[|a| - 1], b[|b| - 1];
    assert x in a && y in b;
    var i :| 0 <= i < |b| && b[i] == x;
    var j :| 0 <= j < |a| && a[j] == y;
    assert i < |b| - 1 ==> !Precedes(key(y), key(x));
    assert j < |a| - 1 ==> !Precedes(key(x), key(y));
  }

  lemma WithoutLast<T>(a: seq<T>, b: seq<T>)
    requires multiset(a) == multiset(b) && a != [] && b != [] && a[|a| - 1] == b[|b| - 1]
    ensures multiset(a[..|a| - 1]) == multiset(b[..|b| - 1])
  {
    assert a == a[..|a| - 1] + [a[|a| - 1]] && b == b[..|b| - 1] + [b[|b| - 1]];
    assert multiset(a[..|a| - 1]) == multiset(a) - multiset{a[|a| - 1]};
    assert multiset(b[..|b| - 1]) == multiset(b) - multiset{b[|b| - 1]};
  }

  /** With unique IDs there is only one sorted arrangement. */
  lemma {:induction false} SortedUnique<T>(a: seq<T>, b: seq<T>, key: T -> SortKey)
    requires multiset(a) == multiset(b) && UniqueIds(a, key)
    requires Sorted(a, key) && Sorted(b, key)
    ensures a == b
    decreases |a|
  {
    hide Precedes;
    if a == [] {
      SameElements(a, b);
    } else {
      SortedLast(a, b, key);
      WithoutLast(a, b);
      SortedUnique(a[..|a| - 1], b[..|b| - 1], key);
      assert a == a[..|a| - 1] + [a[|a| - 1]] && b == b[..|b| - 1] + [b[|b| - 1]];
    }
  }

  /** In a sorted list with unique IDs, position and precedence agree. */
  lemma PositionIsPrecedence<T>(rows: seq<T>, key: T -> SortKey, i: nat, j: nat)
    requires Sorted(rows, key) && UniqueIds(rows, key) && i < |rows| && j < |rows|
    ensures i < j <==> Precedes(key(rows[i]), key(rows[j]))
  {
    if i < j {
      assert !Precedes(key(rows[j]), key(rows[i]));
      assert key(rows[i]).id != key(rows[j]).id;
    }
  }

  function Mapped<T, U>(rows: seq<T>, f: T -> U): seq<U> {
    seq(|rows|, i requires 0 <= i < |rows| => f(rows[i]))
  }

  lemma {:induction false} InsertMapped<T>(row: T, sorted: seq<T>, key: T -> SortKey, f: T -> T)
    requires forall x :: x in sorted + [row] ==> key(f(x)) == key(x)
    ensures Insert(f(row), Mapped(sorted, f), key) == Mapped(Insert(row, sorted, key), f)
  {
    assert row in sorted + [row];
    if sorted != [] {
      var shorter, last := sorted[..|sorted| - 1], sorted[|sorted| - 1];
      assert last in sorted + [row];
      assert Mapped(sorted, f)[..|sorted| - 1] == Mapped(shorter, f);
      if Precedes(key(row), key(last)) {
        InsertMapped(row, shorter, key, f);
      }
    }
  }

  /** Sorting sees only the keys: a change that keeps every key commutes with it. */
  lemma {:induction false} SortMapped<T(!new)>(rows: seq<T>, key: T -> SortKey, f: T -> T)
    requires forall x :: key(f(x)) == key(x)
    ensures Sort(Mapped(rows, f), key) == Mapped(Sort(rows, key), f)
  {
    if rows != [] {
      var earlier, last := rows[..|rows| - 1], rows[|rows| - 1];
      SortMapped(earlier, key, f);
      InsertMapped(last, Sort(earlier, key), key, f);
      assert Mapped(rows, f)[..|rows| - 1] == Mapped(earlier, f);
    }
  }
}
