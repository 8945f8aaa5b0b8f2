/** The stable descending sort on a key that the feed and the discovery share. */
module Sorting {
  /** Before the first smaller entry, so after its equals. */
  function Insert<T>(key: T -> int, rows: seq<T>, r: T): seq<T> {
    if rows == [] || key(rows[0]) < key(r) then [r] + rows else [rows[0]] + Insert(key, rows[1..], r)
  }

  /** A stable sort, greatest key first. */
  function SortBy<T>(key: T -> int, rows: seq<T>): seq<T> {
    if rows == [] then [] else Insert(key, SortBy(key, rows[..|rows| - 1]), rows[|rows| - 1])
  }

  function First<T>(rows: seq<T>, limit: nat): seq<T> {
    if |rows| <= limit then rows else rows[..limit]
  }

  predicate Descending<T>(key: T -> int, rows: seq<T>) {
    forall i, j :: 0 <= i <= j < |rows| ==> key(rows[i]) >= key(rows[j])
  }

  /** Each entry after an insertion is the new one or was there before. */
  lemma {:induction false} InsertedFrom<T>(key: T -> int, rows: seq<T>, r: T, i: nat)
    requires i < |Insert(key, rows, r)|
    ensures var x := Insert(key, rows, r)[i]; x == r || exists k :: 0 <= k < |rows| && rows[k] == x
  {
    if rows == [] || key(rows[0]) < key(r) {
      assert i > 0 ==> rows[i - 1] == Insert(key, rows, r)[i];
    } else if i == 0 {
      assert rows[0] == Insert(key, rows, r)[0];
    } else {
      InsertedFrom(key, rows[1..], r, i - 1);
      var x := Insert(key, rows, r)[i];
      if x != r {
        var k :| 0 <= k < |rows| - 1 && rows[1..][k] == x;
        assert rows[k + 1] == x;
      }
    }
  }

  lemma {:induction false} InsertSorts<T>(key: T -> int, rows: seq<T>, r: T)
    requires Descending(key, rows)
    ensures Descending(key, Insert(key, rows, r))
    ensures forall x :: x in Insert(key, rows, r) <==> x in rows || x == r
  {
    if rows != [] && key(rows[0]) >= key(r) {
      var tail := rows[1..];
      var rest := Insert(key, tail, r);
      InsertSorts(key, tail, r);
      assert rows == [rows[0]] + tail;
      forall i | 0 <= i < |rest| ensures key(rows[0]) >= key(rest[i]) {
        InsertedFrom(key, tail, r, i);
      }
    }
  }

  lemma {:induction false} SortSorts<T>(key: T -> int, rows: seq<T>)
    ensures Descending(key, SortBy(key, rows))
    ensures forall x :: x in SortBy(key, rows) <==> x in rows
  {
    if rows != [] {
      var n := |rows| - 1;
      SortSorts(key, rows[..n]);
      InsertSorts(key, SortBy(key, rows[..n]), rows[n]);
      assert rows == rows[..n] + [rows[n]];
    }
  }

  lemma {:induction false} InsertKeepsRows<T>(key: T -> int, rows: seq<T>, r: T)
    ensures multiset(Insert(key, rows, r)) == multiset(rows) + multiset{r}
  {
    if rows != [] && key(rows[0]) >= key(r) {
      InsertKeepsRows(key, rows[1..], r);
      assert rows == [rows[0]] + rows[1..];
    }
  }

  /** Sorting neither loses nor repeats a row. */
  lemma {:induction false} SortKeepsRows<T>(key: T -> int, rows: seq<T>)
    ensures multiset(SortBy(key, rows)) == multiset(rows) && |SortBy(key, rows)| == |rows|
  {
    if rows != [] {
      var n := |rows| - 1;
      SortKeepsRows(key, rows[..n]);
      InsertKeepsRows(key, SortBy(key, rows[..n]), rows[n]);
      assert rows == rows[..n] + [rows[n]];
      assert |multiset(SortBy(key, rows))| == |SortBy(key, rows)| && |multiset(rows)| == |rows|;
    }
  }

  /** The rows with this key, in their order. */
  function WithKey<T>(key: T -> int, rows: seq<T>, k: int): seq<T> {
    if rows == [] then [] else (if key(rows[0]) == k then [rows[0]] else []) + WithKey(key, rows[1..], k)
  }

  lemma {:induction false} SmallerHaveOtherKeys<T>(key: T -> int, rows: seq<T>, k: int)
    requires Descending(key, rows) && (rows != [] ==> key(rows[0]) < k)
    ensures WithKey(key, rows, k) == []
  {
    if rows != [] {
      SmallerHaveOtherKeys(key, rows[1..], k);
    }
  }

  lemma {:induction false} InsertIsLast<T>(key: T -> int, rows: seq<T>, r: T, k: int)
    requires Descending(key, rows)
    ensures WithKey(key, Insert(key, rows, r), k) == WithKey(key, rows, k) + if key(r) == k then [r] else []
  {
    if rows == [] || key(rows[0]) < key(r) {
      SmallerHaveOtherKeys(key, rows, key(r));
      assert ([r] + rows)[1..] == rows;
    } else {
      InsertIsLast(key, rows[1..], r, k);
      assert ([rows[0]] + Insert(key, rows[1..], r))[1..] == Insert(key, rows[1..], r);
    }
  }

  lemma {:induction false} WithKeyOfLast<T>(key: T -> int, rows: seq<T>, k: int)
    requires rows != []
    ensures var n := |rows| - 1; WithKey(key, rows, k) == WithKey(key, rows[..n], k) + if key(rows[n]) == k then [rows[n]] else []
  {
    if |rows| > 1 {
      WithKeyOfLast(key, rows[1..], k);
      assert rows[1..][..|rows| - 2] == rows[..|rows| - 1][1..];
    }
  }

  /** Rows with equal keys stay in the order they came in. */
  lemma {:induction false} SortIsStable<T>(key: T -> int, rows: seq<T>, k: int)
    ensures WithKey(key, SortBy(key, rows), k) == WithKey(key, rows, k)
  {
    if rows != [] {
      var n := |rows| - 1;
      SortIsStable(key, rows[..n], k);
      SortSorts(key, rows[..n]);
      InsertIsLast(key, SortBy(key, rows[..n]), rows[n], k);
      WithKeyOfLast(key, rows, k);
    }
  }
}
