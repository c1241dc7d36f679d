/** Tables whose rows belong to an account each: one account's rows, and putting them in time order. */
module Rows {
  import Sorting

  /** The rows of one account, in table order. */
  function Of<T, K(==)>(keyOf: T -> K, rows: seq<T>, key: K): seq<T> {
    if rows == [] then []
    else if keyOf(rows[0]) == key then [rows[0]] + Of(keyOf, rows[1..], key)
    else Of(keyOf, rows[1..], key)
  }

  lemma {:induction false} Snoc<T, K>(keyOf: T -> K, rows: seq<T>, m: T, key: K)
    ensures Of(keyOf, rows + [m], key) == if keyOf(m) == key then Of(keyOf, rows, key) + [m] else Of(keyOf, rows, key)
    decreases |rows|
  {
    if rows == [] {
      assert rows + [m] == [m];
    } else {
      assert (rows + [m])[1..] == rows[1..] + [m];
      Snoc(keyOf, rows[1..], m, key);
    }
  }

  lemma {:induction false} Members<T, K>(keyOf: T -> K, rows: seq<T>, key: K)
    ensures forall i :: 0 <= i < |Of(keyOf, rows, key)| ==> Of(keyOf, rows, key)[i] in rows && keyOf(Of(keyOf, rows, key)[i]) == key
    ensures forall i :: 0 <= i < |rows| && keyOf(rows[i]) == key ==> rows[i] in Of(keyOf, rows, key)
    decreases |rows|
  {
    if rows != [] { Members(keyOf, rows[1..], key); }
  }

  lemma {:induction false} Nothing<T, K>(keyOf: T -> K, rows: seq<T>, key: K)
    requires forall i :: 0 <= i < |rows| ==> keyOf(rows[i]) != key
    ensures Of(keyOf, rows, key) == []
  {
    if rows != [] { Nothing(keyOf, rows[1..], key); }
  }

  lemma {:induction false} Counts<T, K>(keyOf: T -> K, rows: seq<T>, key: K)
    ensures forall x :: multiset(Of(keyOf, rows, key))[x] == if keyOf(x) == key then multiset(rows)[x] else 0
    decreases |rows|
  {
    if rows != [] {
      Counts(keyOf, rows[1..], key);
      assert rows == [rows[0]] + rows[1..];
    }
  }

  lemma SameElementsSameAccount<T, K>(keyOf: T -> K, a: seq<T>, b: seq<T>, key: K)
    requires multiset(a) == multiset(b)
    ensures multiset(Of(keyOf, a, key)) == multiset(Of(keyOf, b, key))
  {
    Counts(keyOf, a, key);
    Counts(keyOf, b, key);
    var x, y := multiset(Of(keyOf, a, key)), multiset(Of(keyOf, b, key));
    forall m: T ensures x[m] == y[m] {
      assert x[m] == if keyOf(m) == key then multiset(a)[m] else 0;
      assert y[m] == if keyOf(m) == key then multiset(b)[m] else 0;
    }
    EqualCounts(x, y);
  }

  lemma EqualCounts<T>(x: multiset<T>, y: multiset<T>)
    requires forall m: T :: x[m] == y[m]
    ensures x == y
  {
    forall m | m in x ensures x[m] <= y[m] { assert x[m] == y[m]; }
    forall m | m in y ensures y[m] <= x[m] { assert x[m] == y[m]; }
    assert x <= y && y <= x;
  }

  // ---- Putting rows in order ----

  /** The rows of an account are written in strictly increasing order. */
  ghost predicate Increase<T(!new), K>(keyOf: T -> K, le: (T, T) -> bool, rows: seq<T>) {
    forall i, j :: 0 <= i < j < |rows| && keyOf(rows[i]) == keyOf(rows[j]) ==> le(rows[i], rows[j]) && !le(rows[j], rows[i])
  }

  ghost predicate Ascending<T(!new)>(le: (T, T) -> bool, rows: seq<T>) {
    forall i, j :: 0 <= i < j < |rows| ==> le(rows[i], rows[j]) && !le(rows[j], rows[i])
  }

  /** A relation between earlier and later rows of an account is one between the rows of the account. */
  lemma {:induction false} AccountKeeps<T(!new), K>(keyOf: T -> K, r: (T, T) -> bool, rows: seq<T>, key: K)
    requires forall i, j :: 0 <= i < j < |rows| && keyOf(rows[i]) == keyOf(rows[j]) ==> r(rows[i], rows[j])
    ensures forall i, j :: 0 <= i < j < |Of(keyOf, rows, key)| ==> r(Of(keyOf, rows, key)[i], Of(keyOf, rows, key)[j])
    decreases |rows|
  {
    if rows != [] {
      AccountKeeps(keyOf, r, rows[1..], key);
      Members(keyOf, rows[1..], key);
      if keyOf(rows[0]) == key {
        var rest := Of(keyOf, rows[1..], key);
        forall j | 0 <= j < |rest| ensures r(rows[0], rest[j]) {
          var k :| 0 <= k < |rows[1..]| && rows[1..][k] == rest[j];
          assert rows[k + 1] == rest[j];
        }
      }
    }
  }

  /** And the other way round. */
  lemma {:induction false} AccountTells<T(!new), K>(keyOf: T -> K, r: (T, T) -> bool, rows: seq<T>, key: K)
    requires forall i, j :: 0 <= i < j < |Of(keyOf, rows, key)| ==> r(Of(keyOf, rows, key)[i], Of(keyOf, rows, key)[j])
    ensures forall i, j :: 0 <= i < j < |rows| && keyOf(rows[i]) == key && keyOf(rows[j]) == key ==> r(rows[i], rows[j])
    decreases |rows|
  {
    if rows != [] {
      var all, rest := Of(keyOf, rows, key), Of(keyOf, rows[1..], key);
      forall i, j | 0 <= i < j < |rest| ensures r(rest[i], rest[j]) {
        if keyOf(rows[0]) == key { assert r(all[i + 1], all[j + 1]); } else { assert r(all[i], all[j]); }
      }
      AccountTells(keyOf, r, rows[1..], key);
      if keyOf(rows[0]) == key { HeadTells(keyOf, r, rows, key); }
      forall i, j | 0 <= i < j < |rows| && keyOf(rows[i]) == key && keyOf(rows[j]) == key ensures r(rows[i], rows[j]) {
        assert rows[1..][j - 1] == rows[j];
        if i > 0 { assert rows[1..][i - 1] == rows[i]; }
      }
    }
  }

  lemma HeadTells<T(!new), K>(keyOf: T -> K, r: (T, T) -> bool, rows: seq<T>, key: K)
    requires rows != [] && keyOf(rows[0]) == key
    requires forall i, j :: 0 <= i < j < |Of(keyOf, rows, key)| ==> r(Of(keyOf, rows, key)[i], Of(keyOf, rows, key)[j])
    ensures forall j :: 0 < j < |rows| && keyOf(rows[j]) == key ==> r(rows[0], rows[j])
  {
    var all, rest := Of(keyOf, rows, key), Of(keyOf, rows[1..], key);
    Members(keyOf, rows[1..], key);
    forall j | 0 < j < |rows| && keyOf(rows[j]) == key ensures r(rows[0], rows[j]) {
      assert rows[j] == rows[1..][j - 1];
      var k :| 0 <= k < |rest| && rest[k] == rows[j];
      assert r(all[0], all[k + 1]);
    }
  }

  lemma AccountAscends<T(!new), K>(keyOf: T -> K, le: (T, T) -> bool, rows: seq<T>, key: K)
    requires Increase(keyOf, le, rows)
    ensures Ascending(le, Of(keyOf, rows, key))
  {
    AccountKeeps(keyOf, (a, b) => le(a, b) && !le(b, a), rows, key);
  }

  lemma AscendingSeparates<T(!new)>(le: (T, T) -> bool, rows: seq<T>)
    requires Ascending(le, rows)
    ensures Sorting.IsSorted(rows, le) && Sorting.Separates(rows, le)
  {
    forall a, b | a in multiset(rows) && b in multiset(rows) && le(a, b) && le(b, a)
      ensures a == b
    {
      var i :| 0 <= i < |rows| && rows[i] == a;
      var j :| 0 <= j < |rows| && rows[j] == b;
    }
  }

  /** Sorting the rows of an account, however they were listed, restores the order they were written in. */
  lemma SortedIsWritten<T(!new), K>(keyOf: T -> K, le: (T, T) -> bool, listed: seq<T>, written: seq<T>, key: K)
    requires multiset(listed) == multiset(written) && Sorting.IsOrder(le)
    requires Ascending(le, Of(keyOf, written, key))
    ensures Sorting.Sort(Of(keyOf, listed, key), le) == Of(keyOf, written, key)
  {
    SameElementsSameAccount(keyOf, listed, written, key);
    AscendingSeparates(le, Of(keyOf, written, key));
    Sorting.SortRestores(Of(keyOf, listed, key), Of(keyOf, written, key), le);
  }

  lemma {:induction false} FirstDifference<T>(a: seq<T>, b: seq<T>) returns (i: nat)
    requires |a| == |b| && a != b
    ensures i < |a| && a[..i] == b[..i] && a[i] != b[i]
    decreases |a|
  {
    if a[0] != b[0] {
      i := 0;
    } else {
      assert a == [a[0]] + a[1..] && b == [b[0]] + b[1..];
      i := FirstDifference(a[1..], b[1..]);
      i := i + 1;
      assert a[..i] == [a[0]] + a[1..][..i - 1] && b[..i] == [b[0]] + b[1..][..i - 1];
    }
  }

  /** If sorting moves something, the first place that changes receives a later row, one that is not
      greater than the row that was written there. */
  lemma SortingMoves<T(!new)>(le: (T, T) -> bool, listed: seq<T>, written: seq<T>) returns (i: nat, k: nat)
    requires multiset(listed) == multiset(written) && Sorting.IsOrder(le)
    requires Sorting.Sort(listed, le) != written
    ensures |written| == |Sorting.Sort(listed, le)| && i < k < |written|
    ensures Sorting.Sort(listed, le)[..i] == written[..i] && Sorting.Sort(listed, le)[i] == written[k] && le(written[k], written[i])
  {
    Sorting.SortSorts(listed, le);
    i, k := FirstMove(le, Sorting.Sort(listed, le), written);
  }

  lemma FirstMove<T(!new)>(le: (T, T) -> bool, sorted: seq<T>, written: seq<T>) returns (i: nat, k: nat)
    requires multiset(sorted) == multiset(written) && sorted != written
    requires Sorting.IsSorted(sorted, le) && forall x :: le(x, x)
    ensures |written| == |sorted| && i < k < |written| && sorted[..i] == written[..i] && sorted[i] == written[k] && le(written[k], written[i])
  {
    assert |sorted| == |multiset(sorted)| == |multiset(written)| == |written|;
    i := FirstDifference(sorted, written);
    SameRest(sorted, written, i);
    k := Later(sorted, written, i);
    var m := Later(written, sorted, i);
  }

  lemma SameRest<T>(a: seq<T>, b: seq<T>, i: nat)
    requires multiset(a) == multiset(b) && i <= |a| && i <= |b| && a[..i] == b[..i]
    ensures multiset(a[i..]) == multiset(b[i..])
  {
    assert a == a[..i] + a[i..] && b == b[..i] + b[i..];
    Cancel(multiset(a[..i]), multiset(a[i..]), multiset(b[i..]));
  }

  lemma Later<T>(a: seq<T>, b: seq<T>, i: nat) returns (k: nat)
    requires i < |a| && i <= |b| && multiset(a[i..]) == multiset(b[i..])
    ensures i <= k < |b| && b[k] == a[i]
  {
    assert a[i] == a[i..][0];
    assert a[i] in multiset(b[i..]);
    var j :| 0 <= j < |b[i..]| && b[i..][j] == a[i];
    k := i + j;
  }

  lemma Cancel<T>(common: multiset<T>, a: multiset<T>, b: multiset<T>)
    requires common + a == common + b
    ensures a == b
  {
    assert a == (common + a) - common && b == (common + b) - common;
  }

  // ---- Adding accounts up ----

  ghost predicate Distinct<K>(keys: seq<K>) {
    forall i, j :: 0 <= i < j < |keys| ==> keys[i] != keys[j]
  }

  /** Every row belongs to one of the accounts. */
  ghost predicate Covers<T, K>(keyOf: T -> K, rows: seq<T>, keys: seq<K>) {
    forall i :: 0 <= i < |rows| ==> keyOf(rows[i]) in keys
  }

  function PerAccount<T, K(==)>(keyOf: T -> K, f: T -> int, rows: seq<T>): K -> int {
    (key: K) => Sorting.SumBy(f, Of(keyOf, rows, key))
  }

  lemma {:induction false} OneRowMore<T, K>(keyOf: T -> K, f: T -> int, rows: seq<T>, keys: seq<K>)
    requires rows != [] && Distinct(keys)
    ensures Sorting.SumBy(PerAccount(keyOf, f, rows), keys)
         == Sorting.SumBy(PerAccount(keyOf, f, rows[1..]), keys) + if keyOf(rows[0]) in keys then f(rows[0]) else 0
    decreases |keys|
  {
    if keys != [] {
      OneRowMore(keyOf, f, rows, keys[1..]);
      assert keys == [keys[0]] + keys[1..];
      if keyOf(rows[0]) == keys[0] {
        assert Of(keyOf, rows, keys[0])[1..] == Of(keyOf, rows[1..], keys[0]);
        assert keyOf(rows[0]) !in keys[1..];
      }
    }
  }

  lemma {:induction false} NoRowsNoSum<T, K>(keyOf: T -> K, f: T -> int, keys: seq<K>)
    ensures Sorting.SumBy(PerAccount(keyOf, f, []), keys) == 0
    decreases |keys|
  {
    if keys != [] { NoRowsNoSum(keyOf, f, keys[1..]); }
  }

  /** The sum over all rows is the sum of what each account's rows add up to. */
  lemma {:induction false} AccountsAddUp<T, K>(keyOf: T -> K, f: T -> int, rows: seq<T>, keys: seq<K>)
    requires Distinct(keys) && Covers(keyOf, rows, keys)
    ensures Sorting.SumBy(PerAccount(keyOf, f, rows), keys) == Sorting.SumBy(f, rows)
    decreases |rows|
  {
    if rows == [] {
      NoRowsNoSum(keyOf, f, keys);
    } else {
      AccountsAddUp(keyOf, f, rows[1..], keys);
      OneRowMore(keyOf, f, rows, keys);
    }
  }
}
