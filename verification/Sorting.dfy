/** Sorting a sequence, and why the result depends only on the elements. */
module Sorting {

  ghost predicate IsSorted<T(!new)>(s: seq<T>, le: (T, T) -> bool) {
    forall i, j :: 0 <= i < j < |s| ==> le(s[i], s[j])
  }

  /** A preorder in which any two values are comparable. */
  ghost predicate IsOrder<T(!new)>(le: (T, T) -> bool) {
    && (forall a, b :: le(a, b) || le(b, a))
    && (forall a, b, c :: le(a, b) && le(b, c) ==> le(a, c))
  }

  function Insert<T>(x: T, s: seq<T>, le: (T, T) -> bool): seq<T> {
    if s == [] || le(x, s[0]) then [x] + s else [s[0]] + Insert(x, s[1..], le)
  }

  function Sort<T>(s: seq<T>, le: (T, T) -> bool): seq<T> {
    if s == [] then [] else Insert(s[0], Sort(s[1..], le), le)
  }

  lemma {:induction false} InsertKeeps<T>(x: T, s: seq<T>, le: (T, T) -> bool)
    ensures multiset(Insert(x, s, le)) == multiset(s) + multiset{x}
  {
    if s != [] {
      assert s == [s[0]] + s[1..];
      if !le(x, s[0]) { InsertKeeps(x, s[1..], le); }
    }
  }

  lemma {:induction false} InsertSorted<T(!new)>(x: T, s: seq<T>, le: (T, T) -> bool)
    requires IsOrder(le) && IsSorted(s, le)
    ensures multiset(Insert(x, s, le)) == multiset(s) + multiset{x}
    ensures IsSorted(Insert(x, s, le), le)
  {
    InsertKeeps(x, s, le);
    if s != [] {
      if !le(x, s[0]) {
        InsertSorted(x, s[1..], le);
        var rest := Insert(x, s[1..], le);
        forall j | 0 <= j < |rest| ensures le(s[0], rest[j]) {
          assert rest[j] in multiset(s[1..]) + multiset{x};
        }
      } else {
        forall j | 0 <= j < |s| ensures le(x, s[j]) {
          if j > 0 { assert le(s[0], s[j]); }
        }
      }
    }
  }

  lemma {:induction false} SortSorts<T(!new)>(s: seq<T>, le: (T, T) -> bool)
    requires IsOrder(le)
    ensures multiset(Sort(s, le)) == multiset(s) && IsSorted(Sort(s, le), le)
  {
    if s != [] {
      SortSorts(s[1..], le);
      InsertSorted(s[0], Sort(s[1..], le), le);
      assert s == [s[0]] + s[1..];
    }
  }

  /** No two different elements are on a par. */
  ghost predicate Separates<T(!new)>(s: seq<T>, le: (T, T) -> bool) {
    forall a, b :: a in multiset(s) && b in multiset(s) && le(a, b) && le(b, a) ==> a == b
  }

  lemma HeadIsLeast<T(!new)>(a: seq<T>, x: T, le: (T, T) -> bool)
    requires IsOrder(le) && IsSorted(a, le) && x in multiset(a)
    ensures a != [] && le(a[0], x)
  {
    var i :| 0 <= i < |a| && a[i] == x;
    assert le(a[0], a[0]);
    if i > 0 { assert le(a[0], a[i]); }
  }

  lemma SameHead<T(!new)>(a: seq<T>, b: seq<T>, le: (T, T) -> bool)
    requires IsOrder(le) && IsSorted(a, le) && IsSorted(b, le) && a != []
    requires multiset(a) == multiset(b) && Separates(a, le)
    ensures b != [] && a[0] == b[0]
  {
    assert a[0] in multiset(a);
    HeadIsLeast(b, a[0], le);
    assert b[0] in multiset(b);
    HeadIsLeast(a, b[0], le);
  }

  lemma Tail<T(!new)>(a: seq<T>, le: (T, T) -> bool)
    requires IsSorted(a, le) && Separates(a, le) && a != []
    ensures IsSorted(a[1..], le) && Separates(a[1..], le)
    ensures multiset(a[1..]) == multiset(a) - multiset{a[0]}
  {
    assert a == [a[0]] + a[1..];
  }

  lemma SameTails<T(!new)>(a: seq<T>, b: seq<T>, le: (T, T) -> bool)
    requires IsSorted(a, le) && IsSorted(b, le) && Separates(a, le)
    requires multiset(a) == multiset(b) && a != [] && b != [] && a[0] == b[0]
    ensures IsSorted(a[1..], le) && IsSorted(b[1..], le) && Separates(a[1..], le) && multiset(a[1..]) == multiset(b[1..])
  {
    Tail(a, le);
    Tail(b, le);
  }

  lemma {:induction false} SortedIsUnique<T(!new)>(a: seq<T>, b: seq<T>, le: (T, T) -> bool)
    requires IsOrder(le) && IsSorted(a, le) && IsSorted(b, le)
    requires multiset(a) == multiset(b) && Separates(a, le)
    ensures a == b
    decreases |a|
  {
    if a != [] {
      SameHead(a, b, le);
      SameTails(a, b, le);
      SortedIsUnique(a[1..], b[1..], le);
      assert a == [a[0]] + a[1..] && b == [b[0]] + b[1..];
    }
  }

  /** Sorting any rearrangement of an already sorted sequence gives that sequence back. */
  lemma SortRestores<T(!new)>(shuffled: seq<T>, sorted: seq<T>, le: (T, T) -> bool)
    requires IsOrder(le) && multiset(shuffled) == multiset(sorted)
    requires IsSorted(sorted, le) && Separates(sorted, le)
    ensures Sort(shuffled, le) == sorted
  {
    SortSorts(shuffled, le);
    SortedIsUnique(sorted, Sort(shuffled, le), le);
  }

  /** Sorting forgets the order: rearrangements sort alike. */
  lemma SortForgetsOrder<T(!new)>(a: seq<T>, b: seq<T>, le: (T, T) -> bool)
    requires IsOrder(le) && multiset(a) == multiset(b) && Separates(a, le)
    ensures Sort(a, le) == Sort(b, le)
  {
    SortSorts(a, le);
    SortSorts(b, le);
    SortedIsUnique(Sort(a, le), Sort(b, le), le);
  }

  /** And conversely, what sorts alike is a rearrangement. */
  lemma SortSameMeansSameElements<T(!new)>(a: seq<T>, b: seq<T>, le: (T, T) -> bool)
    requires IsOrder(le) && Sort(a, le) == Sort(b, le)
    ensures multiset(a) == multiset(b)
  {
    SortSorts(a, le);
    SortSorts(b, le);
  }

  lemma {:induction false} DistinctCountsOnce<T>(s: seq<T>)
    requires forall i, j :: 0 <= i < j < |s| ==> s[i] != s[j]
    ensures forall x :: multiset(s)[x] <= 1
  {
    if s != [] {
      DistinctCountsOnce(s[1..]);
      assert s == [s[0]] + s[1..];
    }
  }

  /** A rearrangement of distinct elements has distinct elements. */
  lemma NoDuplicates<T>(a: seq<T>, b: seq<T>)
    requires multiset(a) == multiset(b)
    requires forall i, j :: 0 <= i < j < |a| ==> a[i] != a[j]
    ensures forall i, j :: 0 <= i < j < |b| ==> b[i] != b[j]
  {
    DistinctCountsOnce(a);
    forall i, j | 0 <= i < j < |b| ensures b[i] != b[j] {
      assert multiset(b)[b[i]] <= 1;
      assert b == b[..j] + [b[j]] + b[j + 1..] && b[i] in b[..j];
    }
  }

  // ---- Sums ----

  function SumBy<T>(f: T -> int, s: seq<T>): int {
    if s == [] then 0 else f(s[0]) + SumBy(f, s[1..])
  }

  lemma {:induction false} SumConcat<T>(f: T -> int, a: seq<T>, b: seq<T>)
    ensures SumBy(f, a + b) == SumBy(f, a) + SumBy(f, b)
    decreases |a|
  {
    if a == [] { assert a + b == b; } else {
      assert (a + b)[1..] == a[1..] + b;
      SumConcat(f, a[1..], b);
    }
  }

  lemma Cancelled<T>(x: T, a: multiset<T>, b: multiset<T>)
    requires a + multiset{x} == b + multiset{x}
    ensures a == b
  {
    assert a == (a + multiset{x}) - multiset{x};
    assert b == (b + multiset{x}) - multiset{x};
  }

  /** Where the head of a sequence sits in a rearrangement, and what is left without it. */
  lemma Without<T>(a: seq<T>, b: seq<T>) returns (i: nat)
    requires a != [] && multiset(a) == multiset(b)
    ensures i < |b| && b[i] == a[0] && multiset(a[1..]) == multiset(b[..i] + b[i + 1..])
  {
    assert a[0] in multiset(b);
    i :| 0 <= i < |b| && b[i] == a[0];
    assert a == [a[0]] + a[1..] && b == b[..i] + [b[i]] + b[i + 1..];
    assert multiset(b) == multiset(b[..i]) + multiset{b[i]} + multiset(b[i + 1..]);
    assert multiset(b[..i] + b[i + 1..]) == multiset(b[..i]) + multiset(b[i + 1..]);
    assert multiset(a[1..]) + multiset{a[0]} == multiset(a);
    assert multiset(b[..i] + b[i + 1..]) + multiset{a[0]} == multiset(b);
    Cancelled(a[0], multiset(a[1..]), multiset(b[..i] + b[i + 1..]));
  }

  lemma {:induction false} SumIgnoresOrder<T>(f: T -> int, a: seq<T>, b: seq<T>)
    requires multiset(a) == multiset(b)
    ensures SumBy(f, a) == SumBy(f, b)
    decreases |a|
  {
    if a == [] {
      assert |multiset(b)| == |b| == 0;
    } else {
      var i := Without(a, b);
      SumIgnoresOrder(f, a[1..], b[..i] + b[i + 1..]);
      SumConcat(f, b[..i], b[i + 1..]);
      SumConcat(f, b[..i], b[i..]);
      assert b == b[..i] + b[i..] && b[i..][1..] == b[i + 1..];
    }
  }

  // ---- Images ----

  function Image<T, U>(f: T -> U, s: seq<T>): seq<U> {
    seq(|s|, i requires 0 <= i < |s| => f(s[i]))
  }

  lemma {:induction false} SumOfImage<T, U>(f: T -> int, h: T -> U, g: U -> int, s: seq<T>)
    requires forall i :: 0 <= i < |s| ==> f(s[i]) == g(h(s[i]))
    ensures SumBy(f, s) == SumBy(g, Image(h, s))
    decreases |s|
  {
    if s != [] {
      SumOfImage(f, h, g, s[1..]);
      assert Image(h, s)[0] == h(s[0]) && Image(h, s)[1..] == Image(h, s[1..]);
    }
  }

  lemma ImageWithout<T, U>(f: T -> U, s: seq<T>, i: nat)
    requires i < |s|
    ensures Image(f, s)[..i] + Image(f, s)[i + 1..] == Image(f, s[..i] + s[i + 1..])
  {
  }

  lemma PutBackAt<T>(s: seq<T>, i: nat)
    requires i < |s|
    ensures multiset(s) == multiset(s[..i] + s[i + 1..]) + multiset{s[i]}
  {
    assert s == s[..i] + [s[i]] + s[i + 1..];
    assert multiset(s) == multiset(s[..i]) + multiset{s[i]} + multiset(s[i + 1..]);
    assert multiset(s[..i] + s[i + 1..]) == multiset(s[..i]) + multiset(s[i + 1..]);
  }

  /** Where one value of an element determines another, rearranging the first rearranges the second. */
  lemma {:induction false} ImagesMoveTogether<T, U, V>(f: T -> U, g: T -> V, a: seq<T>, b: seq<T>)
    requires forall x, y :: f(x) == f(y) ==> g(x) == g(y)
    requires multiset(Image(f, a)) == multiset(Image(f, b))
    ensures multiset(Image(g, a)) == multiset(Image(g, b))
    decreases |a|
  {
    if a == [] {
      assert |Image(f, b)| == |multiset(Image(f, b))| == 0;
      assert Image(g, a) == Image(g, b);
    } else {
      var i := Without(Image(f, a), Image(f, b));
      assert Image(f, a)[1..] == Image(f, a[1..]);
      ImageWithout(f, b, i);
      ImagesMoveTogether(f, g, a[1..], b[..i] + b[i + 1..]);
      ImageWithout(g, b, i);
      PutBackAt(Image(g, b), i);
      assert Image(g, a) == [g(a[0])] + Image(g, a[1..]);
      assert multiset(Image(g, a)) == multiset(Image(g, a[1..])) + multiset{g(a[0])};
    }
  }
}
