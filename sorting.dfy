/**
 * Stable sorting by a total preorder, the behaviour of Python's sorted()
 * with a key and of a multi-column DataFrame.sort_values. It is written as
 * an insertion sort: each element is placed after every element already
 * sorted that is not greater than it.
 */
module Sorting {

  /** le is total and transitive: a total preorder. */
  ghost predicate TotalPreorder<T(!new)>(le: (T, T) -> bool) {
    && (forall a, b :: le(a, b) || le(b, a))
    && (forall a, b, c :: le(a, b) && le(b, c) ==> le(a, c))
  }

  predicate SortedBy<T>(s: seq<T>, le: (T, T) -> bool) {
    forall i, j :: 0 <= i < j < |s| ==> le(s[i], s[j])
  }

  /** a and b are equal under le (neither sorts strictly before the other). */
  predicate Equivalent<T>(a: T, b: T, le: (T, T) -> bool) {
    le(a, b) && le(b, a)
  }

  /** The elements of s equivalent to k, in their order in s. */
  function ClassOf<T>(s: seq<T>, k: T, le: (T, T) -> bool): (r: seq<T>)
    ensures |r| <= |s|
  {
    if s == [] then []
    else (if Equivalent(s[0], k, le) then [s[0]] else []) + ClassOf(s[1..], k, le)
  }

  /** x inserted after the longest prefix of s whose elements are le x. */
  function Insert<T>(x: T, s: seq<T>, le: (T, T) -> bool): seq<T> {
    if s == [] then [x]
    else if le(s[0], x) then [s[0]] + Insert(x, s[1..], le)
    else [x] + s
  }

  function SortBy<T>(s: seq<T>, le: (T, T) -> bool): seq<T> {
    if s == [] then [] else Insert(s[|s| - 1], SortBy(s[..|s| - 1], le), le)
  }

  lemma {:induction false} InsertPermutes<T>(x: T, s: seq<T>, le: (T, T) -> bool)
    ensures multiset(Insert(x, s, le)) == multiset(s) + multiset{x}
  {
    if s != [] && le(s[0], x) {
      InsertPermutes(x, s[1..], le);
      assert s == [s[0]] + s[1..];
    }
  }

  lemma {:induction false} InsertSorted<T(!new)>(x: T, s: seq<T>, le: (T, T) -> bool)
    requires TotalPreorder(le)
    requires SortedBy(s, le)
    ensures SortedBy(Insert(x, s, le), le)
  {
    if s != [] && le(s[0], x) {
      InsertSorted(x, s[1..], le);
      var r := Insert(x, s[1..], le);
      InsertPermutes(x, s[1..], le);
      forall j | 0 <= j < |r| ensures le(s[0], r[j]) {
        assert r[j] in multiset(r);
        assert r[j] in multiset(s[1..]) + multiset{x};
        if r[j] != x {
          assert r[j] in s[1..];
        }
      }
    } else if s != [] {
      assert le(x, s[0]);
    }
  }

  /** The result is ordered by le. */
  lemma {:induction false} SortBySorted<T(!new)>(s: seq<T>, le: (T, T) -> bool)
    requires TotalPreorder(le)
    ensures SortedBy(SortBy(s, le), le)
  {
    if s != [] {
      SortBySorted(s[..|s| - 1], le);
      InsertSorted(s[|s| - 1], SortBy(s[..|s| - 1], le), le);
    }
  }

  /** The result is a permutation of the input. */
  lemma {:induction false} SortByPermutes<T>(s: seq<T>, le: (T, T) -> bool)
    ensures multiset(SortBy(s, le)) == multiset(s)
    ensures |SortBy(s, le)| == |s|
  {
    if s != [] {
      SortByPermutes(s[..|s| - 1], le);
      InsertPermutes(s[|s| - 1], SortBy(s[..|s| - 1], le), le);
      assert s == s[..|s| - 1] + [s[|s| - 1]];
      assert |SortBy(s, le)| == |multiset(SortBy(s, le))| == |multiset(s)| == |s|;
    }
  }

  lemma {:induction false} ClassOfAppend<T>(a: seq<T>, b: seq<T>, k: T, le: (T, T) -> bool)
    ensures ClassOf(a + b, k, le) == ClassOf(a, k, le) + ClassOf(b, k, le)
  {
    if a == [] {
      assert a + b == b;
    } else {
      var head := if Equivalent(a[0], k, le) then [a[0]] else [];
      assert (a + b)[0] == a[0];
      assert (a + b)[1..] == a[1..] + b;
      assert ClassOf(a + b, k, le) == head + ClassOf(a[1..] + b, k, le);
      ClassOfAppend(a[1..], b, k, le);
    }
  }

  lemma {:induction false} ClassOfNone<T>(s: seq<T>, k: T, le: (T, T) -> bool)
    requires forall i :: 0 <= i < |s| ==> !Equivalent(s[i], k, le)
    ensures ClassOf(s, k, le) == []
  {
    if s != [] {
      ClassOfNone(s[1..], k, le);
    }
  }

  lemma ClassOfCons<T>(a: T, s: seq<T>, k: T, le: (T, T) -> bool)
    ensures ClassOf([a] + s, k, le) == (if Equivalent(a, k, le) then [a] else []) + ClassOf(s, k, le)
  {
    assert ([a] + s)[0] == a;
    assert ([a] + s)[1..] == s;
  }

  lemma SortedTail<T>(s: seq<T>, le: (T, T) -> bool)
    requires s != [] && SortedBy(s, le)
    ensures SortedBy(s[1..], le)
  {
  }

  /** Nothing in a sorted s is equivalent to k when x, equivalent to k, sorts strictly before s[0]. */
  lemma NoneBelow<T(!new)>(x: T, s: seq<T>, k: T, le: (T, T) -> bool)
    requires TotalPreorder(le) && SortedBy(s, le)
    requires s != [] && !le(s[0], x) && Equivalent(x, k, le)
    ensures ClassOf(s, k, le) == []
  {
    forall i | 0 <= i < |s| ensures !Equivalent(s[i], k, le) {
      assert le(s[0], s[i]);
    }
    ClassOfNone(s, k, le);
  }

  lemma {:induction false} InsertClass<T(!new)>(x: T, s: seq<T>, k: T, le: (T, T) -> bool)
    requires TotalPreorder(le)
    requires SortedBy(s, le)
    ensures ClassOf(Insert(x, s, le), k, le)
         == ClassOf(s, k, le) + (if Equivalent(x, k, le) then [x] else [])
  {
    var own := if Equivalent(x, k, le) then [x] else [];
    if s == [] {
      ClassOfCons(x, [], k, le);
      assert [x] + [] == [x];
    } else if le(s[0], x) {
      var head := if Equivalent(s[0], k, le) then [s[0]] else [];
      SortedTail(s, le);
      InsertClass(x, s[1..], k, le);
      ClassOfCons(s[0], Insert(x, s[1..], le), k, le);
      ClassOfCons(s[0], s[1..], k, le);
      assert s == [s[0]] + s[1..];
      assert ClassOf(Insert(x, s, le), k, le) == head + (ClassOf(s[1..], k, le) + own);
      assert head + (ClassOf(s[1..], k, le) + own) == (head + ClassOf(s[1..], k, le)) + own;
    } else {
      ClassOfCons(x, s, k, le);
      if Equivalent(x, k, le) {
        NoneBelow(x, s, k, le);
      }
    }
  }

  /** Stability: elements that compare equal keep their input order. */
  lemma {:induction false} SortByStable<T(!new)>(s: seq<T>, k: T, le: (T, T) -> bool)
    requires TotalPreorder(le)
    ensures ClassOf(SortBy(s, le), k, le) == ClassOf(s, k, le)
  {
    if s != [] {
      var init, x := s[..|s| - 1], s[|s| - 1];
      SortByStable(init, k, le);
      SortBySorted(init, le);
      InsertClass(x, SortBy(init, le), k, le);
      assert s == init + [x];
      ClassOfAppend(init, [x], k, le);
    }
  }

  // ---------------------------------------------------------------------
  // sorted(set(...)): the distinct elements in increasing order.

  /** lt is irreflexive, transitive and total on distinct elements. */
  ghost predicate StrictTotalOrder<T(!new)>(lt: (T, T) -> bool) {
    && (forall a :: !lt(a, a))
    && (forall a, b, c :: lt(a, b) && lt(b, c) ==> lt(a, c))
    && (forall a, b :: a != b ==> lt(a, b) || lt(b, a))
  }

  predicate StrictlySorted<T>(s: seq<T>, lt: (T, T) -> bool) {
    forall i, j :: 0 <= i < j < |s| ==> lt(s[i], s[j])
  }

  /** x put in its place in a strictly sorted s, unless it is there already. */
  function InsertUnique<T(==)>(x: T, s: seq<T>, lt: (T, T) -> bool): seq<T> {
    if s == [] then [x]
    else if s[0] == x then s
    else if lt(s[0], x) then [s[0]] + InsertUnique(x, s[1..], lt)
    else [x] + s
  }

  /** sorted(set(s)): the distinct elements of s in increasing order. */
  function SortedSet<T(==)>(s: seq<T>, lt: (T, T) -> bool): seq<T> {
    if s == [] then [] else InsertUnique(s[|s| - 1], SortedSet(s[..|s| - 1], lt), lt)
  }

  lemma {:induction false} InsertUniqueElems<T>(x: T, s: seq<T>, lt: (T, T) -> bool)
    ensures forall y :: y in InsertUnique(x, s, lt) <==> y in s || y == x
  {
    if s != [] && s[0] != x && lt(s[0], x) {
      InsertUniqueElems(x, s[1..], lt);
      assert s == [s[0]] + s[1..];
    }
  }

  lemma {:induction false} InsertUniqueSorted<T(!new)>(x: T, s: seq<T>, lt: (T, T) -> bool)
    requires StrictTotalOrder(lt) && StrictlySorted(s, lt)
    ensures StrictlySorted(InsertUnique(x, s, lt), lt)
  {
    if s != [] && s[0] != x && lt(s[0], x) {
      InsertUniqueSorted(x, s[1..], lt);
      InsertUniqueElems(x, s[1..], lt);
      var r := InsertUnique(x, s[1..], lt);
      forall j | 0 <= j < |r| ensures lt(s[0], r[j]) {
        assert r[j] in r;
      }
    } else if s != [] && s[0] != x {
      assert lt(x, s[0]);
    }
  }

  /** The result is strictly sorted and holds exactly the elements of s. */
  lemma {:induction false} SortedSetFacts<T(!new)>(s: seq<T>, lt: (T, T) -> bool)
    requires StrictTotalOrder(lt)
    ensures StrictlySorted(SortedSet(s, lt), lt)
    ensures forall y :: y in SortedSet(s, lt) <==> y in s
  {
    if s != [] {
      var init, x := s[..|s| - 1], s[|s| - 1];
      SortedSetFacts(init, lt);
      InsertUniqueSorted(x, SortedSet(init, lt), lt);
      InsertUniqueElems(x, SortedSet(init, lt), lt);
      assert s == init + [x];
      forall y ensures y in s <==> y in init || y == x {
        if y in s && y != x {
          var i :| 0 <= i < |s| && s[i] == y;
          assert i < |init| && init[i] == y;
        }
      }
    }
  }

  lemma NonEmptyInto<T>(a: seq<T>, b: seq<T>)
    requires forall y :: y in a ==> y in b
    ensures a != [] ==> b != []
  {
    if a != [] {
      assert a[0] in b;
    }
  }

  /** A strictly sorted list is determined by its elements. */
  lemma {:induction false} StrictlySortedUnique<T(!new)>(a: seq<T>, b: seq<T>, lt: (T, T) -> bool)
    requires StrictTotalOrder(lt) && StrictlySorted(a, lt) && StrictlySorted(b, lt)
    requires forall y :: y in a <==> y in b
    ensures a == b
  {
    NonEmptyInto(a, b);
    NonEmptyInto(b, a);
    if a != [] {
      assert a[0] in b && b[0] in a;
      assert a[0] == b[0];
      forall y ensures y in a[1..] <==> y in b[1..] {
        if y in a[1..] {
          var i :| 1 <= i < |a| && a[i] == y;
          assert lt(a[0], y);
          assert y in b && y != b[0];
          var j :| 0 <= j < |b| && b[j] == y;
          assert b[1..][j - 1] == y;
        }
        if y in b[1..] {
          var j :| 1 <= j < |b| && b[j] == y;
          assert lt(b[0], y);
          assert y in a && y != a[0];
          var i :| 0 <= i < |a| && a[i] == y;
          assert a[1..][i - 1] == y;
        }
      }
      StrictlySortedUnique(a[1..], b[1..], lt);
      assert a == [a[0]] + a[1..] && b == [b[0]] + b[1..];
    }
  }

  // ---------------------------------------------------------------------
  // Python's ordering of str: lexicographic by code point.

  predicate StrLess(a: string, b: string) {
    if a == [] then b != []
    else if b == [] then false
    else if a[0] != b[0] then a[0] < b[0]
    else StrLess(a[1..], b[1..])
  }

  lemma {:induction false} StrLessIrreflexive(a: string)
    ensures !StrLess(a, a)
  {
    if a != [] {
      StrLessIrreflexive(a[1..]);
    }
  }

  lemma {:induction false} StrLessTransitive(a: string, b: string, c: string)
    requires StrLess(a, b) && StrLess(b, c)
    ensures StrLess(a, c)
  {
    if a != [] && b != [] && c != [] && a[0] == b[0] && b[0] == c[0] {
      StrLessTransitive(a[1..], b[1..], c[1..]);
    }
  }

  lemma {:induction false} StrLessTotal(a: string, b: string)
    requires a != b
    ensures StrLess(a, b) || StrLess(b, a)
  {
    if a != [] && b != [] && a[0] == b[0] {
      assert a == [a[0]] + a[1..] && b == [b[0]] + b[1..];
      StrLessTotal(a[1..], b[1..]);
    }
  }

  /** str comparison is a strict total order. */
  lemma StrLessOrder()
    ensures StrictTotalOrder(StrLess)
  {
    forall a ensures !StrLess(a, a) {
      StrLessIrreflexive(a);
    }
    forall a, b, c | StrLess(a, b) && StrLess(b, c) ensures StrLess(a, c) {
      StrLessTransitive(a, b, c);
    }
    forall a, b | a != b ensures StrLess(a, b) || StrLess(b, a) {
      StrLessTotal(a, b);
    }
  }
}
