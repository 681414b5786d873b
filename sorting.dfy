/**
 * `Array.prototype.sort` with a comparator. The language guarantees a stable sort, and
 * a comparator `cmp` is modelled by the relation `le(a, b) == (cmp(a, b) <= 0)`. When
 * that relation is a total preorder, the stable sorted order is unique: `SortBy` computes
 * it by insertion, and the lemmas below show the result is ordered, is a permutation of
 * the input, and keeps equivalent elements in their input order.
 */
module Sorting {
  import opened Seqs

  /** `le` is total and transitive: what a consistent comparator provides. */
  ghost predicate TotalPreorder<T(!new)>(le: (T, T) -> bool) {
    (forall a, b :: le(a, b) || le(b, a))
    && (forall a, b, c :: le(a, b) && le(b, c) ==> le(a, c))
  }

  /** Neither element sorts before the other. */
  predicate Equiv<T>(le: (T, T) -> bool, a: T, b: T) {
    le(a, b) && le(b, a)
  }

  predicate SortedBy<T>(s: seq<T>, le: (T, T) -> bool) {
    forall i, j :: 0 <= i < j < |s| ==> le(s[i], s[j])
  }

  /** Places `x` before the first element it does not sort after. */
  function Insert<T>(x: T, s: seq<T>, le: (T, T) -> bool): (r: seq<T>)
    ensures |r| == |s| + 1
  {
    if s == [] || le(x, s[0]) then [x] + s else [s[0]] + Insert(x, s[1..], le)
  }

  /** The stable sort of `s`. */
  function SortBy<T>(s: seq<T>, le: (T, T) -> bool): (r: seq<T>)
    ensures |r| == |s|
  {
    if s == [] then [] else Insert(s[0], SortBy(s[1..], le), le)
  }

  /** The elements of `s` equivalent to `x`, in their order in `s`. */
  function ClassOf<T>(s: seq<T>, x: T, le: (T, T) -> bool): seq<T> {
    if s == [] then []
    else (if Equiv(le, s[0], x) then [s[0]] else []) + ClassOf(s[1..], x, le)
  }

  lemma {:induction false} InsertPermutation<T>(x: T, s: seq<T>, le: (T, T) -> bool)
    ensures multiset(Insert(x, s, le)) == multiset{x} + multiset(s)
  {
    if s != [] && !le(x, s[0]) {
      InsertPermutation(x, s[1..], le);
      assert s == [s[0]] + s[1..];
    }
  }

  /** Sorting only reorders. */
  lemma {:induction false} SortPermutation<T>(s: seq<T>, le: (T, T) -> bool)
    ensures multiset(SortBy(s, le)) == multiset(s)
  {
    if s != [] {
      SortPermutation(s[1..], le);
      InsertPermutation(s[0], SortBy(s[1..], le), le);
      assert s == [s[0]] + s[1..];
    }
  }

  lemma {:induction false} InsertSorted<T(!new)>(x: T, s: seq<T>, le: (T, T) -> bool)
    requires TotalPreorder(le) && SortedBy(s, le)
    ensures SortedBy(Insert(x, s, le), le)
  {
    if s != [] && !le(x, s[0]) {
      InsertSorted(x, s[1..], le);
      var t := Insert(x, s[1..], le);
      InsertPermutation(x, s[1..], le);
      forall k | 0 <= k < |t|
        ensures le(s[0], t[k])
      {
        assert t[k] in multiset(t);
        assert t[k] == x || t[k] in multiset(s[1..]);
      }
    }
  }

  /** The result of sorting is ordered. */
  lemma {:induction false} SortSorted<T(!new)>(s: seq<T>, le: (T, T) -> bool)
    requires TotalPreorder(le)
    ensures SortedBy(SortBy(s, le), le)
  {
    if s != [] {
      SortSorted(s[1..], le);
      InsertSorted(s[0], SortBy(s[1..], le), le);
    }
  }

  lemma ClassOfCons<T>(y: T, t: seq<T>, z: T, le: (T, T) -> bool)
    ensures ClassOf([y] + t, z, le) == (if Equiv(le, y, z) then [y] else []) + ClassOf(t, z, le)
  {
    assert ([y] + t)[1..] == t;
  }

  lemma {:induction false} ClassOfInsert<T(!new)>(x: T, s: seq<T>, z: T, le: (T, T) -> bool)
    requires TotalPreorder(le) && SortedBy(s, le)
    ensures ClassOf(Insert(x, s, le), z, le)
         == (if Equiv(le, x, z) then [x] else []) + ClassOf(s, z, le)
  {
    if s == [] || le(x, s[0]) {
      ClassOfCons(x, s, z, le);
    } else {
      var t := Insert(x, s[1..], le);
      assert Insert(x, s, le) == [s[0]] + t;
      ClassOfCons(s[0], t, z, le);
      ClassOfInsert(x, s[1..], z, le);
      assert s == [s[0]] + s[1..];
      ClassOfCons(s[0], s[1..], z, le);
      assert Equiv(le, x, z) ==> !Equiv(le, s[0], z);
    }
  }

  /** Stability: each class of equivalent elements keeps its input order. */
  lemma {:induction false} SortStable<T(!new)>(s: seq<T>, z: T, le: (T, T) -> bool)
    requires TotalPreorder(le)
    ensures ClassOf(SortBy(s, le), z, le) == ClassOf(s, z, le)
  {
    if s != [] {
      SortStable(s[1..], z, le);
      SortSorted(s[1..], le);
      ClassOfInsert(s[0], SortBy(s[1..], le), z, le);
    }
  }

  /** The first element of a non-empty sort is an element of the input that nothing precedes. */
  lemma SortHead<T(!new)>(s: seq<T>, le: (T, T) -> bool)
    requires TotalPreorder(le) && s != []
    ensures SortBy(s, le)[0] in s
    ensures forall x :: x in s ==> le(SortBy(s, le)[0], x)
  {
    var r := SortBy(s, le);
    SortSorted(s, le);
    SortPermutation(s, le);
    assert r[0] in multiset(r);
    forall x | x in s
      ensures le(r[0], x)
    {
      assert x in multiset(r);
      var k :| 0 <= k < |r| && r[k] == x;
      assert k == 0 || le(r[0], r[k]);
      assert le(x, x) || le(x, x);
    }
  }

  lemma {:induction false} InsertFilter<T(!new)>(x: T, s: seq<T>, le: (T, T) -> bool, p: T -> bool)
    ensures |Filter(Insert(x, s, le), p)| == |Filter(s, p)| + (if p(x) then 1 else 0)
  {
    if s != [] && !le(x, s[0]) {
      InsertFilter(x, s[1..], le, p);
      assert Insert(x, s, le) == [s[0]] + Insert(x, s[1..], le);
      assert ([s[0]] + Insert(x, s[1..], le))[1..] == Insert(x, s[1..], le);
    } else {
      assert ([x] + s)[1..] == s;
    }
  }

  /** Sorting keeps the number of elements satisfying any condition. */
  lemma {:induction false} SortFilter<T(!new)>(s: seq<T>, le: (T, T) -> bool, p: T -> bool)
    ensures |Filter(SortBy(s, le), p)| == |Filter(s, p)|
  {
    if s != [] {
      SortFilter(s[1..], le, p);
      InsertFilter(s[0], SortBy(s[1..], le), le, p);
    }
  }

  /** Sorting keeps exactly the elements it was given. */
  lemma SortMembers<T>(s: seq<T>, le: (T, T) -> bool)
    ensures forall x :: x in SortBy(s, le) <==> x in s
  {
    SortPermutation(s, le);
    assert forall x :: x in SortBy(s, le) <==> x in multiset(SortBy(s, le));
    assert forall x :: x in s <==> x in multiset(s);
  }

  /** Sorting keeps keys distinct. */
  lemma SortKeepsDistinctKeys<T(!new), K>(s: seq<T>, le: (T, T) -> bool, key: T -> K)
    requires DistinctKeys(s, key)
    ensures DistinctKeys(SortBy(s, le), key)
  {
    var r := SortBy(s, le);
    forall i, j | 0 <= i < j < |r|
      ensures key(r[i]) != key(r[j])
    {
      var k := key(r[i]);
      AtMostOneWithKey(s, key, k);
      SortFilter(s, le, KeyIs(key, k));
      if key(r[j]) == k {
        FilterTwo(r, KeyIs(key, k), i, j);
      }
    }
  }
}
