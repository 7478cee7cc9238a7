/** Stable sorting (sort.SliceStable, sort.Strings) as a function, with what
    its users rely on: a permutation, sorted, and unchanged by restriction. */
module Sorting {
  /** le is a total preorder on T. */
  ghost predicate TotalOrder<T(!new)>(le: (T, T) -> bool) {
    && (forall a, b :: le(a, b) || le(b, a))
    && (forall a, b, c :: le(a, b) && le(b, c) ==> le(a, c))
  }

  ghost predicate Sorted<T>(s: seq<T>, le: (T, T) -> bool) {
    forall i, j :: 0 <= i < j < |s| ==> le(s[i], s[j])
  }

  /** x goes before the first element it is not above. */
  function Insert<T>(x: T, s: seq<T>, le: (T, T) -> bool): seq<T> {
    if s == [] then [x]
    else if le(x, s[0]) then [x] + s
    else [s[0]] + Insert(x, s[1..], le)
  }

  function Sort<T>(s: seq<T>, le: (T, T) -> bool): seq<T> {
    if s == [] then [] else Insert(s[0], Sort(s[1..], le), le)
  }

  function Filter<T>(s: seq<T>, p: T -> bool): seq<T> {
    if s == [] then []
    else if p(s[0]) then [s[0]] + Filter(s[1..], p)
    else Filter(s[1..], p)
  }

  lemma {:induction false} InsertPermutes<T>(x: T, s: seq<T>, le: (T, T) -> bool)
    ensures multiset(Insert(x, s, le)) == multiset{x} + multiset(s)
  {
    if s != [] && !le(x, s[0]) {
      InsertPermutes(x, s[1..], le);
      assert s == [s[0]] + s[1..];
    }
  }

  lemma {:induction false} InsertSorts<T(!new)>(x: T, s: seq<T>, le: (T, T) -> bool)
    requires TotalOrder(le) && Sorted(s, le)
    ensures Sorted(Insert(x, s, le), le)
  {
    if s != [] {
      if le(x, s[0]) {
        forall j | 0 <= j < |s| ensures le(x, s[j]) { if j > 0 { assert le(s[0], s[j]); } }
        SortedCons(x, s, le);
      } else {
        var t := Insert(x, s[1..], le);
        InsertSorts(x, s[1..], le);
        InsertPermutes(x, s[1..], le);
        forall j | 0 <= j < |t| ensures le(s[0], t[j]) {
          assert t[j] in multiset(t);
          assert t[j] == x || t[j] in s[1..];
        }
        SortedCons(s[0], t, le);
      }
    }
  }

  lemma SortedCons<T>(x: T, s: seq<T>, le: (T, T) -> bool)
    requires Sorted(s, le) && forall j :: 0 <= j < |s| ==> le(x, s[j])
    ensures Sorted([x] + s, le)
  {
    var t := [x] + s;
    forall i, j | 0 <= i < j < |t| ensures le(t[i], t[j]) {
      if i > 0 { assert le(s[i - 1], s[j - 1]); }
    }
  }

  /** The result is a sorted permutation. */
  lemma {:induction false} SortSorts<T(!new)>(s: seq<T>, le: (T, T) -> bool)
    requires TotalOrder(le)
    ensures Sorted(Sort(s, le), le)
    ensures multiset(Sort(s, le)) == multiset(s)
    ensures |Sort(s, le)| == |s|
  {
    if s != [] {
      SortSorts(s[1..], le);
      InsertSorts(s[0], Sort(s[1..], le), le);
      InsertPermutes(s[0], Sort(s[1..], le), le);
      assert s == [s[0]] + s[1..];
    }
    assert |multiset(Sort(s, le))| == |multiset(s)|;
  }

  lemma SameElements<T(!new)>(s: seq<T>, le: (T, T) -> bool, x: T)
    requires TotalOrder(le)
    ensures x in Sort(s, le) <==> x in s
  {
    SortSorts(s, le);
    assert x in multiset(Sort(s, le)) <==> x in multiset(s);
  }

  lemma {:induction false} FilterAll<T>(s: seq<T>, p: T -> bool, x: T)
    ensures x in Filter(s, p) <==> x in s && p(x)
  {
    if s != [] {
      FilterAll(s[1..], p, x);
      assert s == [s[0]] + s[1..];
    }
  }

  lemma {:induction false} FilterInsert<T(!new)>(x: T, s: seq<T>, le: (T, T) -> bool, p: T -> bool)
    requires TotalOrder(le) && Sorted(s, le)
    ensures Filter(Insert(x, s, le), p) == if p(x) then Insert(x, Filter(s, p), le) else Filter(s, p)
  {
    if s == [] {
      assert [x][1..] == [];
    } else if le(x, s[0]) {
      assert ([x] + s)[1..] == s;
      if p(x) { InsertFirst(x, s, le, p); }
    } else {
      SortedTail(s, le);
      FilterInsert(x, s[1..], le, p);
      var t := Insert(x, s[1..], le);
      assert ([s[0]] + t)[1..] == t;
      var f := Filter(s[1..], p);
      if p(s[0]) {
        assert Filter(s, p) == [s[0]] + f && ([s[0]] + f)[1..] == f;
      }
    }
  }

  lemma SortedTail<T>(s: seq<T>, le: (T, T) -> bool)
    requires s != [] && Sorted(s, le)
    ensures Sorted(s[1..], le)
  {
  }

  lemma InsertFirst<T(!new)>(x: T, s: seq<T>, le: (T, T) -> bool, p: T -> bool)
    requires TotalOrder(le) && Sorted(s, le) && s != [] && le(x, s[0])
    ensures Insert(x, Filter(s, p), le) == [x] + Filter(s, p)
  {
    var f := Filter(s, p);
    if f != [] {
      FilterAll(s, p, f[0]);
      var k :| 0 <= k < |s| && s[k] == f[0];
      assert k > 0 ==> le(s[0], s[k]);
    }
  }

  /** Restricting a stable ranking is ranking the restriction. */
  lemma {:induction false} FilterSort<T(!new)>(s: seq<T>, le: (T, T) -> bool, p: T -> bool)
    requires TotalOrder(le)
    ensures Filter(Sort(s, le), p) == Sort(Filter(s, p), le)
  {
    if s != [] {
      FilterSort(s[1..], le, p);
      SortSorts(s[1..], le);
      FilterInsert(s[0], Sort(s[1..], le), le, p);
      if p(s[0]) {
        var f := Filter(s[1..], p);
        assert ([s[0]] + f)[1..] == f;
      }
    }
  }

  lemma {:induction false} SortEqualKeys<T(!new)>(s: seq<T>, le: (T, T) -> bool)
    requires forall x, y :: x in s && y in s ==> le(x, y)
    ensures Sort(s, le) == s
  {
    if s != [] {
      SortEqualKeys(s[1..], le);
      assert s == [s[0]] + s[1..];
      if |s| > 1 { assert s[1] == s[1..][0]; }
    }
  }

  /** Stability: elements that rank equal keep their order. */
  lemma SortStable<T(!new)>(s: seq<T>, le: (T, T) -> bool, a: T)
    requires TotalOrder(le)
    ensures var same := x => le(a, x) && le(x, a); Filter(Sort(s, le), same) == Filter(s, same)
  {
    var same := x => le(a, x) && le(x, a);
    FilterSort(s, le, same);
    var f := Filter(s, same);
    forall x, y | x in f && y in f ensures le(x, y) {
      FilterAll(s, same, x);
      FilterAll(s, same, y);
    }
    SortEqualKeys(f, le);
  }

  predicate Distinct<T(==)>(s: seq<T>) {
    forall i, j :: 0 <= i < j < |s| ==> s[i] != s[j]
  }

  lemma DistinctPerm<T>(s: seq<T>, t: seq<T>)
    requires multiset(s) == multiset(t) && Distinct(s)
    ensures Distinct(t)
  {
    forall i, j | 0 <= i < j < |t| ensures t[i] != t[j] {
      if t[i] == t[j] {
        var x := t[i];
        assert t == t[..i] + [t[i]] + t[i + 1..j] + [t[j]] + t[j + 1..];
        assert multiset(t)[x] >= 2;
        OccursOnce(s, x);
        assert false;
      }
    }
  }

  lemma {:induction false} OccursOnce<T>(s: seq<T>, x: T)
    requires Distinct(s)
    ensures multiset(s)[x] <= 1
  {
    if s != [] {
      OccursOnce(s[1..], x);
      assert s == [s[0]] + s[1..];
      forall k | 0 <= k < |s| - 1 ensures s[1..][k] != s[0] { assert s[1..][k] == s[k + 1]; }
    }
  }

  function Elements<T(==)>(s: seq<T>): set<T> {
    set x | x in s
  }

  /** A sequence has as many elements as entries exactly when none repeats. */
  lemma {:induction false} DistinctSize<T>(s: seq<T>)
    ensures |Elements(s)| <= |s| && (|Elements(s)| == |s| <==> Distinct(s))
  {
    if s == [] {
      assert Elements(s) == {};
    } else {
      var x, rest := s[0], s[1..];
      DistinctSize(rest);
      assert Elements(s) == {x} + Elements(rest);
      if x in rest {
        var k :| 0 <= k < |rest| && rest[k] == x;
        assert s[0] == s[k + 1];
        assert Elements(s) == Elements(rest);
      } else {
        DistinctCons(x, rest);
        assert s == [x] + rest;
      }
    }
  }

  lemma DistinctCons<T>(x: T, s: seq<T>)
    requires x !in s
    ensures Distinct([x] + s) <==> Distinct(s)
  {
    var t := [x] + s;
    if Distinct(t) {
      forall i, j | 0 <= i < j < |s| ensures s[i] != s[j] { assert t[i + 1] != t[j + 1]; }
    }
  }

  lemma DistinctSnoc<T>(s: seq<T>, x: T)
    ensures Distinct(s + [x]) <==> Distinct(s) && x !in s
  {
    var t := s + [x];
    if Distinct(t) {
      forall i, j | 0 <= i < j < |s| ensures s[i] != s[j] { assert t[i] != t[j]; }
      forall i | 0 <= i < |s| ensures s[i] != x { assert t[i] != t[|s|]; }
    }
  }
}
