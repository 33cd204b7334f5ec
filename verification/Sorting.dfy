// A stable sort by a strict weak order, as `sort.SliceStable` promises it.
module Sorting {
  ghost predicate StrictWeak<T(!new)>(less: (T, T) -> bool) {
    && (forall a :: !less(a, a))
    && (forall a, b, c :: less(a, b) && less(b, c) ==> less(a, c))
    && (forall a, b, c :: less(a, c) ==> less(a, b) || less(b, c))
  }

  ghost predicate Sorted<T>(s: seq<T>, less: (T, T) -> bool) {
    forall i, j :: 0 <= i < j < |s| ==> !less(s[j], s[i])
  }

  function Insert<T>(x: T, s: seq<T>, less: (T, T) -> bool): (r: seq<T>)
    ensures multiset(r) == multiset{x} + multiset(s)
  {
    if s == [] then [x]
    else if less(s[0], x) then
      assert s == [s[0]] + s[1..];
      [s[0]] + Insert(x, s[1..], less)
    else [x] + s
  }

  function Sort<T>(s: seq<T>, less: (T, T) -> bool): (r: seq<T>)
    ensures multiset(r) == multiset(s)
  {
    if s == [] then []
    else
      assert s == [s[0]] + s[1..];
      Insert(s[0], Sort(s[1..], less), less)
  }

  lemma SameElements<T>(a: seq<T>, b: seq<T>, x: T)
    requires multiset(a) == multiset(b)
    ensures x in a <==> x in b
    ensures |a| == |b|
  {
    assert x in multiset(a) <==> x in a;
    assert x in multiset(b) <==> x in b;
    assert |multiset(a)| == |a| && |multiset(b)| == |b|;
  }

  lemma PrefixCons<T>(s: seq<T>, k: nat)
    requires 0 < k <= |s|
    ensures s[..k] == [s[0]] + s[1..][..k - 1]
  {
  }

  lemma RemoveHead<T>(x: T, rest: seq<T>)
    ensures multiset(rest) == multiset([x] + rest) - multiset{x}
  {
  }

  lemma RemoveBehind<T>(head: seq<T>, rest: seq<T>, rest': seq<T>, x: T)
    requires x in rest && multiset(rest') == multiset(rest) - multiset{x}
    ensures multiset(head + rest') == multiset(head + rest) - multiset{x}
  {
    assert x in multiset(rest);
  }

  lemma {:induction false} InsertSorted<T(!new)>(x: T, s: seq<T>, less: (T, T) -> bool)
    requires StrictWeak(less) && Sorted(s, less)
    ensures Sorted(Insert(x, s, less), less)
  {
    var r := Insert(x, s, less);
    if s != [] && less(s[0], x) {
      InsertSorted(x, s[1..], less);
      var t := Insert(x, s[1..], less);
      forall j | 0 <= j < |t| ensures !less(t[j], s[0]) {
        assert t[j] in multiset(t);
        assert t[j] == x || t[j] in s[1..];
      }
    }
  }

  lemma {:induction false} SortSorted<T(!new)>(s: seq<T>, less: (T, T) -> bool)
    requires StrictWeak(less)
    ensures Sorted(Sort(s, less), less)
  {
    if s != [] {
      SortSorted(s[1..], less);
      InsertSorted(s[0], Sort(s[1..], less), less);
    }
  }

  ghost predicate TiesAreEqual<T(!new)>(s: seq<T>, less: (T, T) -> bool) {
    forall x, y :: x in s && y in s && !less(x, y) && !less(y, x) ==> x == y
  }

  lemma HeadIsLeast<T(!new)>(s: seq<T>, x: T, less: (T, T) -> bool)
    requires StrictWeak(less) && Sorted(s, less) && x in s
    ensures !less(x, s[0])
  {
  }

  lemma TailSorted<T(!new)>(s: seq<T>, less: (T, T) -> bool)
    requires s != [] && Sorted(s, less)
    ensures Sorted(s[1..], less)
    ensures multiset(s[1..]) == multiset(s) - multiset{s[0]}
  {
    assert s == [s[0]] + s[1..];
  }

  // Two sorted arrangements of the same elements are equal when only identical elements tie.
  lemma {:induction false} SortedUnique<T(!new)>(a: seq<T>, b: seq<T>, less: (T, T) -> bool)
    requires StrictWeak(less) && Sorted(a, less) && Sorted(b, less)
    requires multiset(a) == multiset(b)
    requires TiesAreEqual(a, less)
    ensures a == b
  {
    if a == [] {
      assert |multiset(b)| == 0;
    } else {
      SameElements(a, b, a[0]);
      SameElements(a, b, b[0]);
      HeadIsLeast(b, a[0], less);
      HeadIsLeast(a, b[0], less);
      TailSorted(a, less);
      TailSorted(b, less);
      assert TiesAreEqual(a[1..], less);
      SortedUnique(a[1..], b[1..], less);
      assert a == [a[0]] + a[1..] && b == [b[0]] + b[1..];
    }
  }

  // ---------- Lists kept in order ----------

  predicate Ascending<T>(s: seq<T>, less: (T, T) -> bool) {
    forall i, j :: 0 <= i < j < |s| ==> less(s[i], s[j])
  }

  lemma InsertedElements<T>(x: T, s: seq<T>, less: (T, T) -> bool, y: T)
    ensures y in Insert(x, s, less) <==> y == x || y in s
    ensures |Insert(x, s, less)| == |s| + 1
  {
    var r := Insert(x, s, less);
    assert y in multiset(r) <==> y == x || y in multiset(s);
    assert |multiset(r)| == |r| && |multiset(s)| == |s|;
  }

  lemma {:induction false} InsertAscending<T(!new)>(x: T, s: seq<T>, less: (T, T) -> bool)
    requires StrictWeak(less) && Ascending(s, less)
    requires forall y :: y in s ==> less(x, y) || less(y, x)
    ensures Ascending(Insert(x, s, less), less)
  {
    if s != [] {
      assert s == [s[0]] + s[1..];
      if less(s[0], x) {
        InsertAscending(x, s[1..], less);
        var t := Insert(x, s[1..], less);
        forall j | 0 <= j < |t| ensures less(s[0], t[j]) {
          InsertedElements(x, s[1..], less, t[j]);
        }
      } else {
        assert s[0] in s && less(x, s[0]);
        forall j | 0 <= j < |s| ensures less(x, s[j]) {
          if j > 0 { assert less(s[0], s[j]); }
        }
      }
    }
  }
}
