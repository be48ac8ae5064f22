/** Sorting by a key order, as the selector, the ready list and the retriever do. */
module Sorting {
  ghost predicate TotalPreorder<T(!new)>(le: (T, T) -> bool) {
    && (forall x, y :: le(x, y) || le(y, x))
    && (forall x, y, z :: le(x, y) && le(y, z) ==> le(x, z))
  }

  ghost predicate Sorted<T>(s: seq<T>, le: (T, T) -> bool) {
    forall j, k | 0 <= j < k < |s| :: le(s[j], s[k])
  }

  /** The same items, each as often. */
  ghost predicate Rearranged<T>(before: seq<T>, after: seq<T>) {
    multiset(before) == multiset(after)
  }

  lemma RearrangedMembers<T>(before: seq<T>, after: seq<T>)
    requires Rearranged(before, after)
    ensures |before| == |after|
    ensures forall x :: x in before <==> x in after
  {
    assert |multiset(before)| == |before| && |multiset(after)| == |after|;
    forall x ensures x in before <==> x in after {
      assert x in multiset(before) <==> x in before;
      assert x in multiset(after) <==> x in after;
    }
  }

  method InsertSorted<T(!new)>(s: seq<T>, x: T, le: (T, T) -> bool) returns (r: seq<T>)
    requires TotalPreorder(le) && Sorted(s, le)
    ensures Sorted(r, le) && multiset(r) == multiset(s) + multiset{x}
  {
    var k := |s|;
    while k > 0 && !le(s[k - 1], x)
      invariant 0 <= k <= |s|
      invariant forall j | k <= j < |s| :: le(x, s[j])
    {
      k := k - 1;
    }
    r := s[..k] + [x] + s[k..];
    assert s == s[..k] + s[k..];
    forall j, l | 0 <= j < l < |r| ensures le(r[j], r[l]) {
      var before, after := if j <= k then j else j - 1, if l <= k then l else l - 1;
      if j < k {
        if l == k {
          assert le(s[j], s[k - 1]) || j == k - 1;
        }
      }
    }
  }

  method SortBy<T(!new)>(items: seq<T>, le: (T, T) -> bool) returns (sorted: seq<T>)
    requires TotalPreorder(le)
    ensures Sorted(sorted, le) && Rearranged(items, sorted)
  {
    sorted := [];
    var k := 0;
    while k < |items|
      invariant 0 <= k <= |items|
      invariant Sorted(sorted, le) && multiset(sorted) == multiset(items[..k])
    {
      sorted := InsertSorted(sorted, items[k], le);
      assert items[..k + 1] == items[..k] + [items[k]];
      k := k + 1;
    }
    assert items[..k] == items;
  }

  lemma WithoutLast<T>(s: seq<T>)
    requires s != []
    ensures multiset(s[..|s| - 1]) == multiset(s) - multiset{s[|s| - 1]}
    ensures forall x :: x in s <==> x in s[..|s| - 1] || x == s[|s| - 1]
  {
    assert s == s[..|s| - 1] + [s[|s| - 1]];
  }

  /** When only equal items tie, sorting has one answer. */
  lemma {:induction false} SortedIsUnique<T>(a: seq<T>, b: seq<T>, le: (T, T) -> bool)
    requires Sorted(a, le) && Sorted(b, le) && Rearranged(a, b)
    requires forall x, y | x in a && y in a && le(x, y) && le(y, x) :: x == y
    ensures a == b
  {
    RearrangedMembers(a, b);
    if a != [] {
      var k := |a| - 1;
      assert a[k] in b && b[k] in a;
      var i :| 0 <= i <= k && b[i] == a[k];
      var j :| 0 <= j <= k && a[j] == b[k];
      assert a[k] == b[k];
      WithoutLast(a);
      WithoutLast(b);
      SortedIsUnique(a[..k], b[..k], le);
    }
  }
}
