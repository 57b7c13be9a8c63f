/**
 * Python's `list.sort(key=...)` on an integer key: a stable sort, modelled as an
 * insertion sort that files each element after every element whose key is not
 * larger.  Both the reader path and `merge` of the merging cache sort by file
 * modification time with it.
 */
module StableSort {

  function Last<T>(s: seq<T>): T requires s != [] { s[|s| - 1] }

  function Insert<T>(sorted: seq<T>, x: T, key: T -> int): (r: seq<T>)
    ensures |r| == |sorted| + 1
  {
    if sorted == [] then [x]
    else if key(x) < key(Last(sorted)) then Insert(sorted[..|sorted| - 1], x, key) + [Last(sorted)]
    else sorted + [x]
  }

  /** `s.sort(key=key)` */
  function SortByKey<T>(s: seq<T>, key: T -> int): (r: seq<T>)
    ensures |r| == |s|
  {
    if s == [] then [] else Insert(SortByKey(s[..|s| - 1], key), Last(s), key)
  }

  predicate Ascending<T>(s: seq<T>, key: T -> int) {
    forall i, j :: 0 <= i < j < |s| ==> key(s[i]) <= key(s[j])
  }

  /** `[x for x in s if p(x)]` */
  function Filter<T>(s: seq<T>, p: T -> bool): (r: seq<T>)
    ensures |r| <= |s|
    ensures forall i :: 0 <= i < |r| ==> p(r[i])
  {
    if s == [] then []
    else Filter(s[..|s| - 1], p) + (if p(Last(s)) then [Last(s)] else [])
  }

  /**
   * Position `j` holds the newest element of `s`: no element has a larger key,
   * and every element after it has a strictly smaller one.  This is what the
   * last element of a stable ascending sort is.
   */
  predicate IsNewest<T>(s: seq<T>, key: T -> int, j: int) {
    && 0 <= j < |s|
    && (forall i :: 0 <= i < |s| ==> key(s[i]) <= key(s[j]))
    && (forall i :: j < i < |s| ==> key(s[i]) < key(s[j]))
  }

  /** Being newest depends only on the keys, position by position. */
  lemma NewestTransfer<A, B>(a: seq<A>, ka: A -> int, b: seq<B>, kb: B -> int, j: int)
    requires |a| == |b| && forall i :: 0 <= i < |a| ==> ka(a[i]) == kb(b[i])
    requires IsNewest(a, ka, j)
    ensures IsNewest(b, kb, j)
  {
  }

  lemma {:induction false} InsertElements<T>(sorted: seq<T>, x: T, key: T -> int)
    ensures multiset(Insert(sorted, x, key)) == multiset(sorted) + multiset{x}
    ensures forall y :: y in Insert(sorted, x, key) ==> y in sorted || y == x
    ensures forall y :: y in sorted ==> y in Insert(sorted, x, key)
    ensures x in Insert(sorted, x, key)
    decreases |sorted|
  {
    if sorted != [] && key(x) < key(Last(sorted)) {
      var front := sorted[..|sorted| - 1];
      InsertElements(front, x, key);
      assert sorted == front + [Last(sorted)];
    }
  }

  /** The elements just before the last one: all keys are at most the last key. */
  lemma AscendingBelowLast<T>(sorted: seq<T>, key: T -> int)
    requires sorted != [] && Ascending(sorted, key)
    ensures Ascending(sorted[..|sorted| - 1], key)
    ensures forall y :: y in sorted ==> key(y) <= key(Last(sorted))
  {
    forall y | y in sorted ensures key(y) <= key(Last(sorted)) {
      var k :| 0 <= k < |sorted| && sorted[k] == y;
      if k < |sorted| - 1 {
        assert key(sorted[k]) <= key(sorted[|sorted| - 1]);
      }
    }
  }

  lemma {:induction false} InsertAscending<T>(sorted: seq<T>, x: T, key: T -> int)
    requires Ascending(sorted, key)
    ensures Ascending(Insert(sorted, x, key), key)
    decreases |sorted|
  {
    if sorted != [] {
      AscendingBelowLast(sorted, key);
      var front := sorted[..|sorted| - 1];
      var y := Last(sorted);
      if key(x) < key(y) {
        InsertAscending(front, x, key);
        InsertElements(front, x, key);
        var ins := Insert(front, x, key);
        assert sorted == front + [y];
        forall z | z in ins ensures key(z) <= key(y) {
          if z != x {
            assert z in front;
            assert z in sorted;
          }
        }
        AppendAscending(ins, y, key);
      } else {
        AppendAscending(sorted, x, key);
      }
    }
  }

  lemma AppendAscending<T>(s: seq<T>, y: T, key: T -> int)
    requires Ascending(s, key)
    requires forall z :: z in s ==> key(z) <= key(y)
    ensures Ascending(s + [y], key)
  {
    var r := s + [y];
    forall i, j | 0 <= i < j < |r| ensures key(r[i]) <= key(r[j]) {
      if j == |s| {
        assert r[i] == s[i] && s[i] in s;
      } else {
        assert r[i] == s[i] && r[j] == s[j];
      }
    }
  }

  lemma {:induction false} SortAscending<T>(s: seq<T>, key: T -> int)
    ensures Ascending(SortByKey(s, key), key)
  {
    if s != [] {
      SortAscending(s[..|s| - 1], key);
      InsertAscending(SortByKey(s[..|s| - 1], key), Last(s), key);
    }
  }

  /** Inserting behind every element that is not larger: the new last element. */
  lemma {:induction false} InsertLast<T>(sorted: seq<T>, x: T, key: T -> int)
    ensures sorted == [] || key(x) >= key(Last(sorted)) ==> Last(Insert(sorted, x, key)) == x
    ensures sorted != [] && key(x) < key(Last(sorted)) ==> Last(Insert(sorted, x, key)) == Last(sorted)
  {
  }

  /** Extending a sequence by one element: where its newest element ends up. */
  lemma NewestExtend<T>(s: seq<T>, key: T -> int, jp: int)
    requires |s| >= 2 && IsNewest(s[..|s| - 1], key, jp)
    ensures key(Last(s)) >= key(s[jp]) ==> IsNewest(s, key, |s| - 1)
    ensures key(Last(s)) < key(s[jp]) ==> IsNewest(s, key, jp)
  {
    var front := s[..|s| - 1];
    assert forall i :: 0 <= i < |front| ==> s[i] == front[i];
  }

  /**
   * The last element of the stably sorted sequence is the newest element of the
   * input: the largest key, and on equal keys the one listed last.
   */
  lemma {:induction false} SortLastIsNewest<T>(s: seq<T>, key: T -> int)
    requires s != []
    ensures exists j :: IsNewest(s, key, j) && Last(SortByKey(s, key)) == s[j]
  {
    var n := |s| - 1;
    var front := s[..n];
    InsertLast(SortByKey(front, key), s[n], key);
    if front == [] {
      assert IsNewest(s, key, 0);
    } else {
      SortLastIsNewest(front, key);
      var jp :| IsNewest(front, key, jp) && Last(SortByKey(front, key)) == front[jp];
      NewestExtend(s, key, jp);
      if key(s[n]) >= key(front[jp]) {
        assert IsNewest(s, key, n);
      } else {
        assert IsNewest(s, key, jp);
      }
    }
  }

  lemma {:induction false} FilterAppend<T>(a: seq<T>, b: seq<T>, p: T -> bool)
    ensures Filter(a + b, p) == Filter(a, p) + Filter(b, p)
    decreases |b|
  {
    if b == [] {
      assert a + b == a;
    } else {
      var b' := b[..|b| - 1];
      assert a + b == (a + b') + [Last(b)];
      assert (a + b)[..|a + b| - 1] == a + b';
      FilterAppend(a, b', p);
    }
  }

  /** Inserting behind a sequence whose keys are all at most `key(x)` appends. */
  lemma InsertAtEnd<T>(sorted: seq<T>, x: T, key: T -> int)
    requires forall y :: y in sorted ==> key(y) <= key(x)
    ensures Insert(sorted, x, key) == sorted + [x]
  {
    if sorted != [] {
      assert Last(sorted) in sorted;
    }
  }

  lemma {:induction false} FilterElements<T>(s: seq<T>, p: T -> bool)
    ensures forall x :: x in Filter(s, p) ==> x in s && p(x)
    ensures forall x :: x in s && p(x) ==> x in Filter(s, p)
  {
    if s != [] {
      FilterElements(s[..|s| - 1], p);
      assert s == s[..|s| - 1] + [Last(s)];
    }
  }

  lemma FilterSnoc<T>(s: seq<T>, y: T, p: T -> bool)
    ensures p(y) ==> Filter(s + [y], p) == Filter(s, p) + [y]
    ensures !p(y) ==> Filter(s + [y], p) == Filter(s, p)
  {
    assert (s + [y])[..|s|] == s;
    assert Filter(s, p) + [] == Filter(s, p);
  }

  /** Inserting before the last element `y` leaves `y` last. */
  lemma InsertBefore<T>(front: seq<T>, y: T, x: T, key: T -> int)
    requires key(x) < key(y)
    ensures Insert(front + [y], x, key) == Insert(front, x, key) + [y]
  {
    assert (front + [y])[..|front|] == front && Last(front + [y]) == y;
  }

  /** `x` goes before the last element `y`: the filter sees the same split. */
  lemma FilterInsertBefore<T>(front: seq<T>, y: T, x: T, key: T -> int, p: T -> bool)
    requires key(x) < key(y)
    requires Filter(Insert(front, x, key), p)
          == if p(x) then Insert(Filter(front, p), x, key) else Filter(front, p)
    ensures Filter(Insert(front + [y], x, key), p)
         == if p(x) then Insert(Filter(front + [y], p), x, key) else Filter(front + [y], p)
  {
    InsertBefore(front, y, x, key);
    FilterSnoc(front, y, p);
    FilterSnoc(Insert(front, x, key), y, p);
    if p(x) && p(y) {
      InsertBefore(Filter(front, p), y, x, key);
    }
  }

  /** `x` goes behind every element: the filter keeps it last. */
  lemma FilterInsertBehind<T>(sorted: seq<T>, x: T, key: T -> int, p: T -> bool)
    requires forall z :: z in sorted ==> key(z) <= key(x)
    ensures Filter(Insert(sorted, x, key), p)
         == if p(x) then Insert(Filter(sorted, p), x, key) else Filter(sorted, p)
  {
    InsertAtEnd(sorted, x, key);
    FilterSnoc(sorted, x, p);
    if p(x) {
      FilterElements(sorted, p);
      InsertAtEnd(Filter(sorted, p), x, key);
    }
  }

  lemma {:induction false} FilterInsert<T>(sorted: seq<T>, x: T, key: T -> int, p: T -> bool)
    requires Ascending(sorted, key)
    ensures Filter(Insert(sorted, x, key), p)
         == if p(x) then Insert(Filter(sorted, p), x, key) else Filter(sorted, p)
    decreases |sorted|
  {
    if sorted == [] {
      FilterInsertBehind(sorted, x, key, p);
    } else {
      AscendingBelowLast(sorted, key);
      var front := sorted[..|sorted| - 1];
      var y := Last(sorted);
      assert sorted == front + [y];
      if key(x) < key(y) {
        FilterInsert(front, x, key, p);
        FilterInsertBefore(front, y, x, key, p);
      } else {
        FilterInsertBehind(sorted, x, key, p);
      }
    }
  }

  lemma SortSnoc<T>(s: seq<T>, x: T, key: T -> int)
    ensures SortByKey(s + [x], key) == Insert(SortByKey(s, key), x, key)
  {
    assert (s + [x])[..|s|] == s && Last(s + [x]) == x;
  }

  /** A stable sort commutes with filtering. */
  lemma {:induction false} FilterSort<T>(s: seq<T>, key: T -> int, p: T -> bool)
    ensures Filter(SortByKey(s, key), p) == SortByKey(Filter(s, p), key)
  {
    if s != [] {
      var front := s[..|s| - 1];
      var x := Last(s);
      assert s == front + [x];
      FilterSort(front, key, p);
      SortAscending(front, key);
      SortSnoc(front, x, key);
      FilterInsert(SortByKey(front, key), x, key, p);
      FilterSnoc(front, x, p);
      if p(x) {
        SortSnoc(Filter(front, p), x, key);
      }
    }
  }

  /**
   * Among the elements that satisfy `p`, the last one in sorted order is the
   * newest of them in the original order.
   */
  lemma LastMatchIsNewest<T>(s: seq<T>, key: T -> int, p: T -> bool)
    requires Filter(s, p) != []
    ensures Filter(SortByKey(s, key), p) != []
    ensures exists j :: IsNewest(Filter(s, p), key, j)
                     && Last(Filter(SortByKey(s, key), p)) == Filter(s, p)[j]
  {
    FilterSort(s, key, p);
    SortLastIsNewest(Filter(s, p), key);
  }

  lemma {:induction false} FilterEmpty<T>(s: seq<T>, p: T -> bool)
    ensures Filter(s, p) == [] <==> forall i :: 0 <= i < |s| ==> !p(s[i])
  {
    if s != [] {
      var front := s[..|s| - 1];
      FilterEmpty(front, p);
      assert forall i :: 0 <= i < |front| ==> front[i] == s[i];
    }
  }

  /** Replacing an element the filter drops by another it drops changes nothing. */
  lemma {:induction false} FilterUpdate<T>(s: seq<T>, i: int, x: T, p: T -> bool)
    requires 0 <= i < |s| && !p(s[i]) && !p(x)
    ensures Filter(s[i := x], p) == Filter(s, p)
  {
    var n := |s| - 1;
    var s' := s[i := x];
    assert s'[..n] == if i == n then s[..n] else s[..n][i := x];
    if i < n {
      FilterUpdate(s[..n], i, x, p);
    }
  }

  lemma {:induction false} FilterFilter<T>(s: seq<T>, p: T -> bool, q: T -> bool, r: T -> bool)
    requires forall x :: r(x) == (p(x) && q(x))
    ensures Filter(Filter(s, p), q) == Filter(s, r)
  {
    if s != [] {
      var front := s[..|s| - 1];
      FilterFilter(front, p, q, r);
      assert s == front + [Last(s)];
      FilterSnoc(front, Last(s), p);
      FilterSnoc(front, Last(s), r);
      if p(Last(s)) {
        FilterSnoc(Filter(front, p), Last(s), q);
      }
    }
  }

  lemma {:induction false} FilterExt<T>(s: seq<T>, p: T -> bool, q: T -> bool)
    requires forall i :: 0 <= i < |s| ==> p(s[i]) == q(s[i])
    ensures Filter(s, p) == Filter(s, q)
  {
    if s != [] {
      var front := s[..|s| - 1];
      assert forall i :: 0 <= i < |front| ==> front[i] == s[i];
      FilterExt(front, p, q);
    }
  }

  lemma {:induction false} FilterAll<T>(s: seq<T>, p: T -> bool)
    requires forall i :: 0 <= i < |s| ==> p(s[i])
    ensures Filter(s, p) == s
  {
    if s != [] {
      var front := s[..|s| - 1];
      assert forall i :: 0 <= i < |front| ==> front[i] == s[i];
      FilterAll(front, p);
      assert s == front + [Last(s)];
    }
  }
}
