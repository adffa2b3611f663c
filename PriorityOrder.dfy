/** Ordering by descending priority, shared by the dispatcher (index.js) and
    ComplaintQueue (complaintQueue.js). Elements are ranked by a priority
    function `prio`; a higher priority comes first, and among equal priorities
    the earlier arrival comes first. */
module PriorityOrder {

  /** Higher priority first: priorities never increase along the sequence. */
  ghost predicate NonIncreasing<T>(s: seq<T>, prio: T -> int) {
    forall i, j :: 0 <= i < j < |s| ==> PriorityAt(s, i, prio) >= PriorityAt(s, j, prio)
  }

  /** The priority of the element at position `k`. */
  function PriorityAt<T>(s: seq<T>, k: nat, prio: T -> int): int
    requires k < |s|
  {
    prio(s[k])
  }

  /** The elements of `s` whose priority is `p`, in their order in `s`.
      Two orderings are "the same among ties" when they agree on this for
      every `p`. */
  function WithPriority<T>(s: seq<T>, p: int, prio: T -> int): (r: seq<T>)
    ensures |r| <= |s|
  {
    if s == [] then []
    else (if prio(s[0]) == p then [s[0]] else []) + WithPriority(s[1..], p, prio)
  }

  /** The position where a linear scan from the front places `x`: before the
      first element of strictly lower priority, or at the end if there is none. */
  function InsertionPoint<T>(s: seq<T>, x: T, prio: T -> int): (i: nat)
    ensures i <= |s|
    ensures forall k :: 0 <= k < i ==> PriorityAt(s, k, prio) >= prio(x)
    ensures i < |s| ==> PriorityAt(s, i, prio) < prio(x)
  {
    if s == [] || prio(x) > prio(s[0]) then 0
    else
      var i := 1 + InsertionPoint(s[1..], x, prio);
      assert forall k :: 0 < k < |s| ==> PriorityAt(s, k, prio) == PriorityAt(s[1..], k - 1, prio);
      i
  }

  /** `s` with `x` placed at its insertion point. */
  function Insert<T>(s: seq<T>, x: T, prio: T -> int): (r: seq<T>)
    ensures |r| == |s| + 1
    ensures r[InsertionPoint(s, x, prio)] == x
  {
    var i := InsertionPoint(s, x, prio);
    s[..i] + [x] + s[i..]
  }

  /** A stable sort by descending priority: insert the elements one by one, in
      arrival order. */
  function SortByPriority<T>(s: seq<T>, prio: T -> int): (r: seq<T>)
    ensures NonIncreasing(r, prio)
    ensures multiset(r) == multiset(s)
  {
    if s == [] then []
    else
      var rest := SortByPriority(s[..|s| - 1], prio);
      InsertKeepsOrder(rest, s[|s| - 1], prio);
      InsertIsPermutation(rest, s[|s| - 1], prio);
      assert s == s[..|s| - 1] + [s[|s| - 1]];
      Insert(rest, s[|s| - 1], prio)
  }

  /** Any index that satisfies the scan's stopping rule is the insertion point. */
  lemma InsertionPointUnique<T>(s: seq<T>, x: T, prio: T -> int, i: nat)
    requires i <= |s|
    requires forall k :: 0 <= k < i ==> PriorityAt(s, k, prio) >= prio(x)
    requires i < |s| ==> PriorityAt(s, i, prio) < prio(x)
    ensures InsertionPoint(s, x, prio) == i
  {
  }

  /** Taking the inserted element out again gives back the original sequence:
      insertion keeps the other elements in their relative order. */
  lemma InsertThenRemove<T>(s: seq<T>, x: T, prio: T -> int)
    ensures var i := InsertionPoint(s, x, prio);
            Insert(s, x, prio)[..i] + Insert(s, x, prio)[i + 1..] == s
  {
  }

  lemma InsertIsPermutation<T>(s: seq<T>, x: T, prio: T -> int)
    ensures multiset(Insert(s, x, prio)) == multiset(s) + multiset{x}
  {
    var i := InsertionPoint(s, x, prio);
    assert s == s[..i] + s[i..];
  }

  /** Inserting into a sequence ordered by descending priority keeps it ordered. */
  lemma InsertKeepsOrder<T>(s: seq<T>, x: T, prio: T -> int)
    requires NonIncreasing(s, prio)
    ensures NonIncreasing(Insert(s, x, prio), prio)
  {
    var i := InsertionPoint(s, x, prio);
    var r := Insert(s, x, prio);
    assert forall k :: 0 <= k < i ==> r[k] == s[k];
    assert forall k :: i < k < |r| ==> r[k] == s[k - 1];
    forall a, b | 0 <= a < b < |r|
      ensures PriorityAt(r, a, prio) >= PriorityAt(r, b, prio)
    {
      if b == i {
        assert PriorityAt(s, a, prio) >= prio(x);
      } else if a == i {
        assert prio(x) > PriorityAt(s, i, prio) >= PriorityAt(s, b - 1, prio);
      } else if b < i {
        assert PriorityAt(s, a, prio) >= PriorityAt(s, b, prio);
      } else {
        assert PriorityAt(s, if a < i then a else a - 1, prio) >= PriorityAt(s, b - 1, prio);
      }
    }
  }

  lemma {:induction false} WithPriorityConcat<T>(a: seq<T>, b: seq<T>, p: int, prio: T -> int)
    ensures WithPriority(a + b, p, prio) == WithPriority(a, p, prio) + WithPriority(b, p, prio)
  {
    if a == [] {
      assert a + b == b;
    } else {
      var head := if prio(a[0]) == p then [a[0]] else [];
      assert (a + b)[0] == a[0];
      assert (a + b)[1..] == a[1..] + b;
      WithPriorityConcat(a[1..], b, p, prio);
      calc {
        WithPriority(a + b, p, prio);
        head + WithPriority(a[1..] + b, p, prio);
        head + (WithPriority(a[1..], p, prio) + WithPriority(b, p, prio));
        (head + WithPriority(a[1..], p, prio)) + WithPriority(b, p, prio);
      }
    }
  }

  lemma {:induction false} WithPriorityAbsent<T>(s: seq<T>, p: int, prio: T -> int)
    requires forall k :: 0 <= k < |s| ==> prio(s[k]) < p
    ensures WithPriority(s, p, prio) == []
  {
    if s != [] {
      WithPriorityAbsent(s[1..], p, prio);
    }
  }

  /** Inserting into an ordered sequence puts the new element after every
      element of the same priority: first come, first served among ties. */
  lemma InsertIsStable<T>(s: seq<T>, x: T, p: int, prio: T -> int)
    requires NonIncreasing(s, prio)
    ensures WithPriority(Insert(s, x, prio), p, prio)
         == WithPriority(s, p, prio) + (if prio(x) == p then [x] else [])
  {
    var i := InsertionPoint(s, x, prio);
    assert s == s[..i] + s[i..];
    WithPriorityConcat(s[..i], s[i..], p, prio);
    WithPriorityConcat(s[..i] + [x], s[i..], p, prio);
    WithPriorityConcat(s[..i], [x], p, prio);
    if prio(x) == p {
      forall k | 0 <= k < |s[i..]|
        ensures prio(s[i..][k]) < p
      {
        assert PriorityAt(s, i, prio) >= PriorityAt(s, i + k, prio);
      }
      WithPriorityAbsent(s[i..], p, prio);
    }
  }

  /** SortByPriority keeps the arrival order among equal priorities. */
  lemma {:induction false} SortIsStable<T>(s: seq<T>, p: int, prio: T -> int)
    ensures WithPriority(SortByPriority(s, prio), p, prio) == WithPriority(s, p, prio)
  {
    if s != [] {
      var init, last := s[..|s| - 1], s[|s| - 1];
      var sorted := SortByPriority(init, prio);
      var tail := if prio(last) == p then [last] else [];
      calc {
        WithPriority(SortByPriority(s, prio), p, prio);
        { SortStep(s, prio); }
        WithPriority(Insert(sorted, last, prio), p, prio);
        { InsertIsStable(sorted, last, p, prio); }
        WithPriority(sorted, p, prio) + tail;
        { SortIsStable(init, p, prio); }
        WithPriority(init, p, prio) + tail;
        { WithPriorityAppend(init, last, p, prio);
          assert s == init + [last]; }
        WithPriority(s, p, prio);
      }
    }
  }

  /** Appending an element adds it to the end of its own priority class. */
  lemma WithPriorityAppend<T>(s: seq<T>, x: T, p: int, prio: T -> int)
    ensures WithPriority(s + [x], p, prio) == WithPriority(s, p, prio) + (if prio(x) == p then [x] else [])
  {
    WithPriorityConcat(s, [x], p, prio);
    assert WithPriority([x], p, prio) == (if prio(x) == p then [x] else []);
  }

  /** Sorting an already ordered sequence changes nothing. */
  lemma {:induction false} SortOfOrdered<T>(s: seq<T>, prio: T -> int)
    requires NonIncreasing(s, prio)
    ensures SortByPriority(s, prio) == s
  {
    if s != [] {
      var init, last := s[..|s| - 1], s[|s| - 1];
      SplitKeepsOrder(s, |init|, prio);
      SortOfOrdered(init, prio);
      forall k | 0 <= k < |init|
        ensures PriorityAt(init, k, prio) >= prio(last)
      {
        assert PriorityAt(s, k, prio) >= PriorityAt(s, |init|, prio);
      }
      InsertAtEnd(init, last, prio);
      SortStep(s, prio);
      assert s == init + [last];
    }
  }

  /** Sorting a non-empty sequence inserts its last element into the sorted
      rest. */
  lemma SortStep<T>(s: seq<T>, prio: T -> int)
    requires s != []
    ensures SortByPriority(s, prio) == Insert(SortByPriority(s[..|s| - 1], prio), s[|s| - 1], prio)
  {
  }

  /** An element no more urgent than any other is inserted at the end. */
  lemma InsertAtEnd<T>(s: seq<T>, x: T, prio: T -> int)
    requires forall k :: 0 <= k < |s| ==> PriorityAt(s, k, prio) >= prio(x)
    ensures Insert(s, x, prio) == s + [x]
  {
    InsertionPointUnique(s, x, prio, |s|);
  }

  /** Appending to an ordered sequence and sorting it again is the same as
      inserting at the insertion point. */
  lemma SortAfterAppend<T>(s: seq<T>, x: T, prio: T -> int)
    requires NonIncreasing(s, prio)
    ensures SortByPriority(s + [x], prio) == Insert(s, x, prio)
  {
    assert (s + [x])[..|s|] == s;
    SortOfOrdered(s, prio);
  }

  /** Taking one element out of an ordered sequence keeps it ordered. */
  lemma DeleteKeepsOrder<T>(s: seq<T>, i: nat, prio: T -> int)
    requires i < |s| && NonIncreasing(s, prio)
    ensures NonIncreasing(s[..i] + s[i + 1..], prio)
  {
    var r := s[..i] + s[i + 1..];
    forall a, b | 0 <= a < b < |r|
      ensures PriorityAt(r, a, prio) >= PriorityAt(r, b, prio)
    {
      var a', b' := if a < i then a else a + 1, if b < i then b else b + 1;
      assert r[a] == s[a'] && r[b] == s[b'];
      assert PriorityAt(s, a', prio) >= PriorityAt(s, b', prio);
    }
  }

  /** Both parts of an ordered sequence, cut anywhere, are ordered. */
  lemma SplitKeepsOrder<T>(s: seq<T>, n: nat, prio: T -> int)
    requires n <= |s| && NonIncreasing(s, prio)
    ensures NonIncreasing(s[..n], prio) && NonIncreasing(s[n..], prio)
  {
    var front, back := s[..n], s[n..];
    forall a, b | 0 <= a < b < |front|
      ensures PriorityAt(front, a, prio) >= PriorityAt(front, b, prio)
    {
      assert PriorityAt(s, a, prio) >= PriorityAt(s, b, prio);
    }
    forall a, b | 0 <= a < b < |back|
      ensures PriorityAt(back, a, prio) >= PriorityAt(back, b, prio)
    {
      assert PriorityAt(s, n + a, prio) >= PriorityAt(s, n + b, prio);
    }
  }

  /** Two sequences ordered by descending priority that agree on the order of
      every priority class are equal. */
  lemma {:induction false} OrderedAndStableIsUnique<T>(a: seq<T>, b: seq<T>, prio: T -> int)
    requires NonIncreasing(a, prio) && NonIncreasing(b, prio)
    requires forall p :: WithPriority(a, p, prio) == WithPriority(b, p, prio)
    ensures a == b
  {
    if a == [] && b == [] {
    } else if a == [] {
      HeadLeadsItsClass(b, prio);
      assert false;
    } else if b == [] {
      HeadLeadsItsClass(a, prio);
      assert false;
    } else {
      var pa, pb := prio(a[0]), prio(b[0]);
      HeadOfClassBound(a, b, prio);
      HeadOfClassBound(b, a, prio);
      assert pa == pb;
      HeadLeadsItsClass(a, prio);
      HeadLeadsItsClass(b, prio);
      assert WithPriority(a, pa, prio) == WithPriority(b, pa, prio);
      assert a[0] == b[0];
      forall p
        ensures WithPriority(a[1..], p, prio) == WithPriority(b[1..], p, prio)
      {
        var head := if pa == p then [a[0]] else [];
        assert WithPriority(a, p, prio) == head + WithPriority(a[1..], p, prio);
        assert WithPriority(b, p, prio) == head + WithPriority(b[1..], p, prio);
        assert WithPriority(a, p, prio) == WithPriority(b, p, prio);
        assert WithPriority(a[1..], p, prio) == WithPriority(a, p, prio)[|head|..];
        assert WithPriority(b[1..], p, prio) == WithPriority(b, p, prio)[|head|..];
      }
      SplitKeepsOrder(a, 1, prio);
      SplitKeepsOrder(b, 1, prio);
      OrderedAndStableIsUnique(a[1..], b[1..], prio);
      assert a == [a[0]] + a[1..] && b == [b[0]] + b[1..];
    }
  }

  /** The first element of a sequence is the first element of its priority class. */
  lemma HeadLeadsItsClass<T>(s: seq<T>, prio: T -> int)
    requires s != []
    ensures WithPriority(s, prio(s[0]), prio) != []
    ensures WithPriority(s, prio(s[0]), prio)[0] == s[0]
  {
  }

  /** Every element of a priority class is an element of the sequence. */
  lemma {:induction false} WithPriorityMembers<T>(s: seq<T>, p: int, prio: T -> int, y: T)
    requires y in WithPriority(s, p, prio)
    ensures y in s && prio(y) == p
  {
    if !(prio(s[0]) == p && y == s[0]) {
      assert y in WithPriority(s[1..], p, prio);
      WithPriorityMembers(s[1..], p, prio, y);
    }
  }

  /** Helper for uniqueness: the head of `b`'s priority class also occurs in
      `a`, so `a`'s head is at least as urgent. */
  lemma HeadOfClassBound<T>(a: seq<T>, b: seq<T>, prio: T -> int)
    requires a != [] && b != [] && NonIncreasing(a, prio)
    requires WithPriority(a, prio(b[0]), prio) == WithPriority(b, prio(b[0]), prio)
    ensures prio(a[0]) >= prio(b[0])
  {
    var w := WithPriority(b, prio(b[0]), prio);
    assert w[0] == b[0];
    assert w[0] in WithPriority(a, prio(b[0]), prio);
    WithPriorityMembers(a, prio(b[0]), prio, w[0]);
    var k :| 0 <= k < |a| && a[k] == w[0];
    assert k == 0 || PriorityAt(a, 0, prio) >= PriorityAt(a, k, prio);
  }

  /** Any stable sort by descending priority gives exactly SortByPriority:
      the result of a stable sort is determined by its input. */
  lemma StableSortIsUnique<T>(s: seq<T>, r: seq<T>, prio: T -> int)
    requires NonIncreasing(r, prio)
    requires forall p :: WithPriority(r, p, prio) == WithPriority(s, p, prio)
    ensures r == SortByPriority(s, prio)
  {
    forall p
      ensures WithPriority(r, p, prio) == WithPriority(SortByPriority(s, prio), p, prio)
    {
      SortIsStable(s, p, prio);
    }
    OrderedAndStableIsUnique(r, SortByPriority(s, prio), prio);
  }

  /** Arrival sequences that agree on every priority class sort to the same
      result. */
  lemma SameClassesSameSort<T>(a: seq<T>, b: seq<T>, prio: T -> int)
    requires forall p :: WithPriority(a, p, prio) == WithPriority(b, p, prio)
    ensures SortByPriority(a, prio) == SortByPriority(b, prio)
  {
    forall p
      ensures WithPriority(SortByPriority(a, prio), p, prio) == WithPriority(b, p, prio)
    {
      SortIsStable(a, p, prio);
    }
    StableSortIsUnique(b, SortByPriority(a, prio), prio);
  }
}
