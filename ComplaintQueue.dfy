/** The priority queue of complaintQueue.js: a new complaint is placed by a
    linear scan, before the first complaint of strictly lower priority. */
module ComplaintQueues {
  import opened Wrappers
  import opened PriorityOrder

  /** The data fields of a Complaint. `timestamp` is the creation time, read
      from the clock by the source and passed in here. */
  datatype Complaint = Complaint(
    id: string,
    description: string,
    priority: int,
    location: string,
    timestamp: int)

  function Priority(c: Complaint): int { c.priority }

  class ComplaintQueue {
    var queue: seq<Complaint>

    constructor ()
      ensures queue == []
    {
      queue := [];
    }

    method Enqueue(complaint: Complaint)
      modifies this
      ensures queue == Insert(old(queue), complaint, Priority)
    {
      var added := false;
      var i := 0;
      while i < |queue|
        invariant 0 <= i <= |queue|
        invariant queue == old(queue)
        invariant forall k :: 0 <= k < i ==> queue[k].priority >= complaint.priority
      {
        if complaint.priority > queue[i].priority {
          InsertionPointUnique(queue, complaint, Priority, i);
          queue := queue[..i] + [complaint] + queue[i..];
          added := true;
          break;
        }
        i := i + 1;
      }
      if !added {
        InsertionPointUnique(queue, complaint, Priority, |queue|);
        assert queue[..|queue|] == queue && queue[|queue|..] == [];
        queue := queue + [complaint];
      }
    }

    method Dequeue() returns (front: Option<Complaint>)
      modifies this
      ensures old(queue) == [] ==> front == None && queue == []
      ensures old(queue) != [] ==> front == Some(old(queue)[0]) && queue == old(queue)[1..]
    {
      if queue == [] {
        return None;
      }
      front := Some(queue[0]);
      queue := queue[1..];
    }

    function IsEmpty(): (empty: bool)
      reads this
      ensures empty <==> queue == []
    {
      |queue| == 0
    }

    function GetComplaints(): (complaints: seq<Complaint>)
      reads this
      ensures complaints == queue
    {
      queue
    }
  }

  /** enqueue adds exactly the new complaint and keeps the others in their
      relative order: taking the new complaint out again gives back the old
      queue. Every complaint before it has priority at least its own, and it
      sits either at the end or right before a complaint of strictly lower
      priority. */
  lemma EnqueuePlacement(q: seq<Complaint>, c: Complaint)
    ensures var r := Insert(q, c, Priority);
            var i := InsertionPoint(q, c, Priority);
            && |r| == |q| + 1 && r[i] == c
            && r[..i] + r[i + 1..] == q
            && (forall k :: 0 <= k < i ==> r[k].priority >= c.priority)
            && (i == |q| || r[i + 1].priority < c.priority)
            && multiset(r) == multiset(q) + multiset{c}
  {
    InsertIsPermutation(q, c, Priority);
    InsertThenRemove(q, c, Priority);
    var r := Insert(q, c, Priority);
    var i := InsertionPoint(q, c, Priority);
    forall k | 0 <= k < i
      ensures r[k].priority >= c.priority
    {
      assert r[k] == q[k];
      assert PriorityAt(q, k, Priority) >= Priority(c);
    }
    if i < |q| {
      assert r[i + 1] == q[i];
      assert PriorityAt(q, i, Priority) < Priority(c);
    }
  }

  /** On a queue in descending priority order, enqueue keeps that order, and
      among equal priorities the new complaint comes after all the earlier
      ones (first in, first out among ties). */
  lemma EnqueueKeepsOrder(q: seq<Complaint>, c: Complaint)
    requires NonIncreasing(q, Priority)
    ensures NonIncreasing(Insert(q, c, Priority), Priority)
    ensures forall p :: WithPriority(Insert(q, c, Priority), p, Priority)
                        == WithPriority(q, p, Priority) + (if c.priority == p then [c] else [])
  {
    InsertKeepsOrder(q, c, Priority);
    forall p
      ensures WithPriority(Insert(q, c, Priority), p, Priority)
              == WithPriority(q, p, Priority) + (if c.priority == p then [c] else [])
    {
      InsertIsStable(q, c, p, Priority);
    }
  }

  /** On a queue in descending priority order, dequeue returns a complaint of
      the highest priority, the oldest among those of that priority, and
      leaves the rest in order. */
  lemma DequeueTakesHighest(q: seq<Complaint>)
    requires NonIncreasing(q, Priority) && q != []
    ensures forall c :: c in q ==> q[0].priority >= c.priority
    ensures WithPriority(q, q[0].priority, Priority)[0] == q[0]
    ensures NonIncreasing(q[1..], Priority)
  {
    forall c | c in q
      ensures q[0].priority >= c.priority
    {
      var k :| 0 <= k < |q| && q[k] == c;
      assert k == 0 || PriorityAt(q, 0, Priority) >= PriorityAt(q, k, Priority);
    }
    HeadLeadsItsClass(q, Priority);
    SplitKeepsOrder(q, 1, Priority);
  }

  /** The queue after enqueueing each of `cs` in turn. */
  function EnqueueAll(q: seq<Complaint>, cs: seq<Complaint>): seq<Complaint>
    decreases cs
  {
    if cs == [] then q else EnqueueAll(Insert(q, cs[0], Priority), cs[1..])
  }

  /** Enqueueing complaints one by one into an ordered queue gives the same
      queue as appending them all and sorting stably by descending priority
      (the push-then-sort of addComplaint in index.js): from an empty queue,
      the complaints sorted by priority, arrival order kept among ties. */
  lemma {:induction false} EnqueueAllSorts(q: seq<Complaint>, cs: seq<Complaint>)
    requires NonIncreasing(q, Priority)
    decreases cs
    ensures EnqueueAll(q, cs) == SortByPriority(q + cs, Priority)
  {
    if cs == [] {
      assert q + cs == q;
      SortOfOrdered(q, Priority);
    } else {
      var lhs := Insert(q, cs[0], Priority) + cs[1..];
      InsertKeepsOrder(q, cs[0], Priority);
      EnqueueAllSorts(Insert(q, cs[0], Priority), cs[1..]);
      forall p
        ensures WithPriority(lhs, p, Priority) == WithPriority(q + cs, p, Priority)
      {
        EnqueueThenArrive(q, cs, p);
      }
      SameClassesSameSort(lhs, q + cs, Priority);
    }
  }

  /** Enqueueing the first arrival and leaving the rest queued behind it
      agrees with the plain arrival order on every priority class. */
  lemma EnqueueThenArrive(q: seq<Complaint>, cs: seq<Complaint>, p: int)
    requires NonIncreasing(q, Priority) && cs != []
    ensures WithPriority(Insert(q, cs[0], Priority) + cs[1..], p, Priority) == WithPriority(q + cs, p, Priority)
  {
    var c, rest := cs[0], cs[1..];
    var tie := if c.priority == p then [c] else [];
    assert cs == [c] + rest;
    calc {
      WithPriority(Insert(q, c, Priority) + rest, p, Priority);
      { WithPriorityConcat(Insert(q, c, Priority), rest, p, Priority); }
      WithPriority(Insert(q, c, Priority), p, Priority) + WithPriority(rest, p, Priority);
      { InsertIsStable(q, c, p, Priority); }
      WithPriority(q, p, Priority) + tie + WithPriority(rest, p, Priority);
      { assert WithPriority([c], p, Priority) == tie;
        WithPriorityConcat([c], rest, p, Priority); }
      WithPriority(q, p, Priority) + WithPriority(cs, p, Priority);
      { WithPriorityConcat(q, cs, p, Priority); }
      WithPriority(q + cs, p, Priority);
    }
  }
}
