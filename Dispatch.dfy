/** The in-memory complaint dispatcher of index.js: a priority-sorted intake
    queue, a pool of free vehicles, a waiting list for complaints that found no
    vehicle, a history of resolved complaints, and the completions scheduled
    with `setTimeout`, which here are an explicit list fired one at a time. */
module Dispatch {
  import opened Wrappers
  import opened PriorityOrder

  /** The status strings 'Pending', 'In Progress' and 'Resolved'. */
  datatype Status = Pending | InProgress | Resolved

  type VehicleId = string

  /** A complaint record. `vehicle` is absent until a vehicle is assigned. */
  datatype Complaint = Complaint(
    id: string,
    description: string,
    priority: int,
    location: string,
    status: Status,
    vehicle: Option<VehicleId>)

  /** A scheduled completion: the timer callback that will resolve `complaint`
      and hand back `vehicle`. */
  datatype Completion = Completion(complaint: Complaint, vehicle: VehicleId)

  /** The four module-level arrays, plus the completions not yet fired. */
  datatype DispatchState = DispatchState(
    queue: seq<Complaint>,
    history: seq<Complaint>,
    available: seq<VehicleId>,
    waiting: seq<Complaint>,
    timers: seq<Completion>)

  function Priority(c: Complaint): int { c.priority }

  const InitialVehicles: seq<VehicleId> := ["Vehicle-1", "Vehicle-2"]

  function Initial(): DispatchState {
    DispatchState([], [], InitialVehicles, [], [])
  }

  function NewComplaint(id: string, description: string, priority: int, location: string): Complaint {
    Complaint(id, description, priority, location, Pending, None)
  }

  /** The complaint marked 'In Progress' with vehicle `v`, and its completion. */
  function Assign(c: Complaint, v: VehicleId): Completion {
    Completion(c.(status := InProgress, vehicle := Some(v)), v)
  }

  /** The k-th vehicle paired with the k-th complaint. */
  function Assignments(vs: seq<VehicleId>, cs: seq<Complaint>): seq<Completion>
    requires |vs| == |cs|
  {
    seq(|cs|, k requires 0 <= k < |cs| => Assign(cs[k], vs[k]))
  }

  function Min(a: nat, b: nat): nat {
    if a <= b then a else b
  }

  /** `findIndex` on the id: the first position holding `id`, or |q| if none. */
  function FindById(q: seq<Complaint>, id: string): (i: nat)
    ensures i <= |q|
    ensures forall k :: 0 <= k < i ==> q[k].id != id
    ensures i < |q| ==> q[i].id == id
  {
    if q == [] || q[0].id == id then 0
    else 1 + FindById(q[1..], id)
  }

  /** The number of complaints held anywhere: queued, waiting, being served or resolved. */
  function Tracked(s: DispatchState): nat {
    |s.queue| + |s.waiting| + |s.timers| + |s.history|
  }

  // State after each operation of index.js.

  /** addComplaint: push a new Pending complaint, then sort the queue by
      descending priority with a stable sort. */
  function AfterAdd(s: DispatchState, id: string, description: string, priority: int, location: string): DispatchState {
    s.(queue := SortByPriority(s.queue + [NewComplaint(id, description, priority, location)], Priority))
  }

  /** What removeComplaint returns: the first queued complaint with `id`, or null. */
  function Removed(s: DispatchState, id: string): Option<Complaint> {
    var i := FindById(s.queue, id);
    if i < |s.queue| then Some(s.queue[i]) else None
  }

  /** removeComplaint: splice out the first queued complaint with `id`. */
  function AfterRemove(s: DispatchState, id: string): DispatchState {
    var i := FindById(s.queue, id);
    if i < |s.queue| then s.(queue := s.queue[..i] + s.queue[i + 1..]) else s
  }

  /** resolveComplaints: pair front vehicle with front complaint while both
      remain, then, if complaints remain and no vehicle does, overwrite the
      waiting list with the remainder and empty the queue. */
  function AfterResolveComplaints(s: DispatchState): DispatchState {
    var n := Min(|s.available|, |s.queue|);
    var vehicles, rest := s.available[n..], s.queue[n..];
    var looped := s.(queue := rest, available := vehicles,
                     timers := s.timers + Assignments(s.available[..n], s.queue[..n]));
    if |rest| > 0 && |vehicles| == 0 then looped.(waiting := rest, queue := []) else looped
  }

  /** resolveSingleComplaint(c, v): resolve `c` into the history and push `v`
      back onto the pool; then, if a complaint waits, give `v` to the oldest
      one and schedule its completion (leaving `v` in the pool). */
  function AfterResolveSingle(s: DispatchState, c: Complaint, v: VehicleId): DispatchState {
    var freed := s.(history := s.history + [c.(status := Resolved)], available := s.available + [v]);
    if |s.waiting| > 0 then
      freed.(waiting := s.waiting[1..], timers := s.timers + [Assign(s.waiting[0], v)])
    else freed
  }

  /** The k-th scheduled completion fires: it leaves the schedule and runs
      resolveSingleComplaint with the complaint and vehicle it captured. */
  function AfterFire(s: DispatchState, k: nat): DispatchState
    requires k < |s.timers|
  {
    var t := s.timers[k];
    AfterResolveSingle(s.(timers := s.timers[..k] + s.timers[k + 1..]), t.complaint, t.vehicle)
  }

  class Dispatcher {
    var complaintQueue: seq<Complaint>
    var complaintHistory: seq<Complaint>
    var availableVehicles: seq<VehicleId>
    var waitingComplaints: seq<Complaint>
    var timers: seq<Completion>

    function State(): DispatchState
      reads this
    {
      DispatchState(complaintQueue, complaintHistory, availableVehicles, waitingComplaints, timers)
    }

    constructor ()
      ensures State() == Initial()
    {
      complaintQueue := [];
      complaintHistory := [];
      availableVehicles := InitialVehicles;
      waitingComplaints := [];
      timers := [];
    }

    method AddComplaint(id: string, description: string, priority: int, location: string)
      modifies this
      ensures State() == AfterAdd(old(State()), id, description, priority, location)
    {
      var complaint := NewComplaint(id, description, priority, location);
      complaintQueue := complaintQueue + [complaint];
      complaintQueue := SortByPriority(complaintQueue, Priority);
    }

    method RemoveComplaint(id: string) returns (removed: Option<Complaint>)
      modifies this
      ensures removed == Removed(old(State()), id)
      ensures State() == AfterRemove(old(State()), id)
    {
      var index := FindById(complaintQueue, id);
      if index < |complaintQueue| {
        removed := Some(complaintQueue[index]);
        complaintQueue := complaintQueue[..index] + complaintQueue[index + 1..];
        return;
      }
      return None;
    }

    method ResolveComplaints()
      modifies this
      ensures State() == AfterResolveComplaints(old(State()))
    {
      ghost var s := State();
      ghost var n := Min(|s.available|, |s.queue|);
      ghost var i := 0;
      while |availableVehicles| > 0 && |complaintQueue| > 0
        invariant 0 <= i <= n
        invariant availableVehicles == s.available[i..] && complaintQueue == s.queue[i..]
        invariant timers == s.timers + Assignments(s.available[..i], s.queue[..i])
        invariant complaintHistory == s.history && waitingComplaints == s.waiting
        decreases |complaintQueue|
      {
        var vehicleId := availableVehicles[0];
        availableVehicles := availableVehicles[1..];
        var complaint := complaintQueue[0];
        complaintQueue := complaintQueue[1..];
        complaint := complaint.(status := InProgress, vehicle := Some(vehicleId));
        timers := timers + [Completion(complaint, vehicleId)];
        assert Assignments(s.available[..i + 1], s.queue[..i + 1])
            == Assignments(s.available[..i], s.queue[..i]) + [Assign(s.queue[i], s.available[i])];
        i := i + 1;
      }
      if |complaintQueue| > 0 && |availableVehicles| == 0 {
        waitingComplaints := complaintQueue;
        complaintQueue := [];
      }
    }

    method ResolveSingleComplaint(complaint: Complaint, vehicleId: VehicleId)
      modifies this
      ensures State() == AfterResolveSingle(old(State()), complaint, vehicleId)
    {
      var resolved := complaint.(status := Resolved);
      complaintHistory := complaintHistory + [resolved];
      availableVehicles := availableVehicles + [vehicleId];
      if |waitingComplaints| > 0 {
        var nextComplaint := waitingComplaints[0];
        waitingComplaints := waitingComplaints[1..];
        nextComplaint := nextComplaint.(status := InProgress, vehicle := Some(vehicleId));
        timers := timers + [Completion(nextComplaint, vehicleId)];
      }
    }

    /** The event loop runs the k-th scheduled completion. */
    method FireTimer(k: nat)
      requires k < |timers|
      modifies this
      ensures State() == AfterFire(old(State()), k)
    {
      var t := timers[k];
      timers := timers[..k] + timers[k + 1..];
      ResolveSingleComplaint(t.complaint, t.vehicle);
    }
  }

  // Properties of the operations.

  /** What every reachable state satisfies: the queue is in descending
      priority order; queued and waiting complaints are Pending with no
      vehicle; each scheduled completion carries its complaint marked
      'In Progress' with that completion's vehicle; the history holds only
      Resolved complaints. */
  ghost predicate Consistent(s: DispatchState) {
    && NonIncreasing(s.queue, Priority)
    && (forall c :: c in s.queue ==> c.status == Pending && c.vehicle == None)
    && (forall c :: c in s.waiting ==> c.status == Pending && c.vehicle == None)
    && (forall t :: t in s.timers ==> t.complaint.status == InProgress && t.complaint.vehicle == Some(t.vehicle))
    && (forall c :: c in s.history ==> c.status == Resolved)
  }

  lemma InitialIsConsistent()
    ensures Consistent(Initial())
    ensures Initial().available == ["Vehicle-1", "Vehicle-2"]
  {
  }

  /** addComplaint grows the queue by exactly the new Pending complaint,
      whatever its id (there is no duplicate check), and touches nothing else. */
  lemma AddComplaintAddsOne(s: DispatchState, id: string, description: string, priority: int, location: string)
    ensures var r := AfterAdd(s, id, description, priority, location);
            var c := NewComplaint(id, description, priority, location);
            && |r.queue| == |s.queue| + 1
            && c in r.queue && c.status == Pending
            && multiset(r.queue) == multiset(s.queue) + multiset{c}
            && r.(queue := s.queue) == s
  {
    var r := AfterAdd(s, id, description, priority, location);
    var c := NewComplaint(id, description, priority, location);
    assert |multiset(r.queue)| == |multiset(s.queue + [c])|;
    assert c in multiset(r.queue);
  }

  /** On a queue already in priority order, addComplaint's push-and-sort puts
      the new complaint exactly where ComplaintQueue.enqueue's scan would:
      after every complaint of equal or higher priority. The queue stays
      ordered and, within each priority, in arrival order. */
  lemma AddComplaintKeepsOrder(s: DispatchState, id: string, description: string, priority: int, location: string)
    requires NonIncreasing(s.queue, Priority)
    ensures var r := AfterAdd(s, id, description, priority, location);
            var c := NewComplaint(id, description, priority, location);
            && r.queue == Insert(s.queue, c, Priority)
            && NonIncreasing(r.queue, Priority)
            && forall p :: WithPriority(r.queue, p, Priority)
                           == WithPriority(s.queue, p, Priority) + (if priority == p then [c] else [])
  {
    var c := NewComplaint(id, description, priority, location);
    SortAfterAppend(s.queue, c, Priority);
    forall p
      ensures WithPriority(Insert(s.queue, c, Priority), p, Priority)
              == WithPriority(s.queue, p, Priority) + (if priority == p then [c] else [])
    {
      InsertIsStable(s.queue, c, p, Priority);
    }
  }

  /** removeComplaint takes out the first queued complaint with the id and
      returns it, keeping the others in order; with no such complaint it
      returns null and changes nothing. It never touches the waiting list,
      the pool, the schedule or the history. */
  lemma RemoveComplaintTakesFirstMatch(s: DispatchState, id: string)
    ensures var r := AfterRemove(s, id);
            && r.(queue := s.queue) == s
            && (Removed(s, id) == None <==> forall c :: c in s.queue ==> c.id != id)
            && (Removed(s, id) == None ==> r == s)
            && (Removed(s, id).Some? ==>
                  exists i :: 0 <= i < |s.queue| && s.queue[i] == Removed(s, id).value
                    && s.queue[i].id == id
                    && (forall k :: 0 <= k < i ==> s.queue[k].id != id)
                    && r.queue == s.queue[..i] + s.queue[i + 1..])
  {
    var i := FindById(s.queue, id);
    if i == |s.queue| {
      forall c | c in s.queue
        ensures c.id != id
      {
        var k :| 0 <= k < |s.queue| && s.queue[k] == c;
      }
    }
  }

  /** After resolveComplaints the queue is always empty: the loop stops only
      when the pool or the queue is exhausted, and a remainder is drained. */
  lemma ResolveComplaintsEmptiesQueue(s: DispatchState)
    ensures AfterResolveComplaints(s).queue == []
  {
  }

  /** resolveComplaints makes min(#vehicles, #queue) assignments: the k-th
      free vehicle goes to the k-th queued complaint, which is marked
      'In Progress' with it and gets one scheduled completion. Those vehicles
      leave the pool; the history is untouched. */
  lemma ResolveComplaintsAssigns(s: DispatchState)
    ensures var r := AfterResolveComplaints(s);
            var n := Min(|s.available|, |s.queue|);
            && (n == |s.available| || n == |s.queue|) && n <= |s.available| && n <= |s.queue|
            && |r.timers| == |s.timers| + n
            && r.timers[..|s.timers|] == s.timers
            && (forall k :: 0 <= k < n ==>
                  && r.timers[|s.timers| + k].vehicle == s.available[k]
                  && r.timers[|s.timers| + k].complaint
                     == s.queue[k].(status := InProgress, vehicle := Some(s.available[k])))
            && r.available == s.available[n..]
            && r.history == s.history
            && |r.available| + |r.timers| == |s.available| + |s.timers|
  {
    var r := AfterResolveComplaints(s);
    var n := Min(|s.available|, |s.queue|);
    assert r.timers == s.timers + Assignments(s.available[..n], s.queue[..n]);
    forall k | 0 <= k < n
      ensures r.timers[|s.timers| + k] == Assign(s.queue[k], s.available[k])
    {
      assert r.timers[|s.timers| + k] == Assignments(s.available[..n], s.queue[..n])[k];
    }
  }

  /** When complaints outnumber the free vehicles, the waiting list becomes
      exactly the unassigned remainder in queue order, and whatever it held
      before is discarded (the drain overwrites rather than appends).
      Otherwise the waiting list is unchanged. */
  lemma ResolveComplaintsDrains(s: DispatchState)
    ensures var r := AfterResolveComplaints(s);
            r.waiting == if |s.queue| > |s.available| then s.queue[|s.available|..] else s.waiting
    ensures var r := AfterResolveComplaints(s);
            Tracked(r) == Tracked(s) - (if |s.queue| > |s.available| then |s.waiting| else 0)
  {
    var n := Min(|s.available|, |s.queue|);
    assert |Assignments(s.available[..n], s.queue[..n])| == n;
  }

  /** With no vehicle free and complaints queued, resolveComplaints assigns
      nothing and moves the whole queue into the waiting list, replacing
      whatever waited there. */
  lemma NoVehicleDrainOverwrites(s: DispatchState)
    requires s.available == [] && s.queue != []
    ensures AfterResolveComplaints(s) == s.(waiting := s.queue, queue := [])
  {
  }

  /** With an empty queue resolveComplaints changes nothing (the guard of the
      /resolve-complaints endpoint skips exactly this case), so a second call
      right after a first one has no effect. */
  lemma ResolveComplaintsIdempotent(s: DispatchState)
    ensures s.queue == [] ==> AfterResolveComplaints(s) == s
    ensures AfterResolveComplaints(AfterResolveComplaints(s)) == AfterResolveComplaints(s)
  {
    ResolveComplaintsEmptiesQueue(s);
  }

  /** resolveSingleComplaint always resolves the complaint into the end of the
      history and pushes the vehicle back onto the pool. If complaints wait,
      the oldest one (not the most urgent queued one: the queue is not
      consulted) leaves the waiting list and is scheduled with that same
      vehicle. */
  lemma ResolveSingleComplaintServesOldestWaiting(s: DispatchState, c: Complaint, v: VehicleId)
    ensures var r := AfterResolveSingle(s, c, v);
            && r.history == s.history + [c.(status := Resolved)]
            && r.available == s.available + [v]
            && r.queue == s.queue
            && (s.waiting == [] ==> r.waiting == [] && r.timers == s.timers)
            && (s.waiting != [] ==>
                  && |r.waiting| == |s.waiting| - 1
                  && r.waiting == s.waiting[1..]
                  && r.timers == s.timers + [Completion(s.waiting[0].(status := InProgress, vehicle := Some(v)), v)])
  {
  }

  /** The double booking: when a complaint was waiting, the vehicle handed to
      it also stays in the pool of available vehicles (see VehicleBookedTwice
      for the second assignment that follows). */
  lemma ReassignedVehicleStaysAvailable(s: DispatchState, c: Complaint, v: VehicleId)
    requires s.waiting != []
    ensures var r := AfterResolveSingle(s, c, v);
            && v in r.available
            && r.timers[|r.timers| - 1].vehicle == v
            && r.timers[|r.timers| - 1].complaint.vehicle == Some(v)
  {
  }

  /** With no vehicle free and a complaint waiting, a completion for vehicle
      `v` hands `v` to the waiting complaint and also back to the pool; a
      complaint queued next is then dispatched to `v` too, so two scheduled
      completions hold the same vehicle. */
  lemma VehicleBookedTwice(s: DispatchState, c: Complaint, v: VehicleId,
                           id: string, description: string, priority: int, location: string)
    requires s.available == [] && s.waiting != []
    ensures var r := AfterResolveComplaints(AfterAdd(AfterResolveSingle(s, c, v), id, description, priority, location));
            && |r.timers| >= |s.timers| + 2
            && r.timers[|s.timers|].vehicle == v
            && r.timers[|s.timers| + 1].vehicle == v
  {
    var freed := AfterResolveSingle(s, c, v);
    var added := AfterAdd(freed, id, description, priority, location);
    assert freed.available == [v] && |freed.timers| == |s.timers| + 1;
    assert freed.timers[|s.timers|].vehicle == v;
    AddComplaintAddsOne(freed, id, description, priority, location);
    assert added.queue != [];
    ResolveComplaintsAssigns(added);
  }

  /** A completion firing keeps every complaint held (it moves from the
      schedule to the history, and the oldest waiting one into the schedule);
      free vehicles plus scheduled completions grow by one exactly when a
      complaint was waiting. */
  lemma FireTimerCounts(s: DispatchState, k: nat)
    requires k < |s.timers|
    ensures var r := AfterFire(s, k);
            && Tracked(r) == Tracked(s)
            && |r.available| + |r.timers| == |s.available| + |s.timers| + (if s.waiting != [] then 1 else 0)
            && r.history == s.history + [s.timers[k].complaint.(status := Resolved)]
            && r.queue == s.queue
    ensures forall id :: Holds(s, id) ==> Holds(AfterFire(s, k), id)
  {
    forall id | Holds(s, id)
      ensures Holds(AfterFire(s, k), id)
    {
      FireTimerKeepsHeld(s, k, id);
    }
  }

  /** One complaint held before a completion fires is still held after it. */
  lemma FireTimerKeepsHeld(s: DispatchState, k: nat, id: string)
    requires k < |s.timers| && Holds(s, id)
    ensures Holds(AfterFire(s, k), id)
  {
    var r := AfterFire(s, k);
    if j :| 0 <= j < |s.history| && s.history[j].id == id {
      assert r.history[j] == s.history[j];
    } else if j :| 0 <= j < |s.queue| && s.queue[j].id == id {
      assert r.queue[j] == s.queue[j];
    } else if j :| 0 <= j < |s.timers| && s.timers[j].complaint.id == id {
      if j == k {
        assert r.history[|s.history|].id == id;
      } else if j < k {
        assert r.timers[j] == s.timers[j];
      } else {
        assert r.timers[j - 1] == s.timers[j];
      }
    } else {
      var j :| 0 <= j < |s.waiting| && s.waiting[j].id == id;
      if j == 0 {
        assert r.timers[|r.timers| - 1].complaint.id == id;
      } else {
        assert r.waiting[j - 1] == s.waiting[j];
      }
    }
  }

  lemma AddComplaintConsistent(s: DispatchState, id: string, description: string, priority: int, location: string)
    requires Consistent(s)
    ensures Consistent(AfterAdd(s, id, description, priority, location))
  {
    var r := AfterAdd(s, id, description, priority, location);
    var c := NewComplaint(id, description, priority, location);
    forall x | x in r.queue
      ensures x.status == Pending && x.vehicle == None
    {
      assert x in multiset(r.queue);
      assert x in multiset(s.queue + [c]);
      assert x in s.queue + [c];
    }
  }

  lemma RemoveComplaintConsistent(s: DispatchState, id: string)
    requires Consistent(s)
    ensures Consistent(AfterRemove(s, id))
  {
    var i := FindById(s.queue, id);
    if i < |s.queue| {
      DeleteKeepsOrder(s.queue, i, Priority);
      var q := s.queue[..i] + s.queue[i + 1..];
      forall x | x in q
        ensures x in s.queue
      {
        var k :| 0 <= k < |q| && q[k] == x;
        assert q[k] == if k < i then s.queue[k] else s.queue[k + 1];
      }
    }
  }

  lemma ResolveComplaintsConsistent(s: DispatchState)
    requires Consistent(s)
    ensures Consistent(AfterResolveComplaints(s))
  {
    var r := AfterResolveComplaints(s);
    var n := Min(|s.available|, |s.queue|);
    ResolveComplaintsEmptiesQueue(s);
    ResolveComplaintsAssigns(s);
    forall x | x in r.waiting
      ensures x.status == Pending && x.vehicle == None
    {
      if |s.queue| > |s.available| {
        var k :| 0 <= k < |r.waiting| && r.waiting[k] == x;
        assert x == s.queue[n + k];
      }
    }
    forall t | t in r.timers
      ensures t.complaint.status == InProgress && t.complaint.vehicle == Some(t.vehicle)
    {
      var j :| 0 <= j < |r.timers| && r.timers[j] == t;
      if j < |s.timers| {
        assert t == s.timers[j];
      } else {
        assert t == r.timers[|s.timers| + (j - |s.timers|)];
      }
    }
  }

  lemma FireTimerConsistent(s: DispatchState, k: nat)
    requires Consistent(s) && k < |s.timers|
    ensures Consistent(AfterFire(s, k))
  {
    var r := AfterFire(s, k);
    var rest := s.timers[..k] + s.timers[k + 1..];
    forall t | t in rest
      ensures t in s.timers
    {
      var j :| 0 <= j < |rest| && rest[j] == t;
      assert rest[j] == if j < k then s.timers[j] else s.timers[j + 1];
    }
    forall x | x in r.waiting
      ensures x in s.waiting
    {
      var j :| 0 <= j < |r.waiting| && r.waiting[j] == x;
      assert x == s.waiting[j + 1];
    }
  }

  /** Whether a complaint with `id` is held anywhere: queued, waiting, being
      served or in the history. */
  ghost predicate Holds(s: DispatchState, id: string) {
    || (exists k :: 0 <= k < |s.queue| && s.queue[k].id == id)
    || (exists k :: 0 <= k < |s.waiting| && s.waiting[k].id == id)
    || (exists k :: 0 <= k < |s.timers| && s.timers[k].complaint.id == id)
    || (exists k :: 0 <= k < |s.history| && s.history[k].id == id)
  }

  /** Two vehicles; complaint 1 of low priority, then complaints 2 and 3 of
      equal higher priority, are queued in the order 2, 3, 1.
      resolveComplaints assigns both vehicles to 2 and 3 and at once drains 1
      into the waiting list. Complaint 4 is then queued and resolveComplaints
      is called again: with no vehicle free it drains 4 over the waiting list,
      and complaint 1 is no longer held anywhere. */
  lemma SecondDrainDropsWaitingComplaint(id1: string, id2: string, id3: string, id4: string,
                                         low: int, high: int, p4: int, d: string, l: string)
    requires low < high
    requires id1 != id2 && id1 != id3 && id1 != id4
    ensures var c1, c2, c3, c4 := NewComplaint(id1, d, low, l), NewComplaint(id2, d, high, l),
                                  NewComplaint(id3, d, high, l), NewComplaint(id4, d, p4, l);
            var s1 := AfterAdd(AfterAdd(AfterAdd(Initial(), id1, d, low, l), id2, d, high, l), id3, d, high, l);
            var s2 := AfterResolveComplaints(s1);
            var s3 := AfterResolveComplaints(AfterAdd(s2, id4, d, p4, l));
            && s1.queue == [c2, c3, c1]
            && s2.available == [] && |s2.timers| == 2 && s2.waiting == [c1]
            && Holds(s2, id1)
            && s3.waiting == [c4]
            && !Holds(s3, id1)
  {
    var c1, c2, c3 := NewComplaint(id1, d, low, l), NewComplaint(id2, d, high, l), NewComplaint(id3, d, high, l);
    ScenarioIntake(id1, id2, id3, low, high, d, l);
    var s1 := AfterAdd(AfterAdd(AfterAdd(Initial(), id1, d, low, l), id2, d, high, l), id3, d, high, l);
    ScenarioFirstDrain(s1, c1, c2, c3);
    var s2 := AfterResolveComplaints(s1);
    ScenarioSecondDrain(s2, c1, id4, d, p4, l);
  }

  lemma ScenarioIntake(id1: string, id2: string, id3: string, low: int, high: int, d: string, l: string)
    requires low < high
    ensures AfterAdd(AfterAdd(AfterAdd(Initial(), id1, d, low, l), id2, d, high, l), id3, d, high, l)
            == Initial().(queue := [NewComplaint(id2, d, high, l), NewComplaint(id3, d, high, l), NewComplaint(id1, d, low, l)])
  {
    var c1, c2, c3 := NewComplaint(id1, d, low, l), NewComplaint(id2, d, high, l), NewComplaint(id3, d, high, l);
    var a1 := AfterAdd(Initial(), id1, d, low, l);
    ScenarioAdd(Initial(), id1, d, low, l, 0);
    ScenarioIntakeSecond(a1, c1, id2, d, high, l);
    var a2 := AfterAdd(a1, id2, d, high, l);
    ScenarioIntakeThird(a2, c1, c2, id3, d, high, l);
  }

  lemma ScenarioIntakeSecond(s: DispatchState, c1: Complaint, id2: string, d: string, high: int, l: string)
    requires s == Initial().(queue := [c1]) && c1.priority < high
    ensures AfterAdd(s, id2, d, high, l) == Initial().(queue := [NewComplaint(id2, d, high, l), c1])
  {
    ScenarioAdd(s, id2, d, high, l, 0);
  }

  lemma ScenarioIntakeThird(s: DispatchState, c1: Complaint, c2: Complaint, id3: string, d: string, high: int, l: string)
    requires s == Initial().(queue := [c2, c1]) && c1.priority < high && c2.priority == high
    ensures AfterAdd(s, id3, d, high, l) == Initial().(queue := [c2, NewComplaint(id3, d, high, l), c1])
  {
    ScenarioAdd(s, id3, d, high, l, 1);
    InsertAtOne(c2, c1, NewComplaint(id3, d, high, l));
  }

  lemma InsertAtOne<X>(a: X, b: X, c: X)
    ensures [a, b][..1] + [c] + [a, b][1..] == [a, c, b]
  {
    assert [a, b][..1] == [a] && [a, b][1..] == [b];
  }

  /** One step of the scenario: on an ordered queue, addComplaint inserts at
      the given position. */
  lemma ScenarioAdd(s: DispatchState, id: string, d: string, p: int, l: string, i: nat)
    requires NonIncreasing(s.queue, Priority) && i <= |s.queue|
    requires forall k :: 0 <= k < i ==> s.queue[k].priority >= p
    requires i < |s.queue| ==> s.queue[i].priority < p
    ensures AfterAdd(s, id, d, p, l) == s.(queue := s.queue[..i] + [NewComplaint(id, d, p, l)] + s.queue[i..])
  {
    SortAfterAppend(s.queue, NewComplaint(id, d, p, l), Priority);
    InsertionPointUnique(s.queue, NewComplaint(id, d, p, l), Priority, i);
  }

  lemma ScenarioFirstDrain(s: DispatchState, c1: Complaint, c2: Complaint, c3: Complaint)
    requires s == Initial().(queue := [c2, c3, c1])
    ensures var r := AfterResolveComplaints(s);
            && r.queue == [] && r.available == [] && r.history == [] && r.waiting == [c1]
            && |r.timers| == 2 && r.timers[0].complaint.id == c2.id && r.timers[1].complaint.id == c3.id
  {
  }

  lemma ScenarioSecondDrain(s: DispatchState, c1: Complaint, id4: string, d: string, p4: int, l: string)
    requires && s.queue == [] && s.available == [] && s.history == [] && s.waiting == [c1]
             && |s.timers| == 2 && s.timers[0].complaint.id != c1.id && s.timers[1].complaint.id != c1.id
             && id4 != c1.id
    ensures Holds(s, c1.id)
    ensures var r := AfterResolveComplaints(AfterAdd(s, id4, d, p4, l));
            r.waiting == [NewComplaint(id4, d, p4, l)] && !Holds(r, c1.id)
  {
    assert s.waiting[0].id == c1.id;
    var c4 := NewComplaint(id4, d, p4, l);
    var a := AfterAdd(s, id4, d, p4, l);
    ScenarioAdd(s, id4, d, p4, l, 0);
    assert a == s.(queue := [c4]);
    NoVehicleDrainOverwrites(a);
  }
}
