# Complaint dispatcher of the waste-management service, in Dafny

This project models the in-memory core of a small waste-management service. Complaints arrive with a priority. They are kept in a queue sorted by descending priority and dispatched to a fixed pool of vehicles ("Vehicle-1" and "Vehicle-2"). A complaint that finds no vehicle goes to a waiting list. Each assignment schedules a completion. When it fires, the complaint is resolved into a history and its vehicle is handed back to the pool, then given to the oldest waiting complaint.

Files:

- `Dispatch.dfy` models index.js. Class `Dispatcher` holds the four module-level arrays (`complaintQueue`, `complaintHistory`, `availableVehicles`, `waitingComplaints`) as `seq` fields. A fifth field, `timers`, holds the completions scheduled with `setTimeout`. Methods `AddComplaint`, `RemoveComplaint`, `ResolveComplaints` (with its `while` loop) and `ResolveSingleComplaint` follow the source. `FireTimer(k)` runs the k-th scheduled completion. The caller picks `k`, so completions may fire in any order. Each method is proved equal to a pure function of the old state (`AfterAdd`, `AfterRemove`, `AfterResolveComplaints`, `AfterResolveSingle`, `AfterFire`), and the lemmas state the properties of those functions.
- `ComplaintQueue.dfy` models class `ComplaintQueue` of complaintQueue.js. `Enqueue` keeps the source's `for` loop and its `added` flag.
- `ComplaintStack.dfy` models class `ComplaintStack` of complaintStack.js.
- `PriorityOrder.dfy` defines the ordering shared by both queues: descending priority, first come first served among ties. `SortByPriority` is a stable sort. It stands for `Array.prototype.sort` as used by addComplaint. ECMA-262 (2019 edition and later, section 23.1.3.30 in the 2023 edition) requires that sort to be stable. `StableSortIsUnique` proves that every stable sort with this comparator gives the same result, so this choice of sort is exact.
- `Wrappers.dfy` defines `Option`. It stands for JavaScript's `undefined` from `shift`/`pop` and the `null` from removeComplaint.

Complaints are values (datatypes), not objects. In index.js a complaint object's `status` and `vehicle` fields change only right after it is shifted out of the queue or the waiting list, or when its one timer fires. At those points no other structure holds it, so copying the value is exact. `Consistent` is the invariant every reachable dispatcher state keeps. It says the queue is sorted, queued and waiting complaints are Pending with no vehicle, each scheduled completion carries its complaint marked In Progress with that vehicle, and the history holds only Resolved complaints. Each operation is proved to preserve it.

### Behaviour worth knowing

- `resolveComplaints` does not leave unassigned complaints queued: in the same call it drains the remainder into the waiting list (index.js:63-66).
- The drain assigns instead of appending (index.js:65), so a second drain discards complaints that were still waiting. `SecondDrainDropsWaitingComplaint` queues complaints 1, 2 and 3 with two vehicles and dispatches, then queues 4 and dispatches again. At the end complaint 1 is held nowhere.
- A vehicle handed to a waiting complaint also stays in `availableVehicles` (index.js:76, 80-82). `ReassignedVehicleStaysAvailable` states this double booking, and `VehicleBookedTwice` shows the next dispatch giving the same vehicle to a second complaint.
- There are no duplicate-id, not-cancelable or unknown-vehicle errors. addComplaint accepts any id, and removeComplaint only searches the queue.

## Model

| member | source | states |
|---|---|---|
| `Dispatch.Dispatcher.constructor` | index.js:8-11 | starts with an empty queue, history and waiting list, no timers, and the pool ["Vehicle-1", "Vehicle-2"] |
| `Dispatch.Dispatcher.AddComplaint` | index.js:14-18 | the new queue is the old queue plus a new Pending complaint, stably sorted by descending priority; nothing else changes |
| `Dispatch.AddComplaintAddsOne` | index.js:14-17 | the queue grows by exactly the new Pending complaint (as a multiset), whatever its id (no duplicate check); the other structures are unchanged |
| `Dispatch.AddComplaintKeepsOrder` | index.js:16-17 | on a sorted queue, push-and-sort inserts where ComplaintQueue's scan would; the queue stays sorted and keeps arrival order within each priority |
| `Dispatch.FindById` | index.js:22 | the index returned is the first one holding the id, or the length when no complaint has it |
| `Dispatch.Dispatcher.RemoveComplaint` | index.js:21-29 | returns the first queued complaint with the id, or null, and splices it out of the queue |
| `Dispatch.RemoveComplaintTakesFirstMatch` | index.js:21-28 | null exactly when no queued complaint has the id, and then nothing changes; otherwise it returns the first match and the others keep their order; the waiting list, pool, timers and history are never touched |
| `Dispatch.Dispatcher.ResolveComplaints` | index.js:45-67 | the loop pairs front vehicle with front complaint while both remain, then drains any remainder into the waiting list; the result equals `AfterResolveComplaints` of the old state |
| `Dispatch.ResolveComplaintsEmptiesQueue` | index.js:49-66 | after resolveComplaints the queue is always empty |
| `Dispatch.ResolveComplaintsAssigns` | index.js:49-60 | exactly min(#vehicles, #queue) completions are scheduled, the k-th pairing the k-th vehicle with the k-th complaint marked In Progress; those vehicles leave the pool; the history is untouched |
| `Dispatch.ResolveComplaintsDrains` | index.js:63-66 | with more complaints than vehicles, the waiting list becomes exactly the remainder in queue order and its old contents are lost; otherwise it is unchanged; the count of held complaints drops by exactly the discarded ones |
| `Dispatch.ResolveComplaintsIdempotent` | index.js:45-67 | with an empty queue it changes nothing (the case the guard at index.js:117 skips), so a second call in a row has no effect |
| `Dispatch.NoVehicleDrainOverwrites` | index.js:63-66 | with no free vehicle and complaints queued, nothing is assigned, the waiting list becomes exactly the queue (its old contents are replaced) and the queue empties |
| `Dispatch.SecondDrainDropsWaitingComplaint` | index.js:63-66 | in the scenario above, a second drain overwrites the waiting list and a complaint is lost |
| `Dispatch.Dispatcher.ResolveSingleComplaint` | index.js:70-89 | the new state equals `AfterResolveSingle` of the old state, complaint and vehicle |
| `Dispatch.ResolveSingleComplaintServesOldestWaiting` | index.js:70-88 | always: the complaint is appended Resolved to the history and the vehicle to the pool; if complaints wait, the oldest leaves the waiting list (which shrinks by one) and is scheduled In Progress with that vehicle; the queue is never consulted |
| `Dispatch.ReassignedVehicleStaysAvailable` | index.js:76-82 | when a complaint was waiting, the vehicle is both in the pool and assigned to the newly scheduled completion |
| `Dispatch.VehicleBookedTwice` | index.js:76-82 | with no vehicle free and a complaint waiting, a completion for vehicle v followed by addComplaint and resolveComplaints leaves two scheduled completions holding v |
| `Dispatch.Dispatcher.FireTimer` | index.js:59 | the fired completion leaves the schedule, then resolveSingleComplaint runs on the complaint and vehicle it captured (also the callback of index.js:87) |
| `Dispatch.FireTimerCounts` | index.js:70-88 | a completion firing keeps every complaint held (each id held before is held after) and their number; free vehicles plus scheduled completions grow by one exactly when a complaint was waiting; the history gains the resolved complaint; the queue is unchanged |
| `Dispatch.InitialIsConsistent` | index.js:8-11 | the initial state satisfies the invariant and has the two vehicles |
| `Dispatch.AddComplaintConsistent` | index.js:14-18 | addComplaint preserves the invariant (in particular the queue stays sorted) |
| `Dispatch.RemoveComplaintConsistent` | index.js:21-29 | removeComplaint preserves the invariant |
| `Dispatch.ResolveComplaintsConsistent` | index.js:45-67 | resolveComplaints preserves the invariant |
| `Dispatch.FireTimerConsistent` | index.js:70-89 | a completion firing preserves the invariant |
| `ComplaintQueues.ComplaintQueue.constructor` | complaintQueue.js:13-15 | starts empty |
| `ComplaintQueues.ComplaintQueue.Enqueue` | complaintQueue.js:18-28 | the scan-and-splice loop leaves the queue equal to `Insert` of the old queue and the complaint |
| `ComplaintQueues.EnqueuePlacement` | complaintQueue.js:18-27 | the queue grows by one; removing the new complaint gives back the old queue; every complaint before it has priority at least its own; it sits at the end or right before a complaint of strictly lower priority |
| `ComplaintQueues.EnqueueKeepsOrder` | complaintQueue.js:18-28 | on a sorted queue, enqueue keeps it sorted, and the new complaint follows all earlier ones of equal priority |
| `ComplaintQueues.EnqueueAllSorts` | complaintQueue.js:18-28 | enqueueing complaints one by one gives the same queue as appending them and sorting stably, as addComplaint does |
| `ComplaintQueues.ComplaintQueue.Dequeue` | complaintQueue.js:31-33 | returns and removes the front complaint; on an empty queue returns undefined and changes nothing |
| `ComplaintQueues.DequeueTakesHighest` | complaintQueue.js:30-33 | on a queue in descending order, dequeue returns a complaint of the highest priority, the oldest of that priority, and the rest stays in order |
| `ComplaintQueues.ComplaintQueue.IsEmpty` | complaintQueue.js:35-37 | true exactly when the queue has no complaints |
| `ComplaintQueues.ComplaintQueue.GetComplaints` | complaintQueue.js:39-41 | the complaints in queue order |
| `PriorityOrder.InsertionPoint` | complaintQueue.js:20-26 | the scan stops at the first complaint of strictly lower priority, or at the end; everything before that point has priority at least the new one |
| `PriorityOrder.InsertionPointUnique` | complaintQueue.js:20-26 | any position meeting the scan's stopping rule is the insertion point |
| `PriorityOrder.Insert` | complaintQueue.js:18-28 | one longer, with the new element at the insertion point |
| `PriorityOrder.InsertThenRemove` | complaintQueue.js:22 | taking the inserted element out again gives back the old sequence: the others keep their relative order |
| `PriorityOrder.InsertAtEnd` | complaintQueue.js:27 | an element no more urgent than every other one is appended at the end |
| `PriorityOrder.InsertIsPermutation` | complaintQueue.js:18-28 | insertion adds exactly the new element |
| `PriorityOrder.InsertKeepsOrder` | complaintQueue.js:18-28 | insertion into a sorted sequence keeps it sorted |
| `PriorityOrder.InsertIsStable` | complaintQueue.js:18-28 | insertion into a sorted sequence puts the new element after all elements of its priority |
| `PriorityOrder.SortByPriority` | index.js:17 | the result is sorted by descending priority and is a permutation of the input |
| `PriorityOrder.SortIsStable` | index.js:17 | within each priority, the sort keeps input order |
| `PriorityOrder.OrderedAndStableIsUnique` | index.js:17 | two sorted sequences that agree on every priority class are equal |
| `PriorityOrder.StableSortIsUnique` | index.js:17 | any sorted output that keeps input order within each priority equals `SortByPriority` of the input |
| `PriorityOrder.SameClassesSameSort` | index.js:17 | inputs that agree on every priority class sort to the same output |
| `PriorityOrder.SortOfOrdered` | index.js:17 | sorting an already sorted queue changes nothing |
| `PriorityOrder.SortAfterAppend` | index.js:16-17 | push then sort on a sorted queue equals insertion at the insertion point |
| `PriorityOrder.DeleteKeepsOrder` | index.js:24 | splicing one element out of a sorted queue keeps it sorted |
| `PriorityOrder.WithPriorityAppend` | index.js:16 | a pushed complaint joins the end of its own priority class |
| `ComplaintStacks.ComplaintStack.constructor` | complaintStack.js:3-5 | starts empty |
| `ComplaintStacks.ComplaintStack.Push` | complaintStack.js:8-10 | the complaint is appended on top |
| `ComplaintStacks.ComplaintStack.Pop` | complaintStack.js:13-15 | returns and removes the top; undefined and no change on an empty stack |
| `ComplaintStacks.ComplaintStack.GetHistory` | complaintStack.js:17-19 | the stack in push order, oldest first |
| `ComplaintStacks.PushOnTop` | complaintStack.js:8-10 | push grows the stack by one, with the complaint on top and the earlier entries unchanged |
| `ComplaintStacks.PopTakesTop` | complaintStack.js:13-15 | pop on an empty stack returns undefined and leaves it empty; otherwise it returns the latest push and shrinks the stack by one |
| `ComplaintStacks.PushPopRoundTrip` | complaintStack.js:8-15 | push then pop returns the pushed complaint and restores the stack; pop then re-push restores it too |
| `ComplaintStacks.PopAll` | complaintStack.js:13-15 | popping everything returns the entries newest first |

## Left out

- HTTP endpoints (index.js:92-137): transport glue. Only the guard at index.js:117 touches core state, and it just skips `resolveComplaints` on an empty queue. `ResolveComplaintsIdempotent` covers that case.
- `logComplaint`, every `console.log`, and fileHandler.js: file and console output. A throwing `fs.writeFileSync`/`fs.appendFileSync` (index.js:38, 41) is not modelled either; it would abort the calling operation partway. A throw at index.js:55 would lose a vehicle and a complaint already shifted out, with no timer scheduled. A throw at index.js:72 would leave the complaint out of the history and the vehicle out of the pool.
- Timer delays: the 10000 ms delay and wall-clock ordering are not modelled. Scheduled completions are a list, and any of them may fire next (`FireTimer(k)`).
- Clock reads: the `new Date()` timestamp of complaintQueue.js:8 is a parameter. The dates in log lines are left out with the logging.
- `parseInt` and non-numeric priorities (index.js:15; complaintQueue.js:6, 21): priorities are integers. ComplaintQueue stores `priority` unparsed and compares it with `>`, so string priorities would compare as text (`"10" > "9"` is false); that is not modelled. JavaScript numbers are doubles, so precision loss of the comparator `b.priority - a.priority` beyond 2^53 is not modelled.
- Object identity: complaints are values. Mutation in place is modelled by updating the value at the single place that holds it.
- `ComplaintQueues.ComplaintQueue.GetComplaints`: returns the queue's value. The source returns the live internal array, and later changes made through that alias are not modelled.
- `ComplaintStacks.ComplaintStack.GetHistory`: returns the stack's value. The source returns the live internal array, and later changes made through that alias are not modelled.
- Invariants the code does not enforce: unique ids, errors for cancelling a non-queued complaint or releasing an unknown vehicle, and "each vehicle free or assigned, never both". The last one is false in the code, as `ReassignedVehicleStaysAvailable` shows.
- Concurrency: the dispatcher functions contain no `await`, so each runs to completion. Methods are atomic steps, and timer callbacks interleave only between them.
