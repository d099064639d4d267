# The dagorama broker, verified

dagorama runs chained Python calls on a pool of workers. A client turns each decorated call into a node of a graph; a
broker keeps the graph, hands nodes whose sources are complete to workers, retries the ones that fail after a wait,
takes work back from workers that stop pinging, and stores results. This project models that broker, the part of the
client that decides what is sent and what a worker computes, and the relinking of a stored graph, and proves what the
design promises about them.

## How it is built

Three layers, each connected to the next by proofs.

1. **Values** (`Model`). The broker's memory as one value, and for each operation the function that says what it does to
   that value. What the program leaves open (the order in which Go ranges over a map, which of several equal jobs a
   heap yields) is an argument.
2. **Runs** (`Safety`, `SafetyOfSteps`, `Runs`, `Once`, `OnceSteps`, `OnceTicks`, `Discipline`, `Leases`). The broker with
   its clients, workers and clock as a state machine whose events are the remote calls and the two background ticks; a
   tick of the drain loop that waits for its own lock is an event too. Two invariants are kept by every event: a weak one
   (`Sound`) for all runs, with repeated sources and repeated answers allowed, and a strong one (`OnceEach`) for
   disciplined runs, in which a call lists each source once and a worker answers each message once, as late as it likes.
   The theorems are in `Schedules`, `Results`, `Completions`, `Attempts`, `Quiescence`, `Progress`, `Spacing`,
   `Collection`, `Draining`, `Stalls`, `Priorities`, `Duplicates` and `LateFailures`. `Histories` has disciplined runs from
   the empty broker moment by moment: `At(es, k)` is the system after the first k events. `Scenarios` and
   `RepeatedSource` are example runs, event by event. `Ledger` reads off the requests alone, without any state, what the
   broker should hold; `LedgerSteps` and `LedgerHolds` prove that after every run it does, field by field, and
   `AsRequested` and `Taints` say what callers then get.
3. **Objects** (`Retry`, `Heap`, `Broker`, `Server`, `Persistence`). The program's own objects, updated in place: policies
   that count, heaps of job objects with index fields, nodes, workers and instances that point at each other, the
   broker with its tables, the server's handlers. Each method is proved to do to the objects what `Model` says it does
   to their values; `Effects` holds the map arithmetic these proofs need.

`Session` ties the layers together: a server driven by events that its callers may send is, after every call and tick,
in exactly the state of the run of the events so far, and that run is disciplined as long as its callers are
(`Session.Session.DisciplinedSession`). `Client` adds the plain Python program, and
`Session.Session.ObjectsHoldPlainResults` is the claim of the repository's README (lines 5-8 and 160) on the objects:
every completed node object holds the value that running the program call by call gives it. `Names` is the conversion
between field names and column names; `Inspection` is promises inside call arguments.

Time is in milliseconds, one clock reading per event, never going backwards. Identifiers, the time and the jitter of a
backoff are arguments.

## Assumptions on callers

These are the guards of `Runs.Enabled`, `Discipline.Disciplined` and the `requires` of the handlers; the code does not
check them.

- Identifiers of new workers, instances and nodes are new; the instance of a call exists; the sources of a new node exist
  in its instance. Looking up anything that is not there yields a nil pointer in the program.
- In a run no queue has the empty name and orders stay below the largest 64-bit integer: both are sentinels in
  PopNextNode. The method itself asks for neither; its contract says what the sentinels do.
- A worker answers only messages it was sent. For the strong invariant it answers each once, and a call lists no source
  twice.

Nothing is assumed of the broker's memory. A tick that comes to its end and a tick that waits for its own lock are two
events, and after the second a call that would push onto the future heap does not return, so it is no event any more.

## What the proofs found

- A call that receives the same promise in two arguments lists that source twice (find_promises does not remove
  repetitions), and the node is then queued twice when the source completes. It is queued once if and only if the last
  source is listed once (`Duplicates.QueuedOnceIffListedOnce`; `RepeatedSource.SameSourceTwiceIsQueuedTwice` is a run).
- The server does not ask whether a node is already completed or who holds it. A second answer pushes again every
  destination whose sources are all complete, onto its queue or, during a backoff, onto the future heap, and goes
  unnoticed if and only if there is none (`Duplicates.SecondAnswerQueuesAgain`;
  `RepeatedSource.SecondAnswerDuringBackoff` is a run). Results stay right even then
  (`Schedules.ScheduleIndependence` does not assume discipline).
- Nor does the server ask where a node is whose failure is reported. Any report that is not fenced records a failure and,
  if and only if the policy has an attempt left, uses it and delays the node once more, even a completed or queued one
  (`LateFailures.FailureAddsJobIff`); jobs the node already had in the future heap are then overtaken until the new time
  (`LateFailures.FailureOvertakes`).
- The drain loop can wait for the lock it holds. A tick does so if and only if some due job has been overtaken by a later
  retry time of its node, and comes to its end if and only if there is none (`Stalls.TickStallsIffOvertaken`, and
  `Broker.Broker.QueueFutureScheduledExecute` on the objects). It never happens in a disciplined run
  (`Discipline.NeverStalls`); it does in a run with one repeated promise (`RepeatedSource.TickWaitsForItself`), and then
  the future heap never changes again (`Stalls.StalledForever`).
- The documentation says that earlier instances complete before later ones. The code hands nodes out in that order
  (`Priorities.OldestInstanceFirst`), but a node completes exactly when an answer for it is accepted
  (`Completions.CompletedIffAnswered`): instances complete in order if and only if their answers are accepted in order
  (`Completions.InstanceOrderIffAnswerOrder`), and there is a run in which they are not
  (`Completions.LaterInstanceMayFinishFirst`).
- A queue has the taint of the node with which it was made, and a worker is asked for that taint only. It can be handed a
  node whose own taint it does not tolerate (`Taints.TaintedNodeIsHandedOut` is a run); whatever its lists it never is if
  and only if the node has no taint or that of its queue (`Taints.TaintHoldsIff`), as when all requests for a queue agree
  (`Taints.NoWorkAgainstTaint`).
- Exponential waits never shrink, whatever the jitter, if and only if the base is at least two
  (`Retry.WaitsNeverShrinkIffBaseAtLeastTwo`).
- Loading a stored graph stops on a nil pointer exactly when a node without its instance names a node that is there
  (`Persistence.Load`). A node that survives loading has no empty slot, but it can point at a node that was dropped
  (`Persistence.LoadWithAGap`). The nodes kept point at one another only if and only if every row that a surviving row
  names has all its own links there (`Persistence.ClosedIffNamesResolve`, on objects in `Persistence.Load`); from a
  snapshot of a whole graph nothing is dropped.
- A field name survives the conversion to a column name and back if and only if it has no underscore, does not start with
  a small letter, and each later capital is not last and has a small neighbour (`Names.RoundTripIff`).
- Two field names can share a column: "AB" and "Ab" do (`Names.CollisionOutside`). Names without underscores share one if
  and only if they have the same length, are equal up to case, and start words at the same letters
  (`Names.PlainSameColumnIff`); in general an underscore counts as the start of a word (`Names.SameColumnIff`).
- The comment on `lastPing` says milliseconds (broker/broker.go:18); the code stores seconds (broker/broker.go:41), and
  so does the model.

## Model

| member | source | states |
|---|---|---|
| Basics.FilterSlice | broker/utilities.go:3-13 | the loop keeps exactly the elements that satisfy the test, in order |
| Basics.FilterAppends | broker/utilities.go:3-13 | filtering goes through a list piece by piece and keeps its order |
| Basics.Contains | broker/utilities.go:15-22 | true exactly if the element is in the slice |
| Retry.RetryPolicy.Static | broker/retry.go:25-32 | a policy with a fixed interval starts with no attempt made |
| Retry.RetryPolicy.Exponential | broker/retry.go:34-41 | a policy with an exponential base starts with no attempt made |
| Retry.RetryPolicy.GetWaitIntervalMilliseconds | broker/retry.go:43-66 | the wait is that of the attempt before the call, and the deferred increment runs on every path below the cap; what that wait is in terms of the request, AsRequested.DelayAsRequested says |
| Retry.PowAdds | broker/retry.go:61-61 | the power used: its base at one, and sums of exponents become products |
| Retry.AfterCallsCounts | broker/retry.go:51-55 | after k failures the counter is min(k, max(maxAttempts, 0)) |
| Retry.WaitGranted | broker/retry.go:51-65 | a policy the server can build grants a wait exactly below its cap, and then at least a second |
| Retry.RetriesExactlyTheBudget | broker/retry.go:51-65 | exactly the first max(maxAttempts, 0) failures are forgiven |
| Retry.ExponentialWaitBounds | broker/retry.go:59-62 | the wait lies between base^k seconds and one second more |
| Retry.WaitsNeverShrinkIffBaseAtLeastTwo | broker/retry.go:59-62 | successive waits never shrink, for any jitter, if and only if the base is at least two |
| Retry.TotalWaitIsGeometric | broker/retry.go:59-62 | the sum of the first n waits has the closed-form geometric bounds |
| Heap.HeapQueue.constructor | broker/heap.go:36-43 | a new queue is a valid empty heap without a taint |
| Heap.HeapQueue.Less | broker/heap.go:101-105 | compares the priorities of two slots |
| Heap.HeapQueue.Swap | broker/heap.go:107-112 | exchanges two slots and keeps every index field equal to its slot |
| Heap.HeapQueue.Up | broker/heap.go:90-112 | sifting up restores heap order, keeps the jobs and the index fields |
| Heap.HeapQueue.Down | broker/heap.go:90-112 | sifting down restores heap order below the slot, or says that it was already there |
| Heap.HeapQueue.Push | broker/heap.go:114-120 | appending with the right index and sifting up gives a heap with one job more |
| Heap.HeapQueue.CutLast | broker/heap.go:122-129 | cuts the last slot off and leaves the others in place |
| Heap.HeapQueue.Pop | broker/heap.go:68-75 | removes a job of least priority and nothing else |
| Heap.HeapQueue.PushItem | broker/heap.go:45-56 | adds exactly one job for the node at the given priority |
| Heap.HeapQueue.PopItem | broker/heap.go:68-75 | null exactly if the queue is empty, otherwise removes and returns a least job |
| Heap.HeapQueue.PeekItem | broker/heap.go:77-84 | null exactly if the queue is empty, otherwise a least job, which stays |
| Heap.HeapQueue.Length | broker/heap.go:86-88 | the number of jobs, repetitions included |
| Heap.HeapQueue.UpdateItem | broker/heap.go:58-66 | trades one job for its new node and priority and keeps heap order and indices |
| Heap.RootIsLeast | broker/heap.go:77-84 | in heap order no slot comes before the root |
| Heap.OrderedMeansLeast | broker/heap.go:77-84 | so the root is a least job of the whole multiset |
| Heap.PopAll | broker/heap.go:68-75 | calling PopItem until it answers nil gives every job of the queue, as often as it was pushed, in order of priority |
| Inspection.Finder.Visit | dagorama/inspection.py:50-84 | the traversal appends the promises of a value, depth first, to the shared list |
| Inspection.FindPromises | dagorama/inspection.py:6-21 | finds every promise in the value, in order, repetitions included |
| Inspection.ResolveIsSubstitution | dagorama/inspection.py:24-35 | resolving succeeds exactly if the map covers the promises found, and is then plain substitution; otherwise it raises |
| Inspection.ExtractKeepsMeaning | dagorama/inspection.py:38-47 | extraction never fails, keeps the sequence of identifiers, and commutes with substitution |
| Inspection.ResolveAfterExtract | dagorama/models/arguments.py:27-35 | resolving the extracted arguments gives what resolving the original ones gives, errors included |
| Inspection.HashableIsUntouched | dagorama/inspection.py:64-68 | nothing that a Python set can hold contains a promise or is changed by mapping |
| Broker.Worker.Ping | broker/broker.go:40-42 | sets the last ping to the current second and nothing else |
| Broker.Broker.constructor | broker/broker.go:95-107 | a new broker is valid and empty |
| Broker.Broker.NewWorker | broker/broker.go:119-140 | adds one worker with empty claims and cache that has just pinged |
| Broker.Broker.NewInstance | broker/broker.go:142-161 | adds one instance whose order is the number of instances before it |
| Broker.Broker.EnqueueNode | broker/broker.go:177-219 | a node whose retry time is ahead goes to the future heap at that time; any other goes to its own queue at its instance's order with its retry time cleared |
| Broker.Broker.EnsureQueue | broker/broker.go:193-204 | a missing queue is created with the node's taint, and then every cached queue list is emptied |
| Broker.Broker.ForgetAllowed | broker/broker.go:199-203 | the loop empties the cache of every worker and changes nothing else of them |
| Broker.Broker.BackoffNode | broker/broker.go:221-239 | no policy or no attempts left: the node stays out; otherwise it is enqueued for now plus the wait |
| Broker.Broker.ComputeAllowed | broker/broker.go:456-483 | the three filters leave exactly the included, not excluded, tolerated queues |
| Broker.Broker.GetAllowedQueues | broker/broker.go:446-486 | returns the cached list, or computes and caches it |
| Broker.Broker.ScanQueues | broker/broker.go:247-268 | finds an allowed queue whose least job is least of all and below the largest priority; no queue only if there is no such job or its queue has the empty name |
| Broker.Broker.PopNextNode | broker/broker.go:241-283 | hands out the node of a least job of all queues the worker may use and records the claim on both sides; null only if no usable job is below the largest priority or the queue with the empty name has a least job |
| Broker.Broker.ReclaimAll | broker/broker.go:301-305 | the inner loop frees and enqueues the worker's nodes one by one |
| Broker.Broker.CollectWorker | broker/broker.go:297-309 | a worker whose ping is too old loses its claims and is fenced; any other is untouched |
| Broker.Broker.GarbageCollectWorkersExecute | broker/broker.go:295-311 | every worker is looked at once, in some order |
| Broker.Broker.QueueFutureScheduledExecute | broker/broker.go:324-350 | pops and enqueues due jobs, least first, until none is due; it stops at its own lock instead if and only if some due job has been overtaken by a later retry time of its node |
| Broker.DAGNode.ExecutionDidResolve | broker/dag_node.go:62-83 | stores the value, completes the node, frees it, and notifies its destinations in order |
| Broker.Broker.Notify | broker/dag_node.go:73-77 | the loop over the destinations |
| Broker.DAGNode.ExecutionDidFail | broker/dag_node.go:85-105 | frees the node, records the failure and backs off |
| Broker.DAGNode.ReleaseWorkerLock | broker/dag_node.go:107-125 | the node leaves its holder's claims and forgets its holder |
| Broker.DAGNode.DependencyDidResolve | broker/dag_node.go:127-144 | the node is enqueued exactly if all its sources are completed |
| Broker.DAGInstance.NewNode | broker/dag_instance.go:28-72 | the node enters the graph with one back-link per listed source and is looked at once |
| Broker.Broker.LinkAll | broker/dag_instance.go:60-63 | the back-link loop |
| Broker.DAGInstance.GetNode | broker/dag_instance.go:74-79 | null exactly if the instance has no node of that identifier |
| Broker.Broker.NodeFound | broker/dag_instance.go:74-79 | every node is found under its identifier in its own instance, as that very object |
| Broker.Broker.PointersKnown | broker/dag_node.go:16-60 | sources, destinations and claims always lead to registered nodes |
| Server.BrokerServer.constructor | broker/server.go:15-27 | a new server has a valid empty broker |
| Server.BrokerServer.CreateWorker | broker/server.go:29-33 | registers the worker with the three lists of the request |
| Server.BrokerServer.CreateInstance | broker/server.go:35-39 | registers the instance |
| Server.BrokerServer.CreateNode | broker/server.go:41-71 | the new node object has the fields of the request, and as sources the nodes of the identifiers listed, in order; the reply tells its fields |
| Server.BrokerServer.PolicyFor | broker/server.go:51-58 | a static policy if an interval is given, else an exponential one if a base is given, else none |
| Server.BrokerServer.Ping | broker/server.go:73-81 | updates and returns the last ping |
| Server.BrokerServer.GetNode | broker/server.go:83-89 | the reply tells the fields of the node object, result and completion included, and those of its sources |
| Server.BrokerServer.GetWork | broker/server.go:91-106 | an error for a fenced worker or if there is nothing for it, otherwise a message that tells the fields of the node claimed |
| Server.BrokerServer.SubmitWork | broker/server.go:108-121 | an error and no change for a fenced worker, otherwise the node resolves |
| Server.BrokerServer.SubmitFailure | broker/server.go:123-136 | an error and no change for a fenced worker, otherwise the node fails |
| Server.BrokerServer.NodeToMessage | broker/server.go:138-165 | the message has each field of the node object and one entry per source object, in order, with its identifier, value and completion |
| Safety.EnqueueKeepsSound | broker/broker.go:177-219 | enqueueing a node whose sources are complete keeps the invariant of all runs |
| Safety.ResolveKeepsSound | broker/dag_node.go:62-83 | so does resolving, even a second time |
| Safety.FailKeepsSound | broker/dag_node.go:85-105 | so does failing |
| SafetyOfSteps.NewNodeKeepsSound | broker/dag_instance.go:28-72 | so does creating a node: the graph stays acyclic, and back-links mirror sources with multiplicity |
| SafetyOfSteps.ClaimKeepsSound | broker/broker.go:275-280 | so does handing out, and what is handed out has all its sources completed |
| SafetyOfSteps.CollectAllKeepsSound | broker/broker.go:295-311 | so does collecting workers |
| SafetyOfSteps.DrainAllKeepsSound | broker/broker.go:324-350 | so does draining |
| Runs.AfterKeeps | broker/server.go:29-136 | every event keeps the invariant, forgets no node, changes no declaration and undoes no completion |
| Runs.NextKeepsSound | broker/server.go:91-151 | in every run queued, delayed, claimed and completed nodes have all sources completed, and messages describe such nodes |
| OnceSteps.NewNodeKeepsOnce | broker/dag_instance.go:65-69 | a new node is ready, once, if its sources are all completed, and waiting otherwise; every node stays in one place |
| OnceSteps.ClaimKeepsOnce | broker/broker.go:275-280 | a handed-out node moves from its queue to one worker, no other node moves, and every node stays in one place |
| OnceSteps.ResolveKeepsOnce | broker/dag_node.go:62-144 | a resolved node moves to completed, exactly the nodes whose last source it was move to ready, once, and every node stays in one place |
| OnceTicks.FailKeepsOnce | broker/dag_node.go:85-105 | a failed node moves to the future heap or, without a retry, out of everything; its counter follows its failures; every node stays in one place |
| OnceTicks.CollectAllKeepsOnce | broker/broker.go:295-311 | collecting keeps every node in exactly one place |
| Discipline.NeverStalls | broker/broker.go:184-188 | in a disciplined run no tick waits for the lock it holds |
| OnceTicks.DrainAllKeepsOnce | broker/broker.go:324-350 | draining keeps every node in exactly one place |
| Leases.NextKeepsOnce | broker/server.go:29-136 | every disciplined event keeps the strong invariant |
| Leases.FencedAnswerChangesNothing | broker/server.go:112-114 | an answer of a collected worker changes nothing, even if the node is already held by another |
| Leases.DisciplinedIsRun | broker/server.go:29-136 | disciplined runs are runs and end in the strong invariant |
| Schedules.ScheduleIndependence | broker/server.go:91-151 | whatever the schedule, with honest workers every completed node holds the recursive evaluation of the graph at that node |
| Schedules.TwoSchedulesAgree | broker/server.go:91-151 | two runs that declare the same nodes agree on every result both have |
| LedgerHolds.StateFollowsLedger | broker/server.go:29-151 | after any run each worker's lists, last ping and fence, each instance's order, and each node's declaration, policy, attempts, tracebacks, result, back-links and time stamp are what the requests and their times say |
| AsRequested.TickFencesTheOverdue | broker/broker.go:295-311 | a tick fences a worker if and only if more than sixty whole seconds lie between the second of its last ping, or registration, and that of the tick |
| AsRequested.FencedIffOverdue | broker/broker.go:297-308 | a worker is fenced if and only if some tick has found it overdue |
| AsRequested.ResultIsLastAnswer | broker/dag_node.go:62-68 | in any run a node is completed if and only if an answer was accepted, and holds the value of the last one |
| AsRequested.HandOutAsRequested | broker/broker.go:241-283 | what a worker gets lies in a queue that the lists of its own registration allow, and nothing in such a queue belongs to an instance created before |
| AsRequested.MessageIsAsRequested | broker/server.go:138-165 | a message says of a node and its sources what the creating request and the last accepted answers said |
| AsRequested.DelayAsRequested | broker/broker.go:221-239 | an accepted failure delays the node exactly if the retry message of its creation grants a wait, by the static interval in seconds or base^failures seconds and the jitter, rounded |
| AsRequested.StaticDelay | broker/retry.go:57-58 | with a static interval of s seconds the delayed job is due exactly 1000 * s milliseconds after the failure |
| Taints.EventTaint | broker/broker.go:193-204 | no event changes the taint of a queue; a new queue gets that of one of its own nodes |
| Taints.QueueTaintIsRequested | broker/broker.go:194-197 | if all requests for a queue name one taint, that is the queue's taint |
| Taints.TaintHoldsIff | broker/broker.go:470-483 | whatever its lists, no worker that may use a queue fails to tolerate a node in it if and only if the node has no taint or that of the queue |
| Taints.TaintedNodeIsHandedOut | broker/broker.go:193-197 | a run in which a worker holds a node whose own taint it does not tolerate |
| Taints.NoWorkAgainstTaint | broker/broker.go:456-483 | where they do, no worker is handed a node whose taint it does not tolerate |
| Results.ResultsAreFinal | broker/dag_node.go:66-68 | a completed node stays completed with its value, over any disciplined continuation |
| Results.ExactlyOnePlace | broker/broker.go:177-239 | at every moment of every disciplined run each node is waiting, ready, delayed, claimed, completed or abandoned: exactly one, and once |
| Results.LeaseFencing | broker/server.go:91-136 | at every moment of every disciplined run what a worker was handed and has not answered is exactly what it holds, both ways; a fenced worker holds nothing |
| Results.CompletionsFollowAnswers | broker/server.go:108-121 | an accepted answer completes its node and no other |
| Completions.CompletedIffAnswered | broker/server.go:108-121 | at every moment of every disciplined run a node is completed if and only if an answer for it has been accepted |
| Completions.CompletesIffAnswered | broker/server.go:108-121 | an incomplete node is completed at a later moment if and only if an answer for it is accepted in between |
| Completions.InstanceOrderIffAnswerOrder | broker/broker.go:142-153 | earlier instances complete before later ones, at every moment of a run, if and only if their answers are accepted in that order |
| Completions.LaterInstanceMayFinishFirst | broker/broker.go:142-153 | a run in which a node of the second instance is completed and one of the first is not |
| Results.FailureAttempts | broker/broker.go:221-239 | a failure adds one record, abandons the node exactly if the budget was used up, and otherwise delays it by a second at least |
| Attempts.FailuresAreReports | broker/dag_node.go:85-105 | over any disciplined run a node's failures are the accepted reports of it: a collected worker costs its node no attempt |
| Attempts.RetryBudget | broker/retry.go:51-55 | at every moment of every disciplined run accepted failures exceed the budget by one at most, exactly for abandoned nodes, and the counter is min(failures, budget) |
| Spacing.BackoffSpacing | broker/broker.go:230-238 | in a disciplined run from the empty broker, after a failure with a granted wait the node is not handed out before that wait has passed, whatever happens in between, further failures included |
| Spacing.KthWait | broker/retry.go:59-62 | in such a run that wait is base^k seconds plus jitter, k being the number of failures accepted before |
| Spacing.WaitAsRequested | broker/retry.go:51-65 | in such a run a granted wait is the one the retry message of the node's creation asks for, to the millisecond |
| Spacing.BudgetAsRequested | broker/retry.go:51-55 | in such a run a node is abandoned exactly by the failure after the max(maxAttempts, 0) that its retry message forgives |
| Spacing.StaticWait | broker/retry.go:57-58 | asked for a static interval of s seconds, every granted wait is exactly 1000 * s milliseconds |
| Spacing.ClaimAfterNotBefore | broker/broker.go:341-348 | in such a run nothing is handed out before its time |
| Quiescence.QuiescenceMeansDone | broker/dag_node.go:127-144 | at any moment of a run at which nothing is ready, delayed or claimed, a node is completed if and only if no source of it, at any depth, nor itself is abandoned |
| Quiescence.BlockedNeverCompletes | broker/dag_node.go:127-144 | at no moment of a run is a node with an abandoned transitive source completed |
| Quiescence.BlockedHasPath | broker/broker.go:225-234 | a blocked node comes with a path of sources to an abandoned one |
| Progress.WorkIsBounded | broker/broker.go:221-350 | claims, accepted answers and drained jobs of a run are at most the initial measure plus what new nodes and reclaims add |
| Progress.EventPays | broker/broker.go:221-350 | each event's productive work is paid for by the measure |
| Collection.CollectionIsExact | broker/broker.go:295-311 | one pass unclaims exactly the claims of dead workers and touches no other node, worker or delayed job |
| Collection.CollectionConservesWork | broker/broker.go:300-305 | each reclaimed node is put into its own queue exactly once, and nothing else is queued |
| Collection.CollectionIsIdempotent | broker/broker.go:295-311 | a second pass at the same time changes nothing |
| Collection.CollectionIsOrderFree | broker/broker.go:296-296 | in whatever order the map of workers is ranged over, the state after the pass is the same |
| Draining.DrainConserves | broker/broker.go:335-349 | popped and remaining jobs make up the old heap, and jobs come out in order of time |
| Draining.DrainMovesExactlyTheDue | broker/broker.go:341-348 | a tick moves exactly the jobs due at its time and leaves exactly the later ones |
| Draining.DrainIsExact | broker/broker.go:206-212 | it clears the retry time of exactly the nodes that are due and queues each once |
| Stalls.TickStallsIffOvertaken | broker/broker.go:332-348 | in any run a tick can wait for its own lock if and only if some due job's node has got a later retry time, and can come to its end if and only if none has |
| Stalls.StalledForever | broker/broker.go:184-188 | once a tick waits for its own lock, no event changes the future heap any more and no tick happens |
| Priorities.CacheIsCurrent | broker/broker.go:452-484 | in every run, with or without its cache, a worker sees exactly the queues its lists allow now |
| Priorities.OldestInstanceFirst | broker/broker.go:253-268 | no ready node the worker may take belongs to an older instance than the one handed out |
| Priorities.SentAwayMeansNothingReady | broker/broker.go:270-273 | there is nothing for a worker if and only if no node is ready in a queue it may use |
| Priorities.EarlierInstanceSmallerOrder | broker/broker.go:142-153 | over any run an earlier instance keeps a smaller order than every later one |
| Duplicates.AnswerPushes | broker/dag_node.go:62-144 | an answer, first or not, pushes a node once per mention among the destinations if its sources are then complete, and not at all otherwise |
| Duplicates.QueuedOnceIffListedOnce | broker/dag_instance.go:61-63 | a node, of which there was no job, is pushed as often as it lists its last source |
| Duplicates.SecondAnswerQueuesAgain | broker/server.go:108-121 | a second answer pushes every destination with complete sources again, onto queue or future heap, and leaves a node's jobs alone exactly if it is no such destination |
| LateFailures.FailureIsCharged | broker/dag_node.go:85-105 | a failure of any node, wherever it is: no queue changes, one record more, the holder loses the node, and one delayed job more exactly for a granted retry |
| LateFailures.FailureInAnyRun | broker/server.go:123-136 | every report that is not fenced does just that, in every run |
| LateFailures.FailureCosts | broker/retry.go:51-55 | the result stays, no other node changes, and the counter moves exactly if it is below its cap |
| LateFailures.FailureAddsJobIff | broker/broker.go:221-239 | no queue or heap gets a job if and only if there is no policy with an attempt left |
| LateFailures.FailureOvertakes | broker/broker.go:235-238 | the node's earlier jobs in the future heap, and no others, become overtaken, from their time until the new one |
| RepeatedSource.SameSourceTwiceIsQueuedTwice | dagorama/inspection.py:13-21 | a run from the empty broker in which a repeated promise queues its node twice |
| RepeatedSource.SecondAnswerDuringBackoff | broker/server.go:108-121 | a run in which a second answer pushes a delayed destination onto the future heap again |
| RepeatedSource.TickWaitsForItself | broker/broker.go:332-348 | a run in which a repeated promise makes the drain loop wait for the lock it holds |
| Histories.AtIsOnce | broker/server.go:29-136 | the strong invariant holds at every moment of every disciplined run from the empty broker |
| Histories.RunSnoc | broker/server.go:29-136 | a disciplined run can be continued by any event that may happen in the state it ends in |
| Session.Session.constructor | broker/server.go:15-27 | the object server starts where runs start |
| Session.Session.CreateWorker | broker/server.go:29-33 | the handler is the event of that name |
| Session.Session.CreateInstance | broker/server.go:35-39 | the handler is the event of that name |
| Session.Session.CreateNode | broker/server.go:41-71 | the handler is the event of that name, for a node object with the fields of the request |
| Session.Session.Ping | broker/server.go:73-81 | the handler is the event of that name |
| Session.Session.GetWork | broker/server.go:91-106 | the handler is the claim of the node it returns, described as its creator and the accepted answers described it, or the event that nothing was handed out; it refuses exactly the overdue workers |
| Session.Session.SubmitWork | broker/server.go:108-121 | the handler is the event of that name; it refuses exactly the workers that a tick found overdue, and its reply says what the requests so far said |
| Session.Session.SubmitFailure | broker/server.go:123-136 | the handler is the event of that name, with the same refusals and the same kind of reply |
| Session.Session.CollectWorkers | broker/broker.go:285-293 | one tick of the collector is one event of the run |
| Session.Session.QueueFuture | broker/broker.go:313-322 | one tick of the drain is one event of the run, the one that stalls or the one that does not; it stalls in no disciplined run |
| Session.Session.DisciplinedSession | broker/server.go:29-136 | after disciplined events only the objects are in the state of that disciplined run, which has the strong invariant |
| Session.Session.GetNode | broker/server.go:83-89 | reading a node is no event, and the reply is what the requests so far say of it |
| Session.Session.ReplyIsPlainResult | dagorama/definition.py:120-149 | with honest workers GetNode answers completed exactly if an answer was accepted, and then with the value of the call in plain Python |
| Session.Session.ObjectsHoldPlainResults | README.md:5-8 | if the requests are those of a program and the workers honest, every completed node object holds the value the plain Python program gives its call, also with repeated sources and answers and with a stalled drain |
| Client.Queue | dagorama/decorators.py:154-197 | the request of a call has its name, the promises found as sources, the extracted arguments, and the function name as default queue |
| Client.WorkIsTheCall | dagorama/runner.py:82-114 | a worker that has a value for each source never meets an unexpected promise and calls the function with what the caller's arguments mean |
| Client.EvalIsPlain | dagorama/runner.py:84-91 | evaluating the graph with the workers' code is running the program call by call |
| Client.SameResultsAsPlainPython | README.md:160-160 | every completed call of any run holds the value of the plain program |
| Names.Underscore | broker/utilities_bun.go:23-38 | the loop turns each byte into its piece of the column name |
| Names.CamelCased | broker/utilities_bun.go:40-58 | the loop with its flag is the scan of the text |
| Names.ToExported | broker/utilities_bun.go:60-70 | only a small first letter changes, into its capital |
| Names.RoundTripIff | broker/utilities_bun.go:23-58 | converting to a column name and back is the identity on exactly the convertible names |
| Names.SameColumnIff | broker/utilities_bun.go:23-38 | two names share a column if and only if they have the same letters up to case and, before each, the same number of underscores, a start of a word counting as one |
| Names.PlainSameColumnIff | broker/utilities_bun.go:23-38 | two names without underscores share a column if and only if they are of one length, equal up to case, and start words at the same letters |
| Names.ColumnsAreDistinctIff | broker/database.go:123-127 | the columns of an update clause are distinct if and only if no two of its fields read the same in that sense |
| Names.UnderscoresWhereWordsStart | broker/utilities_bun.go:23-38 | a column name has the bytes of the field name, capitals made small, and one more underscore before each that starts a word, nowhere else |
| Names.CamelIsRaised | broker/utilities_bun.go:40-58 | CamelCased drops exactly the underscores and raises exactly the small letters at the beginning and after them |
| Names.ColumnsAreDistinct | broker/database.go:123-127 | different convertible field names never share a column in the update clause |
| Names.CollisionOutside | broker/utilities_bun.go:23-38 | two exported names that share a column, one of them convertible |
| Names.CamelIsExported | broker/utilities_bun.go:40-70 | without underscores CamelCased and ToExported agree |
| Persistence.ToRow | broker/dag_node.go:146-170 | the row has each field of the node object and the identifiers of its sources and of its destinations, in order |
| Persistence.Fill | broker/broker.go:404-425 | the inner loop fills slot by slot, notices every missing identifier, and stops exactly on a link of a node that is not there |
| Persistence.LinkRows | broker/broker.go:402-426 | all rows linked, with exactly the incomplete ones listed, or the nil pointer |
| Persistence.Load | broker/broker.go:368-438 | keeps exactly the nodes whose instance and links are all there, every slot being the one object made for its identifier; fails exactly on a dangling row; the nodes kept point only at one another if and only if the surviving rows name rows with all their links |
| Persistence.ClosedIffNamesResolve | broker/broker.go:381-433 | every link of every surviving row leads to a surviving row if and only if every row a surviving row names has all its own links |
| Persistence.NothingIsLost | broker/broker.go:381-433 | in a snapshot of a whole graph every row survives |
| Persistence.Reload | broker/broker.go:368-438 | loading the rows of a graph gives nodes with the declared fields, the slots filled with the loaded sources and destinations in order, and the same instance orders |
| Persistence.WriteAndLoad | broker/dag_node.go:146-170 | writing all objects of a broker and loading them copies every field and turns every pointer into a pointer to the copy |
| Persistence.LoadWithAGap | broker/broker.go:428-433 | loading a partial snapshot can keep a node that points at a dropped one |

## Left out

- gRPC transport and generated messages, configuration, logging, command line, launch scripts: plumbing around the calls.
- Real interleavings and locks: a call or tick is one atomic step. The one lock modelled is that of the future heap in the
  drain loop. Once that loop waits for itself, what a call that blocks on the same lock does before it blocks is left out.
- Postgres: rows are values, queries are left out, and scheduling is that of the memory mode.
- Recovery after a crash: loading does not restore completion, values, retry state or the instances' own node tables,
  and enqueues every surviving node, so a restart does not resume the same state; only the relinking is modelled.
- The retry and failure columns written by UpsertIntoDatabase, which loading does not read back.
- UUIDs, the wall clock and random numbers: new identifiers, nondecreasing times and jitters are arguments.
- Overflow: waits, orders and times are unbounded integers, and math.Pow is an exact power; the real program overflows for
  very large bases and attempt counts.
- Pickling, function hashes, reflection, typing and async wrappers in Python: arguments are trees, results are values.
- Functions that return promises of their own, and resolving a promise on the client after the run.
- The pull loop of the worker process (polling, sleeping, code mismatch): a worker is a sequence of GetWork and answers.
- Taints of single nodes: as in the code, a queue has the taint of its first node.
- The order among nodes of equal priority: neither the heap nor the scan over queues fixes it.
- Broker.Broker.NewInstance: expects a new identifier; the program overwrites the table entry of a repeated one, while
  nodes keep pointing at the old object, which a table of values by identifier cannot say.
- Broker.DAGInstance.NewNode: expects an identifier that no instance has used; the program overwrites a repeated one in
  its own instance and keeps both in different instances.
- Server.BrokerServer.CreateInstance: expects a new identifier, as Broker.Broker.NewInstance does; clients send fresh
  UUIDs.
- Server.BrokerServer.CreateNode: expects a new identifier, as Broker.DAGInstance.NewNode does; clients send fresh UUIDs.
- Client.SameResultsAsPlainPython: says nothing about calls that never complete; Quiescence says which those are.
