# Verified model of unstructured-runtime

unstructured-runtime turns an external client (Observe, Create, Update, Delete)
into a Kubernetes controller for objects known only at run time. This project
models the three parts of it in which concurrency, failures or arithmetic make
correctness hard to see, and proves what they promise in every run:

* **The concurrent priority queue.** A table of items by key and an ordered tree
  that must agree, the set of keys handed out, a waiter count, a one-slot wake-up
  channel, a timer, a shutdown flag and metrics. `Items`, `Metrics` and
  `QueueCore` hold the data and the critical sections as functions, `QueueRuns`
  says what batches of adds and whole scans amount to, `PriorityQueue` has the
  imperative code proved against those functions, and `Rendezvous` is the
  protocol: adders, getters, the spin goroutine, finishing workers and shutdown,
  interleaved at every point at which the code does not hold both locks.
  `QueueHistory` and `ScanRuns` carry the facts about adds and scans over to its runs.
* **The managed-resource protocol.** `Meta` has the markers, policies and
  finalizer lists; `Reconcile` the transition system of one worker, an API server
  with optimistic concurrency, a late external system, users and crashes;
  `Interrupted` and `Recovery` the recovery from creates whose outcome was never
  recorded; `Outcomes` says what a reconcile achieves.
* **The loop around them.** `Informer` and `Handlers` classify what the informer
  reports, `Dedup` is the digest map shared by callbacks and workers, `Accounts`
  reads it off the actions, `Limiter` and `Retry` are the backoff arithmetic and
  the retry bound, `Drain` the bounded shutdown of the whole controller.

A protocol is a function `Step` from a state and an action to the next state, or
None where the action cannot happen there; a run is a sequence of actions; each
main theorem speaks about every run. Clocks, random choices, the external client
and the API server's answers are arguments of the actions.

Where the code does not keep a promise, the model does what the code does, a
lemma exhibits the failing input, and another says when the promise holds:

* `RemoveFinalizer` ranges over the array it shifts. With a repeated finalizer it
  can leave one behind or exceed the slice bounds (`Meta.RepeatedFinalizers`); it is
  right exactly on the lists `Meta.StartOfRemoval` names.
* The overflow test of the backoff compares with `>` against a constant that
  float64 rounds up to 2^63; the product 2^63 itself slips through
  (`Limiter.BackoffIsCappedDoubling`).
* `Forget` runs before the retry check. With the limiter of `pkg/workqueue` the
  retry bound holds exactly for events that fail promptly
  (`Retry.DroppedExactlyIfPrompt`); a prompt `Forget` alone is not enough
  (`Retry.PromptForgetIsNotEnough`). With a limiter whose `Forget` always
  clears, which is what the builder installs by default, `WithMaxRetries` never
  drops anything, contrary to its documentation (`Retry.ClearingLimiterNeverDrops`).
* Recreating an object can leak the external resource: exactly while a Create
  reconcile that has orphaned the predecessor is between that write and its next
  fetch, with nothing left to recover (`Reconcile.RecreationLeaksExactly`,
  `Reconcile.RecreatedDuringOrphaningLeaks`).
* Markers have whole seconds. An announcement in the second of an earlier outcome
  is invisible to recovery (`Meta.AnnouncedCreateIsNoticed`,
  `Interrupted.SameSecondCreatesAgain`); the timing under which recovery is safe is
  known to the nanosecond (`Interrupted.SuitableTimingIsExact`).
* Without a trace id the worker skips the clean-up and the digest blocks its
  object for ever, unless another event carries it (`Dedup.TraceIdFailureSticks`,
  `Dedup.StuckForEver`).
* Priority is not the outermost sort key: an expired delayed item still sorts
  behind every undelayed one, and "in order" below means in that order.

## Model

| member | source | states |
|---|---|---|
| Items.LessIsStrictTotalOrder | pkg/controller/priorityqueue/priorityqueue.go:412-427 | The queue's order is irreflexive, transitive, and total on items with distinct counters. |
| Items.LessMeansFirst | pkg/controller/priorityqueue/priorityqueue.go:412-427 | The order means: undelayed before delayed, then the earlier ready time, then the higher priority, then the earlier arrival. |
| Items.ReadyIsDownwardClosed | pkg/controller/priorityqueue/priorityqueue.go:234-240 | Everything before a ready item is ready, which is why a scan may stop at the first item that is not. |
| Items.InsertKeepsSorted | pkg/controller/priorityqueue/priorityqueue.go:155-195 | Insertion keeps the index sorted and replaces only an equivalent element. |
| Items.DeleteKeepsSorted | pkg/controller/priorityqueue/priorityqueue.go:280-282 | Deletion keeps the index sorted and removes exactly the equivalent element. |
| Metrics.Shift | pkg/controller/priorityqueue/metrics.go:78-128 | A depth change moves one gauge, the priority's own or the shared one, and nothing else. |
| Metrics.QueueMetrics.Add | pkg/controller/priorityqueue/metrics.go:78-96 | Counts the add, raises the depth and keeps the earliest add time. |
| Metrics.QueueMetrics.Get | pkg/controller/priorityqueue/metrics.go:98-121 | Lowers the depth, starts the processing time and consumes the add time. |
| Metrics.QueueMetrics.UpdateDepth | pkg/controller/priorityqueue/metrics.go:123-128 | Moves an item between gauges, where there is one gauge per priority. |
| Metrics.QueueMetrics.Done | pkg/controller/priorityqueue/metrics.go:130-155 | Consumes the processing time, if there is one. |
| QueueCore.AddKeepsAgreement | pkg/controller/priorityqueue/priorityqueue.go:138-200 | Adding a key, new or queued, keeps table, tree, becameReady and all metrics in agreement. |
| QueueCore.MarkReadyKeepsAgreement | pkg/controller/priorityqueue/priorityqueue.go:234-244 | Counting a delayed item when it is first seen ready keeps the agreement. |
| QueueCore.TakeKeepsAgreement | pkg/controller/priorityqueue/priorityqueue.go:257-263 | Removing an item and locking its key keeps the agreement. |
| QueueCore.ReleaseKeepsAgreement | pkg/controller/priorityqueue/priorityqueue.go:343-352 | Done of any key, held or not, keeps the agreement. |
| QueueCore.TreeIsDetermined | pkg/controller/priorityqueue/priorityqueue.go:155-200 | The table determines the tree: the index adds no state of its own. |
| QueueCore.AddStampsNow | pkg/controller/priorityqueue/metrics.go:78-96 | An add records the current time for a key that becomes counted and touches no other time. |
| QueueCore.VisitStampsNow | pkg/controller/priorityqueue/metrics.go:78-121 | So do the marking of a ready item and the start of a processing. |
| QueueRuns.AddAllRefinesTable | pkg/controller/priorityqueue/priorityqueue.go:138-200 | Any batch of adds does to the items what it does to a plain table with no tree, metrics or locks. |
| QueueRuns.AddsMerge | pkg/controller/priorityqueue/priorityqueue.go:155-195 | On top of whatever was asked before, any interleaved adds leave a key queued iff it was asked for, once, with the highest priority and the earliest ready time asked for it. |
| QueueRuns.AddsKeepFirstCounter | pkg/controller/priorityqueue/priorityqueue.go:155-195 | A queued key keeps its counter however often it is added again; a new key gets the queue's counter at its first request. |
| QueueRuns.AddsKeepArrivalOrder | pkg/controller/priorityqueue/priorityqueue.go:155-195 | Whenever one key is queued while another is not, the first is ahead of the second from then on, whatever is added again. |
| QueueRuns.RetriesCountDelayed | pkg/controller/priorityqueue/priorityqueue.go:149-153 | The retry counter counts exactly the delayed requests. |
| QueueRuns.ScanHandsOutInOrder | pkg/controller/priorityqueue/priorityqueue.go:231-278 | A scan that starts with k waiters hands out first, in order, the k least of the ready unlocked items, or all of them, whoever arrives meanwhile. |
| QueueRuns.ScanServesFirstThingsFirst | pkg/controller/priorityqueue/priorityqueue.go:231-278 | Without reference to the tree: no unlocked ready item that was not handed out should have been served before one handed to a getter that was waiting, and everything is handed out in the order of service. |
| QueueRuns.ScanIsNeverEarly | pkg/controller/priorityqueue/priorityqueue.go:234-256 | No item is handed out before its ready time, and no locked key is. |
| QueueRuns.ScanMissesNothing | pkg/controller/priorityqueue/priorityqueue.go:234-240 | Every item ready at the start is visited, and a scan that stops early arms its timer for exactly the least ready time left. |
| QueueRuns.ScanKeepsAgreement | pkg/controller/priorityqueue/priorityqueue.go:231-282 | A whole scan keeps table, tree and metrics in agreement, even if shutdown cuts it short. |
| QueueRuns.LenCountsReady | pkg/controller/priorityqueue/priorityqueue.go:373-389 | The early-stopping count lies between the items ready at its first and at its last reading of the clock. |
| PriorityQueue.Queue.AddOne | pkg/controller/priorityqueue/priorityqueue.go:155-195 | One round of the add loop, on the fields, is the specified add. |
| PriorityQueue.RequestsMean | pkg/controller/priorityqueue/priorityqueue.go:144-154 | Each key is asked for with the call's priority, at once or after a wait: the given delay, or with rate limiting the limiter's answer where no delay was given and the shorter of the two otherwise. |
| PriorityQueue.Queue.AddWithOpts | pkg/controller/priorityqueue/priorityqueue.go:138-200 | The loop makes those requests one after the other, notifies iff there were keys, does nothing after shutdown, and keeps the invariant. |
| PriorityQueue.Queue.Walk | pkg/controller/priorityqueue/priorityqueue.go:231-278 | The walk, which must not touch the tree, amounts to the specified scan once the noted deletions are applied. |
| PriorityQueue.Queue.SpinOnce | pkg/controller/priorityqueue/priorityqueue.go:222-284 | The critical section of spin is the specified scan: deferring the deletions leaves the same queue. |
| PriorityQueue.Queue.Done | pkg/controller/priorityqueue/priorityqueue.go:343-352 | Releases the key, keeps the invariant and leaves a wake-up token. |
| PriorityQueue.Queue.ShutDown | pkg/controller/priorityqueue/priorityqueue.go:354-362 | However often it is called, the channel is closed once. |
| PriorityQueue.Queue.Len | pkg/controller/priorityqueue/priorityqueue.go:373-389 | Counts the ready items, exactly under an unchanging clock. |
| Rendezvous.RunKeepsInv | pkg/controller/priorityqueue/priorityqueue.go:138-362 | The protocol's invariant holds in every state of every run. |
| Rendezvous.NoLostWakeUp | pkg/controller/priorityqueue/priorityqueue.go:202-324 | In every run: if spin sleeps while a getter waits and an unlocked item is ready, a token or a due timer can wake it, or an announced getter has yet to notify. |
| Rendezvous.TimerCoversTheFuture | pkg/controller/priorityqueue/priorityqueue.go:209-240 | In every run: while spin sleeps without a token, the timer is armed for the least ready time after the last scan, and unarmed only if there is none. |
| Rendezvous.HandOffsAreConserved | pkg/controller/priorityqueue/priorityqueue.go:246-324 | In every run until shutdown: unserved announced getters are the waiter count plus the item in hand-off, and the items removed are, in order, those received plus that one. |
| Rendezvous.MetricsAgreeInEveryRun | pkg/controller/priorityqueue/metrics.go:78-155 | In every run: the depth at each priority is the number of queued items of that priority that are undelayed or were seen ready, the time maps name those keys and the locked keys, and adds, hand-outs and completions balance. |
| Rendezvous.KeysAreHeldOnce | pkg/controller/priorityqueue/priorityqueue.go:252-352 | If only holders call Done, no two workers hold one key, a held key stays locked at its priority, and no key stays locked unheld. |
| Rendezvous.ShutdownNeverWedges | pkg/controller/priorityqueue/priorityqueue.go:264-389 | After the channel is closed: spin can always move towards releasing the locks and nobody sets it back, pending adds, Lens and Dones then go through, parked getters can leave, and the channel was closed once. |
| Rendezvous.LocksComeFree | pkg/controller/priorityqueue/priorityqueue.go:264-284 | From any state of a closed queue spin alone frees the locks in a bounded number of steps. |
| Rendezvous.LateGettersStayOut | pkg/controller/priorityqueue/priorityqueue.go:299-303 | A getter that comes after shutdown never starts to wait. |
| Rendezvous.LateAddsAreDropped | pkg/controller/priorityqueue/priorityqueue.go:138-141 | After shutdown, once the adds under way are through, nothing is added any more. |
| QueueHistory.MergedInEveryRun | pkg/controller/priorityqueue/priorityqueue.go:138-282 | In every run, with scans, hand-outs of other keys and Dones between the adds: a key is queued iff it was asked for since it was last handed out, with the highest priority, the earliest ready time and the first add's counter of those requests. |
| QueueHistory.NeverBeforeItsTime | pkg/controller/priorityqueue/priorityqueue.go:234-263 | In every run a key is handed out only when some request for it since its last hand-out allows that: at once, or from its ready time on. |
| QueueHistory.RetriesWaitOutTheirDelay | pkg/controller/priorityqueue/priorityqueue.go:144-154 | In every run a key for which only rate-limited requests were made is handed out no earlier than one of them plus what the limiter answered. |
| ScanRuns.SegmentIsScan | pkg/controller/priorityqueue/priorityqueue.go:222-284 | However other actors come between its visits, what spin does from taking the locks to giving them up is one scan, for some readings of clock and waiter count. |
| ScanRuns.ScansInEveryRun | pkg/controller/priorityqueue/priorityqueue.go:209-284 | In every run each walk of spin serves the waiting getters first things first among the ready unlocked items, none before its ready time, misses nothing that was ready, and leaves the timer armed for the first item that was not. |
| Meta.MarkerRoundTrip | pkg/meta/meta.go:212-262 | A marker is read back as written, less the fraction of a second, and leaves the other markers alone. |
| Meta.MalformedReadsAsAbsent | pkg/meta/meta.go:212-221 | A marker that is not a time counts as absent. |
| Meta.AnnouncedCreateIsNoticed | pkg/meta/meta.go:265-281 | A create just announced shows as incomplete iff its second is later than every recorded outcome. |
| Meta.OutcomeCompletesCreate | pkg/meta/meta.go:240-281 | Recording an outcome no earlier than the announcement completes the create. |
| Meta.RemoveFromIsExact | pkg/meta/meta.go:116-124 | From any point of its run, the removal loop ends with the other elements in order iff the rest of the list is one it can handle. |
| Meta.StartOfRemoval | pkg/meta/meta.go:116-124 | Removal is exact iff no two occurrences are adjacent and no repeated one is last, which covers every list with at most one occurrence. |
| Meta.RemoveFinalizer | pkg/meta/meta.go:116-124 | The in-place loop on the array does what the specification says, panic included, and is exact iff the list is removable. |
| Meta.CutOut | pkg/meta/meta.go:119-121 | Appending the tail onto the head moves the elements behind the cut down by one, inside the same array. |
| Meta.RemoveUndoesAdd | pkg/meta/meta.go:105-124 | Removing an added finalizer restores the list. |
| Meta.AddIsIdempotent | pkg/meta/meta.go:105-113 | Adding puts the finalizer there once, behind the others; a second time does nothing. |
| Meta.PoliciesDecide | pkg/meta/meta.go:335-355 | The resource is deleted with its object iff the management policy is observe-delete, or both policies are unset or at their defaults. |
| Meta.OnlyTruePauses | pkg/meta/meta.go:309-313 | Writing the text true pauses, and nothing else does. |
| Meta.RepeatedFinalizers | pkg/meta/meta.go:116-124 | Repeated finalizers can survive the removal or make it panic. |
| Reconcile.SafeInAnyRun | pkg/controller/worker.go:245-449 | What every program point of the worker knows about finalizer, object and resource holds in every run without a recreation at the wrong moment. |
| Reconcile.NoLeakInAnyRun | pkg/controller/worker.go:304-428 | In every such run, with crashes, conflicts, lost replies and edits, an external resource that exists and was not orphaned by policy has its object stored with the finalizer. |
| Reconcile.RecreationLeaksExactly | pkg/controller/worker.go:307-433 | In any safe state a recreation opens the way to a leak iff the running reconcile has orphaned the predecessor and is on its way to create without another write. |
| Reconcile.OrphanedOnlyByPolicy | pkg/controller/worker.go:304-322 | A resource is left behind only when the stored object is being deleted under a policy that keeps the resource. |
| Reconcile.RecreatedDuringOrphaningLeaks | pkg/controller/worker.go:307-433 | For every orphaning policy such a state is reachable, and the leak with it. |
| Outcomes.EventsDriveReconciles | pkg/controller/worker.go:430-448 | In every run the external Create is called only in reconciles begun with a Create event, and the external Delete only in those begun with a Delete event. |
| Outcomes.DeleteEventDeletes | pkg/controller/worker.go:805-883 | From every safe idle state an undisturbed Delete reconcile of an object under deletion, whose policies ask for it, leaves neither resource nor object. |
| Outcomes.CreateEventCreates | pkg/controller/worker.go:562-727 | From every safe idle state an undisturbed Create reconcile leaves the resource in existence, the object protected, and announcement and success recorded. |
| Outcomes.DeletionOrphans | pkg/controller/worker.go:307-322 | If the policies keep the resource, any event lets the object go and leaves the resource alone. |
| Outcomes.PausedIsLeftAlone | pkg/controller/worker.go:276-302 | A reconcile that finds the object paused does nothing to the external resource and comes to an end, whatever happens around it. |
| Interrupted.NeverCreatesOverAnUnrecordedCreate | pkg/controller/worker.go:338-410 | Under the stated discipline no run calls Create while a landed create has no recorded outcome. |
| Interrupted.CoveredInAnyRun | pkg/controller/worker.go:562-701 | In every disciplined run an unrecorded create is protected by the finalizer, marked incomplete, and visible within the lag of its announcement. |
| Interrupted.SuitableTimingIsExact | pkg/controller/worker.go:374-401 | The protocol is safe for a visibility lag and an observation time iff the lag is zero or both fit the grace period less the second that markers may lose. |
| Interrupted.UnsuitableTimingCreatesAgain | pkg/controller/worker.go:374-401 | For every other timing there is a disciplined run that creates a second time. |
| Interrupted.SameSecondCreatesAgain | pkg/meta/meta.go:265-281 | An announcement in the second of a recorded failure, and a crash, lead to a second Create while the first is invisible. |
| Recovery.JudgeWritesRecovered | pkg/controller/worker.go:372-406 | The protocol step writes what the recovery function says, or waits. |
| Recovery.RecoveredIsComplete | pkg/controller/worker.go:374-398 | Whatever recovery writes, the object is complete afterwards: what was seen is recorded as a success, what was not is no longer announced. |
| Recovery.RecoveryTerminates | pkg/controller/worker.go:376-408 | Among visits the interval apart at most ceil(period / interval) wait; the next acts, whatever it sees, and completes the object. |
| Recovery.ChainsEndInEveryRun | pkg/controller/worker.go:374-408 | In every run of the protocol, whatever lies between its visits, the ninth visit of a requeue chain acts, and once its write is accepted the stored object is complete. |
| Recovery.EightWaitsAtMost | pkg/controller/worker.go:87-95 | With two minutes and fifteen seconds a chain waits at most eight times. |
| Recovery.EightWaitsHappen | pkg/controller/worker.go:87-95 | And eight times it can. |
| Informer.FirstMatchAt | pkg/controller/controller.go:313-358 | The first matching annotation rule decides, and no match means no annotation event. |
| Informer.MatchRules | pkg/controller/controller.go:311-358 | The loop over the rules finds that rule; it finds none iff none matches. |
| Informer.TriggersMean | pkg/controller/controller.go:317-332 | What each trigger means for the annotation's value before and after. |
| Informer.PauseIsNoticed | pkg/controller/builder/options.go:50-51 | By default whoever pauses, un-pauses or touches the pause annotation of a live object has it observed, even if the map holds its digest. |
| Informer.OwnWritesUnderDefaultRules | pkg/controller/builder/options.go:50-52 | Any sequence of the runtime's own writes to a live object, seen as one update, enqueues nothing, except a Create iff together they removed the pending marker. |
| Informer.OwnWritesUnderQuietRules | pkg/controller/controller.go:307-445 | The same for every rule list that watches markers only for their disappearance. |
| Informer.QuietRulesAreTheSafeOnes | pkg/controller/controller.go:311-358 | A rule list keeps the runtime from triggering itself iff it is such a list. |
| Informer.IgnoredUpdates | pkg/controller/controller.go:272-445 | An update is ignored iff the object is live, no watched annotation moved, and a spec cannot be read or a new version has the old spec. |
| Handlers.Callbacks.Offer | pkg/controller/controller.go:241-256 | An event enters the queue iff its digest was not in the map, and then its digest is. |
| Informer.LowPriorityMeansTakenUp | pkg/controller/controller.go:228-239 | An object first seen is queued with low priority iff the runtime has taken it up before: a create outcome was recorded on it, or an announcement stands. |
| Handlers.Callbacks.OnUpdate | pkg/controller/controller.go:258-447 | The handler does what the classification of the next rows says. |
| Handlers.ChangesYield | pkg/controller/controller.go:366-444 | By default, where no rule matches and the map holds nothing of the object: an Update with high priority iff the spec changed, an Observe with low priority iff it is a resync, and nothing otherwise. |
| Handlers.UpdatesMirrorSpecChanges | pkg/controller/controller.go:379-405 | Over a life in which nothing interferes there are exactly as many Updates as spec changes. |
| Handlers.FirstSightYields | pkg/controller/controller.go:209-257 | First sight yields an Observe, unless one is already on its way. |
| Handlers.DeletedVersionYields | pkg/controller/controller.go:272-305 | A version under deletion yields a Delete with high priority, whatever else changed, unless one is already on its way. |
| Handlers.ActionsReplaceEvents | pkg/controller/event/actionsevent.go:43-51 | Configured actions replace the event types, not the priorities. |
| Handlers.DeleteReachesQueue | pkg/controller/controller.go:448-504 | Over the whole life of an object, whatever the digest map holds at each call, a Delete event reaches the queue iff deletion was requested, and then it is the last thing added, with high priority. |
| Handlers.HandlersTakeMachineSteps | pkg/controller/controller.go:241-256 | A handler call is a run of the concurrent machine with the same effect on map and queue. |
| Dedup.RunKeepsInv | pkg/controller/worker.go:202-243 | The invariant behind the next three rows holds in every run without a trace-id failure. |
| Dedup.StoredDigestsAreBacked | pkg/controller/controller.go:288-303 | In every such run a digest in the map has an event about to be added, queued, or in flight since after the digest was stored. |
| Dedup.MapIsEmptyAtQuiescence | pkg/controller/worker.go:202-205 | When nothing is queued, under way or in flight, the map is empty. |
| Dedup.NoFailureIsLost | pkg/controller/worker.go:212-243 | At rest, every failure below the retry limit has been followed by a processing of its digest that began after the failed one ended. |
| Accounts.EveryFailureIsHandled | pkg/controller/worker.go:202-243 | From the actions alone: in every run that comes to rest, each failed processing is followed by the worker's check of the limit, and if that says to retry, by the taking of an event with its digest. |
| Accounts.OnlyFailuresAreRetried | pkg/controller/worker.go:212-243 | An event is added again only after the worker's last processing failed and its last check said to retry. |
| Accounts.MapFollowsActions | pkg/controller/controller.go:241-256 | In every run a digest is in the map iff an event with it was offered or requeued and none has finished since. |
| Accounts.QueueFollowsActions | pkg/controller/controller.go:252-255 | In every run an event is queued iff it was added and not taken since. |
| Dedup.FoundMeansFresh | pkg/controller/worker.go:228-236 | When handleErr finds the digest present, the event it leaves the retry to has not begun, or began after the failure. |
| Dedup.TraceIdFailureSticks | pkg/controller/worker.go:151-158 | In any state, the exit without a trace id leaves the worker's digest stuck iff it is in the map and no other event carries it. |
| Dedup.TraceIdFailureHappens | pkg/controller/worker.go:151-158 | One callback and one worker are enough for that. |
| Dedup.StuckForEver | pkg/controller/controller.go:241-256 | From then on no event of that digest is ever taken again, unless one is added past the map. |
| Limiter.BackoffIsCappedDoubling | pkg/workqueue/workqueue.go:54-66 | The delay is base * 2^n cut off at the maximum iff the product is not 2^63 or the platform's conversion of 2^63 reaches the maximum. |
| Limiter.ExactOverflowIsNegative | pkg/workqueue/workqueue.go:54-66 | Where 2^63 converts to the least integer the delay there is negative. |
| Limiter.OnlyPowersOfTwoHit | pkg/workqueue/workqueue.go:54-58 | Only a base that is a power of two reaches that value, at one exponent. |
| Limiter.BackoffGrowsToMax | pkg/workqueue/workqueue.go:54-66 | Away from it delays are positive, never decrease and never exceed the maximum. |
| Limiter.NthRetryWaitsDoubled | pkg/workqueue/workqueue.go:36-67 | The retry after n prompt ones waits base * 2^n, up to the maximum. |
| Limiter.OnlyStaleRetriesAreFree | pkg/workqueue/workqueue.go:46-52 | A retry may go at once, and is not recorded, iff it comes more than twice the maximum delay after the last recorded one. |
| Limiter.NearestIsNear | pkg/workqueue/workqueue.go:54-56 | The conversion to float64 yields the nearest multiple of the gap, the even one of two. |
| Limiter.PromptRetriesCount | pkg/workqueue/workqueue.go:36-67 | Prompt retries are all counted. |
| Limiter.TimedLimiter.When | pkg/workqueue/workqueue.go:36-67 | Answers the specified delay and records the attempt, except that a stale entry answers zero and is left alone. |
| Limiter.TimedLimiter.NumRequeues | pkg/workqueue/workqueue.go:69-74 | The recorded attempts, zero for an unknown item. |
| Limiter.TimedLimiter.Forget | pkg/workqueue/workqueue.go:76-84 | Removes an entry iff it is stale. |
| Retry.AttemptsNeverExceedLimit | pkg/controller/worker.go:202-243 | In every run of failures of any events, recorded attempts never exceed the retry limit. |
| Retry.DroppedExactlyIfPrompt | pkg/controller/worker.go:202-243 | An always failing event is dropped at its (maxRetries + 1)-th failure, never before, and then iff it was added again each time, every Forget came within twice the maximum delay of the previous When, and so did every When that had to be counted. |
| Retry.SlowEventIsNeverDropped | pkg/workqueue/workqueue.go:76-84 | An event whose failures are more than twice the maximum delay apart is never dropped. |
| Retry.PromptForgetIsNotEnough | pkg/workqueue/workqueue.go:46-48 | There are arbitrarily long runs in which every Forget is prompt, yet the event is never dropped. |
| Retry.ClearingLimiterNeverDrops | pkg/controller/builder/options.go:64-68 | With a limiter whose Forget clears, an event is requeued for ever iff the limit is not zero, and its count never passes one. |
| Drain.RunKeepsInv | pkg/controller/controller.go:538-632 | The invariant of the drain holds in every run. |
| Drain.ReturnsOnlyWhenDrained | pkg/controller/controller.go:592-632 | Run returns only when all workers have exited, or the grace period has expired and the reconcile context is cancelled, or the timeout read was zero; with a negative timeout only the first. |
| Drain.ContextIsLiveDuringGrace | pkg/controller/controller.go:564-571 | A reconcile under way has a live context unless the grace period has expired or was zero. |
| Drain.FewLateReconciles | pkg/controller/priorityqueue/priorityqueue.go:299-324 | After shutdown each worker begins at most one more reconcile, so all together at most numWorkers. |
| Drain.DrainIsBounded | pkg/controller/worker.go:114-119 | Once the queue is shut down the workers take at most four more steps each, in every run. |
| Drain.NoWorkerIsStuck | pkg/controller/controller.go:576-590 | Until it has exited a worker can move, and only the end of a reconcile depends on anything outside. |
| Drain.RunComesToReturn | pkg/controller/controller.go:592-632 | Once cancelled, Run can always come closer to returning unless it awaits workers within the grace period; with a timeout of zero it never waits. |
| Drain.ServesUntilCancelled | pkg/controller/controller.go:573-592 | Until the caller cancels, no worker exits and no context is cancelled. |
| Drain.WorkersServe | pkg/controller/worker.go:114-121 | While the queue is open a worker that receives an item reconciles it and comes back for the next. |
| Drain.ParkedWorkersWait | pkg/controller/priorityqueue/priorityqueue.go:305-323 | A parked worker waits until it receives an item or the queue is shut down. |
| Drain.NoItemIsSkipped | pkg/controller/worker.go:114-121 | In every run, until shutdown, a worker has begun as many reconciles as it received items, less the one it is about to begin. |

## Left out

- Rendezvous.ShutdownNeverWedges: says that enabled steps exist and make progress; that the scheduler lets every goroutine run is not modelled.
- Reconcile.NoLeakInAnyRun: one worker, and only the runtime's own finalizer on the object; with foreign finalizers or several workers on one object the property does not hold in general. handleDelete clears the whole finalizer list, which is what the model does.
- Interrupted.NeverCreatesOverAnUnrecordedCreate: a create whose success was recorded counts as dealt with, visible or not; nobody but the worker writes the markers.
- Recovery.RecoveryTerminates: is about the verdicts of a list of visits; a visit whose Observe or write fails is not one of them.
- Recovery.ChainsEndInEveryRun: takes announcements that are not in the future and have whole seconds, as the runtime writes them.
- Dedup.NoFailureIsLost: is about runs before shutdown; any queued event may be taken at any time, so delays and locked keys, which only restrict the runs, are not represented there.
- Retry.DroppedExactlyIfPrompt: follows one event until it is no longer added again; what becomes of the other event that then holds its digest is the matter of `Dedup`.
- Retry.AttemptsNeverExceedLimit: `Forget`, the count check and the re-add of one failure are one step; two workers failing the same event at once are not interleaved inside it.
- Limiter.BackoffIsCappedDoubling: bases above 2^53 ns or maxima of 2^62 ns and more, where the base is rounded or doubling the maximum wraps, and the saturation of time differences are not covered.
- Meta.StartOfRemoval: is about the list; annotation maps are values here, so aliasing between an object and the maps taken from it is not captured.
- GetWithPriority appears as steps of `Rendezvous` and `Drain`, not as a blocking method, which Dafny does not have.
- The worker and the controller's `Run` are step functions, since other actors come between any two of their calls; the handlers for observing and updating, and the status writes at the end of every handler, are folded into one program point.
- The management policy is modelled where the worker consults it, which is on deletion; it does not ask it before creating or updating.
- The branches for a missing external client: nothing external happens there.
- The B-tree is a strictly sorted sequence; its nodes are not modelled.
- The 64-bit add counter is unbounded here, and histograms are reduced to sample counts.
- Building a rule list (adding with or without overwriting): the theorems take any rule list.
- The murmur3 digest is an arbitrary function of event type and object reference.
- API client, informer, list-watch and pluralizer internals; certificates, the metrics server, telemetry, logging and signals: input and output.
- The instrumented queue wrapper, whose map the informer's adds bypass; status projection, condition helpers and label helpers: easy claims, or an engine that is not part of this model.
- No serialization per object is claimed: two events of one object have different keys and can be processed together, and a spec change can be merged into an event already in flight.
