# Verified model of Krake

Krake is a control plane: an API server keeps resources in etcd, and controllers follow watch streams and bring
the outside world in line with them. This project models its most intricate parts in Dafny and proves what they
promise, for all inputs, all interleavings and all runs.

1. **Garbage collector.** `DependencyGraphs` is the dependency graph changed in place, with its recursive check;
   `GraphRuns` follows it over any sequence of events. `Cascade` is the protocol of cascading deletion: the API
   store, watch events in order for each resource, the graph, the queue, DELETED handlers suspended between two
   reads, and workers suspended between two calls; users and other controllers interleave freely with all of them.
   `CascadeApi` ties its API to the handlers of item 4. `CascadeSafety` and `CascadeTheorems` prove bottom-up
   deletion for runs of sound steps, and that of all steps the code lets through exactly the sound ones keep the
   invariant: three branches are left out, and `CascadeEarly` and `CascadeBelow` show what each leads to and how the
   code gets there. `CascadeWork` bounds the collector's writes. `CascadeProgress` proves, for any number of owners,
   that nothing in deletion is left behind unless one branch is taken: the first call of a worker fails, for a
   resource that nothing else brings back. `CascadeStranded` is the converse: what that branch loses stays lost.
   `CascadeCalm` gives a discipline that keeps a run away from the branch, `CascadeRaces` runs that end in it without
   the discipline, and `CascadeRest` shows that the collector always comes to rest. `CascadeReached` has runs that
   lead to the states other modules speak of, and `CascadePasses` says which dependents one pass of the marking loop
   calls and which it skips. `GarbageCollectors` is the controller, with a method for each step of
   the protocol that is its own.
2. **Work queue.** `WorkQueues` holds one action per stretch between two awaits, and the class that carries them
   out. `WorkQueueValues` accounts for every value put, `WorkQueueOrder` proves in which order values come out and
   gives the exact discipline for it: both of its rules can be broken only at the price shown there.
   `WorkQueueTurns` proves in which order keys are served, and what cancelled and replaced values are not.
3. **Database.** `Etcd` is a key space as the log of its writes, `Sessions` the optimistic session with its locally
   predicted revisions, `SessionRuns` any number of sessions at once, `Watches` the watch stream of the API.
4. **API.** `KubernetesApi` holds the application handlers, `Lifecycle` their interleavings, `LifecycleFields` where each
   stored field comes from, `Retries` the middleware around them, `KeyTemplates` the keys resources are stored and
   found under.
5. **Magnum controller**, **fixtures** of the command line client, and **merging of configurations**: `Magnum`,
   `Fixtures`, `ConfigMerge`.

`Digraphs`, `Relationships` and `Wrappers` are the shared foundations. `dafny verify dfyconfig.toml` checks everything.

Where the behaviour differs from what one would expect, the model follows the code, and a lemma says so: a diamond
is treated as a cycle (`GraphRuns.DiamondRaises`), re-enqueueing owners before the node is removed can strand one
(`CascadeRaces.SecondOwnerStrandsFirst`), so can a stale read (`CascadeRaces.OvertakenHandlerStrandsOwner`,
`CascadeRaces.OldAnswerStrandsOwner`), putting back what was read before a deletion takes the collector's finalizer
off (`CascadeEarly.PutBackOrphans`), a worker that has not heard of a dependent drops it from above
(`CascadeEarly.UnsoundTakeOrphans`), the marking loop can skip a dependent in a pass (`CascadePasses.NextIsSkipped`), an older timer can overwrite a newer value
(`WorkQueueOrder.ImmediatePutIsOvertaken`), concurrent delayed puts can hang
(`WorkQueueOrder.SecondDelayedPutCanHang`), the matcher accepts a trailing line break
(`KeyTemplates.MatchesExactlyFormatted`), and a scan with all parameters given finds longer names
(`KeyTemplates.FullScan`).

## Model

| member | source | states |
|---|---|---|
| DependencyGraphs.DependencyGraph.GetDirectDependents | krake/krake/controller/gc.py:138-151 | returns the stored list of dependents, and stores an empty one for a node never seen |
| DependencyGraphs.DependencyGraph.AddResource | krake/krake/controller/gc.py:153-172 | each owner lists what it listed before, in the same order, and a resource new to it last, whatever the check says; with checks on, a cycle is reported exactly when what is reachable from the resource is not a tree |
| DependencyGraphs.DependencyGraph.RemoveResource | krake/krake/controller/gc.py:174-199 | refused exactly if dependents exist and must be kept; otherwise the node and every edge into it and out of it are gone |
| DependencyGraphs.DependencyGraph.RemovePointers | krake/krake/controller/gc.py:194-199 | the resource leaves every other list, although `list.remove` drops one occurrence only |
| DependencyGraphs.DependencyGraph.UpdateResource | krake/krake/controller/gc.py:201-220 | the whole update stands whether or not the final check raises, and the check gives the exact verdict on the updated graph; the resource then stands last with each owner, even with one that listed it before, behind the others in their order |
| DependencyGraphs.DependencyGraph.CheckForCycles | krake/krake/controller/gc.py:222-244 | terminates on every finite graph without duplicates; passes if and only if the part reachable from the start is a tree that avoids what was visited before, and then has visited exactly that part |
| DependencyGraphs.DependencyGraph.CheckFrom | krake/krake/controller/gc.py:171-172 | a check started by a caller passes if and only if there is one path to each reachable node; on failure the visited nodes are reachable and include the start |
| Relationships.RemoveFirstIsWithout | krake/krake/controller/gc.py:197-199 | on a list without duplicates, dropping the first occurrence drops all |
| Relationships.WithoutKeepsOrder | krake/krake/controller/gc.py:194-199 | what is not removed from a list keeps its order, for any two names |
| Relationships.WithOwnersAppends | krake/krake/controller/gc.py:165-169 | each owner's list is the old one, followed by a name that is new to it; repeated owners and their order do not matter |
| Relationships.UpdatedMovesToEnd | krake/krake/controller/gc.py:201-217 | after an update the resource stands last, and once, with each owner, and any two others stand in the order they had |
| Relationships.WithOwnersEdges | krake/krake/controller/gc.py:165-169 | adding owners adds exactly the edges from them to the resource and keeps lists free of duplicates |
| Relationships.UpdatedEdges | krake/krake/controller/gc.py:201-217 | the exact edges after an update, for every graph and owner list, self-edges included |
| Relationships.UpdateRefinesOwnership | krake/krake/controller/gc.py:201-220 | after an update the in-edges are exactly the owners if and only if the resource is listed among its owners just when it already had a self-edge; all other edges, and all its dependents, are as before |
| GraphRuns.DeletedEdges | krake/krake/controller/gc.py:408-422 | at the end of a deletion the node goes with the edges into it, unless it still has dependents: then no edge changes |
| GraphRuns.StepKeepsAcyclic | krake/krake/controller/gc.py:357-422 | any single event, with the cleaning after a failed check, keeps the graph free of cycles and duplicates: checking downward from the changed node is enough |
| GraphRuns.EveryRunIsAcyclic | krake/krake/controller/gc.py:357-422 | from the empty graph, no sequence of events ever leaves a cycle |
| GraphRuns.DiamondRaises | krake/krake/controller/gc.py:235-244 | two owners that share an ancestor: the check of the node that closes the diamond passes, but a later one that starts at the shared ancestor raises like for a cycle, and that ancestor is dropped from the graph |
| GarbageCollectors.GarbageCollector.SimpleOnReceive | krake/krake/controller/__init__.py:618-634 | only resources in deletion enter the queue, where they replace an older value |
| GarbageCollectors.GarbageCollector.CleanCycle | krake/krake/controller/gc.py:523-541 | all visited nodes and their edges leave the graph, and nothing else does |
| GarbageCollectors.GarbageCollector.OnReceivedNew | krake/krake/controller/gc.py:357-373 | carries out the collector's part of a delivery step of the protocol, whether the check passes or raises |
| GarbageCollectors.GarbageCollector.OnReceivedUpdate | krake/krake/controller/gc.py:375-390 | carries out the collector's part of the delivery of an update, whether the check passes or raises |
| GarbageCollectors.GarbageCollector.OnReceivedDeleted | krake/krake/controller/gc.py:392-403 | the handler of a deletion up to its first read of an owner, or to its end |
| GarbageCollectors.GarbageCollector.OwnerRead | krake/krake/controller/gc.py:400-406 | the read of an owner returns; a 404 ends the handler and leaves the node in the graph |
| GarbageCollectors.GarbageCollector.OwnerAnswered | krake/krake/controller/gc.py:404-422 | from the answer about an owner on: it is enqueued if in deletion, and after the last owner the node is removed unless it holds dependents |
| GarbageCollectors.GarbageCollector.ResourceReceived | krake/krake/controller/gc.py:469-487 | a worker marks the dependents if there are any and otherwise prepares the removal of the finalizer |
| GarbageCollectors.GarbageCollector.DependentAnswered | krake/krake/controller/gc.py:489-503 | a delete call that succeeded moves the loop on by one; a 404 ends the work, whatever dependents are left |
| GarbageCollectors.GarbageCollector.NextDependent | krake/krake/controller/gc.py:489-503 | the marking loop goes on at its position in the list as it is now |
| GarbageCollectors.GarbageCollector.UpdateAnswered | krake/krake/controller/gc.py:448-467 | the work is done once the update without the finalizer is answered, accepted or refused |
| CascadeSafety.EveryStepKeepsInv | krake/krake/controller/gc.py:357-521 | of all steps the code lets through exactly the sound ones keep the protocol invariant: no creation below an owner that is past the collector, no update that takes `cascade_deletion` off above something, no worker that finds no dependents because it has not heard of them |
| CascadeSafety.EveryRunKeepsInv | krake/krake/controller/gc.py:357-521 | the invariant holds in every state that sound steps reach, deletions of resources with unheard descendants and creations below a deletion included |
| CascadeApi.DeletesAgree | krake/krake/api/kubernetes.py:94-128 | an unforced delete request does to the store of the protocol what the handler does to the application |
| CascadeApi.UpdatesAgree | krake/krake/api/kubernetes.py:195-241 | an update is refused, stored or turned into a removal by the protocol exactly as by the handler |
| CascadeSafety.DropIsPop | krake/krake/controller/gc.py:505-521 | whatever happened since the worker took its copy, its update is accepted if and only if every other finalizer of the copy is still there, and then takes the collector's finalizer off, if it is still there, and nothing else |
| CascadeSafety.GoneHasNoDependents | krake/krake/controller/gc.py:408-422 | when the DELETED event of a resource is handled its node has no dependents, so the warning branch is never taken |
| CascadeSafety.OwnerIsFound | krake/krake/controller/gc.py:400-406 | the owner a handler reads exists, so the read never fails |
| CascadeSafety.DeliveryPasses | krake/krake/controller/gc.py:357-390 | in runs of the protocol the cycle check never raises |
| CascadeTheorems.DropIsBottomUp | krake/krake/controller/gc.py:482-521 | one sound step: `cascade_deletion` leaves a resource only when nothing that names it as owner is stored |
| CascadeTheorems.OnlyUpdatesDrop | krake/krake/controller/gc.py:505-521 | `cascade_deletion` leaves a resource only through a worker about to drop it or an update of others that leaves it out |
| CascadeTheorems.BottomUpDeletion | krake/krake/controller/gc.py:392-521 | in every run of sound steps: at the moment a resource loses `cascade_deletion`, no stored resource names it as an owner; owners of stored resources are stored, the deletion handler never meets a node with dependents, its reads succeed, and no check raises |
| CascadeWork.CollectorStepAndWork | krake/krake/controller/gc.py:392-521 | no step of the collector raises the work left, and each of its writes lowers it, repeated ones from stale copies included |
| CascadeWork.OtherStepAndWork | krake/krake/controller/gc.py:392-521 | of the steps of others only a creation raises the work left, by three and one per owner, and a write that leaves a resource in deletion, by one |
| CascadeWork.CollectorWritesAreBounded | krake/krake/controller/gc.py:392-521 | over a whole run the collector writes at most three times per resource ever created, once more per owner it has, and once more per write of others that leaves a resource in deletion |
| CascadeRest.CollectorGetsNearer | krake/krake/controller/gc.py:392-521 | from every state of every run each step of the collector lowers a tuple: the work left, the events to deliver, the owners to visit, the values to take, the positions to go through |
| CascadeRest.ComesToRest | krake/krake/controller/gc.py:392-521 | from every state of every run of sound steps the collector alone, by sound steps, becomes quiescent |
| CascadeRest.CascadeFinishes | krake/krake/controller/gc.py:392-521 | after any run of calm and unhurried steps, for any number of owners, the collector alone becomes quiescent, and what is still deleted then waits for a release by another controller, of itself or of a descendant |
| CascadeProgress.StepKeepsBack | krake/krake/controller/gc.py:392-521 | in every run, whatever the number of owners: a resource newly in deletion is on its way to the queue, and stays on it until a worker takes it |
| CascadeProgress.EveryStepKeepsProgress | krake/krake/controller/gc.py:392-521 | a step keeps each resource in deletion attended to if and only if it is not the first call of a worker, failing, for a resource that nothing else brings back; it fails with a 404 for the target or because the copy names a finalizer that is gone |
| CascadeProgress.UnpassedTargetIsOrderly | krake/krake/controller/gc.py:400-422 | a 404 does no harm while the deletion handler of the missing dependent has not passed the resource |
| CascadeProgress.EveryOrderlyRunKeepsProgress | krake/krake/controller/gc.py:392-521 | in every state of a run without such a call each resource in deletion is attended to: by an event, the queue, a worker about to act, or a dependent on its way out |
| CascadeProgress.NothingGetsStuck | krake/krake/controller/gc.py:392-521 | a quiescent state of such a run, with any number of owners, holds no resource whose last finalizer is `cascade_deletion`, unless another controller still owes a release below it |
| CascadeProgress.NothingDeletedRemains | krake/krake/controller/gc.py:392-521 | if no other controller owes a release, a quiescent state of such a run holds no deleted resource at all |
| CascadeStranded.StrandedUntilRevived | krake/krake/controller/gc.py:392-521 | a resource in deletion that nothing brings back stays so over any step of anybody if and only if the step neither writes it nor deletes one of its live dependents |
| CascadeStranded.StrandedForGood | krake/krake/controller/gc.py:392-521 | unless another deletion reaches its live dependents, the collector alone never finishes the deletion, however long it runs |
| CascadeStranded.DisorderlyStepLosesForGood | krake/krake/controller/gc.py:489-521 | the converse of progress: a first call that fails for a resource that nothing else brings back leaves it in deletion through all further steps of the collector |
| CascadeCalm.StepKeepsCopiesCurrent | krake/krake/controller/gc.py:392-422 | with calm deliveries and any number of owners, what handlers, queue and workers hold is as stored, unless an event that says otherwise is on its way |
| CascadeCalm.RefusedComesBack | krake/krake/controller/gc.py:505-521 | so an update that is refused is for a resource that comes back |
| CascadeCalm.EveryCalmStepKeepsInvCalm | krake/krake/controller/gc.py:392-503 | if moreover no worker takes an owner that a running handler has passed, the target of a first call is stored, or the resource comes back |
| CascadeCalm.EveryCalmRunIsOrderly | krake/krake/controller/gc.py:392-521 | runs in which no event about an owner is delivered between the read and the end of a deletion handler, and no worker takes an owner that a running handler has passed, keep the condition of progress, for any number of owners |
| CascadeCalm.SingleOwnersAreUnhurried | krake/krake/controller/gc.py:400-422 | if every resource names at most one owner the second of these conditions always holds |
| CascadeCalm.CollectorIsNeverStuck | krake/krake/controller/gc.py:392-521 | until it is quiescent the collector can always take a step, and a sound, calm and unhurried one |
| CascadeRaces.SingleOwnerKeepsUniqueWalks | krake/krake/controller/gc.py:235-244 | with at most one owner per resource no second path can arise |
| CascadeRaces.OvertakenHandlerStrandsOwner | krake/krake/controller/gc.py:400-422 | for any two resources of different kinds, a run with single owners in which a read of an owner is overtaken by its deletion: the owner stays in deletion for good |
| CascadeRaces.SecondOwnerStrandsFirst | krake/krake/controller/gc.py:400-422 | a run with two owners, the first of another kind than the dependent: it is re-enqueued before the node is removed, the worker still sees the dependent, and the owner stays in deletion for good |
| CascadeRaces.OldAnswerStrandsOwner | krake/krake/controller/__init__.py:618-634 | a run with single owners in which the answer of a read replaces a newer value in the queue: the update of the worker names a finalizer that is gone, is refused, and the owner stays in deletion for good |
| CascadeEarly.UnsoundTakeOrphans | krake/krake/controller/gc.py:469-521 | from any state: a worker that finds no dependents although one is stored takes `cascade_deletion` off above it, if the other finalizers it has seen are still there |
| CascadeEarly.EarlyDeletionOrphans | krake/krake/controller/gc.py:469-487 | how the code gets there: from any state in which an owner is deleted before the collector has heard of any dependent of it, the collector alone drops `cascade_deletion` from above every stored one |
| CascadeEarly.UnheardIsReached | krake/krake/controller/gc.py:469-487 | for any two resources of different kinds such a state is reached |
| CascadeEarly.LateCreationOrphans | krake/krake/controller/gc.py:505-521 | from any state in which a worker is about to drop the finalizer, a creation below the resource is accepted and the finalizer then leaves above it |
| CascadeEarly.ReleaseOrphans | krake/krake/api/kubernetes.py:51-88 | below an owner that has lost `cascade_deletion` but waits for another controller a creation is accepted as well, and the release then removes the owner from above |
| CascadeBelow.EarlyDeletionOrphansBelow | krake/krake/controller/gc.py:469-503 | the same for an unheard descendant below an idle line, of any length, of live dependents the collector knows of: its own marks go down the line and overtake the creation |
| CascadeReached.LineIsReached | krake/krake/controller/gc.py:469-503 | for any three resources, the lowest of another kind than the two above, such a line is reached |
| CascadeBelow.LateCreationOrphansBelow | krake/krake/controller/gc.py:489-503 | a creation below a live resource is overtaken as well, from any state in which a worker stands at or before the position that leads down to that resource |
| CascadeReached.LateCreationIsReached | krake/krake/controller/gc.py:489-503 | such a state is reached |
| CascadeReached.ListGrowsUnderLoop | krake/krake/controller/gc.py:482-503 | sound steps make the list of dependents grow under the marking loop, from `[o]` to `[o, d]` in this order |
| CascadePasses.OnlyDisplacedListsShrink | krake/krake/controller/gc.py:153-220 | a list of dependents changes elsewhere than at its end only when a change or the burial of something in it is handled, or a check raises |
| CascadePasses.StepKeepsComing | krake/krake/controller/gc.py:489-503 | as long as the list only grows, a dependent the marking loop has before it stays so over any step of anybody, until it is called or a call is answered 404 |
| CascadePasses.HeardIsCalled | krake/krake/controller/gc.py:489-503 | over any run from there: a dependent heard of while a worker of its owner is in the loop is called in the same pass, if nothing leaves or moves in the list and no call is answered 404 |
| CascadePasses.MarkedMovesToEnd | krake/krake/controller/gc.py:201-220 | the MODIFIED event of the dependent just marked, handled before the loop looks again, takes it to the end of the list, and the next one up to the position the loop has left |
| CascadePasses.NextIsSkipped | krake/krake/controller/gc.py:489-503 | so that next dependent is not called in this pass, in any run in which nothing else leaves or moves in the list |
| CascadeReached.SkipIsReached | krake/krake/controller/gc.py:489-503 | for any three resources such a state is reached by sound steps |
| CascadeEarly.UpdateDropsExactly | krake/krake/api/kubernetes.py:195-229 | an accepted update takes `cascade_deletion` off exactly if its body leaves it out, whoever sends it |
| CascadeEarly.PutBackOrphans | krake/krake/api/kubernetes.py:195-229 | what was read before the deletion and is put back after it is accepted, and leaves stored dependents below a resource that has lost `cascade_deletion`, or is gone |
| CascadeEarly.UpdateIsSoundExactly | krake/krake/api/kubernetes.py:195-229 | of the updates the API accepts during a deletion exactly those are unsound that take `cascade_deletion` off above something |
| WorkQueues.WorkQueue.Put | krake/krake/controller/__init__.py:88-154 | the three ways of a put: at once, behind a new timer, or waiting for the previous timer to be removed |
| WorkQueues.WorkQueue.PutKey | krake/krake/controller/__init__.py:111-119 | the value replaces a dirty one, and the key is queued unless it is active |
| WorkQueues.WorkQueue.ResumePut | krake/krake/controller/__init__.py:144-154 | a waiting put goes on by starting its own timer |
| WorkQueues.WorkQueue.Debounced | krake/krake/controller/__init__.py:102-109 | a timer that ends puts its value |
| WorkQueues.WorkQueue.RemoveTimer | krake/krake/controller/__init__.py:121-125 | the callback pops the key's entry, whosever it is, and fails exactly if there is none |
| WorkQueues.WorkQueue.Take | krake/krake/controller/__init__.py:156-168 | the key handed out always has a value, is held by no other worker, and the queue invariant stays |
| WorkQueues.WorkQueue.Complete | krake/krake/controller/__init__.py:170-183 | `done` queues the key again exactly if a newer value has arrived, and then behind all keys that wait |
| WorkQueues.WorkQueue.CancelTimer | krake/krake/controller/__init__.py:185-198 | cancelling stops a pending timer and ignores unknown keys |
| WorkQueues.WorkQueue.CancelTimers | krake/krake/controller/__init__.py:200-207 | closing stops every pending timer |
| WorkQueues.WorkQueue.ForgetTimers | krake/krake/controller/__init__.py:208-211 | the end of closing forgets all entries, whatever they are by then |
| WorkQueues.StepKeepsSequential | krake/krake/controller/__init__.py:111-183 | every step keeps: queued keys are dirty, dirty keys active, active keys queued once or held |
| WorkQueues.EveryRunIsSequential | krake/krake/controller/__init__.py:156-183 | in every run no key is queued twice or while a worker holds it, and `dirty.pop` in `get` never fails |
| WorkQueueValues.StepConserves | krake/krake/controller/__init__.py:88-211 | every step moves values between places without losing or doubling one |
| WorkQueueValues.EveryPutIsSomewhere | krake/krake/controller/__init__.py:88-211 | in every run each value put is in exactly one place: waiting, in a sleeping timer, dirty, returned, superseded by another put of its key, or discarded by a cancellation |
| WorkQueueOrder.EveryDisciplinedRunIsOrdered | krake/krake/controller/__init__.py:88-183 | if nothing immediate is put while a value of the key is held back, and no second delayed put while one waits, then values of the key are returned in the order of the puts and none is replaced by an older one |
| WorkQueueOrder.NewestStands | krake/krake/controller/__init__.py:88-211 | under the same discipline the newest value of a key is on its way or the last one returned, unless discarded |
| WorkQueueOrder.WaitingPutGoesOn | krake/krake/controller/__init__.py:131-154 | under that discipline a waiting put can go on, at the latest after one callback that is due |
| WorkQueueOrder.EveryDisciplinedRunDelivers | krake/krake/controller/__init__.py:88-183 | when such a run comes to rest, the newest value of the key was delivered, and delivered last |
| WorkQueueOrder.ImmediatePutIsOvertaken | krake/krake/controller/__init__.py:127-129 | the discipline is needed: from any state with a value held back, an immediate put can be overwritten by that older value |
| WorkQueueOrder.SecondDelayedPutCanHang | krake/krake/controller/__init__.py:131-154 | the discipline is needed: from any state with a waiting put, a second delayed put can lead to a put that waits for a future nobody resolves |
| WorkQueueOrder.HangsForever | krake/krake/controller/__init__.py:131-154 | a put that waits for a future nobody can resolve stays waiting in every continuation |
| WorkQueueTurns.StepKeepsTurns | krake/krake/controller/__init__.py:83-183 | a `get` takes the first key, with its value; any other step leaves the queue alone or puts one key behind the others |
| WorkQueueTurns.EveryRunServesInOrder | krake/krake/controller/__init__.py:83-183 | in every run the keys handed out, followed by those that wait, are the keys that became due, in the order in which they did |
| WorkQueueTurns.ServedInTurn | krake/krake/controller/__init__.py:156-183 | the key at position p is handed out by the (p+1)-th `get` from there and by no earlier one, whatever is put, fired, done or cancelled in between |
| WorkQueueTurns.NeverOvertaken | krake/krake/controller/__init__.py:156-183 | when a key that became due later is handed out, every key that waited before has been handed out |
| WorkQueueTurns.StepDiscards | krake/krake/controller/__init__.py:185-207 | exactly the values of registered timers still asleep are given up: of the one key, or of all of them on closing |
| WorkQueueTurns.CancelledIsNeverReturned | krake/krake/controller/__init__.py:185-207 | what is cancelled is on its way nowhere and never returned, in any continuation |
| WorkQueueTurns.OthersAreNotCancelled | krake/krake/controller/__init__.py:185-207 | a cancellation leaves every other value where it is |
| WorkQueueTurns.ReplacedIsNeverReturned | krake/krake/controller/__init__.py:111-154 | a value overwritten before its key is handed out, or outrun by a newer delayed one while its timer sleeps, is never returned |
| WorkQueueTurns.ClosedStartsAfresh | krake/krake/controller/__init__.py:208-211 | after closing no entry is left, values in the queue stay, and a delayed put starts its timer at once |
| Etcd.ModifiedByLastWrite | krake/krake/api/database.py:76-82 | a stored pair carries the revision of the last write of its key, which wrote its value; version one means created by it |
| Etcd.NoAba | krake/krake/api/database.py:322-328 | a modification revision identifies one write: read again, the whole pair is unchanged |
| Etcd.ChangedSince | krake/krake/api/database.py:322-328 | a modification revision is found again if and only if nobody has written the key since |
| Sessions.PassesIffNobodyWrote | krake/krake/api/database.py:319-334 | a write held back since a read passes if and only if nobody wrote the key in between and the object still has that key |
| Sessions.PredictionIsExact | krake/krake/api/database.py:315-347 | the revision `put` computes from the response header is what a read returns: for new keys, updates, and puts after a delete |
| Sessions.DeletePassesOnlyUnchanged | krake/krake/api/database.py:371-380 | a delete passes only for the version its object was read as, never twice |
| Sessions.DeletedIsNewAgain | krake/krake/api/database.py:319-380 | after its delete an object can be put again exactly as long as nobody else has stored the key, and then starts a new incarnation |
| Sessions.Session.GetByKey | krake/krake/api/database.py:230-236 | the object at a revision with exactly the revision it was stored with |
| Sessions.Session.LoadInstance | krake/krake/api/database.py:400-414 | value and revision of the pair, attached |
| Sessions.Session.Put | krake/krake/api/database.py:290-347 | a compare-and-swap on the version held: on success one write is added, the stored pair was the one read, and the attached revision is the stored one; on failure nothing changes and the error tells new from existing keys |
| Sessions.Session.Delete | krake/krake/api/database.py:349-380 | a compare-and-swap delete: passes exactly for the stored version the object holds and removes it, leaving the object with version 0 and the revision of the delete; otherwise nothing changes, and an object without revision is refused |
| SessionRuns.EveryRunIsAChain | krake/krake/api/database.py:319-334 | under any interleaving of any number of sessions each committed write replaced exactly the pair its writer had read, and only existing keys are deleted |
| SessionRuns.EveryPutPredictsItsRevision | krake/krake/api/database.py:335-347 | under any interleaving, after each successful put the attached revision and value are the stored ones |
| Watches.EventShowsWrite | krake/krake/api/kubernetes.py:166-178 | every write gives an event, ADDED exactly for absent keys, MODIFIED for present ones, DELETED with the last stored value |
| Watches.StreamReplays | krake/krake/api/database.py:473-497 | replaying the events on the snapshot at the start of the watch, strictly, gives the selected part of the store at every later revision |
| Watches.OneEventPerWrite | krake/krake/api/kubernetes.py:166-183 | the stream has exactly one event per selected write, in the order of the writes: ADDED for an absent key, MODIFIED for a present one, DELETED with the last value |
| Watches.WatchChanges | krake/krake/api/kubernetes.py:166-183 | the loop of the watch handler sends exactly that stream |
| Watches.EveryRunReplays | krake/krake/api/kubernetes.py:158-183 | between any two moments of any run of sessions, the stream leads a client from the first store to the second |
| KubernetesApi.DeletionIsFinal | krake/krake/api/kubernetes.py:195-241 | one handler: once deleted, an entity stays deleted and no name enters its finalizers |
| KubernetesApi.OnlyUpdatesDrop | krake/krake/api/kubernetes.py:249-386 | a finalizer goes only through an update that leaves it out |
| KubernetesApi.RemovedExactlyWhen | krake/krake/api/kubernetes.py:94-241 | a request removes the entity if and only if it is a forced deletion, or a changing update of a deleted entity that leaves no finalizer and names the same object |
| KubernetesApi.RefusedExactlyWhen | krake/krake/api/kubernetes.py:94-386 | the exact condition of every refusal, and its status: 409 for a finalizer added during deletion, before 400 for an update that changes nothing or names another object, 401 for a hook without the stored token, 400 for a retry unless degraded; only a repeated deletion changes nothing |
| KubernetesApi.IdentityStays | krake/krake/data/serializable.py:564-633 | name, namespace, uid and creation time never change |
| KubernetesApi.ApplicationKeyIdentifies | krake/krake/data/__init__.py:58-82 | two applications share a key exactly if they share namespace and name |
| KubernetesApi.KubernetesApi.CreateApplication | krake/krake/api/kubernetes.py:51-88 | creates under a free key, and answers 409 exactly if the key exists |
| KubernetesApi.KubernetesApi.DeleteApplication | krake/krake/api/kubernetes.py:94-128 | the entity marked or removed in place and written, the write passing only on the version loaded |
| KubernetesApi.KubernetesApi.UpdateApplication | krake/krake/api/kubernetes.py:195-241 | an update with all its refusals: the body taken over in place, the entity written or removed, the write passing only on the version loaded |
| KubernetesApi.KubernetesApi.UpdateApplicationBinding | krake/krake/api/kubernetes.py:249-264 | a binding: status and owners changed in place and written, passing only on the version loaded |
| KubernetesApi.KubernetesApi.UpdateApplicationComplete | krake/krake/api/kubernetes.py:270-293 | the complete hook: refused without the token; otherwise marked in place and written, passing only on the version loaded |
| KubernetesApi.KubernetesApi.UpdateApplicationShutdown | krake/krake/api/kubernetes.py:299-330 | the shutdown hook: refused without the token; otherwise the state changed in place and written, passing only on the version loaded |
| KubernetesApi.KubernetesApi.UpdateApplicationStatus | krake/krake/api/kubernetes.py:336-355 | a status update: the status taken over in place and written, passing only on the version loaded |
| KubernetesApi.KubernetesApi.RetryApplication | krake/krake/api/kubernetes.py:360-386 | a retry: refused unless degraded; otherwise the state changed in place and written, passing only on the version loaded |
| Lifecycle.EveryRunIsSerial | krake/krake/api/kubernetes.py:94-386 | however handlers interleave, the log of writes reads as if whole handlers had run one after the other |
| Lifecycle.FinalizersOnlyShrink | krake/krake/api/kubernetes.py:195-241 | within one incarnation of a key: once deleted, always deleted, and no name ever enters the finalizers |
| Lifecycle.SomebodyDropped | krake/krake/api/kubernetes.py:195-241 | a finalizer that is gone was dropped by an update of the key in between |
| Lifecycle.RemovalComesLast | krake/krake/api/kubernetes.py:219-229 | an unforced removal comes last: the entity is deleted and each finalizer it ever had was dropped by an update before or at the removal |
| Lifecycle.EveryRunKeepsLifecycle | krake/krake/api/kubernetes.py:94-386 | in the log of every run: deletion is final, no name enters the finalizers afterwards, and an unforced removal meets a deleted entity each of whose finalizers was dropped by an update |
| Lifecycle.DeletedIsNotMarked | krake/krake/api/kubernetes.py:94-128 | an incarnation is marked by an unforced delete request at most once, and never after it was deleted otherwise |
| Lifecycle.CompletedStaysOutside | krake/krake/api/kubernetes.py:270-297 | what the complete hook has deleted without the collector's finalizer never gets it in that incarnation, whatever requests follow |
| Lifecycle.BoundStaysOwned | krake/krake/api/kubernetes.py:249-264 | whatever is written after a binding, the cluster owns the application until an update leaves it out |
| Lifecycle.EachRetryHasItsReport | krake/krake/api/kubernetes.py:336-386 | every retry is preceded by a status update that reports the application as degraded, and the next retry by another one |
| Lifecycle.LastUpdateStands | krake/krake/api/kubernetes.py:195-241 | whatever other handlers write afterwards, the specification stored is that of the last update accepted in the incarnation |
| Lifecycle.UpdatesKeepStatus | krake/krake/data/serializable.py:564-633 | updates alone never change a status, whatever their bodies say |
| Lifecycle.TokenWasGiven | krake/krake/api/kubernetes.py:270-355 | a hook token that is stored was stored by a status update to the same incarnation |
| Lifecycle.EveryHookHadItsToken | krake/krake/api/kubernetes.py:270-355 | in every run a complete or shutdown request writes only with a token that a status update has stored before in the same incarnation |
| LifecycleFields.FieldsStand | krake/krake/api/kubernetes.py:94-386 | in any log each field of status and metadata stands until one of the requests that set it, named for each field, is served |
| LifecycleFields.LastDecisionStands | krake/krake/api/kubernetes.py:94-386 | the state stored is what the last request decided that moves it: that of a status update's body, READY_FOR_ACTION after either hook, WAITING_FOR_CLEANING after a retry or a deletion with a shutdown hook |
| LifecycleFields.LastReportStands | krake/krake/api/kubernetes.py:336-355 | the status stored is that of the last status update, in each part until another request sets that part |
| LifecycleFields.LastBindingStands | krake/krake/api/kubernetes.py:249-264 | the cluster stored is that of the last binding, with its time, until a status update |
| LifecycleFields.GracePeriodIsOver | krake/krake/api/kubernetes.py:316-386 | after a retry, or a shutdown hook that was waited for, there is no grace period until a status update sets one |
| LifecycleFields.LastBodyStands | krake/krake/api/kubernetes.py:195-241 | labels, owners and finalizers are those of the last update, and `modified` is its time, each until another request sets it |
| LifecycleFields.DeletionStands | krake/krake/api/kubernetes.py:94-128 | the time of deletion is that of the request that deleted, and a mark appends `cascade_deletion` to the finalizers there were |
| LifecycleFields.CreationStands | krake/krake/api/kubernetes.py:51-88 | what no request has set since is as created: from the body, but for identity, times and status, which starts as pending without tokens and cluster |
| LifecycleFields.IdentityIsBorn | krake/krake/api/kubernetes.py:51-88 | name, namespace, uid and time of creation are those of the creation for as long as the incarnation lives |
| LifecycleFields.CompletedStaysReady | krake/krake/api/kubernetes.py:270-293 | after the complete hook only a status update changes the state: no hook, retry or deletion does |
| LifecycleFields.MarkedWaits | krake/krake/api/kubernetes.py:110-128 | an application deleted with a shutdown hook waits for cleaning until that hook answers, it is completed, or its status is updated |
| Retries.WritePassesIff | krake/krake/api/database.py:319-334 | the transaction of a handler fails if and only if somebody wrote its key after it was loaded |
| Retries.Attempt | krake/krake/api/middlewares.py:31-36 | the response of an attempt is the handler's on the entity it has read, and it has written exactly what that response says; it fails exactly if somebody else wrote the key in between |
| Retries.ResponsesMean | krake/krake/api/middlewares.py:31-36 | 404 exactly if the key was absent, any other problem exactly if the handler refused with it, and then nothing is written; Ok exactly otherwise, with the one write the handler wants, served as one whole request |
| Retries.RetryTransaction | krake/krake/api/middlewares.py:31-42 | at most `retry + 1` attempts, all but the last overtaken and without a write; response and write are those of the last one, and the final 409 comes exactly if every attempt was overtaken |
| Retries.RetryApplicationTransaction | krake/krake/api/middlewares.py:31-42 | the same for applications, whose keys are made of namespace and name |
| KeyTemplates.FormatIsInjective | krake/krake/data/__init__.py:84-107 | different arguments make different keys |
| KeyTemplates.MatchesExactlyFormatted | krake/krake/data/__init__.py:38-56 | the regular expression accepts exactly formatted keys, with or without one line break at the end |
| KeyTemplates.MatchesExactlyTheImage | krake/krake/data/__init__.py:47-56 | among keys that do not end in a line break, the regular expression accepts exactly the image of formatting |
| KeyTemplates.AllowedInNames | krake/krake/data/core.py:170-197 | keys allow exactly the characters that resource names can have |
| KeyTemplates.AcceptedNamesMatch | krake/krake/data/__init__.py:47-56 | every key made of names the API accepts is matched by its template, and different names make different keys |
| KeyTemplates.PrefixDecides | krake/krake/data/__init__.py:109-140 | with a parameter left out, a key starts with the prefix exactly if its arguments agree with those given |
| KeyTemplates.ScanIsExact | krake/krake/api/database.py:280-288 | with a proper leading subset of the parameters, a scan returns exactly the stored keys that agree with it |
| KeyTemplates.FullScan | krake/krake/api/database.py:280-288 | with every parameter given it also returns keys whose last argument only starts with the one given |
| KeyTemplates.Key.Take | krake/krake/data/__init__.py:130-138 | the loop over the parameters takes arguments up to the first one missing |
| KeyTemplates.Key.FormatKwargs | krake/krake/data/__init__.py:84-107 | succeeds exactly if the arguments are the parameters, and then formats them |
| KeyTemplates.Key.Prefix | krake/krake/data/__init__.py:109-140 | succeeds exactly if the arguments are a leading part of the parameters, and then formats the template up to the first one left out |
| Fixtures.WalksGoBack | krakectl/krakectl/fixtures.py:167-217 | along the dependencies of a fixture that has run one only meets fixtures that ran earlier |
| Fixtures.Resolver.Call | krakectl/krakectl/fixtures.py:167-217 | dependencies are met when the function runs, fixtures run once and in order, only those run that are needed for a dependency not given, and the call terminates |
| Fixtures.Resolver.Load | krakectl/krakectl/fixtures.py:185-210 | a fixture under way that is asked for again closes a real cycle; the configuration is called with the arguments of its caller |
| Fixtures.Resolver.Record | krakectl/krakectl/fixtures.py:199-209 | the fixture popped is always the one pushed, and the generators to finish are exactly those that have run |
| Fixtures.Resolver.Resolve | krakectl/krakectl/fixtures.py:167-217 | without overrides and with all dependencies registered, the circular error is raised if and only if a cycle can be reached; shared dependencies are accepted; overrides reach the configuration exactly as its caller has them when it asks for it first |
| Magnum.GuardedMeans | krake/krake/controller/magnum.py:294-415 | what the invariant means: at most one actual cluster, none without the finalizer or in the pending state, and a running one has its references set |
| Magnum.MagnumClusterController.CreateMagnumClient | krake/krake/controller/magnum.py:708-735 | connecting can fail with an error the controller handles, or with one that escapes, as when the project is not found |
| Magnum.MagnumClusterController.OnPending | krake/krake/controller/magnum.py:338-395 | starts with no actual cluster, asks for one exactly if the template is right, and goes on only with a guarded, recorded one; a reference to a Kubernetes cluster is kept |
| Magnum.MagnumClusterController.WaitForRunning | krake/krake/controller/magnum.py:539-612 | ends with the first answer that is not about an operation under way: running with the node count reported exactly if it is complete, pending with the reference cleared exactly if the cluster is gone, and with an error, the status unchanged, exactly on a failure |
| Magnum.MagnumClusterController.ReconcileKubernetesResource | krake/krake/controller/magnum.py:614-645 | its three assertions about a running cluster hold |
| Magnum.MagnumClusterController.OnCreating | krake/krake/controller/magnum.py:397-415 | ends in a stable state |
| Magnum.MagnumClusterController.OnRunning | krake/krake/controller/magnum.py:417-451 | asks for a resize, to the wanted node count, exactly if the recorded one differs from it, and then goes on to reconciling exactly if the request succeeds |
| Magnum.MagnumClusterController.Reconcile | krake/krake/controller/magnum.py:294-336 | the state machine takes at most two actions, asks the service for what is due in the state it found and for nothing else, keeps the finalizer, and ends pending or running exactly if nothing fails |
| Magnum.MagnumClusterController.EnsureFinalizer | krake/krake/controller/magnum.py:305-312 | the finalizer is appended, behind those of others, before the service is asked for anything |
| Magnum.MagnumClusterController.StartDeletion | krake/krake/controller/magnum.py:504-515 | the service is asked to delete the recorded cluster exactly if it has not been before, and one that is gone is no error |
| Magnum.MagnumClusterController.WaitForDeletion | krake/krake/controller/magnum.py:517-530 | ends without an error exactly when the service answers that the cluster is gone |
| Magnum.MagnumClusterController.DeleteMagnumCluster | krake/krake/controller/magnum.py:473-537 | removes the finalizer, and no other, only once no cluster is left and where one was created only after the service has said so, and does remove it unless there was an error |
| Magnum.MagnumClusterController.ProcessCluster | krake/krake/controller/magnum.py:246-292 | a piece of work: a failure of the service ends in the failed state, other errors escape, and without either everything due was asked for and the state is stable; the finalizer goes only from deleted resources without a cluster |
| Magnum.MagnumClusterController.Round | krake/krake/controller/magnum.py:165-244 | exactly resources in deletion whose last finalizer is this controller's, and live ones that are scheduled and not failed, are worked on; everything else is left alone |
| Magnum.MagnumClusterController.Consume | krake/krake/controller/magnum.py:228-244 | over any number of rounds, whatever others and the service do: no cluster without its finalizer, never two, and persisted RUNNING has cluster reference and template, and an identifier and node count that the service has reported complete |
| ConfigMerge.AssignsCommute | krake/krake/__init__.py:389-399 | assignments at places apart may be made in either order |
| ConfigMerge.LeavesApart | krake/krake/__init__.py:140-199 | no recorded hierarchy of fields is the beginning of another |
| ConfigMerge.OptionNameJoins | krake/krake/__init__.py:107-121 | an option is named by the dashed names along its hierarchy, joined by dashes, however it is taken apart |
| ConfigMerge.ResultFindsOption | krake/krake/__init__.py:355-362 | the name `argparse` gives the result of an option leads back to that option |
| ConfigMerge.AddOptArgs | krake/krake/__init__.py:140-199 | records exactly the leaves that are no lists, each under the name of its hierarchy |
| ConfigMerge.RecordedPathsApart | krake/krake/__init__.py:140-199 | the paths recorded for a configuration class are pairwise apart: none is the beginning of another |
| ConfigMerge.LoadCommandLine | krake/krake/__init__.py:338-373 | keeps exactly the arguments that are set, belong to the mapper and differ from the default |
| ConfigMerge.MergeArgument | krake/krake/__init__.py:389-399 | one option works exactly if its section was loaded, whatever was merged before |
| ConfigMerge.ReplaceFromCli | krake/krake/__init__.py:375-401 | fails exactly if a needed section is missing; otherwise each option shows its argument if that is set and not the default, and else what was loaded, and nothing apart from these places changes, in any order |
| ConfigMerge.ReplaceHyphen | krake/krake/__init__.py:202-232 | at no depth a key with a hyphen is left, every value stems from a key of that name (a hyphenated one first), and a clean dictionary stays as it is |
| ConfigMerge.Merge | krake/krake/__init__.py:403-422 | hyphens are replaced first, then the command line wins: succeeds exactly if every needed section is there, and shows every chosen argument and otherwise the file |

## Left out

- Garbage collector assumptions: owners are fixed at creation, and `debounce` is 0.
- CascadeTheorems.BottomUpDeletion: for runs of sound steps. A creation below an owner that a worker is about to drop or that has lost the finalizer, an update that takes the finalizer off above something, and a worker that finds no dependents before it has heard of them break the invariant, and so do names that are used again, owners that are not stored, second paths of ownership, finalizers listed twice and the collector's finalizer put there by others (`CascadeSafety.EveryStepKeepsInv`).
- CascadeRest.ComesToRest: the collector's own sound steps; a worker that must not take a resource yet waits for the event it has not heard.
- CascadeRest.CascadeFinishes: under the discipline of `CascadeCalm`, without which the races of `CascadeRaces` strand an owner.
- CascadeBelow.EarlyDeletionOrphansBelow: for descendants that a line of live, known dependents with stored siblings leads to; elsewhere releases by other controllers may have to come first. Its run does not keep to the order of events of one kind, except for the overtaken creation.
- CascadeProgress.NothingGetsStuck: holds for runs that never take the branch named there; after it the collector alone never recovers (`CascadeStranded.DisorderlyStepLosesForGood`).
- CascadeStranded.StrandedForGood: through sound steps; if another deletion reaches a live dependent of the resource, marking that dependent revives it (`CascadeStranded.StrandedUntilRevived`), so the claim is made for resources without one.
- CascadePasses.HeardIsCalled: for passes in which nothing leaves or moves in the list and no call is answered 404; what a pass skips is left to later ones, which `CascadeProgress` accounts for.
- The watch of one kind handles one event after the other; the protocol lets all events and handlers interleave, which covers more runs. The runs of `CascadeRaces` keep to the order of one kind.
- The stamp of an update is later than the one before: two updates within the resolution of the clock are not modelled.
- WorkQueues.WorkQueue.ForgetTimers: the awaits of `close` between cancelling and forgetting are two separate steps, so puts may come in between; with forgotten entries the order theorems do not apply.
- The bounded queue (`maxsize`), `full` and `size`, real time and the length of delays: a timer may end at any moment after it starts.
- Values in the work queue are tickets numbered in the order of the puts, so equal values of different puts are told apart.
- Etcd compaction, leases, transactions with several operations, and connection errors: every write is one operation with a revision of its own.
- Serialization: objects are stored as values; schemas, validation and JSON play no role.
- Sessions.Session.GetByKey: the key is given, since formatting it is `KeyTemplates`; the scan `all` is the set `KeyTemplates.Scanned`, without the order of its results.
- Fields of applications that no handler looks at (tosca, csar, observer schemas, certificates, retries) are left out of the entity; `labels` stand for the other fields an update copies.
- Retries.RetryTransaction: for requests on a loaded entity; a creation loads nothing and answers a failed transaction itself (`KubernetesApi.KubernetesApi.CreateApplication`).
- The cluster handlers repeat the application handlers without the hooks; the core, infrastructure and OpenStack APIs repeat them again.
- Blocking requests (`blocking` in `helpers.py`), authentication, heartbeats, TLS and HTTP plumbing.
- KeyTemplates.Key.FormatKwargs: arguments are strings, templates come cut at their parameters, and their fixed parts contain no characters special to regular expressions, as in all templates of the repository.
- Fixtures.Resolver.Resolve: values of fixtures, and what happens when a generator is finished in `__exit__`, are not modelled; a resolver is not used again after an error, which leaves its chain behind.
- Magnum.MagnumClusterController.Consume: assumes that reads and deletes of an unset identifier give NotFound, that a failed creation has created nothing, that status writes succeed while the resource exists, that the worker starts from the persisted status, that others leave this controller's finalizer alone, and that the process does not crash between a creation and the status write after it.
- Polling in the Magnum controller ends: the service answers an unfinished operation finitely often before it fails the call.
- What the Magnum controller does with the Kubernetes cluster resource, certificates and clients, beyond whether these calls fail.
- ConfigMerge.ReplaceFromCli: nested dictionaries are values here; the merge changes those of its argument in place, which `merge` prevents by copying first. Deserialization of the result and the defaults of `argparse` itself are left out.
- ConfigMerge.AddOptArgs: help texts, types and boolean actions of options are left out; a name used twice is refused, as `argparse` does.
- The scheduler, the Kubernetes application controller, the infrastructure controller, `Observer`, `Executor`, `BurstWindow`, `sigmoid_delay` and role-based access control.
