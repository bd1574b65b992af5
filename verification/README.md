# natscpp: a model and its proofs

natscpp wraps the C client nats.c in C++20 objects. This project models what the wrapper itself adds,
the lifetime and ownership protocols between C++ objects, raw closure pointers held by nats.c, and
other threads, and proves that they keep their promises, or exactly when they do not.

| module | models |
|---|---|
| `Registry`, `RegistryCalls`, `RegistryInvariant`, `RegistryTheorems` | the callback registry as a machine whose steps are statements: registration, rollback, unsubscription, destruction and moves of both objects by any number of threads, with an allocator that reuses addresses |
| `SubscriptionObject` | the `subscription` and `connection` objects with their fields changed in place, tied to runs of that machine, order of events included |
| `Completion` | replacing the completion callback, with overlapping callers |
| `Awaitable` | the race between worker threads and the destructor of `future_awaitable` |
| `Sharing` | reference counts of native connections and handler blocks |
| `Teardown` | both machines side by side: how long a destroyed connection endangers its subscriptions |
| `Handles`, `Messages` | uniquely owned native handles: programs over them, and the objects and batch hand-over loops |
| `KeyValue` | the two handles of `key_value` and their order of destruction |
| `Delivery` | what becomes of a delivered message |
| `Trace` | injecting and extracting trace context |
| `Connect` | applying connection options and connecting |

Machines are a `State`, a `Step` with `Enabled` and `Apply`, and an invariant. A run is a sequence of
steps, so a statement about all runs covers all interleavings. History variables (`claim`, `holder`,
`released`, `claims`, `resumes`, ...) are read by no step.

## What is assumed of the surroundings

- A native create that fails leaves its out-pointer null; `natsSubscription_SetOnCompleteCB` that
  fails keeps the old callback.
- No delivery or completion call starts or is still running after `natsSubscription_Destroy`
  returns; no message delivery and no handler callback of a native connection starts or is still
  running once its `natsConnection_Destroy` has returned.
- Publish and request calls never take the message they are given.
- A moved-from `std::function`, map or smart pointer is empty.
- The allocator may return any address no live closure occupies; control blocks that a weak pointer
  refers to are not reused, so callback blocks, native connections and messages carry serial numbers.
- The awaitable's flag is sequentially consistent.
- As C++ demands, an object is not used by two calls at once, the source of a move outlives the move,
  and a connection is not destroyed or moved while a registration runs on it.
- Message headers: set replaces the list of values of a key, get returns the first, keys are compared
  exactly, and keys and values cross as C strings.

## Where the code does not keep the strongest promise

Each of these is kept as the code has it, with a concrete run and the exact condition.

- Move assignment onto a live asynchronous subscription releases the closure before the native
  subscription is destroyed (include/natscpp/subscription.hpp:75-76): `MoveAssignWindowIff`,
  `AssigningOverLiveSubscriptionDangles`. Together with the next item this is all that can go wrong:
  `AlwaysSafeIffDisciplined`.
- A connection destroyed before its asynchronous subscriptions takes their closures with it
  (include/natscpp/connection.hpp:860-862): `DeliverySafeIff`, `DroppingConnectionFirstDangles`. The
  danger lasts until its native connection is gone, so after the destructor exactly as long as a
  request holds it: `WindowIff`, `SettledWindow`, `RequestKeepsWindowOpen`.
- The completion lock is not held across the native call (include/natscpp/subscription.hpp:210-240):
  callers may overlap as long as no two of those in flight at once succeed: `AliveIffSuccessesApart`,
  `OverlappingCallsDangle`.
- The comment at include/natscpp/awaitable.hpp:51-53 says that the handle is valid once the flag is
  claimed; a destruction from outside between the claim and the resumption is not covered:
  `StraysIff`, `DoomedIff`, `OutsideDestructionStrays`.
- Header values with a NUL character come back cut off: `ComesBackIff`.

## Model

| member | source | states |
|---|---|---|
| `RegistryInvariant.StepKeepsInv` | include/natscpp/connection.hpp:552-578 | Every statement of every call, by any thread in any order, keeps the registry invariant: no two live closures share an address, a token is in the map from its insertion until its call ends, every map entry belongs to a call in flight or to exactly one object whose release is still due, every native subscription has one holder, and each object half-way through a call is in the state its next statement expects. |
| `RegistryInvariant.ConnectionStepKeepsInv` | include/natscpp/connection.hpp:201-202 | Creating, moving, move-assigning and destroying connection objects keeps it: the callback block moves with its connection, and the target's block goes away with its old owner. |
| `RegistryInvariant.RegistrationStepKeepsInv` | include/natscpp/connection.hpp:555-578 | The statements of `register_async_subscription` (make token, insert, native subscribe, roll back or return) keep it, whichever free address the allocator returns. |
| `RegistryInvariant.AdvanceKeepsInv` | include/natscpp/subscription.hpp:60-80 | The pending statement of `unsubscribe`, the destructor or a move keeps it. |
| `RegistryInvariant.CallStepKeepsInv` | include/natscpp/subscription.hpp:56-101 | Starting any subscription call keeps it, self-assignment and failed unsubscription included. |
| `RegistryInvariant.RegisteredFrame` | include/natscpp/subscription.hpp:60-80 | A statement that leaves maps, calls in flight and due releases alone keeps the registry side. |
| `RegistryTheorems.RunsKeepInv` | include/natscpp/connection.hpp:552-578 | The invariant holds at the end of every run, of any length, from any state that has it. |
| `RegistryTheorems.WhoReleases` | include/natscpp/subscription.hpp:307-312 | The closure of a live native subscription is due for release by exactly the call or object that holds the handle (or the object it was just moved from), or has been released. |
| `RegistryTheorems.ReleaseIsSafeIff` | include/natscpp/subscription.hpp:307-312 | Running the release lambda of an object leaves every closure nats.c may dereference in the map iff the object no longer holds its native subscription (or has nothing to release). |
| `RegistryTheorems.RollbackIsSafe` | include/natscpp/connection.hpp:567-571 | A failed registration that erases its own entry never takes a closure away from a live native subscription, even at a reused address. |
| `RegistryTheorems.DropIsSafeIff` | include/natscpp/connection.hpp:860-862 | Dropping a callback block leaves every closure of a native subscription object in a map iff the block backs none of them; `Teardown` says how long that matters. |
| `RegistryTheorems.DeliverySafeIff` | include/natscpp/subscription.hpp:60-101 | From a state in which every closure nats.c may dereference is in the map, a statement leads to such a state again iff it is neither a release before the native destroy nor the loss of a block that still backs a subscription. |
| `RegistryTheorems.HazardFreeRunsAreSafe` | include/natscpp/subscription.hpp:60-101 | Closure liveness between any two statements of any run without those two situations. |
| `RegistryTheorems.DisciplinedRunsAreSafe` | include/natscpp/subscription.hpp:60-101 | The same at the end of every run in which the caller checks before each call: no move assignment onto a live asynchronous subscription, no connection dropped while one of its asynchronous subscriptions is left. |
| `RegistryTheorems.AlwaysSafeIffDisciplined` | include/natscpp/subscription.hpp:60-101 | Over every run in which all calls return: every closure nats.c may dereference is in its map in every state iff the caller kept that discipline. |
| `RegistryTheorems.EntryIff` | include/natscpp/subscription.hpp:60-101 | In every state of every run, hazards included: the closure of a native subscription is in its map iff its callback block is there and its release lambda has not run. |
| `RegistryTheorems.ReleasedIff` | include/natscpp/subscription.hpp:75-76 | The release lambda of a native subscription that still exists has run iff a move assignment onto the object holding it is past the release and has not replaced `sub_` yet. |
| `RegistryTheorems.MoveAssignWindowIff` | include/natscpp/subscription.hpp:70-80 | Move assignment between idle objects leaves nats.c with a dangling closure after its first statement iff the target holds an asynchronous subscription. |
| `RegistryTheorems.ReleaseErasesOnlyItsOwn` | include/natscpp/connection.hpp:572-577 | No stale erase: a release lambda that runs has never run before; with the block alive it removes exactly its own entry and no other entry of any map changes; with the block gone nothing changes. |
| `RegistryTheorems.ReleaseRunsAtMostOnce` | include/natscpp/subscription.hpp:307-312 | Over every run the release lambda of each registration runs at most once, and not at all once it has run. |
| `RegistryTheorems.OneClosurePerAddress` | include/natscpp/connection.hpp:555-561 | At most one live closure occupies an address, although addresses are reused. |
| `RegistryTheorems.LifeOfConnection` | include/natscpp/connection.hpp:860-862 | A new connection has a new, empty block; a destroyed one takes exactly its block along. |
| `RegistryTheorems.MovesOfConnection` | include/natscpp/connection.hpp:201-202 | A moved connection takes its block with every entry along; the block of an assigned-to connection goes; onto itself nothing happens; all else is as before. |
| `RegistryTheorems.DeliveryReachesItsHandler` | include/natscpp/connection.hpp:539-547 | In a disciplined run the raw address nats.c kept leads to exactly the closure registered with that native subscription. |
| `RegistryTheorems.QuiescentAgreement` | include/natscpp/connection.hpp:552-578 | With no call in flight the map entries are exactly the closures of the asynchronous native subscriptions still owned, each owned by exactly one object. |
| `RegistryTheorems.RegistryAgreement` | include/natscpp/connection.hpp:552-578 | Registry agreement over every run from the empty process; once all objects are gone no native subscription and no closure is left. |
| `RegistryTheorems.AssigningOverLiveSubscriptionDangles` | include/natscpp/subscription.hpp:75-76 | A concrete run of three calls after which nats.c holds a dangling closure: assignment onto a live asynchronous subscription. |
| `RegistryTheorems.DroppingConnectionFirstDangles` | include/natscpp/connection.hpp:860-862 | A concrete run in which the connection object goes before its subscription and nats.c holds a dangling closure. |
| `RegistryCalls.CloseCall` | include/natscpp/subscription.hpp:60-101 | A whole `unsubscribe()` or destructor is a run that removes the native subscription and the map entry, in that order of events, and touches nothing else. |
| `RegistryCalls.AddressIsFreeAgain` | include/natscpp/connection.hpp:572-577 | After an object has closed, the allocator may return the address of its closure again. |
| `RegistryCalls.QuietCalls` | include/natscpp/subscription.hpp:96-98 | Unsubscribing without a handle, or refused by nats.c, changes nothing. |
| `RegistryCalls.MoveConstructCall` | include/natscpp/subscription.hpp:65-68 | A whole move construction is a run without events that hands both members over and empties the source. |
| `RegistryCalls.MoveAssignCall` | include/natscpp/subscription.hpp:70-80 | A whole move assignment is a run that releases the target's callback, then destroys its native subscription, then takes both members. |
| `RegistryCalls.RegisterCall` | include/natscpp/connection.hpp:552-578 | A whole registration is a run: inserted then subscribed on success; on failure inserted, refused and erased, with all maps as before. |
| `SubscriptionObject.Connection.RegisterAsyncSubscription` | include/natscpp/connection.hpp:552-578 | The body ends in the machine's state with the same events in the same order: token in the map before nats.c may deliver; refused registrations leave the map as it was; accepted ones return an object owning the handle and the duty to release. |
| `SubscriptionObject.Subscription.ReleaseCallback` | include/natscpp/subscription.hpp:307-312 | Erases exactly the own key if the block is alive, and empties the lambda. |
| `SubscriptionObject.Subscription.Unsubscribe` | include/natscpp/subscription.hpp:96-101 | No handle: nothing; native failure: nothing changes; otherwise native destroy, then release, as in the machine's run. |
| `SubscriptionObject.Subscription.Destruct` | include/natscpp/subscription.hpp:60-63 | Native destroy before release, as in the machine's run; completion callbacks go last. |
| `SubscriptionObject.Subscription.Move` | include/natscpp/subscription.hpp:65-68 | All three members change hands, the source is empty, and the completion callback nats.c holds stays in the map of whoever holds the handle. |
| `SubscriptionObject.Subscription.MoveAssign` | include/natscpp/subscription.hpp:70-80 | Onto itself nothing; otherwise release, native destroy, take, as in the machine's run; completion callbacks stay with the handle. |
| `SubscriptionObject.Subscription.TakeMembers` | include/natscpp/subscription.hpp:76-78 | The member moves destroy the old native subscription and nothing else. |
| `SubscriptionObject.Subscription.SetOnCompleteCallback` | include/natscpp/subscription.hpp:207-241 | Serialised callers: success ends with exactly the new token, failure restores the old map and throws; nats.c is given only a token the map holds, and no erasure hits the one it has. |
| `Completion.SerialStep` | include/natscpp/subscription.hpp:207-241 | With calls that do not overlap, every step keeps: the callback nats.c holds is in the map, and between calls the map holds nothing else. |
| `Completion.SerialisedRunsKeep` | include/natscpp/subscription.hpp:207-241 | The same over every run of calls that do not overlap, with the native callback free to fire between any two steps. |
| `Completion.WholeCall` | include/natscpp/subscription.hpp:207-241 | A whole call while no other is in flight: nats.c then holds the new callback if it accepted it and the old one otherwise, and the map holds that one alone. |
| `Completion.StepKeepsDistinct` | include/natscpp/subscription.hpp:209-213 | Tokens of overlapping calls and map entries stay distinct objects at distinct addresses. |
| `Completion.PruneResult` | include/natscpp/subscription.hpp:231-239 | Whatever the iteration order, and whatever native switches other calls make during the loop, pruning leaves exactly the own token, if it was still there. |
| `Completion.AliveIffSuccessesApart` | include/natscpp/subscription.hpp:207-241 | Over every run of calls that all return, by any number of threads in any interleaving: the callback nats.c holds is never freed, the map or the local token of a call keeping it alive in every state, iff no two successful calls were ever in flight at once; failing calls may overlap with anything. |
| `Completion.KeptIffSuccessesApart` | include/natscpp/subscription.hpp:207-241 | The map alone holds that callback in every state under the very same condition. |
| `Completion.ApartKeeps` | include/natscpp/subscription.hpp:207-241 | The half of it that needs no call to return: apart successes keep the callback in the map in every state of any run. |
| `Completion.PrunedTokenDies` | include/natscpp/subscription.hpp:209-240 | If another call has pruned the token of a successful call in flight, then by the time all calls have returned there was a state in which nothing kept the callback nats.c holds alive. |
| `Completion.OverlapDies` | include/natscpp/subscription.hpp:209-240 | The same if two successful calls are in flight at once, in whatever order they switch and prune. |
| `Completion.OverlappingCallsDangle` | include/natscpp/subscription.hpp:209-240 | A run of two overlapping successful calls: once both have returned, nats.c holds a callback that neither the map nor a call keeps alive. |
| `Awaitable.StepKeepsInv` | include/natscpp/awaitable.hpp:35-59 | Every step of promise, workers, coroutine and destructor keeps the invariant: the flag is a token that is still set, or taken by one worker, or taken by the destructor. |
| `Awaitable.Exclusivity` | include/natscpp/awaitable.hpp:35-59 | Any number of workers, any interleaving: at most one claim and one resumption, none before the future is ready, the flag only falls, and none ever once the destructor's exchange came first. |
| `Awaitable.ResumesOnlySuspended` | include/natscpp/awaitable.hpp:54-57 | The resumption finds the future ready, no earlier resumption, no other claimer, and a suspended frame unless it was freed from outside. |
| `Awaitable.WorkerCanMove` | include/natscpp/awaitable.hpp:49-58 | Once the future is ready a worker that is not gone can always take its next step, and that brings it closer to the end. |
| `Awaitable.NobodyPushesBack` | include/natscpp/awaitable.hpp:49-58 | No step of anybody takes a worker back or makes the future unready. |
| `Awaitable.WorkerFinishes` | include/natscpp/awaitable.hpp:49-58 | No lost wake-up: in every run a worker is gone after at most five steps of its own, whether the future became ready before or after the suspension. |
| `Awaitable.ResumedOrDestroyedFirst` | include/natscpp/awaitable.hpp:48-59 | When all workers are gone exactly one of "resumed once" and "destroyed first" happened. |
| `Awaitable.ResumedRuns` | include/natscpp/awaitable.hpp:54-57 | A coroutine that awaits once is not suspended any more after its resumption: it runs, or its frame is gone together with the awaitable. |
| `Awaitable.ResultIsThere` | include/natscpp/awaitable.hpp:48-61 | Once the worker is gone, unless the awaitable was destroyed, the coroutine runs, its future is ready, and `get()` takes the result. |
| `Awaitable.AwaitCompletes` | include/natscpp/awaitable.hpp:44-61 | From every reachable state in which the coroutine is suspended and the awaitable lives, fulfilling the promise and letting the worker go on end with the coroutine running and the result taken. |
| `Awaitable.DestructorCall` | include/natscpp/awaitable.hpp:35-42 | The whole destructor clears the flag, cancels iff it was still set, drops one owner of the state, and leaves a coroutine that runs it running. |
| `Awaitable.StateLifetime` | include/natscpp/awaitable.hpp:63-69 | The shared state is freed exactly when awaitable and workers have all dropped it, once; nobody who still holds it finds it freed; `get()` after a resumption finds the future ready. |
| `Awaitable.SingleAwaitWaitsSafely` | include/natscpp/awaitable.hpp:49-61 | With one suspension before `get()`, no worker is ever about to wait on a future whose result was taken. |
| `Awaitable.ClaimedIff` | include/natscpp/awaitable.hpp:52-57 | While the awaitable lives, a worker is between its claim and its resumption iff the flag is cleared and the coroutine has not been resumed. |
| `Awaitable.DoomedIff` | include/natscpp/awaitable.hpp:51-57 | The one step that makes a worker resume a freed frame is a destruction from outside after the flag was cleared and before the coroutine was resumed. |
| `Awaitable.StraysIff` | include/natscpp/awaitable.hpp:48-59 | Over every run in which all workers end: no freed frame is ever resumed iff there is no such destruction. |
| `Awaitable.DisciplinedRunsNeverStray` | include/natscpp/awaitable.hpp:48-59 | Without such a destruction no run, ended or not, resumes a freed frame. |
| `Awaitable.OutsideDestructionStrays` | include/natscpp/awaitable.hpp:51-57 | A concrete run in which one does, although the comment at these lines says the handle is valid. |
| `Sharing.StepKeepsInv` | include/natscpp/connection.hpp:215-240 | Every statement of connect, reconnecting an object, moves, destruction, `request_async` and the deleter keeps: each control block counts exactly the references to it, and the handler block of every native connection is pinned by the opening call or by the deleter. |
| `Sharing.HandlerBlockLive` | include/natscpp/connection.hpp:221-239 | The handler block every live native connection passes to its callbacks is live, from the native connect until natsConnection_Destroy returns. |
| `Sharing.CountIsExact` | include/natscpp/connection.hpp:500-515 | Every connection object and task refers to a connection that is not destroyed, and its count is the number of such references. |
| `Sharing.DestroyedByLastHolder` | include/natscpp/connection.hpp:236-238 | A step starts the deleter iff it takes the last reference away. |
| `Sharing.DestroyedExactlyOnce` | include/natscpp/connection.hpp:236-238 | No native connection is destroyed twice, and once all objects and tasks are gone every one ever opened has been destroyed and every handler block freed. |
| `Sharing.DropHoldKeeps` | include/natscpp/connection.hpp:504-506 | Dropping a reference keeps the counts exact, and starts the deleter iff no other place refers to the connection. |
| `Sharing.ResetKeepsHolds` | include/natscpp/connection.hpp:236-239 | Connecting again replaces the old reference by the new one with exact counts. |
| `Sharing.ConnectNeverStuck` | include/natscpp/connection.hpp:215-240 | The guards of the model's connect steps that the code does not test always hold: a connect in flight can take its next statement. |
| `Sharing.ConnectCall` | include/natscpp/connection.hpp:215-240 | After a successful `connect` the object refers to a new native connection and its block, nats.c passes that block to the callbacks, the deleter pins it, and no other place changed. |
| `Sharing.FailedConnectCall` | include/natscpp/connection.hpp:215-235 | After a failed `connect` every place refers to what it did, and nothing was freed or kept. |
| `Sharing.MoveConstructCall` | include/natscpp/connection.hpp:201-201 | The new object refers to exactly what the old one did, the old one to nothing; nothing else changes and nothing is destroyed. |
| `Sharing.MoveAssignCall` | include/natscpp/connection.hpp:202-202 | The same onto an existing object, whose own references are dropped; onto itself nothing happens. |
| `Sharing.RequestCall` | include/natscpp/connection.hpp:500-506 | The task refers to what the object refers to, however many others do; every other place is as before. |
| `Sharing.RequestEnd` | include/natscpp/connection.hpp:505-514 | A task that ends refers to nothing; every other place is as before. |
| `Sharing.DestructorCall` | include/natscpp/connection.hpp:860-862 | A destroyed object refers to nothing; every other place is as before. |
| `Sharing.DeleterEnd` | include/natscpp/connection.hpp:238-238 | The deleter destroys its own native connection and gives up the block it pinned. |
| `Sharing.ClosesOnlyIf` | include/natscpp/connection.hpp:201-240 | A live native connection starts to close only when a holder of it is destroyed, ends its request, connects again, or is move-assigned to. |
| `Teardown.StepKeepsInv` | include/natscpp/connection.hpp:201-202 | Registry and reference counts side by side on the same connection objects, every step of either: the object that holds the native connection of a subscription has its callback block too, has yet to take it, or has just dropped it. |
| `Teardown.WindowIff` | include/natscpp/connection.hpp:860-862 | Over every run, with subscriptions and connections assigned and destroyed at will: nats.c may call a freed closure exactly while its callback block is gone and its native connection lingers (held by a request, by a destructor half-way, or by the running deleter), or in the middle of a move assignment onto its subscription object. |
| `Teardown.SettledWindow` | include/natscpp/connection.hpp:860-862 | Whatever interleaves: once the callback block is gone and no destructor or deleter of the native connection is half-way, a delivery is endangered iff a `request_async` task holds the native connection. |
| `Teardown.DestructorWindow` | include/natscpp/connection.hpp:860-862 | After a `~connection` that runs uninterrupted, with no deleter of that native connection running before, deliveries for its remaining asynchronous subscriptions are endangered iff a `request_async` task still holds their native connection. |
| `Teardown.RequestKeepsWindowOpen` | include/natscpp/connection.hpp:500-515 | A concrete run: connect, start a request, subscribe, destroy the connection; nats.c may then call a closure that is gone. |
| `Teardown.LostLingers` | include/natscpp/connection.hpp:504-506 | A native connection still in use whose subscription has lost its block is held by a request, a destructor half-way, or the deleter. |
| `Handles.AccountedKept` | include/natscpp/message.hpp:34-48 | Every operation keeps each native handle either live or destroyed once, and makes no native call on a dead one. |
| `Handles.OwnedKept` | include/natscpp/message.hpp:34-48 | Every operation keeps each live handle with exactly one owner. |
| `Handles.Conservation` | include/natscpp/connection.hpp:293-298 | Over every program of create, adopt, move, self-assign, release, use, publish, request and destroy, whichever status calls return: no use after destruction, no double destruction, and when all objects are gone only raw pointers the program took out are left. |
| `Handles.MovesLeave` | include/natscpp/message.hpp:176-178 | A move hands the handle over and empties the source; what the target held is destroyed; onto itself nothing happens; all other objects are as before. |
| `Handles.ConsumingLeaves` | include/natscpp/connection.hpp:293-298 | Publishing and requesting empty the object and destroy its message, whatever is returned; a successful request leaves a new reply. |
| `Handles.OwningLeaves` | include/natscpp/message.hpp:34-47 | What creating, adopting a raw pointer, releasing and destroying leave in the objects and in nats.c. |
| `Handles.DropAllOnce` | include/natscpp/subscription.hpp:248-248 | Destroying a list destroys each non-null entry once, in list order, and nothing else. |
| `Messages.Publish` | include/natscpp/connection.hpp:293-298 | The message is read while live and destroyed once, whatever the native status, which is reported. |
| `Messages.PublishMsg` | include/natscpp/jetstream.hpp:327-346 | The same, also when the context is not initialized and the call throws before taking the message. |
| `Messages.Request` | include/natscpp/connection.hpp:486-494 | The request is consumed whatever the status; a reply is wrapped iff the call succeeded. |
| `Messages.Message.Release` | include/natscpp/message.hpp:47-47 | The raw pointer comes out and the object is empty. |
| `Messages.Message.MoveAssign` | include/natscpp/message.hpp:176-178 | Self-assignment keeps the message; otherwise the old one is destroyed and the other taken over. |
| `Messages.PullConsumer.MoveAssign` | include/natscpp/jetstream.hpp:198-206 | Self-assignment changes nothing; otherwise the old handle is destroyed once, and the source is empty. |
| `Messages.PullConsumer.Next` | include/natscpp/jetstream.hpp:210-222 | Every exit and what nats.c holds then: not initialized, fetch error, empty list (timeout) or the first message; the guard destroys every other entry exactly once and not the one handed out. |
| `Messages.TakeAll` | include/natscpp/subscription.hpp:248-256 | After every iteration the result owns the prefix and the list the suffix; on success the result is the native list in order and the guard destroys nothing; when `reserve` throws the guard destroys everything. |
| `Messages.Fetch` | include/natscpp/subscription.hpp:243-272 | The result with all its exits; each fetched message ends up destroyed exactly once. |
| `Messages.DestroyList` | include/natscpp/subscription.hpp:248-248 | Destroys the entries still in the list, in order. |
| `KeyValue.StepKeepsInv` | include/natscpp/kv.hpp:202-284 | Create, open, delete bucket, moves and destruction keep each context and store with one owner, every live store with a live context. |
| `KeyValue.Lifecycle` | include/natscpp/kv.hpp:202-284 | Over every program: a store implies its context; every store is destroyed before its own context; nothing is destroyed twice; when all objects are gone, every store and every context ever made has been destroyed, whatever failed. |
| `KeyValue.StepsLeave` | include/natscpp/kv.hpp:264-284 | Moves hand both handles over and empty the source; what the target held, or a destroyed object, goes store first; onto itself nothing happens; all other objects are as before. |
| `KeyValue.MakingLeaves` | include/natscpp/kv.hpp:202-262 | A successful create leaves both new handles in the new object; a failed one, and deleting a bucket, leave no object and only a dead context, if it got that far. |
| `KeyValue.AttemptKeeps` | include/natscpp/kv.hpp:202-225 | A failure at any native call leaves the live contexts and stores as they were. |
| `KeyValue.DropPairKeeps` | include/natscpp/kv.hpp:503-508 | Destroying the members appends exactly the store, then the context, and both are gone. |
| `KeyValue.KeyValueStore.DestroySelf` | include/natscpp/kv.hpp:503-508 | Both members are null afterwards and the native objects destroyed, store first; a second call finds nothing to do. |
| `KeyValue.KeyValueStore.Create` | include/natscpp/kv.hpp:202-225 | Succeeds iff no native call fails; each failure path, with `destroy_self` running once or twice, frees exactly what was made. |
| `KeyValue.KeyValueStore.Open` | include/natscpp/kv.hpp:253-262 | The same for the constructor, whose destructor does not run when it throws. |
| `KeyValue.KeyValueStore.DeleteBucket` | include/natscpp/kv.hpp:238-248 | The temporary context is destroyed once on both paths. |
| `KeyValue.KeyValueStore.MoveAssign` | include/natscpp/kv.hpp:275-284 | Self-assignment changes nothing; otherwise the old pair is destroyed in order and the other taken over. |
| `KeyValue.KeyValueStore.History` | include/natscpp/kv.hpp:423-439 | All exits of the hand-over of entries. |
| `Delivery.Dispatcher.AsyncMsgCallback` | include/natscpp/connection.hpp:539-547 | One delivery: a null message runs nothing; otherwise the handler runs once with the message; if it moves the message out, the message stays live with its new owner, else it is destroyed once, also when the handler throws; an empty handler throws without running, and the message is destroyed. |
| `Delivery.EverythingDestroyedOnce` | include/natscpp/connection.hpp:535-547 | Once those who kept messages have dropped them too, exactly the delivered messages have been destroyed in addition, each once, and none is live. |
| `Delivery.Accounting` | include/natscpp/connection.hpp:539-547 | Over any deliveries to one closure: every non-null message reaches the handler once, in order, and is destroyed or kept, never both. |
| `Delivery.SurvivesIffKept` | include/natscpp/connection.hpp:539-547 | Message by message over any deliveries: a message survives, live and with the owner it was moved out to, iff there is a handler and it moved it out; every other is destroyed and has no owner. |
| `Delivery.CallsInOrder` | include/natscpp/connection.hpp:539-547 | The handler's j-th call gets the j-th message that is not null. |
| `Delivery.DeliveriesReachRegisteredHandler` | include/natscpp/connection.hpp:539-547 | In a disciplined run all deliveries for a subscription go to the handler registered with it. |
| `Trace.CString` | include/natscpp/message.hpp:78-82 | What C code sees of a string: the longest prefix without a NUL; all of it iff there is none. |
| `Trace.GetAfterSet` | include/natscpp/message.hpp:69-82 | A set key reads as its new value, any other as before; a message without a handle reads empty. |
| `Trace.SetLeaves` | include/natscpp/message.hpp:78-82 | A map has the value under the key; a message has exactly the one value, cut at its first NUL, under the key cut likewise; other keys are as before. |
| `Trace.GetAfterInject` | include/natscpp/trace.hpp:39-43 | After an injection every key reads as its last injected value, or as before. |
| `Trace.LastIs` | include/natscpp/trace.hpp:39-43 | The injected value is that of the last pair naming the key, and there is one iff some pair names it. |
| `Trace.InjectTraceContext` | include/natscpp/trace.hpp:39-43 | Sets the pairs in order; stops at the first failing set with exactly the pairs before it set. |
| `Trace.ExtractTraceContext` | include/natscpp/trace.hpp:49-55 | The output is extended by exactly the requested keys it lacks for which the carrier has a non-empty value; no entry changes. |
| `Trace.ExtractsFromMap` | include/natscpp/trace.hpp:49-55 | Read off the entries of a map: an absent key is added iff it is requested and has a non-empty value, with that value. |
| `Trace.ExtractsFromHeaders` | include/natscpp/message.hpp:69-76 | Read off the headers of a message: an absent key is added iff it is requested, its C string has a non-empty list, and the first value is not empty, with that value. |
| `Trace.ExtractsNothing` | include/natscpp/message.hpp:69-70 | From a message without a handle nothing is added. |
| `Trace.ExtractedUnique` | include/natscpp/trace.hpp:49-55 | That property determines the output. |
| `Trace.RoundTrip` | include/natscpp/trace.hpp:39-55 | Extraction after injection, for all pairs, keys, prior headers and prior output: exactly the requested absent keys whose last injected value, or else prior header, is non-empty. |
| `Trace.RoundTripByPairs` | include/natscpp/trace.hpp:39-55 | Pair by pair: a requested absent key is added iff the last pair naming it has a value that is non-empty as the carrier keeps it, with that value. |
| `Trace.RoundTripOfPrior` | include/natscpp/trace.hpp:39-55 | A requested absent key that no pair names is added iff the carrier had a non-empty (first) value for it before, with that value. |
| `Trace.ComesBackIff` | include/natscpp/trace.hpp:39-55 | An injected value comes back unchanged iff the carrier is a plain map or the value has no NUL character. |
| `Trace.KeyOrderIrrelevant` | include/natscpp/trace.hpp:49-55 | Permuting or duplicating keys does not change the output. |
| `Trace.SameLastValuesSameCarrier` | include/natscpp/trace.hpp:39-55 | Pair lists with the same last value per key give carriers no extraction can tell apart. |
| `Connect.Connection.Connect` | include/natscpp/connection.hpp:215-240 | Succeeds iff creating the options, every setter asked for and the native connect succeed. The setter calls made are those asked for, in strict source order, up to and including the first that fails, and the options object is freed once. On failure the object is unchanged; on success each of the 44 native options has the value of its own field, spelled out option by option, or its default, and the callbacks have the handler block that holds copies of the user's callbacks. |
| `Connect.ApplyNatsOptions` | include/natscpp/connection.hpp:667-858 | The body branches as the source does; the calls it makes, and those left, are the planned ones in source order, and it stops at the first failure. |
| `Connect.ApplyServer` | include/natscpp/connection.hpp:668-677 | A non-empty server list is set in place of the single URL. |
| `Connect.ApplyAuth` | include/natscpp/connection.hpp:679-700 | Each engaged setting in order; user and password only together; credentials with or without a seed file. |
| `Connect.ApplyTls` | include/natscpp/connection.hpp:702-721 | Each engaged setting in order; certificate chain and key only together. |
| `Connect.ApplyCallbacks` | include/natscpp/connection.hpp:743-754 | Each callback that is set gets its bridge function with exactly the handler block. |
| `Connect.ApplyEverything` | include/natscpp/connection.hpp:230-234 | The retry option comes last, and only if asked for. |
| `Connect.AttemptedIs` | include/natscpp/connection.hpp:667-858 | The calls made are a prefix of those planned: all of them if none fails, else up to and including the first that fails. |
| `Connect.CallsConfigure` | include/natscpp/connection.hpp:667-858 | Making all planned calls leaves each native option with the planned value, or its default if none is planned, and no other option changed. |
| `Connect.ConnectPlanOrdered` | include/natscpp/connection.hpp:667-858 | The plan follows the source order and sets each native option at most once. |
| `Connect.ConnectPlanMeans` | include/natscpp/connection.hpp:667-858 | Option by option, from the fields alone: each of the 44 native options gets exactly the value of its own field or fields where engaged, and otherwise its default. |
| `Connect.CallsAscend` | include/natscpp/connection.hpp:667-858 | The calls of a plan come in strictly ascending source order. |

## Left out

- The NATS wire protocol, the server, JetStream stream and consumer semantics, revisions and
  compare-and-set rules of key-value stores: they live in nats.c and the server.
- Plain forwarding methods, getters, statistics, acknowledgements, enum casts and field-by-field
  copies: one native call each; they would only add easy members.
- Loops that list names, keys, streams or servers: maps and null filters.
- Payload-size guards, error texts, logging, memory order of atomics.
- The TLS build switch: in a build without TLS, CA path and cipher suites are setters that fail.
- Memory exhaustion other than in `reserve`: an exception while a token or a release lambda is being
  allocated.
- Release lambdas supplied by user code to the `subscription` constructor; registration on a
  connection object that was moved from, whose callback block pointer is null.
- Identities (addresses, handles, serial numbers), native outcomes and what a handler does are
  parameters of the methods.
- Vectors of messages or entries are sequences of handles; capacity is one success flag of `reserve`.
- The iteration order of the pruning loop: any order.
- SubscriptionObject.Subscription.SetOnCompleteCallback: covers callers that do not overlap; overlapping callers are in the machine of `Completion`.
- Messages.PullConsumer.MoveAssign: push consumers, JetStream contexts, entries and watchers have the same code and no class of their own.
- Connect.Connection.Connect: the fate of the native connection an object held before is in `Sharing`.
- Connect.ApplyNatsOptions: strings are handed over as they are; nats.c reads each up to its first NUL character.
- Teardown.StepKeepsInv: two adjacent statements on `callback_state_` and `callback_handlers_` are one step, and so are the two members a move constructor takes; no delivery can tell.
- Delivery.Dispatcher.AsyncMsgCallback: that no exception escapes is the absence of a status result.
