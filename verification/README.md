# Distributed autograd context container, modelled in Dafny

This project models `DistAutogradContainer`, the per-worker registry of
PyTorch's distributed autograd. It is declared in
`pytorch/torch/csrc/distributed/autograd/context/container.h`. The container:

- generates autograd context ids and autograd message ids. Each is a 64-bit
  integer with the worker id in the top 16 bits and a per-worker
  auto-incrementing 48-bit counter below it. The two families use independent
  counters.
- keeps the map from context id to `DistAutogradContext`.
- tracks a thread-local "current context id" for each thread.
- on release, erases a context and tells the peer workers to release theirs.

The C++ class is a mutable singleton guarded by a mutex. The model is one
immutable `State` record with one pure transition per public operation, and
each operation is a single atomic step. The thread-local slot is a map from
`ThreadId` to `Option<Int64>`, and every cursor operation takes the calling
thread's id. An operation that throws in C++ returns `Failure(error)` and
leaves the state unchanged.

Files:

- `wrappers.dfy`: `Option` and `Result`.
- `ids.dfy` (module `Ids`): the id layout. It has `Pack`, plus `WorkerOf` and
  `CounterOf` (the unpacking pair), and lemmas for round trip, injectivity,
  monotonicity and the per-worker bound.
- `container.dfy` (module `Container`): the state, its invariant `Valid`, and
  every operation of the class.
- `properties.dfy` (module `Properties`): lemmas that relate the operations to
  one another.
- `traces.dfy` (module `Traces`): any run of calls from any threads, with
  inductive lemmas about the ids a run generates and about thread-locality.

The model states what `container.h` declares and comments. `container.cpp`
and `context.h` are not part of this model. Where the header is silent, the
model makes these choices:

- Counter exhaustion. Once a counter has generated the maximum id, it stays
  at that id and a flag records that it is exhausted. Every later allocation
  of that family fails with `Exhausted` and changes nothing, so no id of the
  next worker is ever handed out. Both counters stay `int64_t` values, which
  one past the maximum id of worker 0x7FFF would not be. Under a caller-side
  precondition of "not exhausted" the ids generated are the same.
- `retrieveContext` fails with `NotFound` on an absent id. `currentContext`
  fails with `NoActiveContext` when the thread has no current id, and with
  `NotFound` when that id is no longer in the map.
- `init` accepts worker ids `0..32767`, which are the non-negative values of
  the `int16_t` field (:104). Non-negative worker ids keep every id a
  non-negative `int64_t`. A second `init` fails.
- `newContext` makes the new context the calling thread's current context,
  and fails with `AlreadyBound` when that thread already has one. The header
  says `getOrCreateContext` does not set the current context (:63), in
  contrast to `newContext`, and release resets the caller's current id
  (:94-97).
- `eraseContextIdAndReset` resets only the calling thread's slot. This
  follows from the slot being thread-local (:94-97).

## Model

| member | source | states |
|---|---|---|
| Ids.Pack | pytorch/torch/csrc/distributed/autograd/context/container.h:16-25 | packing a worker id and a 48-bit counter gives a non-negative int64 whose top bits unpack to the worker and whose low 48 bits unpack to the counter |
| Ids.MaxIdFor | pytorch/torch/csrc/distributed/autograd/context/container.h:66-68 | the maximum id carries the worker's bits with an all-ones counter, and no id of that worker exceeds it |
| Ids.PackUnpack | pytorch/torch/csrc/distributed/autograd/context/container.h:18-20 | every non-negative int64 id splits into a valid worker and counter, and packing those fields gives the id back |
| Ids.PackInjective | pytorch/torch/csrc/distributed/autograd/context/container.h:18-20 | two packed ids are equal exactly when both their worker ids and their counters are equal |
| Ids.DistinctWorkersDistinctIds | pytorch/torch/csrc/distributed/autograd/context/container.h:16-25 | ids of two different workers never collide, whatever their counters |
| Ids.PackMonotonic | pytorch/torch/csrc/distributed/autograd/context/container.h:99-101 | within one worker, a larger counter gives a larger id (both directions), and incrementing the counter increments the id by one |
| Ids.IdsOfWorkerAreARange | pytorch/torch/csrc/distributed/autograd/context/container.h:66-68 | an id has worker w's bits exactly when it lies between w's first id and w's maximum id |
| Container.Init | pytorch/torch/csrc/distributed/autograd/context/container.h:28-29 | init succeeds exactly once, and only for a worker id that fits int16. It fixes the worker id, seeds both counters at counter 0 under the worker's bits, and starts with an empty map and no current contexts |
| Container.GetInstance | pytorch/torch/csrc/distributed/autograd/context/container.h:31-33 | the instance is available exactly when init has run, and fails with NotInitialized otherwise |
| Container.GetWorkerId | pytorch/torch/csrc/distributed/autograd/context/container.h:70-71 | the worker id fits int16 and is the top bits of the maximum id and of both counters, in every valid state |
| Container.GetMaxId | pytorch/torch/csrc/distributed/autograd/context/container.h:66-68 | the maximum id has the worker's bits and an all-ones counter, and bounds every id the worker can generate |
| Container.NewContext | pytorch/torch/csrc/distributed/autograd/context/container.h:35-36 | fails with AlreadyBound when the calling thread has a current context, and otherwise with Exhausted exactly when every id has been generated. On success the id is the first ungenerated one: it carries the worker bits and is at most the maximum id. Exactly that key is added and other entries are unchanged. The id was not present when every local entry was generated. The new context becomes the caller's current context, and other threads are untouched |
| Container.NewAutogradMessageId | pytorch/torch/csrc/distributed/autograd/context/container.h:58-59 | the message id is the first ungenerated one: it carries the worker bits, is at most the maximum id, and only the message counter moves. The call fails with Exhausted exactly when every message id has been generated |
| Container.GetOrCreateContext | pytorch/torch/csrc/distributed/autograd/context/container.h:61-64 | returns the existing entry with the state untouched if present, otherwise adds exactly that key. Counters and every thread's current context are unchanged |
| Container.RetrieveContext | pytorch/torch/csrc/distributed/autograd/context/container.h:49-50 | succeeds exactly when the id is in the map, returning its entry, and fails with NotFound otherwise |
| Container.EraseContextIdAndReset | pytorch/torch/csrc/distributed/autograd/context/container.h:94-97 | removes exactly the id from the map and keeps other entries. It resets the calling thread's current id iff that id was the erased one, and leaves other threads alone |
| Container.ReleaseContext | pytorch/torch/csrc/distributed/autograd/context/container.h:38-42 | fails with NotFound exactly when the id is absent. Otherwise it logs one release RPC for the id and erases it with the caller's cursor reset |
| Container.ReleaseContextIfPresent | pytorch/torch/csrc/distributed/autograd/context/container.h:44-47 | leaves the state, including the RPC log, unchanged when the id is absent. Otherwise it equals the strict release's success result. The id is absent afterwards |
| Container.CurrentContext | pytorch/torch/csrc/distributed/autograd/context/container.h:52-53 | fails with NoActiveContext when the thread has no current id. Otherwise it is the lookup of the thread's current id |
| Container.SetCurrentContextId | pytorch/torch/csrc/distributed/autograd/context/container.h:73-74 | fails with AlreadyBound exactly when the thread already has a current id. Otherwise it sets that thread's slot to the id and changes nothing else |
| Container.ClearCurrentContext | pytorch/torch/csrc/distributed/autograd/context/container.h:76-77 | the calling thread has no current id afterwards, and no other thread's slot or other field changes |
| Properties.InitIsOneTime | pytorch/torch/csrc/distributed/autograd/context/container.h:28-33 | before init, getInstance fails. After init(w), getInstance returns the instance, getWorkerId is w, and a second init fails with AlreadyInitialized |
| Properties.DistinctWorkersNeverCollide | pytorch/torch/csrc/distributed/autograd/context/container.h:16-25 | two workers with different ids generate different context ids and different message ids |
| Properties.GetOrCreateIdempotent | pytorch/torch/csrc/distributed/autograd/context/container.h:61-64 | a second getOrCreateContext with the same id returns the same context and state as the first |
| Properties.GetOrCreateKeepsLocalIdsIssued | pytorch/torch/csrc/distributed/autograd/context/container.h:61-64 | getOrCreateContext with a foreign id or an already generated local id keeps every local entry below the counter |
| Properties.GetOrCreateAheadOfCounter | pytorch/torch/csrc/distributed/autograd/context/container.h:35-36 | if getOrCreateContext receives the next context id early, the following newContext returns an id that is already in the map |
| Properties.ReleaseThenRetrieveFails | pytorch/torch/csrc/distributed/autograd/context/container.h:38-50 | after a successful release, retrieve and strict release of the id fail with NotFound, and lenient release is a no-op |
| Properties.ReleaseResetsCallerCursor | pytorch/torch/csrc/distributed/autograd/context/container.h:94-97 | after releasing a present id, the caller's current id is not that id, and a caller that pointed at it has no valid context |
| Properties.ReleaseKeepsLocalIdsIssued | pytorch/torch/csrc/distributed/autograd/context/container.h:99-101 | releasing keeps every local entry below the context counter |
| Properties.SetThenCurrent | pytorch/torch/csrc/distributed/autograd/context/container.h:52-56 | after setCurrentContextId(id), hasValidContext holds and currentContext is the lookup of id. A second set without a clear fails with AlreadyBound(id) |
| Properties.ClearThenNoContext | pytorch/torch/csrc/distributed/autograd/context/container.h:76-77 | after clearCurrentContext, hasValidContext is false, currentContext fails with NoActiveContext, and a new id can be set |
| Properties.AllocationLeavesCursors | pytorch/torch/csrc/distributed/autograd/context/container.h:35-64 | newContext makes the new id the caller's current context and leaves other threads alone. newAutogradMessageId and getOrCreateContext leave every thread's current context unchanged |
| Properties.NewContextThenReleaseUnbinds | pytorch/torch/csrc/distributed/autograd/context/container.h:94-97 | after newContext the caller's current context is the new one and a second newContext fails with AlreadyBound. Releasing that context leaves the caller with no current context |
| Properties.ExhaustedCounterFails | pytorch/torch/csrc/distributed/autograd/context/container.h:119-120 | with a counter at the maximum id, the next allocation returns getMaxId(), the counter stays there, and the one after fails with Exhausted. It never returns an id past the maximum |
| Traces.Step | pytorch/torch/csrc/distributed/autograd/context/container.h:112-113 | every call keeps the invariant and never changes the worker id or maximum id, and neither family's first ungenerated id moves backwards |
| Traces.Execute | pytorch/torch/csrc/distributed/autograd/context/container.h:109-113 | any run of calls from any threads keeps the container's invariant |
| Traces.StepMintsCounter | pytorch/torch/csrc/distributed/autograd/context/container.h:99-101 | each call generates at most one id of each family, and it is exactly the first ungenerated id, which then moves past it |
| Traces.ExecuteMintsConsecutiveIds | pytorch/torch/csrc/distributed/autograd/context/container.h:99-101 | over any run the worker id and maximum id stay fixed, and each family's generated ids are consecutive from its first ungenerated id at the start |
| Traces.ExecuteIdsIncreaseWithinWorker | pytorch/torch/csrc/distributed/autograd/context/container.h:116-120 | within each family, the generated ids of a run strictly increase, carry the worker's bits and never exceed getMaxId() |
| Traces.RunFromInit | pytorch/torch/csrc/distributed/autograd/context/container.h:16-25 | after init(w), the i-th generated context id and the i-th message id are both (w << 48) \| i, and getWorkerId is still w |
| Traces.RunsOfDistinctWorkersAreDisjoint | pytorch/torch/csrc/distributed/autograd/context/container.h:16-25 | runs on two workers with different ids share no context id and no message id |
| Traces.CursorIsThreadLocal | pytorch/torch/csrc/distributed/autograd/context/container.h:73-77 | a run in which thread t makes no call leaves t's current context id unchanged |
| Traces.ExecuteKeepsLocalIdsIssued | pytorch/torch/csrc/distributed/autograd/context/container.h:35-36 | if no call passes getOrCreateContext a local id that is not yet generated, every local entry stays below the counter, so each newContext of the run inserts a fresh id |
| Traces.WorkerThreeExample | pytorch/torch/csrc/distributed/autograd/context/container.h:16-20 | releasing an id that was never created fails. A thread of worker 3 creates (3 << 48) \| 0, clears its current context, and creates (3 << 48) \| 1, which becomes its current context. After the second id is released, retrieving it fails, the thread has no current context, and the first id remains |

## Left out

- The mutex `autograd_context_lock_` and the atomic message counter (:112-117). They only make each operation atomic, and the model takes every operation as one atomic step. Interleavings inside an operation are not modelled.
- `sendReleaseContextRpc` (:90-92) is a network call to the RPC agent. The model only appends the released id to an outbound log `releaseRpcs`. The set of peers and delivery are not modelled.
- The internals of `DistAutogradContext`: `context.h` is not part of this model. A context is the value constructed for its id, so changes made through the returned reference are not modelled.
- Singleton storage, `getInstanceInternal`, the private constructor and destructor, and deleted copy/move operations (:80-88) are C++ plumbing with no behaviour to state.
- `hasValidContext` (:55-56) is a plain query. Its meaning is stated by Properties.SetThenCurrent and Properties.ClearThenNoContext instead of its own contract.
- The C++ increment of a counter past the maximum id is not modelled. The model keeps the counter at the maximum and records exhaustion in a flag.
- Container.NewContext: freshness of the generated id is proved only when every local entry already lies below the counter (`LocalIdsIssued`). getOrCreateContext can insert a local id ahead of the counter, and the header does not say what `newContext` does then. The model returns the entry already present.
- Container.EraseContextIdAndReset: only the calling thread's slot is reset. Other threads that still hold the erased id keep it, and their `currentContext` then fails with NotFound.
