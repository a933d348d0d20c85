/** The per-worker registry of distributed autograd contexts
    (`DistAutogradContainer`), as an immutable state and one pure transition
    per public operation. Every operation is one atomic step: the mutex and
    the atomic message counter of the C++ class only serve to make that so. */
module Container {
  import opened Wrappers
  import opened Ids

  /** Identity of the calling thread, the key of the thread-local slot. */
  type ThreadId = nat

  /** The per-pass context. Its internals are not part of this model; an
      entry is known by the id it was constructed with. */
  datatype Context = Context(contextId: Int64)

  datatype Error =
    | AlreadyInitialized
    | InvalidWorkerId(requested: Int64)
    | NotInitialized
    | NotFound(contextId: Int64)
    | NoActiveContext
    | AlreadyBound(current: Int64)
    | Exhausted

  /** The fields of `DistAutogradContainer`, plus the thread-local current
      context id of every thread and the log of release RPCs sent to peers.
      Each `int64_t` counter stops at the maximum id once that id has been
      generated, and its `...Exhausted` flag records that it has: one past the
      maximum id of worker 0x7FFF would not fit an `int64_t`. */
  datatype State = State(
    initialized: bool,
    workerId: int,
    nextContextId: Int64,
    contextIdsExhausted: bool,
    nextMessageId: Int64,
    messageIdsExhausted: bool,
    maxId: Int64,
    contexts: map<Int64, Context>,
    current: map<ThreadId, Option<Int64>>,
    releaseRpcs: seq<Int64>)

  /** A new state together with what the operation returned. */
  datatype After<+T> = After(state: State, value: T)

  /** The state of the singleton before `init`. */
  const Uninitialized: State :=
    State(false, 0, 0, false, 0, false, 0, map[], map[], [])

  /** What `init` establishes and every operation preserves: the worker id
      fits its 16 bits, the maximum id is the worker's last id, both counters
      stay in the worker's range (at the maximum once exhausted), and every
      entry is the context constructed for its key. */
  predicate Valid(s: State) {
    && s.initialized
    && ValidWorker(s.workerId)
    && s.maxId == MaxIdFor(s.workerId)
    && Pack(s.workerId, 0) <= s.nextContextId <= s.maxId
    && Pack(s.workerId, 0) <= s.nextMessageId <= s.maxId
    && (s.contextIdsExhausted ==> s.nextContextId == s.maxId)
    && (s.messageIdsExhausted ==> s.nextMessageId == s.maxId)
    && (forall id :: id in s.contexts ==> s.contexts[id].contextId == id)
  }

  /** The first context id not yet generated, as an unbounded integer: the
      counter, or one past the maximum id once every id has been generated. */
  function FirstUnissuedContextId(s: State): int {
    if s.contextIdsExhausted then s.nextContextId + 1 else s.nextContextId
  }

  /** The first message id not yet generated, as for context ids. */
  function FirstUnissuedMessageId(s: State): int {
    if s.messageIdsExhausted then s.nextMessageId + 1 else s.nextMessageId
  }

  /** Every entry carrying this worker's id bits was generated by
      `newContext` already. */
  predicate LocalIdsIssued(s: State) {
    forall id :: id in s.contexts && WorkerOf(id) == s.workerId ==> id < FirstUnissuedContextId(s)
  }

  /** The calling thread's current context id, `None` when it has none. */
  function CursorOf(s: State, t: ThreadId): Option<Int64> {
    if t in s.current then s.current[t] else None
  }

  // ---------------------------------------------------------------------
  // Initialisation

  /** One-time initialisation with this worker's id. Fails when already
      initialised or when the id does not fit the non-negative `int16_t`
      field; otherwise seeds both counters with the worker id in the top 16
      bits and sets the maximum id. */
  function Init(s: State, workerId: Int64): (r: Result<State, Error>)
    ensures s.initialized ==> r == Failure(AlreadyInitialized)
    ensures !s.initialized && !ValidWorker(workerId) ==> r == Failure(InvalidWorkerId(workerId))
    ensures r.Success? <==> !s.initialized && ValidWorker(workerId)
    ensures r.Success? ==>
      && Valid(r.value)
      && r.value.workerId == workerId
      && WorkerOf(r.value.nextContextId) == workerId && CounterOf(r.value.nextContextId) == 0
      && WorkerOf(r.value.nextMessageId) == workerId && CounterOf(r.value.nextMessageId) == 0
      && !r.value.contextIdsExhausted && !r.value.messageIdsExhausted
      && r.value.contexts == map[]
      && (forall t :: CursorOf(r.value, t) == None)
      && LocalIdsIssued(r.value)
  {
    if s.initialized then Failure(AlreadyInitialized)
    else if !ValidWorker(workerId) then Failure(InvalidWorkerId(workerId))
    else
      var first := Pack(workerId, 0);
      Success(State(true, workerId, first, false, first, false, MaxIdFor(workerId), map[], map[], []))
  }

  /** The singleton, available only once `init` has run. */
  function GetInstance(s: State): (r: Result<State, Error>)
    ensures r.Success? <==> s.initialized
    ensures r.Success? ==> r.value == s
    ensures r.Failure? ==> r.error == NotInitialized
  {
    if s.initialized then Success(s) else Failure(NotInitialized)
  }

  /** The worker id fixed at initialisation: the top bits of the maximum id
      and of both counters. */
  function GetWorkerId(s: State): (w: int)
    requires Valid(s)
    ensures ValidWorker(w)
    ensures WorkerOf(s.maxId) == w
    ensures WorkerOf(s.nextContextId) == w && WorkerOf(s.nextMessageId) == w
  {
    IdsOfWorkerAreARange(s.workerId, s.nextContextId);
    IdsOfWorkerAreARange(s.workerId, s.nextMessageId);
    s.workerId
  }

  /** The largest context or message id this worker can generate. */
  function GetMaxId(s: State): (m: Int64)
    requires Valid(s)
    ensures WorkerOf(m) == s.workerId && CounterOf(m) == CounterMask
    ensures forall c :: ValidCounter(c) ==> Pack(s.workerId, c) <= m
  {
    s.maxId
  }

  // ---------------------------------------------------------------------
  // Id allocation and the context table

  /** Creates the context for a new autograd pass under the next context id
      and makes it the calling thread's current context. Fails, changing
      nothing, when the thread already has a current context, or when every
      id has been generated. The id carries the worker's bits, does not
      exceed the maximum id, and is never generated again; exactly one key is
      added, and no other entry, counter or other thread's slot changes. */
  function NewContext(s: State, t: ThreadId): (r: Result<After<Context>, Error>)
    requires Valid(s)
    ensures r.Failure? <==> HasValidContext(s, t) || s.contextIdsExhausted
    ensures HasValidContext(s, t) ==> r == Failure(AlreadyBound(CursorOf(s, t).value))
    ensures !HasValidContext(s, t) && s.contextIdsExhausted ==> r == Failure(Exhausted)
    ensures r.Success? ==>
      var id := r.value.value.contextId;
      var s' := r.value.state;
      && Valid(s')
      && id == s.nextContextId == FirstUnissuedContextId(s)
      && WorkerOf(id) == s.workerId && id <= s.maxId
      && FirstUnissuedContextId(s') == id + 1
      && (s'.contextIdsExhausted <==> id == s.maxId)
      && id in s'.contexts && s'.contexts[id] == r.value.value
      && s'.contexts.Keys == s.contexts.Keys + {id}
      && (forall k :: k in s.contexts && k != id ==> s'.contexts[k] == s.contexts[k])
      && (LocalIdsIssued(s) ==> id !in s.contexts && LocalIdsIssued(s'))
      && CursorOf(s', t) == Some(id)
      && (forall u :: u != t ==> CursorOf(s', u) == CursorOf(s, u))
      && s' == s.(nextContextId := s'.nextContextId, contextIdsExhausted := s'.contextIdsExhausted,
                  contexts := s'.contexts, current := s'.current)
  {
    match CursorOf(s, t)
    case Some(bound) => Failure(AlreadyBound(bound))
    case None =>
      if s.contextIdsExhausted then Failure(Exhausted)
      else
        var id: Int64 := s.nextContextId;
        IdsOfWorkerAreARange(s.workerId, id);
        var ctx := Context(id);
        var last := id == s.maxId;
        Success(After(s.(nextContextId := if last then id else id + 1,
                         contextIdsExhausted := last,
                         contexts := s.contexts[id := ctx],
                         current := s.current[t := Some(id)]), ctx))
  }

  /** Generates the next autograd message id. Same layout and bound as the
      context ids, from an independent counter: only that counter moves.
      Fails, changing nothing, once every id has been generated. */
  function NewAutogradMessageId(s: State): (r: Result<After<Int64>, Error>)
    requires Valid(s)
    ensures r.Failure? <==> s.messageIdsExhausted
    ensures r.Failure? ==> r.error == Exhausted
    ensures r.Success? ==>
      var id := r.value.value;
      var s' := r.value.state;
      && Valid(s')
      && id == s.nextMessageId == FirstUnissuedMessageId(s)
      && WorkerOf(id) == s.workerId && id <= s.maxId
      && FirstUnissuedMessageId(s') == id + 1
      && (s'.messageIdsExhausted <==> id == s.maxId)
      && s' == s.(nextMessageId := s'.nextMessageId, messageIdsExhausted := s'.messageIdsExhausted)
  {
    if s.messageIdsExhausted then Failure(Exhausted)
    else
      var id: Int64 := s.nextMessageId;
      IdsOfWorkerAreARange(s.workerId, id);
      var last := id == s.maxId;
      Success(After(s.(nextMessageId := if last then id else id + 1,
                       messageIdsExhausted := last), id))
  }

  /** Returns the context for `contextId`, creating it only when absent.
      An existing entry is returned with the state untouched; otherwise one
      entry for exactly that id is added. Neither counter nor any thread's
      current context changes. */
  function GetOrCreateContext(s: State, contextId: Int64): (r: After<Context>)
    requires Valid(s)
    ensures Valid(r.state)
    ensures contextId in r.state.contexts && r.state.contexts[contextId] == r.value
    ensures r.value.contextId == contextId
    ensures contextId in s.contexts ==> r.state == s && r.value == s.contexts[contextId]
    ensures r.state.contexts.Keys == s.contexts.Keys + {contextId}
    ensures forall k :: k in s.contexts ==> r.state.contexts[k] == s.contexts[k]
    ensures r.state == s.(contexts := r.state.contexts)
  {
    if contextId in s.contexts then After(s, s.contexts[contextId])
    else
      var ctx := Context(contextId);
      After(s.(contexts := s.contexts[contextId := ctx]), ctx)
  }

  /** Looks up the context for `contextId`; fails when there is none. */
  function RetrieveContext(s: State, contextId: Int64): (r: Result<Context, Error>)
    requires Valid(s)
    ensures r.Success? <==> contextId in s.contexts
    ensures r.Success? ==> r.value.contextId == contextId && r.value == s.contexts[contextId]
    ensures r.Failure? ==> r.error == NotFound(contextId)
  {
    if contextId in s.contexts then Success(s.contexts[contextId])
    else Failure(NotFound(contextId))
  }

  /** Removes `contextId` from the table and, when the calling thread's
      current context id is that id, resets it. Other entries and other
      threads' slots are kept. */
  function EraseContextIdAndReset(s: State, t: ThreadId, contextId: Int64): (s': State)
    requires Valid(s)
    ensures Valid(s')
    ensures contextId !in s'.contexts
    ensures s'.contexts.Keys == s.contexts.Keys - {contextId}
    ensures forall k :: k in s'.contexts ==> s'.contexts[k] == s.contexts[k]
    ensures CursorOf(s', t) == (if CursorOf(s, t) == Some(contextId) then None else CursorOf(s, t))
    ensures forall u :: u != t ==> CursorOf(s', u) == CursorOf(s, u)
    ensures s' == s.(contexts := s'.contexts, current := s'.current)
  {
    var contexts := s.contexts - {contextId};
    if CursorOf(s, t) == Some(contextId) then
      s.(contexts := contexts, current := s.current[t := None])
    else
      s.(contexts := contexts)
  }

  /** Releases the context of a finished pass: sends the release RPC to the
      peers (recorded in the outbound log) and erases the entry, resetting
      the caller's current context if it was this one. Fails, changing
      nothing, when the id is absent. */
  function ReleaseContext(s: State, t: ThreadId, contextId: Int64): (r: Result<State, Error>)
    requires Valid(s)
    ensures r.Failure? <==> contextId !in s.contexts
    ensures r.Failure? ==> r.error == NotFound(contextId)
    ensures r.Success? ==>
      && Valid(r.value)
      && r.value.releaseRpcs == s.releaseRpcs + [contextId]
      && r.value == EraseContextIdAndReset(s, t, contextId).(releaseRpcs := r.value.releaseRpcs)
  {
    if contextId !in s.contexts then Failure(NotFound(contextId))
    else
      var sent := s.(releaseRpcs := s.releaseRpcs + [contextId]);
      Success(EraseContextIdAndReset(sent, t, contextId))
  }

  /** Releases `contextId` as `ReleaseContext` does when it is present, and
      does nothing at all (no RPC either) when it is not. */
  function ReleaseContextIfPresent(s: State, t: ThreadId, contextId: Int64): (s': State)
    requires Valid(s)
    ensures Valid(s')
    ensures contextId !in s.contexts ==> s' == s
    ensures contextId in s.contexts ==> ReleaseContext(s, t, contextId) == Success(s')
    ensures contextId !in s'.contexts
  {
    if contextId !in s.contexts then s
    else
      var sent := s.(releaseRpcs := s.releaseRpcs + [contextId]);
      EraseContextIdAndReset(sent, t, contextId)
  }

  // ---------------------------------------------------------------------
  // The thread-local current context

  /** Whether the calling thread has a current context id. */
  function HasValidContext(s: State, t: ThreadId): bool {
    CursorOf(s, t).Some?
  }

  /** The calling thread's current context. Fails when the thread has none,
      or when its id is no longer in the table. */
  function CurrentContext(s: State, t: ThreadId): (r: Result<Context, Error>)
    requires Valid(s)
    ensures !HasValidContext(s, t) ==> r == Failure(NoActiveContext)
    ensures HasValidContext(s, t) ==> r == RetrieveContext(s, CursorOf(s, t).value)
  {
    match CursorOf(s, t)
    case None => Failure(NoActiveContext)
    case Some(id) => RetrieveContext(s, id)
  }

  /** Sets the calling thread's current context id; allowed only while the
      thread has none. Only that thread's slot changes. */
  function SetCurrentContextId(s: State, t: ThreadId, contextId: Int64): (r: Result<State, Error>)
    ensures r.Failure? <==> HasValidContext(s, t)
    ensures r.Failure? ==> r.error == AlreadyBound(CursorOf(s, t).value)
    ensures r.Success? ==>
      && CursorOf(r.value, t) == Some(contextId)
      && (forall u :: u != t ==> CursorOf(r.value, u) == CursorOf(s, u))
      && r.value == s.(current := r.value.current)
  {
    match CursorOf(s, t)
    case Some(id) => Failure(AlreadyBound(id))
    case None => Success(s.(current := s.current[t := Some(contextId)]))
  }

  /** Clears the calling thread's current context id, whether or not it had
      one. Only that thread's slot changes. */
  function ClearCurrentContext(s: State, t: ThreadId): (s': State)
    ensures CursorOf(s', t) == None
    ensures forall u :: u != t ==> CursorOf(s', u) == CursorOf(s, u)
    ensures s' == s.(current := s'.current)
  {
    s.(current := s.current[t := None])
  }
}
