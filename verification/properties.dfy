/** Properties relating the container's operations to one another. */
module Properties {
  import opened Wrappers
  import opened Ids
  import opened Container

  /** `init` succeeds at most once: afterwards the singleton is available,
      reports the worker id it was given, and a second `init` fails. */
  lemma InitIsOneTime(w: Int64, w2: Int64)
    requires ValidWorker(w)
    ensures Init(Uninitialized, w).Success?
    ensures GetInstance(Uninitialized) == Failure(NotInitialized)
    ensures var s := Init(Uninitialized, w).value;
      && GetInstance(s) == Success(s)
      && GetWorkerId(s) == w
      && Init(s, w2) == Failure(AlreadyInitialized)
  {
  }

  /** Two workers initialised with different ids hand out disjoint context
      ids and disjoint message ids, whatever their counters have reached. */
  lemma DistinctWorkersNeverCollide(s1: State, t1: ThreadId, s2: State, t2: ThreadId)
    requires Valid(s1) && Valid(s2) && s1.workerId != s2.workerId
    requires NewContext(s1, t1).Success? && NewContext(s2, t2).Success?
    requires NewAutogradMessageId(s1).Success? && NewAutogradMessageId(s2).Success?
    ensures NewContext(s1, t1).value.value.contextId != NewContext(s2, t2).value.value.contextId
    ensures NewAutogradMessageId(s1).value.value != NewAutogradMessageId(s2).value.value
  {
  }

  /** Calling `getOrCreateContext` a second time with the same id returns the
      same context and changes nothing further. */
  lemma GetOrCreateIdempotent(s: State, id: Int64)
    requires Valid(s)
    ensures var first := GetOrCreateContext(s, id);
      GetOrCreateContext(first.state, id) == first
  {
  }

  /** `getOrCreateContext` keeps every entry a generated id would collide
      with below the counter, as long as the id it is given is not one this
      worker has yet to generate. */
  lemma GetOrCreateKeepsLocalIdsIssued(s: State, id: Int64)
    requires Valid(s) && LocalIdsIssued(s)
    requires WorkerOf(id) != s.workerId || id < FirstUnissuedContextId(s)
    ensures LocalIdsIssued(GetOrCreateContext(s, id).state)
  {
  }

  /** The same id given to `getOrCreateContext` ahead of the counter makes
      the next `newContext` return the existing entry instead of a fresh one:
      freshness of generated ids rests on that never happening. */
  lemma GetOrCreateAheadOfCounter(s: State, t: ThreadId)
    requires Valid(s) && !s.contextIdsExhausted && !HasValidContext(s, t)
    ensures var s' := GetOrCreateContext(s, s.nextContextId).state;
      && NewContext(s', t).Success?
      && NewContext(s', t).value.value.contextId in s'.contexts
  {
  }

  /** After a successful release the context is gone: retrieving it or
      releasing it again fails with NotFound, and a lenient release is a
      no-op. */
  lemma ReleaseThenRetrieveFails(s: State, t: ThreadId, id: Int64)
    requires Valid(s)
    requires ReleaseContext(s, t, id).Success?
    ensures var s' := ReleaseContext(s, t, id).value;
      && RetrieveContext(s', id) == Failure(NotFound(id))
      && ReleaseContext(s', t, id) == Failure(NotFound(id))
      && ReleaseContextIfPresent(s', t, id) == s'
  {
  }

  /** Releasing a context never leaves the releasing thread pointing at it:
      afterwards its current context is either unset or a different id. */
  lemma ReleaseResetsCallerCursor(s: State, t: ThreadId, id: Int64)
    requires Valid(s)
    ensures CursorOf(ReleaseContextIfPresent(s, t, id), t) != Some(id) || id !in s.contexts
    ensures CursorOf(s, t) == Some(id) && id in s.contexts ==>
      !HasValidContext(ReleaseContextIfPresent(s, t, id), t)
  {
  }

  /** Releasing keeps generated ids below the counter. */
  lemma ReleaseKeepsLocalIdsIssued(s: State, t: ThreadId, id: Int64)
    requires Valid(s) && LocalIdsIssued(s)
    ensures LocalIdsIssued(ReleaseContextIfPresent(s, t, id))
  {
  }

  /** After `setCurrentContextId(id)` the thread has a valid context, its
      current context is the entry for `id`, and a second set without a clear
      fails. */
  lemma SetThenCurrent(s: State, t: ThreadId, id: Int64, id2: Int64)
    requires Valid(s) && !HasValidContext(s, t)
    ensures SetCurrentContextId(s, t, id).Success?
    ensures var s' := SetCurrentContextId(s, t, id).value;
      && HasValidContext(s', t)
      && CurrentContext(s', t) == RetrieveContext(s, id)
      && (id in s.contexts ==> CurrentContext(s', t) == Success(s.contexts[id]))
      && SetCurrentContextId(s', t, id2) == Failure(AlreadyBound(id))
  {
  }

  /** After `clearCurrentContext` the thread has no valid context, and a new
      current context id can be set. */
  lemma ClearThenNoContext(s: State, t: ThreadId, id: Int64)
    requires Valid(s)
    ensures var s' := ClearCurrentContext(s, t);
      && !HasValidContext(s', t)
      && CurrentContext(s', t) == Failure(NoActiveContext)
      && SetCurrentContextId(s', t, id).Success?
  {
  }

  /** `newContext` binds the new context to the calling thread only;
      generating a message id and `getOrCreateContext` touch no thread's
      current context. */
  lemma AllocationLeavesCursors(s: State, t: ThreadId, u: ThreadId, id: Int64)
    requires Valid(s) && u != t
    ensures NewContext(s, t).Success? ==>
      && CursorOf(NewContext(s, t).value.state, t) == Some(NewContext(s, t).value.value.contextId)
      && CursorOf(NewContext(s, t).value.state, u) == CursorOf(s, u)
    ensures NewAutogradMessageId(s).Success? ==> NewAutogradMessageId(s).value.state.current == s.current
    ensures GetOrCreateContext(s, id).state.current == s.current
  {
  }

  /** A thread that created a context is bound to it: a second `newContext`
      on that thread fails until the thread clears its current context or
      releases that context. */
  lemma NewContextThenReleaseUnbinds(s: State, t: ThreadId)
    requires Valid(s) && NewContext(s, t).Success?
    ensures var a := NewContext(s, t).value;
      && HasValidContext(a.state, t)
      && CurrentContext(a.state, t) == Success(a.value)
      && NewContext(a.state, t) == Failure(AlreadyBound(a.value.contextId))
      && ReleaseContext(a.state, t, a.value.contextId).Success?
      && !HasValidContext(ReleaseContext(a.state, t, a.value.contextId).value, t)
  {
  }

  /** Once a counter has generated the maximum id, allocation fails instead
      of producing an id of the next worker, and the counter stays an
      `int64_t` value. */
  lemma ExhaustedCounterFails(s: State, t: ThreadId)
    requires Valid(s) && !HasValidContext(s, t)
    requires s.nextContextId == s.maxId && !s.contextIdsExhausted
    requires s.nextMessageId == s.maxId && !s.messageIdsExhausted
    ensures NewContext(s, t).Success? && NewContext(s, t).value.value.contextId == GetMaxId(s)
    ensures var s1 := NewContext(s, t).value.state;
      && s1.nextContextId == GetMaxId(s)
      && NewContext(ClearCurrentContext(s1, t), t) == Failure(Exhausted)
    ensures NewAutogradMessageId(s).Success? && NewAutogradMessageId(s).value.value == GetMaxId(s)
    ensures var s1 := NewAutogradMessageId(s).value.state;
      && s1.nextMessageId == GetMaxId(s)
      && NewAutogradMessageId(s1) == Failure(Exhausted)
  {
  }
}
