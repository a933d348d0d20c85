/** Sequences of calls on one initialised container, each by some thread,
    and what holds of every such run: ids are generated consecutively and
    stay within the worker's range, the worker id and maximum id never
    change, and a thread's current context is changed by that thread only. */
module Traces {
  import opened Wrappers
  import opened Ids
  import opened Container

  datatype Op =
    | NewContextOp
    | NewMessageIdOp
    | GetOrCreateOp(contextId: Int64)
    | RetrieveOp(contextId: Int64)
    | ReleaseOp(contextId: Int64)
    | ReleaseIfPresentOp(contextId: Int64)
    | CurrentOp
    | SetCurrentOp(contextId: Int64)
    | ClearCurrentOp

  /** One call of a public operation by thread `thread`. */
  datatype Call = Call(thread: ThreadId, op: Op)

  datatype Reply =
    | Done
    | Ctx(context: Context)
    | MessageId(id: Int64)
    | Failed(error: Error)

  /** The final state of a run and the context ids and message ids it
      generated, in order. */
  datatype Run = Run(final: State, contextIds: seq<Int64>, messageIds: seq<Int64>)

  /** Performs one call. The worker id and maximum id are kept, and neither
      family's first ungenerated id moves backwards. */
  function Step(s: State, c: Call): (r: After<Reply>)
    requires Valid(s)
    ensures Valid(r.state)
    ensures r.state.workerId == s.workerId && r.state.maxId == s.maxId
    ensures FirstUnissuedContextId(s) <= FirstUnissuedContextId(r.state)
    ensures FirstUnissuedMessageId(s) <= FirstUnissuedMessageId(r.state)
  {
    match c.op
    case NewContextOp =>
      (match NewContext(s, c.thread)
       case Success(a) => After(a.state, Ctx(a.value))
       case Failure(e) => After(s, Failed(e)))
    case NewMessageIdOp =>
      (match NewAutogradMessageId(s)
       case Success(a) => After(a.state, MessageId(a.value))
       case Failure(e) => After(s, Failed(e)))
    case GetOrCreateOp(id) =>
      var a := GetOrCreateContext(s, id);
      After(a.state, Ctx(a.value))
    case RetrieveOp(id) =>
      (match RetrieveContext(s, id)
       case Success(ctx) => After(s, Ctx(ctx))
       case Failure(e) => After(s, Failed(e)))
    case ReleaseOp(id) =>
      (match ReleaseContext(s, c.thread, id)
       case Success(s') => After(s', Done)
       case Failure(e) => After(s, Failed(e)))
    case ReleaseIfPresentOp(id) =>
      After(ReleaseContextIfPresent(s, c.thread, id), Done)
    case CurrentOp =>
      (match CurrentContext(s, c.thread)
       case Success(ctx) => After(s, Ctx(ctx))
       case Failure(e) => After(s, Failed(e)))
    case SetCurrentOp(id) =>
      (match SetCurrentContextId(s, c.thread, id)
       case Success(s') => After(s', Done)
       case Failure(e) => After(s, Failed(e)))
    case ClearCurrentOp =>
      After(ClearCurrentContext(s, c.thread), Done)
  }

  /** The context id a step generated, if it was a successful `newContext`. */
  function ContextIdsOf(c: Call, reply: Reply): seq<Int64> {
    if c.op.NewContextOp? && reply.Ctx? then [reply.context.contextId] else []
  }

  /** The message id a step generated, if any. */
  function MessageIdsOf(reply: Reply): seq<Int64> {
    if reply.MessageId? then [reply.id] else []
  }

  /** Performs the calls in order. */
  function Execute(s: State, calls: seq<Call>): (r: Run)
    requires Valid(s)
    ensures Valid(r.final)
    decreases |calls|
  {
    if |calls| == 0 then Run(s, [], [])
    else
      var a := Step(s, calls[0]);
      var rest := Execute(a.state, calls[1..]);
      Run(rest.final,
          ContextIdsOf(calls[0], a.value) + rest.contextIds,
          MessageIdsOf(a.value) + rest.messageIds)
  }

  /** A step generates at most one id of each family, and exactly the first
      one not yet generated, which it then moves past. */
  lemma StepMintsCounter(s: State, c: Call)
    requires Valid(s)
    ensures var a := Step(s, c);
      && FirstUnissuedContextId(a.state) == FirstUnissuedContextId(s) + |ContextIdsOf(c, a.value)|
      && (|ContextIdsOf(c, a.value)| == 1 ==> ContextIdsOf(c, a.value)[0] == FirstUnissuedContextId(s))
      && FirstUnissuedMessageId(a.state) == FirstUnissuedMessageId(s) + |MessageIdsOf(a.value)|
      && (|MessageIdsOf(a.value)| == 1 ==> MessageIdsOf(a.value)[0] == FirstUnissuedMessageId(s))
  {
  }

  /** Over any run the worker id and maximum id are unchanged, and each
      family's generated ids are consecutive from its first ungenerated id,
      which ends just past the last of them. */
  lemma {:induction false} ExecuteMintsConsecutiveIds(s: State, calls: seq<Call>)
    requires Valid(s)
    ensures var r := Execute(s, calls);
      && r.final.workerId == s.workerId
      && r.final.maxId == s.maxId
      && FirstUnissuedContextId(r.final) == FirstUnissuedContextId(s) + |r.contextIds|
      && (forall i :: 0 <= i < |r.contextIds| ==> r.contextIds[i] == FirstUnissuedContextId(s) + i)
      && FirstUnissuedMessageId(r.final) == FirstUnissuedMessageId(s) + |r.messageIds|
      && (forall i :: 0 <= i < |r.messageIds| ==> r.messageIds[i] == FirstUnissuedMessageId(s) + i)
    decreases |calls|
  {
    if |calls| > 0 {
      var a := Step(s, calls[0]);
      StepMintsCounter(s, calls[0]);
      ExecuteMintsConsecutiveIds(a.state, calls[1..]);
    }
  }

  /** Every id generated in a run carries the worker's bits, does not exceed
      the maximum id, and comes after every id generated before it. */
  lemma ExecuteIdsIncreaseWithinWorker(s: State, calls: seq<Call>)
    requires Valid(s)
    ensures var r := Execute(s, calls);
      && (forall i, j :: 0 <= i < j < |r.contextIds| ==> r.contextIds[i] < r.contextIds[j])
      && (forall i, j :: 0 <= i < j < |r.messageIds| ==> r.messageIds[i] < r.messageIds[j])
      && (forall id :: id in r.contextIds ==> WorkerOf(id) == s.workerId && id <= GetMaxId(s))
      && (forall id :: id in r.messageIds ==> WorkerOf(id) == s.workerId && id <= GetMaxId(s))
  {
    var r := Execute(s, calls);
    ExecuteMintsConsecutiveIds(s, calls);
    forall id | id in r.contextIds
      ensures WorkerOf(id) == s.workerId && id <= GetMaxId(s)
    {
      IdsOfWorkerAreARange(s.workerId, id);
    }
    forall id | id in r.messageIds
      ensures WorkerOf(id) == s.workerId && id <= GetMaxId(s)
    {
      IdsOfWorkerAreARange(s.workerId, id);
    }
  }

  /** Starting from `init(w)`, the i-th generated context id is the id with
      worker `w` and counter `i`, and likewise for message ids; the worker id
      reported at the end is still `w`. */
  lemma RunFromInit(w: Int64, calls: seq<Call>)
    requires ValidWorker(w)
    ensures Init(Uninitialized, w).Success?
    ensures var r := Execute(Init(Uninitialized, w).value, calls);
      && GetWorkerId(r.final) == w
      && (forall i :: 0 <= i < |r.contextIds| ==> ValidCounter(i) && r.contextIds[i] == Pack(w, i))
      && (forall i :: 0 <= i < |r.messageIds| ==> ValidCounter(i) && r.messageIds[i] == Pack(w, i))
  {
    var s := Init(Uninitialized, w).value;
    var r := Execute(s, calls);
    ExecuteMintsConsecutiveIds(s, calls);
    assert FirstUnissuedContextId(r.final) <= MaxIdFor(w) + 1;
    assert FirstUnissuedMessageId(r.final) <= MaxIdFor(w) + 1;
  }

  /** Runs on two workers with different ids never generate a common context
      id or a common message id. */
  lemma RunsOfDistinctWorkersAreDisjoint(s1: State, calls1: seq<Call>, s2: State, calls2: seq<Call>)
    requires Valid(s1) && Valid(s2) && s1.workerId != s2.workerId
    ensures forall id :: id in Execute(s1, calls1).contextIds ==> id !in Execute(s2, calls2).contextIds
    ensures forall id :: id in Execute(s1, calls1).messageIds ==> id !in Execute(s2, calls2).messageIds
  {
    ExecuteIdsIncreaseWithinWorker(s1, calls1);
    ExecuteIdsIncreaseWithinWorker(s2, calls2);
  }

  /** Only calls made by thread `t` change its current context. */
  lemma {:induction false} CursorIsThreadLocal(s: State, calls: seq<Call>, t: ThreadId)
    requires Valid(s)
    requires forall i :: 0 <= i < |calls| ==> calls[i].thread != t
    ensures CursorOf(Execute(s, calls).final, t) == CursorOf(s, t)
    decreases |calls|
  {
    if |calls| > 0 {
      var a := Step(s, calls[0]);
      assert CursorOf(a.state, t) == CursorOf(s, t);
      CursorIsThreadLocal(a.state, calls[1..], t);
    }
  }

  /** When no call hands `getOrCreateContext` an id this worker has yet to
      generate, every entry with this worker's bits stays below the counter,
      so every `newContext` of the run inserts an id not already present. */
  lemma {:induction false} ExecuteKeepsLocalIdsIssued(s: State, calls: seq<Call>)
    requires Valid(s) && LocalIdsIssued(s)
    requires forall i :: 0 <= i < |calls| && calls[i].op.GetOrCreateOp? ==>
      WorkerOf(calls[i].op.contextId) != s.workerId || calls[i].op.contextId < FirstUnissuedContextId(s)
    ensures LocalIdsIssued(Execute(s, calls).final)
    decreases |calls|
  {
    if |calls| > 0 {
      var a := Step(s, calls[0]);
      match calls[0].op {
        case GetOrCreateOp(id) =>
          assert calls[0].op.GetOrCreateOp?;
        case ReleaseOp(id) =>
          if id in s.contexts {
            assert a.state == ReleaseContextIfPresent(s, calls[0].thread, id);
          }
        case ReleaseIfPresentOp(id) =>
        case _ =>
      }
      assert LocalIdsIssued(a.state);
      var rest := calls[1..];
      assert forall i :: 0 <= i < |rest| ==> rest[i] == calls[i + 1];
      ExecuteKeepsLocalIdsIssued(a.state, rest);
    }
  }

  /** Worked example: before any context exists, releasing the first id of
      worker 3 fails. A thread then creates `(3 << 48) | 0`, clears its
      current context and creates `(3 << 48) | 1`, which becomes its current
      context. Once the second is released, retrieving it fails, the thread
      has no current context, and the first is still there. */
  lemma WorkerThreeExample(t: ThreadId)
    ensures var s0 := Init(Uninitialized, 3).value;
      var a := NewContext(s0, t).value;
      var b := NewContext(ClearCurrentContext(a.state, t), t).value;
      var released := ReleaseContext(b.state, t, b.value.contextId);
      && ReleaseContext(s0, t, 3 * 0x1_0000_0000_0000) == Failure(NotFound(3 * 0x1_0000_0000_0000))
      && a.value.contextId == 3 * 0x1_0000_0000_0000
      && b.value.contextId == 3 * 0x1_0000_0000_0000 + 1
      && CurrentContext(b.state, t) == Success(b.value)
      && released.Success?
      && RetrieveContext(released.value, b.value.contextId) == Failure(NotFound(b.value.contextId))
      && !HasValidContext(released.value, t)
      && RetrieveContext(released.value, a.value.contextId) == Success(a.value)
  {
  }
}
