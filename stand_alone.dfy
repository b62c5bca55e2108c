/**
 * The stand-alone promise (StandAlonePromise): a settle-once container with
 * two reaction lists, whose `then` registers or schedules one callback and
 * returns nothing. DemoPromise is the same code and shares this model.
 *
 * The JavaScript heap of promise objects is a sequence indexed by identity;
 * the `setTimeout` queue behind `addToTaskQueue` is a FIFO sequence of tasks;
 * what the callbacks do (the demo logs to the console) is recorded as a trace
 * of invocations.
 */
module StandAlone {
  import opened Common

  /** A callback handed to `then`, known by its name. */
  datatype Callback = Callback(name: string)

  /** A call of a callback with the argument it received. */
  datatype Invocation = Invocation(callback: Callback, arg: Value)

  /**
   * The two closures `then` builds. Each one, when the queue runs it, calls
   * its callback with the `promiseResult` that promise `src` holds then.
   */
  datatype Task =
    | FulfilledTask(src: Id, handler: Callback)
    | RejectedTask(src: Id, handler: Callback)

  /** The fields of one promise object; a reaction list that has been set to `undefined` is None. */
  datatype Promise = Promise(
    promiseState: State,
    promiseResult: Value,
    fulfillReactions: Option<seq<Task>>,
    rejectReactions: Option<seq<Task>>)

  /** The promise the constructor builds. */
  const FRESH: Promise := Promise(Pending, Undefined, Some([]), Some([]))

  /** Every task of `ts` belongs to promise `p` and is of the given kind. */
  ghost predicate Owned(ts: seq<Task>, p: Id, fulfilled: bool)
  {
    forall i | 0 <= i < |ts| :: ts[i].src == p && ts[i].FulfilledTask? == fulfilled
  }

  /** The reaction lists exist exactly while the promise is pending, and hold its own tasks. */
  ghost predicate RecordOk(pr: Promise, p: Id)
  {
    && (pr.promiseState == Pending <==> pr.fulfillReactions.Some?)
    && (pr.promiseState == Pending <==> pr.rejectReactions.Some?)
    && (pr.fulfillReactions.Some? ==> Owned(pr.fulfillReactions.value, p, true))
    && (pr.rejectReactions.Some? ==> Owned(pr.rejectReactions.value, p, false))
  }

  /** Every task of `ts` refers to an existing promise. */
  predicate SourcesExist(promises: seq<Promise>, ts: seq<Task>)
  {
    forall i | 0 <= i < |ts| :: ts[i].src < |promises|
  }

  /** What running `task` does: its callback is called with the result promise `task.src` holds. */
  function Invoke(promises: seq<Promise>, task: Task): Invocation
    requires task.src < |promises|
  {
    Invocation(task.handler, promises[task.src].promiseResult)
  }

  /** The invocations that running the tasks `ts` one after another produces. */
  function Invocations(promises: seq<Promise>, ts: seq<Task>): seq<Invocation>
    requires SourcesExist(promises, ts)
    decreases |ts|
  {
    if ts == [] then [] else [Invoke(promises, ts[0])] + Invocations(promises, ts[1..])
  }

  /** A call of `resolve` or `reject`, used to state settle-once over call sequences. */
  datatype SettleCall = ResolveCall(value: Value) | RejectCall(error: Value)

  /** The promises, the task queue and the callbacks invoked so far. */
  datatype World = World(promises: seq<Promise>, queue: seq<Task>, trace: seq<Invocation>)
  {
    ghost predicate Valid()
    {
      && (forall p | 0 <= p < |promises| :: RecordOk(promises[p], p))
      && SourcesExist(promises, queue)
    }

    /** `new StandAlonePromise()`: the new promise gets identity `|promises|`. */
    function Create(): (r: World)
      ensures |r.promises| == |promises| + 1 && r.promises[..|promises|] == promises
      ensures r.promises[|promises|] == Promise(Pending, Undefined, Some([]), Some([]))
      ensures r.queue == queue && r.trace == trace
      ensures Valid() ==> r.Valid()
    {
      this.(promises := promises + [FRESH])
    }

    /** `addToTaskQueue(task)`: the task goes to the back of the queue. */
    function AddToTaskQueue(task: Task): (r: World)
      ensures r.queue == queue + [task] && r.promises == promises && r.trace == trace
    {
      this.(queue := queue + [task])
    }

    /** `reactions.map(addToTaskQueue)`: one `addToTaskQueue` per reaction, front to back. */
    function EnqueueAll(reactions: seq<Task>): (r: World)
      ensures r.promises == promises && r.trace == trace
      ensures r.queue == queue + reactions
      decreases |reactions|
    {
      if reactions == [] then this
      else AddToTaskQueue(reactions[0]).EnqueueAll(reactions[1..])
    }

    /** `_clearAndEnqueueReactions(reactions)`: both lists become `undefined`, then the given ones are scheduled. */
    function ClearAndEnqueueReactions(p: Id, reactions: seq<Task>): (r: World)
      requires p < |promises|
      ensures |r.promises| == |promises|
      ensures forall q | 0 <= q < |promises| && q != p :: r.promises[q] == promises[q]
      ensures r.promises[p].promiseState == promises[p].promiseState
      ensures r.promises[p].promiseResult == promises[p].promiseResult
      ensures r.promises[p].fulfillReactions == None && r.promises[p].rejectReactions == None
      ensures r.queue == queue + reactions && r.trace == trace
    {
      this.(promises := promises[p := promises[p].(fulfillReactions := None, rejectReactions := None)])
        .EnqueueAll(reactions)
    }

    /** `then(onFulfilled, onRejected)` on promise `p`. */
    function Then(p: Id, onFulfilled: Callback, onRejected: Callback): (r: World)
      requires Valid() && p < |promises|
      ensures r.Valid() && |r.promises| == |promises|
      ensures forall q | 0 <= q < |promises| && q != p :: r.promises[q] == promises[q]
      ensures r.promises[p].promiseState == promises[p].promiseState
      ensures r.promises[p].promiseResult == promises[p].promiseResult
      // no callback runs during the call
      ensures r.trace == trace
      ensures promises[p].promiseState == Pending ==>
        && r.queue == queue
        && r.promises[p].fulfillReactions == Some(promises[p].fulfillReactions.value + [FulfilledTask(p, onFulfilled)])
        && r.promises[p].rejectReactions == Some(promises[p].rejectReactions.value + [RejectedTask(p, onRejected)])
      ensures promises[p].promiseState == Fulfilled ==>
        r.promises == promises && r.queue == queue + [FulfilledTask(p, onFulfilled)]
      ensures promises[p].promiseState == Rejected ==>
        r.promises == promises && r.queue == queue + [RejectedTask(p, onRejected)]
    {
      var pr := promises[p];
      match pr.promiseState
      case Pending =>
        this.(promises := promises[p := pr.(
          fulfillReactions := Some(pr.fulfillReactions.value + [FulfilledTask(p, onFulfilled)]),
          rejectReactions := Some(pr.rejectReactions.value + [RejectedTask(p, onRejected)]))])
      case Fulfilled => AddToTaskQueue(FulfilledTask(p, onFulfilled))
      case Rejected => AddToTaskQueue(RejectedTask(p, onRejected))
    }

    /**
     * `resolve(value)` on promise `p`, with the value the call returns:
     * `Ref(p)` (the promise itself) on the effective call, `Undefined` on an ignored one.
     */
    function Resolve(p: Id, value: Value): (r: (World, Value))
      requires Valid() && p < |promises|
      ensures r.0.Valid()
      ensures promises[p].promiseState != Pending ==> r == (this, Undefined)
      ensures promises[p].promiseState == Pending ==>
        && r.1 == Ref(p)
        && r.0.promises == promises[p := Promise(Fulfilled, value, None, None)]
        && r.0.queue == queue + promises[p].fulfillReactions.value
        && r.0.trace == trace
    {
      if promises[p].promiseState != Pending then (this, Undefined)
      else
        var reactions := promises[p].fulfillReactions.value;
        var settled := this.(promises := promises[p := promises[p].(promiseState := Fulfilled, promiseResult := value)]);
        (settled.ClearAndEnqueueReactions(p, reactions), Ref(p))
    }

    /** `reject(error)` on promise `p`, with the value the call returns. */
    function Reject(p: Id, error: Value): (r: (World, Value))
      requires Valid() && p < |promises|
      ensures r.0.Valid()
      ensures promises[p].promiseState != Pending ==> r == (this, Undefined)
      ensures promises[p].promiseState == Pending ==>
        && r.1 == Ref(p)
        && r.0.promises == promises[p := Promise(Rejected, error, None, None)]
        && r.0.queue == queue + promises[p].rejectReactions.value
        && r.0.trace == trace
    {
      if promises[p].promiseState != Pending then (this, Undefined)
      else
        var reactions := promises[p].rejectReactions.value;
        var settled := this.(promises := promises[p := promises[p].(promiseState := Rejected, promiseResult := error)]);
        (settled.ClearAndEnqueueReactions(p, reactions), Ref(p))
    }

    /** The host runs the task at the front of the queue. */
    function Step(): (r: World)
      requires Valid()
      ensures r.Valid()
      ensures queue == [] ==> r == this
      ensures queue != [] ==>
        && r.promises == promises && r.queue == queue[1..]
        && r.trace == trace + [Invocation(queue[0].handler, promises[queue[0].src].promiseResult)]
    {
      if queue == [] then this
      else this.(queue := queue[1..], trace := trace + [Invoke(promises, queue[0])])
    }

    /**
     * The host runs tasks until the queue is empty. Running a stand-alone task
     * schedules nothing, so the queue drains in `|queue|` steps, each calling
     * one callback, in queue order.
     */
    function Drain(): (r: World)
      requires Valid()
      ensures r.Valid() && r.queue == [] && r.promises == promises
      ensures r.trace == trace + Invocations(promises, queue)
      decreases |queue|
    {
      if queue == [] then this else Step().Drain()
    }

    /** A sequence of `resolve` / `reject` calls on promise `p`. */
    function SettleAll(p: Id, calls: seq<SettleCall>): (r: World)
      requires Valid() && p < |promises|
      ensures r.Valid() && |r.promises| == |promises|
      decreases |calls|
    {
      if calls == [] then this
      else
        var next := match calls[0]
          case ResolveCall(v) => Resolve(p, v).0
          case RejectCall(e) => Reject(p, e).0;
        next.SettleAll(p, calls[1..])
    }
  }

  /** The world in which a program starts: no promises, nothing scheduled. */
  const EMPTY: World := World([], [], [])

  /** The n-th invocation of a task sequence is the invocation of its n-th task. */
  lemma {:induction false} InvocationsAt(promises: seq<Promise>, ts: seq<Task>, n: nat)
    requires SourcesExist(promises, ts)
    requires n < |ts|
    ensures |Invocations(promises, ts)| == |ts|
    ensures Invocations(promises, ts)[n] == Invoke(promises, ts[n])
  {
    if n == 0 {
      InvocationsLength(promises, ts);
    } else {
      InvocationsAt(promises, ts[1..], n - 1);
    }
  }

  lemma {:induction false} InvocationsLength(promises: seq<Promise>, ts: seq<Task>)
    requires SourcesExist(promises, ts)
    ensures |Invocations(promises, ts)| == |ts|
  {
    if ts != [] {
        InvocationsLength(promises, ts[1..]);
    }
  }

  /** Once `p` is settled, no further `resolve` or `reject` call changes anything. */
  lemma {:induction false} LaterSettlementsIgnored(w: World, p: Id, calls: seq<SettleCall>)
    requires w.Valid() && p < |w.promises|
    requires w.promises[p].promiseState != Pending
    ensures w.SettleAll(p, calls) == w
    decreases |calls|
  {
    if calls != [] {
      LaterSettlementsIgnored(w, p, calls[1..]);
    }
  }

  /**
   * Settle-once over any sequence of calls: the first `resolve` or `reject`
   * on a pending promise decides its state, its result and what is scheduled;
   * every later call is a no-op.
   */
  lemma FirstSettlementWins(w: World, p: Id, calls: seq<SettleCall>)
    requires w.Valid() && p < |w.promises|
    requires w.promises[p].promiseState == Pending && calls != []
    ensures var r := w.SettleAll(p, calls);
      match calls[0]
      case ResolveCall(v) =>
        r.promises[p] == Promise(Fulfilled, v, None, None) && r.queue == w.queue + w.promises[p].fulfillReactions.value
      case RejectCall(e) =>
        r.promises[p] == Promise(Rejected, e, None, None) && r.queue == w.queue + w.promises[p].rejectReactions.value
  {
    var next := match calls[0]
      case ResolveCall(v) => w.Resolve(p, v).0
      case RejectCall(e) => w.Reject(p, e).0;
    LaterSettlementsIgnored(next, p, calls[1..]);
  }

  /** Running two task lists one after the other gives the invocations of the first, then of the second. */
  lemma {:induction false} InvocationsAppend(promises: seq<Promise>, a: seq<Task>, b: seq<Task>)
    requires SourcesExist(promises, a) && SourcesExist(promises, b)
    ensures SourcesExist(promises, a + b)
    ensures Invocations(promises, a + b) == Invocations(promises, a) + Invocations(promises, b)
    decreases |a|
  {
    var ab := a + b;
    assert SourcesExist(promises, ab) by {
      forall i | 0 <= i < |ab| ensures ab[i].src < |promises| {
        if i < |a| { assert ab[i] == a[i]; } else { assert ab[i] == b[i - |a|]; }
      }
    }
    if a == [] {
      assert ab == b;
    } else {
      var tail := a[1..];
      assert SourcesExist(promises, tail) by {
        forall i | 0 <= i < |tail| ensures tail[i].src < |promises| { assert tail[i] == a[i + 1]; }
      }
      assert ab[0] == a[0];
      assert ab[1..] == tail + b;
      InvocationsAppend(promises, tail, b);
      calc {
        Invocations(promises, ab);
        [Invoke(promises, a[0])] + Invocations(promises, tail + b);
        [Invoke(promises, a[0])] + (Invocations(promises, tail) + Invocations(promises, b));
        Invocations(promises, a) + Invocations(promises, b);
      }
    }
  }


  /** The reactions of promise `p` call their callbacks, in order, each with `p`'s result `v`. */
  lemma ReactionInvocations(promises: seq<Promise>, reactions: seq<Task>, p: Id, v: Value)
    requires p < |promises| && promises[p].promiseResult == v
    requires forall i | 0 <= i < |reactions| :: reactions[i].src == p
    ensures |Invocations(promises, reactions)| == |reactions|
    ensures forall i | 0 <= i < |reactions| :: Invocations(promises, reactions)[i] == Invocation(reactions[i].handler, v)
  {
    InvocationsLength(promises, reactions);
    forall i | 0 <= i < |reactions|
      ensures Invocations(promises, reactions)[i] == Invocation(reactions[i].handler, v)
    {
      InvocationsAt(promises, reactions, i);
    }
  }

  /** A concatenation splits back into its two parts. */
  lemma SplitConcat<T>(all: seq<T>, a: seq<T>, c: seq<T>)
    requires all == a + c
    ensures |all| == |a| + |c| && all[..|a|] == a
    ensures forall i | 0 <= i < |c| :: all[|a| + i] == c[i]
  {
    assert all[..|a|] == a;
  }

  /**
   * Running earlier tasks `q` followed by the reactions of promise `p`: first
   * the invocations of `q`, then one call per reaction, in order, with `p`'s
   * result `v`.
   */
  lemma SettledQueueInvocations(promises: seq<Promise>, q: seq<Task>, reactions: seq<Task>, p: Id, v: Value)
    requires p < |promises| && promises[p].promiseResult == v
    requires SourcesExist(promises, q)
    requires forall i | 0 <= i < |reactions| :: reactions[i].src == p
    ensures SourcesExist(promises, q + reactions)
    ensures var calls := Invocations(promises, q + reactions);
      && |calls| == |q| + |reactions|
      && calls[..|q|] == Invocations(promises, q)
      && forall i | 0 <= i < |reactions| :: calls[|q| + i] == Invocation(reactions[i].handler, v)
  {
    InvocationsAppend(promises, q, reactions);
    InvocationsLength(promises, q);
    ReactionInvocations(promises, reactions, p, v);
    var calls := Invocations(promises, q + reactions);
    var before := Invocations(promises, q);
    var after := Invocations(promises, reactions);
    SplitConcat(calls, before, after);
    forall i | 0 <= i < |reactions|
      ensures calls[|q| + i] == Invocation(reactions[i].handler, v)
    {
      assert calls[|before| + i] == after[i];
    }
  }

  /**
   * Draining a queue made of earlier tasks `q` followed by the reactions of
   * the settled promise `p`: first the invocations of `q`, then one call per
   * reaction, in order, with `p`'s result `v`.
   */
  lemma DrainAfterSettle(s: World, q: seq<Task>, reactions: seq<Task>, p: Id, v: Value)
    requires s.Valid() && p < |s.promises| && s.promises[p].promiseResult == v
    requires s.queue == q + reactions
    requires forall i | 0 <= i < |reactions| :: reactions[i].src == p
    ensures SourcesExist(s.promises, q)
    ensures var r := s.Drain();
      var n := |s.trace| + |q|;
      && |r.trace| == n + |reactions|
      && r.trace[..n] == s.trace + Invocations(s.promises, q)
      && forall i | 0 <= i < |reactions| :: r.trace[n + i] == Invocation(reactions[i].handler, v)
  {
    assert forall i | 0 <= i < |q| :: q[i] == s.queue[i];
    SettledQueueInvocations(s.promises, q, reactions, p, v);
    var calls := Invocations(s.promises, s.queue);
    var tr := s.Drain().trace;
    assert tr == s.trace + calls;
    var n := |s.trace| + |q|;
    assert tr[..n] == s.trace + calls[..|q|];
    forall i | 0 <= i < |reactions|
      ensures tr[n + i] == Invocation(reactions[i].handler, v)
    {
      assert tr[n + i] == calls[|q| + i];
    }
  }

  /**
   * Reactions registered before settlement run in registration order, each
   * with the cached result, and the reject reactions never run: after
   * `resolve` on a pending promise, draining the queue first runs the tasks
   * already scheduled, then calls exactly the fulfil callbacks, in order.
   */
  lemma FulfilReactionsRunInOrder(w: World, p: Id, value: Value)
    requires w.Valid() && p < |w.promises|
    requires w.promises[p].promiseState == Pending
    ensures SourcesExist(w.Resolve(p, value).0.promises, w.queue)
    ensures var reactions := w.promises[p].fulfillReactions.value;
      var s := w.Resolve(p, value).0;
      var r := s.Drain();
      var n := |w.trace| + |w.queue|;
      && |r.trace| == n + |reactions|
      && r.trace[..n] == w.trace + Invocations(s.promises, w.queue)
      && forall i | 0 <= i < |reactions| :: r.trace[n + i] == Invocation(reactions[i].handler, value)
  {
    var reactions := w.promises[p].fulfillReactions.value;
    var s := w.Resolve(p, value).0;
    assert RecordOk(w.promises[p], p);
    DrainAfterSettle(s, w.queue, reactions, p, value);
  }

  /** The same for rejection: after the tasks already scheduled, exactly the reject callbacks run, in order, with the error. */
  lemma RejectReactionsRunInOrder(w: World, p: Id, error: Value)
    requires w.Valid() && p < |w.promises|
    requires w.promises[p].promiseState == Pending
    ensures SourcesExist(w.Reject(p, error).0.promises, w.queue)
    ensures var reactions := w.promises[p].rejectReactions.value;
      var s := w.Reject(p, error).0;
      var r := s.Drain();
      var n := |w.trace| + |w.queue|;
      && |r.trace| == n + |reactions|
      && r.trace[..n] == w.trace + Invocations(s.promises, w.queue)
      && forall i | 0 <= i < |reactions| :: r.trace[n + i] == Invocation(reactions[i].handler, error)
  {
    var reactions := w.promises[p].rejectReactions.value;
    var s := w.Reject(p, error).0;
    assert RecordOk(w.promises[p], p);
    DrainAfterSettle(s, w.queue, reactions, p, error);
  }

  /**
   * `then` works whether the promise settles before or after it is called:
   * on a promise with no reactions and nothing scheduled, registering and
   * then resolving, or resolving and then registering, both end (once the
   * queue drains) with exactly one call of the callback, with the value.
   */
  lemma RegistrationOrderIrrelevant(w: World, p: Id, value: Value, onFulfilled: Callback, onRejected: Callback)
    requires w.Valid() && p < |w.promises| && w.queue == []
    requires w.promises[p] == FRESH
    ensures w.Then(p, onFulfilled, onRejected).Resolve(p, value).0.Drain().trace
         == w.trace + [Invocation(onFulfilled, value)]
    ensures w.Resolve(p, value).0.Then(p, onFulfilled, onRejected).Drain().trace
         == w.trace + [Invocation(onFulfilled, value)]
  {
    var before := w.Then(p, onFulfilled, onRejected).Resolve(p, value).0;
    assert before.queue == [FulfilledTask(p, onFulfilled)];
    assert before.Drain().trace == w.trace + Invocations(before.promises, before.queue);
    var after := w.Resolve(p, value).0.Then(p, onFulfilled, onRejected);
    assert after.queue == [FulfilledTask(p, onFulfilled)];
    assert after.Drain().trace == w.trace + Invocations(after.promises, after.queue);
  }

  /**
   * The usage at the end of 1-promise-stand-alone.js: `resolve('abc')`, then
   * `then(h)`. Nothing is called during `then`; draining the queue calls `h`
   * exactly once, with 'abc'. (The demo passes no onRejected; the model needs
   * one, and it is never called.)
   */
  lemma UsageScenario(h: Callback, g: Callback)
    ensures var w := EMPTY.Create().Resolve(0, Str("abc")).0.Then(0, h, g);
      w.trace == [] && w.Drain().trace == [Invocation(h, Str("abc"))]
  {
    var w := EMPTY.Create().Resolve(0, Str("abc")).0.Then(0, h, g);
    assert w.queue == [FulfilledTask(0, h)];
    assert w.Drain().trace == Invocations(w.promises, w.queue);
  }

  /**
   * The host of the promise objects: their fields, the task queue of
   * `addToTaskQueue`, and the trace of callback invocations. Each method is
   * the operation of the same name on the promise with identity `p`.
   */
  class Runtime {
    var promises: seq<Promise>
    var queue: seq<Task>
    var trace: seq<Invocation>

    function Model(): World
      reads this
    {
      World(promises, queue, trace)
    }

    constructor ()
      ensures Model() == EMPTY
    {
      promises, queue, trace := [], [], [];
    }

    /** `new StandAlonePromise()`. */
    method Create() returns (p: Id)
      modifies this
      ensures p == old(|promises|) && Model() == old(Model()).Create()
    {
      p := |promises|;
      promises := promises + [Promise(Pending, Undefined, Some([]), Some([]))];
    }

    /** `addToTaskQueue(task)`: schedules the task after everything already scheduled. */
    method AddToTaskQueue(task: Task)
      modifies this
      ensures queue == old(queue) + [task]
      ensures promises == old(promises) && trace == old(trace)
    {
      queue := queue + [task];
    }

    /** `_clearAndEnqueueReactions(reactions)`. */
    method ClearAndEnqueueReactions(p: Id, reactions: seq<Task>)
      requires p < |promises|
      modifies this
      ensures Model() == old(Model()).ClearAndEnqueueReactions(p, reactions)
    {
      promises := promises[p := promises[p].(fulfillReactions := None, rejectReactions := None)];
      var i := 0;
      while i < |reactions|
        invariant 0 <= i <= |reactions|
        invariant promises == old(promises)[p := old(promises)[p].(fulfillReactions := None, rejectReactions := None)]
        invariant queue == old(queue) + reactions[..i] && trace == old(trace)
      {
        AddToTaskQueue(reactions[i]);
        i := i + 1;
      }
      assert reactions[..i] == reactions;
    }

    /** `then(onFulfilled, onRejected)`. */
    method Then(p: Id, onFulfilled: Callback, onRejected: Callback)
      requires Model().Valid() && p < |promises|
      modifies this
      ensures Model() == old(Model()).Then(p, onFulfilled, onRejected)
    {
      var fulfilledTask := FulfilledTask(p, onFulfilled);
      var rejectedTask := RejectedTask(p, onRejected);
      match promises[p].promiseState
      case Pending =>
        var pr := promises[p];
        promises := promises[p := pr.(fulfillReactions := Some(pr.fulfillReactions.value + [fulfilledTask]))];
        promises := promises[p := promises[p].(rejectReactions := Some(pr.rejectReactions.value + [rejectedTask]))];
      case Fulfilled =>
        AddToTaskQueue(fulfilledTask);
      case Rejected =>
        AddToTaskQueue(rejectedTask);
    }

    /** `resolve(value)`: returns the promise itself, or nothing when it was already settled. */
    method Resolve(p: Id, value: Value) returns (ret: Value)
      requires Model().Valid() && p < |promises|
      modifies this
      ensures (Model(), ret) == old(Model()).Resolve(p, value)
    {
      if promises[p].promiseState != Pending {
        return Undefined;
      }
      var reactions := promises[p].fulfillReactions.value;
      promises := promises[p := promises[p].(promiseState := Fulfilled, promiseResult := value)];
      ClearAndEnqueueReactions(p, reactions);
      return Ref(p);
    }

    /** `reject(error)`: returns the promise itself, or nothing when it was already settled. */
    method Reject(p: Id, error: Value) returns (ret: Value)
      requires Model().Valid() && p < |promises|
      modifies this
      ensures (Model(), ret) == old(Model()).Reject(p, error)
    {
      if promises[p].promiseState != Pending {
        return Undefined;
      }
      var reactions := promises[p].rejectReactions.value;
      promises := promises[p := promises[p].(promiseState := Rejected, promiseResult := error)];
      ClearAndEnqueueReactions(p, reactions);
      return Ref(p);
    }

    /** The host runs the task at the front of the queue: its callback gets the promise's cached result. */
    method Step()
      requires Model().Valid()
      modifies this
      ensures Model() == old(Model()).Step()
    {
      if queue == [] {
        return;
      }
      var task := queue[0];
      queue := queue[1..];
      trace := trace + [Invocation(task.handler, promises[task.src].promiseResult)];
    }
  }
}
