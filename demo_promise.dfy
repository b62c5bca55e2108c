/**
 * DemoPromise is StandAlonePromise line for line (constructor, `then`,
 * `resolve`, `reject`, `_clearAndEnqueueReactions`), so the StandAlone
 * module is its model. The one difference is a defect in its
 * `addToTaskQueue`: the parameter is spelled `taks` while the body schedules
 * `task`, a name declared nowhere, so every call throws a ReferenceError
 * before anything is scheduled. The rest of the project uses the intended
 * append (StandAlone); this module models the code as written only so that
 * the defect and its consequences can be stated.
 */
module DemoPromise {
  import opened Common
  import opened StandAlone

  /** How a call ends: normally, or by throwing; both carry the state reached at that point. */
  datatype Completion = Normal(world: World) | Threw(world: World)

  /** `addToTaskQueue(taks)` as written: evaluating `task` throws before `setTimeout` is reached. */
  function AddToTaskQueueAsWritten(w: World, taks: Task): (c: Completion)
    ensures c.Threw? && c.world == w
  {
    Threw(w)
  }

  /**
   * `reactions.map(addToTaskQueue)` as written: `map` stops at the first call
   * that throws, and the first call always throws, so only it is reached.
   */
  function EnqueueAllAsWritten(w: World, reactions: seq<Task>): (c: Completion)
    ensures c.world == w
    ensures c.Normal? <==> reactions == []
  {
    if reactions == [] then Normal(w) else AddToTaskQueueAsWritten(w, reactions[0])
  }

  /** `resolve(value)` as written: the state and result are stored before the enqueue that throws. */
  function ResolveAsWritten(w: World, p: Id, value: Value): (c: Completion)
    requires w.Valid() && p < |w.promises|
    ensures c.world.queue == w.queue && c.world.trace == w.trace
    ensures w.promises[p].promiseState != Pending ==> c == Normal(w)
  {
    if w.promises[p].promiseState != Pending then Normal(w)
    else
      var reactions := w.promises[p].fulfillReactions.value;
      EnqueueAllAsWritten(w.(promises := w.promises[p := Promise(Fulfilled, value, None, None)]), reactions)
  }

  /** `reject(error)` as written. */
  function RejectAsWritten(w: World, p: Id, error: Value): (c: Completion)
    requires w.Valid() && p < |w.promises|
    ensures c.world.queue == w.queue && c.world.trace == w.trace
    ensures w.promises[p].promiseState != Pending ==> c == Normal(w)
  {
    if w.promises[p].promiseState != Pending then Normal(w)
    else
      var reactions := w.promises[p].rejectReactions.value;
      EnqueueAllAsWritten(w.(promises := w.promises[p := Promise(Rejected, error, None, None)]), reactions)
  }

  /** `then(onFulfilled, onRejected)` as written: on a settled promise it reaches the defective enqueue. */
  function ThenAsWritten(w: World, p: Id, onFulfilled: Callback, onRejected: Callback): (c: Completion)
    requires w.Valid() && p < |w.promises|
    ensures c.world.queue == w.queue && c.world.trace == w.trace
    ensures c.Threw? <==> w.promises[p].promiseState != Pending
  {
    match w.promises[p].promiseState
    case Pending => Normal(w.Then(p, onFulfilled, onRejected))
    case Fulfilled => AddToTaskQueueAsWritten(w, FulfilledTask(p, onFulfilled))
    case Rejected => AddToTaskQueueAsWritten(w, RejectedTask(p, onRejected))
  }

  /**
   * `then` as written against the intended `then`: on a pending promise the
   * two agree; on a settled one the intended code schedules the matching
   * task, while the code as written throws and schedules nothing.
   */
  lemma ThenAsWrittenVersusIntended(w: World, p: Id, onFulfilled: Callback, onRejected: Callback)
    requires w.Valid() && p < |w.promises|
    ensures var c := ThenAsWritten(w, p, onFulfilled, onRejected);
      var intended := w.Then(p, onFulfilled, onRejected);
      && (w.promises[p].promiseState == Pending ==> c == Normal(intended))
      && (w.promises[p].promiseState != Pending ==>
            && c == Threw(w)
            && |intended.queue| == |w.queue| + 1
            && |c.world.queue| == |w.queue|)
  {
  }

  /**
   * The settle-once guard survives the defect: `resolve` on a pending
   * promise stores state and result (and drops both lists) before the
   * enqueue fails, so it throws exactly when reactions were registered,
   * schedules nothing, and every later `resolve` or `reject` is a no-op.
   */
  lemma SettleOnceDespiteFailedEnqueue(w: World, p: Id, value: Value, later: Value)
    requires w.Valid() && p < |w.promises| && w.promises[p].promiseState == Pending
    ensures var c := ResolveAsWritten(w, p, value);
      && c.world.promises == w.promises[p := Promise(Fulfilled, value, None, None)]
      && c.world.queue == w.queue
      && (c.Threw? <==> w.promises[p].fulfillReactions.value != [])
      && c.world.Valid()
      && ResolveAsWritten(c.world, p, later) == Normal(c.world)
      && RejectAsWritten(c.world, p, later) == Normal(c.world)
  {
    var c := ResolveAsWritten(w, p, value);
    assert RecordOk(c.world.promises[p], p);
  }

  /** The same for `reject`. */
  lemma RejectOnceDespiteFailedEnqueue(w: World, p: Id, error: Value, later: Value)
    requires w.Valid() && p < |w.promises| && w.promises[p].promiseState == Pending
    ensures var c := RejectAsWritten(w, p, error);
      && c.world.promises == w.promises[p := Promise(Rejected, error, None, None)]
      && c.world.queue == w.queue
      && (c.Threw? <==> w.promises[p].rejectReactions.value != [])
      && c.world.Valid()
      && ResolveAsWritten(c.world, p, later) == Normal(c.world)
      && RejectAsWritten(c.world, p, later) == Normal(c.world)
  {
    var c := RejectAsWritten(w, p, error);
    assert RecordOk(c.world.promises[p], p);
  }

  /**
   * The usage of the stand-alone demo run against DemoPromise as written:
   * after `resolve('abc')`, `then(h)` throws and schedules nothing, so `h` is
   * never called, where the intended code calls it once with 'abc'
   * (StandAlone.UsageScenario).
   */
  lemma UsageAsWritten(h: Callback, g: Callback)
    ensures var w := EMPTY.Create().Resolve(0, Str("abc")).0;
      var c := ThenAsWritten(w, 0, h, g);
      && ResolveAsWritten(EMPTY.Create(), 0, Str("abc")) == Normal(w)
      && c == Threw(w) && c.world.queue == [] && c.world.Drain().trace == []
  {
  }
}
