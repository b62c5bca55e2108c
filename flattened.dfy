/**
 * The flattening promise (FlattenedChainingPromise): the chaining state
 * machine, where `resolve` is guarded by a lock (`alreadyResolved`) and
 * resolving with a thenable value adopts that promise's eventual outcome
 * instead of storing it.
 *
 * A thenable is a reference to an existing promise object (`Ref(id)` with
 * `id` allocated); every other value is stored as it is.
 */
module Flattened {
  import opened Common

  /**
   * A function passed to `then`. `Call(f)` is a callback of the program,
   * a total function on values. The other two are the closures the adoption
   * task passes to `value.then`: each calls `_doResolve` (resp. `_doReject`)
   * on the promise `target` that adopts `value`, and returns `undefined`.
   */
  datatype Handler =
    | Call(f: Value -> Value)
    | ResolveInto(target: Id)
    | RejectInto(target: Id)

  /**
   * The closures put on the reaction lists or the queue: the two `then`
   * builds (run a handler on the result of `src`, then settle `derived`),
   * and the one `_doResolve` schedules for a thenable value, which makes
   * promise `follower` wait on promise `thenable` by calling its `then`.
   */
  datatype Task =
    | FulfilledTask(src: Id, handler: Option<Handler>, derived: Id)
    | RejectedTask(src: Id, handler: Option<Handler>, derived: Id)
    | AdoptTask(follower: Id, thenable: Id)

  /** The fields of one promise object; a reaction list that has been set to `undefined` is None. */
  datatype Promise = Promise(
    promiseState: State,
    promiseResult: Value,
    fulfillReactions: Option<seq<Task>>,
    rejectReactions: Option<seq<Task>>,
    alreadyResolved: bool)

  /** The promise the constructor builds. */
  const FRESH: Promise := Promise(Pending, Undefined, Some([]), Some([]), false)

  /** The promise a handler settles as a side effect, if any. */
  function HandlerTarget(h: Option<Handler>): Option<Id>
  {
    match h
    case Some(ResolveInto(t)) => Some(t)
    case Some(RejectInto(t)) => Some(t)
    case _ => None
  }

  /** The promise whose adoption a task is part of, if any. */
  function Target(task: Task): Option<Id>
  {
    match task
    case FulfilledTask(_, h, _) => HandlerTarget(h)
    case RejectedTask(_, h, _) => HandlerTarget(h)
    case AdoptTask(follower, _) => Some(follower)
  }

  ghost predicate HandlerOk(h: Option<Handler>, n: nat)
  {
    HandlerTarget(h).Some? ==> HandlerTarget(h).value < n
  }

  /** The task refers to promises that exist among the first `n`. */
  ghost predicate TaskOk(task: Task, n: nat)
  {
    match task
    case FulfilledTask(src, h, d) => src < n && d < n && HandlerOk(h, n)
    case RejectedTask(src, h, d) => src < n && d < n && HandlerOk(h, n)
    case AdoptTask(follower, thenable) => follower < n && thenable < n
  }

  /** Every task of `ts` is a reaction of promise `p` of the given kind, and refers to existing promises. */
  ghost predicate Owned(ts: seq<Task>, p: Id, fulfilled: bool, n: nat)
  {
    forall t <- ts :: (if fulfilled then t.FulfilledTask? else t.RejectedTask?) && t.src == p && TaskOk(t, n)
  }

  /**
   * The reaction lists exist exactly while the promise is pending, and hold
   * its own reactions; a promise that is not locked is still pending.
   */
  ghost predicate RecordOk(pr: Promise, p: Id, n: nat)
  {
    && (pr.promiseState == Pending <==> pr.fulfillReactions.Some?)
    && (pr.promiseState == Pending <==> pr.rejectReactions.Some?)
    && (!pr.alreadyResolved ==> pr.promiseState == Pending)
    && (pr.fulfillReactions.Some? ==> Owned(pr.fulfillReactions.value, p, true, n))
    && (pr.rejectReactions.Some? ==> Owned(pr.rejectReactions.value, p, false, n))
  }

  /** Handler `h`, if it settles some promise, meets it locked and still pending. */
  ghost predicate HandlerReady(h: Option<Handler>, promises: seq<Promise>)
  {
    var t := HandlerTarget(h);
    t.Some? ==> t.value < |promises| && promises[t.value].promiseState == Pending && promises[t.value].alreadyResolved
  }

  /** The handler of a reaction task is ready to be called. */
  ghost predicate Ready(task: Task, promises: seq<Promise>)
  {
    match task
    case AdoptTask(_, _) => true
    case _ => HandlerReady(task.handler, promises)
  }

  /** The existing promises whose fields running `task` may change. */
  predicate Touches(task: Task, q: Id)
  {
    match task
    case AdoptTask(_, thenable) => q == thenable
    case _ => q == task.derived || HandlerTarget(task.handler) == Some(q)
  }

  /** The promises and the task queue of `addToTaskQueue`. */
  datatype World = World(promises: seq<Promise>, queue: seq<Task>)
  {
    ghost predicate WellFormed()
    {
      && (forall p | 0 <= p < |promises| :: RecordOk(promises[p], p, |promises|))
      && (forall t <- queue :: TaskOk(t, |promises|))
    }

    /** Every promise settled in this world has the same fields in `r`. */
    ghost predicate KeepsSettled(r: World)
    {
      && |promises| <= |r.promises|
      && forall q | 0 <= q < |promises| && promises[q].promiseState != Pending :: r.promises[q] == promises[q]
    }

    /** Every promise locked in this world is still locked in `r`: the lock is never released. */
    ghost predicate KeepsLocked(r: World)
    {
      && |promises| <= |r.promises|
      && forall q | 0 <= q < |promises| && promises[q].alreadyResolved :: r.promises[q].alreadyResolved
    }

    /** `value !== null && typeof value === 'object' && 'then' in value`, for the values of the model. */
    predicate IsThenable(value: Value)
    {
      value.Ref? && value.id < |promises|
    }

    /** `new FlattenedChainingPromise()`: the new promise gets identity `|promises|`. */
    function Create(): (r: World)
      ensures |r.promises| == |promises| + 1 && r.promises[..|promises|] == promises
      ensures r.promises[|promises|] == Promise(Pending, Undefined, Some([]), Some([]), false)
      ensures r.queue == queue
      ensures WellFormed() ==> r.WellFormed()
    {
      this.(promises := promises + [FRESH])
    }

    /** `addToTaskQueue(task)`: the task goes to the back of the queue. */
    function AddToTaskQueue(task: Task): (r: World)
      ensures r.queue == queue + [task] && r.promises == promises
    {
      this.(queue := queue + [task])
    }

    /** `reactions.map(addToTaskQueue)`: one `addToTaskQueue` per reaction, front to back. */
    function EnqueueAll(reactions: seq<Task>): (r: World)
      ensures r.promises == promises && r.queue == queue + reactions
      decreases |reactions|
    {
      if reactions == [] then this
      else AddToTaskQueue(reactions[0]).EnqueueAll(reactions[1..])
    }

    /** `_clearAndEnqueueReactions(reactions)`: both lists become `undefined`, then the given ones are scheduled. */
    function ClearAndEnqueueReactions(p: Id, reactions: seq<Task>): (r: World)
      requires p < |promises|
      ensures |r.promises| == |promises|
      ensures forall q | 0 <= q < |promises| && q != p :: r.promises[q] == promises[q]
      ensures r.promises[p] == promises[p].(fulfillReactions := None, rejectReactions := None)
      ensures r.queue == queue + reactions
    {
      this.(promises := promises[p := promises[p].(fulfillReactions := None, rejectReactions := None)])
        .EnqueueAll(reactions)
    }

    /**
     * `then(onFulfilled, onRejected)` on promise `p`: the derived promise is
     * created first, with identity `|promises|`, and returned. A pending
     * promise takes the reactions whether or not it is locked.
     */
    function Then(p: Id, onFulfilled: Option<Handler>, onRejected: Option<Handler>): (r: (World, Id))
      requires WellFormed() && p < |promises|
      requires HandlerOk(onFulfilled, |promises|) && HandlerOk(onRejected, |promises|)
      ensures var (w, d) := r;
        && w.WellFormed() && KeepsSettled(w) && KeepsLocked(w) && d == |promises| && |w.promises| == |promises| + 1
        && w.promises[d] == Promise(Pending, Undefined, Some([]), Some([]), false)
        && (forall q | 0 <= q < |promises| && q != p :: w.promises[q] == promises[q])
        && w.promises[p].promiseState == promises[p].promiseState
        && w.promises[p].promiseResult == promises[p].promiseResult
        && w.promises[p].alreadyResolved == promises[p].alreadyResolved
        && (promises[p].promiseState == Pending ==>
              && w.queue == queue
              && w.promises[p].fulfillReactions == Some(promises[p].fulfillReactions.value + [FulfilledTask(p, onFulfilled, d)])
              && w.promises[p].rejectReactions == Some(promises[p].rejectReactions.value + [RejectedTask(p, onRejected, d)]))
        && (promises[p].promiseState == Fulfilled ==>
              w.promises[p] == promises[p] && w.queue == queue + [FulfilledTask(p, onFulfilled, d)])
        && (promises[p].promiseState == Rejected ==>
              w.promises[p] == promises[p] && w.queue == queue + [RejectedTask(p, onRejected, d)])
    {
      var d := |promises|;
      var w := Create();
      var pr := w.promises[p];
      match pr.promiseState
      case Pending =>
        (w.(promises := w.promises[p := pr.(
          fulfillReactions := Some(pr.fulfillReactions.value + [FulfilledTask(p, onFulfilled, d)]),
          rejectReactions := Some(pr.rejectReactions.value + [RejectedTask(p, onRejected, d)]))]), d)
      case Fulfilled => (w.AddToTaskQueue(FulfilledTask(p, onFulfilled, d)), d)
      case Rejected => (w.AddToTaskQueue(RejectedTask(p, onRejected, d)), d)
    }

    /**
     * `_doResolve(value)` on promise `p`, which its callers have locked. A
     * thenable is adopted: one task is scheduled and `p` stays as it is.
     * Any other value fulfils `p`; that path reads the reaction lists, so
     * `p` must still be pending (on a settled promise the lists are
     * `undefined` and the code would fail).
     */
    function DoResolve(p: Id, value: Value): (r: World)
      requires WellFormed() && p < |promises| && promises[p].alreadyResolved
      requires IsThenable(value) || promises[p].promiseState == Pending
      ensures r.WellFormed() && KeepsLocked(r) && |r.promises| == |promises|
      ensures IsThenable(value) ==>
        r.promises == promises && r.queue == queue + [AdoptTask(p, value.id)]
      ensures !IsThenable(value) ==>
        && r.promises == promises[p := Promise(Fulfilled, value, None, None, true)]
        && r.queue == queue + promises[p].fulfillReactions.value
    {
      if IsThenable(value) then
        AddToTaskQueue(AdoptTask(p, value.id))
      else
        var reactions := promises[p].fulfillReactions.value;
        var settled := this.(promises := promises[p := promises[p].(promiseState := Fulfilled, promiseResult := value)]);
        settled.ClearAndEnqueueReactions(p, reactions)
    }

    /**
     * `_doReject(error)` on the locked, pending promise `p`: the error is
     * stored as it is, even when it is thenable.
     */
    function DoReject(p: Id, error: Value): (r: World)
      requires WellFormed() && p < |promises| && promises[p].alreadyResolved
      requires promises[p].promiseState == Pending
      ensures r.WellFormed() && KeepsLocked(r) && |r.promises| == |promises|
      ensures r.promises == promises[p := Promise(Rejected, error, None, None, true)]
      ensures r.queue == queue + promises[p].rejectReactions.value
    {
      var reactions := promises[p].rejectReactions.value;
      var settled := this.(promises := promises[p := promises[p].(promiseState := Rejected, promiseResult := error)]);
      settled.ClearAndEnqueueReactions(p, reactions)
    }

    /** The lock `resolve` and `reject` set before delegating. */
    function Lock(p: Id): (r: World)
      requires WellFormed() && p < |promises|
      ensures r.WellFormed()
    {
      this.(promises := promises[p := promises[p].(alreadyResolved := true)])
    }

    /**
     * `resolve(value)` on promise `p`, with the value the call returns:
     * only the first `resolve` or `reject` is effective (it returns `Ref(p)`);
     * later calls change nothing and return `Undefined`.
     */
    function Resolve(p: Id, value: Value): (r: (World, Value))
      requires WellFormed() && p < |promises|
      ensures r.0.WellFormed() && KeepsSettled(r.0) && KeepsLocked(r.0) && |r.0.promises| == |promises|
      ensures r.0.promises[p].alreadyResolved
      ensures promises[p].alreadyResolved ==> r == (this, Undefined)
      ensures !promises[p].alreadyResolved && IsThenable(value) ==>
        && r.1 == Ref(p)
        && r.0.promises == promises[p := promises[p].(alreadyResolved := true)]
        && r.0.queue == queue + [AdoptTask(p, value.id)]
      ensures !promises[p].alreadyResolved && !IsThenable(value) ==>
        && r.1 == Ref(p)
        && r.0.promises == promises[p := Promise(Fulfilled, value, None, None, true)]
        && r.0.queue == queue + promises[p].fulfillReactions.value
    {
      if promises[p].alreadyResolved then (this, Undefined)
      else (Lock(p).DoResolve(p, value), Ref(p))
    }

    /** `reject(error)` on promise `p`, with the value the call returns. */
    function Reject(p: Id, error: Value): (r: (World, Value))
      requires WellFormed() && p < |promises|
      ensures r.0.WellFormed() && KeepsSettled(r.0) && KeepsLocked(r.0) && |r.0.promises| == |promises|
      ensures r.0.promises[p].alreadyResolved
      ensures promises[p].alreadyResolved ==> r == (this, Undefined)
      ensures !promises[p].alreadyResolved ==>
        && r.1 == Ref(p)
        && r.0.promises == promises[p := Promise(Rejected, error, None, None, true)]
        && r.0.queue == queue + promises[p].rejectReactions.value
    {
      if promises[p].alreadyResolved then (this, Undefined)
      else (Lock(p).DoReject(p, error), Ref(p))
    }

    /** Calling handler `h` with `v`: its side effect, and what it returns. */
    function ApplyHandler(h: Handler, v: Value): (r: (World, Value))
      requires WellFormed() && HandlerOk(Some(h), |promises|) && HandlerReady(Some(h), promises)
      ensures r.0.WellFormed() && KeepsSettled(r.0) && KeepsLocked(r.0) && |r.0.promises| == |promises|
      ensures |r.0.queue| >= |queue| && r.0.queue[..|queue|] == queue
      ensures forall q | 0 <= q < |promises| && HandlerTarget(Some(h)) != Some(q) :: r.0.promises[q] == promises[q]
    {
      match h
      case Call(f) => (this, f(v))
      case ResolveInto(t) => (DoResolve(t, v), Undefined)
      case RejectInto(t) => (DoReject(t, v), Undefined)
    }

    /** What running `task` does. */
    function Run(task: Task): (r: World)
      requires WellFormed() && TaskOk(task, |promises|) && Ready(task, promises)
      ensures r.WellFormed() && KeepsSettled(r) && KeepsLocked(r)
      ensures |r.queue| >= |queue| && r.queue[..|queue|] == queue
      ensures forall q | 0 <= q < |promises| && !Touches(task, q) :: r.promises[q] == promises[q]
    {
      match task
      case AdoptTask(follower, thenable) =>
        Then(thenable, Some(ResolveInto(follower)), Some(RejectInto(follower))).0
      case FulfilledTask(src, h, d) => React(h, promises[src].promiseResult, d, true)
      case RejectedTask(src, h, d) => React(h, promises[src].promiseResult, d, false)
    }

    /**
     * The body of a reaction closure: with a handler, its result resolves
     * `d`; without one, the source's outcome `v` passes to `d` as it came
     * (resolved when `fulfilled`, rejected otherwise).
     */
    function React(h: Option<Handler>, v: Value, d: Id, fulfilled: bool): (r: World)
      requires WellFormed() && d < |promises| && HandlerOk(h, |promises|) && HandlerReady(h, promises)
      ensures r.WellFormed() && KeepsSettled(r) && KeepsLocked(r)
      ensures |r.queue| >= |queue| && r.queue[..|queue|] == queue
      ensures forall q | 0 <= q < |promises| && q != d && HandlerTarget(h) != Some(q) :: r.promises[q] == promises[q]
    {
      if h.None? then
        if fulfilled then Resolve(d, v).0 else Reject(d, v).0
      else
        var (w, x) := ApplyHandler(h.value, v);
        w.Resolve(d, x).0
    }

    /**
     * The host runs the task at the front of the queue: the tasks behind it
     * keep their order, ahead of any it schedules, and only the promises it
     * names change. A settled promise is never changed again, and a locked
     * one is never unlocked.
     */
    function Step(): (r: World)
      requires WellFormed() && (queue != [] ==> Ready(queue[0], promises))
      ensures r.WellFormed() && KeepsSettled(r) && KeepsLocked(r)
      ensures queue == [] ==> r == this
      ensures queue != [] ==> |r.queue| >= |queue| - 1 && r.queue[..|queue| - 1] == queue[1..]
      ensures queue != [] ==> forall q | 0 <= q < |promises| && !Touches(queue[0], q) :: r.promises[q] == promises[q]
    {
      if queue == [] then this
      else
        assert queue[0] in queue;
        this.(queue := queue[1..]).Run(queue[0])
    }
  }

  /** The world in which a program starts: no promises, nothing scheduled. */
  const EMPTY: World := World([], [])

  /**
   * A step of the host is the run of the front task on the rest of the queue.
   * This only unfolds `Step`; it is the link from `Step` to the lemmas about `Run`.
   */
  lemma StepRunsFront(w: World)
    requires w.WellFormed() && w.queue != [] && Ready(w.queue[0], w.promises)
    ensures w.queue[0] in w.queue
    ensures w.Step() == w.(queue := w.queue[1..]).Run(w.queue[0])
  {
  }

  /**
   * The lock: the first `resolve` locks the promise, after which `resolve`
   * and `reject` change nothing and return `Undefined`, even while the
   * promise is still pending because it adopted a thenable. Stated here for
   * the next call; `FlattenedInvariant.LockHoldsForGood` states it after any
   * program in between.
   */
  lemma LockedAfterFirstResolve(w: World, p: Id, value: Value, later: Value)
    requires w.WellFormed() && p < |w.promises| && !w.promises[p].alreadyResolved
    ensures var r := w.Resolve(p, value).0;
      && r.promises[p].alreadyResolved
      && (w.IsThenable(value) <==> r.promises[p].promiseState == Pending)
      && r.Resolve(p, later) == (r, Undefined)
      && r.Reject(p, later) == (r, Undefined)
  {
  }

  /** The same after a first `reject`, which always settles the promise. */
  lemma LockedAfterFirstReject(w: World, p: Id, error: Value, later: Value)
    requires w.WellFormed() && p < |w.promises| && !w.promises[p].alreadyResolved
    ensures var r := w.Reject(p, error).0;
      && r.promises[p].alreadyResolved && r.promises[p].promiseState == Rejected
      && r.Resolve(p, later) == (r, Undefined)
      && r.Reject(p, later) == (r, Undefined)
  {
  }

  /**
   * The adoption task: `follower` waits on `thenable` by registering the two
   * adoption closures with `thenable.then`, or by scheduling the matching one
   * when `thenable` is already settled; `follower` itself is not touched.
   */
  lemma AdoptionRegisters(w: World, follower: Id, thenable: Id)
    requires w.WellFormed() && follower < |w.promises| && thenable < |w.promises| && follower != thenable
    ensures var r := w.Run(AdoptTask(follower, thenable));
      var d := |w.promises|;
      var pr := w.promises[thenable];
      && r.promises[follower] == w.promises[follower]
      && (pr.promiseState == Pending ==>
            && r.queue == w.queue
            && r.promises[thenable].fulfillReactions == Some(pr.fulfillReactions.value + [FulfilledTask(thenable, Some(ResolveInto(follower)), d)])
            && r.promises[thenable].rejectReactions == Some(pr.rejectReactions.value + [RejectedTask(thenable, Some(RejectInto(follower)), d)]))
      && (pr.promiseState == Fulfilled ==> r.queue == w.queue + [FulfilledTask(thenable, Some(ResolveInto(follower)), d)])
      && (pr.promiseState == Rejected ==> r.queue == w.queue + [RejectedTask(thenable, Some(RejectInto(follower)), d)])
  {
  }

  /**
   * Adoption follows fulfilment: when the adopted promise `src` is fulfilled
   * with a value that is not thenable, the follower is fulfilled with that
   * value and its own reactions are scheduled; when the value is itself
   * thenable, the follower adopts it in turn and stays pending.
   */
  lemma AdoptionFollowsFulfilment(w: World, src: Id, follower: Id, d: Id)
    requires w.WellFormed() && src < |w.promises| && follower < |w.promises| && d < |w.promises|
    requires w.promises[src].promiseState == Fulfilled
    requires w.promises[follower].promiseState == Pending && w.promises[follower].alreadyResolved
    requires d != follower
    ensures var r := w.Run(FulfilledTask(src, Some(ResolveInto(follower)), d));
      var v := w.promises[src].promiseResult;
      && (!w.IsThenable(v) ==>
            && r.promises[follower] == Promise(Fulfilled, v, None, None, true)
            && r.queue[..|w.queue| + |w.promises[follower].fulfillReactions.value|]
               == w.queue + w.promises[follower].fulfillReactions.value)
      && (w.IsThenable(v) ==>
            && r.promises[follower] == w.promises[follower]
            && r.queue[..|w.queue| + 1] == w.queue + [AdoptTask(follower, v.id)])
  {
    var v := w.promises[src].promiseResult;
    var w1 := w.DoResolve(follower, v);
    var r := w1.Resolve(d, Undefined).0;
    assert r.queue[..|w1.queue|] == w1.queue;
  }

  /**
   * Adoption follows rejection, without flattening: the follower is rejected
   * with the very error the adopted promise was rejected with, thenable or not.
   */
  lemma AdoptionFollowsRejection(w: World, src: Id, follower: Id, d: Id)
    requires w.WellFormed() && src < |w.promises| && follower < |w.promises| && d < |w.promises|
    requires w.promises[src].promiseState == Rejected
    requires w.promises[follower].promiseState == Pending && w.promises[follower].alreadyResolved
    requires d != follower
    ensures var r := w.Run(RejectedTask(src, Some(RejectInto(follower)), d));
      var e := w.promises[src].promiseResult;
      && r.promises[follower] == Promise(Rejected, e, None, None, true)
      && r.queue[..|w.queue| + |w.promises[follower].rejectReactions.value|]
         == w.queue + w.promises[follower].rejectReactions.value
  {
    var e := w.promises[src].promiseResult;
    var w1 := w.DoReject(follower, e);
    var r := w1.Resolve(d, Undefined).0;
    assert r.queue[..|w1.queue|] == w1.queue;
  }

  /**
   * The derived promise `d` of `then` on `src` is settled by the source's
   * rules: resolved with what `onFulfilled` returns, or with the source's
   * result when there is none; resolved (not rejected) with what
   * `onRejected` returns, or rejected with the source's error when there is
   * none. "Resolved" is `resolve`, so a thenable outcome is adopted in turn.
   */
  lemma DerivedPromiseRules(w: World, src: Id, d: Id, f: Value -> Value)
    requires w.WellFormed() && src < |w.promises| && d < |w.promises|
    ensures var v := w.promises[src].promiseResult;
      && w.Run(FulfilledTask(src, Some(Call(f)), d)) == w.Resolve(d, f(v)).0
      && w.Run(FulfilledTask(src, None, d)) == w.Resolve(d, v).0
      && w.Run(RejectedTask(src, Some(Call(f)), d)) == w.Resolve(d, f(v)).0
      && w.Run(RejectedTask(src, None, d)) == w.Reject(d, v).0
  {
  }

  /** The promise objects and the task queue of a running program. */
  class Runtime {
    var promises: seq<Promise>
    var queue: seq<Task>

    function Model(): World
      reads this
    {
      World(promises, queue)
    }

    constructor ()
      ensures Model() == EMPTY
    {
      promises, queue := [], [];
    }

    /** `new FlattenedChainingPromise()`. */
    method Create() returns (p: Id)
      modifies this
      ensures p == old(|promises|) && Model() == old(Model()).Create()
    {
      p := |promises|;
      promises := promises + [Promise(Pending, Undefined, Some([]), Some([]), false)];
    }

    /** `addToTaskQueue(task)`: schedules the task after everything already scheduled. */
    method AddToTaskQueue(task: Task)
      modifies this
      ensures queue == old(queue) + [task] && promises == old(promises)
    {
      queue := queue + [task];
    }

    /** `_clearAndEnqueueReactions(reactions)`. */
    method ClearAndEnqueueReactions(p: Id, reactions: seq<Task>)
      requires p < |promises|
      modifies this
      ensures Model() == old(Model()).ClearAndEnqueueReactions(p, reactions)
    {
      promises := promises[p := promises[p].(fulfillReactions := None, rejectReactions := None)];
      var i := 0;
      while i < |reactions|
        invariant 0 <= i <= |reactions|
        invariant promises == old(promises)[p := old(promises)[p].(fulfillReactions := None, rejectReactions := None)]
        invariant queue == old(queue) + reactions[..i]
      {
        AddToTaskQueue(reactions[i]);
        i := i + 1;
      }
      assert reactions[..i] == reactions;
    }

    /** `then(onFulfilled, onRejected)`: returns the derived promise. */
    method Then(p: Id, onFulfilled: Option<Handler>, onRejected: Option<Handler>) returns (d: Id)
      requires Model().WellFormed() && p < |promises|
      requires HandlerOk(onFulfilled, |promises|) && HandlerOk(onRejected, |promises|)
      modifies this
      ensures (Model(), d) == old(Model()).Then(p, onFulfilled, onRejected)
    {
      d := Create();
      var fulfilledTask := FulfilledTask(p, onFulfilled, d);
      var rejectedTask := RejectedTask(p, onRejected, d);
      match promises[p].promiseState
      case Pending =>
        var pr := promises[p];
        promises := promises[p := pr.(
          fulfillReactions := Some(pr.fulfillReactions.value + [fulfilledTask]),
          rejectReactions := Some(pr.rejectReactions.value + [rejectedTask]))];
      case Fulfilled =>
        AddToTaskQueue(fulfilledTask);
      case Rejected =>
        AddToTaskQueue(rejectedTask);
    }

    /** `_doResolve(value)`: adopts a thenable, fulfils with anything else. */
    method DoResolve(p: Id, value: Value)
      requires Model().WellFormed() && p < |promises| && promises[p].alreadyResolved
      requires Model().IsThenable(value) || promises[p].promiseState == Pending
      modifies this
      ensures Model() == old(Model()).DoResolve(p, value)
    {
      if value.Ref? && value.id < |promises| {
        AddToTaskQueue(AdoptTask(p, value.id));
      } else {
        var reactions := promises[p].fulfillReactions.value;
        promises := promises[p := promises[p].(promiseState := Fulfilled, promiseResult := value)];
        ClearAndEnqueueReactions(p, reactions);
      }
    }

    /** `_doReject(error)`. */
    method DoReject(p: Id, error: Value)
      requires Model().WellFormed() && p < |promises| && promises[p].alreadyResolved
      requires promises[p].promiseState == Pending
      modifies this
      ensures Model() == old(Model()).DoReject(p, error)
    {
      var reactions := promises[p].rejectReactions.value;
      promises := promises[p := promises[p].(promiseState := Rejected, promiseResult := error)];
      ClearAndEnqueueReactions(p, reactions);
    }

    /** `resolve(value)`: returns the promise itself, or nothing when it was already locked. */
    method Resolve(p: Id, value: Value) returns (ret: Value)
      requires Model().WellFormed() && p < |promises|
      modifies this
      ensures (Model(), ret) == old(Model()).Resolve(p, value)
    {
      if promises[p].alreadyResolved {
        return Undefined;
      }
      promises := promises[p := promises[p].(alreadyResolved := true)];
      DoResolve(p, value);
      return Ref(p);
    }

    /** `reject(error)`: returns the promise itself, or nothing when it was already locked. */
    method Reject(p: Id, error: Value) returns (ret: Value)
      requires Model().WellFormed() && p < |promises|
      modifies this
      ensures (Model(), ret) == old(Model()).Reject(p, error)
    {
      if promises[p].alreadyResolved {
        return Undefined;
      }
      promises := promises[p := promises[p].(alreadyResolved := true)];
      DoReject(p, error);
      return Ref(p);
    }

    /** The host runs the task at the front of the queue. */
    method Step()
      requires Model().WellFormed() && (queue != [] ==> Ready(queue[0], promises))
      modifies this
      ensures Model() == old(Model()).Step()
    {
      if queue == [] {
        return;
      }
      var task := queue[0];
      assert task in queue;
      queue := queue[1..];
      match task
      case AdoptTask(follower, thenable) =>
        var _ := Then(thenable, Some(ResolveInto(follower)), Some(RejectInto(follower)));
      case FulfilledTask(src, onFulfilled, d) =>
        var result := promises[src].promiseResult;
        if onFulfilled.None? {
          var _ := Resolve(d, result);
        } else {
          var r := CallHandler(onFulfilled.value, result);
          var _ := Resolve(d, r);
        }
      case RejectedTask(src, onRejected, d) =>
        var result := promises[src].promiseResult;
        if onRejected.None? {
          var _ := Reject(d, result);
        } else {
          var r := CallHandler(onRejected.value, result);
          var _ := Resolve(d, r);
        }
    }

    /** Calls a handler: its side effect on the promises, and what it returns. */
    method CallHandler(h: Handler, v: Value) returns (r: Value)
      requires Model().WellFormed() && HandlerOk(Some(h), |promises|) && HandlerReady(Some(h), promises)
      modifies this
      ensures (Model(), r) == old(Model()).ApplyHandler(h, v)
    {
      match h
      case Call(f) =>
        r := f(v);
      case ResolveInto(t) =>
        DoResolve(t, v);
        r := Undefined;
      case RejectInto(t) =>
        DoReject(t, v);
        r := Undefined;
    }
  }
}
