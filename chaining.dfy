/**
 * The chaining promise (ChainingPromise): the stand-alone state machine,
 * whose `then` returns a fresh derived promise that is settled by what the
 * reaction produces. There is no flattening: `resolve` stores any value,
 * a promise included, as it is.
 *
 * Handlers are total functions on values (the source does not guard against
 * a handler that throws); an absent handler is None.
 */
module Chaining {
  import opened Common

  type Handler = Value -> Value

  /**
   * The two closures `then` builds. When the queue runs one, it reads the
   * `promiseResult` of `src` and settles the `derived` promise `then`
   * returned, as 2-promise-chaining.js lines 20-45 lay down.
   */
  datatype Task =
    | FulfilledTask(src: Id, handler: Option<Handler>, derived: Id)
    | RejectedTask(src: Id, handler: Option<Handler>, derived: Id)

  /** The fields of one promise object; a reaction list that has been set to `undefined` is None. */
  datatype Promise = Promise(
    promiseState: State,
    promiseResult: Value,
    fulfillReactions: Option<seq<Task>>,
    rejectReactions: Option<seq<Task>>)

  /** The promise the constructor builds. */
  const FRESH: Promise := Promise(Pending, Undefined, Some([]), Some([]))

  /** The task refers to promises that exist among the first `n`. */
  ghost predicate TaskOk(t: Task, n: nat)
  {
    t.src < n && t.derived < n
  }

  /** Every task of `ts` belongs to promise `p`, is of the given kind, and refers to existing promises. */
  ghost predicate Owned(ts: seq<Task>, p: Id, fulfilled: bool, n: nat)
  {
    forall t <- ts :: t.src == p && t.FulfilledTask? == fulfilled && t.derived < n
  }

  /** The reaction lists exist exactly while the promise is pending, and hold its own tasks. */
  ghost predicate RecordOk(pr: Promise, p: Id, n: nat)
  {
    && (pr.promiseState == Pending <==> pr.fulfillReactions.Some?)
    && (pr.promiseState == Pending <==> pr.rejectReactions.Some?)
    && (pr.fulfillReactions.Some? ==> Owned(pr.fulfillReactions.value, p, true, n))
    && (pr.rejectReactions.Some? ==> Owned(pr.rejectReactions.value, p, false, n))
  }

  /** The promises and the task queue of `addToTaskQueue`. */
  datatype World = World(promises: seq<Promise>, queue: seq<Task>)
  {
    ghost predicate Valid()
    {
      && (forall p | 0 <= p < |promises| :: RecordOk(promises[p], p, |promises|))
      && (forall t <- queue :: TaskOk(t, |promises|))
    }

    /** Promise `q` is settled in this world and has the same fields in `r`. */
    ghost predicate KeepsSettled(r: World)
    {
      && |promises| <= |r.promises|
      && forall q | 0 <= q < |promises| && promises[q].promiseState != Pending :: r.promises[q] == promises[q]
    }

    /** `new ChainingPromise()`: the new promise gets identity `|promises|`. */
    function Create(): (r: World)
      ensures |r.promises| == |promises| + 1 && r.promises[..|promises|] == promises
      ensures r.promises[|promises|] == Promise(Pending, Undefined, Some([]), Some([]))
      ensures r.queue == queue
      ensures Valid() ==> r.Valid()
    {
      this.(promises := promises + [FRESH])
    }

    /** `addToTaskQueue(task)`: the task goes to the back of the queue. */
    function AddToTaskQueue(task: Task): (r: World)
      ensures r.queue == queue + [task] && r.promises == promises
    {
      this.(queue := queue + [task])
    }

    /** `reactions.map(addToTaskQueue)`: one `addToTaskQueue` per reaction, front to back. */
    function EnqueueAll(reactions: seq<Task>): (r: World)
      ensures r.promises == promises && r.queue == queue + reactions
      decreases |reactions|
    {
      if reactions == [] then this
      else AddToTaskQueue(reactions[0]).EnqueueAll(reactions[1..])
    }

    /** `_clearAndEnqueueReactions(reactions)`: both lists become `undefined`, then the given ones are scheduled. */
    function ClearAndEnqueueReactions(p: Id, reactions: seq<Task>): (r: World)
      requires p < |promises|
      ensures |r.promises| == |promises|
      ensures forall q | 0 <= q < |promises| && q != p :: r.promises[q] == promises[q]
      ensures r.promises[p].promiseState == promises[p].promiseState
      ensures r.promises[p].promiseResult == promises[p].promiseResult
      ensures r.promises[p].fulfillReactions == None && r.promises[p].rejectReactions == None
      ensures r.queue == queue + reactions
    {
      this.(promises := promises[p := promises[p].(fulfillReactions := None, rejectReactions := None)])
        .EnqueueAll(reactions)
    }

    /**
     * `then(onFulfilled, onRejected)` on promise `p`: the derived promise is
     * created first, with identity `|promises|`, and returned.
     */
    function Then(p: Id, onFulfilled: Option<Handler>, onRejected: Option<Handler>): (r: (World, Id))
      requires Valid() && p < |promises|
      ensures var (w, d) := r;
        && w.Valid() && d == |promises| && |w.promises| == |promises| + 1
        && w.promises[d] == Promise(Pending, Undefined, Some([]), Some([]))
        && (forall q | 0 <= q < |promises| && q != p :: w.promises[q] == promises[q])
        && w.promises[p].promiseState == promises[p].promiseState
        && w.promises[p].promiseResult == promises[p].promiseResult
        && (promises[p].promiseState == Pending ==>
              && w.queue == queue
              && w.promises[p].fulfillReactions == Some(promises[p].fulfillReactions.value + [FulfilledTask(p, onFulfilled, d)])
              && w.promises[p].rejectReactions == Some(promises[p].rejectReactions.value + [RejectedTask(p, onRejected, d)]))
        && (promises[p].promiseState == Fulfilled ==>
              w.promises[p] == promises[p] && w.queue == queue + [FulfilledTask(p, onFulfilled, d)])
        && (promises[p].promiseState == Rejected ==>
              w.promises[p] == promises[p] && w.queue == queue + [RejectedTask(p, onRejected, d)])
    {
      var d := |promises|;
      var w := Create();
      var pr := w.promises[p];
      match pr.promiseState
      case Pending =>
        (w.(promises := w.promises[p := pr.(
          fulfillReactions := Some(pr.fulfillReactions.value + [FulfilledTask(p, onFulfilled, d)]),
          rejectReactions := Some(pr.rejectReactions.value + [RejectedTask(p, onRejected, d)]))]), d)
      case Fulfilled => (w.AddToTaskQueue(FulfilledTask(p, onFulfilled, d)), d)
      case Rejected => (w.AddToTaskQueue(RejectedTask(p, onRejected, d)), d)
    }

    /**
     * `resolve(value)` on promise `p`, with the value the call returns:
     * `Ref(p)` on the effective call, `Undefined` on an ignored one.
     */
    function Resolve(p: Id, value: Value): (r: (World, Value))
      requires Valid() && p < |promises|
      ensures r.0.Valid() && KeepsSettled(r.0)
      ensures promises[p].promiseState != Pending ==> r == (this, Undefined)
      ensures promises[p].promiseState == Pending ==>
        && r.1 == Ref(p)
        && r.0.promises == promises[p := Promise(Fulfilled, value, None, None)]
        && r.0.queue == queue + promises[p].fulfillReactions.value
    {
      if promises[p].promiseState != Pending then (this, Undefined)
      else
        var reactions := promises[p].fulfillReactions.value;
        var settled := this.(promises := promises[p := promises[p].(promiseState := Fulfilled, promiseResult := value)]);
        (settled.ClearAndEnqueueReactions(p, reactions), Ref(p))
    }

    /** `reject(error)` on promise `p`, with the value the call returns. */
    function Reject(p: Id, error: Value): (r: (World, Value))
      requires Valid() && p < |promises|
      ensures r.0.Valid() && KeepsSettled(r.0)
      ensures promises[p].promiseState != Pending ==> r == (this, Undefined)
      ensures promises[p].promiseState == Pending ==>
        && r.1 == Ref(p)
        && r.0.promises == promises[p := Promise(Rejected, error, None, None)]
        && r.0.queue == queue + promises[p].rejectReactions.value
    {
      if promises[p].promiseState != Pending then (this, Undefined)
      else
        var reactions := promises[p].rejectReactions.value;
        var settled := this.(promises := promises[p := promises[p].(promiseState := Rejected, promiseResult := error)]);
        (settled.ClearAndEnqueueReactions(p, reactions), Ref(p))
    }

    /**
     * What running `task` does to the derived promise: no other promise
     * changes, and reactions are only scheduled after what is queued.
     */
    function Run(task: Task): (r: World)
      requires Valid() && TaskOk(task, |promises|)
      ensures r.Valid() && KeepsSettled(r) && |r.promises| == |promises|
      ensures forall q | 0 <= q < |promises| && q != task.derived :: r.promises[q] == promises[q]
      ensures |r.queue| >= |queue| && r.queue[..|queue|] == queue
    {
      match task
      case FulfilledTask(src, onFulfilled, d) =>
        var v := promises[src].promiseResult;
        Resolve(d, if onFulfilled.Some? then onFulfilled.value(v) else v).0
      case RejectedTask(src, onRejected, d) =>
        var e := promises[src].promiseResult;
        if onRejected.Some? then Resolve(d, onRejected.value(e)).0 else Reject(d, e).0
    }

    /**
     * The host runs the task at the front of the queue: the tasks behind it
     * keep their order, ahead of the reactions it schedules, and only its
     * derived promise changes. A settled promise is never changed again: its
     * state, result and (cleared) lists stay as they are.
     */
    function Step(): (r: World)
      requires Valid()
      ensures r.Valid() && KeepsSettled(r) && |r.promises| == |promises|
      ensures queue == [] ==> r == this
      ensures queue != [] ==> |r.queue| >= |queue| - 1 && r.queue[..|queue| - 1] == queue[1..]
      ensures queue != [] ==> forall q | 0 <= q < |promises| && q != queue[0].derived :: r.promises[q] == promises[q]
    {
      if queue == [] then this
      else
        assert queue[0] in queue;
        this.(queue := queue[1..]).Run(queue[0])
    }

    /** What is left to run: the queued tasks and the reactions registered on pending promises. */
    function Work(): nat
    {
      |queue| + Registered(promises)
    }

    /**
     * The host runs tasks until the queue is empty. This terminates: each
     * step takes one task off and moves at most the reactions of one pending
     * promise, which that promise drops, onto the queue.
     */
    function Drain(): (r: World)
      requires Valid()
      ensures r.Valid() && KeepsSettled(r) && r.queue == []
      decreases Work()
    {
      if queue == [] then this
      else
        StepShrinksWork(this);
        Step().Drain()
    }
  }

  /** The world in which a program starts: no promises, nothing scheduled. */
  const EMPTY: World := World([], [])

  /** The number of reactions a list holds; an `undefined` list holds none. */
  function Length(l: Option<seq<Task>>): nat
  {
    if l.Some? then |l.value| else 0
  }

  /** The number of reactions registered on the promises of `ps`. */
  function Registered(ps: seq<Promise>): nat
    decreases |ps|
  {
    if ps == [] then 0
    else Registered(ps[..|ps| - 1]) + Length(ps[|ps| - 1].fulfillReactions) + Length(ps[|ps| - 1].rejectReactions)
  }

  /** Replacing one promise changes the count by the difference of their lists. */
  lemma {:induction false} RegisteredUpdate(ps: seq<Promise>, i: nat, pr: Promise)
    requires i < |ps|
    ensures Registered(ps[i := pr]) + Length(ps[i].fulfillReactions) + Length(ps[i].rejectReactions)
         == Registered(ps) + Length(pr.fulfillReactions) + Length(pr.rejectReactions)
    decreases |ps|
  {
    var n := |ps|;
    if i < n - 1 {
      assert ps[i := pr][..n - 1] == ps[..n - 1][i := pr];
      RegisteredUpdate(ps[..n - 1], i, pr);
    } else {
      assert ps[i := pr][..n - 1] == ps[..n - 1];
    }
  }

  /** Each step of the host leaves strictly less to run. */
  lemma StepShrinksWork(w: World)
    requires w.Valid() && w.queue != []
    ensures w.Step().Work() < w.Work()
  {
    var t := w.queue[0];
    var d := t.derived;
    assert t in w.queue;
    var pr := w.promises[d];
    if pr.promiseState == Pending {
      var r := w.Step();
      assert r.promises[d].fulfillReactions == None && r.promises[d].rejectReactions == None;
      assert r.promises == w.promises[d := r.promises[d]];
      RegisteredUpdate(w.promises, d, r.promises[d]);
    }
  }

  /**
   * A step of the host is the run of the front task on the rest of the queue.
   * This only unfolds `Step`; it is the link from `Step` to the lemmas about `Run`.
   */
  lemma StepRunsFront(w: World)
    requires w.Valid() && w.queue != []
    ensures w.queue[0] in w.queue
    ensures w.Step() == w.(queue := w.queue[1..]).Run(w.queue[0])
  {
  }

  /** One thing a program can do: a public call on an existing promise, or the host running a task. */
  datatype Op =
    | CreateOp
    | ThenOp(p: Id, onFulfilled: Option<Handler>, onRejected: Option<Handler>)
    | ResolveOp(p: Id, value: Value)
    | RejectOp(p: Id, error: Value)
    | StepOp

  /** The effect of one operation; an operation naming no existing promise is not a program and does nothing. */
  function Apply(w: World, op: Op): (r: World)
    requires w.Valid()
    ensures r.Valid() && w.KeepsSettled(r)
  {
    match op
    case CreateOp => w.Create()
    case ThenOp(p, f, g) => if p < |w.promises| then w.Then(p, f, g).0 else w
    case ResolveOp(p, v) => if p < |w.promises| then w.Resolve(p, v).0 else w
    case RejectOp(p, e) => if p < |w.promises| then w.Reject(p, e).0 else w
    case StepOp => w.Step()
  }

  /** The effect of a whole program. */
  function Execute(w: World, ops: seq<Op>): (r: World)
    requires w.Valid()
    ensures r.Valid()
    decreases |ops|
  {
    if ops == [] then w else Execute(Apply(w, ops[0]), ops[1..])
  }

  /**
   * Settle-once over whole programs: whatever calls and task runs follow,
   * a settled promise keeps its state and its result (and its lists stay
   * cleared), so the first settlement wins for good.
   */
  lemma {:induction false} SettledStaysSettled(w: World, ops: seq<Op>)
    requires w.Valid()
    ensures w.KeepsSettled(Execute(w, ops))
    decreases |ops|
  {
    if ops != [] {
      SettledStaysSettled(Apply(w, ops[0]), ops[1..]);
    }
  }

  /** Pass-through: with no onFulfilled, the derived promise is resolved with the source's result. */
  lemma PassThrough(w: World, src: Id, d: Id)
    requires w.Valid() && src < |w.promises| && d < |w.promises| && src != d
    requires w.promises[src].promiseState == Fulfilled && w.promises[d].promiseState == Pending
    ensures var r := w.Run(FulfilledTask(src, None, d));
      && r.promises[d] == Promise(Fulfilled, w.promises[src].promiseResult, None, None)
      && r.queue == w.queue + w.promises[d].fulfillReactions.value
  {
  }

  /** With onFulfilled, the derived promise is resolved with what it returns for the source's result. */
  lemma FulfilledHandlerResult(w: World, src: Id, f: Handler, d: Id)
    requires w.Valid() && src < |w.promises| && d < |w.promises| && src != d
    requires w.promises[src].promiseState == Fulfilled && w.promises[d].promiseState == Pending
    ensures var r := w.Run(FulfilledTask(src, Some(f), d));
      && r.promises[d] == Promise(Fulfilled, f(w.promises[src].promiseResult), None, None)
      && r.queue == w.queue + w.promises[d].fulfillReactions.value
  {
  }

  /** Recovery: with onRejected, the derived promise is resolved (not rejected) with what it returns. */
  lemma Recovery(w: World, src: Id, g: Handler, d: Id)
    requires w.Valid() && src < |w.promises| && d < |w.promises| && src != d
    requires w.promises[src].promiseState == Rejected && w.promises[d].promiseState == Pending
    ensures var r := w.Run(RejectedTask(src, Some(g), d));
      && r.promises[d] == Promise(Fulfilled, g(w.promises[src].promiseResult), None, None)
      && r.queue == w.queue + w.promises[d].fulfillReactions.value
  {
  }

  /** Propagation: with no onRejected, the derived promise is rejected with the source's error. */
  lemma Propagation(w: World, src: Id, d: Id)
    requires w.Valid() && src < |w.promises| && d < |w.promises| && src != d
    requires w.promises[src].promiseState == Rejected && w.promises[d].promiseState == Pending
    ensures var r := w.Run(RejectedTask(src, None, d));
      && r.promises[d] == Promise(Rejected, w.promises[src].promiseResult, None, None)
      && r.queue == w.queue + w.promises[d].rejectReactions.value
  {
  }

  /** No flattening: resolving with a promise, even a pending one, stores the reference itself. */
  lemma NoFlattening(w: World, p: Id, q: Id)
    requires w.Valid() && p < |w.promises| && q < |w.promises|
    requires w.promises[p].promiseState == Pending
    ensures w.Resolve(p, Ref(q)).0.promises[p] == Promise(Fulfilled, Ref(q), None, None)
  {
  }

  /** `x => x` */
  function Identity(x: Value): Value { x }

  /**
   * `e => e + "!"`, for string errors only: JS would also turn any other
   * value into a string first, which is not modelled; other values are
   * returned unchanged.
   */
  function Exclaim(e: Value): Value
  {
    if e.Str? then Str(e.s + "!") else e
  }

  /** The states of the pass-through run: after the two `then` calls, and after each of the two steps. */
  const PT0: World := World(
    [Promise(Fulfilled, Num(5), None, None),
     Promise(Pending, Undefined, Some([FulfilledTask(1, Some(Identity), 2)]), Some([RejectedTask(1, None, 2)])),
     FRESH],
    [FulfilledTask(0, None, 1)])
  const PT1: World := World(
    [Promise(Fulfilled, Num(5), None, None), Promise(Fulfilled, Num(5), None, None), FRESH],
    [FulfilledTask(1, Some(Identity), 2)])
  const PT2: World := World(
    [Promise(Fulfilled, Num(5), None, None), Promise(Fulfilled, Num(5), None, None), Promise(Fulfilled, Num(5), None, None)],
    [])

  /** The source promise, fulfilled with 5, and the world after the first `then`. */
  const P0: World := World([Promise(Fulfilled, Num(5), None, None)], [])
  const P1: World := World([Promise(Fulfilled, Num(5), None, None), FRESH], [FulfilledTask(0, None, 1)])

  lemma PassThroughResolve()
    ensures EMPTY.Create().Resolve(0, Num(5)).0 == P0
  {
  }

  lemma PassThroughFirstThen()
    requires P0.Valid()
    ensures P0.Then(0, None, None) == (P1, 1)
  {
    assert P0.promises + [FRESH] == P1.promises;
    assert [] + [FulfilledTask(0, None, 1)] == P1.queue;
  }

  lemma PassThroughSecondThen()
    requires P1.Valid()
    ensures P1.Then(1, Some(Identity), None) == (PT0, 2)
  {
    assert P1.promises[1].fulfillReactions.value == [] && P1.promises[1].rejectReactions.value == [];
    assert [] + [FulfilledTask(1, Some(Identity), 2)] == [FulfilledTask(1, Some(Identity), 2)];
    assert [] + [RejectedTask(1, None, 2)] == [RejectedTask(1, None, 2)];
    var r := P1.Then(1, Some(Identity), None).0;
    assert r.promises == PT0.promises;
  }

  lemma PassThroughStart()
    ensures var w0 := EMPTY.Create().Resolve(0, Num(5)).0;
      var (w1, d1) := w0.Then(0, None, None);
      var (w2, d2) := w1.Then(d1, Some(Identity), None);
      d1 == 1 && d2 == 2 && w2 == PT0
  {
    PassThroughResolve();
    PassThroughFirstThen();
    PassThroughSecondThen();
  }

  lemma PassThroughSteps()
    requires PT0.Valid()
    ensures PT0.Step() == PT1 && PT1.Step() == PT2
  {
  }

  /**
   * `f.then().then(x => x)` on a promise fulfilled with 5: the first task
   * passes 5 through to the first derived promise, whose reaction is then
   * scheduled; after the second task the second derived promise is
   * fulfilled with 5.
   */
  lemma PassThroughScenario()
    ensures var w0 := EMPTY.Create().Resolve(0, Num(5)).0;
      var (w1, d1) := w0.Then(0, None, None);
      var (w2, d2) := w1.Then(d1, Some(Identity), None);
      && w2 == PT0 && PT0.Step() == PT1 && PT1.Step() == PT2
      && d2 == 2 && PT2.promises[d2].promiseState == Fulfilled && PT2.promises[d2].promiseResult == Num(5)
  {
    PassThroughStart();
    PassThroughSteps();
  }

  /**
   * A promise rejected with "err", chained with `then(undefined, e => e + "!")`:
   * after one task run the derived promise is fulfilled (not rejected) with "err!".
   */
  lemma RecoveryScenario()
    ensures var w0 := EMPTY.Create().Reject(0, Str("err")).0;
      var (w1, d) := w0.Then(0, None, Some(Exclaim));
      var r := w1.Step();
      r.promises[d].promiseState == Fulfilled && r.promises[d].promiseResult == Str("err!")
  {
    var w0 := EMPTY.Create().Reject(0, Str("err")).0;
    var (w1, d) := w0.Then(0, None, Some(Exclaim));
    assert w1.queue == [RejectedTask(0, Some(Exclaim), 1)];
  }

  /**
   * The host of the promise objects: their fields and the task queue of
   * `addToTaskQueue`. Each method is the operation of the same name on the
   * promise with identity `p`.
   */
  class Runtime {
    var promises: seq<Promise>
    var queue: seq<Task>

    function Model(): World
      reads this
    {
      World(promises, queue)
    }

    constructor ()
      ensures Model() == EMPTY
    {
      promises, queue := [], [];
    }

    /** `new ChainingPromise()`. */
    method Create() returns (p: Id)
      modifies this
      ensures p == old(|promises|) && Model() == old(Model()).Create()
    {
      p := |promises|;
      promises := promises + [Promise(Pending, Undefined, Some([]), Some([]))];
    }

    /** `addToTaskQueue(task)`: schedules the task after everything already scheduled. */
    method AddToTaskQueue(task: Task)
      modifies this
      ensures queue == old(queue) + [task] && promises == old(promises)
    {
      queue := queue + [task];
    }

    /** `_clearAndEnqueueReactions(reactions)`. */
    method ClearAndEnqueueReactions(p: Id, reactions: seq<Task>)
      requires p < |promises|
      modifies this
      ensures Model() == old(Model()).ClearAndEnqueueReactions(p, reactions)
    {
      promises := promises[p := promises[p].(fulfillReactions := None, rejectReactions := None)];
      var i := 0;
      while i < |reactions|
        invariant 0 <= i <= |reactions|
        invariant promises == old(promises)[p := old(promises)[p].(fulfillReactions := None, rejectReactions := None)]
        invariant queue == old(queue) + reactions[..i]
      {
        AddToTaskQueue(reactions[i]);
        i := i + 1;
      }
      assert reactions[..i] == reactions;
    }

    /** `then(onFulfilled, onRejected)`: returns the derived promise. */
    method Then(p: Id, onFulfilled: Option<Handler>, onRejected: Option<Handler>) returns (d: Id)
      requires Model().Valid() && p < |promises|
      modifies this
      ensures (Model(), d) == old(Model()).Then(p, onFulfilled, onRejected)
    {
      d := Create();
      var fulfilledTask := FulfilledTask(p, onFulfilled, d);
      var rejectedTask := RejectedTask(p, onRejected, d);
      match promises[p].promiseState
      case Pending =>
        var pr := promises[p];
        promises := promises[p := pr.(
          fulfillReactions := Some(pr.fulfillReactions.value + [fulfilledTask]),
          rejectReactions := Some(pr.rejectReactions.value + [rejectedTask]))];
      case Fulfilled =>
        AddToTaskQueue(fulfilledTask);
      case Rejected =>
        AddToTaskQueue(rejectedTask);
    }

    /** `resolve(value)`: returns the promise itself, or nothing when it was already settled. */
    method Resolve(p: Id, value: Value) returns (ret: Value)
      requires Model().Valid() && p < |promises|
      modifies this
      ensures (Model(), ret) == old(Model()).Resolve(p, value)
    {
      if promises[p].promiseState != Pending {
        return Undefined;
      }
      var reactions := promises[p].fulfillReactions.value;
      promises := promises[p := promises[p].(promiseState := Fulfilled, promiseResult := value)];
      ClearAndEnqueueReactions(p, reactions);
      return Ref(p);
    }

    /** `reject(error)`: returns the promise itself, or nothing when it was already settled. */
    method Reject(p: Id, error: Value) returns (ret: Value)
      requires Model().Valid() && p < |promises|
      modifies this
      ensures (Model(), ret) == old(Model()).Reject(p, error)
    {
      if promises[p].promiseState != Pending {
        return Undefined;
      }
      var reactions := promises[p].rejectReactions.value;
      promises := promises[p := promises[p].(promiseState := Rejected, promiseResult := error)];
      ClearAndEnqueueReactions(p, reactions);
      return Ref(p);
    }

    /** The host runs the task at the front of the queue, which settles its derived promise. */
    method Step()
      requires Model().Valid()
      modifies this
      ensures Model() == old(Model()).Step()
    {
      if queue == [] {
        return;
      }
      var task := queue[0];
      assert task in queue && forall t <- queue[1..] :: t in queue;
      queue := queue[1..];
      var result := promises[task.src].promiseResult;
      match task
      case FulfilledTask(_, onFulfilled, d) =>
        var r := if onFulfilled.Some? then onFulfilled.value(result) else result;
        var _ := Resolve(d, r);
      case RejectedTask(_, onRejected, d) =>
        if onRejected.Some? {
          var r := onRejected.value(result);
          var _ := Resolve(d, r);
        } else {
          var _ := Reject(d, result);
        }
    }
  }
}
