/**
 * Why `_doResolve` and `_doReject` never meet a settled promise in the
 * flattening tier. `_doResolve` with a plain value and `_doReject` read the
 * reaction lists, which are `undefined` once the promise is settled; they
 * are reached from `resolve`/`reject` right after the lock is taken, and
 * from the two adoption closures. The argument is a count: a promise that is
 * locked and still pending owns exactly one adoption "token", which is
 * either its adoption task in the queue or the pair of adoption closures
 * parked on (or scheduled from) the promise it waits on; every other promise
 * owns none. An adoption closure therefore only ever runs for a promise that
 * is still waiting, and it consumes the token when it settles the promise.
 */
module FlattenedInvariant {
  import opened Common
  import opened Flattened

  /** How many tasks of `ts` belong to the adoption of promise `t`. */
  function Count(ts: seq<Task>, t: Id): nat
    decreases |ts|
  {
    if ts == [] then 0
    else (if Target(ts[0]) == Some(t) then 1 else 0) + Count(ts[1..], t)
  }

  /** Adoption tasks for `t` parked on the fulfil list of one promise (its reject list holds their partners). */
  function ParkedIn(pr: Promise, t: Id): nat
  {
    if pr.fulfillReactions.Some? then Count(pr.fulfillReactions.value, t) else 0
  }

  /** Adoption tasks for `t` parked on any promise. */
  function Parked(ps: seq<Promise>, t: Id): nat
    decreases |ps|
  {
    if ps == [] then 0 else ParkedIn(ps[0], t) + Parked(ps[1..], t)
  }

  /** The adoption tokens of promise `t`: scheduled, or parked. */
  function Tokens(w: World, t: Id): nat
  {
    Count(w.queue, t) + Parked(w.promises, t)
  }

  /** A promise waits for adoption when it is locked and still pending. */
  predicate Waiting(w: World, t: Id)
  {
    t < |w.promises| && w.promises[t].alreadyResolved && w.promises[t].promiseState == Pending
  }

  /** The two reaction lists of a pending promise were pushed by the same `then` calls, pairwise. */
  ghost predicate Paired(pr: Promise)
  {
    pr.fulfillReactions.Some? && pr.rejectReactions.Some? ==>
      && |pr.fulfillReactions.value| == |pr.rejectReactions.value|
      && forall i | 0 <= i < |pr.fulfillReactions.value| ::
           Target(pr.fulfillReactions.value[i]) == Target(pr.rejectReactions.value[i])
  }

  /** The invariant of every state a program can reach. */
  ghost predicate Inv(w: World)
  {
    && w.WellFormed()
    && (forall p | 0 <= p < |w.promises| :: Paired(w.promises[p]))
    && (forall t: Id :: Tokens(w, t) == (if Waiting(w, t) then 1 else 0))
  }

  // ---- Counting lemmas -----------------------------------------------------

  lemma {:induction false} CountAppend(a: seq<Task>, b: seq<Task>, t: Id)
    ensures Count(a + b, t) == Count(a, t) + Count(b, t)
    decreases |a|
  {
    if a == [] {
      assert a + b == b;
    } else {
      assert (a + b)[0] == a[0];
      assert (a + b)[1..] == a[1..] + b;
      CountAppend(a[1..], b, t);
    }
  }

  lemma {:induction false} CountPaired(f: seq<Task>, r: seq<Task>, t: Id)
    requires |f| == |r| && forall i | 0 <= i < |f| :: Target(f[i]) == Target(r[i])
    ensures Count(f, t) == Count(r, t)
    decreases |f|
  {
    if f != [] {
      assert Target(f[0]) == Target(r[0]);
      assert forall i | 0 <= i < |f[1..]| :: f[1..][i] == f[i + 1] && r[1..][i] == r[i + 1];
      CountPaired(f[1..], r[1..], t);
    }
  }

  lemma {:induction false} ParkedUpdate(ps: seq<Promise>, i: nat, x: Promise, t: Id)
    requires i < |ps|
    ensures Parked(ps[i := x], t) + ParkedIn(ps[i], t) == Parked(ps, t) + ParkedIn(x, t)
    decreases i
  {
    if i == 0 {
      assert ps[i := x][1..] == ps[1..];
    } else {
      assert ps[i := x][0] == ps[0];
      assert ps[i := x][1..] == ps[1..][i - 1 := x];
      ParkedUpdate(ps[1..], i - 1, x, t);
    }
  }

  lemma {:induction false} ParkedAppend(ps: seq<Promise>, x: Promise, t: Id)
    ensures Parked(ps + [x], t) == Parked(ps, t) + ParkedIn(x, t)
    decreases |ps|
  {
    if ps == [] {
      assert ([] + [x])[1..] == [];
    } else {
      assert (ps + [x])[0] == ps[0];
      assert (ps + [x])[1..] == ps[1..] + [x];
      ParkedAppend(ps[1..], x, t);
    }
  }

  // ---- How each operation moves the tokens -------------------------------

  lemma CreateTokens(w: World, t: Id)
    ensures Tokens(w.Create(), t) == Tokens(w, t)
  {
    ParkedAppend(w.promises, FRESH, t);
  }

  lemma EnqueueTokens(w: World, task: Task, t: Id)
    ensures Tokens(w.AddToTaskQueue(task), t) == Tokens(w, t) + (if Target(task) == Some(t) then 1 else 0)
  {
    CountAppend(w.queue, [task], t);
  }

  /** Running `then` adds a token for the promise its handlers settle, if any. */
  lemma ThenTokens(w: World, p: Id, onFulfilled: Option<Handler>, onRejected: Option<Handler>, t: Id)
    requires w.WellFormed() && p < |w.promises|
    requires HandlerOk(onFulfilled, |w.promises|) && HandlerOk(onRejected, |w.promises|)
    requires HandlerTarget(onFulfilled) == HandlerTarget(onRejected)
    ensures Tokens(w.Then(p, onFulfilled, onRejected).0, t)
         == Tokens(w, t) + (if HandlerTarget(onFulfilled) == Some(t) then 1 else 0)
  {
    var d := |w.promises|;
    var w1 := w.Create();
    CreateTokens(w, t);
    var pr := w1.promises[p];
    match pr.promiseState
    case Pending =>
      var f := pr.fulfillReactions.value;
      var pr' := pr.(
        fulfillReactions := Some(f + [FulfilledTask(p, onFulfilled, d)]),
        rejectReactions := Some(pr.rejectReactions.value + [RejectedTask(p, onRejected, d)]));
      ParkedUpdate(w1.promises, p, pr', t);
      CountAppend(f, [FulfilledTask(p, onFulfilled, d)], t);
    case Fulfilled =>
      EnqueueTokens(w1, FulfilledTask(p, onFulfilled, d), t);
    case Rejected =>
      EnqueueTokens(w1, RejectedTask(p, onRejected, d), t);
  }

  lemma LockTokens(w: World, p: Id, t: Id)
    requires w.WellFormed() && p < |w.promises|
    ensures Tokens(w.Lock(p), t) == Tokens(w, t)
  {
    ParkedUpdate(w.promises, p, w.promises[p].(alreadyResolved := true), t);
  }

  /** Adopting a thenable adds a token for `p`; fulfilling `p` moves its parked tokens to the queue. */
  lemma DoResolveTokens(w: World, p: Id, value: Value, t: Id)
    requires w.WellFormed() && p < |w.promises| && w.promises[p].alreadyResolved
    requires w.IsThenable(value) || w.promises[p].promiseState == Pending
    ensures Tokens(w.DoResolve(p, value), t)
         == Tokens(w, t) + (if w.IsThenable(value) && p == t then 1 else 0)
  {
    if w.IsThenable(value) {
      EnqueueTokens(w, AdoptTask(p, value.id), t);
    } else {
      ParkedUpdate(w.promises, p, Promise(Fulfilled, value, None, None, true), t);
      CountAppend(w.queue, w.promises[p].fulfillReactions.value, t);
    }
  }

  /** Rejecting `p` moves its parked tokens to the queue, as the partners on its reject list. */
  lemma DoRejectTokens(w: World, p: Id, error: Value, t: Id)
    requires w.WellFormed() && p < |w.promises| && w.promises[p].alreadyResolved
    requires w.promises[p].promiseState == Pending && Paired(w.promises[p])
    ensures Tokens(w.DoReject(p, error), t) == Tokens(w, t)
  {
    ParkedUpdate(w.promises, p, Promise(Rejected, error, None, None, true), t);
    CountAppend(w.queue, w.promises[p].rejectReactions.value, t);
    CountPaired(w.promises[p].fulfillReactions.value, w.promises[p].rejectReactions.value, t);
  }

  // ---- The invariant is preserved ----------------------------------------

  /** The program starts in a state that satisfies the invariant. */
  lemma InitialInv()
    ensures Inv(EMPTY)
  {
    forall t: Id
      ensures Tokens(EMPTY, t) == 0
    {
    }
  }

  /** `new FlattenedChainingPromise()` keeps the invariant. */
  lemma CreatePreservesInv(w: World)
    requires Inv(w)
    ensures Inv(w.Create())
  {
    var r := w.Create();
    forall t: Id
      ensures Tokens(r, t) == (if Waiting(r, t) then 1 else 0)
    {
      CreateTokens(w, t);
      assert Waiting(r, t) == Waiting(w, t);
    }
  }

  /** `then` with handlers whose targets agree keeps the reaction lists paired. */
  lemma ThenPaired(w: World, p: Id, onFulfilled: Option<Handler>, onRejected: Option<Handler>)
    requires w.WellFormed() && p < |w.promises| && Paired(w.promises[p])
    requires HandlerOk(onFulfilled, |w.promises|) && HandlerOk(onRejected, |w.promises|)
    requires HandlerTarget(onFulfilled) == HandlerTarget(onRejected)
    ensures forall q | 0 <= q < |w.promises| + 1 && (q < |w.promises| ==> Paired(w.promises[q])) ::
      Paired(w.Then(p, onFulfilled, onRejected).0.promises[q])
  {
    var (r, d) := w.Then(p, onFulfilled, onRejected);
    var pr := w.promises[p];
    if pr.promiseState == Pending {
      var f := pr.fulfillReactions.value;
      var g := pr.rejectReactions.value;
      var f' := r.promises[p].fulfillReactions.value;
      var g' := r.promises[p].rejectReactions.value;
      assert f' == f + [FulfilledTask(p, onFulfilled, d)] && g' == g + [RejectedTask(p, onRejected, d)];
      assert forall i | 0 <= i < |f'| :: Target(f'[i]) == Target(g'[i]) by {
        forall i | 0 <= i < |f'|
          ensures Target(f'[i]) == Target(g'[i])
        {
          if i < |f| {
            assert f'[i] == f[i] && g'[i] == g[i];
          }
        }
      }
    }
  }

  /** The user's `then` keeps the invariant: its handlers settle no other promise. */
  lemma ThenPreservesInv(w: World, p: Id, onFulfilled: Option<Value -> Value>, onRejected: Option<Value -> Value>)
    requires Inv(w) && p < |w.promises|
    ensures Inv(w.Then(p, Lift(onFulfilled), Lift(onRejected)).0)
  {
    var r := w.Then(p, Lift(onFulfilled), Lift(onRejected)).0;
    ThenPaired(w, p, Lift(onFulfilled), Lift(onRejected));
    forall t: Id
      ensures Tokens(r, t) == (if Waiting(r, t) then 1 else 0)
    {
      ThenTokens(w, p, Lift(onFulfilled), Lift(onRejected), t);
      assert Waiting(r, t) == Waiting(w, t);
    }
  }

  /** `resolve` keeps the invariant: adopting a thenable hands the newly locked promise its token. */
  lemma ResolvePreservesInv(w: World, p: Id, value: Value)
    requires Inv(w) && p < |w.promises|
    ensures Inv(w.Resolve(p, value).0)
  {
    if !w.promises[p].alreadyResolved {
      var w1 := w.Lock(p);
      var r := w1.DoResolve(p, value);
      assert r == w.Resolve(p, value).0;
      forall t: Id
        ensures Tokens(r, t) == (if Waiting(r, t) then 1 else 0)
      {
        LockTokens(w, p, t);
        DoResolveTokens(w1, p, value, t);
        if t != p {
          assert Waiting(r, t) == Waiting(w, t);
        }
      }
      assert forall q | 0 <= q < |r.promises| :: Paired(r.promises[q]) by {
        forall q | 0 <= q < |r.promises|
          ensures Paired(r.promises[q])
        {
          if q != p {
            assert r.promises[q] == w.promises[q];
          }
        }
      }
    }
  }

  /** `reject` keeps the invariant. */
  lemma RejectPreservesInv(w: World, p: Id, error: Value)
    requires Inv(w) && p < |w.promises|
    ensures Inv(w.Reject(p, error).0)
  {
    if !w.promises[p].alreadyResolved {
      var w1 := w.Lock(p);
      var r := w1.DoReject(p, error);
      assert r == w.Reject(p, error).0;
      forall t: Id
        ensures Tokens(r, t) == (if Waiting(r, t) then 1 else 0)
      {
        LockTokens(w, p, t);
        DoRejectTokens(w1, p, error, t);
        if t != p {
          assert Waiting(r, t) == Waiting(w, t);
        }
      }
      assert forall q | 0 <= q < |r.promises| :: Paired(r.promises[q]) by {
        forall q | 0 <= q < |r.promises|
          ensures Paired(r.promises[q])
        {
          if q != p {
            assert r.promises[q] == w.promises[q];
          }
        }
      }
    }
  }

  /**
   * The safety theorem: whatever task is at the front of the queue, a
   * handler that settles a promise finds it locked and still pending, so
   * the host can always run it.
   */
  lemma InvReady(w: World)
    requires Inv(w) && w.queue != []
    ensures Ready(w.queue[0], w.promises)
  {
    var task := w.queue[0];
    if !task.AdoptTask? && HandlerTarget(task.handler).Some? {
      var t := HandlerTarget(task.handler).value;
      assert Target(task) == Some(t);
      assert Tokens(w, t) >= 1;
    }
  }

  /** Removing the front task takes its token away and changes nothing else. */
  lemma PopTokens(w: World, t: Id)
    requires w.queue != []
    ensures Tokens(w.(queue := w.queue[1..]), t) + (if Target(w.queue[0]) == Some(t) then 1 else 0) == Tokens(w, t)
  {
  }

  /** After the front reaction's handler has run, the invariant holds again. */
  lemma HandlerRestoresInv(w: World, h: Handler, v: Value)
    requires Inv(w) && w.queue != [] && !w.queue[0].AdoptTask? && w.queue[0].handler == Some(h)
    ensures var w0 := w.(queue := w.queue[1..]);
      && w0.WellFormed() && HandlerOk(Some(h), |w0.promises|) && HandlerReady(Some(h), w0.promises)
      && Inv(w0.ApplyHandler(h, v).0)
  {
    InvReady(w);
    var w0 := w.(queue := w.queue[1..]);
    assert w.queue[0] in w.queue;
    assert forall task <- w0.queue :: task in w.queue;
    match h
    case Call(f) =>
      var r := w0.ApplyHandler(h, v).0;
      forall t: Id
        ensures Tokens(r, t) == (if Waiting(r, t) then 1 else 0)
      {
        PopTokens(w, t);
      }
    case ResolveInto(t0) => ResolveIntoRestoresInv(w, t0, v);
    case RejectInto(t0) => RejectIntoRestoresInv(w, t0, v);
  }

  /** The fulfilment closure of an adoption consumes its promise's token. */
  lemma ResolveIntoRestoresInv(w: World, t0: Id, v: Value)
    requires Inv(w) && w.queue != [] && !w.queue[0].AdoptTask? && w.queue[0].handler == Some(ResolveInto(t0))
    requires t0 < |w.promises| && w.promises[t0].promiseState == Pending && w.promises[t0].alreadyResolved
    requires w.(queue := w.queue[1..]).WellFormed()
    ensures Inv(w.(queue := w.queue[1..]).ApplyHandler(ResolveInto(t0), v).0)
  {
    var w0 := w.(queue := w.queue[1..]);
    var r := w0.ApplyHandler(ResolveInto(t0), v).0;
    forall t: Id
      ensures Tokens(r, t) == (if Waiting(r, t) then 1 else 0)
    {
      PopTokens(w, t);
      DoResolveTokens(w0, t0, v, t);
      if t != t0 {
        assert Waiting(r, t) == Waiting(w, t);
      }
    }
    forall q | 0 <= q < |r.promises|
      ensures Paired(r.promises[q])
    {
      if q != t0 {
        assert r.promises[q] == w.promises[q];
      }
    }
  }

  /** The rejection closure of an adoption consumes its promise's token. */
  lemma RejectIntoRestoresInv(w: World, t0: Id, v: Value)
    requires Inv(w) && w.queue != [] && !w.queue[0].AdoptTask? && w.queue[0].handler == Some(RejectInto(t0))
    requires t0 < |w.promises| && w.promises[t0].promiseState == Pending && w.promises[t0].alreadyResolved
    requires w.(queue := w.queue[1..]).WellFormed()
    ensures Inv(w.(queue := w.queue[1..]).ApplyHandler(RejectInto(t0), v).0)
  {
    var w0 := w.(queue := w.queue[1..]);
    var r := w0.ApplyHandler(RejectInto(t0), v).0;
    forall t: Id
      ensures Tokens(r, t) == (if Waiting(r, t) then 1 else 0)
    {
      PopTokens(w, t);
      DoRejectTokens(w0, t0, v, t);
      if t != t0 {
        assert Waiting(r, t) == Waiting(w, t);
      }
    }
    forall q | 0 <= q < |r.promises|
      ensures Paired(r.promises[q])
    {
      if q != t0 {
        assert r.promises[q] == w.promises[q];
      }
    }
  }

  /** Running the adoption task moves the follower's token from the queue to the adopted promise. */
  lemma AdoptPreservesInv(w: World, follower: Id, thenable: Id)
    requires Inv(w) && w.queue != [] && w.queue[0] == AdoptTask(follower, thenable)
    ensures var w0 := w.(queue := w.queue[1..]);
      && w0.WellFormed() && follower < |w0.promises| && thenable < |w0.promises|
      && Inv(w0.Run(AdoptTask(follower, thenable)))
  {
    var w0 := w.(queue := w.queue[1..]);
    assert w.queue[0] in w.queue;
    assert forall task <- w0.queue :: task in w.queue;
    var r := w0.Run(AdoptTask(follower, thenable));
    var onF, onR := Some(ResolveInto(follower)), Some(RejectInto(follower));
    assert r == w0.Then(thenable, onF, onR).0;
    ThenPaired(w0, thenable, onF, onR);
    forall t: Id
      ensures Tokens(r, t) == (if Waiting(r, t) then 1 else 0)
    {
      PopTokens(w, t);
      ThenTokens(w0, thenable, onF, onR, t);
      assert Waiting(r, t) == Waiting(w, t);
    }
  }

  /** The host's step keeps the invariant. */
  lemma StepPreservesInv(w: World)
    requires Inv(w)
    ensures (w.queue != [] ==> Ready(w.queue[0], w.promises)) && Inv(w.Step())
  {
    if w.queue != [] {
      InvReady(w);
      var task := w.queue[0];
      var w0 := w.(queue := w.queue[1..]);
      assert task in w.queue;
      assert forall t <- w0.queue :: t in w.queue;
      match task
      case AdoptTask(follower, thenable) =>
        AdoptPreservesInv(w, follower, thenable);
      case FulfilledTask(src, h, d) =>
        var v := w0.promises[src].promiseResult;
        if h.None? {
          forall t: Id
            ensures Tokens(w0, t) == Tokens(w, t)
          {
            PopTokens(w, t);
          }
          ResolvePreservesInv(w0, d, v);
        } else {
          HandlerRestoresInv(w, h.value, v);
          var (w1, r) := w0.ApplyHandler(h.value, v);
          ResolvePreservesInv(w1, d, r);
        }
      case RejectedTask(src, h, d) =>
        var e := w0.promises[src].promiseResult;
        if h.None? {
          forall t: Id
            ensures Tokens(w0, t) == Tokens(w, t)
          {
            PopTokens(w, t);
          }
          RejectPreservesInv(w0, d, e);
        } else {
          HandlerRestoresInv(w, h.value, e);
          var (w1, r) := w0.ApplyHandler(h.value, e);
          ResolvePreservesInv(w1, d, r);
        }
    }
  }

  // ---- Programs ----------------------------------------------------------

  /** The program's own handlers: callbacks, which settle no promise by themselves. */
  function Lift(h: Option<Value -> Value>): (r: Option<Handler>)
    ensures HandlerTarget(r) == None
  {
    if h.Some? then Some(Call(h.value)) else None
  }

  /** One action of a program: a call of the promise API, or one task run by the host. */
  datatype Op =
    | CreateOp
    | ThenOp(p: Id, onFulfilled: Option<Value -> Value>, onRejected: Option<Value -> Value>)
    | ResolveOp(p: Id, value: Value)
    | RejectOp(p: Id, error: Value)
    | StepOp

  /** Performs one action; an action on a promise that does not exist does nothing. */
  function Apply(w: World, op: Op): (r: World)
    requires Inv(w)
    ensures Inv(r) && w.KeepsSettled(r) && w.KeepsLocked(r)
  {
    match op
    case CreateOp =>
      CreatePreservesInv(w);
      w.Create()
    case ThenOp(p, f, g) =>
      if p < |w.promises| then
        ThenPreservesInv(w, p, f, g);
        w.Then(p, Lift(f), Lift(g)).0
      else w
    case ResolveOp(p, v) =>
      if p < |w.promises| then
        ResolvePreservesInv(w, p, v);
        w.Resolve(p, v).0
      else w
    case RejectOp(p, e) =>
      if p < |w.promises| then
        RejectPreservesInv(w, p, e);
        w.Reject(p, e).0
      else w
    case StepOp =>
      StepPreservesInv(w);
      w.Step()
  }

  /** Performs the actions of a program in order. */
  function Execute(w: World, ops: seq<Op>): World
    requires Inv(w)
    decreases |ops|
  {
    if ops == [] then w else Execute(Apply(w, ops[0]), ops[1..])
  }

  /**
   * Every state a program reaches satisfies the invariant, a promise
   * settled at some point keeps its state, result and (cleared) lists, and
   * a promise locked at some point stays locked.
   */
  lemma {:induction false} ExecuteKeepsInvAndSettled(w: World, ops: seq<Op>)
    requires Inv(w)
    ensures Inv(Execute(w, ops)) && w.KeepsSettled(Execute(w, ops)) && w.KeepsLocked(Execute(w, ops))
    decreases |ops|
  {
    if ops != [] {
      ExecuteKeepsInvAndSettled(Apply(w, ops[0]), ops[1..]);
    }
  }

  /**
   * The lock holds for good: after a first `resolve` of `p`, whatever the
   * program does next (host steps included, while `p` still waits on the
   * promise it adopted), a later `resolve` or `reject` of `p` changes
   * nothing and returns `undefined`.
   */
  lemma LockHoldsForGood(w: World, p: Id, value: Value, ops: seq<Op>, later: Value)
    requires Inv(w) && p < |w.promises| && !w.promises[p].alreadyResolved
    ensures Inv(w.Resolve(p, value).0)
    ensures var r := Execute(w.Resolve(p, value).0, ops);
      && Inv(r) && p < |r.promises| && r.promises[p].alreadyResolved
      && r.Resolve(p, later) == (r, Undefined)
      && r.Reject(p, later) == (r, Undefined)
  {
    ResolvePreservesInv(w, p, value);
    ExecuteKeepsInvAndSettled(w.Resolve(p, value).0, ops);
  }

  /** The same after a first `reject` of `p`. */
  lemma RejectLockHoldsForGood(w: World, p: Id, error: Value, ops: seq<Op>, later: Value)
    requires Inv(w) && p < |w.promises| && !w.promises[p].alreadyResolved
    ensures Inv(w.Reject(p, error).0)
    ensures var r := Execute(w.Reject(p, error).0, ops);
      && Inv(r) && p < |r.promises| && r.promises[p].alreadyResolved
      && r.Resolve(p, later) == (r, Undefined)
      && r.Reject(p, later) == (r, Undefined)
  {
    RejectPreservesInv(w, p, error);
    ExecuteKeepsInvAndSettled(w.Reject(p, error).0, ops);
  }

  /**
   * In every state a program can reach from the empty world, the host can run
   * the front task: no adoption closure ever calls `_doResolve` or
   * `_doReject` on a promise that is already settled.
   */
  lemma NoSettledPromiseIsResolvedAgain(ops: seq<Op>)
    ensures Inv(EMPTY)
    ensures var w := Execute(EMPTY, ops); w.queue != [] ==> Ready(w.queue[0], w.promises)
  {
    InitialInv();
    ExecuteKeepsInvAndSettled(EMPTY, ops);
    var w := Execute(EMPTY, ops);
    if w.queue != [] {
      InvReady(w);
    }
  }
}
