/**
 * Concrete runs of the flattening promise, one step of the host at a time:
 * the usage at the end of the file, direct and transitive adoption, and a
 * rejection whose error is itself a promise.
 */
module FlattenedUsage {
  import opened Common
  import opened Flattened

  /**
   * `pr.resolve('abc'); pr.then(h)`: the handler is not called synchronously;
   * one step later it has been called with 'abc' and the promise `then`
   * returned is fulfilled with what it returned.
   */
  lemma UsageScenario(h: Value -> Value)
    requires !h(Str("abc")).Ref?
    ensures var w1 := EMPTY.Create().Resolve(0, Str("abc")).0;
      var (w2, d) := w1.Then(0, Some(Call(h)), None);
      && w1.promises[0] == Promise(Fulfilled, Str("abc"), None, None, true)
      && d == 1 && w2.promises[1].promiseState == Pending
      && w2.queue == [FulfilledTask(0, Some(Call(h)), 1)]
      && w2.Step().promises[1] == Promise(Fulfilled, h(Str("abc")), None, None, true)
      && w2.Step().queue == []
  {
    var w1 := EMPTY.Create().Resolve(0, Str("abc")).0;
    var w2 := w1.Then(0, Some(Call(h)), None).0;
    assert w2.promises[0].promiseResult == Str("abc");
  }

  /** The host can run the front task of `w`. */
  ghost predicate Runnable(w: World)
  {
    w.WellFormed() && (w.queue != [] ==> Ready(w.queue[0], w.promises))
  }

  /** The host can run the front task of `a`, and doing so gives `b`. */
  ghost predicate StepsTo(a: World, b: World)
  {
    Runnable(a) && a.Step() == b
  }

  /** A promise locked in on another one and waiting for it, with no reactions yet. */
  const LOCKED: Promise := Promise(Pending, Undefined, Some([]), Some([]), true)

  /** A promise fulfilled (and so locked) with `v`. */
  function FulfilledWith(v: Value): Promise
  {
    Promise(Fulfilled, v, None, None, true)
  }

  /** A promise rejected (and so locked) with `e`. */
  function RejectedWith(e: Value): Promise
  {
    Promise(Rejected, e, None, None, true)
  }

  /** `p` with the adoption closures of `follower` parked on it, for the derived promise `d`. */
  function WithAdopter(p: Promise, src: Id, follower: Id, d: Id): Promise
  {
    p.(fulfillReactions := Some([FulfilledTask(src, Some(ResolveInto(follower)), d)]),
       rejectReactions := Some([RejectedTask(src, Some(RejectInto(follower)), d)]))
  }

  // ---- a.resolve(b) with b pending, then b.resolve(42) -------------------

  const A1: World := World([LOCKED, FRESH], [AdoptTask(0, 1)])
  const A2: World := World([LOCKED, WithAdopter(FRESH, 1, 0, 2), FRESH], [])
  const A3: World := World([LOCKED, FulfilledWith(Num(42)), FRESH], [FulfilledTask(1, Some(ResolveInto(0)), 2)])
  const A4: World := World([FulfilledWith(Num(42)), FulfilledWith(Num(42)), FulfilledWith(Undefined)], [])

  lemma AdoptsLaterStart()
    ensures EMPTY.Create().Create().Resolve(0, Ref(1)).0 == A1
  {
  }

  lemma AdoptsLaterStep1()
    ensures StepsTo(A1, A2)
  {
    assert [] + [FulfilledTask(1, Some(ResolveInto(0)), 2)] == [FulfilledTask(1, Some(ResolveInto(0)), 2)];
    assert [] + [RejectedTask(1, Some(RejectInto(0)), 2)] == [RejectedTask(1, Some(RejectInto(0)), 2)];
  }

  lemma AdoptsLaterResolve()
    requires A2.WellFormed()
    ensures A2.Resolve(1, Num(42)).0 == A3
  {
  }

  lemma AdoptsLaterStep2()
    requires A3.WellFormed()
    ensures StepsTo(A3, A4)
  {
  }

  /**
   * `a.resolve(b)` while `b` is pending, then `b.resolve(42)`: `a` is locked
   * but stays pending until the adoption has run; then `b`'s fulfilment
   * schedules `a`'s closure, and one more step fulfils `a` with 42, not with `b`.
   */
  lemma AdoptsLaterFulfilment()
    ensures var w1 := EMPTY.Create().Create().Resolve(0, Ref(1)).0;
      && w1 == A1 && w1.promises[0] == Promise(Pending, Undefined, Some([]), Some([]), true)
      && StepsTo(A1, A2) && A2.promises[0].promiseState == Pending
      && A2.Resolve(1, Num(42)).0 == A3 && A3.queue == [FulfilledTask(1, Some(ResolveInto(0)), 2)]
      && StepsTo(A3, A4)
      && A4.promises[0] == Promise(Fulfilled, Num(42), None, None, true)
  {
    AdoptsLaterStart();
    AdoptsLaterStep1();
    AdoptsLaterResolve();
    AdoptsLaterStep2();
  }

  // ---- a.resolve(b); b.resolve(c); c.resolve(42) ------------------------

  const T1: World := World([LOCKED, LOCKED, FulfilledWith(Num(42))], [AdoptTask(0, 1), AdoptTask(1, 2)])
  const T2: World := World([LOCKED, WithAdopter(LOCKED, 1, 0, 3), FulfilledWith(Num(42)), FRESH], [AdoptTask(1, 2)])
  const T3: World := World([LOCKED, WithAdopter(LOCKED, 1, 0, 3), FulfilledWith(Num(42)), FRESH, FRESH],
                           [FulfilledTask(2, Some(ResolveInto(1)), 4)])
  const T4: World := World([LOCKED, FulfilledWith(Num(42)), FulfilledWith(Num(42)), FRESH, FulfilledWith(Undefined)],
                           [FulfilledTask(1, Some(ResolveInto(0)), 3)])
  const T5: World := World([FulfilledWith(Num(42)), FulfilledWith(Num(42)), FulfilledWith(Num(42)),
                            FulfilledWith(Undefined), FulfilledWith(Undefined)], [])

  lemma TransitiveStart()
    ensures EMPTY.Create().Create().Create().Resolve(0, Ref(1)).0.Resolve(1, Ref(2)).0.Resolve(2, Num(42)).0 == T1
  {
    var w0 := EMPTY.Create().Create().Create();
    assert w0 == World([FRESH, FRESH, FRESH], []);
    var wa := w0.Resolve(0, Ref(1)).0;
    assert wa == World([LOCKED, FRESH, FRESH], [AdoptTask(0, 1)]);
    var wb := wa.Resolve(1, Ref(2)).0;
    assert wb == World([LOCKED, LOCKED, FRESH], [AdoptTask(0, 1), AdoptTask(1, 2)]);
  }

  lemma TransitiveStep1()
    requires T1.WellFormed()
    ensures StepsTo(T1, T2)
  {
    assert T1.queue[1..] == [AdoptTask(1, 2)];
    assert [] + [FulfilledTask(1, Some(ResolveInto(0)), 3)] == [FulfilledTask(1, Some(ResolveInto(0)), 3)];
    assert [] + [RejectedTask(1, Some(RejectInto(0)), 3)] == [RejectedTask(1, Some(RejectInto(0)), 3)];
  }

  lemma TransitiveStep2()
    requires T2.WellFormed()
    ensures StepsTo(T2, T3)
  {
  }

  lemma TransitiveStep3()
    requires T3.WellFormed()
    ensures StepsTo(T3, T4)
  {
    var w1 := T3.(queue := []).DoResolve(1, Num(42));
    assert w1.queue == [FulfilledTask(1, Some(ResolveInto(0)), 3)];
  }

  lemma TransitiveStep4()
    requires T4.WellFormed()
    ensures StepsTo(T4, T5)
  {
  }

  /**
   * `a.resolve(b); b.resolve(c); c.resolve(42)`: the host's four steps go
   * through T1 .. T5; `a` and `b` stay pending until `a`'s closure runs
   * last and fulfils `a` with 42; the nesting is flattened through both levels.
   */
  lemma FlattensTransitively()
    ensures var w1 := EMPTY.Create().Create().Create().Resolve(0, Ref(1)).0.Resolve(1, Ref(2)).0.Resolve(2, Num(42)).0;
      && w1 == T1
      && T1.promises[0].promiseState == Pending && T1.promises[1].promiseState == Pending
      && StepsTo(T1, T2)
      && StepsTo(T2, T3)
      && StepsTo(T3, T4)
      && T4.promises[0].promiseState == Pending
      && StepsTo(T4, T5) && T5.promises[0] == Promise(Fulfilled, Num(42), None, None, true)
  {
    TransitiveStart();
    TransitiveStep1();
    TransitiveStep2();
    TransitiveStep3();
    TransitiveStep4();
  }

  // ---- a.resolve(b); b.reject(c) with c a promise -----------------------

  const R1: World := World([LOCKED, RejectedWith(Ref(2)), FRESH], [AdoptTask(0, 1)])
  const R2: World := World([LOCKED, RejectedWith(Ref(2)), FRESH, FRESH], [RejectedTask(1, Some(RejectInto(0)), 3)])
  const R3: World := World([RejectedWith(Ref(2)), RejectedWith(Ref(2)), FRESH, FulfilledWith(Undefined)], [])

  lemma RejectionStart()
    ensures EMPTY.Create().Create().Create().Resolve(0, Ref(1)).0.Reject(1, Ref(2)).0 == R1
  {
    var wa := EMPTY.Create().Create().Create().Resolve(0, Ref(1)).0;
    assert wa == World([LOCKED, FRESH, FRESH], [AdoptTask(0, 1)]);
  }

  lemma RejectionStep1()
    requires R1.WellFormed()
    ensures StepsTo(R1, R2)
  {
  }

  lemma RejectionStep2()
    requires R2.WellFormed()
    ensures StepsTo(R2, R3)
  {
    var w1 := R2.(queue := []).DoReject(0, Ref(2));
    assert w1 == World([RejectedWith(Ref(2)), RejectedWith(Ref(2)), FRESH, FRESH], []);
  }

  /**
   * `a.resolve(b); b.reject(c)` with `c` a promise: two steps later `a` is
   * rejected with `c` itself; rejections are not flattened.
   */
  lemma RejectionIsNotFlattened()
    ensures var w1 := EMPTY.Create().Create().Create().Resolve(0, Ref(1)).0.Reject(1, Ref(2)).0;
      && w1 == R1 && R1.IsThenable(Ref(2))
      && StepsTo(R1, R2)
      && StepsTo(R2, R3)
      && R3.promises[0] == Promise(Rejected, Ref(2), None, None, true)
  {
    RejectionStart();
    RejectionStep1();
    RejectionStep2();
  }
}
