# Promise state machines, modelled in Dafny

The repository implements three tiers of a hand-written JavaScript promise. Each
tier is a settle-once object with a state (`pending`, `fulfilled`, `rejected`),
a cached result, and two reaction lists. Reactions are scheduled on the host's
task queue through `addToTaskQueue` (`setTimeout(task, 0)`).

- **Stand-alone** (`StandAlonePromise`, and its copy `DemoPromise`):
  - `then` registers or schedules one callback pair and returns nothing.
  - `resolve`/`reject` take effect only while the promise is pending.
- **Chaining** (`ChainingPromise`):
  - `then` returns a new derived promise.
  - The derived promise is settled by the reaction's outcome, by the rules
    for pass-through, fulfilment, recovery and propagation.
- **Flattening** (`FlattenedChainingPromise`):
  - `resolve` is guarded by a lock (`alreadyResolved`).
  - Resolving with a thenable schedules an adoption task. That task registers
    two closures with the thenable's `then`, and they feed its outcome back
    into `_doResolve` / `_doReject`.
  - Nested promises are flattened transitively. Rejections are stored as they
    are.

The model has one module per tier, plus a shared module:

- `Common`: values, states, `Option`.
- `StandAlone`: also the model of `DemoPromise`.
- `DemoPromise`: only the defect of that file, as written.
- `Chaining`.
- `Flattened`.
- `FlattenedInvariant`: the global invariant of the flattening tier and programs built on it.
- `FlattenedUsage`: concrete runs of the flattening tier.

Each tier has two layers:

- **`World` (the specification).** A `World` value holds the heap of promise
  objects and the FIFO task queue. The heap is a sequence of records indexed
  by identity: `Ref(id)` is a reference to promise `id`. In the stand-alone
  tier the `World` also holds the trace of callback invocations. Every JS
  operation is a function on `World`: `Create` for the constructor, `Then`,
  `Resolve`, `Reject`, `ClearAndEnqueueReactions`, and `EnqueueAll` for
  `reactions.map(addToTaskQueue)`. The host running the front task is `Step`.
- **`class Runtime` (the imperative form).** It has the same fields. Its
  methods update them in place, as the source does, including the enqueue
  loop of `_clearAndEnqueueReactions`. Each method is proved to leave
  `Model()` equal to the matching `World` function applied to the old
  state: the function of the same name, or `World.ApplyHandler` for
  `Runtime.CallHandler`. `Runtime.AddToTaskQueue` states its new fields
  directly, since the `World` form of an enqueue is `EnqueueAll`.

The main result of the flattening tier concerns `_doResolve` with a plain
value and `_doReject`. Both read the reaction lists, which are `undefined`
once a promise is settled, so they would throw on a settled promise.
`FlattenedInvariant.NoSettledPromiseIsResolvedAgain` proves that no program
ever gets there. The proof counts tokens:

- A locked, still-pending promise owns exactly one adoption token.
- That token is either its adoption task in the queue, or the closure pair
  parked on the promise it waits on.
- Every other promise owns no token.

Two points where the code departs from what a production promise does; the
model follows the code:

- A production promise turns an exception thrown by a handler into a
  rejection of the derived promise. This code has no `try`/`catch`, so
  handlers are total functions.
- Adoption is meant to ensure that no promise is settled with a promise. The
  code, and the model, still store a thenable *rejection* error as it is.

## Model

| member | source | states |
|---|---|---|
| StandAlone.World.Create | 1-promise-stand-alone.js:7-12 | the new promise is pending, result undefined, both lists empty; earlier promises, queue and trace unchanged |
| StandAlone.World.AddToTaskQueue | 1-promise-stand-alone.js:69-71 | the task goes to the back of the queue; promises and trace unchanged |
| StandAlone.World.EnqueueAll | 1-promise-stand-alone.js:66 | `reactions.map(addToTaskQueue)` appends the reactions to the queue in order, nothing else changes |
| StandAlone.World.ClearAndEnqueueReactions | 1-promise-stand-alone.js:63-67 | both lists of `p` become undefined, the given reactions are appended in order, state/result and other promises unchanged |
| StandAlone.World.Then | 1-promise-stand-alone.js:14-37 | pending: one task appended to each list, queue unchanged; fulfilled/rejected: only the matching task appended to the queue, lists untouched; no callback runs, state/result unchanged |
| StandAlone.World.Resolve | 1-promise-stand-alone.js:39-49 | not pending: nothing changes, returns undefined; pending: fulfilled with exactly `value`, both lists cleared, fulfil reactions queued in order, returns the promise |
| StandAlone.World.Reject | 1-promise-stand-alone.js:51-61 | not pending: nothing changes, returns undefined; pending: rejected with `error`, lists cleared, reject reactions queued in order, returns the promise |
| StandAlone.World.Step | 1-promise-stand-alone.js:17-23 | running the front task calls its callback with the cached result of its promise, removes it from the queue, changes no promise |
| StandAlone.Invoke | 1-promise-stand-alone.js:17-23 | a reaction closure calls its callback with the result cached in its own promise at the time it runs |
| StandAlone.World.Drain | 1-promise-stand-alone.js:17-23 | running the queue to empty calls the queued callbacks in queue order with each promise's cached result |
| StandAlone.InvocationsAppend | 1-promise-stand-alone.js:69-71 | running two scheduled lists back to back gives the calls of the first, then of the second |
| StandAlone.SettledQueueInvocations | 1-promise-stand-alone.js:63-67 | the calls made by earlier tasks followed by one promise's reactions are the earlier tasks' calls, then each reaction's callback in order with that promise's result |
| StandAlone.DrainAfterSettle | 1-promise-stand-alone.js:63-67 | draining earlier tasks followed by one promise's reactions calls the earlier ones first, then each reaction's callback in order with that promise's result |
| StandAlone.World.SettleAll | 1-promise-stand-alone.js:39-61 | any sequence of `resolve`/`reject` calls keeps the records well formed |
| StandAlone.LaterSettlementsIgnored | 1-promise-stand-alone.js:39-43 | once settled, every further sequence of `resolve`/`reject` calls leaves the world unchanged |
| StandAlone.FirstSettlementWins | 1-promise-stand-alone.js:39-61 | the first call on a pending promise fixes its state, result and scheduled reactions for any later calls |
| StandAlone.FulfilReactionsRunInOrder | 1-promise-stand-alone.js:45-47 | after `resolve`, with any tasks already scheduled, draining first runs those, then calls exactly the fulfil callbacks, in registration order, with the value; reject callbacks never run |
| StandAlone.RejectReactionsRunInOrder | 1-promise-stand-alone.js:57-59 | after `reject`, with any tasks already scheduled, draining first runs those, then calls exactly the reject callbacks, in registration order, with the error |
| StandAlone.RegistrationOrderIrrelevant | 1-promise-stand-alone.js:3 | `then` before or after `resolve` yields the same single callback call with the value |
| StandAlone.UsageScenario | 1-promise-stand-alone.js:77-81 | `resolve('abc'); then(h)`: no call during `then`, then exactly one call `h('abc')` |
| StandAlone.Runtime.constructor | 1-promise-stand-alone.js:7-12 | the host starts with no promises, nothing scheduled, nothing called |
| StandAlone.Runtime.Create | 1-promise-stand-alone.js:7-12 | in place: allocates the promise `World.Create` describes, returns its identity |
| StandAlone.Runtime.AddToTaskQueue | 1-promise-stand-alone.js:69-71 | in place: the task is appended to the queue, promises unchanged |
| StandAlone.Runtime.ClearAndEnqueueReactions | 1-promise-stand-alone.js:63-67 | in place, by a loop: the new state is `World.ClearAndEnqueueReactions` of the old |
| StandAlone.Runtime.Then | 1-promise-stand-alone.js:14-37 | in place: the new state is `World.Then` of the old |
| StandAlone.Runtime.Resolve | 1-promise-stand-alone.js:39-49 | in place: new state and return value are `World.Resolve` of the old |
| StandAlone.Runtime.Reject | 1-promise-stand-alone.js:51-61 | in place: new state and return value are `World.Reject` of the old |
| StandAlone.Runtime.Step | 1-promise-stand-alone.js:17-23 | in place: the new state is `World.Step` of the old |
| DemoPromise.AddToTaskQueueAsWritten | promise-stand-alone.js:69-70 | as written, every enqueue throws and changes nothing |
| DemoPromise.ResolveAsWritten | promise-stand-alone.js:39-49 | as written: never schedules a task or calls a callback; on a settled promise returns normally and changes nothing |
| DemoPromise.RejectAsWritten | promise-stand-alone.js:51-61 | the same for `reject` |
| DemoPromise.ThenAsWritten | promise-stand-alone.js:14-37 | as written: never schedules anything; throws exactly when the promise is already settled |
| DemoPromise.ThenAsWrittenVersusIntended | promise-stand-alone.js:14-37 | on a pending promise it is the intended `then`; on a settled one it throws with the world unchanged, where the intended code schedules one task |
| DemoPromise.EnqueueAllAsWritten | promise-stand-alone.js:63-70 | as written, `map` stops at the first enqueue, which throws: it completes normally exactly when there is nothing to enqueue, and schedules nothing |
| DemoPromise.SettleOnceDespiteFailedEnqueue | promise-stand-alone.js:39-49 | `resolve` stores state and result before the failing enqueue; it throws exactly when reactions exist, and later calls are no-ops |
| DemoPromise.RejectOnceDespiteFailedEnqueue | promise-stand-alone.js:51-61 | the same for `reject` |
| DemoPromise.UsageAsWritten | promise-stand-alone.js:25-36 | the stand-alone usage against the code as written: `then` on the resolved promise throws, nothing is scheduled, the callback is never called |
| Chaining.World.Create | 2-promise-chaining.js:9-14 | the new promise is pending with empty lists; nothing else changes |
| Chaining.World.AddToTaskQueue | 2-promise-chaining.js:92-94 | the task goes to the back of the queue; promises unchanged |
| Chaining.World.EnqueueAll | 2-promise-chaining.js:89 | appends the reactions to the queue in order |
| Chaining.World.ClearAndEnqueueReactions | 2-promise-chaining.js:86-90 | both lists become undefined, reactions queued in order, nothing else changes |
| Chaining.World.Then | 2-promise-chaining.js:16-60 | returns a fresh pending promise created first; pending: both tasks pushed; fulfilled/rejected: only the matching task queued; source state and result unchanged |
| Chaining.World.Resolve | 2-promise-chaining.js:62-72 | guarded by state: ignored calls change nothing and return undefined; otherwise fulfilled with exactly `value` (no flattening), lists cleared, fulfil reactions queued in order, returns the promise |
| Chaining.World.Reject | 2-promise-chaining.js:74-84 | the same for rejection with `error` |
| Chaining.World.Run | 2-promise-chaining.js:20-45 | running a reaction keeps the records well formed, changes no promise but its derived one, never changes a settled promise, and only appends to the queue |
| Chaining.World.Step | 2-promise-chaining.js:92-94 | the tasks behind the front one keep their order ahead of whatever it schedules; only the front task's derived promise changes; settled promises stay as they are; an empty queue is a no-op |
| Chaining.StepRunsFront | 2-promise-chaining.js:92-94 | a step is the run of the front task on the rest of the queue |
| Chaining.StepShrinksWork | 2-promise-chaining.js:62-90 | each step strictly decreases the queued tasks plus the reactions registered on pending promises |
| Chaining.World.Drain | 2-promise-chaining.js:92-94 | running tasks until none is left terminates, ends with an empty queue, and keeps settled promises unchanged |
| Chaining.Apply | 2-promise-chaining.js:16-84 | every public call and every host step keeps settled promises unchanged |
| Chaining.Execute | 2-promise-chaining.js:16-84 | every program keeps the records well formed |
| Chaining.SettledStaysSettled | 2-promise-chaining.js:62-66 | over any program, a settled promise keeps state, result and cleared lists: the first settlement wins for good |
| Chaining.PassThrough | 2-promise-chaining.js:26-29 | no onFulfilled: the derived promise is fulfilled with the source's result |
| Chaining.FulfilledHandlerResult | 2-promise-chaining.js:21-25 | with onFulfilled: the derived promise is fulfilled with its return value for the source's result |
| Chaining.Recovery | 2-promise-chaining.js:33-38 | with onRejected: the derived promise is fulfilled (not rejected) with its return value |
| Chaining.Propagation | 2-promise-chaining.js:39-44 | no onRejected: the derived promise is rejected with the source's error |
| Chaining.NoFlattening | 2-promise-chaining.js:68-70 | resolving with a promise stores the reference itself |
| Chaining.PassThroughScenario | 2-promise-chaining.js:26-29 | `then()` then `then(x => x)` on a promise fulfilled with 5: the second derived promise is fulfilled with 5 after two steps |
| Chaining.RecoveryScenario | 2-promise-chaining.js:33-38 | rejected with "err", `then(undefined, e => e + "!")` (modelled for string errors only): the derived promise is fulfilled with "err!" |
| Chaining.Runtime.constructor | 2-promise-chaining.js:9-14 | the host starts empty |
| Chaining.Runtime.Create | 2-promise-chaining.js:9-14 | in place: the new state is `World.Create` of the old |
| Chaining.Runtime.AddToTaskQueue | 2-promise-chaining.js:92-94 | in place: the task is appended to the queue |
| Chaining.Runtime.ClearAndEnqueueReactions | 2-promise-chaining.js:86-90 | in place, by a loop: the new state is `World.ClearAndEnqueueReactions` of the old |
| Chaining.Runtime.Then | 2-promise-chaining.js:16-60 | in place: new state and returned promise are `World.Then` of the old |
| Chaining.Runtime.Resolve | 2-promise-chaining.js:62-72 | in place: new state and return value are `World.Resolve` of the old |
| Chaining.Runtime.Reject | 2-promise-chaining.js:74-84 | in place: new state and return value are `World.Reject` of the old |
| Chaining.Runtime.Step | 2-promise-chaining.js:20-45 | in place: the new state is `World.Step` of the old |
| Flattened.World.Create | 3-promise-chaining-flattened.js:6-13 | the new promise is pending, unlocked, with empty lists |
| Flattened.World.AddToTaskQueue | 3-promise-chaining-flattened.js:118-120 | the task goes to the back of the queue; promises unchanged |
| Flattened.World.IsThenable | 3-promise-chaining-flattened.js:74 | a value is thenable exactly when it refers to an existing promise object |
| Flattened.World.EnqueueAll | 3-promise-chaining-flattened.js:115 | appends the reactions to the queue in order |
| Flattened.World.ClearAndEnqueueReactions | 3-promise-chaining-flattened.js:112-116 | both lists become undefined, reactions queued in order, nothing else changes |
| Flattened.World.Then | 3-promise-chaining-flattened.js:15-59 | returns a fresh pending unlocked promise; pending (locked or not): one task per list, queue unchanged; fulfilled/rejected: only the matching task queued, lists untouched; state, result and lock unchanged; settled and locked promises stay so |
| Flattened.World.DoResolve | 3-promise-chaining-flattened.js:71-92 | thenable: exactly one adoption task queued, every promise unchanged; otherwise fulfilled (and still locked) with `value`, lists cleared, fulfil reactions queued in order |
| Flattened.World.DoReject | 3-promise-chaining-flattened.js:105-109 | rejected with the error as it is (even a thenable), lists cleared, reject reactions queued in order |
| Flattened.World.Lock | 3-promise-chaining-flattened.js:66 | taking the lock keeps the records well formed |
| Flattened.World.Resolve | 3-promise-chaining-flattened.js:61-69 | locked: nothing changes, returns undefined; else locks and returns the promise, then adopts a thenable (one adoption task, still pending) or fulfils with the value and queues the fulfil reactions; the promise ends locked and no lock is released |
| Flattened.World.Reject | 3-promise-chaining-flattened.js:95-103 | locked: nothing changes, returns undefined; else locked and rejected with the error, reject reactions queued in order; no lock is released |
| Flattened.World.ApplyHandler | 3-promise-chaining-flattened.js:78-85 | calling a callback or an adoption closure changes no promise but the closure's target, keeps settled promises unchanged and locked ones locked, and only appends to the queue |
| Flattened.World.Run | 3-promise-chaining-flattened.js:19-44 | running any ready task changes only the promises it names, keeps settled promises unchanged and locked ones locked, and only appends to the queue |
| Flattened.World.React | 3-promise-chaining-flattened.js:20-44 | a reaction closure changes no promise but its derived promise and its handler's target, keeps settled promises unchanged and locked ones locked, and only appends to the queue |
| Flattened.World.Step | 3-promise-chaining-flattened.js:118-120 | the tasks behind the front one keep their order ahead of whatever it schedules; only the promises the front task names change; settled promises stay unchanged, locked ones locked; an empty queue is a no-op |
| Flattened.StepRunsFront | 3-promise-chaining-flattened.js:118-120 | a step is the run of the front task on the rest of the queue |
| Flattened.LockedAfterFirstResolve | 3-promise-chaining-flattened.js:61-69 | after the first `resolve` the promise is locked, pending exactly when the value is thenable, and an immediate second `resolve`/`reject` is a no-op returning undefined |
| Flattened.LockedAfterFirstReject | 3-promise-chaining-flattened.js:95-103 | after the first `reject` the promise is locked and rejected, and later calls are no-ops |
| Flattened.AdoptionRegisters | 3-promise-chaining-flattened.js:77-86 | the adoption task calls the thenable's `then` with the two closures: parked on it while pending, the matching one queued once it is settled; the follower untouched |
| Flattened.AdoptionFollowsFulfilment | 3-promise-chaining-flattened.js:79-81 | the follower is fulfilled with the adopted result and its reactions queued, or adopts that result in turn when it is thenable |
| Flattened.AdoptionFollowsRejection | 3-promise-chaining-flattened.js:82-84 | the follower is rejected with the adopted error itself, thenable or not |
| Flattened.DerivedPromiseRules | 3-promise-chaining-flattened.js:20-44 | the derived promise is resolved with onFulfilled's result or the source's result, resolved with onRejected's result, or rejected with the source's error |
| Flattened.Runtime.constructor | 3-promise-chaining-flattened.js:6-13 | the host starts empty |
| Flattened.Runtime.Create | 3-promise-chaining-flattened.js:6-13 | in place: the new state is `World.Create` of the old |
| Flattened.Runtime.AddToTaskQueue | 3-promise-chaining-flattened.js:118-120 | in place: the task is appended to the queue |
| Flattened.Runtime.ClearAndEnqueueReactions | 3-promise-chaining-flattened.js:112-116 | in place, by a loop: the new state is `World.ClearAndEnqueueReactions` of the old |
| Flattened.Runtime.Then | 3-promise-chaining-flattened.js:15-59 | in place: new state and returned promise are `World.Then` of the old |
| Flattened.Runtime.DoResolve | 3-promise-chaining-flattened.js:71-92 | in place: the new state is `World.DoResolve` of the old |
| Flattened.Runtime.DoReject | 3-promise-chaining-flattened.js:105-109 | in place: the new state is `World.DoReject` of the old |
| Flattened.Runtime.Resolve | 3-promise-chaining-flattened.js:61-69 | in place: new state and return value are `World.Resolve` of the old |
| Flattened.Runtime.Reject | 3-promise-chaining-flattened.js:95-103 | in place: new state and return value are `World.Reject` of the old |
| Flattened.Runtime.CallHandler | 3-promise-chaining-flattened.js:78-85 | in place: new state and returned value are `World.ApplyHandler` of the old |
| Flattened.Runtime.Step | 3-promise-chaining-flattened.js:19-44 | in place: the new state is `World.Step` of the old |
| FlattenedInvariant.ThenTokens | 3-promise-chaining-flattened.js:46-56 | `then` adds one adoption token for the promise its closures settle, none for a program's callbacks |
| FlattenedInvariant.DoResolveTokens | 3-promise-chaining-flattened.js:74-91 | adopting a thenable adds one token for the promise; fulfilling it moves its parked tokens to the queue |
| FlattenedInvariant.DoRejectTokens | 3-promise-chaining-flattened.js:105-109 | rejecting moves the parked tokens to the queue, as the partners on the reject list |
| FlattenedInvariant.InitialInv | 3-promise-chaining-flattened.js:6-13 | the empty program satisfies the invariant |
| FlattenedInvariant.CreatePreservesInv | 3-promise-chaining-flattened.js:6-13 | the constructor keeps the invariant |
| FlattenedInvariant.ThenPreservesInv | 3-promise-chaining-flattened.js:15-59 | a program's `then` keeps the invariant |
| FlattenedInvariant.ResolvePreservesInv | 3-promise-chaining-flattened.js:61-92 | `resolve` keeps the invariant: a newly locked promise that adopts gets exactly one token |
| FlattenedInvariant.RejectPreservesInv | 3-promise-chaining-flattened.js:95-109 | `reject` keeps the invariant |
| FlattenedInvariant.InvReady | 3-promise-chaining-flattened.js:78-85 | under the invariant, a closure at the front of the queue finds its promise locked and still pending |
| FlattenedInvariant.HandlerRestoresInv | 3-promise-chaining-flattened.js:79-84 | an adoption closure consumes its promise's token and settles it or hands it a new adoption task |
| FlattenedInvariant.AdoptPreservesInv | 3-promise-chaining-flattened.js:77-86 | the adoption task moves the follower's token from the queue onto the adopted promise |
| FlattenedInvariant.StepPreservesInv | 3-promise-chaining-flattened.js:19-44 | the host's step is always possible and keeps the invariant |
| FlattenedInvariant.Lift | 3-promise-chaining-flattened.js:20-33 | a program's own callbacks settle no promise as a side effect |
| FlattenedInvariant.Apply | 3-promise-chaining-flattened.js:15-109 | every public call and host step keeps the invariant, leaves settled promises unchanged and keeps locked promises locked |
| FlattenedInvariant.ExecuteKeepsInvAndSettled | 3-promise-chaining-flattened.js:61-109 | over any program: the invariant holds, a settled promise keeps state and result (terminal states are absorbing), and a lock once taken is never released |
| FlattenedInvariant.LockHoldsForGood | 3-promise-chaining-flattened.js:61-66 | after a first `resolve`, whatever calls and host steps follow (also while the promise still waits on the one it adopted), a later `resolve`/`reject` changes nothing and returns undefined |
| FlattenedInvariant.RejectLockHoldsForGood | 3-promise-chaining-flattened.js:95-100 | the same after a first `reject` |
| FlattenedInvariant.NoSettledPromiseIsResolvedAgain | 3-promise-chaining-flattened.js:88-90 | in every reachable state the front task can run: no adoption closure reaches `_doResolve`/`_doReject` of a settled promise, whose lists are undefined |
| FlattenedUsage.UsageScenario | 3-promise-chaining-flattened.js:126-130 | `resolve('abc'); then(h)`: nothing runs during `then`; one step later the derived promise holds `h('abc')` |
| FlattenedUsage.AdoptsLaterFulfilment | 3-promise-chaining-flattened.js:74-86 | `a.resolve(b)` with `b` pending, then `b.resolve(42)`: `a` stays pending and locked, then is fulfilled with 42 |
| FlattenedUsage.FlattensTransitively | 3-promise-chaining-flattened.js:79-81 | `a ← b ← c ← 42`: after four steps `a` is fulfilled with 42; `a` and `b` stay pending until then |
| FlattenedUsage.RejectionIsNotFlattened | 3-promise-chaining-flattened.js:105-109 | `a.resolve(b); b.reject(c)` with `c` a promise: `a` ends rejected with `c` itself |

## Left out

- `setTimeout` and real time: `addToTaskQueue` is an append to an explicit FIFO queue. The host running a task is the explicit `Step`.
- Console output: the usage blocks' `console.log` is the stand-alone tier's invocation trace. In the other tiers it is the derived promise's result.
- Exceptions thrown by handlers: the source does not catch them, so handlers are total functions.
- Missing handlers in the stand-alone tier: calling an absent callback is a `TypeError` there, so both callbacks are required.
- The duck-typed thenable test `'then' in value`: a thenable is a reference `Ref(id)` to an allocated promise. A reference to an identity that does not exist yet is treated as a plain value.
- Self-resolution (`p.resolve(p)`): the code does not state its outcome. The adoption lemmas therefore require the follower and the adopted promise to differ.
- `Flattened.World.DoResolve`: requires the promise to be locked, and for a plain value still pending. The JS would throw a `TypeError` at `undefined.map` on a settled promise. That path is not modelled; `FlattenedInvariant.NoSettledPromiseIsResolvedAgain` proves no program reaches it.
- `Flattened.World.DoReject`: requires a locked, pending promise, for the same reason, proved by the same lemma.
- `Flattened.World.Step`: requires the front task to be ready (an adoption closure must meet its promise locked and pending). `FlattenedInvariant.StepPreservesInv` discharges this in every reachable state.
- `FlattenedInvariant.ExecuteKeepsInvAndSettled`: that a fulfilled result is never itself a promise is not proved. A program may pass a reference to a not-yet-created identity, which is stored as a plain value and later comes to denote a promise.
- Draining the flattening tier's queue: an adoption task registers new reactions on the promise it adopts, so the measure of `Chaining.StepShrinksWork` does not decrease there. No termination measure is given for that tier, and its runs are stated step by step.
- Callbacks acting on promises: a JS callback may call `resolve`, `reject` or `then` while its task runs. A program callback here is a function on values only; such calls are separate program operations between host steps.
- `DemoPromise`: its constructor, `then`, `resolve`, `reject` and `_clearAndEnqueueReactions` are line for line those of `StandAlonePromise`, and `StandAlone` is their model. Only the defective `addToTaskQueue` and its consequences are modelled as written. No imperative `Runtime` is given for the defective version.
- Closure identity: the tasks `then` builds are data describing the closure (source, handler, derived promise), not JS function objects.

## Findings

| source | as written | input that shows it | evidently intended | confidence | as-written member | corrected member |
|---|---|---|---|---|---|---|
| promise-stand-alone.js:69-70 | `addToTaskQueue(taks)` calls `setTimeout(task, 0)` with `task`, a name declared nowhere, so every enqueue throws a ReferenceError before scheduling anything | `p = new DemoPromise(); p.resolve('abc'); p.then(h, g)`: `then` throws and `h` is never called | schedule the given task, `setTimeout(taks, 0)`, as 1-promise-stand-alone.js:69-71 does | not executed | DemoPromise.UsageAsWritten | StandAlone.UsageScenario |
