# Bluebird promise, modelled in Dafny

This project models the promise primitive of the Bluebird Swift library
(`Pods/Bluebird/Source/Promise.swift`). A promise is a single-assignment
container. It starts `pending` and moves at most once to `resolved(value)` or
`rejected(error)`. It also keeps an ordered buffer of handlers: resolve or
reject blocks, each bound to a dispatch queue.

- While the promise is pending, `addHandlers` appends each batch to the buffer.
- On settlement, `set(state:)` schedules the buffered handlers of the matching
  polarity, in registration order, and then empties the buffer.
- A handler added after settlement is scheduled at once with the known outcome.
- The resolver initialiser turns a synchronous throw into a rejection.

The model is split into four modules:

- `States` (`state.dfy`): the `State` datatype, its projections `IsPending`,
  `Result` and `Error`, and `Settle`, the state change of `set(state:)`.
- `Handlers` (`handlers.dfy`): the `Handler` datatype and the `Dispatch` record.
  A `Dispatch` stands for one asynchronous submission of a callback block to
  its queue, with the value or error it will receive. The module
  also defines `Matching`, the dispatches that a sequence of handlers schedules
  against a settled state. Its lemmas state polarity filtering, registration
  order, exactly-once delivery and composition across batches.
- `Promises` (`promise.dfy`): the class `Promise` with the fields `state`,
  `stateHandlers` and `outbox`. `outbox` is the sequence of dispatches issued so
  far. A ghost field `registered` holds every handler ever registered. The
  object invariant `Valid()` ties these fields together:
  - while pending, `stateHandlers` holds every registered handler and nothing
    has been scheduled;
  - once settled, `stateHandlers` is empty and `outbox` is exactly
    `Matching(registered, state)`. Each registered handler of the settled
    polarity has then been scheduled once, in registration order.

  The resolver initialiser is driven by a finite script of the actions the
  resolver takes synchronously: call `resolve`, call `reject`, or throw. Calls
  that the escaping `resolve`/`reject` blocks make later are calls of `Set`.
- `Scenarios` (`scenarios.dfy`): client code that uses only the contracts of
  `Promise`.

Queues and callback blocks are opaque identifiers. The result type and Swift's
`Error` are the type parameters `T` and `E`.

## Model

| member | source | states |
|---|---|---|
| `States.State.IsPending` | Pods/Bluebird/Source/Promise.swift:20-27 | Defines the pending test. It holds exactly when the state is neither resolved nor rejected, so `pending` is the only non-terminal state. |
| `States.State.Result` | Pods/Bluebird/Source/Promise.swift:30-37 | Defines the `result` projection. A present result is the value the state was resolved with, and an absent one means the state is not resolved. `States.ProjectionsExact` states the iff. |
| `States.State.Error` | Pods/Bluebird/Source/Promise.swift:40-47 | Defines the `error` projection. A present error is the error the state was rejected with, and an absent one means the state is not rejected. `States.ProjectionsExact` states the iff. |
| `States.ProjectionsPartition` | Pods/Bluebird/Source/Promise.swift:20-47 | Exactly one of `isPending`, `result != nil` and `error != nil` holds for every state. |
| `States.ProjectionsExact` | Pods/Bluebird/Source/Promise.swift:29-47 | `result` is `v` iff the state is `.resolved(v)`. `error` is `e` iff the state is `.rejected(e)`. |
| `States.Settle` | Pods/Bluebird/Source/Promise.swift:150-154 | Settling with a terminal state always leaves a terminal state. That state is either the old one or the new one. |
| `States.SettleIsPermanent` | Pods/Bluebird/Source/Promise.swift:150-154 | Single assignment: a second settlement attempt, of either polarity, leaves the state the first one set. From pending, that state is the first attempt's payload. |
| `Handlers.DispatchFor` | Pods/Bluebird/Source/Promise.swift:157-161 | A matching handler is scheduled on its own queue with its own block. It receives the settled value (resolve handler) or the settled error (reject handler). |
| `Handlers.Scheduled` | Pods/Bluebird/Source/Promise.swift:157-164 | Defines what one handler schedules against a state. That is one dispatch when its polarity matches, and none otherwise. The dispatch keeps the handler's queue and block and carries the settled outcome. The same per-handler choice is made at :198-203 and :211-216. |
| `Handlers.Matching` | Pods/Bluebird/Source/Promise.swift:156-165 | Running a sequence of handlers against a state schedules at most one dispatch per handler. Each dispatch carries that state's outcome with the right polarity. A pending state schedules nothing. |
| `Handlers.MatchingAppend` | Pods/Bluebird/Source/Promise.swift:179-187 | FIFO across batches: what two consecutive batches schedule is what the first schedules, followed by what the second schedules. |
| `Handlers.MatchIndicesSound` | Pods/Bluebird/Source/Promise.swift:156-165 | The selected handler positions are in range, hold handlers of the matching polarity, and strictly increase. |
| `Handlers.MatchIndicesComplete` | Pods/Bluebird/Source/Promise.swift:156-165 | Every handler of the matching polarity is selected. None is skipped. |
| `Handlers.MatchingAt` | Pods/Bluebird/Source/Promise.swift:156-165 | The k-th scheduled dispatch is the dispatch of the handler at the k-th selected position. |
| `Handlers.MatchingSelects` | Pods/Bluebird/Source/Promise.swift:156-165 | Polarity filtering, order and exactly-once together. The dispatches are those of the matching handlers, in registration order, each handler at most once. A handler is scheduled iff its polarity matches, so handlers of the other polarity are dropped. |
| `Promises.ActionState` | Pods/Bluebird/Source/Promise.swift:117-123 | Every resolver action (resolve, reject, throw) asks for a terminal state. |
| `Promises.RunResolver` | Pods/Bluebird/Source/Promise.swift:114-125 | Defines the state that the resolver's synchronous actions produce. A non-empty script always settles the promise, an already settled state is left as it is, and an empty script leaves the state pending. `Promises.FirstActionDecides` characterises it fully. |
| `Promises.FirstActionDecides` | Pods/Bluebird/Source/Promise.swift:114-125 | The resolver's first action decides the state. Later `resolve`/`reject` calls and a later throw change nothing. |
| `Promises.ThrowFirstRejects` | Pods/Bluebird/Source/Promise.swift:116-124 | A resolver that throws before calling either block leaves the promise `.rejected(thrownError)`. |
| `Promises.LateThrowIgnored` | Pods/Bluebird/Source/Promise.swift:116-124 | A throw after the resolver called `resolve` or `reject` has no effect. The state is the one the first call asked for. |
| `Promises.Promise.Resolve` | Pods/Bluebird/Source/Promise.swift:96-98 | `init(resolve:)` gives a valid promise that is `.resolved(result)`, with no handlers and nothing scheduled. |
| `Promises.Promise.Reject` | Pods/Bluebird/Source/Promise.swift:105-107 | `init(reject:)` gives a valid promise that is `.rejected(error)`, with no handlers and nothing scheduled. |
| `Promises.Promise.WithResolver` | Pods/Bluebird/Source/Promise.swift:114-125 | The resolver initialiser starts pending. It ends in the state the resolver's actions produce, with the throw converted to a rejection, and no handler is buffered or scheduled. |
| `Promises.Promise.IsPending` | Pods/Bluebird/Source/Promise.swift:70-75 | The result is true iff the promise's state is pending. While pending, nothing has been scheduled. When not pending, the handler buffer is empty. |
| `Promises.Promise.Result` | Pods/Bluebird/Source/Promise.swift:77-82 | A present result is the resolved value. Every resolve handler ever registered has then been scheduled with it, in registration order, and the buffer is empty. An absent result means the state is not resolved. |
| `Promises.Promise.Error` | Pods/Bluebird/Source/Promise.swift:84-89 | A present error is the rejected error. Every reject handler ever registered has then been scheduled with it, in registration order, and the buffer is empty. An absent error means the state is not rejected. |
| `Promises.Promise.Set` | Pods/Bluebird/Source/Promise.swift:150-169 | On a settled promise this is a no-op: state, buffer and outbox are unchanged. From pending, the state becomes the new one, and the outbox gains exactly the buffered handlers' matching dispatches, in order. Either way the buffer ends empty and the invariant holds. |
| `Promises.Promise.AddHandlers` | Pods/Bluebird/Source/Promise.swift:179-191 | While pending, the batch is appended to the buffer in order and state and outbox are unchanged. Once settled, state and buffer (empty) are unchanged, and the outbox gains the batch's matching dispatches in batch order with the stored outcome. Returns the same object. |
| `Promises.Promise.ForEachRunHandlerWithResult` | Pods/Bluebird/Source/Promise.swift:184-185 | Running `runHandler(_:with: result)` over a batch schedules exactly the batch's resolve handlers, in order, with the result. |
| `Promises.Promise.ForEachRunHandlerWithError` | Pods/Bluebird/Source/Promise.swift:186-187 | Running `runHandler(_:with: error)` over a batch schedules exactly the batch's reject handlers, in order, with the error. |
| `Promises.Promise.RunHandlerWithResult` | Pods/Bluebird/Source/Promise.swift:197-204 | A resolve handler is scheduled with the result. A reject handler schedules nothing. |
| `Promises.Promise.RunHandlerWithError` | Pods/Bluebird/Source/Promise.swift:210-217 | A reject handler is scheduled with the error. A resolve handler schedules nothing. |
| `Scenarios.ResolvedThenHandler` | Pods/Bluebird/Source/Promise.swift:184-185 | `Promise(resolve: "a")` followed by one resolve handler schedules that handler exactly once, with `"a"`. |
| `Scenarios.RejectingResolver` | Pods/Bluebird/Source/Promise.swift:114-125 | A resolver that rejects, followed by a batch of two reject handlers and one resolve handler, schedules both reject handlers, in order, with the error. The resolve handler never runs. |
| `Scenarios.HandlersAroundSettlement` | Pods/Bluebird/Source/Promise.swift:150-191 | A resolve handler registered before settlement and one registered after it each get the value exactly once, each on its own queue. The reject handler registered before settlement is dropped. |
| `Scenarios.RepeatedSettlements` | Pods/Bluebird/Source/Promise.swift:150-152 | Any number of settlement attempts on one pending promise, applied in the serial order of its state queue, leave the first attempt's state as the permanent one. |

## Left out

- The `stateQueue.sync` locking is not modelled. Each operation is an atomic, sequential method, which is what the serial queue guarantees. Concurrent callers appear as some serial order of calls.
- The asynchronous execution of `queue.async` blocks is not modelled. Scheduling is appending a `Dispatch` record to `outbox`. The blocks themselves are opaque identifiers and are never run.
- `deinit` (Promise.swift:141-145) is left out. It only empties the buffer when the object is freed, which is a memory-lifetime concern.
- The convenience initialiser that wraps a promise-returning block (Promise.swift:132-139) is left out. Its observable effect is one `addHandlers` call on the inner promise with a resolve and a reject handler, both on the main queue. `AddHandlers` and `Set` already cover that.
- `Promises.Promise.Set` requires a terminal new state. Every call site in the source passes `.resolved` or `.rejected`.
- `Promises.Promise.WithResolver` models only what the resolver does synchronously, as a finite script. A throw ends the script, as it ends the resolver. Later asynchronous calls of the escaping `resolve`/`reject` blocks are separate `Set` calls.
- `Promises.Promise.IsPending`, `Promises.Promise.Result` and `Promises.Promise.Error` require the object invariant `Valid()`. The three constructors establish it, and `Set` and `AddHandlers` preserve it.
- `Promises.Promise.ForEachRunHandlerWithResult`, `Promises.Promise.ForEachRunHandlerWithError`, `Promises.Promise.RunHandlerWithResult` and `Promises.Promise.RunHandlerWithError` model private code (Promise.swift:197 and :210 are `private`; the two loops sit inside `addHandlers`). Dafny does not enforce that they are private, and they neither require nor ensure `Valid()`. They keep the invariant only when called from `AddHandlers` on a settled promise, whose final step records the batch in the ghost history. Called directly on a pending promise, they would append to `outbox` and break `Valid()`.
