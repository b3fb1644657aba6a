# transworker, modelled in Dafny

transworker lets a browser's main thread call methods of an object that
lives in a Web Worker as if the object were local.

On the main thread, a *controller* (the bridge created by `createInvoker`)
does three things:

- it installs one wrapper per method of the client class;
- each wrapper call takes the next query id, stores a completion (the
  caller's trailing callback, a no-op, or the resolver of a returned
  promise) under that id, and posts a call envelope to the worker;
- it registers notification handlers by name.

On the worker side, an *executor* (the bridge created by `createWorker`)
does two things:

- it looks up the requested method on the client object, calls it, and
  posts one `response` envelope carrying the result, once a promise result
  has fulfilled;
- it posts `notify` envelopes to the controller.

When a response arrives, the controller does three things:

- it ignores it if the response is addressed to another controller (its
  `uuid` differs);
- otherwise it runs the stored completion with the response's parameters
  and then deletes the entry;
- a notification runs the name's handlers in registration order.

The project models six things:

- **Values** (`values.dfy`): the part of JavaScript's value universe the
  bridge inspects. This covers `typeof … === "function"`, truthiness,
  `!= null`, and which values the structured clone behind `postMessage`
  accepts.
- **Protocol** (`protocol.dfy`): the pieces both revisions share. It holds
  the envelopes, the completions, and how a callback wrapper splits off a
  trailing callback. It also holds the effects of running completions and
  handlers, the fan-out of a notification over a handler list, and the
  query ids on a channel.
- **TransWorker** (`transworker.dfy`, lib/transworker.js): the current
  revision. The `Invoker` class is the controller and the `Executor` class
  is the worker side. A few scenario methods compose them end to end.
- **LegacyTransWorker** (`legacy.dfy`, index.js): the earlier revision. It
  sends no channel token. It keeps one handler per notification name with
  an exclusive `subscribe`. It has callback wrappers only, and an executor
  that answers synchronous results only.
- **TransWorkerOptions** (`options.dfy`, lib/transworker-options.js): the
  defaulting and validation of the `shared` and `syncType` options.
- **PrimeSample** and **MeteorSample** (`prime.dfy`, `meteor.dfy`): the two
  sample worker classes. One is an incremental prime generator. The other
  is a meteor with a position and a velocity.

The channel is modelled as a list of envelopes, held on each side as an
`outbox` field. Inbound envelopes are arguments of the receive methods.

User closures are opaque function values `Fn(id)`. Running one appends an
`Invoked` event to the receiving object's `log`. A caught exception appends
a `Warned` event. Which closures throw is given by the `faulty` parameter.

`postMessage` throws `DataCloneError` when the payload holds a function
value. Only arrays are looked into: a plain object (`Obj`) has no modelled
members and always counts as cloneable.

`TransWorker.SyncTypeCallback` and `TransWorker.SyncTypePromise` are the
built-in `Function` and `Promise` objects, modelled as two distinct
function values.

A client object is a table from method names to functions of the argument
list. Each function says whether the method returns a value, throws, or
returns a promise that fulfils or rejects.

A promise result is parked in the executor's `deferred` queue. It is posted
by a separate `Settle` step, so promises may settle in any order.

## Model

| member | source | states |
|---|---|---|
| `Protocol.StyleValue` | lib/transworker.js:52-58 | The two synchronisation styles stand for two distinct values, the callback style for `Function`. |
| `Protocol.SplitCallback` | lib/transworker.js:186-190 | A trailing function argument is taken as the callback and the rest is sent. Otherwise a no-op is stored and every argument is sent. Rejoining the callback gives back the caller's argument list. |
| `Protocol.SplitRejoinCallback` | lib/transworker.js:186-187 | Exactly one trailing function is taken off, and the arguments before it are sent unchanged. |
| `Protocol.SplitKeepsLeadingArguments` | lib/transworker.js:186-190 | Every argument but the last is always sent, at its own position. An omitted callback never truncates the arguments. |
| `Protocol.RunCompletion` | lib/transworker.js:117-123 | A callback runs once with the response's `param` list, and a thrown exception adds exactly one warning for the catching site, after the call and nothing else. A no-op has no effect. A resolver fulfils its promise with the first parameter. |
| `Protocol.FanOutRunsAll` | lib/transworker.js:127-129 | When no handler throws, every handler runs once, in registration order, with the payload. |
| `Protocol.FanOutStopsAtThrow` | lib/transworker.js:127-134 | The first throwing handler is logged, and no later handler runs, because one `try` wraps the whole `forEach`. |
| `Protocol.SendFreshCallKeepsIdsIncreasing` | lib/transworker.js:185-196 | Posting a call with the current counter value keeps the channel's call ids strictly increasing and below the incremented counter. |
| `TransWorker.WrapperFor` | lib/transworker.js:84-94 | The promise style installs promise wrappers, and any other style installs callback wrappers. Each wrapper is for its own method name. |
| `TransWorker.RunHandlers` | lib/transworker.js:127-135 | The handler loop produces exactly the fan-out of the name's handler list. |
| `TransWorker.Invoker.constructor` | lib/transworker.js:69-105 | A new controller has counter 0, no pending calls and an empty channel. It has one wrapper per method name, of the configured style. It has one handler per `notifyHandlers` key, run with `thisObject`. |
| `TransWorker.Invoker.CallWithCallback` | lib/transworker.js:182-197 | The call takes the current id and increments the counter. It adds exactly one table entry under that id, holding the split-off callback or a no-op. It posts exactly one envelope with the method, the remaining arguments, the token and the id, or throws `DataCloneError` without posting. Ids stay unique and increasing. |
| `TransWorker.Invoker.CallWithPromise` | lib/transworker.js:206-224 | The call takes the current id and stores the promise's resolver under it. It posts every argument unchanged. The promise is rejected when posting throws. |
| `TransWorker.Invoker.Invoke` | lib/transworker.js:182-224 | Calling an installed wrapper takes a fresh id and stores under it the split-off callback (callback wrapper) or the promise's resolver (promise wrapper); every other entry is kept. When the sent arguments can be cloned it posts exactly one call with the method, those arguments (all but a trailing callback, or all of them), the token and the id; otherwise it posts nothing and throws `DataCloneError` or rejects the promise. |
| `TransWorker.Invoker.Subscribe` | lib/transworker.js:166-175 | A non-function handler throws and changes nothing. Otherwise the handler is appended to the name's list, which is created if absent. For names not inherited from `Object.prototype`, an existing name is never an error. |
| `TransWorker.Invoker.OnReceiveWorkerMessage` | lib/transworker.js:110-137 | A foreign response changes nothing. An own response runs its completion, or logs a missing one, and deletes exactly that entry. A notification runs the fan-out, or logs an unknown name. A call envelope is ignored. |
| `TransWorker.ResponseTo` | lib/transworker.js:273-281 | A response echoes the request's token, id and method, and carries the result as its only parameter. |
| `TransWorker.Execute` | lib/transworker.js:272-304 | A response is posted at once exactly for a synchronous, cloneable result. A promise result is deferred. A missing method or a throw is only logged. |
| `TransWorker.SettleStep` | lib/transworker.js:292-297 | A settled promise posts its response exactly when it fulfilled with a cloneable value. Otherwise a warning is logged. |
| `TransWorker.Executor.constructor` | lib/transworker.js:232-235 | A new executor wraps the client, with nothing posted, deferred or logged. |
| `TransWorker.Executor.OnReceiveClientMessage` | lib/transworker.js:272-304 | Each message does exactly one thing: it posts one response, defers one promise, or logs one warning. |
| `TransWorker.Executor.Settle` | lib/transworker.js:292-297 | Any deferred promise may settle next. It leaves the queue, and its response is posted only on fulfilment. |
| `TransWorker.Executor.PostNotify` | lib/transworker.js:312-318 | Posts one `notify` envelope with the name and payload, or throws `DataCloneError` without posting. |
| `TransWorker.CallbackRoundTrip` | test/transworker.test.js:39-62 | After a callback call and its answer, the worker received every other argument. The callback ran once with the result, and no entry is left pending. |
| `TransWorker.AnswerSecondFirst` | lib/transworker.js:289-297 | When the second promise settles first, its response is posted first, and each response echoes its own request. |
| `TransWorker.PromisesSettleOutOfOrder` | lib/transworker.js:206-224 | Two promise calls answered in reverse order each fulfil with their own result, and no entry is left pending. |
| `TransWorker.SubscriptionIsAdditive` | test/transworker.test.js:222-241 | Subscribing to a name registered by `createInvoker` succeeds. Both handlers run on the next notification, in registration order, each with its own receiver. |
| `LegacyTransWorker.LegacyInvoker.constructor` | index.js:80-131 | A new controller has counter 0 and no pending calls. It has one callback wrapper per method name and one handler per `notifyHandlers` key. |
| `LegacyTransWorker.LegacyInvoker.CreateWrappers` | index.js:154-160 | One wrapper is installed per name. A repeated name leaves one slot, and other slots are kept. |
| `LegacyTransWorker.LegacyInvoker.Call` | index.js:167-184 | The call takes the current id and increments the counter. It stores the split-off callback or a no-op. It posts one call without a token, or throws `DataCloneError` without posting. |
| `LegacyTransWorker.LegacyInvoker.Subscribe` | index.js:139-147 | A non-function handler throws. So does a name that already has a handler, including one from `createInvoker`. Otherwise exactly that name gets the handler. |
| `LegacyTransWorker.LegacyInvoker.OnMessage` | index.js:94-119 | Any response runs its completion and deletes exactly that entry, whoever sent it. A notification runs the name's single handler, or logs a missing one. |
| `LegacyTransWorker.LegacyAnswer` | index.js:227-246 | A response, without a token, is posted exactly when the method returned a cloneable value synchronously. |
| `LegacyTransWorker.LegacyAnswersWhatCurrentPostsAtOnce` | index.js:227-246 | The legacy executor answers exactly what the current one posts at once, minus the token. It never answers what the current one defers. |
| `LegacyTransWorker.LegacyExecutor.constructor` | index.js:192-199 | A constructor argument is instantiated and its instance's methods are used. An object is used as given. |
| `LegacyTransWorker.LegacyExecutor.OnMessage` | index.js:227-246 | Each message either posts its one answer or logs one warning naming the method, or no method for a notification. |
| `LegacyTransWorker.LegacyExecutor.PostNotify` | index.js:256-264 | Posts one `notify` envelope, or throws `DataCloneError` without posting. |
| `LegacyTransWorker.SecondSubscriptionRefused` | index.js:143-146 | A second `subscribe` to the same name fails, and the first handler stays registered. |
| `TransWorkerOptions.StyleOf` | lib/transworker-options.js:18-20 | Exactly the two style values are recognised, each as its own style. |
| `TransWorkerOptions.Normalize` | lib/transworker-options.js:15-22 | Construction succeeds exactly when the defaulted `shared` is a boolean and the defaulted `syncType` is one of the two style values. The instance holds the defaulted values. |
| `TransWorkerOptions.Create` | lib/transworker-options.js:10-23 | No argument gives the defaults. Otherwise the caller's object is overwritten with the defaulted values, also when validation then throws, and the result is that of `Normalize`. |
| `TransWorkerOptions.EmptyObjectGivesDefaults` | lib/transworker-options.js:11-17 | An object without either property gives `shared = false` and the callback style. |
| `TransWorkerOptions.DefaultsAreIndependent` | lib/transworker-options.js:15-17 | A missing `shared` or `syncType` is defaulted on its own, and the other is kept. |
| `TransWorkerOptions.ValidOptionsAreKept` | lib/transworker-options.js:18-22 | Every boolean and style pair is accepted and kept as given. |
| `TransWorkerOptions.NormalizeIdempotent` | lib/transworker-options.js:15-17 | Passing the overwritten options object again constructs the same options. |
| `TransWorkerOptions.NonBooleanSharedRejected` | lib/transworker-options.js:18 | A string, number, object, array or function `shared` is refused. |
| `TransWorkerOptions.ForeignSyncTypeRejected` | lib/transworker-options.js:19-20 | A string, number, object, array or boolean `syncType` is refused. |
| `PrimeSample.PrimeAbove` | sample/prime/prime.js:19-26 | Above every number there is a prime, so the `while(true)` search ends and its `return null` is unreachable. |
| `PrimeSample.PrimeIffNoListedDivisor` | sample/prime/prime.js:5-17 | When the list holds exactly the primes below `n`, no listed prime dividing `n` is the same as `n` being prime. |
| `PrimeSample.PassComposite` | sample/prime/prime.js:19-21 | Passing over a composite keeps the list equal to all primes up to the counter. |
| `PrimeSample.AppendPrime` | sample/prime/prime.js:21-23 | Appending a newly found prime keeps the list increasing and equal to all primes up to it. |
| `PrimeSample.PrimesBelowListsThem` | sample/prime/prime.js:18-27 | The list built by examining the numbers one at a time and pushing each prime, which is what repeated `getNextPrime` calls accumulate, holds exactly the primes below the next number, each once, in increasing order. |
| `PrimeSample.Prime.constructor` | sample/prime/prime.js:1-4 | Starts with no primes and `num = 1`, satisfying the list invariant. |
| `PrimeSample.Prime.IsPrime` | sample/prime/prime.js:5-17 | Returns false exactly when a listed prime divides `n`, and changes nothing. With all primes below `n` listed, that is primality. |
| `PrimeSample.Prime.GetNextPrime` | sample/prime/prime.js:18-27 | Returns the next prime after the old `num`, with none skipped. It sets `num` to it, appends exactly it, and keeps `primes` equal to all primes up to `num`. |
| `MeteorSample.Step` | sample/meteor-shower/meteor.js:16-19 | One move displaces the position by the velocity and keeps velocity and colour. |
| `MeteorSample.StepsClosedForm` | sample/meteor-shower/meteor.js:16-19 | After `n` moves the position is `(px + n*vx, py + n*vy)`, with velocity and colour unchanged. |
| `MeteorSample.StepsCompose` | sample/meteor-shower/meteor.js:16-19 | Moving `a` times and then `b` times is moving `a + b` times. |
| `MeteorSample.Meteor.constructor` | sample/meteor-shower/meteor.js:1-7 | Stores all five fields as given. |
| `MeteorSample.Meteor.Reset` | sample/meteor-shower/meteor.js:9-15 | Overwrites all five fields with its arguments. |
| `MeteorSample.Meteor.Move` | sample/meteor-shower/meteor.js:16-19 | The new state is one `Step` of the old one. |
| `MeteorSample.Meteor.GetPos` | sample/meteor-shower/meteor.js:20-22 | Returns the current position and colour and changes nothing. |

## Left out

- Transports and wiring are not modelled. That covers `new Worker`, the `onmessage` assignments, the dedicated, shared and WebSocket variants in lib/, and `connectWorker`, `setupOnConnect` and the console hooks. The channel is the `outbox` field, and inbound messages are method arguments.
- `uuidv4()` is a foreign library. The token is a constructor parameter.
- Detecting the global context is environment sensing and is not modelled. The role of each object is chosen by using the `Invoker` or the `Executor` class.
- Reflection is not modelled. `Object.keys(clientCtor.prototype)` becomes a list of method names. The worker-side loop that overrides client methods with the bridge's own is not modelled either. The client is a table of methods and has no state of its own.
- TransWorker.Invoker.constructor: the wrappers are stored in the instance's own `prototype` map. In the source they are stored on the shared `TransWorker.prototype`, so a later `createInvoker` replaces the wrappers seen by every earlier instance. That aliasing is not modelled.
- TransWorker.Invoker.Subscribe, LegacyTransWorker.LegacyInvoker.Subscribe and LegacyTransWorker.LegacyInvoker.OnMessage: the handler tables are plain objects in the source, so a name inherited from `Object.prototype` (`toString`, `constructor`, `__proto__`) is already `in` them. The current `subscribe` then pushes onto a function and throws, the legacy `subscribe` refuses the name as already existing, and a legacy notification of that name calls the inherited function. The model's tables start empty and treat every name alike.
- Values.Cloneable: a plain object is modelled without members (`Obj`), so a function stored in an object's property is not seen and such a payload counts as cloneable. The structured clone refuses it. Every clone condition stated in the "## Model" rows (the call methods, `TransWorker.Execute`, `TransWorker.SettleStep`, `LegacyTransWorker.LegacyAnswer` and both `PostNotify` methods) holds for this coarser value model only.
- LegacyTransWorker.LegacyInvoker.constructor: the wrappers are stored in the instance's own `prototype` map. In the source `createWrappers` writes them onto the shared `TransWorker.prototype` (index.js:154-160), so every earlier instance sees the wrappers of the latest one, and a client method named `subscribe` (or any other bridge method) replaces the bridge's own for all instances. That aliasing is not modelled.
- TransWorker.Invoker.constructor: the registration loop tests a stray global `name` instead of `key` (lib/transworker.js:99). The model gives each `notifyHandlers` key one handler. That is what the loop does when the global `name` is not one of the keys.
- Real asynchrony is not modelled: the event loop, timers, and when a promise settles. A promise result waits in the executor's `deferred` queue until `Settle` is called for it.
- `this` binding is not modelled as `apply` semantics. The receiver a closure runs with is recorded in each `Invoked` event: `Caller(thisObject)` for callbacks and `createInvoker` handlers, and `Bridge` for `subscribe`d handlers.
- `console.warn` and `console.log` output is not modelled. A caught exception is one `Warned` event that records where it was caught. The prime sample's log lines are dropped.
- The controller's own `postNotify` (lib/transworker.js:312-318 on a controller instance) is not modelled, because nothing on the controller side receives it. `postNotify` is modelled on both executors.
- A truthy non-object passed as options is not modelled. In the source, assigning its properties throws a TypeError. In `TransWorkerOptions.Create`, `null` stands for every falsy argument.
- The meteor's coordinates are JavaScript doubles in the source but integers in the model, as the sample feeds only whole numbers. Floating-point rounding is not modelled.
- `transferObject`, `createInterface` and the shared-worker constructors are referenced by tests and subclasses. They are not defined in the modelled files, and they are not part of this model.
