/**
 * The current bridge (lib/transworker.js): the controller-side call
 * correlator and notification registry (`Invoker`) and the worker-side
 * executor (`Executor`). Each side's channel is its outbound envelope list;
 * inbound envelopes are arguments of the receive methods. Which user
 * closures throw is the parameter `faulty`.
 */
module TransWorker {
  import opened Values
  import opened Protocol

  /** The wrapper `createInvoker` installs for a method name under a synchronisation style. */
  function WrapperFor(style: SyncStyle, name: string): (w: Wrapper)
    ensures w.methodName == name
    ensures w.PromiseWrapper? <==> style == PromiseStyle
  {
    if style == PromiseStyle then PromiseWrapper(name) else CallbackWrapper(name)
  }

  /** The arguments a call through a wrapper posts: a callback wrapper splits off a trailing callback. */
  function Sent(w: Wrapper, param: seq<Value>): seq<Value> {
    if w.CallbackWrapper? then SplitCallback(param).0 else param
  }

  /** The completion a call through a wrapper stores under query id `id`. */
  function Stored(w: Wrapper, param: seq<Value>, id: nat): Completion {
    if w.CallbackWrapper? then SplitCallback(param).1 else Resolver(id)
  }

  /** What a generated wrapper gives back to its caller. */
  datatype Handle =
    | NoHandle                // a callback wrapper returns undefined
    | Pending(promise: nat)   // a promise wrapper's promise, awaiting the response
    | Rejected(error: string) // a promise wrapper's promise, rejected because posting threw

  /** The effects of a `response` envelope addressed to this controller. */
  function ResponseEvents(callbacks: map<int, Completion>, receiver: Receiver, e: Envelope, faulty: set<nat>): seq<Event>
    requires e.Response?
  {
    if e.queryId in callbacks then
      RunCompletion(callbacks[e.queryId], receiver, e.param, faulty, InMethod(e.methodName))
    else
      [Warned(InMethod(e.methodName))] // `undefined.apply` throws a TypeError, which is caught
  }

  /** The effects of a `notify` envelope: the name's handlers in order, or a caught TypeError. */
  function NotifyEvents(onNotify: map<string, seq<Handler>>, e: Envelope, faulty: set<nat>): seq<Event>
    requires e.Notify?
  {
    if e.name in onNotify then FanOut(onNotify[e.name], e.payload, faulty, InNotify(e.name))
    else [Warned(InNotify(e.name))]
  }

  /**
   * The `forEach` over a name's handlers inside one `try`: each handler runs
   * with the payload in registration order, and the first one that throws is
   * reported and ends the loop.
   */
  method RunHandlers(hs: seq<Handler>, payload: Value, faulty: set<nat>, site: Site) returns (ran: seq<Event>)
    ensures ran == FanOut(hs, payload, faulty, site)
  {
    ran := [];
    var rest := hs;
    while rest != []
      invariant ran + FanOut(rest, payload, faulty, site) == FanOut(hs, payload, faulty, site)
    {
      var h := rest[0];
      if Throws(h, faulty) {
        assert FanOut(rest, payload, faulty, site) == RunHandler(h, payload) + [Warned(site)];
        ran := ran + (RunHandler(h, payload) + [Warned(site)]);
        break;
      }
      var tail := FanOut(rest[1..], payload, faulty, site);
      assert FanOut(rest, payload, faulty, site) == RunHandler(h, payload) + tail;
      assert ran + (RunHandler(h, payload) + tail) == (ran + RunHandler(h, payload)) + tail;
      ran := ran + RunHandler(h, payload);
      rest := rest[1..];
    }
  }

  /** A controller instance created by `createInvoker`. */
  class Invoker {
    const uuid: Token
    const callbacker: Value          // `thisObject`: the receiver of callbacks
    const syncType: SyncStyle
    var queryId: nat
    var callbacks: map<int, Completion>
    var onNotify: map<string, seq<Handler>>
    var prototype: map<string, Wrapper>
    var outbox: seq<Envelope>
    var log: seq<Event>

    /**
     * Every pending id was issued before the counter, the calls on the
     * channel carry strictly increasing ids below the counter, every
     * registered name has a handler, and each wrapper is for its own name.
     */
    ghost predicate Valid()
      reads this
    {
      && (forall id :: id in callbacks ==> 0 <= id < queryId)
      && StrictlyIncreasing(CallIds(outbox))
      && IdsBelow(CallIds(outbox), queryId)
      && (forall name :: name in onNotify ==> onNotify[name] != [])
      && (forall name :: name in prototype ==> prototype[name].methodName == name)
    }

    /**
     * `createInvoker`: installs one wrapper per client method name and one
     * handler per entry of `notifyHandlers`, run with `thisObject` as receiver.
     */
    constructor (uuid: Token, methodNames: seq<string>, syncType: SyncStyle,
                 thisObject: Value, notifyHandlers: map<string, Value>)
      ensures Valid()
      ensures this.uuid == uuid && callbacker == thisObject && this.syncType == syncType
      ensures queryId == 0 && callbacks == map[] && outbox == [] && log == []
      ensures prototype.Keys == set name | name in methodNames
      ensures forall name :: name in methodNames ==> prototype[name] == WrapperFor(syncType, name)
      ensures onNotify.Keys == notifyHandlers.Keys
      ensures forall key :: key in onNotify ==> onNotify[key] == [Handler(notifyHandlers[key], Caller(thisObject))]
    {
      var installed: map<string, Wrapper> := map[];
      for i := 0 to |methodNames|
        invariant installed.Keys == set name | name in methodNames[..i]
        invariant forall name :: name in methodNames[..i] ==> installed[name] == WrapperFor(syncType, name)
      {
        assert methodNames[..i + 1] == methodNames[..i] + [methodNames[i]];
        installed := installed[methodNames[i] := WrapperFor(syncType, methodNames[i])];
      }
      assert methodNames[..|methodNames|] == methodNames;

      var registry: map<string, seq<Handler>> := map[];
      var remaining := notifyHandlers.Keys;
      while remaining != {}
        invariant remaining <= notifyHandlers.Keys
        invariant registry.Keys == notifyHandlers.Keys - remaining
        invariant forall key :: key in registry ==> registry[key] == [Handler(notifyHandlers[key], Caller(thisObject))]
        decreases remaining
      {
        var key :| key in remaining;
        // `_onNotify` starts empty and each key is visited once, so the list is always created here
        registry := registry[key := []];
        registry := registry[key := registry[key] + [Handler(notifyHandlers[key], Caller(thisObject))]];
        remaining := remaining - {key};
      }

      this.uuid := uuid;
      callbacker := thisObject;
      this.syncType := syncType;
      queryId := 0;
      callbacks := map[];
      onNotify := registry;
      prototype := installed;
      outbox := [];
      log := [];
    }

    /**
     * A callback wrapper call: takes the next query id, stores the trailing
     * function argument (or a no-op) under it, and posts one call envelope
     * with the remaining arguments. Posting a function value throws
     * `DataCloneError` to the caller after the id and entry were taken.
     */
    method CallWithCallback(methodName: string, param: seq<Value>) returns (r: Result<Handle>)
      requires Valid()
      modifies this
      ensures Valid()
      ensures queryId == old(queryId) + 1
      ensures old(queryId) !in old(callbacks)
      ensures callbacks == old(callbacks)[old(queryId) := SplitCallback(param).1]
      ensures AllCloneable(SplitCallback(param).0) ==>
        r == Ok(NoHandle) &&
        outbox == old(outbox) + [Call(methodName, SplitCallback(param).0, Some(uuid), old(queryId))]
      ensures !AllCloneable(SplitCallback(param).0) ==> r == Err(DataCloneError) && outbox == old(outbox)
      ensures onNotify == old(onNotify) && prototype == old(prototype) && log == old(log)
    {
      var id := queryId;
      queryId := queryId + 1;
      var (sent, completion) := SplitCallback(param);
      callbacks := callbacks[id := completion];
      if AllCloneable(sent) {
        var e := Call(methodName, sent, Some(uuid), id);
        SendFreshCallKeepsIdsIncreasing(outbox, e, id);
        outbox := outbox + [e];
        r := Ok(NoHandle);
      } else {
        r := Err(DataCloneError);
      }
    }

    /**
     * A promise wrapper call: takes the next query id, stores the resolver
     * of the returned promise under it, and posts one call envelope with all
     * arguments. When posting throws, the promise is rejected instead; the
     * resolver stays in the table.
     */
    method CallWithPromise(methodName: string, param: seq<Value>) returns (h: Handle)
      requires Valid()
      modifies this
      ensures Valid()
      ensures queryId == old(queryId) + 1
      ensures old(queryId) !in old(callbacks)
      ensures callbacks == old(callbacks)[old(queryId) := Resolver(old(queryId))]
      ensures AllCloneable(param) ==>
        h == Pending(old(queryId)) &&
        outbox == old(outbox) + [Call(methodName, param, Some(uuid), old(queryId))]
      ensures !AllCloneable(param) ==> h == Rejected(DataCloneError) && outbox == old(outbox)
      ensures onNotify == old(onNotify) && prototype == old(prototype) && log == old(log)
    {
      var id := queryId;
      queryId := queryId + 1;
      callbacks := callbacks[id := Resolver(id)];
      if AllCloneable(param) {
        var e := Call(methodName, param, Some(uuid), id);
        SendFreshCallKeepsIdsIncreasing(outbox, e, id);
        outbox := outbox + [e];
        h := Pending(id);
      } else {
        h := Rejected(DataCloneError);
      }
    }

    /**
     * Calling an installed wrapper: the call envelope, when one is posted,
     * names the wrapper's method and carries the fresh id.
     */
    method Invoke(name: string, param: seq<Value>) returns (r: Result<Handle>)
      requires Valid() && name in prototype
      modifies this
      ensures Valid()
      ensures queryId == old(queryId) + 1
      ensures old(queryId) !in old(callbacks)
      ensures callbacks == old(callbacks)[old(queryId) := Stored(old(prototype[name]), param, old(queryId))]
      ensures AllCloneable(Sent(old(prototype[name]), param)) ==>
        outbox == old(outbox) + [Call(name, Sent(old(prototype[name]), param), Some(uuid), old(queryId))] &&
        r == Ok(if old(prototype[name]).CallbackWrapper? then NoHandle else Pending(old(queryId)))
      ensures !AllCloneable(Sent(old(prototype[name]), param)) ==>
        outbox == old(outbox) &&
        r == (if old(prototype[name]).CallbackWrapper? then Err(DataCloneError) else Ok(Rejected(DataCloneError)))
      ensures onNotify == old(onNotify) && prototype == old(prototype) && log == old(log)
    {
      match prototype[name]
      case CallbackWrapper(m) =>
        r := CallWithCallback(m, param);
      case PromiseWrapper(m) =>
        var h := CallWithPromise(m, param);
        r := Ok(h);
    }

    /**
     * `subscribe`: a non-function handler throws; otherwise the handler,
     * run with the bridge as receiver, is appended to the name's list.
     * An already registered name is not an error.
     */
    method Subscribe(name: string, handler: Value) returns (r: Result<()>)
      requires Valid()
      modifies this
      ensures Valid()
      ensures r.Ok? <==> IsFunction(handler)
      ensures r.Err? ==> onNotify == old(onNotify)
      ensures r.Ok? ==> onNotify == old(onNotify)[name :=
        (if name in old(onNotify) then old(onNotify)[name] else []) + [Handler(handler, Bridge)]]
      ensures queryId == old(queryId) && callbacks == old(callbacks) && outbox == old(outbox)
      ensures log == old(log) && prototype == old(prototype)
    {
      if !Truthy(handler) || !IsFunction(handler) {
        return Err("Could not subscribe to '" + name + "' with the handler of non-function");
      }
      if name !in onNotify {
        onNotify := onNotify[name := []];
      }
      onNotify := onNotify[name := onNotify[name] + [Handler(handler, Bridge)]];
      r := Ok(());
    }

    /**
     * `onReceiveWorkerMessage`. A response for another controller changes
     * nothing. A response for this one runs the stored completion with the
     * response's `param` list (a missing entry is a caught TypeError) and
     * then deletes the entry. A notification runs the name's handlers in
     * order. A message without a `type` is ignored.
     */
    method OnReceiveWorkerMessage(e: Envelope, faulty: set<nat>)
      requires Valid()
      modifies this
      ensures Valid()
      ensures e.Response? && e.uuid != Some(uuid) ==> callbacks == old(callbacks) && log == old(log)
      ensures e.Response? && e.uuid == Some(uuid) ==>
        callbacks == old(callbacks) - {e.queryId} &&
        log == old(log) + ResponseEvents(old(callbacks), Caller(callbacker), e, faulty)
      ensures e.Notify? ==> callbacks == old(callbacks) && log == old(log) + NotifyEvents(onNotify, e, faulty)
      ensures e.Call? ==> callbacks == old(callbacks) && log == old(log)
      ensures queryId == old(queryId) && onNotify == old(onNotify) && outbox == old(outbox)
      ensures prototype == old(prototype)
    {
      match e
      case Response(u, id, m, param) =>
        if u != Some(uuid) {
          return;
        }
        if id in callbacks {
          log := log + RunCompletion(callbacks[id], Caller(callbacker), param, faulty, InMethod(m));
        } else {
          log := log + [Warned(InMethod(m))];
        }
        callbacks := callbacks - {id};
      case Notify(name, payload) =>
        if name !in onNotify {
          log := log + [Warned(InNotify(name))];
          return;
        }
        var ran := RunHandlers(onNotify[name], payload, faulty, InNotify(name));
        log := log + ran;
      case Call(_, _, _, _) =>
    }
  }

  /** A promise result waiting to settle, with the request fields its response echoes. */
  datatype Reply = Reply(uuid: Option<Token>, queryId: int, methodName: string, settlement: Settlement)

  /** What the executor does at once with an inbound message. */
  datatype Step = Post(env: Envelope) | Defer(reply: Reply) | Warn(site: Site)

  /** The `response` envelope `returnResult` posts for a request and a result value. */
  function ResponseTo(e: Envelope, value: Value): (r: Envelope)
    requires !e.Notify?
    ensures r.Response? && r.uuid == e.uuid && r.queryId == e.queryId && r.methodName == e.methodName
    ensures r.param == [value]
  {
    Response(e.uuid, e.queryId, e.methodName, [value])
  }

  /**
   * `onReceiveClientMessage` up to the point where it returns: a plain
   * result is posted at once (posting a function value throws and is
   * caught), a promise result is deferred, and a missing method or a throw
   * is only logged.
   */
  function Execute(client: ClientTable, e: Envelope): (s: Step)
    ensures s.Post? ==>
      !e.Notify? && e.methodName in client && client[e.methodName](e.param).Returned? &&
      s.env == ResponseTo(e, client[e.methodName](e.param).value)
    ensures s.Post? <==>
      !e.Notify? && e.methodName in client &&
      client[e.methodName](e.param).Returned? && Cloneable(client[e.methodName](e.param).value)
    ensures s.Defer? <==> !e.Notify? && e.methodName in client && client[e.methodName](e.param).Promised?
    ensures s.Defer? ==> s.reply == Reply(e.uuid, e.queryId, e.methodName, client[e.methodName](e.param).settlement)
    ensures !e.Notify? && (e.methodName !in client || client[e.methodName](e.param).Threw?) ==>
      s == Warn(InMethod(e.methodName))
  {
    if e.Notify? then Warn(InUnnamedMethod)
    else if e.methodName !in client then Warn(InMethod(e.methodName))
    else match client[e.methodName](e.param)
      case Returned(v) => if Cloneable(v) then Post(ResponseTo(e, v)) else Warn(InMethod(e.methodName))
      case Threw => Warn(InMethod(e.methodName))
      case Promised(s) => Defer(Reply(e.uuid, e.queryId, e.methodName, s))
  }

  /** What happens when a deferred promise settles: fulfilment posts the response, rejection is logged. */
  function SettleStep(r: Reply): (s: Step)
    ensures s.Post? <==> r.settlement.Fulfils? && Cloneable(r.settlement.value)
    ensures s.Post? ==> s.env == Response(r.uuid, r.queryId, r.methodName, [r.settlement.value])
    ensures !s.Post? ==> s == Warn(InMethod(r.methodName))
  {
    match r.settlement
    case Fulfils(v) =>
      if Cloneable(v) then Post(Response(r.uuid, r.queryId, r.methodName, [v])) else Warn(InMethod(r.methodName))
    case Rejects => Warn(InMethod(r.methodName))
  }

  /** A worker-side instance created by `createWorker` around a client object. */
  class Executor {
    const client: ClientTable
    var outbox: seq<Envelope>
    var log: seq<Event>
    var deferred: seq<Reply>

    constructor (client: ClientTable)
      ensures this.client == client && outbox == [] && log == [] && deferred == []
    {
      this.client := client;
      outbox := [];
      log := [];
      deferred := [];
    }

    /**
     * `onReceiveClientMessage`: exactly one of posting one response,
     * deferring one promise result, or logging one warning.
     */
    method OnReceiveClientMessage(e: Envelope)
      modifies this
      ensures Execute(client, e).Post? ==>
        outbox == old(outbox) + [Execute(client, e).env] && deferred == old(deferred) && log == old(log)
      ensures Execute(client, e).Defer? ==>
        deferred == old(deferred) + [Execute(client, e).reply] && outbox == old(outbox) && log == old(log)
      ensures Execute(client, e).Warn? ==>
        log == old(log) + [Warned(Execute(client, e).site)] && outbox == old(outbox) && deferred == old(deferred)
    {
      var step := Execute(client, e);
      match step
      case Post(env) => outbox := outbox + [env];
      case Defer(reply) => deferred := deferred + [reply];
      case Warn(site) => log := log + [Warned(site)];
    }

    /**
     * A deferred promise settles (in any order): it leaves the queue, and
     * its response is posted only if it was fulfilled.
     */
    method Settle(i: nat)
      requires i < |deferred|
      modifies this
      ensures deferred == old(deferred[..i] + deferred[i + 1..])
      ensures SettleStep(old(deferred[i])).Post? ==>
        outbox == old(outbox) + [SettleStep(old(deferred[i])).env] && log == old(log)
      ensures SettleStep(old(deferred[i])).Warn? ==>
        log == old(log) + [Warned(SettleStep(old(deferred[i])).site)] && outbox == old(outbox)
    {
      var step := SettleStep(deferred[i]);
      deferred := deferred[..i] + deferred[i + 1..];
      match step
      case Post(env) => outbox := outbox + [env];
      case Warn(site) => log := log + [Warned(site)];
      case Defer(_) =>
    }

    /** `postNotify`: one notification envelope, unless the payload cannot be cloned. */
    method PostNotify(name: string, payload: Value) returns (r: Result<()>)
      modifies this
      ensures r.Ok? <==> Cloneable(payload)
      ensures r.Ok? ==> outbox == old(outbox) + [Notify(name, payload)]
      ensures r.Err? ==> outbox == old(outbox) && r.error == DataCloneError
      ensures log == old(log) && deferred == old(deferred)
    {
      if Cloneable(payload) {
        outbox := outbox + [Notify(name, payload)];
        r := Ok(());
      } else {
        r := Err(DataCloneError);
      }
    }
  }

  /**
   * One call with a trailing callback, end to end: the executor receives
   * every other argument, and the response runs the callback once with the
   * result and leaves no pending entry.
   */
  method CallbackRoundTrip(token: Token, thisObject: Value, name: string, args: seq<Value>, f: nat, result: Value)
    returns (received: seq<Value>, log: seq<Event>, pending: map<int, Completion>)
    requires AllCloneable(args) && Cloneable(result)
    ensures received == args
    ensures log == [Invoked(f, Caller(thisObject), [result])]
    ensures pending == map[]
  {
    var invoker := new Invoker(token, [name], CallbackStyle, thisObject, map[]);
    SplitRejoinCallback(args, f);
    var r := invoker.CallWithCallback(name, args + [Fn(f)]);
    received := invoker.outbox[0].param;
    var executor := new Executor(map[name := (_ => Returned(result))]);
    executor.OnReceiveClientMessage(invoker.outbox[0]);
    invoker.OnReceiveWorkerMessage(executor.outbox[0], {});
    log, pending := invoker.log, invoker.callbacks;
  }

  /**
   * The executor's side of two calls to a method that returns a promise:
   * the second promise settles first, so its response is posted first, and
   * each response echoes its own request.
   */
  method AnswerSecondFirst(token: Token, name: string, first: seq<Value>, second: seq<Value>,
                           value: seq<Value> -> Value)
    returns (answers: seq<Envelope>)
    requires Cloneable(value(first)) && Cloneable(value(second))
    ensures answers == [Response(Some(token), 1, name, [value(second)]), Response(Some(token), 0, name, [value(first)])]
  {
    var client: ClientTable := map[name := (a => Promised(Fulfils(value(a))))];
    var executor := new Executor(client);
    var c0, c1 := Call(name, first, Some(token), 0), Call(name, second, Some(token), 1);
    var r0, r1 := Reply(Some(token), 0, name, Fulfils(value(first))), Reply(Some(token), 1, name, Fulfils(value(second)));
    assert Execute(client, c0) == Defer(r0);
    executor.OnReceiveClientMessage(c0);
    assert Execute(client, c1) == Defer(r1);
    executor.OnReceiveClientMessage(c1);
    assert executor.deferred == [r0, r1];
    executor.Settle(1);
    assert executor.deferred == [r0];
    executor.Settle(0);
    answers := executor.outbox;
  }

  /**
   * Two promise calls whose responses arrive in the reverse order: each
   * promise is fulfilled with its own result, and no entry is left pending.
   */
  method PromisesSettleOutOfOrder(token: Token, name: string, first: seq<Value>, second: seq<Value>,
                                  value: seq<Value> -> Value)
    returns (h0: Handle, h1: Handle, log: seq<Event>, pending: map<int, Completion>)
    requires AllCloneable(first) && AllCloneable(second)
    requires Cloneable(value(first)) && Cloneable(value(second))
    ensures h0 == Pending(0) && h1 == Pending(1)
    ensures log == [Fulfilled(1, value(second)), Fulfilled(0, value(first))]
    ensures pending == map[]
  {
    var invoker := new Invoker(token, [name], PromiseStyle, Undefined, map[]);
    h0 := invoker.CallWithPromise(name, first);
    h1 := invoker.CallWithPromise(name, second);
    assert invoker.outbox == [Call(name, first, Some(token), 0), Call(name, second, Some(token), 1)];
    assert invoker.callbacks == map[0 := Resolver(0), 1 := Resolver(1)];
    var answers := AnswerSecondFirst(token, name, first, second, value);
    invoker.OnReceiveWorkerMessage(answers[0], {});
    assert invoker.log == [Fulfilled(1, value(second))];
    assert invoker.callbacks == map[0 := Resolver(0)];
    invoker.OnReceiveWorkerMessage(answers[1], {});
    log, pending := invoker.log, invoker.callbacks;
  }

  /**
   * A name registered by `createInvoker` accepts further handlers: both run
   * on the next notification, the registered one first, each with its own receiver.
   */
  method SubscriptionIsAdditive(token: Token, thisObject: Value, name: string, h0: nat, h1: nat, payload: Value)
    returns (second: Result<()>, registered: seq<Handler>, log: seq<Event>)
    ensures second.Ok?
    ensures registered == [Handler(Fn(h0), Caller(thisObject)), Handler(Fn(h1), Bridge)]
    ensures log == [Invoked(h0, Caller(thisObject), [payload]), Invoked(h1, Bridge, [payload])]
  {
    var invoker := new Invoker(token, [], CallbackStyle, thisObject, map[name := Fn(h0)]);
    assert name in invoker.onNotify && invoker.onNotify[name] == [Handler(Fn(h0), Caller(thisObject))];
    second := invoker.Subscribe(name, Fn(h1));
    registered := invoker.onNotify[name];
    assert registered == [Handler(Fn(h0), Caller(thisObject)), Handler(Fn(h1), Bridge)];
    FanOutRunsAll(registered, payload, {}, InNotify(name));
    invoker.OnReceiveWorkerMessage(Notify(name, payload), {});
    log := invoker.log;
  }
}
