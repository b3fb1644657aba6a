/**
 * The earlier revision of the bridge (index.js): no channel token on
 * calls or responses, one handler per notification name with an exclusive
 * `subscribe`, callback wrappers only, and an executor that answers only
 * synchronous results.
 */
module LegacyTransWorker {
  import opened Values
  import opened Protocol
  import TransWorker

  /** The controller created by `TransWorker.createInvoker`. */
  class LegacyInvoker {
    const callbacker: Value          // `thisObject`: the receiver of callbacks and notify handlers
    var queryId: nat
    var callbacks: map<int, Completion>
    var onNotify: map<string, Handler>
    var prototype: map<string, Wrapper>
    var outbox: seq<Envelope>
    var log: seq<Event>

    /** Pending ids are below the counter, and posted call ids increase strictly below it. */
    ghost predicate Valid()
      reads this
    {
      && (forall id :: id in callbacks ==> 0 <= id < queryId)
      && StrictlyIncreasing(CallIds(outbox))
      && IdsBelow(CallIds(outbox), queryId)
    }

    /**
     * `createInvoker`: wrappers for the client's method names, an empty call
     * table, and one handler per entry of `notifyHandlers`.
     */
    constructor (methodNames: seq<string>, thisObject: Value, notifyHandlers: map<string, Value>)
      ensures Valid()
      ensures callbacker == thisObject
      ensures queryId == 0 && callbacks == map[] && outbox == [] && log == []
      ensures prototype.Keys == set name | name in methodNames
      ensures forall name :: name in methodNames ==> prototype[name] == CallbackWrapper(name)
      ensures onNotify.Keys == notifyHandlers.Keys
      ensures forall key :: key in onNotify ==> onNotify[key] == Handler(notifyHandlers[key], Caller(thisObject))
    {
      var installed := CreateWrappers(map[], methodNames);
      var registry: map<string, Handler> := map[];
      var remaining := notifyHandlers.Keys;
      while remaining != {}
        invariant remaining <= notifyHandlers.Keys
        invariant registry.Keys == notifyHandlers.Keys - remaining
        invariant forall key :: key in registry ==> registry[key] == Handler(notifyHandlers[key], Caller(thisObject))
        decreases remaining
      {
        var key :| key in remaining;
        registry := registry[key := Handler(notifyHandlers[key], Caller(thisObject))];
        remaining := remaining - {key};
      }
      callbacker := thisObject;
      queryId := 0;
      callbacks := map[];
      onNotify := registry;
      prototype := installed;
      outbox := [];
      log := [];
    }

    /**
     * `createWrappers`, on the prototype's slots: one wrapper per name; a
     * repeated name overwrites the earlier slot, and other slots are kept.
     */
    static method CreateWrappers(slots: map<string, Wrapper>, methodNames: seq<string>)
      returns (installed: map<string, Wrapper>)
      ensures installed.Keys == slots.Keys + set name | name in methodNames
      ensures forall name :: name in methodNames ==> installed[name] == CallbackWrapper(name)
      ensures forall name :: name in slots && name !in methodNames ==> installed[name] == slots[name]
    {
      installed := slots;
      for i := 0 to |methodNames|
        invariant installed.Keys == slots.Keys + set name | name in methodNames[..i]
        invariant forall name :: name in methodNames[..i] ==> installed[name] == CallbackWrapper(name)
        invariant forall name :: name in slots && name !in methodNames[..i] ==> installed[name] == slots[name]
      {
        assert methodNames[..i + 1] == methodNames[..i] + [methodNames[i]];
        installed := installed[methodNames[i] := CallbackWrapper(methodNames[i])];
      }
      assert methodNames[..|methodNames|] == methodNames;
    }

    /**
     * `wrapper`: takes the next query id, stores the trailing function (or
     * a no-op) under it, and posts `{method, param, queryId}` without a
     * token; posting a function value throws after the id and entry were taken.
     */
    method Call(methodName: string, param: seq<Value>) returns (r: Result<()>)
      requires Valid()
      modifies this
      ensures Valid()
      ensures queryId == old(queryId) + 1
      ensures old(queryId) !in old(callbacks)
      ensures callbacks == old(callbacks)[old(queryId) := SplitCallback(param).1]
      ensures r.Ok? <==> AllCloneable(SplitCallback(param).0)
      ensures r.Ok? ==> outbox == old(outbox) + [Envelope.Call(methodName, SplitCallback(param).0, None, old(queryId))]
      ensures r.Err? ==> outbox == old(outbox) && r.error == DataCloneError
      ensures onNotify == old(onNotify) && prototype == old(prototype) && log == old(log)
    {
      var id := queryId;
      queryId := queryId + 1;
      var (sent, completion) := SplitCallback(param);
      callbacks := callbacks[id := completion];
      if AllCloneable(sent) {
        var e := Envelope.Call(methodName, sent, None, id);
        SendFreshCallKeepsIdsIncreasing(outbox, e, id);
        outbox := outbox + [e];
        r := Ok(());
      } else {
        r := Err(DataCloneError);
      }
    }

    /**
     * `subscribe`: throws for a non-function handler and for a name that
     * already has one (from `createInvoker` or an earlier `subscribe`);
     * otherwise registers the handler with the bridge as receiver.
     */
    method Subscribe(name: string, handler: Value) returns (r: Result<()>)
      requires Valid()
      modifies this
      ensures Valid()
      ensures r.Ok? <==> IsFunction(handler) && name !in old(onNotify)
      ensures r.Err? ==> onNotify == old(onNotify)
      ensures r.Ok? ==> onNotify == old(onNotify)[name := Handler(handler, Bridge)]
      ensures queryId == old(queryId) && callbacks == old(callbacks) && outbox == old(outbox)
      ensures log == old(log) && prototype == old(prototype)
    {
      if !Truthy(handler) || !IsFunction(handler) {
        return Err("Could not subscribe to '" + name + "' with the handler of non-function");
      }
      if name in onNotify {
        return Err("Could not subscribe to '" + name + "' because it already exists");
      }
      onNotify := onNotify[name := Handler(handler, Bridge)];
      r := Ok(());
    }

    /**
     * The `onmessage` handler: any response runs the entry under its query
     * id with its `param` list and then deletes the entry, whoever sent it;
     * a notification calls the name's single handler.
     */
    method OnMessage(e: Envelope, faulty: set<nat>)
      requires Valid()
      modifies this
      ensures Valid()
      ensures e.Response? ==>
        callbacks == old(callbacks) - {e.queryId} &&
        log == old(log) + TransWorker.ResponseEvents(old(callbacks), Caller(callbacker), e, faulty)
      ensures e.Notify? && e.name in onNotify ==>
        callbacks == old(callbacks) &&
        log == old(log) + FanOut([onNotify[e.name]], e.payload, faulty, InNotify(e.name))
      ensures e.Notify? && e.name !in onNotify ==>
        callbacks == old(callbacks) && log == old(log) + [Warned(InNotify(e.name))]
      ensures e.Call? ==> callbacks == old(callbacks) && log == old(log)
      ensures queryId == old(queryId) && onNotify == old(onNotify) && outbox == old(outbox)
      ensures prototype == old(prototype)
    {
      match e
      case Response(_, id, m, param) =>
        if id in callbacks {
          log := log + RunCompletion(callbacks[id], Caller(callbacker), param, faulty, InMethod(m));
        } else {
          log := log + [Warned(InMethod(m))];
        }
        callbacks := callbacks - {id};
      case Notify(name, payload) =>
        if name in onNotify {
          var h := onNotify[name];
          log := log + RunHandler(h, payload);
          if Throws(h, faulty) {
            log := log + [Warned(InNotify(name))];
          }
        } else {
          log := log + [Warned(InNotify(name))];
        }
      case Call(_, _, _, _) =>
    }
  }

  /** What the static `createWorker` is given: a constructor, or a client object. */
  datatype ClientArg = Constructor(prototypeMethods: ClientTable) | Instance(methods: ClientTable)

  /**
   * The response the legacy executor posts for a message, if any: only a
   * cloneable value returned synchronously is answered. A returned promise
   * is itself posted, which the structured clone refuses.
   */
  function LegacyAnswer(client: ClientTable, e: Envelope): (r: Option<Envelope>)
    ensures r.Some? <==>
      !e.Notify? && e.methodName in client &&
      client[e.methodName](e.param).Returned? && Cloneable(client[e.methodName](e.param).value)
    ensures r.Some? ==>
      r.value == Response(None, e.queryId, e.methodName, [client[e.methodName](e.param).value])
  {
    if e.Notify? || e.methodName !in client then None
    else match client[e.methodName](e.param)
      case Returned(v) => if Cloneable(v) then Some(Response(None, e.queryId, e.methodName, [v])) else None
      case _ => None
  }

  /**
   * The two executors agree on synchronous results, except that the legacy
   * response carries no token; on a promise result the current one defers
   * while the legacy one never answers.
   */
  lemma LegacyAnswersWhatCurrentPostsAtOnce(client: ClientTable, e: Envelope)
    ensures LegacyAnswer(client, e).Some? <==> TransWorker.Execute(client, e).Post?
    ensures LegacyAnswer(client, e).Some? ==>
      LegacyAnswer(client, e).value == TransWorker.Execute(client, e).env.(uuid := None)
    ensures TransWorker.Execute(client, e).Defer? ==> LegacyAnswer(client, e).None?
  {
  }

  /** The worker created by `createWorker`. */
  class LegacyExecutor {
    const client: ClientTable
    var outbox: seq<Envelope>
    var log: seq<Event>

    /**
     * The static `createWorker`: a constructor is instantiated first, whose
     * instance has the prototype's methods; an object is used as given.
     */
    constructor (c: ClientArg)
      ensures c.Constructor? ==> client == c.prototypeMethods
      ensures c.Instance? ==> client == c.methods
      ensures outbox == [] && log == []
    {
      client := match c
        case Constructor(p) => p
        case Instance(m) => m;
      outbox := [];
      log := [];
    }

    /** The `onmessage` handler: at most one response, otherwise one warning. */
    method OnMessage(e: Envelope)
      modifies this
      ensures LegacyAnswer(client, e).Some? ==>
        outbox == old(outbox) + [LegacyAnswer(client, e).value] && log == old(log)
      ensures LegacyAnswer(client, e).None? ==>
        outbox == old(outbox) &&
        log == old(log) + [Warned(if e.Notify? then InUnnamedMethod else InMethod(e.methodName))]
    {
      var answer := LegacyAnswer(client, e);
      match answer
      case Some(env) => outbox := outbox + [env];
      case None =>
        log := log + [Warned(if e.Notify? then InUnnamedMethod else InMethod(e.methodName))];
    }

    /** `postNotify`: one notification envelope, unless the payload cannot be cloned. */
    method PostNotify(name: string, payload: Value) returns (r: Result<()>)
      modifies this
      ensures r.Ok? <==> Cloneable(payload)
      ensures r.Ok? ==> outbox == old(outbox) + [Notify(name, payload)]
      ensures r.Err? ==> outbox == old(outbox) && r.error == DataCloneError
      ensures log == old(log)
    {
      if Cloneable(payload) {
        outbox := outbox + [Notify(name, payload)];
        r := Ok(());
      } else {
        r := Err(DataCloneError);
      }
    }
  }

  /**
   * Exclusive registration: a second handler for a name is refused and the
   * first stays the one registered under it.
   */
  method SecondSubscriptionRefused(name: string, h: nat, h2: nat)
    returns (first: Result<()>, second: Result<()>, registered: map<string, Handler>)
    ensures first.Ok? && second.Err?
    ensures registered == map[name := Handler(Fn(h), Bridge)]
  {
    var invoker := new LegacyInvoker([], Undefined, map[]);
    first := invoker.Subscribe(name, Fn(h));
    second := invoker.Subscribe(name, Fn(h2));
    registered := invoker.onNotify;
  }
}
