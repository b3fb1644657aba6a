/**
 * Vocabulary shared by both revisions of the bridge: the envelopes on the
 * channel, the completions the controller keeps per call, notification
 * handlers, the observable effects of running user code, and the
 * specification functions the controller and executor classes are proved
 * against.
 */
module Protocol {
  import opened Values

  /** The per-controller channel token (a uuid string in the source). */
  type Token = string

  /** How generated wrappers hand back the result. */
  datatype SyncStyle = CallbackStyle | PromiseStyle

  /** `TransWorker.SyncTypeCallback` is the built-in `Function`, `TransWorker.SyncTypePromise` the built-in `Promise`. */
  const SyncTypeCallback: Value := Fn(0)
  const SyncTypePromise: Value := Fn(1)

  /** The JavaScript value that stands for a synchronisation style. */
  function StyleValue(s: SyncStyle): (v: Value)
    ensures v == SyncTypeCallback || v == SyncTypePromise
    ensures (v == SyncTypeCallback) <==> s == CallbackStyle
  {
    match s
    case CallbackStyle => SyncTypeCallback
    case PromiseStyle => SyncTypePromise
  }

  /**
   * One message on the channel. A call carries no `type` field; the legacy
   * revision sends no `uuid`, which is `None` here.
   */
  datatype Envelope =
    | Call(methodName: string, param: seq<Value>, uuid: Option<Token>, queryId: int)
    | Response(uuid: Option<Token>, queryId: int, methodName: string, param: seq<Value>)
    | Notify(name: string, payload: Value)

  /** What the controller stores under a query id. */
  datatype Completion =
    | Callback(fid: nat)     // the caller's trailing function argument
    | NoOp                   // `()=>{}` stored when no callback was given
    | Resolver(promise: nat) // `result => resolve(result)` of the wrapper's promise

  /** The `this` a user closure runs with. */
  datatype Receiver = Bridge | Caller(thisObject: Value)

  /** A registered notification handler: the value to call and its receiver. */
  datatype Handler = Handler(target: Value, receiver: Receiver)

  /** Where a caught exception was reported by `console.warn`. */
  datatype Site =
    | InMethod(methodName: string)
    | InNotify(name: string)
    | InUnnamedMethod   // a message without a `method` field reached the executor

  /** Observable effects: user closures run, promises settled, warnings logged. */
  datatype Event =
    | Invoked(fid: nat, receiver: Receiver, args: seq<Value>)
    | Fulfilled(promise: nat, result: Value)
    | Warned(site: Site)

  /** How a promise returned by a client method eventually settles. */
  datatype Settlement = Fulfils(value: Value) | Rejects

  /** What a client method does when called with some arguments. */
  datatype Outcome = Returned(value: Value) | Threw | Promised(settlement: Settlement)

  /** The client object's methods, by name. */
  type ClientTable = map<string, seq<Value> -> Outcome>

  /** A wrapper installed on the bridge's prototype for a client method. */
  datatype Wrapper = CallbackWrapper(methodName: string) | PromiseWrapper(methodName: string)

  // ---------------------------------------------------------------------------
  // Callback stripping (lib/transworker.js:186-190, index.js:173-177)
  // ---------------------------------------------------------------------------

  /** Puts a stripped callback back at the end of the argument list. */
  function Rejoin(sent: seq<Value>, c: Completion): seq<Value> {
    match c
    case Callback(f) => sent + [Fn(f)]
    case _ => sent
  }

  /**
   * Splits a wrapper's arguments into what is sent and what is stored: a
   * trailing function becomes the callback, otherwise a no-op is stored and
   * every argument is sent.
   */
  function SplitCallback(param: seq<Value>): (r: (seq<Value>, Completion))
    ensures Rejoin(r.0, r.1) == param
    ensures r.1.Callback? || r.1.NoOp?
    ensures r.1.NoOp? <==> (param == [] || !IsFunction(param[|param| - 1]))
    ensures r.1.NoOp? ==> r.0 == param
  {
    if |param| > 0 && IsFunction(param[|param| - 1]) then
      (param[..|param| - 1], Callback(param[|param| - 1].fid))
    else
      (param, NoOp)
  }

  /** Splitting undoes rejoining a callback: exactly one trailing function is taken. */
  lemma SplitRejoinCallback(sent: seq<Value>, f: nat)
    ensures SplitCallback(Rejoin(sent, Callback(f))) == (sent, Callback(f))
  {
    assert (sent + [Fn(f)])[..|sent|] == sent;
  }

  /** Only the last argument can be taken: every earlier argument is sent, in order. */
  lemma SplitKeepsLeadingArguments(param: seq<Value>, k: nat)
    requires k + 1 < |param|
    ensures k < |SplitCallback(param).0| && SplitCallback(param).0[k] == param[k]
  {
  }

  // ---------------------------------------------------------------------------
  // Running completions and notification handlers
  // ---------------------------------------------------------------------------

  /**
   * The effects of applying a stored completion to a response's `param`
   * list; a callback in `faulty` throws, which is caught and logged at `site`.
   */
  function RunCompletion(c: Completion, receiver: Receiver, args: seq<Value>, faulty: set<nat>, site: Site): (r: seq<Event>)
    ensures c.NoOp? ==> r == []
    ensures c.Callback? ==> |r| >= 1 && r[0] == Invoked(c.fid, receiver, args)
    ensures c.Callback? ==> (|r| == 2 <==> c.fid in faulty)
    ensures c.Callback? ==> |r| <= 2
    ensures c.Callback? && c.fid in faulty ==> r[1] == Warned(site)
    ensures c.Resolver? ==> r == [Fulfilled(c.promise, if args == [] then Undefined else args[0])]
  {
    match c
    case NoOp => []
    case Callback(f) => [Invoked(f, receiver, args)] + (if f in faulty then [Warned(site)] else [])
    case Resolver(p) => [Fulfilled(p, if args == [] then Undefined else args[0])]
  }

  /** Calling a handler throws when its target is not a function or the function throws. */
  predicate Throws(h: Handler, faulty: set<nat>) {
    !IsFunction(h.target) || h.target.fid in faulty
  }

  /** The closure call a handler makes with a notification's payload, if its target is a function. */
  function RunHandler(h: Handler, payload: Value): seq<Event> {
    if IsFunction(h.target) then [Invoked(h.target.fid, h.receiver, [payload])] else []
  }

  /**
   * One `forEach` over a handler list inside one `try`: handlers run in
   * order, and the first one that throws is logged and ends the loop.
   */
  function FanOut(hs: seq<Handler>, payload: Value, faulty: set<nat>, site: Site): seq<Event>
    decreases |hs|
  {
    if hs == [] then []
    else if Throws(hs[0], faulty) then RunHandler(hs[0], payload) + [Warned(site)]
    else RunHandler(hs[0], payload) + FanOut(hs[1..], payload, faulty, site)
  }

  /** When no handler throws, every handler runs once, in registration order, with the payload. */
  lemma {:induction false} FanOutRunsAll(hs: seq<Handler>, payload: Value, faulty: set<nat>, site: Site)
    requires forall k :: 0 <= k < |hs| ==> !Throws(hs[k], faulty)
    ensures |FanOut(hs, payload, faulty, site)| == |hs|
    ensures forall k :: 0 <= k < |hs| ==>
      [FanOut(hs, payload, faulty, site)[k]] == RunHandler(hs[k], payload) != []
  {
    if hs != [] {
      FanOutRunsAll(hs[1..], payload, faulty, site);
      var rest := FanOut(hs[1..], payload, faulty, site);
      assert FanOut(hs, payload, faulty, site) == RunHandler(hs[0], payload) + rest;
      forall k | 1 <= k < |hs|
        ensures [FanOut(hs, payload, faulty, site)[k]] == RunHandler(hs[k], payload) != []
      {
        assert hs[1..][k - 1] == hs[k];
      }
    }
  }

  /**
   * A throwing handler stops the rest: the effects are those of the handlers
   * before it, its own call, and one warning; no later handler runs.
   */
  lemma {:induction false} FanOutStopsAtThrow(hs: seq<Handler>, j: nat, payload: Value, faulty: set<nat>, site: Site)
    requires j < |hs|
    requires forall k :: 0 <= k < j ==> !Throws(hs[k], faulty)
    requires Throws(hs[j], faulty)
    ensures FanOut(hs, payload, faulty, site) ==
      FanOut(hs[..j], payload, faulty, site) + RunHandler(hs[j], payload) + [Warned(site)]
  {
    if j > 0 {
      FanOutStopsAtThrow(hs[1..], j - 1, payload, faulty, site);
      assert hs[1..][..j - 1] == hs[..j][1..];
      assert hs[1..][j - 1] == hs[j];
    }
  }

  // ---------------------------------------------------------------------------
  // Query ids on an outbound channel
  // ---------------------------------------------------------------------------

  /** The query ids of the calls on a channel, in send order. */
  function CallIds(out: seq<Envelope>): seq<int> {
    if out == [] then []
    else CallIds(out[..|out| - 1]) + (if out[|out| - 1].Call? then [out[|out| - 1].queryId] else [])
  }

  predicate StrictlyIncreasing(s: seq<int>) {
    forall i, j :: 0 <= i < j < |s| ==> s[i] < s[j]
  }

  /** Every query id on the channel is below `bound`. */
  predicate IdsBelow(s: seq<int>, bound: int) {
    forall i :: 0 <= i < |s| ==> s[i] < bound
  }

  /** Sending a call whose id exceeds every earlier one keeps the ids increasing. */
  lemma {:induction false} SendFreshCallKeepsIdsIncreasing(out: seq<Envelope>, e: Envelope, bound: int)
    requires StrictlyIncreasing(CallIds(out)) && IdsBelow(CallIds(out), bound)
    requires e.Call? && e.queryId == bound
    ensures CallIds(out + [e]) == CallIds(out) + [bound]
    ensures StrictlyIncreasing(CallIds(out + [e])) && IdsBelow(CallIds(out + [e]), bound + 1)
  {
    assert (out + [e])[..|out|] == out;
  }
}
