/**
 * `once` and `onceSpread` of addon/content/head.js over an abstract event
 * target: a set of method names (what `name in aTarget` sees) and, for each
 * of the three registration conventions and each event name, a list of
 * registered listeners.
 */
module Events {
  import opened Wrappers

  /** The JavaScript values these helpers pass around. */
  datatype Value = Undefined | Null | Bool(b: bool) | Num(n: int) | Str(s: string) | List(items: seq<Value>)

  /** The three add/remove method-name pairs `once` knows. */
  datatype Api = EventEmitter | Dom | ListenerList

  function AddMethod(api: Api): string
  {
    match api
    case EventEmitter => "on"
    case Dom => "addEventListener"
    case ListenerList => "addListener"
  }

  function RemoveMethod(api: Api): string
  {
    match api
    case EventEmitter => "off"
    case Dom => "removeEventListener"
    case ListenerList => "removeListener"
  }

  /** The order in which `once` probes the pairs. */
  const ProbeOrder: seq<Api> := [EventEmitter, Dom, ListenerList]

  /** Position of a pair in the probe order. */
  function Rank(api: Api): nat
  {
    match api
    case EventEmitter => 0
    case Dom => 1
    case ListenerList => 2
  }

  /** Both method names of the pair are present on the target. */
  predicate Supports(methods: set<string>, api: Api)
  {
    AddMethod(api) in methods && RemoveMethod(api) in methods
  }

  /** The supported pair that comes first in the probe order, if any. */
  function FirstSupported(methods: set<string>): (r: Option<Api>)
    ensures r.Some? ==> Supports(methods, r.value)
  {
    if Supports(methods, EventEmitter) then Some(EventEmitter)
    else if Supports(methods, Dom) then Some(Dom)
    else if Supports(methods, ListenerList) then Some(ListenerList)
    else None
  }

  /** `FirstSupported` picks a supported pair that no earlier pair pre-empts, and only such a pair. */
  lemma FirstSupportedIsFirst(methods: set<string>, api: Api)
    ensures FirstSupported(methods) == Some(api)
      <==> Supports(methods, api) && forall b :: Rank(b) < Rank(api) ==> !Supports(methods, b)
  {
  }

  /** `FirstSupported` finds nothing exactly when no pair is supported. */
  lemma FirstSupportedNone(methods: set<string>)
    ensures FirstSupported(methods) == None <==> forall api :: !Supports(methods, api)
  {
  }

  /** A probe that reaches a supported pair, past unsupported ones, has found `FirstSupported`. */
  lemma ProbeFindsFirst(methods: set<string>, i: nat)
    requires i < |ProbeOrder| && Supports(methods, ProbeOrder[i])
    requires forall j :: 0 <= j < i ==> !Supports(methods, ProbeOrder[j])
    ensures FirstSupported(methods) == Some(ProbeOrder[i])
  {
    assert ProbeOrder[0] == EventEmitter && ProbeOrder[1] == Dom && ProbeOrder[2] == ListenerList;
  }

  /** A probe that passes every pair has found none. */
  lemma ProbeFindsNone(methods: set<string>)
    requires forall j :: 0 <= j < |ProbeOrder| ==> !Supports(methods, ProbeOrder[j])
    ensures FirstSupported(methods) == None
  {
    assert ProbeOrder[0] == EventEmitter && ProbeOrder[1] == Dom && ProbeOrder[2] == ListenerList;
  }

  /** A registration: the handler function and the capture flag it was added with. */
  datatype Listener = Listener(handler: object, capture: bool)

  /** The listeners registered through `api` for `eventName`. */
  function Lookup(listeners: map<(Api, string), seq<Listener>>, api: Api, eventName: string): seq<Listener>
  {
    if (api, eventName) in listeners then listeners[(api, eventName)] else []
  }

  /** A listener list after `remove(eventName, handler, capture)`: every matching entry is gone. */
  function Without(ls: seq<Listener>, l: Listener): (r: seq<Listener>)
  {
    if ls == [] then []
    else if ls[0] == l then Without(ls[1..], l)
    else [ls[0]] + Without(ls[1..], l)
  }

  /** Removing a listener that is not registered changes nothing. */
  lemma {:induction false} WithoutAbsent(ls: seq<Listener>, l: Listener)
    requires l !in ls
    ensures Without(ls, l) == ls
  {
    if ls != [] {
      WithoutAbsent(ls[1..], l);
    }
  }

  /** Removing what was just appended, and was not there before, restores the list. */
  lemma {:induction false} WithoutAppended(ls: seq<Listener>, l: Listener)
    requires l !in ls
    ensures Without(ls + [l], l) == ls
  {
    if ls == [] {
      assert Without([l], l) == Without([], l);
    } else {
      assert (ls + [l])[1..] == ls[1..] + [l];
      WithoutAppended(ls[1..], l);
    }
  }

  /** An event-capable object. */
  class Target {
    /** The property names `add in aTarget` and `remove in aTarget` test. */
    const methods: set<string>
    var listeners: map<(Api, string), seq<Listener>>

    constructor (methods: set<string>, listeners: map<(Api, string), seq<Listener>>)
      ensures this.methods == methods && this.listeners == listeners
    {
      this.methods := methods;
      this.listeners := listeners;
    }

    function Registered(api: Api, eventName: string): seq<Listener>
      reads this
    {
      Lookup(listeners, api, eventName)
    }

    /** `aTarget[add](eventName, handler, capture)`: append one registration. */
    method Add(api: Api, eventName: string, l: Listener)
      requires Supports(methods, api)
      modifies this
      ensures listeners == old(listeners)[(api, eventName) := old(Registered(api, eventName)) + [l]]
    {
      listeners := listeners[(api, eventName) := Registered(api, eventName) + [l]];
    }

    /** `aTarget[remove](eventName, handler, capture)`: drop the matching registrations. */
    method Remove(api: Api, eventName: string, l: Listener)
      requires Supports(methods, api)
      modifies this
      ensures listeners == old(listeners)[(api, eventName) := Without(old(Registered(api, eventName)), l)]
    {
      listeners := listeners[(api, eventName) := Without(Registered(api, eventName), l)];
    }
  }

  /** The state of the promise `once` returns. */
  datatype PromiseState = Pending | Resolved(value: Value)

  /** `Promise.defer()`: a promise and the means to resolve it. */
  class Deferred {
    var state: PromiseState

    constructor ()
      ensures state == Pending
    {
      state := Pending;
    }

    /** `deferred.resolve(v)`: settles a pending promise; a settled one keeps its value. */
    method Resolve(v: Value)
      modifies this
      ensures state == if old(state).Pending? then Resolved(v) else old(state)
    {
      if state.Pending? {
        state := Resolved(v);
      }
    }
  }

  /** What the handler resolves with: all arguments when spreading, else the first (or `undefined`). */
  function Payload(args: seq<Value>, spread: bool): (r: Value)
    ensures spread ==> r.List? && r.items == args
    ensures !spread && args != [] ==> r == args[0]
    ensures !spread && args == [] ==> r.Undefined?
  {
    if spread then List(args) else if args == [] then Undefined else args[0]
  }

  /** The `onEvent` function `once` registers, with what it closed over. */
  class OnceHandler {
    const target: Target
    const eventName: string
    const useCapture: bool
    const spread: bool
    const api: Api
    const deferred: Deferred

    constructor (target: Target, eventName: string, useCapture: bool, spread: bool, api: Api, deferred: Deferred)
      ensures this.target == target && this.eventName == eventName && this.useCapture == useCapture
      ensures this.spread == spread && this.api == api && this.deferred == deferred
    {
      this.target := target;
      this.eventName := eventName;
      this.useCapture := useCapture;
      this.spread := spread;
      this.api := api;
      this.deferred := deferred;
    }

    /** `onEvent(...aArgs)`: unregister itself with the same name and flag, then resolve. */
    method OnEvent(args: seq<Value>)
      requires Supports(target.methods, api)
      modifies target, deferred
      ensures target.listeners == old(target.listeners)[(api, eventName) :=
        Without(old(target.Registered(api, eventName)), Listener(this, useCapture))]
      ensures deferred.state ==
        if old(deferred.state).Pending? then Resolved(Payload(args, spread)) else old(deferred.state)
    {
      target.Remove(api, eventName, Listener(this, useCapture));
      deferred.Resolve(Payload(args, spread));
    }
  }

  /**
   * What `once` leaves behind: a pending promise and, when the target
   * supports a pair, a handler bound to it, registered at the end of that
   * pair's list for the event and nowhere else; otherwise no handler and an
   * untouched target.
   */
  ghost predicate Subscribed(target: Target, before: map<(Api, string), seq<Listener>>,
                             eventName: string, useCapture: bool, spread: bool,
                             promise: Deferred, handler: OnceHandler?)
    reads target, promise
  {
    && promise.state == Pending
    && match FirstSupported(target.methods)
       case None => handler == null && target.listeners == before
       case Some(api) =>
         && handler != null
         && handler.target == target && handler.eventName == eventName
         && handler.useCapture == useCapture && handler.spread == spread
         && handler.api == api && handler.deferred == promise
         && target.listeners == before[(api, eventName) := Lookup(before, api, eventName) + [Listener(handler, useCapture)]]
  }

  /**
   * `once(aTarget, aEventName, aUseCapture, spread)`: probe the pairs in
   * order and register a self-removing handler on the first one the target
   * has; with none, register nothing and return a promise that stays pending.
   */
  method Once(target: Target, eventName: string, useCapture: bool, spread: bool)
    returns (promise: Deferred, handler: OnceHandler?)
    modifies target
    ensures fresh(promise) && (handler != null ==> fresh(handler))
    ensures Subscribed(target, old(target.listeners), eventName, useCapture, spread, promise, handler)
  {
    promise := new Deferred();
    handler := null;
    var i := 0;
    while i < |ProbeOrder|
      invariant 0 <= i <= |ProbeOrder|
      invariant handler == null && target.listeners == old(target.listeners)
      invariant forall j :: 0 <= j < i ==> !Supports(target.methods, ProbeOrder[j])
    {
      var api := ProbeOrder[i];
      if Supports(target.methods, api) {
        ProbeFindsFirst(target.methods, i);
        handler := new OnceHandler(target, eventName, useCapture, spread, api, promise);
        target.Add(api, eventName, Listener(handler, useCapture));
        return;
      }
      i := i + 1;
    }
    ProbeFindsNone(target.methods);
  }

  /** `onceSpread(aTarget, aEventName, aUseCapture)`: `once` with `spread` set. */
  method OnceSpread(target: Target, eventName: string, useCapture: bool)
    returns (promise: Deferred, handler: OnceHandler?)
    modifies target
    ensures fresh(promise) && (handler != null ==> fresh(handler))
    ensures Subscribed(target, old(target.listeners), eventName, useCapture, true, promise, handler)
  {
    promise, handler := Once(target, eventName, useCapture, true);
  }

  /**
   * The target emitting the event at a handler: it is called only while it
   * is registered.
   */
  method Fire(h: OnceHandler, args: seq<Value>) returns (invoked: bool)
    requires Supports(h.target.methods, h.api)
    modifies h.target, h.deferred
    ensures invoked == (Listener(h, h.useCapture) in old(h.target.Registered(h.api, h.eventName)))
    ensures invoked ==> h.target.listeners == old(h.target.listeners)[(h.api, h.eventName) :=
      Without(old(h.target.Registered(h.api, h.eventName)), Listener(h, h.useCapture))]
    ensures invoked ==> (h.deferred.state ==
      if old(h.deferred.state).Pending? then Resolved(Payload(args, h.spread)) else old(h.deferred.state))
    ensures !invoked ==> h.target.listeners == old(h.target.listeners) && h.deferred.state == old(h.deferred.state)
  {
    invoked := Listener(h, h.useCapture) in h.target.Registered(h.api, h.eventName);
    if invoked {
      h.OnEvent(args);
    }
  }

  /**
   * `once` on a fresh target with the given methods and registrations,
   * then the event fired once per entry of `firings`. The promise settles on
   * the first firing, with that firing's payload, and never again; the
   * handler runs once; afterwards every listener list is what it was before
   * `once`. A target with no known pair never settles the promise.
   */
  method OnceLifecycle(methods: set<string>, initial: map<(Api, string), seq<Listener>>,
                       eventName: string, useCapture: bool, spread: bool, firings: seq<seq<Value>>)
    returns (result: PromiseState, after: map<(Api, string), seq<Listener>>, invocations: nat,
             registered: Option<Listener>)
    ensures FirstSupported(methods).None? ==>
      result == Pending && after == initial && invocations == 0 && registered == None
    ensures FirstSupported(methods).Some? ==>
      && registered.Some? && registered.value.capture == useCapture
      && registered.value !in Lookup(initial, FirstSupported(methods).value, eventName)
    ensures FirstSupported(methods).Some? && firings == [] ==>
      && result == Pending && invocations == 0
      && after == initial[(FirstSupported(methods).value, eventName) :=
           Lookup(initial, FirstSupported(methods).value, eventName) + [registered.value]]
    ensures FirstSupported(methods).Some? && firings != [] ==>
      && result == Resolved(Payload(firings[0], spread))
      && invocations == 1
      && forall api, e :: Lookup(after, api, e) == Lookup(initial, api, e)
  {
    var target := new Target(methods, initial);
    var promise, handler := Once(target, eventName, useCapture, spread);
    invocations := 0;
    registered := None;
    if handler != null {
      var api := handler.api;
      var mine := Listener(handler, useCapture);
      registered := Some(mine);
      assert mine !in Lookup(initial, api, eventName);
      var k := 0;
      while k < |firings|
        invariant 0 <= k <= |firings|
        invariant invocations == if k == 0 then 0 else 1
        invariant k == 0 ==> (promise.state == Pending
          && target.listeners == initial[(api, eventName) := Lookup(initial, api, eventName) + [mine]])
        invariant k > 0 ==> (promise.state == Resolved(Payload(firings[0], spread))
          && forall a, e :: Lookup(target.listeners, a, e) == Lookup(initial, a, e))
      {
        if k == 0 {
          WithoutAppended(Lookup(initial, api, eventName), mine);
        }
        var invoked := Fire(handler, firings[k]);
        if invoked {
          invocations := invocations + 1;
        }
        k := k + 1;
      }
    }
    result := promise.state;
    after := target.listeners;
  }
}
