/** The event loop: a registry from event kind to the handlers registered for
    it, and the dispatch of received events to those handlers. */
module EventLoops {
  import opened GameEvents

  /** The serialized payload that travels with an input event. */
  type Payload = seq<bv8>

  /** A registered handler, standing for the shared handler object itself. */
  type HandlerId = nat

  /** An event as it arrives on the input channel. */
  datatype Event = Event(event: GameEvent, payload: Payload)

  /** One call `handler.handle(event, payload)` made by the loop. */
  datatype Invocation = Invocation(handler: HandlerId, event: GameEvent, payload: Payload)

  type Registry = map<GameEvent, seq<HandlerId>>

  /** The handlers registered for `kind`, in registration order; a kind with
      no entry has none. */
  function HandlersFor(registry: Registry, kind: GameEvent): seq<HandlerId>
  {
    if kind in registry then registry[kind] else []
  }

  /** The registry after `handler` is registered for `kind`. */
  function Register(registry: Registry, kind: GameEvent, handler: HandlerId): (r: Registry)
    ensures r.Keys == registry.Keys + {kind}
    ensures r[kind] == HandlersFor(registry, kind) + [handler]
    ensures forall k :: k in registry && k != kind ==> r[k] == registry[k]
  {
    registry[kind := HandlersFor(registry, kind) + [handler]]
  }

  /** After registering `handler` for `kind`, every kind's list is its old list
      (empty if it had none), with `handler` appended for `kind` alone. */
  lemma HandlersForRegister(registry: Registry, kind: GameEvent, handler: HandlerId, k: GameEvent)
    ensures HandlersFor(Register(registry, kind, handler), k) ==
            HandlersFor(registry, k) + (if k == kind then [handler] else [])
  {
  }

  /** The calls made for one event, handler by handler. */
  function Invoke(handlers: seq<HandlerId>, e: Event): (t: seq<Invocation>)
    ensures |t| == |handlers|
    ensures forall i :: 0 <= i < |t| ==> t[i] == Invocation(handlers[i], e.event, e.payload)
  {
    if handlers == [] then [] else [Invocation(handlers[0], e.event, e.payload)] + Invoke(handlers[1..], e)
  }

  /** The calls the loop makes for one received event. */
  function DispatchEvent(registry: Registry, e: Event): (t: seq<Invocation>)
    // an event of a kind nobody registered for is dropped
    ensures e.event !in registry ==> t == []
    // every registered handler is called once per registration, in order,
    // with the event's kind and payload unchanged
    ensures |t| == |HandlersFor(registry, e.event)|
    ensures forall i :: 0 <= i < |t| ==> t[i] == Invocation(HandlersFor(registry, e.event)[i], e.event, e.payload)
  {
    Invoke(HandlersFor(registry, e.event), e)
  }

  /** The calls the loop makes for a run of received events, in receipt order. */
  function DispatchAll(registry: Registry, events: seq<Event>): (t: seq<Invocation>)
    // a single received event yields exactly the calls for that event
    ensures |events| == 1 ==> t == DispatchEvent(registry, events[0])
  {
    if events == [] then [] else DispatchEvent(registry, events[0]) + DispatchAll(registry, events[1..])
  }

  lemma {:induction false} DispatchAllAppend(registry: Registry, a: seq<Event>, b: seq<Event>)
    ensures DispatchAll(registry, a + b) == DispatchAll(registry, a) + DispatchAll(registry, b)
  {
    if a == [] {
      assert a + b == b;
    } else {
      assert (a + b)[1..] == a[1..] + b;
      DispatchAllAppend(registry, a[1..], b);
    }
  }

  /** All calls for events before the n-th come first, then the n-th event's
      calls, then those for the events after it. */
  lemma DispatchInReceiptOrder(registry: Registry, events: seq<Event>, n: nat)
    requires n < |events|
    ensures DispatchAll(registry, events) ==
            DispatchAll(registry, events[..n]) + DispatchEvent(registry, events[n]) + DispatchAll(registry, events[n + 1..])
  {
    var before, rest := events[..n], events[n + 1..];
    var tail := [events[n]] + rest;
    assert events == before + tail;
    DispatchAllAppend(registry, before, tail);
    assert tail[0] == events[n] && tail[1..] == rest;
    assert DispatchAll(registry, tail) == DispatchEvent(registry, events[n]) + DispatchAll(registry, rest);
  }

  /** Every call in the trace is made to a handler registered for some received
      event's kind, with that event's kind and payload. */
  lemma {:induction false} TraceComesFromEvents(registry: Registry, events: seq<Event>, j: nat)
    requires j < |DispatchAll(registry, events)|
    ensures exists n :: 0 <= n < |events| &&
              DispatchAll(registry, events)[j].event == events[n].event &&
              DispatchAll(registry, events)[j].payload == events[n].payload &&
              DispatchAll(registry, events)[j].handler in HandlersFor(registry, events[n].event)
  {
    var first := DispatchEvent(registry, events[0]);
    var t := DispatchAll(registry, events);
    if j < |first| {
      assert t[j] == first[j];
      assert HandlersFor(registry, events[0].event)[j] in HandlersFor(registry, events[0].event);
    } else {
      assert t[j] == DispatchAll(registry, events[1..])[j - |first|];
      TraceComesFromEvents(registry, events[1..], j - |first|);
      var n :| 0 <= n < |events[1..]| &&
               DispatchAll(registry, events[1..])[j - |first|].event == events[1..][n].event &&
               DispatchAll(registry, events[1..])[j - |first|].payload == events[1..][n].payload &&
               DispatchAll(registry, events[1..])[j - |first|].handler in HandlersFor(registry, events[1..][n].event);
      assert events[1..][n] == events[n + 1];
    }
  }

  /** Events whose kinds nobody registered for produce no calls at all. */
  lemma {:induction false} UnregisteredEventsAreDropped(registry: Registry, events: seq<Event>)
    requires forall n :: 0 <= n < |events| ==> events[n].event !in registry
    ensures DispatchAll(registry, events) == []
  {
    if events != [] {
      assert forall n :: 0 <= n < |events[1..]| ==> events[1..][n] == events[n + 1];
      UnregisteredEventsAreDropped(registry, events[1..]);
    }
  }

  /** Registering a handler adds one call at the end of the calls made for each
      event of that kind, and changes nothing for events of other kinds. */
  lemma RegisterThenDispatch(registry: Registry, kind: GameEvent, handler: HandlerId, e: Event)
    ensures DispatchEvent(Register(registry, kind, handler), e) ==
            DispatchEvent(registry, e) + (if e.event == kind then [Invocation(handler, e.event, e.payload)] else [])
  {
  }

  class EventLoop {
    var register: Registry

    /** A loop with no handlers. The list of kinds is unused, as in the source. */
    constructor (tiles: seq<GameEvent>)
      ensures register == map[]
    {
      register := map[];
    }

    method RegisterHandler(event: GameEvent, handler: HandlerId)
      modifies this
      ensures register == Register(old(register), event, handler)
    {
      var handlers := if event in register then register[event] else [];
      register := register[event := handlers + [handler]];
    }

    /** Handles every received event in turn: calls each handler registered
        for its kind, in registration order. Changes no field. */
    method Start(received: seq<Event>) returns (trace: seq<Invocation>)
      ensures trace == DispatchAll(register, received)
    {
      trace := [];
      var i := 0;
      while i < |received|
        invariant 0 <= i <= |received|
        invariant trace == DispatchAll(register, received[..i])
      {
        var e := received[i];
        ghost var before := trace;
        if e.event in register {
          var handlers := register[e.event];
          var j := 0;
          while j < |handlers|
            invariant 0 <= j <= |handlers|
            invariant trace == before + Invoke(handlers[..j], e)
          {
            assert handlers[..j + 1] == handlers[..j] + [handlers[j]];
            InvokeAppend(handlers[..j], handlers[j], e);
            trace := trace + [Invocation(handlers[j], e.event, e.payload)];
            j := j + 1;
          }
          assert handlers[..j] == handlers;
        }
        assert trace == before + DispatchEvent(register, e);
        DispatchAllPrefix(register, received, i);
        i := i + 1;
      }
      assert received[..i] == received;
    }
  }

  lemma DispatchAllPrefix(registry: Registry, events: seq<Event>, i: nat)
    requires i < |events|
    ensures DispatchAll(registry, events[..i + 1]) == DispatchAll(registry, events[..i]) + DispatchEvent(registry, events[i])
  {
    assert events[..i + 1] == events[..i] + [events[i]];
    DispatchAllAppend(registry, events[..i], [events[i]]);
    assert DispatchAll(registry, [events[i]]) == DispatchEvent(registry, events[i]) + DispatchAll(registry, []);
  }

  lemma InvokeAppend(handlers: seq<HandlerId>, h: HandlerId, e: Event)
    ensures Invoke(handlers + [h], e) == Invoke(handlers, e) + [Invocation(h, e.event, e.payload)]
  {
  }

  /** The source's test: on a fresh loop, one handler for `TileClicked` gives
      that kind an entry holding one handler. */
  method TestRegisterHandler(handler: HandlerId) returns (present: bool, count: nat)
    ensures present && count == 1
  {
    var eventLoop := new EventLoop([]);
    eventLoop.RegisterHandler(TileClicked, handler);
    present := TileClicked in eventLoop.register;
    count := |eventLoop.register[TileClicked]|;
  }

  /** Two handlers for one kind are both called for one event, in the order
      they were registered. */
  method TestTwoHandlersInOrder(first: HandlerId, second: HandlerId, payload: Payload) returns (trace: seq<Invocation>)
    ensures trace == [Invocation(first, MouseCliked, payload), Invocation(second, MouseCliked, payload)]
  {
    var eventLoop := new EventLoop([]);
    eventLoop.RegisterHandler(MouseCliked, first);
    eventLoop.RegisterHandler(MouseCliked, second);
    trace := eventLoop.Start([Event(MouseCliked, payload)]);
  }

  /** An event of a kind with no handler is dropped. */
  method TestNoHandler(handler: HandlerId, payload: Payload) returns (trace: seq<Invocation>)
    ensures trace == []
  {
    var eventLoop := new EventLoop([]);
    eventLoop.RegisterHandler(MouseCliked, handler);
    trace := eventLoop.Start([Event(WindowResized, payload)]);
  }
}
