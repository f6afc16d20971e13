/**
 * The signaling client shared by both orchestrators (`SignalingClient`): an
 * observer registry from event kind to an ordered list of handlers over one
 * WebSocket to the relay server.
 *
 * The socket is abstract: `readyState` is its state, frames it delivers
 * arrive already parsed (`None` when `JSON.parse` throws), and `send` appends
 * to `outbox`. Handlers are objects, so unsubscribing compares references as
 * `!==` does. What a handler does when invoked is opaque (`Callback`), except
 * for the deferred registration closure of a participant, which sends one
 * fixed message (`SendOnInvoke`); every invocation is appended to
 * `invocations`.
 *
 * Each operation is specified by a function on `ClientState` (SendEffect,
 * DispatchEffect, ...), and the lemmas below state what those functions
 * guarantee.
 */
module Signaling {
  import opened Wrappers
  import opened RtcLib

  /** `SignalingClientEventList`. */
  datatype EventKind =
    | OnSocketOpened
    | OnSocketClosed
    | OnSocketError
    | OnSocketMessage
    | OnNewRtcPeer
    | OnRtcPeerDisconnected
    | OnChannelCreated

  /** The `type` of a relay message; `Unrecognised` is any other value, which no switch matches. */
  datatype MessageType =
    | CreateChannel
    | ChannelCreated
    | NewClient
    | ClientAdded
    | NewOffer
    | NewAnswer
    | IceCandidate
    | Unrecognised

  /** The optional `payload` of a relay message; every field may be missing. */
  datatype Payload = Payload(
    id: Option<string>,
    clientId: Option<string>,
    offer: Option<string>,
    answer: Option<string>,
    iceCandidates: Option<seq<Candidate>>)

  /** A relay message `{ type, payload? }`. */
  datatype Message = Message(kind: MessageType, payload: Option<Payload>)

  /** What a handler receives (`SignalingClientEvent`): an error type or a parsed message. */
  datatype Event = Event(errorType: Option<string>, data: Option<Message>)

  /** The payload of `dispatch(event)` called without one: `{}`. */
  const NoData: Event := Event(None, None)

  /** The WebSocket `readyState`. */
  datatype ReadyState = CONNECTING | OPEN | CLOSING | CLOSED

  /** `send` on a socket that is still connecting. */
  datatype TransportError = TransportError

  /** JavaScript truthiness of an optional string: present and non-empty. */
  predicate Truthy(s: Option<string>) {
    s.Some? && s.value != ""
  }

  /** What a handler does when it is called. */
  datatype Action = Callback | SendOnInvoke(message: Message)

  /** A subscribed handler; its identity is its reference. */
  class Handler {
    const action: Action

    constructor (action: Action)
      ensures this.action == action
    {
      this.action := action;
    }
  }

  /** One call of `handler` by a dispatch of `kind` with `event`. */
  datatype Invocation = Invocation(handler: Handler, kind: EventKind, event: Event)

  type Registry = map<EventKind, seq<Handler>>

  /** The record of handler lists holds a list for every event kind. */
  ghost predicate Total(reg: Registry) {
    forall e: EventKind :: e in reg
  }

  /** The registry a new client starts with: every list empty. */
  function EmptyRegistry(): (reg: Registry)
    ensures Total(reg)
    ensures forall e: EventKind :: reg[e] == []
  {
    var reg := map[OnSocketOpened := [], OnSocketClosed := [], OnSocketError := [], OnSocketMessage := [],
                   OnNewRtcPeer := [], OnRtcPeerDisconnected := [], OnChannelCreated := []];
    assert forall e: EventKind :: e in reg by {
      forall e: EventKind ensures e in reg {
        EveryKindListed(e);
      }
    }
    reg
  }

  lemma EveryKindListed(e: EventKind)
    ensures e in {OnSocketOpened, OnSocketClosed, OnSocketError, OnSocketMessage,
                  OnNewRtcPeer, OnRtcPeerDisconnected, OnChannelCreated}
  {
    match e {
      case OnSocketOpened =>
      case OnSocketClosed =>
      case OnSocketError =>
      case OnSocketMessage =>
      case OnNewRtcPeer =>
      case OnRtcPeerDisconnected =>
      case OnChannelCreated =>
    }
  }

  /** The observable state of a signaling client. */
  datatype ClientState = ClientState(
    handlers: Registry,
    readyState: ReadyState,
    outbox: seq<Message>,
    invocations: seq<Invocation>)

  // ---------------------------------------------------------------------------
  // subscribe / unsubscribe

  /** `subscribe`: appends `h` to the list of `e`. */
  function SubscribeEffect(st: ClientState, e: EventKind, h: Handler): ClientState
    requires e in st.handlers
  {
    st.(handlers := st.handlers[e := st.handlers[e] + [h]])
  }

  /** `filter((x) => x !== h)`: the list without any reference to `h`. */
  function Without(hs: seq<Handler>, h: Handler): seq<Handler> {
    if hs == [] then []
    else (if hs[0] == h then [] else [hs[0]]) + Without(hs[1..], h)
  }

  /** `unsubscribe`: drops every reference to `h` from the list of `e`. */
  function UnsubscribeEffect(st: ClientState, e: EventKind, h: Handler): ClientState
    requires e in st.handlers
  {
    st.(handlers := st.handlers[e := Without(st.handlers[e], h)])
  }

  /** Unsubscribing removes every copy of `h` and keeps every other handler as often as it was there. */
  lemma {:induction false} WithoutCounts(hs: seq<Handler>, h: Handler)
    ensures multiset(Without(hs, h)) == multiset(hs)[h := 0]
  {
    if hs != [] {
      WithoutCounts(hs[1..], h);
      assert hs == [hs[0]] + hs[1..];
    }
  }

  /** Unsubscribing keeps the remaining handlers in their original order: it filters each part of a list separately. */
  lemma {:induction false} WithoutSplits(a: seq<Handler>, b: seq<Handler>, h: Handler)
    ensures Without(a + b, h) == Without(a, h) + Without(b, h)
  {
    if a == [] {
      assert a + b == b;
    } else {
      WithoutSplits(a[1..], b, h);
      assert (a + b)[0] == a[0];
      assert (a + b)[1..] == a[1..] + b;
      Associative(if a[0] == h then [] else [a[0]], Without(a[1..], h), Without(b, h));
    }
  }

  /** Unsubscribing a handler that is not subscribed changes nothing. */
  lemma {:induction false} WithoutAbsent(hs: seq<Handler>, h: Handler)
    requires h !in hs
    ensures Without(hs, h) == hs
  {
    if hs != [] {
      WithoutAbsent(hs[1..], h);
      assert hs == [hs[0]] + hs[1..];
    }
  }

  /** A second unsubscribe of the same handler changes nothing. */
  lemma WithoutIdempotent(hs: seq<Handler>, h: Handler)
    ensures Without(Without(hs, h), h) == Without(hs, h)
  {
    WithoutCounts(hs, h);
    assert h !in multiset(Without(hs, h));
    WithoutAbsent(Without(hs, h), h);
  }

  /** Subscribing a new handler and unsubscribing it again restores the registry. */
  lemma SubscribeThenUnsubscribe(st: ClientState, e: EventKind, h: Handler)
    requires e in st.handlers && h !in st.handlers[e]
    ensures UnsubscribeEffect(SubscribeEffect(st, e, h), e, h) == st
  {
    WithoutSplits(st.handlers[e], [h], h);
    WithoutAbsent(st.handlers[e], h);
    assert Without([h], h) == [];
    assert Without(st.handlers[e] + [h], h) == st.handlers[e] + [];
    assert st.handlers[e] + [] == st.handlers[e];
    assert st.handlers[e := st.handlers[e]] == st.handlers;
  }

  // ---------------------------------------------------------------------------
  // send and dispatch

  /**
   * `send`: an open socket transmits the message (it joins the outbox); a
   * socket still connecting throws, which `send` rethrows as a
   * `TransportError`; a closing or closed socket discards the message
   * without an error, as WebSocket `send()` does.
   */
  function SendEffect(st: ClientState, m: Message): (ClientState, Outcome<TransportError>) {
    match st.readyState
    case OPEN => (st.(outbox := st.outbox + [m]), Pass)
    case CONNECTING => (st, Fail(TransportError))
    case _ => (st, Pass)
  }

  /** One invocation per handler of `hs`, in order. */
  function Invocations(hs: seq<Handler>, e: EventKind, ev: Event): (r: seq<Invocation>)
    ensures |r| == |hs|
    ensures forall i :: 0 <= i < |hs| ==> r[i] == Invocation(hs[i], e, ev)
  {
    if hs == [] then [] else [Invocation(hs[0], e, ev)] + Invocations(hs[1..], e, ev)
  }

  /**
   * Calls the handlers `hs` in order; a handler that sends and fails throws,
   * which ends the dispatch and reaches the caller.
   */
  function Deliver(st: ClientState, hs: seq<Handler>, e: EventKind, ev: Event): (r: (ClientState, Outcome<TransportError>))
    ensures r.0.handlers == st.handlers && r.0.readyState == st.readyState
    decreases |hs|
  {
    if hs == [] then (st, Pass)
    else
      var called := st.(invocations := st.invocations + [Invocation(hs[0], e, ev)]);
      match hs[0].action
      case Callback => Deliver(called, hs[1..], e, ev)
      case SendOnInvoke(m) =>
        var (sent, r) := SendEffect(called, m);
        if r.Fail? then (sent, r) else Deliver(sent, hs[1..], e, ev)
  }

  /** `dispatch(e, ev)`: calls the handlers subscribed to `e` as they are when it starts. */
  function DispatchEffect(st: ClientState, e: EventKind, ev: Event): (ClientState, Outcome<TransportError>)
    requires e in st.handlers
  {
    Deliver(st, st.handlers[e], e, ev)
  }

  /** The messages the sending handlers of `hs` send, in order. */
  function Sends(hs: seq<Handler>): seq<Message> {
    if hs == [] then []
    else (match hs[0].action case Callback => [] case SendOnInvoke(m) => [m]) + Sends(hs[1..])
  }

  /** The position of the first sending handler of `hs`, or `|hs|` when none sends. */
  function FirstSender(hs: seq<Handler>): (k: nat)
    ensures k <= |hs|
    ensures k < |hs| ==> hs[k].action.SendOnInvoke?
    ensures forall i :: 0 <= i < k ==> hs[i].action.Callback?
  {
    if hs == [] || hs[0].action.SendOnInvoke? then 0 else 1 + FirstSender(hs[1..])
  }

  /**
   * On an open socket a dispatch calls every handler of `hs` exactly once, in
   * order, sends what the sending handlers send, and changes nothing else.
   */
  lemma {:induction false} DeliverOpen(st: ClientState, hs: seq<Handler>, e: EventKind, ev: Event)
    requires st.readyState == OPEN
    ensures Deliver(st, hs, e, ev) ==
      (st.(outbox := st.outbox + Sends(hs), invocations := st.invocations + Invocations(hs, e, ev)), Pass)
    decreases |hs|
  {
    if hs == [] {
      assert st.outbox + [] == st.outbox && st.invocations + [] == st.invocations;
    } else {
      var one := [Invocation(hs[0], e, ev)];
      var called := st.(invocations := st.invocations + one);
      var rest := Invocations(hs[1..], e, ev);
      assert Invocations(hs, e, ev) == one + rest;
      Associative(st.invocations, one, rest);
      match hs[0].action
      case Callback =>
        DeliverOpen(called, hs[1..], e, ev);
        assert Sends(hs) == Sends(hs[1..]);
      case SendOnInvoke(m) =>
        DeliverOpen(called.(outbox := called.outbox + [m]), hs[1..], e, ev);
        assert Sends(hs) == [m] + Sends(hs[1..]);
        Associative(st.outbox, [m], Sends(hs[1..]));
    }
  }

  /** Concatenation is associative (stated once so that the proofs below can cite it). */
  lemma Associative<T>(a: seq<T>, b: seq<T>, c: seq<T>)
    ensures (a + b) + c == a + (b + c)
  {
  }

  /**
   * The handlers a dispatch over `hs` reaches when every send fails: all of
   * them up to and including the first one that sends.
   */
  function Reached(hs: seq<Handler>): (r: seq<Handler>)
    ensures |r| == if FirstSender(hs) < |hs| then FirstSender(hs) + 1 else |hs|
    ensures r == hs[..|r|]
  {
    if hs == [] then []
    else if hs[0].action.SendOnInvoke? then [hs[0]]
    else [hs[0]] + Reached(hs[1..])
  }

  /**
   * On a socket still connecting a dispatch calls the handlers in order up to
   * and including the first one that sends, whose send throws and ends the
   * dispatch; nothing is sent.
   */
  lemma {:induction false} DeliverConnecting(st: ClientState, hs: seq<Handler>, e: EventKind, ev: Event)
    requires st.readyState == CONNECTING
    ensures Deliver(st, hs, e, ev).0 == st.(invocations := st.invocations + Invocations(Reached(hs), e, ev))
    ensures Deliver(st, hs, e, ev).1 == if FirstSender(hs) < |hs| then Fail(TransportError) else Pass
    decreases |hs|
  {
    if hs == [] {
      assert st.invocations + [] == st.invocations;
    } else {
      var called := st.(invocations := st.invocations + [Invocation(hs[0], e, ev)]);
      if hs[0].action.Callback? {
        DeliverConnecting(called, hs[1..], e, ev);
        var rest := Invocations(Reached(hs[1..]), e, ev);
        assert Invocations(Reached(hs), e, ev) == [Invocation(hs[0], e, ev)] + rest;
        Associative(st.invocations, [Invocation(hs[0], e, ev)], rest);
      }
    }
  }

  /**
   * On a closing or closed socket a dispatch calls every handler exactly
   * once, in order; what the sending handlers send is discarded.
   */
  lemma {:induction false} DeliverClosed(st: ClientState, hs: seq<Handler>, e: EventKind, ev: Event)
    requires st.readyState == CLOSING || st.readyState == CLOSED
    ensures Deliver(st, hs, e, ev) == (st.(invocations := st.invocations + Invocations(hs, e, ev)), Pass)
    decreases |hs|
  {
    if hs == [] {
      assert st.invocations + [] == st.invocations;
    } else {
      var one := [Invocation(hs[0], e, ev)];
      DeliverClosed(st.(invocations := st.invocations + one), hs[1..], e, ev);
      assert Invocations(hs, e, ev) == one + Invocations(hs[1..], e, ev);
      Associative(st.invocations, one, Invocations(hs[1..], e, ev));
    }
  }

  /**
   * When every handler of `hs` is a plain callback, a dispatch calls each of
   * them exactly once, in order, and changes nothing else, whatever the
   * state of the socket.
   */
  lemma {:induction false} DeliverCallbacks(st: ClientState, hs: seq<Handler>, e: EventKind, ev: Event)
    requires forall h :: h in hs ==> h.action.Callback?
    ensures Deliver(st, hs, e, ev) == (st.(invocations := st.invocations + Invocations(hs, e, ev)), Pass)
    decreases |hs|
  {
    if hs == [] {
      assert st.invocations + [] == st.invocations;
    } else {
      var one := [Invocation(hs[0], e, ev)];
      DeliverCallbacks(st.(invocations := st.invocations + one), hs[1..], e, ev);
      assert Invocations(hs, e, ev) == one + Invocations(hs[1..], e, ev);
      Associative(st.invocations, one, Invocations(hs[1..], e, ev));
    }
  }

  /**
   * Whatever the state of the socket, a dispatch over `hs` only appends to the
   * invocation log, and every invocation it appends calls a handler of `hs`.
   */
  lemma {:induction false} DeliverCallsOnly(st: ClientState, hs: seq<Handler>, e: EventKind, ev: Event)
    ensures var invs := Deliver(st, hs, e, ev).0.invocations;
      |st.invocations| <= |invs| && invs[..|st.invocations|] == st.invocations &&
      forall i :: |st.invocations| <= i < |invs| ==> invs[i].handler in hs
    decreases |hs|
  {
    if hs != [] {
      var called := st.(invocations := st.invocations + [Invocation(hs[0], e, ev)]);
      var next := match hs[0].action case Callback => called case SendOnInvoke(m) => SendEffect(called, m).0;
      assert next.invocations == called.invocations;
      var invs := Deliver(st, hs, e, ev).0.invocations;
      if hs[0].action.SendOnInvoke? && SendEffect(called, hs[0].action.message).1.Fail? {
        assert invs == called.invocations;
      } else {
        DeliverCallsOnly(next, hs[1..], e, ev);
        assert invs == Deliver(next, hs[1..], e, ev).0.invocations;
        forall i | |st.invocations| <= i < |invs| ensures invs[i].handler in hs {
          if i == |st.invocations| {
            assert invs[i] == called.invocations[i];
          } else {
            assert invs[i].handler in hs[1..];
          }
        }
      }
    }
  }

  /**
   * A handler subscribed to `e` is called last by the next dispatch of `e`,
   * after the handlers already there, unless a send fails first: on a socket
   * that is not connecting sends never fail, and plain callbacks never send.
   */
  lemma DispatchAfterSubscribe(st: ClientState, e: EventKind, h: Handler, ev: Event)
    requires e in st.handlers
    requires st.readyState != CONNECTING || forall x :: x in st.handlers[e] + [h] ==> x.action.Callback?
    ensures DispatchEffect(SubscribeEffect(st, e, h), e, ev).0.invocations ==
      st.invocations + Invocations(st.handlers[e], e, ev) + [Invocation(h, e, ev)]
  {
    var st' := SubscribeEffect(st, e, h);
    var hs := st'.handlers[e];
    if st.readyState == OPEN {
      DeliverOpen(st', hs, e, ev);
    } else if st.readyState == CLOSING || st.readyState == CLOSED {
      DeliverClosed(st', hs, e, ev);
    } else {
      DeliverCallbacks(st', hs, e, ev);
    }
    assert Invocations(hs, e, ev) == Invocations(st.handlers[e], e, ev) + [Invocation(h, e, ev)];
    Associative(st.invocations, Invocations(st.handlers[e], e, ev), [Invocation(h, e, ev)]);
  }

  /** After unsubscribing `h` from `e`, a dispatch of `e` never calls `h`, whatever the state of the socket. */
  lemma DispatchAfterUnsubscribe(st: ClientState, e: EventKind, h: Handler, ev: Event)
    requires e in st.handlers
    ensures var st' := UnsubscribeEffect(st, e, h);
      var invs := DispatchEffect(st', e, ev).0.invocations;
      forall i :: |st.invocations| <= i < |invs| ==> invs[i].handler != h
  {
    var st' := UnsubscribeEffect(st, e, h);
    var kept := Without(st.handlers[e], h);
    DeliverCallsOnly(st', kept, e, ev);
    WithoutCounts(st.handlers[e], h);
    var invs := DispatchEffect(st', e, ev).0.invocations;
    forall i | |st.invocations| <= i < |invs| ensures invs[i].handler != h {
      assert invs[i].handler in multiset(kept);
    }
  }

  // ---------------------------------------------------------------------------
  // inbound frames

  /** `onMessage`: an unparsable frame is dropped; a parsed one is dispatched once as `OnSocketMessage`. */
  function OnMessageEffect(st: ClientState, frame: Option<Message>): ClientState
    requires OnSocketMessage in st.handlers
  {
    match frame
    case None => st
    case Some(m) => DispatchEffect(st, OnSocketMessage, Event(None, Some(m))).0
  }

  /**
   * A parsed frame reaches every `OnSocketMessage` handler exactly once, in
   * order, carrying the parsed message, and no handler of another event.
   */
  lemma ParsedFrameReachesSubscribers(st: ClientState, m: Message)
    requires Total(st.handlers)
    requires forall h :: h in st.handlers[OnSocketMessage] ==> h.action.Callback?
    ensures OnMessageEffect(st, Some(m)) ==
      st.(invocations := st.invocations + Invocations(st.handlers[OnSocketMessage], OnSocketMessage, Event(None, Some(m))))
  {
    DeliverCallbacks(st, st.handlers[OnSocketMessage], OnSocketMessage, Event(None, Some(m)));
  }

  /** Plain callbacks send nothing. */

  lemma {:induction false} NoSends(hs: seq<Handler>)
    requires forall h :: h in hs ==> h.action.Callback?
    ensures Sends(hs) == []
  {
    if hs != [] {
      NoSends(hs[1..]);
    }
  }

  // ---------------------------------------------------------------------------
  // the client object

  class SignalingClient {
    var handlers: Registry
    var readyState: ReadyState
    var outbox: seq<Message>
    var invocations: seq<Invocation>

    function State(): ClientState
      reads this
    {
      ClientState(handlers, readyState, outbox, invocations)
    }

    ghost predicate Valid()
      reads this
    {
      Total(handlers)
    }

    /** A client whose socket is still connecting and that has no handlers. */
    constructor ()
      ensures Valid()
      ensures State() == ClientState(EmptyRegistry(), CONNECTING, [], [])
    {
      handlers := EmptyRegistry();
      readyState := CONNECTING;
      outbox := [];
      invocations := [];
    }

    method Subscribe(e: EventKind, h: Handler)
      requires Valid()
      modifies this
      ensures Valid()
      ensures State() == SubscribeEffect(old(State()), e, h)
    {
      handlers := handlers[e := handlers[e] + [h]];
    }

    method Unsubscribe(e: EventKind, h: Handler)
      requires Valid()
      modifies this
      ensures Valid()
      ensures State() == UnsubscribeEffect(old(State()), e, h)
    {
      handlers := handlers[e := Without(handlers[e], h)];
    }

    method Send(m: Message) returns (r: Outcome<TransportError>)
      modifies this
      ensures (State(), r) == SendEffect(old(State()), m)
    {
      r := Pass;
      if readyState == OPEN {
        outbox := outbox + [m];
      } else if readyState == CONNECTING {
        r := Fail(TransportError);
      }
    }

    /** Calls each handler of `e`, as subscribed when the dispatch starts, in order. */
    method Dispatch(e: EventKind, ev: Event) returns (r: Outcome<TransportError>)
      requires Valid()
      modifies this
      ensures Valid()
      ensures (State(), r) == DispatchEffect(old(State()), e, ev)
    {
      var hs := handlers[e];
      var i := 0;
      while i < |hs|
        invariant 0 <= i <= |hs|
        invariant handlers == old(handlers)
        invariant Deliver(State(), hs[i..], e, ev) == DispatchEffect(old(State()), e, ev)
      {
        assert hs[i..][1..] == hs[i + 1..];
        invocations := invocations + [Invocation(hs[i], e, ev)];
        match hs[i].action {
          case Callback =>
          case SendOnInvoke(m) =>
            r := Send(m);
            if r.Fail? {
              return;
            }
        }
        i := i + 1;
      }
      r := Pass;
    }

    /** The socket opened: `OnSocketOpened` is dispatched. */
    method OnOpen() returns (r: Outcome<TransportError>)
      requires Valid()
      modifies this
      ensures Valid()
      ensures (State(), r) == DispatchEffect(old(State()).(readyState := OPEN), OnSocketOpened, NoData)
    {
      readyState := OPEN;
      r := Dispatch(OnSocketOpened, NoData);
    }

    /** The socket closed: `OnSocketClosed` is dispatched. */
    method OnClose() returns (r: Outcome<TransportError>)
      requires Valid()
      modifies this
      ensures Valid()
      ensures (State(), r) == DispatchEffect(old(State()).(readyState := CLOSED), OnSocketClosed, NoData)
    {
      readyState := CLOSED;
      r := Dispatch(OnSocketClosed, NoData);
    }

    /** A socket error: `OnSocketError` is dispatched with the error's type. */
    method OnError(errorType: string) returns (r: Outcome<TransportError>)
      requires Valid()
      modifies this
      ensures Valid()
      ensures (State(), r) == DispatchEffect(old(State()), OnSocketError, Event(Some(errorType), None))
    {
      r := Dispatch(OnSocketError, Event(Some(errorType), None));
    }

    /** An inbound frame; `frame` is None when it does not parse. A failure inside the dispatch is caught. */
    method OnMessage(frame: Option<Message>)
      requires Valid()
      modifies this
      ensures Valid()
      ensures State() == OnMessageEffect(old(State()), frame)
    {
      if frame.Some? {
        var _ := Dispatch(OnSocketMessage, Event(None, frame));
      }
    }
  }
}
