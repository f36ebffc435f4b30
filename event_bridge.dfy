/** The message bridge: a multicast event registry, a table of host calls
    awaiting their reply, and the dispatch of every inbound message type.
    Each operation is a function on `BridgeState` and the host's `Journal`;
    class `EmbedBridge` holds the same state in fields and is proved to follow it. */
module EventBridge {
  import opened Values
  import opened Messages
  import opened Runtime

  datatype BridgeState = BridgeState(
    events: map<string, seq<Callback>>,     // event name to handlers, in registration order
    pendingReplies: map<EventId, Ticket>,   // host call awaiting its reply, by id
    webViewRef: bool,                       // the bridge still holds the web view ref
    nextEventId: nat)                       // counter the next host event id is issued from

  /** The outcome of one operation: the bridge's new state and the host's new journal. */
  datatype Step = Step(bridge: BridgeState, journal: Journal)

  function Fresh(webViewRef: bool): BridgeState
  {
    BridgeState(map[], map[], webViewRef, 0)
  }

  /** Every pending id was issued by this bridge. */
  predicate ValidState(b: BridgeState)
  {
    b.pendingReplies.Keys <= IssuedBelow(b.nextEventId)
  }

  function Handlers(events: map<string, seq<Callback>>, name: string): seq<Callback>
  {
    if name in events then events[name] else []
  }

  /** Messages reach the shell only while the ref is held and a view is attached to it. */
  predicate Live(b: BridgeState, mounted: bool)
  {
    b.webViewRef && mounted
  }

  /** sendMessage: post `msg` into the web view, or do nothing when there is none. */
  function Post(j: Journal, live: bool, msg: Message): Journal
  {
    if live then j.(injected := j.injected + [msg]) else j
  }

  function Log(j: Journal, d: Diagnostic): Journal
  {
    j.(console := j.console + [d])
  }

  /** The promise `t` is resolved with `v`. */
  function Resolve(j: Journal, t: Ticket, v: Option<Value>): Journal
  {
    j.(settled := j.settled + [Settlement(t, v)])
  }

  /** registerEmbedEvent: append, never replace. */
  function Register(events: map<string, seq<Callback>>, name: string, cb: Callback): (r: map<string, seq<Callback>>)
    ensures Handlers(r, name) == Handlers(events, name) + [cb]
    ensures forall n :: n != name ==> Handlers(r, n) == Handlers(events, n)
    ensures r.Keys == events.Keys + {name}
  {
    events[name := Handlers(events, name) + [cb]]
  }

  /** trigger: a fresh promise; with a web view, a HOST_EVENT under a fresh id whose
      resolver is recorded; without one, a warning and `undefined` at once. */
  function TriggerStep(b: BridgeState, mounted: bool, j: Journal, name: string, payload: Option<Value>): Step
  {
    var ticket := j.nextPromise;
    var j1 := j.(nextPromise := ticket + 1);
    if !Live(b, mounted) then
      Step(b, Resolve(Log(j1, WebViewNotReady), ticket, None))
    else
      var id := IssuedId(b.nextEventId);
      Step(b.(pendingReplies := b.pendingReplies[id := ticket], nextEventId := b.nextEventId + 1),
           Post(j1, true, HostEvent(name, id, payload)))
  }

  /** The id a responder answers to when the message asks for one. */
  function ResponderOf(eventId: EventId, hasResponder: bool): Option<EventId>
  {
    if hasResponder && eventId != "" then Some(eventId) else None
  }

  /** Run `hs` in order on `payload`; only the first is handed the responder, and its
      reply, if it gives one, goes back as EMBED_EVENT_REPLY under the echoed id. */
  function Dispatch(hs: seq<Callback>, payload: Option<Value>, responder: Option<EventId>, live: bool, j: Journal): Journal
    decreases |hs|
  {
    if hs == [] then j
    else
      var j1 := j.(calls := j.calls + [Invocation(hs[0], payload, responder)]);
      var j2 := if responder.Some? && hs[0].reply.Some?
                then Post(j1, live, EmbedEventReply(responder.value, hs[0].reply))
                else j1;
      Dispatch(hs[1..], payload, None, live, j2)
  }

  /** handleMessage: the single inbound dispatch point. */
  function Receive(b: BridgeState, mounted: bool, token: string, j: Journal, msg: Message): Step
  {
    match msg
    case RequestAuthToken =>
      Step(b, Post(j, Live(b, mounted), AuthTokenResponse(token)))
    case EmbedEvent(name, payload, id, hasResponder) =>
      if name in b.events
      then Step(b, Dispatch(b.events[name], payload, ResponderOf(id, hasResponder), Live(b, mounted), j))
      else Step(b, j)
    case HostEventReply(id, payload) =>
      if id in b.pendingReplies
      then Step(b.(pendingReplies := b.pendingReplies - {id}), Resolve(j, b.pendingReplies[id], payload))
      else Step(b, j)
    case InitVercelShell =>
      Step(b, j)
    case _ =>
      Step(b, Log(j, UnknownMessageType(TypeName(msg))))
  }

  /** destroy: forget every handler and every pending call, and release the ref. */
  function Destroyed(b: BridgeState): BridgeState
  {
    b.(events := map[], pendingReplies := map[], webViewRef := false)
  }

  /** Inbound messages delivered one after another. */
  function ReceiveAll(b: BridgeState, mounted: bool, token: string, j: Journal, msgs: seq<Message>): Step
    decreases |msgs|
  {
    if msgs == [] then Step(b, j)
    else
      var s := Receive(b, mounted, token, j, msgs[0]);
      ReceiveAll(s.bridge, mounted, token, s.journal, msgs[1..])
  }

  // ---------------------------------------------------------------------------
  // Properties

  /** A fresh bridge knows no event and awaits no reply. */
  lemma FreshIsEmpty(webViewRef: bool, name: string)
    ensures ValidState(Fresh(webViewRef))
    ensures Handlers(Fresh(webViewRef).events, name) == []
    ensures Fresh(webViewRef).pendingReplies == map[]
  {
  }

  /** Registering twice under one name keeps both, first one first. */
  lemma RegisterIsMulticast(events: map<string, seq<Callback>>, name: string, cb1: Callback, cb2: Callback)
    requires name !in events
    ensures Register(Register(events, name, cb1), name, cb2)[name] == [cb1, cb2]
  {
  }

  /** trigger keeps the ids issued so far, records its resolver under an id that no
      pending call uses, and sends that id in its HOST_EVENT. */
  lemma TriggerIsFresh(b: BridgeState, mounted: bool, j: Journal, name: string, payload: Option<Value>)
    requires ValidState(b) && Live(b, mounted)
    ensures var s := TriggerStep(b, mounted, j, name, payload);
            var id := IssuedId(b.nextEventId);
            && ValidState(s.bridge)
            && id !in b.pendingReplies
            && s.bridge.pendingReplies == b.pendingReplies[id := j.nextPromise]
            && s.journal.injected == j.injected + [HostEvent(name, id, payload)]
            && s.journal.settled == j.settled
  {
    IssuedIdFresh(b.nextEventId);
  }

  /** Without a web view, trigger sends nothing, warns, and settles its promise with
      `undefined` at once. */
  lemma TriggerWithoutWebView(b: BridgeState, mounted: bool, j: Journal, name: string, payload: Option<Value>)
    requires !Live(b, mounted)
    ensures var s := TriggerStep(b, mounted, j, name, payload);
            && s.bridge == b
            && s.journal.injected == j.injected
            && s.journal.console == j.console + [WebViewNotReady]
            && s.journal.settled == j.settled + [Settlement(j.nextPromise, None)]
  {
  }

  /** Every operation keeps the pending table within the issued ids. */
  lemma ReceivePreservesValid(b: BridgeState, mounted: bool, token: string, j: Journal, msg: Message)
    requires ValidState(b)
    ensures ValidState(Receive(b, mounted, token, j, msg).bridge)
    ensures Receive(b, mounted, token, j, msg).bridge.nextEventId == b.nextEventId
  {
  }

  lemma TriggerPreservesValid(b: BridgeState, mounted: bool, j: Journal, name: string, payload: Option<Value>)
    requires ValidState(b)
    ensures ValidState(TriggerStep(b, mounted, j, name, payload).bridge)
  {
    IssuedIdFresh(b.nextEventId);
  }

  /** A HOST_EVENT_REPLY settles the promise waiting under its id with exactly its
      payload and removes the entry; for an id nobody waits on it changes nothing. */
  lemma ReplySettlesAndRemoves(b: BridgeState, mounted: bool, token: string, j: Journal, id: EventId, payload: Option<Value>)
    ensures var s := Receive(b, mounted, token, j, HostEventReply(id, payload));
            && (id in b.pendingReplies ==>
                  s.journal == j.(settled := j.settled + [Settlement(b.pendingReplies[id], payload)])
                  && s.bridge.pendingReplies == b.pendingReplies - {id})
            && (id !in b.pendingReplies ==> s == Step(b, j))
            && id !in s.bridge.pendingReplies
  {
  }

  /** The request/reply round trip: a trigger followed by a reply that echoes its id
      settles that trigger's promise with exactly the reply payload, restores the
      pending table, and a second reply with the same id is dropped. */
  lemma {:induction false} TriggerThenReply(b: BridgeState, mounted: bool, token: string, j: Journal,
                                            name: string, payload: Option<Value>, reply: Option<Value>)
    requires ValidState(b) && Live(b, mounted)
    ensures var s1 := TriggerStep(b, mounted, j, name, payload);
            var id := s1.journal.injected[|s1.journal.injected| - 1].eventId;
            var s2 := Receive(s1.bridge, mounted, token, s1.journal, HostEventReply(id, reply));
            var s3 := Receive(s2.bridge, mounted, token, s2.journal, HostEventReply(id, reply));
            && s2.journal.settled == j.settled + [Settlement(j.nextPromise, reply)]
            && s2.bridge.pendingReplies == b.pendingReplies
            && s3 == s2
  {
    var id := IssuedId(b.nextEventId);
    TriggerIsFresh(b, mounted, j, name, payload);
    var s1 := TriggerStep(b, mounted, j, name, payload);
    assert s1.journal.injected[|s1.journal.injected| - 1] == HostEvent(name, id, payload);
    assert s1.bridge.pendingReplies - {id} == b.pendingReplies;
  }

  /** Dispatch runs every handler exactly once, in order, on the payload, handing
      the responder to the first only; it settles nothing and logs nothing. */
  lemma {:induction false} DispatchRunsEachHandler(hs: seq<Callback>, payload: Option<Value>, responder: Option<EventId>, live: bool, j: Journal)
    ensures var r := Dispatch(hs, payload, responder, live, j);
            && |r.calls| == |j.calls| + |hs|
            && r.calls[..|j.calls|] == j.calls
            && (forall k :: 0 <= k < |hs| ==>
                  r.calls[|j.calls| + k] == Invocation(hs[k], payload, if k == 0 then responder else None))
            && r.settled == j.settled && r.console == j.console
            && r.reported == j.reported && r.nextPromise == j.nextPromise
    decreases |hs|
  {
    if hs != [] {
      var j1 := j.(calls := j.calls + [Invocation(hs[0], payload, responder)]);
      var j2 := if responder.Some? && hs[0].reply.Some?
                then Post(j1, live, EmbedEventReply(responder.value, hs[0].reply))
                else j1;
      DispatchRunsEachHandler(hs[1..], payload, None, live, j2);
      var r := Dispatch(hs, payload, responder, live, j);
      assert r == Dispatch(hs[1..], payload, None, live, j2);
      forall k | 0 <= k < |hs|
        ensures r.calls[|j.calls| + k] == Invocation(hs[k], payload, if k == 0 then responder else None)
      {
        if k > 0 {
          assert r.calls[|j2.calls| + (k - 1)] == Invocation(hs[1..][k - 1], payload, None);
        } else {
          assert r.calls[..|j2.calls|] == j2.calls;
          assert r.calls[|j.calls|] == j2.calls[|j.calls|];
        }
      }
      assert r.calls[..|j.calls|] == r.calls[..|j2.calls|][..|j.calls|];
    }
  }

  /** Dispatch sends at most one message: the first handler's reply under the echoed
      id, when a responder was asked for and the handler answers. */
  lemma {:induction false} DispatchRepliesOnce(hs: seq<Callback>, payload: Option<Value>, responder: Option<EventId>, live: bool, j: Journal)
    ensures Dispatch(hs, payload, responder, live, j).injected ==
            if live && responder.Some? && hs != [] && hs[0].reply.Some?
            then j.injected + [EmbedEventReply(responder.value, hs[0].reply)]
            else j.injected
    decreases |hs|
  {
    if hs != [] {
      var j1 := j.(calls := j.calls + [Invocation(hs[0], payload, responder)]);
      var j2 := if responder.Some? && hs[0].reply.Some?
                then Post(j1, live, EmbedEventReply(responder.value, hs[0].reply))
                else j1;
      DispatchRepliesOnce(hs[1..], payload, None, live, j2);
    }
  }

  /** An EMBED_EVENT for a name nobody registered has no effect at all. */
  lemma UnregisteredEventIsDropped(b: BridgeState, mounted: bool, token: string, j: Journal,
                                   name: string, payload: Option<Value>, id: EventId, hasResponder: bool)
    requires name !in b.events
    ensures Receive(b, mounted, token, j, EmbedEvent(name, payload, id, hasResponder)) == Step(b, j)
  {
  }

  /** A REQUEST_AUTH_TOKEN is answered with the current credential and changes
      nothing else. */
  lemma AuthTokenIsAnswered(b: BridgeState, mounted: bool, token: string, j: Journal)
    requires Live(b, mounted)
    ensures Receive(b, mounted, token, j, RequestAuthToken)
            == Step(b, j.(injected := j.injected + [AuthTokenResponse(token)]))
  {
  }

  /** A message of a type the bridge does not know is logged with that type and
      nothing else happens. */
  lemma UnknownTypeIsLogged(b: BridgeState, mounted: bool, token: string, j: Journal, t: string)
    ensures Receive(b, mounted, token, j, Unknown(t))
            == Step(b, j.(console := j.console + [UnknownMessageType(t)]))
  {
  }

  /** After destroy no inbound message, however many, runs a handler, settles a
      promise or posts anything: calls still pending are abandoned. */
  lemma {:induction false} DestroyedBridgeIsInert(b: BridgeState, mounted: bool, token: string, j: Journal, msgs: seq<Message>)
    requires b.events == map[] && b.pendingReplies == map[] && !b.webViewRef
    ensures var s := ReceiveAll(b, mounted, token, j, msgs);
            && s.bridge == b
            && s.journal.calls == j.calls
            && s.journal.settled == j.settled
            && s.journal.injected == j.injected
    decreases |msgs|
  {
    if msgs != [] {
      var s := Receive(b, mounted, token, j, msgs[0]);
      assert s.bridge == b;
      assert s.journal.calls == j.calls && s.journal.settled == j.settled && s.journal.injected == j.injected;
      DestroyedBridgeIsInert(b, mounted, token, s.journal, msgs[1..]);
    }
  }

  lemma DestroyClears(b: BridgeState)
    ensures var d := Destroyed(b);
            d.events == map[] && d.pendingReplies == map[] && !d.webViewRef && ValidState(d)
  {
  }

  // ---------------------------------------------------------------------------
  // The bridge object

  class EmbedBridge {
    const host: Host
    var events: map<string, seq<Callback>>
    var pendingReplies: map<EventId, Ticket>
    var webViewRef: bool
    var nextEventId: nat

    function Model(): BridgeState
      reads this
    {
      BridgeState(events, pendingReplies, webViewRef, nextEventId)
    }

    ghost predicate Valid()
      reads this
    {
      ValidState(Model())
    }

    /** `new EmbedBridge(webViewRef)`; `webViewRef` is false for a null ref. */
    constructor (webViewRef: bool, host: Host)
      ensures Model() == Fresh(webViewRef) && this.host == host && Valid()
    {
      this.host := host;
      events := map[];
      pendingReplies := map[];
      this.webViewRef := webViewRef;
      nextEventId := 0;
    }

    method SendMessage(msg: Message)
      modifies host`journal
      ensures host.journal == Post(old(host.journal), Live(Model(), host.mounted), msg)
    {
      if webViewRef && host.mounted {
        host.journal := host.journal.(injected := host.journal.injected + [msg]);
      }
    }

    method RegisterEmbedEvent(eventName: string, callback: Callback)
      requires Valid()
      modifies this
      ensures Valid()
      ensures Model() == old(Model()).(events := Register(old(events), eventName, callback))
    {
      var existing := if eventName in events then events[eventName] else [];
      events := events[eventName := existing + [callback]];
    }

    method Trigger(eventName: string, payload: Option<Value>) returns (ticket: Ticket)
      requires Valid()
      modifies this, host`journal
      ensures Valid()
      ensures ticket == old(host.journal.nextPromise)
      ensures Step(Model(), host.journal) == TriggerStep(old(Model()), host.mounted, old(host.journal), eventName, payload)
    {
      TriggerPreservesValid(Model(), host.mounted, host.journal, eventName, payload);
      ticket := host.journal.nextPromise;
      host.journal := host.journal.(nextPromise := ticket + 1);
      if !(webViewRef && host.mounted) {
        host.journal := host.journal.(console := host.journal.console + [WebViewNotReady]);
        host.journal := host.journal.(settled := host.journal.settled + [Settlement(ticket, None)]);
        return;
      }
      var id := IssuedId(nextEventId);
      nextEventId := nextEventId + 1;
      pendingReplies := pendingReplies[id := ticket];
      SendMessage(HostEvent(eventName, id, payload));
    }

    method HandleMessage(msg: Message)
      requires Valid()
      modifies this, host`journal
      ensures Valid()
      ensures Step(Model(), host.journal) == Receive(old(Model()), host.mounted, host.authToken, old(host.journal), msg)
    {
      ReceivePreservesValid(Model(), host.mounted, host.authToken, host.journal, msg);
      match msg
      case RequestAuthToken =>
        SendMessage(AuthTokenResponse(host.authToken));
      case EmbedEvent(name, payload, id, hasResponder) =>
        if name in events {
          var handlers := events[name];
          var responder := ResponderOf(id, hasResponder);
          var i := 0;
          while i < |handlers|
            invariant 0 <= i <= |handlers|
            invariant Model() == old(Model())
            invariant Dispatch(handlers[i..], payload, if i == 0 then responder else None, Live(Model(), host.mounted), host.journal)
                      == Dispatch(handlers, payload, responder, Live(Model(), host.mounted), old(host.journal))
          {
            var given := if i == 0 then responder else None;
            var h := handlers[i];
            host.journal := host.journal.(calls := host.journal.calls + [Invocation(h, payload, given)]);
            if given.Some? && h.reply.Some? {
              SendMessage(EmbedEventReply(given.value, h.reply));
            }
            assert handlers[i..][1..] == handlers[i + 1..];
            i := i + 1;
          }
        }
      case HostEventReply(id, payload) =>
        if id in pendingReplies {
          var resolver := pendingReplies[id];
          pendingReplies := pendingReplies - {id};
          host.journal := host.journal.(settled := host.journal.settled + [Settlement(resolver, payload)]);
        }
      case InitVercelShell =>
      case _ =>
        host.journal := host.journal.(console := host.journal.console + [UnknownMessageType(TypeName(msg))]);
    }

    method Destroy()
      modifies this
      ensures Valid()
      ensures Model() == Destroyed(old(Model()))
    {
      events := map[];
      pendingReplies := map[];
      webViewRef := false;
    }
  }
}
