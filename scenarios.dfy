/** Whole-component runs, stated for every props value: what the shell receives
    from mount to readiness, how a host call is answered, and what a malformed or
    early message does. Each starts from a fresh host whose web view is attached. */
module Scenarios {
  import opened Values
  import opened Messages
  import opened Runtime
  import opened EventBridge
  import opened BaseEmbedding

  /** Mount sends nothing; readiness logs the wait from the stale in-handler push,
      registers the queued subscriptions in order, and its commit sends exactly INIT
      then EMBED; rendering again with the same props sends nothing more. */
  method MountThenReadiness(embedEvents: map<string, string>, cache: Value, token: string, props: Props)
    returns (afterMount: Journal, afterReady: Journal, registry: map<string, seq<Callback>>, afterSameProps: Journal)
    requires EventPropsAreCallbacks(props)
    ensures afterMount == EmptyJournal
    ensures afterReady.injected == [Init(cache), Embed(EmbedTypeOf(props), Partition(embedEvents, props).viewConfig)]
    ensures afterReady.console == [WaitingForShell]
    ensures registry == Replay(map[], Partition(embedEvents, props).handlers)
    ensures afterSameProps == afterReady
  {
    var host := new Host(true, token);
    var embed := new BaseEmbed(host, embedEvents, cache, props);
    afterMount := host.journal;
    ghost var queued := embed.state.pendingHandlers;
    assert queued == Partition(embedEvents, props).handlers;
    embed.HandleMessage(Some(InitVercelShell));
    ghost var b := embed.scheduled.bridge;
    assert b.events == Replay(map[], queued);
    embed.Settle();
    assert embed.state.bridge == b;
    afterReady := host.journal;
    registry := embed.state.bridge.events;
    embed.Render(props);
    afterSameProps := host.journal;
  }

  /** After readiness, a host call goes out as HOST_EVENT; the reply that echoes its
      id settles that call's promise with the reply payload, and a duplicate reply
      is dropped. */
  method TriggerThenReplyAfterReadiness(embedEvents: map<string, string>, cache: Value, token: string, props: Props,
                                        name: string, payload: Option<Value>, reply: Option<Value>)
    returns (ticket: Ticket, request: Message, settled: seq<Settlement>)
    requires EventPropsAreCallbacks(props)
    ensures request.HostEvent? && request.eventName == name && request.payload == payload
    ensures settled == [Settlement(ticket, reply)]
  {
    var host, embed := MountAndReady(embedEvents, cache, token, props);
    ticket := embed.Trigger(name, payload);
    request := host.journal.injected[|host.journal.injected| - 1];
    embed.HandleMessage(Some(HostEventReply(request.eventId, reply)));
    embed.HandleMessage(Some(HostEventReply(request.eventId, reply)));
    settled := host.journal.settled;
  }

  /** Before readiness there is no bridge: a host call sends nothing and its promise
      is settled with `undefined` at once. */
  method TriggerBeforeReadiness(embedEvents: map<string, string>, cache: Value, token: string, props: Props,
                                name: string, payload: Option<Value>)
    returns (ticket: Ticket, after: Journal)
    requires EventPropsAreCallbacks(props)
    ensures after.injected == []
    ensures after.settled == [Settlement(ticket, None)]
  {
    var host := new Host(true, token);
    var embed := new BaseEmbed(host, embedEvents, cache, props);
    ticket := embed.Trigger(name, payload);
    after := host.journal;
  }

  /** Readiness while the native view is detached sends nothing: both the push in
      the handler and the one in the next commit only log the wait. Attaching the
      view later sends nothing either, because no push dependency changes. */
  method ReadinessWhileDetached(embedEvents: map<string, string>, cache: Value, token: string, props: Props)
    returns (afterReady: Journal, afterAttach: Journal)
    requires EventPropsAreCallbacks(props)
    ensures afterReady.injected == []
    ensures afterReady.console == [WaitingForShell, WaitingForShell]
    ensures afterAttach == afterReady
  {
    var host := new Host(false, token);
    var embed := new BaseEmbed(host, embedEvents, cache, props);
    embed.HandleMessage(Some(InitVercelShell));
    embed.Settle();
    afterReady := host.journal;
    host.SetMounted(true);
    embed.Render(props);
    afterAttach := host.journal;
  }

  /** A message that fails to parse is reported as an event error and changes no
      state; a later readiness announcement still works. */
  method MalformedThenReadiness(embedEvents: map<string, string>, cache: Value, token: string, props: Props)
    returns (reported: seq<ErrorReport>, injected: seq<Message>)
    requires EventPropsAreCallbacks(props)
    ensures reported == [ErrorReport(EventError, Lookup(props, "onErrorSDK"))]
    ensures injected == [Init(cache), Embed(EmbedTypeOf(props), Partition(embedEvents, props).viewConfig)]
  {
    var host := new Host(true, token);
    var embed := new BaseEmbed(host, embedEvents, cache, props);
    embed.HandleMessage(None);
    embed.Settle();
    embed.HandleMessage(Some(InitVercelShell));
    embed.Settle();
    reported := host.journal.reported;
    injected := host.journal.injected;
  }

  /** Mount on an attached view, then the shell's readiness announcement and the
      re-render it causes. */
  method MountAndReady(embedEvents: map<string, string>, cache: Value, token: string, props: Props)
    returns (host: Host, embed: BaseEmbed)
    requires EventPropsAreCallbacks(props)
    ensures fresh(host) && fresh(embed) && embed.state.bridge != null && fresh(embed.state.bridge)
    ensures embed.Valid() && embed.Settled() && embed.host == host && host.mounted && host.authToken == token
    ensures embed.props == props && embed.embedEvents == embedEvents && embed.configCache == cache
    ensures embed.state.bridge.Model() == Fresh(true).(events := Replay(map[], Partition(embedEvents, props).handlers))
    ensures host.journal == EmptyJournal.(injected := [Init(cache), Embed(EmbedTypeOf(props), Partition(embedEvents, props).viewConfig)],
                                          console := [WaitingForShell])
  {
    host := new Host(true, token);
    embed := new BaseEmbed(host, embedEvents, cache, props);
    ghost var queued := embed.state.pendingHandlers;
    assert queued == Partition(embedEvents, props).handlers;
    embed.HandleMessage(Some(InitVercelShell));
    ghost var b := embed.scheduled.bridge;
    assert b.Model() == Fresh(true).(events := Replay(map[], queued));
    embed.Settle();
    assert embed.state.bridge == b;
  }

  /** `calls` are exactly the callbacks `hs`, in order, each run with `payload`
      and no responder. */
  predicate RanInOrder(calls: seq<Invocation>, hs: seq<Callback>, payload: Option<Value>)
  {
    && |calls| == |hs|
    && forall k :: 0 <= k < |hs| ==> calls[k] == Invocation(hs[k], payload, None)
  }

  /** Dispatch with no responder, onto a journal with no calls yet. */
  lemma DispatchFromNoCalls(hs: seq<Callback>, payload: Option<Value>, live: bool, j: Journal)
    requires j.calls == []
    ensures RanInOrder(Dispatch(hs, payload, None, live, j).calls, hs, payload)
  {
    DispatchRunsEachHandler(hs, payload, None, live, j);
    var r := Dispatch(hs, payload, None, live, j);
    forall k | 0 <= k < |hs|
      ensures r.calls[k] == Invocation(hs[k], payload, None)
    {
      assert r.calls[|j.calls| + k] == Invocation(hs[k], payload, None);
    }
  }

  /** Once the shell is ready, an EMBED_EVENT runs every subscription the props
      queued under its name, in prop order, each with the event's payload. */
  method QueuedHandlersRunAfterReadiness(embedEvents: map<string, string>, cache: Value, token: string, props: Props,
                                         name: string, data: Option<Value>)
    returns (calls: seq<Invocation>)
    requires EventPropsAreCallbacks(props)
    ensures RanInOrder(calls, Named(Partition(embedEvents, props).handlers, name), data)
  {
    var host, embed := MountAndReady(embedEvents, cache, token, props);
    ghost var queued := Partition(embedEvents, props).handlers;
    ghost var j0 := host.journal;
    ghost var model := embed.state.bridge.Model();
    ghost var hs := Named(queued, name);
    ReplayKeepsOrder(map[], queued, name);
    assert Handlers(model.events, name) == hs;
    embed.HandleMessage(Some(EmbedEvent(name, data, "", false)));
    if name in model.events {
      assert host.journal == Dispatch(hs, data, None, true, j0);
      DispatchFromNoCalls(hs, data, true, j0);
    } else {
      assert host.journal == j0;
    }
    calls := host.journal.calls;
  }

  /** A liveboard embedding with one `onLoad` subscription. */
  function LoadProps(cb: Callback): Props
  {
    [("embedType", Str("Liveboard")), ("onLoad", Function(cb)), ("liveboardId", Str("lb-123"))]
  }

  /** Its one subscription is queued under the enumeration's name for `Load`, so
      an EMBED_EVENT named "load" runs exactly that callback. */
  lemma LoadPropsQueueLoad(cb: Callback)
    ensures EventPropsAreCallbacks(LoadProps(cb))
    ensures Partition(map["Load" := "load"], LoadProps(cb)).handlers == [("load", cb)]
    ensures Named(Partition(map["Load" := "load"], LoadProps(cb)).handlers, "load") == [cb]
  {
    var props := LoadProps(cb);
    var embedEvents := map["Load" := "load"];
    assert !IsEventKey("embedType") && IsEventKey("onLoad") && !IsEventKey("liveboardId") by {
      assert "embedType"[..2] == "em" && "onLoad"[..2] == "on" && "liveboardId"[..2] == "li";
    }
    assert EventNameOf(embedEvents, "onLoad") == "load" by {
      assert "onLoad"[2..] == "Load";
    }
    assert props[..1][..0] == [] && props[..2][..1] == props[..1] && props[..3][..2] == props[..2] && props[..3] == props;
    assert Partition(embedEvents, props[..1]).handlers == [];
    assert Partition(embedEvents, props[..2]).handlers == [("load", cb)];
    assert [("load", cb)][..0] == [];
  }
}
