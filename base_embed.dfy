/** The embedding lifecycle controller: it splits host props into subscriptions
    and view configuration, waits for the shell's readiness announcement, then
    builds the bridge, replays the queued subscriptions into it and pushes the
    configuration once every gate holds.

    React's deferred state is explicit: a setter writes `scheduled`, the event
    handler keeps reading the committed `state` it closed over, and `Commit`
    makes `scheduled` the new `state` and runs the two effects whose
    dependencies changed. */
module BaseEmbedding {
  import opened Values
  import opened Messages
  import opened Runtime
  import opened EventBridge

  /** Host props in `Object.keys` order. */
  type Props = seq<(string, Value)>

  predicate IsEventKey(key: string)
  {
    |key| >= 2 && key[..2] == "on"
  }

  /** Keys that go into the view configuration. */
  predicate IsConfigKey(key: string)
  {
    !IsEventKey(key) && key != "embedType"
  }

  /** `EmbedEvent[key minus "on"]`; a name missing from the enumeration is
      `undefined`, which JavaScript turns into the property key "undefined". */
  function EventNameOf(embedEvents: map<string, string>, key: string): string
    requires IsEventKey(key)
  {
    var suffix := key[2..];
    if suffix in embedEvents then embedEvents[suffix] else "undefined"
  }

  /** Every `on…` prop holds a function, as the typed handler props declare. */
  predicate EventPropsAreCallbacks(props: Props)
  {
    forall i :: 0 <= i < |props| && IsEventKey(props[i].0) ==> props[i].1.Function?
  }

  predicate DistinctKeys(props: Props)
  {
    forall i, j :: 0 <= i < j < |props| ==> props[i].0 != props[j].0
  }

  /** `props[key]`, the last entry for `key` winning as an assignment would. */
  function Lookup(props: Props, key: string): Option<Value>
    decreases |props|
  {
    if props == [] then None
    else if props[|props| - 1].0 == key then Some(props[|props| - 1].1)
    else Lookup(props[..|props| - 1], key)
  }

  function EmbedTypeOf(props: Props): Option<Value>
  {
    Lookup(props, "embedType")
  }

  datatype Partitioned = Partitioned(handlers: seq<(string, Callback)>, viewConfig: map<string, Value>)

  /** What one run of the props effect collects, over the props in order. */
  function Partition(embedEvents: map<string, string>, props: Props): (r: Partitioned)
    requires EventPropsAreCallbacks(props)
    ensures r.viewConfig.Keys == set i | 0 <= i < |props| && IsConfigKey(props[i].0) :: props[i].0
    decreases |props|
  {
    if props == [] then Partitioned([], map[])
    else
      var n := |props| - 1;
      var rest := Partition(embedEvents, props[..n]);
      var key := props[n].0;
      if IsEventKey(key) then rest.(handlers := rest.handlers + [(EventNameOf(embedEvents, key), props[n].1.f)])
      else if key != "embedType" then rest.(viewConfig := rest.viewConfig[key := props[n].1])
      else rest
  }

  /** How many of the props are subscriptions. */
  function CountEventKeys(props: Props): nat
    decreases |props|
  {
    if props == [] then 0
    else CountEventKeys(props[..|props| - 1]) + (if IsEventKey(props[|props| - 1].0) then 1 else 0)
  }

  /** Each `on…` prop becomes one queued handler, named from the enumeration, at
      the position given by how many subscriptions precede it: the queue keeps
      the props' order and holds nothing else. */
  lemma {:induction false} PartitionSubscriptions(embedEvents: map<string, string>, props: Props)
    requires EventPropsAreCallbacks(props)
    ensures |Partition(embedEvents, props).handlers| == CountEventKeys(props)
    ensures forall i :: 0 <= i < |props| && IsEventKey(props[i].0) ==>
              && CountEventKeys(props[..i]) < CountEventKeys(props)
              && Partition(embedEvents, props).handlers[CountEventKeys(props[..i])]
                 == (EventNameOf(embedEvents, props[i].0), props[i].1.f)
    decreases |props|
  {
    if props != [] {
      var n := |props| - 1;
      var pre := props[..n];
      PartitionSubscriptions(embedEvents, pre);
      var r := Partition(embedEvents, props);
      var rest := Partition(embedEvents, pre);
      assert props[..n] == pre;
      forall i | 0 <= i < |props| && IsEventKey(props[i].0)
        ensures CountEventKeys(props[..i]) < CountEventKeys(props)
        ensures r.handlers[CountEventKeys(props[..i])] == (EventNameOf(embedEvents, props[i].0), props[i].1.f)
      {
        if i < n {
          assert pre[..i] == props[..i];
          assert pre[i] == props[i];
          assert r.handlers[..|rest.handlers|] == rest.handlers;
        }
      }
    }
  }

  /** With distinct keys, each configuration prop keeps its own value. */
  lemma {:induction false} PartitionKeepsValue(embedEvents: map<string, string>, props: Props, i: nat)
    requires EventPropsAreCallbacks(props) && DistinctKeys(props)
    requires i < |props| && IsConfigKey(props[i].0)
    ensures Partition(embedEvents, props).viewConfig[props[i].0] == props[i].1
    decreases |props|
  {
    var n := |props| - 1;
    if i < n {
      var pre := props[..n];
      assert pre[i] == props[i];
      assert props[i].0 != props[n].0;
      assert DistinctKeys(pre) by {
        forall a, b | 0 <= a < b < |pre| ensures pre[a].0 != pre[b].0 {
          assert pre[a] == props[a] && pre[b] == props[b];
        }
      }
      PartitionKeepsValue(embedEvents, pre, i);
    }
  }

  /** The props effect's loop over `Object.keys(props)`. */
  method PartitionProps(embedEvents: map<string, string>, props: Props) returns (r: Partitioned)
    requires EventPropsAreCallbacks(props)
    ensures r == Partition(embedEvents, props)
    ensures "embedType" !in r.viewConfig
  {
    var newPendingHandlers: seq<(string, Callback)> := [];
    var newViewConfig: map<string, Value> := map[];
    var i := 0;
    while i < |props|
      invariant 0 <= i <= |props|
      invariant Partitioned(newPendingHandlers, newViewConfig) == Partition(embedEvents, props[..i])
    {
      var key := props[i].0;
      if IsEventKey(key) {
        newPendingHandlers := newPendingHandlers + [(EventNameOf(embedEvents, key), props[i].1.f)];
      } else if key != "embedType" {
        newViewConfig := newViewConfig[key := props[i].1];
      }
      assert props[..i + 1][..i] == props[..i];
      i := i + 1;
    }
    assert props[..i] == props;
    r := Partitioned(newPendingHandlers, newViewConfig);
  }

  /** The handlers of `queue` registered under `name`, in queue order. */
  function Named(queue: seq<(string, Callback)>, name: string): seq<Callback>
    decreases |queue|
  {
    if queue == [] then []
    else
      var n := |queue| - 1;
      Named(queue[..n], name) + (if queue[n].0 == name then [queue[n].1] else [])
  }

  /** Registering a queue of handlers, one after another. */
  function Replay(events: map<string, seq<Callback>>, queue: seq<(string, Callback)>): map<string, seq<Callback>>
    decreases |queue|
  {
    if queue == [] then events
    else
      var n := |queue| - 1;
      Register(Replay(events, queue[..n]), queue[n].0, queue[n].1)
  }

  /** Replaying a queue appends, under every name, that name's queued handlers in
      queue order after the ones already there. */
  lemma {:induction false} ReplayKeepsOrder(events: map<string, seq<Callback>>, queue: seq<(string, Callback)>, name: string)
    ensures Handlers(Replay(events, queue), name) == Handlers(events, name) + Named(queue, name)
    decreases |queue|
  {
    if queue != [] {
      var n := |queue| - 1;
      ReplayKeepsOrder(events, queue[..n], name);
    }
  }

  /** sendConfigToShell: with the ref attached and the shell loaded, exactly INIT
      with the config cache and then EMBED with the embed type and configuration;
      otherwise nothing is sent and the wait is logged. */
  function ConfigPush(j: Journal, mounted: bool, shellLoaded: bool, cache: Value,
                      embedType: Option<Value>, config: map<string, Value>): (r: Journal)
    ensures mounted && shellLoaded ==> r == j.(injected := j.injected + [Init(cache), Embed(embedType, config)])
    ensures !(mounted && shellLoaded) ==> r == j.(console := j.console + [WaitingForShell])
  {
    if !mounted || !shellLoaded then Log(j, WaitingForShell)
    else Post(Post(j, true, Init(cache)), true, Embed(embedType, config))
  }

  /** The five state fields of the component. */
  datatype ViewState = ViewState(
    bridge: EmbedBridge?,
    shellLoaded: bool,
    viewConfig: map<string, Value>,
    pendingHandlers: seq<(string, Callback)>,
    webViewReady: bool)

  const Initial: ViewState := ViewState(null, false, map[], [], false)

  /** The push effect's dependency tuple; the memoised `sendConfigToShell` is
      determined by the embed type and the shell-loaded flag. */
  datatype PushDeps = PushDeps(
    viewConfig: map<string, Value>,
    bridge: EmbedBridge?,
    shellLoaded: bool,
    webViewReady: bool,
    embedType: Option<Value>)

  function DepsOf(s: ViewState, embedType: Option<Value>): PushDeps
  {
    PushDeps(s.viewConfig, s.bridge, s.shellLoaded, s.webViewReady, embedType)
  }

  predicate Gate(s: ViewState)
  {
    s.bridge != null && s.shellLoaded && s.webViewReady
  }

  /** The props effect's state updates: the new handlers after the queued ones,
      the configuration replaced wholesale. */
  function AfterPropsEffect(s: ViewState, p: Partitioned): ViewState
  {
    s.(pendingHandlers := s.pendingHandlers + p.handlers, viewConfig := p.viewConfig)
  }

  /** The push effect of one commit with state `s`, last run with `last`. */
  function PushEffect(j: Journal, last: Option<PushDeps>, s: ViewState, embedType: Option<Value>,
                      mounted: bool, cache: Value): Journal
  {
    if last != Some(DepsOf(s, embedType)) && Gate(s)
    then ConfigPush(j, mounted, s.shellLoaded, cache, embedType, s.viewConfig)
    else j
  }

  /** Configuration reaches the shell only when the dependencies changed, the
      bridge exists, the shell announced itself, the web view is ready and its ref
      is attached; a commit whose dependencies are deep-equal to the last run's
      sends nothing. */
  lemma PushNeedsEveryGate(j: Journal, last: Option<PushDeps>, s: ViewState, embedType: Option<Value>,
                           mounted: bool, cache: Value)
    ensures var r := PushEffect(j, last, s, embedType, mounted, cache);
            && (r.injected != j.injected ==>
                  Gate(s) && mounted && last != Some(DepsOf(s, embedType)))
            && (Gate(s) && mounted && last != Some(DepsOf(s, embedType)) ==>
                  r.injected == j.injected + [Init(cache), Embed(embedType, s.viewConfig)])
            && PushEffect(j, Some(DepsOf(s, embedType)), s, embedType, mounted, cache) == j
  {
  }

  class BaseEmbed {
    const host: Host
    const embedEvents: map<string, string>   // the EmbedEvent enumeration
    const configCache: Value                 // the config cached by init
    var props: Props
    var state: ViewState                     // committed: what the last render saw
    var scheduled: ViewState                 // with every setter called since applied
    var propsDeps: Option<Props>             // props the props effect last ran with
    var pushDeps: Option<PushDeps>           // dependencies the push effect last ran with

    ghost predicate BridgeOk(b: EmbedBridge?)
      reads this, b
    {
      b != null ==> b.host == host && b.webViewRef && b.Valid()
    }

    ghost predicate Valid()
      reads this, state.bridge, scheduled.bridge
    {
      EventPropsAreCallbacks(props) && BridgeOk(state.bridge) && BridgeOk(scheduled.bridge)
    }

    /** No update is waiting and both effects have seen the committed state. */
    predicate Settled()
      reads this
    {
      scheduled == state && propsDeps == Some(props) && pushDeps == Some(DepsOf(state, EmbedTypeOf(props)))
    }

    /** Mount: the first render and its effects. No bridge exists yet, so nothing
        is sent; the props are already split. */
    constructor (host: Host, embedEvents: map<string, string>, configCache: Value, props: Props)
      requires EventPropsAreCallbacks(props)
      modifies host`journal
      ensures Valid() && Settled()
      ensures this.host == host && this.embedEvents == embedEvents && this.configCache == configCache
      ensures this.props == props
      ensures state == AfterPropsEffect(Initial, Partition(embedEvents, props))
      ensures host.journal == old(host.journal)
    {
      this.host := host;
      this.embedEvents := embedEvents;
      this.configCache := configCache;
      this.props := props;
      state := Initial;
      scheduled := Initial;
      propsDeps := None;
      pushDeps := None;
      new;
      Settle();
    }

    /** One commit: the scheduled state becomes the rendered one, then the props
        effect and the push effect run if their dependencies changed. */
    method Commit()
      requires Valid()
      modifies this`state, this`scheduled, this`propsDeps, this`pushDeps, host`journal
      ensures Valid()
      ensures state == old(scheduled)
      ensures propsDeps == Some(props)
      ensures scheduled == if old(propsDeps) == Some(props) then old(scheduled)
                           else AfterPropsEffect(old(scheduled), Partition(embedEvents, props))
      ensures pushDeps == Some(DepsOf(state, EmbedTypeOf(props)))
      ensures host.journal == PushEffect(old(host.journal), old(pushDeps), state, EmbedTypeOf(props), host.mounted, configCache)
    {
      state := scheduled;
      if propsDeps != Some(props) {
        propsDeps := Some(props);
        var p := PartitionProps(embedEvents, props);
        scheduled := scheduled.(pendingHandlers := scheduled.pendingHandlers + p.handlers, viewConfig := p.viewConfig);
      }
      var deps := DepsOf(state, EmbedTypeOf(props));
      if pushDeps != Some(deps) {
        pushDeps := Some(deps);
        if state.bridge != null && state.shellLoaded && state.webViewReady {
          SendConfigToShell(state.bridge, state.viewConfig, state.shellLoaded);
        }
      }
    }

    /** Re-render until no update is waiting: the props effect's updates need a
        second commit, which cannot schedule anything more. */
    method Settle()
      requires Valid()
      modifies this`state, this`scheduled, this`propsDeps, this`pushDeps, host`journal
      ensures Valid() && Settled()
      ensures state == if old(propsDeps) == Some(props) then old(scheduled)
                       else AfterPropsEffect(old(scheduled), Partition(embedEvents, props))
      ensures var e := EmbedTypeOf(props);
              var j1 := PushEffect(old(host.journal), old(pushDeps), old(scheduled), e, host.mounted, configCache);
              host.journal == PushEffect(j1, Some(DepsOf(old(scheduled), e)), state, e, host.mounted, configCache)
    {
      Commit();
      if scheduled != state {
        Commit();
      }
    }

    /** The parent renders the component again with `newProps`. */
    method Render(newProps: Props)
      requires Valid() && EventPropsAreCallbacks(newProps)
      modifies this`props, this`state, this`scheduled, this`propsDeps, this`pushDeps, host`journal
      ensures Valid() && Settled() && props == newProps
      ensures state == if old(propsDeps) == Some(newProps) then old(scheduled)
                       else AfterPropsEffect(old(scheduled), Partition(embedEvents, newProps))
      ensures var e := EmbedTypeOf(newProps);
              var j1 := PushEffect(old(host.journal), old(pushDeps), old(scheduled), e, host.mounted, configCache);
              host.journal == PushEffect(j1, Some(DepsOf(old(scheduled), e)), state, e, host.mounted, configCache)
    {
      props := newProps;
      Settle();
    }

    /** sendConfigToShell, with the shell-loaded flag its memoised closure saw. */
    method SendConfigToShell(bridge: EmbedBridge, config: map<string, Value>, shellLoaded: bool)
      requires bridge.host == host && bridge.webViewRef
      modifies host`journal
      ensures host.journal == ConfigPush(old(host.journal), host.mounted, shellLoaded, configCache, EmbedTypeOf(props), config)
    {
      if !host.mounted || !shellLoaded {
        host.journal := host.journal.(console := host.journal.console + [WaitingForShell]);
        return;
      }
      bridge.SendMessage(Init(configCache));
      bridge.SendMessage(Embed(EmbedTypeOf(props), config));
    }

    /** handleInitVercelShell: everything it reads is the committed state, so the
        push it attempts sees the shell as not yet loaded. */
    method HandleInitVercelShell()
      requires Valid()
      modifies this`scheduled, host`journal
      ensures Valid()
      ensures scheduled.bridge != null && fresh(scheduled.bridge)
      ensures scheduled == old(scheduled).(bridge := scheduled.bridge, shellLoaded := true, pendingHandlers := [])
      ensures scheduled.bridge.Model() == Fresh(true).(events := Replay(map[], state.pendingHandlers))
      ensures host.journal == ConfigPush(old(host.journal), host.mounted, state.shellLoaded, configCache, EmbedTypeOf(props), state.viewConfig)
    {
      scheduled := scheduled.(shellLoaded := true);
      var newEmbedBridge := new EmbedBridge(true, host);
      scheduled := scheduled.(bridge := newEmbedBridge);
      var queue := state.pendingHandlers;
      var i := 0;
      while i < |queue|
        invariant 0 <= i <= |queue|
        invariant newEmbedBridge.Valid() && newEmbedBridge.host == host
        invariant newEmbedBridge.Model() == Fresh(true).(events := Replay(map[], queue[..i]))
        modifies newEmbedBridge
      {
        newEmbedBridge.RegisterEmbedEvent(queue[i].0, queue[i].1);
        assert queue[..i + 1][..i] == queue[..i];
        i := i + 1;
      }
      assert queue[..i] == queue;
      scheduled := scheduled.(pendingHandlers := []);
      SendConfigToShell(newEmbedBridge, state.viewConfig, state.shellLoaded);
    }

    /** handleMessage: `data` is the parsed message, `None` when parsing threw.
        Readiness builds a new bridge; the message then goes to the bridge the
        handler closed over, which on first readiness is none. */
    method HandleMessage(data: Option<Message>)
      requires Valid()
      modifies this`scheduled, host`journal, state.bridge
      ensures Valid()
      ensures data.None? ==>
                && scheduled == old(scheduled)
                && (state.bridge != null ==> state.bridge.Model() == old(state.bridge.Model()))
                && host.journal == old(host.journal).(reported := old(host.journal).reported + [ErrorReport(EventError, Lookup(props, "onErrorSDK"))])
      ensures data.Some? && data.value != InitVercelShell ==> scheduled == old(scheduled)
      ensures data == Some(InitVercelShell) ==>
                && scheduled.bridge != null && fresh(scheduled.bridge)
                && scheduled == old(scheduled).(bridge := scheduled.bridge, shellLoaded := true,
                                                pendingHandlers := [], webViewReady := true)
                && scheduled.bridge.Model() == Fresh(true).(events := Replay(map[], state.pendingHandlers))
      ensures data.Some? ==>
                var j1 := if data.value == InitVercelShell
                          then ConfigPush(old(host.journal), host.mounted, state.shellLoaded, configCache, EmbedTypeOf(props), state.viewConfig)
                          else old(host.journal);
                if state.bridge == null then host.journal == j1
                else Step(state.bridge.Model(), host.journal)
                     == Receive(old(state.bridge.Model()), host.mounted, host.authToken, j1, data.value)
    {
      if data.None? {
        host.journal := host.journal.(reported := host.journal.reported + [ErrorReport(EventError, Lookup(props, "onErrorSDK"))]);
        return;
      }
      var msg := data.value;
      if msg == InitVercelShell {
        HandleInitVercelShell();
        scheduled := scheduled.(webViewReady := true);
      }
      if state.bridge != null {
        ghost var before := state.bridge.Model();
        ReceivePreservesValid(before, host.mounted, host.authToken, host.journal, msg);
        state.bridge.HandleMessage(msg);
      }
    }

    /** The ref's trigger: through the committed bridge, or `undefined` at once. */
    method Trigger(hostEventName: string, payload: Option<Value>) returns (ticket: Ticket)
      requires Valid()
      modifies state.bridge, host`journal
      ensures Valid()
      ensures ticket == old(host.journal.nextPromise)
      ensures state.bridge == null ==>
                host.journal == Resolve(old(host.journal).(nextPromise := ticket + 1), ticket, None)
      ensures state.bridge != null ==>
                Step(state.bridge.Model(), host.journal)
                == TriggerStep(old(state.bridge.Model()), host.mounted, old(host.journal), hostEventName, payload)
    {
      if state.bridge != null {
        ticket := state.bridge.Trigger(hostEventName, payload);
      } else {
        ticket := host.journal.nextPromise;
        host.journal := host.journal.(nextPromise := ticket + 1);
        host.journal := host.journal.(settled := host.journal.settled + [Settlement(ticket, None)]);
      }
    }
  }
}
