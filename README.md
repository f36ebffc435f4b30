# ThoughtSpot React Native embedding: lifecycle controller and message bridge

This project models the core of the ThoughtSpot React Native mobile SDK in Dafny and proves properties of that model. The core has two parts.

- **`BaseEmbed`** is the component every embed type is built on. It splits the host's props into event subscriptions and view configuration. It queues the subscriptions until the shell sends its readiness announcement (`INIT_VERCEL_SHELL`). On that announcement it builds an `EmbedBridge`, replays the queued subscriptions into it, and pushes `INIT` then `EMBED` into the web view. The push happens only once the bridge exists, the shell has loaded, the web view is ready and the web-view ref is attached. It exposes `trigger` through its ref.
- **`EmbedBridge`** is the message layer. It holds a multicast registry from event names to handlers and a table of host calls waiting for their `HOST_EVENT_REPLY`. It handles every inbound message type, and `destroy` clears it.

## How the model is built

- `values.dfy` holds the JSON-like values that travel in messages. A host callback is a `Callback`: an identity plus the answer it gives when it is handed a responder.
- `messages.dfy` holds the wire protocol, one constructor per `type`, and the event ids a bridge issues. Ids are decimal strings of a per-bridge counter, and distinct counters are proved to give distinct ids.
- `runtime.dfy` holds the outside world, as `Host`. Its `Journal` is an append-only log of what the SDK did outside itself:
  - messages injected into the web view;
  - console diagnostics;
  - callback invocations;
  - promises settled;
  - error reports.
- `event_bridge.dfy` has two layers.
  - Each bridge operation is a pure function on `BridgeState` and `Journal`, with lemmas about those functions.
  - `EmbedBridge` is a class holding the same state as fields. Each of its methods is proved to follow the corresponding function.
- `base_embed.dfy` models the component.
  - The props split is a pure function, `Partition`. The loop that computes it is a method proved equal to it.
  - The component is a class. React's deferred state is explicit:
    - a setter writes `scheduled`;
    - the message handler reads the committed `state` it closed over;
    - `Commit` makes `scheduled` the new `state`, then runs the props effect and the push effect when their dependencies changed (compared as values; see "Left out" for where this differs from `use-deep-compare-effect`).
    - `Settle` repeats commits until nothing is waiting.
- `scenarios.dfy` holds whole-component runs stated for all props: mount, readiness, re-render, trigger and reply, a malformed message, and dispatch of queued subscriptions.

Where the SDK's documented behaviour and its code disagree, the model follows the code.
- Subscriptions from props that change after activation are queued in `pendingHandlers` and not registered on the live bridge. The documented behaviour registers them directly. Only a later readiness announcement replays them, into a new bridge (`src/BaseEmbed.tsx:93-95`).
- The configuration is pushed even when it is empty.
- Nothing in `BaseEmbed` destroys the bridge on unmount.
- On readiness, the push attempted inside the handler sees the committed, stale `vercelShellLoaded == false`. It therefore logs "Waiting for Vercel shell to load...", and the real push happens on the next commit. The component test at `src/BaseEmbed.test.tsx:89` expects exactly that log.

## Model

| member | source | states |
|---|---|---|
| Messages.IssuedIdInjective | src/event-bridge.test.ts:40-59 | Distinct counter values give distinct host-event ids, so a reply's id names exactly one call |
| Messages.TypeNameClassifies | src/event-bridge.test.ts:126-139 | For a parsed message, its `type` is one of the protocol's names exactly when it is not an unknown message |
| Messages.IssuedIdFresh | src/event-bridge.test.ts:40-59 | The id issued next is not among the ids issued before, and issuing it adds exactly that id |
| EventBridge.FreshIsEmpty | src/event-bridge.test.ts:23-26 | A new bridge has no handler under any name and no pending reply |
| EventBridge.RegisterIsMulticast | src/event-bridge.test.ts:28-38 | Registering two handlers under one name keeps both, in registration order |
| EventBridge.Register | src/event-bridge.test.ts:28-38 | Registration appends the handler under its name, leaves every other name's handlers unchanged, and adds the name to the registry |
| EventBridge.TriggerIsFresh | src/event-bridge.test.ts:40-49 | With a live web view, trigger sends one HOST_EVENT with the name, the payload and a fresh id, and records the call's promise under that id only |
| EventBridge.TriggerWithoutWebView | src/event-bridge.test.ts:153-163 | Without a web view, trigger sends nothing, warns "webview is not ready", and settles its promise with undefined at once |
| EventBridge.TriggerPreservesValid | src/event-bridge.test.ts:40-59 | Every pending id is one the bridge issued, after a trigger as before it |
| EventBridge.ReceivePreservesValid | src/event-bridge.test.ts:51-55 | Handling any inbound message keeps every pending id within the issued ones and issues no id |
| EventBridge.ReplySettlesAndRemoves | src/event-bridge.test.ts:112-124 | A HOST_EVENT_REPLY for a pending id settles that promise with exactly its payload and removes the entry; for any other id nothing changes |
| EventBridge.TriggerThenReply | src/event-bridge.test.ts:40-59 | Round trip: the reply echoing the trigger's id settles the trigger's promise with the reply payload and restores the pending table; a duplicate reply is dropped |
| EventBridge.DispatchRunsEachHandler | src/event-bridge.test.ts:74-85 | An EMBED_EVENT runs every registered handler once, in order, with the payload; only the first is handed the responder; nothing is settled or logged |
| EventBridge.DispatchRepliesOnce | src/event-bridge.test.ts:87-110 | The only message dispatch sends is one EMBED_EVENT_REPLY under the echoed id, carrying the first handler's answer, when a responder was asked for and the view is live |
| EventBridge.UnregisteredEventIsDropped | src/event-bridge.test.ts:74-85 | An EMBED_EVENT for a name nobody registered has no effect |
| EventBridge.AuthTokenIsAnswered | src/event-bridge.test.ts:61-72 | With a live web view, REQUEST_AUTH_TOKEN is answered with one AUTH_TOKEN_RESPONSE carrying the credential, and nothing else changes |
| EventBridge.UnknownTypeIsLogged | src/event-bridge.test.ts:126-139 | A message of an unknown type is logged with its type name and changes nothing else |
| EventBridge.DestroyClears | src/event-bridge.test.ts:165-174 | After destroy the registry and the pending table are empty and the ref is released |
| EventBridge.DestroyedBridgeIsInert | src/event-bridge.test.ts:165-174 | After destroy, no sequence of inbound messages runs a handler, settles a promise or sends anything |
| EventBridge.EmbedBridge.constructor | src/event-bridge.test.ts:18-26 | A new bridge object is in the fresh state and holds the given ref |
| EventBridge.EmbedBridge.SendMessage | src/event-bridge.test.ts:141-151 | A message is injected into the web view exactly when the ref is held and a view is attached |
| EventBridge.EmbedBridge.RegisterEmbedEvent | src/event-bridge.test.ts:28-38 | The object's registry becomes the registry that `Register` gives |
| EventBridge.EmbedBridge.Trigger | src/event-bridge.test.ts:40-59 | The new object state and journal are those `TriggerStep` gives; the ticket returned is the call's promise |
| EventBridge.EmbedBridge.HandleMessage | src/event-bridge.test.ts:51-139 | The new object state and journal are those `Receive` gives; the dispatch loop is proved equal to `Dispatch` |
| EventBridge.EmbedBridge.Destroy | src/event-bridge.test.ts:165-174 | The object's state becomes the cleared state |
| BaseEmbedding.Partition | src/BaseEmbed.tsx:37-52 | The view configuration's keys are exactly the props keys that are neither `on…` nor `embedType` |
| BaseEmbedding.PartitionSubscriptions | src/BaseEmbed.tsx:41-45 | There is one queued subscription per `on…` prop, in prop order, named through the EmbedEvent enumeration and holding that prop's callback |
| BaseEmbedding.PartitionKeepsValue | src/BaseEmbed.tsx:46-48 | Every configuration prop keeps its own value in the view configuration |
| BaseEmbedding.PartitionProps | src/BaseEmbed.tsx:38-49 | The loop over the props computes `Partition`, and `embedType` never enters the view configuration |
| BaseEmbedding.ReplayKeepsOrder | src/BaseEmbed.tsx:93-95 | Replaying the queue appends each name's queued handlers, in queue order, after that name's existing handlers |
| BaseEmbedding.ConfigPush | src/BaseEmbed.tsx:54-74 | With the ref attached and the shell loaded, exactly INIT with the config cache and then EMBED with the embed type and configuration are sent; otherwise only the wait is logged |
| BaseEmbedding.PushNeedsEveryGate | src/BaseEmbed.tsx:76-80 | The push effect sends something only if the bridge exists, the shell loaded, the view is ready, the ref is attached and the dependencies changed; then it sends INIT and EMBED; with unchanged dependencies it sends nothing |
| BaseEmbedding.BaseEmbed.constructor | src/BaseEmbed.tsx:28-52 | Mount leaves the component settled, with the props split into queue and configuration, no bridge, and nothing sent |
| BaseEmbedding.BaseEmbed.Commit | src/BaseEmbed.tsx:37-80 | The scheduled state is committed; the props effect reruns only for new props; the push effect runs only for changed dependencies |
| BaseEmbedding.BaseEmbed.Settle | src/BaseEmbed.tsx:37-80 | At most two commits reach a settled component, with the journal the two push effects give |
| BaseEmbedding.BaseEmbed.Render | src/BaseEmbed.tsx:37-80 | Rendering with new props settles the component; the subscriptions from the new props are appended to the queue and the configuration is replaced |
| BaseEmbedding.BaseEmbed.SendConfigToShell | src/BaseEmbed.tsx:54-74 | Sending the configuration through the bridge has the effect `ConfigPush` states |
| BaseEmbedding.BaseEmbed.HandleInitVercelShell | src/BaseEmbed.tsx:88-98 | Readiness schedules a new live bridge holding exactly the replayed committed queue, empties the queue, marks the shell loaded, and attempts a push with the stale committed state |
| BaseEmbedding.BaseEmbed.HandleMessage | src/BaseEmbed.tsx:100-111 | A message that failed to parse is reported as an event error with `onErrorSDK` and changes neither the component's state nor the committed bridge's; readiness also marks the view ready; every message then goes to the committed bridge, if any, as `Receive` states |
| BaseEmbedding.BaseEmbed.Trigger | src/BaseEmbed.tsx:82-86 | With a bridge, trigger is the bridge's; without one, the promise is settled with undefined at once and nothing is sent |
| Scenarios.MountThenReadiness | src/BaseEmbed.test.tsx:64-90 | Mount sends nothing; readiness logs the wait once, registers the queued subscriptions in order and sends exactly INIT then EMBED; re-rendering with the same props sends nothing more |
| Scenarios.TriggerThenReplyAfterReadiness | src/BaseEmbed.tsx:82-86 | After readiness a host call goes out as HOST_EVENT with its name and payload, and its promise is settled once with the reply payload |
| Scenarios.TriggerBeforeReadiness | src/BaseEmbed.tsx:82-86 | Before readiness a host call sends nothing and is settled with undefined |
| Scenarios.ReadinessWhileDetached | src/BaseEmbed.tsx:54-80 | Readiness with the native view detached sends nothing and logs the wait twice; attaching the view afterwards sends nothing, because no push dependency changed |
| Scenarios.MalformedThenReadiness | src/BaseEmbed.tsx:100-111 | An unparsable message yields one event-error report; readiness afterwards still sends INIT then EMBED |
| Scenarios.MountAndReady | src/BaseEmbed.tsx:88-111 | Mount followed by readiness leaves a settled component whose live bridge holds the replayed subscriptions, with exactly INIT and EMBED sent and one wait logged |
| Scenarios.QueuedHandlersRunAfterReadiness | src/BaseEmbed.tsx:88-111 | After readiness an EMBED_EVENT runs exactly the subscriptions the props declared under its name, in prop order, each with the payload |
| Runtime.Host.SetMounted | src/BaseEmbed.tsx:55 | The native view's attachment to the ref becomes the given one |
| Scenarios.DispatchFromNoCalls | src/event-bridge.test.ts:74-85 | Dispatch without a responder records one invocation per handler, in order |
| Scenarios.LoadPropsQueueLoad | src/BaseEmbed.test.tsx:125-159 | An `onLoad` prop is queued under the enumeration's name for `Load` and is the only handler under that name |

## Left out

- The `event-bridge.ts` implementation is not part of this model. The bridge is modelled from its test file and the SDK's documented message protocol. Event ids are modelled as decimal strings of a counter; the real id scheme is not visible.
- Rendering the `WebView` element, its test id, source URL, style, and its `onError`/`onHttpError` warnings (`src/BaseEmbed.tsx:113-130`) are not modelled. They are presentation only.
- JSON parsing in `handleMessage` is not modelled. The model takes the parsed message, or `None` when parsing threw. Serialisation into `window.postMessage(...)` is modelled as recording the message in the journal.
- The credential source is asynchronous in the source. The model answers `REQUEST_AUTH_TOKEN` at once with the host's credential, so timing is not modelled.
- Promises are modelled as tickets settled in the journal. Microtask ordering is not modelled.
- The config cache from `init` and the `EmbedEvent` enumeration (`types.ts` is not part of this model) are constructor parameters.
- `notifyErrorSDK` is modelled as a report record carrying the `onErrorSDK` prop. What it does with the error is not modelled.
- A handler that throws is not modelled, nor is a responder called more than once or later. A callback's answer is fixed.
- Floating-point numbers in payloads are not modelled. Numbers are integers.
- The push effect's deep comparison is modelled as value equality of its dependencies, with the bridge compared by reference. In JavaScript a deep comparison compares two bridge objects by their fields. The model therefore treats a new bridge with the same fields as a change, and JavaScript may not.
- The props effect compares `Props` as a sequence, so two props objects with the same entries in a different key order count as a change. `use-deep-compare-effect` ignores key order and would not rerun the effect.
- `Host.SetMounted` models the native view attaching or detaching. Unmounting the component is otherwise not modelled, and neither is releasing the ref.
- Two bridge behaviours are modelling choices, because the bridge's implementation is not visible. The bridge ignores an inbound `INIT_VERCEL_SHELL`. The outbound-only types (`INIT`, `EMBED`, `HOST_EVENT`, `EMBED_EVENT_REPLY`, `AUTH_TOKEN_RESPONSE`) are logged as unknown when they arrive inbound.
- Parsing is abstracted: `Unknown` stands for a `type` outside the protocol. A message value such as `Unknown("HOST_EVENT_REPLY")` is not one parsing yields, and `Messages.WellFormed` names that convention. The bridge functions do not require it; on such a value they log the name, where the program would act on that type.
- BaseEmbedding.Partition: requires every `on…` prop to hold a function, as the handler prop types declare. The types still admit an explicit `undefined` for an optional handler (`onLoad={maybeHandler}`), the most common non-function `on…` prop. The source queues it, registers it, and fails only when that event is dispatched. The model does not cover that case.
- BaseEmbedding.PartitionKeepsValue: requires distinct keys, which `Object.keys` always yields. The model's props sequence does not enforce it by itself.
