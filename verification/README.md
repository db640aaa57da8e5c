# SensorMonitor bus and plugin host, modelled in Dafny

SensorMonitor is a small .NET host. It discovers plugin components, connects each one to a shared in-process message bus, and runs them. This project models two parts of it:

- **The publish/subscribe hub** (`BusHub`, with its subscription, proxy, token and message types). The hub keeps a registry of subscription items in insertion order. `Subscribe` validates its arguments and appends one item under a fresh token. `Unsubscribe` removes every item that holds the token. `Publish` first takes a snapshot of the items whose subscription accepts the message. It then delivers to each snapshot item through the item's proxy. An exception raised by one subscriber goes to the hub's error handler, and delivery carries on with the rest.
- **The plugin orchestrator** (`Core`). `Attach` keeps the file names that match the component pattern and sorts them. It tries to build a component from each. A build that throws logs one Error event and is skipped. A build that is not a component is skipped silently. Every kept component is connected to the one bus and appended. `Run` initializes the components in order and gives up at the first refusal. Otherwise it waits until the loop flag is cleared, then disposes every component in order.

The model is functional:

- The hub is an immutable value `Bus.Hub`. Every operation returns a new hub.
- Tokens are natural numbers issued from a counter in the hub. Within one hub, reference equality of tokens becomes equality of numbers, and `Bus.Valid` (every token below the counter, no token held twice) makes the two agree. Two hubs issue the same numbers, so tokens from different hubs are not told apart (see `Bus.Unsubscribe` under "## Left out").
- Weak references become explicit liveness flags on a subscription.
- `message is TMessage` becomes `Messages.Is`: the message's runtime type, or one of its supertypes, equals the subscription's type tag.
- User code is an abstract parameter `Subscriptions.Env`, looked up by id. This covers filters, delivery actions, proxies and error handlers.
  - A delivery action answers with a `Reaction`: the subscribes and unsubscribes it makes on the hub while it runs, and the exception it throws, if any.
- On the host side, the file-name pattern is a predicate `matches`, and loading plus construction is a per-path outcome `build`.
  - Component lifecycle calls are a per-component `Behaviour`.
  - The host's `Log` event is a sink that exists only once someone has subscribed to it.

Where the documentation and the code disagree, the model follows the code:

- The interface documentation of `Subscribe` (`SensorMonitor.Core/BusHub.cs:264-273`) says every reference is weak. The overloads without a flag pass `true`, so those subscriptions are strong.
- Nothing in `Run` catches an exception from a component's `Initialize` or `Dispose`. The first such exception escapes `Run` and ends it, and the components after it are never disposed. There is no best-effort disposal.

Modules:

- `Common`: `Option`, `Result`, the modelled exceptions.
- `Messages`: bus messages.
- `Subscriptions`: subscription records and their per-message decisions.
- `Bus`: the hub.
- `BusProofs`: lemmas about the hub.
- `PathOrder`: ordinal path order and discovery.
- `Orchestrator`: the host.
- `OrchestratorProofs`: lemmas about the host.

## Model

| member | source | states |
|---|---|---|
| Messages.NewMessage | SensorMonitor.Core/BusHub.cs:55-61 | A null sender is an argument error naming `sender`. Otherwise the message holds its sender and its content, and its types are exactly its class, the class's supertypes, and `BusMessageBase` and `IBusMessage`, which every message derives from (line 37). |
| Messages.ReleaseSender | SensorMonitor.Core/BusHub.cs:42-49 | Once the sender is collected, the message reports no sender. Its content and its types are unchanged. |
| Subscriptions.ShouldAttemptDelivery | SensorMonitor.Core/BusHub.cs:428-444 | False for a null message, a message of another type, or a dead weak subscription. Otherwise the filter's answer: the default filter accepts, and a filter that throws yields a fault carrying its exception. The strong variant at lines 486-496 is the same without the liveness test. |
| Subscriptions.Deliver | SensorMonitor.Core/BusHub.cs:446-455 | A message of the wrong type is an argument error. A weak subscription with a dead action returns silently. Otherwise the action runs, and its edits and exception are reported (strong variant at lines 498-504). |
| Subscriptions.ProxyDeliver | SensorMonitor.Core/BusHub.cs:231-234 | The default proxy is exactly `Deliver`. A user proxy that forwards is `Deliver`, one that holds does nothing, and one that throws reports its exception without running the action, so the exception reaches the error handler. |
| Subscriptions.ReleaseTargets | SensorMonitor.Core/BusHub.cs:419-421 | Collecting the targets of a weak subscription kills it. A strong subscription, and the never-collected default filter, are unaffected. |
| Subscriptions.AttemptedDeliveryInvokes | SensorMonitor.Core/BusHub.cs:428-455 | When a subscription passes the snapshot test, `Deliver` runs its action, and reports an error exactly when the action throws. |
| Bus.NewHub | SensorMonitor.Core/BusHub.cs:404-407 | A new hub is valid, empty, and has the no-op default error handler. |
| Bus.NewHubWith | SensorMonitor.Core/BusHub.cs:409-412 | A hub built with a handler uses it. Passing null leaves the hub with no handler. |
| Bus.AddSubscription | SensorMonitor.Core/BusHub.cs:617-645 | Null action, filter or proxy are argument errors, checked in that order, and no hub is produced. Otherwise exactly one item is appended at the end. Its token is the next one the hub issues, and the counter moves past it, so no token, current or already removed, is ever handed out twice. The error handler and validity are kept. |
| Bus.Subscribe | SensorMonitor.Core/BusHub.cs:543-589 | The eight overloads. The null checks and the argument each one names are those of `AddSubscription`. The new item has the given message type and action, and its action and filter are alive. An omitted filter is the accept-all filter, an omitted flag means strong, and an omitted proxy is the default proxy. A given filter, flag or proxy is used as passed. The token is freshly issued, the counter moves past it, and the error handler is kept. |
| Bus.RemoveToken | SensorMonitor.Core/BusHub.cs:655-659 | The result holds exactly the items whose token differs. No item with the token is left. An absent token changes nothing. Distinct tokens stay distinct. |
| Bus.RemoveSubscription | SensorMonitor.Core/BusHub.cs:653-660 | Removal touches only the registry. The counter and the error handler are kept, and so is validity. |
| Bus.Unsubscribe | SensorMonitor.Core/BusHub.cs:647-661 | A null token is an argument error naming `subscriptionToken`. Otherwise every item holding the token number is removed and all others are kept. An unknown token is a no-op. The counter and the error handler are kept. Tokens are compared within this hub only. |
| Bus.DisposeToken | SensorMonitor.Core/BusHub.cs:147-163 | Disposing a token is the same as unsubscribing it when its hub is still alive, and does nothing otherwise. Either way the counter and the error handler are kept. |
| Bus.CollectTargets | SensorMonitor.Core/BusHub.cs:437-441 | Garbage collection of one subscriber's targets. The registry keeps its length, order, proxies and validity, and only that subscription's liveness changes. |
| Bus.ApplyEdit | SensorMonitor.Core/BusHub.cs:617-661 | A subscribe made from a delivery action appends one item exactly as `Subscribe` does. An unsubscribe made from one removes the token's items exactly as `Unsubscribe` does. The hub stays valid and keeps its error handler. |
| Bus.ApplyEdits | SensorMonitor.Core/BusHub.cs:677-681 | The subscribes and unsubscribes a delivery action makes are applied one at a time, in the order it makes them. No changes leave the hub as it was. Validity and the error handler are kept. |
| Bus.ApplyEditsAppend | SensorMonitor.Core/BusHub.cs:677-681 | Applying two runs of changes one after the other is the same as applying their concatenation. |
| Bus.Snapshot | SensorMonitor.Core/BusHub.cs:669-675 | On success, every snapshot item is a registry item that passes the test, and every registry item that passes is in the snapshot. It fails exactly when some filter throws, and then it reports the first such exception. |
| Bus.HandleError | SensorMonitor.Core/BusHub.cs:683-686 | The default handler swallows the exception. A null handler raises a null-reference error. A user handler escapes exactly when it throws, and what escapes is the exception it threw. |
| Bus.DeliverAll | SensorMonitor.Core/BusHub.cs:677-687 | Receipts come one per snapshot item, in snapshot order. Every failed delivery whose exception the handler swallowed lets delivery go on. Delivery stops exactly when the error handler itself throws, right after the failing receipt, and what escapes is what the handler raised. With the default handler nothing escapes. The registry afterwards is the starting registry with the changes of every delivery made, applied in delivery order. Validity is kept. |
| Bus.Publish | SensorMonitor.Core/BusHub.cs:663-688 | A null message is an argument error naming `message`. A throwing filter escapes before any delivery. Otherwise delivery runs over the snapshot taken before any delivery, with receipts in snapshot order. What escapes is decided by the error handler, as in `DeliverAll`. The registry afterwards carries the changes the delivered actions made, in delivery order, so they affect later publishes. |
| BusProofs.RemoveTokenDistributes | SensorMonitor.Core/BusHub.cs:655-659 | Removal splits over concatenation, so the surviving items keep their order. |
| BusProofs.UnsubscribeKeepsOrder | SensorMonitor.Core/BusHub.cs:647-661 | Unsubscribing the token of an item that sits between two stretches without it leaves exactly the two stretches, joined. |
| BusProofs.SubscribeThenUnsubscribe | SensorMonitor.Core/BusHub.cs:617-661 | Unsubscribing the token a subscribe returned gives back exactly the earlier registry. |
| BusProofs.UnsubscribeIdempotent | SensorMonitor.Core/BusHub.cs:647-661 | A second unsubscribe with the same token changes nothing. |
| BusProofs.RetiredAfterEdit | SensorMonitor.Core/BusHub.cs:630-659 | A token this hub issued and no longer holds stays unheld after one subscribe or unsubscribe: a subscribe issues a newer token, and an unsubscribe only removes items. |
| BusProofs.RetiredTokenStaysRetired | SensorMonitor.Core/BusHub.cs:630-659 | However many subscribes and unsubscribes follow, a removed token is held by no item again, and unsubscribing it once more changes nothing. |
| BusProofs.RetiredAcrossCalls | SensorMonitor.Core/BusHub.cs:543-661 | After `Unsubscribe`, a later `Subscribe` returns a different token and leaves the old one unheld, and a later `Unsubscribe` of any token does not bring it back. |
| BusProofs.SnapshotDistributes | SensorMonitor.Core/BusHub.cs:672-674 | The snapshot splits over concatenation, so registry order is kept. |
| BusProofs.SnapshotStopsAtFault | SensorMonitor.Core/BusHub.cs:672-674 | A throwing filter in the first part of the registry makes the whole snapshot fail with that exception. |
| BusProofs.SnapshotIgnoresActions | SensorMonitor.Core/BusHub.cs:669-675 | The snapshot does not depend on what delivery actions do. |
| BusProofs.DeliverAllIgnoresEdits | SensorMonitor.Core/BusHub.cs:677-687 | Delivery gives the same receipts and the same escaping exception whatever registry changes the actions make, from whichever starting hub. |
| BusProofs.PublishIgnoresHandlerEdits | SensorMonitor.Core/BusHub.cs:669-687 | Subscribes and unsubscribes made by handlers during a publish do not change that publish's targets or outcome. |
| BusProofs.FailuresAreIsolated | SensorMonitor.Core/BusHub.cs:677-687 | With the default handler, every snapshot item gets a delivery in order, and every default-proxy item has its action run. Nothing escapes to the publisher. |
| BusProofs.UnsubscribedReceivesNothing | SensorMonitor.Core/BusHub.cs:647-675 | After unsubscribing a token, no delivery of a later publish goes to it. |
| BusProofs.CollectedWeakSubscriberReceivesNothing | SensorMonitor.Core/BusHub.cs:437-441 | A weak subscriber whose action was collected stays registered but receives nothing. |
| BusProofs.ThrowingSubscriberScenario | SensorMonitor.Core/BusHub.cs:677-687 | Of two default subscribers, the first throws and the second still receives, and the publisher sees no exception. |
| BusProofs.PositivePingScenario | SensorMonitor.Core/BusHub.cs:428-496 | A positive ping reaches the filtered subscriber and the base-type subscriber, in subscription order. |
| BusProofs.NegativePingScenario | SensorMonitor.Core/BusHub.cs:428-496 | A negative ping is filtered out and reaches only the base-type subscriber. |
| BusProofs.UnrelatedTypeScenario | SensorMonitor.Core/BusHub.cs:428-444 | A message of an unrelated type misses the `Ping` subscriber. It still reaches the weak base-type subscriber, because every message is an `IBusMessage`. |
| PathOrder.LexLeTotal | SensorMonitor.Host/Core.cs:76 | Any two paths are comparable. |
| PathOrder.LexLeReflexive | SensorMonitor.Host/Core.cs:76 | Every path is below or equal to itself. |
| PathOrder.LexLeAntisymmetric | SensorMonitor.Host/Core.cs:76 | Two paths each below or equal to the other are equal. |
| PathOrder.LexLeTransitive | SensorMonitor.Host/Core.cs:76 | The path order is transitive. |
| PathOrder.Sort | SensorMonitor.Host/Core.cs:76 | The sorted list is ascending and a permutation of its input. |
| PathOrder.SortedUnique | SensorMonitor.Host/Core.cs:76 | Two ascending lists with the same paths are the same list. |
| PathOrder.SortIsCanonical | SensorMonitor.Host/Core.cs:76 | The sorted order depends only on which paths there are. |
| PathOrder.Matching | SensorMonitor.Host/Core.cs:74-75 | Each matching path keeps its multiplicity, and nothing else is kept. The result is empty exactly when no file matches. |
| PathOrder.Candidates | SensorMonitor.Host/Core.cs:74-82 | The candidates are the matching files, each as often as listed, in ascending order. |
| PathOrder.CandidatesAreMatchingFiles | SensorMonitor.Host/Core.cs:74-76 | A path is a candidate exactly when it is a listed file that matches the pattern. |
| Orchestrator.NewCore | SensorMonitor.Host/Core.cs:39-48 | A new host has its one bus, no components, the loop flag set, and no log listener. |
| Orchestrator.AddSink | SensorMonitor.Host/Hybrid.cs:98 | Subscribing to the host's log starts an empty listener and changes nothing else. |
| Orchestrator.Emit | SensorMonitor.Host/Core.cs:147-150 | A log event reaches the listener if there is one and is lost otherwise. |
| Orchestrator.AttachAll | SensorMonitor.Host/Core.cs:86-112 | The attach loop appends exactly the kept components, raises exactly the load errors, and changes nothing else. |
| Orchestrator.Attach | SensorMonitor.Host/Core.cs:50-114 | The answer is true exactly when some file matches. With no match nothing changes. Otherwise the components and errors are those of the sorted candidates. |
| Orchestrator.ForwardComponentLog | SensorMonitor.Host/Core.cs:142-145 | A kept component's log event is raised again, unchanged, on the host's log, exactly as the host's own `Emit` would. The components, the bus, the loop flag and the listener are kept. |
| Orchestrator.Shutdown | SensorMonitor.Host/Core.cs:136-140 | The loop flag is cleared and one Info event `SIGINT Received` is logged. Nothing else changes. |
| Orchestrator.InitializeAll | SensorMonitor.Host/Core.cs:118-122 | Components are initialized in order up to and including the first that refuses or throws. The loop completes exactly when all are ready. |
| Orchestrator.DisposeAll | SensorMonitor.Host/Core.cs:129-132 | Components are disposed in order up to and including the first that throws. The loop completes exactly when none throws. |
| Orchestrator.Run | SensorMonitor.Host/Core.cs:116-133 | Nothing is disposed unless every component is ready and the loop flag is clear. `Run` stays serving exactly when all are ready and the flag is set. A refusal stops at the first refusing component. |
| OrchestratorProofs.KeptDistributes | SensorMonitor.Host/Core.cs:86-112 | What is kept splits over a split candidate list. |
| OrchestratorProofs.LoadErrorsDistribute | SensorMonitor.Host/Core.cs:92-104 | The load errors split over a split candidate list. |
| OrchestratorProofs.SingleCandidate | SensorMonitor.Host/Core.cs:92-111 | A throwing build gives one Error event and no component. A non-component gives nothing. A component is kept and logs nothing. |
| OrchestratorProofs.KeptMembers | SensorMonitor.Host/Core.cs:106-111 | The kept components are exactly the candidates that build, each connected to the one bus. |
| OrchestratorProofs.KeptFollowsPathOrder | SensorMonitor.Host/Core.cs:76-111 | From sorted candidates, the kept components come in ascending path order. |
| OrchestratorProofs.AttachedComponents | SensorMonitor.Host/Core.cs:106-110 | Every component an attach adds comes from a matching listed file that builds, and sits on the host's bus. |
| OrchestratorProofs.AttachIgnoresListingOrder | SensorMonitor.Host/Core.cs:62-82 | The order in which the directory lists the files does not change what is attached or logged. |
| OrchestratorProofs.SecondOfThreeFailsScenario | SensorMonitor.Host/Core.cs:86-112 | When the second of three candidates fails to load, the first and third are kept, and exactly one Error is logged. |
| OrchestratorProofs.ConsoleHostMissesAttachErrors | SensorMonitor.Host/Hybrid.cs:79-98 | The console host subscribes to the log only after `Attach`, so it sees none of the load errors. |
| OrchestratorProofs.InitializeAllStopsAt | SensorMonitor.Host/Core.cs:118-122 | Initialization stops at the first component that refuses or throws, having called exactly the components up to it. |
| OrchestratorProofs.RunStopsAtFirstThrow | SensorMonitor.Host/Core.cs:116-122 | An exception from the `Initialize` of any component escapes `Run` at once. Only the components up to it are called, the serve loop is never entered, and nothing is disposed. |
| OrchestratorProofs.RunStopsAtFirstRefusal | SensorMonitor.Host/Core.cs:118-122 | At the first refusal `Run` returns. There are no later initializations, no serve loop and no disposals. |
| OrchestratorProofs.RunDisposesAfterShutdown | SensorMonitor.Host/Core.cs:124-140 | With all components ready, `Run` serves while the flag is set. After `Shutdown` it disposes every component in list order. |
| OrchestratorProofs.DisposeAllStopsAt | SensorMonitor.Host/Core.cs:129-132 | Disposal stops at the first `Dispose` that throws. |
| OrchestratorProofs.DisposeThrowStopsDisposal | SensorMonitor.Host/Core.cs:116-133 | A throwing `Dispose` ends `Run` there, and later components are not disposed. |
| OrchestratorProofs.ShippedComponentsScenario | Component/SensorMonitor.Component.Rx/Entry.cs:100-103 | With components whose `Initialize` throws, as the shipped ones do, `Run` makes one call and the exception escapes. |

## Left out

- `PublishAsync` and the registry lock (`SensorMonitor.Core/BusHub.cs:603-613`, `690-696`, `638-641`) are left out because they concern concurrency. Only the synchronous publish is modelled.
- Garbage collection is a parameter, through `Bus.CollectTargets`. Liveness is fixed for the length of one publish, so a collection between the snapshot and the delivery is not modelled.
- Reflection is left out: the generic `Unsubscribe` call inside the token's `Dispose`, assembly loading, type lookup and dynamic construction. Each is an abstract outcome.
- .NET regular-expression semantics of the discovery pattern, including the spliced-in library name, are left out. Matching is an uninterpreted predicate.
- Namespace extraction from the file name is left out, because only the build outcome depends on it.
- PathOrder.Sort: `orderby` on strings uses the current culture's comparison. The model uses ordinal, character-by-character order.
- `ConnectBus` and adding the log handler are assumed not to throw. A component is connected to the host's bus when it is kept.
- The `Thread.Sleep` polling in the serve loop is left out. It is the `loopContinue` flag: `Run` on a host whose flag is set ends as `Serving`.
- Pausing and resuming components, and the console, service and command-line front ends, are left out. Only the order of `Attach` and subscribing to the log is used.
- Bus.Unsubscribe: tokens are compared by number within one hub, so a token issued by another hub is out of scope. In the source, such a token matches nothing (`SensorMonitor.Core/BusHub.cs:656`). In the model, it would remove this hub's item with the same number, and so would an unsubscribe made by a delivery action (`Edit.Remove`). The host builds exactly one hub (`SensorMonitor.Host/Core.cs:44`), so a second hub never arises.
- Filters, proxies and error handlers are modelled without registry changes. Only delivery actions subscribe or unsubscribe while a message is published.
- A delivery action's own publishes are not modelled. The lock is released before delivery (`SensorMonitor.Core/BusHub.cs:670-677`), so an action may publish again, and that nested publish runs synchronously against the registry at that moment. In the model, an action's `Reaction` can express only its net subscribes and unsubscribes and an escaping exception. The reaction also depends only on the subscriber and the message, never on the hub's state.
- Subscriptions.ProxyDeliver: a user proxy is modelled as forwarding, holding or throwing. A proxy that forwards and then throws, or delivers more than once, is not modelled.
- `CancellableGenericBusMessage` is left out, since nothing in the core uses it.
- The argument checks of the `BusSubscriptionToken` constructor are left out: the hub always passes itself and a message type.
- `TinyMessengerSubscriptionException` is never thrown and is left out.
- The timestamps, stack traces and categories of log events are reduced to the message text, a category and the originating namespace.

