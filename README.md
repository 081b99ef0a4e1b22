# flux: a Dafny model of the service and node core

`flux` is the Go package a service uses to join a flux-managed system. It
names the bus topics of a service and of its nodes, and looks up node
configurations case-insensitively. It keeps a service status and a node
status in atomic cells and publishes the service status before storing it.
It rebuilds a router, the bus connections and the node set whenever the
manager sends a new configuration. It also wires lifecycle events (start,
stop, restart, error, tick) to user handlers.

This project models that core in Dafny and proves properties of the model.

- **Pure parts are functions with lemmas.** These are the topic names
  (`Topics`, `NodePorts`, the `buildTopic*` helpers in `Nodes`) and the
  first-match configuration lookups (`Configs`, `ConfigWrapper`, with case
  folding in `Fold`).
- **Stateful parts are classes.** `Atomic.AtomicValue` is the one-slot cell
  and `SharedState.State` is the key/value store. `Nodes.NodeHandlers` and
  `Nodes.Node` are the handler set and the node. `Services.Service` is the
  generic service and `PlainService.Service` the non-generic one. Their
  methods update fields in place and say in their contracts what the new
  state is.
- **Everything outside the core is one trace.** The core reaches publishers,
  subscribers, callers, the router, user callbacks and goroutines. Each such
  call becomes an event in the trace of a `World.World` object, in program
  order, with its outcome. A call that can fail succeeds or fails
  nondeterministically, so every contract covers both outcomes. The model
  reads the published messages, registered routes and acknowledged messages
  back from the trace (`World.Published`, `World.Routes`, `World.Acks`).
- **Lifecycle closures are values.** A closure the source hands to the
  router is a `Wrapped` value, and `Invoke` is what that closure does when a
  message arrives.
- **Unordered and uncontrolled inputs are parameters.** Go map iteration
  order is an order the method picks and reports: the ghost `order` of
  `RegisterSubscriptions`, which `Enumerates` the map's keys. The timer and
  context events of the tick loop are a sequence of inputs.

Where the source and its description disagree, the model follows the source:

- `ServiceStatusActive` is used by the generic lifecycle wrappers but never
  declared. The model gives it the text `"ACTIVE"` of the non-generic
  `StatusActive`.
- The generic `RegisterStatusHandler` uses a `router` field that the
  service does not have. The model passes the router in.
- The non-generic `OnTick` routes on `topics.Tick()`, which `topics.go` does
  not declare. The model routes on `GlobalTick()` (`"service.tick"`).
- `node.go` reads configuration fields (`ID`, `Inputs`, `Timer.Type`,
  `Timer.Interval`) that neither configuration declaration has. The model
  gives `Nodes.NodeConfig` exactly those fields. The two configuration files
  are modelled each on its own terms, and a lemma shows that their node
  lookups agree.
- `NewNode` never sets the node's `status` pointer, so on a node it makes
  `Node.Status` and `Node.SetStatus` dereference nil and panic. The model
  keeps the pointer as an `Option`: `NewNode` leaves it `None`, and
  `Node.WithStatus` is a node written as a struct literal that fills it. Both
  methods require a filled cell, the case in which Go does not panic.
- The generic `OnServiceTick` reads `node.Timer.Type` and
  `node.Timer.Interval` (`service_lifecycle.go:21-59`). But the `Timer` it
  ranges over is a `TickSettings`, which `node_config.go:28-31` declares
  with only `IsInfinity` and `Delay`. The model gives the timer a kind and
  an interval, as `node.go` also expects.
- `OnServiceReady` (`service_lifecycle.go:150-152`) takes a handler of type
  `func(NodesConfig[T], *message.Router, message.Publisher,
  message.Subscriber) error`. But the `onReady` field it assigns is declared
  as `func(*message.Router, NodesConfig[T]) error` (`service.go:32`). Its
  caller passes the router and the decoded configuration
  (`service.go:164`). The model follows the field and that call.
- The non-generic service's struct, constructor and `Status()` accessor are
  not among the files. The model gives it the fields its methods use, and a
  constructor that fills the status cell.
- `Errors()` is the literal `"service..error"`: no service id goes into it.
  `PushDevelopmentMode("status")` equals the status topic of a service
  called `development_mode`.
- A node's event topic for `event` is also its port topic for port
  `"event/" + event`.

## Model

| member | source | states |
|---|---|---|
| Topics.ServiceTopics.RequestConfig | flux/topics.go:13-15 | the topic is `service.<id>.get_config`, read position by position |
| Topics.ServiceTopics.ResponseConfig | flux/topics.go:16-18 | the topic is `service.<id>.set_config` |
| Topics.ServiceTopics.SendStatus | flux/topics.go:19 | the topic is `service.<id>.status` |
| Topics.ServiceTopics.RequestStatus | flux/topics.go:20-22 | the topic is `service.<id>.request_status` |
| Topics.ServiceTopics.Start | flux/topics.go:23 | the topic is `service.<id>.start` |
| Topics.ServiceTopics.Stop | flux/topics.go:24 | the topic is `service.<id>.stop` |
| Topics.ServiceTopics.Restart | flux/topics.go:25 | the topic is `service.<id>.restart` |
| Topics.ServiceTopics.PushDevelopmentMode | flux/topics.go:26-28 | the topic is `service.development_mode.` followed by the guid |
| Topics.ServiceTopics.Errors | flux/topics.go:29 | the error topic is the literal `service..error`, the same for every service |
| Topics.ServiceTopics.GlobalTick | flux/topics.go:30 | the tick topic is `service.tick`, the same for every service |
| Topics.ServiceTopics.IDEStatus | flux/topics.go:49-51 | the IDE status topic is `ide.status`, the same for every service |
| Topics.ServiceTopics.GetCommonState | flux/topics.go:31-33 | the topic is `service.<id>.get_common_state` |
| Topics.ServiceTopics.SetCommonState | flux/topics.go:34-36 | the topic is `service.<id>.set_common_state` |
| Topics.ServiceTopics.GetCommonData | flux/topics.go:37-39 | the topic is `service.<id>.get_common_data` |
| Topics.ServiceTopics.SetCommonData | flux/topics.go:41-43 | the topic is `service.<id>.set_common_data` |
| Topics.ServiceTopics.Of | flux/topics.go:13-43 | each id-scoped topic kind has the shape `service.<id>.<suffix of that kind>` |
| Topics.NewTopics | flux/topics.go:9-11 | the topics are built from the given service id |
| Topics.SuffixInjective | flux/topics.go:13-43 | distinct topic kinds have distinct suffixes |
| Topics.ScopedTopicsDistinct | flux/topics.go:13-43 | for one service id, the eleven id-scoped topics are pairwise distinct |
| Topics.RequestResponseDiffer | flux/topics.go:13-18 | requesting and receiving the configuration never share a topic |
| Topics.ScopedTopicsInjective | flux/topics.go:13-43 | each id-scoped topic determines the service id |
| Topics.SuffixLast | flux/topics.go:13-43 | every suffix has at least four characters and does not end in `r` |
| Topics.ConstantTopics | flux/topics.go:29-30 | the global tick, error and IDE-status topics are `service.tick`, `service..error` and `ide.status` for every service |
| Topics.ConstantTopicsOutsideScope | flux/topics.go:29-51 | no id-scoped topic of any service equals the global tick, error or IDE-status topic |
| Topics.DevelopmentModeByGuid | flux/topics.go:26-28 | two development-mode topics are equal exactly when their guids are, whatever the services |
| Topics.DevelopmentModeOverlapsScope | flux/topics.go:19-28 | the development-mode topic of guid `status` is the status topic of service `development_mode` |
| Topics.ErrorsIsEmptyIdScope | flux/topics.go:29 | the error topic is what an `error` topic of the empty service id would be |
| NodePorts.OutputPort.Topic | flux/node_ports.go:14-16 | the topic is `/node/<nodeID>/port/<alias>`, read position by position |
| NodePorts.TopicInjectiveInAlias | flux/node_ports.go:14-16 | for one node id, distinct aliases give distinct topics |
| NodePorts.TopicInjectiveInNode | flux/node_ports.go:14-16 | for one alias, distinct node ids give distinct topics |
| NodePorts.TopicDependsOnIdAndAlias | flux/node_ports.go:14-16 | the topic starts with `/node/` and depends only on the node id and the alias |
| NodePorts.TopicNotJointlyInjective | flux/node_ports.go:14-16 | two different (node id, alias) pairs can give one topic |
| Fold.EqualFoldIsEquivalence | flux/node_config.go:43-70 | the case-insensitive comparison is reflexive, symmetric and transitive |
| Fold.EqualFoldCharwise | flux/node_config.go:45 | two strings are equal up to case exactly when they have equal lengths and agree character by character up to case |
| Configs.FindNode | flux/node_config.go:43-50 | returns the first position whose alias equals the query up to case, and nothing exactly when no alias does |
| Configs.FindPort | flux/node_config.go:53-70 | returns the first port position whose alias equals the query up to case, and nothing exactly when none does |
| Configs.GetNodeByAlias | flux/node_config.go:43-50 | returns the first entry, in list order, whose alias equals the query up to case; errors exactly when there is none |
| Configs.GetInputByAlias | flux/node_config.go:53-60 | returns the topic of the first matching input port; otherwise an error |
| Configs.GetOutputByAlias | flux/node_config.go:63-70 | returns the topic of the first matching output port; otherwise an error |
| Configs.OutputIgnoresInputs | flux/node_config.go:63-70 | replacing the input ports does not change the output lookup |
| Configs.FindNodeIgnoresCase | flux/node_config.go:45 | two queries equal up to case find the same node position |
| Configs.FindPortIgnoresCase | flux/node_config.go:53-70 | two queries equal up to case find the same port position |
| Configs.LookupsIgnoreCase | flux/node_config.go:43-70 | all three lookups give the same result for any case variant of the query |
| Configs.GetTickSettingsByAlias | flux/node_config.go:34-40 | the key set is exactly the set of aliases, and an alias not repeated later maps to its own entry's timer, so the later entry wins; every timer must be non-nil |
| ConfigWrapper.GetNodeByAlias | flux/node_wrapper.go:26-33 | returns the first entry whose alias equals the query up to case; errors exactly when there is none |
| ConfigWrapper.TailMatch | flux/node_wrapper.go:26-33 | past a non-matching head, the first match is the tail's first match shifted by one |
| ConfigWrapper.GetInputByAlias | flux/node_wrapper.go:36-43 | returns the topic of the first matching input port; otherwise an error |
| ConfigWrapper.GetOutputByAlias | flux/node_wrapper.go:46-53 | returns the topic of the first matching output port; otherwise an error |
| ConfigWrapper.OutputIgnoresInputs | flux/node_wrapper.go:46-53 | replacing the input ports does not change the output lookup |
| ConfigWrapper.NodeLookupIgnoresCase | flux/node_wrapper.go:26-33 | a case variant of the query finds the same node |
| ConfigWrapper.AgreesWithTimedLookup | flux/node_wrapper.go:26-33 | on configurations with the same aliases, ports and payloads, the timer-less lookup succeeds exactly when the timed one does, and both return an entry with the same alias and payload |
| Atomic.AtomicValue.constructor | flux/atomic.go:11-18 | a new cell holds the value it was made with |
| Atomic.AtomicValue.Get | flux/atomic.go:21-35 | reports true with the stored value exactly when a value is stored, and changes nothing |
| Atomic.AtomicValue.Set | flux/atomic.go:37-39 | the cell holds the new value afterwards |
| Atomic.NewThenGet | flux/atomic.go:11-35 | after `NewAtomicValue(v)`, `Get` returns `(v, true)` |
| Atomic.LastWriterWins | flux/atomic.go:21-39 | after `Set(x)` and then `Set(y)`, `Get` returns `(y, true)`, and reading twice gives the same answer |
| SharedState.State.constructor | flux/state.go:12-17 | a new store is empty |
| SharedState.State.Set | flux/state.go:19-26 | the store gains the new value for the key; every other key keeps its value |
| SharedState.State.Get | flux/state.go:28-33 | returns the key's value, or nil when the key is absent, and changes nothing |
| SharedState.NewStateIsEmpty | flux/state.go:12-33 | a fresh store reads nil for every key |
| SharedState.SetThenGet | flux/state.go:19-33 | after two writes to one key the second value is read back, and another key reads as before |
| Services.ServiceStatusTextInjective | flux/service_status.go:12-20 | the service status constants are pairwise distinct |
| Services.Service.constructor | flux/service.go:46-79 | a new service has the topics of its id, status Starting, the given connections, no hooks and no nodes |
| Services.Service.Status | flux/service.go:346-353 | returns the stored status, or Paused when the cell holds nothing |
| Services.Service.UpdateStatus | flux/service_status.go:41-53 | publishes exactly one message, the status text, on the status topic; the status is stored only after that publish succeeds; a failed publish returns the wrapped error and leaves the status as it was |
| Services.Service.HandleStatusRequest | flux/service_status.go:33-39 | never fails and replies with exactly one message carrying the current status (Paused when the cell is empty) |
| Services.Service.RegisterStatusHandler | flux/service_status.go:22-31 | adds the one `flux.request_status` route on the request-status topic |
| Services.Service.Connect | flux/service.go:222-244 | makes the subscriber, publisher and caller in that order; a failed factory leaves its field nil, keeps the later fields and returns its wrapped error |
| Services.Service.Disconnect | flux/service.go:246-275 | closes sub, pub and call in that order, setting each to nil once closed; the first failing close returns and leaves that field and the later ones untouched |
| Services.Service.Close | flux/service.go:326-344 | closes the publisher and then the subscriber, when set, whatever the outcome (a failure is only logged); both end nil |
| Services.Service.RequestConfig | flux/service.go:277-284 | publishes the service id on the config-request topic, wrapping a failure |
| Services.Service.PubToTopic | flux/service.go:380-391 | an empty topic is an error and publishes nothing; a value that does not encode is an error prefixed `could not marshal payload: ` and publishes nothing; otherwise exactly one publish on the topic |
| Services.Service.InitRouter | flux/service.go:286-295 | a fresh router gets the status route, the IDE-status route and the plugin, in that order |
| Services.Service.Reconnect | flux/service.go:197-212 | disconnects, closes the router and connects again, in that order; a failure stops it with its wrapped error, and the trace is exactly the steps that ran: the disconnect up to its failed close, or the disconnect and the failed router close, or both and the connect up to its failed factory |
| Services.Service.ReinitRouter | flux/service.go:194-220 | with no router it only initialises one; with a router it runs disconnect, router close and connect, in that order, before initialising; a failure returns the reconnect's error with the reconnect's trace up to the failing step, before any routing is set up |
| Services.NoRouterWorkTrans | flux/service.go:194-220 | two steps that do no router work compose to one that does none |
| Services.Service.ReloadNodes | flux/service.go:297-324 | every old node is closed with `Close` before any node is built, each close recording its router close, subscriber close and destroy call, carrying on past close errors; one node per configuration entry is then built and registered, in order; on success the nodes are exactly those and the trace is the closes followed by the registrations; a failing registration of entry i returns `failed to register node handlers: `, builds no later entry and keeps the old nodes |
| Services.Service.HandleConfig | flux/service.go:150-189 | a message that does not decode fails with `failed to unmarshal config: ` and changes nothing; otherwise it is acknowledged only after router reinit, onReady and node reload all succeed, in that order; each failure returns its own prefix (`failed to reinit router: `, `failed to read config: `, `failed to reload nodes: `) without acknowledging; on success the trace is those three steps, then the acknowledgement, then the router start |
| Services.Service.ApplyConfig | flux/service.go:158-173 | reinits the router, then calls the ready hook with the new router and the decoded configuration, then reloads the nodes, acknowledging nothing; each failure returns with its own prefix and runs no later step, and the trace is exactly the steps that ran |
| Services.Service.RunLoop | flux/service.go:129-192 | exactly the first k messages are acknowledged, in order, and a nil result means every message was; a failed config subscriber, subscription or config request returns `failed to create config subscriber: `, `failed to subscribe to configs: ` or `failed to request config: ` with the trace up to that step, and a failed message returns that message's error |
| Services.Service.Run | flux/service.go:82-126 | an already set pub or sub is refused with the source's message before anything happens; otherwise it connects, then runs the connect hook, then reports Connected, then runs the configuration loop, in that order; the errors are `failed to connect service: `, the hook's own error, `failed to update status: ` and `failed to run service: `, and each stops the later steps, the first three with the trace up to the failing step; the acknowledged messages are a prefix of the messages, all of them on success |
| Services.Service.OnNodeReady | flux/node_lifecycle.go:3-6 | stores the ready handler, changes no other handler and returns nil |
| Services.Service.OnNodeStart | flux/node_lifecycle.go:8-10 | stores the start handler and changes no other handler |
| Services.Service.OnNodeStop | flux/node_lifecycle.go:12-14 | stores the stop handler and changes no other handler |
| Services.Service.OnNodeSubscribe | flux/node_lifecycle.go:16-19 | returns nil and changes nothing |
| ServiceLifecycle.OnServiceRestart | flux/service_lifecycle.go:77-99 | adds the `flux.on_restart` route on the restart topic, whose closure runs the restart sequence around the handler |
| ServiceLifecycle.OnServiceError | flux/service_lifecycle.go:101-108 | adds the `flux.on_error` route on the error topic |
| ServiceLifecycle.OnServiceStart | flux/service_lifecycle.go:110-117 | adds the `flux.on_start` route, whose closure reports Active after the handler |
| ServiceLifecycle.OnServiceStop | flux/service_lifecycle.go:119-126 | adds the `flux.on_stop` route, whose closure reports Paused after the handler |
| ServiceLifecycle.Restart | flux/service_lifecycle.go:82-97 | sets Paused before running the handler, and a failed Paused report keeps the handler from running; a handler error is returned as is with the status left Paused; a full success ends Active |
| ServiceLifecycle.WithStatusUpdate | flux/service_lifecycle.go:128-144 | runs the handler first; a handler error publishes no status and leaves the status unchanged; a success publishes and stores the status |
| ServiceLifecycle.Invoke | flux/service_lifecycle.go:77-144 | a successful restart closure leaves Active and a failed one leaves the status as it was or Paused; a status-updating closure calls its handler first, and leaves its status on success or the status as it was on failure |
| ServiceLifecycle.StartAndStopReportTheirStatus | flux/service_lifecycle.go:110-126 | after the start closure succeeds the service is Active (unless stop then succeeds), and after the stop closure succeeds it is Paused |
| ServiceLifecycle.OnServiceConnect | flux/service_lifecycle.go:146-148 | stores the connect hook |
| ServiceLifecycle.OnServiceReady | flux/service_lifecycle.go:150-152 | stores the ready hook |
| ServiceLifecycle.OnServiceShutdown | flux/service_lifecycle.go:154-158 | closes the subscriber, whatever the outcome (a failure is only logged) |
| ServiceLifecycle.OnServiceTick | flux/service_lifecycle.go:14-75 | starts one task per ticking node, in node order, and adds the `flux.global_tick` route on the global tick topic exactly when some node has a global timer |
| ServiceLifecycle.UntimedNodesGetNoTask | flux/service_lifecycle.go:20-61 | a node with a nil timer or timer type None gets no task, and every other node exactly one |
| ServiceLifecycle.GlobalTickRouteIffGlobalNode | flux/service_lifecycle.go:20-74 | the tick wiring registers exactly one route, `flux.global_tick`, when some node ticks globally, and none otherwise |
| ServiceLifecycle.TasksAddNoRoute | flux/service_lifecycle.go:20-62 | the per-node tasks register no route |
| ServiceLifecycle.TasksMatchNodes | flux/service_lifecycle.go:25-58 | a local loop for an alias is started exactly when a node of that alias has a local timer, and a global listener exactly when one has a global timer |
| ServiceLifecycle.TaskNames | flux/service_lifecycle.go:25-58 | a node's task names its alias and its timer type |
| Nodes.NodeStatusTextInjective | flux/node_status.go:5-10 | the node status constants are pairwise distinct |
| Nodes.BuildTopicNodePort | flux/node.go:297 | the topic is `node/<alias>/<port>`, read position by position |
| Nodes.BuildTopicNodeEvent | flux/node.go:298-300 | the topic is `node/<alias>/event/<event>`, read position by position |
| Nodes.NodeTopicsInjective | flux/node.go:297-300 | for one node, distinct ports, and distinct events, give distinct topics |
| Nodes.EventTopicIsPortTopic | flux/node.go:297-300 | the event topic of `event` is the port topic of port `event/<event>` |
| Nodes.PushTopicIsNotOutputPortTopic | flux/node.go:297 | the topic a node pushes on never equals an output port's `/node/…` topic |
| Nodes.NodeHandlers.constructor | flux/node.go:20-28 | a new handler set has every handler nil and an empty subscribe map |
| Nodes.NodeHandlers.OnReady | flux/node.go:30-32 | stores the ready handler and nothing else |
| Nodes.NodeHandlers.OnStart | flux/node.go:34-36 | stores the start handler and nothing else |
| Nodes.NodeHandlers.OnStop | flux/node.go:38-40 | stores the stop handler and nothing else |
| Nodes.NodeHandlers.OnSubscribe | flux/node.go:42-49 | the map gains the port with the handler; other ports keep their entries |
| Nodes.NodeHandlers.GetSubscribeHandler | flux/node.go:51-56 | returns the port's handler exactly when the port was registered |
| Nodes.NodeHandlers.OnTick | flux/node.go:58-60 | stores the tick handler and nothing else |
| Nodes.NodeHandlers.OnDestroy | flux/node.go:62-64 | stores the destroy handler and nothing else |
| Nodes.SubscribeThenLookup | flux/node.go:42-56 | after registering two ports, each is found with its own handler and an unregistered port is not found |
| Nodes.SubscribeRoutesExact | flux/node.go:188-210 | a route for topic t is added exactly when some input port whose alias equals the port lists t |
| Nodes.TickDispatch | flux/node.go:212-246 | timer type None does nothing, Local starts one loop and adds no route, and Global adds one route `flux.node.on_tick.<id>` on `service/tick` |
| Nodes.CloseError | flux/node.go:278-295 | the corrected close result is nil exactly when every step succeeded, and a lone router failure is reported wrapped |
| Nodes.CloseLosesRouterError | flux/node.go:278-295 | on a failing router close, the as-written result is nil and the corrected one carries the wrapped failure |
| Nodes.Node.constructor | flux/node.go:83-99 | a new node holds nil state, no destroy handler and no status cell |
| Nodes.Node.RegisterHandlers | flux/node.go:101-137 | the ready handler runs first, and on failure its wrapped error is returned with nothing registered; otherwise come the start and stop routes, the destroy handler, the tick, the subscribe routes of every map port in iteration order, and the router start |
| Nodes.Node.RegisterHooks | flux/node.go:108-122 | each of start, stop, destroy and tick is wired only when its handler is set |
| Nodes.Node.RegisterSubscriptions | flux/node.go:124-128 | every port of the subscribe map is handled exactly once, in an order the caller does not control |
| Nodes.Node.OnReady | flux/node.go:139-144 | runs the handler on the node's configuration, wrapping its error |
| Nodes.Node.OnStart | flux/node.go:146-159 | adds the route `flux.node.on_start.<id>` on the node's start event topic |
| Nodes.Node.OnStop | flux/node.go:161-174 | adds the route `flux.node.on_stop.<id>` on the node's stop event topic |
| Nodes.Node.Push | flux/node.go:176-186 | a value that does not encode is an error prefixed `could not marshal payload: ` and publishes nothing; otherwise exactly one publish on the node's port topic |
| Nodes.Node.OnSubscribe | flux/node.go:188-210 | adds exactly the routes of the topics of input ports whose alias equals the port, and returns nil |
| Nodes.Node.OnTick | flux/node.go:212-246 | wires the handler by timer type, as `TickDispatch` states |
| Nodes.Node.OnDestroy | flux/node.go:248-250 | stores the destroy handler |
| Nodes.Node.State | flux/node.go:252-258 | returns the stored state, or nil when the cell holds nothing |
| Nodes.Node.SetState | flux/node.go:260-263 | stores the state and returns nil |
| Nodes.Node.Status | flux/node.go:265-271 | returns the stored status, or Error when the cell holds nothing |
| Nodes.Node.SetStatus | flux/node.go:273-276 | stores the status and returns nil |
| Nodes.Node.WithStatus | flux/node.go:83-99 | a node like `NewNode`'s, except that its status cell is the given one |
| Nodes.SetThenStatus | flux/node.go:265-276 | on a node with a status cell, `Status` reads back what `SetStatus` stored, whatever the cell held before |
| Nodes.Node.Close | flux/node.go:278-295 | closes the router, then the subscriber, then runs the destroy handler, each whatever the earlier ones returned; as written the result is nil |
| Nodes.Node.CloseJoined | flux/node.go:278-295 | the same three steps, returning their joined errors |
| Nodes.Node.CloseSteps | flux/node.go:280-292 | the three close steps, recorded in order, each with its own outcome |
| Nodes.FreshNodeState | flux/node.go:252-258 | a fresh node reads back nil state |
| PlainService.StatusTextInjective | flux/status.go:12-19 | the six status constants are pairwise distinct |
| PlainService.OnlyInitializingIsLowerCase | flux/status.go:12-19 | Initializing is the one status whose text has a lower-case letter |
| PlainService.Service.UpdateStatus | flux/status.go:40-52 | publishes exactly one message, the status text, on the status topic before storing it; a failed publish returns the wrapped error and leaves the status as it was; a success stores the status |
| PlainService.Service.HandleStatusRequest | flux/status.go:32-38 | never fails and replies with exactly one message carrying the stored status |
| PlainService.Service.RegisterStatusHandler | flux/status.go:21-30 | adds the one `flux.request_status` route on the request-status topic |
| PlainService.Service.OnConnect | flux/lifecycle.go:140-142 | stores the connect hook |
| PlainService.Service.OnReady | flux/lifecycle.go:144-146 | stores the ready hook |
| PlainService.OnRestart | flux/lifecycle.go:71-93 | adds the `flux.on_restart` route, whose closure runs the restart sequence |
| PlainService.OnError | flux/lifecycle.go:95-102 | adds the `flux.on_error` route on the error topic |
| PlainService.OnStart | flux/lifecycle.go:104-111 | adds the `flux.on_start` route, whose closure reports Active after the handler |
| PlainService.OnStop | flux/lifecycle.go:113-120 | adds the `flux.on_stop` route, whose closure reports Paused after the handler |
| PlainService.Restart | flux/lifecycle.go:76-91 | sets Paused, runs the handler, then sets Active; a failed Paused report keeps the handler from running, and a handler failure leaves the status Paused |
| PlainService.WithStatusUpdate | flux/lifecycle.go:122-138 | the status changes, with one publish, only after the handler succeeds |
| PlainService.Invoke | flux/lifecycle.go:71-138 | a successful restart closure leaves Active and a failed one leaves the status as it was or Paused; a status-updating closure calls its handler first, and leaves its status on success or the status as it was on failure |
| PlainService.RunTickLoop | flux/lifecycle.go:23-52 | the loop calls the handler exactly as `TickCalls` says and ends with the settings `Latest` says; the timer is re-armed with 0 when `IsInfinity` is set and with `Delay` otherwise |
| PlainService.TickCallsSplit | flux/lifecycle.go:38-51 | before a cancellation, the calls of two input runs are the calls of the first, then those of the second from the settings the first leaves |
| PlainService.FireCallsWithCurrentDelay | flux/lifecycle.go:47-49 | each timer fire calls the handler once, with the delay of the settings in force |
| PlainService.ReceivedReplacesSettings | flux/lifecycle.go:43-45 | received settings replace the current ones and call nothing |
| PlainService.NothingAfterCancel | flux/lifecycle.go:40-41 | once the context ends, no later input leads to a call or changes the settings |
| PlainService.HandleTickPayload | flux/lifecycle.go:58-67 | a payload that fails to decode returns the unmarshal error and forwards nothing; one that decodes is forwarded as new settings, with no error |
| PlainService.OnTick | flux/lifecycle.go:20-69 | starts the loop and adds the `flux.tick` route on the global tick topic |

## Left out

- Goroutines, channels, `router.Run`, contexts and locks are not modelled. The model runs every call in sequence and treats locks as no-ops. A started goroutine or router is one `Spawn` or `RunRouter` event.
- What a route's handler does when the router delivers a message is left out: the acknowledgements inside node routes and the IDE-status handler. The lifecycle closures are the exception: `Invoke` runs them.
- The plugin that reports Ready when a router starts is one `AddPlugin` event. Its status update is not modelled.
- Time is left out: `time.Now`, `time.Since`, `time.Sleep` and `Duration` arithmetic. So is the tick handlers' delta time, which the generic `OnServiceTick` computes with the wrong sign.
- The generic tick listeners share one channel, and each listener's `defer close(tick)` closes it again. This is concurrency behaviour and is not modelled.
- ServiceLifecycle.OnServiceTick: models each task as one `Spawn` event, not the loop it runs.
- Nodes.Node.OnTick: models the local tick loop as one `Spawn` event; the handler calls it makes are left out.
- JSON encoding and decoding are opaque. A configuration message carries its decode result. `Push` and `PubToTopic` receive the encoded value or `None`. The tick payload handler receives the decoded settings or `None`.
- The bus factories, NATS and watermill, the connection libraries and environment variables (`SERVICE_ID`, `NATS_URL`) are not modelled. A factory call is one `Open` event that may fail.
- Fold.FoldChar: folds ASCII letters only, not the Unicode simple folding of `strings.EqualFold`.
- Errors are plain texts. Messages wrapped with `%w` are stated by their prefix.
- A user handler's error is the one text `"handler failed"`. So `Run` states the connect hook's failure as that error, returned unwrapped.
- A handler call records its argument by name: a node configuration by its node id, and the ready hook's configuration by the list of its node ids, next to the router. The rest of the payload does not appear in the trace.
- Nodes.Node.Status: requires the status cell to be set. On a node from `NewNode` the Go method dereferences nil and panics, and panics are not modelled.
- Nodes.Node.SetStatus: requires the status cell to be set, for the same reason as `Status`.
- Atomic.AtomicValue: does not model `atomic.Value` panics when asked to store a nil interface or values of different concrete types.
- `IDEStatus` routing and `RegisterIDEStatusHandler` are one `AddRoute` event; `ide_status.go` is not part of this model.
- Services.Service.Close: assumes a logger is set. `NewService` leaves the logger nil unless one is passed as an option (service.go:53). A failed close then logs through a nil `*slog.Logger` (service.go:330, service.go:339), which panics before the field is cleared and before the subscriber is closed. Panics and logging are not modelled.
- ServiceLifecycle.OnServiceShutdown: assumes a logger is set, for the same reason: on the default service a failed subscriber close panics in the log call (service_lifecycle.go:156). The node-close log in `reloadNodes` (service.go:300) cannot run, because the as-written `Node.Close` always returns nil. It also requires the subscriber to be set: service_lifecycle.go:155 calls `n.sub.Close()` with no nil check, unlike `Service.Close` (service.go:336), and so panics on a nil subscriber. The subscriber is nil on a service that never ran, after a failed subscriber factory (the factory returns nil at factories.go:64, and `connect` stores it at service.go:228-231), and after a reconnect whose connect failed once `disconnect` had cleared it (service.go:249-254).
- Calls on a nil connection are not modelled; each of these members requires the publisher or subscriber it uses to be set, where Go would dereference nil and panic (for instance `UpdateStatus` or `PubToTopic` called before `Run`): Services.Service.RequestConfig, Services.Service.UpdateStatus, Services.Service.PubToTopic, Nodes.Node.Push, Nodes.Node.Close, Nodes.Node.CloseJoined, Nodes.Node.CloseSteps, ServiceLifecycle.Restart, ServiceLifecycle.WithStatusUpdate, ServiceLifecycle.Invoke, ServiceLifecycle.StartAndStopReportTheirStatus, ServiceLifecycle.OnServiceShutdown, PlainService.Service.UpdateStatus, PlainService.Restart, PlainService.WithStatusUpdate, PlainService.Invoke.
- Services.Service.RegisterStatusHandler: the recorded route carries its name and the request topic. The reply topic (`SendStatus`), the subscriber and the publisher the source also passes are not recorded.
- PlainService.Service.RegisterStatusHandler: the same as the generic one; the reply topic and the connections are not recorded.
- `GetConfig`, the development-mode marker file and the option setters are not part of this model.
- The non-generic service's `Status()` is not among the sources. PlainService.Service.HandleStatusRequest: requires the status cell to hold a value and replies with it, rather than guessing a fallback.

## Findings

| source | as written | input that shows it | evidently intended | confidence | as-written member | corrected member |
|---|---|---|---|---|---|---|
| flux/node.go:278-295 | `Close` discards every `errors.Join` result and returns `err`, which is never assigned, so it returns nil whatever fails | a router whose `Close` fails while the subscriber close and the destroy handler succeed: `Close` returns nil | return the joined errors of the router close, the subscriber close and the destroy handler, nil only when all three succeed | not executed | Nodes.Node.Close | Nodes.Node.CloseJoined |
