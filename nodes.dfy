/** A node of a service: its status values, its configuration as the node
    wiring reads it, the handlers a service hands every node, and the node
    object that registers those handlers on its router. */
module Nodes {
  import opened Wrappers
  import opened World
  import opened Atomic
  import NodePorts

  datatype NodeStatus = NodeStatusReady | NodeStatusActive | NodeStatusPaused | NodeStatusError {
    /** The wire text of a status. */
    function Text(): string {
      match this
      case NodeStatusReady => "READY"
      case NodeStatusActive => "RUNNING"
      case NodeStatusPaused => "STOPPED"
      case NodeStatusError => "ERROR"
    }
  }

  /** Distinct statuses have distinct texts, so a text names one status. */
  lemma NodeStatusTextInjective(a: NodeStatus, b: NodeStatus)
    requires a.Text() == b.Text()
    ensures a == b
  {
  }

  datatype TimerType = TimerTypeNone | TimerTypeLocal | TimerTypeGlobal

  /** `Interval` is in milliseconds. */
  datatype Timer = Timer(kind: TimerType, interval: int)

  /** The node configuration as `node.go` reads it: its id, its input ports
      (each an alias and the topics it listens on), its timer, and the user
      part. */
  datatype NodeConfig<T> = NodeConfig(id: string, inputs: seq<NodePorts.InputPort>, timer: Timer, config: T)

  /** `node/<alias>/<port>`: where a node pushes on one of its ports. */
  function BuildTopicNodePort(alias: string, port: string): (r: string)
    ensures |r| == 6 + |alias| + |port|
    ensures r[..5] == "node/" && r[5..5 + |alias|] == alias && r[5 + |alias|] == '/'
    ensures r[6 + |alias|..] == port
  {
    "node/" + alias + "/" + port
  }

  /** `node/<alias>/event/<event>`: where a node receives a lifecycle event. */
  function BuildTopicNodeEvent(alias: string, event: string): (r: string)
    ensures |r| == 12 + |alias| + |event|
    ensures r[..5] == "node/" && r[5..5 + |alias|] == alias
    ensures r[5 + |alias|..12 + |alias|] == "/event/"
    ensures r[12 + |alias|..] == event
  {
    "node/" + alias + "/event/" + event
  }

  /** For one node, distinct ports and distinct events have distinct topics. */
  lemma NodeTopicsInjective(a: string, p1: string, p2: string)
    ensures BuildTopicNodePort(a, p1) == BuildTopicNodePort(a, p2) ==> p1 == p2
    ensures BuildTopicNodeEvent(a, p1) == BuildTopicNodeEvent(a, p2) ==> p1 == p2
  {
    if BuildTopicNodePort(a, p1) == BuildTopicNodePort(a, p2) {
      assert p1 == BuildTopicNodePort(a, p1)[6 + |a|..];
    }
    if BuildTopicNodeEvent(a, p1) == BuildTopicNodeEvent(a, p2) {
      assert p1 == BuildTopicNodeEvent(a, p1)[12 + |a|..];
    }
  }

  /** An event topic is also the port topic of the port `event/<event>`, so a
      port of that name would receive the node's lifecycle events. */
  lemma EventTopicIsPortTopic(alias: string, event: string)
    ensures BuildTopicNodeEvent(alias, event) == BuildTopicNodePort(alias, "event/" + event)
  {
  }

  /** The port topic a node pushes on is never the topic an output port of the
      port model publishes on: one starts with `node/`, the other with `/node/`. */
  lemma PushTopicIsNotOutputPortTopic(alias: string, port: string, o: NodePorts.OutputPort, id: string)
    ensures BuildTopicNodePort(alias, port) != o.Topic(id)
  {
    assert BuildTopicNodePort(alias, port)[0] == 'n';
    assert o.Topic(id)[0] == '/';
  }

  /** The handlers a service gives to every node it builds. A handler is nil
      until set, and the subscribe map starts empty (a nil map reads as empty). */
  class NodeHandlers {
    var onReady: Option<Handler>
    var onStart: Option<Handler>
    var onStop: Option<Handler>
    var onSubscribe: map<string, Handler>
    var onDestroy: Option<Handler>
    var onTick: Option<Handler>

    constructor ()
      ensures onReady == None && onStart == None && onStop == None
      ensures onSubscribe == map[] && onDestroy == None && onTick == None
    {
      onReady, onStart, onStop := None, None, None;
      onSubscribe, onDestroy, onTick := map[], None, None;
    }

    method OnReady(h: Handler)
      modifies this
      ensures onReady == Some(h)
      ensures onStart == old(onStart) && onStop == old(onStop) && onSubscribe == old(onSubscribe)
      ensures onDestroy == old(onDestroy) && onTick == old(onTick)
    {
      onReady := Some(h);
    }

    method OnStart(h: Handler)
      modifies this
      ensures onStart == Some(h)
      ensures onReady == old(onReady) && onStop == old(onStop) && onSubscribe == old(onSubscribe)
      ensures onDestroy == old(onDestroy) && onTick == old(onTick)
    {
      onStart := Some(h);
    }

    method OnStop(h: Handler)
      modifies this
      ensures onStop == Some(h)
      ensures onReady == old(onReady) && onStart == old(onStart) && onSubscribe == old(onSubscribe)
      ensures onDestroy == old(onDestroy) && onTick == old(onTick)
    {
      onStop := Some(h);
    }

    /** Registers `h` for `port`, replacing an earlier handler of that port
        and keeping every other port's. */
    method OnSubscribe(port: string, h: Handler)
      modifies this
      ensures onSubscribe == old(onSubscribe)[port := h]
      ensures onSubscribe.Keys == old(onSubscribe.Keys) + {port}
      ensures forall p :: p in old(onSubscribe) && p != port ==> onSubscribe[p] == old(onSubscribe)[p]
      ensures onReady == old(onReady) && onStart == old(onStart) && onStop == old(onStop)
      ensures onDestroy == old(onDestroy) && onTick == old(onTick)
    {
      onSubscribe := onSubscribe[port := h];
    }

    /** The handler registered for `port`, if any. */
    method GetSubscribeHandler(port: string) returns (h: Option<Handler>)
      ensures h.Some? <==> port in onSubscribe
      ensures h.Some? ==> h.value == onSubscribe[port]
    {
      h := if port in onSubscribe then Some(onSubscribe[port]) else None;
    }

    method OnTick(h: Handler)
      modifies this
      ensures onTick == Some(h)
      ensures onReady == old(onReady) && onStart == old(onStart) && onStop == old(onStop)
      ensures onSubscribe == old(onSubscribe) && onDestroy == old(onDestroy)
    {
      onTick := Some(h);
    }

    method OnDestroy(h: Handler)
      modifies this
      ensures onDestroy == Some(h)
      ensures onReady == old(onReady) && onStart == old(onStart) && onStop == old(onStop)
      ensures onSubscribe == old(onSubscribe) && onTick == old(onTick)
    {
      onDestroy := Some(h);
    }
  }

  /** A handler added to one after another, and then looked up, is found for
      each of its ports; a port never registered is not. */
  method SubscribeThenLookup(p: string, q: string, other: string, h1: Handler, h2: Handler)
    returns (r1: Option<Handler>, r2: Option<Handler>, r3: Option<Handler>)
    requires p != q && other != p && other != q
    ensures r1 == Some(h1) && r2 == Some(h2) && r3 == None
  {
    var hs := new NodeHandlers();
    hs.OnSubscribe(p, h1);
    hs.OnSubscribe(q, h2);
    r1 := hs.GetSubscribeHandler(p);
    r2 := hs.GetSubscribeHandler(q);
    r3 := hs.GetSubscribeHandler(other);
  }

  // ---------------------------------------------------------------------
  // What registering a node adds to the trace.

  /** One no-publisher route per topic of `topics`, each named after its topic. */
  function TopicRoutes(router: Endpoint, topics: seq<string>): (r: seq<Event>)
    ensures |r| == |topics|
  {
    seq(|topics|, k requires 0 <= k < |topics| =>
      Event(AddRoute(router, "flux.node.on_subscribe." + topics[k], topics[k]), true))
  }

  /** The routes `OnSubscribe(port, …)` adds: those of the topics of every
      input port whose alias is exactly `port`, in port order. */
  function SubscribeRoutes(router: Endpoint, inputs: seq<NodePorts.InputPort>, port: string): seq<Event>
  {
    if inputs == [] then []
    else
      var last := inputs[|inputs| - 1];
      SubscribeRoutes(router, inputs[..|inputs| - 1], port)
        + (if last.alias == port then TopicRoutes(router, last.topics) else [])
  }

  /** The routes for every subscribed port, taken in the order `order`. */
  function SubscribeAll(router: Endpoint, inputs: seq<NodePorts.InputPort>, order: seq<string>): seq<Event>
  {
    if order == [] then []
    else SubscribeAll(router, inputs, order[..|order| - 1]) + SubscribeRoutes(router, inputs, order[|order| - 1])
  }

  /** The route a topic gets when some input port of alias `port` lists it. */
  function RouteOf(router: Endpoint, topic: string): Event {
    Event(AddRoute(router, "flux.node.on_subscribe." + topic, topic), true)
  }

  /** `OnSubscribe(port, …)` adds a route for topic `t` exactly when some input
      port of alias `port` lists `t`, and adds nothing but such routes. */
  lemma {:induction false} SubscribeRoutesExact(router: Endpoint, inputs: seq<NodePorts.InputPort>, port: string, t: string)
    ensures RouteOf(router, t) in SubscribeRoutes(router, inputs, port)
        <==> exists i :: 0 <= i < |inputs| && inputs[i].alias == port && t in inputs[i].topics
    ensures forall e :: e in SubscribeRoutes(router, inputs, port) ==>
        exists i, u :: 0 <= i < |inputs| && inputs[i].alias == port && u in inputs[i].topics && e == RouteOf(router, u)
  {
    if inputs != [] {
      var init := inputs[..|inputs| - 1];
      var last := inputs[|inputs| - 1];
      SubscribeRoutesExact(router, init, port, t);
      var tail := if last.alias == port then TopicRoutes(router, last.topics) else [];
      assert SubscribeRoutes(router, inputs, port) == SubscribeRoutes(router, init, port) + tail;
      assert forall i :: 0 <= i < |init| ==> init[i] == inputs[i];
      assert RouteOf(router, t) in tail <==> last.alias == port && t in last.topics by {
        if last.alias == port && t in last.topics {
          var k :| 0 <= k < |last.topics| && last.topics[k] == t;
          assert tail[k] == RouteOf(router, t);
        }
      }
      forall e | e in tail
        ensures exists i, u :: 0 <= i < |inputs| && inputs[i].alias == port && u in inputs[i].topics && e == RouteOf(router, u)
      {
        var k :| 0 <= k < |tail| && tail[k] == e;
        assert e == RouteOf(router, last.topics[k]);
        assert inputs[|inputs| - 1] == last;
      }
    }
  }

  lemma TopicRoutesNoAcks(router: Endpoint, topics: seq<string>)
    ensures NoAcks(TopicRoutes(router, topics))
  {
  }

  lemma {:induction false} SubscribeRoutesNoAcks(router: Endpoint, inputs: seq<NodePorts.InputPort>, port: string)
    ensures NoAcks(SubscribeRoutes(router, inputs, port))
  {
    if inputs != [] {
      var last := inputs[|inputs| - 1];
      SubscribeRoutesNoAcks(router, inputs[..|inputs| - 1], port);
      TopicRoutesNoAcks(router, last.topics);
      NoAcksConcat(SubscribeRoutes(router, inputs[..|inputs| - 1], port),
                   if last.alias == port then TopicRoutes(router, last.topics) else []);
    }
  }

  lemma {:induction false} SubscribeAllNoAcks(router: Endpoint, inputs: seq<NodePorts.InputPort>, order: seq<string>)
    ensures NoAcks(SubscribeAll(router, inputs, order))
  {
    if order != [] {
      SubscribeAllNoAcks(router, inputs, order[..|order| - 1]);
      SubscribeRoutesNoAcks(router, inputs, order[|order| - 1]);
      NoAcksConcat(SubscribeAll(router, inputs, order[..|order| - 1]), SubscribeRoutes(router, inputs, order[|order| - 1]));
    }
  }

  /** What `OnTick` does, by timer type: nothing for no timer, a tick loop for
      a local timer, a route on the service tick topic for a global one. */
  function TickEvents(router: Endpoint, config: NodeConfig): seq<Event> {
    match config.timer.kind
    case TimerTypeNone => []
    case TimerTypeLocal => [Event(Spawn("flux.node.local_tick." + config.id), true)]
    case TimerTypeGlobal => [Event(AddRoute(router, "flux.node.on_tick." + config.id, "service/tick"), true)]
  }

  /** A node with no timer gets no tick; a local timer starts a loop and adds
      no route; a global timer adds one route, on `service/tick`, and starts
      nothing. */
  lemma TickDispatch(router: Endpoint, config: NodeConfig)
    ensures TickEvents(router, config) == [] <==> config.timer.kind == TimerTypeNone
    ensures Routes(TickEvents(router, config), router) ==
      (if config.timer.kind == TimerTypeGlobal then [("flux.node.on_tick." + config.id, "service/tick")] else [])
    ensures config.timer.kind == TimerTypeLocal <==>
      exists e :: e in TickEvents(router, config) && e.action.Spawn?
  {
    var t := TickEvents(router, config);
    if config.timer.kind != TimerTypeNone {
      assert t[1..] == [];
    }
  }

  /** A lifecycle event route: `flux.node.on_<event>.<id>` on the node's event topic. */
  function EventRoute(router: Endpoint, id: string, event: string): Event {
    Event(AddRoute(router, "flux.node.on_" + event + "." + id, BuildTopicNodeEvent(id, event)), true)
  }

  /** The routes a node adds for its start and stop handlers and its tick. */
  function HookEvents(router: Endpoint, config: NodeConfig, onStart: Option<Handler>, onStop: Option<Handler>,
                      onTick: Option<Handler>): seq<Event>
  {
    (if onStart.Some? then [EventRoute(router, config.id, "start")] else [])
    + (if onStop.Some? then [EventRoute(router, config.id, "stop")] else [])
    + (if onTick.Some? then TickEvents(router, config) else [])
  }

  lemma HookEventsNoAcks(router: Endpoint, config: NodeConfig, onStart: Option<Handler>, onStop: Option<Handler>,
                         onTick: Option<Handler>)
    ensures NoAcks(HookEvents(router, config, onStart, onStop, onTick))
  {
  }

  /** The handlers `RegisterHandlers` wires, read off the handler set. */
  datatype Hooks = Hooks(onReady: Option<Handler>, onStart: Option<Handler>, onStop: Option<Handler>, onTick: Option<Handler>)

  ghost function HooksOf(h: NodeHandlers): Hooks
    reads h
  {
    Hooks(h.onReady, h.onStart, h.onStop, h.onTick)
  }

  /** What a successful `RegisterHandlers` of a node on `router` records:
      the ready call, the start, stop and tick hooks, the subscribe routes of
      the map's ports taken in `order`, and the router start. */
  function Registered<T>(h: Hooks, router: Endpoint, config: NodeConfig<T>, order: seq<string>): seq<Event> {
    (if h.onReady.Some? then [Event(Call(h.onReady.value, NodeConfigOf(config.id)), true)] else [])
    + HookEvents(router, config, h.onStart, h.onStop, h.onTick)
    + SubscribeAll(router, config.inputs, order)
    + [Event(RunRouter(router), true)]
  }

  /** The registrations of one node per entry of `configs`, in order, the
      i-th taking its subscribe ports in `orders[i]`. */
  function BuildsOf<T>(h: Hooks, router: Endpoint, configs: seq<NodeConfig<T>>, orders: seq<seq<string>>): seq<Event> {
    if configs == [] || |orders| != |configs| then []
    else
      BuildsOf(h, router, configs[..|configs| - 1], orders[..|orders| - 1])
      + Registered(h, router, configs[|configs| - 1], orders[|orders| - 1])
  }

  lemma RegisteredNoAcks<T>(h: Hooks, router: Endpoint, config: NodeConfig<T>, order: seq<string>)
    ensures NoAcks(Registered(h, router, config, order))
  {
    var ready := if h.onReady.Some? then [Event(Call(h.onReady.value, NodeConfigOf(config.id)), true)] else [];
    HookEventsNoAcks(router, config, h.onStart, h.onStop, h.onTick);
    SubscribeAllNoAcks(router, config.inputs, order);
    NoAcksConcat(ready, HookEvents(router, config, h.onStart, h.onStop, h.onTick));
    NoAcksConcat(ready + HookEvents(router, config, h.onStart, h.onStop, h.onTick), SubscribeAll(router, config.inputs, order));
    NoAcksConcat(ready + HookEvents(router, config, h.onStart, h.onStop, h.onTick) + SubscribeAll(router, config.inputs, order),
      [Event(RunRouter(router), true)]);
  }

  lemma {:induction false} BuildsOfNoAcks<T>(h: Hooks, router: Endpoint, configs: seq<NodeConfig<T>>, orders: seq<seq<string>>)
    ensures NoAcks(BuildsOf(h, router, configs, orders))
  {
    if configs != [] && |orders| == |configs| {
      BuildsOfNoAcks(h, router, configs[..|configs| - 1], orders[..|orders| - 1]);
      RegisteredNoAcks(h, router, configs[|configs| - 1], orders[|orders| - 1]);
      NoAcksConcat(BuildsOf(h, router, configs[..|configs| - 1], orders[..|orders| - 1]),
        Registered(h, router, configs[|configs| - 1], orders[|orders| - 1]));
    }
  }

  /** What closing a node depends on, read off the node before it is closed. */
  datatype CloseView = CloseView(router: Endpoint, sub: Option<Endpoint>, destroy: Option<Handler>, id: string)

  ghost function ViewOf<T>(n: Node<T>): CloseView
    reads n
  {
    CloseView(n.router, n.sub, n.onDestroyHandler, n.config.id)
  }

  ghost function ViewsOf<T>(ns: seq<Node<T>>): (r: seq<CloseView>)
    reads ns
    ensures |r| == |ns| && forall i :: 0 <= i < |ns| ==> r[i] == ViewOf(ns[i])
  {
    seq(|ns|, i reads ns requires 0 <= i < |ns| => ViewOf(ns[i]))
  }

  /** What closing each node in turn records, the i-th node's three steps
      having the outcomes `outs[i]`. */
  function ClosesOf(views: seq<CloseView>, outs: seq<(Outcome, Outcome, Outcome)>): seq<Event> {
    if views == [] || |outs| != |views| then []
    else
      var v := views[|views| - 1];
      var o := outs[|outs| - 1];
      ClosesOf(views[..|views| - 1], outs[..|outs| - 1])
      + (if v.sub.Some? then CloseEvents(v.router, v.sub.value, v.destroy, v.id, o.0, o.1, o.2) else [])
  }

  lemma {:induction false} ClosesOfNoAcks(views: seq<CloseView>, outs: seq<(Outcome, Outcome, Outcome)>)
    ensures NoAcks(ClosesOf(views, outs))
  {
    if views != [] && |outs| == |views| {
      var v := views[|views| - 1];
      var o := outs[|outs| - 1];
      var last := if v.sub.Some? then CloseEvents(v.router, v.sub.value, v.destroy, v.id, o.0, o.1, o.2) else [];
      ClosesOfNoAcks(views[..|views| - 1], outs[..|outs| - 1]);
      NoAcksConcat(ClosesOf(views[..|views| - 1], outs[..|outs| - 1]), last);
    }
  }

  lemma ClosesOfSnoc(views: seq<CloseView>, outs: seq<(Outcome, Outcome, Outcome)>, v: CloseView, o: (Outcome, Outcome, Outcome))
    requires |outs| == |views| && v.sub.Some?
    ensures ClosesOf(views + [v], outs + [o]) == ClosesOf(views, outs) + CloseEvents(v.router, v.sub.value, v.destroy, v.id, o.0, o.1, o.2)
  {
    assert (views + [v])[..|views|] == views;
    assert (outs + [o])[..|outs|] == outs;
  }

  lemma BuildsOfSnoc<T>(h: Hooks, router: Endpoint, configs: seq<NodeConfig<T>>, orders: seq<seq<string>>,
                        c: NodeConfig<T>, o: seq<string>)
    requires |orders| == |configs|
    ensures BuildsOf(h, router, configs + [c], orders + [o]) == BuildsOf(h, router, configs, orders) + Registered(h, router, c, o)
  {
    assert (configs + [c])[..|configs|] == configs;
    assert (orders + [o])[..|orders|] == orders;
  }

  /** `order` lists each key of `keys` exactly once. */
  ghost predicate Enumerates(order: seq<string>, keys: set<string>) {
    && (forall x :: x in order <==> x in keys)
    && (forall i, j :: 0 <= i < j < |order| ==> order[i] != order[j])
  }

  /** Part way through a map iteration: `order` lists, once each, the keys
      not left in `remaining`. */
  ghost predicate Picked(order: seq<string>, keys: set<string>, remaining: set<string>) {
    && remaining <= keys
    && (forall x :: x in order <==> x in keys && x !in remaining)
    && (forall i, j :: 0 <= i < j < |order| ==> order[i] != order[j])
  }

  /** Taking one more key keeps the iteration well formed; once nothing is
      left, the order enumerates the keys. */
  lemma PickStep(order: seq<string>, keys: set<string>, remaining: set<string>, x: string)
    requires Picked(order, keys, remaining) && x in remaining
    ensures Picked(order + [x], keys, remaining - {x})
  {
    forall i, j | 0 <= i < j < |order + [x]|
      ensures (order + [x])[i] != (order + [x])[j]
    {
      if j == |order| {
        assert order[i] in order;
      }
    }
  }

  lemma PickDone(order: seq<string>, keys: set<string>)
    requires Picked(order, keys, {})
    ensures Enumerates(order, keys)
  {
  }

  lemma SubscribeAllSnoc(router: Endpoint, inputs: seq<NodePorts.InputPort>, order: seq<string>, port: string)
    ensures SubscribeAll(router, inputs, order + [port]) == SubscribeAll(router, inputs, order) + SubscribeRoutes(router, inputs, port)
  {
    assert (order + [port])[..|order|] == order;
  }

  /** What `Close` records: the router, then the subscriber, then the destroy
      handler when one is set, each with its own outcome. */
  function CloseEvents(router: Endpoint, sub: Endpoint, destroy: Option<Handler>, id: string,
                       r1: Outcome, r2: Outcome, r3: Outcome): seq<Event>
  {
    [Event(Action.Close(router), r1.Pass?), Event(Action.Close(sub), r2.Pass?)]
    + (if destroy.Some? then [Event(Call(destroy.value, NodeConfigOf(id)), r3.Pass?)] else [])
  }

  /** The error `Close` returns as written: each `errors.Join` result is
      discarded and `err` is never assigned, so it is nil whatever failed. */
  function CloseErrorAsWritten(routerErr: Outcome, subErr: Outcome, destroyErr: Outcome): Outcome {
    Pass
  }

  /** The error `Close` evidently means to return: every failure, wrapped
      with what failed, joined together. */
  function CloseError(routerErr: Outcome, subErr: Outcome, destroyErr: Outcome): (r: Outcome)
    ensures r.Pass? <==> routerErr.Pass? && subErr.Pass? && destroyErr.Pass?
    ensures routerErr.Fail? && subErr.Pass? && destroyErr.Pass? ==>
      r == Fail("could not close router: " + routerErr.msg)
  {
    Join(Join(Wrap("could not close router: ", routerErr), Wrap("could not close subscriber: ", subErr)),
         Wrap("could not run destroy handler: ", destroyErr))
  }

  /** A router that fails to close: the as-written result reports nothing,
      the joined one reports the failure. */
  lemma CloseLosesRouterError()
    ensures CloseErrorAsWritten(Fail("close failed"), Pass, Pass) == Pass
    ensures CloseError(Fail("close failed"), Pass, Pass) == Fail("could not close router: close failed")
  {
  }

  /** A node: the router it registers on, the subscriber and publisher it
      uses, its configuration and its status and state cells. `status` is a
      pointer that `NewNode` never sets (`None`); `closed` records that
      `Close` ran. */
  class Node<T> {
    const bus: World
    const router: Endpoint
    const sub: Option<Endpoint>
    const pub: Option<Endpoint>
    const config: NodeConfig<T>
    const status: Option<AtomicValue<NodeStatus>>
    const state: AtomicValue<seq<bv8>>
    var onDestroyHandler: Option<Handler>
    ghost var closed: bool

    /** `NewNode`: the state cell holds nil (the empty byte string), no
        destroy handler is set and the status pointer is left nil. */
    constructor (bus: World, router: Endpoint, sub: Option<Endpoint>, pub: Option<Endpoint>, config: NodeConfig<T>)
      ensures this.bus == bus && this.router == router && this.sub == sub && this.pub == pub
      ensures this.config == config
      ensures status == None && fresh(state) && state.stored == Some([])
      ensures onDestroyHandler == None && !closed
    {
      this.bus := bus;
      this.router := router;
      this.sub := sub;
      this.pub := pub;
      this.config := config;
      this.status := None;
      this.state := new AtomicValue([]);
      onDestroyHandler := None;
      closed := false;
    }

    /** A node written as a struct literal that also sets the status cell,
        which `NewNode` leaves nil; otherwise as `NewNode`. */
    constructor WithStatus(bus: World, router: Endpoint, sub: Option<Endpoint>, pub: Option<Endpoint>,
                           config: NodeConfig<T>, status: AtomicValue<NodeStatus>)
      ensures this.bus == bus && this.router == router && this.sub == sub && this.pub == pub
      ensures this.config == config && this.status == Some(status)
      ensures fresh(state) && state.stored == Some([])
      ensures onDestroyHandler == None && !closed
    {
      this.bus := bus;
      this.router := router;
      this.sub := sub;
      this.pub := pub;
      this.config := config;
      this.status := Some(status);
      this.state := new AtomicValue([]);
      onDestroyHandler := None;
      closed := false;
    }

    /** Runs the ready handler first: if it fails, its wrapped error is
        returned and nothing is registered. Otherwise the start and stop
        routes, the destroy handler, the tick and one batch of subscribe
        routes per subscribed port (in the map's iteration order, which the
        caller does not control) are registered and the router is started. */
    method RegisterHandlers(handlers: NodeHandlers) returns (err: Outcome, ghost order: seq<string>)
      modifies this, bus
      ensures bus.nextId == old(bus.nextId) && closed == old(closed)
      ensures err.Fail? ==>
        && handlers.onReady.Some?
        && bus.trace == old(bus.trace) + [Event(Call(handlers.onReady.value, NodeConfigOf(config.id)), false)]
        && onDestroyHandler == old(onDestroyHandler)
        && "could not run ready handler: " <= err.msg
      ensures err.Pass? ==>
        && onDestroyHandler == (if handlers.onDestroy.Some? then handlers.onDestroy else old(onDestroyHandler))
        && Enumerates(order, handlers.onSubscribe.Keys)
        && bus.trace == old(bus.trace) + Registered(HooksOf(handlers), router, config, order)
      ensures Quiet(old(bus.trace), bus.trace)
    {
      var readyEvents: seq<Event> := [];
      if handlers.onReady.Some? {
        var e := OnReady(handlers.onReady.value);
        if e.Fail? {
          return e, [];
        }
        readyEvents := [Event(Call(handlers.onReady.value, NodeConfigOf(config.id)), true)];
      }
      ghost var t1 := bus.trace;
      assert t1 == old(bus.trace) + readyEvents;
      QuietAppend(old(bus.trace), old(bus.trace), readyEvents);
      RegisterHooks(handlers);
      ghost var t2 := bus.trace;
      ghost var hooks := HookEvents(router, config, handlers.onStart, handlers.onStop, handlers.onTick);
      HookEventsNoAcks(router, config, handlers.onStart, handlers.onStop, handlers.onTick);
      QuietAppend(old(bus.trace), t1, hooks);
      order := RegisterSubscriptions(handlers);
      ghost var t3 := bus.trace;
      QuietTrans(old(bus.trace), t2, t3);
      bus.Record(RunRouter(router));
      QuietAppend(old(bus.trace), t3, [Event(RunRouter(router), true)]);
      AppendAssoc4(old(bus.trace), readyEvents, hooks, SubscribeAll(router, config.inputs, order),
        [Event(RunRouter(router), true)]);
      err := Pass;
    }

    /** The start and stop routes, the destroy handler and the tick, each only
        when its handler is set. */
    method RegisterHooks(handlers: NodeHandlers)
      modifies this, bus
      ensures bus.trace == old(bus.trace) + HookEvents(router, config, handlers.onStart, handlers.onStop, handlers.onTick)
      ensures bus.nextId == old(bus.nextId) && closed == old(closed)
      ensures onDestroyHandler == (if handlers.onDestroy.Some? then handlers.onDestroy else old(onDestroyHandler))
    {
      ghost var t0 := bus.trace;
      ghost var starts: seq<Event> := [];
      if handlers.onStart.Some? {
        OnStart(handlers.onStart.value);
        starts := [EventRoute(router, config.id, "start")];
      }
      ghost var t1 := bus.trace;
      ghost var stops: seq<Event> := [];
      if handlers.onStop.Some? {
        OnStop(handlers.onStop.value);
        stops := [EventRoute(router, config.id, "stop")];
      }
      if handlers.onDestroy.Some? {
        onDestroyHandler := handlers.onDestroy;
      }
      ghost var t2 := bus.trace;
      ghost var ticks: seq<Event> := [];
      if handlers.onTick.Some? {
        OnTick(handlers.onTick.value);
        ticks := TickEvents(router, config);
      }
      assert t1 == t0 + starts && t2 == t1 + stops && bus.trace == t2 + ticks;
      ghost var hooks := HookEvents(router, config, handlers.onStart, handlers.onStop, handlers.onTick);
      assert hooks == starts + stops + ticks;
    }

    /** `OnSubscribe` for every port of the subscribe map, in an order the
        caller does not control (Go's map iteration order). */
    method RegisterSubscriptions(handlers: NodeHandlers) returns (ghost order: seq<string>)
      modifies bus
      ensures Enumerates(order, handlers.onSubscribe.Keys)
      ensures bus.trace == old(bus.trace) + SubscribeAll(router, config.inputs, order)
      ensures bus.nextId == old(bus.nextId)
      ensures Quiet(old(bus.trace), bus.trace)
    {
      var remaining := handlers.onSubscribe.Keys;
      order := [];
      while remaining != {}
        invariant Picked(order, handlers.onSubscribe.Keys, remaining)
        invariant bus.trace == old(bus.trace) + SubscribeAll(router, config.inputs, order)
        invariant bus.nextId == old(bus.nextId)
        decreases |remaining|
      {
        var port :| port in remaining;
        // `OnSubscribe` never fails, so its error check never returns.
        var e := OnSubscribe(port, handlers.onSubscribe[port]);
        PickStep(order, handlers.onSubscribe.Keys, remaining, port);
        SubscribeAllSnoc(router, config.inputs, order, port);
        remaining := remaining - {port};
        order := order + [port];
      }
      PickDone(order, handlers.onSubscribe.Keys);
      SubscribeAllNoAcks(router, config.inputs, order);
      QuietAppend(old(bus.trace), old(bus.trace), SubscribeAll(router, config.inputs, order));
    }

    /** Runs `handler` on the node's configuration, wrapping its error. */
    method OnReady(handler: Handler) returns (err: Outcome)
      modifies bus
      ensures bus.trace == old(bus.trace) + [Event(Call(handler, NodeConfigOf(config.id)), err.Pass?)]
      ensures bus.nextId == old(bus.nextId)
      ensures err.Fail? ==> "could not run ready handler: " <= err.msg
    {
      var e := bus.Call(handler, NodeConfigOf(config.id));
      err := Wrap("could not run ready handler: ", e);
    }

    /** Routes the node's `start` event topic to `handler`. */
    method OnStart(handler: Handler)
      modifies bus
      ensures bus.trace == old(bus.trace) + [EventRoute(router, config.id, "start")]
      ensures bus.nextId == old(bus.nextId)
    {
      assert "flux.node.on_" + "start" + "." + config.id == "flux.node.on_start." + config.id;
      bus.Record(AddRoute(router, "flux.node.on_start." + config.id, BuildTopicNodeEvent(config.id, "start")));
    }

    /** Routes the node's `stop` event topic to `handler`. */
    method OnStop(handler: Handler)
      modifies bus
      ensures bus.trace == old(bus.trace) + [EventRoute(router, config.id, "stop")]
      ensures bus.nextId == old(bus.nextId)
    {
      assert "flux.node.on_" + "stop" + "." + config.id == "flux.node.on_stop." + config.id;
      bus.Record(AddRoute(router, "flux.node.on_stop." + config.id, BuildTopicNodeEvent(config.id, "stop")));
    }

    /** Publishes the encoded `data` on the node's topic for `port`; a value
        that does not encode is an error and nothing is published. */
    method Push(port: string, encoded: Option<string>) returns (err: Outcome)
      requires encoded.Some? ==> pub.Some?
      modifies bus
      ensures encoded.None? ==>
        err.Fail? && "could not marshal payload: " <= err.msg && bus.trace == old(bus.trace)
      ensures encoded.Some? ==>
        bus.trace == old(bus.trace) + [Event(Publish(pub.value, BuildTopicNodePort(config.id, port), encoded.value), err.Pass?)]
      ensures bus.nextId == old(bus.nextId)
    {
      if encoded.None? {
        return Fail("could not marshal payload: " + "marshal failed");
      }
      err := bus.Publish(pub.value, BuildTopicNodePort(config.id, port), encoded.value);
    }

    /** One route per topic of every input port whose alias is exactly `port`.
        `handler` runs only when the router delivers, which is not modelled. */
    method OnSubscribe(port: string, handler: Handler) returns (err: Outcome)
      modifies bus
      ensures err == Pass
      ensures bus.trace == old(bus.trace) + SubscribeRoutes(router, config.inputs, port)
      ensures bus.nextId == old(bus.nextId)
    {
      var i := 0;
      while i < |config.inputs|
        invariant 0 <= i <= |config.inputs|
        invariant bus.trace == old(bus.trace) + SubscribeRoutes(router, config.inputs[..i], port)
        invariant bus.nextId == old(bus.nextId)
      {
        var p := config.inputs[i];
        var before := bus.trace;
        if p.alias == port {
          var j := 0;
          while j < |p.topics|
            invariant 0 <= j <= |p.topics|
            invariant bus.trace == before + TopicRoutes(router, p.topics[..j])
            invariant bus.nextId == old(bus.nextId)
          {
            bus.Record(AddRoute(router, "flux.node.on_subscribe." + p.topics[j], p.topics[j]));
            assert TopicRoutes(router, p.topics[..j + 1]) == TopicRoutes(router, p.topics[..j]) + [RouteOf(router, p.topics[j])];
            j := j + 1;
          }
          assert p.topics[..j] == p.topics;
        }
        assert config.inputs[..i + 1][..i] == config.inputs[..i];
        i := i + 1;
      }
      assert config.inputs[..i] == config.inputs;
      err := Pass;
    }

    /** Wires `handler` to the node's timer, by timer type. */
    method OnTick(handler: Handler)
      modifies bus
      ensures bus.trace == old(bus.trace) + TickEvents(router, config)
      ensures bus.nextId == old(bus.nextId)
    {
      match config.timer.kind
      case TimerTypeNone =>
      case TimerTypeLocal =>
        bus.Record(Spawn("flux.node.local_tick." + config.id));
      case TimerTypeGlobal =>
        bus.Record(AddRoute(router, "flux.node.on_tick." + config.id, "service/tick"));
    }

    method OnDestroy(handler: Handler)
      modifies this
      ensures onDestroyHandler == Some(handler) && closed == old(closed)
    {
      onDestroyHandler := Some(handler);
    }

    /** The stored state, or nil (empty) when the cell holds nothing. */
    method State() returns (value: seq<bv8>)
      ensures state.stored.Some? ==> value == state.stored.value
      ensures state.stored.None? ==> value == []
    {
      var v, ok := state.Get();
      value := if ok then v else [];
    }

    method SetState(value: seq<bv8>) returns (err: Outcome)
      modifies state
      ensures err == Pass && state.stored == Some(value)
    {
      state.Set(value);
      err := Pass;
    }

    /** The stored status, or `NodeStatusError` when the cell holds nothing.
        The cell must exist: `NewNode` leaves it nil. */
    method Status() returns (st: NodeStatus)
      requires status.Some?
      ensures status.value.stored.Some? ==> st == status.value.stored.value
      ensures status.value.stored.None? ==> st == NodeStatusError
    {
      var v, ok := status.value.Get();
      st := if ok then v else NodeStatusError;
    }

    method SetStatus(st: NodeStatus) returns (err: Outcome)
      requires status.Some?
      modifies status.value
      ensures err == Pass && status.value.stored == Some(st)
    {
      status.value.Set(st);
      err := Pass;
    }

    /** Closes the router, then the subscriber, then runs the destroy handler;
        each step runs whatever the earlier ones returned. As written, the
        result is nil even when a step fails. */
    method Close() returns (err: Outcome)
      requires sub.Some?
      modifies this`closed, bus
      ensures closed && onDestroyHandler == old(onDestroyHandler)
      ensures bus.nextId == old(bus.nextId)
      ensures exists r1, r2, r3 ::
        bus.trace == old(bus.trace) + CloseEvents(router, sub.value, onDestroyHandler, config.id, r1, r2, r3)
        && err == CloseErrorAsWritten(r1, r2, r3)
      ensures Quiet(old(bus.trace), bus.trace)
    {
      var r1, r2, r3 := CloseSteps();
      err := CloseErrorAsWritten(r1, r2, r3);
    }

    /** `Close` with every step's error joined into the result: nil exactly
        when every step succeeded. */
    method CloseJoined() returns (err: Outcome)
      requires sub.Some?
      modifies this`closed, bus
      ensures closed && onDestroyHandler == old(onDestroyHandler)
      ensures bus.nextId == old(bus.nextId)
      ensures exists r1, r2, r3 ::
        bus.trace == old(bus.trace) + CloseEvents(router, sub.value, onDestroyHandler, config.id, r1, r2, r3)
        && err == CloseError(r1, r2, r3)
      ensures Quiet(old(bus.trace), bus.trace)
    {
      var r1, r2, r3 := CloseSteps();
      err := CloseError(r1, r2, r3);
    }

    /** The three steps both closes share, and what each returned. */
    method CloseSteps() returns (r1: Outcome, r2: Outcome, r3: Outcome)
      requires sub.Some?
      modifies this`closed, bus
      ensures closed && onDestroyHandler == old(onDestroyHandler)
      ensures bus.nextId == old(bus.nextId)
      ensures bus.trace == old(bus.trace) + CloseEvents(router, sub.value, onDestroyHandler, config.id, r1, r2, r3)
      ensures Quiet(old(bus.trace), bus.trace)
    {
      r1 := bus.Close(router);
      r2 := bus.Close(sub.value);
      r3 := Pass;
      if onDestroyHandler.Some? {
        r3 := bus.Call(onDestroyHandler.value, NodeConfigOf(config.id));
      }
      closed := true;
    }
  }

  /** On a node whose status cell is set, `Status` reads back what
      `SetStatus` stored, whatever the cell held before. */
  method SetThenStatus<T>(bus: World, router: Endpoint, config: NodeConfig<T>, initial: NodeStatus, st: NodeStatus)
    returns (read: NodeStatus)
    ensures read == st
  {
    var cell := new AtomicValue(initial);
    var n := new Node.WithStatus(bus, router, None, None, config, cell);
    var e := n.SetStatus(st);
    read := n.Status();
  }

  /** A node fresh from `NewNode` reads back nil state. */
  method FreshNodeState<T>(bus: World, router: Endpoint, sub: Option<Endpoint>, pub: Option<Endpoint>, config: NodeConfig<T>)
    returns (value: seq<bv8>)
    ensures value == []
  {
    var n := new Node(bus, router, sub, pub, config);
    value := n.State();
  }
}
