/** The generic service: its connections to the bus, its status cell, the
    router it rebuilds for every configuration it receives, and the nodes it
    builds from that configuration. */
module Services {
  import opened Wrappers
  import opened World
  import opened Atomic
  import Topics
  import opened Nodes

  datatype ServiceStatus =
    | ServiceStatusStarting | ServiceStatusConnected | ServiceStatusReady
    | ServiceStatusPaused | ServiceStatusError | ServiceStatusActive
  {
    /** The wire text of a status. `ServiceStatusActive` is used by the
        lifecycle wrappers but declared nowhere among these statuses; the
        model gives it the text the non-generic service uses. */
    function Text(): string {
      match this
      case ServiceStatusStarting => "STARTING"
      case ServiceStatusConnected => "CONNECTED"
      case ServiceStatusReady => "READY"
      case ServiceStatusPaused => "PAUSED"
      case ServiceStatusError => "ERROR"
      case ServiceStatusActive => "ACTIVE"
    }
  }

  /** Distinct statuses are published as distinct texts. */
  lemma ServiceStatusTextInjective(a: ServiceStatus, b: ServiceStatus)
    requires a.Text() == b.Text()
    ensures a == b
  {
  }

  /** A configuration message: its delivery id, its raw payload and what
      decoding the payload gives (`None` when it does not decode). */
  datatype ConfigMessage<T> = ConfigMessage(id: nat, payload: string, decoded: Option<seq<NodeConfig<T>>>)

  function Ids<T>(ms: seq<ConfigMessage<T>>): (r: seq<nat>)
    ensures |r| == |ms|
    ensures forall i :: 0 <= i < |ms| ==> r[i] == ms[i].id
  {
    seq(|ms|, i requires 0 <= i < |ms| => ms[i].id)
  }

  /** A successful close of `e`, when it is present. */
  function Closed(e: Option<Endpoint>): seq<Event> {
    if e.Some? then [Event(Action.Close(e.value), true)] else []
  }

  /** A close of `e` with outcome `ok`, when it is present. */
  function ClosedWith(e: Option<Endpoint>, ok: bool): seq<Event> {
    if e.Some? then [Event(Action.Close(e.value), ok)] else []
  }

  /** Successful factory calls for subscriber, publisher and caller, in that
      order, starting at serial number `n`. */
  function Opened(n: nat): seq<Event> {
    [Event(Open(Endpoint(SubscriberKind, n)), true),
     Event(Open(Endpoint(PublisherKind, n + 1)), true),
     Event(Open(Endpoint(CallerKind, n + 2)), true)]
  }

  /** A new router with the status-request route, the IDE-status route and
      the plugin that reports Ready once the router runs. */
  function InitEvents(router: Endpoint, topics: Topics.ServiceTopics): seq<Event> {
    [Event(Open(router), true),
     Event(AddRoute(router, "flux.request_status", topics.RequestStatus()), true),
     Event(AddRoute(router, "flux.ide_status", topics.IDEStatus()), true),
     Event(AddPlugin(router), true)]
  }

  /** The router `ReinitRouter` makes when the serial counter is at `n`:
      a reconnect first uses three serial numbers. */
  function NewRouter(router: Option<Endpoint>, n: nat): Endpoint {
    Endpoint(RouterKind, if router.None? then n else n + 3)
  }

  /** What a successful `ReinitRouter` records: with no router only the new
      router; with one, the disconnect, the old router's close and the
      reconnect come first. */
  function ReinitEvents(router: Option<Endpoint>, sub: Option<Endpoint>, pub: Option<Endpoint>, call: Option<Endpoint>,
                        n: nat, topics: Topics.ServiceTopics): seq<Event>
  {
    if router.None? then InitEvents(NewRouter(router, n), topics)
    else
      Closed(sub) + Closed(pub) + Closed(call) + [Event(Action.Close(router.value), true)] + Opened(n)
      + InitEvents(NewRouter(router, n), topics)
  }

  /** The ids of the configured nodes, in order. */
  function ConfigIds<T>(configs: seq<NodeConfig<T>>): (r: seq<string>)
    ensures |r| == |configs| && forall i :: 0 <= i < |configs| ==> r[i] == configs[i].id
  {
    seq(|configs|, i requires 0 <= i < |configs| => configs[i].id)
  }

  /** The ready hook's call on the new router and the decoded configuration,
      with outcome `ok`, when the hook is set. */
  function ReadyEvents<T>(onReady: Option<Handler>, router: Endpoint, configs: seq<NodeConfig<T>>, ok: bool): seq<Event> {
    if onReady.Some? then [Event(Call(onReady.value, ReadyArgs(router, ConfigIds(configs))), ok)] else []
  }

  /** One more registration extends the trace of the builds so far. */
  lemma BuildsStep<T>(t0: seq<Event>, t: seq<Event>, h: Hooks, router: Endpoint, configs: seq<NodeConfig<T>>,
                      orders: seq<seq<string>>, order: seq<string>)
    requires |orders| < |configs|
    requires t == t0 + BuildsOf(h, router, configs[..|orders|], orders)
    ensures t + Registered(h, router, configs[|orders|], order)
         == t0 + BuildsOf(h, router, configs[..|orders| + 1], orders + [order])
  {
    var k := |orders|;
    BuildsOfSnoc(h, router, configs[..k], orders, configs[k], order);
    TakeSnoc(configs, k);
    AppendAssoc(t0, BuildsOf(h, router, configs[..k], orders), Registered(h, router, configs[k], order));
  }

  /** One more close extends the trace of the closes so far. */
  lemma ClosesStep(t0: seq<Event>, t: seq<Event>, views: seq<CloseView>, outs: seq<(Outcome, Outcome, Outcome)>,
                   o: (Outcome, Outcome, Outcome))
    requires |outs| < |views| && views[|outs|].sub.Some?
    requires t == t0 + ClosesOf(views[..|outs|], outs)
    ensures var v := views[|outs|];
      t + CloseEvents(v.router, v.sub.value, v.destroy, v.id, o.0, o.1, o.2)
        == t0 + ClosesOf(views[..|outs| + 1], outs + [o])
  {
    var k := |outs|;
    var v := views[k];
    ClosesOfSnoc(views[..k], outs, v, o);
    TakeSnoc(views, k);
    AppendAssoc(t0, ClosesOf(views[..k], outs), CloseEvents(v.router, v.sub.value, v.destroy, v.id, o.0, o.1, o.2));
  }

  /** A trace of builds ending in a failed ready call acknowledges nothing. */
  lemma BuildsFailQuiet<T>(t0: seq<Event>, h: Hooks, router: Endpoint, configs: seq<NodeConfig<T>>,
                           orders: seq<seq<string>>, id: string)
    requires h.onReady.Some?
    ensures Quiet(t0, t0 + BuildsOf(h, router, configs, orders) + [Event(Call(h.onReady.value, NodeConfigOf(id)), false)])
  {
    var fail := [Event(Call(h.onReady.value, NodeConfigOf(id)), false)];
    BuildsOfNoAcks(h, router, configs, orders);
    NoAcksConcat(BuildsOf(h, router, configs, orders), fail);
    AppendAssoc(t0, BuildsOf(h, router, configs, orders), fail);
    QuietAppend(t0, t0, BuildsOf(h, router, configs, orders) + fail);
  }

  /** The i-th of `built` is a node for `configs[i]` on these connections. */
  ghost predicate AllMade<T>(built: seq<Node<T>>, configs: seq<NodeConfig<T>>, router: Endpoint,
                             sub: Option<Endpoint>, pub: Option<Endpoint>, bus: World) {
    && |built| <= |configs|
    && forall j :: 0 <= j < |built| ==>
         && built[j].config == configs[j] && built[j].router == router
         && built[j].sub == sub && built[j].pub == pub && built[j].bus == bus
  }

  lemma AllMadeSnoc<T>(built: seq<Node<T>>, node: Node<T>, configs: seq<NodeConfig<T>>, router: Endpoint,
                       sub: Option<Endpoint>, pub: Option<Endpoint>, bus: World)
    requires AllMade(built, configs, router, sub, pub, bus) && |built| < |configs|
    requires node.config == configs[|built|] && node.router == router
    requires node.sub == sub && node.pub == pub && node.bus == bus
    ensures AllMade(built + [node], configs, router, sub, pub, bus)
  {
  }

  /** The connect hook's call, with outcome `ok`, when the hook is set. */
  function ConnectHookEvents(onConnect: Option<Handler>, ok: bool): seq<Event> {
    if onConnect.Some? then [Event(Call(onConnect.value, NoArg), ok)] else []
  }

  /** No event from `from` on opens a router or adds a route. */
  ghost predicate NoRouterWork(t: seq<Event>, from: int) {
    forall k :: 0 <= from <= k < |t| ==>
      !t[k].action.AddRoute? && !(t[k].action.Open? && t[k].action.endpoint.kind == RouterKind)
  }

  /** A disconnect from `t0` to `t` that stops at its first failed close,
      with the message `msg` that close gives: the subscriber's, or the
      publisher's after the subscriber closed, or the caller's after both.
      Only an endpoint that is set can fail to close. */
  ghost predicate DisconnectFailed(t0: seq<Event>, t: seq<Event>, sub: Option<Endpoint>, pub: Option<Endpoint>,
                                   call: Option<Endpoint>, msg: string)
  {
    || (&& "failed to close subscriber: " <= msg && sub.Some?
        && t == t0 + ClosedWith(sub, false))
    || (&& "failed to close publisher: " <= msg && pub.Some?
        && t == t0 + Closed(sub) + ClosedWith(pub, false))
    || (&& "failed to close call: " <= msg && call.Some?
        && t == t0 + Closed(sub) + Closed(pub) + ClosedWith(call, false))
  }

  /** A connect from `t0` to `t`, with serial numbers from `n`, that stops
      at its first failed factory, with the message `msg` it gives: the
      subscriber's, the publisher's or the caller's. */
  ghost predicate ConnectFailed(t0: seq<Event>, t: seq<Event>, n: nat, msg: string) {
    || (&& "failed to create nats sub: " <= msg
        && t == t0 + [Event(Open(Endpoint(SubscriberKind, n)), false)])
    || (&& "failed to create nats pub: " <= msg
        && t == t0 + Opened(n)[..1] + [Event(Open(Endpoint(PublisherKind, n + 1)), false)])
    || (&& "failed to create nats call: " <= msg
        && t == t0 + Opened(n)[..2] + [Event(Open(Endpoint(CallerKind, n + 2)), false)])
  }

  /** A reconnect around `router` from `t0` to `t` that stops at its first
      failure, with message `msg`: a failed disconnect; or a full disconnect
      and a failed router close; or both of those done and a failed connect.
      No later step runs after the failing one. */
  ghost predicate ReconnectFailed(t0: seq<Event>, t: seq<Event>, router: Endpoint, sub: Option<Endpoint>,
                                  pub: Option<Endpoint>, call: Option<Endpoint>, n: nat, msg: string)
  {
    || (&& "failed to disconnect: " <= msg
        && DisconnectFailed(t0, t, sub, pub, call, msg[|"failed to disconnect: "|..]))
    || (&& "failed to close router: " <= msg
        && t == t0 + Closed(sub) + Closed(pub) + Closed(call) + [Event(Action.Close(router), false)])
    || (&& "failed to connect: " <= msg
        && ConnectFailed(t0 + Closed(sub) + Closed(pub) + Closed(call) + [Event(Action.Close(router), true)],
                         t, n, msg[|"failed to connect: "|..]))
  }

  /** The four ways handling one configuration message can fail. */
  ghost predicate ConfigFailed(msg: string) {
    || "failed to unmarshal config: " <= msg || "failed to reinit router: " <= msg
    || "failed to read config: " <= msg || "failed to reload nodes: " <= msg
  }

  lemma NoRouterWorkTrans(a: seq<Event>, b: seq<Event>, c: seq<Event>)
    requires Quiet(a, b) && Quiet(b, c)
    requires NoRouterWork(b, |a|) && NoRouterWork(c, |b|)
    ensures NoRouterWork(c, |a|)
  {
    forall k | |a| <= k < |b|
      ensures c[k] == b[k]
    {
      assert c[..|b|][k] == c[k];
    }
  }

  /** Closes `e` when it is set; an unset endpoint is left alone and is not an error. */
  method CloseIfSet(bus: World, e: Option<Endpoint>) returns (err: Outcome)
    modifies bus
    ensures bus.trace == old(bus.trace) + ClosedWith(e, err.Pass?)
    ensures e.None? ==> err == Pass
    ensures bus.nextId == old(bus.nextId)
    ensures Quiet(old(bus.trace), bus.trace) && NoRouterWork(bus.trace, |old(bus.trace)|)
  {
    err := Pass;
    if e.Some? {
      err := bus.Close(e.value);
    }
  }

  class Service<T> {
    const serviceID: string
    const topics: Topics.ServiceTopics
    const bus: World
    var pub: Option<Endpoint>
    var sub: Option<Endpoint>
    var call: Option<Endpoint>
    var onConnect: Option<Handler>
    var onReady: Option<Handler>
    const status: AtomicValue<ServiceStatus>
    var nodes: seq<Node<T>>
    const nodeHandlers: NodeHandlers

    /** Every node talks to this service's bus and holds a subscriber, so that
        it can be closed. */
    ghost predicate Valid()
      reads this`nodes
    {
      forall i :: 0 <= i < |nodes| ==> nodes[i].bus == bus && nodes[i].sub.Some?
    }

    /** `NewService`: the topics of `serviceID`, status Starting, no nodes,
        no handlers, and the connections given as options (nil by default). */
    constructor (serviceID: string, bus: World, pub: Option<Endpoint>, sub: Option<Endpoint>, call: Option<Endpoint>)
      ensures this.serviceID == serviceID && topics == Topics.NewTopics(serviceID) && this.bus == bus
      ensures this.pub == pub && this.sub == sub && this.call == call
      ensures onConnect == None && onReady == None && nodes == []
      ensures fresh(status) && status.stored == Some(ServiceStatusStarting)
      ensures fresh(nodeHandlers) && nodeHandlers.onReady == None && nodeHandlers.onStart == None
      ensures nodeHandlers.onStop == None && nodeHandlers.onSubscribe == map[]
      ensures nodeHandlers.onDestroy == None && nodeHandlers.onTick == None
      ensures Valid()
    {
      this.serviceID := serviceID;
      this.topics := Topics.NewTopics(serviceID);
      this.bus := bus;
      this.pub, this.sub, this.call := pub, sub, call;
      onConnect, onReady := None, None;
      status := new AtomicValue(ServiceStatusStarting);
      nodes := [];
      nodeHandlers := new NodeHandlers();
    }

    // -------------------------------------------------------------------
    // Connections.

    /** Makes a subscriber, a publisher and a caller, in that order, storing
        each as it is made. A failed factory leaves its field nil and stops:
        the later fields keep their old values. */
    method Connect() returns (err: Outcome)
      modifies this`sub, this`pub, this`call, bus
      ensures Quiet(old(bus.trace), bus.trace) && NoRouterWork(bus.trace, |old(bus.trace)|)
      ensures err.Pass? ==>
        && sub == Some(Endpoint(SubscriberKind, old(bus.nextId)))
        && pub == Some(Endpoint(PublisherKind, old(bus.nextId) + 1))
        && call == Some(Endpoint(CallerKind, old(bus.nextId) + 2))
        && bus.trace == old(bus.trace) + Opened(old(bus.nextId))
        && bus.nextId == old(bus.nextId) + 3
      ensures err.Fail? ==>
        || (&& sub == None && pub == old(pub) && call == old(call)
            && bus.trace == old(bus.trace) + [Event(Open(Endpoint(SubscriberKind, old(bus.nextId))), false)]
            && "failed to create nats sub: " <= err.msg)
        || (&& sub == Some(Endpoint(SubscriberKind, old(bus.nextId))) && pub == None && call == old(call)
            && bus.trace == old(bus.trace) + Opened(old(bus.nextId))[..1]
                 + [Event(Open(Endpoint(PublisherKind, old(bus.nextId) + 1)), false)]
            && "failed to create nats pub: " <= err.msg)
        || (&& sub == Some(Endpoint(SubscriberKind, old(bus.nextId)))
            && pub == Some(Endpoint(PublisherKind, old(bus.nextId) + 1)) && call == None
            && bus.trace == old(bus.trace) + Opened(old(bus.nextId))[..2]
                 + [Event(Open(Endpoint(CallerKind, old(bus.nextId) + 2)), false)]
            && "failed to create nats call: " <= err.msg)
    {
      sub := bus.Open(SubscriberKind);
      if sub.None? {
        return Fail("failed to create nats sub: " + "factory failed");
      }
      pub := bus.Open(PublisherKind);
      if pub.None? {
        return Fail("failed to create nats pub: " + "factory failed");
      }
      call := bus.Open(CallerKind);
      if call.None? {
        return Fail("failed to create nats call: " + "factory failed");
      }
      err := Pass;
    }

    /** Closes the subscriber, the publisher and the caller, in that order,
        skipping nil ones and setting each to nil once closed. The first
        close that fails stops it: that field and the later ones are kept. */
    method Disconnect() returns (err: Outcome)
      modifies this`sub, this`pub, this`call, bus
      ensures Quiet(old(bus.trace), bus.trace) && bus.nextId == old(bus.nextId)
      ensures NoRouterWork(bus.trace, |old(bus.trace)|)
      ensures err.Pass? ==>
        && sub == None && pub == None && call == None
        && bus.trace == old(bus.trace) + Closed(old(sub)) + Closed(old(pub)) + Closed(old(call))
      ensures err.Fail? ==>
        || (&& old(sub).Some? && sub == old(sub) && pub == old(pub) && call == old(call)
            && bus.trace == old(bus.trace) + ClosedWith(old(sub), false)
            && "failed to close subscriber: " <= err.msg)
        || (&& sub == None && old(pub).Some? && pub == old(pub) && call == old(call)
            && bus.trace == old(bus.trace) + Closed(old(sub)) + ClosedWith(old(pub), false)
            && "failed to close publisher: " <= err.msg)
        || (&& sub == None && pub == None && old(call).Some? && call == old(call)
            && bus.trace == old(bus.trace) + Closed(old(sub)) + Closed(old(pub)) + ClosedWith(old(call), false)
            && "failed to close call: " <= err.msg)
    {
      ghost var t0 := bus.trace;
      var e := CloseIfSet(bus, sub);
      if e.Fail? {
        return Wrap("failed to close subscriber: ", e);
      }
      sub := None;
      ghost var t1 := bus.trace;
      e := CloseIfSet(bus, pub);
      if e.Fail? {
        NoRouterWorkTrans(t0, t1, bus.trace);
        return Wrap("failed to close publisher: ", e);
      }
      pub := None;
      ghost var t2 := bus.trace;
      NoRouterWorkTrans(t0, t1, t2);
      e := CloseIfSet(bus, call);
      NoRouterWorkTrans(t0, t2, bus.trace);
      if e.Fail? {
        return Wrap("failed to close call: ", e);
      }
      call := None;
      err := Pass;
    }

    /** Closes the publisher and then the subscriber, when present, logging
        (not returning) a failed close; both end up nil. */
    method Close()
      modifies this`pub, this`sub, bus
      ensures pub == None && sub == None && bus.nextId == old(bus.nextId)
      ensures exists ok1, ok2 :: bus.trace == old(bus.trace) + ClosedWith(old(pub), ok1) + ClosedWith(old(sub), ok2)
    {
      var ok1, ok2 := true, true;
      if pub.Some? {
        var e := bus.Close(pub.value);
        ok1 := e.Pass?;
        pub := None;
      }
      if sub.Some? {
        var e := bus.Close(sub.value);
        ok2 := e.Pass?;
        sub := None;
      }
      assert bus.trace == old(bus.trace) + ClosedWith(old(pub), ok1) + ClosedWith(old(sub), ok2);
    }

    /** Asks the manager for this service's configuration. */
    method RequestConfig() returns (err: Outcome)
      requires pub.Some?
      modifies bus
      ensures bus.trace == old(bus.trace) + [Event(Publish(pub.value, topics.RequestConfig(), serviceID), err.Pass?)]
      ensures bus.nextId == old(bus.nextId)
      ensures err.Fail? ==> "failed to publish message: " <= err.msg
    {
      var e := bus.Publish(pub.value, topics.RequestConfig(), serviceID);
      err := Wrap("failed to publish message: ", e);
    }

    // -------------------------------------------------------------------
    // Status.

    /** The stored status, or Paused when the cell holds nothing. */
    method Status() returns (st: ServiceStatus)
      ensures status.stored.Some? ==> st == status.stored.value
      ensures status.stored.None? ==> st == ServiceStatusPaused
    {
      var v, ok := status.Get();
      st := if ok then v else ServiceStatusPaused;
    }

    /** Publishes `st` on the status topic and only then stores it: a failed
        publish returns an error and leaves the stored status as it was. */
    method UpdateStatus(st: ServiceStatus) returns (err: Outcome)
      requires pub.Some?
      modifies status, bus
      ensures bus.trace == old(bus.trace) + [Event(Publish(pub.value, topics.SendStatus(), st.Text()), err.Pass?)]
      ensures Quiet(old(bus.trace), bus.trace) && bus.nextId == old(bus.nextId)
      ensures err.Pass? ==> status.stored == Some(st)
      ensures err.Fail? ==> status.stored == old(status.stored) && "could not publish status message: " <= err.msg
    {
      var e := bus.Publish(pub.value, topics.SendStatus(), st.Text());
      if e.Fail? {
        return Wrap("could not publish status message: ", e);
      }
      status.Set(st);
      err := Pass;
    }

    /** The reply to a status request: one message carrying the current
        status, and never an error. */
    method HandleStatusRequest() returns (replies: seq<string>, err: Outcome)
      ensures err == Pass && |replies| == 1
      ensures status.stored.Some? ==> replies[0] == status.stored.value.Text()
      ensures status.stored.None? ==> replies[0] == ServiceStatusPaused.Text()
    {
      var st := Status();
      replies := [st.Text()];
      err := Pass;
    }

    /** Routes status requests to `HandleStatusRequest`. The route records
        its name and the request topic only. */
    method RegisterStatusHandler(router: Endpoint)
      modifies bus
      ensures bus.trace == old(bus.trace) + [Event(AddRoute(router, "flux.request_status", topics.RequestStatus()), true)]
      ensures bus.nextId == old(bus.nextId)
    {
      bus.Record(AddRoute(router, "flux.request_status", topics.RequestStatus()));
    }

    /** Publishes the encoded value on `topic`. An empty topic, or a value
        that does not encode, is an error and nothing is published. */
    method PubToTopic(topic: string, encoded: Option<string>) returns (err: Outcome)
      requires topic != "" && encoded.Some? ==> pub.Some?
      modifies bus
      ensures topic == "" ==> err == Fail("topic is empty") && bus.trace == old(bus.trace)
      ensures topic != "" && encoded.None? ==>
        err.Fail? && "could not marshal payload: " <= err.msg && bus.trace == old(bus.trace)
      ensures topic != "" && encoded.Some? ==>
        bus.trace == old(bus.trace) + [Event(Publish(pub.value, topic, encoded.value), err.Pass?)]
      ensures bus.nextId == old(bus.nextId)
    {
      if topic == "" {
        return Fail("topic is empty");
      }
      if encoded.None? {
        return Fail("could not marshal payload: " + "marshal failed");
      }
      err := bus.Publish(pub.value, topic, encoded.value);
    }

    // -------------------------------------------------------------------
    // The router and the nodes.

    /** A new router with the status and IDE-status routes and the plugin. */
    method InitRouter() returns (router: Endpoint)
      modifies bus
      ensures router == Endpoint(RouterKind, old(bus.nextId))
      ensures bus.trace == old(bus.trace) + InitEvents(router, topics)
      ensures bus.nextId == old(bus.nextId) + 1
    {
      router := bus.OpenAlways(RouterKind);
      RegisterStatusHandler(router);
      // The IDE-status route; its handler is not part of this model.
      bus.Record(AddRoute(router, "flux.ide_status", topics.IDEStatus()));
      // The plugin publishes Ready when the router starts, which is not modelled.
      bus.Record(AddPlugin(router));
    }

    /** Disconnects, closes `router` and connects again, in that order,
        stopping at the first failure. */
    method Reconnect(router: Endpoint) returns (err: Outcome)
      modifies this`sub, this`pub, this`call, bus
      ensures Quiet(old(bus.trace), bus.trace)
      ensures err.Pass? ==>
        && bus.trace == old(bus.trace) + Closed(old(sub)) + Closed(old(pub)) + Closed(old(call))
             + [Event(Action.Close(router), true)] + Opened(old(bus.nextId))
        && bus.nextId == old(bus.nextId) + 3
        && sub == Some(Endpoint(SubscriberKind, old(bus.nextId)))
        && pub == Some(Endpoint(PublisherKind, old(bus.nextId) + 1))
        && call == Some(Endpoint(CallerKind, old(bus.nextId) + 2))
      ensures err.Fail? ==>
        && NoRouterWork(bus.trace, |old(bus.trace)|)
        && ReconnectFailed(old(bus.trace), bus.trace, router, old(sub), old(pub), old(call), old(bus.nextId), err.msg)
    {
      var e := Disconnect();
      if e.Fail? {
        return Fail("failed to disconnect: " + e.msg);
      }
      var t1 := bus.trace;
      e := bus.Close(router);
      if e.Fail? {
        NoRouterWorkTrans(old(bus.trace), t1, bus.trace);
        return Fail("failed to close router: " + e.msg);
      }
      var t2 := bus.trace;
      NoRouterWorkTrans(old(bus.trace), t1, t2);
      e := Connect();
      QuietTrans(old(bus.trace), t2, bus.trace);
      if e.Fail? {
        NoRouterWorkTrans(old(bus.trace), t2, bus.trace);
        return Fail("failed to connect: " + e.msg);
      }
      err := Pass;
    }

    /** With no router, only initialises one. With a router, disconnects,
        closes the router and connects again, in that order and stopping at
        the first failure, before initialising a new one. */
    method ReinitRouter(router: Option<Endpoint>) returns (r: Result<Endpoint>)
      modifies this`sub, this`pub, this`call, bus
      ensures Quiet(old(bus.trace), bus.trace)
      ensures router.None? ==> r.Ok? && sub == old(sub) && pub == old(pub) && call == old(call)
      ensures r.Ok? ==>
        && r.value == NewRouter(router, old(bus.nextId))
        && bus.trace == old(bus.trace) + ReinitEvents(router, old(sub), old(pub), old(call), old(bus.nextId), topics)
      ensures router.Some? && r.Ok? ==>
        && sub == Some(Endpoint(SubscriberKind, old(bus.nextId)))
        && pub == Some(Endpoint(PublisherKind, old(bus.nextId) + 1))
        && call == Some(Endpoint(CallerKind, old(bus.nextId) + 2))
      ensures r.Err? ==>
        && router.Some? && NoRouterWork(bus.trace, |old(bus.trace)|)
        && ReconnectFailed(old(bus.trace), bus.trace, router.value, old(sub), old(pub), old(call), old(bus.nextId), r.msg)
    {
      if router.Some? {
        var e := Reconnect(router.value);
        if e.Fail? {
          return Err(e.msg);
        }
      }
      var t3 := bus.trace;
      var made := InitRouter();
      assert Quiet(t3, bus.trace);
      QuietTrans(old(bus.trace), t3, bus.trace);
      if router.Some? {
        AppendAssoc6(old(bus.trace), Closed(old(sub)), Closed(old(pub)), Closed(old(call)),
          [Event(Action.Close(router.value), true)], Opened(old(bus.nextId)), InitEvents(made, topics));
      }
      r := Ok(made);
    }

    /** Closes every node in order; a close error is logged and the loop
        goes on. */
    method CloseNodes() returns (ghost outs: seq<(Outcome, Outcome, Outcome)>)
      requires Valid()
      modifies bus, nodes
      ensures forall i :: 0 <= i < |nodes| ==> nodes[i].closed
      ensures bus.trace == old(bus.trace) + ClosesOf(old(ViewsOf(nodes)), outs)
      ensures Quiet(old(bus.trace), bus.trace) && bus.nextId == old(bus.nextId)
    {
      var ns := nodes;
      ghost var views := ViewsOf(ns);
      outs := CloseEach(ns, views);
      ClosesOfNoAcks(views, outs);
      QuietAppend(old(bus.trace), old(bus.trace), ClosesOf(views, outs));
    }

    /** The loop of `CloseNodes` over the nodes `ns`, whose close-time
        state is `views`. */
    method CloseEach(ns: seq<Node<T>>, ghost views: seq<CloseView>) returns (ghost outs: seq<(Outcome, Outcome, Outcome)>)
      requires |views| == |ns|
      requires forall j :: 0 <= j < |ns| ==> ns[j].bus == bus && ns[j].sub.Some?
      requires forall j :: 0 <= j < |ns| ==>
        views[j] == CloseView(ns[j].router, ns[j].sub, ns[j].onDestroyHandler, ns[j].config.id)
      modifies bus, ns
      ensures forall j :: 0 <= j < |ns| ==> ns[j].closed
      ensures bus.trace == old(bus.trace) + ClosesOf(views, outs)
      ensures bus.nextId == old(bus.nextId)
    {
      outs := [];
      var i := 0;
      while i < |ns|
        invariant 0 <= i <= |ns| && |outs| == i
        invariant forall j :: 0 <= j < i ==> ns[j].closed
        invariant forall j :: i <= j < |ns| ==>
          views[j] == CloseView(ns[j].router, ns[j].sub, ns[j].onDestroyHandler, ns[j].config.id)
        invariant bus.trace == old(bus.trace) + ClosesOf(views[..i], outs)
        invariant bus.nextId == old(bus.nextId)
      {
        var t := bus.trace;
        // A close error is logged and the loop goes on.
        ghost var o := CloseOne(ns[i], views[i]);
        ClosesStep(old(bus.trace), t, views, outs, o);
        outs := outs + [o];
        i := i + 1;
      }
      assert views[..i] == views;
    }

    /** Closes one node, logging its error; `v` is what the close depends
        on, read off the node, and `o` are its three steps' outcomes. */
    method CloseOne(n: Node<T>, ghost v: CloseView) returns (ghost o: (Outcome, Outcome, Outcome))
      requires n.sub.Some? && n.bus == bus
      requires v == CloseView(n.router, n.sub, n.onDestroyHandler, n.config.id)
      modifies n`closed, bus
      ensures n.closed
      ensures bus.trace == old(bus.trace) + CloseEvents(v.router, v.sub.value, v.destroy, v.id, o.0, o.1, o.2)
      ensures bus.nextId == old(bus.nextId)
    {
      // The error `Close` returns is only logged.
      var e := n.Close();
      ghost var r1, r2, r3 :| bus.trace == old(bus.trace) + CloseEvents(n.router, n.sub.value, n.onDestroyHandler, n.config.id, r1, r2, r3);
      o := (r1, r2, r3);
    }

    /** A new node for `config` on this service's connections, with the
        shared handlers registered. A failed registration is the ready
        handler's failure, which is then the only event. */
    method BuildNode(config: NodeConfig<T>, router: Endpoint, ghost hooks: Hooks, ghost keys: set<string>)
      returns (node: Node<T>, err: Outcome, ghost order: seq<string>)
      requires hooks == HooksOf(nodeHandlers) && keys == nodeHandlers.onSubscribe.Keys
      modifies bus
      ensures fresh(node) && node.config == config && node.router == router
      ensures node.sub == sub && node.pub == pub && node.bus == bus
      ensures bus.nextId == old(bus.nextId)
      ensures err.Pass? ==>
        && Enumerates(order, keys)
        && bus.trace == old(bus.trace) + Registered(hooks, router, config, order)
      ensures err.Fail? ==>
        && "could not run ready handler: " <= err.msg && hooks.onReady.Some?
        && bus.trace == old(bus.trace) + [Event(Call(hooks.onReady.value, NodeConfigOf(config.id)), false)]
    {
      node := new Node(bus, router, sub, pub, config);
      err, order := node.RegisterHandlers(nodeHandlers);
    }

    /** Closes every old node, carrying on past close errors, and only then
        builds and registers one node per configuration entry, in order. The
        first registration that fails returns its error: no later entry is
        built and `nodes` keeps the old nodes. `built` are the nodes made,
        the failing one last; `outs` are the outcomes of the close steps and
        `orders` the subscribe orders of the nodes registered. */
    method ReloadNodes(configs: seq<NodeConfig<T>>, router: Endpoint)
      returns (err: Outcome, ghost built: seq<Node<T>>, ghost outs: seq<(Outcome, Outcome, Outcome)>, ghost orders: seq<seq<string>>)
      requires Valid() && sub.Some?
      modifies this`nodes, bus, nodes
      ensures Valid() && Quiet(old(bus.trace), bus.trace) && bus.nextId == old(bus.nextId)
      ensures forall i :: 0 <= i < |old(nodes)| ==> old(nodes)[i].closed
      ensures |built| <= |configs|
      ensures forall i :: 0 <= i < |built| ==>
        && fresh(built[i]) && built[i].config == configs[i] && built[i].router == router
        && built[i].sub == sub && built[i].pub == pub && built[i].bus == bus
      ensures forall i :: 0 <= i < |orders| ==> Enumerates(orders[i], nodeHandlers.onSubscribe.Keys)
      ensures err.Pass? ==>
        && |built| == |configs| && nodes == built && |orders| == |configs|
        && bus.trace == old(bus.trace) + ClosesOf(old(ViewsOf(nodes)), outs) + BuildsOf(HooksOf(nodeHandlers), router, configs, orders)
      ensures err.Fail? ==>
        && nodes == old(nodes) && |built| == |orders| + 1
        && "failed to register node handlers: " <= err.msg && nodeHandlers.onReady.Some?
        && bus.trace == old(bus.trace) + ClosesOf(old(ViewsOf(nodes)), outs) + BuildsOf(HooksOf(nodeHandlers), router, configs[..|orders|], orders)
             + [Event(Call(nodeHandlers.onReady.value, NodeConfigOf(configs[|orders|].id)), false)]
    {
      outs := CloseNodes();
      ghost var t := bus.trace;
      var e, made;
      e, made, orders := BuildNodes(configs, router);
      built := made;
      QuietTrans(old(bus.trace), t, bus.trace);
      if e.Fail? {
        return e, built, outs, orders;
      }
      nodes := made;
      err := Pass;
    }

    /** Builds and registers one node per entry, in order, stopping at the
        first failing registration, whose node is the last of `built`. */
    method BuildNodes(configs: seq<NodeConfig<T>>, router: Endpoint)
      returns (err: Outcome, built: seq<Node<T>>, ghost orders: seq<seq<string>>)
      modifies bus
      ensures Quiet(old(bus.trace), bus.trace) && bus.nextId == old(bus.nextId)
      ensures |built| <= |configs|
      ensures forall i :: 0 <= i < |built| ==>
        && fresh(built[i]) && built[i].config == configs[i] && built[i].router == router
        && built[i].sub == sub && built[i].pub == pub && built[i].bus == bus
      ensures forall i :: 0 <= i < |orders| ==> Enumerates(orders[i], nodeHandlers.onSubscribe.Keys)
      ensures err.Pass? ==>
        && |built| == |configs| && |orders| == |configs|
        && bus.trace == old(bus.trace) + BuildsOf(HooksOf(nodeHandlers), router, configs, orders)
      ensures err.Fail? ==>
        && |built| == |orders| + 1
        && "failed to register node handlers: " <= err.msg && nodeHandlers.onReady.Some?
        && bus.trace == old(bus.trace) + BuildsOf(HooksOf(nodeHandlers), router, configs[..|orders|], orders)
             + [Event(Call(nodeHandlers.onReady.value, NodeConfigOf(configs[|orders|].id)), false)]
    {
      ghost var hooks := HooksOf(nodeHandlers);
      ghost var keys := nodeHandlers.onSubscribe.Keys;
      ghost var s0, p0 := sub, pub;
      built := [];
      orders := [];
      var k := 0;
      while k < |configs|
        invariant 0 <= k <= |configs| && |built| == k && |orders| == k
        invariant forall j :: 0 <= j < k ==> fresh(built[j])
        invariant AllMade(built, configs, router, s0, p0, bus)
        invariant forall j :: 0 <= j < k ==> Enumerates(orders[j], keys)
        invariant bus.trace == old(bus.trace) + BuildsOf(hooks, router, configs[..k], orders)
        invariant bus.nextId == old(bus.nextId)
      {
        var node, e, order := BuildNext(configs, router, built, orders, old(bus.trace), hooks, keys, s0, p0);
        built := built + [node];
        if e.Fail? {
          BuildsFailQuiet(old(bus.trace), hooks, router, configs[..k], orders, configs[k].id);
          return Wrap("failed to register node handlers: ", e), built, orders;
        }
        orders := orders + [order];
        k := k + 1;
      }
      assert configs[..k] == configs;
      BuildsOfNoAcks(hooks, router, configs, orders);
      QuietAppend(old(bus.trace), old(bus.trace), BuildsOf(hooks, router, configs, orders));
      err := Pass;
    }

    /** One step of `BuildNodes`: the node for the next entry, with the
        trace of the builds so far extended by its registration. */
    method BuildNext(configs: seq<NodeConfig<T>>, router: Endpoint, built: seq<Node<T>>, ghost orders: seq<seq<string>>,
                     ghost t0: seq<Event>, ghost hooks: Hooks, ghost keys: set<string>,
                     ghost s0: Option<Endpoint>, ghost p0: Option<Endpoint>)
      returns (node: Node<T>, err: Outcome, ghost order: seq<string>)
      requires |built| == |orders| < |configs|
      requires hooks == HooksOf(nodeHandlers) && keys == nodeHandlers.onSubscribe.Keys && s0 == sub && p0 == pub
      requires AllMade(built, configs, router, s0, p0, bus)
      requires bus.trace == t0 + BuildsOf(hooks, router, configs[..|orders|], orders)
      modifies bus
      ensures fresh(node) && AllMade(built + [node], configs, router, s0, p0, bus)
      ensures bus.nextId == old(bus.nextId)
      ensures err.Pass? ==>
        && Enumerates(order, keys)
        && bus.trace == t0 + BuildsOf(hooks, router, configs[..|orders| + 1], orders + [order])
      ensures err.Fail? ==>
        && hooks.onReady.Some? && "could not run ready handler: " <= err.msg
        && bus.trace == t0 + BuildsOf(hooks, router, configs[..|orders|], orders)
             + [Event(Call(hooks.onReady.value, NodeConfigOf(configs[|orders|].id)), false)]
    {
      ghost var t := bus.trace;
      node, err, order := BuildNode(configs[|built|], router, hooks, keys);
      AllMadeSnoc(built, node, configs, router, s0, p0, bus);
      if err.Pass? {
        BuildsStep(t0, t, hooks, router, configs, orders, order);
      }
    }

    /** One configuration message of the run loop: decode, rebuild the
        router, run the ready hook, reload the nodes, and only then
        acknowledge the message and start the router. Any failure returns an
        error before the acknowledgement; `next` is the router for the next
        message. */
    method HandleConfig(msg: ConfigMessage<T>, router: Option<Endpoint>)
      returns (next: Option<Endpoint>, err: Outcome, ghost outs: seq<(Outcome, Outcome, Outcome)>, ghost orders: seq<seq<string>>)
      requires Valid() && sub.Some? && pub.Some?
      modifies this`nodes, this`sub, this`pub, this`call, bus, nodes
      ensures Valid()
      ensures err.Fail? ==> nodes == old(nodes)
      ensures forall j :: 0 <= j < |nodes| ==> nodes[j] in old(nodes) || fresh(nodes[j])
      ensures |old(bus.trace)| <= |bus.trace| && bus.trace[..|old(bus.trace)|] == old(bus.trace)
      ensures msg.decoded.None? ==>
        && err.Fail? && "failed to unmarshal config: " <= err.msg && bus.trace == old(bus.trace)
        && sub == old(sub) && pub == old(pub) && call == old(call)
      ensures msg.decoded.Some? && err.Fail? ==>
        "failed to reinit router: " <= err.msg || "failed to read config: " <= err.msg || "failed to reload nodes: " <= err.msg
      ensures err.Fail? ==> Acks(bus.trace) == Acks(old(bus.trace))
      ensures err.Pass? ==>
        && Acks(bus.trace) == Acks(old(bus.trace)) + [msg.id]
        && msg.decoded.Some? && next.Some? && sub.Some? && pub.Some?
        && bus.trace == old(bus.trace) + ReinitEvents(router, old(sub), old(pub), old(call), old(bus.nextId), topics)
             + ReadyEvents(onReady, next.value, msg.decoded.value, true)
             + ClosesOf(old(ViewsOf(nodes)), outs) + BuildsOf(HooksOf(nodeHandlers), next.value, msg.decoded.value, orders)
             + [Event(Ack(msg.id), true), Event(RunRouter(next.value), true)]
        && |nodes| == |msg.decoded.value|
        && forall j :: 0 <= j < |nodes| ==>
             fresh(nodes[j]) && nodes[j].config == msg.decoded.value[j] && nodes[j].router == next.value
    {
      if msg.decoded.None? {
        return router, Fail("failed to unmarshal config: " + "invalid payload"), [], [];
      }
      next, err, outs, orders := ApplyConfig(msg.decoded.value, router);
      QuietKeepsAcks(old(bus.trace), bus.trace);
      if err.Fail? {
        return;
      }
      bus.AckThenRun(msg.id, next.value);
    }

    /** The steps of a decoded configuration before its acknowledgement:
        rebuild the router, then run the ready hook on the new router and the
        decoded configuration, then reload the nodes. Each failure returns
        with its own prefix and runs no later step; none of the steps
        acknowledges anything. */
    method ApplyConfig(configs: seq<NodeConfig<T>>, router: Option<Endpoint>)
      returns (next: Option<Endpoint>, err: Outcome, ghost outs: seq<(Outcome, Outcome, Outcome)>, ghost orders: seq<seq<string>>)
      requires Valid() && sub.Some? && pub.Some?
      modifies this`nodes, this`sub, this`pub, this`call, bus, nodes
      ensures Valid() && Quiet(old(bus.trace), bus.trace)
      ensures err.Fail? ==> nodes == old(nodes)
      ensures forall j :: 0 <= j < |nodes| ==> nodes[j] in old(nodes) || fresh(nodes[j])
      ensures forall i :: 0 <= i < |orders| ==> Enumerates(orders[i], nodeHandlers.onSubscribe.Keys)
      ensures err.Pass? ==>
        && next == Some(NewRouter(router, old(bus.nextId))) && sub.Some? && pub.Some? && |nodes| == |configs|
        && (forall j :: 0 <= j < |nodes| ==>
             fresh(nodes[j]) && nodes[j].config == configs[j] && nodes[j].router == next.value)
        && |orders| == |configs|
        && bus.trace == old(bus.trace) + ReinitEvents(router, old(sub), old(pub), old(call), old(bus.nextId), topics)
             + ReadyEvents(onReady, next.value, configs, true)
             + ClosesOf(old(ViewsOf(nodes)), outs) + BuildsOf(HooksOf(nodeHandlers), next.value, configs, orders)
      ensures err.Fail? ==>
        || (&& "failed to reinit router: " <= err.msg && router.Some?
            && ReconnectFailed(old(bus.trace), bus.trace, router.value, old(sub), old(pub), old(call), old(bus.nextId),
                 err.msg[|"failed to reinit router: "|..]))
        || (&& "failed to read config: " <= err.msg && onReady.Some?
            && bus.trace == old(bus.trace) + ReinitEvents(router, old(sub), old(pub), old(call), old(bus.nextId), topics)
                 + ReadyEvents(onReady, NewRouter(router, old(bus.nextId)), configs, false))
        || (&& "failed to reload nodes: " <= err.msg && |orders| < |configs| && nodeHandlers.onReady.Some?
            && bus.trace == old(bus.trace) + ReinitEvents(router, old(sub), old(pub), old(call), old(bus.nextId), topics)
                 + ReadyEvents(onReady, NewRouter(router, old(bus.nextId)), configs, true)
                 + ClosesOf(old(ViewsOf(nodes)), outs)
                 + BuildsOf(HooksOf(nodeHandlers), NewRouter(router, old(bus.nextId)), configs[..|orders|], orders)
                 + [Event(Call(nodeHandlers.onReady.value, NodeConfigOf(configs[|orders|].id)), false)])
    {
      ghost var views := ViewsOf(nodes);
      var r := ReinitRouter(router);
      if r.Err? {
        return None, Fail("failed to reinit router: " + r.msg), [], [];
      }
      ghost var t1 := bus.trace;
      assert ViewsOf(nodes) == views;
      err, outs, orders := ReadyThenReload(configs, r.value);
      QuietTrans(old(bus.trace), t1, bus.trace);
      next := Some(r.value);
    }

    /** The ready hook on `router` and the decoded configuration, then the
        reload of the nodes on `router`; a failed hook reloads nothing. */
    method ReadyThenReload(configs: seq<NodeConfig<T>>, router: Endpoint)
      returns (err: Outcome, ghost outs: seq<(Outcome, Outcome, Outcome)>, ghost orders: seq<seq<string>>)
      requires Valid() && sub.Some?
      modifies this`nodes, bus, nodes
      ensures Valid() && Quiet(old(bus.trace), bus.trace)
      ensures err.Fail? ==> nodes == old(nodes)
      ensures forall j :: 0 <= j < |nodes| ==> nodes[j] in old(nodes) || fresh(nodes[j])
      ensures forall i :: 0 <= i < |orders| ==> Enumerates(orders[i], nodeHandlers.onSubscribe.Keys)
      ensures err.Pass? ==>
        && |nodes| == |configs|
        && (forall j :: 0 <= j < |nodes| ==>
             fresh(nodes[j]) && nodes[j].config == configs[j] && nodes[j].router == router)
        && |orders| == |configs|
        && bus.trace == old(bus.trace) + ReadyEvents(onReady, router, configs, true)
             + ClosesOf(old(ViewsOf(nodes)), outs) + BuildsOf(HooksOf(nodeHandlers), router, configs, orders)
      ensures err.Fail? ==>
        || (&& "failed to read config: " <= err.msg && onReady.Some?
            && bus.trace == old(bus.trace) + ReadyEvents(onReady, router, configs, false))
        || (&& "failed to reload nodes: " <= err.msg && |orders| < |configs| && nodeHandlers.onReady.Some?
            && bus.trace == old(bus.trace) + ReadyEvents(onReady, router, configs, true)
                 + ClosesOf(old(ViewsOf(nodes)), outs)
                 + BuildsOf(HooksOf(nodeHandlers), router, configs[..|orders|], orders)
                 + [Event(Call(nodeHandlers.onReady.value, NodeConfigOf(configs[|orders|].id)), false)])
    {
      ghost var views := ViewsOf(nodes);
      var ready := ReadyCall(configs, router);
      if ready.Fail? {
        return Wrap("failed to read config: ", ready), [], [];
      }
      ghost var t1 := bus.trace;
      assert ViewsOf(nodes) == views;
      var e;
      ghost var built;
      e, built, outs, orders := ReloadNodes(configs, router);
      QuietTrans(old(bus.trace), t1, bus.trace);
      err := Wrap("failed to reload nodes: ", e);
    }

    /** The ready hook's call, when it is set, on `router` and `configs`. */
    method ReadyCall(configs: seq<NodeConfig<T>>, router: Endpoint) returns (err: Outcome)
      modifies bus
      ensures bus.trace == old(bus.trace) + ReadyEvents(onReady, router, configs, err.Pass?)
      ensures bus.nextId == old(bus.nextId)
      ensures err.Fail? ==> onReady.Some?
    {
      err := Pass;
      if onReady.Some? {
        err := bus.Call(onReady.value, ReadyArgs(router, ConfigIds(configs)));
      }
    }

    /** `HandleConfig` as the run loop sees it: the acknowledgements it
        adds and the service state the next message needs. */
    method HandleMessage(msg: ConfigMessage<T>, router: Option<Endpoint>) returns (next: Option<Endpoint>, err: Outcome)
      requires Valid() && sub.Some? && pub.Some?
      modifies this`nodes, this`sub, this`pub, this`call, bus, nodes
      ensures Valid()
      ensures forall j :: 0 <= j < |nodes| ==> nodes[j] in old(nodes) || fresh(nodes[j])
      ensures err.Fail? ==> Acks(bus.trace) == Acks(old(bus.trace)) && ConfigFailed(err.msg)
      ensures err.Pass? ==> Acks(bus.trace) == Acks(old(bus.trace)) + [msg.id] && sub.Some? && pub.Some?
      ensures old(bus.trace) <= bus.trace
    {
      ghost var outs, orders;
      next, err, outs, orders := HandleConfig(msg, router);
    }

    /** The configuration loop: a config subscriber, a subscription to the
        configuration topic and a configuration request, then each message in
        turn. Exactly the first `k` messages are acknowledged, in order; a
        failure stops the loop, and only a run that handled every message
        returns nil. */
    method RunLoop(messages: seq<ConfigMessage<T>>) returns (err: Outcome)
      requires Valid() && sub.Some? && pub.Some?
      modifies this`nodes, this`sub, this`pub, this`call, bus, nodes
      ensures exists k :: (0 <= k <= |messages|
        && Acks(bus.trace) == Acks(old(bus.trace)) + Ids(messages[..k])
        && (err.Pass? ==> k == |messages|))
      ensures old(bus.trace) <= bus.trace
      ensures err.Fail? ==>
        || (&& "failed to create config subscriber: " <= err.msg
            && bus.trace == old(bus.trace) + [Event(Open(Endpoint(SubscriberKind, old(bus.nextId))), false)])
        || (&& "failed to subscribe to configs: " <= err.msg
            && bus.trace == old(bus.trace) + [Event(Open(Endpoint(SubscriberKind, old(bus.nextId))), true),
                 Event(Subscribe(Endpoint(SubscriberKind, old(bus.nextId)), topics.ResponseConfig()), false)])
        || (&& "failed to request config: " <= err.msg
            && bus.trace == old(bus.trace) + [Event(Open(Endpoint(SubscriberKind, old(bus.nextId))), true),
                 Event(Subscribe(Endpoint(SubscriberKind, old(bus.nextId)), topics.ResponseConfig()), true),
                 Event(Publish(old(pub).value, topics.RequestConfig(), serviceID), false)])
        || ConfigFailed(err.msg)
    {
      var e := ConfigSetup();
      QuietKeepsAcks(old(bus.trace), bus.trace);
      if e.Fail? {
        assert Ids(messages[..0]) == [];
        return e;
      }
      ghost var mid := bus.trace;
      err := Serve(messages);
      PrefixTrans(old(bus.trace), mid, bus.trace);
    }

    /** The set-up of `RunLoop`: a config subscriber, its subscription to
        the configuration topic, then the configuration request. The first
        failure stops it with its own prefix. */
    method ConfigSetup() returns (err: Outcome)
      requires pub.Some?
      modifies bus
      ensures Quiet(old(bus.trace), bus.trace)
      ensures err.Fail? ==>
        || (&& "failed to create config subscriber: " <= err.msg
            && bus.trace == old(bus.trace) + [Event(Open(Endpoint(SubscriberKind, old(bus.nextId))), false)])
        || (&& "failed to subscribe to configs: " <= err.msg
            && bus.trace == old(bus.trace) + [Event(Open(Endpoint(SubscriberKind, old(bus.nextId))), true),
                 Event(Subscribe(Endpoint(SubscriberKind, old(bus.nextId)), topics.ResponseConfig()), false)])
        || (&& "failed to request config: " <= err.msg
            && bus.trace == old(bus.trace) + [Event(Open(Endpoint(SubscriberKind, old(bus.nextId))), true),
                 Event(Subscribe(Endpoint(SubscriberKind, old(bus.nextId)), topics.ResponseConfig()), true),
                 Event(Publish(pub.value, topics.RequestConfig(), serviceID), false)])
    {
      var configSub := bus.Open(SubscriberKind);
      if configSub.None? {
        return Fail("failed to create config subscriber: " + "factory failed");
      }
      var ok := bus.Attempt(Subscribe(configSub.value, topics.ResponseConfig()));
      if !ok {
        return Fail("failed to subscribe to configs: " + "subscribe failed");
      }
      var e := RequestConfig();
      err := Wrap("failed to request config: ", e);
    }

    /** The message loop of `RunLoop`, from no router: each message in
        turn, stopping at the first failure. */
    method Serve(messages: seq<ConfigMessage<T>>) returns (err: Outcome)
      requires Valid() && sub.Some? && pub.Some?
      modifies this`nodes, this`sub, this`pub, this`call, bus, nodes
      ensures exists k :: (0 <= k <= |messages|
        && Acks(bus.trace) == Acks(old(bus.trace)) + Ids(messages[..k])
        && (err.Pass? ==> k == |messages|))
      ensures old(bus.trace) <= bus.trace
      ensures err.Fail? ==> ConfigFailed(err.msg)
    {
      var router: Option<Endpoint> := None;
      var k := 0;
      while k < |messages|
        invariant 0 <= k <= |messages|
        invariant Valid() && sub.Some? && pub.Some?
        invariant forall j :: 0 <= j < |nodes| ==> nodes[j] in old(nodes) || fresh(nodes[j])
        invariant Acks(bus.trace) == Acks(old(bus.trace)) + Ids(messages[..k])
        invariant old(bus.trace) <= bus.trace
      {
        ghost var t := bus.trace;
        var next, e := HandleMessage(messages[k], router);
        PrefixTrans(old(bus.trace), t, bus.trace);
        if e.Fail? {
          return e;
        }
        assert Ids(messages[..k + 1]) == Ids(messages[..k]) + [messages[k].id];
        router := next;
        k := k + 1;
      }
      assert messages[..k] == messages;
      err := Pass;
    }

    /** The start of `Run` once the connections are known to be unset:
        connect, then the connect hook when set, then report Connected, in
        that order and stopping at the first failure. The hook's error is
        returned as it is; the other two are wrapped. */
    method Startup() returns (err: Outcome)
      modifies this`sub, this`pub, this`call, bus, status
      ensures Quiet(old(bus.trace), bus.trace)
      ensures err.Pass? ==>
        && sub.Some? && pub.Some? && status.stored == Some(ServiceStatusConnected)
        && bus.trace == old(bus.trace) + Opened(old(bus.nextId)) + ConnectHookEvents(onConnect, true)
             + [Event(Publish(Endpoint(PublisherKind, old(bus.nextId) + 1), topics.SendStatus(), ServiceStatusConnected.Text()), true)]
      ensures err.Fail? ==>
        && status.stored == old(status.stored)
        && (|| (&& "failed to connect service: " <= err.msg
                && ConnectFailed(old(bus.trace), bus.trace, old(bus.nextId), err.msg[|"failed to connect service: "|..]))
            || (&& onConnect.Some? && err == Fail("handler failed")
                && bus.trace == old(bus.trace) + Opened(old(bus.nextId)) + ConnectHookEvents(onConnect, false))
            || (&& "failed to update status: " <= err.msg
                && bus.trace == old(bus.trace) + Opened(old(bus.nextId)) + ConnectHookEvents(onConnect, true)
                     + [Event(Publish(Endpoint(PublisherKind, old(bus.nextId) + 1), topics.SendStatus(), ServiceStatusConnected.Text()), false)]))
    {
      var e := Connect();
      if e.Fail? {
        return Wrap("failed to connect service: ", e);
      }
      var t1 := bus.trace;
      if onConnect.Some? {
        e := bus.Call(onConnect.value, NoArg);
        QuietTrans(old(bus.trace), t1, bus.trace);
        if e.Fail? {
          return e;
        }
      }
      var t2 := bus.trace;
      assert t2 == t1 + ConnectHookEvents(onConnect, true);
      e := UpdateStatus(ServiceStatusConnected);
      QuietTrans(old(bus.trace), t2, bus.trace);
      err := Wrap("failed to update status: ", e);
    }

    /** `Run`: refuses a service whose publisher or subscriber was already
        given; otherwise connects, runs the connect hook, reports Connected,
        and only then runs the configuration loop, stopping at the first
        failure. */
    method Run(messages: seq<ConfigMessage<T>>) returns (err: Outcome)
      requires Valid()
      modifies this`nodes, this`sub, this`pub, this`call, bus, nodes, status
      ensures old(pub).Some? || old(sub).Some? ==>
        err == Fail("pub and sub must be nil if you want to run app this way") && bus.trace == old(bus.trace)
      ensures old(pub).None? && old(sub).None? ==>
        || (&& err.Fail? && "failed to connect service: " <= err.msg && status.stored == old(status.stored)
            && ConnectFailed(old(bus.trace), bus.trace, old(bus.nextId), err.msg[|"failed to connect service: "|..]))
        || (&& onConnect.Some? && err == Fail("handler failed") && status.stored == old(status.stored)
            && bus.trace == old(bus.trace) + Opened(old(bus.nextId)) + ConnectHookEvents(onConnect, false))
        || (&& err.Fail? && "failed to update status: " <= err.msg && status.stored == old(status.stored)
            && bus.trace == old(bus.trace) + Opened(old(bus.nextId)) + ConnectHookEvents(onConnect, true)
                 + [Event(Publish(Endpoint(PublisherKind, old(bus.nextId) + 1), topics.SendStatus(), ServiceStatusConnected.Text()), false)])
        || (&& (err.Fail? ==> "failed to run service: " <= err.msg) && status.stored == Some(ServiceStatusConnected)
            && old(bus.trace) + Opened(old(bus.nextId)) + ConnectHookEvents(onConnect, true)
                 + [Event(Publish(Endpoint(PublisherKind, old(bus.nextId) + 1), topics.SendStatus(), ServiceStatusConnected.Text()), true)]
               <= bus.trace)
      ensures exists k :: (0 <= k <= |messages|
        && Acks(bus.trace) == Acks(old(bus.trace)) + Ids(messages[..k])
        && (err.Pass? ==> k == |messages|))
    {
      assert Ids(messages[..0]) == [];
      if pub.Some? || sub.Some? {
        return Fail("pub and sub must be nil if you want to run app this way");
      }
      var e := Startup();
      QuietKeepsAcks(old(bus.trace), bus.trace);
      if e.Fail? {
        return e;
      }
      e := RunLoop(messages);
      err := Wrap("failed to run service: ", e);
    }

    // -------------------------------------------------------------------
    // Node handlers.

    method OnNodeReady(h: Handler) returns (err: Outcome)
      modifies nodeHandlers
      ensures err == Pass && nodeHandlers.onReady == Some(h)
      ensures nodeHandlers.onStart == old(nodeHandlers.onStart) && nodeHandlers.onStop == old(nodeHandlers.onStop)
      ensures nodeHandlers.onSubscribe == old(nodeHandlers.onSubscribe)
      ensures nodeHandlers.onDestroy == old(nodeHandlers.onDestroy) && nodeHandlers.onTick == old(nodeHandlers.onTick)
    {
      nodeHandlers.OnReady(h);
      err := Pass;
    }

    method OnNodeStart(h: Handler)
      modifies nodeHandlers
      ensures nodeHandlers.onStart == Some(h)
      ensures nodeHandlers.onReady == old(nodeHandlers.onReady) && nodeHandlers.onStop == old(nodeHandlers.onStop)
      ensures nodeHandlers.onSubscribe == old(nodeHandlers.onSubscribe)
      ensures nodeHandlers.onDestroy == old(nodeHandlers.onDestroy) && nodeHandlers.onTick == old(nodeHandlers.onTick)
    {
      nodeHandlers.OnStart(h);
    }

    method OnNodeStop(h: Handler)
      modifies nodeHandlers
      ensures nodeHandlers.onStop == Some(h)
      ensures nodeHandlers.onReady == old(nodeHandlers.onReady) && nodeHandlers.onStart == old(nodeHandlers.onStart)
      ensures nodeHandlers.onSubscribe == old(nodeHandlers.onSubscribe)
      ensures nodeHandlers.onDestroy == old(nodeHandlers.onDestroy) && nodeHandlers.onTick == old(nodeHandlers.onTick)
    {
      nodeHandlers.OnStop(h);
    }

    /** Not implemented in the source: it registers nothing and returns nil,
        so the node handlers' subscribe map is left as it was. */
    method OnNodeSubscribe(port: string, h: Handler) returns (err: Outcome)
      ensures err == Pass
    {
      err := Pass;
    }
  }
}
