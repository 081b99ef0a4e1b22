/** The lifecycle wiring of the generic service: routes for start, stop,
    restart and error, the status-updating wrappers those routes run, and the
    tick tasks started for the nodes' timers. A wrapper the source builds as
    a closure is a `Wrapped` value here, and `Invoke` is what that closure
    does when the router delivers a message to it. */
module ServiceLifecycle {
  import opened Wrappers
  import opened World
  import Nodes
  import Topics
  import opened Services

  /** The closure a route runs: the restart sequence around a handler, or a
      handler followed by a status update. */
  datatype Wrapped = Restarting(handler: Handler) | StatusUpdating(handler: Handler, status: ServiceStatus)

  /** The restart route; its closure is returned. */
  method OnServiceRestart<T>(s: Service<T>, r: Endpoint, handler: Handler) returns (w: Wrapped)
    modifies s.bus
    ensures w == Restarting(handler)
    ensures s.bus.trace == old(s.bus.trace) + [Event(AddRoute(r, "flux.on_restart", s.topics.Restart()), true)]
    ensures s.bus.nextId == old(s.bus.nextId)
  {
    s.bus.Record(AddRoute(r, "flux.on_restart", s.topics.Restart()));
    w := Restarting(handler);
  }

  /** The error route runs the user handler unwrapped. */
  method OnServiceError<T>(s: Service<T>, r: Endpoint, handler: Handler)
    modifies s.bus
    ensures s.bus.trace == old(s.bus.trace) + [Event(AddRoute(r, "flux.on_error", s.topics.Errors()), true)]
    ensures s.bus.nextId == old(s.bus.nextId)
  {
    s.bus.Record(AddRoute(r, "flux.on_error", s.topics.Errors()));
  }

  /** The start route, whose closure reports Active after the handler. */
  method OnServiceStart<T>(s: Service<T>, r: Endpoint, handler: Handler) returns (w: Wrapped)
    modifies s.bus
    ensures w == StatusUpdating(handler, ServiceStatusActive)
    ensures s.bus.trace == old(s.bus.trace) + [Event(AddRoute(r, "flux.on_start", s.topics.Start()), true)]
    ensures s.bus.nextId == old(s.bus.nextId)
  {
    s.bus.Record(AddRoute(r, "flux.on_start", s.topics.Start()));
    w := HandlerWithStatusUpdate(handler, ServiceStatusActive);
  }

  /** The stop route, whose closure reports Paused after the handler. */
  method OnServiceStop<T>(s: Service<T>, r: Endpoint, handler: Handler) returns (w: Wrapped)
    modifies s.bus
    ensures w == StatusUpdating(handler, ServiceStatusPaused)
    ensures s.bus.trace == old(s.bus.trace) + [Event(AddRoute(r, "flux.on_stop", s.topics.Stop()), true)]
    ensures s.bus.nextId == old(s.bus.nextId)
  {
    s.bus.Record(AddRoute(r, "flux.on_stop", s.topics.Stop()));
    w := HandlerWithStatusUpdate(handler, ServiceStatusPaused);
  }

  /** The wrapper that runs `handler` and then reports `status`. */
  function HandlerWithStatusUpdate(handler: Handler, status: ServiceStatus): Wrapped {
    StatusUpdating(handler, status)
  }

  /** A status publication on the service's status topic. */
  function StatusEvent(pub: Endpoint, topics: Topics.ServiceTopics, st: ServiceStatus, ok: bool): Event {
    Event(Publish(pub, topics.SendStatus(), st.Text()), ok)
  }

  /** The restart closure on message `msg`: report Paused, run the handler,
      report Active. A failed Paused report keeps the handler from running;
      a handler error is returned as is, with the status left Paused. */
  method Restart<T>(s: Service<T>, handler: Handler, msg: string) returns (err: Outcome)
    requires s.pub.Some?
    modifies s.status, s.bus
    ensures s.bus.nextId == old(s.bus.nextId)
    ensures
      || (&& s.bus.trace == old(s.bus.trace) + [StatusEvent(s.pub.value, s.topics, ServiceStatusPaused, false)]
          && s.status.stored == old(s.status.stored) && err.Fail?
          && "cannot update status before restart: " <= err.msg)
      || (&& s.bus.trace == old(s.bus.trace) + [StatusEvent(s.pub.value, s.topics, ServiceStatusPaused, true), Event(Call(handler, Payload(msg)), false)]
          && s.status.stored == Some(ServiceStatusPaused) && err.Fail?)
      || (&& s.bus.trace == old(s.bus.trace) + [StatusEvent(s.pub.value, s.topics, ServiceStatusPaused, true), Event(Call(handler, Payload(msg)), true),
                                               StatusEvent(s.pub.value, s.topics, ServiceStatusActive, false)]
          && s.status.stored == Some(ServiceStatusPaused) && err.Fail?
          && "cannot update status after restart: " <= err.msg)
      || (&& s.bus.trace == old(s.bus.trace) + [StatusEvent(s.pub.value, s.topics, ServiceStatusPaused, true), Event(Call(handler, Payload(msg)), true),
                                               StatusEvent(s.pub.value, s.topics, ServiceStatusActive, true)]
          && s.status.stored == Some(ServiceStatusActive) && err.Pass?)
  {
    var e := s.UpdateStatus(ServiceStatusPaused);
    if e.Fail? {
      return Fail("cannot update status before restart: " + e.msg);
    }
    e := s.bus.Call(handler, Payload(msg));
    if e.Fail? {
      return e;
    }
    e := s.UpdateStatus(ServiceStatusActive);
    if e.Fail? {
      return Fail("cannot update status after restart: " + e.msg);
    }
    err := Pass;
  }

  /** The status-updating closure on message `msg`: run the handler and then
      report `status`. A handler error is returned wrapped, before any
      status is published, and leaves the status as it was. */
  method WithStatusUpdate<T>(s: Service<T>, handler: Handler, status: ServiceStatus, msg: string) returns (err: Outcome)
    requires s.pub.Some?
    modifies s.status, s.bus
    ensures s.bus.nextId == old(s.bus.nextId)
    ensures
      || (&& s.bus.trace == old(s.bus.trace) + [Event(Call(handler, Payload(msg)), false)]
          && s.status.stored == old(s.status.stored) && err.Fail?
          && "cannot handle message with status update: " <= err.msg)
      || (&& s.bus.trace == old(s.bus.trace) + [Event(Call(handler, Payload(msg)), true), StatusEvent(s.pub.value, s.topics, status, false)]
          && s.status.stored == old(s.status.stored) && err.Fail?
          && "cannot update status after handler call: " <= err.msg)
      || (&& s.bus.trace == old(s.bus.trace) + [Event(Call(handler, Payload(msg)), true), StatusEvent(s.pub.value, s.topics, status, true)]
          && s.status.stored == Some(status) && err.Pass?)
  {
    var e := s.bus.Call(handler, Payload(msg));
    if e.Fail? {
      return Fail("cannot handle message with status update: " + e.msg);
    }
    e := s.UpdateStatus(status);
    if e.Fail? {
      return Fail("cannot update status after handler call: " + e.msg);
    }
    err := Pass;
  }

  /** Runs a wrapped closure on message `msg`. */
  method Invoke<T>(s: Service<T>, w: Wrapped, msg: string) returns (err: Outcome)
    requires s.pub.Some?
    modifies s.status, s.bus
    ensures err.Pass? && w.Restarting? ==> s.status.stored == Some(ServiceStatusActive)
    ensures err.Pass? && w.StatusUpdating? ==> s.status.stored == Some(w.status)
    ensures w.StatusUpdating? && err.Fail? ==> s.status.stored == old(s.status.stored)
    ensures w.Restarting? && err.Fail? ==> s.status.stored == old(s.status.stored) || s.status.stored == Some(ServiceStatusPaused)
    ensures w.StatusUpdating? ==>
      |old(s.bus.trace)| < |s.bus.trace| && s.bus.trace[|old(s.bus.trace)|].action == Call(w.handler, Payload(msg))
  {
    match w
    case Restarting(h) =>
      err := Restart(s, h, msg);
    case StatusUpdating(h, st) =>
      err := WithStatusUpdate(s, h, st, msg);
  }

  /** A message delivered to the start route's closure, once it succeeds,
      leaves the service Active; to the stop route's, Paused. */
  method StartAndStopReportTheirStatus<T>(s: Service<T>, r: Endpoint, h1: Handler, h2: Handler, msg: string)
    returns (started: Outcome, stopped: Outcome)
    requires s.pub.Some?
    modifies s.status, s.bus
    ensures started.Pass? && stopped.Fail? ==> s.status.stored == Some(ServiceStatusActive)
    ensures stopped.Pass? ==> s.status.stored == Some(ServiceStatusPaused)
  {
    var start := OnServiceStart(s, r, h1);
    var stop := OnServiceStop(s, r, h2);
    started := Invoke(s, start, msg);
    stopped := Invoke(s, stop, msg);
  }

  method OnServiceConnect<T>(s: Service<T>, h: Handler)
    modifies s`onConnect
    ensures s.onConnect == Some(h)
  {
    s.onConnect := Some(h);
  }

  method OnServiceReady<T>(s: Service<T>, h: Handler)
    modifies s`onReady
    ensures s.onReady == Some(h)
  {
    s.onReady := Some(h);
  }

  /** Closes the subscriber, logging a failure. */
  method OnServiceShutdown<T>(s: Service<T>)
    requires s.sub.Some?
    modifies s.bus
    ensures exists ok :: s.bus.trace == old(s.bus.trace) + [Event(Action.Close(s.sub.value), ok)]
  {
    var e := s.bus.Close(s.sub.value);
  }

  // ---------------------------------------------------------------------
  // Tick tasks.

  /** A node as the tick wiring sees it: its alias and its timer, which may be nil. */
  datatype TickConfig = TickConfig(alias: string, timer: Option<Nodes.Timer>)

  datatype TickMode = NoTick | GlobalListener | LocalLoop

  /** How a node ticks: not at all without a timer or with timer type None,
      from the service tick topic with a global timer, on its own with a
      local one. */
  function Mode(n: TickConfig): TickMode {
    if n.timer.None? then NoTick
    else match n.timer.value.kind
      case TimerTypeGlobal => GlobalListener
      case TimerTypeLocal => LocalLoop
      case TimerTypeNone => NoTick
  }

  /** The task started for a node: a listener fed by the service tick route,
      a free-running loop, or none. */
  function TaskOf(n: TickConfig): seq<Event> {
    match Mode(n)
    case NoTick => []
    case GlobalListener => [Event(Spawn("tick.global." + n.alias), true)]
    case LocalLoop => [Event(Spawn("tick.local." + n.alias), true)]
  }

  /** The tasks of all nodes, in node order. */
  function TickTasks(nodes: seq<TickConfig>): seq<Event> {
    if nodes == [] then [] else TickTasks(nodes[..|nodes| - 1]) + TaskOf(nodes[|nodes| - 1])
  }

  predicate HasGlobal(nodes: seq<TickConfig>) {
    exists i :: 0 <= i < |nodes| && Mode(nodes[i]) == GlobalListener
  }

  /** Starts one task per ticking node and, when any node ticks globally,
      adds the single route that feeds the listeners from the service tick
      topic. */
  method OnServiceTick<T>(s: Service<T>, r: Endpoint, nodes: seq<TickConfig>, handler: Handler)
    modifies s.bus
    ensures s.bus.trace == old(s.bus.trace) + TickTasks(nodes)
      + (if HasGlobal(nodes) then [Event(AddRoute(r, "flux.global_tick", s.topics.GlobalTick()), true)] else [])
    ensures s.bus.nextId == old(s.bus.nextId)
  {
    var hasGlobalTick := false;
    var i := 0;
    while i < |nodes|
      invariant 0 <= i <= |nodes|
      invariant hasGlobalTick <==> HasGlobal(nodes[..i])
      invariant s.bus.trace == old(s.bus.trace) + TickTasks(nodes[..i])
      invariant s.bus.nextId == old(s.bus.nextId)
    {
      StepTasks(nodes, i);
      var global := StartTask(s.bus, nodes[i]);
      hasGlobalTick := hasGlobalTick || global;
      i := i + 1;
    }
    assert nodes[..i] == nodes;
    if hasGlobalTick {
      s.bus.Record(AddRoute(r, "flux.global_tick", s.topics.GlobalTick()));
    }
  }

  /** Starts the task of one node, by timer type, and says whether it
      listens on the global tick. */
  method StartTask(bus: World, node: TickConfig) returns (global: bool)
    modifies bus
    ensures bus.trace == old(bus.trace) + TaskOf(node)
    ensures global <==> Mode(node) == GlobalListener
    ensures bus.nextId == old(bus.nextId)
  {
    global := false;
    if node.timer.Some? {
      match node.timer.value.kind
      case TimerTypeGlobal =>
        global := true;
        bus.Record(Spawn("tick.global." + node.alias));
      case TimerTypeLocal =>
        bus.Record(Spawn("tick.local." + node.alias));
      case TimerTypeNone =>
    }
  }

  /** One more node adds its own task, and ticks globally or not. */
  lemma StepTasks(nodes: seq<TickConfig>, i: int)
    requires 0 <= i < |nodes|
    ensures TickTasks(nodes[..i + 1]) == TickTasks(nodes[..i]) + TaskOf(nodes[i])
    ensures HasGlobal(nodes[..i + 1]) <==> HasGlobal(nodes[..i]) || Mode(nodes[i]) == GlobalListener
  {
    assert nodes[..i + 1][..i] == nodes[..i];
    assert forall j :: 0 <= j < i ==> nodes[..i + 1][j] == nodes[..i][j];
    assert nodes[..i + 1][i] == nodes[i];
  }

  /** A node without a timer, or with timer type None, gets no task, and
      every other node gets exactly one. */
  lemma UntimedNodesGetNoTask(n: TickConfig)
    ensures TaskOf(n) == [] <==> n.timer.None? || n.timer.value.kind == Nodes.TimerTypeNone
    ensures |TaskOf(n)| <= 1
  {
  }

  /** The tasks add no route, so the tick wiring adds exactly one route,
      `flux.global_tick`, when some node ticks globally, and none otherwise. */
  lemma {:induction false} GlobalTickRouteIffGlobalNode(nodes: seq<TickConfig>, r: Endpoint, topic: string)
    ensures Routes(TickTasks(nodes) + (if HasGlobal(nodes) then [Event(AddRoute(r, "flux.global_tick", topic), true)] else []), r)
      == (if HasGlobal(nodes) then [("flux.global_tick", topic)] else [])
  {
    TasksAddNoRoute(nodes, r);
    var g := if HasGlobal(nodes) then [Event(AddRoute(r, "flux.global_tick", topic), true)] else [];
    ViewsDistribute(TickTasks(nodes), g, r);
    if HasGlobal(nodes) {
      assert g[1..] == [];
    }
  }

  lemma {:induction false} TasksAddNoRoute(nodes: seq<TickConfig>, r: Endpoint)
    ensures Routes(TickTasks(nodes), r) == []
  {
    if nodes != [] {
      var init := nodes[..|nodes| - 1];
      TasksAddNoRoute(init, r);
      var t := TaskOf(nodes[|nodes| - 1]);
      ViewsDistribute(TickTasks(init), t, r);
      if t != [] {
        assert t[1..] == [];
      }
    }
  }

  /** A local loop is started for alias `a` exactly when some node of that
      alias has a local timer, and a global listener exactly when some node
      of that alias has a global one. */
  lemma {:induction false} TasksMatchNodes(nodes: seq<TickConfig>, a: string)
    ensures Event(Spawn("tick.local." + a), true) in TickTasks(nodes)
        <==> exists i :: 0 <= i < |nodes| && nodes[i].alias == a && Mode(nodes[i]) == LocalLoop
    ensures Event(Spawn("tick.global." + a), true) in TickTasks(nodes)
        <==> exists i :: 0 <= i < |nodes| && nodes[i].alias == a && Mode(nodes[i]) == GlobalListener
  {
    if nodes != [] {
      var init := nodes[..|nodes| - 1];
      var last := nodes[|nodes| - 1];
      TasksMatchNodes(init, a);
      assert forall i :: 0 <= i < |init| ==> init[i] == nodes[i];
      TaskNames(last, a);
    }
  }

  /** The task of one node names that node's alias and its mode. */
  lemma TaskNames(n: TickConfig, a: string)
    ensures Event(Spawn("tick.local." + a), true) in TaskOf(n) <==> n.alias == a && Mode(n) == LocalLoop
    ensures Event(Spawn("tick.global." + a), true) in TaskOf(n) <==> n.alias == a && Mode(n) == GlobalListener
  {
    var l := "tick.local." + a;
    var g := "tick.global." + a;
    // Local and global task names differ at their sixth character.
    assert l != "tick.global." + n.alias by {
      assert l[5] != ("tick.global." + n.alias)[5];
    }
    assert g != "tick.local." + n.alias by {
      assert g[5] != ("tick.local." + n.alias)[5];
    }
    if Mode(n) == LocalLoop && Event(Spawn(l), true) in TaskOf(n) {
      assert a == l[11..] == ("tick.local." + n.alias)[11..];
    }
    if Mode(n) == GlobalListener && Event(Spawn(g), true) in TaskOf(n) {
      assert a == g[12..] == ("tick.global." + n.alias)[12..];
    }
  }
}
