/** The non-generic service: its status enum, the publish-then-store status
    update, the lifecycle routes with their status-updating wrappers, and
    the tick loop that a settings route feeds. Its struct, constructor and
    `Status()` accessor are not among these files; the model gives it the
    fields the methods use. */
module PlainService {
  import opened Wrappers
  import opened World
  import opened Atomic
  import Topics

  datatype Status =
    | StatusInitializing | StatusConnected | StatusReady
    | StatusActive | StatusPaused | StatusError
  {
    /** The wire text of a status. */
    function Text(): string {
      match this
      case StatusInitializing => "initializing"
      case StatusConnected => "CONNECTED"
      case StatusReady => "READY"
      case StatusActive => "ACTIVE"
      case StatusPaused => "PAUSED"
      case StatusError => "ERROR"
    }
  }

  /** Distinct statuses are published as distinct texts. */
  lemma StatusTextInjective(a: Status, b: Status)
    requires a.Text() == b.Text()
    ensures a == b
  {
  }

  predicate HasLowerCase(s: string) {
    exists i :: 0 <= i < |s| && 'a' <= s[i] <= 'z'
  }

  /** Initializing is the one status written in lower case. */
  lemma OnlyInitializingIsLowerCase(st: Status)
    ensures HasLowerCase(st.Text()) <==> st == StatusInitializing
  {
    if st == StatusInitializing {
      assert 'a' <= st.Text()[0] <= 'z';
    }
  }

  /** A status publication on the service's status topic. */
  function StatusEvent(pub: Endpoint, topics: Topics.ServiceTopics, st: Status, ok: bool): Event {
    Event(Publish(pub, topics.SendStatus(), st.Text()), ok)
  }

  class Service {
    const topics: Topics.ServiceTopics
    const bus: World
    var pub: Option<Endpoint>
    var sub: Option<Endpoint>
    const status: AtomicValue<Status>
    var onConnect: Option<Handler>
    var onReady: Option<Handler>

    /** A service of `serviceID` whose status cell holds `initial`. */
    constructor (serviceID: string, bus: World, pub: Option<Endpoint>, sub: Option<Endpoint>, initial: Status)
      ensures topics == Topics.NewTopics(serviceID) && this.bus == bus
      ensures this.pub == pub && this.sub == sub
      ensures fresh(status) && status.stored == Some(initial)
      ensures onConnect == None && onReady == None
    {
      topics := Topics.NewTopics(serviceID);
      this.bus := bus;
      this.pub, this.sub := pub, sub;
      status := new AtomicValue(initial);
      onConnect, onReady := None, None;
    }

    /** Publishes `st` on the status topic and only then stores it: a failed
        publish returns an error and leaves the stored status as it was. */
    method UpdateStatus(st: Status) returns (err: Outcome)
      requires pub.Some?
      modifies status, bus
      ensures bus.trace == old(bus.trace) + [StatusEvent(pub.value, topics, st, err.Pass?)]
      ensures bus.nextId == old(bus.nextId)
      ensures err.Pass? ==> status.stored == Some(st)
      ensures err.Fail? ==> status.stored == old(status.stored) && "could not publish status message: " <= err.msg
    {
      var e := bus.Publish(pub.value, topics.SendStatus(), st.Text());
      if e.Fail? {
        return Wrap("could not publish status message: ", e);
      }
      status.Set(st);
      err := Pass;
    }

    /** The reply to a status request: one message carrying the stored
        status, and never an error. */
    method HandleStatusRequest() returns (replies: seq<string>, err: Outcome)
      requires status.stored.Some?
      ensures err == Pass && replies == [status.stored.value.Text()]
    {
      var st, ok := status.Get();
      replies := [st.Text()];
      err := Pass;
    }

    /** Routes status requests to `HandleStatusRequest`. The route records
        its name and the request topic only. */
    method RegisterStatusHandler(router: Endpoint)
      modifies bus
      ensures bus.trace == old(bus.trace) + [Event(AddRoute(router, "flux.request_status", topics.RequestStatus()), true)]
      ensures bus.nextId == old(bus.nextId)
    {
      bus.Record(AddRoute(router, "flux.request_status", topics.RequestStatus()));
    }

    method OnConnect(h: Handler)
      modifies this`onConnect
      ensures onConnect == Some(h)
    {
      onConnect := Some(h);
    }

    method OnReady(h: Handler)
      modifies this`onReady
      ensures onReady == Some(h)
    {
      onReady := Some(h);
    }
  }

  // ---------------------------------------------------------------------
  // Lifecycle routes.

  /** The closure a route runs: the restart sequence around a handler, or a
      handler followed by a status update. */
  datatype Wrapped = Restarting(handler: Handler) | StatusUpdating(handler: Handler, status: Status)

  method OnRestart(s: Service, r: Endpoint, handler: Handler) returns (w: Wrapped)
    modifies s.bus
    ensures w == Restarting(handler)
    ensures s.bus.trace == old(s.bus.trace) + [Event(AddRoute(r, "flux.on_restart", s.topics.Restart()), true)]
    ensures s.bus.nextId == old(s.bus.nextId)
  {
    s.bus.Record(AddRoute(r, "flux.on_restart", s.topics.Restart()));
    w := Restarting(handler);
  }

  /** The error route runs the user handler unwrapped. */
  method OnError(s: Service, r: Endpoint, handler: Handler)
    modifies s.bus
    ensures s.bus.trace == old(s.bus.trace) + [Event(AddRoute(r, "flux.on_error", s.topics.Errors()), true)]
    ensures s.bus.nextId == old(s.bus.nextId)
  {
    s.bus.Record(AddRoute(r, "flux.on_error", s.topics.Errors()));
  }

  method OnStart(s: Service, r: Endpoint, handler: Handler) returns (w: Wrapped)
    modifies s.bus
    ensures w == StatusUpdating(handler, StatusActive)
    ensures s.bus.trace == old(s.bus.trace) + [Event(AddRoute(r, "flux.on_start", s.topics.Start()), true)]
    ensures s.bus.nextId == old(s.bus.nextId)
  {
    s.bus.Record(AddRoute(r, "flux.on_start", s.topics.Start()));
    w := StatusUpdating(handler, StatusActive);
  }

  method OnStop(s: Service, r: Endpoint, handler: Handler) returns (w: Wrapped)
    modifies s.bus
    ensures w == StatusUpdating(handler, StatusPaused)
    ensures s.bus.trace == old(s.bus.trace) + [Event(AddRoute(r, "flux.on_stop", s.topics.Stop()), true)]
    ensures s.bus.nextId == old(s.bus.nextId)
  {
    s.bus.Record(AddRoute(r, "flux.on_stop", s.topics.Stop()));
    w := StatusUpdating(handler, StatusPaused);
  }

  /** The restart closure on message `msg`: report Paused, run the handler,
      report Active. A failed Paused report keeps the handler from running;
      a handler error is returned as is, with the status left Paused. */
  method Restart(s: Service, handler: Handler, msg: string) returns (err: Outcome)
    requires s.pub.Some?
    modifies s.status, s.bus
    ensures s.bus.nextId == old(s.bus.nextId)
    ensures
      || (&& s.bus.trace == old(s.bus.trace) + [StatusEvent(s.pub.value, s.topics, StatusPaused, false)]
          && s.status.stored == old(s.status.stored) && err.Fail?
          && "cannot update status before restart: " <= err.msg)
      || (&& s.bus.trace == old(s.bus.trace) + [StatusEvent(s.pub.value, s.topics, StatusPaused, true), Event(Call(handler, Payload(msg)), false)]
          && s.status.stored == Some(StatusPaused) && err.Fail?)
      || (&& s.bus.trace == old(s.bus.trace) + [StatusEvent(s.pub.value, s.topics, StatusPaused, true), Event(Call(handler, Payload(msg)), true),
                                               StatusEvent(s.pub.value, s.topics, StatusActive, false)]
          && s.status.stored == Some(StatusPaused) && err.Fail?
          && "cannot update status after restart: " <= err.msg)
      || (&& s.bus.trace == old(s.bus.trace) + [StatusEvent(s.pub.value, s.topics, StatusPaused, true), Event(Call(handler, Payload(msg)), true),
                                               StatusEvent(s.pub.value, s.topics, StatusActive, true)]
          && s.status.stored == Some(StatusActive) && err.Pass?)
  {
    var e := s.UpdateStatus(StatusPaused);
    if e.Fail? {
      return Fail("cannot update status before restart: " + e.msg);
    }
    e := s.bus.Call(handler, Payload(msg));
    if e.Fail? {
      return e;
    }
    e := s.UpdateStatus(StatusActive);
    if e.Fail? {
      return Fail("cannot update status after restart: " + e.msg);
    }
    err := Pass;
  }

  /** The status-updating closure on message `msg`: run the handler and then
      report `status`. A handler error is returned wrapped, before any
      status is published, and leaves the status as it was. */
  method WithStatusUpdate(s: Service, handler: Handler, status: Status, msg: string) returns (err: Outcome)
    requires s.pub.Some?
    modifies s.status, s.bus
    ensures s.bus.nextId == old(s.bus.nextId)
    ensures
      || (&& s.bus.trace == old(s.bus.trace) + [Event(Call(handler, Payload(msg)), false)]
          && s.status.stored == old(s.status.stored) && err.Fail?
          && "cannot handle message with status update: " <= err.msg)
      || (&& s.bus.trace == old(s.bus.trace) + [Event(Call(handler, Payload(msg)), true), StatusEvent(s.pub.value, s.topics, status, false)]
          && s.status.stored == old(s.status.stored) && err.Fail?
          && "cannot update status after handler call: " <= err.msg)
      || (&& s.bus.trace == old(s.bus.trace) + [Event(Call(handler, Payload(msg)), true), StatusEvent(s.pub.value, s.topics, status, true)]
          && s.status.stored == Some(status) && err.Pass?)
  {
    var e := s.bus.Call(handler, Payload(msg));
    if e.Fail? {
      return Fail("cannot handle message with status update: " + e.msg);
    }
    e := s.UpdateStatus(status);
    if e.Fail? {
      return Fail("cannot update status after handler call: " + e.msg);
    }
    err := Pass;
  }

  /** Runs a wrapped closure on message `msg`. */
  method Invoke(s: Service, w: Wrapped, msg: string) returns (err: Outcome)
    requires s.pub.Some?
    modifies s.status, s.bus
    ensures err.Pass? && w.Restarting? ==> s.status.stored == Some(StatusActive)
    ensures err.Pass? && w.StatusUpdating? ==> s.status.stored == Some(w.status)
    ensures w.StatusUpdating? && err.Fail? ==> s.status.stored == old(s.status.stored)
    ensures w.Restarting? && err.Fail? ==> s.status.stored == old(s.status.stored) || s.status.stored == Some(StatusPaused)
    ensures w.StatusUpdating? ==>
      |old(s.bus.trace)| < |s.bus.trace| && s.bus.trace[|old(s.bus.trace)|].action == Call(w.handler, Payload(msg))
  {
    match w
    case Restarting(h) =>
      err := Restart(s, h, msg);
    case StatusUpdating(h, st) =>
      err := WithStatusUpdate(s, h, st, msg);
  }

  // ---------------------------------------------------------------------
  // The tick loop.

  /** How the loop ticks: `delay` between ticks, or back to back when
      `isInfinity` is set. Durations are plain integers. */
  datatype TickSettings = TickSettings(isInfinity: bool, delay: int)

  /** The settings the loop starts with: the zero value. */
  const Idle := TickSettings(false, 0)

  /** What the loop's `select` takes next: new settings from the tick route,
      a timer expiry, or the end of the context. */
  datatype TickInput = Received(settings: TickSettings) | Fired | Cancelled

  /** The delay `resetTimer` arms the timer with. */
  function ResetDelay(d: TickSettings): int {
    if d.isInfinity then 0 else d.delay
  }

  /** The handler calls the loop makes on `inputs`, starting from settings
      `d`: each expiry calls the handler with the current delay, new settings
      replace the current ones, and cancellation ends the loop. */
  function TickCalls(h: Handler, d: TickSettings, inputs: seq<TickInput>): seq<Event>
    decreases |inputs|
  {
    if inputs == [] then []
    else match inputs[0]
      case Cancelled => []
      case Received(s) => TickCalls(h, s, inputs[1..])
      case Fired => [Event(Call(h, Delay(d.delay)), true)] + TickCalls(h, d, inputs[1..])
  }

  /** The settings in force once the loop has taken `inputs`, starting from `d`. */
  function Latest(d: TickSettings, inputs: seq<TickInput>): TickSettings
    decreases |inputs|
  {
    if inputs == [] then d
    else match inputs[0]
      case Cancelled => d
      case Received(s) => Latest(s, inputs[1..])
      case Fired => Latest(d, inputs[1..])
  }

  /** The loop goroutine of `OnTick` over the inputs it takes, in order: it
      makes the calls `TickCalls` gives, ends with the settings `Latest`
      gives, and leaves the timer armed for those settings. */
  method RunTickLoop(bus: World, handler: Handler, inputs: seq<TickInput>) returns (data: TickSettings, armed: int)
    modifies bus
    ensures bus.trace == old(bus.trace) + TickCalls(handler, Idle, inputs)
    ensures data == Latest(Idle, inputs)
    ensures armed == (if data.isInfinity then 0 else data.delay)
    ensures bus.nextId == old(bus.nextId)
  {
    data := Idle;
    armed := 0;  // time.NewTimer(0)
    var i := 0;
    while i < |inputs|
      invariant 0 <= i <= |inputs|
      invariant old(bus.trace) + TickCalls(handler, Idle, inputs) == bus.trace + TickCalls(handler, data, inputs[i..])
      invariant Latest(Idle, inputs) == Latest(data, inputs[i..])
      invariant armed == ResetDelay(data)
      invariant bus.nextId == old(bus.nextId)
    {
      assert inputs[i..][1..] == inputs[i + 1..];
      match inputs[i] {
        case Cancelled =>
          return;
        case Received(d) =>
          data := d;
          armed := ResetDelay(data);
        case Fired =>
          bus.Record(Call(handler, Delay(data.delay)));
          armed := ResetDelay(data);
      }
      i := i + 1;
    }
  }

  /** Splitting the inputs before any cancellation splits the calls, the
      second part running from the settings the first part leaves. */
  lemma {:induction false} TickCallsSplit(h: Handler, d: TickSettings, a: seq<TickInput>, b: seq<TickInput>)
    requires Cancelled !in a
    ensures TickCalls(h, d, a + b) == TickCalls(h, d, a) + TickCalls(h, Latest(d, a), b)
    ensures Latest(d, a + b) == Latest(Latest(d, a), b)
    decreases |a|
  {
    if a == [] {
      assert a + b == b;
    } else {
      assert (a + b)[1..] == a[1..] + b;
      assert a[0] in a;
      match a[0]
      case Received(s) =>
        TickCallsSplit(h, s, a[1..], b);
      case Fired =>
        TickCallsSplit(h, d, a[1..], b);
    }
  }

  /** A timer expiry calls the handler once, with the delay of the settings
      received last. */
  lemma FireCallsWithCurrentDelay(h: Handler, d: TickSettings, a: seq<TickInput>)
    requires Cancelled !in a
    ensures TickCalls(h, d, a + [Fired]) == TickCalls(h, d, a) + [Event(Call(h, Delay(Latest(d, a).delay)), true)]
  {
    TickCallsSplit(h, d, a, [Fired]);
    assert [Fired][1..] == [];
  }

  /** Received settings replace the current ones and call nothing. */
  lemma ReceivedReplacesSettings(h: Handler, d: TickSettings, a: seq<TickInput>, s: TickSettings)
    requires Cancelled !in a
    ensures Latest(d, a + [Received(s)]) == s
    ensures TickCalls(h, d, a + [Received(s)]) == TickCalls(h, d, a)
  {
    TickCallsSplit(h, d, a, [Received(s)]);
    assert [Received(s)][1..] == [];
  }

  /** Once the context ends, nothing the loop would take afterwards matters. */
  lemma NothingAfterCancel(h: Handler, d: TickSettings, a: seq<TickInput>, b: seq<TickInput>)
    requires Cancelled !in a
    ensures TickCalls(h, d, a + [Cancelled] + b) == TickCalls(h, d, a)
    ensures Latest(d, a + [Cancelled] + b) == Latest(d, a)
  {
    assert a + [Cancelled] + b == a + ([Cancelled] + b);
    TickCallsSplit(h, d, a, [Cancelled] + b);
  }

  /** The tick route's closure: a payload that decodes is forwarded to the
      loop as new settings; one that does not is an error, and nothing is
      forwarded. */
  method HandleTickPayload(decoded: Option<TickSettings>) returns (forwarded: seq<TickInput>, err: Outcome)
    ensures decoded.None? ==> forwarded == [] && err.Fail? && "flux: failed to unmarshal tick payload: " <= err.msg
    ensures decoded.Some? ==> forwarded == [Received(decoded.value)] && err == Pass
  {
    if decoded.None? {
      return [], Fail("flux: failed to unmarshal tick payload: " + "invalid payload");
    }
    forwarded, err := [Received(decoded.value)], Pass;
  }

  /** `OnTick`: starts the loop and adds the route that feeds it from the
      service tick topic. */
  method OnTick(s: Service, r: Endpoint, handler: Handler)
    modifies s.bus
    ensures s.bus.trace == old(s.bus.trace) + [Event(Spawn("flux.tick_loop"), true),
                                              Event(AddRoute(r, "flux.tick", s.topics.GlobalTick()), true)]
    ensures s.bus.nextId == old(s.bus.nextId)
  {
    s.bus.Record(Spawn("flux.tick_loop"));
    s.bus.Record(AddRoute(r, "flux.tick", s.topics.GlobalTick()));
  }
}
