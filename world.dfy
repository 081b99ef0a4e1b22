/** Everything the core reaches outside itself: the message bus (publishers,
    subscribers, callers), the router that dispatches subscriptions to
    handlers, the user-supplied callbacks, and goroutines. None of these is
    modelled; each call is recorded, in order, in one trace, and every call
    that can fail succeeds or fails nondeterministically, its outcome
    recorded beside it. */
module World {
  import opened Wrappers

  datatype Kind = SubscriberKind | PublisherKind | CallerKind | RouterKind

  /** A connection or router made by a factory, told apart by a serial number. */
  datatype Endpoint = Endpoint(kind: Kind, id: nat)

  /** A user-supplied callback, known only by name. */
  datatype Handler = Handler(name: string)

  /** What a callback is called with. */
  datatype Arg =
    | NoArg
    | Payload(bytes: string)
    | Alias(alias: string)        // a node event handler's node alias
    | NodeConfigOf(id: string)    // a node's configuration, named by its id
    | Delay(delay: int)
    | ReadyArgs(router: Endpoint, nodes: seq<string>)   // a router and a decoded configuration, named by its node ids

  datatype Action =
    | Open(endpoint: Endpoint)                          // a factory call
    | Publish(via: Endpoint, topic: string, payload: string)
    | Subscribe(via: Endpoint, topic: string)
    | Close(target: Endpoint)
    | AddRoute(router: Endpoint, name: string, topic: string)
    | AddPlugin(router: Endpoint)
    | Call(handler: Handler, arg: Arg)
    | Spawn(task: string)                                // a goroutine is started
    | RunRouter(router: Endpoint)                        // `go router.Run(ctx)`
    | Ack(message: nat)

  /** One call and whether it succeeded; calls that cannot fail always succeed. */
  datatype Event = Event(action: Action, ok: bool)

  class World {
    var trace: seq<Event>
    var nextId: nat

    constructor ()
      ensures trace == [] && nextId == 0
    {
      trace := [];
      nextId := 0;
    }

    /** A call that may fail. */
    method Attempt(a: Action) returns (ok: bool)
      modifies this
      ensures trace == old(trace) + [Event(a, ok)]
      ensures nextId == old(nextId)
    {
      ok :| true;
      trace := trace + [Event(a, ok)];
    }

    /** A call that cannot fail. */
    method Record(a: Action)
      modifies this
      ensures trace == old(trace) + [Event(a, true)]
      ensures nextId == old(nextId)
    {
      trace := trace + [Event(a, true)];
    }

    /** Acknowledges a message and then starts the router: the last two
        steps of a configuration that applied cleanly. */
    method AckThenRun(id: nat, router: Endpoint)
      modifies this
      ensures trace == old(trace) + [Event(Ack(id), true), Event(RunRouter(router), true)]
      ensures Acks(trace) == Acks(old(trace)) + [id]
      ensures nextId == old(nextId)
    {
      var tail := [Event(Ack(id), true), Event(RunRouter(router), true)];
      trace := trace + tail;
      ViewsDistribute(old(trace), tail, router);
      assert Acks(tail) == [id] by {
        assert tail[1..][1..] == [];
      }
    }

    /** A factory call: a fresh endpoint, or nil and an error. */
    method Open(kind: Kind) returns (e: Option<Endpoint>)
      modifies this
      ensures e.Some? ==> e.value == Endpoint(kind, old(nextId))
      ensures trace == old(trace) + [Event(Action.Open(Endpoint(kind, old(nextId))), e.Some?)]
      ensures nextId == old(nextId) + 1
    {
      var ok := Attempt(Action.Open(Endpoint(kind, nextId)));
      e := if ok then Some(Endpoint(kind, nextId)) else None;
      nextId := nextId + 1;
    }

    /** A factory that cannot fail (the router factory). */
    method OpenAlways(kind: Kind) returns (e: Endpoint)
      modifies this
      ensures e == Endpoint(kind, old(nextId))
      ensures trace == old(trace) + [Event(Action.Open(e), true)]
      ensures nextId == old(nextId) + 1
    {
      e := Endpoint(kind, nextId);
      Record(Action.Open(e));
      nextId := nextId + 1;
    }

    method Publish(via: Endpoint, topic: string, payload: string) returns (err: Outcome)
      modifies this
      ensures trace == old(trace) + [Event(Action.Publish(via, topic, payload), err.Pass?)]
      ensures nextId == old(nextId)
    {
      var ok := Attempt(Action.Publish(via, topic, payload));
      err := if ok then Pass else Fail("publish failed");
    }

    method Close(target: Endpoint) returns (err: Outcome)
      modifies this
      ensures trace == old(trace) + [Event(Action.Close(target), err.Pass?)]
      ensures nextId == old(nextId)
    {
      var ok := Attempt(Action.Close(target));
      err := if ok then Pass else Fail("close failed");
    }

    method Call(h: Handler, arg: Arg) returns (err: Outcome)
      modifies this
      ensures trace == old(trace) + [Event(Action.Call(h, arg), err.Pass?)]
      ensures nextId == old(nextId)
      ensures err.Fail? ==> err == Fail("handler failed")
    {
      var ok := Attempt(Action.Call(h, arg));
      err := if ok then Pass else Fail("handler failed");
    }
  }

  /** The calls of a trace, without their outcomes. */
  function ActionsOf(t: seq<Event>): (r: seq<Action>)
    ensures |r| == |t|
    ensures forall i :: 0 <= i < |t| ==> r[i] == t[i].action
  {
    seq(|t|, i requires 0 <= i < |t| => t[i].action)
  }

  /** Every call of the trace succeeded. */
  predicate AllOk(t: seq<Event>) {
    forall i :: 0 <= i < |t| ==> t[i].ok
  }

  /** The messages that reached the bus, in order, as (topic, payload) pairs. */
  function Published(t: seq<Event>): (r: seq<(string, string)>)
    ensures |r| <= |t|
  {
    if t == [] then []
    else
      var rest := Published(t[1..]);
      if t[0].ok && t[0].action.Publish? then [(t[0].action.topic, t[0].action.payload)] + rest else rest
  }

  /** The routes registered on `router`, in order, as (handler name, topic) pairs. */
  function Routes(t: seq<Event>, router: Endpoint): (r: seq<(string, string)>)
    ensures |r| <= |t|
  {
    if t == [] then []
    else
      var rest := Routes(t[1..], router);
      if t[0].action.AddRoute? && t[0].action.router == router
      then [(t[0].action.name, t[0].action.topic)] + rest else rest
  }

  /** The messages acknowledged, in order. */
  function Acks(t: seq<Event>): (r: seq<nat>)
    ensures |r| <= |t|
  {
    if t == [] then []
    else (if t[0].action.Ack? then [t[0].action.message] else []) + Acks(t[1..])
  }

  /** Each view of a trace is the concatenation of the views of its parts. */
  lemma ViewsDistribute(a: seq<Event>, b: seq<Event>, router: Endpoint)
    ensures Published(a + b) == Published(a) + Published(b)
    ensures Routes(a + b, router) == Routes(a, router) + Routes(b, router)
    ensures Acks(a + b) == Acks(a) + Acks(b)
  {
    PublishedDistributes(a, b);
    RoutesDistribute(a, b, router);
    AcksDistribute(a, b);
  }

  lemma {:induction false} PublishedDistributes(a: seq<Event>, b: seq<Event>)
    ensures Published(a + b) == Published(a) + Published(b)
  {
    if a == [] {
      assert a + b == b;
    } else {
      assert (a + b)[0] == a[0];
      assert (a + b)[1..] == a[1..] + b;
      PublishedDistributes(a[1..], b);
    }
  }

  lemma {:induction false} RoutesDistribute(a: seq<Event>, b: seq<Event>, router: Endpoint)
    ensures Routes(a + b, router) == Routes(a, router) + Routes(b, router)
  {
    if a == [] {
      assert a + b == b;
    } else {
      assert (a + b)[0] == a[0];
      assert (a + b)[1..] == a[1..] + b;
      RoutesDistribute(a[1..], b, router);
    }
  }

  lemma {:induction false} AcksDistribute(a: seq<Event>, b: seq<Event>)
    ensures Acks(a + b) == Acks(a) + Acks(b)
  {
    if a == [] {
      assert a + b == b;
    } else {
      var head := if a[0].action.Ack? then [a[0].action.message] else [];
      assert (a + b)[0] == a[0];
      assert (a + b)[1..] == a[1..] + b;
      assert Acks(a + b) == head + Acks(a[1..] + b);
      AcksDistribute(a[1..], b);
      assert head + (Acks(a[1..]) + Acks(b)) == (head + Acks(a[1..])) + Acks(b);
    }
  }

  /** `t1` continues `t0` and acknowledges no message in what it adds. */
  ghost predicate Quiet(t0: seq<Event>, t1: seq<Event>) {
    && |t0| <= |t1| && t1[..|t0|] == t0
    && forall k :: |t0| <= k < |t1| ==> !t1[k].action.Ack?
  }

  /** Sequence facts the trace proofs use by name, so that the solver does
      not have to rediscover them inside larger proofs. */
  lemma TakeSnoc<X>(s: seq<X>, k: nat)
    requires k < |s|
    ensures s[..k + 1] == s[..k] + [s[k]]
  {
    assert s[..k + 1] == s[..k] + [s[k]];
  }

  lemma AppendAssoc<X>(a: seq<X>, b: seq<X>, c: seq<X>)
    ensures (a + b) + c == a + (b + c)
  {
    assert (a + b) + c == a + (b + c);
  }

  lemma AppendAssoc4<X>(t: seq<X>, a: seq<X>, b: seq<X>, c: seq<X>, d: seq<X>)
    ensures t + a + b + c + d == t + (a + b + c + d)
  {
    AppendAssoc(t, a, b);
    AppendAssoc(t, a + b, c);
    AppendAssoc(t, a + b + c, d);
  }

  lemma AppendAssoc6<X>(t: seq<X>, a: seq<X>, b: seq<X>, c: seq<X>, d: seq<X>, e: seq<X>, f: seq<X>)
    ensures t + a + b + c + d + e + f == t + (a + b + c + d + e + f)
  {
    AppendAssoc4(t, a, b, c, d);
    AppendAssoc(t, a + b + c + d, e);
    AppendAssoc(t, a + b + c + d + e, f);
  }

  lemma PrefixTrans<X>(a: seq<X>, b: seq<X>, c: seq<X>)
    requires a <= b && b <= c
    ensures a <= c
  {
    assert c[..|a|] == c[..|b|][..|a|];
  }

  lemma QuietTrans(a: seq<Event>, b: seq<Event>, c: seq<Event>)
    requires Quiet(a, b) && Quiet(b, c)
    ensures Quiet(a, c)
  {
    assert c[..|a|] == c[..|b|][..|a|];
  }

  /** No event of `s` acknowledges a message. */
  ghost predicate NoAcks(s: seq<Event>) {
    forall k :: 0 <= k < |s| ==> !s[k].action.Ack?
  }

  lemma NoAcksConcat(a: seq<Event>, b: seq<Event>)
    requires NoAcks(a) && NoAcks(b)
    ensures NoAcks(a + b)
  {
    assert forall k :: |a| <= k < |a + b| ==> (a + b)[k] == b[k - |a|];
  }

  /** Appending events that acknowledge nothing keeps a trace quiet. */
  lemma QuietAppend(t0: seq<Event>, t1: seq<Event>, extra: seq<Event>)
    requires Quiet(t0, t1) && NoAcks(extra)
    ensures Quiet(t0, t1 + extra)
  {
    assert (t1 + extra)[..|t0|] == t1[..|t0|];
    assert forall k :: |t1| <= k < |t1 + extra| ==> (t1 + extra)[k] == extra[k - |t1|];
  }

  /** A trace with no acknowledgement in it acknowledges nothing. */
  lemma {:induction false} NoAckEvents(t: seq<Event>)
    requires forall k :: 0 <= k < |t| ==> !t[k].action.Ack?
    ensures Acks(t) == []
  {
    if t != [] {
      NoAckEvents(t[1..]);
    }
  }

  /** Extending a trace quietly keeps its acknowledgements. */
  lemma QuietKeepsAcks(a: seq<Event>, b: seq<Event>)
    requires Quiet(a, b)
    ensures Acks(b) == Acks(a)
  {
    var suffix := b[|a|..];
    assert b == a + suffix;
    ViewsDistribute(a, suffix, Endpoint(RouterKind, 0));
    NoAckEvents(suffix);
  }
}
