/** The topic namespace of a service (`ServiceTopics`): every topic name is a
    pure string derived from the service identifier. */
module Topics {

  /** The fixed prefix of every service topic. */
  const Prefix: string := "service."

  /** `t` has the shape `service.<id>.<suffix>`, read position by position. */
  ghost predicate InScope(t: string, id: string, suffix: string) {
    && |t| == |Prefix| + |id| + 1 + |suffix|
    && t[..|Prefix|] == Prefix
    && t[|Prefix|..|Prefix| + |id|] == id
    && t[|Prefix| + |id|] == '.'
    && t[|Prefix| + |id| + 1..] == suffix
  }

  /** The id-scoped topics, one constructor per `ServiceTopics` method of that form. */
  datatype Scoped =
    | GetConfig | SetConfig | SendStatus | RequestStatus
    | Start | Stop | Restart
    | GetCommonState | SetCommonState | GetCommonData | SetCommonData

  /** The last dot-separated part of each id-scoped topic. */
  function Suffix(k: Scoped): string {
    match k
    case GetConfig => "get_config"
    case SetConfig => "set_config"
    case SendStatus => "status"
    case RequestStatus => "request_status"
    case Start => "start"
    case Stop => "stop"
    case Restart => "restart"
    case GetCommonState => "get_common_state"
    case SetCommonState => "set_common_state"
    case GetCommonData => "get_common_data"
    case SetCommonData => "set_common_data"
  }

  datatype ServiceTopics = ServiceTopics(service: string) {

    function RequestConfig(): (r: string)
      ensures InScope(r, service, "get_config")
    { "service." + service + ".get_config" }

    function ResponseConfig(): (r: string)
      ensures InScope(r, service, "set_config")
    { "service." + service + ".set_config" }

    function SendStatus(): (r: string)
      ensures InScope(r, service, "status")
    { "service." + service + ".status" }

    function RequestStatus(): (r: string)
      ensures InScope(r, service, "request_status")
    { "service." + service + ".request_status" }

    function Start(): (r: string)
      ensures InScope(r, service, "start")
    { "service." + service + ".start" }

    function Stop(): (r: string)
      ensures InScope(r, service, "stop")
    { "service." + service + ".stop" }

    function Restart(): (r: string)
      ensures InScope(r, service, "restart")
    { "service." + service + ".restart" }

    /** Depends on the guid only: the receiver's service id is not used. */
    function PushDevelopmentMode(guid: string): (r: string)
      ensures |r| == 25 + |guid| && r[..25] == "service.development_mode." && r[25..] == guid
    { "service.development_mode." + guid }

    /** As written: the service id is not interpolated, giving the literal `service..error`. */
    function Errors(): (r: string)
      ensures r == "service..error"
    { "service." + ".error" }

    /** The one tick topic shared by every service. */
    function GlobalTick(): (r: string)
      ensures r == "service.tick"
    { "service.tick" }

    function GetCommonState(): (r: string)
      ensures InScope(r, service, "get_common_state")
    { "service." + service + ".get_common_state" }

    function SetCommonState(): (r: string)
      ensures InScope(r, service, "set_common_state")
    { "service." + service + ".set_common_state" }

    function GetCommonData(): (r: string)
      ensures InScope(r, service, "get_common_data")
    { "service." + service + ".get_common_data" }

    function SetCommonData(): (r: string)
      ensures InScope(r, service, "set_common_data")
    { "service." + service + ".set_common_data" }

    /** Where the manager reports the IDE's connection status; not scoped by service. */
    function IDEStatus(): (r: string)
      ensures r == "ide.status"
    { "ide.status" }

    /** The id-scoped topic of kind `k`. */
    function Of(k: Scoped): (r: string)
      ensures InScope(r, service, Suffix(k))
    {
      match k
      case GetConfig => RequestConfig()
      case SetConfig => ResponseConfig()
      case SendStatus => SendStatus()
      case RequestStatus => RequestStatus()
      case Start => Start()
      case Stop => Stop()
      case Restart => Restart()
      case GetCommonState => GetCommonState()
      case SetCommonState => SetCommonState()
      case GetCommonData => GetCommonData()
      case SetCommonData => SetCommonData()
    }
  }

  function NewTopics(service: string): (t: ServiceTopics)
    ensures t.service == service
  {
    ServiceTopics(service)
  }

  /** Distinct kinds have distinct suffixes. */
  lemma SuffixInjective(k1: Scoped, k2: Scoped)
    requires k1 != k2
    ensures Suffix(k1) != Suffix(k2)
  {
  }

  /** For a fixed service id, the eleven id-scoped topics are pairwise distinct. */
  lemma ScopedTopicsDistinct(t: ServiceTopics, k1: Scoped, k2: Scoped)
    requires k1 != k2
    ensures t.Of(k1) != t.Of(k2)
  {
    var n := |Prefix| + |t.service| + 1;
    SuffixInjective(k1, k2);
    assert t.Of(k1)[n..] == Suffix(k1) && t.Of(k2)[n..] == Suffix(k2);
  }

  /** Requesting and receiving the configuration never share a topic. */
  lemma RequestResponseDiffer(t: ServiceTopics)
    ensures t.RequestConfig() != t.ResponseConfig()
  {
    ScopedTopicsDistinct(t, GetConfig, SetConfig);
  }

  /** Every id-scoped topic determines the service id it was built from. */
  lemma ScopedTopicsInjective(t: ServiceTopics, u: ServiceTopics, k: Scoped)
    requires t.Of(k) == u.Of(k)
    ensures t == u
  {
    var x := t.Of(k);
    assert |t.service| == |u.service|;
    assert t.service == x[|Prefix|..|Prefix| + |t.service|] == u.service;
  }

  /** The last character of every suffix; none of them is 'r'. */
  lemma SuffixLast(k: Scoped)
    ensures |Suffix(k)| >= 4
    ensures Suffix(k)[|Suffix(k)| - 1] != 'r'
  {
  }

  /** The service-independent topics are constants, whatever the receiver. */
  lemma ConstantTopics(t: ServiceTopics, u: ServiceTopics)
    ensures t.GlobalTick() == u.GlobalTick() == "service.tick"
    ensures t.Errors() == u.Errors() == "service..error"
    ensures t.IDEStatus() == u.IDEStatus() == "ide.status"
  {
  }

  /** No id-scoped topic of any service coincides with the global tick, the
      error or the IDE status topic. */
  lemma ConstantTopicsOutsideScope(t: ServiceTopics, u: ServiceTopics, k: Scoped)
    ensures t.Of(k) != u.GlobalTick()
    ensures t.Of(k) != u.Errors()
    ensures t.Of(k) != u.IDEStatus()
  {
    var x := t.Of(k);
    SuffixLast(k);
    assert |x| >= 13;
    assert x[|x| - 1] == Suffix(k)[|Suffix(k)| - 1];
    assert u.Errors()[13] == 'r';
    assert x[0] == 's' && u.IDEStatus()[0] == 'i';
  }

  /** The development-mode topic depends on the guid alone, and on all of it. */
  lemma DevelopmentModeByGuid(t: ServiceTopics, u: ServiceTopics, g1: string, g2: string)
    ensures t.PushDevelopmentMode(g1) == u.PushDevelopmentMode(g2) <==> g1 == g2
  {
    if t.PushDevelopmentMode(g1) == u.PushDevelopmentMode(g2) {
      assert g1 == t.PushDevelopmentMode(g1)[25..] == g2;
    }
  }

  /** The development-mode namespace overlaps the id-scoped one: the
      development-mode topic for guid `status` is the status topic of the
      service called `development_mode`. */
  lemma DevelopmentModeOverlapsScope(t: ServiceTopics)
    ensures t.PushDevelopmentMode("status") == ServiceTopics("development_mode").SendStatus()
  {
  }

  /** The error topic is what id-scoping would give for the empty service id. */
  lemma ErrorsIsEmptyIdScope(t: ServiceTopics)
    ensures t.Errors() == Prefix + "" + "." + "error"
    ensures InScope(t.Errors(), "", "error")
  {
  }
}
