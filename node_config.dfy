/** The manager-supplied node configuration (`NodesConfig`, `NodeConfig`,
    `NodePort`, `TickSettings`) and its case-insensitive lookups. */
module Configs {
  import opened Wrappers
  import opened Fold

  datatype NodePort = NodePort(alias: string, topic: string)

  /** `Delay` is a duration; the model keeps it as an opaque integer. */
  datatype TickSettings = TickSettings(isInfinity: bool, delay: int)

  /** `timer` is a pointer in the source: `None` is nil. */
  datatype NodeConfig<T> = NodeConfig(
    alias: string,
    inputPorts: seq<NodePort>,
    outputPorts: seq<NodePort>,
    timer: Option<TickSettings>,
    config: T)

  type NodesConfig<T> = seq<NodeConfig<T>>

  /** `i` is the first position of `c` whose alias folds equal to `alias`. */
  ghost predicate FirstNodeMatch<T>(c: NodesConfig<T>, alias: string, i: int) {
    && 0 <= i < |c|
    && EqualFold(c[i].alias, alias)
    && forall j :: 0 <= j < i ==> !EqualFold(c[j].alias, alias)
  }

  /** `i` is the first position of `ports` whose alias folds equal to `alias`. */
  ghost predicate FirstPortMatch(ports: seq<NodePort>, alias: string, i: int) {
    && 0 <= i < |ports|
    && EqualFold(ports[i].alias, alias)
    && forall j :: 0 <= j < i ==> !EqualFold(ports[j].alias, alias)
  }

  /** The position of the first node whose alias folds equal to `alias`. */
  function FindNode<T>(c: NodesConfig<T>, alias: string): (r: Option<nat>)
    ensures r.Some? ==> FirstNodeMatch(c, alias, r.value)
    ensures r.None? ==> forall j :: 0 <= j < |c| ==> !EqualFold(c[j].alias, alias)
  {
    if c == [] then None
    else if EqualFold(c[0].alias, alias) then Some(0)
    else match FindNode(c[1..], alias)
      case None => None
      case Some(i) => Some(i + 1)
  }

  /** The position of the first port whose alias folds equal to `alias`. */
  function FindPort(ports: seq<NodePort>, alias: string): (r: Option<nat>)
    ensures r.Some? ==> FirstPortMatch(ports, alias, r.value)
    ensures r.None? ==> forall j :: 0 <= j < |ports| ==> !EqualFold(ports[j].alias, alias)
  {
    if ports == [] then None
    else if EqualFold(ports[0].alias, alias) then Some(0)
    else match FindPort(ports[1..], alias)
      case None => None
      case Some(i) => Some(i + 1)
  }

  /** The first node, in list order, whose alias equals `alias` up to case;
      an error exactly when there is none. */
  function GetNodeByAlias<T>(c: NodesConfig<T>, alias: string): (r: Result<NodeConfig<T>>)
    ensures r.Ok? <==> exists i :: 0 <= i < |c| && EqualFold(c[i].alias, alias)
    ensures r.Ok? ==> exists i :: FirstNodeMatch(c, alias, i) && r.value == c[i]
    ensures r.Err? ==> r.msg == "node with alias " + alias + " not found"
  {
    match FindNode(c, alias)
    case Some(i) => Ok(c[i])
    case None => Err("node with alias " + alias + " not found")
  }

  /** The topic of the first input port whose alias equals `alias` up to case;
      an error exactly when there is none. */
  function GetInputByAlias<T>(c: NodeConfig<T>, alias: string): (r: Result<string>)
    ensures r.Ok? <==> exists i :: 0 <= i < |c.inputPorts| && EqualFold(c.inputPorts[i].alias, alias)
    ensures r.Ok? ==> exists i :: FirstPortMatch(c.inputPorts, alias, i) && r.value == c.inputPorts[i].topic
    ensures r.Err? ==> r.msg == "input port with alias " + alias + " not found"
  {
    match FindPort(c.inputPorts, alias)
    case Some(i) => Ok(c.inputPorts[i].topic)
    case None => Err("input port with alias " + alias + " not found")
  }

  /** The topic of the first output port whose alias equals `alias` up to case;
      an error exactly when there is none. The error text says "input port",
      as the source has it. */
  function GetOutputByAlias<T>(c: NodeConfig<T>, alias: string): (r: Result<string>)
    ensures r.Ok? <==> exists i :: 0 <= i < |c.outputPorts| && EqualFold(c.outputPorts[i].alias, alias)
    ensures r.Ok? ==> exists i :: FirstPortMatch(c.outputPorts, alias, i) && r.value == c.outputPorts[i].topic
    ensures r.Err? ==> r.msg == "input port with alias " + alias + " not found"
  {
    match FindPort(c.outputPorts, alias)
    case Some(i) => Ok(c.outputPorts[i].topic)
    case None => Err("input port with alias " + alias + " not found")
  }

  /** The output lookup never looks at the input ports. */
  lemma OutputIgnoresInputs<T>(c: NodeConfig<T>, inputs: seq<NodePort>, alias: string)
    ensures GetOutputByAlias(c.(inputPorts := inputs), alias) == GetOutputByAlias(c, alias)
  {
  }

  /** Two queries that fold equal find the same position. */
  lemma {:induction false} FindNodeIgnoresCase<T>(c: NodesConfig<T>, q1: string, q2: string)
    requires EqualFold(q1, q2)
    ensures FindNode(c, q1) == FindNode(c, q2)
  {
    if c != [] {
      FindNodeIgnoresCase(c[1..], q1, q2);
    }
  }

  lemma {:induction false} FindPortIgnoresCase(ports: seq<NodePort>, q1: string, q2: string)
    requires EqualFold(q1, q2)
    ensures FindPort(ports, q1) == FindPort(ports, q2)
  {
    if ports != [] {
      FindPortIgnoresCase(ports[1..], q1, q2);
    }
  }

  /** Querying with any case variant of an alias succeeds or fails alike and,
      on success, returns the same node or topic. */
  lemma LookupsIgnoreCase<T>(cs: NodesConfig<T>, c: NodeConfig<T>, q1: string, q2: string)
    requires EqualFold(q1, q2)
    ensures GetNodeByAlias(cs, q1).Ok? == GetNodeByAlias(cs, q2).Ok?
    ensures GetNodeByAlias(cs, q1).Ok? ==> GetNodeByAlias(cs, q1).value == GetNodeByAlias(cs, q2).value
    ensures GetInputByAlias(c, q1).Ok? == GetInputByAlias(c, q2).Ok?
    ensures GetInputByAlias(c, q1).Ok? ==> GetInputByAlias(c, q1).value == GetInputByAlias(c, q2).value
    ensures GetOutputByAlias(c, q1).Ok? == GetOutputByAlias(c, q2).Ok?
    ensures GetOutputByAlias(c, q1).Ok? ==> GetOutputByAlias(c, q1).value == GetOutputByAlias(c, q2).value
  {
    FindNodeIgnoresCase(cs, q1, q2);
    FindPortIgnoresCase(c.inputPorts, q1, q2);
    FindPortIgnoresCase(c.outputPorts, q1, q2);
  }

  /** No later entry of `c` repeats the alias at position `i` (aliases compared exactly). */
  ghost predicate LastWithAlias<T>(c: NodesConfig<T>, i: int)
    requires 0 <= i < |c|
  {
    forall j :: i < j < |c| ==> c[j].alias != c[i].alias
  }

  /** The alias -> timer map: one key per alias (compared exactly, not folded),
      and for a repeated alias the later entry's timer wins. Every timer is
      dereferenced, so none may be nil. */
  method GetTickSettingsByAlias<T>(c: NodesConfig<T>) returns (settings: map<string, TickSettings>)
    requires forall i :: 0 <= i < |c| ==> c[i].timer.Some?
    ensures settings.Keys == set i | 0 <= i < |c| :: c[i].alias
    ensures forall i :: 0 <= i < |c| && LastWithAlias(c, i) ==> settings[c[i].alias] == c[i].timer.value
  {
    settings := map[];
    var k := 0;
    while k < |c|
      invariant 0 <= k <= |c|
      invariant settings.Keys == set i | 0 <= i < k :: c[i].alias
      invariant forall i :: 0 <= i < k && (forall j :: i < j < k ==> c[j].alias != c[i].alias)
                  ==> settings[c[i].alias] == c[i].timer.value
    {
      settings := settings[c[k].alias := c[k].timer.value];
      k := k + 1;
    }
  }
}
