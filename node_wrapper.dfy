/** The timer-less rewrite of the node configuration and its lookups
    (a second `NodeConfig` declaration, without the `Timer` field). */
module ConfigWrapper {
  import opened Wrappers
  import opened Fold
  import Configs

  type NodePort = Configs.NodePort

  datatype NodeConfig<T> = NodeConfig(
    alias: string,
    inputPorts: seq<NodePort>,
    outputPorts: seq<NodePort>,
    config: T)

  type NodesConfig<T> = seq<NodeConfig<T>>

  ghost predicate FirstNodeMatch<T>(c: NodesConfig<T>, alias: string, i: int) {
    && 0 <= i < |c|
    && EqualFold(c[i].alias, alias)
    && forall j :: 0 <= j < i ==> !EqualFold(c[j].alias, alias)
  }

  /** The first node, in list order, whose alias equals `alias` up to case;
      an error exactly when there is none. */
  function GetNodeByAlias<T>(c: NodesConfig<T>, alias: string): (r: Result<NodeConfig<T>>)
    ensures r.Ok? <==> exists i :: 0 <= i < |c| && EqualFold(c[i].alias, alias)
    ensures r.Ok? ==> exists i :: FirstNodeMatch(c, alias, i) && r.value == c[i]
    ensures r.Err? ==> r.msg == "node with alias " + alias + " not found"
  {
    if c == [] then Err("node with alias " + alias + " not found")
    else if EqualFold(c[0].alias, alias) then
      assert FirstNodeMatch(c, alias, 0);
      Ok(c[0])
    else
      TailMatch(c, alias);
      GetNodeByAlias(c[1..], alias)
  }

  /** Past a non-matching head, the matches of `c` are those of its tail, shifted by one. */
  lemma TailMatch<T>(c: NodesConfig<T>, alias: string)
    requires c != [] && !EqualFold(c[0].alias, alias)
    ensures forall i :: FirstNodeMatch(c[1..], alias, i) ==> FirstNodeMatch(c, alias, i + 1)
    ensures (exists i :: 0 <= i < |c| && EqualFold(c[i].alias, alias))
        <==> (exists i :: 0 <= i < |c[1..]| && EqualFold(c[1..][i].alias, alias))
  {
    forall i | FirstNodeMatch(c[1..], alias, i)
      ensures FirstNodeMatch(c, alias, i + 1)
    {
      assert forall j :: 1 <= j <= i ==> c[j] == c[1..][j - 1];
    }
    if exists i :: 0 <= i < |c| && EqualFold(c[i].alias, alias) {
      var i :| 0 <= i < |c| && EqualFold(c[i].alias, alias);
      assert c[1..][i - 1] == c[i];
    }
  }

  /** The topic of the first input port whose alias equals `alias` up to case;
      an error exactly when there is none. */
  function GetInputByAlias<T>(c: NodeConfig<T>, alias: string): (r: Result<string>)
    ensures r.Ok? <==> exists i :: 0 <= i < |c.inputPorts| && EqualFold(c.inputPorts[i].alias, alias)
    ensures r.Ok? ==> exists i :: Configs.FirstPortMatch(c.inputPorts, alias, i) && r.value == c.inputPorts[i].topic
    ensures r.Err? ==> r.msg == "input port with alias " + alias + " not found"
  {
    match Configs.FindPort(c.inputPorts, alias)
    case Some(i) => Ok(c.inputPorts[i].topic)
    case None => Err("input port with alias " + alias + " not found")
  }

  /** The topic of the first output port whose alias equals `alias` up to case;
      only the output ports are consulted, and the error text says "input port". */
  function GetOutputByAlias<T>(c: NodeConfig<T>, alias: string): (r: Result<string>)
    ensures r.Ok? <==> exists i :: 0 <= i < |c.outputPorts| && EqualFold(c.outputPorts[i].alias, alias)
    ensures r.Ok? ==> exists i :: Configs.FirstPortMatch(c.outputPorts, alias, i) && r.value == c.outputPorts[i].topic
    ensures r.Err? ==> r.msg == "input port with alias " + alias + " not found"
  {
    match Configs.FindPort(c.outputPorts, alias)
    case Some(i) => Ok(c.outputPorts[i].topic)
    case None => Err("input port with alias " + alias + " not found")
  }

  /** The output lookup never looks at the input ports. */
  lemma OutputIgnoresInputs<T>(c: NodeConfig<T>, inputs: seq<NodePort>, alias: string)
    ensures GetOutputByAlias(c.(inputPorts := inputs), alias) == GetOutputByAlias(c, alias)
  {
  }

  /** A case variant of the query finds the same node. */
  lemma {:induction false} NodeLookupIgnoresCase<T>(c: NodesConfig<T>, q1: string, q2: string)
    requires EqualFold(q1, q2)
    ensures GetNodeByAlias(c, q1).Ok? == GetNodeByAlias(c, q2).Ok?
    ensures GetNodeByAlias(c, q1).Ok? ==> GetNodeByAlias(c, q1).value == GetNodeByAlias(c, q2).value
  {
    if c != [] {
      NodeLookupIgnoresCase(c[1..], q1, q2);
    }
  }

  /** The timer-less configuration answers every node lookup as the full one does
      on the same aliases, ports and payloads. */
  lemma {:induction false} AgreesWithTimedLookup<T>(c: NodesConfig<T>, d: Configs.NodesConfig<T>, alias: string)
    requires |c| == |d|
    requires forall i :: 0 <= i < |c| ==>
      c[i].alias == d[i].alias && c[i].inputPorts == d[i].inputPorts
      && c[i].outputPorts == d[i].outputPorts && c[i].config == d[i].config
    ensures GetNodeByAlias(c, alias).Ok? == Configs.GetNodeByAlias(d, alias).Ok?
    ensures GetNodeByAlias(c, alias).Ok? ==>
      GetNodeByAlias(c, alias).value.alias == Configs.GetNodeByAlias(d, alias).value.alias
      && GetNodeByAlias(c, alias).value.config == Configs.GetNodeByAlias(d, alias).value.config
  {
    if c != [] {
      AgreesWithTimedLookup(c[1..], d[1..], alias);
    }
  }
}
