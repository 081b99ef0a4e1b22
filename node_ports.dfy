/** Input and output ports of a node, and the topic an output port publishes on. */
module NodePorts {

  datatype InputPort = InputPort(alias: string, topics: seq<string>)

  datatype OutputPort = OutputPort(alias: string) {

    /** `/node/<nodeID>/port/<alias>`, read position by position. */
    function Topic(nodeID: string): (r: string)
      ensures |r| == 12 + |nodeID| + |alias|
      ensures r[..6] == "/node/"
      ensures r[6..6 + |nodeID|] == nodeID
      ensures r[6 + |nodeID|..12 + |nodeID|] == "/port/"
      ensures r[12 + |nodeID|..] == alias
    {
      "/node/" + nodeID + "/port/" + alias
    }
  }

  /** For a fixed node, distinct port aliases give distinct topics. */
  lemma TopicInjectiveInAlias(o1: OutputPort, o2: OutputPort, nodeID: string)
    requires o1.Topic(nodeID) == o2.Topic(nodeID)
    ensures o1 == o2
  {
    assert o1.alias == o1.Topic(nodeID)[12 + |nodeID|..] == o2.alias;
  }

  /** For a fixed alias, distinct node ids give distinct topics. */
  lemma TopicInjectiveInNode(o: OutputPort, id1: string, id2: string)
    requires o.Topic(id1) == o.Topic(id2)
    ensures id1 == id2
  {
    assert |id1| == |id2|;
    assert id1 == o.Topic(id1)[6..6 + |id1|] == id2;
  }

  /** The topic depends on the node id and the alias only, and always lies under `/node/`. */
  lemma TopicDependsOnIdAndAlias(o1: OutputPort, o2: OutputPort, id1: string, id2: string)
    requires o1.alias == o2.alias && id1 == id2
    ensures o1.Topic(id1) == o2.Topic(id2)
    ensures o1.Topic(id1)[..6] == "/node/"
  {
  }

  /** The pair (node id, alias) is not recoverable from the topic when ids may contain `/port/`. */
  lemma TopicNotJointlyInjective()
    ensures OutputPort("z").Topic("x/port/y") == OutputPort("y/port/z").Topic("x")
  {
  }
}
