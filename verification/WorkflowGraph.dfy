/** Workflow definitions: which graphs are accepted, and what sanitizing does to them. */
module WorkflowGraph {
  import opened Common

  /** A JSON value that the service passes on without looking inside. */
  type Json = string

  datatype Node = Node(
    id: string, name: string, kind: string, typeVersion: Option<real>, position: seq<real>,
    parameters: Option<map<string, Json>>, credentials: Option<map<string, string>>)

  datatype Connection = Connection(node: string, kind: string, index: Option<real>)

  datatype Settings = Settings(executionOrder: Option<string>, other: map<string, Json>)

  datatype Definition = Definition(
    nodes: seq<Node>, connections: map<string, map<string, seq<Connection>>>, settings: Option<Settings>)

  datatype Problem =
    | NoNodes
    | DuplicateIds(ids: seq<string>)
    | MissingField(node: Node)
    | NoSource(id: string)
    | NoTarget(id: string)

  datatype Outcome = Pass | Fail(problem: Problem)

  /** The parts of the schema that a value of type Definition can still break. */
  predicate Conforms(d: Definition) {
    && (forall i | 0 <= i < |d.nodes| :: |d.nodes[i].position| == 2)
    && (d.settings.Some? && d.settings.value.executionOrder.Some? ==> d.settings.value.executionOrder.value in {"v0", "v1"})
  }

  // ---------------------------------------------------------------------------------
  // What a well-formed graph is

  ghost predicate DistinctIds(nodes: seq<Node>) {
    forall i, j | 0 <= i < j < |nodes| :: nodes[i].id != nodes[j].id
  }

  predicate Complete(node: Node) {
    node.id != "" && node.name != "" && node.kind != ""
  }

  ghost predicate NodesOk(nodes: seq<Node>) {
    nodes != [] && DistinctIds(nodes) && forall i | 0 <= i < |nodes| :: Complete(nodes[i])
  }

  ghost predicate IsNode(nodes: seq<Node>, id: string) {
    exists i | 0 <= i < |nodes| :: nodes[i].id == id
  }

  ghost predicate TargetsOk(nodes: seq<Node>, list: seq<Connection>) {
    forall i | 0 <= i < |list| :: IsNode(nodes, list[i].node)
  }

  ghost predicate PortsOk(nodes: seq<Node>, ports: map<string, seq<Connection>>) {
    forall port | port in ports :: TargetsOk(nodes, ports[port])
  }

  ghost predicate ConnectionsOk(nodes: seq<Node>, connections: map<string, map<string, seq<Connection>>>) {
    forall source | source in connections :: IsNode(nodes, source) && PortsOk(nodes, connections[source])
  }

  /** A non-empty graph of distinct, complete nodes whose connections join its own nodes. */
  ghost predicate WellFormed(d: Definition) {
    Conforms(d) && NodesOk(d.nodes) && ConnectionsOk(d.nodes, d.connections)
  }

  // ---------------------------------------------------------------------------------
  // The validator

  function Ids(nodes: seq<Node>): seq<string> {
    seq(|nodes|, i requires 0 <= i < |nodes| => nodes[i].id)
  }

  /** `ids.indexOf(id)` */
  function IndexOf(ids: seq<string>, id: string): (i: int)
    ensures -1 <= i < |ids|
    ensures i == -1 ==> id !in ids
    ensures i >= 0 ==> ids[i] == id && forall k | 0 <= k < i :: ids[k] != id
  {
    if ids == [] then -1
    else if ids[0] == id then 0
    else
      var i := IndexOf(ids[1..], id);
      if i == -1 then -1 else i + 1
  }

  /** Among the first n ids, those that are not at their own first index. */
  function Repeats(ids: seq<string>, n: nat): seq<string>
    requires n <= |ids|
  {
    if n == 0 then []
    else Repeats(ids, n - 1) + if IndexOf(ids, ids[n - 1]) != n - 1 then [ids[n - 1]] else []
  }

  lemma {:induction false} RepeatsEmpty(ids: seq<string>, n: nat)
    requires n <= |ids|
    ensures Repeats(ids, n) == [] <==> forall i, j | 0 <= i < j < n :: ids[i] != ids[j]
  {
    if n > 0 {
      RepeatsEmpty(ids, n - 1);
      assert IndexOf(ids, ids[n - 1]) <= n - 1;
    }
  }

  /** The id stands at two nodes. */
  ghost predicate IsRepeated(ids: seq<string>, n: nat, id: string)
    requires n <= |ids|
  {
    exists i, j :: 0 <= i < j < n && ids[i] == id && ids[j] == id
  }

  lemma {:induction false} RepeatsAreRepeated(ids: seq<string>, n: nat, id: string)
    requires n <= |ids|
    ensures id in Repeats(ids, n) <==> IsRepeated(ids, n, id)
  {
    if n > 0 {
      RepeatsAreRepeated(ids, n - 1, id);
      var first := IndexOf(ids, ids[n - 1]);
      if IsRepeated(ids, n - 1, id) {
        var i, j :| 0 <= i < j < n - 1 && ids[i] == id && ids[j] == id;
        assert 0 <= i < j < n && ids[i] == id && ids[j] == id;
      }
      if ids[n - 1] == id && first != n - 1 {
        assert 0 <= first < n - 1 < n && ids[first] == id && ids[n - 1] == id;
      }
    }
  }

  method ValidateWorkflowNodes(nodes: seq<Node>) returns (r: Outcome)
    ensures r.Pass? <==> NodesOk(nodes)
    ensures r.Fail? ==>
      match r.problem
      case NoNodes => nodes == []
      case DuplicateIds(ids) =>
        nodes != [] && !DistinctIds(nodes) && forall id :: id in ids <==> IsRepeated(Ids(nodes), |nodes|, id)
      case MissingField(node) => node in nodes && !Complete(node) && DistinctIds(nodes)
      case _ => false
  {
    if |nodes| == 0 {
      return Fail(NoNodes);
    }
    var nodeIds := Ids(nodes);
    var duplicateIds := Repeats(nodeIds, |nodeIds|);
    RepeatsEmpty(nodeIds, |nodeIds|);
    assert forall i | 0 <= i < |nodes| :: nodeIds[i] == nodes[i].id;
    if |duplicateIds| > 0 {
      assert !DistinctIds(nodes) by {
        var i, j :| 0 <= i < j < |nodeIds| && nodeIds[i] == nodeIds[j];
        assert nodes[i].id == nodes[j].id;
      }
      forall id
        ensures id in duplicateIds <==> IsRepeated(nodeIds, |nodes|, id)
      {
        RepeatsAreRepeated(nodeIds, |nodeIds|, id);
      }
      return Fail(DuplicateIds(duplicateIds));
    }
    for i := 0 to |nodes|
      invariant forall k | 0 <= k < i :: Complete(nodes[k])
    {
      if nodes[i].id == "" || nodes[i].name == "" || nodes[i].kind == "" {
        assert !Complete(nodes[i]);
        return Fail(MissingField(nodes[i]));
      }
    }
    return Pass;
  }

  ghost predicate IsTarget(list: seq<Connection>, id: string) {
    exists i :: 0 <= i < |list| && list[i].node == id
  }

  ghost predicate IsPortTarget(ports: map<string, seq<Connection>>, id: string) {
    exists port :: port in ports && IsTarget(ports[port], id)
  }

  ghost predicate IsGraphTarget(connections: map<string, map<string, seq<Connection>>>, id: string) {
    exists source :: source in connections && IsPortTarget(connections[source], id)
  }

  /** The targets listed under one port. */
  method ValidateTargets(nodes: seq<Node>, nodeIds: set<string>, list: seq<Connection>) returns (r: Outcome)
    requires forall id :: id in nodeIds <==> IsNode(nodes, id)
    ensures r.Pass? <==> TargetsOk(nodes, list)
    ensures r.Fail? ==> r.problem.NoTarget? && !IsNode(nodes, r.problem.id) && IsTarget(list, r.problem.id)
  {
    for i := 0 to |list|
      invariant forall k | 0 <= k < i :: IsNode(nodes, list[k].node)
    {
      if list[i].node !in nodeIds {
        return Fail(NoTarget(list[i].node));
      }
    }
    return Pass;
  }

  /** The ports of one source. */
  method ValidatePorts(nodes: seq<Node>, nodeIds: set<string>, ports: map<string, seq<Connection>>) returns (r: Outcome)
    requires forall id :: id in nodeIds <==> IsNode(nodes, id)
    ensures r.Pass? <==> PortsOk(nodes, ports)
    ensures r.Fail? ==> r.problem.NoTarget? && !IsNode(nodes, r.problem.id) && IsPortTarget(ports, r.problem.id)
  {
    var todo := ports.Keys;
    while todo != {}
      invariant todo <= ports.Keys
      invariant forall port | port in ports && port !in todo :: TargetsOk(nodes, ports[port])
      decreases todo
    {
      var port :| port in todo;
      r := ValidateTargets(nodes, nodeIds, ports[port]);
      if r.Fail? {
        return;
      }
      todo := todo - {port};
    }
    return Pass;
  }

  method ValidateWorkflowConnections(nodes: seq<Node>, connections: map<string, map<string, seq<Connection>>>)
    returns (r: Outcome)
    ensures r.Pass? <==> ConnectionsOk(nodes, connections)
    ensures r.Fail? ==>
      match r.problem
      case NoSource(id) => id in connections && !IsNode(nodes, id)
      case NoTarget(id) => IsGraphTarget(connections, id) && !IsNode(nodes, id)
      case _ => false
  {
    var nodeIds := set i | 0 <= i < |nodes| :: nodes[i].id;
    var todo := connections.Keys;
    while todo != {}
      invariant todo <= connections.Keys
      invariant forall source | source in connections && source !in todo ::
        IsNode(nodes, source) && PortsOk(nodes, connections[source])
      decreases todo
    {
      var sourceNodeId :| sourceNodeId in todo;
      if sourceNodeId !in nodeIds {
        return Fail(NoSource(sourceNodeId));
      }
      r := ValidatePorts(nodes, nodeIds, connections[sourceNodeId]);
      if r.Fail? {
        return;
      }
      todo := todo - {sourceNodeId};
    }
    return Pass;
  }

  /** The validator accepts exactly the well-formed graphs. */
  method ValidateWorkflowDefinition(definition: Definition) returns (valid: bool)
    ensures valid <==> WellFormed(definition)
  {
    if !Conforms(definition) {
      return false;
    }
    var nodes := ValidateWorkflowNodes(definition.nodes);
    if nodes.Fail? {
      return false;
    }
    var connections := ValidateWorkflowConnections(definition.nodes, definition.connections);
    return connections.Pass?;
  }

  // ---------------------------------------------------------------------------------
  // The sanitizer

  const DANGEROUS: seq<string> := ["script", "code", "eval", "function"]

  function SafeParameters(parameters: map<string, Json>): map<string, Json> {
    map k | k in parameters && k !in DANGEROUS :: parameters[k]
  }

  /** Deletes the dangerous keys from a copy, one after another. */
  method SanitizeNodeParameters(parameters: map<string, Json>) returns (sanitized: map<string, Json>)
    ensures sanitized == SafeParameters(parameters)
    ensures forall k :: k in sanitized <==> k in parameters && k !in {"script", "code", "eval", "function"}
    ensures forall k | k in sanitized :: sanitized[k] == parameters[k]
  {
    sanitized := parameters;
    for i := 0 to |DANGEROUS|
      invariant forall k :: k in sanitized <==> k in parameters && k !in DANGEROUS[..i]
      invariant forall k | k in sanitized :: sanitized[k] == parameters[k]
    {
      var key := DANGEROUS[i];
      assert DANGEROUS[..i + 1] == DANGEROUS[..i] + [key];
      if key in sanitized {
        sanitized := sanitized - {key};
      }
    }
    assert DANGEROUS[..|DANGEROUS|] == DANGEROUS;
    assert forall k :: k in DANGEROUS <==> k in {"script", "code", "eval", "function"};
  }

  function SanitizeNode(node: Node): Node {
    node.(parameters := Some(SafeParameters(if node.parameters.Some? then node.parameters.value else map[])))
  }

  function Sanitize(d: Definition): Definition {
    d.(nodes := seq(|d.nodes|, i requires 0 <= i < |d.nodes| => SanitizeNode(d.nodes[i])))
  }

  method SanitizeWorkflowDefinition(definition: Definition) returns (sanitized: Definition)
    ensures sanitized == Sanitize(definition)
  {
    var nodes: seq<Node> := [];
    for i := 0 to |definition.nodes|
      invariant |nodes| == i
      invariant forall k | 0 <= k < i :: nodes[k] == SanitizeNode(definition.nodes[k])
    {
      var node := definition.nodes[i];
      var parameters := SanitizeNodeParameters(if node.parameters.Some? then node.parameters.value else map[]);
      nodes := nodes + [node.(parameters := Some(parameters))];
    }
    sanitized := definition.(nodes := nodes);
  }

  /** The parameters that are kept: all that are given, except those under a dangerous key. */
  predicate Kept(given: Option<map<string, Json>>, kept: Option<map<string, Json>>) {
    && kept.Some?
    && (forall k | k in kept.value :: given.Some? && k in given.value && kept.value[k] == given.value[k])
    && (forall k | given.Some? && k in given.value ::
          k in kept.value <==> k != "script" && k != "code" && k != "eval" && k != "function")
  }

  /** Sanitizing keeps everything but the dangerous parameters of the nodes, and is the only way to do so. */
  lemma SanitizeExactly(d: Definition, s: Definition)
    ensures s == Sanitize(d) <==>
      && s.connections == d.connections && s.settings == d.settings && |s.nodes| == |d.nodes|
      && forall i | 0 <= i < |d.nodes| ::
           s.nodes[i] == d.nodes[i].(parameters := s.nodes[i].parameters) && Kept(d.nodes[i].parameters, s.nodes[i].parameters)
  {
    forall i | 0 <= i < |d.nodes| && |s.nodes| == |d.nodes|
      ensures s.nodes[i] == SanitizeNode(d.nodes[i]) <==>
        s.nodes[i] == d.nodes[i].(parameters := s.nodes[i].parameters) && Kept(d.nodes[i].parameters, s.nodes[i].parameters)
    {
      KeptExactly(d.nodes[i].parameters, s.nodes[i].parameters);
    }
    if |s.nodes| == |d.nodes| && s.connections == d.connections && s.settings == d.settings
       && forall i | 0 <= i < |d.nodes| :: s.nodes[i] == SanitizeNode(d.nodes[i]) {
      assert s.nodes == Sanitize(d).nodes;
    }
  }

  lemma KeptExactly(given: Option<map<string, Json>>, kept: Option<map<string, Json>>)
    ensures kept == Some(SafeParameters(if given.Some? then given.value else map[])) <==> Kept(given, kept)
  {
    assert forall k :: k in DANGEROUS <==> k in {"script", "code", "eval", "function"};
    var all := if given.Some? then given.value else map[];
    if Kept(given, kept) {
      assert kept.value == SafeParameters(all);
    }
  }

  /** No node lacks parameters or has a dangerous one. */
  ghost predicate Clean(d: Definition) {
    forall i | 0 <= i < |d.nodes| ::
      d.nodes[i].parameters.Some? && forall k | k in d.nodes[i].parameters.value :: k !in DANGEROUS
  }

  /** Sanitizing changes nothing exactly in clean definitions. */
  lemma SanitizeFixes(d: Definition)
    ensures Sanitize(d) == d <==> Clean(d)
  {
    if Clean(d) {
      forall i | 0 <= i < |d.nodes|
        ensures SanitizeNode(d.nodes[i]) == d.nodes[i]
      {
        assert SafeParameters(d.nodes[i].parameters.value) == d.nodes[i].parameters.value;
      }
    } else {
      var i :| 0 <= i < |d.nodes|
        && !(d.nodes[i].parameters.Some? && forall k | k in d.nodes[i].parameters.value :: k !in DANGEROUS);
      assert Sanitize(d).nodes[i] == SanitizeNode(d.nodes[i]) != d.nodes[i] by {
        if d.nodes[i].parameters.Some? {
          var k :| k in d.nodes[i].parameters.value && k in DANGEROUS;
          assert k !in SafeParameters(d.nodes[i].parameters.value);
        }
      }
    }
  }

  lemma SanitizeCleans(d: Definition)
    ensures Clean(Sanitize(d))
  {
  }

  /** Sanitizing twice is sanitizing once. */
  lemma SanitizeIdempotent(d: Definition)
    ensures Sanitize(Sanitize(d)) == Sanitize(d)
  {
    SanitizeCleans(d);
    SanitizeFixes(Sanitize(d));
  }

  lemma SameNodes(d: Definition, id: string)
    ensures IsNode(Sanitize(d).nodes, id) <==> IsNode(d.nodes, id)
  {
    var s := Sanitize(d);
    assert forall i | 0 <= i < |d.nodes| :: s.nodes[i].id == d.nodes[i].id;
    if IsNode(d.nodes, id) {
      var i :| 0 <= i < |d.nodes| && d.nodes[i].id == id;
      assert s.nodes[i].id == id;
    }
  }

  /** Sanitizing neither makes a graph acceptable nor spoils it. */
  lemma SanitizeKeepsAcceptance(d: Definition)
    ensures WellFormed(Sanitize(d)) <==> WellFormed(d)
  {
    var s := Sanitize(d);
    forall i | 0 <= i < |d.nodes|
      ensures s.nodes[i] == SanitizeNode(d.nodes[i])
    {
    }
    assert Conforms(s) <==> Conforms(d) by {
      if Conforms(s) {
        assert forall i | 0 <= i < |d.nodes| :: d.nodes[i].position == s.nodes[i].position;
      }
    }
    assert NodesOk(s.nodes) <==> NodesOk(d.nodes) by {
      if NodesOk(s.nodes) {
        assert forall i | 0 <= i < |d.nodes| :: d.nodes[i].id == s.nodes[i].id;
        assert forall i | 0 <= i < |d.nodes| :: Complete(s.nodes[i]) ==> Complete(d.nodes[i]);
      }
    }
    forall list: seq<Connection>
      ensures TargetsOk(s.nodes, list) <==> TargetsOk(d.nodes, list)
    {
      forall i | 0 <= i < |list|
        ensures IsNode(s.nodes, list[i].node) <==> IsNode(d.nodes, list[i].node)
      {
        SameNodes(d, list[i].node);
      }
    }
    forall source | source in d.connections
      ensures IsNode(s.nodes, source) <==> IsNode(d.nodes, source)
      ensures PortsOk(s.nodes, d.connections[source]) <==> PortsOk(d.nodes, d.connections[source])
    {
      SameNodes(d, source);
    }
  }
}
