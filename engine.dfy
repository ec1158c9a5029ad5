/**
 * Translation of a graph definition into graph-builder calls, and the in-memory
 * graph and run stores (code_review/app/engine.py).
 *
 * The graph library itself is not part of this model. Its builder is represented by
 * the list of calls made on it, in order. Its `compile` and `invoke` are oracles given
 * as function parameters. Every check the library makes (unknown or duplicate node ids,
 * reachability, dead ends, unmapped branch keys) is seen by the model only through the
 * failure of `compile` or `invoke`, including checks its builder methods make as they are called.
 */
module Engine {
  import opened Wrappers
  import opened Models
  import opened Registry

  /** An edge endpoint as handed to the builder: one of the two sentinels, or a name (kept apart from both sentinels). */
  datatype Endpoint = Start | End | Named(name: string)

  /** One call made on the graph builder. */
  datatype BuilderCall =
    | AddNode(id: string, func: Callable)
    | AddEdge(source: Endpoint, target: Endpoint)
    | AddConditionalEdges(branchSource: string, condition: Callable, mapping: map<string, string>)

  /** An opaque reference to a compiled graph. */
  datatype CompiledGraph = CompiledGraph(handle: nat)

  /** The text a definition uses for an endpoint. */
  function WireName(e: Endpoint): string
  {
    match e
    case Start => "START"
    case End => "END"
    case Named(n) => n
  }

  /** An edge source: only the text "START" becomes a sentinel; "END" stays a plain name. */
  function SourceEndpoint(s: string): (e: Endpoint)
    ensures WireName(e) == s
    ensures e != End
    ensures e == Start <==> s == "START"
  {
    if s == "START" then Start else Named(s)
  }

  /** An edge target: only the text "END" becomes a sentinel; "START" stays a plain name. */
  function TargetEndpoint(t: string): (e: Endpoint)
    ensures WireName(e) == t
    ensures e != Start
    ensures e == End <==> t == "END"
  {
    if t == "END" then End else Named(t)
  }

  /** The index of the first node whose function is unregistered, or `|nodes|` when there is none. */
  function FirstUnknownTool(nodes: seq<NodeConfig>, tools: map<string, Callable>): (k: nat)
    ensures k <= |nodes|
    ensures forall j :: 0 <= j < k ==> nodes[j].functionName in tools
    ensures k < |nodes| ==> nodes[k].functionName !in tools
  {
    if nodes == [] || nodes[0].functionName !in tools then 0
    else 1 + FirstUnknownTool(nodes[1..], tools)
  }

  /** The index of the first conditional edge whose condition is unregistered, or `|ces|` when there is none. */
  function FirstUnknownCondition(ces: seq<ConditionalEdgeConfig>, conditions: map<string, Callable>): (m: nat)
    ensures m <= |ces|
    ensures forall j :: 0 <= j < m ==> ces[j].conditionFunction in conditions
    ensures m < |ces| ==> ces[m].conditionFunction !in conditions
  {
    if ces == [] || ces[0].conditionFunction !in conditions then 0
    else 1 + FirstUnknownCondition(ces[1..], conditions)
  }

  /** `FirstUnknownTool` is the one index with every earlier function registered and its own not. */
  lemma FirstUnknownToolIs(nodes: seq<NodeConfig>, tools: map<string, Callable>, k: nat)
    requires k <= |nodes|
    requires forall j :: 0 <= j < k ==> nodes[j].functionName in tools
    requires k < |nodes| ==> nodes[k].functionName !in tools
    ensures FirstUnknownTool(nodes, tools) == k
  {
  }

  /** `FirstUnknownCondition` is the one index with every earlier condition registered and its own not. */
  lemma FirstUnknownConditionIs(ces: seq<ConditionalEdgeConfig>, conditions: map<string, Callable>, m: nat)
    requires m <= |ces|
    requires forall j :: 0 <= j < m ==> ces[j].conditionFunction in conditions
    requires m < |ces| ==> ces[m].conditionFunction !in conditions
    ensures FirstUnknownCondition(ces, conditions) == m
  {
  }

  /** The `add_node` calls for `nodes`: each node paired with its registered function, in order. */
  function NodeCalls(nodes: seq<NodeConfig>, tools: map<string, Callable>): (calls: seq<BuilderCall>)
    requires forall i :: 0 <= i < |nodes| ==> nodes[i].functionName in tools
    ensures |calls| == |nodes|
  {
    if nodes == [] then []
    else
      var last := nodes[|nodes| - 1];
      NodeCalls(nodes[..|nodes| - 1], tools) + [AddNode(last.id, tools[last.functionName])]
  }

  /** The `add_edge` calls for `edges`, with the sentinel texts translated, in order. */
  function EdgeCalls(edges: seq<EdgeConfig>): (calls: seq<BuilderCall>)
    ensures |calls| == |edges|
  {
    if edges == [] then []
    else
      var last := edges[|edges| - 1];
      EdgeCalls(edges[..|edges| - 1]) + [AddEdge(SourceEndpoint(last.source), TargetEndpoint(last.target))]
  }

  /**
   * The `add_conditional_edges` calls for `ces`, in order: the source and the mapping are
   * passed through untouched (a mapping target "END" is not turned into the sentinel).
   */
  function ConditionalCalls(ces: seq<ConditionalEdgeConfig>, conditions: map<string, Callable>): (calls: seq<BuilderCall>)
    requires forall i :: 0 <= i < |ces| ==> ces[i].conditionFunction in conditions
    ensures |calls| == |ces|
  {
    if ces == [] then []
    else
      var last := ces[|ces| - 1];
      ConditionalCalls(ces[..|ces| - 1], conditions)
        + [AddConditionalEdges(last.source, conditions[last.conditionFunction], last.mapping)]
  }

  /** The `i`-th recorded `add_node` call is the `i`-th declared node with its registered function. */
  lemma {:induction false} NodeCallsAt(nodes: seq<NodeConfig>, tools: map<string, Callable>, i: nat)
    requires forall j :: 0 <= j < |nodes| ==> nodes[j].functionName in tools
    requires i < |nodes|
    ensures NodeCalls(nodes, tools)[i] == AddNode(nodes[i].id, tools[nodes[i].functionName])
  {
    var front := nodes[..|nodes| - 1];
    if i < |front| {
      NodeCallsAt(front, tools, i);
    }
  }

  /** The `i`-th recorded `add_edge` call is the `i`-th declared edge with "START"/"END" translated. */
  lemma {:induction false} EdgeCallsAt(edges: seq<EdgeConfig>, i: nat)
    requires i < |edges|
    ensures EdgeCalls(edges)[i] == AddEdge(SourceEndpoint(edges[i].source), TargetEndpoint(edges[i].target))
  {
    var front := edges[..|edges| - 1];
    if i < |front| {
      EdgeCallsAt(front, i);
    }
  }

  /** The `i`-th recorded `add_conditional_edges` call keeps the `i`-th edge's source and mapping. */
  lemma {:induction false} ConditionalCallsAt(ces: seq<ConditionalEdgeConfig>, conditions: map<string, Callable>, i: nat)
    requires forall j :: 0 <= j < |ces| ==> ces[j].conditionFunction in conditions
    requires i < |ces|
    ensures ConditionalCalls(ces, conditions)[i] ==
      AddConditionalEdges(ces[i].source, conditions[ces[i].conditionFunction], ces[i].mapping)
  {
    var front := ces[..|ces| - 1];
    if i < |front| {
      ConditionalCallsAt(front, conditions, i);
    }
  }

  /** Step 1 of `build_graph`: the `add_node` calls, or the error for the first unregistered node function. */
  function ResolvedNodes(nodes: seq<NodeConfig>, tools: map<string, Callable>): Result<seq<BuilderCall>, string>
  {
    var k := FirstUnknownTool(nodes, tools);
    if k < |nodes| then Failure(ToolNotFoundMessage(nodes[k].functionName))
    else Success(NodeCalls(nodes, tools))
  }

  /** Step 3 of `build_graph`: the `add_conditional_edges` calls, or the error for the first unregistered condition. */
  function ResolvedConditionalEdges(ces: seq<ConditionalEdgeConfig>, conditions: map<string, Callable>)
    : Result<seq<BuilderCall>, string>
  {
    var m := FirstUnknownCondition(ces, conditions);
    if m < |ces| then Failure(ConditionNotFoundMessage(ces[m].conditionFunction))
    else Success(ConditionalCalls(ces, conditions))
  }

  /**
   * What `build_graph` does before compiling: the builder calls it makes, or the
   * registry's error for the first unknown node function, or else for the first
   * unknown condition function.
   */
  function BuilderCalls(d: GraphDefinition, tools: map<string, Callable>, conditions: map<string, Callable>)
    : Result<seq<BuilderCall>, string>
  {
    match ResolvedNodes(d.nodes, tools)
    case Failure(e) => Failure(e)
    case Success(nodeCalls) =>
      match ResolvedConditionalEdges(ConditionalEdgesOf(d), conditions)
      case Failure(e) => Failure(e)
      case Success(conditionalCalls) => Success(nodeCalls + EdgeCalls(d.edges) + conditionalCalls)
  }

  /** The outcome of `build_graph`: the builder calls handed to `compile`, or the first error. */
  function BuildOutcome(
    d: GraphDefinition, tools: map<string, Callable>, conditions: map<string, Callable>,
    compile: seq<BuilderCall> -> Result<CompiledGraph, string>)
    : Result<CompiledGraph, string>
  {
    match BuilderCalls(d, tools, conditions)
    case Failure(e) => Failure(e)
    case Success(calls) => compile(calls)
  }

  /** Name resolution succeeds exactly when every node function and every condition function is registered. */
  lemma BuilderCallsSucceedIff(d: GraphDefinition, tools: map<string, Callable>, conditions: map<string, Callable>)
    ensures BuilderCalls(d, tools, conditions).Success? <==>
      (forall i :: 0 <= i < |d.nodes| ==> d.nodes[i].functionName in tools) &&
      (forall i :: 0 <= i < |ConditionalEdgesOf(d)| ==> ConditionalEdgesOf(d)[i].conditionFunction in conditions)
  {
    var k := FirstUnknownTool(d.nodes, tools);
    if k < |d.nodes| {
      assert d.nodes[k].functionName !in tools;
    } else {
      var ces := ConditionalEdgesOf(d);
      var m := FirstUnknownCondition(ces, conditions);
      if m < |ces| {
        assert ces[m].conditionFunction !in conditions;
      }
    }
  }

  /** The first node (in declaration order) whose function is unregistered decides the error. */
  lemma FirstUnknownToolFails(d: GraphDefinition, tools: map<string, Callable>, conditions: map<string, Callable>, k: nat)
    requires k < |d.nodes| && d.nodes[k].functionName !in tools
    requires forall j :: 0 <= j < k ==> d.nodes[j].functionName in tools
    ensures BuilderCalls(d, tools, conditions) == Failure(ToolNotFoundMessage(d.nodes[k].functionName))
  {
    FirstUnknownToolIs(d.nodes, tools, k);
  }

  /**
   * With every node function registered, the first conditional edge whose condition is
   * unregistered decides the error.
   */
  lemma FirstUnknownConditionFails(d: GraphDefinition, tools: map<string, Callable>, conditions: map<string, Callable>, m: nat)
    requires forall i :: 0 <= i < |d.nodes| ==> d.nodes[i].functionName in tools
    requires m < |ConditionalEdgesOf(d)| && ConditionalEdgesOf(d)[m].conditionFunction !in conditions
    requires forall j :: 0 <= j < m ==> ConditionalEdgesOf(d)[j].conditionFunction in conditions
    ensures BuilderCalls(d, tools, conditions) == Failure(ConditionNotFoundMessage(ConditionalEdgesOf(d)[m].conditionFunction))
  {
    FirstUnknownToolIs(d.nodes, tools, |d.nodes|);
    FirstUnknownConditionIs(ConditionalEdgesOf(d), conditions, m);
  }

  /** On success the builder receives one call per node, per edge and per conditional edge, and nothing else. */
  lemma BuilderCallsCount(d: GraphDefinition, tools: map<string, Callable>, conditions: map<string, Callable>)
    requires BuilderCalls(d, tools, conditions).Success?
    ensures |BuilderCalls(d, tools, conditions).value| == |d.nodes| + |d.edges| + |ConditionalEdgesOf(d)|
  {
    assert FirstUnknownTool(d.nodes, tools) == |d.nodes|;
    assert FirstUnknownCondition(ConditionalEdgesOf(d), conditions) == |ConditionalEdgesOf(d)|;
  }

  /** On success the first calls are one `add_node` per declared node, in order, with its registered function. */
  lemma BuilderCallsNodesFirst(d: GraphDefinition, tools: map<string, Callable>, conditions: map<string, Callable>, i: nat)
    requires BuilderCalls(d, tools, conditions).Success?
    requires i < |d.nodes|
    ensures d.nodes[i].functionName in tools
    ensures BuilderCalls(d, tools, conditions).value[i] == AddNode(d.nodes[i].id, tools[d.nodes[i].functionName])
  {
    var ces := ConditionalEdgesOf(d);
    assert FirstUnknownTool(d.nodes, tools) == |d.nodes|;
    assert FirstUnknownCondition(ces, conditions) == |ces|;
    NodeCallsAt(d.nodes, tools, i);
  }

  /** On success the node calls are followed by one `add_edge` per edge, in order, with "START"/"END" translated. */
  lemma BuilderCallsEdgesNext(d: GraphDefinition, tools: map<string, Callable>, conditions: map<string, Callable>, i: nat)
    requires BuilderCalls(d, tools, conditions).Success?
    requires i < |d.edges|
    ensures |d.nodes| + i < |BuilderCalls(d, tools, conditions).value|
    ensures BuilderCalls(d, tools, conditions).value[|d.nodes| + i] ==
      AddEdge(SourceEndpoint(d.edges[i].source), TargetEndpoint(d.edges[i].target))
  {
    var ces := ConditionalEdgesOf(d);
    assert FirstUnknownTool(d.nodes, tools) == |d.nodes|;
    assert FirstUnknownCondition(ces, conditions) == |ces|;
    EdgeCallsAt(d.edges, i);
  }

  /**
   * On success the last calls are one `add_conditional_edges` per conditional edge, in order,
   * with its registered condition, its source and its mapping unchanged.
   */
  lemma BuilderCallsConditionalLast(d: GraphDefinition, tools: map<string, Callable>, conditions: map<string, Callable>, i: nat)
    requires BuilderCalls(d, tools, conditions).Success?
    requires i < |ConditionalEdgesOf(d)|
    ensures ConditionalEdgesOf(d)[i].conditionFunction in conditions
    ensures |d.nodes| + |d.edges| + i < |BuilderCalls(d, tools, conditions).value|
    ensures var ce := ConditionalEdgesOf(d)[i];
      BuilderCalls(d, tools, conditions).value[|d.nodes| + |d.edges| + i] ==
      AddConditionalEdges(ce.source, conditions[ce.conditionFunction], ce.mapping)
  {
    var ces := ConditionalEdgesOf(d);
    assert FirstUnknownTool(d.nodes, tools) == |d.nodes|;
    assert FirstUnknownCondition(ces, conditions) == |ces|;
    ConditionalCallsAt(ces, conditions, i);
  }

  /** A definition whose conditional edges are absent or empty makes no conditional-edge call. */
  lemma NoConditionalEdgesNoCalls(d: GraphDefinition, tools: map<string, Callable>, conditions: map<string, Callable>)
    requires d.conditionalEdges == None || d.conditionalEdges == Some([])
    ensures BuilderCalls(d, tools, conditions).Success? <==>
      forall i :: 0 <= i < |d.nodes| ==> d.nodes[i].functionName in tools
    ensures BuilderCalls(d, tools, conditions).Success? ==>
      BuilderCalls(d, tools, conditions).value == NodeCalls(d.nodes, tools) + EdgeCalls(d.edges)
  {
    BuilderCallsSucceedIff(d, tools, conditions);
    assert ConditionalCalls([], conditions) == [];
  }

  /**
   * Omitting `conditional_edges` (which gives the empty list) and passing `None` lead to
   * the same builder calls, or the same error.
   */
  lemma OmittedConditionalEdgesActAsNone(
    nodes: seq<NodeConfig>, edges: seq<EdgeConfig>, tools: map<string, Callable>, conditions: map<string, Callable>)
    ensures BuilderCalls(DefineGraph(nodes, edges), tools, conditions) ==
      BuilderCalls(GraphDefinition(nodes, edges, None), tools, conditions)
  {
    assert ConditionalEdgesOf(DefineGraph(nodes, edges)) == ConditionalEdgesOf(GraphDefinition(nodes, edges, None));
  }

  /** Step 1 of `build_graph`: looks up each node's function in turn and records an `add_node` call for it. */
  method RecordNodes(registry: ToolRegistry, nodes: seq<NodeConfig>) returns (r: Result<seq<BuilderCall>, string>)
    ensures r == ResolvedNodes(nodes, registry.tools)
  {
    var calls: seq<BuilderCall> := [];
    var i := 0;
    while i < |nodes|
      invariant 0 <= i <= |nodes|
      invariant forall j :: 0 <= j < i ==> nodes[j].functionName in registry.tools
      invariant calls == NodeCalls(nodes[..i], registry.tools)
    {
      var node := nodes[i];
      var func := registry.GetTool(node.functionName);
      if func.Failure? {
        FirstUnknownToolIs(nodes, registry.tools, i);
        return Failure(func.error);
      }
      assert nodes[..i + 1][..i] == nodes[..i];
      calls := calls + [AddNode(node.id, func.value)];
      i := i + 1;
    }
    assert nodes[..i] == nodes;
    FirstUnknownToolIs(nodes, registry.tools, i);
    return Success(calls);
  }

  /** Step 2 of `build_graph`: records an `add_edge` call per edge, translating "START" and "END". */
  method RecordEdges(edges: seq<EdgeConfig>) returns (calls: seq<BuilderCall>)
    ensures calls == EdgeCalls(edges)
  {
    calls := [];
    var i := 0;
    while i < |edges|
      invariant 0 <= i <= |edges|
      invariant calls == EdgeCalls(edges[..i])
    {
      var edge := edges[i];
      var src := if edge.source == "START" then Start else Named(edge.source);
      var tgt := if edge.target == "END" then End else Named(edge.target);
      assert edges[..i + 1][..i] == edges[..i];
      calls := calls + [AddEdge(src, tgt)];
      i := i + 1;
    }
    assert edges[..i] == edges;
  }

  /** Step 3 of `build_graph`: looks up each condition in turn and records an `add_conditional_edges` call. */
  method RecordConditionalEdges(registry: ToolRegistry, ces: seq<ConditionalEdgeConfig>)
    returns (r: Result<seq<BuilderCall>, string>)
    ensures r == ResolvedConditionalEdges(ces, registry.conditions)
  {
    var calls: seq<BuilderCall> := [];
    var i := 0;
    while i < |ces|
      invariant 0 <= i <= |ces|
      invariant forall j :: 0 <= j < i ==> ces[j].conditionFunction in registry.conditions
      invariant calls == ConditionalCalls(ces[..i], registry.conditions)
    {
      var cond := ces[i];
      var conditionFunc := registry.GetCondition(cond.conditionFunction);
      if conditionFunc.Failure? {
        FirstUnknownConditionIs(ces, registry.conditions, i);
        return Failure(conditionFunc.error);
      }
      assert ces[..i + 1][..i] == ces[..i];
      calls := calls + [AddConditionalEdges(cond.source, conditionFunc.value, cond.mapping)];
      i := i + 1;
    }
    assert ces[..i] == ces;
    FirstUnknownConditionIs(ces, registry.conditions, i);
    return Success(calls);
  }

  /**
   * `build_graph`: adds the nodes, then the edges, then (when there are any) the
   * conditional edges, and compiles what it recorded. The first unknown name ends it
   * with the registry's error, before `compile` is reached.
   */
  method BuildGraph(registry: ToolRegistry, d: GraphDefinition, compile: seq<BuilderCall> -> Result<CompiledGraph, string>)
    returns (r: Result<CompiledGraph, string>)
    ensures r == BuildOutcome(d, registry.tools, registry.conditions, compile)
  {
    var nodeCalls := RecordNodes(registry, d.nodes);
    if nodeCalls.Failure? {
      return Failure(nodeCalls.error);
    }
    var edgeCalls := RecordEdges(d.edges);
    var conditionalCalls: Result<seq<BuilderCall>, string> := Success([]);
    if d.conditionalEdges.Some? && d.conditionalEdges.value != [] {
      conditionalCalls := RecordConditionalEdges(registry, d.conditionalEdges.value);
      if conditionalCalls.Failure? {
        return Failure(conditionalCalls.error);
      }
    }
    r := compile(nodeCalls.value + edgeCalls + conditionalCalls.value);
  }

  const GraphNotFound: string := "Graph not found"
  const SuccessLog: string := "Execution successful"

  /** A stored run: `final_state` and `error` are absent keys when `None`. */
  datatype RunRecord = RunRecord(status: string, finalState: Option<State>, error: Option<string>, logs: seq<string>)
  {
    /** A record is either completed (state, no error) or failed (error, no state), with the matching log line. */
    predicate WellFormed()
    {
      || (status == "completed" && finalState.Some? && error.None? && logs == [SuccessLog])
      || (status == "failed" && finalState.None? && error.Some? && logs == ["Error: " + error.value])
    }
  }

  /** The outcome a well-formed record stores. */
  function OutcomeOf(rec: RunRecord): Result<State, string>
    requires rec.WellFormed()
  {
    if rec.status == "completed" then Success(rec.finalState.value) else Failure(rec.error.value)
  }

  /** The record `run_graph` stores for an `invoke` outcome: well-formed, and it keeps the outcome intact. */
  function RecordOf(outcome: Result<State, string>): (rec: RunRecord)
    ensures rec.WellFormed()
    ensures rec.status == "completed" <==> outcome.Success?
    ensures OutcomeOf(rec) == outcome
  {
    match outcome
    case Success(result) => RunRecord("completed", Some(result), None, [SuccessLog])
    case Failure(message) => RunRecord("failed", None, Some(message), ["Error: " + message])
  }

  /** The two in-memory stores, `graphs_db` and `runs_db`, with the registry they compile against. */
  class GraphStore {
    const registry: ToolRegistry
    var graphsDb: map<string, CompiledGraph>
    var runsDb: map<string, RunRecord>

    /** Every stored run record has one of the two shapes. */
    ghost predicate Valid()
      reads this
    {
      forall id :: id in runsDb ==> runsDb[id].WellFormed()
    }

    /** Empty stores. */
    constructor (registry: ToolRegistry)
      ensures Valid()
      ensures this.registry == registry
      ensures graphsDb == map[] && runsDb == map[]
    {
      this.registry := registry;
      graphsDb := map[];
      runsDb := map[];
    }

    /**
     * `create_graph`: builds and compiles the definition and stores the result under
     * `graphId` (the id `uuid4` would produce). A failed build leaves both stores alone.
     */
    method CreateGraph(d: GraphDefinition, graphId: string, compile: seq<BuilderCall> -> Result<CompiledGraph, string>)
      returns (r: Result<string, string>)
      requires Valid()
      modifies this
      ensures Valid()
      ensures runsDb == old(runsDb)
      ensures var built := BuildOutcome(d, registry.tools, registry.conditions, compile);
        && (built.Failure? ==> r == Failure(built.error) && graphsDb == old(graphsDb))
        && (built.Success? ==> r == Success(graphId) && graphsDb == old(graphsDb)[graphId := built.value])
      ensures r.Success? && graphId !in old(graphsDb) ==>
        graphsDb.Keys == old(graphsDb).Keys + {graphId} &&
        forall id :: id in old(graphsDb) ==> graphsDb[id] == old(graphsDb)[id]
    {
      var compiled := BuildGraph(registry, d, compile);
      if compiled.Failure? {
        return Failure(compiled.error);
      }
      graphsDb := graphsDb[graphId := compiled.value];
      return Success(graphId);
    }

    /**
     * `run_graph`: an unknown graph id is the only error, and it changes nothing. Otherwise
     * the outcome of `invoke` (a final state or an error message) is stored under `runId`
     * (the id `uuid4` would produce) and `runId` is returned, whatever the outcome.
     */
    method RunGraph(graphId: string, initialState: State, runId: string,
                    invoke: (CompiledGraph, State) -> Result<State, string>)
      returns (r: Result<string, string>)
      requires Valid()
      modifies this
      ensures Valid()
      ensures graphsDb == old(graphsDb)
      ensures graphId !in graphsDb ==> r == Failure(GraphNotFound) && runsDb == old(runsDb)
      ensures graphId in graphsDb ==>
        r == Success(runId) &&
        runsDb == old(runsDb)[runId := RecordOf(invoke(graphsDb[graphId], initialState))]
      ensures r.Success? && runId !in old(runsDb) ==>
        runsDb.Keys == old(runsDb).Keys + {runId} &&
        forall id :: id in old(runsDb) ==> runsDb[id] == old(runsDb)[id]
    {
      if graphId !in graphsDb {
        return Failure(GraphNotFound);
      }
      var compiled := graphsDb[graphId];
      var result := invoke(compiled, initialState);
      match result {
        case Success(finalState) =>
          runsDb := runsDb[runId := RunRecord("completed", Some(finalState), None, [SuccessLog])];
        case Failure(message) =>
          runsDb := runsDb[runId := RunRecord("failed", None, Some(message), ["Error: " + message])];
      }
      return Success(runId);
    }
  }
}
