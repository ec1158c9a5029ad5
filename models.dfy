/**
 * The request and response records of the workflow service (code_review/app/models.py).
 * They are pure declarations: fields, and defaults for the fields that may be omitted.
 */
module Models {
  import opened Wrappers

  /** A JSON-like value held in a workflow state. Floating-point numbers are not modelled. */
  datatype Value =
    | Null
    | Bool(b: bool)
    | Int(i: int)
    | Str(s: string)
    | List(items: seq<Value>)
    | Dict(entries: map<string, Value>)

  /** The state threaded through a run: a dictionary from string keys to values. */
  type State = map<string, Value>

  /** An opaque reference to a Python callable (a node function or a condition function). */
  datatype Callable = Callable(handle: nat)

  /** A step of the graph: its id and the registry name of its node function. */
  datatype NodeConfig = NodeConfig(id: string, functionName: string)

  /** An unconditional edge; either side may be the reserved text "START" or "END". */
  datatype EdgeConfig = EdgeConfig(source: string, target: string)

  /**
   * A branching edge: the condition function's result is looked up in `mapping`.
   * Being a map, `mapping` gives every branch key at most one target; the insertion
   * order of the source's dictionary is not kept.
   */
  datatype ConditionalEdgeConfig =
    ConditionalEdgeConfig(source: string, conditionFunction: string, mapping: map<string, string>)

  /** A graph definition; `conditionalEdges` is optional and may be given as `None`. */
  datatype GraphDefinition = GraphDefinition(
    nodes: seq<NodeConfig>,
    edges: seq<EdgeConfig>,
    conditionalEdges: Option<seq<ConditionalEdgeConfig>>)

  /** The body of a run request: which stored graph to run, and on what initial state. */
  datatype RunRequest = RunRequest(graphId: string, initialState: State)

  /** The answer to a run request. */
  datatype RunResponse = RunResponse(runId: string, status: string, finalState: Option<State>, logs: seq<string>)

  /** The conditional edges a definition declares; an absent (`None`) list declares none. */
  function ConditionalEdgesOf(d: GraphDefinition): seq<ConditionalEdgeConfig>
  {
    match d.conditionalEdges
    case None => []
    case Some(list) => list
  }

  /** A definition built with `conditional_edges` omitted: the field takes its default, the empty list. */
  function DefineGraph(nodes: seq<NodeConfig>, edges: seq<EdgeConfig>): GraphDefinition
  {
    GraphDefinition(nodes, edges, Some([]))
  }

  /** A response built with `final_state` and `logs` omitted: no final state and no log lines. */
  function Respond(runId: string, status: string): RunResponse
  {
    RunResponse(runId, status, None, [])
  }
}
