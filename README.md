# Workflow graph engine: registry, graph translation and stores

This project models the core of a small workflow service. A caller declares a graph of named
steps: nodes, plain edges and conditional edges. The service turns the declaration into a
compiled graph from a graph library, stores it under an id, runs it on initial states, and
stores one outcome record per run.

Three parts are modelled:

- `Registry` (registry.py) is the process-wide table of node functions ("tools") and condition
  functions. It has two separate namespaces, registration overwrites, and looking up an
  unregistered name fails with a `ValueError` whose message names the missing entry. It is
  modelled as the class `ToolRegistry`, whose two map fields are updated in place.
- `Engine` (engine.py) has two parts.
  - `build_graph` translates a definition into calls on the library's graph builder, in three
    steps: add the nodes, add the edges, add the conditional edges. `build_graph` itself is
    modelled as `BuildGraph`, and each step is a method with one loop: `RecordNodes`,
    `RecordEdges`, `RecordConditionalEdges`. Each step is proved against a specification
    function: `ResolvedNodes`, `EdgeCalls`, `ResolvedConditionalEdges`, combined in
    `BuilderCalls`.
  - The class `GraphStore` holds the two in-memory dictionaries `graphs_db` and `runs_db`,
    and implements `create_graph` and `run_graph`.
- `Models` (models.py) gives the request and response records as datatypes, with their
  defaults.

The graph library is outside the model.

- Its builder is represented by the list of `BuilderCall`s made on it, in order.
- Its `compile()` is a function parameter from that list to either a compiled graph
  (an opaque handle) or an error message.
- Its `invoke()` is a function parameter from a compiled graph and a state to either a
  final state or an error message.
- Python callables are opaque handles (`Callable`).
- `uuid4()` is replaced by an id parameter.
- A raised exception is a `Failure` that carries `str(e)`.

The code itself checks only that every node function and every condition function is
registered. It does not check node ids, edges, reachability, dead ends, unmapped branch keys or
the traversal order. The library checks those, either in its builder methods as they are
called or inside `compile`/`invoke`, so none of them appear in the model.

Facts about the code that the model keeps:

- The code does not reject duplicate ids, unknown nodes or unreachable nodes itself. Whatever
  the library rejects is seen through the `compile` parameter's failure.
- The code replaces exactly two texts with the library's sentinels: an edge *source* of
  `"START"` and an edge *target* of `"END"`. Every other text is passed on unchanged, including a
  source `"END"` and a target `"START"`. The model writes the sentinels as `Start`/`End`, which
  differ from every `Named` text (see "## Left out" for what this leaves open).
- Conditional-edge mappings are passed on unchanged. A mapping target `"END"` therefore stays
  the plain text and is not turned into the END sentinel (`ConditionalCallsAt`).
- A failed run record holds `str(e)` and a single log line. It does not name the step that
  failed.
- `conditional_edges` may be `None` as well as omitted. Both cases, and the empty list, lead
  to no conditional-edge calls (`OmittedConditionalEdgesActAsNone`, `NoConditionalEdgesNoCalls`).
- A mapping is a dictionary, so every branch key has at most one target. `map<string, string>`
  gives this by construction.

## Model

| member | source | states |
|---|---|---|
| Registry.ToolRegistry.constructor | code_review/app/registry.py:4-6 | a new registry has an empty tool table and an empty condition table |
| Registry.ToolRegistry.RegisterTool | code_review/app/registry.py:8-10 | the tool table gains or replaces the entry for `name` (last registration wins); every other tool entry and the whole condition table are unchanged |
| Registry.ToolRegistry.RegisterCondition | code_review/app/registry.py:12-14 | the condition table gains or replaces the entry for `name`; every other condition entry and the whole tool table are unchanged |
| Registry.ToolRegistry.GetTool | code_review/app/registry.py:16-19 | succeeds exactly when `name` is a registered tool, returning the registered function; otherwise fails with "Tool '<name>' not found in registry."; reads only |
| Registry.ToolRegistry.GetCondition | code_review/app/registry.py:21-24 | succeeds exactly when `name` is a registered condition, returning it; otherwise fails with "Condition '<name>' not found in registry."; reads only |
| Registry.NotFoundMessagesIdentify | code_review/app/registry.py:16-23 | equal not-found messages come from equal names, and a tool message never equals a condition message |
| Registry.LastRegistrationWins | code_review/app/registry.py:8-24 | after registering f then g as tool `n` and c as condition `n`, the tool lookup gives g and the condition lookup gives c; a name registered only as a condition is still an unknown tool |
| Engine.SourceEndpoint | code_review/app/engine.py:26 | an edge source becomes START exactly when it is "START", never END, and keeps its text otherwise (so "END" passes through) |
| Engine.TargetEndpoint | code_review/app/engine.py:27 | an edge target becomes END exactly when it is "END", never START, and keeps its text otherwise (so "START" passes through) |
| Engine.FirstUnknownTool | code_review/app/engine.py:19-21 | the index of the first node whose function is unregistered: every earlier one is registered and this one is not, or all are registered |
| Engine.FirstUnknownCondition | code_review/app/engine.py:32-33 | the index of the first conditional edge whose condition is unregistered, with the same characterisation |
| Engine.NodeCallsAt | code_review/app/engine.py:19-22 | the i-th `add_node` call is the i-th declared node's id with its registered function |
| Engine.EdgeCallsAt | code_review/app/engine.py:25-28 | the i-th `add_edge` call is the i-th edge with source and target translated |
| Engine.ConditionalCallsAt | code_review/app/engine.py:32-38 | the i-th `add_conditional_edges` call carries the i-th edge's source and mapping unchanged, and its registered condition |
| Engine.BuilderCallsSucceedIff | code_review/app/engine.py:19-38 | name resolution succeeds if and only if every node function and every condition function is registered |
| Engine.FirstUnknownToolFails | code_review/app/engine.py:19-21 | the first node in declaration order with an unregistered function decides the error, whatever the conditions |
| Engine.FirstUnknownConditionFails | code_review/app/engine.py:31-33 | with all node functions registered, the first conditional edge with an unregistered condition decides the error |
| Engine.BuilderCallsCount | code_review/app/engine.py:19-38 | on success there is exactly one builder call per node, per edge and per conditional edge |
| Engine.BuilderCallsNodesFirst | code_review/app/engine.py:19-22 | on success the calls begin with every node in declaration order, each paired with its registered function |
| Engine.BuilderCallsEdgesNext | code_review/app/engine.py:25-28 | on success the node calls are followed by every edge in order, with "START"/"END" translated |
| Engine.BuilderCallsConditionalLast | code_review/app/engine.py:31-38 | on success the calls end with every conditional edge in order, with its registered condition and its source and mapping unchanged |
| Engine.OmittedConditionalEdgesActAsNone | code_review/app/models.py:22 | a definition with `conditional_edges` omitted (defaulting to the empty list) yields the same builder calls, or the same error, as one with `None` |
| Engine.NoConditionalEdgesNoCalls | code_review/app/engine.py:31 | when conditional edges are `None` or empty, resolution succeeds exactly when all node functions are registered, and only node and edge calls are made |
| Engine.RecordNodes | code_review/app/engine.py:19-22 | the node loop yields the `add_node` calls for all nodes, or the not-found error of the first unregistered function |
| Engine.RecordEdges | code_review/app/engine.py:25-28 | the edge loop yields one translated `add_edge` call per edge, in order |
| Engine.RecordConditionalEdges | code_review/app/engine.py:32-38 | the conditional-edge loop yields its calls, or the not-found error of the first unregistered condition |
| Engine.BuildGraph | code_review/app/engine.py:11-41 | `build_graph` fails with the first resolution error before anything is compiled; otherwise its result is `compile` applied to the recorded calls |
| Engine.RecordOf | code_review/app/engine.py:62-76 | a run record is well-formed (completed: final state, no error, log "Execution successful"; failed: error, no final state, log "Error: " + message), is completed exactly when `invoke` succeeded, and gives back the `invoke` outcome |
| Engine.GraphStore.constructor | code_review/app/engine.py:7-9 | both stores start empty, and every stored run record is well-formed |
| Engine.GraphStore.CreateGraph | code_review/app/engine.py:43-50 | a failed build leaves `graphs_db` unchanged and returns its error; a successful one stores the compiled graph under the returned id, with earlier entries kept when the id is fresh; `runs_db` is never touched |
| Engine.GraphStore.RunGraph | code_review/app/engine.py:52-78 | an unknown graph id fails with "Graph not found" and changes neither store; otherwise the id is returned whatever `invoke` does, and exactly one well-formed record is stored under it (earlier records kept when the id is fresh); `graphs_db` is never touched |

## Left out

- The graph library's `StateGraph(dict)`, `compile()` and `invoke()` (engine.py:16, 41, 64).
  They are function parameters. Node-id checks, reachability, branch selection and state
  merging happen inside them and are not modelled.
- Errors the library's `add_node`/`add_edge`/`add_conditional_edges` may raise themselves,
  for example for a repeated node id. The builder is only a record of calls, so these errors
  are seen only through the `compile` parameter's failure.
- Engine.BuildGraph: in the program, a builder error raised during the loops (engine.py:22, 28,
  34) comes before any lookup error for a later node or condition. In the model such an error
  shows up only through `compile`, after every lookup has succeeded. For nodes `[A:f, A:f,
  B:missing]` with `f` registered, the program reports the library's duplicate-id error and the
  model reports "Tool 'missing' not found in registry.".
- Engine.FirstUnknownToolFails: the not-found error it states is the program's error only when
  no `add_node` call for an earlier node raised, as described for Engine.BuildGraph.
- Engine.FirstUnknownConditionFails: the not-found error it states is the program's error only
  when no earlier `add_node`, `add_edge` or `add_conditional_edges` call raised, as described
  for Engine.BuildGraph.
- Engine.SourceEndpoint: the library's START sentinel is itself a text (`"__start__"` in
  that library's own constants, which are not part of this model). The model keeps `Start`
  apart from every `Named` text. So an edge source written as `"__start__"` is recorded as
  `Named("__start__")`, whereas the program hands the library the same value as for `"START"`.
- Engine.TargetEndpoint: in the same way, the END sentinel is the text `"__end__"` in the
  library. An edge target `"__end__"`, or a conditional mapping target `"__end__"`, is recorded
  as a plain name in the model, whereas the program hands the library the END sentinel itself.
- The insertion order of a conditional edge's `mapping` dictionary. `map<string, string>` does
  not keep it. The mapping is passed on unchanged, so nothing in the model depends on it.
- `uuid.uuid4()`. The new graph id and run id are parameters, and uniqueness is a condition
  in the contracts, not a guarantee.
- Python exceptions that do not derive from `Exception`, which `run_graph`'s `except` would not
  catch. The model treats every `invoke` failure as caught.
- The step implementations in code_review/app/tools/code_review.py: language-model calls,
  sleeping, environment loading. External I/O.
- The HTTP layer in code_review/app/main.py: status codes, response assembly, health check.
- The client script code_review/test_client.py.
- Floating-point state values. `Value` has null, booleans, integers, strings, lists and
  dictionaries only.
- Concurrent access to the module-level registry and stores. The model is sequential.
