# Baseline analyzers: money-flow graph builder and pipeline, in Dafny

This project models two parts of the baseline blockchain analyzers and proves
properties about them.

- **The money-flow graph builder** (`graph/builder.py`). It has four
  operations:
  - build a directed graph from aggregated money-flow records, one
    `add_edge` per flow;
  - annotate every node with `total_volume_usd`;
  - extract the sorted, distinct endpoints of the flows;
  - index every edge's flat flow record under both of its endpoints.
- **The pipeline orchestrator** (`pipeline/baseline.py`,
  `BaselineAnalyzersPipeline`). It runs these steps in order:
  1. load transfers and fail fast if there are none;
  2. compute the transfer aggregates;
  3. load money flows and fail fast if there are none;
  4. extract the addresses and load their labels;
  5. build the graph;
  6. optionally run feature analysis, which fails on an empty result and
     otherwise writes the features;
  7. optionally run pattern analysis, which writes only a non-empty result.

## How the model is built

- `records.dfy` (module `Records`): the record shapes.
  - A flow's `amount_usd_sum` and `tx_count` are `Option`s, because the
    builder reads them with `dict.get(key, 0)`.
  - Amounts are exact `real`s.
- `address_order.dfy` (module `AddressOrder`): Python's `<` on strings.
  - It compares code points lexicographically and puts a proper prefix first.
  - It proves this is a strict total order.
  - `SortedSeq` specifies `sorted(list(s))` for a set of strings.
  - `SortAddresses` computes it with a selection loop.
- `flow_graph.dfy` (module `FlowGraph`): the part of a networkx `DiGraph`
  the builder uses. Class `DiGraph` holds these fields:
  - the node list, in insertion order;
  - the first-insertion order of the edges;
  - the edge-attribute map, at most one edge per ordered pair;
  - the `total_volume_usd` node attribute.

  Its methods `AddEdge` and `SetNodeVolumes` update those fields in place.
  Each method is specified by a function on the value `GraphView`.
  `EdgeList` is the order `G.edges()` yields: nodes in insertion order, and
  each node's out-edges in the order they were first added.
- `graph_spec.dfy` (module `GraphSpec`): what the builder computes, as
  functions of its inputs. These are `BuiltGraph`, `Endpoints`,
  `NodeVolume`/`WithNodeVolumes` and `IncidentFlows`. The module also holds
  the lemmas about them.
- `graph_builder.dfy` (module `GraphBuilder`): the four builder functions as
  imperative methods with loops, each proved against `GraphSpec`.
- `pipeline.dfy` (module `Pipeline`): the orchestrator and its
  collaborators.
  - The storage adapter and the two analyzers are classes. What they answer
    is a function-valued field.
  - Each of their calls is appended, with its arguments, to a shared ghost
    `Trace`.
  - `compute_transfer_aggregates` is a function-valued field of the pipeline.
  - `RunSpec(env, request)` gives the calls a run makes, in order, and how
    it ends. `Run`, `RunFeaturesOnly` and `RunPatternsOnly` are proved
    against it.
  - An analyzer's exception is the outcome `AnalyzerRaised`.
  - The three `ValueError`s that `run` raises are the outcomes
    `NoTransfers`, `NoMoneyFlows` and `NoFeatures`.
- `pipeline_properties.dfy` (module `PipelineProperties`): the properties of
  `run`, proved about `RunSpec`.
  - the two fail-fast guards;
  - the arguments each collaborator receives;
  - exactly when each write happens and what it carries;
  - call order;
  - the counts;
  - the phase switches;
  - no rollback after a failed pattern phase.

The code raises plain `ValueError`, and the model has one error constructor
per distinct `ValueError` message. The code converts amounts with `float`,
and the model uses exact `real`s (see Left out).

## Model

| member | source | states |
|---|---|---|
| AddressOrder.BelowIrreflexive | src/chainswarm_analyzers_baseline/graph/builder.py:50 | no string is below itself under Python's string `<` |
| AddressOrder.BelowTransitive | src/chainswarm_analyzers_baseline/graph/builder.py:50 | Python's string `<` is transitive |
| AddressOrder.BelowTotal | src/chainswarm_analyzers_baseline/graph/builder.py:50 | of two different strings, one is below the other |
| AddressOrder.LeastExists | src/chainswarm_analyzers_baseline/graph/builder.py:50 | every non-empty set of addresses has a least element |
| AddressOrder.StrictlyIncreasingUnique | src/chainswarm_analyzers_baseline/graph/builder.py:50 | two strictly increasing lists with the same elements are equal, so the sorted output is fixed by the set |
| AddressOrder.SortedSeqSorts | src/chainswarm_analyzers_baseline/graph/builder.py:50 | the specification of `sorted(list(s))` is strictly increasing and lists exactly the elements of `s` |
| AddressOrder.SortAddresses | src/chainswarm_analyzers_baseline/graph/builder.py:50 | the result is strictly increasing, holds exactly the set's elements, and equals `SortedSeq(s)` |
| FlowGraph.WithNode | src/chainswarm_analyzers_baseline/graph/builder.py:17-23 | adding an endpoint makes the node set gain exactly that node, and a duplicate-free list stays duplicate-free |
| FlowGraph.WithNodeKeepsOrder | src/chainswarm_analyzers_baseline/graph/builder.py:17-23 | nodes keep their insertion order: the old node list is a prefix of the new one, and adding a node already present leaves the list unchanged |
| FlowGraph.AddEdgeViewKeeps | src/chainswarm_analyzers_baseline/graph/builder.py:17-23 | `add_edge` keeps a graph consistent and adds exactly its two endpoints to the node set; on a consistent graph a pair that is already an edge keeps its place: the node list and the edge order are unchanged |
| FlowGraph.SetVolumeView | src/chainswarm_analyzers_baseline/graph/builder.py:42 | `set_node_attributes` sets the attribute on exactly the given keys that are nodes, keeps the other nodes' values, and changes no node or edge |
| FlowGraph.SuccessorsOf | src/chainswarm_analyzers_baseline/graph/builder.py:56 | a node's successor list holds exactly its out-edges, none twice |
| FlowGraph.GroupedOf | src/chainswarm_analyzers_baseline/graph/builder.py:56 | grouping edges by source yields exactly the edges whose source is listed, none twice |
| FlowGraph.EdgeListOf | src/chainswarm_analyzers_baseline/graph/builder.py:56 | `G.edges()` on a consistent graph yields every edge exactly once |
| FlowGraph.DiGraph.constructor | src/chainswarm_analyzers_baseline/graph/builder.py:9 | `nx.DiGraph()` has no nodes, no edges and no attributes |
| FlowGraph.DiGraph.AddEdge | src/chainswarm_analyzers_baseline/graph/builder.py:17-23 | the new state is `AddEdgeView` of the old one and stays consistent |
| FlowGraph.DiGraph.SetNodeVolumes | src/chainswarm_analyzers_baseline/graph/builder.py:42 | the new state is `SetVolumeView` of the old one and stays consistent |
| GraphSpec.BuiltGraphWellFormed | src/chainswarm_analyzers_baseline/graph/builder.py:8-26 | the built graph is consistent: nodes and edge order duplicate-free, every edge's endpoints are nodes |
| GraphSpec.BuiltGraphStep | src/chainswarm_analyzers_baseline/graph/builder.py:11-23 | each further flow is one more `add_edge` with that flow's attributes |
| GraphSpec.EndpointsAppend | src/chainswarm_analyzers_baseline/graph/builder.py:47-49 | one more flow adds exactly its from- and to-address to the endpoints, and its pair to the pairs |
| GraphSpec.EndpointsStep | src/chainswarm_analyzers_baseline/graph/builder.py:47-49 | the endpoints of one more flow are the old ones plus its two addresses |
| GraphSpec.EndpointsIgnoreOrder | src/chainswarm_analyzers_baseline/graph/builder.py:45-50 | a permutation of the flows gives the same endpoints and the same sorted addresses |
| GraphSpec.BuiltGraphShape | src/chainswarm_analyzers_baseline/graph/builder.py:8-26 | the node set is exactly the flows' endpoints, the edge keys exactly their (from, to) pairs, and no node has a volume yet |
| GraphSpec.BuiltGraphOfNoFlows | src/chainswarm_analyzers_baseline/graph/builder.py:8-26 | no flows give a graph with 0 nodes and 0 edges |
| GraphSpec.LastWriteWins | src/chainswarm_analyzers_baseline/graph/builder.py:11-23 | a pair's edge carries the attributes of the last flow with that pair |
| GraphSpec.EdgeFidelity | src/chainswarm_analyzers_baseline/graph/builder.py:14-22 | every edge's attributes are those of one of its flows (missing amount or count read as 0), and `weight` equals `amount_usd_sum` |
| GraphSpec.PreAggregatedFlows | src/chainswarm_analyzers_baseline/graph/builder.py:11-23 | with no pair repeated, there is one edge per flow and each edge carries its own flow's attributes |
| GraphSpec.PreAggregatedEdgeCount | src/chainswarm_analyzers_baseline/graph/builder.py:11-23 | with no pair repeated, the edge count equals the number of flows |
| GraphSpec.WithNodeVolumes | src/chainswarm_analyzers_baseline/graph/builder.py:29-42 | annotating volumes keeps a graph consistent |
| GraphSpec.NodeVolumesIdempotent | src/chainswarm_analyzers_baseline/graph/builder.py:29-42 | annotating volumes a second time changes nothing |
| GraphSpec.VolumeHandshake | src/chainswarm_analyzers_baseline/graph/builder.py:31-40 | summed over all nodes, in-volume plus out-volume is twice the total edge amount |
| GraphSpec.VolumeConservation | src/chainswarm_analyzers_baseline/graph/builder.py:29-42 | on a consistent graph the node volumes add up to twice the total edge amount, a self-loop counting at both ends |
| GraphSpec.IncidentFlowsStep | src/chainswarm_analyzers_baseline/graph/builder.py:56-64 | visiting one more edge appends its record to its source's list, then to its target's list, and to no other list |
| GraphSpec.IncidentFlowsOfIsolated | src/chainswarm_analyzers_baseline/graph/builder.py:53-66 | the specification's list for an address incident to no edge is empty |
| GraphSpec.IndexMultiplicity | src/chainswarm_analyzers_baseline/graph/builder.py:56-64 | an edge's record occurs in an address's list once per end of the edge at that address: once in each endpoint's list, twice for a self-loop, never elsewhere |
| GraphSpec.RecordsOfOtherEdges | src/chainswarm_analyzers_baseline/graph/builder.py:56-64 | an edge that was not visited contributes no record |
| GraphSpec.IndexSoundness | src/chainswarm_analyzers_baseline/graph/builder.py:56-64 | every record in a list is the record of a visited edge that has that address at one of its ends |
| GraphSpec.LengthHandshake | src/chainswarm_analyzers_baseline/graph/builder.py:56-64 | the lists' lengths add up to twice the number of edges visited |
| GraphSpec.IndexTotalLength | src/chainswarm_analyzers_baseline/graph/builder.py:53-66 | over a consistent graph the index lists hold twice as many records as there are edges |
| GraphSpec.EdgeListLength | src/chainswarm_analyzers_baseline/graph/builder.py:55 | `G.edges()` of a consistent graph has exactly one entry per edge |
| GraphSpec.IndexRecordCount | src/chainswarm_analyzers_baseline/graph/builder.py:53-66 | for the dictionary `build_flows_index_by_address` returns (its keys the addresses incident to an edge, each list that address's records, as `GraphBuilder.BuildFlowsIndexByAddress` ensures), the list lengths summed over its keys, listed once each in any order, are twice the number of edges |
| GraphSpec.VolumeMatchesIndex | src/chainswarm_analyzers_baseline/graph/builder.py:32-40 | a node's in- plus out-volume equals the sum of the amounts in its index list |
| GraphBuilder.BuildMoneyFlowGraph | src/chainswarm_analyzers_baseline/graph/builder.py:8-26 | returns a fresh consistent graph equal to `BuiltGraph(flows)` |
| GraphBuilder.AddNodeVolumeAttributes | src/chainswarm_analyzers_baseline/graph/builder.py:29-42 | afterwards every node's `total_volume_usd` is its in- plus out-edge amount; nodes, edges and edge order are unchanged |
| GraphBuilder.StoredVolumes | src/chainswarm_analyzers_baseline/graph/builder.py:40-42 | storing every node's computed volume gives exactly `WithNodeVolumes` of the graph |
| GraphBuilder.ExtractAddressesFromFlows | src/chainswarm_analyzers_baseline/graph/builder.py:45-50 | returns `SortedSeq(Endpoints(flows))`: strictly increasing and exactly the endpoints, by `SortedSeqSorts` |
| GraphBuilder.AppendTo | src/chainswarm_analyzers_baseline/graph/builder.py:63-64 | appending to a `defaultdict(list)` creates the key when missing, extends only that key's list and keeps every other list |
| GraphBuilder.IndexStep | src/chainswarm_analyzers_baseline/graph/builder.py:56-64 | one loop step keeps the index equal to the specification over the edges visited so far |
| GraphBuilder.IndexStepAt | src/chainswarm_analyzers_baseline/graph/builder.py:63-64 | one loop step keeps one address's list equal to the specification |
| GraphBuilder.BuildFlowsIndexByAddress | src/chainswarm_analyzers_baseline/graph/builder.py:53-66 | the keys are exactly the addresses incident to an edge; each list is the records in `G.edges()` order; every edge's record is in both endpoints' lists; every record belongs to a real edge at that address |
| Pipeline.StorageAdapter.ReadTransfers | src/chainswarm_analyzers_baseline/pipeline/baseline.py:72 | answers the adapter's transfers for the range and records the call |
| Pipeline.StorageAdapter.ReadMoneyFlows | src/chainswarm_analyzers_baseline/pipeline/baseline.py:83 | answers the adapter's money flows for the range and records the call |
| Pipeline.StorageAdapter.ReadAddressLabels | src/chainswarm_analyzers_baseline/pipeline/baseline.py:93 | answers the labels for the addresses and records the call |
| Pipeline.StorageAdapter.WriteFeatures | src/chainswarm_analyzers_baseline/pipeline/baseline.py:184-188 | records the write with its features, window and date |
| Pipeline.StorageAdapter.WritePatterns | src/chainswarm_analyzers_baseline/pipeline/baseline.py:211-215 | records the write with its patterns, window and date |
| Pipeline.FeatureAnalyzer.Analyze | src/chainswarm_analyzers_baseline/pipeline/baseline.py:15-22 | answers (or raises) for the graph, labels and aggregates, and records the call with the graph's state |
| Pipeline.PatternAnalyzer.Analyze | src/chainswarm_analyzers_baseline/pipeline/baseline.py:25-33 | answers (or raises) for the flows, labels, window and date, and records the call |
| Pipeline.BaselineAnalyzersPipeline.constructor | src/chainswarm_analyzers_baseline/pipeline/baseline.py:37-47 | stores the adapter, both analyzers and the network |
| Pipeline.BaselineAnalyzersPipeline.Run | src/chainswarm_analyzers_baseline/pipeline/baseline.py:49-128 | the calls made are exactly `RunSpec(...).events`, appended to the trace; the result is `RunSpec`'s outcome reported with the elapsed time; both phase switches default to on |
| Pipeline.BaselineAnalyzersPipeline.RunFeaturesOnly | src/chainswarm_analyzers_baseline/pipeline/baseline.py:130-145 | makes the calls of `run` with patterns off and returns its `features_count` or its error |
| Pipeline.BaselineAnalyzersPipeline.RunPatternsOnly | src/chainswarm_analyzers_baseline/pipeline/baseline.py:147-162 | makes the calls of `run` with features off and returns its `patterns_count` or its error |
| Pipeline.BaselineAnalyzersPipeline.RunFeatureAnalysis | src/chainswarm_analyzers_baseline/pipeline/baseline.py:164-191 | analyze; on an exception or an empty mapping, fail with no write; otherwise write the mapping's values and return their count |
| Pipeline.BaselineAnalyzersPipeline.RunPatternAnalysis | src/chainswarm_analyzers_baseline/pipeline/baseline.py:193-220 | analyze; on an exception fail; write only a non-empty list; return its length |
| PipelineProperties.ValuesOf | src/chainswarm_analyzers_baseline/pipeline/baseline.py:178-181 | `list(d.values())` has one entry per (address, features) pair of the mapping, so it is empty exactly when the mapping is |
| PipelineProperties.LoadedRun | src/chainswarm_analyzers_baseline/pipeline/baseline.py:72-115 | once both reads return something, the run is the three loads followed by the two phases |
| PipelineProperties.StagesOfRequest | src/chainswarm_analyzers_baseline/pipeline/baseline.py:100-115 | the phases' calls, stated directly in terms of the analyzers' answers |
| PipelineProperties.RunCalls | src/chainswarm_analyzers_baseline/pipeline/baseline.py:49-128 | the whole call record: one read when there are no transfers, two when there are no money flows, otherwise three loads, the feature calls, then pattern calls only if the feature phase succeeded or was off |
| PipelineProperties.RunOutcome | src/chainswarm_analyzers_baseline/pipeline/baseline.py:72-128 | fails with no transfers exactly when the transfer read is empty; with no money flows exactly when only that read is; with no features exactly when the feature phase runs and gets an empty mapping; succeeds exactly when loaded and both phases succeed, with counts equal to the answers' sizes or 0 for a phase that is off |
| PipelineProperties.RunAnalyzerInputs | src/chainswarm_analyzers_baseline/pipeline/baseline.py:89-115 | labels are asked for the strictly increasing list of exactly the flows' endpoints; the feature analyzer gets the graph built from the flows, the labels and the aggregates; the pattern analyzer gets the raw flows |
| PipelineProperties.CallsInputs | src/chainswarm_analyzers_baseline/pipeline/baseline.py:89-115 | every call in the flat call record carries the arguments derived from the request |
| PipelineProperties.RunWrites | src/chainswarm_analyzers_baseline/pipeline/baseline.py:174-220 | features are written exactly when that phase runs and gets a non-empty mapping, and the write carries its values, window and date; patterns are written exactly when that phase is reached and gets a non-empty list, and the write carries that list |
| PipelineProperties.CallsWrites | src/chainswarm_analyzers_baseline/pipeline/baseline.py:174-220 | the same two write conditions over the flat call record |
| PipelineProperties.RunOrder | src/chainswarm_analyzers_baseline/pipeline/baseline.py:100-115 | the three loads come first, and no feature call follows a pattern call |
| PipelineProperties.CallsOrder | src/chainswarm_analyzers_baseline/pipeline/baseline.py:100-115 | the same order over the flat call record |
| PipelineProperties.PhasesInOrder | src/chainswarm_analyzers_baseline/pipeline/baseline.py:100-115 | loads, then feature calls, then pattern calls, put in sequence, keep that order |
| PipelineProperties.CallsOfPhases | src/chainswarm_analyzers_baseline/pipeline/baseline.py:100-115 | a feature call happens only with the phase on and the inputs loaded; a pattern call only with its phase on after a successful or skipped feature phase |
| PipelineProperties.RunSwitches | src/chainswarm_analyzers_baseline/pipeline/baseline.py:68-115 | a phase that is off makes no call and counts 0; with both off nothing is written and a loaded run reports (0, 0) |
| PipelineProperties.RunKeepsFeatureWrite | src/chainswarm_analyzers_baseline/pipeline/baseline.py:100-115 | when the pattern analyzer raises after the features were written, the run fails with that exception and the feature write stays |
| PipelineProperties.RunEmptyResults | src/chainswarm_analyzers_baseline/pipeline/baseline.py:178-220 | an empty feature mapping fails the run before any write and before pattern analysis; an empty pattern list is no error, writes nothing and counts 0 |

## Left out

- Floating point: amounts are exact `real`s. The `float(...)` conversion and the rounding of float sums are not modelled.
- A flow whose `amount_usd_sum` or `tx_count` is present but not convertible (`float(None)`, a non-numeric string) makes `float`/`int` raise. The model only covers a present real amount, a present int count, or a missing key. A present non-integral count, which `int(...)` truncates toward zero (`int(2.7) == 2`), is not modelled.
- The order in which `add_node_volume_attributes` visits in- and out-edges: the sums are exact, so the model sums over `G.edges()` order.
- Key order of the dictionary `build_flows_index_by_address` returns: the index is a `map`.
- Node and edge attributes other than `weight`, `amount_usd_sum`, `tx_count` and `total_volume_usd`, and `number_of_nodes`/`number_of_edges` beyond the sizes of the node list and edge map.
- Logging, including the `network` field, which `run` uses only in log lines.
- `time.time()`: `Run` takes the two clock readings as parameters `startTime` and `endTime`.
- The concrete collaborators (`ParquetAdapter`, `ClickHouseAdapter`, `AddressFeatureAnalyzer`, `StructuralPatternAnalyzer`, `SettingsLoader`) and the body of `compute_transfer_aggregates`. They are functions given to the model, and `create_pipeline` (pure object wiring) is not part of this model.
- Exceptions from the storage adapter and from `compute_transfer_aggregates`. Only the analyzers' exceptions are modelled, as `AnalyzerRaised`.
- Pipeline.FeatureAnalyzer.Analyze: the analyzers are not allowed to change their arguments. That covers the graph, and `address_labels`, which both analyzers receive as the same dict. The model records the graph's state at the feature call and hands the pattern analyzer the labels as they were read.
- The feature analyzer's dictionary (`FeatureDict`) is a list of (address, features) pairs, and distinct addresses are not required of it; `run` only counts and forwards its values, so a duplicate key changes nothing the model states.
- The feature records and pattern records are opaque string-keyed payloads; their contents are not interpreted.
