# Paraconsistent-Lib core, modelled in Dafny

This project models the core of Paraconsistent-Lib. The library evaluates
paraconsistent annotated logic (the two-valued annotation: a favourable evidence
mu and an unfavourable evidence lambda, both in [0,1]). It models three parts:

- **The signal network.** A `Network_Manager` registers nodes, connects them and
  propagates signals along a topological order. The nodes are input, output and
  wiring nodes. Output nodes run operations, and operations run calculations. The
  signals are simple, complete and classified paraconsistent signals.
- **The block DSL.** A `ParaconsistentBlock` computes the full record of degrees,
  evidences and a region label from (mu, lambda). A `BlockGraph` runs blocks in
  dependency order and feeds their fields into one another. Field expressions
  (`Expr`, `FieldRef`, `PortRef`, `ConfigRef`) build the connections with `>>`.
- **The network-backed block and the engine.** A network-backed
  `ParaconsistentBlock` wires four nodes into a chain. The stateless engine
  (`ParaconsistentEngine`) computes the same kind of record.

Arithmetic is over Dafny's `real`. Python attribute access on the wrong kind of
signal raises AttributeError; the model makes that an explicit `Fault` outcome.
The square root and the helper modules the engine imports are not part of this
model, so they are function parameters with the properties the code relies on
(non-negative, clamping).

The files follow the program's structure:

| file | module | models |
|---|---|---|
| wrappers.dfy | Wrappers | `Option` and `Result` |
| realmath.dfy | RealMath | `clamp01`, absolute value, sums and means |
| signals.dfy | Signals | the three signal classes |
| calculations.dfy | Calculations | each calculation's formulas and its state as a value |
| calculation_objects.dfy | CalculationObjects | the calculation classes, whose methods update fields |
| operations.dfy | Operations | the eight operations |
| node_states.dfy | NodeStates | a node's state and its operations as values |
| nodes.dfy | Nodes | `InputNode`, `OutputNode`, `WiringNode` as classes |
| digraph.dfy | Digraphs | paths, cycles, topological orders, counting facts |
| network.dfy | Network | `Network_Manager` with Kahn's algorithm and `propagate_all` |
| engine.dfy | Engine | `ParaconsistentEngine` |
| block.dfy | Block | the block of `paraconsistent/block.py` |
| block_graph.dfy | BlockGraphs | `BlockGraph` of `core/graph.py` |
| wiring.dfy | Wiring | `dsl_refs.py` |
| net_block.dfy | NetBlock | `blocks/paraconsistent_block.py` and `BlockWithSchema` |

Design points, where the model follows the code:

- **No bridge node for `>>`.** Writing `expr >> field` registers a `Connection`
  in the `BlockGraph` of the first origin's block; no node is created. The
  description of the library speaks of a synthesized bridge node. The model follows
  the code.
- **Dependencies outside the graph.** `_topo_blocks` counts the dependencies of
  each block. A connection whose source block is not one of the graph's blocks
  leaves its destination's count above 0 forever, so `run` reports a cycle
  (ValueError) although there is none. `BlockGraph.TopoBlocks` and
  `BlockGraph.Schedule` state exactly this alternative.
- **Registering a node with a blank id.** `add_node` calls `set_id` on such a
  node. Only `WiringNode` defines it, so for an `InputNode` or `OutputNode` the
  call raises AttributeError after the id counter has moved. The model keeps this.
- **The "input" port.** A `PortRef` for port "input" can never be written by
  attribute, because the schema only knows "in". The block's `input` property
  hands out the port "in".

## Model

| member | source | states |
|---|---|---|
| RealMath.Clamp01 | src/mrn/paraconsistent/block.py:9-10 | the result lies in [0,1], equals x inside [0,1], and is 0 below and 1 above |
| RealMath.Clamp01IsMaxMin | src/mrn/calculations/paraconsistent_classifier_calculation.py:16-19 | `max(0.0, min(1.0, x))` of the classifier calculation is the same function as `clamp01` |
| RealMath.SumBounds | src/mrn/calculations/average_aggregation_simple_paraconsistent_calculation.py:20-21 | a sum of n values in [lo,hi] lies in [n·lo, n·hi] |
| RealMath.MeanBounds | src/mrn/calculations/average_aggregation_simple_paraconsistent_calculation.py:19-21 | the mean of a non-empty list of values in [lo,hi] lies in [lo,hi] |
| Signals.Clone | src/mrn/signals/simple_paraconsistent_signal.py:17-18 | a clone is field-for-field the original |
| Signals.ToDict | src/mrn/signals/complete_paraconsistent_signal.py:27-38 | each kind's dictionary has exactly its fixed keys, with the type tag, the source, mu, lambda and the certainty mu − lam where the kind has them |
| Signals.DictRoundTrip | src/mrn/signals/classified_paraconsistent_signal.py:20-25 | `to_dict` loses nothing: the signal is recovered from its dictionary, for all three kinds |
| Signals.CloneIndistinguishable | src/mrn/signals/complete_paraconsistent_signal.py:16-25 | a clone has the original's certainty, emptiness and dictionary |
| Signals.CompleteEmptinessIgnoresDerived | src/mrn/signals/complete_paraconsistent_signal.py:19-20 | a complete signal's emptiness depends only on mu and lam |
| Signals.EmptinessAndCertainty | src/mrn/signals/classified_paraconsistent_signal.py:11-15 | an empty simple signal has certainty 0; a classified signal is empty iff its label is blank or its certainty is 0 |
| Signals.MuAttr | src/mrn/signals/simple_paraconsistent_signal.py:7-8 | `.mu` is present exactly on simple and complete signals and then is their mu; on a classified signal it is an AttributeError |
| Signals.LamAttr | src/mrn/signals/simple_paraconsistent_signal.py:7-8 | `.lam` is present exactly on simple and complete signals and then is their lam |
| Signals.GcAttr | src/mrn/signals/complete_paraconsistent_signal.py:9 | `.gc` is present exactly on complete signals |
| Calculations.Expand | src/mrn/calculations/simple_to_complete_paraconsistent_calculation.py:9-19 | the complete signal has gc = mu − lam, gct = mu + lam − 1, gcr = ±(1 − distance) with its sign following gc and bounded by 1, mer = (gcr + 1)/2 and phie = 1 − abs(gct) |
| Calculations.ExpandBounds | src/mrn/calculations/paraconsistent_signal_parser_calculation.py:6-17 | for evidences in [0,1], gc and gct lie in [-1,1] and phie in [0,1] |
| Calculations.ParseSignal | src/mrn/calculations/paraconsistent_signal_parser_calculation.py:6-17 | the parser succeeds iff the signal has mu and lam, and returns the expanded complete signal |
| Calculations.ThresholdClassify | src/mrn/calculations/threshold_classifier_calculation.py:10-14 | defined iff the signal is complete; label "V" iff gc > threshold and "F" iff gc ≤ threshold; the confidence is abs(gc); the source is kept |
| Calculations.FirstMatch | src/mrn/calculations/rule_based_classifier_calculation.py:11-13 | the rule found is the first whose condition holds; None iff no rule holds |
| Calculations.RuleClassify | src/mrn/calculations/rule_based_classifier_calculation.py:10-17 | with no matching rule the result is the "⊥" label with confidence 0; otherwise the first matching rule's label with confidence gc, failing iff the signal has no gc |
| Calculations.ClampParams | src/mrn/calculations/paraconsistent_classifier_calculation.py:15-20 | the constructor clamps each threshold into [0,1] (kept when inside) and nd to at least 0 |
| Calculations.TruncateToInt | src/mrn/calculations/paraconsistent_classifier_calculation.py:27 | `int(v)` truncates toward zero: the result has v's sign, is no farther from zero than v, and lies within one of it |
| Calculations.UpdateThresholds | src/mrn/calculations/paraconsistent_classifier_calculation.py:24-32 | the thresholds stay valid: in [0,1], nd ≥ 0 |
| Calculations.AssignSpec | src/mrn/calculations/paraconsistent_classifier_calculation.py:25-27 | the assignment loop leaves each threshold with the value of the last keyword naming it (nd truncated), or unchanged |
| Calculations.UpdateThresholdsSpec | src/mrn/calculations/paraconsistent_classifier_calculation.py:24-32 | after the update each threshold is the clamped value of its last keyword, or its old value |
| Calculations.UnknownSettingIgnored | src/mrn/calculations/paraconsistent_classifier_calculation.py:26 | a keyword that names no threshold changes nothing |
| Calculations.MinOf | src/mrn/calculations/paraconsistent_classifier_calculation.py:69 | `min(gaps)` is an element of the list and at most every element |
| Calculations.ParaClassify | src/mrn/calculations/paraconsistent_classifier_calculation.py:39-75 | the classified signal keeps the input's source |
| Calculations.ParaClassifySpec | src/mrn/calculations/paraconsistent_classifier_calculation.py:43-69 | the cascade gives exactly one of L, C, V, F, D, each iff its own condition holds and no earlier one does, with the margin of its branch as a non-negative confidence; in D some gap exists and the confidence is the smallest one, which is positive |
| Calculations.Mus | src/mrn/calculations/average_aggregation_simple_paraconsistent_calculation.py:20 | the list of mus is defined iff no signal is classified, and then is each signal's mu in order |
| Calculations.Lams | src/mrn/calculations/average_aggregation_simple_paraconsistent_calculation.py:21 | the same for lam |
| Calculations.Aggregate | src/mrn/calculations/average_aggregation_simple_paraconsistent_calculation.py:15-28 | None for no signals; otherwise a simple signal; it fails iff some signal is classified |
| Calculations.AggregateBounds | src/mrn/calculations/average_aggregation_simple_paraconsistent_calculation.py:19-27 | the aggregate of evidences in [0,1] has mu and lam in [0,1] and the source "aggregated" |
| Calculations.AggregateExample | src/mrn/calculations/average_aggregation_simple_paraconsistent_calculation.py:19-27 | (0.9, 0.1) and (0.5, 0.3) average to (0.7, 0.2) |
| Calculations.Process | src/mrn/calculations/average_aggregation_simple_paraconsistent_calculation.py:10-13 | `process` keeps the kind of calculator |
| Calculations.FreshHasNoResult | src/mrn/calculations/simple_to_complete_paraconsistent_calculation.py:6-7 | a calculator that has processed nothing has no result |
| Calculations.ResultAfterProcess | src/mrn/calculations/threshold_classifier_calculation.py:10-17 | right after a successful `process(s)` each calculator has a result, and except for the aggregation it is the one computed from s alone |
| CalculationObjects.AggregationCalculation.constructor | src/mrn/calculations/average_aggregation_simple_paraconsistent_calculation.py:6-8 | no signals and no aggregate |
| CalculationObjects.AggregationCalculation.Process | src/mrn/calculations/average_aggregation_simple_paraconsistent_calculation.py:10-13 | the signal is appended, whatever its kind, and the stored aggregate is untouched |
| CalculationObjects.AggregationCalculation.Result | src/mrn/calculations/average_aggregation_simple_paraconsistent_calculation.py:15-28 | returns the aggregate of what it holds and stores it when there is one |
| CalculationObjects.SimpleToCompleteCalculation.constructor | src/mrn/calculations/simple_to_complete_paraconsistent_calculation.py:6-7 | no result yet |
| CalculationObjects.SimpleToCompleteCalculation.Process | src/mrn/calculations/simple_to_complete_paraconsistent_calculation.py:9-19 | fails iff the signal is classified, and then stores nothing; otherwise stores the expanded signal |
| CalculationObjects.SimpleToCompleteCalculation.Result | src/mrn/calculations/simple_to_complete_paraconsistent_calculation.py:21 | the stored result |
| CalculationObjects.ThresholdCalculation.constructor | src/mrn/calculations/threshold_classifier_calculation.py:6-8 | the given threshold and no result |
| CalculationObjects.ThresholdCalculation.Process | src/mrn/calculations/threshold_classifier_calculation.py:10-14 | fails iff the signal is not complete, and then stores nothing; otherwise stores its classification |
| CalculationObjects.ThresholdCalculation.Result | src/mrn/calculations/threshold_classifier_calculation.py:16-17 | the stored result |
| CalculationObjects.RuleBasedCalculation.constructor | src/mrn/calculations/rule_based_classifier_calculation.py:6-8 | the given rules and no result |
| CalculationObjects.RuleBasedCalculation.Process | src/mrn/calculations/rule_based_classifier_calculation.py:10-17 | the loop over the rules ends in the state `RuleClassify` gives; a fault stores nothing |
| CalculationObjects.RuleBasedCalculation.Result | src/mrn/calculations/rule_based_classifier_calculation.py:18-19 | the stored result |
| CalculationObjects.ClassifierCalculation.constructor | src/mrn/calculations/paraconsistent_classifier_calculation.py:15-21 | the clamped parameters and no result |
| CalculationObjects.ClassifierCalculation.UpdateThresholds | src/mrn/calculations/paraconsistent_classifier_calculation.py:24-32 | the parameters become `UpdateThresholds` of the old ones; the result is kept |
| CalculationObjects.ClassifierCalculation.Process | src/mrn/calculations/paraconsistent_classifier_calculation.py:39-75 | stores the cascade's classification and never fails |
| CalculationObjects.ClassifierCalculation.Result | src/mrn/calculations/paraconsistent_classifier_calculation.py:77-78 | the stored result |
| Operations.FeedAll | src/mrn/operations/unique_result_all_signal_operation.py:11-12 | feeding stops without a fault iff every signal was processed |
| Operations.ResultPresentAfterProcess | src/mrn/operations/result_each_signal_operation.py:10-11 | after a successful `process` the calculator's `result()` is not None |
| Operations.EachResult | src/mrn/operations/result_each_signal_operation.py:10-11 | on success there is one output per input |
| Operations.EachResultSpec | src/mrn/operations/result_each_signal_operation.py:10-11 | output i is the calculator's result right after processing input i, inputs 0..i processed in order |
| Operations.EachResultFeeds | src/mrn/operations/result_each_signal_operation.py:10-11 | the calculator ends where feeding the whole batch leaves it |
| Operations.UniqueAll | src/mrn/operations/unique_result_all_signal_operation.py:10-14 | feeds every signal, then emits at most one signal, the calculator's result, and none iff the result is None |
| Operations.UniqueResultAllExecute | src/mrn/operations/unique_result_all_signal_operation.py:10-14 | the loop computes exactly `UniqueAll` |
| Operations.FeedAllConcat | src/mrn/operations/unique_result_all_signal_operation.py:11-12 | calculator state carries over between batches: two batches feed like their concatenation |
| Operations.FeedAggregation | src/mrn/calculations/average_aggregation_simple_paraconsistent_calculation.py:10-13 | feeding an aggregation appends the whole batch |
| Operations.ParseAll | src/mrn/operations/paraconsistent_parser_operation.py:10-11 | defined iff no input is classified; then element-wise the parsed signal |
| Operations.Completes | src/mrn/operations/classifier_operation.py:14 | exactly the complete signals of the batch |
| Operations.Gcs | src/mrn/operations/classifier_operation.py:16-17 | the gc of each complete signal, in order |
| Operations.FormulaSignal | src/mrn/operations/multi_input_formula_operation.py:13-17 | a simple signal carrying the value in mu (for "mu") or in lam (otherwise), 0 in the other field |
| Operations.Execute | src/mrn/operations/classifier_operation.py:13-19 | each operation's output: everything, the first, the last, one result per input, at most one result, the parsed list, one classified signal with the mean gc, one formula signal; only the calculator-backed ones can fail |
| Operations.StatelessIdempotent | src/mrn/operations/get_last_signal_operation.py:12-19 | none, identity and get-last applied twice give what they give once |
| Operations.EmptyBatch | src/mrn/operations/none_operation.py:7-8 | an empty batch gives an empty output and leaves the operation as it was |
| Operations.MeanGcBounds | src/mrn/operations/classifier_operation.py:16-17 | the classifier operation's confidence lies in [-1,1] when every gc does |
| NodeStates.Receive | src/mrn/nodes/input_node.py:13-14 | `receive` keeps the id and the node's shape |
| NodeStates.ReceiveAll | src/mrn/nodes/output_node.py:16-17 | receiving a batch keeps the id and the shape |
| NodeStates.ReceiveAllAppends | src/mrn/nodes/output_node.py:16-17 | receiving appends exactly the batch to the node's buffer; an output node's outputs change only when they alias its inputs |
| NodeStates.Propagate | src/mrn/nodes/wiring_node.py:24-30 | an input node hands on its buffer and keeps it; an output node stores its operation's result (a fault keeps the outputs); a wiring node fills its outbox and clears its inbox |
| NodeStates.WithId | src/mrn/nodes/wiring_node.py:19 | `set_id` sets the id |
| NodeStates.Reset | src/mrn/nodes/output_node.py:26-27 | `reset` empties every buffer and keeps the id |
| NodeStates.PropagateThenOutputs | src/mrn/nodes/output_node.py:19-24 | what a successful `propagate` hands on is what `get_outputs` then returns |
| NodeStates.InputPropagateTwice | src/mrn/nodes/input_node.py:16-17 | an input node hands on the same list every time until reset |
| NodeStates.OutputInputsAccumulate | src/mrn/nodes/output_node.py:16-21 | an output node keeps its inputs across passes |
| NodeStates.WiringPropagateDrains | src/mrn/nodes/wiring_node.py:24-30 | a wiring node's inbox is empty after `propagate` |
| Nodes.InputNode.constructor | src/mrn/nodes/input_node.py:6-8 | an empty input node with the given id |
| Nodes.InputNode.Receive | src/mrn/nodes/input_node.py:13-14 | the node's state becomes `Receive` of the old one |
| Nodes.InputNode.Propagate | src/mrn/nodes/input_node.py:16-17 | returns its buffer and changes nothing |
| Nodes.InputNode.GetOutputs | src/mrn/nodes/input_node.py:19-20 | its buffer |
| Nodes.InputNode.Reset | src/mrn/nodes/input_node.py:22 | the buffer is emptied |
| Nodes.OutputNode.constructor | src/mrn/nodes/output_node.py:7-11 | empty inputs and outputs and the given operation |
| Nodes.OutputNode.Receive | src/mrn/nodes/output_node.py:16-17 | the node's state becomes `Receive` of the old one |
| Nodes.OutputNode.Propagate | src/mrn/nodes/output_node.py:19-21 | runs the operation on the inputs and stores its result |
| Nodes.OutputNode.GetOutputs | src/mrn/nodes/output_node.py:23-24 | its outputs |
| Nodes.OutputNode.Reset | src/mrn/nodes/output_node.py:26-27 | inputs and outputs are emptied |
| Nodes.WiringNode.constructor | src/mrn/nodes/wiring_node.py:12-16 | empty inbox and outbox and the given operation |
| Nodes.WiringNode.SetId | src/mrn/nodes/wiring_node.py:19 | only the id changes |
| Nodes.WiringNode.Receive | src/mrn/nodes/wiring_node.py:21-22 | the signal joins the inbox |
| Nodes.WiringNode.Propagate | src/mrn/nodes/wiring_node.py:24-30 | the outbox becomes the operation's result on the inbox (the inbox itself without an operation), the inbox is cleared |
| Nodes.WiringNode.Reset | src/mrn/nodes/wiring_node.py:32-34 | both buffers are emptied |
| Nodes.WiringNode.GetOutputs | src/mrn/nodes/wiring_node.py:36-37 | its outbox |
| Digraphs.DistinctCovers | src/mrn/core/network_manager.py:59-60 | a list of distinct registered ids as long as the registry lists them all |
| Digraphs.Pigeonhole | src/mrn/core/network_manager.py:59-60 | a walk longer than the node set repeats a node |
| Digraphs.TopologicalOrderAcyclic | src/mrn/core/network_manager.py:45-61 | a graph with a topological order has no cycle |
| Digraphs.StuckSetHasCycle | src/mrn/core/network_manager.py:59-60 | a non-empty set where every member has a predecessor inside it contains a cycle |
| Digraphs.TargetsMembers | src/mrn/core/network_manager.py:32-39 | v is among u's forward entries iff the edge (u, v) was connected |
| Digraphs.CountFromZero | src/mrn/core/network_manager.py:51-57 | a node's count of pending in-edges is 0 iff all its predecessors are done |
| Network.NatToString | src/mrn/core/network_manager.py:17 | `str(n)` is a non-empty string of decimal digits |
| Network.NatStringRoundTrip | src/mrn/core/network_manager.py:17 | the digits of `str(n)` read back as n |
| Network.GeneratedIdInjective | src/mrn/core/network_manager.py:13-17 | distinct counts give distinct generated ids for one class |
| Network.AddNodeStep | src/mrn/core/network_manager.py:19-30 | a given id is accepted iff not registered, else ValueError; a blank id is replaced by `<Class>_<n>` with that class's counter moved on by one, and fails iff the class has no `set_id` |
| Network.GeneratedIdsFresh | src/mrn/core/network_manager.py:13-30 | two blank-id registrations of one class get different ids |
| Network.BlankIdNeedsSetId | src/mrn/core/network_manager.py:22-26 | an input or output node with a blank id makes `add_node` raise AttributeError after the counter has moved |
| Network.Deliver | src/mrn/core/network_manager.py:71-75 | delivery keeps the set of nodes |
| Network.DeliverSpec | src/mrn/core/network_manager.py:71-75 | each target receives the batch once per entry naming it, appended to what it held |
| Network.DeliverElsewhere | src/mrn/core/network_manager.py:71-75 | delivery keeps ids and leaves nodes outside the targets untouched |
| Network.Pass | src/mrn/core/network_manager.py:69-75 | a pass keeps the set of nodes |
| Network.PassLeavesUntargeted | src/mrn/core/network_manager.py:69-75 | a node that no edge list names and that is not in the order is untouched by a pass |
| Network.PassKeepsIds | src/mrn/core/network_manager.py:69-75 | a pass keeps every node's id |
| Network.ReceiveBatch | src/mrn/core/network_manager.py:73-75 | the loop delivers the batch to one target as `ReceiveAll` |
| Network.DeliverAll | src/mrn/core/network_manager.py:72-75 | the loop over the targets computes exactly `Deliver` |
| Network.RunPass | src/mrn/core/network_manager.py:69-75 | the loop over the order computes exactly `Pass` |
| Network.ZeroDegree | src/mrn/core/network_manager.py:49 | exactly the ids of in-degree 0, in registration order, without repeats |
| Network.GraphOkAdd | src/mrn/core/network_manager.py:27-30 | registering a new id keeps the adjacency lists consistent with the connection log |
| Network.GraphOkConnect | src/mrn/core/network_manager.py:37-39 | one `connect` keeps the adjacency lists consistent with the log |
| Network.ReleaseTargets | src/mrn/core/network_manager.py:55-58 | the inner loop lowers each target's count once per entry and queues those that reach 0, keeping the queue and order distinct |
| Network.KahnStuck | src/mrn/core/network_manager.py:59-60 | when the queue runs dry with ids left over, the graph has a cycle |
| Network.KahnComplete | src/mrn/core/network_manager.py:59-61 | when every id was taken, the order is topological and there is no cycle |
| Network.TopologicalOrder | src/mrn/core/network_manager.py:45-61 | the result lists every registered id once, each connection's source before its target; it fails (ValueError) iff there is a cycle |
| Network.Register | src/mrn/core/network_manager.py:27-30 | stores the node under its id and creates empty adjacency lists only if the id is new |
| Network.NetworkManager.constructor | src/mrn/core/network_manager.py:7-11 | an empty network |
| Network.NetworkManager.AddNode | src/mrn/core/network_manager.py:19-30 | the outcome and counter are `AddNodeStep`'s; on success the node is stored under its id, lists created only if absent; a failure leaves nodes and edges alone |
| Network.NetworkManager.Connect | src/mrn/core/network_manager.py:32-39 | ValueError iff an endpoint is unregistered, changing nothing; otherwise one forward and one reverse entry more, duplicates kept |
| Network.NetworkManager.ReceiveAt | src/mrn/nodes/input_node.py:13-14 | a caller's `receive` on a registered node changes only that node |
| Network.NetworkManager.ResetAll | src/mrn/core/network_manager.py:41-43 | every node is reset, nothing else changes |
| Network.ResetEach | src/mrn/core/network_manager.py:41-43 | visiting each registered id once resets every node and keeps the ids |
| Network.NetworkManager.GetOutputs | src/mrn/core/network_manager.py:77-79 | the node's outputs, or [] for an unregistered id |
| Network.NetworkManager.GetAllOutputs | src/mrn/core/network_manager.py:81-82 | one entry per registered id, each the node's outputs |
| Network.NetworkManager.PropagateAll | src/mrn/core/network_manager.py:63-75 | a cyclic network raises before any node is touched; otherwise the nodes end as one pass over a topological order leaves them, and the first node fault is reported |
| Engine.CoreDegrees | src/paraconsistent/core/engine.py:18-33 | (gc, gct) is an invertible change of coordinates: mu and lam are recovered from it |
| Engine.CoreDegreesBounds | src/paraconsistent/core/engine.py:18-33 | for inputs in [0,1] the point (gc, gct) lies in the diamond abs(gc) + abs(gct) ≤ 1 |
| Engine.Geometry | src/paraconsistent/core/engine.py:36-53 | D = min(d, 1) lies in [0,1] and below d; abs(gcr) = 1 − D with the sign of gc |
| Engine.ClassifyThresholds | src/paraconsistent/core/engine.py:56-80 | the effective certainty limits are never below FtC, and the two contradiction limits coincide |
| Engine.BiasOnlyRaises | src/paraconsistent/core/engine.py:60-70 | a non-negative bias leaves its limit at FtC and a negative one raises it by its size |
| Engine.Classify | src/paraconsistent/core/engine.py:56-96 | the label is the region classifier's under the derived limits, and the flags belong to that label |
| Engine.MakeEvidences | src/paraconsistent/core/engine.py:99-126 | each evidence is (degree + 1)/2, so the degree is recovered as 2e − 1; phi = 1 − abs(gct) |
| Engine.EvidencesBounds | src/paraconsistent/core/engine.py:99-126 | degrees in [-1,1] give evidences in [0,1] |
| Engine.DecisionOutput | src/paraconsistent/core/engine.py:129-147 | 1.0 iff muER > FtC, 0.0 iff muER < FtC, 0.5 iff equal, nothing else |
| Engine.DecisionMonotone | src/paraconsistent/core/engine.py:129-147 | more evidence never lowers the decision, a higher limit never raises it |
| Engine.Compute | src/paraconsistent/core/engine.py:150-212 | the record carries the clamped inputs and the parameters |
| Engine.ComputeSpec | src/paraconsistent/core/engine.py:150-212 | for any raw inputs: clamped inputs, degrees in the diamond, abs(gcr) = 1 − D, evidences in [0,1] that invert to the degrees, a decision agreeing with muER against FtC |
| Engine.ComputeExample | src/paraconsistent/core/engine.py:150-212 | mu = 0.8, lam = 0.2 gives gc = 0.6, gct = 0, muE = 0.8, muECT = 0.5, phi = 1 |
| Engine.ComputeInconsistent | src/paraconsistent/core/engine.py:150-212 | mu = lam = 1 gives gc = 0, gct = 1, phi = 0 |
| Engine.ComputeApexes | src/paraconsistent/core/engine.py:129-147 | at the true and false apexes the decision with FtC = 0.5 is 1 and 0 |
| Block.Sgn | src/mrn/paraconsistent/block.py:12-17 | the sign is 1, −1 or 0 exactly for positive, negative and zero |
| Block.ParamNamed | src/mrn/paraconsistent/block.py:153-159 | the parameter named by an attribute name, the only one with that name |
| Block.Set | src/mrn/paraconsistent/block.py:153-159 | setting a parameter changes it alone |
| Block.Configure | src/mrn/paraconsistent/block.py:73-95 | the constructor's keywords, FtCT falling back to FtC |
| Block.AssignParamsSpec | src/mrn/paraconsistent/block.py:153-159 | `set_params` fails iff some keyword names no parameter (AttributeError); on success each parameter holds its last keyword's value, or its old one |
| Block.DecideLabel | src/mrn/paraconsistent/block.py:282-331 | the label is always one of the twelve regions |
| Block.LowercaseLabelEscapesRegions | src/mrn/paraconsistent/block.py:323 | the label as written returns "Qv→ ┬" for a concrete input, a label outside the twelve regions; the corrected one returns "QV→ ┬" |
| Block.DecideLabelStrong | src/mrn/paraconsistent/block.py:296-303 | V, F, ┬, ┴ in that priority, each iff its condition holds and no earlier one does |
| Block.TrueAndFalseExclusive | src/mrn/paraconsistent/block.py:296-299 | with a positive decision limit V and F cannot both apply |
| Block.DecideLabelCentre | src/mrn/paraconsistent/block.py:307-318 | in the centre the label follows the sign of GC and which degree dominates |
| Block.DecideLabelBorder | src/mrn/paraconsistent/block.py:321-331 | outside the centre and the strong regions, the label follows the sign quadrant and which degree dominates |
| Block.ConfidenceOf | src/mrn/paraconsistent/block.py:250-257 | the margin of abs(GC_biased) over T_dec for V and F, of abs(GCT) over FtCT otherwise: a positive margin is the confidence, a margin of 0 or less gives L |
| Block.ComputeBlockSpec | src/mrn/paraconsistent/block.py:202-277 | clamped inputs, adjusted inputs in [0,1], degrees in the diamond, S1 the tolerated GC, evidences the images of their degrees, a label among the twelve regions shared with the classification, confidence ≥ 0 when L is |
| Block.ComputeBlockExample | src/mrn/paraconsistent/block.py:202-277 | mu = 0.8, lam = 0.2 gives GC = 0.6, GCT = 0, muE = 0.8 |
| Block.DecisionLimit | src/mrn/paraconsistent/block.py:244 | T_dec is FtC for FD = 0 and 1 for FD = 1 |
| Block.Invalidated | src/mrn/paraconsistent/block.py:140-143 | clearing the caches leaves a coherent state |
| Block.SetInputStep | src/mrn/paraconsistent/block.py:146-151 | each given input is clamped into [0,1], an absent one kept, the caches cleared |
| Block.MergeStep | src/mrn/paraconsistent/block.py:188-197 | "mu" or "lam"/"lambda" take the clamped value, keeping the other input; any other name is ValueError |
| Block.FailedSetParamsLeavesStaleCache | src/mrn/paraconsistent/block.py:153-159 | as written, a `set_params` that fails on its second keyword has changed FtC but kept the cached record of the old FtC |
| Block.SetParamsStep | src/mrn/paraconsistent/block.py:153-159 | fails iff some keyword is unknown; on success each parameter holds its last keyword's value, or its old one; the caches are cleared whenever a keyword was assigned, and a call whose first keyword is unknown changes nothing |
| Block.SetParamsKeepsCoherent | src/mrn/paraconsistent/block.py:153-159 | after `set_params`, succeeding or not, the cached record still describes the block's current parameters and inputs |
| Block.ComputeStep | src/mrn/paraconsistent/block.py:202-277 | both caches hold the results for the current inputs and parameters |
| Block.ReadStepSpec | src/mrn/paraconsistent/block.py:177-186 | reading fails iff the port is unknown; it never changes inputs or parameters, "complete" always yields the record of the current inputs, and "in" the inputs |
| Block.Reader | src/mrn/paraconsistent/block.py:171-175 | the reader exists iff the schema has the attribute, else AttributeError |
| Block.SchemaReadsPortValues | src/mrn/paraconsistent/block.py:103-131 | every reader reads the field it names, "mer"/"phie" being aliases of muER/phiE |
| Block.ParaconsistentBlock.constructor | src/mrn/paraconsistent/block.py:73-100 | the initial inputs (or 0.0), the parameters, empty caches, no graph |
| Block.ParaconsistentBlock.Invalidate | src/mrn/paraconsistent/block.py:140-143 | the state becomes `Invalidated` |
| Block.ParaconsistentBlock.SetInput | src/mrn/paraconsistent/block.py:146-151 | the state becomes `SetInputStep` |
| Block.ParaconsistentBlock.SetParams | src/mrn/paraconsistent/block.py:153-159 | the state and error become `SetParamsStep`'s, clearing the caches also when a later keyword fails |
| Block.ParaconsistentBlock.MergePartial | src/mrn/paraconsistent/block.py:188-197 | the state becomes `MergeStep`'s, or is unchanged on ValueError |
| Block.ParaconsistentBlock.Compute | src/mrn/paraconsistent/block.py:202-277 | the state becomes `ComputeStep` |
| Block.ParaconsistentBlock.ReadPort | src/mrn/paraconsistent/block.py:177-186 | the value and state are `ReadStep`'s, unchanged on error |
| BlockGraphs.SourceEdges | src/mrn/core/graph.py:42-44 | one dependency per source of a connection |
| BlockGraphs.DepEdgesMembers | src/mrn/core/graph.py:42-44 | (u, v) is a dependency iff some connection into v has a source on u |
| BlockGraphs.CollectDeps | src/mrn/core/graph.py:38-44 | KeyError iff a destination outside the blocks has a source; otherwise each block's set is exactly its dependencies |
| BlockGraphs.FilterZero | src/mrn/core/graph.py:46 | exactly the blocks of in-degree 0, without repeats for distinct blocks |
| BlockGraphs.StuckCycle | src/mrn/core/graph.py:53-54 | the blocks left over lie on a cycle |
| BlockGraphs.KahnStuck | src/mrn/core/graph.py:53-54 | when the queue runs dry early there is a cycle or a dependency outside the graph |
| BlockGraphs.KahnComplete | src/mrn/core/graph.py:45-55 | when every block was ordered the order is topological and there is no cycle |
| BlockGraphs.ReleaseDeps | src/mrn/core/graph.py:49-52 | the inner loop lowers the count of each dependent block and queues it at 0 |
| BlockGraphs.Kahn | src/mrn/core/graph.py:45-55 | for distinct blocks the result is a topological order; failure (ValueError) means a cycle or a dependency outside the graph |
| BlockGraphs.ReadAll | src/mrn/core/graph.py:68 | the reads fail iff some port is unknown; otherwise one value per source |
| BlockGraphs.ReadAllSettles | src/mrn/core/graph.py:68 | reading changes no inputs or parameters and keeps caches coherent |
| BlockGraphs.ReadAllCurrent | src/mrn/core/graph.py:68 | every value read is the current inputs or the record of the current inputs |
| BlockGraphs.ApplyConnection | src/mrn/core/graph.py:67-70 | a connection fails only with a block failure or an evaluation failure |
| BlockGraphs.ApplyConnectionSpec | src/mrn/core/graph.py:67-70 | a connection succeeds iff its ports are known, its function yields a number and its attribute is mu/lam/lambda; that input then holds the clamped number and the caches are cleared |
| BlockGraphs.ApplyConnectionSettles | src/mrn/core/graph.py:67-70 | only the destination changes its inputs |
| BlockGraphs.ApplyAll | src/mrn/core/graph.py:66-70 | the connections into a block, in order, up to the first failure |
| BlockGraphs.ApplyAllSettles | src/mrn/core/graph.py:66-70 | a block none of the connections writes keeps its inputs |
| BlockGraphs.IncomingSpec | src/mrn/core/graph.py:57-58 | exactly the connections into b |
| BlockGraphs.RunBlock | src/mrn/core/graph.py:65-71 | one block's turn fails only with a block or evaluation failure |
| BlockGraphs.RunBlockSettles | src/mrn/core/graph.py:65-71 | one block's turn leaves the others' inputs alone and ends with a computed record |
| BlockGraphs.RunBlocks | src/mrn/core/graph.py:65-71 | the main loop stops at the first failure |
| BlockGraphs.RunBlocksSettles | src/mrn/core/graph.py:60-74 | a run leaves blocks outside the order, and blocks nothing writes, with their inputs |
| BlockGraphs.RunFillsCaches | src/mrn/core/graph.py:60-74 | after a run without failure every ordered block holds a computed record |
| BlockGraphs.ReadSources | src/mrn/core/graph.py:68 | the loop of reads computes exactly `ReadAll` |
| BlockGraphs.Deliver | src/mrn/core/graph.py:67-70 | one connection computes exactly `ApplyConnection` |
| BlockGraphs.DeliverAll | src/mrn/core/graph.py:66-70 | the loop computes exactly `ApplyAll` |
| BlockGraphs.PlannedOrderable | src/mrn/core/graph.py:60-64 | a schedule exists only when every destination is a block and there is no cycle |
| BlockGraphs.GroupByDest | src/mrn/core/graph.py:62-64 | KeyError iff a destination is outside the order; otherwise each block's incoming connections |
| BlockGraphs.RunOne | src/mrn/core/graph.py:65-71 | one block's turn computes exactly `RunBlock` |
| BlockGraphs.RunOrder | src/mrn/core/graph.py:65-71 | the main loop computes exactly `RunBlocks` |
| BlockGraphs.BlockGraph.constructor | src/mrn/core/graph.py:18-20 | no blocks and no connections |
| BlockGraphs.BlockGraph.AddBlock | src/mrn/core/graph.py:22-25 | blocks appended in order, each pointing back at the graph, their states kept |
| BlockGraphs.BlockGraph.AddConnection | src/mrn/core/graph.py:27-35 | ValueError iff a source block is the destination; otherwise the connection is appended |
| BlockGraphs.BlockGraph.TopoBlocks | src/mrn/core/graph.py:37-55 | KeyError iff a destination is outside the blocks; for distinct blocks an order iff no cycle and no dependency outside, and then topological |
| BlockGraphs.BlockGraph.Schedule | src/mrn/core/graph.py:60-64 | for distinct blocks it fails iff a destination is outside, there is a cycle, or a dependency is outside; otherwise the order and each block's incoming connections |
| BlockGraphs.BlockGraph.Run | src/mrn/core/graph.py:60-74 | a scheduling failure touches no block; otherwise the blocks end as the run specification gives |
| BlockGraphs.BlockGraph.IncomingOf | src/mrn/core/graph.py:57-58 | exactly the connections into b |
| Wiring.Apply | src/mrn/wiring/dsl_refs.py:36-62 | the operator on two floats; division by zero, and only that, raises ZeroDivisionError |
| Wiring.Combine | src/mrn/wiring/dsl_refs.py:22-29 | the origins of a followed by those of b |
| Wiring.CombineSplits | src/mrn/wiring/dsl_refs.py:22-29 | a combination evaluates a on a's values and b on b's and applies the operator, a on the left |
| Wiring.Const | src/mrn/wiring/dsl_refs.py:32 | a constant reads nothing and yields c |
| Wiring.CombineConst | src/mrn/wiring/dsl_refs.py:31-33 | the origins are kept |
| Wiring.CombineConstSides | src/mrn/wiring/dsl_refs.py:31-33 | the constant goes on the left when swapped, on the right otherwise |
| Wiring.Negate | src/mrn/wiring/dsl_refs.py:68 | the origins are kept |
| Wiring.Absolute | src/mrn/wiring/dsl_refs.py:69 | the origins are kept |
| Wiring.AsExpr | src/mrn/wiring/dsl_refs.py:102-104 | AttributeError iff the port lacks the attribute; otherwise one origin, and the function reads that field of its first input |
| Wiring.EnsureExpr | src/mrn/wiring/dsl_refs.py:16-19 | a number gives None; only a field without its attribute raises |
| Wiring.Origins | src/mrn/wiring/dsl_refs.py:10-14 | one origin per value the expression needs |
| Wiring.BinaryErrors | src/mrn/wiring/dsl_refs.py:36-62 | the operators raise exactly for a missing attribute (left first), a number times or divided by a field (TypeError), or a number divided by zero |
| Wiring.BinaryMeaning | src/mrn/wiring/dsl_refs.py:36-62 | the result reads the left origins then the right ones, and means the operator applied to the two operands' meanings, in order |
| Wiring.UnaryMeaning | src/mrn/wiring/dsl_refs.py:68-69 | negation and absolute value keep the origins and transform the meaning |
| Wiring.Shift | src/mrn/wiring/dsl_refs.py:72-88 | RuntimeError without origins or without a graph, ValueError when an origin's block is the destination; otherwise exactly one connection is appended |
| Wiring.ShiftField | src/mrn/wiring/dsl_refs.py:97-100 | the reader first (AttributeError, nothing registered), then `>>` of the one-origin expression |
| Wiring.Ports | src/mrn/paraconsistent/block.py:336-350 | the three properties give the ports "in", "complete", "classified" of the block |
| Wiring.GetAttr | src/mrn/wiring/dsl_refs.py:123-128 | the field iff the port has the attribute, else AttributeError |
| Wiring.SetAttrSpec | src/mrn/wiring/dsl_refs.py:130-154 | writing succeeds iff it is mu or lam of "in" (or the reference's own slots); the input becomes the clamped value, caches cleared; otherwise AttributeError |
| Wiring.SetAttr | src/mrn/wiring/dsl_refs.py:130-154 | the block's state becomes `SetAttrStep`'s, unchanged on error |
| Wiring.CallStep | src/mrn/wiring/dsl_refs.py:156-163 | only the input port accepts a call, else AttributeError |
| Wiring.CallSpec | src/mrn/wiring/dsl_refs.py:156-163 | a call sets each given input (lower-case key first) clamped, keeps the rest and clears the caches |
| Wiring.Call | src/mrn/wiring/dsl_refs.py:156-163 | the block's state becomes `CallStep`'s and the reference is returned |
| Wiring.ConfigGet | src/mrn/wiring/dsl_refs.py:175-177 | defined iff the name is a parameter, else AttributeError |
| Wiring.ConfigSet | src/mrn/wiring/dsl_refs.py:171-173 | `set_params` with the one keyword |
| Wiring.ConfigRoundTrip | src/mrn/wiring/dsl_refs.py:171-177 | a parameter written through the view reads back as written, others kept; an unknown name is refused both ways |
| NetBlock.Lower | src/mrn/blocks/paraconsistent_block.py:81 | `str.lower`, character by character |
| NetBlock.LowerIdempotent | src/mrn/blocks/paraconsistent_block.py:81 | lower-casing twice is lower-casing once |
| NetBlock.Port | src/mrn/blocks/paraconsistent_block.py:80-85 | after lower-casing, "in"/"input", "complete", "classified"/"class" name the nodes; anything else is ValueError |
| NetBlock.PortIgnoresCase | src/mrn/blocks/paraconsistent_block.py:80-85 | port names are case-insensitive |
| NetBlock.Bridge | src/mrn/blocks/paraconsistent_block.py:88-128 | nothing in, nothing out; a multi-input function gives one simple signal with the value in the targeted field and 0 in the other; a single-input function gives one signal per input with the value in the targeted field and the input's other field |
| NetBlock.AddNodeCallAsWritten | src/mrn/wiring/block_with_schema.py:21-23 | `add_node(*nodes)` succeeds iff exactly one node is passed |
| NetBlock.ConstructorAsWrittenRaises | src/mrn/blocks/paraconsistent_block.py:50 | passing the four nodes at once raises TypeError |
| NetBlock.DefaultInputNode | src/mrn/blocks/paraconsistent_block.py:43 | an empty input node whose id is always "default", so a second block on the same network meets a duplicate id |
| NetBlock.NetBlock.constructor | src/mrn/wiring/block_with_schema.py:15-19 | the given network or a fresh empty one, no nodes |
| NetBlock.NetBlock.RegisterNodes | src/mrn/wiring/block_with_schema.py:21-23 | nodes remembered; the node map is the old one updated with each registered node under its id (`Stored`); with fresh distinct ids all are registered under their ids; the first blank-id node without `set_id` fails with AttributeError; a failure is a duplicate or a missing `set_id` |
| NetBlock.NetBlock.AddAll | src/mrn/wiring/block_with_schema.py:21-23 | one registration per node in order, the first failure stops the rest; the node map is the old one updated with each node registered so far, carrying its id; every returned id is registered and keeps the node's own non-blank id; with fresh distinct ids the registered keys grow by exactly those ids; the first node without an id or `set_id` is the one reported |
| NetBlock.NetBlock.RegisterNext | src/mrn/core/network_manager.py:19-30 | one more node registered keeps the node map equal to `Stored` of the longer prefix; a failure leaves the map unchanged and only happens when the ids are not all fresh or this node cannot take an id |
| NetBlock.NetBlock.AddOne | src/mrn/core/network_manager.py:19-30 | on success the node, carrying the id, is stored under that id and nothing else changes; a fresh non-blank id is registered as given; a blank id on a node without `set_id` is AttributeError; a failure leaves the map unchanged |
| NetBlock.NetBlock.ConnectChain | src/mrn/blocks/paraconsistent_block.py:51-53 | the three chain edges are appended in order, nothing else changes |
| NetBlock.NetBlock.Wire | src/mrn/blocks/paraconsistent_block.py:50-53 | four nodes registered and chained; the node map is `Stored` of the four nodes under their ids; succeeds whenever the ids are fresh; the first node without an id or `set_id` is the one reported; a failure adds no edge and leaves the nodes registered before it stored under their ids |
| NetBlock.NetBlock.Chain | src/mrn/blocks/paraconsistent_block.py:51-53 | the ids are remembered and the three chain edges appended, the nodes unchanged |
| NetBlock.NetBlock.PortId | src/mrn/blocks/paraconsistent_block.py:80-85 | the id of the node the port name denotes, ValueError iff the name is unknown |
| NetBlock.NetBlock.SetInput | src/mrn/blocks/paraconsistent_block.py:131-133 | one unclamped simple signal reaches the input node, nothing else changes |
| NetBlock.NetBlock.Run | src/mrn/blocks/paraconsistent_block.py:135-136 | one propagation pass: a cyclic network raises and changes nothing; otherwise the nodes end as one pass over a topological order leaves them |
| NetBlock.NetBlock.GetComplete | src/mrn/blocks/paraconsistent_block.py:138-139 | the parser node's outputs as dictionaries |
| NetBlock.NetBlock.GetClassified | src/mrn/blocks/paraconsistent_block.py:141-142 | the classifier node's outputs as dictionaries |
| NetBlock.BuildAsWritten | src/mrn/blocks/paraconsistent_block.py:26-77 | the constructor as written always raises TypeError and leaves the network unchanged |
| NetBlock.Build | src/mrn/blocks/paraconsistent_block.py:26-77 | four nodes registered and chained input → last → parser → classifier, the node map being the old one with each node stored under its id; the initial signal received when both values are given; succeeds whenever the ids are fresh; a classifier with no id and no `set_id` fails with AttributeError after the other three are registered; on failure a given network keeps its edges and holds the nodes registered before the failing one |
| NetBlock.Construct | src/mrn/blocks/paraconsistent_block.py:40-53 | a block over the given or a fresh network with the four nodes stored and chained, or the registration's error with the given network holding the nodes registered before it and no new edge |
| NetBlock.Stored | src/mrn/core/network_manager.py:19-30 | the node map after a sequence of registrations |
| NetBlock.StoredKeys | src/mrn/core/network_manager.py:28 | the registered keys are the old ones plus the ids registered under |
| NetBlock.StoredElsewhere | src/mrn/core/network_manager.py:28 | a node whose id is not registered again is left as it was |
| NetBlock.StoredAt | src/mrn/core/network_manager.py:19-30 | with distinct ids, each node is stored, carrying its id, under its own id |
| NetBlock.ClassifierPreset | src/mrn/presets/paraconsistent_classifier_output_node.py:6-11 | an output node with the given id and operation and empty buffers |
| NetBlock.BuildWithPresetAsWritten | src/mrn/presets/paraconsistent_classifier_output_node.py:11 | the block over the classifier preset as written never builds and adds no edge; with fresh ids for the first three nodes it fails with AttributeError on the output node, and a given network keeps the input, last-signal and parser nodes registered under their ids |
| NetBlock.BuildWithPreset | src/mrn/presets/paraconsistent_classifier_output_node.py:6-11 | with the preset given the id "classifier" and fresh ids, the block builds and stores the preset unchanged under "classifier" |

## Left out

- `Expr.__pow__` and `FieldRef.__pow__` (`**`): real exponentiation is not available in Dafny.
- Python floats are exact `real` numbers in the model: no rounding, overflow, NaN or infinity. The exact equalities proved here hold over the reals only, among them Engine.MakeEvidences' inverse 2e − 1, Engine.CoreDegrees recovering mu and lam, and Engine.ComputeExample's gc = 0.6; in floating point they hold only up to rounding.
- `print` calls, the demo scripts, `main.py`, the test scripts and the builders are not part of this model.
- The square root (`math.hypot`) and the engine's helper modules (radial distance, the twelve-region classifier, the region flags) are function parameters. Only their non-negativity or their type is assumed.
- The logic-node presets and `LogicNode` are not part of this model. `NetBlock.Build` takes the three node states as parameters.
- `ParaconsistentClassifierCalculation._r` (`round(x, nd)`) is not modelled: Dafny's `real` has no decimal rounding. `Calculations.ParaClassify` gives the unrounded confidence.
- Calculations.UpdateThresholds: only the five threshold names are modelled. The source's `hasattr` test would also let a keyword overwrite any other attribute of the object, such as `_last`.
- `ParaconsistentBlock.pin_input` and `unpin_all` are not modelled. Both write to `self._pin` (src/mrn/paraconsistent/block.py:360-365), which `__init__` never creates, so `pin_input(mu=…)`, `pin_input(lam=…)` and `unpin_all()` raise AttributeError, and `pin_input()` with no argument does nothing.
- `PortRef.__setattr__` on the reference's own slots `_owner` and `_port` does not rebind the reference; `Wiring.SetAttrSpec` only states that the block is untouched.
- Wiring.ConfigGet: covers parameter names only; other attributes of the block are not readable through the model.
- NetBlock.Lower: ASCII case folding only.
- NetBlock.Bridge: the source tries the function on the whole list and falls back to one signal at a time on TypeError. The model takes the choice as a tagged `BridgeFunc`.
- Wiring.Shift: the block's `_graph` field is an untyped reference in the model, so the graph is passed in with a precondition that it is the block's graph.
- BlockGraphs.BlockGraph.TopoBlocks: the topological-order and cycle properties are stated for graphs whose block list has no repeats.
- BlockGraphs.BlockGraph.Run: the run specification is stated for block lists without repeats.
- Network.NetworkManager.PropagateAll: the order is a ghost output; the model does not state which topological order Kahn's queue produces.
- The `_io_schema` of the network-backed block (src/mrn/blocks/paraconsistent_block.py:56-74) is not modelled. The DSL model reads fields through the schema of the standalone block.
- Registering nodes one call at a time is the corrected constructor (see Findings), not the source's code.
- Block.ParamNamed: the source's `hasattr(self, k)` accepts any attribute of the block, so `set_params(_mu_in=5.0)` stores an unclamped input and `set_params(block_id=2.0)` succeeds. The model accepts only the eleven parameter names and raises AttributeError for every other name.
- Block.AssignParamsSpec: assignments to attributes other than the eleven parameters are not modelled (see Block.ParamNamed); such a keyword is an AttributeError in the model.
- Block.SetParamsStep: a keyword naming an attribute that is not a parameter fails in the model, where the source overwrites that attribute (see Block.ParamNamed).
- Block.ParaconsistentBlock.SetParams: same limit as Block.SetParamsStep; non-parameter attributes of the block cannot be written.
- Wiring.ConfigSet: same limit as Block.SetParamsStep; writing a non-parameter attribute through the config view fails in the model.
- User callables are total functions in the model and cannot raise: `Rule.condition` (`Calculations.Rule`), the classifier and formula functions of the operations (the `ClassifierOp` and `MultiInputFormula` cases of `Operations.Operation`), `NodeStates.WireOp` and `NetBlock.BridgeFunc`. A callable that raises in the source, such as the rule `lambda s: s.gc > 0.5` applied to a simple signal with no `gc`, is not modelled.
- Calculators are held by reference in the source's operations (src/mrn/operations/result_each_signal_operation.py:7-8, src/mrn/operations/paraconsistent_parser_operation.py:7, src/mrn/operations/classifier_operation.py:10-11) and stored by value in the model's operations. Sharing one calculator object between operations or nodes, and a change to it being seen by all of them, is not modelled.

## Findings

| source | as written | input that shows it | evidently intended | confidence | as-written member | corrected member |
|---|---|---|---|---|---|---|
| src/mrn/paraconsistent/block.py:323 | the upper-right border case returns "Qv→ ┬" with a lower-case v | FtC = FtCT = 0.3, FD = 0, GC = 0.6, GCT = 0.35, GC_biased = 1.1 | "QV→ ┬", the label the centre case and the region list use | not executed | Block.LowercaseLabelEscapesRegions | Block.DecideLabel |
| src/mrn/paraconsistent/block.py:153-159 | a failing keyword raises after earlier keywords were assigned and before `_invalidate`, so the cached record describes the old parameters | `set_params(FtC=0.9, Bogus=1.0)` after `compute()` | caches cleared whenever a parameter was assigned, so they never describe other parameters; a call whose first keyword fails changes nothing | not executed | Block.FailedSetParamsLeavesStaleCache | Block.SetParamsKeepsCoherent |
| src/mrn/blocks/paraconsistent_block.py:50 | `_register_nodes(a, b, c, d)` calls `add_node(*nodes)`, and `add_node` takes one node, so it raises TypeError | any construction of the block | each node registered with its own `add_node` call | not executed | NetBlock.BuildAsWritten | NetBlock.Build |
| src/mrn/presets/paraconsistent_classifier_output_node.py:11 | the classifier preset is `OutputNode(node_id=None, …)`; `add_node` then calls `set_id`, which `OutputNode` does not have, so it raises AttributeError | any construction of the block, even with one `add_node` call per node | the classifier registered under an id of its own, as the parser preset's `node_id="parser"` | not executed | NetBlock.BuildWithPresetAsWritten | NetBlock.BuildWithPreset |
