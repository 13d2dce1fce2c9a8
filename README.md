# ONNX graph builders, summaries and simulated fusion, in Dafny

This project models the graph core of a small compiler-insights tool. It
turns the operation records of an ONNX model into a directed graph of
operation-nodes and value-nodes, and summarises that graph. There are two
variants, each modelled in its own module.

- `python/graph_visualizer.py` (module `GraphVisualizer`)
  - The builder labels each node by a canonical category (`Canonical.Canonicalize`).
  - The summary holds the node list, the edge list and per-category counts.
  - The fusion simulation relabels `Conv` and `MatMul/Gemm` nodes as `FusedOp`.
- `python/export_model.py` (module `ExportModel`)
  - The builder hides trivial operators and keeps raw labels.
  - The export colours every node.
  - The fusion simulation relabels every label that contains `Conv` or `MatMul`.

The graph library (networkx's `DiGraph`) is modelled as far as the builders
use it (module `DiGraphs`):
- Nodes keep their first-insertion order.
- `add_node` on an existing node only replaces its label.
- `add_edge` creates missing endpoints without a label and ignores an edge it already has.
- `g.edges` lists the edges node by node.

`Graph` is the value of such a graph. `DiGraph` is the mutable object: each of
its methods is specified by a function on `Graph`.

Both builders run the same loop shape, `for i, node in enumerate(...)`:
- `Building.Run` is that loop as a fold over a step function, with lemmas that
  lift what one step promises to what the whole loop promises.
- `Linking` holds the two inner loops over a record's inputs and outputs.
- Each builder supplies its own step. Its `OnnxToGraph` method runs the loop
  imperatively on a `DiGraph` and is proved equal to the fold.
- The dictionary that `dump_graph_json` fills is `Counting.Tally`.

## Model

| member | source | states |
|---|---|---|
| Strings.Contains | python/export_model.py:73 | the substring test `sub in s` holds exactly when `sub` occurs at some position of `s` |
| Strings.StartsWith | python/graph_visualizer.py:26 | `op_type.startswith("onnx::Conv")`; its use is stated by `Canonical.CanonicalizeFallback` |
| Strings.Decimal | python/graph_visualizer.py:37 | the f-string rendering of an index is a non-empty digit string with no leading zero |
| Strings.ParseDecimalInverse | python/graph_visualizer.py:37 | reading the rendered index back gives the index |
| Strings.DecimalInjective | python/graph_visualizer.py:37 | different indices render differently |
| Canonical.Canonicalize | python/graph_visualizer.py:23-28 | the category is the table's entry for a key, and otherwise either the input itself or a table value |
| Canonical.CanonicalMatMulGemm | python/graph_visualizer.py:6-25 | `MatMul` and `Gemm` both map to `MatMul/Gemm` |
| Canonical.CanonicalSelf | python/graph_visualizer.py:6-25 | `Conv`, `FusedOp`, `Add` and `Mul` map to themselves |
| Canonical.CanonicalActivations | python/graph_visualizer.py:6-25 | `Relu`, `Sigmoid`, `Tanh` and `Clip` map to `Activation` |
| Canonical.CanonicalOthers | python/graph_visualizer.py:6-25 | `Identity`, `Constant`, `Flatten` and `GlobalAveragePool` map to `Other` |
| Canonical.FusedOpIsCategory | python/graph_visualizer.py:10 | `FusedOp` is left unchanged by the canonicaliser |
| Canonical.CanonicalizeFallback | python/graph_visualizer.py:26-28 | an unknown identifier with the `onnx::Conv` prefix maps to `Conv`, and any other unknown identifier maps to itself |
| Canonical.TableValuesAreCategories | python/graph_visualizer.py:6-21 | every table value is left unchanged by the canonicaliser |
| Canonical.CanonicalizeIdempotent | python/graph_visualizer.py:6-28 | canonicalising twice is canonicalising once |
| Records.NodeId | python/graph_visualizer.py:37 | the id is the record's name when it has one; otherwise it is the operator type, `_`, and digits with no leading zero that read back as the index |
| Records.SynthesisedIdsDistinct | python/export_model.py:29 | two unnamed records at different indices get different ids, whatever their types |
| DiGraphs.WithBareNodeEffect | python/graph_visualizer.py:44 | an endpoint that `add_edge` creates is appended without a label, keeps the edges and keeps the graph valid |
| DiGraphs.WithNodeEffect | python/graph_visualizer.py:39 | `add_node` appends a new id (an existing id keeps its position and edges), sets its label and keeps the graph valid and labelled |
| DiGraphs.WithSuccessorEffect | python/graph_visualizer.py:44 | recording a successor adds exactly that edge to the edge set |
| DiGraphs.WithEdgeEffect | python/graph_visualizer.py:44 | `add_edge` keeps every label, adds both endpoints as nodes and adds exactly that edge |
| DiGraphs.AddEdgeTwice | python/graph_visualizer.py:44 | adding the same edge twice changes nothing more than adding it once |
| DiGraphs.Label | python/graph_visualizer.py:65 | `g.nodes[n].get("label", n)`, also at python/graph_visualizer.py:69, 80 and python/export_model.py:55, 72; on built graphs every node has a label (`GraphVisualizer.BuildWellFormed`, `ExportModel.ExportExact`) |
| DiGraphs.EdgeList | python/graph_visualizer.py:70 | `g.edges` node by node; stated by `DiGraphs.EdgeListExact` |
| DiGraphs.EdgesFromExact | python/graph_visualizer.py:70 | listing edges node by node gives each edge of the listed nodes exactly once |
| DiGraphs.EdgeListExact | python/graph_visualizer.py:70 | `g.edges` of a valid graph holds every edge exactly once, between nodes of the graph |
| DiGraphs.DiGraph.constructor | python/graph_visualizer.py:34 | `nx.DiGraph()` is the empty graph |
| DiGraphs.DiGraph.AddNode | python/graph_visualizer.py:39 | the object's new value is the `add_node` of its old value |
| DiGraphs.DiGraph.AddEdge | python/graph_visualizer.py:44 | the object's new value is the `add_edge` of its old value |
| Linking.LinkStep | python/graph_visualizer.py:41-44 | one iteration adds at most the identifier as a node, plus exactly its edge, and keeps every existing label |
| Linking.LinkInputsEffect | python/graph_visualizer.py:41-44 | the input loop adds exactly the inputs as nodes and exactly the edges from them into the op-node |
| Linking.LinkInputsLabels | python/graph_visualizer.py:41-43 | the input loop keeps existing labels and labels each new value-node by the builder's value labelling |
| Linking.LinkOutputsEffect | python/graph_visualizer.py:46-49 | the output loop adds exactly the outputs as nodes and exactly the edges from the op-node to them |
| Linking.LinkOutputsLabels | python/graph_visualizer.py:46-48 | the output loop keeps existing labels and labels each new value-node by the builder's value labelling |
| Linking.AttachEffect | python/graph_visualizer.py:39-49 | one record's visit adds exactly its id, inputs and outputs as nodes and exactly its edges; it keeps node positions and the graph well formed |
| Linking.AttachLabels | python/graph_visualizer.py:39-48 | after a visit the op-node carries its label and every other labelled node keeps its own |
| Linking.AttachValueLabels | python/graph_visualizer.py:41-48 | every value-node a visit creates is labelled by the value labelling |
| Linking.AddInputs | python/graph_visualizer.py:41-44 | the imperative input loop leaves the graph that the input-loop function describes |
| Linking.AddOutputs | python/graph_visualizer.py:46-49 | the imperative output loop leaves the graph that the output-loop function describes |
| Building.RunInv | python/graph_visualizer.py:34-49 | an invariant that every step keeps holds after the whole loop |
| Building.RunGrows | python/graph_visualizer.py:34-49 | an earlier node list is a prefix of every later one |
| Building.RunNodes | python/graph_visualizer.py:34-49 | the loop's nodes are exactly those some record asks for |
| Building.RunEdges | python/graph_visualizer.py:34-49 | the loop's edges are exactly those some record asks for |
| Building.RunLabels | python/graph_visualizer.py:34-49 | every final label fits some record |
| Building.RunKeepsLabel | python/graph_visualizer.py:34-49 | a label that no later step touches survives to the end |
| Counting.Tally | python/graph_visualizer.py:63-67 | the `counts` dict; stated by `Counting.TallyCounts`, `Counting.TallyKeys` and `Counting.TallyTotal` |
| Counting.BumpTotal | python/graph_visualizer.py:67 | `counts[cat] = counts.get(cat, 0) + 1` raises the total by one |
| Counting.TallyCounts | python/graph_visualizer.py:63-67 | each count is the number of occurrences of its category |
| Counting.TallyKeys | python/graph_visualizer.py:63-67 | the keys are exactly the categories that occur |
| Counting.TallyTotal | python/graph_visualizer.py:63-67 | the counts add up to the number of items counted |
| GraphVisualizer.Build | python/graph_visualizer.py:31-56 | the graph `onnx_to_graph` returns; stated by `GraphVisualizer.BuildShape`, `GraphVisualizer.BuildLabels` and `GraphVisualizer.BuildWellFormed` |
| GraphVisualizer.StepShape | python/graph_visualizer.py:35-49 | one iteration keeps the graph well formed, never moves a node, and adds exactly the record's nodes and edges |
| GraphVisualizer.StepLabelling | python/graph_visualizer.py:38-48 | one iteration keeps each label or sets it to the canonical operator type or the canonical identifier |
| GraphVisualizer.BuildWellFormed | python/graph_visualizer.py:41-49 | the built graph is valid, every node is labelled, and every edge endpoint is a node |
| GraphVisualizer.BuildShape | python/graph_visualizer.py:35-49 | the nodes are exactly the records' ids, inputs and outputs; the edges are exactly input→id and id→output |
| GraphVisualizer.BuildKeepsOrder | python/graph_visualizer.py:35-49 | the graph after any prefix of the records is a prefix of the final node order |
| GraphVisualizer.BuildLabels | python/graph_visualizer.py:37-48 | a label is the canonical identifier, or the canonical type of a record with that id |
| GraphVisualizer.BuildCanonicalLabels | python/graph_visualizer.py:38-48 | every label of the built graph is a category |
| GraphVisualizer.OpNodeLabel | python/graph_visualizer.py:37-39 | a record's node carries the canonical operator type, unless a later record reuses the id |
| GraphVisualizer.OnnxToGraph | python/graph_visualizer.py:31-56 | the loop on a fresh `DiGraph` builds the fold of the records; an unreadable model gives the empty graph |
| GraphVisualizer.DumpGraphJson | python/graph_visualizer.py:59-72 | one entry per node in node order, the edge list, and the category tally of the entries |
| GraphVisualizer.CategoriesAreLabels | python/graph_visualizer.py:63-67 | canonicalising the labels again changes nothing |
| GraphVisualizer.DumpCounts | python/graph_visualizer.py:63-67 | the counts add up to the node count, each count is the number of nodes with that label, and only occurring labels are keys |
| GraphVisualizer.CountEntries | python/graph_visualizer.py:88-92 | the counting loop computes the category tally of the entries |
| GraphVisualizer.SimulatePassFusionGraph | python/graph_visualizer.py:75-95 | relabelled entries in node order, the unchanged edge list, and the tally of the new categories |
| GraphVisualizer.FuseCategory | python/graph_visualizer.py:81-82 | the relabelling of one label; stated by `GraphVisualizer.FusionKeepsIds` and `GraphVisualizer.FuseAllCounts` |
| GraphVisualizer.FuseAllCounts | python/graph_visualizer.py:79-92 | relabelling moves the `Conv`, `MatMul/Gemm` and `FusedOp` occurrences onto `FusedOp` and leaves other categories alone |
| GraphVisualizer.FusionKeepsIds | python/graph_visualizer.py:79-86 | fusion keeps every id at its position; exactly the `Conv` and `MatMul/Gemm` labels become `FusedOp` |
| GraphVisualizer.FusedCategories | python/graph_visualizer.py:79-92 | the categories after fusion are the relabelled labels |
| GraphVisualizer.FuseTallyCounts | python/graph_visualizer.py:81-92 | the new `FusedOp` count is the sum of the old `Conv`, `MatMul/Gemm` and `FusedOp` counts; other counts are unchanged |
| GraphVisualizer.FuseTallyKeys | python/graph_visualizer.py:81-92 | no `Conv` or `MatMul/Gemm` key remains, and the total is unchanged |
| GraphVisualizer.FusionCounts | python/graph_visualizer.py:81-92 | the count relation holds between the summary of a model and its fused summary, and the total is still the node count |
| ExportModel.ColorOf | python/export_model.py:56 | a known label gets its own table colour, and the colour is grey exactly when the label is not a key of the table |
| ExportModel.ColorGroups | python/export_model.py:8-18 | the colour of each operator group: blue, red, green, purple and yellow |
| ExportModel.Shown | python/export_model.py:26 | the record's type is not in `TRIVIAL_OPS`; its effect is stated by `ExportModel.TrivialSkipped` and `ExportModel.BuildShape` |
| ExportModel.Build | python/export_model.py:21-48 | the graph `onnx_to_graph` returns; stated by `ExportModel.BuildShape`, `ExportModel.BuildLabels` and `ExportModel.BuildWellFormed` |
| ExportModel.StepShape | python/export_model.py:25-41 | a drawn record's iteration adds exactly its nodes and edges; a trivial record's iteration adds nothing; well-formedness and order are kept |
| ExportModel.StepLabelling | python/export_model.py:29-40 | one iteration keeps each label or sets it to the raw operator type or the identifier itself |
| ExportModel.TrivialSkipped | python/export_model.py:26-27 | a trivial record leaves the graph as it was |
| ExportModel.BuildWellFormed | python/export_model.py:33-41 | the built graph is valid, every node is labelled, and every edge endpoint is a node |
| ExportModel.BuildShape | python/export_model.py:25-41 | the nodes and edges are exactly those of the non-trivial records |
| ExportModel.BuildKeepsOrder | python/export_model.py:25-41 | the graph after any prefix of the records is a prefix of the final node order |
| ExportModel.BuildLabels | python/export_model.py:30-40 | a label is the identifier itself, or the raw operator type of a drawn record with that id |
| ExportModel.FilterExample | python/export_model.py:5-41 | a `Conv` x→y followed by an `Identity` y→z gives nodes {x, Conv_0, y} and only the Conv edges |
| ExportModel.SkippedIndexCounts | python/export_model.py:25-29 | after a skipped `Identity`, an unnamed `Relu` is `Relu_1` |
| ExportModel.OpNodeLabel | python/export_model.py:29-31 | a drawn record's node carries its raw operator type, unless a later drawn record reuses the id |
| ExportModel.OnnxToGraph | python/export_model.py:21-48 | the loop with its `continue` builds the fold of the records; an unreadable model gives the empty graph |
| ExportModel.DumpGraphJson | python/export_model.py:51-64 | coloured entries in node order and the edge list |
| ExportModel.ExportExact | python/export_model.py:53-59 | each node has one entry, in order, with its label, and is grey exactly when the label has no colour; each edge is listed once |
| ExportModel.SimulatePassFusionGraph | python/export_model.py:67-81 | relabelled, recoloured entries in node order and the unchanged edge list |
| ExportModel.FuseLabel | python/export_model.py:73-74 | the substring relabelling of one label; stated by `ExportModel.FusionRelabels` and `ExportModel.GemmNotFused` |
| ExportModel.FusionRelabels | python/export_model.py:71-76 | ids keep their positions; labels containing `Conv` or `MatMul` become yellow `FusedOp`; every other entry is unchanged |
| ExportModel.GemmNotFused | python/export_model.py:73-75 | a `Gemm` label is not relabelled and stays red |
| ExportModel.QualifiedConvFused | python/export_model.py:73-74 | a qualified convolution `onnx::Conv_3` is relabelled |

## Left out

- Loading the model file (`onnx.load`) is external. A model is given as its list of operation records, or as `Unreadable`; an unreadable model, like any exception on the parse path, gives the empty graph.
- The `print` diagnostics are not modelled. This includes the empty-graph warning at python/export_model.py:61-62, which only prints.
- python/ir_diff.py, app/app.py, python/dump_relay.py, the benchmark scripts, python/quantize_model.py, python/run_comparison.py and python/compiler_insights.py are not part of this model. They are UI, subprocess, timing, floating-point or foreign-library code.
- The floating-point fusion-reduction percentage is not part of this model.
- A `DiGraph` node's attributes are limited to its `label`. Only the methods the builders call are modelled: `add_node`, `add_edge`, `has_node`, iteration over nodes, and iteration over edges.
- Some behaviours of the source that a reader might not expect, all modelled as written:
  - networkx's `DiGraph` stores each edge once, so a repeated `add_edge` adds nothing (`DiGraphs.AddEdgeTwice`).
  - `TRIVIAL_OPS`, `CANONICAL_MAP` and `COLOR_MAP` are module constants, modelled as constants.
  - The two builders are separate functions with separate steps.
  - After fusion, the `FusedOp` count includes nodes that were already `FusedOp` (`GraphVisualizer.FusionCounts`).
  - The substring test does not fuse `Gemm` (`ExportModel.GemmNotFused`).
- No lemma states a node count. `BuildShape` gives the node set exactly. A count of drawn records plus distinct values fails when two drawn records share an id, or when a name equals a value identifier.
- Counting.Tally: `counts` is a Python dict whose keys keep the order in which each category first appears along the node list (python/graph_visualizer.py:63-67, 89-92). The model's `map<string, nat>` keeps the counts but not that key order, which only affects how the dict is displayed.
