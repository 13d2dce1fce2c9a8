/**
 * python/export_model.py: the builder variant that hides trivial operators,
 * keeps raw operator types and identifiers as labels, colours every node for
 * display, and simulates fusion by a substring test on the labels.
 */
module ExportModel {
  import opened Strings
  import opened Records
  import opened DiGraphs
  import opened Linking
  import opened Building

  /** Operator types that are left out of the graph. */
  const TrivialOps: set<string> := {"Identity", "Dropout", "Constant", "Reshape", "Flatten"}

  /** Display colour of each known label. */
  const ColorMap: map<string, string> := map[
    "Conv" := "#4B9CD3",
    "MatMul" := "#E74C3C",
    "Gemm" := "#E74C3C",
    "Relu" := "#2ECC71",
    "Sigmoid" := "#2ECC71",
    "Tanh" := "#2ECC71",
    "Add" := "#9B59B6",
    "Mul" := "#9B59B6",
    "FusedOp" := "#F1C40F"
  ]

  /** The grey every other label gets. */
  const DefaultColor: string := "#95A5A6"

  /** `{"id": n, "label": lbl, "color": color}`. */
  datatype ColoredNode = ColoredNode(id: string, lbl: string, color: string)

  /** `{"nodes": ..., "edges": ...}`. */
  datatype Export = Export(nodes: seq<ColoredNode>, edges: seq<EdgeEntry>)

  /** `COLOR_MAP.get(lbl, "#95A5A6")`: the grey default is exactly the colour of
    * the labels the table does not know, since no known label is grey. */
  function ColorOf(lbl: string): (color: string)
    ensures color == DefaultColor <==> lbl !in ColorMap
    ensures lbl in ColorMap ==> color == ColorMap[lbl]
    ensures color == DefaultColor || color in ColorMap.Values
  {
    if lbl in ColorMap then
      assert ColorMap[lbl][1] != DefaultColor[1] || ColorMap[lbl][2] != DefaultColor[2];
      ColorMap[lbl]
    else
      DefaultColor
  }

  /** The operator groups the colour table makes: one blue, one red, one green,
    * one purple, and yellow for fused nodes. */
  lemma ColorGroups()
    ensures ColorOf("Conv") == "#4B9CD3"
    ensures ColorOf("MatMul") == ColorOf("Gemm") == "#E74C3C"
    ensures ColorOf("Relu") == ColorOf("Sigmoid") == ColorOf("Tanh") == "#2ECC71"
    ensures ColorOf("Add") == ColorOf("Mul") == "#9B59B6"
    ensures ColorOf("FusedOp") == "#F1C40F"
  {
    assert "Conv" in ColorMap && "MatMul" in ColorMap && "Gemm" in ColorMap;
    assert "Relu" in ColorMap && "Sigmoid" in ColorMap && "Tanh" in ColorMap;
    assert "Add" in ColorMap && "Mul" in ColorMap && "FusedOp" in ColorMap;
  }

  /** The record is drawn: its operator type is not a trivial one. */
  predicate Shown(op: OpRecord)
  {
    op.opType !in TrivialOps
  }

  /** A value-node is labelled by its own identifier. */
  function Raw(x: string): string
  {
    x
  }

  // ---------------------------------------------------------------------------
  // Building the graph

  /** One iteration of `onnx_to_graph`'s loop over the record at index `i`: a
    * trivial record is skipped; any other adds its node labelled by its raw
    * operator type, then its inputs and outputs, new ones labelled by their
    * identifier. */
  function Step(g: Graph, op: OpRecord, i: nat): Graph
  {
    if !Shown(op) then g else Attach(g, NodeId(op, i), op.opType, op.inputs, op.outputs, Raw)
  }

  /** The graph `onnx_to_graph` returns; an unreadable model gives the empty graph. */
  function Build(model: LoadedModel): Graph
  {
    match model
    case Unreadable => Empty
    case Loaded(ops) => Run(ops, |ops|, Step)
  }

  /** The nodes a drawn record asks for. */
  predicate ShownTouches(op: OpRecord, i: nat, n: string)
  {
    Shown(op) && Touches(op, i, n)
  }

  /** The edges a drawn record asks for. */
  predicate ShownLinks(op: OpRecord, i: nat, e: EdgeEntry)
  {
    Shown(op) && Links(op, i, e)
  }

  /** A label record `op` at index `i` may leave on node `n`: the identifier
    * itself, or, on a drawn record's own node, its raw operator type. */
  predicate LabelFits(op: OpRecord, i: nat, n: string, lbl: string)
  {
    lbl == n || (Shown(op) && n == NodeId(op, i) && lbl == op.opType)
  }

  /** One iteration keeps the graph well formed, never moves a node, and adds
    * exactly the nodes and edges of a drawn record, and nothing for a trivial one. */
  lemma StepShape()
    ensures Keeps(Step, WellFormed) && Appends(Step, WellFormed)
    ensures AddsNodes(Step, WellFormed, ShownTouches) && AddsEdges(Step, WellFormed, ShownLinks)
  {
    forall g, op, i | WellFormed(g)
      ensures WellFormed(Step(g, op, i)) && g.nodes <= Step(g, op, i).nodes
      ensures forall n :: n in NodeSet(Step(g, op, i)) <==> n in NodeSet(g) || ShownTouches(op, i, n)
      ensures forall e :: e in EdgeSet(Step(g, op, i)) <==> e in EdgeSet(g) || ShownLinks(op, i, e)
    {
      if Shown(op) {
        AttachEffect(g, NodeId(op, i), op.opType, op.inputs, op.outputs, Raw);
      }
    }
  }

  /** One iteration leaves every label either alone or as `LabelFits` says. */
  lemma StepLabelling()
    ensures LabelsBy(Step, WellFormed, LabelFits)
  {
    forall g, op, i | WellFormed(g)
      ensures forall n :: n in Step(g, op, i).labels ==>
        || (n in g.labels && Step(g, op, i).labels[n] == g.labels[n])
        || LabelFits(op, i, n, Step(g, op, i).labels[n])
    {
      if Shown(op) {
        var id := NodeId(op, i);
        AttachLabels(g, id, op.opType, op.inputs, op.outputs, Raw);
        AttachValueLabels(g, id, op.opType, op.inputs, op.outputs, Raw);
      }
    }
  }

  /** A trivial record changes nothing, whatever the graph. */
  lemma TrivialSkipped(ops: seq<OpRecord>, k: nat)
    requires k < |ops| && !Shown(ops[k])
    ensures Run(ops, k + 1, Step) == Run(ops, k, Step)
  {
  }

  /** No dangling edges: the graph is well formed, every node has a label and
    * both ends of every edge are nodes. */
  lemma BuildWellFormed(model: LoadedModel)
    ensures WellFormed(Build(model))
    ensures forall e :: e in EdgeSet(Build(model)) ==>
      e.source in NodeSet(Build(model)) && e.target in NodeSet(Build(model))
  {
    if model.Loaded? {
      StepShape();
      RunInv(model.ops, |model.ops|, Step, WellFormed);
    }
    EdgeListExact(Build(model));
  }

  /** The nodes are exactly the drawn records' ids and the identifiers they
    * read or write; the edges are exactly theirs.  A trivial record contributes
    * neither, and its outputs appear only if a drawn record names them. */
  lemma BuildShape(ops: seq<OpRecord>)
    ensures forall n :: n in NodeSet(Build(Loaded(ops))) <==>
      exists i :: 0 <= i < |ops| && Shown(ops[i]) && Touches(ops[i], i, n)
    ensures forall e :: e in EdgeSet(Build(Loaded(ops))) <==>
      exists i :: 0 <= i < |ops| && Shown(ops[i]) && Links(ops[i], i, e)
  {
    StepShape();
    RunNodes(ops, |ops|, Step, WellFormed, ShownTouches);
    RunEdges(ops, |ops|, Step, WellFormed, ShownLinks);
  }

  /** A node keeps the position of its first insertion. */
  lemma BuildKeepsOrder(ops: seq<OpRecord>, k: nat)
    requires k <= |ops|
    ensures Run(ops, k, Step).nodes <= Build(Loaded(ops)).nodes
  {
    StepShape();
    RunGrows(ops, k, |ops|, Step, WellFormed);
  }

  /** Labels are raw: a value-node is labelled by its identifier, an
    * operation-node by the operator type of a drawn record with that id. */
  lemma BuildLabels(ops: seq<OpRecord>)
    ensures forall n :: n in Build(Loaded(ops)).labels ==>
      || Build(Loaded(ops)).labels[n] == n
      || exists i :: 0 <= i < |ops| && Shown(ops[i]) && n == NodeId(ops[i], i) &&
           Build(Loaded(ops)).labels[n] == ops[i].opType
  {
    StepShape();
    StepLabelling();
    RunLabels(ops, |ops|, Step, WellFormed, LabelFits);
  }

  /** A named convolution reading `x` and writing `y`, then an `Identity` from
    * `y` to `z`: the `Identity` leaves neither a node nor an edge, and `z`,
    * which only it names, is not a node. */
  lemma FilterExample()
    ensures var g := Build(Loaded([OpRecord("Conv", "Conv_0", ["x"], ["y"]), OpRecord("Identity", "", ["y"], ["z"])]));
      && NodeSet(g) == {"x", "Conv_0", "y"}
      && forall e :: e in EdgeSet(g) <==> e == EdgeEntry("x", "Conv_0") || e == EdgeEntry("Conv_0", "y")
  {
    var ops := [OpRecord("Conv", "Conv_0", ["x"], ["y"]), OpRecord("Identity", "", ["y"], ["z"])];
    BuildShape(ops);
    assert Shown(ops[0]) && !Shown(ops[1]);
    assert NodeId(ops[0], 0) == "Conv_0";
  }

  /** A skipped record still takes up its index: after an `Identity`, an
    * unnamed `Relu` is called `Relu_1`, not `Relu_0`. */
  lemma SkippedIndexCounts()
    ensures var g := Build(Loaded([OpRecord("Identity", "", ["a"], ["b"]), OpRecord("Relu", "", ["b"], ["c"])]));
      "Relu_1" in NodeSet(g) && "Relu_0" !in NodeSet(g) && "a" !in NodeSet(g)
  {
    var ops := [OpRecord("Identity", "", ["a"], ["b"]), OpRecord("Relu", "", ["b"], ["c"])];
    BuildShape(ops);
    assert !Shown(ops[0]) && Shown(ops[1]);
    assert NodeId(ops[1], 1) == "Relu_1";
  }

  /** A drawn record's node carries its raw operator type, as long as no later
    * drawn record has the same id. */
  lemma OpNodeLabel(ops: seq<OpRecord>, i: nat)
    requires i < |ops| && Shown(ops[i])
    requires forall j :: i < j < |ops| && Shown(ops[j]) ==> NodeId(ops[j], j) != NodeId(ops[i], i)
    ensures NodeId(ops[i], i) in Build(Loaded(ops)).labels
    ensures Build(Loaded(ops)).labels[NodeId(ops[i], i)] == ops[i].opType
  {
    var id := NodeId(ops[i], i);
    StepShape();
    forall g | WellFormed(g) ensures id in Step(g, ops[i], i).labels && Step(g, ops[i], i).labels[id] == ops[i].opType {
      AttachLabels(g, id, ops[i].opType, ops[i].inputs, ops[i].outputs, Raw);
    }
    forall j, g | i < j < |ops| && WellFormed(g) && id in g.labels
      ensures id in Step(g, ops[j], j).labels && Step(g, ops[j], j).labels[id] == g.labels[id]
    {
      if Shown(ops[j]) {
        AttachLabels(g, NodeId(ops[j], j), ops[j].opType, ops[j].inputs, ops[j].outputs, Raw);
      }
    }
    RunKeepsLabel(ops, i, |ops|, Step, WellFormed, id, ops[i].opType);
  }

  /** `onnx_to_graph`: fills a fresh `DiGraph` record by record, skipping the
    * trivial ones. */
  method OnnxToGraph(model: LoadedModel) returns (g: DiGraph)
    ensures fresh(g)
    ensures g.Value() == Build(model)
  {
    g := new DiGraph();
    if model.Unreadable? {
      return;
    }
    var ops := model.ops;
    var i := 0;
    while i < |ops|
      invariant 0 <= i <= |ops|
      invariant fresh(g)
      invariant g.Value() == Run(ops, i, Step)
    {
      var op := ops[i];
      if op.opType in TrivialOps {
        i := i + 1;
        continue;
      }
      var id := NodeId(op, i);
      g.AddNode(id, op.opType);
      AddInputs(g, op.inputs, id, Raw);
      AddOutputs(g, id, op.outputs, Raw);
      i := i + 1;
    }
  }

  // ---------------------------------------------------------------------------
  // Export

  /** One coloured entry per node, in node order. */
  function ColoredEntries(g: Graph): seq<ColoredNode>
  {
    seq(|g.nodes|, k requires 0 <= k < |g.nodes| =>
      ColoredNode(g.nodes[k], Label(g, g.nodes[k]), ColorOf(Label(g, g.nodes[k]))))
  }

  /** `dump_graph_json`: the coloured node entries in node order and the edge list. */
  method DumpGraphJson(model: LoadedModel) returns (s: Export)
    ensures s.nodes == ColoredEntries(Build(model))
    ensures s.edges == EdgeList(Build(model))
  {
    var g := OnnxToGraph(model);
    var gv := g.Value();
    var nodes: seq<ColoredNode> := [];
    var i := 0;
    while i < |gv.nodes|
      invariant 0 <= i <= |gv.nodes|
      invariant nodes == ColoredEntries(gv)[..i]
    {
      var n := gv.nodes[i];
      var lbl := Label(gv, n);
      var color := ColorOf(lbl);
      assert ColoredEntries(gv)[..i + 1] == ColoredEntries(gv)[..i] + [ColoredNode(n, lbl, color)];
      nodes := nodes + [ColoredNode(n, lbl, color)];
      i := i + 1;
    }
    assert nodes == ColoredEntries(gv);
    s := Export(nodes, EdgeList(gv));
  }

  /** The export has one entry per node, in node order, with the node's own
    * label, coloured grey exactly when the label has no colour of its own; and
    * one entry per edge, each edge once, between exported nodes. */
  lemma ExportExact(model: LoadedModel)
    ensures |ColoredEntries(Build(model))| == |Build(model).nodes| && Distinct(Build(model).nodes)
    ensures forall k :: 0 <= k < |ColoredEntries(Build(model))| ==>
      && ColoredEntries(Build(model))[k].id == Build(model).nodes[k]
      && Build(model).nodes[k] in Build(model).labels
      && ColoredEntries(Build(model))[k].lbl == Build(model).labels[Build(model).nodes[k]]
      && (ColoredEntries(Build(model))[k].color == DefaultColor <==> ColoredEntries(Build(model))[k].lbl !in ColorMap)
    ensures Distinct(EdgeList(Build(model)))
    ensures forall e :: e in EdgeList(Build(model)) <==> e in EdgeSet(Build(model))
  {
    var g := Build(model);
    BuildWellFormed(model);
    EdgeListExact(g);
    forall k | 0 <= k < |g.nodes| ensures g.nodes[k] in g.labels {
      assert g.nodes[k] in g.succ;
    }
  }

  // ---------------------------------------------------------------------------
  // Simulated fusion

  /** `if "Conv" in lbl or "MatMul" in lbl: lbl = "FusedOp"`. */
  function FuseLabel(lbl: string): string
  {
    if Contains(lbl, "Conv") || Contains(lbl, "MatMul") then "FusedOp" else lbl
  }

  /** The relabelled, recoloured entries, in node order. */
  function FusedColoredEntries(g: Graph): seq<ColoredNode>
  {
    seq(|g.nodes|, k requires 0 <= k < |g.nodes| =>
      ColoredNode(g.nodes[k], FuseLabel(Label(g, g.nodes[k])), ColorOf(FuseLabel(Label(g, g.nodes[k])))))
  }

  /** `simulate_pass_fusion_graph`: the relabelled entries in node order and the
    * unchanged edge list. */
  method SimulatePassFusionGraph(model: LoadedModel) returns (s: Export)
    ensures s.nodes == FusedColoredEntries(Build(model))
    ensures s.edges == EdgeList(Build(model))
  {
    var g := OnnxToGraph(model);
    var gv := g.Value();
    var newNodes: seq<ColoredNode> := [];
    var i := 0;
    while i < |gv.nodes|
      invariant 0 <= i <= |gv.nodes|
      invariant newNodes == FusedColoredEntries(gv)[..i]
    {
      var n := gv.nodes[i];
      var lbl := Label(gv, n);
      if Contains(lbl, "Conv") || Contains(lbl, "MatMul") {
        lbl := "FusedOp";
      }
      var color := ColorOf(lbl);
      assert lbl == FuseLabel(Label(gv, n));
      assert ColoredNode(n, lbl, color) == FusedColoredEntries(gv)[i];
      assert FusedColoredEntries(gv)[..i + 1] == FusedColoredEntries(gv)[..i] + [ColoredNode(n, lbl, color)];
      newNodes := newNodes + [ColoredNode(n, lbl, color)];
      i := i + 1;
    }
    assert newNodes == FusedColoredEntries(gv);
    s := Export(newNodes, EdgeList(gv));
  }

  /** Fusion keeps every node id at its position; it relabels to `FusedOp`
    * exactly the nodes whose label has `Conv` or `MatMul` in it, coloured
    * yellow, and leaves every other entry as the export has it. */
  lemma FusionRelabels(model: LoadedModel)
    ensures |FusedColoredEntries(Build(model))| == |ColoredEntries(Build(model))|
    ensures forall k :: 0 <= k < |ColoredEntries(Build(model))| ==>
      var before := ColoredEntries(Build(model))[k];
      var after := FusedColoredEntries(Build(model))[k];
      && after.id == before.id
      && (if (exists p: nat :: OccursAt(before.lbl, "Conv", p)) || (exists p: nat :: OccursAt(before.lbl, "MatMul", p))
          then after.lbl == "FusedOp" && after.color == "#F1C40F"
          else after == before)
  {
    ColorGroups();
  }

  /** The substring test misses `Gemm`: a `Gemm` node keeps its label and its
    * red colour, although the canonicaliser groups it with `MatMul`. */
  lemma GemmNotFused()
    ensures FuseLabel("Gemm") == "Gemm" && ColorOf(FuseLabel("Gemm")) == "#E74C3C"
  {
    assert "Gemm"[0..4][0] != "Conv"[0];
    assert !Contains("Gemm", "MatMul");
    ColorGroups();
  }

  /** A qualified convolution such as `onnx::Conv_3` is fused too, by the same test. */
  lemma QualifiedConvFused()
    ensures FuseLabel("onnx::Conv_3") == "FusedOp"
  {
    assert OccursAt("onnx::Conv_3", "Conv", 6);
  }
}
