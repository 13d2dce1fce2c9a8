/**
 * python/graph_visualizer.py: the canonicalising graph builder, its summary
 * (node list, edge list and per-category counts) and the simulated fusion
 * pass that relabels every `Conv` and `MatMul/Gemm` node as `FusedOp`.
 */
module GraphVisualizer {
  import opened Canonical
  import opened Records
  import opened DiGraphs
  import opened Linking
  import opened Building
  import opened Counting

  /** `{"id": n, "label": lbl}`. */
  datatype NodeEntry = NodeEntry(id: string, lbl: string)

  /** `{"nodes": ..., "edges": ..., "counts": ...}`. */
  datatype Summary = Summary(nodes: seq<NodeEntry>, edges: seq<EdgeEntry>, counts: map<string, nat>)

  // ---------------------------------------------------------------------------
  // Building the graph

  /** One iteration of `onnx_to_graph`'s loop over the record at index `i`: the
    * record's node labelled by its canonical operator type, then its inputs and
    * outputs, new ones labelled by their canonical identifier. */
  function Step(g: Graph, op: OpRecord, i: nat): Graph
  {
    Attach(g, NodeId(op, i), Canonicalize(op.opType), op.inputs, op.outputs, Canonicalize)
  }

  /** The graph `onnx_to_graph` returns; an unreadable model gives the empty graph. */
  function Build(model: LoadedModel): Graph
  {
    match model
    case Unreadable => Empty
    case Loaded(ops) => Run(ops, |ops|, Step)
  }

  /** A label record `op` at index `i` may leave on node `n`: the canonical
    * identifier, or, on the record's own node, the canonical operator type. */
  predicate LabelFits(op: OpRecord, i: nat, n: string, lbl: string)
  {
    lbl == Canonicalize(n) || (n == NodeId(op, i) && lbl == Canonicalize(op.opType))
  }

  /** Every label is its own category. */
  ghost predicate CanonicalLabels(g: Graph)
  {
    forall n :: n in g.labels ==> IsCategory(g.labels[n])
  }

  /** One iteration keeps the graph well formed, never moves a node, and adds
    * exactly the nodes and the edges its record asks for. */
  lemma StepShape()
    ensures Keeps(Step, WellFormed) && Appends(Step, WellFormed)
    ensures AddsNodes(Step, WellFormed, Touches) && AddsEdges(Step, WellFormed, Links)
  {
    forall g, op, i | WellFormed(g)
      ensures WellFormed(Step(g, op, i)) && g.nodes <= Step(g, op, i).nodes
      ensures forall n :: n in NodeSet(Step(g, op, i)) <==> n in NodeSet(g) || Touches(op, i, n)
      ensures forall e :: e in EdgeSet(Step(g, op, i)) <==> e in EdgeSet(g) || Links(op, i, e)
    {
      AttachEffect(g, NodeId(op, i), Canonicalize(op.opType), op.inputs, op.outputs, Canonicalize);
    }
  }

  /** One iteration leaves every label either alone or as `LabelFits` says. */
  lemma StepLabelling()
    ensures LabelsBy(Step, WellFormed, LabelFits)
  {
    forall g, op, i | WellFormed(g)
      ensures forall n :: n in Step(g, op, i).labels ==>
        || (n in g.labels && Step(g, op, i).labels[n] == g.labels[n])
        || LabelFits(op, i, n, Step(g, op, i).labels[n])
    {
      var id := NodeId(op, i);
      AttachLabels(g, id, Canonicalize(op.opType), op.inputs, op.outputs, Canonicalize);
      AttachValueLabels(g, id, Canonicalize(op.opType), op.inputs, op.outputs, Canonicalize);
    }
  }

  /** No dangling edges: the graph is well formed, every node has a label and
    * both ends of every edge are nodes. */
  lemma BuildWellFormed(model: LoadedModel)
    ensures WellFormed(Build(model))
    ensures forall e :: e in EdgeSet(Build(model)) ==>
      e.source in NodeSet(Build(model)) && e.target in NodeSet(Build(model))
  {
    if model.Loaded? {
      StepShape();
      RunInv(model.ops, |model.ops|, Step, WellFormed);
    }
    EdgeListExact(Build(model));
  }

  /** The nodes are exactly the records' ids and the identifiers they read or
    * write; the edges are exactly input-to-record and record-to-output. */
  lemma BuildShape(ops: seq<OpRecord>)
    ensures forall n :: n in NodeSet(Build(Loaded(ops))) <==>
      exists i :: 0 <= i < |ops| && Touches(ops[i], i, n)
    ensures forall e :: e in EdgeSet(Build(Loaded(ops))) <==>
      exists i :: 0 <= i < |ops| && Links(ops[i], i, e)
  {
    StepShape();
    RunNodes(ops, |ops|, Step, WellFormed, Touches);
    RunEdges(ops, |ops|, Step, WellFormed, Links);
  }

  /** A node keeps the position of its first insertion: the nodes after the
    * first `k` records lead the final node list in the same order. */
  lemma BuildKeepsOrder(ops: seq<OpRecord>, k: nat)
    requires k <= |ops|
    ensures Run(ops, k, Step).nodes <= Build(Loaded(ops)).nodes
  {
    StepShape();
    RunGrows(ops, k, |ops|, Step, WellFormed);
  }

  /** A value-node is labelled by its canonical identifier, an operation-node by
    * the canonical operator type of a record with that id; either way every
    * label is a category. */
  lemma BuildLabels(ops: seq<OpRecord>)
    ensures forall n :: n in Build(Loaded(ops)).labels ==>
      || Build(Loaded(ops)).labels[n] == Canonicalize(n)
      || exists i :: 0 <= i < |ops| && n == NodeId(ops[i], i) &&
           Build(Loaded(ops)).labels[n] == Canonicalize(ops[i].opType)
    ensures CanonicalLabels(Build(Loaded(ops)))
  {
    var g := Build(Loaded(ops));
    StepShape();
    StepLabelling();
    RunLabels(ops, |ops|, Step, WellFormed, LabelFits);
    forall n | n in g.labels ensures IsCategory(g.labels[n]) {
      var i :| 0 <= i < |ops| && LabelFits(ops[i], i, n, g.labels[n]);
      CanonicalizeIdempotent(n);
      CanonicalizeIdempotent(ops[i].opType);
    }
  }

  lemma BuildCanonicalLabels(model: LoadedModel)
    ensures CanonicalLabels(Build(model))
  {
    if model.Loaded? {
      BuildLabels(model.ops);
    }
  }

  /** A record's node carries the canonical operator type of that record, as
    * long as no later record has the same id. */
  lemma OpNodeLabel(ops: seq<OpRecord>, i: nat)
    requires i < |ops|
    requires forall j :: i < j < |ops| ==> NodeId(ops[j], j) != NodeId(ops[i], i)
    ensures NodeId(ops[i], i) in Build(Loaded(ops)).labels
    ensures Build(Loaded(ops)).labels[NodeId(ops[i], i)] == Canonicalize(ops[i].opType)
  {
    var id := NodeId(ops[i], i);
    var lbl := Canonicalize(ops[i].opType);
    StepShape();
    forall g | WellFormed(g) ensures id in Step(g, ops[i], i).labels && Step(g, ops[i], i).labels[id] == lbl {
      AttachLabels(g, id, lbl, ops[i].inputs, ops[i].outputs, Canonicalize);
    }
    forall j, g | i < j < |ops| && WellFormed(g) && id in g.labels
      ensures id in Step(g, ops[j], j).labels && Step(g, ops[j], j).labels[id] == g.labels[id]
    {
      AttachLabels(g, NodeId(ops[j], j), Canonicalize(ops[j].opType), ops[j].inputs, ops[j].outputs, Canonicalize);
    }
    RunKeepsLabel(ops, i, |ops|, Step, WellFormed, id, lbl);
  }

  /** `onnx_to_graph`: fills a fresh `DiGraph` record by record. */
  method OnnxToGraph(model: LoadedModel) returns (g: DiGraph)
    ensures fresh(g)
    ensures g.Value() == Build(model)
  {
    g := new DiGraph();
    if model.Unreadable? {
      return;
    }
    var ops := model.ops;
    var i := 0;
    while i < |ops|
      invariant 0 <= i <= |ops|
      invariant fresh(g)
      invariant g.Value() == Run(ops, i, Step)
    {
      var op := ops[i];
      var id := NodeId(op, i);
      g.AddNode(id, Canonicalize(op.opType));
      AddInputs(g, op.inputs, id, Canonicalize);
      AddOutputs(g, id, op.outputs, Canonicalize);
      i := i + 1;
    }
  }

  // ---------------------------------------------------------------------------
  // Summary

  /** `[{"id": n, "label": g.nodes[n].get("label", n)} for n in g.nodes]`. */
  function NodeEntries(g: Graph): seq<NodeEntry>
  {
    seq(|g.nodes|, k requires 0 <= k < |g.nodes| => NodeEntry(g.nodes[k], Label(g, g.nodes[k])))
  }

  /** The category each entry is counted under. */
  function Categories(entries: seq<NodeEntry>): seq<string>
  {
    seq(|entries|, k requires 0 <= k < |entries| => Canonicalize(entries[k].lbl))
  }

  function Labels(entries: seq<NodeEntry>): seq<string>
  {
    seq(|entries|, k requires 0 <= k < |entries| => entries[k].lbl)
  }

  /** `dump_graph_json`: one entry per node in node order, the edge list, and
    * the tally of the nodes' categories. */
  method DumpGraphJson(model: LoadedModel) returns (s: Summary)
    ensures s.nodes == NodeEntries(Build(model))
    ensures s.edges == EdgeList(Build(model))
    ensures s.counts == Tally(Categories(s.nodes))
  {
    var g := OnnxToGraph(model);
    var gv := g.Value();
    ghost var cats := Categories(NodeEntries(gv));
    var counts: map<string, nat> := map[];
    var i := 0;
    while i < |gv.nodes|
      invariant 0 <= i <= |gv.nodes|
      invariant counts == Tally(cats[..i])
    {
      var n := gv.nodes[i];
      var cat := Canonicalize(Label(gv, n));
      assert cats[..i + 1][..i] == cats[..i];
      counts := counts[cat := Get(counts, cat) + 1];
      i := i + 1;
    }
    assert cats[..i] == cats;
    s := Summary(NodeEntries(gv), EdgeList(gv), counts);
  }

  /** Every label of a built graph is already a category, so counting by
    * category is counting by label. */
  lemma CategoriesAreLabels(model: LoadedModel)
    ensures Categories(NodeEntries(Build(model))) == Labels(NodeEntries(Build(model)))
  {
    var g := Build(model);
    BuildWellFormed(model);
    BuildCanonicalLabels(model);
    var entries := NodeEntries(g);
    forall k | 0 <= k < |entries| ensures Categories(entries)[k] == Labels(entries)[k] {
      assert g.nodes[k] in g.succ;
    }
  }

  /** The counts add up to the number of nodes, each count is the number of
    * nodes carrying that label, and only labels that occur are counted. */
  lemma DumpCounts(model: LoadedModel)
    ensures Total(Tally(Categories(NodeEntries(Build(model))))) == |Build(model).nodes|
    ensures forall c :: Get(Tally(Categories(NodeEntries(Build(model)))), c) == Count(Labels(NodeEntries(Build(model))), c)
    ensures forall c :: c in Tally(Categories(NodeEntries(Build(model)))) <==> c in Labels(NodeEntries(Build(model)))
  {
    CategoriesAreLabels(model);
    TallyCounts(Labels(NodeEntries(Build(model))));
    TallyKeys(Labels(NodeEntries(Build(model))));
    TallyTotal(Labels(NodeEntries(Build(model))));
  }

  // ---------------------------------------------------------------------------
  // Simulated fusion

  /** `if lbl in ("Conv", "MatMul/Gemm"): lbl = "FusedOp"`. */
  function FuseCategory(c: string): string
  {
    if c == "Conv" || c == "MatMul/Gemm" then "FusedOp" else c
  }

  /** The relabelled entries, canonicalised once more as the source does. */
  function FusedEntries(g: Graph): seq<NodeEntry>
  {
    seq(|g.nodes|, k requires 0 <= k < |g.nodes| => NodeEntry(g.nodes[k], Canonicalize(FuseCategory(Label(g, g.nodes[k])))))
  }

  /** The tally loop over a list of entries: `for n in new_nodes: cat =
    * canonicalize(n["label"]); counts[cat] = counts.get(cat, 0) + 1`. */
  method CountEntries(entries: seq<NodeEntry>) returns (counts: map<string, nat>)
    ensures counts == Tally(Categories(entries))
  {
    ghost var cats := Categories(entries);
    counts := map[];
    var i := 0;
    while i < |entries|
      invariant 0 <= i <= |entries|
      invariant counts == Tally(cats[..i])
    {
      var cat := Canonicalize(entries[i].lbl);
      assert cats[..i + 1][..i] == cats[..i];
      counts := counts[cat := Get(counts, cat) + 1];
      i := i + 1;
    }
    assert cats[..i] == cats;
  }

  /** `simulate_pass_fusion_graph`: the relabelled entries in node order, the
    * unchanged edge list, and the tally of the new categories. */
  method SimulatePassFusionGraph(model: LoadedModel) returns (s: Summary)
    ensures s.nodes == FusedEntries(Build(model))
    ensures s.edges == EdgeList(Build(model))
    ensures s.counts == Tally(Categories(s.nodes))
  {
    var g := OnnxToGraph(model);
    var gv := g.Value();
    var newNodes: seq<NodeEntry> := [];
    var i := 0;
    while i < |gv.nodes|
      invariant 0 <= i <= |gv.nodes|
      invariant newNodes == FusedEntries(gv)[..i]
    {
      var n := gv.nodes[i];
      var lbl := Label(gv, n);
      if lbl == "Conv" || lbl == "MatMul/Gemm" {
        lbl := "FusedOp";
      }
      lbl := Canonicalize(lbl);
      assert FusedEntries(gv)[i] == NodeEntry(n, lbl);
      assert FusedEntries(gv)[..i + 1] == FusedEntries(gv)[..i] + [NodeEntry(n, lbl)];
      newNodes := newNodes + [NodeEntry(n, lbl)];
      i := i + 1;
    }
    assert newNodes == FusedEntries(gv);
    var edges := EdgeList(gv);
    var counts := CountEntries(newNodes);
    s := Summary(newNodes, edges, counts);
  }

  function FuseAll(cats: seq<string>): seq<string>
  {
    seq(|cats|, k requires 0 <= k < |cats| => FuseCategory(cats[k]))
  }

  /** Relabelling moves every `Conv`, `MatMul/Gemm` and `FusedOp` occurrence to
    * `FusedOp` and leaves every other category's occurrences alone. */
  lemma {:induction false} FuseAllCounts(cats: seq<string>)
    ensures Count(FuseAll(cats), "FusedOp") == Count(cats, "Conv") + Count(cats, "MatMul/Gemm") + Count(cats, "FusedOp")
    ensures Count(FuseAll(cats), "Conv") == 0 && Count(FuseAll(cats), "MatMul/Gemm") == 0
    ensures forall c :: c != "Conv" && c != "MatMul/Gemm" && c != "FusedOp" ==> Count(FuseAll(cats), c) == Count(cats, c)
  {
    if cats != [] {
      var init := cats[..|cats| - 1];
      FuseAllCounts(init);
      assert FuseAll(cats)[..|cats| - 1] == FuseAll(init);
    }
  }

  /** Fusion keeps every node id at its position and, on a canonical graph,
    * relabels exactly the `Conv` and `MatMul/Gemm` nodes. */
  lemma FusionKeepsIds(model: LoadedModel)
    ensures |FusedEntries(Build(model))| == |NodeEntries(Build(model))|
    ensures forall k :: 0 <= k < |FusedEntries(Build(model))| ==>
      && FusedEntries(Build(model))[k].id == NodeEntries(Build(model))[k].id
      && FusedEntries(Build(model))[k].lbl == FuseCategory(NodeEntries(Build(model))[k].lbl)
  {
    var g := Build(model);
    BuildWellFormed(model);
    BuildCanonicalLabels(model);
    forall k | 0 <= k < |g.nodes| ensures FusedEntries(g)[k].lbl == FuseCategory(NodeEntries(g)[k].lbl) {
      assert g.nodes[k] in g.succ;
      FusedOpIsCategory();
    }
  }

  /** The category of each fused entry is the fused label of the node. */
  lemma FusedCategories(model: LoadedModel)
    ensures Categories(FusedEntries(Build(model))) == FuseAll(Labels(NodeEntries(Build(model))))
  {
    FusionKeepsIds(model);
    var g := Build(model);
    var fused := FusedEntries(g);
    var labels := Labels(NodeEntries(g));
    BuildWellFormed(model);
    BuildCanonicalLabels(model);
    forall k | 0 <= k < |fused| ensures Categories(fused)[k] == FuseAll(labels)[k] {
      assert g.nodes[k] in g.succ;
      FusedOpIsCategory();
    }
  }

  /** Tallied, relabelling moves the `Conv`, `MatMul/Gemm` and `FusedOp`
    * counts onto `FusedOp` and leaves every other count alone. */
  lemma FuseTallyCounts(cats: seq<string>)
    ensures var before := Tally(cats);
      var after := Tally(FuseAll(cats));
      && Get(after, "FusedOp") == Get(before, "Conv") + Get(before, "MatMul/Gemm") + Get(before, "FusedOp")
      && (forall c :: c != "Conv" && c != "MatMul/Gemm" && c != "FusedOp" ==> Get(after, c) == Get(before, c))
  {
    FuseAllCounts(cats);
    TallyCounts(cats);
    TallyCounts(FuseAll(cats));
  }

  /** Tallied, relabelling leaves no `Conv` or `MatMul/Gemm` key and keeps the total. */
  lemma FuseTallyKeys(cats: seq<string>)
    ensures "Conv" !in Tally(FuseAll(cats)) && "MatMul/Gemm" !in Tally(FuseAll(cats))
    ensures Total(Tally(FuseAll(cats))) == Total(Tally(cats)) == |cats|
  {
    TallyKeys(FuseAll(cats));
    assert "Conv" !in FuseAll(cats) && "MatMul/Gemm" !in FuseAll(cats) by {
      forall k | 0 <= k < |cats| ensures FuseAll(cats)[k] != "Conv" && FuseAll(cats)[k] != "MatMul/Gemm" {
        assert FuseAll(cats)[k] == FuseCategory(cats[k]);
      }
    }
    TallyTotal(cats);
    TallyTotal(FuseAll(cats));
  }

  /** After fusion `FusedOp` counts what `Conv`, `MatMul/Gemm` and `FusedOp`
    * counted before, `Conv` and `MatMul/Gemm` are gone, every other count is
    * unchanged and the total is still the node count. */
  lemma FusionCounts(model: LoadedModel)
    ensures var before := Tally(Categories(NodeEntries(Build(model))));
      var after := Tally(Categories(FusedEntries(Build(model))));
      && Get(after, "FusedOp") == Get(before, "Conv") + Get(before, "MatMul/Gemm") + Get(before, "FusedOp")
      && "Conv" !in after && "MatMul/Gemm" !in after
      && (forall c :: c != "Conv" && c != "MatMul/Gemm" && c != "FusedOp" ==> Get(after, c) == Get(before, c))
      && Total(after) == Total(before) == |Build(model).nodes|
  {
    CategoriesAreLabels(model);
    FusedCategories(model);
    FuseTallyCounts(Labels(NodeEntries(Build(model))));
    FuseTallyKeys(Labels(NodeEntries(Build(model))));
  }
}
