/**
 * The two inner loops that both builders run for an operation-node `id`:
 * every input identifier becomes a value-node (if it is not a node yet) and
 * gets an edge into `id`; every output identifier becomes a value-node (if it
 * is not a node yet) and gets an edge out of `id`.  The builders differ only in
 * the label a new value-node receives, so it is passed as `lab`.
 */
module Linking {
  import opened DiGraphs

  /** `if not g.has_node(x): g.add_node(x, label=lbl)`. */
  function WithValueNode(g: Graph, x: string, lbl: string): Graph
  {
    if x in g.succ then g else WithNode(g, x, lbl)
  }

  /** One iteration of either loop: the value-node `x` and one edge between `x`
    * and the operation-node `id`. */
  lemma LinkStep(g: Graph, x: string, id: string, lbl: string, u: string, v: string)
    requires Valid(g) && Labelled(g) && id in g.succ
    requires (u == x && v == id) || (u == id && v == x)
    ensures var r := WithEdge(WithValueNode(g, x, lbl), u, v);
      && Valid(r) && Labelled(r) && g.nodes <= r.nodes
      && NodeSet(r) == NodeSet(g) + {x}
      && EdgeSet(r) == EdgeSet(g) + iset{EdgeEntry(u, v)}
      && (forall n :: n in g.labels ==> n in r.labels && r.labels[n] == g.labels[n])
      && (forall n :: n in r.labels && n !in g.labels ==> n == x && r.labels[n] == lbl)
  {
    WithNodeEffect(g, x, lbl);
    WithEdgeEffect(WithValueNode(g, x, lbl), u, v);
  }

  /** The graph after the input loop has visited `xs`. */
  function LinkInputs(g: Graph, xs: seq<string>, id: string, lab: string -> string): Graph
  {
    if xs == [] then
      g
    else
      var h := LinkInputs(g, xs[..|xs| - 1], id, lab);
      var x := xs[|xs| - 1];
      WithEdge(WithValueNode(h, x, lab(x)), x, id)
  }

  /** The graph after the output loop has visited `xs`. */
  function LinkOutputs(g: Graph, id: string, xs: seq<string>, lab: string -> string): Graph
  {
    if xs == [] then
      g
    else
      var h := LinkOutputs(g, id, xs[..|xs| - 1], lab);
      var x := xs[|xs| - 1];
      WithEdge(WithValueNode(h, x, lab(x)), id, x)
  }

  /** What the input loop does to a well-formed, fully labelled graph that
    * already holds `id`: it adds exactly the inputs as nodes and exactly the
    * edges from them into `id`, and keeps every existing node's position. */
  lemma {:induction false} LinkInputsEffect(g: Graph, xs: seq<string>, id: string, lab: string -> string)
    requires Valid(g) && Labelled(g) && id in g.succ
    ensures Valid(LinkInputs(g, xs, id, lab)) && Labelled(LinkInputs(g, xs, id, lab))
    ensures g.nodes <= LinkInputs(g, xs, id, lab).nodes
    ensures forall n :: n in NodeSet(LinkInputs(g, xs, id, lab)) <==> n in NodeSet(g) || n in xs
    ensures forall e :: e in EdgeSet(LinkInputs(g, xs, id, lab)) <==>
      e in EdgeSet(g) || (e.source in xs && e.target == id)
  {
    if xs != [] {
      var init := xs[..|xs| - 1];
      var x := xs[|xs| - 1];
      LinkInputsEffect(g, init, id, lab);
      LinkStep(LinkInputs(g, init, id, lab), x, id, lab(x), x, id);
      assert forall y :: y in xs <==> y in init || y == x;
    }
  }

  /** Only nodes carry labels: the part of `Valid` the labelling lemmas need. */
  ghost predicate LabelsKnown(g: Graph)
  {
    forall n :: n in g.labels ==> n in g.succ
  }

  /** The input loop keeps every existing label and labels each new node by `lab`. */
  lemma {:induction false} LinkInputsLabels(g: Graph, xs: seq<string>, id: string, lab: string -> string)
    requires LabelsKnown(g)
    ensures LabelsKnown(LinkInputs(g, xs, id, lab))
    ensures forall n :: n in g.labels ==> n in LinkInputs(g, xs, id, lab).labels && LinkInputs(g, xs, id, lab).labels[n] == g.labels[n]
    ensures forall n :: n in LinkInputs(g, xs, id, lab).labels && n !in g.labels ==> LinkInputs(g, xs, id, lab).labels[n] == lab(n)
  {
    if xs != [] {
      var init := xs[..|xs| - 1];
      var x := xs[|xs| - 1];
      LinkInputsLabels(g, init, id, lab);
      var h := LinkInputs(g, init, id, lab);
      var h1 := WithValueNode(h, x, lab(x));
      WithNodeEffect(h, x, lab(x));
      WithEdgeEffect(h1, x, id);
    }
  }

  /** What the output loop does to a well-formed, fully labelled graph that
    * already holds `id`: it adds exactly the outputs as nodes and exactly the
    * edges from `id` to them, and keeps every existing node's position. */
  lemma {:induction false} LinkOutputsEffect(g: Graph, id: string, xs: seq<string>, lab: string -> string)
    requires Valid(g) && Labelled(g) && id in g.succ
    ensures Valid(LinkOutputs(g, id, xs, lab)) && Labelled(LinkOutputs(g, id, xs, lab))
    ensures g.nodes <= LinkOutputs(g, id, xs, lab).nodes
    ensures forall n :: n in NodeSet(LinkOutputs(g, id, xs, lab)) <==> n in NodeSet(g) || n in xs
    ensures forall e :: e in EdgeSet(LinkOutputs(g, id, xs, lab)) <==>
      e in EdgeSet(g) || (e.source == id && e.target in xs)
  {
    if xs != [] {
      var init := xs[..|xs| - 1];
      var x := xs[|xs| - 1];
      LinkOutputsEffect(g, id, init, lab);
      LinkStep(LinkOutputs(g, id, init, lab), x, id, lab(x), id, x);
      assert forall y :: y in xs <==> y in init || y == x;
    }
  }

  /** The output loop keeps every existing label and labels each new node by `lab`. */
  lemma {:induction false} LinkOutputsLabels(g: Graph, id: string, xs: seq<string>, lab: string -> string)
    requires LabelsKnown(g)
    ensures LabelsKnown(LinkOutputs(g, id, xs, lab))
    ensures forall n :: n in g.labels ==> n in LinkOutputs(g, id, xs, lab).labels && LinkOutputs(g, id, xs, lab).labels[n] == g.labels[n]
    ensures forall n :: n in LinkOutputs(g, id, xs, lab).labels && n !in g.labels ==> LinkOutputs(g, id, xs, lab).labels[n] == lab(n)
  {
    if xs != [] {
      var init := xs[..|xs| - 1];
      var x := xs[|xs| - 1];
      LinkOutputsLabels(g, id, init, lab);
      var h := LinkOutputs(g, id, init, lab);
      var h1 := WithValueNode(h, x, lab(x));
      WithNodeEffect(h, x, lab(x));
      WithEdgeEffect(h1, id, x);
    }
  }

  /** One record's whole visit: its operation-node `id` labelled `lbl`, then
    * the input loop over `ins` and the output loop over `outs`. */
  function Attach(g: Graph, id: string, lbl: string, ins: seq<string>, outs: seq<string>, lab: string -> string): Graph
  {
    LinkOutputs(LinkInputs(WithNode(g, id, lbl), ins, id, lab), id, outs, lab)
  }

  /** A visit adds exactly `id`, the inputs and the outputs as nodes and exactly
    * the record's edges, keeps every node's position and the graph well formed. */
  lemma AttachEffect(g: Graph, id: string, lbl: string, ins: seq<string>, outs: seq<string>, lab: string -> string)
    requires Valid(g) && Labelled(g)
    ensures var r := Attach(g, id, lbl, ins, outs, lab);
      && Valid(r) && Labelled(r) && g.nodes <= r.nodes
      && (forall n :: n in NodeSet(r) <==> n in NodeSet(g) || n == id || n in ins || n in outs)
      && (forall e :: e in EdgeSet(r) <==>
            || e in EdgeSet(g)
            || (e.source in ins && e.target == id)
            || (e.source == id && e.target in outs))
  {
    var g1 := WithNode(g, id, lbl);
    WithNodeEffect(g, id, lbl);
    LinkInputsEffect(g1, ins, id, lab);
    LinkOutputsEffect(LinkInputs(g1, ins, id, lab), id, outs, lab);
  }

  /** A visit labels `id` by `lbl` and leaves the label of every other
    * labelled node alone. */
  lemma AttachLabels(g: Graph, id: string, lbl: string, ins: seq<string>, outs: seq<string>, lab: string -> string)
    requires LabelsKnown(g)
    ensures var r := Attach(g, id, lbl, ins, outs, lab);
      && id in r.labels && r.labels[id] == lbl
      && (forall n :: n in g.labels && n != id ==> n in r.labels && r.labels[n] == g.labels[n])
  {
    var g1 := WithNode(g, id, lbl);
    WithNodeEffect(g, id, lbl);
    LinkInputsLabels(g1, ins, id, lab);
    LinkOutputsLabels(LinkInputs(g1, ins, id, lab), id, outs, lab);
  }

  /** A visit labels every value-node it creates, `n`, by `lab(n)`. */
  lemma AttachValueLabels(g: Graph, id: string, lbl: string, ins: seq<string>, outs: seq<string>, lab: string -> string)
    requires LabelsKnown(g)
    ensures var r := Attach(g, id, lbl, ins, outs, lab);
      forall n :: n in r.labels && n !in g.labels && n != id ==> r.labels[n] == lab(n)
  {
    var g1 := WithNode(g, id, lbl);
    WithNodeEffect(g, id, lbl);
    LinkInputsLabels(g1, ins, id, lab);
    var g2 := LinkInputs(g1, ins, id, lab);
    LinkOutputsLabels(g2, id, outs, lab);
    var r := LinkOutputs(g2, id, outs, lab);
    forall n | n in r.labels && n !in g.labels && n != id ensures r.labels[n] == lab(n) {
      if n in g2.labels {
        assert n !in g1.labels;
      }
    }
  }

  /** The input loop on a live graph: `for inp in node.input: ...`. */
  method AddInputs(g: DiGraph, xs: seq<string>, id: string, lab: string -> string)
    modifies g
    ensures g.Value() == LinkInputs(old(g.Value()), xs, id, lab)
  {
    ghost var g0 := g.Value();
    var j := 0;
    while j < |xs|
      invariant 0 <= j <= |xs|
      invariant g.Value() == LinkInputs(g0, xs[..j], id, lab)
    {
      var x := xs[j];
      ghost var h := g.Value();
      if !g.HasNode(x) {
        g.AddNode(x, lab(x));
      }
      assert g.Value() == WithValueNode(h, x, lab(x));
      g.AddEdge(x, id);
      assert xs[..j + 1][..j] == xs[..j];
      assert g.Value() == LinkInputs(g0, xs[..j + 1], id, lab);
      j := j + 1;
    }
    assert xs[..j] == xs;
  }

  /** The output loop on a live graph: `for out in node.output: ...`. */
  method AddOutputs(g: DiGraph, id: string, xs: seq<string>, lab: string -> string)
    modifies g
    ensures g.Value() == LinkOutputs(old(g.Value()), id, xs, lab)
  {
    ghost var g0 := g.Value();
    var j := 0;
    while j < |xs|
      invariant 0 <= j <= |xs|
      invariant g.Value() == LinkOutputs(g0, id, xs[..j], lab)
    {
      var x := xs[j];
      ghost var h := g.Value();
      if !g.HasNode(x) {
        g.AddNode(x, lab(x));
      }
      assert g.Value() == WithValueNode(h, x, lab(x));
      g.AddEdge(id, x);
      assert xs[..j + 1][..j] == xs[..j];
      assert g.Value() == LinkOutputs(g0, id, xs[..j + 1], lab);
      j := j + 1;
    }
    assert xs[..j] == xs;
  }
}
