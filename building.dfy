/**
 * The outer loop both builders share: `for i, node in enumerate(nodes)`,
 * starting from an empty `DiGraph`.  What one iteration does is the builder's
 * own `step`; the lemmas here lift what a step promises about one record to
 * what the whole loop promises about every record.
 */
module Building {
  import opened Records
  import opened DiGraphs

  /** What one iteration of the loop does to the graph, given the record and its index. */
  type StepFn = (Graph, OpRecord, nat) -> Graph

  /** The graph after the loop has visited the first `k` records. */
  function Run(ops: seq<OpRecord>, k: nat, step: StepFn): Graph
    requires k <= |ops|
  {
    if k == 0 then Empty else step(Run(ops, k - 1, step), ops[k - 1], k - 1)
  }

  /** `inv` holds of the empty graph and every step keeps it. */
  ghost predicate Keeps(step: StepFn, inv: Graph -> bool)
  {
    && inv(Empty)
    && forall g, op, i {:trigger step(g, op, i)} :: inv(g) ==> inv(step(g, op, i))
  }

  /** No step moves a node: the old node list is a prefix of the new one. */
  ghost predicate Appends(step: StepFn, inv: Graph -> bool)
  {
    forall g, op, i {:trigger step(g, op, i)} :: inv(g) ==> g.nodes <= step(g, op, i).nodes
  }

  /** A step adds exactly the nodes `touches` names for its record. */
  ghost predicate AddsNodes(step: StepFn, inv: Graph -> bool, touches: (OpRecord, nat, string) -> bool)
  {
    forall g, op, i {:trigger step(g, op, i)} :: inv(g) ==>
      forall n :: n in NodeSet(step(g, op, i)) <==> n in NodeSet(g) || touches(op, i, n)
  }

  /** A step adds exactly the edges `links` names for its record. */
  ghost predicate AddsEdges(step: StepFn, inv: Graph -> bool, links: (OpRecord, nat, EdgeEntry) -> bool)
  {
    forall g, op, i {:trigger step(g, op, i)} :: inv(g) ==>
      forall e :: e in EdgeSet(step(g, op, i)) <==> e in EdgeSet(g) || links(op, i, e)
  }

  /** Every label a step leaves is either the one the node had, or one that
    * `fits` its record. */
  ghost predicate LabelsBy(step: StepFn, inv: Graph -> bool, fits: (OpRecord, nat, string, string) -> bool)
  {
    forall g, op, i {:trigger step(g, op, i)} :: inv(g) ==>
      forall n :: n in step(g, op, i).labels ==>
        || (n in g.labels && step(g, op, i).labels[n] == g.labels[n])
        || fits(op, i, n, step(g, op, i).labels[n])
  }

  lemma {:induction false} RunInv(ops: seq<OpRecord>, k: nat, step: StepFn, inv: Graph -> bool)
    requires k <= |ops| && Keeps(step, inv)
    ensures inv(Run(ops, k, step))
  {
    if k > 0 {
      RunInv(ops, k - 1, step, inv);
    }
  }

  /** Nodes keep the position of their first insertion: an earlier graph's node
    * list is a prefix of every later one. */
  lemma {:induction false} RunGrows(ops: seq<OpRecord>, j: nat, k: nat, step: StepFn, inv: Graph -> bool)
    requires j <= k <= |ops| && Keeps(step, inv) && Appends(step, inv)
    ensures Run(ops, j, step).nodes <= Run(ops, k, step).nodes
  {
    if j < k {
      RunGrows(ops, j, k - 1, step, inv);
      RunInv(ops, k - 1, step, inv);
    }
  }

  lemma {:induction false} RunNodes(ops: seq<OpRecord>, k: nat, step: StepFn, inv: Graph -> bool, touches: (OpRecord, nat, string) -> bool)
    requires k <= |ops| && Keeps(step, inv) && AddsNodes(step, inv, touches)
    ensures forall n :: n in NodeSet(Run(ops, k, step)) <==> exists i :: 0 <= i < k && touches(ops[i], i, n)
  {
    if k > 0 {
      var g := Run(ops, k - 1, step);
      RunNodes(ops, k - 1, step, inv, touches);
      RunInv(ops, k - 1, step, inv);
      forall n | exists i :: 0 <= i < k && touches(ops[i], i, n)
        ensures n in NodeSet(Run(ops, k, step))
      {
        var i :| 0 <= i < k && touches(ops[i], i, n);
        if i < k - 1 {
          assert n in NodeSet(g);
        }
      }
    }
  }

  lemma {:induction false} RunEdges(ops: seq<OpRecord>, k: nat, step: StepFn, inv: Graph -> bool, links: (OpRecord, nat, EdgeEntry) -> bool)
    requires k <= |ops| && Keeps(step, inv) && AddsEdges(step, inv, links)
    ensures forall e :: e in EdgeSet(Run(ops, k, step)) <==> exists i :: 0 <= i < k && links(ops[i], i, e)
  {
    if k > 0 {
      var g := Run(ops, k - 1, step);
      RunEdges(ops, k - 1, step, inv, links);
      RunInv(ops, k - 1, step, inv);
      forall e | exists i :: 0 <= i < k && links(ops[i], i, e)
        ensures e in EdgeSet(Run(ops, k, step))
      {
        var i :| 0 <= i < k && links(ops[i], i, e);
        if i < k - 1 {
          assert e in EdgeSet(g);
        }
      }
    }
  }

  lemma {:induction false} RunLabels(ops: seq<OpRecord>, k: nat, step: StepFn, inv: Graph -> bool, fits: (OpRecord, nat, string, string) -> bool)
    requires k <= |ops| && Keeps(step, inv) && LabelsBy(step, inv, fits)
    ensures forall n :: n in Run(ops, k, step).labels ==>
      exists i :: 0 <= i < k && fits(ops[i], i, n, Run(ops, k, step).labels[n])
  {
    if k > 0 {
      var g := Run(ops, k - 1, step);
      var r := Run(ops, k, step);
      RunLabels(ops, k - 1, step, inv, fits);
      RunInv(ops, k - 1, step, inv);
      forall n | n in r.labels ensures exists i :: 0 <= i < k && fits(ops[i], i, n, r.labels[n]) {
        if !fits(ops[k - 1], k - 1, n, r.labels[n]) {
          assert n in g.labels && r.labels[n] == g.labels[n];
        }
      }
    }
  }

  /** The label record `i` gives node `id` survives every later record that
    * leaves `id`'s label alone. */
  lemma {:induction false} RunKeepsLabel(ops: seq<OpRecord>, i: nat, k: nat, step: StepFn, inv: Graph -> bool, id: string, lbl: string)
    requires i < k <= |ops| && Keeps(step, inv)
    requires forall g {:trigger step(g, ops[i], i)} :: inv(g) ==>
      id in step(g, ops[i], i).labels && step(g, ops[i], i).labels[id] == lbl
    requires forall j, g {:trigger step(g, ops[j], j)} :: i < j < k && inv(g) && id in g.labels ==>
      id in step(g, ops[j], j).labels && step(g, ops[j], j).labels[id] == g.labels[id]
    ensures id in Run(ops, k, step).labels && Run(ops, k, step).labels[id] == lbl
  {
    RunInv(ops, k - 1, step, inv);
    if k > i + 1 {
      RunKeepsLabel(ops, i, k - 1, step, inv, id, lbl);
    }
  }
}
