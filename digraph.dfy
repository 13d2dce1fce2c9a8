/**
 * The part of networkx's `DiGraph` that the builders use.  Nodes are kept in
 * first-insertion order, each with an optional `label` attribute; successors
 * of each node are kept in first-insertion order too, so that the edges form
 * a set and iterate node by node.
 *
 * `Graph` is the value of a graph; `DiGraph` is the mutable object whose
 * methods are specified by the functions on `Graph`.
 */
module DiGraphs {

  datatype EdgeEntry = EdgeEntry(source: string, target: string)

  /** `nodes`: node ids in insertion order; `labels`: the `label` attribute of the
    * nodes that have one; `succ`: the successors of each node, in insertion order. */
  datatype Graph = Graph(nodes: seq<string>, labels: map<string, string>, succ: map<string, seq<string>>)

  const Empty: Graph := Graph([], map[], map[])

  predicate Distinct<T(==)>(s: seq<T>)
  {
    forall i, j | 0 <= i < j < |s| :: s[i] != s[j]
  }

  /** The graph's own invariant: every id is listed once, every successor is a
    * node (no dangling edge), and no node has the same successor twice. */
  ghost predicate Valid(g: Graph)
  {
    && Distinct(g.nodes)
    && (forall n :: n in g.nodes <==> n in g.succ)
    && (forall n :: n in g.labels ==> n in g.succ)
    && (forall u :: u in g.succ ==> Distinct(g.succ[u]))
    && (forall u, v :: u in g.succ && v in g.succ[u] ==> v in g.succ)
  }

  /** Every node carries a label: none was created implicitly by an edge. */
  ghost predicate Labelled(g: Graph)
  {
    forall n :: n in g.succ ==> n in g.labels
  }

  /** What every graph the builders produce satisfies. */
  ghost predicate WellFormed(g: Graph)
  {
    Valid(g) && Labelled(g)
  }

  function NodeSet(g: Graph): set<string>
  {
    set n | n in g.nodes
  }

  ghost function EdgeSet(g: Graph): iset<EdgeEntry>
  {
    iset e: EdgeEntry | e.source in g.succ && e.target in g.succ[e.source]
  }

  /** `g.nodes[n].get("label", n)`. */
  function Label(g: Graph, n: string): string
  {
    if n in g.labels then g.labels[n] else n
  }

  /** A node with no attributes, as `add_edge` creates a missing endpoint. */
  function WithBareNode(g: Graph, n: string): Graph
  {
    if n in g.succ then g else Graph(g.nodes + [n], g.labels, g.succ[n := []])
  }

  /** `add_node(n, label=lbl)`: a new node goes last; an existing node keeps its
    * position and edges and only has its label replaced. */
  function WithNode(g: Graph, n: string, lbl: string): Graph
  {
    var h := WithBareNode(g, n);
    h.(labels := h.labels[n := lbl])
  }

  /** Records `v` as a successor of `u` unless it already is one. */
  function WithSuccessor(g: Graph, u: string, v: string): Graph
  {
    if u in g.succ && v !in g.succ[u] then g.(succ := g.succ[u := g.succ[u] + [v]]) else g
  }

  /** `add_edge(u, v)`: missing endpoints are created without a label, and an edge
    * that is already there is left as it is. */
  function WithEdge(g: Graph, u: string, v: string): Graph
  {
    WithSuccessor(WithBareNode(WithBareNode(g, u), v), u, v)
  }

  lemma WithBareNodeEffect(g: Graph, n: string)
    ensures var r := WithBareNode(g, n);
      && n in r.succ && r.labels == g.labels && g.nodes <= r.nodes
      && g.succ.Keys <= r.succ.Keys && EdgeSet(r) == EdgeSet(g)
      && (n in g.succ ==> r == g)
      && (Valid(g) ==> Valid(r) && NodeSet(r) == NodeSet(g) + {n})
  {
  }

  /** Adding a node never touches the edges; it adds the id to the node set
    * (at the end, if it is new) and sets that node's label. */
  lemma WithNodeEffect(g: Graph, n: string, lbl: string)
    ensures var r := WithNode(g, n, lbl);
      && n in r.succ && r.labels == g.labels[n := lbl] && g.nodes <= r.nodes
      && g.succ.Keys <= r.succ.Keys && EdgeSet(r) == EdgeSet(g)
      && (n in g.succ ==> r.nodes == g.nodes && r.succ == g.succ)
      && (Valid(g) ==> Valid(r) && NodeSet(r) == NodeSet(g) + {n})
      && (Labelled(g) ==> Labelled(r))
  {
    WithBareNodeEffect(g, n);
  }

  lemma WithSuccessorEffect(g: Graph, u: string, v: string)
    requires u in g.succ && v in g.succ
    ensures var r := WithSuccessor(g, u, v);
      && r.labels == g.labels && r.nodes == g.nodes && r.succ.Keys == g.succ.Keys
      && EdgeSet(r) == EdgeSet(g) + iset{EdgeEntry(u, v)}
      && (Valid(g) ==> Valid(r))
  {
    if v !in g.succ[u] {
      var r := WithSuccessor(g, u, v);
      assert EdgeSet(r) <= EdgeSet(g) + iset{EdgeEntry(u, v)} by {
        forall e | e in EdgeSet(r) ensures e in EdgeSet(g) + iset{EdgeEntry(u, v)} {
          if e.source != u || e.target != v {
            assert e.target in g.succ[e.source];
          }
        }
      }
      assert EdgeSet(g) + iset{EdgeEntry(u, v)} <= EdgeSet(r) by {
        forall e | e in EdgeSet(g) ensures e in EdgeSet(r) {
          assert e.target in r.succ[e.source];
        }
        assert v in r.succ[u];
      }
    }
  }

  /** Adding an edge keeps every label, adds both ends to the node set and
    * exactly this edge to the edge set. */
  lemma WithEdgeEffect(g: Graph, u: string, v: string)
    ensures var r := WithEdge(g, u, v);
      && r.labels == g.labels && g.nodes <= r.nodes
      && g.succ.Keys <= r.succ.Keys && u in r.succ && v in r.succ
      && EdgeSet(r) == EdgeSet(g) + iset{EdgeEntry(u, v)}
      && (u in g.succ && v in g.succ ==> r.nodes == g.nodes && r.succ.Keys == g.succ.Keys)
      && (Valid(g) ==> Valid(r) && NodeSet(r) == NodeSet(g) + {u, v})
  {
    WithBareNodeEffect(g, u);
    WithBareNodeEffect(WithBareNode(g, u), v);
    WithSuccessorEffect(WithBareNode(WithBareNode(g, u), v), u, v);
  }

  /** Adding an edge a second time changes nothing. */
  lemma AddEdgeTwice(g: Graph, u: string, v: string)
    ensures WithEdge(WithEdge(g, u, v), u, v) == WithEdge(g, u, v)
  {
    WithEdgeEffect(g, u, v);
    var r := WithEdge(g, u, v);
    assert EdgeEntry(u, v) in EdgeSet(r);
    assert v in r.succ[u];
  }

  /** The successors of `u` as edges. */
  function OutEdges(u: string, vs: seq<string>): seq<EdgeEntry>
  {
    seq(|vs|, k requires 0 <= k < |vs| => EdgeEntry(u, vs[k]))
  }

  function EdgesFrom(succ: map<string, seq<string>>, us: seq<string>): seq<EdgeEntry>
  {
    if us == [] then []
    else (if us[0] in succ then OutEdges(us[0], succ[us[0]]) else []) + EdgesFrom(succ, us[1..])
  }

  lemma DistinctConcat<T>(a: seq<T>, b: seq<T>)
    requires Distinct(a) && Distinct(b)
    requires forall x :: x in a ==> x !in b
    ensures Distinct(a + b)
  {
    forall i, j | 0 <= i < j < |a + b| ensures (a + b)[i] != (a + b)[j] {
      if i < |a| && j >= |a| {
        assert (a + b)[i] in a && (a + b)[j] in b;
      }
    }
  }

  lemma {:induction false} EdgesFromExact(succ: map<string, seq<string>>, us: seq<string>)
    requires Distinct(us)
    requires forall u :: u in succ ==> Distinct(succ[u])
    ensures Distinct(EdgesFrom(succ, us))
    ensures forall e :: e in EdgesFrom(succ, us) <==> e.source in us && e.source in succ && e.target in succ[e.source]
  {
    if us != [] {
      var u := us[0];
      var head := if u in succ then OutEdges(u, succ[u]) else [];
      var tail := EdgesFrom(succ, us[1..]);
      assert Distinct(us[1..]) by {
        forall i, j | 0 <= i < j < |us[1..]| ensures us[1..][i] != us[1..][j] {
          assert us[1..][i] == us[i + 1] && us[1..][j] == us[j + 1];
        }
      }
      EdgesFromExact(succ, us[1..]);
      assert forall e :: e in head <==> e.source == u && u in succ && e.target in succ[u] by {
        forall e ensures e in head <==> e.source == u && u in succ && e.target in succ[u] {
          if e.source == u && u in succ && e.target in succ[u] {
            var k :| 0 <= k < |succ[u]| && succ[u][k] == e.target;
            assert head[k] == e;
          }
        }
      }
      assert u !in us[1..];
      DistinctConcat(head, tail);
      assert forall x :: x in us <==> x == u || x in us[1..];
    }
  }

  /** `list(g.edges)`: node by node in insertion order, each node's successors in
    * insertion order. */
  function EdgeList(g: Graph): seq<EdgeEntry>
  {
    EdgesFrom(g.succ, g.nodes)
  }

  /** The edge list of a well-formed graph holds every edge exactly once, and
    * both ends of every listed edge are nodes. */
  lemma EdgeListExact(g: Graph)
    requires Valid(g)
    ensures Distinct(EdgeList(g))
    ensures forall e :: e in EdgeList(g) <==> e in EdgeSet(g)
    ensures forall e :: e in EdgeList(g) ==> e.source in NodeSet(g) && e.target in NodeSet(g)
  {
    EdgesFromExact(g.succ, g.nodes);
  }

  /** A networkx `DiGraph` restricted to what the builders use. */
  class DiGraph {
    var nodes: seq<string>
    var labels: map<string, string>
    var succ: map<string, seq<string>>

    function Value(): Graph
      reads this
    {
      Graph(nodes, labels, succ)
    }

    constructor ()
      ensures Value() == Empty
    {
      nodes, labels, succ := [], map[], map[];
    }

    /** `has_node(n)`. */
    predicate HasNode(n: string)
      reads this
    {
      n in succ
    }

    /** `add_node(n, label=label)`. */
    method AddNode(n: string, lbl: string)
      modifies this
      ensures Value() == WithNode(old(Value()), n, lbl)
    {
      if n !in succ {
        nodes := nodes + [n];
        succ := succ[n := []];
      }
      labels := labels[n := lbl];
    }

    /** `add_edge(u, v)`. */
    method AddEdge(u: string, v: string)
      modifies this
      ensures Value() == WithEdge(old(Value()), u, v)
    {
      if u !in succ {
        nodes := nodes + [u];
        succ := succ[u := []];
      }
      if v !in succ {
        nodes := nodes + [v];
        succ := succ[v := []];
      }
      if v !in succ[u] {
        succ := succ[u := succ[u] + [v]];
      }
    }
  }
}
