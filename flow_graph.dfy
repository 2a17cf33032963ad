/**
 The part of a networkx `DiGraph` the builder uses: a node list in insertion
 order, an edge map keyed by ordered pair (at most one edge per pair), the
 edges' first-insertion order, and the `total_volume_usd` node attribute.
 */
module FlowGraph {
  import opened Records

  /** The value of a graph's state at one moment. */
  datatype GraphView = GraphView(
    nodes: seq<Address>,
    edgeOrder: seq<Edge>,
    edges: map<Edge, EdgeAttrs>,
    volume: map<Address, real>)

  const EmptyView := GraphView([], [], map[], map[])

  /** The consistency every graph state keeps. */
  ghost predicate WellFormed(g: GraphView) {
    && NoDup(g.nodes)
    && NoDup(g.edgeOrder)
    && (forall e :: e in g.edgeOrder <==> e in g.edges)
    && (forall e :: e in g.edges ==> e.0 in g.nodes && e.1 in g.nodes)
    && (forall n :: n in g.volume ==> n in g.nodes)
  }

  /**
   `G.add_edge(u, v, **attrs)`: adds `u`, then `v`, to the nodes when absent
   (with no attributes), appends the pair to the edge order when it is new,
   and replaces the pair's attributes.
   */
  function AddEdgeView(g: GraphView, u: Address, v: Address, attrs: EdgeAttrs): GraphView {
    GraphView(WithNode(WithNode(g.nodes, u), v), if (u, v) in g.edges then g.edgeOrder else g.edgeOrder + [(u, v)],
              g.edges[(u, v) := attrs], g.volume)
  }

  /** A node list with `n` appended when it is absent. */
  function WithNode(nodes: seq<Address>, n: Address): (r: seq<Address>)
    ensures Elems(r) == Elems(nodes) + {n}
    ensures NoDup(nodes) ==> NoDup(r)
    ensures forall m :: m in r <==> m in nodes || m == n
  {
    if n in nodes then nodes
    else
      assert Elems(nodes + [n]) == Elems(nodes) + {n};
      nodes + [n]
  }

  /**
   Nodes keep their insertion order: the old list is a prefix of the new one,
   and a node already present leaves the list as it was.
   */
  lemma WithNodeKeepsOrder(nodes: seq<Address>, n: Address)
    ensures nodes <= WithNode(nodes, n)
    ensures n in nodes ==> WithNode(nodes, n) == nodes
  {
  }

  /**
   `add_edge` keeps a graph consistent and adds exactly its two ends to the
   nodes; on a consistent graph, adding a pair that is already an edge keeps
   both the node list and the edge order as they were.
   */
  lemma AddEdgeViewKeeps(g: GraphView, u: Address, v: Address, attrs: EdgeAttrs)
    ensures WellFormed(g) ==> WellFormed(AddEdgeView(g, u, v, attrs))
    ensures Elems(AddEdgeView(g, u, v, attrs).nodes) == Elems(g.nodes) + {u, v}
    ensures WellFormed(g) && (u, v) in g.edges ==>
      AddEdgeView(g, u, v, attrs).nodes == g.nodes && AddEdgeView(g, u, v, attrs).edgeOrder == g.edgeOrder
  {
    var r := AddEdgeView(g, u, v, attrs);
    if WellFormed(g) {
      assert NoDup(r.edgeOrder) by {
        if (u, v) !in g.edges {
          assert (u, v) !in g.edgeOrder;
        }
      }
      assert forall e :: e in r.edgeOrder <==> e in r.edges;
    }
  }

  /** `nx.set_node_attributes(G, values, 'total_volume_usd')`: only keys that are nodes are set. */
  function SetVolumeView(g: GraphView, values: map<Address, real>): (r: GraphView)
    ensures WellFormed(g) ==> WellFormed(r)
    ensures r.nodes == g.nodes && r.edgeOrder == g.edgeOrder && r.edges == g.edges
    ensures forall n :: n in r.volume <==> n in g.volume || (n in values && n in g.nodes)
    ensures forall n :: n in values && n in g.nodes ==> r.volume[n] == values[n]
    ensures forall n :: n in g.volume && !(n in values && n in g.nodes) ==> r.volume[n] == g.volume[n]
  {
    var updates := map n | n in values && n in g.nodes :: values[n];
    GraphView(g.nodes, g.edgeOrder, g.edges, g.volume + updates)
  }

  /** The edges of `es` that start at `n`, in order: the key order of `G._succ[n]`. */
  function Successors(es: seq<Edge>, n: Address): seq<Edge>
    decreases |es|
  {
    if es == [] then []
    else
      var e := es[|es| - 1];
      Successors(es[..|es| - 1], n) + (if e.0 == n then [e] else [])
  }

  /** The edges of `es` grouped by source, the sources taken in the order `ns`. */
  function Grouped(ns: seq<Address>, es: seq<Edge>): seq<Edge>
    decreases |ns|
  {
    if ns == [] then [] else Grouped(ns[..|ns| - 1], es) + Successors(es, ns[|ns| - 1])
  }

  /**
   `G.edges()`: for every node in insertion order, its out-edges in the order
   they were first added.
   */
  function EdgeList(g: GraphView): seq<Edge> {
    Grouped(g.nodes, g.edgeOrder)
  }

  lemma NoDupConcat(a: seq<Edge>, b: seq<Edge>)
    requires NoDup(a) && NoDup(b)
    requires forall x :: x in a ==> x !in b
    ensures NoDup(a + b)
  {
    var c := a + b;
    forall i, j | 0 <= i < j < |c| ensures c[i] != c[j] {
      if i < |a| && j >= |a| {
        assert c[i] in a && c[j] == b[j - |a|];
      }
    }
  }

  lemma {:induction false} SuccessorsOf(es: seq<Edge>, n: Address)
    ensures forall e :: e in Successors(es, n) <==> e in es && e.0 == n
    ensures NoDup(es) ==> NoDup(Successors(es, n))
    decreases |es|
  {
    if es != [] {
      var prefix, last := es[..|es| - 1], es[|es| - 1];
      SuccessorsOf(prefix, n);
      assert es == prefix + [last];
      if NoDup(es) {
        assert NoDup(prefix);
        assert last !in prefix;
        NoDupConcat(Successors(prefix, n), if last.0 == n then [last] else []);
      }
    }
  }

  lemma {:induction false} GroupedOf(ns: seq<Address>, es: seq<Edge>)
    ensures forall e :: e in Grouped(ns, es) <==> e in es && e.0 in ns
    ensures NoDup(ns) && NoDup(es) ==> NoDup(Grouped(ns, es))
    decreases |ns|
  {
    if ns != [] {
      var prefix, n := ns[..|ns| - 1], ns[|ns| - 1];
      GroupedOf(prefix, es);
      SuccessorsOf(es, n);
      assert ns == prefix + [n];
      if NoDup(ns) && NoDup(es) {
        assert NoDup(prefix) && n !in prefix;
        NoDupConcat(Grouped(prefix, es), Successors(es, n));
      }
    }
  }

  /** `G.edges()` lists every edge of a consistent graph exactly once. */
  lemma EdgeListOf(g: GraphView)
    requires WellFormed(g)
    ensures NoDup(EdgeList(g))
    ensures forall e :: e in EdgeList(g) <==> e in g.edges
  {
    GroupedOf(g.nodes, g.edgeOrder);
  }

  class DiGraph {
    var nodes: seq<Address>
    var edgeOrder: seq<Edge>
    var edges: map<Edge, EdgeAttrs>
    var volume: map<Address, real>

    function View(): GraphView
      reads this
    {
      GraphView(nodes, edgeOrder, edges, volume)
    }

    ghost predicate Valid()
      reads this
    {
      WellFormed(View())
    }

    /** `nx.DiGraph()`: no nodes and no edges. */
    constructor ()
      ensures Valid() && View() == EmptyView
    {
      nodes, edgeOrder, edges, volume := [], [], map[], map[];
    }

    method AddEdge(u: Address, v: Address, attrs: EdgeAttrs)
      requires Valid()
      modifies this
      ensures Valid()
      ensures View() == AddEdgeView(old(View()), u, v, attrs)
    {
      ghost var target := AddEdgeView(View(), u, v, attrs);
      AddEdgeViewKeeps(View(), u, v, attrs);
      if u !in nodes {
        nodes := nodes + [u];
      }
      if v !in nodes {
        nodes := nodes + [v];
      }
      if (u, v) !in edges {
        edgeOrder := edgeOrder + [(u, v)];
      }
      edges := edges[(u, v) := attrs];
      assert View() == target;
    }

    method SetNodeVolumes(values: map<Address, real>)
      requires Valid()
      modifies this
      ensures Valid()
      ensures View() == SetVolumeView(old(View()), values)
    {
      var updates := map n | n in values && n in nodes :: values[n];
      volume := volume + updates;
    }
  }
}
