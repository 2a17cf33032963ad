/**
 The four operations of the graph builder, written as the loops they are,
 each proved against the functions of `GraphSpec`.
 */
module GraphBuilder {
  import opened Records
  import opened FlowGraph
  import opened AddressOrder
  import opened GraphSpec

  /**
   `build_money_flow_graph`: one `add_edge(from, to, weight, amount_usd_sum,
   tx_count)` per flow, on a fresh graph.
   */
  method BuildMoneyFlowGraph(flows: seq<FlowRecord>) returns (g: DiGraph)
    ensures fresh(g) && g.Valid()
    ensures g.View() == BuiltGraph(flows)
  {
    g := new DiGraph();
    for i := 0 to |flows|
      invariant fresh(g) && g.Valid()
      invariant g.View() == BuiltGraph(flows[..i])
    {
      var flow := flows[i];
      var amountUsdSum := flow.amountUsdSum.GetOr(0.0);
      var txCount := flow.txCount.GetOr(0);
      BuiltGraphStep(flows, i);
      g.AddEdge(flow.fromAddress, flow.toAddress, EdgeAttrs(amountUsdSum, amountUsdSum, txCount));
    }
    assert flows[..|flows|] == flows;
  }

  /**
   `add_node_volume_attributes`: computes every node's in- plus out-edge
   amount, then stores the results as `total_volume_usd`. Nodes and edges
   are left as they were.
   */
  method AddNodeVolumeAttributes(g: DiGraph)
    requires g.Valid()
    modifies g
    ensures g.Valid()
    ensures g.View() == WithNodeVolumes(old(g.View()))
    ensures g.nodes == old(g.nodes) && g.edgeOrder == old(g.edgeOrder) && g.edges == old(g.edges)
    ensures forall n :: n in g.nodes ==> n in g.volume && g.volume[n] == NodeVolume(g.View(), n)
  {
    ghost var before := g.View();
    var nodeVolumes: map<Address, real> := map[];
    for i := 0 to |g.nodes|
      invariant nodeVolumes.Keys == Elems(g.nodes[..i])
      invariant forall n :: n in nodeVolumes ==> nodeVolumes[n] == NodeVolume(before, n)
    {
      var node := g.nodes[i];
      var inVolume := InVolume(EdgeList(g.View()), g.edges, node);
      var outVolume := OutVolume(EdgeList(g.View()), g.edges, node);
      nodeVolumes := nodeVolumes[node := inVolume + outVolume];
      assert Elems(g.nodes[..i + 1]) == Elems(g.nodes[..i]) + {node};
    }
    assert g.nodes[..|g.nodes|] == g.nodes;
    StoredVolumes(before, nodeVolumes);
    g.SetNodeVolumes(nodeVolumes);
  }

  /** Storing every node's computed volume gives exactly `WithNodeVolumes`. */
  lemma StoredVolumes(g: GraphView, values: map<Address, real>)
    requires forall n :: n in g.volume ==> n in g.nodes
    requires values.Keys == Elems(g.nodes)
    requires forall n :: n in values ==> values[n] == NodeVolume(g, n)
    ensures SetVolumeView(g, values) == WithNodeVolumes(g)
  {
    var r := SetVolumeView(g, values);
    assert r.volume.Keys == WithNodeVolumes(g).volume.Keys;
  }

  /**
   `extract_addresses_from_flows`: collects both ends of every flow into a
   set and returns it sorted.
   */
  method ExtractAddressesFromFlows(flows: seq<FlowRecord>) returns (addresses: seq<Address>)
    ensures addresses == SortedSeq(Endpoints(flows))
  {
    var addressesSet: set<Address> := {};
    for i := 0 to |flows|
      invariant addressesSet == Endpoints(flows[..i])
    {
      EndpointsStep(flows, i);
      addressesSet := addressesSet + {flows[i].fromAddress};
      addressesSet := addressesSet + {flows[i].toAddress};
    }
    assert flows[..|flows|] == flows;
    addresses := SortAddresses(addressesSet);
  }

  /** `flows_by_address[k].append(flow)` on a `defaultdict(list)`. */
  function AppendTo(index: map<Address, seq<IndexedFlow>>, k: Address, flow: IndexedFlow): (r: map<Address, seq<IndexedFlow>>)
    ensures r.Keys == index.Keys + {k}
    ensures r[k] == (if k in index then index[k] else []) + [flow]
    ensures forall a :: a in index && a != k ==> r[a] == index[a]
  {
    index[k := (if k in index then index[k] else []) + [flow]]
  }

  /** Appending one edge's record to both of its ends' lists keeps the index exact. */
  lemma IndexStep(index: map<Address, seq<IndexedFlow>>, es: seq<Edge>, i: nat, edges: map<Edge, EdgeAttrs>)
    requires i < |es|
    requires index.Keys == Incident(es[..i])
    requires forall a :: a in index ==> index[a] == IncidentFlows(es[..i], edges, a)
    ensures var next := AppendTo(AppendTo(index, es[i].0, FlowOf(edges, es[i])), es[i].1, FlowOf(edges, es[i]));
      && next.Keys == Incident(es[..i + 1])
      && forall a :: a in next ==> next[a] == IncidentFlows(es[..i + 1], edges, a)
  {
    var flow := FlowOf(edges, es[i]);
    var next := AppendTo(AppendTo(index, es[i].0, flow), es[i].1, flow);
    IncidentFlowsStep(es, i, edges, es[i].0);
    forall a | a in next
      ensures next[a] == IncidentFlows(es[..i + 1], edges, a)
    {
      IndexStepAt(index, es, i, edges, a);
    }
  }

  /** One address's list after the step. */
  lemma IndexStepAt(index: map<Address, seq<IndexedFlow>>, es: seq<Edge>, i: nat, edges: map<Edge, EdgeAttrs>, a: Address)
    requires i < |es|
    requires index.Keys == Incident(es[..i])
    requires a in index ==> index[a] == IncidentFlows(es[..i], edges, a)
    ensures var next := AppendTo(AppendTo(index, es[i].0, FlowOf(edges, es[i])), es[i].1, FlowOf(edges, es[i]));
      a in next ==> next[a] == IncidentFlows(es[..i + 1], edges, a)
  {
    IncidentFlowsStep(es, i, edges, a);
    if a !in index {
      IncidentFlowsOfIsolated(es[..i], edges, a);
    }
  }

  /**
   `build_flows_index_by_address`: for every edge, its flat record goes to
   the source's list and then to the target's list.
   */
  method BuildFlowsIndexByAddress(g: DiGraph) returns (index: map<Address, seq<IndexedFlow>>)
    requires g.Valid()
    ensures index.Keys == Incident(EdgeList(g.View()))
    ensures forall a :: a in index ==> index[a] == IncidentFlows(EdgeList(g.View()), g.edges, a)
    ensures forall e :: e in g.edges ==>
      && e.0 in index && FlowOf(g.edges, e) in index[e.0]
      && e.1 in index && FlowOf(g.edges, e) in index[e.1]
    ensures forall a, r :: a in index && r in index[a] ==>
      (r.fromAddress, r.toAddress) in g.edges && (r.fromAddress == a || r.toAddress == a)
  {
    var edgeList := EdgeList(g.View());
    EdgeListOf(g.View());
    var flowsByAddress: map<Address, seq<IndexedFlow>> := map[];
    for i := 0 to |edgeList|
      invariant flowsByAddress.Keys == Incident(edgeList[..i])
      invariant forall a :: a in flowsByAddress ==> flowsByAddress[a] == IncidentFlows(edgeList[..i], g.edges, a)
    {
      var (u, v) := edgeList[i];
      assert (u, v) in g.edges;
      var data := g.edges[(u, v)];
      var flow := IndexedFlow(u, v, data.amountUsdSum, data.txCount);
      IndexStep(flowsByAddress, edgeList, i, g.edges);
      flowsByAddress := AppendTo(flowsByAddress, u, flow);
      flowsByAddress := AppendTo(flowsByAddress, v, flow);
    }
    assert edgeList[..|edgeList|] == edgeList;
    index := flowsByAddress;
    forall e | e in g.edges
      ensures FlowOf(g.edges, e) in index[e.0] && FlowOf(g.edges, e) in index[e.1]
    {
      IndexMultiplicity(edgeList, g.edges, e, e.0);
      IndexMultiplicity(edgeList, g.edges, e, e.1);
    }
    forall a, r | a in index && r in index[a]
      ensures (r.fromAddress, r.toAddress) in g.edges && (r.fromAddress == a || r.toAddress == a)
    {
      IndexSoundness(edgeList, g.edges, a, r);
    }
  }
}
