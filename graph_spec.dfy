/**
 What the four graph-builder operations compute, as functions of their
 inputs, and the properties proved about them: edge fidelity, last write
 wins, the node set, volume conservation and the completeness of the
 address index.
 */
module GraphSpec {
  import opened Records
  import opened FlowGraph
  import opened AddressOrder

  // ---------------------------------------------------------------------
  // Building the graph
  // ---------------------------------------------------------------------

  /** The edge attributes stored for one flow; a missing amount or count reads as 0. */
  function AttrsOf(f: FlowRecord): EdgeAttrs {
    var amount := f.amountUsdSum.GetOr(0.0);
    EdgeAttrs(amount, amount, f.txCount.GetOr(0))
  }

  /** The graph after `add_edge` has been called for every flow, in order. */
  function BuiltGraph(flows: seq<FlowRecord>): GraphView
    decreases |flows|
  {
    if flows == [] then EmptyView
    else
      var f := flows[|flows| - 1];
      AddEdgeView(BuiltGraph(flows[..|flows| - 1]), f.fromAddress, f.toAddress, AttrsOf(f))
  }

  /** The built graph is consistent: `add_edge` keeps every graph consistent. */
  lemma {:induction false} BuiltGraphWellFormed(flows: seq<FlowRecord>)
    ensures WellFormed(BuiltGraph(flows))
    decreases |flows|
  {
    if flows != [] {
      var prefix, f := flows[..|flows| - 1], flows[|flows| - 1];
      BuiltGraphWellFormed(prefix);
      AddEdgeViewKeeps(BuiltGraph(prefix), f.fromAddress, f.toAddress, AttrsOf(f));
    }
  }

  /** One more flow is one more `add_edge`. */
  lemma BuiltGraphStep(flows: seq<FlowRecord>, i: nat)
    requires i < |flows|
    ensures BuiltGraph(flows[..i + 1])
      == AddEdgeView(BuiltGraph(flows[..i]), flows[i].fromAddress, flows[i].toAddress, AttrsOf(flows[i]))
  {
    assert flows[..i + 1][..i] == flows[..i];
  }

  /** Every from- and to-address of the flows. */
  function Endpoints(flows: seq<FlowRecord>): set<Address> {
    (set f | f in flows :: f.fromAddress) + (set f | f in flows :: f.toAddress)
  }

  /** Every (from, to) pair of the flows. */
  function Pairs(flows: seq<FlowRecord>): set<Edge> {
    set f | f in flows :: PairOf(f)
  }

  lemma EndpointsAppend(flows: seq<FlowRecord>, f: FlowRecord)
    ensures Endpoints(flows + [f]) == Endpoints(flows) + {f.fromAddress, f.toAddress}
    ensures Pairs(flows + [f]) == Pairs(flows) + {PairOf(f)}
  {
    assert forall g :: g in flows + [f] <==> g in flows || g == f;
  }

  lemma EndpointsStep(flows: seq<FlowRecord>, i: nat)
    requires i < |flows|
    ensures Endpoints(flows[..i + 1]) == Endpoints(flows[..i]) + {flows[i].fromAddress, flows[i].toAddress}
  {
    assert flows[..i + 1] == flows[..i] + [flows[i]];
    EndpointsAppend(flows[..i], flows[i]);
  }

  /**
   The endpoints do not depend on the order of the flows, so neither do the
   sorted addresses extracted from them.
   */
  lemma EndpointsIgnoreOrder(flows: seq<FlowRecord>, other: seq<FlowRecord>)
    requires multiset(flows) == multiset(other)
    ensures Endpoints(flows) == Endpoints(other)
    ensures SortedSeq(Endpoints(flows)) == SortedSeq(Endpoints(other))
  {
    forall f ensures f in flows <==> f in other {
      assert f in flows <==> f in multiset(flows);
      assert f in other <==> f in multiset(other);
    }
  }

  /** The node set is exactly the flows' endpoints, the edge keys exactly their pairs. */
  lemma {:induction false} BuiltGraphShape(flows: seq<FlowRecord>)
    ensures Elems(BuiltGraph(flows).nodes) == Endpoints(flows)
    ensures BuiltGraph(flows).edges.Keys == Pairs(flows)
    ensures BuiltGraph(flows).volume == map[]
    decreases |flows|
  {
    if flows != [] {
      var prefix, f := flows[..|flows| - 1], flows[|flows| - 1];
      assert flows == prefix + [f];
      var before := BuiltGraph(prefix);
      BuiltGraphShape(prefix);
      AddEdgeViewKeeps(before, f.fromAddress, f.toAddress, AttrsOf(f));
      EndpointsAppend(prefix, f);
    }
  }

  /** Empty input gives a graph with no nodes and no edges. */
  lemma BuiltGraphOfNoFlows()
    ensures BuiltGraph([]).nodes == [] && BuiltGraph([]).edges == map[]
  {
  }

  /**
   Last write wins: the attributes of a pair's edge are those of the last
   flow carrying that pair.
   */
  lemma {:induction false} LastWriteWins(flows: seq<FlowRecord>, i: nat)
    requires i < |flows|
    requires forall j :: i < j < |flows| ==> PairOf(flows[j]) != PairOf(flows[i])
    ensures PairOf(flows[i]) in BuiltGraph(flows).edges
    ensures BuiltGraph(flows).edges[PairOf(flows[i])] == AttrsOf(flows[i])
    decreases |flows|
  {
    if i < |flows| - 1 {
      LastWriteWins(flows[..|flows| - 1], i);
    }
  }

  /** Every edge carries `weight == amount_usd_sum`, copied from some input flow. */
  lemma {:induction false} EdgeFidelity(flows: seq<FlowRecord>, e: Edge)
    requires e in BuiltGraph(flows).edges
    ensures exists i :: 0 <= i < |flows| && PairOf(flows[i]) == e && BuiltGraph(flows).edges[e] == AttrsOf(flows[i])
    ensures BuiltGraph(flows).edges[e].weight == BuiltGraph(flows).edges[e].amountUsdSum
    decreases |flows|
  {
    var n := |flows|;
    if PairOf(flows[n - 1]) == e {
      assert BuiltGraph(flows).edges[e] == AttrsOf(flows[n - 1]);
    } else {
      EdgeFidelity(flows[..n - 1], e);
      var i :| 0 <= i < n - 1 && PairOf(flows[..n - 1][i]) == e
        && BuiltGraph(flows[..n - 1]).edges[e] == AttrsOf(flows[..n - 1][i]);
      assert flows[i] == flows[..n - 1][i];
    }
  }

  /**
   For pre-aggregated input (no pair twice) there is one edge per flow and
   each edge carries exactly its flow's amount and count.
   */
  lemma PreAggregatedFlows(flows: seq<FlowRecord>)
    requires forall i, j :: 0 <= i < j < |flows| ==> PairOf(flows[i]) != PairOf(flows[j])
    ensures |BuiltGraph(flows).edges| == |flows|
    ensures forall i :: 0 <= i < |flows| ==>
      PairOf(flows[i]) in BuiltGraph(flows).edges && BuiltGraph(flows).edges[PairOf(flows[i])] == AttrsOf(flows[i])
  {
    PreAggregatedEdgeCount(flows);
    var g := BuiltGraph(flows);
    forall i | 0 <= i < |flows|
      ensures PairOf(flows[i]) in g.edges && g.edges[PairOf(flows[i])] == AttrsOf(flows[i])
    {
      LastWriteWins(flows, i);
    }
  }

  lemma {:induction false} PreAggregatedEdgeCount(flows: seq<FlowRecord>)
    requires forall i, j :: 0 <= i < j < |flows| ==> PairOf(flows[i]) != PairOf(flows[j])
    ensures |BuiltGraph(flows).edges| == |flows|
    decreases |flows|
  {
    if flows != [] {
      var prefix, f := flows[..|flows| - 1], flows[|flows| - 1];
      PreAggregatedEdgeCount(prefix);
      BuiltGraphShape(prefix);
      var m := BuiltGraph(prefix).edges;
      assert PairOf(f) !in m;
      assert m[PairOf(f) := AttrsOf(f)].Keys == m.Keys + {PairOf(f)};
    }
  }

  // ---------------------------------------------------------------------
  // Node volumes
  // ---------------------------------------------------------------------

  /** `amount_usd_sum` of an edge, 0 when absent. */
  function Amount(edges: map<Edge, EdgeAttrs>, e: Edge): real {
    if e in edges then edges[e].amountUsdSum else 0.0
  }

  /** Sum of `amount_usd_sum` over the edges of `es` that end at `n`. */
  function InVolume(es: seq<Edge>, edges: map<Edge, EdgeAttrs>, n: Address): real
    decreases |es|
  {
    if es == [] then 0.0
    else
      var e := es[|es| - 1];
      InVolume(es[..|es| - 1], edges, n) + (if e.1 == n then Amount(edges, e) else 0.0)
  }

  /** Sum of `amount_usd_sum` over the edges of `es` that start at `n`. */
  function OutVolume(es: seq<Edge>, edges: map<Edge, EdgeAttrs>, n: Address): real
    decreases |es|
  {
    if es == [] then 0.0
    else
      var e := es[|es| - 1];
      OutVolume(es[..|es| - 1], edges, n) + (if e.0 == n then Amount(edges, e) else 0.0)
  }

  /**
   `total_volume_usd` of a node: its in-edge plus its out-edge amounts. The
   sums are exact, so the order the edges are visited in does not matter;
   they are taken in `G.edges()` order.
   */
  function NodeVolume(g: GraphView, n: Address): real {
    InVolume(EdgeList(g), g.edges, n) + OutVolume(EdgeList(g), g.edges, n)
  }

  /** The graph with `total_volume_usd` set on every node from the current edges. */
  function WithNodeVolumes(g: GraphView): (r: GraphView)
    ensures WellFormed(g) ==> WellFormed(r)
  {
    g.(volume := map n | n in g.nodes :: NodeVolume(g, n))
  }

  /** Recomputing volumes a second time changes nothing. */
  lemma NodeVolumesIdempotent(g: GraphView)
    ensures WithNodeVolumes(WithNodeVolumes(g)) == WithNodeVolumes(g)
  {
  }

  /** Sum of all edge amounts. */
  function TotalAmount(es: seq<Edge>, edges: map<Edge, EdgeAttrs>): real
    decreases |es|
  {
    if es == [] then 0.0 else TotalAmount(es[..|es| - 1], edges) + Amount(edges, es[|es| - 1])
  }

  /** Sum of node volumes over the addresses `ns`. */
  function SumOfVolumes(ns: seq<Address>, es: seq<Edge>, edges: map<Edge, EdgeAttrs>): real
    decreases |ns|
  {
    if ns == [] then 0.0
    else
      var n := ns[|ns| - 1];
      SumOfVolumes(ns[..|ns| - 1], es, edges) + InVolume(es, edges, n) + OutVolume(es, edges, n)
  }

  /** Number of occurrences of `x` in `ns`. */
  function Occurrences(ns: seq<Address>, x: Address): nat
    decreases |ns|
  {
    if ns == [] then 0 else Occurrences(ns[..|ns| - 1], x) + (if ns[|ns| - 1] == x then 1 else 0)
  }

  lemma {:induction false} OccursOnce(ns: seq<Address>, x: Address)
    requires NoDup(ns)
    ensures Occurrences(ns, x) == if x in ns then 1 else 0
    decreases |ns|
  {
    if ns != [] {
      var prefix := ns[..|ns| - 1];
      OccursOnce(prefix, x);
      assert x in ns <==> x in prefix || ns[|ns| - 1] == x;
      if ns[|ns| - 1] == x {
        assert x !in prefix;
      }
    }
  }

  /** `a` added once for every occurrence of `x` in `ns`. */
  function AtOccurrences(ns: seq<Address>, x: Address, a: real): real
    decreases |ns|
  {
    if ns == [] then 0.0 else AtOccurrences(ns[..|ns| - 1], x, a) + (if ns[|ns| - 1] == x then a else 0.0)
  }

  lemma {:induction false} AtSingleOccurrence(ns: seq<Address>, x: Address, a: real)
    requires NoDup(ns)
    ensures AtOccurrences(ns, x, a) == if x in ns then a else 0.0
    decreases |ns|
  {
    if ns != [] {
      var prefix := ns[..|ns| - 1];
      AtSingleOccurrence(prefix, x, a);
      assert x in ns <==> x in prefix || ns[|ns| - 1] == x;
      if ns[|ns| - 1] == x {
        assert x !in prefix;
      }
    }
  }

  /** Adding one edge adds its amount once at its target and once at its source. */
  lemma {:induction false} SumOfVolumesStep(ns: seq<Address>, es: seq<Edge>, e: Edge, edges: map<Edge, EdgeAttrs>)
    ensures SumOfVolumes(ns, es + [e], edges)
      == SumOfVolumes(ns, es, edges) + AtOccurrences(ns, e.1, Amount(edges, e)) + AtOccurrences(ns, e.0, Amount(edges, e))
    decreases |ns|
  {
    if ns != [] {
      SumOfVolumesStep(ns[..|ns| - 1], es, e, edges);
      assert (es + [e])[..|es|] == es;
    }
  }

  /** Sum over nodes of in- plus out-volume is twice the sum over edges. */
  lemma {:induction false} VolumeHandshake(ns: seq<Address>, es: seq<Edge>, edges: map<Edge, EdgeAttrs>)
    requires NoDup(ns)
    requires forall e :: e in es ==> e.0 in ns && e.1 in ns
    ensures SumOfVolumes(ns, es, edges) == 2.0 * TotalAmount(es, edges)
    decreases |es|
  {
    if es == [] {
      ZeroVolumes(ns, edges);
    } else {
      var prefix, e := es[..|es| - 1], es[|es| - 1];
      VolumeHandshake(ns, prefix, edges);
      SumOfVolumesStep(ns, prefix, e, edges);
      AtSingleOccurrence(ns, e.0, Amount(edges, e));
      AtSingleOccurrence(ns, e.1, Amount(edges, e));
      assert prefix + [e] == es;
    }
  }

  lemma {:induction false} ZeroVolumes(ns: seq<Address>, edges: map<Edge, EdgeAttrs>)
    ensures SumOfVolumes(ns, [], edges) == 0.0
    decreases |ns|
  {
    if ns != [] {
      ZeroVolumes(ns[..|ns| - 1], edges);
    }
  }

  /**
   Volume conservation: over a well-formed graph, the node volumes add up to
   twice the total edge amount (a self-loop counts at both of its ends).
   */
  lemma VolumeConservation(g: GraphView)
    requires WellFormed(g)
    ensures SumOfVolumes(g.nodes, EdgeList(g), g.edges) == 2.0 * TotalAmount(EdgeList(g), g.edges)
  {
    EdgeListOf(g);
    VolumeHandshake(g.nodes, EdgeList(g), g.edges);
  }

  // ---------------------------------------------------------------------
  // The address index
  // ---------------------------------------------------------------------

  /** `tx_count` of an edge, 0 when absent. */
  function TxCount(edges: map<Edge, EdgeAttrs>, e: Edge): int {
    if e in edges then edges[e].txCount else 0
  }

  /** The flat record the index derives from an edge. */
  function FlowOf(edges: map<Edge, EdgeAttrs>, e: Edge): IndexedFlow {
    IndexedFlow(e.0, e.1, Amount(edges, e), TxCount(edges, e))
  }

  /**
   The list an address gets in the index when the edges are visited in the
   order `es`: each edge's record once for its source and once for its target.
   */
  function IncidentFlows(es: seq<Edge>, edges: map<Edge, EdgeAttrs>, a: Address): seq<IndexedFlow>
    decreases |es|
  {
    if es == [] then []
    else
      var e := es[|es| - 1];
      IncidentFlows(es[..|es| - 1], edges, a)
        + (if e.0 == a then [FlowOf(edges, e)] else [])
        + (if e.1 == a then [FlowOf(edges, e)] else [])
  }

  /** The addresses incident to at least one edge of `es`. */
  function Incident(es: seq<Edge>): set<Address> {
    (set e | e in es :: e.0) + (set e | e in es :: e.1)
  }

  lemma IncidentAppend(es: seq<Edge>, e: Edge)
    ensures Incident(es + [e]) == Incident(es) + {e.0, e.1}
  {
    assert forall d :: d in es + [e] <==> d in es || d == e;
  }

  /** Visiting one more edge extends its two ends' lists. */
  lemma IncidentFlowsStep(es: seq<Edge>, i: nat, edges: map<Edge, EdgeAttrs>, a: Address)
    requires i < |es|
    ensures IncidentFlows(es[..i + 1], edges, a)
      == IncidentFlows(es[..i], edges, a)
        + (if es[i].0 == a then [FlowOf(edges, es[i])] else [])
        + (if es[i].1 == a then [FlowOf(edges, es[i])] else [])
    ensures Incident(es[..i + 1]) == Incident(es[..i]) + {es[i].0, es[i].1}
  {
    assert es[..i + 1][..i] == es[..i];
    assert es[..i + 1] == es[..i] + [es[i]];
    IncidentAppend(es[..i], es[i]);
  }

  /** An address incident to no edge has an empty list. */
  lemma {:induction false} IncidentFlowsOfIsolated(es: seq<Edge>, edges: map<Edge, EdgeAttrs>, a: Address)
    requires a !in Incident(es)
    ensures IncidentFlows(es, edges, a) == []
    decreases |es|
  {
    if es != [] {
      var prefix := es[..|es| - 1];
      IncidentAppend(prefix, es[|es| - 1]);
      assert es == prefix + [es[|es| - 1]];
      IncidentFlowsOfIsolated(prefix, edges, a);
    }
  }

  /**
   Completeness: with every edge visited once, an edge's record occurs in an
   address's list once per end of the edge at that address: once in the
   source's and the target's lists, twice in a self-loop's node's list,
   never in any other list.
   */
  lemma {:induction false} IndexMultiplicity(es: seq<Edge>, edges: map<Edge, EdgeAttrs>, e: Edge, a: Address)
    requires NoDup(es) && e in es
    ensures multiset(IncidentFlows(es, edges, a))[FlowOf(edges, e)]
      == (if e.0 == a then 1 else 0) + (if e.1 == a then 1 else 0)
    decreases |es|
  {
    var prefix, last := es[..|es| - 1], es[|es| - 1];
    if last == e {
      assert e !in prefix;
      RecordsOfOtherEdges(prefix, edges, e, a);
    } else {
      assert e in prefix;
      IndexMultiplicity(prefix, edges, e, a);
    }
  }

  /** An edge not in `es` contributes no record. */
  lemma {:induction false} RecordsOfOtherEdges(es: seq<Edge>, edges: map<Edge, EdgeAttrs>, e: Edge, a: Address)
    requires e !in es
    ensures multiset(IncidentFlows(es, edges, a))[FlowOf(edges, e)] == 0
    decreases |es|
  {
    if es != [] {
      RecordsOfOtherEdges(es[..|es| - 1], edges, e, a);
    }
  }

  /**
   Soundness: every record in an address's list is the record of an edge of
   `es` with that address at one of its ends.
   */
  lemma {:induction false} IndexSoundness(es: seq<Edge>, edges: map<Edge, EdgeAttrs>, a: Address, r: IndexedFlow)
    requires r in IncidentFlows(es, edges, a)
    ensures (r.fromAddress, r.toAddress) in es
    ensures r == FlowOf(edges, (r.fromAddress, r.toAddress))
    ensures r.fromAddress == a || r.toAddress == a
    decreases |es|
  {
    var prefix, e := es[..|es| - 1], es[|es| - 1];
    if r in IncidentFlows(prefix, edges, a) {
      IndexSoundness(prefix, edges, a, r);
    }
  }

  /** Sum of the list lengths over the addresses `ns`. */
  function SumOfLengths(ns: seq<Address>, es: seq<Edge>, edges: map<Edge, EdgeAttrs>): nat
    decreases |ns|
  {
    if ns == [] then 0 else SumOfLengths(ns[..|ns| - 1], es, edges) + |IncidentFlows(es, edges, ns[|ns| - 1])|
  }

  lemma {:induction false} SumOfLengthsStep(ns: seq<Address>, es: seq<Edge>, e: Edge, edges: map<Edge, EdgeAttrs>)
    ensures SumOfLengths(ns, es + [e], edges) == SumOfLengths(ns, es, edges) + Occurrences(ns, e.0) + Occurrences(ns, e.1)
    decreases |ns|
  {
    if ns != [] {
      SumOfLengthsStep(ns[..|ns| - 1], es, e, edges);
      assert (es + [e])[..|es|] == es;
    }
  }

  /** The lists' lengths add up to twice the number of edges visited. */
  lemma {:induction false} LengthHandshake(ns: seq<Address>, es: seq<Edge>, edges: map<Edge, EdgeAttrs>)
    requires NoDup(ns)
    requires forall e :: e in es ==> e.0 in ns && e.1 in ns
    ensures SumOfLengths(ns, es, edges) == 2 * |es|
    decreases |es|
  {
    if es == [] {
      ZeroLengths(ns, edges);
    } else {
      var prefix, e := es[..|es| - 1], es[|es| - 1];
      LengthHandshake(ns, prefix, edges);
      SumOfLengthsStep(ns, prefix, e, edges);
      OccursOnce(ns, e.0);
      OccursOnce(ns, e.1);
      assert prefix + [e] == es;
    }
  }

  lemma {:induction false} ZeroLengths(ns: seq<Address>, edges: map<Edge, EdgeAttrs>)
    ensures SumOfLengths(ns, [], edges) == 0
    decreases |ns|
  {
    if ns != [] {
      ZeroLengths(ns[..|ns| - 1], edges);
    }
  }

  lemma {:induction false} NoDupCardinality(s: seq<Edge>)
    requires NoDup(s)
    ensures |Elems(s)| == |s|
    decreases |s|
  {
    if s != [] {
      var prefix := s[..|s| - 1];
      NoDupCardinality(prefix);
      assert Elems(s) == Elems(prefix) + {s[|s| - 1]};
      assert s[|s| - 1] !in Elems(prefix);
    }
  }

  /** `G.edges()` on a consistent graph has one entry per edge. */
  lemma EdgeListLength(g: GraphView)
    requires WellFormed(g)
    ensures |EdgeList(g)| == |g.edges|
  {
    EdgeListOf(g);
    NoDupCardinality(EdgeList(g));
    assert Elems(EdgeList(g)) == g.edges.Keys;
  }

  /** Over a well-formed graph, the index lists hold twice as many records as there are edges. */
  lemma IndexTotalLength(g: GraphView)
    requires WellFormed(g)
    ensures SumOfLengths(g.nodes, EdgeList(g), g.edges) == 2 * |g.edges|
  {
    EdgeListOf(g);
    LengthHandshake(g.nodes, EdgeList(g), g.edges);
    EdgeListLength(g);
  }

  /** Sum of the list lengths of `index` over the keys `keys`. */
  function IndexLength(index: map<Address, seq<IndexedFlow>>, keys: seq<Address>): nat
    requires forall a :: a in keys ==> a in index
    decreases |keys|
  {
    if keys == [] then 0 else IndexLength(index, keys[..|keys| - 1]) + |index[keys[|keys| - 1]]|
  }

  lemma {:induction false} IndexLengthOfLists(index: map<Address, seq<IndexedFlow>>, keys: seq<Address>,
                                              es: seq<Edge>, edges: map<Edge, EdgeAttrs>)
    requires forall a :: a in keys ==> a in index && index[a] == IncidentFlows(es, edges, a)
    ensures IndexLength(index, keys) == SumOfLengths(keys, es, edges)
    decreases |keys|
  {
    if keys != [] {
      IndexLengthOfLists(index, keys[..|keys| - 1], es, edges);
    }
  }

  lemma EndsListed(es: seq<Edge>, keys: seq<Address>)
    requires Elems(keys) == Incident(es)
    ensures forall e :: e in es ==> e.0 in keys && e.1 in keys
  {
    forall e | e in es
      ensures e.0 in keys && e.1 in keys
    {
      assert e.0 in Incident(es) && e.1 in Incident(es);
      assert e.0 in Elems(keys) && e.1 in Elems(keys);
    }
  }

  /**
   The index itself, as `build_flows_index_by_address` returns it (keyed by
   the addresses incident to an edge, each list that address's records), holds
   twice as many records as the graph has edges, whatever order its keys are
   listed in.
   */
  lemma IndexRecordCount(g: GraphView, index: map<Address, seq<IndexedFlow>>, keys: seq<Address>)
    requires WellFormed(g)
    requires index.Keys == Incident(EdgeList(g))
    requires forall a :: a in index ==> index[a] == IncidentFlows(EdgeList(g), g.edges, a)
    requires NoDup(keys) && Elems(keys) == index.Keys
    ensures IndexLength(index, keys) == 2 * |g.edges|
  {
    var es := EdgeList(g);
    IndexLengthOfLists(index, keys, es, g.edges);
    EndsListed(es, keys);
    LengthHandshake(keys, es, g.edges);
    EdgeListLength(g);
  }

  /** A node's volume is the sum of the amounts in its index list. */
  lemma {:induction false} VolumeMatchesIndex(es: seq<Edge>, edges: map<Edge, EdgeAttrs>, a: Address)
    ensures InVolume(es, edges, a) + OutVolume(es, edges, a) == SumOfAmounts(IncidentFlows(es, edges, a))
    decreases |es|
  {
    if es != [] {
      var prefix, e := es[..|es| - 1], es[|es| - 1];
      VolumeMatchesIndex(prefix, edges, a);
      var head := IncidentFlows(prefix, edges, a);
      var outPart := if e.0 == a then [FlowOf(edges, e)] else [];
      var inPart := if e.1 == a then [FlowOf(edges, e)] else [];
      SumOfAmountsAppend(head, outPart);
      SumOfAmountsAppend(head + outPart, inPart);
    }
  }

  /** Sum of `amount_usd_sum` over a list of index records. */
  function SumOfAmounts(s: seq<IndexedFlow>): real
    decreases |s|
  {
    if s == [] then 0.0 else SumOfAmounts(s[..|s| - 1]) + s[|s| - 1].amountUsdSum
  }

  lemma {:induction false} SumOfAmountsAppend(s: seq<IndexedFlow>, t: seq<IndexedFlow>)
    ensures SumOfAmounts(s + t) == SumOfAmounts(s) + SumOfAmounts(t)
    decreases |t|
  {
    if t != [] {
      SumOfAmountsAppend(s, t[..|t| - 1]);
      assert (s + t)[..|s + t| - 1] == s + t[..|t| - 1];
    } else {
      assert s + t == s;
    }
  }
}
