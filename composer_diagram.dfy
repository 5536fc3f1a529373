/**
 * Stage 6 of the composition: splicing the diagram fragments of the selected layers
 * into one directed graph that ends in a single backend node.
 *
 * The specification functions describe the graph in closed form (the nodes tried in
 * order, the edges emitted in order, and the "previous terminal nodes" threaded
 * through the stages); `BuildCombinedDiagram` assembles it step by step, with the
 * id set that rejects repeated node ids, and is proved to produce exactly that graph.
 */
module ComposerDiagram {
  import opened Options
  import opened Text
  import opened Layers

  datatype Diagram = Diagram(nodes: seq<DiagramNode>, edges: seq<DiagramEdge>)

  /** The terminal node appended after every layer. */
  const BackendNode := DiagramNode("backend", Backend, "Backend")

  function Last<T>(s: seq<T>): T
    requires |s| > 0
  {
    s[|s| - 1]
  }

  // ---------------------------------------------------------------------------
  // Node ids, prefixes and de-duplication
  // ---------------------------------------------------------------------------

  /** `${prefix}-${id}` when a prefix is given, the id itself otherwise. */
  function Prefixed(prefix: Option<string>, id: string): string
  {
    if prefix.Some? then prefix.value + "-" + id else id
  }

  /** The prefix of the `idx`-th of `count` edge layers: `edge{idx}` only when there are several. */
  function EdgePrefix(count: nat, idx: nat): (p: Option<string>)
    ensures p.Some? <==> count > 1
  {
    if count > 1 then Some("edge" + NatToString(idx)) else None
  }

  function PrefixNode(prefix: Option<string>, n: DiagramNode): DiagramNode
  {
    n.(id := Prefixed(prefix, n.id))
  }

  function PrefixNodes(prefix: Option<string>, ns: seq<DiagramNode>): seq<DiagramNode>
  {
    seq(|ns|, k requires 0 <= k < |ns| => PrefixNode(prefix, ns[k]))
  }

  function PrefixEdge(prefix: Option<string>, e: DiagramEdge): DiagramEdge
  {
    DiagramEdge(Prefixed(prefix, e.from), Prefixed(prefix, e.to), e.caption)
  }

  function PrefixEdges(prefix: Option<string>, es: seq<DiagramEdge>): seq<DiagramEdge>
  {
    seq(|es|, k requires 0 <= k < |es| => PrefixEdge(prefix, es[k]))
  }

  function NodeIds(ns: seq<DiagramNode>): set<string>
  {
    set n | n in ns :: n.id
  }

  predicate DistinctIds(ns: seq<DiagramNode>)
  {
    forall i, j :: 0 <= i < j < |ns| ==> ns[i].id != ns[j].id
  }

  /** The ids of a concatenation are the ids of its halves. */
  lemma NodeIdsAppend(a: seq<DiagramNode>, b: seq<DiagramNode>)
    ensures NodeIds(a + b) == NodeIds(a) + NodeIds(b)
  {
    forall x | x in NodeIds(a + b) ensures x in NodeIds(a) + NodeIds(b) {
      var m :| m in a + b && m.id == x;
      assert m in a || m in b;
    }
  }

  /** Appends `n` unless a node with its id is already present. */
  function AddNode(ns: seq<DiagramNode>, n: DiagramNode): seq<DiagramNode>
  {
    if n.id in NodeIds(ns) then ns else ns + [n]
  }

  /** Tries every candidate in order; the first node with a given id wins. */
  function AddNodes(ns: seq<DiagramNode>, candidates: seq<DiagramNode>): seq<DiagramNode>
    decreases |candidates|
  {
    if |candidates| == 0 then ns
    else AddNode(AddNodes(ns, candidates[..|candidates| - 1]), Last(candidates))
  }

  /** De-duplication keeps every id that was tried and no other. */
  lemma {:induction false} AddNodesIds(ns: seq<DiagramNode>, candidates: seq<DiagramNode>)
    ensures NodeIds(AddNodes(ns, candidates)) == NodeIds(ns) + NodeIds(candidates)
    decreases |candidates|
  {
    if |candidates| > 0 {
      var init := candidates[..|candidates| - 1];
      var n := Last(candidates);
      assert candidates == init + [n];
      AddNodesIds(ns, init);
      var before := AddNodes(ns, init);
      assert NodeIds(candidates) == NodeIds(init) + {n.id} by {
        forall x | x in NodeIds(candidates) ensures x in NodeIds(init) + {n.id} {
          var m :| m in candidates && m.id == x;
          assert m in init || m == n;
        }
      }
      if n.id !in NodeIds(before) {
        assert NodeIds(before + [n]) == NodeIds(before) + {n.id} by {
          forall x | x in NodeIds(before + [n]) ensures x in NodeIds(before) + {n.id} {
            var m :| m in before + [n] && m.id == x;
            assert m in before || m == n;
          }
        }
      }
    }
  }

  /** De-duplication never repeats an id. */
  lemma {:induction false} AddNodesDistinct(ns: seq<DiagramNode>, candidates: seq<DiagramNode>)
    requires DistinctIds(ns)
    ensures DistinctIds(AddNodes(ns, candidates))
    decreases |candidates|
  {
    if |candidates| > 0 {
      var init := candidates[..|candidates| - 1];
      AddNodesDistinct(ns, init);
      var before := AddNodes(ns, init);
      var n := Last(candidates);
      if n.id !in NodeIds(before) {
        forall i | 0 <= i < |before| ensures before[i].id != n.id {
          assert before[i] in before;
        }
      }
    }
  }

  /** De-duplication only holds nodes that were present or tried, and leaves the present ones in front. */
  lemma {:induction false} AddNodesFrom(ns: seq<DiagramNode>, candidates: seq<DiagramNode>)
    ensures forall n :: n in AddNodes(ns, candidates) ==> n in ns || n in candidates
    ensures |ns| <= |AddNodes(ns, candidates)| && AddNodes(ns, candidates)[..|ns|] == ns
    decreases |candidates|
  {
    if |candidates| > 0 {
      var init := candidates[..|candidates| - 1];
      assert candidates == init + [Last(candidates)];
      AddNodesFrom(ns, init);
    }
  }

  /** The three facts together. */
  lemma AddNodesFacts(ns: seq<DiagramNode>, candidates: seq<DiagramNode>)
    ensures NodeIds(AddNodes(ns, candidates)) == NodeIds(ns) + NodeIds(candidates)
    ensures DistinctIds(ns) ==> DistinctIds(AddNodes(ns, candidates))
    ensures forall n :: n in AddNodes(ns, candidates) ==> n in ns || n in candidates
    ensures |ns| <= |AddNodes(ns, candidates)| && AddNodes(ns, candidates)[..|ns|] == ns
  {
    AddNodesIds(ns, candidates);
    if DistinctIds(ns) {
      AddNodesDistinct(ns, candidates);
    }
    AddNodesFrom(ns, candidates);
  }

  // ---------------------------------------------------------------------------
  // The edge stage
  // ---------------------------------------------------------------------------

  /** The nodes tried for the first `i` edge layers, with their prefixes. */
  function EdgeNodes(edge: seq<Layer>, i: nat): seq<DiagramNode>
    requires i <= |edge|
  {
    if i == 0 then []
    else EdgeNodes(edge, i - 1) + PrefixNodes(EdgePrefix(|edge|, i - 1), edge[i - 1].diagramNodes)
  }

  /** The internal edges of the first `i` edge layers, with their prefixes. */
  function EdgeEdges(edge: seq<Layer>, i: nat): seq<DiagramEdge>
    requires i <= |edge|
  {
    if i == 0 then []
    else EdgeEdges(edge, i - 1) + PrefixEdges(EdgePrefix(|edge|, i - 1), edge[i - 1].diagramEdges)
  }

  /** The (prefixed) last node of a layer, if it has nodes. */
  function Terminal(prefix: Option<string>, l: Layer): seq<string>
  {
    if |l.diagramNodes| > 0 then [Prefixed(prefix, Last(l.diagramNodes).id)] else []
  }

  /** The previous terminal nodes after the first `i` edge layers: one per layer that has nodes. */
  function EdgeTerminals(edge: seq<Layer>, i: nat): seq<string>
    requires i <= |edge|
  {
    if i == 0 then []
    else EdgeTerminals(edge, i - 1) + Terminal(EdgePrefix(|edge|, i - 1), edge[i - 1])
  }

  /** One edge from each of `froms` to `to`. */
  function Links(froms: seq<string>, to: string, caption: Option<string>): seq<DiagramEdge>
  {
    seq(|froms|, k requires 0 <= k < |froms| => DiagramEdge(froms[k], to, caption))
  }

  // ---------------------------------------------------------------------------
  // The processing stage
  // ---------------------------------------------------------------------------

  /** The nodes of the first `i` active processing layers (no prefix). */
  function ProcNodes(active: seq<Layer>, i: nat): seq<DiagramNode>
    requires i <= |active|
  {
    if i == 0 then [] else ProcNodes(active, i - 1) + active[i - 1].diagramNodes
  }

  /** The previous terminal nodes after the first `i` active processing layers, starting from `prev0`:
      a layer with nodes collapses the list to its own last node. */
  function ProcTerminals(prev0: seq<string>, active: seq<Layer>, i: nat): seq<string>
    requires i <= |active|
  {
    if i == 0 then prev0
    else if |active[i - 1].diagramNodes| > 0 then [Last(active[i - 1].diagramNodes).id]
    else ProcTerminals(prev0, active, i - 1)
  }

  /** The edges one active processing layer contributes: its internal edges, then one edge from
      every previous terminal node to its first node. */
  function LayerLinkEdges(prev: seq<string>, l: Layer): seq<DiagramEdge>
  {
    l.diagramEdges + (if |l.diagramNodes| > 0 then Links(prev, l.diagramNodes[0].id, None) else [])
  }

  /** The edges of the first `i` active processing layers, chained from `prev0`. */
  function ProcEdges(prev0: seq<string>, active: seq<Layer>, i: nat): seq<DiagramEdge>
    requires i <= |active|
  {
    if i == 0 then []
    else ProcEdges(prev0, active, i - 1) + LayerLinkEdges(ProcTerminals(prev0, active, i - 1), active[i - 1])
  }

  // ---------------------------------------------------------------------------
  // The whole graph
  // ---------------------------------------------------------------------------

  predicate IsKafka(buffering: Layer)
  {
    buffering.id == "kafka-buffer"
  }

  /** The terminal nodes the processing stage starts from: Kafka alone when it is the buffer. */
  function AfterBuffering(edge: seq<Layer>, buffering: Layer): seq<string>
  {
    if IsKafka(buffering) then ["kafka"] else EdgeTerminals(edge, |edge|)
  }

  /** Every node tried, in order: edge layers, Kafka, active processing layers, backend. */
  function Candidates(edge: seq<Layer>, processing: seq<Layer>, buffering: Layer): seq<DiagramNode>
  {
    var active := ActiveProcessing(processing);
    EdgeNodes(edge, |edge|) + (if IsKafka(buffering) then buffering.diagramNodes else [])
    + ProcNodes(active, |active|) + [BackendNode]
  }

  /** Every edge emitted, in order: edge layers' internal edges, the links into Kafka, the processing
      chain, and the `OTLP` links into the backend. */
  function CombinedEdges(edge: seq<Layer>, processing: seq<Layer>, buffering: Layer): seq<DiagramEdge>
  {
    var active := ActiveProcessing(processing);
    var prev := AfterBuffering(edge, buffering);
    EdgeEdges(edge, |edge|)
    + (if IsKafka(buffering) then Links(EdgeTerminals(edge, |edge|), "kafka", None) else [])
    + ProcEdges(prev, active, |active|)
    + Links(ProcTerminals(prev, active, |active|), BackendNode.id, Some("OTLP"))
  }

  /** The combined graph of the composed architecture. */
  function CombinedDiagram(edge: seq<Layer>, processing: seq<Layer>, buffering: Layer): Diagram
  {
    Diagram(AddNodes([], Candidates(edge, processing, buffering)), CombinedEdges(edge, processing, buffering))
  }

  /** Node ids in the combined graph are pairwise distinct, and are exactly the ids tried. */
  lemma CombinedNodeIds(edge: seq<Layer>, processing: seq<Layer>, buffering: Layer)
    ensures DistinctIds(CombinedDiagram(edge, processing, buffering).nodes)
    ensures NodeIds(CombinedDiagram(edge, processing, buffering).nodes) == NodeIds(Candidates(edge, processing, buffering))
  {
    AddNodesFacts([], Candidates(edge, processing, buffering));
  }

  // ---------------------------------------------------------------------------
  // The builder
  // ---------------------------------------------------------------------------

  /** The `addNode` helper: adds the node under its (prefixed) id unless that id was already added,
      keeping the id set in step with the node list. */
  method AddNodeTo(nodes: seq<DiagramNode>, addedNodeIds: set<string>, node: DiagramNode, prefix: Option<string>)
    returns (nodes': seq<DiagramNode>, addedNodeIds': set<string>, id: string)
    requires addedNodeIds == NodeIds(nodes)
    ensures id == Prefixed(prefix, node.id)
    ensures nodes' == AddNode(nodes, PrefixNode(prefix, node))
    ensures addedNodeIds' == NodeIds(nodes') == addedNodeIds + {id}
  {
    id := if prefix.Some? then prefix.value + "-" + node.id else node.id;
    if id !in addedNodeIds {
      addedNodeIds' := addedNodeIds + {id};
      nodes' := nodes + [node.(id := id)];
    } else {
      nodes', addedNodeIds' := nodes, addedNodeIds;
    }
  }

  /** Adds the nodes of one layer, in order. */
  method AddLayerNodes(nodes: seq<DiagramNode>, addedNodeIds: set<string>, ns: seq<DiagramNode>, prefix: Option<string>)
    returns (nodes': seq<DiagramNode>, addedNodeIds': set<string>)
    requires addedNodeIds == NodeIds(nodes)
    ensures nodes' == AddNodes(nodes, PrefixNodes(prefix, ns))
    ensures addedNodeIds' == NodeIds(nodes')
  {
    nodes', addedNodeIds' := nodes, addedNodeIds;
    var k := 0;
    while k < |ns|
      invariant 0 <= k <= |ns|
      invariant nodes' == AddNodes(nodes, PrefixNodes(prefix, ns[..k]))
      invariant addedNodeIds' == NodeIds(nodes')
    {
      var id;
      nodes', addedNodeIds', id := AddNodeTo(nodes', addedNodeIds', ns[k], prefix);
      assert PrefixNodes(prefix, ns[..k + 1])[..k] == PrefixNodes(prefix, ns[..k]);
      k := k + 1;
    }
    assert ns[..k] == ns;
  }

  /** Appends one edge from each of `froms` to `to`. */
  method AddLinks(edges: seq<DiagramEdge>, froms: seq<string>, to: string, caption: Option<string>)
    returns (edges': seq<DiagramEdge>)
    ensures edges' == edges + Links(froms, to, caption)
  {
    edges' := edges;
    var k := 0;
    while k < |froms|
      invariant 0 <= k <= |froms|
      invariant edges' == edges + Links(froms[..k], to, caption)
    {
      edges' := edges' + [DiagramEdge(froms[k], to, caption)];
      k := k + 1;
    }
    assert froms[..k] == froms;
  }

  /** Appends the internal edges of one layer, with the layer's prefix applied to both ends. */
  method AddLayerEdges(edges: seq<DiagramEdge>, es: seq<DiagramEdge>, prefix: Option<string>)
    returns (edges': seq<DiagramEdge>)
    ensures edges' == edges + PrefixEdges(prefix, es)
  {
    edges' := edges;
    var k := 0;
    while k < |es|
      invariant 0 <= k <= |es|
      invariant edges' == edges + PrefixEdges(prefix, es[..k])
    {
      var e := es[k];
      var fromId := if prefix.Some? then prefix.value + "-" + e.from else e.from;
      var toId := if prefix.Some? then prefix.value + "-" + e.to else e.to;
      edges' := edges' + [DiagramEdge(fromId, toId, e.caption)];
      assert PrefixEdges(prefix, es[..k + 1])[..k] == PrefixEdges(prefix, es[..k]);
      k := k + 1;
    }
    assert es[..k] == es;
  }

  /** One edge layer under its prefix: its nodes and internal edges, and its last node appended to
      the previous terminals. */
  method AddEdgeLayer(nodes: seq<DiagramNode>, addedNodeIds: set<string>, edges: seq<DiagramEdge>,
                      previousNodeIds: seq<string>, layer: Layer, prefix: Option<string>)
    returns (nodes': seq<DiagramNode>, addedNodeIds': set<string>, edges': seq<DiagramEdge>, previousNodeIds': seq<string>)
    requires addedNodeIds == NodeIds(nodes)
    ensures nodes' == AddNodes(nodes, PrefixNodes(prefix, layer.diagramNodes))
    ensures addedNodeIds' == NodeIds(nodes')
    ensures edges' == edges + PrefixEdges(prefix, layer.diagramEdges)
    ensures previousNodeIds' == previousNodeIds + Terminal(prefix, layer)
  {
    nodes', addedNodeIds' := AddLayerNodes(nodes, addedNodeIds, layer.diagramNodes, prefix);
    edges' := AddLayerEdges(edges, layer.diagramEdges, prefix);
    previousNodeIds' := previousNodeIds;
    if |layer.diagramNodes| > 0 {
      var lastNode := layer.diagramNodes[|layer.diagramNodes| - 1];
      previousNodeIds' := previousNodeIds + [if prefix.Some? then prefix.value + "-" + lastNode.id else lastNode.id];
    }
  }

  /** The edge-layer part of `buildCombinedDiagram`: node ids get an `edge{idx}-` prefix only when
      there is more than one edge layer, and each layer's last node becomes a previous terminal. */
  method AddEdgeLayers(edge: seq<Layer>)
    returns (nodes: seq<DiagramNode>, addedNodeIds: set<string>, edges: seq<DiagramEdge>, previousNodeIds: seq<string>)
    ensures nodes == AddNodes([], EdgeNodes(edge, |edge|))
    ensures addedNodeIds == NodeIds(nodes)
    ensures edges == EdgeEdges(edge, |edge|)
    ensures previousNodeIds == EdgeTerminals(edge, |edge|)
  {
    nodes, addedNodeIds, edges, previousNodeIds := [], {}, [], [];
    var idx := 0;
    while idx < |edge|
      invariant 0 <= idx <= |edge|
      invariant nodes == AddNodes([], EdgeNodes(edge, idx))
      invariant addedNodeIds == NodeIds(nodes)
      invariant edges == EdgeEdges(edge, idx)
      invariant previousNodeIds == EdgeTerminals(edge, idx)
    {
      var prefix := if |edge| > 1 then Some("edge" + NatToString(idx)) else None;
      assert prefix == EdgePrefix(|edge|, idx);
      nodes, addedNodeIds, edges, previousNodeIds :=
        AddEdgeLayer(nodes, addedNodeIds, edges, previousNodeIds, edge[idx], prefix);
      AddNodesAppend([], EdgeNodes(edge, idx), PrefixNodes(prefix, edge[idx].diagramNodes));
      assert EdgeNodes(edge, idx + 1) == EdgeNodes(edge, idx) + PrefixNodes(prefix, edge[idx].diagramNodes);
      assert EdgeEdges(edge, idx + 1) == EdgeEdges(edge, idx) + PrefixEdges(prefix, edge[idx].diagramEdges);
      assert EdgeTerminals(edge, idx + 1) == EdgeTerminals(edge, idx) + Terminal(prefix, edge[idx]);
      idx := idx + 1;
    }
  }

  /** One active processing layer: its nodes and internal edges, an edge from every previous terminal
      to its first node, and its last node as the only terminal afterwards. */
  method AddProcessingLayer(nodes: seq<DiagramNode>, addedNodeIds: set<string>, edges: seq<DiagramEdge>,
                            previousNodeIds: seq<string>, layer: Layer)
    returns (nodes': seq<DiagramNode>, addedNodeIds': set<string>, edges': seq<DiagramEdge>, previousNodeIds': seq<string>)
    requires addedNodeIds == NodeIds(nodes)
    ensures nodes' == AddNodes(nodes, layer.diagramNodes)
    ensures addedNodeIds' == NodeIds(nodes')
    ensures edges' == edges + LayerLinkEdges(previousNodeIds, layer)
    ensures previousNodeIds' == if |layer.diagramNodes| > 0 then [Last(layer.diagramNodes).id] else previousNodeIds
  {
    nodes', addedNodeIds' := AddLayerNodes(nodes, addedNodeIds, layer.diagramNodes, None);
    assert PrefixNodes(None, layer.diagramNodes) == layer.diagramNodes;
    edges' := AddLayerEdges(edges, layer.diagramEdges, None);
    assert PrefixEdges(None, layer.diagramEdges) == layer.diagramEdges;
    previousNodeIds' := previousNodeIds;
    if |layer.diagramNodes| > 0 {
      var firstNode := layer.diagramNodes[0];
      edges' := AddLinks(edges', previousNodeIds, firstNode.id, None);
      var lastNode := layer.diagramNodes[|layer.diagramNodes| - 1];
      previousNodeIds' := [lastNode.id];
    }
  }

  /** The processing part of `buildCombinedDiagram`, over the active layers in order. */
  method AddProcessingLayers(nodes: seq<DiagramNode>, addedNodeIds: set<string>, edges: seq<DiagramEdge>,
                             previousNodeIds: seq<string>, active: seq<Layer>)
    returns (nodes': seq<DiagramNode>, addedNodeIds': set<string>, edges': seq<DiagramEdge>, previousNodeIds': seq<string>)
    requires addedNodeIds == NodeIds(nodes)
    ensures nodes' == AddNodes(nodes, ProcNodes(active, |active|))
    ensures addedNodeIds' == NodeIds(nodes')
    ensures edges' == edges + ProcEdges(previousNodeIds, active, |active|)
    ensures previousNodeIds' == ProcTerminals(previousNodeIds, active, |active|)
  {
    nodes', addedNodeIds', edges', previousNodeIds' := nodes, addedNodeIds, edges, previousNodeIds;
    var i := 0;
    while i < |active|
      invariant 0 <= i <= |active|
      invariant nodes' == AddNodes(nodes, ProcNodes(active, i))
      invariant addedNodeIds' == NodeIds(nodes')
      invariant edges' == edges + ProcEdges(previousNodeIds, active, i)
      invariant previousNodeIds' == ProcTerminals(previousNodeIds, active, i)
    {
      nodes', addedNodeIds', edges', previousNodeIds' :=
        AddProcessingLayer(nodes', addedNodeIds', edges', previousNodeIds', active[i]);
      AddNodesAppend(nodes, ProcNodes(active, i), active[i].diagramNodes);
      i := i + 1;
    }
  }

  /** The Kafka part of `buildCombinedDiagram`: its node, an edge into it from every previous
      terminal, and Kafka as the only terminal afterwards. */
  method AddKafka(nodes: seq<DiagramNode>, addedNodeIds: set<string>, edges: seq<DiagramEdge>,
                  previousNodeIds: seq<string>, buffering: Layer)
    returns (nodes': seq<DiagramNode>, addedNodeIds': set<string>, edges': seq<DiagramEdge>, previousNodeIds': seq<string>)
    requires addedNodeIds == NodeIds(nodes)
    ensures nodes' == AddNodes(nodes, buffering.diagramNodes)
    ensures addedNodeIds' == NodeIds(nodes')
    ensures edges' == edges + Links(previousNodeIds, "kafka", None)
    ensures previousNodeIds' == ["kafka"]
  {
    nodes', addedNodeIds' := AddLayerNodes(nodes, addedNodeIds, buffering.diagramNodes, None);
    assert PrefixNodes(None, buffering.diagramNodes) == buffering.diagramNodes;
    edges' := AddLinks(edges, previousNodeIds, "kafka", None);
    previousNodeIds' := ["kafka"];
  }

  /** The `buildCombinedDiagram` stage. */
  method BuildCombinedDiagram(edge: seq<Layer>, processing: seq<Layer>, buffering: Layer) returns (d: Diagram)
    ensures d == CombinedDiagram(edge, processing, buffering)
  {
    var nodes, addedNodeIds, edges, previousNodeIds := AddEdgeLayers(edge);

    // Kafka sits between the edge and the processing layers.
    ghost var kafkaNodes := if IsKafka(buffering) then buffering.diagramNodes else [];
    ghost var kafkaEdges := if IsKafka(buffering) then Links(EdgeTerminals(edge, |edge|), "kafka", None) else [];
    if buffering.id == "kafka-buffer" {
      nodes, addedNodeIds, edges, previousNodeIds := AddKafka(nodes, addedNodeIds, edges, previousNodeIds, buffering);
    }
    AddNodesAppend([], EdgeNodes(edge, |edge|), kafkaNodes);
    assert nodes == AddNodes([], EdgeNodes(edge, |edge|) + kafkaNodes);
    assert edges == EdgeEdges(edge, |edge|) + kafkaEdges;
    assert previousNodeIds == AfterBuffering(edge, buffering);

    var activeProcessing := ActiveProcessing(processing);
    ghost var prev := previousNodeIds;
    nodes, addedNodeIds, edges, previousNodeIds :=
      AddProcessingLayers(nodes, addedNodeIds, edges, previousNodeIds, activeProcessing);
    AddNodesAppend([], EdgeNodes(edge, |edge|) + kafkaNodes, ProcNodes(activeProcessing, |activeProcessing|));

    // The single backend, fed by whatever is terminal now.
    var backendId;
    nodes, addedNodeIds, backendId := AddNodeTo(nodes, addedNodeIds, DiagramNode("backend", Backend, "Backend"), None);
    edges := AddLinks(edges, previousNodeIds, backendId, Some("OTLP"));
    ghost var cands := EdgeNodes(edge, |edge|) + kafkaNodes + ProcNodes(activeProcessing, |activeProcessing|);
    assert AddNodes([], cands + [BackendNode]) == AddNode(AddNodes([], cands), BackendNode) by {
      assert (cands + [BackendNode])[..|cands|] == cands;
    }
    assert nodes == AddNodes([], Candidates(edge, processing, buffering));
    assert edges == CombinedEdges(edge, processing, buffering);
    d := Diagram(nodes, edges);
  }

  /** Trying `a` then `b` is trying `a + b`. */
  lemma {:induction false} AddNodesAppend(ns: seq<DiagramNode>, a: seq<DiagramNode>, b: seq<DiagramNode>)
    ensures AddNodes(ns, a + b) == AddNodes(AddNodes(ns, a), b)
    decreases |b|
  {
    if |b| > 0 {
      var b' := b[..|b| - 1];
      assert (a + b)[..|a + b| - 1] == a + b';
      AddNodesAppend(ns, a, b');
    } else {
      assert a + b == a;
    }
  }
}
