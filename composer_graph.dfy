/**
 * Properties of the combined diagram: every edge joins two of its nodes, there is exactly
 * one backend node, edge-layer nodes are prefixed exactly when there are several edge
 * layers, and the last node of every edge layer has a directed path to the backend.
 *
 * They hold for any layers whose diagram fragments are well formed (self-contained,
 * chained, no backend node of their own), which every catalog layer is.
 */
module ComposerGraph {
  import opened Options
  import opened Text
  import opened Layers
  import opened ComposerDiagram

  /** The diagram fragments the builder is given are well formed, and a Kafka buffer has its `kafka` node. */
  ghost predicate WellFormedInputs(edge: seq<Layer>, processing: seq<Layer>, buffering: Layer)
  {
    (forall l :: l in edge ==> DiagramWellFormed(l))
    && (forall l :: l in processing ==> DiagramWellFormed(l))
    && DiagramWellFormed(buffering)
    && (IsKafka(buffering) ==> "kafka" in NodeIdsOf(buffering))
  }

  /** Layers drawn from the catalog are always acceptable inputs. */
  lemma CatalogInputsWellFormed(edge: seq<Layer>, processing: seq<Layer>, buffering: Layer)
    requires forall l :: l in edge ==> l in GetAllLayers()
    requires forall l :: l in processing ==> l in GetAllLayers()
    requires buffering in GetAllLayers()
    ensures WellFormedInputs(edge, processing, buffering)
  {
    forall l | l in edge ensures DiagramWellFormed(l) {
      CatalogDiagramWellFormed(l);
    }
    forall l | l in processing ensures DiagramWellFormed(l) {
      CatalogDiagramWellFormed(l);
    }
    CatalogDiagramWellFormed(buffering);
    if IsKafka(buffering) {
      KafkaBufferHasKafkaNode(buffering);
    }
  }

  lemma KafkaBufferHasKafkaNode(buffering: Layer)
    requires buffering in GetAllLayers() && IsKafka(buffering)
    ensures "kafka" in NodeIdsOf(buffering)
  {
    GetLayerExact("kafka-buffer", buffering);
    ComposerIdsResolve();
    assert buffering == KafkaBuffer;
    assert KafkaBuffer.diagramNodes[0] in KafkaBuffer.diagramNodes;
  }

  // ---------------------------------------------------------------------------
  // Prefixing
  // ---------------------------------------------------------------------------

  /** An `edge{i}-` prefix never turns an id into `backend`. */
  lemma PrefixedNotBackend(count: nat, idx: nat, id: string)
    requires id != "backend"
    ensures Prefixed(EdgePrefix(count, idx), id) != "backend"
  {
    var p := EdgePrefix(count, idx);
    if p.Some? {
      assert Prefixed(p, id)[0] == 'e';
      assert "backend"[0] == 'b';
    }
  }

  /** A prefixed layer's nodes keep their kinds and carry the prefixed ids. */
  lemma PrefixNodesMember(p: Option<string>, ns: seq<DiagramNode>, n: DiagramNode)
    requires n in PrefixNodes(p, ns)
    ensures exists m :: m in ns && n == PrefixNode(p, m)
  {
    var k :| 0 <= k < |PrefixNodes(p, ns)| && PrefixNodes(p, ns)[k] == n;
    assert ns[k] in ns;
  }

  lemma PrefixedIdPresent(p: Option<string>, ns: seq<DiagramNode>, m: DiagramNode)
    requires m in ns
    ensures Prefixed(p, m.id) in NodeIds(PrefixNodes(p, ns))
  {
    var k :| 0 <= k < |ns| && ns[k] == m;
    assert PrefixNodes(p, ns)[k] in PrefixNodes(p, ns);
  }

  /** A self-contained layer stays self-contained under a prefix. */
  lemma PrefixEdgesLocal(p: Option<string>, l: Layer, e: DiagramEdge)
    requires EdgesLocal(l)
    requires e in PrefixEdges(p, l.diagramEdges)
    ensures e.from in NodeIds(PrefixNodes(p, l.diagramNodes)) && e.to in NodeIds(PrefixNodes(p, l.diagramNodes))
  {
    var k :| 0 <= k < |l.diagramEdges| && PrefixEdges(p, l.diagramEdges)[k] == e;
    var orig := l.diagramEdges[k];
    assert orig in l.diagramEdges;
    var a :| a in l.diagramNodes && a.id == orig.from;
    var b :| b in l.diagramNodes && b.id == orig.to;
    PrefixedIdPresent(p, l.diagramNodes, a);
    PrefixedIdPresent(p, l.diagramNodes, b);
  }

  // ---------------------------------------------------------------------------
  // The edge stage
  // ---------------------------------------------------------------------------

  /** After the first `i` edge layers: no backend node, edges and terminals name added nodes. */
  lemma {:induction false} EdgeStageFacts(edge: seq<Layer>, i: nat)
    requires i <= |edge|
    requires forall l :: l in edge ==> DiagramWellFormed(l)
    ensures forall n :: n in EdgeNodes(edge, i) ==> n.kind != Backend && n.id != "backend"
    ensures forall e :: e in EdgeEdges(edge, i) ==>
              e.from in NodeIds(EdgeNodes(edge, i)) && e.to in NodeIds(EdgeNodes(edge, i))
    ensures forall x :: x in EdgeTerminals(edge, i) ==> x in NodeIds(EdgeNodes(edge, i))
  {
    if i > 0 {
      EdgeStageFacts(edge, i - 1);
      var p := EdgePrefix(|edge|, i - 1);
      var l := edge[i - 1];
      assert l in edge;
      var before := EdgeNodes(edge, i - 1);
      var added := PrefixNodes(p, l.diagramNodes);
      assert EdgeNodes(edge, i) == before + added;
      assert NodeIds(before + added) == NodeIds(before) + NodeIds(added);
      forall n | n in added ensures n.kind != Backend && n.id != "backend" {
        PrefixNodesMember(p, l.diagramNodes, n);
        var m :| m in l.diagramNodes && n == PrefixNode(p, m);
        PrefixedNotBackend(|edge|, i - 1, m.id);
      }
      forall e | e in PrefixEdges(p, l.diagramEdges)
        ensures e.from in NodeIds(added) && e.to in NodeIds(added)
      {
        PrefixEdgesLocal(p, l, e);
      }
      if |l.diagramNodes| > 0 {
        PrefixedIdPresent(p, l.diagramNodes, Last(l.diagramNodes));
      }
    }
  }

  /** Each edge layer with nodes contributes its (prefixed) last node to the terminals. */
  lemma {:induction false} EdgeTerminalPresent(edge: seq<Layer>, i: nat, j: nat)
    requires j < i <= |edge|
    requires |edge[j].diagramNodes| > 0
    ensures Prefixed(EdgePrefix(|edge|, j), Last(edge[j].diagramNodes).id) in EdgeTerminals(edge, i)
  {
    if j < i - 1 {
      EdgeTerminalPresent(edge, i - 1, j);
    }
  }

  /** Each node of each edge layer is tried, under the layer's prefix. */
  lemma {:induction false} EdgeNodePresent(edge: seq<Layer>, i: nat, j: nat, m: DiagramNode)
    requires j < i <= |edge|
    requires m in edge[j].diagramNodes
    ensures Prefixed(EdgePrefix(|edge|, j), m.id) in NodeIds(EdgeNodes(edge, i))
  {
    var before := EdgeNodes(edge, i - 1);
    var added := PrefixNodes(EdgePrefix(|edge|, i - 1), edge[i - 1].diagramNodes);
    assert NodeIds(before + added) == NodeIds(before) + NodeIds(added);
    if j < i - 1 {
      EdgeNodePresent(edge, i - 1, j, m);
    } else {
      PrefixedIdPresent(EdgePrefix(|edge|, j), edge[j].diagramNodes, m);
    }
  }

  // ---------------------------------------------------------------------------
  // The processing stage
  // ---------------------------------------------------------------------------

  /** After the first `i` active processing layers, starting from terminals in `ids`: no backend node,
      and edges and terminals only name `ids` or nodes of those layers. */
  lemma {:induction false} ProcStageFacts(prev0: seq<string>, active: seq<Layer>, i: nat, ids: set<string>)
    requires i <= |active|
    requires forall l :: l in active ==> DiagramWellFormed(l)
    requires forall x :: x in prev0 ==> x in ids
    ensures forall n :: n in ProcNodes(active, i) ==> n.kind != Backend && n.id != "backend"
    ensures forall e :: e in ProcEdges(prev0, active, i) ==>
              e.from in ids + NodeIds(ProcNodes(active, i)) && e.to in ids + NodeIds(ProcNodes(active, i))
    ensures forall x :: x in ProcTerminals(prev0, active, i) ==> x in ids + NodeIds(ProcNodes(active, i))
  {
    if i > 0 {
      ProcStageFacts(prev0, active, i - 1, ids);
      var l := active[i - 1];
      assert l in active;
      var before := ProcNodes(active, i - 1);
      assert NodeIds(before + l.diagramNodes) == NodeIds(before) + NodeIdsOf(l);
      var prev := ProcTerminals(prev0, active, i - 1);
      forall e | e in LayerLinkEdges(prev, l)
        ensures e.from in ids + NodeIds(ProcNodes(active, i)) && e.to in ids + NodeIds(ProcNodes(active, i))
      {
        if e !in l.diagramEdges {
          assert l.diagramNodes[0] in l.diagramNodes;
          var k :| 0 <= k < |prev| && e == DiagramEdge(prev[k], l.diagramNodes[0].id, None);
          assert prev[k] in prev;
        }
      }
      if |l.diagramNodes| > 0 {
        assert Last(l.diagramNodes) in l.diagramNodes;
      }
    }
  }

  // ---------------------------------------------------------------------------
  // Graph-level facts
  // ---------------------------------------------------------------------------

  /** The ids of the nodes present before the processing stage. */
  function BaseIds(edge: seq<Layer>, buffering: Layer): set<string>
  {
    NodeIds(EdgeNodes(edge, |edge|)) + (if IsKafka(buffering) then NodeIdsOf(buffering) else {})
  }

  /** A fan-in edge starts at one of the sources and ends at the target. */
  lemma LinksEnds(froms: seq<string>, to: string, caption: Option<string>)
    ensures forall e :: e in Links(froms, to, caption) ==> e.from in froms && e.to == to
  {
    forall e | e in Links(froms, to, caption) ensures e.from in froms && e.to == to {
      var k :| 0 <= k < |froms| && e == Links(froms, to, caption)[k];
      assert froms[k] in froms;
    }
  }

  /** The ids tried by the builder: the edge-stage and Kafka ids, the processing ids, and `backend`. */
  lemma CandidateIds(edge: seq<Layer>, processing: seq<Layer>, buffering: Layer)
    ensures var active := ActiveProcessing(processing);
            NodeIds(Candidates(edge, processing, buffering))
            == BaseIds(edge, buffering) + NodeIds(ProcNodes(active, |active|)) + {"backend"}
  {
    var active := ActiveProcessing(processing);
    var edgeNodes := EdgeNodes(edge, |edge|);
    var kafkaNodes := if IsKafka(buffering) then buffering.diagramNodes else [];
    var procNodes := ProcNodes(active, |active|);
    NodeIdsAppend(edgeNodes, kafkaNodes);
    NodeIdsAppend(edgeNodes + kafkaNodes, procNodes);
    NodeIdsAppend(edgeNodes + kafkaNodes + procNodes, [BackendNode]);
    assert NodeIds([BackendNode]) == {"backend"};
  }

  /** Every edge of the combined diagram goes from a node of the diagram to a node of the diagram. */
  lemma EdgesClosed(edge: seq<Layer>, processing: seq<Layer>, buffering: Layer)
    requires WellFormedInputs(edge, processing, buffering)
    ensures var d := CombinedDiagram(edge, processing, buffering);
            forall e :: e in d.edges ==> e.from in NodeIds(d.nodes) && e.to in NodeIds(d.nodes)
  {
    var d := CombinedDiagram(edge, processing, buffering);
    var active := ActiveProcessing(processing);
    var prev := AfterBuffering(edge, buffering);
    var base := BaseIds(edge, buffering);
    CombinedNodeIds(edge, processing, buffering);
    CandidateIds(edge, processing, buffering);
    EdgeStageFacts(edge, |edge|);
    forall l | l in active ensures DiagramWellFormed(l) {
    }
    ProcStageFacts(prev, active, |active|, base);
    var ids := NodeIds(d.nodes);
    assert ids == base + NodeIds(ProcNodes(active, |active|)) + {"backend"};
    var edgeEdges := EdgeEdges(edge, |edge|);
    var kafkaEdges := if IsKafka(buffering) then Links(EdgeTerminals(edge, |edge|), "kafka", None) else [];
    var procEdges := ProcEdges(prev, active, |active|);
    var backendEdges := Links(ProcTerminals(prev, active, |active|), BackendNode.id, Some("OTLP"));
    assert d.edges == edgeEdges + kafkaEdges + procEdges + backendEdges;
    forall e | e in edgeEdges ensures e.from in ids && e.to in ids {
    }
    LinksEnds(EdgeTerminals(edge, |edge|), "kafka", None);
    forall e | e in kafkaEdges ensures e.from in ids && e.to in ids {
    }
    forall e | e in procEdges ensures e.from in ids && e.to in ids {
    }
    LinksEnds(ProcTerminals(prev, active, |active|), BackendNode.id, Some("OTLP"));
    forall e | e in backendEdges ensures e.from in ids && e.to in ids {
    }
  }

  /** Exactly one node of the combined diagram has type `backend`. */
  lemma ExactlyOneBackend(edge: seq<Layer>, processing: seq<Layer>, buffering: Layer)
    requires WellFormedInputs(edge, processing, buffering)
    ensures var ns := CombinedDiagram(edge, processing, buffering).nodes;
            exists i :: 0 <= i < |ns| && ns[i].kind == Backend
                        && forall j :: 0 <= j < |ns| && ns[j].kind == Backend ==> j == i
  {
    var ns := CombinedDiagram(edge, processing, buffering).nodes;
    var active := ActiveProcessing(processing);
    var cands := Candidates(edge, processing, buffering);
    var kafkaNodes := if IsKafka(buffering) then buffering.diagramNodes else [];
    AddNodesFacts([], cands);
    EdgeStageFacts(edge, |edge|);
    forall l | l in active ensures DiagramWellFormed(l) {
    }
    ProcStageFacts([], active, |active|, {});
    assert cands == EdgeNodes(edge, |edge|) + kafkaNodes + ProcNodes(active, |active|) + [BackendNode];
    // The backend node is the only candidate of its kind and the only one with its id.
    forall n | n in cands && (n.kind == Backend || n.id == "backend") ensures n == BackendNode {
    }
    assert BackendNode in cands;
    assert "backend" in NodeIds(ns);
    var b :| b in ns && b.id == "backend";
    var i :| 0 <= i < |ns| && ns[i] == b;
    forall j | 0 <= j < |ns| && ns[j].kind == Backend ensures j == i {
      assert ns[j] in ns;
    }
  }

  /** Edge-layer node ids carry the `edge{idx}-` prefix exactly when there are several edge layers. */
  lemma EdgeIdsPrefixed(edge: seq<Layer>, processing: seq<Layer>, buffering: Layer, idx: nat, m: DiagramNode)
    requires idx < |edge| && m in edge[idx].diagramNodes
    ensures var ids := NodeIds(CombinedDiagram(edge, processing, buffering).nodes);
            (|edge| > 1 ==> "edge" + NatToString(idx) + "-" + m.id in ids)
            && (|edge| <= 1 ==> m.id in ids)
  {
    var x := Prefixed(EdgePrefix(|edge|, idx), m.id);
    EdgeNodePresent(edge, |edge|, idx, m);
    CombinedNodeIds(edge, processing, buffering);
    CandidateIds(edge, processing, buffering);
    assert x in NodeIds(CombinedDiagram(edge, processing, buffering).nodes);
    if |edge| > 1 {
      assert x == "edge" + NatToString(idx) + "-" + m.id;
    } else {
      assert x == m.id;
    }
  }

  // ---------------------------------------------------------------------------
  // Reachability
  // ---------------------------------------------------------------------------

  /** `p` is a walk along `es`: consecutive ids are joined by an edge. */
  ghost predicate IsPath(es: seq<DiagramEdge>, p: seq<string>)
  {
    |p| >= 1 && forall k :: 0 <= k < |p| - 1 ==> HasEdge(es, p[k], p[k + 1])
  }

  /** There is a directed path from `a` to `b` along `es`. */
  ghost predicate Reaches(es: seq<DiagramEdge>, a: string, b: string)
  {
    exists p :: IsPath(es, p) && p[0] == a && Last(p) == b
  }

  lemma ReachesStep(es: seq<DiagramEdge>, a: string, b: string, c: string)
    requires HasEdge(es, a, b) && Reaches(es, b, c)
    ensures Reaches(es, a, c)
  {
    var p :| IsPath(es, p) && p[0] == b && Last(p) == c;
    var q := [a] + p;
    assert forall k :: 1 <= k < |q| ==> q[k] == p[k - 1];
    assert IsPath(es, q);
  }

  lemma ReachesTrans(es: seq<DiagramEdge>, a: string, b: string, c: string)
    requires Reaches(es, a, b) && Reaches(es, b, c)
    ensures Reaches(es, a, c)
  {
    var p :| IsPath(es, p) && p[0] == a && Last(p) == b;
    var q :| IsPath(es, q) && q[0] == b && Last(q) == c;
    var r := p + q[1..];
    forall k | 0 <= k < |r| - 1 ensures HasEdge(es, r[k], r[k + 1]) {
      if k < |p| - 1 {
        assert r[k] == p[k] && r[k + 1] == p[k + 1];
      } else {
        assert r[k] == q[k - |p| + 1] && r[k + 1] == q[k - |p| + 2];
      }
    }
    assert IsPath(es, r);
  }

  /** A layer's first node reaches its last node along its own internal edges, wherever they are copied. */
  lemma ChainReaches(l: Layer, es: seq<DiagramEdge>)
    requires NodesChained(l) && |l.diagramNodes| > 0
    requires forall e :: e in l.diagramEdges ==> e in es
    ensures Reaches(es, l.diagramNodes[0].id, Last(l.diagramNodes).id)
  {
    var ns := l.diagramNodes;
    var p := seq(|ns|, k requires 0 <= k < |ns| => ns[k].id);
    forall k | 0 <= k < |p| - 1 ensures HasEdge(es, p[k], p[k + 1]) {
      assert HasEdge(l.diagramEdges, ns[k].id, ns[k + 1].id);
    }
    assert IsPath(es, p);
  }

  /** Processing edges only grow as more layers are added. */
  lemma {:induction false} ProcEdgesGrow(prev0: seq<string>, active: seq<Layer>, i: nat, j: nat)
    requires i <= j <= |active|
    ensures forall e :: e in ProcEdges(prev0, active, i) ==> e in ProcEdges(prev0, active, j)
    decreases j - i
  {
    if i < j {
      ProcEdgesGrow(prev0, active, i, j - 1);
    }
  }

  /** When every link into `first` is present and `first` reaches the backend, so does every source. */
  lemma LinkedSourcesReach(prev: seq<string>, first: string, es: seq<DiagramEdge>)
    requires forall e :: e in Links(prev, first, None) ==> e in es
    requires Reaches(es, first, "backend")
    ensures forall x :: x in prev ==> Reaches(es, x, "backend")
  {
    forall x | x in prev ensures Reaches(es, x, "backend") {
      var k :| 0 <= k < |prev| && prev[k] == x;
      assert Links(prev, first, None)[k] in es;
      assert HasEdge(es, x, first);
      ReachesStep(es, x, first, "backend");
    }
  }

  /** One processing layer with nodes: if its last node reaches the backend, so does every
      terminal it was linked from. */
  lemma ProcStepReach(prev0: seq<string>, active: seq<Layer>, i: nat, es: seq<DiagramEdge>)
    requires i < |active| && NodesChained(active[i]) && |active[i].diagramNodes| > 0
    requires forall e :: e in ProcEdges(prev0, active, i + 1) ==> e in es
    requires Reaches(es, Last(active[i].diagramNodes).id, "backend")
    ensures forall x :: x in ProcTerminals(prev0, active, i) ==> Reaches(es, x, "backend")
  {
    var l := active[i];
    var prev := ProcTerminals(prev0, active, i);
    var first := l.diagramNodes[0].id;
    var links := Links(prev, first, None);
    assert ProcEdges(prev0, active, i + 1) == ProcEdges(prev0, active, i) + (l.diagramEdges + links);
    assert forall e :: e in l.diagramEdges ==> e in es;
    assert forall e :: e in links ==> e in es;
    ChainReaches(l, es);
    ReachesTrans(es, first, Last(l.diagramNodes).id, "backend");
    LinkedSourcesReach(prev, first, es);
  }

  /** If the final terminals reach the backend, so do the terminals after any number of processing layers. */
  lemma {:induction false} ProcTerminalsReach(prev0: seq<string>, active: seq<Layer>, i: nat, es: seq<DiagramEdge>)
    requires i <= |active|
    requires forall l :: l in active ==> NodesChained(l)
    requires forall e :: e in ProcEdges(prev0, active, |active|) ==> e in es
    requires forall x :: x in ProcTerminals(prev0, active, |active|) ==> Reaches(es, x, "backend")
    ensures forall x :: x in ProcTerminals(prev0, active, i) ==> Reaches(es, x, "backend")
    decreases |active| - i
  {
    if i < |active| {
      ProcTerminalsReach(prev0, active, i + 1, es);
      var l := active[i];
      if |l.diagramNodes| > 0 {
        assert l in active;
        ProcEdgesGrow(prev0, active, i + 1, |active|);
        assert ProcTerminals(prev0, active, i + 1) == [Last(l.diagramNodes).id];
        ProcStepReach(prev0, active, i, es);
      } else {
        assert ProcTerminals(prev0, active, i + 1) == ProcTerminals(prev0, active, i);
      }
    }
  }

  /** The last node of every edge layer has a directed path to the backend. */
  lemma EdgeLayersReachBackend(edge: seq<Layer>, processing: seq<Layer>, buffering: Layer, j: nat)
    requires WellFormedInputs(edge, processing, buffering)
    requires j < |edge| && |edge[j].diagramNodes| > 0
    ensures Reaches(CombinedDiagram(edge, processing, buffering).edges,
                    Prefixed(EdgePrefix(|edge|, j), Last(edge[j].diagramNodes).id), BackendNode.id)
  {
    var es := CombinedDiagram(edge, processing, buffering).edges;
    var active := ActiveProcessing(processing);
    var terminals := EdgeTerminals(edge, |edge|);
    var prev := AfterBuffering(edge, buffering);
    var kafkaEdges := if IsKafka(buffering) then Links(terminals, "kafka", None) else [];
    var finals := ProcTerminals(prev, active, |active|);
    var backendEdges := Links(finals, BackendNode.id, Some("OTLP"));
    assert es == EdgeEdges(edge, |edge|) + kafkaEdges + ProcEdges(prev, active, |active|) + backendEdges;
    // The last terminals feed the backend directly.
    forall x | x in finals ensures Reaches(es, x, "backend") {
      var k :| 0 <= k < |finals| && finals[k] == x;
      assert backendEdges[k] in es;
      var p := [x, "backend"];
      assert HasEdge(es, p[0], p[1]);
      assert IsPath(es, p);
    }
    forall l | l in active ensures NodesChained(l) {
    }
    ProcTerminalsReach(prev, active, 0, es);
    var t := Prefixed(EdgePrefix(|edge|, j), Last(edge[j].diagramNodes).id);
    EdgeTerminalPresent(edge, |edge|, j);
    if IsKafka(buffering) {
      assert "kafka" in ProcTerminals(prev, active, 0);
      var k :| 0 <= k < |terminals| && terminals[k] == t;
      assert kafkaEdges[k] in es;
      assert HasEdge(es, t, "kafka");
      ReachesStep(es, t, "kafka", "backend");
    }
  }
}
