/**
 * The layer catalog: the static, read-only registry of pipeline building blocks
 * (edge collection, central processing, buffering) and the lookups over it.
 *
 * The configuration fragments of each layer are opaque text to the engine; each is
 * represented here by its first (comment) line, which is enough to tell which
 * fragments a layer supplies and in which order the merge emits them.
 */
module Layers {
  import opened Options

  datatype LayerType = EdgeType | ProcessingType | BufferingType

  /** The semantic tag of a diagram node (`'app' | 'agent' | ... | 'sidecar'`). */
  datatype NodeType = App | Agent | Gateway | LoadBalancer | Kafka | Backend | Sidecar

  /** The tag as the source spells it. */
  function NodeTypeName(t: NodeType): string
  {
    match t
    case App => "app"
    case Agent => "agent"
    case Gateway => "gateway"
    case LoadBalancer => "loadbalancer"
    case Kafka => "kafka"
    case Backend => "backend"
    case Sidecar => "sidecar"
  }

  datatype DiagramNode = DiagramNode(id: string, kind: NodeType, caption: string)

  datatype DiagramEdge = DiagramEdge(from: string, to: string, caption: Option<string>)

  /** Up to three named text blocks; an absent block is `None`. */
  datatype ConfigSnippets = ConfigSnippets(agent: Option<string>, gateway: Option<string>, kubernetes: Option<string>)

  /** Display-only sizing hint. */
  datatype Resources = Resources(cpu: string, memory: string, replicas: Option<nat>)

  datatype Layer = Layer(
    id: string,
    kind: LayerType,
    name: string,
    requiredTags: seq<string>,
    providedTags: seq<string>,
    incompatibleWith: seq<string>,
    diagramNodes: seq<DiagramNode>,
    diagramEdges: seq<DiagramEdge>,
    configSnippets: ConfigSnippets,
    resources: Option<Resources>)

  // ---------------------------------------------------------------------------
  // Edge layers: how telemetry enters the pipeline
  // ---------------------------------------------------------------------------

  const DirectSdk := Layer(
    "direct-sdk", EdgeType, "Direct SDK Export",
    [], [], [],
    [DiagramNode("app", App, "Application\n+ OTel SDK")],
    [],
    ConfigSnippets(Some("# SDK Configuration (environment variables)"), None, None),
    None)

  const DaemonsetAgent := Layer(
    "daemonset-agent", EdgeType, "DaemonSet Agent",
    ["kubernetes", "daemonset-capable"],
    ["host-metrics", "resource-detection", "k8s-metadata", "log-collection"],
    ["managed-containers"],
    [DiagramNode("app", App, "Application"), DiagramNode("daemonset", Agent, "DaemonSet\nAgent")],
    [DiagramEdge("app", "daemonset", Some("localhost"))],
    ConfigSnippets(Some("# DaemonSet Agent Configuration"), None, Some("# DaemonSet for Agent Collector")),
    Some(Resources("250m-500m", "256Mi-512Mi", None)))

  const SidecarAgent := Layer(
    "sidecar-agent", EdgeType, "Sidecar Agent",
    ["kubernetes"],
    ["per-service-isolation", "custom-per-service-config"],
    [],
    [DiagramNode("app", App, "Application"), DiagramNode("sidecar", Sidecar, "Sidecar\nAgent")],
    [DiagramEdge("app", "sidecar", Some("localhost"))],
    ConfigSnippets(Some("# Sidecar Agent Configuration"), None, Some("# Sidecar injection via OpenTelemetry Operator")),
    Some(Resources("50m-100m", "64Mi-128Mi", None)))

  const HostAgent := Layer(
    "host-agent", EdgeType, "Host Agent",
    [],
    ["host-metrics", "resource-detection", "log-collection"],
    [],
    [DiagramNode("app", App, "Application"), DiagramNode("host-agent", Agent, "Host\nAgent")],
    [DiagramEdge("app", "host-agent", Some("localhost"))],
    ConfigSnippets(Some("# Host Agent Configuration (systemd / standalone)"), None,
                   Some("# Install via package manager or download binary")),
    Some(Resources("250m-500m", "256Mi-512Mi", None)))

  const edgeLayers: seq<Layer> := [DirectSdk, DaemonsetAgent, SidecarAgent, HostAgent]

  // ---------------------------------------------------------------------------
  // Processing layers: central processing, routing and sampling
  // ---------------------------------------------------------------------------

  /** The sentinel that stands for "no central processing". */
  const NoneLayer := Layer(
    "none", ProcessingType, "No Central Processing",
    [], [],
    ["tail-sampling", "multi-backend", "central-policy"],
    [], [],
    ConfigSnippets(None, None, None),
    None)

  const GatewayPool := Layer(
    "gateway-pool", ProcessingType, "Gateway Pool",
    [],
    ["central-policy", "multi-backend", "credential-isolation", "pii-filtering"],
    [],
    [DiagramNode("lb", LoadBalancer, "Load\nBalancer"), DiagramNode("gateway", Gateway, "Gateway\nPool")],
    [DiagramEdge("lb", "gateway", None)],
    ConfigSnippets(None, Some("# Gateway Pool Configuration"), Some("# Gateway Deployment with HPA")),
    Some(Resources("1-2 cores", "2Gi-4Gi", None)))

  const SamplingTier := Layer(
    "sampling-tier", ProcessingType, "Tail Sampling Tier",
    ["gateway-pool"],
    ["tail-sampling", "span-metrics", "service-graph"],
    [],
    [DiagramNode("lb-exporter", LoadBalancer, "LB\nExporter"), DiagramNode("sampling", Gateway, "Sampling\nTier")],
    [DiagramEdge("lb-exporter", "sampling", Some("traceID\nhash"))],
    ConfigSnippets(Some("# Add to agent config - Load Balancing Exporter"), Some("# Sampling Tier Configuration"),
                   Some("# StatefulSet for Sampling Tier")),
    Some(Resources("2-4 cores", "4Gi-8Gi", Some(3))))

  const processingLayers: seq<Layer> := [NoneLayer, GatewayPool, SamplingTier]

  // ---------------------------------------------------------------------------
  // Buffering layers: resilience and data durability
  // ---------------------------------------------------------------------------

  const MemoryQueue := Layer(
    "memory-queue", BufferingType, "In-Memory Queues",
    [], ["basic-retry", "backpressure"], [],
    [], [],
    ConfigSnippets(Some("# In-memory queue configuration (default)"), None, None),
    None)

  const PersistentQueue := Layer(
    "persistent-queue", BufferingType, "Persistent Queues",
    [], ["crash-recovery", "restart-resilience"], [],
    [], [],
    ConfigSnippets(Some("# Persistent queue configuration"), None, Some("# StatefulSet with PVC for persistent queue")),
    None)

  const KafkaBuffer := Layer(
    "kafka-buffer", BufferingType, "Kafka Buffer",
    ["kafka-cluster"],
    ["extended-outage-survival", "replay", "multi-consumer", "decoupling"],
    [],
    [DiagramNode("kafka", Kafka, "Kafka")],
    [],
    ConfigSnippets(Some("# Kafka exporter configuration (agent side)"), Some("# Kafka receiver configuration (gateway side)"),
                   Some("# Note: Kafka cluster deployment is separate")),
    None)

  const bufferingLayers: seq<Layer> := [MemoryQueue, PersistentQueue, KafkaBuffer]

  // ---------------------------------------------------------------------------
  // Lookups
  // ---------------------------------------------------------------------------

  /** `findIndex` on ids: the first position holding `id`, or `|ls|` when there is none. */
  function IndexOfId(ls: seq<Layer>, id: string): (k: nat)
    ensures k <= |ls|
    ensures k < |ls| ==> ls[k].id == id
    ensures forall j :: 0 <= j < k ==> ls[j].id != id
  {
    if ls == [] then 0
    else if ls[0].id == id then 0
    else 1 + IndexOfId(ls[1..], id)
  }

  /** All layers, in the order edge, processing, buffering. */
  function GetAllLayers(): (all: seq<Layer>)
    ensures |all| == |edgeLayers| + |processingLayers| + |bufferingLayers|
  {
    edgeLayers + processingLayers + bufferingLayers
  }

  /** The catalog is the three type groups, edge first, then processing, then buffering. */
  lemma AllLayersGrouped()
    ensures GetAllLayers() == GetLayersByType(EdgeType) + GetLayersByType(ProcessingType) + GetLayersByType(BufferingType)
  {
  }

  /** The first layer with this id across the three groups, or `None`. */
  function GetLayer(id: string): (r: Option<Layer>)
    ensures r.None? <==> forall k :: 0 <= k < |GetAllLayers()| ==> GetAllLayers()[k].id != id
    ensures r.Some? ==> r.value.id == id
  {
    var all := GetAllLayers();
    var k := IndexOfId(all, id);
    if k < |all| then Some(all[k]) else None
  }

  /** A found layer is the first one in catalog order that carries the id. */
  lemma GetLayerFirstMatch(id: string)
    requires GetLayer(id).Some?
    ensures exists k :: 0 <= k < |GetAllLayers()| && GetAllLayers()[k] == GetLayer(id).value
                        && forall j :: 0 <= j < k ==> GetAllLayers()[j].id != id
  {
    var k := IndexOfId(GetAllLayers(), id);
    assert GetAllLayers()[k] == GetLayer(id).value;
  }

  /** The declared group for a layer type, in declaration order. */
  function GetLayersByType(t: LayerType): (group: seq<Layer>)
    ensures forall k :: 0 <= k < |group| ==> group[k].kind == t
  {
    match t
    case EdgeType => edgeLayers
    case ProcessingType => processingLayers
    case BufferingType => bufferingLayers
  }

  /** A group holds every catalog layer of its type. */
  lemma GroupsComplete(t: LayerType, l: Layer)
    requires l in GetAllLayers() && l.kind == t
    ensures l in GetLayersByType(t)
  {
  }

  /** Whether any of `incompatible` occurs in `constraints` (`some` over `includes`). */
  function AnyIncluded(incompatible: seq<string>, constraints: seq<string>): (b: bool)
    ensures b <==> exists k :: 0 <= k < |incompatible| && incompatible[k] in constraints
  {
    if incompatible == [] then false
    else incompatible[0] in constraints || AnyIncluded(incompatible[1..], constraints)
  }

  /** A layer is compatible with a constraint list when none of its incompatibilities is listed. */
  function IsLayerCompatible(layer: Layer, constraints: seq<string>): (ok: bool)
    ensures ok <==> forall x :: x in layer.incompatibleWith ==> x !in constraints
    ensures constraints == [] ==> ok
  {
    !AnyIncluded(layer.incompatibleWith, constraints)
  }

  /** The capabilities a layer needs from elsewhere, unchanged. */
  function GetLayerRequirements(layer: Layer): seq<string>
  {
    layer.requiredTags
  }

  /** The capabilities a layer grants, unchanged. */
  function GetLayerCapabilities(layer: Layer): seq<string>
  {
    layer.providedTags
  }

  /** The processing layers with the `none` sentinel filtered out (`filter(p => p.id !== 'none')`). */
  function ActiveProcessing(processing: seq<Layer>): (active: seq<Layer>)
    ensures forall l :: l in active <==> l in processing && l.id != "none"
    ensures |active| <= |processing|
  {
    if processing == [] then []
    else
      var last := processing[|processing| - 1];
      ActiveProcessing(processing[..|processing| - 1]) + (if last.id != "none" then [last] else [])
  }

  /** The filter keeps a single layer exactly when it is not the `none` sentinel. */
  lemma ActiveProcessingOne(l: Layer)
    ensures ActiveProcessing([l]) == if l.id != "none" then [l] else []
  {
    assert [l][..0] == [];
  }

  /** The filter distributes over concatenation, so it keeps the order and the multiplicity of
      the layers it keeps. */
  lemma {:induction false} ActiveProcessingAppend(a: seq<Layer>, b: seq<Layer>)
    ensures ActiveProcessing(a + b) == ActiveProcessing(a) + ActiveProcessing(b)
    decreases |b|
  {
    if b == [] {
      assert a + b == a;
    } else {
      var b' := b[..|b| - 1];
      assert (a + b)[..|a + b| - 1] == a + b';
      assert (a + b)[|a + b| - 1] == b[|b| - 1];
      ActiveProcessingAppend(a, b');
    }
  }

  // ---------------------------------------------------------------------------
  // Well-formedness of the catalog
  // ---------------------------------------------------------------------------

  function NodeIdsOf(l: Layer): set<string>
  {
    set n | n in l.diagramNodes :: n.id
  }

  /** Some edge of `es` goes from `a` to `b`. */
  ghost predicate HasEdge(es: seq<DiagramEdge>, a: string, b: string)
  {
    exists e :: e in es && e.from == a && e.to == b
  }

  /** Every internal edge of the layer joins two of its own nodes. */
  ghost predicate EdgesLocal(l: Layer)
  {
    forall e :: e in l.diagramEdges ==> e.from in NodeIdsOf(l) && e.to in NodeIdsOf(l)
  }

  /** Consecutive nodes of the layer are joined by an internal edge, so its first node reaches its last. */
  ghost predicate NodesChained(l: Layer)
  {
    forall k :: 0 <= k < |l.diagramNodes| - 1 ==>
      HasEdge(l.diagramEdges, l.diagramNodes[k].id, l.diagramNodes[k + 1].id)
  }

  /** No node of the layer is, or is named, the backend the composer appends. */
  ghost predicate NoBackendNode(l: Layer)
  {
    forall n :: n in l.diagramNodes ==> n.kind != Backend && n.id != "backend"
  }

  /** Layer ids are unique across all three groups, so `GetLayer` is unambiguous. */
  lemma CatalogIdsUnique()
    ensures forall i, j :: 0 <= i < j < |GetAllLayers()| ==> GetAllLayers()[i].id != GetAllLayers()[j].id
  {
    var all := GetAllLayers();
    assert all == [DirectSdk, DaemonsetAgent, SidecarAgent, HostAgent, NoneLayer, GatewayPool, SamplingTier,
                   MemoryQueue, PersistentQueue, KafkaBuffer];
  }

  /** With unique ids, `GetLayer` finds exactly the catalog layer that carries the id. */
  lemma GetLayerExact(id: string, l: Layer)
    requires l in GetAllLayers()
    ensures GetLayer(id) == Some(l) <==> l.id == id
  {
    CatalogIdsUnique();
    var all := GetAllLayers();
    var i :| 0 <= i < |all| && all[i] == l;
    if l.id == id {
      var k := IndexOfId(all, id);
      assert k == i;
    }
  }

  /** Every id the composer dereferences resolves, to the layer of that name. */
  lemma ComposerIdsResolve()
    ensures GetLayer("direct-sdk") == Some(DirectSdk)
    ensures GetLayer("daemonset-agent") == Some(DaemonsetAgent)
    ensures GetLayer("sidecar-agent") == Some(SidecarAgent)
    ensures GetLayer("host-agent") == Some(HostAgent)
    ensures GetLayer("none") == Some(NoneLayer)
    ensures GetLayer("gateway-pool") == Some(GatewayPool)
    ensures GetLayer("sampling-tier") == Some(SamplingTier)
    ensures GetLayer("memory-queue") == Some(MemoryQueue)
    ensures GetLayer("persistent-queue") == Some(PersistentQueue)
    ensures GetLayer("kafka-buffer") == Some(KafkaBuffer)
  {
    var all := GetAllLayers();
    assert all == [DirectSdk, DaemonsetAgent, SidecarAgent, HostAgent, NoneLayer, GatewayPool, SamplingTier,
                   MemoryQueue, PersistentQueue, KafkaBuffer];
    forall l | l in all ensures GetLayer(l.id) == Some(l) {
      GetLayerExact(l.id, l);
    }
  }

  /** The diagram fragment of a layer is self-contained, chained and free of backend nodes. */
  ghost predicate DiagramWellFormed(l: Layer)
  {
    EdgesLocal(l) && NodesChained(l) && NoBackendNode(l)
  }

  /** A layer with two nodes joined by its single internal edge is well formed. */
  lemma TwoNodeLayerWellFormed(l: Layer)
    requires |l.diagramNodes| == 2 && |l.diagramEdges| == 1
    requires l.diagramEdges[0].from == l.diagramNodes[0].id && l.diagramEdges[0].to == l.diagramNodes[1].id
    requires l.diagramNodes[0].kind != Backend && l.diagramNodes[0].id != "backend"
    requires l.diagramNodes[1].kind != Backend && l.diagramNodes[1].id != "backend"
    ensures DiagramWellFormed(l)
  {
    assert l.diagramEdges[0] in l.diagramEdges;
    assert l.diagramNodes[0] in l.diagramNodes && l.diagramNodes[1] in l.diagramNodes;
  }

  /** Every catalog layer's internal edges only name its own nodes, its nodes form a chain,
      and none of them is a backend node. */
  lemma CatalogDiagramWellFormed(l: Layer)
    requires l in GetAllLayers()
    ensures DiagramWellFormed(l)
  {
    assert l in edgeLayers || l in processingLayers || l in bufferingLayers;
    if l == DaemonsetAgent || l == SidecarAgent || l == HostAgent || l == GatewayPool || l == SamplingTier {
      TwoNodeLayerWellFormed(l);
    } else {
      SmallLayersWellFormed();
    }
  }

  lemma SmallLayersWellFormed()
    ensures DiagramWellFormed(DirectSdk) && DiagramWellFormed(KafkaBuffer)
    ensures DiagramWellFormed(NoneLayer) && DiagramWellFormed(MemoryQueue) && DiagramWellFormed(PersistentQueue)
  {
  }
}
