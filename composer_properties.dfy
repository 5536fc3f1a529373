/**
 * Properties of whole compositions: the diagram of every composed architecture is a
 * well-formed graph, the loss policy only ever raises the complexity rating, the warnings
 * of the composition are those of its stages, and a few concrete requirement records
 * compose to the architectures the rule tables promise.
 */
module ComposerProperties {
  import opened Options
  import opened Layers
  import opened ComposerDiagram
  import opened ComposerGraph
  import opened Composer

  /** The loss policies from most to least tolerant. */
  function PolicyRank(p: DataLossPolicy): nat
  {
    match p
    case Acceptable => 0
    case Minimize => 1
    case Zero => 2
  }

  /** Every layer a composition selects is a catalog layer. */
  lemma SelectionsFromCatalog(r: Requirements)
    ensures forall l :: l in SelectEdgeLayers(r) ==> l in GetAllLayers()
    ensures forall l :: l in SelectProcessingLayers(r) ==> l in GetAllLayers()
    ensures SelectBufferingLayer(r) in GetAllLayers()
  {
    var all := GetAllLayers();
    assert all == edgeLayers + processingLayers + bufferingLayers;
    forall l | l in edgeLayers ensures l in all {
    }
    forall l | l in processingLayers ensures l in all {
    }
    assert SelectBufferingLayer(r) in bufferingLayers;
  }

  /** The layers a composition selects satisfy what the diagram lemmas need. */
  lemma SelectionsWellFormed(r: Requirements)
    ensures WellFormedInputs(SelectEdgeLayers(r), SelectProcessingLayers(r), SelectBufferingLayer(r))
  {
    SelectionsFromCatalog(r);
    CatalogInputsWellFormed(SelectEdgeLayers(r), SelectProcessingLayers(r), SelectBufferingLayer(r));
  }

  /** In the diagram of any composition, node ids are distinct and exactly one node is the backend. */
  lemma ComposedNodes(r: Requirements)
    ensures DistinctIds(DiagramOf(r).nodes)
    ensures var ns := DiagramOf(r).nodes;
            exists i :: 0 <= i < |ns| && ns[i].kind == Backend
                        && forall j :: 0 <= j < |ns| && ns[j].kind == Backend ==> j == i
  {
    SelectionsWellFormed(r);
    CombinedNodeIds(SelectEdgeLayers(r), SelectProcessingLayers(r), SelectBufferingLayer(r));
    ExactlyOneBackend(SelectEdgeLayers(r), SelectProcessingLayers(r), SelectBufferingLayer(r));
  }

  /** In the diagram of any composition, every edge joins two of its nodes. */
  lemma ComposedEdgesClosed(r: Requirements)
    ensures var d := DiagramOf(r);
            forall e :: e in d.edges ==> e.from in NodeIds(d.nodes) && e.to in NodeIds(d.nodes)
  {
    SelectionsWellFormed(r);
    EdgesClosed(SelectEdgeLayers(r), SelectProcessingLayers(r), SelectBufferingLayer(r));
  }

  /** In the diagram of any composition, the last node of every edge layer has a path to the backend. */
  lemma ComposedEdgeLayersReachBackend(r: Requirements, j: nat)
    requires j < |SelectEdgeLayers(r)|
    ensures var edge := SelectEdgeLayers(r);
            |edge[j].diagramNodes| > 0
            && Reaches(DiagramOf(r).edges, Prefixed(EdgePrefix(|edge|, j), Last(edge[j].diagramNodes).id), "backend")
  {
    var edge := SelectEdgeLayers(r);
    SelectionsWellFormed(r);
    assert edge[j] in edgeLayers;
    assert |edge[j].diagramNodes| > 0;
    EdgeLayersReachBackend(edge, SelectProcessingLayers(r), SelectBufferingLayer(r), j);
  }

  /** What the complexity table reads off a composition's layers: the gateway and the sampling
      tier are present exactly when their rules fire, and the buffer's id follows the loss policy. */
  lemma ComplexityInputs(r: Requirements)
    ensures HasLayerId(SelectProcessingLayers(r), "gateway-pool") == NeedsGateway(r)
    ensures HasLayerId(SelectProcessingLayers(r), "sampling-tier") == r.needsTailSampling
    ensures (SelectBufferingLayer(r).id == "kafka-buffer") == (r.dataLossPolicy == Zero)
    ensures (SelectBufferingLayer(r).id == "persistent-queue") == (r.dataLossPolicy == Minimize)
  {
    assert NoneLayer.id == "none" && GatewayPool.id == "gateway-pool" && SamplingTier.id == "sampling-tier";
    assert MemoryQueue.id == "memory-queue" && PersistentQueue.id == "persistent-queue";
    assert KafkaBuffer.id == "kafka-buffer";
  }

  /** The complexity table only goes up when a gateway is added or the buffer is made more
      durable (in-memory, then persistent queue, then Kafka), everything else fixed. */
  lemma ComplexityMonotone(edge: seq<Layer>, processing: seq<Layer>, buffering: Layer,
                           processing': seq<Layer>, buffering': Layer, tier: VolumeTier)
    requires HasLayerId(processing, "sampling-tier") == HasLayerId(processing', "sampling-tier")
    requires HasLayerId(processing, "gateway-pool") ==> HasLayerId(processing', "gateway-pool")
    requires buffering.id == "kafka-buffer" ==> buffering'.id == "kafka-buffer"
    requires buffering.id == "persistent-queue" ==> buffering'.id in {"persistent-queue", "kafka-buffer"}
    ensures Rank(CalculateComplexity(edge, processing, buffering, tier))
            <= Rank(CalculateComplexity(edge, processing', buffering', tier))
  {
  }

  /** A less tolerant loss policy, everything else fixed, never lowers the complexity rating. */
  lemma StricterPolicyNeverLowersComplexity(r: Requirements, p: DataLossPolicy, q: DataLossPolicy)
    requires PolicyRank(p) <= PolicyRank(q)
    ensures Rank(ComplexityOf(r.(dataLossPolicy := p))) <= Rank(ComplexityOf(r.(dataLossPolicy := q)))
  {
    var rp, rq := r.(dataLossPolicy := p), r.(dataLossPolicy := q);
    ComplexityInputs(rp);
    ComplexityInputs(rq);
    assert SelectEdgeLayers(rp) == SelectEdgeLayers(rq);
    assert GetVolumeProfile(rp.dataVolume) == GetVolumeProfile(rq.dataVolume);
    ComplexityMonotone(SelectEdgeLayers(rp), SelectProcessingLayers(rp), SelectBufferingLayer(rp),
                       SelectProcessingLayers(rq), SelectBufferingLayer(rq), GetVolumeProfile(rp.dataVolume).tier);
  }

  /** Each warning of a composition appears exactly under its stage's condition. */
  lemma ComposedWarnings(r: Requirements)
    ensures InfraUnavailableWarning in Warnings(r) <==>
              r.environmentType == Kubernetes && r.serverlessKubernetes && NeedsInfraCollection(r)
    ensures SpanmetricsWarning in Warnings(r) <==> r.needsTailSampling && r.needsMultiBackend
    ensures KafkaWarning in Warnings(r) <==> r.dataLossPolicy == Zero
    ensures |Warnings(r)| <= 3
  {
    assert Warnings(r) == EdgeWarnings(r) + ProcessingWarnings(r) + BufferingWarnings(r);
  }

  // ---------------------------------------------------------------------------
  // Concrete compositions
  // ---------------------------------------------------------------------------

  /** The default record composes to direct export, no processing, in-memory queues, rated Low,
      with nothing to warn about or recommend. */
  lemma DefaultComposition()
    ensures SelectEdgeLayers(DefaultRequirements) == [DirectSdk]
    ensures SelectProcessingLayers(DefaultRequirements) == [NoneLayer]
    ensures SelectBufferingLayer(DefaultRequirements) == MemoryQueue
    ensures !NeedsGateway(DefaultRequirements)
    ensures ComplexityOf(DefaultRequirements) == Low
    ensures Warnings(DefaultRequirements) == [] && Recommendations(DefaultRequirements) == []
  {
  }

  /** Infrastructure metrics on regular Kubernetes bring a DaemonSet agent and nothing else. */
  lemma InfraMetricsComposition()
    ensures var r := DefaultRequirements.(needsInfraMetrics := true);
            && SelectEdgeLayers(r) == [DaemonsetAgent]
            && SelectProcessingLayers(r) == [NoneLayer]
            && ComplexityOf(r) == Low
  {
  }

  /** Volume 100 alone brings a gateway pool behind a load balancer, the high tier, and a High rating. */
  lemma HighVolumeComposition()
    ensures var r := DefaultRequirements.(dataVolume := 100);
            && SelectProcessingLayers(r) == [GatewayPool]
            && NeedsGateway(r)
            && GetVolumeProfile(r.dataVolume).tier == HighTier
            && ComplexityOf(r) == High
            && Recommendations(r) == [HighVolumeRecommendation]
  {
  }

  /** Zero loss, tail sampling and volume 100 bring Kafka, a gateway then a sampling tier, rated Very High. */
  lemma ZeroLossSamplingComposition()
    ensures var r := DefaultRequirements.(dataLossPolicy := Zero, needsTailSampling := true, dataVolume := 100);
            && SelectBufferingLayer(r) == KafkaBuffer
            && SelectProcessingLayers(r) == [GatewayPool, SamplingTier]
            && ComplexityOf(r) == VeryHigh
            && Warnings(r) == [KafkaWarning]
  {
  }

  /** Serverless Kubernetes with infrastructure logs warns that they are unavailable and picks no DaemonSet. */
  lemma ServerlessInfraComposition()
    ensures var r := DefaultRequirements.(serverlessKubernetes := true, needsInfraLogs := true);
            && SelectEdgeLayers(r) == [DirectSdk]
            && Warnings(r) == [InfraUnavailableWarning]
  {
  }

  /** The catalog says the sampling tier requires a gateway pool, but the composition does not
      enforce it: tail sampling alone yields a sampling tier with no gateway. */
  lemma SamplingWithoutGateway()
    ensures "gateway-pool" in SamplingTier.requiredTags
    ensures var r := DefaultRequirements.(needsTailSampling := true);
            && SelectProcessingLayers(r) == [SamplingTier]
            && GatewayPool !in SelectProcessingLayers(r)
  {
  }

  /** DaemonSet plus sidecar, a gateway and a persistent queue at low volume rate Medium, not High. */
  lemma IsolatedMinimizeComposition()
    ensures var r := DefaultRequirements.(needsInfraMetrics := true, needsPerServiceIsolation := true,
                                          dataLossPolicy := Minimize);
            && SelectEdgeLayers(r) == [DaemonsetAgent, SidecarAgent]
            && SelectProcessingLayers(r) == [GatewayPool]
            && SelectBufferingLayer(r) == PersistentQueue
            && ComplexityOf(r) == Medium
  {
  }
}
