/**
 * The composition engine: from a flat requirements record to a composed architecture,
 * through seven ordered stages that update one accumulator.
 *
 * Each stage is specified by pure functions of the requirements (which layers it adds,
 * which warnings and recommendations it emits); the class `Architecture` is the
 * accumulator, and its stage methods are proved to perform exactly those updates.
 */
module Composer {
  import opened Options
  import opened Layers
  import opened ComposerDiagram
  import opened ComposerGraph
  import opened ComposerConfig

  datatype EnvironmentType = Kubernetes | Host

  /** Ordered resilience tiers. */
  datatype DataLossPolicy = Acceptable | Minimize | Zero

  datatype VolumeTier = LowTier | MediumTier | HighTier

  datatype VolumeProfile = VolumeProfile(tier: VolumeTier, replicas: string, placement: string, loadBalancerType: string)

  datatype Requirements = Requirements(
    environmentType: EnvironmentType,
    dataVolume: int,
    needsAppLogs: bool,
    needsAppTraces: bool,
    needsAppMetrics: bool,
    needsInfraLogs: bool,
    needsInfraMetrics: bool,
    needsCentralPolicy: bool,
    needsMultiBackend: bool,
    needsTailSampling: bool,
    dataLossPolicy: DataLossPolicy,
    serverlessKubernetes: bool,
    needsPerServiceIsolation: bool)

  datatype Complexity = Low | Medium | High | VeryHigh

  /** The order Low < Medium < High < Very High. */
  function Rank(c: Complexity): nat
  {
    match c
    case Low => 0
    case Medium => 1
    case High => 2
    case VeryHigh => 3
  }

  /** The rating as the source spells it. */
  function ComplexityName(c: Complexity): string
  {
    match c
    case Low => "Low"
    case Medium => "Medium"
    case High => "High"
    case VeryHigh => "Very High"
  }

  /** Kubernetes, application signals on, everything else off, volume 0, some loss acceptable. */
  const DefaultRequirements := Requirements(
    Kubernetes, 0,
    true, true, true,
    false, false,
    false, false, false,
    Acceptable,
    false, false)

  // ---------------------------------------------------------------------------
  // Messages
  // ---------------------------------------------------------------------------

  /** The fixed warning and recommendation texts the stages emit. */
  datatype Message =
    HostAgentRecommendation
    | HostAgentWithoutInfraRecommendation
    | InfraUnavailableWarning
    | DaemonsetBothSignalsRecommendation
    | DaemonsetAndSidecarRecommendation
    | TailSamplingRecommendation
    | SpanmetricsWarning
    | KafkaRecommendation
    | KafkaWarning
    | PersistentQueueRecommendation
    | LowVolumeRecommendation
    | MediumVolumeRecommendation
    | HighVolumeRecommendation

  /** The text of each message, as the source writes it. */
  function MessageText(m: Message): string
  {
    match m
    case HostAgentRecommendation =>
      "Host agent runs as a systemd service collecting host metrics (hostmetrics receiver) and local logs (filelog receiver). Applications export to localhost:4317."
    case HostAgentWithoutInfraRecommendation =>
      "A local host agent is recommended even without infrastructure collection \U{2014} it provides buffering, retry, and resource detection for application telemetry."
    case InfraUnavailableWarning =>
      "Infrastructure collection (host metrics, disk logs) is unavailable on serverless Kubernetes. DaemonSet agents cannot run on Fargate/Cloud Run. Consider using cloud provider metrics instead."
    case DaemonsetBothSignalsRecommendation =>
      "DaemonSet agent will collect both infrastructure logs (filelog receiver) and host metrics (hostmetrics receiver) from each node."
    case DaemonsetAndSidecarRecommendation =>
      "Running both DaemonSet and Sidecar agents: DaemonSet collects infrastructure telemetry, Sidecar provides per-service isolation for application telemetry. Both forward to the same gateway."
    case TailSamplingRecommendation =>
      "Tail sampling requires the loadbalancingexporter with routing_key: traceID. All spans of a trace must reach the same sampling collector."
    case SpanmetricsWarning =>
      "Note: spanmetrics connector requires routing_key: service, which is incompatible with tail sampling (traceID routing). Consider running spanmetrics on the agent tier before sampling."
    case KafkaRecommendation =>
      "Kafka provides the strongest durability guarantee. Use partition_traces_by_id: true if you need tail sampling downstream. Ensure Kafka topic partitions >= consumer replicas."
    case KafkaWarning =>
      "Kafka adds operational complexity. Ensure your team has Kafka expertise or consider a managed Kafka service."
    case PersistentQueueRecommendation =>
      "Persistent queues (file_storage extension) survive collector restarts. Requires StatefulSet with PVC in Kubernetes."
    case LowVolumeRecommendation =>
      "2 gateway replicas co-located with application workloads. Standard Kubernetes Service provides load balancing."
    case MediumVolumeRecommendation =>
      "3-5 gateway replicas on a dedicated node pool. Use node affinity and taints to isolate collector workloads from application pods."
    case HighVolumeRecommendation =>
      "5-20+ gateway replicas on a dedicated node pool or separate gateway cluster. Use an L7 load balancer (NGINX, Envoy) for advanced traffic management and backpressure handling. Consider head sampling at the SDK or agent tier to reduce load before gateway processing."
  }

  // ---------------------------------------------------------------------------
  // Volume profile
  // ---------------------------------------------------------------------------

  /** The volume tier and its sizing guidance: high from 100, medium from 50, low below. */
  function GetVolumeProfile(dataVolume: int): (p: VolumeProfile)
    ensures p.tier == HighTier <==> dataVolume >= 100
    ensures p.tier == MediumTier <==> 50 <= dataVolume < 100
    ensures p.tier == LowTier <==> dataVolume < 50
  {
    if dataVolume >= 100 then
      VolumeProfile(HighTier, "5-20+", "Dedicated node pool or separate gateway cluster", "L7 load balancer (NGINX/Envoy)")
    else if dataVolume >= 50 then
      VolumeProfile(MediumTier, "3-5", "Same cluster, dedicated node pool", "Standard K8s Service")
    else
      VolumeProfile(LowTier, "2", "Same cluster as applications", "Standard K8s Service")
  }

  /** `some(l => l.id === id)`. */
  function HasLayerId(ls: seq<Layer>, id: string): (b: bool)
    ensures b <==> exists l :: l in ls && l.id == id
    decreases |ls|
  {
    if ls == [] then false
    else ls[0].id == id || (assert forall l :: l in ls[1..] ==> l in ls; HasLayerId(ls[1..], id))
  }

  // ---------------------------------------------------------------------------
  // Stage 1: edge layers
  // ---------------------------------------------------------------------------

  predicate NeedsInfraCollection(r: Requirements)
  {
    r.needsInfraLogs || r.needsInfraMetrics
  }

  /** The edge layers the stage pushes, given how many were already there: host gets a host agent;
      serverless Kubernetes a sidecar or direct export; otherwise a DaemonSet for infrastructure
      signals and/or a sidecar for isolation, with direct export when the list is still empty. */
  function EdgePushes(r: Requirements, before: nat): seq<Layer>
  {
    if r.environmentType == Host then [HostAgent]
    else if r.serverlessKubernetes then
      if r.needsPerServiceIsolation then [SidecarAgent] else [DirectSdk]
    else
      var chosen := (if NeedsInfraCollection(r) then [DaemonsetAgent] else [])
                    + (if r.needsPerServiceIsolation then [SidecarAgent] else []);
      if before + |chosen| == 0 then [DirectSdk] else chosen
  }

  /** The edge layers of a composed architecture. */
  function SelectEdgeLayers(r: Requirements): (edge: seq<Layer>)
    ensures 1 <= |edge| <= 2
    ensures forall l :: l in edge ==> l in edgeLayers
    ensures r.environmentType == Host ==> edge == [HostAgent]
    ensures r.environmentType == Kubernetes && r.serverlessKubernetes ==>
              DaemonsetAgent !in edge && (edge == [SidecarAgent] || edge == [DirectSdk])
    ensures (r.environmentType == Kubernetes && !r.serverlessKubernetes && NeedsInfraCollection(r)
             && r.needsPerServiceIsolation) ==> edge == [DaemonsetAgent, SidecarAgent]
    ensures DirectSdk in edge ==> edge == [DirectSdk]
    ensures HostAgent in edge <==> r.environmentType == Host
    ensures DaemonsetAgent in edge <==>
              r.environmentType == Kubernetes && !r.serverlessKubernetes && NeedsInfraCollection(r)
    ensures SidecarAgent in edge <==> r.environmentType == Kubernetes && r.needsPerServiceIsolation
    ensures DirectSdk in edge <==>
              r.environmentType == Kubernetes && !r.needsPerServiceIsolation
              && (r.serverlessKubernetes || !NeedsInfraCollection(r))
    ensures |edge| == 2 ==> edge == [DaemonsetAgent, SidecarAgent]
  {
    EdgePushes(r, 0)
  }

  /** The stage warns exactly when infrastructure signals are requested on serverless Kubernetes. */
  function EdgeWarnings(r: Requirements): (ws: seq<Message>)
    ensures InfraUnavailableWarning in ws <==>
              r.environmentType == Kubernetes && r.serverlessKubernetes && NeedsInfraCollection(r)
    ensures |ws| <= 1
  {
    if r.environmentType == Kubernetes && r.serverlessKubernetes && NeedsInfraCollection(r)
    then [InfraUnavailableWarning] else []
  }

  /** Host always gets a host-agent note (which one depends on infrastructure collection); standard
      Kubernetes gets a note for a DaemonSet collecting both infrastructure signals and one for a
      DaemonSet beside per-service sidecars, in that order; serverless Kubernetes gets none. */
  function EdgeRecommendations(r: Requirements): (rs: seq<Message>)
    ensures HostAgentRecommendation in rs <==> r.environmentType == Host && NeedsInfraCollection(r)
    ensures HostAgentWithoutInfraRecommendation in rs <==> r.environmentType == Host && !NeedsInfraCollection(r)
    ensures DaemonsetBothSignalsRecommendation in rs <==>
              r.environmentType == Kubernetes && !r.serverlessKubernetes && r.needsInfraLogs && r.needsInfraMetrics
    ensures DaemonsetAndSidecarRecommendation in rs <==>
              r.environmentType == Kubernetes && !r.serverlessKubernetes && r.needsPerServiceIsolation
              && NeedsInfraCollection(r)
    ensures |rs| == 2 ==> rs == [DaemonsetBothSignalsRecommendation, DaemonsetAndSidecarRecommendation]
    ensures |rs| <= 2
    ensures r.environmentType == Kubernetes && r.serverlessKubernetes ==> rs == []
  {
    if r.environmentType == Host then
      if NeedsInfraCollection(r) then [HostAgentRecommendation] else [HostAgentWithoutInfraRecommendation]
    else if r.serverlessKubernetes then []
    else
      var both := if NeedsInfraCollection(r) && r.needsInfraLogs && r.needsInfraMetrics
                  then [DaemonsetBothSignalsRecommendation] else [];
      var beside := if r.needsPerServiceIsolation && NeedsInfraCollection(r)
                    then [DaemonsetAndSidecarRecommendation] else [];
      assert r.environmentType == Kubernetes;
      both + beside
  }

  // ---------------------------------------------------------------------------
  // Stage 2: processing layers
  // ---------------------------------------------------------------------------

  /** A gateway is needed for central policy, several backends, any loss intolerance, or volume from 50. */
  predicate NeedsGateway(r: Requirements)
  {
    r.needsCentralPolicy || r.needsMultiBackend || r.dataLossPolicy != Acceptable || r.dataVolume >= 50
  }

  /** The processing layers the stage pushes, given how many were already there. */
  function ProcessingPushes(r: Requirements, before: nat): seq<Layer>
  {
    var chosen := (if NeedsGateway(r) then [GatewayPool] else []) + (if r.needsTailSampling then [SamplingTier] else []);
    if before + |chosen| == 0 then [NoneLayer] else chosen
  }

  /** The processing layers of a composed architecture. */
  function SelectProcessingLayers(r: Requirements): (processing: seq<Layer>)
    ensures 1 <= |processing| <= 2
    ensures forall l :: l in processing ==> l in processingLayers
    ensures GatewayPool in processing <==>
              r.needsCentralPolicy || r.needsMultiBackend || r.dataLossPolicy != Acceptable || r.dataVolume >= 50
    ensures SamplingTier in processing <==> r.needsTailSampling
    ensures GatewayPool in processing && SamplingTier in processing ==> processing == [GatewayPool, SamplingTier]
    ensures NoneLayer in processing <==> processing == [NoneLayer]
    ensures |processing| == 2 ==> processing == [GatewayPool, SamplingTier]
  {
    ProcessingPushes(r, 0)
  }

  /** The stage warns about routing keys exactly when tail sampling meets several backends. */
  function ProcessingWarnings(r: Requirements): (ws: seq<Message>)
    ensures SpanmetricsWarning in ws <==> r.needsTailSampling && r.needsMultiBackend
    ensures |ws| <= 1
  {
    if r.needsTailSampling && r.needsMultiBackend then [SpanmetricsWarning] else []
  }

  /** The routing note exactly for tail sampling. */
  function ProcessingRecommendations(r: Requirements): (rs: seq<Message>)
    ensures TailSamplingRecommendation in rs <==> r.needsTailSampling
    ensures |rs| <= 1
  {
    if r.needsTailSampling then [TailSamplingRecommendation] else []
  }

  // ---------------------------------------------------------------------------
  // Stage 3: buffering layer
  // ---------------------------------------------------------------------------

  /** The buffering layer after the stage: decided by the loss policy, the current one kept for `acceptable`. */
  function BufferingAfter(r: Requirements, current: Layer): Layer
  {
    match r.dataLossPolicy
    case Zero => KafkaBuffer
    case Minimize => PersistentQueue
    case Acceptable => current
  }

  /** The buffering layer of a composed architecture: exactly one, chosen by the loss policy alone. */
  function SelectBufferingLayer(r: Requirements): (b: Layer)
    ensures b in bufferingLayers
    ensures b == KafkaBuffer <==> r.dataLossPolicy == Zero
    ensures b == PersistentQueue <==> r.dataLossPolicy == Minimize
    ensures b == MemoryQueue <==> r.dataLossPolicy == Acceptable
  {
    BufferingAfter(r, MemoryQueue)
  }

  /** Only a Kafka buffer draws a warning. */
  function BufferingWarnings(r: Requirements): (ws: seq<Message>)
    ensures KafkaWarning in ws <==> r.dataLossPolicy == Zero
    ensures |ws| <= 1
  {
    if r.dataLossPolicy == Zero then [KafkaWarning] else []
  }

  /** A durability note for Kafka under zero loss and for the persistent queue under minimize;
      none for the in-memory queue. */
  function BufferingRecommendations(r: Requirements): (rs: seq<Message>)
    ensures KafkaRecommendation in rs <==> r.dataLossPolicy == Zero
    ensures PersistentQueueRecommendation in rs <==> r.dataLossPolicy == Minimize
    ensures rs == [] <==> r.dataLossPolicy == Acceptable
    ensures |rs| <= 1
  {
    match r.dataLossPolicy
    case Zero => [KafkaRecommendation]
    case Minimize => [PersistentQueueRecommendation]
    case Acceptable => []
  }

  // ---------------------------------------------------------------------------
  // Stage 4: volume recommendations
  // ---------------------------------------------------------------------------

  /** One sizing recommendation for the volume tier, only when a gateway was selected. */
  function VolumeRecommendations(processing: seq<Layer>, tier: VolumeTier): (rs: seq<Message>)
    ensures |rs| == 1 <==> HasLayerId(processing, "gateway-pool")
    ensures |rs| <= 1
    ensures HasLayerId(processing, "gateway-pool") ==>
              && (rs[0] == LowVolumeRecommendation <==> tier == LowTier)
              && (rs[0] == MediumVolumeRecommendation <==> tier == MediumTier)
              && (rs[0] == HighVolumeRecommendation <==> tier == HighTier)
  {
    if !HasLayerId(processing, "gateway-pool") then []
    else match tier
      case LowTier => [LowVolumeRecommendation]
      case MediumTier => [MediumVolumeRecommendation]
      case HighTier => [HighVolumeRecommendation]
  }

  // ---------------------------------------------------------------------------
  // Stage 5: complexity
  // ---------------------------------------------------------------------------

  predicate AtLeastTwo(a: bool, b: bool, c: bool)
  {
    (a && b) || (a && c) || (b && c)
  }

  /** The first-match complexity table. Kafka or sampling make it High or more, Very High with a
      second of {Kafka, sampling, high volume}; without them a high-volume gateway is High, and the
      rest is Medium or Low by tier, persistent queue and edge topology. */
  function CalculateComplexity(edge: seq<Layer>, processing: seq<Layer>, buffering: Layer, tier: VolumeTier): (c: Complexity)
    ensures var kafka := buffering.id == "kafka-buffer";
            var sampling := HasLayerId(processing, "sampling-tier");
            var gateway := HasLayerId(processing, "gateway-pool");
            && (c == VeryHigh <==> AtLeastTwo(kafka, sampling, tier == HighTier))
            && ((kafka || sampling) ==> Rank(c) >= Rank(High))
            && (!kafka && !sampling && gateway && tier == HighTier ==> c == High)
            && (!gateway && !kafka && !sampling ==> Rank(c) <= Rank(Medium))
            && (c == Low ==> |edge| <= 1 && !HasLayerId(edge, "sidecar-agent"))
    ensures var kafka := buffering.id == "kafka-buffer";
            var sampling := HasLayerId(processing, "sampling-tier");
            var gateway := HasLayerId(processing, "gateway-pool");
            var pq := buffering.id == "persistent-queue";
            var ds := HasLayerId(edge, "daemonset-agent");
            var sc := HasLayerId(edge, "sidecar-agent");
            && (!kafka && !sampling && gateway && tier != HighTier ==>
                  (c == Low || c == Medium)
                  && (c == Medium <==> tier == MediumTier || pq || |edge| > 1 || ds || sc))
            && (!gateway && !kafka && !sampling ==> (c == Low || c == Medium) && (c == Medium <==> |edge| > 1 || sc))
  {
    var hasGateway := HasLayerId(processing, "gateway-pool");
    var hasSampling := HasLayerId(processing, "sampling-tier");
    var hasKafka := buffering.id == "kafka-buffer";
    var hasPersistentQueue := buffering.id == "persistent-queue";
    var hasDaemonSet := HasLayerId(edge, "daemonset-agent");
    var hasSidecar := HasLayerId(edge, "sidecar-agent");
    var multipleEdge := |edge| > 1;
    if hasKafka || hasSampling then
      if (hasKafka && hasSampling) || (hasKafka && tier == HighTier) || (hasSampling && tier == HighTier)
      then VeryHigh else High
    else if hasGateway && tier == HighTier then High
    else if hasGateway then
      if tier == MediumTier || hasPersistentQueue || multipleEdge then Medium
      else if hasDaemonSet || hasSidecar then Medium
      else Low
    else if multipleEdge || hasSidecar then Medium
    else if hasDaemonSet then Low
    else Low
  }

  // ---------------------------------------------------------------------------
  // The composed architecture, stage by stage
  // ---------------------------------------------------------------------------

  /** Every warning, in stage order. */
  function Warnings(r: Requirements): seq<Message>
  {
    EdgeWarnings(r) + ProcessingWarnings(r) + BufferingWarnings(r)
  }

  /** Every recommendation, in stage order. */
  function Recommendations(r: Requirements): seq<Message>
  {
    EdgeRecommendations(r) + ProcessingRecommendations(r) + BufferingRecommendations(r)
    + VolumeRecommendations(SelectProcessingLayers(r), GetVolumeProfile(r.dataVolume).tier)
  }

  function ComplexityOf(r: Requirements): Complexity
  {
    CalculateComplexity(SelectEdgeLayers(r), SelectProcessingLayers(r), SelectBufferingLayer(r),
                        GetVolumeProfile(r.dataVolume).tier)
  }

  function DiagramOf(r: Requirements): Diagram
  {
    CombinedDiagram(SelectEdgeLayers(r), SelectProcessingLayers(r), SelectBufferingLayer(r))
  }

  function ConfigOf(r: Requirements): MergedConfig
  {
    MergedConfigOf(SelectEdgeLayers(r), SelectProcessingLayers(r), SelectBufferingLayer(r))
  }

  /** The accumulator the stages update in place. */
  class Architecture {
    var edge: seq<Layer>
    var processing: seq<Layer>
    var buffering: Layer
    const requirements: Requirements
    var needsLoadBalancer: bool
    const volumeProfile: VolumeProfile
    var diagram: Diagram
    var configSnippets: MergedConfig
    var warnings: seq<Message>
    var recommendations: seq<Message>
    var complexity: Complexity

    /** The initial record: no layers, in-memory queues, the volume profile, nothing emitted, `Low`. */
    constructor(requirements: Requirements)
      ensures this.requirements == requirements
      ensures edge == [] && processing == [] && buffering == MemoryQueue
      ensures !needsLoadBalancer && volumeProfile == GetVolumeProfile(requirements.dataVolume)
      ensures diagram == Diagram([], []) && configSnippets == MergedConfig(None, None, None)
      ensures warnings == [] && recommendations == [] && complexity == Low
    {
      this.requirements := requirements;
      edge := [];
      processing := [];
      buffering := MemoryQueue;
      needsLoadBalancer := false;
      volumeProfile := GetVolumeProfile(requirements.dataVolume);
      diagram := Diagram([], []);
      configSnippets := MergedConfig(None, None, None);
      warnings := [];
      recommendations := [];
      complexity := Low;
    }

    /** `determineEdgeLayers`. */
    method DetermineEdgeLayers()
      modifies this
      ensures edge == old(edge) + EdgePushes(requirements, |old(edge)|)
      ensures warnings == old(warnings) + EdgeWarnings(requirements)
      ensures recommendations == old(recommendations) + EdgeRecommendations(requirements)
      ensures processing == old(processing) && buffering == old(buffering) && needsLoadBalancer == old(needsLoadBalancer)
      ensures diagram == old(diagram) && configSnippets == old(configSnippets) && complexity == old(complexity)
    {
      var r := requirements;
      var needsInfraCollection := r.needsInfraLogs || r.needsInfraMetrics;
      if r.environmentType == Host {
        edge := edge + [HostAgent];
        if needsInfraCollection {
          recommendations := recommendations + [HostAgentRecommendation];
        } else {
          recommendations := recommendations + [HostAgentWithoutInfraRecommendation];
        }
      } else if r.serverlessKubernetes {
        if needsInfraCollection {
          warnings := warnings + [InfraUnavailableWarning];
        }
        if r.needsPerServiceIsolation {
          edge := edge + [SidecarAgent];
        } else {
          edge := edge + [DirectSdk];
        }
      } else {
        if needsInfraCollection {
          edge := edge + [DaemonsetAgent];
          if r.needsInfraLogs && r.needsInfraMetrics {
            recommendations := recommendations + [DaemonsetBothSignalsRecommendation];
          }
        }
        if r.needsPerServiceIsolation {
          edge := edge + [SidecarAgent];
          if needsInfraCollection {
            recommendations := recommendations + [DaemonsetAndSidecarRecommendation];
          }
        }
        if |edge| == 0 {
          edge := edge + [DirectSdk];
        }
      }
    }

    /** `determineProcessingLayers`. */
    method DetermineProcessingLayers()
      modifies this
      ensures processing == old(processing) + ProcessingPushes(requirements, |old(processing)|)
      ensures needsLoadBalancer == (old(needsLoadBalancer) || NeedsGateway(requirements))
      ensures warnings == old(warnings) + ProcessingWarnings(requirements)
      ensures recommendations == old(recommendations) + ProcessingRecommendations(requirements)
      ensures edge == old(edge) && buffering == old(buffering)
      ensures diagram == old(diagram) && configSnippets == old(configSnippets) && complexity == old(complexity)
    {
      var r := requirements;
      var needsGateway := r.needsCentralPolicy || r.needsMultiBackend || r.dataLossPolicy != Acceptable || r.dataVolume >= 50;
      if needsGateway {
        processing := processing + [GatewayPool];
        needsLoadBalancer := true;
      }
      if r.needsTailSampling {
        processing := processing + [SamplingTier];
        recommendations := recommendations + [TailSamplingRecommendation];
        if r.needsMultiBackend {
          warnings := warnings + [SpanmetricsWarning];
        }
      }
      if |processing| == 0 {
        processing := processing + [NoneLayer];
      }
    }

    /** `determineBufferingLayer`. */
    method DetermineBufferingLayer()
      modifies this
      ensures buffering == BufferingAfter(requirements, old(buffering))
      ensures warnings == old(warnings) + BufferingWarnings(requirements)
      ensures recommendations == old(recommendations) + BufferingRecommendations(requirements)
      ensures edge == old(edge) && processing == old(processing) && needsLoadBalancer == old(needsLoadBalancer)
      ensures diagram == old(diagram) && configSnippets == old(configSnippets) && complexity == old(complexity)
    {
      if requirements.dataLossPolicy == Zero {
        buffering := KafkaBuffer;
        recommendations := recommendations + [KafkaRecommendation];
        warnings := warnings + [KafkaWarning];
      } else if requirements.dataLossPolicy == Minimize {
        buffering := PersistentQueue;
        recommendations := recommendations + [PersistentQueueRecommendation];
      }
    }

    /** `addVolumeRecommendations`. */
    method AddVolumeRecommendations()
      modifies this
      ensures recommendations == old(recommendations) + VolumeRecommendations(processing, volumeProfile.tier)
      ensures edge == old(edge) && processing == old(processing) && buffering == old(buffering)
      ensures needsLoadBalancer == old(needsLoadBalancer) && warnings == old(warnings)
      ensures diagram == old(diagram) && configSnippets == old(configSnippets) && complexity == old(complexity)
    {
      var hasGateway := HasLayerId(processing, "gateway-pool");
      if !hasGateway {
        return;
      }
      var tier := volumeProfile.tier;
      if tier == LowTier {
        recommendations := recommendations + [LowVolumeRecommendation];
      } else if tier == MediumTier {
        recommendations := recommendations + [MediumVolumeRecommendation];
      } else {
        recommendations := recommendations + [HighVolumeRecommendation];
      }
    }

    /** Stages 1 to 4 on a fresh record: the layers, the gateway flag, the warnings and the
        recommendations of the composition. */
    method SelectLayers()
      modifies this
      requires edge == [] && processing == [] && buffering == MemoryQueue && !needsLoadBalancer
      requires warnings == [] && recommendations == []
      requires volumeProfile == GetVolumeProfile(requirements.dataVolume)
      ensures edge == SelectEdgeLayers(requirements)
      ensures processing == SelectProcessingLayers(requirements)
      ensures buffering == SelectBufferingLayer(requirements)
      ensures needsLoadBalancer == NeedsGateway(requirements)
      ensures warnings == Warnings(requirements) && recommendations == Recommendations(requirements)
      ensures diagram == old(diagram) && configSnippets == old(configSnippets) && complexity == old(complexity)
    {
      var r := requirements;
      DetermineEdgeLayers();
      assert edge == SelectEdgeLayers(r);
      assert warnings == EdgeWarnings(r) && recommendations == EdgeRecommendations(r);
      DetermineProcessingLayers();
      assert processing == SelectProcessingLayers(r);
      assert warnings == EdgeWarnings(r) + ProcessingWarnings(r);
      assert recommendations == EdgeRecommendations(r) + ProcessingRecommendations(r);
      DetermineBufferingLayer();
      assert buffering == SelectBufferingLayer(r);
      AddVolumeRecommendations();
    }

    /** The complexity stage: rates the layers chosen so far. */
    method RateComplexity()
      modifies this
      ensures complexity == CalculateComplexity(edge, processing, buffering, volumeProfile.tier)
      ensures edge == old(edge) && processing == old(processing) && buffering == old(buffering)
      ensures needsLoadBalancer == old(needsLoadBalancer) && warnings == old(warnings) && recommendations == old(recommendations)
      ensures diagram == old(diagram) && configSnippets == old(configSnippets)
    {
      complexity := CalculateComplexity(edge, processing, buffering, volumeProfile.tier);
    }

    /** The diagram stage. */
    method BuildDiagram()
      modifies this
      ensures diagram == CombinedDiagram(edge, processing, buffering)
      ensures edge == old(edge) && processing == old(processing) && buffering == old(buffering)
      ensures needsLoadBalancer == old(needsLoadBalancer) && warnings == old(warnings) && recommendations == old(recommendations)
      ensures complexity == old(complexity) && configSnippets == old(configSnippets)
    {
      diagram := BuildCombinedDiagram(edge, processing, buffering);
    }

    /** The configuration stage. */
    method MergeConfig()
      modifies this
      ensures configSnippets == MergedConfigOf(edge, processing, buffering)
      ensures edge == old(edge) && processing == old(processing) && buffering == old(buffering)
      ensures needsLoadBalancer == old(needsLoadBalancer) && warnings == old(warnings) && recommendations == old(recommendations)
      ensures complexity == old(complexity) && diagram == old(diagram)
    {
      configSnippets := MergeConfigSnippets(edge, processing, buffering);
    }
  }

  /** `composeArchitecture`: a fresh record, then the seven stages in order. */
  method ComposeArchitecture(r: Requirements) returns (arch: Architecture)
    ensures fresh(arch)
    ensures arch.requirements == r && arch.volumeProfile == GetVolumeProfile(r.dataVolume)
    ensures arch.edge == SelectEdgeLayers(r)
    ensures arch.processing == SelectProcessingLayers(r)
    ensures arch.buffering == SelectBufferingLayer(r)
    ensures arch.needsLoadBalancer == NeedsGateway(r)
    ensures arch.warnings == Warnings(r)
    ensures arch.recommendations == Recommendations(r)
    ensures arch.complexity == ComplexityOf(r)
    ensures arch.diagram == DiagramOf(r)
    ensures arch.configSnippets == ConfigOf(r)
  {
    arch := new Architecture(r);
    arch.SelectLayers();
    arch.RateComplexity();
    arch.BuildDiagram();
    arch.MergeConfig();
  }
}
