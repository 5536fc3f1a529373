/**
 * The component catalog behind the diagram: the seven component ids, the catalog records,
 * lookup by id, and the mapping from a diagram node's type to the component that explains it.
 *
 * Component prose (descriptions, bullet lists, configuration examples, links) is display
 * text and is left out.
 */
module Components {
  import opened Options
  import opened Layers

  datatype ComponentId =
    OtelSdk | AgentCollector | GatewayCollector | LoadbalancingExporter | TailSampling | KafkaQueue | ObservabilityBackend

  /** The id as the source spells it. */
  function ComponentIdName(c: ComponentId): string
  {
    match c
    case OtelSdk => "otel-sdk"
    case AgentCollector => "agent-collector"
    case GatewayCollector => "gateway-collector"
    case LoadbalancingExporter => "loadbalancing-exporter"
    case TailSampling => "tail-sampling"
    case KafkaQueue => "kafka"
    case ObservabilityBackend => "backend"
  }

  datatype Component = Component(id: ComponentId, name: string)

  const components: seq<Component> := [
    Component(OtelSdk, "OpenTelemetry SDK"),
    Component(AgentCollector, "Agent Collector"),
    Component(GatewayCollector, "Gateway Collector"),
    Component(LoadbalancingExporter, "Load Balancing Exporter"),
    Component(TailSampling, "Tail Sampling Processor"),
    Component(KafkaQueue, "Kafka / Message Queue"),
    Component(ObservabilityBackend, "Observability Backend")
  ]

  /** `find(c => c.id === id)` over any component list. */
  function FindComponent(cs: seq<Component>, id: ComponentId): (r: Option<Component>)
    ensures r.None? <==> forall k :: 0 <= k < |cs| ==> cs[k].id != id
    ensures r.Some? ==> exists k :: 0 <= k < |cs| && cs[k] == r.value && r.value.id == id
                                    && forall j :: 0 <= j < k ==> cs[j].id != id
  {
    if cs == [] then None
    else if cs[0].id == id then Some(cs[0])
    else
      var r := FindComponent(cs[1..], id);
      if r.Some? then
        var k :| 0 <= k < |cs[1..]| && cs[1..][k] == r.value && r.value.id == id
                 && forall j :: 0 <= j < k ==> cs[1..][j].id != id;
        assert cs[k + 1] == r.value;
        r
      else r
  }

  /** `getComponent`. */
  function GetComponent(id: ComponentId): (r: Option<Component>)
    ensures r.None? <==> forall c :: c in components ==> c.id != id
    ensures r.Some? ==> r.value in components && r.value.id == id
  {
    FindComponent(components, id)
  }

  /** Each of the seven ids appears exactly once in the catalog, so every id resolves, to the
      record carrying it. */
  lemma ComponentIdsOnce(id: ComponentId)
    ensures exists k :: 0 <= k < |components| && components[k].id == id
                        && forall j :: 0 <= j < |components| && components[j].id == id ==> j == k
    ensures GetComponent(id).Some? && GetComponent(id).value.id == id
  {
    var ids := seq(|components|, j requires 0 <= j < |components| => components[j].id);
    assert ids == [OtelSdk, AgentCollector, GatewayCollector, LoadbalancingExporter, TailSampling, KafkaQueue,
                   ObservabilityBackend];
    var k := match id
      case OtelSdk => 0
      case AgentCollector => 1
      case GatewayCollector => 2
      case LoadbalancingExporter => 3
      case TailSampling => 4
      case KafkaQueue => 5
      case ObservabilityBackend => 6;
    assert ids[k] == id;
    forall j | 0 <= j < |components| && components[j].id == id ensures j == k {
      assert ids[j] == id;
    }
  }

  /** The ids of distinct components are spelt differently. */
  lemma ComponentIdNamesDistinct(a: ComponentId, b: ComponentId)
    requires a != b
    ensures ComponentIdName(a) != ComponentIdName(b)
  {
    assert ComponentIdName(a)[0] != ComponentIdName(b)[0] || |ComponentIdName(a)| != |ComponentIdName(b)|;
  }

  // ---------------------------------------------------------------------------
  // Node type to component
  // ---------------------------------------------------------------------------

  /** The object literal's own keys. */
  const nodeTypeMapping: map<string, ComponentId> := map[
    "app" := OtelSdk,
    "agent" := AgentCollector,
    "gateway" := GatewayCollector,
    "loadbalancer" := LoadbalancingExporter,
    "kafka" := KafkaQueue,
    "backend" := ObservabilityBackend
  ]

  /** `nodeTypeToComponentId` as intended: a component id for the six mapped node types,
      `null` (here `None`) for every other string. */
  function NodeTypeToComponentId(nodeType: string): (r: Option<ComponentId>)
    ensures r.Some? <==> nodeType in {"app", "agent", "gateway", "loadbalancer", "kafka", "backend"}
  {
    if nodeType in nodeTypeMapping then Some(nodeTypeMapping[nodeType]) else None
  }

  /** The mapping for each diagram node type; `sidecar` has no component. */
  lemma NodeTypesMapped(t: NodeType)
    ensures NodeTypeToComponentId(NodeTypeName(t))
            == match t
               case App => Some(OtelSdk)
               case Agent => Some(AgentCollector)
               case Gateway => Some(GatewayCollector)
               case LoadBalancer => Some(LoadbalancingExporter)
               case Kafka => Some(KafkaQueue)
               case Backend => Some(ObservabilityBackend)
               case Sidecar => None
  {
  }

  /** Distinct mapped node types give distinct components. */
  lemma NodeTypeMappingInjective(a: string, b: string)
    requires NodeTypeToComponentId(a).Some? && NodeTypeToComponentId(b).Some?
    requires a != b
    ensures NodeTypeToComponentId(a) != NodeTypeToComponentId(b)
  {
  }

  /** Every component a node type maps to is in the catalog. */
  lemma MappedComponentsResolve(nodeType: string)
    requires NodeTypeToComponentId(nodeType).Some?
    ensures GetComponent(NodeTypeToComponentId(nodeType).value).Some?
  {
    ComponentIdsOnce(NodeTypeToComponentId(nodeType).value);
  }

  // ---------------------------------------------------------------------------
  // The lookup as written: a plain object indexed by an arbitrary string
  // ---------------------------------------------------------------------------

  /** What `mapping[nodeType] || null` can evaluate to: a component id, `null`, or a member that
      every plain object inherits from `Object.prototype` (a function, or the prototype itself),
      all of which are truthy. */
  datatype LookupResult = Mapped(id: ComponentId) | Null | Inherited(member: string)

  /** The names a plain object literal answers for without declaring them. */
  const objectPrototypeMembers: set<string> := {
    "constructor", "hasOwnProperty", "isPrototypeOf", "propertyIsEnumerable", "toLocaleString",
    "toString", "valueOf", "__defineGetter__", "__defineSetter__", "__lookupGetter__",
    "__lookupSetter__", "__proto__"
  }

  /** `nodeTypeToComponentId` as written: own keys first, then the inherited members. */
  function NodeTypeLookupAsWritten(nodeType: string): (r: LookupResult)
    ensures r.Mapped? <==> nodeType in nodeTypeMapping
    ensures r.Mapped? ==> r.id == nodeTypeMapping[nodeType]
    ensures r.Null? <==> nodeType !in nodeTypeMapping && nodeType !in objectPrototypeMembers
    ensures r.Inherited? ==> r.member == nodeType
  {
    if nodeType in nodeTypeMapping then Mapped(nodeTypeMapping[nodeType])
    else if nodeType in objectPrototypeMembers then Inherited(nodeType)
    else Null
  }

  /** Off the inherited names, the lookup as written is the intended one. */
  lemma AsWrittenAgreesOffPrototype(nodeType: string)
    requires nodeType !in objectPrototypeMembers
    ensures NodeTypeLookupAsWritten(nodeType).Null? <==> NodeTypeToComponentId(nodeType).None?
    ensures NodeTypeLookupAsWritten(nodeType).Mapped? ==>
              NodeTypeToComponentId(nodeType) == Some(NodeTypeLookupAsWritten(nodeType).id)
  {
  }

  /** `"toString"` is no node type, yet the lookup as written answers neither a component id nor
      `null` for it, while the intended lookup answers `null`. */
  lemma ToStringCounterexample()
    ensures NodeTypeLookupAsWritten("toString") == Inherited("toString")
    ensures NodeTypeToComponentId("toString") == None
  {
    assert "toString" !in nodeTypeMapping;
  }
}
