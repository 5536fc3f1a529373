# OTel blueprints composition engine in Dafny

This project models the architecture composition engine of the OpenTelemetry blueprints
explorer and proves properties of it. The engine takes a flat requirements record:

- the environment;
- a data volume from 0 to 100;
- which application and infrastructure signals to collect;
- central policy, several backends, tail sampling;
- a data-loss policy;
- serverless Kubernetes and per-service isolation.

From it the engine composes an OpenTelemetry Collector deployment in seven ordered stages:

1. edge layers;
2. processing layers, with a `none` sentinel;
3. a buffering layer;
4. volume-based sizing recommendations;
5. a first-match complexity rating;
6. one combined diagram graph that ends in a single backend node;
7. merged configuration text per kind (agent, gateway, kubernetes).

Beside it sit:

- the static layer catalog and its lookups;
- three read-only queries over a composed architecture (summary, "provides", capability list);
- the decision-lever tables and their slider helpers;
- the component catalog, with the mapping from diagram node types to components.

Layout, one module per file:

- `options.dfy`: `Option`.
- `text.dfy` (`Text`): `Array.prototype.join`, and the decimal text of a non-negative integer.
- `layers.dfy` (`Layers`):
  - the ten catalog layers and their diagram fragments;
  - `getLayer`, `getLayersByType`, `getAllLayers` and `isLayerCompatible`;
  - catalog well-formedness lemmas.
- `composer.dfy` (`Composer`):
  - the requirements record, messages, and the pure specification of every stage;
  - the class `Architecture`: the accumulator, whose stage methods update its fields in place;
  - `ComposeArchitecture`.
- `composer_diagram.dfy` (`ComposerDiagram`):
  - the combined diagram, specified in closed form;
  - the step-by-step builder (`BuildCombinedDiagram`), with its id set and "previous terminal nodes" list.
- `composer_graph.dfy` (`ComposerGraph`):
  - graph facts about the combined diagram: closed edges, one backend, prefixing, reachability of the backend.
- `composer_config.dfy` (`ComposerConfig`): the configuration merge, as a specification and as the collecting loops.
- `composer_queries.dfy` (`ComposerQueries`): summary, `architectureProvides`, `getArchitectureCapabilities`.
- `composer_properties.dfy` (`ComposerProperties`):
  - properties of whole compositions: the diagram of every composition, policy monotonicity of the rating, warnings;
  - concrete compositions.
- `decision_levers.dfy` (`DecisionLevers`): the slider and capability tables and helpers.
- `components.dfy` (`Components`): component ids, `getComponent`, `nodeTypeToComponentId`.

## Model

| member | source | states |
|---|---|---|
| Text.Join | src/data/composer.ts:485-489 | joining no parts gives the empty text, and joining one part gives that part |
| Text.JoinEmpty | src/data/composer.ts:501-508 | with a non-empty separator, a join is empty exactly when there are no parts, or one empty part |
| Text.JoinAppend | src/data/composer.ts:485-489 | with two or more parts the separator stands between consecutive parts: joining two non-empty lists is joining each, with one separator between the results |
| Text.JoinCons | src/data/composer.ts:516 | two or more parts join to the first part, a separator, and the join of the rest |
| Text.JoinStartsWithFirst | src/data/composer.ts:495-517 | a joined list starts with its first part |
| Text.NatToString | src/data/composer.ts:367 | the index in `edge${idx}` prints as non-empty decimal digits with no leading zero, spelling exactly that index |
| Text.NatToStringInjective | src/data/composer.ts:367 | different indices print differently, so the `edge{i}-` prefixes never collide |
| Layers.IndexOfId | src/data/layers.ts:917-919 | `find` by id: the position is the first layer carrying the id, or past the end when no layer does |
| Layers.GetAllLayers | src/data/layers.ts:932-934 | the catalog's length is the sum of the three group lengths |
| Layers.AllLayersGrouped | src/data/layers.ts:921-934 | the full catalog is the edge group, then the processing group, then the buffering group |
| Layers.GetLayersByType | src/data/layers.ts:921-930 | every layer of the returned group has the requested type |
| Layers.GroupsComplete | src/data/layers.ts:921-934 | every catalog layer of a type is in that type's group |
| Layers.GetLayer | src/data/layers.ts:917-919 | no layer is found exactly when no catalog layer carries the id; a found layer carries the id |
| Layers.GetLayerFirstMatch | src/data/layers.ts:917-919 | a found layer is the first catalog layer, in edge, processing, buffering order, that carries the id |
| Layers.CatalogIdsUnique | src/data/layers.ts:48-911 | the ten layer ids are pairwise distinct across the three groups |
| Layers.GetLayerExact | src/data/layers.ts:917-919 | for a catalog layer, the lookup returns it exactly when the id is its own |
| Layers.ComposerIdsResolve | src/data/layers.ts:48-911 | each of the ten ids the composer dereferences with `!` resolves, to the layer of that name |
| Layers.AnyIncluded | src/data/layers.ts:936-939 | `some`/`includes`: true exactly when some incompatible tag is in the constraint list |
| Layers.IsLayerCompatible | src/data/layers.ts:936-939 | compatible exactly when none of the layer's incompatible tags is listed; always compatible with no constraints |
| Layers.ActiveProcessing | src/data/composer.ts:400 | the filter keeps exactly the processing layers whose id is not `none` |
| Layers.ActiveProcessingOne | src/data/composer.ts:400 | one layer is kept exactly when it is not the `none` sentinel |
| Layers.ActiveProcessingAppend | src/data/composer.ts:400 | the filter distributes over concatenation, so the kept layers keep their order and multiplicity |
| Layers.CatalogDiagramWellFormed | src/data/layers.ts:48-911 | each catalog layer's internal edges join its own nodes, its nodes form an edge chain, and it has no backend node |
| Composer.GetVolumeProfile | src/data/composer.ts:132-155 | tier high exactly from 100, medium exactly for 50 to 99, low exactly below 50 |
| Composer.HasLayerId | src/data/composer.ts:277 | `some(l => l.id === id)` holds exactly when a layer with that id is in the list |
| Composer.SelectEdgeLayers | src/data/composer.ts:157-217 | one or two edge layers, all from the catalog's edge group; host gives exactly the host agent, and only host does; a DaemonSet exactly on standard Kubernetes with infrastructure logs or metrics; a sidecar exactly on Kubernetes with per-service isolation; direct export exactly on Kubernetes without isolation when serverless or without infrastructure collection, and then alone; two layers only as DaemonSet then sidecar |
| Composer.EdgeRecommendations | src/data/composer.ts:157-217 | host gets the host-agent note with infrastructure collection and the local-agent note without; standard Kubernetes gets the both-signals note exactly for infrastructure logs and metrics, and the DaemonSet-plus-sidecar note exactly for isolation with infrastructure collection, in that order; serverless gets none |
| Composer.EdgeWarnings | src/data/composer.ts:157-217 | the infrastructure-unavailable warning exactly for serverless Kubernetes with infrastructure logs or metrics requested, at most once |
| Composer.SelectProcessingLayers | src/data/composer.ts:219-253 | gateway present exactly under central policy, several backends, a non-acceptable policy, or volume from 50; sampling tier exactly under tail sampling, after the gateway; each at most once, so two layers are exactly gateway then sampling; never empty; `none` exactly as the sole layer |
| Composer.ProcessingRecommendations | src/data/composer.ts:231-237 | the trace-ID routing note exactly under tail sampling |
| Composer.ProcessingWarnings | src/data/composer.ts:219-253 | the spanmetrics warning exactly for tail sampling with several backends |
| Composer.SelectBufferingLayer | src/data/composer.ts:255-274 | one buffering layer from the catalog, decided by the policy alone: zero gives Kafka, minimize the persistent queue, acceptable the in-memory queue |
| Composer.BufferingRecommendations | src/data/composer.ts:255-274 | the Kafka note exactly under zero loss, the persistent-queue note exactly under minimize, none exactly under acceptable |
| Composer.BufferingWarnings | src/data/composer.ts:255-274 | the Kafka warning exactly under the zero-loss policy |
| Composer.VolumeRecommendations | src/data/composer.ts:276-299 | one sizing recommendation exactly when a gateway was selected, otherwise none; with a gateway, the low, medium and high notes each go exactly with their tier |
| Composer.CalculateComplexity | src/data/composer.ts:301-342 | Very High exactly when two of Kafka, sampling and the high tier hold; Kafka or sampling give at least High; a high-volume gateway alone gives High; no gateway, Kafka or sampling gives at most Medium; Low only with at most one edge layer and no sidecar; below the high tier without Kafka or sampling, a gateway gives Medium exactly for the medium tier, a persistent queue, several edge layers, a DaemonSet or a sidecar, and Low otherwise; without gateway, Kafka or sampling, Medium exactly for several edge layers or a sidecar, and Low otherwise |
| Composer.Architecture.constructor | src/data/composer.ts:94-106 | the initial record: no layers, the in-memory queue, the volume profile, nothing emitted, rated Low |
| Composer.Architecture.DetermineEdgeLayers | src/data/composer.ts:157-217 | appends the stage's edge layers, warnings and recommendations; no other field changes |
| Composer.Architecture.DetermineProcessingLayers | src/data/composer.ts:219-253 | appends the stage's processing layers, sets the load-balancer flag under the gateway rule, appends its warning and recommendation; no other field changes |
| Composer.Architecture.DetermineBufferingLayer | src/data/composer.ts:255-274 | replaces the buffer per policy, keeping it for `acceptable`, and appends the stage's messages; no other field changes |
| Composer.Architecture.AddVolumeRecommendations | src/data/composer.ts:276-299 | appends the tier's recommendation when a gateway is present; no other field changes |
| Composer.Architecture.SelectLayers | src/data/composer.ts:108-118 | stages 1 to 4 on the initial record yield the selected layers, the gateway flag, and all warnings and recommendations in stage order |
| Composer.Architecture.RateComplexity | src/data/composer.ts:120-121 | the rating is the complexity table applied to the current layers and tier; nothing else changes |
| Composer.Architecture.BuildDiagram | src/data/composer.ts:123-124 | the diagram is the combined diagram of the current layers; nothing else changes |
| Composer.Architecture.MergeConfig | src/data/composer.ts:126-127 | the configuration is the merge over the current layers; nothing else changes |
| Composer.ComposeArchitecture | src/data/composer.ts:93-130 | every field of the returned record equals the specification of its stage for the requirements |
| ComposerDiagram.EdgePrefix | src/data/composer.ts:367 | edge-layer nodes get a prefix exactly when there is more than one edge layer |
| ComposerDiagram.AddNodesIds | src/data/composer.ts:353-360 | de-duplicating insertion keeps the union of the ids present and the ids tried |
| ComposerDiagram.AddNodesDistinct | src/data/composer.ts:353-360 | de-duplicating insertion never repeats an id |
| ComposerDiagram.AddNodesFrom | src/data/composer.ts:353-360 | de-duplicating insertion only adds tried nodes, and keeps the existing ones in front |
| ComposerDiagram.AddNodesAppend | src/data/composer.ts:347-436 | trying one list of nodes and then another is trying their concatenation |
| ComposerDiagram.CombinedNodeIds | src/data/composer.ts:347-436 | the diagram's node ids are pairwise distinct and are exactly the ids tried |
| ComposerDiagram.AddNodeTo | src/data/composer.ts:353-360 | `addNode` returns the prefixed id, adds the node under it unless already present, and keeps the id set equal to the node ids |
| ComposerDiagram.AddLayerNodes | src/data/composer.ts:369-371 | adding a layer's nodes in order is de-duplicating insertion of its prefixed nodes |
| ComposerDiagram.AddLayerEdges | src/data/composer.ts:373-378 | appends the layer's internal edges with both ends prefixed |
| ComposerDiagram.AddLinks | src/data/composer.ts:393-395 | appends one edge from each previous terminal to the target |
| ComposerDiagram.AddEdgeLayer | src/data/composer.ts:366-385 | one edge layer: its prefixed nodes and edges, and its last node appended to the terminals |
| ComposerDiagram.AddEdgeLayers | src/data/composer.ts:366-385 | the edge-layer loop produces the closed-form nodes, edges and fan-in terminal list |
| ComposerDiagram.AddKafka | src/data/composer.ts:388-397 | Kafka's node, an edge into `kafka` from every terminal, and `kafka` as the only terminal |
| ComposerDiagram.AddProcessingLayer | src/data/composer.ts:401-421 | one processing layer: its nodes and edges, links into its first node, and its last node as the only terminal |
| ComposerDiagram.AddProcessingLayers | src/data/composer.ts:399-422 | the processing loop produces the closed-form nodes, edges and terminals |
| ComposerDiagram.BuildCombinedDiagram | src/data/composer.ts:347-436 | the builder produces exactly the combined diagram: edge layers, Kafka, active processing, backend, with their edges in emission order |
| ComposerGraph.PrefixedNotBackend | src/data/composer.ts:354 | an `edge{i}-` prefix never turns an id into `backend` |
| ComposerGraph.KafkaBufferHasKafkaNode | src/data/composer.ts:388-397 | the Kafka buffer has the `kafka` node that the fan-in edges target |
| ComposerGraph.CatalogInputsWellFormed | src/data/layers.ts:48-911 | catalog layers are well-formed inputs to the diagram builder |
| ComposerGraph.EdgeStageFacts | src/data/composer.ts:366-385 | after the edge layers: no backend node, and every edge and terminal names an added node |
| ComposerGraph.EdgeTerminalPresent | src/data/composer.ts:380-384 | each edge layer with nodes contributes its prefixed last node to the terminals |
| ComposerGraph.EdgeNodePresent | src/data/composer.ts:369-371 | each node of each edge layer is added under its layer's prefix |
| ComposerGraph.ProcStageFacts | src/data/composer.ts:399-422 | after the processing layers: no backend node, and edges and terminals name earlier ids or the layers' nodes |
| ComposerGraph.EdgesClosed | src/data/composer.ts:347-436 | every edge of the combined diagram goes from one of its nodes to one of its nodes |
| ComposerGraph.ExactlyOneBackend | src/data/composer.ts:424-428 | exactly one node of the combined diagram has type backend |
| ComposerGraph.EdgeIdsPrefixed | src/data/composer.ts:366-371 | an edge-layer node appears as `edge{idx}-` plus its id with several edge layers, and under its own id otherwise |
| ComposerGraph.ProcTerminalsReach | src/data/composer.ts:399-422 | if the final terminals reach the backend, so do the terminals before every processing layer |
| ComposerGraph.EdgeLayersReachBackend | src/data/composer.ts:347-436 | the last node of every edge layer has a directed path to `backend` |
| ComposerConfig.Piece | src/data/composer.ts:449-458 | a piece opens with the `# === ` header |
| ComposerConfig.PiecesFacts | src/data/composer.ts:441-490 | no pieces exactly when no layer supplies the kind; every piece belongs to a supplying layer; at most one piece per layer |
| ComposerConfig.PiecesAppend | src/data/composer.ts:449-483 | collecting from two lists in turn is collecting from their concatenation |
| ComposerConfig.ContributorPieces | src/data/composer.ts:449-483 | the pieces come from the edge layers, then the non-`none` processing layers, then the buffer |
| ComposerConfig.MergedBlock | src/data/composer.ts:441-490 | a block is absent exactly when no contributing layer supplies it; otherwise it is the ordered pieces joined by a blank line, opening with a header |
| ComposerConfig.CollectFrom | src/data/composer.ts:474-483 | pushes one layer's present, non-empty fragments, each under its header |
| ComposerConfig.CollectFromAll | src/data/composer.ts:449-472 | pushes every layer's pieces in order |
| ComposerConfig.CollectPieces | src/data/composer.ts:449-483 | the three collected lists are the pieces of the contributing layers |
| ComposerConfig.MergeConfigSnippets | src/data/composer.ts:441-490 | the stage's result is the merged configuration of the layers |
| ComposerQueries.Names | src/data/composer.ts:498 | one name per layer, in order |
| ComposerQueries.JoinOptionalParts | src/data/composer.ts:495-517 | a head and optional parts joined by the pipe separator give the head, then each present part after a separator |
| ComposerQueries.ArchitectureSummary | src/data/composer.ts:495-517 | the summary is `Edge: ` and the edge names joined by ` + `, then the pipe separator and the processing part when present, then the separator and the buffering part unless the buffer is the in-memory queue |
| ComposerQueries.ProcessingPartOmitted | src/data/composer.ts:501-508 | with named layers, the Processing part is omitted exactly when every processing layer is `none` |
| ComposerQueries.CatalogProcessingPartOmitted | src/data/composer.ts:501-508 | the same for catalog processing layers, which all have names |
| ComposerQueries.SummaryShape | src/data/composer.ts:495-517 | the summary opens with the Edge part and has one part per present section; Buffering is omitted exactly for `memory-queue` |
| ComposerQueries.AnyProvides | src/data/composer.ts:522-525 | true exactly when some layer lists the capability |
| ComposerQueries.ArchitectureProvides | src/data/composer.ts:522-525 | true exactly when some edge layer, some processing layer (the `none` sentinel included) or the buffer lists the capability |
| ComposerQueries.AllProvidesMember | src/data/composer.ts:530-537 | the collected tags are exactly the tags some layer provides |
| ComposerQueries.DedupFacts | src/data/composer.ts:530-537 | insertion into a set read back in order gives no duplicates, the same values, and first-seen order |
| ComposerQueries.Capabilities | src/data/composer.ts:530-537 | the capability list has no duplicates and holds exactly the tags the architecture's layers provide |
| ComposerQueries.ProvidesIffListed | src/data/composer.ts:522-537 | `architectureProvides` holds exactly when the capability is in `getArchitectureCapabilities` |
| ComposerQueries.GetArchitectureCapabilities | src/data/composer.ts:530-537 | the loop over layers and tags returns the de-duplicated tags in first-seen order |
| ComposerProperties.SelectionsFromCatalog | src/data/composer.ts:157-274 | every selected layer is a catalog layer |
| ComposerProperties.SelectionsWellFormed | src/data/composer.ts:157-274 | the selected layers satisfy the diagram lemmas' premises |
| ComposerProperties.ComposedNodes | src/data/composer.ts:347-436 | in every composition's diagram, node ids are distinct and exactly one node is the backend |
| ComposerProperties.ComposedEdgesClosed | src/data/composer.ts:347-436 | in every composition's diagram, each edge joins two of its nodes |
| ComposerProperties.ComposedEdgeLayersReachBackend | src/data/composer.ts:347-436 | in every composition's diagram, each edge layer's last node reaches the backend |
| ComposerProperties.ComplexityInputs | src/data/composer.ts:301-307 | the rating's gateway, sampling, Kafka and persistent-queue flags follow the requirements' rules |
| ComposerProperties.ComplexityMonotone | src/data/composer.ts:301-342 | adding a gateway or making the buffer more durable never lowers the rating |
| ComposerProperties.StricterPolicyNeverLowersComplexity | src/data/composer.ts:219-342 | a less tolerant loss policy, everything else fixed, never lowers the rating |
| ComposerProperties.ComposedWarnings | src/data/composer.ts:157-274 | each of the three warnings appears exactly under its stage's condition, and there are at most three |
| ComposerProperties.DefaultComposition | src/data/composer.ts:69-88 | the default record gives direct export, no processing, the in-memory queue, no gateway, Low, and nothing emitted |
| ComposerProperties.InfraMetricsComposition | src/data/composer.ts:157-217 | infrastructure metrics on regular Kubernetes give a DaemonSet, no processing, and Low |
| ComposerProperties.HighVolumeComposition | src/data/composer.ts:219-342 | volume 100 gives a gateway, the high tier, High, and the high-volume recommendation |
| ComposerProperties.ZeroLossSamplingComposition | src/data/composer.ts:219-342 | zero loss with tail sampling at volume 100 gives Kafka, gateway then sampling, Very High, and the Kafka warning |
| ComposerProperties.ServerlessInfraComposition | src/data/composer.ts:157-217 | serverless with infrastructure logs gives direct export and the unavailability warning |
| ComposerProperties.SamplingWithoutGateway | src/data/composer.ts:231-233 | the sampling tier declares that it requires a gateway, yet tail sampling alone composes it without one |
| ComposerProperties.IsolatedMinimizeComposition | src/data/composer.ts:301-342 | DaemonSet plus sidecar, a gateway and a persistent queue at low volume rate Medium |
| DecisionLevers.Ids | src/data/decisionLevers.ts:179-181 | one id per lever, in order |
| DecisionLevers.GetCapabilityIds | src/data/decisionLevers.ts:179-181 | same length and order as the capability table |
| DecisionLevers.CapabilityIdsDistinct | src/data/decisionLevers.ts:64-150 | the capability ids are pairwise distinct |
| DecisionLevers.FilterCategoryMember | src/data/decisionLevers.ts:184-186 | the filter keeps exactly the levers of the category |
| DecisionLevers.FilterCategoryAppend | src/data/decisionLevers.ts:184-186 | filtering keeps table order |
| DecisionLevers.CategoriesPartition | src/data/decisionLevers.ts:184-186 | the four categories split any list |
| DecisionLevers.GetCapabilitiesByCategory | src/data/decisionLevers.ts:184-186 | a toggle is returned exactly when it is in the table with that category |
| DecisionLevers.CapabilitiesByCategoryExact | src/data/decisionLevers.ts:184-186 | a category's levers are exactly the table's levers of that category, and the categories cover the table |
| DecisionLevers.FindValue | src/data/decisionLevers.ts:190 | `findIndex`: the first matching position, or -1 exactly when none matches |
| DecisionLevers.GetPositionIndex | src/data/decisionLevers.ts:189-192 | the first position holding the value, 0 when none does, in range for non-empty levers |
| DecisionLevers.GetValueFromIndex | src/data/decisionLevers.ts:195-197 | the value at an index in range, the first position's value otherwise; always a value some position holds |
| DecisionLevers.IndexRoundTrip | src/data/decisionLevers.ts:189-197 | with distinct values, index to value and back gives the index |
| DecisionLevers.ValueRoundTrip | src/data/decisionLevers.ts:189-197 | a value some position holds survives value to index and back |
| DecisionLevers.OutOfRangeFallsBack | src/data/decisionLevers.ts:195-197 | an out-of-range index gives the first position's value, which maps back to 0 |
| DecisionLevers.DefinedLeversDistinct | src/data/decisionLevers.ts:15-51 | the three defined sliders have three positions with distinct values |
| Components.FindComponent | src/data/components.ts:628-630 | nothing is found exactly when no component has the id; a found component is the first with the id |
| Components.GetComponent | src/data/components.ts:628-630 | nothing is found exactly when no catalog component has the id; a found component is in the catalog and carries the id |
| Components.ComponentIdsOnce | src/data/components.ts:29-626 | each of the seven ids occurs exactly once in the catalog, and `getComponent` resolves it |
| Components.ComponentIdNamesDistinct | src/data/components.ts:1-8 | the seven id spellings are distinct |
| Components.NodeTypeToComponentId | src/data/components.ts:633-643 | a component id exactly for the six mapped node types, otherwise null |
| Components.NodeTypesMapped | src/data/components.ts:634-642 | app, agent, gateway, loadbalancer, kafka and backend map to their components; sidecar maps to null |
| Components.NodeTypeMappingInjective | src/data/components.ts:634-641 | distinct mapped node types give distinct components |
| Components.MappedComponentsResolve | src/data/components.ts:628-643 | every component a node type maps to is in the catalog |
| Components.NodeTypeLookupAsWritten | src/data/components.ts:633-643 | the lookup as written: a component id exactly for the mapping's own keys, an inherited member for the `Object.prototype` names, and `null` only for the rest |
| Components.AsWrittenAgreesOffPrototype | src/data/components.ts:642 | away from the inherited object members, the lookup as written agrees with the intended one |
| Components.ToStringCounterexample | src/data/components.ts:642 | the lookup as written answers an inherited member for `toString`, where the intended one answers null |

## Left out

- Rendering is not modelled: the React components, animation, connector geometry, clipboard, timers, routing, theme and logos. None of it is part of the engine.
- Layer and component prose, icons and resource hints are left out: descriptions, bullet lists and links are display text. Each configuration fragment is kept only as its first comment line. The engine treats fragments as opaque strings, and that line tells which fragments a layer supplies and in what order.
- Warnings and recommendations are values of a `Message` enumeration. `MessageText` gives each one's exact text. Contracts compare messages, not long strings.
- `dataVolume` is an unbounded integer. Fractional JavaScript numbers are not modelled. The thresholds 50 and 100 compare the same way for integers.
- Composer.Architecture.DetermineEdgeLayers and the other stage methods push the catalog constants directly instead of calling `getLayer('…')!`. `Layers.ComposerIdsResolve` proves each of those lookups returns exactly that constant. The same lemma covers the `if (noneLayer)` guard: it always holds, so the `none` layer is always pushed.
- Composer.Architecture.SelectLayers groups stages 1 to 4 into one method, and `ComposeArchitecture` calls it. The stages still run in source order on the same record.
- The queries take the architecture's edge, processing and buffering fields rather than the whole record, since they read nothing else.
- ComposerQueries.ProcessingPartOmitted requires every layer to have a non-empty name. A layer named "" alone would also make `processingNames` empty. Every catalog layer has a name (`CatalogProcessingPartOmitted`).
- DecisionLevers.GetValueFromIndex requires a lever with at least one position. On an empty list the source reads `positions[0].value` of `undefined` and throws; that failure is not modelled as a result.
- Slider indices are integers. A fractional index falls back to position 0 in the source too, and is not modelled.
- `constraintLevers` and the `latencyTolerance` and `needsMultiRegion` levers feed no field of the requirements record, and no helper in the engine reads `constraintLevers`. The slider and capability tables are kept, but no requirement property is stated about those levers, and the constraint table is not modelled.
- Layers.GetLayerRequirements and Layers.GetLayerCapabilities return the layer's `requires` and `provides` unchanged. They are field reads with no contract of their own.
- The catalog's `requires` and `incompatibleWith` tags are not enforced by the composition, and the model does not enforce them either. `SamplingWithoutGateway` exhibits the gap.
- `getLayersByType` is modelled on the three group constants. The concrete per-category lever groups of the table are not computed in a lemma; the general filter lemmas cover them.

## Findings

| source | as written | input that shows it | evidently intended | confidence | as-written member | corrected member |
|---|---|---|---|---|---|---|
| src/data/components.ts:633-643 | `mapping[nodeType] \|\| null` on a plain object literal also finds the members every object inherits from `Object.prototype` | `nodeTypeToComponentId("toString")` returns the inherited `toString` function (truthy), not `null` | a component id for the six mapped node types and `null` for every other string | not executed; follows from JavaScript property lookup. Diagram node types never take these names, so callers in the engine are unaffected | Components.NodeTypeLookupAsWritten, Components.ToStringCounterexample | Components.NodeTypeToComponentId |
