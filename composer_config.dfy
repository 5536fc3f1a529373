/**
 * Stage 7 of the composition: merging the configuration fragments of the active layers
 * into at most one text block per kind (agent, gateway, kubernetes).
 *
 * A fragment is used when it is present and non-empty (JavaScript truthiness); each used
 * fragment gets a `# === <layer name> ===` header, and the pieces of one kind are joined
 * by a blank line. A kind nobody supplies is absent from the result.
 */
module ComposerConfig {
  import opened Options
  import opened Text
  import opened Layers

  datatype SnippetKind = AgentKind | GatewayKind | KubernetesKind

  /** The merged blocks; an absent block is `None` (`undefined` in the source). */
  datatype MergedConfig = MergedConfig(agent: Option<string>, gateway: Option<string>, kubernetes: Option<string>)

  function Fragment(l: Layer, k: SnippetKind): Option<string>
  {
    match k
    case AgentKind => l.configSnippets.agent
    case GatewayKind => l.configSnippets.gateway
    case KubernetesKind => l.configSnippets.kubernetes
  }

  function Block(c: MergedConfig, k: SnippetKind): Option<string>
  {
    match k
    case AgentKind => c.agent
    case GatewayKind => c.gateway
    case KubernetesKind => c.kubernetes
  }

  /** The layer supplies a fragment of this kind: present and not the empty string. */
  predicate Supplies(l: Layer, k: SnippetKind)
  {
    Fragment(l, k).Some? && Fragment(l, k).value != ""
  }

  const PieceSeparator := "\n\n"

  /** One fragment under its layer's header. */
  function Piece(l: Layer, k: SnippetKind): (s: string)
    requires Supplies(l, k)
    ensures |s| > 6 && s[..6] == "# === "
  {
    "# === " + l.name + " ===\n" + Fragment(l, k).value
  }

  /** The pieces of kind `k` supplied by `ls`, in order. */
  function Pieces(ls: seq<Layer>, k: SnippetKind): seq<string>
    decreases |ls|
  {
    if ls == [] then []
    else
      var last := ls[|ls| - 1];
      Pieces(ls[..|ls| - 1], k) + (if Supplies(last, k) then [Piece(last, k)] else [])
  }

  /** There are no pieces exactly when no layer supplies the kind; every piece is a supplying layer's. */
  lemma {:induction false} PiecesFacts(ls: seq<Layer>, k: SnippetKind)
    ensures |Pieces(ls, k)| <= |ls|
    ensures Pieces(ls, k) == [] <==> forall l :: l in ls ==> !Supplies(l, k)
    ensures forall p :: p in Pieces(ls, k) ==> exists l :: l in ls && Supplies(l, k) && p == Piece(l, k)
    decreases |ls|
  {
    if ls != [] {
      var init := ls[..|ls| - 1];
      var last := ls[|ls| - 1];
      assert ls == init + [last];
      PiecesFacts(init, k);
    }
  }

  /** Collecting from `a` then from `b` is collecting from `a + b`. */
  lemma {:induction false} PiecesAppend(a: seq<Layer>, b: seq<Layer>, k: SnippetKind)
    ensures Pieces(a + b, k) == Pieces(a, k) + Pieces(b, k)
    decreases |b|
  {
    if b == [] {
      assert a + b == a;
    } else {
      var b' := b[..|b| - 1];
      assert (a + b)[..|a + b| - 1] == a + b';
      PiecesAppend(a, b', k);
    }
  }

  /** The layers whose fragments are merged, in order: edge layers, active processing layers, buffering. */
  function Contributors(edge: seq<Layer>, processing: seq<Layer>, buffering: Layer): seq<Layer>
  {
    edge + ActiveProcessing(processing) + [buffering]
  }

  /** One merged block: the pieces joined by a blank line, or absent when there are none. */
  function MergeKind(ls: seq<Layer>, k: SnippetKind): Option<string>
  {
    var ps := Pieces(ls, k);
    if |ps| > 0 then Some(Join(ps, PieceSeparator)) else None
  }

  /** The merged configuration of an architecture. */
  function MergedConfigOf(edge: seq<Layer>, processing: seq<Layer>, buffering: Layer): MergedConfig
  {
    var ls := Contributors(edge, processing, buffering);
    MergedConfig(MergeKind(ls, AgentKind), MergeKind(ls, GatewayKind), MergeKind(ls, KubernetesKind))
  }

  /** The pieces of the contributors are those of the edge layers, the active processing layers
      and the buffering layer, in that order. */
  lemma ContributorPieces(edge: seq<Layer>, processing: seq<Layer>, buffering: Layer, k: SnippetKind)
    ensures Pieces(Contributors(edge, processing, buffering), k)
            == Pieces(edge, k) + Pieces(ActiveProcessing(processing), k) + Pieces([buffering], k)
  {
    PiecesAppend(edge, ActiveProcessing(processing), k);
    PiecesAppend(edge + ActiveProcessing(processing), [buffering], k);
  }

  /** A block is absent exactly when no contributing layer supplies that kind; a present block is
      the ordered pieces of the edge layers, then the active processing layers, then the buffering
      layer, joined by blank lines, and it opens with a `# === ` header. */
  lemma MergedBlock(edge: seq<Layer>, processing: seq<Layer>, buffering: Layer, k: SnippetKind)
    ensures var b := Block(MergedConfigOf(edge, processing, buffering), k);
            && (b.None? <==> forall l :: l in Contributors(edge, processing, buffering) ==> !Supplies(l, k))
            && (b.Some? ==> b.value == Join(Pieces(edge, k) + Pieces(ActiveProcessing(processing), k)
                                             + Pieces([buffering], k), PieceSeparator))
            && (b.Some? ==> |b.value| >= 6 && b.value[..6] == "# === ")
  {
    ContributorPieces(edge, processing, buffering, k);
    PiecesFacts(Contributors(edge, processing, buffering), k);
    var ps := Pieces(Contributors(edge, processing, buffering), k);
    if |ps| > 0 {
      JoinStartsWithFirst(ps, PieceSeparator);
      assert ps[0] in ps;
      assert Join(ps, PieceSeparator)[..6] == ps[0][..6];
    }
  }

  // ---------------------------------------------------------------------------
  // The stage as the source performs it
  // ---------------------------------------------------------------------------

  /** Pushes the layer's pieces onto the three lists collected from the layers `done`. */
  method CollectFrom(ghost done: seq<Layer>, agent: seq<string>, gateway: seq<string>, kubernetes: seq<string>,
                     layer: Layer)
    returns (agent': seq<string>, gateway': seq<string>, kubernetes': seq<string>)
    requires agent == Pieces(done, AgentKind) && gateway == Pieces(done, GatewayKind)
    requires kubernetes == Pieces(done, KubernetesKind)
    ensures agent' == Pieces(done + [layer], AgentKind)
    ensures gateway' == Pieces(done + [layer], GatewayKind)
    ensures kubernetes' == Pieces(done + [layer], KubernetesKind)
  {
    assert (done + [layer])[..|done|] == done;
    agent', gateway', kubernetes' := agent, gateway, kubernetes;
    var c := layer.configSnippets;
    if c.agent.Some? && c.agent.value != "" {
      agent' := agent' + ["# === " + layer.name + " ===\n" + c.agent.value];
    }
    if c.gateway.Some? && c.gateway.value != "" {
      gateway' := gateway' + ["# === " + layer.name + " ===\n" + c.gateway.value];
    }
    if c.kubernetes.Some? && c.kubernetes.value != "" {
      kubernetes' := kubernetes' + ["# === " + layer.name + " ===\n" + c.kubernetes.value];
    }
  }

  /** Pushes the pieces of every layer of `ls`, in order. */
  method CollectFromAll(ghost done: seq<Layer>, agent: seq<string>, gateway: seq<string>, kubernetes: seq<string>,
                        ls: seq<Layer>)
    returns (agent': seq<string>, gateway': seq<string>, kubernetes': seq<string>)
    requires agent == Pieces(done, AgentKind) && gateway == Pieces(done, GatewayKind)
    requires kubernetes == Pieces(done, KubernetesKind)
    ensures agent' == Pieces(done + ls, AgentKind)
    ensures gateway' == Pieces(done + ls, GatewayKind)
    ensures kubernetes' == Pieces(done + ls, KubernetesKind)
  {
    agent', gateway', kubernetes' := agent, gateway, kubernetes;
    var i := 0;
    assert done + ls[..0] == done;
    while i < |ls|
      invariant 0 <= i <= |ls|
      invariant agent' == Pieces(done + ls[..i], AgentKind)
      invariant gateway' == Pieces(done + ls[..i], GatewayKind)
      invariant kubernetes' == Pieces(done + ls[..i], KubernetesKind)
    {
      agent', gateway', kubernetes' := CollectFrom(done + ls[..i], agent', gateway', kubernetes', ls[i]);
      assert done + ls[..i + 1] == (done + ls[..i]) + [ls[i]];
      i := i + 1;
    }
    assert ls[..i] == ls;
  }

  /** The collection half of `mergeConfigSnippets`: edge layers, active processing layers, then buffering. */
  method CollectPieces(edge: seq<Layer>, processing: seq<Layer>, buffering: Layer)
    returns (agent: seq<string>, gateway: seq<string>, kubernetes: seq<string>)
    ensures agent == Pieces(Contributors(edge, processing, buffering), AgentKind)
    ensures gateway == Pieces(Contributors(edge, processing, buffering), GatewayKind)
    ensures kubernetes == Pieces(Contributors(edge, processing, buffering), KubernetesKind)
  {
    agent, gateway, kubernetes := CollectFromAll([], [], [], [], edge);
    assert [] + edge == edge;
    var active := ActiveProcessing(processing);
    agent, gateway, kubernetes := CollectFromAll(edge, agent, gateway, kubernetes, active);
    agent, gateway, kubernetes := CollectFrom(edge + active, agent, gateway, kubernetes, buffering);
  }

  /** The `mergeConfigSnippets` stage. */
  method MergeConfigSnippets(edge: seq<Layer>, processing: seq<Layer>, buffering: Layer) returns (c: MergedConfig)
    ensures c == MergedConfigOf(edge, processing, buffering)
  {
    var agent, gateway, kubernetes := CollectPieces(edge, processing, buffering);
    c := MergedConfig(
      if |agent| > 0 then Some(Join(agent, "\n\n")) else None,
      if |gateway| > 0 then Some(Join(gateway, "\n\n")) else None,
      if |kubernetes| > 0 then Some(Join(kubernetes, "\n\n")) else None);
  }
}
