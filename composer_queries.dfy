/**
 * The three read-only queries over a composed architecture: the one-line summary, whether
 * some layer provides a capability, and the list of every capability in first-seen order.
 *
 * They read only the architecture's edge, processing and buffering layers, so they take
 * those three values.
 */
module ComposerQueries {
  import opened Options
  import opened Text
  import opened Layers

  // ---------------------------------------------------------------------------
  // getArchitectureSummary
  // ---------------------------------------------------------------------------

  /** `map(l => l.name)`. */
  function Names(ls: seq<Layer>): (ns: seq<string>)
    ensures |ns| == |ls|
    ensures forall k :: 0 <= k < |ls| ==> ns[k] == ls[k].name
  {
    if ls == [] then [] else [ls[0].name] + Names(ls[1..])
  }

  /** The `Processing:` part: present when the active layer names join to a non-empty text. */
  function ProcessingPart(processing: seq<Layer>): Option<string>
  {
    var processingNames := Join(Names(ActiveProcessing(processing)), " \U{2192} ");
    if processingNames != "" then Some("Processing: " + processingNames) else None
  }

  /** The `Buffering:` part: present unless the buffering layer is the in-memory queue. */
  function BufferingPart(buffering: Layer): Option<string>
  {
    if buffering.id != "memory-queue" then Some("Buffering: " + buffering.name) else None
  }

  function PartList(p: Option<string>): seq<string>
  {
    if p.Some? then [p.value] else []
  }

  /** The pushed parts, in order: edge, then processing and buffering when present. */
  function SummaryParts(edge: seq<Layer>, processing: seq<Layer>, buffering: Layer): seq<string>
  {
    ["Edge: " + Join(Names(edge), " + ")] + PartList(ProcessingPart(processing)) + PartList(BufferingPart(buffering))
  }

  /** Joining a head with at most one optional part of each kind by ` | `. */
  lemma JoinOptionalParts(e: string, p: Option<string>, b: Option<string>)
    ensures Join([e] + PartList(p) + PartList(b), " | ")
            == e + (if p.Some? then " | " + p.value else "") + (if b.Some? then " | " + b.value else "")
  {
    var rest := PartList(p) + PartList(b);
    assert [e] + PartList(p) + PartList(b) == [e] + rest;
    if rest != [] {
      JoinCons(e, rest, " | ");
      if p.Some? && b.Some? {
        assert rest[..1] == [p.value];
      }
    }
  }

  /** `getArchitectureSummary`: the edge names joined by ` + `, then ` | ` and the processing part
      when there is one, then ` | ` and the `Buffering:` part unless the buffer is the in-memory queue. */
  function ArchitectureSummary(edge: seq<Layer>, processing: seq<Layer>, buffering: Layer): (s: string)
    ensures s == "Edge: " + Join(Names(edge), " + ")
                 + (if ProcessingPart(processing).Some? then " | " + ProcessingPart(processing).value else "")
                 + (if buffering.id != "memory-queue" then " | " + BufferingPart(buffering).value else "")
  {
    JoinOptionalParts("Edge: " + Join(Names(edge), " + "), ProcessingPart(processing), BufferingPart(buffering));
    Join(SummaryParts(edge, processing, buffering), " | ")
  }

  /** When every layer has a name, the processing part is omitted exactly when no layer other
      than the `none` sentinel is selected. */
  lemma ProcessingPartOmitted(processing: seq<Layer>)
    requires forall l :: l in processing ==> l.name != ""
    ensures ProcessingPart(processing).None? <==> forall l :: l in processing ==> l.id == "none"
  {
    var active := ActiveProcessing(processing);
    var names := Names(active);
    JoinEmpty(names, " \U{2192} ");
    if |names| == 1 {
      assert active[0] in active;
    }
    if active != [] {
      assert active[0] in active;
    }
  }

  /** The summary opens with the edge part; it has one part per present section, so the
      processing part is absent exactly when omitted and the buffering part exactly for
      a non-`memory-queue` layer. */
  lemma SummaryShape(edge: seq<Layer>, processing: seq<Layer>, buffering: Layer)
    ensures var s := ArchitectureSummary(edge, processing, buffering);
            var head := "Edge: " + Join(Names(edge), " + ");
            |s| >= |head| && s[..|head|] == head
    ensures |SummaryParts(edge, processing, buffering)|
            == 1 + (if ProcessingPart(processing).Some? then 1 else 0)
                 + (if buffering.id != "memory-queue" then 1 else 0)
    ensures BufferingPart(buffering).None? <==> buffering.id == "memory-queue"
  {
    var parts := SummaryParts(edge, processing, buffering);
    JoinStartsWithFirst(parts, " | ");
  }

  /** The catalog's processing layers all have names, so for them the processing part is
      omitted exactly when only the `none` sentinel was selected. */
  lemma CatalogProcessingPartOmitted(processing: seq<Layer>)
    requires forall l :: l in processing ==> l in processingLayers
    ensures ProcessingPart(processing).None? <==> forall l :: l in processing ==> l.id == "none"
  {
    ProcessingPartOmitted(processing);
  }

  // ---------------------------------------------------------------------------
  // architectureProvides
  // ---------------------------------------------------------------------------

  /** `[...edge, ...processing, buffering]`: the `none` sentinel is not filtered out here. */
  function QueryLayers(edge: seq<Layer>, processing: seq<Layer>, buffering: Layer): seq<Layer>
  {
    edge + processing + [buffering]
  }

  /** `some(layer => layer.provides.includes(c))`. */
  function AnyProvides(ls: seq<Layer>, c: string): (b: bool)
    ensures b <==> exists l :: l in ls && c in l.providedTags
  {
    if ls == [] then false
    else c in ls[0].providedTags || (assert forall l :: l in ls[1..] ==> l in ls; AnyProvides(ls[1..], c))
  }

  /** `architectureProvides`: some edge layer, some processing layer (the `none` sentinel
      included) or the buffering layer lists the capability. */
  function ArchitectureProvides(edge: seq<Layer>, processing: seq<Layer>, buffering: Layer, c: string): (b: bool)
    ensures b <==> (exists l :: l in edge && c in l.providedTags)
                   || (exists l :: l in processing && c in l.providedTags)
                   || c in buffering.providedTags
  {
    AnyProvides(QueryLayers(edge, processing, buffering), c)
  }

  // ---------------------------------------------------------------------------
  // getArchitectureCapabilities
  // ---------------------------------------------------------------------------

  /** Every provided tag of `ls`, layer by layer, duplicates kept. */
  function AllProvides(ls: seq<Layer>): seq<string>
  {
    if ls == [] then [] else AllProvides(ls[..|ls| - 1]) + ls[|ls| - 1].providedTags
  }

  lemma {:induction false} AllProvidesMember(ls: seq<Layer>, c: string)
    ensures c in AllProvides(ls) <==> exists l :: l in ls && c in l.providedTags
    decreases |ls|
  {
    if ls != [] {
      var init := ls[..|ls| - 1];
      AllProvidesMember(init, c);
      assert ls == init + [ls[|ls| - 1]];
    }
  }

  /** Insertion into a JavaScript `Set`, read back with `Array.from`: each value once, at its first insertion. */
  function Dedup(xs: seq<string>): seq<string>
  {
    if xs == [] then []
    else
      var d := Dedup(xs[..|xs| - 1]);
      if xs[|xs| - 1] in d then d else d + [xs[|xs| - 1]]
  }

  predicate Distinct(xs: seq<string>)
  {
    forall i, j :: 0 <= i < j < |xs| ==> xs[i] != xs[j]
  }

  /** The position of the first occurrence of `x` in `xs`. */
  function FirstIndex(xs: seq<string>, x: string): (k: nat)
    requires x in xs
    ensures k < |xs| && xs[k] == x
    ensures forall j :: 0 <= j < k ==> xs[j] != x
  {
    if xs[0] == x then 0 else 1 + FirstIndex(xs[1..], x)
  }

  /** The first occurrence of a value is unaffected by appending. */
  lemma FirstIndexAppend(xs: seq<string>, ys: seq<string>, x: string)
    requires x in xs
    ensures x in xs + ys && FirstIndex(xs + ys, x) == FirstIndex(xs, x)
  {
    var k := FirstIndex(xs, x);
    var k' := FirstIndex(xs + ys, x);
    assert (xs + ys)[k] == x;
    assert forall j :: 0 <= j < k ==> (xs + ys)[j] == xs[j];
  }

  /** `Dedup` keeps each value exactly once, keeps exactly the values of its input, and orders
      them by their first occurrence in the input. */
  lemma {:induction false} DedupFacts(xs: seq<string>)
    ensures Distinct(Dedup(xs))
    ensures forall x :: x in Dedup(xs) <==> x in xs
    ensures forall i, j :: 0 <= i < j < |Dedup(xs)| ==>
              FirstIndex(xs, Dedup(xs)[i]) < FirstIndex(xs, Dedup(xs)[j])
    decreases |xs|
  {
    if xs != [] {
      var init := xs[..|xs| - 1];
      var last := xs[|xs| - 1];
      assert xs == init + [last];
      DedupFacts(init);
      var d := Dedup(init);
      forall x | x in init ensures FirstIndex(xs, x) == FirstIndex(init, x) {
        FirstIndexAppend(init, [last], x);
      }
      if last !in d {
        assert last !in init;
        assert FirstIndex(xs, last) == |init|;
        forall i | 0 <= i < |d| ensures FirstIndex(xs, d[i]) < |init| {
          assert d[i] in init;
        }
      }
    }
  }

  /** The capability list of an architecture: each tag some layer provides, exactly once. */
  function Capabilities(edge: seq<Layer>, processing: seq<Layer>, buffering: Layer): (caps: seq<string>)
    ensures Distinct(caps)
    ensures forall c :: c in caps <==> c in AllProvides(QueryLayers(edge, processing, buffering))
  {
    DedupFacts(AllProvides(QueryLayers(edge, processing, buffering)));
    Dedup(AllProvides(QueryLayers(edge, processing, buffering)))
  }

  /** An architecture provides a capability exactly when it appears in its capability list. */
  lemma ProvidesIffListed(edge: seq<Layer>, processing: seq<Layer>, buffering: Layer, c: string)
    ensures ArchitectureProvides(edge, processing, buffering, c) <==> c in Capabilities(edge, processing, buffering)
  {
    var ls := QueryLayers(edge, processing, buffering);
    AllProvidesMember(ls, c);
    DedupFacts(AllProvides(ls));
  }

  /** Inserting one more value. */
  lemma DedupSnoc(xs: seq<string>, x: string)
    ensures Dedup(xs + [x]) == if x in Dedup(xs) then Dedup(xs) else Dedup(xs) + [x]
  {
    assert (xs + [x])[..|xs|] == xs;
  }

  /** Collecting one more layer's tags. */
  lemma AllProvidesSnoc(ls: seq<Layer>, i: nat)
    requires i < |ls|
    ensures AllProvides(ls[..i + 1]) == AllProvides(ls[..i]) + ls[i].providedTags
  {
    assert ls[..i + 1][..i] == ls[..i];
  }

  /** `getArchitectureCapabilities`: a set filled layer by layer, tag by tag, read back in insertion order. */
  method GetArchitectureCapabilities(edge: seq<Layer>, processing: seq<Layer>, buffering: Layer)
    returns (caps: seq<string>)
    ensures caps == Capabilities(edge, processing, buffering)
  {
    var allLayers := edge + processing + [buffering];
    var capabilities: set<string> := {};
    caps := [];
    var i := 0;
    while i < |allLayers|
      invariant 0 <= i <= |allLayers|
      invariant caps == Dedup(AllProvides(allLayers[..i]))
      invariant forall x :: x in capabilities <==> x in caps
    {
      var tags := allLayers[i].providedTags;
      ghost var before := AllProvides(allLayers[..i]);
      var j := 0;
      assert before + tags[..0] == before;
      while j < |tags|
        invariant 0 <= j <= |tags|
        invariant caps == Dedup(before + tags[..j])
        invariant forall x :: x in capabilities <==> x in caps
      {
        assert before + tags[..j + 1] == (before + tags[..j]) + [tags[j]];
        DedupSnoc(before + tags[..j], tags[j]);
        if tags[j] !in capabilities {
          capabilities := capabilities + {tags[j]};
          caps := caps + [tags[j]];
        }
        j := j + 1;
      }
      AllProvidesSnoc(allLayers, i);
      assert tags[..j] == tags;
      i := i + 1;
    }
    assert allLayers[..i] == allLayers;
    assert allLayers == QueryLayers(edge, processing, buffering);
  }
}
