/**
 * The decision levers: three-position sliders (volume, latency tolerance, loss policy),
 * the capability toggles grouped by category, and the helpers that map between a slider's
 * position index and its value.
 *
 * Descriptions, impact texts and icons are display text and are left out.
 */
module DecisionLevers {

  /** A slider value is a number or a string; JavaScript's `===` never equates the two kinds. */
  datatype LeverValue = Num(n: int) | Str(s: string)

  datatype Position = Position(value: LeverValue, caption: string)

  datatype ThreePositionLever = ThreePositionLever(id: string, name: string, positions: seq<Position>)

  datatype Category = AppCollection | InfraCollection | Processing | Routing

  datatype CapabilityLever = CapabilityLever(id: string, name: string, category: Category, isCollector: bool)

  // ---------------------------------------------------------------------------
  // The lever tables
  // ---------------------------------------------------------------------------

  const DataVolumeLever := ThreePositionLever("dataVolume", "Data Volume",
    [Position(Num(0), "Low"), Position(Num(50), "Medium"), Position(Num(100), "High")])

  const LatencyToleranceLever := ThreePositionLever("latencyTolerance", "Latency Tolerance",
    [Position(Num(0), "Real-time"), Position(Num(50), "Near real-time"), Position(Num(100), "Batch OK")])

  const scaleLevers: seq<ThreePositionLever> := [DataVolumeLever, LatencyToleranceLever]

  const resilienceLever := ThreePositionLever("dataLossPolicy", "Data Resilience",
    [Position(Str("acceptable"), "Some Loss OK"), Position(Str("minimize"), "Minimize Loss"),
     Position(Str("zero"), "Zero Loss")])

  /** The capability toggles, in the table's four runs: application collection, infrastructure
      collection, processing, routing. */
  const appCollectionLevers: seq<CapabilityLever> := [
    CapabilityLever("needsAppLogs", "Application Logs", AppCollection, false),
    CapabilityLever("needsAppTraces", "Application Traces", AppCollection, false),
    CapabilityLever("needsAppMetrics", "Application Metrics", AppCollection, false)
  ]

  const infraCollectionLevers: seq<CapabilityLever> := [
    CapabilityLever("needsInfraLogs", "Infrastructure Logs", InfraCollection, true),
    CapabilityLever("needsInfraMetrics", "Infrastructure Metrics", InfraCollection, true)
  ]

  const processingLevers: seq<CapabilityLever> := [
    CapabilityLever("needsCentralPolicy", "Central Policy", Processing, true),
    CapabilityLever("needsTailSampling", "Tail Sampling", Processing, true)
  ]

  const routingLevers: seq<CapabilityLever> := [
    CapabilityLever("needsMultiBackend", "Multiple Backends", Routing, true),
    CapabilityLever("needsMultiRegion", "Multi-Region", Routing, true)
  ]

  const capabilityLevers: seq<CapabilityLever> :=
    appCollectionLevers + infraCollectionLevers + processingLevers + routingLevers

  // ---------------------------------------------------------------------------
  // Capability helpers
  // ---------------------------------------------------------------------------

  /** `map(l => l.id)`. */
  function Ids(ls: seq<CapabilityLever>): (ids: seq<string>)
    ensures |ids| == |ls|
    ensures forall k :: 0 <= k < |ls| ==> ids[k] == ls[k].id
  {
    if ls == [] then [] else [ls[0].id] + Ids(ls[1..])
  }

  /** `getCapabilityIds`: one id per toggle, in table order. */
  function GetCapabilityIds(): (ids: seq<string>)
    ensures |ids| == |capabilityLevers|
    ensures forall k :: 0 <= k < |capabilityLevers| ==> ids[k] == capabilityLevers[k].id
  {
    Ids(capabilityLevers)
  }

  /** Length and sixth character tell the capability ids apart. */
  function IdKey(id: string): (int, char)
  {
    (|id|, if |id| > 5 then id[5] else ' ')
  }

  /** The capability ids are pairwise distinct. */
  lemma CapabilityIdsDistinct()
    ensures forall i, j :: 0 <= i < j < |GetCapabilityIds()| ==> GetCapabilityIds()[i] != GetCapabilityIds()[j]
  {
    var ids := GetCapabilityIds();
    var keys := seq(|ids|, k requires 0 <= k < |ids| => IdKey(ids[k]));
    assert keys == [(12, 'A'), (14, 'A'), (15, 'A'), (14, 'I'), (17, 'I'), (18, 'C'), (17, 'T'), (17, 'M'), (16, 'M')];
    forall i, j | 0 <= i < j < |ids| ensures ids[i] != ids[j] {
      assert keys[i] != keys[j];
    }
  }

  /** `filter(l => l.category === category)`. */
  function FilterCategory(ls: seq<CapabilityLever>, c: Category): (r: seq<CapabilityLever>)
    ensures |r| <= |ls|
  {
    if ls == [] then []
    else (if ls[0].category == c then [ls[0]] else []) + FilterCategory(ls[1..], c)
  }

  /** The filter keeps exactly the toggles of category `c`. */
  lemma {:induction false} FilterCategoryMember(ls: seq<CapabilityLever>, c: Category)
    ensures forall l :: l in FilterCategory(ls, c) <==> l in ls && l.category == c
    decreases |ls|
  {
    if ls != [] {
      FilterCategoryMember(ls[1..], c);
      assert ls == [ls[0]] + ls[1..];
    }
  }

  /** Filtering a concatenation filters each half, so the order of the table is kept. */
  lemma {:induction false} FilterCategoryAppend(a: seq<CapabilityLever>, b: seq<CapabilityLever>, c: Category)
    ensures FilterCategory(a + b, c) == FilterCategory(a, c) + FilterCategory(b, c)
    decreases |a|
  {
    if a == [] {
      assert a + b == b;
    } else {
      assert (a + b)[0] == a[0] && (a + b)[1..] == a[1..] + b;
      FilterCategoryAppend(a[1..], b, c);
    }
  }

  /** The four categories split any list: their filters' lengths add up to its length. */
  lemma {:induction false} CategoriesPartition(ls: seq<CapabilityLever>)
    ensures |FilterCategory(ls, AppCollection)| + |FilterCategory(ls, InfraCollection)|
            + |FilterCategory(ls, Processing)| + |FilterCategory(ls, Routing)| == |ls|
    decreases |ls|
  {
    if ls != [] {
      CategoriesPartition(ls[1..]);
    }
  }

  /** `getCapabilitiesByCategory`. */
  function GetCapabilitiesByCategory(c: Category): (ls: seq<CapabilityLever>)
    ensures forall l :: l in ls <==> l in capabilityLevers && l.category == c
  {
    FilterCategoryMember(capabilityLevers, c);
    FilterCategory(capabilityLevers, c)
  }

  /** A category's toggles are exactly the table's toggles of that category, and the four
      categories together account for every toggle. */
  lemma CapabilitiesByCategoryExact(c: Category)
    ensures forall l :: l in GetCapabilitiesByCategory(c) <==> l in capabilityLevers && l.category == c
    ensures |GetCapabilitiesByCategory(AppCollection)| + |GetCapabilitiesByCategory(InfraCollection)|
            + |GetCapabilitiesByCategory(Processing)| + |GetCapabilitiesByCategory(Routing)| == |capabilityLevers|
  {
    FilterCategoryMember(capabilityLevers, c);
    CategoriesPartition(capabilityLevers);
  }

  // ---------------------------------------------------------------------------
  // Slider helpers
  // ---------------------------------------------------------------------------

  /** `findIndex(p => p.value === v)`: the first matching position, or -1. */
  function FindValue(ps: seq<Position>, v: LeverValue): (k: int)
    ensures -1 <= k < |ps|
    ensures k >= 0 ==> ps[k].value == v && forall j :: 0 <= j < k ==> ps[j].value != v
    ensures k == -1 <==> forall j :: 0 <= j < |ps| ==> ps[j].value != v
  {
    if ps == [] then -1
    else if ps[0].value == v then 0
    else
      var k := FindValue(ps[1..], v);
      if k == -1 then -1 else k + 1
  }

  /** `getPositionIndex`: the first position holding the value, falling back to 0. */
  function GetPositionIndex(lever: ThreePositionLever, v: LeverValue): (k: nat)
    ensures |lever.positions| > 0 ==> k < |lever.positions|
    ensures (exists j :: 0 <= j < |lever.positions| && lever.positions[j].value == v) ==>
              lever.positions[k].value == v && forall j :: 0 <= j < k ==> lever.positions[j].value != v
    ensures (forall j :: 0 <= j < |lever.positions| ==> lever.positions[j].value != v) ==> k == 0
  {
    var idx := FindValue(lever.positions, v);
    if idx >= 0 then idx else 0
  }

  /** `getValueFromIndex`: the value at the index, or the first position's for an index out of
      range. The lookup of the first position fails on a lever with no positions. */
  function GetValueFromIndex(lever: ThreePositionLever, index: int): (v: LeverValue)
    requires |lever.positions| > 0
    ensures 0 <= index < |lever.positions| ==> v == lever.positions[index].value
    ensures !(0 <= index < |lever.positions|) ==> v == lever.positions[0].value
    ensures exists j :: 0 <= j < |lever.positions| && lever.positions[j].value == v
  {
    if 0 <= index < |lever.positions| then lever.positions[index].value else lever.positions[0].value
  }

  predicate DistinctValues(lever: ThreePositionLever)
  {
    forall i, j :: 0 <= i < j < |lever.positions| ==> lever.positions[i].value != lever.positions[j].value
  }

  /** Index to value and back returns the index, when the lever's values are distinct. */
  lemma IndexRoundTrip(lever: ThreePositionLever, i: int)
    requires DistinctValues(lever)
    requires 0 <= i < |lever.positions|
    ensures GetPositionIndex(lever, GetValueFromIndex(lever, i)) == i
  {
    assert lever.positions[i].value == GetValueFromIndex(lever, i);
  }

  /** Value to index and back returns the value, for any value some position holds. */
  lemma ValueRoundTrip(lever: ThreePositionLever, v: LeverValue)
    requires exists j :: 0 <= j < |lever.positions| && lever.positions[j].value == v
    ensures GetValueFromIndex(lever, GetPositionIndex(lever, v)) == v
  {
  }

  /** An index out of range falls back to the first position's value, which maps back to index 0. */
  lemma OutOfRangeFallsBack(lever: ThreePositionLever, i: int)
    requires |lever.positions| > 0 && !(0 <= i < |lever.positions|)
    ensures GetValueFromIndex(lever, i) == lever.positions[0].value
    ensures GetPositionIndex(lever, GetValueFromIndex(lever, i)) == 0
  {
  }

  /** The defined sliders have three positions with distinct values, so both round trips hold for them. */
  lemma DefinedLeversDistinct()
    ensures forall l :: l in scaleLevers + [resilienceLever] ==> |l.positions| == 3 && DistinctValues(l)
  {
  }
}
