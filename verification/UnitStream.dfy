// A request read as the stream of its units. The two flags keep the tree: a unit opens its scope, its metric, or
// neither.
module UnitStream {
  import opened MetricData
  import opened Sums
  import opened SizeEstimate

  datatype Item = Item(scope: Scope, metric: Metrics, unit: Unit, opensScope: bool, opensMetric: bool)

  /** A metric without its points: what every slice of it repeats. */
  function Shell(m: Metrics): Metrics {
    m.(data := match m.data
               case Gauge(_) => Gauge([])
               case Sum(_, temporality, monotonic) => Sum([], temporality, monotonic)
               case Histogram(_, temporality) => Histogram([], temporality)
               case whole => whole)
  }

  function MetricItems(scope: Scope, m: Metrics): (items: seq<Item>)
    ensures |items| == |Units(m.data)|
  {
    var units := Units(m.data);
    seq(|units|, i requires 0 <= i < |units| => Item(scope, Shell(m), units[i], false, i == 0))
  }

  /** The stream of part of a request, sent on its own: its first unit opens both a scope and a metric. */
  function Restart(items: seq<Item>): (r: seq<Item>)
    ensures |r| == |items|
  {
    if items == [] then [] else [items[0].(opensScope := true, opensMetric := true)] + items[1..]
  }

  function OpenScope(items: seq<Item>): (r: seq<Item>)
    ensures |r| == |items|
  {
    if items == [] then [] else [items[0].(opensScope := true)] + items[1..]
  }

  /** The units of a scope before its first unit is marked as opening it. */
  function BareItems(scope: Scope, metrics: seq<Metrics>): seq<Item> {
    if metrics == [] then [] else MetricItems(scope, metrics[0]) + BareItems(scope, metrics[1..])
  }

  function ScopeItems(sm: ScopeMetrics): seq<Item> {
    OpenScope(BareItems(sm.scope, sm.metrics))
  }

  function Items(scopes: seq<ScopeMetrics>): seq<Item> {
    FlatMap(ScopeItems, scopes)
  }

  lemma {:induction false} BareItemsSnoc(scope: Scope, ms: seq<Metrics>, m: Metrics)
    ensures BareItems(scope, ms + [m]) == BareItems(scope, ms) + MetricItems(scope, m)
  {
    hide MetricItems;
    if ms == [] {
      assert ms + [m] == [m];
      assert BareItems(scope, [m]) == MetricItems(scope, m) + BareItems(scope, [m][1..]);
    } else {
      BareItemsSnoc(scope, ms[1..], m);
      assert (ms + [m])[0] == ms[0] && (ms + [m])[1..] == ms[1..] + [m];
      Assoc(MetricItems(scope, ms[0]), BareItems(scope, ms[1..]), MetricItems(scope, m));
    }
  }

  // ---- What a contiguous run of units costs as one request ----

  function ItemCost(it: Item): nat {
    UnitSize(it.unit) + (if it.opensMetric then MetricHeader(it.metric) else 0) +
    (if it.opensScope then ScopeHeader(it.scope) else 0)
  }

  function Cost(resource: Resource, part: seq<Item>): nat {
    ResourceHeader(resource) + SumBy(ItemCost, Restart(part))
  }

  // ---- Streams that come from a tree are coherent ----

  /** A unit that does not open a metric (scope) shares it with the unit before. */
  predicate Follows(prev: Item, next: Item) {
    && (!next.opensMetric ==> next.metric == prev.metric && !next.opensScope)
    && (!next.opensScope ==> next.scope == prev.scope)
  }

  predicate Coherent(items: seq<Item>) {
    forall i | 0 < i < |items| :: Follows(items[i - 1], items[i])
  }

  lemma {:induction false} CoherentConcat(a: seq<Item>, b: seq<Item>)
    requires Coherent(a) && Coherent(b)
    requires a != [] && b != [] ==> Follows(a[|a| - 1], b[0])
    ensures Coherent(a + b)
  {
    forall i | 0 < i < |a + b|
      ensures Follows((a + b)[i - 1], (a + b)[i])
    {
      if i > |a| {
        assert Follows(b[i - |a| - 1], b[i - |a|]);
      }
    }
  }

  lemma {:induction false} BareItemsCoherent(scope: Scope, metrics: seq<Metrics>)
    ensures Coherent(BareItems(scope, metrics))
    ensures forall it | it in BareItems(scope, metrics) :: it.scope == scope && !it.opensScope
    ensures BareItems(scope, metrics) != [] ==> BareItems(scope, metrics)[0].opensMetric
  {
    if metrics != [] {
      var head, tail := MetricItems(scope, metrics[0]), BareItems(scope, metrics[1..]);
      BareItemsCoherent(scope, metrics[1..]);
      assert tail != [] ==> tail[0] in tail;
      CoherentConcat(head, tail);
    }
  }

  lemma {:induction false} ScopeItemsCoherent(sm: ScopeMetrics)
    ensures Coherent(ScopeItems(sm))
    ensures ScopeItems(sm) != [] ==> ScopeItems(sm)[0].opensScope && ScopeItems(sm)[0].opensMetric
  {
    var bare, items := BareItems(sm.scope, sm.metrics), ScopeItems(sm);
    BareItemsCoherent(sm.scope, sm.metrics);
    forall i | 0 < i < |items|
      ensures Follows(items[i - 1], items[i])
    {
      assert Follows(bare[i - 1], bare[i]);
    }
  }

  lemma {:induction false} ItemsCoherent(scopes: seq<ScopeMetrics>)
    ensures Coherent(Items(scopes))
    ensures Items(scopes) != [] ==> Items(scopes)[0].opensScope && Items(scopes)[0].opensMetric
  {
    hide ScopeItems;
    if scopes != [] {
      ScopeItemsCoherent(scopes[0]);
      ItemsCoherent(scopes[1..]);
      CoherentConcat(ScopeItems(scopes[0]), Items(scopes[1..]));
    }
  }

  // ---- The cost of a tree is the cost of its stream ----

  predicate FullScope(sm: ScopeMetrics) {
    sm.metrics != [] && forall m | m in sm.metrics :: Units(m.data) != []
  }

  /** No metric without units and no scope without metrics. */
  predicate Full(scopes: seq<ScopeMetrics>) {
    forall sm | sm in scopes :: FullScope(sm)
  }

  function SizeOf(it: Item): nat { UnitSize(it.unit) }

  lemma {:induction false} SizesOfItems(scope: Scope, m: Metrics, k: nat)
    requires k <= |Units(m.data)|
    ensures SumBy(SizeOf, MetricItems(scope, m)[..k]) == SumBy(UnitSize, Units(m.data)[..k])
    decreases k
  {
    if k > 0 {
      SizesOfItems(scope, m, k - 1);
      SumBySnoc(SizeOf, MetricItems(scope, m), k - 1);
      SumBySnoc(UnitSize, Units(m.data), k - 1);
    }
  }

  lemma {:induction false} PlainCost(items: seq<Item>)
    requires forall it | it in items :: !it.opensMetric && !it.opensScope
    ensures SumBy(ItemCost, items) == SumBy(SizeOf, items)
  {
    if items != [] {
      PlainCost(items[1..]);
    }
  }

  /** The header bytes of a metric that contributes no unit. */
  function DroppedHeader(m: Metrics): nat {
    if Units(m.data) == [] then MetricHeader(m) else 0
  }

  /** The header bytes of a scope: its own if it contributes no unit, and those of its metrics without units. */
  function DroppedInScope(sm: ScopeMetrics): nat {
    (if ScopeItems(sm) == [] then ScopeHeader(sm.scope) else 0) + SumBy(DroppedHeader, sm.metrics)
  }

  /** The header bytes that the stream of a tree leaves behind. */
  function Dropped(scopes: seq<ScopeMetrics>): nat {
    SumBy(DroppedInScope, scopes)
  }

  lemma {:induction false} MetricCost(scope: Scope, m: Metrics)
    ensures SumBy(ItemCost, MetricItems(scope, m)) + DroppedHeader(m) == MetricEstimate(m)
  {
    var items := MetricItems(scope, m);
    if items != [] {
      assert items[0].opensMetric && !items[0].opensScope;
      assert items[0].metric == Shell(m);
      assert MetricHeader(Shell(m)) == MetricHeader(m);
      assert ItemCost(items[0]) == UnitSize(items[0].unit) + MetricHeader(m);
      assert SumBy(ItemCost, items) == ItemCost(items[0]) + SumBy(ItemCost, items[1..]);
      PlainCost(items[1..]);
      assert SumBy(SizeOf, items) == UnitSize(items[0].unit) + SumBy(SizeOf, items[1..]);
      SizesOfItems(scope, m, |items|);
      assert items[..|items|] == items && Units(m.data)[..|items|] == Units(m.data);
    }
  }

  lemma {:induction false} BareCost(scope: Scope, metrics: seq<Metrics>)
    ensures SumBy(ItemCost, BareItems(scope, metrics)) + SumBy(DroppedHeader, metrics) == SumBy(MetricEstimate, metrics)
  {
    hide MetricItems, MetricEstimate, DroppedHeader, ItemCost;
    if metrics != [] {
      MetricCost(scope, metrics[0]);
      BareCost(scope, metrics[1..]);
      SumByAppend(ItemCost, MetricItems(scope, metrics[0]), BareItems(scope, metrics[1..]));
    }
  }

  lemma {:induction false} ScopeCost(sm: ScopeMetrics)
    ensures SumBy(ItemCost, ScopeItems(sm)) + DroppedInScope(sm) == ScopeEstimate(sm)
  {
    hide MetricEstimate, DroppedHeader, MetricHeader, UnitSize, ScopeHeader;
    var bare := BareItems(sm.scope, sm.metrics);
    BareCost(sm.scope, sm.metrics);
    if bare != [] {
      BareItemsCoherent(sm.scope, sm.metrics);
      assert bare[0] in bare && bare[0].scope == sm.scope && !bare[0].opensScope;
      assert ScopeItems(sm)[1..] == bare[1..];
    }
  }

  /** The estimate of a tree is the cost of its stream and the headers the stream leaves behind. */
  lemma {:induction false} TreeCost(scopes: seq<ScopeMetrics>)
    ensures SumBy(ItemCost, Items(scopes)) + Dropped(scopes) == SumBy(ScopeEstimate, scopes)
  {
    hide ScopeItems, ScopeEstimate, DroppedInScope, ItemCost;
    if scopes != [] {
      ScopeCost(scopes[0]);
      TreeCost(scopes[1..]);
      SumByAppend(ItemCost, ScopeItems(scopes[0]), Items(scopes[1..]));
    }
  }

  lemma {:induction false} BareItemsOfFull(scope: Scope, metrics: seq<Metrics>)
    requires forall m | m in metrics :: Units(m.data) != []
    ensures SumBy(DroppedHeader, metrics) == 0 && (metrics != [] ==> BareItems(scope, metrics) != [])
  {
    if metrics != [] {
      BareItemsOfFull(scope, metrics[1..]);
      assert MetricItems(scope, metrics[0]) != [];
    }
  }

  /** A full tree leaves nothing behind. */
  lemma {:induction false} FullDropsNothing(scopes: seq<ScopeMetrics>)
    requires Full(scopes)
    ensures Dropped(scopes) == 0
  {
    if scopes != [] {
      assert FullScope(scopes[0]) && Full(scopes[1..]);
      hide DroppedHeader, BareItems, Units;
      FullDropsNothing(scopes[1..]);
      BareItemsOfFull(scopes[0].scope, scopes[0].metrics);
    }
  }
}
