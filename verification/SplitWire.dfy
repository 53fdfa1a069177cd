// From the source of a collection cycle to what each of its requests encodes to.
module SplitWire {
  import opened MetricData
  import opened Sums
  import opened SizeEstimate
  import opened UnitStream
  import opened Splitter
  import opened SplitProperties
  import opened WireSize

  /** A metric that is one unit even without points: alone in a request it has no slack, nor has its scope. */
  predicate WholeShort(scope: Scope, m: Metrics) {
    Units(m.data) != [] && !HasPoints(m.data) ==> ShortNames(m, LIMITS) && ShortScope(scope, LIMITS)
  }

  predicate BoundedItem(it: Item) {
    && (forall kv | kv in it.scope.attributes :: Bounded(kv, LIMITS))
    && match it.unit
       case NumberUnit(p) => BoundedPoint(p.attributes, p.exemplars, LIMITS)
       case HistogramUnit(p) => BoundedPoint(p.attributes, p.exemplars, LIMITS)
       case WholeUnit(data) => BoundedData(data, LIMITS) && WholeShort(it.scope, it.metric.(data := data))
  }

  predicate AllBounded(items: seq<Item>) {
    forall i | 0 <= i < |items| :: BoundedItem(items[i])
  }

  lemma {:induction false} AllBoundedConcat(a: seq<Item>, b: seq<Item>)
    ensures AllBounded(a + b) <==> AllBounded(a) && AllBounded(b)
  {
    hide BoundedItem;
    if AllBounded(a + b) {
      forall i | 0 <= i < |a| ensures BoundedItem(a[i]) { assert a[i] == (a + b)[i]; }
      forall i | 0 <= i < |b| ensures BoundedItem(b[i]) { assert b[i] == (a + b)[|a| + i]; }
    }
  }

  predicate BoundedAttributes(scope: Scope) {
    forall kv | kv in scope.attributes :: Bounded(kv, LIMITS)
  }

  predicate BoundedMetric(scope: Scope, m: Metrics) {
    BoundedData(m.data, LIMITS) && WholeShort(scope, m)
  }

  lemma {:induction false} MetricBounded(scope: Scope, m: Metrics)
    requires Units(m.data) != []
    ensures AllBounded(MetricItems(scope, m)) <==> BoundedMetric(scope, m) && BoundedAttributes(scope)
  {
    hide Bounded, BoundedPoint, BoundedExponential, ShortNames, ShortScope;
    var items := MetricItems(scope, m);
    assert BoundedItem(items[0]) ==> BoundedAttributes(scope);
    match m.data {
      case Gauge(points) =>
        assert forall i | 0 <= i < |points| :: items[i].unit == NumberUnit(points[i]);
      case Sum(points, _, _) =>
        assert forall i | 0 <= i < |points| :: items[i].unit == NumberUnit(points[i]);
      case Histogram(points, _) =>
        assert forall i | 0 <= i < |points| :: items[i].unit == HistogramUnit(points[i]);
      case ExponentialHistogram(_) =>
        assert items[0].unit == WholeUnit(m.data) && Shell(m) == m && m.(data := m.data) == m;
      case Summary(_) =>
        assert items[0].unit == WholeUnit(m.data) && Shell(m) == m && m.(data := m.data) == m;
    }
  }

  lemma {:induction false} BareBounded(scope: Scope, metrics: seq<Metrics>)
    ensures BoundedAttributes(scope) && (forall m | m in metrics :: BoundedMetric(scope, m)) ==>
            AllBounded(BareItems(scope, metrics))
    ensures AllBounded(BareItems(scope, metrics)) && (forall m | m in metrics :: Units(m.data) != []) ==>
            forall m | m in metrics :: BoundedMetric(scope, m)
  {
    hide BoundedItem, BoundedMetric, BoundedAttributes, Units, MetricItems;
    if metrics != [] {
      BareBounded(scope, metrics[1..]);
      AllBoundedConcat(MetricItems(scope, metrics[0]), BareItems(scope, metrics[1..]));
      if Units(metrics[0].data) != [] {
        MetricBounded(scope, metrics[0]);
      } else {
        assert AllBounded(MetricItems(scope, metrics[0]));
      }
    }
  }

  lemma {:induction false} SameBound(a: Item, b: Item)
    requires a.scope == b.scope && a.metric == b.metric && a.unit == b.unit
    ensures BoundedItem(a) == BoundedItem(b)
  {}

  lemma {:induction false} HeadBounded(a: Item, b: Item, rest: seq<Item>)
    requires a.scope == b.scope && a.metric == b.metric && a.unit == b.unit
    ensures AllBounded([a] + rest) <==> AllBounded([b] + rest)
  {
    SameBound(a, b);
    hide BoundedItem;
    assert [a][0] == a && [b][0] == b;
    AllBoundedConcat([a], rest);
    AllBoundedConcat([b], rest);
  }

  lemma {:induction false} FlagsIrrelevant(items: seq<Item>)
    ensures AllBounded(OpenScope(items)) <==> AllBounded(items)
    ensures AllBounded(Restart(items)) <==> AllBounded(items)
  {
    hide AllBounded;
    if items != [] {
      assert items == [items[0]] + items[1..];
      HeadBounded(items[0], items[0].(opensScope := true), items[1..]);
      HeadBounded(items[0], items[0].(opensScope := true, opensMetric := true), items[1..]);
    }
  }

  predicate WholesShortIn(sm: ScopeMetrics) {
    forall m | m in sm.metrics :: WholeShort(sm.scope, m)
  }

  /** In a scope without empty metrics. */
  lemma {:induction false} FullEmptiesShort(sm: ScopeMetrics)
    requires FullScope(sm) && WholesShortIn(sm)
    ensures EmptiesShortIn(sm, LIMITS)
  {
    hide Units, HasPoints, ShortNames, ShortScope;
    assert sm.metrics[0] in sm.metrics;
  }

  lemma {:induction false} ScopeBounded(sm: ScopeMetrics)
    ensures BoundedScope(sm, LIMITS) && WholesShortIn(sm) ==> AllBounded(ScopeItems(sm))
    ensures AllBounded(ScopeItems(sm)) && FullScope(sm) ==> BoundedScope(sm, LIMITS) && EmptiesShortIn(sm, LIMITS)
  {
    hide Bounded, BoundedData, MetricItems, EmptiesShortIn, WholeShort;
    BareBounded(sm.scope, sm.metrics);
    FlagsIrrelevant(BareItems(sm.scope, sm.metrics));
    if AllBounded(ScopeItems(sm)) && FullScope(sm) {
      FullScopeItems(sm);
      BareItemsCoherent(sm.scope, sm.metrics);
      var first := BareItems(sm.scope, sm.metrics)[0];
      assert BoundedItem(first) && first.scope == sm.scope;
      assert WholesShortIn(sm);
      FullEmptiesShort(sm);
    }
  }

  predicate WholesShort(scopes: seq<ScopeMetrics>) {
    forall sm | sm in scopes :: WholesShortIn(sm)
  }

  lemma {:induction false} ScopesBounded(scopes: seq<ScopeMetrics>)
    ensures (forall sm | sm in scopes :: BoundedScope(sm, LIMITS)) && WholesShort(scopes) ==> AllBounded(Items(scopes))
    ensures AllBounded(Items(scopes)) && Full(scopes) ==>
            EmptiesShort(scopes, LIMITS) && forall sm | sm in scopes :: BoundedScope(sm, LIMITS)
  {
    hide BoundedScope, BoundedItem, ScopeItems, FullScope, EmptiesShortIn, WholesShortIn;
    if scopes != [] {
      ScopeBounded(scopes[0]);
      ScopesBounded(scopes[1..]);
      AllBoundedConcat(ScopeItems(scopes[0]), Items(scopes[1..]));
    }
  }

  lemma {:induction false} PartBounded(parts: seq<seq<Item>>, i: nat)
    requires i < |parts| && AllBounded(Flatten(parts))
    ensures AllBounded(parts[i])
  {
    hide BoundedItem;
    AllBoundedConcat(parts[0], Flatten(parts[1..]));
    if i > 0 {
      PartBounded(parts[1..], i - 1);
    }
  }

  /**
   * What is sent encodes to at most the limit, or carries a single unit: whenever splitting keeps its promise on the
   * estimates, and the source stays within the limits of the estimates.
   */
  lemma {:induction false} RequestsFitTheLimit(
    src: ResourceMetrics, maxBytes: int, batches: seq<ResourceMetrics>, i: nat)
    requires BoundedRequest(src, LIMITS) && EmptiesShort(src.scopeMetrics, LIMITS) && WholesShort(src.scopeMetrics)
    requires maxBytes < LIMIT_28
    requires SplitsGreedily(src, maxBytes, batches) && Fittable(src, maxBytes) && i < |RequestsFor(src, batches)|
    ensures RequestWire(RequestsFor(src, batches)[i]) <= maxBytes || UnitCount(RequestsFor(src, batches)[i]) == 1
  {
    hide RequestWire, RequestEstimate, Cost, Items, BoundedScope, AllBounded, Fittable, EmptiesShort, WholesShort;
    SentFits(src, maxBytes, batches);
    var rm := RequestsFor(src, batches)[i];
    assert Fits(rm, maxBytes);
    if |batches| > 1 {
      var parts :| Delivers(src.resource, maxBytes, Items(src.scopeMetrics), batches, parts);
      ScopesBounded(src.scopeMetrics);
      PartBounded(parts, i);
      assert Carries(rm, src.resource, parts[i]);
      FlagsIrrelevant(parts[i]);
      ScopesBounded(rm.scopeMetrics);
    }
    if RequestEstimate(rm) <= maxBytes {
      EstimateBoundsWire(rm);
    }
  }

  /** And when it does not: the metric without points is sent with its whole name. */
  lemma {:induction false} EmptyMetricOnTheWire(name: Bytes)
    requires name != []
    ensures RequestWire(OnlyEmptyMetric(name)) > |name|
  {
    var src := OnlyEmptyMetric(name);
    var sm := src.scopeMetrics[0];
    var m := sm.metrics[0];
    assert MetricWire(m) > |name|;
    SumByOne(MetricWire, m);
    assert ScopeWire(sm) > |name|;
    SumByOne(ScopeWire, sm);
  }

  lemma {:induction false} NoUnitsNoItems(scope: Scope, metrics: seq<Metrics>)
    requires forall m | m in metrics :: Units(m.data) == []
    ensures BareItems(scope, metrics) == []
  {
    hide Units;
    if metrics != [] {
      NoUnitsNoItems(scope, metrics[1..]);
      assert metrics[0] in metrics && |MetricItems(scope, metrics[0])| == 0;
    }
  }

  lemma {:induction false} EmptyCountersHaveNoUnits()
    ensures Items(EmptyCounters().scopeMetrics) == []
  {
    var scopes := EmptyCounters().scopeMetrics;
    assert Units(EmptyCounter().data) == [];
    hide EmptyCounter, Units, Copies;
    NoUnitsNoItems(scopes[0].scope, scopes[0].metrics);
    assert Items(scopes) == ScopeItems(scopes[0]) + Items(scopes[1..]);
  }

  /** Counters without points fit the limit by estimate, are sent as they are, and encode to more than the limit. */
  lemma {:induction false} EmptyCountersOnTheWire()
    ensures SplitsGreedily(EmptyCounters(), 16032, []) && RequestsFor(EmptyCounters(), []) == [EmptyCounters()]
    ensures Fittable(EmptyCounters(), 16032) && UnitCount(EmptyCounters()) == 0
    ensures RequestWire(EmptyCounters()) > 16032
  {
    var src := EmptyCounters();
    EmptyCountersEscape();
    EmptyCountersHaveNoUnits();
    hide RequestWire, RequestEstimate, EmptyCounters, BoundedRequest, EmptiesShort, Items, KeptEstimate, Dropped;
    assert Delivers(src.resource, 16032, [], [], []);
    KeptAndDropped(src);
  }
}
