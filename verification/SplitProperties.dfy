// What the splitter's contract means: conservation, exact accounting, the size bound, and the fewest requests.
module SplitProperties {
  import opened MetricData
  import opened Sums
  import opened SizeEstimate
  import opened UnitStream
  import opened Splitter

  // ---- Conservation ----

  /** A unit with the scope and the metric it belongs to, without its place in a request. */
  datatype Reading = Reading(scope: Scope, metric: Metrics, unit: Unit)

  function ReadingOf(it: Item): Reading {
    Reading(it.scope, it.metric, it.unit)
  }

  function Readings(items: seq<Item>): (r: seq<Reading>)
    ensures |r| == |items|
  {
    seq(|items|, i requires 0 <= i < |items| => ReadingOf(items[i]))
  }

  function RequestReadings(rm: ResourceMetrics): seq<Reading> {
    Readings(Items(rm.scopeMetrics))
  }

  function UnitCount(rm: ResourceMetrics): nat {
    |Items(rm.scopeMetrics)|
  }

  lemma {:induction false} RestartReadings(part: seq<Item>)
    ensures Readings(Restart(part)) == Readings(part)
  {
    forall i | 0 <= i < |part|
      ensures ReadingOf(Restart(part)[i]) == ReadingOf(part[i])
    {}
  }

  lemma {:induction false} ReadingsConcat(a: seq<Item>, b: seq<Item>)
    ensures Readings(a + b) == Readings(a) + Readings(b)
  {}

  lemma {:induction false} ReadingsOfParts(resource: Resource, batches: seq<ResourceMetrics>, parts: seq<seq<Item>>)
    requires |batches| == |parts|
    requires forall i | 0 <= i < |batches| :: Carries(batches[i], resource, parts[i])
    ensures FlatMap(RequestReadings, batches) == Readings(Flatten(parts))
  {
    hide Items, Full, Readings, Restart;
    if batches == [] {
      assert Readings([]) == [];
    } else {
      assert Carries(batches[0], resource, parts[0]);
      RestartReadings(parts[0]);
      forall i | 0 <= i < |batches[1..]|
        ensures Carries(batches[1..][i], resource, parts[1..][i])
      {
        assert batches[1..][i] == batches[i + 1] && parts[1..][i] == parts[i + 1];
      }
      hide Carries;
      ReadingsOfParts(resource, batches[1..], parts[1..]);
      ReadingsConcat(parts[0], Flatten(parts[1..]));
    }
  }

  /** Every reading of the source, once, in order, under its own scope and metric; every request has the resource. */
  lemma {:induction false} Conservation(src: ResourceMetrics, maxBytes: int, batches: seq<ResourceMetrics>)
    requires SplitsGreedily(src, maxBytes, batches)
    ensures FlatMap(RequestReadings, batches) == RequestReadings(src)
    ensures forall b | b in batches :: b.resource == src.resource && RequestReadings(b) != []
  {
    hide Items;
    var parts :| Delivers(src.resource, maxBytes, Items(src.scopeMetrics), batches, parts);
    ReadingsOfParts(src.resource, batches, parts);
    forall b | b in batches
      ensures b.resource == src.resource && RequestReadings(b) != []
    {
      var i :| 0 <= i < |batches| && batches[i] == b;
      assert parts[i] in parts;
    }
  }

  // ---- Conservation, read off the trees ----

  datatype Kind =
    | GaugeKind
    | SumKind(temporality: nat, monotonic: bool)
    | HistogramKind(temporality: nat)
    | ExponentialKind
    | SummaryKind

  /** What travels alone: a point, or all points of a metric that is never sliced. */
  datatype Content =
    | NumberContent(number: NumberPoint)
    | HistogramContent(histogram: HistogramPoint)
    | ExponentialContent(exponential: seq<ExponentialPoint>)
    | SummaryContent(summary: seq<SummaryPoint>)

  /** A unit, with everything around it in the tree it is in. */
  datatype Record = Record(
    scope: Scope, name: Bytes, description: Bytes, unitName: Bytes, kind: Kind, content: Content)

  function NumberRecord(scope: Scope, m: Metrics, kind: Kind): NumberPoint -> Record {
    (p: NumberPoint) => Record(scope, m.name, m.description, m.unitName, kind, NumberContent(p))
  }

  function HistogramRecord(scope: Scope, m: Metrics, kind: Kind): HistogramPoint -> Record {
    (p: HistogramPoint) => Record(scope, m.name, m.description, m.unitName, kind, HistogramContent(p))
  }

  function All<T, U>(f: T -> U, xs: seq<T>): (ys: seq<U>)
    ensures |ys| == |xs| && forall i | 0 <= i < |xs| :: ys[i] == f(xs[i])
  {
    seq(|xs|, i requires 0 <= i < |xs| => f(xs[i]))
  }

  function MetricRecords(scope: Scope): Metrics -> seq<Record> {
    (m: Metrics) =>
      match m.data
      case Gauge(points) => All(NumberRecord(scope, m, GaugeKind), points)
      case Sum(points, temporality, monotonic) => All(NumberRecord(scope, m, SumKind(temporality, monotonic)), points)
      case Histogram(points, temporality) => All(HistogramRecord(scope, m, HistogramKind(temporality)), points)
      case ExponentialHistogram(points) =>
        [Record(scope, m.name, m.description, m.unitName, ExponentialKind, ExponentialContent(points))]
      case Summary(points) => [Record(scope, m.name, m.description, m.unitName, SummaryKind, SummaryContent(points))]
      case NoData => []
  }

  function ScopeRecords(sm: ScopeMetrics): seq<Record> {
    FlatMap(MetricRecords(sm.scope), sm.metrics)
  }

  function RequestRecords(rm: ResourceMetrics): seq<Record> {
    FlatMap(ScopeRecords, rm.scopeMetrics)
  }

  function KindOf(data: Aggregation): Kind {
    match data
    case Gauge(_) => GaugeKind
    case Sum(_, temporality, monotonic) => SumKind(temporality, monotonic)
    case Histogram(_, temporality) => HistogramKind(temporality)
    case ExponentialHistogram(_) => ExponentialKind
    case _ => SummaryKind
  }

  /** A reading says everything about its unit. */
  function RecordOf(r: Reading): Record {
    Record(r.scope, r.metric.name, r.metric.description, r.metric.unitName, KindOf(r.metric.data),
           match r.unit
           case NumberUnit(p) => NumberContent(p)
           case HistogramUnit(p) => HistogramContent(p)
           case WholeUnit(ExponentialHistogram(points)) => ExponentialContent(points)
           case WholeUnit(Summary(points)) => SummaryContent(points)
           case WholeUnit(_) => SummaryContent([]))
  }

  lemma {:induction false} RecordsOfMetric(scope: Scope, m: Metrics)
    ensures MetricRecords(scope)(m) == All(RecordOf, Readings(MetricItems(scope, m)))
  {
    var items, records := MetricItems(scope, m), MetricRecords(scope)(m);
    match m.data {
      case Gauge(points) =>
        forall i | 0 <= i < |points|
          ensures records[i] == RecordOf(Readings(items)[i])
        {
          assert items[i].unit == NumberUnit(points[i]) && items[i].metric == Shell(m);
        }
      case Sum(points, _, _) =>
        forall i | 0 <= i < |points|
          ensures records[i] == RecordOf(Readings(items)[i])
        {
          assert items[i].unit == NumberUnit(points[i]) && items[i].metric == Shell(m);
        }
      case Histogram(points, temporality) =>
        forall i | 0 <= i < |points|
          ensures records[i] == RecordOf(Readings(items)[i])
        {
          assert items[i].unit == HistogramUnit(points[i]) && items[i].metric == Shell(m);
        }
      case ExponentialHistogram(_) =>
        assert items[0].unit == WholeUnit(m.data) && Shell(m) == m;
      case Summary(_) =>
        assert items[0].unit == WholeUnit(m.data) && Shell(m) == m;
      case NoData =>
    }
  }

  lemma {:induction false} AllOfReadings(a: seq<Item>, b: seq<Item>)
    ensures All(RecordOf, Readings(a + b)) == All(RecordOf, Readings(a)) + All(RecordOf, Readings(b))
  {}

  lemma {:induction false} RecordsOfMetrics(scope: Scope, metrics: seq<Metrics>)
    ensures FlatMap(MetricRecords(scope), metrics) == All(RecordOf, Readings(BareItems(scope, metrics)))
  {
    hide MetricRecords, MetricItems;
    if metrics != [] {
      RecordsOfMetric(scope, metrics[0]);
      RecordsOfMetrics(scope, metrics[1..]);
      AllOfReadings(MetricItems(scope, metrics[0]), BareItems(scope, metrics[1..]));
    }
  }

  lemma {:induction false} RecordsOfScopes(scopes: seq<ScopeMetrics>)
    ensures FlatMap(ScopeRecords, scopes) == All(RecordOf, Readings(Items(scopes)))
  {
    hide MetricRecords, BareItems;
    if scopes != [] {
      var sm := scopes[0];
      RecordsOfMetrics(sm.scope, sm.metrics);
      assert Readings(ScopeItems(sm)) == Readings(BareItems(sm.scope, sm.metrics));
      RecordsOfScopes(scopes[1..]);
      AllOfReadings(ScopeItems(sm), Items(scopes[1..]));
    }
  }

  lemma {:induction false} RecordsOfReadings(batches: seq<ResourceMetrics>)
    ensures FlatMap(RequestRecords, batches) == All(RecordOf, FlatMap(RequestReadings, batches))
  {
    hide Items, ScopeRecords;
    if batches != [] {
      RecordsOfScopes(batches[0].scopeMetrics);
      RecordsOfReadings(batches[1..]);
      var a, b := RequestReadings(batches[0]), FlatMap(RequestReadings, batches[1..]);
      assert All(RecordOf, a + b) == All(RecordOf, a) + All(RecordOf, b);
    }
  }

  /** Reading the requests off their trees, in order, gives what the tree of the source holds. */
  lemma {:induction false} RecordsConserved(src: ResourceMetrics, maxBytes: int, batches: seq<ResourceMetrics>)
    requires SplitsGreedily(src, maxBytes, batches)
    ensures FlatMap(RequestRecords, batches) == RequestRecords(src)
    ensures forall b | b in batches :: b.resource == src.resource && RequestRecords(b) != []
    ensures forall b | b in batches :: |RequestRecords(b)| == UnitCount(b)
  {
    Conservation(src, maxBytes, batches);
    RecordsOfReadings(batches);
    RecordsOfScopes(src.scopeMetrics);
    hide SplitsGreedily, ScopeRecords, Items;
    forall b | b in batches
      ensures b.resource == src.resource && RequestRecords(b) != [] && |RequestRecords(b)| == UnitCount(b)
    {
      RecordsOfScopes(b.scopeMetrics);
      assert RequestReadings(b) != [];
    }
  }

  // ---- Exact accounting ----

  /**
   * The running size is the estimate recomputed from the finished tree: resource, scopes, headers and units once each.
   */
  lemma {:induction false} EstimateIsCost(rm: ResourceMetrics, resource: Resource, part: seq<Item>)
    requires Carries(rm, resource, part)
    ensures RequestEstimate(rm) == Cost(resource, part)
  {
    hide Items, Restart;
    TreeCost(rm.scopeMetrics);
    FullDropsNothing(rm.scopeMetrics);
  }

  lemma {:induction false} RecordCount(rm: ResourceMetrics)
    ensures |RequestRecords(rm)| == UnitCount(rm)
  {
    RecordsOfScopes(rm.scopeMetrics);
  }

  /** Every request fits the limit, or holds exactly one unit. */
  lemma {:induction false} SizeBound(src: ResourceMetrics, maxBytes: int, batches: seq<ResourceMetrics>, i: nat)
    requires SplitsGreedily(src, maxBytes, batches) && i < |batches|
    ensures RequestEstimate(batches[i]) <= maxBytes || UnitCount(batches[i]) == 1
  {
    hide RequestEstimate, Cost, Items, Full;
    var parts :| Delivers(src.resource, maxBytes, Items(src.scopeMetrics), batches, parts);
    assert parts[i] in parts;
    assert Carries(batches[i], src.resource, parts[i]);
    EstimateIsCost(batches[i], src.resource, parts[i]);
  }

  // ---- Optimality ----

  lemma {:induction false} DropFirst(resource: Resource, part: seq<Item>)
    requires Coherent(part) && part != []
    ensures Cost(resource, part[1..]) <= Cost(resource, part) && Coherent(part[1..])
  {
    hide MetricHeader, ScopeHeader, UnitSize, ResourceHeader;
    var rest := part[1..];
    assert Coherent(rest) by {
      forall i | 0 < i < |rest|
        ensures Follows(rest[i - 1], rest[i])
      {
        assert Follows(part[i], part[i + 1]);
      }
    }
    assert Restart(part)[1..] == rest;
    if rest != [] {
      assert Follows(part[0], part[1]);
      assert Restart(rest)[1..] == rest[1..];
      assert SumBy(ItemCost, rest) == ItemCost(rest[0]) + SumBy(ItemCost, rest[1..]);
      assert ItemCost(Restart(rest)[0]) <= ItemCost(Restart(part)[0]) + ItemCost(part[1]);
    }
  }

  lemma {:induction false} DropSome(resource: Resource, part: seq<Item>, k: nat)
    requires Coherent(part) && k <= |part|
    ensures Cost(resource, part[k..]) <= Cost(resource, part) && Coherent(part[k..])
  {
    hide Cost, Coherent;
    if k > 0 {
      DropFirst(resource, part);
      DropSome(resource, part[1..], k - 1);
      assert part[1..][k - 1..] == part[k..];
    } else {
      assert part[0..] == part;
    }
  }

  lemma {:induction false} KeepFirst(resource: Resource, part: seq<Item>, k: nat)
    requires k <= |part|
    ensures Cost(resource, part[..k]) <= Cost(resource, part)
  {
    hide ItemCost;
    assert part == part[..k] + part[k..];
    if k > 0 {
      assert Restart(part) == Restart(part[..k]) + part[k..];
      SumByAppend(ItemCost, Restart(part[..k]), part[k..]);
    }
  }

  /** A run of units never costs more than a run that contains it. */
  lemma {:induction false} SubrunCost(resource: Resource, part: seq<Item>, lo: nat, hi: nat)
    requires Coherent(part) && lo <= hi <= |part|
    ensures Cost(resource, part[lo..hi]) <= Cost(resource, part)
  {
    hide Cost, Coherent;
    DropSome(resource, part, lo);
    KeepFirst(resource, part[lo..], hi - lo);
    assert part[lo..][..hi - lo] == part[lo..hi];
  }

  /** Any division into requests that each fit or hold one unit, empty requests included. */
  ghost predicate Division(resource: Resource, maxBytes: int, stream: seq<Item>, parts: seq<seq<Item>>) {
    && Flatten(parts) == stream
    && forall p | p in parts :: Acceptable(resource, maxBytes, p)
  }

  /** The greedy first part reaches at least as far as any acceptable run that starts with it. */
  lemma {:induction false} GreedyReaches(
    resource: Resource, maxBytes: int, rest: seq<Item>, greedy: seq<seq<Item>>, run: seq<Item>, lo: nat)
    requires GreedyDivision(resource, maxBytes, rest, greedy) && greedy != []
    requires Acceptable(resource, maxBytes, run) && Coherent(run)
    requires lo <= |run| && |run| - lo <= |rest| && run[lo..] == rest[..|run| - lo]
    ensures |run| - lo <= |greedy[0]|
  {
    hide Cost, Coherent;
    assert rest == greedy[0] + Flatten(greedy[1..]);
    if |greedy| == 1 {
      assert rest == greedy[0];
    } else if |greedy[0]| < |run| - lo {
      var next := greedy[0] + [greedy[1][0]];
      assert greedy[0] in greedy && greedy[1] in greedy;
      assert Flatten(greedy[1..]) == greedy[1] + Flatten(greedy[1..][1..]);
      assert next == rest[..|next|] == run[lo..][..|next|] == run[lo..lo + |next|];
      SubrunCost(resource, run, lo, lo + |next|);
      assert false;
    }
  }

  lemma {:induction false} GreedyTail(resource: Resource, maxBytes: int, stream: seq<Item>, parts: seq<seq<Item>>)
    requires GreedyDivision(resource, maxBytes, stream, parts) && parts != []
    ensures |parts[0]| <= |stream| && parts[0] == stream[..|parts[0]|]
    ensures GreedyDivision(resource, maxBytes, stream[|parts[0]|..], parts[1..])
  {
    hide Cost, Acceptable;
    assert stream == parts[0] + Flatten(parts[1..]);
    forall i | 0 < i < |parts[1..]|
      ensures parts[1..][i] != [] && Cost(resource, parts[1..][i - 1] + [parts[1..][i][0]]) > maxBytes
    {
      assert parts[i + 1] != [] && Cost(resource, parts[i] + [parts[i + 1][0]]) > maxBytes;
    }
  }

  lemma {:induction false} GreedyEmpty(resource: Resource, maxBytes: int, stream: seq<Item>, parts: seq<seq<Item>>)
    requires GreedyDivision(resource, maxBytes, stream, parts)
    ensures parts == [] <==> stream == []
  {
    if parts != [] {
      assert parts[0] in parts;
    }
  }

  /** Staying ahead: greedy on any suffix uses no more requests than any division of the whole. */
  lemma {:induction false} StaysAhead(resource: Resource, maxBytes: int, stream: seq<Item>, skip: nat,
                                      greedy: seq<seq<Item>>, other: seq<seq<Item>>)
    requires Coherent(stream) && skip <= |stream|
    requires GreedyDivision(resource, maxBytes, stream[skip..], greedy)
    requires Division(resource, maxBytes, stream, other)
    ensures |greedy| <= |other|
    decreases |other|
  {
    hide Cost, Acceptable, Maximal;
    GreedyEmpty(resource, maxBytes, stream[skip..], greedy);
    if greedy != [] && other != [] {
      var first, rest := other[0], Flatten(other[1..]);
      assert stream == first + rest && first in other;
      assert Coherent(rest) by {
        assert rest == stream[|first|..];
        DropSome(resource, stream, |first|);
      }
      if skip >= |first| {
        assert stream[skip..] == rest[skip - |first|..];
        StaysAhead(resource, maxBytes, rest, skip - |first|, greedy, other[1..]);
      } else {
        assert Coherent(first) by {
          forall i | 0 < i < |first|
            ensures Follows(first[i - 1], first[i])
          {
            assert Follows(stream[i - 1], stream[i]);
          }
        }
        assert first[skip..] == stream[skip..][..|first| - skip];
        GreedyReaches(resource, maxBytes, stream[skip..], greedy, first, skip);
        GreedyTail(resource, maxBytes, stream[skip..], greedy);
        var reached := skip + |greedy[0]|;
        assert stream[skip..][|greedy[0]|..] == stream[reached..] == rest[reached - |first|..];
        StaysAhead(resource, maxBytes, rest, reached - |first|, greedy[1..], other[1..]);
      }
    }
  }

  /** No order-preserving division into acceptable requests is shorter than the splitter's. */
  lemma {:induction false} FewestRequests(
    src: ResourceMetrics, maxBytes: int, batches: seq<ResourceMetrics>, other: seq<seq<Item>>)
    requires SplitsGreedily(src, maxBytes, batches)
    requires Division(src.resource, maxBytes, Items(src.scopeMetrics), other)
    ensures |batches| <= |other|
  {
    hide GreedyDivision, Division, Items;
    var stream := Items(src.scopeMetrics);
    var greedy :| Delivers(src.resource, maxBytes, stream, batches, greedy);
    ItemsCoherent(src.scopeMetrics);
    assert stream[0..] == stream;
    StaysAhead(src.resource, maxBytes, stream, 0, greedy, other);
  }

  lemma {:induction false} PrefixCoherent(stream: seq<Item>, k: nat)
    requires Coherent(stream) && k <= |stream|
    ensures Coherent(stream[..k])
  {
    forall i | 0 < i < k
      ensures Follows(stream[..k][i - 1], stream[..k][i])
    {
      assert Follows(stream[i - 1], stream[i]);
    }
  }

  /** The contract of the splitter leaves no freedom: the greedy division is unique. */
  lemma {:induction false} GreedyUnique(
    resource: Resource, maxBytes: int, stream: seq<Item>, a: seq<seq<Item>>, b: seq<seq<Item>>)
    requires Coherent(stream)
    requires GreedyDivision(resource, maxBytes, stream, a) && GreedyDivision(resource, maxBytes, stream, b)
    ensures a == b
    decreases |a|
  {
    hide Cost, Acceptable, Maximal;
    GreedyEmpty(resource, maxBytes, stream, a);
    GreedyEmpty(resource, maxBytes, stream, b);
    if a != [] {
      GreedyTail(resource, maxBytes, stream, a);
      GreedyTail(resource, maxBytes, stream, b);
      assert a[0] in a && b[0] in b;
      PrefixCoherent(stream, |a[0]|);
      PrefixCoherent(stream, |b[0]|);
      assert a[0][0..] == a[0] && b[0][0..] == b[0];
      GreedyReaches(resource, maxBytes, stream, a, b[0], 0);
      GreedyReaches(resource, maxBytes, stream, b, a[0], 0);
      DropSome(resource, stream, |a[0]|);
      GreedyUnique(resource, maxBytes, stream[|a[0]|..], a[1..], b[1..]);
    }
  }

  /** Any two runs of the splitter put the same units in the same requests. */
  lemma {:induction false} SameRequests(
    src: ResourceMetrics, maxBytes: int, a: seq<ResourceMetrics>, b: seq<ResourceMetrics>)
    requires SplitsGreedily(src, maxBytes, a) && SplitsGreedily(src, maxBytes, b)
    ensures |a| == |b| && forall i | 0 <= i < |a| :: Items(a[i].scopeMetrics) == Items(b[i].scopeMetrics)
  {
    hide Items, Full, GreedyDivision;
    var stream := Items(src.scopeMetrics);
    var parts :| Delivers(src.resource, maxBytes, stream, a, parts);
    var others :| Delivers(src.resource, maxBytes, stream, b, others);
    ItemsCoherent(src.scopeMetrics);
    GreedyUnique(src.resource, maxBytes, stream, parts, others);
    forall i | 0 <= i < |a|
      ensures Items(a[i].scopeMetrics) == Items(b[i].scopeMetrics)
    {
      assert Carries(a[i], src.resource, parts[i]) && Carries(b[i], src.resource, parts[i]);
    }
  }

  // ---- What is sent: the source itself when one request is enough ----

  function RequestsFor(src: ResourceMetrics, batches: seq<ResourceMetrics>): seq<ResourceMetrics> {
    if |batches| <= 1 then [src] else batches
  }

  /** Nothing is lost or changed in what is sent. */
  lemma {:induction false} SentRecords(src: ResourceMetrics, maxBytes: int, batches: seq<ResourceMetrics>)
    requires SplitsGreedily(src, maxBytes, batches)
    ensures FlatMap(RequestRecords, RequestsFor(src, batches)) == RequestRecords(src)
  {
    RecordsConserved(src, maxBytes, batches);
    if |batches| <= 1 {
      assert [src][1..] == [];
      assert FlatMap(RequestRecords, [src]) == RequestRecords(src) + FlatMap(RequestRecords, []);
    }
  }

  predicate Fits(rm: ResourceMetrics, maxBytes: int) {
    RequestEstimate(rm) <= maxBytes || UnitCount(rm) == 1
  }

  predicate AllFit(requests: seq<ResourceMetrics>, maxBytes: int) {
    forall rm | rm in requests :: Fits(rm, maxBytes)
  }

  /** The estimate of what the splitter keeps of a request: all but the headers of empty metrics and scopes. */
  function KeptEstimate(rm: ResourceMetrics): nat {
    Cost(rm.resource, Items(rm.scopeMetrics))
  }

  lemma {:induction false} KeptAndDropped(rm: ResourceMetrics)
    ensures RequestEstimate(rm) == KeptEstimate(rm) + Dropped(rm.scopeMetrics)
  {
    var items := Items(rm.scopeMetrics);
    ItemsCoherent(rm.scopeMetrics);
    TreeCost(rm.scopeMetrics);
    hide Items, Dropped;
    assert Restart(items) == items;
  }

  /** There is at most one request exactly when there is at most one unit, or when what is kept fits as a whole. */
  lemma {:induction false} AtMostOneRequest(src: ResourceMetrics, maxBytes: int, batches: seq<ResourceMetrics>)
    requires SplitsGreedily(src, maxBytes, batches)
    ensures |batches| <= 1 <==> UnitCount(src) <= 1 || KeptEstimate(src) <= maxBytes
    ensures |batches| == 0 <==> UnitCount(src) == 0
  {
    hide Items, Cost, Maximal;
    var stream := Items(src.scopeMetrics);
    var parts :| Delivers(src.resource, maxBytes, stream, batches, parts);
    if |parts| == 1 {
      assert parts[1..] == [] && Flatten(parts) == parts[0] + Flatten(parts[1..]) == parts[0];
      assert parts[0] in parts && parts[0] == stream;
    } else if |parts| > 1 {
      assert Flatten(parts) == parts[0] + Flatten(parts[1..]) && parts[0] in parts && parts[0] != [];
    }
    if |stream| <= 1 || KeptEstimate(src) <= maxBytes {
      assert Flatten([stream]) == stream + Flatten([stream][1..]);
      FewestRequests(src, maxBytes, batches, [stream]);
    }
  }

  /**
   * Splitting keeps its promise for a source if and only if nothing has to be split off (a single unit, or the source
   * fits as it is, headers of empty metrics included), or splitting happens (several units that do not fit together).
   */
  predicate Fittable(src: ResourceMetrics, maxBytes: int) {
    || UnitCount(src) == 1
    || KeptEstimate(src) + Dropped(src.scopeMetrics) <= maxBytes
    || (UnitCount(src) > 1 && KeptEstimate(src) > maxBytes)
  }

  lemma {:induction false} SentFits(src: ResourceMetrics, maxBytes: int, batches: seq<ResourceMetrics>)
    requires SplitsGreedily(src, maxBytes, batches)
    ensures AllFit(RequestsFor(src, batches), maxBytes) <==> Fittable(src, maxBytes)
  {
    hide SplitsGreedily, RequestEstimate, KeptEstimate, UnitCount, Dropped;
    KeptAndDropped(src);
    AtMostOneRequest(src, maxBytes, batches);
    if |batches| <= 1 {
      assert src in RequestsFor(src, batches);
    } else {
      forall rm | rm in batches
        ensures Fits(rm, maxBytes)
      {
        var i :| 0 <= i < |batches| && batches[i] == rm;
        SizeBound(src, maxBytes, batches, i);
      }
    }
  }

  /** Without empty metrics and scopes, and with at least one scope, the promise is always kept. */
  lemma {:induction false} FullIsFittable(src: ResourceMetrics, maxBytes: int)
    requires Full(src.scopeMetrics) && src.scopeMetrics != []
    ensures Fittable(src, maxBytes)
  {
    FullDropsNothing(src.scopeMetrics);
    var sm := src.scopeMetrics[0];
    assert FullScope(sm);
    BareItemsOfFull(sm.scope, sm.metrics);
    hide Cost, Dropped, BareItems;
    assert UnitCount(src) >= |ScopeItems(sm)| > 0;
  }

  function OnlyEmptyMetric(name: Bytes): ResourceMetrics {
    ResourceMetrics(None, [ScopeMetrics(Scope([], [], [], []), [Metrics(name, [], [], Gauge([]))])])
  }

  /** A gauge without points: the splitter makes no request of it, and it is sent as it is, whatever its size. */
  lemma {:induction false} EmptyMetricEscapes(name: Bytes, maxBytes: int)
    requires maxBytes < 48 + |name|
    ensures SplitsGreedily(OnlyEmptyMetric(name), maxBytes, []) &&
        RequestsFor(OnlyEmptyMetric(name), []) == [OnlyEmptyMetric(name)]
    ensures UnitCount(OnlyEmptyMetric(name)) == 0 && RequestEstimate(OnlyEmptyMetric(name)) == 48 + |name| > maxBytes
    ensures !Fittable(OnlyEmptyMetric(name), maxBytes)
  {
    var src := OnlyEmptyMetric(name);
    var sm := src.scopeMetrics[0];
    var m := sm.metrics[0];
    assert Units(m.data) == [] && MetricItems(sm.scope, m) == [];
    assert BareItems(sm.scope, sm.metrics) == MetricItems(sm.scope, m) + BareItems(sm.scope, sm.metrics[1..]) == [];
    assert Items(src.scopeMetrics) == ScopeItems(sm) + Items(src.scopeMetrics[1..]) == [];
    assert Delivers(src.resource, maxBytes, [], [], []);
    SumByOne(MetricEstimate, m);
    SumByOne(ScopeEstimate, sm);
    assert RequestEstimate(src) == 48 + |name|;
    KeptAndDropped(src);
  }
}
