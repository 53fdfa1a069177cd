// The byte estimates that drive the split, as functions, with the loops of the exporter proved against them.
module SizeEstimate {
  import opened MetricData
  import opened Sums

  const MESSAGE_OVERHEAD := 16
  const ATTRIBUTE_OVERHEAD := 16
  const DATA_POINT_OVERHEAD := 64
  const ARRAY_ELEM_OVERHEAD := 4
  const NUMERIC_VALUE_LENGTH := 10

  function StringElementSize(text: Bytes): nat {
    ARRAY_ELEM_OVERHEAD + |text|
  }

  function KeyValueSize(kv: KeyValue): nat {
    ATTRIBUTE_OVERHEAD + |kv.key| +
    match kv.value
    case StringValue(text) => |text|
    case StringSliceValue(texts) => SumBy(StringElementSize, texts)
    case BoolSliceValue(flags) => |flags| * ARRAY_ELEM_OVERHEAD
    case Int64SliceValue(numbers) => |numbers| * (ARRAY_ELEM_OVERHEAD + NUMERIC_VALUE_LENGTH)
    case Float64SliceValue(doubles) => |doubles| * (ARRAY_ELEM_OVERHEAD + NUMERIC_VALUE_LENGTH)
    case _ => NUMERIC_VALUE_LENGTH
  }

  function AttributesSize(attributes: seq<KeyValue>): nat {
    SumBy(KeyValueSize, attributes)
  }

  function ExemplarSize(e: Exemplar): nat {
    DATA_POINT_OVERHEAD + |e.spanID| + |e.traceID| + AttributesSize(e.filtered)
  }

  function NumberPointSize(p: NumberPoint): nat {
    DATA_POINT_OVERHEAD + AttributesSize(p.attributes) + SumBy(ExemplarSize, p.exemplars)
  }

  function HistogramPointSize(p: HistogramPoint): nat {
    DATA_POINT_OVERHEAD + 3 * NUMERIC_VALUE_LENGTH + (|p.bounds| + |p.bucketCounts|) * NUMERIC_VALUE_LENGTH +
    AttributesSize(p.attributes) + SumBy(ExemplarSize, p.exemplars)
  }

  function ExponentialPointSize(p: ExponentialPoint): nat {
    2 * DATA_POINT_OVERHEAD + (|p.positive| + |p.negative|) * NUMERIC_VALUE_LENGTH +
    AttributesSize(p.attributes) + SumBy(ExemplarSize, p.exemplars)
  }

  function SummaryPointSize(p: SummaryPoint): nat {
    DATA_POINT_OVERHEAD + |p.quantileValues| * (MESSAGE_OVERHEAD + 2 * NUMERIC_VALUE_LENGTH) +
    AttributesSize(p.attributes)
  }

  function ResourceSize(r: Resource): nat {
    match r
    case None => 0
    case Resource(schemaURL, attributes) => |schemaURL| + AttributesSize(attributes)
  }

  function ScopeSize(s: Scope): nat {
    |s.name| + |s.version| + |s.schemaURL| + AttributesSize(s.attributes)
  }

  function ResourceHeader(r: Resource): nat {
    MESSAGE_OVERHEAD + ResourceSize(r)
  }

  function ScopeHeader(s: Scope): nat {
    MESSAGE_OVERHEAD + ScopeSize(s)
  }

  function MetricHeader(m: Metrics): nat {
    MESSAGE_OVERHEAD + |m.name| + |m.description| + |m.unitName|
  }

  /** One unit: the smallest piece of a metric that can travel on its own. */
  datatype Unit =
    | NumberUnit(number: NumberPoint)
    | HistogramUnit(histogram: HistogramPoint)
    | WholeUnit(whole: Aggregation)

  function UnitSize(u: Unit): nat {
    match u
    case NumberUnit(p) => NumberPointSize(p)
    case HistogramUnit(p) => HistogramPointSize(p)
    case WholeUnit(ExponentialHistogram(points)) => SumBy(ExponentialPointSize, points)
    case WholeUnit(Summary(points)) => SumBy(SummaryPointSize, points)
    case WholeUnit(_) => 0
  }

  /** Points travel alone where the aggregation can be sliced; the others are one unit, even with no points. */
  function Units(data: Aggregation): seq<Unit> {
    match data
    case Gauge(points) => seq(|points|, i requires 0 <= i < |points| => NumberUnit(points[i]))
    case Sum(points, _, _) => seq(|points|, i requires 0 <= i < |points| => NumberUnit(points[i]))
    case Histogram(points, _) => seq(|points|, i requires 0 <= i < |points| => HistogramUnit(points[i]))
    case NoData => []
    case _ => [WholeUnit(data)]
  }

  /** The estimate of a whole request, recomputed from its tree. */
  function MetricEstimate(m: Metrics): nat {
    MetricHeader(m) + SumBy(UnitSize, Units(m.data))
  }

  function ScopeEstimate(sm: ScopeMetrics): nat {
    ScopeHeader(sm.scope) + SumBy(MetricEstimate, sm.metrics)
  }

  function RequestEstimate(rm: ResourceMetrics): nat {
    ResourceHeader(rm.resource) + SumBy(ScopeEstimate, rm.scopeMetrics)
  }

  method ComputeAttributesSize(attributes: seq<KeyValue>) returns (size: nat)
    ensures size == AttributesSize(attributes)
  {
    size := 0;
    for i := 0 to |attributes|
      invariant size == AttributesSize(attributes[..i])
    {
      SumBySnoc(KeyValueSize, attributes, i);
      size := size + KeyValueSize(attributes[i]);
    }
    assert attributes[..|attributes|] == attributes;
  }

  method ComputeExemplarsSize(exemplars: seq<Exemplar>) returns (size: nat)
    ensures size == SumBy(ExemplarSize, exemplars)
  {
    size := 0;
    for i := 0 to |exemplars|
      invariant size == SumBy(ExemplarSize, exemplars[..i])
    {
      SumBySnoc(ExemplarSize, exemplars, i);
      var filtered := ComputeAttributesSize(exemplars[i].filtered);
      size := size + DATA_POINT_OVERHEAD + |exemplars[i].spanID| + |exemplars[i].traceID| + filtered;
    }
    assert exemplars[..|exemplars|] == exemplars;
  }

  method ComputeWholeMetricSize(data: Aggregation) returns (size: nat)
    ensures size == UnitSize(WholeUnit(data))
  {
    size := 0;
    match data
    case ExponentialHistogram(points) =>
      for i := 0 to |points|
        invariant size == SumBy(ExponentialPointSize, points[..i])
      {
        SumBySnoc(ExponentialPointSize, points, i);
        var buckets := (|points[i].positive| + |points[i].negative|) * NUMERIC_VALUE_LENGTH;
        var attributes := ComputeAttributesSize(points[i].attributes);
        var exemplars := ComputeExemplarsSize(points[i].exemplars);
        size := size + 2 * DATA_POINT_OVERHEAD + buckets + attributes + exemplars;
      }
      assert points[..|points|] == points;
    case Summary(points) =>
      for i := 0 to |points|
        invariant size == SumBy(SummaryPointSize, points[..i])
      {
        SumBySnoc(SummaryPointSize, points, i);
        var attributes := ComputeAttributesSize(points[i].attributes);
        size := size + DATA_POINT_OVERHEAD +
          |points[i].quantileValues| * (MESSAGE_OVERHEAD + 2 * NUMERIC_VALUE_LENGTH) + attributes;
      }
      assert points[..|points|] == points;
    case _ =>
  }

  method NumberPointSizes(points: seq<NumberPoint>) returns (sizes: seq<nat>)
    ensures |sizes| == |points| && forall i | 0 <= i < |points| :: sizes[i] == NumberPointSize(points[i])
  {
    sizes := [];
    for i := 0 to |points|
      invariant |sizes| == i && forall j | 0 <= j < i :: sizes[j] == NumberPointSize(points[j])
    {
      var attributes := ComputeAttributesSize(points[i].attributes);
      var exemplars := ComputeExemplarsSize(points[i].exemplars);
      sizes := sizes + [DATA_POINT_OVERHEAD + attributes + exemplars];
    }
  }

  method HistogramPointSizes(points: seq<HistogramPoint>) returns (sizes: seq<nat>)
    ensures |sizes| == |points| && forall i | 0 <= i < |points| :: sizes[i] == HistogramPointSize(points[i])
  {
    sizes := [];
    for i := 0 to |points|
      invariant |sizes| == i && forall j | 0 <= j < i :: sizes[j] == HistogramPointSize(points[j])
    {
      var buckets := (|points[i].bounds| + |points[i].bucketCounts|) * NUMERIC_VALUE_LENGTH;
      var attributes := ComputeAttributesSize(points[i].attributes);
      var exemplars := ComputeExemplarsSize(points[i].exemplars);
      sizes := sizes + [DATA_POINT_OVERHEAD + 3 * NUMERIC_VALUE_LENGTH + buckets + attributes + exemplars];
    }
  }

  /** One size per unit, in unit order. */
  method DataPointSizes(data: Aggregation) returns (sizes: seq<nat>)
    ensures |sizes| == |Units(data)|
    ensures forall i | 0 <= i < |sizes| :: sizes[i] == UnitSize(Units(data)[i])
  {
    match data
    case Gauge(points) => sizes := NumberPointSizes(points);
    case Sum(points, _, _) => sizes := NumberPointSizes(points);
    case Histogram(points, _) => sizes := HistogramPointSizes(points);
    case NoData => sizes := [];
    case _ =>
      var size := ComputeWholeMetricSize(data);
      sizes := [size];
  }
}
