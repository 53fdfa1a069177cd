// The telemetry data model: what one collection cycle hands to the exporter.
module MetricData {

  /** Byte strings. Lengths are what the exporter accounts for. */
  type Bytes = seq<bv8>

  datatype AttributeValue =
    | StringValue(text: Bytes)
    | BoolValue(flag: bool)
    | Int64Value(number: int)
    | Float64Value(bits: bv64)
    | StringSliceValue(texts: seq<Bytes>)
    | BoolSliceValue(flags: seq<bool>)
    | Int64SliceValue(numbers: seq<int>)
    | Float64SliceValue(doubles: seq<bv64>)
    | InvalidValue

  datatype KeyValue = KeyValue(key: Bytes, value: AttributeValue)

  datatype Exemplar = Exemplar(filtered: seq<KeyValue>, spanID: Bytes, traceID: Bytes)

  datatype Number = AsDouble(bits: bv64) | AsInt(value: int)

  datatype NumberPoint = NumberPoint(
    attributes: seq<KeyValue>, start: nat, time: nat, value: Number, exemplars: seq<Exemplar>)

  datatype HistogramPoint = HistogramPoint(
    attributes: seq<KeyValue>, bounds: seq<bv64>, bucketCounts: seq<nat>, exemplars: seq<Exemplar>)

  datatype ExponentialPoint = ExponentialPoint(
    attributes: seq<KeyValue>, positive: seq<nat>, negative: seq<nat>, exemplars: seq<Exemplar>)

  datatype SummaryPoint = SummaryPoint(attributes: seq<KeyValue>, quantileValues: seq<(bv64, bv64)>)

  /** Each constructor stands for both the float64 and the int64 form of its aggregation. */
  datatype Aggregation =
    | Gauge(points: seq<NumberPoint>)
    | Sum(points: seq<NumberPoint>, temporality: nat, monotonic: bool)
    | Histogram(histogramPoints: seq<HistogramPoint>, histogramTemporality: nat)
    | ExponentialHistogram(exponentialPoints: seq<ExponentialPoint>)
    | Summary(summaryPoints: seq<SummaryPoint>)
    | NoData

  datatype Scope = Scope(name: Bytes, version: Bytes, schemaURL: Bytes, attributes: seq<KeyValue>)

  datatype Metrics = Metrics(name: Bytes, description: Bytes, unitName: Bytes, data: Aggregation)

  datatype ScopeMetrics = ScopeMetrics(scope: Scope, metrics: seq<Metrics>)

  /** A missing resource is `None`. */
  datatype Resource = None | Resource(schemaURL: Bytes, attributes: seq<KeyValue>)

  datatype ResourceMetrics = ResourceMetrics(resource: Resource, scopeMetrics: seq<ScopeMetrics>)
}
