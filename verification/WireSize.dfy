// The encoded size of a request (Protocol Buffers Encoding, sections "Base 128 Varints" and "Length-Delimited
// Records"; OTLP metrics.proto, common.proto and resource.proto), and the estimate as an upper bound of it.
module WireSize {
  import opened MetricData
  import opened Sums
  import opened SizeEstimate
  import opened UnitStream

  const LIMIT_28 := 0x1000_0000

  /**
   * How large the parts of a request may be: the bytes of a string in an array, the estimate of an attribute, the
   * counts on one side of an exponential point, and the bytes of each text of a metric and of a scope without points.
   */
  datatype Limits = Limits(element: nat, attribute: nat, buckets: nat, metricText: nat, scopeText: nat)

  /** Up to here the overheads of the estimate are enough. */
  const LIMITS := Limits(125, 0x20_0003, 1637, 127, 127)

  predicate Within(l: Limits, wider: Limits) {
    && l.element <= wider.element && l.attribute <= wider.attribute && l.buckets <= wider.buckets
    && l.metricText <= wider.metricText && l.scopeText <= wider.scopeText
  }

  /** Seven bits a byte. */
  function VarintLength(n: nat): (length: nat)
    ensures length >= 1
  {
    if n < 128 then 1 else 1 + VarintLength(n / 128)
  }

  lemma {:induction false} VarintBounds(n: nat)
    ensures n < 0x80 <==> VarintLength(n) <= 1
    ensures n < 0x4000 <==> VarintLength(n) <= 2
    ensures n < 0x20_0000 <==> VarintLength(n) <= 3
    ensures n < 0x1000_0000 <==> VarintLength(n) <= 4
  {
    if n >= 0x80 {
      var a := n / 128;
      assert VarintLength(n) == 1 + VarintLength(a);
      if a >= 0x80 {
        var b := a / 128;
        assert VarintLength(a) == 1 + VarintLength(b);
        if b >= 0x80 {
          var c := b / 128;
          assert VarintLength(b) == 1 + VarintLength(c);
          if c >= 0x80 {
            assert VarintLength(c) == 1 + VarintLength(c / 128);
          }
        }
      }
    }
  }

  function Power128(k: nat): (p: nat)
    ensures p >= 1
  {
    if k == 0 then 1 else 128 * Power128(k - 1)
  }

  lemma {:induction false} Varint64(n: nat, digits: nat)
    requires digits >= 1 && n < Power128(digits)
    ensures VarintLength(n) <= digits
    decreases digits
  {
    if n >= 128 {
      assert digits > 1;
      Varint64(n / 128, digits - 1);
    }
  }

  /** A length-delimited field with a one-byte tag. */
  function Field(length: nat): nat {
    1 + VarintLength(length) + length
  }

  /** proto3 leaves empty strings out. */
  function StringField(text: Bytes): nat {
    if text == [] then 0 else Field(|text|)
  }

  function Fixed64Field(value: nat): nat {
    if value == 0 then 0 else 9
  }

  predicate IsInt64(number: int) {
    -0x8000_0000_0000_0000 <= number < 0x8000_0000_0000_0000
  }

  function UnsignedOf(number: int): nat
    requires IsInt64(number)
  {
    if number >= 0 then number else number + 0x1_0000_0000_0000_0000
  }

  predicate Bounded(kv: KeyValue, l: Limits) {
    && KeyValueSize(kv) <= l.attribute
    && match kv.value
       case Int64Value(number) => IsInt64(number)
       case StringSliceValue(texts) => forall text | text in texts :: |text| <= l.element
       case Int64SliceValue(numbers) => forall number | number in numbers :: IsInt64(number)
       case _ => true
  }

  /** One element of a string array: an AnyValue holding a string. */
  function StringElementWire(text: Bytes): nat {
    Field(Field(|text|))
  }

  /** A number that is no int64 has no encoding. */
  function Int64Wire(number: int): nat {
    if IsInt64(number) then 1 + VarintLength(UnsignedOf(number)) else 0
  }

  /** One element of a number array. */
  function Int64ElementWire(number: int): nat {
    Field(Int64Wire(number))
  }

  /**
   * An array holds its elements as values of their own; a bool takes two bytes and a double nine. What is
   * no value is sent as the text INVALID.
   */
  function AnyValueWire(value: AttributeValue): nat {
    match value
    case StringValue(text) => Field(|text|)
    case BoolValue(_) => 2
    case Int64Value(number) => Int64Wire(number)
    case Float64Value(_) => 9
    case StringSliceValue(texts) => Field(SumBy(StringElementWire, texts))
    case BoolSliceValue(flags) => Field(Field(2) * |flags|)
    case Int64SliceValue(numbers) => Field(SumBy(Int64ElementWire, numbers))
    case Float64SliceValue(doubles) => Field(Field(9) * |doubles|)
    case InvalidValue => Field(7)
  }

  function AttributeWire(kv: KeyValue): nat {
    Field(StringField(kv.key) + Field(AnyValueWire(kv.value)))
  }

  function AttributesWire(attributes: seq<KeyValue>): nat {
    SumBy(AttributeWire, attributes)
  }

  /** A time and a value, the identifiers, and the filtered attributes. */
  function ExemplarWire(e: Exemplar): nat {
    Field(9 + 9 + StringField(e.spanID) + StringField(e.traceID) + AttributesWire(e.filtered))
  }

  function NumberPointWire(p: NumberPoint): nat {
    Field(AttributesWire(p.attributes) + Fixed64Field(p.start) + Fixed64Field(p.time) + 9 +
          SumBy(ExemplarWire, p.exemplars))
  }

  function PackedFixed64(count: nat): nat {
    if count == 0 then 0 else Field(8 * count)
  }

  /** Start, time, count, sum, min and max are fixed-width. */
  function HistogramPointWire(p: HistogramPoint): nat {
    Field(AttributesWire(p.attributes) + 6 * 9 + PackedFixed64(|p.bucketCounts|) + PackedFixed64(|p.bounds|) +
          SumBy(ExemplarWire, p.exemplars))
  }

  /** An offset, and packed counts. */
  function BucketsWire(counts: seq<nat>): nat {
    Field(6 + if counts == [] then 0 else Field(SumBy(VarintLength, counts)))
  }

  /** Start, time, count, sum, zero count, min, max and zero threshold are fixed-width; the scale is a short varint. */
  function ExponentialPointWire(p: ExponentialPoint): nat {
    Field(AttributesWire(p.attributes) + 8 * 9 + 6 + BucketsWire(p.positive) + BucketsWire(p.negative) +
          SumBy(ExemplarWire, p.exemplars))
  }

  /** Start, time, count and sum, and two doubles for every quantile. */
  function SummaryPointWire(p: SummaryPoint): nat {
    Field(AttributesWire(p.attributes) + 4 * 9 + Field(2 * 9) * |p.quantileValues|)
  }

  /** Temporality and monotonicity take two bytes each at most. */
  function DataWire(data: Aggregation): nat {
    match data
    case Gauge(points) => Field(SumBy(NumberPointWire, points))
    case Sum(points, _, _) => Field(SumBy(NumberPointWire, points) + 4)
    case Histogram(points, _) => Field(SumBy(HistogramPointWire, points) + 2)
    case ExponentialHistogram(points) => Field(SumBy(ExponentialPointWire, points) + 2)
    case Summary(points) => Field(SumBy(SummaryPointWire, points))
    case NoData => 0
  }

  function MetricWire(m: Metrics): nat {
    Field(StringField(m.name) + StringField(m.description) + StringField(m.unitName) + DataWire(m.data))
  }

  function ScopeWire(sm: ScopeMetrics): nat {
    Field(Field(StringField(sm.scope.name) + StringField(sm.scope.version) + AttributesWire(sm.scope.attributes)) +
          SumBy(MetricWire, sm.metrics) + StringField(sm.scope.schemaURL))
  }

  function ResourceFields(r: Resource): nat {
    match r
    case None => Field(0)
    case Resource(schemaURL, attributes) => Field(AttributesWire(attributes)) + StringField(schemaURL)
  }

  /** The whole export request, its envelope included. */
  function RequestWire(rm: ResourceMetrics): nat {
    Field(ResourceFields(rm.resource) + SumBy(ScopeWire, rm.scopeMetrics))
  }

  // ---- Requests within limits ----

  predicate BoundedExemplar(e: Exemplar, l: Limits) {
    forall kv | kv in e.filtered :: Bounded(kv, l)
  }

  predicate BoundedPoint(attributes: seq<KeyValue>, exemplars: seq<Exemplar>, l: Limits) {
    && (forall kv | kv in attributes :: Bounded(kv, l))
    && (forall e | e in exemplars :: BoundedExemplar(e, l))
  }

  predicate BoundedCounts(counts: seq<nat>, l: Limits) {
    |counts| <= l.buckets && forall count | count in counts :: count < 0x1_0000_0000_0000_0000
  }

  predicate BoundedExponential(p: ExponentialPoint, l: Limits) {
    BoundedPoint(p.attributes, p.exemplars, l) && BoundedCounts(p.positive, l) && BoundedCounts(p.negative, l)
  }

  predicate BoundedData(data: Aggregation, l: Limits) {
    match data
    case Gauge(points) => forall p | p in points :: BoundedPoint(p.attributes, p.exemplars, l)
    case Sum(points, _, _) => forall p | p in points :: BoundedPoint(p.attributes, p.exemplars, l)
    case Histogram(points, _) => forall p | p in points :: BoundedPoint(p.attributes, p.exemplars, l)
    case ExponentialHistogram(points) => forall p | p in points :: BoundedExponential(p, l)
    case Summary(points) => forall p | p in points :: BoundedPoint(p.attributes, [], l)
    case NoData => true
  }

  predicate BoundedScope(sm: ScopeMetrics, l: Limits) {
    && (forall kv | kv in sm.scope.attributes :: Bounded(kv, l))
    && (forall m | m in sm.metrics :: BoundedData(m.data, l))
  }

  predicate BoundedRequest(rm: ResourceMetrics, l: Limits) {
    && (rm.resource.Resource? ==> forall kv | kv in rm.resource.attributes :: Bounded(kv, l))
    && forall sm | sm in rm.scopeMetrics :: BoundedScope(sm, l)
  }

  predicate HasPoints(data: Aggregation) {
    match data
    case Gauge(points) => points != []
    case Sum(points, _, _) => points != []
    case Histogram(points, _) => points != []
    case ExponentialHistogram(points) => points != []
    case Summary(points) => points != []
    case NoData => false
  }

  predicate ShortNames(m: Metrics, l: Limits) {
    |m.name| <= l.metricText && |m.description| <= l.metricText && |m.unitName| <= l.metricText
  }

  predicate ShortScope(scope: Scope, l: Limits) {
    |scope.name| <= l.scopeText && |scope.version| <= l.scopeText && |scope.schemaURL| <= l.scopeText
  }

  /** Metrics and scopes without points have no slack to spare: their texts are to be short. */
  predicate EmptiesShortIn(sm: ScopeMetrics, l: Limits) {
    && (forall m | m in sm.metrics :: HasPoints(m.data) || ShortNames(m, l))
    && (ShortScope(sm.scope, l) || exists m | m in sm.metrics :: HasPoints(m.data))
  }

  predicate EmptiesShort(scopes: seq<ScopeMetrics>, l: Limits) {
    forall sm | sm in scopes :: EmptiesShortIn(sm, l)
  }

  // ---- Bottom-up bounds. Every nested length is below 2^28 because the estimate around it is. ----

  lemma {:induction false} FieldBound(length: nat)
    requires length < LIMIT_28
    ensures Field(length) <= length + 5
  {
    VarintBounds(length);
  }

  lemma {:induction false} StringFieldBound(text: Bytes)
    requires |text| < LIMIT_28
    ensures StringField(text) <= |text| + 5
  {
    FieldBound(|text|);
  }

  lemma {:induction false} Powers()
    ensures Power128(10) >= 0x1_0000_0000_0000_0000
  {
    assert Power128(2) == 128 * Power128(1) && Power128(1) == 128 * Power128(0);
    assert Power128(4) == 128 * Power128(3) && Power128(3) == 128 * Power128(2);
    assert Power128(6) == 128 * Power128(5) && Power128(5) == 128 * Power128(4);
    assert Power128(8) == 128 * Power128(7) && Power128(7) == 128 * Power128(6);
    assert Power128(10) == 128 * Power128(9) && Power128(9) == 128 * Power128(8);
  }

  lemma {:induction false} Uint64Bound(n: nat)
    requires n < 0x1_0000_0000_0000_0000
    ensures VarintLength(n) <= 10
  {
    Powers();
    Varint64(n, 10);
  }

  lemma {:induction false} Int64Bound(number: int)
    requires IsInt64(number)
    ensures VarintLength(UnsignedOf(number)) <= 10
  {
    Uint64Bound(UnsignedOf(number));
  }

  /** The four bytes an array element adds are enough exactly up to 125 bytes. */
  lemma {:induction false} StringElementBound(text: Bytes)
    ensures StringElementWire(text) <= StringElementSize(text) <==> |text| <= LIMITS.element
  {
    VarintBounds(|text|);
    VarintBounds(Field(|text|));
  }

  lemma {:induction false} StringElementsBound(texts: seq<Bytes>)
    requires forall text | text in texts :: |text| <= LIMITS.element
    ensures SumBy(StringElementWire, texts) <= SumBy(StringElementSize, texts)
  {
    hide StringElementWire, StringElementSize;
    forall text | text in texts
      ensures StringElementWire(text) + 0 <= StringElementSize(text)
    {
      StringElementBound(text);
    }
    SumByBound(StringElementWire, StringElementSize, 0, texts);
  }

  lemma {:induction false} Int64ElementsBound(numbers: seq<int>)
    requires forall number | number in numbers :: IsInt64(number)
    ensures SumBy(Int64ElementWire, numbers) <= 14 * |numbers|
  {
    if numbers != [] {
      Int64Bound(numbers[0]);
      VarintBounds(Int64Wire(numbers[0]));
      Int64ElementsBound(numbers[1..]);
    }
  }

  /** Arrays and texts stay below their estimate plus a tag and a length of three bytes. */
  lemma {:induction false} AnyValueBound(kv: KeyValue)
    requires Bounded(kv, LIMITS)
    ensures AnyValueWire(kv.value) + |kv.key| <= KeyValueSize(kv) - ATTRIBUTE_OVERHEAD + 4
  {
    hide UnsignedOf, VarintLength;
    VarintBounds(2);
    VarintBounds(9);
    match kv.value {
      case StringValue(text) =>
        VarintBounds(|text|);
      case Int64Value(number) =>
        Int64Bound(number);
      case StringSliceValue(texts) =>
        StringElementsBound(texts);
        VarintBounds(SumBy(StringElementWire, texts));
      case BoolSliceValue(flags) =>
        VarintBounds(4 * |flags|);
      case Int64SliceValue(numbers) =>
        Int64ElementsBound(numbers);
        VarintBounds(SumBy(Int64ElementWire, numbers));
      case Float64SliceValue(doubles) =>
        VarintBounds(11 * |doubles|);
      case InvalidValue =>
        VarintBounds(7);
      case _ =>
    }
  }

  lemma {:induction false} AttributeBound(kv: KeyValue)
    requires Bounded(kv, LIMITS)
    ensures AttributeWire(kv) <= KeyValueSize(kv)
  {
    AnyValueBound(kv);
    hide VarintLength, AnyValueWire, KeyValueSize;
    VarintBounds(|kv.key|);
    VarintBounds(AnyValueWire(kv.value));
    VarintBounds(StringField(kv.key) + Field(AnyValueWire(kv.value)));
  }

  lemma {:induction false} AttributesBound(attributes: seq<KeyValue>)
    requires forall kv | kv in attributes :: Bounded(kv, LIMITS)
    ensures AttributesWire(attributes) <= AttributesSize(attributes)
  {
    hide AttributeWire, KeyValueSize, Bounded;
    forall kv | kv in attributes
      ensures AttributeWire(kv) + 0 <= KeyValueSize(kv)
    {
      AttributeBound(kv);
    }
    SumByBound(AttributeWire, KeyValueSize, 0, attributes);
  }

  lemma {:induction false} ExemplarBound(e: Exemplar)
    requires BoundedExemplar(e, LIMITS) && ExemplarSize(e) < LIMIT_28
    ensures ExemplarWire(e) <= ExemplarSize(e)
  {
    hide AttributesWire, AttributesSize;
    AttributesBound(e.filtered);
    StringFieldBound(e.spanID);
    StringFieldBound(e.traceID);
    FieldBound(9 + 9 + StringField(e.spanID) + StringField(e.traceID) + AttributesWire(e.filtered));
  }

  lemma {:induction false} ElementBound<T>(f: T -> nat, xs: seq<T>, x: T)
    requires x in xs
    ensures f(x) <= SumBy(f, xs)
  {
    if xs[0] != x {
      ElementBound(f, xs[1..], x);
    }
  }

  lemma {:induction false} ExemplarsBound(exemplars: seq<Exemplar>)
    requires forall e | e in exemplars :: BoundedExemplar(e, LIMITS)
    requires SumBy(ExemplarSize, exemplars) < LIMIT_28
    ensures SumBy(ExemplarWire, exemplars) <= SumBy(ExemplarSize, exemplars)
  {
    hide ExemplarWire, ExemplarSize, BoundedExemplar;
    forall e | e in exemplars
      ensures ExemplarWire(e) + 0 <= ExemplarSize(e)
    {
      ElementBound(ExemplarSize, exemplars, e);
      ExemplarBound(e);
    }
    SumByBound(ExemplarWire, ExemplarSize, 0, exemplars);
  }

  const POINT_SLACK := 22

  lemma {:induction false} NumberPointBound(p: NumberPoint)
    requires BoundedPoint(p.attributes, p.exemplars, LIMITS) && NumberPointSize(p) < LIMIT_28
    ensures NumberPointWire(p) + POINT_SLACK <= NumberPointSize(p)
  {
    hide AttributesWire, AttributesSize, ExemplarWire, ExemplarSize;
    AttributesBound(p.attributes);
    ExemplarsBound(p.exemplars);
    FieldBound(AttributesWire(p.attributes) + Fixed64Field(p.start) + Fixed64Field(p.time) + 9 +
               SumBy(ExemplarWire, p.exemplars));
  }

  lemma {:induction false} HistogramPointBound(p: HistogramPoint)
    requires BoundedPoint(p.attributes, p.exemplars, LIMITS) && HistogramPointSize(p) < LIMIT_28
    ensures HistogramPointWire(p) + POINT_SLACK <= HistogramPointSize(p)
  {
    hide AttributesWire, AttributesSize, ExemplarWire, ExemplarSize;
    AttributesBound(p.attributes);
    ExemplarsBound(p.exemplars);
    FieldBound(8 * |p.bucketCounts|);
    FieldBound(8 * |p.bounds|);
    FieldBound(AttributesWire(p.attributes) + 6 * 9 + PackedFixed64(|p.bucketCounts|) + PackedFixed64(|p.bounds|) +
               SumBy(ExemplarWire, p.exemplars));
  }

  lemma {:induction false} NumberPointsBound(points: seq<NumberPoint>)
    requires forall p | p in points :: BoundedPoint(p.attributes, p.exemplars, LIMITS)
    requires SumBy(NumberPointSize, points) < LIMIT_28
    ensures SumBy(NumberPointWire, points) + POINT_SLACK * |points| <= SumBy(NumberPointSize, points)
  {
    hide NumberPointWire, NumberPointSize, BoundedPoint;
    forall p | p in points
      ensures NumberPointWire(p) + POINT_SLACK <= NumberPointSize(p)
    {
      ElementBound(NumberPointSize, points, p);
      NumberPointBound(p);
    }
    SumByBound(NumberPointWire, NumberPointSize, POINT_SLACK, points);
  }

  lemma {:induction false} HistogramPointsBound(points: seq<HistogramPoint>)
    requires forall p | p in points :: BoundedPoint(p.attributes, p.exemplars, LIMITS)
    requires SumBy(HistogramPointSize, points) < LIMIT_28
    ensures SumBy(HistogramPointWire, points) + POINT_SLACK * |points| <= SumBy(HistogramPointSize, points)
  {
    hide HistogramPointWire, HistogramPointSize, BoundedPoint;
    forall p | p in points
      ensures HistogramPointWire(p) + POINT_SLACK <= HistogramPointSize(p)
    {
      ElementBound(HistogramPointSize, points, p);
      HistogramPointBound(p);
    }
    SumByBound(HistogramPointWire, HistogramPointSize, POINT_SLACK, points);
  }

  lemma {:induction false} NumberUnits(points: seq<NumberPoint>)
    ensures SumBy(UnitSize, Units(Gauge(points))) == SumBy(NumberPointSize, points)
  {
    hide NumberPointSize;
    var units := Units(Gauge(points));
    if points != [] {
      NumberUnits(points[1..]);
      assert units[1..] == Units(Gauge(points[1..]));
      assert UnitSize(units[0]) == NumberPointSize(points[0]);
    }
  }

  lemma {:induction false} HistogramUnits(points: seq<HistogramPoint>, temporality: nat)
    ensures SumBy(UnitSize, Units(Histogram(points, temporality))) == SumBy(HistogramPointSize, points)
  {
    hide HistogramPointSize;
    var units := Units(Histogram(points, temporality));
    if points != [] {
      HistogramUnits(points[1..], temporality);
      assert units[1..] == Units(Histogram(points[1..], temporality));
      assert UnitSize(units[0]) == HistogramPointSize(points[0]);
    }
  }

  function Ten(n: nat): nat {
    10
  }

  lemma {:induction false} CountsBound(counts: seq<nat>)
    requires BoundedCounts(counts, LIMITS)
    ensures SumBy(VarintLength, counts) <= 10 * |counts|
  {
    forall count | count in counts
      ensures VarintLength(count) + 0 <= Ten(count)
    {
      Uint64Bound(count);
    }
    SumByBound(VarintLength, Ten, 0, counts);
    SumByConstant(Ten, 10, counts);
  }

  lemma {:induction false} BucketsBound(counts: seq<nat>)
    requires BoundedCounts(counts, LIMITS)
    ensures BucketsWire(counts) <= 10 * |counts| + 12
  {
    CountsBound(counts);
    hide VarintLength;
    VarintBounds(SumBy(VarintLength, counts));
    VarintBounds(6);
    VarintBounds(6 + Field(SumBy(VarintLength, counts)));
  }

  const EXPONENTIAL_SLACK := 21

  lemma {:induction false} ExponentialPointBound(p: ExponentialPoint)
    requires BoundedExponential(p, LIMITS) && ExponentialPointSize(p) < LIMIT_28
    ensures ExponentialPointWire(p) + EXPONENTIAL_SLACK <= ExponentialPointSize(p)
  {
    hide AttributesWire, AttributesSize, ExemplarWire, ExemplarSize, BucketsWire, BoundedCounts;
    AttributesBound(p.attributes);
    ExemplarsBound(p.exemplars);
    BucketsBound(p.positive);
    BucketsBound(p.negative);
    FieldBound(AttributesWire(p.attributes) + 8 * 9 + 6 + BucketsWire(p.positive) + BucketsWire(p.negative) +
               SumBy(ExemplarWire, p.exemplars));
  }

  lemma {:induction false} SummaryPointBound(p: SummaryPoint)
    requires BoundedPoint(p.attributes, [], LIMITS) && SummaryPointSize(p) < LIMIT_28
    ensures SummaryPointWire(p) + POINT_SLACK <= SummaryPointSize(p)
  {
    hide AttributesWire, AttributesSize;
    AttributesBound(p.attributes);
    VarintBounds(18);
    FieldBound(AttributesWire(p.attributes) + 4 * 9 + 20 * |p.quantileValues|);
  }

  lemma {:induction false} ExponentialPointsBound(points: seq<ExponentialPoint>)
    requires forall p | p in points :: BoundedExponential(p, LIMITS)
    requires SumBy(ExponentialPointSize, points) < LIMIT_28
    ensures SumBy(ExponentialPointWire, points) + EXPONENTIAL_SLACK * |points| <= SumBy(ExponentialPointSize, points)
  {
    hide ExponentialPointWire, ExponentialPointSize, BoundedExponential;
    forall p | p in points
      ensures ExponentialPointWire(p) + EXPONENTIAL_SLACK <= ExponentialPointSize(p)
    {
      ElementBound(ExponentialPointSize, points, p);
      ExponentialPointBound(p);
    }
    SumByBound(ExponentialPointWire, ExponentialPointSize, EXPONENTIAL_SLACK, points);
  }

  lemma {:induction false} SummaryPointsBound(points: seq<SummaryPoint>)
    requires forall p | p in points :: BoundedPoint(p.attributes, [], LIMITS)
    requires SumBy(SummaryPointSize, points) < LIMIT_28
    ensures SumBy(SummaryPointWire, points) + POINT_SLACK * |points| <= SumBy(SummaryPointSize, points)
  {
    hide SummaryPointWire, SummaryPointSize, BoundedPoint;
    forall p | p in points
      ensures SummaryPointWire(p) + POINT_SLACK <= SummaryPointSize(p)
    {
      ElementBound(SummaryPointSize, points, p);
      SummaryPointBound(p);
    }
    SumByBound(SummaryPointWire, SummaryPointSize, POINT_SLACK, points);
  }

  /** A metric that is sent whole is one unit. */
  lemma {:induction false} WholeUnits(data: Aggregation)
    requires data.ExponentialHistogram? || data.Summary?
    ensures SumBy(UnitSize, Units(data)) == UnitSize(WholeUnit(data))
  {
    SumByOne(UnitSize, WholeUnit(data));
  }

  /** Points pay for more than their own overhead. */
  lemma {:induction false} DataBound(data: Aggregation)
    requires BoundedData(data, LIMITS) && HasPoints(data) && SumBy(UnitSize, Units(data)) < LIMIT_28
    ensures DataWire(data) + 13 <= SumBy(UnitSize, Units(data))
  {
    hide NumberPointSize, NumberPointWire, HistogramPointSize, HistogramPointWire, BoundedPoint;
    hide ExponentialPointSize, ExponentialPointWire, SummaryPointSize, SummaryPointWire, BoundedExponential;
    match data {
      case Gauge(points) =>
        NumberUnits(points);
        NumberPointsBound(points);
        FieldBound(SumBy(NumberPointWire, points));
      case Sum(points, _, _) =>
        NumberUnits(points);
        assert Units(data) == Units(Gauge(points));
        NumberPointsBound(points);
        FieldBound(SumBy(NumberPointWire, points) + 4);
      case Histogram(points, temporality) =>
        HistogramUnits(points, temporality);
        HistogramPointsBound(points);
        FieldBound(SumBy(HistogramPointWire, points) + 2);
      case ExponentialHistogram(points) =>
        WholeUnits(data);
        ExponentialPointsBound(points);
        FieldBound(SumBy(ExponentialPointWire, points) + 2);
      case Summary(points) =>
        WholeUnits(data);
        SummaryPointsBound(points);
        FieldBound(SumBy(SummaryPointWire, points));
    }
  }

  /** A metric with points stays nine bytes below its estimate: enough for what its scope may exceed. */
  lemma {:induction false} MetricBound(m: Metrics)
    requires BoundedData(m.data, LIMITS) && HasPoints(m.data) && MetricEstimate(m) < LIMIT_28
    ensures MetricWire(m) + 9 <= MetricEstimate(m)
  {
    hide UnitSize, Units, DataWire, BoundedData;
    DataBound(m.data);
    StringFieldBound(m.name);
    StringFieldBound(m.description);
    StringFieldBound(m.unitName);
    FieldBound(StringField(m.name) + StringField(m.description) + StringField(m.unitName) + DataWire(m.data));
  }

  lemma {:induction false} ShortFieldBound(text: Bytes)
    requires |text| < 128
    ensures StringField(text) <= |text| + 2
  {
    VarintBounds(|text|);
  }

  lemma {:induction false} NoPointsNoSize(data: Aggregation)
    requires !HasPoints(data)
    ensures SumBy(UnitSize, Units(data)) == 0 && DataWire(data) <= 6
  {
    if data.ExponentialHistogram? || data.Summary? {
      WholeUnits(data);
    }
    assert VarintLength(0) == VarintLength(2) == VarintLength(4) == 1;
  }

  /** A metric without points has only its header, which has room for short texts. */
  lemma {:induction false} EmptyMetricBound(m: Metrics)
    requires BoundedData(m.data, LIMITS) && !HasPoints(m.data) && ShortNames(m, LIMITS)
    ensures MetricWire(m) <= MetricEstimate(m)
  {
    ShortFieldBound(m.name);
    ShortFieldBound(m.description);
    ShortFieldBound(m.unitName);
    NoPointsNoSize(m.data);
    hide VarintLength, Units, StringField, DataWire;
    VarintBounds(StringField(m.name) + StringField(m.description) + StringField(m.unitName) + DataWire(m.data));
  }

  lemma {:induction false} MetricsBound(metrics: seq<Metrics>, slack: nat)
    requires forall m | m in metrics :: BoundedData(m.data, LIMITS) && (HasPoints(m.data) || ShortNames(m, LIMITS))
    requires SumBy(MetricEstimate, metrics) < LIMIT_28
    requires slack == 9 ==> exists m | m in metrics :: HasPoints(m.data)
    requires slack == 9 || slack == 0
    ensures SumBy(MetricWire, metrics) + slack <= SumBy(MetricEstimate, metrics)
  {
    hide MetricWire, MetricEstimate, HasPoints, BoundedData, ShortNames;
    if metrics != [] {
      ElementBound(MetricEstimate, metrics, metrics[0]);
      if HasPoints(metrics[0].data) {
        MetricBound(metrics[0]);
        MetricsBound(metrics[1..], 0);
      } else {
        EmptyMetricBound(metrics[0]);
        MetricsBound(metrics[1..], slack);
      }
    }
  }

  lemma {:induction false} ScopeTextsBound(scope: Scope, slack: nat)
    requires slack == 9 || (slack == 0 && ShortScope(scope, LIMITS))
    requires |scope.name| < LIMIT_28 && |scope.version| < LIMIT_28 && |scope.schemaURL| < LIMIT_28
    ensures StringField(scope.name) + StringField(scope.version) + StringField(scope.schemaURL)
         <= |scope.name| + |scope.version| + |scope.schemaURL| + 6 + slack
  {
    hide StringField;
    if slack == 9 {
      StringFieldBound(scope.name);
      StringFieldBound(scope.version);
      StringFieldBound(scope.schemaURL);
    } else {
      ShortFieldBound(scope.name);
      ShortFieldBound(scope.version);
      ShortFieldBound(scope.schemaURL);
    }
  }

  /**
   * What a scope adds around its metrics: nine bytes more than its header has room for, or none if its texts are short.
   */
  lemma {:induction false} ScopeFrameBound(sm: ScopeMetrics, slack: nat)
    requires forall kv | kv in sm.scope.attributes :: Bounded(kv, LIMITS)
    requires slack == 9 || (slack == 0 && ShortScope(sm.scope, LIMITS))
    requires SumBy(MetricWire, sm.metrics) + slack <= SumBy(MetricEstimate, sm.metrics) && ScopeEstimate(sm) < LIMIT_28
    ensures ScopeWire(sm) <= ScopeEstimate(sm)
  {
    var scope := sm.scope;
    AttributesBound(scope.attributes);
    hide MetricWire, MetricEstimate, AttributesWire, AttributesSize, StringField, Field, Bounded, ShortScope;
    ScopeTextsBound(scope, slack);
    var inner := StringField(scope.name) + StringField(scope.version) + AttributesWire(scope.attributes);
    FieldBound(inner);
    FieldBound(Field(inner) + SumBy(MetricWire, sm.metrics) + StringField(scope.schemaURL));
  }

  lemma {:induction false} ScopeBound(sm: ScopeMetrics)
    requires BoundedScope(sm, LIMITS) && EmptiesShortIn(sm, LIMITS) && ScopeEstimate(sm) < LIMIT_28
    ensures ScopeWire(sm) <= ScopeEstimate(sm)
  {
    hide MetricWire, MetricEstimate, HasPoints, BoundedData, Bounded, ShortNames, ShortScope, ScopeWire;
    var slack := if exists m | m in sm.metrics :: HasPoints(m.data) then 9 else 0;
    MetricsBound(sm.metrics, slack);
    ScopeFrameBound(sm, slack);
  }

  /**
   * The estimate of a request is at least its encoded size, envelope included. A request that fits a limit below 2^28
   * is therefore accepted by a receiver with that limit.
   */
  lemma {:induction false} EstimateBoundsWire(rm: ResourceMetrics)
    requires BoundedRequest(rm, LIMITS) && EmptiesShort(rm.scopeMetrics, LIMITS) && RequestEstimate(rm) < LIMIT_28
    ensures RequestWire(rm) <= RequestEstimate(rm)
  {
    hide ScopeWire, ScopeEstimate, BoundedScope, EmptiesShortIn, AttributesWire, AttributesSize;
    forall sm | sm in rm.scopeMetrics
      ensures ScopeWire(sm) + 0 <= ScopeEstimate(sm)
    {
      ElementBound(ScopeEstimate, rm.scopeMetrics, sm);
      ScopeBound(sm);
    }
    SumByBound(ScopeWire, ScopeEstimate, 0, rm.scopeMetrics);
    match rm.resource {
      case None =>
        FieldBound(0);
      case Resource(schemaURL, attributes) =>
        AttributesBound(attributes);
        FieldBound(AttributesWire(attributes));
        StringFieldBound(schemaURL);
    }
    FieldBound(ResourceFields(rm.resource) + SumBy(ScopeWire, rm.scopeMetrics));
  }

  // ---- The limits are exact: one more, and some request encodes to more than its estimate ----

  /** The estimate bounds every request within the limits. */
  ghost predicate BoundHoldsFor(l: Limits) {
    forall rm | BoundedRequest(rm, l) && EmptiesShort(rm.scopeMetrics, l) && RequestEstimate(rm) < LIMIT_28 ::
      RequestWire(rm) <= RequestEstimate(rm)
  }

  /** A request within the limits that encodes to more than its estimate. */
  ghost predicate Escapes(rm: ResourceMetrics, l: Limits) {
    && BoundedRequest(rm, l) && EmptiesShort(rm.scopeMetrics, l) && RequestEstimate(rm) < LIMIT_28
    && RequestWire(rm) > RequestEstimate(rm)
  }

  lemma {:induction false} Wider(rm: ResourceMetrics, l: Limits, wider: Limits)
    requires Within(l, wider)
    ensures BoundedRequest(rm, l) ==> BoundedRequest(rm, wider)
    ensures EmptiesShort(rm.scopeMetrics, l) ==> EmptiesShort(rm.scopeMetrics, wider)
  {
    hide KeyValueSize;
    assert forall kv | Bounded(kv, l) :: Bounded(kv, wider);
    hide Bounded;
    assert forall e | BoundedExemplar(e, l) :: BoundedExemplar(e, wider);
    hide BoundedExemplar;
    assert forall attributes, exemplars | BoundedPoint(attributes, exemplars, l) ::
        BoundedPoint(attributes, exemplars, wider);
    hide BoundedPoint;
    assert forall p | BoundedExponential(p, l) :: BoundedExponential(p, wider);
    hide BoundedExponential;
    assert forall data | BoundedData(data, l) :: BoundedData(data, wider);
    hide BoundedData;
    assert forall sm | BoundedScope(sm, l) :: BoundedScope(sm, wider);
    assert forall sm | EmptiesShortIn(sm, l) :: EmptiesShortIn(sm, wider);
  }

  /** Below the limits the comment above the estimate constants is true. */
  lemma {:induction false} HoldsWithin(l: Limits)
    requires Within(l, LIMITS)
    ensures BoundHoldsFor(l)
  {
    hide BoundedRequest, EmptiesShort, RequestWire, RequestEstimate;
    forall rm | BoundedRequest(rm, l) && EmptiesShort(rm.scopeMetrics, l) && RequestEstimate(rm) < LIMIT_28
      ensures RequestWire(rm) <= RequestEstimate(rm)
    {
      Wider(rm, l, LIMITS);
      EstimateBoundsWire(rm);
    }
  }

  lemma {:induction false} FailsFrom(rm: ResourceMetrics, l: Limits, wider: Limits)
    requires Escapes(rm, l) && Within(l, wider)
    ensures !BoundHoldsFor(wider)
  {
    hide BoundedRequest, EmptiesShort, RequestWire, RequestEstimate, Within;
    Wider(rm, l, wider);
  }

  const BARE := Scope([], [], [], [])

  /** Letters. */
  function Text(length: nat): (text: Bytes)
    ensures |text| == length
  {
    seq(length, _ => 97)
  }

  function Copies<T>(n: nat, x: T): (xs: seq<T>)
    ensures |xs| == n && forall y | y in xs :: y == x
  {
    seq(n, _ => x)
  }

  lemma {:induction false} SumByCopies<T>(f: T -> nat, n: nat, x: T)
    ensures SumBy(f, Copies(n, x)) == n * f(x)
  {
    SumByConstant(f, f(x), Copies(n, x));
  }

  function BareRequest(metrics: seq<Metrics>): ResourceMetrics {
    ResourceMetrics(None, [ScopeMetrics(BARE, metrics)])
  }

  lemma {:induction false} BareRequestWire(metrics: seq<Metrics>)
    ensures RequestEstimate(BareRequest(metrics)) == 32 + SumBy(MetricEstimate, metrics)
    ensures RequestWire(BareRequest(metrics)) > SumBy(MetricWire, metrics)
  {
    hide MetricEstimate, MetricWire, VarintLength;
    var sm := ScopeMetrics(BARE, metrics);
    SumByOne(ScopeEstimate, sm);
    SumByOne(ScopeWire, sm);
    assert AttributesSize([]) == 0;
  }

  lemma {:induction false} BareRequestWithin(metrics: seq<Metrics>, l: Limits)
    requires forall m | m in metrics :: BoundedData(m.data, l) && (HasPoints(m.data) || ShortNames(m, l))
    ensures BoundedRequest(BareRequest(metrics), l) && EmptiesShort(BareRequest(metrics).scopeMetrics, l)
  {
    hide BoundedData, HasPoints, ShortNames, Bounded;
  }

  // ---- Strings of 126 bytes ----

  /** Two hundred strings of one byte too many. */
  function CrowdedAttribute(): KeyValue {
    KeyValue([107], StringSliceValue(Copies(200, Text(126))))
  }

  /** One gauge point with one attribute. */
  function CrowdedMetric(): Metrics {
    Metrics([], [], [], Gauge([NumberPoint([CrowdedAttribute()], 0, 0, AsInt(1), [])]))
  }

  function CrowdedRequest(): ResourceMetrics {
    BareRequest([CrowdedMetric()])
  }

  lemma {:induction false} CrowdedAttributeWire()
    ensures KeyValueSize(CrowdedAttribute()) == 26017 && AttributeWire(CrowdedAttribute()) >= 26200
    ensures Bounded(CrowdedAttribute(), LIMITS.(element := 126))
  {
    assert StringElementSize(Text(126)) == 130;
    assert StringElementWire(Text(126)) == 131 by { assert VarintLength(126) == 1 && VarintLength(128) == 2; }
    hide StringElementSize, StringElementWire, Text, VarintLength;
    SumByCopies(StringElementSize, 200, Text(126));
    SumByCopies(StringElementWire, 200, Text(126));
  }

  lemma {:induction false} CrowdedMetricWire()
    ensures MetricEstimate(CrowdedMetric()) == 26097 && MetricWire(CrowdedMetric()) >= 26200
    ensures BoundedData(CrowdedMetric().data, LIMITS.(element := 126)) && HasPoints(CrowdedMetric().data)
  {
    var m := CrowdedMetric();
    var point := m.data.points[0];
    CrowdedAttributeWire();
    hide KeyValueSize, AttributeWire, Bounded, CrowdedAttribute, VarintLength;
    SumByOne(KeyValueSize, CrowdedAttribute());
    SumByOne(AttributeWire, CrowdedAttribute());
    assert NumberPointSize(point) == 26081 && NumberPointWire(point) >= 26200;
    NumberUnits(m.data.points);
    SumByOne(NumberPointSize, point);
    SumByOne(NumberPointWire, point);
  }

  lemma {:induction false} CrowdedIsFull()
    ensures Full(CrowdedRequest().scopeMetrics)
  {
    var m := CrowdedMetric();
    assert |Units(m.data)| == 1;
    hide CrowdedMetric, Units;
    assert FullScope(ScopeMetrics(BARE, [m]));
  }

  /** String elements above the limit are outside the bound: this request encodes to more bytes than estimated. */
  lemma {:induction false} StringSlicesEscape()
    ensures Escapes(CrowdedRequest(), LIMITS.(element := 126)) && Full(CrowdedRequest().scopeMetrics)
  {
    var m := CrowdedMetric();
    CrowdedMetricWire();
    CrowdedIsFull();
    hide CrowdedMetric, MetricEstimate, MetricWire, BoundedData, HasPoints, RequestEstimate, RequestWire;
    hide BareRequest, BoundedRequest, EmptiesShort, Full;
    BareRequestWire([m]);
    BareRequestWithin([m], LIMITS.(element := 126));
    SumByOne(MetricEstimate, m);
    SumByOne(MetricWire, m);
  }

  /** True exactly for string elements of up to 125 bytes. */
  lemma {:induction false} ElementLimit(element: nat)
    ensures BoundHoldsFor(LIMITS.(element := element)) <==> element <= LIMITS.element
  {
    hide BoundHoldsFor, Escapes;
    if element <= LIMITS.element {
      HoldsWithin(LIMITS.(element := element));
    } else {
      StringSlicesEscape();
      FailsFrom(CrowdedRequest(), LIMITS.(element := 126), LIMITS.(element := element));
    }
  }

  /** A byte too many in each of thirteen scopes outweighs what the envelope of the request has to spare. */
  lemma {:induction false} ScopesEscape(sm: ScopeMetrics, l: Limits)
    requires BoundedScope(sm, l) && EmptiesShortIn(sm, l)
    requires ScopeWire(sm) > ScopeEstimate(sm) && 13 * ScopeEstimate(sm) + 16 < LIMIT_28
    ensures Escapes(ResourceMetrics(None, Copies(13, sm)), l)
  {
    hide ScopeEstimate, ScopeWire, BoundedScope, EmptiesShortIn, Copies, VarintLength;
    SumByCopies(ScopeEstimate, 13, sm);
    SumByCopies(ScopeWire, 13, sm);
  }

  // ---- Texts of 128 bytes without points, and attributes of more than two mebibytes ----

  /** A counter without points, with a name, a description and a unit of 128 bytes. */
  function EmptyCounter(): Metrics {
    Metrics(Text(128), Text(128), Text(128), Sum([], 2, true))
  }

  function EmptyCounters(): ResourceMetrics {
    BareRequest(Copies(40, EmptyCounter()))
  }

  lemma {:induction false} EmptyCounterWire()
    ensures MetricEstimate(EmptyCounter()) == 400 && MetricWire(EmptyCounter()) == 402
    ensures !HasPoints(EmptyCounter().data) && ShortNames(EmptyCounter(), LIMITS.(metricText := 128))
  {
    assert VarintLength(128) == 2 && VarintLength(0) == VarintLength(4) == 1 && VarintLength(399) == 2;
    assert Units(EmptyCounter().data) == [];
  }

  /** Every counter is two bytes short, so that the header of the request does not make up for them. */
  lemma {:induction false} EmptyCountersEscape()
    ensures Escapes(EmptyCounters(), LIMITS.(metricText := 128))
    ensures RequestEstimate(EmptyCounters()) == 16032
  {
    var m := EmptyCounter();
    var l := LIMITS.(metricText := 128);
    EmptyCounterWire();
    assert BoundedData(m.data, l);
    hide EmptyCounter, MetricEstimate, MetricWire, BoundedData, ShortNames, HasPoints, RequestEstimate, RequestWire;
    hide BareRequest, BoundedRequest, EmptiesShort, Copies;
    BareRequestWire(Copies(40, m));
    BareRequestWithin(Copies(40, m), l);
    SumByCopies(MetricEstimate, 40, m);
    SumByCopies(MetricWire, 40, m);
  }

  /** True exactly when the texts of metrics without points have at most 127 bytes. */
  lemma {:induction false} MetricTextLimit(length: nat)
    ensures BoundHoldsFor(LIMITS.(metricText := length)) <==> length <= LIMITS.metricText
  {
    hide BoundHoldsFor, Escapes;
    if length <= LIMITS.metricText {
      HoldsWithin(LIMITS.(metricText := length));
    } else {
      EmptyCountersEscape();
      FailsFrom(EmptyCounters(), LIMITS.(metricText := 128), LIMITS.(metricText := length));
    }
  }

  /** An attribute of the given estimate whose key and text have lengths of three bytes. */
  function LongAttribute(size: nat): KeyValue
    requires size >= 0x20_0000
  {
    KeyValue(Text(0x4000), StringValue(Text(size - 0x4000 - ATTRIBUTE_OVERHEAD)))
  }

  /** At the limit the estimate of an attribute is exact, and beyond it one byte is missing. */
  lemma {:induction false} LongAttributeWire(size: nat)
    requires LIMITS.attribute <= size <= LIMITS.attribute + 1
    ensures KeyValueSize(LongAttribute(size)) == size
    ensures AttributeWire(LongAttribute(size)) == size + if size > LIMITS.attribute then 1 else 0
  {
    var length := size - 0x4000 - ATTRIBUTE_OVERHEAD;
    hide VarintLength;
    VarintBounds(0x4000);
    VarintBounds(length);
    VarintBounds(length + 4);
    VarintBounds(size - 4);
  }

  /** Scopes without metrics. */
  function BareScopes(length: nat, size: nat): ResourceMetrics
    requires size >= 0x20_0000
  {
    ResourceMetrics(
      None, Copies(13, ScopeMetrics(Scope(Text(length), Text(length), Text(length), [LongAttribute(size)]), [])))
  }

  lemma {:induction false} BareScopeWire(scope: Scope, length: nat, size: nat)
    requires LIMITS.attribute <= size <= LIMITS.attribute + 1 && 0 < length <= 128
    requires |scope.name| == |scope.version| == |scope.schemaURL| == length
    requires scope.attributes == [LongAttribute(size)]
    ensures ScopeEstimate(ScopeMetrics(scope, [])) == 16 + 3 * length + size
    ensures ScopeWire(ScopeMetrics(scope, [])) == 16 + 3 * length + size +
                (if size > LIMITS.attribute then 1 else 0) + (if length == 128 then 3 else 0)
  {
    LongAttributeWire(size);
    hide LongAttribute, KeyValueSize, AttributeWire, VarintLength;
    SumByOne(KeyValueSize, LongAttribute(size));
    SumByOne(AttributeWire, LongAttribute(size));
    VarintBounds(length);
    var inner := 2 * StringField(scope.name) + AttributesWire(scope.attributes);
    VarintBounds(inner);
    VarintBounds(Field(inner) + StringField(scope.schemaURL));
  }

  lemma {:induction false} BareScopesEscape(length: nat, size: nat, l: Limits)
    requires LIMITS.attribute <= size <= LIMITS.attribute + 1 && 0 < length <= 128
    requires size > LIMITS.attribute || length == 128
    requires length <= l.scopeText && size <= l.attribute
    ensures Escapes(BareScopes(length, size), l)
  {
    var sm := BareScopes(length, size).scopeMetrics[0];
    var kv := sm.scope.attributes[0];
    LongAttributeWire(size);
    assert Bounded(kv, l);
    BareScopeWire(sm.scope, length, size);
    hide LongAttribute, KeyValueSize, AttributeWire, VarintLength, Bounded, ScopeWire, ScopeEstimate;
    ScopesEscape(sm, l);
  }

  /** True exactly when the texts of scopes without points have at most 127 bytes. */
  lemma {:induction false} ScopeTextLimit(length: nat)
    ensures BoundHoldsFor(LIMITS.(scopeText := length)) <==> length <= LIMITS.scopeText
  {
    hide BoundHoldsFor, Escapes;
    var l := LIMITS.(scopeText := length);
    if length <= LIMITS.scopeText {
      HoldsWithin(l);
    } else {
      BareScopesEscape(128, LIMITS.attribute, l);
      FailsFrom(BareScopes(128, LIMITS.attribute), l, l);
    }
  }

  /** True exactly for attributes with an estimate of at most 2^21 + 3. */
  lemma {:induction false} AttributeLimit(size: nat)
    ensures BoundHoldsFor(LIMITS.(attribute := size)) <==> size <= LIMITS.attribute
  {
    hide BoundHoldsFor, Escapes;
    var l := LIMITS.(attribute := size);
    if size <= LIMITS.attribute {
      HoldsWithin(l);
    } else {
      BareScopesEscape(1, LIMITS.attribute + 1, l);
      FailsFrom(BareScopes(1, LIMITS.attribute + 1), l, l);
    }
  }

  // ---- Exponential points with 1638 counts on each side ----

  const LONG_TEXT := 0x20_0000

  function LargeCounts(): (counts: seq<nat>)
    ensures |counts| == 1638
  {
    Copies(1638, 0xFFFF_FFFF_FFFF_FFFF)
  }

  function LargePoint(): ExponentialPoint {
    ExponentialPoint([LongAttribute(LIMITS.attribute)], LargeCounts(), LargeCounts(), [])
  }

  /** Long texts all around, so that every length takes four bytes. */
  function LargeScope(): ScopeMetrics {
    var t := Text(LONG_TEXT);
    ScopeMetrics(Scope(t, t, t, []), [Metrics(t, t, t, ExponentialHistogram([LargePoint()]))])
  }

  function LargeRequest(): ResourceMetrics {
    ResourceMetrics(None, Copies(13, LargeScope()))
  }

  lemma {:induction false} VarintBeyond(n: nat, digits: nat)
    requires n >= Power128(digits)
    ensures VarintLength(n) > digits
    decreases digits
  {
    if digits > 0 {
      VarintBeyond(n / 128, digits - 1);
    }
  }

  lemma {:induction false} LargestCount()
    ensures VarintLength(0xFFFF_FFFF_FFFF_FFFF) == 10
  {
    Uint64Bound(0xFFFF_FFFF_FFFF_FFFF);
    Powers();
    VarintBeyond(0xFFFF_FFFF_FFFF_FFFF, 9);
  }

  lemma {:induction false} LargeBuckets()
    ensures BucketsWire(LargeCounts()) == 16393
  {
    LargestCount();
    SumByCopies(VarintLength, 1638, 0xFFFF_FFFF_FFFF_FFFF);
    hide VarintLength;
    VarintBounds(16380);
    VarintBounds(16389);
  }

  lemma {:induction false} LongField(length: nat)
    requires LONG_TEXT <= length < LIMIT_28
    ensures Field(length) == length + 5
  {
    VarintBounds(length);
  }

  lemma {:induction false} LongStringField(text: Bytes)
    requires LONG_TEXT <= |text| < LIMIT_28
    ensures StringField(text) == |text| + 5
  {
    LongField(|text|);
  }

  lemma {:induction false} LargePointWire()
    ensures ExponentialPointSize(LargePoint()) == 0x20_0003 + 128 + 2 * 16380
    ensures ExponentialPointWire(LargePoint()) == 0x20_0003 + 78 + 2 * 16393 + 5
  {
    var kv := LongAttribute(LIMITS.attribute);
    LongAttributeWire(LIMITS.attribute);
    LargeBuckets();
    hide LongAttribute, KeyValueSize, AttributeWire, Field, BucketsWire, LargeCounts;
    SumByOne(KeyValueSize, kv);
    SumByOne(AttributeWire, kv);
    LongField(0x20_0003 + 78 + 2 * 16393);
  }

  lemma {:induction false} LargePointWithin(l: Limits)
    requires l == LIMITS.(buckets := 1638)
    ensures BoundedExponential(LargePoint(), l)
  {
    LongAttributeWire(LIMITS.attribute);
    assert Bounded(LongAttribute(LIMITS.attribute), l);
    hide LongAttribute, Bounded;
    assert BoundedCounts(LargeCounts(), l);
  }

  lemma {:induction false} LargeData(data: Aggregation)
    requires data == ExponentialHistogram([LargePoint()])
    ensures SumBy(UnitSize, Units(data)) == ExponentialPointSize(LargePoint())
    ensures DataWire(data) == ExponentialPointWire(LargePoint()) + 7
  {
    LargePointWire();
    hide LargePoint, ExponentialPointSize, ExponentialPointWire, Field;
    WholeUnits(data);
    assert UnitSize(WholeUnit(data)) == SumBy(ExponentialPointSize, [LargePoint()]);
    hide Units, UnitSize;
    SumByOne(ExponentialPointSize, LargePoint());
    SumByOne(ExponentialPointWire, LargePoint());
    LongField(ExponentialPointWire(LargePoint()) + 2);
  }

  lemma {:induction false} LargeMetric(m: Metrics)
    requires m == LargeScope().metrics[0]
    ensures MetricWire(m) == MetricEstimate(m) - 8
    ensures MetricEstimate(m) == 16 + 4 * LONG_TEXT + 3 + 128 + 2 * 16380
  {
    LargePointWire();
    hide LargePoint, DataWire, Field, StringField, Text, UnitSize, Units, ExponentialPointSize, ExponentialPointWire;
    LargeData(m.data);
    LongStringField(Text(LONG_TEXT));
    LongField(3 * (LONG_TEXT + 5) + DataWire(m.data));
  }

  /** Three long texts, and the lengths of two nested messages: nine bytes more than a header has room for. */
  lemma {:induction false} LongScopeWire(sm: ScopeMetrics)
    requires |sm.scope.name| == |sm.scope.version| == |sm.scope.schemaURL| == LONG_TEXT && sm.scope.attributes == []
    requires LONG_TEXT <= SumBy(MetricWire, sm.metrics) < LIMIT_28 / 2
    ensures ScopeWire(sm) == 3 * LONG_TEXT + SumBy(MetricWire, sm.metrics) + 25
    ensures ScopeEstimate(sm) == 3 * LONG_TEXT + SumBy(MetricEstimate, sm.metrics) + 16
  {
    hide MetricWire, MetricEstimate, Field, StringField;
    LongStringField(sm.scope.name);
    LongStringField(sm.scope.version);
    LongStringField(sm.scope.schemaURL);
    LongField(2 * (LONG_TEXT + 5));
    LongField(2 * (LONG_TEXT + 5) + 5 + SumBy(MetricWire, sm.metrics) + LONG_TEXT + 5);
  }

  lemma {:induction false} LargeScopeWire()
    ensures ScopeWire(LargeScope()) == ScopeEstimate(LargeScope()) + 1
    ensures ScopeEstimate(LargeScope()) == 32 + 7 * LONG_TEXT + 3 + 128 + 2 * 16380
  {
    var sm := LargeScope();
    var m := sm.metrics[0];
    LargeMetric(m);
    hide MetricWire, MetricEstimate, BoundedData, HasPoints, Text, ScopeWire, ScopeEstimate, LargePoint;
    SumByOne(MetricWire, m);
    SumByOne(MetricEstimate, m);
    LongScopeWire(sm);
  }

  lemma {:induction false} LargeScopeWithin(l: Limits)
    requires l == LIMITS.(buckets := 1638)
    ensures BoundedScope(LargeScope(), l) && EmptiesShortIn(LargeScope(), l)
  {
    var m := LargeScope().metrics[0];
    LargePointWithin(l);
    hide BoundedExponential, Text, LargePoint, ShortNames, ShortScope;
    assert BoundedData(m.data, l) && HasPoints(m.data) && m in LargeScope().metrics;
  }

  lemma {:induction false} LargeRequestEscapes()
    ensures Escapes(LargeRequest(), LIMITS.(buckets := 1638))
  {
    LargeScopeWire();
    LargeScopeWithin(LIMITS.(buckets := 1638));
    hide LargeScope, ScopeWire, ScopeEstimate, BoundedScope, EmptiesShortIn, RequestWire, RequestEstimate;
    ScopesEscape(LargeScope(), LIMITS.(buckets := 1638));
  }

  /** True exactly for exponential points with at most 1637 counts on each side. */
  lemma {:induction false} BucketLimit(buckets: nat)
    ensures BoundHoldsFor(LIMITS.(buckets := buckets)) <==> buckets <= LIMITS.buckets
  {
    hide BoundHoldsFor, Escapes;
    if buckets <= LIMITS.buckets {
      HoldsWithin(LIMITS.(buckets := buckets));
    } else {
      LargeRequestEscapes();
      FailsFrom(LargeRequest(), LIMITS.(buckets := 1638), LIMITS.(buckets := buckets));
    }
  }
}
