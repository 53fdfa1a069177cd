// The estimate of a request as one formula: what is in it, counted over the whole tree, times what each thing costs.
module SizeFormula {
  import opened MetricData
  import opened Sums
  import opened SizeEstimate

  /** How many of each there are, and the bytes of all texts. */
  datatype Census = Census(
    messages: nat, attributes: nat, points: nat, elements: nat, numbers: nat, bytes: nat)

  const NONE := Census(0, 0, 0, 0, 0, 0)

  function Plus(a: Census, b: Census): Census {
    Census(a.messages + b.messages, a.attributes + b.attributes, a.points + b.points, a.elements + b.elements,
           a.numbers + b.numbers, a.bytes + b.bytes)
  }

  function Over<T>(f: T -> Census, xs: seq<T>): Census {
    if xs == [] then NONE else Plus(f(xs[0]), Over(f, xs[1..]))
  }

  /** 16 bytes a message or attribute, 64 a point or exemplar, 4 an array element, 10 a number, and the texts. */
  function Weigh(c: Census): nat {
    16 * (c.messages + c.attributes) + 64 * c.points + 4 * c.elements + 10 * c.numbers + c.bytes
  }

  // ---- What there is ----

  function OfText(text: Bytes): Census {
    NONE.(elements := 1, bytes := |text|)
  }

  function OfAttribute(kv: KeyValue): Census {
    Plus(NONE.(attributes := 1, bytes := |kv.key|),
         match kv.value
         case StringValue(text) => NONE.(bytes := |text|)
         case StringSliceValue(texts) => Over(OfText, texts)
         case BoolSliceValue(flags) => NONE.(elements := |flags|)
         case Int64SliceValue(numbers) => NONE.(elements := |numbers|, numbers := |numbers|)
         case Float64SliceValue(doubles) => NONE.(elements := |doubles|, numbers := |doubles|)
         case _ => NONE.(numbers := 1))
  }

  function OfExemplar(e: Exemplar): Census {
    Plus(NONE.(points := 1, bytes := |e.spanID| + |e.traceID|), Over(OfAttribute, e.filtered))
  }

  function OfPoint(attributes: seq<KeyValue>, exemplars: seq<Exemplar>): Census {
    Plus(NONE.(points := 1), Plus(Over(OfAttribute, attributes), Over(OfExemplar, exemplars)))
  }

  function OfNumber(p: NumberPoint): Census {
    OfPoint(p.attributes, p.exemplars)
  }

  /** Sum, minimum and maximum, bounds and counts. */
  function OfHistogram(p: HistogramPoint): Census {
    Plus(OfPoint(p.attributes, p.exemplars), NONE.(numbers := 3 + |p.bounds| + |p.bucketCounts|))
  }

  /** Counted as two points. */
  function OfExponential(p: ExponentialPoint): Census {
    Plus(OfPoint(p.attributes, p.exemplars), NONE.(points := 1, numbers := |p.positive| + |p.negative|))
  }

  /** Every quantile is a message with two numbers. */
  function OfSummary(p: SummaryPoint): Census {
    Plus(OfPoint(p.attributes, []), NONE.(messages := |p.quantileValues|, numbers := 2 * |p.quantileValues|))
  }

  function OfData(data: Aggregation): Census {
    match data
    case Gauge(points) => Over(OfNumber, points)
    case Sum(points, _, _) => Over(OfNumber, points)
    case Histogram(points, _) => Over(OfHistogram, points)
    case ExponentialHistogram(points) => Over(OfExponential, points)
    case Summary(points) => Over(OfSummary, points)
    case NoData => NONE
  }

  function OfMetric(m: Metrics): Census {
    Plus(NONE.(messages := 1, bytes := |m.name| + |m.description| + |m.unitName|),
         OfData(m.data))
  }

  function OfScope(sm: ScopeMetrics): Census {
    Plus(NONE.(messages := 1, bytes := |sm.scope.name| + |sm.scope.version| + |sm.scope.schemaURL|),
         Plus(Over(OfAttribute, sm.scope.attributes), Over(OfMetric, sm.metrics)))
  }

  function OfRequest(rm: ResourceMetrics): Census {
    Plus(NONE.(messages := 1),
         Plus(if rm.resource.Resource?
              then Plus(NONE.(bytes := |rm.resource.schemaURL|), Over(OfAttribute, rm.resource.attributes)) else NONE,
              Over(OfScope, rm.scopeMetrics)))
  }

  // ---- The formula ----

  lemma {:induction false} WeighPlus(a: Census, b: Census)
    ensures Weigh(Plus(a, b)) == Weigh(a) + Weigh(b)
  {}

  lemma {:induction false} NothingWeighs()
    ensures Weigh(NONE) == 0
  {}

  lemma {:induction false} WeighOver<T>(f: T -> Census, size: T -> nat, xs: seq<T>)
    requires forall x | x in xs :: Weigh(f(x)) == size(x)
    ensures Weigh(Over(f, xs)) == SumBy(size, xs)
  {
    hide Weigh, Plus;
    if xs == [] {
      NothingWeighs();
      assert Over(f, xs) == NONE;
    } else {
      assert Over(f, xs) == Plus(f(xs[0]), Over(f, xs[1..]));
      WeighPlus(f(xs[0]), Over(f, xs[1..]));
      assert xs[0] in xs;
      WeighOver(f, size, xs[1..]);
    }
  }

  lemma {:induction false} AttributeFormula(kv: KeyValue)
    ensures Weigh(OfAttribute(kv)) == KeyValueSize(kv)
  {
    if kv.value.StringSliceValue? {
      WeighOver(OfText, StringElementSize, kv.value.texts);
    }
  }

  lemma {:induction false} AttributesFormula(attributes: seq<KeyValue>)
    ensures Weigh(Over(OfAttribute, attributes)) == AttributesSize(attributes)
  {
    hide OfAttribute, KeyValueSize, Weigh;
    forall kv | kv in attributes
      ensures Weigh(OfAttribute(kv)) == KeyValueSize(kv)
    {
      AttributeFormula(kv);
    }
    WeighOver(OfAttribute, KeyValueSize, attributes);
  }

  lemma {:induction false} ExemplarsFormula(exemplars: seq<Exemplar>)
    ensures Weigh(Over(OfExemplar, exemplars)) == SumBy(ExemplarSize, exemplars)
  {
    hide Over, AttributesSize;
    forall e | e in exemplars
      ensures Weigh(OfExemplar(e)) == ExemplarSize(e)
    {
      AttributesFormula(e.filtered);
    }
    WeighOver(OfExemplar, ExemplarSize, exemplars);
  }

  lemma {:induction false} PointFormula(attributes: seq<KeyValue>, exemplars: seq<Exemplar>)
    ensures Weigh(OfPoint(attributes, exemplars)) == 64 + AttributesSize(attributes) + SumBy(ExemplarSize, exemplars)
  {
    AttributesFormula(attributes);
    ExemplarsFormula(exemplars);
    hide Over, AttributesSize, SumBy;
  }

  lemma {:induction false} UnitSizes<T>(units: seq<Unit>, size: T -> nat, points: seq<T>)
    requires |units| == |points| && forall i | 0 <= i < |points| :: UnitSize(units[i]) == size(points[i])
    ensures SumBy(UnitSize, units) == SumBy(size, points)
  {
    hide UnitSize;
    if points != [] {
      assert forall i | 0 <= i < |points[1..]| :: units[1..][i] == units[i + 1] && points[1..][i] == points[i + 1];
      UnitSizes(units[1..], size, points[1..]);
    }
  }

  lemma {:induction false} NumbersFormula(points: seq<NumberPoint>)
    ensures Weigh(Over(OfNumber, points)) == SumBy(NumberPointSize, points)
  {
    hide Over, AttributesSize, ExemplarSize, Weigh, OfPoint;
    forall p | p in points
      ensures Weigh(OfNumber(p)) == NumberPointSize(p)
    {
      PointFormula(p.attributes, p.exemplars);
    }
    WeighOver(OfNumber, NumberPointSize, points);
  }

  lemma {:induction false} HistogramsFormula(points: seq<HistogramPoint>)
    ensures Weigh(Over(OfHistogram, points)) == SumBy(HistogramPointSize, points)
  {
    hide Over, AttributesSize, ExemplarSize, OfPoint;
    forall p | p in points
      ensures Weigh(OfHistogram(p)) == HistogramPointSize(p)
    {
      PointFormula(p.attributes, p.exemplars);
    }
    WeighOver(OfHistogram, HistogramPointSize, points);
  }

  lemma {:induction false} ExponentialsFormula(points: seq<ExponentialPoint>)
    ensures Weigh(Over(OfExponential, points)) == SumBy(ExponentialPointSize, points)
  {
    hide Over, AttributesSize, ExemplarSize, OfPoint;
    forall p | p in points
      ensures Weigh(OfExponential(p)) == ExponentialPointSize(p)
    {
      PointFormula(p.attributes, p.exemplars);
    }
    WeighOver(OfExponential, ExponentialPointSize, points);
  }

  lemma {:induction false} SummariesFormula(points: seq<SummaryPoint>)
    ensures Weigh(Over(OfSummary, points)) == SumBy(SummaryPointSize, points)
  {
    hide Over, AttributesSize, ExemplarSize, OfPoint;
    forall p | p in points
      ensures Weigh(OfSummary(p)) == SummaryPointSize(p)
    {
      PointFormula(p.attributes, []);
    }
    WeighOver(OfSummary, SummaryPointSize, points);
  }

  lemma {:induction false} DataFormula(data: Aggregation)
    ensures SumBy(UnitSize, Units(data)) == Weigh(OfData(data))
  {
    hide OfNumber, OfHistogram, OfExponential, OfSummary, Over, Weigh;
    match data {
      case Gauge(points) =>
        UnitSizes(Units(data), NumberPointSize, points);
        NumbersFormula(points);
      case Sum(points, _, _) =>
        UnitSizes(Units(data), NumberPointSize, points);
        NumbersFormula(points);
      case Histogram(points, _) =>
        UnitSizes(Units(data), HistogramPointSize, points);
        HistogramsFormula(points);
      case ExponentialHistogram(points) =>
        SumByOne(UnitSize, WholeUnit(data));
        ExponentialsFormula(points);
      case Summary(points) =>
        SumByOne(UnitSize, WholeUnit(data));
        SummariesFormula(points);
      case NoData =>
        NothingWeighs();
    }
  }

  lemma {:induction false} MetricFormula(m: Metrics)
    ensures Weigh(OfMetric(m)) == MetricEstimate(m)
  {
    DataFormula(m.data);
    hide Over, OfNumber, OfHistogram, OfExponential, OfSummary, Units, UnitSize, SumBy;
  }

  lemma {:induction false} MetricsFormula(metrics: seq<Metrics>)
    ensures Weigh(Over(OfMetric, metrics)) == SumBy(MetricEstimate, metrics)
  {
    hide OfMetric, MetricEstimate, Weigh;
    forall m | m in metrics
      ensures Weigh(OfMetric(m)) == MetricEstimate(m)
    {
      MetricFormula(m);
    }
    WeighOver(OfMetric, MetricEstimate, metrics);
  }

  lemma {:induction false} ScopesFormula(scopes: seq<ScopeMetrics>)
    ensures Weigh(Over(OfScope, scopes)) == SumBy(ScopeEstimate, scopes)
  {
    hide Over, OfMetric, MetricEstimate, AttributesSize;
    forall sm | sm in scopes
      ensures Weigh(OfScope(sm)) == ScopeEstimate(sm)
    {
      MetricsFormula(sm.metrics);
      AttributesFormula(sm.scope.attributes);
    }
    WeighOver(OfScope, ScopeEstimate, scopes);
  }

  /** The estimate is what is in the request times what each of it costs, and the bytes of its texts. */
  lemma {:induction false} RequestFormula(rm: ResourceMetrics)
    ensures RequestEstimate(rm) == Weigh(OfRequest(rm))
  {
    ScopesFormula(rm.scopeMetrics);
    hide Over, OfScope, ScopeEstimate, AttributesSize;
    if rm.resource.Resource? {
      AttributesFormula(rm.resource.attributes);
    }
  }
}
