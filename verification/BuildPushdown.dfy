// What a generator publishes does not depend on whether its objects were trimmed before they were cached.
module BuildPushdown {
  import opened Paths
  import opened Trim
  import opened Cel
  import opened Pushdown
  import opened PolicyModel
  import opened Builder

  /** A program of the fragment whose required fields are all among `fields`. */
  predicate ProgramWithin(program: Expr, fields: seq<string>) {
    Fragment(program, {}) && DotFreeNames(program) && forall f | f in RequiredFields(program) :: f in fields
  }

  predicate OptionalWithin(program: Option<Expr>, fields: seq<string>) {
    program.Some? ==> ProgramWithin(program.value, fields)
  }

  predicate LabelsWithin(labels: seq<Option<CompiledLabel>>, fields: seq<string>) {
    forall l | l in labels && l.Some? :: OptionalWithin(l.value.program, fields)
  }

  predicate MetricWithin(m: CompiledMetric, fields: seq<string>) {
    OptionalWithin(m.forEach, fields) && OptionalWithin(m.value, fields) && LabelsWithin(m.labels, fields)
  }

  predicate MetricsWithin(metrics: seq<Option<CompiledMetric>>, fields: seq<string>) {
    forall m | m in metrics && m.Some? :: MetricWithin(m.value, fields)
  }

  predicate FamiliesWithin(families: seq<Option<CompiledFamily>>, fields: seq<string>) {
    forall f | f in families && f.Some? :: MetricsWithin(f.value.metrics, fields)
  }

  // ---- The programs of a generator ----

  function ProgramOf(program: Option<Expr>): set<Expr> {
    if program.Some? then {program.value} else {}
  }

  function LabelPrograms(labels: seq<Option<CompiledLabel>>): set<Expr> {
    if labels == [] then {}
    else (if labels[0].Some? then ProgramOf(labels[0].value.program) else {}) + LabelPrograms(labels[1..])
  }

  function MetricPrograms(m: CompiledMetric): set<Expr> {
    ProgramOf(m.forEach) + ProgramOf(m.value) + LabelPrograms(m.labels)
  }

  function MetricsPrograms(metrics: seq<Option<CompiledMetric>>): set<Expr> {
    if metrics == [] then {}
    else (if metrics[0].Some? then MetricPrograms(metrics[0].value) else {}) + MetricsPrograms(metrics[1..])
  }

  function FamiliesPrograms(families: seq<Option<CompiledFamily>>): set<Expr> {
    if families == [] then {}
    else (if families[0].Some? then MetricsPrograms(families[0].value.metrics) else {}) +
         FamiliesPrograms(families[1..])
  }

  predicate AllWithin(programs: set<Expr>, fields: seq<string>) {
    forall program | program in programs :: ProgramWithin(program, fields)
  }

  lemma {:induction false} LabelsFromPrograms(labels: seq<Option<CompiledLabel>>, fields: seq<string>)
    requires AllWithin(LabelPrograms(labels), fields)
    ensures LabelsWithin(labels, fields)
  {
    hide ProgramWithin;
    if labels != [] {
      LabelsFromPrograms(labels[1..], fields);
    }
  }

  lemma {:induction false} MetricsFromPrograms(metrics: seq<Option<CompiledMetric>>, fields: seq<string>)
    requires AllWithin(MetricsPrograms(metrics), fields)
    ensures MetricsWithin(metrics, fields)
  {
    hide ProgramWithin, LabelPrograms, LabelsWithin;
    if metrics != [] {
      MetricsFromPrograms(metrics[1..], fields);
      if metrics[0].Some? {
        LabelsFromPrograms(metrics[0].value.labels, fields);
      }
    }
  }

  lemma {:induction false} FamiliesFromPrograms(families: seq<Option<CompiledFamily>>, fields: seq<string>)
    requires AllWithin(FamiliesPrograms(families), fields)
    ensures FamiliesWithin(families, fields)
  {
    hide ProgramWithin, MetricsPrograms, MetricsWithin;
    if families != [] {
      FamiliesFromPrograms(families[1..], fields);
      if families[0].Some? {
        MetricsFromPrograms(families[0].value.metrics, fields);
      }
    }
  }

  predicate Sublist(required: seq<string>, fields: seq<string>) {
    forall f | f in required :: f in fields
  }

  /** Each object trimmed to its own list: the cache may hold objects trimmed before the lists last changed. */
  function TrimEach(objects: seq<Value>, lists: seq<seq<string>>): (r: seq<Value>)
    requires |lists| == |objects|
    ensures |r| == |objects|
  {
    if objects == [] then [] else [TrimObject(objects[0], lists[0])] + TrimEach(objects[1..], lists[1..])
  }

  lemma {:induction false} ProgramAgrees(
    ev: Evaluator, program: Expr, obj: Value, required: seq<string>, fields: seq<string>, item: Option<Value>)
    requires ProgramWithin(program, required) && Traversable(obj, required) && Sublist(required, fields)
    ensures Eval(ev.sem, program, EnvOf(TrimObject(obj, fields), item)) == Eval(ev.sem, program, EnvOf(obj, item))
  {
    hide Eval, TrimObject, Fragment;
    PushdownPreservesMeaning(ev.sem, program, obj, fields, if item.Some? then item.value else Null);
  }

  lemma {:induction false} LabelsAgree(
    ev: Evaluator, ctx: Context, obj: Value, item: Option<Value>, labels: seq<Option<CompiledLabel>>,
    required: seq<string>, fields: seq<string>)
    requires LabelsWithin(labels, required) && Traversable(obj, required) && Sublist(required, fields)
    ensures LabelsOf(ev, TrimObject(obj, fields), item, labels) == LabelsOf(ev, obj, item, labels)
    ensures LabelSteps<Measurement>(ev, ctx, TrimObject(obj, fields), item, labels)
         == LabelSteps<Measurement>(ev, ctx, obj, item, labels)
    decreases |labels|
  {
    hide Traversable, ProgramWithin, TrimObject;
    if labels != [] {
      LabelsAgree(ev, ctx, obj, item, labels[1..], required, fields);
      if labels[0].Some? && labels[0].value.program.Some? {
        ProgramAgrees(ev, labels[0].value.program.value, obj, required, fields, item);
      }
    }
  }

  lemma {:induction false} SeriesAgrees(
    ev: Evaluator, ctx: Context, obj: Value, item: Option<Value>, metric: CompiledMetric, required: seq<string>,
    fields: seq<string>)
    requires MetricWithin(metric, required) && Traversable(obj, required) && Sublist(required, fields)
    ensures SeriesTrace(ev, ctx, TrimObject(obj, fields), item, metric) == SeriesTrace(ev, ctx, obj, item, metric)
  {
    hide Traversable, ProgramWithin, TrimObject, LabelsWithin, LabelsOf, LabelSteps;
    LabelsAgree(ev, ctx, obj, item, metric.labels, required, fields);
    if metric.value.Some? {
      ProgramAgrees(ev, metric.value.value, obj, required, fields, item);
    }
  }

  lemma {:induction false} ItemsAgree(
    ev: Evaluator, ctx: Context, obj: Value, items: seq<Value>, metric: CompiledMetric, required: seq<string>,
    fields: seq<string>)
    requires MetricWithin(metric, required) && Traversable(obj, required) && Sublist(required, fields)
    ensures ItemsTrace(ev, ctx, TrimObject(obj, fields), items, metric) == ItemsTrace(ev, ctx, obj, items, metric)
  {
    hide Traversable, MetricWithin, SeriesTrace, TrimObject;
    if items != [] {
      SeriesAgrees(ev, ctx, obj, Some(items[0]), metric, required, fields);
      ItemsAgree(ev, ctx, obj, items[1..], metric, required, fields);
    }
  }

  lemma {:induction false} MetricAgrees(
    ev: Evaluator, ctx: Context, obj: Value, metric: CompiledMetric, required: seq<string>, fields: seq<string>)
    requires MetricWithin(metric, required) && Traversable(obj, required) && Sublist(required, fields)
    ensures MetricTrace(ev, ctx, TrimObject(obj, fields), metric) == MetricTrace(ev, ctx, obj, metric)
  {
    hide Traversable, SeriesTrace, ItemsTrace, TrimObject, ProgramWithin;
    match metric.forEach
    case None => SeriesAgrees(ev, ctx, obj, None, metric, required, fields);
    case Some(program) =>
      ProgramAgrees(ev, program, obj, required, fields, None);
      var list := ev.toList(Eval(ev.sem, program, RootEnv(obj)));
      if list.Got? {
        ItemsAgree(ev, ctx, obj, list.value, metric, required, fields);
      }
  }

  lemma {:induction false} MetricsAgree(
    ev: Evaluator, ctx: Context, obj: Value, metrics: seq<Option<CompiledMetric>>, required: seq<string>,
    fields: seq<string>)
    requires MetricsWithin(metrics, required) && Traversable(obj, required) && Sublist(required, fields)
    ensures MetricsTrace(ev, ctx, TrimObject(obj, fields), metrics) == MetricsTrace(ev, ctx, obj, metrics)
  {
    hide Traversable, MetricWithin, MetricTrace, TrimObject;
    if metrics != [] {
      MetricsAgree(ev, ctx, obj, metrics[1..], required, fields);
      if metrics[0].Some? {
        MetricAgrees(ev, ctx, obj, metrics[0].value, required, fields);
      }
    }
  }

  lemma {:induction false} NamePath()
    ensures Segments("metadata" + "." + "name") == ["metadata", "name"]
  {
    FirstDot("metadata", "name");
    assert Segments("name") == ["name"];
  }

  lemma {:induction false} NameIsIdentity(fields: seq<string>)
    ensures "metadata" + "." + "name" in fields + IDENTITY_FIELDS
  {
    assert IDENTITY_FIELDS[2] == "metadata" + "." + "name";
    assert (fields + IDENTITY_FIELDS)[|fields| + 2] == IDENTITY_FIELDS[2];
  }

  /** The name in an error message is read from an identity field, which trimming always keeps. */
  lemma {:induction false} NameAgrees(obj: Value, fields: seq<string>)
    ensures ObjectName(TrimObject(obj, fields)) == ObjectName(obj)
  {
    hide TrimValue, Segments, Lookup;
    var path, name := ["metadata", "name"], "metadata" + "." + "name";
    NamePath();
    NameIsIdentity(fields);
    var all := fields + IDENTITY_FIELDS;
    assert Segments(name) in PathSet(all) && path <= path;
    PathSetNonEmpty(all);
    TrimKeeps(obj, PathSet(all), path);
  }

  lemma {:induction false} FamiliesAgree(
    ev: Evaluator, policy: string, generator: string, obj: Value, families: seq<Option<CompiledFamily>>,
    required: seq<string>, fields: seq<string>)
    requires FamiliesWithin(families, required) && Traversable(obj, required) && Sublist(required, fields)
    ensures FamiliesTrace(ev, policy, generator, TrimObject(obj, fields), families)
         == FamiliesTrace(ev, policy, generator, obj, families)
  {
    hide Traversable, MetricsWithin, MetricsTrace, TrimObject, ObjectName;
    NameAgrees(obj, fields);
    if families != [] {
      FamiliesAgree(ev, policy, generator, obj, families[1..], required, fields);
      if families[0].Some? {
        MetricsAgree(ev, Context(policy, generator, families[0].value.name, ObjectName(obj)), obj,
            families[0].value.metrics, required, fields);
      }
    }
  }

  /**
   * The whole build: the same measurements, the same errors, the same evaluations in the same order, on the objects
   * trimmed to any field lists that contain what the programs of the generator require.
   */
  lemma {:induction false} BuildAgrees(
    ev: Evaluator, policy: string, gen: CompiledGenerator, objects: seq<Value>, required: seq<string>,
    lists: seq<seq<string>>)
    requires FamiliesWithin(gen.families, required) && |lists| == |objects|
    requires forall obj | obj in objects :: Traversable(obj, required)
    requires forall fields | fields in lists :: Sublist(required, fields)
    ensures Trace(ev, policy, gen, TrimEach(objects, lists)) == Trace(ev, policy, gen, objects)
    decreases |objects|
  {
    hide Traversable, FamiliesWithin, FamiliesTrace, TrimObject, Sublist;
    if objects != [] {
      FamiliesAgree(ev, policy, gen.name, objects[0], gen.families, required, lists[0]);
      BuildAgrees(ev, policy, gen, objects[1..], required, lists[1..]);
      assert TrimEach(objects, lists)[1..] == TrimEach(objects[1..], lists[1..]);
    }
  }
}
