// What a build does, read off the policy and the objects: for every object, family, metric and item in turn, the
// programs it evaluates and the measurement or failure that comes of them; and where a budget cuts this.
module BuildMeaning {
  import Sums
  import opened Paths
  import opened Cel
  import opened Pushdown
  import opened PolicyModel
  import opened Budget
  import opened Builder
  import opened InOrder

  type Events = seq<Event<Measurement>>

  /** What the variables stand for: the object, and the item of a forEach metric. */
  function Bindings(obj: Value, item: Option<Value>): Env {
    if item.None? then map["object" := Ok(obj)] else map["object" := Ok(obj), "item" := Ok(item.value)]
  }

  function MetadataName(obj: Value): string {
    if obj.Obj? && "metadata" in obj.fields && obj.fields["metadata"].Obj? &&
       "name" in obj.fields["metadata"].fields && obj.fields["metadata"].fields["name"].Text?
    then obj.fields["metadata"].fields["name"].s
    else ""
  }

  function Failure(ctx: Context, labelName: Option<string>, code: int): Event<Measurement> {
    Fail(BuildError(ctx.policy, ctx.generator, ctx.family, ctx.object_, labelName, EvalFailed(code)))
  }

  // ---- One series ----

  /** Labels without a program are passed over. */
  function LabelProgram(l: Option<CompiledLabel>): Option<(string, Expr)> {
    if l.Some? && l.value.program.Some? then Some((l.value.name, l.value.program.value)) else None
  }

  function LabelValue(ev: Evaluator, env: Env, program: (string, Expr)): Outcome<string> {
    ev.toLabel(Eval(ev.sem, program.1, env))
  }

  /** The first `n` label programs give a value, and the `n`-th, if there is one, fails. */
  ghost predicate FirstFailing(ev: Evaluator, env: Env, programs: seq<(string, Expr)>, n: nat) {
    && n <= |programs| && (forall j | 0 <= j < n :: LabelValue(ev, env, programs[j]).Got?)
    && (n < |programs| ==> LabelValue(ev, env, programs[n]).Bad?)
  }

  ghost predicate LabelsEvaluated(ctx: Context, programs: seq<(string, Expr)>, n: nat, events: Events) {
    n <= |programs| && n <= |events| && forall j | 0 <= j < n :: events[j] == Evaluate(ctx, Some(programs[j].0))
  }

  /** The name and the text of every label, in order. */
  ghost predicate LabelTexts(ev: Evaluator, env: Env, programs: seq<(string, Expr)>, pairs: seq<LabelPair>) {
    && |pairs| == |programs|
    && forall j | 0 <= j < |pairs| ::
         LabelValue(ev, env, programs[j]).Got? &&
         pairs[j] == LabelPair(programs[j].0, LabelValue(ev, env, programs[j]).value)
  }

  /** After the labels: a measurement of 1 without a value program, and otherwise what the program gives. */
  ghost predicate ValueDoes(
    ev: Evaluator, ctx: Context, env: Env, value: Option<Expr>, pairs: seq<LabelPair>, events: Events) {
    match value
    case None => events == [Emit(Measurement(ctx.family, 1.0, pairs))]
    case Some(program) =>
      && |events| == 2 && events[0] == Evaluate(ctx, None)
      && events[1] == match ev.toNumber(Eval(ev.sem, program, env))
                      case Got(x) => Emit(Measurement(ctx.family, x, pairs))
                      case Bad(code) => Failure(ctx, None, code)
  }

  /** One measurement if every program gives a value, and otherwise one failure, that of the first that does not. */
  ghost predicate SeriesRuns(
    ev: Evaluator, ctx: Context, env: Env, programs: seq<(string, Expr)>, n: nat, value: Option<Expr>, events: Events) {
    && FirstFailing(ev, env, programs, n)
    && if n < |programs| then
         && |events| == n + 2 && LabelsEvaluated(ctx, programs, n + 1, events)
         && events[n + 1] == Failure(ctx, Some(programs[n].0), LabelValue(ev, env, programs[n]).code)
       else
         && LabelsEvaluated(ctx, programs, n, events)
         && exists pairs :: LabelTexts(ev, env, programs, pairs) && ValueDoes(ev, ctx, env, value, pairs, events[n..])
  }

  ghost predicate SeriesDoes(ev: Evaluator, ctx: Context, env: Env, metric: CompiledMetric, events: Events) {
    exists programs, n: nat ::
      Picked(metric.labels, LabelProgram, programs) && SeriesRuns(ev, ctx, env, programs, n, metric.value, events)
  }

  // ---- Everything, in turn ----

  ghost function ItemDoes(ev: Evaluator, ctx: Context, obj: Value, metric: CompiledMetric): (Value, Events) -> bool {
    (item: Value, events: Events) => SeriesDoes(ev, ctx, Bindings(obj, Some(item)), metric, events)
  }

  /** One series, or one for every element of the forEach list. */
  ghost predicate MetricDoes(ev: Evaluator, ctx: Context, obj: Value, metric: CompiledMetric, events: Events) {
    match metric.forEach
    case None => SeriesDoes(ev, ctx, Bindings(obj, None), metric, events)
    case Some(program) =>
      && events != [] && events[0] == Evaluate(ctx, None)
      && match ev.toList(Eval(ev.sem, program, Bindings(obj, None)))
         case Bad(code) => events[1..] == [Failure(ctx, None, code)]
         case Got(items) => InTurn(items, ItemDoes(ev, ctx, obj, metric), events[1..])
  }

  ghost function MetricSlotDoes(ev: Evaluator, ctx: Context, obj: Value): (Option<CompiledMetric>, Events) -> bool {
    (m: Option<CompiledMetric>, events: Events) =>
      if m.None? then events == [] else MetricDoes(ev, ctx, obj, m.value, events)
  }

  ghost function FamilySlotDoes(
    ev: Evaluator, policy: string, generator: string, obj: Value): (Option<CompiledFamily>, Events) -> bool {
    (f: Option<CompiledFamily>, events: Events) =>
      if f.None? then events == []
      else InTurn(f.value.metrics,
                  MetricSlotDoes(ev, Context(policy, generator, f.value.name, MetadataName(obj)), obj), events)
  }

  ghost function ObjectDoes(ev: Evaluator, policy: string, gen: CompiledGenerator): (Value, Events) -> bool {
    (obj: Value, events: Events) => InTurn(gen.families, FamilySlotDoes(ev, policy, gen.name, obj), events)
  }

  /** Every object, family, metric and item, in this order. */
  ghost predicate BuildDoes(
    ev: Evaluator, policy: string, gen: CompiledGenerator, objects: seq<Value>, events: Events) {
    InTurn(objects, ObjectDoes(ev, policy, gen), events)
  }

  // ---- The trace does this ----

  lemma {:induction false} NameInMetadata(obj: Value)
    ensures ObjectName(obj) == MetadataName(obj)
  {
    var path := ["metadata", "name"];
    assert path[1..] == ["name"] && path[1..][1..] == [];
    if obj.Obj? && "metadata" in obj.fields {
      var metadata := obj.fields["metadata"];
      assert Lookup(obj, path) == Lookup(metadata, ["name"]);
      if metadata.Obj? && "name" in metadata.fields {
        assert Lookup(metadata, ["name"]) == Lookup(metadata.fields["name"], []);
      }
    }
  }

  lemma {:induction false} OneMoreLabel(
    ev: Evaluator, env: Env, first: (string, Expr), rest: seq<(string, Expr)>, m: nat, pairs: seq<LabelPair>)
    requires FirstFailing(ev, env, rest, m)
    ensures var n := if LabelValue(ev, env, first).Bad? then 0 else m + 1;
            FirstFailing(ev, env, [first] + rest, n)
    ensures LabelTexts(ev, env, rest, pairs) && LabelValue(ev, env, first).Got? ==>
              LabelTexts(ev, env, [first] + rest, [LabelPair(first.0, LabelValue(ev, env, first).value)] + pairs)
  {
    hide LabelValue;
  }

  /** What the label programs come to. */
  ghost predicate LabelsCome(
    ev: Evaluator, env: Env, programs: seq<(string, Expr)>, n: nat, result: LabelsResult) {
    && FirstFailing(ev, env, programs, n)
    && if n < |programs| then result == LabelFailed(programs[n].0, LabelValue(ev, env, programs[n]).code)
       else result.Labels? && LabelTexts(ev, env, programs, result.pairs)
  }

  function WithLabel(pair: LabelPair, result: LabelsResult): LabelsResult {
    if result.Labels? then Labels([pair] + result.pairs) else result
  }

  lemma {:induction false} LabelsComeNext(
    ev: Evaluator, env: Env, first: (string, Expr), rest: seq<(string, Expr)>, m: nat, result: LabelsResult)
    requires LabelsCome(ev, env, rest, m, result)
    ensures var value := LabelValue(ev, env, first);
            if value.Bad? then LabelsCome(ev, env, [first] + rest, 0, LabelFailed(first.0, value.code))
            else LabelsCome(ev, env, [first] + rest, m + 1, WithLabel(LabelPair(first.0, value.value), result))
  {
    assert m <= |rest|;
    hide LabelValue, LabelTexts, FirstFailing;
    OneMoreLabel(ev, env, first, rest, m, if result.Labels? then result.pairs else []);
    assert m < |rest| ==> ([first] + rest)[m + 1] == rest[m];
  }

  lemma {:induction false} FirstLabel<T>(
    ev: Evaluator, ctx: Context, obj: Value, item: Option<Value>, labels: seq<Option<CompiledLabel>>)
    requires labels != []
    ensures var steps, result := LabelSteps<T>(ev, ctx, obj, item, labels), LabelsOf(ev, obj, item, labels);
            var later, others := LabelSteps<T>(ev, ctx, obj, item, labels[1..]), LabelsOf(ev, obj, item, labels[1..]);
            if LabelProgram(labels[0]).None? then steps == later && result == others
            else
              var first := LabelProgram(labels[0]).value;
              var value := LabelValue(ev, Bindings(obj, item), first);
              if value.Bad? then steps == [Evaluate(ctx, Some(first.0))] && result == LabelFailed(first.0, value.code)
              else
                && steps == [Evaluate(ctx, Some(first.0))] + later
                && result == WithLabel(LabelPair(first.0, value.value), others)
  {
    assert EnvOf(obj, item) == Bindings(obj, item);
    hide EnvOf, Bindings;
  }

  /** Every label program up to the first that fails is evaluated, in order. */
  ghost predicate LabelsStep<T>(ctx: Context, programs: seq<(string, Expr)>, n: nat, steps: seq<Event<T>>) {
    && n <= |programs| && |steps| == (if n < |programs| then n + 1 else n)
    && forall j | 0 <= j < |steps| :: steps[j] == Evaluate(ctx, Some(programs[j].0))
  }

  lemma {:induction false} NoLabels<T>(ev: Evaluator, ctx: Context, obj: Value, item: Option<Value>)
    ensures Picked([], LabelProgram, [])
    ensures LabelsCome(ev, Bindings(obj, item), [], 0, LabelsOf(ev, obj, item, []))
    ensures LabelsStep(ctx, [], 0, LabelSteps<T>(ev, ctx, obj, item, []))
  {
    NothingPicked([], LabelProgram);
  }

  lemma {:induction false} StepsNext<T>(
    ctx: Context, first: (string, Expr), rest: seq<(string, Expr)>, m: nat, steps: seq<Event<T>>)
    requires LabelsStep(ctx, rest, m, steps)
    ensures LabelsStep(ctx, [first] + rest, m + 1, [Evaluate(ctx, Some(first.0))] + steps)
    ensures LabelsStep<T>(ctx, [first] + rest, 0, [Evaluate(ctx, Some(first.0))])
  {}

  lemma {:induction false} LabelsMean<T>(
    ev: Evaluator, ctx: Context, obj: Value, item: Option<Value>, labels: seq<Option<CompiledLabel>>)
    returns (programs: seq<(string, Expr)>, n: nat)
    ensures Picked(labels, LabelProgram, programs)
    ensures LabelsCome(ev, Bindings(obj, item), programs, n, LabelsOf(ev, obj, item, labels))
    ensures LabelsStep(ctx, programs, n, LabelSteps<T>(ev, ctx, obj, item, labels))
    decreases |labels|
  {
    hide Picked, Bindings, LabelsCome, LabelsStep, LabelSteps, LabelsOf, LabelValue;
    if labels == [] {
      NoLabels<T>(ev, ctx, obj, item);
      return [], 0;
    }
    var rest, m := LabelsMean<T>(ev, ctx, obj, item, labels[1..]);
    NextPicked(labels, LabelProgram, rest);
    FirstLabel<T>(ev, ctx, obj, item, labels);
    if LabelProgram(labels[0]).None? {
      return rest, m;
    }
    var first := LabelProgram(labels[0]).value;
    programs := [first] + rest;
    LabelsComeNext(ev, Bindings(obj, item), first, rest, m, LabelsOf(ev, obj, item, labels[1..]));
    StepsNext(ctx, first, rest, m, LabelSteps<T>(ev, ctx, obj, item, labels[1..]));
    n := if LabelValue(ev, Bindings(obj, item), first).Bad? then 0 else m + 1;
  }

  lemma {:induction false} ValueMeans(
    ev: Evaluator, ctx: Context, obj: Value, item: Option<Value>, value: Option<Expr>, pairs: seq<LabelPair>)
    ensures ValueDoes(ev, ctx, Bindings(obj, item), value, pairs, ValueTrace(ev, ctx, obj, item, value, pairs))
  {
    assert EnvOf(obj, item) == Bindings(obj, item);
  }

  lemma {:induction false} SeriesMeans(
    ev: Evaluator, ctx: Context, obj: Value, item: Option<Value>, metric: CompiledMetric)
    ensures SeriesDoes(ev, ctx, Bindings(obj, item), metric, SeriesTrace(ev, ctx, obj, item, metric))
  {
    var env := Bindings(obj, item);
    var programs, n := LabelsMean<Measurement>(ev, ctx, obj, item, metric.labels);
    hide Bindings, LabelSteps, LabelsOf, LabelTexts, LabelValue, ValueDoes, ValueTrace;
    var steps, rest := LabelSteps<Measurement>(ev, ctx, obj, item, metric.labels),
        SeriesRest(ev, ctx, obj, item, metric);
    var events := SeriesTrace(ev, ctx, obj, item, metric);
    assert events == steps + rest;
    assert LabelsEvaluated(ctx, programs, |steps|, events);
    if n == |programs| {
      var pairs := LabelsOf(ev, obj, item, metric.labels).pairs;
      ValueMeans(ev, ctx, obj, item, metric.value, pairs);
      assert events[n..] == rest;
    } else {
      assert rest == [Failure(ctx, Some(programs[n].0), LabelValue(ev, env, programs[n]).code)];
    }
    assert SeriesRuns(ev, ctx, env, programs, n, metric.value, events);
  }

  lemma {:induction false} ItemsMean(ev: Evaluator, ctx: Context, obj: Value, items: seq<Value>, metric: CompiledMetric)
    ensures InTurn(items, ItemDoes(ev, ctx, obj, metric), ItemsTrace(ev, ctx, obj, items, metric))
  {
    hide SeriesDoes, SeriesTrace, InTurn;
    if items == [] {
      NothingInTurn(items, ItemDoes(ev, ctx, obj, metric));
    } else {
      SeriesMeans(ev, ctx, obj, Some(items[0]), metric);
      ItemsMean(ev, ctx, obj, items[1..], metric);
      NextInTurn(items, ItemDoes(ev, ctx, obj, metric), SeriesTrace(ev, ctx, obj, Some(items[0]), metric),
                 ItemsTrace(ev, ctx, obj, items[1..], metric));
    }
  }

  lemma {:induction false} MetricMeans(ev: Evaluator, ctx: Context, obj: Value, metric: CompiledMetric)
    ensures MetricDoes(ev, ctx, obj, metric, MetricTrace(ev, ctx, obj, metric))
  {
    assert RootEnv(obj) == Bindings(obj, None);
    hide SeriesDoes, SeriesTrace, InTurn, ItemDoes, ItemsTrace, Bindings;
    match metric.forEach
    case None => SeriesMeans(ev, ctx, obj, None, metric);
    case Some(program) =>
      var events := MetricTrace(ev, ctx, obj, metric);
      match ev.toList(Eval(ev.sem, program, RootEnv(obj)))
      case Bad(code) => assert events[1..] == [Failure(ctx, None, code)];
      case Got(items) =>
        ItemsMean(ev, ctx, obj, items, metric);
        assert events[1..] == ItemsTrace(ev, ctx, obj, items, metric);
  }

  lemma {:induction false} MetricsMean(
    ev: Evaluator, ctx: Context, obj: Value, metrics: seq<Option<CompiledMetric>>)
    ensures InTurn(metrics, MetricSlotDoes(ev, ctx, obj), MetricsTrace(ev, ctx, obj, metrics))
  {
    hide MetricDoes, MetricTrace, InTurn;
    if metrics == [] {
      NothingInTurn(metrics, MetricSlotDoes(ev, ctx, obj));
    } else {
      if metrics[0].Some? {
        MetricMeans(ev, ctx, obj, metrics[0].value);
      }
      MetricsMean(ev, ctx, obj, metrics[1..]);
      NextInTurn(metrics, MetricSlotDoes(ev, ctx, obj),
                 if metrics[0].None? then [] else MetricTrace(ev, ctx, obj, metrics[0].value),
                 MetricsTrace(ev, ctx, obj, metrics[1..]));
    }
  }

  lemma {:induction false} FamiliesMean(
    ev: Evaluator, policy: string, generator: string, obj: Value, families: seq<Option<CompiledFamily>>)
    ensures InTurn(families, FamilySlotDoes(ev, policy, generator, obj),
                   FamiliesTrace(ev, policy, generator, obj, families))
  {
    NameInMetadata(obj);
    hide MetricSlotDoes, MetricsTrace, InTurn, ObjectName, MetadataName;
    if families == [] {
      NothingInTurn(families, FamilySlotDoes(ev, policy, generator, obj));
    } else {
      var ctx := Context(policy, generator, if families[0].Some? then families[0].value.name
          else "", MetadataName(obj));
      if families[0].Some? {
        MetricsMean(ev, ctx, obj, families[0].value.metrics);
      }
      FamiliesMean(ev, policy, generator, obj, families[1..]);
      NextInTurn(families, FamilySlotDoes(ev, policy, generator, obj),
                 if families[0].None? then [] else MetricsTrace(ev, ctx, obj, families[0].value.metrics),
                 FamiliesTrace(ev, policy, generator, obj, families[1..]));
    }
  }

  /** The unbudgeted build is this. */
  lemma {:induction false} TraceMeans(ev: Evaluator, policy: string, gen: CompiledGenerator, objects: seq<Value>)
    ensures BuildDoes(ev, policy, gen, objects, Trace(ev, policy, gen, objects))
  {
    hide FamilySlotDoes, FamiliesTrace, InTurn;
    if objects == [] {
      NothingInTurn(objects, ObjectDoes(ev, policy, gen));
    } else {
      FamiliesMean(ev, policy, gen.name, objects[0], gen.families);
      TraceMeans(ev, policy, gen, objects[1..]);
      NextInTurn(objects, ObjectDoes(ev, policy, gen), FamiliesTrace(ev, policy, gen.name, objects[0], gen.families),
                 Trace(ev, policy, gen, objects[1..]));
    }
  }

  // ---- There is only one thing to do ----

  lemma {:induction false} SameLabels(
    ev: Evaluator, env: Env, programs: seq<(string, Expr)>, a: seq<LabelPair>, b: seq<LabelPair>)
    requires LabelTexts(ev, env, programs, a) && LabelTexts(ev, env, programs, b)
    ensures a == b
  {}

  lemma {:induction false} ValueDoesOnce(
    ev: Evaluator, ctx: Context, env: Env, value: Option<Expr>, pairs: seq<LabelPair>, a: Events, b: Events)
    requires ValueDoes(ev, ctx, env, value, pairs, a) && ValueDoes(ev, ctx, env, value, pairs, b)
    ensures a == b
  {}

  lemma {:induction false} SeriesRunsOnce(
    ev: Evaluator, ctx: Context, env: Env, programs: seq<(string, Expr)>, n: nat, m: nat, value: Option<Expr>,
    a: Events, b: Events)
    requires SeriesRuns(ev, ctx, env, programs, n, value, a) && SeriesRuns(ev, ctx, env, programs, m, value, b)
    ensures a == b
  {
    hide LabelValue, LabelTexts, ValueDoes, Failure;
    assert n == m;
    if n == |programs| {
      var p :| LabelTexts(ev, env, programs, p) && ValueDoes(ev, ctx, env, value, p, a[n..]);
      var q :| LabelTexts(ev, env, programs, q) && ValueDoes(ev, ctx, env, value, q, b[n..]);
      SameLabels(ev, env, programs, p, q);
      ValueDoesOnce(ev, ctx, env, value, p, a[n..], b[n..]);
      assert a[..n] == b[..n];
      assert a == a[..n] + a[n..] && b == b[..n] + b[n..];
    }
  }

  lemma {:induction false} SeriesDoesOnce(
    ev: Evaluator, ctx: Context, env: Env, metric: CompiledMetric, a: Events, b: Events)
    requires SeriesDoes(ev, ctx, env, metric, a) && SeriesDoes(ev, ctx, env, metric, b)
    ensures a == b
  {
    hide Picked, SeriesRuns;
    var p, n: nat :| Picked(metric.labels, LabelProgram, p) && SeriesRuns(ev, ctx, env, p, n, metric.value, a);
    var q, m: nat :| Picked(metric.labels, LabelProgram, q) && SeriesRuns(ev, ctx, env, q, m, metric.value, b);
    PickedOnce(metric.labels, LabelProgram, p, q);
    SeriesRunsOnce(ev, ctx, env, p, n, m, metric.value, a, b);
  }

  lemma {:induction false} MetricDoesOnce(
    ev: Evaluator, ctx: Context, obj: Value, metric: CompiledMetric, a: Events, b: Events)
    requires MetricDoes(ev, ctx, obj, metric, a) && MetricDoes(ev, ctx, obj, metric, b)
    ensures a == b
  {
    hide SeriesDoes, InTurn, Bindings;
    match metric.forEach
    case None => SeriesDoesOnce(ev, ctx, Bindings(obj, None), metric, a, b);
    case Some(program) =>
      match ev.toList(Eval(ev.sem, program, Bindings(obj, None)))
      case Bad(code) => assert a == [a[0]] + a[1..] && b == [b[0]] + b[1..];
      case Got(items) =>
        forall item, p, q | ItemDoes(ev, ctx, obj, metric)(item, p) && ItemDoes(ev, ctx, obj, metric)(item, q)
          ensures p == q
        {
          SeriesDoesOnce(ev, ctx, Bindings(obj, Some(item)), metric, p, q);
        }
        InTurnOnce(items, ItemDoes(ev, ctx, obj, metric), a[1..], b[1..]);
        assert a == [a[0]] + a[1..] && b == [b[0]] + b[1..];
  }

  lemma {:induction false} FamilyDoesOnce(
    ev: Evaluator, policy: string, generator: string, obj: Value, f: Option<CompiledFamily>, a: Events, b: Events)
    requires FamilySlotDoes(ev, policy, generator, obj)(f, a) && FamilySlotDoes(ev, policy, generator, obj)(f, b)
    ensures a == b
  {
    hide MetricDoes, InTurn;
    if f.Some? {
      var does := MetricSlotDoes(ev, Context(policy, generator, f.value.name, MetadataName(obj)), obj);
      forall m, p, q | does(m, p) && does(m, q)
        ensures p == q
      {
        if m.Some? {
          MetricDoesOnce(ev, Context(policy, generator, f.value.name, MetadataName(obj)), obj, m.value, p, q);
        }
      }
      InTurnOnce(f.value.metrics, does, a, b);
    }
  }

  /** A policy, its objects and the runtime determine everything that is evaluated, measured and reported, in order. */
  lemma {:induction false} BuildDoesOnce(
    ev: Evaluator, policy: string, gen: CompiledGenerator, objects: seq<Value>, a: Events, b: Events)
    requires BuildDoes(ev, policy, gen, objects, a) && BuildDoes(ev, policy, gen, objects, b)
    ensures a == b
  {
    hide InTurn, FamilySlotDoes;
    forall obj, p, q | ObjectDoes(ev, policy, gen)(obj, p) && ObjectDoes(ev, policy, gen)(obj, q)
      ensures p == q
    {
      forall f, x, y | FamilySlotDoes(ev, policy, gen.name, obj)(f, x) &&
          FamilySlotDoes(ev, policy, gen.name, obj)(f, y)
        ensures x == y
      {
        FamilyDoesOnce(ev, policy, gen.name, obj, f, x, y);
      }
      InTurnOnce(gen.families, FamilySlotDoes(ev, policy, gen.name, obj), p, q);
    }
    InTurnOnce(objects, ObjectDoes(ev, policy, gen), a, b);
  }

  // ---- Where a budget cuts it ----

  /** The evaluation that comes after `n` others is not made. */
  ghost predicate Refused(b: BudgetState, n: nat) {
    b.Limited? && (b.expired(b.asked + n) || n >= b.remaining)
  }

  function OutputOf<T>(e: Event<T>): Option<T> {
    if e.Emit? then Some(e.output) else None
  }

  function ErrorOf<T>(e: Event<T>): Option<BuildError> {
    if e.Fail? then Some(e.error) else None
  }

  /** The deadline comes before the count. */
  function CutError<T>(e: Event<T>, b: BudgetState, n: nat): BuildError
    requires e.Evaluate? && b.Limited?
  {
    BuildError(e.ctx.policy, e.ctx.generator, e.ctx.family, e.ctx.object_, e.labelName,
               OutOfBudget(if b.expired(b.asked + n) then DeadlineExceeded else CountExhausted))
  }

  /**
   * `k` events were completed: all of them, or those before the first evaluation that was refused. What was emitted and
   * what failed up to there comes out in order, and a cut adds its error.
   */
  ghost predicate Ran<T(!new)>(
    events: seq<Event<T>>, b: BudgetState, k: nat, outputs: seq<T>, errors: seq<BuildError>) {
    && k <= |events|
    && (forall i | 0 <= i < k && events[i].Evaluate? :: !Refused(b, Evaluations(events[..i])))
    && (k < |events| ==> events[k].Evaluate? && Refused(b, Evaluations(events[..k])))
    && Picked(events[..k], OutputOf<T>, outputs)
    && exists failures :: Picked(events[..k], ErrorOf<T>, failures) &&
         errors == failures + if k == |events| then [] else [CutError(events[k], b, Evaluations(events[..k]))]
  }

  lemma {:induction false} EvaluationsSnoc<T>(events: seq<Event<T>>, e: Event<T>)
    ensures Evaluations(events + [e]) == Evaluations(events) + if e.Evaluate? then 1 else 0
  {
    if events == [] {
      assert [] + [e] == [e] && [e][1..] == [];
    } else {
      EvaluationsSnoc(events[1..], e);
      assert (events + [e])[1..] == events[1..] + [e];
    }
  }

  /** The number of evaluations, by counting. */
  lemma {:induction false} EvaluationsCount<T>(events: seq<Event<T>>)
    ensures Evaluations(events) == |set i | 0 <= i < |events| && events[i].Evaluate?|
  {
    if events != [] {
      var front, last := events[..|events| - 1], |events| - 1;
      EvaluationsCount(front);
      EvaluationsSnoc(front, events[last]);
      assert events == front + [events[last]];
      var before := set i | 0 <= i < |front| && front[i].Evaluate?;
      assert (set i | 0 <= i < |events| && events[i].Evaluate?)
          == before + if events[last].Evaluate? then {last} else {};
    }
  }

  lemma {:induction false} OutputsPicked<T(!new)>(events: seq<Event<T>>)
    ensures Picked(events, OutputOf<T>, Outputs(events))
  {
    hide Picked;
    if events == [] {
      NothingPicked(events, OutputOf<T>);
    } else {
      OutputsPicked(events[1..]);
      NextPicked(events, OutputOf<T>, Outputs(events[1..]));
      assert [] + Outputs(events[1..]) == Outputs(events[1..]);
    }
  }

  lemma {:induction false} FailuresPicked<T(!new)>(events: seq<Event<T>>)
    ensures Picked(events, ErrorOf<T>, Failures(events))
  {
    hide Picked;
    if events == [] {
      NothingPicked(events, ErrorOf<T>);
    } else {
      FailuresPicked(events[1..]);
      NextPicked(events, ErrorOf<T>, Failures(events[1..]));
      assert [] + Failures(events[1..]) == Failures(events[1..]);
    }
  }

  lemma {:induction false} SpendRefuses(b: BudgetState)
    ensures Spend(b).error.Some? <==> Refused(b, 0)
    ensures Spend(b).error.None? ==> forall n: nat :: Refused(Spend(b).budget, n) <==> Refused(b, n + 1)
  {}

  /** The cut is at the first refusal. */
  lemma {:induction false} CutAtRefusal<T>(events: seq<Event<T>>, b: BudgetState)
    ensures var k := Completed(events, b);
            && (forall i | 0 <= i < k && events[i].Evaluate? :: !Refused(b, Evaluations(events[..i])))
            && (k < |events| ==> events[k].Evaluate? && Refused(b, Evaluations(events[..k])))
    decreases |events|
  {
    SpendRefuses(b);
    hide Spend, Refused;
    var k := Completed(events, b);
    if events != [] && k > 0 {
      var rest, next := events[1..], if events[0].Evaluate? then Spend(b).budget else b;
      CutAtRefusal(rest, next);
      forall i | 0 <= i < k && events[i].Evaluate?
        ensures !Refused(b, Evaluations(events[..i]))
      {
        if i > 0 {
          StartAgrees(events, i);
          assert rest[i - 1] == events[i];
        }
      }
      StartAgrees(events, k);
      assert k < |events| ==> rest[k - 1] == events[k];
    }
  }

  /** With the error of the refusal. */
  lemma {:induction false} CutWithError<T>(events: seq<Event<T>>, b: BudgetState)
    requires Completed(events, b) < |events|
    ensures var k := Completed(events, b);
            && events[k].Evaluate? && b.Limited?
            && Exec(events, b).errors == Failures(events[..k]) + [CutError(events[k], b, Evaluations(events[..k]))]
    decreases |events|
  {
    var k := Completed(events, b);
    if k == 0 {
      assert events[..0] == [];
    } else {
      var rest, next := events[1..], if events[0].Evaluate? then Spend(b).budget else b;
      CutWithError(rest, next);
      StartAgrees(events, k);
      assert rest[k - 1] == events[k];
    }
  }

  lemma {:induction false} ExecRan<T(!new)>(events: seq<Event<T>>, b: BudgetState)
    ensures Ran(events, b, Completed(events, b), Exec(events, b).outputs, Exec(events, b).errors)
    ensures Exec(events, b).stopped <==> Completed(events, b) < |events|
  {
    var k := Completed(events, b);
    BudgetedRunIsPrefix(events, b);
    CutAtRefusal(events, b);
    if k < |events| {
      CutWithError(events, b);
    }
    OutputsPicked(events[..k]);
    FailuresPicked(events[..k]);
    hide Exec, Outputs, Failures, Evaluations, Completed, Refused, CutError, Picked;
    if k == |events| {
      assert events[..k] == events;
      assert Failures(events) + [] == Failures(events);
    }
  }

  lemma {:induction false} ExecEvaluate<T>(ctx: Context, labelName: Option<string>, rest: seq<Event<T>>, b: BudgetState)
    ensures Exec([Evaluate(ctx, labelName)] + rest, b) ==
            if Spend(b).error.Some?
            then Run([], [ErrorAt(ctx, labelName, OutOfBudget(Spend(b).error.value))], Spend(b).budget, true)
            else Exec(rest, Spend(b).budget)
  {
    assert ([Evaluate(ctx, labelName)] + rest)[1..] == rest;
  }

  lemma {:induction false} ExecFail<T>(error: BuildError, rest: seq<Event<T>>, b: BudgetState)
    ensures Exec([Fail(error)] + rest, b) == Exec(rest, b).(errors := [error] + Exec(rest, b).errors)
  {
    assert ([Fail(error)] + rest)[1..] == rest;
  }

  /** Emitting something else, or nothing, for each measurement changes nothing but the outputs. */
  lemma {:induction false} ExecProject<T>(f: Measurement -> seq<T>, events: Events, b: BudgetState)
    ensures var run, projected := Exec(events, b), Exec(Project(f, events), b);
            && projected.outputs == Sums.FlatMap(f, run.outputs) && projected.errors == run.errors
            && projected.budget == run.budget && projected.stopped == run.stopped
    decreases |events|
  {
    hide Spend;
    if events != [] {
      var rest := events[1..];
      match events[0] {
        case Evaluate(ctx, labelName) =>
          ExecEvaluate(ctx, labelName, Project(f, rest), b);
          ExecProject(f, rest, Spend(b).budget);
        case Emit(output) =>
          ExecProject(f, rest, b);
          ExecConcat(EmitAll(f(output)), Project(f, rest), b);
          ExecEmits(f(output), b);
          var outputs := Exec(rest, b).outputs;
          assert ([output] + outputs)[1..] == outputs;
          assert [] + Exec(rest, b).errors == Exec(rest, b).errors;
        case Fail(error) =>
          ExecFail(error, Project(f, rest), b);
          ExecProject(f, rest, b);
      }
    }
  }

  /** The measurements, errors and evaluations of a build under a budget. */
  ghost predicate Built(
    ev: Evaluator, policy: string, gen: CompiledGenerator, objects: seq<Value>, b: BudgetState,
    outputs: seq<Measurement>, errors: seq<BuildError>, evaluations: nat) {
    exists events, k: nat ::
      && BuildDoes(ev, policy, gen, objects, events) && Ran(events, b, k, outputs, errors)
      && evaluations == Evaluations(events[..k])
  }

  lemma {:induction false} ProjectedTraceIsBuilt<T>(
    ev: Evaluator, policy: string, gen: CompiledGenerator, objects: seq<Value>, b: BudgetState,
    f: Measurement -> seq<T>) returns (outputs: seq<Measurement>, n: nat)
    ensures var run := Exec(Project(f, Trace(ev, policy, gen, objects)), b);
            && Built(ev, policy, gen, objects, b, outputs, run.errors, n) && run.outputs == Sums.FlatMap(f, outputs)
            && (b.Limited? ==>
                  run.budget.Limited? && run.budget.asked == b.asked + n + if run.stopped then 1 else 0)
  {
    var events := Trace(ev, policy, gen, objects);
    TraceMeans(ev, policy, gen, objects);
    ExecRan(events, b);
    ExecProject(f, events, b);
    if b.Limited? {
      AskedForEvaluations(events, b);
    }
    hide Trace, Project, Exec, Ran, BuildDoes, Completed, Evaluations;
    outputs, n := Exec(events, b).outputs, Evaluations(events[..Completed(events, b)]);
  }
}
