// The budgeted evaluator: four nested loops that skip a series on an error and stop when the budget is gone.
module Builder {
  import opened Paths
  import opened Sums
  import opened Cel
  import opened Pushdown
  import opened PolicyModel
  import opened Budget

  datatype Outcome<+T> = Got(value: T) | Bad(code: int)

  /** The expression runtime and the coercions of its results. */
  datatype Evaluator = Evaluator(
    sem: Semantics,
    toList: Result -> Outcome<seq<Value>>,
    toNumber: Result -> Outcome<real>,
    toLabel: Result -> Outcome<string>)

  datatype LabelPair = LabelPair(name: string, value: string)

  datatype Measurement = Measurement(family: string, value: real, labels: seq<LabelPair>)

  datatype Cause = OutOfBudget(error: BudgetError) | EvalFailed(code: int)

  /** `labelName` names the label whose expression failed. */
  datatype BuildError = BuildError(
    policy: string, generator: string, family: string, object_: string, labelName: Option<string>, cause: Cause)

  datatype Context = Context(policy: string, generator: string, family: string, object_: string)

  function ErrorAt(ctx: Context, labelName: Option<string>, cause: Cause): BuildError {
    BuildError(ctx.policy, ctx.generator, ctx.family, ctx.object_, labelName, cause)
  }

  // ---- The unbudgeted run, as the sequence of what it does ----

  datatype Event<+T> = Evaluate(ctx: Context, labelName: Option<string>) | Emit(output: T) | Fail(error: BuildError)

  /** Failures come from expressions, and measurements belong to one of `families`. */
  predicate TraceOf(events: seq<Event<Measurement>>, families: set<string>) {
    forall e | e in events :: (e.Fail? ==> e.error.cause.EvalFailed?) && (e.Emit? ==> e.output.family in families)
  }

  function EnvOf(obj: Value, item: Option<Value>): Env {
    match item
    case None => RootEnv(obj)
    case Some(v) => ItemEnv(obj, v)
  }

  datatype LabelsResult = Labels(pairs: seq<LabelPair>) | LabelFailed(name: string, code: int)

  function EvalLabelProgram(ev: Evaluator, obj: Value, item: Option<Value>, program: Expr): Outcome<string> {
    ev.toLabel(Eval(ev.sem, program, EnvOf(obj, item)))
  }

  /** Labels without a program are skipped; the first failure ends the list. */
  function LabelsOf(ev: Evaluator, obj: Value, item: Option<Value>, labels: seq<Option<CompiledLabel>>): LabelsResult
    decreases |labels|
  {
    if labels == [] then Labels([])
    else if labels[0].None? || labels[0].value.program.None? then LabelsOf(ev, obj, item, labels[1..])
    else
      var name := labels[0].value.name;
      match EvalLabelProgram(ev, obj, item, labels[0].value.program.value)
      case Bad(code) => LabelFailed(name, code)
      case Got(text) =>
        match LabelsOf(ev, obj, item, labels[1..])
        case Labels(pairs) => Labels([LabelPair(name, text)] + pairs)
        case failed => failed
  }

  /** The evaluations that computing the labels makes. */
  function LabelSteps<T>(
    ev: Evaluator, ctx: Context, obj: Value, item: Option<Value>,
    labels: seq<Option<CompiledLabel>>): (r: seq<Event<T>>)
    ensures forall e | e in r :: e.Evaluate?
    decreases |labels|
  {
    if labels == [] then []
    else if labels[0].None? || labels[0].value.program.None? then LabelSteps(ev, ctx, obj, item, labels[1..])
    else
      [Evaluate(ctx, Some(labels[0].value.name))] +
      if EvalLabelProgram(ev, obj, item, labels[0].value.program.value).Bad? then []
      else LabelSteps(ev, ctx, obj, item, labels[1..])
  }

  function ValueTrace(
    ev: Evaluator, ctx: Context, obj: Value, item: Option<Value>, value: Option<Expr>,
    pairs: seq<LabelPair>): (r: seq<Event<Measurement>>)
    ensures TraceOf(r, {ctx.family})
  {
    match value
    case None => [Emit(Measurement(ctx.family, 1.0, pairs))]
    case Some(program) =>
      [Evaluate(ctx, None)] +
      match ev.toNumber(Eval(ev.sem, program, EnvOf(obj, item)))
      case Bad(code) => [Fail(ErrorAt(ctx, None, EvalFailed(code)))]
      case Got(x) => [Emit(Measurement(ctx.family, x, pairs))]
  }

  /** What a series does after its labels. */
  function SeriesRest(
    ev: Evaluator, ctx: Context, obj: Value, item: Option<Value>, metric: CompiledMetric): (r: seq<Event<Measurement>>)
    ensures TraceOf(r, {ctx.family})
  {
    match LabelsOf(ev, obj, item, metric.labels)
    case LabelFailed(name, code) => [Fail(ErrorAt(ctx, Some(name), EvalFailed(code)))]
    case Labels(pairs) => ValueTrace(ev, ctx, obj, item, metric.value, pairs)
  }

  function SeriesTrace(
    ev: Evaluator, ctx: Context, obj: Value, item: Option<Value>, metric: CompiledMetric): (r: seq<Event<Measurement>>)
    ensures TraceOf(r, {ctx.family})
  {
    LabelSteps(ev, ctx, obj, item, metric.labels) + SeriesRest(ev, ctx, obj, item, metric)
  }

  function ItemsTrace(
    ev: Evaluator, ctx: Context, obj: Value, items: seq<Value>, metric: CompiledMetric): (r: seq<Event<Measurement>>)
    ensures TraceOf(r, {ctx.family})
  {
    if items == [] then []
    else SeriesTrace(ev, ctx, obj, Some(items[0]), metric) + ItemsTrace(ev, ctx, obj, items[1..], metric)
  }

  function MetricTrace(ev: Evaluator, ctx: Context, obj: Value, metric: CompiledMetric): (r: seq<Event<Measurement>>)
    ensures TraceOf(r, {ctx.family})
  {
    match metric.forEach
    case None => SeriesTrace(ev, ctx, obj, None, metric)
    case Some(program) =>
      [Evaluate(ctx, None)] +
      match ev.toList(Eval(ev.sem, program, RootEnv(obj)))
      case Bad(code) => [Fail(ErrorAt(ctx, None, EvalFailed(code)))]
      case Got(items) => ItemsTrace(ev, ctx, obj, items, metric)
  }

  function MetricsTrace(
    ev: Evaluator, ctx: Context, obj: Value, metrics: seq<Option<CompiledMetric>>): (r: seq<Event<Measurement>>)
    ensures TraceOf(r, {ctx.family})
  {
    if metrics == [] then []
    else (if metrics[0].None? then [] else MetricTrace(ev, ctx, obj, metrics[0].value)) +
         MetricsTrace(ev, ctx, obj, metrics[1..])
  }

  function FamilyNames(families: seq<Option<CompiledFamily>>): set<string> {
    set f | f in families && f.Some? :: f.value.name
  }

  /** Best effort: the name in the metadata, or nothing. */
  function ObjectName(obj: Value): string {
    match Lookup(obj, ["metadata", "name"])
    case Present(Text(s)) => s
    case _ => ""
  }

  function FamiliesTrace(
    ev: Evaluator, policy: string, generator: string, obj: Value,
    families: seq<Option<CompiledFamily>>): (r: seq<Event<Measurement>>)
    ensures TraceOf(r, FamilyNames(families))
  {
    if families == [] then []
    else (if families[0].None? then []
          else MetricsTrace(ev, Context(policy, generator, families[0].value.name, ObjectName(obj)), obj,
              families[0].value.metrics)) +
         FamiliesTrace(ev, policy, generator, obj, families[1..])
  }

  function Trace(
    ev: Evaluator, policy: string, gen: CompiledGenerator, objects: seq<Value>): (r: seq<Event<Measurement>>)
    ensures TraceOf(r, FamilyNames(gen.families))
  {
    if objects == [] then []
    else FamiliesTrace(ev, policy, gen.name, objects[0], gen.families) + Trace(ev, policy, gen, objects[1..])
  }

  // ---- Running a trace under a budget ----

  datatype Run<+T> = Run(outputs: seq<T>, errors: seq<BuildError>, budget: BudgetState, stopped: bool)

  function Exec<T>(events: seq<Event<T>>, b: BudgetState): Run<T>
    decreases |events|
  {
    if events == [] then Run([], [], b, false)
    else
      match events[0]
      case Emit(output) =>
        var rest := Exec(events[1..], b);
        rest.(outputs := [output] + rest.outputs)
      case Fail(error) =>
        var rest := Exec(events[1..], b);
        rest.(errors := [error] + rest.errors)
      case Evaluate(ctx, labelName) =>
        var spent := Spend(b);
        if spent.error.Some? then Run([], [ErrorAt(ctx, labelName, OutOfBudget(spent.error.value))], spent.budget, true)
        else Exec(events[1..], spent.budget)
  }

  /** Running one trace after another, unless the first one stopped. */
  function Then<T>(first: Run<T>, second: Run<T>): Run<T> {
    if first.stopped then first
    else Run(first.outputs + second.outputs, first.errors + second.errors, second.budget, second.stopped)
  }

  lemma {:induction false} ExecConcat<T>(a: seq<Event<T>>, c: seq<Event<T>>, b: BudgetState)
    ensures Exec(a + c, b) == Then(Exec(a, b), Exec(c, Exec(a, b).budget))
    decreases |a|
  {
    if a == [] {
      assert a + c == c;
    } else {
      assert (a + c)[0] == a[0] && (a + c)[1..] == a[1..] + c;
      match a[0] {
        case Emit(output) => ExecConcat(a[1..], c, b);
        case Fail(error) => ExecConcat(a[1..], c, b);
        case Evaluate(ctx, labelName) =>
          if Spend(b).error.None? {
            ExecConcat(a[1..], c, Spend(b).budget);
          }
      }
    }
  }

  function Outputs<T>(events: seq<Event<T>>): seq<T> {
    if events == [] then []
    else (if events[0].Emit? then [events[0].output] else []) + Outputs(events[1..])
  }

  function Failures<T>(events: seq<Event<T>>): seq<BuildError> {
    if events == [] then []
    else (if events[0].Fail? then [events[0].error] else []) + Failures(events[1..])
  }

  function Evaluations<T>(events: seq<Event<T>>): nat {
    if events == [] then 0 else (if events[0].Evaluate? then 1 else 0) + Evaluations(events[1..])
  }

  /** The events a budgeted run completes. */
  function Completed<T>(events: seq<Event<T>>, b: BudgetState): (k: nat)
    ensures k <= |events|
    decreases |events|
  {
    if events == [] then 0
    else if !events[0].Evaluate? then 1 + Completed(events[1..], b)
    else if Spend(b).error.Some? then 0
    else 1 + Completed(events[1..], Spend(b).budget)
  }

  lemma {:induction false} StartAgrees<T>(events: seq<Event<T>>, k: nat)
    requires 0 < k <= |events|
    ensures Outputs(events[..k]) == (if events[0].Emit? then [events[0].output] else []) + Outputs(events[1..][..k - 1])
    ensures Failures(events[..k])
        == (if events[0].Fail? then [events[0].error] else []) + Failures(events[1..][..k - 1])
    ensures Evaluations(events[..k]) == (if events[0].Evaluate? then 1 else 0) + Evaluations(events[1..][..k - 1])
  {
    assert events[..k][1..] == events[1..][..k - 1];
  }

  /**
   * A budgeted run does a prefix of the unbudgeted one: its outputs and errors are those of the events before the
   * cut; a cut happens at an evaluation, and adds one budget error, last.
   */
  lemma {:induction false} BudgetedRunIsPrefix<T>(events: seq<Event<T>>, b: BudgetState)
    ensures var run, k := Exec(events, b), Completed(events, b);
            && run.outputs == Outputs(events[..k])
            && run.stopped == (k < |events|)
            && (!run.stopped ==> run.errors == Failures(events))
            && (run.stopped ==> events[k].Evaluate? && exists e: BudgetError ::
                 run.errors == Failures(events[..k]) + [ErrorAt(events[k].ctx, events[k].labelName, OutOfBudget(e))])
    decreases |events|
  {
    hide Spend, ErrorAt;
    var k := Completed(events, b);
    if events != [] {
      match events[0] {
        case Evaluate(ctx, labelName) =>
          var spent := Spend(b);
          if spent.error.None? {
            BudgetedRunIsPrefix(events[1..], spent.budget);
            StartAgrees(events, k);
          } else {
            assert [ErrorAt(ctx, labelName, OutOfBudget(spent.error.value))]
                == Failures(events[..k]) + [ErrorAt(ctx, labelName, OutOfBudget(spent.error.value))];
          }
        case Emit(output) =>
          BudgetedRunIsPrefix(events[1..], b);
          StartAgrees(events, k);
        case Fail(error) =>
          BudgetedRunIsPrefix(events[1..], b);
          StartAgrees(events, k);
          var rest := Exec(events[1..], b);
          if rest.stopped {
            var e :| rest.errors
                == Failures(events[1..][..k - 1]) + [ErrorAt(events[k].ctx, events[k].labelName, OutOfBudget(e))];
            Assoc([error], Failures(events[1..][..k - 1]),
                [ErrorAt(events[k].ctx, events[k].labelName, OutOfBudget(e))]);
          }
      }
      assert events[..|events|] == events;
    }
  }

  /** The evaluations made never exceed the count the budget started with. */
  lemma {:induction false} EvaluationsWithinBudget<T>(events: seq<Event<T>>, b: BudgetState)
    requires b.Limited?
    ensures Evaluations(events[..Completed(events, b)]) <= if b.remaining > 0 then b.remaining else 0
    decreases |events|
  {
    if events != [] && Completed(events, b) > 0 {
      StartAgrees(events, Completed(events, b));
      EvaluationsWithinBudget(events[1..], if events[0].Evaluate? then Spend(b).budget else b);
    }
  }

  /** A budget is asked before every evaluation that is made, and once more at a cut. */
  lemma {:induction false} AskedForEvaluations<T>(events: seq<Event<T>>, b: BudgetState)
    requires b.Limited?
    ensures var run := Exec(events, b);
            && run.budget.Limited?
            && run.budget.asked == b.asked + Evaluations(events[..Completed(events, b)]) + if run.stopped then 1 else 0
    decreases |events|
  {
    if events != [] {
      if Completed(events, b) > 0 {
        StartAgrees(events, Completed(events, b));
      }
      if !events[0].Evaluate? || Spend(b).error.None? {
        AskedForEvaluations(events[1..], if events[0].Evaluate? then Spend(b).budget else b);
      }
    }
  }

  /** Without a budget, and with a large enough one whose deadline never fires, nothing is cut. */
  lemma {:induction false} AmpleBudgetRunsAll<T>(events: seq<Event<T>>, b: BudgetState)
    requires b.Limited? ==> b.remaining >= Evaluations(events) && forall n :: !b.expired(n)
    ensures !Exec(events, b).stopped
    decreases |events|
  {
    if events != [] {
      AmpleBudgetRunsAll(events[1..], if events[0].Evaluate? then Spend(b).budget else b);
    }
  }

  // ---- Budget errors ----

  /** A budget error is the last error of all. */
  predicate BudgetErrorOnlyLast(errors: seq<BuildError>) {
    forall i | 0 <= i < |errors| && errors[i].cause.OutOfBudget? :: i == |errors| - 1
  }

  /** And it is there exactly when the run was stopped. */
  predicate BudgetErrorLast(errors: seq<BuildError>, stopped: bool) {
    && BudgetErrorOnlyLast(errors)
    && (stopped <==> errors != [] && errors[|errors| - 1].cause.OutOfBudget?)
  }

  /** The failures of the trace itself come from expressions, not from the budget. */
  ghost predicate FailsByItself<T>(events: seq<Event<T>>) {
    forall e | e in events && e.Fail? :: e.error.cause.EvalFailed?
  }

  /** At most one budget error, last, exactly when the run was stopped. */
  lemma {:induction false} BudgetErrorIsLast<T>(events: seq<Event<T>>, b: BudgetState)
    requires FailsByItself(events)
    ensures BudgetErrorLast(Exec(events, b).errors, Exec(events, b).stopped)
    decreases |events|
  {
    hide Spend;
    if events != [] {
      match events[0] {
        case Emit(output) =>
          BudgetErrorIsLast(events[1..], b);
        case Fail(error) =>
          BudgetErrorIsLast(events[1..], b);
          assert events[0].error.cause.EvalFailed?;
        case Evaluate(ctx, labelName) =>
          if Spend(b).error.None? {
            BudgetErrorIsLast(events[1..], Spend(b).budget);
          }
      }
    }
  }

  // ---- Projecting the outputs of a trace ----

  function EmitAll<U>(outputs: seq<U>): seq<Event<U>> {
    if outputs == [] then [] else [Emit(outputs[0])] + EmitAll(outputs[1..])
  }

  function ProjectEvent<T, U>(f: T -> seq<U>, e: Event<T>): seq<Event<U>> {
    match e
    case Evaluate(ctx, labelName) => [Evaluate(ctx, labelName)]
    case Fail(error) => [Fail(error)]
    case Emit(output) => EmitAll(f(output))
  }

  function Project<T, U>(f: T -> seq<U>, events: seq<Event<T>>): seq<Event<U>> {
    if events == [] then [] else ProjectEvent(f, events[0]) + Project(f, events[1..])
  }

  lemma {:induction false} ProjectConcat<T, U>(f: T -> seq<U>, a: seq<Event<T>>, c: seq<Event<T>>)
    ensures Project(f, a + c) == Project(f, a) + Project(f, c)
  {
    hide ProjectEvent;
    if a == [] {
      assert a + c == c;
    } else {
      ProjectConcat(f, a[1..], c);
      assert (a + c)[0] == a[0] && (a + c)[1..] == a[1..] + c;
      Assoc(ProjectEvent(f, a[0]), Project(f, a[1..]), Project(f, c));
    }
  }

  lemma {:induction false} ExecEmits<U>(outputs: seq<U>, b: BudgetState)
    ensures Exec(EmitAll(outputs), b) == Run(outputs, [], b, false)
    decreases |outputs|
  {
    hide Spend, ErrorAt;
    if outputs != [] {
      ExecEmits(outputs[1..], b);
      assert EmitAll(outputs)[0] == Emit(outputs[0]) && EmitAll(outputs)[1..] == EmitAll(outputs[1..]);
    }
  }

  lemma {:induction false} EmitsDoNotFail<U>(outputs: seq<U>)
    ensures forall e | e in EmitAll(outputs) :: e.Emit?
  {
    if outputs != [] {
      EmitsDoNotFail(outputs[1..]);
    }
  }

  lemma {:induction false} ProjectFailsByItself<T, U>(f: T -> seq<U>, events: seq<Event<T>>)
    requires FailsByItself(events)
    ensures FailsByItself(Project(f, events))
  {
    if events != [] {
      ProjectFailsByItself(f, events[1..]);
      if events[0].Emit? {
        EmitsDoNotFail(f(events[0].output));
      }
    }
  }
}
