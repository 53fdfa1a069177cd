// The loops of the evaluator, proved to do exactly what its trace does under the budget.
module Build {
  import opened Paths
  import opened Sums
  import opened Cel
  import opened Pushdown
  import opened PolicyModel
  import opened Budget
  import opened Builder
  import opened BuildMeaning

  /** Where emitted measurements end up. */
  class Observer<T> {
    var log: seq<T>

    constructor ()
      ensures log == []
    {
      log := [];
    }
  }

  datatype Snapshot<+T> = Snapshot(log: seq<T>, errors: seq<BuildError>, budget: BudgetState)

  datatype Progress<+T> = Progress(snap: Snapshot<T>, stopped: bool)

  function Advance<T>(s: Snapshot<T>, events: seq<Event<T>>): Progress<T> {
    var run := Exec(events, s.budget);
    Progress(Snapshot(s.log + run.outputs, s.errors + run.errors, run.budget), run.stopped)
  }

  lemma {:induction false} AdvanceConcat<T>(s: Snapshot<T>, a: seq<Event<T>>, c: seq<Event<T>>)
    ensures Advance(s, a + c) ==
            var p := Advance(s, a); if p.stopped then p else Advance(p.snap, c)
  {
    ExecConcat(a, c, s.budget);
    var first := Exec(a, s.budget);
    var second := Exec(c, first.budget);
    Assoc(s.log, first.outputs, second.outputs);
    Assoc(s.errors, first.errors, second.errors);
  }

  // ---- One event, and the labels of one series ----

  lemma {:induction false} AdvanceThen<T>(
    s: Snapshot<T>, f: Measurement -> seq<T>, a: seq<Event<Measurement>>, c: seq<Event<Measurement>>)
    ensures Advance(s, Project(f, a + c)) ==
            var p := Advance(s, Project(f, a)); if p.stopped then p else Advance(p.snap, Project(f, c))
  {
    hide Advance;
    ProjectConcat(f, a, c);
    AdvanceConcat(s, Project(f, a), Project(f, c));
  }

  lemma {:induction false} AdvanceNothing<T>(s: Snapshot<T>, f: Measurement -> seq<T>)
    ensures Advance(s, Project(f, [])) == Progress(s, false)
  {}

  lemma {:induction false} SkipNothing<T>(events: seq<Event<T>>)
    ensures [] + events == events
  {}

  lemma {:induction false} ProjectOne<T>(f: Measurement -> seq<T>, e: Event<Measurement>)
    ensures Project(f, [e]) == ProjectEvent(f, e)
  {
    assert Project(f, [e]) == ProjectEvent(f, e) + Project(f, [e][1..]);
  }

  lemma {:induction false} AdvanceFail<T>(s: Snapshot<T>, f: Measurement -> seq<T>, error: BuildError)
    ensures Advance(s, Project(f, [Fail(error)])) == Progress(s.(errors := s.errors + [error]), false)
  {
    ProjectOne(f, Fail(error));
    var events: seq<Event<T>> := [Fail(error)];
    assert Exec(events[1..], s.budget) == Run([], [], s.budget, false);
    assert Exec(events, s.budget) == Run([], [error], s.budget, false);
  }

  lemma {:induction false} AdvanceEmit<T>(s: Snapshot<T>, f: Measurement -> seq<T>, m: Measurement)
    ensures Advance(s, Project(f, [Emit(m)])) == Progress(s.(log := s.log + f(m)), false)
  {
    ProjectOne(f, Emit(m));
    ExecEmits(f(m), s.budget);
  }

  lemma {:induction false} AdvanceEvaluate<T>(
    s: Snapshot<T>, f: Measurement -> seq<T>, ctx: Context, labelName: Option<string>, rest: seq<Event<Measurement>>)
    ensures var spent := Spend(s.budget);
            Advance(s, Project(f, [Evaluate(ctx, labelName)] + rest)) ==
            if spent.error.Some?
            then Progress(Snapshot(s.log, s.errors + [ErrorAt(ctx, labelName, OutOfBudget(spent.error.value))],
                                   spent.budget), true)
            else Advance(s.(budget := spent.budget), Project(f, rest))
  {
    AdvanceThen(s, f, [Evaluate(ctx, labelName)], rest);
    ProjectOne(f, Evaluate(ctx, labelName));
    var events: seq<Event<T>> := [Evaluate(ctx, labelName)];
    assert Exec(events[1..], Spend(s.budget).budget) == Run([], [], Spend(s.budget).budget, false);
  }

  lemma {:induction false} ProjectNone<T>(f: Measurement -> seq<T>)
    ensures Project(f, []) == []
  {}

  lemma {:induction false} LabelStepsSilent<T>(
    f: Measurement -> seq<T>, ev: Evaluator, ctx: Context, obj: Value, item: Option<Value>,
    labels: seq<Option<CompiledLabel>>, b: BudgetState)
    ensures Project(f, LabelSteps<Measurement>(ev, ctx, obj, item, labels)) == LabelSteps<T>(ev, ctx, obj, item, labels)
    ensures var run := Exec(LabelSteps<T>(ev, ctx, obj, item, labels), b);
            run.outputs == [] && |run.errors| == (if run.stopped then 1 else 0) &&
            (run.stopped ==> run.errors[0].cause.OutOfBudget?)
    decreases |labels|
  {
    hide EvalLabelProgram, Spend, Project;
    ProjectNone(f);
    if labels != [] {
      LabelStepsSilent(f, ev, ctx, obj, item, labels[1..], b);
      if labels[0].Some? && labels[0].value.program.Some? {
        LabelStepsSilent(f, ev, ctx, obj, item, labels[1..], Spend(b).budget);
        ProjectOne(f, Evaluate(ctx, Some(labels[0].value.name)));
        var head: seq<Event<Measurement>> := [Evaluate(ctx, Some(labels[0].value.name))];
        var tail := if EvalLabelProgram(ev, obj, item, labels[0].value.program.value).Bad? then []
                    else LabelSteps<Measurement>(ev, ctx, obj, item, labels[1..]);
        ProjectConcat(f, head, tail);
      }
    }
  }

  /** A series after its labels: stopped in them, failed in them, or about to compute its value. */
  lemma {:induction false} AdvanceLabels<T>(
    s: Snapshot<T>, f: Measurement -> seq<T>, ev: Evaluator, ctx: Context, obj: Value, item: Option<Value>,
    metric: CompiledMetric)
    ensures var run := Exec(LabelSteps<T>(ev, ctx, obj, item, metric.labels), s.budget);
            && (run.stopped ==> |run.errors| == 1 && run.errors[0].cause.OutOfBudget?)
            && Advance(s, Project(f, SeriesTrace(ev, ctx, obj, item, metric))) ==
               if run.stopped then Progress(Snapshot(s.log, s.errors + run.errors, run.budget), true)
               else
                 var result := LabelsOf(ev, obj, item, metric.labels);
                 if result.LabelFailed?
                 then Progress(Snapshot(s.log, s.errors + [ErrorAt(ctx, Some(result.name), EvalFailed(result.code))],
                                        run.budget), false)
                 else Advance(s.(budget := run.budget),
                              Project(f, ValueTrace(ev, ctx, obj, item, metric.value, result.pairs)))
  {
    hide LabelSteps, LabelsOf, ValueTrace, Project, Exec;
    var steps := LabelSteps<Measurement>(ev, ctx, obj, item, metric.labels);
    LabelStepsSilent(f, ev, ctx, obj, item, metric.labels, s.budget);
    AdvanceThen(s, f, steps, SeriesRest(ev, ctx, obj, item, metric));
    var run := Exec(LabelSteps<T>(ev, ctx, obj, item, metric.labels), s.budget);
    match LabelsOf(ev, obj, item, metric.labels)
    case LabelFailed(name, code) =>
      AdvanceFail(s.(budget := run.budget), f, ErrorAt(ctx, Some(name), EvalFailed(code)));
    case Labels(pairs) =>
  }

  function Prefixed(pairs: seq<LabelPair>, r: LabelsResult): LabelsResult {
    match r
    case Labels(more) => Labels(pairs + more)
    case failed => failed
  }

  lemma {:induction false} Unprefixed(r: LabelsResult)
    ensures Prefixed([], r) == r
  {
    if r.Labels? {
      assert [] + r.pairs == r.pairs;
    }
  }

  lemma {:induction false} Regroup(pairs: seq<LabelPair>, pair: LabelPair, rest: LabelsResult)
    ensures Prefixed(pairs, Prefixed([pair], rest)) == Prefixed(pairs + [pair], rest)
  {
    match rest
    case Labels(more) => Assoc(pairs, [pair], more);
    case LabelFailed(_, _) =>
  }

  lemma {:induction false} LabelsEnd<T>(ev: Evaluator, ctx: Context, obj: Value, item: Option<Value>, b: BudgetState)
    ensures Exec(LabelSteps<T>(ev, ctx, obj, item, []), b) == Run([], [], b, false)
    ensures LabelsOf(ev, obj, item, []) == Labels([])
  {}

  /** One turn of the label loop. */
  lemma {:induction false} LabelHead<T>(
    ev: Evaluator, ctx: Context, obj: Value, item: Option<Value>, labels: seq<Option<CompiledLabel>>, b: BudgetState)
    requires labels != []
    ensures var run, rest := Exec(LabelSteps<T>(ev, ctx, obj, item, labels), b),
        LabelSteps<T>(ev, ctx, obj, item, labels[1..]);
            if labels[0].None? || labels[0].value.program.None? then
              run == Exec(rest, b) && LabelsOf(ev, obj, item, labels) == LabelsOf(ev, obj, item, labels[1..])
            else
              var name, spent := labels[0].value.name, Spend(b);
              var text := EvalLabelProgram(ev, obj, item, labels[0].value.program.value);
              if spent.error.Some?
              then run == Run([], [ErrorAt(ctx, Some(name), OutOfBudget(spent.error.value))], spent.budget, true)
              else if text.Bad? then
                && run == Run([], [], spent.budget, false)
                && LabelsOf(ev, obj, item, labels) == LabelFailed(name, text.code)
              else
                && run == Exec(rest, spent.budget)
                && LabelsOf(ev, obj, item, labels)
                == Prefixed([LabelPair(name, text.value)], LabelsOf(ev, obj, item, labels[1..]))
  {
    hide EvalLabelProgram;
    if labels[0].Some? && labels[0].value.program.Some? {
      var tail := LabelSteps<T>(ev, ctx, obj, item, labels)[1..];
      assert Exec<T>([], Spend(b).budget) == Run([], [], Spend(b).budget, false);
    }
  }

  // ---- The nested loops ----

  /** The captured variables of one `Build` call: its arguments, and the errors collected so far. */
  class BuildCall<T> {
    const ev: Evaluator
    const policy: string
    const generator: CompiledGenerator
    const project: Measurement -> seq<T>
    const observer: Observer<T>
    const budget: CycleBudget?
    const reporting: bool
    var errors: seq<BuildError>
    var reported: seq<BuildError>
    /** How often an expression was evaluated, and how often the budget had been asked before. */
    ghost var evaluations: nat
    ghost const askedBefore: nat

    /** The budget is asked once before every evaluation, and once more when it ends the build. */
    ghost predicate Counted(stopped: bool)
      reads this, budget
    {
      budget != null ==> budget.asked == askedBefore + evaluations + if stopped then 1 else 0
    }

    constructor (ev: Evaluator, policy: string, generator: CompiledGenerator, project: Measurement -> seq<T>,
                 observer: Observer<T>, budget: CycleBudget?, reporting: bool)
      ensures this.ev == ev && this.policy == policy && this.generator == generator && this.project == project
      ensures this.observer == observer && this.budget == budget && this.reporting == reporting
      ensures errors == reported == [] && evaluations == 0 && Counted(false)
      ensures budget != null ==> askedBefore == budget.asked
    {
      this.ev, this.policy, this.generator, this.project := ev, policy, generator, project;
      this.observer, this.budget, this.reporting := observer, budget, reporting;
      errors, reported, evaluations := [], [], 0;
      askedBefore := if budget == null then 0 else budget.asked;
    }

    ghost function Now(): Snapshot<T>
      reads this, observer, budget
    {
      Snapshot(observer.log, errors, StateOf(budget))
    }

    /** Every error is reported once, in order, when there is somewhere to report it. */
    ghost predicate Reported()
      reads this
    {
      reported == if reporting then errors else []
    }

    method RecordError(error: BuildError)
      requires Reported()
      modifies this`errors, this`reported
      ensures Reported() && errors == old(errors) + [error]
    {
      errors := errors + [error];
      if reporting {
        reported := reported + [error];
      }
    }

    /** Either all label pairs, or the first error: a failed expression, or the exhausted budget. */
    method EvalLabels(ctx: Context, obj: Value, item: Option<Value>, labels: seq<Option<CompiledLabel>>)
      returns (pairs: seq<LabelPair>, error: Option<BuildError>)
      requires Counted(false)
      modifies this`evaluations, budget
      ensures Counted(error.Some? && error.value.cause.OutOfBudget?)
      ensures StateOf(budget) == Exec(LabelSteps<T>(ev, ctx, obj, item, labels), old(StateOf(budget))).budget
      ensures var run := Exec(LabelSteps<T>(ev, ctx, obj, item, labels), old(StateOf(budget)));
              if run.stopped then error.Some? && run.errors == [error.value]
              else match LabelsOf(ev, obj, item, labels)
                   case Labels(all) => error == None && pairs == all
                   case LabelFailed(name, code) => error == Some(ErrorAt(ctx, Some(name), EvalFailed(code)))
    {
      hide Exec, LabelSteps, LabelsOf, Spend, EvalLabelProgram;
      pairs := [];
      ghost var run := Exec(LabelSteps<T>(ev, ctx, obj, item, labels), StateOf(budget));
      assert labels[0..] == labels;
      Unprefixed(LabelsOf(ev, obj, item, labels));
      for i := 0 to |labels|
        invariant Counted(false) && Exec(LabelSteps<T>(ev, ctx, obj, item, labels[i..]), StateOf(budget)) == run
        invariant LabelsOf(ev, obj, item, labels) == Prefixed(pairs, LabelsOf(ev, obj, item, labels[i..]))
      {
        assert labels[i..][1..] == labels[i + 1..];
        LabelHead<T>(ev, ctx, obj, item, labels[i..], StateOf(budget));
        if labels[i].None? || labels[i].value.program.None? {
          continue;
        }
        var name, program := labels[i].value.name, labels[i].value.program.value;
        var exhausted := ConsumeOf(budget);
        if exhausted.Some? {
          return [], Some(ErrorAt(ctx, Some(name), OutOfBudget(exhausted.value)));
        }
        evaluations := evaluations + 1;
        match EvalLabelProgram(ev, obj, item, program)
        case Bad(code) =>
          return [], Some(ErrorAt(ctx, Some(name), EvalFailed(code)));
        case Got(text) =>
          Regroup(pairs, LabelPair(name, text), LabelsOf(ev, obj, item, labels[i + 1..]));
          pairs := pairs + [LabelPair(name, text)];
      }
      assert labels[|labels|..] == [];
      LabelsEnd<T>(ev, ctx, obj, item, StateOf(budget));
      assert pairs + [] == pairs;
      error := None;
    }

    method EmitMeasurement(m: Measurement)
      modifies observer
      ensures observer.log == old(observer.log) + project(m)
    {
      observer.log := observer.log + project(m);
    }

    method BuildValue(
      ctx: Context, obj: Value, item: Option<Value>, program: Expr, pairs: seq<LabelPair>) returns (stop: bool)
      requires Reported() && Counted(false)
      modifies this, observer, budget
      ensures Reported() && Counted(stop) && Progress(Now(), stop)
          == Advance(old(Now()), Project(project, ValueTrace(ev, ctx, obj, item, Some(program), pairs)))
    {
      hide Spend, Exec, Project, Advance, EnvOf;
      ghost var start := Now();
      var exhausted := ConsumeOf(budget);
      ghost var s := Now();
      ghost var rest: seq<Event<Measurement>> := match ev.toNumber(Eval(ev.sem, program, EnvOf(obj, item)))
        case Bad(code) => [Fail(ErrorAt(ctx, None, EvalFailed(code)))]
        case Got(x) => [Emit(Measurement(ctx.family, x, pairs))];
      AdvanceEvaluate(start, project, ctx, None, rest);
      if exhausted.Some? {
        RecordError(ErrorAt(ctx, None, OutOfBudget(exhausted.value)));
        return true;
      }
      evaluations := evaluations + 1;
      var number := ev.toNumber(Eval(ev.sem, program, EnvOf(obj, item)));
      match number
      case Bad(code) =>
        RecordError(ErrorAt(ctx, None, EvalFailed(code)));
        AdvanceFail(s, project, ErrorAt(ctx, None, EvalFailed(code)));
        return false;
      case Got(x) =>
        EmitMeasurement(Measurement(ctx.family, x, pairs));
        AdvanceEmit(s, project, Measurement(ctx.family, x, pairs));
        return false;
    }

    /** One series. Returns whether the whole build stops here. */
    method BuildSeries(ctx: Context, obj: Value, item: Option<Value>, metric: CompiledMetric) returns (stop: bool)
      requires Reported() && Counted(false)
      modifies this, observer, budget
      ensures Reported() && Counted(stop) &&
          Progress(Now(), stop) == Advance(old(Now()), Project(project, SeriesTrace(ev, ctx, obj, item, metric)))
    {
      hide Spend, Exec, Project, Advance, LabelsOf, LabelSteps;
      ghost var start := Now();
      var pairs, failed := EvalLabels(ctx, obj, item, metric.labels);
      AdvanceLabels(start, project, ev, ctx, obj, item, metric);
      ghost var s := Now();
      if failed.Some? {
        RecordError(failed.value);
        stop := failed.value.cause.OutOfBudget?;
        return;
      }
      if metric.value.None? {
        EmitMeasurement(Measurement(ctx.family, 1.0, pairs));
        AdvanceEmit(s, project, Measurement(ctx.family, 1.0, pairs));
        return false;
      }
      stop := BuildValue(ctx, obj, item, metric.value.value, pairs);
    }

    method BuildItems(ctx: Context, obj: Value, items: seq<Value>, metric: CompiledMetric) returns (stop: bool)
      requires Reported() && Counted(false)
      modifies this, observer, budget
      ensures Reported() && Counted(stop) &&
          Progress(Now(), stop) == Advance(old(Now()), Project(project, ItemsTrace(ev, ctx, obj, items, metric)))
    {
      hide SeriesTrace, Advance, Project;
      assert items[0..] == items;
      for i := 0 to |items|
        invariant Reported() && Counted(false)
        invariant Advance(Now(), Project(project, ItemsTrace(ev, ctx, obj, items[i..], metric)))
            == Advance(old(Now()), Project(project, ItemsTrace(ev, ctx, obj, items, metric)))
      {
        assert items[i..][0] == items[i] && items[i..][1..] == items[i + 1..];
        AdvanceThen(Now(), project, SeriesTrace(ev, ctx, obj, Some(items[i]), metric),
            ItemsTrace(ev, ctx, obj, items[i + 1..], metric));
        stop := BuildSeries(ctx, obj, Some(items[i]), metric);
        if stop {
          return;
        }
      }
      AdvanceNothing(Now(), project);
      stop := false;
    }

    method BuildMetric(ctx: Context, obj: Value, metric: CompiledMetric) returns (stop: bool)
      requires Reported() && Counted(false)
      modifies this, observer, budget
      ensures Reported() && Counted(stop) &&
          Progress(Now(), stop) == Advance(old(Now()), Project(project, MetricTrace(ev, ctx, obj, metric)))
    {
      hide SeriesTrace, Advance, Project, ItemsTrace;
      if metric.forEach.None? {
        stop := BuildSeries(ctx, obj, None, metric);
        return;
      }
      ghost var start := Now();
      var exhausted := ConsumeOf(budget);
      ghost var s := Now();
      ghost var rest := match ev.toList(Eval(ev.sem, metric.forEach.value, RootEnv(obj)))
        case Bad(code) => [Fail(ErrorAt(ctx, None, EvalFailed(code)))]
        case Got(items) => ItemsTrace(ev, ctx, obj, items, metric);
      AdvanceEvaluate(start, project, ctx, None, rest);
      if exhausted.Some? {
        RecordError(ErrorAt(ctx, None, OutOfBudget(exhausted.value)));
        return true;
      }
      evaluations := evaluations + 1;
      var list := ev.toList(Eval(ev.sem, metric.forEach.value, RootEnv(obj)));
      match list
      case Bad(code) =>
        RecordError(ErrorAt(ctx, None, EvalFailed(code)));
        AdvanceFail(s, project, ErrorAt(ctx, None, EvalFailed(code)));
        return false;
      case Got(items) =>
        stop := BuildItems(ctx, obj, items, metric);
    }

    method BuildMetrics(ctx: Context, obj: Value, metrics: seq<Option<CompiledMetric>>) returns (stop: bool)
      requires Reported() && Counted(false)
      modifies this, observer, budget
      ensures Reported() && Counted(stop) &&
          Progress(Now(), stop) == Advance(old(Now()), Project(project, MetricsTrace(ev, ctx, obj, metrics)))
    {
      hide MetricTrace, Advance, Project;
      assert metrics[0..] == metrics;
      for i := 0 to |metrics|
        invariant Reported() && Counted(false)
        invariant Advance(Now(), Project(project, MetricsTrace(ev, ctx, obj, metrics[i..])))
            == Advance(old(Now()), Project(project, MetricsTrace(ev, ctx, obj, metrics)))
      {
        assert metrics[i..][0] == metrics[i] && metrics[i..][1..] == metrics[i + 1..];
        if metrics[i].None? {
          SkipNothing(MetricsTrace(ev, ctx, obj, metrics[i + 1..]));
          continue;
        }
        AdvanceThen(Now(), project, MetricTrace(ev, ctx, obj, metrics[i].value),
            MetricsTrace(ev, ctx, obj, metrics[i + 1..]));
        stop := BuildMetric(ctx, obj, metrics[i].value);
        if stop {
          return;
        }
      }
      AdvanceNothing(Now(), project);
      stop := false;
    }

    method BuildFamilies(obj: Value) returns (stop: bool)
      requires Reported() && Counted(false)
      modifies this, observer, budget
      ensures Reported() && Counted(stop) && Progress(Now(), stop)
          == Advance(old(Now()), Project(project, FamiliesTrace(ev, policy, generator.name, obj, generator.families)))
    {
      hide MetricsTrace, Advance, Project, ObjectName;
      var name, families := ObjectName(obj), generator.families;
      assert families[0..] == families;
      for i := 0 to |families|
        invariant Reported() && Counted(false)
        invariant Advance(Now(), Project(project, FamiliesTrace(ev, policy, generator.name, obj, families[i..])))
               == Advance(old(Now()), Project(project, FamiliesTrace(ev, policy, generator.name, obj, families)))
      {
        assert families[i..][0] == families[i] && families[i..][1..] == families[i + 1..];
        ghost var rest := FamiliesTrace(ev, policy, generator.name, obj, families[i + 1..]);
        if families[i].None? {
          SkipNothing(rest);
          continue;
        }
        var family := families[i].value;
        var ctx := Context(policy, generator.name, family.name, name);
        AdvanceThen(Now(), project, MetricsTrace(ev, ctx, obj, family.metrics), rest);
        stop := BuildMetrics(ctx, obj, family.metrics);
        if stop {
          return;
        }
      }
      AdvanceNothing(Now(), project);
      stop := false;
    }

    method BuildObjects(objects: seq<Value>) returns (stop: bool)
      requires Reported() && Counted(false)
      modifies this, observer, budget
      ensures Reported() && Counted(stop) &&
          Progress(Now(), stop) == Advance(old(Now()), Project(project, Trace(ev, policy, generator, objects)))
    {
      hide FamiliesTrace, Advance, Project;
      assert objects[0..] == objects;
      for i := 0 to |objects|
        invariant Reported() && Counted(false)
        invariant Advance(Now(), Project(project, Trace(ev, policy, generator, objects[i..])))
            == Advance(old(Now()), Project(project, Trace(ev, policy, generator, objects)))
      {
        assert objects[i..][0] == objects[i] && objects[i..][1..] == objects[i + 1..];
        AdvanceThen(Now(), project, FamiliesTrace(ev, policy, generator.name, objects[i], generator.families),
                    Trace(ev, policy, generator, objects[i + 1..]));
        stop := BuildFamilies(objects[i]);
        if stop {
          return;
        }
      }
      AdvanceNothing(Now(), project);
      stop := false;
    }
  }

  // ---- The entry point ----

  lemma {:induction false} TraceFailsByItself(events: seq<Event<Measurement>>, names: set<string>)
    requires TraceOf(events, names)
    ensures FailsByItself(events)
  {}

  lemma {:induction false} BudgetErrorImplies<T>(run: Run<T>)
    requires BudgetErrorLast(run.errors, run.stopped)
    ensures BudgetErrorOnlyLast(run.errors)
  {}

  /** Nothing happens without a policy and a generator. */
  method Build<T>(
    ev: Evaluator, compiled: Option<CompiledPolicy>, generator: Option<CompiledGenerator>, objects: seq<Value>,
    project: Measurement -> seq<T>, observer: Observer<T>, reporting: bool, budget: CycleBudget?)
    returns (errors: seq<BuildError>, reported: seq<BuildError>, ghost evaluations: nat)
    modifies observer, budget
    ensures reported == if reporting then errors else []
    ensures compiled.None? || generator.None? ==>
              errors == [] && observer.log == old(observer.log) && StateOf(budget) == old(StateOf(budget))
    ensures compiled.Some? && generator.Some? ==>
              var run := Exec(Project(project, Trace(ev, compiled.value.name, generator.value, objects)),
                  old(StateOf(budget)));
              && observer.log == old(observer.log) + run.outputs && errors == run.errors &&
                  StateOf(budget) == run.budget
              && BudgetErrorLast(errors, run.stopped)
    ensures BudgetErrorOnlyLast(errors)
    ensures compiled.Some? && generator.Some? ==>
              exists outputs, n ::
                && Built(ev, compiled.value.name, generator.value, objects, old(StateOf(budget)), outputs, errors, n)
                && observer.log == old(observer.log) + FlatMap(project, outputs)
                && (budget != null ==> evaluations == n)
    ensures compiled.None? || generator.None? ==> evaluations == 0
    ensures compiled.Some? && generator.Some? && budget != null ==>
              var events := Project(project, Trace(ev, compiled.value.name, generator.value, objects));
              && evaluations == Evaluations(events[..Completed(events, old(StateOf(budget)))])
              && evaluations <= (if old(budget.remaining) > 0 then old(budget.remaining) else 0)
              && budget.asked == old(budget.asked) + evaluations +
                   if Exec(events, old(StateOf(budget))).stopped then 1 else 0
  {
    hide Trace, Project, BudgetErrorLast, FailsByItself;
    if compiled.None? || generator.None? {
      return [], [], 0;
    }
    var call := new BuildCall(ev, compiled.value.name, generator.value, project, observer, budget, reporting);
    ghost var trace := Trace(ev, compiled.value.name, generator.value, objects);
    TraceFailsByItself(trace, FamilyNames(generator.value.families));
    ProjectFailsByItself(project, trace);
    BudgetErrorIsLast(Project(project, trace), StateOf(budget));
    BudgetErrorImplies(Exec(Project(project, trace), StateOf(budget)));
    if budget != null {
      AskedForEvaluations(Project(project, trace), StateOf(budget));
      EvaluationsWithinBudget(Project(project, trace), StateOf(budget));
    }
    ghost var outputs, n := ProjectedTraceIsBuilt(
      ev, compiled.value.name, generator.value, objects, StateOf(budget), project);
    hide Built, FlatMap, Exec, Completed, Evaluations;
    var _ := call.BuildObjects(objects);
    return call.errors, call.reported, call.evaluations;
  }
}
