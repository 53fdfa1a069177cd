// Compiling a policy: every expression is tried, failures are collected, and what survives is kept.
module Compile {
  import opened Sums
  import opened Cel
  import opened PolicyModel
  import opened BuildPushdown

  datatype LabelSpec = LabelSpec(name: string, value: string)

  datatype MetricSpec = MetricSpec(forEach: Option<string>, value: Option<string>, labels: seq<LabelSpec>)

  datatype FamilySpec = FamilySpec(name: string, help: string, metrics: seq<MetricSpec>)

  datatype GeneratorSpec = GeneratorSpec(name: string, resource: GVR, families: seq<FamilySpec>)

  datatype PolicySpec = PolicySpec(name: string, generation: int, prefix: string, generators: seq<GeneratorSpec>)

  datatype Kind = ForEachKind | ValueKind | LabelKind

  /** Where in a generator an expression stands. */
  datatype Place = Place(family: string, kind: Kind, index: nat, metricIndex: nat, labelName: string)

  datatype CompileError = CompileError(policy: string, generator: string, place: Place, reason: string)

  /** Whether the expression may use the variable `item`. */
  datatype Scope = ObjectScope | ItemScope

  datatype CompileResult = Compiled(program: Expr) | Rejected(reason: string)

  /** The expression compiler; `itemError` is set when the environment with `item` could not be made. */
  datatype Environment = Environment(compile: (Scope, string) -> CompileResult, itemError: Option<string>)

  predicate IsSet(s: Option<string>) { s.Some? && s.value != "" }

  // ---- What is tried, and what comes of it ----

  datatype Attempt = Attempt(scope: Scope, expr: string, place: Place)

  function ResultOf(env: Environment, a: Attempt): CompileResult {
    if a.place.kind == ForEachKind && env.itemError.Some? then Rejected(env.itemError.value)
    else env.compile(a.scope, a.expr)
  }

  function ForEachAttempt(family: string, mi: nat, expr: string): Attempt {
    Attempt(ObjectScope, expr, Place(family, ForEachKind, mi, 0, ""))
  }

  function ScopeOf(m: MetricSpec): Scope { if IsSet(m.forEach) then ItemScope else ObjectScope }

  function LabelAttempts(scope: Scope, family: string, mi: nat, labels: seq<LabelSpec>, li: nat): seq<Attempt>
    decreases |labels|
  {
    if labels == [] then []
    else [Attempt(scope, labels[0].value, Place(family, LabelKind, li, mi, labels[0].name))] +
         LabelAttempts(scope, family, mi, labels[1..], li + 1)
  }

  function ValueAttempts(family: string, mi: nat, m: MetricSpec): seq<Attempt> {
    if IsSet(m.value) then [Attempt(ScopeOf(m), m.value.value, Place(family, ValueKind, mi, 0, ""))] else []
  }

  /** A forEach that fails ends its metric; a value that fails does not. */
  function MetricAttempts(env: Environment, family: string, mi: nat, m: MetricSpec): seq<Attempt> {
    var rest := ValueAttempts(family, mi, m) + LabelAttempts(ScopeOf(m), family, mi, m.labels, 0);
    if !IsSet(m.forEach) then rest
    else
      var first := ForEachAttempt(family, mi, m.forEach.value);
      [first] + if ResultOf(env, first).Compiled? then rest else []
  }

  function FamilyAttempts(env: Environment, family: string, metrics: seq<MetricSpec>, mi: nat): seq<Attempt>
    decreases |metrics|
  {
    if metrics == [] then []
    else MetricAttempts(env, family, mi, metrics[0]) + FamilyAttempts(env, family, metrics[1..], mi + 1)
  }

  function GeneratorAttempts(env: Environment, families: seq<FamilySpec>): seq<Attempt> {
    if families == [] then []
    else FamilyAttempts(env, families[0].name, families[0].metrics, 0) + GeneratorAttempts(env, families[1..])
  }

  function Successes(env: Environment, attempts: seq<Attempt>): nat {
    if attempts == [] then 0
    else (if ResultOf(env, attempts[0]).Compiled? then 1 else 0) + Successes(env, attempts[1..])
  }

  function ErrorsOf(env: Environment, policy: string, generator: string, attempts: seq<Attempt>): seq<CompileError> {
    if attempts == [] then []
    else
      var r := ResultOf(env, attempts[0]);
      (if r.Rejected? then [CompileError(policy, generator, attempts[0].place, r.reason)] else []) +
      ErrorsOf(env, policy, generator, attempts[1..])
  }

  function FieldsOf(env: Environment, attempts: seq<Attempt>): seq<string> {
    if attempts == [] then []
    else
      var r := ResultOf(env, attempts[0]);
      (if r.Compiled? then RequiredFields(r.program) else []) + FieldsOf(env, attempts[1..])
  }

  // ---- What survives ----

  function LabelsOf(env: Environment, scope: Scope, labels: seq<LabelSpec>): seq<Option<CompiledLabel>> {
    if labels == [] then []
    else
      var r := env.compile(scope, labels[0].value);
      (if r.Compiled? then [Some(CompiledLabel(labels[0].name, Some(r.program)))] else []) +
      LabelsOf(env, scope, labels[1..])
  }

  /** The program of an expression that is set, or nothing. */
  function KeptProgram(r: CompileResult): Option<Expr> { if r.Compiled? then Some(r.program) else None }

  function ForEachResult(env: Environment, m: MetricSpec): CompileResult
    requires IsSet(m.forEach)
  {
    ResultOf(env, ForEachAttempt("", 0, m.forEach.value))
  }

  /** A metric whose forEach or value is set and does not compile is dropped. */
  function MetricOf(env: Environment, m: MetricSpec): Option<CompiledMetric> {
    var forEach := if IsSet(m.forEach) then KeptProgram(ForEachResult(env, m)) else None;
    var value := if IsSet(m.value) then KeptProgram(env.compile(ScopeOf(m), m.value.value)) else None;
    if (IsSet(m.forEach) && forEach.None?) || (IsSet(m.value) && value.None?) then None
    else Some(CompiledMetric(forEach, value, LabelsOf(env, ScopeOf(m), m.labels)))
  }

  function MetricsOf(env: Environment, metrics: seq<MetricSpec>): seq<Option<CompiledMetric>> {
    if metrics == [] then []
    else
      var m := MetricOf(env, metrics[0]);
      (if m.Some? then [m] else []) + MetricsOf(env, metrics[1..])
  }

  function FamiliesOf(env: Environment, families: seq<FamilySpec>): seq<Option<CompiledFamily>> {
    if families == [] then []
    else [Some(CompiledFamily(families[0].name, families[0].help, MetricsOf(env, families[0].metrics)))] +
         FamiliesOf(env, families[1..])
  }

  /** A generator of which something was tried and nothing compiled leaves an empty slot. */
  function SlotOf(env: Environment, g: GeneratorSpec): Option<CompiledGenerator> {
    var attempts := GeneratorAttempts(env, g.families);
    if attempts != [] && Successes(env, attempts) == 0 then None
    else Some(CompiledGenerator(g.name, g.resource, FamiliesOf(env, g.families), FieldsOf(env, attempts)))
  }

  function SlotsOf(env: Environment, generators: seq<GeneratorSpec>): seq<Option<CompiledGenerator>> {
    if generators == [] then [] else [SlotOf(env, generators[0])] + SlotsOf(env, generators[1..])
  }

  function AllErrors(env: Environment, policy: string, generators: seq<GeneratorSpec>): seq<CompileError> {
    if generators == [] then []
    else ErrorsOf(env, policy, generators[0].name, GeneratorAttempts(env, generators[0].families)) +
         AllErrors(env, policy, generators[1..])
  }

  // ---- Counting ----

  lemma {:induction false} SuccessesSnoc(env: Environment, attempts: seq<Attempt>, a: Attempt)
    ensures Successes(env, attempts + [a]) == Successes(env, attempts) + (if ResultOf(env, a).Compiled? then 1 else 0)
  {
    hide ResultOf;
    if attempts == [] {
      assert [] + [a] == [a] && [a][1..] == [];
    } else {
      SuccessesSnoc(env, attempts[1..], a);
      assert (attempts + [a])[1..] == attempts[1..] + [a];
    }
  }

  lemma {:induction false} ErrorsSnoc(
    env: Environment, policy: string, generator: string, attempts: seq<Attempt>, a: Attempt)
    ensures ErrorsOf(env, policy, generator, attempts + [a])
         == ErrorsOf(env, policy, generator, attempts)
            + (if ResultOf(env, a).Rejected? then [CompileError(policy, generator, a.place, ResultOf(env, a).reason)]
                else [])
  {
    hide ResultOf;
    if attempts == [] {
      assert [] + [a] == [a] && [a][1..] == [];
    } else {
      ErrorsSnoc(env, policy, generator, attempts[1..], a);
      assert (attempts + [a])[1..] == attempts[1..] + [a];
    }
  }

  lemma {:induction false} FieldsSnoc(env: Environment, attempts: seq<Attempt>, a: Attempt)
    ensures FieldsOf(env, attempts + [a])
         == FieldsOf(env, attempts) +
             (if ResultOf(env, a).Compiled? then RequiredFields(ResultOf(env, a).program) else [])
  {
    hide ResultOf, RequiredFields;
    if attempts == [] {
      assert [] + [a] == [a] && [a][1..] == [];
    } else {
      FieldsSnoc(env, attempts[1..], a);
      assert (attempts + [a])[1..] == attempts[1..] + [a];
    }
  }

  /** Every attempt either succeeded or left one error. */
  lemma {:induction false} EveryAttemptCounted(
    env: Environment, policy: string, generator: string, attempts: seq<Attempt>)
    ensures |attempts| == Successes(env, attempts) + |ErrorsOf(env, policy, generator, attempts)|
  {
    hide ResultOf;
    if attempts != [] {
      EveryAttemptCounted(env, policy, generator, attempts[1..]);
    }
  }

  lemma {:induction false} NoSuccess(env: Environment, attempts: seq<Attempt>)
    ensures Successes(env, attempts) == 0 <==> forall a | a in attempts :: ResultOf(env, a).Rejected?
  {
    hide ResultOf;
    if attempts != [] {
      NoSuccess(env, attempts[1..]);
      assert attempts == [attempts[0]] + attempts[1..];
    }
  }

  /** A slot is empty exactly when something was tried and everything failed. */
  lemma {:induction false} EmptySlot(env: Environment, g: GeneratorSpec)
    ensures SlotOf(env, g) == None <==>
              GeneratorAttempts(env, g.families) != [] &&
              forall a | a in GeneratorAttempts(env, g.families) :: ResultOf(env, a).Rejected?
  {
    hide ResultOf, GeneratorAttempts, FamiliesOf, FieldsOf;
    NoSuccess(env, GeneratorAttempts(env, g.families));
  }

  /** A slot for every generator, in order, under its own name and resource. */
  lemma {:induction false} SlotsAligned(env: Environment, generators: seq<GeneratorSpec>)
    ensures |SlotsOf(env, generators)| == |generators|
    ensures forall i | 0 <= i < |generators| :: SlotsOf(env, generators)[i] == SlotOf(env, generators[i])
  {
    hide SlotOf;
    if generators != [] {
      SlotsAligned(env, generators[1..]);
    }
  }

  /** Without a compile error every slot is taken. */
  lemma {:induction false} NoErrorsAllActive(env: Environment, policy: string, generators: seq<GeneratorSpec>)
    requires AllErrors(env, policy, generators) == []
    ensures forall slot | slot in SlotsOf(env, generators) :: slot.Some?
  {
    hide GeneratorAttempts, Successes, ErrorsOf;
    if generators != [] {
      NoErrorsAllActive(env, policy, generators[1..]);
      EveryAttemptCounted(env, policy, generators[0].name, GeneratorAttempts(env, generators[0].families));
    }
  }

  predicate SpecifiedBy(m: MetricSpec, cm: CompiledMetric) {
    (IsSet(m.value) <==> cm.value.Some?) && (IsSet(m.forEach) <==> cm.forEach.Some?)
  }

  /** A metric publishes the default value, or one series per object, only if its specification says so. */
  lemma {:induction false} SurvivorsAreSpecified(env: Environment, metrics: seq<MetricSpec>, cm: CompiledMetric)
    requires Some(cm) in MetricsOf(env, metrics)
    ensures exists m | m in metrics :: MetricOf(env, m) == Some(cm) && SpecifiedBy(m, cm)
  {
    hide LabelsOf, ForEachResult;
    if MetricOf(env, metrics[0]) == Some(cm) {
      assert metrics[0] in metrics && SpecifiedBy(metrics[0], cm);
    } else {
      SurvivorsAreSpecified(env, metrics[1..], cm);
    }
  }

  // ---- Required fields cover what survives ----

  lemma {:induction false} FieldsOfAttempt(env: Environment, attempts: seq<Attempt>, a: Attempt)
    requires a in attempts && ResultOf(env, a).Compiled?
    ensures forall f | f in RequiredFields(ResultOf(env, a).program) :: f in FieldsOf(env, attempts)
  {
    hide ResultOf, RequiredFields;
    if a != attempts[0] {
      FieldsOfAttempt(env, attempts[1..], a);
    }
  }

  /** One of the attempts made the program. */
  predicate Made(env: Environment, attempts: seq<Attempt>, program: Expr) {
    exists a | a in attempts :: ResultOf(env, a) == Compiled(program)
  }

  predicate AllMade(env: Environment, attempts: seq<Attempt>, programs: set<Expr>) {
    forall program | program in programs :: Made(env, attempts, program)
  }

  lemma {:induction false} LabelsMade(
    env: Environment, scope: Scope, family: string, mi: nat, labels: seq<LabelSpec>, li: nat, attempts: seq<Attempt>)
    requires forall a | a in LabelAttempts(scope, family, mi, labels, li) :: a in attempts
    ensures AllMade(env, attempts, LabelPrograms(LabelsOf(env, scope, labels)))
    decreases |labels|
  {
    if labels != [] {
      var first := Attempt(scope, labels[0].value, Place(family, LabelKind, li, mi, labels[0].name));
      var all := LabelAttempts(scope, family, mi, labels, li);
      assert all[0] == first && all[1..] == LabelAttempts(scope, family, mi, labels[1..], li + 1);
      LabelsMade(env, scope, family, mi, labels[1..], li + 1, attempts);
      assert first in attempts;
      var r := ResultOf(env, first);
      if r.Compiled? {
        assert Made(env, attempts, r.program);
        var kept := CompiledLabel(labels[0].name, Some(r.program));
        assert LabelsOf(env, scope, labels) == [Some(kept)] + LabelsOf(env, scope, labels[1..]);
        assert LabelsOf(env, scope, labels)[1..] == LabelsOf(env, scope, labels[1..]);
      } else {
        assert LabelsOf(env, scope, labels) == LabelsOf(env, scope, labels[1..]);
      }
    }
  }

  lemma {:induction false} MetricMade(env: Environment, family: string, mi: nat, m: MetricSpec, attempts: seq<Attempt>)
    requires forall a | a in MetricAttempts(env, family, mi, m) :: a in attempts
    ensures MetricOf(env, m).Some? ==> AllMade(env, attempts, MetricPrograms(MetricOf(env, m).value))
  {
    hide LabelsOf, LabelAttempts, LabelPrograms;
    if MetricOf(env, m).Some? {
      var labels := LabelAttempts(ScopeOf(m), family, mi, m.labels, 0);
      assert forall a | a in labels :: a in MetricAttempts(env, family, mi, m);
      LabelsMade(env, ScopeOf(m), family, mi, m.labels, 0, attempts);
      if IsSet(m.forEach) {
        var first := ForEachAttempt(family, mi, m.forEach.value);
        assert first in MetricAttempts(env, family, mi, m);
        assert ResultOf(env, first) == Compiled(MetricOf(env, m).value.forEach.value);
      }
      if IsSet(m.value) {
        var value := Attempt(ScopeOf(m), m.value.value, Place(family, ValueKind, mi, 0, ""));
        assert value in ValueAttempts(family, mi, m);
        assert ResultOf(env, value) == Compiled(MetricOf(env, m).value.value.value);
      }
    }
  }

  lemma {:induction false} MetricsMade(
    env: Environment, family: string, metrics: seq<MetricSpec>, mi: nat, attempts: seq<Attempt>)
    requires forall a | a in FamilyAttempts(env, family, metrics, mi) :: a in attempts
    ensures AllMade(env, attempts, MetricsPrograms(MetricsOf(env, metrics)))
    decreases |metrics|
  {
    hide Made, MetricOf, MetricAttempts, MetricPrograms;
    if metrics != [] {
      MetricMade(env, family, mi, metrics[0], attempts);
      MetricsMade(env, family, metrics[1..], mi + 1, attempts);
      var m := MetricOf(env, metrics[0]);
      if m.Some? {
        assert MetricsOf(env, metrics) == [m] + MetricsOf(env, metrics[1..]);
        assert MetricsOf(env, metrics)[1..] == MetricsOf(env, metrics[1..]);
      } else {
        assert MetricsOf(env, metrics) == MetricsOf(env, metrics[1..]);
      }
    }
  }

  /** Every program that compilation kept came out of one of its attempts. */
  lemma {:induction false} FamiliesMade(env: Environment, families: seq<FamilySpec>, attempts: seq<Attempt>)
    requires forall a | a in GeneratorAttempts(env, families) :: a in attempts
    ensures AllMade(env, attempts, FamiliesPrograms(FamiliesOf(env, families)))
  {
    hide Made, MetricsOf, FamilyAttempts, MetricsPrograms;
    if families != [] {
      MetricsMade(env, families[0].name, families[0].metrics, 0, attempts);
      FamiliesMade(env, families[1..], attempts);
      assert FamiliesOf(env, families)[1..] == FamiliesOf(env, families[1..]);
    }
  }

  /** The required fields of a generator cover every program it kept, whatever the program. */
  lemma {:induction false} RequiredFieldsCoverSurvivors(env: Environment, g: GeneratorSpec, program: Expr)
    requires SlotOf(env, g).Some? && program in FamiliesPrograms(SlotOf(env, g).value.families)
    ensures forall f | f in RequiredFields(program) :: f in SlotOf(env, g).value.requiredFields
  {
    hide FieldsOf, FamiliesOf, GeneratorAttempts, FamiliesPrograms, RequiredFields, ResultOf;
    var attempts := GeneratorAttempts(env, g.families);
    FamiliesMade(env, g.families, attempts);
    assert Made(env, attempts, program);
    var a :| a in attempts && ResultOf(env, a) == Compiled(program);
    FieldsOfAttempt(env, attempts, a);
  }

  /** What the generator asks to compile is in the fragment, where it compiles at all. */
  predicate InFragment(env: Environment, g: GeneratorSpec) {
    forall a | a in GeneratorAttempts(env, g.families) && ResultOf(env, a).Compiled? ::
      Fragment(ResultOf(env, a).program, {}) && DotFreeNames(ResultOf(env, a).program)
  }

  /** The real compiler accepts expressions outside the fragment: for those generators nothing is claimed. */
  lemma {:induction false} BareRootIsOutside(env: Environment, g: GeneratorSpec, a: Attempt)
    requires a in GeneratorAttempts(env, g.families) && ResultOf(env, a) == Compiled(Call("size", [Ident(ROOT)]))
    ensures !InFragment(env, g)
  {
    assert !Fragment(Ident(ROOT), {}) && !FragmentAll([Ident(ROOT)], {});
  }

  /** Then all its programs read no more than its required fields. */
  lemma {:induction false} SurvivorsWithin(env: Environment, g: GeneratorSpec)
    requires SlotOf(env, g).Some? && InFragment(env, g)
    ensures FamiliesWithin(SlotOf(env, g).value.families, SlotOf(env, g).value.requiredFields)
  {
    hide FieldsOf, FamiliesOf, GeneratorAttempts, FamiliesPrograms, RequiredFields, ResultOf, Fragment, DotFreeNames;
    hide FamiliesWithin;
    var gen := SlotOf(env, g).value;
    var attempts := GeneratorAttempts(env, g.families);
    FamiliesMade(env, g.families, attempts);
    forall program | program in FamiliesPrograms(gen.families)
      ensures ProgramWithin(program, gen.requiredFields)
    {
      RequiredFieldsCoverSurvivors(env, g, program);
      assert Made(env, attempts, program);
    }
    FamiliesFromPrograms(gen.families, gen.requiredFields);
  }

  lemma {:induction false} LabelStep(
    env: Environment, scope: Scope, family: string, mi: nat, labels: seq<LabelSpec>, li: nat)
    requires li < |labels|
    ensures var a := Attempt(scope, labels[li].value, Place(family, LabelKind, li, mi, labels[li].name));
            && LabelAttempts(scope, family, mi, labels[li..], li)
                == [a] + LabelAttempts(scope, family, mi, labels[li + 1..], li + 1)
            && LabelsOf(env, scope, labels[li..])
            == (if env.compile(scope, a.expr).Compiled?
                then [Some(CompiledLabel(labels[li].name, Some(env.compile(scope, a.expr).program)))]
                else []) + LabelsOf(env, scope, labels[li + 1..])
  {
    assert labels[li..][1..] == labels[li + 1..];
  }

  lemma {:induction false} LabelsEnd(env: Environment, scope: Scope, family: string, mi: nat, labels: seq<LabelSpec>)
    ensures LabelAttempts(scope, family, mi, labels[|labels|..], |labels|) == [] &&
        LabelsOf(env, scope, labels[|labels|..]) == []
    ensures labels[0..] == labels
  {}

  lemma {:induction false} FamilyStep(env: Environment, family: string, metrics: seq<MetricSpec>, mi: nat)
    requires mi < |metrics|
    ensures FamilyAttempts(env, family, metrics[mi..], mi)
         == MetricAttempts(env, family, mi, metrics[mi]) + FamilyAttempts(env, family, metrics[mi + 1..], mi + 1)
    ensures MetricsOf(env, metrics[mi..])
         == (if MetricOf(env, metrics[mi]).Some? then [MetricOf(env, metrics[mi])] else []) +
             MetricsOf(env, metrics[mi + 1..])
  {
    hide MetricAttempts, MetricOf;
    assert metrics[mi..][1..] == metrics[mi + 1..];
  }

  lemma {:induction false} FamilyEnd(env: Environment, family: string, metrics: seq<MetricSpec>)
    ensures FamilyAttempts(env, family, metrics[|metrics|..], |metrics|) == [] &&
        MetricsOf(env, metrics[|metrics|..]) == []
    ensures metrics[0..] == metrics
  {}

  // ---- The compiler of one generator ----

  class GeneratorCompiler {
    const policy: string
    const generator: string
    const env: Environment

    var total: nat
    var successes: nat
    var errs: seq<CompileError>
    var families: seq<Option<CompiledFamily>>
    var requiredFields: seq<string>
    ghost var attempts: seq<Attempt>

    ghost predicate Valid()
      reads `total, `successes, `errs, `requiredFields, `attempts
    {
      && total == |attempts| && successes == Successes(env, attempts)
      && errs == ErrorsOf(env, policy, generator, attempts) && requiredFields == FieldsOf(env, attempts)
    }

    constructor (policy: string, generator: string, env: Environment)
      ensures Valid() && attempts == [] && families == []
      ensures this.policy == policy && this.generator == generator && this.env == env
    {
      this.policy, this.generator, this.env := policy, generator, env;
      total, successes, errs, families, requiredFields, attempts := 0, 0, [], [], [], [];
    }

    /** Records the outcome of one attempt. */
    method Settle(ghost a: Attempt, place: Place, r: CompileResult) returns (program: Option<Expr>)
      requires Valid() && r == ResultOf(env, a) && place == a.place
      modifies this
      ensures Valid() && attempts == old(attempts) + [a] && families == old(families) && program == KeptProgram(r)
    {
      SuccessesSnoc(env, attempts, a);
      ErrorsSnoc(env, policy, generator, attempts, a);
      FieldsSnoc(env, attempts, a);
      hide Successes, ErrorsOf, FieldsOf, ResultOf, RequiredFields;
      attempts := attempts + [a];
      total := total + 1;
      match r
      case Rejected(reason) =>
        errs := errs + [CompileError(policy, generator, place, reason)];
        return None;
      case Compiled(p) =>
        var fields := ComputeRequiredFields(p);
        requiredFields := requiredFields + fields;
        successes := successes + 1;
        return Some(p);
    }

    method CompileExpr(scope: Scope, expr: string, place: Place) returns (program: Option<Expr>)
      requires Valid() && place.kind != ForEachKind
      modifies this
      ensures Valid() && attempts == old(attempts) + [Attempt(scope, expr, place)] && families == old(families)
      ensures program == KeptProgram(env.compile(scope, expr))
    {
      hide Valid;
      program := Settle(Attempt(scope, expr, place), place, env.compile(scope, expr));
    }

    method CompileForEach(family: string, mi: nat, expr: string) returns (program: Option<Expr>)
      requires Valid()
      modifies this
      ensures Valid() && attempts == old(attempts) + [ForEachAttempt(family, mi, expr)] && families == old(families)
      ensures program == KeptProgram(ResultOf(env, ForEachAttempt(family, mi, expr)))
    {
      hide Valid;
      var place := Place(family, ForEachKind, mi, 0, "");
      if env.itemError.Some? {
        program := Settle(ForEachAttempt(family, mi, expr), place, Rejected(env.itemError.value));
      } else {
        program := Settle(ForEachAttempt(family, mi, expr), place, env.compile(ObjectScope, expr));
      }
    }

    method CompileLabels(
      scope: Scope, family: string, mi: nat, labels: seq<LabelSpec>) returns (compiled: seq<Option<CompiledLabel>>)
      requires Valid()
      modifies this
      ensures Valid() && attempts == old(attempts) + LabelAttempts(scope, family, mi, labels, 0) &&
          families == old(families)
      ensures compiled == LabelsOf(env, scope, labels)
    {
      hide Valid, LabelAttempts, LabelsOf;
      compiled := [];
      ghost var start := attempts;
      LabelsEnd(env, scope, family, mi, labels);
      for li := 0 to |labels|
        invariant Valid() && families == old(families)
        invariant attempts + LabelAttempts(scope, family, mi, labels[li..], li)
            == start + LabelAttempts(scope, family, mi, labels, 0)
        invariant compiled + LabelsOf(env, scope, labels[li..]) == LabelsOf(env, scope, labels)
      {
        var place := Place(family, LabelKind, li, mi, labels[li].name);
        LabelStep(env, scope, family, mi, labels, li);
        Assoc(attempts, [Attempt(scope, labels[li].value, place)],
            LabelAttempts(scope, family, mi, labels[li + 1..], li + 1));
        var program := CompileExpr(scope, labels[li].value, place);
        if program.Some? {
          Assoc(compiled, [Some(CompiledLabel(labels[li].name, program))], LabelsOf(env, scope, labels[li + 1..]));
          compiled := compiled + [Some(CompiledLabel(labels[li].name, program))];
        }
      }
      assert compiled == LabelsOf(env, scope, labels);
    }

    method CompileMetric(family: string, mi: nat, m: MetricSpec) returns (compiled: Option<CompiledMetric>)
      requires Valid()
      modifies this
      ensures Valid() && attempts == old(attempts) + MetricAttempts(env, family, mi, m) && families == old(families)
      ensures compiled == MetricOf(env, m)
    {
      hide Valid, LabelAttempts, LabelsOf;
      ghost var start := attempts;
      var forEach, value, scope := None, None, ObjectScope;
      ghost var before: seq<Attempt> := [];
      if IsSet(m.forEach) {
        forEach := CompileForEach(family, mi, m.forEach.value);
        if forEach.None? {
          return None;
        }
        scope := ItemScope;
        before := [ForEachAttempt(family, mi, m.forEach.value)];
      }
      assert attempts == start + before;
      ghost var labels := LabelAttempts(scope, family, mi, m.labels, 0);
      assert MetricAttempts(env, family, mi, m) == before + (ValueAttempts(family, mi, m) + labels);
      Assoc(start, before, ValueAttempts(family, mi, m) + labels);
      Assoc(start + before, ValueAttempts(family, mi, m), labels);
      if IsSet(m.value) {
        value := CompileExpr(scope, m.value.value, Place(family, ValueKind, mi, 0, ""));
        if value.None? {
          var _ := CompileLabels(scope, family, mi, m.labels);
          return None;
        }
      }
      var compiledLabels := CompileLabels(scope, family, mi, m.labels);
      compiled := Some(CompiledMetric(forEach, value, compiledLabels));
    }

    method CompileFamily(fam: FamilySpec)
      requires Valid()
      modifies this
      ensures Valid() && attempts == old(attempts) + FamilyAttempts(env, fam.name, fam.metrics, 0)
      ensures families == old(families) + [Some(CompiledFamily(fam.name, fam.help, MetricsOf(env, fam.metrics)))]
    {
      hide Valid, MetricAttempts, MetricOf, FamilyAttempts, MetricsOf;
      var metrics: seq<Option<CompiledMetric>> := [];
      ghost var start := attempts;
      for mi := 0 to |fam.metrics|
        invariant Valid() && families == old(families)
        invariant attempts + FamilyAttempts(env, fam.name, fam.metrics[mi..], mi)
            == start + FamilyAttempts(env, fam.name, fam.metrics, 0)
        invariant metrics + MetricsOf(env, fam.metrics[mi..]) == MetricsOf(env, fam.metrics)
      {
        FamilyStep(env, fam.name, fam.metrics, mi);
        Assoc(attempts, MetricAttempts(env, fam.name, mi, fam.metrics[mi]),
            FamilyAttempts(env, fam.name, fam.metrics[mi + 1..], mi + 1));
        var m := CompileMetric(fam.name, mi, fam.metrics[mi]);
        if m.Some? {
          Assoc(metrics, [m], MetricsOf(env, fam.metrics[mi + 1..]));
          metrics := metrics + [m];
        }
      }
      FamilyEnd(env, fam.name, fam.metrics);
      assert metrics == MetricsOf(env, fam.metrics);
      families := families + [Some(CompiledFamily(fam.name, fam.help, metrics))];
    }
  }

  method CompileGenerator(env: Environment, policy: string, g: GeneratorSpec)
    returns (slot: Option<CompiledGenerator>, errs: seq<CompileError>)
    ensures slot == SlotOf(env, g) && errs == ErrorsOf(env, policy, g.name, GeneratorAttempts(env, g.families))
  {
    hide FamilyAttempts, MetricsOf, Successes, ErrorsOf, FieldsOf;
    var c := new GeneratorCompiler(policy, g.name, env);
    for i := 0 to |g.families|
      invariant fresh(c) && c.Valid()
      invariant c.attempts + GeneratorAttempts(env, g.families[i..]) == GeneratorAttempts(env, g.families)
      invariant c.families + FamiliesOf(env, g.families[i..]) == FamiliesOf(env, g.families)
    {
      var fam := g.families[i];
      assert g.families[i..][1..] == g.families[i + 1..];
      Assoc(c.attempts, FamilyAttempts(env, fam.name, fam.metrics, 0), GeneratorAttempts(env, g.families[i + 1..]));
      Assoc(c.families, [Some(CompiledFamily(fam.name, fam.help, MetricsOf(env, fam.metrics)))],
          FamiliesOf(env, g.families[i + 1..]));
      c.CompileFamily(fam);
    }
    assert c.attempts == GeneratorAttempts(env, g.families) && c.families == FamiliesOf(env, g.families);
    errs := c.errs;
    slot := if c.total > 0 && c.successes == 0 then None
            else Some(CompiledGenerator(g.name, g.resource, c.families, c.requiredFields));
  }

  method CompilePolicy(env: Environment, policy: PolicySpec) returns (cp: CompiledPolicy, errs: seq<CompileError>)
    ensures cp == CompiledPolicy(policy.name, policy.generation, policy.prefix, SlotsOf(env, policy.generators))
    ensures errs == AllErrors(env, policy.name, policy.generators)
  {
    hide SlotOf, ErrorsOf, GeneratorAttempts;
    var generators: seq<Option<CompiledGenerator>> := [];
    errs := [];
    for i := 0 to |policy.generators|
      invariant generators + SlotsOf(env, policy.generators[i..]) == SlotsOf(env, policy.generators)
      invariant errs + AllErrors(env, policy.name, policy.generators[i..])
          == AllErrors(env, policy.name, policy.generators)
    {
      var g := policy.generators[i];
      assert policy.generators[i..][1..] == policy.generators[i + 1..];
      var slot, failed := CompileGenerator(env, policy.name, g);
      Assoc(generators, [slot], SlotsOf(env, policy.generators[i + 1..]));
      Assoc(errs, failed, AllErrors(env, policy.name, policy.generators[i + 1..]));
      generators := generators + [slot];
      errs := errs + failed;
    }
    cp := CompiledPolicy(policy.name, policy.generation, policy.prefix, generators);
  }
}
