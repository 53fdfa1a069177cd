// What compiling a policy comes to, read off the specification: what is tried, in order, and what of it is kept.
module CompileMeaning {
  import Sums
  import opened Cel
  import opened PolicyModel
  import opened InOrder
  import opened Compile

  /** An expression that was tried: where it stands, and what came of it. */
  datatype Tried = Tried(place: Place, result: CompileResult)

  predicate Present(s: Option<string>) {
    s.Some? && s.value != ""
  }

  /** Expressions of a metric with a forEach may use `item`. */
  function Inner(m: MetricSpec): Scope {
    if Present(m.forEach) then ItemScope else ObjectScope
  }

  /** The forEach itself may not, and fails when the environment with `item` could not be made. */
  function ListResult(env: Environment, m: MetricSpec): CompileResult
    requires Present(m.forEach)
  {
    if env.itemError.Some? then Rejected(env.itemError.value) else env.compile(ObjectScope, m.forEach.value)
  }

  function ValueResult(env: Environment, m: MetricSpec): CompileResult
    requires Present(m.value)
  {
    env.compile(Inner(m), m.value.value)
  }

  // ---- What is tried ----

  ghost predicate LabelsTried(
    env: Environment, scope: Scope, family: string, mi: nat, labels: seq<LabelSpec>, from: nat, tried: seq<Tried>) {
    && |tried| == |labels|
    && forall j | 0 <= j < |labels| ::
         tried[j] == Tried(Place(family, LabelKind, from + j, mi, labels[j].name), env.compile(scope, labels[j].value))
  }

  /** The forEach, the value, the labels: nothing after a forEach that fails. */
  ghost predicate MetricTried(env: Environment, family: string, mi: nat, m: MetricSpec, tried: seq<Tried>) {
    if Present(m.forEach) && ListResult(env, m).Rejected? then
      tried == [Tried(Place(family, ForEachKind, mi, 0, ""), ListResult(env, m))]
    else
      exists labels ::
        && LabelsTried(env, Inner(m), family, mi, m.labels, 0, labels)
        && tried == (if Present(m.forEach) then [Tried(Place(family, ForEachKind, mi, 0, ""), ListResult(env, m))]
                     else []) +
                    ((if Present(m.value) then [Tried(Place(family, ValueKind, mi, 0, ""), ValueResult(env, m))]
                      else []) + labels)
  }

  ghost predicate MetricsTried(
    env: Environment, family: string, metrics: seq<MetricSpec>, from: nat, tried: seq<Tried>) {
    exists parts: seq<seq<Tried>> ::
      && |parts| == |metrics| && tried == Sums.Flatten(parts)
      && forall k | 0 <= k < |metrics| :: MetricTried(env, family, from + k, metrics[k], parts[k])
  }

  ghost function FamilyTried(env: Environment): (FamilySpec, seq<Tried>) -> bool {
    (f: FamilySpec, tried: seq<Tried>) => MetricsTried(env, f.name, f.metrics, 0, tried)
  }

  ghost predicate GeneratorTried(env: Environment, g: GeneratorSpec, tried: seq<Tried>) {
    InTurn(g.families, FamilyTried(env), tried)
  }

  // ---- What is kept ----

  /** A label that compiles is kept, under its own name. */
  function KeptLabel(env: Environment, scope: Scope): LabelSpec -> Option<Option<CompiledLabel>> {
    (l: LabelSpec) =>
      match env.compile(scope, l.value)
      case Compiled(program) => Some(Some(CompiledLabel(l.name, Some(program))))
      case Rejected(_) => None
  }

  /** A metric is kept with the labels that compile, unless its forEach or its value is set and does not. */
  ghost function MetricKept(env: Environment): (MetricSpec, seq<Option<CompiledMetric>>) -> bool {
    (m: MetricSpec, kept: seq<Option<CompiledMetric>>) =>
      if (Present(m.forEach) && ListResult(env, m).Rejected?) || (Present(m.value) && ValueResult(env, m).Rejected?)
      then kept == []
      else
        exists labels ::
          && Picked(m.labels, KeptLabel(env, Inner(m)), labels)
          && kept == [Some(CompiledMetric(
               if Present(m.forEach) then Some(ListResult(env, m).program) else None,
               if Present(m.value) then Some(ValueResult(env, m).program) else None, labels))]
  }

  /** Every family stays, under its own name and help text. */
  ghost predicate FamilyKept(env: Environment, f: FamilySpec, kept: Option<CompiledFamily>) {
    && kept.Some? && kept.value.name == f.name && kept.value.help == f.help
    && InTurn(f.metrics, MetricKept(env), kept.value.metrics)
  }

  function FieldsTried(t: Tried): seq<string> {
    match t.result
    case Compiled(program) => RequiredFields(program)
    case Rejected(_) => []
  }

  /** An empty slot when something was tried and nothing compiled, and otherwise the families and their fields. */
  ghost predicate SlotIs(env: Environment, g: GeneratorSpec, tried: seq<Tried>, slot: Option<CompiledGenerator>) {
    && (slot.None? <==> tried != [] && forall t | t in tried :: t.result.Rejected?)
    && (slot.Some? ==>
          && slot.value.name == g.name && slot.value.resource == g.resource
          && slot.value.requiredFields == Sums.FlatMap(FieldsTried, tried)
          && |slot.value.families| == |g.families|
          && forall i | 0 <= i < |g.families| :: FamilyKept(env, g.families[i], slot.value.families[i]))
  }

  /** One error for everything that was rejected, in order. */
  function ErrorFrom(policy: string, generator: string): Tried -> Option<CompileError> {
    (t: Tried) =>
      match t.result
      case Rejected(reason) => Some(CompileError(policy, generator, t.place, reason))
      case Compiled(_) => None
  }

  ghost predicate GeneratorCompiled(
    env: Environment, policy: string, g: GeneratorSpec, slot: Option<CompiledGenerator>, errs: seq<CompileError>) {
    exists tried ::
      GeneratorTried(env, g, tried) && SlotIs(env, g, tried, slot) && Picked(tried, ErrorFrom(policy, g.name), errs)
  }

  /** One slot for every generator, and the errors of all of them, in order. */
  ghost predicate PolicyCompiled(env: Environment, spec: PolicySpec, cp: CompiledPolicy, errs: seq<CompileError>) {
    && cp.name == spec.name && cp.generation == spec.generation && cp.prefix == spec.prefix
    && |cp.generators| == |spec.generators|
    && exists parts: seq<seq<CompileError>> ::
         && |parts| == |spec.generators| && errs == Sums.Flatten(parts)
         && forall i | 0 <= i < |spec.generators| ::
              GeneratorCompiled(env, spec.name, spec.generators[i], cp.generators[i], parts[i])
  }

  // ---- The attempts are what is tried ----

  function TriedOf(env: Environment, attempts: seq<Attempt>): (r: seq<Tried>)
    ensures |r| == |attempts|
  {
    seq(|attempts|, i requires 0 <= i < |attempts| => Tried(attempts[i].place, ResultOf(env, attempts[i])))
  }

  lemma {:induction false} TriedConcat(env: Environment, a: seq<Attempt>, b: seq<Attempt>)
    ensures TriedOf(env, a + b) == TriedOf(env, a) + TriedOf(env, b)
  {}

  lemma {:induction false} LabelsAreTried(
    env: Environment, scope: Scope, family: string, mi: nat, labels: seq<LabelSpec>, from: nat)
    ensures LabelsTried(env, scope, family, mi, labels, from,
                        TriedOf(env, LabelAttempts(scope, family, mi, labels, from)))
    decreases |labels|
  {
    if labels != [] {
      LabelsAreTried(env, scope, family, mi, labels[1..], from + 1);
      var all, rest := LabelAttempts(scope, family, mi, labels, from),
          LabelAttempts(scope, family, mi, labels[1..], from + 1);
      forall j | 0 <= j < |labels|
        ensures j < |all|
        ensures TriedOf(env, all)[j]
             == Tried(Place(family, LabelKind, from + j, mi, labels[j].name), env.compile(scope, labels[j].value))
      {
        if j > 0 {
          assert all[j] == rest[j - 1];
          assert TriedOf(env, rest)[j - 1] == TriedOf(env, all)[j];
        }
      }
    }
  }

  lemma {:induction false} MetricIsTried(env: Environment, family: string, mi: nat, m: MetricSpec)
    ensures MetricTried(env, family, mi, m, TriedOf(env, MetricAttempts(env, family, mi, m)))
  {
    hide LabelAttempts;
    LabelsAreTried(env, Inner(m), family, mi, m.labels, 0);
    var labels := LabelAttempts(Inner(m), family, mi, m.labels, 0);
    var values := ValueAttempts(family, mi, m);
    TriedConcat(env, values, labels);
    if Present(m.forEach) {
      var first := ForEachAttempt(family, mi, m.forEach.value);
      assert ResultOf(env, first) == ListResult(env, m);
      TriedConcat(env, [first], values + labels);
      assert TriedOf(env, [first]) == [Tried(Place(family, ForEachKind, mi, 0, ""), ListResult(env, m))];
    } else {
      assert [] + (TriedOf(env, values) + TriedOf(env, labels)) == TriedOf(env, values) + TriedOf(env, labels);
    }
    assert TriedOf(env, values) ==
      if Present(m.value) then [Tried(Place(family, ValueKind, mi, 0, ""), ValueResult(env, m))] else [];
  }

  lemma {:induction false} MetricsAreTried(env: Environment, family: string, metrics: seq<MetricSpec>, from: nat)
    ensures MetricsTried(env, family, metrics, from, TriedOf(env, FamilyAttempts(env, family, metrics, from)))
    decreases |metrics|
  {
    hide MetricTried, MetricAttempts, ResultOf;
    if metrics == [] {
      var none: seq<seq<Tried>> := [];
      assert Sums.Flatten(none) == [];
    } else {
      MetricIsTried(env, family, from, metrics[0]);
      MetricsAreTried(env, family, metrics[1..], from + 1);
      var head, rest := MetricAttempts(env, family, from, metrics[0]),
          FamilyAttempts(env, family, metrics[1..], from + 1);
      TriedConcat(env, head, rest);
      var parts: seq<seq<Tried>> :| |parts| == |metrics[1..]| && TriedOf(env, rest) == Sums.Flatten(parts) &&
        forall k | 0 <= k < |metrics[1..]| :: MetricTried(env, family, from + 1 + k, metrics[1..][k], parts[k]);
      var all := [TriedOf(env, head)] + parts;
      assert all[1..] == parts;
      forall k | 0 <= k < |metrics|
        ensures MetricTried(env, family, from + k, metrics[k], all[k])
      {
        if k > 0 {
          assert metrics[k] == metrics[1..][k - 1] && all[k] == parts[k - 1];
          assert MetricTried(env, family, from + 1 + (k - 1), metrics[1..][k - 1], parts[k - 1]);
        }
      }
    }
  }

  lemma {:induction false} FamiliesAreTried(env: Environment, families: seq<FamilySpec>)
    ensures InTurn(families, FamilyTried(env), TriedOf(env, GeneratorAttempts(env, families)))
  {
    hide InTurn, MetricsTried, FamilyAttempts, ResultOf;
    if families == [] {
      NothingInTurn(families, FamilyTried(env));
    } else {
      var head := FamilyAttempts(env, families[0].name, families[0].metrics, 0);
      MetricsAreTried(env, families[0].name, families[0].metrics, 0);
      FamiliesAreTried(env, families[1..]);
      TriedConcat(env, head, GeneratorAttempts(env, families[1..]));
      NextInTurn(families, FamilyTried(env), TriedOf(env, head), TriedOf(env, GeneratorAttempts(env, families[1..])));
    }
  }

  // ---- What survives is what is kept ----

  lemma {:induction false} LabelsAreKept(env: Environment, scope: Scope, labels: seq<LabelSpec>)
    ensures Picked(labels, KeptLabel(env, scope), LabelsOf(env, scope, labels))
  {
    hide Picked;
    if labels == [] {
      NothingPicked(labels, KeptLabel(env, scope));
    } else {
      LabelsAreKept(env, scope, labels[1..]);
      NextPicked(labels, KeptLabel(env, scope), LabelsOf(env, scope, labels[1..]));
      assert [] + LabelsOf(env, scope, labels[1..]) == LabelsOf(env, scope, labels[1..]);
    }
  }

  lemma {:induction false} MetricsAreKept(env: Environment, metrics: seq<MetricSpec>)
    ensures InTurn(metrics, MetricKept(env), MetricsOf(env, metrics))
  {
    hide InTurn, LabelsOf, Picked;
    if metrics == [] {
      NothingInTurn(metrics, MetricKept(env));
    } else {
      var m := metrics[0];
      LabelsAreKept(env, Inner(m), m.labels);
      MetricsAreKept(env, metrics[1..]);
      var head := if MetricOf(env, m).Some? then [MetricOf(env, m)] else [];
      assert MetricKept(env)(m, head);
      NextInTurn(metrics, MetricKept(env), head, MetricsOf(env, metrics[1..]));
    }
  }

  lemma {:induction false} FamiliesAreKept(env: Environment, families: seq<FamilySpec>)
    ensures |FamiliesOf(env, families)| == |families|
    ensures forall i | 0 <= i < |families| :: FamilyKept(env, families[i], FamiliesOf(env, families)[i])
  {
    hide InTurn, MetricKept, MetricsOf;
    if families != [] {
      MetricsAreKept(env, families[0].metrics);
      FamiliesAreKept(env, families[1..]);
      assert forall i | 0 < i < |families| ::
        families[i] == families[1..][i - 1] && FamiliesOf(env, families)[i] == FamiliesOf(env, families[1..])[i - 1];
    }
  }

  lemma {:induction false} FieldsAreTried(env: Environment, attempts: seq<Attempt>)
    ensures FieldsOf(env, attempts) == Sums.FlatMap(FieldsTried, TriedOf(env, attempts))
  {
    hide ResultOf, RequiredFields;
    if attempts != [] {
      FieldsAreTried(env, attempts[1..]);
      assert TriedOf(env, attempts)[1..] == TriedOf(env, attempts[1..]);
    }
  }

  lemma {:induction false} ErrorsAreTried(env: Environment, policy: string, generator: string, attempts: seq<Attempt>)
    ensures Picked(TriedOf(env, attempts), ErrorFrom(policy, generator), ErrorsOf(env, policy, generator, attempts))
  {
    hide Picked, ResultOf;
    var tried := TriedOf(env, attempts);
    if attempts == [] {
      NothingPicked(tried, ErrorFrom(policy, generator));
    } else {
      ErrorsAreTried(env, policy, generator, attempts[1..]);
      assert tried[1..] == TriedOf(env, attempts[1..]);
      var rest := ErrorsOf(env, policy, generator, attempts[1..]);
      NextPicked(tried, ErrorFrom(policy, generator), rest);
      assert [] + rest == rest;
    }
  }

  lemma {:induction false} GeneratorMeans(env: Environment, policy: string, g: GeneratorSpec)
    ensures GeneratorCompiled(env, policy, g, SlotOf(env, g),
                              ErrorsOf(env, policy, g.name, GeneratorAttempts(env, g.families)))
  {
    var attempts := GeneratorAttempts(env, g.families);
    var tried := TriedOf(env, attempts);
    FamiliesAreTried(env, g.families);
    FamiliesAreKept(env, g.families);
    FieldsAreTried(env, attempts);
    ErrorsAreTried(env, policy, g.name, attempts);
    EmptySlot(env, g);
    hide GeneratorAttempts, FamiliesOf, FieldsOf, ErrorsOf, ResultOf, FamilyKept, Picked, InTurn, FieldsTried;
    assert (forall a | a in attempts :: ResultOf(env, a).Rejected?) <==>
        (forall t | t in tried :: t.result.Rejected?) by {
      assert forall i | 0 <= i < |attempts| :: tried[i].result == ResultOf(env, attempts[i]);
    }
    assert SlotIs(env, g, tried, SlotOf(env, g));
  }

  lemma {:induction false} ErrorPartsAre(
    env: Environment, policy: string, generators: seq<GeneratorSpec>) returns (parts: seq<seq<CompileError>>)
    ensures |parts| == |generators| == |SlotsOf(env, generators)|
    ensures AllErrors(env, policy, generators) == Sums.Flatten(parts)
    ensures forall i | 0 <= i < |generators| ::
              GeneratorCompiled(env, policy, generators[i], SlotsOf(env, generators)[i], parts[i])
  {
    hide GeneratorCompiled, SlotOf, ErrorsOf, GeneratorAttempts;
    if generators == [] {
      parts := [];
    } else {
      var rest := ErrorPartsAre(env, policy, generators[1..]);
      GeneratorMeans(env, policy, generators[0]);
      parts := [ErrorsOf(env, policy, generators[0].name, GeneratorAttempts(env, generators[0].families))] + rest;
      assert parts[1..] == rest;
      forall i | 0 <= i < |generators|
        ensures GeneratorCompiled(env, policy, generators[i], SlotsOf(env, generators)[i], parts[i])
      {
        if i > 0 {
          assert generators[i] == generators[1..][i - 1] && parts[i] == rest[i - 1];
          assert SlotsOf(env, generators)[i] == SlotsOf(env, generators[1..])[i - 1];
        }
      }
    }
  }

  /** What compilation makes of a policy is this. */
  lemma {:induction false} PolicyMeans(env: Environment, spec: PolicySpec)
    ensures PolicyCompiled(
              env, spec, CompiledPolicy(spec.name, spec.generation, spec.prefix, SlotsOf(env, spec.generators)),
              AllErrors(env, spec.name, spec.generators))
  {
    hide SlotsOf, AllErrors, GeneratorCompiled;
    var parts := ErrorPartsAre(env, spec.name, spec.generators);
  }
}
