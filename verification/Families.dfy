// The metric families a registry snapshot asks for.
module Families {
  import opened PolicyModel
  import opened InOrder

  function EffectivePrefix(policyPrefix: string, controllerDefault: string): string {
    if policyPrefix != "" then policyPrefix else controllerDefault
  }

  function TrimRight(s: string): string {
    if s != "" && s[|s| - 1] == '_' then TrimRight(s[..|s| - 1]) else s
  }

  function TrimLeft(s: string): string {
    if s != "" && s[0] == '_' then TrimLeft(s[1..]) else s
  }

  function FamilyMetricName(prefix: string, family: string): string {
    if prefix == "" then family else TrimRight(prefix) + "_" + TrimLeft(family)
  }

  lemma {:induction false} TrimRightMeans(s: string)
    ensures TrimRight(s) <= s && forall i | |TrimRight(s)| <= i < |s| :: s[i] == '_'
    ensures TrimRight(s) != "" ==> TrimRight(s)[|TrimRight(s)| - 1] != '_'
  {
    if s != "" && s[|s| - 1] == '_' {
      TrimRightMeans(s[..|s| - 1]);
    }
  }

  lemma {:induction false} TrimLeftMeans(s: string)
    ensures |TrimLeft(s)| <= |s| && TrimLeft(s) == s[|s| - |TrimLeft(s)|..]
    ensures forall i | 0 <= i < |s| - |TrimLeft(s)| :: s[i] == '_'
    ensures TrimLeft(s) != "" ==> TrimLeft(s)[0] != '_'
  {
    if s != "" && s[0] == '_' {
      TrimLeftMeans(s[1..]);
      var r := TrimLeft(s[1..]);
      assert TrimLeft(s) == r && r == s[|s| - |r|..];
      forall i | 0 <= i < |s| - |r|
        ensures s[i] == '_'
      {
        if i > 0 {
          assert s[i] == s[1..][i - 1];
        }
      }
    }
  }

  predicate Underscores(s: string) {
    forall i | 0 <= i < |s| :: s[i] == '_'
  }

  /** `name` is `front`, one underscore and `back`: what is left of the prefix and of the family name at the seam. */
  predicate JoinedAs(prefix: string, family: string, name: string, front: string, back: string) {
    && name == front + "_" + back
    && front <= prefix && Underscores(prefix[|front|..]) && (front != "" ==> front[|front| - 1] != '_')
    && |back| <= |family| && back == family[|family| - |back|..] && Underscores(family[..|family| - |back|])
    && (back != "" ==> back[0] != '_')
  }

  /** Without a prefix the family name itself, and otherwise both with exactly one underscore between them. */
  lemma {:induction false} NameMeans(prefix: string, family: string)
    ensures prefix == "" ==> FamilyMetricName(prefix, family) == family
    ensures prefix != "" ==> exists front, back ::
        JoinedAs(prefix, family, FamilyMetricName(prefix, family), front, back)
  {
    if prefix != "" {
      TrimRightMeans(prefix);
      TrimLeftMeans(family);
      assert JoinedAs(prefix, family, FamilyMetricName(prefix, family), TrimRight(prefix), TrimLeft(family));
    }
  }

  /** One declared family: its effective name and its help text. */
  datatype Declared = Declared(name: string, help: string)

  type Snapshot = seq<Option<CompiledPolicy>>

  function GeneratorDeclares(prefix: string, families: seq<Option<CompiledFamily>>): seq<Declared> {
    if families == [] then []
    else
      (if families[0].None? then []
          else [Declared(FamilyMetricName(prefix, families[0].value.name), families[0].value.help)]) +
      GeneratorDeclares(prefix, families[1..])
  }

  function PolicyDeclares(prefix: string, generators: seq<Option<CompiledGenerator>>): seq<Declared> {
    if generators == [] then []
    else
      (if generators[0].None? then [] else GeneratorDeclares(prefix, generators[0].value.families)) +
      PolicyDeclares(prefix, generators[1..])
  }

  /** Every family the snapshot declares, in order. */
  function Declares(defaultPrefix: string, policies: Snapshot): seq<Declared> {
    if policies == [] then []
    else
      (if policies[0].None? then []
       else PolicyDeclares(EffectivePrefix(policies[0].value.prefix, defaultPrefix), policies[0].value.generators)) +
      Declares(defaultPrefix, policies[1..])
  }

  /** Keeping the first help text of each name. */
  function KeepFirst(declared: seq<Declared>, desired: map<string, string>): map<string, string>
    decreases |declared|
  {
    if declared == [] then desired
    else if declared[0].name in desired then KeepFirst(declared[1..], desired)
    else KeepFirst(declared[1..], desired[declared[0].name := declared[0].help])
  }

  lemma {:induction false} KeepFirstConcat(a: seq<Declared>, b: seq<Declared>, desired: map<string, string>)
    ensures KeepFirst(a + b, desired) == KeepFirst(b, KeepFirst(a, desired))
    decreases |a|
  {
    if a == [] {
      assert a + b == b;
    } else {
      assert (a + b)[0] == a[0] && (a + b)[1..] == a[1..] + b;
      KeepFirstConcat(a[1..], b, if a[0].name in desired then desired else desired[a[0].name := a[0].help]);
    }
  }

  /** What keeping the first means: a name is desired exactly if declared, with the help of its first declaration. */
  lemma {:induction false} KeepFirstMeans(declared: seq<Declared>, desired: map<string, string>, name: string)
    ensures name in KeepFirst(declared, desired) <==>
              name in desired || exists i | 0 <= i < |declared| :: declared[i].name == name
    ensures name in desired ==> KeepFirst(declared, desired)[name] == desired[name]
    ensures name !in desired && name in KeepFirst(declared, desired) ==>
              exists i | 0 <= i < |declared| :: declared[i] == Declared(name, KeepFirst(declared, desired)[name]) &&
                forall j | 0 <= j < i :: declared[j].name != name
    decreases |declared|
  {
    if declared != [] {
      var next := if declared[0].name in desired then desired else desired[declared[0].name := declared[0].help];
      KeepFirstMeans(declared[1..], next, name);
      assert forall i | 0 < i < |declared| :: declared[i] == declared[1..][i - 1];
      if name !in desired && name in KeepFirst(declared, desired) {
        if declared[0].name == name {
          assert declared[0] == Declared(name, KeepFirst(declared, desired)[name]);
        } else {
          var i :| 0 <= i < |declared[1..]| && declared[1..][i] == Declared(name, KeepFirst(declared, desired)[name]) &&
                   forall j | 0 <= j < i :: declared[1..][j].name != name;
          assert declared[i + 1] == declared[1..][i];
          assert forall j | 0 <= j < i + 1 :: declared[j].name != name;
        }
      }
    }
  }

  // ---- The declarations, read off the snapshot ----

  function DeclaredAs(prefix: string): Option<CompiledFamily> -> Option<Declared> {
    (f: Option<CompiledFamily>) =>
      if f.Some? then Some(Declared(FamilyMetricName(prefix, f.value.name), f.value.help)) else None
  }

  ghost function GeneratorSlotDeclares(prefix: string): (Option<CompiledGenerator>, seq<Declared>) -> bool {
    (g: Option<CompiledGenerator>, declared: seq<Declared>) =>
      if g.None? then declared == [] else Picked(g.value.families, DeclaredAs(prefix), declared)
  }

  /** A policy's families go under its own prefix, or the default. */
  ghost function PolicySlotDeclares(defaultPrefix: string): (Option<CompiledPolicy>, seq<Declared>) -> bool {
    (p: Option<CompiledPolicy>, declared: seq<Declared>) =>
      if p.None? then declared == []
      else InTurn(p.value.generators,
                  GeneratorSlotDeclares(if p.value.prefix != "" then p.value.prefix else defaultPrefix), declared)
  }

  lemma {:induction false} FamiliesDeclare(prefix: string, families: seq<Option<CompiledFamily>>)
    ensures Picked(families, DeclaredAs(prefix), GeneratorDeclares(prefix, families))
  {
    hide Picked, FamilyMetricName;
    if families == [] {
      NothingPicked(families, DeclaredAs(prefix));
    } else {
      var rest := GeneratorDeclares(prefix, families[1..]);
      FamiliesDeclare(prefix, families[1..]);
      NextPicked(families, DeclaredAs(prefix), rest);
      assert [] + rest == rest;
    }
  }

  lemma {:induction false} GeneratorsDeclare(prefix: string, generators: seq<Option<CompiledGenerator>>)
    ensures InTurn(generators, GeneratorSlotDeclares(prefix), PolicyDeclares(prefix, generators))
  {
    hide InTurn, Picked, GeneratorDeclares;
    if generators == [] {
      NothingInTurn(generators, GeneratorSlotDeclares(prefix));
    } else {
      if generators[0].Some? {
        FamiliesDeclare(prefix, generators[0].value.families);
      }
      GeneratorsDeclare(prefix, generators[1..]);
      NextInTurn(generators, GeneratorSlotDeclares(prefix),
                 if generators[0].None? then [] else GeneratorDeclares(prefix, generators[0].value.families),
                 PolicyDeclares(prefix, generators[1..]));
    }
  }

  /** Every family of every generator of every policy, in this order. */
  lemma {:induction false} SnapshotDeclares(defaultPrefix: string, policies: Snapshot)
    ensures InTurn(policies, PolicySlotDeclares(defaultPrefix), Declares(defaultPrefix, policies))
  {
    hide InTurn, GeneratorSlotDeclares, PolicyDeclares;
    if policies == [] {
      NothingInTurn(policies, PolicySlotDeclares(defaultPrefix));
    } else {
      var prefix := if policies[0].Some? then EffectivePrefix(policies[0].value.prefix, defaultPrefix) else "";
      if policies[0].Some? {
        GeneratorsDeclare(prefix, policies[0].value.generators);
      }
      SnapshotDeclares(defaultPrefix, policies[1..]);
      NextInTurn(policies, PolicySlotDeclares(defaultPrefix),
                 if policies[0].None? then [] else PolicyDeclares(prefix, policies[0].value.generators),
                 Declares(defaultPrefix, policies[1..]));
    }
  }

  /** Exactly the declared names, each with the help text declared first. */
  ghost predicate FirstWins(declared: seq<Declared>, desired: map<string, string>) {
    && (forall name :: name in desired <==> exists i | 0 <= i < |declared| :: declared[i].name == name)
    && forall i | 0 <= i < |declared| && (forall j | 0 <= j < i :: declared[j].name != declared[i].name) ::
         declared[i].name in desired && desired[declared[i].name] == declared[i].help
  }

  lemma {:induction false} KeptFirstWins(declared: seq<Declared>)
    ensures FirstWins(declared, KeepFirst(declared, map[]))
  {
    forall name
      ensures name in KeepFirst(declared, map[]) <==> exists i | 0 <= i < |declared| :: declared[i].name == name
    {
      KeepFirstMeans(declared, map[], name);
    }
    forall i | 0 <= i < |declared| && (forall j | 0 <= j < i :: declared[j].name != declared[i].name)
      ensures declared[i].name in KeepFirst(declared, map[])
      ensures KeepFirst(declared, map[])[declared[i].name] == declared[i].help
    {
      KeepFirstMeans(declared, map[], declared[i].name);
    }
  }

  lemma {:induction false} KeepFirstOne(d: Declared, desired: map<string, string>)
    ensures KeepFirst([d], desired) == if d.name in desired then desired else desired[d.name := d.help]
  {
    assert [d][1..] == [];
  }

  method DesiredOfGenerator(prefix: string, families: seq<Option<CompiledFamily>>, start: map<string, string>)
    returns (desired: map<string, string>)
    ensures desired == KeepFirst(GeneratorDeclares(prefix, families), start)
  {
    hide FamilyMetricName;
    desired := start;
    ghost var all := KeepFirst(GeneratorDeclares(prefix, families), start);
    assert families[0..] == families;
    for f := 0 to |families|
      invariant KeepFirst(GeneratorDeclares(prefix, families[f..]), desired) == all
    {
      assert families[f..][0] == families[f] && families[f..][1..] == families[f + 1..];
      if families[f].None? {
        assert GeneratorDeclares(prefix, families[f..]) == GeneratorDeclares(prefix, families[f + 1..]);
        continue;
      }
      var family := families[f].value;
      var name := FamilyMetricName(prefix, family.name);
      KeepFirstConcat([Declared(name, family.help)], GeneratorDeclares(prefix, families[f + 1..]), desired);
      KeepFirstOne(Declared(name, family.help), desired);
      if name in desired {
        continue;
      }
      desired := desired[name := family.help];
    }
  }

  method DesiredOfPolicy(prefix: string, generators: seq<Option<CompiledGenerator>>, start: map<string, string>)
    returns (desired: map<string, string>)
    ensures desired == KeepFirst(PolicyDeclares(prefix, generators), start)
  {
    hide FamilyMetricName;
    desired := start;
    ghost var all := KeepFirst(PolicyDeclares(prefix, generators), start);
    assert generators[0..] == generators;
    for g := 0 to |generators|
      invariant KeepFirst(PolicyDeclares(prefix, generators[g..]), desired) == all
    {
      assert generators[g..][0] == generators[g] && generators[g..][1..] == generators[g + 1..];
      if generators[g].None? {
        assert PolicyDeclares(prefix, generators[g..]) == PolicyDeclares(prefix, generators[g + 1..]);
        continue;
      }
      KeepFirstConcat(GeneratorDeclares(prefix, generators[g].value.families),
          PolicyDeclares(prefix, generators[g + 1..]), desired);
      desired := DesiredOfGenerator(prefix, generators[g].value.families, desired);
    }
  }

  method ComputeDesired(defaultPrefix: string, policies: Snapshot) returns (desired: map<string, string>)
    ensures exists declared ::
              InTurn(policies, PolicySlotDeclares(defaultPrefix), declared) && FirstWins(declared, desired)
    ensures desired == KeepFirst(Declares(defaultPrefix, policies), map[])
  {
    SnapshotDeclares(defaultPrefix, policies);
    KeptFirstWins(Declares(defaultPrefix, policies));
    hide FamilyMetricName, EffectivePrefix, InTurn, FirstWins;
    desired := map[];
    ghost var all := KeepFirst(Declares(defaultPrefix, policies), map[]);
    assert policies[0..] == policies;
    for p := 0 to |policies|
      invariant KeepFirst(Declares(defaultPrefix, policies[p..]), desired) == all
    {
      assert policies[p..][0] == policies[p] && policies[p..][1..] == policies[p + 1..];
      if policies[p].None? {
        assert Declares(defaultPrefix, policies[p..]) == Declares(defaultPrefix, policies[p + 1..]);
        continue;
      }
      var prefix := EffectivePrefix(policies[p].value.prefix, defaultPrefix);
      KeepFirstConcat(PolicyDeclares(prefix, policies[p].value.generators), Declares(defaultPrefix, policies[p + 1..]),
          desired);
      desired := DesiredOfPolicy(prefix, policies[p].value.generators, desired);
    }
  }

  lemma {:induction false} InGenerator(prefix: string, families: seq<Option<CompiledFamily>>, family: CompiledFamily)
    requires Some(family) in families
    ensures Declared(FamilyMetricName(prefix, family.name), family.help) in GeneratorDeclares(prefix, families)
  {
    if families[0] != Some(family) {
      InGenerator(prefix, families[1..], family);
    }
  }

  lemma {:induction false} InPolicy(
    prefix: string, generators: seq<Option<CompiledGenerator>>, gen: CompiledGenerator, d: Declared)
    requires Some(gen) in generators && d in GeneratorDeclares(prefix, gen.families)
    ensures d in PolicyDeclares(prefix, generators)
  {
    if generators[0] != Some(gen) {
      InPolicy(prefix, generators[1..], gen, d);
    }
  }

  lemma {:induction false} InSnapshot(defaultPrefix: string, policies: Snapshot, p: CompiledPolicy, d: Declared)
    requires Some(p) in policies && d in PolicyDeclares(EffectivePrefix(p.prefix, defaultPrefix), p.generators)
    ensures d in Declares(defaultPrefix, policies)
  {
    if policies[0] != Some(p) {
      InSnapshot(defaultPrefix, policies[1..], p, d);
    }
  }

  /** The name of every family of every generator of the snapshot is desired. */
  lemma {:induction false} DeclaredIsDesired(
    defaultPrefix: string, policies: Snapshot, p: CompiledPolicy, gen: CompiledGenerator, family: CompiledFamily)
    requires Some(p) in policies && Some(gen) in p.generators && Some(family) in gen.families
    ensures FamilyMetricName(EffectivePrefix(p.prefix, defaultPrefix), family.name)
         in KeepFirst(Declares(defaultPrefix, policies), map[])
  {
    var prefix := EffectivePrefix(p.prefix, defaultPrefix);
    InGenerator(prefix, gen.families, family);
    InPolicy(prefix, p.generators, gen, Declared(FamilyMetricName(prefix, family.name), family.help));
    InSnapshot(defaultPrefix, policies, p, Declared(FamilyMetricName(prefix, family.name), family.help));
    KeepFirstMeans(Declares(defaultPrefix, policies), map[], FamilyMetricName(prefix, family.name));
  }
}
