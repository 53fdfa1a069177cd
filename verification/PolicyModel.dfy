// The compiled form of a policy. A missing slot stands for nil.
module PolicyModel {
  import opened Cel

  datatype Option<+T> = None | Some(value: T)

  datatype GVR = GVR(group: string, version: string, resource: string)

  datatype CompiledLabel = CompiledLabel(name: string, program: Option<Expr>)

  /** Without a value program the metric is 1; without a forEach program there is one series per object. */
  datatype CompiledMetric = CompiledMetric(forEach: Option<Expr>, value: Option<Expr>,
      labels: seq<Option<CompiledLabel>>)

  datatype CompiledFamily = CompiledFamily(name: string, help: string, metrics: seq<Option<CompiledMetric>>)

  datatype CompiledGenerator = CompiledGenerator(
    name: string, resource: GVR, families: seq<Option<CompiledFamily>>, requiredFields: seq<string>)

  datatype CompiledPolicy = CompiledPolicy(
    name: string, generation: int, prefix: string, generators: seq<Option<CompiledGenerator>>)
}
