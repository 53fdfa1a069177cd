# Resource metrics, verified

Resource metrics watches objects on many control planes, trims each object to the fields its policies read, evaluates
CEL expressions over the cached copies, and exports the resulting series in requests of bounded size. This project
models the parts of it whose correctness is not visible in any single function, and proves what they promise.

Check everything with `dafny verify dfyconfig.toml`.

## The parts

**Export splitting** (`MetricData`, `SizeEstimate`, `SizeFormula`, `UnitStream`, `Splitter`, `SplitProperties`,
`Exporter`, `WireSize`, `SplitWire`). A request is a tree of scopes, metrics and units, where a unit is one data point
of a gauge, sum or histogram, or a whole metric of any other aggregation. The source is read as one stream of units
whose flags say where a scope or a metric is opened. The splitter is a class whose loops take runs of that stream; its
contract says which run every request carries and that no request could have taken one unit more. From that follow
conservation, exact size accounting, the size bound, uniqueness, and optimality: no division of the stream into
acceptable requests is shorter. What is sent is bounded in turn, with the exact condition on the source. `WireSize`
gives the Protocol Buffers encoding of the metrics (Protocol Buffers Encoding, sections "Base 128 Varints" and
"Length-Delimited Records"), with the exact limits within which the estimate bounds it: there, every request that fits
the limit also fits it on the wire.

**Projection pushdown** (`Paths`, `Trim`, `TrimInPlace`, `Cel`, `Pushdown`, `BuildPushdown`, `Compile`,
`CompileMeaning`, `Desired`, `CachedBuild`). Trimming is a function on sets of paths, with its laws, and an algorithm
that deletes keys from the maps of one object on the heap, proved equal to it. A small embedding of CEL leaves calls,
literals and errors to an uninterpreted runtime. The required-field pass is the stateful visitor of the source.
Trimming to any superset of its result keeps the value or the error of every expression of the fragment; the whole
build then emits the same measurements and errors in the same order; and through compilation, the desired field sets
and the informer caches, a generator publishes from the cache exactly what it would publish from the objects
themselves.

**Informers** (`StringOrder`, `Informers`, `InformerHistory`, `Collector`). `Informers` is a state machine in which
watch events, each in two steps, interleave with the steps of reconcile passes. Its invariant says that each cached
object was trimmed to no less than what is now published, and that each running informer has one owner.
`InformerHistory` says from the watch events of a run alone what every cache holds. `Collector` is the reconcile pass
itself, a class whose every step is a step of that machine and which any watch events may overtake between two steps.

**Fleet** (`Fleet`, `Manager`). Engage, Disengage, WakeAll, registry changes and the background loops, as critical
sections of concurrent calls. `Manager` is the code of the calls, with everyone else running at each point where a
call can be overtaken; each of its sections is a step of the machine.

**Evaluation and instruments** (`PolicyModel`, `Budget`, `Builder`, `BuildMeaning`, `Build`, `Families`, `Observe`,
`Coverage`, `ObserveMeaning`, `RuntimeSync`, `Collection`). What an unbudgeted build does is a sequence of events;
running it under a budget is a fold over that sequence; the nested loops with their early returns and shared budget
are proved to perform exactly this fold. `BuildMeaning` and `ObserveMeaning` say what is evaluated, measured and
observed, and where a budget cuts it, without that sequence: read off policies and objects with the two relations of
`InOrder`, for what is done in turn and what is picked out. `RuntimeSync` keeps the instruments and callbacks in line
with the families that the registry asks for, over whole runs of synchronisations, and `Collection` calls every
callback that is still registered and says how often each emission is observed.

**Policies and values** (`Compile`, `CompileMeaning`, `Permissions`, `Controller`, `Sanitize`). Compilation that keeps
what compiles, read off the specification, the status of a policy, the order of effects after a change, and the
cleaning of label values as bytes.

## What a reader may not expect

- The comment above the estimate constants says that the estimate stays at or above the encoded size
  (`internal/otel/split_exporter.go:22-24`). For requests below 2^28 bytes this holds within five limits, and each is
  exact as long as the other four are kept: strings in arrays of at most 125 bytes (`WireSize.ElementLimit`),
  attributes of at most 2^21 + 3 bytes by estimate (`WireSize.AttributeLimit`), names, descriptions and units of at
  most 127 bytes on metrics without points (`WireSize.MetricTextLimit`), names, versions and schema URLs of at most
  127 bytes on scopes without points (`WireSize.ScopeTextLimit`), and at most 1637 counts on each side of an
  exponential point (`WireSize.BucketLimit`). Texts of metrics and scopes with points are not limited.
  `SplitWire.RequestsFitTheLimit` carries this to everything that is sent; there, a scope with an exponential
  histogram or a summary without points has short texts too, since such a metric may be sent alone. Outside the limits
  it can fail: `SplitWire.EmptyCountersOnTheWire`.
- The comment on `Export` says that each request is estimated to encode to at most the limit
  (`internal/otel/split_exporter.go:51-53`). When one request is enough, the source itself is sent, with the metrics
  and scopes without points that the splitter drops, and these may take it over the limit. `SplitProperties.SentFits`
  says exactly for which sources everything sent fits, `SplitProperties.FullIsFittable` that all sources without empty
  metrics and scopes are among them, and `SplitProperties.EmptyMetricEscapes` gives one that is not.
- Trimming deletes a value that is not a map under a longer path. For a chain of selects the pushdown is exact: no
  runtime sees the trimming if and only if the values along the path are maps or missing
  (`Pushdown.ChainPushdownExact`).
- The required-field pass records nothing for `object` used on its own, and a wrong path for a select on a map literal
  that holds a select on the object. `Pushdown.BareRootEscapes` and `Pushdown.LiteralSelectEscapes` are the examples;
  the theorem is about expressions without these uses, and its consequences are about the generators that make none of
  them.
- A callback that fails to unregister keeps running: `Sync` only logs the failure
  (`internal/otel/runtime.go:270-275`). When its name is created again, its data points are observed twice, although
  `Sync` reports success (`Collection.DriftRepeats`). `Collection.OnceOverRuns` says exactly when everything is
  observed once.
- A denial is never tried again while its resource stays desired (`Informers.EntryStays`). Only dropping the resource
  and asking for it again does that.
- A failed rebuild leaves the old informer with its narrower fields, so after a pass a resource may be served without
  fields that a policy requires. `Collector.ServedUnlessFailed` says exactly when.

## Model

| member | source | states |
|---|---|---|
| SizeEstimate.DataPointSizes | internal/otel/split_exporter.go:158-177 | one size per unit, in order, each the estimate of its unit, for every aggregation and for none |
| SizeEstimate.NumberPointSizes | internal/otel/split_exporter.go:204-210 | the estimate of every number point at its index |
| SizeEstimate.HistogramPointSizes | internal/otel/split_exporter.go:212-220 | the estimate of every histogram point at its index |
| SizeEstimate.ComputeExemplarsSize | internal/otel/split_exporter.go:222-231 | the nested loops compute the sum of the exemplar estimates |
| SizeEstimate.ComputeWholeMetricSize | internal/otel/split_exporter.go:235-255 | the loops compute the estimate of an aggregation that is sent whole |
| SizeEstimate.ComputeAttributesSize | internal/otel/split_exporter.go:272-278 | the loop computes the sum of the attribute estimates |
| SizeFormula.RequestFormula | internal/otel/split_exporter.go:22-31 | the estimate is one formula over the whole tree: 16 bytes a message or attribute, 64 a point or exemplar, 4 an array element, 10 a number, and the bytes of all texts |
| SizeFormula.DataFormula | internal/otel/split_exporter.go:204-255 | the same for the points of every aggregation |
| Splitter.SliceItems | internal/otel/split_exporter.go:180-202 | a slice of a metric holds exactly the units asked for, under the same metric, with the metric opened anew |
| Splitter.CostOfChunk | internal/otel/split_exporter.go:103-117 | header, scope and unit sizes added in the loop are what the chunk adds to the open request |
| Splitter.Splitter.constructor | internal/otel/split_exporter.go:90-95 | a splitter starts with an empty open request that costs the resource header |
| Splitter.Splitter.Reset | internal/otel/split_exporter.go:142-146 | an empty request with the source resource, with its exact size |
| Splitter.Splitter.Flush | internal/otel/split_exporter.go:148-153 | closes the open request if it holds a unit; no unit is lost or moved |
| Splitter.Splitter.Take | internal/otel/split_exporter.go:104-117 | how many units fit: what is taken is acceptable and one unit more would not fit |
| Splitter.Splitter.Append | internal/otel/split_exporter.go:123-131 | the taken units are in the open request, in order, in their scope, and its size is exact |
| Splitter.Splitter.AddMetric | internal/otel/split_exporter.go:100-136 | all units of the metric are placed in order; the unit loop terminates by units left, then by the open request |
| Splitter.Splitter.AddScope | internal/otel/split_exporter.go:97-138 | all units of the scope are placed after what was placed before |
| Splitter.Splitter.AddScopes | internal/otel/split_exporter.go:97-138 | all units of the source are placed, in order |
| Splitter.SplitResourceMetrics | internal/otel/split_exporter.go:89-140 | the requests carry a greedy division of the source units: complete, in order, acceptable, and maximal |
| SplitProperties.Conservation | internal/otel/split_exporter.go:85-88 | reading the requests in order gives every unit of the source once, under its own scope and metric, with the source resource |
| SplitProperties.RecordsConserved | internal/otel/split_exporter.go:180-202 | read off their trees, the requests in order hold what the tree of the source holds: every unit with its scope, and the name, description, unit, kind, temporality and monotonicity of its metric |
| SplitProperties.SentRecords | internal/otel/split_exporter.go:54-72 | and so does what is sent, the source itself or its batches |
| SplitProperties.EstimateIsCost | internal/otel/split_exporter.go:97-139 | the running size equals the estimate recomputed from the finished request |
| SplitProperties.SizeBound | internal/otel/split_exporter.go:85-88 | every request fits the limit or holds exactly one unit |
| SplitProperties.SubrunCost | internal/otel/split_exporter.go:103-117 | a run of units never costs more than a run that contains it |
| SplitProperties.StaysAhead | internal/otel/split_exporter.go:103-137 | from any point of the stream the greedy division needs no more requests than any other |
| SplitProperties.FewestRequests | internal/otel/split_exporter.go:89-140 | no division of the units into requests that fit or hold one unit has fewer requests |
| SplitProperties.GreedyUnique | internal/otel/split_exporter.go:103-137 | a stream has one greedy division |
| SplitProperties.SameRequests | internal/otel/split_exporter.go:89-140 | the contract of the splitter determines the units of every request |
| UnitStream.TreeCost | internal/otel/split_exporter.go:97-139 | the estimate of any request is the cost of its units and the header bytes of its empty metrics and scopes |
| SplitProperties.AtMostOneRequest | internal/otel/split_exporter.go:55-58 | there is at most one batch if and only if there is at most one unit, or what the splitter keeps fits as a whole |
| SplitProperties.SentFits | internal/otel/split_exporter.go:51-58 | everything that is sent fits or holds one unit if and only if the source has one unit, or fits with its empty metrics and scopes, or has several units that do not fit together |
| SplitProperties.FullIsFittable | internal/otel/split_exporter.go:51-58 | so it always does for a source without empty metrics and scopes |
| SplitProperties.EmptyMetricEscapes | internal/otel/split_exporter.go:51-58 | a gauge without points is sent as it is, over the limit, with no unit in it |
| Exporter.SplittingExporter.constructor | internal/otel/split_exporter.go:44-49 | a limit that is not positive becomes 4 MiB |
| Exporter.SplittingExporter.Export | internal/otel/split_exporter.go:54-72 | one call with the source, or one per batch in order, whatever fails; the trees sent hold what the source holds; every call fits exactly when the source is fittable; a single call passes its own outcome on; otherwise no error exactly when every call succeeds, and every failure |
| Exporter.NoFailureMeansAllSent | internal/otel/split_exporter.go:60-71 | the list of failures is empty exactly when every request was sent |
| Exporter.FailuresMean | internal/otel/split_exporter.go:60-66 | one failure for every batch that was answered with one, in order, with its number counted from 1, the units in its tree and the code of the answer |
| Exporter.ResourceDataPoints | internal/otel/split_exporter.go:301-309 | counts the units of a request |
| WireSize.EstimateBoundsWire | internal/otel/split_exporter.go:22-31 | for every request below 2^28 bytes that stays within `LIMITS`, of all aggregations, the estimate is at least the encoded size, envelope included |
| WireSize.AttributeBound | internal/otel/split_exporter.go:280-299 | within the limits the estimate of an attribute is at least its encoded size: texts, numbers, invalid values, and arrays of all four kinds |
| WireSize.DataBound | internal/otel/split_exporter.go:204-255 | the points of every aggregation pay for more than their own overhead, sliceable or not |
| WireSize.MetricBound | internal/otel/split_exporter.go:204-255 | a metric with points stays nine bytes below its estimate: enough for what its scope may exceed |
| WireSize.StringElementBound | internal/otel/split_exporter.go:285-288 | the four bytes of an array element suffice exactly up to 125 bytes |
| WireSize.StringSlicesEscape | internal/otel/split_exporter.go:22-24 | a request with string elements of 126 bytes that encodes to more than its estimate |
| WireSize.HoldsWithin | internal/otel/split_exporter.go:22-24 | any limits up to `LIMITS` keep the estimate above the encoding |
| WireSize.ElementLimit | internal/otel/split_exporter.go:22-24 | other parts within `LIMITS`: the estimate bounds every request with string elements up to a length if and only if that length is at most 125 |
| WireSize.MetricTextLimit | internal/otel/split_exporter.go:22-24 | the same for the texts of metrics without points: if and only if they have at most 127 bytes |
| WireSize.ScopeTextLimit | internal/otel/split_exporter.go:22-24 | the same for the texts of scopes without points: if and only if they have at most 127 bytes |
| WireSize.AttributeLimit | internal/otel/split_exporter.go:22-24 | the same for the estimate of one attribute: if and only if it is at most 2^21 + 3 |
| WireSize.BucketLimit | internal/otel/split_exporter.go:235-247 | the same for the counts on one side of an exponential point: if and only if there are at most 1637 |
| WireSize.EmptyCountersEscape | internal/otel/split_exporter.go:22-24 | forty counters without points and with texts of 128 bytes encode to more than their estimate, 16032 |
| SplitWire.RequestsFitTheLimit | internal/otel/split_exporter.go:51-58 | for a fittable source within `LIMITS`, with short scope texts around whole metrics without points, and a limit below 2^28, every request sent encodes to at most the limit or carries one unit |
| SplitWire.EmptyMetricOnTheWire | internal/otel/split_exporter.go:55-58 | the metric without points is encoded with its whole name |
| SplitWire.EmptyCountersOnTheWire | internal/otel/split_exporter.go:51-58 | outside the limits a fittable source, which holds no unit at all, is sent as it is and encodes to more than the limit |
| Paths.SegmentsOfJoin | internal/policy/cel.go:267-270 | joining names without dots and cutting at dots gives the names back |
| Paths.JoinOfSegments | internal/policy/trim.go:47-48 | cutting a path at its dots and joining gives the path back |
| Trim.TrimKeeps | internal/policy/trim.go:19-24 | every path through a kept one reads the same after trimming, present or missing |
| Trim.TrimDrops | internal/policy/trim.go:29-43 | nothing else survives, except the maps that lead to kept paths |
| Trim.TrimSurvives | internal/policy/trim.go:29-43 | a path is there after trimming if and only if it was there before and a kept path covers it, or it holds a map on the way to one |
| Trim.TrimTwice | internal/policy/trim.go:20-22 | trimming by a wider set first makes no difference |
| Trim.TrimEquivalent | internal/policy/trim.go:45-60 | sets that cover each other trim alike: a leaf absorbs every longer path through it |
| Trim.TrimIdempotent | internal/policy/trim.go:20-22 | trimming twice is trimming once |
| Trim.TrimObjectOrderIrrelevant | internal/policy/trim.go:25-27 | order and repetition of the field list do not matter |
| Trim.TrimObjectNarrows | internal/policy/trim.go:25-27 | an object trimmed to a wider list and then to a narrower one is trimmed to the narrower |
| Trim.IdentityKept | internal/policy/trim.go:10-17 | the six identity fields survive, whatever is asked for |
| Trim.GroupPaths | internal/policy/trim.go:45-60 | leaf keys and branch lists, a leaf winning over its branches whichever comes first |
| Trim.LeafIsSingleton | internal/policy/trim.go:48-52 | the leaf keys are exactly the one-segment paths |
| Trim.RestsAreSub | internal/policy/trim.go:57 | the branch list of a key is what is left of the paths below it |
| TrimInPlace.ObjectMap.TrimAt | internal/policy/trim.go:29-43 | deleting keys in place, at every depth, leaves the trimmed object |
| TrimInPlace.TrimObjectInPlace | internal/policy/trim.go:25-27 | the object on the heap becomes itself trimmed to the fields and the identity fields |
| Cel.FieldVisitor.PreOrder | internal/policy/cel.go:258-280 | the visitor with its pending names computes the fold that the specification describes |
| Cel.ComputeRequiredFields | internal/policy/cel.go:253-283 | the visitor started afresh gives the required fields |
| Cel.RequiredFieldsAreNeeds | internal/policy/cel.go:251-283 | in the fragment the pass records exactly the paths selected from the object, and no pending name leaks |
| Cel.RequiredFieldsExactly | internal/policy/cel.go:251-283 | in the fragment every recorded string is the path of a chain of selects that is there, every such chain is on the way to one, and there is one for every use of the root that no comprehension hides |
| Pushdown.WalkTrimmed | internal/policy/trim.go:29-43 | a chain of selects along a kept path gives the same result on the trimmed object |
| Pushdown.RequiredFieldsCover | internal/policy/cel.go:253-283 | the required fields, cut at their dots again, answer every path the expression selects |
| Pushdown.PushdownPreservesMeaning | internal/policy/cel.go:251-283 | evaluating on the object trimmed to any superset of the required fields gives the same value or error, with and without an item |
| Pushdown.ChainPushdownExact | internal/policy/trim.go:35-41 | for a chain of selects the results agree in every runtime if and only if the values along it are maps or missing |
| Pushdown.BareRootEscapes | internal/policy/cel.go:264-272 | the object as a call argument is not recorded, and trimming changes the result |
| Pushdown.LiteralSelectEscapes | internal/policy/cel.go:261-278 | a select on a map literal leaks its name into the next path, and trimming changes the result |
| Budget.CycleBudget.constructor | internal/policy/cel.go:82-95 | limits that are not positive give a budget exhausted from the start |
| Budget.CycleBudget.Consume | internal/policy/cel.go:101-116 | the deadline error if and only if the deadline has passed, and then the count is left alone; otherwise the count goes down, with its error if and only if it was used up |
| Builder.ExecConcat | internal/metrics/builder.go:85-203 | running one sequence after another under the same budget, the second only if the first was not stopped |
| Builder.BudgetedRunIsPrefix | internal/metrics/builder.go:58-64 | outputs and errors are those of a prefix of the unbudgeted run, and a stopped run adds one budget error at its end |
| Builder.BudgetErrorIsLast | internal/metrics/builder.go:58-64 | among the errors of a run there is at most one budget error, last, exactly when the run was stopped |
| BuildMeaning.ExecRan | internal/policy/cel.go:101-116 | a run stops at its first evaluation, with n made before it, where the deadline has passed at that asking or n reaches the count, with the matching error, and completes if there is none; what was emitted and what failed up to there comes out in order |
| BuildMeaning.EvaluationsCount | internal/policy/cel.go:101-116 | the evaluations are counted as they stand in the sequence |
| Builder.EvaluationsWithinBudget | internal/policy/cel.go:76-81 | never more evaluations than the budget allows, whatever the clock does |
| Builder.AskedForEvaluations | internal/policy/cel.go:101-116 | the budget is asked once for every evaluation made, and once more exactly when it cuts the run |
| Builder.AmpleBudgetRunsAll | internal/policy/cel.go:101-116 | with enough evaluations and time nothing is cut off |
| BuildMeaning.SeriesMeans | internal/metrics/builder.go:112-151 | with the object and the item bound: one measurement if every label program and the value program give a value, with the names and texts in order and the number or 1, and otherwise one failure, that of the first program that fails |
| BuildMeaning.TraceMeans | internal/metrics/builder.go:85-203 | the unbudgeted build is this for every object, present family, present metric and item of its forEach list, or once without one, in this order |
| BuildMeaning.BuildDoesOnce | internal/metrics/builder.go:85-203 | this description leaves nothing open: it determines all evaluations, measurements and failures, and their order |
| BuildMeaning.NameInMetadata | internal/metrics/builder.go:243-252 | the object name is the text at metadata.name, and empty otherwise |
| Build.BuildCall.EvalLabels | internal/metrics/builder.go:206-240 | the label loop consumes the budget and fails as the sequence of label evaluations does |
| Build.BuildCall.BuildSeries | internal/metrics/builder.go:157-199 | one series: labels, value and emission, with skip on error and stop on budget |
| Build.BuildCall.BuildItems | internal/metrics/builder.go:111-153 | one series per item, an error skipping only its item |
| Build.BuildCall.BuildMetric | internal/metrics/builder.go:96-199 | with and without forEach |
| Build.BuildCall.BuildObjects | internal/metrics/builder.go:85-202 | the four nested loops perform the budgeted run of the whole sequence |
| Build.Build | internal/metrics/builder.go:65-204 | measurements, errors and evaluations are those of the described build, up to where the budget refuses an evaluation; a budget error is the last one; nothing happens without a policy and a generator |
| BuildPushdown.NameAgrees | internal/metrics/builder.go:243-252 | the object name in errors survives trimming |
| BuildPushdown.BuildAgrees | internal/metrics/builder.go:65-204 | the build makes the same measurements and errors from trimmed objects, each trimmed to its own superset of the required fields |
| Families.KeepFirstMeans | internal/otel/runtime.go:229-247 | a name is desired if and only if declared, with the help text declared first |
| Families.NameMeans | internal/metrics/naming.go:17-27 | without a prefix the family name, and otherwise both without the underscores at the seam, with exactly one between them |
| Families.SnapshotDeclares | internal/otel/runtime.go:217-247 | the declarations are every family of every generator of every policy, in this order, under the prefix of the policy or the default |
| Families.ComputeDesired | internal/otel/runtime.go:215-252 | exactly the declared names, each with the help text declared first in snapshot order |
| Families.DeclaredIsDesired | internal/otel/runtime.go:223-248 | every family of every generator of the snapshot has its effective name desired |
| Observe.StoppedMeansBudgetError | internal/otel/runtime.go:458-469 | a build was stopped exactly when one of its errors is a budget error, which is how the callback notices |
| Observe.FamilyCallback.ObserveGenerator | internal/otel/runtime.go:404-469 | skips what cannot contribute, and otherwise observes the build's measurements under the family's name |
| Observe.FamilyCallback.ObserveFamily | internal/otel/runtime.go:368-473 | the callback performs the budgeted run over all control planes that are up, policies and generators, one budget for all, with no more evaluations than it allows; at most one budget error, last, exactly when it stops |
| Observe.ByGVR | internal/otel/runtime.go:394-397 | every resource has the objects of its last list, and none if it is not listed |
| Coverage.FamilyObservesItsName | internal/otel/runtime.go:430-443 | without a budget a callback observes exactly the emissions under its name, in order |
| ObserveMeaning.FamilyMeans | internal/otel/runtime.go:380-469 | the unbudgeted callback builds every generator of every policy on every control plane that is up, over the last list of its resource, and observes the measurements that have its name, with the control plane and the labels |
| ObserveMeaning.EmissionsMean | internal/otel/runtime.go:380-443 | the emissions are all measurements of all generators on all control planes that are up, in order, under their effective names |
| ObserveMeaning.NamedMeans | internal/otel/runtime.go:435-438 | the emissions under a name are those with this name, in order |
| Coverage.EmissionsHaveFamilies | internal/otel/runtime.go:215-252 | every emission has an effective name that the synchronised families include |
| Coverage.EveryEmissionObservedOnce | internal/otel/runtime.go:430-443 | counted over the desired names, the emissions under each name are all emissions |
| Coverage.BudgetedObservationsArePrefix | internal/otel/runtime.go:372-378 | a callback observes a prefix of the emissions under its name, and all of them unless its budget stops it |
| Coverage.DownContributesNothing | internal/otel/runtime.go:383-389 | a control plane that is down changes no observation |
| Collection.ObserveOne | internal/otel/runtime.go:368-473 | one invocation of a callback, with a budget of its own, observes what is described, up to where the budget refuses an evaluation: a prefix of its emissions, and all of them if the budget is ample |
| Collection.TimesSplit | internal/otel/runtime.go:266-299 | an emission is observed once by the callback of its entry, if there is one, and once more by every callback of its name that failed to unregister |
| Collection.OnceUnlessRepeated | internal/otel/runtime.go:266-299 | with the families in place everything is observed exactly once if and only if no emission has the name of a callback that failed to unregister |
| Collection.OnceOverRuns | internal/otel/runtime.go:266-337 | after a round without failures, in any run, everything is observed exactly once if and only if no round so far gave up a callback for the name of an emission that did not unregister |
| Collection.DriftRepeats | internal/otel/runtime.go:288-299 | a help text drifts, the old callback does not unregister, the synchronisation succeeds, and everything is observed twice |
| Collection.Collect | internal/otel/runtime.go:381-443 | every registered family callback is called, those without an entry included; unless a budget runs out, every emission is observed once by each callback of its name, and never more often |
| Collection.SyncAndCollect | internal/otel/runtime.go:260-338 | the number of observations after any synchronisation when no budget runs out; after one without failure it is that of the emissions if and only if no callback that failed to unregister repeats one, and so it is if everything unregisters |
| RuntimeSync.Runtime.constructor | internal/otel/runtime.go:167-203 | a runtime starts with the callback of its up/down gauge and no family |
| RuntimeSync.Runtime.DropStale | internal/otel/runtime.go:266-279 | families no longer desired lose their entry, and their callback unless it fails to unregister |
| RuntimeSync.Runtime.CreateMissing | internal/otel/runtime.go:281-337 | new and drifted families get an entry with a fresh callback unless creation fails, which the first error reports |
| RuntimeSync.Runtime.Sync | internal/otel/runtime.go:260-338 | the new families and callbacks for every pattern of failures; no error exactly when nothing failed |
| RuntimeSync.FamiliesOverRuns | internal/otel/runtime.go:255-259 | after any round of any run a family has an entry if and only if some round could make its instrument and all since have wanted it unchanged; its help text is the one wanted |
| RuntimeSync.LeaksOverRuns | internal/otel/runtime.go:270-275 | a live callback without an owner was given up by a round in which it did not unregister |
| RuntimeSync.GivenUpStays | internal/otel/runtime.go:270-275 | and such a callback stays live, without an owner, for the rest of the run |
| RuntimeSync.CallbacksOverRuns | internal/otel/runtime.go:266-337 | while everything unregisters, the live callbacks after every round are those of the entries and of the up/down gauge |
| RuntimeSync.SyncedCallbacks | internal/otel/runtime.go:266-337 | when everything unregisters, the live callbacks are those of the entries and the up/down gauge |
| RuntimeSync.SecondSyncChangesNothing | internal/otel/runtime.go:283-287 | after a successful synchronisation the same snapshot changes no family and no callback |
| RuntimeSync.Runtime.Shutdown | internal/otel/runtime.go:508-528 | no entry is left, no callback that unregistered, and failure is reported exactly when one did not |
| StringOrder.SameElements | internal/collector/collector.go:225-228 | a strictly sorted list is determined by its elements |
| StringOrder.LessMeans | internal/collector/collector.go:225-228 | strings are ordered by their first difference, a prefix first |
| StringOrder.SortedAndCompacted | internal/collector/collector.go:225-228 | sorting and compacting gives the elements in strict order |
| StringOrder.BinarySearch | internal/collector/collector.go:359 | in a sorted list the search finds a string if and only if it is there |
| StringOrder.Subset | internal/collector/collector.go:355-364 | true if and only if every element is in the sorted second list |
| Desired.DesiredGVRs | internal/collector/collector.go:206-230 | exactly the referenced resources, each with exactly the required fields, strictly sorted |
| Desired.SnapshotOrderIrrelevant | internal/collector/collector.go:209-224 | the order in which the registry lists its policies does not matter |
| Desired.DesiredCovers | internal/collector/collector.go:213-223 | every generator finds its resource and all its required fields |
| Informers.RunKeepsInv | internal/collector/collector.go:236-337 | every interleaving of watch events, with any number of objects on their way to a cache, and reconcile steps keeps caches faithful, field lists sorted and informers owned once |
| Informers.CachedAgrees | internal/collector/collector.go:366-379 | a cached object reads like its source on every published and every identity path |
| InformerHistory.RunHistory | internal/collector/collector.go:366-379 | over every run from the beginning: a key is cached if and only if an object observed under it was stored and nothing since stored or forgot the key, and then it holds that object, trimmed to the fields published when it was observed; what is on its way is what was observed and not yet stored |
| InformerHistory.CachedAsObserved | internal/collector/collector.go:366-379 | so what a cached object answers on published and identity paths is what the object observed answers |
| Informers.OneOwnerBetweenPasses | internal/collector/collector.go:297-336 | between passes every running informer is in exactly one entry of the map |
| Informers.FieldsOnlyShrink | internal/collector/collector.go:268-279 | over any run the published fields of a running informer only shrink |
| Informers.EntryStays | internal/collector/collector.go:318-336 | a resource that every pass wants stays in the map: once synced it stays synced, once denied it stays denied |
| Collector.Collector.Plan | internal/collector/collector.go:250-289 | narrower field lists are published in place; what is missing and what widened is listed |
| Collector.Collector.RemoveStale | internal/collector/collector.go:290-309 | entries that are not desired are gone and stopped; the others are untouched |
| Collector.Collector.StartInformer | internal/collector/collector.go:381-479 | a fresh running informer, a denial or nothing, with nothing left running unless synced |
| Collector.Collector.Add | internal/collector/collector.go:312-321 | the entry of a new resource is what its attempt gave |
| Collector.Collector.Interleave | internal/collector/collector.go:370-379 | each watch event of the list that can happen when its turn comes happens and is recorded, the others do not, and only caches change |
| Collector.Collector.Swap | internal/collector/collector.go:327-336 | the new informer takes the entry before the old one stops |
| Collector.Collector.Rebuild | internal/collector/collector.go:327-336 | the old informer serves until the new one is installed, and stays when the attempt fails |
| Collector.Collector.Reconcile | internal/collector/collector.go:236-337 | for every snapshot, outcome and watch events: what each desired resource has in the end, and nothing else is in the map |
| Collector.SecondPassChangesNothing | internal/collector/collector.go:232-235 | a resource served with what is desired, or denied, is left alone by the next pass |
| Collector.ServedUnlessFailed | internal/collector/collector.go:318-336 | exactly when a resource is served with its desired fields after a pass |
| CachedBuild.Collect | internal/collector/collector.go:491-517 | every synced informer once, with each cached object once, and nothing of a denied resource |
| CachedBuild.CacheStandsForSource | internal/collector/collector.go:366-379 | a generator whose required fields are published makes from the cache exactly what it would make from the objects themselves |
| CachedBuild.CacheStandsForObserved | internal/collector/collector.go:366-379 | the same, in terms of the objects observed last, over every run |
| CachedBuild.ServedIsEnough | internal/collector/collector.go:265-279 | a resource served with what a snapshot desires publishes the required fields of all its generators |
| CachedBuild.CompiledGeneratorStandsForSource | internal/policy/compile.go:149-159 | the same from the specification of a generator whose expressions are in the fragment |
| Fleet.RunKeepsInv | internal/collector/manager.go:43-112 | every interleaving of calls, wakes and passes keeps the map sound, every started collector owned, and every change announced |
| Fleet.NoRegistryChangeLost | internal/collector/manager.go:76-78 | once all calls are over, a collector of the map with no pass coming has read the newest registry |
| Fleet.RunningAreRegistered | internal/collector/manager.go:64-75 | once all calls are over, the collectors never stopped are exactly those of the map |
| Fleet.OneCollectorPerCluster | internal/collector/manager.go:43-52 | at any moment a cluster name has at most one collector, running and its own |
| Fleet.LastWakeIsNeeded | internal/collector/manager.go:78 | without the wake after the insertion a registry change could be lost |
| Manager.ClusterManager.Engage | internal/collector/manager.go:43-81 | keeps and wakes the collector that the check found, or inserts and wakes a new one, or stops it and wakes the one that was first, or fails to build |
| Manager.ClusterManager.Insert | internal/collector/manager.go:64-78 | the started collector is inserted and woken if the name was free under the lock, and otherwise stopped and the other one woken |
| Manager.ClusterManager.Disengage | internal/collector/manager.go:85-102 | the collector found under the lock is taken out of the map and is stopped at the end; without one nothing happens |
| Manager.ClusterManager.WakeAll | internal/collector/manager.go:106-112 | wakes every collector that was in the map when the read lock was taken |
| Sanitize.SanitizeLabelValue | internal/policy/cel.go:525-572 | cleaned and cut at a character boundary; the hook fires if and only if the output differs from the input |
| Sanitize.SanitizedOnce | internal/policy/cel.go:525-572 | the contract determines the result |
| Sanitize.PrefixValid | internal/policy/cel.go:557-566 | in valid UTF-8 a prefix is valid if and only if the next byte does not continue a character |
| Sanitize.CleanKeepsUtf8 | internal/policy/cel.go:542-555 | replacing control bytes neither makes nor breaks valid UTF-8 |
| Sanitize.LongestValidPrefix | internal/policy/cel.go:516-524 | for valid UTF-8 the result is the longest valid prefix, within the limit, of the cleaned input |
| Sanitize.SanitizeTwice | internal/policy/cel.go:525-572 | sanitizing again changes nothing, for all bytes |
| Compile.GeneratorCompiler.CompileMetric | internal/policy/compile.go:98-124 | drops a metric whose forEach or value fails, still trying its labels in the second case |
| Compile.GeneratorCompiler.CompileLabels | internal/policy/compile.go:136-145 | tries every label and keeps those that compile |
| Compile.GeneratorCompiler.CompileFamily | internal/policy/compile.go:82-94 | adds the family with the metrics that survived |
| Compile.CompilePolicy | internal/policy/compile.go:17-63 | one slot per generator and every error, in order |
| Compile.EveryAttemptCounted | internal/policy/compile.go:149-164 | attempts are successes plus errors |
| Compile.EmptySlot | internal/policy/compile.go:48-60 | a slot is empty if and only if something was tried and everything failed |
| Compile.SlotsAligned | internal/policy/compile.go:55-57 | slots line up with the generators of the policy |
| CompileMeaning.PolicyMeans | internal/policy/compile.go:17-63 | read off the specification: what is tried in every metric and in what order, one error for each rejection with its place, an empty slot exactly when something was tried and nothing compiled, and otherwise every family with the metrics and labels that compile, under their own names |
| CompileMeaning.MetricsAreKept | internal/policy/compile.go:98-145 | a metric is kept with the programs of its forEach, its value and the labels that compile, unless its forEach or value does not |
| Compile.SurvivorsAreSpecified | internal/policy/compile.go:110-121 | a metric publishes the default value only if its specification sets none: one whose value failed to compile is gone |
| Compile.RequiredFieldsCoverSurvivors | internal/policy/compile.go:149-159 | the required fields of every program a generator kept are among the required fields of the generator |
| Compile.SurvivorsWithin | internal/policy/compile.go:149-159 | a generator whose expressions are in the fragment, where they compile, keeps only programs that its required fields are enough for |
| Compile.BareRootIsOutside | internal/policy/cel.go:264-272 | a generator that compiles an expression with the bare object as an argument is outside the fragment |
| Compile.NoErrorsAllActive | internal/policy/compile.go:48-61 | without a compile error every generator is active |
| Permissions.AggregateMissingPermissions | internal/controller/custom_resource_metrics_controller.go:327-376 | exactly the resources referenced and denied somewhere, each once, strictly sorted |
| Permissions.OrderedOnce | internal/controller/custom_resource_metrics_controller.go:321-326 | such a list is determined by its elements |
| Permissions.SameDenialsSameList | internal/controller/custom_resource_metrics_controller.go:321-326 | repeated reconciles over the same denials report the same list, in whatever order the control planes come |
| Controller.Registry.Upsert | internal/policy/registry.go:35-43 | stores what compiled, under the policy's name, and nothing else changes |
| Controller.Registry.Delete | internal/policy/registry.go:47-51 | removes the policy, if present |
| Controller.Registry.Snapshot | internal/policy/registry.go:56-65 | every policy in effect, once |
| Controller.PolicyReconciler.Announce | internal/controller/custom_resource_metrics_controller.go:121-132 | the instruments follow the registry as it is after the change, and then every collector in the map is woken |
| Controller.PolicyReconciler.Reconcile | internal/controller/custom_resource_metrics_controller.go:69-217 | effects for a live, a deleted, an unreadable and a foreign policy, and the status of a live one |
| Controller.ReadyMeansWorking | internal/controller/custom_resource_metrics_controller.go:160-163 | ready if and only if there is a generator, everything compiled, nothing read is denied and the instruments are in place; then all generators are active |
| Controller.StatusReports | internal/controller/custom_resource_metrics_controller.go:134-217 | every number and condition of the status, in terms of what compiled, what is read and what is denied |
| Controller.ActiveIs | internal/controller/custom_resource_metrics_controller.go:134-142 | the active generators are the slots that are taken |

## Left out

- Kubernetes clients, dynamic informers, access reviews and probe lists: an attempt to start an informer ends synced, denied or given up.
- Parsing, type checking, cost limits, timeouts and panic recovery of CEL: the compiler is an oracle, and calls, literals, the elements of a range and selects on values that are not maps have no fixed meaning.
- Numeric and text coercions of results: an oracle of the evaluator.
- Expressions that use `object` other than under a select, or select from a map, list or message literal, a constant or a comprehension: the pushdown theorem is not about them.
- A comprehension variable named `object`: its paths are required as if they were paths of the object, which only keeps more.
- Values that are not maps in the middle of a required path: the pushdown of whole expressions is not about objects that have them, since their presence tests depend on the CEL runtime.
- The OpenTelemetry SDK, gRPC, and the counters of the controller itself: only instruments, registrations, observations and calls remain.
- Overflow of `int`, `int32` and `int64` counts and sizes: unbounded integers stand for them.
- Sharing between the source and its slices: a request is a value, so the capacity limit of `points[start:end:end]` has no counterpart.
- Exact wire sizes of fields that the estimate does not look at, such as scales, offsets and extrema: they count at their largest width, and floats as fixed-width fields. Requests of 2^28 bytes or more.
- The float64 and int64 variants of an aggregation: one constructor stands for both, as the estimates do not tell them apart.
- Default values of the cycle budget (`internal/otel/runtime.go:148-158`): the limits are parameters.
- The up/down gauge's own callback, and how a control plane comes to be up: an input of the family callbacks.
- Overlapping `Sync` calls and overlapping upserts of one policy: both compute before they take the lock.
- Time limits of stopping a collector, and cancellation of parent contexts: stopping is one step, and only Stop stops.
- The start of a collector, which can fail only when called twice: a built collector starts.
- Repeated delivery of an object that is already cached without a change: it would be trimmed again, to the same or less.
- Reasons and messages of conditions, and the patch of the status that is skipped when nothing changed: the status is returned.
- Main program, configuration, leader election, rendering and redaction.
- The standard library's sort, compact and binary search are written out here, with the same results.
- What a denied or dropped resource once cached: nothing is claimed about a resource after a pass that did not want it.
- Progress, such as that a pending wake is served in the end: only what holds once everything has come to rest.
