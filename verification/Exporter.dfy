// The exporter wrapper: every request is sent, whatever fails, and the error joins every failure.
module Exporter {
  import opened MetricData
  import opened Sums
  import opened SizeEstimate
  import opened UnitStream
  import opened Splitter
  import opened SplitProperties

  const DEFAULT_MAX_EXPORT_REQUEST_BYTES := 0x40_0000

  datatype Outcome = Sent | Failed(code: int)

  /** The wrapped exporter: records every request and answers call number `n` with `answer(n)`. */
  class Downstream {
    const answer: nat -> Outcome
    var calls: seq<ResourceMetrics>

    constructor (answer: nat -> Outcome)
      ensures this.answer == answer && calls == []
    {
      this.answer := answer;
      calls := [];
    }

    method Export(rm: ResourceMetrics) returns (outcome: Outcome)
      modifies this
      ensures calls == old(calls) + [rm] && outcome == answer(|old(calls)|)
    {
      outcome := answer(|calls|);
      calls := calls + [rm];
    }
  }

  datatype RequestFailure = RequestFailure(index: nat, points: nat, code: int)

  datatype ExportError = NoError | Single(code: int) | Joined(failures: seq<RequestFailure>, total: nat)

  /** The failures among the first `n` of `batches`, sent from call number `first` on. */
  function FailuresOf(answer: nat -> Outcome, first: nat, batches: seq<ResourceMetrics>, n: nat): seq<RequestFailure>
    requires n <= |batches|
  {
    if n == 0 then []
    else
      FailuresOf(answer, first, batches, n - 1) +
      match answer(first + n - 1)
      case Sent => []
      case Failed(code) => [RequestFailure(n, UnitCount(batches[n - 1]), code)]
  }

  lemma {:induction false} NoFailureMeansAllSent(
    answer: nat -> Outcome, first: nat, batches: seq<ResourceMetrics>, n: nat)
    requires n <= |batches|
    ensures FailuresOf(answer, first, batches, n) == [] <==> forall k | first <= k < first + n :: answer(k) == Sent
    decreases n
  {
    if n > 0 {
      NoFailureMeansAllSent(answer, first, batches, n - 1);
    }
  }

  /** The failure of batch `k`, counted from 1, with the units in its tree and the code of the answer. */
  predicate FailureIs(answer: nat -> Outcome, first: nat, batches: seq<ResourceMetrics>, k: nat, f: RequestFailure)
    requires k < |batches|
  {
    && answer(first + k).Failed?
    && f == RequestFailure(k + 1, |RequestRecords(batches[k])|, answer(first + k).code)
  }

  /** These are failures of these batches, in order. */
  ghost predicate FailuresAt(
    answer: nat -> Outcome, first: nat, batches: seq<ResourceMetrics>, n: nat, places: seq<nat>,
    failures: seq<RequestFailure>)
    requires n <= |batches|
  {
    && |places| == |failures| && (forall i, j | 0 <= i < j < |places| :: places[i] < places[j])
    && forall i | 0 <= i < |places| :: places[i] < n && FailureIs(answer, first, batches, places[i], failures[i])
  }

  lemma {:induction false} NextFailure(
    answer: nat -> Outcome, first: nat, batches: seq<ResourceMetrics>, n: nat, places: seq<nat>,
    failures: seq<RequestFailure>, f: RequestFailure)
    requires n < |batches| && FailuresAt(answer, first, batches, n, places, failures)
    ensures FailuresAt(answer, first, batches, n + 1, places, failures)
    ensures FailureIs(answer, first, batches, n, f) ==>
              FailuresAt(answer, first, batches, n + 1, places + [n], failures + [f])
  {
    hide FailureIs;
  }

  lemma {:induction false} NoFailures(answer: nat -> Outcome, first: nat, batches: seq<ResourceMetrics>)
    ensures FailuresAt(answer, first, batches, 0, [], FailuresOf(answer, first, batches, 0))
  {}

  /** What the answer to batch `k` adds. */
  lemma {:induction false} LastFailure(answer: nat -> Outcome, first: nat, batches: seq<ResourceMetrics>, k: nat)
    returns (f: RequestFailure)
    requires k < |batches|
    ensures answer(first + k).Failed? ==> FailureIs(answer, first, batches, k, f)
    ensures FailuresOf(answer, first, batches, k + 1)
         == if answer(first + k).Failed? then FailuresOf(answer, first, batches, k) + [f]
            else FailuresOf(answer, first, batches, k)
  {
    RecordCount(batches[k]);
    hide RequestRecords, UnitCount;
    assert first + (k + 1) - 1 == first + k;
    f := RequestFailure(k + 1, UnitCount(batches[k]), if answer(first + k).Failed? then answer(first + k).code else 0);
  }

  /** Every failed answer is at one of the places. */
  predicate FailedWithin(answer: nat -> Outcome, first: nat, n: nat, places: seq<nat>) {
    forall k | 0 <= k < n && answer(first + k).Failed? :: k in places
  }

  lemma {:induction false} WithinNext(answer: nat -> Outcome, first: nat, n: nat, places: seq<nat>)
    requires FailedWithin(answer, first, n, places)
    ensures FailedWithin(answer, first, n + 1, if answer(first + n).Failed? then places + [n] else places)
  {
    if answer(first + n).Failed? {
      assert (places + [n])[|places|] == n;
    }
  }

  /** One failure for every batch that was answered with one, in order. */
  lemma {:induction false} FailuresMean(answer: nat -> Outcome, first: nat, batches: seq<ResourceMetrics>, n: nat)
    returns (places: seq<nat>)
    requires n <= |batches|
    ensures FailuresAt(answer, first, batches, n, places, FailuresOf(answer, first, batches, n))
    ensures FailedWithin(answer, first, n, places)
    decreases n
  {
    if n == 0 {
      NoFailures(answer, first, batches);
      return [];
    }
    hide FailureIs, FailuresAt, FailuresOf, FailedWithin;
    var k := n - 1;
    var f := LastFailure(answer, first, batches, k);
    places := FailuresMean(answer, first, batches, k);
    WithinNext(answer, first, k, places);
    NextFailure(answer, first, batches, k, places, FailuresOf(answer, first, batches, k), f);
    places := if answer(first + k).Failed? then places + [k] else places;
  }

  function ScopeUnitCount(sm: ScopeMetrics): nat {
    |ScopeItems(sm)|
  }

  lemma {:induction false} CountScopes(scopes: seq<ScopeMetrics>)
    ensures |Items(scopes)| == SumBy(ScopeUnitCount, scopes)
  {
    hide ScopeItems;
    if scopes != [] {
      CountScopes(scopes[1..]);
    }
  }

  method ResourceDataPoints(rm: ResourceMetrics) returns (n: nat)
    ensures n == UnitCount(rm)
  {
    hide MetricItems;
    n := 0;
    for i := 0 to |rm.scopeMetrics|
      invariant n == SumBy(ScopeUnitCount, rm.scopeMetrics[..i])
    {
      var sm := rm.scopeMetrics[i];
      ghost var before := n;
      SumBySnoc(ScopeUnitCount, rm.scopeMetrics, i);
      for j := 0 to |sm.metrics|
        invariant n == before + |BareItems(sm.scope, sm.metrics[..j])|
      {
        assert sm.metrics[..j + 1] == sm.metrics[..j] + [sm.metrics[j]];
        BareItemsSnoc(sm.scope, sm.metrics[..j], sm.metrics[j]);
        var sizes := DataPointSizes(sm.metrics[j].data);
        n := n + |sizes|;
      }
      assert sm.metrics[..|sm.metrics|] == sm.metrics;
    }
    CountScopes(rm.scopeMetrics);
    assert rm.scopeMetrics[..|rm.scopeMetrics|] == rm.scopeMetrics;
  }

  class SplittingExporter {
    const next: Downstream
    const maxBytes: int

    constructor (next: Downstream, maxBytes: int)
      ensures this.next == next
      ensures this.maxBytes == if maxBytes <= 0 then DEFAULT_MAX_EXPORT_REQUEST_BYTES else maxBytes
    {
      this.next := next;
      this.maxBytes := if maxBytes <= 0 then DEFAULT_MAX_EXPORT_REQUEST_BYTES else maxBytes;
    }

    /** Sends `rm` unchanged when one request is enough, and otherwise every batch of its greedy division. */
    method Export(rm: ResourceMetrics)
      returns (error: ExportError, ghost batches: seq<ResourceMetrics>)
      modifies next
      ensures SplitsGreedily(rm, maxBytes, batches)
      ensures next.calls == old(next.calls) + RequestsFor(rm, batches)
      ensures AllFit(next.calls[|old(next.calls)|..], maxBytes) <==> Fittable(rm, maxBytes)
      ensures FlatMap(RequestRecords, next.calls[|old(next.calls)|..]) == RequestRecords(rm)
      ensures error == NoError <==>
              forall n | |old(next.calls)| <= n < |next.calls| :: next.answer(n) == Sent
      ensures |batches| <= 1 ==>
              error == match next.answer(|old(next.calls)|) case Sent => NoError case Failed(code) => Single(code)
      ensures |batches| > 1 && error != NoError ==>
              error == Joined(FailuresOf(next.answer, |old(next.calls)|, batches, |batches|), |batches|)
    {
      hide SplitsGreedily, Items, AllFit, Fittable, RequestRecords, FlatMap;
      var requests := SplitResourceMetrics(rm, maxBytes);
      batches := requests;
      SentFits(rm, maxBytes, batches);
      SentRecords(rm, maxBytes, batches);
      if |requests| <= 1 {
        var outcome := next.Export(rm);
        error := match outcome case Sent => NoError case Failed(code) => Single(code);
        assert next.calls[|old(next.calls)|..] == [rm];
        return;
      }
      var failures := [];
      ghost var first := |next.calls|;
      for i := 0 to |requests|
        invariant next.calls == old(next.calls) + requests[..i]
        invariant failures == FailuresOf(next.answer, first, requests, i)
      {
        var outcome := next.Export(requests[i]);
        assert requests[..i + 1] == requests[..i] + [requests[i]];
        if outcome.Failed? {
          var points := ResourceDataPoints(requests[i]);
          failures := failures + [RequestFailure(i + 1, points, outcome.code)];
        }
      }
      assert requests[..|requests|] == requests;
      NoFailureMeansAllSent(next.answer, first, requests, |requests|);
      assert next.calls[|old(next.calls)|..] == requests;

      error := if failures == [] then NoError else Joined(failures, |requests|);
    }
  }
}
