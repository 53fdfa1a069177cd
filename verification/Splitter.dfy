// The greedy splitter: one pass over the units, closing a request when the next unit does not fit.
module Splitter {
  import opened MetricData
  import opened Sums
  import opened SizeEstimate
  import opened UnitStream

  /** The metric with only its units [start, end). Aggregations that cannot be sliced are returned whole. */
  function WithDataPoints(m: Metrics, start: nat, end: nat): (r: Metrics)
    requires start <= end <= |Units(m.data)|
  {
    m.(data := match m.data
               case Gauge(points) => Gauge(points[start..end])
               case Sum(points, temporality, monotonic) => Sum(points[start..end], temporality, monotonic)
               case Histogram(points, temporality) => Histogram(points[start..end], temporality)
               case whole => whole)
  }

  /** What a request may carry: at most one unit, or anything whose estimate fits. */
  predicate Acceptable(resource: Resource, maxBytes: int, part: seq<Item>) {
    |part| <= 1 || Cost(resource, part) <= maxBytes
  }

  /** The request `rm` is exactly the run of units `part`, sent on its own. */
  predicate Carries(rm: ResourceMetrics, resource: Resource, part: seq<Item>) {
    rm.resource == resource && Full(rm.scopeMetrics) && Items(rm.scopeMetrics) == Restart(part)
  }

  /** No part could also have taken the first unit of the next one. */
  predicate Maximal(resource: Resource, maxBytes: int, parts: seq<seq<Item>>) {
    forall i | 0 < i < |parts| :: parts[i] != [] && Cost(resource, parts[i - 1] + [parts[i][0]]) > maxBytes
  }

  // ---- The stream of one metric inside its scope ----

  function MetricStream(scope: Scope, before: seq<Metrics>, m: Metrics): seq<Item> {
    if BareItems(scope, before) == [] then OpenScope(MetricItems(scope, m)) else MetricItems(scope, m)
  }

  lemma {:induction false} ScopeItemsSnoc(scope: Scope, before: seq<Metrics>, m: Metrics)
    ensures ScopeItems(ScopeMetrics(scope, before + [m]))
         == ScopeItems(ScopeMetrics(scope, before)) + MetricStream(scope, before, m)
  {
    hide MetricItems, BareItems;
    BareItemsSnoc(scope, before, m);
  }

  /** `stream` is the part of the source stream that metric `m` contributes. */
  predicate StreamOf(stream: seq<Item>, scope: Scope, m: Metrics) {
    stream == MetricItems(scope, m) || stream == OpenScope(MetricItems(scope, m))
  }

  lemma {:induction false} MetricStreamFlags(scope: Scope, before: seq<Metrics>, m: Metrics)
    ensures var stream := MetricStream(scope, before, m);
            && StreamOf(stream, scope, m) && |stream| == |MetricItems(scope, m)|
            && (stream != [] ==> stream[0].opensScope == (BareItems(scope, before) == []))
  {}

  lemma {:induction false} StreamLength(stream: seq<Item>, scope: Scope, m: Metrics)
    requires StreamOf(stream, scope, m)
    ensures |stream| == |Units(m.data)|
  {}

  lemma {:induction false} StreamAt(stream: seq<Item>, scope: Scope, m: Metrics, i: nat)
    requires StreamOf(stream, scope, m) && i < |stream|
    ensures |stream| == |Units(m.data)|
    ensures stream[i] == Item(scope, Shell(m), Units(m.data)[i], i == 0 && stream[0].opensScope, i == 0)
  {}

  lemma {:induction false} SliceItems(stream: seq<Item>, scope: Scope, m: Metrics, start: nat, end: nat)
    requires StreamOf(stream, scope, m) && start < end <= |stream| == |Units(m.data)|
    ensures var slice := WithDataPoints(m, start, end);
            && Units(slice.data) != []
            && MetricItems(scope, slice)
            == [stream[start].(opensMetric := true, opensScope := false)] + stream[start + 1..end]
  {
    var slice := WithDataPoints(m, start, end);
    assert Shell(slice) == Shell(m);
    assert Units(slice.data) == Units(m.data)[start..end];
    forall i | start <= i < end
      ensures stream[i].(opensMetric := i == start, opensScope := false) == MetricItems(scope, slice)[i - start]
    {
      hide Units, Shell, WithDataPoints;
      StreamAt(stream, scope, m, i);
    }
    forall i | start < i < end
      ensures stream[i] == MetricItems(scope, slice)[i - start]
    {
      hide Units, Shell, WithDataPoints;
      StreamAt(stream, scope, m, i);
    }
  }

  // ---- What a chunk of one metric adds to the open request ----

  function ChunkCost(scope: Scope, m: Metrics, scopeOpen: bool, sizes: seq<nat>): nat {
    MetricHeader(m) + (if scopeOpen then 0 else ScopeHeader(scope)) + Total(sizes)
  }

  /** The flags of the next chunk agree with what is open: a fresh request, the same scope, or a new scope. */
  predicate Joins(open: seq<Item>, scopeOpen: bool, stream: seq<Item>, start: nat)
    requires start < |stream|
  {
    && (open == [] ==> !scopeOpen)
    && (open != [] ==> start == 0 && stream[0].opensScope == !scopeOpen)
  }

  lemma {:induction false} JoinsStart(open: seq<Item>, stream: seq<Item>, start: nat)
    requires start < |stream| && Joins(open, true, stream, start)
    ensures open != [] && start == 0
  {}

  lemma {:induction false} JoinsFresh(stream: seq<Item>, start: nat)
    requires start < |stream|
    ensures Joins([], false, stream, start)
  {}

  predicate SizesOf(sizes: seq<nat>, m: Metrics) {
    |sizes| == |Units(m.data)| && forall i | 0 <= i < |sizes| :: sizes[i] == UnitSize(Units(m.data)[i])
  }

  lemma {:induction false} RestartAppend(open: seq<Item>, chunk: seq<Item>)
    ensures Restart(open + chunk) == if open == [] then Restart(chunk) else Restart(open) + chunk
  {
    if open == [] {
      assert open + chunk == chunk;
    } else {
      assert (open + chunk)[1..] == open[1..] + chunk;
    }
  }

  lemma {:induction false} UnitSizesOfChunk(
    scope: Scope, m: Metrics, stream: seq<Item>, sizes: seq<nat>, lo: nat, hi: nat)
    requires StreamOf(stream, scope, m) && SizesOf(sizes, m) && 0 < lo <= hi <= |sizes| == |stream|
    ensures SumBy(ItemCost, stream[lo..hi]) == Total(sizes[lo..hi])
    decreases hi - lo
  {
    hide UnitSize, Units, StreamOf;
    if lo < hi {
      UnitSizesOfChunk(scope, m, stream, sizes, lo + 1, hi);
      StreamAt(stream, scope, m, lo);
      assert stream[lo..hi][1..] == stream[lo + 1..hi] && sizes[lo..hi][1..] == sizes[lo + 1..hi];
      assert ItemCost(stream[lo]) == sizes[lo];
    }
  }

  lemma {:induction false} ShellHeader(m: Metrics)
    ensures MetricHeader(Shell(m)) == MetricHeader(m)
  {}

  lemma {:induction false} CostOfChunk(resource: Resource, scope: Scope, m: Metrics, open: seq<Item>, scopeOpen: bool,
                    stream: seq<Item>, sizes: seq<nat>, start: nat, end: nat)
    requires StreamOf(stream, scope, m) && SizesOf(sizes, m)
    requires start < end <= |stream| == |sizes| && Joins(open, scopeOpen, stream, start)
    ensures Cost(resource, open + stream[start..end])
         == Cost(resource, open) + ChunkCost(scope, m, scopeOpen, sizes[start..end])
  {
    hide UnitSize, Units, StreamOf, Shell, MetricHeader, ScopeHeader;
    var chunk := stream[start..end];
    RestartAppend(open, chunk);
    StreamAt(stream, scope, m, start);
    UnitSizesOfChunk(scope, m, stream, sizes, start + 1, end);
    ShellHeader(m);
    assert chunk[1..] == stream[start + 1..end] && sizes[start..end][1..] == sizes[start + 1..end];
    if open == [] {
      assert Restart(chunk)[1..] == chunk[1..];
      assert ItemCost(Restart(chunk)[0]) == sizes[start] + MetricHeader(m) + ScopeHeader(scope);
    } else {
      SumByAppend(ItemCost, Restart(open), chunk);
      assert ItemCost(chunk[0]) == sizes[0] + MetricHeader(m) + (if scopeOpen then 0 else ScopeHeader(scope));
    }
  }

  lemma {:induction false} ScopeOfSlice(stream: seq<Item>, scope: Scope, m: Metrics, start: nat, end: nat)
    requires StreamOf(stream, scope, m) && start < end <= |stream| == |Units(m.data)|
    ensures ScopeItems(ScopeMetrics(scope, [WithDataPoints(m, start, end)])) == Restart(stream[start..end])
  {
    hide Units, StreamOf, Shell, WithDataPoints, MetricItems;
    var slice := WithDataPoints(m, start, end);
    BareItemsSnoc(scope, [], slice);
    assert [] + [slice] == [slice];
    SliceItems(stream, scope, m, start, end);
    StreamAt(stream, scope, m, start);
    assert stream[start..end][1..] == stream[start + 1..end];
  }

  /** A chunk that starts a scope of its own in the request. */
  lemma {:induction false} AppendScope(scopes: seq<ScopeMetrics>, scope: Scope, m: Metrics, open: seq<Item>,
                                       stream: seq<Item>, start: nat, end: nat)
    requires StreamOf(stream, scope, m)
    requires start < end <= |stream| == |Units(m.data)| && Joins(open, false, stream, start)
    requires Items(scopes) == Restart(open)
    ensures Items(scopes + [ScopeMetrics(scope, [WithDataPoints(m, start, end)])]) == Restart(open + stream[start..end])
  {
    hide Units, StreamOf, Shell, WithDataPoints, MetricItems, ScopeItems;
    var slice := WithDataPoints(m, start, end);
    FlatMapSnoc(ScopeItems, scopes, ScopeMetrics(scope, [slice]));
    ScopeOfSlice(stream, scope, m, start, end);
    RestartAppend(open, stream[start..end]);
    if open != [] {
      StreamAt(stream, scope, m, start);
      assert stream[start..end] == Restart(stream[start..end]);
    }
  }

  lemma {:induction false} FullScopeItems(sm: ScopeMetrics)
    requires FullScope(sm)
    ensures BareItems(sm.scope, sm.metrics) != []
  {
    assert MetricItems(sm.scope, sm.metrics[0]) != [];
  }

  /** A chunk that joins the last scope of the request. */
  lemma {:induction false} AppendMetric(front: seq<ScopeMetrics>, last: ScopeMetrics, m: Metrics, open: seq<Item>,
                                        stream: seq<Item>, end: nat)
    requires StreamOf(stream, last.scope, m) && FullScope(last)
    requires 0 < end <= |stream| == |Units(m.data)| && open != [] && Joins(open, true, stream, 0)
    requires Items(front + [last]) == Restart(open)
    ensures Items(front + [last.(metrics := last.metrics + [WithDataPoints(m, 0, end)])])
        == Restart(open + stream[..end])
  {
    hide Units, StreamOf, Shell, WithDataPoints, MetricItems, Restart, ScopeItems, BareItems, FullScope;
    var slice := WithDataPoints(m, 0, end);
    var longer := last.(metrics := last.metrics + [slice]);
    FlatMapSnoc(ScopeItems, front, last);
    FlatMapSnoc(ScopeItems, front, longer);
    ScopeItemsSnoc(last.scope, last.metrics, slice);
    assert ScopeMetrics(last.scope, last.metrics) == last;
    FullScopeItems(last);
    SliceItems(stream, last.scope, m, 0, end);
    StreamAt(stream, last.scope, m, 0);
    RestartAppend(open, stream[..end]);
    assert MetricItems(last.scope, slice) == stream[..end];
    Assoc(Items(front), ScopeItems(last), stream[..end]);
  }

  lemma {:induction false} ItemsSnoc(scopes: seq<ScopeMetrics>, sm: ScopeMetrics)
    ensures Items(scopes + [sm]) == Items(scopes) + ScopeItems(sm)
  {
    FlatMapSnoc(ScopeItems, scopes, sm);
  }

  /** A greedy division of a unit stream: the contract of the splitter, in terms of the stream alone. */
  ghost predicate GreedyDivision(resource: Resource, maxBytes: int, stream: seq<Item>, parts: seq<seq<Item>>) {
    && Flatten(parts) == stream
    && (forall p | p in parts :: p != [] && Acceptable(resource, maxBytes, p))
    && Maximal(resource, maxBytes, parts)
  }

  /** The requests carry the parts of a greedy division. */
  ghost predicate Delivers(
    resource: Resource, maxBytes: int, stream: seq<Item>, batches: seq<ResourceMetrics>, parts: seq<seq<Item>>)
  {
    && |batches| == |parts| && (forall i | 0 <= i < |batches| :: Carries(batches[i], resource, parts[i]))
    && GreedyDivision(resource, maxBytes, stream, parts)
  }

  class Splitter {
    const maxBytes: int
    const resource: Resource
    const resourceSize: nat

    var batches: seq<ResourceMetrics>
    var cur: ResourceMetrics
    var curSize: nat
    var curPoints: nat

    /** The run of source units each closed request took, and the run the open one holds. */
    ghost var parts: seq<seq<Item>>
    ghost var open: seq<Item>

    ghost predicate Valid()
      reads this
    {
      && resourceSize == ResourceHeader(resource)
      && Carries(cur, resource, open) && curPoints == |open| && curSize == Cost(resource, open)
      && Acceptable(resource, maxBytes, open)
      && |batches| == |parts|
      && (forall i | 0 <= i < |parts| ::
            parts[i] != [] && Acceptable(resource, maxBytes, parts[i]) && Carries(batches[i], resource, parts[i]))
      && Maximal(resource, maxBytes, parts)
    }

    /** The units placed so far. */
    ghost function Placed(): seq<Item>
      reads this
    {
      Flatten(parts) + open
    }

    /** The next unit `it` did not fit the request closed last. */
    ghost predicate Overflowed(it: Item)
      reads this
    {
      parts != [] ==> Cost(resource, parts[|parts| - 1] + [it]) > maxBytes
    }

    constructor (maxBytes: int, resource: Resource)
      ensures Valid() && this.maxBytes == maxBytes && this.resource == resource
      ensures batches == [] && parts == [] && open == []
    {
      this.maxBytes, this.resource := maxBytes, resource;
      resourceSize := MESSAGE_OVERHEAD + ResourceSize(resource);
      batches, parts := [], [];
      cur, curSize, curPoints, open := ResourceMetrics(resource, []), MESSAGE_OVERHEAD + ResourceSize(resource), 0, [];
    }

    method Reset()
      requires resourceSize == ResourceHeader(resource)
      modifies this
      ensures open == [] && batches == old(batches) && parts == old(parts)
      ensures Carries(cur, resource, open) && curPoints == |open| && curSize == Cost(resource, open)
    {
      cur := ResourceMetrics(resource, []);
      curSize := resourceSize;
      curPoints := 0;
      open := [];
    }

    /** Closes the open request if it holds a unit. */
    method Flush()
      requires Valid() && (open != [] ==> Overflowed(open[0]))
      modifies this
      ensures Valid() && open == [] && Placed() == old(Placed())
      ensures parts == if old(open) == [] then old(parts) else old(parts) + [old(open)]
      ensures batches == if old(open) == [] then old(batches) else old(batches) + [old(cur)]
    {
      hide Items, Full, Cost, Restart, Flatten;
      if curPoints > 0 {
        FlattenSnoc(parts, open);
        batches := batches + [cur];
        parts := parts + [open];
      }
      Reset();
    }

    /** Closes the open request because it cannot take `it` as well. */
    method Close(ghost it: Item)
      requires Valid() && open != [] && Overflowed(open[0]) && Cost(resource, open + [it]) > maxBytes
      modifies this
      ensures Valid() && open == [] && parts != [] && Overflowed(it) && Placed() == old(Placed())
    {
      hide Valid, Placed, Cost;
      Flush();
    }

    /** How many units from `start` on the open request takes, and what they add to its size. */
    method Take(scope: Scope, m: Metrics, scopeOpen: bool, sizes: seq<nat>, start: nat, ghost stream: seq<Item>)
      returns (end: nat, need: nat)
      requires Valid() && StreamOf(stream, scope, m) && SizesOf(sizes, m)
      requires start < |sizes| == |stream| && Joins(open, scopeOpen, stream, start)
      ensures start <= end <= |sizes|
      ensures end == start ==> open != []
      ensures end > start ==> curSize + need == Cost(resource, open + stream[start..end])
      ensures end > start ==> Acceptable(resource, maxBytes, open + stream[start..end])
      ensures end < |sizes| ==> Cost(resource, open + stream[start..end + 1]) > maxBytes
    {
      hide Items, Full, Cost, Restart, Flatten, StreamOf, Joins, SizesOf, Maximal, ScopeHeader, MetricHeader;
      need := MetricHeader(m);
      if !scopeOpen {
        need := need + ScopeHeader(scope);
      }
      end := start;
      while end < |sizes|
        invariant start <= end <= |sizes|
        invariant need == ChunkCost(scope, m, scopeOpen, sizes[start..end])
        invariant end > start ==> Acceptable(resource, maxBytes, open + stream[start..end])
        invariant end > start ==> curSize + need == Cost(resource, open + stream[start..end])
      {
        CostOfChunk(resource, scope, m, open, scopeOpen, stream, sizes, start, end + 1);
        TotalSnoc(sizes[start..end], sizes[end]);
        assert sizes[start..end + 1] == sizes[start..end] + [sizes[end]];
        var fits := curSize + need + sizes[end] <= maxBytes;
        var alone := curPoints == 0 && end == start;
        if !fits && !alone {
          break;
        }
        need := need + sizes[end];
        end := end + 1;
      }
    }

    ghost predicate LastScopeIs(scope: Scope)
      reads this
    {
      cur.scopeMetrics != [] && cur.scopeMetrics[|cur.scopeMetrics| - 1].scope == scope
    }

    /** Appends the units [start, end) of `m` to the open request. */
    method Append(scope: Scope, m: Metrics, scopeOpen: bool, start: nat, end: nat, need: nat, ghost stream: seq<Item>)
      requires Valid() && StreamOf(stream, scope, m)
      requires start < end <= |stream| == |Units(m.data)| && Joins(open, scopeOpen, stream, start)
      requires scopeOpen ==> LastScopeIs(scope)
      requires curSize + need == Cost(resource, open + stream[start..end])
      requires Acceptable(resource, maxBytes, open + stream[start..end])
      modifies this
      ensures Valid() && open == old(open) + stream[start..end] && parts == old(parts)
      ensures Placed() == old(Placed()) + stream[start..end] && LastScopeIs(scope)
      ensures end < |stream| ==> open + [stream[end]] == old(open) + stream[start..end + 1]
    {
      hide Items, Cost, Restart, StreamOf, Units, Maximal, Flatten, Joins;
      var slice := WithDataPoints(m, start, end);
      var scopes := cur.scopeMetrics;
      SliceItems(stream, scope, m, start, end);
      if !scopeOpen {
        AppendScope(scopes, scope, m, open, stream, start, end);
        cur := cur.(scopeMetrics := scopes + [ScopeMetrics(scope, [slice])]);
      } else {
        var front, last := scopes[..|scopes| - 1], scopes[|scopes| - 1];
        assert scopes == front + [last];
        JoinsStart(open, stream, start);
        AppendMetric(front, last, m, open, stream, end);
        cur := cur.(scopeMetrics := front + [last.(metrics := last.metrics + [slice])]);
      }
      assert Flatten(parts) + (open + stream[start..end]) == (Flatten(parts) + open) + stream[start..end];
      curSize := curSize + need;
      curPoints := curPoints + (end - start);
      open := open + stream[start..end];
    }

    /** The unit loop of one metric. Returns whether its scope is open in the current request. */
    method AddMetric(scope: Scope, m: Metrics, scopeWasOpen: bool, ghost stream: seq<Item>) returns (scopeOpen: bool)
      requires Valid() && StreamOf(stream, scope, m)
      requires stream != [] ==> Joins(open, scopeWasOpen, stream, 0)
      requires scopeWasOpen ==> open != [] && LastScopeIs(scope)
      requires open != [] ==> Overflowed(open[0])
      requires open == [] ==> parts == []
      modifies this
      ensures Valid() && Placed() == old(Placed()) + stream
      ensures open != [] ==> Overflowed(open[0])
      ensures open == [] ==> parts == []
      ensures stream == [] ==> scopeOpen == scopeWasOpen
      ensures stream != [] ==> scopeOpen
      ensures scopeOpen ==> open != [] && LastScopeIs(scope)
    {
      hide Cost, Units, UnitSize, StreamOf, Joins, LastScopeIs, Valid, Placed, Acceptable;
      scopeOpen := scopeWasOpen;
      var sizes := DataPointSizes(m.data);
      StreamLength(stream, scope, m);
      assert stream[..0] == [];
      var start := 0;
      while start < |sizes|
        invariant Valid() && 0 <= start <= |sizes| == |stream|
        invariant Placed() == old(Placed()) + stream[..start]
        invariant start < |sizes| ==> Joins(open, scopeOpen, stream, start)
        invariant open != [] ==> Overflowed(open[0])
        invariant open == [] && parts != [] ==> start < |sizes| && Overflowed(stream[start])
        invariant if |sizes| == 0 then scopeOpen == scopeWasOpen else start == |sizes| ==> scopeOpen
        invariant scopeOpen ==> open != [] && LastScopeIs(scope)
        decreases |sizes| - start, if open != [] then 1 else 0
      {
        var end, need := Take(scope, m, scopeOpen, sizes, start, stream);
        if end == start {
          assert stream[start..end] == [] && stream[start..end + 1] == [stream[start]];
          Close(stream[start]);
          scopeOpen := false;
          JoinsFresh(stream, start);
          continue;
        }
        Append(scope, m, scopeOpen, start, end, need, stream);
        assert stream[..end] == stream[..start] + stream[start..end];
        Assoc(old(Placed()), stream[..start], stream[start..end]);
        scopeOpen := true;
        start := end;
        if start < |sizes| {
          Close(stream[start]);
          scopeOpen := false;
          JoinsFresh(stream, start);
        }
      }
      assert stream[..|sizes|] == stream;
    }

    lemma {:induction false} NothingPlaced()
      requires open == [] && parts == []
      ensures Placed() == [] == Items([])
    {}

    /** The metric loop of one scope. */
    method AddScope(sm: ScopeMetrics)
      requires Valid()
      requires open != [] ==> Overflowed(open[0])
      requires open == [] ==> parts == []
      modifies this
      ensures Valid() && Placed() == old(Placed()) + ScopeItems(sm)
      ensures open != [] ==> Overflowed(open[0])
      ensures open == [] ==> parts == []
    {
      hide Items, Full, Cost, Restart, UnitSize, Units, Maximal, Flatten, Valid, LastScopeIs, MetricItems, MetricStream,
          OpenScope;
      assert old(Placed()) == old(Placed()) + [];
      var scopeOpen := false;
      for i := 0 to |sm.metrics|
        invariant Valid()
        invariant Placed() == old(Placed()) + ScopeItems(ScopeMetrics(sm.scope, sm.metrics[..i]))
        invariant open != [] ==> Overflowed(open[0])
        invariant open == [] ==> parts == []
        invariant scopeOpen ==> open != [] && LastScopeIs(sm.scope)
        invariant scopeOpen == (BareItems(sm.scope, sm.metrics[..i]) != [])
      {
        ghost var before := sm.metrics[..i];
        ghost var stream := MetricStream(sm.scope, before, sm.metrics[i]);
        ScopeItemsSnoc(sm.scope, before, sm.metrics[i]);
        assert sm.metrics[..i + 1] == before + [sm.metrics[i]];
        assert old(Placed()) + (ScopeItems(ScopeMetrics(sm.scope, before)) + stream)
            == (old(Placed()) + ScopeItems(ScopeMetrics(sm.scope, before))) + stream;
        BareItemsSnoc(sm.scope, before, sm.metrics[i]);
        MetricStreamFlags(sm.scope, before, sm.metrics[i]);
        scopeOpen := AddMetric(sm.scope, sm.metrics[i], scopeOpen, stream);
      }
      assert sm.metrics[..|sm.metrics|] == sm.metrics;
    }

    /** The scope loop. */
    method AddScopes(scopes: seq<ScopeMetrics>)
      requires Valid() && open == [] && parts == []
      modifies this
      ensures Valid() && Placed() == Items(scopes)
      ensures open != [] ==> Overflowed(open[0])
    {
      hide *;
      NothingPlaced();
      assert scopes[..0] == [];
      for i := 0 to |scopes|
        invariant Valid() && Placed() == Items(scopes[..i])
        invariant open != [] ==> Overflowed(open[0])
        invariant open == [] ==> parts == []
      {
        ItemsSnoc(scopes[..i], scopes[i]);
        assert scopes[..i + 1] == scopes[..i] + [scopes[i]];
        AddScope(scopes[i]);
      }
      assert scopes[..|scopes|] == scopes;
    }

    /** What is placed once nothing is open. */
    lemma {:induction false} AllPlaced()
      requires Valid() && open == []
      ensures Delivers(resource, maxBytes, Placed(), batches, parts)
    {
      hide Items, Full, Cost, Restart, Flatten, Maximal;
      assert Placed() == Flatten(parts);
    }
  }

  /** The requests are a greedy division of the source. */
  ghost predicate SplitsGreedily(src: ResourceMetrics, maxBytes: int, batches: seq<ResourceMetrics>) {
    exists parts :: Delivers(src.resource, maxBytes, Items(src.scopeMetrics), batches, parts)
  }

  method SplitResourceMetrics(src: ResourceMetrics, maxBytes: int) returns (batches: seq<ResourceMetrics>)
    ensures SplitsGreedily(src, maxBytes, batches)
  {
    var s := new Splitter(maxBytes, src.resource);
    hide Items, Delivers, Splitter.Valid, Splitter.Placed, Splitter.Overflowed, Cost;
    s.AddScopes(src.scopeMetrics);
    s.Flush();
    s.AllPlaced();
    return s.batches;
  }
}
