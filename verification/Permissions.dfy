// The resources a policy reads and some control plane denies, in the order of the status.
module Permissions {
  import opened PolicyModel
  import opened StringOrder

  datatype GVRStatus = GVRStatus(synced: bool, denied: bool)

  type ControlPlaneStatus = map<GVR, GVRStatus>

  predicate DeniedIn(status: ControlPlaneStatus, gvr: GVR) {
    gvr in status && status[gvr].denied
  }

  predicate DeniedSomewhere(statuses: seq<ControlPlaneStatus>, gvr: GVR) {
    exists i | 0 <= i < |statuses| :: DeniedIn(statuses[i], gvr)
  }

  // ---- The order of the list ----

  /** By group, then version, then resource. */
  predicate Before(a: GVR, b: GVR) {
    if a.group != b.group then Less(a.group, b.group)
    else if a.version != b.version then Less(a.version, b.version)
    else Less(a.resource, b.resource)
  }

  predicate Ordered(s: seq<GVR>) {
    forall i, j | 0 <= i < j < |s| :: Before(s[i], s[j])
  }

  lemma {:induction false} StringTransitive(a: string, b: string, c: string)
    ensures Less(a, b) && Less(b, c) ==> Less(a, c) && a != c
  {
    if Less(a, b) && Less(b, c) {
      LessTransitive(a, b, c);
      LessIrreflexive(a);
    }
  }

  lemma {:induction false} BeforeTransitive(a: GVR, b: GVR, c: GVR)
    requires Before(a, b) && Before(b, c)
    ensures Before(a, c)
  {
    hide Less;
    StringTransitive(a.group, b.group, c.group);
    StringTransitive(a.version, b.version, c.version);
    StringTransitive(a.resource, b.resource, c.resource);
  }

  lemma {:induction false} BeforeTotal(a: GVR, b: GVR)
    ensures Before(a, b) || a == b || Before(b, a)
    ensures !(Before(a, b) && Before(b, a)) && !Before(a, a)
  {
    LessTotal(a.group, b.group);
    LessTotal(a.version, b.version);
    LessTotal(a.resource, b.resource);
    StringTransitive(a.group, b.group, a.group);
    StringTransitive(a.version, b.version, a.version);
    StringTransitive(a.resource, b.resource, a.resource);
    LessIrreflexive(a.resource);
    hide Less;
  }

  lemma {:induction false} FirstIsLeast(a: seq<GVR>, b: seq<GVR>)
    requires Ordered(a) && a != [] && b != [] && forall x :: x in a <==> x in b
    ensures a[0] == b[0] || Before(a[0], b[0])
  {
    hide Before;
    assert b[0] in a;
    var i :| 0 <= i < |a| && a[i] == b[0];
  }

  lemma {:induction false} RestElements(a: seq<GVR>, b: seq<GVR>)
    requires Ordered(a) && a != [] && b != [] && a[0] == b[0] && forall x :: x in a <==> x in b
    ensures forall x | x in a[1..] :: x in b[1..]
  {
    hide Before;
    forall x | x in a[1..]
      ensures x in b[1..]
    {
      var i :| 0 < i < |a| && a[i] == x;
      BeforeTotal(a[0], x);
      assert x != a[0] && x in b;
    }
  }

  /** The list is determined by what is in it, so repeated reconciles report the same. */
  lemma {:induction false} OrderedOnce(a: seq<GVR>, b: seq<GVR>)
    requires Ordered(a) && Ordered(b) && forall x :: x in a <==> x in b
    ensures a == b
  {
    hide Before;
    assert forall i | 0 <= i < |b| :: b[i] in a;
    assert forall i | 0 <= i < |a| :: a[i] in b;
    if a == [] {
      assert b == [];
    } else {
      assert a[0] in b;
      FirstIsLeast(a, b);
      FirstIsLeast(b, a);
      BeforeTotal(a[0], b[0]);
      RestElements(a, b);
      RestElements(b, a);
      OrderedOnce(a[1..], b[1..]);
      assert a == [a[0]] + a[1..] && b == [b[0]] + b[1..];
    }
  }

  // ---- Sorting a set ----

  function Insert(x: GVR, s: seq<GVR>): seq<GVR> {
    if s == [] || Before(x, s[0]) then [x] + s else [s[0]] + Insert(x, s[1..])
  }

  lemma {:induction false} InsertOrders(x: GVR, s: seq<GVR>)
    requires Ordered(s) && x !in s
    ensures Ordered(Insert(x, s)) && forall y :: y in Insert(x, s) <==> y == x || y in s
  {
    hide Before;
    if s != [] {
      BeforeTotal(x, s[0]);
      if Before(x, s[0]) {
        forall y | y in s
          ensures Before(x, y)
        {
          var i :| 0 <= i < |s| && s[i] == y;
          if i > 0 {
            BeforeTransitive(x, s[0], s[i]);
          }
        }
      } else {
        InsertOrders(x, s[1..]);
        assert s == [s[0]] + s[1..];
        assert forall y | y in Insert(x, s[1..]) :: Before(s[0], y);
      }
    }
  }

  // ---- Aggregation ----

  /** Exactly the resources read by some generator and denied somewhere, each once, in order. */
  ghost predicate IsMissing(resources: seq<GVR>, statuses: seq<ControlPlaneStatus>, missing: seq<GVR>) {
    Ordered(missing) && forall gvr :: gvr in missing <==> gvr in resources && DeniedSomewhere(statuses, gvr)
  }

  lemma {:induction false} SameDenialsSameList(
    resources: seq<GVR>, statuses: seq<ControlPlaneStatus>, missing: seq<GVR>,
    others: seq<GVR>, otherStatuses: seq<ControlPlaneStatus>, otherMissing: seq<GVR>)
    requires IsMissing(resources, statuses, missing) && IsMissing(others, otherStatuses, otherMissing)
    requires forall gvr :: gvr in resources <==> gvr in others
    requires forall status :: status in statuses <==> status in otherStatuses
    ensures missing == otherMissing
  {
    hide Ordered, DeniedIn;
    forall gvr
      ensures DeniedSomewhere(statuses, gvr) <==> DeniedSomewhere(otherStatuses, gvr)
    {
      if i :| 0 <= i < |statuses| && DeniedIn(statuses[i], gvr) {
        assert statuses[i] in otherStatuses;
      }
      if i :| 0 <= i < |otherStatuses| && DeniedIn(otherStatuses[i], gvr) {
        assert otherStatuses[i] in statuses;
      }
    }
    hide DeniedSomewhere;
    OrderedOnce(missing, otherMissing);
  }

  lemma {:induction false} DeniedMore(statuses: seq<ControlPlaneStatus>, status: ControlPlaneStatus)
    ensures forall gvr :: DeniedSomewhere(statuses + [status], gvr) <==>
        DeniedSomewhere(statuses, gvr) || DeniedIn(status, gvr)
  {
    hide DeniedIn;
    var more := statuses + [status];
    assert more[|statuses|] == status && forall i | 0 <= i < |statuses| :: more[i] == statuses[i];
    forall gvr
      ensures DeniedSomewhere(more, gvr) <==> DeniedSomewhere(statuses, gvr) || DeniedIn(status, gvr)
    {
      if i :| 0 <= i < |statuses| && DeniedIn(statuses[i], gvr) {
        assert DeniedIn(more[i], gvr);
      }
    }
  }

  /** The inner loop: the denied resources of one control plane that are referenced. */
  method DeniedHere(status: ControlPlaneStatus, referenced: set<GVR>) returns (denied: set<GVR>)
    ensures forall gvr :: gvr in denied <==> gvr in referenced && DeniedIn(status, gvr)
  {
    denied := {};
    var todo := status.Keys;
    while todo != {}
      invariant todo <= status.Keys
      invariant forall gvr :: gvr in denied <==> gvr in referenced && gvr !in todo && DeniedIn(status, gvr)
    {
      var gvr :| gvr in todo;
      todo := todo - {gvr};
      if !status[gvr].denied || gvr !in referenced {
        continue;
      }
      denied := denied + {gvr};
    }
  }

  method SortSet(all: set<GVR>) returns (out: seq<GVR>)
    ensures Ordered(out) && forall gvr :: gvr in out <==> gvr in all
  {
    hide Before, Insert;
    out := [];
    var todo := all;
    while todo != {}
      invariant todo <= all && Ordered(out) && forall gvr :: gvr in out <==> gvr in all && gvr !in todo
    {
      var gvr :| gvr in todo;
      todo := todo - {gvr};
      InsertOrders(gvr, out);
      out := Insert(gvr, out);
    }
  }

  method AggregateMissingPermissions(resources: seq<GVR>, statuses: seq<ControlPlaneStatus>) returns (missing: seq<GVR>)
    ensures IsMissing(resources, statuses, missing)
  {
    hide Before;
    if resources == [] || statuses == [] {
      return [];
    }
    var referenced := set r | r in resources;
    var denied: set<GVR> := {};
    for i := 0 to |statuses|
      invariant forall gvr :: gvr in denied <==> gvr in referenced && DeniedSomewhere(statuses[..i], gvr)
    {
      var here := DeniedHere(statuses[i], referenced);
      DeniedMore(statuses[..i], statuses[i]);
      assert statuses[..i + 1] == statuses[..i] + [statuses[i]];
      denied := denied + here;
    }
    assert statuses[..|statuses|] == statuses;
    missing := SortSet(denied);
  }
}
