// The in-place algorithm: keys are deleted from the maps of one object tree, at every depth.
module TrimInPlace {
  import opened Paths
  import opened Trim

  /** What a key holds: a nested map of the tree, or any other value. */
  datatype Cell = Plain(value: Value) | Nested(node: ObjectMap)

  /** What one key must look like once the loop has passed it. */
  ghost predicate Settled(v: Value, key: string, leaf: set<string>, branch: map<string, seq<string>>, now: Found) {
    now == if key in leaf then Present(v)
           else if key in branch && v.Obj? then Present(TrimValue(v, PathSet(branch[key])))
           else Missing
  }

  lemma {:induction false} PathSetEmpty(paths: seq<string>)
    ensures PathSet(paths) == {} <==> paths == []
  {
    if paths != [] {
      assert Segments(paths[0]) in PathSet(paths);
    }
  }

  lemma {:induction false} SettledAll(
    before: Value, after: Value, paths: seq<string>, leaf: set<string>, branch: map<string, seq<string>>)
    requires before.Obj? && after.Obj? && after.fields.Keys <= before.fields.Keys
    requires leaf == LeafKeys(paths)
    requires forall key :: key in branch <==> key !in leaf && Rests(paths, key) != []
    requires forall key | key in branch :: branch[key] == Rests(paths, key)
    requires forall key | key in before.fields ::
      Settled(before.fields[key], key, leaf, branch, if key in after.fields then Present(after.fields[key])
          else Missing)
    ensures after == TrimValue(before, PathSet(paths))
  {
    hide Rests, LeafKeys, Sub, PathSet, Segments;
    var trimmed := TrimValue(before, PathSet(paths));
    forall key | key in before.fields
      ensures key in after.fields <==> key in trimmed.fields
      ensures key in after.fields ==> after.fields[key] == trimmed.fields[key]
    {
      LeafIsSingleton(paths, key);
      RestsAreSub(paths, key);
      PathSetEmpty(Rests(paths, key));
    }
    assert after.fields == trimmed.fields;
  }

  class ObjectMap {
    var entries: map<string, Cell>
    /** The maps of this tree. */
    ghost const repr: set<ObjectMap>

    ghost predicate Valid()
      reads this, repr
      decreases repr
    {
      && this in repr
      && (forall key | key in entries && entries[key].Plain? :: !entries[key].value.Obj?)
      && (forall key | key in entries && entries[key].Nested? ::
            entries[key].node in repr && entries[key].node.repr < repr && this !in entries[key].node.repr &&
            entries[key].node.Valid())
      && (forall key, other | key in entries && other in entries && key != other &&
            entries[key].Nested? && entries[other].Nested? :: entries[key].node.repr !! entries[other].node.repr)
    }

    /** A map over trees that share nothing with each other. */
    constructor (entries: map<string, Cell>)
      requires forall key | key in entries && entries[key].Plain? :: !entries[key].value.Obj?
      requires forall key | key in entries && entries[key].Nested? :: entries[key].node.Valid()
      requires forall key, other | key in entries && other in entries && key != other &&
                 entries[key].Nested? && entries[other].Nested? :: entries[key].node.repr !! entries[other].node.repr
      ensures Valid() && this.entries == entries
    {
      this.entries := entries;
      this.repr := {this} + set key, node | key in entries && entries[key].Nested? && node in entries[key].node.repr ::
          node;
    }

    /** The object this tree stands for. */
    ghost function Content(): (v: Value)
      requires Valid()
      reads this, repr
      ensures v.Obj? && v.fields.Keys == entries.Keys
      decreases repr
    {
      Obj(map key | key in entries ::
            match entries[key]
            case Plain(value) => value
            case Nested(node) => node.Content())
    }

    /** Trims the map under `key`; the rest of the tree keeps its content. */
    method TrimChild(key: string, paths: seq<string>)
      requires Valid() && key in entries && entries[key].Nested?
      modifies entries[key].node.repr
      ensures Valid() && entries == old(entries)
      ensures Content().fields[key] == TrimValue(old(Content()).fields[key], PathSet(paths))
      ensures forall other | other in entries && other != key :: Content().fields[other] == old(Content()).fields[other]
      decreases entries[key].node.repr, 2
    {
      hide TrimValue, PathSet;
      entries[key].node.TrimAt(paths);
    }

    method Drop(key: string)
      requires Valid()
      modifies this
      ensures Valid() && entries == old(entries) - {key}
      ensures forall other | other in entries :: Content().fields[other] == old(Content()).fields[other]
    {
      entries := entries - {key};
    }

    /** Deletes everything that no path keeps. */
    method TrimAt(paths: seq<string>)
      requires Valid()
      modifies repr
      ensures Valid() && Content() == TrimValue(old(Content()), PathSet(paths))
      decreases repr, 1
    {
      hide TrimValue, PathSet, Segments, Rests, LeafKeys;
      var leaf, branch := GroupPaths(paths);
      ghost var before, was := Content(), entries;
      var todo := entries.Keys;
      while todo != {}
        invariant Valid() && todo <= entries.Keys <= was.Keys
        invariant forall key | key in entries :: entries[key] == was[key]
        invariant forall key | key in todo :: Content().fields[key] == before.fields[key]
        invariant forall key | key in was && key !in todo ::
          Settled(before.fields[key], key, leaf, branch, if key in entries then Present(Content().fields[key])
              else Missing)
        decreases todo
      {
        var key :| key in todo;
        todo := todo - {key};
        if key in leaf {
          continue;
        }
        if key in branch && entries[key].Nested? {
          TrimChild(key, branch[key]);
          continue;
        }
        Drop(key);
      }
      SettledAll(before, Content(), paths, leaf, branch);
    }
  }

  method TrimObjectInPlace(obj: ObjectMap, fields: seq<string>)
    requires obj.Valid()
    modifies obj.repr
    ensures obj.Valid() && obj.Content() == TrimObject(old(obj.Content()), fields)
  {
    hide TrimValue, PathSet;
    obj.TrimAt(fields + IDENTITY_FIELDS);
  }
}
