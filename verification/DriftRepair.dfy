/** Reconciling a release with the cluster: every object of the manifest is created if it is missing and patched if it
    has drifted.  Objects of built-in types, which are patched differently, are not part of this model. */
module DriftRepair {
  import opened JsonPatch

  datatype Expected = Expected(name: string, body: Json)

  type Objects = map<string, Json>

  predicate AllObjects(objects: Objects) {
    forall k :: k in objects ==> objects[k].Obj?
  }

  predicate Manifest(expected: seq<Expected>) {
    forall i :: 0 <= i < |expected| ==> expected[i].body.Obj?
  }

  predicate DistinctNames(expected: seq<Expected>) {
    forall i, j :: 0 <= i < j < |expected| ==> expected[i].name != expected[j].name
  }

  /** The object after its turn. */
  function RepairedOne(objects: Objects, x: Expected): Json {
    if x.name in objects then Overlay(objects[x.name], x.body) else x.body
  }

  /** The cluster after the first n objects of the manifest. */
  function Repaired(objects: Objects, expected: seq<Expected>, n: nat): Objects
    requires n <= |expected|
  {
    if n == 0 then objects
    else
      var before := Repaired(objects, expected, n - 1);
      before[expected[n - 1].name := RepairedOne(before, expected[n - 1])]
  }

  lemma {:induction false} RepairedPointwise(objects: Objects, expected: seq<Expected>, n: nat)
    requires n <= |expected| && DistinctNames(expected) && Manifest(expected) && AllObjects(objects)
    ensures var after := Repaired(objects, expected, n);
            && AllObjects(after)
            && (forall i :: 0 <= i < n ==>
                 expected[i].name in after && after[expected[i].name] == RepairedOne(objects, expected[i]))
            && (forall k :: (forall i :: 0 <= i < n ==> expected[i].name != k) ==>
                 (k in after <==> k in objects) && (k in objects ==> after[k] == objects[k]))
  {
    if n > 0 {
      RepairedPointwise(objects, expected, n - 1);
      var before := Repaired(objects, expected, n - 1);
      var x := expected[n - 1];
      assert x.name in before <==> x.name in objects;
    }
  }

  /** After a complete pass, every object of the manifest exists and shows every value the manifest gives it, and
      nothing that others added, to an object or as an object, is lost. */
  lemma ManifestHolds(objects: Objects, expected: seq<Expected>, i: nat, path: seq<string>)
    requires DistinctNames(expected) && Manifest(expected) && AllObjects(objects) && i < |expected|
    ensures var after := Repaired(objects, expected, |expected|);
            var x := expected[i];
            && x.name in after
            && (At(x.body, path).Some? && Leaf(At(x.body, path).value) ==>
                 At(after[x.name], path) == At(x.body, path))
            && (x.name in objects && Extra(x.body, path) && At(objects[x.name], path).Some? ==>
                 At(after[x.name], path) == At(objects[x.name], path))
  {
    RepairedPointwise(objects, expected, |expected|);
    var x := expected[i];
    if x.name in objects {
      if At(x.body, path).Some? && Leaf(At(x.body, path).value) {
        OverlayShowsExpected(objects[x.name], x.body, path);
      }
      if Extra(x.body, path) && At(objects[x.name], path).Some? {
        OverlayKeepsExtras(objects[x.name], x.body, path);
      }
    }
  }

  /** The object needs neither creation nor patch. */
  predicate InPlace(objects: Objects, x: Expected) {
    x.name in objects && Overlay(objects[x.name], x.body) == objects[x.name]
  }

  /** After a complete pass nothing is left to do. */
  lemma SecondPassFindsNothing(objects: Objects, expected: seq<Expected>)
    requires DistinctNames(expected) && Manifest(expected) && AllObjects(objects)
    ensures forall i :: 0 <= i < |expected| ==> InPlace(Repaired(objects, expected, |expected|), expected[i])
  {
    RepairedPointwise(objects, expected, |expected|);
    var after := Repaired(objects, expected, |expected|);
    forall i | 0 <= i < |expected|
      ensures InPlace(after, expected[i])
    {
      var x := expected[i];
      assert after[x.name] == RepairedOne(objects, x);
      if x.name in objects {
        OverlayTwice(objects[x.name], x.body);
      } else {
        OverlaySelf(x.body);
      }
    }
  }

  /** The objects on the cluster, and how many requests have changed them. */
  class ObjectStore {
    var objects: Objects
    var writes: nat

    constructor (objects: Objects)
      ensures this.objects == objects && writes == 0
    {
      this.objects, writes := objects, 0;
    }

    /** Visits the objects of the manifest in order and stops at the first error, so that a prefix of the manifest
        is repaired: up to the object that failed, or including it if its request took effect all the same.  An
        object in place is not written. */
    method Reconcile(expected: seq<Expected>, order: set<string> -> seq<string>)
      returns (failed: bool, ghost visited: nat)
      requires IsOrder(order) && Manifest(expected) && AllObjects(objects)
      modifies this
      ensures visited <= |expected| && objects == Repaired(old(objects), expected, visited)
      ensures !failed ==> visited == |expected|
      ensures (forall i :: 0 <= i < |expected| ==> InPlace(old(objects), expected[i])) ==>
                objects == old(objects) && writes == old(writes)
    {
      visited := 0;
      var i := 0;
      while i < |expected|
        invariant 0 <= i <= |expected| && visited == i && AllObjects(objects)
        invariant objects == Repaired(old(objects), expected, i)
        invariant (forall j :: 0 <= j < |expected| ==> InPlace(old(objects), expected[j])) ==>
                    objects == old(objects) && writes == old(writes)
      {
        ghost var effect;
        failed, effect := RepairObject(expected[i], order);
        if failed {
          visited := if effect then i + 1 else i;
          return;
        }
        i := i + 1;
        visited := i;
      }
      failed := false;
    }

    /** Creates or patches one object.  The request may fail, before or after it has taken effect. */
    method RepairObject(x: Expected, order: set<string> -> seq<string>) returns (failed: bool, ghost effect: bool)
      requires IsOrder(order) && x.body.Obj? && AllObjects(objects)
      modifies this
      ensures !failed ==> effect
      ensures AllObjects(objects)
      ensures objects == if effect then old(objects)[x.name := RepairedOne(old(objects), x)] else old(objects)
      ensures writes == old(writes) + if !effect || old(InPlace(objects, x)) then 0 else 1
    {
      failed := *;
      if failed {
        var applied: bool := *;
        if !applied {
          return failed, false;
        }
      }
      effect := true;
      if x.name !in objects {
        objects := objects[x.name := x.body];
        writes := writes + 1;
        return;
      }
      var existing := objects[x.name];
      PatchRepairs(existing, x.body, order);
      PatchIsEmptyIff(existing, x.body, order);
      var patch := CreateJSONMergePatch(existing, x.body, order);
      if patch.None? {
        assert objects == objects[x.name := existing];
        return;
      }
      objects := objects[x.name := Apply(patch.value, existing).value];
      writes := writes + 1;
    }
  }
}
