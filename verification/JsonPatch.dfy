/** The patch that repairs drift of an object that is not a built-in type: a JSON patch (RFC 6902) from the existing
    to the expected object, with the operations left out that would undo what others added. */
module JsonPatch {
  import opened Wrappers

  datatype Json = Null | Bool(b: bool) | Num(n: int) | Str(s: string) | Obj(fields: map<string, Json>)

  datatype Op =
    | Add(path: seq<string>, value: Json)
    | Remove(path: seq<string>)
    | Replace(path: seq<string>, value: Json)

  /** The order in which the keys of a map are visited: any order, each key once. */
  ghost predicate IsOrder(order: set<string> -> seq<string>) {
    forall s {:trigger order(s)} ::
      (forall k :: k in order(s) <==> k in s) && (forall i, j :: 0 <= i < j < |order(s)| ==> order(s)[i] != order(s)[j])
  }

  predicate SameType(a: Json, b: Json) {
    match (a, b)
    case (Null, Null) => true
    case (Bool(_), Bool(_)) => true
    case (Num(_), Num(_)) => true
    case (Str(_), Str(_)) => true
    case (Obj(_), Obj(_)) => true
    case _ => false
  }

  /* ---------- The difference of two objects ---------- */

  function Under(k: string, ops: seq<Op>): (r: seq<Op>)
    ensures |r| == |ops|
  {
    if ops == [] then [] else Under(k, ops[..|ops| - 1]) + [ops[|ops| - 1].(path := [k] + ops[|ops| - 1].path)]
  }

  function Removes(keys: seq<string>): seq<Op> {
    if keys == [] then [] else Removes(keys[..|keys| - 1]) + [Remove([keys[|keys| - 1]])]
  }

  /** The operations for one key of the expected object. */
  function DiffKey(a: Json, b: Json, k: string, order: set<string> -> seq<string>): seq<Op>
    requires a.Obj? && b.Obj? && k in b.fields
    decreases b, 0, 0
  {
    if k !in a.fields then [Add([k], b.fields[k])]
    else
      var av, bv := a.fields[k], b.fields[k];
      if !SameType(av, bv) then [Replace([k], bv)]
      else if av.Obj? then Under(k, Diff(av, bv, order))
      else if av == bv then [] else [Replace([k], bv)]
  }

  function DiffKeys(a: Json, b: Json, keys: seq<string>, order: set<string> -> seq<string>): seq<Op>
    requires a.Obj? && b.Obj?
    decreases b, 1, |keys|
  {
    if keys == [] then []
    else
      var k := keys[|keys| - 1];
      DiffKeys(a, b, keys[..|keys| - 1], order) + (if k in b.fields then DiffKey(a, b, k, order) else [])
  }

  /** The keys of the expected object are compared one by one; keys that only the existing object has are removed. */
  function Diff(a: Json, b: Json, order: set<string> -> seq<string>): seq<Op>
    requires a.Obj? && b.Obj?
    decreases b, 2, 0
  {
    DiffKeys(a, b, order(b.fields.Keys), order) + Removes(order(a.fields.Keys - b.fields.Keys))
  }

  /** Removals, and additions of null, are not part of the repair. */
  predicate Keeps(op: Op) {
    !op.Remove? && !(op.Add? && op.value.Null?)
  }

  function Kept(ops: seq<Op>): seq<Op> {
    if ops == [] then []
    else Kept(ops[..|ops| - 1]) + (if Keeps(ops[|ops| - 1]) then [ops[|ops| - 1]] else [])
  }

  /** No patch at all if there is nothing to repair. */
  method CreateJSONMergePatch(existing: Json, expected: Json, order: set<string> -> seq<string>)
    returns (patch: Option<seq<Op>>)
    requires existing.Obj? && expected.Obj?
    ensures var kept := Kept(Diff(existing, expected, order));
            patch == if kept == [] then None else Some(kept)
  {
    var ops := Diff(existing, expected, order);
    var patchOps: seq<Op> := [];
    var i := 0;
    while i < |ops|
      invariant 0 <= i <= |ops| && patchOps == Kept(ops[..i])
    {
      assert ops[..i + 1][..i] == ops[..i];
      if !ops[i].Remove? && !(ops[i].Add? && ops[i].value.Null?) {
        patchOps := patchOps + [ops[i]];
      }
      i := i + 1;
    }
    assert ops[..i] == ops;
    if |patchOps| == 0 {
      return None;
    }
    return Some(patchOps);
  }

  /* ---------- Applying a patch ---------- */

  /** One operation, as in section 4 of RFC 6902; None if its target does not exist. */
  function ApplyAt(op: Op, path: seq<string>, doc: Json): Option<Json>
    decreases |path|
  {
    if path == [] || !doc.Obj? then None
    else if |path| == 1 then
      match op
      case Add(_, v) => Some(Obj(doc.fields[path[0] := v]))
      case Replace(_, v) => if path[0] in doc.fields then Some(Obj(doc.fields[path[0] := v])) else None
      case Remove(_) => if path[0] in doc.fields then Some(Obj(doc.fields - {path[0]})) else None
    else if path[0] !in doc.fields then None
    else
      match ApplyAt(op, path[1..], doc.fields[path[0]])
      case None => None
      case Some(inner) => Some(Obj(doc.fields[path[0] := inner]))
  }

  function Apply(ops: seq<Op>, doc: Json): Option<Json> {
    if ops == [] then Some(doc)
    else
      match Apply(ops[..|ops| - 1], doc)
      case None => None
      case Some(d) => ApplyAt(ops[|ops| - 1], ops[|ops| - 1].path, d)
  }

  /** The reference: the existing object overlaid with the expected one.  Keys only one of them has are taken from
      it, except that a null for a missing key adds nothing. */
  function Overlay(a: Json, b: Json): Json
    decreases b
  {
    if a.Obj? && b.Obj? then
      Obj(map k | k in a.fields.Keys + b.fields.Keys && (k in a.fields || !b.fields[k].Null?) ::
          if k !in b.fields then a.fields[k]
          else if k !in a.fields then b.fields[k]
          else Overlay(a.fields[k], b.fields[k]))
    else b
  }

  /* ---------- The patch is the overlay ---------- */

  lemma {:induction false} KeptConcat(x: seq<Op>, y: seq<Op>)
    ensures Kept(x + y) == Kept(x) + Kept(y)
    decreases |y|
  {
    if y == [] {
      assert x + y == x;
    } else {
      assert (x + y)[..|x + y| - 1] == x + y[..|y| - 1];
      KeptConcat(x, y[..|y| - 1]);
    }
  }

  lemma {:induction false} KeptUnder(k: string, ops: seq<Op>)
    ensures Kept(Under(k, ops)) == Under(k, Kept(ops))
    decreases |ops|
  {
    if ops != [] {
      var init, last := ops[..|ops| - 1], ops[|ops| - 1];
      KeptUnder(k, init);
      var moved := last.(path := [k] + last.path);
      assert Under(k, ops) == Under(k, init) + [moved];
      assert Under(k, ops)[..|ops| - 1] == Under(k, init);
      if Keeps(last) {
        assert (Kept(init) + [last])[..|Kept(init)|] == Kept(init);
      } else {
        assert Kept(ops) == Kept(init);
      }
    }
  }

  lemma {:induction false} ApplyConcat(x: seq<Op>, y: seq<Op>, doc: Json)
    ensures Apply(x + y, doc) == match Apply(x, doc) case None => None case Some(d) => Apply(y, d)
    decreases |y|
  {
    if y == [] {
      assert x + y == x;
    } else {
      assert (x + y)[..|x + y| - 1] == x + y[..|y| - 1];
      ApplyConcat(x, y[..|y| - 1], doc);
    }
  }

  lemma {:induction false} PathFieldIgnored(op: Op, q: seq<string>, path: seq<string>, doc: Json)
    ensures ApplyAt(op.(path := q), path, doc) == ApplyAt(op, path, doc)
    decreases |path|
  {
    if |path| > 1 && doc.Obj? && path[0] in doc.fields {
      PathFieldIgnored(op, q, path[1..], doc.fields[path[0]]);
    }
  }

  lemma AtUnder(k: string, op: Op, doc: Json, v: Json)
    requires doc.Obj? && op.path != []
    ensures ApplyAt(op.(path := [k] + op.path), [k] + op.path, Obj(doc.fields[k := v])) ==
              match ApplyAt(op, op.path, v) case None => None case Some(w) => Some(Obj(doc.fields[k := w]))
  {
    var path := [k] + op.path;
    assert path[1..] == op.path && path[0] == k && |path| > 1;
    PathFieldIgnored(op, path, op.path, v);
    if ApplyAt(op, op.path, v).Some? {
      var w := ApplyAt(op, op.path, v).value;
      assert doc.fields[k := v][k := w] == doc.fields[k := w];
    }
  }

  /** Operations below a key act on the value of that key. */
  lemma {:induction false} ApplyUnder(k: string, ops: seq<Op>, doc: Json)
    requires doc.Obj? && k in doc.fields && forall op :: op in ops ==> op.path != []
    ensures Apply(Under(k, ops), doc) ==
              match Apply(ops, doc.fields[k]) case None => None case Some(v) => Some(Obj(doc.fields[k := v]))
    decreases |ops|
  {
    if ops == [] {
      assert doc.fields == doc.fields[k := doc.fields[k]];
    } else {
      var init, last := ops[..|ops| - 1], ops[|ops| - 1];
      ApplyUnder(k, init, doc);
      assert Under(k, ops)[..|ops| - 1] == Under(k, init);
      if Apply(init, doc.fields[k]).Some? {
        AtUnder(k, last, doc, Apply(init, doc.fields[k]).value);
      }
    }
  }

  lemma {:induction false} RemovesAreDropped(keys: seq<string>)
    ensures Kept(Removes(keys)) == []
    decreases |keys|
  {
    if keys != [] {
      RemovesAreDropped(keys[..|keys| - 1]);
      var removes := Removes(keys[..|keys| - 1]);
      assert (removes + [Remove([keys[|keys| - 1]])])[..|removes|] == removes;
    }
  }

  predicate AllPathsProper(ops: seq<Op>) {
    forall op :: op in ops ==> op.path != []
  }

  lemma {:induction false} UnderIsProper(k: string, ops: seq<Op>)
    ensures AllPathsProper(Under(k, ops))
    decreases |ops|
  {
    if ops != [] {
      UnderIsProper(k, ops[..|ops| - 1]);
    }
  }

  lemma {:induction false} DiffKeysAreProper(a: Json, b: Json, keys: seq<string>, order: set<string> -> seq<string>)
    requires a.Obj? && b.Obj?
    ensures AllPathsProper(DiffKeys(a, b, keys, order))
    decreases |keys|
  {
    if keys != [] {
      var k := keys[|keys| - 1];
      DiffKeysAreProper(a, b, keys[..|keys| - 1], order);
      if k in b.fields && k in a.fields && a.fields[k].Obj? && b.fields[k].Obj? {
        UnderIsProper(k, Diff(a.fields[k], b.fields[k], order));
      }
    }
  }

  lemma {:induction false} KeptIsProper(ops: seq<Op>)
    requires AllPathsProper(ops)
    ensures AllPathsProper(Kept(ops))
    decreases |ops|
  {
    if ops != [] {
      KeptIsProper(ops[..|ops| - 1]);
    }
  }

  lemma KeptDiff(a: Json, b: Json, order: set<string> -> seq<string>)
    requires a.Obj? && b.Obj?
    ensures Kept(Diff(a, b, order)) == Kept(DiffKeys(a, b, order(b.fields.Keys), order))
    ensures AllPathsProper(Kept(Diff(a, b, order)))
  {
    var keys, extra := order(b.fields.Keys), order(a.fields.Keys - b.fields.Keys);
    KeptConcat(DiffKeys(a, b, keys, order), Removes(extra));
    RemovesAreDropped(extra);
    DiffKeysAreProper(a, b, keys, order);
    KeptIsProper(DiffKeys(a, b, keys, order));
  }

  /** The fields when some keys of the expected object have been dealt with. */
  ghost predicate Halfway(f: map<string, Json>, a: Json, b: Json, done: set<string>)
    requires a.Obj? && b.Obj?
  {
    && (forall k :: k in f <==> k in a.fields || (k in done && k in b.fields && !b.fields[k].Null?))
    && (forall k :: k in a.fields && !(k in done && k in b.fields) ==> f[k] == a.fields[k])
    && (forall k :: k in f && k in done && k in b.fields ==>
         f[k] == if k in a.fields then Overlay(a.fields[k], b.fields[k]) else b.fields[k])
  }

  lemma ApplyOne(op: Op, doc: Json)
    ensures Apply([op], doc) == ApplyAt(op, op.path, doc)
  {
    assert [op][..0] == [];
  }

  lemma NestedRepairs(k: string, ops: seq<Op>, v: Json, f: map<string, Json>)
    requires k in f && AllPathsProper(Kept(ops)) && Apply(Kept(ops), f[k]) == Some(v)
    ensures Apply(Kept(Under(k, ops)), Obj(f)) == Some(Obj(f[k := v]))
  {
    KeptUnder(k, ops);
    ApplyUnder(k, Kept(ops), Obj(f));
  }

  lemma OneOpRepairs(op: Op, k: string, f: map<string, Json>)
    requires op.path == [k] && !op.Remove? && (op.Replace? ==> k in f)
    ensures Apply(Kept([op]), Obj(f)) == Some(Obj(if Keeps(op) then f[k := op.value] else f))
  {
    assert [op][..0] == [];
    ApplyOne(op, Obj(f));
  }

  /** The fields after the kept operations for one key. */
  function AfterKey(a: Json, b: Json, k: string, f: map<string, Json>): map<string, Json>
    requires a.Obj? && b.Obj? && k in b.fields
  {
    if k in a.fields then f[k := Overlay(a.fields[k], b.fields[k])]
    else if b.fields[k].Null? then f
    else f[k := b.fields[k]]
  }

  lemma AddedKeyRepairs(a: Json, b: Json, k: string, order: set<string> -> seq<string>, f: map<string, Json>)
    requires a.Obj? && b.Obj? && k in b.fields && k !in a.fields
    ensures Apply(Kept(DiffKey(a, b, k, order)), Obj(f)) == Some(Obj(AfterKey(a, b, k, f)))
  {
    OneOpRepairs(Add([k], b.fields[k]), k, f);
  }

  /** The operations for a key of both objects, if their values are not both objects. */
  function FlatOps(av: Json, bv: Json, k: string): seq<Op> {
    if av == bv then [] else [Replace([k], bv)]
  }

  lemma FlatKey(a: Json, b: Json, k: string, order: set<string> -> seq<string>)
    requires a.Obj? && b.Obj? && k in b.fields && k in a.fields && !(a.fields[k].Obj? && b.fields[k].Obj?)
    ensures DiffKey(a, b, k, order) == FlatOps(a.fields[k], b.fields[k], k)
  {
  }

  lemma FlatKeyRepairs(av: Json, bv: Json, k: string, f: map<string, Json>)
    requires !(av.Obj? && bv.Obj?) && k in f && f[k] == av
    ensures Apply(Kept(FlatOps(av, bv, k)), Obj(f)) == Some(Obj(f[k := Overlay(av, bv)]))
  {
    assert Overlay(av, bv) == bv;
    if av == bv {
      assert f == f[k := bv];
    } else {
      OneOpRepairs(Replace([k], bv), k, f);
    }
  }

  lemma NestedKeyRepairs(av: Json, bv: Json, k: string, order: set<string> -> seq<string>, f: map<string, Json>)
    requires av.Obj? && bv.Obj? && k in f && f[k] == av
    requires Apply(Kept(Diff(av, bv, order)), av) == Some(Overlay(av, bv))
    ensures Apply(Kept(Under(k, Diff(av, bv, order))), Obj(f)) == Some(Obj(f[k := Overlay(av, bv)]))
  {
    KeptDiff(av, bv, order);
    NestedRepairs(k, Diff(av, bv, order), Overlay(av, bv), f);
  }

  lemma NestedKey(a: Json, b: Json, k: string, order: set<string> -> seq<string>)
    requires a.Obj? && b.Obj? && k in b.fields && k in a.fields && a.fields[k].Obj? && b.fields[k].Obj?
    ensures DiffKey(a, b, k, order) == Under(k, Diff(a.fields[k], b.fields[k], order))
  {
  }

  /** One key is dealt with, given that objects below it are. */
  lemma DiffKeyRepairs(a: Json, b: Json, k: string, order: set<string> -> seq<string>, f: map<string, Json>)
    requires a.Obj? && b.Obj? && k in b.fields
    requires k in f <==> k in a.fields
    requires k in f ==> f[k] == a.fields[k]
    requires k in a.fields && a.fields[k].Obj? && b.fields[k].Obj? ==>
               Apply(Kept(Diff(a.fields[k], b.fields[k], order)), f[k]) == Some(Overlay(f[k], b.fields[k]))
    ensures Apply(Kept(DiffKey(a, b, k, order)), Obj(f)) == Some(Obj(AfterKey(a, b, k, f)))
  {
    if k !in a.fields {
      AddedKeyRepairs(a, b, k, order, f);
    } else if a.fields[k].Obj? && b.fields[k].Obj? {
      NestedKey(a, b, k, order);
      NestedKeyRepairs(a.fields[k], b.fields[k], k, order, f);
    } else {
      FlatKey(a, b, k, order);
      FlatKeyRepairs(a.fields[k], b.fields[k], k, f);
    }
  }

  lemma HalfwayStep(f: map<string, Json>, a: Json, b: Json, done: set<string>, k: string)
    requires a.Obj? && b.Obj? && Halfway(f, a, b, done) && k !in done
    ensures Halfway(if k in b.fields then AfterKey(a, b, k, f) else f, a, b, done + {k})
  {
  }

  lemma {:induction false} DiffKeysRepair(a: Json, b: Json, keys: seq<string>, order: set<string> -> seq<string>)
    requires IsOrder(order) && a.Obj? && b.Obj?
    requires forall i, j :: 0 <= i < j < |keys| ==> keys[i] != keys[j]
    ensures var r := Apply(Kept(DiffKeys(a, b, keys, order)), a);
            r.Some? && r.value.Obj? && Halfway(r.value.fields, a, b, set k | k in keys)
    decreases b, 1, |keys|
  {
    if keys != [] {
      var init, k := keys[..|keys| - 1], keys[|keys| - 1];
      DiffKeysRepair(a, b, init, order);
      var before := DiffKeys(a, b, init, order);
      var f := Apply(Kept(before), a).value.fields;
      var done := set x | x in init;
      assert (set x | x in keys) == done + {k};
      HalfwayStep(f, a, b, done, k);
      var here := if k in b.fields then DiffKey(a, b, k, order) else [];
      assert DiffKeys(a, b, keys, order) == before + here;
      KeptConcat(before, here);
      ApplyConcat(Kept(before), Kept(here), a);
      if k in b.fields {
        if k in a.fields && a.fields[k].Obj? && b.fields[k].Obj? {
          PatchRepairs(a.fields[k], b.fields[k], order);
        }
        DiffKeyRepairs(a, b, k, order, f);
      }
    }
  }

  lemma HalfwayDone(f: map<string, Json>, a: Json, b: Json, done: set<string>)
    requires a.Obj? && b.Obj? && Halfway(f, a, b, done) && b.fields.Keys <= done
    ensures Obj(f) == Overlay(a, b)
  {
    var o := Overlay(a, b);
    assert f.Keys == o.fields.Keys;
    forall k | k in f
      ensures f[k] == o.fields[k]
    {
      assert k in b.fields ==> k in done;
    }
    assert f == o.fields;
  }

  /** Applying the repair patch overlays the existing object with the expected one, in whatever order the keys are
      visited. */
  lemma {:induction false} PatchRepairs(a: Json, b: Json, order: set<string> -> seq<string>)
    requires IsOrder(order) && a.Obj? && b.Obj?
    ensures Apply(Kept(Diff(a, b, order)), a) == Some(Overlay(a, b))
    decreases b, 2, 0
  {
    var keys := order(b.fields.Keys);
    KeptDiff(a, b, order);
    DiffKeysRepair(a, b, keys, order);
    var f := Apply(Kept(DiffKeys(a, b, keys, order)), a).value.fields;
    assert b.fields.Keys <= set x | x in keys;
    HalfwayDone(f, a, b, set x | x in keys);
  }

  /* ---------- What the overlay means ---------- */

  /** The value at a path of keys. */
  function At(doc: Json, path: seq<string>): Option<Json>
    decreases |path|
  {
    if path == [] then Some(doc)
    else if doc.Obj? && path[0] in doc.fields then At(doc.fields[path[0]], path[1..])
    else None
  }

  /** The path leaves the expected tree at a key that an object there does not have. */
  predicate Extra(b: Json, path: seq<string>)
    decreases |path|
  {
    path != [] && b.Obj? && (path[0] in b.fields ==> Extra(b.fields[path[0]], path[1..]))
  }

  /** Everything that others added is kept, unless something expected stands in its place. */
  lemma {:induction false} OverlayKeepsExtras(a: Json, b: Json, path: seq<string>)
    requires Extra(b, path) && At(a, path).Some?
    ensures At(Overlay(a, b), path) == At(a, path)
    decreases |path|
  {
    var k := path[0];
    if k in b.fields {
      OverlayKeepsExtras(a.fields[k], b.fields[k], path[1..]);
    }
  }

  predicate Leaf(v: Json) {
    !v.Obj? && !v.Null?
  }

  /** Every value the chart asks for is there. */
  lemma {:induction false} OverlayShowsExpected(a: Json, b: Json, path: seq<string>)
    requires At(b, path).Some? && Leaf(At(b, path).value)
    ensures At(Overlay(a, b), path) == At(b, path)
    decreases |path|
  {
    if path != [] && a.Obj? {
      var k := path[0];
      if k in a.fields {
        OverlayShowsExpected(a.fields[k], b.fields[k], path[1..]);
      }
    }
  }

  /** Overlaying twice is overlaying once. */
  lemma {:induction false} OverlayTwice(a: Json, b: Json)
    ensures Overlay(Overlay(a, b), b) == Overlay(a, b)
    decreases b
  {
    if b.Obj? {
      var o := Overlay(a, b);
      var p := Overlay(o, b);
      if a.Obj? {
        forall k | k in b.fields && k in a.fields
          ensures Overlay(o.fields[k], b.fields[k]) == o.fields[k]
        {
          OverlayTwice(a.fields[k], b.fields[k]);
        }
      }
      forall k | k in b.fields && k in o.fields && !(a.Obj? && k in a.fields)
        ensures Overlay(o.fields[k], b.fields[k]) == o.fields[k]
      {
        OverlaySelf(b.fields[k]);
      }
      assert p.fields.Keys == o.fields.Keys;
      assert forall k :: k in p.fields ==> p.fields[k] == o.fields[k];
    }
  }

  lemma {:induction false} OverlaySelf(b: Json)
    ensures Overlay(b, b) == b
    decreases b
  {
    if b.Obj? {
      forall k | k in b.fields
        ensures Overlay(b.fields[k], b.fields[k]) == b.fields[k]
      {
        OverlaySelf(b.fields[k]);
      }
      assert Overlay(b, b).fields == b.fields;
    }
  }

  /** There is a patch exactly if the existing object is not yet its own overlay. */
  lemma {:induction false} PatchIsEmptyIff(a: Json, b: Json, order: set<string> -> seq<string>)
    requires IsOrder(order) && a.Obj? && b.Obj?
    ensures Kept(Diff(a, b, order)) == [] <==> Overlay(a, b) == a
    decreases b, 2, 0
  {
    PatchRepairs(a, b, order);
    if Overlay(a, b) == a {
      KeptDiff(a, b, order);
      NothingKept(a, b, order(b.fields.Keys), order);
    }
  }

  /** What it means for one field that the object is its own overlay. */
  lemma FieldInPlace(a: Json, b: Json, k: string)
    requires a.Obj? && b.Obj? && Overlay(a, b) == a && k in b.fields
    ensures k !in a.fields ==> b.fields[k].Null?
    ensures k in a.fields ==> Overlay(a.fields[k], b.fields[k]) == a.fields[k]
  {
    assert k in Overlay(a, b).fields <==> k in a.fields || !b.fields[k].Null?;
  }

  lemma {:induction false} FieldKeepsNothing(a: Json, b: Json, k: string, order: set<string> -> seq<string>)
    requires IsOrder(order) && a.Obj? && b.Obj? && k in b.fields
    requires k !in a.fields ==> b.fields[k].Null?
    requires k in a.fields ==> Overlay(a.fields[k], b.fields[k]) == a.fields[k]
    ensures Kept(DiffKey(a, b, k, order)) == []
    decreases b, 0, 0
  {
    if k !in a.fields {
      assert [Add([k], Null)][..0] == [];
    } else if a.fields[k].Obj? && b.fields[k].Obj? {
      PatchIsEmptyIff(a.fields[k], b.fields[k], order);
      KeptUnder(k, Diff(a.fields[k], b.fields[k], order));
    }
  }

  lemma {:induction false} NothingKept(a: Json, b: Json, keys: seq<string>, order: set<string> -> seq<string>)
    requires IsOrder(order) && a.Obj? && b.Obj? && Overlay(a, b) == a
    ensures Kept(DiffKeys(a, b, keys, order)) == []
    decreases b, 1, |keys|
  {
    if keys != [] {
      var init, k := keys[..|keys| - 1], keys[|keys| - 1];
      NothingKept(a, b, init, order);
      if k in b.fields {
        FieldInPlace(a, b, k);
        FieldKeepsNothing(a, b, k, order);
        KeptConcat(DiffKeys(a, b, init, order), DiffKey(a, b, k, order));
      } else {
        assert DiffKeys(a, b, keys, order) == DiffKeys(a, b, init, order);
      }
    }
  }

  /** Once repaired, an object needs no further patch. */
  lemma RepairedNeedsNoPatch(a: Json, b: Json, order: set<string> -> seq<string>)
    requires IsOrder(order) && a.Obj? && b.Obj?
    ensures var repaired := Apply(Kept(Diff(a, b, order)), a);
            && repaired.Some? && repaired.value.Obj?
            && Kept(Diff(repaired.value, b, order)) == []
  {
    PatchRepairs(a, b, order);
    OverlayTwice(a, b);
    PatchIsEmptyIff(Overlay(a, b), b, order);
  }
}
