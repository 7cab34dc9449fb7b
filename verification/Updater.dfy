/** The updater: it queues edits of the status and of the object and applies them at the end, status first. */
module Updater {
  import opened Wrappers
  import opened StatusEdits
  import opened Cluster
  import opened Server

  /** A queued object function, as data. */
  datatype ObjectEdit = RemoveFinalizer(finalizer: string)

  function Without(fs: seq<string>, f: string): (r: seq<string>)
    ensures f !in r && forall x :: x != f ==> (x in r <==> x in fs)
    ensures f !in fs ==> r == fs
  {
    if fs == [] then [] else (if fs[0] == f then [] else [fs[0]]) + Without(fs[1..], f)
  }

  function ApplyObjectEdit(edit: ObjectEdit, r: Resource): (Resource, bool) {
    if edit.finalizer in r.finalizers then (r.(finalizers := Without(r.finalizers, edit.finalizer)), true)
    else (r, false)
  }

  function FoldObject(edits: seq<ObjectEdit>, r: Resource): (Resource, bool)
    decreases |edits|
  {
    if edits == [] then (r, false)
    else
      var (before, changedBefore) := FoldObject(edits[..|edits| - 1], r);
      var (after, changed) := ApplyObjectEdit(edits[|edits| - 1], before);
      (after, changed || changedBefore)
  }

  lemma {:induction false} ObjectEditsKeepTheRest(edits: seq<ObjectEdit>, r: Resource)
    ensures var (after, changed) := FoldObject(edits, r);
            && after == r.(finalizers := after.finalizers)
            && (!changed ==> after == r)
            && (edits == [] ==> !changed)
    decreases |edits|
  {
    if edits != [] {
      ObjectEditsKeepTheRest(edits[..|edits| - 1], r);
    }
  }

  /** After a queue exactly those finalizers are left whose removal was not queued. */
  lemma {:induction false} FinalizersLeft(edits: seq<ObjectEdit>, r: Resource, f: string)
    ensures f in FoldObject(edits, r).0.finalizers <==> f in r.finalizers && RemoveFinalizer(f) !in edits
    decreases |edits|
  {
    if edits != [] {
      var init, last := edits[..|edits| - 1], edits[|edits| - 1];
      assert edits == init + [last];
      FinalizersLeft(init, r, f);
    }
  }

  /** Whether only the removal of the operator's own finalizer is queued. */
  predicate OnlyOwn(edits: seq<ObjectEdit>) {
    forall e :: e in edits ==> e.finalizer == UNINSTALL_FINALIZER
  }

  lemma OwnEditsKeepOthers(edits: seq<ObjectEdit>, r: Resource)
    requires OnlyOwn(edits)
    ensures SameOthers(FoldObject(edits, r).0.finalizers, r.finalizers)
  {
    forall f | f != UNINSTALL_FINALIZER
      ensures f in FoldObject(edits, r).0.finalizers <==> f in r.finalizers
    {
      FinalizersLeft(edits, r, f);
    }
  }

  predicate Retryable(e: Option<ApiError>) {
    e == Some(OtherError)
  }

  const ATTEMPTS := 5

  /** The answers to the tries of one write: every try but the last got an error that can be tried again, and the
      last was the fifth or got another answer. */
  predicate Retried(tries: seq<Option<ApiError>>, e: Option<ApiError>) {
    && 1 <= |tries| <= ATTEMPTS && tries[|tries| - 1] == e
    && (forall i :: 0 <= i < |tries| - 1 ==> Retryable(tries[i]))
    && (Retryable(e) ==> |tries| == ATTEMPTS)
  }

  predicate Answered(before: seq<Option<ApiError>>, after: seq<Option<ApiError>>, e: Option<ApiError>) {
    |before| <= |after| && after[..|before|] == before && Retried(after[|before|..], e)
  }

  /** The rule for trying again, in full. */
  lemma RetryRule(before: seq<Option<ApiError>>, after: seq<Option<ApiError>>, e: Option<ApiError>)
    requires Answered(before, after, e)
    ensures 1 <= |after| - |before| <= 5 && after[|after| - 1] == e
    ensures forall i :: |before| <= i < |after| - 1 ==> after[i] == Some(OtherError)
    ensures e == Some(OtherError) ==> |after| - |before| == 5
  {
    var tries := after[|before|..];
    assert forall i :: |before| <= i < |after| ==> after[i] == tries[i - |before|];
  }

  /** The same while the tries go on. */
  predicate Tried(before: seq<Option<ApiError>>, after: seq<Option<ApiError>>, tries: nat, e: Option<ApiError>) {
    && tries > 0 && |after| == |before| + tries && after[..|before|] == before && after[|after| - 1] == e
    && forall i :: |before| <= i < |after| - 1 ==> Retryable(after[i])
  }

  lemma TriedAgain(before: seq<Option<ApiError>>, after: seq<Option<ApiError>>, tries: nat, e: Option<ApiError>)
    requires after != [] && Tried(before, after, tries, after[|after| - 1]) && Retryable(after[|after| - 1])
    ensures Tried(before, after + [e], tries + 1, e)
  {
    assert (after + [e])[..|before|] == after[..|before|];
  }

  /** In the new part of the log, an object write comes only after a status write that succeeded. */
  predicate StatusFirst(before: seq<Entry>, after: seq<Entry>) {
    forall i :: |before| <= i < |after| && after[i].actor.MetaWrite? ==>
      exists j :: |before| <= j < i && after[j].actor.StatusWrite? && after[j].ok
  }

  lemma GrowsTransitive(a: seq<Entry>, b: seq<Entry>, c: seq<Entry>, s: set<Actor>, t: set<Actor>)
    requires Grows(a, b, s) && Grows(b, c, t)
    ensures Grows(a, c, s + t)
  {
    forall i | |a| <= i < |c|
      ensures c[i].actor in s + t + {User}
    {
      if i < |b| {
        assert c[i] == c[..|b|][i];
      }
    }
    assert c[..|a|] == c[..|b|][..|a|];
  }

  class Updater {
    var isCanceled: bool
    var updateFuncs: seq<ObjectEdit>
    var updateStatusFuncs: seq<StatusEdit>

    constructor ()
      ensures !isCanceled && updateFuncs == [] && updateStatusFuncs == []
    {
      isCanceled, updateFuncs, updateStatusFuncs := false, [], [];
    }

    method Update(fs: seq<ObjectEdit>)
      modifies this`updateFuncs
      ensures updateFuncs == old(updateFuncs) + fs
    {
      updateFuncs := updateFuncs + fs;
    }

    method UpdateStatus(fs: seq<StatusEdit>)
      modifies this`updateStatusFuncs
      ensures updateStatusFuncs == old(updateStatusFuncs) + fs
    {
      updateStatusFuncs := updateStatusFuncs + fs;
    }

    method CancelUpdates()
      modifies this`isCanceled
      ensures isCanceled
    {
      isCanceled := true;
    }

    /** The status write, tried again as long as the error is one that can be tried again. */
    method WriteStatus(c: ApiServer, obj: Object) returns (e: Option<ApiError>)
      requires c.Valid()
      modifies c, obj
      ensures c.Valid() && (old(c.Good() && StatusOk(obj.it.status)) ==> c.Good())
      ensures Answered(old(c.answers), c.answers, e)
      ensures c.lastRead == old(c.lastRead) && Grows(old(c.log), c.log, {StatusWrite})
      ensures c.w.helm == old(c.w.helm) && (old(Held(c.w)) ==> Held(c.w))
      ensures old(SpecSync(obj.it, c.w)) ==> SpecSync(obj.it, c.w) && SameSpec(obj.it, old(obj.it))
      ensures obj.it.status == old(obj.it.status)
      ensures e.Some? ==> obj.it == old(obj.it)
      ensures e.None? ==> c.w.cr == Some(obj.it) && |c.log| > |old(c.log)| && EndsWith(c.log, StatusWrite, true)
      ensures c.quiet && old(c.w.cr.Some? && c.w.cr.value.version == obj.it.version) ==>
                e.None? && c.w == StatusWritten(old(c.w), old(obj.it.status))
    {
      e := c.UpdateStatus(obj);
      var attempt := 1;
      while attempt < ATTEMPTS && Retryable(e)
        invariant 1 <= attempt <= ATTEMPTS && Tried(old(c.answers), c.answers, attempt, e)
        invariant c.Valid() && (old(c.Good() && StatusOk(obj.it.status)) ==> c.Good())
        invariant c.lastRead == old(c.lastRead) && Grows(old(c.log), c.log, {StatusWrite})
        invariant c.w.helm == old(c.w.helm) && (old(Held(c.w)) ==> Held(c.w))
        invariant old(SpecSync(obj.it, c.w)) ==> SpecSync(obj.it, c.w) && SameSpec(obj.it, old(obj.it))
        invariant obj.it.status == old(obj.it.status)
        invariant e.Some? ==> obj.it == old(obj.it)
        invariant e.None? ==> c.w.cr == Some(obj.it) && |c.log| > |old(c.log)| && EndsWith(c.log, StatusWrite, true)
        invariant c.quiet && old(c.w.cr.Some? && c.w.cr.value.version == obj.it.version) ==>
                    e.None? && c.w == StatusWritten(old(c.w), old(obj.it.status))
      {
        ghost var logged, answered := c.log, c.answers;
        e := c.UpdateStatus(obj);
        GrowsTransitive(old(c.log), logged, c.log, {StatusWrite}, {StatusWrite});
        TriedAgain(old(c.answers), answered, attempt, e);
        attempt := attempt + 1;
      }
    }

    /** The write of the object, tried again in the same way. */
    method WriteObject(c: ApiServer, obj: Object) returns (e: Option<ApiError>)
      requires c.Valid()
      modifies c, obj
      ensures c.Valid()
      ensures old(c.Good() && SafeToWrite(obj.it, c.w, c.log) && StatusOk(obj.it.status)) ==>
                c.Good() && StatusOk(obj.it.status)
      ensures Answered(old(c.answers), c.answers, e)
      ensures c.lastRead == old(c.lastRead) && Grows(old(c.log), c.log, {MetaWrite})
      ensures c.w.helm == old(c.w.helm)
      ensures e.None? ==> c.w.cr == Settle(obj.it) && obj.it.finalizers == old(obj.it.finalizers)
      ensures c.quiet && old(c.w.cr.Some? && c.w.cr.value.version == obj.it.version) ==>
                e.None? && c.w == MetaWritten(old(c.w), old(obj.it))
    {
      e := c.Update(obj);
      var attempt := 1;
      while attempt < ATTEMPTS && Retryable(e)
        invariant 1 <= attempt <= ATTEMPTS && Tried(old(c.answers), c.answers, attempt, e)
        invariant c.Valid()
        invariant old(c.Good() && SafeToWrite(obj.it, c.w, c.log) && StatusOk(obj.it.status)) ==>
                    c.Good() && StatusOk(obj.it.status) && (e.Some? ==> SafeToWrite(obj.it, c.w, c.log))
        invariant c.lastRead == old(c.lastRead) && Grows(old(c.log), c.log, {MetaWrite})
        invariant c.w.helm == old(c.w.helm)
        invariant e.None? ==> c.w.cr == Settle(obj.it)
        invariant obj.it.finalizers == old(obj.it.finalizers)
        invariant c.quiet && old(c.w.cr.Some? && c.w.cr.value.version == obj.it.version) ==>
                    e.None? && c.w == MetaWritten(old(c.w), old(obj.it))
      {
        ghost var logged, answered := c.log, c.answers;
        e := c.Update(obj);
        GrowsTransitive(old(c.log), logged, c.log, {MetaWrite}, {MetaWrite});
        TriedAgain(old(c.answers), answered, attempt, e);
        attempt := attempt + 1;
      }
    }

    method RunStatusFuncs(from: Status, now: int) returns (st: Status, needsUpdate: bool)
      ensures (st, needsUpdate) == Fold(updateStatusFuncs, from, now)
    {
      st, needsUpdate := from, false;
      var i := 0;
      while i < |updateStatusFuncs|
        invariant 0 <= i <= |updateStatusFuncs|
        invariant (st, needsUpdate) == Fold(updateStatusFuncs[..i], from, now)
      {
        var (after, changed) := ApplyEdit(updateStatusFuncs[i], st, now);
        assert updateStatusFuncs[..i + 1][..i] == updateStatusFuncs[..i];
        st, needsUpdate := after, changed || needsUpdate;
        i := i + 1;
      }
      assert updateStatusFuncs[..i] == updateStatusFuncs;
    }

    method RunUpdateFuncs(obj: Object) returns (needsUpdate: bool)
      modifies obj
      ensures (obj.it, needsUpdate) == FoldObject(updateFuncs, old(obj.it))
    {
      needsUpdate := false;
      var i := 0;
      while i < |updateFuncs|
        invariant 0 <= i <= |updateFuncs|
        invariant (obj.it, needsUpdate) == FoldObject(updateFuncs[..i], old(obj.it))
      {
        var (after, changed) := ApplyObjectEdit(updateFuncs[i], obj.it);
        assert updateFuncs[..i + 1][..i] == updateFuncs[..i];
        obj.it, needsUpdate := after, changed || needsUpdate;
        i := i + 1;
      }
      assert updateFuncs[..i] == updateFuncs;
    }

    /** The first half: fold the status functions, and write the status if one of them reported a change. */
    method ApplyStatus(c: ApiServer, obj: Object, now: int) returns (e: Option<ApiError>)
      requires c.Valid()
      modifies c, obj
      ensures c.Valid()
      ensures old(c.Good() && StatusOk(obj.it.status) && StatusOk(Fold(updateStatusFuncs, obj.it.status, now).0)) ==>
                c.Good() && StatusOk(obj.it.status)
      ensures c.lastRead == old(c.lastRead) && c.w.helm == old(c.w.helm) && Grows(old(c.log), c.log, {StatusWrite})
      ensures old(SpecSync(obj.it, c.w)) ==> SpecSync(obj.it, c.w) && SameSpec(obj.it, old(obj.it))
      ensures var (st, changed) := Fold(updateStatusFuncs, old(obj.it.status), now);
              if changed then
                && Answered(old(c.answers), c.answers, e)
                && (e.None? ==>
                     && c.w.cr == Some(obj.it) && obj.it.status == Written(st)
                     && |c.log| > |old(c.log)| && EndsWith(c.log, StatusWrite, true))
              else
                e.None? && c.w == old(c.w) && c.log == old(c.log) && obj.it == old(obj.it)
      ensures c.quiet && old(c.w.cr.Some? && c.w.cr.value.version == obj.it.version) ==>
                e.None? && c.w == StatusApplied(updateStatusFuncs, old(obj.it), old(c.w), now)
    {
      var st, needsStatusUpdate := RunStatusFuncs(obj.it.status, now);
      if needsStatusUpdate {
        if StatusOk(st) {
          WrittenKeepsContent(st, DEPLOYED);
        }
        obj.it := obj.it.(status := Written(st));
        e := WriteStatus(c, obj);
        return;
      }
      return None;
    }

    /** Whether the queued object edits keep the operator's finalizer or may remove it. */
    ghost predicate MayRelease(c: ApiServer, obj: Object)
      reads this, c, obj
    {
      updateFuncs != [] ==>
        && SpecSync(obj.it, c.w) && obj.it.deleting && c.w.helm == [] && UninstallDone(c.log, obj.it.uid)
        && OnlyOwn(updateFuncs)
    }

    /** The second half: run the object functions, and write the object if one of them reported a change. */
    method ApplyObject(c: ApiServer, obj: Object) returns (e: Option<ApiError>)
      requires c.Valid()
      modifies c, obj
      ensures c.Valid()
      ensures old(c.Good() && StatusOk(obj.it.status) && MayRelease(c, obj)) ==> c.Good() && StatusOk(obj.it.status)
      ensures c.lastRead == old(c.lastRead) && c.w.helm == old(c.w.helm) && Grows(old(c.log), c.log, {MetaWrite})
      ensures e.None? && RemoveFinalizer(UNINSTALL_FINALIZER) in updateFuncs ==>
                old(HasFinalizer(obj.it)) || old(c.w.cr == Some(obj.it)) ==> !Held(c.w)
      ensures !FoldObject(updateFuncs, old(obj.it)).1 ==>
                e.None? && c.w == old(c.w) && c.log == old(c.log) && obj.it == old(obj.it)
      ensures c.quiet && old(c.w.cr.Some? && c.w.cr.value.version == obj.it.version) ==>
                e.None? && c.w == ObjectApplied(updateFuncs, old(obj.it), old(c.w))
    {
      ObjectEditsKeepTheRest(updateFuncs, obj.it);
      if OnlyOwn(updateFuncs) {
        OwnEditsKeepOthers(updateFuncs, obj.it);
      }
      if RemoveFinalizer(UNINSTALL_FINALIZER) in updateFuncs {
        FinalizersLeft(updateFuncs, obj.it, UNINSTALL_FINALIZER);
      }
      var needsUpdate := RunUpdateFuncs(obj);
      if needsUpdate {
        e := WriteObject(c, obj);
        return;
      }
      return None;
    }

    /** What makes applying the queues safe: the status stays consistent, and an object edit comes only when the
        finalizer may go. */
    ghost predicate Safe(c: ApiServer, obj: Object, now: int)
      reads this, c, obj
    {
      && c.Good() && StatusOk(obj.it.status) && StatusOk(Fold(updateStatusFuncs, obj.it.status, now).0)
      && MayRelease(c, obj)
    }

    /** Applies the queues to the object, unless the updates were canceled.  The status is written only if an edit
        reported a change, and before the object, which is written only if an object edit reported one. */
    method Apply(c: ApiServer, obj: Object, now: int) returns (e: Option<ApiError>)
      requires c.Valid()
      modifies c, obj
      ensures c.Valid() && (old(Safe(c, obj, now)) ==> c.Good() && StatusOk(obj.it.status))
      ensures c.lastRead == old(c.lastRead) && c.w.helm == old(c.w.helm)
      ensures isCanceled ==> e.None? && c.w == old(c.w) && c.log == old(c.log) && obj.it == old(obj.it)
      ensures Grows(old(c.log), c.log, if updateFuncs == [] then {StatusWrite} else {StatusWrite, MetaWrite})
      ensures Fold(updateStatusFuncs, old(obj.it.status), now).1 ==> StatusFirst(old(c.log), c.log)
      ensures !isCanceled && updateFuncs == [] && e.None? && !Fold(updateStatusFuncs, old(obj.it.status), now).1 ==>
                c.w == old(c.w) && c.log == old(c.log)
      ensures !isCanceled && updateFuncs == [] && e.None? && Fold(updateStatusFuncs, old(obj.it.status), now).1 ==>
                c.w.cr == Some(obj.it) && obj.it.status == Written(Fold(updateStatusFuncs, old(obj.it.status), now).0)
      ensures !isCanceled && e.None? && RemoveFinalizer(UNINSTALL_FINALIZER) in updateFuncs ==>
                old(HasFinalizer(obj.it)) ==> !Held(c.w)
      ensures c.quiet && !isCanceled && old(c.w.cr.Some? && c.w.cr.value.version == obj.it.version) ==>
                && e.None?
                && var w1 := StatusApplied(updateStatusFuncs, old(obj.it), old(c.w), now);
                   c.w == if updateFuncs == [] then w1
                          else ObjectApplied(updateFuncs, if w1 == old(c.w) then old(obj.it) else w1.cr.value, w1)
    {
      if isCanceled {
        return None;
      }
      e := ApplyStatus(c, obj, now);
      if e.Some? {
        return;
      }
      ghost var middle := c.log;
      if old(MayRelease(c, obj)) && updateFuncs != [] {
        DoneStays(old(c.log), middle, old(obj.it.uid));
      }
      ObjectEditsKeepTheRest(updateFuncs, obj.it);
      e := ApplyObject(c, obj);
      GrowsTransitive(old(c.log), middle, c.log, {StatusWrite}, {MetaWrite});
      if Fold(updateStatusFuncs, old(obj.it.status), now).1 {
        StatusFirstJoin(old(c.log), middle, c.log);
      }
    }
  }

  lemma StatusFirstJoin(a: seq<Entry>, b: seq<Entry>, c: seq<Entry>)
    requires Grows(a, b, {StatusWrite}) && |a| < |b| && EndsWith(b, StatusWrite, true) && Grows(b, c, {MetaWrite})
    ensures StatusFirst(a, c)
  {
    assert c[..|b|][|b| - 1] == c[|b| - 1];
    assert forall i :: |a| <= i < |b| ==> c[i] == b[i];
  }

  function StatusApplied(edits: seq<StatusEdit>, r: Resource, w: World, now: int): World
    requires w.cr.Some?
  {
    var (st, changed) := Fold(edits, r.status, now);
    if changed then StatusWritten(w, Written(st)) else w
  }

  function ObjectApplied(edits: seq<ObjectEdit>, r: Resource, w: World): World
    requires w.cr.Some?
  {
    var (after, changed) := FoldObject(edits, r);
    if changed then MetaWritten(w, after) else w
  }
}
