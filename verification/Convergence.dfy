/** Convergence: after one undisturbed reconciliation the stored release is the desired one, and further ones do
    nothing. */
module Convergence {
  import opened Wrappers
  import opened Conditions
  import opened StatusEdits
  import opened Outcomes
  import opened Cluster
  import opened Server
  import opened Reconciler

  function SuccessParts(rel: Revision): set<StatusEdit> {
    {Mk(PAUSED, ConditionFalse, "", ""), Mk(INITIALIZED, ConditionTrue, "", ""),
     Mk(DEPLOYED, ConditionTrue, DeployedReason(rel), DeployedMessage(rel)),
     Mk(RELEASE_FAILED, ConditionFalse, "", ""), Mk(IRRECONCILABLE, ConditionFalse, "", ""),
     EnsureDeployedRelease(Some(RecordOf(rel)))}
  }

  lemma PartsOfSuccess(rel: Revision, e: StatusEdit)
    requires e in EditsFor(Success(Found(rel), true, rel))
    ensures e in SuccessParts(rel)
  {
    var known := Found(rel);
    assert e in EarlyEdits(known) ==> e in SuccessParts(rel);
    assert e in SuccessStart(known, true) ==> e in SuccessParts(rel);
  }

  lemma PartOfRow(edits: seq<StatusEdit>, rel: Revision, e: StatusEdit)
    requires AmountsToRow(edits, Row(FALSE, TRUE, DeployedCell(rel), FALSE, FALSE, Some(Some(RecordOf(rel)))))
    requires e in SuccessParts(rel)
    ensures if e.EnsureCondition? then LastCondition(edits, e.cond.typ) == Some(e.cond)
            else LastRelease(edits) == Some(e.rel)
  {
  }

  lemma PartHolds(known: KnownRelease, same: bool, rel: Revision, st: Status, now: int, e: StatusEdit)
    requires e in SuccessParts(rel)
    ensures Holds(e, Fold(EditsFor(Success(known, same, rel)), st, now).0)
  {
    var edits := EditsFor(Success(known, same, rel));
    RowHolds(Success(known, same, rel));
    PartOfRow(edits, rel, e);
    if e.EnsureCondition? {
      LastEditWins(edits, st, now, e.cond.typ);
    } else {
      LastReleaseWins(edits, st, now);
    }
  }

  /** After a success, everything that the next success would queue for the same release already holds. */
  lemma SuccessRepeats(known: KnownRelease, same: bool, rel: Revision, st: Status, now: int)
    requires Unique(st.conditions)
    ensures var after := Fold(EditsFor(Success(known, same, rel)), st, now).0;
            && AllHold(EditsFor(Success(Found(rel), true, rel)), after)
            && AllHold(EditsFor(Success(Found(rel), true, rel)), Written(after))
  {
    var after := Fold(EditsFor(Success(known, same, rel)), st, now).0;
    FoldKeepsUnique(EditsFor(Success(known, same, rel)), st, now);
    forall e | e in EditsFor(Success(Found(rel), true, rel))
      ensures Holds(e, after) && Holds(e, Written(after))
    {
      PartsOfSuccess(rel, e);
      PartHolds(known, same, rel, st, now, e);
      WrittenKeepsHolds(e, after);
    }
  }

  /** The desired manifest is the latest one, and the next look at the release finds nothing to do. */
  lemma HelmSettles(s: Settings, name: string, helm: seq<Revision>, vals: Values)
    ensures var h := HelmAfter(s, name, helm, vals);
            && Last(h).manifest == s.render(vals)
            && Classify(h, s.render(vals)) == Unchanged(Last(h))
            && HelmAfter(s, name, h, vals) == h
  {
  }

  lemma StatusSettles(s: Settings, name: string, w: World, now: int, later: int)
    requires Live(s, w) && WorldOk(w)
    ensures var w1 := Deployed(s, name, w, now);
            && w1.cr.Some? && w1.cr.value.spec == w.cr.value.spec
            && Live(s, w1)
            && w1.helm == HelmAfter(s, name, w.helm, Desired(s, w.cr.value.spec).value)
            && (HasFinalizer(w.cr.value) ==> HasFinalizer(w1.cr.value))
            && Deployed(s, name, w1, later) == w1
  {
    var vals := Desired(s, w.cr.value.spec).value;
    HelmSettles(s, name, w.helm, vals);
    var o := QuietOutcome(s, name, w.helm, vals);
    SuccessRepeats(o.known, o.same, o.result, w.cr.value.status, now);
    WriteSkippedIff(EditsFor(o), w.cr.value.status, now);
    var w1 := Deployed(s, name, w, now);
    assert QuietOutcome(s, name, w1.helm, vals) == Success(Found(o.result), true, o.result);
    WriteSkippedIff(EditsFor(Success(Found(o.result), true, o.result)), w1.cr.value.status, later);
  }

  /** From any live, unpaused resource one undisturbed reconciliation makes the latest manifest the rendered one and
      holds the resource with the finalizer; the next finds the release unchanged, and changes nothing at all:
      neither history nor status nor the version of the resource. */
  lemma Converges(s: Settings, name: string, w: World, now: int, later: int)
    requires Live(s, w) && WorldOk(w)
    ensures var w1 := Settled(s, name, w, now);
            var manifest := s.render(Desired(s, w.cr.value.spec).value);
            && Live(s, w1) && Held(w1) && w1.cr.value.spec == w.cr.value.spec
            && w1.helm != [] && Last(w1.helm).manifest == manifest && Last(w1.helm).status.RevisionDeployed?
            && Delivers(s, name, w.helm, w.cr.value.spec, w1.helm)
            && Classify(w1.helm, manifest).Unchanged?
            && Settled(s, name, w1, later) == w1
  {
    var p := Prepared(w);
    assert Live(s, p) && p.cr.value.spec == w.cr.value.spec && HasFinalizer(p.cr.value) && WorldOk(p);
    StatusSettles(s, name, p, now, later);
    HelmSettles(s, name, p.helm, Desired(s, w.cr.value.spec).value);
    HelmAfterDelivers(s, name, w.helm, w.cr.value.spec);
    var w1 := Settled(s, name, w, now);
    assert Prepared(w1) == w1;
  }

  /** Written or skipped, the status afterwards is the row of the outcome. */
  lemma OnlyStatusMatchesRow(o: Outcome, w: World, now: int)
    requires w.cr.Some? && StatusOk(w.cr.value.status)
    ensures var w1 := OnlyStatus(o, w, now);
            && w1.cr.Some? && w1 == w.(cr := w1.cr, lastVersion := w1.lastVersion)
            && w1.cr.value == w.cr.value.(version := w1.cr.value.version, status := w1.cr.value.status)
            && w.lastVersion <= w1.lastVersion && (w1 != w ==> w1.cr.value.version == w1.lastVersion)
            && StatusOk(w1.cr.value.status)
            && MatchesRow(w.cr.value.status, w1.cr.value.status, TableRow(o))
  {
    var st := w.cr.value.status;
    var after := Fold(EditsFor(o), st, now).0;
    OutcomeTable(o, st, now);
    WriteSkippedIff(EditsFor(o), st, now);
    EveryOutcomeKeepsStatusOk(o, st, now);
    forall t
      ensures Lookup(Written(after).conditions, t) == Lookup(after.conditions, t)
      ensures StatusOk(Written(after))
    {
      WrittenKeepsContent(after, t);
    }
  }

  /** The condition on the release is exact.  While Helm refuses to touch it, an undisturbed reconciliation leaves the
      history, the spec and the refusal as they are, so that every later one is refused as well; and the status says
      that the state of the release is not known. */
  lemma RefusedStaysRefused(s: Settings, w: World, o: Outcome, now: int)
    requires Ready(s, w) && !Settleable(w.helm) && WorldOk(w) && RefusedBy(o, w.helm)
    ensures var w1 := OnlyStatus(o, Prepared(w), now);
            && Ready(s, w1) && !Settleable(w1.helm) && WorldOk(w1) && Held(w1)
            && w1.helm == w.helm && w1.cr.value.spec == w.cr.value.spec
            && MatchesRow(w.cr.value.status, w1.cr.value.status, TableRow(o))
  {
    var p := Prepared(w);
    assert p.cr.Some? && HasFinalizer(p.cr.value) && p.cr.value.status == w.cr.value.status && WorldOk(p);
    OnlyStatusMatchesRow(o, p, now);
  }

  lemma SettledShows(s: Settings, name: string, w: World, now: int)
    requires Live(s, w) && WorldOk(w)
    ensures var w1 := Settled(s, name, w, now);
            && w1.cr.Some? && w1.helm != []
            && Shows(w1.cr.value.status, Condition(DEPLOYED, ConditionTrue, DeployedReason(Last(w1.helm)),
                                                   DeployedMessage(Last(w1.helm)), 0))
            && Shows(w1.cr.value.status, Condition(IRRECONCILABLE, ConditionFalse, "", "", 0))
            && w1.cr.value.status.deployed == Some(RecordOf(Last(w1.helm)))
  {
    var p := Prepared(w);
    assert Live(s, p) && p.cr.value.spec == w.cr.value.spec && WorldOk(p);
    var vals := Desired(s, w.cr.value.spec).value;
    var o := QuietOutcome(s, name, p.helm, vals);
    WriteSkippedIff(EditsFor(o), p.cr.value.status, now);
    var st := Fold(EditsFor(o), p.cr.value.status, now).0;
    FoldKeepsUnique(EditsFor(o), p.cr.value.status, now);
    var rel := o.result;
    var deployed := Mk(DEPLOYED, ConditionTrue, DeployedReason(rel), DeployedMessage(rel));
    var calm := Mk(IRRECONCILABLE, ConditionFalse, "", "");
    PartHolds(o.known, o.same, rel, p.cr.value.status, now, deployed);
    PartHolds(o.known, o.same, rel, p.cr.value.status, now, calm);
    PartHolds(o.known, o.same, rel, p.cr.value.status, now, EnsureDeployedRelease(Some(RecordOf(rel))));
    WrittenKeepsHolds(deployed, st);
    WrittenKeepsHolds(calm, st);
  }

  /** What an undisturbed reconciliation says in the status is the success row of the release it leaves. */
  lemma SettledStatus(s: Settings, name: string, w: World, now: int)
    requires Live(s, w) && WorldOk(w)
    ensures var w1 := Settled(s, name, w, now);
            && w1.cr.Some? && w1.helm != []
            && TellsOf(w1.cr.value.status, w1.helm[|w1.helm| - 1])
  {
    SettledShows(s, name, w, now);
  }

  /** The status tells of this revision, by its version and notes. */
  predicate TellsOf(st: Status, rel: Revision) {
    && Shows(st, Condition("Deployed", ConditionTrue,
                           if rel.version > 1 then "UpgradeSuccessful" else "InstallSuccessful",
                           if rel.notes != "" then rel.notes
                           else if rel.version > 1 then "release was successfully upgraded"
                           else "release was successfully installed", 0))
    && Shows(st, Condition("Irreconcilable", ConditionFalse, "", "", 0))
    && st.deployed == Some(DeployedRelease(rel.name, rel.manifest))
  }
}
