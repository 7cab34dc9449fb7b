/** The status of a custom resource and the edits that a reconciliation queues for it. */
module StatusEdits {
  import opened Wrappers
  import opened Conditions

  datatype DeployedRelease = DeployedRelease(name: string, manifest: string)

  datatype Status = Status(conditions: seq<Condition>, deployed: Option<DeployedRelease>)

  const EMPTY_STATUS := Status([], None)

  /** A queued status function, as data. */
  datatype StatusEdit =
    | EnsureCondition(cond: Condition)
    | EnsureDeployedRelease(rel: Option<DeployedRelease>)

  function EnsureConditionUnknown(t: string): StatusEdit {
    EnsureCondition(Condition(t, ConditionUnknown, "", "", 0))
  }

  function RemoveDeployedRelease(): StatusEdit {
    EnsureDeployedRelease(None)
  }

  /** The status after one edit and whether the edit reports a change. */
  function ApplyEdit(edit: StatusEdit, st: Status, now: int): (Status, bool) {
    match edit
    case EnsureCondition(c) =>
      var (conds, changed) := Set(st.conditions, c, now);
      (st.(conditions := conds), changed)
    case EnsureDeployedRelease(rel) =>
      if st.deployed == rel then (st, false) else (st.(deployed := rel), true)
  }

  /** All edits in order; the flag tells whether any of them reported a change. */
  function Fold(edits: seq<StatusEdit>, st: Status, now: int): (Status, bool)
    decreases |edits|
  {
    if edits == [] then (st, false)
    else
      var (before, changedBefore) := Fold(edits[..|edits| - 1], st, now);
      var (after, changed) := ApplyEdit(edits[|edits| - 1], before, now);
      (after, changed || changedBefore)
  }

  /* ---------- What a queue of edits means: the last edit for each part of the status wins ---------- */

  function LastCondition(edits: seq<StatusEdit>, t: string): Option<Condition>
    decreases |edits|
  {
    if edits == [] then None
    else
      var last := edits[|edits| - 1];
      if last.EnsureCondition? && last.cond.typ == t then Some(last.cond)
      else LastCondition(edits[..|edits| - 1], t)
  }

  function LastRelease(edits: seq<StatusEdit>): Option<Option<DeployedRelease>>
    decreases |edits|
  {
    if edits == [] then None
    else
      var last := edits[|edits| - 1];
      if last.EnsureDeployedRelease? then Some(last.rel) else LastRelease(edits[..|edits| - 1])
  }

  /** The status shows a condition with this content. */
  predicate Shows(st: Status, c: Condition) {
    Lookup(st.conditions, c.typ).Some? && SameContent(Lookup(st.conditions, c.typ).value, c)
  }

  /** For each condition type the last queued edit decides, and a type without an edit stays exactly as it was. */
  lemma {:induction false} LastEditWins(edits: seq<StatusEdit>, st: Status, now: int, t: string)
    ensures var after := Fold(edits, st, now).0;
            if LastCondition(edits, t).Some? then Shows(after, LastCondition(edits, t).value)
            else Lookup(after.conditions, t) == Lookup(st.conditions, t)
    ensures LastCondition(edits, t).Some? ==> LastCondition(edits, t).value.typ == t
    decreases |edits|
  {
    if edits != [] {
      var before := Fold(edits[..|edits| - 1], st, now).0;
      LastEditWins(edits[..|edits| - 1], st, now, t);
      var last := edits[|edits| - 1];
      if last.EnsureCondition? {
        SetEffect(before.conditions, last.cond, now);
        if last.cond.typ != t {
          SetKeepsOthers(before.conditions, last.cond, now, t);
        }
      }
    }
  }

  lemma {:induction false} LastReleaseWins(edits: seq<StatusEdit>, st: Status, now: int)
    ensures Fold(edits, st, now).0.deployed ==
              if LastRelease(edits).Some? then LastRelease(edits).value else st.deployed
    decreases |edits|
  {
    if edits != [] {
      LastReleaseWins(edits[..|edits| - 1], st, now);
    }
  }

  lemma {:induction false} FoldKeepsUnique(edits: seq<StatusEdit>, st: Status, now: int)
    requires Unique(st.conditions)
    ensures Unique(Fold(edits, st, now).0.conditions)
    decreases |edits|
  {
    if edits != [] {
      FoldKeepsUnique(edits[..|edits| - 1], st, now);
      var before := Fold(edits[..|edits| - 1], st, now).0;
      var last := edits[|edits| - 1];
      if last.EnsureCondition? {
        SetEffect(before.conditions, last.cond, now);
      }
    }
  }

  /** The status already says what the edit asks for. */
  predicate Holds(edit: StatusEdit, st: Status) {
    match edit
    case EnsureCondition(c) => Shows(st, c)
    case EnsureDeployedRelease(rel) => st.deployed == rel
  }

  lemma EditChangesIff(edit: StatusEdit, st: Status, now: int)
    ensures ApplyEdit(edit, st, now).1 <==> !Holds(edit, st)
    ensures Holds(edit, st) ==> ApplyEdit(edit, st, now).0 == st
  {
    if edit.EnsureCondition? {
      SetEffect(st.conditions, edit.cond, now);
    }
  }

  predicate AllHold(edits: seq<StatusEdit>, st: Status) {
    forall e :: e in edits ==> Holds(e, st)
  }

  /** The status write is skipped exactly if every edit already holds, and then nothing at all has changed,
      transition times included. */
  lemma {:induction false} WriteSkippedIff(edits: seq<StatusEdit>, st: Status, now: int)
    ensures !Fold(edits, st, now).1 <==> AllHold(edits, st)
    ensures !Fold(edits, st, now).1 ==> Fold(edits, st, now).0 == st
    decreases |edits|
  {
    if edits != [] {
      var init, last := edits[..|edits| - 1], edits[|edits| - 1];
      assert edits == init + [last];
      WriteSkippedIff(init, st, now);
      EditChangesIff(last, Fold(init, st, now).0, now);
    }
  }

  /* ---------- Consistency of the Deployed condition and the recorded release ---------- */

  const DEPLOYED := "Deployed"

  /** Deployed=True comes with a recorded release; Deployed=Unknown, or no such condition, comes without. */
  predicate Consistent(st: Status) {
    match Lookup(st.conditions, DEPLOYED)
    case None => st.deployed.None?
    case Some(c) =>
      && (c.status.ConditionTrue? ==> st.deployed.Some?)
      && (c.status.ConditionUnknown? ==> st.deployed.None?)
  }

  predicate StatusOk(st: Status) {
    Unique(st.conditions) && Consistent(st)
  }

  /** Edits that set Deployed to True also record a release, edits that set it to Unknown also remove it, and the
      record is not touched without saying something about Deployed. */
  predicate KeepConsistent(edits: seq<StatusEdit>) {
    match LastCondition(edits, DEPLOYED)
    case None => LastRelease(edits).None?
    case Some(c) =>
      && (c.status.ConditionTrue? ==> LastRelease(edits).Some? && LastRelease(edits).value.Some?)
      && (c.status.ConditionUnknown? ==> LastRelease(edits) == Some(None))
  }

  lemma FoldKeepsStatusOk(edits: seq<StatusEdit>, st: Status, now: int)
    requires StatusOk(st) && KeepConsistent(edits)
    ensures StatusOk(Fold(edits, st, now).0)
  {
    FoldKeepsUnique(edits, st, now);
    LastEditWins(edits, st, now, DEPLOYED);
    LastReleaseWins(edits, st, now);
  }

  /** The status as it is written: conditions sorted by type. */
  function Written(st: Status): Status {
    st.(conditions := Sorted(st.conditions))
  }

  /** Writing the status changes the order of the conditions and nothing a reader can look up. */
  lemma WrittenKeepsContent(st: Status, t: string)
    requires Unique(st.conditions)
    ensures Unique(Written(st).conditions)
    ensures Lookup(Written(st).conditions, t) == Lookup(st.conditions, t)
    ensures SortedByType(Written(st).conditions) && multiset(Written(st).conditions) == multiset(st.conditions)
    ensures Written(st).deployed == st.deployed
    ensures StatusOk(st) ==> StatusOk(Written(st))
  {
    SortedOrdersAll(st.conditions);
    SortedIsUnique(Sorted(st.conditions));
    LookupIgnoresOrder(st.conditions, Sorted(st.conditions), t);
    LookupIgnoresOrder(st.conditions, Sorted(st.conditions), DEPLOYED);
  }

  lemma WrittenKeepsHolds(edit: StatusEdit, st: Status)
    requires Unique(st.conditions)
    ensures Holds(edit, Written(st)) == Holds(edit, st)
  {
    if edit.EnsureCondition? {
      WrittenKeepsContent(st, edit.cond.typ);
    }
  }
}
