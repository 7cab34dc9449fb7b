/** The ways in which a reconciliation can end, the status edits each of them has queued by then, and the table of
    condition values that these edits amount to. */
module Outcomes {
  import opened Wrappers
  import opened Conditions
  import opened StatusEdits

  const INITIALIZED := "Initialized"
  const RELEASE_FAILED := "ReleaseFailed"
  const IRRECONCILABLE := "Irreconcilable"
  const PAUSED := "Paused"

  datatype RevisionStatus = RevisionDeployed | RevisionFailed | RevisionSuperseded | RevisionOther

  /** One revision of the Helm release of the resource. */
  datatype Revision = Revision(name: string, version: nat, manifest: string, status: RevisionStatus, notes: string)

  /** What the first lookup of the release says. */
  datatype KnownRelease = Found(rel: Revision) | NotFound | Unavailable

  datatype Outcome =
    | Suspended
    | NoClient(msg: string)
    | Deletion(known: KnownRelease)
    | NoValues(known: KnownRelease, msg: string)
    | NoState(known: KnownRelease, msg: string)
    | InstallFailed(known: KnownRelease, msg: string)
    | CurrentUnavailable(known: KnownRelease)
    | UpgradeFailed(known: KnownRelease, msg: string)
    | RepairFailed(known: KnownRelease, msg: string)
    | Success(known: KnownRelease, same: bool, result: Revision)

  function Mk(t: string, status: ConditionStatus, reason: string, msg: string): StatusEdit {
    EnsureCondition(Condition(t, status, reason, msg, 0))
  }

  function RecordOf(rel: Revision): DeployedRelease {
    DeployedRelease(rel.name, rel.manifest)
  }

  function DeployedReason(rel: Revision): string {
    if rel.version > 1 then "UpgradeSuccessful" else "InstallSuccessful"
  }

  function DeployedMessage(rel: Revision): string {
    if rel.notes != "" then rel.notes
    else if rel.version > 1 then "release was successfully upgraded"
    else "release was successfully installed"
  }

  function DeployedEdits(rel: Revision): seq<StatusEdit> {
    [Mk(DEPLOYED, ConditionTrue, DeployedReason(rel), DeployedMessage(rel))]
    + [EnsureDeployedRelease(Some(RecordOf(rel)))]
  }

  function KnownEdits(known: KnownRelease): seq<StatusEdit> {
    match known
    case Found(rel) => DeployedEdits(rel)
    case NotFound => [Mk(DEPLOYED, ConditionFalse, "", "")]
    case Unavailable => []
  }

  /** Queued before the release state is looked at. */
  function EarlyEdits(known: KnownRelease): seq<StatusEdit> {
    [Mk(PAUSED, ConditionFalse, "", "")] + KnownEdits(known) + [Mk(INITIALIZED, ConditionTrue, "", "")]
  }

  /** Queued before the release is installed, upgraded or repaired. */
  function LateEdits(known: KnownRelease): seq<StatusEdit> {
    EarlyEdits(known) + [Mk(IRRECONCILABLE, ConditionFalse, "", "")]
  }

  /** Queued when the release could not be installed, upgraded or repaired; nothing, if the current release could
      not even be read. */
  function FailureEdits(o: Outcome): seq<StatusEdit> {
    match o
    case InstallFailed(_, msg) =>
      [Mk(IRRECONCILABLE, ConditionTrue, "ReconcileError", msg), Mk(RELEASE_FAILED, ConditionTrue, "InstallError", msg)]
    case UpgradeFailed(_, msg) =>
      [Mk(IRRECONCILABLE, ConditionTrue, "ReconcileError", msg), Mk(RELEASE_FAILED, ConditionTrue, "UpgradeError", msg)]
    case RepairFailed(_, msg) =>
      [Mk(RELEASE_FAILED, ConditionFalse, "", ""), Mk(IRRECONCILABLE, ConditionTrue, "ReconcileError", msg)]
    case _ => []
  }

  /** Queued when the release is in place, with one edit more if nothing had to be changed. */
  function SuccessStart(known: KnownRelease, same: bool): seq<StatusEdit> {
    if same then LateEdits(known) + [Mk(RELEASE_FAILED, ConditionFalse, "", "")] else LateEdits(known)
  }

  /** The queue at the end of a reconciliation with this outcome. */
  function EditsFor(o: Outcome): seq<StatusEdit> {
    match o
    case Suspended =>
      [Mk(PAUSED, ConditionTrue, "PauseReconcileAnnotationTrue", "")]
      + [EnsureConditionUnknown(IRRECONCILABLE)] + [EnsureConditionUnknown(DEPLOYED)]
      + [EnsureConditionUnknown(INITIALIZED)] + [EnsureConditionUnknown(RELEASE_FAILED)]
      + [RemoveDeployedRelease()]
    case NoClient(msg) =>
      [Mk(PAUSED, ConditionFalse, "", "")] + [Mk(IRRECONCILABLE, ConditionTrue, "ErrorGettingClient", msg)]
      + [EnsureConditionUnknown(DEPLOYED)] + [EnsureConditionUnknown(INITIALIZED)]
      + [EnsureConditionUnknown(RELEASE_FAILED)] + [RemoveDeployedRelease()]
    case Deletion(known) => EarlyEdits(known)
    case NoValues(known, msg) =>
      EarlyEdits(known) + [Mk(IRRECONCILABLE, ConditionTrue, "ErrorGettingValues", msg)]
      + [EnsureConditionUnknown(RELEASE_FAILED)]
    case NoState(known, msg) =>
      EarlyEdits(known) + [Mk(IRRECONCILABLE, ConditionTrue, "ErrorGettingReleaseState", msg)]
      + [EnsureConditionUnknown(RELEASE_FAILED)] + [EnsureConditionUnknown(DEPLOYED)] + [RemoveDeployedRelease()]
    case InstallFailed(known, _) => LateEdits(known) + FailureEdits(o)
    case CurrentUnavailable(known) => LateEdits(known) + FailureEdits(o)
    case UpgradeFailed(known, _) => LateEdits(known) + FailureEdits(o)
    case RepairFailed(known, _) => LateEdits(known) + FailureEdits(o)
    case Success(known, same, rel) =>
      SuccessStart(known, same) + DeployedEdits(rel) + [Mk(RELEASE_FAILED, ConditionFalse, "", "")]
      + [Mk(IRRECONCILABLE, ConditionFalse, "", "")]
  }

  /** The queue of the second updater, which writes the result of the uninstall. */
  function UninstallEdits(failure: Option<string>): seq<StatusEdit> {
    match failure
    case None =>
      [Mk(RELEASE_FAILED, ConditionFalse, "", "")] + [Mk(DEPLOYED, ConditionFalse, "UninstallSuccessful", "")]
      + [RemoveDeployedRelease()]
    case Some(msg) =>
      [Mk(IRRECONCILABLE, ConditionTrue, "ReconcileError", msg)]
      + [Mk(RELEASE_FAILED, ConditionTrue, "UninstallError", msg)]
  }

  /* ---------- The table ---------- */

  datatype Cell = Left | Is(status: ConditionStatus, reason: string, msg: string)

  /** One row of the table: what each condition and the recorded release become, or Left for as it was before. */
  datatype Row = Row(paused: Cell, initialized: Cell, deployed: Cell, failed: Cell, irreconcilable: Cell,
                     release: Option<Option<DeployedRelease>>)

  const UNKNOWN := Is(ConditionUnknown, "", "")
  const FALSE := Is(ConditionFalse, "", "")
  const TRUE := Is(ConditionTrue, "", "")

  function DeployedCell(rel: Revision): Cell {
    Is(ConditionTrue, DeployedReason(rel), DeployedMessage(rel))
  }

  function EarlyRow(known: KnownRelease): Row {
    match known
    case Found(rel) => Row(FALSE, TRUE, DeployedCell(rel), Left, Left, Some(Some(RecordOf(rel))))
    case NotFound => Row(FALSE, TRUE, FALSE, Left, Left, None)
    case Unavailable => Row(FALSE, TRUE, Left, Left, Left, None)
  }

  function TableRow(o: Outcome): Row {
    match o
    case Suspended =>
      Row(Is(ConditionTrue, "PauseReconcileAnnotationTrue", ""), UNKNOWN, UNKNOWN, UNKNOWN, UNKNOWN, Some(None))
    case NoClient(msg) =>
      Row(FALSE, UNKNOWN, UNKNOWN, UNKNOWN, Is(ConditionTrue, "ErrorGettingClient", msg), Some(None))
    case Deletion(known) => EarlyRow(known)
    case NoValues(known, msg) =>
      EarlyRow(known).(failed := UNKNOWN, irreconcilable := Is(ConditionTrue, "ErrorGettingValues", msg))
    case NoState(known, msg) =>
      Row(FALSE, TRUE, UNKNOWN, UNKNOWN, Is(ConditionTrue, "ErrorGettingReleaseState", msg), Some(None))
    case InstallFailed(known, msg) =>
      EarlyRow(known).(failed := Is(ConditionTrue, "InstallError", msg),
                       irreconcilable := Is(ConditionTrue, "ReconcileError", msg))
    case CurrentUnavailable(known) => EarlyRow(known).(irreconcilable := FALSE)
    case UpgradeFailed(known, msg) =>
      EarlyRow(known).(failed := Is(ConditionTrue, "UpgradeError", msg),
                       irreconcilable := Is(ConditionTrue, "ReconcileError", msg))
    case RepairFailed(known, msg) =>
      EarlyRow(known).(failed := FALSE, irreconcilable := Is(ConditionTrue, "ReconcileError", msg))
    case Success(known, same, rel) =>
      Row(FALSE, TRUE, DeployedCell(rel), FALSE, FALSE, Some(Some(RecordOf(rel))))
  }

  /** Whether a queue amounts to the cell for a condition type. */
  predicate Amounts(edits: seq<StatusEdit>, t: string, cell: Cell) {
    match cell
    case Left => LastCondition(edits, t).None?
    case Is(status, reason, msg) => LastCondition(edits, t) == Some(Condition(t, status, reason, msg, 0))
  }

  predicate AmountsToRow(edits: seq<StatusEdit>, row: Row) {
    && Amounts(edits, PAUSED, row.paused)
    && Amounts(edits, INITIALIZED, row.initialized)
    && Amounts(edits, DEPLOYED, row.deployed)
    && Amounts(edits, RELEASE_FAILED, row.failed)
    && Amounts(edits, IRRECONCILABLE, row.irreconcilable)
    && LastRelease(edits) == row.release
  }

  /** The row after one more edit. */
  function Put(row: Row, edit: StatusEdit): Row {
    match edit
    case EnsureDeployedRelease(rel) => row.(release := Some(rel))
    case EnsureCondition(c) =>
      var cell := Is(c.status, c.reason, c.message);
      if c.typ == PAUSED then row.(paused := cell)
      else if c.typ == INITIALIZED then row.(initialized := cell)
      else if c.typ == DEPLOYED then row.(deployed := cell)
      else if c.typ == RELEASE_FAILED then row.(failed := cell)
      else if c.typ == IRRECONCILABLE then row.(irreconcilable := cell)
      else row
  }

  const EMPTY_ROW := Row(Left, Left, Left, Left, Left, None)

  lemma OneMore(edits: seq<StatusEdit>, edit: StatusEdit, row: Row)
    requires AmountsToRow(edits, row)
    requires edit.EnsureCondition? ==> edit.cond.lastTransitionTime == 0
    ensures AmountsToRow(edits + [edit], Put(row, edit))
  {
    assert (edits + [edit])[..|edits|] == edits;
    forall t
      ensures LastCondition(edits + [edit], t) ==
                if edit.EnsureCondition? && edit.cond.typ == t then Some(edit.cond) else LastCondition(edits, t)
    {
    }
  }

  lemma TwoMore(edits: seq<StatusEdit>, a: StatusEdit, b: StatusEdit, row: Row)
    requires AmountsToRow(edits, row)
    requires a.EnsureCondition? ==> a.cond.lastTransitionTime == 0
    requires b.EnsureCondition? ==> b.cond.lastTransitionTime == 0
    ensures AmountsToRow(edits + [a] + [b], Put(Put(row, a), b))
  {
    OneMore(edits, a, row);
    OneMore(edits + [a], b, Put(row, a));
  }

  lemma DeployedMore(edits: seq<StatusEdit>, rel: Revision, row: Row)
    requires AmountsToRow(edits, row)
    ensures AmountsToRow(edits + DeployedEdits(rel),
                         row.(deployed := DeployedCell(rel), release := Some(Some(RecordOf(rel)))))
  {
    var a, b := Mk(DEPLOYED, ConditionTrue, DeployedReason(rel), DeployedMessage(rel)),
                EnsureDeployedRelease(Some(RecordOf(rel)));
    TwoMore(edits, a, b, row);
    assert edits + [a] + [b] == edits + DeployedEdits(rel);
  }

  lemma EarlyRowHolds(known: KnownRelease)
    ensures AmountsToRow(EarlyEdits(known), EarlyRow(known))
  {
    var paused := [Mk(PAUSED, ConditionFalse, "", "")];
    var row := EMPTY_ROW.(paused := FALSE);
    OneMore([], paused[0], EMPTY_ROW);
    assert [] + paused == paused;
    var knownRow := EarlyRow(known).(initialized := Left);
    assert AmountsToRow(paused + KnownEdits(known), knownRow) by {
      match known {
        case Found(rel) => DeployedMore(paused, rel, row);
        case NotFound => OneMore(paused, Mk(DEPLOYED, ConditionFalse, "", ""), row);
        case Unavailable => assert paused + [] == paused;
      }
    }
    OneMore(paused + KnownEdits(known), Mk(INITIALIZED, ConditionTrue, "", ""), knownRow);
  }

  lemma StoppedRowHolds(o: Outcome)
    requires o.Suspended? || o.NoClient?
    ensures AmountsToRow(EditsFor(o), TableRow(o))
  {
    var all := EditsFor(o);
    assert all == [] + [all[0]] + [all[1]] + [all[2]] + [all[3]] + [all[4]] + [all[5]];
    TwoMore([], all[0], all[1], EMPTY_ROW);
    var e2, r2 := [] + [all[0]] + [all[1]], Put(Put(EMPTY_ROW, all[0]), all[1]);
    TwoMore(e2, all[2], all[3], r2);
    TwoMore(e2 + [all[2]] + [all[3]], all[4], all[5], Put(Put(r2, all[2]), all[3]));
  }

  lemma LateRowHolds(known: KnownRelease)
    ensures AmountsToRow(LateEdits(known), EarlyRow(known).(irreconcilable := FALSE))
  {
    EarlyRowHolds(known);
    OneMore(EarlyEdits(known), Mk(IRRECONCILABLE, ConditionFalse, "", ""), EarlyRow(known));
  }

  lemma SuccessStartHolds(known: KnownRelease, same: bool)
    ensures AmountsToRow(SuccessStart(known, same),
                         EarlyRow(known).(irreconcilable := FALSE, failed := if same then FALSE else Left))
  {
    LateRowHolds(known);
    if same {
      OneMore(LateEdits(known), Mk(RELEASE_FAILED, ConditionFalse, "", ""), EarlyRow(known).(irreconcilable := FALSE));
    }
  }

  lemma SuccessEndHolds(before: seq<StatusEdit>, row: Row, rel: Revision)
    requires AmountsToRow(before, row)
    ensures AmountsToRow(before + DeployedEdits(rel) + [Mk(RELEASE_FAILED, ConditionFalse, "", "")]
                         + [Mk(IRRECONCILABLE, ConditionFalse, "", "")],
                         Row(row.paused, row.initialized, DeployedCell(rel), FALSE, FALSE, Some(Some(RecordOf(rel)))))
  {
    DeployedMore(before, rel, row);
    TwoMore(before + DeployedEdits(rel), Mk(RELEASE_FAILED, ConditionFalse, "", ""),
            Mk(IRRECONCILABLE, ConditionFalse, "", ""),
            row.(deployed := DeployedCell(rel), release := Some(Some(RecordOf(rel)))));
  }

  lemma FailedRowHolds(o: Outcome)
    requires o.InstallFailed? || o.UpgradeFailed? || o.RepairFailed?
    ensures AmountsToRow(EditsFor(o), TableRow(o))
  {
    var edits, row := LateEdits(o.known), EarlyRow(o.known).(irreconcilable := FALSE);
    var both := FailureEdits(o);
    LateRowHolds(o.known);
    TwoMore(edits, both[0], both[1], row);
    assert edits + [both[0]] + [both[1]] == edits + both;
  }

  lemma BlockedRowHolds(o: Outcome)
    requires o.NoValues? || o.NoState?
    ensures AmountsToRow(EditsFor(o), TableRow(o))
  {
    var early, row := EarlyEdits(o.known), EarlyRow(o.known);
    var reason := if o.NoValues? then "ErrorGettingValues" else "ErrorGettingReleaseState";
    var a, b := Mk(IRRECONCILABLE, ConditionTrue, reason, o.msg), EnsureConditionUnknown(RELEASE_FAILED);
    EarlyRowHolds(o.known);
    TwoMore(early, a, b, row);
    if o.NoState? {
      TwoMore(early + [a] + [b], EnsureConditionUnknown(DEPLOYED), RemoveDeployedRelease(), Put(Put(row, a), b));
    }
  }

  lemma RowHolds(o: Outcome)
    ensures AmountsToRow(EditsFor(o), TableRow(o))
  {
    match o {
      case Suspended => StoppedRowHolds(o);
      case NoClient(msg) => StoppedRowHolds(o);
      case Deletion(known) => EarlyRowHolds(known);
      case NoValues(_, _) => BlockedRowHolds(o);
      case NoState(_, _) => BlockedRowHolds(o);
      case CurrentUnavailable(known) =>
        LateRowHolds(known);
        assert LateEdits(known) + [] == LateEdits(known);
      case InstallFailed(_, _) => FailedRowHolds(o);
      case UpgradeFailed(_, _) => FailedRowHolds(o);
      case RepairFailed(_, _) => FailedRowHolds(o);
      case Success(known, same, rel) =>
        SuccessStartHolds(known, same);
        SuccessEndHolds(SuccessStart(known, same),
                        EarlyRow(known).(irreconcilable := FALSE, failed := if same then FALSE else Left), rel);
    }
  }

  /** Whether a status after the write agrees with the cell, given the status before. */
  predicate CellHolds(before: Status, after: Status, t: string, cell: Cell) {
    match cell
    case Left => Conditions.Lookup(after.conditions, t) == Conditions.Lookup(before.conditions, t)
    case Is(status, reason, msg) => Shows(after, Condition(t, status, reason, msg, 0))
  }

  predicate MatchesRow(before: Status, after: Status, row: Row) {
    && CellHolds(before, after, PAUSED, row.paused)
    && CellHolds(before, after, INITIALIZED, row.initialized)
    && CellHolds(before, after, DEPLOYED, row.deployed)
    && CellHolds(before, after, RELEASE_FAILED, row.failed)
    && CellHolds(before, after, IRRECONCILABLE, row.irreconcilable)
    && after.deployed == (if row.release.Some? then row.release.value else before.deployed)
  }

  lemma CellFollows(edits: seq<StatusEdit>, st: Status, now: int, t: string, cell: Cell)
    requires Unique(st.conditions) && Amounts(edits, t, cell)
    ensures CellHolds(st, Written(Fold(edits, st, now).0), t, cell)
  {
    LastEditWins(edits, st, now, t);
    FoldKeepsUnique(edits, st, now);
    WrittenKeepsContent(Fold(edits, st, now).0, t);
  }

  lemma RowFollows(edits: seq<StatusEdit>, row: Row, st: Status, now: int)
    requires Unique(st.conditions) && AmountsToRow(edits, row)
    ensures MatchesRow(st, Written(Fold(edits, st, now).0), row)
  {
    CellFollows(edits, st, now, PAUSED, row.paused);
    CellFollows(edits, st, now, INITIALIZED, row.initialized);
    CellFollows(edits, st, now, DEPLOYED, row.deployed);
    CellFollows(edits, st, now, RELEASE_FAILED, row.failed);
    CellFollows(edits, st, now, IRRECONCILABLE, row.irreconcilable);
    LastReleaseWins(edits, st, now);
  }

  /** The outcome table: for every prior status, the queue of an outcome writes that outcome's row. */
  lemma OutcomeTable(o: Outcome, st: Status, now: int)
    requires Unique(st.conditions)
    ensures MatchesRow(st, Written(Fold(EditsFor(o), st, now).0), TableRow(o))
  {
    RowHolds(o);
    RowFollows(EditsFor(o), TableRow(o), st, now);
  }

  /** Outcomes that decide all five conditions and the recorded release. */
  predicate DecidesAll(o: Outcome) {
    o.Suspended? || o.NoClient? || o.NoState? || o.Success?
    || ((o.NoValues? || o.InstallFailed? || o.UpgradeFailed? || o.RepairFailed?) && o.known.Found?)
  }

  predicate SameReading(a: Status, b: Status, t: string) {
    Conditions.Lookup(a.conditions, t).Some? && Shows(b, Conditions.Lookup(a.conditions, t).value)
  }

  /** A row without a cell that is left as it was. */
  predicate Full(row: Row) {
    row.paused.Is? && row.initialized.Is? && row.deployed.Is? && row.failed.Is? && row.irreconcilable.Is?
    && row.release.Some?
  }

  lemma SameCell(st1: Status, a: Status, st2: Status, b: Status, t: string, cell: Cell)
    requires cell.Is? && CellHolds(st1, a, t, cell) && CellHolds(st2, b, t, cell)
    ensures SameReading(a, b, t)
  {
  }

  /** Such an outcome leaves the same five conditions and the same release whatever the status was before. */
  lemma DecisiveOutcomesForgetThePast(o: Outcome, st1: Status, st2: Status, now1: int, now2: int)
    requires DecidesAll(o) && Unique(st1.conditions) && Unique(st2.conditions)
    ensures var a, b := Written(Fold(EditsFor(o), st1, now1).0), Written(Fold(EditsFor(o), st2, now2).0);
            && (forall t :: t in {PAUSED, INITIALIZED, DEPLOYED, RELEASE_FAILED, IRRECONCILABLE} ==>
                 SameReading(a, b, t))
            && a.deployed == b.deployed
  {
    var a, b := Written(Fold(EditsFor(o), st1, now1).0), Written(Fold(EditsFor(o), st2, now2).0);
    var row := TableRow(o);
    OutcomeTable(o, st1, now1);
    OutcomeTable(o, st2, now2);
    assert Full(row);
    SameCell(st1, a, st2, b, PAUSED, row.paused);
    SameCell(st1, a, st2, b, INITIALIZED, row.initialized);
    SameCell(st1, a, st2, b, DEPLOYED, row.deployed);
    SameCell(st1, a, st2, b, RELEASE_FAILED, row.failed);
    SameCell(st1, a, st2, b, IRRECONCILABLE, row.irreconcilable);
  }

  const PAST := Status([Condition(DEPLOYED, ConditionTrue, "", "", 0),
                        Condition(RELEASE_FAILED, ConditionTrue, "", "", 0)],
                       Some(DeployedRelease("", "")))

  lemma PastReading()
    ensures StatusOk(PAST) && StatusOk(EMPTY_STATUS)
    ensures Conditions.Lookup(PAST.conditions, RELEASE_FAILED).Some?
    ensures Conditions.Lookup(EMPTY_STATUS.conditions, RELEASE_FAILED).None?
  {
    FindFirst(PAST.conditions, DEPLOYED, 0);
    FindFirst(PAST.conditions, RELEASE_FAILED, 1);
  }

  lemma ReleaseRemembered(o: Outcome, now: int)
    requires TableRow(o).release.None?
    ensures Fold(EditsFor(o), EMPTY_STATUS, now).0.deployed != Fold(EditsFor(o), PAST, now).0.deployed
  {
    RowHolds(o);
    LastReleaseWins(EditsFor(o), EMPTY_STATUS, now);
    LastReleaseWins(EditsFor(o), PAST, now);
  }

  lemma FailureRemembered(o: Outcome, now: int)
    requires TableRow(o).failed.Left?
    ensures Conditions.Lookup(Fold(EditsFor(o), EMPTY_STATUS, now).0.conditions, RELEASE_FAILED).None?
    ensures Conditions.Lookup(Fold(EditsFor(o), PAST, now).0.conditions, RELEASE_FAILED).Some?
  {
    PastReading();
    RowHolds(o);
    LastEditWins(EditsFor(o), EMPTY_STATUS, now, RELEASE_FAILED);
    LastEditWins(EditsFor(o), PAST, now, RELEASE_FAILED);
  }

  /** An outcome that does not decide everything leaves a trace of the past: the recorded release or a condition
      depends on the status from before. */
  lemma OtherOutcomesRemember(o: Outcome, now: int)
    requires !DecidesAll(o)
    ensures var a, b := Fold(EditsFor(o), EMPTY_STATUS, now).0, Fold(EditsFor(o), PAST, now).0;
            a.deployed != b.deployed || !SameReading(a, b, RELEASE_FAILED)
  {
    if TableRow(o).release.None? {
      ReleaseRemembered(o, now);
    } else {
      assert TableRow(o).failed.Left?;
      FailureRemembered(o, now);
    }
  }

  /** A queue that ends in Irreconcilable=False, and then one more edit that sets it to True. */
  lemma RaisedNow(edits: seq<StatusEdit>, st: Status, now: int, up: StatusEdit)
    requires Amounts(edits, IRRECONCILABLE, FALSE)
    requires up.EnsureCondition? && up.cond.typ == IRRECONCILABLE && up.cond.status.ConditionTrue?
    ensures var after := Conditions.Lookup(Fold(edits + [up], st, now).0.conditions, IRRECONCILABLE);
            after.Some? && after.value.status.ConditionTrue? && after.value.lastTransitionTime == now
  {
    var before := Fold(edits, st, now).0;
    LastEditWins(edits, st, now, IRRECONCILABLE);
    assert (edits + [up])[..|edits|] == edits;
    SetEffect(before.conditions, up.cond, now);
    TimeAfterSet(before.conditions, up.cond, now);
  }

  lemma OtherEditKeeps(edits: seq<StatusEdit>, st: Status, now: int, other: StatusEdit)
    requires other.EnsureCondition? && other.cond.typ != IRRECONCILABLE
    ensures Conditions.Lookup(Fold(edits + [other], st, now).0.conditions, IRRECONCILABLE)
            == Conditions.Lookup(Fold(edits, st, now).0.conditions, IRRECONCILABLE)
  {
    assert (edits + [other])[..|edits|] == edits;
    SetKeepsOthers(Fold(edits, st, now).0.conditions, other.cond, now, IRRECONCILABLE);
  }

  /** A reconciliation that fails again moves the transition time of Irreconcilable to the present, although the
      condition was True before and is True after: its queue sets it to False on the way, so the status write is
      never skipped. */
  lemma FailingAgainMovesTransitionTime(o: Outcome, st: Status, now: int)
    requires o.InstallFailed? || o.UpgradeFailed? || o.RepairFailed?
    requires Conditions.Lookup(st.conditions, IRRECONCILABLE).Some?
    requires Conditions.Lookup(st.conditions, IRRECONCILABLE).value.status.ConditionTrue?
    ensures var (after, changed) := Fold(EditsFor(o), st, now);
            var c := Conditions.Lookup(after.conditions, IRRECONCILABLE);
            changed && c.Some? && c.value.status.ConditionTrue? && c.value.lastTransitionTime == now
  {
    var late, both := LateEdits(o.known), FailureEdits(o);
    var calm := Mk(IRRECONCILABLE, ConditionFalse, "", "");
    LateRowHolds(o.known);
    assert late + [both[0]] + [both[1]] == EditsFor(o);
    if o.RepairFailed? {
      OneMore(late, both[0], EarlyRow(o.known).(irreconcilable := FALSE));
      RaisedNow(late + [both[0]], st, now, both[1]);
    } else {
      RaisedNow(late, st, now, both[0]);
      OtherEditKeeps(late + [both[0]], st, now, both[1]);
    }
    WriteSkippedIff(EditsFor(o), st, now);
    assert EditsFor(o)[|late| - 1] == calm;
    assert !Holds(calm, st);
  }

  /** A row that treats Deployed and the recorded release together. */
  predicate RowConsistent(row: Row) {
    match row.deployed
    case Left => row.release.None?
    case Is(status, _, _) =>
      && (status.ConditionTrue? ==> row.release.Some? && row.release.value.Some?)
      && (status.ConditionUnknown? ==> row.release == Some(None))
  }

  lemma RowKeepsConsistent(edits: seq<StatusEdit>, row: Row)
    requires AmountsToRow(edits, row) && RowConsistent(row)
    ensures KeepConsistent(edits)
  {
  }

  /** Every way to end keeps the status consistent. */
  lemma EveryOutcomeKeepsStatusOk(o: Outcome, st: Status, now: int)
    requires StatusOk(st)
    ensures StatusOk(Fold(EditsFor(o), st, now).0)
  {
    RowHolds(o);
    RowKeepsConsistent(EditsFor(o), TableRow(o));
    FoldKeepsStatusOk(EditsFor(o), st, now);
  }

  /** The rows of the second updater: after success the release is gone from the status, after failure its record stays
      and the error is told; everything else is as it was. */
  function UninstallRow(failure: Option<string>): Row {
    match failure
    case None => Row(Left, Left, Is(ConditionFalse, "UninstallSuccessful", ""), FALSE, Left, Some(None))
    case Some(msg) =>
      Row(Left, Left, Left, Is(ConditionTrue, "UninstallError", msg), Is(ConditionTrue, "ReconcileError", msg), None)
  }

  lemma UninstallRowHolds(failure: Option<string>)
    ensures AmountsToRow(UninstallEdits(failure), UninstallRow(failure))
  {
    var edits := UninstallEdits(failure);
    TwoMore([], edits[0], edits[1], EMPTY_ROW);
    var two, row := [] + [edits[0]] + [edits[1]], Put(Put(EMPTY_ROW, edits[0]), edits[1]);
    if failure.None? {
      OneMore(two, edits[2], row);
      assert two + [edits[2]] == edits;
    } else {
      assert two == edits;
    }
  }

  lemma UninstallTable(failure: Option<string>, st: Status, now: int)
    requires Unique(st.conditions)
    ensures MatchesRow(st, Written(Fold(UninstallEdits(failure), st, now).0), UninstallRow(failure))
  {
    UninstallRowHolds(failure);
    RowFollows(UninstallEdits(failure), UninstallRow(failure), st, now);
  }

  lemma UninstallKeepsStatusOk(failure: Option<string>, st: Status, now: int)
    requires StatusOk(st)
    ensures StatusOk(Fold(UninstallEdits(failure), st, now).0)
  {
    var all := UninstallEdits(failure);
    assert [] + [all[0]] + [all[1]] == all[..2];
    TwoMore([], all[0], all[1], EMPTY_ROW);
    if failure.None? {
      OneMore(all[..2], all[2], Put(Put(EMPTY_ROW, all[0]), all[1]));
      assert all[..2] + [all[2]] == all;
    } else {
      assert all[..2] == all;
    }
    assert KeepConsistent(all);
    FoldKeepsStatusOk(all, st, now);
  }
}
