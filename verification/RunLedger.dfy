/**
 The agent run ledger: the closed transition table of a run, its step rows with the
 UNIQUE(run, seq, attempt) constraint, and the three writes the orchestrator makes.

 A `Record` is everything about one run that outlives the process: its row, its step
 rows, and what the capability router has seen of each step row.
 */
module RunLedger {
  import opened Basics

  datatype RunState =
    | Created | Planning | Running
    | WaitingSpecialist | WaitingCapability | WaitingApproval | WaitingUser
    | Verifying | Succeeded | Failed | Cancelled | Interrupted
  {
    predicate Terminal() { Succeeded? || Failed? || Cancelled? }

    predicate Parked() { WaitingApproval? || WaitingUser? }
  }

  const EXITS: set<RunState> := {Failed, Cancelled, Interrupted}

  /** The table as it is written down by hand. */
  function Edges(s: RunState): set<RunState> {
    match s
    case Created => {Planning}
    case Planning => {Running, Failed, Cancelled, Interrupted}
    case Running => {WaitingSpecialist, WaitingCapability, WaitingApproval, WaitingUser, Verifying,
                     Succeeded, Failed, Cancelled, Interrupted}
    case WaitingSpecialist => {Running, Failed, Cancelled, Interrupted}
    case WaitingCapability => {Running, Failed, Cancelled, Interrupted}
    case WaitingApproval => {Running, Failed, Cancelled, Interrupted}
    case WaitingUser => {Running, Failed, Cancelled, Interrupted}
    case Verifying => {Running, Succeeded, Failed, Cancelled, Interrupted}
    case Interrupted => {Running, Failed, Cancelled}
    case Succeeded => {}
    case Failed => {}
    case Cancelled => {}
  }

  /** The table in force: every state that is not terminal also gets the exits. */
  function Targets(s: RunState): set<RunState> {
    if s.Terminal() then Edges(s) else (Edges(s) + EXITS) - {s}
  }

  datatype Scope = Research | Build

  datatype Category =
    | NoCategory | PlanInvalid | SpecialistUnavailable | SpecialistFailed | Quota
    | CapabilityFailed | ApprovalDenied | ApprovalExpired | PolicyDenied | RecoveryRequired
    | BudgetExhausted | LoopDetected | Timeout | InterruptedByRestart | WorkspaceConflict
    | CancelledByUser | NoResult | PlannerInvalidStep

  datatype Run = Run(state: RunState, scope: Scope, revision: nat, workspace: bool,
                     branch: bool, boundary: bool, failure: Category)

  datatype RowKind = SpecialistRow | CapabilityRow | ProposalRow | VerifyRow | HarvestRow

  datatype RowState =
    | RowPending | RowRunning | RowWaiting | RowSucceeded | RowFailed
    | RowDenied | RowSkipped | RowUnknown
  {
    predicate SettledOk() { RowSucceeded? || RowSkipped? }

    /** Settled for good, and not in a way that lets a run succeed. */
    predicate SettledBad() { RowFailed? || RowDenied? || RowUnknown? }
  }

  /**
   `child` says whether a child process group is on record. The tallies are what the
   router has seen of this row: `asked` calls without an approval, `redeemed` calls with
   one, `raised` of the latter that ended in an exception; `granted` says that the
   approval was read as APPROVED.
   */
  datatype Row = Row(kind: RowKind, ordinal: nat, attempt: nat, state: RowState, approval: Option<nat>,
                     child: bool, asked: nat, redeemed: nat, raised: nat, granted: bool)

  datatype Record = Record(run: Run, rows: seq<Row>)

  function NewRecord(scope: Scope): Record {
    Record(Run(Created, scope, 0, false, false, false, NoCategory), [])
  }

  /** The only place where the state of a run changes; None stands for the refusal. */
  function Transition(rec: Record, wanted: RunState, category: Category): Option<Record> {
    if wanted in Targets(rec.run.state)
    then Some(rec.(run := rec.run.(state := wanted,
                                   failure := if category.NoCategory? then rec.run.failure else category)))
    else None
  }

  predicate Taken(rec: Record, ordinal: nat, attempt: nat) {
    exists i :: 0 <= i < |rec.rows| && rec.rows[i].ordinal == ordinal && rec.rows[i].attempt == attempt
  }

  function FreshRow(kind: RowKind, ordinal: nat, attempt: nat): Row {
    Row(kind, ordinal, attempt, RowPending, None, false, 0, 0, 0, false)
  }

  /** Inserts a step row, or None when UNIQUE(run, seq, attempt) refuses it. */
  function CreateRow(rec: Record, kind: RowKind, ordinal: nat, attempt: nat): Option<Record> {
    if Taken(rec, ordinal, attempt) then None
    else Some(rec.(rows := rec.rows + [FreshRow(kind, ordinal, attempt)]))
  }

  /** An UPDATE by key: a row that does not exist is not created. */
  function PutRow(rec: Record, i: nat, row: Row): Record {
    if i < |rec.rows| then rec.(rows := rec.rows[i := row]) else rec
  }

  function SetRowState(rec: Record, i: nat, s: RowState): Record {
    if i < |rec.rows| then PutRow(rec, i, rec.rows[i].(state := s)) else rec
  }

  /** The newest row (by seq, then attempt) that waits, as `steps_for_run` orders them. */
  function LastWaiting(rows: seq<Row>): (found: Option<nat>)
    ensures found.Some? ==> found.value < |rows| && rows[found.value].state.RowWaiting?
    ensures found.None? <==> forall i :: 0 <= i < |rows| ==> !rows[i].state.RowWaiting?
    ensures found.Some? ==> forall i :: 0 <= i < |rows| && rows[i].state.RowWaiting? ==> !Later(rows[i], rows[found.value])
  {
    if rows == [] then None
    else
      var n := |rows| - 1;
      var before := LastWaiting(rows[..n]);
      if rows[n].state.RowWaiting? && (before.None? || !Later(rows[before.value], rows[n])) then Some(n)
      else before
  }

  /** `a` comes strictly after `b` in the order (seq, attempt). */
  predicate Later(a: Row, b: Row) {
    a.ordinal > b.ordinal || (a.ordinal == b.ordinal && a.attempt > b.attempt)
  }

  /** No edge leaves a terminal state, and none leads from a state to itself. */
  lemma TerminalAbsorbing(rec: Record, wanted: RunState, category: Category)
    ensures rec.run.state.Terminal() ==> Transition(rec, wanted, category).None?
    ensures Transition(rec, rec.run.state, category).None?
  {
    match rec.run.state {
      case Created => case Planning => case Running => case WaitingSpecialist => case WaitingCapability =>
      case WaitingApproval => case WaitingUser => case Verifying => case Succeeded => case Failed =>
      case Cancelled => case Interrupted =>
    }
  }

  /** Whoever has not ended can end: FAILED and CANCELLED are reachable from everywhere else. */
  lemma EveryoneCanEnd(rec: Record, category: Category)
    requires !rec.run.state.Terminal()
    ensures Transition(rec, Failed, category).Some? && Transition(rec, Cancelled, category).Some?
    ensures !rec.run.state.Interrupted? ==> Transition(rec, Interrupted, category).Some?
  {
  }
}
