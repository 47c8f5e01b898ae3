/**
 One run of the agent runtime, cut at its awaits. Every function here is one stretch of
 orchestrator code that runs without interruption; it says what was written, in which
 order, and what the coroutine then waits for.

 `trail` lists every durable state the stretch passes through, one entry per write, so
 that a crash anywhere inside it is a prefix of that list.
 */
module AgentSteps {
  import opened Basics
  import opened RunLedger
  import opened RunBudget

  const MAX_PLAN_STEPS: nat := 12
  const MAX_APPROVAL_REQUESTS: nat := 3

  datatype StepKind = SpecialistStep | CapabilityStep | ProposalStep | VerifyStep

  /** A planned step; `builder` and `needsWorkspace` are properties of the named profile. */
  datatype Planned = Planned(kind: StepKind, name: string, text: string, optional: bool,
                             builder: bool, needsWorkspace: bool)

  function RowKindOf(k: StepKind): RowKind {
    match k
    case SpecialistStep => SpecialistRow
    case CapabilityStep => CapabilityRow
    case ProposalStep => ProposalRow
    case VerifyStep => VerifyRow
  }

  /** What the plan policy lets through; a planner reply that fails it counts as unusable. */
  predicate Plannable(plan: seq<Planned>, scope: Scope) {
    && 1 <= |plan| <= MAX_PLAN_STEPS
    && forall i :: 0 <= i < |plan| && plan[i].kind.SpecialistStep? && plan[i].builder ==> scope.Build?
  }

  /** Which collaborators are wired, and the limits per scope. */
  datatype Config = Config(planner: bool, router: bool, workspaces: bool, control: bool,
                           maxConcurrent: nat, research: Limits, build: Limits)
  {
    function LimitsOf(scope: Scope): Limits { if scope.Build? then build else research }
  }

  /** The volatile side of a run. */
  datatype Ctx = Ctx(plan: Option<seq<Planned>>, cursor: nat, approvals: nat, pending: Option<nat>,
                     workspace: bool, cancel: bool, book: Book, invalid: set<(string, string)>, goalMet: bool)

  function NewCtx(limits: Limits): Ctx {
    Ctx(None, 0, 0, None, false, false, OpenBook(limits), {}, false)
  }

  function CountKind(rows: seq<Row>, k: RowKind): nat {
    if rows == [] then 0 else CountKind(rows[..|rows| - 1], k) + (if rows[|rows| - 1].kind == k then 1 else 0)
  }

  function RowsOfKind(rows: seq<Row>, k: RowKind): set<int> { set i | 0 <= i < |rows| && rows[i].kind == k }

  lemma OneMoreRow(rows: seq<Row>, k: RowKind)
    requires rows != []
    ensures var n := |rows| - 1;
            && n !in RowsOfKind(rows[..n], k)
            && RowsOfKind(rows, k) == RowsOfKind(rows[..n], k) + if rows[n].kind == k then {n} else {}
  {
  }

  /** What a rebuilt context counts are the rows of the kind. */
  lemma {:induction false} CountIsNumber(rows: seq<Row>, k: RowKind)
    ensures CountKind(rows, k) == |RowsOfKind(rows, k)|
  {
    if rows == [] {
      assert RowsOfKind(rows, k) == {};
    } else {
      CountIsNumber(rows[..|rows| - 1], k);
      OneMoreRow(rows, k);
      hide RowsOfKind;
    }
  }

  /** After a restart only the ledger lives: a rebuilt context has a budget but no plan. */
  function Rebuild(cfg: Config, rec: Record): Ctx {
    var book := OpenBook(cfg.LimitsOf(rec.run.scope))
                .(steps := |rec.rows|, specialists := CountKind(rec.rows, SpecialistRow),
                  revisions := rec.run.revision);
    NewCtx(book.limits).(cursor := |rec.rows|, book := book)
  }

  /** Whose exception handling a stretch runs under. */
  datatype Stage = InPlanning | InStep | InPoll

  /** Where a coroutine stands after a stretch. */
  datatype Await =
    | Done
    | Thrown                                                         // an exception leaves the tick
    | Planner(stage: Stage)
    | Specialist(row: nat, planned: Planned, digest: Digest)
    | Asking(row: nat, planned: Planned)
    | Reading(row: nat)
    | Redeeming(row: nat)
    | Boundary(stage: Stage)                                         // the boundary notice is under way
    | Finishing                                                      // the final notice is under way

  datatype Error = Exhausted(category: Category) | PlanUnusable | WorkspaceLost | Unexpected

  datatype Local = Local(me: nat, rec: Record, trail: seq<Record>, ctx: Ctx, slot: Option<nat>, stuck: bool)

  datatype Seg = Stopped(l: Local, aw: Await) | Failing(l: Local, error: Error)

  // ---------------------------------------------------------------- the outside world

  /** Everything a visit may meet by chance: the clone, the clock, a missing argument, the disk, the harvest. */
  datatype Luck = Luck(cloneOk: bool, late: bool, flaw: string, fileOk: bool, harvestOk: bool)

  datatype PlannerReply = Unavailable | CallRaised | Rejected | Proposed(plan: seq<Planned>)

  datatype SpecialistReply = SpecialistRaised | SpecialistSaid(ok: bool, quota: bool, usable: bool, goalMet: bool)

  datatype Verdict = Did | Denial | NeedsApproval | Uncertain | PolicyFailure | OtherFailure

  datatype RouterReply = RouterRaised | Answered(verdict: Verdict, approval: Option<nat>)

  datatype ApprovalReading = ReadPending | ReadApproved | ReadDenied | ReadLapsed

  /** What an await may be answered with. */
  datatype Answer =
    | FromPlanner(first: PlannerReply, second: PlannerReply)
    | FromSpecialist(said: SpecialistReply)
    | FromRouter(reply: RouterReply)
    | FromApproval(told: ApprovalReading)
    | FromNotice

  // ---------------------------------------------------------------- writing

  function Write(l: Local, rec: Record): Local {
    l.(rec := rec, trail := l.trail + [rec])
  }

  function Release(l: Local): Local {
    if l.slot == Some(l.me) then l.(slot := None) else l
  }

  function MarkRow(l: Local, i: nat, s: RowState): Local {
    Write(l, SetRowState(l.rec, i, s))
  }

  function Move(l: Local, s: RunState): Seg {
    match Transition(l.rec, s, NoCategory)
    case None => Failing(l, Unexpected)
    case Some(rec) => Stopped(Write(l, rec), Done)
  }

  function Finish(l: Local, s: RunState, category: Category): Seg {
    if l.rec.run.state.Terminal() then Stopped(l, Done)
    else
      var l1 := Release(l);
      match Transition(l1.rec, s, category)
      case None => Stopped(l1.(stuck := true), Done)
      case Some(rec) => Stopped(Write(l1, rec), Finishing)
  }

  function CategoryOf(e: Error): Category {
    match e
    case Exhausted(c) => c
    case PlanUnusable => PlanInvalid
    case WorkspaceLost => WorkspaceConflict
    case Unexpected => CapabilityFailed
  }

  function NoteStep(ctx: Ctx): Ctx {
    ctx.(book := ctx.book.(steps := ctx.book.steps + 1))
  }

  /** What surrounds a stretch: the step count of a finished step, and the handler for exceptions. */
  function Close(seg: Seg, stage: Stage): Seg {
    match seg
    case Stopped(l, aw) => if stage.InStep? && aw.Done? then Stopped(l.(ctx := NoteStep(l.ctx)), Done) else seg
    case Failing(l, e) => if stage.InPoll? then Stopped(l, Thrown) else Finish(l, Failed, CategoryOf(e))
  }

  // ---------------------------------------------------------------- planning

  datatype PlanResult = PlanOk(plan: seq<Planned>) | PlanBad(error: Error)

  function Charge(b: Book): Book { b.(plannerCalls := b.plannerCalls + 1) }

  predicate Usable(reply: PlannerReply, scope: Scope) {
    reply.Proposed? && Plannable(reply.plan, scope)
  }

  /** One planning event: at most two calls, the second only after an answer that missed the schema. */
  function PlanEvent(b: Book, scope: Scope, first: PlannerReply, second: PlannerReply): (Book, PlanResult) {
    if first.Unavailable? then (Charge(b), PlanBad(PlanUnusable))
    else if first.CallRaised? then (b, PlanBad(Unexpected))
    else
      var b1 := Charge(b);
      if Usable(first, scope) then (b1, PlanOk(first.plan))
      else if b1.plannerCalls >= MAX_PLANNER_CALLS then (b1, PlanBad(Exhausted(BudgetExhausted)))
      else if second.CallRaised? then (b1, PlanBad(Unexpected))
      else if Usable(second, scope) then (Charge(b1), PlanOk(second.plan))
      else (Charge(b1), PlanBad(PlanUnusable))
  }

  function DoPlan(l: Local, cfg: Config, stage: Stage): Seg {
    if !cfg.planner then Finish(l, Failed, SpecialistUnavailable)
    else if l.ctx.book.plannerCalls >= MAX_PLANNER_CALLS then Failing(l, Exhausted(BudgetExhausted))
    else Stopped(l, Planner(stage))
  }

  /** The planner has answered. A replan happens inside RUNNING; only PLANNING is left by it. */
  function PlanBack(l: Local, first: PlannerReply, second: PlannerReply): Seg {
    var (book, result) := PlanEvent(l.ctx.book, l.rec.run.scope, first, second);
    var l1 := l.(ctx := l.ctx.(book := book));
    match result
    case PlanBad(e) => Failing(l1, e)
    case PlanOk(plan) =>
      var l2 := l1.(ctx := l1.ctx.(plan := Some(plan), cursor := 0));
      if l2.rec.run.state.Planning? then Move(l2, Running) else Stopped(l2, Done)
  }

  /** Replanning happens inside RUNNING, in whatever stretch the step failed. */
  function Replan(l: Local, cfg: Config, snap: Run, stage: Stage): Seg {
    if l.ctx.book.revisions >= l.ctx.book.limits.maxRevisions then Finish(l, Failed, BudgetExhausted)
    else
      var l1 := l.(ctx := l.ctx.(book := l.ctx.book.(revisions := l.ctx.book.revisions + 1)));
      DoPlan(Write(l1, l1.rec.(run := l1.rec.run.(revision := snap.revision + 1))), cfg, stage)
  }

  function SkipOver(l: Local): Seg {
    Stopped(l.(ctx := l.ctx.(cursor := l.ctx.cursor + 1)), Done)
  }

  function OpenBoundary(l: Local, stage: Stage): Seg {
    var l1 := Write(l, l.rec.(run := l.rec.run.(boundary := true)));
    match Move(l1, WaitingUser)
    case Failing(l2, e) => Failing(l2, e)
    case Stopped(l2, _) => Stopped(l2, Boundary(stage))
  }

  // ---------------------------------------------------------------- one advance

  function AdvanceCreated(l: Local, cfg: Config, snap: Run, luck: Luck): Seg {
    if l.rec.run.scope.Build? && cfg.workspaces && !snap.workspace then
      if !luck.cloneOk then Failing(l, WorkspaceLost)
      else
        var l1 := Write(l, l.rec.(run := l.rec.run.(workspace := true)));
        Move(l1.(ctx := l1.ctx.(workspace := true)), Planning)
    else Move(l, Planning)
  }

  function RunSpecialist(l: Local, snap: Run, planned: Planned, ordinal: nat, attempt: nat): Seg {
    if l.ctx.book.specialists >= l.ctx.book.limits.maxSpecialists then Failing(l, Exhausted(BudgetExhausted))
    else
      var digest := Digest("specialist", planned.name, planned.text);
      match GuardAttempt(l.ctx.book, digest)
      case Refused(c) => Failing(l, Exhausted(c))
      case Granted(book) =>
        var l1 := l.(ctx := l.ctx.(book := book));
        if planned.builder && !l1.rec.run.scope.Build? then Failing(l1, PlanUnusable)
        else
          match CreateRow(l1.rec, SpecialistRow, ordinal, attempt)
          case None => Failing(l1, Unexpected)
          case Some(rec) =>
            var i := |rec.rows| - 1;
            var l2 := MarkRow(Write(l1, rec), i, RowRunning);
            match Move(l2, WaitingSpecialist)
            case Failing(l3, e) => Failing(l3, e)
            case Stopped(l3, _) =>
              if planned.needsWorkspace && !snap.workspace then Failing(l3, PlanUnusable)
              else Stopped(l3, Specialist(i, planned, digest))
  }

  /** The specialist has answered, or raised. */
  function SpecialistBack(l: Local, cfg: Config, snap: Run, i: nat, planned: Planned, digest: Digest,
                          said: SpecialistReply): Seg {
    if said.SpecialistRaised? || i >= |l.rec.rows| then Failing(l, Unexpected)
    else
      var l1 := l.(ctx := l.ctx.(book := l.ctx.book.(specialists := l.ctx.book.specialists + 1)));
      var row := l1.rec.rows[i].(state := if said.ok then RowSucceeded else RowFailed, child := true);
      match Move(Write(l1, PutRow(l1.rec, i, row)), Running)
      case Failing(l2, e) => Failing(l2, e)
      case Stopped(l2, _) => AfterSpecialist(l2, cfg, snap, planned, digest, said)
  }

  function AfterSpecialist(l: Local, cfg: Config, snap: Run, planned: Planned, digest: Digest,
                           said: SpecialistReply): Seg
    requires said.SpecialistSaid?
  {
    if !said.ok then
      if said.quota then Finish(l, Failed, Quota)
      else
        var l1 := l.(ctx := l.ctx.(book := NoteLowValue(l.ctx.book, digest)));
        if planned.optional then SkipOver(l1) else Replan(l1, cfg, snap, InStep)
    else
      var l1 := if said.usable then l else l.(ctx := l.ctx.(book := NoteLowValue(l.ctx.book, digest)));
      SkipOver(l1.(ctx := Shorten(l1.ctx, said.goalMet)))
  }

  /** A goal met early shortens the plan to the step that met it; it does not end the run. */
  function Shorten(ctx: Ctx, met: bool): Ctx {
    if met && !ctx.goalMet && ctx.plan.Some? && ctx.cursor + 1 <= |ctx.plan.value|
    then ctx.(plan := Some(ctx.plan.value[..ctx.cursor + 1]), goalMet := true)
    else ctx
  }

  function RefuseInvalid(l: Local, cfg: Config, snap: Run, i: nat, planned: Planned, flaw: string): Seg {
    var repeated := (planned.name, flaw) in l.ctx.invalid;
    var l1 := MarkRow(l.(ctx := l.ctx.(invalid := l.ctx.invalid + {(planned.name, flaw)})), i, RowFailed);
    if repeated then Finish(l1, Failed, PlannerInvalidStep)
    else if planned.optional then SkipOver(l1)
    else Replan(l1, cfg, snap, InStep)
  }

  function RunCapability(l: Local, cfg: Config, snap: Run, planned: Planned, ordinal: nat, attempt: nat,
                         luck: Luck): Seg {
    if !cfg.router then Failing(l, PlanUnusable)
    else
      match GuardAttempt(l.ctx.book, Digest("capability", planned.name, planned.text))
      case Refused(c) => Failing(l, Exhausted(c))
      case Granted(book) =>
        var l1 := l.(ctx := l.ctx.(book := book));
        match CreateRow(l1.rec, CapabilityRow, ordinal, attempt)
        case None => Failing(l1, Unexpected)
        case Some(rec) =>
          var i := |rec.rows| - 1;
          var l2 := MarkRow(Write(l1, rec), i, RowRunning);
          if luck.flaw != "" then RefuseInvalid(l2, cfg, snap, i, planned, luck.flaw)
          else if l2.slot.Some? && l2.slot != Some(l2.me) then Stopped(MarkRow(l2, i, RowWaiting), Done)
          else
            var asked := l2.rec.rows[i].(asked := l2.rec.rows[i].asked + 1);
            Stopped(Write(l2.(slot := Some(l2.me)), PutRow(l2.rec, i, asked)), Asking(i, planned))
  }

  /** The router has answered a call made without an approval. */
  function AskedBack(l: Local, cfg: Config, snap: Run, i: nat, planned: Planned, reply: RouterReply): Seg {
    if reply.RouterRaised? || i >= |l.rec.rows| then Failing(l, Unexpected)
    else if reply.verdict.NeedsApproval? then
      var l1 := Write(l, PutRow(l.rec, i, l.rec.rows[i].(approval := reply.approval)));
      var l2 := MarkRow(l1.(ctx := l1.ctx.(pending := Some(i), approvals := l1.ctx.approvals + 1)), i, RowWaiting);
      Move(l2, WaitingApproval)
    else Settle(Release(l), cfg, snap, i, planned.optional, reply.verdict, InStep)
  }

  function Settle(l: Local, cfg: Config, snap: Run, i: nat, optional: bool, verdict: Verdict, stage: Stage): Seg {
    match verdict
    case Did => SkipOver(MarkRow(l, i, RowSucceeded))
    case Denial =>
      var l1 := MarkRow(l, i, RowDenied);
      if optional then SkipOver(l1) else Finish(l1, Failed, ApprovalDenied)
    case Uncertain => Finish(MarkRow(l, i, RowUnknown), Failed, RecoveryRequired)
    case _ =>
      var l1 := MarkRow(l, i, RowFailed);
      if verdict.PolicyFailure? then OpenBoundary(l1, stage)
      else if optional then SkipOver(l1)
      else Replan(l1, cfg, snap, stage)
  }

  function RunProposal(l: Local, ordinal: nat, attempt: nat, luck: Luck): Seg {
    match CreateRow(l.rec, ProposalRow, ordinal, attempt)
    case None => Failing(l, Unexpected)
    case Some(rec) =>
      var l1 := Write(l, rec);
      if !luck.fileOk then Failing(l1, Unexpected)
      else SkipOver(MarkRow(l1, |rec.rows| - 1, RowSucceeded))
  }

  function RunVerifyHint(l: Local, ordinal: nat, attempt: nat): Seg {
    match CreateRow(l.rec, VerifyRow, ordinal, attempt)
    case None => Failing(l, Unexpected)
    case Some(rec) => SkipOver(MarkRow(Write(l, rec), |rec.rows| - 1, RowSkipped))
  }

  function RunPlanned(l: Local, cfg: Config, snap: Run, planned: Planned, luck: Luck): Seg {
    var ordinal, attempt := l.ctx.cursor + 1, l.ctx.book.revisions + 1;
    match planned.kind
    case SpecialistStep => RunSpecialist(l, snap, planned, ordinal, attempt)
    case CapabilityStep => RunCapability(l, cfg, snap, planned, ordinal, attempt, luck)
    case ProposalStep => RunProposal(l, ordinal, attempt, luck)
    case VerifyStep => RunVerifyHint(l, ordinal, attempt)
  }

  /** What remains of a step run once INTERRUPTED has been left. */
  function NextPlanned(l: Local, cfg: Config, snap: Run, luck: Luck): Seg {
    if l.ctx.plan.None? || l.ctx.cursor >= |l.ctx.plan.value| then Move(l, Verifying)
    else if l.ctx.book.steps >= l.ctx.book.limits.maxSteps then Failing(l, Exhausted(BudgetExhausted))
    else if luck.late then Failing(l, Exhausted(Timeout))
    else
      match RunPlanned(l, cfg, snap, l.ctx.plan.value[l.ctx.cursor], luck)
      case Failing(l', e) => Failing(l', e)
      case Stopped(l', aw) => Close(Stopped(l', aw), InStep)
  }

  function NextStep(l: Local, cfg: Config, snap: Run, luck: Luck): Seg {
    if snap.state.Interrupted? then
      match Move(l, Running)
      case Failing(l', e) => Failing(l', e)
      case Stopped(l', _) => NextPlanned(l', cfg, snap, luck)
    else NextPlanned(l, cfg, snap, luck)
  }

  predicate AllSettledOk(rows: seq<Row>) {
    forall i :: 0 <= i < |rows| ==> rows[i].state.SettledOk()
  }

  predicate AnyUnknown(rows: seq<Row>) {
    exists i :: 0 <= i < |rows| && rows[i].state.RowUnknown?
  }

  function Verify(l: Local, cfg: Config, luck: Luck): Seg {
    var rows := l.rec.rows;
    match CreateRow(l.rec, VerifyRow, |rows| + 1, 1)
    case None => Failing(l, Unexpected)
    case Some(rec) =>
      var l1 := Write(l, rec);
      if AnyUnknown(rows) then Finish(MarkRow(l1, |rows|, RowUnknown), Failed, RecoveryRequired)
      else if !AllSettledOk(rows) then Finish(MarkRow(l1, |rows|, RowFailed), Failed, SpecialistFailed)
      else Harvest(MarkRow(l1, |rows|, RowSucceeded), cfg, luck)
  }

  function Harvest(l: Local, cfg: Config, luck: Luck): Seg {
    if !l.rec.run.scope.Build? || !cfg.workspaces then Finish(l, Succeeded, NoCategory)
    else if !l.ctx.workspace then Finish(l, Failed, NoResult)
    else
      match CreateRow(l.rec, HarvestRow, |l.rec.rows| + 1, 1)
      case None => Failing(l, Unexpected)
      case Some(rec) =>
        var l1 := Write(l, rec);
        if luck.harvestOk then
          var l2 := Write(l1, l1.rec.(run := l1.rec.run.(branch := true)));
          Finish(MarkRow(l2, |rec.rows| - 1, RowSucceeded), Succeeded, NoCategory)
        else Finish(MarkRow(l1, |rec.rows| - 1, RowFailed), Failed, NoResult)
  }

  /** `_advance` up to its first await: what happens depends on the state the tick has read. */
  function Advance(l: Local, cfg: Config, snap: Run, luck: Luck): Seg {
    if l.ctx.cancel then Finish(l, Cancelled, CancelledByUser)
    else
      match snap.state
      case Created => Close(AdvanceCreated(l, cfg, snap, luck), InPlanning)
      case Planning => Close(DoPlan(l, cfg, InPlanning), InPlanning)
      case Running => Close(NextStep(l, cfg, snap, luck), InPlanning)
      case Interrupted => Close(NextStep(l, cfg, snap, luck), InPlanning)
      case Verifying => Close(Verify(l, cfg, luck), InPlanning)
      case _ => Stopped(l, Done)
  }

  // ---------------------------------------------------------------- polling an approval

  /** `_poll_approval` up to reading the approval: which row is it about? */
  function Poll(l: Local): Seg {
    var found := if l.ctx.pending.Some? && l.ctx.pending.value < |l.rec.rows| then l.ctx.pending
                 else LastWaiting(l.rec.rows);
    match found
    case None => Close(Move(l, Running), InPoll)
    case Some(i) => Stopped(l, Reading(i))
  }

  /** The approval has been read; without a control plane or an id there is nothing to read. */
  function ReadBack(l: Local, cfg: Config, i: nat, told: ApprovalReading): Seg {
    if i >= |l.rec.rows| then Stopped(l, Thrown)
    else
      match (if !cfg.control || l.rec.rows[i].approval.None? then ReadLapsed else told)
      case ReadPending => Stopped(l, Done)
      case ReadApproved =>
        var row := l.rec.rows[i].(granted := true, redeemed := l.rec.rows[i].redeemed + 1);
        Stopped(Write(l, PutRow(l.rec, i, row)), Redeeming(i))
      case ReadDenied =>
        (match Move(MarkRow(Release(l), i, RowDenied), Running)
         case Failing(l1, _) => Stopped(l1, Thrown)
         case Stopped(l1, _) => Finish(l1, Failed, ApprovalDenied))
      case ReadLapsed =>
        (match Move(Release(l), Running)
         case Failing(l1, _) => Stopped(l1, Thrown)
         case Stopped(l1, _) =>
           if l1.ctx.approvals >= MAX_APPROVAL_REQUESTS then Close(OpenBoundary(l1, InPoll), InPoll)
           else Stopped(l1, Done))
  }

  /** The step of the current plan a row belongs to is optional only if that plan says so. */
  function OptionalFor(ctx: Ctx, row: Row): bool {
    var index := if row.ordinal >= 1 then row.ordinal - 1 else 0;
    ctx.plan.Some? && index < |ctx.plan.value| && ctx.plan.value[index].optional
  }

  /** The router has answered the call made with the approval. */
  function RedeemedBack(l: Local, cfg: Config, snap: Run, i: nat, reply: RouterReply): Seg {
    if i >= |l.rec.rows| then Stopped(l, Thrown)
    else if reply.RouterRaised? then
      Stopped(Write(l, PutRow(l.rec, i, l.rec.rows[i].(raised := l.rec.rows[i].raised + 1))), Thrown)
    else
      match Move(Release(l), Running)
      case Failing(l1, _) => Stopped(l1, Thrown)
      case Stopped(l1, _) =>
        Close(Settle(l1, cfg, snap, i, OptionalFor(l1.ctx, l1.rec.rows[i]), reply.verdict, InPoll), InPoll)
  }

  /** The stretch that follows an await, given the answer that was awaited. */
  function Follow(l: Local, cfg: Config, snap: Run, aw: Await, answer: Answer): Option<Seg> {
    match (aw, answer)
    case (Planner(stage), FromPlanner(first, second)) => Some(Close(PlanBack(l, first, second), stage))
    case (Specialist(i, planned, digest), FromSpecialist(said)) =>
      Some(Close(SpecialistBack(l, cfg, snap, i, planned, digest, said), InStep))
    case (Asking(i, planned), FromRouter(reply)) => Some(Close(AskedBack(l, cfg, snap, i, planned, reply), InStep))
    case (Reading(i), FromApproval(told)) => Some(ReadBack(l, cfg, i, told))
    case (Redeeming(i), FromRouter(reply)) => Some(RedeemedBack(l, cfg, snap, i, reply))
    case (Boundary(stage), FromNotice) => Some(Close(Stopped(l, Done), stage))
    case _ => None
  }
}
