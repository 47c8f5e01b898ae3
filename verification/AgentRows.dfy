/**
 What each stretch makes of a run's rows, exactly: an advance only adds rows of its own, and
 behind an await the row that was asked about becomes what the answer says, and no other row
 changes. The same of the plan in memory.
 */
module AgentRows {
  import opened Basics
  import opened RunLedger
  import opened RunBudget
  import opened AgentSteps

  // ---------------------------------------------------------------- an advance adds

  /** A row an advance has added: not called with an approval, and nothing that was asked is settled yet. */
  predicate Added(row: Row, ask: bool) {
    && row.redeemed == 0 && (ask || row.asked == 0)
    && (row.kind.CapabilityRow? ==> row.state in {RowPending, RowRunning, RowWaiting, RowFailed})
    && (row.kind.SpecialistRow? ==> row.state in {RowPending, RowRunning})
  }

  predicate Extends(a: seq<Row>, b: seq<Row>, ask: bool) {
    a <= b && forall k :: |a| <= k < |b| ==> Added(b[k], ask)
  }

  /** In the middle of an advance that began with these rows and this plan. */
  predicate Adding(rows: seq<Row>, plan: Option<seq<Planned>>, l: Local, ask: bool) {
    && l.ctx.plan == plan && Extends(rows, l.rec.rows, ask)
    && forall t :: t in l.trail ==> Extends(rows, t.rows, ask)
  }

  lemma WriteAdds(rows: seq<Row>, plan: Option<seq<Planned>>, l: Local, rec: Record, ask: bool)
    requires Adding(rows, plan, l, ask) && Extends(rows, rec.rows, ask)
    ensures Adding(rows, plan, Write(l, rec), ask)
  {
    hide Extends;
  }

  /** A mark on a row this advance has added. */
  lemma MarkAdds(rows: seq<Row>, plan: Option<seq<Planned>>, l: Local, i: nat, s: RowState, ask: bool)
    requires Adding(rows, plan, l, ask) && |rows| <= i < |l.rec.rows|
    requires l.rec.rows[i].kind.CapabilityRow? ==> s in {RowPending, RowRunning, RowWaiting, RowFailed}
    requires l.rec.rows[i].kind.SpecialistRow? ==> s in {RowPending, RowRunning}
    ensures Adding(rows, plan, MarkRow(l, i, s), ask)
    ensures MarkRow(l, i, s).rec.rows == l.rec.rows[i := l.rec.rows[i].(state := s)]
  {
    assert Extends(rows, SetRowState(l.rec, i, s).rows, ask);
    WriteAdds(rows, plan, l, SetRowState(l.rec, i, s), ask);
  }

  /** A new row, once it is there and once it is marked. */
  lemma RowAdds(rows: seq<Row>, plan: Option<seq<Planned>>, l: Local, kind: RowKind, ordinal: nat, attempt: nat,
                s: RowState, ask: bool)
    requires Adding(rows, plan, l, ask) && CreateRow(l.rec, kind, ordinal, attempt).Some?
    requires kind.CapabilityRow? ==> s in {RowPending, RowRunning, RowWaiting, RowFailed}
    requires kind.SpecialistRow? ==> s in {RowPending, RowRunning}
    ensures var rec := CreateRow(l.rec, kind, ordinal, attempt).value;
            && |rec.rows| == |l.rec.rows| + 1 && |rows| <= |l.rec.rows|
            && Adding(rows, plan, Write(l, rec), ask) && Adding(rows, plan, MarkRow(Write(l, rec), |rec.rows| - 1, s), ask)
            && MarkRow(Write(l, rec), |rec.rows| - 1, s).rec.rows
               == l.rec.rows + [FreshRow(kind, ordinal, attempt).(state := s)]
  {
    var rec := CreateRow(l.rec, kind, ordinal, attempt).value;
    assert Extends(rows, rec.rows, ask);
    WriteAdds(rows, plan, l, rec, ask);
    MarkAdds(rows, plan, Write(l, rec), |rec.rows| - 1, s, ask);
  }

  lemma MoveAdds(rows: seq<Row>, plan: Option<seq<Planned>>, l: Local, s: RunState, ask: bool)
    requires Adding(rows, plan, l, ask)
    ensures Adding(rows, plan, Move(l, s).l, ask) && Move(l, s).l.rec.rows == l.rec.rows
  {
    hide Extends;
  }

  lemma FinishAdds(rows: seq<Row>, plan: Option<seq<Planned>>, l: Local, s: RunState, category: Category, ask: bool)
    requires Adding(rows, plan, l, ask)
    ensures Adding(rows, plan, Finish(l, s, category).l, ask)
  {
    hide Extends;
  }

  lemma CloseAdds(rows: seq<Row>, plan: Option<seq<Planned>>, seg: Seg, stage: Stage, ask: bool)
    requires Adding(rows, plan, seg.l, ask)
    ensures Adding(rows, plan, Close(seg, stage).l, ask)
  {
    hide Extends;
    if seg.Failing? {
      FinishAdds(rows, plan, seg.l, Failed, CategoryOf(seg.error), ask);
    }
  }

  lemma CtxAdds(rows: seq<Row>, plan: Option<seq<Planned>>, l: Local, ctx: Ctx, ask: bool)
    requires Adding(rows, plan, l, ask) && ctx.plan == plan
    ensures Adding(rows, plan, l.(ctx := ctx), ask)
  {
    hide Extends;
  }

  lemma ReplanAdds(rows: seq<Row>, plan: Option<seq<Planned>>, l: Local, cfg: Config, snap: Run, stage: Stage, ask: bool)
    requires Adding(rows, plan, l, ask)
    ensures Adding(rows, plan, Replan(l, cfg, snap, stage).l, ask)
  {
    hide Extends, Finish;
    FinishAdds(rows, plan, l, Failed, BudgetExhausted, ask);
    var l1 := l.(ctx := l.ctx.(book := l.ctx.book.(revisions := l.ctx.book.revisions + 1)));
    var rec := l1.rec.(run := l1.rec.run.(revision := snap.revision + 1));
    WriteAdds(rows, plan, l1, rec, ask);
    FinishAdds(rows, plan, Write(l1, rec), Failed, SpecialistUnavailable, ask);
  }

  lemma SpecialistAdds(rows: seq<Row>, plan: Option<seq<Planned>>, l: Local, snap: Run, planned: Planned, ordinal: nat,
                       attempt: nat)
    requires Adding(rows, plan, l, true)
    ensures Adding(rows, plan, RunSpecialist(l, snap, planned, ordinal, attempt).l, true)
  {
    hide Extends, Adding, Move, CreateRow, MarkRow, GuardAttempt, Write;
    var granted := GuardAttempt(l.ctx.book, Digest("specialist", planned.name, planned.text));
    if granted.Granted? {
      var l1 := l.(ctx := l.ctx.(book := granted.book));
      assert Adding(rows, plan, l1, true) by { PlanIs(rows, plan, l, true); CtxAdds(rows, plan, l, l1.ctx, true); }
      var made := CreateRow(l1.rec, SpecialistRow, ordinal, attempt);
      if made.Some? {
        RowAdds(rows, plan, l1, SpecialistRow, ordinal, attempt, RowRunning, true);
        MoveAdds(rows, plan, MarkRow(Write(l1, made.value), |made.value.rows| - 1, RowRunning), WaitingSpecialist, true);
      }
    }
  }

  lemma PlanIs(rows: seq<Row>, plan: Option<seq<Planned>>, l: Local, ask: bool)
    requires Adding(rows, plan, l, ask)
    ensures l.ctx.plan == plan
  {
  }

  lemma CapabilityAdds(rows: seq<Row>, plan: Option<seq<Planned>>, l: Local, cfg: Config, snap: Run, planned: Planned,
                       ordinal: nat, attempt: nat, luck: Luck)
    requires Adding(rows, plan, l, true)
    ensures Adding(rows, plan, RunCapability(l, cfg, snap, planned, ordinal, attempt, luck).l, true)
  {
    hide Extends, Adding, CreateRow, MarkRow, GuardAttempt, Write, RefuseInvalid, PutRow;
    var granted := GuardAttempt(l.ctx.book, Digest("capability", planned.name, planned.text));
    if cfg.router && granted.Granted? {
      var l1 := l.(ctx := l.ctx.(book := granted.book));
      assert Adding(rows, plan, l1, true) by { PlanIs(rows, plan, l, true); CtxAdds(rows, plan, l, l1.ctx, true); }
      var made := CreateRow(l1.rec, CapabilityRow, ordinal, attempt);
      if made.Some? {
        RowAdds(rows, plan, l1, CapabilityRow, ordinal, attempt, RowRunning, true);
        var i := |made.value.rows| - 1;
        var l2 := MarkRow(Write(l1, made.value), i, RowRunning);
        RefuseAdds(rows, plan, l2, cfg, snap, i, planned, luck.flaw);
        MarkAdds(rows, plan, l2, i, RowWaiting, true);
        AskAdds(rows, plan, l2, i);
      }
    }
  }

  /** The call without an approval goes to the row that has just been added. */
  lemma AskAdds(rows: seq<Row>, plan: Option<seq<Planned>>, l: Local, i: nat)
    requires Adding(rows, plan, l, true) && |rows| <= i < |l.rec.rows|
    ensures Adding(rows, plan, Write(l.(slot := Some(l.me)),
                                     PutRow(l.rec, i, l.rec.rows[i].(asked := l.rec.rows[i].asked + 1))), true)
  {
    var rec := PutRow(l.rec, i, l.rec.rows[i].(asked := l.rec.rows[i].asked + 1));
    assert Extends(rows, rec.rows, true);
    WriteAdds(rows, plan, l.(slot := Some(l.me)), rec, true);
  }

  lemma RefuseAdds(rows: seq<Row>, plan: Option<seq<Planned>>, l: Local, cfg: Config, snap: Run, i: nat, planned: Planned,
                   flaw: string)
    requires Adding(rows, plan, l, true) && |rows| <= i < |l.rec.rows| && l.rec.rows[i].kind.CapabilityRow?
    ensures Adding(rows, plan, RefuseInvalid(l, cfg, snap, i, planned, flaw).l, true)
  {
    hide Extends, Finish, Replan, MarkRow;
    var l0 := l.(ctx := l.ctx.(invalid := l.ctx.invalid + {(planned.name, flaw)}));
    MarkAdds(rows, plan, l0, i, RowFailed, true);
    FinishAdds(rows, plan, MarkRow(l0, i, RowFailed), Failed, PlannerInvalidStep, true);
    ReplanAdds(rows, plan, MarkRow(l0, i, RowFailed), cfg, snap, InStep, true);
  }

  lemma PlannedAdds(rows: seq<Row>, plan: Option<seq<Planned>>, l: Local, cfg: Config, snap: Run, planned: Planned, luck: Luck)
    requires Adding(rows, plan, l, true)
    ensures Adding(rows, plan, RunPlanned(l, cfg, snap, planned, luck).l, true)
  {
    hide Extends, Adding, RunSpecialist, RunCapability, CreateRow, MarkRow, Write;
    var ordinal, attempt := l.ctx.cursor + 1, l.ctx.book.revisions + 1;
    SpecialistAdds(rows, plan, l, snap, planned, ordinal, attempt);
    CapabilityAdds(rows, plan, l, cfg, snap, planned, ordinal, attempt, luck);
    var proposal := CreateRow(l.rec, ProposalRow, ordinal, attempt);
    if proposal.Some? {
      RowAdds(rows, plan, l, ProposalRow, ordinal, attempt, RowSucceeded, true);
      SkipAdds(rows, plan, MarkRow(Write(l, proposal.value), |proposal.value.rows| - 1, RowSucceeded), true);
    }
    var hint := CreateRow(l.rec, VerifyRow, ordinal, attempt);
    if hint.Some? {
      RowAdds(rows, plan, l, VerifyRow, ordinal, attempt, RowSkipped, true);
      SkipAdds(rows, plan, MarkRow(Write(l, hint.value), |hint.value.rows| - 1, RowSkipped), true);
    }
  }

  lemma SkipAdds(rows: seq<Row>, plan: Option<seq<Planned>>, l: Local, ask: bool)
    requires Adding(rows, plan, l, ask)
    ensures Adding(rows, plan, SkipOver(l).l, ask)
  {
    hide Extends;
  }

  /** Without a plan no step is started. */
  lemma NextAdds(rows: seq<Row>, plan: Option<seq<Planned>>, l: Local, cfg: Config, snap: Run, luck: Luck)
    requires Adding(rows, plan, l, plan.Some?) && l.ctx.plan == plan
    ensures Adding(rows, plan, NextPlanned(l, cfg, snap, luck).l, plan.Some?)
  {
    hide Extends, Adding, RunPlanned, Move, Close;
    MoveAdds(rows, plan, l, Verifying, plan.Some?);
    if plan.Some? && l.ctx.cursor < |plan.value| {
      PlannedAdds(rows, plan, l, cfg, snap, plan.value[l.ctx.cursor], luck);
      CloseAdds(rows, plan, RunPlanned(l, cfg, snap, plan.value[l.ctx.cursor], luck), InStep, true);
    }
  }

  lemma HarvestAdds(rows: seq<Row>, plan: Option<seq<Planned>>, l: Local, cfg: Config, luck: Luck, ask: bool)
    requires Adding(rows, plan, l, ask)
    ensures Adding(rows, plan, Harvest(l, cfg, luck).l, ask)
  {
    hide Extends, Adding, CreateRow, MarkRow, Finish, Write;
    FinishAdds(rows, plan, l, Succeeded, NoCategory, ask);
    FinishAdds(rows, plan, l, Failed, NoResult, ask);
    var made := CreateRow(l.rec, HarvestRow, |l.rec.rows| + 1, 1);
    if made.Some? {
      var i := |made.value.rows| - 1;
      RowAdds(rows, plan, l, HarvestRow, |l.rec.rows| + 1, 1, RowFailed, ask);
      var l1 := Write(l, made.value);
      var l2 := Write(l1, l1.rec.(run := l1.rec.run.(branch := true)));
      BranchAdds(rows, plan, l1, ask);
      HarvestMade(l, made.value);
      MarkAdds(rows, plan, l2, i, RowSucceeded, ask);
      FinishAdds(rows, plan, MarkRow(l1, i, RowFailed), Failed, NoResult, ask);
      FinishAdds(rows, plan, MarkRow(l2, i, RowSucceeded), Succeeded, NoCategory, ask);
    }
  }

  lemma HarvestMade(l: Local, rec: Record)
    requires CreateRow(l.rec, HarvestRow, |l.rec.rows| + 1, 1) == Some(rec)
    ensures var l1 := Write(l, rec);
            var l2 := Write(l1, l1.rec.(run := l1.rec.run.(branch := true)));
            l1.rec == rec && l2.rec.rows == rec.rows && rec.rows[|rec.rows| - 1].kind.HarvestRow?
  {
  }

  lemma BranchAdds(rows: seq<Row>, plan: Option<seq<Planned>>, l: Local, ask: bool)
    requires Adding(rows, plan, l, ask)
    ensures Adding(rows, plan, Write(l, l.rec.(run := l.rec.run.(branch := true))), ask)
  {
    hide Extends;
  }

  lemma VerifyAdds(rows: seq<Row>, plan: Option<seq<Planned>>, l: Local, cfg: Config, luck: Luck, ask: bool)
    requires Adding(rows, plan, l, ask)
    ensures Adding(rows, plan, Verify(l, cfg, luck).l, ask)
  {
    hide Extends, Adding, CreateRow, MarkRow, Finish, Write, Harvest, AllSettledOk, AnyUnknown;
    var n := |l.rec.rows|;
    var made := CreateRow(l.rec, VerifyRow, n + 1, 1);
    if made.Some? {
      RowAdds(rows, plan, l, VerifyRow, n + 1, 1, RowUnknown, ask);
      RowAdds(rows, plan, l, VerifyRow, n + 1, 1, RowFailed, ask);
      RowAdds(rows, plan, l, VerifyRow, n + 1, 1, RowSucceeded, ask);
      var l1 := Write(l, made.value);
      FinishAdds(rows, plan, MarkRow(l1, n, RowUnknown), Failed, RecoveryRequired, ask);
      FinishAdds(rows, plan, MarkRow(l1, n, RowFailed), Failed, SpecialistFailed, ask);
      HarvestAdds(rows, plan, MarkRow(l1, n, RowSucceeded), cfg, luck, ask);
    }
  }

  lemma CreatedAdds(rows: seq<Row>, plan: Option<seq<Planned>>, l: Local, cfg: Config, snap: Run, luck: Luck, ask: bool)
    requires Adding(rows, plan, l, ask)
    ensures Adding(rows, plan, AdvanceCreated(l, cfg, snap, luck).l, ask)
  {
    hide Extends, Move;
    MoveAdds(rows, plan, l, Planning, ask);
    var rec := l.rec.(run := l.rec.run.(workspace := true));
    WriteAdds(rows, plan, l, rec, ask);
    MoveAdds(rows, plan, Write(l, rec).(ctx := l.ctx.(workspace := true)), Planning, ask);
  }

  lemma StepAdds(rows: seq<Row>, plan: Option<seq<Planned>>, l: Local, cfg: Config, snap: Run, luck: Luck)
    requires Adding(rows, plan, l, plan.Some?)
    ensures Adding(rows, plan, NextStep(l, cfg, snap, luck).l, plan.Some?)
  {
    PlanIs(rows, plan, l, plan.Some?);
    hide Extends, Adding, NextPlanned, Move;
    MoveAdds(rows, plan, l, Running, plan.Some?);
    NextAdds(rows, plan, l, cfg, snap, luck);
    var moved := Move(l, Running);
    PlanIs(rows, plan, moved.l, plan.Some?);
    NextAdds(rows, plan, moved.l, cfg, snap, luck);
  }

  /** An advance keeps the rows there are, and asks only where there is a plan to follow and no cancellation. */
  lemma AdvanceAdds(l: Local, cfg: Config, snap: Run, luck: Luck)
    requires l.trail == []
    ensures Adding(l.rec.rows, l.ctx.plan, Advance(l, cfg, snap, luck).l, l.ctx.plan.Some? && !l.ctx.cancel)
  {
    hide Extends, Adding, NextStep, Verify, Finish, Close, AdvanceCreated;
    var rows, plan, ask := l.rec.rows, l.ctx.plan, l.ctx.plan.Some?;
    SelfAdds(l, false);
    SelfAdds(l, ask);
    FinishAdds(rows, plan, l, Cancelled, CancelledByUser, false);
    FinishAdds(rows, plan, l, Failed, SpecialistUnavailable, ask);
    CreatedAdds(rows, plan, l, cfg, snap, luck, ask);
    CloseAdds(rows, plan, AdvanceCreated(l, cfg, snap, luck), InPlanning, ask);
    CloseAdds(rows, plan, DoPlan(l, cfg, InPlanning), InPlanning, ask);
    StepAdds(rows, plan, l, cfg, snap, luck);
    CloseAdds(rows, plan, NextStep(l, cfg, snap, luck), InPlanning, ask);
    VerifyAdds(rows, plan, l, cfg, luck, ask);
    CloseAdds(rows, plan, Verify(l, cfg, luck), InPlanning, ask);
  }

  lemma SelfAdds(l: Local, ask: bool)
    requires l.trail == []
    ensures Adding(l.rec.rows, l.ctx.plan, l, ask)
  {
  }

  /** A poll leaves the rows alone until the approval has been read. */
  lemma PollKeeps(l: Local)
    requires l.trail == []
    ensures Poll(l).l.rec.rows == l.rec.rows && Poll(l).l.ctx.plan == l.ctx.plan
    ensures forall t :: t in Poll(l).l.trail ==> t.rows == l.rec.rows
  {
  }

  // ---------------------------------------------------------------- an answer settles

  /** What is made of a row by the outcome of its call. */
  function StateFor(v: Verdict): RowState {
    match v
    case Did => RowSucceeded
    case Denial => RowDenied
    case Uncertain => RowUnknown
    case _ => RowFailed
  }

  /** The row an await is about. */
  function About(aw: Await): Option<nat> {
    match aw
    case Specialist(i, _, _) => Some(i)
    case Asking(i, _) => Some(i)
    case Reading(i) => Some(i)
    case Redeeming(i) => Some(i)
    case _ => None
  }

  /**
   What an answer makes of the row it is about. A reading without a control plane or without an
   approval on the row reads nothing; a call whose run has ended meanwhile settles nothing.
   */
  function Fate(cfg: Config, row: Row, open: bool, aw: Await, answer: Answer): Row {
    match (aw, answer)
    case (Specialist(_, _, _), FromSpecialist(SpecialistSaid(ok, _, _, _))) =>
      row.(state := if ok then RowSucceeded else RowFailed, child := true)
    case (Asking(_, _), FromRouter(Answered(v, approval))) =>
      if v == NeedsApproval then row.(state := RowWaiting, approval := approval) else row.(state := StateFor(v))
    case (Reading(_), FromApproval(told)) =>
      if !cfg.control || row.approval.None? then row
      else if told == ReadApproved then row.(granted := true, redeemed := row.redeemed + 1)
      else if told == ReadDenied then row.(state := RowDenied)
      else row
    case (Redeeming(_), FromRouter(RouterRaised)) => row.(raised := row.raised + 1)
    case (Redeeming(_), FromRouter(Answered(v, _))) => if open then row.(state := StateFor(v)) else row
    case _ => row
  }

  /** A call with an approval is settled after the run has moved on, an approval written after its id. */
  predicate Late(aw: Await, answer: Answer) {
    && answer.FromRouter? && answer.reply.Answered?
    && (aw.Redeeming? || (aw.Asking? && answer.reply.verdict == NeedsApproval))
  }

  /** The row after the n-th write of the stretch behind the await. */
  function FateAt(cfg: Config, row: Row, open: bool, aw: Await, answer: Answer, n: nat): Row {
    if n == 0 then row
    else if n == 1 && Late(aw, answer) then (if aw.Asking? then row.(approval := answer.reply.approval) else row)
    else Fate(cfg, row, open, aw, answer)
  }

  /** From the end of `pre` on, every write leaves these rows, and the plan stays. */
  predicate Holds(rows: seq<Row>, plan: Option<seq<Planned>>, pre: seq<Record>, l: Local) {
    && l.ctx.plan == plan && l.rec.rows == rows && pre <= l.trail
    && forall n :: |pre| <= n < |l.trail| ==> l.trail[n].rows == rows
  }

  lemma WriteHolds(rows: seq<Row>, plan: Option<seq<Planned>>, pre: seq<Record>, l: Local, rec: Record)
    requires Holds(rows, plan, pre, l) && rec.rows == rows
    ensures Holds(rows, plan, pre, Write(l, rec))
  {
  }

  lemma MoveHolds(rows: seq<Row>, plan: Option<seq<Planned>>, pre: seq<Record>, l: Local, s: RunState)
    requires Holds(rows, plan, pre, l)
    ensures Holds(rows, plan, pre, Move(l, s).l)
  {
  }

  lemma FinishHolds(rows: seq<Row>, plan: Option<seq<Planned>>, pre: seq<Record>, l: Local, s: RunState, category: Category)
    requires Holds(rows, plan, pre, l)
    ensures Holds(rows, plan, pre, Finish(l, s, category).l)
  {
  }

  lemma CloseHolds(rows: seq<Row>, plan: Option<seq<Planned>>, pre: seq<Record>, seg: Seg, stage: Stage)
    requires Holds(rows, plan, pre, seg.l)
    ensures Holds(rows, plan, pre, Close(seg, stage).l)
  {
    if seg.Failing? {
      FinishHolds(rows, plan, pre, seg.l, Failed, CategoryOf(seg.error));
    }
  }

  lemma ReplanHolds(rows: seq<Row>, plan: Option<seq<Planned>>, pre: seq<Record>, l: Local, cfg: Config, snap: Run, stage: Stage)
    requires Holds(rows, plan, pre, l)
    ensures Holds(rows, plan, pre, Replan(l, cfg, snap, stage).l)
  {
    hide Finish, Holds;
    FinishHolds(rows, plan, pre, l, Failed, BudgetExhausted);
    var l1 := l.(ctx := l.ctx.(book := l.ctx.book.(revisions := l.ctx.book.revisions + 1)));
    assert Holds(rows, plan, pre, l1) && l1.rec.rows == rows by { BookHolds(rows, plan, pre, l, l1.ctx.book); }
    var rec := l1.rec.(run := l1.rec.run.(revision := snap.revision + 1));
    WriteHolds(rows, plan, pre, l1, rec);
    FinishHolds(rows, plan, pre, Write(l1, rec), Failed, SpecialistUnavailable);
  }

  lemma BookHolds(rows: seq<Row>, plan: Option<seq<Planned>>, pre: seq<Record>, l: Local, book: Book)
    requires Holds(rows, plan, pre, l)
    ensures Holds(rows, plan, pre, l.(ctx := l.ctx.(book := book))) && l.rec.rows == rows && l.ctx.plan == plan
  {
  }

  lemma BoundaryHolds(rows: seq<Row>, plan: Option<seq<Planned>>, pre: seq<Record>, l: Local, stage: Stage)
    requires Holds(rows, plan, pre, l)
    ensures Holds(rows, plan, pre, OpenBoundary(l, stage).l)
  {
    hide Move;
    var rec := l.rec.(run := l.rec.run.(boundary := true));
    WriteHolds(rows, plan, pre, l, rec);
    MoveHolds(rows, plan, pre, Write(l, rec), WaitingUser);
  }

  lemma SkipHolds(rows: seq<Row>, plan: Option<seq<Planned>>, pre: seq<Record>, l: Local)
    requires Holds(rows, plan, pre, l)
    ensures Holds(rows, plan, pre, SkipOver(l).l)
  {
  }

  /** A row that is marked by the next write, and then left alone. */
  lemma MarkHolds(l: Local, i: nat, row: Row)
    requires i < |l.rec.rows|
    ensures var l1 := Write(l, PutRow(l.rec, i, row));
            && Holds(l.rec.rows[i := row], l.ctx.plan, l.trail, l1) && |l1.trail| == |l.trail| + 1
  {
  }

  /** Settled, and from that write on the rows stay. */
  lemma SettleHolds(l: Local, cfg: Config, snap: Run, i: nat, optional: bool, verdict: Verdict, stage: Stage)
    requires i < |l.rec.rows|
    ensures var l' := Settle(l, cfg, snap, i, optional, verdict, stage).l;
            && Holds(l.rec.rows[i := l.rec.rows[i].(state := StateFor(verdict))], l.ctx.plan, l.trail, l')
            && |l'.trail| > |l.trail|
  {
    hide Holds, Finish, Replan, OpenBoundary, SkipOver;
    var s := StateFor(verdict);
    var row := l.rec.rows[i].(state := s);
    var rows := l.rec.rows[i := row];
    var plan, l1 := l.ctx.plan, MarkRow(l, i, s);
    MarkHolds(l, i, row);
    SkipHolds(rows, plan, l.trail, l1);
    FinishHolds(rows, plan, l.trail, l1, Failed, ApprovalDenied);
    FinishHolds(rows, plan, l.trail, l1, Failed, RecoveryRequired);
    BoundaryHolds(rows, plan, l.trail, l1, stage);
    ReplanHolds(rows, plan, l.trail, l1, cfg, snap, stage);
    Longer(l1, cfg, snap, stage);
  }

  /** Nothing of what follows takes a write back. */
  lemma Longer(l: Local, cfg: Config, snap: Run, stage: Stage)
    ensures |SkipOver(l).l.trail| >= |l.trail| && |OpenBoundary(l, stage).l.trail| >= |l.trail|
    ensures |Replan(l, cfg, snap, stage).l.trail| >= |l.trail|
    ensures forall s, c :: |Finish(l, s, c).l.trail| >= |l.trail|
  {
  }

  // ---------------------------------------------------------------- what the planner proposed

  /**
   The plan a planning event ends with, if it ends with one: the first reply's, if it passes the
   policy, else the second's, which is asked for only after a reply that missed the schema.
   */
  function Proposal(calls: nat, scope: Scope, first: PlannerReply, second: PlannerReply): Option<seq<Planned>> {
    if first.Proposed? && Plannable(first.plan, scope) then Some(first.plan)
    else if (first.Proposed? || first.Rejected?) && calls + 1 < MAX_PLANNER_CALLS
            && second.Proposed? && Plannable(second.plan, scope) then Some(second.plan)
    else None
  }

  /** The plan behind an await: a proposal in full, or the plan there was, cut after the step that met the goal. */
  function PlanNext(l: Local, aw: Await, answer: Answer): Option<seq<Planned>> {
    match (aw, answer)
    case (Planner(_), FromPlanner(first, second)) =>
      var p := Proposal(l.ctx.book.plannerCalls, l.rec.run.scope, first, second);
      if p.Some? then p else l.ctx.plan
    case (Specialist(_, _, _), FromSpecialist(SpecialistSaid(ok, _, _, goalMet))) =>
      if ok && goalMet && l.rec.run.state.WaitingSpecialist? && !l.ctx.goalMet
         && l.ctx.plan.Some? && l.ctx.cursor < |l.ctx.plan.value|
      then Some(l.ctx.plan.value[..l.ctx.cursor + 1]) else l.ctx.plan
    case _ => l.ctx.plan
  }

  /** A planning event that ends with a plan starts it from its first step. */
  lemma PlanBackKeepsAll(l: Local, first: PlannerReply, second: PlannerReply)
    ensures var p := Proposal(l.ctx.book.plannerCalls, l.rec.run.scope, first, second);
            var l' := PlanBack(l, first, second).l;
            && (p.Some? ==> l'.ctx.plan == p && l'.ctx.cursor == 0)
            && (p.None? ==> l'.ctx.plan == l.ctx.plan && l'.ctx.cursor == l.ctx.cursor && PlanBack(l, first, second).Failing?)
            && l'.rec.rows == l.rec.rows && l.trail <= l'.trail
            && forall n :: |l.trail| <= n < |l'.trail| ==> l'.trail[n].rows == l.rec.rows
  {
  }

  // ---------------------------------------------------------------- behind an await

  /** A stretch behind an await has settled its row and left everything else. */
  predicate Settles(l: Local, cfg: Config, aw: Await, answer: Answer, l': Local) {
    var rows, open := l.rec.rows, l.rec.run.state.WaitingApproval?;
    match About(aw)
    case None => Holds(rows, l'.ctx.plan, [], l')
    case Some(i) =>
      && i < |rows|
      && l'.rec.rows == rows[i := Fate(cfg, rows[i], open, aw, answer)]
      && (forall n :: 0 <= n < |l'.trail| ==> l'.trail[n].rows == rows[i := FateAt(cfg, rows[i], open, aw, answer, n + 1)])
      && (Fate(cfg, rows[i], open, aw, answer) != rows[i] ==> |l'.trail| >= if Late(aw, answer) then 2 else 1)
  }

  /** With the first write the row has its fate, and the rows stay. */
  lemma SettlesAtOnce(l: Local, cfg: Config, aw: Await, answer: Answer, i: nat, row: Row, l': Local)
    requires About(aw) == Some(i) && i < |l.rec.rows| && !Late(aw, answer)
    requires row == Fate(cfg, l.rec.rows[i], l.rec.run.state.WaitingApproval?, aw, answer)
    requires Holds(l.rec.rows[i := row], l'.ctx.plan, [], l') && (row != l.rec.rows[i] ==> |l'.trail| >= 1)
    ensures Settles(l, cfg, aw, answer, l')
  {
    hide Fate;
  }

  /** The row keeps, and so do all. */
  lemma SettlesNothing(l: Local, cfg: Config, aw: Await, answer: Answer, i: nat, l': Local)
    requires About(aw) == Some(i) && i < |l.rec.rows| && !Late(aw, answer)
    requires l.rec.rows[i] == Fate(cfg, l.rec.rows[i], l.rec.run.state.WaitingApproval?, aw, answer)
    requires Holds(l.rec.rows, l'.ctx.plan, [], l')
    ensures Settles(l, cfg, aw, answer, l')
  {
    assert l.rec.rows[i := l.rec.rows[i]] == l.rec.rows;
    hide Fate;
    SettlesAtOnce(l, cfg, aw, answer, i, l.rec.rows[i], l');
  }

  lemma SpecialistSettles(l: Local, cfg: Config, snap: Run, i: nat, planned: Planned, digest: Digest, said: SpecialistReply)
    requires l.trail == [] && i < |l.rec.rows| && (l.rec.run.state.WaitingSpecialist? || l.rec.run.state.Terminal())
    ensures var aw, answer := Specialist(i, planned, digest), FromSpecialist(said);
            var l' := Close(SpecialistBack(l, cfg, snap, i, planned, digest, said), InStep).l;
            Settles(l, cfg, aw, answer, l') && l'.ctx.plan == PlanNext(l, aw, answer)
  {
    hide Settles, Close, SpecialistBack;
    if said.SpecialistRaised? {
      SpecialistRaises(l, cfg, snap, i, planned, digest);
    } else {
      SpecialistIsSettled(l, cfg, snap, i, planned, digest, said);
    }
  }

  lemma SpecialistRaises(l: Local, cfg: Config, snap: Run, i: nat, planned: Planned, digest: Digest)
    requires l.trail == [] && i < |l.rec.rows|
    ensures var aw, answer := Specialist(i, planned, digest), FromSpecialist(SpecialistRaised);
            var l' := Close(SpecialistBack(l, cfg, snap, i, planned, digest, SpecialistRaised), InStep).l;
            Settles(l, cfg, aw, answer, l') && l'.ctx.plan == l.ctx.plan
  {
    var seg := SpecialistBack(l, cfg, snap, i, planned, digest, SpecialistRaised);
    assert Holds(l.rec.rows, l.ctx.plan, [], l);
    CloseHolds(l.rec.rows, l.ctx.plan, [], seg, InStep);
    HoldsPlan(l.rec.rows, l.ctx.plan, [], Close(seg, InStep).l);
    hide Close, Holds, SpecialistBack;
    SettlesNothing(l, cfg, Specialist(i, planned, digest), FromSpecialist(SpecialistRaised), i, Close(seg, InStep).l);
  }

  /** The row's write. */
  function Told(l: Local, i: nat, said: SpecialistReply): Local
    requires i < |l.rec.rows| && said.SpecialistSaid?
  {
    var row := l.rec.rows[i].(state := if said.ok then RowSucceeded else RowFailed, child := true);
    Write(l.(ctx := l.ctx.(book := l.ctx.book.(specialists := l.ctx.book.specialists + 1))), PutRow(l.rec, i, row))
  }

  lemma ToldIs(l: Local, cfg: Config, snap: Run, i: nat, planned: Planned, digest: Digest, said: SpecialistReply)
    requires i < |l.rec.rows| && said.SpecialistSaid?
    ensures var moved := Move(Told(l, i, said), Running);
            SpecialistBack(l, cfg, snap, i, planned, digest, said).l
            == if moved.Failing? then moved.l else AfterSpecialist(moved.l, cfg, snap, planned, digest, said).l
  {
    hide Move, AfterSpecialist, Write, PutRow;
  }

  lemma ToldHolds(l: Local, i: nat, said: SpecialistReply)
    requires l.trail == [] && i < |l.rec.rows| && said.SpecialistSaid?
    ensures var l2 := Told(l, i, said);
            && Holds(l.rec.rows[i := l.rec.rows[i].(state := if said.ok then RowSucceeded else RowFailed, child := true)],
                     l2.ctx.plan, [], l2)
            && l2.rec.run == l.rec.run && l2.ctx.plan == l.ctx.plan && l2.ctx.cursor == l.ctx.cursor
            && l2.ctx.goalMet == l.ctx.goalMet
  {
  }

  lemma SamePlanNext(l: Local, l': Local, i: nat, planned: Planned, digest: Digest, said: SpecialistReply)
    requires l'.rec.run == l.rec.run && l'.ctx.plan == l.ctx.plan && l'.ctx.cursor == l.ctx.cursor
    requires l'.ctx.goalMet == l.ctx.goalMet
    ensures PlanNext(l', Specialist(0, planned, digest), FromSpecialist(said))
            == PlanNext(l, Specialist(i, planned, digest), FromSpecialist(said))
  {
  }

  lemma SpecialistHolds(l: Local, cfg: Config, snap: Run, i: nat, planned: Planned, digest: Digest, said: SpecialistReply)
    requires l.trail == [] && i < |l.rec.rows| && (l.rec.run.state.WaitingSpecialist? || l.rec.run.state.Terminal())
    requires said.SpecialistSaid?
    ensures var rows := l.rec.rows[i := l.rec.rows[i].(state := if said.ok then RowSucceeded else RowFailed, child := true)];
            Holds(rows, PlanNext(l, Specialist(i, planned, digest), FromSpecialist(said)), [],
                  SpecialistBack(l, cfg, snap, i, planned, digest, said).l)
  {
    hide Holds, Move, AfterSpecialist, SpecialistBack, PlanNext, Told;
    var row := l.rec.rows[i].(state := if said.ok then RowSucceeded else RowFailed, child := true);
    var l2 := Told(l, i, said);
    ToldHolds(l, i, said);
    ToldIs(l, cfg, snap, i, planned, digest, said);
    SamePlanNext(l, l2, i, planned, digest, said);
    SpecialistTail(l2, cfg, snap, planned, digest, said, l.rec.rows[i := row]);
  }

  lemma SpecialistIsSettled(l: Local, cfg: Config, snap: Run, i: nat, planned: Planned, digest: Digest, said: SpecialistReply)
    requires l.trail == [] && i < |l.rec.rows| && (l.rec.run.state.WaitingSpecialist? || l.rec.run.state.Terminal())
    requires said.SpecialistSaid?
    ensures var aw, answer := Specialist(i, planned, digest), FromSpecialist(said);
            var l' := Close(SpecialistBack(l, cfg, snap, i, planned, digest, said), InStep).l;
            Settles(l, cfg, aw, answer, l') && l'.ctx.plan == PlanNext(l, aw, answer)
  {
    hide Holds, Close, SpecialistBack, PlanNext;
    var aw, answer := Specialist(i, planned, digest), FromSpecialist(said);
    var seg := SpecialistBack(l, cfg, snap, i, planned, digest, said);
    var row := l.rec.rows[i].(state := if said.ok then RowSucceeded else RowFailed, child := true);
    SpecialistHolds(l, cfg, snap, i, planned, digest, said);
    SpecialistWrites(l, cfg, snap, i, planned, digest, said);
    CloseHolds(l.rec.rows[i := row], PlanNext(l, aw, answer), [], seg, InStep);
    HoldsPlan(l.rec.rows[i := row], PlanNext(l, aw, answer), [], Close(seg, InStep).l);
    SettlesAtOnce(l, cfg, aw, answer, i, row, Close(seg, InStep).l);
  }

  lemma SpecialistWrites(l: Local, cfg: Config, snap: Run, i: nat, planned: Planned, digest: Digest, said: SpecialistReply)
    requires said.SpecialistSaid? && i < |l.rec.rows|
    ensures |Close(SpecialistBack(l, cfg, snap, i, planned, digest, said), InStep).l.trail| >= 1
  {
    hide Move, AfterSpecialist, SpecialistBack, Close;
    var l2 := Told(l, i, said);
    ToldIs(l, cfg, snap, i, planned, digest, said);
    MoveWrites(l2, Running);
    AfterWrites(Move(l2, Running).l, cfg, snap, planned, digest, said);
    CloseWrites(SpecialistBack(l, cfg, snap, i, planned, digest, said), InStep);
  }

  lemma AfterWrites(l: Local, cfg: Config, snap: Run, planned: Planned, digest: Digest, said: SpecialistReply)
    requires said.SpecialistSaid?
    ensures |AfterSpecialist(l, cfg, snap, planned, digest, said).l.trail| >= |l.trail|
  {
    hide Finish, Replan, Shorten, NoteLowValue;
    Longer(l, cfg, snap, InStep);
    Longer(l.(ctx := l.ctx.(book := NoteLowValue(l.ctx.book, digest))), cfg, snap, InStep);
  }

  /** From the row's write on: back to RUNNING, and whatever follows. */
  lemma SpecialistTail(l: Local, cfg: Config, snap: Run, planned: Planned, digest: Digest, said: SpecialistReply, rows: seq<Row>)
    requires said.SpecialistSaid? && Holds(rows, l.ctx.plan, [], l)
    requires l.rec.run.state.WaitingSpecialist? || l.rec.run.state.Terminal()
    ensures var moved := Move(l, Running);
            var l' := if moved.Failing? then moved.l else AfterSpecialist(moved.l, cfg, snap, planned, digest, said).l;
            Holds(rows, PlanNext(l, Specialist(0, planned, digest), FromSpecialist(said)), [], l')
  {
    MoveHolds(rows, l.ctx.plan, [], l, Running);
    assert Move(l, Running).Stopped? <==> l.rec.run.state.WaitingSpecialist?;
    var l1 := Move(l, Running).l;
    assert l1.ctx == l.ctx;
    hide Move;
    if l.rec.run.state.WaitingSpecialist? {
      if !said.ok {
        FinishHolds(rows, l.ctx.plan, [], l1, Failed, Quota);
        BookHolds(rows, l.ctx.plan, [], l1, NoteLowValue(l1.ctx.book, digest));
        ReplanHolds(rows, l.ctx.plan, [], l1.(ctx := l1.ctx.(book := NoteLowValue(l1.ctx.book, digest))), cfg, snap, InStep);
        hide Replan, Finish;
      } else {
        hide Replan, Finish;
      }
    }
  }

  lemma HoldsPlan(rows: seq<Row>, plan: Option<seq<Planned>>, pre: seq<Record>, l: Local)
    requires Holds(rows, plan, pre, l)
    ensures l.ctx.plan == plan
  {
  }

  lemma AskedIsSettled(l: Local, cfg: Config, snap: Run, i: nat, planned: Planned, reply: RouterReply)
    requires l.trail == [] && i < |l.rec.rows| && reply.Answered? && !reply.verdict.NeedsApproval?
    ensures var l' := Close(AskedBack(l, cfg, snap, i, planned, reply), InStep).l;
            Settles(l, cfg, Asking(i, planned), FromRouter(reply), l') && l'.ctx.plan == l.ctx.plan
  {
    var row := l.rec.rows[i].(state := StateFor(reply.verdict));
    var seg := AskedBack(l, cfg, snap, i, planned, reply);
    assert Release(l).rec == l.rec && Release(l).ctx == l.ctx && Release(l).trail == [];
    assert seg == Settle(Release(l), cfg, snap, i, planned.optional, reply.verdict, InStep);
    hide Settle, Close, AskedBack, Holds, Release;
    SettleHolds(Release(l), cfg, snap, i, planned.optional, reply.verdict, InStep);
    CloseHolds(l.rec.rows[i := row], l.ctx.plan, [], seg, InStep);
    CloseWrites(seg, InStep);
    HoldsPlan(l.rec.rows[i := row], l.ctx.plan, [], Close(seg, InStep).l);
    SettlesAtOnce(l, cfg, Asking(i, planned), FromRouter(reply), i, row, Close(seg, InStep).l);
  }

  lemma AskedParks(l: Local, cfg: Config, snap: Run, i: nat, planned: Planned, reply: RouterReply)
    requires l.trail == [] && i < |l.rec.rows| && reply.Answered? && reply.verdict.NeedsApproval?
    ensures var l' := Close(AskedBack(l, cfg, snap, i, planned, reply), InStep).l;
            Settles(l, cfg, Asking(i, planned), FromRouter(reply), l') && l'.ctx.plan == l.ctx.plan
  {
    hide Settle, Close, Move, MarkRow, PutRow, Write, Holds;
    ParksLate(l, i, reply.approval);
  }

  lemma AskedRaises(l: Local, cfg: Config, snap: Run, i: nat, planned: Planned)
    requires l.trail == [] && i < |l.rec.rows|
    ensures var l' := Close(AskedBack(l, cfg, snap, i, planned, RouterRaised), InStep).l;
            Settles(l, cfg, Asking(i, planned), FromRouter(RouterRaised), l') && l'.ctx.plan == l.ctx.plan
  {
    var seg := AskedBack(l, cfg, snap, i, planned, RouterRaised);
    assert Holds(l.rec.rows, l.ctx.plan, [], l);
    CloseHolds(l.rec.rows, l.ctx.plan, [], seg, InStep);
    HoldsPlan(l.rec.rows, l.ctx.plan, [], Close(seg, InStep).l);
    hide Close, Holds, AskedBack;
    SettlesNothing(l, cfg, Asking(i, planned), FromRouter(RouterRaised), i, Close(seg, InStep).l);
  }

  lemma AskedSettles(l: Local, cfg: Config, snap: Run, i: nat, planned: Planned, reply: RouterReply)
    requires l.trail == [] && i < |l.rec.rows|
    ensures var l' := Close(AskedBack(l, cfg, snap, i, planned, reply), InStep).l;
            Settles(l, cfg, Asking(i, planned), FromRouter(reply), l') && l'.ctx.plan == l.ctx.plan
  {
    hide Settles, Close, AskedBack;
    if reply.RouterRaised? {
      AskedRaises(l, cfg, snap, i, planned);
    } else if reply.verdict.NeedsApproval? {
      AskedParks(l, cfg, snap, i, planned, reply);
    } else {
      AskedIsSettled(l, cfg, snap, i, planned, reply);
    }
  }

  lemma CloseWrites(seg: Seg, stage: Stage)
    ensures |Close(seg, stage).l.trail| >= |seg.l.trail|
  {
  }

  lemma MoveWrites(l: Local, s: RunState)
    ensures |Move(l, s).l.trail| >= |l.trail|
  {
  }

  /** First the id of the approval is written, then that the row waits, then the run parks. */
  lemma ParksLate(l: Local, i: nat, approval: Option<nat>)
    requires l.trail == [] && i < |l.rec.rows|
    ensures var rows := l.rec.rows;
            var l1 := Write(l, PutRow(l.rec, i, rows[i].(approval := approval)));
            var l2 := MarkRow(l1.(ctx := l1.ctx.(pending := Some(i), approvals := l1.ctx.approvals + 1)), i, RowWaiting);
            var l' := Close(Move(l2, WaitingApproval), InStep).l;
            && l'.rec.rows == rows[i := rows[i].(state := RowWaiting, approval := approval)]
            && |l'.trail| >= 2 && l'.trail[0].rows == rows[i := rows[i].(approval := approval)]
            && (forall n :: 1 <= n < |l'.trail| ==> l'.trail[n].rows == l'.rec.rows)
            && l'.ctx.plan == l.ctx.plan
  {
    hide Move, Close;
    var rows := l.rec.rows;
    var first := rows[i].(approval := approval);
    var l1 := Write(l, PutRow(l.rec, i, first));
    var l1' := l1.(ctx := l1.ctx.(pending := Some(i), approvals := l1.ctx.approvals + 1));
    MarkHolds(l1', i, first.(state := RowWaiting));
    var l2 := MarkRow(l1', i, RowWaiting);
    var done := rows[i := first.(state := RowWaiting)];
    assert l1'.rec.rows[i := first.(state := RowWaiting)] == done;
    MoveHolds(done, l.ctx.plan, l1'.trail, l2, WaitingApproval);
    CloseHolds(done, l.ctx.plan, l1'.trail, Move(l2, WaitingApproval), InStep);
    assert |l2.trail| == 2;
    MoveWrites(l2, WaitingApproval);
    CloseWrites(Move(l2, WaitingApproval), InStep);
  }

  /** A denial is booked before the run moves on and ends. */
  lemma DeniedHolds(l: Local, cfg: Config, i: nat)
    requires l.trail == [] && i < |l.rec.rows|
    ensures var rows := l.rec.rows[i := l.rec.rows[i].(state := RowDenied)];
            var moved := Move(MarkRow(Release(l), i, RowDenied), Running);
            && Holds(rows, l.ctx.plan, [], moved.l) && |moved.l.trail| >= 1
            && Holds(rows, l.ctx.plan, [], Finish(moved.l, Failed, ApprovalDenied).l)
            && |Finish(moved.l, Failed, ApprovalDenied).l.trail| >= 1
  {
    var row := l.rec.rows[i].(state := RowDenied);
    var rows := l.rec.rows[i := row];
    var l1 := MarkRow(Release(l), i, RowDenied);
    MarkHolds(Release(l), i, row);
    MoveHolds(rows, l.ctx.plan, [], l1, Running);
    FinishHolds(rows, l.ctx.plan, [], Move(l1, Running).l, Failed, ApprovalDenied);
    assert |Move(l1, Running).l.trail| >= 1;
    Longer(Move(l1, Running).l, cfg, l.rec.run, InPoll);
    hide Finish, Move, MarkRow;
  }

  lemma LapsedHolds(l: Local, cfg: Config)
    requires l.trail == []
    ensures var moved := Move(Release(l), Running);
            && Holds(l.rec.rows, l.ctx.plan, [], l) && Holds(l.rec.rows, l.ctx.plan, [], moved.l)
            && Holds(l.rec.rows, l.ctx.plan, [], Close(OpenBoundary(moved.l, InPoll), InPoll).l)
  {
    assert Holds(l.rec.rows, l.ctx.plan, [], Release(l));
    hide OpenBoundary, Close, Move;
    MoveHolds(l.rec.rows, l.ctx.plan, [], Release(l), Running);
    BoundaryHolds(l.rec.rows, l.ctx.plan, [], Move(Release(l), Running).l, InPoll);
    CloseHolds(l.rec.rows, l.ctx.plan, [], OpenBoundary(Move(Release(l), Running).l, InPoll), InPoll);
  }

  lemma ReadSettles(l: Local, cfg: Config, i: nat, told: ApprovalReading)
    requires l.trail == [] && i < |l.rec.rows|
    ensures var l' := ReadBack(l, cfg, i, told).l;
            Settles(l, cfg, Reading(i), FromApproval(told), l') && l'.ctx.plan == l.ctx.plan
  {
    var aw, answer, row := Reading(i), FromApproval(told), l.rec.rows[i];
    var l' := ReadBack(l, cfg, i, told).l;
    var readable := cfg.control && row.approval.Some?;
    if readable && told.ReadApproved? {
      var done := row.(granted := true, redeemed := row.redeemed + 1);
      MarkHolds(l, i, done);
      HoldsPlan(l.rec.rows[i := done], l.ctx.plan, [], l');
      hide ReadBack, Holds;
      SettlesAtOnce(l, cfg, aw, answer, i, done, l');
    } else if readable && told.ReadDenied? {
      DeniedHolds(l, cfg, i);
      hide Holds, Finish, Move, MarkRow, Release;
      assert Holds(l.rec.rows[i := row.(state := RowDenied)], l.ctx.plan, [], l') && |l'.trail| >= 1;
      HoldsPlan(l.rec.rows[i := row.(state := RowDenied)], l.ctx.plan, [], l');
      hide ReadBack;
      SettlesAtOnce(l, cfg, aw, answer, i, row.(state := RowDenied), l');
    } else {
      LapsedHolds(l, cfg);
      hide Holds, OpenBoundary, Close, Move, Release;
      assert Holds(l.rec.rows, l.ctx.plan, [], l');
      HoldsPlan(l.rec.rows, l.ctx.plan, [], l');
      hide ReadBack;
      SettlesNothing(l, cfg, aw, answer, i, l');
    }
  }

  /** The run moves on first, and then the row is settled; of a run that has ended nothing is. */
  lemma RedeemedIsSettled(l: Local, cfg: Config, snap: Run, i: nat, reply: RouterReply)
    requires l.trail == [] && i < |l.rec.rows| && l.rec.run.state.WaitingApproval? && reply.Answered?
    ensures var l' := RedeemedBack(l, cfg, snap, i, reply).l;
            Settles(l, cfg, Redeeming(i), FromRouter(reply), l') && l'.ctx.plan == l.ctx.plan
  {
    var rows := l.rec.rows;
    var done := rows[i := rows[i].(state := StateFor(reply.verdict))];
    var l1 := Move(Release(l), Running).l;
    assert Move(Release(l), Running).Stopped?;
    assert l1.rec.rows == rows && l1.ctx == l.ctx && l1.trail == [l1.rec];
    var seg := Settle(l1, cfg, snap, i, OptionalFor(l1.ctx, l1.rec.rows[i]), reply.verdict, InPoll);
    hide Settle, Close, Move, OptionalFor, Release;
    SettleHolds(l1, cfg, snap, i, OptionalFor(l1.ctx, l1.rec.rows[i]), reply.verdict, InPoll);
    CloseHolds(done, l.ctx.plan, l1.trail, seg, InPoll);
    CloseWrites(seg, InPoll);
    assert rows[i := rows[i]] == rows;
  }

  lemma RedeemedSettles(l: Local, cfg: Config, snap: Run, i: nat, reply: RouterReply)
    requires l.trail == [] && i < |l.rec.rows| && (l.rec.run.state.WaitingApproval? || l.rec.run.state.Terminal())
    ensures var l' := RedeemedBack(l, cfg, snap, i, reply).l;
            Settles(l, cfg, Redeeming(i), FromRouter(reply), l') && l'.ctx.plan == l.ctx.plan
  {
    if reply.RouterRaised? {
      var row := l.rec.rows[i].(raised := l.rec.rows[i].raised + 1);
      MarkHolds(l, i, row);
      hide Holds, Settles;
      assert RedeemedBack(l, cfg, snap, i, reply).l == Write(l, PutRow(l.rec, i, row));
      SettlesAtOnce(l, cfg, Redeeming(i), FromRouter(reply), i, row, Write(l, PutRow(l.rec, i, row)));
    } else if l.rec.run.state.WaitingApproval? {
      hide RedeemedBack, Settles;
      RedeemedIsSettled(l, cfg, snap, i, reply);
    } else {
      RedeemedTooLate(l, cfg, snap, i, reply);
    }
  }

  lemma RedeemedTooLate(l: Local, cfg: Config, snap: Run, i: nat, reply: RouterReply)
    requires l.trail == [] && i < |l.rec.rows| && l.rec.run.state.Terminal() && reply.Answered?
    ensures var l' := RedeemedBack(l, cfg, snap, i, reply).l;
            Settles(l, cfg, Redeeming(i), FromRouter(reply), l') && l'.ctx.plan == l.ctx.plan
  {
    assert Move(Release(l), Running) == Failing(Release(l), Unexpected);
    assert Release(l).rec == l.rec && Release(l).ctx == l.ctx && Release(l).trail == [];
    assert RedeemedBack(l, cfg, snap, i, reply).l == Release(l) by { hide Settle, Close, Release; }
    hide RedeemedBack, Move, Release;
    assert l.rec.rows[i := l.rec.rows[i]] == l.rec.rows;
  }

  /** Where an answer finds its run: on its await, or ended. */
  predicate Standing(l: Local, aw: Await) {
    && l.trail == [] && (About(aw).Some? ==> About(aw).value < |l.rec.rows|)
    && (aw.Specialist? ==> l.rec.run.state.WaitingSpecialist? || l.rec.run.state.Terminal())
    && (aw.Redeeming? ==> l.rec.run.state.WaitingApproval? || l.rec.run.state.Terminal())
  }

  /** Behind every await: the row it was about has its fate, every other row is as it was, and the plan is the proposed one. */
  lemma FollowSettles(l: Local, cfg: Config, snap: Run, aw: Await, answer: Answer)
    requires Standing(l, aw) && Follow(l, cfg, snap, aw, answer).Some?
    ensures var l' := Follow(l, cfg, snap, aw, answer).value.l;
            Settles(l, cfg, aw, answer, l') && l'.ctx.plan == PlanNext(l, aw, answer)
  {
    hide Settles, Holds, PlanBack, SpecialistBack, AskedBack, ReadBack, RedeemedBack, Close;
    match (aw, answer) {
      case (Planner(stage), FromPlanner(first, second)) => PlannerSettles(l, cfg, stage, first, second);
      case (Specialist(i, planned, digest), FromSpecialist(said)) =>
        SpecialistSettles(l, cfg, snap, i, planned, digest, said);
      case (Asking(i, planned), FromRouter(reply)) => AskedSettles(l, cfg, snap, i, planned, reply);
      case (Reading(i), FromApproval(told)) => ReadSettles(l, cfg, i, told);
      case (Redeeming(i), FromRouter(reply)) => RedeemedSettles(l, cfg, snap, i, reply);
      case (Boundary(stage), FromNotice) => NoticeSettles(l, cfg, stage);
      case _ =>
    }
  }

  lemma PlannerSettles(l: Local, cfg: Config, stage: Stage, first: PlannerReply, second: PlannerReply)
    requires l.trail == []
    ensures var aw, answer := Planner(stage), FromPlanner(first, second);
            var l' := Close(PlanBack(l, first, second), stage).l;
            Settles(l, cfg, aw, answer, l') && l'.ctx.plan == PlanNext(l, aw, answer)
  {
    PlanBackKeepsAll(l, first, second);
    var seg := PlanBack(l, first, second);
    assert Holds(l.rec.rows, seg.l.ctx.plan, [], seg.l);
    CloseHolds(l.rec.rows, seg.l.ctx.plan, [], seg, stage);
    hide PlanBack, Proposal;
  }

  lemma NoticeSettles(l: Local, cfg: Config, stage: Stage)
    requires l.trail == []
    ensures var l' := Close(Stopped(l, Done), stage).l;
            Settles(l, cfg, Boundary(stage), FromNotice, l') && l'.ctx.plan == l.ctx.plan
  {
  }
}
