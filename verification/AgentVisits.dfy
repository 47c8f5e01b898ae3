/**
 The two ways a tick visits a run: polling its approval, or advancing it; and the one
 lemma that covers every stretch after an await.
 */
module AgentVisits {
  import opened Basics
  import opened RunLedger
  import opened AgentSteps
  import opened AgentInvariant
  import opened AgentStretches

  // ---------------------------------------------------------------- polling an approval

  /** A parked run, or one that was parked when the tick read it and has been cancelled since. */
  predicate Pollable(cfg: Config, l: Local, snap: Run) {
    && Ready(cfg, l, snap, Done)
    && (l.rec.run.state.WaitingApproval? || l.rec.run.state.Cancelled?)
    && Clean(l.rec.rows, -1)
    && (l.ctx.pending.Some? && l.ctx.pending.value < |l.rec.rows| ==>
          l.rec.rows[l.ctx.pending.value].state.RowWaiting?)
  }

  lemma PollOk(cfg: Config, l: Local, snap: Run)
    requires Pollable(cfg, l, snap)
    ensures SegOk(cfg, l, snap, Poll(l))
  {
    hide RecInv, InStepWithPlan;
  }

  lemma ReadPendingOk(cfg: Config, l: Local, snap: Run, i: nat)
    requires Ready(cfg, l, snap, Reading(i))
    ensures SegOk(cfg, l, snap, Stopped(l, Done))
  {
    hide RecInv, InStepWithPlan, Clean;
  }

  /** The approval is granted: the second and last call for this row goes out. */
  lemma RedeemOk(cfg: Config, l: Local, snap: Run, i: nat)
    requires Ready(cfg, l, snap, Reading(i)) && l.rec.rows[i].approval.Some?
    ensures var row := l.rec.rows[i].(granted := true, redeemed := l.rec.rows[i].redeemed + 1);
            SegOk(cfg, l, snap, Stopped(Write(l, PutRow(l.rec, i, row)), Redeeming(i)))
  {
    AwaitedRow(cfg, l, snap, Reading(i));
    var row := l.rec.rows[i].(granted := true, redeemed := l.rec.rows[i].redeemed + 1);
    PutKeeps(cfg, l.rec, i, row);
    hide RecInv;
  }

  /** The poll's answer moves the run back to RUNNING with the slot free, unless it was cancelled. */
  lemma UnparkOk(cfg: Config, l: Local, snap: Run, aw: Await)
    requires Ready(cfg, l, snap, aw) && (aw.Reading? || aw.Redeeming?)
    ensures var moved := Move(Release(l), Running);
            && moved.l.rec.rows == l.rec.rows && moved.l.ctx == l.ctx
            && moved.l.rec.run.revision == snap.revision && l.rec.rows[aw.row].state.RowWaiting?
            && (moved.Stopped? ==> Mid(cfg, l, moved.l, aw.row) && (aw.Reading? ==> Mid(cfg, l, moved.l, -1)))
            && (moved.Failing? ==> SegOk(cfg, l, snap, Stopped(moved.l, Thrown)))
  {
    hide RecInv, InStepWithPlan;
    MoveOk(cfg, Release(l), Running);
  }

  lemma DeniedOk(cfg: Config, l: Local, snap: Run, i: nat)
    requires Ready(cfg, l, snap, Reading(i))
    ensures var moved := Move(MarkRow(Release(l), i, RowDenied), Running);
            && (moved.Stopped? ==> Going(cfg, l, moved.l))
            && (moved.Failing? ==> SegOk(cfg, l, snap, Stopped(moved.l, Thrown)))
  {
    AwaitedRow(cfg, l, snap, Reading(i));
    PutKeeps(cfg, l.rec, i, l.rec.rows[i].(state := RowDenied));
    hide RecInv, InStepWithPlan, Clean;
    MoveOk(cfg, MarkRow(Release(l), i, RowDenied), Running);
  }

  lemma LapsedOk(cfg: Config, l: Local, snap: Run, i: nat)
    requires Ready(cfg, l, snap, Reading(i))
    ensures var moved := Move(Release(l), Running);
            && (moved.Stopped? ==> SegOk(cfg, l, snap, Stopped(moved.l, Done))
                                   && SegOk(cfg, l, snap, Close(OpenBoundary(moved.l, InPoll), InPoll)))
            && (moved.Failing? ==> SegOk(cfg, l, snap, Stopped(moved.l, Thrown)))
  {
    hide RecInv, SegOk, InStepWithPlan, Clean, TrailOk, Move, CtxFits, Mid, Close, Ready, OpenBoundary;
    hide Going, AwaitFits, At, SlotFrame, RowOk, Release;
    AwaitedRow(cfg, l, snap, Reading(i));
    UnparkOk(cfg, l, snap, Reading(i));
    var moved := Move(Release(l), Running);
    if moved.Stopped? {
      RestOk(cfg, l, snap, moved.l, Done);
      assert !moved.l.rec.rows[i].state.SettledOk();
      BoundaryOk(cfg, l, snap, moved.l, InPoll);
    }
  }

  lemma ReadBackOk(cfg: Config, l: Local, snap: Run, i: nat, told: ApprovalReading)
    requires Ready(cfg, l, snap, Reading(i))
    ensures SegOk(cfg, l, snap, ReadBack(l, cfg, i, told))
  {
    hide RecInv, SegOk, InStepWithPlan, Clean, TrailOk, Move, CtxFits, Mid, Close, Ready, OpenBoundary;
    hide Going, AwaitFits, At, SlotFrame, RowOk, Release, MarkRow, PutRow, Write, Finish;
    AwaitedRow(cfg, l, snap, Reading(i));
    ReadPendingOk(cfg, l, snap, i);
    DeniedOk(cfg, l, snap, i);
    LapsedOk(cfg, l, snap, i);
    if l.rec.rows[i].approval.Some? {
      RedeemOk(cfg, l, snap, i);
    }
    if Move(MarkRow(Release(l), i, RowDenied), Running).Stopped? {
      EndOk(cfg, l, snap, Move(MarkRow(Release(l), i, RowDenied), Running).l, Failed, ApprovalDenied);
    }
  }

  lemma RaisedOk(cfg: Config, l: Local, snap: Run, i: nat)
    requires Ready(cfg, l, snap, Redeeming(i))
    ensures SegOk(cfg, l, snap, Stopped(Write(l, PutRow(l.rec, i, l.rec.rows[i].(raised := l.rec.rows[i].raised + 1))), Thrown))
  {
    AwaitedRow(cfg, l, snap, Redeeming(i));
    PutKeeps(cfg, l.rec, i, l.rec.rows[i].(raised := l.rec.rows[i].raised + 1));
    hide RecInv;
  }

  lemma RedeemedBackOk(cfg: Config, l: Local, snap: Run, i: nat, reply: RouterReply)
    requires Ready(cfg, l, snap, Redeeming(i))
    ensures SegOk(cfg, l, snap, RedeemedBack(l, cfg, snap, i, reply))
  {
    hide RecInv, SegOk, InStepWithPlan, Clean, TrailOk, Move, CtxFits, Mid, Close, Ready, Settle;
    hide Going, AwaitFits, At, SlotFrame, RowOk, Release, PutRow, Write;
    AwaitedRow(cfg, l, snap, Redeeming(i));
    RaisedOk(cfg, l, snap, i);
    UnparkOk(cfg, l, snap, Redeeming(i));
    var moved := Move(Release(l), Running);
    if moved.Stopped? && reply.Answered? {
      SettleOk(cfg, l, snap, moved.l, i, OptionalFor(moved.l.ctx, moved.l.rec.rows[i]), reply.verdict, InPoll);
    }
  }

  // ---------------------------------------------------------------- advancing

  /** Running, or cancelled before this tick got to it and without a plan to go on with. */
  predicate Steppable(cfg: Config, l: Local, snap: Run) {
    && Ready(cfg, l, snap, Done)
    && (l.rec.run.state.Running? || (l.rec.run.state.Cancelled? && l.ctx.plan.None?))
  }

  lemma ToVerifyingOk(cfg: Config, l: Local, snap: Run)
    requires Steppable(cfg, l, snap)
    requires l.ctx.plan.None? || l.ctx.cursor >= |l.ctx.plan.value|
    ensures SegOk(cfg, l, snap, Close(Move(l, Verifying), InPlanning))
  {
    hide RecInv, Clean;
    MoveOk(cfg, l, Verifying);
    if Move(l, Verifying).Failing? {
      FailureOk(cfg, l, snap, Failing(l, Unexpected), InPlanning);
    }
  }

  lemma RunPlannedOk(cfg: Config, l: Local, snap: Run, luck: Luck)
    requires Stepping(cfg, l, snap)
    ensures SegOk(cfg, l, snap, Close(RunPlanned(l, cfg, snap, l.ctx.plan.value[l.ctx.cursor], luck), InStep))
  {
    hide RecInv, SegOk, InStepWithPlan, Clean, TrailOk, Ready, RunSpecialist, RunCapability, RunProposal;
    hide RunVerifyHint, Close;
    match l.ctx.plan.value[l.ctx.cursor].kind {
      case SpecialistStep => SpecialistOk(cfg, l, snap);
      case CapabilityStep => CapabilityOk(cfg, l, snap, luck);
      case ProposalStep => ProposalOk(cfg, l, snap, luck);
      case VerifyStep => VerifyHintOk(cfg, l, snap);
    }
  }

  lemma StartOk(cfg: Config, l: Local, snap: Run)
    requires Ready(cfg, l, snap, Done)
    ensures Going(cfg, l, l)
  {
    hide RecInv, InStepWithPlan, Clean;
  }

  lemma NextPlannedOk(cfg: Config, l: Local, snap: Run, luck: Luck)
    requires Steppable(cfg, l, snap)
    ensures SegOk(cfg, l, snap, Close(NextPlanned(l, cfg, snap, luck), InPlanning))
  {
    hide RecInv, SegOk, InStepWithPlan, Clean, TrailOk, RunPlanned, Move;
    hide Ready;
    StartOk(cfg, l, snap);
    if l.ctx.plan.None? || l.ctx.cursor >= |l.ctx.plan.value| {
      ToVerifyingOk(cfg, l, snap);
    } else {
      RunPlannedOk(cfg, l, snap, luck);
      FailureOk(cfg, l, snap, Failing(l, Exhausted(BudgetExhausted)), InPlanning);
      FailureOk(cfg, l, snap, Failing(l, Exhausted(Timeout)), InPlanning);
    }
  }

  /** A stretch that starts after a first write owes what the whole stretch owes. */
  lemma FromOk(cfg: Config, l: Local, l1: Local, snap: Run, seg: Seg)
    requires SegOk(cfg, l1, snap, seg) && l1.me == l.me && l1.slot == l.slot && l1.rec.run.scope == l.rec.run.scope
    ensures SegOk(cfg, l, snap, seg)
  {
    hide RecInv, At, TrailOk;
  }

  /** Out of INTERRUPTED, into RUNNING. */
  lemma WakeOk(cfg: Config, l: Local, snap: Run)
    requires Ready(cfg, l, snap, Done) && (l.rec.run.state.Interrupted? || l.rec.run.state.Cancelled?)
    ensures var moved := Move(l, Running);
            && (moved.Stopped? ==> Steppable(cfg, moved.l, snap) && moved.l.me == l.me && moved.l.slot == l.slot
                                   && moved.l.rec.run.scope == l.rec.run.scope)
            && (moved.Failing? ==> moved == Failing(l, Unexpected))
  {
    hide RecInv, InStepWithPlan, Clean;
    MoveOk(cfg, l, Running);
  }

  lemma NextStepOk(cfg: Config, l: Local, snap: Run, luck: Luck)
    requires if snap.state.Interrupted?
             then Ready(cfg, l, snap, Done) && (l.rec.run.state.Interrupted? || l.rec.run.state.Cancelled?)
             else Steppable(cfg, l, snap)
    ensures SegOk(cfg, l, snap, Close(NextStep(l, cfg, snap, luck), InPlanning))
  {
    hide RecInv, SegOk, InStepWithPlan, Clean, TrailOk, NextPlanned, Move, Ready, Close;
    if snap.state.Interrupted? {
      WakeOk(cfg, l, snap);
      StartOk(cfg, l, snap);
      var moved := Move(l, Running);
      if moved.Stopped? {
        NextPlannedOk(cfg, moved.l, snap, luck);
        FromOk(cfg, l, moved.l, snap, Close(NextPlanned(moved.l, cfg, snap, luck), InPlanning));
        assert NextStep(l, cfg, snap, luck) == NextPlanned(moved.l, cfg, snap, luck);
      } else {
        FailureOk(cfg, l, snap, moved, InPlanning);
      }
    } else {
      NextPlannedOk(cfg, l, snap, luck);
    }
  }

  // ---------------------------------------------------------------- verifying

  /** A row written by the core itself at the end of a run, and how it is settled. */
  lemma ClosingRowOk(cfg: Config, l: Local, l1: Local, kind: RowKind, ordinal: nat, s: RowState)
    requires Going(cfg, l, l1) && (l1.rec.run.state.Verifying? || l1.rec.run.state.Cancelled?)
    requires !kind.CapabilityRow? && !Taken(l1.rec, ordinal, 1)
    ensures var rec := l1.rec.(rows := l1.rec.rows + [FreshRow(kind, ordinal, 1)]);
            && Going(cfg, l, Write(l1, rec))
            && Going(cfg, l, MarkRow(Write(l1, rec), |l1.rec.rows|, s))
            && MarkRow(Write(l1, rec), |l1.rec.rows|, s).rec
               == l1.rec.(rows := l1.rec.rows + [FreshRow(kind, ordinal, 1).(state := s)])
  {
    var added := FreshRow(kind, ordinal, 1);
    var rec := l1.rec.(rows := l1.rec.rows + [added]);
    AppendKeeps(cfg, l1.rec, added);
    PutKeeps(cfg, rec, |l1.rec.rows|, added.(state := s));
    hide RecInv;
    WriteOk(cfg, l1, rec);
    assert rec.rows[|l1.rec.rows| := added.(state := s)] == l1.rec.rows + [added.(state := s)];
    WriteOk(cfg, Write(l1, rec), PutRow(rec, |l1.rec.rows|, added.(state := s)));
  }

  /** Success, with the evidence it needs. */
  lemma SucceedOk(cfg: Config, l: Local, snap: Run, l1: Local)
    requires Going(cfg, l, l1) && (l1.rec.run.state.Verifying? || l1.rec.run.state.Cancelled?)
    requires AllSettledOk(l1.rec.rows) && (l1.rec.run.scope.Build? && cfg.workspaces ==> l1.rec.run.branch)
    ensures SegOk(cfg, l, snap, Close(Finish(l1, Succeeded, NoCategory), InPlanning))
  {
    hide RecInv, AllSettledOk;
    FinishOk(cfg, l1, Succeeded, NoCategory);
  }

  lemma BranchOk(cfg: Config, l: Local, l1: Local)
    requires Going(cfg, l, l1)
    ensures Going(cfg, l, Write(l1, l1.rec.(run := l1.rec.run.(branch := true))))
  {
  }

  lemma HarvestOk(cfg: Config, l: Local, snap: Run, l1: Local, luck: Luck)
    requires Going(cfg, l, l1) && (l1.rec.run.state.Verifying? || l1.rec.run.state.Cancelled?)
    requires AllSettledOk(l1.rec.rows)
    ensures SegOk(cfg, l, snap, Close(Harvest(l1, cfg, luck), InPlanning))
  {
    hide RecInv, SegOk, Going, Finish, Taken, MarkRow;
    if !l1.rec.run.scope.Build? || !cfg.workspaces {
      SucceedOk(cfg, l, snap, l1);
    } else if !l1.ctx.workspace {
      EndOk(cfg, l, snap, l1, Failed, NoResult);
    } else if Taken(l1.rec, |l1.rec.rows| + 1, 1) {
      FailureOk(cfg, l, snap, Failing(l1, Unexpected), InPlanning);
    } else {
      var rec := l1.rec.(rows := l1.rec.rows + [FreshRow(HarvestRow, |l1.rec.rows| + 1, 1)]);
      var l2 := Write(l1, rec);
      ClosingRowOk(cfg, l, l1, HarvestRow, |l1.rec.rows| + 1, RowFailed);
      EndOk(cfg, l, snap, MarkRow(l2, |l1.rec.rows|, RowFailed), Failed, NoResult);
      HarvestedOk(cfg, l, snap, l1);
    }
  }

  lemma HarvestedOk(cfg: Config, l: Local, snap: Run, l1: Local)
    requires Going(cfg, l, l1) && (l1.rec.run.state.Verifying? || l1.rec.run.state.Cancelled?)
    requires AllSettledOk(l1.rec.rows) && !Taken(l1.rec, |l1.rec.rows| + 1, 1)
    ensures var l2 := Write(l1, l1.rec.(rows := l1.rec.rows + [FreshRow(HarvestRow, |l1.rec.rows| + 1, 1)]));
            var l3 := Write(l2, l2.rec.(run := l2.rec.run.(branch := true)));
            SegOk(cfg, l, snap, Close(Finish(MarkRow(l3, |l1.rec.rows|, RowSucceeded), Succeeded, NoCategory), InPlanning))
  {
    var added := FreshRow(HarvestRow, |l1.rec.rows| + 1, 1);
    var l2 := Write(l1, l1.rec.(rows := l1.rec.rows + [added]));
    var l3 := Write(l2, l2.rec.(run := l2.rec.run.(branch := true)));
    var l4 := MarkRow(l3, |l1.rec.rows|, RowSucceeded);
    ClosingRowOk(cfg, l, l1, HarvestRow, |l1.rec.rows| + 1, RowSucceeded);
    BranchOk(cfg, l, l2);
    PutKeeps(cfg, l3.rec, |l1.rec.rows|, added.(state := RowSucceeded));
    hide RecInv;
    WriteOk(cfg, l3, l4.rec);
    SucceedOk(cfg, l, snap, l4);
  }

  lemma VerifyOk(cfg: Config, l: Local, snap: Run, luck: Luck)
    requires Ready(cfg, l, snap, Done) && (l.rec.run.state.Verifying? || l.rec.run.state.Cancelled?)
    ensures SegOk(cfg, l, snap, Close(Verify(l, cfg, luck), InPlanning))
  {
    hide RecInv, SegOk, Going, Finish, Taken, MarkRow, Harvest, Ready, AnyUnknown;
    StartOk(cfg, l, snap);
    var ordinal := |l.rec.rows| + 1;
    if Taken(l.rec, ordinal, 1) {
      FailureOk(cfg, l, snap, Failing(l, Unexpected), InPlanning);
    } else {
      var l1 := Write(l, l.rec.(rows := l.rec.rows + [FreshRow(VerifyRow, ordinal, 1)]));
      ClosingRowOk(cfg, l, l, VerifyRow, ordinal, RowUnknown);
      EndOk(cfg, l, snap, MarkRow(l1, |l.rec.rows|, RowUnknown), Failed, RecoveryRequired);
      ClosingRowOk(cfg, l, l, VerifyRow, ordinal, RowFailed);
      EndOk(cfg, l, snap, MarkRow(l1, |l.rec.rows|, RowFailed), Failed, SpecialistFailed);
      ClosingRowOk(cfg, l, l, VerifyRow, ordinal, RowSucceeded);
      if AllSettledOk(l.rec.rows) {
        HarvestOk(cfg, l, snap, MarkRow(l1, |l.rec.rows|, RowSucceeded), luck);
      }
    }
  }

  // ---------------------------------------------------------------- the two entrances

  /** What the tick knows about the run it advances: as it was read, or cancelled since. */
  predicate Advanceable(cfg: Config, l: Local, snap: Run) {
    && Ready(cfg, l, snap, Done)
    && (l.rec.run.state == snap.state
        || (l.rec.run.state.Cancelled? && (l.ctx.cancel || (l.ctx.plan.None? && l.ctx.book.plannerCalls == 0))))
  }

  lemma AdvanceOk(cfg: Config, l: Local, snap: Run, luck: Luck)
    requires Advanceable(cfg, l, snap)
    requires !snap.state.Terminal() && !snap.state.WaitingApproval? && !snap.state.WaitingUser?
    ensures SegOk(cfg, l, snap, Advance(l, cfg, snap, luck))
  {
    hide RecInv, SegOk, InStepWithPlan, Clean, TrailOk, NextStep, Verify, AdvanceCreated, DoPlan;
    hide Close, Going, CtxFits, AwaitFits;
    StartOk(cfg, l, snap);
    if l.ctx.cancel {
      EndOk(cfg, l, snap, l, Cancelled, CancelledByUser);
    } else {
      match snap.state {
        case Created => AdvanceCreatedOk(cfg, l, snap, luck);
        case Planning => DoPlanOk(cfg, l, snap);
        case Running => NextStepOk(cfg, l, snap, luck);
        case Interrupted => NextStepOk(cfg, l, snap, luck);
        case Verifying => VerifyOk(cfg, l, snap, luck);
        case _ => IdleOk(cfg, l, snap);
      }
    }
  }

  lemma IdleOk(cfg: Config, l: Local, snap: Run)
    requires Ready(cfg, l, snap, Done)
    ensures SegOk(cfg, l, snap, Stopped(l, Done))
  {
    hide RecInv, InStepWithPlan, Clean;
  }

  /** Where a coroutine that waits may be continued. */
  predicate Awaiting(cfg: Config, l: Local, snap: Run, aw: Await) {
    && TrailOk(cfg, l) && !l.stuck
    && At(cfg, l.me, l.rec, Some(l.ctx), l.slot, aw)
    && (aw.Specialist? || aw.Asking? || aw.Reading? || aw.Redeeming? ==> snap.revision == l.rec.run.revision)
  }

  lemma FollowOk(cfg: Config, l: Local, snap: Run, aw: Await, answer: Answer)
    requires Awaiting(cfg, l, snap, aw)
    ensures Follow(l, cfg, snap, aw, answer).Some? ==> SegOk(cfg, l, snap, Follow(l, cfg, snap, aw, answer).value)
  {
    hide RecInv, SegOk, At, TrailOk, PlanBack, SpecialistBack, AskedBack, ReadBack, RedeemedBack, Close;
    match (aw, answer) {
      case (Planner(stage), FromPlanner(first, second)) => PlanBackOk(cfg, l, snap, stage, first, second);
      case (Specialist(i, planned, digest), FromSpecialist(said)) => SpecialistBackOk(cfg, l, snap, i, planned, digest, said);
      case (Asking(i, planned), FromRouter(reply)) => AskedBackOk(cfg, l, snap, i, planned, reply);
      case (Reading(i), FromApproval(told)) => ReadBackOk(cfg, l, snap, i, told);
      case (Redeeming(i), FromRouter(reply)) => RedeemedBackOk(cfg, l, snap, i, reply);
      case (Boundary(stage), FromNotice) => BoundaryBackOk(cfg, l, snap, stage);
      case _ =>
    }
  }
}
