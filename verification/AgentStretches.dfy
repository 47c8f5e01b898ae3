/**
 Every stretch of the orchestrator, one lemma each: started at an await that fits, it
 keeps the durable invariant at every write and stops at an await that fits.
 */
module AgentStretches {
  import opened Basics
  import opened RunLedger
  import opened RunBudget
  import opened AgentSteps
  import opened AgentInvariant

  // ---------------------------------------------------------------- in the middle of a step

  /** In the middle of the step under the cursor, RUNNING or cancelled meanwhile, and not holding the slot. */
  predicate Mid(cfg: Config, l: Local, l': Local, except: int) {
    && Going(cfg, l, l')
    && l'.slot != Some(l.me)
    && (l'.rec.run.state.Running? || l'.rec.run.state.Cancelled?)
    && (l'.rec.run.state.Running? ==>
          && l'.ctx.plan.Some? && Clean(l'.rec.rows, except)
          && (l'.rec.run.revision == 0 ==>
                InStepWithPlan(l'.rec.rows, l'.ctx.plan.value, l'.ctx.cursor, false)
                && |l'.rec.rows| == l'.ctx.cursor + 1))
  }

  lemma RestOk(cfg: Config, l: Local, snap: Run, l': Local, aw: Await)
    requires Mid(cfg, l, l', -1) && (aw.Done? || aw.Thrown?)
    ensures SegOk(cfg, l, snap, Stopped(l', aw))
    ensures SegOk(cfg, l, snap, Close(Stopped(l', aw), InStep))
  {
    hide RecInv, InStepWithPlan, Clean;
  }

  lemma SkipOk(cfg: Config, l: Local, snap: Run, l': Local)
    requires Mid(cfg, l, l', -1)
    ensures SegOk(cfg, l, snap, SkipOver(l')) && SegOk(cfg, l, snap, Close(SkipOver(l'), InStep))
  {
    hide RecInv, Clean;
  }

  /** Booking the outcome of the row under way. */
  lemma MarkOk(cfg: Config, l: Local, l': Local, i: nat, row: Row)
    requires (Mid(cfg, l, l', i) || Mid(cfg, l, l', -1)) && i < |l'.rec.rows| && RowOk(row)
    requires row.ordinal == l'.rec.rows[i].ordinal && row.attempt == l'.rec.rows[i].attempt
    requires row.kind == l'.rec.rows[i].kind
    requires row.state.RowWaiting? ==> row.redeemed == row.raised
    requires l'.rec.rows[i].state.RowFailed? ==> row.state.RowFailed?
    ensures var l2 := Write(l', PutRow(l'.rec, i, row));
            && Mid(cfg, l, l2, -1)
            && (row.state.RowFailed? || HasFailed(l'.rec.rows) ==> HasFailed(l2.rec.rows))
  {
    hide RecInv;
    PutKeeps(cfg, l'.rec, i, row);
  }

  lemma BoundaryOk(cfg: Config, l: Local, snap: Run, l': Local, stage: Stage)
    requires Mid(cfg, l, l', -1) && !AllSettledOk(l'.rec.rows) && !stage.InPlanning?
    ensures SegOk(cfg, l, snap, Close(OpenBoundary(l', stage), stage))
  {
    hide InStepWithPlan, Clean;
    var l1 := Write(l', l'.rec.(run := l'.rec.run.(boundary := true)));
    if l1.rec.run.state.Cancelled? {
      assert OpenBoundary(l', stage) == Failing(l1, Unexpected);
      if stage.InPoll? {
        RestOk(cfg, l, snap, l1, Thrown);
      } else {
        FailureOk(cfg, l, snap, Failing(l1, Unexpected), stage);
      }
    }
  }

  // ---------------------------------------------------------------- replanning

  lemma AwaitPlannerOk(cfg: Config, l: Local, snap: Run, l': Local, stage: Stage)
    requires Mid(cfg, l, l', -1) && !stage.InPlanning?
    requires l'.rec.run.revision > 0 && l'.ctx.book.plannerCalls <= 2 * l'.ctx.book.revisions
    ensures SegOk(cfg, l, snap, Stopped(l', Planner(stage)))
  {
    hide RecInv, InStepWithPlan, Clean;
  }

  lemma PlanAgainOk(cfg: Config, l: Local, snap: Run, l': Local, stage: Stage)
    requires Mid(cfg, l, l', -1) && HasFailed(l'.rec.rows) && !stage.InPlanning?
    requires l'.rec.run.revision > 0 && l'.ctx.book.plannerCalls <= 2 * l'.ctx.book.revisions
    ensures SegOk(cfg, l, snap, Close(DoPlan(l', cfg, stage), stage))
  {
    hide RecInv, InStepWithPlan, Clean, SegOk, TrailOk, Finish;
    EndOk(cfg, l, snap, l', Failed, SpecialistUnavailable);
    AwaitPlannerOk(cfg, l, snap, l', stage);
    RestOk(cfg, l, snap, l', Thrown);
    EndOk(cfg, l, snap, l', Failed, BudgetExhausted);
  }

  /** The revision counter goes up in the ledger and in the account together. */
  lemma ReviseOk(cfg: Config, l: Local, l': Local)
    requires Mid(cfg, l, l', -1) && HasFailed(l'.rec.rows)
    requires l'.ctx.book.revisions < l'.ctx.book.limits.maxRevisions
    ensures var l1 := l'.(ctx := l'.ctx.(book := l'.ctx.book.(revisions := l'.ctx.book.revisions + 1)));
            var l2 := Write(l1, l1.rec.(run := l1.rec.run.(revision := l'.rec.run.revision + 1)));
            Mid(cfg, l, l2, -1)
  {
    hide InStepWithPlan, Clean;
  }

  lemma ReplanOk(cfg: Config, l: Local, snap: Run, l': Local, stage: Stage)
    requires Mid(cfg, l, l', -1) && HasFailed(l'.rec.rows) && !stage.InPlanning?
    requires snap.revision == l'.rec.run.revision
    ensures SegOk(cfg, l, snap, Close(Replan(l', cfg, snap, stage), stage))
  {
    hide RecInv, SegOk, DoPlan, InStepWithPlan, Clean, TrailOk;
    if l'.ctx.book.revisions >= l'.ctx.book.limits.maxRevisions {
      EndOk(cfg, l, snap, l', Failed, BudgetExhausted);
    } else {
      ReviseOk(cfg, l, l');
      var l1 := l'.(ctx := l'.ctx.(book := l'.ctx.book.(revisions := l'.ctx.book.revisions + 1)));
      var l2 := Write(l1, l1.rec.(run := l1.rec.run.(revision := snap.revision + 1)));
      PlanAgainOk(cfg, l, snap, l2, stage);
    }
  }

  // ---------------------------------------------------------------- settling a capability

  lemma SettleOk(cfg: Config, l: Local, snap: Run, l': Local, i: nat, optional: bool, verdict: Verdict, stage: Stage)
    requires Mid(cfg, l, l', i) && i < |l'.rec.rows| && !stage.InPlanning?
    requires RowOk(l'.rec.rows[i]) && !l'.rec.rows[i].state.RowFailed?
    requires snap.revision == l'.rec.run.revision
    ensures SegOk(cfg, l, snap, Close(Settle(l', cfg, snap, i, optional, verdict, stage), stage))
  {
    hide RecInv, SegOk, InStepWithPlan, Clean, TrailOk, Replan, OpenBoundary;
    var s := match verdict
      case Did => RowSucceeded
      case Denial => RowDenied
      case Uncertain => RowUnknown
      case _ => RowFailed;
    var l1 := MarkRow(l', i, s);
    MarkOk(cfg, l, l', i, l'.rec.rows[i].(state := s));
    SkipOk(cfg, l, snap, l1);
    EndOk(cfg, l, snap, l1, Failed, ApprovalDenied);
    EndOk(cfg, l, snap, l1, Failed, RecoveryRequired);
    if s.RowFailed? {
      BoundaryOk(cfg, l, snap, l1, stage);
      ReplanOk(cfg, l, snap, l1, stage);
    }
  }

  // ---------------------------------------------------------------- entering a step

  /** A row appended under the cursor: where a step begins, unless UNIQUE refuses it. */
  lemma AppendOk(cfg: Config, l: Local, snap: Run, book: Book, kind: RowKind, s: RowState)
    requires Stepping(cfg, l, snap)
    requires kind == RowKindOf(l.ctx.plan.value[l.ctx.cursor].kind)
    requires book == l.ctx.book.(attempts := book.attempts)
    requires !Taken(l.rec, l.ctx.cursor + 1, l.ctx.book.revisions + 1)
    ensures var added := FreshRow(kind, l.ctx.cursor + 1, l.ctx.book.revisions + 1);
            var l1 := Write(l.(ctx := l.ctx.(book := book)), l.rec.(rows := l.rec.rows + [added]));
            var l2 := MarkRow(l1, |l.rec.rows|, s);
            && Mid(cfg, l, l1, -1) && Mid(cfg, l, l2, -1)
            && l2.rec == l.rec.(rows := l.rec.rows + [added.(state := s)])
            && l2.ctx == l.ctx.(book := book) && l2.slot == l.slot
  {
    var added := FreshRow(kind, l.ctx.cursor + 1, l.ctx.book.revisions + 1);
    var rec := l.rec.(rows := l.rec.rows + [added]);
    var l1 := Write(l.(ctx := l.ctx.(book := book)), rec);
    assert Mid(cfg, l, l1, -1) by {
      AppendKeeps(cfg, l.rec, added);
      hide RecInv;
      if l.rec.run.revision == 0 {
        InStepAppend(l.rec.rows, l.ctx.plan.value, l.ctx.cursor, added);
      }
    }
    hide RecInv;
    MarkOk(cfg, l, l1, |l.rec.rows|, added.(state := s));
    assert l.rec.rows + [added.(state := s)] == rec.rows[|l.rec.rows| := added.(state := s)];
  }

  lemma AtStartOk(cfg: Config, l: Local, snap: Run, book: Book)
    requires Stepping(cfg, l, snap) && book == l.ctx.book.(attempts := book.attempts)
    ensures Going(cfg, l, l) && Going(cfg, l, l.(ctx := l.ctx.(book := book)))
  {
    hide RecInv, InStepWithPlan, Clean;
  }

  lemma VerifyHintOk(cfg: Config, l: Local, snap: Run)
    requires Stepping(cfg, l, snap) && l.ctx.plan.value[l.ctx.cursor].kind.VerifyStep?
    ensures SegOk(cfg, l, snap, Close(RunVerifyHint(l, l.ctx.cursor + 1, l.ctx.book.revisions + 1), InStep))
  {
    hide RecInv, SegOk, InStepWithPlan, Clean, TrailOk;
    if Taken(l.rec, l.ctx.cursor + 1, l.ctx.book.revisions + 1) {
      EndOk(cfg, l, snap, l, Failed, CapabilityFailed);
    } else {
      AppendOk(cfg, l, snap, l.ctx.book, VerifyRow, RowSkipped);
      var rec := l.rec.(rows := l.rec.rows + [FreshRow(VerifyRow, l.ctx.cursor + 1, l.ctx.book.revisions + 1)]);
      SkipOk(cfg, l, snap, MarkRow(Write(l, rec), |l.rec.rows|, RowSkipped));
    }
  }

  lemma ProposalOk(cfg: Config, l: Local, snap: Run, luck: Luck)
    requires Stepping(cfg, l, snap) && l.ctx.plan.value[l.ctx.cursor].kind.ProposalStep?
    ensures SegOk(cfg, l, snap, Close(RunProposal(l, l.ctx.cursor + 1, l.ctx.book.revisions + 1, luck), InStep))
  {
    hide RecInv, SegOk, InStepWithPlan, Clean, TrailOk;
    if Taken(l.rec, l.ctx.cursor + 1, l.ctx.book.revisions + 1) {
      EndOk(cfg, l, snap, l, Failed, CapabilityFailed);
    } else {
      AppendOk(cfg, l, snap, l.ctx.book, ProposalRow, RowSucceeded);
      var rec := l.rec.(rows := l.rec.rows + [FreshRow(ProposalRow, l.ctx.cursor + 1, l.ctx.book.revisions + 1)]);
      EndOk(cfg, l, snap, Write(l, rec), Failed, CapabilityFailed);
      SkipOk(cfg, l, snap, MarkRow(Write(l, rec), |l.rec.rows|, RowSucceeded));
    }
  }

  /** A specialist is under way: what the coroutine leaves behind while it waits. */
  lemma SpecialistStartedOk(cfg: Config, l: Local, snap: Run, l2: Local, planned: Planned, digest: Digest)
    requires Mid(cfg, l, l2, -1) && l2.rec.run.state.Running? && l2.rec.rows != []
    requires l2.rec.rows[|l2.rec.rows| - 1].state.RowRunning? && snap.revision == l2.rec.run.revision
    ensures var moved := Move(l2, WaitingSpecialist);
            && moved.Stopped? && Going(cfg, l, moved.l)
            && SegOk(cfg, l, snap, Stopped(moved.l, Specialist(|l2.rec.rows| - 1, planned, digest)))
  {
    hide RecInv, InStepWithPlan, Clean;
    MoveOk(cfg, l2, WaitingSpecialist);
  }

  lemma SpecialistOk(cfg: Config, l: Local, snap: Run)
    requires Stepping(cfg, l, snap) && l.ctx.plan.value[l.ctx.cursor].kind.SpecialistStep?
    ensures SegOk(cfg, l, snap, Close(RunSpecialist(l, snap, l.ctx.plan.value[l.ctx.cursor],
                                                    l.ctx.cursor + 1, l.ctx.book.revisions + 1), InStep))
  {
    hide RecInv, SegOk, MarkRow, Write, Clean, InStepWithPlan, Taken, Move, TrailOk;
    var planned := l.ctx.plan.value[l.ctx.cursor];
    var seg := RunSpecialist(l, snap, planned, l.ctx.cursor + 1, l.ctx.book.revisions + 1);
    var grant := GuardAttempt(l.ctx.book, Digest("specialist", planned.name, planned.text));
    AtStartOk(cfg, l, snap, if grant.Granted? then grant.book else l.ctx.book);
    if grant.Granted? && !Taken(l.rec, l.ctx.cursor + 1, l.ctx.book.revisions + 1) {
      AppendOk(cfg, l, snap, grant.book, SpecialistRow, RowRunning);
      var rec := l.rec.(rows := l.rec.rows + [FreshRow(SpecialistRow, l.ctx.cursor + 1, l.ctx.book.revisions + 1)]);
      var l2 := MarkRow(Write(l.(ctx := l.ctx.(book := grant.book)), rec), |l.rec.rows|, RowRunning);
      SpecialistStartedOk(cfg, l, snap, l2, planned, Digest("specialist", planned.name, planned.text));
    }
    if seg.Failing? {
      FailureOk(cfg, l, snap, seg, InStep);
    }
  }

  lemma RefuseOk(cfg: Config, l: Local, snap: Run, l2: Local, i: nat, planned: Planned, flaw: string)
    requires Mid(cfg, l, l2, -1) && i < |l2.rec.rows| && RowOk(l2.rec.rows[i])
    requires snap.revision == l2.rec.run.revision
    ensures SegOk(cfg, l, snap, Close(RefuseInvalid(l2, cfg, snap, i, planned, flaw), InStep))
  {
    hide RecInv, SegOk, InStepWithPlan, Clean, Replan;
    var l3 := l2.(ctx := l2.ctx.(invalid := l2.ctx.invalid + {(planned.name, flaw)}));
    MarkOk(cfg, l, l3, i, l3.rec.rows[i].(state := RowFailed));
    var l4 := MarkRow(l3, i, RowFailed);
    EndOk(cfg, l, snap, l4, Failed, PlannerInvalidStep);
    SkipOk(cfg, l, snap, l4);
    ReplanOk(cfg, l, snap, l4, InStep);
  }

  lemma AskingOk(cfg: Config, l: Local, snap: Run, l2: Local, planned: Planned)
    requires Mid(cfg, l, l2, -1) && l2.rec.run.state.Running? && l2.rec.rows != []
    requires l2.slot.None? && snap.revision == l2.rec.run.revision
    requires var row := l2.rec.rows[|l2.rec.rows| - 1];
             row.state.RowRunning? && row.kind.CapabilityRow? && row.asked == 0 && RowOk(row)
    ensures var i := |l2.rec.rows| - 1;
            var asked := l2.rec.rows[i].(asked := l2.rec.rows[i].asked + 1);
            SegOk(cfg, l, snap, Stopped(Write(l2.(slot := Some(l2.me)), PutRow(l2.rec, i, asked)), Asking(i, planned)))
  {
    hide RecInv, InStepWithPlan, Clean;
    var i := |l2.rec.rows| - 1;
    MarkOk(cfg, l, l2, i, l2.rec.rows[i].(asked := 1));
  }

  lemma CapabilityOk(cfg: Config, l: Local, snap: Run, luck: Luck)
    requires Stepping(cfg, l, snap) && l.ctx.plan.value[l.ctx.cursor].kind.CapabilityStep?
    ensures SegOk(cfg, l, snap, Close(RunCapability(l, cfg, snap, l.ctx.plan.value[l.ctx.cursor],
                                                    l.ctx.cursor + 1, l.ctx.book.revisions + 1, luck), InStep))
  {
    hide RecInv, SegOk, MarkRow, Write, Clean, InStepWithPlan, Taken, Move, TrailOk, RefuseInvalid, PutRow;
    var planned := l.ctx.plan.value[l.ctx.cursor];
    var seg := RunCapability(l, cfg, snap, planned, l.ctx.cursor + 1, l.ctx.book.revisions + 1, luck);
    var grant := GuardAttempt(l.ctx.book, Digest("capability", planned.name, planned.text));
    AtStartOk(cfg, l, snap, if grant.Granted? then grant.book else l.ctx.book);
    if cfg.router && grant.Granted? && !Taken(l.rec, l.ctx.cursor + 1, l.ctx.book.revisions + 1) {
      AppendOk(cfg, l, snap, grant.book, CapabilityRow, RowRunning);
      var rec := l.rec.(rows := l.rec.rows + [FreshRow(CapabilityRow, l.ctx.cursor + 1, l.ctx.book.revisions + 1)]);
      var l2 := MarkRow(Write(l.(ctx := l.ctx.(book := grant.book)), rec), |l.rec.rows|, RowRunning);
      if luck.flaw != "" {
        RefuseOk(cfg, l, snap, l2, |l.rec.rows|, planned, luck.flaw);
      } else if l2.slot.None? {
        AskingOk(cfg, l, snap, l2, planned);
      } else {
        WaitForSlotOk(cfg, l, snap, l2, |l.rec.rows|);
      }
    } else {
      FailureOk(cfg, l, snap, seg, InStep);
    }
  }

  lemma WaitForSlotOk(cfg: Config, l: Local, snap: Run, l2: Local, i: nat)
    requires Mid(cfg, l, l2, -1) && i < |l2.rec.rows| && RowOk(l2.rec.rows[i])
    requires l2.rec.rows[i].redeemed == l2.rec.rows[i].raised && !l2.rec.rows[i].state.RowFailed?
    ensures SegOk(cfg, l, snap, Close(Stopped(MarkRow(l2, i, RowWaiting), Done), InStep))
  {
    hide RecInv, SegOk, InStepWithPlan, TrailOk;
    MarkOk(cfg, l, l2, i, l2.rec.rows[i].(state := RowWaiting));
    RestOk(cfg, l, snap, MarkRow(l2, i, RowWaiting), Done);
  }

  // ---------------------------------------------------------------- after an await inside a step

  /** The account and the plan's tail may change in the middle of a step. */
  lemma CtxChangeOk(cfg: Config, l: Local, l': Local, ctx: Ctx)
    requires Mid(cfg, l, l', -1)
    requires ctx.cursor == l'.ctx.cursor
    requires ctx.book == l'.ctx.book.(attempts := ctx.book.attempts, lowValue := ctx.book.lowValue)
    requires ctx.plan == l'.ctx.plan
             || (l'.ctx.plan.Some? && l'.ctx.cursor + 1 <= |l'.ctx.plan.value|
                 && ctx.plan == Some(l'.ctx.plan.value[..l'.ctx.cursor + 1]))
    ensures Mid(cfg, l, l'.(ctx := ctx), -1)
  {
    hide RecInv, Clean;
  }

  lemma SpecialistBookedOk(cfg: Config, l: Local, snap: Run, aw: Await, l1: Local, row: Row)
    requires Ready(cfg, l, snap, aw) && aw.Specialist?
    requires l1 == l.(ctx := l.ctx.(book := l.ctx.book.(specialists := l1.ctx.book.specialists)))
    requires row == l.rec.rows[aw.row].(state := row.state, child := true)
    requires row.state.RowSucceeded? || row.state.RowFailed?
    ensures var l2 := Write(l1, PutRow(l1.rec, aw.row, row));
            && Going(cfg, l, l) && Going(cfg, l, l2)
            && (Move(l2, Running).Failing? ==> Move(l2, Running).l == l2)
            && (Move(l2, Running).Stopped? ==>
                  && Mid(cfg, l, Move(l2, Running).l, -1)
                  && (row.state.RowFailed? ==> HasFailed(Move(l2, Running).l.rec.rows))
                  && Move(l2, Running).l.rec.run.revision == snap.revision)
  {
    assert RowOk(row);
    hide RecInv, SegOk;
    PutKeeps(cfg, l1.rec, aw.row, row);
    MoveOk(cfg, Write(l1, PutRow(l1.rec, aw.row, row)), Running);
  }

  lemma SpecialistDoneOk(cfg: Config, l: Local, snap: Run, l2: Local, planned: Planned, digest: Digest,
                         said: SpecialistReply)
    requires Mid(cfg, l, l2, -1) && snap.revision == l2.rec.run.revision && said.SpecialistSaid?
    requires !said.ok ==> HasFailed(l2.rec.rows)
    ensures SegOk(cfg, l, snap, Close(AfterSpecialist(l2, cfg, snap, planned, digest, said), InStep))
  {
    hide RecInv, SegOk, InStepWithPlan, Clean, Going, Replan;
    assert Going(cfg, l, l2);
    var l3 := l2.(ctx := l2.ctx.(book := NoteLowValue(l2.ctx.book, digest)));
    var l4 := if said.usable then l2 else l3;
    EndOk(cfg, l, snap, l2, Failed, Quota);
    CtxChangeOk(cfg, l, l2, l3.ctx);
    SkipOk(cfg, l, snap, l3);
    if !said.ok {
      ReplanOk(cfg, l, snap, l3, InStep);
    }
    CtxChangeOk(cfg, l, l2, Shorten(l4.ctx, said.goalMet));
    SkipOk(cfg, l, snap, l4.(ctx := Shorten(l4.ctx, said.goalMet)));
  }

  lemma AwaitedRow(cfg: Config, l: Local, snap: Run, aw: Await)
    requires Ready(cfg, l, snap, aw)
    ensures aw.Specialist? || aw.Asking? || aw.Reading? || aw.Redeeming? ==>
              aw.row < |l.rec.rows| && RowOk(l.rec.rows[aw.row]) && !l.rec.rows[aw.row].state.RowFailed?
  {
  }

  lemma SpecialistBackOk(cfg: Config, l: Local, snap: Run, i: nat, planned: Planned, digest: Digest,
                         said: SpecialistReply)
    requires Ready(cfg, l, snap, Specialist(i, planned, digest))
    ensures SegOk(cfg, l, snap, Close(SpecialistBack(l, cfg, snap, i, planned, digest, said), InStep))
  {
    hide RecInv, SegOk, InStepWithPlan, Clean, TrailOk, AfterSpecialist, Move, PutRow, Write, CtxFits, Mid;
    hide HasFailed, Close, Ready;
    hide Going, AwaitFits, At, SlotFrame, RowOk;
    AwaitedRow(cfg, l, snap, Specialist(i, planned, digest));
    var row := l.rec.rows[i].(state := if said.SpecialistSaid? && said.ok then RowSucceeded else RowFailed, child := true);
    var l1 := l.(ctx := l.ctx.(book := l.ctx.book.(specialists := l.ctx.book.specialists + 1)));
    var l2 := Write(l1, PutRow(l1.rec, i, row));
    SpecialistBookedOk(cfg, l, snap, Specialist(i, planned, digest), l1, row);
    var seg := SpecialistBack(l, cfg, snap, i, planned, digest, said);
    if said.SpecialistSaid? && Move(l2, Running).Stopped? {
      SpecialistDoneOk(cfg, l, snap, Move(l2, Running).l, planned, digest, said);
    } else {
      FailureOk(cfg, l, snap, seg, InStep);
    }
  }

  lemma AskedMidOk(cfg: Config, l: Local, snap: Run, i: nat, planned: Planned)
    requires Ready(cfg, l, snap, Asking(i, planned))
    ensures Going(cfg, l, l) && Mid(cfg, l, Release(l), i) && Release(l).rec == l.rec && Release(l).ctx == l.ctx
  {
    hide RecInv, InStepWithPlan;
  }

  lemma ParkRowsOk(cfg: Config, l: Local, snap: Run, i: nat, planned: Planned, approval: Option<nat>)
    requires Ready(cfg, l, snap, Asking(i, planned))
    ensures var l1 := Write(l, PutRow(l.rec, i, l.rec.rows[i].(approval := approval)));
            var l2 := MarkRow(l1.(ctx := l1.ctx.(pending := Some(i), approvals := l1.ctx.approvals + 1)), i, RowWaiting);
            && Going(cfg, l, l2)
            && l2.rec == l.rec.(rows := l.rec.rows[i := l.rec.rows[i].(approval := approval, state := RowWaiting)])
  {
    var l1 := Write(l, PutRow(l.rec, i, l.rec.rows[i].(approval := approval)));
    PutKeeps(cfg, l.rec, i, l.rec.rows[i].(approval := approval));
    PutKeeps(cfg, l1.rec, i, l1.rec.rows[i].(state := RowWaiting));
    hide RecInv;
    WriteOk(cfg, l, l1.rec);
  }

  /** The router wants an approval: the row waits, and so does the run, holding the slot. */
  lemma ParkOk(cfg: Config, l: Local, snap: Run, i: nat, planned: Planned, approval: Option<nat>)
    requires Ready(cfg, l, snap, Asking(i, planned))
    ensures var l1 := Write(l, PutRow(l.rec, i, l.rec.rows[i].(approval := approval)));
            var l2 := MarkRow(l1.(ctx := l1.ctx.(pending := Some(i), approvals := l1.ctx.approvals + 1)), i, RowWaiting);
            SegOk(cfg, l, snap, Close(Move(l2, WaitingApproval), InStep))
  {
    hide RecInv;
    AwaitedRow(cfg, l, snap, Asking(i, planned));
    ParkRowsOk(cfg, l, snap, i, planned, approval);
    var l1 := Write(l, PutRow(l.rec, i, l.rec.rows[i].(approval := approval)));
    var l2 := MarkRow(l1.(ctx := l1.ctx.(pending := Some(i), approvals := l1.ctx.approvals + 1)), i, RowWaiting);
    MoveOk(cfg, l2, WaitingApproval);
    if l.rec.run.state.Cancelled? {
      FailureOk(cfg, l, snap, Failing(l2, Unexpected), InStep);
    }
  }

  lemma AskedBackOk(cfg: Config, l: Local, snap: Run, i: nat, planned: Planned, reply: RouterReply)
    requires Ready(cfg, l, snap, Asking(i, planned))
    ensures SegOk(cfg, l, snap, Close(AskedBack(l, cfg, snap, i, planned, reply), InStep))
  {
    hide RecInv, SegOk, InStepWithPlan, Clean, TrailOk, Settle, Move, MarkRow, PutRow, Write, CtxFits, Mid, Close;
    hide Ready;
    hide Going, AwaitFits, At, SlotFrame, RowOk, Release;
    AwaitedRow(cfg, l, snap, Asking(i, planned));
    AskedMidOk(cfg, l, snap, i, planned);
    if reply.RouterRaised? {
      FailureOk(cfg, l, snap, Failing(l, Unexpected), InStep);
    } else if reply.verdict.NeedsApproval? {
      ParkOk(cfg, l, snap, i, planned, reply.approval);
    } else {
      assert snap.revision == l.rec.run.revision by { CurrentOk(cfg, l, snap, Asking(i, planned)); }
      SettleOk(cfg, l, snap, Release(l), i, planned.optional, reply.verdict, InStep);
    }
  }

  lemma CurrentOk(cfg: Config, l: Local, snap: Run, aw: Await)
    requires Ready(cfg, l, snap, aw)
    ensures snap.revision == l.rec.run.revision
  {
  }

  // ---------------------------------------------------------------- after the planner, after a notice

  lemma PlanBackOk(cfg: Config, l: Local, snap: Run, stage: Stage, first: PlannerReply, second: PlannerReply)
    requires TrailOk(cfg, l) && !l.stuck && At(cfg, l.me, l.rec, Some(l.ctx), l.slot, Planner(stage))
    ensures SegOk(cfg, l, snap, Close(PlanBack(l, first, second), stage))
  {
    hide RecInv, InStepWithPlan, Clean;
    var (book, result) := PlanEvent(l.ctx.book, l.rec.run.scope, first, second);
    PlanEventOk(l.ctx.book, l.rec.run.scope, first, second);
    var l1 := l.(ctx := l.ctx.(book := book));
    if result.PlanBad? {
      if stage.InPoll? {
        PlanLostOk(cfg, l, snap, l1);
      } else {
        FailureOk(cfg, l, snap, Failing(l1, result.error), stage);
      }
    } else {
      PlannedOk(cfg, l, snap, stage, l1, result.plan);
    }
  }

  lemma PlanEventOk(b: Book, scope: Scope, first: PlannerReply, second: PlannerReply)
    ensures var (book, result) := PlanEvent(b, scope, first, second);
            && book == b.(plannerCalls := book.plannerCalls)
            && b.plannerCalls <= book.plannerCalls <= b.plannerCalls + 2
            && (result.PlanOk? ==> Plannable(result.plan, scope))
  {
  }

  lemma PlanLostOk(cfg: Config, l: Local, snap: Run, l1: Local)
    requires TrailOk(cfg, l) && !l.stuck && At(cfg, l.me, l.rec, Some(l.ctx), l.slot, Planner(InPoll))
    requires l1 == l.(ctx := l.ctx.(book := l.ctx.book.(plannerCalls := l1.ctx.book.plannerCalls)))
    requires l1.ctx.book.plannerCalls <= l.ctx.book.plannerCalls + 2
    ensures SegOk(cfg, l, snap, Stopped(l1, Thrown))
  {
    hide RecInv, InStepWithPlan, Clean;
  }

  lemma PlannedOk(cfg: Config, l: Local, snap: Run, stage: Stage, l1: Local, plan: seq<Planned>)
    requires TrailOk(cfg, l) && !l.stuck && At(cfg, l.me, l.rec, Some(l.ctx), l.slot, Planner(stage))
    requires l1 == l.(ctx := l.ctx.(book := l.ctx.book.(plannerCalls := l1.ctx.book.plannerCalls)))
    requires l1.ctx.book.plannerCalls <= l.ctx.book.plannerCalls + 2
    ensures var l2 := l1.(ctx := l1.ctx.(plan := Some(plan), cursor := 0));
            SegOk(cfg, l, snap, Close(if l2.rec.run.state.Planning? then Move(l2, Running) else Stopped(l2, Done), stage))
  {
    assert l.rec.run.state.Planning? ==> l.rec.rows == [];
    hide RecInv;
    var l2 := l1.(ctx := l1.ctx.(plan := Some(plan), cursor := 0));
    MoveOk(cfg, l2, Running);
  }

  lemma BoundaryBackOk(cfg: Config, l: Local, snap: Run, stage: Stage)
    requires TrailOk(cfg, l) && !l.stuck && At(cfg, l.me, l.rec, Some(l.ctx), l.slot, Boundary(stage))
    ensures SegOk(cfg, l, snap, Close(Stopped(l, Done), stage))
  {
    hide RecInv, InStepWithPlan, Clean;
  }

  // ---------------------------------------------------------------- before there is a plan

  lemma AdvanceCreatedOk(cfg: Config, l: Local, snap: Run, luck: Luck)
    requires Ready(cfg, l, snap, Done) && snap.state.Created?
    requires l.rec.run.state.Created? || l.rec.run.state.Cancelled?
    ensures SegOk(cfg, l, snap, Close(AdvanceCreated(l, cfg, snap, luck), InPlanning))
  {
    hide Clean, InStepWithPlan, RowOk, Unique;
    var seg := AdvanceCreated(l, cfg, snap, luck);
    if seg.Failing? {
      FailureOk(cfg, l, snap, seg, InPlanning);
    } else {
      assert l.rec.run.state.Created?;
      assert SegOk(cfg, l, snap, seg);
    }
  }

  lemma DoPlanOk(cfg: Config, l: Local, snap: Run)
    requires Ready(cfg, l, snap, Done)
    requires l.rec.run.state.Planning? || (l.rec.run.state.Cancelled? && l.ctx.plan.None?
                                           && l.ctx.book.plannerCalls == 0)
    ensures SegOk(cfg, l, snap, Close(DoPlan(l, cfg, InPlanning), InPlanning))
  {
    hide RecInv;
    EndOk(cfg, l, snap, l, Failed, SpecialistUnavailable);
    EndOk(cfg, l, snap, l, Failed, BudgetExhausted);
  }
}
