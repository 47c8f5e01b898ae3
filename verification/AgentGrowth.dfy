/**
 What every stretch leaves alone: the ledger only grows. Settled rows are never touched
 again, tallies never go down, an ended run stays ended, and the step account moves only
 where a step is closed. Stated for the end of a stretch and for every write on the way.
 */
module AgentGrowth {
  import opened Basics
  import opened RunLedger
  import opened RunBudget
  import opened AgentSteps

  predicate Settled(s: RowState) {
    s.SettledOk() || s.SettledBad()
  }

  predicate RowGrows(a: Row, b: Row) {
    && a.kind == b.kind && a.ordinal == b.ordinal && a.attempt == b.attempt
    && a.asked <= b.asked && a.redeemed <= b.redeemed && a.raised <= b.raised
    && (a.granted ==> b.granted)
    && (Settled(a.state) ==> a == b)
  }

  predicate RowsGrow(a: seq<Row>, b: seq<Row>) {
    && |a| <= |b|
    && forall i :: 0 <= i < |a| ==> RowGrows(a[i], b[i])
  }

  predicate Evolves(a: Record, b: Record) {
    && RowsGrow(a.rows, b.rows)
    && a.run.scope == b.run.scope && a.run.revision <= b.run.revision
    && (a.run.state.Terminal() ==> b.run.state == a.run.state)
    && (b.run.state.Created? ==> a.run.state.Created?)
    && (b.run.state.Planning? ==> a.run.state.Created? || a.run.state.Planning?)
  }

  /** `won` allows the run to succeed in between. */
  predicate Leads(a: Record, b: Record, won: bool) {
    Evolves(a, b) && (b.run.state.Succeeded? && !a.run.state.Succeeded? ==> won)
  }

  /** From one point of a stretch to a later one, and to every write in between. */
  predicate Grows(l: Local, l': Local, won: bool) {
    && l'.me == l.me
    && Leads(l.rec, l'.rec, won)
    && (forall t :: t in l'.trail ==> t in l.trail || Leads(l.rec, t, won))
    && l'.ctx.book.steps == l.ctx.book.steps
    && (l'.ctx.plan.Some? <==> l.ctx.plan.Some?)
  }

  predicate InStage(aw: Await, stage: Stage) {
    && (aw.Planner? || aw.Boundary? ==> aw.stage == stage)
    && (aw.Specialist? || aw.Asking? ==> stage.InStep?)
    && (aw.Reading? || aw.Redeeming? || aw.Thrown? ==> stage.InPoll?)
  }

  predicate SegGrows(l: Local, seg: Seg, stage: Stage, won: bool) {
    && Grows(l, seg.l, won)
    && (seg.Stopped? ==> InStage(seg.aw, stage))
  }

  lemma EvolvesTrans(a: Record, b: Record, c: Record)
    requires Evolves(a, b) && Evolves(b, c)
    ensures Evolves(a, c)
  {
    forall i | 0 <= i < |a.rows| ensures RowGrows(a.rows[i], c.rows[i]) {
      assert RowGrows(a.rows[i], b.rows[i]) && RowGrows(b.rows[i], c.rows[i]);
    }
  }

  lemma GrowsTrans(l: Local, l1: Local, l2: Local, won: bool)
    requires Grows(l, l1, won) && Grows(l1, l2, won)
    ensures Grows(l, l2, won)
  {
    hide Evolves;
    EvolvesTrans(l.rec, l1.rec, l2.rec);
    forall t | t in l2.trail && t !in l.trail ensures Leads(l.rec, t, won) {
      if t !in l1.trail {
        EvolvesTrans(l.rec, l1.rec, t);
      }
    }
  }

  /** A stretch continued: first to `l1`, then on to where `seg` stops. */
  lemma SegTrans(l: Local, l1: Local, seg: Seg, stage: Stage, won: bool)
    requires Grows(l, l1, won) && SegGrows(l1, seg, stage, won)
    ensures SegGrows(l, seg, stage, won)
  {
    hide Grows;
    GrowsTrans(l, l1, seg.l, won);
  }

  lemma EvolvesSelf(rec: Record)
    ensures Evolves(rec, rec)
  {
  }

  // ---------------------------------------------------------------- single writes

  lemma WriteGrows(l: Local, rec: Record)
    requires Evolves(l.rec, rec) && (rec.run.state.Succeeded? ==> l.rec.run.state.Succeeded?)
    ensures Grows(l, Write(l, rec), false)
  {
    hide Evolves;
  }

  predicate Open(rec: Record, i: nat) {
    i < |rec.rows| ==> !Settled(rec.rows[i].state)
  }

  lemma PutGrows(l: Local, i: nat, row: Row)
    requires Open(l.rec, i) && (i < |l.rec.rows| ==> RowGrows(l.rec.rows[i], row))
    ensures Grows(l, Write(l, PutRow(l.rec, i, row)), false)
  {
    WriteGrows(l, PutRow(l.rec, i, row));
  }

  lemma MarkGrows(l: Local, i: nat, s: RowState)
    requires Open(l.rec, i)
    ensures Grows(l, MarkRow(l, i, s), false)
  {
    WriteGrows(l, SetRowState(l.rec, i, s));
  }

  lemma AppendGrows(l: Local, kind: RowKind, ordinal: nat, attempt: nat)
    ensures CreateRow(l.rec, kind, ordinal, attempt).Some? ==>
              && Grows(l, Write(l, CreateRow(l.rec, kind, ordinal, attempt).value), false)
              && Open(CreateRow(l.rec, kind, ordinal, attempt).value, |l.rec.rows|)
  {
    hide Grows, Taken;
    if CreateRow(l.rec, kind, ordinal, attempt).Some? {
      WriteGrows(l, CreateRow(l.rec, kind, ordinal, attempt).value);
    }
  }

  lemma MoveGrows(l: Local, s: RunState)
    requires !s.Succeeded? && !s.Created? && (s.Planning? ==> l.rec.run.state.Created?)
    ensures Grows(l, Move(l, s).l, false)
    ensures Move(l, s).Stopped? ==> Move(l, s).aw.Done?
  {
    hide Grows;
    GrowsSelf(l);
    TerminalAbsorbing(l.rec, s, NoCategory);
    if Transition(l.rec, s, NoCategory).Some? {
      WriteGrows(l, Transition(l.rec, s, NoCategory).value);
    }
  }

  lemma GrowsSelf(l: Local)
    ensures Grows(l, l, false) && Grows(l, Release(l), false)
  {
  }

  lemma FinishGrows(l: Local, s: RunState, category: Category, stage: Stage)
    requires s.Terminal()
    ensures SegGrows(l, Finish(l, s, category), stage, s.Succeeded?)
  {
    hide Evolves;
    EvolvesSelf(l.rec);
    if !l.rec.run.state.Terminal() && Transition(l.rec, s, category).Some? {
      EvolvesState(l.rec, Transition(l.rec, s, category).value);
    }
  }

  lemma EvolvesState(a: Record, b: Record)
    requires a.rows == b.rows && a.run.scope == b.run.scope && a.run.revision == b.run.revision
    requires !a.run.state.Terminal() && b.run.state.Terminal()
    ensures Evolves(a, b)
  {
  }

  // ---------------------------------------------------------------- stretches

  lemma DoPlanGrows(l: Local, cfg: Config, stage: Stage)
    ensures SegGrows(l, DoPlan(l, cfg, stage), stage, false)
  {
    GrowsSelf(l);
    FinishGrows(l, Failed, SpecialistUnavailable, stage);
  }

  lemma ReplanGrows(l: Local, cfg: Config, snap: Run, stage: Stage)
    requires snap.revision == l.rec.run.revision
    ensures SegGrows(l, Replan(l, cfg, snap, stage), stage, false)
  {
    hide Grows, Evolves, DoPlan;
    FinishGrows(l, Failed, BudgetExhausted, stage);
    var l1 := l.(ctx := l.ctx.(book := l.ctx.book.(revisions := l.ctx.book.revisions + 1)));
    var rec := l1.rec.(run := l1.rec.run.(revision := snap.revision + 1));
    CtxOnly(l, l1.ctx);
    assert Evolves(l1.rec, rec) by { EvolvesRun(l1.rec, rec); }
    WriteGrows(l1, rec);
    GrowsTrans(l, l1, Write(l1, rec), false);
    DoPlanGrows(Write(l1, rec), cfg, stage);
    SegTrans(l, Write(l1, rec), DoPlan(Write(l1, rec), cfg, stage), stage, false);
  }

  /** Changes of the volatile side that the step account and the plan's presence do not notice. */
  lemma CtxOnly(l: Local, ctx: Ctx)
    requires ctx.book.steps == l.ctx.book.steps && (ctx.plan.Some? <==> l.ctx.plan.Some?)
    ensures Grows(l, l.(ctx := ctx), false)
  {
  }

  lemma EvolvesRun(a: Record, b: Record)
    requires a.rows == b.rows && a.run.scope == b.run.scope && a.run.revision <= b.run.revision
    requires a.run.state == b.run.state
    ensures Evolves(a, b)
  {
  }

  lemma SkipGrows(l: Local, stage: Stage)
    ensures SegGrows(l, SkipOver(l), stage, false)
  {
    hide Evolves;
    EvolvesSelf(l.rec);
  }

  lemma BoundaryGrows(l: Local, stage: Stage)
    ensures SegGrows(l, OpenBoundary(l, stage), stage, false)
  {
    hide Grows, Evolves;
    var rec := l.rec.(run := l.rec.run.(boundary := true));
    EvolvesRun(l.rec, rec);
    WriteGrows(l, rec);
    MoveGrows(Write(l, rec), WaitingUser);
    GrowsTrans(l, Write(l, rec), Move(Write(l, rec), WaitingUser).l, false);
  }

  lemma SettleGrows(l: Local, cfg: Config, snap: Run, i: nat, optional: bool, verdict: Verdict, stage: Stage)
    requires Open(l.rec, i) && snap.revision == l.rec.run.revision
    ensures SegGrows(l, Settle(l, cfg, snap, i, optional, verdict, stage), stage, false)
  {
    hide Grows, Evolves, Open, Replan, OpenBoundary, Finish, SkipOver;
    var s := match verdict
      case Did => RowSucceeded
      case Denial => RowDenied
      case Uncertain => RowUnknown
      case _ => RowFailed;
    var l1 := MarkRow(l, i, s);
    MarkGrows(l, i, s);
    SkipGrows(l1, stage);
    FinishGrows(l1, Failed, ApprovalDenied, stage);
    FinishGrows(l1, Failed, RecoveryRequired, stage);
    BoundaryGrows(l1, stage);
    ReplanGrows(l1, cfg, snap, stage);
    SegTrans(l, l1, Settle(l, cfg, snap, i, optional, verdict, stage), stage, false);
  }

  lemma CreatedGrows(l: Local, cfg: Config, snap: Run, luck: Luck)
    requires snap.state.Created? && (l.rec.run.state.Created? || l.rec.run.state.Cancelled?)
    ensures SegGrows(l, AdvanceCreated(l, cfg, snap, luck), InPlanning, false)
  {
    hide Grows, Evolves, Move;
    GrowsSelf(l);
    var rec := l.rec.(run := l.rec.run.(workspace := true));
    EvolvesRun(l.rec, rec);
    var l1 := Write(l, rec);
    WriteGrows(l, rec);
    var l2 := l1.(ctx := l1.ctx.(workspace := true));
    CtxOnly(l1, l2.ctx);
    PlanningRefused(l);
    PlanningRefused(l2);
    GrowsTrans(l, l1, l2, false);
    GrowsTrans(l, l2, Move(l2, Planning).l, false);
  }

  lemma PlanningRefused(l: Local)
    requires l.rec.run.state.Created? || l.rec.run.state.Cancelled?
    ensures Grows(l, Move(l, Planning).l, false) && (Move(l, Planning).Stopped? ==> Move(l, Planning).aw.Done?)
  {
    if l.rec.run.state.Created? {
      MoveGrows(l, Planning);
    } else {
      GrowsSelf(l);
    }
  }

  /** Entering a step: its row is created and marked under way. */
  lemma EnterGrows(l: Local, ctx: Ctx, kind: RowKind, ordinal: nat, attempt: nat, s: RowState)
    requires ctx.book.steps == l.ctx.book.steps && (ctx.plan.Some? <==> l.ctx.plan.Some?)
    requires CreateRow(l.rec, kind, ordinal, attempt).Some?
    ensures var l1 := Write(l.(ctx := ctx), CreateRow(l.rec, kind, ordinal, attempt).value);
            && Grows(l, l1, false) && Grows(l, MarkRow(l1, |l.rec.rows|, s), false)
            && (!Settled(s) ==> Open(MarkRow(l1, |l.rec.rows|, s).rec, |l.rec.rows|))
            && |l1.rec.rows| == |l.rec.rows| + 1
  {
    var l0 := l.(ctx := ctx);
    CtxOnly(l, ctx);
    AppendGrows(l0, kind, ordinal, attempt);
    var l1 := Write(l0, CreateRow(l.rec, kind, ordinal, attempt).value);
    hide Grows, Evolves, Taken;
    MarkGrows(l1, |l.rec.rows|, s);
    GrowsTrans(l, l0, l1, false);
    GrowsTrans(l, l1, MarkRow(l1, |l.rec.rows|, s), false);
  }

  lemma SpecialistGrows(l: Local, snap: Run, planned: Planned, ordinal: nat, attempt: nat)
    ensures SegGrows(l, RunSpecialist(l, snap, planned, ordinal, attempt), InStep, false)
  {
    hide Grows, Evolves, Open, Taken, Move, MarkRow, Write, CreateRow, RowsGrow;
    GrowsSelf(l);
    var grant := GuardAttempt(l.ctx.book, Digest("specialist", planned.name, planned.text));
    if grant.Granted? {
      var ctx := l.ctx.(book := grant.book);
      CtxOnly(l, ctx);
      var made := CreateRow(l.rec, SpecialistRow, ordinal, attempt);
      if made.Some? {
        EnterGrows(l, ctx, SpecialistRow, ordinal, attempt, RowRunning);
        assert |made.value.rows| == |l.rec.rows| + 1 by { MadeOne(l.rec, SpecialistRow, ordinal, attempt); }
        var l2 := MarkRow(Write(l.(ctx := ctx), made.value), |l.rec.rows|, RowRunning);
        MoveGrows(l2, WaitingSpecialist);
        GrowsTrans(l, l2, Move(l2, WaitingSpecialist).l, false);
      }
    }
  }

  lemma MadeOne(rec: Record, kind: RowKind, ordinal: nat, attempt: nat)
    ensures CreateRow(rec, kind, ordinal, attempt).Some? ==>
              |CreateRow(rec, kind, ordinal, attempt).value.rows| == |rec.rows| + 1
  {
  }

  lemma RefuseGrows(l: Local, cfg: Config, snap: Run, i: nat, planned: Planned, flaw: string)
    requires Open(l.rec, i) && snap.revision == l.rec.run.revision
    ensures SegGrows(l, RefuseInvalid(l, cfg, snap, i, planned, flaw), InStep, false)
  {
    var l0 := l.(ctx := l.ctx.(invalid := l.ctx.invalid + {(planned.name, flaw)}));
    var l1 := MarkRow(l0, i, RowFailed);
    MarkGrows(l0, i, RowFailed);
    hide Grows, Evolves, Open, Replan, Finish, SkipOver;
    CtxOnly(l, l0.ctx);
    GrowsTrans(l, l0, l1, false);
    FinishGrows(l1, Failed, PlannerInvalidStep, InStep);
    SkipGrows(l1, InStep);
    ReplanGrows(l1, cfg, snap, InStep);
    SegTrans(l, l1, RefuseInvalid(l, cfg, snap, i, planned, flaw), InStep, false);
  }

  lemma CapabilityGrows(l: Local, cfg: Config, snap: Run, planned: Planned, ordinal: nat, attempt: nat, luck: Luck)
    requires snap.revision == l.rec.run.revision
    ensures SegGrows(l, RunCapability(l, cfg, snap, planned, ordinal, attempt, luck), InStep, false)
  {
    hide Grows, Evolves, Open, Taken, RefuseInvalid, CreateRow, RowsGrow;
    GrowsSelf(l);
    var grant := GuardAttempt(l.ctx.book, Digest("capability", planned.name, planned.text));
    if cfg.router && grant.Granted? {
      var ctx := l.ctx.(book := grant.book);
      CtxOnly(l, ctx);
      var made := CreateRow(l.rec, CapabilityRow, ordinal, attempt);
      if made.Some? {
        EnterGrows(l, ctx, CapabilityRow, ordinal, attempt, RowRunning);
        MadeOne(l.rec, CapabilityRow, ordinal, attempt);
        var l2 := MarkRow(Write(l.(ctx := ctx), made.value), |l.rec.rows|, RowRunning);
        assert l2.rec.run == l.rec.run by { MadeSameRun(l.rec, CapabilityRow, ordinal, attempt); }
        RefuseGrows(l2, cfg, snap, |l.rec.rows|, planned, luck.flaw);
        CalledGrows(l2, |l.rec.rows|, planned);
        SegTrans(l, l2, RunCapability(l, cfg, snap, planned, ordinal, attempt, luck), InStep, false);
      }
    }
  }

  lemma MadeSameRun(rec: Record, kind: RowKind, ordinal: nat, attempt: nat)
    ensures CreateRow(rec, kind, ordinal, attempt).Some? ==> CreateRow(rec, kind, ordinal, attempt).value.run == rec.run
  {
  }

  lemma CalledGrows(l: Local, i: nat, planned: Planned)
    requires Open(l.rec, i) && i < |l.rec.rows|
    ensures SegGrows(l, Stopped(MarkRow(l, i, RowWaiting), Done), InStep, false)
    ensures var asked := l.rec.rows[i].(asked := l.rec.rows[i].asked + 1);
            SegGrows(l, Stopped(Write(l.(slot := Some(l.me)), PutRow(l.rec, i, asked)), Asking(i, planned)), InStep, false)
  {
    hide Evolves;
    MarkGrows(l, i, RowWaiting);
    PutGrows(l, i, l.rec.rows[i].(asked := l.rec.rows[i].asked + 1));
  }

  lemma ProposalGrows(l: Local, ordinal: nat, attempt: nat, luck: Luck)
    ensures SegGrows(l, RunProposal(l, ordinal, attempt, luck), InStep, false)
  {
    hide Grows, Evolves, Open, Taken, CreateRow, RowsGrow, MarkRow, Write;
    GrowsSelf(l);
    var made := CreateRow(l.rec, ProposalRow, ordinal, attempt);
    if made.Some? {
      EnterGrows(l, l.ctx, ProposalRow, ordinal, attempt, RowSucceeded);
      MadeOne(l.rec, ProposalRow, ordinal, attempt);
      var l2 := MarkRow(Write(l, made.value), |l.rec.rows|, RowSucceeded);
      SkipGrows(l2, InStep);
      SegTrans(l, l2, SkipOver(l2), InStep, false);
    }
  }

  lemma HintGrows(l: Local, ordinal: nat, attempt: nat)
    ensures SegGrows(l, RunVerifyHint(l, ordinal, attempt), InStep, false)
  {
    hide Grows, Evolves, Open, Taken, CreateRow, RowsGrow, MarkRow, Write;
    GrowsSelf(l);
    var made := CreateRow(l.rec, VerifyRow, ordinal, attempt);
    if made.Some? {
      EnterGrows(l, l.ctx, VerifyRow, ordinal, attempt, RowSkipped);
      MadeOne(l.rec, VerifyRow, ordinal, attempt);
      var l2 := MarkRow(Write(l, made.value), |l.rec.rows|, RowSkipped);
      SkipGrows(l2, InStep);
      SegTrans(l, l2, SkipOver(l2), InStep, false);
    }
  }

  lemma RunPlannedGrows(l: Local, cfg: Config, snap: Run, planned: Planned, luck: Luck)
    requires snap.revision == l.rec.run.revision
    ensures SegGrows(l, RunPlanned(l, cfg, snap, planned, luck), InStep, false)
  {
    hide SegGrows, RunSpecialist, RunCapability, RunProposal, RunVerifyHint;
    var ordinal, attempt := l.ctx.cursor + 1, l.ctx.book.revisions + 1;
    SpecialistGrows(l, snap, planned, ordinal, attempt);
    CapabilityGrows(l, cfg, snap, planned, ordinal, attempt, luck);
    ProposalGrows(l, ordinal, attempt, luck);
    HintGrows(l, ordinal, attempt);
  }

  // ---------------------------------------------------------------- whole stretches

  /** The account of a whole stretch: growth, and one more step exactly when a step came to its end. */
  predicate Whole(l: Local, seg: Seg, stage: Stage, won: bool) {
    && seg.Stopped?
    && seg.l.me == l.me
    && Leads(l.rec, seg.l.rec, won)
    && (forall t :: t in seg.l.trail ==> t in l.trail || Leads(l.rec, t, won))
    && InStage(seg.aw, stage)
    && (!seg.l.rec.run.state.Terminal() ==>
          && (l.ctx.plan.Some? ==> seg.l.ctx.plan.Some?)
          && seg.l.ctx.book.steps == l.ctx.book.steps + if stage.InStep? && seg.aw.Done? then 1 else 0)
  }

  lemma CloseWhole(l: Local, seg: Seg, stage: Stage, won: bool)
    requires SegGrows(l, seg, stage, won)
    ensures Whole(l, Close(seg, stage), stage, won)
  {
    hide Evolves;
    if seg.Failing? && !stage.InPoll? {
      FinishGrows(seg.l, Failed, CategoryOf(seg.error), stage);
      FinishEnds(seg.l, Failed, CategoryOf(seg.error));
      EvolvesTrans(l.rec, seg.l.rec, Finish(seg.l, Failed, CategoryOf(seg.error)).l.rec);
      GrowsTrans(l, seg.l, Finish(seg.l, Failed, CategoryOf(seg.error)).l, won);
    }
  }

  lemma FinishEnds(l: Local, s: RunState, category: Category)
    requires s.Failed? || s.Cancelled?
    ensures Finish(l, s, category).l.rec.run.state.Terminal()
  {
    if !l.rec.run.state.Terminal() {
      EveryoneCanEnd(l.rec, category);
    }
  }

  lemma AfterSpecialistGrows(l: Local, cfg: Config, snap: Run, planned: Planned, digest: Digest, said: SpecialistReply)
    requires said.SpecialistSaid? && snap.revision == l.rec.run.revision
    ensures SegGrows(l, AfterSpecialist(l, cfg, snap, planned, digest, said), InStep, false)
  {
    hide Grows, Evolves, Replan, Finish, SkipOver;
    var l1 := l.(ctx := l.ctx.(book := NoteLowValue(l.ctx.book, digest)));
    CtxOnly(l, l1.ctx);
    FinishGrows(l, Failed, Quota, InStep);
    SkipGrows(l1, InStep);
    ReplanGrows(l1, cfg, snap, InStep);
    var l2 := if said.usable then l else l1;
    var l3 := l2.(ctx := Shorten(l2.ctx, said.goalMet));
    CtxOnly(l, l3.ctx);
    SkipGrows(l3, InStep);
    SegTrans(l, if said.ok then l3 else if said.quota then l else l1,
             AfterSpecialist(l, cfg, snap, planned, digest, said), InStep, false)
      by { GrowsSelf(l); }
  }

  lemma BookedGrows(l: Local, i: nat, l1: Local, row: Row)
    requires Open(l.rec, i) && i < |l.rec.rows|
    requires l1 == l.(ctx := l.ctx.(book := l.ctx.book.(specialists := l1.ctx.book.specialists)))
    requires row == l.rec.rows[i].(state := row.state, child := true)
    ensures var moved := Move(Write(l1, PutRow(l1.rec, i, row)), Running);
            Grows(l, moved.l, false) && moved.l.rec.run.revision == l.rec.run.revision
  {
    PutGrows(l1, i, row);
    hide Grows, Evolves;
    var l2 := Write(l1, PutRow(l1.rec, i, row));
    CtxOnly(l, l1.ctx);
    GrowsTrans(l, l1, l2, false);
    MoveGrows(l2, Running);
    GrowsTrans(l, l2, Move(l2, Running).l, false);
  }

  lemma SpecialistBackGrows(l: Local, cfg: Config, snap: Run, i: nat, planned: Planned, digest: Digest,
                            said: SpecialistReply)
    requires Open(l.rec, i) && snap.revision == l.rec.run.revision
    ensures SegGrows(l, SpecialistBack(l, cfg, snap, i, planned, digest, said), InStep, false)
  {
    hide Grows, Evolves, AfterSpecialist, Open, Move, Write, PutRow;
    GrowsSelf(l);
    if said.SpecialistSaid? && i < |l.rec.rows| {
      var l1 := l.(ctx := l.ctx.(book := l.ctx.book.(specialists := l.ctx.book.specialists + 1)));
      var row := l1.rec.rows[i].(state := if said.ok then RowSucceeded else RowFailed, child := true);
      BookedGrows(l, i, l1, row);
      var moved := Move(Write(l1, PutRow(l1.rec, i, row)), Running);
      if moved.Stopped? {
        AfterSpecialistGrows(moved.l, cfg, snap, planned, digest, said);
        SegTrans(l, moved.l, AfterSpecialist(moved.l, cfg, snap, planned, digest, said), InStep, false);
      }
    }
  }

  lemma AskedBackGrows(l: Local, cfg: Config, snap: Run, i: nat, planned: Planned, reply: RouterReply)
    requires Open(l.rec, i) && snap.revision == l.rec.run.revision
    ensures SegGrows(l, AskedBack(l, cfg, snap, i, planned, reply), InStep, false)
  {
    GrowsSelf(l);
    if reply.Answered? && i < |l.rec.rows| {
      if reply.verdict.NeedsApproval? {
        ParkGrows(l, i, reply.approval);
      } else {
        hide Grows, Evolves, Settle, Open;
        SettleGrows(Release(l), cfg, snap, i, planned.optional, reply.verdict, InStep);
        SegTrans(l, Release(l), Settle(Release(l), cfg, snap, i, planned.optional, reply.verdict, InStep), InStep,
                 false);
      }
    }
  }

  lemma ParkGrows(l: Local, i: nat, approval: Option<nat>)
    requires Open(l.rec, i) && i < |l.rec.rows|
    ensures var l1 := Write(l, PutRow(l.rec, i, l.rec.rows[i].(approval := approval)));
            var l2 := MarkRow(l1.(ctx := l1.ctx.(pending := Some(i), approvals := l1.ctx.approvals + 1)), i, RowWaiting);
            SegGrows(l, Move(l2, WaitingApproval), InStep, false)
  {
    var l1 := Write(l, PutRow(l.rec, i, l.rec.rows[i].(approval := approval)));
    var l1' := l1.(ctx := l1.ctx.(pending := Some(i), approvals := l1.ctx.approvals + 1));
    var l2 := MarkRow(l1', i, RowWaiting);
    PutGrows(l, i, l.rec.rows[i].(approval := approval));
    CtxOnly(l1, l1'.ctx);
    MarkGrows(l1', i, RowWaiting);
    hide Grows, Evolves;
    MoveGrows(l2, WaitingApproval);
    GrowsTrans(l, l1, l1', false);
    GrowsTrans(l, l1', l2, false);
    GrowsTrans(l, l2, Move(l2, WaitingApproval).l, false);
  }

  lemma PlanBackWhole(l: Local, first: PlannerReply, second: PlannerReply, stage: Stage)
    ensures Whole(l, Close(PlanBack(l, first, second), stage), stage, false)
  {
    hide Evolves;
    EvolvesSelf(l.rec);
    var (book, result) := PlanEvent(l.ctx.book, l.rec.run.scope, first, second);
    var l1 := l.(ctx := l.ctx.(book := book));
    if result.PlanBad? {
      CtxOnly(l, l1.ctx);
      CloseWhole(l, Failing(l1, result.error), stage, false);
    } else {
      var l2 := l1.(ctx := l1.ctx.(plan := Some(result.plan), cursor := 0));
      if l2.rec.run.state.Planning? {
        MoveGrows(l2, Running);
      } else {
        GrowsSelf(l2);
      }
      CloseWhole(l2, PlanBack(l, first, second), stage, false);
    }
  }

  // ---------------------------------------------------------------- polling

  lemma PollWhole(l: Local)
    ensures Whole(l, Poll(l), InPoll, false)
  {
    hide Evolves;
    EvolvesSelf(l.rec);
    MoveGrows(l, Running);
    CloseWhole(l, Move(l, Running), InPoll, false);
  }

  lemma LapsedWhole(l: Local)
    ensures var moved := Move(Release(l), Running);
            && Whole(l, Close(OpenBoundary(moved.l, InPoll), InPoll), InPoll, false)
            && Whole(l, Stopped(moved.l, Done), InPoll, false) && Whole(l, Stopped(moved.l, Thrown), InPoll, false)
  {
    hide Evolves, OpenBoundary, Move;
    var l1 := Release(l);
    GrowsSelf(l);
    MoveGrows(l1, Running);
    var l2 := Move(l1, Running).l;
    GrowsTrans(l, l1, l2, false);
    BoundaryGrows(l2, InPoll);
    SegTrans(l, l2, OpenBoundary(l2, InPoll), InPoll, false);
    CloseWhole(l, OpenBoundary(l2, InPoll), InPoll, false);
  }

  lemma ReadBackWhole(l: Local, cfg: Config, i: nat, told: ApprovalReading)
    requires Open(l.rec, i)
    ensures Whole(l, ReadBack(l, cfg, i, told), InPoll, false)
  {
    StayWhole(l);
    if i < |l.rec.rows| {
      hide Whole, Evolves, Open, Finish, Move, OpenBoundary, Close, MarkRow, Write, PutRow, Release;
      RedeemWhole(l, i);
      DeniedWhole(l, i);
      LapsedWhole(l);
    }
  }

  lemma StayWhole(l: Local)
    ensures Whole(l, Stopped(l, Done), InPoll, false) && Whole(l, Stopped(l, Thrown), InPoll, false)
  {
    EvolvesSelf(l.rec);
    hide Evolves;
  }

  lemma RedeemWhole(l: Local, i: nat)
    requires Open(l.rec, i) && i < |l.rec.rows|
    ensures var row := l.rec.rows[i].(granted := true, redeemed := l.rec.rows[i].redeemed + 1);
            Whole(l, Stopped(Write(l, PutRow(l.rec, i, row)), Redeeming(i)), InPoll, false)
  {
    PutGrows(l, i, l.rec.rows[i].(granted := true, redeemed := l.rec.rows[i].redeemed + 1));
    hide Evolves;
  }

  lemma DeniedWhole(l: Local, i: nat)
    requires Open(l.rec, i) && i < |l.rec.rows|
    ensures var moved := Move(MarkRow(Release(l), i, RowDenied), Running);
            && (moved.Stopped? ==> Whole(l, Finish(moved.l, Failed, ApprovalDenied), InPoll, false))
            && (moved.Failing? ==> Whole(l, Stopped(moved.l, Thrown), InPoll, false))
  {
    var l1 := Release(l);
    var l2 := MarkRow(l1, i, RowDenied);
    GrowsSelf(l);
    MarkGrows(l1, i, RowDenied);
    hide Evolves;
    MoveGrows(l2, Running);
    GrowsTrans(l, l1, l2, false);
    GrowsTrans(l, l2, Move(l2, Running).l, false);
    FinishGrows(Move(l2, Running).l, Failed, ApprovalDenied, InPoll);
    SegTrans(l, Move(l2, Running).l, Finish(Move(l2, Running).l, Failed, ApprovalDenied), InPoll, false);
  }

  lemma RedeemedBackWhole(l: Local, cfg: Config, snap: Run, i: nat, reply: RouterReply)
    requires Open(l.rec, i) && snap.revision == l.rec.run.revision
    ensures Whole(l, RedeemedBack(l, cfg, snap, i, reply), InPoll, false)
  {
    EvolvesSelf(l.rec);
    if i < |l.rec.rows| {
      RaisedWhole(l, i);
      hide Evolves, Open, Settle;
      var l1 := Release(l);
      GrowsSelf(l);
      MoveGrows(l1, Running);
      var l2 := Move(l1, Running).l;
      GrowsTrans(l, l1, l2, false);
      if reply.Answered? && Move(l1, Running).Stopped? {
        var seg := Settle(l2, cfg, snap, i, OptionalFor(l2.ctx, l2.rec.rows[i]), reply.verdict, InPoll);
        SettleGrows(l2, cfg, snap, i, OptionalFor(l2.ctx, l2.rec.rows[i]), reply.verdict, InPoll);
        SegTrans(l, l2, seg, InPoll, false);
        CloseWhole(l, seg, InPoll, false);
      }
    }
  }

  lemma RaisedWhole(l: Local, i: nat)
    requires Open(l.rec, i) && i < |l.rec.rows|
    ensures var row := l.rec.rows[i].(raised := l.rec.rows[i].raised + 1);
            Whole(l, Stopped(Write(l, PutRow(l.rec, i, row)), Thrown), InPoll, false)
  {
    PutGrows(l, i, l.rec.rows[i].(raised := l.rec.rows[i].raised + 1));
    hide Evolves;
  }

  // ---------------------------------------------------------------- advancing

  /** A row the core appends and settles by itself. */
  lemma ClosingGrows(l: Local, kind: RowKind, ordinal: nat, s: RowState, branch: bool)
    requires CreateRow(l.rec, kind, ordinal, 1).Some?
    ensures var l1 := Write(l, CreateRow(l.rec, kind, ordinal, 1).value);
            var l2 := if branch then Write(l1, l1.rec.(run := l1.rec.run.(branch := true))) else l1;
            Grows(l, l1, false) && Grows(l, MarkRow(l2, |l.rec.rows|, s), false)
            && |l1.rec.rows| == |l.rec.rows| + 1
  {
    AppendGrows(l, kind, ordinal, 1);
    MadeOne(l.rec, kind, ordinal, 1);
    var l1 := Write(l, CreateRow(l.rec, kind, ordinal, 1).value);
    var l2 := if branch then Write(l1, l1.rec.(run := l1.rec.run.(branch := true))) else l1;
    if branch {
      EvolvesRun(l1.rec, l2.rec);
      WriteGrows(l1, l2.rec);
    } else {
      GrowsSelf(l1);
    }
    hide Grows, Evolves, Taken, CreateRow;
    MarkGrows(l2, |l.rec.rows|, s);
    GrowsTrans(l, l1, l2, false);
    GrowsTrans(l, l2, MarkRow(l2, |l.rec.rows|, s), false);
  }

  lemma Lift(l: Local, l': Local)
    requires Grows(l, l', false)
    ensures Grows(l, l', true)
  {
  }

  lemma HarvestGrows(l: Local, cfg: Config, luck: Luck)
    ensures SegGrows(l, Harvest(l, cfg, luck), InPlanning, true)
  {
    hide Grows, Evolves, Taken, CreateRow, MarkRow, Finish, Write;
    GrowsSelf(l);
    Lift(l, l);
    FinishGrows(l, Succeeded, NoCategory, InPlanning);
    LostGrows(l, l, NoResult);
    var made := CreateRow(l.rec, HarvestRow, |l.rec.rows| + 1, 1);
    if made.Some? {
      var l1 := Write(l, made.value);
      var l2 := Write(l1, l1.rec.(run := l1.rec.run.(branch := true)));
      MadeOne(l.rec, HarvestRow, |l.rec.rows| + 1, 1);
      ClosingGrows(l, HarvestRow, |l.rec.rows| + 1, RowFailed, false);
      LostGrows(l, MarkRow(l1, |l.rec.rows|, RowFailed), NoResult);
      ClosingGrows(l, HarvestRow, |l.rec.rows| + 1, RowSucceeded, true);
      var l3 := MarkRow(l2, |l.rec.rows|, RowSucceeded);
      Lift(l, l3);
      FinishGrows(l3, Succeeded, NoCategory, InPlanning);
      SegTrans(l, l3, Finish(l3, Succeeded, NoCategory), InPlanning, true);
    }
  }

  lemma LostGrows(l: Local, l1: Local, category: Category)
    requires Grows(l, l1, false)
    ensures SegGrows(l, Finish(l1, Failed, category), InPlanning, true)
  {
    hide Evolves, Finish;
    FinishGrows(l1, Failed, category, InPlanning);
    SegTrans(l, l1, Finish(l1, Failed, category), InPlanning, false);
    Lift(l, Finish(l1, Failed, category).l);
  }

  lemma VerifyGrows(l: Local, cfg: Config, luck: Luck)
    ensures SegGrows(l, Verify(l, cfg, luck), InPlanning, true)
  {
    hide Grows, Evolves, Taken, CreateRow, MarkRow, Finish, Write, Harvest, AllSettledOk, AnyUnknown;
    GrowsSelf(l);
    Lift(l, l);
    var made := CreateRow(l.rec, VerifyRow, |l.rec.rows| + 1, 1);
    if made.Some? {
      var l1 := Write(l, made.value);
      ClosingGrows(l, VerifyRow, |l.rec.rows| + 1, RowUnknown, false);
      LostGrows(l, MarkRow(l1, |l.rec.rows|, RowUnknown), RecoveryRequired);
      ClosingGrows(l, VerifyRow, |l.rec.rows| + 1, RowFailed, false);
      LostGrows(l, MarkRow(l1, |l.rec.rows|, RowFailed), SpecialistFailed);
      ClosingGrows(l, VerifyRow, |l.rec.rows| + 1, RowSucceeded, false);
      var l2 := MarkRow(l1, |l.rec.rows|, RowSucceeded);
      Lift(l, l2);
      HarvestGrows(l2, cfg, luck);
      SegTrans(l, l2, Harvest(l2, cfg, luck), InPlanning, true);
    }
  }

  /** A turn taken: either one step of the plan, or a move that belongs to no step. */
  predicate Turn(l: Local, seg: Seg, won: bool) {
    || Whole(l, seg, InStep, won)
    || (Whole(l, seg, InPlanning, won) && seg.l.rec.run.state.Terminal())
    || (Whole(l, seg, InPlanning, won) && seg.aw.Done? && seg.l.rec.run.state.Verifying?)
  }

  lemma FailWhole(l: Local, l1: Local, e: Error)
    requires Grows(l, l1, false)
    ensures Turn(l, Close(Failing(l1, e), InPlanning), false)
  {
    hide Evolves;
    CloseWhole(l, Failing(l1, e), InPlanning, false);
    FinishEnds(l1, Failed, CategoryOf(e));
  }

  lemma NextPlannedTurn(l: Local, l1: Local, cfg: Config, snap: Run, luck: Luck)
    requires snap.revision == l1.rec.run.revision && Grows(l, l1, false)
    ensures Turn(l, Close(NextPlanned(l1, cfg, snap, luck), InPlanning), false)
  {
    hide Grows, Evolves, RunPlanned, Move, Whole;
    if l1.ctx.plan.None? || l1.ctx.cursor >= |l1.ctx.plan.value| {
      MoveGrows(l1, Verifying);
      GrowsTrans(l, l1, Move(l1, Verifying).l, false);
      if Move(l1, Verifying).Failing? {
        FailWhole(l, Move(l1, Verifying).l, Move(l1, Verifying).error);
      } else {
        CloseWhole(l, Move(l1, Verifying), InPlanning, false);
        MovedTo(l1, Verifying);
      }
    } else {
      FailWhole(l, l1, Exhausted(BudgetExhausted));
      FailWhole(l, l1, Exhausted(Timeout));
      var seg := RunPlanned(l1, cfg, snap, l1.ctx.plan.value[l1.ctx.cursor], luck);
      RunPlannedGrows(l1, cfg, snap, l1.ctx.plan.value[l1.ctx.cursor], luck);
      SegTrans(l, l1, seg, InStep, false);
      CloseWhole(l, seg, InStep, false);
      if seg.Failing? {
        FailWhole(l, seg.l, seg.error);
      }
    }
  }

  lemma MovedTo(l: Local, s: RunState)
    ensures Move(l, s).Stopped? ==> Move(l, s).l.rec.run.state == s && Move(l, s).aw.Done?
    ensures Move(l, s).l.rec.run.revision == l.rec.run.revision
  {
  }

  lemma NextStepTurn(l: Local, cfg: Config, snap: Run, luck: Luck)
    requires snap.revision == l.rec.run.revision
    ensures Turn(l, Close(NextStep(l, cfg, snap, luck), InPlanning), false)
  {
    hide Grows, Evolves, NextPlanned, Move, Turn, Close;
    GrowsSelf(l);
    if snap.state.Interrupted? {
      var moved := Move(l, Running);
      MoveGrows(l, Running);
      MovedTo(l, Running);
      if moved.Stopped? {
        NextPlannedTurn(l, moved.l, cfg, snap, luck);
        assert NextStep(l, cfg, snap, luck) == NextPlanned(moved.l, cfg, snap, luck);
      } else {
        FailWhole(l, moved.l, moved.error);
      }
    } else {
      NextPlannedTurn(l, l, cfg, snap, luck);
    }
  }

  /** The growth of one whole `_advance`. Only a run read as VERIFYING can succeed in it. */
  lemma AdvanceGrows(l: Local, cfg: Config, snap: Run, luck: Luck)
    requires snap.revision == l.rec.run.revision
    requires snap.state.Created? ==> l.rec.run.state.Created? || l.rec.run.state.Cancelled?
    requires snap.state.Verifying? ==> l.rec.run.state.Verifying? || l.rec.run.state.Cancelled?
    ensures var seg := Advance(l, cfg, snap, luck);
            if snap.state.Running? || snap.state.Interrupted? then Turn(l, seg, false)
            else Whole(l, seg, InPlanning, snap.state.Verifying?)
  {
    hide Evolves, NextStep, Verify, AdvanceCreated, DoPlan, Close, Whole;
    if l.ctx.cancel {
      FinishGrows(l, Cancelled, CancelledByUser, InPlanning);
      FinishEnds(l, Cancelled, CancelledByUser);
      EndedWhole(l, Finish(l, Cancelled, CancelledByUser), snap.state.Verifying?);
    } else {
      match snap.state {
        case Created =>
          CreatedGrows(l, cfg, snap, luck);
          CloseWhole(l, AdvanceCreated(l, cfg, snap, luck), InPlanning, false);
        case Planning =>
          DoPlanGrows(l, cfg, InPlanning);
          CloseWhole(l, DoPlan(l, cfg, InPlanning), InPlanning, false);
        case Running => NextStepTurn(l, cfg, snap, luck);
        case Interrupted => NextStepTurn(l, cfg, snap, luck);
        case Verifying =>
          VerifyGrows(l, cfg, luck);
          CloseWhole(l, Verify(l, cfg, luck), InPlanning, true);
        case _ =>
          GrowsSelf(l);
          RestWhole(l, snap.state.Verifying?);
      }
    }
  }

  lemma EndedWhole(l: Local, seg: Seg, won: bool)
    requires SegGrows(l, seg, InPlanning, false) && seg.Stopped? && seg.l.rec.run.state.Terminal()
    ensures Whole(l, seg, InPlanning, won) && Turn(l, seg, won) && Turn(l, seg, false)
  {
    hide Evolves;
  }

  lemma RestWhole(l: Local, won: bool)
    ensures Whole(l, Stopped(l, Done), InPlanning, won)
  {
  }

  // ---------------------------------------------------------------- after an await

  /** The stage an await belongs to: who counts the step when it is over. */
  function StageOf(aw: Await): Stage {
    match aw
    case Planner(stage) => stage
    case Boundary(stage) => stage
    case Specialist(_, _, _) => InStep
    case Asking(_, _) => InStep
    case _ => InPoll
  }

  lemma FollowGrows(l: Local, cfg: Config, snap: Run, aw: Await, answer: Answer)
    requires aw.Specialist? || aw.Asking? || aw.Reading? || aw.Redeeming? ==>
               Open(l.rec, aw.row) && snap.revision == l.rec.run.revision
    ensures Follow(l, cfg, snap, aw, answer).Some? ==>
              Whole(l, Follow(l, cfg, snap, aw, answer).value, StageOf(aw), false)
  {
    hide Evolves, PlanBack, SpecialistBack, AskedBack, ReadBack, RedeemedBack, Close, Whole, Grows;
    match (aw, answer) {
      case (Planner(stage), FromPlanner(first, second)) => PlanBackWhole(l, first, second, stage);
      case (Specialist(i, planned, digest), FromSpecialist(said)) =>
        SpecialistBackGrows(l, cfg, snap, i, planned, digest, said);
        CloseWhole(l, SpecialistBack(l, cfg, snap, i, planned, digest, said), InStep, false);
      case (Asking(i, planned), FromRouter(reply)) =>
        AskedBackGrows(l, cfg, snap, i, planned, reply);
        CloseWhole(l, AskedBack(l, cfg, snap, i, planned, reply), InStep, false);
      case (Reading(i), FromApproval(told)) => ReadBackWhole(l, cfg, i, told);
      case (Redeeming(i), FromRouter(reply)) => RedeemedBackWhole(l, cfg, snap, i, reply);
      case (Boundary(stage), FromNotice) =>
        GrowsSelf(l);
        CloseWhole(l, Stopped(l, Done), stage, false);
      case _ =>
    }
  }
}
