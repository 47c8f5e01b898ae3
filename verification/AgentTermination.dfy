/**
 Every run ends: a measure that each `_advance` of an open run brings down, that no answer,
 cancellation or resumption brings up, and that a crash raises by at most two.
 */
module AgentTermination {
  import opened Basics
  import opened RunLedger
  import opened RunBudget
  import opened AgentSteps
  import opened AgentInvariant
  import opened AgentGrowth
  import opened AgentVisits
  import opened AgentWorld
  import opened AgentSafety
  import opened AgentTheorems

  /** Steps the budget still allows, `spent` of them already under way. */
  function Remaining(book: Book, spent: nat): nat {
    if book.steps + spent <= book.limits.maxSteps then book.limits.maxSteps - book.steps - spent else 0
  }

  /** How many more times a run can be advanced before it has ended. */
  function Need(rec: Record, octx: Option<Ctx>, aw: Await): nat {
    var s := rec.run.state;
    if s.Terminal() then 0
    else if s.Verifying? then 1
    else if octx.None? then 2
    else
      var book := octx.value.book;
      if s.Created? then Remaining(book, 0) + 4
      else if s.Planning? then Remaining(book, 0) + (if aw.Planner? then 2 else 3)
      else if octx.value.plan.None? then 2
      else Remaining(book, if StageOf(aw).InStep? then 1 else 0) + 2
  }

  function NeedOf(w: World, r: nat): nat
    requires r < |w.recs|
  {
    if w.tick.Down? then (if w.recs[r].run.state.Terminal() then 0 else 2)
    else Need(w.recs[r], ContextOf(w, r), AwaitOf(w.tick, r))
  }

  // ---------------------------------------------------------------- what single stretches do to it

  lemma CreatedMoves(l: Local, cfg: Config, snap: Run, luck: Luck)
    requires l.rec.run.state.Created?
    ensures var seg := Close(AdvanceCreated(l, cfg, snap, luck), InPlanning);
            seg.Stopped? && ((seg.l.rec.run.state.Planning? && seg.aw.Done?) || seg.l.rec.run.state.Terminal())
  {
    var seg := AdvanceCreated(l, cfg, snap, luck);
    if seg.Failing? {
      FinishEnds(seg.l, Failed, CategoryOf(seg.error));
    }
  }

  lemma PlanningMoves(l: Local, cfg: Config)
    ensures var seg := Close(DoPlan(l, cfg, InPlanning), InPlanning);
            seg.Stopped? && (seg == Stopped(l, Planner(InPlanning)) || seg.l.rec.run.state.Terminal())
  {
    FinishEnds(l, Failed, SpecialistUnavailable);
    FinishEnds(l, Failed, BudgetExhausted);
  }

  /** Whatever verification finds, the run has ended when it is over. */
  lemma VerifyEnds(l: Local, cfg: Config, luck: Luck)
    requires l.rec.run.state.Verifying?
    ensures var seg := Close(Verify(l, cfg, luck), InPlanning);
            seg.Stopped? && seg.l.rec.run.state.Terminal()
  {
    hide Taken, AllSettledOk, AnyUnknown, Finish;
    EndsAll();
  }

  /** From an open state `_finish` always reaches the end it was asked for. */
  lemma EndsAll()
    ensures forall l: Local, s: RunState, c: Category :: s.Failed? || (s.Succeeded? && l.rec.run.state.Verifying?) ==>
              Finish(l, s, c).Stopped? && Finish(l, s, c).l.rec.run.state.Terminal()
  {
    forall l: Local, s: RunState, c: Category | s.Failed? || (s.Succeeded? && l.rec.run.state.Verifying?)
      ensures Finish(l, s, c).Stopped? && Finish(l, s, c).l.rec.run.state.Terminal()
    {
      if !l.rec.run.state.Terminal() {
        EveryoneCanEnd(l.rec, c);
      }
    }
  }

  /** Without a plan, or past its end, an advance leads to VERIFYING; with one it costs a step that is left. */
  lemma NextPlannedMoves(l: Local, cfg: Config, snap: Run, luck: Luck)
    requires l.rec.run.state.Running?
    ensures var seg := Close(NextPlanned(l, cfg, snap, luck), InPlanning);
            && (l.ctx.plan.None? ==> seg.l.rec.run.state.Verifying? || seg.l.rec.run.state.Terminal())
            && (seg.l.rec.run.state.Terminal() || seg.l.rec.run.state.Verifying?
                || l.ctx.book.steps < l.ctx.book.limits.maxSteps)
  {
    hide RunPlanned;
    FinishEnds(l, Failed, BudgetExhausted);
    FinishEnds(l, Failed, Timeout);
  }

  lemma NextStepMoves(l: Local, cfg: Config, snap: Run, luck: Luck)
    requires l.rec.run.state.Running? || l.rec.run.state.Interrupted?
    requires l.rec.run.state == snap.state
    ensures var seg := Close(NextStep(l, cfg, snap, luck), InPlanning);
            && (l.ctx.plan.None? ==> seg.l.rec.run.state.Verifying? || seg.l.rec.run.state.Terminal())
            && (seg.l.rec.run.state.Terminal() || seg.l.rec.run.state.Verifying?
                || l.ctx.book.steps < l.ctx.book.limits.maxSteps)
  {
    hide NextPlanned;
    if snap.state.Interrupted? {
      assert Move(l, Running).Stopped?;
      assert NextStep(l, cfg, snap, luck) == NextPlanned(Move(l, Running).l, cfg, snap, luck);
      NextPlannedMoves(Move(l, Running).l, cfg, snap, luck);
    } else {
      NextPlannedMoves(l, cfg, snap, luck);
    }
  }

  lemma PlanBackMoves(l: Local, first: PlannerReply, second: PlannerReply)
    ensures var seg := Close(PlanBack(l, first, second), InPlanning);
            seg.l.rec.run.state.Terminal() || (!seg.l.rec.run.state.Planning? && seg.l.ctx.plan.Some? && seg.aw.Done?)
  {
    var seg := PlanBack(l, first, second);
    if seg.Failing? {
      FinishEnds(seg.l, Failed, CategoryOf(seg.error));
    }
  }

  // ---------------------------------------------------------------- advances bring it down

  /** The part of `At` the measure needs. */
  predicate Measured(cfg: Config, rec: Record, ctx: Ctx, aw: Await) {
    && ctx.book.limits == cfg.LimitsOf(rec.run.scope)
    && (rec.run.state.Created? || rec.run.state.Planning? ==> ctx.plan.None?)
    && (MidStep(rec.run.state, aw) || Replanning(rec.run.state, aw) ==> ctx.plan.Some?)
    && (aw.Finishing? ==> rec.run.state.Terminal())
    && (aw.Planner? && aw.stage.InPlanning? ==> rec.run.state.Planning? || rec.run.state.Cancelled?)
    && (aw.Planner? && !aw.stage.InPlanning? ==> rec.run.state.Running? || rec.run.state.Cancelled?)
    && (aw.Reading? || aw.Redeeming? ==> rec.run.state.WaitingApproval? || rec.run.state.Cancelled?)
    && (aw.Boundary? ==> !aw.stage.InPlanning?)
  }

  lemma AtMeasured(cfg: Config, me: nat, rec: Record, ctx: Ctx, slot: Option<nat>, aw: Await)
    requires At(cfg, me, rec, Some(ctx), slot, aw)
    ensures Measured(cfg, rec, ctx, aw)
  {
    hide Clean, InStepWithPlan;
  }

  lemma SegMeasured(cfg: Config, l: Local, snap: Run, seg: Seg)
    requires SegOk(cfg, l, snap, seg)
    ensures seg.Stopped? && Measured(cfg, seg.l.rec, seg.l.ctx, seg.aw)
  {
    hide RecInv, At, TrailOk;
    AtMeasured(cfg, l.me, seg.l.rec, seg.l.ctx, seg.l.slot, seg.aw);
  }

  lemma TurnCosts(cfg: Config, l: Local, seg: Seg)
    requires Turn(l, seg, false) && Measured(cfg, l.rec, l.ctx, Done) && Measured(cfg, seg.l.rec, seg.l.ctx, seg.aw)
    requires l.rec.run.state.Running? || l.rec.run.state.Interrupted?
    requires l.ctx.plan.None? ==> seg.l.rec.run.state.Verifying? || seg.l.rec.run.state.Terminal()
    requires seg.l.rec.run.state.Terminal() || seg.l.rec.run.state.Verifying? || l.ctx.book.steps < l.ctx.book.limits.maxSteps
    ensures Need(seg.l.rec, Some(seg.l.ctx), seg.aw) + 1 <= Need(l.rec, Some(l.ctx), Done)
  {
    hide RowsGrow, MidStep, Replanning;
  }

  lemma AdvanceCosts(cfg: Config, l: Local, snap: Run, luck: Luck)
    requires Advanceable(cfg, l, snap) && l.rec.run.state == snap.state
    requires !snap.state.Terminal() && !snap.state.Parked()
    ensures Need(Advance(l, cfg, snap, luck).l.rec, Some(Advance(l, cfg, snap, luck).l.ctx), Advance(l, cfg, snap, luck).aw) + 1
            <= Need(l.rec, Some(l.ctx), Done)
  {
    hide RecInv, SegOk, At, TrailOk, NextStep, Verify, AdvanceCreated, DoPlan, Whole, Turn, Clean, Finish;
    var seg := Advance(l, cfg, snap, luck);
    AdvanceOk(cfg, l, snap, luck);
    AdvanceGrows(l, cfg, snap, luck);
    SegMeasured(cfg, l, snap, seg);
    AtMeasured(cfg, l.me, l.rec, l.ctx, l.slot, Done);
    if l.ctx.cancel {
      FinishEnds(l, Cancelled, CancelledByUser);
    } else {
      match snap.state {
        case Created => CreatedMoves(l, cfg, snap, luck); WholeSteps(l, seg, InPlanning, false);
        case Planning => PlanningMoves(l, cfg);
        case Running => NextStepMoves(l, cfg, snap, luck); TurnCosts(cfg, l, seg);
        case Interrupted => NextStepMoves(l, cfg, snap, luck); TurnCosts(cfg, l, seg);
        case Verifying => VerifyEnds(l, cfg, luck);
        case _ => NoOtherState(cfg, l);
      }
    }
  }

  lemma WholeSteps(l: Local, seg: Seg, stage: Stage, won: bool)
    requires Whole(l, seg, stage, won) && !stage.InStep?
    ensures seg.l.rec.run.state.Terminal() || seg.l.ctx.book.steps == l.ctx.book.steps
    ensures seg.l.rec.run.scope == l.rec.run.scope
  {
    hide RowsGrow;
  }

  lemma NoOtherState(cfg: Config, l: Local)
    requires At(cfg, l.me, l.rec, Some(l.ctx), l.slot, Done)
    ensures !l.rec.run.state.WaitingSpecialist? && !l.rec.run.state.WaitingCapability?
  {
    hide CtxFits, Clean;
  }

  // ---------------------------------------------------------------- answers and polls do not bring it up

  lemma StayCosts(cfg: Config, l: Local, seg: Seg, aw: Await)
    requires Whole(l, seg, StageOf(aw), false)
    requires Measured(cfg, l.rec, l.ctx, aw) && Measured(cfg, seg.l.rec, seg.l.ctx, seg.aw)
    requires !l.rec.run.state.Planning? && !l.rec.run.state.Created? && !l.rec.run.state.Verifying?
    requires l.rec.run.state.Terminal() || l.ctx.plan.Some?
    ensures Need(seg.l.rec, Some(seg.l.ctx), seg.aw) <= Need(l.rec, Some(l.ctx), aw)
  {
    hide RowsGrow, MidStep, Replanning;
  }

  lemma FollowCosts(cfg: Config, l: Local, snap: Run, aw: Await, answer: Answer)
    requires Awaiting(cfg, l, snap, aw) && Follow(l, cfg, snap, aw, answer).Some?
    requires aw.Specialist? || aw.Asking? || aw.Reading? || aw.Redeeming? ==> Open(l.rec, aw.row)
    ensures var seg := Follow(l, cfg, snap, aw, answer).value;
            Need(seg.l.rec, Some(seg.l.ctx), seg.aw) <= Need(l.rec, Some(l.ctx), aw)
  {
    hide RecInv, SegOk, At, TrailOk, Whole, Evolves, Need, Follow;
    var seg := Follow(l, cfg, snap, aw, answer).value;
    FollowOk(cfg, l, snap, aw, answer);
    FollowGrows(l, cfg, snap, aw, answer);
    SegMeasured(cfg, l, snap, seg);
    AtMeasured(cfg, l.me, l.rec, l.ctx, l.slot, aw);
    if aw.Planner? && aw.stage.InPlanning? {
      PlanCosts(cfg, l, snap, answer);
    } else {
      OpenStates(cfg, l, snap, aw, answer);
      StayCosts(cfg, l, seg, aw);
    }
  }

  lemma OpenStates(cfg: Config, l: Local, snap: Run, aw: Await, answer: Answer)
    requires Awaiting(cfg, l, snap, aw) && Follow(l, cfg, snap, aw, answer).Some?
    requires !(aw.Planner? && aw.stage.InPlanning?)
    ensures l.rec.run.state.Terminal() || l.ctx.plan.Some?
    ensures !l.rec.run.state.Planning? && !l.rec.run.state.Created? && !l.rec.run.state.Verifying?
  {
    hide RecInv, TrailOk, Clean, InStepWithPlan;
  }

  lemma PlanCosts(cfg: Config, l: Local, snap: Run, answer: Answer)
    requires var aw := Planner(InPlanning);
             && Measured(cfg, l.rec, l.ctx, aw) && Follow(l, cfg, snap, aw, answer).Some?
             && Measured(cfg, Follow(l, cfg, snap, aw, answer).value.l.rec, Follow(l, cfg, snap, aw, answer).value.l.ctx,
                         Follow(l, cfg, snap, aw, answer).value.aw)
             && Whole(l, Follow(l, cfg, snap, aw, answer).value, InPlanning, false)
    ensures var seg := Follow(l, cfg, snap, Planner(InPlanning), answer).value;
            Need(seg.l.rec, Some(seg.l.ctx), seg.aw) <= Need(l.rec, Some(l.ctx), Planner(InPlanning))
  {
    hide RowsGrow, MidStep, Replanning, PlanBack, Close;
    var seg := Follow(l, cfg, snap, Planner(InPlanning), answer).value;
    assert answer.FromPlanner?;
    PlanBackMoves(l, answer.first, answer.second);
    assert seg == Close(PlanBack(l, answer.first, answer.second), InPlanning);
  }

  lemma PollCosts(cfg: Config, l: Local, snap: Run)
    requires Pollable(cfg, l, snap)
    ensures Need(Poll(l).l.rec, Some(Poll(l).l.ctx), Poll(l).aw) <= Need(l.rec, Some(l.ctx), Done)
  {
    hide RecInv, SegOk, At, TrailOk, Whole, Evolves, Need, Poll, Clean;
    PollOk(cfg, l, snap);
    PollWhole(l);
    SegMeasured(cfg, l, snap, Poll(l));
    AtMeasured(cfg, l.me, l.rec, l.ctx, l.slot, Done);
    ParkedHasPlan(cfg, l, snap);
    StayCosts(cfg, l, Poll(l), Done);
  }

  lemma ParkedHasPlan(cfg: Config, l: Local, snap: Run)
    requires Pollable(cfg, l, snap)
    ensures l.rec.run.state.Terminal() || l.ctx.plan.Some?
  {
    hide RecInv, TrailOk, Clean, InStepWithPlan;
  }

  // ---------------------------------------------------------------- in the world

  /** No run is dearer after than before, `extra` aside. */
  predicate Cheaper(w: World, w': World, extra: nat) {
    && |w.advances| == |w.recs| <= |w'.recs| == |w'.advances|
    && forall r :: 0 <= r < |w.recs| ==> w'.advances[r] + NeedOf(w', r) <= w.advances[r] + NeedOf(w, r) + extra
  }

  lemma LeaveNeed(w: World, l: Local, snap: Run, rest: seq<Snap>, seg: Seg, n: nat)
    requires Shape(w) && TickFits(w) && !w.tick.Down? && l.me < |w.recs| && (w.tick.Busy? ==> w.tick.r == l.me)
    requires seg.Stopped?
    requires w.tick.Busy? && w.tick.lost.Some? ==> seg.l.rec.run.state.Terminal()
    requires n + Need(seg.l.rec, Some(seg.l.ctx), if seg.aw.Thrown? then Done else seg.aw) <= w.advances[l.me] + NeedOf(w, l.me)
    ensures var detached := w.tick.Busy? && w.tick.lost.Some?;
            var w' := Leave(w, l.me, snap, detached, rest, seg);
            Cheaper(w, w'.(advances := w'.advances[l.me := n]), 0)
  {
    hide Need, SnapFits, Increasing;
    var detached := w.tick.Busy? && w.tick.lost.Some?;
    var w' := Leave(w, l.me, snap, detached, rest, seg);
    var w2 := w'.(advances := w'.advances[l.me := n]);
    forall r | 0 <= r < |w.recs| ensures w2.advances[r] + NeedOf(w2, r) <= w.advances[r] + NeedOf(w, r) {
      if r != l.me {
        assert ContextOf(w2, r) == ContextOf(w, r);
      } else if detached {
        EndedNeedsNothing(w2.recs[r], ContextOf(w2, r), AwaitOf(w2.tick, r));
      }
    }
  }

  lemma EndedNeedsNothing(rec: Record, octx: Option<Ctx>, aw: Await)
    requires rec.run.state.Terminal()
    ensures Need(rec, octx, aw) == 0
  {
  }

  lemma ThrownNeed(rec: Record, ctx: Ctx)
    ensures Need(rec, Some(ctx), Thrown) == Need(rec, Some(ctx), Done)
  {
  }

  /** A context that has just been rebuilt asks for no more than none at all. */
  lemma RebuiltNeed(cfg: Config, w: World, r: nat)
    requires Live(cfg, w) && !w.tick.Down? && r < |w.recs| && AwaitOf(w.tick, r) == Done
    ensures Need(w.recs[r], Some(Enter(cfg, w, r).ctx), Done) == NeedOf(w, r)
  {
    hide RecInv, CtxFits, Clean, SnapFits, Shape;
    assert At(cfg, r, w.recs[r], ContextOf(w, r), w.slot, Done);
  }

  lemma SameNeed(w: World, w': World)
    requires |w.advances| == |w.recs| && w'.recs == w.recs && w'.advances == w.advances
    requires w.tick.Down? == w'.tick.Down?
    requires forall r :: 0 <= r < |w.recs| ==>
               w.recs[r].run.state.Terminal()
               || (ContextOf(w', r) == ContextOf(w, r) && AwaitOf(w'.tick, r) == AwaitOf(w.tick, r))
    ensures Cheaper(w, w', 0)
  {
  }

  lemma VisitCosts(cfg: Config, w: World, luck: Luck)
    requires Live(cfg, w)
    ensures Cheaper(w, VisitHead(cfg, w, luck).w, 0)
  {
    hide RecInv, At, Clean, SnapFits, Poll, Advance, SegOk, Need, Rebuild, Skipped, TrailOk, Whole, Turn;
    if !w.tick.Between? || w.tick.rest == [] || w.tick.rest[0].r >= |w.recs| || Skipped(cfg, w, w.tick.rest[0]) {
      SameNeed(w, VisitHead(cfg, w, luck).w);
    } else {
      var s, rest := w.tick.rest[0], w.tick.rest[1..];
      var l := Enter(cfg, w, s.r);
      NotSkipped(cfg, w, s);
      VisitReady(cfg, w);
      RebuiltNeed(cfg, w, s.r);
      if s.run.state.WaitingApproval? {
        PollCosts(cfg, l, s.run);
        PollOk(cfg, l, s.run);
        SegMeasured(cfg, l, s.run, Poll(l));
        ThrownNeed(Poll(l).l.rec, Poll(l).l.ctx);
        LeaveNeed(w, l, s.run, rest, Poll(l), w.advances[s.r]);
        assert w.advances[s.r := w.advances[s.r]] == w.advances;
      } else {
        AdvanceVisitCosts(cfg, w, luck);
      }
    }
  }

  lemma AdvanceVisitCosts(cfg: Config, w: World, luck: Luck)
    requires Live(cfg, w) && w.tick.Between? && w.tick.rest != [] && w.tick.rest[0].r < |w.recs|
    requires !Skipped(cfg, w, w.tick.rest[0]) && !w.tick.rest[0].run.state.WaitingApproval?
    ensures Cheaper(w, VisitHead(cfg, w, luck).w, 0)
  {
    hide RecInv, At, Clean, SnapFits, Advance, SegOk, Need, Rebuild, Skipped, TrailOk, Whole, Turn;
    var s, rest := w.tick.rest[0], w.tick.rest[1..];
    var l := Enter(cfg, w, s.r);
    NotSkipped(cfg, w, s);
    VisitReady(cfg, w);
    RebuiltNeed(cfg, w, s.r);
    var seg := Advance(l, cfg, s.run, luck);
    AdvanceOk(cfg, l, s.run, luck);
    SegMeasured(cfg, l, s.run, seg);
    ThrownNeed(seg.l.rec, seg.l.ctx);
    if w.recs[s.r].run.state.Terminal() {
      AdvanceGrows(l, cfg, s.run, luck);
      TurnStays(l, seg, s.run.state.Verifying?);
      EndedNeedsNothing(seg.l.rec, Some(seg.l.ctx), seg.aw);
      LeaveNeed(w, l, s.run, rest, seg, w.advances[s.r]);
      assert w.advances[s.r := w.advances[s.r]] == w.advances;
    } else {
      AdvanceCosts(cfg, l, s.run, luck);
      LeaveNeed(w, l, s.run, rest, seg, w.advances[s.r] + 1);
    }
  }

  lemma ReplyCosts(cfg: Config, w: World, answer: Answer)
    requires Live(cfg, w)
    ensures Cheaper(w, ReplyTo(cfg, w, answer).w, 0)
  {
    hide RecInv, At, Clean, SnapFits, Follow, SegOk, Need, Rebuild, TrailOk, Whole;
    var t := w.tick;
    if !t.Busy? || t.r >= |w.recs| {
      SameNeed(w, ReplyTo(cfg, w, answer).w);
    } else if t.aw.Finishing? {
      FinishingEnded(cfg, w);
      SameNeed(w, ReplyTo(cfg, w, answer).w);
    } else {
      var l := if t.lost.Some? then Enter(cfg, w, t.r).(ctx := t.lost.value) else Enter(cfg, w, t.r);
      var seg := Follow(l, cfg, t.snap, t.aw, answer);
      if seg.None? {
        SameNeed(w, ReplyTo(cfg, w, answer).w);
      } else {
        ReplyReady(cfg, w);
        FollowCosts(cfg, l, t.snap, t.aw, answer);
        FollowOk(cfg, l, t.snap, t.aw, answer);
        SegMeasured(cfg, l, t.snap, seg.value);
        ThrownNeed(seg.value.l.rec, seg.value.l.ctx);
        AwaitingRevision(cfg, l, t.snap, t.aw);
        FollowGrows(l, cfg, t.snap, t.aw, answer);
        EndStays(l, seg.value, StageOf(t.aw), false);
        LeaveNeed(w, l, t.snap, t.rest, seg.value, w.advances[t.r]);
        assert w.advances[t.r := w.advances[t.r]] == w.advances;
      }
    }
  }

  lemma FinishingEnded(cfg: Config, w: World)
    requires Live(cfg, w) && w.tick.Busy? && w.tick.aw.Finishing?
    ensures w.recs[w.tick.r].run.state.Terminal()
  {
    hide RecInv, CtxFits, Clean, SnapFits;
    assert At(cfg, w.tick.r, w.recs[w.tick.r], ContextOf(w, w.tick.r), w.slot, w.tick.aw);
  }

  lemma UserCosts(cfg: Config, w: World, r: nat)
    requires Live(cfg, w)
    ensures Cheaper(w, CancelRun(cfg, w, r).w, 0) && Cheaper(w, DropContext(w, r), 0)
    ensures Cheaper(w, ResumeRun(cfg, w, r).w, 0)
  {
    CancelCosts(cfg, w, r);
    DropCosts(cfg, w, r);
    ResumeCosts(cfg, w, r);
  }

  lemma CancelCosts(cfg: Config, w: World, r: nat)
    requires Live(cfg, w)
    ensures Cheaper(w, CancelRun(cfg, w, r).w, 0)
  {
    hide RecInv, At, SnapFits, CancelRun, Need, TickFits;
    CancelIdle(cfg, w, r);
    var w' := CancelRun(cfg, w, r).w;
    if !w.tick.Down? && r < |w.recs| && !w.recs[r].run.state.Terminal() {
      CancelRecord(cfg, w, r);
      CancelContexts(cfg, w, r);
      EndedNeedsNothing(w'.recs[r], ContextOf(w', r), AwaitOf(w'.tick, r));
      assert forall q :: 0 <= q < |w.recs| && q != r ==> ContextOf(w', q) == ContextOf(w, q);
    } else {
      SameNeed(w, w');
    }
  }

  lemma DropCosts(cfg: Config, w: World, r: nat)
    requires Live(cfg, w)
    ensures Cheaper(w, DropContext(w, r), 0)
  {
    hide RecInv, At, SnapFits, Need, TickFits;
    SameNeed(w, DropContext(w, r));
  }

  lemma ResumeCosts(cfg: Config, w: World, r: nat)
    requires Live(cfg, w)
    ensures Cheaper(w, ResumeRun(cfg, w, r).w, 0)
  {
    hide RecInv, At, SnapFits, ResumeRun, Clean;
    ResumeShape(cfg, w, r);
    var w' := ResumeRun(cfg, w, r).w;
    if !w.tick.Down? && r < |w.recs| && w.recs[r].run.state.WaitingUser? {
      assert forall q :: 0 <= q < |w.recs| && q != r ==> ContextOf(w', q) == ContextOf(w, q);
    } else {
      SameNeed(w, w');
    }
  }

  lemma RestartCosts(cfg: Config, w: World, alive: bool)
    requires Live(cfg, w) && w.tick.Down?
    ensures Cheaper(w, w.(recs := ReconcileFirst(w.recs, |w.recs|, alive), tick := Between([])), 0)
  {
    hide RecInv, At, SnapFits, ReconcileRecord, TickFits;
    forall r | 0 <= r < |w.recs| {
      ReconciledOk(cfg, r, w.recs[r], alive);
    }
  }

  /** At most one more advance of anybody, and none of a run that has ended. */
  predicate OneMore(w: World, w': World) {
    && |w'.advances| == |w.advances| == |w.recs|
    && forall r :: 0 <= r < |w.recs| ==>
         w.advances[r] <= w'.advances[r] <= w.advances[r] + if w.recs[r].run.state.Terminal() then 0 else 1
  }

  /** Dying costs a run at most one more advance, besides the one in which it dies. */
  lemma DieCosts(w: World, w': World)
    requires Shape(w) && w'.tick.Down? && |w'.recs| == |w.recs| && OneMore(w, w')
    requires forall r :: 0 <= r < |w.recs| ==> Evolves(w.recs[r], w'.recs[r])
    ensures Cheaper(w, w', 2)
  {
    hide RowsGrow;
  }

  /** Which runs there are, and how often the process has died, after one event. */
  predicate Counted(cfg: Config, w: World, w': World) {
    && w.crashes <= w'.crashes <= w.crashes + 1
    && (|w'.recs| == |w.recs|
        || (|w'.recs| == |w.recs| + 1 && !w'.tick.Down?
            && w'.advances == w.advances + [0]
            && var scope := w'.recs[|w.recs|].run.scope;
               w'.recs[|w.recs|] == NewRecord(scope)
               && ContextOf(w', |w.recs|) == Some(NewCtx(cfg.LimitsOf(scope)))))
  }

  lemma SubmitCosts(cfg: Config, w: World, scope: Scope)
    requires Live(cfg, w)
    ensures Cheaper(w, Happen(cfg, w, Submit(scope)).w, 0) && Counted(cfg, w, Happen(cfg, w, Submit(scope)).w)
  {
    hide RecInv, At, SnapFits, Need;
    var w' := Happen(cfg, w, Submit(scope)).w;
    if w.tick.Down? {
      SameNeed(w, w');
    } else {
      assert forall q :: 0 <= q < |w.recs| ==> ContextOf(w', q) == ContextOf(w, q);
    }
  }

  /** One event: nobody gets dearer, unless the process dies, and then by two: the advance it dies in, and one more. */
  lemma HappenCosts(cfg: Config, w: World, e: Event)
    requires Live(cfg, w)
    ensures var w' := Happen(cfg, w, e).w;
            Cheaper(w, w', if w'.crashes > w.crashes then 2 else 0) && Counted(cfg, w, w')
  {
    hide Live, VisitHead, ReplyTo, CancelRun, ResumeRun, DropContext, ReconcileFirst, WorldGrows, WonFairly, Evolves;
    assert Shape(w) by { LiveShape(cfg, w); }
    hide Shape;
    match e {
      case Submit(scope) => SubmitCosts(cfg, w, scope);
      case BeginTick => assert Shape(w); BeginCosts(cfg, w);
      case Visit(luck) => VisitCosts(cfg, w, luck); CountsKept(cfg, w, e);
      case Reply(answer) => ReplyCosts(cfg, w, answer); CountsKept(cfg, w, e);
      case Cancel(r) => UserCosts(cfg, w, r); CountsKept(cfg, w, e);
      case Notified(r) => UserCosts(cfg, w, r); CountsKept(cfg, w, e);
      case Resume(r) => UserCosts(cfg, w, r); CountsKept(cfg, w, e);
      case Reconcile(alive) =>
        BeginCosts(cfg, w);
        CountsKept(cfg, w, e);
        if w.tick.Down? {
          RestartCosts(cfg, w, alive);
        }
      case _ =>
        HappenGrows(cfg, w, e);
        DeathCosts(cfg, w, e);
    }
  }

  lemma LiveShape(cfg: Config, w: World)
    requires Live(cfg, w)
    ensures Shape(w)
  {
    hide RecInv, At, TickFits;
  }

  lemma BeginCosts(cfg: Config, w: World)
    requires Shape(w)
    ensures Cheaper(w, Happen(cfg, w, BeginTick).w, 0) && Counted(cfg, w, Happen(cfg, w, BeginTick).w)
    ensures Cheaper(w, w, 0) && Counted(cfg, w, w)
  {
    hide Need;
    SameNeed(w, Happen(cfg, w, BeginTick).w);
  }

  lemma CountsKept(cfg: Config, w: World, e: Event)
    requires !e.Submit? && !e.Crash? && !e.CrashDuring? && !e.CrashInReconcile?
    ensures Counted(cfg, w, Happen(cfg, w, e).w)
  {
    hide Poll, Advance, Follow, Skipped, Rebuild, Finish, Move;
  }

  lemma DeathCosts(cfg: Config, w: World, e: Event)
    requires Shape(w) && (e.Crash? || e.CrashDuring? || e.CrashInReconcile?)
    requires WorldGrows(w, Happen(cfg, w, e).w)
    ensures var w' := Happen(cfg, w, e).w;
            Cheaper(w, w', if w'.crashes > w.crashes then 2 else 0) && Counted(cfg, w, w')
  {
    hide Evolves, Need, NeedOf, ReconcileFirst;
    var w' := Happen(cfg, w, e).w;
    DeathShape(cfg, w, e);
    if w' == w {
      BeginCosts(cfg, w);
    } else {
      DieCosts(w, w');
    }
  }

  lemma DeathShape(cfg: Config, w: World, e: Event)
    requires Shape(w) && (e.Crash? || e.CrashDuring? || e.CrashInReconcile?)
    ensures var w' := Happen(cfg, w, e).w;
            w' == w || (w'.tick.Down? && OneMore(w, w') && |w'.recs| == |w.recs| && w'.crashes == w.crashes + 1)
  {
    hide Happen;
    if e.CrashDuring? {
      AtMostOneAdvance(cfg, w, e.event);
      DiesDuring(cfg, w, e.event, e.writes);
    } else {
      PlainDeath(cfg, w, e);
    }
  }

  lemma PlainDeath(cfg: Config, w: World, e: Event)
    requires Shape(w) && (e.Crash? || e.CrashInReconcile?)
    ensures var w' := Happen(cfg, w, e).w;
            w' == w || (w'.tick.Down? && w'.advances == w.advances && |w'.recs| == |w.recs| && w'.crashes == w.crashes + 1)
  {
  }

  lemma DiesDuring(cfg: Config, w: World, inner: Event, writes: nat)
    ensures var w' := Happen(cfg, w, CrashDuring(inner, writes)).w;
            && w'.tick.Down? && w'.advances == Begun(w, Happen(cfg, w, inner)).advances
            && |w'.recs| == |w.recs| && w'.crashes == w.crashes + 1
  {
  }

  /** No event advances more than one run, or one run more than once. */
  lemma AtMostOneAdvance(cfg: Config, w: World, e: Event)
    requires Shape(w)
    ensures OneMore(w, Begun(w, Happen(cfg, w, e)))
    decreases e
  {
    if e.CrashDuring? {
      hide Happen;
      AtMostOneAdvance(cfg, w, e.event);
      DiesDuring(cfg, w, e.event, e.writes);
    } else {
      PlainAdvance(cfg, w, e);
    }
  }

  lemma PlainAdvance(cfg: Config, w: World, e: Event)
    requires Shape(w) && !e.CrashDuring?
    ensures OneMore(w, Begun(w, Happen(cfg, w, e)))
  {
    hide Poll, Advance, Follow, Skipped, Rebuild, Finish, Move;
  }

  // ---------------------------------------------------------------- over whole histories

  predicate Budgeted(cfg: Config, w: World) {
    && |w.advances| == |w.recs|
    && forall r :: 0 <= r < |w.recs| ==>
         w.advances[r] + NeedOf(w, r) <= cfg.LimitsOf(w.recs[r].run.scope).maxSteps + 4 + 2 * w.crashes
  }

  lemma BudgetKept(cfg: Config, w: World, e: Event)
    requires Live(cfg, w) && Budgeted(cfg, w)
    ensures Budgeted(cfg, Happen(cfg, w, e).w)
  {
    hide Live, Happen, NeedOf, Need, RowsGrow;
    HappenCosts(cfg, w, e);
    HappenGrows(cfg, w, e);
    var w' := Happen(cfg, w, e).w;
    forall r | 0 <= r < |w'.recs|
      ensures w'.advances[r] + NeedOf(w', r) <= cfg.LimitsOf(w'.recs[r].run.scope).maxSteps + 4 + 2 * w'.crashes
    {
      if r < |w.recs| {
        assert Evolves(w.recs[r], w'.recs[r]);
      } else {
        FreshNeed(cfg, w', r);
      }
    }
  }

  lemma FreshNeed(cfg: Config, w: World, r: nat)
    requires r < |w.recs| && !w.tick.Down?
    requires w.recs[r] == NewRecord(w.recs[r].run.scope)
    requires ContextOf(w, r) == Some(NewCtx(cfg.LimitsOf(w.recs[r].run.scope)))
    ensures NeedOf(w, r) == cfg.LimitsOf(w.recs[r].run.scope).maxSteps + 4
  {
  }

  lemma {:induction false} AlwaysBudgeted(cfg: Config, events: seq<Event>)
    ensures Live(cfg, After(cfg, INITIAL, events)) && Budgeted(cfg, After(cfg, INITIAL, events))
  {
    hide Live, NeedOf;
    AlwaysLive(cfg, events);
    if events != [] {
      AlwaysBudgeted(cfg, events[..|events| - 1]);
      BudgetKept(cfg, After(cfg, INITIAL, events[..|events| - 1]), events[|events| - 1]);
    }
  }

  /**
   Termination, counted in advances begun and over every history: a run is advanced at most
   `maxSteps + 4` times, plus twice per crash (the advance in which the process dies, and one
   more to end the run without its plan), and one time less as long as it is open.
   */
  lemma EveryRunEnds(cfg: Config, events: seq<Event>, r: nat)
    requires r < |After(cfg, INITIAL, events).recs|
    ensures var w := After(cfg, INITIAL, events);
            && r < |w.advances|
            && w.advances[r] + (if w.recs[r].run.state.Terminal() then 0 else 1)
               <= cfg.LimitsOf(w.recs[r].run.scope).maxSteps + 4 + 2 * w.crashes
  {
    hide Live;
    AlwaysBudgeted(cfg, events);
    var w := After(cfg, INITIAL, events);
    assert w.advances[r] + NeedOf(w, r) <= cfg.LimitsOf(w.recs[r].run.scope).maxSteps + 4 + 2 * w.crashes;
  }
}
