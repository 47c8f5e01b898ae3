/**
 What success means for the plan. Between the last planned step and SUCCEEDED a run only
 gets the core's closing rows, so the rows of a run that succeeded are its plan's, one each.
 */
module AgentSuccess {
  import opened RunLedger
  import opened AgentSteps
  import opened AgentInvariant
  import opened AgentClosing
  import opened AgentGrowth
  import opened AgentWorld
  import opened AgentSafety
  import opened AgentTheorems

  // ---------------------------------------------------------------- in verification

  /** What an event may do to the rows of run r: by its end, and by every write on the way. */
  predicate OutCloses(w: World, out: Out, r: nat)
    requires r < |w.recs|
  {
    && r < |out.w.recs| && OnlyClosed(w.recs[r].rows, out.w.recs[r].rows)
    && (out.r == r ==> forall t :: t in out.trail ==> OnlyClosed(w.recs[r].rows, t.rows))
  }

  lemma SameRowsClose(w: World, out: Out, r: nat)
    requires r < |w.recs| && r < |out.w.recs| && out.w.recs[r].rows == w.recs[r].rows
    requires out.r == r ==> forall t :: t in out.trail ==> t.rows == w.recs[r].rows
    ensures OutCloses(w, out, r)
  {
  }

  /** A run in verification has no coroutine at work, and the tick has read it as it is. */
  lemma VerifyingAtRest(cfg: Config, w: World, r: nat)
    requires Live(cfg, w) && r < |w.recs| && !w.tick.Down? && w.recs[r].run.state.Verifying?
    ensures w.tick.Busy? ==> w.tick.r != r
    ensures w.tick.Between? && w.tick.rest != [] && w.tick.rest[0].r == r ==>
              w.tick.rest[0].run.state.WaitingUser? || w.tick.rest[0].run.state.Verifying?
  {
    hide RecInv, CtxFits, Clean;
    assert At(cfg, r, w.recs[r], ContextOf(w, r), w.slot, AwaitOf(w.tick, r));
    if w.tick.Between? && w.tick.rest != [] && w.tick.rest[0].r == r {
      assert SnapFits(RestOf(w.tick)[0].run, w.recs[r], ContextOf(w, r));
    }
  }

  lemma VisitCloses(cfg: Config, w: World, luck: Luck, r: nat)
    requires Live(cfg, w) && r < |w.recs| && !w.tick.Down? && w.recs[r].run.state.Verifying?
    ensures OutCloses(w, VisitHead(cfg, w, luck), r)
  {
    hide Live, Poll, Advance, Rebuild, Skipped, OnlyClosed;
    VerifyingAtRest(cfg, w, r);
    if w.tick.Between? && w.tick.rest != [] && w.tick.rest[0].r == r && !Skipped(cfg, w, w.tick.rest[0]) {
      NotSkipped(cfg, w, w.tick.rest[0]);
      var l := Enter(cfg, w, r);
      StartsToClose(l);
      AdvanceCloses(l.rec.rows, l.ctx.plan, l, cfg, w.tick.rest[0].run, luck);
    } else {
      SameRowsClose(w, VisitHead(cfg, w, luck), r);
    }
  }

  lemma StartsToClose(l: Local)
    requires l.trail == [] && Calm(l.rec.run.state)
    ensures Closing(l.rec.rows, l.ctx.plan, l)
  {
  }

  lemma UserCloses(cfg: Config, w: World, q: nat, r: nat)
    requires r < |w.recs|
    ensures OutCloses(w, CancelRun(cfg, w, q), r) && OutCloses(w, ResumeRun(cfg, w, q), r)
  {
    hide Rebuild, OutCloses;
    SameRowsClose(w, CancelRun(cfg, w, q), r);
    SameRowsClose(w, ResumeRun(cfg, w, q), r);
  }

  lemma ReplyAside(cfg: Config, w: World, answer: Answer, r: nat)
    requires r < |w.recs| && (w.tick.Busy? ==> w.tick.r != r)
    ensures OutCloses(w, ReplyTo(cfg, w, answer), r)
  {
    hide Rebuild, Follow, OutCloses;
    SameRowsClose(w, ReplyTo(cfg, w, answer), r);
  }

  /** Whatever happens next to a run in verification: only closing rows are added. */
  lemma VerifyingCloses(cfg: Config, w: World, e: Event, r: nat)
    requires Live(cfg, w) && r < |w.recs| && !w.tick.Down? && w.recs[r].run.state.Verifying?
    ensures OutCloses(w, Happen(cfg, w, e), r)
    decreases e
  {
    hide Live, VisitHead, ReplyTo, CancelRun, ResumeRun, DropContext, OnlyClosed;
    SameRowsClose(w, Quiet(w), r);
    match e {
      case Visit(luck) => VisitCloses(cfg, w, luck, r);
      case Reply(answer) =>
        VerifyingAtRest(cfg, w, r);
        ReplyAside(cfg, w, answer, r);
      case Cancel(q) => UserCloses(cfg, w, q, r);
      case Resume(q) => UserCloses(cfg, w, q, r);
      case Notified(q) => NoticeKeeps(w, q);
      case CrashDuring(inner, writes) => VerifyingCloses(cfg, w, inner, r);
      case _ =>
    }
  }

  // ---------------------------------------------------------------- a run that succeeded

  lemma SucceededRows(cfg: Config, w: World, r: nat)
    requires Live(cfg, w) && r < |w.recs| && w.recs[r].run.state.Succeeded?
    ensures AllSettledOk(w.recs[r].rows) && w.recs[r].run.revision == 0
  {
    hide At, RowOk, Unique, TickFits;
    assert RecInv(cfg, w.recs[r]);
  }

  lemma VerifyingRows(cfg: Config, w: World, r: nat)
    requires Live(cfg, w) && r < |w.recs| && !w.tick.Down? && w.recs[r].run.state.Verifying? && r in w.contexts
    requires w.contexts[r].plan.Some?
    ensures w.recs[r].run.revision == 0 ==>
              var plan, rows := w.contexts[r].plan.value, w.recs[r].rows;
              |rows| == |plan| && InStepWithPlan(rows, plan, |plan|, true)
  {
    hide RecInv, Clean;
    assert At(cfg, r, w.recs[r], ContextOf(w, r), w.slot, AwaitOf(w.tick, r));
  }

  /** Row k is that of step k; behind the plan's rows come the core's own, numbered after all steps. */
  predicate PlanDone(plan: seq<Planned>, rows: seq<Row>) {
    && |rows| >= |plan|
    && (forall k :: 0 <= k < |plan| ==>
          rows[k].ordinal == k + 1 && rows[k].attempt == 1 && rows[k].kind == RowKindOf(plan[k].kind)
          && rows[k].state.SettledOk())
    && (forall k :: |plan| <= k < |rows| ==>
          rows[k].ordinal > |plan| && (rows[k].kind.VerifyRow? || rows[k].kind.HarvestRow?))
  }

  lemma PlanDoneStep(cfg: Config, w: World, w': World, r: nat)
    requires Live(cfg, w) && Live(cfg, w') && WorldGrows(w, w') && WonFairly(w, w')
    requires r < |w.recs| && !w.tick.Down? && r in w.contexts && w.contexts[r].plan.Some?
    requires !w.recs[r].run.state.Succeeded? && w'.recs[r].run.state.Succeeded?
    requires OnlyClosed(w.recs[r].rows, w'.recs[r].rows)
    ensures PlanDone(w.contexts[r].plan.value, w'.recs[r].rows)
  {
    hide Live, RowsGrow;
    VerifyingRows(cfg, w, r);
    SucceededRows(cfg, w', r);
    var rows, rows' := w.recs[r].rows, w'.recs[r].rows;
    assert Evolves(w.recs[r], w'.recs[r]);
    RowAt(rows, rows', 0);
    forall k | 0 <= k < |rows| ensures RowGrows(rows[k], rows'[k]) {
      RowAt(rows, rows', k);
    }
  }

  /**
   A run that succeeds while its plan is still in memory has exactly one row for every step
   of that plan, in order, of the step's own kind, at its first attempt, and settled well.
   */
  lemma SuccessMeansPlanDone(cfg: Config, events: seq<Event>, e: Event, r: nat)
    requires var w := After(cfg, INITIAL, events);
             && r < |w.recs| && r in w.contexts && w.contexts[r].plan.Some?
             && !w.recs[r].run.state.Succeeded?
             && r < |Apply(cfg, w, e).recs| && Apply(cfg, w, e).recs[r].run.state.Succeeded?
    ensures PlanDone(After(cfg, INITIAL, events).contexts[r].plan.value,
                     Apply(cfg, After(cfg, INITIAL, events), e).recs[r].rows)
  {
    var w := After(cfg, INITIAL, events);
    hide Live, Happen, After, WorldGrows, WonFairly, PlanDone;
    AlwaysLive(cfg, events);
    HappenOk(cfg, w, e);
    HappenGrows(cfg, w, e);
    assert !w.tick.Down? by { ContextMeansUp(cfg, w, r); }
    assert w.recs[r].run.state.Verifying? by { WonByVerifying(w, Apply(cfg, w, e), r); }
    VerifyingCloses(cfg, w, e, r);
    PlanDoneStep(cfg, w, Apply(cfg, w, e), r);
  }

  lemma WonByVerifying(w: World, w': World, r: nat)
    requires WonFairly(w, w') && r < |w.recs| && r < |w'.recs|
    requires !w.recs[r].run.state.Succeeded? && w'.recs[r].run.state.Succeeded?
    ensures w.recs[r].run.state.Verifying?
  {
  }

  lemma ContextMeansUp(cfg: Config, w: World, r: nat)
    requires Live(cfg, w) && r in w.contexts
    ensures !w.tick.Down?
  {
    hide RecInv, At, TickFits;
  }
}
