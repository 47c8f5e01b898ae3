/**
 What the agent runtime promises, over every sequence of events from an empty ledger, and
 exactly where its promises end.
 */
module AgentTheorems {
  import opened Basics
  import opened RunLedger
  import opened RunBudget
  import opened AgentSteps
  import opened AgentInvariant
  import opened AgentGrowth
  import opened AgentVisits
  import opened AgentWorld
  import opened AgentSafety

  // ---------------------------------------------------------------- at most once

  /** The tallies of every step row, whatever crashed, was cancelled or restarted in between. */
  lemma AtMostOnce(cfg: Config, events: seq<Event>, r: nat, i: nat)
    requires r < |After(cfg, INITIAL, events).recs| && i < |After(cfg, INITIAL, events).recs[r].rows|
    ensures var rows := After(cfg, INITIAL, events).recs[r].rows;
            && rows[i].asked <= 1 && rows[i].redeemed <= 1 + rows[i].raised
            && (rows[i].redeemed > 0 ==> rows[i].granted && rows[i].approval.Some? && rows[i].asked == 1)
            && forall j :: 0 <= j < |rows| && j != i ==>
                 rows[j].ordinal != rows[i].ordinal || rows[j].attempt != rows[i].attempt
  {
    hide At;
    AlwaysLive(cfg, events);
    assert RecInv(cfg, After(cfg, INITIAL, events).recs[r]);
  }

  // ---------------------------------------------------------------- success

  /** A run that succeeded has its evidence, and it never had to plan twice. */
  lemma SuccessIsEvidenced(cfg: Config, events: seq<Event>, r: nat)
    requires r < |After(cfg, INITIAL, events).recs| && After(cfg, INITIAL, events).recs[r].run.state.Succeeded?
    ensures var rec := After(cfg, INITIAL, events).recs[r];
            && (forall i :: 0 <= i < |rec.rows| ==> rec.rows[i].state.RowSucceeded? || rec.rows[i].state.RowSkipped?)
            && (rec.run.scope.Build? && cfg.workspaces ==> rec.run.branch)
            && rec.run.revision == 0
  {
    hide At, RowOk, Unique;
    AlwaysLive(cfg, events);
    assert RecInv(cfg, After(cfg, INITIAL, events).recs[r]);
  }

  // ---------------------------------------------------------------- ends are ends

  predicate WorldGrows(w: World, w': World) {
    && |w.recs| <= |w'.recs|
    && forall r :: 0 <= r < |w.recs| ==> Evolves(w.recs[r], w'.recs[r])
  }

  /** A run that succeeds in this event was being verified, and nothing before. */
  predicate WonFairly(w: World, w': World) {
    forall r :: 0 <= r < |w.recs| && r < |w'.recs| && w'.recs[r].run.state.Succeeded? && !w.recs[r].run.state.Succeeded?
      ==> w.recs[r].run.state.Verifying?
  }

  predicate OutGrows(w: World, out: Out) {
    && WorldGrows(w, out.w) && WonFairly(w, out.w)
    && (out.r < |w.recs| ==>
          forall t :: t in out.trail ==> Leads(w.recs[out.r], t, w.recs[out.r].run.state.Verifying?))
  }

  lemma StillGrows(w: World, w': World)
    requires w'.recs == w.recs
    ensures WorldGrows(w, w') && WonFairly(w, w')
  {
    hide Evolves;
    forall r | 0 <= r < |w.recs| ensures Evolves(w.recs[r], w'.recs[r]) {
      EvolvesSelf(w.recs[r]);
    }
  }

  lemma OneGrows(w: World, w': World, r: nat)
    requires r < |w.recs| && |w'.recs| == |w.recs| && w'.recs == w.recs[r := w'.recs[r]]
    requires Leads(w.recs[r], w'.recs[r], w.recs[r].run.state.Verifying?)
    ensures WorldGrows(w, w') && WonFairly(w, w')
  {
    hide RowsGrow;
    forall q | 0 <= q < |w.recs| ensures Evolves(w.recs[q], w'.recs[q]) {
      if q != r {
        EvolvesSelf(w.recs[q]);
      }
    }
  }

  lemma SegLeads(l: Local, seg: Seg, snap: Run)
    requires l.trail == []
    requires Whole(l, seg, InPoll, false) || Turn(l, seg, false) || Whole(l, seg, InPlanning, snap.state.Verifying?)
    requires snap.state.Verifying? ==> l.rec.run.state.Verifying? || l.rec.run.state.Cancelled?
    ensures Leads(l.rec, seg.l.rec, l.rec.run.state.Verifying?)
    ensures forall t :: t in seg.l.trail ==> Leads(l.rec, t, l.rec.run.state.Verifying?)
  {
    hide RowsGrow;
  }

  lemma VisitGrows(cfg: Config, w: World, luck: Luck)
    requires Live(cfg, w)
    ensures OutGrows(w, VisitHead(cfg, w, luck))
  {
    hide Live, Poll, Advance, SegOk, Whole, Turn, Leads, WorldGrows, WonFairly, Evolves, At, TrailOk, Clean;
    hide Rebuild, Skipped;
    if !w.tick.Between? || w.tick.rest == [] || w.tick.rest[0].r >= |w.recs| || Skipped(cfg, w, w.tick.rest[0]) {
      StillGrows(w, VisitHead(cfg, w, luck).w);
    } else {
      var s := w.tick.rest[0];
      var l := Enter(cfg, w, s.r);
      NotSkipped(cfg, w, s);
      VisitReady(cfg, w);
      if s.run.state.WaitingApproval? {
        PollWhole(l);
        SegLeads(l, Poll(l), s.run);
      } else {
        AdvanceGrows(l, cfg, s.run, luck);
        SegLeads(l, Advance(l, cfg, s.run, luck), s.run);
      }
      OneGrows(w, VisitHead(cfg, w, luck).w, s.r);
    }
  }

  lemma NotSkipped(cfg: Config, w: World, s: Snap)
    requires !Skipped(cfg, w, s)
    ensures !s.run.state.WaitingUser?
  {
  }

  lemma ReplyGrows(cfg: Config, w: World, answer: Answer)
    requires Live(cfg, w)
    ensures OutGrows(w, ReplyTo(cfg, w, answer))
  {
    hide Live, Follow, SegOk, Whole, Leads, WorldGrows, WonFairly, Evolves, Awaiting, Rebuild;
    var t := w.tick;
    if t.Busy? && t.r < |w.recs| && !t.aw.Finishing? {
      var l := if t.lost.Some? then Enter(cfg, w, t.r).(ctx := t.lost.value) else Enter(cfg, w, t.r);
      ReplyReady(cfg, w);
      AwaitingRevision(cfg, l, t.snap, t.aw);
      FollowGrows(l, cfg, t.snap, t.aw, answer);
      var seg := Follow(l, cfg, t.snap, t.aw, answer);
      if seg.Some? {
        FollowLeads(l, seg.value, t.aw);
        OneGrows(w, ReplyTo(cfg, w, answer).w, t.r);
      } else {
        StillGrows(w, ReplyTo(cfg, w, answer).w);
      }
    } else {
      StillGrows(w, ReplyTo(cfg, w, answer).w);
    }
  }

  lemma AwaitingRevision(cfg: Config, l: Local, snap: Run, aw: Await)
    requires Awaiting(cfg, l, snap, aw)
    ensures aw.Specialist? || aw.Asking? || aw.Reading? || aw.Redeeming? ==> snap.revision == l.rec.run.revision
  {
    hide At, TrailOk;
  }

  lemma FollowLeads(l: Local, seg: Seg, aw: Await)
    requires l.trail == [] && Whole(l, seg, StageOf(aw), false)
    ensures Leads(l.rec, seg.l.rec, l.rec.run.state.Verifying?)
    ensures forall t :: t in seg.l.trail ==> Leads(l.rec, t, l.rec.run.state.Verifying?)
  {
    hide RowsGrow;
  }

  lemma StateLeads(a: Record, b: Record)
    requires a.rows == b.rows && a.run.scope == b.run.scope && a.run.revision == b.run.revision
    requires !a.run.state.Terminal() || b.run.state == a.run.state
    requires b.run.state == a.run.state || (!b.run.state.Created? && !b.run.state.Planning? && !b.run.state.Succeeded?)
    ensures Leads(a, b, a.run.state.Verifying?)
  {
  }

  lemma UserGrows(cfg: Config, w: World, r: nat)
    requires Live(cfg, w)
    ensures OutGrows(w, CancelRun(cfg, w, r)) && OutGrows(w, ResumeRun(cfg, w, r))
  {
    hide RecInv, At, TickFits, Leads, WorldGrows, WonFairly, CancelRun, ResumeRun, Rebuild;
    ResumeShape(cfg, w, r);
    if !w.tick.Down? && r < |w.recs| && w.recs[r].run.state.WaitingUser? {
      var out := ResumeRun(cfg, w, r);
      StateLeads(w.recs[r], out.trail[0]);
      StateLeads(w.recs[r], out.trail[1]);
      OneGrows(w, out.w, r);
    } else {
      StillGrows(w, ResumeRun(cfg, w, r).w);
    }
    CancelIdle(cfg, w, r);
    if !w.tick.Down? && r < |w.recs| && !w.recs[r].run.state.Terminal() {
      var out := CancelRun(cfg, w, r);
      CancelRecord(cfg, w, r);
      StateLeads(w.recs[r], out.trail[0]);
      OneGrows(w, out.w, r);
      assert out.r == r by { CancelWho(cfg, w, r); }
    } else {
      StillGrows(w, CancelRun(cfg, w, r).w);
    }
  }

  lemma CancelIdle(cfg: Config, w: World, r: nat)
    ensures w.tick.Down? || r >= |w.recs| || w.recs[r].run.state.Terminal() ==> CancelRun(cfg, w, r) == Quiet(w)
  {
  }

  lemma NoticeKeeps(w: World, q: nat)
    ensures DropContext(w, q).recs == w.recs
  {
  }

  lemma CancelWho(cfg: Config, w: World, r: nat)
    ensures CancelRun(cfg, w, r).r == r || CancelRun(cfg, w, r) == Quiet(w)
  {
  }

  lemma ReconcileGrows(cfg: Config, w: World, n: nat, alive: bool, w': World)
    requires Live(cfg, w) && w'.recs == ReconcileFirst(w.recs, n, alive)
    ensures WorldGrows(w, w') && WonFairly(w, w')
  {
    hide RecInv, At, Evolves, TickFits, Shape, ReconcileRecord;
    forall r | 0 <= r < |w.recs|
      ensures Leads(w.recs[r], w'.recs[r], w.recs[r].run.state.Verifying?)
    {
      ReconciledOk(cfg, r, w.recs[r], alive);
      EvolvesSelf(w.recs[r]);
      if r < n {
        StateLeads(w.recs[r], w'.recs[r]) by { ReconcileState(w.recs[r], alive); }
      }
    }
  }

  lemma ReconcileState(rec: Record, alive: bool)
    ensures ReconcileRecord(rec, alive).run.state == rec.run.state || ReconcileRecord(rec, alive).run.state.Interrupted?
  {
  }

  /** One event, whichever: the ledger grows and nothing that has ended or been settled changes. */
  lemma HappenGrows(cfg: Config, w: World, e: Event)
    requires Live(cfg, w)
    ensures OutGrows(w, Happen(cfg, w, e))
    decreases e
  {
    hide Live, VisitHead, ReplyTo, CancelRun, ResumeRun, ReconcileFirst, WorldGrows, WonFairly, Leads, Evolves;
    match e {
      case Submit(scope) => SubmitGrows(cfg, w, scope);
      case BeginTick => StillGrows(w, Happen(cfg, w, e).w);
      case Visit(luck) => VisitGrows(cfg, w, luck);
      case Reply(answer) => ReplyGrows(cfg, w, answer);
      case Cancel(r) => UserGrows(cfg, w, r);
      case Notified(r) => StillGrows(w, Happen(cfg, w, e).w);
      case Resume(r) => UserGrows(cfg, w, r);
      case Reconcile(alive) =>
        StillGrows(w, w);
        ReconcileGrows(cfg, w, |w.recs|, alive,
                       w.(recs := ReconcileFirst(w.recs, |w.recs|, alive), tick := Between([])));
      case Crash => StillGrows(w, Die(w));
      case CrashDuring(inner, writes) =>
        HappenGrows(cfg, w, inner);
        var out := Happen(cfg, w, inner);
        StillGrows(w, Die(Begun(w, out)));
        if out.r < |w.recs| && 1 <= writes <= |out.trail| {
          OneGrows(w, Die(Begun(w, out).(recs := w.recs[out.r := out.trail[writes - 1]])), out.r);
        }
      case CrashInReconcile(runs, alive) =>
        StillGrows(w, w);
        ReconcileGrows(cfg, w, runs, alive, Die(w.(recs := ReconcileFirst(w.recs, runs, alive))));
    }
  }

  lemma SubmitGrows(cfg: Config, w: World, scope: Scope)
    ensures WorldGrows(w, Happen(cfg, w, Submit(scope)).w) && WonFairly(w, Happen(cfg, w, Submit(scope)).w)
  {
    hide Evolves;
    forall r | 0 <= r < |w.recs| ensures Evolves(w.recs[r], w.recs[r]) {
      EvolvesSelf(w.recs[r]);
    }
  }

  lemma RowAt(a: seq<Row>, b: seq<Row>, k: nat)
    requires RowsGrow(a, b)
    ensures |a| <= |b| && (k < |a| ==> RowGrows(a[k], b[k]))
  {
  }

  // ---------------------------------------------------------------- new runs

  lemma NewRunsAreEmpty(cfg: Config, w: World, e: Event, r: nat)
    ensures |w.recs| <= r < |Apply(cfg, w, e).recs| ==> Apply(cfg, w, e).recs[r].rows == []
  {
    hide VisitHead, ReplyTo, CancelRun, ResumeRun, DropContext, ReconcileFirst;
    match e {
      case Visit(luck) => VisitCount(cfg, w, luck);
      case Reply(answer) => ReplyCount(cfg, w, answer);
      case Cancel(q) => UserCount(cfg, w, q);
      case Notified(q) => NoticeKeeps(w, q);
      case Resume(q) => UserCount(cfg, w, q);
      case Reconcile(alive) => ReconcileCount(w.recs, |w.recs|, alive);
      case CrashInReconcile(runs, alive) => ReconcileCount(w.recs, runs, alive);
      case _ =>
    }
  }

  lemma VisitCount(cfg: Config, w: World, luck: Luck)
    ensures |VisitHead(cfg, w, luck).w.recs| == |w.recs|
  {
    hide Poll, Advance, Rebuild, Skipped;
  }

  lemma ReplyCount(cfg: Config, w: World, answer: Answer)
    ensures |ReplyTo(cfg, w, answer).w.recs| == |w.recs|
  {
    hide Follow, Rebuild;
  }

  lemma UserCount(cfg: Config, w: World, q: nat)
    ensures |CancelRun(cfg, w, q).w.recs| == |w.recs| && |ResumeRun(cfg, w, q).w.recs| == |w.recs|
  {
    hide Rebuild, Finish, Move;
  }

  lemma ReconcileCount(recs: seq<Record>, n: nat, alive: bool)
    ensures |ReconcileFirst(recs, n, alive)| == |recs|
  {
    hide ReconcileRecord;
  }

  // ---------------------------------------------------------------- ends stay ends

  /**
   Over any further history: an ended run keeps its state, a settled row is never touched
   again, tallies and the revision counter never go down.
   */
  lemma {:induction false} EndsAreEnds(cfg: Config, w: World, events: seq<Event>)
    requires Live(cfg, w)
    ensures Live(cfg, After(cfg, w, events)) && WorldGrows(w, After(cfg, w, events))
  {
    hide Live, Evolves;
    if events == [] {
      StillGrows(w, w);
    } else {
      var w1 := After(cfg, w, events[..|events| - 1]);
      EndsAreEnds(cfg, w, events[..|events| - 1]);
      HappenGrows(cfg, w1, events[|events| - 1]);
      assert OutOk(cfg, Happen(cfg, w1, events[|events| - 1])) by { HappenOk(cfg, w1, events[|events| - 1]); }
      forall r | 0 <= r < |w.recs| ensures Evolves(w.recs[r], After(cfg, w, events).recs[r]) {
        EvolvesTrans(w.recs[r], w1.recs[r], After(cfg, w, events).recs[r]);
      }
    }
  }

  // ---------------------------------------------------------------- never stuck, never two

  /** `_finish` is never refused by the transition table: no run is ever given up as unfinishable. */
  lemma FinishIsNeverBlocked(cfg: Config, events: seq<Event>)
    ensures After(cfg, INITIAL, events).stuck == {}
  {
    hide RecInv, At, TickFits;
    AlwaysLive(cfg, events);
  }

  /** While the process lives, whoever waits for an approval holds the one slot, and no ended run does. */
  lemma ApprovalExclusion(cfg: Config, events: seq<Event>, p: nat, q: nat)
    requires var w := After(cfg, INITIAL, events); !w.tick.Down? && p < |w.recs| && q < |w.recs|
    ensures var w := After(cfg, INITIAL, events);
            && (w.recs[p].run.state.WaitingApproval? ==> w.slot == Some(p))
            && (w.recs[p].run.state.WaitingApproval? && w.recs[q].run.state.WaitingApproval? ==> p == q)
            && (w.slot == Some(p) ==> !w.recs[p].run.state.Terminal())
  {
    hide RecInv, TickFits, CtxFits, Clean, AwaitFits;
    AlwaysLive(cfg, events);
    var w := After(cfg, INITIAL, events);
    assert At(cfg, p, w.recs[p], ContextOf(w, p), w.slot, AwaitOf(w.tick, p));
    assert At(cfg, q, w.recs[q], ContextOf(w, q), w.slot, AwaitOf(w.tick, q));
  }

  /** No account ever shows more planner calls than two per planning event, and the ledger's revisions are capped. */
  lemma PlannerCallsAreCapped(cfg: Config, events: seq<Event>, r: nat)
    requires r in After(cfg, INITIAL, events).contexts
    ensures var w := After(cfg, INITIAL, events);
            && r < |w.recs|
            && w.contexts[r].book.plannerCalls <= 2 * (1 + w.contexts[r].book.revisions)
            && w.contexts[r].book.revisions == w.recs[r].run.revision <= cfg.LimitsOf(w.recs[r].run.scope).maxRevisions
  {
    hide Clean, InStepWithPlan, AwaitFits, RowOk, Unique;
    AlwaysLive(cfg, events);
    var w := After(cfg, INITIAL, events);
    assert !w.tick.Down?;
    assert At(cfg, r, w.recs[r], ContextOf(w, r), w.slot, AwaitOf(w.tick, r));
    assert RecInv(cfg, w.recs[r]);
  }

  /** What the planner's cap looks at, and what no stretch touches before it comes to planning. */
  predicate SameAccount(a: Book, b: Book) {
    a.plannerCalls == b.plannerCalls && a.revisions == b.revisions && a.limits == b.limits
  }

  predicate Capped(seg: Seg) {
    seg.Failing? && seg.error == Exhausted(BudgetExhausted)
  }

  lemma PlanningNeverCapped(l: Local, cfg: Config, snap: Run, stage: Stage)
    requires l.ctx.book.limits.maxRevisions <= MAX_PLAN_REVISIONS
    ensures l.ctx.book.plannerCalls == 0 ==> !Capped(DoPlan(l, cfg, stage))
    ensures l.ctx.book.plannerCalls <= 2 * (l.ctx.book.revisions + 1) ==> !Capped(AgentSteps.Replan(l, cfg, snap, stage))
  {
    hide Finish;
    FinishStopped(l, Failed, SpecialistUnavailable);
    FinishStopped(l, Failed, BudgetExhausted);
    var l1 := l.(ctx := l.ctx.(book := l.ctx.book.(revisions := l.ctx.book.revisions + 1)));
    FinishStopped(Write(l1, l1.rec.(run := l1.rec.run.(revision := snap.revision + 1))), Failed, SpecialistUnavailable);
  }

  lemma FinishStopped(l: Local, s: RunState, category: Category)
    ensures Finish(l, s, category).Stopped?
  {
  }

  /**
   With at most two revisions allowed, the planner cap never ends anything: over every
   history, neither the check before the first call of a planning event (out of PLANNING, or
   from a replan at any point of a step) nor the one before the second ever fires.
   */
  lemma PlannerCapNeverFires(cfg: Config, events: seq<Event>, r: nat, l: Local, snap: Run, stage: Stage,
                             first: PlannerReply, second: PlannerReply)
    requires cfg.research.maxRevisions <= MAX_PLAN_REVISIONS && cfg.build.maxRevisions <= MAX_PLAN_REVISIONS
    requires var w := After(cfg, INITIAL, events);
             && !w.tick.Down? && r < |w.recs| && ContextOf(w, r).Some?
             && SameAccount(l.ctx.book, ContextOf(w, r).value.book)
    ensures var w := After(cfg, INITIAL, events);
            && (w.recs[r].run.state.Planning? ==> AwaitOf(w.tick, r).Planner? || !Capped(DoPlan(l, cfg, stage)))
            && (!AwaitOf(w.tick, r).Planner? ==> !Capped(AgentSteps.Replan(l, cfg, snap, stage)))
            && (AwaitOf(w.tick, r).Planner? ==>
                  && PlanEvent(l.ctx.book, w.recs[r].run.scope, first, second).1 != PlanBad(Exhausted(BudgetExhausted))
                  && PlanEvent(l.ctx.book, w.recs[r].run.scope, first, second).0.plannerCalls <= MAX_PLANNER_CALLS)
  {
    hide Clean, InStepWithPlan, AwaitFits, RowOk, Unique, DoPlan, AgentSteps.Replan, After;
    AlwaysLive(cfg, events);
    var w := After(cfg, INITIAL, events);
    assert At(cfg, r, w.recs[r], ContextOf(w, r), w.slot, AwaitOf(w.tick, r));
    assert RecInv(cfg, w.recs[r]);
    PlanningNeverCapped(l, cfg, snap, stage);
  }
}
