/**
 Where the plan in memory comes from, over every history: the planner has proposed it in full,
 or a specialist has reported the goal met and the rest of the proposal is left off. What is
 asked of a specialist or the router is the step of that plan that is under the cursor.
 */
module AgentPlans {
  import opened Basics
  import opened RunLedger
  import opened RunBudget
  import opened AgentSteps
  import opened AgentInvariant
  import opened AgentRows
  import opened AgentWorld
  import opened AgentSafety
  import opened AgentTheorems
  import opened AgentSettled
  import opened AgentCalls
  import opened AgentSuccess

  /** The plan run r is worked on by, if there is one in memory. */
  function PlanOf(w: World, r: nat): Option<seq<Planned>> {
    var octx := ContextOf(w, r);
    if octx.Some? then octx.value.plan else None
  }

  // ---------------------------------------------------------------- the step under the cursor

  predicate Under(ctx: Ctx, planned: Planned) {
    ctx.plan.Some? && ctx.cursor < |ctx.plan.value| && planned == ctx.plan.value[ctx.cursor]
  }

  /** Whoever is asked for a step is asked for the one under the cursor, and for its kind of step. */
  predicate InHand(octx: Option<Ctx>, aw: Await) {
    match aw
    case Specialist(_, planned, digest) =>
      && octx.Some? && Under(octx.value, planned) && planned.kind == SpecialistStep
      && digest == Digest("specialist", planned.name, planned.text)
    case Asking(_, planned) => octx.Some? && Under(octx.value, planned) && planned.kind == CapabilityStep
    case _ => true
  }

  predicate HandOf(w: World) {
    w.tick.Busy? ==> InHand(ContextOf(w, w.tick.r), w.tick.aw)
  }

  predicate AsksNothing(seg: Seg) { seg.Stopped? ==> !seg.aw.Specialist? && !seg.aw.Asking? }

  predicate HandsOn(seg: Seg) { seg.Stopped? ==> InHand(Some(seg.l.ctx), seg.aw) }

  lemma NothingInHand(seg: Seg)
    requires AsksNothing(seg)
    ensures HandsOn(seg)
  {
  }

  lemma SpecialistInHand(l: Local, snap: Run, planned: Planned, ordinal: nat, attempt: nat)
    requires Under(l.ctx, planned) && planned.kind == SpecialistStep
    ensures HandsOn(RunSpecialist(l, snap, planned, ordinal, attempt))
  {
    hide Taken, PutRow, GuardAttempt;
  }

  lemma RefuseAsksNothing(l: Local, cfg: Config, snap: Run, i: nat, planned: Planned, flaw: string)
    ensures AsksNothing(RefuseInvalid(l, cfg, snap, i, planned, flaw))
  {
    hide MarkRow, Transition, Release, Write;
  }

  lemma CapabilityInHand(l: Local, cfg: Config, snap: Run, planned: Planned, ordinal: nat, attempt: nat, luck: Luck)
    requires Under(l.ctx, planned) && planned.kind == CapabilityStep
    ensures HandsOn(RunCapability(l, cfg, snap, planned, ordinal, attempt, luck))
  {
    hide Taken, PutRow, RefuseInvalid, GuardAttempt;
    forall l2, i { RefuseAsksNothing(l2, cfg, snap, i, planned, luck.flaw); }
  }

  lemma NextInHand(l: Local, cfg: Config, snap: Run, luck: Luck)
    ensures HandsOn(NextPlanned(l, cfg, snap, luck))
  {
    hide RunSpecialist, RunCapability, CreateRow, Transition;
    if l.ctx.plan.Some? && l.ctx.cursor < |l.ctx.plan.value| {
      var planned := l.ctx.plan.value[l.ctx.cursor];
      var ordinal, attempt := l.ctx.cursor + 1, l.ctx.book.revisions + 1;
      match planned.kind {
        case SpecialistStep => SpecialistInHand(l, snap, planned, ordinal, attempt);
        case CapabilityStep => CapabilityInHand(l, cfg, snap, planned, ordinal, attempt, luck);
        case _ =>
      }
    }
  }

  lemma ClosesAsHanded(seg: Seg, stage: Stage)
    requires HandsOn(seg) && !stage.InStep?
    ensures HandsOn(Close(seg, stage))
  {
  }

  lemma StepInHand(l: Local, cfg: Config, snap: Run, luck: Luck)
    ensures HandsOn(NextStep(l, cfg, snap, luck))
  {
    hide NextPlanned, Move, InHand;
    NextInHand(l, cfg, snap, luck);
    NextInHand(Move(l, Running).l, cfg, snap, luck);
  }

  lemma OthersAskNothing(l: Local, cfg: Config, snap: Run, luck: Luck)
    ensures AsksNothing(AdvanceCreated(l, cfg, snap, luck)) && AsksNothing(DoPlan(l, cfg, InPlanning))
    ensures AsksNothing(Verify(l, cfg, luck)) && AsksNothing(Finish(l, Cancelled, CancelledByUser))
  {
    hide CreateRow, Transition, MarkRow, Write, Release;
  }

  /** An advance hands out the step under the cursor, or none. */
  lemma AdvanceInHand(l: Local, cfg: Config, snap: Run, luck: Luck)
    ensures HandsOn(Advance(l, cfg, snap, luck))
  {
    hide AsksNothing, HandsOn, NextStep, Verify, DoPlan, AdvanceCreated, Finish, Close;
    OthersAskNothing(l, cfg, snap, luck);
    StepInHand(l, cfg, snap, luck);
    NothingInHand(Finish(l, Cancelled, CancelledByUser));
    NothingInHand(AdvanceCreated(l, cfg, snap, luck));
    NothingInHand(DoPlan(l, cfg, InPlanning));
    NothingInHand(Verify(l, cfg, luck));
    NothingInHand(Stopped(l, Done));
    ClosesAsHanded(AdvanceCreated(l, cfg, snap, luck), InPlanning);
    ClosesAsHanded(DoPlan(l, cfg, InPlanning), InPlanning);
    ClosesAsHanded(Verify(l, cfg, luck), InPlanning);
    ClosesAsHanded(NextStep(l, cfg, snap, luck), InPlanning);
  }

  // ---------------------------------------------------------------- in the world

  lemma VisitInHand(cfg: Config, w: World, luck: Luck)
    requires Live(cfg, w) && HandOf(w)
    ensures HandOf(VisitHead(cfg, w, luck).w)
  {
    hide Live, InHand, Poll, Advance, Rebuild, Skipped;
    if w.tick.Between? && w.tick.rest != [] && w.tick.rest[0].r < |w.recs| {
      var s := w.tick.rest[0];
      var l := Enter(cfg, w, s.r);
      AdvanceInHand(l, cfg, s.run, luck);
      PollInHand(l);
    }
  }

  lemma PollInHand(l: Local)
    ensures HandsOn(Poll(l))
  {
  }

  lemma ReplyInHand(cfg: Config, w: World, answer: Answer)
    requires Live(cfg, w) && HandOf(w)
    ensures HandOf(ReplyTo(cfg, w, answer).w)
  {
    hide Live, InHand, Follow, Rebuild;
    var t := w.tick;
    if t.Busy? && t.r < |w.recs| && !t.aw.Finishing? {
      var l := if t.lost.Some? then Enter(cfg, w, t.r).(ctx := t.lost.value) else Enter(cfg, w, t.r);
      NeverBack(l, cfg, t.snap, t.aw, answer);
      if Follow(l, cfg, t.snap, t.aw, answer).Some? {
        NothingInHand(Follow(l, cfg, t.snap, t.aw, answer).value);
      }
    }
  }

  /** Who is asked for a step does not notice what happens meanwhile. */
  lemma HandStays(octx: Option<Ctx>, octx': Option<Ctx>, aw: Await)
    requires InHand(octx, aw) && octx'.Some?
    requires octx.Some? ==> octx'.value.plan == octx.value.plan && octx'.value.cursor == octx.value.cursor
    ensures InHand(octx', aw)
  {
  }

  lemma UserInHand(cfg: Config, w: World, q: nat)
    requires Live(cfg, w) && HandOf(w)
    ensures HandOf(CancelRun(cfg, w, q).w) && HandOf(ResumeRun(cfg, w, q).w) && HandOf(DropContext(w, q))
  {
    hide RecInv, At, SnapFits, InHand, Rebuild, Finish, Move;
    if w.tick.Busy? {
      var r := w.tick.r;
      CancelWho(cfg, w, q);
      SameTick(cfg, w, q);
      if ContextOf(CancelRun(cfg, w, q).w, r).Some? {
        HandStays(ContextOf(w, r), ContextOf(CancelRun(cfg, w, q).w, r), w.tick.aw);
      }
      if ContextOf(ResumeRun(cfg, w, q).w, r).Some? {
        HandStays(ContextOf(w, r), ContextOf(ResumeRun(cfg, w, q).w, r), w.tick.aw);
      }
      if ContextOf(DropContext(w, q), r).Some? {
        HandStays(ContextOf(w, r), ContextOf(DropContext(w, q), r), w.tick.aw);
      }
    }
  }

  lemma HappenInHand(cfg: Config, w: World, e: Event)
    requires Live(cfg, w) && HandOf(w)
    ensures HandOf(Apply(cfg, w, e))
  {
    hide InHand, VisitHead, ReplyTo, CancelRun, ResumeRun, DropContext, ReconcileFirst, RecInv, At, SnapFits;
    match e {
      case Visit(luck) => VisitInHand(cfg, w, luck);
      case Reply(answer) => ReplyInHand(cfg, w, answer);
      case Cancel(q) => UserInHand(cfg, w, q);
      case Resume(q) => UserInHand(cfg, w, q);
      case Notified(q) => UserInHand(cfg, w, q);
      case _ =>
    }
  }

  /** In every reachable world, what is asked for is the step of the plan that is under the cursor. */
  lemma {:induction false} AskedIsPlanned(cfg: Config, events: seq<Event>)
    ensures HandOf(After(cfg, INITIAL, events))
  {
    hide HandOf, Happen, Live;
    if events == [] {
      NothingThere();
    } else {
      var n := |events| - 1;
      AskedIsPlanned(cfg, events[..n]);
      AlwaysLive(cfg, events[..n]);
      HappenInHand(cfg, After(cfg, INITIAL, events[..n]), events[n]);
    }
  }

  lemma NothingThere()
    ensures HandOf(INITIAL)
  {
  }

  // ---------------------------------------------------------------- where the plan comes from

  /** What the planner proposes for run r in this event: the plan its answers come to, if they come to one. */
  function ProposedIn(w: World, e: Event, r: nat): Option<seq<Planned>> {
    if e.Reply? && e.answer.FromPlanner? && w.tick.Busy? && w.tick.r == r < |w.recs| && w.tick.aw.Planner?
       && ContextOf(w, r).Some?
    then Proposal(ContextOf(w, r).value.book.plannerCalls, w.recs[r].run.scope, e.answer.first, e.answer.second)
    else None
  }

  /** In this event a specialist reports the goal of run r met, and this is the step it was asked for. */
  function MetIn(w: World, e: Event, r: nat): Option<nat> {
    if w.tick.Busy? && w.tick.r == r < |w.recs| && w.tick.aw.Specialist? && ContextOf(w, r).Some?
       && w.recs[r].run.state == WaitingSpecialist
       && e.Reply? && e.answer.FromSpecialist? && e.answer.said.SpecialistSaid? && e.answer.said.ok && e.answer.said.goalMet
    then Some(ContextOf(w, r).value.cursor)
    else None
  }

  /** The plan behind an event: a new proposal, the first steps of the old one, or the old one. */
  function PlanBehind(w: World, e: Event, r: nat): Option<seq<Planned>> {
    var plan, met := PlanOf(w, r), MetIn(w, e, r);
    if ProposedIn(w, e, r).Some? then ProposedIn(w, e, r)
    else if met.Some? && plan.Some? && met.value < |plan.value| && !ContextOf(w, r).value.goalMet
    then Some(plan.value[..met.value + 1])
    else plan
  }

  lemma EnterPlan(cfg: Config, w: World, r: nat)
    requires r < |w.recs| && (w.tick.Busy? && w.tick.r == r ==> w.tick.lost.None?)
    ensures Enter(cfg, w, r).ctx.plan == PlanOf(w, r)
  {
  }

  lemma VisitPlan(cfg: Config, w: World, luck: Luck, r: nat)
    requires Live(cfg, w)
    ensures PlanOf(VisitHead(cfg, w, luck).w, r) == PlanOf(w, r)
  {
    hide Live, Poll, Advance, Rebuild, Skipped;
    if w.tick.Between? && w.tick.rest != [] && w.tick.rest[0].r < |w.recs| {
      var s := w.tick.rest[0];
      var l := Enter(cfg, w, s.r);
      EnterPlan(cfg, w, s.r);
      PollKeeps(l);
      AdvancePlan(l, cfg, s.run, luck);
    }
  }

  lemma AdvancePlan(l: Local, cfg: Config, snap: Run, luck: Luck)
    requires l.trail == []
    ensures Advance(l, cfg, snap, luck).l.ctx.plan == l.ctx.plan
  {
    hide Advance, Extends;
    AdvanceAdds(l, cfg, snap, luck);
  }

  lemma ContextThere(cfg: Config, w: World)
    requires Live(cfg, w) && w.tick.Busy? && !w.tick.aw.Finishing?
    ensures var t := w.tick;
            t.r < |w.recs| && ContextOf(w, t.r)
                              == Some(if t.lost.Some? then t.lost.value else Enter(cfg, w, t.r).ctx)
            && (t.lost.Some? ==> t.r !in w.contexts)
  {
    hide RecInv, At, SnapFits, Rebuild;
  }

  lemma ReplyPlan(cfg: Config, w: World, answer: Answer, r: nat)
    requires Live(cfg, w) && r < |w.recs|
    ensures var w' := ReplyTo(cfg, w, answer).w;
            ContextOf(w', r).Some? ==> PlanOf(w', r) == PlanBehind(w, Reply(answer), r)
  {
    hide Live, Follow, Rebuild, Settles, Proposal;
    var t := w.tick;
    if t.Busy? && t.r < |w.recs| && !t.aw.Finishing? {
      var l := if t.lost.Some? then Enter(cfg, w, t.r).(ctx := t.lost.value) else Enter(cfg, w, t.r);
      StandsThere(cfg, w);
      ContextThere(cfg, w);
      if Follow(l, cfg, t.snap, t.aw, answer).Some? {
        FollowSettles(l, cfg, t.snap, t.aw, answer);
        NextIsBehind(w, l, answer);
        hide PlanNext, PlanBehind;
      } else {
        Unheard(l, cfg, t.snap, t.aw, answer);
      }
    }
  }

  lemma NextIsBehind(w: World, l: Local, answer: Answer)
    requires w.tick.Busy? && w.tick.r < |w.recs| && l.rec == w.recs[w.tick.r] && ContextOf(w, w.tick.r) == Some(l.ctx)
    ensures PlanNext(l, w.tick.aw, answer) == PlanBehind(w, Reply(answer), w.tick.r)
    ensures forall r :: r != w.tick.r ==> PlanBehind(w, Reply(answer), r) == PlanOf(w, r)
  {
    hide Proposal;
  }

  lemma Unheard(l: Local, cfg: Config, snap: Run, aw: Await, answer: Answer)
    requires Follow(l, cfg, snap, aw, answer).None?
    ensures !(aw.Planner? && answer.FromPlanner?) && !(aw.Specialist? && answer.FromSpecialist?)
  {
  }

  lemma UserPlan(cfg: Config, w: World, q: nat, r: nat)
    requires Live(cfg, w)
    ensures PlanOf(CancelRun(cfg, w, q).w, r) == PlanOf(w, r)
    ensures PlanOf(ResumeRun(cfg, w, q).w, r) == PlanOf(w, r)
    ensures ContextOf(DropContext(w, q), r).Some? ==> PlanOf(DropContext(w, q), r) == PlanOf(w, r)
  {
    hide RecInv, At, SnapFits, Finish, Move;
    SameTick(cfg, w, q);
  }

  /** One event: the plan is the one `PlanBehind` says, or is forgotten with its context. */
  lemma HappenPlans(cfg: Config, w: World, e: Event, r: nat)
    requires Live(cfg, w)
    ensures ContextOf(Apply(cfg, w, e), r).Some? ==> PlanOf(Apply(cfg, w, e), r) == PlanBehind(w, e, r)
    ensures ContextOf(Apply(cfg, w, e), r).None? ==> PlanOf(Apply(cfg, w, e), r).None?
  {
    hide RecInv, At, TickFits, VisitHead, ReplyTo, CancelRun, ResumeRun, DropContext, ReconcileFirst;
    match e {
      case Visit(luck) => VisitPlan(cfg, w, luck, r);
      case Reply(answer) => if r < |w.recs| { ReplyPlan(cfg, w, answer, r); } else { StrangerPlan(cfg, w, answer, r); }
      case Cancel(q) => UserPlan(cfg, w, q, r);
      case Resume(q) => UserPlan(cfg, w, q, r);
      case Notified(q) => UserPlan(cfg, w, q, r);
      case _ =>
    }
  }

  lemma StrangerPlan(cfg: Config, w: World, answer: Answer, r: nat)
    requires Live(cfg, w) && r >= |w.recs|
    ensures ContextOf(ReplyTo(cfg, w, answer).w, r).None?
  {
    hide RecInv, At, SnapFits, Follow, Rebuild;
  }

  /** What the plan policy lets through: one to twelve steps, and a building specialist only for a run that builds. */
  predicate Allowed(plan: seq<Planned>, scope: Scope) {
    && 1 <= |plan| <= 12
    && forall step :: step in plan && step.kind == SpecialistStep && step.builder ==> scope == Build
  }

  lemma PolicyAllows(plan: seq<Planned>, scope: Scope)
    ensures Plannable(plan, scope) <==> Allowed(plan, scope)
  {
    if Allowed(plan, scope) {
      forall i | 0 <= i < |plan| && plan[i].kind.SpecialistStep? && plan[i].builder ensures scope.Build? {
        assert plan[i] in plan;
      }
    }
  }

  lemma ProposalIs(calls: nat, scope: Scope, first: PlannerReply, second: PlannerReply)
    ensures var usable := first.Proposed? && Allowed(first.plan, scope);
            var usable2 := (first.Proposed? || first.Rejected?) && calls + 1 < MAX_PLANNER_CALLS
                           && second.Proposed? && Allowed(second.plan, scope);
            Proposal(calls, scope, first, second)
            == if usable then Some(first.plan) else if usable2 then Some(second.plan) else None
  {
    hide Plannable, Allowed;
    if first.Proposed? {
      PolicyAllows(first.plan, scope);
    }
    if second.Proposed? {
      PolicyAllows(second.plan, scope);
    }
  }

  /**
   The planner has answered: a first reply that passes the policy is the plan, whole; after one
   that missed the schema a second that passes is, if it may still be asked for; the plan begins
   with its first step. After any other answers the old plan stays.
   */
  lemma PlannedAsProposed(cfg: Config, w: World, first: PlannerReply, second: PlannerReply)
    requires Live(cfg, w) && w.tick.Busy? && w.tick.aw.Planner? && w.tick.lost.None?
    ensures var r := w.tick.r;
            && r < |w.recs| && ContextOf(w, r).Some? && ContextOf(Apply(cfg, w, Reply(FromPlanner(first, second))), r).Some?
            && var was, now := ContextOf(w, r).value, ContextOf(Apply(cfg, w, Reply(FromPlanner(first, second))), r).value;
               var scope := w.recs[r].run.scope;
               var usable := first.Proposed? && Allowed(first.plan, scope);
               var usable2 := (first.Proposed? || first.Rejected?) && was.book.plannerCalls + 1 < MAX_PLANNER_CALLS
                              && second.Proposed? && Allowed(second.plan, scope);
               && (usable ==> now.plan == Some(first.plan) && now.cursor == 0)
               && (!usable && usable2 ==> now.plan == Some(second.plan) && now.cursor == 0)
               && (!usable && !usable2 ==> now.plan == was.plan && now.cursor == was.cursor)
  {
    hide Live, PlanBack, Close, Rebuild, Allowed, Follow, Proposal;
    ContextThere(cfg, w);
    var t, l := w.tick, Enter(cfg, w, w.tick.r);
    ProposalIs(l.ctx.book.plannerCalls, l.rec.run.scope, first, second);
    PlanBackKeepsAll(l, first, second);
    ClosesPlan(PlanBack(l, first, second), t.aw.stage);
    PlannerFollows(l, cfg, t.snap, t.aw.stage, first, second);
  }

  lemma PlannerFollows(l: Local, cfg: Config, snap: Run, stage: Stage, first: PlannerReply, second: PlannerReply)
    ensures Follow(l, cfg, snap, Planner(stage), FromPlanner(first, second)) == Some(Close(PlanBack(l, first, second), stage))
  {
    hide PlanBack, Close;
  }

  lemma ClosesPlan(seg: Seg, stage: Stage)
    ensures Close(seg, stage).l.ctx.plan == seg.l.ctx.plan && Close(seg, stage).l.ctx.cursor == seg.l.ctx.cursor
    ensures Close(seg, stage).Stopped?
  {
  }

  // ---------------------------------------------------------------- over a history

  function Proposed(cfg: Config, events: seq<Event>, r: nat, n: nat): Option<seq<Planned>>
    requires n < |events|
  {
    ProposedIn(After(cfg, INITIAL, events[..n]), events[n], r)
  }

  function Met(cfg: Config, events: seq<Event>, r: nat, n: nat): Option<nat>
    requires n < |events|
  {
    MetIn(After(cfg, INITIAL, events[..n]), events[n], r)
  }

  /** Event k is the last in which the planner proposed a plan for run r, and this is the plan. */
  predicate LastProposed(cfg: Config, events: seq<Event>, r: nat, k: nat, q: seq<Planned>) {
    && k < |events| && Proposed(cfg, events, r, k) == Some(q)
    && forall m :: k < m < |events| ==> Proposed(cfg, events, r, m).None?
  }

  /** Event n, behind event k, has left the first c + 1 steps of q: the specialist of step c has met the goal. */
  predicate MetAt(cfg: Config, events: seq<Event>, r: nat, k: nat, q: seq<Planned>, n: nat, c: nat) {
    && k < n < |events| && c < |q| && Met(cfg, events, r, n) == Some(c)
    && After(cfg, INITIAL, events[..n]).tick.aw.planned == q[c]
  }

  lemma Earlier(cfg: Config, events: seq<Event>, r: nat, n: nat)
    requires events != [] && n < |events| - 1
    ensures Proposed(cfg, events, r, n) == Proposed(cfg, events[..|events| - 1], r, n)
    ensures Met(cfg, events, r, n) == Met(cfg, events[..|events| - 1], r, n)
    ensures events[..n] == events[..|events| - 1][..n]
  {
    hide After;
    assert events[..|events| - 1][..n] == events[..n] && events[..|events| - 1][n] == events[n];
  }

  lemma StillLast(cfg: Config, events: seq<Event>, r: nat, k: nat, q: seq<Planned>)
    requires events != [] && LastProposed(cfg, events[..|events| - 1], r, k, q)
    requires Proposed(cfg, events, r, |events| - 1).None?
    ensures LastProposed(cfg, events, r, k, q)
  {
    hide Proposed;
    Earlier(cfg, events, r, k);
    forall m | k < m < |events| ensures Proposed(cfg, events, r, m).None? {
      if m < |events| - 1 {
        Earlier(cfg, events, r, m);
      }
    }
  }

  /**
   Over every history, a plan in memory is the one the planner proposed last, whole, or its
   first steps up to the one whose specialist has reported the goal met since.
   */
  lemma {:induction false} PlanOrigin(cfg: Config, events: seq<Event>, r: nat)
      returns (k: nat, q: seq<Planned>, cut: Option<(nat, nat)>)
    requires PlanOf(After(cfg, INITIAL, events), r).Some?
    ensures LastProposed(cfg, events, r, k, q)
    ensures match cut
            case None => PlanOf(After(cfg, INITIAL, events), r).value == q
            case Some((n, c)) =>
              MetAt(cfg, events, r, k, q, n, c) && PlanOf(After(cfg, INITIAL, events), r).value == q[..c + 1]
  {
    hide Live, Happen, PlanOf, LastProposed, MetAt, ProposedIn, MetIn;
    if events == [] {
      NoPlanYet(r);
    } else {
      var j := |events| - 1;
      var w := After(cfg, INITIAL, events[..j]);
      AlwaysLive(cfg, events[..j]);
      HappenPlans(cfg, w, events[j], r);
      if Proposed(cfg, events, r, j).Some? {
        k, q, cut := j, Proposed(cfg, events, r, j).value, None;
        ProposedNow(cfg, events, r);
      } else {
        k, q, cut := PlanOrigin(cfg, events[..j], r);
        StillLast(cfg, events, r, k, q);
        if PlanBehind(w, events[j], r) == PlanOf(w, r) {
          if cut.Some? {
            StillMet(cfg, events, r, k, q, cut.value.0, cut.value.1);
          }
        } else {
          var c := Met(cfg, events, r, j).value;
          AskedIsPlanned(cfg, events[..j]);
          InTime(cfg, events[..j], r, k, q, cut);
          MetNow(cfg, events, r, k, q, c);
          assert PlanOf(w, r).value[..c + 1] == q[..c + 1];
          cut := Some((j, c));
        }
      }
    }
  }

  lemma InTime(cfg: Config, events: seq<Event>, r: nat, k: nat, q: seq<Planned>, cut: Option<(nat, nat)>)
    requires LastProposed(cfg, events, r, k, q) && (cut.Some? ==> MetAt(cfg, events, r, k, q, cut.value.0, cut.value.1))
    ensures k < |events| && (cut.Some? ==> cut.value.1 < |q|)
  {
    hide After, Met, Proposed;
  }

  lemma NoPlanYet(r: nat)
    ensures PlanOf(INITIAL, r).None?
  {
  }

  lemma ProposedNow(cfg: Config, events: seq<Event>, r: nat)
    requires events != [] && Proposed(cfg, events, r, |events| - 1).Some?
    ensures LastProposed(cfg, events, r, |events| - 1, Proposed(cfg, events, r, |events| - 1).value)
  {
  }

  lemma StillMet(cfg: Config, events: seq<Event>, r: nat, k: nat, q: seq<Planned>, n: nat, c: nat)
    requires events != [] && MetAt(cfg, events[..|events| - 1], r, k, q, n, c)
    ensures MetAt(cfg, events, r, k, q, n, c)
  {
    hide Met, After;
    Earlier(cfg, events, r, n);
  }

  lemma MetNow(cfg: Config, events: seq<Event>, r: nat, k: nat, q: seq<Planned>, c: nat)
    requires events != [] && k < |events| - 1
    requires Met(cfg, events, r, |events| - 1) == Some(c)
    requires HandOf(After(cfg, INITIAL, events[..|events| - 1]))
    requires var plan := PlanOf(After(cfg, INITIAL, events[..|events| - 1]), r);
             plan.Some? && c < |plan.value| <= |q| && plan.value <= q
    ensures MetAt(cfg, events, r, k, q, |events| - 1, c)
  {
    hide After;
  }

  /**
   A run that succeeds while its plan is in memory has done every step of the plan that was
   proposed last, or every step up to the one whose specialist reported the goal met.
   */
  lemma SuccessMeansProposalDone(cfg: Config, events: seq<Event>, e: Event, r: nat)
      returns (k: nat, q: seq<Planned>, cut: Option<(nat, nat)>)
    requires var w := After(cfg, INITIAL, events);
             && r < |w.recs| && r in w.contexts && w.contexts[r].plan.Some?
             && !w.recs[r].run.state.Succeeded?
             && r < |Apply(cfg, w, e).recs| && Apply(cfg, w, e).recs[r].run.state.Succeeded?
    ensures LastProposed(cfg, events, r, k, q)
    ensures match cut
            case None => PlanDone(q, Apply(cfg, After(cfg, INITIAL, events), e).recs[r].rows)
            case Some((n, c)) =>
              MetAt(cfg, events, r, k, q, n, c) && PlanDone(q[..c + 1], Apply(cfg, After(cfg, INITIAL, events), e).recs[r].rows)
  {
    hide Live, Happen, After, LastProposed, MetAt, PlanDone;
    SuccessMeansPlanDone(cfg, events, e, r);
    NotLost(cfg, events, r);
    k, q, cut := PlanOrigin(cfg, events, r);
  }

  lemma NotLost(cfg: Config, events: seq<Event>, r: nat)
    requires r in After(cfg, INITIAL, events).contexts
    ensures ContextOf(After(cfg, INITIAL, events), r) == Some(After(cfg, INITIAL, events).contexts[r])
  {
    hide RecInv, At, SnapFits, After;
    AlwaysLive(cfg, events);
  }

  // ---------------------------------------------------------------- the goal met early

  predicate GoalOf(w: World, r: nat) {
    ContextOf(w, r).Some? && ContextOf(w, r).value.goalMet
  }

  lemma CloseKeepsGoal(seg: Seg, stage: Stage)
    ensures Close(seg, stage).l.ctx.goalMet == seg.l.ctx.goalMet
  {
    hide Transition;
  }

  lemma ReplanKeepsGoal(l: Local, cfg: Config, snap: Run, stage: Stage)
    ensures Replan(l, cfg, snap, stage).l.ctx.goalMet == l.ctx.goalMet
  {
    hide Transition;
  }

  lemma SettleKeepsGoal(l: Local, cfg: Config, snap: Run, i: nat, optional: bool, v: Verdict, stage: Stage)
    ensures Settle(l, cfg, snap, i, optional, v, stage).l.ctx.goalMet == l.ctx.goalMet
  {
    hide Transition, Replan, SetRowState;
    ReplanKeepsGoal(MarkRow(l, i, RowFailed), cfg, snap, stage);
  }

  lemma StepKeepsGoal(l: Local, cfg: Config, snap: Run, planned: Planned, luck: Luck)
    ensures RunPlanned(l, cfg, snap, planned, luck).l.ctx.goalMet == l.ctx.goalMet
  {
    hide Transition, CreateRow, GuardAttempt, PutRow, SetRowState, Replan;
    forall l': Local { ReplanKeepsGoal(l', cfg, snap, InStep); }
  }

  lemma AdvanceKeepsGoal(l: Local, cfg: Config, snap: Run, luck: Luck)
    ensures Advance(l, cfg, snap, luck).l.ctx.goalMet == l.ctx.goalMet
  {
    hide Transition, CreateRow, SetRowState, RunPlanned, Close, AnyUnknown, AllSettledOk;
    forall seg: Seg, stage: Stage { CloseKeepsGoal(seg, stage); }
    forall l': Local, planned: Planned { StepKeepsGoal(l', cfg, snap, planned, luck); }
  }

  /** Behind an await the goal counts as met only if it did, or a specialist at work says so. */
  lemma FollowGoal(l: Local, cfg: Config, snap: Run, aw: Await, answer: Answer)
    requires Standing(l, aw) && Follow(l, cfg, snap, aw, answer).Some?
    ensures Follow(l, cfg, snap, aw, answer).value.l.ctx.goalMet ==>
              l.ctx.goalMet
              || (&& aw.Specialist? && l.rec.run.state == WaitingSpecialist
                  && answer.FromSpecialist? && answer.said.SpecialistSaid? && answer.said.ok && answer.said.goalMet)
  {
    hide Close, PlanBack, SpecialistBack, AskedBack, ReadBack, RedeemedBack;
    forall seg: Seg, stage: Stage { CloseKeepsGoal(seg, stage); }
    match (aw, answer) {
      case (Planner(stage), FromPlanner(first, second)) => PlanBackKeepsGoal(l, first, second);
      case (Specialist(i, planned, digest), FromSpecialist(said)) => SpecialistGoal(l, cfg, snap, i, planned, digest, said);
      case (Asking(i, planned), FromRouter(reply)) => RouterKeepsGoal(l, cfg, snap, i, planned, reply);
      case (Reading(i), FromApproval(told)) => ReadKeepsGoal(l, cfg, i, told);
      case (Redeeming(i), FromRouter(reply)) => RedeemedKeepsGoal(l, cfg, snap, i, reply);
      case _ =>
    }
  }

  lemma PlanBackKeepsGoal(l: Local, first: PlannerReply, second: PlannerReply)
    ensures PlanBack(l, first, second).l.ctx.goalMet == l.ctx.goalMet
  {
  }

  lemma SpecialistGoal(l: Local, cfg: Config, snap: Run, i: nat, planned: Planned, digest: Digest, said: SpecialistReply)
    requires l.rec.run.state == WaitingSpecialist || l.rec.run.state.Terminal()
    ensures SpecialistBack(l, cfg, snap, i, planned, digest, said).l.ctx.goalMet ==>
              l.ctx.goalMet || (l.rec.run.state == WaitingSpecialist && said.SpecialistSaid? && said.ok && said.goalMet)
  {
    hide AfterSpecialist;
    if said.SpecialistSaid? {
      forall l': Local { AfterGoal(l', cfg, snap, planned, digest, said); }
    }
  }

  lemma AfterGoal(l: Local, cfg: Config, snap: Run, planned: Planned, digest: Digest, said: SpecialistReply)
    requires said.SpecialistSaid?
    ensures AfterSpecialist(l, cfg, snap, planned, digest, said).l.ctx.goalMet ==> l.ctx.goalMet || (said.ok && said.goalMet)
  {
    hide Replan, Finish;
    forall l': Local { ReplanKeepsGoal(l', cfg, snap, InStep); }
    forall l': Local { FinishKeepsGoal(l', Failed, Quota); }
  }

  lemma FinishKeepsGoal(l: Local, s: RunState, category: Category)
    ensures Finish(l, s, category).l.ctx.goalMet == l.ctx.goalMet
  {
  }

  lemma RouterKeepsGoal(l: Local, cfg: Config, snap: Run, i: nat, planned: Planned, reply: RouterReply)
    ensures AskedBack(l, cfg, snap, i, planned, reply).l.ctx.goalMet == l.ctx.goalMet
  {
    hide Settle, SetRowState, PutRow, Transition;
    if reply.Answered? {
      SettleKeepsGoal(Release(l), cfg, snap, i, planned.optional, reply.verdict, InStep);
    }
  }

  lemma ReadKeepsGoal(l: Local, cfg: Config, i: nat, told: ApprovalReading)
    ensures ReadBack(l, cfg, i, told).l.ctx.goalMet == l.ctx.goalMet
  {
    hide SetRowState, PutRow, Transition;
  }

  lemma RedeemedKeepsGoal(l: Local, cfg: Config, snap: Run, i: nat, reply: RouterReply)
    ensures RedeemedBack(l, cfg, snap, i, reply).l.ctx.goalMet == l.ctx.goalMet
  {
    hide Settle, Close, PutRow, Transition;
    forall seg: Seg, stage: Stage { CloseKeepsGoal(seg, stage); }
    forall l': Local, optional: bool, v: Verdict { SettleKeepsGoal(l', cfg, snap, i, optional, v, InPoll); }
  }

  lemma VisitGoal(cfg: Config, w: World, luck: Luck, r: nat)
    requires Live(cfg, w)
    ensures GoalOf(VisitHead(cfg, w, luck).w, r) ==> GoalOf(w, r)
  {
    hide Live, Poll, Advance, Skipped;
    if w.tick.Between? && w.tick.rest != [] && w.tick.rest[0].r < |w.recs| {
      var s := w.tick.rest[0];
      var l := Enter(cfg, w, s.r);
      PollKeepsGoal(l);
      AdvanceKeepsGoal(l, cfg, s.run, luck);
    }
  }

  lemma PollKeepsGoal(l: Local)
    ensures Poll(l).l.ctx.goalMet == l.ctx.goalMet
  {
  }

  lemma ReplyGoal(cfg: Config, w: World, answer: Answer, r: nat)
    requires Live(cfg, w)
    ensures GoalOf(ReplyTo(cfg, w, answer).w, r) ==> GoalOf(w, r) || MetIn(w, Reply(answer), r).Some?
  {
    hide Live, Follow;
    var t := w.tick;
    if t.Busy? && t.r < |w.recs| && !t.aw.Finishing? {
      var l := if t.lost.Some? then Enter(cfg, w, t.r).(ctx := t.lost.value) else Enter(cfg, w, t.r);
      StandsThere(cfg, w);
      ContextThere(cfg, w);
      if Follow(l, cfg, t.snap, t.aw, answer).Some? {
        FollowGoal(l, cfg, t.snap, t.aw, answer);
      }
    }
  }

  lemma UserGoal(cfg: Config, w: World, q: nat, r: nat)
    requires Live(cfg, w)
    ensures GoalOf(CancelRun(cfg, w, q).w, r) || GoalOf(ResumeRun(cfg, w, q).w, r) || GoalOf(DropContext(w, q), r) ==>
              GoalOf(w, r)
  {
    hide RecInv, At, SnapFits, Finish, Move;
    SameTick(cfg, w, q);
  }

  lemma HappenGoal(cfg: Config, w: World, e: Event, r: nat)
    requires Live(cfg, w)
    ensures GoalOf(Apply(cfg, w, e), r) ==> GoalOf(w, r) || MetIn(w, e, r).Some?
  {
    hide RecInv, At, TickFits, VisitHead, ReplyTo, CancelRun, ResumeRun, DropContext, ReconcileFirst;
    match e {
      case Visit(luck) => VisitGoal(cfg, w, luck, r);
      case Reply(answer) => ReplyGoal(cfg, w, answer, r);
      case Cancel(q) => UserGoal(cfg, w, q, r);
      case Resume(q) => UserGoal(cfg, w, q, r);
      case Notified(q) => UserGoal(cfg, w, q, r);
      case _ =>
    }
  }

  /** The goal of a run counts as met only once a specialist of the run has said so. */
  lemma {:induction false} GoalIsHeard(cfg: Config, events: seq<Event>, r: nat) returns (n: nat)
    requires GoalOf(After(cfg, INITIAL, events), r)
    ensures n < |events| && Met(cfg, events, r, n).Some?
  {
    hide Live, Happen, GoalOf, MetIn;
    if events == [] {
      NoGoalYet(r);
    } else {
      var j := |events| - 1;
      AlwaysLive(cfg, events[..j]);
      HappenGoal(cfg, After(cfg, INITIAL, events[..j]), events[j], r);
      if Met(cfg, events, r, j).Some? {
        n := j;
      } else {
        n := GoalIsHeard(cfg, events[..j], r);
        Earlier(cfg, events, r, n);
      }
    }
  }

  lemma NoGoalYet(r: nat)
    ensures !GoalOf(INITIAL, r)
  {
  }

  /**
   The first time a specialist of a run reports the goal met, the plan is left off behind its
   step, which is the one under the cursor.
   */
  lemma FirstMetLeavesOff(cfg: Config, events: seq<Event>, e: Event, r: nat, c: nat)
    requires MetIn(After(cfg, INITIAL, events), e, r) == Some(c)
    requires forall n: nat :: n < |events| ==> Met(cfg, events, r, n).None?
    ensures var w := After(cfg, INITIAL, events);
            && PlanOf(w, r).Some? && c < |PlanOf(w, r).value| && w.tick.aw.planned == PlanOf(w, r).value[c]
            && PlanOf(Apply(cfg, w, e), r) == Some(PlanOf(w, r).value[..c + 1])
  {
    var w := After(cfg, INITIAL, events);
    hide After, Live, Follow, Met;
    AlwaysLive(cfg, events);
    AskedIsPlanned(cfg, events);
    if GoalOf(w, r) {
      var n := GoalIsHeard(cfg, events, r);
      assert false;
    }
    HappenPlans(cfg, w, e, r);
    StillThere(cfg, w, e, r);
  }

  lemma StillThere(cfg: Config, w: World, e: Event, r: nat)
    requires Live(cfg, w) && MetIn(w, e, r).Some?
    ensures ContextOf(Apply(cfg, w, e), r).Some?
  {
    hide RecInv, At, SnapFits, Rebuild;
    var t := w.tick;
    assert t.lost.None?;
    hide Live, Shape, TickFits, Follow;
    Hears(Enter(cfg, w, r), cfg, t.snap, t.aw, e.answer);
  }

  lemma Hears(l: Local, cfg: Config, snap: Run, aw: Await, answer: Answer)
    requires aw.Specialist? && answer.FromSpecialist?
    ensures Follow(l, cfg, snap, aw, answer).Some?
  {
    hide SpecialistBack, Close;
  }
}
