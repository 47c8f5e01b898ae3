/**
 What an answer, or a turn of the tick, means for its run: the run row, the context and what is
 awaited next, said by outcomes. The stretches themselves are cut where the code awaits; here
 a run either goes on, is planned again, is handed to its user, or has ended for a reason.
 */
module AgentEndings {
  import opened Basics
  import opened RunLedger
  import opened RunBudget
  import opened AgentSteps
  import opened AgentRows

  /** Where a run stands: its row in the ledger, its context, and what it awaits. */
  datatype Stand = Stand(run: Run, ctx: Ctx, aw: Await)

  function Now(l: Local): Stand { Stand(l.rec.run, l.ctx, Done) }

  function StandOf(seg: Seg): Stand
    requires seg.Stopped?
  {
    Stand(seg.l.rec.run, seg.l.ctx, seg.aw)
  }

  function InState(now: Stand, s: RunState): Stand { now.(run := now.run.(state := s)) }

  function With(now: Stand, book: Book): Stand { now.(ctx := now.ctx.(book := book)) }

  function Ended(now: Stand, reason: Category): Stand {
    Stand(now.run.(state := Failed, failure := reason), now.ctx, Finishing)
  }

  /** The stretch is over; inside a step, the step counts. */
  function Counted(now: Stand, stage: Stage): Stand {
    var book := now.ctx.book;
    (if stage.InStep? then With(now, book.(steps := book.steps + 1)) else now).(aw := Done)
  }

  /** On to the next step. */
  function On(now: Stand, stage: Stage): Stand {
    Counted(now.(ctx := now.ctx.(cursor := now.ctx.cursor + 1)), stage)
  }

  function AtBoundary(now: Stand, stage: Stage): Stand {
    Stand(now.run.(boundary := true, state := WaitingUser), now.ctx, Boundary(stage))
  }

  function Worthless(now: Stand, d: Digest): Stand { With(now, NoteLowValue(now.ctx.book, d)) }

  /**
   A step that failed and is not optional: planned again, as one more revision, unless these are
   used up, there is no planner, or it may not be called any more (a poll raises then).
   */
  function AgainOr(cfg: Config, now: Stand, snap: Run, stage: Stage): Stand {
    var book := now.ctx.book;
    var again := Stand(now.run.(revision := snap.revision + 1), now.ctx.(book := book.(revisions := book.revisions + 1)),
                       Planner(stage));
    if book.revisions >= book.limits.maxRevisions then Ended(now, BudgetExhausted)
    else if !cfg.planner then Ended(again, SpecialistUnavailable)
    else if book.plannerCalls < MAX_PLANNER_CALLS then again
    else if stage.InPoll? then again.(aw := Thrown)
    else Ended(again, BudgetExhausted)
  }

  /** What the outcome of a capability makes of a run that is RUNNING. */
  function OutcomeOf(cfg: Config, now: Stand, snap: Run, optional: bool, v: Verdict, stage: Stage): Stand {
    match v
    case Did => On(now, stage)
    case Denial => if optional then On(now, stage) else Ended(now, ApprovalDenied)
    case Uncertain => Ended(now, RecoveryRequired)
    case PolicyFailure => AtBoundary(now, stage)
    case _ => if optional then On(now, stage) else AgainOr(cfg, now, snap, stage)
  }

  /** Why a planning event ends without a plan. */
  function NoPlan(calls: nat, first: PlannerReply, second: PlannerReply): Category {
    match first
    case Unavailable => PlanInvalid
    case CallRaised => CapabilityFailed
    case _ =>
      if calls + 1 >= MAX_PLANNER_CALLS then BudgetExhausted
      else if second.CallRaised? then CapabilityFailed
      else PlanInvalid
  }

  /** The planner calls that count: none that raised, and a second one only after a reply that missed the schema. */
  function Calls(calls: nat, scope: Scope, first: PlannerReply, second: PlannerReply): nat {
    if first.CallRaised? then 0
    else if first.Unavailable? || (first.Proposed? && Plannable(first.plan, scope))
            || calls + 1 >= MAX_PLANNER_CALLS || second.CallRaised? then 1
    else 2
  }

  /** A context whose plan ends with the step under the cursor, if the goal has been met for the first time. */
  function Cut(ctx: Ctx, met: bool): Ctx {
    if met && !ctx.goalMet && ctx.plan.Some? && ctx.cursor < |ctx.plan.value|
    then ctx.(plan := Some(ctx.plan.value[..ctx.cursor + 1]), goalMet := true) else ctx
  }

  /** Is the step that a row belongs to optional in the plan in memory? */
  predicate OptionalStep(ctx: Ctx, ordinal: nat) {
    var k := if ordinal == 0 then 0 else ordinal - 1;
    ctx.plan.Some? && k < |ctx.plan.value| && ctx.plan.value[k].optional
  }

  function Charged(now: Stand, first: PlannerReply, second: PlannerReply): Stand {
    var book := now.ctx.book;
    With(now, book.(plannerCalls := book.plannerCalls + Calls(book.plannerCalls, now.run.scope, first, second)))
  }

  /** The planner has answered: the plan from its first step, or why there is none. */
  function Heard(now: Stand, stage: Stage, first: PlannerReply, second: PlannerReply): Stand {
    var calls, heard := now.ctx.book.plannerCalls, Charged(now, first, second);
    var plan := Proposal(calls, now.run.scope, first, second);
    if plan.Some? then Counted(InState(heard.(ctx := heard.ctx.(plan := plan, cursor := 0)), Running), stage)
    else if stage.InPoll? then heard.(aw := Thrown)
    else Ended(heard, NoPlan(calls, first, second))
  }

  function Reported(cfg: Config, now: Stand, snap: Run, planned: Planned, digest: Digest, said: SpecialistReply): Stand {
    var book := now.ctx.book;
    var heard := InState(With(now, book.(specialists := book.specialists + 1)), Running);
    match said
    case SpecialistRaised => Ended(now, CapabilityFailed)
    case SpecialistSaid(ok, quota, usable, goalMet) =>
      if ok then
        var kept := if usable then heard else Worthless(heard, digest);
        On(kept.(ctx := Cut(kept.ctx, goalMet)), InStep)
      else if quota then Ended(heard, Quota)
      else if planned.optional then On(Worthless(heard, digest), InStep)
      else AgainOr(cfg, Worthless(heard, digest), snap, InStep)
  }

  function ReadOut(cfg: Config, now: Stand, row: Row, i: nat, told: ApprovalReading): Stand {
    var readable := cfg.control && row.approval.Some?;
    if readable && told == ReadPending then now
    else if readable && told == ReadApproved then now.(aw := Redeeming(i))
    else if readable && told == ReadDenied then Ended(now, ApprovalDenied)
    else if now.ctx.approvals >= 3 then AtBoundary(now, InPoll)
    else InState(now, Running)
  }

  /** Where an answer leaves its run, if it has not ended before. */
  function Decided(cfg: Config, l: Local, snap: Run, aw: Await, answer: Answer): Stand
    requires About(aw).Some? ==> About(aw).value < |l.rec.rows|
  {
    var now := Now(l);
    match (aw, answer)
    case (Planner(stage), FromPlanner(first, second)) => Heard(now, stage, first, second)
    case (Specialist(_, planned, digest), FromSpecialist(said)) => Reported(cfg, now, snap, planned, digest, said)
    case (Asking(i, planned), FromRouter(reply)) =>
      (match reply
       case RouterRaised => Ended(now, CapabilityFailed)
       case Answered(v, _) =>
         if v == NeedsApproval
         then Counted(InState(now.(ctx := l.ctx.(pending := Some(i), approvals := l.ctx.approvals + 1)), WaitingApproval), InStep)
         else OutcomeOf(cfg, now, snap, planned.optional, v, InStep))
    case (Reading(i), FromApproval(told)) => ReadOut(cfg, now, l.rec.rows[i], i, told)
    case (Redeeming(i), FromRouter(reply)) =>
      (match reply
       case RouterRaised => now.(aw := Thrown)
       case Answered(v, _) =>
         OutcomeOf(cfg, InState(now, Running), snap, OptionalStep(l.ctx, l.rec.rows[i].ordinal), v, InPoll))
    case (Boundary(stage), FromNotice) => Counted(now, stage)
    case _ => now
  }

  /** The run stands where its await says. */
  predicate InPlace(l: Local, aw: Await) {
    && Standing(l, aw)
    && match aw
       case Planner(stage) => if stage.InPlanning? then l.rec.run.state == Planning else l.rec.run.state == Running
       case Specialist(_, _, _) => l.rec.run.state == WaitingSpecialist
       case Asking(_, _) => l.rec.run.state == Running
       case Reading(_) => l.rec.run.state == WaitingApproval
       case Redeeming(_) => l.rec.run.state == WaitingApproval
       case _ => true
  }

  lemma FinishFails(l: Local, c: Category)
    requires !l.rec.run.state.Terminal() && !c.NoCategory?
    ensures Finish(l, Failed, c).Stopped? && StandOf(Finish(l, Failed, c)) == Ended(Now(l), c)
  {
    EveryoneCanEnd(l.rec, c);
  }

  lemma CloseFails(seg: Seg, stage: Stage)
    requires seg.Failing? && !seg.l.rec.run.state.Terminal() && !CategoryOf(seg.error).NoCategory?
    ensures Close(seg, stage).Stopped?
    ensures StandOf(Close(seg, stage))
            == if stage.InPoll? then Now(seg.l).(aw := Thrown) else Ended(Now(seg.l), CategoryOf(seg.error))
  {
    FinishFails(seg.l, CategoryOf(seg.error));
  }

  lemma CloseStays(seg: Seg, stage: Stage)
    requires seg.Stopped?
    ensures Close(seg, stage).Stopped? && Close(seg, stage).l.rec == seg.l.rec
    ensures StandOf(Close(seg, stage)) == if seg.aw.Done? then Counted(Now(seg.l), stage) else StandOf(seg)
  {
  }

  lemma ReplanEnds(l: Local, cfg: Config, snap: Run, stage: Stage)
    requires l.rec.run.state == Running
    ensures Close(Replan(l, cfg, snap, stage), stage).Stopped?
    ensures StandOf(Close(Replan(l, cfg, snap, stage), stage)) == AgainOr(cfg, Now(l), snap, stage)
  {
    hide Finish, Close;
    FinishFails(l, BudgetExhausted);
    var l1 := l.(ctx := l.ctx.(book := l.ctx.book.(revisions := l.ctx.book.revisions + 1)));
    var l2 := Write(l1, l1.rec.(run := l1.rec.run.(revision := snap.revision + 1)));
    FinishFails(l2, SpecialistUnavailable);
    var seg := Replan(l, cfg, snap, stage);
    if seg.Stopped? {
      CloseStays(seg, stage);
    } else {
      CloseFails(seg, stage);
    }
  }

  lemma SettleEnds(l: Local, cfg: Config, snap: Run, i: nat, optional: bool, v: Verdict, stage: Stage)
    requires l.rec.run.state == Running
    ensures var seg := Close(Settle(l, cfg, snap, i, optional, v, stage), stage);
            seg.Stopped? && StandOf(seg) == OutcomeOf(cfg, Now(l), snap, optional, v, stage)
  {
    var l1 := MarkRow(l, i, StateFor(v));
    assert l1.rec.run == l.rec.run && l1.ctx == l.ctx;
    hide Finish, Close, Replan, MarkRow, AgainOr;
    FinishFails(l1, ApprovalDenied);
    FinishFails(l1, RecoveryRequired);
    ReplanEnds(l1, cfg, snap, stage);
    var seg := Settle(l, cfg, snap, i, optional, v, stage);
    assert v in {Did, Denial, Uncertain, PolicyFailure} ==> seg.Stopped?;
    if seg.Stopped? {
      CloseStays(seg, stage);
    }
  }

  lemma PlanBackIs(l: Local, first: PlannerReply, second: PlannerReply)
    requires l.rec.run.state in {Planning, Running}
    ensures var seg, plan := PlanBack(l, first, second), Proposal(l.ctx.book.plannerCalls, l.rec.run.scope, first, second);
            var heard := Charged(Now(l), first, second);
            if plan.Some? then
              && seg.Stopped? && seg.aw == Done
              && Now(seg.l) == InState(heard.(ctx := heard.ctx.(plan := plan, cursor := 0)), Running)
            else
              && seg.Failing? && Now(seg.l) == heard
              && CategoryOf(seg.error) == NoPlan(l.ctx.book.plannerCalls, first, second) != NoCategory
  {
    hide Plannable;
  }

  lemma PlannerEnds(l: Local, cfg: Config, snap: Run, stage: Stage, first: PlannerReply, second: PlannerReply)
    requires InPlace(l, Planner(stage))
    ensures var seg := Close(PlanBack(l, first, second), stage);
            seg.Stopped? && StandOf(seg) == Decided(cfg, l, snap, Planner(stage), FromPlanner(first, second))
  {
    var seg := PlanBack(l, first, second);
    PlanBackIs(l, first, second);
    hide Close, PlanBack, Proposal, Charged, NoPlan;
    if Proposal(l.ctx.book.plannerCalls, l.rec.run.scope, first, second).Some? {
      CloseStays(seg, stage);
    } else {
      CloseFails(seg, stage);
    }
  }

  lemma SpecialistEnds(l: Local, cfg: Config, snap: Run, i: nat, planned: Planned, digest: Digest, said: SpecialistReply)
    requires InPlace(l, Specialist(i, planned, digest))
    ensures var seg := Close(SpecialistBack(l, cfg, snap, i, planned, digest, said), InStep);
            seg.Stopped? && StandOf(seg) == Decided(cfg, l, snap, Specialist(i, planned, digest), FromSpecialist(said))
  {
    var seg := SpecialistBack(l, cfg, snap, i, planned, digest, said);
    hide On, AgainOr, Cut, Worthless, Close;
    if said.SpecialistRaised? {
      CloseFails(seg, InStep);
    } else {
      var l2 := AgentRows.Told(l, i, said);
      ToldIs(l, cfg, snap, i, planned, digest, said);
      var l3 := Move(l2, Running).l;
      assert Move(l2, Running).Stopped? && l3.rec.run == l.rec.run.(state := Running);
      assert l3.ctx == l.ctx.(book := l.ctx.book.(specialists := l.ctx.book.specialists + 1));
      assert seg == AfterSpecialist(l3, cfg, snap, planned, digest, said) by { hide AfterSpecialist; }
      hide Move, AgentRows.Told, SpecialistBack;
      AfterEnds(l3, cfg, snap, planned, digest, said);
    }
  }

  lemma AfterEnds(l: Local, cfg: Config, snap: Run, planned: Planned, digest: Digest, said: SpecialistReply)
    requires l.rec.run.state == Running && said.SpecialistSaid?
    ensures var seg := Close(AfterSpecialist(l, cfg, snap, planned, digest, said), InStep);
            && seg.Stopped?
            && StandOf(seg)
               == if said.ok then
                    var kept := if said.usable then Now(l) else Worthless(Now(l), digest);
                    On(kept.(ctx := Cut(kept.ctx, said.goalMet)), InStep)
                  else if said.quota then Ended(Now(l), Quota)
                  else if planned.optional then On(Worthless(Now(l), digest), InStep)
                  else AgainOr(cfg, Worthless(Now(l), digest), snap, InStep)
  {
    hide Finish, Close, Replan, AgainOr, NoteLowValue;
    FinishFails(l, Quota);
    var l1 := l.(ctx := l.ctx.(book := NoteLowValue(l.ctx.book, digest)));
    ReplanEnds(l1, cfg, snap, InStep);
    var seg := AfterSpecialist(l, cfg, snap, planned, digest, said);
    if said.ok || said.quota || planned.optional {
      CloseStays(seg, InStep);
    }
  }

  lemma AskedEnds(l: Local, cfg: Config, snap: Run, i: nat, planned: Planned, reply: RouterReply)
    requires InPlace(l, Asking(i, planned))
    ensures var seg := Close(AskedBack(l, cfg, snap, i, planned, reply), InStep);
            seg.Stopped? && StandOf(seg) == Decided(cfg, l, snap, Asking(i, planned), FromRouter(reply))
  {
    var seg := AskedBack(l, cfg, snap, i, planned, reply);
    hide Close, OutcomeOf;
    if reply.RouterRaised? {
      CloseFails(seg, InStep);
    } else if reply.verdict.NeedsApproval? {
      CloseStays(seg, InStep);
    } else {
      assert Release(l).rec == l.rec && Release(l).ctx == l.ctx;
      hide Settle, Release;
      SettleEnds(Release(l), cfg, snap, i, planned.optional, reply.verdict, InStep);
    }
  }

  lemma MovesOn(l: Local)
    requires l.rec.run.state == WaitingApproval
    ensures Move(Release(l), Running).Stopped?
    ensures var l1 := Move(Release(l), Running).l; l1.rec == l.rec.(run := l.rec.run.(state := Running)) && l1.ctx == l.ctx
  {
  }

  lemma DeniedEnds(l: Local, cfg: Config, i: nat)
    requires l.rec.run.state == WaitingApproval && i < |l.rec.rows|
    ensures var moved := Move(MarkRow(Release(l), i, RowDenied), Running);
            && moved.Stopped? && Finish(moved.l, Failed, ApprovalDenied).Stopped?
            && StandOf(Finish(moved.l, Failed, ApprovalDenied)) == Ended(Now(l), ApprovalDenied)
  {
    var l2 := Move(MarkRow(Release(l), i, RowDenied), Running).l;
    assert Move(MarkRow(Release(l), i, RowDenied), Running).Stopped?;
    assert l2.rec.run == l.rec.run.(state := Running) && l2.ctx == l.ctx;
    hide Finish, Move, MarkRow, Release;
    FinishFails(l2, ApprovalDenied);
  }

  lemma ReadEnds(l: Local, cfg: Config, snap: Run, i: nat, told: ApprovalReading)
    requires InPlace(l, Reading(i))
    ensures ReadBack(l, cfg, i, told).Stopped?
    ensures StandOf(ReadBack(l, cfg, i, told)) == Decided(cfg, l, snap, Reading(i), FromApproval(told))
  {
    if cfg.control && l.rec.rows[i].approval.Some? && told != ReadLapsed {
      DeniedEnds(l, cfg, i);
      LastMarked(l, i, RowDenied);
      hide Finish, Move, MarkRow, Release, OpenBoundary, Close, PutRow, AtBoundary;
    } else {
      LapsedEnds(l, cfg, i, told);
      hide ReadBack, AtBoundary;
    }
  }

  lemma LapsedEnds(l: Local, cfg: Config, i: nat, told: ApprovalReading)
    requires InPlace(l, Reading(i)) && (!cfg.control || l.rec.rows[i].approval.None? || told == ReadLapsed)
    ensures ReadBack(l, cfg, i, told).Stopped?
    ensures StandOf(ReadBack(l, cfg, i, told))
            == if l.ctx.approvals >= 3 then AtBoundary(Now(l), InPoll) else InState(Now(l), Running)
  {
    MovesOn(l);
    hide Move, MarkRow, Release, OpenBoundary, Close, PutRow;
    if l.ctx.approvals >= 3 {
      BoundaryEnds(Move(Release(l), Running).l);
    }
  }

  lemma BoundaryEnds(l: Local)
    requires l.rec.run.state == Running
    ensures Close(OpenBoundary(l, InPoll), InPoll).Stopped?
    ensures StandOf(Close(OpenBoundary(l, InPoll), InPoll)) == AtBoundary(Now(l), InPoll)
  {
  }

  lemma RedeemedEnds(l: Local, cfg: Config, snap: Run, i: nat, reply: RouterReply)
    requires InPlace(l, Redeeming(i))
    ensures RedeemedBack(l, cfg, snap, i, reply).Stopped?
    ensures StandOf(RedeemedBack(l, cfg, snap, i, reply)) == Decided(cfg, l, snap, Redeeming(i), FromRouter(reply))
  {
    if reply.Answered? {
      var l1 := Move(Release(l), Running).l;
      MovesOn(l);
      assert OptionalFor(l1.ctx, l1.rec.rows[i]) == OptionalStep(l.ctx, l.rec.rows[i].ordinal);
      hide Settle, Close, Move, OptionalFor, OptionalStep, Release, OutcomeOf;
      SettleEnds(l1, cfg, snap, i, OptionalStep(l.ctx, l.rec.rows[i].ordinal), reply.verdict, InPoll);
    }
  }

  /** Behind every await of an open run: run row, context, and what is awaited next. */
  lemma FollowEnds(l: Local, cfg: Config, snap: Run, aw: Await, answer: Answer)
    requires InPlace(l, aw) && Follow(l, cfg, snap, aw, answer).Some?
    ensures var seg := Follow(l, cfg, snap, aw, answer).value;
            seg.Stopped? && StandOf(seg) == Decided(cfg, l, snap, aw, answer)
  {
    hide PlanBack, SpecialistBack, AskedBack, ReadBack, RedeemedBack, Close, Decided;
    match (aw, answer) {
      case (Planner(stage), FromPlanner(first, second)) => PlannerEnds(l, cfg, snap, stage, first, second);
      case (Specialist(i, planned, digest), FromSpecialist(said)) => SpecialistEnds(l, cfg, snap, i, planned, digest, said);
      case (Asking(i, planned), FromRouter(reply)) => AskedEnds(l, cfg, snap, i, planned, reply);
      case (Reading(i), FromApproval(told)) => ReadEnds(l, cfg, snap, i, told);
      case (Redeeming(i), FromRouter(reply)) => RedeemedEnds(l, cfg, snap, i, reply);
      case (Boundary(stage), FromNotice) => NoticeEnds(l, cfg, snap, stage);
      case _ =>
    }
  }

  lemma NoticeEnds(l: Local, cfg: Config, snap: Run, stage: Stage)
    ensures Close(Stopped(l, Done), stage).Stopped?
    ensures StandOf(Close(Stopped(l, Done), stage)) == Decided(cfg, l, snap, Boundary(stage), FromNotice)
  {
  }

  // ---------------------------------------------------------------- an advance

  /** What the loop brake says about a digest. */
  function Brake(b: Book, d: Digest): Category {
    if Count(b.attempts, d) + Count(b.lowValue, d) >= 2 then LoopDetected
    else if Count(b.attempts, d) >= b.limits.maxAttempts then BudgetExhausted
    else NoCategory
  }

  function Tried(now: Stand, d: Digest): Stand {
    With(now, now.ctx.book.(attempts := Bump(now.ctx.book.attempts, d)))
  }

  /** Where a planned step leaves its run: behind each check the reason it fails for, in the order they are made. */
  function Stepped(cfg: Config, l: Local, snap: Run, planned: Planned, luck: Luck): Stand {
    var now, book := InState(Now(l), Running), l.ctx.book;
    var taken := Taken(l.rec, l.ctx.cursor + 1, book.revisions + 1);
    match planned.kind
    case SpecialistStep =>
      var d := Digest("specialist", planned.name, planned.text);
      var tried := Tried(now, d);
      if book.specialists >= book.limits.maxSpecialists then Ended(now, BudgetExhausted)
      else if Brake(book, d) != NoCategory then Ended(now, Brake(book, d))
      else if planned.builder && l.rec.run.scope != Build then Ended(tried, PlanInvalid)
      else if taken then Ended(tried, CapabilityFailed)
      else if planned.needsWorkspace && !snap.workspace then Ended(tried, PlanInvalid)
      else InState(tried, WaitingSpecialist).(aw := Specialist(|l.rec.rows|, planned, d))
    case CapabilityStep =>
      var d := Digest("capability", planned.name, planned.text);
      var tried := Tried(now, d);
      if !cfg.router then Ended(now, PlanInvalid)
      else if Brake(book, d) != NoCategory then Ended(now, Brake(book, d))
      else if taken then Ended(tried, CapabilityFailed)
      else if luck.flaw == "" then
        if l.slot.Some? && l.slot != Some(l.me) then Counted(tried, InStep) else tried.(aw := Asking(|l.rec.rows|, planned))
      else Flawed(cfg, tried, snap, planned, luck.flaw)
    case ProposalStep => if taken || !luck.fileOk then Ended(now, CapabilityFailed) else On(now, InStep)
    case VerifyStep => if taken then Ended(now, CapabilityFailed) else On(now, InStep)
  }

  /** A call whose arguments are missing is not made; the same flaw twice ends the run. */
  function Flawed(cfg: Config, now: Stand, snap: Run, planned: Planned, flaw: string): Stand {
    var noted := now.(ctx := now.ctx.(invalid := now.ctx.invalid + {(planned.name, flaw)}));
    if (planned.name, flaw) in now.ctx.invalid then Ended(noted, PlannerInvalidStep)
    else if planned.optional then On(noted, InStep)
    else AgainOr(cfg, noted, snap, InStep)
  }

  /** The row a planned step leaves in the ledger, if it gets to one. */
  function Entered(cfg: Config, l: Local, planned: Planned, luck: Luck): seq<Row> {
    var book := l.ctx.book;
    var row := FreshRow(RowKindOf(planned.kind), l.ctx.cursor + 1, book.revisions + 1);
    if Taken(l.rec, l.ctx.cursor + 1, book.revisions + 1) then []
    else
      match planned.kind
      case SpecialistStep =>
        if book.specialists >= book.limits.maxSpecialists || (planned.builder && l.rec.run.scope != Build)
           || Brake(book, Digest("specialist", planned.name, planned.text)) != NoCategory then []
        else [row.(state := RowRunning)]
      case CapabilityStep =>
        if !cfg.router || Brake(book, Digest("capability", planned.name, planned.text)) != NoCategory then []
        else if luck.flaw != "" then [row.(state := RowFailed)]
        else if l.slot.Some? && l.slot != Some(l.me) then [row.(state := RowWaiting)]
        else [row.(state := RowRunning, asked := 1)]
      case ProposalStep => [if luck.fileOk then row.(state := RowSucceeded) else row]
      case VerifyStep => [row.(state := RowSkipped)]
  }

  /** A stretch of an advance in its handler: where the run stands, and the rows. */
  predicate Leaves(seg: Seg, stand: Stand, rows: seq<Row>) {
    && seg.l.rec.rows == rows
    && if seg.Stopped? then StandOf(seg) == stand
       else !seg.l.rec.run.state.Terminal() && CategoryOf(seg.error) != NoCategory
            && stand == Ended(Now(seg.l), CategoryOf(seg.error))
  }

  lemma CloseLeaves(seg: Seg, stand: Stand, rows: seq<Row>, stage: Stage)
    requires Leaves(seg, stand, rows) && !stage.InPoll?
    ensures Close(seg, stage).Stopped?
    ensures Leaves(Close(seg, stage), if seg.Stopped? && seg.aw.Done? then Counted(stand, stage) else stand, rows)
  {
    if seg.Failing? {
      FinishFails(seg.l, CategoryOf(seg.error));
    }
  }

  lemma GuardIs(b: Book, d: Digest)
    ensures match GuardAttempt(b, d)
            case Refused(c) => c != NoCategory && c == Brake(b, d)
            case Granted(b') => Brake(b, d) == NoCategory && b' == b.(attempts := Bump(b.attempts, d))
  {
  }

  lemma RowMade(l: Local, kind: RowKind, ordinal: nat, attempt: nat, s: RowState)
    requires !Taken(l.rec, ordinal, attempt)
    ensures var made := CreateRow(l.rec, kind, ordinal, attempt);
            && made.Some? && |made.value.rows| == |l.rec.rows| + 1 && made.value.run == l.rec.run
            && var l2 := MarkRow(Write(l, made.value), |made.value.rows| - 1, s);
               && l2.rec.run == l.rec.run && l2.ctx == l.ctx && l2.slot == l.slot && l2.me == l.me
               && l2.rec.rows == l.rec.rows + [FreshRow(kind, ordinal, attempt).(state := s)]
  {
    hide Taken;
  }

  predicate Starting(l: Local, planned: Planned) {
    && l.rec.run.state == Running && l.ctx.book.specialists < l.ctx.book.limits.maxSpecialists
    && Brake(l.ctx.book, Digest("specialist", planned.name, planned.text)) == NoCategory
    && (planned.builder ==> l.rec.run.scope == Build)
    && !Taken(l.rec, l.ctx.cursor + 1, l.ctx.book.revisions + 1)
  }

  /** A specialist that is started: its row is there and running, and the run waits for it. */
  lemma SpecialistStarts(l: Local, snap: Run, planned: Planned)
    requires Starting(l, planned)
    ensures var d := Digest("specialist", planned.name, planned.text);
            var seg := RunSpecialist(l, snap, planned, l.ctx.cursor + 1, l.ctx.book.revisions + 1);
            && Now(seg.l) == InState(Tried(Now(l), d), WaitingSpecialist)
            && seg.l.rec.rows
               == l.rec.rows + [FreshRow(SpecialistRow, l.ctx.cursor + 1, l.ctx.book.revisions + 1).(state := RowRunning)]
            && seg == if planned.needsWorkspace && !snap.workspace then Failing(seg.l, PlanUnusable)
                      else Stopped(seg.l, Specialist(|l.rec.rows|, planned, d))
  {
    var d := Digest("specialist", planned.name, planned.text);
    GuardIs(l.ctx.book, d);
    var book := l.ctx.book.(attempts := Bump(l.ctx.book.attempts, d));
    var l1 := l.(ctx := l.ctx.(book := book));
    assert GuardAttempt(l.ctx.book, d) == Granted(book);
    RowMade(l1, SpecialistRow, l.ctx.cursor + 1, l.ctx.book.revisions + 1, RowRunning);
    hide Taken, GuardAttempt, Brake, MarkRow, CreateRow, Bump;
  }

  lemma SpecialistEnters(l: Local, cfg: Config, snap: Run, planned: Planned, luck: Luck)
    requires l.rec.run.state == Running && planned.kind == SpecialistStep
    ensures Leaves(RunSpecialist(l, snap, planned, l.ctx.cursor + 1, l.ctx.book.revisions + 1),
                   Stepped(cfg, l, snap, planned, luck), l.rec.rows + Entered(cfg, l, planned, luck))
  {
    if Starting(l, planned) {
      SpecialistStarts(l, snap, planned);
      hide RunSpecialist, Tried, Brake, Taken;
    } else {
      GuardIs(l.ctx.book, Digest("specialist", planned.name, planned.text));
      hide Taken, GuardAttempt, Brake, MarkRow;
    }
  }

  lemma CapabilityEnters(l: Local, cfg: Config, snap: Run, planned: Planned, luck: Luck)
    requires l.rec.run.state == Running && planned.kind == CapabilityStep
    ensures Leaves(Close(RunCapability(l, cfg, snap, planned, l.ctx.cursor + 1, l.ctx.book.revisions + 1, luck), InStep),
                   Stepped(cfg, l, snap, planned, luck), l.rec.rows + Entered(cfg, l, planned, luck))
  {
    var ordinal, attempt := l.ctx.cursor + 1, l.ctx.book.revisions + 1;
    var digest := Digest("capability", planned.name, planned.text);
    var seg := RunCapability(l, cfg, snap, planned, ordinal, attempt, luck);
    GuardIs(l.ctx.book, digest);
    var granted := GuardAttempt(l.ctx.book, digest);
    if cfg.router && granted.Granted? && !Taken(l.rec, ordinal, attempt) {
      CapabilityRuns(l, cfg, snap, planned, luck, granted.book);
    } else {
      assert Leaves(seg, Stepped(cfg, l, snap, planned, luck), l.rec.rows + Entered(cfg, l, planned, luck)) by {
        hide Taken, GuardAttempt, Brake, MarkRow, RefuseInvalid;
      }
      hide Taken, GuardAttempt, Brake, RunCapability, Close, Stepped, Entered, Leaves;
      CloseLeaves(seg, Stepped(cfg, l, snap, planned, luck), l.rec.rows + Entered(cfg, l, planned, luck), InStep);
    }
  }

  /** The row of a capability step is there and running. */
  function Started(l: Local, planned: Planned, book: Book): Local {
    var l1 := l.(ctx := l.ctx.(book := book));
    var made := CreateRow(l1.rec, CapabilityRow, l.ctx.cursor + 1, l.ctx.book.revisions + 1);
    if made.None? then l1 else MarkRow(Write(l1, made.value), |made.value.rows| - 1, RowRunning)
  }

  predicate Granting(l: Local, cfg: Config, planned: Planned, book: Book) {
    && l.rec.run.state == Running && planned.kind == CapabilityStep && cfg.router
    && GuardAttempt(l.ctx.book, Digest("capability", planned.name, planned.text)) == Granted(book)
    && !Taken(l.rec, l.ctx.cursor + 1, l.ctx.book.revisions + 1)
  }

  lemma RunIs(l: Local, cfg: Config, snap: Run, planned: Planned, luck: Luck, book: Book)
    requires Granting(l, cfg, planned, book)
    ensures var l2, i := Started(l, planned, book), |l.rec.rows|;
            && |l2.rec.rows| == i + 1
            && RunCapability(l, cfg, snap, planned, l.ctx.cursor + 1, l.ctx.book.revisions + 1, luck)
               == if luck.flaw != "" then RefuseInvalid(l2, cfg, snap, i, planned, luck.flaw)
                  else if l2.slot.Some? && l2.slot != Some(l2.me) then Stopped(MarkRow(l2, i, RowWaiting), Done)
                  else Stopped(Write(l2.(slot := Some(l2.me)),
                                     PutRow(l2.rec, i, l2.rec.rows[i].(asked := l2.rec.rows[i].asked + 1))),
                               Asking(i, planned))
  {
    RowMade(l.(ctx := l.ctx.(book := book)), CapabilityRow, l.ctx.cursor + 1, l.ctx.book.revisions + 1, RowRunning);
    hide Taken, GuardAttempt, MarkRow, CreateRow, RefuseInvalid, PutRow, Write;
  }

  lemma RunningIs(l: Local, cfg: Config, planned: Planned, book: Book)
    requires Granting(l, cfg, planned, book)
    ensures var l2 := Started(l, planned, book);
            && l2.rec.run == l.rec.run && l2.ctx == l.ctx.(book := book) && l2.slot == l.slot && l2.me == l.me
            && l2.rec.rows
               == l.rec.rows + [FreshRow(CapabilityRow, l.ctx.cursor + 1, l.ctx.book.revisions + 1).(state := RowRunning)]
            && Now(l2) == Tried(Now(l), Digest("capability", planned.name, planned.text))
            && Brake(l.ctx.book, Digest("capability", planned.name, planned.text)) == NoCategory
  {
    GuardIs(l.ctx.book, Digest("capability", planned.name, planned.text));
    RowMade(l.(ctx := l.ctx.(book := book)), CapabilityRow, l.ctx.cursor + 1, l.ctx.book.revisions + 1, RowRunning);
    hide Taken, GuardAttempt, MarkRow, Brake;
  }

  lemma CapabilityRuns(l: Local, cfg: Config, snap: Run, planned: Planned, luck: Luck, book: Book)
    requires Granting(l, cfg, planned, book)
    ensures Leaves(Close(RunCapability(l, cfg, snap, planned, l.ctx.cursor + 1, l.ctx.book.revisions + 1, luck), InStep),
                   Stepped(cfg, l, snap, planned, luck), l.rec.rows + Entered(cfg, l, planned, luck))
  {
    var l2, i := Started(l, planned, book), |l.rec.rows|;
    RunIs(l, cfg, snap, planned, luck, book);
    RunningIs(l, cfg, planned, book);
    hide Taken, GuardAttempt, Brake, CreateRow, RefuseInvalid, RunCapability, Started;
    var seg := RunCapability(l, cfg, snap, planned, l.ctx.cursor + 1, l.ctx.book.revisions + 1, luck);
    if luck.flaw != "" {
      hide MarkRow, Close, PutRow, Leaves;
      RefusedEnds(l2, cfg, snap, i, planned, luck.flaw);
      hide Flawed, Tried;
      assert l2.rec.rows[i := l2.rec.rows[i].(state := RowFailed)]
             == l.rec.rows + [l2.rec.rows[i].(state := RowFailed)];
    } else {
      Parks(l2, i, RowWaiting);
      hide MarkRow, PutRow, Close;
      assert l2.rec.rows[..i] == l.rec.rows;
      LastMarked(l2, i, RowWaiting);
      CloseStays(seg, InStep);
      CloseStops(seg, InStep);
    }
  }

  lemma LastMarked(l: Local, i: nat, s: RowState)
    requires i < |l.rec.rows|
    ensures MarkRow(l, i, s).rec.run == l.rec.run
    ensures forall row :: PutRow(l.rec, i, row).run == l.rec.run
  {
  }

  lemma Parks(l: Local, i: nat, s: RowState)
    requires i + 1 == |l.rec.rows|
    ensures MarkRow(l, i, s).rec.rows == l.rec.rows[..i] + [l.rec.rows[i].(state := s)]
    ensures forall row :: PutRow(l.rec, i, row).rows == l.rec.rows[..i] + [row]
  {
  }

  lemma RefusedEnds(l: Local, cfg: Config, snap: Run, i: nat, planned: Planned, flaw: string)
    requires l.rec.run.state == Running && i < |l.rec.rows|
    ensures Leaves(Close(RefuseInvalid(l, cfg, snap, i, planned, flaw), InStep),
                   Flawed(cfg, Now(l), snap, planned, flaw),
                   l.rec.rows[i := l.rec.rows[i].(state := RowFailed)])
  {
    var l0 := l.(ctx := l.ctx.(invalid := l.ctx.invalid + {(planned.name, flaw)}));
    var l1 := MarkRow(l0, i, RowFailed);
    var rows := l.rec.rows[i := l.rec.rows[i].(state := RowFailed)];
    assert l1.rec.rows == rows && l1.rec.run == l.rec.run && l1.ctx == l0.ctx;
    assert Holds(rows, l1.ctx.plan, l1.trail, l1);
    var seg := RefuseInvalid(l, cfg, snap, i, planned, flaw);
    hide Finish, Replan, MarkRow, Close, AgainOr;
    FinishFails(l1, PlannerInvalidStep);
    FinishHolds(rows, l1.ctx.plan, l1.trail, l1, Failed, PlannerInvalidStep);
    ReplanEnds(l1, cfg, snap, InStep);
    ReplanHolds(rows, l1.ctx.plan, l1.trail, l1, cfg, snap, InStep);
    CloseHolds(rows, l1.ctx.plan, l1.trail, Replan(l1, cfg, snap, InStep), InStep);
    if (planned.name, flaw) in l.ctx.invalid || planned.optional {
      CloseStays(seg, InStep);
    }
    CloseStops(seg, InStep);
  }

  lemma CloseStops(seg: Seg, stage: Stage)
    ensures Close(seg, stage).Stopped?
  {
  }

  lemma HintsEnter(l: Local, cfg: Config, snap: Run, planned: Planned, luck: Luck)
    requires l.rec.run.state == Running && (planned.kind == ProposalStep || planned.kind == VerifyStep)
    ensures Leaves(Close(RunPlanned(l, cfg, snap, planned, luck), InStep), Stepped(cfg, l, snap, planned, luck),
                   l.rec.rows + Entered(cfg, l, planned, luck))
  {
    hide RunProposal, RunVerifyHint, Taken, Close;
    ProposalEnters(l, luck);
    HintEnters(l);
  }

  lemma ProposalEnters(l: Local, luck: Luck)
    requires l.rec.run.state == Running
    ensures var ordinal, attempt := l.ctx.cursor + 1, l.ctx.book.revisions + 1;
            var taken, row := Taken(l.rec, ordinal, attempt), FreshRow(ProposalRow, ordinal, attempt);
            var seg := Close(RunProposal(l, ordinal, attempt, luck), InStep);
            && seg.Stopped?
            && StandOf(seg) == (if taken || !luck.fileOk then Ended(Now(l), CapabilityFailed) else On(Now(l), InStep))
            && seg.l.rec.rows
               == l.rec.rows + (if taken then [] else [if luck.fileOk then row.(state := RowSucceeded) else row])
  {
    var ordinal, attempt := l.ctx.cursor + 1, l.ctx.book.revisions + 1;
    var seg := RunProposal(l, ordinal, attempt, luck);
    if !Taken(l.rec, ordinal, attempt) {
      RowMade(l, ProposalRow, ordinal, attempt, RowSucceeded);
      assert CreateRow(l.rec, ProposalRow, ordinal, attempt).value.rows
             == l.rec.rows + [FreshRow(ProposalRow, ordinal, attempt)] by { hide Taken; }
    }
    hide Taken, CreateRow, MarkRow, Close;
    if seg.Stopped? {
      CloseStays(seg, InStep);
    } else {
      FailsAt(seg);
    }
  }

  lemma HintEnters(l: Local)
    requires l.rec.run.state == Running
    ensures var ordinal, attempt := l.ctx.cursor + 1, l.ctx.book.revisions + 1;
            var taken, row := Taken(l.rec, ordinal, attempt), FreshRow(VerifyRow, ordinal, attempt).(state := RowSkipped);
            var seg := Close(RunVerifyHint(l, ordinal, attempt), InStep);
            && seg.Stopped?
            && StandOf(seg) == (if taken then Ended(Now(l), CapabilityFailed) else On(Now(l), InStep))
            && seg.l.rec.rows == l.rec.rows + (if taken then [] else [row])
  {
    var ordinal, attempt := l.ctx.cursor + 1, l.ctx.book.revisions + 1;
    var seg := RunVerifyHint(l, ordinal, attempt);
    if !Taken(l.rec, ordinal, attempt) {
      RowMade(l, VerifyRow, ordinal, attempt, RowSkipped);
    }
    hide Taken, CreateRow, MarkRow, Close;
    if seg.Stopped? {
      CloseStays(seg, InStep);
    } else {
      FailsAt(seg);
    }
  }

  lemma FailsAt(seg: Seg)
    requires seg.Failing? && !seg.l.rec.run.state.Terminal() && CategoryOf(seg.error) != NoCategory
    ensures Close(seg, InStep).Stopped? && Close(seg, InStep).l.rec.rows == seg.l.rec.rows
    ensures StandOf(Close(seg, InStep)) == Ended(Now(seg.l), CategoryOf(seg.error))
  {
    FinishFails(seg.l, CategoryOf(seg.error));
  }

  /** A planned step, whichever: where the run stands behind it, and the one row it leaves. */
  lemma PlannedEnds(l: Local, cfg: Config, snap: Run, planned: Planned, luck: Luck)
    requires l.rec.run.state == Running
    ensures var seg := RunPlanned(l, cfg, snap, planned, luck);
            && Close(seg, InStep).Stopped?
            && Leaves(Close(seg, InStep), Stepped(cfg, l, snap, planned, luck), l.rec.rows + Entered(cfg, l, planned, luck))
  {
    hide Leaves, Stepped, Entered, Close, RunSpecialist, RunCapability;
    var seg := RunPlanned(l, cfg, snap, planned, luck);
    CloseStops(seg, InStep);
    match planned.kind {
      case SpecialistStep =>
        SpecialistEnters(l, cfg, snap, planned, luck);
        NeverDone(l, snap, planned);
        CloseLeaves(seg, Stepped(cfg, l, snap, planned, luck), l.rec.rows + Entered(cfg, l, planned, luck), InStep);
      case CapabilityStep => CapabilityEnters(l, cfg, snap, planned, luck);
      case _ => HintsEnter(l, cfg, snap, planned, luck);
    }
  }

  lemma NeverDone(l: Local, snap: Run, planned: Planned)
    ensures var seg := RunSpecialist(l, snap, planned, l.ctx.cursor + 1, l.ctx.book.revisions + 1);
            seg.Stopped? ==> !seg.aw.Done?
  {
    hide Taken, GuardAttempt, Transition, SetRowState;
  }

  /** Where verification leaves a run; the rows of the core's own are numbered behind all others. */
  function Verified(cfg: Config, l: Local, luck: Luck): Stand {
    var rec, n, now := l.rec, |l.rec.rows|, Now(l);
    if Taken(rec, n + 1, 1) then Ended(now, CapabilityFailed)
    else if exists i :: 0 <= i < n && rec.rows[i].state == RowUnknown then Ended(now, RecoveryRequired)
    else if exists i :: 0 <= i < n && rec.rows[i].state !in {RowSucceeded, RowSkipped} then Ended(now, SpecialistFailed)
    else if rec.run.scope != Build || !cfg.workspaces then Won(now)
    else if !l.ctx.workspace then Ended(now, NoResult)
    else if Taken(rec, n + 2, 1) then Ended(now, CapabilityFailed)
    else if luck.harvestOk then Won(now.(run := rec.run.(branch := true)))
    else Ended(now, NoResult)
  }

  function Won(now: Stand): Stand { InState(now, Succeeded).(aw := Finishing) }

  /** Where a run with a plan to follow goes on to, in the order of the checks. */
  function Onward(cfg: Config, l: Local, snap: Run, luck: Luck): Stand {
    var ctx, now := l.ctx, Now(l);
    if !StepsOn(ctx) then InState(now, Verifying)
    else if ctx.book.steps >= ctx.book.limits.maxSteps then Ended(now, BudgetExhausted)
    else if luck.late then Ended(now, Timeout)
    else Stepped(cfg, l, snap, ctx.plan.value[ctx.cursor], luck)
  }

  /** Where an advance leaves a run that is as the tick has read it. */
  function Advanced(cfg: Config, l: Local, snap: Run, luck: Luck): Stand {
    var ctx, now := l.ctx, Now(l);
    if ctx.cancel then Stand(l.rec.run.(state := Cancelled, failure := CancelledByUser), ctx, Finishing)
    else
      match snap.state
      case Created =>
        if l.rec.run.scope != Build || !cfg.workspaces || snap.workspace then InState(now, Planning)
        else if luck.cloneOk then InState(Stand(l.rec.run.(workspace := true), ctx.(workspace := true), Done), Planning)
        else Ended(now, WorkspaceConflict)
      case Planning =>
        if !cfg.planner then Ended(now, SpecialistUnavailable)
        else if ctx.book.plannerCalls >= MAX_PLANNER_CALLS then Ended(now, BudgetExhausted)
        else now.(aw := Planner(InPlanning))
      case Running => Onward(cfg, l, snap, luck)
      case Interrupted => Onward(cfg, l, snap, luck)
      case Verifying => Verified(cfg, l, luck)
      case _ => now
  }

  predicate StepsOn(ctx: Ctx) { ctx.plan.Some? && ctx.cursor < |ctx.plan.value| }

  /** The rows an advance leaves that is not a verification. */
  function RowsOn(cfg: Config, l: Local, snap: Run, luck: Luck): seq<Row> {
    if !l.ctx.cancel && snap.state in {Running, Interrupted} && StepsOn(l.ctx)
       && l.ctx.book.steps < l.ctx.book.limits.maxSteps && !luck.late
    then l.rec.rows + Entered(cfg, l, l.ctx.plan.value[l.ctx.cursor], luck)
    else l.rec.rows
  }

  lemma TakenSame(a: Record, b: Record, ordinal: nat, attempt: nat)
    requires a.rows == b.rows
    ensures Taken(a, ordinal, attempt) <==> Taken(b, ordinal, attempt)
  {
  }

  lemma StepSame(cfg: Config, l: Local, l': Local, snap: Run, planned: Planned, luck: Luck)
    requires l'.rec.rows == l.rec.rows && l'.rec.run == l.rec.run.(state := Running)
    requires l'.ctx == l.ctx && l'.slot == l.slot && l'.me == l.me
    ensures Stepped(cfg, l', snap, planned, luck) == Stepped(cfg, l, snap, planned, luck)
    ensures Entered(cfg, l', planned, luck) == Entered(cfg, l, planned, luck)
  {
    TakenSame(l.rec, l'.rec, l.ctx.cursor + 1, l.ctx.book.revisions + 1);
    assert InState(Now(l'), Running) == InState(Now(l), Running);
    hide Brake, Taken, Flawed, Now, InState, Tried, Ended, Counted, On;
  }

  lemma NextEnds(l: Local, cfg: Config, snap: Run, luck: Luck)
    requires l.rec.run.state == Running && !l.ctx.cancel && snap.state in {Running, Interrupted}
    ensures Leaves(NextPlanned(l, cfg, snap, luck), Advanced(cfg, l, snap, luck), RowsOn(cfg, l, snap, luck))
  {
    hide Stepped, Entered, RunPlanned, Close;
    if StepsOn(l.ctx) && l.ctx.book.steps < l.ctx.book.limits.maxSteps && !luck.late {
      var planned := l.ctx.plan.value[l.ctx.cursor];
      PlannedEnds(l, cfg, snap, planned, luck);
      var seg := RunPlanned(l, cfg, snap, planned, luck);
      if seg.Failing? {
        FailsOpen(l, cfg, snap, planned, luck);
        FailsAt(seg);
      }
    }
  }

  /** A step that failed has not been closed yet: its handler is the advance's own. */
  lemma FailsOpen(l: Local, cfg: Config, snap: Run, planned: Planned, luck: Luck)
    requires l.rec.run.state == Running && RunPlanned(l, cfg, snap, planned, luck).Failing?
    ensures var seg := RunPlanned(l, cfg, snap, planned, luck);
            !seg.l.rec.run.state.Terminal() && CategoryOf(seg.error) != NoCategory
  {
    hide RunSpecialist, RunCapability;
    match planned.kind {
      case SpecialistStep => SpecialistOpen(l, snap, planned);
      case CapabilityStep => CapabilityOpen(l, cfg, snap, planned, luck);
      case _ =>
    }
  }

  lemma SpecialistOpen(l: Local, snap: Run, planned: Planned)
    requires l.rec.run.state == Running
    ensures var seg := RunSpecialist(l, snap, planned, l.ctx.cursor + 1, l.ctx.book.revisions + 1);
            seg.Failing? ==> !seg.l.rec.run.state.Terminal() && CategoryOf(seg.error) != NoCategory
  {
    GuardIs(l.ctx.book, Digest("specialist", planned.name, planned.text));
    hide GuardAttempt, Brake, Taken;
  }

  /** A capability step that fails has left the run RUNNING. */
  lemma CapabilityOpen(l: Local, cfg: Config, snap: Run, planned: Planned, luck: Luck)
    requires l.rec.run.state == Running
    ensures var seg := RunCapability(l, cfg, snap, planned, l.ctx.cursor + 1, l.ctx.book.revisions + 1, luck);
            seg.Failing? ==> seg.l.rec.run.state == Running && CategoryOf(seg.error) != NoCategory
  {
    GuardIs(l.ctx.book, Digest("capability", planned.name, planned.text));
    hide GuardAttempt, Brake, Taken;
  }

  lemma StepEnds(l: Local, cfg: Config, snap: Run, luck: Luck)
    requires l.rec.run.state == snap.state && !l.ctx.cancel && snap.state in {Running, Interrupted}
    ensures Leaves(NextStep(l, cfg, snap, luck), Advanced(cfg, l, snap, luck), RowsOn(cfg, l, snap, luck))
  {
    hide NextPlanned, Stepped, Entered, Leaves;
    if snap.state.Interrupted? {
      var l' := Move(l, Running).l;
      assert Move(l, Running).Stopped? && l'.rec == l.rec.(run := l.rec.run.(state := Running));
      assert l'.ctx == l.ctx && l'.slot == l.slot && l'.me == l.me;
      hide Move;
      NextEnds(l', cfg, snap, luck);
      if StepsOn(l.ctx) {
        StepSame(cfg, l, l', snap, l.ctx.plan.value[l.ctx.cursor], luck);
      }
    } else {
      NextEnds(l, cfg, snap, luck);
    }
  }

  lemma VerifyEnds(l: Local, cfg: Config, luck: Luck)
    requires l.rec.run.state == Verifying
    ensures Close(Verify(l, cfg, luck), InPlanning).Stopped?
    ensures StandOf(Close(Verify(l, cfg, luck), InPlanning)) == Verified(cfg, l, luck)
  {
    var n := |l.rec.rows|;
    var seg := Verify(l, cfg, luck);
    hide Close, Finish, Harvest, MarkRow, Taken;
    if Taken(l.rec, n + 1, 1) {
      CloseFails(seg, InPlanning);
    } else {
      MarksIt(l, RowUnknown);
      MarksIt(l, RowFailed);
      MarksIt(l, RowSucceeded);
      var l1 := Write(l, CreateRow(l.rec, VerifyRow, n + 1, 1).value);
      FinishFails(MarkRow(l1, n, RowUnknown), RecoveryRequired);
      FinishFails(MarkRow(l1, n, RowFailed), SpecialistFailed);
      HarvestEnds(MarkRow(l1, n, RowSucceeded), cfg, luck);
      if AnyUnknown(l.rec.rows) || !AllSettledOk(l.rec.rows) {
        CloseStays(seg, InPlanning);
      }
    }
  }

  /** The row of the verification, however it is marked, leaves the run in verification. */
  lemma MarksIt(l: Local, s: RowState)
    requires !Taken(l.rec, |l.rec.rows| + 1, 1)
    ensures var n := |l.rec.rows|;
            var l2 := MarkRow(Write(l, CreateRow(l.rec, VerifyRow, n + 1, 1).value), n, s);
            l2.rec.run == l.rec.run && l2.ctx == l.ctx && |l2.rec.rows| == n + 1
            && (Taken(l2.rec, n + 2, 1) <==> Taken(l.rec, n + 2, 1))
  {
    RowMade(l, VerifyRow, |l.rec.rows| + 1, 1, s);
    TakenBefore(l.rec, FreshRow(VerifyRow, |l.rec.rows| + 1, 1).(state := s), |l.rec.rows| + 2, 1);
  }

  lemma HarvestEnds(l: Local, cfg: Config, luck: Luck)
    requires l.rec.run.state == Verifying
    ensures Close(Harvest(l, cfg, luck), InPlanning).Stopped?
    ensures StandOf(Close(Harvest(l, cfg, luck), InPlanning))
            == if l.rec.run.scope != Build || !cfg.workspaces then Won(Now(l))
               else if !l.ctx.workspace then Ended(Now(l), NoResult)
               else if Taken(l.rec, |l.rec.rows| + 1, 1) then Ended(Now(l), CapabilityFailed)
               else if luck.harvestOk then Won(Now(l).(run := l.rec.run.(branch := true))) else Ended(Now(l), NoResult)
  {
    var n := |l.rec.rows|;
    var seg := Harvest(l, cfg, luck);
    hide Close, Finish, MarkRow, Taken;
    FinishFails(l, NoResult);
    Succeeds(l);
    if l.rec.run.scope != Build || !cfg.workspaces || !l.ctx.workspace {
      CloseStays(seg, InPlanning);
    } else if Taken(l.rec, n + 1, 1) {
      CloseFails(seg, InPlanning);
    } else {
      var l1 := Write(l, CreateRow(l.rec, HarvestRow, n + 1, 1).value);
      var l2 := Write(l1, l1.rec.(run := l1.rec.run.(branch := true)));
      MarkKeepsRun(l1, n, RowFailed);
      MarkKeepsRun(l2, n, RowSucceeded);
      FinishFails(MarkRow(l1, n, RowFailed), NoResult);
      Succeeds(MarkRow(l2, n, RowSucceeded));
      CloseStays(seg, InPlanning);
    }
  }

  lemma MarkKeepsRun(l: Local, i: nat, s: RowState)
    ensures MarkRow(l, i, s).rec.run == l.rec.run && MarkRow(l, i, s).ctx == l.ctx
  {
  }

  lemma Succeeds(l: Local)
    requires l.rec.run.state == Verifying
    ensures Finish(l, Succeeded, NoCategory).Stopped?
    ensures StandOf(Finish(l, Succeeded, NoCategory)) == Won(Now(l))
  {
  }

  lemma TakenBefore(rec: Record, row: Row, ordinal: nat, attempt: nat)
    requires row.ordinal != ordinal
    ensures Taken(rec.(rows := rec.rows + [row]), ordinal, attempt) <==> Taken(rec, ordinal, attempt)
  {
    var rows := rec.rows + [row];
    if Taken(rec, ordinal, attempt) {
      var i :| 0 <= i < |rec.rows| && rec.rows[i].ordinal == ordinal && rec.rows[i].attempt == attempt;
      assert rows[i] == rec.rows[i];
    }
  }

  lemma CreatedEnds(l: Local, cfg: Config, snap: Run, luck: Luck)
    requires l.rec.run.state == snap.state == Created && !l.ctx.cancel
    ensures Leaves(AdvanceCreated(l, cfg, snap, luck), Advanced(cfg, l, snap, luck), l.rec.rows)
  {
    hide Onward, Verified;
  }

  lemma PlanningEnds(l: Local, cfg: Config, snap: Run, luck: Luck)
    requires l.rec.run.state == snap.state == Planning && !l.ctx.cancel
    ensures Leaves(DoPlan(l, cfg, InPlanning), Advanced(cfg, l, snap, luck), l.rec.rows)
  {
    hide Onward, Verified;
  }

  /**
   An advance of a run that is as the tick has read it: run row, context and what is awaited
   next, and, outside verification, the one row it has left.
   */
  lemma AdvanceEnds(l: Local, cfg: Config, snap: Run, luck: Luck)
    requires l.rec.run.state == snap.state && !snap.state.Terminal()
    ensures var seg := Advance(l, cfg, snap, luck);
            && seg.Stopped? && StandOf(seg) == Advanced(cfg, l, snap, luck)
            && (snap.state != Verifying || l.ctx.cancel ==> seg.l.rec.rows == RowsOn(cfg, l, snap, luck))
  {
    hide NextStep, Verify, Close, AdvanceCreated, DoPlan, Advanced, RowsOn;
    if l.ctx.cancel {
      CancelEnds(l, cfg, snap, luck);
    } else {
      match snap.state {
        case Verifying =>
          VerifyEnds(l, cfg, luck);
          VerifiesOn(l, cfg, snap, luck);
        case Created =>
          CreatedEnds(l, cfg, snap, luck);
          OtherRows(l, cfg, snap, luck);
          CloseLeaves(AdvanceCreated(l, cfg, snap, luck), Advanced(cfg, l, snap, luck), l.rec.rows, InPlanning);
        case Planning =>
          PlanningEnds(l, cfg, snap, luck);
          OtherRows(l, cfg, snap, luck);
          CloseLeaves(DoPlan(l, cfg, InPlanning), Advanced(cfg, l, snap, luck), l.rec.rows, InPlanning);
        case Running => StepCloses(l, cfg, snap, luck);
        case Interrupted => StepCloses(l, cfg, snap, luck);
        case _ => OtherRows(l, cfg, snap, luck);
      }
    }
  }

  lemma CancelEnds(l: Local, cfg: Config, snap: Run, luck: Luck)
    requires !l.rec.run.state.Terminal() && l.ctx.cancel
    ensures Finish(l, Cancelled, CancelledByUser).Stopped?
    ensures StandOf(Finish(l, Cancelled, CancelledByUser)) == Advanced(cfg, l, snap, luck)
    ensures Finish(l, Cancelled, CancelledByUser).l.rec.rows == l.rec.rows == RowsOn(cfg, l, snap, luck)
  {
    EveryoneCanEnd(l.rec, CancelledByUser);
  }

  lemma VerifiesOn(l: Local, cfg: Config, snap: Run, luck: Luck)
    requires snap.state == Verifying && !l.ctx.cancel
    ensures Advanced(cfg, l, snap, luck) == Verified(cfg, l, luck)
  {
  }

  lemma OtherRows(l: Local, cfg: Config, snap: Run, luck: Luck)
    requires snap.state !in {Running, Interrupted}
    ensures RowsOn(cfg, l, snap, luck) == l.rec.rows
    ensures snap.state !in {Created, Planning, Verifying} && !l.ctx.cancel ==> Advanced(cfg, l, snap, luck) == Now(l)
  {
  }

  lemma StepCloses(l: Local, cfg: Config, snap: Run, luck: Luck)
    requires l.rec.run.state == snap.state && !l.ctx.cancel && snap.state in {Running, Interrupted}
    ensures Leaves(Close(NextStep(l, cfg, snap, luck), InPlanning), Advanced(cfg, l, snap, luck), RowsOn(cfg, l, snap, luck))
    ensures Close(NextStep(l, cfg, snap, luck), InPlanning).Stopped?
  {
    hide NextStep, Advanced, RowsOn, Close;
    StepEnds(l, cfg, snap, luck);
    CloseLeaves(NextStep(l, cfg, snap, luck), Advanced(cfg, l, snap, luck), RowsOn(cfg, l, snap, luck), InPlanning);
  }
}
