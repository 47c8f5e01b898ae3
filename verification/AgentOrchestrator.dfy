/**
 The orchestrator as it runs: a ledger, an approval queue and a context per run, changed in
 place, stretch by stretch. Every method does what the function of the same stretch says.
 */
module AgentOrchestrator {
  import opened Basics
  import opened RunLedger
  import opened RunBudget
  import opened AgentSteps

  /** The durable side. `trail` remembers every state the run at work has been in since the stretch began. */
  class AgentRunLedger {
    var records: seq<Record>
    ghost var trail: seq<Record>

    constructor (records: seq<Record>)
      ensures this.records == records && trail == []
    {
      this.records := records;
      trail := [];
    }

    /** A new stretch begins. */
    ghost method Begin()
      modifies this`trail
      ensures trail == []
    {
      trail := [];
    }

    method Append(rec: Record)
      modifies this`records
      ensures records == old(records) + [rec]
    {
      records := records + [rec];
    }

    method Put(r: nat, rec: Record)
      requires r < |records|
      modifies this
      ensures records == old(records)[r := rec] && trail == old(trail) + [rec]
    {
      records := records[r := rec];
      trail := trail + [rec];
    }

    /** The only place where a run's state changes. */
    method Transition(r: nat, wanted: RunState, category: Category) returns (ok: bool)
      requires r < |records|
      modifies this
      ensures match RunLedger.Transition(old(records)[r], wanted, category)
              case Some(rec) => ok && records == old(records)[r := rec] && trail == old(trail) + [rec]
              case None => !ok && records == old(records) && trail == old(trail)
    {
      var run := records[r].run;
      ok := wanted in Targets(run.state);
      if ok {
        run := run.(state := wanted);
        if !category.NoCategory? {
          run := run.(failure := category);
        }
        Put(r, records[r].(run := run));
      }
    }

    method SetRun(r: nat, run: Run)
      requires r < |records|
      modifies this
      ensures records == old(records)[r := old(records)[r].(run := run)]
      ensures trail == old(trail) + [old(records)[r].(run := run)]
    {
      Put(r, records[r].(run := run));
    }

    /** INSERT under UNIQUE(run, seq, attempt); None is the IntegrityError. */
    method CreateStep(r: nat, kind: RowKind, ordinal: nat, attempt: nat) returns (i: Option<nat>)
      requires r < |records|
      modifies this
      ensures match CreateRow(old(records)[r], kind, ordinal, attempt)
              case Some(rec) =>
                && |rec.rows| == |old(records)[r].rows| + 1 && i == Some(|rec.rows| - 1)
                && records == old(records)[r := rec] && trail == old(trail) + [rec]
              case None => i == None && records == old(records) && trail == old(trail)
    {
      var rows := records[r].rows;
      var k := 0;
      while k < |rows|
        invariant 0 <= k <= |rows| && records == old(records) && trail == old(trail)
        invariant forall j :: 0 <= j < k ==> rows[j].ordinal != ordinal || rows[j].attempt != attempt
      {
        if rows[k].ordinal == ordinal && rows[k].attempt == attempt {
          return None;
        }
        k := k + 1;
      }
      Put(r, records[r].(rows := rows + [FreshRow(kind, ordinal, attempt)]));
      i := Some(|rows|);
    }

    /** UPDATE by key. */
    method UpdateStep(r: nat, i: nat, row: Row)
      requires r < |records|
      modifies this
      ensures records == old(records)[r := PutRow(old(records)[r], i, row)]
      ensures trail == old(trail) + [PutRow(old(records)[r], i, row)]
    {
      Put(r, if i < |records[r].rows| then records[r].(rows := records[r].rows[i := row]) else records[r]);
    }

    method MarkStep(r: nat, i: nat, s: RowState)
      requires r < |records|
      modifies this
      ensures records == old(records)[r := SetRowState(old(records)[r], i, s)]
      ensures trail == old(trail) + [SetRowState(old(records)[r], i, s)]
    {
      if i < |records[r].rows| {
        UpdateStep(r, i, records[r].rows[i].(state := s));
      } else {
        Put(r, records[r]);
      }
    }
  }

  /** At most one step that needs an approval, over all runs. */
  class ApprovalQueue {
    var holder: Option<nat>

    constructor ()
      ensures holder == None
    {
      holder := None;
    }

    method Acquire(r: nat) returns (ok: bool)
      modifies this
      ensures ok <==> old(holder).None? || old(holder) == Some(r)
      ensures holder == if ok then Some(r) else old(holder)
    {
      if holder.Some? && holder != Some(r) {
        return false;
      }
      holder := Some(r);
      ok := true;
    }

    method Release(r: nat)
      modifies this
      ensures holder == if old(holder) == Some(r) then None else old(holder)
    {
      if holder == Some(r) {
        holder := None;
      }
    }
  }

  /** The volatile side of a run. */
  class RunContext {
    const ledger: BudgetLedger
    var plan: Option<seq<Planned>>
    var cursor: nat
    var approvals: nat
    var pending: Option<nat>
    var workspace: bool
    var cancel: bool
    var invalid: set<(string, string)>
    var goalMet: bool

    function Value(): Ctx
      reads this, ledger
    {
      Ctx(plan, cursor, approvals, pending, workspace, cancel, ledger.Contents(), invalid, goalMet)
    }

    constructor (ledger: BudgetLedger)
      ensures this.ledger == ledger && Value() == Ctx(None, 0, 0, None, false, false, ledger.Contents(), {}, false)
    {
      this.ledger := ledger;
      plan, cursor, approvals, pending := None, 0, 0, None;
      workspace, cancel, invalid, goalMet := false, false, {}, false;
    }
  }

  /** How a method of a stretch ends: at an await, or with an exception. */
  function Ended(l: Local, aw: Await, error: Option<Error>): Seg {
    if error.Some? then Failing(l, error.value) else Stopped(l, aw)
  }

  function Turn(l: Local, cfg: Config, snap: Run, luck: Luck): Seg {
    if snap.state.WaitingApproval? then AgentSteps.Poll(l) else AgentSteps.Advance(l, cfg, snap, luck)
  }

  class Orchestrator {
    const cfg: Config
    const ledger: AgentRunLedger
    const approvals: ApprovalQueue
    var unfinishable: set<nat>

    constructor (cfg: Config, ledger: AgentRunLedger, approvals: ApprovalQueue)
      ensures this.cfg == cfg && this.ledger == ledger && this.approvals == approvals && unfinishable == {}
    {
      this.cfg := cfg;
      this.ledger := ledger;
      this.approvals := approvals;
      unfinishable := {};
    }

    /** What the run at work sees and can change. */
    ghost function Here(r: nat, c: RunContext): Local
      requires r < |ledger.records|
      reads this, ledger, approvals, c, c.ledger
    {
      Local(r, ledger.records[r], ledger.trail, c.Value(), approvals.holder, r in unfinishable)
    }

    /** Nothing has happened to any other run. */
    twostate predicate Only(r: nat)
      reads this, ledger
    {
      && |ledger.records| == |old(ledger.records)|
      && (forall q :: 0 <= q < |ledger.records| && q != r ==> ledger.records[q] == old(ledger.records)[q])
      && unfinishable - {r} == old(unfinishable) - {r}
    }

    /** Where every run ends: the slot is freed, the state moved, and a refusal remembered. */
    method Finish(r: nat, c: RunContext, s: RunState, category: Category) returns (aw: Await)
      requires r < |ledger.records|
      modifies this`unfinishable, ledger, approvals
      ensures Only(r) && Stopped(Here(r, c), aw) == AgentSteps.Finish(old(Here(r, c)), s, category)
    {
      hide RunLedger.Transition, Targets;
      aw := Done;
      if !ledger.records[r].run.state.Terminal() {
        ghost var l := Here(r, c);
        approvals.Release(r);
        assert Here(r, c) == Release(l);
        aw := WriteEnd(r, c, s, category);
        assert Stopped(Here(r, c), aw) == AgentSteps.Finish(l, s, category);
      } else {
        assert AgentSteps.Finish(Here(r, c), s, category) == Stopped(Here(r, c), Done);
      }
    }

    method WriteEnd(r: nat, c: RunContext, s: RunState, category: Category) returns (aw: Await)
      requires r < |ledger.records|
      modifies this`unfinishable, ledger
      ensures Only(r)
      ensures match RunLedger.Transition(old(Here(r, c)).rec, s, category)
              case None => aw == Done && Here(r, c) == old(Here(r, c)).(stuck := true)
              case Some(rec) => aw == Finishing && Here(r, c) == Write(old(Here(r, c)), rec)
    {
      hide RunLedger.Transition, Targets;
      aw := Finishing;
      var ok := ledger.Transition(r, s, category);
      if !ok {
        unfinishable := unfinishable + {r};
        aw := Done;
      }
    }

    method MoveTo(r: nat, c: RunContext, s: RunState) returns (error: Option<Error>)
      requires r < |ledger.records|
      modifies ledger
      ensures Only(r) && Ended(Here(r, c), Done, error) == Move(old(Here(r, c)), s)
      ensures ledger.records[r].rows == old(ledger.records[r].rows)
    {
      var ok := ledger.Transition(r, s, NoCategory);
      error := if ok then None else Some(Unexpected);
    }

    method Mark(r: nat, c: RunContext, i: nat, s: RowState)
      requires r < |ledger.records|
      modifies ledger
      ensures Only(r) && Here(r, c) == MarkRow(old(Here(r, c)), i, s)
    {
      ledger.MarkStep(r, i, s);
    }

    // -------------------------------------------------------------- planning

    method DoPlan(r: nat, c: RunContext, stage: Stage) returns (aw: Await, error: Option<Error>)
      requires r < |ledger.records|
      modifies this`unfinishable, ledger, approvals
      ensures Only(r) && Ended(Here(r, c), aw, error) == AgentSteps.DoPlan(old(Here(r, c)), cfg, stage)
    {
      aw, error := Done, None;
      if !cfg.planner {
        aw := Finish(r, c, Failed, SpecialistUnavailable);
        return;
      }
      if c.ledger.plannerCalls >= MAX_PLANNER_CALLS {
        error := Some(Exhausted(BudgetExhausted));
        return;
      }
      aw := Planner(stage);
    }

    method Replan(r: nat, c: RunContext, snap: Run, stage: Stage) returns (aw: Await, error: Option<Error>)
      requires r < |ledger.records|
      modifies this`unfinishable, ledger, approvals, c, c.ledger
      ensures Only(r) && Ended(Here(r, c), aw, error) == AgentSteps.Replan(old(Here(r, c)), cfg, snap, stage)
    {
      aw, error := Done, None;
      if c.ledger.revisions >= c.ledger.limits.maxRevisions {
        aw := Finish(r, c, Failed, BudgetExhausted);
        return;
      }
      c.ledger.NoteRevision();
      ledger.SetRun(r, ledger.records[r].run.(revision := snap.revision + 1));
      aw, error := DoPlan(r, c, stage);
    }

    method OpenBoundary(r: nat, c: RunContext, stage: Stage) returns (aw: Await, error: Option<Error>)
      requires r < |ledger.records|
      modifies ledger
      ensures Only(r) && Ended(Here(r, c), aw, error) == AgentSteps.OpenBoundary(old(Here(r, c)), stage)
    {
      ledger.SetRun(r, ledger.records[r].run.(boundary := true));
      error := MoveTo(r, c, WaitingUser);
      aw := if error.None? then Boundary(stage) else Done;
    }

    /** One planning event: the caps are asked before the second call as they were before the first. */
    method AskPlanner(b: BudgetLedger, scope: Scope, first: PlannerReply, second: PlannerReply)
      returns (plan: Option<seq<Planned>>, error: Option<Error>)
      modifies b`plannerCalls
      ensures b.Contents() == PlanEvent(old(b.Contents()), scope, first, second).0
      ensures match PlanEvent(old(b.Contents()), scope, first, second).1
              case PlanOk(p) => plan == Some(p) && error == None
              case PlanBad(e) => plan == None && error == Some(e)
    {
      plan, error := None, None;
      var attempt := 1;
      while attempt <= 2
        invariant 1 <= attempt <= 3
        invariant attempt == 1 ==> b.Contents() == old(b.Contents())
        invariant attempt >= 2 ==> !first.Unavailable? && !first.CallRaised? && !Usable(first, scope)
        invariant attempt == 2 ==> b.Contents() == Charge(old(b.Contents()))
        invariant attempt == 3 ==> !second.Unavailable? && !second.CallRaised? && !Usable(second, scope)
        invariant attempt == 3 ==> Charge(old(b.Contents())).plannerCalls < MAX_PLANNER_CALLS
        invariant attempt == 3 ==> b.Contents() == Charge(Charge(old(b.Contents())))
      {
        // Before the first call the cap was asked in DoPlan, on the other side of the await.
        if attempt == 2 && b.plannerCalls >= MAX_PLANNER_CALLS {
          return None, Some(Exhausted(BudgetExhausted));
        }
        var reply := if attempt == 1 then first else second;
        if reply.CallRaised? {
          return None, Some(Unexpected);
        }
        b.NotePlannerCall();
        if reply.Unavailable? {
          return None, Some(PlanUnusable);
        }
        if Usable(reply, scope) {
          return Some(reply.plan), None;
        }
        attempt := attempt + 1;
      }
      error := Some(PlanUnusable);
    }

    method PlanBack(r: nat, c: RunContext, first: PlannerReply, second: PlannerReply) returns (error: Option<Error>)
      requires r < |ledger.records|
      modifies ledger, c, c.ledger
      ensures Only(r) && Ended(Here(r, c), Done, error) == AgentSteps.PlanBack(old(Here(r, c)), first, second)
    {
      hide PlanEvent, RunLedger.Transition, Move;
      ghost var l := Here(r, c);
      var plan;
      plan, error := AskPlanner(c.ledger, ledger.records[r].run.scope, first, second);
      assert Here(r, c) == l.(ctx := l.ctx.(book := PlanEvent(l.ctx.book, l.rec.run.scope, first, second).0));
      if error.None? {
        c.plan, c.cursor := plan, 0;
        ghost var l2 := Here(r, c);
        if ledger.records[r].run.state.Planning? {
          assert AgentSteps.PlanBack(l, first, second) == Move(l2, Running);
          error := MoveTo(r, c, Running);
        } else {
          assert AgentSteps.PlanBack(l, first, second) == Stopped(l2, Done);
        }
      } else {
        assert AgentSteps.PlanBack(l, first, second) == Failing(Here(r, c), error.value);
      }
    }

    // -------------------------------------------------------------- one step of the plan

    method AdvanceCreated(r: nat, c: RunContext, snap: Run, luck: Luck) returns (error: Option<Error>)
      requires r < |ledger.records|
      modifies ledger, c
      ensures Only(r) && Ended(Here(r, c), Done, error) == AgentSteps.AdvanceCreated(old(Here(r, c)), cfg, snap, luck)
    {
      hide RunLedger.Transition;
      if ledger.records[r].run.scope.Build? && cfg.workspaces && !snap.workspace {
        if !luck.cloneOk {
          return Some(WorkspaceLost);
        }
        ledger.SetRun(r, ledger.records[r].run.(workspace := true));
        c.workspace := true;
      }
      error := MoveTo(r, c, Planning);
    }

    method SkipOver(c: RunContext)
      modifies c`cursor
      ensures c.Value() == old(c.Value()).(cursor := old(c.cursor) + 1)
    {
      c.cursor := c.cursor + 1;
    }

    method RunSpecialist(r: nat, c: RunContext, snap: Run, planned: Planned, ordinal: nat, attempt: nat)
      returns (aw: Await, error: Option<Error>)
      requires r < |ledger.records|
      modifies ledger, c.ledger
      ensures Only(r)
      ensures Ended(Here(r, c), aw, error) == AgentSteps.RunSpecialist(old(Here(r, c)), snap, planned, ordinal, attempt)
    {
      hide RunLedger.Transition, GuardAttempt, CreateRow, SetRowState;
      aw, error := Done, None;
      if c.ledger.specialists >= c.ledger.limits.maxSpecialists {
        error := Some(Exhausted(BudgetExhausted));
        return;
      }
      var digest, refusal := c.ledger.Guard("specialist", planned.name, planned.text);
      if refusal != NoCategory {
        error := Some(Exhausted(refusal));
        return;
      }
      if planned.builder && !ledger.records[r].run.scope.Build? {
        error := Some(PlanUnusable);
        return;
      }
      var i := ledger.CreateStep(r, SpecialistRow, ordinal, attempt);
      if i.None? {
        error := Some(Unexpected);
        return;
      }
      Mark(r, c, i.value, RowRunning);
      error := MoveTo(r, c, WaitingSpecialist);
      if error.None? {
        if planned.needsWorkspace && !snap.workspace {
          error := Some(PlanUnusable);
        } else {
          aw := Specialist(i.value, planned, digest);
        }
      }
    }

    method SpecialistBack(r: nat, c: RunContext, snap: Run, i: nat, planned: Planned, digest: Digest,
                          said: SpecialistReply) returns (aw: Await, error: Option<Error>)
      requires r < |ledger.records|
      modifies this`unfinishable, ledger, approvals, c, c.ledger
      ensures Only(r)
      ensures Ended(Here(r, c), aw, error)
              == AgentSteps.SpecialistBack(old(Here(r, c)), cfg, snap, i, planned, digest, said)
    {
      hide RunLedger.Transition, PutRow, Move, AgentSteps.AfterSpecialist;
      ghost var l := Here(r, c);
      aw, error := Done, None;
      if said.SpecialistRaised? || i >= |ledger.records[r].rows| {
        error := Some(Unexpected);
        return;
      }
      c.ledger.NoteSpecialist();
      var state := if said.ok then RowSucceeded else RowFailed;
      ledger.UpdateStep(r, i, ledger.records[r].rows[i].(state := state, child := true));
      ghost var l1 := Here(r, c);
      error := MoveTo(r, c, Running);
      ghost var l2 := Here(r, c);
      assert Ended(l2, Done, error) == Move(l1, Running);
      if error.None? {
        assert AgentSteps.SpecialistBack(l, cfg, snap, i, planned, digest, said)
            == AgentSteps.AfterSpecialist(l2, cfg, snap, planned, digest, said);
        aw, error := AfterSpecialist(r, c, snap, planned, digest, said);
      } else {
        assert AgentSteps.SpecialistBack(l, cfg, snap, i, planned, digest, said) == Failing(l2, error.value);
      }
    }

    method AfterSpecialist(r: nat, c: RunContext, snap: Run, planned: Planned, digest: Digest,
                           said: SpecialistReply) returns (aw: Await, error: Option<Error>)
      requires r < |ledger.records| && said.SpecialistSaid?
      modifies this`unfinishable, ledger, approvals, c, c.ledger
      ensures Only(r)
      ensures Ended(Here(r, c), aw, error)
              == AgentSteps.AfterSpecialist(old(Here(r, c)), cfg, snap, planned, digest, said)
    {
      hide RunLedger.Transition, AgentSteps.Finish, AgentSteps.Replan, NoteLowValue;
      ghost var l := Here(r, c);
      aw, error := Done, None;
      if !said.ok {
        if said.quota {
          aw := Finish(r, c, Failed, Quota);
          return;
        }
        c.ledger.MarkLowValue(digest);
        assert Here(r, c) == l.(ctx := l.ctx.(book := NoteLowValue(l.ctx.book, digest)));
        if !planned.optional {
          aw, error := Replan(r, c, snap, InStep);
          return;
        }
      } else {
        if !said.usable {
          c.ledger.MarkLowValue(digest);
        }
        MaybeComplete(c, said.goalMet);
      }
      SkipOver(c);
    }

    /** A goal met early shortens the plan to the step that met it. */
    method MaybeComplete(c: RunContext, met: bool)
      modifies c`plan, c`goalMet
      ensures c.Value() == Shorten(old(c.Value()), met)
    {
      if met && !c.goalMet && c.plan.Some? && c.cursor + 1 <= |c.plan.value| {
        c.plan, c.goalMet := Some(c.plan.value[..c.cursor + 1]), true;
      }
    }

    method RefuseInvalid(r: nat, c: RunContext, snap: Run, i: nat, planned: Planned, flaw: string)
      returns (aw: Await, error: Option<Error>)
      requires r < |ledger.records|
      modifies this`unfinishable, ledger, approvals, c, c.ledger
      ensures Only(r)
      ensures Ended(Here(r, c), aw, error) == AgentSteps.RefuseInvalid(old(Here(r, c)), cfg, snap, i, planned, flaw)
    {
      hide RunLedger.Transition, AgentSteps.Finish, AgentSteps.Replan, SetRowState;
      ghost var l := Here(r, c);
      aw, error := Done, None;
      var repeated := (planned.name, flaw) in c.invalid;
      c.invalid := c.invalid + {(planned.name, flaw)};
      Mark(r, c, i, RowFailed);
      assert Here(r, c) == MarkRow(l.(ctx := l.ctx.(invalid := l.ctx.invalid + {(planned.name, flaw)})), i, RowFailed);
      if repeated {
        aw := Finish(r, c, Failed, PlannerInvalidStep);
      } else if planned.optional {
        SkipOver(c);
      } else {
        aw, error := Replan(r, c, snap, InStep);
      }
    }

    method Settle(r: nat, c: RunContext, snap: Run, i: nat, optional: bool, verdict: Verdict, stage: Stage)
      returns (aw: Await, error: Option<Error>)
      requires r < |ledger.records|
      modifies this`unfinishable, ledger, approvals, c, c.ledger
      ensures Only(r)
      ensures Ended(Here(r, c), aw, error) == AgentSteps.Settle(old(Here(r, c)), cfg, snap, i, optional, verdict, stage)
    {
      hide RunLedger.Transition, AgentSteps.Finish, AgentSteps.Replan, AgentSteps.OpenBoundary, SetRowState;
      aw, error := Done, None;
      if verdict.Did? {
        Mark(r, c, i, RowSucceeded);
        SkipOver(c);
        return;
      }
      if verdict.Denial? {
        Mark(r, c, i, RowDenied);
        if optional {
          SkipOver(c);
        } else {
          aw := Finish(r, c, Failed, ApprovalDenied);
        }
        return;
      }
      if verdict.Uncertain? {
        Mark(r, c, i, RowUnknown);
        aw := Finish(r, c, Failed, RecoveryRequired);
        return;
      }
      Mark(r, c, i, RowFailed);
      if verdict.PolicyFailure? {
        aw, error := OpenBoundary(r, c, stage);
      } else if optional {
        SkipOver(c);
      } else {
        aw, error := Replan(r, c, snap, stage);
      }
    }

    method RunCapability(r: nat, c: RunContext, snap: Run, planned: Planned, ordinal: nat, attempt: nat, luck: Luck)
      returns (aw: Await, error: Option<Error>)
      requires r < |ledger.records|
      modifies this`unfinishable, ledger, approvals, c, c.ledger
      ensures Only(r)
      ensures Ended(Here(r, c), aw, error)
              == AgentSteps.RunCapability(old(Here(r, c)), cfg, snap, planned, ordinal, attempt, luck)
    {
      hide RunLedger.Transition, GuardAttempt, CreateRow, AgentSteps.RefuseInvalid;
      ghost var l := Here(r, c);
      aw, error := Done, None;
      if !cfg.router {
        error := Some(PlanUnusable);
        return;
      }
      var _, refusal := c.ledger.Guard("capability", planned.name, planned.text);
      if refusal != NoCategory {
        error := Some(Exhausted(refusal));
        return;
      }
      var i := ledger.CreateStep(r, CapabilityRow, ordinal, attempt);
      if i.None? {
        error := Some(Unexpected);
        return;
      }
      Mark(r, c, i.value, RowRunning);
      ghost var l2 := Here(r, c);
      assert |l2.rec.rows| == i.value + 1;
      aw, error := AskRouter(r, c, snap, i.value, planned, luck.flaw);
    }

    /**
     A step without a required argument never reaches the router; and only one step that
     may need an approval is under way at a time, so whoever finds the slot taken waits.
     */
    method AskRouter(r: nat, c: RunContext, snap: Run, i: nat, planned: Planned, flaw: string)
      returns (aw: Await, error: Option<Error>)
      requires r < |ledger.records| && i < |ledger.records[r].rows|
      modifies this`unfinishable, ledger, approvals, c, c.ledger
      ensures Only(r)
      ensures var l := old(Here(r, c));
              Ended(Here(r, c), aw, error)
              == if flaw != "" then AgentSteps.RefuseInvalid(l, cfg, snap, i, planned, flaw)
                 else if l.slot.Some? && l.slot != Some(l.me) then Stopped(MarkRow(l, i, RowWaiting), Done)
                 else Stopped(Write(l.(slot := Some(l.me)),
                                    PutRow(l.rec, i, l.rec.rows[i].(asked := l.rec.rows[i].asked + 1))),
                              Asking(i, planned))
    {
      hide RunLedger.Transition, SetRowState, PutRow, AgentSteps.RefuseInvalid;
      aw, error := Done, None;
      if flaw != "" {
        aw, error := RefuseInvalid(r, c, snap, i, planned, flaw);
        return;
      }
      var ok := approvals.Acquire(r);
      if !ok {
        Mark(r, c, i, RowWaiting);
        return;
      }
      ledger.UpdateStep(r, i, ledger.records[r].rows[i].(asked := ledger.records[r].rows[i].asked + 1));
      aw := Asking(i, planned);
    }

    method AskedBack(r: nat, c: RunContext, snap: Run, i: nat, planned: Planned, reply: RouterReply)
      returns (aw: Await, error: Option<Error>)
      requires r < |ledger.records|
      modifies this`unfinishable, ledger, approvals, c, c.ledger
      ensures Only(r)
      ensures Ended(Here(r, c), aw, error) == AgentSteps.AskedBack(old(Here(r, c)), cfg, snap, i, planned, reply)
    {
      hide RunLedger.Transition, Move, SetRowState, PutRow, AgentSteps.Settle;
      ghost var l := Here(r, c);
      aw, error := Done, None;
      if reply.RouterRaised? || i >= |ledger.records[r].rows| {
        error := Some(Unexpected);
        return;
      }
      if reply.verdict.NeedsApproval? {
        ledger.UpdateStep(r, i, ledger.records[r].rows[i].(approval := reply.approval));
        c.pending, c.approvals := Some(i), c.approvals + 1;
        Mark(r, c, i, RowWaiting);
        ghost var l2 := Here(r, c);
        assert AgentSteps.AskedBack(l, cfg, snap, i, planned, reply) == Move(l2, WaitingApproval);
        error := MoveTo(r, c, WaitingApproval);
        return;
      }
      approvals.Release(r);
      assert Here(r, c) == Release(l);
      aw, error := Settle(r, c, snap, i, planned.optional, reply.verdict, InStep);
    }

    method RunProposal(r: nat, c: RunContext, ordinal: nat, attempt: nat, luck: Luck) returns (error: Option<Error>)
      requires r < |ledger.records|
      modifies ledger, c
      ensures Only(r)
      ensures Ended(Here(r, c), Done, error) == AgentSteps.RunProposal(old(Here(r, c)), ordinal, attempt, luck)
    {
      hide CreateRow, SetRowState;
      var i := ledger.CreateStep(r, ProposalRow, ordinal, attempt);
      if i.None? || !luck.fileOk {
        return Some(Unexpected);
      }
      Mark(r, c, i.value, RowSucceeded);
      SkipOver(c);
      error := None;
    }

    /** `verify` inside a plan is only a hint; the run is verified at its end. */
    method RunVerifyHint(r: nat, c: RunContext, ordinal: nat, attempt: nat) returns (error: Option<Error>)
      requires r < |ledger.records|
      modifies ledger, c
      ensures Only(r)
      ensures Ended(Here(r, c), Done, error) == AgentSteps.RunVerifyHint(old(Here(r, c)), ordinal, attempt)
    {
      hide CreateRow, SetRowState;
      var i := ledger.CreateStep(r, VerifyRow, ordinal, attempt);
      if i.None? {
        return Some(Unexpected);
      }
      Mark(r, c, i.value, RowSkipped);
      SkipOver(c);
      error := None;
    }

    method RunPlanned(r: nat, c: RunContext, snap: Run, planned: Planned, luck: Luck)
      returns (aw: Await, error: Option<Error>)
      requires r < |ledger.records|
      modifies this`unfinishable, ledger, approvals, c, c.ledger
      ensures Only(r)
      ensures Ended(Here(r, c), aw, error) == AgentSteps.RunPlanned(old(Here(r, c)), cfg, snap, planned, luck)
    {
      hide AgentSteps.RunSpecialist, AgentSteps.RunCapability, AgentSteps.RunProposal, AgentSteps.RunVerifyHint;
      aw, error := Done, None;
      var ordinal := c.cursor + 1;
      // The plan revision is the attempt.
      var attempt := c.ledger.revisions + 1;
      match planned.kind {
        case SpecialistStep =>
          aw, error := RunSpecialist(r, c, snap, planned, ordinal, attempt);
        case CapabilityStep =>
          aw, error := RunCapability(r, c, snap, planned, ordinal, attempt, luck);
        case ProposalStep =>
          error := RunProposal(r, c, ordinal, attempt, luck);
        case VerifyStep =>
          error := RunVerifyHint(r, c, ordinal, attempt);
      }
    }

    method NextPlanned(r: nat, c: RunContext, snap: Run, luck: Luck) returns (aw: Await, error: Option<Error>)
      requires r < |ledger.records|
      modifies this`unfinishable, ledger, approvals, c, c.ledger
      ensures Only(r)
      ensures Ended(Here(r, c), aw, error) == AgentSteps.NextPlanned(old(Here(r, c)), cfg, snap, luck)
    {
      hide AgentSteps.RunPlanned, Move;
      aw, error := Done, None;
      if c.plan.None? || c.cursor >= |c.plan.value| {
        error := MoveTo(r, c, Verifying);
        return;
      }
      if c.ledger.steps >= c.ledger.limits.maxSteps {
        error := Some(Exhausted(BudgetExhausted));
        return;
      }
      if luck.late {
        error := Some(Exhausted(Timeout));
        return;
      }
      aw, error := RunPlanned(r, c, snap, c.plan.value[c.cursor], luck);
      if error.None? && aw.Done? {
        c.ledger.NoteStep();
      }
    }

    method NextStep(r: nat, c: RunContext, snap: Run, luck: Luck) returns (aw: Await, error: Option<Error>)
      requires r < |ledger.records|
      modifies this`unfinishable, ledger, approvals, c, c.ledger
      ensures Only(r) && Ended(Here(r, c), aw, error) == AgentSteps.NextStep(old(Here(r, c)), cfg, snap, luck)
    {
      hide AgentSteps.NextPlanned, Move;
      aw, error := Done, None;
      if snap.state.Interrupted? {
        error := MoveTo(r, c, Running);
        if error.Some? {
          return;
        }
      }
      aw, error := NextPlanned(r, c, snap, luck);
    }

    // -------------------------------------------------------------- the end

    /** Reads every row ever recorded: which of them are not settled, and which are uncertain? */
    method Unsettled(rows: seq<Row>) returns (unsettled: bool, uncertain: bool)
      ensures unsettled <==> !AllSettledOk(rows)
      ensures uncertain <==> AnyUnknown(rows)
    {
      unsettled, uncertain := false, false;
      var i := 0;
      while i < |rows|
        invariant 0 <= i <= |rows|
        invariant unsettled <==> exists j :: 0 <= j < i && !rows[j].state.SettledOk()
        invariant uncertain <==> exists j :: 0 <= j < i && rows[j].state.RowUnknown?
      {
        if !rows[i].state.SettledOk() {
          unsettled := true;
          if rows[i].state.RowUnknown? {
            uncertain := true;
          }
        }
        i := i + 1;
      }
    }

    method Verify(r: nat, c: RunContext, luck: Luck) returns (aw: Await, error: Option<Error>)
      requires r < |ledger.records|
      modifies this`unfinishable, ledger, approvals
      ensures Only(r) && Ended(Here(r, c), aw, error) == AgentSteps.Verify(old(Here(r, c)), cfg, luck)
    {
      hide CreateRow, SetRowState, AgentSteps.Finish, AgentSteps.Harvest, AllSettledOk, AnyUnknown;
      aw, error := Done, None;
      var rows := ledger.records[r].rows;
      var unsettled, uncertain := Unsettled(rows);
      var i := ledger.CreateStep(r, VerifyRow, |rows| + 1, 1);
      if i.None? {
        error := Some(Unexpected);
      } else if uncertain {
        Mark(r, c, i.value, RowUnknown);
        aw := Finish(r, c, Failed, RecoveryRequired);
      } else if unsettled {
        Mark(r, c, i.value, RowFailed);
        aw := Finish(r, c, Failed, SpecialistFailed);
      } else {
        Mark(r, c, i.value, RowSucceeded);
        aw, error := Harvest(r, c, luck);
      }
    }

    method Harvest(r: nat, c: RunContext, luck: Luck) returns (aw: Await, error: Option<Error>)
      requires r < |ledger.records|
      modifies this`unfinishable, ledger, approvals
      ensures Only(r) && Ended(Here(r, c), aw, error) == AgentSteps.Harvest(old(Here(r, c)), cfg, luck)
    {
      hide CreateRow, SetRowState, AgentSteps.Finish;
      aw, error := Done, None;
      if !ledger.records[r].run.scope.Build? || !cfg.workspaces {
        aw := Finish(r, c, Succeeded, NoCategory);
        return;
      }
      if !c.workspace {
        aw := Finish(r, c, Failed, NoResult);
        return;
      }
      var i := ledger.CreateStep(r, HarvestRow, |ledger.records[r].rows| + 1, 1);
      if i.None? {
        error := Some(Unexpected);
        return;
      }
      if luck.harvestOk {
        ledger.SetRun(r, ledger.records[r].run.(branch := true));
        Mark(r, c, i.value, RowSucceeded);
        aw := Finish(r, c, Succeeded, NoCategory);
      } else {
        Mark(r, c, i.value, RowFailed);
        aw := Finish(r, c, Failed, NoResult);
      }
    }

    /** What surrounds a stretch: a finished step is counted, an exception ends the run or leaves the tick. */
    method Settled(r: nat, c: RunContext, stage: Stage, before: Await, error: Option<Error>) returns (aw: Await)
      requires r < |ledger.records|
      modifies this`unfinishable, ledger, approvals, c.ledger
      ensures Only(r)
      ensures Stopped(Here(r, c), aw) == Close(Ended(old(Here(r, c)), before, error), stage)
    {
      hide AgentSteps.Finish;
      aw := before;
      if error.Some? {
        if stage.InPoll? {
          return Thrown;
        }
        aw := Finish(r, c, Failed, CategoryOf(error.value));
      } else if stage.InStep? && before.Done? {
        c.ledger.NoteStep();
      }
    }

    /** One step of a run that is neither parked nor at its end, up to the first await. */
    method Advance(r: nat, c: RunContext, snap: Run, luck: Luck) returns (aw: Await)
      requires r < |ledger.records|
      modifies this`unfinishable, ledger, approvals, c, c.ledger
      ensures Only(r) && Stopped(Here(r, c), aw) == AgentSteps.Advance(old(Here(r, c)), cfg, snap, luck)
    {
      hide AgentSteps.Finish, AgentSteps.AdvanceCreated, AgentSteps.DoPlan, AgentSteps.NextStep;
      hide AgentSteps.Verify, Close;
      if c.cancel {
        aw := Finish(r, c, Cancelled, CancelledByUser);
        return;
      }
      aw := Done;
      var error := None;
      if snap.state.Created? {
        error := AdvanceCreated(r, c, snap, luck);
      } else if snap.state.Planning? {
        aw, error := DoPlan(r, c, InPlanning);
      } else if snap.state.Running? || snap.state.Interrupted? {
        aw, error := NextStep(r, c, snap, luck);
      } else if snap.state.Verifying? {
        aw, error := Verify(r, c, luck);
      } else {
        return;
      }
      aw := Settled(r, c, InPlanning, aw, error);
    }

    // -------------------------------------------------------------- polling an approval

    /** The newest waiting row, as the ledger orders them. */
    method NewestWaiting(rows: seq<Row>) returns (found: Option<nat>)
      ensures found == LastWaiting(rows)
    {
      found := None;
      var k := 0;
      while k < |rows|
        invariant 0 <= k <= |rows| && found == LastWaiting(rows[..k])
      {
        assert rows[..k + 1][..k] == rows[..k];
        if rows[k].state.RowWaiting? && (found.None? || !Later(rows[found.value], rows[k])) {
          found := Some(k);
        }
        k := k + 1;
      }
      assert rows[..k] == rows;
    }

    method Poll(r: nat, c: RunContext) returns (aw: Await)
      requires r < |ledger.records|
      modifies this`unfinishable, ledger, approvals, c.ledger
      ensures Only(r) && Stopped(Here(r, c), aw) == AgentSteps.Poll(old(Here(r, c)))
    {
      hide LastWaiting, Move;
      var found := c.pending;
      if found.None? || found.value >= |ledger.records[r].rows| {
        found := NewestWaiting(ledger.records[r].rows);
      }
      if found.Some? {
        return Reading(found.value);
      }
      var error := MoveTo(r, c, Running);
      aw := Settled(r, c, InPoll, Done, error);
    }

    method ReadBack(r: nat, c: RunContext, i: nat, told: ApprovalReading) returns (aw: Await)
      requires r < |ledger.records|
      modifies this`unfinishable, ledger, approvals, c.ledger
      ensures Only(r) && Stopped(Here(r, c), aw) == AgentSteps.ReadBack(old(Here(r, c)), cfg, i, told)
    {
      hide Move, SetRowState, PutRow, AgentSteps.Finish, AgentSteps.OpenBoundary, Close;
      ghost var l := Here(r, c);
      if i >= |ledger.records[r].rows| {
        return Thrown;
      }
      var row := ledger.records[r].rows[i];
      var reading := if !cfg.control || row.approval.None? then ReadLapsed else told;
      if reading.ReadPending? {
        return Done;
      }
      if reading.ReadApproved? {
        ledger.UpdateStep(r, i, row.(granted := true, redeemed := row.redeemed + 1));
        return Redeeming(i);
      }
      approvals.Release(r);
      assert Here(r, c) == Release(l);
      if reading.ReadDenied? {
        Mark(r, c, i, RowDenied);
        ghost var l1 := Here(r, c);
        assert l1 == MarkRow(Release(l), i, RowDenied);
        var error := MoveTo(r, c, Running);
        assert Ended(Here(r, c), Done, error) == Move(l1, Running);
        if error.Some? {
          return Thrown;
        }
        aw := Finish(r, c, Failed, ApprovalDenied);
        return;
      }
      aw := Lapsed(r, c);
    }

    /** A lapsed approval: back to the step it was for, up to a cap; then a human has to look. */
    method Lapsed(r: nat, c: RunContext) returns (aw: Await)
      requires r < |ledger.records|
      modifies this`unfinishable, ledger, approvals, c.ledger
      ensures Only(r)
      ensures Stopped(Here(r, c), aw)
              == match Move(old(Here(r, c)), Running)
                 case Failing(l1, _) => Stopped(l1, Thrown)
                 case Stopped(l1, _) =>
                   if l1.ctx.approvals >= MAX_APPROVAL_REQUESTS then Close(AgentSteps.OpenBoundary(l1, InPoll), InPoll)
                   else Stopped(l1, Done)
    {
      hide Move, AgentSteps.OpenBoundary, Close;
      ghost var l := Here(r, c);
      var error := MoveTo(r, c, Running);
      ghost var l1 := Here(r, c);
      assert Ended(l1, Done, error) == Move(l, Running);
      if error.Some? {
        return Thrown;
      }
      aw := Done;
      if c.approvals >= MAX_APPROVAL_REQUESTS {
        aw, error := OpenBoundary(r, c, InPoll);
        aw := Settled(r, c, InPoll, aw, error);
      }
    }

    method PlannedFor(c: RunContext, ordinal: nat) returns (planned: Option<Planned>)
      ensures forall row: Row :: row.ordinal == ordinal ==>
                OptionalFor(c.Value(), row) == (planned.Some? && planned.value.optional)
    {
      var index := if ordinal >= 1 then ordinal - 1 else 0;
      planned := if c.plan.Some? && index < |c.plan.value| then Some(c.plan.value[index]) else None;
    }

    method RedeemedBack(r: nat, c: RunContext, snap: Run, i: nat, reply: RouterReply) returns (aw: Await)
      requires r < |ledger.records|
      modifies this`unfinishable, ledger, approvals, c, c.ledger
      ensures Only(r) && Stopped(Here(r, c), aw) == AgentSteps.RedeemedBack(old(Here(r, c)), cfg, snap, i, reply)
    {
      hide RunLedger.Transition, PutRow, AgentSteps.Settle, Close, OptionalFor;
      ghost var l := Here(r, c);
      if i >= |ledger.records[r].rows| {
        return Thrown;
      }
      var row := ledger.records[r].rows[i];
      if reply.RouterRaised? {
        ledger.UpdateStep(r, i, row.(raised := row.raised + 1));
        return Thrown;
      }
      approvals.Release(r);
      assert Here(r, c) == Release(l);
      var error := MoveTo(r, c, Running);
      ghost var l1 := Here(r, c);
      assert Ended(l1, Done, error) == Move(Release(l), Running);
      if error.Some? {
        return Thrown;
      }
      aw := SettleGranted(r, c, snap, i, row.ordinal, reply.verdict);
    }

    method SettleGranted(r: nat, c: RunContext, snap: Run, i: nat, ordinal: nat, verdict: Verdict) returns (aw: Await)
      requires r < |ledger.records| && i < |ledger.records[r].rows| && ledger.records[r].rows[i].ordinal == ordinal
      modifies this`unfinishable, ledger, approvals, c, c.ledger
      ensures Only(r)
      ensures var l := old(Here(r, c));
              Stopped(Here(r, c), aw)
              == Close(AgentSteps.Settle(l, cfg, snap, i, OptionalFor(l.ctx, l.rec.rows[i]), verdict, InPoll), InPoll)
    {
      hide AgentSteps.Settle, Close, OptionalFor;
      var planned := PlannedFor(c, ordinal);
      var error;
      aw, error := Settle(r, c, snap, i, planned.Some? && planned.value.optional, verdict, InPoll);
      aw := Settled(r, c, InPoll, aw, error);
    }

    /** The stretch behind an await, given the answer that was awaited; another answer does nothing. */
    method Follow(r: nat, c: RunContext, snap: Run, before: Await, answer: Answer) returns (aw: Option<Await>)
      requires r < |ledger.records|
      modifies this`unfinishable, ledger, approvals, c, c.ledger
      ensures Only(r)
      ensures match AgentSteps.Follow(old(Here(r, c)), cfg, snap, before, answer)
              case None => aw == None && Here(r, c) == old(Here(r, c))
              case Some(seg) => aw.Some? && Stopped(Here(r, c), aw.value) == seg
    {
      hide Close, AgentSteps.PlanBack, AgentSteps.SpecialistBack, AgentSteps.AskedBack, AgentSteps.ReadBack,
        AgentSteps.RedeemedBack;
      var stage, next, error := InStep, Done, None;
      match (before, answer) {
        case (Planner(s), FromPlanner(first, second)) =>
          stage := s;
          error := PlanBack(r, c, first, second);
        case (Specialist(i, planned, digest), FromSpecialist(said)) =>
          next, error := SpecialistBack(r, c, snap, i, planned, digest, said);
        case (Asking(i, planned), FromRouter(reply)) =>
          next, error := AskedBack(r, c, snap, i, planned, reply);
        case (Reading(i), FromApproval(told)) =>
          next := ReadBack(r, c, i, told);
          return Some(next);
        case (Redeeming(i), FromRouter(reply)) =>
          next := RedeemedBack(r, c, snap, i, reply);
          return Some(next);
        case (Boundary(s), FromNotice) =>
          stage := s;
        case _ =>
          return None;
      }
      next := Settled(r, c, stage, next, error);
      aw := Some(next);
    }

    /** A run's turn in a tick: a parked approval is polled, everything else is advanced. */
    method TakeTurn(r: nat, c: RunContext, snap: Run, luck: Luck) returns (aw: Await)
      requires r < |ledger.records|
      modifies this`unfinishable, ledger, approvals, c, c.ledger
      ensures Only(r) && Stopped(Here(r, c), aw) == Turn(old(Here(r, c)), cfg, snap, luck)
    {
      hide AgentSteps.Poll, AgentSteps.Advance;
      if snap.state.WaitingApproval? {
        aw := Poll(r, c);
      } else {
        aw := Advance(r, c, snap, luck);
      }
    }
  }
}
