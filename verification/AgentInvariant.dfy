/**
 What every stretch of the agent runtime keeps: the durable invariant at every single
 write, and the relation of record, context and approval slot at every await.
 */
module AgentInvariant {
  import opened Basics
  import opened RunLedger
  import opened AgentSteps

  // ---------------------------------------------------------------- what a crash may rely on

  predicate RowOk(row: Row) {
    && row.asked <= 1
    && row.raised <= row.redeemed <= row.raised + 1
    && (row.redeemed > 0 ==> row.granted)
    && (row.granted ==> row.approval.Some?)
    && (row.approval.Some? ==> row.asked == 1)
    && (row.asked > 0 ==> row.kind.CapabilityRow?)
    && !(row.state.RowRunning? && row.child)
  }

  predicate HasFailed(rows: seq<Row>) {
    exists i :: 0 <= i < |rows| && rows[i].state.RowFailed?
  }

  predicate Unique(rows: seq<Row>) {
    forall i, j :: 0 <= i < j < |rows| ==> rows[i].ordinal != rows[j].ordinal || rows[i].attempt != rows[j].attempt
  }

  /** Holds of the ledger after every single write, so it holds of whatever a crash leaves behind. */
  predicate RecInv(cfg: Config, rec: Record) {
    && (forall i :: 0 <= i < |rec.rows| ==> RowOk(rec.rows[i]))
    && Unique(rec.rows)
    && (rec.run.state.Created? || rec.run.state.Planning? ==> rec.rows == [] && rec.run.revision == 0)
    && (rec.run.revision > 0 ==> HasFailed(rec.rows))
    && rec.run.revision <= cfg.LimitsOf(rec.run.scope).maxRevisions
    && (rec.run.state.Succeeded? ==>
          AllSettledOk(rec.rows) && (rec.run.scope.Build? && cfg.workspaces ==> rec.run.branch))
    && (rec.run.state.WaitingUser? ==> !AllSettledOk(rec.rows))
  }

  // ---------------------------------------------------------------- what holds at an await

  /** No waiting row has an approval left to redeem, `except` aside. */
  predicate Clean(rows: seq<Row>, except: int) {
    forall i :: 0 <= i < |rows| && i != except && rows[i].state.RowWaiting? ==> rows[i].redeemed == rows[i].raised
  }

  function Excepted(aw: Await): int {
    if aw.Redeeming? then aw.row else -1
  }

  /** Before the first replan the rows are the plan's steps, one each, in order. */
  predicate InStepWithPlan(rows: seq<Row>, plan: seq<Planned>, cursor: nat, verifying: bool) {
    && (forall k :: 0 <= k < |rows| ==> rows[k].ordinal == k + 1 && rows[k].attempt == 1)
    && cursor <= |rows| <= cursor + 1
    && cursor <= |plan| && |rows| <= |plan|
    && (forall k :: 0 <= k < |rows| ==> rows[k].kind == RowKindOf(plan[k].kind))
    && (verifying ==> cursor == |plan|)
  }

  predicate UnderWay(s: RunState) {
    !s.Terminal() && !s.Created? && !s.Planning?
  }

  /** A coroutine that is in the middle of a step is in the middle of the step under the cursor. */
  predicate MidStep(s: RunState, aw: Await) {
    s.WaitingApproval? || (!s.Terminal() && (aw.Specialist? || aw.Asking?))
  }

  predicate Replanning(s: RunState, aw: Await) {
    (s.Running? && aw.Planner?) || (!s.Terminal() && aw.Boundary?)
  }

  predicate CtxFits(cfg: Config, rec: Record, ctx: Ctx, aw: Await) {
    && ctx.book.revisions == rec.run.revision
    && ctx.book.limits == cfg.LimitsOf(rec.run.scope)
    && ctx.book.plannerCalls <= 2 * (ctx.book.revisions + if aw.Planner? then 0 else 1)
    && (rec.run.state.Created? || rec.run.state.Planning? ==>
          ctx.plan.None? && ctx.cursor == 0 && ctx.book.plannerCalls == 0)
    && (MidStep(rec.run.state, aw) || Replanning(rec.run.state, aw) ==> ctx.plan.Some?)
    && (ctx.plan.Some? && UnderWay(rec.run.state) ==>
          && Clean(rec.rows, Excepted(aw))
          && (rec.run.revision == 0 ==>
                && InStepWithPlan(rec.rows, ctx.plan.value, ctx.cursor, rec.run.state.Verifying?)
                && (MidStep(rec.run.state, aw) || rec.run.state.WaitingUser? ==> |rec.rows| == ctx.cursor + 1)))
    && (rec.run.state.WaitingApproval? ==>
          && ctx.pending.Some? && ctx.pending.value < |rec.rows|
          && rec.rows[ctx.pending.value].state.RowWaiting?
          && (aw.Reading? || aw.Redeeming? ==> aw.row == ctx.pending.value))
  }

  predicate AwaitFits(me: nat, rec: Record, slot: Option<nat>, aw: Await) {
    var s := rec.run.state;
    match aw
    case Done => true
    case Thrown => true
    case Planner(stage) =>
      if stage.InPlanning? then s.Planning? || s.Cancelled?
      else rec.run.revision > 0 && (s.Running? || s.Cancelled?)
    case Specialist(i, _, _) =>
      i < |rec.rows| && rec.rows[i].state.RowRunning? && (s.WaitingSpecialist? || s.Cancelled?)
    case Asking(i, _) =>
      && i < |rec.rows| && rec.rows[i].state.RowRunning? && rec.rows[i].asked == 1
      && rec.rows[i].redeemed == 0 && rec.rows[i].approval.None?
      && ((s.Running? && slot == Some(me)) || s.Cancelled?)
    case Reading(i) =>
      && i < |rec.rows| && rec.rows[i].state.RowWaiting? && rec.rows[i].redeemed == rec.rows[i].raised
      && (s.WaitingApproval? || s.Cancelled?)
    case Redeeming(i) =>
      && i < |rec.rows| && rec.rows[i].state.RowWaiting? && rec.rows[i].redeemed == rec.rows[i].raised + 1
      && (s.WaitingApproval? || s.Cancelled?)
    case Boundary(stage) => !stage.InPlanning? && (s.WaitingUser? || s.Running? || s.Cancelled?)
    case Finishing => s.Terminal()
  }

  /** Record, context, slot and await of one run belong together. */
  predicate At(cfg: Config, me: nat, rec: Record, octx: Option<Ctx>, slot: Option<nat>, aw: Await) {
    var s := rec.run.state;
    && (slot == Some(me) ==> s.WaitingApproval? || (aw.Asking? && s.Running?))
    && (s.WaitingApproval? ==> slot == Some(me) && octx.Some? && Clean(rec.rows, Excepted(aw)))
    && (s.WaitingSpecialist? ==> aw.Specialist?)
    && !s.WaitingCapability?
    && (s.Created? || s.Planning? ==> octx.Some?)
    && (octx.Some? ==> CtxFits(cfg, rec, octx.value, aw))
    && AwaitFits(me, rec, slot, aw)
  }

  /** What a stretch that starts in `l` owes the world when it stops. */
  predicate SegOk(cfg: Config, l: Local, snap: Run, seg: Seg) {
    && seg.Stopped?
    && seg.l.me == l.me && !seg.l.stuck
    && seg.l.rec.run.scope == l.rec.run.scope
    && TrailOk(cfg, seg.l)
    && At(cfg, l.me, seg.l.rec, Some(seg.l.ctx), seg.l.slot, seg.aw)
    && SlotFrame(l.me, l.slot, seg.l.slot)
    && (seg.aw.Specialist? || seg.aw.Asking? || seg.aw.Reading? || seg.aw.Redeeming?
        ==> seg.l.rec.run.revision == snap.revision)
  }

  predicate TrailOk(cfg: Config, l: Local) {
    && RecInv(cfg, l.rec)
    && (forall t :: t in l.trail ==> RecInv(cfg, t))
    && (l.trail != [] ==> l.trail[|l.trail| - 1] == l.rec)
  }

  /** The slot changes only between free and held by the run at work. */
  predicate SlotFrame(me: nat, before: Option<nat>, after: Option<nat>) {
    before == after || (before in {None, Some(me)} && after in {None, Some(me)})
  }

  lemma FinishOk(cfg: Config, l: Local, s: RunState, category: Category)
    requires TrailOk(cfg, l) && !l.stuck
    requires s.Failed? || s.Cancelled? || (s.Succeeded? && (l.rec.run.state.Verifying? || l.rec.run.state.Terminal()))
    requires s.Succeeded? && !l.rec.run.state.Terminal() ==>
               AllSettledOk(l.rec.rows) && (l.rec.run.scope.Build? && cfg.workspaces ==> l.rec.run.branch)
    ensures var seg := Finish(l, s, category);
            && seg.Stopped? && seg.l.me == l.me && !seg.l.stuck && TrailOk(cfg, seg.l)
            && seg.l.rec.rows == l.rec.rows && seg.l.ctx == l.ctx
            && seg.l.rec.run.scope == l.rec.run.scope && seg.l.rec.run.revision == l.rec.run.revision
            && seg.l.rec.run.state.Terminal()
            && (l.rec.run.state.Terminal() ==> seg == Stopped(l, Done))
            && (!l.rec.run.state.Terminal() ==> seg.aw == Finishing && seg.l.slot != Some(l.me))
            && SlotFrame(l.me, l.slot, seg.l.slot)
  {
    if !l.rec.run.state.Terminal() {
      EveryoneCanEnd(l.rec, category);
    }
  }

  /** The premises of a stretch: the run is at rest and the snapshot's revision is current. */
  predicate Ready(cfg: Config, l: Local, snap: Run, aw: Await) {
    && TrailOk(cfg, l) && !l.stuck
    && At(cfg, l.me, l.rec, Some(l.ctx), l.slot, aw)
    && snap.revision == l.rec.run.revision
  }

  /** In the middle of a stretch that started in `l`: enough to end the run from here. */
  predicate Going(cfg: Config, l: Local, l': Local) {
    && TrailOk(cfg, l') && !l'.stuck && l'.me == l.me
    && l'.rec.run.scope == l.rec.run.scope
    && SlotFrame(l.me, l.slot, l'.slot)
    && (l'.rec.run.state.Terminal() ==> l'.slot != Some(l.me))
    && l'.ctx.book.revisions == l'.rec.run.revision
    && l'.ctx.book.limits == cfg.LimitsOf(l.rec.run.scope)
    && l'.ctx.book.plannerCalls <= 2 * (l'.ctx.book.revisions + 1)
  }

  /** Ending the run leaves everything in order, wherever in a stretch it happens. */
  lemma EndOk(cfg: Config, l: Local, snap: Run, l': Local, s: RunState, category: Category)
    requires Going(cfg, l, l') && (s.Failed? || s.Cancelled?)
    ensures SegOk(cfg, l, snap, Finish(l', s, category))
    ensures Finish(l', s, category).l.rec.run.state.Terminal()
    ensures forall stage :: SegOk(cfg, l, snap, Close(Finish(l', s, category), stage))
  {
    hide RecInv, InStepWithPlan, Clean, Finish;
    FinishOk(cfg, l', s, category);
  }

  /** An exception inside a stretch that catches them ends the run. */
  lemma FailureOk(cfg: Config, l: Local, snap: Run, seg: Seg, stage: Stage)
    requires seg.Failing? && Going(cfg, l, seg.l) && !stage.InPoll?
    ensures SegOk(cfg, l, snap, Close(seg, stage))
    ensures Close(seg, stage).l.rec.run.state.Terminal()
  {
    hide RecInv, SegOk, Going;
    EndOk(cfg, l, snap, seg.l, Failed, CategoryOf(seg.error));
  }

  // ---------------------------------------------------------------- steps of a plan

  /** The premises of a planned step: RUNNING, a plan, and its budget check passed. */
  predicate Stepping(cfg: Config, l: Local, snap: Run) {
    && Ready(cfg, l, snap, Done)
    && l.rec.run.state.Running?
    && l.ctx.plan.Some? && l.ctx.cursor < |l.ctx.plan.value|
  }

  /** States whose own promises do not speak about the rows. */
  predicate Free(s: RunState) {
    !s.Created? && !s.Planning? && !s.Succeeded? && !s.WaitingUser?
  }

  lemma WriteOk(cfg: Config, l: Local, rec: Record)
    requires TrailOk(cfg, l) && RecInv(cfg, rec)
    ensures TrailOk(cfg, Write(l, rec))
  {
  }

  lemma AppendKeeps(cfg: Config, rec: Record, row: Row)
    requires RecInv(cfg, rec) && RowOk(row) && Free(rec.run.state)
    requires !Taken(rec, row.ordinal, row.attempt)
    ensures RecInv(cfg, rec.(rows := rec.rows + [row]))
  {
    var rows := rec.rows + [row];
    if HasFailed(rec.rows) {
      var i :| 0 <= i < |rec.rows| && rec.rows[i].state.RowFailed?;
      assert rows[i].state.RowFailed?;
    }
    forall i, j | 0 <= i < j < |rows|
      ensures rows[i].ordinal != rows[j].ordinal || rows[i].attempt != rows[j].attempt
    {
      if j == |rec.rows| {
        assert rec.rows[i].ordinal != row.ordinal || rec.rows[i].attempt != row.attempt;
      }
    }
  }

  lemma PutKeeps(cfg: Config, rec: Record, i: nat, row: Row)
    requires RecInv(cfg, rec) && RowOk(row) && Free(rec.run.state)
    requires i < |rec.rows| && row.ordinal == rec.rows[i].ordinal && row.attempt == rec.rows[i].attempt
    requires rec.rows[i].state.RowFailed? ==> row.state.RowFailed?
    ensures RecInv(cfg, PutRow(rec, i, row))
    ensures row.state.RowFailed? || HasFailed(rec.rows) ==> HasFailed(PutRow(rec, i, row).rows)
  {
    var rows := rec.rows[i := row];
    assert rows[i] == row;
    if HasFailed(rec.rows) {
      var k :| 0 <= k < |rec.rows| && rec.rows[k].state.RowFailed?;
      assert rows[k].state.RowFailed?;
    }
  }

  /** The row order after one more row under the cursor. */
  lemma InStepAppend(rows: seq<Row>, plan: seq<Planned>, cursor: nat, row: Row)
    requires InStepWithPlan(rows, plan, cursor, false) && cursor < |plan|
    requires row.ordinal == cursor + 1 && row.attempt == 1 && row.kind == RowKindOf(plan[cursor].kind)
    requires forall i :: 0 <= i < |rows| ==> rows[i].ordinal != row.ordinal || rows[i].attempt != row.attempt
    ensures InStepWithPlan(rows + [row], plan, cursor, false) && |rows| == cursor
  {
    // A row under the cursor would mean that the step was entered before: UNIQUE refuses that.
    assert forall i :: 0 <= i < |rows| ==> rows[i].ordinal == i + 1 && i != cursor;
  }

  /** A move of the run's state keeps the ledger's promises, if the new state's own promise holds. */
  lemma MoveOk(cfg: Config, l: Local, s: RunState)
    requires TrailOk(cfg, l) && !s.Succeeded? && !s.Created?
    requires s.Planning? ==> l.rec.rows == [] && l.rec.run.revision == 0
    requires s.WaitingUser? ==> !AllSettledOk(l.rec.rows)
    ensures Move(l, s).Failing? ==> Move(l, s) == Failing(l, Unexpected)
    ensures Move(l, s).Stopped? ==>
              Move(l, s).aw == Done && Move(l, s).l == Write(l, l.rec.(run := l.rec.run.(state := s)))
              && TrailOk(cfg, Move(l, s).l)
  {
  }
}
