/**
 Runs that can no longer succeed. A step is entered once: whoever comes back to it, after a
 lapsed approval, after waiting for the slot, after a boundary the user has settled, is
 refused by UNIQUE(run, seq, attempt) and ends FAILED.
 */
module AgentDoom {
  import opened Basics
  import opened RunLedger
  import opened RunBudget
  import opened AgentSteps
  import opened AgentInvariant
  import opened AgentClosing
  import opened AgentGrowth
  import opened AgentWorld
  import opened AgentSafety
  import opened AgentTheorems
  import opened AgentRestart

  predicate HasBad(rows: seq<Row>) {
    exists i :: 0 <= i < |rows| && rows[i].state.SettledBad()
  }

  /** Back at a step that was entered before and has not been settled. */
  predicate Reentering(rec: Record, ctx: Ctx) {
    && (rec.run.state.Running? || rec.run.state.WaitingUser?)
    && ctx.plan.Some? && ctx.cursor < |ctx.plan.value|
    && Taken(rec, ctx.cursor + 1, ctx.book.revisions + 1)
    && !AllSettledOk(rec.rows)
  }

  predicate Wedged(w: World, r: nat)
    requires r < |w.recs|
  {
    && !w.tick.Down? && ContextOf(w, r).Some? && Reentering(w.recs[r], ContextOf(w, r).value)
    && (AwaitOf(w.tick, r).Done? || AwaitOf(w.tick, r).Boundary?)
  }

  /** Ended otherwise, carrying a row that went wrong, or with an open row nobody will settle. */
  predicate Doomed(w: World, r: nat) {
    && r < |w.recs|
    && !w.recs[r].run.state.Succeeded?
    && (|| w.recs[r].run.state.Terminal()
        || HasBad(w.recs[r].rows)
        || (Frozen(w, r) && !AllSettledOk(w.recs[r].rows))
        || Wedged(w, r))
  }

  // ---------------------------------------------------------------- re-entry

  lemma EntryRefused(l: Local, cfg: Config, snap: Run, planned: Planned, luck: Luck)
    requires Taken(l.rec, l.ctx.cursor + 1, l.ctx.book.revisions + 1)
    ensures var seg := RunPlanned(l, cfg, snap, planned, luck);
            seg.Failing? && seg.l == l.(ctx := seg.l.ctx)
  {
    hide Taken;
  }

  /** Entering a step a second time ends the run FAILED in that very advance: no call, no new row. */
  lemma ReentryFails(l: Local, cfg: Config, snap: Run, luck: Luck)
    requires l.trail == [] && snap.state.Running? && l.rec.run.state.Running? && Reentering(l.rec, l.ctx)
    ensures var seg := Advance(l, cfg, snap, luck);
            && seg.Stopped? && (seg.l.rec.run.state.Failed? || seg.l.rec.run.state.Cancelled?)
            && seg.l.rec.rows == l.rec.rows && seg.l.trail == [seg.l.rec]
  {
    hide Taken, AllSettledOk, RunPlanned;
    EntryRefused(l, cfg, snap, l.ctx.plan.value[l.ctx.cursor], luck);
    var seg := RunPlanned(l, cfg, snap, l.ctx.plan.value[l.ctx.cursor], luck);
    EndsWith(l, Cancelled, CancelledByUser);
    EndsWith(l, Failed, BudgetExhausted);
    EndsWith(l, Failed, Timeout);
    EndsWith(seg.l, Failed, CategoryOf(seg.error));
  }

  lemma EndsWith(l: Local, s: RunState, category: Category)
    requires !l.rec.run.state.Terminal() && (s.Failed? || s.Cancelled?)
    ensures var seg := Finish(l, s, category);
            && seg.Stopped? && seg.aw.Finishing? && seg.l.rec.run.state == s
            && seg.l.rec.rows == l.rec.rows && seg.l.trail == l.trail + [seg.l.rec]
  {
    EveryoneCanEnd(l.rec, category);
  }

  // ---------------------------------------------------------------- doom stays

  lemma {:induction false} BadStays(a: seq<Row>, b: seq<Row>)
    requires HasBad(a) && RowsGrow(a, b)
    ensures HasBad(b) && !AllSettledOk(b)
  {
    var i :| 0 <= i < |a| && a[i].state.SettledBad();
    assert RowGrows(a[i], b[i]);
    assert b[i].state.SettledBad();
  }

  lemma OpenRowStays(a: seq<Row>, b: seq<Row>)
    requires !AllSettledOk(a) && a <= b
    ensures !AllSettledOk(b)
  {
    var i :| 0 <= i < |a| && !a[i].state.SettledOk();
    assert b[i] == a[i];
  }

  lemma NoSuccess(cfg: Config, w: World, r: nat)
    requires Live(cfg, w) && r < |w.recs| && !AllSettledOk(w.recs[r].rows)
    ensures !w.recs[r].run.state.Succeeded?
  {
    hide At, RowOk, Unique, TickFits;
    assert RecInv(cfg, w.recs[r]);
  }

  /** What one event does to a run that is back at a step it had entered before. */
  predicate Caught(w: World, out: Out, r: nat)
    requires r < |w.recs| <= |out.w.recs|
  {
    && (Wedged(out.w, r) || out.w.recs[r].run.state.Failed? || out.w.recs[r].run.state.Cancelled?
        || (out.w.tick.Down? && !AllSettledOk(out.w.recs[r].rows)))
    && (out.r == r ==> forall t :: t in out.trail ==>
          t.run.state.Failed? || t.run.state.Cancelled? || !AllSettledOk(t.rows))
  }

  lemma StaysWedged(w: World, r: nat, out: Out)
    requires r < |w.recs| <= |out.w.recs| && Wedged(w, r) && out.w.recs[r] == w.recs[r]
    requires !out.w.tick.Down? ==> ContextOf(out.w, r) == ContextOf(w, r) && AwaitOf(out.w.tick, r) == AwaitOf(w.tick, r)
    requires out.r == r ==> out.trail == []
    ensures Caught(w, out, r)
  {
    hide AllSettledOk, Taken;
  }

  lemma WedgedElsewhere(w: World, r: nat, l: Local, snap: Run, detached: bool, rest: seq<Snap>, seg: Seg,
                        advances: seq<nat>)
    requires r < |w.recs| && Wedged(w, r) && l.me != r && l.me < |w.recs|
    requires w.tick.Busy? ==> w.tick.r == l.me
    ensures Caught(w, Out(Leave(w, l.me, snap, detached, rest, seg).(advances := advances), l.me, seg.l.trail), r)
  {
    hide AllSettledOk, Taken, Reentering;
    var w' := Leave(w, l.me, snap, detached, rest, seg).(advances := advances);
    StaysWedged(w, r, Out(w', l.me, seg.l.trail));
  }

  lemma WedgedVisit(cfg: Config, w: World, r: nat, luck: Luck)
    requires Live(cfg, w) && r < |w.recs| && Wedged(w, r)
    ensures Caught(w, VisitHead(cfg, w, luck), r)
  {
    hide RecInv, At, SnapFits, Poll, Advance, Skipped, Shape, Leave, Caught, AllSettledOk, Taken, Rebuild;
    var out := VisitHead(cfg, w, luck);
    if !w.tick.Between? || w.tick.rest == [] || w.tick.rest[0].r >= |w.recs| || Skipped(cfg, w, w.tick.rest[0]) {
      StaysWedged(w, r, out);
    } else {
      var s, rest := w.tick.rest[0], w.tick.rest[1..];
      var l := Enter(cfg, w, s.r);
      VisitOut(cfg, w, luck);
      if s.r == r {
        WedgedState(cfg, w, r);
        ReentryFails(l, cfg, s.run, luck);
        CaughtEnded(w, r, s.run, rest, Advance(l, cfg, s.run, luck), out.w.advances);
      } else if s.run.state.WaitingApproval? {
        WedgedElsewhere(w, r, l, s.run, false, rest, Poll(l), out.w.advances);
      } else {
        WedgedElsewhere(w, r, l, s.run, false, rest, Advance(l, cfg, s.run, luck), out.w.advances);
      }
    }
  }

  lemma WedgedState(cfg: Config, w: World, r: nat)
    requires Live(cfg, w) && r < |w.recs| && Wedged(w, r)
    requires w.tick.Between? && w.tick.rest != [] && w.tick.rest[0].r == r && !Skipped(cfg, w, w.tick.rest[0])
    ensures w.tick.rest[0].run.state.Running? && w.recs[r].run.state.Running?
  {
    hide RecInv, At, Shape, AllSettledOk, Taken;
    assert SnapFits(w.tick.rest[0].run, w.recs[r], ContextOf(w, r));
  }

  lemma CaughtEnded(w: World, r: nat, snap: Run, rest: seq<Snap>, seg: Seg, advances: seq<nat>)
    requires r < |w.recs| && (seg.l.rec.run.state.Failed? || seg.l.rec.run.state.Cancelled?)
    requires seg.l.trail == [seg.l.rec]
    ensures Caught(w, Out(Leave(w, r, snap, false, rest, seg).(advances := advances), r, seg.l.trail), r)
  {
    hide AllSettledOk, Wedged;
  }

  lemma WedgedReply(cfg: Config, w: World, r: nat, answer: Answer)
    requires Live(cfg, w) && r < |w.recs| && Wedged(w, r)
    ensures Caught(w, ReplyTo(cfg, w, answer), r)
  {
    hide RecInv, At, SnapFits, Shape, Leave, Caught, AllSettledOk, Taken, Rebuild, Follow;
    var out := ReplyTo(cfg, w, answer);
    var t := w.tick;
    if t.Busy? && t.r == r {
      NoticedBoundary(cfg, w, r, answer);
    } else if t.Busy? && t.r < |w.recs| && !t.aw.Finishing? {
      var l := if t.lost.Some? then Enter(cfg, w, t.r).(ctx := t.lost.value) else Enter(cfg, w, t.r);
      if Follow(l, cfg, t.snap, t.aw, answer).Some? {
        var seg := Follow(l, cfg, t.snap, t.aw, answer).value;
        WedgedElsewhere(w, r, l, t.snap, t.lost.Some?, t.rest, seg, w.advances);
        LeaveKeepsCount(w, t.r, t.snap, t.lost.Some?, t.rest, seg);
      } else {
        StaysWedged(w, r, out);
      }
    } else {
      StaysWedged(w, r, out);
    }
  }

  /** The boundary notice is out: the step is closed, and the run stays where it is. */
  lemma NoticedBoundary(cfg: Config, w: World, r: nat, answer: Answer)
    requires Live(cfg, w) && r < |w.recs| && Wedged(w, r) && w.tick.Busy? && w.tick.r == r
    ensures Caught(w, ReplyTo(cfg, w, answer), r)
  {
    hide RecInv, At, SnapFits, Shape, AllSettledOk, Taken, Rebuild;
  }

  lemma WedgedByUser(cfg: Config, w: World, r: nat, q: nat)
    requires Live(cfg, w) && r < |w.recs| && Wedged(w, r)
    ensures Caught(w, CancelRun(cfg, w, q), r) && Caught(w, ResumeRun(cfg, w, q), r)
    ensures Caught(w, Quiet(DropContext(w, q)), r)
  {
    WedgedCancel(cfg, w, r, q);
    WedgedResume(cfg, w, r, q);
    hide RecInv, At, SnapFits, AllSettledOk, Taken;
    StaysWedged(w, r, Quiet(DropContext(w, q)));
  }

  lemma WedgedCancel(cfg: Config, w: World, r: nat, q: nat)
    requires Live(cfg, w) && r < |w.recs| && Wedged(w, r)
    ensures Caught(w, CancelRun(cfg, w, q), r)
  {
    hide RecInv, At, SnapFits, CancelRun, TickFits, AllSettledOk, Taken;
    CancelIdle(cfg, w, q);
    if q >= |w.recs| || w.recs[q].run.state.Terminal() {
      StaysWedged(w, r, Quiet(w));
    } else {
      CancelRecord(cfg, w, q);
      CancelContexts(cfg, w, q);
      CancelWho(cfg, w, q);
    }
  }

  lemma WedgedResume(cfg: Config, w: World, r: nat, q: nat)
    requires Live(cfg, w) && r < |w.recs| && Wedged(w, r)
    ensures Caught(w, ResumeRun(cfg, w, q), r)
  {
    hide RecInv, At, SnapFits, ResumeRun, AllSettledOk;
    ResumeShape(cfg, w, q);
  }

  lemma WedgedSubmit(cfg: Config, w: World, r: nat, scope: Scope)
    requires Live(cfg, w) && r < |w.recs| && Wedged(w, r)
    ensures Caught(w, Happen(cfg, w, Submit(scope)), r) && Caught(w, Happen(cfg, w, BeginTick), r) && Caught(w, Quiet(w), r)
  {
    hide RecInv, At, SnapFits, TickFits, AllSettledOk, Taken, Reentering;
    var out := Happen(cfg, w, Submit(scope));
    assert ContextOf(out.w, r) == ContextOf(w, r);
    StaysWedged(w, r, out);
    StaysWedged(w, r, Happen(cfg, w, BeginTick));
    StaysWedged(w, r, Quiet(w));
  }

  lemma WedgedDies(w: World, r: nat, recs: seq<Record>, advances: seq<nat>)
    requires r < |w.recs| == |recs|
    requires recs[r].run.state.Failed? || recs[r].run.state.Cancelled? || !AllSettledOk(recs[r].rows)
    ensures Caught(w, Quiet(Die(w.(recs := recs, advances := advances))), r)
  {
    hide AllSettledOk;
  }

  lemma WedgedHappen(cfg: Config, w: World, r: nat, e: Event)
    requires Live(cfg, w) && r < |w.recs| && Wedged(w, r)
    ensures |w.recs| <= |Happen(cfg, w, e).w.recs| && Caught(w, Happen(cfg, w, e), r)
    decreases e
  {
    hide Live, VisitHead, ReplyTo, CancelRun, ResumeRun, DropContext, ReconcileFirst, AllSettledOk, Taken;
    hide WonFairly, Evolves;
    HappenGrows(cfg, w, e);
    WedgedDies(w, r, w.recs, w.advances);
    match e {
      case Submit(scope) => WedgedSubmit(cfg, w, r, scope);
      case BeginTick => WedgedSubmit(cfg, w, r, Research);
      case Visit(luck) => WedgedVisit(cfg, w, r, luck);
      case Reply(answer) => WedgedReply(cfg, w, r, answer);
      case Cancel(q) => WedgedByUser(cfg, w, r, q);
      case Notified(q) => WedgedByUser(cfg, w, r, q);
      case Resume(q) => WedgedByUser(cfg, w, r, q);
      case Reconcile(alive) => WedgedSubmit(cfg, w, r, Research);
      case Crash =>
      case CrashDuring(inner, writes) =>
        WedgedHappen(cfg, w, r, inner);
        var out := Happen(cfg, w, inner);
        WedgedDies(w, r, w.recs, Begun(w, out).advances);
        if out.r < |w.recs| && 1 <= writes <= |out.trail| {
          assert out.trail[writes - 1] in out.trail;
          WedgedDies(w, r, w.recs[out.r := out.trail[writes - 1]], Begun(w, out).advances);
        }
      case CrashInReconcile(runs, alive) => WedgedSubmit(cfg, w, r, Research);
    }
  }

  lemma DoomStays(cfg: Config, w: World, r: nat, e: Event)
    requires Live(cfg, w) && Doomed(w, r)
    ensures Live(cfg, Apply(cfg, w, e)) && Doomed(Apply(cfg, w, e), r)
  {
    hide Live, Happen, AllSettledOk, Wedged, Frozen, HasBad, RowsGrow;
    var w' := Apply(cfg, w, e);
    HappenOk(cfg, w, e);
    HappenGrows(cfg, w, e);
    assert Evolves(w.recs[r], w'.recs[r]);
    if !w.recs[r].run.state.Terminal() {
      if HasBad(w.recs[r].rows) {
        BadStays(w.recs[r].rows, w'.recs[r].rows);
        NoSuccess(cfg, w', r);
      } else if Wedged(w, r) {
        WedgedHappen(cfg, w, r, e);
        FromCaught(cfg, w, Happen(cfg, w, e), r);
      } else {
        FrozenHappen(cfg, w, r, e);
        OpenRowStays(w.recs[r].rows, w'.recs[r].rows);
        NoSuccess(cfg, w', r);
      }
    }
  }

  lemma FromCaught(cfg: Config, w: World, out: Out, r: nat)
    requires Live(cfg, out.w) && r < |w.recs| <= |out.w.recs| && Caught(w, out, r)
    ensures Doomed(out.w, r)
  {
    hide HasBad, Taken, Live, AllSettledOk;
    if !AllSettledOk(out.w.recs[r].rows) {
      NoSuccess(cfg, out.w, r);
    }
  }

  /** Over every further history: a doomed run does not succeed. */
  lemma {:induction false} DoomIsFinal(cfg: Config, w: World, events: seq<Event>, r: nat)
    requires Live(cfg, w) && Doomed(w, r)
    ensures Live(cfg, After(cfg, w, events)) && Doomed(After(cfg, w, events), r)
  {
    hide Live, Apply, Doomed;
    if events != [] {
      DoomIsFinal(cfg, w, events[..|events| - 1], r);
      DoomStays(cfg, After(cfg, w, events[..|events| - 1]), r, events[|events| - 1]);
    }
  }

  // ---------------------------------------------------------------- who is doomed

  lemma FailedIsBad(rows: seq<Row>)
    requires HasFailed(rows)
    ensures HasBad(rows)
  {
    var i :| 0 <= i < |rows| && rows[i].state.RowFailed?;
    assert rows[i].state.SettledBad();
  }

  lemma BoundaryDooms(cfg: Config, w: World, r: nat)
    requires Live(cfg, w) && r < |w.recs| && w.recs[r].run.state.WaitingUser?
    ensures Doomed(w, r)
  {
    if w.tick.Down? {
      BoundaryOpen(cfg, w, r);
    } else if w.recs[r].run.revision > 0 {
      BoundaryOpen(cfg, w, r);
      FailedIsBad(w.recs[r].rows);
    } else {
      BoundaryOpen(cfg, w, r);
      BoundaryLive(cfg, w, r);
    }
  }

  lemma BoundaryOpen(cfg: Config, w: World, r: nat)
    requires Live(cfg, w) && r < |w.recs| && w.recs[r].run.state.WaitingUser?
    ensures !AllSettledOk(w.recs[r].rows) && (w.recs[r].run.revision > 0 ==> HasFailed(w.recs[r].rows))
  {
    hide At, TickFits, RowOk, Unique, AllSettledOk;
    assert RecInv(cfg, w.recs[r]);
  }

  lemma BoundaryLive(cfg: Config, w: World, r: nat)
    requires Live(cfg, w) && r < |w.recs| && w.recs[r].run.state.WaitingUser? && !w.tick.Down?
    requires w.recs[r].run.revision == 0 && !AllSettledOk(w.recs[r].rows)
    ensures Wedged(w, r) || Frozen(w, r)
  {
    hide RecInv, AllSettledOk, Clean, Shape;
    assert At(cfg, r, w.recs[r], ContextOf(w, r), w.slot, AwaitOf(w.tick, r));
    if ContextOf(w, r).Some? && ContextOf(w, r).value.plan.Some? {
      LastRowTaken(w.recs[r], ContextOf(w, r).value);
    } else {
      forall i | 0 <= i < |RestOf(w.tick)| && RestOf(w.tick)[i].r == r ensures Calm(RestOf(w.tick)[i].run.state) {
        assert SnapFits(RestOf(w.tick)[i].run, w.recs[r], ContextOf(w, r));
      }
    }
  }

  lemma LastRowTaken(rec: Record, ctx: Ctx)
    requires ctx.plan.Some? && InStepWithPlan(rec.rows, ctx.plan.value, ctx.cursor, false)
    requires |rec.rows| == ctx.cursor + 1 && ctx.book.revisions == 0
    ensures ctx.cursor < |ctx.plan.value| && Taken(rec, ctx.cursor + 1, ctx.book.revisions + 1)
  {
    assert rec.rows[ctx.cursor].ordinal == ctx.cursor + 1;
  }

  /** A run that has ever waited for its user at a boundary does not succeed, however it is resumed. */
  lemma NoSuccessAfterBoundary(cfg: Config, before: seq<Event>, after: seq<Event>, r: nat)
    requires r < |After(cfg, INITIAL, before).recs| && After(cfg, INITIAL, before).recs[r].run.state.WaitingUser?
    ensures r < |After(cfg, After(cfg, INITIAL, before), after).recs|
    ensures !After(cfg, After(cfg, INITIAL, before), after).recs[r].run.state.Succeeded?
  {
    hide Live, Apply;
    AlwaysLive(cfg, before);
    BoundaryDooms(cfg, After(cfg, INITIAL, before), r);
    DoomIsFinal(cfg, After(cfg, INITIAL, before), after, r);
  }

  // ---------------------------------------------------------------- a lapsed approval

  /** The reading that makes an approval lapse: it says so, or there is nothing to read. */
  predicate ReadsLapsed(cfg: Config, rec: Record, i: nat, told: ApprovalReading) {
    i < |rec.rows| && (told.ReadLapsed? || !cfg.control || rec.rows[i].approval.None?)
  }

  /** After a lapse the run is back at its step, or asks its user; its context has not moved. */
  lemma LapseLeaves(l: Local, cfg: Config, i: nat, told: ApprovalReading)
    requires l.rec.run.state.WaitingApproval? && ReadsLapsed(cfg, l.rec, i, told)
    ensures var seg := ReadBack(l, cfg, i, told);
            && seg.Stopped? && seg.l.ctx == l.ctx && seg.l.rec.rows == l.rec.rows
            && seg.l.rec.run.revision == l.rec.run.revision
            && ((seg.l.rec.run.state.Running? && seg.aw.Done?) || seg.l.rec.run.state.WaitingUser?)
  {
  }

  /** Whoever waits for an approval with its plan in memory stands behind the row of the step under its cursor. */
  lemma WaiterStands(cfg: Config, w: World, r: nat)
    requires Live(cfg, w) && w.tick.Busy? && w.tick.r == r && w.tick.aw.Reading?
    requires r < |w.recs| && w.recs[r].run.state.WaitingApproval?
    ensures w.tick.lost.None? && r in w.contexts && w.tick.aw.row < |w.recs[r].rows|
    ensures w.recs[r].run.revision > 0 ==> HasFailed(w.recs[r].rows)
    ensures !AllSettledOk(w.recs[r].rows)
    ensures w.recs[r].run.revision == 0 ==>
              var ctx := w.contexts[r];
              ctx.plan.Some? && ctx.cursor < |ctx.plan.value| && Taken(w.recs[r], ctx.cursor + 1, ctx.book.revisions + 1)
  {
    hide RowOk, Unique, Clean;
    assert At(cfg, r, w.recs[r], ContextOf(w, r), w.slot, AwaitOf(w.tick, r));
    assert RecInv(cfg, w.recs[r]);
    assert !w.recs[r].rows[w.tick.aw.row].state.SettledOk();
    if w.recs[r].run.revision == 0 {
      LastRowTaken(w.recs[r], w.contexts[r]);
    }
  }

  /** A lapsed approval dooms its run, whatever the row and the plan. */
  lemma LapseDooms(cfg: Config, w: World, r: nat, told: ApprovalReading)
    requires Live(cfg, w) && w.tick.Busy? && w.tick.r == r && w.tick.aw.Reading?
    requires r < |w.recs| && w.recs[r].run.state.WaitingApproval? && ReadsLapsed(cfg, w.recs[r], w.tick.aw.row, told)
    ensures Live(cfg, Apply(cfg, w, Reply(FromApproval(told)))) && Doomed(Apply(cfg, w, Reply(FromApproval(told))), r)
  {
    hide Live, Taken, AllSettledOk, HasBad, Frozen, HasFailed, Rebuild, ReadBack;
    var l := Enter(cfg, w, r);
    var w' := Apply(cfg, w, Reply(FromApproval(told)));
    WaiterStands(cfg, w, r);
    LapseLeaves(l, cfg, w.tick.aw.row, told);
    HappenOk(cfg, w, Reply(FromApproval(told)));
    assert w'.recs[r].rows == w.recs[r].rows;
    if w.recs[r].run.revision > 0 {
      FailedIsBad(w.recs[r].rows);
      NoSuccess(cfg, w', r);
    } else if w'.recs[r].run.state.WaitingUser? {
      BoundaryDooms(cfg, w', r);
    } else {
      TakenSame(w.recs[r], w'.recs[r], w.contexts[r].cursor + 1, w.contexts[r].book.revisions + 1);
      assert Wedged(w', r);
    }
  }

  lemma TakenSame(a: Record, b: Record, ordinal: nat, attempt: nat)
    requires a.rows == b.rows
    ensures Taken(a, ordinal, attempt) <==> Taken(b, ordinal, attempt)
  {
  }

  /** Over every history: a run whose approval has lapsed does not succeed. It is never asked for again. */
  lemma NoSuccessAfterLapse(cfg: Config, before: seq<Event>, told: ApprovalReading, after: seq<Event>, r: nat)
    requires var w := After(cfg, INITIAL, before);
             && w.tick.Busy? && w.tick.r == r && w.tick.aw.Reading?
             && r < |w.recs| && w.recs[r].run.state.WaitingApproval? && ReadsLapsed(cfg, w.recs[r], w.tick.aw.row, told)
    ensures var w := After(cfg, INITIAL, before);
            var w' := After(cfg, Apply(cfg, w, Reply(FromApproval(told))), after);
            r < |w'.recs| && !w'.recs[r].run.state.Succeeded?
  {
    hide Live, Apply, Wedged, Frozen;
    AlwaysLive(cfg, before);
    LapseDooms(cfg, After(cfg, INITIAL, before), r, told);
    DoomIsFinal(cfg, Apply(cfg, After(cfg, INITIAL, before), Reply(FromApproval(told))), after, r);
  }

  // ---------------------------------------------------------------- a wait for the slot

  /** An advance of this run gets to its next step, which is one for the router, and finds the slot taken. */
  predicate FindsSlotTaken(cfg: Config, l: Local, luck: Luck) {
    && l.rec.run.state.Running? && !l.ctx.cancel && l.ctx.plan.Some? && l.ctx.cursor < |l.ctx.plan.value|
    && l.ctx.book.steps < l.ctx.book.limits.maxSteps && !luck.late
    && var planned := l.ctx.plan.value[l.ctx.cursor];
       && planned.kind.CapabilityStep? && cfg.router && luck.flaw == ""
       && GuardAttempt(l.ctx.book, Digest("capability", planned.name, planned.text)).Granted?
       && !Taken(l.rec, l.ctx.cursor + 1, l.ctx.book.revisions + 1)
       && l.slot.Some? && l.slot != Some(l.me)
  }

  /** The row it waits with is of the step it will come back to. */
  lemma SlotWaitLeaves(l: Local, cfg: Config, snap: Run, luck: Luck)
    requires snap.state.Running? && FindsSlotTaken(cfg, l, luck)
    ensures var seg := Advance(l, cfg, snap, luck);
            && seg.Stopped? && seg.aw.Done?
            && |seg.l.rec.rows| == |l.rec.rows| + 1 && seg.l.rec.rows[|l.rec.rows|].state.RowWaiting?
            && seg.l.rec.rows[|l.rec.rows|].asked == 0
            && Reentering(seg.l.rec, seg.l.ctx)
  {
    hide Taken;
    var seg := Advance(l, cfg, snap, luck);
    var row := seg.l.rec.rows[|l.rec.rows|];
    assert row.ordinal == l.ctx.cursor + 1 && row.attempt == l.ctx.book.revisions + 1;
    TakenBy(seg.l.rec, |l.rec.rows|);
    assert !row.state.SettledOk();
  }

  lemma TakenBy(rec: Record, i: nat)
    requires i < |rec.rows|
    ensures Taken(rec, rec.rows[i].ordinal, rec.rows[i].attempt)
  {
  }

  /** Waiting for the slot dooms the run: when it comes back, its step has been entered. */
  lemma SlotWaitDooms(cfg: Config, w: World, luck: Luck, r: nat)
    requires Live(cfg, w) && w.tick.Between? && w.tick.rest != [] && w.tick.rest[0].r == r && r < |w.recs|
    requires w.tick.rest[0].run.state.Running? && r !in w.stuck && FindsSlotTaken(cfg, Enter(cfg, w, r), luck)
    ensures Live(cfg, Apply(cfg, w, Visit(luck))) && Doomed(Apply(cfg, w, Visit(luck)), r)
  {
    hide Live, Reentering, HasBad, Frozen, Rebuild, Advance, FindsSlotTaken;
    HappenOk(cfg, w, Visit(luck));
    SlotWaitLeaves(Enter(cfg, w, r), cfg, w.tick.rest[0].run, luck);
    assert Wedged(Apply(cfg, w, Visit(luck)), r);
    NotWon(Apply(cfg, w, Visit(luck)), r);
  }

  lemma NotWon(w: World, r: nat)
    requires r < |w.recs| && Wedged(w, r)
    ensures !w.recs[r].run.state.Succeeded?
  {
  }

  /** Over every history: a run that has ever had to wait for the slot does not succeed. */
  lemma NoSuccessAfterSlotWait(cfg: Config, before: seq<Event>, luck: Luck, after: seq<Event>, r: nat)
    requires var w := After(cfg, INITIAL, before);
             && w.tick.Between? && w.tick.rest != [] && w.tick.rest[0].r == r && r < |w.recs|
             && w.tick.rest[0].run.state.Running? && FindsSlotTaken(cfg, Enter(cfg, w, r), luck)
    ensures var w := After(cfg, INITIAL, before);
            var w' := After(cfg, Apply(cfg, w, Visit(luck)), after);
            r < |w'.recs| && !w'.recs[r].run.state.Succeeded?
  {
    hide Live, Apply, Wedged, Frozen, FindsSlotTaken;
    AlwaysLive(cfg, before);
    FinishIsNeverBlocked(cfg, before);
    SlotWaitDooms(cfg, After(cfg, INITIAL, before), luck, r);
    DoomIsFinal(cfg, Apply(cfg, After(cfg, INITIAL, before), Visit(luck)), after, r);
  }
}
