/**
 What closes a run: the stretches that add nothing to a run but the core's own closing rows,
 each numbered after everything that was there.
 */
module AgentClosing {
  import opened Basics
  import opened RunLedger
  import opened AgentSteps
  import opened AgentGrowth

  /** The same rows, followed at most by verify and harvest rows numbered after them. */
  predicate OnlyClosed(a: seq<Row>, b: seq<Row>) {
    && a <= b
    && forall k :: |a| <= k < |b| ==> (b[k].kind.VerifyRow? || b[k].kind.HarvestRow?) && b[k].ordinal > |a|
  }

  lemma OnlyClosedTrans(a: seq<Row>, b: seq<Row>, c: seq<Row>)
    requires OnlyClosed(a, b) && OnlyClosed(b, c)
    ensures OnlyClosed(a, c)
  {
  }

  predicate Calm(s: RunState) {
    s.Interrupted? || s.Running? || s.Verifying? || s.WaitingUser? || s.Terminal()
  }

  /** A stretch that only closes: nothing is asked, started or redeemed in it. */
  predicate Closing(rows: seq<Row>, plan: Option<seq<Planned>>, l: Local) {
    && l.ctx.plan == plan && Calm(l.rec.run.state) && OnlyClosed(rows, l.rec.rows)
    && forall t :: t in l.trail ==> OnlyClosed(rows, t.rows)
  }

  predicate ClosingSeg(rows: seq<Row>, plan: Option<seq<Planned>>, seg: Seg) {
    Closing(rows, plan, seg.l) && (seg.Stopped? ==> seg.aw.Done? || seg.aw.Finishing?)
  }

  lemma WriteCloses(rows: seq<Row>, plan: Option<seq<Planned>>, l: Local, rec: Record)
    requires Closing(rows, plan, l) && OnlyClosed(rows, rec.rows) && Calm(rec.run.state)
    ensures Closing(rows, plan, Write(l, rec))
  {
    hide OnlyClosed;
  }

  lemma FinishCloses(rows: seq<Row>, plan: Option<seq<Planned>>, l: Local, s: RunState, category: Category)
    requires Closing(rows, plan, l) && s.Terminal()
    ensures ClosingSeg(rows, plan, Finish(l, s, category))
  {
    hide OnlyClosed;
  }

  lemma FailCloses(rows: seq<Row>, plan: Option<seq<Planned>>, seg: Seg)
    requires ClosingSeg(rows, plan, seg)
    ensures ClosingSeg(rows, plan, Close(seg, InPlanning)) && Close(seg, InPlanning).Stopped?
  {
    hide Closing;
    if seg.Failing? {
      FinishCloses(rows, plan, seg.l, Failed, CategoryOf(seg.error));
      FinishEnds(seg.l, Failed, CategoryOf(seg.error));
    }
  }

  lemma MoveCloses(rows: seq<Row>, plan: Option<seq<Planned>>, l: Local, s: RunState)
    requires Closing(rows, plan, l) && Calm(s)
    ensures ClosingSeg(rows, plan, Move(l, s))
  {
    hide OnlyClosed;
  }

  lemma AddCloses(rows: seq<Row>, plan: Option<seq<Planned>>, l: Local, kind: RowKind, ordinal: nat,
                  s: RowState, branch: bool)
    requires Closing(rows, plan, l) && (kind.VerifyRow? || kind.HarvestRow?) && ordinal > |l.rec.rows|
    requires CreateRow(l.rec, kind, ordinal, 1).Some?
    ensures var l1 := Write(l, CreateRow(l.rec, kind, ordinal, 1).value);
            var l2 := if branch then Write(l1, l1.rec.(run := l1.rec.run.(branch := true))) else l1;
            && |l1.rec.rows| == |l.rec.rows| + 1
            && Closing(rows, plan, l1) && Closing(rows, plan, MarkRow(l2, |l.rec.rows|, s))
  {
    var l1 := Write(l, CreateRow(l.rec, kind, ordinal, 1).value);
    var l2 := if branch then Write(l1, l1.rec.(run := l1.rec.run.(branch := true))) else l1;
    assert OnlyClosed(rows, l1.rec.rows);
    WriteCloses(rows, plan, l, l1.rec);
    if branch {
      WriteCloses(rows, plan, l1, l2.rec);
    }
    var rec := SetRowState(l2.rec, |l.rec.rows|, s);
    assert OnlyClosed(rows, rec.rows) by {
      assert rec.rows == l.rec.rows + [FreshRow(kind, ordinal, 1).(state := s)];
    }
    WriteCloses(rows, plan, l2, rec);
  }

  lemma HarvestCloses(rows: seq<Row>, plan: Option<seq<Planned>>, l: Local, cfg: Config, luck: Luck)
    requires Closing(rows, plan, l)
    ensures ClosingSeg(rows, plan, Harvest(l, cfg, luck))
  {
    hide Closing, Taken, CreateRow, MarkRow, Finish, Write;
    FinishCloses(rows, plan, l, Succeeded, NoCategory);
    FinishCloses(rows, plan, l, Failed, NoResult);
    var made := CreateRow(l.rec, HarvestRow, |l.rec.rows| + 1, 1);
    if made.Some? {
      AddCloses(rows, plan, l, HarvestRow, |l.rec.rows| + 1, RowFailed, false);
      AddCloses(rows, plan, l, HarvestRow, |l.rec.rows| + 1, RowSucceeded, true);
      MadeOne(l.rec, HarvestRow, |l.rec.rows| + 1, 1);
      var l1 := Write(l, made.value);
      var l2 := Write(l1, l1.rec.(run := l1.rec.run.(branch := true)));
      FinishCloses(rows, plan, MarkRow(l1, |l.rec.rows|, RowFailed), Failed, NoResult);
      FinishCloses(rows, plan, MarkRow(l2, |l.rec.rows|, RowSucceeded), Succeeded, NoCategory);
    }
  }

  lemma VerifyCloses(rows: seq<Row>, plan: Option<seq<Planned>>, l: Local, cfg: Config, luck: Luck)
    requires Closing(rows, plan, l)
    ensures ClosingSeg(rows, plan, Verify(l, cfg, luck))
  {
    hide Closing, Taken, CreateRow, MarkRow, Finish, Write, Harvest, AllSettledOk, AnyUnknown;
    var made := CreateRow(l.rec, VerifyRow, |l.rec.rows| + 1, 1);
    if made.Some? {
      AddCloses(rows, plan, l, VerifyRow, |l.rec.rows| + 1, RowUnknown, false);
      AddCloses(rows, plan, l, VerifyRow, |l.rec.rows| + 1, RowFailed, false);
      AddCloses(rows, plan, l, VerifyRow, |l.rec.rows| + 1, RowSucceeded, false);
      var l1 := Write(l, made.value);
      FinishCloses(rows, plan, MarkRow(l1, |l.rec.rows|, RowUnknown), Failed, RecoveryRequired);
      FinishCloses(rows, plan, MarkRow(l1, |l.rec.rows|, RowFailed), Failed, SpecialistFailed);
      HarvestCloses(rows, plan, MarkRow(l1, |l.rec.rows|, RowSucceeded), cfg, luck);
    }
  }

  lemma NextCloses(rows: seq<Row>, plan: Option<seq<Planned>>, l: Local, cfg: Config, snap: Run, luck: Luck)
    requires Closing(rows, plan, l) && plan.None?
    ensures ClosingSeg(rows, plan, NextStep(l, cfg, snap, luck))
  {
    hide OnlyClosed, Move;
    MoveCloses(rows, plan, l, Running);
    MoveCloses(rows, plan, l, Verifying);
    if snap.state.Interrupted? && Move(l, Running).Stopped? {
      MoveCloses(rows, plan, Move(l, Running).l, Verifying);
    }
  }

  /**
   A run in verification is only ever closed, and so is one without a plan, outside planning
   and outside an approval.
   */
  lemma AdvanceCloses(rows: seq<Row>, plan: Option<seq<Planned>>, l: Local, cfg: Config, snap: Run, luck: Luck)
    requires Closing(rows, plan, l) && Calm(snap.state) && (plan.None? || snap.state.Verifying?)
    ensures ClosingSeg(rows, plan, Advance(l, cfg, snap, luck)) && Advance(l, cfg, snap, luck).Stopped?
  {
    hide Closing, NextStep, Verify, Finish, Close;
    FinishCloses(rows, plan, l, Cancelled, CancelledByUser);
    FinishStops(l, Cancelled, CancelledByUser);
    if plan.None? {
      NextCloses(rows, plan, l, cfg, snap, luck);
      FailCloses(rows, plan, NextStep(l, cfg, snap, luck));
    }
    VerifyCloses(rows, plan, l, cfg, luck);
    FailCloses(rows, plan, Verify(l, cfg, luck));
  }

  lemma FinishStops(l: Local, s: RunState, category: Category)
    ensures Finish(l, s, category).Stopped?
  {
  }
}
