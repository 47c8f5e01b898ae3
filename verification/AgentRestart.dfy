/**
 What a restart does: a run that was there when the process died is never worked on again.
 Its rows stay as they are; all that can still be added is the core's own closing rows.
 */
module AgentRestart {
  import opened Basics
  import opened RunLedger
  import opened AgentSteps
  import opened AgentInvariant
  import opened AgentClosing
  import opened AgentWorld
  import opened AgentSafety
  import opened AgentTheorems

  /** Past a restart, or about to be: no plan, no coroutine at work, nothing read that could start one. */
  predicate Frozen(w: World, r: nat) {
    && r < |w.recs|
    && (!w.tick.Down? ==>
          && Calm(w.recs[r].run.state)
          && (AwaitOf(w.tick, r).Done? || AwaitOf(w.tick, r).Finishing?)
          && (ContextOf(w, r).Some? ==> ContextOf(w, r).value.plan.None?)
          && forall i :: 0 <= i < |RestOf(w.tick)| && RestOf(w.tick)[i].r == r ==> Calm(RestOf(w.tick)[i].run.state))
  }

  predicate Untouched(w: World, out: Out, r: nat)
    requires r < |w.recs|
  {
    && Frozen(out.w, r) && OnlyClosed(w.recs[r].rows, out.w.recs[r].rows)
    && (out.r == r ==> forall t :: t in out.trail ==> OnlyClosed(w.recs[r].rows, t.rows))
  }

  lemma Still(w: World, r: nat, w': World, q: nat, trail: seq<Record>)
    requires Frozen(w, r) && |w.recs| <= |w'.recs| && w'.recs[r] == w.recs[r]
    requires w'.tick.Down? || (!w.tick.Down? && AwaitOf(w'.tick, r) == AwaitOf(w.tick, r)
                               && (ContextOf(w', r).Some? ==> ContextOf(w', r).value.plan.None?)
                               && forall i :: 0 <= i < |RestOf(w'.tick)| && RestOf(w'.tick)[i].r == r ==>
                                    Calm(RestOf(w'.tick)[i].run.state))
    requires q == r ==> trail == []
    ensures Untouched(w, Out(w', q, trail), r)
  {
  }

  lemma Elsewhere(w: World, r: nat, l: Local, snap: Run, detached: bool, rest: seq<Snap>, seg: Seg, advances: seq<nat>)
    requires Frozen(w, r) && l.me != r && l.me < |w.recs| && !w.tick.Down?
    requires w.tick.Busy? ==> w.tick.r == l.me
    requires forall i :: 0 <= i < |rest| ==> rest[i] in RestOf(w.tick)
    ensures Untouched(w, Out(Leave(w, l.me, snap, detached, rest, seg).(advances := advances), l.me, seg.l.trail), r)
  {
    hide Calm;
    var w' := Leave(w, l.me, snap, detached, rest, seg).(advances := advances);
    assert ContextOf(w', r) == ContextOf(w, r);
    Still(w, r, w', l.me, seg.l.trail);
  }

  lemma VisitedHere(cfg: Config, w: World, r: nat, snap: Run, rest: seq<Snap>, seg: Seg, advances: seq<nat>)
    requires Frozen(w, r) && w.tick.Between? && (forall i :: 0 <= i < |rest| ==> rest[i].r != r)
    requires ClosingSeg(w.recs[r].rows, None, seg) && seg.Stopped?
    ensures Untouched(w, Out(Leave(w, r, snap, false, rest, seg).(advances := advances), r, seg.l.trail), r)
  {
    hide OnlyClosed, Calm;
  }

  lemma FrozenVisit(cfg: Config, w: World, r: nat, luck: Luck)
    requires Live(cfg, w) && Frozen(w, r)
    ensures Untouched(w, VisitHead(cfg, w, luck), r)
  {
    hide RecInv, At, SnapFits, Poll, Advance, Calm, OnlyClosed, Skipped, Shape, Leave, Closing, Untouched;
    var out := VisitHead(cfg, w, luck);
    if !w.tick.Between? || w.tick.rest == [] || w.tick.rest[0].r >= |w.recs| || Skipped(cfg, w, w.tick.rest[0]) {
      Still(w, r, out.w, out.r, out.trail);
    } else {
      var s, rest := w.tick.rest[0], w.tick.rest[1..];
      var l := Enter(cfg, w, s.r);
      if s.r == r {
        StartsClosing(cfg, w, r);
        AdvanceCloses(w.recs[r].rows, None, l, cfg, s.run, luck);
        var seg := Advance(l, cfg, s.run, luck);
        VisitedHere(cfg, w, r, s.run, rest, seg, out.w.advances);
        VisitOut(cfg, w, luck);
      } else if s.run.state.WaitingApproval? {
        Elsewhere(w, r, l, s.run, false, rest, Poll(l), out.w.advances);
        VisitOut(cfg, w, luck);
      } else {
        Elsewhere(w, r, l, s.run, false, rest, Advance(l, cfg, s.run, luck), out.w.advances);
        VisitOut(cfg, w, luck);
      }
    }
  }

  lemma StartsClosing(cfg: Config, w: World, r: nat)
    requires Frozen(w, r) && w.tick.Between? && w.tick.rest != [] && w.tick.rest[0].r == r
    ensures Closing(w.recs[r].rows, None, Enter(cfg, w, r)) && Calm(w.tick.rest[0].run.state)
    ensures !w.tick.rest[0].run.state.WaitingApproval?
  {
    assert RestOf(w.tick)[0].r == r;
  }

  lemma VisitOut(cfg: Config, w: World, luck: Luck)
    requires w.tick.Between? && w.tick.rest != [] && w.tick.rest[0].r < |w.recs| && !Skipped(cfg, w, w.tick.rest[0])
    ensures var s, rest := w.tick.rest[0], w.tick.rest[1..];
            var l := Enter(cfg, w, s.r);
            var seg := if s.run.state.WaitingApproval? then Poll(l) else Advance(l, cfg, s.run, luck);
            VisitHead(cfg, w, luck)
            == Out(Leave(w, s.r, s.run, false, rest, seg).(advances := VisitHead(cfg, w, luck).w.advances), s.r, seg.l.trail)
  {
    hide Poll, Advance, Skipped, Rebuild;
  }

  lemma FrozenReply(cfg: Config, w: World, r: nat, answer: Answer)
    requires Live(cfg, w) && Frozen(w, r)
    ensures Untouched(w, ReplyTo(cfg, w, answer), r)
  {
    hide RecInv, At, SnapFits, Follow, Calm, OnlyClosed, Shape, Leave, Untouched;
    var out := ReplyTo(cfg, w, answer);
    var t := w.tick;
    if t.Busy? && t.r < |w.recs| && !t.aw.Finishing? {
      var l := if t.lost.Some? then Enter(cfg, w, t.r).(ctx := t.lost.value) else Enter(cfg, w, t.r);
      if Follow(l, cfg, t.snap, t.aw, answer).Some? {
        var seg := Follow(l, cfg, t.snap, t.aw, answer).value;
        Elsewhere(w, r, l, t.snap, t.lost.Some?, t.rest, seg, w.advances);
        LeaveKeepsCount(w, t.r, t.snap, t.lost.Some?, t.rest, seg);
      } else {
        Still(w, r, out.w, out.r, out.trail);
      }
    } else if t.Busy? && t.r == r && answer.FromNotice? {
      NoticedHere(w, r);
    } else {
      Still(w, r, out.w, out.r, out.trail);
    }
  }

  lemma LeaveKeepsCount(w: World, r: nat, snap: Run, detached: bool, rest: seq<Snap>, seg: Seg)
    requires r < |w.recs|
    ensures Leave(w, r, snap, detached, rest, seg).(advances := w.advances) == Leave(w, r, snap, detached, rest, seg)
  {
  }

  lemma NoticedHere(w: World, r: nat)
    requires Frozen(w, r) && w.tick.Busy? && w.tick.r == r
    ensures Untouched(w, Quiet(w.(tick := Between(w.tick.rest), contexts := w.contexts - {r})), r)
  {
    hide Calm;
    var w' := w.(tick := Between(w.tick.rest), contexts := w.contexts - {r});
    assert RestOf(w'.tick) == RestOf(w.tick) && ContextOf(w', r).None?;
  }

  lemma FrozenByUser(cfg: Config, w: World, r: nat, q: nat)
    requires Live(cfg, w) && Frozen(w, r)
    ensures Untouched(w, CancelRun(cfg, w, q), r) && Untouched(w, ResumeRun(cfg, w, q), r)
    ensures Untouched(w, Quiet(DropContext(w, q)), r)
  {
    FrozenCancel(cfg, w, r, q);
    FrozenResume(cfg, w, r, q);
    hide RecInv, At, SnapFits, Shape;
    Still(w, r, DropContext(w, q), 0, []);
  }

  lemma FrozenCancel(cfg: Config, w: World, r: nat, q: nat)
    requires Live(cfg, w) && Frozen(w, r)
    ensures Untouched(w, CancelRun(cfg, w, q), r)
  {
    hide RecInv, At, SnapFits, CancelRun, TickFits;
    CancelIdle(cfg, w, q);
    if w.tick.Down? || q >= |w.recs| || w.recs[q].run.state.Terminal() {
      Still(w, r, w, 0, []);
    } else {
      CancelRecord(cfg, w, q);
      CancelContexts(cfg, w, q);
      CancelWho(cfg, w, q);
      var out := CancelRun(cfg, w, q);
      assert out.w.recs[r].rows == w.recs[r].rows;
      assert ContextOf(out.w, r).Some? ==> ContextOf(out.w, r).value.plan.None?;
    }
  }

  lemma FrozenResume(cfg: Config, w: World, r: nat, q: nat)
    requires Live(cfg, w) && Frozen(w, r)
    ensures Untouched(w, ResumeRun(cfg, w, q), r)
  {
    hide RecInv, At, SnapFits, ResumeRun, TickFits;
    ResumeShape(cfg, w, q);
  }

  lemma FrozenRestart(cfg: Config, w: World, r: nat, n: nat, alive: bool, w': World)
    requires Live(cfg, w) && w.tick.Down? && r < |w.recs|
    requires w'.recs == ReconcileFirst(w.recs, n, alive) && w'.contexts == map[]
    requires w'.tick.Down? || (n >= |w.recs| && w'.tick == Between([]))
    ensures Untouched(w, Quiet(w'), r)
  {
    hide RecInv, At, SnapFits, ReconcileRecord, TickFits;
    ReconciledOk(cfg, r, w.recs[r], alive);
  }

  lemma FrozenHappen(cfg: Config, w: World, r: nat, e: Event)
    requires Live(cfg, w) && Frozen(w, r)
    ensures Untouched(w, Happen(cfg, w, e), r)
    decreases e
  {
    hide Live, VisitHead, ReplyTo, CancelRun, ResumeRun, DropContext, ReconcileFirst, OnlyClosed, Calm;
    match e {
      case Submit(scope) => FrozenSubmit(cfg, w, r, scope);
      case BeginTick => FrozenBegin(cfg, w, r);
      case Visit(luck) => FrozenVisit(cfg, w, r, luck);
      case Reply(answer) => FrozenReply(cfg, w, r, answer);
      case Cancel(q) => FrozenByUser(cfg, w, r, q);
      case Notified(q) => FrozenByUser(cfg, w, r, q);
      case Resume(q) => FrozenByUser(cfg, w, r, q);
      case Reconcile(alive) =>
        FrozenBegin(cfg, w, r);
        if w.tick.Down? {
          DownContexts(cfg, w);
          FrozenRestart(cfg, w, r, |w.recs|, alive,
                        w.(recs := ReconcileFirst(w.recs, |w.recs|, alive), tick := Between([])));
        }
      case Crash => FrozenDie(w, r, w.recs, w.advances);
      case CrashDuring(inner, writes) =>
        FrozenHappen(cfg, w, r, inner);
        var out := Happen(cfg, w, inner);
        FrozenDie(w, r, w.recs, Begun(w, out).advances);
        if out.r < |w.recs| && 1 <= writes <= |out.trail| {
          assert out.trail[writes - 1] in out.trail;
          FrozenDie(w, r, w.recs[out.r := out.trail[writes - 1]], Begun(w, out).advances);
        }
      case CrashInReconcile(runs, alive) =>
        FrozenBegin(cfg, w, r);
        if w.tick.Down? {
          DownContexts(cfg, w);
          FrozenRestart(cfg, w, r, runs, alive, Die(w.(recs := ReconcileFirst(w.recs, runs, alive))));
        }
    }
  }

  lemma DownContexts(cfg: Config, w: World)
    requires Live(cfg, w) && w.tick.Down?
    ensures w.contexts == map[]
  {
    hide RecInv, At, TickFits;
  }

  lemma FrozenDie(w: World, r: nat, recs: seq<Record>, advances: seq<nat>)
    requires Frozen(w, r) && |recs| == |w.recs| && OnlyClosed(w.recs[r].rows, recs[r].rows)
    ensures Untouched(w, Quiet(Die(w.(recs := recs, advances := advances))), r)
    ensures OnlyClosed(w.recs[r].rows, w.recs[r].rows)
  {
  }

  lemma FrozenBegin(cfg: Config, w: World, r: nat)
    requires Live(cfg, w) && Frozen(w, r)
    ensures Untouched(w, Happen(cfg, w, BeginTick), r) && Untouched(w, Quiet(w), r)
  {
    hide RecInv, At, SnapFits, Shape, OnlyClosed;
    OpenSnapsAre(w.recs);
    Still(w, r, w, 0, []);
    if w.tick == Between([]) {
      var w' := w.(tick := Between(OpenSnaps(w.recs)));
      forall i | 0 <= i < |w'.tick.rest| && w'.tick.rest[i].r == r ensures Calm(w'.tick.rest[i].run.state) {
        assert w'.tick.rest[i] in OpenSnaps(w.recs);
      }
      Still(w, r, w', 0, []);
    }
  }

  lemma FrozenSubmit(cfg: Config, w: World, r: nat, scope: Scope)
    requires Live(cfg, w) && Frozen(w, r)
    ensures Untouched(w, Happen(cfg, w, Submit(scope)), r)
  {
    hide RecInv, At, SnapFits, TickFits, OnlyClosed, Calm;
    var w' := Happen(cfg, w, Submit(scope)).w;
    assert !w.tick.Down? ==> ContextOf(w', r) == ContextOf(w, r);
    Still(w, r, w', 0, []);
  }

  /**
   Once the process has died, the runs that were there are never worked on again, whatever
   happens afterwards: not one of their rows changes, so nothing is asked, redeemed or
   started for them, and what is added are verify and harvest rows of the core's own.
   */
  lemma {:induction false} NothingRunsTwice(cfg: Config, w: World, events: seq<Event>, r: nat)
    requires Live(cfg, w) && w.tick.Down? && r < |w.recs|
    ensures Live(cfg, After(cfg, w, events)) && Frozen(After(cfg, w, events), r)
    ensures OnlyClosed(w.recs[r].rows, After(cfg, w, events).recs[r].rows)
  {
    hide Live, Happen, OnlyClosed;
    if events == [] {
      assert OnlyClosed(w.recs[r].rows, w.recs[r].rows) by { FrozenDie(w, r, w.recs, w.advances); }
    } else {
      var w1 := After(cfg, w, events[..|events| - 1]);
      NothingRunsTwice(cfg, w, events[..|events| - 1], r);
      FrozenHappen(cfg, w1, r, events[|events| - 1]);
      HappenOk(cfg, w1, events[|events| - 1]);
      OnlyClosedTrans(w.recs[r].rows, w1.recs[r].rows, After(cfg, w, events).recs[r].rows);
    }
  }
}
