/**
 The invariant of the whole agent runtime, kept by every event in every order: ticks with
 stale snapshots, answers, cancellations, resumptions, crashes after any write, restarts.
 */
module AgentSafety {
  import opened Basics
  import opened RunLedger
  import opened AgentSteps
  import opened AgentInvariant
  import opened AgentGrowth
  import opened AgentVisits
  import opened AgentWorld

  /** Where run r's coroutine stands, if it has one. */
  function AwaitOf(t: Tick, r: nat): Await {
    if t.Busy? && t.r == r then t.aw else Done
  }

  /** The context run r works with: also one that has been dropped under a running coroutine. */
  function ContextOf(w: World, r: nat): Option<Ctx> {
    if w.tick.Busy? && w.tick.r == r && w.tick.lost.Some? then w.tick.lost
    else if r in w.contexts then Some(w.contexts[r]) else None
  }

  function RestOf(t: Tick): seq<Snap> {
    match t
    case Between(rest) => rest
    case Busy(_, _, _, _, rest) => rest
    case Down => []
  }

  predicate Increasing(snaps: seq<Snap>) {
    forall i, j :: 0 <= i < j < |snaps| ==> snaps[i].r < snaps[j].r
  }

  /** What the tick may still assume of a run it has read and not yet visited. */
  predicate SnapFits(run: Run, rec: Record, octx: Option<Ctx>) {
    && !run.state.Terminal()
    && (run.state.WaitingUser?
        || (&& run.revision == rec.run.revision
            && (rec.run.state == run.state
                || (rec.run.state.Cancelled?
                    && (octx.Some? ==> octx.value.cancel)
                    && (run.state.WaitingApproval? ==>
                          Clean(rec.rows, -1)
                          && (octx.Some? && octx.value.pending.Some? && octx.value.pending.value < |rec.rows| ==>
                                rec.rows[octx.value.pending.value].state.RowWaiting?))))))
  }

  predicate Shape(w: World) {
    && |w.advances| == |w.recs|
    && (forall r :: r in w.contexts ==> r < |w.recs|)
    && (w.slot.Some? ==> w.slot.value < |w.recs|)
    && (forall r :: r in w.finishing ==> r < |w.recs| && w.recs[r].run.state.Terminal())
    && w.stuck == {}
    && (w.tick.Down? ==> w.contexts == map[] && w.slot.None? && w.finishing == {})
  }

  predicate TickFits(w: World) {
    var rest := RestOf(w.tick);
    && Increasing(rest)
    && (forall i :: 0 <= i < |rest| ==>
          rest[i].r < |w.recs| && SnapFits(rest[i].run, w.recs[rest[i].r], ContextOf(w, rest[i].r)))
    && (w.tick.Busy? ==>
          && w.tick.r < |w.recs| && !w.tick.aw.Done? && !w.tick.aw.Thrown?
          && (forall i :: 0 <= i < |rest| ==> w.tick.r < rest[i].r)
          && (if w.tick.lost.Some? then w.tick.r !in w.contexts && w.recs[w.tick.r].run.state.Terminal()
              else w.tick.aw.Finishing? || w.tick.r in w.contexts)
          && (w.tick.aw.Specialist? || w.tick.aw.Asking? || w.tick.aw.Reading? || w.tick.aw.Redeeming? ==>
                w.tick.snap.revision == w.recs[w.tick.r].run.revision))
  }

  predicate Live(cfg: Config, w: World) {
    && Shape(w) && TickFits(w)
    && (forall r :: 0 <= r < |w.recs| ==> RecInv(cfg, w.recs[r]))
    && (!w.tick.Down? ==>
          forall r :: 0 <= r < |w.recs| ==> At(cfg, r, w.recs[r], ContextOf(w, r), w.slot, AwaitOf(w.tick, r)))
  }

  predicate OutOk(cfg: Config, out: Out) {
    Live(cfg, out.w) && forall t :: t in out.trail ==> RecInv(cfg, t)
  }

  // ---------------------------------------------------------------- stretches inside the world

  /** A stretch of run r starts from what the world holds of it. */
  lemma EnterOk(cfg: Config, w: World, r: nat, snap: Run)
    requires Live(cfg, w) && !w.tick.Down? && r < |w.recs| && AwaitOf(w.tick, r) == Done
    requires snap.revision == w.recs[r].run.revision
    ensures Ready(cfg, Enter(cfg, w, r), snap, Done)
  {
    hide RecInv, InStepWithPlan, Clean;
    assert At(cfg, r, w.recs[r], ContextOf(w, r), w.slot, Done);
  }

  lemma SegAt(cfg: Config, w: World, l: Local, snap: Run, detached: bool, rest: seq<Snap>, seg: Seg)
    requires SegOk(cfg, l, snap, seg) && l.me < |w.recs|
    requires detached ==> w.tick.Busy? && w.tick.r == l.me && l.me !in w.contexts
    requires detached ==> seg.l.rec.run.state.Terminal()
    ensures var w' := Leave(w, l.me, snap, detached, rest, seg);
            At(cfg, l.me, w'.recs[l.me], ContextOf(w', l.me), w'.slot, AwaitOf(w'.tick, l.me))
  {
    hide RecInv, CtxFits, Clean;
    var w' := Leave(w, l.me, snap, detached, rest, seg);
    if seg.aw.Thrown? {
      RestCtx(cfg, seg.l.rec, seg.l.ctx);
    }
  }

  /** An exception that leaves the tick leaves its run at rest. */
  lemma RestCtx(cfg: Config, rec: Record, ctx: Ctx)
    requires CtxFits(cfg, rec, ctx, Thrown)
    ensures CtxFits(cfg, rec, ctx, Done)
  {
    hide Clean, InStepWithPlan;
  }

  lemma OtherAt(cfg: Config, q: nat, rec: Record, octx: Option<Ctx>, me: nat, before: Option<nat>, after: Option<nat>,
                aw: Await)
    requires At(cfg, q, rec, octx, before, aw) && q != me && SlotFrame(me, before, after)
    ensures At(cfg, q, rec, octx, after, aw)
  {
    hide RecInv, CtxFits, Clean;
  }

  /** What a stretch of run r leaves behind fits the world again. */
  lemma LeaveOk(cfg: Config, w: World, l: Local, snap: Run, detached: bool, rest: seq<Snap>, seg: Seg)
    requires Live(cfg, w) && !w.tick.Down? && l.me < |w.recs| && l.slot == w.slot && l.rec == w.recs[l.me]
    requires SegOk(cfg, l, snap, seg)
    requires w.tick.Busy? ==> w.tick.r == l.me
    requires detached <==> w.tick.Busy? && w.tick.lost.Some?
    requires detached || l.me in w.finishing ==> seg.l.rec.run.state.Terminal()
    requires Increasing(rest) && forall i :: 0 <= i < |rest| ==> rest[i] in RestOf(w.tick) && l.me < rest[i].r
    ensures Live(cfg, Leave(w, l.me, snap, detached, rest, seg))
  {
    hide RecInv, At, Clean, SnapFits;
    var w' := Leave(w, l.me, snap, detached, rest, seg);
    forall q | 0 <= q < |w'.recs|
      ensures At(cfg, q, w'.recs[q], ContextOf(w', q), w'.slot, AwaitOf(w'.tick, q))
    {
      if q == l.me {
        SegAt(cfg, w, l, snap, detached, rest, seg);
      } else {
        assert At(cfg, q, w.recs[q], ContextOf(w, q), w.slot, AwaitOf(w.tick, q));
        OtherAt(cfg, q, w.recs[q], ContextOf(w, q), l.me, w.slot, w'.slot, Done);
      }
    }
    LeaveTickOk(cfg, w, l, snap, detached, rest, seg);
    LeaveShapeOk(cfg, w, l, snap, detached, rest, seg);
  }

  lemma LeaveShapeOk(cfg: Config, w: World, l: Local, snap: Run, detached: bool, rest: seq<Snap>, seg: Seg)
    requires Shape(w) && !w.tick.Down? && l.me < |w.recs| && l.slot == w.slot
    requires SegOk(cfg, l, snap, seg)
    requires l.me in w.finishing ==> seg.l.rec.run.state.Terminal()
    ensures Shape(Leave(w, l.me, snap, detached, rest, seg))
  {
    hide RecInv, At, TrailOk;
  }

  lemma LeaveTickOk(cfg: Config, w: World, l: Local, snap: Run, detached: bool, rest: seq<Snap>, seg: Seg)
    requires TickFits(w) && l.me < |w.recs| && l.slot == w.slot
    requires SegOk(cfg, l, snap, seg)
    requires w.tick.Busy? ==> w.tick.r == l.me
    requires detached <==> w.tick.Busy? && w.tick.lost.Some?
    requires detached ==> seg.l.rec.run.state.Terminal()
    requires Increasing(rest) && forall i :: 0 <= i < |rest| ==> rest[i] in RestOf(w.tick) && l.me < rest[i].r
    ensures TickFits(Leave(w, l.me, snap, detached, rest, seg))
  {
    hide RecInv, At, TrailOk, Clean, SnapFits;
    var w' := Leave(w, l.me, snap, detached, rest, seg);
    forall i | 0 <= i < |rest|
      ensures rest[i].r < |w'.recs| && SnapFits(rest[i].run, w'.recs[rest[i].r], ContextOf(w', rest[i].r))
    {
      var k :| 0 <= k < |RestOf(w.tick)| && RestOf(w.tick)[k] == rest[i];
      assert ContextOf(w', rest[i].r) == ContextOf(w, rest[i].r);
    }
  }

  // ---------------------------------------------------------------- event by event

  /** A run the tick visits is in the state it was read in, or cancelled since. */
  lemma VisitReady(cfg: Config, w: World)
    requires Live(cfg, w) && w.tick.Between? && w.tick.rest != [] && !w.tick.rest[0].run.state.WaitingUser?
    ensures var s := w.tick.rest[0];
            && s.r < |w.recs| && !s.run.state.Terminal()
            && (s.run.state.WaitingApproval? ==> Pollable(cfg, Enter(cfg, w, s.r), s.run))
            && (!s.run.state.WaitingApproval? ==> Advanceable(cfg, Enter(cfg, w, s.r), s.run))
  {
    hide RecInv, At, Clean;
    var s := w.tick.rest[0];
    assert SnapFits(s.run, w.recs[s.r], ContextOf(w, s.r));
    EnterOk(cfg, w, s.r, s.run);
    if w.recs[s.r].run.state.WaitingApproval? {
      ParkedFits(cfg, s.r, w.recs[s.r], ContextOf(w, s.r), w.slot);
    }
  }

  lemma ParkedFits(cfg: Config, r: nat, rec: Record, octx: Option<Ctx>, slot: Option<nat>)
    requires At(cfg, r, rec, octx, slot, Done) && rec.run.state.WaitingApproval?
    ensures Clean(rec.rows, -1) && octx.Some? && octx.value.pending.Some?
    ensures octx.value.pending.value < |rec.rows| && rec.rows[octx.value.pending.value].state.RowWaiting?
  {
    hide InStepWithPlan, Clean;
  }

  lemma VisitOk(cfg: Config, w: World, luck: Luck)
    requires Live(cfg, w)
    ensures OutOk(cfg, VisitHead(cfg, w, luck))
  {
    hide RecInv, At, Clean, SnapFits, Poll, Advance, SegOk, Leave, Shape, TickFits, Whole, Turn;
    if w.tick.Between? && w.tick.rest != [] && w.tick.rest[0].r < |w.recs| {
      var s, rest := w.tick.rest[0], w.tick.rest[1..];
      if Skipped(cfg, w, s) {
        SkipVisitOk(cfg, w);
      } else {
        VisitReady(cfg, w);
        var l := Enter(cfg, w, s.r);
        if s.run.state.WaitingApproval? {
          PollOk(cfg, l, s.run);
          PollWhole(l);
          EndStays(l, Poll(l), InPoll, false);
          VisitLeaveOk(cfg, w, l, s.run, Poll(l), 0);
        } else {
          AdvanceOk(cfg, l, s.run, luck);
          AdvanceGrows(l, cfg, s.run, luck);
          TurnStays(l, Advance(l, cfg, s.run, luck), s.run.state.Verifying?);
          VisitLeaveOk(cfg, w, l, s.run, Advance(l, cfg, s.run, luck),
                       if s.r < |w.advances| then w.advances[s.r] + 1 else 0);
        }
      }
    }
  }

  lemma EndStays(l: Local, seg: Seg, stage: Stage, won: bool)
    requires Whole(l, seg, stage, won)
    ensures l.rec.run.state.Terminal() ==> seg.l.rec.run.state == l.rec.run.state
  {
  }

  lemma TurnStays(l: Local, seg: Seg, won: bool)
    requires Turn(l, seg, won) || Turn(l, seg, false) || Whole(l, seg, InPlanning, won)
    ensures l.rec.run.state.Terminal() ==> seg.l.rec.run.state == l.rec.run.state
  {
    hide RowsGrow;
  }

  lemma SkipVisitOk(cfg: Config, w: World)
    requires Live(cfg, w) && w.tick.Between? && w.tick.rest != []
    ensures Live(cfg, w.(tick := Between(w.tick.rest[1..])))
  {
    hide RecInv, At, Clean, SnapFits;
    var rest := w.tick.rest[1..];
    RetickOk(cfg, w, Between(rest));
  }

  /** A tick that is not inside a run may forget or skip what it has read. */
  lemma RetickOk(cfg: Config, w: World, tick: Tick)
    requires Live(cfg, w) && w.tick.Between? && tick.Between?
    requires Increasing(tick.rest) && forall i :: 0 <= i < |tick.rest| ==> tick.rest[i] in w.tick.rest
    ensures Live(cfg, w.(tick := tick))
  {
    hide RecInv, At, Clean, SnapFits;
    var w' := w.(tick := tick);
    forall q | 0 <= q < |w'.recs|
      ensures At(cfg, q, w'.recs[q], ContextOf(w', q), w'.slot, AwaitOf(w'.tick, q))
    {
      assert At(cfg, q, w.recs[q], ContextOf(w, q), w.slot, AwaitOf(w.tick, q));
    }
    forall i | 0 <= i < |tick.rest|
      ensures tick.rest[i].r < |w'.recs| && SnapFits(tick.rest[i].run, w'.recs[tick.rest[i].r], ContextOf(w', tick.rest[i].r))
    {
      var k :| 0 <= k < |w.tick.rest| && w.tick.rest[k] == tick.rest[i];
      assert ContextOf(w', tick.rest[i].r) == ContextOf(w, tick.rest[i].r);
    }
  }

  /** Counting an advance changes nothing else. */
  lemma VisitLeaveOk(cfg: Config, w: World, l: Local, snap: Run, seg: Seg, n: nat)
    requires Live(cfg, w) && w.tick.Between? && w.tick.rest != [] && w.tick.rest[0].r < |w.recs|
    requires l == Enter(cfg, w, w.tick.rest[0].r)
    requires SegOk(cfg, l, snap, seg) && (l.rec.run.state.Terminal() ==> seg.l.rec.run.state == l.rec.run.state)
    ensures var w' := Leave(w, l.me, snap, false, w.tick.rest[1..], seg);
            && Live(cfg, w') && l.me < |w'.advances| && w'.advances == w.advances
            && Live(cfg, w'.(advances := w'.advances[l.me := n]))
            && forall t :: t in seg.l.trail ==> RecInv(cfg, t)
  {
    hide RecInv, At, Clean, SnapFits;
    LeaveOk(cfg, w, l, snap, false, w.tick.rest[1..], seg);
    var w' := Leave(w, l.me, snap, false, w.tick.rest[1..], seg);
    RecountOk(cfg, w', w'.advances[l.me := n]);
  }

  lemma RecountOk(cfg: Config, w: World, advances: seq<nat>)
    requires Live(cfg, w) && |advances| == |w.advances|
    ensures Live(cfg, w.(advances := advances))
  {
    hide RecInv, At, Clean, SnapFits;
    var w' := w.(advances := advances);
    assert forall q :: ContextOf(w', q) == ContextOf(w, q);
  }

  lemma ReplyOk(cfg: Config, w: World, answer: Answer)
    requires Live(cfg, w)
    ensures OutOk(cfg, ReplyTo(cfg, w, answer))
  {
    hide RecInv, At, Clean, SnapFits, Follow, SegOk, Leave, Shape, TickFits, Whole;
    if w.tick.Busy? && w.tick.r < |w.recs| {
      var t := w.tick;
      if t.aw.Finishing? {
        NoticedOk(cfg, w);
      } else {
        var l := if t.lost.Some? then Enter(cfg, w, t.r).(ctx := t.lost.value) else Enter(cfg, w, t.r);
        ReplyReady(cfg, w);
        FollowOk(cfg, l, t.snap, t.aw, answer);
        FollowGrows(l, cfg, t.snap, t.aw, answer);
        var seg := Follow(l, cfg, t.snap, t.aw, answer);
        if seg.Some? {
          EndStays(l, seg.value, StageOf(t.aw), false);
          ReplyLeaveOk(cfg, w, l, seg.value);
        }
      }
    }
  }

  lemma ReplyReady(cfg: Config, w: World)
    requires Live(cfg, w) && w.tick.Busy? && !w.tick.aw.Finishing? && w.tick.r < |w.recs|
    ensures var t := w.tick;
            var l := if t.lost.Some? then Enter(cfg, w, t.r).(ctx := t.lost.value) else Enter(cfg, w, t.r);
            && Awaiting(cfg, l, t.snap, t.aw)
            && (t.aw.Specialist? || t.aw.Asking? || t.aw.Reading? || t.aw.Redeeming? ==> Open(l.rec, t.aw.row))
  {
    hide RecInv, CtxFits, Clean, SnapFits;
    assert At(cfg, w.tick.r, w.recs[w.tick.r], ContextOf(w, w.tick.r), w.slot, w.tick.aw);
  }

  lemma ReplyLeaveOk(cfg: Config, w: World, l: Local, seg: Seg)
    requires Live(cfg, w) && w.tick.Busy? && w.tick.r < |w.recs|
    requires l.me == w.tick.r && l.rec == w.recs[l.me] && l.slot == w.slot
    requires SegOk(cfg, l, w.tick.snap, seg) && (l.rec.run.state.Terminal() ==> seg.l.rec.run.state == l.rec.run.state)
    ensures Live(cfg, Leave(w, l.me, w.tick.snap, w.tick.lost.Some?, w.tick.rest, seg))
    ensures forall t :: t in seg.l.trail ==> RecInv(cfg, t)
  {
    hide RecInv, At, Clean, SnapFits;
    LeaveOk(cfg, w, l, w.tick.snap, w.tick.lost.Some?, w.tick.rest, seg);
  }

  /** The final notice is out: the context goes, and the tick goes on. */
  lemma NoticedOk(cfg: Config, w: World)
    requires Live(cfg, w) && w.tick.Busy? && w.tick.aw.Finishing?
    ensures Live(cfg, w.(tick := Between(w.tick.rest), contexts := w.contexts - {w.tick.r}))
  {
    hide RecInv, Clean, SnapFits, CtxFits;
    var w' := w.(tick := Between(w.tick.rest), contexts := w.contexts - {w.tick.r});
    forall q | 0 <= q < |w'.recs|
      ensures At(cfg, q, w'.recs[q], ContextOf(w', q), w'.slot, AwaitOf(w'.tick, q))
    {
      assert At(cfg, q, w.recs[q], ContextOf(w, q), w.slot, AwaitOf(w.tick, q));
    }
    forall i | 0 <= i < |w.tick.rest| ensures ContextOf(w', w.tick.rest[i].r) == ContextOf(w, w.tick.rest[i].r) {}
  }

  // ---------------------------------------------------------------- cancel and resume

  function Flagged(octx: Option<Ctx>): Option<Ctx> {
    match octx
    case None => None
    case Some(ctx) => Some(ctx.(cancel := true))
  }

  /** A cancellation fits wherever the run's coroutine stands. */
  lemma CancelledAt(cfg: Config, r: nat, rec: Record, rec': Record, octx: Option<Ctx>, slot: Option<nat>,
                    after: Option<nat>, aw: Await)
    requires At(cfg, r, rec, octx, slot, aw) && !rec.run.state.Terminal()
    requires rec'.run.state.Cancelled? && rec'.rows == rec.rows
    requires rec'.run.scope == rec.run.scope && rec'.run.revision == rec.run.revision
    requires after != Some(r)
    ensures At(cfg, r, rec', Flagged(octx), after, aw)
  {
    hide Clean, InStepWithPlan;
  }

  lemma CancelledSnap(cfg: Config, r: nat, run: Run, rec: Record, rec': Record, octx: Option<Ctx>, slot: Option<nat>)
    requires At(cfg, r, rec, octx, slot, Done) && !rec.run.state.Terminal() && SnapFits(run, rec, octx)
    requires rec'.run.state.Cancelled? && rec'.rows == rec.rows && rec'.run.revision == rec.run.revision
    ensures SnapFits(run, rec', Flagged(octx))
  {
    hide Clean, InStepWithPlan;
  }

  lemma CancelOk(cfg: Config, w: World, r: nat)
    requires Live(cfg, w)
    ensures OutOk(cfg, CancelRun(cfg, w, r))
  {
    hide RecInv, At, Clean, SnapFits;
    if !w.tick.Down? && r < |w.recs| && !w.recs[r].run.state.Terminal() {
      var w' := CancelRun(cfg, w, r).w;
      CancelRecord(cfg, w, r);
      assert ContextOf(w', r) == Flagged(ContextOf(w, r));
      forall q | 0 <= q < |w'.recs|
        ensures At(cfg, q, w'.recs[q], ContextOf(w', q), w'.slot, AwaitOf(w'.tick, q))
      {
        assert At(cfg, q, w.recs[q], ContextOf(w, q), w.slot, AwaitOf(w.tick, q));
        if q == r {
          CancelledAt(cfg, r, w.recs[r], w'.recs[r], ContextOf(w, r), w.slot, w'.slot, AwaitOf(w.tick, r));
        } else {
          assert ContextOf(w', q) == ContextOf(w, q);
          OtherAt(cfg, q, w.recs[q], ContextOf(w, q), r, w.slot, w'.slot, AwaitOf(w.tick, q));
        }
      }
      CancelTickOk(cfg, w, r);
    }
  }

  lemma CancelRecord(cfg: Config, w: World, r: nat)
    requires Live(cfg, w) && !w.tick.Down? && r < |w.recs| && !w.recs[r].run.state.Terminal()
    ensures var out := CancelRun(cfg, w, r);
            var rec := w.recs[r].(run := w.recs[r].run.(state := Cancelled, failure := CancelledByUser));
            && out.w.recs == w.recs[r := rec] && out.trail == [rec] && RecInv(cfg, rec)
            && out.w.slot == (if w.slot == Some(r) then None else w.slot)
            && out.w.stuck == {} && out.w.finishing == w.finishing + {r}
            && out.w.tick == w.tick && out.w.advances == w.advances
  {
    EveryoneCanEnd(w.recs[r], CancelledByUser);
  }

  lemma CancelTickOk(cfg: Config, w: World, r: nat)
    requires Live(cfg, w) && !w.tick.Down? && r < |w.recs| && !w.recs[r].run.state.Terminal()
    ensures TickFits(CancelRun(cfg, w, r).w) && Shape(CancelRun(cfg, w, r).w)
  {
    hide RecInv, At, Clean, SnapFits, CancelRun;
    var w' := CancelRun(cfg, w, r).w;
    CancelRecord(cfg, w, r);
    CancelContexts(cfg, w, r);
    var rest := RestOf(w.tick);
    forall i | 0 <= i < |rest|
      ensures rest[i].r < |w'.recs| && SnapFits(rest[i].run, w'.recs[rest[i].r], ContextOf(w', rest[i].r))
    {
      assert SnapFits(rest[i].run, w.recs[rest[i].r], ContextOf(w, rest[i].r));
      if rest[i].r == r {
        assert At(cfg, r, w.recs[r], ContextOf(w, r), w.slot, AwaitOf(w.tick, r));
        CancelledSnap(cfg, r, rest[i].run, w.recs[r], w'.recs[r], ContextOf(w, r), w.slot);
        assert ContextOf(w', r) == Flagged(ContextOf(w, r));
      } else {
        assert ContextOf(w', rest[i].r) == ContextOf(w, rest[i].r);
      }
    }
  }

  lemma CancelContexts(cfg: Config, w: World, r: nat)
    requires !w.tick.Down? && r < |w.recs| && !w.recs[r].run.state.Terminal()
    ensures CancelRun(cfg, w, r).w.contexts
            == (if r in w.contexts then w.contexts[r := w.contexts[r].(cancel := true)] else w.contexts)
  {
  }

  lemma DropOk(cfg: Config, w: World, r: nat)
    requires Live(cfg, w)
    ensures Live(cfg, DropContext(w, r))
  {
    hide RecInv, CtxFits, Clean;
    if r in w.finishing {
      var w' := DropContext(w, r);
      forall q | 0 <= q < |w'.recs|
        ensures At(cfg, q, w'.recs[q], ContextOf(w', q), w'.slot, AwaitOf(w'.tick, q))
      {
        assert At(cfg, q, w.recs[q], ContextOf(w, q), w.slot, AwaitOf(w.tick, q));
      }
      var rest := RestOf(w.tick);
      forall i | 0 <= i < |rest|
        ensures rest[i].r < |w'.recs| && SnapFits(rest[i].run, w'.recs[rest[i].r], ContextOf(w', rest[i].r))
      {
        assert SnapFits(rest[i].run, w.recs[rest[i].r], ContextOf(w, rest[i].r));
        assert rest[i].r != r ==> ContextOf(w', rest[i].r) == ContextOf(w, rest[i].r);
      }
    }
  }

  // ---------------------------------------------------------------- resume

  lemma ResumedAt(cfg: Config, r: nat, rec: Record, octx: Option<Ctx>, slot: Option<nat>, aw: Await)
    requires RecInv(cfg, rec) && At(cfg, r, rec, octx, slot, aw) && rec.run.state.WaitingUser?
    requires aw.Boundary? ==> octx.Some?
    ensures var ctx := if octx.Some? then octx.value else Rebuild(cfg, rec);
            var rec' := rec.(run := rec.run.(boundary := false, state := Running));
            && RecInv(cfg, rec') && RecInv(cfg, rec.(run := rec.run.(boundary := false)))
            && At(cfg, r, rec', Some(ctx.(approvals := 0)), slot, aw)
  {
    hide Clean, InStepWithPlan;
  }

  lemma ResumeShape(cfg: Config, w: World, r: nat)
    ensures if w.tick.Down? || r >= |w.recs| || !w.recs[r].run.state.WaitingUser? then ResumeRun(cfg, w, r) == Quiet(w)
            else
              var rec1 := w.recs[r].(run := w.recs[r].run.(boundary := false));
              var rec2 := rec1.(run := rec1.run.(state := Running));
              var ctx := if r in w.contexts then w.contexts[r] else Rebuild(cfg, w.recs[r]);
              ResumeRun(cfg, w, r)
              == Out(w.(recs := w.recs[r := rec2], contexts := w.contexts[r := ctx.(approvals := 0)]), r, [rec1, rec2])
  {
  }

  lemma ResumeOk(cfg: Config, w: World, r: nat)
    requires Live(cfg, w)
    ensures OutOk(cfg, ResumeRun(cfg, w, r))
  {
    hide RecInv, At, Clean, ResumeRun;
    ResumeShape(cfg, w, r);
    if !w.tick.Down? && r < |w.recs| && w.recs[r].run.state.WaitingUser? {
      assert At(cfg, r, w.recs[r], ContextOf(w, r), w.slot, AwaitOf(w.tick, r));
      var w' := ResumeRun(cfg, w, r).w;
      ResumedAt(cfg, r, w.recs[r], ContextOf(w, r), w.slot, AwaitOf(w.tick, r));
      forall q | 0 <= q < |w'.recs|
        ensures At(cfg, q, w'.recs[q], ContextOf(w', q), w'.slot, AwaitOf(w'.tick, q))
      {
        assert At(cfg, q, w.recs[q], ContextOf(w, q), w.slot, AwaitOf(w.tick, q));
        assert q != r ==> ContextOf(w', q) == ContextOf(w, q);
      }
      var rest := RestOf(w.tick);
      forall i | 0 <= i < |rest|
        ensures rest[i].r < |w'.recs| && SnapFits(rest[i].run, w'.recs[rest[i].r], ContextOf(w', rest[i].r))
      {
        assert SnapFits(rest[i].run, w.recs[rest[i].r], ContextOf(w, rest[i].r));
        assert rest[i].r != r ==> ContextOf(w', rest[i].r) == ContextOf(w, rest[i].r);
      }
    }
  }

  // ---------------------------------------------------------------- submit and begin

  lemma SubmitOk(cfg: Config, w: World, scope: Scope)
    requires Live(cfg, w)
    ensures OutOk(cfg, Happen(cfg, w, Submit(scope)))
  {
    hide Clean, SnapFits, RowOk, Unique;
    if !w.tick.Down? {
      var w' := Happen(cfg, w, Submit(scope)).w;
      FreshOk(cfg, |w.recs|, scope, w.slot);
      hide RecInv, At;
      forall q | 0 <= q < |w'.recs|
        ensures At(cfg, q, w'.recs[q], ContextOf(w', q), w'.slot, AwaitOf(w'.tick, q)) && RecInv(cfg, w'.recs[q])
      {
        if q < |w.recs| {
          assert At(cfg, q, w.recs[q], ContextOf(w, q), w.slot, AwaitOf(w.tick, q));
          assert ContextOf(w', q) == ContextOf(w, q);
        }
      }
      var rest := RestOf(w.tick);
      forall i | 0 <= i < |rest|
        ensures rest[i].r < |w'.recs| && SnapFits(rest[i].run, w'.recs[rest[i].r], ContextOf(w', rest[i].r))
      {
        assert ContextOf(w', rest[i].r) == ContextOf(w, rest[i].r);
      }
    }
  }

  lemma FreshOk(cfg: Config, r: nat, scope: Scope, slot: Option<nat>)
    requires slot != Some(r)
    ensures RecInv(cfg, NewRecord(scope)) && At(cfg, r, NewRecord(scope), Some(NewCtx(cfg.LimitsOf(scope))), slot, Done)
  {
  }

  /** What a tick reads at its beginning: every open run once, in order, as it is. */
  lemma {:induction false} OpenSnapsAre(recs: seq<Record>)
    ensures Increasing(OpenSnaps(recs))
    ensures forall s :: s in OpenSnaps(recs) <==> s.r < |recs| && s.run == recs[s.r].run && !s.run.state.Terminal()
  {
    if recs != [] {
      var n := |recs| - 1;
      var before := OpenSnaps(recs[..n]);
      OpenSnapsAre(recs[..n]);
      forall s ensures s in OpenSnaps(recs) <==> s.r < |recs| && s.run == recs[s.r].run && !s.run.state.Terminal() {
        assert s.r < n ==> recs[..n][s.r] == recs[s.r];
      }
      IncreasingMore(before, OpenSnaps(recs)[|before|..], n);
    }
  }

  lemma IncreasingMore(before: seq<Snap>, last: seq<Snap>, n: nat)
    requires Increasing(before) && |last| <= 1
    requires forall s :: s in before ==> s.r < n
    requires forall s :: s in last ==> s.r == n
    ensures Increasing(before + last)
  {
    assert forall i :: 0 <= i < |before| ==> before[i] in before;
    assert last != [] ==> last[0] in last;
  }

  lemma BeginOk(cfg: Config, w: World)
    requires Live(cfg, w)
    ensures OutOk(cfg, Happen(cfg, w, BeginTick))
  {
    hide RecInv, At, Clean;
    if w.tick == Between([]) {
      var w' := w.(tick := Between(OpenSnaps(w.recs)));
      OpenSnapsAre(w.recs);
      forall q | 0 <= q < |w'.recs|
        ensures At(cfg, q, w'.recs[q], ContextOf(w', q), w'.slot, AwaitOf(w'.tick, q))
      {
        assert At(cfg, q, w.recs[q], ContextOf(w, q), w.slot, AwaitOf(w.tick, q));
      }
      forall i | 0 <= i < |w'.tick.rest|
        ensures w'.tick.rest[i].r < |w'.recs|
                && SnapFits(w'.tick.rest[i].run, w'.recs[w'.tick.rest[i].r], ContextOf(w', w'.tick.rest[i].r))
      {
        assert w'.tick.rest[i] in OpenSnaps(w.recs);
      }
    }
  }

  // ---------------------------------------------------------------- crash and restart

  lemma DieOk(cfg: Config, w: World)
    requires Live(cfg, w)
    ensures Live(cfg, Die(w))
  {
    hide RecInv, At, Clean, SnapFits;
  }

  /** No row is both under way and in possession of a child, so the restart never touches a row. */
  lemma NothingToReap(cfg: Config, rec: Record, alive: bool)
    requires RecInv(cfg, rec)
    ensures ReconcileRecord(rec, alive).rows == rec.rows
  {
    forall i | 0 <= i < |rec.rows| ensures ReconcileRow(rec.rows[i], alive) == rec.rows[i] {
      assert RowOk(rec.rows[i]);
    }
  }

  /** The restart marks what was under way; what it leaves is at rest without a context. */
  lemma ReconciledOk(cfg: Config, r: nat, rec: Record, alive: bool)
    requires RecInv(cfg, rec)
    ensures var rec' := ReconcileRecord(rec, alive);
            && RecInv(cfg, rec') && rec'.rows == rec.rows && At(cfg, r, rec', None, None, Done)
            && (rec'.run.state.Terminal() || rec'.run.state.WaitingUser? || rec'.run.state.Interrupted?)
            && rec'.run == (if rec.run.state.Terminal() || rec.run.state.WaitingUser? then rec.run
                            else rec.run.(state := Interrupted))
            && rec'.run.revision == rec.run.revision && rec'.run.scope == rec.run.scope
  {
    NothingToReap(cfg, rec, alive);
    if !rec.run.state.Terminal() && !rec.run.state.Interrupted? {
      EveryoneCanEnd(rec, NoCategory);
    }
  }

  lemma ReconcileOk(cfg: Config, w: World, n: nat, alive: bool)
    requires Live(cfg, w) && w.tick.Down?
    ensures var recs := ReconcileFirst(w.recs, n, alive);
            && Live(cfg, w.(recs := recs)) && (n >= |w.recs| ==> Live(cfg, w.(recs := recs, tick := Between([]))))
  {
    hide RecInv, At, Clean, SnapFits, ReconcileRecord;
    var recs := ReconcileFirst(w.recs, n, alive);
    forall q | 0 <= q < |recs|
      ensures RecInv(cfg, recs[q]) && (n >= |w.recs| ==> At(cfg, q, recs[q], None, None, Done))
    {
      ReconciledOk(cfg, q, w.recs[q], alive);
    }
  }

  // ---------------------------------------------------------------- every event, every run

  lemma CrashDuringOk(cfg: Config, w: World, out: Out, writes: nat)
    requires Live(cfg, w) && OutOk(cfg, out)
    ensures Live(cfg, Die(Begun(w, out)))
    ensures out.r < |w.recs| && 1 <= writes <= |out.trail| ==>
              Live(cfg, Die(Begun(w, out).(recs := w.recs[out.r := out.trail[writes - 1]])))
  {
    hide RecInv, At, Clean, SnapFits;
    if out.r < |w.recs| && 1 <= writes <= |out.trail| {
      assert RecInv(cfg, out.trail[writes - 1]);
    }
  }

  lemma HappenOk(cfg: Config, w: World, e: Event)
    requires Live(cfg, w)
    ensures OutOk(cfg, Happen(cfg, w, e))
    decreases e
  {
    hide Live, VisitHead, ReplyTo, CancelRun, DropContext, ResumeRun, Die, ReconcileFirst, RecInv, Begun;
    match e {
      case Submit(scope) => SubmitOk(cfg, w, scope);
      case BeginTick => BeginOk(cfg, w);
      case Visit(luck) => VisitOk(cfg, w, luck);
      case Reply(answer) => ReplyOk(cfg, w, answer);
      case Cancel(r) => CancelOk(cfg, w, r);
      case Notified(r) => DropOk(cfg, w, r);
      case Resume(r) => ResumeOk(cfg, w, r);
      case Reconcile(alive) => if w.tick.Down? { ReconcileOk(cfg, w, |w.recs|, alive); }
      case Crash => DieOk(cfg, w);
      case CrashDuring(inner, writes) =>
        HappenOk(cfg, w, inner);
        CrashDuringOk(cfg, w, Happen(cfg, w, inner), writes);
      case CrashInReconcile(runs, alive) =>
        if w.tick.Down? {
          ReconcileOk(cfg, w, runs, alive);
          DieOk(cfg, w.(recs := ReconcileFirst(w.recs, runs, alive)));
        }
    }
  }

  lemma InitiallyLive(cfg: Config)
    ensures Live(cfg, INITIAL)
  {
  }

  /** Every reachable world satisfies the invariant. */
  lemma {:induction false} AlwaysLive(cfg: Config, events: seq<Event>)
    ensures Live(cfg, After(cfg, INITIAL, events))
  {
    hide Live;
    if events == [] {
      InitiallyLive(cfg);
    } else {
      AlwaysLive(cfg, events[..|events| - 1]);
      HappenOk(cfg, After(cfg, INITIAL, events[..|events| - 1]), events[|events| - 1]);
    }
  }
}
