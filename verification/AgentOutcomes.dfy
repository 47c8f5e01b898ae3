/**
 What is decided when an open run is visited or answered, in every reachable world: its run row,
 its context, where the tick stands, and what has become of the row asked about.
 */
module AgentOutcomes {
  import opened Basics
  import opened RunLedger
  import opened AgentSteps
  import opened AgentInvariant
  import opened AgentRows
  import opened AgentEndings
  import opened AgentWorld
  import opened AgentSafety
  import opened AgentSettled

  /** The coroutine of an open run stands where its await says, with the context of the table. */
  lemma OpenStands(cfg: Config, w: World)
    requires Live(cfg, w) && w.tick.Busy? && !w.recs[w.tick.r].run.state.Terminal()
    ensures w.tick.lost.None? && !w.tick.aw.Finishing? && InPlace(Enter(cfg, w, w.tick.r), w.tick.aw)
  {
    hide RecInv, CtxFits, Clean, SnapFits, Rebuild;
    assert At(cfg, w.tick.r, w.recs[w.tick.r], ContextOf(w, w.tick.r), w.slot, w.tick.aw);
  }

  /** Run r stands so in the world: its row, its context in the table, and the tick behind its turn. */
  predicate Stands(w: World, r: nat, snap: Run, rest: seq<Snap>, stand: Stand) {
    && r < |w.recs| && w.recs[r].run == stand.run && r in w.contexts && w.contexts[r] == stand.ctx
    && w.tick == if stand.aw.Thrown? then Between([]) else if stand.aw.Done? then Between(rest)
                 else Busy(r, snap, stand.aw, None, rest)
  }

  lemma LeavesStanding(w: World, r: nat, snap: Run, rest: seq<Snap>, seg: Seg)
    requires r < |w.recs| && seg.Stopped?
    ensures Stands(Leave(w, r, snap, false, rest, seg), r, snap, rest, StandOf(seg))
  {
  }

  /** Every answer an open run awaits leaves it where `Decided` says. */
  lemma AnswerDecides(cfg: Config, w: World, answer: Answer)
    requires Live(cfg, w) && w.tick.Busy? && !w.recs[w.tick.r].run.state.Terminal()
    requires Follow(Enter(cfg, w, w.tick.r), cfg, w.tick.snap, w.tick.aw, answer).Some?
    ensures InPlace(Enter(cfg, w, w.tick.r), w.tick.aw)
    ensures Stands(Apply(cfg, w, Reply(answer)), w.tick.r, w.tick.snap, w.tick.rest,
                   Decided(cfg, Enter(cfg, w, w.tick.r), w.tick.snap, w.tick.aw, answer))
  {
    OpenStands(cfg, w);
    hide Live, Follow, Enter, Decided, InPlace, Stands, Leave;
    var t := w.tick;
    FollowEnds(Enter(cfg, w, t.r), cfg, t.snap, t.aw, answer);
    LeavesStanding(w, t.r, t.snap, t.rest, Follow(Enter(cfg, w, t.r), cfg, t.snap, t.aw, answer).value);
  }

  /**
   The outcome of a call, in every reachable world: done is booked as succeeded, a denial as
   denied, an uncertain outcome as unknown, and the run is ended by an uncertain one always and
   by a denial unless the step is optional.
   */
  lemma OutcomeDecides(cfg: Config, w: World, v: Verdict, approval: Option<nat>)
    requires Live(cfg, w) && w.tick.Busy? && !w.recs[w.tick.r].run.state.Terminal()
    requires w.tick.aw.Asking? || w.tick.aw.Redeeming?
    ensures var i, was := w.tick.aw.row, w.recs[w.tick.r];
            var optional := if w.tick.aw.Asking? then w.tick.aw.planned.optional
                            else OptionalStep(Enter(cfg, w, w.tick.r).ctx, was.rows[i].ordinal);
            var rec := Apply(cfg, w, Reply(FromRouter(Answered(v, approval)))).recs[w.tick.r];
            && |rec.rows| == |was.rows|
            && (v == Did ==> rec.rows[i].state == RowSucceeded && rec.run.state == Running)
            && (v == Denial ==> rec.rows[i].state == RowDenied)
            && (v == Denial && !optional ==> rec.run.state == Failed && rec.run.failure == ApprovalDenied)
            && (v == Uncertain ==>
                  rec.rows[i].state == RowUnknown && rec.run.state == Failed && rec.run.failure == RecoveryRequired)
            && (v == PolicyFailure ==> rec.rows[i].state == RowFailed && rec.run.state == WaitingUser)
  {
    var answer := FromRouter(Answered(v, approval));
    OpenStands(cfg, w);
    AnswerDecides(cfg, w, answer);
    ReplySettles(cfg, w, answer, w.tick.r);
    BehindIs(cfg, w, v, approval);
    hide Live, Follow, Enter, ReplyTo, InPlace, Behind, OptionalStep, AgainOr, On, Counted;
  }

  lemma BehindIs(cfg: Config, w: World, v: Verdict, approval: Option<nat>)
    requires w.tick.Busy? && w.tick.r < |w.recs| && (w.tick.aw.Asking? || w.tick.aw.Redeeming?)
    requires InPlace(Enter(cfg, w, w.tick.r), w.tick.aw)
    ensures var i, rows := w.tick.aw.row, w.recs[w.tick.r].rows;
            && i < |rows| && Behind(cfg, w, FromRouter(Answered(v, approval)), w.tick.r, 2)
                             == rows[i := if v == NeedsApproval && w.tick.aw.Asking?
                                          then rows[i].(state := RowWaiting, approval := approval)
                                          else rows[i].(state := StateFor(v))]
  {
  }

  /**
   The tick comes to an open run: one that waits for an approval is not written, and the tick
   stands at the reading of its pending row; every other is left where `Advanced` says, with the
   rows `RowsOn` says if it is not in verification.
   */
  lemma VisitDecides(cfg: Config, w: World, luck: Luck)
    requires Live(cfg, w) && w.tick.Between? && w.tick.rest != [] && !Skipped(cfg, w, w.tick.rest[0])
    requires !w.recs[w.tick.rest[0].r].run.state.Terminal()
    ensures var s, rest := w.tick.rest[0], w.tick.rest[1..];
            var l, w' := Enter(cfg, w, s.r), Apply(cfg, w, Visit(luck));
            && s.run.state == l.rec.run.state
            && (s.run.state == WaitingApproval ==>
                  l.ctx.pending.Some?
                  && Stands(w', s.r, s.run, rest, Stand(l.rec.run, l.ctx, Reading(l.ctx.pending.value)))
                  && w'.recs == w.recs)
            && (s.run.state != WaitingApproval ==> Stands(w', s.r, s.run, rest, Advanced(cfg, l, s.run, luck)))
            && (s.run.state !in {WaitingApproval, Verifying} || (s.run.state == Verifying && l.ctx.cancel) ==>
                  w'.recs[s.r].rows == RowsOn(cfg, l, s.run, luck))
  {
    var s, rest := w.tick.rest[0], w.tick.rest[1..];
    var l := Enter(cfg, w, s.r);
    VisitedAsRead(cfg, w);
    hide Live, Advance, Poll, Advanced, RowsOn, Rebuild, Skipped;
    if s.run.state == WaitingApproval {
      PollReads(cfg, w);
      LeavesStanding(w, s.r, s.run, rest, Poll(l));
    } else {
      AdvanceEnds(l, cfg, s.run, luck);
      LeavesStanding(w, s.r, s.run, rest, Advance(l, cfg, s.run, luck));
    }
  }

  lemma VisitedAsRead(cfg: Config, w: World)
    requires Live(cfg, w) && w.tick.Between? && w.tick.rest != [] && !Skipped(cfg, w, w.tick.rest[0])
    requires !w.recs[w.tick.rest[0].r].run.state.Terminal()
    ensures w.tick.rest[0].run.state == w.recs[w.tick.rest[0].r].run.state
  {
    hide RecInv, At, Shape;
    assert SnapFits(RestOf(w.tick)[0].run, w.recs[w.tick.rest[0].r], ContextOf(w, w.tick.rest[0].r));
  }

  lemma PollReads(cfg: Config, w: World)
    requires Live(cfg, w) && w.tick.Between? && w.tick.rest != []
    requires w.recs[w.tick.rest[0].r].run.state == WaitingApproval
    ensures var l := Enter(cfg, w, w.tick.rest[0].r);
            l.ctx.pending.Some? && Poll(l) == Stopped(l, Reading(l.ctx.pending.value))
  {
    hide RecInv, Clean, SnapFits, Rebuild, Close, Move, InStepWithPlan;
    var r := w.tick.rest[0].r;
    assert At(cfg, r, w.recs[r], ContextOf(w, r), w.slot, AwaitOf(w.tick, r));
  }
}
