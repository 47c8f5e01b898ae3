/**
 When the router is called at all. The one write that adds a call with an approval is the one
 behind an approval read as APPROVED, and it does not ask whether the run has ended meanwhile.
 */
module AgentCalls {
  import opened Basics
  import opened RunLedger
  import opened RunBudget
  import opened AgentSteps
  import opened AgentRows
  import opened AgentGrowth
  import opened AgentInvariant
  import opened AgentWorld
  import opened AgentSafety
  import opened AgentTheorems
  import opened AgentSettled

  /** The one answer behind which a call with the approval is made. */
  predicate Redeems(cfg: Config, rec: Record, i: nat, answer: Answer) {
    answer == FromApproval(ReadApproved) && cfg.control && i < |rec.rows| && rec.rows[i].approval.Some?
  }

  /** In this event APPROVED is read for row i of run r, and the call with the approval is booked. */
  predicate HearsApproved(cfg: Config, w: World, e: Event, r: nat, i: nat) {
    && w.tick.Busy? && w.tick.r == r < |w.recs| && w.tick.aw == Reading(i)
    && match e
       case Reply(answer) => Redeems(cfg, w.recs[r], i, answer)
       case CrashDuring(inner, writes) => inner.Reply? && writes == 1 && Redeems(cfg, w.recs[r], i, inner.answer)
       case _ => false
  }

  function Hit(cfg: Config, w: World, e: Event, r: nat): Option<nat> {
    if w.tick.Busy? && w.tick.aw.Reading? && HearsApproved(cfg, w, e, r, w.tick.aw.row) then Some(w.tick.aw.row) else None
  }

  /** One write, and it is the call: durable before the router is asked. */
  lemma FollowRedeems(l: Local, cfg: Config, snap: Run, i: nat, answer: Answer)
    requires l.trail == [] && Redeems(cfg, l.rec, i, answer)
    ensures var seg := Follow(l, cfg, snap, Reading(i), answer);
            seg.Some? && seg.value == Stopped(seg.value.l, Redeeming(i)) && |seg.value.l.trail| == 1
  {
  }

  lemma ReplyRedeems(cfg: Config, w: World, answer: Answer)
    requires w.tick.Busy? && w.tick.r < |w.recs| && w.tick.aw.Reading? && Redeems(cfg, w.recs[w.tick.r], w.tick.aw.row, answer)
    ensures |ReplyTo(cfg, w, answer).trail| == 1
  {
    hide Follow, Rebuild, Redeems;
    var t := w.tick;
    var l := if t.lost.Some? then Enter(cfg, w, t.r).(ctx := t.lost.value) else Enter(cfg, w, t.r);
    FollowRedeems(l, cfg, t.snap, t.aw.row, answer);
  }

  /** One event: a row that is there is not asked for, and called with its approval once when APPROVED is heard. */
  lemma CalledOnce(cfg: Config, w: World, e: Event, r: nat, i: nat)
    requires Live(cfg, w) && r < |w.recs|
    ensures |Base(cfg, w, e, r)| == |w.recs[r].rows|
    ensures i < |w.recs[r].rows| ==>
              var row, row' := w.recs[r].rows[i], Base(cfg, w, e, r)[i];
              row'.asked == row.asked && row'.redeemed == row.redeemed + if HearsApproved(cfg, w, e, r, i) then 1 else 0
  {
    hide Live, ReplyTo;
    if e.CrashDuring? && e.event.Reply? && w.tick.Busy? && w.tick.r == r && w.tick.aw.Reading?
       && Redeems(cfg, w.recs[r], w.tick.aw.row, e.event.answer) {
      ReplyRedeems(cfg, w, e.event.answer);
    }
  }

  // ---------------------------------------------------------------- over a history

  /** How often in these events APPROVED is read for row i of run r. */
  function Heard(cfg: Config, w: World, events: seq<Event>, r: nat, i: nat): nat {
    if events == [] then 0
    else
      var n := |events| - 1;
      Heard(cfg, w, events[..n], r, i) + if HearsApproved(cfg, After(cfg, w, events[..n]), events[n], r, i) then 1 else 0
  }

  function Redeemed(w: World, r: nat, i: nat): nat {
    if r < |w.recs| && i < |w.recs[r].rows| then w.recs[r].rows[i].redeemed else 0
  }

  /**
   Over any further history, and for every run, ended or not: a row is called with its
   approval exactly as often as APPROVED is read for it.
   */
  lemma {:induction false} CallsAreReadings(cfg: Config, w: World, events: seq<Event>, r: nat, i: nat)
    requires Live(cfg, w)
    ensures Redeemed(After(cfg, w, events), r, i) == Redeemed(w, r, i) + Heard(cfg, w, events, r, i)
  {
    hide Live, Happen, HearsApproved, Redeemed;
    if events != [] {
      var n := |events| - 1;
      CallsAreReadings(cfg, w, events[..n], r, i);
      EndsAreEnds(cfg, w, events[..n]);
      OneReading(cfg, After(cfg, w, events[..n]), events[n], r, i);
    }
  }

  lemma OneReading(cfg: Config, w: World, e: Event, r: nat, i: nat)
    requires Live(cfg, w)
    ensures Redeemed(Apply(cfg, w, e), r, i) == Redeemed(w, r, i) + if HearsApproved(cfg, w, e, r, i) then 1 else 0
  {
    hide Live, Happen, HearsApproved, Base, Extends;
    HeardOnARow(cfg, w, e, r, i);
    if r < |w.recs| {
      HappenSettles(cfg, w, e, r);
      CalledOnce(cfg, w, e, r, i);
      RowsBehind(cfg, w, e, r, i);
    } else {
      NewRunsAreEmpty(cfg, w, e, r);
    }
  }

  lemma RowsBehind(cfg: Config, w: World, e: Event, r: nat, i: nat)
    requires r < |w.recs| && r < |Apply(cfg, w, e).recs|
    requires Extends(Base(cfg, w, e, r), Apply(cfg, w, e).recs[r].rows, StillOpen(w, r))
    ensures |Base(cfg, w, e, r)| == |w.recs[r].rows| <= |Apply(cfg, w, e).recs[r].rows|
    ensures i < |w.recs[r].rows| ==> Apply(cfg, w, e).recs[r].rows[i] == Base(cfg, w, e, r)[i]
    ensures |w.recs[r].rows| <= i < |Apply(cfg, w, e).recs[r].rows| ==> Added(Apply(cfg, w, e).recs[r].rows[i], StillOpen(w, r))
  {
    hide Base, Happen;
    BaseCount(cfg, w, e, r);
  }

  lemma HeardOnARow(cfg: Config, w: World, e: Event, r: nat, i: nat)
    ensures HearsApproved(cfg, w, e, r, i) ==> r < |w.recs| && i < |w.recs[r].rows|
  {
  }

  /**
   Over any further history, a row that exists is never asked for again without an approval,
   and once its run has ended no row is: not one of those that may still be added.
   */
  lemma {:induction false} AskedNoMore(cfg: Config, w: World, events: seq<Event>, r: nat, i: nat)
    requires Live(cfg, w) && r < |w.recs|
    requires r < |After(cfg, w, events).recs| && i < |After(cfg, w, events).recs[r].rows|
    ensures i < |w.recs[r].rows| ==> After(cfg, w, events).recs[r].rows[i].asked == w.recs[r].rows[i].asked
    ensures i >= |w.recs[r].rows| && w.recs[r].run.state.Terminal() ==> After(cfg, w, events).recs[r].rows[i].asked == 0
  {
    hide Live, Happen, HearsApproved, Base, Extends;
    if events != [] {
      var n := |events| - 1;
      var w1 := After(cfg, w, events[..n]);
      EndsAreEnds(cfg, w, events[..n]);
      assert Evolves(w.recs[r], w1.recs[r]);
      HappenSettles(cfg, w1, events[n], r);
      CalledOnce(cfg, w1, events[n], r, i);
      RowsBehind(cfg, w1, events[n], r, i);
      if i < |w1.recs[r].rows| {
        AskedNoMore(cfg, w, events[..n], r, i);
      }
    }
  }

  // ---------------------------------------------------------------- after the end

  /** Somebody may still read an approval for run r: the tick has it on its list, or stands there. */
  predicate StillRead(w: World, r: nat) {
    || (w.tick.Busy? && w.tick.r == r && w.tick.aw.Reading?)
    || exists i :: 0 <= i < |RestOf(w.tick)| && RestOf(w.tick)[i].r == r
  }

  /** No answer is followed by the next question for a step, or by a reading. */
  lemma NeverBack(l: Local, cfg: Config, snap: Run, aw: Await, answer: Answer)
    ensures Follow(l, cfg, snap, aw, answer).Some? && Follow(l, cfg, snap, aw, answer).value.Stopped? ==>
              var aw' := Follow(l, cfg, snap, aw, answer).value.aw; !aw'.Reading? && !aw'.Specialist? && !aw'.Asking?
  {
    hide PlanEvent, MarkRow, PutRow, Release, Transition, CategoryOf, Shorten, NoteLowValue, OptionalFor, Write;
    hide Charge, Usable, NoteStep;
  }

  lemma ReplyPasses(cfg: Config, w: World, answer: Answer, r: nat)
    requires Live(cfg, w) && r < |w.recs|
    ensures !StillRead(w, r) || Hit(cfg, w, Reply(answer), r).Some? ==> !StillRead(ReplyTo(cfg, w, answer).w, r)
  {
    hide RecInv, At, SnapFits, Shape, Follow, Rebuild, Redeems;
    var t := w.tick;
    if t.Busy? && t.r < |w.recs| && !t.aw.Finishing? {
      var l := if t.lost.Some? then Enter(cfg, w, t.r).(ctx := t.lost.value) else Enter(cfg, w, t.r);
      NeverBack(l, cfg, t.snap, t.aw, answer);
      if Hit(cfg, w, Reply(answer), r).Some? {
        FollowRedeems(l, cfg, t.snap, t.aw.row, answer);
      }
    }
  }

  lemma VisitPasses(cfg: Config, w: World, luck: Luck, r: nat)
    requires r < |w.recs| && !StillRead(w, r)
    ensures !StillRead(VisitHead(cfg, w, luck).w, r)
  {
    hide Rebuild, Poll, Advance, Skipped;
    if w.tick.Between? && w.tick.rest != [] {
      assert RestOf(w.tick)[0].r != r;
      assert forall i :: 0 <= i < |w.tick.rest[1..]| ==> w.tick.rest[1..][i] == RestOf(w.tick)[i + 1];
    }
  }

  lemma BeginPasses(cfg: Config, w: World, r: nat)
    requires r < |w.recs| && w.recs[r].run.state.Terminal()
    requires !StillRead(w, r)
    ensures !StillRead(Apply(cfg, w, BeginTick), r)
  {
    OpenSnapsAre(w.recs);
  }

  lemma Passes(cfg: Config, w: World, e: Event, r: nat)
    requires Live(cfg, w) && r < |w.recs| && w.recs[r].run.state.Terminal()
    ensures !StillRead(w, r) || Hit(cfg, w, e, r).Some? ==> !StillRead(Apply(cfg, w, e), r)
    ensures Hit(cfg, w, e, r).Some? ==> StillRead(w, r)
  {
    hide Live, VisitHead, ReplyTo, ReconcileFirst, Redeems;
    match e {
      case BeginTick => if !StillRead(w, r) { BeginPasses(cfg, w, r); }
      case Visit(luck) => if !StillRead(w, r) { VisitPasses(cfg, w, luck, r); }
      case Reply(answer) => ReplyPasses(cfg, w, answer, r);
      case Cancel(q) => SameTick(cfg, w, q);
      case Resume(q) => SameTick(cfg, w, q);
      case Notified(q) => if !StillRead(w, r) { NoticePasses(w, q, r); }
      case _ =>
    }
  }

  lemma NoticePasses(w: World, q: nat, r: nat)
    requires !StillRead(w, r)
    ensures !StillRead(DropContext(w, q), r)
  {
    assert RestOf(DropContext(w, q).tick) == RestOf(w.tick);
  }

  lemma SameTick(cfg: Config, w: World, q: nat)
    ensures CancelRun(cfg, w, q).w.tick == w.tick && ResumeRun(cfg, w, q).w.tick == w.tick
  {
    hide Rebuild, Finish, Move;
  }

  /** How often in these events a call with an approval is booked for run r, on whichever row. */
  function Booked(cfg: Config, w: World, events: seq<Event>, r: nat): nat {
    if events == [] then 0
    else
      var n := |events| - 1;
      Booked(cfg, w, events[..n], r) + if Hit(cfg, After(cfg, w, events[..n]), events[n], r).Some? then 1 else 0
  }

  /** A run that has ended is called for at most once more, and only by a tick that had read it before. */
  lemma {:induction false} OneLateCall(cfg: Config, w: World, events: seq<Event>, r: nat)
    requires Live(cfg, w) && r < |w.recs| && w.recs[r].run.state.Terminal()
    ensures Booked(cfg, w, events, r) + (if StillRead(After(cfg, w, events), r) then 1 else 0)
            <= (if StillRead(w, r) then 1 else 0)
  {
    hide Live, Happen, Hit, StillRead;
    if events != [] {
      var n := |events| - 1;
      var w1 := After(cfg, w, events[..n]);
      OneLateCall(cfg, w, events[..n], r);
      EndsAreEnds(cfg, w, events[..n]);
      assert Evolves(w.recs[r], w1.recs[r]);
      Passes(cfg, w1, events[n], r);
    }
  }
}
