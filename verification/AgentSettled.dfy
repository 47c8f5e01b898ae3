/**
 Where the state of a step row comes from, over every history: a call, a specialist or an
 approval was answered, and the row says what the answer said. Nothing else settles a row that
 was asked for.
 */
module AgentSettled {
  import opened Basics
  import opened RunLedger
  import opened AgentSteps
  import opened AgentRows
  import opened AgentInvariant
  import opened AgentGrowth
  import opened AgentWorld
  import opened AgentSafety
  import opened AgentTheorems

  // ---------------------------------------------------------------- one event, and the rows there were

  predicate StillOpen(w: World, r: nat)
    requires r < |w.recs|
  {
    !w.recs[r].run.state.Terminal()
  }

  /** The rows of run r stay, by the end and by every write on the way; rows may be added. */
  predicate Kept(w: World, out: Out, r: nat)
    requires r < |w.recs|
  {
    && r < |out.w.recs| && Extends(w.recs[r].rows, out.w.recs[r].rows, StillOpen(w, r))
    && (out.r == r ==> forall t :: t in out.trail ==> Extends(w.recs[r].rows, t.rows, StillOpen(w, r)))
  }

  lemma SameRowsKept(w: World, out: Out, r: nat)
    requires r < |w.recs| && r < |out.w.recs| && out.w.recs[r].rows == w.recs[r].rows
    requires out.r == r ==> forall t :: t in out.trail ==> t.rows == w.recs[r].rows
    ensures Kept(w, out, r)
  {
  }

  lemma AddingKept(rows: seq<Row>, plan: Option<seq<Planned>>, l: Local, ask: bool, open: bool)
    requires Adding(rows, plan, l, ask) && (ask ==> open)
    ensures Extends(rows, l.rec.rows, open) && forall t :: t in l.trail ==> Extends(rows, t.rows, open)
  {
    assert Extends(rows, l.rec.rows, open) by { AskLess(rows, l.rec.rows, ask, open); }
    forall t | t in l.trail ensures Extends(rows, t.rows, open) {
      AskLess(rows, t.rows, ask, open);
    }
  }

  lemma AskLess(a: seq<Row>, b: seq<Row>, ask: bool, open: bool)
    requires Extends(a, b, ask) && (ask ==> open)
    ensures Extends(a, b, open)
  {
  }

  /** An ended run that is still on the tick's list has its cancellation flag or no plan. */
  lemma EndedIsFlagged(cfg: Config, w: World)
    requires Live(cfg, w) && w.tick.Between? && w.tick.rest != [] && w.tick.rest[0].r < |w.recs|
    requires !w.tick.rest[0].run.state.WaitingUser? && w.recs[w.tick.rest[0].r].run.state.Terminal()
    ensures var ctx := Enter(cfg, w, w.tick.rest[0].r).ctx; ctx.cancel || ctx.plan.None?
  {
    hide RecInv, At, Clean;
    var s := w.tick.rest[0];
    assert SnapFits(s.run, w.recs[s.r], ContextOf(w, s.r));
  }

  lemma VisitKeeps(cfg: Config, w: World, luck: Luck, r: nat)
    requires Live(cfg, w) && r < |w.recs|
    ensures Kept(w, VisitHead(cfg, w, luck), r)
  {
    hide Live, Extends, Adding, Poll, Advance, Rebuild, Skipped;
    var out := VisitHead(cfg, w, luck);
    if !w.tick.Between? || w.tick.rest == [] || w.tick.rest[0].r != r || Skipped(cfg, w, w.tick.rest[0]) {
      assert out.r == r ==> out.trail == [];
      hide VisitHead;
      assert Extends(w.recs[r].rows, w.recs[r].rows, StillOpen(w, r)) by { SelfExtends(w.recs[r].rows, StillOpen(w, r)); }
    } else {
      var s := w.tick.rest[0];
      var l := Enter(cfg, w, r);
      NotSkipped(cfg, w, s);
      SelfExtends(w.recs[r].rows, StillOpen(w, r));
      PollKeeps(l);
      AdvanceAdds(l, cfg, s.run, luck);
      if !StillOpen(w, r) {
        EndedIsFlagged(cfg, w);
      }
      AddingKept(l.rec.rows, l.ctx.plan, Advance(l, cfg, s.run, luck).l, l.ctx.plan.Some? && !l.ctx.cancel, StillOpen(w, r));
    }
  }

  lemma SelfExtends(rows: seq<Row>, open: bool)
    ensures Extends(rows, rows, open)
  {
  }

  lemma UserKeeps(cfg: Config, w: World, q: nat, r: nat)
    requires r < |w.recs|
    ensures Kept(w, CancelRun(cfg, w, q), r) && Kept(w, ResumeRun(cfg, w, q), r)
  {
    hide Rebuild, Kept;
    SameRowsKept(w, CancelRun(cfg, w, q), r);
    SameRowsKept(w, ResumeRun(cfg, w, q), r);
  }

  lemma ReconcileKeeps(cfg: Config, w: World, n: nat, alive: bool, w': World, r: nat)
    requires Live(cfg, w) && r < |w.recs| && w'.recs == ReconcileFirst(w.recs, n, alive)
    ensures Kept(w, Quiet(w'), r)
  {
    hide RecInv, At, TickFits, Shape, ReconcileRecord;
    ReconciledOk(cfg, r, w.recs[r], alive);
    SameRowsKept(w, Quiet(w'), r);
  }

  // ---------------------------------------------------------------- one answer, and its row

  /** The row of run r that the tick's coroutine waits to hear about. */
  function Awaited(w: World, r: nat): Option<nat> {
    if w.tick.Busy? && w.tick.r == r then About(w.tick.aw) else None
  }

  /** The rows of run r after the n-th write of the stretch behind this answer. */
  function Behind(cfg: Config, w: World, answer: Answer, r: nat, n: nat): seq<Row>
    requires r < |w.recs|
  {
    var rows, i := w.recs[r].rows, Awaited(w, r);
    if i.Some? && i.value < |rows|
    then rows[i.value := FateAt(cfg, rows[i.value], w.recs[r].run.state.WaitingApproval?, w.tick.aw, answer, n)]
    else rows
  }

  /** The rows of run r behind an event, before any are added. */
  function Base(cfg: Config, w: World, e: Event, r: nat): seq<Row>
    requires r < |w.recs|
  {
    match e
    case Reply(answer) => Behind(cfg, w, answer, r, 2)
    case CrashDuring(Reply(answer), n) =>
      if 1 <= n <= |ReplyTo(cfg, w, answer).trail| then Behind(cfg, w, answer, r, n) else w.recs[r].rows
    case _ => w.recs[r].rows
  }

  lemma StandsThere(cfg: Config, w: World)
    requires Live(cfg, w) && w.tick.Busy? && !w.tick.aw.Finishing? && w.tick.r < |w.recs|
    ensures var t := w.tick;
            Standing(if t.lost.Some? then Enter(cfg, w, t.r).(ctx := t.lost.value) else Enter(cfg, w, t.r), t.aw)
  {
    hide RecInv, CtxFits, Clean, SnapFits, Rebuild;
    assert At(cfg, w.tick.r, w.recs[w.tick.r], ContextOf(w, w.tick.r), w.slot, w.tick.aw);
  }

  lemma ReplySettles(cfg: Config, w: World, answer: Answer, r: nat)
    requires Live(cfg, w) && r < |w.recs|
    ensures var out := ReplyTo(cfg, w, answer);
            && |out.w.recs| == |w.recs| && out.w.recs[r].rows == Behind(cfg, w, answer, r, 2)
            && (out.r == r ==> forall n :: 0 <= n < |out.trail| ==> out.trail[n].rows == Behind(cfg, w, answer, r, n + 1))
            && (Behind(cfg, w, answer, r, 2) != w.recs[r].rows ==>
                  out.r == r && |out.trail| >= if Late(w.tick.aw, answer) then 2 else 1)
  {
    hide Live, Follow, Rebuild, FateAt, Settles, PlanNext, Late;
    var out := ReplyTo(cfg, w, answer);
    var t := w.tick;
    if t.Busy? && t.r == r && !t.aw.Finishing? {
      var l := if t.lost.Some? then Enter(cfg, w, r).(ctx := t.lost.value) else Enter(cfg, w, r);
      StandsThere(cfg, w);
      if Follow(l, cfg, t.snap, t.aw, answer).Some? {
        FollowSettles(l, cfg, t.snap, t.aw, answer);
        SettledRows(cfg, w, l, answer, Follow(l, cfg, t.snap, t.aw, answer).value.l);
      } else {
        NotAnswered(l, cfg, t.snap, t.aw, answer, w.recs[r].run.state.WaitingApproval?);
        assert Awaited(w, r).Some? ==>
                 w.recs[r].rows[Awaited(w, r).value := w.recs[r].rows[Awaited(w, r).value]] == w.recs[r].rows;
      }
    } else {
      assert Awaited(w, r).None?;
    }
  }

  /** An answer to another question leaves the row alone. */
  lemma NotAnswered(l: Local, cfg: Config, snap: Run, aw: Await, answer: Answer, open: bool)
    requires Standing(l, aw) && Follow(l, cfg, snap, aw, answer).None?
    ensures About(aw).Some? ==>
              forall n :: FateAt(cfg, l.rec.rows[About(aw).value], open, aw, answer, n) == l.rec.rows[About(aw).value]
  {
  }

  lemma SettledRows(cfg: Config, w: World, l: Local, answer: Answer, l': Local)
    requires w.tick.Busy? && w.tick.r < |w.recs| && l.rec == w.recs[w.tick.r] && Standing(l, w.tick.aw)
    requires Settles(l, cfg, w.tick.aw, answer, l')
    ensures var r := w.tick.r;
            && l'.rec.rows == Behind(cfg, w, answer, r, 2)
            && (forall n :: 0 <= n < |l'.trail| ==> l'.trail[n].rows == Behind(cfg, w, answer, r, n + 1))
            && (Behind(cfg, w, answer, r, 2) != w.recs[r].rows ==> |l'.trail| >= if Late(w.tick.aw, answer) then 2 else 1)
  {
    hide Fate;
    var rows, i := l.rec.rows, About(w.tick.aw);
    if i.Some? {
      assert rows[i.value := rows[i.value]] == rows;
    }
  }

  /** What an event makes of the rows of run r: those there were have their fate, and new ones settle nothing. */
  lemma HappenSettles(cfg: Config, w: World, e: Event, r: nat)
    requires Live(cfg, w) && r < |w.recs|
    ensures r < |Apply(cfg, w, e).recs| && Extends(Base(cfg, w, e, r), Apply(cfg, w, e).recs[r].rows, StillOpen(w, r))
  {
    hide Live, VisitHead, ReplyTo, CancelRun, ResumeRun, DropContext, ReconcileFirst, Extends, Behind;
    SelfExtends(Base(cfg, w, e, r), StillOpen(w, r));
    match e {
      case Reply(answer) => ReplySettles(cfg, w, answer, r);
      case CrashDuring(inner, writes) =>
        if inner.Reply? {
          ReplySettles(cfg, w, inner.answer, r);
          DiesBehind(cfg, w, inner.answer, writes, r);
        } else {
          HappenKeeps(cfg, w, e, r);
        }
      case _ => HappenKeeps(cfg, w, e, r);
    }
  }

  lemma DiesBehind(cfg: Config, w: World, answer: Answer, writes: nat, r: nat)
    requires Live(cfg, w) && r < |w.recs|
    ensures Apply(cfg, w, CrashDuring(Reply(answer), writes)).recs[r].rows == Base(cfg, w, CrashDuring(Reply(answer), writes), r)
    ensures |Apply(cfg, w, CrashDuring(Reply(answer), writes)).recs| == |w.recs|
  {
    hide Live, Behind, ReplyTo;
    ReplySettles(cfg, w, answer, r);
    ReplyWho(cfg, w, answer);
    var out := ReplyTo(cfg, w, answer);
    assert Happen(cfg, w, Reply(answer)) == out;
    if 1 <= writes <= |out.trail| {
      assert out.trail[writes - 1].rows == Behind(cfg, w, answer, out.r, writes) by { ReplySettles(cfg, w, answer, out.r); }
      if out.r != r {
        BehindElsewhere(cfg, w, answer, r, writes);
      }
    }
  }

  lemma ReplyWho(cfg: Config, w: World, answer: Answer)
    ensures var out := ReplyTo(cfg, w, answer); out.trail != [] ==> w.tick.Busy? && out.r == w.tick.r < |w.recs|
  {
    hide Follow, Rebuild;
  }

  lemma BehindElsewhere(cfg: Config, w: World, answer: Answer, r: nat, n: nat)
    requires r < |w.recs| && (w.tick.Busy? ==> w.tick.r != r)
    ensures Behind(cfg, w, answer, r, n) == w.recs[r].rows
  {
  }

  lemma HappenKeeps(cfg: Config, w: World, e: Event, r: nat)
    requires Live(cfg, w) && r < |w.recs| && !e.Reply? && !(e.CrashDuring? && e.event.Reply?)
    ensures Kept(w, Happen(cfg, w, e), r)
    decreases e
  {
    hide Live, VisitHead, ReplyTo, CancelRun, ResumeRun, DropContext, ReconcileFirst, Extends;
    SelfExtends(w.recs[r].rows, StillOpen(w, r));
    match e {
      case Visit(luck) => VisitKeeps(cfg, w, luck, r);
      case Cancel(q) => UserKeeps(cfg, w, q, r);
      case Notified(q) => NoticeKeeps(w, q);
      case Resume(q) => UserKeeps(cfg, w, q, r);
      case Reconcile(alive) =>
        if w.tick.Down? {
          ReconcileKeeps(cfg, w, |w.recs|, alive,
                         w.(recs := ReconcileFirst(w.recs, |w.recs|, alive), tick := Between([])), r);
        }
      case CrashDuring(inner, writes) =>
        if inner.CrashDuring? && inner.event.Reply? {
          assert Happen(cfg, w, inner).trail == [];
        } else {
          HappenKeeps(cfg, w, inner, r);
        }
      case CrashInReconcile(runs, alive) =>
        if w.tick.Down? {
          ReconcileKeeps(cfg, w, runs, alive, Die(w.(recs := ReconcileFirst(w.recs, runs, alive))), r);
        }
      case _ =>
    }
  }

  // ---------------------------------------------------------------- over a history

  /** What the outcome of a call says about its row. */
  predicate Says(v: Verdict, s: RowState) {
    (v == Did && s == RowSucceeded) || (v == Denial && s == RowDenied) || (v == Uncertain && s == RowUnknown)
    || (v in {PolicyFailure, OtherFailure} && s == RowFailed)
  }

  /** An answer that settles row i of a run, and with what. */
  predicate Tells(cfg: Config, rec: Record, aw: Await, answer: Answer, i: nat, s: RowState) {
    i < |rec.rows| &&
    match aw
    case Asking(k, _) => k == i && answer.FromRouter? && answer.reply.Answered? && Says(answer.reply.verdict, s)
    case Redeeming(k) =>
      k == i && answer.FromRouter? && answer.reply.Answered? && rec.run.state.WaitingApproval?
      && (Says(answer.reply.verdict, s) || (answer.reply.verdict == NeedsApproval && s == RowFailed))
    case Reading(k) =>
      k == i && answer == FromApproval(ReadDenied) && cfg.control && rec.rows[i].approval.Some? && s == RowDenied
    case Specialist(k, _, _) =>
      k == i && answer.FromSpecialist? && answer.said.SpecialistSaid? && s == (if answer.said.ok then RowSucceeded else RowFailed)
    case _ => false
  }

  /** In this event row i of run r is told its state; a death behind the write that says so included. */
  predicate Told(cfg: Config, w: World, e: Event, r: nat, i: nat, s: RowState) {
    && w.tick.Busy? && w.tick.r == r < |w.recs|
    && match e
       case Reply(answer) => Tells(cfg, w.recs[r], w.tick.aw, answer, i, s)
       case CrashDuring(inner, n) =>
         && inner.Reply? && Tells(cfg, w.recs[r], w.tick.aw, inner.answer, i, s)
         && (if w.tick.aw.Redeeming? then 2 else 1) <= n <= |ReplyTo(cfg, w, inner.answer).trail|
       case _ => false
  }

  /** One event: a row there was is in this state afterwards exactly when it was, or was told so. */
  lemma ToldOnce(cfg: Config, w: World, e: Event, r: nat, i: nat, s: RowState)
    requires Live(cfg, w) && r < |w.recs| && i < |w.recs[r].rows| && s in {RowSucceeded, RowDenied, RowUnknown, RowSkipped}
    ensures var rows' := Base(cfg, w, e, r);
            |rows'| == |w.recs[r].rows| && rows'[i].kind == w.recs[r].rows[i].kind
            && (rows'[i].state == s ==> w.recs[r].rows[i].state == s || Told(cfg, w, e, r, i, s))
            && (Told(cfg, w, e, r, i, s) ==> rows'[i].state == s)
  {
    hide Live, ReplyTo, FateAt, Tells;
    var k := Awaited(w, r);
    if k.Some? && k.value < |w.recs[r].rows| {
      match e {
        case Reply(answer) => FateTells(cfg, w.recs[r], w.tick.aw, answer, k.value, i, s, 2);
        case CrashDuring(inner, n) =>
          if inner.Reply? {
            FateTells(cfg, w.recs[r], w.tick.aw, inner.answer, k.value, i, s, n);
          }
        case _ =>
      }
    } else {
      NobodyTells(cfg, w, r, i, s);
    }
  }

  /** The row an await is about has a state from the write on that tells it, and from there only. */
  lemma FateTells(cfg: Config, rec: Record, aw: Await, answer: Answer, k: nat, i: nat, s: RowState, n: nat)
    requires About(aw) == Some(k) && k < |rec.rows| && i < |rec.rows|
    requires s in {RowSucceeded, RowDenied, RowUnknown, RowSkipped}
    ensures var row' := FateAt(cfg, rec.rows[k], rec.run.state.WaitingApproval?, aw, answer, n);
            var late := if aw.Redeeming? then 2 else 1;
            && row'.kind == rec.rows[k].kind
            && (k == i && row'.state == s ==> rec.rows[i].state == s || (Tells(cfg, rec, aw, answer, i, s) && n >= late))
            && (Tells(cfg, rec, aw, answer, i, s) ==> k == i && (n >= late ==> row'.state == s))
  {
  }

  lemma NobodyTells(cfg: Config, w: World, r: nat, i: nat, s: RowState)
    requires r < |w.recs| && i < |w.recs[r].rows|
    requires Awaited(w, r).None? || Awaited(w, r).value >= |w.recs[r].rows|
    ensures w.tick.Busy? && w.tick.r == r ==> forall answer :: !Tells(cfg, w.recs[r], w.tick.aw, answer, i, s)
  {
  }

  predicate EverTold(cfg: Config, events: seq<Event>, r: nat, i: nat, s: RowState) {
    exists n: nat :: n < |events| && Told(cfg, After(cfg, INITIAL, events[..n]), events[n], r, i, s)
  }

  lemma EverToldSnoc(cfg: Config, events: seq<Event>, r: nat, i: nat, s: RowState)
    requires events != []
    ensures var k := |events| - 1;
            EverTold(cfg, events, r, i, s)
            <==> EverTold(cfg, events[..k], r, i, s) || Told(cfg, After(cfg, INITIAL, events[..k]), events[k], r, i, s)
  {
    hide Told, After;
    var k := |events| - 1;
    if EverTold(cfg, events[..k], r, i, s) {
      var n: nat :| n < k && Told(cfg, After(cfg, INITIAL, events[..k][..n]), events[..k][n], r, i, s);
      assert events[..k][..n] == events[..n];
    }
    if EverTold(cfg, events, r, i, s) {
      var n: nat :| n < |events| && Told(cfg, After(cfg, INITIAL, events[..n]), events[n], r, i, s);
      assert n < k ==> events[..k][..n] == events[..n] && events[..k][n] == events[n];
    }
  }

  predicate AskedFor(kind: RowKind) { kind.CapabilityRow? || kind.SpecialistRow? }

  /**
   Over every history: a row of a capability or a specialist has succeeded exactly when the
   router answered that it was done, or the specialist that it went well; it is denied exactly
   when the router or the reading of its approval said so, and unknown exactly when the router
   called it uncertain. It is never skipped.
   */
  lemma {:induction false} SettledAsTold(cfg: Config, events: seq<Event>, r: nat, i: nat, s: RowState)
    requires r < |After(cfg, INITIAL, events).recs| && i < |After(cfg, INITIAL, events).recs[r].rows|
    requires AskedFor(After(cfg, INITIAL, events).recs[r].rows[i].kind)
    requires s in {RowSucceeded, RowDenied, RowUnknown, RowSkipped}
    ensures After(cfg, INITIAL, events).recs[r].rows[i].state == s <==> EverTold(cfg, events, r, i, s)
  {
    hide Live, Happen, Told, Base, Extends, WorldGrows, WonFairly, EverTold;
    if events == [] {
      assert false;
    } else {
      var k := |events| - 1;
      var w, e := After(cfg, INITIAL, events[..k]), events[k];
      AlwaysLive(cfg, events[..k]);
      EverToldSnoc(cfg, events, r, i, s);
      if r < |w.recs| && i < |w.recs[r].rows| {
        HappenSettles(cfg, w, e, r);
        ToldOnce(cfg, w, e, r, i, s);
        RowBehind(Base(cfg, w, e, r), Apply(cfg, w, e).recs[r].rows, StillOpen(w, r), i);
        SettledAsTold(cfg, events[..k], r, i, s);
        if w.recs[r].rows[i].state == s {
          StaysSettled(cfg, w, e, r, i);
        }
      } else {
        NewRowUntold(cfg, w, e, r, i, s);
        NeverToldBefore(cfg, events[..k], r, i, s);
      }
    }
  }

  lemma RowBehind(a: seq<Row>, b: seq<Row>, open: bool, i: nat)
    requires Extends(a, b, open) && i < |b|
    ensures i < |a| ==> b[i] == a[i]
    ensures i >= |a| ==> Added(b[i], open)
  {
  }

  lemma StaysSettled(cfg: Config, w: World, e: Event, r: nat, i: nat)
    requires Live(cfg, w) && r < |w.recs| && i < |w.recs[r].rows| && Settled(w.recs[r].rows[i].state)
    ensures r < |Apply(cfg, w, e).recs| && i < |Apply(cfg, w, e).recs[r].rows|
    ensures Apply(cfg, w, e).recs[r].rows[i] == w.recs[r].rows[i]
  {
    hide Live, Happen, Leads, WonFairly;
    HappenGrows(cfg, w, e);
    assert Evolves(w.recs[r], Apply(cfg, w, e).recs[r]);
    RowAt(w.recs[r].rows, Apply(cfg, w, e).recs[r].rows, i);
  }

  /** A row this event has added is in none of these states, and nothing was told about it. */
  lemma NewRowUntold(cfg: Config, w: World, e: Event, r: nat, i: nat, s: RowState)
    requires Live(cfg, w) && !(r < |w.recs| && i < |w.recs[r].rows|)
    requires r < |Apply(cfg, w, e).recs| && i < |Apply(cfg, w, e).recs[r].rows|
    requires AskedFor(Apply(cfg, w, e).recs[r].rows[i].kind) && s in {RowSucceeded, RowDenied, RowUnknown, RowSkipped}
    ensures Apply(cfg, w, e).recs[r].rows[i].state != s && !Told(cfg, w, e, r, i, s)
  {
    hide Live, Happen, Extends, Base;
    if r < |w.recs| {
      HappenSettles(cfg, w, e, r);
      BaseCount(cfg, w, e, r);
      RowBehind(Base(cfg, w, e, r), Apply(cfg, w, e).recs[r].rows, StillOpen(w, r), i);
    } else {
      NewRunsAreEmpty(cfg, w, e, r);
    }
  }

  lemma BaseCount(cfg: Config, w: World, e: Event, r: nat)
    requires r < |w.recs|
    ensures |Base(cfg, w, e, r)| == |w.recs[r].rows|
  {
    hide ReplyTo, FateAt;
  }

  /** What is told is told about a row that is there. */
  lemma {:induction false} NeverToldBefore(cfg: Config, events: seq<Event>, r: nat, i: nat, s: RowState)
    requires !(r < |After(cfg, INITIAL, events).recs| && i < |After(cfg, INITIAL, events).recs[r].rows|)
    ensures !EverTold(cfg, events, r, i, s)
  {
    hide Live, Happen, ReplyTo, WorldGrows, WonFairly, Evolves;
    if events != [] {
      var k := |events| - 1;
      var w, e := After(cfg, INITIAL, events[..k]), events[k];
      AlwaysLive(cfg, events[..k]);
      if r < |w.recs| && i < |w.recs[r].rows| {
        RowsStay(cfg, w, e, r, i);
        assert false;
      } else {
        hide EverTold;
        NeverToldBefore(cfg, events[..k], r, i, s);
        EverToldSnoc(cfg, events, r, i, s);
      }
    }
  }

  lemma RowsStay(cfg: Config, w: World, e: Event, r: nat, i: nat)
    requires Live(cfg, w) && r < |w.recs| && i < |w.recs[r].rows|
    ensures r < |Apply(cfg, w, e).recs| && i < |Apply(cfg, w, e).recs[r].rows|
  {
    hide Live, Happen, Leads, WonFairly;
    HappenGrows(cfg, w, e);
    assert Evolves(w.recs[r], Apply(cfg, w, e).recs[r]);
    RowAt(w.recs[r].rows, Apply(cfg, w, e).recs[r].rows, i);
  }

  /** Success was heard: every call and every specialist of a run that succeeded was answered so. */
  lemma SuccessWasHeard(cfg: Config, events: seq<Event>, r: nat, i: nat)
    requires r < |After(cfg, INITIAL, events).recs| && After(cfg, INITIAL, events).recs[r].run.state.Succeeded?
    requires i < |After(cfg, INITIAL, events).recs[r].rows| && AskedFor(After(cfg, INITIAL, events).recs[r].rows[i].kind)
    ensures EverTold(cfg, events, r, i, RowSucceeded)
  {
    hide After, EverTold;
    SuccessIsEvidenced(cfg, events, r);
    SettledAsTold(cfg, events, r, i, RowSucceeded);
    SettledAsTold(cfg, events, r, i, RowSkipped);
    NeverSkipped(cfg, events, r, i);
  }

  lemma NeverSkipped(cfg: Config, events: seq<Event>, r: nat, i: nat)
    ensures !EverTold(cfg, events, r, i, RowSkipped)
  {
    hide After, ReplyTo;
  }
}
