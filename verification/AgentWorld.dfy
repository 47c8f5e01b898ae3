/**
 The whole agent runtime: all runs, the volatile contexts, the approval slot and the one
 tick coroutine, moved by events. Cancel, resume and creation arrive between any two
 stretches; the process may die between any two durable writes.
 */
module AgentWorld {
  import opened Basics
  import opened RunLedger
  import opened AgentSteps

  /** A run as `open_runs` read it: stale as soon as somebody else writes. */
  datatype Snap = Snap(r: nat, run: Run)

  /**
   The tick: between two runs with some still to visit, inside one run at an await, or not
   there at all because the process died. `lost` holds the context of a coroutine whose
   context has meanwhile been dropped from the table.
   */
  datatype Tick =
    | Between(rest: seq<Snap>)
    | Busy(r: nat, snap: Run, aw: Await, lost: Option<Ctx>, rest: seq<Snap>)
    | Down

  /** `finishing`: cancellations whose final notice is under way. `advances` and `crashes` only count. */
  datatype World = World(recs: seq<Record>, contexts: map<nat, Ctx>, slot: Option<nat>, tick: Tick,
                         finishing: set<nat>, stuck: set<nat>, advances: seq<nat>, crashes: nat)

  const INITIAL: World := World([], map[], None, Between([]), {}, {}, [], 0)

  datatype Event =
    | Submit(scope: Scope)
    | BeginTick
    | Visit(luck: Luck)
    | Reply(answer: Answer)
    | Cancel(r: nat)
    | Notified(r: nat)
    | Resume(r: nat)
    | Reconcile(alive: bool)
    | Crash
    | CrashDuring(event: Event, writes: nat)       // dies after that many durable writes of `event`
    | CrashInReconcile(runs: nat, alive: bool)     // dies after that many runs were reconciled

  /** The outcome of an event, with the durable states one run went through on the way. */
  datatype Out = Out(w: World, r: nat, trail: seq<Record>)

  function Quiet(w: World): Out { Out(w, 0, []) }

  function Enter(cfg: Config, w: World, r: nat): Local
    requires r < |w.recs|
  {
    var ctx := if r in w.contexts then w.contexts[r] else Rebuild(cfg, w.recs[r]);
    Local(r, w.recs[r], [], ctx, w.slot, false)
  }

  /** Puts a stretch of run r back into the world. */
  function Leave(w: World, r: nat, snap: Run, detached: bool, rest: seq<Snap>, seg: Seg): World
    requires r < |w.recs|
  {
    var l := seg.l;
    w.(recs := w.recs[r := l.rec],
       contexts := if detached then w.contexts else w.contexts[r := l.ctx],
       slot := l.slot,
       stuck := if l.stuck then w.stuck + {r} else w.stuck,
       tick := if seg.Failing? || seg.aw.Thrown? then Between([])
               else if seg.aw.Done? then Between(rest)
               else Busy(r, snap, seg.aw, if detached then Some(l.ctx) else None, rest))
  }

  function OpenSnaps(recs: seq<Record>): seq<Snap> {
    if recs == [] then []
    else
      var n := |recs| - 1;
      OpenSnaps(recs[..n]) + (if recs[n].run.state.Terminal() then [] else [Snap(n, recs[n].run)])
  }

  /** Open and not parked: what counts against the parallelism. */
  function CountActive(recs: seq<Record>): nat {
    if recs == [] then 0
    else
      var n := |recs| - 1;
      var s := recs[n].run.state;
      CountActive(recs[..n]) + (if s.Terminal() || s.Parked() then 0 else 1)
  }

  predicate Skipped(cfg: Config, w: World, s: Snap) {
    || s.r in w.stuck
    || s.run.state.WaitingUser?
    || (s.run.state.Created? && CountActive(w.recs) > cfg.maxConcurrent)
  }

  /** One turn of the tick's loop, up to the first await. */
  function VisitHead(cfg: Config, w: World, luck: Luck): Out {
    if !w.tick.Between? || w.tick.rest == [] || w.tick.rest[0].r >= |w.recs| then Quiet(w)
    else
      var s, rest := w.tick.rest[0], w.tick.rest[1..];
      if Skipped(cfg, w, s) then Quiet(w.(tick := Between(rest)))
      else
        var l := Enter(cfg, w, s.r);
        if s.run.state.WaitingApproval? then
          var seg := Poll(l);
          Out(Leave(w, s.r, s.run, false, rest, seg), s.r, seg.l.trail)
        else
          var seg := Advance(l, cfg, s.run, luck);
          var w' := Leave(w, s.r, s.run, false, rest, seg);
          Out(if s.r < |w.advances| && !w.recs[s.r].run.state.Terminal()
              then w'.(advances := w.advances[s.r := w.advances[s.r] + 1]) else w',
              s.r, seg.l.trail)
  }

  function ReplyTo(cfg: Config, w: World, answer: Answer): Out {
    if !w.tick.Busy? || w.tick.r >= |w.recs| then Quiet(w)
    else
      var t := w.tick;
      if t.aw.Finishing? then
        if answer.FromNotice? then Quiet(w.(tick := Between(t.rest), contexts := w.contexts - {t.r})) else Quiet(w)
      else
        var l := if t.lost.Some? then Enter(cfg, w, t.r).(ctx := t.lost.value) else Enter(cfg, w, t.r);
        match Follow(l, cfg, t.snap, t.aw, answer)
        case None => Quiet(w)
        case Some(seg) => Out(Leave(w, t.r, t.snap, t.lost.Some?, t.rest, seg), t.r, seg.l.trail)
  }

  /** `cancel`: the flag, then the end of the run; its context goes only after the notice. */
  function CancelRun(cfg: Config, w: World, r: nat): Out {
    if w.tick.Down? || r >= |w.recs| || w.recs[r].run.state.Terminal() then Quiet(w)
    else
      var contexts := if r in w.contexts then w.contexts[r := w.contexts[r].(cancel := true)] else w.contexts;
      var seg := Finish(Enter(cfg, w, r), Cancelled, CancelledByUser);
      Out(w.(recs := w.recs[r := seg.l.rec], contexts := contexts, slot := seg.l.slot,
             stuck := if seg.l.stuck then w.stuck + {r} else w.stuck,
             finishing := if seg.aw.Finishing? then w.finishing + {r} else w.finishing),
          r, seg.l.trail)
  }

  /** The notice of a cancellation is out: the context is dropped, also under a running coroutine. */
  function DropContext(w: World, r: nat): World {
    if r !in w.finishing then w
    else
      w.(finishing := w.finishing - {r}, contexts := w.contexts - {r},
         tick := if w.tick.Busy? && w.tick.r == r && w.tick.lost.None? && r in w.contexts
                 then w.tick.(lost := Some(w.contexts[r])) else w.tick)
  }

  function ResumeRun(cfg: Config, w: World, r: nat): Out {
    if w.tick.Down? || r >= |w.recs| || !w.recs[r].run.state.WaitingUser? then Quiet(w)
    else
      var l := Enter(cfg, w, r);
      var l1 := Write(l, l.rec.(run := l.rec.run.(boundary := false)));
      var seg := Move(l1, Running);
      // The source looks the context up after the writes; a rebuilt one has the row count either way.
      Out(w.(recs := w.recs[r := seg.l.rec], contexts := w.contexts[r := l.ctx.(approvals := 0)]), r, seg.l.trail)
  }

  /** An orphaned child is ended only on full agreement, otherwise reported as uncertain. */
  function ReconcileRow(row: Row, alive: bool): Row {
    if row.state.RowRunning? && row.child then row.(state := if alive then RowFailed else RowUnknown) else row
  }

  function ReconcileRecord(rec: Record, alive: bool): Record {
    if rec.run.state.Terminal() || rec.run.state.WaitingUser? then rec
    else
      var moved := match Transition(rec, Interrupted, NoCategory) case Some(r) => r case None => rec;
      moved.(rows := seq(|moved.rows|, i requires 0 <= i < |moved.rows| => ReconcileRow(moved.rows[i], alive)))
  }

  function ReconcileFirst(recs: seq<Record>, n: nat, alive: bool): seq<Record> {
    seq(|recs|, i requires 0 <= i < |recs| => if i < n then ReconcileRecord(recs[i], alive) else recs[i])
  }

  /** The process dies: only records survive. */
  function Die(w: World): World {
    w.(contexts := map[], slot := None, tick := Down, finishing := {}, stuck := {}, crashes := w.crashes + 1)
  }

  /** What dies in the middle of an event has begun it: an advance that is not completed counts. */
  function Begun(w: World, out: Out): World {
    if |out.w.advances| == |w.advances| then w.(advances := out.w.advances) else w
  }

  function Happen(cfg: Config, w: World, e: Event): Out
    decreases e
  {
    match e
    case Submit(scope) =>
      if w.tick.Down? then Quiet(w)
      else
        Quiet(w.(recs := w.recs + [NewRecord(scope)], advances := w.advances + [0],
                 contexts := w.contexts[|w.recs| := NewCtx(cfg.LimitsOf(scope))]))
    case BeginTick => Quiet(if w.tick == Between([]) then w.(tick := Between(OpenSnaps(w.recs))) else w)
    case Visit(luck) => VisitHead(cfg, w, luck)
    case Reply(answer) => ReplyTo(cfg, w, answer)
    case Cancel(r) => CancelRun(cfg, w, r)
    case Notified(r) => Quiet(DropContext(w, r))
    case Resume(r) => ResumeRun(cfg, w, r)
    case Reconcile(alive) =>
      Quiet(if w.tick.Down? then w.(recs := ReconcileFirst(w.recs, |w.recs|, alive), tick := Between([])) else w)
    case Crash => Quiet(Die(w))
    case CrashDuring(inner, writes) =>
      var out := Happen(cfg, w, inner);
      if out.r < |w.recs| && 1 <= writes <= |out.trail|
      then Quiet(Die(Begun(w, out).(recs := w.recs[out.r := out.trail[writes - 1]])))
      else Quiet(Die(Begun(w, out)))
    case CrashInReconcile(runs, alive) =>
      Quiet(if w.tick.Down? then Die(w.(recs := ReconcileFirst(w.recs, runs, alive))) else w)
  }

  function Apply(cfg: Config, w: World, e: Event): World {
    Happen(cfg, w, e).w
  }

  /** The world after a sequence of events. */
  function After(cfg: Config, w: World, events: seq<Event>): World {
    if events == [] then w else Apply(cfg, After(cfg, w, events[..|events| - 1]), events[|events| - 1])
  }
}
