/**
 The orchestrator's table of contexts and its tick, changed in place. Every method is one
 event of the runtime: it does to the objects what `Happen` does to their value, through
 the same durable writes, and so it keeps the invariant of the whole runtime.
 */
module AgentRuntime {
  import opened Basics
  import opened RunLedger
  import opened RunBudget
  import opened AgentSteps
  import opened AgentInvariant
  import opened AgentWorld
  import opened AgentSafety
  import opened AgentOrchestrator

  /** Where the tick stands inside a run; it holds the context itself, not its place in the table. */
  datatype Standing = Standing(r: nat, snap: Run, aw: Await, ctx: RunContext)

  // ---------------------------------------------------------------- tables of contexts

  ghost predicate Apart(t: map<nat, RunContext>) {
    forall q, r :: q in t && r in t && q != r ==> t[q] != t[r] && t[q].ledger != t[r].ledger
  }

  function Objects(t: map<nat, RunContext>): set<object> {
    (set r | r in t :: t[r]) + (set r | r in t :: t[r].ledger)
  }

  ghost function Values(t: map<nat, RunContext>): map<nat, Ctx>
    reads Objects(t)
  {
    map r | r in t :: t[r].Value()
  }

  lemma ApartBut(t: map<nat, RunContext>, r: nat, c: RunContext)
    requires Apart(t[r := c]) && (r in t ==> t[r] == c)
    ensures Apart(t)
  {
    forall p, q | p in t && q in t && p != q ensures t[p] != t[q] && t[p].ledger != t[q].ledger {
      assert t[r := c][p] == t[p] && t[r := c][q] == t[q];
    }
  }

  lemma ApartFrom(t: map<nat, RunContext>, r: nat, c: RunContext)
    requires Apart(t[r := c])
    ensures forall q :: q in t && q != r ==> t[q] != c && t[q].ledger != c.ledger
  {
    forall q | q in t && q != r ensures t[q] != c && t[q].ledger != c.ledger {
      assert t[r := c][q] == t[q] && t[r := c][r] == c;
    }
  }

  /** A stretch of run r touches no context but its own. */
  lemma OneChanged(t: map<nat, RunContext>, r: nat, before: map<nat, Ctx>)
    requires before.Keys == t.Keys
    requires forall q :: q in t && q != r ==> t[q].Value() == before[q]
    ensures Values(t) == if r in t then before[r := t[r].Value()] else before
  {
  }

  lemma OneLess(t: map<nat, RunContext>, r: nat)
    requires Apart(t)
    ensures Apart(t - {r}) && Values(t - {r}) == Values(t) - {r} && Objects(t - {r}) <= Objects(t)
  {
  }

  lemma OneAdded(t: map<nat, RunContext>, r: nat, c: RunContext)
    requires r !in t
    ensures Values(t[r := c]) == Values(t)[r := c.Value()]
  {
  }

  lemma ObjectsAdded(t: map<nat, RunContext>, r: nat, c: RunContext)
    ensures Objects(t[r := c]) <= Objects(t) + {c, c.ledger}
  {
  }

  lemma Joined(t: map<nat, RunContext>, r: nat, c: RunContext)
    requires Apart(t) && r !in t && c !in Objects(t) && c.ledger !in Objects(t)
    ensures Apart(t[r := c])
  {
  }

  lemma AtMostOne(s: set<nat>, r: nat)
    requires s - {r} == {}
    ensures s == if r in s then {r} else {}
  {
    assert s == (s - {r}) + (if r in s then {r} else {});
  }

  // ---------------------------------------------------------------- events, told by their parts

  /** Everything a stretch of run r leaves behind but the place where the tick stands. */
  ghost function Merged(w: World, r: nat, detached: bool, l: Local): World
    requires r < |w.recs|
  {
    w.(recs := w.recs[r := l.rec], contexts := if detached then w.contexts else w.contexts[r := l.ctx],
       slot := l.slot, stuck := if l.stuck then w.stuck + {r} else w.stuck, tick := Down)
  }

  lemma EnterSame(cfg: Config, w: World, w1: World, r: nat)
    requires r < |w.recs| && w1.recs == w.recs && w1.contexts == w.contexts && w1.slot == w.slot
    ensures Enter(cfg, w, r) == Enter(cfg, w1, r)
  {
  }

  /** Where the tick stands after a stretch has ended at `aw`. */
  function Standpoint(r: nat, snap: Run, aw: Await, lost: Option<Ctx>, rest: seq<Snap>): Tick {
    if aw.Thrown? then Between([]) else if aw.Done? then Between(rest) else Busy(r, snap, aw, lost, rest)
  }

  /** A turn counts as an advance unless it polls an approval or finds its run ended. */
  function Counted(w: World, s: Snap): seq<nat> {
    if !s.run.state.WaitingApproval? && s.r < |w.advances| && s.r < |w.recs| && !w.recs[s.r].run.state.Terminal()
    then w.advances[s.r := w.advances[s.r] + 1] else w.advances
  }

  /** A turn, told from the world in which its run has been taken off the tick's list. */
  lemma VisitMeans(cfg: Config, w: World, luck: Luck, w1: World, l: Local, aw: Await)
    requires w.tick.Between? && w.tick.rest != [] && w.tick.rest[0].r < |w.recs| && !Skipped(cfg, w, w.tick.rest[0])
    requires w1 == w.(tick := Between(w.tick.rest[1..]))
    requires Turn(Enter(cfg, w1, w.tick.rest[0].r), cfg, w.tick.rest[0].run, luck) == Stopped(l, aw)
    ensures Happen(cfg, w, Event.Visit(luck)) == Out(AfterTurn(w1, w.tick.rest[0], l, aw), w.tick.rest[0].r, l.trail)
  {
    hide Poll, Advance, Skipped;
  }

  /** What a turn leaves behind: its stretch, the tick's new place, and one more advance. */
  ghost function AfterTurn(w: World, s: Snap, l: Local, aw: Await): World
    requires w.tick.Between? && s.r < |w.recs|
  {
    Merged(w, s.r, false, l).(tick := Standpoint(s.r, s.run, aw, None, w.tick.rest), advances := Counted(w, s))
  }

  /** Taking the context into the table and counting the turn beforehand makes no difference. */
  lemma TurnPrepared(w: World, s: Snap, ctx: Ctx, l: Local, aw: Await, w1: World)
    requires w.tick.Between? && s.r < |w.recs|
    requires w1 == w.(advances := Counted(w, s), contexts := w.contexts[s.r := ctx])
    ensures Merged(w1, s.r, false, l).(tick := Standpoint(s.r, s.run, aw, None, w.tick.rest)) == AfterTurn(w, s, l, aw)
  {
    assert w.contexts[s.r := ctx][s.r := l.ctx] == w.contexts[s.r := l.ctx];
  }

  lemma VisitSkips(cfg: Config, w: World, luck: Luck)
    requires !w.tick.Between? || w.tick.rest == [] || w.tick.rest[0].r >= |w.recs| || Skipped(cfg, w, w.tick.rest[0])
    ensures Happen(cfg, w, Event.Visit(luck))
            == Quiet(if w.tick.Between? && w.tick.rest != [] && w.tick.rest[0].r < |w.recs|
                     then w.(tick := Between(w.tick.rest[1..])) else w)
  {
  }

  /** What the coroutine of a busy tick sees of its run: its own context, dropped from the table or not. */
  ghost function HeldBy(cfg: Config, w: World): Local
    requires w.tick.Busy? && w.tick.r < |w.recs|
  {
    var l := Enter(cfg, w, w.tick.r);
    if w.tick.lost.Some? then l.(ctx := w.tick.lost.value) else l
  }

  lemma ReplyMeans(cfg: Config, w: World, answer: Answer, l: Local, aw: Await)
    requires w.tick.Busy? && w.tick.r < |w.recs| && !w.tick.aw.Finishing?
    requires Follow(HeldBy(cfg, w), cfg, w.tick.snap, w.tick.aw, answer) == Some(Stopped(l, aw))
    ensures var t := w.tick;
            var lost := if t.lost.Some? then Some(l.ctx) else None;
            Happen(cfg, w, Event.Reply(answer))
            == Out(Merged(w, t.r, t.lost.Some?, l).(tick := Standpoint(t.r, t.snap, aw, lost, t.rest)), t.r, l.trail)
  {
    hide Follow, Enter;
  }

  lemma ReplyIgnored(cfg: Config, w: World, answer: Answer)
    requires w.tick.Busy? && w.tick.r < |w.recs| && !w.tick.aw.Finishing? ==>
               Follow(HeldBy(cfg, w), cfg, w.tick.snap, w.tick.aw, answer) == None
    ensures Happen(cfg, w, Event.Reply(answer))
            == Quiet(if w.tick.Busy? && w.tick.r < |w.recs| && w.tick.aw.Finishing? && answer.FromNotice?
                     then w.(tick := Between(w.tick.rest), contexts := w.contexts - {w.tick.r}) else w)
  {
    hide Follow, Enter;
  }

  lemma NothingMoved(cfg: Config, w: World)
    requires w.tick.Busy? && w.tick.r < |w.recs| && w.stuck == {}
    requires w.tick.lost.None? ==> w.tick.r in w.contexts
    ensures Merged(w, w.tick.r, w.tick.lost.Some?, HeldBy(cfg, w)) == w.(tick := Down)
  {
    assert w.recs[w.tick.r := w.recs[w.tick.r]] == w.recs;
    if w.tick.lost.None? {
      assert w.contexts[w.tick.r := w.contexts[w.tick.r]] == w.contexts;
    }
  }

  lemma CancelIgnored(cfg: Config, w: World, r: nat)
    requires w.tick.Down? || r >= |w.recs| || w.recs[r].run.state.Terminal()
    ensures Happen(cfg, w, Event.Cancel(r)) == Quiet(w)
  {
  }

  /** A run ended from outside: its record, the slot, and a notice under way. */
  ghost function ClosedAt(w: World, r: nat, l: Local, aw: Await): World
    requires r < |w.recs|
  {
    w.(recs := w.recs[r := l.rec], slot := l.slot, stuck := if l.stuck then w.stuck + {r} else w.stuck,
       finishing := if aw.Finishing? then w.finishing + {r} else w.finishing)
  }

  function CancelSet(w: World, r: nat): World {
    if r in w.contexts then w.(contexts := w.contexts[r := w.contexts[r].(cancel := true)]) else w
  }

  lemma CancelMeans(cfg: Config, w: World, r: nat, ctx: Ctx, l: Local, aw: Await)
    requires !w.tick.Down? && r < |w.recs| && !w.recs[r].run.state.Terminal()
    requires Finish(Enter(cfg, w, r).(ctx := ctx), Cancelled, CancelledByUser) == Stopped(l, aw)
    ensures Happen(cfg, w, Event.Cancel(r)) == Out(ClosedAt(CancelSet(w, r), r, l, aw), r, l.trail)
  {
    hide RunLedger.Transition;
  }

  lemma ResumeIgnored(cfg: Config, w: World, r: nat)
    requires w.tick.Down? || r >= |w.recs| || !w.recs[r].run.state.WaitingUser?
    ensures Happen(cfg, w, Event.Resume(r)) == Quiet(w)
  {
  }

  /** The two writes of a resumption: the boundary is cleared, then the run goes on. */
  function Unbounded(rec: Record): Record { rec.(run := rec.run.(boundary := false)) }

  function GoingOn(rec: Record): Record {
    Unbounded(rec).(run := Unbounded(rec).run.(state := Running))
  }

  lemma ResumeMeans(cfg: Config, w: World, r: nat, w1: World)
    requires !w.tick.Down? && r < |w.recs| && w.recs[r].run.state.WaitingUser?
    requires w1 == w.(recs := w.recs[r := GoingOn(w.recs[r])])
    ensures Happen(cfg, w, Event.Resume(r))
            == Out(w1.(contexts := w1.contexts[r := Enter(cfg, w1, r).ctx.(approvals := 0)]), r,
                   [Unbounded(w.recs[r]), GoingOn(w.recs[r])])
  {
    hide Targets;
    assert Running in Targets(WaitingUser) by { GoesOn(); }
    RebuildSame(cfg, w.recs[r], GoingOn(w.recs[r]));
    hide AgentSteps.Rebuild;
  }

  lemma GoesOn()
    ensures Running in Targets(WaitingUser)
  {
  }

  lemma RebuildSame(cfg: Config, rec: Record, rec1: Record)
    requires rec.rows == rec1.rows && rec.run.scope == rec1.run.scope && rec.run.revision == rec1.run.revision
    ensures AgentSteps.Rebuild(cfg, rec) == AgentSteps.Rebuild(cfg, rec1)
  {
  }

  lemma SubmitMeans(cfg: Config, w: World, scope: Scope)
    ensures Happen(cfg, w, Event.Submit(scope))
            == Quiet(if w.tick.Down? then w
                     else w.(recs := w.recs + [NewRecord(scope)], advances := w.advances + [0],
                             contexts := w.contexts[|w.recs| := NewCtx(cfg.LimitsOf(scope))]))
  {
  }

  lemma NotifiedMeans(cfg: Config, w: World, r: nat)
    ensures Happen(cfg, w, Event.Notified(r)) == Quiet(DropContext(w, r))
  {
  }

  lemma BeginMeans(cfg: Config, w: World)
    ensures Happen(cfg, w, Event.BeginTick)
            == Quiet(if w.tick.Between? && w.tick.rest == [] then w.(tick := Between(OpenSnaps(w.recs))) else w)
  {
  }

  lemma ReconcileMeans(cfg: Config, w: World, alive: bool)
    ensures Happen(cfg, w, Event.Reconcile(alive))
            == Quiet(if w.tick.Down? then w.(recs := ReconcileFirst(w.recs, |w.recs|, alive), tick := Between([])) else w)
  {
  }

  /** The rows of a run after the first k of them have been looked at. */
  function RowsLookedAt(rows: seq<Row>, k: nat, alive: bool): seq<Row> {
    seq(|rows|, i requires 0 <= i < |rows| => if i < k then ReconcileRow(rows[i], alive) else rows[i])
  }

  // ---------------------------------------------------------------- what a live world is known for

  lemma BusyInRange(cfg: Config, w: World)
    requires Live(cfg, w) && w.tick.Busy?
    ensures w.tick.r < |w.recs|
  {
    hide RecInv, At;
  }

  lemma ContextsInRange(cfg: Config, w: World)
    requires Live(cfg, w)
    ensures forall r :: r in w.contexts ==> r < |w.recs|
    ensures w.tick.Busy? ==> w.tick.r < |w.recs|
    ensures w.tick.Down? ==> w.finishing == {}
    ensures w.tick.Busy? && w.tick.lost.Some? ==> w.recs[w.tick.r].run.state.Terminal()
  {
    hide RecInv, At;
  }

  lemma NobodyStuck(cfg: Config, w: World)
    requires Live(cfg, w)
    ensures w.stuck == {} && |w.advances| == |w.recs|
  {
    hide TickFits, RecInv, At;
  }

  class Runtime {
    const core: Orchestrator
    var contexts: map<nat, RunContext>
    var up: bool
    var at: Option<Standing>
    var rest: seq<Snap>
    var finishing: set<nat>
    ghost var advances: seq<nat>
    ghost var crashes: nat

    /** All contexts somebody still works with: those in the table, and the one the tick holds. */
    ghost function Held(): map<nat, RunContext>
      reads this
    {
      if at.Some? then contexts[at.value.r := at.value.ctx] else contexts
    }

    /** What a stretch may touch besides the ledger and the slot. */
    ghost function Mine(): set<object>
      reads this
    {
      Objects(contexts) + (if at.Some? then {at.value.ctx, at.value.ctx.ledger} else {})
    }

    ghost predicate Valid()
      reads this
    {
      && Apart(Held())
      && (at.Some? && at.value.r in contexts ==> contexts[at.value.r] == at.value.ctx)
      && (!up ==> at.None?)
    }

    ghost function TickNow(): Tick
      reads this, Mine()
    {
      if !up then Down
      else if at.None? then Between(rest)
      else
        Busy(at.value.r, at.value.snap, at.value.aw,
             if at.value.r in contexts then None else Some(at.value.ctx.Value()), rest)
    }

    /** The objects as a value. */
    ghost function Now(): World
      reads this, core, core.ledger, core.approvals, Mine()
    {
      World(core.ledger.records, Values(contexts), core.approvals.holder, TickNow(), finishing,
            core.unfinishable, advances, crashes)
    }

    /** What a process finds that starts after another one died in the middle of `before`. */
    constructor (core: Orchestrator, ghost before: World)
      requires core.ledger.records == before.recs && core.approvals.holder == None && core.unfinishable == {}
      ensures this.core == core && Valid() && Now() == Die(before)
    {
      this.core := core;
      contexts, up, at, rest, finishing := map[], false, None, [], {};
      advances, crashes := before.advances, before.crashes + 1;
    }

    /** The one contract of every event: this is what came out of it, and everything is still in order. */
    ghost predicate Reached(out: Out)
      reads this, core, core.ledger, core.approvals, Mine()
    {
      Valid() && Now() == out.w && core.ledger.trail == out.trail && Live(core.cfg, Now())
    }

    lemma NowMeans()
      ensures Now().recs == core.ledger.records && Now().stuck == core.unfinishable && Now().finishing == finishing
      ensures Now().tick.Down? <==> !up
      ensures up && at.None? ==> Now().tick == Between(rest)
      ensures up && at.Some? ==>
                && Now().tick.Busy? && Now().tick.r == at.value.r
                && Now().tick.aw == at.value.aw && Now().tick.rest == rest
      ensures up && at.Some? && at.value.r !in contexts ==> Now().tick.lost.Some?
      ensures Now().contexts.Keys == contexts.Keys
    {
    }

    lemma Arrived(out: Out)
      requires Valid() && Now() == out.w && core.ledger.trail == out.trail && Live(core.cfg, out.w)
      ensures Reached(out)
    {
    }

    /** An event begins: no durable write has happened in it yet. */
    ghost method Begin()
      requires Valid()
      modifies core.ledger`trail
      ensures Valid() && Now() == old(Now()) && core.ledger.trail == []
    {
      hide Apart;
      core.ledger.Begin();
    }

    // -------------------------------------------------------------- contexts

    /** `_rebuild_context`: the budget is counted again from the ledger; the plan is gone. */
    method Rebuild(r: nat) returns (c: RunContext)
      requires r < |core.ledger.records|
      ensures fresh(c) && fresh(c.ledger)
      ensures c.Value() == AgentSteps.Rebuild(core.cfg, core.ledger.records[r])
    {
      var rec := core.ledger.records[r];
      var b := new BudgetLedger(core.cfg.LimitsOf(rec.run.scope));
      var specialists := 0;
      var k := 0;
      while k < |rec.rows|
        invariant 0 <= k <= |rec.rows| && specialists == CountKind(rec.rows[..k], SpecialistRow)
      {
        assert rec.rows[..k + 1][..k] == rec.rows[..k];
        if rec.rows[k].kind == SpecialistRow {
          specialists := specialists + 1;
        }
        k := k + 1;
      }
      assert rec.rows[..k] == rec.rows;
      b.steps, b.specialists, b.revisions := |rec.rows|, specialists, rec.run.revision;
      c := new RunContext(b);
      c.cursor := |rec.rows|;
    }

    /** `_contexts.get`, or a rebuilt context, which then goes into the table. */
    method ContextFor(r: nat) returns (c: RunContext)
      requires r < |core.ledger.records| && Valid() && (at.Some? && at.value.r == r ==> r in contexts)
      modifies this`contexts
      ensures Valid() && r in contexts && contexts[r] == c && fresh(Mine() - old(Mine()))
      ensures c in Mine() && c.ledger in Mine() && c.Value() == Enter(core.cfg, old(Now()), r).ctx
      ensures core.unfinishable == {} && core.ledger.trail == [] ==> core.Here(r, c) == Enter(core.cfg, old(Now()), r)
      ensures Now() == old(Now()).(contexts := old(Now()).contexts[r := c.Value()])
    {
      hide AgentSteps.Rebuild;
      if r in contexts {
        c := contexts[r];
        assert Values(contexts)[r := c.Value()] == Values(contexts);
      } else {
        c := NewContextFor(r);
      }
    }

    method NewContextFor(r: nat) returns (c: RunContext)
      requires r < |core.ledger.records| && Valid() && (at.Some? ==> at.value.r != r) && r !in contexts
      modifies this`contexts
      ensures Valid() && r in contexts && contexts[r] == c && fresh(Mine() - old(Mine()))
      ensures c in Mine() && c.ledger in Mine() && c.Value() == Enter(core.cfg, old(Now()), r).ctx
      ensures core.unfinishable == {} && core.ledger.trail == [] ==> core.Here(r, c) == Enter(core.cfg, old(Now()), r)
      ensures Now() == old(Now()).(contexts := old(Now()).contexts[r := c.Value()])
    {
      hide AgentSteps.Rebuild, Enter, Now, Valid, Apart, Values;
      EnterNew(r);
      c := Rebuild(r);
      AddContext(r, c);
    }

    lemma EnterNew(r: nat)
      requires r < |core.ledger.records| && r !in contexts
      ensures Enter(core.cfg, Now(), r)
              == Local(r, core.ledger.records[r], [], AgentSteps.Rebuild(core.cfg, core.ledger.records[r]),
                       core.approvals.holder, false)
    {
    }

    method AddContext(r: nat, c: RunContext)
      requires Valid() && r !in contexts && (at.Some? ==> at.value.r != r)
      requires c !in Mine() && c.ledger !in Mine()
      modifies this`contexts
      ensures Valid() && contexts == old(contexts)[r := c] && Mine() <= old(Mine()) + {c, c.ledger}
      ensures Now() == old(Now()).(contexts := old(Now()).contexts[r := c.Value()])
    {
      Joins(r, c);
      ObjectsAdded(contexts, r, c);
      hide Apart;
      ghost var w := Now();
      TakeIn(r, c);
      hide Values, Objects;
      assert at.Some? ==> at.value.ctx.Value() == old(at.value.ctx.Value());
      assert TickNow() == w.tick;
    }

    method TakeIn(r: nat, c: RunContext)
      requires r !in contexts
      modifies this`contexts
      ensures contexts == old(contexts)[r := c]
      ensures Values(contexts) == old(Values(contexts))[r := c.Value()]
    {
      OneAdded(contexts, r, c);
      contexts := contexts[r := c];
      assert forall q :: q in contexts ==> contexts[q].Value() == old(if q == r then c.Value() else contexts[q].Value());
    }

    lemma Joins(r: nat, c: RunContext)
      requires Valid() && r !in contexts && (at.Some? ==> at.value.r != r)
      requires c !in Mine() && c.ledger !in Mine()
      ensures Apart(if at.Some? then contexts[r := c][at.value.r := at.value.ctx] else contexts[r := c])
    {
      assert Objects(Held()) <= Mine();
      Joined(Held(), r, c);
      assert at.Some? ==> contexts[r := c][at.value.r := at.value.ctx] == Held()[r := c];
    }

    // -------------------------------------------------------------- the tick

    method OpenRuns() returns (open: seq<Snap>)
      ensures open == OpenSnaps(core.ledger.records)
    {
      open := [];
      var recs := core.ledger.records;
      var k := 0;
      while k < |recs|
        invariant 0 <= k <= |recs| && open == OpenSnaps(recs[..k])
      {
        assert recs[..k + 1][..k] == recs[..k];
        if !recs[k].run.state.Terminal() {
          open := open + [Snap(k, recs[k].run)];
        }
        k := k + 1;
      }
      assert recs[..k] == recs;
    }

    /** How many runs are open and not parked. */
    method ActiveRuns() returns (n: nat)
      ensures n == CountActive(core.ledger.records)
    {
      n := 0;
      var recs := core.ledger.records;
      var k := 0;
      while k < |recs|
        invariant 0 <= k <= |recs| && n == CountActive(recs[..k])
      {
        assert recs[..k + 1][..k] == recs[..k];
        if !recs[k].run.state.Terminal() && !recs[k].run.state.Parked() {
          n := n + 1;
        }
        k := k + 1;
      }
      assert recs[..k] == recs;
    }

    /** `open_runs` is read once, so the tick goes over a list that may grow stale. */
    method BeginTick()
      requires Valid() && Live(core.cfg, Now())
      modifies this`rest, core.ledger`trail
      ensures Reached(Happen(core.cfg, old(Now()), Event.BeginTick)) && Mine() == old(Mine())
    {
      hide Live, OpenSnaps, Happen, Values, Now, Valid, Apart, Reached;
      ghost var w, out := Now(), Happen(core.cfg, Now(), Event.BeginTick);
      HappenOk(core.cfg, w, Event.BeginTick);
      BeginMeans(core.cfg, w);
      NowMeans();
      Begin();
      if up && at.None? && rest == [] {
        var open := OpenRuns();
        Visiting(open);
      }
      Arrived(out);
    }

    method Visiting(open: seq<Snap>)
      requires Valid() && up && at.None?
      modifies this`rest
      ensures Valid() && rest == open && Mine() == old(Mine()) && Now() == old(Now()).(tick := Between(open))
    {
      hide Apart;
      rest := open;
    }

    /** One turn of the tick's loop, up to the first await. */
    method Visit(luck: Luck)
      requires Valid() && Live(core.cfg, Now())
      modifies this, core, core.ledger, core.approvals, Mine()
      ensures Reached(Happen(core.cfg, old(Now()), Event.Visit(luck))) && fresh(Mine() - old(Mine()))
    {
      hide Live, Happen, Skipped, Values, Turn, AfterTurn, Enter, Now, Valid, Apart, Reached;
      ghost var w, out := Now(), Happen(core.cfg, Now(), Event.Visit(luck));
      HappenOk(core.cfg, w, Event.Visit(luck));
      NobodyStuck(core.cfg, w);
      NowMeans();
      Begin();
      if !up || at.Some? || rest == [] || rest[0].r >= |core.ledger.records| {
        VisitSkips(core.cfg, w, luck);
        Arrived(out);
        return;
      }
      var s := rest[0];
      var skip := Skips(s);
      Visiting(rest[1..]);
      if skip {
        VisitSkips(core.cfg, w, luck);
      } else {
        ghost var w1 := Now();
        ghost var l, aw := VisitRun(s, luck);
        VisitMeans(core.cfg, w, luck, w1, l, aw);
      }
      Arrived(out);
    }

    method Skips(s: Snap) returns (skip: bool)
      requires Valid()
      ensures skip == Skipped(core.cfg, Now(), s)
    {
      if s.r in core.unfinishable || s.run.state.WaitingUser? {
        return true;
      }
      skip := false;
      if s.run.state.Created? {
        var n := ActiveRuns();
        skip := n > core.cfg.maxConcurrent;
      }
    }

    /** The turn itself; the ghost results name the stretch that was run. */
    method VisitRun(s: Snap, luck: Luck) returns (ghost l: Local, ghost aw: Await)
      requires Valid() && up && at.None? && s.r < |core.ledger.records|
      requires core.unfinishable == {} && core.ledger.trail == []
      modifies this, core, core.ledger, core.approvals, Mine()
      ensures Valid() && fresh(Mine() - old(Mine())) && core.ledger.trail == l.trail
      ensures Turn(Enter(core.cfg, old(Now()), s.r), core.cfg, s.run, luck) == Stopped(l, aw)
      ensures Now() == AfterTurn(old(Now()), s, l, aw)
    {
      hide Turn, Live, Enter, AfterTurn, Merged, Counted, Standpoint, Values, Now, Valid, Apart;
      ghost var w := Now();
      CountTurn(s);
      EnterSame(core.cfg, w, Now(), s.r);
      var c := ContextFor(s.r);
      ghost var w1, ctx := Now(), c.Value();
      l, aw := WorkAndStand(s, c, luck);
      TurnPrepared(w, s, ctx, l, aw, w1);
    }

    ghost method CountTurn(s: Snap)
      requires Valid() && up && at.None? && s.r < |core.ledger.records|
      modifies this`advances
      ensures Valid() && Mine() == old(Mine())
      ensures old(Now()).recs == core.ledger.records && old(Now()).tick == Between(rest)
      ensures Now() == old(Now()).(advances := Counted(old(Now()), s))
    {
      advances := Counted(Now(), s);
    }

    method WorkAndStand(s: Snap, c: RunContext, luck: Luck) returns (ghost l: Local, ghost aw: Await)
      requires Valid() && up && at.None? && s.r < |core.ledger.records| && s.r in contexts && contexts[s.r] == c
      requires core.unfinishable == {}
      modifies this`at, this`rest, core, core.ledger, core.approvals, c, c.ledger
      ensures Valid() && Mine() <= old(Mine()) && core.ledger.trail == l.trail
      ensures Turn(old(core.Here(s.r, c)), core.cfg, s.run, luck) == Stopped(l, aw)
      ensures Now() == Merged(old(Now()), s.r, false, l).(tick := Standpoint(s.r, s.run, aw, None, old(rest)))
    {
      hide Turn, Live, Merged, Standpoint, Values, Now, Valid, Apart;
      var stop := Work(s, c, luck);
      l, aw := core.Here(s.r, c), stop;
      Stand(s.r, s.run, c, stop);
    }

    /** The part of a visit that belongs to the run. */
    method Work(s: Snap, c: RunContext, luck: Luck) returns (aw: Await)
      requires Valid() && s.r < |core.ledger.records| && s.r in contexts && contexts[s.r] == c && at.None?
      requires core.unfinishable == {}
      modifies core, core.ledger, core.approvals, c, c.ledger
      ensures Valid() && core.Only(s.r)
      ensures Stopped(core.Here(s.r, c), aw) == Turn(old(core.Here(s.r, c)), core.cfg, s.run, luck)
      ensures Now().(tick := Down) == Merged(old(Now()), s.r, false, core.Here(s.r, c))
    {
      hide Turn;
      ghost var before := Values(contexts);
      aw := core.TakeTurn(s.r, c, s.run, luck);
      OneChanged(contexts, s.r, before);
      AtMostOne(core.unfinishable, s.r);
      assert core.ledger.records == old(core.ledger.records)[s.r := core.ledger.records[s.r]];
    }

    /** Where a stretch has left the tick. */
    method Stand(r: nat, snap: Run, c: RunContext, aw: Await)
      requires Valid() && up && (r in contexts ==> contexts[r] == c)
      requires at.Some? ==> at.value.r == r && at.value.ctx == c
      requires at.None? ==> r in contexts
      modifies this`at, this`rest
      ensures Valid() && Mine() <= old(Mine()) + {c, c.ledger}
      ensures Now() == old(Now()).(tick := Standpoint(r, snap, aw, if r in contexts then None else Some(c.Value()), old(rest)))
    {
      hide Apart, Values;
      if at.Some? {
        ApartBut(contexts, r, c);
      } else {
        assert contexts[r := c] == contexts;
      }
      if aw.Thrown? {
        at, rest := None, [];
      } else if aw.Done? {
        at := None;
      } else {
        at := Some(Standing(r, snap, aw, c));
      }
    }

    /** An await is answered: the stretch behind it runs, on the context the coroutine holds. */
    method Reply(answer: Answer)
      requires Valid() && Live(core.cfg, Now())
      modifies this, core, core.ledger, core.approvals, Mine()
      ensures Reached(Happen(core.cfg, old(Now()), Event.Reply(answer))) && fresh(Mine() - old(Mine()))
    {
      hide Live, Happen, AgentSteps.Follow, HeldBy, Values, Merged, Standpoint, Now, Valid, Apart, Reached;
      ghost var w, out := Now(), Happen(core.cfg, Now(), Event.Reply(answer));
      HappenOk(core.cfg, w, Event.Reply(answer));
      NobodyStuck(core.cfg, w);
      NowMeans();
      Begin();
      if !up || at.None? {
        ReplyIgnored(core.cfg, w, answer);
      } else if at.value.aw.Finishing? {
        BusyInRange(core.cfg, w);
        ReplyIgnored(core.cfg, w, answer);
        if answer.FromNotice? {
          DropAndMoveOn();
        }
      } else {
        BusyInRange(core.cfg, w);
        FollowUp(answer, w);
      }
      Arrived(out);
    }

    /** The final notice of the run is out. */
    method DropAndMoveOn()
      requires Valid() && up && at.Some?
      modifies this`at, this`contexts
      ensures Valid() && Mine() <= old(Mine())
      ensures Now() == old(Now()).(tick := Between(rest), contexts := old(Now()).contexts - {old(at).value.r})
    {
      var r := at.value.r;
      ApartBut(contexts, r, at.value.ctx);
      OneLess(contexts, r);
      hide Apart, Values;
      at := None;
      contexts := contexts - {r};
    }

    method FollowUp(answer: Answer, ghost w: World)
      requires Valid() && up && at.Some? && at.value.r < |core.ledger.records| && core.unfinishable == {}
      requires core.ledger.trail == [] && w == Now() && !at.value.aw.Finishing?
      modifies this`at, this`rest, core, core.ledger, core.approvals, Mine()
      ensures Valid() && Mine() <= old(Mine())
      ensures Out(Now(), Happen(core.cfg, w, Event.Reply(answer)).r, core.ledger.trail)
              == Happen(core.cfg, w, Event.Reply(answer))
    {
      hide Happen, AgentSteps.Follow, HeldBy, Values, Merged, Standpoint, Apart;
      var st := at.value;
      ghost var detached := st.r !in contexts;
      HeldIsHere(w);
      var aw := Continue(answer);
      ghost var l := core.Here(st.r, st.ctx);
      if aw.Some? {
        Stand(st.r, st.snap, st.ctx, aw.value);
        ReplyMeans(core.cfg, w, answer, l, aw.value);
      } else {
        NothingMoved(core.cfg, w);
        ReplyIgnored(core.cfg, w, answer);
      }
    }

    lemma HeldIsHere(w: World)
      requires Valid() && up && at.Some? && at.value.r < |core.ledger.records| && w == Now()
      requires core.ledger.trail == [] && core.unfinishable == {}
      ensures HeldBy(core.cfg, w) == core.Here(at.value.r, at.value.ctx)
      ensures w.tick.Busy? && (w.tick.lost.None? ==> w.tick.r in w.contexts)
    {
    }

    /** The stretch behind the await at which the tick stands. */
    method Continue(answer: Answer) returns (aw: Option<Await>)
      requires Valid() && up && at.Some? && at.value.r < |core.ledger.records| && core.unfinishable == {}
      modifies core, core.ledger, core.approvals, at.value.ctx, at.value.ctx.ledger
      ensures Valid() && |core.ledger.records| == |old(core.ledger.records)|
      ensures match AgentSteps.Follow(old(core.Here(at.value.r, at.value.ctx)), core.cfg, at.value.snap, at.value.aw, answer)
              case None => aw == None && core.Here(at.value.r, at.value.ctx) == old(core.Here(at.value.r, at.value.ctx))
              case Some(seg) => aw.Some? && Stopped(core.Here(at.value.r, at.value.ctx), aw.value) == seg
      ensures Now().(tick := Down)
              == Merged(old(Now()), at.value.r, at.value.r !in contexts, core.Here(at.value.r, at.value.ctx))
    {
      hide AgentSteps.Follow, Apart, Values;
      var st := at.value;
      aw := Answered(answer);
      AtMostOne(core.unfinishable, st.r);
      assert core.ledger.records == old(core.ledger.records)[st.r := core.ledger.records[st.r]];
    }

    method Answered(answer: Answer) returns (aw: Option<Await>)
      requires Valid() && up && at.Some? && at.value.r < |core.ledger.records|
      modifies core, core.ledger, core.approvals, at.value.ctx, at.value.ctx.ledger
      ensures core.Only(at.value.r)
      ensures match AgentSteps.Follow(old(core.Here(at.value.r, at.value.ctx)), core.cfg, at.value.snap, at.value.aw, answer)
              case None => aw == None && core.Here(at.value.r, at.value.ctx) == old(core.Here(at.value.r, at.value.ctx))
              case Some(seg) => aw.Some? && Stopped(core.Here(at.value.r, at.value.ctx), aw.value) == seg
      ensures Values(contexts) == if at.value.r in contexts then old(Values(contexts))[at.value.r := at.value.ctx.Value()]
                                  else old(Values(contexts))
    {
      hide AgentSteps.Follow, Apart;
      ghost var before := Values(contexts);
      var st := at.value;
      ApartFrom(contexts, st.r, st.ctx);
      aw := core.Follow(st.r, st.ctx, st.snap, st.aw, answer);
      OneChanged(contexts, st.r, before);
    }

    // -------------------------------------------------------------- from outside, between two stretches

    /** A task is taken on: a record and a context with the whole budget. */
    method Submit(scope: Scope)
      requires Valid() && Live(core.cfg, Now())
      modifies this`contexts, this`advances, core.ledger
      ensures Reached(Happen(core.cfg, old(Now()), Event.Submit(scope))) && fresh(Mine() - old(Mine()))
    {
      hide Live, Happen, Values, Now, Valid, Apart, Reached;
      ghost var w, out := Now(), Happen(core.cfg, Now(), Event.Submit(scope));
      HappenOk(core.cfg, w, Event.Submit(scope));
      SubmitMeans(core.cfg, w, scope);
      ContextsInRange(core.cfg, w);
      NowMeans();
      Begin();
      if up {
        Enlist(scope);
      }
      Arrived(out);
    }

    method NewContext(scope: Scope) returns (c: RunContext)
      ensures fresh(c) && fresh(c.ledger) && c.Value() == NewCtx(core.cfg.LimitsOf(scope))
    {
      var b := new BudgetLedger(core.cfg.LimitsOf(scope));
      c := new RunContext(b);
    }

    lemma RecordsAreRead()
      ensures Now().recs == core.ledger.records && Now().advances == advances
    {
    }

    method BookNew(scope: Scope)
      requires Valid()
      modifies this`advances, core.ledger`records
      ensures Valid() && Mine() == old(Mine()) && core.ledger.records == old(core.ledger.records) + [NewRecord(scope)]
      ensures Now() == old(Now()).(recs := core.ledger.records, advances := old(Now()).advances + [0])
    {
      hide Apart;
      core.ledger.Append(NewRecord(scope));
      advances := advances + [0];
    }

    method Enlist(scope: Scope)
      requires Valid() && |core.ledger.records| !in contexts && (at.Some? ==> at.value.r != |core.ledger.records|)
      modifies this`contexts, this`advances, core.ledger`records
      ensures Valid() && fresh(Mine() - old(Mine()))
      ensures Now() == old(Now()).(recs := old(Now()).recs + [NewRecord(scope)], advances := old(Now()).advances + [0],
                                   contexts := old(Now()).contexts[|old(Now()).recs| := NewCtx(core.cfg.LimitsOf(scope))])
    {
      hide Now, Valid, Apart, Values;
      RecordsAreRead();
      var c := NewContext(scope);
      AddContext(|core.ledger.records|, c);
      BookNew(scope);
    }

    /** `cancel`: the flag in the context, if there is one, and then the end of the run. */
    method Cancel(r: nat)
      requires Valid() && Live(core.cfg, Now())
      modifies this`finishing, core, core.ledger, core.approvals, Mine()
      ensures Reached(Happen(core.cfg, old(Now()), Event.Cancel(r))) && contexts == old(contexts) && at == old(at)
    {
      hide Live, Happen, Values, ClosedAt, CancelSet, Finish, Enter, Now, Valid, Apart, Reached;
      ghost var w, out := Now(), Happen(core.cfg, Now(), Event.Cancel(r));
      HappenOk(core.cfg, w, Event.Cancel(r));
      NobodyStuck(core.cfg, w);
      NowMeans();
      Begin();
      if !up || r >= |core.ledger.records| || core.ledger.records[r].run.state.Terminal() {
        CancelIgnored(core.cfg, w, r);
      } else {
        CancelOpen(r, w);
      }
      Arrived(out);
    }

    method CancelOpen(r: nat, ghost w: World)
      requires Valid() && up && r < |core.ledger.records| && !core.ledger.records[r].run.state.Terminal()
      requires core.unfinishable == {} && core.ledger.trail == [] && w == Now()
      modifies this`finishing, core, core.ledger, core.approvals, Mine()
      ensures Valid() && contexts == old(contexts) && at == old(at)
      ensures Now() == Happen(core.cfg, w, Event.Cancel(r)).w
      ensures core.ledger.trail == Happen(core.cfg, w, Event.Cancel(r)).trail
    {
      hide Happen, Values, ClosedAt, CancelSet, Finish, Enter, Now, Valid, Apart;
      NowMeans();
      // The end of a run looks at its context only where one is in the table.
      var c := Flag(r);
      ghost var ctx := c.Value();
      ghost var l, aw := EndRun(r, c);
      CancelMeans(core.cfg, w, r, ctx, l, aw);
    }

    method Flag(r: nat) returns (c: RunContext)
      requires Valid() && up && r < |core.ledger.records| && core.unfinishable == {} && core.ledger.trail == []
      modifies Mine()
      ensures Valid() && contexts == old(contexts) && at == old(at) && Now() == CancelSet(old(Now()), r)
      ensures core.Here(r, c) == Enter(core.cfg, old(Now()), r).(ctx := c.Value())
    {
      if r in contexts {
        c := contexts[r];
        SetCancel(r, c);
      } else {
        c := Rebuild(r);
      }
    }

    method SetCancel(r: nat, c: RunContext)
      requires Valid() && r in contexts && contexts[r] == c
      modifies c`cancel
      ensures Now() == CancelSet(old(Now()), r)
    {
      ghost var before := Values(contexts);
      if at.Some? {
        ApartBut(contexts, at.value.r, at.value.ctx);
        ApartFrom(contexts, at.value.r, at.value.ctx);
      }
      assert contexts[r := c] == contexts;
      ApartFrom(contexts, r, c);
      hide Apart;
      c.cancel := true;
      OneChanged(contexts, r, before);
    }

    method FinishCancelled(r: nat, c: RunContext) returns (aw: Await)
      requires Valid() && r < |core.ledger.records|
      modifies core, core.ledger, core.approvals
      ensures core.Only(r)
      ensures Stopped(core.Here(r, c), aw) == Finish(old(core.Here(r, c)), Cancelled, CancelledByUser)
      ensures Values(contexts) == old(Values(contexts)) && TickNow() == old(TickNow())
    {
      hide Finish, Apart;
      aw := core.Finish(r, c, Cancelled, CancelledByUser);
    }

    method EndRun(r: nat, c: RunContext) returns (ghost l: Local, ghost aw: Await)
      requires Valid() && r < |core.ledger.records| && core.unfinishable == {}
      modifies this`finishing, core, core.ledger, core.approvals
      ensures Valid() && core.ledger.trail == l.trail
      ensures Stopped(l, aw) == Finish(old(core.Here(r, c)), Cancelled, CancelledByUser)
      ensures Now() == ClosedAt(old(Now()), r, l, aw)
    {
      hide Finish, Apart;
      var stop := FinishCancelled(r, c);
      l, aw := core.Here(r, c), stop;
      AtMostOne(core.unfinishable, r);
      assert core.ledger.records == old(core.ledger.records)[r := core.ledger.records[r]];
      finishing := if stop.Finishing? then finishing + {r} else finishing;
      assert Values(contexts) == old(Values(contexts));
      assert TickNow() == old(TickNow());
    }

    /** The notice of a cancellation is out: the context leaves the table, also under a running coroutine. */
    method Notified(r: nat)
      requires Valid() && Live(core.cfg, Now())
      modifies this`finishing, this`contexts, core.ledger`trail
      ensures Reached(Happen(core.cfg, old(Now()), Event.Notified(r))) && Mine() <= old(Mine())
    {
      hide Live, Happen, Values, Now, Valid, Apart, Reached;
      ghost var w, out := Now(), Happen(core.cfg, Now(), Event.Notified(r));
      HappenOk(core.cfg, w, Event.Notified(r));
      NotifiedMeans(core.cfg, w, r);
      ContextsInRange(core.cfg, w);
      NowMeans();
      Begin();
      if r in finishing {
        DropFromTable(r);
      }
      Arrived(out);
    }

    method DropFromTable(r: nat)
      requires Valid() && up && r in finishing
      modifies this`finishing, this`contexts
      ensures Valid() && Mine() <= old(Mine())
      ensures Now() == DropContext(old(Now()), r)
    {
      assert at.Some? ==> (contexts - {r})[at.value.r := at.value.ctx]
                          == if at.value.r == r then Held() else Held() - {r};
      OneLess(Held(), r);
      if at.Some? {
        ApartBut(contexts, at.value.r, at.value.ctx);
      }
      OneLess(contexts, r);
      hide Apart;
      ghost var w := Now();
      TakeOut(r);
      hide Values, Objects;
      assert at.Some? ==> at.value.ctx.Value() == old(at.value.ctx.Value());
      assert TickNow() == DropContext(w, r).tick;
    }

    method TakeOut(r: nat)
      requires Apart(contexts)
      modifies this`finishing, this`contexts
      ensures finishing == old(finishing) - {r} && contexts == old(contexts) - {r}
      ensures Values(contexts) == old(Values(contexts)) - {r}
    {
      finishing, contexts := finishing - {r}, contexts - {r};
      assert forall q :: q in contexts ==> contexts[q].Value() == old(contexts[q].Value());
    }

    /** `resume`: a boundary a human has dealt with. */
    method Resume(r: nat)
      requires Valid() && Live(core.cfg, Now())
      modifies this`contexts, core.ledger, Mine()
      ensures Reached(Happen(core.cfg, old(Now()), Event.Resume(r))) && fresh(Mine() - old(Mine()))
    {
      hide Live, Happen, Values, Enter, Unbounded, GoingOn, Now, Valid, Apart, Reached;
      ghost var w, out := Now(), Happen(core.cfg, Now(), Event.Resume(r));
      HappenOk(core.cfg, w, Event.Resume(r));
      ContextsInRange(core.cfg, w);
      NowMeans();
      Begin();
      if !up || r >= |core.ledger.records| || !core.ledger.records[r].run.state.WaitingUser? {
        ResumeIgnored(core.cfg, w, r);
        Arrived(out);
        return;
      }
      GoOn(r);
      ResumeMeans(core.cfg, w, r, Now());
      Forgive(r);
      Arrived(out);
    }

    method GoOn(r: nat)
      requires Valid() && r < |core.ledger.records| && core.ledger.records[r].run.state.WaitingUser? && core.ledger.trail == []
      modifies core.ledger
      ensures Valid() && |core.ledger.records| == |old(core.ledger.records)|
      ensures core.ledger.trail == [Unbounded(old(core.ledger.records)[r]), GoingOn(old(core.ledger.records)[r])]
      ensures Now() == old(Now()).(recs := old(core.ledger.records)[r := GoingOn(old(core.ledger.records)[r])])
    {
      hide Apart, Unbounded, GoingOn;
      ghost var w := Now();
      LeaveBoundary(r);
      assert Values(contexts) == w.contexts;
      hide Values;
      assert TickNow() == w.tick;
    }

    method LeaveBoundary(r: nat)
      requires r < |core.ledger.records| && core.ledger.records[r].run.state.WaitingUser? && core.ledger.trail == []
      modifies core.ledger
      ensures core.ledger.records == old(core.ledger.records)[r := GoingOn(old(core.ledger.records)[r])]
      ensures core.ledger.trail == [Unbounded(old(core.ledger.records)[r]), GoingOn(old(core.ledger.records)[r])]
    {
      hide Targets;
      GoesOn();
      core.ledger.SetRun(r, core.ledger.records[r].run.(boundary := false));
      var ok := core.ledger.Transition(r, Running, NoCategory);
    }

    /** The approval questions start over, in the context the run has or in a rebuilt one. */
    method Forgive(r: nat)
      requires Valid() && r < |core.ledger.records| && (at.Some? && at.value.r == r ==> r in contexts)
      modifies this`contexts, Mine()
      ensures Valid() && fresh(Mine() - old(Mine()))
      ensures var w := old(Now());
              Now() == w.(contexts := w.contexts[r := Enter(core.cfg, w, r).ctx.(approvals := 0)])
    {
      hide Enter, Apart, Values, Now, Valid;
      var c := ContextFor(r);
      ResetApprovals(r, c);
    }

    method ResetApprovals(r: nat, c: RunContext)
      requires Valid() && r in contexts && contexts[r] == c
      modifies c`approvals
      ensures Valid() && Now() == old(Now()).(contexts := old(Now()).contexts[r := old(c.Value()).(approvals := 0)])
    {
      ghost var w := Now();
      if at.Some? {
        ApartBut(contexts, at.value.r, at.value.ctx);
        ApartFrom(contexts, at.value.r, at.value.ctx);
      }
      assert contexts[r := c] == contexts;
      ApartFrom(contexts, r, c);
      hide Apart;
      c.approvals := 0;
      OneChanged(contexts, r, w.contexts);
    }

    // -------------------------------------------------------------- after a restart

    /** First compare, then continue: every open run is marked, every orphan ended or reported. */
    method Reconcile(alive: bool)
      requires Valid() && Live(core.cfg, Now())
      modifies this`up, this`rest, core.ledger
      ensures Reached(Happen(core.cfg, old(Now()), Event.Reconcile(alive))) && Mine() == old(Mine())
    {
      hide Live, Happen, Values, Now, Valid, Apart, Reached, ReconcileFirst;
      ghost var w, out := Now(), Happen(core.cfg, Now(), Event.Reconcile(alive));
      HappenOk(core.cfg, w, Event.Reconcile(alive));
      ReconcileMeans(core.cfg, w, alive);
      NowMeans();
      if !up {
        ReconcileAll(alive);
      }
      // A death in between is an event of its own; from here on nothing is under way.
      Begin();
      Arrived(out);
    }

    method ReconcileAll(alive: bool)
      requires Valid() && !up
      modifies this`up, this`rest, core.ledger
      ensures Valid() && Mine() == old(Mine())
      ensures Now() == old(Now()).(recs := ReconcileFirst(old(Now()).recs, |old(Now()).recs|, alive), tick := Between([]))
    {
      hide Apart, ReconcileFirst;
      ghost var w := Now();
      EveryRun(alive);
      assert Values(contexts) == w.contexts;
      Wake();
    }

    method Wake()
      requires Valid() && !up
      modifies this`up, this`rest
      ensures Valid() && Mine() == old(Mine()) && Now() == old(Now()).(tick := Between([]))
    {
      hide Apart;
      up, rest := true, [];
    }

    /** Only the ledger is written; after q runs exactly the first q are reconciled. */
    method EveryRun(alive: bool)
      modifies core.ledger
      ensures core.ledger.records == ReconcileFirst(old(core.ledger.records), |old(core.ledger.records)|, alive)
    {
      ghost var recs := core.ledger.records;
      var q := 0;
      assert ReconcileFirst(recs, 0, alive) == recs;
      while q < |core.ledger.records|
        invariant 0 <= q <= |recs| && core.ledger.records == ReconcileFirst(recs, q, alive)
      {
        ReconcileRun(q, alive);
        assert core.ledger.records == ReconcileFirst(recs, q + 1, alive);
        q := q + 1;
      }
    }

    method ReconcileRun(q: nat, alive: bool)
      requires q < |core.ledger.records|
      modifies core.ledger
      ensures core.ledger.records == old(core.ledger.records)[q := ReconcileRecord(old(core.ledger.records)[q], alive)]
    {
      hide Targets;
      ghost var rec := core.ledger.records[q];
      var state := core.ledger.records[q].run.state;
      if state.Terminal() || state.WaitingUser? {
        return;
      }
      // From INTERRUPTED there is no edge to INTERRUPTED: the refusal is ignored.
      var _ := core.ledger.Transition(q, Interrupted, NoCategory);
      ReconcileRows(q, alive);
      assert RowsLookedAt(rec.rows, |rec.rows|, alive) == ReconcileRecord(rec, alive).rows;
    }

    method ReconcileRows(q: nat, alive: bool)
      requires q < |core.ledger.records|
      modifies core.ledger
      ensures var rec := old(core.ledger.records)[q];
              core.ledger.records == old(core.ledger.records)[q := rec.(rows := RowsLookedAt(rec.rows, |rec.rows|, alive))]
    {
      ghost var recs, rec := core.ledger.records, core.ledger.records[q];
      var k := 0;
      assert RowsLookedAt(rec.rows, 0, alive) == rec.rows;
      while k < |core.ledger.records[q].rows|
        invariant |core.ledger.records| == |recs| && 0 <= k <= |rec.rows|
        invariant core.ledger.records == recs[q := rec.(rows := RowsLookedAt(rec.rows, k, alive))]
      {
        ReconcileStep(q, k, alive);
        assert RowsLookedAt(rec.rows, k + 1, alive) == RowsLookedAt(rec.rows, k, alive)[k := ReconcileRow(rec.rows[k], alive)];
        k := k + 1;
      }
    }

    method ReconcileStep(q: nat, k: nat, alive: bool)
      requires q < |core.ledger.records| && k < |core.ledger.records[q].rows|
      modifies core.ledger
      ensures var rec := old(core.ledger.records)[q];
              core.ledger.records == old(core.ledger.records)[q := rec.(rows := rec.rows[k := ReconcileRow(rec.rows[k], alive)])]
    {
      var row := core.ledger.records[q].rows[k];
      if row.state.RowRunning? && row.child {
        core.ledger.MarkStep(q, k, if alive then RowFailed else RowUnknown);
      } else {
        assert core.ledger.records[q].rows[k := row] == core.ledger.records[q].rows;
      }
    }
  }
}
