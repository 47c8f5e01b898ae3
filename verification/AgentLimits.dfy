/**
 Where the runtime's own documentation promises more than its code keeps: each time the
 exact condition, and an input that shows it.
 */
module AgentLimits {
  import opened RunLedger
  import opened AgentSteps
  import opened AgentInvariant
  import opened AgentWorld
  import opened AgentSafety
  import opened AgentTermination
  import opened AgentDoom

  // ---------------------------------------------------------------- what verification really checks

  predicate HarvestNeeded(cfg: Config, rec: Record) {
    rec.run.scope.Build? && cfg.workspaces
  }

  /** The harvest row's key is free exactly when no earlier row sits there. */
  lemma TakenSnoc(rec: Record, kind: RowKind, ordinal: nat, s: RowState, other: nat)
    requires other != ordinal
    ensures Taken(rec.(rows := rec.rows + [FreshRow(kind, ordinal, 1).(state := s)]), other, 1) <==> Taken(rec, other, 1)
  {
    var rows := rec.rows + [FreshRow(kind, ordinal, 1).(state := s)];
    if Taken(rec, other, 1) {
      var i :| 0 <= i < |rec.rows| && rec.rows[i].ordinal == other && rec.rows[i].attempt == 1;
      assert rows[i].ordinal == other;
    }
  }

  lemma HarvestVerdict(l: Local, cfg: Config, luck: Luck)
    requires l.rec.run.state.Verifying?
    ensures Harvest(l, cfg, luck).l.rec.run.state.Succeeded?
            <==> !HarvestNeeded(cfg, l.rec)
                 || (l.ctx.workspace && luck.harvestOk && !Taken(l.rec, |l.rec.rows| + 1, 1))
  {
    hide Taken;
  }

  /**
   Exactly when verification ends in success: every row of the run settled well, no row
   already where the verify row goes, and, where there is something to harvest, a workspace
   in memory and a harvest that goes through. No plan is asked for.
   */
  lemma VerifyVerdict(l: Local, cfg: Config, luck: Luck)
    requires l.rec.run.state.Verifying?
    ensures Close(Verify(l, cfg, luck), InPlanning).l.rec.run.state.Succeeded?
            <==> && AllSettledOk(l.rec.rows) && !Taken(l.rec, |l.rec.rows| + 1, 1)
                 && (HarvestNeeded(cfg, l.rec) ==>
                       l.ctx.workspace && luck.harvestOk && !Taken(l.rec, |l.rec.rows| + 2, 1))
  {
    hide Taken, AllSettledOk, AnyUnknown, Harvest, Finish;
    var n := |l.rec.rows|;
    EndsAll();
    UnknownIsUnsettled(l.rec.rows);
    FailedNotWon(l);
    if !Taken(l.rec, n + 1, 1) && AllSettledOk(l.rec.rows) {
      var l2 := MarkRow(Write(l, l.rec.(rows := l.rec.rows + [FreshRow(VerifyRow, n + 1, 1)])), n, RowSucceeded);
      assert l2.rec == l.rec.(rows := l.rec.rows + [FreshRow(VerifyRow, n + 1, 1).(state := RowSucceeded)]);
      HarvestVerdict(l2, cfg, luck);
      TakenSnoc(l.rec, VerifyRow, n + 1, RowSucceeded, n + 2);
      HarvestFails(l2, cfg, luck);
    }
  }

  lemma UnknownIsUnsettled(rows: seq<Row>)
    ensures AnyUnknown(rows) ==> !AllSettledOk(rows)
  {
  }

  lemma FailedNotWon(l: Local)
    ensures forall l': Local, c: Category :: l'.rec.run.state.Verifying? ==> Finish(l', Failed, c).l.rec.run.state.Failed?
  {
  }

  lemma HarvestFails(l: Local, cfg: Config, luck: Luck)
    requires l.rec.run.state.Verifying?
    ensures Harvest(l, cfg, luck).Failing? ==> Harvest(l, cfg, luck).l == l
  {
    hide Taken;
  }

  // ---------------------------------------------------------------- a restart can turn nothing into success

  const ANY_LUCK: Luck := Luck(true, false, "", true, true)

  const KILLED_EARLY: seq<Event> :=
    [Submit(Research), Crash, Reconcile(false), BeginTick, Visit(ANY_LUCK), BeginTick, Visit(ANY_LUCK)]

  lemma AfterSnoc(cfg: Config, w: World, events: seq<Event>, e: Event)
    ensures After(cfg, w, events + [e]) == Apply(cfg, After(cfg, w, events), e)
  {
    assert (events + [e])[..|events|] == events;
  }

  /** A run alone in the ledger, INTERRUPTED, without a context: after one tick it is being verified. */
  lemma TickToVerifying(cfg: Config, w: World)
    requires |w.recs| == 1 && |w.advances| == 1 && w.stuck == {} && w.contexts == map[]
    requires w.tick == Between([]) && w.recs[0] == NewRecord(Research).(run := NewRecord(Research).run.(state := Interrupted))
    ensures var w' := Apply(cfg, Apply(cfg, w, BeginTick), Visit(ANY_LUCK));
            && |w'.recs| == 1 && |w'.advances| == 1 && w'.stuck == {} && w'.tick == Between([])
            && w'.recs[0] == NewRecord(Research).(run := NewRecord(Research).run.(state := Verifying))
            && (0 in w'.contexts ==> !w'.contexts[0].cancel)
  {
    var w1 := Apply(cfg, w, BeginTick);
    assert w.recs[..0] == [];
    assert OpenSnaps(w.recs) == [Snap(0, w.recs[0].run)];
    assert w1.tick.rest == [Snap(0, w.recs[0].run)];
  }

  lemma TickToSucceeded(cfg: Config, w: World)
    requires |w.recs| == 1 && |w.advances| == 1 && w.stuck == {}
    requires 0 in w.contexts ==> !w.contexts[0].cancel
    requires w.tick == Between([]) && w.recs[0] == NewRecord(Research).(run := NewRecord(Research).run.(state := Verifying))
    ensures var w' := Apply(cfg, Apply(cfg, w, BeginTick), Visit(ANY_LUCK));
            && |w'.recs| == 1 && w'.recs[0].run.state.Succeeded?
            && w'.recs[0].rows == [FreshRow(VerifyRow, 1, 1).(state := RowSucceeded)]
  {
    var w1 := Apply(cfg, w, BeginTick);
    assert w.recs[..0] == [];
    assert OpenSnaps(w.recs) == [Snap(0, w.recs[0].run)];
    assert w1.tick.rest == [Snap(0, w.recs[0].run)];
  }

  lemma KilledAndRestarted(cfg: Config)
    ensures var w := Apply(cfg, Apply(cfg, Apply(cfg, INITIAL, Submit(Research)), Crash), Reconcile(false));
            && |w.recs| == 1 && |w.advances| == 1 && w.stuck == {} && w.contexts == map[] && w.tick == Between([])
            && w.recs[0] == NewRecord(Research).(run := NewRecord(Research).run.(state := Interrupted))
  {
    assert ReconcileRecord(NewRecord(Research), false).rows == [];
  }

  /** A research run, killed before it was planned, is reported SUCCEEDED after the restart: no step, one verify row. */
  lemma EmptySuccess(cfg: Config)
    ensures var w := After(cfg, INITIAL, KILLED_EARLY);
            && |w.recs| == 1 && w.recs[0].run.state.Succeeded?
            && w.recs[0].rows == [FreshRow(VerifyRow, 1, 1).(state := RowSucceeded)]
  {
    hide Apply, After;
    var w3 := Apply(cfg, Apply(cfg, Apply(cfg, INITIAL, Submit(Research)), Crash), Reconcile(false));
    KilledAndRestarted(cfg);
    TickToVerifying(cfg, w3);
    TickToSucceeded(cfg, Apply(cfg, Apply(cfg, w3, BeginTick), Visit(ANY_LUCK)));
    assert After(cfg, INITIAL, []) == INITIAL by { AfterNothing(cfg); }
    var k := KILLED_EARLY;
    forall n | 0 <= n < 7 ensures After(cfg, INITIAL, k[..n + 1]) == Apply(cfg, After(cfg, INITIAL, k[..n]), k[n]) {
      AfterSnoc(cfg, INITIAL, k[..n], k[n]);
      assert k[..n + 1] == k[..n] + [k[n]];
    }
    assert k[..0] == [] && k[..0 + 1] == k[..1] && k[..1 + 1] == k[..2] && k[..2 + 1] == k[..3];
    assert k[..3 + 1] == k[..4] && k[..4 + 1] == k[..5] && k[..5 + 1] == k[..6] && k[..6 + 1] == k;
  }

  lemma AfterNothing(cfg: Config)
    ensures After(cfg, INITIAL, []) == INITIAL
  {
  }

  // ---------------------------------------------------------------- created runs can block each other

  function CountCreated(recs: seq<Record>): nat {
    if recs == [] then 0
    else CountCreated(recs[..|recs| - 1]) + if recs[|recs| - 1].run.state.Created? then 1 else 0
  }

  /** More runs are still CREATED than may be active at once, whatever else is going on. */
  predicate Crowded(cfg: Config, w: World) {
    !w.tick.Down? && CountCreated(w.recs) > cfg.maxConcurrent
  }

  /** The death of the process, or the cancellation of one of the runs that wait to be started. */
  predicate Rescues(w: World, e: Event) {
    || e.Crash? || e.CrashDuring?
    || (e.Cancel? && e.r < |w.recs| && w.recs[e.r].run.state.Created?)
  }

  ghost predicate Unrescued(cfg: Config, w: World, events: seq<Event>) {
    forall n :: 0 <= n < |events| ==> !Rescues(After(cfg, w, events[..n]), events[n])
  }

  lemma {:induction false} CreatedAreActive(recs: seq<Record>)
    ensures CountCreated(recs) <= CountActive(recs)
  {
    if recs != [] {
      CreatedAreActive(recs[..|recs| - 1]);
    }
  }

  predicate KeepsCreated(a: seq<Record>, b: seq<Record>) {
    |a| <= |b| && forall r :: 0 <= r < |a| && a[r].run.state.Created? ==> b[r] == a[r]
  }

  lemma {:induction false} CountKeeps(a: seq<Record>, b: seq<Record>)
    requires KeepsCreated(a, b)
    ensures CountCreated(a) <= CountCreated(b)
    decreases |b|
  {
    if |a| < |b| {
      CountKeeps(a, b[..|b| - 1]);
    } else if b != [] {
      CountKeeps(a[..|a| - 1], b[..|b| - 1]);
    }
  }

  lemma KeepsBut(a: seq<Record>, b: seq<Record>, r: nat)
    requires |a| == |b| && r < |a| && !a[r].run.state.Created? && b == a[r := b[r]]
    ensures KeepsCreated(a, b)
  {
  }

  /** A turn of the tick skips every run that is CREATED, so what it works on is another. */
  lemma VisitKeepsCreated(cfg: Config, w: World, luck: Luck)
    requires Live(cfg, w) && Crowded(cfg, w)
    ensures KeepsCreated(w.recs, VisitHead(cfg, w, luck).w.recs)
  {
    hide Poll, Advance, Rebuild, RecInv, At, CountCreated, CountActive;
    if w.tick.Between? && w.tick.rest != [] && w.tick.rest[0].r < |w.recs| && !Skipped(cfg, w, w.tick.rest[0]) {
      var s := w.tick.rest[0];
      assert SnapFits(s.run, w.recs[s.r], ContextOf(w, s.r));
      CreatedAreActive(w.recs);
      assert !s.run.state.Created?;
      KeepsBut(w.recs, VisitHead(cfg, w, luck).w.recs, s.r);
    }
  }

  /** A run with a coroutine at work has been started. */
  lemma ReplyKeepsCreated(cfg: Config, w: World, answer: Answer)
    requires Live(cfg, w)
    ensures KeepsCreated(w.recs, ReplyTo(cfg, w, answer).w.recs)
  {
    hide Follow, Rebuild, RecInv, CtxFits, SnapFits, Clean, Shape;
    if w.tick.Busy? && w.tick.r < |w.recs| {
      assert At(cfg, w.tick.r, w.recs[w.tick.r], ContextOf(w, w.tick.r), w.slot, w.tick.aw);
      KeepsBut(w.recs, ReplyTo(cfg, w, answer).w.recs, w.tick.r);
    }
  }

  lemma CreatedStay(cfg: Config, w: World, e: Event)
    requires Live(cfg, w) && Crowded(cfg, w) && !Rescues(w, e)
    ensures Crowded(cfg, Apply(cfg, w, e)) && KeepsCreated(w.recs, Apply(cfg, w, e).recs)
  {
    hide Live, VisitHead, ReplyTo, Finish, Move, Rebuild, CountCreated;
    var w' := Apply(cfg, w, e);
    if e.Visit? {
      VisitKeepsCreated(cfg, w, e.luck);
    } else if e.Reply? {
      ReplyKeepsCreated(cfg, w, e.answer);
    }
    assert KeepsCreated(w.recs, w'.recs);
    CountKeeps(w.recs, w'.recs);
    assert !w'.tick.Down? by { StaysUp(cfg, w, e); }
  }

  lemma StaysUp(cfg: Config, w: World, e: Event)
    requires !w.tick.Down? && !e.Crash? && !e.CrashDuring?
    ensures !Apply(cfg, w, e).tick.Down?
  {
    hide Poll, Advance, Follow, Rebuild, Finish, Move, Skipped;
  }

  /**
   Once more CREATED runs are open than may be active at once, no number of ticks starts any
   of them, whatever other runs there are and whatever happens to those: each counts against
   all the others. Only the cancellation of one of them or a restart helps.
   */
  lemma {:induction false} AdmissionDeadlock(cfg: Config, w: World, events: seq<Event>)
    requires Live(cfg, w) && Crowded(cfg, w) && Unrescued(cfg, w, events)
    ensures Live(cfg, After(cfg, w, events)) && Crowded(cfg, After(cfg, w, events))
    ensures KeepsCreated(w.recs, After(cfg, w, events).recs)
  {
    hide Live, Crowded, Happen, Rescues;
    if events != [] {
      var n := |events| - 1;
      var w1 := After(cfg, w, events[..n]);
      assert forall k :: 0 <= k < n ==> events[..n][..k] == events[..k] && events[..n][k] == events[k];
      AdmissionDeadlock(cfg, w, events[..n]);
      CreatedStay(cfg, w1, events[n]);
      assert OutOk(cfg, Happen(cfg, w1, events[n])) by { HappenOk(cfg, w1, events[n]); }
    }
  }

  /** The runs that are under way or wait to be: neither ended nor parked. */
  function ActiveRuns(recs: seq<Record>): set<int> {
    set r | 0 <= r < |recs|
            && recs[r].run.state !in {Succeeded, Failed, Cancelled, WaitingApproval, WaitingUser}
  }

  lemma OneMoreActive(recs: seq<Record>)
    requires recs != []
    ensures var n := |recs| - 1;
            && n !in ActiveRuns(recs[..n])
            && ActiveRuns(recs) == ActiveRuns(recs[..n])
               + if recs[n].run.state in {Succeeded, Failed, Cancelled, WaitingApproval, WaitingUser} then {} else {n}
  {
  }

  lemma {:induction false} ActiveAreCounted(recs: seq<Record>)
    ensures CountActive(recs) == |ActiveRuns(recs)|
  {
    if recs == [] {
      assert ActiveRuns(recs) == {};
    } else {
      ActiveAreCounted(recs[..|recs| - 1]);
      OneMoreActive(recs);
      hide ActiveRuns;
    }
  }

  /**
   A tick's turn to a CREATED run starts it if and only if no more runs are active than
   allowed; otherwise nothing changes.
   */
  lemma StartsExactly(cfg: Config, w: World, luck: Luck)
    requires Live(cfg, w) && w.tick.Between? && w.tick.rest != []
    requires w.tick.rest[0].run.state.Created? && w.recs[w.tick.rest[0].r].run.state.Created?
    ensures var r := w.tick.rest[0].r;
            var w' := Apply(cfg, w, Visit(luck));
            && r < |w'.recs|
            && (!w'.recs[r].run.state.Created? <==> |ActiveRuns(w.recs)| <= cfg.maxConcurrent)
            && (!w'.recs[r].run.state.Created? ==> w'.recs[r].run.state.Planning? || w'.recs[r].run.state.Terminal())
            && (w'.recs[r].run.state.Created? ==> w'.recs == w.recs)
  {
    hide RecInv, At, SnapFits, CountActive, ActiveRuns, Rebuild, AdvanceCreated, Finish, Close;
    ActiveAreCounted(w.recs);
    var s := w.tick.rest[0];
    var l := Enter(cfg, w, s.r);
    CreatedMoves(l, cfg, s.run, luck);
    EndsWith(l, Cancelled, CancelledByUser);
  }

  function Submissions(n: nat): seq<Event> {
    if n == 0 then [] else Submissions(n - 1) + [Submit(Research)]
  }

  lemma {:induction false} AfterSubmissions(cfg: Config, n: nat)
    ensures var w := After(cfg, INITIAL, Submissions(n));
            && w.tick == Between([]) && |w.recs| == n
            && forall r :: 0 <= r < n ==> w.recs[r] == NewRecord(Research)
  {
    hide Happen;
    if n > 0 {
      AfterSubmissions(cfg, n - 1);
      var events := Submissions(n);
      assert events[..|events| - 1] == Submissions(n - 1);
      OneSubmission(cfg, After(cfg, INITIAL, Submissions(n - 1)));
    }
  }

  lemma OneSubmission(cfg: Config, w: World)
    requires !w.tick.Down?
    ensures var w' := Apply(cfg, w, Submit(Research));
            w'.tick == w.tick && w'.recs == w.recs + [NewRecord(Research)]
  {
  }

  lemma {:induction false} AllCreated(recs: seq<Record>)
    requires forall r :: 0 <= r < |recs| ==> recs[r].run.state.Created?
    ensures CountCreated(recs) == |recs|
  {
    if recs != [] {
      AllCreated(recs[..|recs| - 1]);
    }
  }

  /** One submission too many between two ticks is enough. */
  lemma SubmissionsStall(cfg: Config)
    ensures Crowded(cfg, After(cfg, INITIAL, Submissions(cfg.maxConcurrent + 1)))
  {
    AfterSubmissions(cfg, cfg.maxConcurrent + 1);
    AllCreated(After(cfg, INITIAL, Submissions(cfg.maxConcurrent + 1)).recs);
  }
}
