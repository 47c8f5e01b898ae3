/**
 Concrete runs, event by event from an empty ledger, that show where promises end: one plan
 with one step that needs an approval, and what may happen while it is out.
 */
module AgentHistories {
  import opened Basics
  import opened RunLedger
  import opened RunBudget
  import opened AgentSteps
  import opened AgentWorld
  import opened AgentDoom

  const LIMITS: Limits := Limits(12, 4, 2, 2)
  const CFG: Config := Config(true, true, false, true, 1, LIMITS, LIMITS)
  const LUCK: Luck := Luck(true, false, "", true, true)
  const MAIL: Planned := Planned(CapabilityStep, "mail", "to", false, false, false)
  const MAIL_DIGEST: Digest := Digest("capability", "mail", "to")

  /** One event after the other; unlike `After`, from the front. */
  function Chain(cfg: Config, w: World, events: seq<Event>): World
    decreases |events|
  {
    if events == [] then w else Chain(cfg, Apply(cfg, w, events[0]), events[1..])
  }

  lemma {:induction false} ChainSnoc(cfg: Config, w: World, events: seq<Event>, e: Event)
    ensures Chain(cfg, w, events + [e]) == Apply(cfg, Chain(cfg, w, events), e)
    decreases |events|
  {
    hide Apply;
    if events == [] {
      assert (events + [e])[1..] == [];
    } else {
      assert (events + [e])[1..] == events[1..] + [e];
      ChainSnoc(cfg, Apply(cfg, w, events[0]), events[1..], e);
    }
  }

  lemma {:induction false} ChainIsAfter(cfg: Config, w: World, events: seq<Event>)
    ensures Chain(cfg, w, events) == After(cfg, w, events)
  {
    hide Apply;
    if events != [] {
      var n := |events| - 1;
      ChainIsAfter(cfg, w, events[..n]);
      assert events[..n] + [events[n]] == events;
      ChainSnoc(cfg, w, events[..n], events[n]);
    }
  }

  lemma {:induction false} ChainJoins(cfg: Config, w: World, a: seq<Event>, b: seq<Event>)
    ensures Chain(cfg, w, a + b) == Chain(cfg, Chain(cfg, w, a), b)
    decreases |a|
  {
    hide Apply;
    if a == [] {
      assert a + b == b;
    } else {
      assert (a + b)[1..] == a[1..] + b;
      ChainJoins(cfg, Apply(cfg, w, a[0]), a[1..], b);
    }
  }

  // ---------------------------------------------------------------- the way to the approval

  function OneRun(rec: Record, ctx: Ctx, slot: Option<nat>, tick: Tick, advances: nat): World {
    World([rec], map[0 := ctx], slot, tick, {}, {}, [advances], 0)
  }

  function InState(s: RunState): Run { Run(s, Research, 0, false, false, false, NoCategory) }

  const FRESH_BOOK: Book := OpenBook(LIMITS)
  const PLANNED_BOOK: Book := FRESH_BOOK.(plannerCalls := 1)
  const ASKED_BOOK: Book := PLANNED_BOOK.(attempts := map[MAIL_DIGEST := 1])
  const PARKED_BOOK: Book := ASKED_BOOK.(steps := 1)

  const PLANNED_CTX: Ctx := Ctx(Some([MAIL]), 0, 0, None, false, false, PLANNED_BOOK, {}, false)
  const ASKED_CTX: Ctx := PLANNED_CTX.(book := ASKED_BOOK)
  const PARKED_CTX: Ctx := PLANNED_CTX.(approvals := 1, pending := Some(0), book := PARKED_BOOK)

  const ASKED_ROW: Row := Row(CapabilityRow, 1, 1, RowRunning, None, false, 1, 0, 0, false)
  const PARKED_ROW: Row := ASKED_ROW.(state := RowWaiting, approval := Some(7))

  const SUBMITTED: World := OneRun(NewRecord(Research), NewCtx(LIMITS), None, Between([]), 0)
  const PLANNING: World := OneRun(Record(InState(Planning), []), NewCtx(LIMITS), None, Between([]), 1)
  const PLANNED: World := OneRun(Record(InState(Running), []), PLANNED_CTX, None, Between([]), 2)
  const ASKING: World :=
    OneRun(Record(InState(Running), [ASKED_ROW]), ASKED_CTX, Some(0),
           Busy(0, InState(Running), Asking(0, MAIL), None, []), 3)
  const PARKED: World := OneRun(Record(InState(WaitingApproval), [PARKED_ROW]), PARKED_CTX, Some(0), Between([]), 3)

  /** What a tick reads when there is one open run. */
  lemma OneSnap(w: World)
    requires w.tick == Between([]) && |w.recs| == 1 && !w.recs[0].run.state.Terminal()
    ensures Apply(CFG, w, BeginTick) == w.(tick := Between([Snap(0, w.recs[0].run)]))
  {
    assert w.recs[..0] == [];
    assert OpenSnaps(w.recs) == [Snap(0, w.recs[0].run)];
  }

  lemma Submitted()
    ensures Apply(CFG, INITIAL, Submit(Research)) == SUBMITTED
  {
  }

  lemma GoesPlanning()
    ensures Apply(CFG, Apply(CFG, SUBMITTED, BeginTick), Visit(LUCK)) == PLANNING
  {
    OneSnap(SUBMITTED);
    assert SUBMITTED.recs[..0] == [];
    assert CountActive(SUBMITTED.recs) == 1;
  }

  lemma GetsPlanned()
    ensures Apply(CFG, Apply(CFG, Apply(CFG, PLANNING, BeginTick), Visit(LUCK)),
                  Reply(FromPlanner(Proposed([MAIL]), Unavailable))) == PLANNED
  {
    OneSnap(PLANNING);
    assert Plannable([MAIL], Research);
  }

  lemma Asks()
    ensures var l := Local(0, Record(InState(Running), []), [], PLANNED_CTX, None, false);
            var seg := Advance(l, CFG, InState(Running), LUCK);
            && seg.Stopped? && seg.aw == Asking(0, MAIL) && seg.l.rec == Record(InState(Running), [ASKED_ROW])
            && seg.l.ctx == ASKED_CTX && seg.l.slot == Some(0) && !seg.l.stuck && seg.l.me == 0
  {
    var l := Local(0, Record(InState(Running), []), [], PLANNED_CTX, None, false);
    var l1 := l.(ctx := ASKED_CTX);
    assert GuardAttempt(PLANNED_BOOK, MAIL_DIGEST) == Granted(ASKED_BOOK);
    var row := FreshRow(CapabilityRow, 1, 1);
    assert l1.rec.rows + [row] == [row];
    assert CreateRow(l1.rec, CapabilityRow, 1, 1) == Some(Record(InState(Running), [row]));
    var l2 := MarkRow(Write(l1, Record(InState(Running), [row])), 0, RowRunning);
    assert l2.rec.rows == [row.(state := RowRunning)];
    assert PutRow(l2.rec, 0, ASKED_ROW).rows == [ASKED_ROW];
    hide GuardAttempt, CreateRow, MarkRow, PutRow;
    assert RunCapability(l, CFG, InState(Running), MAIL, 1, 1, LUCK).aw == Asking(0, MAIL);
  }

  lemma GetsAsked()
    ensures Apply(CFG, Apply(CFG, PLANNED, BeginTick), Visit(LUCK)) == ASKING
  {
    hide Advance;
    OneSnap(PLANNED);
    Asks();
    var w1 := Apply(CFG, PLANNED, BeginTick);
    assert Enter(CFG, w1, 0) == Local(0, Record(InState(Running), []), [], PLANNED_CTX, None, false);
    assert w1.recs[0 := Record(InState(Running), [ASKED_ROW])] == ASKING.recs;
    assert w1.contexts[0 := ASKED_CTX] == ASKING.contexts;
    assert w1.advances[0 := 3] == ASKING.advances;
    assert w1.tick.rest[1..] == [] && !Skipped(CFG, w1, w1.tick.rest[0]);
  }

  lemma GetsParked()
    ensures Apply(CFG, ASKING, Reply(FromRouter(Answered(NeedsApproval, Some(7))))) == PARKED
  {
    var rec := Record(InState(Running), [ASKED_ROW]);
    var row := ASKED_ROW.(approval := Some(7));
    assert PutRow(rec, 0, row).rows == [row];
    assert SetRowState(Record(InState(Running), [row]), 0, RowWaiting).rows == [PARKED_ROW];
    var l := Enter(CFG, ASKING, 0);
    assert l == Local(0, rec, [], ASKED_CTX, Some(0), false);
    var l2 := MarkRow(Write(l, PutRow(rec, 0, row)).(ctx := l.ctx.(pending := Some(0), approvals := 1)), 0, RowWaiting);
    assert l2.rec == Record(InState(Running), [PARKED_ROW]);
    assert AskedBack(l, CFG, InState(Running), 0, MAIL, Answered(NeedsApproval, Some(7))) == Move(l2, WaitingApproval);
    assert Move(l2, WaitingApproval).l.rec == Record(InState(WaitingApproval), [PARKED_ROW]);
    assert NoteStep(l2.ctx) == PARKED_CTX;
  }

  const TO_THE_APPROVAL: seq<Event> :=
    [Submit(Research), BeginTick, Visit(LUCK), BeginTick, Visit(LUCK),
     Reply(FromPlanner(Proposed([MAIL]), Unavailable)), BeginTick, Visit(LUCK),
     Reply(FromRouter(Answered(NeedsApproval, Some(7))))]

  lemma Chained3(w: World, a: Event, b: Event, c: Event)
    ensures Chain(CFG, w, [a]) == Apply(CFG, w, a)
    ensures Chain(CFG, w, [a, b]) == Apply(CFG, Apply(CFG, w, a), b)
    ensures Chain(CFG, w, [a, b, c]) == Apply(CFG, Apply(CFG, Apply(CFG, w, a), b), c)
  {
    hide Apply;
    Chained2(w, a, b);
    Chained2(Apply(CFG, w, a), b, c);
    assert [a, b, c][1..] == [b, c];
  }

  lemma Chained2(w: World, a: Event, b: Event)
    ensures Chain(CFG, w, [a]) == Apply(CFG, w, a) && Chain(CFG, w, [a, b]) == Apply(CFG, Apply(CFG, w, a), b)
  {
    hide Apply;
    assert [a, b][1..] == [b] && [b][1..] == [] && [a][1..] == [];
    assert Chain(CFG, Apply(CFG, w, a), [b]) == Apply(CFG, Apply(CFG, w, a), b);
  }

  /** The run is planned, and its one step is put to the router. */
  lemma ReachesTheQuestion()
    ensures Chain(CFG, INITIAL, TO_THE_APPROVAL[..8]) == ASKING
  {
    hide Apply, Chain, After;
    var k := TO_THE_APPROVAL;
    Submitted();
    GoesPlanning();
    GetsPlanned();
    GetsAsked();
    Chained3(INITIAL, k[0], k[1], k[2]);
    Chained3(SUBMITTED, k[1], k[2], k[3]);
    Chained3(PLANNING, k[3], k[4], k[5]);
    Chained3(PLANNED, k[6], k[7], k[8]);
    ChainJoins(CFG, INITIAL, [k[0]], [k[1], k[2]]);
    ChainJoins(CFG, INITIAL, [k[0]] + [k[1], k[2]], [k[3], k[4], k[5]]);
    ChainJoins(CFG, INITIAL, [k[0]] + [k[1], k[2]] + [k[3], k[4], k[5]], [k[6], k[7]]);
    assert [k[0]] + [k[1], k[2]] + [k[3], k[4], k[5]] + [k[6], k[7]] == k[..8];
  }

  /** The run waits for its approval: planned, asked once, parked. */
  lemma ReachesTheApproval()
    ensures After(CFG, INITIAL, TO_THE_APPROVAL) == PARKED
  {
    hide Apply, Chain, After;
    var k := TO_THE_APPROVAL;
    ReachesTheQuestion();
    GetsParked();
    Chained3(ASKING, k[8], k[8], k[8]);
    ChainJoins(CFG, INITIAL, k[..8], [k[8]]);
    assert k[..8] + [k[8]] == k;
    ChainIsAfter(CFG, INITIAL, k);
  }

  // ---------------------------------------------------------------- what is read of it

  /** The one run's approval is out, and the tick has just read that the run waits for it. */
  predicate AboutToRead(w: World, tick: Tick) {
    && |w.recs| == 1 && |w.recs[0].rows| == 1 && w.stuck == {} && w.tick == tick
    && 0 in w.contexts && w.contexts[0].pending == Some(0) && w.recs[0].rows[0].approval.Some?
  }

  const TO_VISIT: Tick := Between([Snap(0, InState(WaitingApproval))])
  const TO_READ: Tick := Busy(0, InState(WaitingApproval), Reading(0), None, [])
  const TO_REDEEM: Tick := Busy(0, InState(WaitingApproval), Redeeming(0), None, [])

  lemma VisitReads(w: World)
    requires AboutToRead(w, TO_VISIT)
    ensures Apply(CFG, w, Visit(LUCK)) == w.(tick := TO_READ)
  {
    assert w.recs[0 := w.recs[0]] == w.recs && w.contexts[0 := w.contexts[0]] == w.contexts;
    assert w.tick.rest[1..] == [];
  }

  function Redeemed(rec: Record): Record
    requires |rec.rows| == 1
  {
    rec.(rows := [rec.rows[0].(granted := true, redeemed := rec.rows[0].redeemed + 1)])
  }

  lemma ApprovedIsRedeemed(w: World)
    requires AboutToRead(w, TO_READ)
    ensures Apply(CFG, w, Reply(FromApproval(ReadApproved))) == w.(recs := [Redeemed(w.recs[0])], tick := TO_REDEEM)
  {
    var row := w.recs[0].rows[0].(granted := true, redeemed := w.recs[0].rows[0].redeemed + 1);
    assert w.recs[0].rows[0 := row] == [row];
    assert w.recs[0 := Redeemed(w.recs[0])] == [Redeemed(w.recs[0])] && w.contexts[0 := w.contexts[0]] == w.contexts;
  }

  // ---------------------------------------------------------------- three endings

  const LAPSES: seq<Event> := [BeginTick, Visit(LUCK), Reply(FromApproval(ReadLapsed)), BeginTick, Visit(LUCK)]

  const LAPSED: World := OneRun(Record(InState(Running), [PARKED_ROW]), PARKED_CTX, None, Between([]), 3)

  lemma Lapses()
    ensures Apply(CFG, PARKED.(tick := TO_READ), Reply(FromApproval(ReadLapsed))) == LAPSED
  {
    assert LAPSED.recs == PARKED.recs[0 := Record(InState(Running), [PARKED_ROW])];
    assert PARKED.contexts[0 := PARKED_CTX] == LAPSED.contexts;
  }

  /** Coming back to its step, a run ends: the row is there. */
  lemma BackFails(l: Local)
    requires l.rec.run == InState(Running) && |l.rec.rows| == 1 && l.rec.rows[0].ordinal == 1 && l.rec.rows[0].attempt == 1
    requires l.ctx.plan == Some([MAIL]) && l.ctx.cursor == 0 && l.ctx.book == PARKED_BOOK && !l.ctx.cancel
    ensures var seg := Advance(l, CFG, InState(Running), LUCK);
            seg.Stopped? && seg.l.rec.run.state.Failed? && seg.l.rec.rows == l.rec.rows
  {
    assert Taken(l.rec, 1, 1);
    assert CreateRow(l.rec, CapabilityRow, 1, 1) == None;
    assert GuardAttempt(PARKED_BOOK, MAIL_DIGEST).Granted?;
    hide GuardAttempt, CreateRow, Taken;
    var seg := RunCapability(l, CFG, InState(Running), MAIL, 1, 1, LUCK);
    assert seg.Failing? && seg.l.rec == l.rec;
  }

  lemma AskedTwiceFails()
    ensures var w := Apply(CFG, Apply(CFG, LAPSED, BeginTick), Visit(LUCK));
            |w.recs| == 1 && w.recs[0].run.state.Failed? && w.recs[0].rows == [PARKED_ROW]
  {
    hide Advance;
    OneSnap(LAPSED);
    var l := Local(0, Record(InState(Running), [PARKED_ROW]), [], PARKED_CTX, None, false);
    BackFails(l);
    assert Enter(CFG, Apply(CFG, LAPSED, BeginTick), 0) == l;
  }

  /** An approval that lapses is not asked for again: the next advance ends the run FAILED. */
  lemma ALapseEndsFailed()
    ensures var w := After(CFG, INITIAL, TO_THE_APPROVAL + LAPSES);
            |w.recs| == 1 && w.recs[0].run.state.Failed? && w.recs[0].rows == [PARKED_ROW] && PARKED_ROW.asked == 1
  {
    hide Apply, Chain, After;
    var k := LAPSES;
    OneSnap(PARKED);
    VisitReads(PARKED.(tick := TO_VISIT));
    Lapses();
    AskedTwiceFails();
    Chained3(PARKED, k[0], k[1], k[2]);
    Chained3(LAPSED, k[3], k[4], k[4]);
    ChainJoins(CFG, PARKED, [k[0], k[1], k[2]], [k[3], k[4]]);
    assert [k[0], k[1], k[2]] + [k[3], k[4]] == k;
    FromTheApproval(k);
  }

  lemma FromTheApproval(k: seq<Event>)
    ensures After(CFG, INITIAL, TO_THE_APPROVAL + k) == Chain(CFG, PARKED, k)
  {
    hide Apply, Chain, After;
    ReachesTheApproval();
    ChainIsAfter(CFG, INITIAL, TO_THE_APPROVAL);
    ChainIsAfter(CFG, INITIAL, TO_THE_APPROVAL + k);
    ChainJoins(CFG, INITIAL, TO_THE_APPROVAL, k);
  }

  const RAISES: seq<Event> :=
    [BeginTick, Visit(LUCK), Reply(FromApproval(ReadApproved)), Reply(FromRouter(RouterRaised)),
     BeginTick, Visit(LUCK), Reply(FromApproval(ReadApproved))]

  const RAISED_ROW: Row := PARKED_ROW.(granted := true, redeemed := 1, raised := 1)

  const RAISED: World := PARKED.(recs := [Record(InState(WaitingApproval), [RAISED_ROW])])

  lemma Raises()
    ensures Apply(CFG, PARKED.(recs := [Redeemed(PARKED.recs[0])], tick := TO_REDEEM), Reply(FromRouter(RouterRaised)))
            == RAISED
  {
    var w := PARKED.(recs := [Redeemed(PARKED.recs[0])], tick := TO_REDEEM);
    assert w.recs[0].rows[0 := RAISED_ROW] == [RAISED_ROW];
    assert w.recs[0 := RAISED.recs[0]] == RAISED.recs && w.contexts[0 := PARKED_CTX] == w.contexts;
  }

  /** A router that raises on the approved call is called with the same approval a second time. */
  lemma ARaiseCallsTwice()
    ensures var w := After(CFG, INITIAL, TO_THE_APPROVAL + RAISES);
            |w.recs| == 1 && |w.recs[0].rows| == 1 && w.recs[0].rows[0].redeemed == 2 && w.recs[0].rows[0].raised == 1
  {
    hide Apply, Chain, After;
    var k := RAISES;
    OneSnap(PARKED);
    VisitReads(PARKED.(tick := TO_VISIT));
    ApprovedIsRedeemed(PARKED.(tick := TO_READ));
    Raises();
    OneSnap(RAISED);
    VisitReads(RAISED.(tick := TO_VISIT));
    ApprovedIsRedeemed(RAISED.(tick := TO_READ));
    Chained3(PARKED, k[0], k[1], k[2]);
    Chained3(PARKED.(recs := [Redeemed(PARKED.recs[0])], tick := TO_REDEEM), k[3], k[3], k[3]);
    Chained3(RAISED, k[4], k[5], k[6]);
    ChainJoins(CFG, PARKED, [k[0], k[1], k[2]], [k[3]]);
    ChainJoins(CFG, PARKED, [k[0], k[1], k[2]] + [k[3]], [k[4], k[5], k[6]]);
    assert [k[0], k[1], k[2]] + [k[3]] + [k[4], k[5], k[6]] == k;
    FromTheApproval(k);
  }

  const CANCELS: seq<Event> := [BeginTick, Cancel(0), Visit(LUCK), Reply(FromApproval(ReadApproved))]

  const GONE_CTX: Ctx := PARKED_CTX.(cancel := true)

  const GONE: World :=
    OneRun(Record(InState(Cancelled).(failure := CancelledByUser), [PARKED_ROW]), GONE_CTX, None, TO_VISIT, 3)
    .(finishing := {0})

  lemma IsCancelled()
    ensures Apply(CFG, PARKED.(tick := TO_VISIT), Cancel(0)) == GONE
  {
    var w := PARKED.(tick := TO_VISIT);
    assert w.recs[0 := GONE.recs[0]] == GONE.recs && w.contexts[0 := GONE_CTX] == GONE.contexts;
  }

  /** Cancelled while the tick was on its way to it, a run still has its approval read and its approved call made. */
  lemma ACancelledRunIsCalled()
    ensures var w := After(CFG, INITIAL, TO_THE_APPROVAL + CANCELS);
            |w.recs| == 1 && w.recs[0].run.state.Cancelled? && |w.recs[0].rows| == 1 && w.recs[0].rows[0].redeemed == 1
  {
    hide Apply, Chain, After;
    var k := CANCELS;
    OneSnap(PARKED);
    IsCancelled();
    VisitReads(GONE);
    ApprovedIsRedeemed(GONE.(tick := TO_READ));
    Chained3(PARKED, k[0], k[1], k[2]);
    Chained3(GONE.(tick := TO_READ), k[3], k[3], k[3]);
    ChainJoins(CFG, PARKED, [k[0], k[1], k[2]], [k[3]]);
    assert [k[0], k[1], k[2]] + [k[3]] == k;
    FromTheApproval(k);
  }

  // ---------------------------------------------------------------- a boundary

  const POLICY: Event := Reply(FromRouter(Answered(PolicyFailure, None)))

  const BOUNDARY: seq<Event> := TO_THE_APPROVAL[..8] + [POLICY]

  const RESUMED: seq<Event> := [Reply(FromNotice), Resume(0), BeginTick, Visit(LUCK)]

  const FAILED_ROW: Row := ASKED_ROW.(state := RowFailed)

  const AT_BOUNDARY: World :=
    OneRun(Record(InState(WaitingUser).(boundary := true), [FAILED_ROW]), ASKED_CTX, None,
           Busy(0, InState(Running), Boundary(InStep), None, []), 3)

  const BACK_CTX: Ctx := PLANNED_CTX.(book := PARKED_BOOK)
  const BACK: World := OneRun(Record(InState(Running), [FAILED_ROW]), BACK_CTX, None, Between([]), 3)

  lemma GoesToTheUser()
    ensures Apply(CFG, ASKING, POLICY) == AT_BOUNDARY
  {
    var rec := Record(InState(Running), [ASKED_ROW]);
    var l := Enter(CFG, ASKING, 0);
    assert l == Local(0, rec, [], ASKED_CTX, Some(0), false);
    var l1 := MarkRow(Release(l), 0, RowFailed);
    assert SetRowState(rec, 0, RowFailed).rows == [FAILED_ROW];
    assert l1.rec == Record(InState(Running), [FAILED_ROW]) && l1.slot == None && l1.ctx == ASKED_CTX;
    assert AskedBack(l, CFG, InState(Running), 0, MAIL, Answered(PolicyFailure, None)) == OpenBoundary(l1, InStep);
    var seg := OpenBoundary(l1, InStep);
    assert seg.l.rec == AT_BOUNDARY.recs[0] && seg.aw == Boundary(InStep);
    assert ASKING.recs[0 := seg.l.rec] == AT_BOUNDARY.recs && ASKING.contexts[0 := ASKED_CTX] == AT_BOUNDARY.contexts;
  }

  lemma IsResumed()
    ensures Apply(CFG, Apply(CFG, AT_BOUNDARY, Reply(FromNotice)), Resume(0)) == BACK
  {
    var rec := AT_BOUNDARY.recs[0];
    var w := AT_BOUNDARY.(contexts := map[0 := BACK_CTX], tick := Between([]));
    assert NoteStep(ASKED_CTX) == BACK_CTX;
    assert AT_BOUNDARY.recs[0 := rec] == w.recs && AT_BOUNDARY.contexts[0 := BACK_CTX] == w.contexts;
    assert Apply(CFG, AT_BOUNDARY, Reply(FromNotice)) == w;
    assert w.recs[0 := BACK.recs[0]] == BACK.recs && w.contexts[0 := BACK_CTX] == BACK.contexts;
  }

  lemma BackEnds()
    ensures var w := Apply(CFG, Apply(CFG, BACK, BeginTick), Visit(LUCK));
            |w.recs| == 1 && w.recs[0].run.state.Failed? && w.recs[0].rows == [FAILED_ROW]
  {
    hide Advance;
    OneSnap(BACK);
    BackFails(Local(0, BACK.recs[0], [], BACK_CTX, None, false));
    assert Enter(CFG, Apply(CFG, BACK, BeginTick), 0) == Local(0, BACK.recs[0], [], BACK_CTX, None, false);
  }

  /** A step refused by policy leads to the user, and the run that is resumed ends FAILED. */
  lemma ABoundaryEndsFailed()
    ensures After(CFG, INITIAL, BOUNDARY) == AT_BOUNDARY && AT_BOUNDARY.recs[0].run.state.WaitingUser?
    ensures var w := After(CFG, INITIAL, BOUNDARY + RESUMED);
            |w.recs| == 1 && w.recs[0].run.state.Failed? && w.recs[0].rows == [FAILED_ROW]
  {
    hide Apply, Chain, After;
    var k := RESUMED;
    ReachesTheQuestion();
    GoesToTheUser();
    IsResumed();
    BackEnds();
    Chained3(ASKING, POLICY, POLICY, POLICY);
    Chained3(AT_BOUNDARY, k[0], k[1], k[1]);
    Chained3(BACK, k[2], k[3], k[3]);
    ChainJoins(CFG, INITIAL, TO_THE_APPROVAL[..8], [POLICY]);
    ChainIsAfter(CFG, INITIAL, BOUNDARY);
    ChainJoins(CFG, AT_BOUNDARY, [k[0], k[1]], [k[2], k[3]]);
    assert [k[0], k[1]] + [k[2], k[3]] == k;
    ChainJoins(CFG, INITIAL, BOUNDARY, k);
    ChainIsAfter(CFG, INITIAL, BOUNDARY + k);
  }

  // ---------------------------------------------------------------- a wait for the slot

  /** The first run waits for its approval, and there is a second one. */
  function Pair(rec: Record, ctx: Ctx, tick: Tick, advances: nat): World {
    World([PARKED.recs[0], rec], map[0 := PARKED_CTX, 1 := ctx], Some(0), tick, {}, {}, [3, advances], 0)
  }

  const STILL_OUT: seq<Event> := [BeginTick, Visit(LUCK), Reply(FromApproval(ReadPending))]

  function Turn(rec: Record): Tick { Between([Snap(1, rec.run)]) }

  lemma TwoSnaps(rec: Record)
    requires !rec.run.state.Terminal()
    ensures OpenSnaps([PARKED.recs[0], rec]) == [Snap(0, PARKED.recs[0].run), Snap(1, rec.run)]
    ensures CountActive([PARKED.recs[0], rec]) <= 1
  {
    var recs := [PARKED.recs[0], rec];
    assert recs[..1] == [PARKED.recs[0]] && recs[..1][..0] == [];
    assert OpenSnaps(recs[..1]) == [Snap(0, PARKED.recs[0].run)];
    assert CountActive(recs[..1]) == 0;
  }

  /** The approval is still out: the tick comes to the second run. */
  lemma StillOut(rec: Record, ctx: Ctx, advances: nat)
    requires !rec.run.state.Terminal()
    ensures Chain(CFG, Pair(rec, ctx, Between([]), advances), STILL_OUT) == Pair(rec, ctx, Turn(rec), advances)
  {
    var k := STILL_OUT;
    var w := Pair(rec, ctx, Between([]), advances);
    var s := Snap(1, rec.run);
    TwoSnaps(rec);
    var w1 := Pair(rec, ctx, Between([Snap(0, PARKED.recs[0].run), s]), advances);
    var w2 := Pair(rec, ctx, Busy(0, InState(WaitingApproval), Reading(0), None, [s]), advances);
    assert Apply(CFG, w, k[0]) == w1;
    assert w1.tick.rest[1..] == [s];
    assert w.recs[0 := w.recs[0]] == w.recs && w.contexts[0 := PARKED_CTX] == w.contexts;
    assert Apply(CFG, w1, k[1]) == w2;
    assert Apply(CFG, w2, k[2]) == Pair(rec, ctx, Turn(rec), advances);
    hide Apply, Chain;
    Chained3(w, k[0], k[1], k[2]);
  }

  const SECOND_PLANNING: Record := Record(InState(Planning), [])
  const SECOND_PLANNED: Record := Record(InState(Running), [])
  const WAITING_ROW: Row := FreshRow(CapabilityRow, 1, 1).(state := RowWaiting)
  const SECOND_WAITING: Record := Record(InState(Running), [WAITING_ROW])

  const SECOND_COMES: World := Pair(NewRecord(Research), NewCtx(LIMITS), Between([]), 0)

  lemma SecondSubmitted()
    ensures Apply(CFG, PARKED, Submit(Research)) == SECOND_COMES
  {
  }

  lemma SecondGoesPlanning()
    ensures Apply(CFG, Pair(NewRecord(Research), NewCtx(LIMITS), Turn(NewRecord(Research)), 0), Visit(LUCK))
            == Pair(SECOND_PLANNING, NewCtx(LIMITS), Between([]), 1)
  {
    TwoSnaps(NewRecord(Research));
    var w := SECOND_COMES;
    assert Turn(NewRecord(Research)).rest[1..] == [];
    assert w.recs[1 := SECOND_PLANNING] == [PARKED.recs[0], SECOND_PLANNING] && w.advances[1 := 1] == [3, 1];
    assert w.contexts[1 := NewCtx(LIMITS)] == w.contexts;
  }

  lemma SecondGetsPlanned()
    ensures Apply(CFG, Apply(CFG, Pair(SECOND_PLANNING, NewCtx(LIMITS), Turn(SECOND_PLANNING), 1), Visit(LUCK)),
                  Reply(FromPlanner(Proposed([MAIL]), Unavailable)))
            == Pair(SECOND_PLANNED, PLANNED_CTX, Between([]), 2)
  {
    var w := Pair(SECOND_PLANNING, NewCtx(LIMITS), Turn(SECOND_PLANNING), 1);
    assert w.tick.rest[1..] == [] && w.recs[1 := SECOND_PLANNING] == w.recs;
    assert w.contexts[1 := NewCtx(LIMITS)] == w.contexts && w.advances[1 := 2] == [3, 2];
    assert Plannable([MAIL], Research);
    var w1 := Pair(SECOND_PLANNING, NewCtx(LIMITS), Busy(1, InState(Planning), Planner(InPlanning), None, []), 2);
    assert Apply(CFG, w, Visit(LUCK)) == w1;
    assert w1.recs[1 := SECOND_PLANNED] == [PARKED.recs[0], SECOND_PLANNED];
    assert w1.contexts[1 := PLANNED_CTX] == map[0 := PARKED_CTX, 1 := PLANNED_CTX];
  }

  lemma FindsIt()
    ensures var l := Local(1, SECOND_PLANNED, [], PLANNED_CTX, Some(0), false);
            && FindsSlotTaken(CFG, l, LUCK)
            && var seg := Advance(l, CFG, InState(Running), LUCK);
               && seg.Stopped? && seg.aw == Done && seg.l.rec == SECOND_WAITING && seg.l.ctx == BACK_CTX
               && seg.l.slot == Some(0) && !seg.l.stuck
  {
    var l := Local(1, SECOND_PLANNED, [], PLANNED_CTX, Some(0), false);
    var l1 := l.(ctx := ASKED_CTX);
    assert GuardAttempt(PLANNED_BOOK, MAIL_DIGEST) == Granted(ASKED_BOOK);
    var row := FreshRow(CapabilityRow, 1, 1);
    assert l1.rec.rows + [row] == [row];
    assert CreateRow(l1.rec, CapabilityRow, 1, 1) == Some(Record(InState(Running), [row]));
    var l2 := MarkRow(Write(l1, Record(InState(Running), [row])), 0, RowRunning);
    assert l2.rec.rows == [row.(state := RowRunning)];
    assert SetRowState(l2.rec, 0, RowWaiting).rows == [WAITING_ROW];
    assert NoteStep(ASKED_CTX) == BACK_CTX;
    var l3 := MarkRow(l2, 0, RowWaiting);
    assert l3.rec == SECOND_WAITING && l3.slot == Some(0) && l3.ctx == ASKED_CTX;
    hide GuardAttempt, CreateRow, MarkRow;
    assert RunCapability(l, CFG, InState(Running), MAIL, 1, 1, LUCK) == Stopped(l3, Done);
  }

  lemma SecondWaits()
    ensures var w := Pair(SECOND_PLANNED, PLANNED_CTX, Turn(SECOND_PLANNED), 2);
            && FindsSlotTaken(CFG, Enter(CFG, w, 1), LUCK)
            && Apply(CFG, w, Visit(LUCK)) == Pair(SECOND_WAITING, BACK_CTX, Between([]), 3)
  {
    hide Advance, FindsSlotTaken;
    FindsIt();
    var w := Pair(SECOND_PLANNED, PLANNED_CTX, Turn(SECOND_PLANNED), 2);
    assert Enter(CFG, w, 1) == Local(1, SECOND_PLANNED, [], PLANNED_CTX, Some(0), false);
    assert w.tick.rest[1..] == [] && w.recs[1 := SECOND_WAITING] == [PARKED.recs[0], SECOND_WAITING];
    assert w.contexts[1 := BACK_CTX] == map[0 := PARKED_CTX, 1 := BACK_CTX] && w.advances[1 := 3] == [3, 3];
  }

  lemma SecondEnds()
    ensures var w := Apply(CFG, Pair(SECOND_WAITING, BACK_CTX, Turn(SECOND_WAITING), 3), Visit(LUCK));
            |w.recs| == 2 && w.recs[1].run.state.Failed? && w.recs[1].rows == [WAITING_ROW]
  {
    hide Advance;
    var w := Pair(SECOND_WAITING, BACK_CTX, Turn(SECOND_WAITING), 3);
    var l := Local(1, SECOND_WAITING, [], BACK_CTX, Some(0), false);
    BackFails(l);
    assert Enter(CFG, w, 1) == l;
  }

  const SECOND_PLANS: seq<Event> := [Visit(LUCK), Reply(FromPlanner(Proposed([MAIL]), Unavailable))]

  /** A second run comes, is planned, and gets its turn for the step that needs an approval. */
  const TO_THE_SLOT: seq<Event> :=
    [Submit(Research)] + STILL_OUT + [Visit(LUCK)] + STILL_OUT + SECOND_PLANS + STILL_OUT

  lemma ReachesTheSlot()
    ensures Chain(CFG, PARKED, TO_THE_SLOT) == Pair(SECOND_PLANNED, PLANNED_CTX, Turn(SECOND_PLANNED), 2)
  {
    hide Apply, Chain, Pair;
    SecondSubmitted();
    SecondGoesPlanning();
    SecondGetsPlanned();
    StillOut(NewRecord(Research), NewCtx(LIMITS), 0);
    StillOut(SECOND_PLANNING, NewCtx(LIMITS), 1);
    StillOut(SECOND_PLANNED, PLANNED_CTX, 2);
    var visit, plans, out := [Visit(LUCK)], SECOND_PLANS, STILL_OUT;
    Chained3(PARKED, Submit(Research), BeginTick, BeginTick);
    Chained3(Pair(NewRecord(Research), NewCtx(LIMITS), Turn(NewRecord(Research)), 0), Visit(LUCK), BeginTick, BeginTick);
    Chained3(Pair(SECOND_PLANNING, NewCtx(LIMITS), Turn(SECOND_PLANNING), 1), plans[0], plans[1], BeginTick);
    var one := [Submit(Research)];
    ChainJoins(CFG, PARKED, one, out);
    ChainJoins(CFG, PARKED, one + out, visit);
    ChainJoins(CFG, PARKED, one + out + visit, out);
    ChainJoins(CFG, PARKED, one + out + visit + out, plans);
    ChainJoins(CFG, PARKED, one + out + visit + out + plans, out);
  }

  /** Who finds the slot taken is not let in later: the next advance ends the run FAILED. */
  lemma ASlotWaitEndsFailed()
    ensures var w := After(CFG, INITIAL, TO_THE_APPROVAL + TO_THE_SLOT);
            && w.tick == Turn(SECOND_PLANNED) && SECOND_PLANNED.run.state.Running? && |w.recs| == 2
            && FindsSlotTaken(CFG, Enter(CFG, w, 1), LUCK)
    ensures var w := After(CFG, INITIAL, TO_THE_APPROVAL + (TO_THE_SLOT + [Visit(LUCK)] + STILL_OUT + [Visit(LUCK)]));
            |w.recs| == 2 && w.recs[1].run.state.Failed? && w.recs[1].rows == [WAITING_ROW] && WAITING_ROW.asked == 0
  {
    hide Apply, Chain, After, FindsSlotTaken;
    var visit := [Visit(LUCK)];
    ReachesTheSlot();
    SecondWaits();
    StillOut(SECOND_WAITING, BACK_CTX, 3);
    SecondEnds();
    Chained3(Pair(SECOND_PLANNED, PLANNED_CTX, Turn(SECOND_PLANNED), 2), Visit(LUCK), BeginTick, BeginTick);
    Chained3(Pair(SECOND_WAITING, BACK_CTX, Turn(SECOND_WAITING), 3), Visit(LUCK), BeginTick, BeginTick);
    ChainJoins(CFG, PARKED, TO_THE_SLOT, visit);
    ChainJoins(CFG, PARKED, TO_THE_SLOT + visit, STILL_OUT);
    ChainJoins(CFG, PARKED, TO_THE_SLOT + visit + STILL_OUT, visit);
    FromTheApproval(TO_THE_SLOT);
    FromTheApproval(TO_THE_SLOT + visit + STILL_OUT + visit);
  }
}
