/**
 The state machine of a development milestone: the closed table of edges, the remembered
 origin of a park, and the four measured conditions of READY.
 */
module MilestoneMachine {
  import opened Basics

  datatype State =
    | Planning | Building | Testing | Reviewing | Fixing
    | Ready | HumanRequired | Blocked | Stopped
  {
    predicate Terminal() { Ready? || Stopped? }

    predicate Parked() { HumanRequired? || Blocked? }

    /** Where a park may have come from, and may lead back to. */
    predicate Working() { Planning? || Building? || Testing? || Reviewing? || Fixing? }
  }

  function Edges(s: State): set<State> {
    match s
    case Planning => {Building, HumanRequired, Blocked, Stopped}
    case Building => {Testing, HumanRequired, Blocked, Stopped}
    case Testing => {Reviewing, Blocked, Stopped}
    case Reviewing => {Ready, Fixing, Building, HumanRequired, Blocked, Stopped}
    case Fixing => {Testing, HumanRequired, Blocked, Stopped}
    case Blocked => {Planning, Building, Fixing, Stopped}
    case HumanRequired => {Planning, Building, Testing, Reviewing, Fixing, Stopped}
    case Ready => {}
    case Stopped => {}
  }

  datatype EvidenceKind = TestReport | GitCommit

  datatype Evidence = Evidence(kind: EvidenceKind, commit: string, env: string, ok: bool)

  datatype CriterionState = OpenCriterion | Proven(evidence: nat) | Refuted

  /** A criterion of the pinned contract; a deterministic one is for measurements only. */
  datatype Criterion = Criterion(key: string, deterministic: bool, state: CriterionState)

  datatype Severity = BlockerFinding | Major | Minor | Info

  datatype Finding = Finding(severity: Severity, open: bool)

  datatype PhaseKind = BuildPhase | TestPhase | ReviewPhase

  datatype PhaseState = PhaseRunning | PhaseSucceeded | PhaseFailed | PhaseQuota | PhaseUnavailable | PhaseInterrupted

  /** `digest` is the fingerprint of a build attempt: its builder and its task. */
  datatype Phase = Phase(kind: PhaseKind, builder: string, digest: (string, string), state: PhaseState)

  datatype BlockReason = Capacity | ContractChangeRequired | BuilderUnavailableAll

  datatype Book = Book(state: State, origin: Option<State>, blockReason: Option<BlockReason>, resumeAt: nat,
                       lastCommit: string, task: string, evidence: seq<Evidence>, criteria: seq<Criterion>,
                       findings: seq<Finding>, boundaries: nat, phases: seq<Phase>)

  datatype ReadyGap = GateNotGreen | NoCriteria | Incomplete | BlockingFindings | NoReadyVerdict

  datatype Refusal =
    | TerminalState | BoundaryStillOpen | UnparkMismatch | BadOrigin | EdgeNotAllowed
    | ReadyRefused(gap: ReadyGap) | NoTestEvidence | StaleEvidence | UnknownBlockReason | NoOpenBoundary

  datatype Move = Moved(book: Book) | Refused(why: Refusal)

  // ---------------------------------------------------------------- READY

  function CountProven(cs: seq<Criterion>): nat {
    if cs == [] then 0 else CountProven(cs[..|cs| - 1]) + if cs[|cs| - 1].state.Proven? then 1 else 0
  }

  predicate Blocking(f: Finding) {
    f.open && (f.severity.BlockerFinding? || f.severity.Major?)
  }

  predicate AnyBlocking(fs: seq<Finding>) {
    exists i :: 0 <= i < |fs| && Blocking(fs[i])
  }

  predicate Green(b: Book, gate: Option<nat>) {
    gate.Some? && gate.value < |b.evidence| && b.evidence[gate.value].ok && b.evidence[gate.value].kind.TestReport?
  }

  /** The first condition of READY that is not met; measurements before opinions. */
  function ReadyCheck(b: Book, gate: Option<nat>, verdictReady: bool): Option<ReadyGap> {
    if !Green(b, gate) then Some(GateNotGreen)
    else if |b.criteria| == 0 then Some(NoCriteria)
    else if CountProven(b.criteria) != |b.criteria| then Some(Incomplete)
    else if AnyBlocking(b.findings) then Some(BlockingFindings)
    else if !verdictReady then Some(NoReadyVerdict)
    else None
  }

  predicate AllProven(cs: seq<Criterion>) {
    forall i :: 0 <= i < |cs| ==> cs[i].state.Proven?
  }

  lemma {:induction false} CountMeansAll(cs: seq<Criterion>)
    ensures CountProven(cs) <= |cs|
    ensures CountProven(cs) == |cs| <==> AllProven(cs)
  {
    if cs != [] {
      var n := |cs| - 1;
      CountMeansAll(cs[..n]);
      assert AllProven(cs) <==> AllProven(cs[..n]) && cs[n].state.Proven?;
    }
  }

  /** An open finding that is a blocker or major. */
  predicate AnyGrave(fs: seq<Finding>) {
    exists i :: 0 <= i < |fs| && fs[i].open && fs[i].severity in {BlockerFinding, Major}
  }

  lemma GraveBlocks(fs: seq<Finding>)
    ensures AnyBlocking(fs) <==> AnyGrave(fs)
  {
    forall i | 0 <= i < |fs| ensures Blocking(fs[i]) <==> fs[i].open && fs[i].severity in {BlockerFinding, Major} {
    }
  }

  /**
   What READY is worth: an ok test report, every criterion proven and at least one, no open
   finding above minor, and the verdict; the gap that is named is the first one, in this order.
   */
  lemma ReadyCheckExact(b: Book, gate: Option<nat>, verdictReady: bool)
    ensures var ok := gate.Some? && gate.value < |b.evidence|
                      && b.evidence[gate.value].kind == TestReport && b.evidence[gate.value].ok;
            var proven := forall i :: 0 <= i < |b.criteria| ==> b.criteria[i].state.Proven?;
            ReadyCheck(b, gate, verdictReady)
            == if !ok then Some(GateNotGreen) else if b.criteria == [] then Some(NoCriteria)
               else if !proven then Some(Incomplete) else if AnyGrave(b.findings) then Some(BlockingFindings)
               else if !verdictReady then Some(NoReadyVerdict) else None
  {
    CountMeansAll(b.criteria);
    GraveBlocks(b.findings);
    assert AllProven(b.criteria) <==> forall i :: 0 <= i < |b.criteria| ==> b.criteria[i].state.Proven?;
  }

  // ---------------------------------------------------------------- transitions

  /** May this way be gone at all? The table, or for a park the remembered origin. */
  function EdgeCheck(b: Book, target: State): Option<Refusal> {
    if b.state.Terminal() then Some(TerminalState)
    else if b.state.Parked() && !target.Stopped? then
      if b.boundaries > 0 && b.state.HumanRequired? then Some(BoundaryStillOpen)
      else if Some(target) != b.origin then Some(UnparkMismatch)
      else if !target.Working() then Some(BadOrigin)
      else None
    else if target !in Edges(b.state) then Some(EdgeNotAllowed)
    else None
  }

  /** May it be gone today? */
  function Prerequisite(b: Book, target: State, gate: Option<nat>, verdictReady: bool,
                        reason: Option<BlockReason>): Option<Refusal> {
    if target.Ready? && ReadyCheck(b, gate, verdictReady).Some? then
      Some(ReadyRefused(ReadyCheck(b, gate, verdictReady).value))
    else if target.Reviewing? && b.state.Testing?
            && (gate.None? || gate.value >= |b.evidence| || !b.evidence[gate.value].kind.TestReport?) then Some(NoTestEvidence)
    else if target.Reviewing? && b.state.Testing?
            && (b.evidence[gate.value].commit != b.lastCommit || b.evidence[gate.value].commit == "") then Some(StaleEvidence)
    else if target.Blocked? && reason.None? then Some(UnknownBlockReason)
    else if target.HumanRequired? && b.boundaries == 0 then Some(NoOpenBoundary)
    else None
  }

  function Enter(b: Book, target: State, reason: Option<BlockReason>, resumeAt: nat): Book {
    var b1 := if target.Parked() then b.(origin := Some(b.state))
              else if b.state.Parked() then b.(origin := None) else b;
    var b2 := if target.Blocked? then b1.(blockReason := reason, resumeAt := resumeAt)
              else if b.state.Blocked? then b1.(blockReason := None, resumeAt := 0) else b1;
    b2.(state := target)
  }

  function Transition(b: Book, target: State, gate: Option<nat>, verdictReady: bool,
                      reason: Option<BlockReason>, resumeAt: nat): Move {
    var edge := EdgeCheck(b, target);
    if edge.Some? then Refused(edge.value)
    else
      var pre := Prerequisite(b, target, gate, verdictReady, reason);
      if pre.Some? then Refused(pre.value) else Moved(Enter(b, target, reason, resumeAt))
  }

  /** A plain move, as most callers make it. */
  function Step(b: Book, target: State): Move {
    Transition(b, target, None, false, None, 0)
  }

  function OpenBoundary(b: Book): Book {
    b.(boundaries := b.boundaries + 1)
  }

  /** `park`: the boundary is opened first, and stays open when the move is refused. */
  function Park(b: Book): (Book, Option<Refusal>) {
    match Step(OpenBoundary(b), HumanRequired)
    case Moved(b') => (b', None)
    case Refused(why) => (OpenBoundary(b), Some(why))
  }

  // ---------------------------------------------------------------- what always holds

  const GATE_KEYS: set<string> := {"gate", "gate_green", "tests", "test_gate"}

  predicate Measured(b: Book, commit: string) {
    exists i :: 0 <= i < |b.evidence| && b.evidence[i].kind.TestReport? && b.evidence[i].commit == commit
  }

  predicate MeasuredGreen(b: Book, commit: string) {
    exists i :: 0 <= i < |b.evidence| && b.evidence[i].kind.TestReport? && b.evidence[i].commit == commit && b.evidence[i].ok
  }

  /** A proven criterion cites evidence; one that must be measured cites a green measurement of the gate itself. */
  predicate Backed(b: Book, c: Criterion) {
    c.state.Proven? ==>
      && c.state.evidence < |b.evidence|
      && (c.deterministic ==>
            c.key in GATE_KEYS && b.evidence[c.state.evidence].kind.TestReport? && b.evidence[c.state.evidence].ok)
  }

  predicate ReadyFacts(b: Book) {
    && b.lastCommit != "" && MeasuredGreen(b, b.lastCommit)
    && |b.criteria| > 0 && AllProven(b.criteria) && !AnyBlocking(b.findings)
  }

  predicate Sound(b: Book) {
    && (b.state.Parked() <==> b.origin.Some?)
    && (b.origin.Some? ==> b.origin.value.Working())
    && (b.state.Blocked? <==> b.blockReason.Some?)
    && (b.state.Reviewing? || b.origin == Some(Reviewing) ==> b.lastCommit != "" && Measured(b, b.lastCommit))
    && (forall i :: 0 <= i < |b.criteria| ==> Backed(b, b.criteria[i]))
    && (b.state.Ready? ==> ReadyFacts(b))
  }

  /** Whoever asks for READY vouches that the report it cites is one for the last commit. */
  predicate ForLastCommit(b: Book, gate: Option<nat>) {
    gate.Some? && gate.value < |b.evidence| ==> b.evidence[gate.value].commit == b.lastCommit
  }

  lemma TransitionKeeps(b: Book, target: State, gate: Option<nat>, verdictReady: bool, reason: Option<BlockReason>,
                        resumeAt: nat)
    requires Sound(b) && (target.Ready? ==> ForLastCommit(b, gate))
    ensures var m := Transition(b, target, gate, verdictReady, reason, resumeAt);
            && (m.Moved? ==> Sound(m.book) && m.book.state == target)
            && (target.Ready? && m.Moved? ==> b.state.Reviewing? && verdictReady)
  {
    CountMeansAll(b.criteria);
    var m := Transition(b, target, gate, verdictReady, reason, resumeAt);
    if m.Moved? {
      assert m.book.evidence == b.evidence && m.book.criteria == b.criteria;
      forall i | 0 <= i < |b.criteria| ensures Backed(m.book, m.book.criteria[i]) {
        assert Backed(b, b.criteria[i]);
      }
      if target.Reviewing? && b.state.Testing? {
        assert b.evidence[gate.value].commit == b.lastCommit;
      }
      if target.Ready? {
        assert b.evidence[gate.value].commit == b.lastCommit;
      }
    }
  }

  /**
   Parking is faithful: out of a park there are exactly two ways, back to the working state
   it came from (for a human boundary only once every boundary is answered) and to STOPPED.
   */
  lemma ParkIsFaithful(b: Book, target: State, gate: Option<nat>, verdictReady: bool, reason: Option<BlockReason>,
                       resumeAt: nat)
    requires Sound(b) && b.state.Parked()
    ensures Transition(b, target, gate, verdictReady, reason, resumeAt).Moved?
            <==> target.Stopped? || (Some(target) == b.origin && (b.state.HumanRequired? ==> b.boundaries == 0))
    ensures Transition(b, target, gate, verdictReady, reason, resumeAt).Moved? ==>
              var b' := Transition(b, target, gate, verdictReady, reason, resumeAt).book;
              b' == b.(state := target, origin := None, blockReason := None,
                       resumeAt := if b.state.Blocked? then 0 else b.resumeAt)
  {
  }

  /** A park taken and left again is as if it had not happened, apart from the boundary that was answered. */
  lemma ParkRoundTrip(b: Book)
    requires Sound(b) && b.state.Working() && !b.state.Testing? && b.boundaries == 0
    ensures var (parked, refusal) := Park(b);
            && refusal.None? && Sound(parked) && parked.state.HumanRequired? && parked.boundaries == 1
            && Step(parked.(boundaries := 0), b.state) == Moved(b)
  {
    TransitionKeeps(OpenBoundary(b), HumanRequired, None, false, None, 0);
    assert Sound(OpenBoundary(b)) by {
      forall i | 0 <= i < |b.criteria| ensures Backed(OpenBoundary(b), b.criteria[i]) {
        assert Backed(b, b.criteria[i]);
      }
    }
  }

  /**
   When a milestone can be parked, exactly: while it is planned, built, reviewed or fixed.
   Everywhere else (while it is tested, parked already, or ended, also by its owner) the move
   is refused, but the boundary has been opened and stays.
   */
  lemma ParkExactly(b: Book)
    requires Sound(b)
    ensures Park(b).1.None? <==> b.state.Planning? || b.state.Building? || b.state.Reviewing? || b.state.Fixing?
    ensures Park(b).1.None? ==>
              Park(b).0 == b.(state := HumanRequired, origin := Some(b.state), boundaries := b.boundaries + 1)
    ensures Park(b).1.Some? ==> Park(b).0 == b.(boundaries := b.boundaries + 1)
    ensures Park(b).1.Some? ==>
              Park(b).1.value == if b.state.Terminal() then TerminalState
                                 else if b.state.HumanRequired? then BoundaryStillOpen
                                 else if b.state.Blocked? then UnparkMismatch else EdgeNotAllowed
  {
    assert !HumanRequired.Working();
  }

  /**
   The moves out of a working state, all of them and when: a test report for the last commit
   opens the review, the conditions of READY end it, a reason is named for a block and a
   boundary is open for a park. What is parked remembers where it was.
   */
  lemma MovesExactly(b: Book, target: State, gate: Option<nat>, verdictReady: bool, reason: Option<BlockReason>,
                     resumeAt: nat)
    requires b.state.Working()
    ensures var m := Transition(b, target, gate, verdictReady, reason, resumeAt);
            var reported := gate.Some? && gate.value < |b.evidence| && b.evidence[gate.value].kind == TestReport
                            && b.evidence[gate.value].commit == b.lastCommit != "";
            && (m.Moved?
                <==> target == Stopped
                     || (target == Blocked && reason.Some?)
                     || (target == HumanRequired && b.boundaries > 0 && b.state != Testing)
                     || (b.state, target) in {(Planning, Building), (Building, Testing), (Fixing, Testing),
                                              (Reviewing, Fixing), (Reviewing, Building)}
                     || (b.state == Testing && target == Reviewing && reported)
                     || (b.state == Reviewing && target == Ready && ReadyCheck(b, gate, verdictReady).None?))
            && (m.Moved? && target in {Blocked, HumanRequired} ==>
                  m.book == b.(state := target, origin := Some(b.state),
                               blockReason := if target == Blocked then reason else b.blockReason,
                               resumeAt := if target == Blocked then resumeAt else b.resumeAt))
            && (m.Moved? && target !in {Blocked, HumanRequired} ==> m.book == b.(state := target))
  {
    hide ReadyCheck;
  }

  /** No verdict makes a red gate READY: what is accepted has been measured. */
  lemma NoRedReady(b: Book, gate: Option<nat>, verdictReady: bool)
    requires Transition(b, Ready, gate, verdictReady, None, 0).Moved?
    ensures Green(b, gate) && |b.criteria| > 0 && AllProven(b.criteria) && !AnyBlocking(b.findings)
    ensures verdictReady && b.state.Reviewing?
  {
    CountMeansAll(b.criteria);
  }

  /**
   By itself the machine would accept a report about another commit: the comparison is the
   caller's. A milestone under review shows it.
   */
  lemma StaleReportIsAccepted()
    ensures exists b: Book, gate: nat ::
              && Sound(b) && b.state.Reviewing? && gate < |b.evidence| && b.evidence[gate].commit != b.lastCommit
              && Transition(b, Ready, Some(gate), true, None, 0).Moved?
  {
    var before := Evidence(TestReport, "old", "", true);
    var now := Evidence(TestReport, "now", "", false);
    var b := Book(Reviewing, None, None, 0, "now", "", [before, now],
                  [Criterion("gate", true, Proven(0))], [], 0, []);
    assert b.evidence[1].commit == "now";
    assert CountProven(b.criteria) == 1 by { CountMeansAll(b.criteria); }
    assert Sound(b) && b.evidence[0].commit != b.lastCommit;
    assert Transition(b, Ready, Some(0), true, None, 0).Moved?;
  }

  /**
   A criterion that must be measured, under a key the gate does not measure, keeps the
   milestone from READY for good.
   */
  lemma UnmeasuredNeverReady(b: Book, i: nat)
    requires Sound(b) && i < |b.criteria| && b.criteria[i].deterministic && b.criteria[i].key !in GATE_KEYS
    ensures !b.state.Ready?
    ensures forall gate: Option<nat>, verdictReady: bool :: Transition(b, Ready, gate, verdictReady, None, 0).Refused?
  {
    CountMeansAll(b.criteria);
    assert Backed(b, b.criteria[i]);
  }
}
