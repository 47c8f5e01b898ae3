/**
 The driver: it turns the circle of building, testing, reviewing and fixing until the
 milestone is READY, parked or stopped. Builders, measurements and the lead answer as they
 like; the owner may stop the milestone at any moment.
 */
module AutopilotDriver {
  import opened Basics
  import opened BuilderChoice
  import opened LeadVerdict
  import opened MilestoneLedger
  import opened MilestoneMachine

  const LOOP_THRESHOLD: nat := 2
  const MAX_CITED: nat := 8
  const CONDITIONS := "Bedingungen erfuellen"

  // ---------------------------------------------------------------- the outside world

  datatype BuildReply = QuotaHit | CannotBuild | Ran(ok: bool)

  /** One builder's turn, should it come: its reply, the checkpoint after it, HEAD, and the publication. */
  datatype Turn = Turn(reply: BuildReply, checkpointOk: bool, commit: string, head: string,
                       unpublished: Option<Severity>)

  /** A measurement of the gate: of which commit, in which environment, and whether it could be taken and was green. */
  datatype Gauge = Gauge(head: string, env: string, taken: bool, green: bool)

  /**
   What a round meets: capacities, builders' turns, a contract proposal, the gate, the lead,
   and the evidence the chronicle shows.
   */
  datatype Luck = Luck(options: map<string, Capacity>, turns: map<string, Turn>, proposal: bool, gauge: Gauge,
                       small: Call, large: Call, recent: seq<nat>, now: nat)

  // ---------------------------------------------------------------- accounts over the chronicle

  /** How often an attempt of this digest has failed; a quota end is none. */
  function Failures(phases: seq<Phase>, digest: (string, string)): nat {
    if phases == [] then 0
    else
      var p := phases[|phases| - 1];
      Failures(phases[..|phases| - 1], digest) + if p.digest == digest && p.state.PhaseFailed? then 1 else 0
  }

  function FailedAt(phases: seq<Phase>, digest: (string, string)): set<int> {
    set k | 0 <= k < |phases| && phases[k].digest == digest && phases[k].state == PhaseFailed
  }

  lemma OneMoreFailed(phases: seq<Phase>, digest: (string, string))
    requires phases != []
    ensures var n := |phases| - 1;
            && n !in FailedAt(phases[..n], digest)
            && FailedAt(phases, digest) == FailedAt(phases[..n], digest)
               + if phases[n].digest == digest && phases[n].state == PhaseFailed then {n} else {}
  {
  }

  /** The account of failures is the number of phases of this digest that have failed. */
  lemma {:induction false} FailuresCount(phases: seq<Phase>, digest: (string, string))
    ensures Failures(phases, digest) == |FailedAt(phases, digest)|
  {
    if phases == [] {
      assert FailedAt(phases, digest) == {};
    } else {
      FailuresCount(phases[..|phases| - 1], digest);
      OneMoreFailed(phases, digest);
      hide FailedAt;
    }
  }

  lemma {:induction false} FailuresSnoc(phases: seq<Phase>, p: Phase, digest: (string, string))
    ensures Failures(phases + [p], digest)
            == Failures(phases, digest) + if p.digest == digest && p.state.PhaseFailed? then 1 else 0
  {
    assert (phases + [p])[..|phases|] == phases;
  }

  /** The newest evidence of this kind for exactly this commit in exactly this environment. */
  function FreshEvidence(evidence: seq<Evidence>, commit: string, env: string): (found: Option<nat>)
    ensures found.Some? ==> found.value < |evidence| && evidence[found.value].kind.TestReport?
                            && evidence[found.value].commit == commit && evidence[found.value].env == env
    ensures found.None? ==> forall i :: 0 <= i < |evidence| ==>
              !(evidence[i].kind.TestReport? && evidence[i].commit == commit && evidence[i].env == env)
  {
    if evidence == [] then None
    else
      var n := |evidence| - 1;
      if evidence[n].kind.TestReport? && evidence[n].commit == commit && evidence[n].env == env then Some(n)
      else FreshEvidence(evidence[..n], commit, env)
  }

  function DeterministicKeys(cs: seq<Criterion>): set<string> {
    set i | 0 <= i < |cs| && cs[i].deterministic :: cs[i].key
  }

  function Keys(cs: seq<Criterion>): set<string> {
    set i | 0 <= i < |cs| :: cs[i].key
  }

  function OpenIds(fs: seq<Finding>): set<nat> {
    set i | 0 <= i < |fs| && fs[i].open
  }

  /** A state, unless the owner has stopped the milestone meanwhile. */
  predicate In(b: Book, states: set<State>) {
    b.state in states || b.state.Stopped?
  }

  predicate Distinct(names: seq<string>) {
    forall i, j :: 0 <= i < j < |names| ==> names[i] != names[j]
  }

  lemma {:induction false} DistinctCount(names: seq<string>, among: set<string>)
    requires Distinct(names) && forall n :: n in names ==> n in among
    ensures |names| <= |among|
  {
    if names != [] {
      var last := names[|names| - 1];
      var rest := names[..|names| - 1];
      forall n | n in rest ensures n in among - {last} {
      }
      DistinctCount(rest, among - {last});
    }
  }

  ghost predicate SameFailures(a: seq<Phase>, b: seq<Phase>) {
    forall d :: Failures(a, d) == Failures(b, d)
  }

  ghost predicate OneMoreFailure(a: seq<Phase>, b: seq<Phase>, digest: (string, string)) {
    forall d :: Failures(b, d) <= Failures(a, d) + if d == digest then 1 else 0
  }

  /** One more phase is one more failure at most, of its own digest, and none unless it has failed. */
  lemma PhaseFails(start: seq<Phase>, before: seq<Phase>, p: Phase)
    requires SameFailures(start, before)
    ensures !p.state.PhaseFailed? ==> SameFailures(start, before + [p])
    ensures OneMoreFailure(start, before + [p], p.digest)
  {
    forall d ensures Failures(before + [p], d) == Failures(before, d) + if p.digest == d && p.state.PhaseFailed? then 1 else 0 {
      FailuresSnoc(before, p, d);
    }
  }

  function Clip(task: string): string {
    if |task| <= 300 then task else task[..300]
  }

  // ---------------------------------------------------------------- what a verdict does to the book

  function OpenAll(fs: seq<Finding>, severities: seq<Severity>): seq<Finding> {
    if severities == [] then fs
    else OpenAll(fs, severities[..|severities| - 1]) + [Finding(severities[|severities| - 1], true)]
  }

  function CloseOne(fs: seq<Finding>, i: nat): seq<Finding> {
    if i < |fs| then fs[i := fs[i].(open := false)] else fs
  }

  function CloseAll(fs: seq<Finding>, ids: seq<nat>): seq<Finding> {
    if ids == [] then fs else CloseOne(CloseAll(fs, ids[..|ids| - 1]), ids[|ids| - 1])
  }

  function ProveKey(cs: seq<Criterion>, key: string, evidence: nat): seq<Criterion> {
    seq(|cs|, i requires 0 <= i < |cs| => Prove(cs[i], key, evidence))
  }

  function ProveList(cs: seq<Criterion>, proofs: seq<(string, nat)>): seq<Criterion> {
    if proofs == [] then cs
    else
      var n := |proofs| - 1;
      ProveKey(ProveList(cs, proofs[..n]), proofs[n].0, proofs[n].1)
  }

  /** A criterion that the gate itself measures, and that is still open. */
  predicate Measurable(c: Criterion) {
    c.deterministic && !c.state.Proven? && c.key in GATE_KEYS
  }

  /** A green gate proves what it measures, in the order of `list`. */
  function Gauged(cs: seq<Criterion>, list: seq<Criterion>, gate: nat): seq<Criterion> {
    if list == [] then cs
    else
      var n := |list| - 1;
      var done := Gauged(cs, list[..n], gate);
      if Measurable(list[n]) then ProveKey(done, list[n].key, gate) else done
  }

  /** What the lead may cite: any evidence for a judgement, and never for a criterion that must be measured. */
  predicate Citable(b: Book, v: Verdict) {
    forall p :: p in v.proven ==> p.1 < |b.evidence| && p.0 !in DeterministicKeys(b.criteria)
  }

  predicate GateOf(b: Book, gate: Option<nat>) {
    gate.Some? ==> gate.value < |b.evidence| && b.evidence[gate.value].kind.TestReport?
                   && b.evidence[gate.value].commit == b.lastCommit
  }

  /** Nothing is left to do: measured, and without anybody's opinion. */
  predicate NothingLeft(b: Book, gate: Option<nat>) {
    Green(b, gate) && |b.criteria| > 0 && CountProven(b.criteria) == |b.criteria| && !AnyBlocking(b.findings)
  }

  /** The verdicts that can lead to READY: the word itself, or a FIX or BUILD that names nothing to do. */
  predicate ReadyWorthy(v: Verdict) {
    v.word.SayReady? || ((v.word.SayFix? || v.word.SayBuild?) && v.findings == [])
  }

  /** Where a verdict leads that does not make the milestone READY; a READY the measurements refuse counts as a FIX. */
  function NextState(v: Verdict, looping: bool): State {
    if v.word.SayNeedsHuman? then HumanRequired
    else if looping && (v.word.SayReady? || (v.word.SayFix? && v.action == "fix")) then HumanRequired
    else if v.word.SayReady? || v.word.SayFix? || v.word.SayEscalate? then Fixing
    else MilestoneMachine.Building
  }

  /** Twice the same attempt has failed, and it is the latest. */
  predicate Looping(phases: seq<Phase>) {
    LatestBuild(phases).Some? && Failures(phases, LatestBuild(phases).value) >= 2
  }

  function TierOf(b: Book, round: nat): Tier {
    if Looping(b.phases) || round >= 3 then LargeTier else SmallTier
  }

  lemma ReviewLoops(phases: seq<Phase>)
    ensures var all := phases + [Phase(MilestoneMachine.ReviewPhase, "", ("", ""), PhaseRunning)];
            LatestBuild(all) == LatestBuild(phases) && (Looping(all) <==> Looping(phases))
  {
    var review := Phase(MilestoneMachine.ReviewPhase, "", ("", ""), PhaseRunning);
    assert (phases + [review])[..|phases|] == phases;
  }

  /** The verdict is what the lead wrote in this round, in one tier or the other. */
  predicate Said(luck: Luck, v: Verdict) {
    (luck.small.answered && SaysSo(luck.small.text, v)) || (luck.large.answered && SaysSo(luck.large.text, v))
  }

  /** A reply READY may rest on: it says so, or FIX or BUILD with an empty list of findings. */
  predicate SaysReady(text: Raw) {
    text.Reply? && (text.verdict == "READY" || (text.verdict in {"FIX", "BUILD"} && text.findings == []))
  }

  predicate ReadyWasSaid(luck: Luck) {
    (luck.small.answered && SaysReady(luck.small.text)) || (luck.large.answered && SaysReady(luck.large.text))
  }

  lemma SaidInRound(tier: Tier, luck: Luck, v: Verdict)
    requires Answering(tier, luck.small, luck.large).Some? && SaysSo(Answering(tier, luck.small, luck.large).value, v)
    ensures Said(luck, v)
  {
    hide SaysSo;
  }

  lemma WorthyMeansSaid(luck: Luck, v: Verdict)
    requires Said(luck, v) && ReadyWorthy(v)
    ensures ReadyWasSaid(luck)
  {
  }

  /** A word of the lead's that READY may rest on. */
  predicate Worthy(j: Judgement) {
    j.Judged? && ReadyWorthy(j.verdict)
  }

  /** What is to be done next: the lead's task, or else its reasons; the conditions, where READY was refused. */
  function NextTask(v: Verdict): string {
    if v.task != "" then v.task else if v.word.SayReady? then CONDITIONS else v.rationale
  }

  /** The book as a verdict leaves it, before anything is decided on it. */
  function AfterVerdict(b: Book, v: Verdict, gate: Option<nat>): Book {
    b.(findings := CloseAll(OpenAll(b.findings, v.findings), v.close), criteria := Settled(b, v, gate))
  }

  /** The criteria after a verdict: the lead's proofs, and what a green gate measures. */
  function Settled(b: Book, v: Verdict, gate: Option<nat>): seq<Criterion> {
    var judged := ProveList(b.criteria, v.proven);
    if gate.Some? && gate.value < |b.evidence| && b.evidence[gate.value].ok then Gauged(judged, judged, gate.value)
    else judged
  }

  /** The attempt that was made last. */
  function LatestBuild(phases: seq<Phase>): Option<(string, string)> {
    if phases == [] then None
    else if phases[|phases| - 1].kind.BuildPhase? then Some(phases[|phases| - 1].digest)
    else LatestBuild(phases[..|phases| - 1])
  }

  /** A building phase behind which none follows. */
  predicate LastBuild(phases: seq<Phase>, k: nat) {
    && k < |phases| && phases[k].kind == MilestoneMachine.BuildPhase
    && forall m :: k < m < |phases| ==> phases[m].kind != MilestoneMachine.BuildPhase
  }

  lemma {:induction false} LatestBuildIs(phases: seq<Phase>)
    ensures forall k: nat :: LastBuild(phases, k) ==> LatestBuild(phases) == Some(phases[k].digest)
    ensures LatestBuild(phases).None? <==> forall k :: 0 <= k < |phases| ==> phases[k].kind != MilestoneMachine.BuildPhase
  {
    if phases != [] {
      var n := |phases| - 1;
      LatestBuildIs(phases[..n]);
      forall k: nat | LastBuild(phases, k) ensures LatestBuild(phases) == Some(phases[k].digest) {
        assert k < n ==> LastBuild(phases[..n], k);
      }
    }
  }

  /** What the reply asks for next: its task, or else its reasons, or the conditions of READY, cut to what the ledger keeps. */
  predicate AsksFor(text: Raw, task: string) {
    text.Reply? &&
    var whole := if text.task != "" then text.task else if text.verdict == "READY" then CONDITIONS else text.rationale;
    task == whole[..if |whole| <= 300 then |whole| else 300]
  }

  lemma TaskIsSaid(text: Raw, v: Verdict)
    requires SaysSo(text, v)
    ensures AsksFor(text, Clip(NextTask(v)))
  {
  }

  lemma KeysStay(a: Book, b: Book)
    requires SameContract(a, b)
    ensures DeterministicKeys(a.criteria) == DeterministicKeys(b.criteria)
  {
    forall k | k in DeterministicKeys(a.criteria) ensures k in DeterministicKeys(b.criteria) {
      var i :| 0 <= i < |a.criteria| && a.criteria[i].deterministic && a.criteria[i].key == k;
      assert b.criteria[i].deterministic && b.criteria[i].key == k;
    }
    forall k | k in DeterministicKeys(b.criteria) ensures k in DeterministicKeys(a.criteria) {
      var i :| 0 <= i < |b.criteria| && b.criteria[i].deterministic && b.criteria[i].key == k;
      assert a.criteria[i].deterministic && a.criteria[i].key == k;
    }
  }

  /** What the ledger has on record: evidence, criteria, findings, phases and the commit are the same. */
  predicate SameRecord(a: Book, b: Book) {
    && b.evidence == a.evidence && b.criteria == a.criteria && b.findings == a.findings
    && b.phases == a.phases && b.lastCommit == a.lastCommit
  }

  class Driver {
    const ledger: AutopilotLedger
    const broker: Broker
    const adapters: map<string, bool>
    const objective: string

    constructor (ledger: AutopilotLedger, broker: Broker, adapters: map<string, bool>, objective: string)
      ensures this.ledger == ledger && this.broker == broker && this.adapters == adapters
    {
      this.ledger := ledger;
      this.broker := broker;
      this.adapters := adapters;
      this.objective := objective;
    }

    // -------------------------------------------------------------- building

    /** A credential found at a checkpoint stops the milestone: a finding, and a boundary. */
    method StopForCredential() returns (refusal: Option<Refusal>)
      requires ledger.Valid() && In(ledger.book, {Building, Fixing})
      modifies ledger
      ensures ledger.Valid() && SameContract(old(ledger.book), ledger.book)
      ensures SameRecord(old(ledger.book).(findings := old(ledger.book).findings + [Finding(BlockerFinding, true)]), ledger.book)
      ensures ledger.book.task == old(ledger.book).task
      ensures refusal.None? ==> ledger.book.state.HumanRequired? && ledger.book.origin in {Some(Building), Some(Fixing)}
      ensures refusal.Some? ==> In(ledger.book, {Building, Fixing})
                                && (ledger.book.state.Stopped? || refusal == Some(NoOpenBoundary))
      ensures !ledger.book.state.Ready?
    {
      hide Sound, ReadyCheck;
      ledger.OpenFinding(BlockerFinding);
      refusal := ledger.Park();
    }

    /**
     The next builder: the recorded route as long as it has not been tried and takes the task,
     else the best that is left.
     */
    method NextBuilder(options: map<string, Capacity>, route: Route, tried: set<string>) returns (name: Option<string>)
      ensures name.Some? ==> name.value in options && name.value !in tried
      ensures (route.route.Some? && route.route.value !in tried && route.route.value in options
               && Accepts(options[route.route.value], Medium)) ==> name == route.route
      ensures name.None? ==> forall n :: n in options && n !in tried ==> !options[n].Usable()
    {
      if route.route.Some? && route.route.value !in tried {
        var first := route.route.value;
        if first in options && Accepts(options[first], Medium) {
          return Some(first);
        }
      }
      name := ChooseBuilder(options, Medium, tried);
      if name.None? {
        forall n | n in options && n !in tried ensures !options[n].Usable() {
          assert !Candidate(options, tried, n);
        }
      }
    }

    lemma CommitMayMove()
      requires ledger.Valid() && In(ledger.book, {Building, Fixing})
      ensures MayMoveCommit(ledger.book) && !ledger.book.state.Parked()
    {
    }

    method ToTesting() returns (refusal: Option<Refusal>)
      requires ledger.Valid() && In(ledger.book, {Building, Fixing})
      modifies ledger
      ensures ledger.Valid() && SameContract(old(ledger.book), ledger.book)
      ensures SameRecord(old(ledger.book), ledger.book) && ledger.book.task == old(ledger.book).task
      ensures if refusal.None? then ledger.book.state.Testing? else ledger.book.state.Stopped?
    {
      hide Sound, ReadyCheck;
      refusal := ledger.Transition(Testing, None, false, None, 0);
    }

    /** A publication that did not go through is a finding. */
    function Unpublished(turn: Turn): seq<Finding> {
      if turn.unpublished.Some? then [Finding(turn.unpublished.value, true)] else []
    }

    /**
     What is booked once a builder has run: its phase, the commit, the evidence of it, the
     publication; then on to the gate.
     */
    method BookBuild(id: nat, ok: bool, turn: Turn) returns (refusal: Option<Refusal>)
      requires ledger.Valid() && In(ledger.book, {Building, Fixing})
      modifies ledger
      ensures ledger.Valid() && SameContract(old(ledger.book), ledger.book)
      ensures var was := EndPhase(old(ledger.book), id, if ok then PhaseSucceeded else PhaseFailed);
              SameRecord(was.(lastCommit := turn.commit,
                              evidence := was.evidence + [Evidence(GitCommit, turn.head, "", true)],
                              findings := was.findings + Unpublished(turn)), ledger.book)
      ensures ledger.book.task == old(ledger.book).task
      ensures if refusal.None? then ledger.book.state.Testing? else ledger.book.state.Stopped?
    {
      hide Sound, ReadyCheck;
      ledger.FinishPhase(id, if ok then PhaseSucceeded else PhaseFailed);
      CommitMayMove();
      ledger.SetLastCommit(turn.commit);
      var ev := ledger.RecordEvidence(Evidence(GitCommit, turn.head, "", true));
      if turn.unpublished.Some? {
        ledger.OpenFinding(turn.unpublished.value);
      }
      refusal := ToTesting();
    }

    /** What the chronicle keeps of an attempt: a quota is not a failure, a refused checkpoint is one. */
    function Booked(name: string, task: string, turn: Turn): Phase {
      Phase(MilestoneMachine.BuildPhase, name, (name, task),
            match turn.reply
            case QuotaHit => PhaseQuota
            case CannotBuild => PhaseUnavailable
            case Ran(built) => if built && turn.checkpointOk then PhaseSucceeded else PhaseFailed)
    }

    /** A credential that could not be asked about leaves the phase of a builder that ran open. */
    function Left(name: string, task: string, turn: Turn, refused: bool): Phase {
      var p := Booked(name, task, turn);
      if refused && turn.reply.Ran? && !turn.checkpointOk then p.(state := PhaseRunning) else p
    }

    /**
     What an attempt leaves on record: the task taken up, and, if somebody has built and the
     checkpoint was clean, the commit, its evidence and what could not be published; a
     credential is a finding.
     */
    predicate Tried(was: Book, b: Book, task: string, turn: Turn) {
      var built := turn.reply.Ran? && turn.checkpointOk;
      && b.task == Clip(task) && b.criteria == was.criteria
      && b.lastCommit == (if built then turn.commit else was.lastCommit)
      && b.evidence == was.evidence + (if built then [Evidence(GitCommit, turn.head, "", true)] else [])
      && b.findings == was.findings + (if built then Unpublished(turn)
                                       else if turn.checkpointOk || turn.reply.CannotBuild? then []
                                       else [Finding(BlockerFinding, true)])
    }

    /** After such a turn somebody else may try: nobody has built, and no credential was found. */
    predicate Passes(turn: Turn) {
      turn.reply.CannotBuild? || (turn.reply.QuotaHit? && turn.checkpointOk)
    }

    /**
     One builder's attempt, booked. `again` says that somebody else may try, and what the
     builder's capacity turned out to be; otherwise the phase is over.
     */
    method Attempt(name: string, task: string, turn: Turn)
      returns (again: Option<Capacity>, ok: bool, refusal: Option<Refusal>)
      requires ledger.Valid() && In(ledger.book, {Building, Fixing})
      modifies ledger
      ensures ledger.Valid() && SameContract(old(ledger.book), ledger.book)
      ensures ok ==> again.None? && refusal.None? && turn.reply.Ran?
      ensures again.Some? ==> !ok && refusal.None? && !turn.reply.Ran? && In(ledger.book, {Building, Fixing})
      ensures again.None? && refusal.None? ==>
                if ok then ledger.book.state.Testing?
                else ledger.book.state.HumanRequired? || (turn.reply.Ran? && In(ledger.book, {Building, Fixing}))
      ensures refusal.Some? ==> In(ledger.book, {Building, Fixing})
                                && (ledger.book.state.Stopped? || refusal == Some(NoOpenBoundary))
      ensures !ledger.book.state.Ready?
      ensures again.Some? <==> Passes(turn)
      ensures again.Some? ==> again.value == (if turn.reply.QuotaHit? then Exhausted else Unavailable)
      ensures ledger.book.phases == old(ledger.book).phases + [Left(name, task, turn, refusal.Some?)]
      ensures Tried(old(ledger.book), ledger.book, task, turn)
    {
      hide Sound, ReadyCheck;
      again, ok, refusal := None, false, None;
      var id := ledger.StartPhase(MilestoneMachine.BuildPhase, name, (name, task));
      ledger.SetTask(Clip(task));
      match turn.reply {
        case QuotaHit =>
          ledger.FinishPhase(id, PhaseQuota);
          if turn.checkpointOk {
            again := Some(Exhausted);
          } else {
            refusal := StopForCredential();
          }
        case CannotBuild =>
          ledger.FinishPhase(id, PhaseUnavailable);
          again := Some(Unavailable);
        case Ran(built) =>
          if turn.checkpointOk {
            refusal := BookBuild(id, built, turn);
            ok := refusal.None?;
          } else {
            refusal := StopForCredential();
            if refusal.None? {
              ledger.FinishPhase(id, PhaseFailed);
            }
          }
      }
    }

    /** What is to be built: what the last round has left to do, or else the milestone's objective. */
    function TaskOf(b: Book): string { if b.task != "" then b.task else objective }

    /** Planning is left behind, the task is taken up, and the route is decided. */
    method BeginBuild(luck: Luck) returns (refusal: Option<Refusal>, task: string, route: Route)
      requires ledger.Valid() && In(ledger.book, {Planning, Building, Fixing})
      modifies ledger
      ensures ledger.Valid() && SameContract(old(ledger.book), ledger.book)
      ensures if refusal.None? then In(ledger.book, {Building, Fixing}) else ledger.book.state.Stopped?
      ensures ledger.book.phases == old(ledger.book).phases
      ensures route.route.Some? ==> Executable(adapters, luck.options, Medium, route.route.value)
      ensures refusal.None? ==> task == TaskOf(old(ledger.book))
      ensures refusal.None? ==>
                var (first, second) := if ledger.book.state.Fixing? then ("codex", "claude") else ("claude", "codex");
                && route.modelFit == (if first in adapters then Some(first)
                                      else if second in adapters then Some(second) else None)
                && route.route == (if CanTake(adapters, luck.options, Medium, first) then Some(first)
                                   else if CanTake(adapters, luck.options, Medium, second) then Some(second) else None)
    {
      hide Sound, ReadyCheck, OwnerActs, SameContract;
      refusal, task, route := None, "", Route(None, [], None, ForAvailability);
      ghost var was := ledger.book;
      var z := ledger.Read();
      if z.state.Planning? {
        refusal := ledger.Transition(Building, None, false, None, 0);
        SameContractTrans(was, z, ledger.book);
        if refusal.Some? {
          return;
        }
        ghost var moved := ledger.book;
        z := ledger.Read();
        SameContractTrans(was, moved, z);
      }
      task := if z.task != "" then z.task else objective;
      route := Decide(if z.state.Fixing? then Repair else Implementation, adapters, luck.options, Medium);
      assert route.route.Some? ==> route.route.value in route.executionFit;
    }

    /** Nobody is left to build: wait for an hour. */
    method Block(now: nat) returns (refusal: Option<Refusal>)
      requires ledger.Valid() && In(ledger.book, {Building, Fixing, Reviewing})
      modifies ledger
      ensures ledger.Valid() && SameContract(old(ledger.book), ledger.book)
      ensures if refusal.None? then ledger.book.state.Blocked? && ledger.book.resumeAt == now + QUOTA_COOLDOWN
              else ledger.book.state.Stopped?
      ensures SameRecord(old(ledger.book), ledger.book)
    {
      hide Sound, ReadyCheck;
      refusal := ledger.Transition(Blocked, None, false, Some(Capacity), now + QUOTA_COOLDOWN);
    }

    /** What the attempts leave in the chronicle, one phase each. */
    function Chronicle(attempts: seq<string>, task: string, turns: map<string, Turn>): seq<Phase> {
      if attempts == [] then []
      else
        var n := |attempts| - 1;
        Chronicle(attempts[..n], task, turns)
        + if attempts[n] in turns then [Booked(attempts[n], task, turns[attempts[n]])] else []
    }

    predicate AllPass(attempts: seq<string>, turns: map<string, Turn>) {
      forall k :: 0 <= k < |attempts| ==> attempts[k] in turns && Passes(turns[attempts[k]])
    }

    /** Nobody is tried twice, and these are the ones tried. */
    ghost predicate Tracks(attempts: seq<string>, tried: set<string>) {
      Distinct(attempts) && forall n :: n in attempts <==> n in tried
    }

    lemma NoAttempt(was: seq<Phase>, task: string, turns: map<string, Turn>)
      ensures Chronicle([], task, turns) == [] && AllPass([], turns) && Tracks([], {}) && SameFailures(was, was)
    {
    }

    lemma OneMoreTried(attempts: seq<string>, tried: set<string>, among: set<string>, name: string)
      requires Tracks(attempts, tried) && tried <= among && name in among - tried
      ensures Tracks(attempts + [name], tried + {name}) && |attempts| + 1 <= |among| && Distinct(attempts + [name])
    {
      var more := attempts + [name];
      assert Distinct(more) by {
        assert name !in attempts;
      }
      forall n ensures n in more <==> n in tried + {name} {
        assert n in more <==> n in attempts || n == name;
      }
      DistinctCount(more, among);
    }

    lemma OneMoreAttempt(attempts: seq<string>, tried: set<string>, among: set<string>, name: string,
                         turns: map<string, Turn>)
      requires name in turns && Tracks(attempts, tried) && tried <= among && name in among - tried
      ensures Tracks(attempts + [name], tried + {name}) && |attempts| + 1 <= |among|
      ensures AllPass(attempts, turns) && Passes(turns[name]) ==> AllPass(attempts + [name], turns)
      ensures (attempts + [name])[..|attempts|] == attempts && Distinct(attempts + [name])
    {
      hide *;
      assert (attempts + [name])[..|attempts|] == attempts;
      OneMorePass(attempts, name, turns);
      OneMoreTried(attempts, tried, among, name);
    }

    lemma OneMoreLeft(attempts: seq<string>, name: string, task: string, turns: map<string, Turn>)
      requires name in turns
      ensures Chronicle(attempts + [name], task, turns)
              == Chronicle(attempts, task, turns) + [Left(name, task, turns[name], false)]
    {
      assert (attempts + [name])[..|attempts|] == attempts;
      assert Left(name, task, turns[name], false) == Booked(name, task, turns[name]);
      hide Left, Booked;
    }

    lemma OneMorePass(attempts: seq<string>, name: string, turns: map<string, Turn>)
      requires name in turns
      ensures AllPass(attempts, turns) && Passes(turns[name]) ==> AllPass(attempts + [name], turns)
    {
      hide Passes;
    }

    lemma TakesIt(options: map<string, Capacity>, name: string)
      requires Executable(adapters, options, Medium, name)
      ensures name in options && Accepts(options[name], Medium)
    {
    }

    /** Attempts behind which somebody else may try are no failures. */
    lemma {:induction false} PassesFail(was: seq<Phase>, attempts: seq<string>, task: string, turns: map<string, Turn>)
      requires AllPass(attempts, turns)
      ensures SameFailures(was, was + Chronicle(attempts, task, turns))
    {
      if attempts == [] {
        assert was + Chronicle(attempts, task, turns) == was;
      } else {
        var n := |attempts| - 1;
        PassesFail(was, attempts[..n], task, turns);
        PhaseFails(was, was + Chronicle(attempts[..n], task, turns), Booked(attempts[n], task, turns[attempts[n]]));
        assert was + Chronicle(attempts, task, turns)
               == was + Chronicle(attempts[..n], task, turns) + [Booked(attempts[n], task, turns[attempts[n]])];
      }
    }

    lemma LeftFails(was: seq<Phase>, earlier: seq<string>, name: string, task: string, turns: map<string, Turn>, refused: bool)
      requires AllPass(earlier, turns) && name in turns
      ensures var phases := was + Chronicle(earlier, task, turns) + [Left(name, task, turns[name], refused)];
              && (!turns[name].reply.Ran? ==> SameFailures(was, phases)) && OneMoreFailure(was, phases, (name, task))
              && (!refused ==> phases == was + Chronicle(earlier + [name], task, turns))
    {
      OneMoreLeft(earlier, name, task, turns);
      PassesFail(was, earlier, task, turns);
      PhaseFails(was, was + Chronicle(earlier, task, turns), Left(name, task, turns[name], refused));
      hide Chronicle, SameFailures, OneMoreFailure, AllPass, Left;
      assert was + Chronicle(earlier, task, turns) + [Left(name, task, turns[name], false)]
             == was + (Chronicle(earlier, task, turns) + [Left(name, task, turns[name], false)]);
    }

    lemma Untried(attempts: seq<string>, tried: set<string>, turns: map<string, Turn>)
      requires Tracks(attempts, tried) && AllPass(attempts, turns)
      ensures Distinct(attempts) && (attempts == [] ==> tried == {})
      ensures attempts != [] ==> AllPass(attempts[..|attempts| - 1], turns)
    {
    }

    /**
     One build phase. It tries every builder at most once, the recorded route first, makes at
     most as many attempts as there are builders, and ends in TESTING, in BLOCKED when nobody
     is left, or at a boundary (which the owner may already have answered); only the owner's
     intervention ends it otherwise. `ran` is the one attempt that may have failed: quota ends
     and attempts never made do not count.
     */
    method BuildPhase(luck: Luck)
      returns (ok: bool, refusal: Option<Refusal>, attempts: seq<string>, route: Route, ran: Option<(string, string)>)
      requires ledger.Valid() && In(ledger.book, {Planning, Building, Fixing})
      requires luck.options.Keys == adapters.Keys && adapters.Keys <= luck.turns.Keys
      modifies ledger
      ensures ledger.Valid() && SameContract(old(ledger.book), ledger.book)
      ensures ok ==> refusal.None? && ledger.book.state.Testing? && ran.Some?
      ensures !ok && refusal.None? ==> ledger.book.state.Parked() || (ran.Some? && In(ledger.book, {Building, Fixing}))
      ensures refusal.Some? ==> !ok && In(ledger.book, {Building, Fixing})
                                && (ledger.book.state.Stopped? || refusal == Some(NoOpenBoundary))
      ensures !ledger.book.state.Ready?
      ensures Distinct(attempts) && |attempts| <= |adapters|
      ensures attempts != [] && route.route.Some? ==> attempts[0] == route.route.value
      ensures ran.Some? ==> ran.value.1 == TaskOf(old(ledger.book))
      ensures refusal.None? ==>
                ledger.book.phases == old(ledger.book).phases + Chronicle(attempts, TaskOf(old(ledger.book)), luck.turns)
      ensures attempts != [] ==> AllPass(attempts[..|attempts| - 1], luck.turns)
      ensures ran.None? ==> SameFailures(old(ledger.book).phases, ledger.book.phases)
      ensures ran.Some? ==> attempts != [] && ran.value.0 == attempts[|attempts| - 1]
                            && OneMoreFailure(old(ledger.book).phases, ledger.book.phases, ran.value)
    {
      hide Sound, SameFailures, OneMoreFailure, ReadyCheck, Drift, Chronicle, Left, Passes, AllPass, Tracks, Distinct;
      hide Tried, CanTake, TaskOf, FirstChoice, SameContract, Accepts, Executable;
      ghost var was := ledger.book;
      NoAttempt(ledger.book.phases, TaskOf(ledger.book), luck.turns);
      ok, attempts, ran := false, [], None;
      var task;
      refusal, task, route := BeginBuild(luck);
      if refusal.Some? {
        return;
      }
      var options := luck.options;
      var tried: set<string> := {};
      if route.route.Some? {
        TakesIt(options, route.route.value);
      }
      while true
        invariant ledger.Valid() && SameContract(old(ledger.book), ledger.book) && In(ledger.book, {Building, Fixing})
        invariant options.Keys == adapters.Keys && tried <= adapters.Keys && ran.None? && !ok
        invariant Tracks(attempts, tried) && |attempts| <= |adapters|
        invariant attempts == [] && route.route.Some? ==>
                    route.route.value in options && Accepts(options[route.route.value], Medium)
        invariant attempts != [] && route.route.Some? ==> attempts[0] == route.route.value
        invariant ledger.book.phases == old(ledger.book).phases + Chronicle(attempts, task, luck.turns)
        invariant AllPass(attempts, luck.turns)
        decreases adapters.Keys - tried
      {
        ghost var before := ledger.book;
        Untried(attempts, tried, luck.turns);
        var name := NextBuilder(options, route, tried);
        if name.None? {
          PassesFail(was.phases, attempts, task, luck.turns);
          refusal := Block(luck.now);
          SameContractTrans(was, before, ledger.book);
          return;
        }
        OneMoreAttempt(attempts, tried, adapters.Keys, name.value, luck.turns);
        ghost var earlier := attempts;
        tried, attempts := tried + {name.value}, attempts + [name.value];
        assert attempts[..|attempts| - 1] == earlier;
        var again;
        again, ok, refusal := Attempt(name.value, task, luck.turns[name.value]);
        SameContractTrans(was, before, ledger.book);
        LeftFails(was.phases, earlier, name.value, task, luck.turns, refusal.Some?);
        if luck.turns[name.value].reply.Ran? {
          ran := Some((name.value, task));
        }
        if again.None? {
          return;
        }
        options := options[name.value := again.value];
      }
    }

    // -------------------------------------------------------------- testing

    /**
     Measures the gate, or reuses a measurement of the same commit in the same environment; None
     when it cannot be taken.
     */
    method RecordGate(gauge: Gauge) returns (gate: Option<nat>)
      requires ledger.Valid() && In(ledger.book, {Testing})
      modifies ledger
      ensures ledger.Valid() && SameContract(old(ledger.book), ledger.book) && In(ledger.book, {Testing})
      ensures SameRecord(old(ledger.book).(evidence := ledger.book.evidence), ledger.book)
      ensures ledger.book.task == old(ledger.book).task
      ensures match FreshEvidence(old(ledger.book).evidence, gauge.head, gauge.env)
              case Some(i) => gate == Some(i) && ledger.book.evidence == old(ledger.book).evidence
              case None =>
                if gauge.taken then
                  gate == Some(|old(ledger.book).evidence|)
                  && ledger.book.evidence
                     == old(ledger.book).evidence + [Evidence(TestReport, gauge.head, gauge.env, gauge.green)]
                else gate == None && ledger.book.evidence == old(ledger.book).evidence
    {
      hide Sound;
      var z := ledger.Read();
      gate := FreshEvidence(z.evidence, gauge.head, gauge.env);
      if gate.None? && gauge.taken {
        var made := ledger.RecordEvidence(Evidence(TestReport, gauge.head, gauge.env, gauge.green));
        gate := Some(made);
      }
    }

    /** Is this the report of a measurement of this commit? */
    predicate ReportOf(b: Book, gate: nat, gauge: Gauge) {
      gate < |b.evidence| && b.evidence[gate].kind.TestReport?
      && b.evidence[gate].commit == gauge.head && b.evidence[gate].env == gauge.env
    }

    /** On to the review, if the report is about the commit that was built. */
    method CarryToReview(gate: nat, gauge: Gauge) returns (refusal: Option<Refusal>)
      requires ledger.Valid() && In(ledger.book, {Testing}) && ReportOf(ledger.book, gate, gauge)
      modifies ledger
      ensures ledger.Valid() && SameContract(old(ledger.book), ledger.book)
      ensures ReportOf(ledger.book, gate, gauge)
      ensures SameRecord(old(ledger.book), ledger.book) && ledger.book.task == old(ledger.book).task
      ensures refusal.None? ==> ledger.book.state.Reviewing? && gauge.head == ledger.book.lastCommit != ""
      ensures refusal.Some? ==> ledger.book.state.Stopped?
                                || (refusal == Some(StaleEvidence) && ledger.book.state.Testing?
                                    && (gauge.head != ledger.book.lastCommit || gauge.head == ""))
    {
      hide Sound, ReadyCheck;
      refusal := ledger.Transition(Reviewing, Some(gate), false, None, 0);
    }

    /** Tests, and goes on to the review with a report; a report about another commit carries no review. */
    method TestPhase(gauge: Gauge) returns (gate: Option<nat>, refusal: Option<Refusal>)
      requires ledger.Valid() && In(ledger.book, {Testing})
      modifies ledger
      ensures ledger.Valid() && SameContract(old(ledger.book), ledger.book)
      ensures gate.Some? ==> ReportOf(ledger.book, gate.value, gauge)
      ensures gate.Some? && refusal.None? ==> ledger.book.state.Reviewing? && gauge.head == ledger.book.lastCommit != ""
      ensures gate.None? ==> refusal.None? && In(ledger.book, {Testing})
      ensures refusal.Some? ==> ledger.book.state.Stopped?
                                || (refusal == Some(StaleEvidence) && ledger.book.state.Testing?
                                    && (gauge.head != ledger.book.lastCommit || gauge.head == ""))
      ensures gate.None? <==> FreshEvidence(old(ledger.book).evidence, gauge.head, gauge.env).None? && !gauge.taken
      ensures var was, found := old(ledger.book), FreshEvidence(old(ledger.book).evidence, gauge.head, gauge.env);
              && ledger.book.evidence
                 == was.evidence + (if found.None? && gauge.taken
                                    then [Evidence(TestReport, gauge.head, gauge.env, gauge.green)] else [])
              && ledger.book.phases
                 == was.phases + [Phase(MilestoneMachine.TestPhase, "", ("", ""),
                                        if gate.None? then PhaseRunning
                                        else if ledger.book.evidence[gate.value].ok then PhaseSucceeded else PhaseFailed)]
              && ledger.book.task == (if gate.None? then was.task else "")
              && ledger.book.findings == was.findings && ledger.book.criteria == was.criteria
              && ledger.book.lastCommit == was.lastCommit
    {
      hide Sound, ReadyCheck;
      refusal := None;
      var id := ledger.StartPhase(MilestoneMachine.TestPhase, "", ("", ""));
      gate := RecordGate(gauge);
      if gate.None? {
        return;
      }
      assert ReportOf(ledger.book, gate.value, gauge);
      var ok := ledger.book.evidence[gate.value].ok;
      ledger.FinishPhase(id, if ok then PhaseSucceeded else PhaseFailed);
      ledger.SetTask("");
      refusal := CarryToReview(gate.value, gauge);
    }

    // -------------------------------------------------------------- reviewing

    /** What stays while a verdict is booked: everything but criteria, findings and what the owner does. */
    ghost predicate BookedOn(was: Book, b: Book) {
      && b.evidence == was.evidence && b.lastCommit == was.lastCommit && b.phases == was.phases
      && SameContract(was, b) && In(b, {was.state})
    }

    method BookFindings(v: Verdict)
      requires ledger.Valid() && In(ledger.book, {Reviewing})
      modifies ledger
      ensures ledger.Valid() && BookedOn(old(ledger.book), ledger.book)
      ensures ledger.book.findings == CloseAll(OpenAll(old(ledger.book).findings, v.findings), v.close)
      ensures ledger.book.criteria == old(ledger.book).criteria
    {
      hide Sound;
      ghost var was := ledger.book;
      var i := 0;
      while i < |v.findings|
        invariant 0 <= i <= |v.findings| && ledger.Valid() && BookedOn(was, ledger.book)
        invariant ledger.book.findings == OpenAll(was.findings, v.findings[..i]) && ledger.book.criteria == was.criteria
      {
        ledger.OpenFinding(v.findings[i]);
        assert v.findings[..i + 1][..i] == v.findings[..i];
        i := i + 1;
      }
      assert v.findings[..i] == v.findings;
      i := 0;
      while i < |v.close|
        invariant 0 <= i <= |v.close| && ledger.Valid() && BookedOn(was, ledger.book)
        invariant ledger.book.findings == CloseAll(OpenAll(was.findings, v.findings), v.close[..i])
        invariant ledger.book.criteria == was.criteria
      {
        ledger.CloseFinding(v.close[i]);
        assert v.close[..i + 1][..i] == v.close[..i];
        i := i + 1;
      }
      assert v.close[..i] == v.close;
    }

    method BookProofs(proofs: seq<(string, nat)>)
      requires ledger.Valid() && In(ledger.book, {Reviewing})
      requires forall p :: p in proofs ==> p.1 < |ledger.book.evidence| && p.0 !in DeterministicKeys(ledger.book.criteria)
      modifies ledger
      ensures ledger.Valid() && BookedOn(old(ledger.book), ledger.book)
      ensures ledger.book.findings == old(ledger.book).findings
      ensures ledger.book.criteria == ProveList(old(ledger.book).criteria, proofs)
    {
      hide Sound;
      ghost var was := ledger.book;
      var i := 0;
      while i < |proofs|
        invariant 0 <= i <= |proofs| && ledger.Valid() && BookedOn(was, ledger.book)
        invariant ledger.book.findings == was.findings && ledger.book.criteria == ProveList(was.criteria, proofs[..i])
      {
        KeysStay(was, ledger.book);
        assert proofs[i] in proofs;
        ledger.SetProven(proofs[i].0, proofs[i].1);
        assert proofs[..i + 1][..i] == proofs[..i];
        i := i + 1;
      }
      assert proofs[..i] == proofs;
    }

    /** Criteria that must be measured are settled by the measurement alone. */
    method BookMeasured(gate: nat)
      requires ledger.Valid() && In(ledger.book, {Reviewing})
      requires gate < |ledger.book.evidence| && ledger.book.evidence[gate].kind.TestReport? && ledger.book.evidence[gate].ok
      modifies ledger
      ensures ledger.Valid() && BookedOn(old(ledger.book), ledger.book)
      ensures ledger.book.findings == old(ledger.book).findings
      ensures ledger.book.criteria == Gauged(old(ledger.book).criteria, old(ledger.book).criteria, gate)
    {
      hide Sound;
      ghost var was := ledger.book;
      var z := ledger.Read();
      var list := z.criteria;
      var i := 0;
      while i < |list|
        invariant 0 <= i <= |list| && ledger.Valid() && BookedOn(was, ledger.book)
        invariant ledger.book.findings == was.findings && ledger.book.criteria == Gauged(was.criteria, list[..i], gate)
      {
        if Measurable(list[i]) {
          ledger.SetProven(list[i].key, gate);
        }
        assert list[..i + 1][..i] == list[..i];
        i := i + 1;
      }
      assert list[..i] == list;
    }

    method Apply(v: Verdict, gate: Option<nat>)
      requires ledger.Valid() && In(ledger.book, {Reviewing}) && Citable(ledger.book, v) && GateOf(ledger.book, gate)
      modifies ledger
      ensures ledger.Valid() && BookedOn(old(ledger.book), ledger.book) && GateOf(ledger.book, gate)
      ensures ledger.book.findings == CloseAll(OpenAll(old(ledger.book).findings, v.findings), v.close)
      ensures ledger.book.criteria == Settled(old(ledger.book), v, gate)
    {
      hide Sound;
      BookFindings(v);
      BookProofs(v.proven);
      if gate.Some? && ledger.book.evidence[gate.value].ok {
        BookMeasured(gate.value);
      }
    }

    /** Asks the machine for READY; it has the last word. */
    method TryReady(gate: Option<nat>) returns (done: bool)
      requires ledger.Valid() && In(ledger.book, {Reviewing}) && GateOf(ledger.book, gate)
      modifies ledger
      ensures ledger.Valid() && SameContract(old(ledger.book), ledger.book)
      ensures done <==> ledger.book.state.Ready?
      ensures SameRecord(old(ledger.book), ledger.book)
      ensures done ==> ReadyCheck(old(ledger.book), gate, true).None?
      ensures old(ledger.book).state.Stopped? ==> ledger.book.state.Stopped?
      ensures !done ==> In(ledger.book, {Reviewing}) && GateOf(ledger.book, gate)
      ensures ReadyCheck(old(ledger.book), gate, true).None? ==> In(ledger.book, {Ready})
    {
      hide Sound;
      var refusal := ledger.Transition(Ready, gate, true, None, 0);
      done := refusal.None?;
    }

    /** READY depends on evidence, criteria and findings alone, which the owner does not touch. */
    lemma ReadyCheckStays(a: Book, b: Book, gate: Option<nat>)
      requires a.evidence == b.evidence && a.criteria == b.criteria && a.findings == b.findings
      ensures ReadyCheck(a, gate, true) == ReadyCheck(b, gate, true)
    {
    }

    /** Nothing left to do means exactly that the machine would accept READY, were the lead to say so. */
    lemma NothingLeftIsReady(b: Book, gate: Option<nat>)
      ensures NothingLeft(b, gate) <==> ReadyCheck(b, gate, true).None?
    {
    }

    /** A move on from the review, to whatever state the table allows from there. */
    method MoveOn(target: State, task: string) returns (refusal: Option<Refusal>)
      requires ledger.Valid() && In(ledger.book, {Reviewing}) && (target.Fixing? || target.Building?)
      modifies ledger
      ensures ledger.Valid() && SameContract(old(ledger.book), ledger.book)
      ensures if refusal.None? then ledger.book.state == target else ledger.book.state.Stopped?
      ensures ledger.book.task == Clip(task) && SameRecord(old(ledger.book), ledger.book)
      ensures old(ledger.book).state.Stopped? ==> ledger.book.state.Stopped?
    {
      hide Sound, ReadyCheck;
      ledger.SetTask(Clip(task));
      refusal := ledger.Transition(target, None, false, None, 0);
    }

    method AskOwner() returns (refusal: Option<Refusal>)
      requires ledger.Valid() && In(ledger.book, {Reviewing})
      modifies ledger
      ensures ledger.Valid() && SameContract(old(ledger.book), ledger.book)
      ensures if refusal.None? then ledger.book.state.HumanRequired?
              else ledger.book.state.Stopped? || (refusal == Some(NoOpenBoundary) && ledger.book.state.Reviewing?)
      ensures SameRecord(old(ledger.book), ledger.book)
      ensures old(ledger.book).state.Stopped? ==> ledger.book.state.Stopped?
    {
      hide Sound, ReadyCheck;
      refusal := ledger.Park();
    }

    /**
     Acts on a verdict. READY is reached exactly when the measurements allow it and the lead
     said READY, or a FIX or BUILD that names no new finding; a lead that wants READY against
     the measurements gets a repair instead.
     */
    method Act(v: Verdict, gate: Option<nat>, looping: bool) returns (refusal: Option<Refusal>)
      requires ledger.Valid() && In(ledger.book, {Reviewing}) && GateOf(ledger.book, gate)
      modifies ledger
      ensures ledger.Valid() && SameContract(old(ledger.book), ledger.book)
      ensures ledger.book.state.Ready? ==> ReadyWorthy(v) && ReadyCheck(old(ledger.book), gate, true).None?
      ensures ReadyWorthy(v) && ReadyCheck(old(ledger.book), gate, true).None? ==> In(ledger.book, {Ready})
      ensures SameRecord(old(ledger.book), ledger.book)
      ensures refusal.None? ==> ledger.book.state in {Ready, HumanRequired, Fixing, Building}
      ensures refusal.None? && !ledger.book.state.Ready? ==> ledger.book.state == NextState(v, looping)
      ensures refusal.None? && ledger.book.state in {Fixing, Building} ==> ledger.book.task == Clip(NextTask(v))
      ensures refusal.Some? ==> ledger.book.state.Stopped? || refusal == Some(NoOpenBoundary)
    {
      hide Sound, ReadyCheck, AnyBlocking, NothingLeft;
      refusal := None;
      ghost var was := ledger.book;
      var word, action, findings := v.word, v.action, v.findings;
      var task := if v.task != "" then v.task else v.rationale;
      if word.SayReady? {
        var done := TryReady(gate);
        if done {
          return;
        }
        word, action, findings := SayFix, "fix", [];
        task := if v.task != "" then v.task else CONDITIONS;
      }
      if (word.SayFix? || word.SayBuild?) && findings == [] {
        var z := ledger.Read();
        NothingLeftIsReady(z, gate);
        ReadyCheckStays(was, z, gate);
        if NothingLeft(z, gate) {
          var done := TryReady(gate);
          if done {
            return;
          }
        }
      }
      if word.SayNeedsHuman? || (looping && word.SayFix? && action == "fix") {
        refusal := AskOwner();
        return;
      }
      refusal := MoveOn(if word.SayFix? || word.SayEscalate? then Fixing else Building, task);
    }

    /** What the lead may cite: the gate's report first, then what the chronicle shows, eight at most. */
    function Cited(first: set<nat>, recent: seq<nat>, count: nat): set<nat> {
      if recent == [] then first
      else
        var n := |recent| - 1;
        var cited := Cited(first, recent[..n], count);
        if |cited| < 8 && recent[n] < count then cited + {recent[n]} else cited
    }

    lemma {:induction false} CitedFull(first: set<nat>, recent: seq<nat>, count: nat, i: nat)
      requires i <= |recent| && |Cited(first, recent[..i], count)| >= 8
      ensures Cited(first, recent, count) == Cited(first, recent[..i], count)
      decreases |recent|
    {
      if i == |recent| {
        assert recent[..i] == recent;
      } else {
        var n := |recent| - 1;
        assert recent[..n][..i] == recent[..i];
        CitedFull(first, recent[..n], count, i);
      }
    }

    method Cite(gate: Option<nat>, recent: seq<nat>, count: nat) returns (cited: set<nat>)
      requires gate.Some? ==> gate.value < count
      ensures cited == Cited(if gate.Some? then {gate.value} else {}, recent, count)
      ensures (forall e :: e in cited ==> e < count) && |cited| <= MAX_CITED
      ensures gate.Some? ==> gate.value in cited
    {
      ghost var first := if gate.Some? then {gate.value} else {};
      cited := if gate.Some? then {gate.value} else {};
      assert recent[..0] == [];
      var i := 0;
      while i < |recent| && |cited| < MAX_CITED
        invariant 0 <= i <= |recent| && |cited| <= MAX_CITED && cited == Cited(first, recent[..i], count)
        invariant (forall e :: e in cited ==> e < count) && (gate.Some? ==> gate.value in cited)
      {
        assert recent[..i + 1][..i] == recent[..i];
        if recent[i] < count {
          cited := cited + {recent[i]};
        }
        i := i + 1;
      }
      if i < |recent| {
        CitedFull(first, recent, count, i);
      } else {
        assert recent[..i] == recent;
      }
    }

    /** What the lead is told, and what it may not touch. */
    function FactsOf(b: Book, cited: set<nat>): Facts {
      Facts((set n | n in adapters && adapters[n]), OpenIds(b.findings), Keys(b.criteria), cited,
            DeterministicKeys(b.criteria))
    }

    function ReviewFacts(b: Book, luck: Luck): Facts {
      var gate := FreshEvidence(b.evidence, b.lastCommit, luck.gauge.env);
      FactsOf(b, Cited(if gate.Some? then {gate.value} else {}, luck.recent, |b.evidence|))
    }

    /** A lead that could not be asked means waiting; one that answered nonsense is a finding about the lead. */
    method BookRejection(id: nat, fault: Fault, now: nat) returns (refusal: Option<Refusal>)
      requires ledger.Valid() && In(ledger.book, {Reviewing})
      modifies ledger
      ensures ledger.Valid() && SameContract(old(ledger.book), ledger.book)
      ensures if refusal.None? then ledger.book.state == (if fault.LeadUnreachable? || fault.NoBroker? then Blocked else Fixing)
              else ledger.book.state.Stopped?
      ensures var was := EndPhase(old(ledger.book), id, PhaseFailed);
              SameRecord(was.(findings := was.findings + if fault.LeadUnreachable? || fault.NoBroker? then []
                                                         else [Finding(Major, true)]), ledger.book)
    {
      hide Sound, ReadyCheck;
      ledger.FinishPhase(id, PhaseFailed);
      if fault.LeadUnreachable? || fault.NoBroker? {
        refusal := Block(now);
        return;
      }
      ledger.OpenFinding(Major);
      refusal := ledger.Transition(Fixing, None, false, None, 0);
    }

    lemma SettledStays(a: Book, b: Book, v: Verdict, gate: Option<nat>)
      requires a.evidence == b.evidence && a.criteria == b.criteria && a.findings == b.findings
      ensures AfterVerdict(a, v, gate).findings == AfterVerdict(b, v, gate).findings
      ensures Settled(a, v, gate) == Settled(b, v, gate)
      ensures ReadyCheck(AfterVerdict(a, v, gate), gate, true) == ReadyCheck(AfterVerdict(b, v, gate), gate, true)
    {
      assert AfterVerdict(a, v, gate).criteria == AfterVerdict(b, v, gate).criteria;
    }

    /** The book with one more review in its chronicle. */
    function Reviewed(b: Book, s: PhaseState): Book {
      b.(phases := b.phases + [Phase(MilestoneMachine.ReviewPhase, "", ("", ""), s)])
    }

    /** What is booked while the review is under way is booked on the milestone as it was. */
    lemma ReviewBooked(was: Book, b: Book, v: Verdict, gate: Option<nat>, now: Book)
      requires SameRecord(Reviewed(was, PhaseRunning), b)
      requires SameRecord(AfterVerdict(EndPhase(b, |was.phases|, PhaseSucceeded), v, gate), now)
      ensures SameRecord(Reviewed(AfterVerdict(was, v, gate), PhaseSucceeded), now)
    {
      SettledStays(EndPhase(b, |was.phases|, PhaseSucceeded), was, v, gate);
      hide Settled, CloseAll, OpenAll;
    }

    lemma RejectionBooked(was: Book, b: Book, more: seq<Finding>, now: Book)
      requires SameRecord(Reviewed(was, PhaseRunning), b)
      requires var ended := EndPhase(b, |was.phases|, PhaseFailed);
               SameRecord(ended.(findings := ended.findings + more), now)
      ensures SameRecord(Reviewed(was.(findings := was.findings + more), PhaseFailed), now)
    {
    }

    /** A judgement that counts: booked first, then acted on. */
    method BookVerdict(id: nat, v: Verdict, gate: Option<nat>, looping: bool) returns (refusal: Option<Refusal>)
      requires ledger.Valid() && In(ledger.book, {Reviewing}) && Citable(ledger.book, v) && GateOf(ledger.book, gate)
      modifies ledger
      ensures ledger.Valid() && SameContract(old(ledger.book), ledger.book)
      ensures ledger.book.state.Ready? ==>
                ReadyWorthy(v) && ReadyCheck(AfterVerdict(old(ledger.book), v, gate), gate, true).None?
      ensures ReadyWorthy(v) && ReadyCheck(AfterVerdict(old(ledger.book), v, gate), gate, true).None? ==>
                In(ledger.book, {Ready})
      ensures SameRecord(AfterVerdict(EndPhase(old(ledger.book), id, PhaseSucceeded), v, gate), ledger.book)
      ensures refusal.None? ==> ledger.book.state in {Ready, HumanRequired, Fixing, Building}
      ensures refusal.None? && !ledger.book.state.Ready? ==> ledger.book.state == NextState(v, looping)
      ensures refusal.None? && ledger.book.state in {Fixing, Building} ==> ledger.book.task == Clip(NextTask(v))
      ensures refusal.Some? ==> ledger.book.state.Stopped? || refusal == Some(NoOpenBoundary)
    {
      hide Sound, ReadyCheck, AnyBlocking, CloseAll, OpenAll, Settled, ReadyWorthy;
      ghost var was := ledger.book;
      SettledStays(was, EndPhase(was, id, PhaseSucceeded), v, gate);
      Apply(v, gate);
      ledger.FinishPhase(id, PhaseSucceeded);
      ReadyCheckStays(AfterVerdict(was, v, gate), ledger.book, gate);
      refusal := Act(v, gate, looping);
    }

    /**
     What the review is made with: the report for the last commit, the phase it is booked under,
     the tier, and the facts.
     */
    method BeginReview(round: nat, luck: Luck)
      returns (gate: Option<nat>, id: nat, looping: bool, tier: Tier, facts: Facts)
      requires ledger.Valid() && In(ledger.book, {Reviewing})
      modifies ledger
      ensures ledger.Valid() && SameContract(old(ledger.book), ledger.book) && In(ledger.book, {Reviewing})
      ensures ledger.book.evidence == old(ledger.book).evidence && ledger.book.criteria == old(ledger.book).criteria
      ensures ledger.book.findings == old(ledger.book).findings && ledger.book.lastCommit == old(ledger.book).lastCommit
      ensures gate == FreshEvidence(old(ledger.book).evidence, old(ledger.book).lastCommit, luck.gauge.env)
      ensures looping <==> Looping(old(ledger.book).phases)
      ensures tier == TierOf(old(ledger.book), round)
      ensures facts == ReviewFacts(old(ledger.book), luck)
      ensures id == |old(ledger.book).phases|
      ensures ledger.book.phases
              == old(ledger.book).phases + [Phase(MilestoneMachine.ReviewPhase, "", ("", ""), PhaseRunning)]
      ensures (forall e :: e in facts.evidence ==> e < |ledger.book.evidence|)
              && facts.deterministic == DeterministicKeys(ledger.book.criteria)
    {
      hide Sound;
      var z := ledger.Read();
      gate := FreshEvidence(z.evidence, z.lastCommit, luck.gauge.env);
      id := ledger.StartPhase(MilestoneMachine.ReviewPhase, "", ("", ""));
      var cited := Cite(gate, luck.recent, |z.evidence|);
      var digest := LatestBuild(ledger.book.phases);
      looping := digest.Some? && Failures(ledger.book.phases, digest.value) >= LOOP_THRESHOLD;
      ReviewLoops(z.phases);
      tier := if looping || round >= 3 then LargeTier else SmallTier;
      facts := FactsOf(z, cited);
    }

    /**
     One review. Whatever the lead answers, the milestone becomes READY exactly when, with the
     verdict booked, a green report for precisely the last commit exists, at least one criterion
     and every one is proven, nothing blocking is open, and the verdict is READY or a FIX or
     BUILD without a new finding (or the owner has stopped it meanwhile).
     */
    method ReviewPhase(round: nat, luck: Luck) returns (j: Judgement, refusal: Option<Refusal>)
      requires ledger.Valid() && broker.Valid() && In(ledger.book, {Reviewing})
      modifies ledger, broker
      ensures ledger.Valid() && broker.Valid() && SameContract(old(ledger.book), ledger.book)
      ensures ledger.book.state.Ready? ==>
                var b := old(ledger.book);
                var gate := FreshEvidence(b.evidence, b.lastCommit, luck.gauge.env);
                j.Judged? && ReadyWorthy(j.verdict) && ReadyCheck(AfterVerdict(b, j.verdict, gate), gate, true).None?
      ensures j.Judged? && ReadyWorthy(j.verdict) ==>
                var b := old(ledger.book);
                var gate := FreshEvidence(b.evidence, b.lastCommit, luck.gauge.env);
                ReadyCheck(AfterVerdict(b, j.verdict, gate), gate, true).None? ==> In(ledger.book, {Ready})
      ensures refusal.None? ==> ledger.book.state in {Ready, HumanRequired, Blocked, Fixing, Building}
      ensures j.Judged? ==>
                var text := Answering(TierOf(old(ledger.book), round), luck.small, luck.large);
                text.Some? && SaysSo(text.value, j.verdict)
      ensures var text := Answering(TierOf(old(ledger.book), round), luck.small, luck.large);
              j.Judged? <==> text.Some? && Legible(text.value, ReviewFacts(old(ledger.book), luck))
      ensures refusal.None? && j.Judged? && !ledger.book.state.Ready? ==>
                ledger.book.state == NextState(j.verdict, Looping(old(ledger.book).phases))
      ensures refusal.None? && j.Rejected? ==>
                var text := Answering(TierOf(old(ledger.book), round), luck.small, luck.large);
                ledger.book.state == if text.None? then Blocked else Fixing
      ensures refusal.None? && j.Judged? && ledger.book.state in {Fixing, Building} ==>
                var text := Answering(TierOf(old(ledger.book), round), luck.small, luck.large);
                text.Some? && AsksFor(text.value, ledger.book.task)
      ensures refusal.Some? ==> ledger.book.state.Stopped? || refusal == Some(NoOpenBoundary)
      ensures var b := old(ledger.book);
              var gate := FreshEvidence(b.evidence, b.lastCommit, luck.gauge.env);
              var text := Answering(TierOf(b, round), luck.small, luck.large);
              if j.Judged? then SameRecord(Reviewed(AfterVerdict(b, j.verdict, gate), PhaseSucceeded), ledger.book)
              else SameRecord(Reviewed(b.(findings := b.findings + if text.None? then [] else [Finding(Major, true)]),
                                       PhaseFailed), ledger.book)
    {
      hide Sound, ReadyCheck, AnyBlocking, Asked, AfterVerdict, ReadyWorthy, FreshEvidence;
      ghost var was := ledger.book;
      hide Looping, Legible, SaysSo, LatestBuild, NextState, TierOf, ReviewFacts, Answering, AsksFor, Clip, NextTask;
      var gate, id, looping, tier, facts := BeginReview(round, luck);
      FreshReport(was, luck.gauge.env);
      AskedExactly(tier, luck.small, luck.large, facts);
      j := Judge(broker, tier, luck.small, luck.large, facts);
      ghost var begun := ledger.book;
      assert SameRecord(Reviewed(was, PhaseRunning), begun);
      hide Reviewed, EndPhase, SameRecord;
      if j.Rejected? {
        refusal := BookRejection(id, j.fault, luck.now);
        RejectionBooked(was, begun, if j.fault.LeadUnreachable? || j.fault.NoBroker? then [] else [Finding(Major, true)],
                        ledger.book);
        return;
      }
      JudgementIsHarmless(tier, luck.small, luck.large, facts);
      SettledStays(was, ledger.book, j.verdict, gate);
      TaskIsSaid(Answering(tier, luck.small, luck.large).value, j.verdict);
      refusal := BookVerdict(id, j.verdict, gate, looping);
      ReviewBooked(was, begun, j.verdict, gate, ledger.book);
    }

    lemma FreshReport(b: Book, env: string)
      ensures GateOf(b, FreshEvidence(b.evidence, b.lastCommit, env))
    {
    }

    // -------------------------------------------------------------- the circle

    /** A contract proposal in the tree is a boundary, not a change; out of TESTING it cannot be asked about. */
    method ProposalBoundary(proposal: bool) returns (stop: bool, refusal: Option<Refusal>)
      requires ledger.Valid()
      modifies ledger
      ensures ledger.Valid() && SameContract(old(ledger.book), ledger.book)
      ensures !stop ==> refusal.None? && Drift(old(ledger.book), ledger.book)
      ensures !proposal ==> !stop
      ensures proposal && !stop ==> ledger.book.state.Parked() || ledger.book.state.Terminal()
      ensures stop && refusal.None? ==> ledger.book.state.HumanRequired?
      ensures ledger.book.state.Ready? ==> old(ledger.book).state.Ready?
    {
      hide ReadyCheck, ReadyFacts, Backed;
      stop, refusal := false, None;
      if !proposal {
        return;
      }
      var z := ledger.Read();
      if z.state.Parked() || z.state.Terminal() {
        return;
      }
      stop := true;
      refusal := ledger.Park();
    }

    /**
     One turn of the circle; `again` says that there is something left to turn for, `word` is
     the lead's judgement, if it was asked. Without its word nothing becomes READY.
     */
    method OneRound(round: nat, luck: Luck) returns (again: bool, raised: bool, ghost word: Option<Judgement>)
      requires ledger.Valid() && broker.Valid()
      requires luck.options.Keys == adapters.Keys && adapters.Keys <= luck.turns.Keys
      modifies ledger, broker
      ensures ledger.Valid() && broker.Valid() && SameContract(old(ledger.book), ledger.book)
      ensures again ==> !raised && !ledger.book.state.Terminal() && !ledger.book.state.Parked()
      ensures word.Some? && word.value.Judged? ==> Said(luck, word.value.verdict)
      ensures (ledger.book.state.Ready? && !old(ledger.book).state.Ready? ==> word.Some? && Worthy(word.value))
    {
      hide Sound, SameContract, Drift, ReadyCheck, FreshEvidence, AfterVerdict, ReadyWorthy, SameFailures;
      hide OneMoreFailure, SaysSo, Legible, ReviewFacts, TierOf, NextState, Looping, SameRecord, Chronicle, AllPass, AsksFor;
      hide Reviewed, Distinct, Answering, Said;
      again, raised, word := false, false, None;
      ghost var was := ledger.book;
      var stop, refusal := ProposalBoundary(luck.proposal);
      if stop {
        raised := refusal.Some?;
        return;
      }
      ghost var seen := ledger.book;
      var z := ledger.Read();
      SameContractTrans(was, seen, z);
      if z.state in {Planning, Building, Fixing} {
        seen := z;
        var ok, why, attempts, route, ran := BuildPhase(luck);
        SameContractTrans(was, seen, ledger.book);
        if !ok {
          raised := why.Some?;
          return;
        }
        seen := ledger.book;
        z := ledger.Read();
        SameContractTrans(was, seen, z);
      }
      if z.state.Testing? {
        seen := z;
        var gate, why := TestPhase(luck.gauge);
        SameContractTrans(was, seen, ledger.book);
        if why.Some? || gate.None? {
          raised := true;
          return;
        }
        seen := ledger.book;
        z := ledger.Read();
        SameContractTrans(was, seen, z);
      }
      if z.state.Reviewing? {
        seen := z;
        var j, why := ReviewPhase(round, luck);
        SameContractTrans(was, seen, ledger.book);
        word := Some(j);
        if j.Judged? {
          SaidInRound(TierOf(seen, round), luck, j.verdict);
        }
        if why.Some? {
          raised := true;
          return;
        }
      }
      seen := ledger.book;
      z := ledger.Read();
      SameContractTrans(was, seen, z);
      again := !z.state.Terminal() && !z.state.Parked();
    }

    /** What a crashed process left open is interrupted, never booked as a success. */
    method Reconcile()
      requires ledger.Valid()
      modifies ledger
      ensures ledger.Valid() && Drift(old(ledger.book).(phases := ledger.book.phases), ledger.book)
      ensures SameContract(old(ledger.book), ledger.book)
      ensures ledger.book.state.Ready? <==> old(ledger.book).state.Ready?
      ensures |ledger.book.phases| == |old(ledger.book).phases|
      ensures forall i :: 0 <= i < |ledger.book.phases| ==>
                ledger.book.phases[i] == if old(ledger.book).phases[i].state.PhaseRunning?
                                         then old(ledger.book).phases[i].(state := PhaseInterrupted)
                                         else old(ledger.book).phases[i]
    {
      hide ReadyCheck, ReadyFacts, Backed;
      ghost var was := ledger.book;
      var z := ledger.Read();
      var i := 0;
      while i < |z.phases|
        invariant 0 <= i <= |z.phases| == |ledger.book.phases| && ledger.Valid() && z.phases == was.phases
        invariant Drift(was.(phases := ledger.book.phases), ledger.book) && SameContract(was, ledger.book)
        invariant forall k :: 0 <= k < i ==>
                    ledger.book.phases[k] == if was.phases[k].state.PhaseRunning?
                                             then was.phases[k].(state := PhaseInterrupted) else was.phases[k]
        invariant forall k :: i <= k < |z.phases| ==> ledger.book.phases[k] == was.phases[k]
      {
        if z.phases[i].state.PhaseRunning? {
          ghost var b := ledger.book;
          ledger.FinishPhase(i, PhaseInterrupted);
          DriftOn(was, b, ledger.seen, ledger.book);
        }
        i := i + 1;
      }
    }

    lemma DriftOn(was: Book, b: Book, seen: Book, b': Book)
      requires Sound(was) && Drift(was.(phases := b.phases), b) && Drift(b, seen) && b' == seen.(phases := b'.phases)
      ensures Drift(was.(phases := b'.phases), b')
    {
      hide Backed, ReadyFacts;
    }

    /** Leaves a block whose time has come, for the state it came from. */
    method Unblock() returns (refusal: Option<Refusal>)
      requires ledger.Valid() && In(ledger.book, {Blocked})
      modifies ledger
      ensures ledger.Valid() && SameContract(old(ledger.book), ledger.book)
      ensures if refusal.None? then Some(ledger.book.state) == old(ledger.book).origin else ledger.book.state.Stopped?
      ensures !ledger.book.state.Ready?
    {
      hide ReadyCheck, ReadyFacts, Backed;
      var z := ledger.Read();
      refusal := ledger.Transition(if z.origin.Some? then z.origin.value else Building, None, false, None, 0);
    }

    /**
     The whole run: it stops at READY, STOPPED, a park, after `rounds`, or because something was
     refused; and through all of it, crash or not, the ledger stays sound, whoever answers what.
     It becomes READY only on the lead's word, and that word is its last: READY, or a FIX or BUILD
     that names nothing to do. `words` are the judgements it gave, each in its round, and a
     judgement says what a reply of that round says.
     */
    method Drive(rounds: nat, lucks: seq<Luck>)
      returns (raised: bool, exhausted: bool, ghost words: seq<Judgement>, ghost turns: seq<nat>)
      requires ledger.Valid() && broker.Valid() && |lucks| >= rounds
      requires forall l :: l in lucks ==> l.options.Keys == adapters.Keys && adapters.Keys <= l.turns.Keys
      modifies ledger, broker
      ensures ledger.Valid() && broker.Valid() && SameContract(old(ledger.book), ledger.book)
      ensures exhausted ==> !raised
      ensures |words| == |turns| <= rounds
      ensures forall i :: 0 <= i < |turns| ==> turns[i] < rounds && (i > 0 ==> turns[i - 1] < turns[i])
      ensures forall i :: 0 <= i < |words| && words[i].Judged? ==> Said(lucks[turns[i]], words[i].verdict)
      ensures (exists b :: b in ledger.journal + [ledger.book] && b.state.Ready?) && !old(ledger.book).state.Ready? ==>
                turns != [] && ReadyWasSaid(lucks[turns[|turns| - 1]])
      ensures forall b :: b in ledger.journal + [ledger.book] && b.state.Ready? ==>
                old(ledger.book).state.Ready? || (words != [] && Worthy(words[|words| - 1]))
      ensures (exists i :: 0 <= i < |old(ledger.book).criteria| && old(ledger.book).criteria[i].deterministic
                           && old(ledger.book).criteria[i].key !in GATE_KEYS) ==>
                forall b :: b in ledger.journal + [ledger.book] ==> !b.state.Ready?
    {
      hide Sound, ReadyCheck, Drift, Worthy, Said, ReadyWasSaid;
      raised, exhausted, words, turns := false, false, [], [];
      ghost var was := ledger.book;
      Reconcile();
      var n := 0;
      var going := true;
      while going && n < rounds
        invariant ledger.Valid() && broker.Valid() && SameContract(was, ledger.book) && n <= rounds
        invariant |words| == |turns| <= n
        invariant forall i :: 0 <= i < |turns| ==> turns[i] < n && (i > 0 ==> turns[i - 1] < turns[i])
        invariant forall i :: 0 <= i < |words| && words[i].Judged? ==> Said(lucks[turns[i]], words[i].verdict)
        invariant going ==> !raised
        invariant (ledger.book.state.Ready? ==> was.state.Ready? || (words != [] && Worthy(words[|words| - 1])))
      {
        var luck := lucks[n];
        n := n + 1;
        var z := ledger.Read();
        if z.state.Terminal() || (z.state.Parked() && !(z.state.Blocked? && z.resumeAt > 0 && luck.now >= z.resumeAt)) {
          going := false;
        } else if z.state.Blocked? {
          var refusal := Unblock();
          raised, going := refusal.Some?, refusal.None?;
        } else {
          ghost var word;
          going, raised, word := OneRound(n, luck);
          if word.Some? {
            words, turns := words + [word.value], turns + [n - 1];
          }
        }
      }
      exhausted := going;
      if words != [] && Worthy(words[|words| - 1]) {
        LastWordSaid(lucks[turns[|turns| - 1]], words[|words| - 1]);
      }
      forall i, b | 0 <= i < |was.criteria| && was.criteria[i].deterministic && was.criteria[i].key !in GATE_KEYS
                    && b in ledger.journal + [ledger.book]
        ensures !b.state.Ready?
      {
        ForeignNeverReady(was, ledger.book, b, i);
      }
    }

    lemma LastWordSaid(luck: Luck, j: Judgement)
      requires Worthy(j) && (j.Judged? ==> Said(luck, j.verdict))
      ensures ReadyWasSaid(luck)
    {
      WorthyMeansSaid(luck, j.verdict);
    }

    lemma ForeignNeverReady(was: Book, now: Book, b: Book, i: nat)
      requires SameContract(was, now) && SameContract(b, now) && Sound(b)
      requires i < |was.criteria| && was.criteria[i].deterministic && was.criteria[i].key !in GATE_KEYS
      ensures !b.state.Ready?
    {
      UnmeasuredNeverReady(b, i);
    }
  }
}
