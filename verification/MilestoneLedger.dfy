/**
 The milestone's ledger as the driver uses it, shared with the owner, who may stop the
 milestone or answer a boundary from another process between any two writes. Every state the
 ledger goes through is kept in a journal, so that a crash anywhere is one of its entries.
 */
module MilestoneLedger {
  import opened Basics
  import opened MilestoneMachine

  // ---------------------------------------------------------------- the writes

  function AddEvidence(b: Book, e: Evidence): Book { b.(evidence := b.evidence + [e]) }

  function AddFinding(b: Book, severity: Severity): Book { b.(findings := b.findings + [Finding(severity, true)]) }

  function CloseFindingAt(b: Book, i: nat): Book {
    if i < |b.findings| then b.(findings := b.findings[i := b.findings[i].(open := false)]) else b
  }

  function Prove(c: Criterion, key: string, evidence: nat): Criterion {
    if c.key == key then c.(state := Proven(evidence)) else c
  }

  /** An UPDATE by key. */
  function ProveAll(b: Book, key: string, evidence: nat): Book {
    b.(criteria := seq(|b.criteria|, i requires 0 <= i < |b.criteria| => Prove(b.criteria[i], key, evidence)))
  }

  function AddPhase(b: Book, p: Phase): Book { b.(phases := b.phases + [p]) }

  function EndPhase(b: Book, i: nat, s: PhaseState): Book {
    if i < |b.phases| then b.(phases := b.phases[i := b.phases[i].(state := s)]) else b
  }

  /** The contract's criteria are pinned: their keys and kinds never change. */
  predicate SameContract(a: Book, b: Book) {
    |a.criteria| == |b.criteria|
    && forall i :: 0 <= i < |a.criteria| ==> a.criteria[i].key == b.criteria[i].key
                                             && a.criteria[i].deterministic == b.criteria[i].deterministic
  }

  lemma SameContractTrans(a: Book, b: Book, c: Book)
    requires SameContract(a, b) && SameContract(b, c)
    ensures SameContract(a, c)
  {
  }

  lemma EvidenceKeeps(b: Book, e: Evidence)
    requires Sound(b)
    ensures Sound(AddEvidence(b, e))
  {
    var b' := AddEvidence(b, e);
    forall i | 0 <= i < |b.criteria| ensures Backed(b', b.criteria[i]) {
      assert Backed(b, b.criteria[i]);
    }
    MeasuredStays(b, e, b.lastCommit);
  }

  lemma MeasuredStays(b: Book, e: Evidence, commit: string)
    ensures Measured(b, commit) ==> Measured(AddEvidence(b, e), commit)
    ensures MeasuredGreen(b, commit) ==> MeasuredGreen(AddEvidence(b, e), commit)
  {
    var b' := AddEvidence(b, e);
    if Measured(b, commit) {
      var i :| 0 <= i < |b.evidence| && b.evidence[i].kind.TestReport? && b.evidence[i].commit == commit;
      assert b'.evidence[i] == b.evidence[i];
    }
    if MeasuredGreen(b, commit) {
      var i :| 0 <= i < |b.evidence| && b.evidence[i].kind.TestReport? && b.evidence[i].commit == commit && b.evidence[i].ok;
      assert b'.evidence[i] == b.evidence[i];
    }
  }

  lemma SideKeeps(b: Book, b': Book)
    requires Sound(b) && b' == b.(task := b'.task, phases := b'.phases, boundaries := b'.boundaries)
    ensures Sound(b')
  {
    forall i | 0 <= i < |b.criteria| ensures Backed(b', b.criteria[i]) {
      assert Backed(b, b.criteria[i]);
    }
  }

  lemma FindingsKeep(b: Book, b': Book)
    requires Sound(b) && !b.state.Ready? && b' == b.(findings := b'.findings)
    ensures Sound(b')
  {
    forall i | 0 <= i < |b.criteria| ensures Backed(b', b.criteria[i]) {
      assert Backed(b, b.criteria[i]);
    }
  }

  predicate MayMoveCommit(b: Book) {
    !b.state.Reviewing? && !b.state.Ready? && b.origin != Some(Reviewing)
  }

  lemma CommitKeeps(b: Book, commit: string)
    requires Sound(b) && MayMoveCommit(b)
    ensures Sound(b.(lastCommit := commit))
  {
    forall i | 0 <= i < |b.criteria| ensures Backed(b.(lastCommit := commit), b.criteria[i]) {
      assert Backed(b, b.criteria[i]);
    }
  }

  /** Evidence that may prove the criteria of this key: any for a judgement, a green gate for a measurement. */
  predicate MayProve(b: Book, key: string, evidence: nat) {
    && evidence < |b.evidence|
    && ((exists i :: 0 <= i < |b.criteria| && b.criteria[i].key == key && b.criteria[i].deterministic) ==>
          key in GATE_KEYS && b.evidence[evidence].kind.TestReport? && b.evidence[evidence].ok)
  }

  lemma ProofKeeps(b: Book, key: string, evidence: nat)
    requires Sound(b) && MayProve(b, key, evidence)
    ensures Sound(ProveAll(b, key, evidence)) && SameContract(b, ProveAll(b, key, evidence))
  {
    var b' := ProveAll(b, key, evidence);
    forall i | 0 <= i < |b.criteria| ensures Backed(b', b'.criteria[i]) {
      assert Backed(b, b.criteria[i]);
      assert b'.criteria[i] == Prove(b.criteria[i], key, evidence);
    }
  }

  // ---------------------------------------------------------------- the owner

  datatype OwnerAct = StopIt | AnswerIt

  function Answered(b: Book): Book {
    if b.boundaries > 0 then b.(boundaries := b.boundaries - 1) else b
  }

  function Unparked(b: Book): Book {
    if b.state.HumanRequired? && b.boundaries == 0 && b.origin.Some? then
      match Step(b, b.origin.value) case Moved(b') => b' case Refused(_) => b
    else b
  }

  function OwnerDoes(b: Book, act: OwnerAct): Book {
    match act
    case StopIt => (match Step(b, Stopped) case Moved(b') => b' case Refused(_) => b)
    case AnswerIt => if b.boundaries > 0 then Unparked(Answered(b)) else b
  }

  /** One turn of the owner's: any number of acts, in order. */
  function OwnerActs(b: Book, acts: seq<OwnerAct>): Book {
    if acts == [] then b else OwnerDoes(OwnerActs(b, acts[..|acts| - 1]), acts[|acts| - 1])
  }

  lemma OneMoreAct(b: Book, acts: seq<OwnerAct>, i: nat)
    requires i < |acts|
    ensures OwnerActs(b, acts[..i + 1]) == OwnerDoes(OwnerActs(b, acts[..i]), acts[i])
    ensures OwnerActs(b, acts[..0]) == b && acts[..|acts|] == acts
  {
    assert acts[..i + 1][..i] == acts[..i];
  }

  function NextActs(owner: seq<seq<OwnerAct>>): seq<OwnerAct> { if owner == [] then [] else owner[0] }

  function LaterActs(owner: seq<seq<OwnerAct>>): seq<seq<OwnerAct>> { if owner == [] then [] else owner[1..] }

  /** What the driver can rely on across anything the owner does. */
  predicate Drift(a: Book, b: Book) {
    && b.evidence == a.evidence && b.criteria == a.criteria && b.findings == a.findings && b.phases == a.phases
    && b.lastCommit == a.lastCommit && b.task == a.task
    && (b.state == a.state || (b.state.Stopped? && !a.state.Terminal())
        || (a.state.HumanRequired? && Some(b.state) == a.origin))
    && (b.state == a.state ==> b.origin == a.origin && b.blockReason == a.blockReason && b.resumeAt == a.resumeAt)
    && (b.state != a.state ==> b.origin.None? && !b.state.Parked())
  }

  lemma OwnerKeeps(b: Book, act: OwnerAct)
    requires Sound(b)
    ensures Sound(OwnerDoes(b, act)) && Drift(b, OwnerDoes(b, act)) && Sound(Answered(b))
  {
    SideKeeps(b, Answered(b));
    TransitionKeeps(b, Stopped, None, false, None, 0);
    if b.origin.Some? {
      TransitionKeeps(Answered(b), b.origin.value, None, false, None, 0);
    }
  }

  lemma DriftTransitive(a: Book, b: Book, c: Book)
    requires Sound(a) && Drift(a, b) && Drift(b, c)
    ensures Drift(a, c)
  {
  }

  /** The owner makes nothing READY and takes READY from nobody. */
  lemma DriftReady(a: Book, b: Book)
    requires Sound(a) && Drift(a, b)
    ensures a.state.Ready? <==> b.state.Ready?
  {
  }

  // ---------------------------------------------------------------- the shared ledger

  /** `owner` scripts what the owner does before each next write; `seen` is the book right before it. */
  class AutopilotLedger {
    var book: Book
    var owner: seq<seq<OwnerAct>>
    ghost var seen: Book
    ghost var journal: seq<Book>

    /** Sound now and ever since, about one and the same contract, and READY for good once it is. */
    ghost predicate Valid()
      reads this
    {
      && Sound(book)
      && forall b :: b in journal ==> Sound(b) && SameContract(b, book) && (b.state.Ready? ==> book.state.Ready?)
    }

    constructor (criteria: seq<Criterion>, owner: seq<seq<OwnerAct>>)
      requires forall i :: 0 <= i < |criteria| ==> criteria[i].state.OpenCriterion?
      ensures Valid() && book.state.Planning? && book.criteria == criteria
    {
      this.owner := owner;
      book := Book(Planning, None, None, 0, "", "", [], criteria, [], 0, []);
      seen := Book(Planning, None, None, 0, "", "", [], criteria, [], 0, []);
      journal := [];
    }

    method Log(b: Book)
      requires Valid() && Sound(b) && SameContract(book, b) && (book.state.Ready? ==> b.state.Ready?)
      modifies this`book, this`journal
      ensures Valid() && book == b && journal == old(journal) + [b]
    {
      forall a | a in journal ensures SameContract(a, b) {
        SameContractTrans(a, book, b);
      }
      book := b;
      journal := journal + [b];
    }

    /** The owner's turn: any number of answers and stops. */
    method Interleave()
      requires Valid()
      modifies this
      ensures Valid() && Drift(old(book), book) && seen == book && SameContract(old(book), book)
      ensures book == OwnerActs(old(book), NextActs(old(owner))) && owner == LaterActs(old(owner))
      ensures |journal| >= |old(journal)| && journal[..|old(journal)|] == old(journal)
    {
      var acts := [];
      if owner != [] {
        acts, owner := owner[0], owner[1..];
      }
      ghost var first := book;
      assert acts[..0] == [] && acts[..|acts|] == acts && OwnerActs(first, []) == first;
      hide OwnerActs, OwnerDoes;
      var i := 0;
      while i < |acts|
        invariant 0 <= i <= |acts| && Valid() && Drift(first, book)
        invariant book == OwnerActs(first, acts[..i]) && acts == NextActs(old(owner)) && owner == LaterActs(old(owner))
        invariant |journal| >= |old(journal)| && journal[..|old(journal)|] == old(journal)
      {
        OneMoreAct(first, acts, i);
        OwnerKeeps(book, acts[i]);
        DriftTransitive(first, book, OwnerDoes(book, acts[i]));
        var before := book;
        if acts[i].AnswerIt? && before.boundaries > 0 {
          Log(Answered(before));
        }
        Log(OwnerDoes(before, acts[i]));
        i := i + 1;
      }
      seen := book;
    }

    /** Reading is only a look: the owner may already have moved on. */
    method Read() returns (b: Book)
      requires Valid()
      modifies this
      ensures Valid() && b == book && Drift(old(book), book) && SameContract(old(book), book)
      ensures b.state.Ready? <==> old(book).state.Ready?
    {
      Interleave();
      DriftReady(old(book), book);
      b := book;
    }

    method Transition(target: State, gate: Option<nat>, verdictReady: bool, reason: Option<BlockReason>, resumeAt: nat)
      returns (refusal: Option<Refusal>)
      requires Valid() && (target.Ready? ==> ForLastCommit(book, gate))
      modifies this
      ensures Valid() && Drift(old(book), seen) && SameContract(old(book), book)
      ensures seen == OwnerActs(old(book), NextActs(old(owner))) && owner == LaterActs(old(owner))
      ensures match MilestoneMachine.Transition(seen, target, gate, verdictReady, reason, resumeAt)
              case Moved(b) => book == b && refusal.None?
              case Refused(why) => book == seen && refusal == Some(why)
    {
      Interleave();
      TransitionKeeps(book, target, gate, verdictReady, reason, resumeAt);
      match MilestoneMachine.Transition(book, target, gate, verdictReady, reason, resumeAt) {
        case Moved(b) =>
          Log(b);
          refusal := None;
        case Refused(why) =>
          refusal := Some(why);
      }
    }

    /** Opens the boundary first; when the move is refused, the boundary stays. */
    method Park() returns (refusal: Option<Refusal>)
      requires Valid()
      modifies this
      ensures Valid() && Drift(old(book), seen) && SameContract(old(book), book)
      ensures seen == OwnerActs(OpenBoundary(OwnerActs(old(book), NextActs(old(owner)))), NextActs(LaterActs(old(owner))))
      ensures book == (match Step(seen, HumanRequired) case Moved(b) => b case Refused(_) => seen)
      ensures refusal == (match Step(seen, HumanRequired) case Moved(_) => None case Refused(why) => Some(why))
      ensures old(book).state.Working() && !old(book).state.Testing? ==>
                (refusal.None? && book.state.HumanRequired?) || book.state.Stopped?
                || (refusal == Some(NoOpenBoundary) && book.state == old(book).state)
    {
      Interleave();
      ghost var first := book;
      SideKeeps(book, OpenBoundary(book));
      Log(OpenBoundary(book));
      refusal := Transition(HumanRequired, None, false, None, 0);
      DriftTransitive(old(book), first, seen);
    }

    method OpenFinding(severity: Severity)
      requires Valid() && !book.state.Ready?
      modifies this
      ensures Valid() && Drift(old(book), seen) && book == AddFinding(seen, severity) && SameContract(old(book), book)
    {
      Interleave();
      FindingsKeep(book, AddFinding(book, severity));
      Log(AddFinding(book, severity));
    }

    method CloseFinding(i: nat)
      requires Valid() && !book.state.Ready?
      modifies this
      ensures Valid() && Drift(old(book), seen) && book == CloseFindingAt(seen, i) && SameContract(old(book), book)
    {
      Interleave();
      FindingsKeep(book, CloseFindingAt(book, i));
      Log(CloseFindingAt(book, i));
    }

    method SetProven(key: string, evidence: nat)
      requires Valid() && MayProve(book, key, evidence)
      modifies this
      ensures Valid() && Drift(old(book), seen) && book == ProveAll(seen, key, evidence) && SameContract(old(book), book)
    {
      Interleave();
      ProofKeeps(book, key, evidence);
      Log(ProveAll(book, key, evidence));
    }

    method RecordEvidence(e: Evidence) returns (id: nat)
      requires Valid()
      modifies this
      ensures Valid() && Drift(old(book), seen) && book == AddEvidence(seen, e) && id == |old(book).evidence|
      ensures SameContract(old(book), book)
    {
      Interleave();
      EvidenceKeeps(book, e);
      id := |book.evidence|;
      Log(AddEvidence(book, e));
    }

    method SetLastCommit(commit: string)
      requires Valid() && MayMoveCommit(book) && !book.state.Parked()
      modifies this
      ensures Valid() && Drift(old(book), seen) && book == seen.(lastCommit := commit) && SameContract(old(book), book)
    {
      Interleave();
      CommitKeeps(book, commit);
      Log(book.(lastCommit := commit));
    }

    method SetTask(task: string)
      requires Valid()
      modifies this
      ensures Valid() && Drift(old(book), seen) && book == seen.(task := task) && SameContract(old(book), book)
    {
      Interleave();
      SideKeeps(book, book.(task := task));
      Log(book.(task := task));
    }

    method StartPhase(kind: PhaseKind, builder: string, digest: (string, string)) returns (id: nat)
      requires Valid()
      modifies this
      ensures Valid() && Drift(old(book), seen) && SameContract(old(book), book)
      ensures book == AddPhase(seen, Phase(kind, builder, digest, PhaseRunning)) && id == |old(book).phases|
    {
      Interleave();
      id := |book.phases|;
      SideKeeps(book, AddPhase(book, Phase(kind, builder, digest, PhaseRunning)));
      Log(AddPhase(book, Phase(kind, builder, digest, PhaseRunning)));
    }

    method FinishPhase(id: nat, s: PhaseState)
      requires Valid()
      modifies this
      ensures Valid() && Drift(old(book), seen) && book == EndPhase(seen, id, s) && SameContract(old(book), book)
    {
      Interleave();
      SideKeeps(book, EndPhase(book, id, s));
      Log(EndPhase(book, id, s));
    }
  }
}
