/**
 The technical lead: what its text may mean once it has been checked, and how often and
 under which leases it is asked. Its text is any text at all.
 */
module LeadVerdict {
  import opened Basics
  import opened MilestoneMachine

  const MAX_FINDINGS: nat := 12

  datatype Word = SayReady | SayFix | SayBuild | SayEscalate | SayNeedsHuman

  const EVENTS: set<string> := {"ARCHITECTURE_DECISION", "SECURITY_FINDING", "SECOND_FIX_FAILED",
                                "ROOT_CAUSE_REQUESTED"}

  const ACTIONS: set<string> := {"build", "fix", "root_cause", "builder_switch", "model_escalation", "challenger",
                                 "ready", "human_required"}

  const SIZES: set<string> := {"SMALL", "MEDIUM", "LARGE"}

  function WordOf(text: string): Option<Word> {
    if text == "READY" then Some(SayReady)
    else if text == "FIX" then Some(SayFix)
    else if text == "BUILD" then Some(SayBuild)
    else if text == "ESCALATE" then Some(SayEscalate)
    else if text == "NEEDS_HUMAN" then Some(SayNeedsHuman)
    else None
  }

  function SeverityOf(text: string): Option<Severity> {
    if text == "blocker" then Some(BlockerFinding)
    else if text == "major" then Some(Major)
    else if text == "minor" then Some(Minor)
    else if text == "info" then Some(Info)
    else None
  }

  /** An entry of a list in the reply may be anything; ids are resolved to the ledger's own, if they exist. */
  datatype RawFinding = NotAFinding | RawFinding(severity: string, title: string)

  datatype RawProof = NotAProof | RawProof(key: string, evidence: nat)

  /** The decoded reply, its words trimmed and in the case they are compared in. */
  datatype Raw =
    | Unreadable
    | NotAnObject
    | Reply(verdict: string, action: string, event: string, builder: string, size: string,
            findings: seq<RawFinding>, close: seq<nat>, proven: seq<RawProof>, rationale: string, task: string)

  datatype Fault =
    | UnreadableVerdict | VerdictNotAnObject | UnknownVerdict | UnknownAction | EscalationWithoutEvent
    | UnknownBuilder | UnknownSize | FindingNotAnObject | UnknownSeverity | FindingWithoutTitle
    | UnknownFinding | ProofNotAnObject | UnknownCriterion | ProofWithoutEvidence
    | LeadUnreachable | NoBroker

  datatype Verdict = Verdict(word: Word, action: string, rationale: string, task: string, findings: seq<Severity>,
                             close: seq<nat>, proven: seq<(string, nat)>, event: string, builder: string)

  datatype Judgement = Judged(verdict: Verdict) | Rejected(fault: Fault)

  /** What the ledger tells the check: who may build, which findings are open, what there is to prove and with what. */
  datatype Facts = Facts(builders: set<string>, openFindings: set<nat>, keys: set<string>, evidence: set<nat>,
                       deterministic: set<string>)

  datatype Parsed<T> = Clean(items: seq<T>) | Faulty(fault: Fault)

  function Prepend<T>(done: seq<T>, rest: Parsed<T>): Parsed<T> {
    match rest
    case Clean(items) => Clean(done + items)
    case Faulty(f) => Faulty(f)
  }

  function Capped<T>(list: seq<T>): seq<T> {
    if |list| <= MAX_FINDINGS then list else list[..MAX_FINDINGS]
  }

  function Findings(list: seq<RawFinding>): Parsed<Severity> {
    if list == [] then Clean([])
    else if list[0].NotAFinding? then Faulty(FindingNotAnObject)
    else if SeverityOf(list[0].severity).None? then Faulty(UnknownSeverity)
    else if list[0].title == "" then Faulty(FindingWithoutTitle)
    else Prepend([SeverityOf(list[0].severity).value], Findings(list[1..]))
  }

  function Closings(list: seq<nat>, open: set<nat>): Parsed<nat> {
    if list == [] then Clean([])
    else if list[0] !in open then Faulty(UnknownFinding)
    else Prepend([list[0]], Closings(list[1..], open))
  }

  function Proofs(list: seq<RawProof>, facts: Facts): Parsed<(string, nat)> {
    if list == [] then Clean([])
    else if list[0].NotAProof? then Faulty(ProofNotAnObject)
    else if list[0].key !in facts.keys then Faulty(UnknownCriterion)
    else if list[0].key in facts.deterministic then Proofs(list[1..], facts)
    else if list[0].evidence !in facts.evidence then Faulty(ProofWithoutEvidence)
    else Prepend([(list[0].key, list[0].evidence)], Proofs(list[1..], facts))
  }

  /** The faults of the reply's head, in the order they are looked for. */
  function HeadFault(raw: Raw, facts: Facts): Option<Fault> {
    if raw.Unreadable? then Some(UnreadableVerdict)
    else if raw.NotAnObject? then Some(VerdictNotAnObject)
    else if WordOf(raw.verdict).None? then Some(UnknownVerdict)
    else if raw.action !in ACTIONS then Some(UnknownAction)
    else if WordOf(raw.verdict) == Some(SayEscalate) && raw.event !in EVENTS then Some(EscalationWithoutEvent)
    else if raw.builder != "" && raw.builder !in facts.builders then Some(UnknownBuilder)
    else if raw.size !in SIZES then Some(UnknownSize)
    else None
  }

  function Check(raw: Raw, facts: Facts): Judgement {
    if HeadFault(raw, facts).Some? then Rejected(HeadFault(raw, facts).value)
    else
      match Findings(Capped(raw.findings))
      case Faulty(f) => Rejected(f)
      case Clean(findings) =>
        match Closings(Capped(raw.close), facts.openFindings)
        case Faulty(f) => Rejected(f)
        case Clean(close) =>
          match Proofs(Capped(raw.proven), facts)
          case Faulty(f) => Rejected(f)
          case Clean(proven) =>
            Judged(Verdict(WordOf(raw.verdict).value, raw.action, raw.rationale, raw.task, findings, close, proven,
                           if raw.event in EVENTS then raw.event else "", raw.builder))
  }

  method ReadFindings(list: seq<RawFinding>) returns (parsed: Parsed<Severity>)
    ensures parsed == Findings(list)
  {
    var findings: seq<Severity> := [];
    var i := 0;
    while i < |list|
      invariant 0 <= i <= |list|
      invariant Findings(list) == Prepend(findings, Findings(list[i..]))
    {
      if list[i].NotAFinding? {
        return Faulty(FindingNotAnObject);
      }
      var severity := SeverityOf(list[i].severity);
      if severity.None? {
        return Faulty(UnknownSeverity);
      }
      if list[i].title == "" {
        return Faulty(FindingWithoutTitle);
      }
      assert list[i..][1..] == list[i + 1..];
      findings := findings + [severity.value];
      i := i + 1;
    }
    parsed := Clean(findings);
  }

  method ReadClosings(list: seq<nat>, open: set<nat>) returns (parsed: Parsed<nat>)
    ensures parsed == Closings(list, open)
  {
    var close: seq<nat> := [];
    var i := 0;
    while i < |list|
      invariant 0 <= i <= |list|
      invariant Closings(list, open) == Prepend(close, Closings(list[i..], open))
    {
      if list[i] !in open {
        return Faulty(UnknownFinding);
      }
      assert list[i..][1..] == list[i + 1..];
      close := close + [list[i]];
      i := i + 1;
    }
    parsed := Clean(close);
  }

  /** An entry about a criterion that must be measured is dropped, not the whole reply. */
  method ReadProofs(list: seq<RawProof>, facts: Facts) returns (parsed: Parsed<(string, nat)>)
    ensures parsed == Proofs(list, facts)
  {
    var proven: seq<(string, nat)> := [];
    var i := 0;
    while i < |list|
      invariant 0 <= i <= |list|
      invariant Proofs(list, facts) == Prepend(proven, Proofs(list[i..], facts))
    {
      assert list[i..][1..] == list[i + 1..];
      if list[i].NotAProof? {
        return Faulty(ProofNotAnObject);
      }
      if list[i].key !in facts.keys {
        return Faulty(UnknownCriterion);
      }
      if list[i].key !in facts.deterministic {
        if list[i].evidence !in facts.evidence {
          return Faulty(ProofWithoutEvidence);
        }
        proven := proven + [(list[i].key, list[i].evidence)];
      }
      i := i + 1;
    }
    parsed := Clean(proven);
  }

  /** The check, as it goes through the lists. */
  method Validate(raw: Raw, facts: Facts) returns (j: Judgement)
    ensures j == Check(raw, facts)
  {
    if raw.Unreadable? {
      return Rejected(UnreadableVerdict);
    }
    if raw.NotAnObject? {
      return Rejected(VerdictNotAnObject);
    }
    var word := WordOf(raw.verdict);
    if word.None? {
      return Rejected(UnknownVerdict);
    }
    if raw.action !in ACTIONS {
      return Rejected(UnknownAction);
    }
    var event := raw.event;
    if word.value.SayEscalate? {
      if event !in EVENTS {
        return Rejected(EscalationWithoutEvent);
      }
    } else if event !in EVENTS {
      event := "";
    }
    if raw.builder != "" && raw.builder !in facts.builders {
      return Rejected(UnknownBuilder);
    }
    if raw.size !in SIZES {
      return Rejected(UnknownSize);
    }

    var findings := ReadFindings(Capped(raw.findings));
    if findings.Faulty? {
      return Rejected(findings.fault);
    }
    var close := ReadClosings(Capped(raw.close), facts.openFindings);
    if close.Faulty? {
      return Rejected(close.fault);
    }
    var proven := ReadProofs(Capped(raw.proven), facts);
    if proven.Faulty? {
      return Rejected(proven.fault);
    }
    j := Judged(Verdict(word.value, raw.action, raw.rationale, raw.task, findings.items, close.items, proven.items,
                        event, raw.builder));
  }

  // ---------------------------------------------------------------- what gets through

  lemma {:induction false} ProofsAreLegitimate(list: seq<RawProof>, facts: Facts)
    requires Proofs(list, facts).Clean?
    ensures |Proofs(list, facts).items| <= |list|
    ensures forall p :: p in Proofs(list, facts).items <==>
              p.0 !in facts.deterministic && RawProof(p.0, p.1) in list
    ensures forall p :: p in Proofs(list, facts).items ==> p.0 in facts.keys && p.1 in facts.evidence
  {
    if list != [] {
      ProofsAreLegitimate(list[1..], facts);
      assert list == [list[0]] + list[1..];
    }
  }

  lemma {:induction false} ListsAreLegitimate(findings: seq<RawFinding>, close: seq<nat>, open: set<nat>)
    ensures Findings(findings).Clean? ==> |Findings(findings).items| == |findings|
    ensures Closings(close, open).Clean? ==> Closings(close, open).items == close && forall f :: f in close ==> f in open
    decreases |findings| + |close|
  {
    if findings != [] {
      ListsAreLegitimate(findings[1..], close, open);
    } else if close != [] {
      ListsAreLegitimate(findings, close[1..], open);
      assert close == [close[0]] + close[1..];
    }
  }

  /**
   Whatever the lead writes: a verdict that counts proves no criterion that must be measured,
   cites only evidence that exists, closes only findings that are open, escalates only with
   an event from the catalogue, and carries at most twelve of anything.
   */
  lemma VerdictIsHarmless(raw: Raw, facts: Facts)
    requires Check(raw, facts).Judged?
    ensures var v := Check(raw, facts).verdict;
            && (forall p :: p in v.proven ==> p.0 in facts.keys && p.0 !in facts.deterministic && p.1 in facts.evidence)
            && (forall f :: f in v.close ==> f in facts.openFindings)
            && (v.word.SayEscalate? ==> v.event in EVENTS)
            && (v.builder == "" || v.builder in facts.builders)
            && |v.findings| <= MAX_FINDINGS && |v.close| <= MAX_FINDINGS && |v.proven| <= MAX_FINDINGS
            && |v.findings| == |Capped(raw.findings)|
  {
    ProofsAreLegitimate(Capped(raw.proven), facts);
    ListsAreLegitimate(Capped(raw.findings), Capped(raw.close), facts.openFindings);
  }

  // ---------------------------------------------------------------- what a verdict says

  function Twelve(n: nat): nat { if n <= 12 then n else 12 }

  /** The verdict says what the reply says, word for word. */
  predicate SaysSo(raw: Raw, v: Verdict) {
    && raw.Reply?
    && (v.word.SayReady? <==> raw.verdict == "READY") && (v.word.SayFix? <==> raw.verdict == "FIX")
    && (v.word.SayBuild? <==> raw.verdict == "BUILD") && (v.word.SayEscalate? <==> raw.verdict == "ESCALATE")
    && (v.word.SayNeedsHuman? <==> raw.verdict == "NEEDS_HUMAN")
    && v.action == raw.action && v.task == raw.task && v.rationale == raw.rationale && v.builder == raw.builder
    && v.event == (if raw.event in {"ARCHITECTURE_DECISION", "SECURITY_FINDING", "SECOND_FIX_FAILED", "ROOT_CAUSE_REQUESTED"}
                   then raw.event else "")
    && |v.findings| == Twelve(|raw.findings|)
    && (forall k :: 0 <= k < |v.findings| ==> SaysSeverity(raw.findings[k], v.findings[k]))
    && v.close == raw.close[..Twelve(|raw.close|)]
  }

  predicate SaysSeverity(raw: RawFinding, severity: Severity) {
    && raw.RawFinding?
    && (severity.BlockerFinding? <==> raw.severity == "blocker") && (severity.Major? <==> raw.severity == "major")
    && (severity.Minor? <==> raw.severity == "minor") && (severity.Info? <==> raw.severity == "info")
  }

  predicate LegibleFinding(f: RawFinding) {
    f.RawFinding? && f.severity in {"blocker", "major", "minor", "info"} && f.title != ""
  }

  predicate LegibleProof(p: RawProof, facts: Facts) {
    p.RawProof? && p.key in facts.keys && (p.key in facts.deterministic || p.evidence in facts.evidence)
  }

  predicate LegibleHead(raw: Raw, facts: Facts)
    requires raw.Reply?
  {
    && raw.verdict in {"READY", "FIX", "BUILD", "ESCALATE", "NEEDS_HUMAN"}
    && raw.action in {"build", "fix", "root_cause", "builder_switch", "model_escalation", "challenger", "ready",
                      "human_required"}
    && (raw.verdict == "ESCALATE" ==>
          raw.event in {"ARCHITECTURE_DECISION", "SECURITY_FINDING", "SECOND_FIX_FAILED", "ROOT_CAUSE_REQUESTED"})
    && (raw.builder == "" || raw.builder in facts.builders)
    && raw.size in {"SMALL", "MEDIUM", "LARGE"}
  }

  /** A reply that can be taken for a verdict. Of every list the first twelve are looked at. */
  predicate Legible(raw: Raw, facts: Facts) {
    && raw.Reply? && LegibleHead(raw, facts)
    && (forall k :: 0 <= k < Twelve(|raw.findings|) ==> LegibleFinding(raw.findings[k]))
    && (forall k :: 0 <= k < Twelve(|raw.close|) ==> raw.close[k] in facts.openFindings)
    && (forall k :: 0 <= k < Twelve(|raw.proven|) ==> LegibleProof(raw.proven[k], facts))
  }

  lemma {:induction false} FindingsLegible(list: seq<RawFinding>)
    ensures Findings(list).Clean? <==> forall k :: 0 <= k < |list| ==> LegibleFinding(list[k])
    ensures Findings(list).Clean? ==>
              |Findings(list).items| == |list|
              && forall k :: 0 <= k < |list| ==> SaysSeverity(list[k], Findings(list).items[k])
  {
    if list != [] {
      FindingsLegible(list[1..]);
      assert forall k :: 0 < k < |list| ==> list[k] == list[1..][k - 1];
      if Findings(list).Clean? {
        assert forall k :: 0 < k < |list| ==> Findings(list).items[k] == Findings(list[1..]).items[k - 1];
      } else if LegibleFinding(list[0]) {
        var k :| 0 <= k < |list[1..]| && !LegibleFinding(list[1..][k]);
        assert list[k + 1] == list[1..][k];
      }
    }
  }

  lemma {:induction false} ClosingsLegible(list: seq<nat>, open: set<nat>)
    ensures Closings(list, open).Clean? <==> forall k :: 0 <= k < |list| ==> list[k] in open
    ensures Closings(list, open).Clean? ==> Closings(list, open).items == list
  {
    if list != [] {
      ClosingsLegible(list[1..], open);
      assert forall k :: 0 < k < |list| ==> list[k] == list[1..][k - 1];
      assert list == [list[0]] + list[1..];
      if !Closings(list, open).Clean? && list[0] in open {
        var k :| 0 <= k < |list[1..]| && list[1..][k] !in open;
        assert list[k + 1] == list[1..][k];
      }
    }
  }

  lemma {:induction false} ProofsLegible(list: seq<RawProof>, facts: Facts)
    ensures Proofs(list, facts).Clean? <==> forall k :: 0 <= k < |list| ==> LegibleProof(list[k], facts)
  {
    if list != [] {
      ProofsLegible(list[1..], facts);
      assert forall k :: 0 < k < |list| ==> list[k] == list[1..][k - 1];
      if !Proofs(list, facts).Clean? && LegibleProof(list[0], facts) {
        var k :| 0 <= k < |list[1..]| && !LegibleProof(list[1..][k], facts);
        assert list[k + 1] == list[1..][k];
      }
    }
  }

  lemma HeadLegible(raw: Raw, facts: Facts)
    requires raw.Reply?
    ensures HeadFault(raw, facts).None? <==> LegibleHead(raw, facts)
    ensures LegibleHead(raw, facts) ==> WordOf(raw.verdict).Some?
  {
  }

  lemma CappedIs<T>(list: seq<T>)
    ensures Capped(list) == list[..Twelve(|list|)]
  {
  }

  lemma JudgedIffLegible(raw: Raw, facts: Facts)
    requires raw.Reply?
    ensures Check(raw, facts).Judged? <==> Legible(raw, facts)
  {
    hide Findings, Closings, Proofs, LegibleHead, LegibleFinding, LegibleProof, HeadFault, WordOf, Capped, SaysSeverity;
    FindingsLegible(Capped(raw.findings));
    ClosingsLegible(Capped(raw.close), facts.openFindings);
    ProofsLegible(Capped(raw.proven), facts);
    HeadLegible(raw, facts);
    CappedIs(raw.findings);
    CappedIs(raw.close);
    CappedIs(raw.proven);
  }

  lemma JudgedSaysSo(raw: Raw, facts: Facts)
    requires Check(raw, facts).Judged?
    ensures SaysSo(raw, Check(raw, facts).verdict)
  {
    assert raw.Reply?;
    hide Findings, Closings, Proofs, LegibleHead, LegibleFinding, LegibleProof, Capped, SaysSeverity;
    FindingsLegible(Capped(raw.findings));
    ClosingsLegible(Capped(raw.close), facts.openFindings);
    HeadLegible(raw, facts);
    CappedIs(raw.findings);
    CappedIs(raw.close);
  }

  /** Which replies count, exactly, and that the verdict is then what the reply says. */
  lemma JudgedExactly(raw: Raw, facts: Facts)
    ensures Check(raw, facts).Judged? <==> Legible(raw, facts)
    ensures Check(raw, facts).Judged? ==> SaysSo(raw, Check(raw, facts).verdict)
  {
    hide SaysSo, LegibleHead, LegibleFinding, LegibleProof;
    if raw.Reply? {
      JudgedIffLegible(raw, facts);
    }
    if Check(raw, facts).Judged? {
      JudgedSaysSo(raw, facts);
    }
  }

  // ---------------------------------------------------------------- asking

  datatype Tier = SmallTier | LargeTier

  /** How one call goes, if it is made: is there a token, a lease, and what comes back. */
  datatype Call = Call(token: bool, lease: bool, answered: bool, text: Raw)

  /** The lead's judgement, and how many calls were sent for it. */
  function Asked(tier: Tier, small: Call, large: Call, facts: Facts): (Judgement, nat)
    decreases tier.LargeTier?
  {
    var call := if tier.LargeTier? then large else small;
    if !call.token then (Rejected(NoBroker), 0)
    else if call.lease && call.answered then (Check(call.text, facts), 1)
    else
      var sent := if call.lease then 1 else 0;
      if tier.LargeTier? then
        var (j, n) := Asked(SmallTier, small, large, facts);
        (j, sent + n)
      else (Rejected(LeadUnreachable), sent)
  }

  /** The reply that counts: that of the tier asked, or of the small one behind a large one that gave none. */
  function Answering(tier: Tier, small: Call, large: Call): Option<Raw> {
    if tier == LargeTier && large.token && large.lease && large.answered then Some(large.text)
    else if (tier == SmallTier || large.token) && small.token && small.lease && small.answered then Some(small.text)
    else None
  }

  /** A judgement is the check of that reply; without one, a missing token is told from a lead that did not answer. */
  lemma AskedExactly(tier: Tier, small: Call, large: Call, facts: Facts)
    ensures var j := Asked(tier, small, large, facts).0;
            var text := Answering(tier, small, large);
            && (text.Some? ==> (j.Judged? <==> Legible(text.value, facts)))
            && (j.Judged? ==> text.Some? && SaysSo(text.value, j.verdict))
            && (text.None? ==>
                  j == Rejected(if small.token && (tier == SmallTier || large.token) then LeadUnreachable else NoBroker))
            && (text.Some? && j.Rejected? ==> j.fault !in {LeadUnreachable, NoBroker})
  {
    JudgedExactly(small.text, facts);
    JudgedExactly(large.text, facts);
    hide SaysSo, Legible, Findings, Closings, Proofs;
    FaultIsInText(small.text, facts);
    FaultIsInText(large.text, facts);
  }

  lemma FaultIsInText(raw: Raw, facts: Facts)
    ensures Check(raw, facts).Rejected? ==> Check(raw, facts).fault !in {LeadUnreachable, NoBroker}
  {
    if raw.Reply? {
      ListFaults(Capped(raw.findings), Capped(raw.close), Capped(raw.proven), facts);
      hide Findings, Closings, Proofs;
    }
  }

  lemma {:induction false} ListFaults(findings: seq<RawFinding>, close: seq<nat>, proven: seq<RawProof>, facts: Facts)
    ensures Findings(findings).Faulty? ==> Findings(findings).fault !in {LeadUnreachable, NoBroker}
    ensures Closings(close, facts.openFindings).Faulty? ==>
              Closings(close, facts.openFindings).fault !in {LeadUnreachable, NoBroker}
    ensures Proofs(proven, facts).Faulty? ==> Proofs(proven, facts).fault !in {LeadUnreachable, NoBroker}
    decreases |findings| + |close| + |proven|
  {
    if findings != [] {
      ListFaults(findings[1..], close, proven, facts);
    } else if close != [] {
      ListFaults(findings, close[1..], proven, facts);
    } else if proven != [] {
      ListFaults(findings, close, proven[1..], facts);
    }
  }

  /** The broker as the lead sees it: the leases that are open, and for each call the lease it was sent under. */
  class Broker {
    var open: set<nat>
    var issued: nat
    ghost var sent: seq<nat>

    ghost predicate Valid()
      reads this
    {
      (forall l :: l in open ==> l < issued) && (forall l :: l in sent ==> l < issued)
    }

    constructor ()
      ensures Valid() && open == {} && sent == []
    {
      open, issued, sent := {}, 0, [];
    }

    method OpenLease() returns (lease: nat)
      requires Valid()
      modifies this`open, this`issued
      ensures Valid() && lease == old(issued) < issued && lease !in old(open) && open == old(open) + {lease}
    {
      lease := issued;
      open, issued := open + {lease}, issued + 1;
    }

    /** Nothing is sent but under a lease that is open. */
    method Send(lease: nat)
      requires Valid() && lease in open
      modifies this`sent
      ensures Valid() && sent == old(sent) + [lease]
    {
      sent := sent + [lease];
    }

    method CloseLease(lease: nat)
      requires Valid()
      modifies this`open
      ensures Valid() && open == old(open) - {lease}
    {
      open := open - {lease};
    }
  }

  /** No call without a lease, opened for it and closed behind it, and the large tier falls back once. */
  method Judge(broker: Broker, tier: Tier, small: Call, large: Call, facts: Facts) returns (j: Judgement)
    requires broker.Valid()
    modifies broker
    ensures broker.Valid() && broker.open == old(broker.open) && broker.issued >= old(broker.issued)
    ensures j == Asked(tier, small, large, facts).0
    ensures |broker.sent| == |old(broker.sent)| + Asked(tier, small, large, facts).1
    ensures broker.sent[..|old(broker.sent)|] == old(broker.sent)
    ensures forall i, k :: |old(broker.sent)| <= i < k < |broker.sent| ==>
              old(broker.issued) <= broker.sent[i] < broker.sent[k]
    ensures forall i :: |old(broker.sent)| <= i < |broker.sent| ==> old(broker.issued) <= broker.sent[i]
    decreases tier.LargeTier?
  {
    var call := if tier.LargeTier? then large else small;
    if !call.token {
      return Rejected(NoBroker);
    }
    if !call.lease {
      if tier.LargeTier? {
        j := Judge(broker, SmallTier, small, large, facts);
        return;
      }
      return Rejected(LeadUnreachable);
    }
    var lease := broker.OpenLease();
    assert broker.open - {lease} == old(broker.open);
    broker.Send(lease);
    broker.CloseLease(lease);
    if !call.answered {
      if tier.LargeTier? {
        j := Judge(broker, SmallTier, small, large, facts);
        return;
      }
      return Rejected(LeadUnreachable);
    }
    j := Validate(call.text, facts);
  }

  /**
   What escalating costs, exactly, on all inputs: the large tier judges if and only if it has
   a token of its own and, where a lease was had and an answer came, that answer passes the
   check; and otherwise where the small tier would have judged. At most two calls are made.
   */
  lemma EscalationExactly(small: Call, large: Call, facts: Facts)
    ensures Asked(SmallTier, small, large, facts).1 <= 1 && Asked(LargeTier, small, large, facts).1 <= 2
    ensures Asked(LargeTier, small, large, facts).0.Judged?
            <==> large.token && if large.lease && large.answered then Check(large.text, facts).Judged?
                                else Asked(SmallTier, small, large, facts).0.Judged?
    ensures Asked(SmallTier, small, large, facts).0.Judged? ==>
              (Asked(LargeTier, small, large, facts).0.Judged?
               <==> large.token && (large.lease && large.answered ==> Check(large.text, facts).Judged?))
    ensures large.token && !(large.lease && large.answered) ==>
              Asked(LargeTier, small, large, facts).0 == Asked(SmallTier, small, large, facts).0
  {
  }

  const NO_FACTS: Facts := Facts({}, {}, {}, {}, {})

  const GOOD_CALL: Call := Call(true, true, true, Reply("READY", "ready", "", "", "SMALL", [], [], [], "", ""))

  /**
   Escalating can cost an answer the small tier would have given: the large tier has no
   token, or it answers and its answer is refused. Neither falls back.
   */
  lemma EscalationCosts()
    ensures Asked(SmallTier, GOOD_CALL, GOOD_CALL, NO_FACTS).0.Judged?
    ensures Asked(LargeTier, GOOD_CALL, GOOD_CALL.(token := false), NO_FACTS).0 == Rejected(NoBroker)
    ensures Asked(LargeTier, GOOD_CALL, GOOD_CALL.(text := Unreadable), NO_FACTS).0 == Rejected(UnreadableVerdict)
  {
    assert "ready" in ACTIONS && "SMALL" in SIZES;
    assert Check(GOOD_CALL.text, NO_FACTS).Judged?;
  }

  /** The same of whatever a judgement comes from, small tier or large. */
  lemma JudgementIsHarmless(tier: Tier, small: Call, large: Call, facts: Facts)
    requires Asked(tier, small, large, facts).0.Judged?
    ensures forall p :: p in Asked(tier, small, large, facts).0.verdict.proven ==>
              p.0 in facts.keys && p.0 !in facts.deterministic && p.1 in facts.evidence
    ensures forall f :: f in Asked(tier, small, large, facts).0.verdict.close ==> f in facts.openFindings
    decreases tier.LargeTier?
  {
    var call := if tier.LargeTier? then large else small;
    if call.lease && call.answered {
      VerdictIsHarmless(call.text, facts);
    } else {
      JudgementIsHarmless(SmallTier, small, large, facts);
    }
  }
}
