/**
 The test gate: a suite passes only on the word of the runner-owned channel, identity by
 identity; the run passes only if every suite does and the tracked baseline agrees.
 */
module TestGate {

  datatype Outcome = PassedTest | SkippedTest | IncompleteAsync | InvalidDefinition | OtherOutcome

  datatype Entry = NotAnEntry | Entry(id: string, outcome: Outcome, started: bool, completed: bool)

  /** What the channel delivered: nothing that could be read, something else than a manifest, or a manifest. */
  datatype Channel = Nothing | Malformed | Manifest(ran: bool, entries: seq<Entry>)

  /** Numbers read off a suite's own output; they may be anything. */
  datatype Logs = Logs(collected: int, passed: int, failed: int, skipped: int)

  /** A suite, and how its worker went. */
  datatype Suite = Suite(path: string, expected: seq<string>, invalidDefs: seq<string>, rc: int, timedOut: bool,
                         channel: Channel, logs: Logs, neverAwaited: bool)

  // ---------------------------------------------------------------- what a clean suite is

  predicate Clean(e: Entry) {
    e.Entry? && (e.outcome.PassedTest? || e.outcome.SkippedTest?) && !(e.started && !e.completed)
  }

  predicate Unique(entries: seq<Entry>) {
    forall i, j :: 0 <= i < j < |entries| && entries[i].Entry? && entries[j].Entry? ==> entries[i].id != entries[j].id
  }

  function IdSet(entries: seq<Entry>): set<string> {
    set i | 0 <= i < |entries| && entries[i].Entry? :: entries[i].id
  }

  function AsSet(ids: seq<string>): set<string> {
    set i | 0 <= i < |ids| :: ids[i]
  }

  /** A manifest of a worker that ran, with nothing else among its entries. */
  predicate Trusted(channel: Channel) {
    channel.Manifest? && channel.ran && OnlyEntries(channel.entries)
  }

  predicate OnlyEntries(entries: seq<Entry>) {
    forall i :: 0 <= i < |entries| ==> entries[i].Entry?
  }

  /** Exactly the expected tests, each once, each finished and passed or skipped. */
  predicate ExactlyAsExpected(entries: seq<Entry>, expected: seq<string>) {
    && (forall i :: 0 <= i < |entries| ==> Clean(entries[i]))
    && Unique(entries) && IdSet(entries) == AsSet(expected)
  }

  predicate SomethingRan(entries: seq<Entry>) {
    exists i :: 0 <= i < |entries| && entries[i].Entry? && !entries[i].outcome.SkippedTest?
  }

  predicate Verified(s: Suite) {
    && s.channel.Manifest? && s.channel.ran
    && ExactlyAsExpected(s.channel.entries, s.expected) && s.expected != [] && SomethingRan(s.channel.entries)
    && s.rc == 0 && !s.neverAwaited && s.invalidDefs == []
  }

  // ---------------------------------------------------------------- counting

  predicate Bad(e: Entry) { e.Entry? && !e.outcome.PassedTest? && !e.outcome.SkippedTest? }

  function CountBad(entries: seq<Entry>): nat {
    if entries == [] then 0 else CountBad(entries[..|entries| - 1]) + if Bad(entries[|entries| - 1]) then 1 else 0
  }

  function CountSkipped(entries: seq<Entry>): nat {
    if entries == [] then 0
    else CountSkipped(entries[..|entries| - 1])
         + if entries[|entries| - 1].Entry? && entries[|entries| - 1].outcome.SkippedTest? then 1 else 0
  }

  lemma {:induction false} CountsMean(entries: seq<Entry>)
    requires OnlyEntries(entries)
    ensures CountBad(entries) == 0 <==> forall i :: 0 <= i < |entries| ==> !Bad(entries[i])
    ensures CountSkipped(entries) <= |entries|
    ensures CountSkipped(entries) < |entries| <==> SomethingRan(entries)
  {
    if entries != [] {
      var n := |entries| - 1;
      CountsMean(entries[..n]);
      if SomethingRan(entries[..n]) {
        var i :| 0 <= i < n && entries[..n][i].Entry? && !entries[..n][i].outcome.SkippedTest?;
        assert !entries[i].outcome.SkippedTest?;
      }
      if SomethingRan(entries) && entries[n].outcome.SkippedTest? {
        var i :| 0 <= i < |entries| && entries[i].Entry? && !entries[i].outcome.SkippedTest?;
        assert entries[..n][i] == entries[i];
      }
    }
  }

  function BadAt(entries: seq<Entry>): set<int> { set i | 0 <= i < |entries| && Bad(entries[i]) }

  function SkippedAt(entries: seq<Entry>): set<int> {
    set i | 0 <= i < |entries| && entries[i].Entry? && entries[i].outcome == SkippedTest
  }

  lemma OneMore(entries: seq<Entry>)
    requires entries != []
    ensures var n := |entries| - 1;
            && BadAt(entries) == BadAt(entries[..n]) + (if Bad(entries[n]) then {n} else {})
            && SkippedAt(entries) == SkippedAt(entries[..n])
                                     + (if entries[n].Entry? && entries[n].outcome == SkippedTest then {n} else {})
            && n !in BadAt(entries[..n]) && n !in SkippedAt(entries[..n])
  {
  }

  /** The counters are how many entries are bad, and how many were skipped. */
  lemma {:induction false} CountersCount(entries: seq<Entry>)
    ensures CountBad(entries) == |BadAt(entries)| && CountSkipped(entries) == |SkippedAt(entries)|
  {
    if entries == [] {
      assert BadAt(entries) == {} && SkippedAt(entries) == {};
    } else {
      CountersCount(entries[..|entries| - 1]);
      OneMore(entries);
      hide BadAt, SkippedAt, Bad;
    }
  }

  lemma CountOneMore(entries: seq<Entry>, k: nat)
    requires k < |entries| && entries[k].Entry?
    ensures CountSkipped(entries[..k + 1]) == CountSkipped(entries[..k]) + (if entries[k].outcome.SkippedTest? then 1 else 0)
    ensures CountBad(entries[..k + 1]) == CountBad(entries[..k]) + (if Bad(entries[k]) then 1 else 0)
  {
    assert entries[..k + 1][..k] == entries[..k];
  }

  lemma NothingCounted(entries: seq<Entry>)
    ensures CountSkipped(entries[..0]) == 0 && CountBad(entries[..0]) == 0
  {
  }

  /** The identities that have come before. */
  function Repeated(ids: seq<string>): set<string> {
    set j | 0 <= j < |ids| && ids[j] in ids[..j] :: ids[j]
  }

  lemma NothingSeen()
    ensures AsSet([]) == {} && Repeated([]) == {}
  {
  }

  lemma OneMoreSeen(ids: seq<string>, k: nat)
    requires k < |ids|
    ensures AsSet(ids[..k + 1]) == AsSet(ids[..k]) + {ids[k]}
    ensures Repeated(ids[..k + 1]) == Repeated(ids[..k]) + if ids[k] in AsSet(ids[..k]) then {ids[k]} else {}
  {
    var more := ids[..k + 1];
    assert more[..k] == ids[..k] && more[k] == ids[k];
    assert forall j :: 0 <= j < k ==> more[j] == ids[..k][j] && more[..j] == ids[..k][..j];
    assert ids[k] in ids[..k] <==> ids[k] in AsSet(ids[..k]);
  }

  lemma RepeatedMeans(ids: seq<string>)
    ensures forall d :: d in Repeated(ids) <==> exists i, j :: 0 <= i < j < |ids| && ids[i] == d && ids[j] == d
    ensures Repeated(ids) == {} <==> forall i, j :: 0 <= i < j < |ids| ==> ids[i] != ids[j]
  {
    forall i, j | 0 <= i < j < |ids| && ids[i] == ids[j] ensures ids[i] in Repeated(ids) {
      assert ids[..j][i] == ids[j];
    }
    forall d | d in Repeated(ids) ensures exists i, j :: 0 <= i < j < |ids| && ids[i] == d && ids[j] == d {
      var j :| 0 <= j < |ids| && ids[j] in ids[..j] && ids[j] == d;
      var i :| 0 <= i < j && ids[..j][i] == ids[j];
      assert ids[i] == d;
    }
  }

  function Max(a: int, b: int): int { if a >= b then a else b }

  /** The result of a suite, overwritten by one pass after the other. */
  class Result {
    var rc: int
    var collected: int
    var passed: int
    var failed: int
    var skipped: int
    var executedIds: seq<string>
    var missing: set<string>
    var unexpected: set<string>
    var duplicates: set<string>
    var incomplete: set<string>
    var invalid: set<string>
    var protocolError: bool
    var timedOut: bool
    var crashed: bool
    var unverified: bool

    constructor ()
      ensures failed == 0 && !unverified && !protocolError && !crashed && invalid == {} && executedIds == []
    {
      rc, collected, passed, failed, skipped := 0, 0, 0, 0, 0;
      executedIds := [];
      missing, unexpected, duplicates, incomplete, invalid := {}, {}, {}, {}, {};
      protocolError, timedOut, crashed, unverified := false, false, false, false;
    }

    /** Nothing trustworthy came: every expected test is missing, by name. */
    method Unverified(expected: seq<string>)
      modifies this`unverified, this`failed, this`collected, this`executedIds, this`passed, this`skipped, this`missing
      ensures unverified && failed >= 1 && executedIds == [] && missing == AsSet(expected) && collected == |expected|
    {
      unverified := true;
      failed := Max(failed, 1);
      collected := |expected|;
      executedIds, passed, skipped := [], 0, 0;
      missing := AsSet(expected);
    }

    /** Who reported twice. */
    static method Duplicates(ids: seq<string>) returns (seen: set<string>, dups: set<string>)
      ensures seen == AsSet(ids) && dups == Repeated(ids)
      ensures dups == {} <==> forall i, j :: 0 <= i < j < |ids| ==> ids[i] != ids[j]
      ensures forall d :: d in dups <==> exists i, j :: 0 <= i < j < |ids| && ids[i] == d && ids[j] == d
    {
      hide AsSet, Repeated;
      seen, dups := {}, {};
      NothingSeen();
      assert ids[..0] == [];
      var k := 0;
      while k < |ids|
        invariant 0 <= k <= |ids| && seen == AsSet(ids[..k]) && dups == Repeated(ids[..k])
      {
        OneMoreSeen(ids, k);
        if ids[k] in seen {
          dups := dups + {ids[k]};
        }
        seen := seen + {ids[k]};
        k := k + 1;
      }
      assert ids[..k] == ids;
      RepeatedMeans(ids);
    }

    /** The counts and the identities of a manifest, which replace whatever was read off the output. */
    method Count(entries: seq<Entry>)
      requires OnlyEntries(entries)
      modifies this`executedIds, this`skipped, this`passed, this`failed, this`incomplete, this`invalid
      ensures |executedIds| == |entries| && forall i :: 0 <= i < |entries| ==> executedIds[i] == entries[i].id
      ensures skipped == CountSkipped(entries) && failed == CountBad(entries)
      ensures passed + skipped + failed == |entries|
      ensures incomplete == {} <==> forall i :: 0 <= i < |entries| ==>
                !entries[i].outcome.IncompleteAsync? && !(entries[i].started && !entries[i].completed)
      ensures invalid == {} <==> forall i :: 0 <= i < |entries| ==> !entries[i].outcome.InvalidDefinition?
    {
      hide CountBad, CountSkipped;
      NothingCounted(entries);
      executedIds, skipped, passed, failed, incomplete, invalid := [], 0, 0, 0, {}, {};
      var k := 0;
      while k < |entries|
        invariant 0 <= k <= |entries| == |entries|
        invariant |executedIds| == k && forall i :: 0 <= i < k ==> executedIds[i] == entries[i].id
        invariant skipped == CountSkipped(entries[..k]) && failed == CountBad(entries[..k])
        invariant passed + skipped + failed == k
        invariant incomplete == {} <==> forall i :: 0 <= i < k ==>
                    !entries[i].outcome.IncompleteAsync? && !(entries[i].started && !entries[i].completed)
        invariant invalid == {} <==> forall i :: 0 <= i < k ==> !entries[i].outcome.InvalidDefinition?
      {
        var e := entries[k];
        CountOneMore(entries, k);
        executedIds := executedIds + [e.id];
        if e.outcome.SkippedTest? {
          skipped := skipped + 1;
        }
        if e.outcome.PassedTest? {
          passed := passed + 1;
        }
        if Bad(e) {
          failed := failed + 1;
        }
        if e.outcome.IncompleteAsync? || (e.started && !e.completed) {
          incomplete := incomplete + {e.id};
        }
        if e.outcome.InvalidDefinition? {
          invalid := invalid + {e.id};
        }
        k := k + 1;
      }
      assert entries[..k] == entries;
    }

    /** Expected identities must equal executed identities; anything less is not verified. */
    method EnforceContract(channel: Channel, expected: seq<string>)
      modifies this`unverified, this`failed, this`collected, this`executedIds, this`passed, this`skipped, this`missing,
               this`unexpected, this`duplicates, this`incomplete, this`invalid
      ensures failed >= 0 && collected == |expected|
      ensures failed == 0 <==> channel.Manifest? && channel.ran && ExactlyAsExpected(channel.entries, expected)
      ensures failed == 0 ==> !unverified && |executedIds| == |channel.entries| && skipped == CountSkipped(channel.entries)
                              && invalid == {} && Trusted(channel)
      ensures unverified == !Trusted(channel)
      ensures missing == AsSet(expected) - if Trusted(channel) then IdSet(channel.entries) else {}
      ensures Trusted(channel) ==>
                unexpected == IdSet(channel.entries) - AsSet(expected)
                && passed + skipped + CountBad(channel.entries) == |channel.entries|
    {
      hide Unique, IdSet, Clean, Bad, CountBad, CountSkipped, ExactlyAsExpected, AsSet, OnlyEntries;
      if !Trusted(channel) {
        if channel.Manifest? && channel.ran {
          NotExact(channel, expected);
        }
        Unverified(expected);
        return;
      }
      var entries := channel.entries;
      unverified := false;
      Count(entries);
      SameIds(entries, executedIds);
      var seen;
      seen, duplicates := Duplicates(executedIds);
      missing := AsSet(expected) - seen;
      unexpected := seen - AsSet(expected);
      collected := |expected|;
      VerdictMeans(entries, expected, executedIds, duplicates == {}, incomplete == {}, invalid == {});
      if missing != {} || unexpected != {} || duplicates != {} || incomplete != {} || invalid != {} {
        failed := Max(failed, 1);
      }
    }

    static lemma NotExact(channel: Channel, expected: seq<string>)
      requires channel.Manifest? && !OnlyEntries(channel.entries)
      ensures !ExactlyAsExpected(channel.entries, expected)
    {
    }

    /** What the passes found is what it means to be exactly as expected. */
    static lemma VerdictMeans(entries: seq<Entry>, expected: seq<string>, ids: seq<string>, once: bool, complete: bool,
                              defined: bool)
      requires OnlyEntries(entries) && |ids| == |entries| && forall i :: 0 <= i < |entries| ==> ids[i] == entries[i].id
      requires once <==> forall i, j :: 0 <= i < j < |ids| ==> ids[i] != ids[j]
      requires complete <==> forall i :: 0 <= i < |entries| ==>
                 !entries[i].outcome.IncompleteAsync? && !(entries[i].started && !entries[i].completed)
      requires defined <==> forall i :: 0 <= i < |entries| ==> !entries[i].outcome.InvalidDefinition?
      ensures CountBad(entries) == 0 && AsSet(expected) - AsSet(ids) == {} && AsSet(ids) - AsSet(expected) == {}
              && once && complete && defined
              <==> ExactlyAsExpected(entries, expected)
    {
      SameIds(entries, ids);
      CountsMean(entries);
      assert forall i :: 0 <= i < |entries| ==>
               (Clean(entries[i]) <==> !Bad(entries[i]) && !(entries[i].started && !entries[i].completed));
      hide Unique, IdSet, AsSet, CountBad;
      assert AsSet(expected) - AsSet(ids) == {} && AsSet(ids) - AsSet(expected) == {} <==> AsSet(ids) == AsSet(expected);
    }

    static lemma SameIds(entries: seq<Entry>, ids: seq<string>)
      requires OnlyEntries(entries) && |ids| == |entries| && forall i :: 0 <= i < |entries| ==> ids[i] == entries[i].id
      ensures AsSet(ids) == IdSet(entries)
      ensures Unique(entries) <==> forall i, j :: 0 <= i < j < |ids| ==> ids[i] != ids[j]
    {
    }

    function Executed(): int
      reads this
    {
      if unverified then 0
      else if executedIds != [] then |executedIds| - skipped
      else collected - skipped
    }

    /** A suite that collects or executes nothing has failed. */
    method EnforceNonEmpty()
      modifies this`failed
      ensures failed == if collected <= 0 || Executed() <= 0 then Max(old(failed), 1) else old(failed)
    {
      if collected <= 0 {
        failed := Max(failed, 1);
      } else if Executed() <= 0 {
        failed := Max(failed, 1);
      }
    }
  }

  /**
   One suite. Its verdict depends on the channel, the exit code, the interpreter's warning and
   the source, and on nothing it printed: it passes exactly when it is verified.
   */
  method RunOne(s: Suite) returns (res: Result)
    ensures fresh(res) && res.failed >= 0
    ensures res.failed == 0 <==> Verified(s)
  {
    hide ExactlyAsExpected, SomethingRan, CountSkipped, CountBad, AsSet, IdSet, Trusted;
    res := new Result();
    res.rc, res.timedOut := s.rc, s.timedOut;
    if s.channel.Nothing? {
      res.protocolError := true;
    }
    if res.rc != 0 && !res.timedOut {
      if res.rc < 0 || s.channel.Nothing? {
        res.crashed := true;
      }
    }
    res.collected, res.passed, res.failed, res.skipped := s.logs.collected, s.logs.passed, s.logs.failed, s.logs.skipped;
    if res.timedOut {
      res.failed := Max(res.failed, 1);
    }
    res.EnforceContract(s.channel, s.expected);
    if s.neverAwaited {
      res.failed := Max(res.failed, 1);
    }
    res.invalid := res.invalid + AsSet(s.invalidDefs);
    if s.invalidDefs != [] {
      res.failed := Max(res.failed, |s.invalidDefs|);
    }
    if Trusted(s.channel) {
      RanMeans(s.channel, s.expected);
    }
    res.EnforceNonEmpty();
    if res.protocolError || res.crashed {
      res.failed := Max(res.failed, 1);
    }
    if res.rc != 0 && res.failed == 0 {
      res.failed := 1;
    }
  }

  lemma RanMeans(channel: Channel, expected: seq<string>)
    requires Trusted(channel)
    ensures channel.Manifest? && CountSkipped(channel.entries) <= |channel.entries|
    ensures CountSkipped(channel.entries) < |channel.entries| <==> SomethingRan(channel.entries)
    ensures channel.entries == [] && ExactlyAsExpected(channel.entries, expected) ==> expected == []
  {
    CountsMean(channel.entries);
    if expected != [] {
      assert expected[0] in AsSet(expected);
    }
  }

  /**
   A suite that was stopped for time passes all the same if its process had already ended well
   with a full manifest.
   */
  lemma TimedOutMayPass()
    ensures exists s: Suite :: s.timedOut && Verified(s)
  {
    var e := Entry("t", PassedTest, true, true);
    var s := Suite("test_x.py", ["t"], [], 0, true, Manifest(true, [e]), Logs(0, 0, 0, 0), false);
    assert Clean(s.channel.entries[0]);
    assert IdSet([e]) == {"t"} by { assert [e][0].id == "t"; }
    assert AsSet(["t"]) == {"t"} by { assert ["t"][0] == "t"; }
    assert SomethingRan(s.channel.entries) by { assert !s.channel.entries[0].outcome.SkippedTest?; }
    assert s.timedOut && Verified(s);
  }

  // ---------------------------------------------------------------- the run

  datatype Baseline = BaselineMissing | BaselineUnreadable | Recorded(tests: set<(string, string)>)

  /** `path::identity` for every test the source declares. */
  function Inventory(suites: seq<Suite>): set<(string, string)> {
    set i, id | 0 <= i < |suites| && id in AsSet(suites[i].expected) :: (suites[i].path, id)
  }

  /** `path::identity` for every test the workers reported. */
  function Reported(suites: seq<Suite>): set<(string, string)> {
    set i, id | 0 <= i < |suites| && suites[i].channel.Manifest? && id in IdSet(suites[i].channel.entries) ::
      (suites[i].path, id)
  }

  /** The tracked baseline; a filtered run cannot judge the whole of it, but it must be there. */
  method CheckBaseline(baseline: Baseline, current: set<(string, string)>, unfiltered: bool)
    returns (problems: set<(string, string)>, broken: bool)
    ensures broken <==> !baseline.Recorded?
    ensures baseline.Recorded? ==>
              problems == if unfiltered then (baseline.tests - current) + (current - baseline.tests) else {}
  {
    problems, broken := {}, !baseline.Recorded?;
    if broken || !unfiltered {
      return;
    }
    problems := (baseline.tests - current) + (current - baseline.tests);
  }

  /**
   The whole run: 2 without suites, 0 exactly when every suite is verified and the baseline has
   nothing to say, 1 otherwise. After an unfiltered 0, what was reported is what is recorded.
   */
  method Gate(suites: seq<Suite>, baseline: Baseline, unfiltered: bool) returns (exit: nat)
    ensures exit == 2 <==> suites == []
    ensures exit == 0 <==> && suites != [] && (forall i :: 0 <= i < |suites| ==> Verified(suites[i]))
                           && baseline.Recorded? && (unfiltered ==> baseline.tests == Inventory(suites))
    ensures exit == 0 && unfiltered ==> Reported(suites) == baseline.tests
  {
    if suites == [] {
      return 2;
    }
    var problems, broken := CheckBaseline(baseline, Inventory(suites), unfiltered);
    var total := 0;
    var k := 0;
    while k < |suites|
      invariant 0 <= k <= |suites| && total >= 0
      invariant total == 0 <==> forall i :: 0 <= i < k ==> Verified(suites[i])
    {
      var res := RunOne(suites[k]);
      total := total + res.failed;
      k := k + 1;
    }
    exit := if total == 0 && problems == {} && !broken then 0 else 1;
    if exit == 0 && unfiltered {
      assert baseline.tests == Inventory(suites);
      AllReported(suites);
    }
    if baseline.Recorded? && unfiltered && problems == {} {
      assert baseline.tests - Inventory(suites) == {} && Inventory(suites) - baseline.tests == {};
    }
  }

  lemma AllReported(suites: seq<Suite>)
    requires forall i :: 0 <= i < |suites| ==> Verified(suites[i])
    ensures Reported(suites) == Inventory(suites)
  {
    forall i | 0 <= i < |suites| ensures IdSet(suites[i].channel.entries) == AsSet(suites[i].expected) {
      assert Verified(suites[i]);
    }
  }
}
