/**
 Who builds: the capacity of a builder out of its signals, the choice among those that can
 take the task, and the route, which keeps quality and availability apart.
 */
module BuilderChoice {
  import opened Basics

  datatype Capacity = Available | Limited | Exhausted | Unavailable | Unknown
  {
    predicate Usable() { Available? || Limited? }
  }

  datatype Size = Small | Medium | Large

  const QUOTA_COOLDOWN: nat := 3600
  const QUOTA_FORGET: nat := 6 * 3600

  predicate Accepts(c: Capacity, size: Size) {
    c.Available? || (c.Limited? && size.Small?)
  }

  /** Reachability before login before quota. A moment of 0 stands for "never". */
  function FromSignals(reachable: bool, authenticated: bool, lastSuccess: nat, lastQuota: nat, knownReset: nat,
                       now: nat): Capacity {
    if !reachable || !authenticated then Unavailable
    else if lastQuota > 0 then
      var age := now as int - lastQuota;
      if knownReset > 0 && now < knownReset then Exhausted
      else if knownReset == 0 && age < QUOTA_COOLDOWN then Exhausted
      else if age < QUOTA_FORGET && (lastSuccess == 0 || lastSuccess < lastQuota) then Limited
      else Available
    else Available
  }

  /**
   How a quota hit wears off when the provider names no reset: exhausted for an hour,
   careful until six hours have passed or something has worked again, then free.
   */
  lemma QuotaWearsOff(lastSuccess: nat, lastQuota: nat, now: nat)
    requires 0 < lastQuota <= now
    ensures var c := FromSignals(true, true, lastSuccess, lastQuota, 0, now);
            && (c.Exhausted? <==> now < lastQuota + QUOTA_COOLDOWN)
            && (c.Limited? <==> lastQuota + QUOTA_COOLDOWN <= now < lastQuota + QUOTA_FORGET && lastSuccess < lastQuota)
            && (c.Available? <==> now >= lastQuota + QUOTA_FORGET
                                  || (now >= lastQuota + QUOTA_COOLDOWN && lastSuccess >= lastQuota))
  {
  }

  /**
   The states, exactly, on all signals: nobody who cannot be reached is called exhausted, and a
   known reset decides alone.
   */
  lemma SignalsExactly(reachable: bool, authenticated: bool, lastSuccess: nat, lastQuota: nat, knownReset: nat, now: nat)
    ensures var c := FromSignals(reachable, authenticated, lastSuccess, lastQuota, knownReset, now);
            var hit := reachable && authenticated && lastQuota > 0;
            var spent := now < (if knownReset > 0 then knownReset else lastQuota + 3600);
            && (c.Unavailable? <==> !(reachable && authenticated))
            && (c.Exhausted? <==> hit && spent)
            && (c.Limited? <==> hit && !spent && now < lastQuota + 6 * 3600 && lastSuccess < lastQuota)
            && !c.Unknown?
  {
  }

  // ---------------------------------------------------------------- the order of names

  /** Code point order, as names are sorted by. */
  predicate Before(a: string, b: string) {
    b != "" && (a == "" || a[0] < b[0] || (a[0] == b[0] && Before(a[1..], b[1..])))
  }

  /** Where two names differ first, or where the shorter one ends. */
  predicate Differ(a: string, b: string, i: nat) {
    i <= |a| && i < |b| && a[..i] == b[..i] && (i == |a| || a[i] < b[i])
  }

  lemma DifferAtOnce(a: string, b: string, i: nat)
    requires Differ(a, b, i)
    ensures b != "" && (a == "" || a[0] <= b[0]) && (a != "" && a[0] == b[0] ==> i > 0)
  {
    if i > 0 {
      assert a[..i][0] == a[0] && b[..i][0] == b[0];
    }
  }

  lemma {:induction false} BeforeMeans(a: string, b: string)
    ensures Before(a, b) <==> exists i: nat :: Differ(a, b, i)
  {
    if b != "" && a != "" && a[0] == b[0] {
      BeforeMeans(a[1..], b[1..]);
      if exists i: nat :: Differ(a[1..], b[1..], i) {
        var i: nat :| Differ(a[1..], b[1..], i);
        assert a == [a[0]] + a[1..] && b == [b[0]] + b[1..];
        assert Differ(a, b, i + 1);
      }
      if exists i: nat :: Differ(a, b, i) {
        var i: nat :| Differ(a, b, i);
        assert i > 0;
        assert a[1..][..i - 1] == a[..i][1..] && b[1..][..i - 1] == b[..i][1..];
        assert Differ(a[1..], b[1..], i - 1);
      }
    } else if b != "" && (a == "" || a[0] < b[0]) {
      assert Differ(a, b, 0);
    } else {
      forall i: nat | Differ(a, b, i) ensures false {
        DifferAtOnce(a, b, i);
      }
    }
  }

  lemma {:induction false} BeforeTotal(a: string, b: string)
    ensures a == b || Before(a, b) || Before(b, a)
  {
    if a != "" && b != "" && a[0] == b[0] {
      BeforeTotal(a[1..], b[1..]);
      assert a == [a[0]] + a[1..] && b == [b[0]] + b[1..];
    }
  }

  lemma {:induction false} BeforeTransitive(a: string, b: string, c: string)
    requires Before(a, b) && Before(b, c)
    ensures Before(a, c)
  {
    if a != "" && a[0] == b[0] && b[0] == c[0] {
      BeforeTransitive(a[1..], b[1..], c[1..]);
    }
  }

  // ---------------------------------------------------------------- the choice

  function Rank(c: Capacity): nat { if c.Available? then 0 else 1 }

  /** Better first: AVAILABLE before LIMITED, then by name. */
  predicate Better(options: map<string, Capacity>, a: string, b: string)
    requires a in options && b in options
  {
    Rank(options[a]) < Rank(options[b]) || (Rank(options[a]) == Rank(options[b]) && Before(a, b))
  }

  predicate Candidate(options: map<string, Capacity>, exclude: set<string>, name: string) {
    name in options && name !in exclude && options[name].Usable()
  }

  predicate Fitting(options: map<string, Capacity>, exclude: set<string>, size: Size, name: string) {
    Candidate(options, exclude, name) && Accepts(options[name], size)
  }

  /** The best of a set of builders. */
  method BestOf(options: map<string, Capacity>, among: set<string>) returns (best: string)
    requires among != {} && forall n :: n in among ==> n in options
    ensures best in among && forall n :: n in among && n != best ==> Better(options, best, n)
  {
    best :| best in among;
    var rest := among - {best};
    while rest != {}
      invariant best in among && best !in rest && rest <= among
      invariant forall n :: n in among && n !in rest && n != best ==> Better(options, best, n)
    {
      var n :| n in rest;
      rest := rest - {n};
      BeforeTotal(n, best);
      if Better(options, n, best) {
        forall m | m in among && m !in rest && m != n ensures Better(options, n, m) {
          if m != best && Before(n, best) && Before(best, m) {
            BeforeTransitive(n, best, m);
          }
        }
        best := n;
      }
    }
  }

  /**
   Whoever is available takes any size, so the size decides nothing: the first available one by
   name, else the first limited one.
   */
  predicate FirstChoice(options: map<string, Capacity>, exclude: set<string>, name: string) {
    && name in options && name !in exclude
    && (options[name] == Available
        || (options[name] == Limited && forall n :: n in options && n !in exclude ==> options[n] != Available))
    && forall n :: n in options && n !in exclude && n != name && options[n] == options[name] ==> Before(name, n)
  }

  /**
   Who builds? Nobody exactly when nobody usable is left; otherwise the best of those that
   take a task of this size, and, when there are none, the best of all that are usable.
   */
  method ChooseBuilder(options: map<string, Capacity>, size: Size, exclude: set<string>) returns (name: Option<string>)
    ensures name.None? <==> forall n :: n in options && n !in exclude ==> options[n] !in {Available, Limited}
    ensures name.Some? ==> FirstChoice(options, exclude, name.value)
    ensures name.None? <==> forall n :: n in options ==> !Candidate(options, exclude, n)
    ensures name.Some? ==> Candidate(options, exclude, name.value)
    ensures name.Some? && (exists n :: n in options && Fitting(options, exclude, size, n)) ==>
              Fitting(options, exclude, size, name.value)
              && forall n :: n in options && Fitting(options, exclude, size, n) && n != name.value ==>
                   Better(options, name.value, n)
    ensures name.Some? && !(exists n :: n in options && Fitting(options, exclude, size, n)) ==>
              forall n :: n in options && Candidate(options, exclude, n) && n != name.value ==> Better(options, name.value, n)
  {
    var fitting := set n | n in options && Fitting(options, exclude, size, n);
    if fitting != {} {
      var best := BestOf(options, fitting);
      BestIsFirst(options, exclude, fitting, best);
      return Some(best);
    }
    assert forall n :: n in options && Fitting(options, exclude, size, n) ==> n in fitting;
    var usable := set n | n in options && Candidate(options, exclude, n);
    if usable != {} {
      var best := BestOf(options, usable);
      BestIsFirst(options, exclude, usable, best);
      return Some(best);
    }
    name := None;
    forall n | n in options ensures !Candidate(options, exclude, n) {
      assert n !in usable;
    }
  }

  lemma BestIsFirst(options: map<string, Capacity>, exclude: set<string>, among: set<string>, best: string)
    requires best in among && (forall n :: n in among ==> n in options && Candidate(options, exclude, n))
    requires forall n :: n in among && n != best ==> Better(options, best, n)
    requires forall n :: n in options && n !in exclude && options[n] == Available ==> n in among
    requires forall n, m :: n in among && m in options && m !in exclude && options[n] == Limited && options[m] == Limited
               ==> m in among
    ensures FirstChoice(options, exclude, best)
  {
    forall n | n in options && n !in exclude && options[best] == Limited ensures options[n] != Available {
      assert n in among && n != best ==> Better(options, best, n);
    }
  }

  // ---------------------------------------------------------------- the route

  datatype TaskKind = Design | Implementation | Repair | Review | Routine | OtherKind

  function Preference(kind: TaskKind): seq<string> {
    match kind
    case Repair => ["codex", "claude"]
    case Review => ["codex", "claude"]
    case Routine => ["codex", "claude"]
    case _ => ["claude", "codex"]
  }

  datatype Reason = BestFit | ForCapacity | SecurityPolicy | ForAvailability

  /** An adapter is a writer, or locked by the security policy. */
  datatype Route = Route(modelFit: Option<string>, executionFit: seq<string>, route: Option<string>, reason: Reason)

  predicate Executable(adapters: map<string, bool>, options: map<string, Capacity>, size: Size, name: string) {
    name in adapters && adapters[name] && name in options && Accepts(options[name], size)
  }

  function ExecutableNames(adapters: map<string, bool>, options: map<string, Capacity>, size: Size): set<string> {
    set n | n in adapters && Executable(adapters, options, size, n)
  }

  /** A writer that is measured as available, or as limited and the task is small. */
  predicate CanTake(adapters: map<string, bool>, options: map<string, Capacity>, size: Size, name: string) {
    name in adapters && adapters[name] && name in options
    && (options[name] == Available || (options[name] == Limited && size == Small))
  }

  /** The first of a list that satisfies a property of names, by position. */
  predicate FirstOf(list: seq<string>, good: set<string>, found: Option<string>) {
    match found
    case None => forall i :: 0 <= i < |list| ==> list[i] !in good
    case Some(n) => exists i :: 0 <= i < |list| && list[i] == n && n in good && forall j :: 0 <= j < i ==> list[j] !in good
  }

  lemma CanTakeIs(adapters: map<string, bool>, options: map<string, Capacity>, size: Size, name: string)
    ensures CanTake(adapters, options, size, name) <==> name in ExecutableNames(adapters, options, size)
  {
  }

  /** The first of two, if it is good, else the second, if that is. */
  lemma FirstOfTwo(list: seq<string>, good: set<string>, found: Option<string>)
    requires |list| == 2 && FirstOf(list, good, found)
    ensures found == (if list[0] in good then Some(list[0]) else if list[1] in good then Some(list[1]) else None)
  {
  }

  /**
   The three questions, in their order. What would fit best depends on the task and on which
   builders exist, never on who happens to be available; what is taken is the first that can
   be; and the reason names what made the difference.
   */
  method Decide(kind: TaskKind, adapters: map<string, bool>, options: map<string, Capacity>,
                size: Size) returns (r: Route)
    ensures var (first, second) := if kind in {Repair, Review, Routine} then ("codex", "claude") else ("claude", "codex");
            && r.modelFit == (if first in adapters then Some(first) else if second in adapters then Some(second) else None)
            && r.route == (if CanTake(adapters, options, size, first) then Some(first)
                           else if CanTake(adapters, options, size, second) then Some(second) else None)
    ensures FirstOf(Preference(kind), adapters.Keys, r.modelFit)
    ensures FirstOf(Preference(kind), ExecutableNames(adapters, options, size), r.route)
    ensures forall n :: n in r.executionFit <==> n in Preference(kind) && Executable(adapters, options, size, n)
    ensures r.route == if r.executionFit == [] then None else Some(r.executionFit[0])
    ensures r.reason.BestFit? <==> r.route.Some? && r.route == r.modelFit
    ensures r.reason.SecurityPolicy? <==> r.route.Some? && r.route != r.modelFit && !adapters[r.modelFit.value]
    ensures r.reason.ForCapacity? <==> && r.route.Some? && r.route != r.modelFit && adapters[r.modelFit.value]
                                       && r.modelFit.value in options && options[r.modelFit.value].Exhausted?
  {
    var order := Preference(kind);
    var modelFit: Option<string> := None;
    var i := 0;
    while i < |order| && modelFit.None?
      invariant 0 <= i <= |order|
      invariant modelFit.None? ==> forall j :: 0 <= j < i ==> order[j] !in adapters
      invariant modelFit.Some? ==> FirstOf(order, adapters.Keys, modelFit)
    {
      if order[i] in adapters {
        modelFit := Some(order[i]);
      }
      i := i + 1;
    }
    ghost var good := ExecutableNames(adapters, options, size);
    var possible: seq<string> := [];
    i := 0;
    while i < |order|
      invariant 0 <= i <= |order|
      invariant forall n :: n in possible <==> n in order[..i] && Executable(adapters, options, size, n)
      invariant possible == [] ==> forall j :: 0 <= j < i ==> order[j] !in good
      invariant possible != [] ==> FirstOf(order, good, Some(possible[0]))
    {
      if order[i] in adapters && adapters[order[i]] && order[i] in options && Accepts(options[order[i]], size) {
        possible := possible + [order[i]];
      }
      assert order[..i + 1] == order[..i] + [order[i]];
      i := i + 1;
    }
    assert order[..i] == order;
    var chosen := if possible == [] then None else Some(possible[0]);
    assert chosen.Some? ==> chosen.value in adapters;
    var reason;
    if chosen.None? {
      reason := ForAvailability;
    } else if chosen == modelFit {
      reason := BestFit;
    } else if !adapters[modelFit.value] {
      reason := SecurityPolicy;
    } else if modelFit.value in options && options[modelFit.value].Exhausted? {
      reason := ForCapacity;
    } else {
      reason := ForAvailability;
    }
    r := Route(modelFit, possible, chosen, reason);
    FirstOfTwo(order, adapters.Keys, modelFit);
    FirstOfTwo(order, good, chosen);
    CanTakeIs(adapters, options, size, order[0]);
    CanTakeIs(adapters, options, size, order[1]);
  }
}
