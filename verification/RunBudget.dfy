/**
 The budget of one run: counters with a limit each, and the loop brake, which counts
 attempts by digest and not by wording.
 */
module RunBudget {
  import opened RunLedger

  const LOOP_THRESHOLD: nat := 3
  const MAX_PLAN_REVISIONS: nat := 2
  const MAX_PLANNER_CALLS_PER_EVENT: nat := 2
  const MAX_PLANNER_CALLS: nat := (1 + MAX_PLAN_REVISIONS) * MAX_PLANNER_CALLS_PER_EVENT

  datatype Limits = Limits(maxSteps: nat, maxSpecialists: nat, maxAttempts: nat, maxRevisions: nat)

  /** The fingerprint of an attempt; two attempts are the same exactly when their digests are. */
  datatype Digest = Digest(kind: string, profile: string, text: string)

  datatype Book = Book(limits: Limits, steps: nat, specialists: nat, plannerCalls: nat, revisions: nat,
                       attempts: map<Digest, nat>, lowValue: map<Digest, nat>)

  datatype Grant = Granted(book: Book) | Refused(category: Category)

  function Count(m: map<Digest, nat>, d: Digest): nat {
    if d in m then m[d] else 0
  }

  function Bump(m: map<Digest, nat>, d: Digest): map<Digest, nat> {
    m[d := Count(m, d) + 1]
  }

  function OpenBook(limits: Limits): Book {
    Book(limits, 0, 0, 0, 0, map[], map[])
  }

  /** Counted before the attempt: whoever counts afterwards has already made the third. */
  function GuardAttempt(b: Book, d: Digest): Grant {
    if Count(b.attempts, d) + Count(b.lowValue, d) >= LOOP_THRESHOLD - 1 then Refused(LoopDetected)
    else if Count(b.attempts, d) >= b.limits.maxAttempts then Refused(BudgetExhausted)
    else Granted(b.(attempts := Bump(b.attempts, d)))
  }

  function NoteLowValue(b: Book, d: Digest): Book {
    b.(lowValue := Bump(b.lowValue, d))
  }

  // ---------------------------------------------------------------- over whole histories

  datatype BudgetOp = Attempt(d: Digest) | LowValue(d: Digest) | OtherNote(steps: nat, specialists: nat)

  function Perform(b: Book, op: BudgetOp): Book {
    match op
    case Attempt(d) => (match GuardAttempt(b, d) case Granted(b') => b' case Refused(_) => b)
    case LowValue(d) => NoteLowValue(b, d)
    case OtherNote(s, p) => b.(steps := b.steps + s, specialists := b.specialists + p)
  }

  function PerformAll(b: Book, ops: seq<BudgetOp>): Book {
    if ops == [] then b else Perform(PerformAll(b, ops[..|ops| - 1]), ops[|ops| - 1])
  }

  /** How often a history was granted an attempt at `d`. */
  function Grants(b: Book, ops: seq<BudgetOp>, d: Digest): nat {
    if ops == [] then 0
    else
      var n := |ops| - 1;
      Grants(b, ops[..n], d)
      + (if ops[n] == Attempt(d) && GuardAttempt(PerformAll(b, ops[..n]), d).Granted? then 1 else 0)
  }

  /** How often a history marked `d` as having yielded nothing. */
  function Marks(ops: seq<BudgetOp>, d: Digest): nat {
    if ops == [] then 0
    else Marks(ops[..|ops| - 1], d) + (if ops[|ops| - 1] == LowValue(d) then 1 else 0)
  }

  /** The counters are the history: what was granted is what is booked. */
  lemma {:induction false} BooksAreHistory(limits: Limits, ops: seq<BudgetOp>, d: Digest)
    ensures var b := PerformAll(OpenBook(limits), ops);
            && b.limits == limits
            && Count(b.attempts, d) == Grants(OpenBook(limits), ops, d)
            && Count(b.lowValue, d) == Marks(ops, d)
  {
    if ops != [] {
      BooksAreHistory(limits, ops[..|ops| - 1], d);
    }
  }

  /**
   The loop brake, over every history: a digest is granted at most twice and never more
   often than the per-step limit allows, and the next attempt is granted exactly when
   grants and wasted results together stay below two and the limit is not reached; it is the
   loop brake that refuses exactly when they do not.
   */
  lemma {:induction false} LoopBrake(limits: Limits, ops: seq<BudgetOp>, d: Digest)
    ensures Grants(OpenBook(limits), ops, d) <= 2
    ensures Grants(OpenBook(limits), ops, d) <= limits.maxAttempts
    ensures GuardAttempt(PerformAll(OpenBook(limits), ops), d).Granted?
            <==> Grants(OpenBook(limits), ops, d) + Marks(ops, d) < 2
                 && Grants(OpenBook(limits), ops, d) < limits.maxAttempts
    ensures GuardAttempt(PerformAll(OpenBook(limits), ops), d) == Refused(LoopDetected)
            <==> Grants(OpenBook(limits), ops, d) + Marks(ops, d) >= 2
  {
    BooksAreHistory(limits, ops, d);
    if ops != [] {
      LoopBrake(limits, ops[..|ops| - 1], d);
    }
  }

  /** Once a granted attempt was marked worthless, its digest is never granted again. */
  lemma {:induction false} WastedOnceNeverAgain(limits: Limits, before: seq<BudgetOp>, after: seq<BudgetOp>, d: Digest)
    requires Grants(OpenBook(limits), before, d) >= 1 && Marks(before, d) >= 1
    ensures Grants(OpenBook(limits), before + after, d) == Grants(OpenBook(limits), before, d)
    ensures Marks(before + after, d) >= Marks(before, d)
  {
    if after == [] {
      assert before + after == before;
    } else {
      var n := |after| - 1;
      assert (before + after)[..|before| + n] == before + after[..n];
      WastedOnceNeverAgain(limits, before, after[..n], d);
      LoopBrake(limits, before + after[..n], d);
    }
  }

  /** The running account, as the run carries it: changed in place. */
  class BudgetLedger {
    const limits: Limits
    var steps: nat
    var specialists: nat
    var plannerCalls: nat
    var revisions: nat
    var attempts: map<Digest, nat>
    var lowValue: map<Digest, nat>

    function Contents(): Book
      reads this
    {
      Book(limits, steps, specialists, plannerCalls, revisions, attempts, lowValue)
    }

    constructor (limits: Limits)
      ensures Contents() == OpenBook(limits)
    {
      this.limits := limits;
      steps, specialists, plannerCalls, revisions := 0, 0, 0, 0;
      attempts, lowValue := map[], map[];
    }

    method Guard(kind: string, profile: string, text: string) returns (digest: Digest, refusal: Category)
      modifies this`attempts
      ensures digest == Digest(kind, profile, text)
      ensures match GuardAttempt(old(Contents()), digest)
              case Granted(b) => refusal == NoCategory && Contents() == b
              case Refused(why) => refusal == why && why != NoCategory && Contents() == old(Contents())
    {
      digest := Digest(kind, profile, text);
      var made := if digest in attempts then attempts[digest] else 0;
      var seen := made + if digest in lowValue then lowValue[digest] else 0;
      if seen >= LOOP_THRESHOLD - 1 {
        return digest, LoopDetected;
      }
      if made >= limits.maxAttempts {
        return digest, BudgetExhausted;
      }
      attempts := attempts[digest := made + 1];
      refusal := NoCategory;
    }

    method MarkLowValue(digest: Digest)
      modifies this`lowValue
      ensures Contents() == NoteLowValue(old(Contents()), digest)
    {
      lowValue := lowValue[digest := (if digest in lowValue then lowValue[digest] else 0) + 1];
    }

    method NoteStep()
      modifies this`steps
      ensures Contents() == old(Contents()).(steps := old(steps) + 1)
    {
      steps := steps + 1;
    }

    method NoteSpecialist()
      modifies this`specialists
      ensures Contents() == old(Contents()).(specialists := old(specialists) + 1)
    {
      specialists := specialists + 1;
    }

    method NotePlannerCall()
      modifies this`plannerCalls
      ensures Contents() == old(Contents()).(plannerCalls := old(plannerCalls) + 1)
    {
      plannerCalls := plannerCalls + 1;
    }

    method NoteRevision()
      modifies this`revisions
      ensures Contents() == old(Contents()).(revisions := old(revisions) + 1)
    {
      revisions := revisions + 1;
    }
  }
}
