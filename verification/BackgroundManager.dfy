/**
 The manager of background jobs: submit, refresh, cancel, and the pass that reconciles the
 ledger with the nodes after a restart. Each call is a history of the submission protocol.
 */
module BackgroundManager {
  import opened Basics
  import opened SubmitProtocol

  /** What the pass decides about an open job. */
  function NextReconcileStep(s: Status): bool { s.LocalPendingSubmit? }

  /**
   How one call to a node goes: it answers (with this status, to a refresh), is not reachable,
   or answers with an error.
   */
  datatype Luck = Answers(status: Status) | Unreachable(accepted: bool) | NotFound | OtherError

  datatype Tally = Tally(resent: nat, refreshed: nat, unknown: nat, unreachable: nat)

  function Total(t: Tally): nat { t.resent + t.refreshed + t.unknown + t.unreachable }

  /**
   What the node makes of an open job: an error that is not unreachability is raised. A refresh
   knows NOT_FOUND as well.
   */
  predicate Fails(job: Job, luck: Luck) {
    luck.OtherError? || (luck.NotFound? && job.status.LocalPendingSubmit?)
  }

  /** The status an open job has once its turn in the pass is over. */
  function Next(job: Job, luck: Luck): Status {
    if job.status.LocalPendingSubmit? then (if luck.Answers? then Queued else LocalPendingSubmit)
    else
      match luck
      case Answers(s) => s
      case NotFound => RemoteUnknown
      case _ => job.status
  }

  /** The counter it is booked under. */
  function Booked(job: Job, luck: Luck, t: Tally): Tally {
    if luck.Unreachable? then t.(unreachable := t.unreachable + 1)
    else if job.status.LocalPendingSubmit? then t.(resent := t.resent + 1)
    else if Next(job, luck).RemoteUnknown? && !job.status.RemoteUnknown? then t.(unknown := t.unknown + 1)
    else t.(refreshed := t.refreshed + 1)
  }

  function BookedAll(jobs: seq<Job>, lucks: seq<Luck>, open: seq<nat>): Tally {
    if open == [] then Tally(0, 0, 0, 0)
    else
      var t := BookedAll(jobs, lucks, open[..|open| - 1]);
      var i := open[|open| - 1];
      if i < |jobs| && i < |lucks| then Booked(jobs[i], lucks[i], t) else t
  }

  /** A refresh that finds out that the node does not know the job, or not any more. */
  predicate LearnsUnknown(job: Job, luck: Luck) {
    && job.status !in {LocalPendingSubmit, RemoteUnknown}
    && (luck == NotFound || luck == Answers(RemoteUnknown))
  }

  function AwayAt(lucks: seq<Luck>, open: seq<nat>): set<nat> {
    set i | i in open && i < |lucks| && lucks[i].Unreachable?
  }

  function ResentAt(jobs: seq<Job>, lucks: seq<Luck>, open: seq<nat>): set<nat> {
    set i | i in open && i < |jobs| && i < |lucks| && jobs[i].status == LocalPendingSubmit && !lucks[i].Unreachable?
  }

  function UnknownAt(jobs: seq<Job>, lucks: seq<Luck>, open: seq<nat>): set<nat> {
    set i | i in open && i < |jobs| && i < |lucks| && LearnsUnknown(jobs[i], lucks[i])
  }

  lemma OneMoreTurn(jobs: seq<Job>, lucks: seq<Luck>, open: seq<nat>)
    requires open != [] && open[|open| - 1] < |jobs| <= |lucks| && open[|open| - 1] !in open[..|open| - 1]
    ensures var before, i := open[..|open| - 1], open[|open| - 1];
            && AwayAt(lucks, open) == AwayAt(lucks, before) + (if lucks[i].Unreachable? then {i} else {})
            && ResentAt(jobs, lucks, open) == ResentAt(jobs, lucks, before)
               + (if jobs[i].status == LocalPendingSubmit && !lucks[i].Unreachable? then {i} else {})
            && UnknownAt(jobs, lucks, open)
               == UnknownAt(jobs, lucks, before) + (if LearnsUnknown(jobs[i], lucks[i]) then {i} else {})
            && i !in AwayAt(lucks, before) && i !in ResentAt(jobs, lucks, before) && i !in UnknownAt(jobs, lucks, before)
  {
    var before, i := open[..|open| - 1], open[|open| - 1];
    assert open == before + [i];
    hide LearnsUnknown;
  }

  /** One turn, one counter. */
  lemma BookedOnce(job: Job, luck: Luck, t: Tally)
    ensures var t' := Booked(job, luck, t);
            && t'.unreachable == t.unreachable + (if luck.Unreachable? then 1 else 0)
            && t'.resent == t.resent + (if job.status == LocalPendingSubmit && !luck.Unreachable? then 1 else 0)
            && t'.unknown == t.unknown + (if LearnsUnknown(job, luck) then 1 else 0)
            && Total(t') == Total(t) + 1
  {
  }

  /** The counters of a pass: how many jobs were resent, were not reachable, turned out unknown, or were refreshed. */
  lemma {:induction false} TallyCounts(jobs: seq<Job>, lucks: seq<Luck>, open: seq<nat>)
    requires |jobs| <= |lucks| && (forall i :: i in open ==> i < |jobs|)
    requires forall a, b :: 0 <= a < b < |open| ==> open[a] < open[b]
    ensures var t := BookedAll(jobs, lucks, open);
            && t.unreachable == |AwayAt(lucks, open)| && t.resent == |ResentAt(jobs, lucks, open)|
            && t.unknown == |UnknownAt(jobs, lucks, open)| && Total(t) == |open|
  {
    if open == [] {
      assert AwayAt(lucks, open) == {} && ResentAt(jobs, lucks, open) == {} && UnknownAt(jobs, lucks, open) == {};
    } else {
      var before, i := open[..|open| - 1], open[|open| - 1];
      assert i in open && forall k :: k in before ==> k in open;
      assert i !in before;
      TallyCounts(jobs, lucks, before);
      OneMoreTurn(jobs, lucks, open);
      BookedOnce(jobs[i], lucks[i], BookedAll(jobs, lucks, before));
      hide AwayAt, ResentAt, UnknownAt, Booked, LearnsUnknown, Total;
    }
  }

  /** The node of this job, if it is open, raises an error. */
  predicate Stops(jobs: seq<Job>, lucks: seq<Luck>, i: nat) {
    i < |jobs| && i < |lucks| && !jobs[i].status.Terminal() && Fails(jobs[i], lucks[i])
  }

  /** A submission that goes through is three steps of the protocol; one whose answer is lost is two. */
  function Submission(w: World, i: nat, answered: bool, accepted: bool): World {
    var sent := Step(w, Send(i));
    if answered then
      var arrived := Step(sent, Arrive(i));
      Step(arrived, Deliver(Reply(i, HandleOf(arrived, i))))
    else if accepted then Step(Step(sent, Arrive(i)), LoseReply(Reply(i, HandleOf(Step(sent, Arrive(i)), i))))
    else Step(sent, LoseRequest(i))
  }

  /** The handle the node has for this job. */
  function HandleOf(w: World, i: nat): nat {
    if i < |w.jobs| && Find(w.created, Remote(w.jobs[i].node, w.jobs[i].key)).Some?
    then Find(w.created, Remote(w.jobs[i].node, w.jobs[i].key)).value else 0
  }

  lemma SubmissionLands(w: World, i: nat)
    requires Sound(w) && i in w.sending
    ensures var w' := Submission(w, i, true, true);
            && Sound(w') && Remembers(w, w') && |w'.jobs| == |w.jobs|
            && w'.jobs[i].remote.Some? && w'.jobs[i].status.Queued?
            && forall k :: 0 <= k < |w.jobs| && k != i ==> w'.jobs[k] == w.jobs[k]
  {
    var sent := Step(w, Send(i));
    var arrived := Step(sent, Arrive(i));
    var reply := Reply(i, HandleOf(arrived, i));
    StepKeeps(w, Send(i));
    FindsOnly(sent, i);
    hide Sound, HandleOf;
    StepKeeps(sent, Arrive(i));
    StepKeeps(arrived, Deliver(reply));
    StepRemembers(w, Send(i));
    StepRemembers(sent, Arrive(i));
    StepRemembers(arrived, Deliver(reply));
  }

  /** What arrives is what is found afterwards. */
  lemma FindsOnly(w: World, i: nat)
    requires Sound(w) && i in w.requests
    ensures Step(w, Arrive(i)).jobs == w.jobs
    ensures Reply(i, HandleOf(Step(w, Arrive(i)), i)) in Step(w, Arrive(i)).replies
  {
    var r := Remote(w.jobs[i].node, w.jobs[i].key);
    if Find(w.created, r).None? {
      assert (w.created + [r])[|w.created|] == r;
      assert Step(w, Arrive(i)).created == w.created + [r];
    }
  }

  lemma SubmissionLost(w: World, i: nat, accepted: bool)
    requires Sound(w) && i in w.sending
    ensures var w' := Submission(w, i, false, accepted);
            Sound(w') && Remembers(w, w') && w'.jobs == w.jobs
  {
    hide Sound, HandleOf, Find;
    var sent := Step(w, Send(i));
    StepKeeps(w, Send(i));
    StepRemembers(w, Send(i));
    if accepted {
      var arrived := Step(sent, Arrive(i));
      var lost := LoseReply(Reply(i, HandleOf(arrived, i)));
      StepKeeps(sent, Arrive(i));
      StepKeeps(arrived, lost);
      StepRemembers(sent, Arrive(i));
      StepRemembers(arrived, lost);
    } else {
      StepKeeps(sent, LoseRequest(i));
      StepRemembers(sent, LoseRequest(i));
    }
  }

  class Manager {
    var world: World

    ghost predicate Valid()
      reads this
    {
      Sound(world)
    }

    constructor ()
      ensures Valid() && world == EMPTY
    {
      world := EMPTY;
    }

    method Do(e: Event)
      requires Valid()
      modifies this
      ensures Valid() && world == Step(old(world), e) && Remembers(old(world), world)
    {
      StepKeeps(world, e);
      StepRemembers(world, e);
      world := Step(world, e);
    }

    /** One call to the node that accepts or is not reachable; an error of the node is raised. */
    method Call(i: nat, luck: Luck) returns (raised: bool)
      requires Valid() && i in world.sending
      modifies this
      ensures Valid() && Remembers(old(world), world) && |world.jobs| == |old(world).jobs|
      ensures forall k :: 0 <= k < |world.jobs| && k != i ==> world.jobs[k] == old(world).jobs[k]
      ensures world == Submission(old(world), i, luck.Answers?, luck.Unreachable? && luck.accepted)
      ensures luck.Answers? ==> !raised && world.jobs[i].remote.Some? && world.jobs[i].status.Queued?
      ensures !luck.Answers? ==> world.jobs == old(world).jobs && raised == !luck.Unreachable?
    {
      raised := false;
      match luck {
        case Answers(_) =>
          SubmissionLands(world, i);
          world := Submission(world, i, true, false);
        case Unreachable(accepted) =>
          SubmissionLost(world, i, accepted);
          world := Submission(world, i, false, accepted);
        case _ =>
          // Refused by the node: nothing of it is under way any more.
          SubmissionLost(world, i, false);
          world := Submission(world, i, false, false);
          raised := true;
      }
    }

    /** The row is durable before anything is sent, and a submission nobody confirms stays pending. */
    method Submit(node: nat, luck: Luck) returns (i: nat, raised: bool)
      requires Valid()
      modifies this
      ensures Valid() && Remembers(old(world), world)
      ensures i == |old(world).jobs| && |world.jobs| == i + 1 && world.jobs[..i] == old(world).jobs
      ensures raised == !(luck.Answers? || luck.Unreachable?)
      ensures world.jobs[i].node == node && forall k :: 0 <= k < i ==> world.jobs[k].key != world.jobs[i].key
      ensures if luck.Answers? then world.jobs[i].status.Queued? && world.jobs[i].remote.Some?
              else world.jobs[i].status.LocalPendingSubmit? && world.jobs[i].remote.None?
    {
      i := |world.jobs|;
      ghost var before := world;
      Do(Create(node));
      ghost var middle := world;
      raised := Call(i, luck);
      RemembersTrans(before, middle, world);
    }

    lemma RemembersTrans(a: World, b: World, c: World)
      requires Remembers(a, b) && Remembers(b, c)
      ensures Remembers(a, c)
    {
    }

    /** Reads, asks the node, writes: nothing for a job without a handle or one that has ended. */
    method Refresh(i: nat, luck: Luck) returns (raised: bool, unreachable: bool)
      requires Valid() && i < |world.jobs| && (luck.Answers? ==> luck.status != LocalPendingSubmit)
      modifies this
      ensures Valid() && Remembers(old(world), world) && |world.jobs| == |old(world).jobs|
      ensures forall k :: 0 <= k < |world.jobs| && k != i ==> world.jobs[k] == old(world).jobs[k]
      ensures world.jobs[i].remote == old(world).jobs[i].remote
      ensures var job := old(world).jobs[i];
              if job.remote.None? || job.status.Terminal() then !raised && !unreachable && world.jobs[i] == job
              else && raised == luck.OtherError? && unreachable == luck.Unreachable?
                   && world.jobs[i].status == match luck
                                              case Answers(s) => s
                                              case NotFound => RemoteUnknown
                                              case _ => job.status
      ensures !old(world).jobs[i].status.LocalPendingSubmit? ==> !world.jobs[i].status.LocalPendingSubmit?
    {
      raised, unreachable := false, false;
      var job := world.jobs[i];
      if job.remote.None? || job.status.Terminal() {
        StepRemembers(world, LoseRequest(|world.jobs|));
        return;
      }
      match luck {
        case Answers(s) => Do(Learn(i, s));
        case NotFound => Do(Learn(i, RemoteUnknown));
        case Unreachable(_) => unreachable := true;
        case OtherError => raised := true;
      }
    }

    /** Without a handle a cancellation is a local matter; with one, the node decides. */
    method Cancel(i: nat, answered: Option<Status>) returns (s: Status)
      requires Valid() && i < |world.jobs| && answered != Some(LocalPendingSubmit)
      modifies this
      ensures Valid() && Remembers(old(world), world)
      ensures s == if old(world).jobs[i].remote.None? then Cancelled
                   else if answered.Some? then answered.value else CancelRequested
      ensures world.jobs == SetStatus(old(world).jobs, i, s)
    {
      if world.jobs[i].remote.None? {
        Do(CancelLocal(i));
        return Cancelled;
      }
      s := if answered.Some? then answered.value else CancelRequested;
      Do(Learn(i, s));
    }

    /** The jobs that have not ended, in the order of the ledger. */
    function OpenJobs(jobs: seq<Job>): (open: seq<nat>)
      ensures forall i: nat :: i in open <==> i < |jobs| && !jobs[i].status.Terminal()
      ensures forall a, b :: 0 <= a < b < |open| ==> open[a] < open[b]
    {
      if jobs == [] then []
      else
        var n := |jobs| - 1;
        var rest := OpenJobs(jobs[..n]);
        assert forall i: nat :: i in rest ==> i < n;
        assert forall a :: 0 <= a < |rest| ==> rest[a] in rest;
        if jobs[n].status.Terminal() then rest else rest + [n]
    }

    /** One open job of the pass: resent while it is pending, refreshed otherwise. */
    method ReconcileOne(i: nat, luck: Luck, t: Tally) returns (t': Tally, failed: bool)
      requires Valid() && i < |world.jobs| && !world.jobs[i].status.Terminal()
      requires luck.Answers? ==> luck.status != LocalPendingSubmit
      modifies this
      ensures Valid() && Remembers(old(world), world) && |world.jobs| == |old(world).jobs|
      ensures forall k :: 0 <= k < |world.jobs| && k != i ==> world.jobs[k] == old(world).jobs[k]
      ensures failed <==> Fails(old(world).jobs[i], luck)
      ensures failed ==> world.jobs == old(world).jobs && t' == t
      ensures !failed ==> world.jobs[i].status == Next(old(world).jobs[i], luck)
                          && t' == Booked(old(world).jobs[i], luck, t)
      ensures luck.Unreachable? ==> world.jobs[i] == old(world).jobs[i]
    {
      if NextReconcileStep(world.jobs[i].status) {
        ghost var was := world;
        Do(Decide(i));
        ghost var decided := world;
        failed := Call(i, luck);
        RemembersTrans(was, decided, world);
        t' := if luck.Answers? then t.(resent := t.resent + 1)
              else if failed then t else t.(unreachable := t.unreachable + 1);
      } else {
        var before := world.jobs[i].status;
        var away;
        failed, away := Refresh(i, luck);
        t' := if failed then t
              else if away then t.(unreachable := t.unreachable + 1)
              else if world.jobs[i].status.RemoteUnknown? && !before.RemoteUnknown? then t.(unknown := t.unknown + 1)
              else t.(refreshed := t.refreshed + 1);
      }
    }

    lemma RemembersSelf(w: World)
      ensures Remembers(w, w)
    {
    }

    /** Where the pass stands: before the k-th open job, or past all of them. */
    function Bound(jobs: seq<Job>, k: nat): nat {
      var open := OpenJobs(jobs);
      if k < |open| then open[k] else |jobs|
    }

    /** Up to the bound every open job is as its node has made it; nothing else has changed. */
    predicate Passed(was: seq<Job>, jobs: seq<Job>, lucks: seq<Luck>, bound: nat) {
      && |jobs| == |was| <= |lucks|
      && forall j :: 0 <= j < |was| ==>
           && (j < bound && !was[j].status.Terminal() ==>
                 jobs[j].status == Next(was[j], lucks[j]) && !Stops(was, lucks, j))
           && (j >= bound || was[j].status.Terminal() || lucks[j].Unreachable? ==> jobs[j] == was[j])
    }

    /** Between one open job and the next lie only ended ones. */
    lemma NoneBetween(was: seq<Job>, k: nat, j: nat)
      requires k < |OpenJobs(was)| && OpenJobs(was)[k] < j < Bound(was, k + 1)
      ensures j < |was| && was[j].status.Terminal()
    {
      var open := OpenJobs(was);
      if k + 1 < |open| {
        assert open[k + 1] in open;
      }
      assert j !in open;
    }

    lemma PassedMore(was: seq<Job>, jobs: seq<Job>, jobs': seq<Job>, lucks: seq<Luck>, k: nat)
      requires k < |OpenJobs(was)| && Passed(was, jobs, lucks, Bound(was, k)) && |jobs'| == |jobs|
      requires var i := OpenJobs(was)[k];
               && i < |was|
               && (forall j :: 0 <= j < |jobs| && j != i ==> jobs'[j] == jobs[j])
               && !was[i].status.Terminal() && jobs'[i].status == Next(was[i], lucks[i]) && !Stops(was, lucks, i)
               && (lucks[i].Unreachable? ==> jobs'[i] == was[i])
      ensures Passed(was, jobs', lucks, Bound(was, k + 1))
    {
      var open := OpenJobs(was);
      hide OpenJobs, Next, Stops;
      forall j | open[k] < j < Bound(was, k + 1) ensures j < |was| && was[j].status.Terminal() {
        NoneBetween(was, k, j);
      }
    }

    lemma OpenInRange(jobs: seq<Job>, k: nat)
      requires k < |OpenJobs(jobs)|
      ensures OpenJobs(jobs)[k] < |jobs| && !jobs[OpenJobs(jobs)[k]].status.Terminal()
    {
      assert OpenJobs(jobs)[k] in OpenJobs(jobs);
    }

    lemma NothingPassed(jobs: seq<Job>, lucks: seq<Luck>)
      requires |jobs| <= |lucks|
      ensures Passed(jobs, jobs, lucks, Bound(jobs, 0))
    {
      var open := OpenJobs(jobs);
      forall j | 0 <= j < Bound(jobs, 0) && j < |jobs| ensures jobs[j].status.Terminal() {
        assert j !in open;
      }
    }

    /**
     The pass after a restart. It goes through if and only if no open job's node answers with
     an error that is not unreachability; then every open job is as its node has made it, and
     booked once. The first such error ends the whole pass, and the jobs behind it are left as
     they were: a pending job whose node would accept stays pending exactly when it is behind
     one.
     */
    method Reconcile(lucks: seq<Luck>) returns (t: Tally, raised: Option<nat>)
      requires Valid() && |lucks| >= |world.jobs|
      requires forall l :: l in lucks ==> (l.Answers? ==> l.status != LocalPendingSubmit)
      modifies this
      ensures Valid() && Remembers(old(world), world) && |world.jobs| == |old(world).jobs|
      ensures raised.None? <==> forall i :: 0 <= i < |old(world).jobs| ==> !Stops(old(world).jobs, lucks, i)
      ensures raised.None? ==>
                && Passed(old(world).jobs, world.jobs, lucks, |world.jobs|)
                && t == BookedAll(old(world).jobs, lucks, OpenJobs(old(world).jobs))
                && Total(t) == |OpenJobs(old(world).jobs)|
      ensures raised.Some? ==>
                && Stops(old(world).jobs, lucks, raised.value)
                && Passed(old(world).jobs, world.jobs, lucks, raised.value)
      ensures forall j :: 0 <= j < |world.jobs| && old(world).jobs[j].status.LocalPendingSubmit? && lucks[j].Answers? ==>
                (world.jobs[j].status.LocalPendingSubmit? <==> exists i :: 0 <= i < j && Stops(old(world).jobs, lucks, i))
    {
      hide Sound, Step, Handle, Remembers, Passed, OpenJobs, Fails, Next, Stops, Booked, BookedAll;
      t, raised := Tally(0, 0, 0, 0), None;
      ghost var was := world;
      var open := OpenJobs(world.jobs);
      RemembersSelf(world);
      NothingPassed(world.jobs, lucks);
      BookedNone(was.jobs, lucks, open);
      var k := 0;
      while k < |open|
        invariant 0 <= k <= |open| && Valid() && Remembers(was, world)
        invariant |world.jobs| == |was.jobs| && open == OpenJobs(was.jobs)
        invariant t == BookedAll(was.jobs, lucks, open[..k]) && Total(t) == k
        invariant Passed(was.jobs, world.jobs, lucks, Bound(was.jobs, k))
      {
        var i := open[k];
        OpenInRange(was.jobs, k);
        ghost var before := world;
        AtBound(was.jobs, world.jobs, lucks, i);
        StopsHere(was.jobs, lucks, i);
        BookedOneMore(was.jobs, lucks, open, k);
        var failed;
        t, failed := ReconcileOne(i, lucks[i], t);
        RemembersTrans(was, before, world);
        if failed {
          PassedExactly(was.jobs, world.jobs, lucks, i);
          return t, Some(i);
        }
        PassedMore(was.jobs, before.jobs, world.jobs, lucks, k);
        k := k + 1;
      }
      PassedExactly(was.jobs, world.jobs, lucks, |was.jobs|);
      assert open[..k] == open;
    }

    lemma StopsHere(jobs: seq<Job>, lucks: seq<Luck>, i: nat)
      requires i < |jobs| <= |lucks| && !jobs[i].status.Terminal()
      ensures Stops(jobs, lucks, i) <==> Fails(jobs[i], lucks[i])
    {
    }

    lemma BookedNone(jobs: seq<Job>, lucks: seq<Luck>, open: seq<nat>)
      ensures BookedAll(jobs, lucks, open[..0]) == Tally(0, 0, 0, 0)
    {
    }

    lemma BookedOneMore(jobs: seq<Job>, lucks: seq<Luck>, open: seq<nat>, k: nat)
      requires k < |open| && open[k] < |jobs| <= |lucks|
      ensures BookedAll(jobs, lucks, open[..k + 1])
              == Booked(jobs[open[k]], lucks[open[k]], BookedAll(jobs, lucks, open[..k]))
      ensures Total(BookedAll(jobs, lucks, open[..k + 1])) == Total(BookedAll(jobs, lucks, open[..k])) + 1
    {
      assert open[..k + 1][..k] == open[..k];
    }

    /** What has passed, up to a stop or to the end: who is still pending, and why. */
    lemma PassedExactly(was: seq<Job>, jobs: seq<Job>, lucks: seq<Luck>, bound: nat)
      requires Passed(was, jobs, lucks, bound) && (bound == |was| || Stops(was, lucks, bound))
      ensures forall i :: 0 <= i < bound && i < |was| ==> !Stops(was, lucks, i)
      ensures forall j :: 0 <= j < |was| && was[j].status.LocalPendingSubmit? && lucks[j].Answers? ==>
                (jobs[j].status.LocalPendingSubmit? <==> exists i :: 0 <= i < j && Stops(was, lucks, i))
    {
      forall j | 0 <= j < |was| && was[j].status.LocalPendingSubmit? && lucks[j].Answers?
        ensures jobs[j].status.LocalPendingSubmit? <==> exists i :: 0 <= i < j && Stops(was, lucks, i)
      {
        if j >= bound {
          assert !Stops(was, lucks, j);
          assert Stops(was, lucks, bound);
        }
      }
    }

    lemma AtBound(was: seq<Job>, jobs: seq<Job>, lucks: seq<Luck>, i: nat)
      requires Passed(was, jobs, lucks, i) && i < |was|
      ensures jobs[i] == was[i]
    {
    }
  }

  /**
   Two submissions that went unanswered: the first one's node has an error, and the second
   stays pending, though its own would accept.
   */
  method AnErrorKeepsTheNextPending() returns (stopped: Option<nat>, first: Status, second: Status)
    ensures stopped == Some(0) && first.LocalPendingSubmit? && second.LocalPendingSubmit?
  {
    var manager := new Manager();
    var a, b, raised;
    a, raised := manager.Submit(0, Unreachable(false));
    ghost var one := manager.world;
    b, raised := manager.Submit(1, Unreachable(false));
    assert manager.world.jobs[..1] == one.jobs;
    var lucks := [OtherError, Answers(Queued)];
    assert lucks[0] == OtherError && lucks[1] == Answers(Queued);
    ghost var was := manager.world.jobs;
    assert was[0] == one.jobs[0];
    var t;
    t, stopped := manager.Reconcile(lucks);
    assert Stops(was, lucks, 0);
    first, second := manager.world.jobs[0].status, manager.world.jobs[1].status;
  }
}
