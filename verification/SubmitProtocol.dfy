/**
 The submission protocol between the core's job ledger and its nodes: any mix of lost
 requests, lost or late answers, resends, refreshes, cancellations and crashes of the core,
 against nodes that remember the idempotency keys they have seen.
 */
module SubmitProtocol {
  import opened Basics

  datatype Status =
    | LocalPendingSubmit | Queued | Running | Succeeded | Failed
    | CancelRequested | Cancelled | RemoteUnknown | ResultExpired
  {
    predicate Terminal() { Succeeded? || Failed? || Cancelled? || ResultExpired? }
  }

  /** The durable record of a job: its node, its idempotency key, and the remote handle once one is known. */
  datatype Job = Job(node: nat, key: nat, remote: Option<nat>, status: Status)

  /** A remote job, as the node that accepted it knows it; its position in `created` is its handle. */
  datatype Remote = Remote(node: nat, key: nat)

  /** An answer on its way back: the core's job, and the handle the node gave. */
  datatype Reply = Reply(job: nat, remote: nat)

  /**
   `sending` are the jobs some coroutine has decided to send, because it has just written
   them or has read them as pending; `requests` are submissions on their way out, each naming
   the job it was made for.
   */
  datatype World = World(jobs: seq<Job>, keys: nat, created: seq<Remote>, sending: set<nat>, requests: set<nat>,
                         replies: set<Reply>)

  const EMPTY: World := World([], 0, [], {}, {}, {})

  datatype Event =
    | Create(node: nat)                    // the row is written, with a fresh key, before anything is sent
    | Decide(job: nat)                     // the pass after a restart reads the job as pending
    | Send(job: nat)                       // the first submission, or a resend of the same
    | Arrive(job: nat)                     // the node handles one that is on its way
    | LoseRequest(job: nat)
    | Deliver(reply: Reply)                // the answer reaches a coroutine that still waits
    | LoseReply(reply: Reply)
    | Learn(job: nat, status: Status)      // a refresh, or the answer to a remote cancellation
    | CancelLocal(job: nat)
    | Crash                                // the core dies: nobody waits for answers any more

  function Find(created: seq<Remote>, r: Remote): (found: Option<nat>)
    ensures found.Some? ==> found.value < |created| && created[found.value] == r
    ensures found.None? ==> r !in created
  {
    if created == [] then None
    else if created[|created| - 1] == r then Some(|created| - 1)
    else Find(created[..|created| - 1], r)
  }

  function SetStatus(jobs: seq<Job>, i: nat, s: Status): seq<Job> {
    if i < |jobs| then jobs[i := jobs[i].(status := s)] else jobs
  }

  function MarkSubmitted(jobs: seq<Job>, i: nat, remote: nat): seq<Job> {
    if i < |jobs| then jobs[i := jobs[i].(remote := Some(remote), status := Queued)] else jobs
  }

  function Step(w: World, e: Event): World {
    match e
    case Create(node) =>
      w.(jobs := w.jobs + [Job(node, w.keys, None, LocalPendingSubmit)], keys := w.keys + 1, sending := w.sending + {|w.jobs|})
    case Decide(i) => if i < |w.jobs| && w.jobs[i].status.LocalPendingSubmit? then w.(sending := w.sending + {i}) else w
    // What was decided is not read again: the job may have been cancelled since.
    case Send(i) => if i in w.sending then w.(sending := w.sending - {i}, requests := w.requests + {i}) else w
    case Arrive(i) =>
      if i !in w.requests || i >= |w.jobs| then w
      else
        var r := Remote(w.jobs[i].node, w.jobs[i].key);
        (match Find(w.created, r)
         case Some(id) => w.(replies := w.replies + {Reply(i, id)})
         case None => w.(created := w.created + [r], replies := w.replies + {Reply(i, |w.created|)}))
    case LoseRequest(i) => w.(requests := w.requests - {i})
    case Deliver(reply) =>
      if reply in w.replies
      then w.(jobs := MarkSubmitted(w.jobs, reply.job, reply.remote), replies := w.replies - {reply})
      else w
    case LoseReply(reply) => w.(replies := w.replies - {reply})
    // Only a job with a handle, and not yet ended when it was read, is asked after; the answer may be stale.
    case Learn(i, s) =>
      if i < |w.jobs| && w.jobs[i].remote.Some? && s != LocalPendingSubmit then w.(jobs := SetStatus(w.jobs, i, s)) else w
    // The handle was unknown when it was read; it may have become known since.
    case CancelLocal(i) => w.(jobs := SetStatus(w.jobs, i, Cancelled))
    case Crash => w.(sending := {}, replies := {})
  }

  function After(w: World, events: seq<Event>): World {
    if events == [] then w else Step(After(w, events[..|events| - 1]), events[|events| - 1])
  }

  // ---------------------------------------------------------------- the invariant

  predicate Handle(w: World, i: nat, id: nat) {
    i < |w.jobs| && id < |w.created| && w.created[id] == Remote(w.jobs[i].node, w.jobs[i].key)
  }

  predicate Sound(w: World) {
    && (forall i :: 0 <= i < |w.jobs| ==> w.jobs[i].key < w.keys)
    && (forall i, j :: 0 <= i < j < |w.jobs| ==> w.jobs[i].key != w.jobs[j].key)
    && (forall a, b :: 0 <= a < b < |w.created| ==> w.created[a] != w.created[b])
    && (forall a :: 0 <= a < |w.created| ==> w.created[a].key < w.keys)
    && (forall i :: 0 <= i < |w.jobs| && w.jobs[i].remote.Some? ==> Handle(w, i, w.jobs[i].remote.value))
    && (forall i :: 0 <= i < |w.jobs| ==> (w.jobs[i].status.LocalPendingSubmit? ==> w.jobs[i].remote.None?))
    && (forall i :: 0 <= i < |w.jobs| && w.jobs[i].remote.None? ==>
          w.jobs[i].status.LocalPendingSubmit? || w.jobs[i].status.Cancelled?)
    && (forall r :: r in w.replies ==> Handle(w, r.job, r.remote))
    && (forall i :: i in w.sending ==> i < |w.jobs|)
    && (forall i :: i in w.requests ==> i < |w.jobs|)
  }

  lemma CreateKeeps(w: World, node: nat)
    requires Sound(w)
    ensures Sound(Step(w, Create(node)))
  {
    var w' := Step(w, Create(node));
    forall i, id | Handle(w, i, id) ensures Handle(w', i, id) {
    }
  }

  lemma ArriveKeeps(w: World, i: nat)
    requires Sound(w)
    ensures Sound(Step(w, Arrive(i)))
  {
    var w' := Step(w, Arrive(i));
    forall k, id | Handle(w, k, id) ensures Handle(w', k, id) {
    }
    if i in w.requests && Find(w.created, Remote(w.jobs[i].node, w.jobs[i].key)).None? {
      assert forall a :: 0 <= a < |w.created| ==> w.created[a] in w.created;
      assert Handle(w', i, |w.created|);
    }
  }

  lemma DeliverKeeps(w: World, reply: Reply)
    requires Sound(w)
    ensures Sound(Step(w, Deliver(reply)))
  {
    var w' := Step(w, Deliver(reply));
    forall k, id | Handle(w, k, id) ensures Handle(w', k, id) {
    }
  }

  lemma StepKeeps(w: World, e: Event)
    requires Sound(w)
    ensures Sound(Step(w, e))
  {
    if e.Create? {
      CreateKeeps(w, e.node);
    } else if e.Arrive? {
      ArriveKeeps(w, e.job);
    } else if e.Deliver? {
      DeliverKeeps(w, e.reply);
    } else {
      OtherKeeps(w, e);
    }
  }

  lemma OtherKeeps(w: World, e: Event)
    requires Sound(w) && !e.Create? && !e.Arrive? && !e.Deliver?
    ensures Sound(Step(w, e))
  {
    if (e.Learn? && !e.status.LocalPendingSubmit?) || e.CancelLocal? {
      StatusKeeps(w, e.job, if e.Learn? then e.status else Cancelled);
    } else {
      MailKeeps(w, Step(w, e));
    }
  }

  lemma StatusKeeps(w: World, i: nat, s: Status)
    requires Sound(w) && !s.LocalPendingSubmit?
    ensures (i < |w.jobs| && w.jobs[i].remote.Some?) || s.Cancelled? ==> Sound(w.(jobs := SetStatus(w.jobs, i, s)))
  {
    var w' := w.(jobs := SetStatus(w.jobs, i, s));
    forall k, id | Handle(w, k, id) ensures Handle(w', k, id) {
    }
  }

  /** Nothing is lost by losing mail, and nothing gained by sending more of what may be sent. */
  lemma MailKeeps(w: World, w': World)
    requires Sound(w) && w' == w.(sending := w'.sending, requests := w'.requests, replies := w'.replies)
    requires w'.replies <= w.replies
    requires (forall i :: i in w'.sending ==> i < |w.jobs|) && (forall i :: i in w'.requests ==> i < |w.jobs|)
    ensures Sound(w')
  {
    forall k, id | Handle(w, k, id) ensures Handle(w', k, id) {
    }
  }

  /** What is remembered stays: handles never change once known, and remote jobs are never forgotten. */
  predicate Remembers(a: World, b: World) {
    && |a.jobs| <= |b.jobs| && a.created <= b.created
    && forall i :: 0 <= i < |a.jobs| ==>
         b.jobs[i].key == a.jobs[i].key && b.jobs[i].node == a.jobs[i].node
         && (a.jobs[i].remote.Some? ==> b.jobs[i].remote == a.jobs[i].remote)
  }

  lemma StepRemembers(w: World, e: Event)
    requires Sound(w)
    ensures Remembers(w, Step(w, e))
  {
    if e.Deliver? && e.reply in w.replies {
      var i := e.reply.job;
      assert Handle(w, i, e.reply.remote);
      if w.jobs[i].remote.Some? {
        assert Handle(w, i, w.jobs[i].remote.value);
      }
    }
  }

  lemma {:induction false} AlwaysSound(w: World, events: seq<Event>)
    requires Sound(w)
    ensures Sound(After(w, events)) && Remembers(w, After(w, events))
  {
    if events != [] {
      var w1 := After(w, events[..|events| - 1]);
      AlwaysSound(w, events[..|events| - 1]);
      StepKeeps(w1, events[|events| - 1]);
      StepRemembers(w1, events[|events| - 1]);
    }
  }

  // ---------------------------------------------------------------- what it promises

  /** How many remote jobs were created for one job of the core. */
  function Executions(created: seq<Remote>, node: nat, key: nat): nat {
    if created == [] then 0
    else Executions(created[..|created| - 1], node, key) + if created[|created| - 1] == Remote(node, key) then 1 else 0
  }

  lemma {:induction false} DistinctOnce(created: seq<Remote>, node: nat, key: nat)
    requires forall a, b :: 0 <= a < b < |created| ==> created[a] != created[b]
    ensures Executions(created, node, key) == if Remote(node, key) in created then 1 else 0
  {
    if created != [] {
      var n := |created| - 1;
      DistinctOnce(created[..n], node, key);
      assert forall a :: 0 <= a < n ==> created[..n][a] == created[a];
    }
  }

  /** However often it is sent, lost, answered late or resent after a crash: one job, at most one remote job. */
  lemma AtMostOneRemoteJob(events: seq<Event>, i: nat)
    requires i < |After(EMPTY, events).jobs|
    ensures var w := After(EMPTY, events);
            Executions(w.created, w.jobs[i].node, w.jobs[i].key) <= 1
  {
    AlwaysSound(EMPTY, events);
    var w := After(EMPTY, events);
    DistinctOnce(w.created, w.jobs[i].node, w.jobs[i].key);
  }

  /** Different jobs never share a remote job. */
  lemma DistinctJobsDistinctRemotes(events: seq<Event>, i: nat, j: nat)
    requires i < |After(EMPTY, events).jobs| && j < |After(EMPTY, events).jobs| && i != j
    requires After(EMPTY, events).jobs[i].remote.Some? && After(EMPTY, events).jobs[j].remote.Some?
    ensures After(EMPTY, events).jobs[i].remote != After(EMPTY, events).jobs[j].remote
  {
    AlwaysSound(EMPTY, events);
    var w := After(EMPTY, events);
    assert Handle(w, i, w.jobs[i].remote.value) && Handle(w, j, w.jobs[j].remote.value);
    if i < j {
      assert w.jobs[i].key != w.jobs[j].key;
    } else {
      assert w.jobs[j].key != w.jobs[i].key;
    }
  }

  /** Once a handle is known it is the right one, and it never changes again. */
  lemma HandleIsForever(before: seq<Event>, after: seq<Event>, i: nat)
    requires i < |After(EMPTY, before).jobs| && After(EMPTY, before).jobs[i].remote.Some?
    ensures var w, w' := After(EMPTY, before), After(After(EMPTY, before), after);
            && i < |w'.jobs| && w'.jobs[i].remote == w.jobs[i].remote
            && Handle(w', i, w.jobs[i].remote.value)
  {
    AlwaysSound(EMPTY, before);
    AlwaysSound(After(EMPTY, before), after);
  }

  /**
   An ended job changes its status again exactly when something still arrives for it: a late
   answer, a stale refresh or cancel.
   */
  lemma EndedUntilHeard(w: World, e: Event, i: nat)
    requires Sound(w) && i < |w.jobs| && w.jobs[i].status.Terminal()
    ensures Step(w, e).jobs[i].status != w.jobs[i].status
            <==> (e.Deliver? && e.reply in w.replies && e.reply.job == i)
                 || (e.Learn? && e.job == i && w.jobs[i].remote.Some? && !e.status.LocalPendingSubmit?
                     && e.status != w.jobs[i].status)
                 || (e.CancelLocal? && e.job == i && !w.jobs[i].status.Cancelled?)
  {
    StepKeeps(w, e);
  }

  /** Something of the job is still on its way to its node, or has already got there. */
  predicate OnItsWay(w: World, i: nat)
    requires i < |w.jobs|
  {
    i in w.sending || i in w.requests || Remote(w.jobs[i].node, w.jobs[i].key) in w.created
  }

  /** A job that is no longer pending, and of which nothing is under way, stays like that. */
  lemma StaysHome(w: World, e: Event, i: nat)
    requires Sound(w) && i < |w.jobs| && !w.jobs[i].status.LocalPendingSubmit? && !OnItsWay(w, i)
    ensures var w' := Step(w, e);
            && i < |w'.jobs| && !w'.jobs[i].status.LocalPendingSubmit? && !OnItsWay(w', i)
            && w'.jobs[i].node == w.jobs[i].node && w'.jobs[i].key == w.jobs[i].key
  {
    StepRemembers(w, e);
    if e.Arrive? && e.job in w.requests {
      assert e.job != i;
      assert if e.job < i then w.jobs[e.job].key != w.jobs[i].key else w.jobs[i].key != w.jobs[e.job].key;
    }
  }

  lemma {:induction false} NeverLeaves(w: World, events: seq<Event>, i: nat)
    requires Sound(w) && i < |w.jobs| && !w.jobs[i].status.LocalPendingSubmit? && !OnItsWay(w, i)
    ensures var w' := After(w, events);
            && Sound(w') && i < |w'.jobs| && !w'.jobs[i].status.LocalPendingSubmit? && !OnItsWay(w', i)
            && w'.jobs[i].node == w.jobs[i].node && w'.jobs[i].key == w.jobs[i].key
  {
    AlwaysSound(w, events);
    if events != [] {
      NeverLeaves(w, events[..|events| - 1], i);
      StaysHome(After(w, events[..|events| - 1]), events[|events| - 1], i);
    }
  }

  /** What is on its way can still get there. */
  lemma GetsThere(w: World, i: nat) returns (events: seq<Event>)
    requires Sound(w) && i < |w.jobs| && OnItsWay(w, i)
    ensures Remote(w.jobs[i].node, w.jobs[i].key) in After(w, events).created
  {
    var r := Remote(w.jobs[i].node, w.jobs[i].key);
    if r in w.created {
      events := [];
    } else if i in w.requests {
      events := [Arrive(i)];
      assert events[..0] == [];
      assert r in Step(w, Arrive(i)).created;
    } else {
      var w1 := Step(w, Send(i));
      events := [Send(i), Arrive(i)];
      assert events[..1] == [Send(i)] && [Send(i)][..0] == [];
      assert After(w, [Send(i)]) == w1;
      assert r in Step(w1, Arrive(i)).created;
    }
  }

  /**
   A local cancellation keeps a job from running exactly when nothing of it had left: if some
   coroutine had decided to send it, if a request was on its way, or if the node had the key,
   it can still run; otherwise it never will.
   */
  lemma CancelledRunsExactly(w: World, i: nat)
    requires Sound(w) && i < |w.jobs|
    ensures (exists events :: Remote(w.jobs[i].node, w.jobs[i].key) in After(Step(w, CancelLocal(i)), events).created)
            <==> OnItsWay(w, i)
  {
    var w' := Step(w, CancelLocal(i));
    StepKeeps(w, CancelLocal(i));
    if OnItsWay(w, i) {
      var events := GetsThere(w', i);
    } else {
      forall events ensures Remote(w.jobs[i].node, w.jobs[i].key) !in After(w', events).created {
        NeverLeaves(w', events, i);
      }
    }
  }

  /**
   A job cancelled before its submission was confirmed runs remotely all the same, and the
   answer takes the cancellation back.
   */
  lemma CancelledJobRuns()
    ensures var events := [Create(0), Send(0), Arrive(0), CancelLocal(0)];
            var w := After(EMPTY, events);
            && |w.jobs| == 1 && w.jobs[0].status.Cancelled? && Executions(w.created, 0, w.jobs[0].key) == 1
            && Reply(0, 0) in w.replies && Step(w, Deliver(Reply(0, 0))).jobs[0].status.Queued?
  {
    var w1 := Step(EMPTY, Create(0));
    var w2 := Step(w1, Send(0));
    var w3 := Step(w2, Arrive(0));
    var w4 := Step(w3, CancelLocal(0));
    var events := [Create(0), Send(0), Arrive(0), CancelLocal(0)];
    assert events[..3] == [Create(0), Send(0), Arrive(0)] && events[..3][..2] == [Create(0), Send(0)];
    assert [Create(0), Send(0)][..1] == [Create(0)] && [Create(0)][..0] == [];
    assert After(EMPTY, [Create(0)]) == w1;
    assert After(EMPTY, [Create(0), Send(0)]) == w2;
    assert w3.created == [Remote(0, 0)];
    assert w3.created[..0] == [];
  }
}
