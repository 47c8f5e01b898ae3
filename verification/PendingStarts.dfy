/**
 Orders whose first approval is still out: remembered durably, polled by the tick, taken
 before they are executed. The process may die between any two of these.
 */
module PendingStarts {
  datatype StartState = Waiting | Taken | Closed

  /**
   `resumable`: the order is one of those that may be repeated, from an origin that still
   exists. The rest is history: how often it was remembered at all and after it had been
   taken, how often it was attempted, and whether its approval was ever read as APPROVED.
   */
  datatype Entry = Entry(state: StartState, resumable: bool, remembered: nat, retaken: nat, attempts: nat,
                         approved: bool)

  /** `remember_pending_start` replaces a row with the same request, and the order waits again. */
  function Renewed(e: Entry, resumable: bool): Entry {
    e.(state := Waiting, resumable := resumable, remembered := e.remembered + 1,
       retaken := e.retaken + if e.state.Taken? then 1 else 0)
  }

  /** The row the control plane has for an approval, if it can be read at all. */
  datatype ApprovalRow = ReadFails | NoRow | Row(state: string, expired: bool)

  const PENDING := "PENDING"
  const APPROVED := "APPROVED"
  const EXPIRED := "EXPIRED"

  /** The state of an approval, read and not guessed: what cannot be read is still pending, what is gone has lapsed. */
  function ReadState(row: ApprovalRow): string {
    match row
    case ReadFails => PENDING
    case NoRow => EXPIRED
    case Row(state, expired) =>
      if state == PENDING && expired then EXPIRED else if state == "" then EXPIRED else state
  }

  /** Where the poll stands: between two orders, waiting for a reading, about to start an order, or starting it. */
  datatype Poll =
    | Idle(rest: seq<nat>)
    | Reading(id: nat, rest: seq<nat>)
    | Due(id: nat, rest: seq<nat>)
    | Starting(id: nat, rest: seq<nat>)

  datatype World = World(entries: map<nat, Entry>, poll: Poll)

  const EMPTY: World := World(map[], Idle([]))

  datatype Event =
    | Remember(id: nat, resumable: bool)
    | BeginPoll(control: bool, order: seq<nat>)   // without a control plane nobody is asked
    | NextOrder
    | Read(row: ApprovalRow)
    | Start
    | Started
    | Crash

  function Put(w: World, id: nat, e: Entry): World { w.(entries := w.entries[id := e]) }

  /** Waiting orders, each once, in whatever order the ledger lists them. */
  predicate Lists(entries: map<nat, Entry>, order: seq<nat>) {
    && (forall i :: 0 <= i < |order| ==> order[i] in entries && entries[order[i]].state.Waiting?)
    && (forall i, j :: 0 <= i < j < |order| ==> order[i] != order[j])
  }

  function Step(w: World, e: Event): World {
    match e
    case Remember(id, resumable) =>
      if id in w.entries then Put(w, id, Renewed(w.entries[id], resumable))
      else Put(w, id, Entry(Waiting, resumable, 1, 0, 0, false))
    case BeginPoll(control, order) =>
      if control && w.poll == Idle([]) && Lists(w.entries, order) then w.(poll := Idle(order)) else w
    case NextOrder => if w.poll.Idle? && w.poll.rest != [] then w.(poll := Reading(w.poll.rest[0], w.poll.rest[1..])) else w
    case Read(row) =>
      if !w.poll.Reading? || w.poll.id !in w.entries then w
      else
        var id, rest, e := w.poll.id, w.poll.rest, w.entries[w.poll.id];
        var state := ReadState(row);
        if state == PENDING then w.(poll := Idle(rest))
        else if state != APPROVED then Put(w, id, e.(state := Closed)).(poll := Idle(rest))
        // Taken before it is executed.
        else Put(w, id, e.(state := Taken, approved := true)).(poll := Due(id, rest))
    case Start =>
      if !w.poll.Due? || w.poll.id !in w.entries then w
      else if !w.entries[w.poll.id].resumable then w.(poll := Idle(w.poll.rest))
      else
        Put(w, w.poll.id, w.entries[w.poll.id].(attempts := w.entries[w.poll.id].attempts + 1))
        .(poll := Starting(w.poll.id, w.poll.rest))
    case Started => if w.poll.Starting? then w.(poll := Idle(w.poll.rest)) else w
    case Crash => w.(poll := Idle([]))
  }

  function After(w: World, events: seq<Event>): World {
    if events == [] then w else Step(After(w, events[..|events| - 1]), events[|events| - 1])
  }

  // ---------------------------------------------------------------- the invariant

  /** Attempts an order still has coming: one while it waits, one while it is due. */
  function Coming(w: World, id: nat): nat
    requires id in w.entries
  {
    (if w.entries[id].state.Waiting? then 1 else 0) + if w.poll.Due? && w.poll.id == id then 1 else 0
  }

  function Ahead(p: Poll): seq<nat> {
    if p.Reading? then [p.id] + p.rest else p.rest
  }

  /** Attempts made and to come never exceed what was asked for, and none comes before the reading. */
  predicate Fair(e: Entry, coming: nat) {
    && e.attempts + coming <= 1 + e.retaken && e.retaken < e.remembered
    && (e.state.Closed? ==> e.attempts + coming <= e.retaken)
    && (e.attempts > 0 ==> e.approved)
    && (e.remembered == 1 && e.state.Closed? ==> e.attempts == 0 && !e.approved)
    && (e.remembered == 1 && e.state.Waiting? ==> !e.approved)
  }

  ghost predicate Sound(w: World) {
    && Lists(w.entries, Ahead(w.poll))
    && (w.poll.Due? ==> w.poll.id in w.entries && w.entries[w.poll.id].approved && w.poll.id !in w.poll.rest)
    && (w.poll.Starting? ==> w.poll.id in w.entries && w.poll.id !in w.poll.rest)
    && forall id :: id in w.entries ==> Fair(w.entries[id], Coming(w, id))
  }

  lemma RememberKeeps(w: World, id: nat, resumable: bool)
    requires Sound(w)
    ensures Sound(Step(w, Remember(id, resumable)))
  {
  }

  lemma NextKeeps(w: World, e: Event)
    requires Sound(w) && (e.BeginPoll? || e.NextOrder? || e.Crash? || e.Started?)
    ensures Sound(Step(w, e))
  {
    if w.poll.Idle? && w.poll.rest != [] {
      assert [w.poll.rest[0]] + w.poll.rest[1..] == w.poll.rest;
    }
  }

  lemma ReadKeeps(w: World, row: ApprovalRow)
    requires Sound(w)
    ensures Sound(Step(w, Read(row)))
  {
    if w.poll.Reading? {
      var all := Ahead(w.poll);
      assert all[0] == w.poll.id;
      assert forall i :: 0 <= i < |w.poll.rest| ==> w.poll.rest[i] == all[i + 1];
      assert Fair(w.entries[w.poll.id], Coming(w, w.poll.id));
      FairRead(w, row);
      hide Fair;
    }
  }

  lemma FairRead(w: World, row: ApprovalRow)
    requires w.poll.Reading? && w.poll.id in w.entries && w.entries[w.poll.id].state.Waiting?
    requires Fair(w.entries[w.poll.id], Coming(w, w.poll.id))
    ensures Fair(Step(w, Read(row)).entries[w.poll.id], Coming(Step(w, Read(row)), w.poll.id))
  {
  }

  lemma StepKeeps(w: World, e: Event)
    requires Sound(w)
    ensures Sound(Step(w, e))
  {
    if e.Remember? {
      RememberKeeps(w, e.id, e.resumable);
    } else if e.Read? {
      ReadKeeps(w, e.row);
    } else if e.Start? {
      StartKeeps(w);
    } else {
      NextKeeps(w, e);
    }
  }

  lemma StartKeeps(w: World)
    requires Sound(w)
    ensures Sound(Step(w, Start))
  {
  }

  lemma {:induction false} AlwaysSound(events: seq<Event>)
    ensures Sound(After(EMPTY, events))
  {
    if events != [] {
      AlwaysSound(events[..|events| - 1]);
      StepKeeps(After(EMPTY, events[..|events| - 1]), events[|events| - 1]);
    }
  }

  /**
   Over any crashes and any readings: an order is attempted at most once, and once more for
   every time it was remembered again after having been taken; never before its approval was
   read as APPROVED; and not at all if it has been closed and was never taken before.
   */
  lemma AtMostOnce(events: seq<Event>, id: nat)
    requires id in After(EMPTY, events).entries
    ensures var e := After(EMPTY, events).entries[id];
            && e.attempts <= 1 + e.retaken && e.retaken < e.remembered
            && (e.attempts > 0 ==> e.approved)
            && (e.state.Closed? ==> e.attempts <= e.retaken)
  {
    AlwaysSound(events);
  }

  /** What one reading does: still pending or unreadable leaves the order waiting, anything but APPROVED closes it. */
  lemma ReadingDecides(w: World, row: ApprovalRow)
    requires Sound(w) && w.poll.Reading? && w.poll.id in w.entries
    ensures var w' := Step(w, Read(row));
            var e, e' := w.entries[w.poll.id], w'.entries[w.poll.id];
            && (e'.state.Waiting? <==> row.ReadFails? || (row.Row? && row.state == PENDING && !row.expired))
            && (e'.state.Taken? <==> row.Row? && row.state == APPROVED)
            && e'.attempts == e.attempts && (w'.poll.Due? <==> e'.state.Taken?)
  {
    assert Ahead(w.poll)[0] == w.poll.id;
  }

  /** An approved order is started by the next pass. */
  lemma ApprovedStarts(w: World, id: nat)
    requires w.poll == Idle([]) && id in w.entries && w.entries[id].state.Waiting? && w.entries[id].resumable
    ensures var w' := Step(Step(Step(Step(w, BeginPoll(true, [id])), NextOrder), Read(Row(APPROVED, false))), Start);
            && id in w'.entries && w'.poll == Starting(id, [])
            && w'.entries[id] == w.entries[id].(state := Taken, approved := true, attempts := w.entries[id].attempts + 1)
  {
    assert Lists(w.entries, [id]);
  }

  /** Remembered again after it was taken, an order is attempted once more by the pass that reads it APPROVED. */
  lemma RetakenRunsAgain(w: World, id: nat)
    requires w.poll == Idle([]) && id in w.entries && w.entries[id].state.Taken?
    ensures var w1 := Step(Step(Step(w, Remember(id, true)), BeginPoll(true, [id])), NextOrder);
            var w' := Step(Step(w1, Read(Row(APPROVED, false))), Start);
            && id in w'.entries && w'.entries[id].attempts == w.entries[id].attempts + 1
            && w'.entries[id].retaken == w.entries[id].retaken + 1
  {
    ApprovedStarts(Step(w, Remember(id, true)), id);
  }

  const REMEMBERED_TWICE: seq<Event> :=
    [Remember(1, true), BeginPoll(true, [1]), NextOrder, Read(Row(APPROVED, false)), Start, Started,
     Remember(1, true), BeginPoll(true, [1]), NextOrder, Read(Row(APPROVED, false)), Start]

  /** An order remembered a second time under the same request is attempted a second time. */
  lemma RememberedTwiceRunsTwice()
    ensures 1 in After(EMPTY, REMEMBERED_TWICE).entries && After(EMPTY, REMEMBERED_TWICE).entries[1].attempts == 2
  {
    var k := REMEMBERED_TWICE;
    var w1 := Step(EMPTY, k[0]);
    ApprovedStarts(w1, 1);
    var w5 := Step(Step(Step(Step(w1, k[1]), k[2]), k[3]), k[4]);
    var w7 := Step(Step(w5, k[5]), k[6]);
    ApprovedStarts(w7, 1);
    Unroll(k);
  }

  lemma Unroll(k: seq<Event>)
    requires |k| == 11
    ensures After(EMPTY, k)
            == Step(Step(Step(Step(Step(Step(Step(Step(Step(Step(Step(EMPTY, k[0]), k[1]), k[2]), k[3]), k[4]), k[5]),
                                                             k[6]), k[7]), k[8]), k[9]), k[10])
  {
    hide Step;
    forall n | 0 <= n < |k| ensures After(EMPTY, k[..n + 1]) == Step(After(EMPTY, k[..n]), k[n]) {
      assert k[..n + 1][..n] == k[..n];
    }
    assert k[..0] == [] && k[..0 + 1] == k[..1] && k[..1 + 1] == k[..2] && k[..2 + 1] == k[..3] && k[..3 + 1] == k[..4];
    assert k[..4 + 1] == k[..5] && k[..5 + 1] == k[..6] && k[..6 + 1] == k[..7] && k[..7 + 1] == k[..8] && k[..8 + 1] == k[..9];
    assert k[..9 + 1] == k[..10] && k[..10 + 1] == k;
  }

  // ---------------------------------------------------------------- the poll itself

  /**
   One pass over the waiting orders, undisturbed: each is read once, and started at most once,
   after it has been taken.
   */
  class StartPoller {
    var entries: map<nat, Entry>

    ghost predicate Valid()
      reads this
    {
      Sound(World(entries, Idle([])))
    }

    constructor ()
      ensures Valid() && entries == map[]
    {
      entries := map[];
    }

    method Remember(id: nat, resumable: bool)
      requires Valid()
      modifies this
      ensures Valid() && entries == Step(World(old(entries), Idle([])), Event.Remember(id, resumable)).entries
    {
      RememberKeeps(World(entries, Idle([])), id, resumable);
      if id in entries {
        entries := entries[id := Renewed(entries[id], resumable)];
      } else {
        entries := entries[id := Entry(Waiting, resumable, 1, 0, 0, false)];
      }
    }

    /** What the pass makes of one order. */
    function Polled(e: Entry, row: ApprovalRow): Entry {
      var state := ReadState(row);
      if state == PENDING then e
      else if state != APPROVED then e.(state := Closed)
      else e.(state := Taken, approved := true, attempts := e.attempts + if e.resumable then 1 else 0)
    }

    /** The steps of the protocol that one order's turn consists of. */
    function Turn(w: World, row: ApprovalRow): World {
      Step(Step(Step(Step(w, NextOrder), Read(row)), Start), Started)
    }

    lemma TurnIs(entries: map<nat, Entry>, rest: seq<nat>, row: ApprovalRow)
      requires rest != [] && rest[0] in entries
      ensures Turn(World(entries, Idle(rest)), row) == World(entries[rest[0] := Polled(entries[rest[0]], row)], Idle(rest[1..]))
    {
      assert entries[rest[0] := entries[rest[0]]] == entries;
    }

    lemma TurnKeeps(w: World, row: ApprovalRow)
      requires Sound(w)
      ensures Sound(Turn(w, row))
    {
      hide Sound, Step;
      StepKeeps(w, NextOrder);
      StepKeeps(Step(w, NextOrder), Read(row));
      StepKeeps(Step(Step(w, NextOrder), Read(row)), Start);
      StepKeeps(Step(Step(Step(w, NextOrder), Read(row)), Start), Started);
    }

    lemma Begins(entries: map<nat, Entry>, order: seq<nat>)
      requires Sound(World(entries, Idle([]))) && Lists(entries, order)
      ensures Sound(World(entries, Idle(order)))
    {
      StepKeeps(World(entries, Idle([])), BeginPoll(true, order));
    }

    method PollOne(id: nat, row: ApprovalRow)
      requires id in entries
      modifies this
      ensures entries == old(entries)[id := Polled(old(entries)[id], row)]
    {
      var state := ReadState(row);
      if state == PENDING {
        assert entries == entries[id := entries[id]];
        return;
      }
      if state != APPROVED {
        entries := entries[id := entries[id].(state := Closed)];
        return;
      }
      entries := entries[id := entries[id].(state := Taken, approved := true)];
      if entries[id].resumable {
        entries := entries[id := entries[id].(attempts := entries[id].attempts + 1)];
      }
    }

    method PollAll(control: bool, order: seq<nat>, rows: seq<ApprovalRow>)
      requires Valid() && Lists(entries, order) && |rows| == |order|
      modifies this
      ensures Valid() && entries.Keys == old(entries).Keys
      ensures !control ==> entries == old(entries)
      ensures forall i :: 0 <= i < |order| ==>
                order[i] in entries
                && entries[order[i]] == if control then Polled(old(entries)[order[i]], rows[i]) else old(entries)[order[i]]
      ensures forall id :: id in entries && id !in order ==> entries[id] == old(entries)[id]
    {
      hide Sound, Turn, Step, Ahead, Polled;
      if !control {
        return;
      }
      var k := 0;
      ghost var w := World(entries, Idle(order));
      Begins(entries, order);
      assert order[k..] == order;
      while k < |order|
        invariant 0 <= k <= |order| && w == World(entries, Idle(order[k..])) && Sound(w)
        invariant entries.Keys == old(entries).Keys
        invariant forall i :: 0 <= i < k ==> entries[order[i]] == Polled(old(entries)[order[i]], rows[i])
        invariant forall id :: id in entries && id !in order[..k] ==> entries[id] == old(entries)[id]
      {
        var id := order[k];
        assert id !in order[..k] && order[k..][0] == id && order[k..][1..] == order[k + 1..];
        assert order[..k + 1] == order[..k] + [id];
        TurnKeeps(w, rows[k]);
        TurnIs(entries, order[k..], rows[k]);
        w := Turn(w, rows[k]);
        PollOne(id, rows[k]);
        k := k + 1;
      }
      assert order[k..] == [];
      assert order[..k] == order;
    }
  }
}
