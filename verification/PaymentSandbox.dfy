/**
 The payment sandbox: quotes, charges under an idempotency key, confirmations, refunds and
 cancellations. A handler is guarded before it waits for its body, and the scenario may have
 changed when it arrives; a refund also looks its key up before that wait, so that other
 requests may come in between.
 */
module PaymentSandbox {
  import opened Basics

  datatype Status = ChargeSucceeded | Declined | MerchantFailed | ScaRequired

  /** `ref` and `order` are None where the service answers with an empty reference. */
  datatype Charge = Charge(status: Status, ref: Option<nat>, amount: int, currency: string, order: Option<nat>,
                           refunded: int)

  datatype Refund = Refund(ref: nat, amount: int, currency: string)

  /** The history of refunds: on which charge, under which refund key, how much. */
  datatype Grant = Grant(charge: string, key: string, amount: int)

  datatype Scenario =
    | Normal | PlayDeclined | PriceDrift | PlaySca | PlayMerchantFailed | AmbiguousAfterCharge
    | Slow | Unauthorized | Unreachable

  datatype Role = ChargeRole | RefundRole | ReadRole | NoRole

  datatype Action = DoQuote | DoCharge | DoRefund | DoCancel | DoLookup

  /** `keys` lists the charges in the order they came in; `waiting` are refunds between key check and body. */
  datatype Box = Box(scenario: Scenario, charges: map<string, Charge>, keys: seq<string>, quotes: map<nat, int>,
                     refunds: map<string, Refund>, created: nat, attempts: nat, refs: nat,
                     waiting: multiset<string>, grants: seq<Grant>)

  const OPENED: Box := Box(Normal, map[], [], map[], map[], 0, 0, 0, multiset{}, [])

  const SHIPPING: int := 499
  const DRIFT: int := 250

  datatype Answer =
    | NoAnswer | Unauthorised | NoKey | NoItems
    | Quoted(ref: nat, total: int)
    | ChargeRecord(charge: Charge, replayed: bool)
    | InstrumentUnusable | QuoteMismatch
    | RefundRecord(refund: Refund, refundReplayed: bool)
    | UnknownCharge | AmountOutOfRange | NoPendingSca | Cancelled(charge: Charge) | KeyIsNew

  function May(role: Role, action: Action): bool {
    match role
    case ChargeRole => true
    case RefundRole => !action.DoCharge?
    case ReadRole => action.DoQuote? || action.DoLookup?
    case NoRole => false
  }

  /** `seen` is the scenario the guard finds; by the time the body has arrived another may be played. */
  function Guard(seen: Scenario, role: Role, action: Action): Option<Answer> {
    if seen.Unreachable? then Some(NoAnswer)
    else if seen.Unauthorized? || !May(role, action) then Some(Unauthorised)
    else None
  }

  // ---------------------------------------------------------------- the handlers

  datatype Item = Item(quantity: int, unit: int)

  function ItemsTotal(items: seq<Item>): int {
    if items == [] then 0
    else ItemsTotal(items[..|items| - 1]) + items[|items| - 1].quantity * items[|items| - 1].unit
  }

  /** The service computes; a sum the caller sends along is not looked at. */
  function QuoteFor(b: Box, seen: Scenario, role: Role, items: seq<Item>): (Box, Answer) {
    if Guard(seen, role, DoQuote).Some? then (b, Guard(seen, role, DoQuote).value)
    else if items == [] then (b, NoItems)
    else
      var total := ItemsTotal(items) + (if b.scenario.PriceDrift? then DRIFT else 0) + SHIPPING;
      (b.(quotes := b.quotes[b.refs := total], refs := b.refs + 1), Quoted(b.refs, total))
  }

  /** The record a new charge gets, in the scenario that is played; two references are drawn for it. */
  function Booked(b: Box, amount: int, currency: string): Charge {
    match b.scenario
    case PlayDeclined => Charge(Declined, None, amount, currency, None, 0)
    case PlayMerchantFailed => Charge(MerchantFailed, None, amount, currency, None, 0)
    case PlaySca => Charge(ScaRequired, Some(b.refs), amount, currency, Some(b.refs + 1), 0)
    case _ => Charge(ChargeSucceeded, Some(b.refs), amount, currency, Some(b.refs + 1), 0)
  }

  function Book(b: Box, key: string, c: Charge): Box {
    b.(charges := b.charges[key := c], keys := b.keys + [key], refs := b.refs + 2,
       created := b.created + if c.status.ChargeSucceeded? then 1 else 0)
  }

  function ChargeWith(b: Box, seen: Scenario, role: Role, key: string, usable: bool, amount: int, currency: string,
                      quote: Option<nat>): (Box, Answer) {
    if Guard(seen, role, DoCharge).Some? then (b, Guard(seen, role, DoCharge).value)
    else if key == "" then (b, NoKey)
    else
      var b1 := b.(attempts := b.attempts + 1);
      if key in b1.charges then (b1, ChargeRecord(b1.charges[key], true))
      else if !usable then (b1, InstrumentUnusable)
      else if quote.Some? && quote.value in b1.quotes && b1.quotes[quote.value] != amount then (b1, QuoteMismatch)
      else
        var c := Booked(b1, amount, currency);
        (Book(b1, key, c), if b1.scenario.AmbiguousAfterCharge? then NoAnswer else ChargeRecord(c, false))
  }

  function ConfirmSca(b: Box, admin: bool, key: string): (Box, Answer) {
    if !admin then (b, Unauthorised)
    else if key !in b.charges || !b.charges[key].status.ScaRequired? then (b, NoPendingSca)
    else
      var c := b.charges[key].(status := ChargeSucceeded);
      (b.(charges := b.charges[key := c], created := b.created + 1), ChargeRecord(c, false))
  }

  /** The charge at this place of the list has the reference, and none before it has. */
  predicate FirstAt(b: Box, keys: seq<string>, ref: Option<nat>, i: nat) {
    && i < |keys| && keys[i] in b.charges && b.charges[keys[i]].ref == ref
    && forall j :: 0 <= j < i && keys[j] in b.charges ==> b.charges[keys[j]].ref != ref
  }

  lemma FirstBehind(b: Box, keys: seq<string>, ref: Option<nat>, i: nat)
    requires keys != [] && FirstAt(b, keys[1..], ref, i) && !(keys[0] in b.charges && b.charges[keys[0]].ref == ref)
    ensures FirstAt(b, keys, ref, i + 1)
  {
    forall j | 0 <= j < i + 1 && keys[j] in b.charges ensures b.charges[keys[j]].ref != ref {
      if j > 0 {
        assert keys[1..][j - 1] == keys[j];
      }
    }
  }

  /** The first charge with this reference, in the order they came in. */
  function Lookup(b: Box, keys: seq<string>, ref: Option<nat>): (found: Option<string>)
    ensures found.Some? ==> found.value in keys && found.value in b.charges && b.charges[found.value].ref == ref
    ensures found.Some? ==> exists i: nat :: FirstAt(b, keys, ref, i) && keys[i] == found.value
    ensures found.None? ==> forall k :: k in keys && k in b.charges ==> b.charges[k].ref != ref
  {
    if keys == [] then None
    else if keys[0] in b.charges && b.charges[keys[0]].ref == ref then
      assert FirstAt(b, keys, ref, 0);
      Some(keys[0])
    else
      var rest := Lookup(b, keys[1..], ref);
      assert rest.Some? ==> exists i: nat :: FirstAt(b, keys, ref, i) && keys[i] == rest.value by {
        if rest.Some? {
          var i: nat :| FirstAt(b, keys[1..], ref, i) && keys[1..][i] == rest.value;
          FirstBehind(b, keys, ref, i);
        }
      }
      rest
  }

  /** The first half of a refund: guard, key, replay. */
  function BeginRefund(b: Box, seen: Scenario, role: Role, key: string): (Box, Answer) {
    if Guard(seen, role, DoRefund).Some? then (b, Guard(seen, role, DoRefund).value)
    else if key == "" then (b, NoKey)
    else if key in b.refunds then (b, RefundRecord(b.refunds[key], true))
    else (b.(waiting := b.waiting + multiset{key}), KeyIsNew)
  }

  /** A refund granted: on the charge, in the record under its key, and in the history. */
  function PayBack(b: Box, charge: string, key: string, amount: int): Box
    requires charge in b.charges
  {
    var c := b.charges[charge];
    b.(charges := b.charges[charge := c.(refunded := c.refunded + amount)], refs := b.refs + 1,
       refunds := b.refunds[key := Refund(b.refs, amount, c.currency)], grants := b.grants + [Grant(charge, key, amount)])
  }

  predicate Payable(b: Box, charge: string, amount: int) {
    && charge in b.charges && b.charges[charge].status.ChargeSucceeded?
    && 0 < amount <= b.charges[charge].amount - b.charges[charge].refunded
  }

  /** The second half, once the body is there; the key is not looked up again. */
  function EndRefund(b: Box, key: string, ref: Option<nat>, amount: int): (Box, Answer) {
    if b.waiting[key] == 0 then (b, NoAnswer)
    else
      var b1 := b.(waiting := b.waiting - multiset{key});
      var target := Lookup(b1, b1.keys, ref);
      if target.None? || !b1.charges[target.value].status.ChargeSucceeded? then (b1, UnknownCharge)
      else if !Payable(b1, target.value, amount) then (b1, AmountOutOfRange)
      else
        var b2 := PayBack(b1, target.value, key, amount);
        (b2, RefundRecord(b2.refunds[key], false))
  }

  function CancelCharge(b: Box, seen: Scenario, role: Role, ref: Option<nat>): (Box, Answer) {
    if Guard(seen, role, DoCancel).Some? then (b, Guard(seen, role, DoCancel).value)
    else
      var target := Lookup(b, b.keys, ref);
      if target.None? then (b, UnknownCharge)
      else
        var c := b.charges[target.value].(order := None);
        (b.(charges := b.charges[target.value := c]), Cancelled(c))
  }

  datatype Event =
    | Play(scenario: Scenario)
    | AskQuote(seen: Scenario, role: Role, items: seq<Item>)
    | AskCharge(seen: Scenario, role: Role, key: string, usable: bool, amount: int, currency: string, quote: Option<nat>)
    | Confirm(admin: bool, key: string)
    | RefundBegins(seen: Scenario, role: Role, key: string)
    | RefundEnds(key: string, ref: Option<nat>, amount: int)
    | AskCancel(seen: Scenario, role: Role, ref: Option<nat>)

  function Step(b: Box, e: Event): Box {
    match e
    case Play(s) => b.(scenario := s)
    case AskQuote(seen, role, items) => QuoteFor(b, seen, role, items).0
    case AskCharge(seen, role, key, usable, amount, currency, quote) =>
      ChargeWith(b, seen, role, key, usable, amount, currency, quote).0
    case Confirm(admin, key) => ConfirmSca(b, admin, key).0
    case RefundBegins(seen, role, key) => BeginRefund(b, seen, role, key).0
    case RefundEnds(key, ref, amount) => EndRefund(b, key, ref, amount).0
    case AskCancel(seen, role, ref) => CancelCharge(b, seen, role, ref).0
  }

  function After(b: Box, events: seq<Event>): Box {
    if events == [] then b else Step(After(b, events[..|events| - 1]), events[|events| - 1])
  }

  // ---------------------------------------------------------------- conservation

  /** What the history has refunded on a charge. */
  function Refunded(grants: seq<Grant>, charge: string): int {
    if grants == [] then 0
    else
      var g := grants[|grants| - 1];
      Refunded(grants[..|grants| - 1], charge) + if g.charge == charge then g.amount else 0
  }

  /** How often the history has granted a refund under a key. */
  function Granted(grants: seq<Grant>, key: string): nat {
    if grants == [] then 0
    else Granted(grants[..|grants| - 1], key) + if grants[|grants| - 1].key == key then 1 else 0
  }

  function CountSucceeded(charges: map<string, Charge>, keys: seq<string>): nat {
    if keys == [] then 0
    else
      var k := keys[|keys| - 1];
      CountSucceeded(charges, keys[..|keys| - 1]) + if k in charges && charges[k].status.ChargeSucceeded? then 1 else 0
  }

  predicate Orderly(b: Box, key: string)
    requires key in b.charges
  {
    var c := b.charges[key];
    && (c.ref.None? <==> c.status.Declined? || c.status.MerchantFailed?)
    && (c.ref.Some? ==> c.ref.value < b.refs)
    && c.refunded == Refunded(b.grants, key)
    && 0 <= c.refunded <= (if c.amount > 0 then c.amount else 0)
    && (c.refunded > 0 ==> c.status.ChargeSucceeded?)
  }

  ghost predicate Listed(b: Box) {
    && (forall k :: k in b.keys <==> k in b.charges)
    && (forall i, j :: 0 <= i < j < |b.keys| ==> b.keys[i] != b.keys[j])
  }

  predicate AllOrderly(b: Box) {
    forall k :: k in b.charges ==> Orderly(b, k)
  }

  predicate RefsDistinct(b: Box) {
    forall k, m :: k in b.charges && m in b.charges && k != m && b.charges[k].ref.Some? ==> b.charges[k].ref != b.charges[m].ref
  }

  predicate GrantsKnown(b: Box) {
    forall i :: 0 <= i < |b.grants| ==> b.grants[i].charge in b.charges
  }

  ghost predicate Sound(b: Box) {
    Listed(b) && AllOrderly(b) && RefsDistinct(b) && GrantsKnown(b) && b.created == CountSucceeded(b.charges, b.keys)
  }

  lemma {:induction false} CountFrame(before: map<string, Charge>, after: map<string, Charge>, keys: seq<string>)
    requires forall k :: k in keys ==> k in before && k in after && before[k].status == after[k].status
    ensures CountSucceeded(before, keys) == CountSucceeded(after, keys)
  {
    if keys != [] {
      CountFrame(before, after, keys[..|keys| - 1]);
    }
  }

  lemma {:induction false} CountOneMore(charges: map<string, Charge>, keys: seq<string>, key: string, c: Charge)
    requires forall i, j :: 0 <= i < j < |keys| ==> keys[i] != keys[j]
    requires key in keys && (forall k :: k in keys ==> k in charges)
    requires !charges[key].status.ChargeSucceeded? && c.status.ChargeSucceeded?
    ensures CountSucceeded(charges[key := c], keys) == CountSucceeded(charges, keys) + 1
  {
    var n := |keys| - 1;
    if keys[n] == key {
      CountFrame(charges, charges[key := c], keys[..n]);
    } else {
      CountOneMore(charges, keys[..n], key, c);
    }
  }

  lemma {:induction false} NothingRefunded(grants: seq<Grant>, key: string)
    requires forall i :: 0 <= i < |grants| ==> grants[i].charge != key
    ensures Refunded(grants, key) == 0
  {
    if grants != [] {
      NothingRefunded(grants[..|grants| - 1], key);
    }
  }

  lemma BookKeepsRefs(b: Box, key: string, c: Charge)
    requires AllOrderly(b) && RefsDistinct(b) && key !in b.charges && (c.ref.Some? ==> c.ref.value == b.refs)
    ensures RefsDistinct(Book(b, key, c))
  {
    var b' := Book(b, key, c);
    forall k, m | k in b'.charges && m in b'.charges && k != m && b'.charges[k].ref.Some?
      ensures b'.charges[k].ref != b'.charges[m].ref
    {
      if k != key {
        assert Orderly(b, k);
      }
      if m != key {
        assert Orderly(b, m);
      }
    }
  }

  lemma BookKeepsOrder(b: Box, key: string, c: Charge)
    requires AllOrderly(b) && GrantsKnown(b) && key !in b.charges && c.refunded == 0
    requires c.ref.None? <==> c.status.Declined? || c.status.MerchantFailed?
    requires c.ref.Some? ==> c.ref.value == b.refs
    ensures AllOrderly(Book(b, key, c))
  {
    var b' := Book(b, key, c);
    NothingRefunded(b.grants, key);
    forall k | k in b'.charges ensures Orderly(b', k) {
      if k != key {
        assert Orderly(b, k);
      }
    }
  }

  lemma BookKeepsCount(b: Box, key: string, c: Charge)
    requires Listed(b) && key !in b.charges && b.created == CountSucceeded(b.charges, b.keys)
    ensures Listed(Book(b, key, c)) && Book(b, key, c).created == CountSucceeded(Book(b, key, c).charges, Book(b, key, c).keys)
  {
    var b' := Book(b, key, c);
    CountFrame(b.charges, b'.charges, b.keys);
    assert b'.keys[..|b'.keys| - 1] == b.keys;
  }

  lemma BookKeeps(b: Box, key: string, c: Charge)
    requires Sound(b) && key !in b.charges && c.refunded == 0
    requires c.ref.None? <==> c.status.Declined? || c.status.MerchantFailed?
    requires c.ref.Some? ==> c.ref.value == b.refs
    ensures Sound(Book(b, key, c))
  {
    hide AllOrderly, RefsDistinct, Listed, CountSucceeded;
    BookKeepsRefs(b, key, c);
    BookKeepsOrder(b, key, c);
    BookKeepsCount(b, key, c);
  }

  /** One charge changes, keeping its reference and its account; whatever else changes is beside it. */
  lemma PutKeeps(b: Box, b': Box, key: string)
    requires Listed(b) && AllOrderly(b) && RefsDistinct(b) && key in b.charges && key in b'.charges
    requires b'.charges == b.charges[key := b'.charges[key]] && b'.keys == b.keys && b'.refs >= b.refs
    requires b'.charges[key].ref == b.charges[key].ref
    requires forall k :: k in b.charges && k != key ==> Refunded(b'.grants, k) == Refunded(b.grants, k)
    requires Orderly(b', key)
    ensures Listed(b') && AllOrderly(b') && RefsDistinct(b')
  {
    forall k | k in b'.charges ensures Orderly(b', k) {
      assert Orderly(b, k);
    }
  }

  lemma ChargeKeeps(b: Box, seen: Scenario, role: Role, key: string, usable: bool, amount: int, currency: string,
                    quote: Option<nat>)
    requires Sound(b)
    ensures Sound(ChargeWith(b, seen, role, key, usable, amount, currency, quote).0)
  {
    hide Sound, Book;
    var b1 := b.(attempts := b.attempts + 1);
    SideKeeps(b, b1);
    if key !in b1.charges {
      BookKeeps(b1, key, Booked(b1, amount, currency));
    }
  }

  /** What a charge is about is not touched by what goes on around it. */
  lemma SideKeeps(b: Box, b': Box)
    requires Sound(b)
    requires b' == b.(scenario := b'.scenario, quotes := b'.quotes, refs := b'.refs, attempts := b'.attempts,
                      waiting := b'.waiting)
    requires b'.refs >= b.refs
    ensures Sound(b')
  {
    forall k | k in b'.charges ensures Orderly(b', k) {
      assert Orderly(b, k);
    }
  }

  lemma ConfirmKeeps(b: Box, admin: bool, key: string)
    requires Sound(b)
    ensures Sound(ConfirmSca(b, admin, key).0)
  {
    if admin && key in b.charges && b.charges[key].status.ScaRequired? {
      var b' := ConfirmSca(b, admin, key).0;
      assert Orderly(b, key);
      CountOneMore(b.charges, b.keys, key, b.charges[key].(status := ChargeSucceeded));
      hide RefsDistinct, AllOrderly;
      PutKeeps(b, b', key);
    }
  }

  lemma PayBackKeeps(b: Box, charge: string, key: string, amount: int)
    requires Sound(b) && Payable(b, charge, amount)
    ensures Sound(PayBack(b, charge, key, amount))
  {
    assert Orderly(b, charge);
    hide RefsDistinct, AllOrderly;
    var b' := PayBack(b, charge, key, amount);
    CountFrame(b.charges, b'.charges, b.keys);
    assert b'.grants[..|b.grants|] == b.grants;
    PutKeeps(b, b', charge);
  }

  lemma RefundKeeps(b: Box, key: string, ref: Option<nat>, amount: int)
    requires Sound(b)
    ensures Sound(EndRefund(b, key, ref, amount).0)
  {
    hide Sound, Lookup, PayBack, Payable;
    var b1 := b.(waiting := b.waiting - multiset{key});
    SideKeeps(b, b1);
    var target := Lookup(b1, b1.keys, ref);
    if target.Some? && Payable(b1, target.value, amount) {
      PayBackKeeps(b1, target.value, key, amount);
    }
  }

  lemma CancelKeeps(b: Box, seen: Scenario, role: Role, ref: Option<nat>)
    requires Sound(b)
    ensures Sound(CancelCharge(b, seen, role, ref).0)
  {
    var b' := CancelCharge(b, seen, role, ref).0;
    var target := Lookup(b, b.keys, ref);
    if b' != b {
      assert Orderly(b, target.value);
      hide RefsDistinct, AllOrderly, Lookup;
      CountFrame(b.charges, b'.charges, b.keys);
      PutKeeps(b, b', target.value);
    }
  }

  lemma StepKeeps(b: Box, e: Event)
    requires Sound(b)
    ensures Sound(Step(b, e))
  {
    hide Sound;
    match e {
      case Play(s) => SideKeeps(b, b.(scenario := s));
      case AskQuote(seen, role, items) => SideKeeps(b, QuoteFor(b, seen, role, items).0);
      case AskCharge(seen, role, key, usable, amount, currency, quote) =>
        ChargeKeeps(b, seen, role, key, usable, amount, currency, quote);
      case Confirm(admin, key) => ConfirmKeeps(b, admin, key);
      case RefundBegins(seen, role, key) => SideKeeps(b, BeginRefund(b, seen, role, key).0);
      case RefundEnds(key, ref, amount) => RefundKeeps(b, key, ref, amount);
      case AskCancel(seen, role, ref) => CancelKeeps(b, seen, role, ref);
    }
  }

  /**
   What a key once stood for it stands for ever: reference, amount and currency; only a
   confirmation changes the status.
   */
  predicate Faithful(a: Box, b: Box) {
    forall k :: k in a.charges ==>
      && k in b.charges && b.charges[k].ref == a.charges[k].ref
      && b.charges[k].amount == a.charges[k].amount && b.charges[k].currency == a.charges[k].currency
      && b.charges[k].refunded >= a.charges[k].refunded
      && (b.charges[k].status == a.charges[k].status
          || (a.charges[k].status.ScaRequired? && b.charges[k].status.ChargeSucceeded?))
  }

  lemma StepFaithful(b: Box, e: Event)
    ensures Faithful(b, Step(b, e))
  {
    match e {
      case RefundEnds(key, ref, amount) => RefundFaithful(b, key, ref, amount);
      case AskCancel(seen, role, ref) => CancelFaithful(b, seen, role, ref);
      case _ => hide Lookup, Payable;
    }
  }

  lemma RefundFaithful(b: Box, key: string, ref: Option<nat>, amount: int)
    ensures Faithful(b, EndRefund(b, key, ref, amount).0)
  {
    hide Lookup;
  }

  lemma CancelFaithful(b: Box, seen: Scenario, role: Role, ref: Option<nat>)
    ensures Faithful(b, CancelCharge(b, seen, role, ref).0)
  {
    hide Lookup;
  }

  /** In every reachable state the money is accounted for, whatever the requests and their interleaving. */
  lemma {:induction false} AlwaysSound(b: Box, events: seq<Event>)
    requires Sound(b)
    ensures Sound(After(b, events)) && Faithful(b, After(b, events))
  {
    hide Sound, Step;
    if events != [] {
      var b1 := After(b, events[..|events| - 1]);
      AlwaysSound(b, events[..|events| - 1]);
      StepKeeps(b1, events[|events| - 1]);
      StepFaithful(b1, events[|events| - 1]);
    }
  }

  /** Conservation: what is refunded on a charge is what was granted on it, and never more than was charged. */
  lemma MoneyIsConserved(events: seq<Event>, key: string)
    requires key in After(OPENED, events).charges
    ensures var b := After(OPENED, events);
            var c := b.charges[key];
            && c.refunded == Refunded(b.grants, key) && 0 <= c.refunded
            && (c.refunded > 0 ==> c.refunded <= c.amount && c.status.ChargeSucceeded?)
            && (c.ref.None? <==> c.status.Declined? || c.status.MerchantFailed?)
            && b.created == CountSucceeded(b.charges, b.keys)
  {
    AlwaysSound(OPENED, events);
    assert Orderly(After(OPENED, events), key);
  }

  /** The same key again gives the same charge back and books nothing. */
  lemma ChargeIsIdempotent(b: Box, seen: Scenario, role: Role, key: string, usable: bool, amount: int, currency: string,
                           quote: Option<nat>)
    requires key != "" && key in b.charges && Guard(seen, role, DoCharge).None?
    ensures ChargeWith(b, seen, role, key, usable, amount, currency, quote)
            == (b.(attempts := b.attempts + 1), ChargeRecord(b.charges[key], true))
  {
  }

  // ---------------------------------------------------------------- who may what, and at what price

  /** The roles, by what they open: only one charges, two give back, and all but nobody read. */
  lemma RolesOpen(seen: Scenario, role: Role)
    ensures Guard(seen, role, DoCharge).None? <==> !seen.Unreachable? && !seen.Unauthorized? && role == ChargeRole
    ensures forall a :: a in {DoRefund, DoCancel} ==>
              (Guard(seen, role, a).None? <==> !seen.Unreachable? && !seen.Unauthorized? && role in {ChargeRole, RefundRole})
    ensures forall a :: a in {DoQuote, DoLookup} ==>
              (Guard(seen, role, a).None? <==> !seen.Unreachable? && !seen.Unauthorized? && role != NoRole)
    ensures forall a :: Guard(seen, role, a) != None ==>
              Guard(seen, role, a) == Some(if seen.Unreachable? then NoAnswer else Unauthorised)
  {
  }

  lemma {:induction false} TotalsAdd(a: seq<Item>, b: seq<Item>)
    ensures ItemsTotal(a + b) == ItemsTotal(a) + ItemsTotal(b)
  {
    if b == [] {
      assert a + b == a;
    } else {
      TotalsAdd(a, b[..|b| - 1]);
      assert (a + b)[..|a + b| - 1] == a + b[..|b| - 1];
    }
  }

  /** One article: its price times its number, the shipping, and what the shop has put on top while prices drift. */
  lemma QuoteOfOne(b: Box, seen: Scenario, role: Role, quantity: int, unit: int)
    requires !seen.Unreachable? && !seen.Unauthorized? && role != NoRole
    ensures var total := quantity * unit + 499 + (if b.scenario == PriceDrift then 250 else 0);
            QuoteFor(b, seen, role, [Item(quantity, unit)])
            == (b.(quotes := b.quotes[b.refs := total], refs := b.refs + 1), Quoted(b.refs, total))
  {
    assert [Item(quantity, unit)][..0] == [];
    assert ItemsTotal([]) == 0;
  }

  /** Any basket: what two parts cost together, with the shipping once. */
  lemma QuotesAdd(b: Box, seen: Scenario, role: Role, some: seq<Item>, more: seq<Item>)
    requires some != [] && more != [] && Guard(seen, role, DoQuote).None?
    ensures var one, other := QuoteFor(b, seen, role, some).1, QuoteFor(b, seen, role, more).1;
            var both := QuoteFor(b, seen, role, some + more).1;
            && one.Quoted? && other.Quoted? && both.Quoted?
            && both.total == one.total + other.total - 499 - (if b.scenario == PriceDrift then 250 else 0)
  {
    TotalsAdd(some, more);
  }

  // ---------------------------------------------------------------- which scenario makes which charge

  /** What becomes of the status of a charge that is booked while a scenario is played. */
  predicate StatusUnder(played: Scenario, status: Status) {
    && (status.Declined? <==> played == PlayDeclined)
    && (status.MerchantFailed? <==> played == PlayMerchantFailed)
    && (status.ScaRequired? <==> played == PlaySca)
  }

  /** A charge under a new key, for a usable instrument and at the quoted price, if there is a quote. */
  predicate Chargeable(b: Box, seen: Scenario, role: Role, key: string, usable: bool, amount: int, quote: Option<nat>) {
    && Guard(seen, role, DoCharge).None? && key != "" && key !in b.charges && usable
    && (quote.Some? && quote.value in b.quotes ==> b.quotes[quote.value] == amount)
  }

  /**
   What a charge books, exactly. A new one has the status of the scenario that is played, for
   the amount that was asked, empty references just where no money moves, and new ones else; it
   counts as created exactly when it succeeded. Every other request leaves the charges alone.
   */
  lemma ChargeBooks(b: Box, seen: Scenario, role: Role, key: string, usable: bool, amount: int, currency: string,
                    quote: Option<nat>)
    ensures var b', answer := ChargeWith(b, seen, role, key, usable, amount, currency, quote).0,
                              ChargeWith(b, seen, role, key, usable, amount, currency, quote).1;
            if Chargeable(b, seen, role, key, usable, amount, quote) then
              && key in b'.charges && b'.charges == b.charges[key := b'.charges[key]] && b'.keys == b.keys + [key]
              && var c := b'.charges[key];
                 && StatusUnder(b.scenario, c.status) && c.amount == amount && c.currency == currency && c.refunded == 0
                 && (c.ref.None? <==> b.scenario in {PlayDeclined, PlayMerchantFailed})
                 && (c.order.None? <==> b.scenario in {PlayDeclined, PlayMerchantFailed})
                 && (c.ref.Some? ==> b.refs <= c.ref.value < b'.refs && b.refs <= c.order.value < b'.refs && c.ref != c.order)
                 && b'.created == b.created + (if b.scenario in {PlayDeclined, PlayMerchantFailed, PlaySca} then 0 else 1)
                 && answer == (if b.scenario == AmbiguousAfterCharge then NoAnswer else ChargeRecord(c, false))
            else b'.charges == b.charges && b'.keys == b.keys && b'.created == b.created
  {
  }

  /** Event n brought this key's charge into the books. */
  predicate BookedBy(events: seq<Event>, n: nat, key: string) {
    && n < |events| && events[n].AskCharge? && events[n].key == key
    && key !in After(OPENED, events[..n]).charges && key in Step(After(OPENED, events[..n]), events[n]).charges
  }

  predicate ConfirmedAfter(events: seq<Event>, n: nat, key: string) {
    exists m :: n < m < |events| && events[m] == Confirm(true, key)
  }

  /** The status a charge has now, by the scenario it was booked in and what has been confirmed since. */
  predicate StatusSince(events: seq<Event>, n: nat, key: string, status: Status)
    requires n < |events|
  {
    var played := After(OPENED, events[..n]).scenario;
    && (status.Declined? <==> played == PlayDeclined)
    && (status.MerchantFailed? <==> played == PlayMerchantFailed)
    && (status.ScaRequired? <==> played == PlaySca && !ConfirmedAfter(events, n, key))
  }

  /**
   Over every history: a charge is declined, failed at the merchant, or still to be confirmed
   exactly by the scenario it was booked in; so a succeeded one was booked in none of these,
   or it was confirmed.
   */
  lemma {:induction false} StatusHasACause(events: seq<Event>, key: string)
    requires key in After(OPENED, events).charges
    ensures exists n: nat :: BookedBy(events, n, key) && StatusSince(events, n, key, After(OPENED, events).charges[key].status)
  {
    hide Step;
    if events == [] {
      assert false;
    } else {
      var k := |events| - 1;
      var b, e := After(OPENED, events[..k]), events[k];
      StatusStep(b, e, key);
      if key in b.charges {
        StatusHasACause(events[..k], key);
        var n: nat :| BookedBy(events[..k], n, key) && StatusSince(events[..k], n, key, b.charges[key].status);
        assert events[..k][..n] == events[..n];
        assert BookedBy(events, n, key);
        ConfirmedMore(events, n, key);
        assert StatusSince(events, n, key, After(OPENED, events).charges[key].status);
      } else {
        assert BookedBy(events, k, key);
        assert !ConfirmedAfter(events, k, key);
        assert StatusSince(events, k, key, After(OPENED, events).charges[key].status);
      }
    }
  }

  lemma ConfirmedMore(events: seq<Event>, n: nat, key: string)
    requires n < |events| - 1
    ensures ConfirmedAfter(events, n, key)
            <==> ConfirmedAfter(events[..|events| - 1], n, key) || events[|events| - 1] == Confirm(true, key)
  {
    var before := events[..|events| - 1];
    if ConfirmedAfter(before, n, key) {
      var m :| n < m < |before| && before[m] == Confirm(true, key);
      assert events[m] == Confirm(true, key);
    }
    if ConfirmedAfter(events, n, key) {
      var m :| n < m < |events| && events[m] == Confirm(true, key);
      assert m < |before| ==> before[m] == events[m];
    }
  }

  /** One event: a charge is new, confirmed, or keeps its status. */
  lemma StatusStep(b: Box, e: Event, key: string)
    ensures key in b.charges ==>
              && key in Step(b, e).charges
              && Step(b, e).charges[key].status
                 == if b.charges[key].status.ScaRequired? && e == Confirm(true, key) then ChargeSucceeded
                    else b.charges[key].status
    ensures key !in b.charges && key in Step(b, e).charges ==>
              e.AskCharge? && e.key == key && StatusUnder(b.scenario, Step(b, e).charges[key].status)
  {
    match e {
      case RefundEnds(k, ref, amount) =>
        RefundFaithful(b, k, ref, amount);
        hide EndRefund;
      case AskCancel(seen, role, ref) => CancelStatus(b, seen, role, ref, key);
      case AskCharge(seen, role, k, usable, amount, currency, quote) =>
        ChargeStatus(b, seen, role, k, usable, amount, currency, quote, key);
        hide ChargeWith;
      case _ => hide EndRefund, CancelCharge, ChargeWith;
    }
  }

  lemma ChargeStatus(b: Box, seen: Scenario, role: Role, k: string, usable: bool, amount: int, currency: string,
                     quote: Option<nat>, key: string)
    ensures var b' := ChargeWith(b, seen, role, k, usable, amount, currency, quote).0;
            && (key in b.charges ==> key in b'.charges && b'.charges[key] == b.charges[key])
            && (key !in b.charges && key in b'.charges ==> k == key && StatusUnder(b.scenario, b'.charges[key].status))
  {
  }

  lemma CancelStatus(b: Box, seen: Scenario, role: Role, ref: Option<nat>, key: string)
    ensures var b' := CancelCharge(b, seen, role, ref).0;
            && (key in b.charges <==> key in b'.charges)
            && (key in b.charges ==> b'.charges[key].status == b.charges[key].status)
  {
    hide Lookup;
  }

  // ---------------------------------------------------------------- refunds and their keys

  /** At most one refund per key is ever between its two halves. */
  predicate Serialised(b: Box, events: seq<Event>, key: string) {
    forall n :: 0 <= n <= |events| ==> After(b, events[..n]).waiting[key] <= 1
  }

  /** As long as the requests under a key do not overlap, the key is granted once, and the record is that grant's. */
  lemma {:induction false} SerialisedOncePerKey(events: seq<Event>, key: string)
    requires Serialised(OPENED, events, key)
    ensures var b := After(OPENED, events);
            && Granted(b.grants, key) == (if key in b.refunds then 1 else 0)
            && (key in b.refunds ==> b.waiting[key] == 0)
  {
    if events != [] {
      var n := |events| - 1;
      var before := events[..n];
      forall m | 0 <= m <= |before| ensures After(OPENED, before[..m]).waiting[key] <= 1 {
        assert before[..m] == events[..m];
      }
      SerialisedOncePerKey(before, key);
      assert events[..|events|] == events && events[..n] == before;
      assert After(OPENED, events[..|events|]).waiting[key] <= 1 && After(OPENED, events[..n]).waiting[key] <= 1;
      GrantedStep(After(OPENED, before), events[n], key);
    }
  }

  lemma GrantedStep(b: Box, e: Event, key: string)
    requires Granted(b.grants, key) == (if key in b.refunds then 1 else 0)
    requires key in b.refunds ==> b.waiting[key] == 0
    requires b.waiting[key] <= 1
    ensures var b' := Step(b, e);
            && Granted(b'.grants, key) == (if key in b'.refunds then 1 else 0)
            && (key in b'.refunds ==> b'.waiting[key] == 0)
  {
    if e.RefundEnds? {
      RefundEndShape(b, e.key, e.ref, e.amount);
    } else {
      OnlyRefundsGrant(b, e);
    }
  }

  lemma OnlyRefundsGrant(b: Box, e: Event)
    requires !e.RefundEnds?
    ensures Step(b, e).grants == b.grants && Step(b, e).refunds == b.refunds
    ensures Step(b, e).waiting == b.waiting
            || (e.RefundBegins? && e.key !in b.refunds && Step(b, e).waiting == b.waiting + multiset{e.key})
  {
    hide Lookup, ItemsTotal;
  }

  /** A refund's second half leaves the waiting room, and grants or does not. */
  lemma RefundEndShape(b: Box, key: string, ref: Option<nat>, amount: int)
    ensures var b' := EndRefund(b, key, ref, amount).0;
            && b'.waiting == b.waiting - multiset{key}
            && ((b'.grants == b.grants && b'.refunds == b.refunds)
                || (b.waiting[key] > 0 && b'.refunds.Keys == b.refunds.Keys + {key}
                    && forall k :: Granted(b'.grants, k) == Granted(b.grants, k) + if k == key then 1 else 0))
  {
    hide Lookup, Payable;
    var b' := EndRefund(b, key, ref, amount).0;
    if b'.grants != b.grants {
      assert b'.grants[..|b.grants|] == b.grants;
    }
  }

  /**
   A refund behind its wait, exactly: paid when the charge has succeeded and the sum is
   positive and not more than what is left of it, down to the last cent, and then in full.
   */
  lemma RefundExactly(b: Box, key: string, charge: string, amount: int)
    requires Sound(b) && charge in b.charges && b.charges[charge].ref.Some? && b.waiting[key] > 0
    ensures var c := b.charges[charge];
            var b', answer := EndRefund(b, key, c.ref, amount).0, EndRefund(b, key, c.ref, amount).1;
            if c.status == ChargeSucceeded && 0 < amount && c.refunded + amount <= c.amount then
              && answer.RefundRecord? && !answer.refundReplayed && b.refs <= answer.refund.ref < b'.refs
              && answer.refund.amount == amount && answer.refund.currency == c.currency
              && b'.charges == b.charges[charge := c.(refunded := c.refunded + amount)]
              && key in b'.refunds && b'.refunds[key] == answer.refund
              && b'.grants == b.grants + [Grant(charge, key, amount)]
            else
              && b'.charges == b.charges && b'.refunds == b.refunds && b'.grants == b.grants
              && answer == (if c.status == ChargeSucceeded then AmountOutOfRange else UnknownCharge)
  {
    TheCharge(b, b.(waiting := b.waiting - multiset{key}), charge);
    hide Sound, Lookup;
  }

  /** A refund under a key that has one already: the same record, marked as a replay, and nothing is moved. */
  lemma RefundReplays(b: Box, seen: Scenario, role: Role, key: string)
    requires key != "" && key in b.refunds && !seen.Unreachable? && !seen.Unauthorized? && role in {ChargeRole, RefundRole}
    ensures BeginRefund(b, seen, role, key) == (b, RefundRecord(b.refunds[key], true))
  {
  }

  /** A confirmation, exactly: only an administrator's, only of a charge that waits for one, and it is no replay. */
  lemma ConfirmExactly(b: Box, admin: bool, key: string)
    ensures var waits := key in b.charges && b.charges[key].status == ScaRequired;
            ConfirmSca(b, admin, key)
            == if !admin then (b, Unauthorised) else if !waits then (b, NoPendingSca)
               else var c := b.charges[key].(status := ChargeSucceeded);
                    (b.(charges := b.charges[key := c], created := b.created + 1), ChargeRecord(c, false))
  {
  }

  /** A cancellation, exactly: the order goes, the money and everything else stays. */
  lemma CancelExactly(b: Box, seen: Scenario, role: Role, charge: string)
    requires Sound(b) && charge in b.charges && b.charges[charge].ref.Some?
    requires !seen.Unreachable? && !seen.Unauthorized? && role in {ChargeRole, RefundRole}
    ensures var c := b.charges[charge].(order := None);
            CancelCharge(b, seen, role, b.charges[charge].ref) == (b.(charges := b.charges[charge := c]), Cancelled(c))
  {
    TheCharge(b, b, charge);
    hide Sound, Lookup;
  }

  lemma EndPays(b: Box, key: string, ref: Option<nat>, charge: string, amount: int)
    requires var b1 := b.(waiting := b.waiting - multiset{key});
             b.waiting[key] > 0 && Lookup(b1, b1.keys, ref) == Some(charge) && Payable(b1, charge, amount)
    ensures EndRefund(b, key, ref, amount).0 == PayBack(b.(waiting := b.waiting - multiset{key}), charge, key, amount)
  {
    hide Lookup;
  }

  /** Two requests under one key that have both passed the look-up. */
  function Both(b: Box, key: string): Box {
    b.(waiting := b.waiting + multiset{key} + multiset{key})
  }

  lemma BothBegin(b: Box, seen: Scenario, key: string)
    requires key != "" && key !in b.refunds && Guard(seen, RefundRole, DoRefund).None?
    ensures BeginRefund(BeginRefund(b, seen, RefundRole, key).0, seen, RefundRole, key).0 == Both(b, key)
  {
  }

  lemma BothGranted(b: Box, key: string, charge: string, amount: int)
    requires Sound(b) && charge in b.charges && b.charges[charge].ref.Some? && Payable(b, charge, amount)
    ensures var ref := b.charges[charge].ref;
            var b4 := EndRefund(EndRefund(Both(b, key), key, ref, amount).0, key, ref, amount).0;
            b4.grants == b.grants + [Grant(charge, key, amount)]
                         + (if Payable(b, charge, 2 * amount) then [Grant(charge, key, amount)] else [])
  {
    hide Sound, Lookup, EndRefund;
    var ref := b.charges[charge].ref;
    var one := Both(b, key).(waiting := Both(b, key).waiting - multiset{key});
    TheCharge(b, one, charge);
    EndPays(Both(b, key), key, ref, charge, amount);
    var b3 := PayBack(one, charge, key, amount);
    TheCharge(b, b3.(waiting := b3.waiting - multiset{key}), charge);
    if Payable(b, charge, 2 * amount) {
      EndPays(b3, key, ref, charge, amount);
    } else {
      EndRefuses(b3, key, ref, charge, amount);
    }
  }

  lemma BothRefused(b: Box, key: string, charge: string, amount: int)
    requires Sound(b) && charge in b.charges && b.charges[charge].ref.Some? && !Payable(b, charge, amount)
    ensures var ref := b.charges[charge].ref;
            var b4 := EndRefund(EndRefund(Both(b, key), key, ref, amount).0, key, ref, amount).0;
            b4.grants == b.grants
  {
    hide Sound, Lookup, EndRefund;
    var ref := b.charges[charge].ref;
    var one := Both(b, key).(waiting := Both(b, key).waiting - multiset{key});
    TheCharge(b, one, charge);
    EndRefuses(Both(b, key), key, ref, charge, amount);
    TheCharge(b, one.(waiting := one.waiting - multiset{key}), charge);
    EndRefuses(one, key, ref, charge, amount);
  }

  /**
   Two requests under one key that overlap, exactly: the first is granted if and only if the
   charge has room for it, and the second is granted as well if and only if there is room for
   both. The key is looked up before the wait, and not again.
   */
  lemma OverlappingRefundsExactly(b: Box, seen: Scenario, key: string, charge: string, amount: int)
    requires Sound(b) && key != "" && key !in b.refunds && Guard(seen, RefundRole, DoRefund).None?
    requires charge in b.charges && b.charges[charge].ref.Some?
    ensures var b2 := BeginRefund(BeginRefund(b, seen, RefundRole, key).0, seen, RefundRole, key).0;
            var ref := b.charges[charge].ref;
            var b4 := EndRefund(EndRefund(b2, key, ref, amount).0, key, ref, amount).0;
            b4.grants == b.grants + (if Payable(b, charge, amount) then [Grant(charge, key, amount)] else [])
                         + (if Payable(b, charge, 2 * amount) then [Grant(charge, key, amount)] else [])
  {
    hide Sound, Lookup, EndRefund, BeginRefund, Both;
    BothBegin(b, seen, key);
    if Payable(b, charge, amount) {
      BothGranted(b, key, charge, amount);
    } else {
      BothRefused(b, key, charge, amount);
    }
  }

  lemma EndRefuses(b: Box, key: string, ref: Option<nat>, charge: string, amount: int)
    requires var b1 := b.(waiting := b.waiting - multiset{key});
             b.waiting[key] > 0 && Lookup(b1, b1.keys, ref) == Some(charge) && !Payable(b1, charge, amount)
    ensures EndRefund(b, key, ref, amount).0 == b.(waiting := b.waiting - multiset{key})
  {
    hide Lookup;
  }

  /** A reference that is not empty names one charge. */
  lemma TheCharge(b: Box, b': Box, charge: string)
    requires Sound(b) && charge in b.charges && b.charges[charge].ref.Some?
    requires b'.keys == b.keys && b'.charges.Keys == b.charges.Keys
    requires forall k :: k in b.charges ==> b'.charges[k].ref == b.charges[k].ref
    ensures Lookup(b', b'.keys, b.charges[charge].ref) == Some(charge)
  {
    var found := Lookup(b', b'.keys, b.charges[charge].ref);
    assert charge in b'.keys;
  }

  const TWO_REFUNDS: seq<Event> :=
    [AskCharge(Normal, ChargeRole, "c", true, 10, "EUR", None),
     RefundBegins(Normal, RefundRole, "r"), RefundBegins(Normal, RefundRole, "r"),
     RefundEnds("r", Some(0), 5), RefundEnds("r", Some(0), 5)]

  const TEN: Charge := Charge(ChargeSucceeded, Some(0), 10, "EUR", Some(1), 0)

  const BOTH_WAITING: Box := Box(Normal, map["c" := TEN], ["c"], map[], map[], 1, 1, 2, multiset{"r", "r"}, [])

  lemma BothWait()
    ensures Step(Step(Step(OPENED, TWO_REFUNDS[0]), TWO_REFUNDS[1]), TWO_REFUNDS[2]) == BOTH_WAITING
  {
    var b1 := Step(OPENED, TWO_REFUNDS[0]);
    assert b1 == BOTH_WAITING.(waiting := multiset{});
    assert BeginRefund(b1, Normal, RefundRole, "r").0 == b1.(waiting := multiset{"r"});
  }

  lemma BothPaid()
    ensures var b := Step(Step(BOTH_WAITING, TWO_REFUNDS[3]), TWO_REFUNDS[4]);
            && b.grants == [Grant("c", "r", 5), Grant("c", "r", 5)]
            && "c" in b.charges && b.charges["c"].refunded == 10
  {
    hide EndRefund, PayBack;
    var b3 := BOTH_WAITING;
    EndPays(b3, "r", Some(0), "c", 5);
    var b2 := b3.(waiting := b3.waiting - multiset{"r"});
    var b4 := PayBack(b2, "c", "r", 5);
    PaysFive(b2);
    assert Step(b3, TWO_REFUNDS[3]) == b4;
    EndPays(b4, "r", Some(0), "c", 5);
    PaysFive(b4.(waiting := b4.waiting - multiset{"r"}));
  }

  lemma PaysFive(b: Box)
    requires "c" in b.charges
    ensures var b' := PayBack(b, "c", "r", 5);
            && b'.charges == b.charges["c" := b.charges["c"].(refunded := b.charges["c"].refunded + 5)]
            && b'.grants == b.grants + [Grant("c", "r", 5)] && b'.waiting == b.waiting && b'.keys == b.keys
  {
  }

  /** A whole history of it: one charge of ten, and twice five paid back under one key. */
  lemma OverlapFromTheStart()
    ensures Granted(After(OPENED, TWO_REFUNDS).grants, "r") == 2
    ensures "c" in After(OPENED, TWO_REFUNDS).charges && After(OPENED, TWO_REFUNDS).charges["c"].refunded == 10
  {
    hide Step;
    FiveSteps(TWO_REFUNDS);
    BothWait();
    BothPaid();
    var g := Grant("c", "r", 5);
    assert [g, g][..1] == [g] && [g][..0] == [];
    assert Granted([g], "r") == 1;
  }

  lemma FiveSteps(k: seq<Event>)
    requires |k| == 5
    ensures After(OPENED, k) == Step(Step(Step(Step(Step(OPENED, k[0]), k[1]), k[2]), k[3]), k[4])
  {
    hide Step;
    assert k[..4][..3] == k[..3] && k[..3][..2] == k[..2] && k[..2][..1] == k[..1] && k[..1][..0] == [];
    assert After(OPENED, k[..1]) == Step(After(OPENED, []), k[0]);
    assert After(OPENED, k[..2]) == Step(After(OPENED, k[..1]), k[1]);
    assert After(OPENED, k[..3]) == Step(After(OPENED, k[..2]), k[2]);
  }

  /**
   The empty reference, exactly: cancelling it "succeeds" if and only if cancelling is allowed
   and some charge has failed, and then it is the first failed charge that is answered with.
   */
  lemma EmptyReferenceExactly(b: Box, seen: Scenario, role: Role)
    requires Sound(b)
    ensures CancelCharge(b, seen, role, None).1.Cancelled?
            <==> Guard(seen, role, DoCancel).None?
                 && exists k :: k in b.charges && (b.charges[k].status.Declined? || b.charges[k].status.MerchantFailed?)
    ensures CancelCharge(b, seen, role, None).1.Cancelled? ==>
              exists i: nat :: FirstAt(b, b.keys, None, i)
                          && CancelCharge(b, seen, role, None).1.charge == b.charges[b.keys[i]].(order := None)
                          && (b.charges[b.keys[i]].status.Declined? || b.charges[b.keys[i]].status.MerchantFailed?)
  {
    var found := Lookup(b, b.keys, None);
    if found.Some? {
      assert Orderly(b, found.value);
    } else {
      forall k | k in b.charges ensures !b.charges[k].status.Declined? && !b.charges[k].status.MerchantFailed? {
        assert k in b.keys && Orderly(b, k);
      }
    }
  }
}
