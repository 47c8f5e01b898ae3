/** The sandbox as the service keeps it: dictionaries and counters, changed in place by its handlers. */
module SandboxService {
  import opened Basics
  import opened PaymentSandbox

  class Sandbox {
    var scenario: Scenario
    var charges: map<string, Charge>
    var keys: seq<string>
    var quotes: map<nat, int>
    var refunds: map<string, Refund>
    var created: nat
    var attempts: nat
    var refs: nat
    var waiting: multiset<string>
    ghost var grants: seq<Grant>

    ghost function Contents(): Box
      reads this
    {
      Box(scenario, charges, keys, quotes, refunds, created, attempts, refs, waiting, grants)
    }

    constructor ()
      ensures Contents() == OPENED && Sound(Contents())
    {
      scenario := Normal;
      charges, keys, quotes, refunds := map[], [], map[], map[];
      created, attempts, refs := 0, 0, 0;
      waiting := multiset{};
      grants := [];
    }

    /** Asked before the body is awaited, in the scenario that is played then. */
    function Denied(seen: Scenario, role: Role, action: Action): (answer: Option<Answer>)
      ensures answer == Guard(seen, role, action)
    {
      if seen.Unreachable? then Some(NoAnswer)
      else if seen.Unauthorized? || !May(role, action) then Some(Unauthorised)
      else None
    }

    /** The first charge with this reference. */
    method Find(ref: Option<nat>) returns (found: Option<string>)
      requires Sound(Contents())
      ensures found == Lookup(Contents(), keys, ref)
    {
      var i := 0;
      while i < |keys|
        invariant 0 <= i <= |keys|
        invariant Lookup(Contents(), keys, ref) == Lookup(Contents(), keys[i..], ref)
      {
        if charges[keys[i]].ref == ref {
          return Some(keys[i]);
        }
        assert keys[i..][1..] == keys[i + 1..];
        i := i + 1;
      }
      found := None;
    }

    method HandleQuote(seen: Scenario, role: Role, items: seq<Item>) returns (answer: Answer)
      requires Sound(Contents())
      modifies this
      ensures (Contents(), answer) == QuoteFor(old(Contents()), seen, role, items) && Sound(Contents())
    {
      var denied := Denied(seen, role, DoQuote);
      if denied.Some? {
        return denied.value;
      }
      if items == [] {
        return NoItems;
      }
      var total := 0;
      var i := 0;
      while i < |items|
        invariant 0 <= i <= |items| && total == ItemsTotal(items[..i]) && Contents() == old(Contents())
      {
        assert items[..i + 1][..i] == items[..i];
        total := total + items[i].quantity * items[i].unit;
        i := i + 1;
      }
      assert items[..i] == items;
      if scenario.PriceDrift? {
        total := total + DRIFT;
      }
      total := total + SHIPPING;
      quotes := quotes[refs := total];
      answer := Quoted(refs, total);
      refs := refs + 1;
    }

    /** The record of a new charge, as the scenario has it. */
    method NewRecord(amount: int, currency: string) returns (record: Charge)
      ensures record == Booked(Contents(), amount, currency)
    {
      record := Charge(ChargeSucceeded, Some(refs), amount, currency, Some(refs + 1), 0);
      if scenario.PlayDeclined? {
        record := record.(status := Declined, ref := None, order := None);
      } else if scenario.PlayMerchantFailed? {
        record := record.(status := MerchantFailed, ref := None, order := None);
      } else if scenario.PlaySca? {
        record := record.(status := ScaRequired);
      }
    }

    method Store(key: string, record: Charge)
      modifies this`charges, this`keys, this`refs, this`created
      ensures Contents() == Book(old(Contents()), key, record)
    {
      refs := refs + 2;
      charges, keys := charges[key := record], keys + [key];
      if record.status.ChargeSucceeded? {
        created := created + 1;
      }
    }

    method HandleCharge(seen: Scenario, role: Role, key: string, usable: bool, amount: int, currency: string,
                        quote: Option<nat>)
      returns (answer: Answer)
      requires Sound(Contents())
      modifies this
      ensures (Contents(), answer) == ChargeWith(old(Contents()), seen, role, key, usable, amount, currency, quote)
      ensures Sound(Contents()) && Faithful(old(Contents()), Contents())
    {
      StepKeeps(Contents(), AskCharge(seen, role, key, usable, amount, currency, quote));
      StepFaithful(Contents(), AskCharge(seen, role, key, usable, amount, currency, quote));
      hide Sound, Faithful, Book, Booked;
      var denied := Denied(seen, role, DoCharge);
      if denied.Some? {
        return denied.value;
      }
      if key == "" {
        return NoKey;
      }
      attempts := attempts + 1;
      if key in charges {
        return ChargeRecord(charges[key], true);
      }
      if !usable {
        return InstrumentUnusable;
      }
      if quote.Some? && quote.value in quotes && quotes[quote.value] != amount {
        return QuoteMismatch;
      }
      var record := NewRecord(amount, currency);
      Store(key, record);
      answer := if scenario.AmbiguousAfterCharge? then NoAnswer else ChargeRecord(record, false);
    }

    method HandleSca(admin: bool, key: string) returns (answer: Answer)
      requires Sound(Contents())
      modifies this`charges, this`created
      ensures (Contents(), answer) == ConfirmSca(old(Contents()), admin, key) && Sound(Contents())
    {
      StepKeeps(Contents(), Confirm(admin, key));
      hide Sound;
      if !admin {
        return Unauthorised;
      }
      if key !in charges || !charges[key].status.ScaRequired? {
        return NoPendingSca;
      }
      charges := charges[key := charges[key].(status := ChargeSucceeded)];
      created := created + 1;
      answer := ChargeRecord(charges[key], false);
    }

    /** Up to the wait for the body. */
    method RefundStart(seen: Scenario, role: Role, key: string) returns (answer: Answer)
      requires Sound(Contents())
      modifies this`waiting
      ensures (Contents(), answer) == BeginRefund(old(Contents()), seen, role, key) && Sound(Contents())
    {
      StepKeeps(Contents(), RefundBegins(seen, role, key));
      hide Sound;
      var denied := Denied(seen, role, DoRefund);
      if denied.Some? {
        return denied.value;
      }
      if key == "" {
        return NoKey;
      }
      if key in refunds {
        return RefundRecord(refunds[key], true);
      }
      waiting := waiting + multiset{key};
      answer := KeyIsNew;
    }

    method Pay(charge: string, key: string, amount: int)
      requires charge in charges
      modifies this`charges, this`refs, this`refunds, this`grants
      ensures Contents() == PayBack(old(Contents()), charge, key, amount) && key in refunds
    {
      var record := charges[charge];
      charges := charges[charge := record.(refunded := record.refunded + amount)];
      refunds := refunds[key := Refund(refs, amount, record.currency)];
      refs := refs + 1;
      grants := grants + [Grant(charge, key, amount)];
    }

    /** Once the body is there. */
    method RefundFinish(key: string, ref: Option<nat>, amount: int) returns (answer: Answer)
      requires Sound(Contents()) && waiting[key] > 0
      modifies this
      ensures (Contents(), answer) == EndRefund(old(Contents()), key, ref, amount)
      ensures Sound(Contents()) && Faithful(old(Contents()), Contents())
    {
      hide Sound, Faithful, Lookup, PayBack, EndRefund, Payable;
      ghost var b := Contents();
      Kept(b, key, ref, amount);
      waiting := waiting - multiset{key};
      var target := Find(ref);
      EndCases(b, key, ref, amount, target);
      if target.None? || !charges[target.value].status.ChargeSucceeded? {
        return UnknownCharge;
      }
      var open := charges[target.value].amount - charges[target.value].refunded;
      if amount <= 0 || amount > open {
        return AmountOutOfRange;
      }
      Pay(target.value, key, amount);
      answer := RefundRecord(refunds[key], false);
    }

    lemma Kept(b: Box, key: string, ref: Option<nat>, amount: int)
      requires Sound(b)
      ensures Sound(EndRefund(b, key, ref, amount).0) && Faithful(b, EndRefund(b, key, ref, amount).0)
      ensures Sound(b.(waiting := b.waiting - multiset{key}))
    {
      hide Sound, Faithful, EndRefund;
      StepKeeps(b, RefundEnds(key, ref, amount));
      StepFaithful(b, RefundEnds(key, ref, amount));
      SideKeeps(b, b.(waiting := b.waiting - multiset{key}));
    }

    lemma EndCases(b: Box, key: string, ref: Option<nat>, amount: int, target: Option<string>)
      requires b.waiting[key] > 0
      requires var b1 := b.(waiting := b.waiting - multiset{key});
               target == Lookup(b1, b1.keys, ref)
      ensures var b1 := b.(waiting := b.waiting - multiset{key});
              && (target.None? || !b1.charges[target.value].status.ChargeSucceeded? ==>
                    EndRefund(b, key, ref, amount) == (b1, UnknownCharge))
              && (target.Some? && b1.charges[target.value].status.ChargeSucceeded? ==>
                    var open := b1.charges[target.value].amount - b1.charges[target.value].refunded;
                    if amount <= 0 || amount > open then EndRefund(b, key, ref, amount) == (b1, AmountOutOfRange)
                    else EndRefund(b, key, ref, amount)
                         == (PayBack(b1, target.value, key, amount),
                              RefundRecord(PayBack(b1, target.value, key, amount).refunds[key], false)))
    {
    }

    method HandleCancel(seen: Scenario, role: Role, ref: Option<nat>) returns (answer: Answer)
      requires Sound(Contents())
      modifies this`charges
      ensures (Contents(), answer) == CancelCharge(old(Contents()), seen, role, ref) && Sound(Contents())
    {
      hide Sound, Lookup;
      StepKeeps(Contents(), AskCancel(seen, role, ref));
      var denied := Denied(seen, role, DoCancel);
      if denied.Some? {
        return denied.value;
      }
      var target := Find(ref);
      if target.None? {
        return UnknownCharge;
      }
      charges := charges[target.value := charges[target.value].(order := None)];
      answer := Cancelled(charges[target.value]);
    }
  }
}
