/**
 What a booked verdict amounts to, said without the loops that book it: exactly when the
 milestone is ready after it.
 */
module ReadyExactly {
  import opened Basics
  import opened MilestoneMachine
  import opened LeadVerdict
  import opened AutopilotDriver

  predicate CitedKey(proofs: seq<(string, nat)>, key: string) {
    exists k :: 0 <= k < |proofs| && proofs[k].0 == key
  }

  /** The gate measures this key for a criterion of the list that must be measured and is still open. */
  predicate MeasuredKey(list: seq<Criterion>, key: string) {
    exists k :: 0 <= k < |list| && Measurable(list[k]) && list[k].key == key
  }

  lemma {:induction false} ProveListMeans(cs: seq<Criterion>, proofs: seq<(string, nat)>)
    ensures |ProveList(cs, proofs)| == |cs|
    ensures forall i :: 0 <= i < |cs| ==>
              var c := ProveList(cs, proofs)[i];
              c.key == cs[i].key && c.deterministic == cs[i].deterministic
              && (c.state.Proven? <==> cs[i].state.Proven? || CitedKey(proofs, cs[i].key))
  {
    if proofs != [] {
      var n := |proofs| - 1;
      ProveListMeans(cs, proofs[..n]);
      forall i | 0 <= i < |cs|
        ensures CitedKey(proofs, cs[i].key) <==> CitedKey(proofs[..n], cs[i].key) || proofs[n].0 == cs[i].key
      {
        if CitedKey(proofs[..n], cs[i].key) {
          var k :| 0 <= k < n && proofs[..n][k].0 == cs[i].key;
          assert proofs[k].0 == cs[i].key;
        }
        if CitedKey(proofs, cs[i].key) && proofs[n].0 != cs[i].key {
          var k :| 0 <= k < |proofs| && proofs[k].0 == cs[i].key;
          assert proofs[..n][k].0 == cs[i].key;
        }
      }
    }
  }

  lemma {:induction false} GaugedMeans(cs: seq<Criterion>, list: seq<Criterion>, gate: nat)
    ensures |Gauged(cs, list, gate)| == |cs|
    ensures forall i :: 0 <= i < |cs| ==>
              var c := Gauged(cs, list, gate)[i];
              c.key == cs[i].key && c.deterministic == cs[i].deterministic
              && (c.state.Proven? <==> cs[i].state.Proven? || MeasuredKey(list, cs[i].key))
  {
    if list != [] {
      var n := |list| - 1;
      GaugedMeans(cs, list[..n], gate);
      forall i | 0 <= i < |cs|
        ensures MeasuredKey(list, cs[i].key) <==>
                MeasuredKey(list[..n], cs[i].key) || (Measurable(list[n]) && list[n].key == cs[i].key)
      {
        if MeasuredKey(list[..n], cs[i].key) {
          var k :| 0 <= k < n && Measurable(list[..n][k]) && list[..n][k].key == cs[i].key;
          assert Measurable(list[k]);
        }
        if MeasuredKey(list, cs[i].key) && !(Measurable(list[n]) && list[n].key == cs[i].key) {
          var k :| 0 <= k < |list| && Measurable(list[k]) && list[k].key == cs[i].key;
          assert Measurable(list[..n][k]);
        }
      }
    }
  }

  lemma {:induction false} OpenAllMeans(fs: seq<Finding>, severities: seq<Severity>)
    ensures |OpenAll(fs, severities)| == |fs| + |severities|
    ensures forall i :: 0 <= i < |fs| ==> OpenAll(fs, severities)[i] == fs[i]
    ensures forall i :: |fs| <= i < |fs| + |severities| ==> OpenAll(fs, severities)[i] == Finding(severities[i - |fs|], true)
  {
    if severities != [] {
      OpenAllMeans(fs, severities[..|severities| - 1]);
    }
  }

  lemma {:induction false} CloseAllMeans(fs: seq<Finding>, ids: seq<nat>)
    ensures |CloseAll(fs, ids)| == |fs|
    ensures forall i :: 0 <= i < |fs| ==>
              CloseAll(fs, ids)[i] == (if i in ids then fs[i].(open := false) else fs[i])
  {
    if ids != [] {
      var n := |ids| - 1;
      CloseAllMeans(fs, ids[..n]);
      assert forall i: nat :: i in ids <==> i in ids[..n] || i == ids[n];
    }
  }

  predicate Grave(s: Severity) { s.BlockerFinding? || s.Major? }

  lemma BlockingAfter(fs: seq<Finding>, severities: seq<Severity>, close: seq<nat>)
    requires forall f :: f in close ==> f < |fs|
    ensures AnyBlocking(CloseAll(OpenAll(fs, severities), close))
            <==> (exists i: nat :: i < |fs| && Blocking(fs[i]) && i !in close)
                 || (exists k :: 0 <= k < |severities| && Grave(severities[k]))
  {
    var grown := OpenAll(fs, severities);
    var closed := CloseAll(grown, close);
    OpenAllMeans(fs, severities);
    CloseAllMeans(grown, close);
    if AnyBlocking(closed) {
      var i :| 0 <= i < |closed| && Blocking(closed[i]);
      if i < |fs| {
        assert Blocking(fs[i]) && i !in close;
      } else {
        assert Grave(severities[i - |fs|]);
      }
    }
    if i: nat :| i < |fs| && Blocking(fs[i]) && i !in close {
      assert closed[i] == fs[i];
    }
    if k :| 0 <= k < |severities| && Grave(severities[k]) {
      assert |fs| + k !in close;
      assert Blocking(closed[|fs| + k]);
    }
  }

  /** Proven once the verdict is booked: it was before, the lead cited it, or the green gate measures it. */
  predicate ProvenAfter(b: Book, v: Verdict, gate: Option<nat>, i: nat)
    requires i < |b.criteria|
  {
    var judged := ProveList(b.criteria, v.proven);
    || b.criteria[i].state.Proven?
    || CitedKey(v.proven, b.criteria[i].key)
    || (Green(b, gate) && MeasuredKey(judged, b.criteria[i].key))
  }

  /**
   Ready after a verdict, exactly: the report is green; there is a criterion, and each one was
   proven before, is cited by the lead, or is what the gate measures; every grave finding that
   was open is closed by the verdict, and it opens no new one.
   */
  lemma ReadyAfterVerdict(b: Book, v: Verdict, gate: Option<nat>)
    requires GateOf(b, gate) && forall f :: f in v.close ==> f < |b.findings|
    ensures ReadyCheck(AfterVerdict(b, v, gate), gate, true).None?
            <==> && Green(b, gate) && |b.criteria| > 0
                 && (forall i :: 0 <= i < |b.criteria| ==> ProvenAfter(b, v, gate, i))
                 && (forall i: nat :: i < |b.findings| && Blocking(b.findings[i]) ==> i in v.close)
                 && (forall k :: 0 <= k < |v.findings| ==> !Grave(v.findings[k]))
  {
    var after := AfterVerdict(b, v, gate);
    ReadyCheckExact(after, gate, true);
    var judged := ProveList(b.criteria, v.proven);
    ProveListMeans(b.criteria, v.proven);
    if gate.Some? {
      GaugedMeans(judged, judged, gate.value);
    }
    BlockingAfter(b.findings, v.findings, v.close);
    assert Green(after, gate) <==> Green(b, gate);
    if Green(b, gate) {
      assert forall i :: 0 <= i < |b.criteria| ==>
               after.criteria[i].key == b.criteria[i].key
               && (after.criteria[i].state.Proven? <==> ProvenAfter(b, v, gate, i));
    }
  }
}
