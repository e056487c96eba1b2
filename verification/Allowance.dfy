/** The monthly BYOK allowance: what is billed above it, and what admission may hold nothing for. */
module Allowance {
  import opened Pricing

  const MONTHLY_ALLOWANCE := 5000.0

  function NotBelowZero(x: real): real {
    if x < 0.0 then 0.0 else x
  }

  function RemainingAllowance(consumed: real): real {
    NotBelowZero(MONTHLY_ALLOWANCE - consumed)
  }

  function BillableAboveAllowance(catalogCost: real, consumed: real): real {
    NotBelowZero(catalogCost - RemainingAllowance(consumed))
  }

  // ---------------------------------------------------------------- telescoping

  function Total(costs: seq<real>): real {
    if costs == [] then 0.0 else costs[0] + Total(costs[1..])
  }

  /** Charging each request on its own part above what is left, one after another. */
  function BilledInTurn(consumed: real, costs: seq<real>): real
    decreases |costs|
  {
    if costs == [] then 0.0
    else ApplyFee(BillableAboveAllowance(costs[0], consumed), FEE_RATE) + BilledInTurn(consumed + costs[0], costs[1..])
  }

  ghost predicate NonNegative(costs: seq<real>) {
    forall c :: c in costs ==> c >= 0.0
  }

  /** A month's bill is one twentieth of what its total has above the allowance, whatever the requests were. */
  lemma {:induction false} BillTelescopes(consumed: real, costs: seq<real>)
    requires consumed >= 0.0 && NonNegative(costs)
    ensures BilledInTurn(consumed, costs) ==
      (NotBelowZero(consumed + Total(costs) - MONTHLY_ALLOWANCE) - NotBelowZero(consumed - MONTHLY_ALLOWANCE)) / 20.0
    decreases |costs|
  {
    if costs == [] {
    } else {
      assert forall c :: c in costs[1..] ==> c in costs;
      assert costs[0] in costs;
      BillTelescopes(consumed + costs[0], costs[1..]);
    }
  }

  lemma {:induction false} TotalConcat(a: seq<real>, b: seq<real>)
    ensures Total(a + b) == Total(a) + Total(b)
  {
    if a == [] {
      assert a + b == b;
    } else {
      TotalConcat(a[1..], b);
      assert (a + b)[1..] == a[1..] + b;
    }
  }

  lemma {:induction false} TotalSplice(front: seq<real>, x: real, back: seq<real>)
    ensures Total(front + ([x] + back)) == x + Total(front + back)
  {
    if front == [] {
      assert front + ([x] + back) == [x] + back && front + back == back;
      assert ([x] + back)[1..] == back;
    } else {
      TotalSplice(front[1..], x, back);
      assert (front + ([x] + back))[1..] == front[1..] + ([x] + back);
      assert (front + back)[1..] == front[1..] + back;
    }
  }

  lemma TakeOut(b: seq<real>, x: real) returns (front: seq<real>, back: seq<real>)
    requires x in multiset(b)
    ensures b == front + ([x] + back) && multiset(front + back) == multiset(b) - multiset{x}
  {
    var j :| 0 <= j < |b| && b[j] == x;
    front, back := b[..j], b[j + 1..];
    assert b == front + ([x] + back);
  }

  lemma {:induction false} TotalOfMultiset(a: seq<real>, b: seq<real>)
    requires multiset(a) == multiset(b)
    ensures Total(a) == Total(b)
  {
    if a == [] {
      assert |multiset(b)| == 0;
    } else {
      var x, rest := a[0], a[1..];
      assert a == [x] + rest;
      var front, back := TakeOut(b, x);
      TotalOfMultiset(rest, front + back);
      TotalSplice(front, x, back);
    }
  }

  /** The order requests settle in does not matter. */
  lemma OrderDoesNotMatter(consumed: real, a: seq<real>, b: seq<real>)
    requires consumed >= 0.0 && NonNegative(a) && multiset(a) == multiset(b)
    ensures BilledInTurn(consumed, a) == BilledInTurn(consumed, b)
  {
    TotalOfMultiset(a, b);
    forall c | c in b ensures c >= 0.0 {
      assert c in multiset(b);
      assert c in a;
    }
    BillTelescopes(consumed, a);
    BillTelescopes(consumed, b);
  }

  lemma {:induction false} TotalNonNegative(costs: seq<real>)
    requires NonNegative(costs)
    ensures Total(costs) >= 0.0
  {
    if costs == [] {
    } else {
      assert costs[0] in costs && forall c :: c in costs[1..] ==> c in costs;
      TotalNonNegative(costs[1..]);
    }
  }

  /** Nor does how one request is split into several. */
  lemma SplittingDoesNotMatter(consumed: real, before: seq<real>, parts: seq<real>, after: seq<real>)
    requires consumed >= 0.0 && NonNegative(before) && NonNegative(parts) && NonNegative(after)
    ensures BilledInTurn(consumed, before + parts + after) == BilledInTurn(consumed, before + [Total(parts)] + after)
  {
    var whole := [Total(parts)];
    TotalNonNegative(parts);
    TotalConcat(before + parts, after);
    TotalConcat(before, parts);
    TotalConcat(before + whole, after);
    TotalConcat(before, whole);
    BillTelescopes(consumed, before + parts + after);
    BillTelescopes(consumed, before + whole + after);
  }

  // ---------------------------------------------------------------- holding nothing

  /** A request in flight: the allowance it committed, and the money held against it. */
  datatype Reserved = Reserved(basis: real, held: real)

  /** One user's month, as the user's lock shows it to one transaction at a time. */
  datatype Month = Month(consumed: real, live: seq<Reserved>)

  function Committed(live: seq<Reserved>): real {
    if live == [] then 0.0 else live[0].basis + Committed(live[1..])
  }

  predicate ReservesNoFee(m: Month, basis: real, whollyByok: bool) {
    whollyByok && basis <= RemainingAllowance(m.consumed + Committed(m.live))
  }

  function Admit(m: Month, basis: real, whollyByok: bool, sized: real): Month {
    m.(live := m.live + [Reserved(basis, if ReservesNoFee(m, basis, whollyByok) then 0.0 else sized)])
  }

  function Without(live: seq<Reserved>, i: nat): seq<Reserved>
    requires i < |live|
  {
    live[..i] + live[i + 1..]
  }

  /** The fee is priced inside the settling transaction, on what has settled before it. */
  function FeeAt(m: Month, catalog: real): real {
    ApplyFee(BillableAboveAllowance(catalog, m.consumed), FEE_RATE)
  }

  function Settle(m: Month, i: nat, catalog: real): Month
    requires i < |m.live|
  {
    Month(m.consumed + catalog, Without(m.live, i))
  }

  /** Everything settled and everything still committed fits in the month's allowance. */
  predicate Roomy(m: Month) {
    m.consumed + Committed(m.live) <= MONTHLY_ALLOWANCE
  }

  ghost predicate Sane(m: Month) {
    m.consumed >= 0.0 && forall r :: r in m.live ==> r.basis >= 0.0
  }

  lemma {:induction false} CommittedConcat(a: seq<Reserved>, b: seq<Reserved>)
    ensures Committed(a + b) == Committed(a) + Committed(b)
  {
    if a == [] {
      assert a + b == b;
    } else {
      CommittedConcat(a[1..], b);
      assert (a + b)[1..] == a[1..] + b;
    }
  }

  lemma {:induction false} CommittedSplice(front: seq<Reserved>, x: Reserved, back: seq<Reserved>)
    ensures Committed(front + ([x] + back)) == x.basis + Committed(front + back)
  {
    if front == [] {
      assert front + ([x] + back) == [x] + back && front + back == back;
      assert ([x] + back)[1..] == back;
    } else {
      CommittedSplice(front[1..], x, back);
      assert (front + ([x] + back))[1..] == front[1..] + ([x] + back);
      assert (front + back)[1..] == front[1..] + back;
    }
  }

  lemma SplitAt(live: seq<Reserved>, i: nat)
    requires i < |live|
    ensures live == live[..i] + ([live[i]] + live[i + 1..])
  {
  }

  lemma CommittedWithout(live: seq<Reserved>, i: nat)
    requires i < |live|
    ensures Committed(Without(live, i)) == Committed(live) - live[i].basis
  {
    var front, x, back := live[..i], live[i], live[i + 1..];
    SplitAt(live, i);
    CommittedSplice(front, x, back);
  }

  lemma {:induction false} CommittedNonNegative(live: seq<Reserved>)
    requires forall r :: r in live ==> r.basis >= 0.0
    ensures Committed(live) >= 0.0
  {
    if live == [] {
    } else {
      CommittedNonNegative(live[1..]);
    }
  }

  /** What is held: nothing exactly where everything opened is the customer's own key and the request fits in what
      settled and committed usage leave of the month's five thousand dollars; the full size otherwise. */
  lemma AdmitLaw(m: Month, basis: real, whollyByok: bool, sized: real)
    ensures Admit(m, basis, whollyByok, sized).consumed == m.consumed
    ensures Admit(m, basis, whollyByok, sized).live == m.live +
      [Reserved(basis, if whollyByok && (basis <= 0.0 || m.consumed + Committed(m.live) + basis <= 5000.0) then 0.0
                       else sized)]
  {
  }

  /** What one settlement is charged: a twentieth of what it adds above the month's five thousand dollars. */
  lemma FeeLaw(m: Month, catalog: real)
    requires m.consumed >= 0.0 && catalog >= 0.0
    ensures FeeAt(m, catalog) * 20.0 ==
      if m.consumed >= 5000.0 then catalog
      else if m.consumed + catalog >= 5000.0 then m.consumed + catalog - 5000.0 else 0.0
  {
  }

  /** Holding nothing for a request keeps the month roomy if it was; it is the test the waiver makes. */
  lemma WaivedKeepsRoom(m: Month, basis: real, sized: real)
    requires Roomy(m) && Sane(m) && basis >= 0.0 && ReservesNoFee(m, basis, true)
    ensures Roomy(Admit(m, basis, true, sized)) && Sane(Admit(m, basis, true, sized))
  {
    CommittedConcat(m.live, [Reserved(basis, 0.0)]);
  }

  /** In a roomy month whatever settles next, within its committed basis, owes nothing and leaves it roomy. */
  lemma RoomyOwesNothing(m: Month, i: nat, catalog: real)
    requires Roomy(m) && Sane(m) && i < |m.live| && 0.0 <= catalog <= m.live[i].basis
    ensures FeeAt(m, catalog) == 0.0 && Roomy(Settle(m, i, catalog)) && Sane(Settle(m, i, catalog))
  {
    CommittedWithout(m.live, i);
    forall r | r in Without(m.live, i) ensures r.basis >= 0.0 { assert r in m.live; }
    CommittedNonNegative(Without(m.live, i));
  }

  /** One settlement of a run: which of the live requests, and for how much. */
  datatype Settling = Settling(index: nat, catalog: real)

  ghost predicate Settles(m: Month, steps: seq<Settling>, end: Month)
    decreases |steps|
  {
    if steps == [] then end == m
    else
      && steps[0].index < |m.live| && 0.0 <= steps[0].catalog <= m.live[steps[0].index].basis
      && Settles(Settle(m, steps[0].index, steps[0].catalog), steps[1..], end)
  }

  lemma {:induction false} RoomyRuns(m: Month, steps: seq<Settling>, end: Month)
    requires Roomy(m) && Sane(m) && Settles(m, steps, end)
    ensures Roomy(end) && Sane(end)
    decreases |steps|
  {
    if steps == [] {
    } else {
      RoomyOwesNothing(m, steps[0].index, steps[0].catalog);
      RoomyRuns(Settle(m, steps[0].index, steps[0].catalog), steps[1..], end);
    }
  }

  /** Everybody else settles first, in full. */
  lemma {:induction false} OthersFirst(m: Month, front: seq<Reserved>, z: Reserved, back: seq<Reserved>)
    returns (steps: seq<Settling>, end: Month)
    requires Sane(m) && m.live == front + ([z] + back)
    ensures Settles(m, steps, end) && end == Month(m.consumed + Committed(front + back), [z])
    decreases |front| + |back|
  {
    if front + back == [] {
      assert m.live == [z];
      steps, end := [], m;
    } else {
      var i := if front == [] then 1 else 0;
      var front', back' := if front == [] then [] else front[1..], if front == [] then back[1..] else back;
      var r := m.live[i];
      var next := Settle(m, i, r.basis);
      assert next.live == front' + ([z] + back');
      assert front + back == [r] + (front' + back');
      forall x | x in next.live ensures x.basis >= 0.0 { assert x in m.live; }
      assert r in m.live;
      var rest: seq<Settling>;
      rest, end := OthersFirst(next, front', z, back');
      steps := [Settling(i, r.basis)] + rest;
      assert steps[1..] == rest;
    }
  }

  /** In some order of settlement, settling last, it owes a fee. */
  ghost predicate MayOwe(m: Month, z: Reserved) {
    exists steps, end :: Settles(m, steps, end) && end.live == [z] && FeeAt(end, z.basis) > 0.0
  }

  /** Whether a request in flight can end up owing a fee depends on room alone: in some order of settlement it
      does exactly when settled and committed usage together exceed the allowance. A request that was held
      nothing for may therefore owe one, if a request admitted after it, with a hold, settles before it. */
  lemma WaivedMayOwe(m: Month, front: seq<Reserved>, z: Reserved, back: seq<Reserved>)
    requires Sane(m) && m.live == front + ([z] + back)
    ensures MayOwe(m, z) <==> !Roomy(m) && z.basis > 0.0
  {
    CommittedSplice(front, z, back);
    if !Roomy(m) && z.basis > 0.0 {
      var steps, end := OthersFirst(m, front, z, back);
      assert Settles(m, steps, end) && end.live == [z] && FeeAt(end, z.basis) > 0.0;
    }
    if MayOwe(m, z) {
      var steps, end :| Settles(m, steps, end) && end.live == [z] && FeeAt(end, z.basis) > 0.0;
      OwesMeansCrowded(m, z, steps, end);
    }
  }

  lemma OwesMeansCrowded(m: Month, z: Reserved, steps: seq<Settling>, end: Month)
    requires Sane(m) && z in m.live && Settles(m, steps, end) && end.live == [z] && FeeAt(end, z.basis) > 0.0
    ensures !Roomy(m) && z.basis > 0.0
  {
    if Roomy(m) {
      RoomyRuns(m, steps, end);
      RoomyOwesNothing(end, 0, z.basis);
    } else if z.basis == 0.0 {
      SettlesSane(m, steps, end);
    }
  }

  lemma {:induction false} SettlesSane(m: Month, steps: seq<Settling>, end: Month)
    requires Sane(m) && Settles(m, steps, end)
    ensures Sane(end)
    decreases |steps|
  {
    if steps == [] {
    } else {
      var next := Settle(m, steps[0].index, steps[0].catalog);
      forall r | r in next.live ensures r.basis >= 0.0 { assert r in m.live; }
      SettlesSane(next, steps[1..], end);
    }
  }

  /** The waiver promises a free settlement and does not always keep it: a request held nothing for inside the
      allowance, then a second one with a hold that does not fit, and the second settles first. The first then
      owes a fee that its hold of nothing cannot pay. */
  lemma WaiverBroken()
    ensures var empty := Month(4990.0, []);
      var waived := Admit(empty, 10.0, true, 0.5);
      var both := Admit(waived, 100.0, true, 5.0);
      var after := Settle(both, 1, 100.0);
      && both.live == [Reserved(10.0, 0.0), Reserved(100.0, 5.0)]
      && after.live == [Reserved(10.0, 0.0)] && FeeAt(after, 10.0) == 0.5
  {
    var empty := Month(4990.0, []);
    var waived := Admit(empty, 10.0, true, 0.5);
    assert waived.live == [Reserved(10.0, 0.0)];
    assert Committed(waived.live) == 10.0 + Committed([]);
    var both := Admit(waived, 100.0, true, 5.0);
    assert both.live == [Reserved(10.0, 0.0), Reserved(100.0, 5.0)];
  }
}
