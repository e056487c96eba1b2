/** What consuming a set of tombstones does, said without the loop. */
module BillingStones {
  import opened Wrappers
  import opened Billing

  ghost predicate AnyDispute(stones: seq<Tombstone>) {
    exists t :: t in stones && t.dispute
  }

  /** A tombstone that covers the credit and finds it not yet taken back. */
  ghost predicate Taker(ledger: seq<Entry>, p: Intent, amount: real, t: Tombstone) {
    StoneCovers(t, amount) && !AlreadyReversed(ledger, t.objectId, p)
  }

  ghost predicate AnyTaker(ledger: seq<Entry>, p: Intent, amount: real, stones: seq<Tombstone>) {
    exists t :: t in stones && Taker(ledger, p, amount, t)
  }

  ghost predicate Spent(stones: seq<Tombstone>, amount: real, o: ObjectId) {
    exists t :: t in stones && t.objectId == o && (t.dispute || StoneCovers(t, amount))
  }

  /** The first of them that takes the credit back. */
  ghost predicate FirstTaker(ledger: seq<Entry>, p: Intent, amount: real, stones: seq<Tombstone>, t: Tombstone) {
    exists i :: 0 <= i < |stones| && t == stones[i] && Taker(ledger, p, amount, t)
      && forall j :: 0 <= j < i ==> !Taker(ledger, p, amount, stones[j])
  }

  /** The single refund row the loop may add, anchored on the first tombstone that takes the credit back. */
  ghost predicate TakenBack(ledger: seq<Entry>, ledger': seq<Entry>, u: UserId, p: Intent, amount: real,
                            balance: real, stones: seq<Tombstone>)
  {
    exists t :: t in stones && Taker(ledger, p, amount, t) && FirstTaker(ledger, p, amount, stones, t) &&
      ledger' == ledger + [Entry(u, Refund, -amount, balance, Some(OfObject(t.objectId)), Some(p))]
  }

  /** Same tombstones, some newly stamped. */
  ghost predicate OnlyStamped(before: seq<Tombstone>, after: seq<Tombstone>) {
    |after| == |before| &&
    forall i :: 0 <= i < |before| ==>
      after[i] == before[i].(applied := after[i].applied) && (before[i].applied ==> after[i].applied)
  }

  ghost predicate Outcome(db: Db, db': Db, u: UserId, p: Intent, amount: real, stones: seq<Tombstone>)
    requires u in db.users
  {
    var a := db.users[u];
    var taken := AnyTaker(db.ledger, p, amount, stones);
    var balance := if taken then a.balance - amount else a.balance;
    var frozen := if AnyDispute(stones) && a.frozen == None then Some(Dispute) else a.frozen;
    && db'.users == db.users[u := a.(balance := balance, frozen := frozen)]
    && db'.charges == db.charges
    && (if taken then TakenBack(db.ledger, db'.ledger, u, p, amount, balance, stones) else db'.ledger == db.ledger)
    && OnlyStamped(db.tombstones, db'.tombstones)
    && forall i :: 0 <= i < |db.tombstones| ==>
         (db'.tombstones[i].applied <==> db.tombstones[i].applied || Spent(stones, amount, db.tombstones[i].objectId))
  }

  lemma RefundRecorded(ledger: seq<Entry>, e: Entry, p: Intent)
    requires IsRefund(e, p)
    ensures Refunded(ledger + [e], p)
  {
    assert e in ledger + [e];
  }

  /** One tombstone obeys the summary. */
  lemma StoneOutcome(db: Db, u: UserId, p: Intent, amount: real, t: Tombstone)
    requires u in db.users
    ensures Outcome(db, ApplyStone(db, u, p, amount, t), u, p, amount, [t])
  {
    var db' := ApplyStone(db, u, p, amount, t);
    assert t in [t] && [t][0] == t;
    assert AnyDispute([t]) <==> t.dispute;
    assert AnyTaker(db.ledger, p, amount, [t]) <==> Taker(db.ledger, p, amount, t);
    forall o ensures Spent([t], amount, o) <==> t.objectId == o && Discharged(t, amount) {}
  }

  /** Consuming all the claimed tombstones freezes iff one is a dispute, takes the credit back once iff one
      covers it and nothing has taken it back, and stamps exactly the ones it discharged. */
  lemma {:induction false} StonesOutcome(db: Db, u: UserId, p: Intent, amount: real, stones: seq<Tombstone>)
    requires u in db.users
    ensures Outcome(db, ApplyStones(db, u, p, amount, stones), u, p, amount, stones)
    decreases |stones|
  {
    if stones == [] {
    } else {
      var t, rest := stones[0], stones[1..];
      var mid := ApplyStone(db, u, p, amount, t);
      StoneOutcome(db, u, p, amount, t);
      StonesOutcome(mid, u, p, amount, rest);
      assert forall x :: x in stones <==> x == t || x in rest;
      assert forall x :: x in [t] <==> x == t;
      Compose(db, mid, ApplyStones(mid, u, p, amount, rest), u, p, amount, t, rest);
      assert stones == [t] + rest;
    }
  }

  lemma LaterTaker(ledger: seq<Entry>, p: Intent, amount: real, t: Tombstone, rest: seq<Tombstone>, x: Tombstone)
    requires FirstTaker(ledger, p, amount, rest, x) && !Taker(ledger, p, amount, t)
    ensures FirstTaker(ledger, p, amount, [t] + rest, x)
  {
    var i :| 0 <= i < |rest| && x == rest[i] && forall j :: 0 <= j < i ==> !Taker(ledger, p, amount, rest[j]);
    assert ([t] + rest)[i + 1] == x;
    assert forall j :: 0 < j < i + 1 ==> ([t] + rest)[j] == rest[j - 1];
  }

  lemma Compose(db: Db, mid: Db, end: Db, u: UserId, p: Intent, amount: real, t: Tombstone, rest: seq<Tombstone>)
    requires u in db.users && u in mid.users
    requires Outcome(db, mid, u, p, amount, [t]) && Outcome(mid, end, u, p, amount, rest)
    ensures Outcome(db, end, u, p, amount, [t] + rest)
  {
    var all := [t] + rest;
    assert forall x :: x in all <==> x == t || x in rest;
    assert AnyDispute(all) <==> AnyDispute([t]) || AnyDispute(rest);
    forall o ensures Spent(all, amount, o) <==> Spent([t], amount, o) || Spent(rest, amount, o) {}
    if AnyTaker(db.ledger, p, amount, [t]) {
      assert Refunded(mid.ledger, p) by { RefundRecorded(db.ledger, mid.ledger[|db.ledger|], p); }
      assert !AnyTaker(mid.ledger, p, amount, rest);
      assert all[0] == t;
    } else {
      assert AnyTaker(db.ledger, p, amount, all) <==> AnyTaker(mid.ledger, p, amount, rest);
      if AnyTaker(mid.ledger, p, amount, rest) {
        var x :| x in rest && Taker(mid.ledger, p, amount, x) && FirstTaker(mid.ledger, p, amount, rest, x) &&
          end.ledger ==
              mid.ledger + [Entry(u, Refund, -amount, end.users[u].balance, Some(OfObject(x.objectId)), Some(p))];
        LaterTaker(db.ledger, p, amount, t, rest, x);
      }
    }
  }

  /** The claimed tombstones are the open ones of the intent, each as often as it is there, oldest first. */
  lemma {:induction false} UnappliedLaw(older: seq<Tombstone>, newer: seq<Tombstone>, t: Tombstone, p: Intent)
    ensures Unapplied([], p) == []
    ensures Unapplied([t], p) == if t.intent == p && t.applied == false then [t] else []
    ensures Unapplied(older + newer, p) == Unapplied(older, p) + Unapplied(newer, p)
  {
    assert [t][1..] == [];
    if older == [] {
      assert older + newer == newer;
    } else {
      UnappliedLaw(older[1..], newer, t, p);
      assert (older + newer)[1..] == older[1..] + newer;
    }
  }

  /** The claimed tombstones are the unapplied ones of the intent. */
  lemma {:induction false} UnappliedIs(tombstones: seq<Tombstone>, p: Intent, t: Tombstone)
    ensures t in Unapplied(tombstones, p) <==> t in tombstones && t.intent == p && !t.applied
  {
    if tombstones == [] {
    } else {
      UnappliedIs(tombstones[1..], p, t);
      assert tombstones == [tombstones[0]] + tombstones[1..];
    }
  }

  /** The credit found is one of the rows, and is missing only when no row is one. */
  lemma {:induction false} CreditedIs(ledger: seq<Entry>, p: Intent)
    ensures Credited(ledger, p).None? <==> forall e :: e in ledger ==> !IsCredit(e, p)
    ensures Credited(ledger, p).Some? ==>
      exists e :: e in ledger && IsCredit(e, p) && Credited(ledger, p).value == Credit(e.user, e.amount)
  {
    if ledger == [] {
    } else {
      CreditedIs(ledger[1..], p);
      assert ledger == [ledger[0]] + ledger[1..];
      if IsCredit(ledger[0], p) {
        assert ledger[0] in ledger;
      } else if Credited(ledger, p).Some? {
        var e :| e in ledger[1..] && IsCredit(e, p) && Credited(ledger, p).value == Credit(e.user, e.amount);
        assert e in ledger;
      }
    }
  }

  /** A found credit stays the one found: the ledger is append-only and the oldest row is read. */
  lemma {:induction false} CreditedStable(ledger: seq<Entry>, more: seq<Entry>, p: Intent)
    ensures Credited(ledger, p).Some? ==> Credited(ledger + more, p) == Credited(ledger, p)
    ensures Credited(ledger, p).None? ==> Credited(ledger + more, p) == Credited(more, p)
  {
    if ledger == [] {
      assert ledger + more == more;
    } else {
      assert (ledger + more)[1..] == ledger[1..] + more;
      CreditedStable(ledger[1..], more, p);
    }
  }

  /** Recording a reversal adds one tombstone or raises one amount, and touches no other object. */
  lemma {:induction false} InsertShape(tombstones: seq<Tombstone>, o: ObjectId, p: Intent, dispute: bool,
                                       cents: Option<int>, currency: Option<string>)
    ensures var r := InsertObserved(tombstones, o, p, dispute, cents, currency);
      && |r| >= |tombstones|
      && (forall i :: 0 <= i < |tombstones| ==> r[i] == tombstones[i].(cents := r[i].cents))
      && (forall i :: 0 <= i < |tombstones| && r[i] != tombstones[i] ==>
            tombstones[i].objectId == o && tombstones[i].intent == p && !tombstones[i].applied)
      && (if exists t :: t in tombstones && t.objectId == o then |r| == |tombstones|
          else r == tombstones + [Tombstone(o, p, dispute, cents, currency, false)])
  {
    if tombstones == [] {
    } else {
      InsertShape(tombstones[1..], o, p, dispute, cents, currency);
      assert tombstones == [tombstones[0]] + tombstones[1..];
    }
  }

  /** The larger of two optional amounts; one alone is the larger. */
  ghost predicate Larger(a: Option<int>, b: Option<int>, c: Option<int>) {
    && (c == a || c == b) && (a.Some? || b.Some? ==> c.Some?)
    && (a.Some? ==> c.value >= a.value) && (b.Some? ==> c.value >= b.value)
  }

  /** Two reports that may be merged: of one object, intent, kind and currency, the first not yet applied. */
  ghost predicate Mergeable(t: Tombstone, new_: Tombstone) {
    t.objectId == new_.objectId && t.intent == new_.intent && t.dispute == new_.dispute
    && t.currency == new_.currency && !t.applied
  }

  /** It has been merged, by its larger amount, into this tombstone, the first of its object, if the two agree. */
  ghost predicate RecordedAt(before: seq<Tombstone>, after: seq<Tombstone>, new_: Tombstone, i: nat) {
    && i < |before| == |after| && before[i].objectId == new_.objectId
    && (forall j :: 0 <= j < i ==> before[j].objectId != new_.objectId)
    && (forall j :: 0 <= j < |before| && j != i ==> after[j] == before[j])
    && (if Mergeable(before[i], new_)
        then after[i] == before[i].(cents := after[i].cents) && Larger(before[i].cents, new_.cents, after[i].cents)
        else after[i] == before[i])
  }

  /** A report has been written: appended if its object is new, and else merged; and nothing besides. */
  ghost predicate Recorded(before: seq<Tombstone>, after: seq<Tombstone>, new_: Tombstone) {
    if forall t :: t in before ==> t.objectId != new_.objectId then after == before + [new_]
    else exists i: nat :: RecordedAt(before, after, new_, i)
  }

  /** Recording a reversal is that. */
  lemma {:induction false} InsertIs(tombstones: seq<Tombstone>, o: ObjectId, p: Intent, dispute: bool,
                                    cents: Option<int>, currency: Option<string>)
    ensures Recorded(tombstones, InsertObserved(tombstones, o, p, dispute, cents, currency),
                     Tombstone(o, p, dispute, cents, currency, false))
  {
    var r := InsertObserved(tombstones, o, p, dispute, cents, currency);
    var new_ := Tombstone(o, p, dispute, cents, currency, false);
    if tombstones == [] {
    } else if tombstones[0].objectId == o {
      assert tombstones[0] in tombstones;
      assert RecordedAt(tombstones, r, new_, 0);
    } else {
      var rest, rest' := tombstones[1..], InsertObserved(tombstones[1..], o, p, dispute, cents, currency);
      InsertIs(rest, o, p, dispute, cents, currency);
      RecordedCons(tombstones[0], rest, rest', new_);
      assert tombstones == [tombstones[0]] + rest && r == [tombstones[0]] + rest';
    }
  }

  lemma RecordedCons(t: Tombstone, before: seq<Tombstone>, after: seq<Tombstone>, new_: Tombstone)
    requires Recorded(before, after, new_) && t.objectId != new_.objectId
    ensures Recorded([t] + before, [t] + after, new_)
  {
    assert forall x :: x in [t] + before <==> x == t || x in before;
    if forall x :: x in before ==> x.objectId != new_.objectId {
      assert [t] + (before + [new_]) == [t] + before + [new_];
    } else {
      var i: nat :| RecordedAt(before, after, new_, i);
      RecordedBehind(t, before, after, new_, i);
    }
  }

  lemma RecordedBehind(t: Tombstone, before: seq<Tombstone>, after: seq<Tombstone>, new_: Tombstone, i: nat)
    requires RecordedAt(before, after, new_, i) && t.objectId != new_.objectId
    ensures RecordedAt([t] + before, [t] + after, new_, i + 1)
  {
    var all, all' := [t] + before, [t] + after;
    assert forall j :: 0 < j < |all| ==> all[j] == before[j - 1] && all'[j] == after[j - 1];
  }

  /** A report covers a credit exactly if it is in dollars and short of it by less than half a cent. */
  lemma CoversIs(cents: Option<int>, currency: Option<string>, amount: real)
    ensures Covers(cents, currency, amount) <==>
      currency == Some("usd") && cents.Some? && amount - cents.value as real / 100.0 < 0.005
  {
    if cents.Some? {
      assert cents.value >= Cents(amount) <==> cents.value as real + 1.0 > amount * 100.0 + 0.5;
    }
  }
}
