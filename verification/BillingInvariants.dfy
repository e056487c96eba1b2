/** What every transaction keeps, and what no transaction may do, over whole serial runs. */
module BillingInvariants {
  import opened Wrappers
  import opened Billing
  import opened BillingStones
  import opened BillingShapes

  // ---------------------------------------------------------------- the ledger

  /** The sum of a user's amounts over the first n rows. */
  ghost function Sum(ledger: seq<Entry>, n: nat, u: UserId): real
    requires n <= |ledger|
  {
    if n == 0 then 0.0
    else Sum(ledger, n - 1, u) + (if ledger[n - 1].user == u then ledger[n - 1].amount else 0.0)
  }

  ghost predicate PrefixSums(ledger: seq<Entry>) {
    forall i :: 0 <= i < |ledger| ==> ledger[i].balanceAfter == Sum(ledger, i + 1, ledger[i].user)
  }

  /** Every balance is the sum of the user's rows, and every row snapshots the sum so far. */
  ghost predicate Conserved(db: Db) {
    && PrefixSums(db.ledger)
    && (forall u :: u in db.users ==> db.users[u].balance == Sum(db.ledger, |db.ledger|, u))
    && (forall e :: e in db.ledger ==> e.user in db.users)
  }

  /** The unique index on the anchor column, as a fact about the rows. */
  ghost predicate UniqueAnchors(ledger: seq<Entry>) {
    forall i, j :: 0 <= i < j < |ledger| && ledger[i].anchor.Some? ==> ledger[i].anchor != ledger[j].anchor
  }

  ghost predicate OneRefund(ledger: seq<Entry>) {
    && (forall e :: e in ledger && e.kind == Refund ==> e.intent.Some?)
    && forall i, j :: 0 <= i < j < |ledger| && ledger[i].kind == Refund && ledger[j].kind == Refund ==>
         ledger[i].intent != ledger[j].intent
  }

  ghost predicate TakesBack(refund: Entry, credit: Entry) {
    refund.intent.Some? && IsCredit(credit, refund.intent.value) && credit.user == refund.user
    && refund.amount == -credit.amount
  }

  /** A refund row takes back exactly what a credit of its intent gave, from the same user. */
  ghost predicate RefundsMatch(ledger: seq<Entry>) {
    forall e :: e in ledger && e.kind == Refund ==> exists c :: c in ledger && TakesBack(e, c)
  }

  /** Credits are positive and belong to the customer of their intent. */
  ghost predicate CreditsOwned(ledger: seq<Entry>) {
    forall e :: e in ledger && CreditIntent(e).Some? ==> e.amount > 0.0 && e.user == CreditIntent(e).value.customer
  }

  // ---------------------------------------------------------------- tombstones

  ghost predicate DistinctStones(tombstones: seq<Tombstone>) {
    forall i, j :: 0 <= i < j < |tombstones| ==> tombstones[i].objectId != tombstones[j].objectId
  }

  /** A credited intent has no unapplied tombstone that covers its credit and none that is a dispute. */
  ghost predicate RaceClosed(db: Db) {
    forall t, e :: t in db.tombstones && !t.applied && e in db.ledger && IsCredit(e, t.intent) ==>
      !Discharged(t, e.amount)
  }

  // ---------------------------------------------------------------- autopay

  ghost predicate Matches(e: Entry, p: Intent, c: Charge) {
    e.kind == Autopay && e.anchor == Some(OfIntent(p)) && e.user == c.user && e.amount == c.amount
  }

  /** A charge is succeeded exactly when its autopay row is in the ledger. */
  ghost predicate AutopayMatched(db: Db) {
    && (forall p :: Stripe(p) in db.charges && db.charges[Stripe(p)].status == Succeeded ==>
          exists e :: e in db.ledger && Matches(e, p, db.charges[Stripe(p)]))
    && (forall e :: e in db.ledger && (e.kind == Autopay || (e.anchor.Some? && e.anchor.value.OfIntent?)) ==>
          && e.kind == Autopay && e.anchor.Some? && e.anchor.value.OfIntent?
          && Stripe(e.anchor.value.intent) in db.charges
          && db.charges[Stripe(e.anchor.value.intent)].status == Succeeded)
    && (forall key :: Local(key) in db.charges ==> db.charges[Local(key)].status in {Pending, Failed})
  }

  function CustomerOf(id: ChargeId): UserId {
    match id case Local(key) => key.customer case Stripe(p) => p.customer
  }

  ghost predicate ChargesOwned(charges: map<ChargeId, Charge>) {
    forall id :: id in charges ==> charges[id].user == CustomerOf(id) && 0.0 < charges[id].amount <= charges[id].gross
  }

  /** The one-pending-per-user index. */
  ghost predicate OnePending(charges: map<ChargeId, Charge>) {
    forall a, b :: a in charges && b in charges && a != b && charges[a].status == Pending
        && charges[b].status == Pending
      ==> charges[a].user != charges[b].user
  }

  ghost predicate Inv(db: Db) {
    && Conserved(db)
    && UniqueAnchors(db.ledger) && OneRefund(db.ledger) && RefundsMatch(db.ledger) && CreditsOwned(db.ledger)
    && DistinctStones(db.tombstones) && RaceClosed(db)
    && AutopayMatched(db) && ChargesOwned(db.charges) && OnePending(db.charges)
  }

  // ---------------------------------------------------------------- posting a row

  lemma PostConserves(db: Db, u: UserId, kind: EntryKind, amount: real, anchor: Option<Anchor>, intent: Option<Intent>)
    requires Conserved(db) && u in db.users
    ensures Conserved(Post(db, u, kind, amount, anchor, intent))
  {
    var db' := Post(db, u, kind, amount, anchor, intent);
    Appended(db.ledger, db'.ledger[|db.ledger|]);
  }

  lemma {:induction false} SumExtends(ledger: seq<Entry>, e: Entry, n: nat, u: UserId)
    requires n <= |ledger|
    ensures Sum(ledger + [e], n, u) == Sum(ledger, n, u)
  {
    if n == 0 {
    } else {
      SumExtends(ledger, e, n - 1, u);
    }
  }

  lemma Appended(ledger: seq<Entry>, e: Entry)
    requires PrefixSums(ledger) && e.balanceAfter == Sum(ledger, |ledger|, e.user) + e.amount
    ensures PrefixSums(ledger + [e])
    ensures forall u ::
      Sum(ledger + [e], |ledger| + 1, u) == Sum(ledger, |ledger|, u) + (if e.user == u then e.amount else 0.0)
  {
    var l := ledger + [e];
    forall n: nat, u | n <= |ledger| ensures Sum(l, n, u) == Sum(ledger, n, u) {
      SumExtends(ledger, e, n, u);
    }
  }

  /** Adding a row whose anchor is new and that is not a second refund keeps the ledger well formed. */
  lemma RowKeeps(ledger: seq<Entry>, e: Entry)
    requires UniqueAnchors(ledger) && OneRefund(ledger) && RefundsMatch(ledger) && CreditsOwned(ledger)
    requires e.anchor.Some? ==> !Anchored(ledger, e.anchor.value)
    requires e.kind == Refund ==> e.intent.Some? && !Refunded(ledger, e.intent.value)
    requires e.kind == Refund ==> exists c :: c in ledger && TakesBack(e, c)
    requires CreditIntent(e).Some? ==> e.amount > 0.0 && e.user == CreditIntent(e).value.customer
    ensures UniqueAnchors(ledger + [e]) && OneRefund(ledger + [e]) && RefundsMatch(ledger + [e])
    ensures CreditsOwned(ledger + [e])
  {
    RowMatches(ledger, e);
    RowUnique(ledger, e);
  }

  lemma RowUnique(ledger: seq<Entry>, e: Entry)
    requires UniqueAnchors(ledger) && OneRefund(ledger) && CreditsOwned(ledger)
    requires e.anchor.Some? ==> !Anchored(ledger, e.anchor.value)
    requires e.kind == Refund ==> e.intent.Some? && !Refunded(ledger, e.intent.value)
    requires CreditIntent(e).Some? ==> e.amount > 0.0 && e.user == CreditIntent(e).value.customer
    ensures UniqueAnchors(ledger + [e]) && OneRefund(ledger + [e]) && CreditsOwned(ledger + [e])
  {
    var l := ledger + [e];
    assert forall x :: x in l <==> x in ledger || x == e;
    forall i | 0 <= i < |ledger| && e.kind == Refund && ledger[i].kind == Refund ensures ledger[i].intent != e.intent {
      assert ledger[i] in ledger;
    }
  }

  lemma RowMatches(ledger: seq<Entry>, e: Entry)
    requires RefundsMatch(ledger) && (e.kind == Refund ==> exists c :: c in ledger && TakesBack(e, c))
    ensures RefundsMatch(ledger + [e])
  {
    var l := ledger + [e];
    forall r | r in l && r.kind == Refund ensures exists c :: c in l && TakesBack(r, c) {
      if r in ledger {
        var c :| c in ledger && TakesBack(r, c);
        assert c in l;
      } else {
        var c :| c in ledger && TakesBack(e, c);
        assert c in l;
      }
    }
  }

  /** A change that touches no money, no tombstone and no charge. */
  ghost predicate SameMoney(db: Db, db': Db) {
    && db'.ledger == db.ledger
    && db'.users.Keys == db.users.Keys
    && forall u :: u in db.users ==> db'.users[u].balance == db.users[u].balance
  }

  /** A row that is neither a credit nor a refund keeps the whole invariant. */
  lemma PlainPostKeeps(db: Db, u: UserId, kind: EntryKind, amount: real)
    requires Inv(db) && u in db.users && kind in {Promo, WriteOff, Recovery, Usage}
    ensures Inv(Post(db, u, kind, amount, None, None))
  {
    var db' := Post(db, u, kind, amount, None, None);
    var e := db'.ledger[|db.ledger|];
    PostConserves(db, u, kind, amount, None, None);
    RowKeeps(db.ledger, e);
    assert forall x :: x in db'.ledger <==> x in db.ledger || x == e;
    AutopayRows(db, db', [e]);
  }

  /** Rows that are not autopay's leave the charges matched. */
  lemma AutopayRows(db: Db, db': Db, more: seq<Entry>)
    requires AutopayMatched(db) && db'.charges == db.charges && db'.ledger == db.ledger + more
    requires forall e :: e in more ==> e.kind != Autopay && !(e.anchor.Some? && e.anchor.value.OfIntent?)
    ensures AutopayMatched(db')
  {
    assert forall x :: x in db'.ledger <==> x in db.ledger || x in more;
    forall p | Stripe(p) in db'.charges && db'.charges[Stripe(p)].status == Succeeded
      ensures exists e :: e in db'.ledger && Matches(e, p, db'.charges[Stripe(p)])
    {
      var e :| e in db.ledger && Matches(e, p, db.charges[Stripe(p)]);
      assert e in db'.ledger;
    }
  }

  // ---------------------------------------------------------------- landing a credit

  /** The ledger half of a landing credit: the refund the tombstones ask for, if any, keeps it well formed. */
  lemma LandedLedger(db: Db, end: Db, u: UserId, p: Intent, amount: real, stones: seq<Tombstone>, c: Entry)
    requires u in db.users && Outcome(db, end, u, p, amount, stones)
    requires Conserved(db) && AutopayMatched(db)
    requires UniqueAnchors(db.ledger) && OneRefund(db.ledger) && RefundsMatch(db.ledger) && CreditsOwned(db.ledger)
    requires c in db.ledger && IsCredit(c, p) && c.user == u && c.amount == amount
    ensures Conserved(end) && AutopayMatched(end)
    ensures UniqueAnchors(end.ledger) && OneRefund(end.ledger) && RefundsMatch(end.ledger) && CreditsOwned(end.ledger)
    ensures forall e, q :: e in end.ledger && IsCredit(e, q) ==> e in db.ledger
  {
    if AnyTaker(db.ledger, p, amount, stones) {
      var t :| t in stones && Taker(db.ledger, p, amount, t) &&
        end.ledger ==
            db.ledger + [Entry(u, Refund, -amount, end.users[u].balance, Some(OfObject(t.objectId)), Some(p))];
      TakenBackKeeps(db, end, u, p, amount, t.objectId, c);
    } else {
      NothingTakenKeeps(db, end);
    }
  }

  lemma NothingTakenKeeps(db: Db, end: Db)
    requires Conserved(db) && AutopayMatched(db) && SameMoney(db, end) && end.charges == db.charges
    ensures Conserved(end) && AutopayMatched(end)
  {
    assert end.ledger == db.ledger + [];
    AutopayRows(db, end, []);
  }

  lemma TakenBackKeeps(db: Db, end: Db, u: UserId, p: Intent, amount: real, o: ObjectId, c: Entry)
    requires Conserved(db) && AutopayMatched(db)
    requires UniqueAnchors(db.ledger) && OneRefund(db.ledger) && RefundsMatch(db.ledger) && CreditsOwned(db.ledger)
    requires c in db.ledger && IsCredit(c, p) && c.user == u && c.amount == amount
    requires !AlreadyReversed(db.ledger, o, p)
    requires u in db.users && end.users.Keys == db.users.Keys && end.charges == db.charges
    requires forall x :: x in db.users && x != u ==> end.users[x] == db.users[x]
    requires end.users[u].balance == db.users[u].balance - amount
    requires end.ledger == db.ledger + [Entry(u, Refund, -amount, end.users[u].balance, Some(OfObject(o)), Some(p))]
    ensures Conserved(end) && AutopayMatched(end)
    ensures UniqueAnchors(end.ledger) && OneRefund(end.ledger) && RefundsMatch(end.ledger) && CreditsOwned(end.ledger)
    ensures forall e, q :: e in end.ledger && IsCredit(e, q) ==> e in db.ledger
  {
    var r := end.ledger[|db.ledger|];
    assert TakesBack(r, c);
    RowKeeps(db.ledger, r);
    AutopayRows(db, end, [r]);
    RefundConserves(db, end, u, r);
    assert forall x :: x in end.ledger <==> x in db.ledger || x == r;
  }

  lemma RefundConserves(db: Db, end: Db, u: UserId, r: Entry)
    requires Conserved(db) && u in db.users && end.users.Keys == db.users.Keys
    requires forall x :: x in db.users && x != u ==> end.users[x] == db.users[x]
    requires end.users[u].balance == db.users[u].balance + r.amount
    requires end.ledger == db.ledger + [r] && r.user == u && r.balanceAfter == end.users[u].balance
    ensures Conserved(end)
  {
    Appended(db.ledger, r);
  }

  /** The tombstone half: what is left unapplied covers no credit of its intent and is no dispute. */
  lemma LandedRace(before: Db, db: Db, end: Db, u: UserId, p: Intent, amount: real, c: Entry)
    requires u in db.users && Outcome(db, end, u, p, amount, Unapplied(db.tombstones, p))
    requires RaceClosed(before) && db.tombstones == before.tombstones && db.ledger == before.ledger + [c]
    requires IsCredit(c, p) && c.amount == amount
    requires forall e, q :: e in end.ledger && IsCredit(e, q) ==> e in db.ledger
    ensures RaceClosed(end)
  {
    forall t, e | t in end.tombstones && !t.applied && e in end.ledger && IsCredit(e, t.intent)
      ensures !Discharged(t, e.amount)
    {
      var i :| 0 <= i < |end.tombstones| && end.tombstones[i] == t;
      assert db.tombstones[i] == t && t in before.tombstones;
      assert e in db.ledger;
      if e !in before.ledger {
        UnappliedIs(db.tombstones, p, t);
      }
    }
  }

  /** A credit lands: its row is posted and the intent's unapplied tombstones are consumed with it. */
  lemma LandingKeeps(before: Db, db: Db, u: UserId, p: Intent, amount: real, c: Entry)
    requires u in db.users && p.customer == u && amount > 0.0
    requires DistinctStones(before.tombstones) && RaceClosed(before)
    requires Conserved(db) && UniqueAnchors(db.ledger) && OneRefund(db.ledger) && RefundsMatch(db.ledger)
    requires CreditsOwned(db.ledger)
    requires AutopayMatched(db) && ChargesOwned(db.charges) && OnePending(db.charges)
    requires db.tombstones == before.tombstones && db.ledger == before.ledger + [c]
    requires c.user == u && c.amount == amount && IsCredit(c, p)
    ensures Inv(ApplyStones(db, u, p, amount, Unapplied(db.tombstones, p)))
  {
    var stones := Unapplied(db.tombstones, p);
    var end := ApplyStones(db, u, p, amount, stones);
    StonesOutcome(db, u, p, amount, stones);
    assert c in db.ledger;
    LandedLedger(db, end, u, p, amount, stones, c);
    LandedRace(before, db, end, u, p, amount, c);
    StampedStones(db, end, p, amount, stones);
  }

  lemma StampedStones(db: Db, end: Db, p: Intent, amount: real, stones: seq<Tombstone>)
    requires OnlyStamped(db.tombstones, end.tombstones) && DistinctStones(db.tombstones)
    ensures DistinctStones(end.tombstones)
  {
  }

  lemma PurchaseKeeps(db: Db, u: UserId, amount: real, s: Session, p: Option<Intent>)
    requires Inv(db) && Valid(CreditPurchase(u, amount, s, p))
    ensures Inv(Apply(CreditPurchase(u, amount, s, p), db))
  {
    PurchaseShape(CreditPurchase(u, amount, s, p), db);
    if amount > 0.0 && !Anchored(db.ledger, OfSession(s)) && u in db.users {
      var posted := PurchasePosted(db, u, amount, s, p);
      if p.Some? {
        LandingKeeps(db, posted, u, p.value, amount, posted.ledger[|db.ledger|]);
      }
    }
  }

  lemma PurchasePosted(db: Db, u: UserId, amount: real, s: Session, p: Option<Intent>) returns (posted: Db)
    requires Inv(db) && Valid(CreditPurchase(u, amount, s, p))
    requires amount > 0.0 && !Anchored(db.ledger, OfSession(s)) && u in db.users
    ensures posted == Post(db, u, Purchase, amount, Some(OfSession(s)), p)
    ensures Conserved(posted) && AutopayMatched(posted)
    ensures UniqueAnchors(posted.ledger) && OneRefund(posted.ledger) && RefundsMatch(posted.ledger)
    ensures CreditsOwned(posted.ledger)
    ensures p.None? ==> RaceClosed(posted)
  {
    posted := Post(db, u, Purchase, amount, Some(OfSession(s)), p);
    var e := posted.ledger[|db.ledger|];
    PostConserves(db, u, Purchase, amount, Some(OfSession(s)), p);
    RowKeeps(db.ledger, e);
    AutopayRows(db, posted, [e]);
    assert forall x :: x in posted.ledger <==> x in db.ledger || x == e;
  }

  /** The succeeded charge and its row go in together. */
  lemma CreditedChargeKeeps(db: Db, posted: Db, p: Intent, c: Charge, e: Entry)
    requires Inv(db) && c.status == Succeeded && Matches(e, p, c)
    requires Stripe(p) in db.charges ==> db.charges[Stripe(p)].status == Pending
    requires c.user == p.customer && 0.0 < c.amount <= c.gross
    requires posted.charges == db.charges[Stripe(p) := c] && posted.ledger == db.ledger + [e]
    ensures AutopayMatched(posted) && ChargesOwned(posted.charges) && OnePending(posted.charges)
    ensures UniqueAnchors(posted.ledger) && OneRefund(posted.ledger) && RefundsMatch(posted.ledger)
    ensures CreditsOwned(posted.ledger)
  {
    assert !Anchored(db.ledger, OfIntent(p));
    RowKeeps(db.ledger, e);
    assert forall x :: x in posted.ledger <==> x in db.ledger || x == e;
    forall q | Stripe(q) in posted.charges && posted.charges[Stripe(q)].status == Succeeded
      ensures exists x :: x in posted.ledger && Matches(x, q, posted.charges[Stripe(q)])
    {
      if q == p {
        assert e in posted.ledger;
      } else {
        var x :| x in db.ledger && Matches(x, q, db.charges[Stripe(q)]);
        assert x in posted.ledger;
      }
    }
  }

  lemma SettleKeeps(db: Db, p: Intent, recovered: Option<Recovered>)
    requires Inv(db) && Valid(SettleAutopay(p, recovered))
    ensures Inv(Apply(SettleAutopay(p, recovered), db))
  {
    var op := SettleAutopay(p, recovered);
    SettleShape(op, db);
    var due := Due(op, db);
    if due.Some? {
      var c := due.value;
      if !Agrees(op, c) {
        ChargeKeeps(db, Apply(op, db), Stripe(p), c.(status := Failed));
      } else if !ArmedUser(db, c.user) {
        ChargeKeeps(db, Apply(op, db), Stripe(p), c.(status := Withheld));
      } else {
        SettleCredits(db, p, c);
      }
    }
  }

  lemma SettleCredits(db: Db, p: Intent, c: Charge)
    requires Inv(db) && c.user in db.users && c.user == p.customer && 0.0 < c.amount <= c.gross
    requires Stripe(p) in db.charges ==> db.charges[Stripe(p)].status == Pending
    ensures Inv(CreditCharge(db, p, c, Unapplied(db.tombstones, p)))
  {
    var cleared := db.(users := db.users[c.user := db.users[c.user].(failures := 0)]);
    var marked := SetCharge(cleared, Stripe(p), c.(status := Succeeded));
    var posted := PostCharge(db, p, c);
    var e := posted.ledger[|db.ledger|];
    PostConserves(marked, c.user, Autopay, c.amount, Some(OfIntent(p)), None);
    CreditedChargeKeeps(db, posted, p, c.(status := Succeeded), e);
    LandingKeeps(db, posted, c.user, p, c.amount, e);
  }

  /** Writing one charge that is not a success keeps everything. */
  lemma ChargeKeeps(db: Db, end: Db, id: ChargeId, c: Charge)
    requires Inv(db) && end == db.(charges := db.charges[id := c])
    requires c.user == CustomerOf(id) && 0.0 < c.amount <= c.gross
    requires c.status != Succeeded && (id.Local? ==> c.status in {Pending, Failed})
    requires id in db.charges ==> db.charges[id].status == Pending
    requires c.status == Pending ==> !HasPending(db.charges, c.user)
    ensures Inv(end)
  {
    forall p | Stripe(p) in end.charges && end.charges[Stripe(p)].status == Succeeded
      ensures exists e :: e in end.ledger && Matches(e, p, end.charges[Stripe(p)])
    {
      assert Stripe(p) != id;
      var e :| e in db.ledger && Matches(e, p, db.charges[Stripe(p)]);
    }
    forall a, b | a in end.charges && b in end.charges && a != b
                  && end.charges[a].status == Pending && end.charges[b].status == Pending
      ensures end.charges[a].user != end.charges[b].user
    {
      if a == id { assert b in db.charges; }
      if b == id { assert a in db.charges; }
    }
  }

  /** The account columns other than the balance are no part of the invariant. */
  lemma AccountKeeps(db: Db, end: Db)
    requires Inv(db) && SameMoney(db, end) && end.tombstones == db.tombstones && end.charges == db.charges
    ensures Inv(end)
  {
    forall p | Stripe(p) in end.charges && end.charges[Stripe(p)].status == Succeeded
      ensures exists e :: e in end.ledger && Matches(e, p, end.charges[Stripe(p)])
    {
      var e :| e in db.ledger && Matches(e, p, db.charges[Stripe(p)]);
    }
  }

  /** The credit found belongs to the intent's customer. */
  lemma CreditedOwner(db: Db, p: Intent)
    requires Conserved(db) && CreditsOwned(db.ledger) && Credited(db.ledger, p).Some?
    ensures Credited(db.ledger, p).value.user == p.customer && p.customer in db.users
    ensures Credited(db.ledger, p).value.amount > 0.0
  {
    CreditedIs(db.ledger, p);
  }

  lemma CreditedRow(ledger: seq<Entry>, p: Intent) returns (c: Entry)
    requires Credited(ledger, p).Some?
    ensures c in ledger && IsCredit(c, p)
    ensures Credited(ledger, p).value.user == c.user && Credited(ledger, p).value.amount == c.amount
  {
    CreditedIs(ledger, p);
    c :| c in ledger && IsCredit(c, p) && Credited(ledger, p).value == Credit(c.user, c.amount);
  }

  lemma ReverseKeeps(db: Db, p: Intent, o: ObjectId)
    requires Inv(db)
    ensures Inv(Apply(ReversePurchase(p, o), db))
  {
    var end := Apply(ReversePurchase(p, o), db);
    ReverseShape(ReversePurchase(p, o), db);
    if ReversalApplies(db, p, o) {
      CreditedOwner(db, p);
      var c := CreditedRow(db.ledger, p);
      RefundKeeps(db, Credited(db.ledger, p).value, c, p, o, end);
    }
  }

  lemma RefundKeeps(db: Db, credit: Credit, c: Entry, p: Intent, o: ObjectId, end: Db)
    requires Inv(db) && c in db.ledger && IsCredit(c, p) && c.user in db.users && !AlreadyReversed(db.ledger, o, p)
    requires credit.user == c.user && credit.amount == c.amount
    requires end == Post(db, credit.user, Refund, -credit.amount, Some(OfObject(o)), Some(p))
    ensures Inv(end)
  {
    TakenBackKeeps(db, end, c.user, p, c.amount, o, c);
  }

  lemma ResolveKeeps(db: Db, o: ObjectId, p: Intent, dispute: bool, cents: Option<int>, currency: Option<string>)
    requires Inv(db)
    ensures Inv(Apply(ResolveReversal(o, p, dispute, cents, currency), db))
  {
    var end := Apply(ResolveReversal(o, p, dispute, cents, currency), db);
    if Credited(db.ledger, p).None? {
      ObservedRace(db, end, o, p, dispute, cents, currency);
      TombstonesOnly(db, end);
    }
  }

  /** A tombstone is written only for an intent without a credit. */
  lemma ObservedRace(db: Db, end: Db, o: ObjectId, p: Intent, dispute: bool, cents: Option<int>,
                     currency: Option<string>)
    requires RaceClosed(db) && DistinctStones(db.tombstones) && Credited(db.ledger, p).None?
    requires end == db.(tombstones := InsertObserved(db.tombstones, o, p, dispute, cents, currency))
    ensures RaceClosed(end) && DistinctStones(end.tombstones)
  {
    CreditedIs(db.ledger, p);
    InsertShape(db.tombstones, o, p, dispute, cents, currency);
    forall t, e | t in end.tombstones && !t.applied && e in end.ledger && IsCredit(e, t.intent)
      ensures !Discharged(t, e.amount)
    {
      var i :| 0 <= i < |end.tombstones| && end.tombstones[i] == t;
      if t.intent != p {
        assert end.tombstones[i] == db.tombstones[i];
        assert t in db.tombstones;
      }
    }
  }

  lemma TombstonesOnly(db: Db, end: Db)
    requires Inv(db) && end == db.(tombstones := end.tombstones)
    requires RaceClosed(end) && DistinctStones(end.tombstones)
    ensures Inv(end)
  {
    assert end.ledger == db.ledger + [];
    AutopayRows(db, end, []);
  }

  lemma AttachKeeps(db: Db, key: ChargeKey, p: Intent)
    requires Inv(db) && Valid(AttachAutopay(key, p))
    ensures Inv(Apply(AttachAutopay(key, p), db))
  {
    var end := Apply(AttachAutopay(key, p), db);
    if end != db {
      RekeyedKeeps(db, end, key, p);
    }
  }

  lemma DropKeeps(db: Db, key: ChargeKey)
    requires Inv(db)
    ensures Inv(Apply(DropClaim(key), db))
  {
    var end := Apply(DropClaim(key), db);
    forall q | Stripe(q) in end.charges && end.charges[Stripe(q)].status == Succeeded
      ensures exists e :: e in end.ledger && Matches(e, q, end.charges[Stripe(q)])
    {
      var e :| e in db.ledger && Matches(e, q, db.charges[Stripe(q)]);
    }
  }

  /** A claim renamed to its intent. */
  lemma RekeyedKeeps(db: Db, end: Db, key: ChargeKey, p: Intent)
    requires Inv(db) && Local(key) in db.charges && Stripe(p) !in db.charges && key.customer == p.customer
    requires end == db.(charges := (db.charges - {Local(key)})[Stripe(p) := db.charges[Local(key)]])
    ensures Inv(end)
  {
    AttachMatches(db, end, key, p);
    AttachPending(db.charges, end.charges, key, p);
  }

  lemma AttachMatches(db: Db, end: Db, key: ChargeKey, p: Intent)
    requires AutopayMatched(db) && Local(key) in db.charges && Stripe(p) !in db.charges && end.ledger == db.ledger
    requires end.charges == (db.charges - {Local(key)})[Stripe(p) := db.charges[Local(key)]]
    ensures AutopayMatched(end)
  {
    forall q | Stripe(q) in end.charges && end.charges[Stripe(q)].status == Succeeded
      ensures exists e :: e in end.ledger && Matches(e, q, end.charges[Stripe(q)])
    {
      assert Stripe(q) in db.charges;
      var e :| e in db.ledger && Matches(e, q, db.charges[Stripe(q)]);
    }
  }

  lemma AttachPending(charges: map<ChargeId, Charge>, charges': map<ChargeId, Charge>, key: ChargeKey, p: Intent)
    requires OnePending(charges) && Local(key) in charges && Stripe(p) !in charges
    requires charges' == (charges - {Local(key)})[Stripe(p) := charges[Local(key)]]
    ensures OnePending(charges')
  {
    forall a, b | a in charges' && b in charges' && a != b && charges'[a].status == Pending
        && charges'[b].status == Pending
      ensures charges'[a].user != charges'[b].user
    {
      var a' := if a in charges then a else Local(key);
      var b' := if b in charges then b else Local(key);
      assert charges[a'] == charges'[a] && charges[b'] == charges'[b];
    }
  }

  lemma MarkKeeps(db: Db, p: Intent)
    requires Inv(db)
    ensures Inv(Apply(MarkApplied(p), db))
  {
    var end := Apply(MarkApplied(p), db);
    forall t, e | t in end.tombstones && !t.applied && e in end.ledger && IsCredit(e, t.intent)
      ensures !Discharged(t, e.amount)
    {
      var i :| 0 <= i < |end.tombstones| && end.tombstones[i] == t;
      assert db.tombstones[i] == t;
    }
    TombstonesOnly(db, end);
  }

  lemma FailKeeps(db: Db, id: ChargeId)
    requires Inv(db)
    ensures Inv(Apply(FailAutopay(id), db))
  {
    if id in db.charges && db.charges[id].status == Pending {
      var mid := SetCharge(db, id, db.charges[id].(status := Failed));
      ChargeKeeps(db, mid, id, db.charges[id].(status := Failed));
      AccountKeeps(mid, StrikeUser(mid, db.charges[id].user));
    }
  }

  lemma AccountOpKeeps(op: Op, db: Db)
    requires Inv(db)
    requires op.FreezeAccount? || op.UnfreezeAccount? || op.BumpFailure? || op.ConfigureAutopay? || op.DisableAutopay?
    ensures Inv(Apply(op, db))
  {
    AccountKeeps(db, Apply(op, db));
  }

  lemma PlainOpKeeps(op: Op, db: Db)
    requires Plain(op) && Inv(db)
    ensures Inv(Apply(op, db))
  {
    var kind, amount := PlainShape(op, db);
    if Apply(op, db) != db {
      PlainPostKeeps(db, op.user, kind, amount);
    }
  }

  lemma NewChargeKeeps(op: Op, db: Db)
    requires Inv(db) && Valid(op)
    requires op.ClaimAutopay? || op.RecordCharge?
    ensures Inv(Apply(op, db))
  {
    if Apply(op, db) != db {
      match op
      case ClaimAutopay(u, amount, gross, key) =>
        ChargeKeeps(db, Apply(op, db), Local(key), Charge(u, amount, gross, Pending));
      case RecordCharge(p, u, amount, gross) =>
        ChargeKeeps(db, Apply(op, db), Stripe(p), Charge(u, amount, gross, Pending));
    }
  }

  /** Every transaction, run on any tables that satisfy the invariant, leaves tables that satisfy it. */
  lemma ApplyKeeps(op: Op, db: Db)
    requires Inv(db) && Valid(op)
    ensures Inv(Apply(op, db))
  {
    match op
    case CreditPurchase(u, amount, s, p) => PurchaseKeeps(db, u, amount, s, p);
    case ReversePurchase(p, o) => ReverseKeeps(db, p, o);
    case ResolveReversal(o, p, dispute, cents, currency) => ResolveKeeps(db, o, p, dispute, cents, currency);
    case MarkApplied(p) => MarkKeeps(db, p);
    case ClaimAutopay(_, _, _, _) => NewChargeKeeps(op, db);
    case RecordCharge(_, _, _, _) => NewChargeKeeps(op, db);
    case AttachAutopay(key, p) => AttachKeeps(db, key, p);
    case DropClaim(key) => DropKeeps(db, key);
    case SettleAutopay(p, recovered) => SettleKeeps(db, p, recovered);
    case FailAutopay(id) => FailKeeps(db, id);
    case GrantPromo(_, _) => PlainOpKeeps(op, db);
    case WriteOffReceivable(_) => PlainOpKeeps(op, db);
    case RecordRecovery(_, _) => PlainOpKeeps(op, db);
    case DebitUsage(_, _) => PlainOpKeeps(op, db);
    case _ => AccountOpKeeps(op, db);
  }

  /** Every serial run from tables that satisfy the invariant stays inside it. */
  lemma {:induction false} SerialKeeps(db: Db, ops: seq<Op>)
    requires Inv(db) && forall i :: 0 <= i < |ops| ==> Valid(ops[i])
    ensures Inv(Serial(db, ops))
    decreases |ops|
  {
    if ops == [] {
    } else {
      ApplyKeeps(ops[0], db);
      SerialKeeps(Apply(ops[0], db), ops[1..]);
    }
  }
}
