/** What one transaction may change: rows are only added, terminal charges stand, and each new row obeys
    the law of its kind. */
module BillingLaws {
  import opened Wrappers
  import opened Billing
  import opened BillingStones
  import opened BillingShapes
  import opened BillingInvariants

  /** Only a refund may take a balance below zero, and a write-off lands exactly on it. */
  ghost predicate RowLaw(e: Entry) {
    match e.kind
    case Refund => e.amount < 0.0
    case Usage => e.amount < 0.0 && e.balanceAfter >= 0.0
    case WriteOff => e.amount > 0.0 && e.balanceAfter == 0.0
    case _ => e.amount > 0.0
  }

  ghost predicate RowLaws(ledger: seq<Entry>) {
    forall e :: e in ledger ==> RowLaw(e)
  }

  ghost predicate ChargesStand(charges: map<ChargeId, Charge>, charges': map<ChargeId, Charge>) {
    && (forall id :: id in charges && id in charges' ==>
          && charges'[id] == charges[id].(status := charges'[id].status)
          && (charges[id].status != Pending ==> charges'[id] == charges[id]))
    && (forall p :: Stripe(p) in charges ==> Stripe(p) in charges')
  }

  /** A stamped tombstone never changes again; no tombstone changes what it is about. */
  ghost predicate StonesStand(before: seq<Tombstone>, after: seq<Tombstone>) {
    |before| <= |after| &&
    forall i :: 0 <= i < |before| ==>
      && after[i] == before[i].(cents := after[i].cents, applied := after[i].applied)
      && (before[i].applied ==> after[i] == before[i])
  }

  /** Autopay rows land only on accounts armed at that update. */
  ghost predicate AutopayArmed(db: Db, more: seq<Entry>) {
    forall e :: e in more && e.kind == Autopay ==> e.user in db.users && Armed(db.users[e.user])
  }

  ghost predicate Lawful(db: Db, db': Db) {
    && db.ledger <= db'.ledger
    && (forall e :: e in db'.ledger[|db.ledger|..] ==> RowLaw(e))
    && AutopayArmed(db, db'.ledger[|db.ledger|..])
    && ChargesStand(db.charges, db'.charges)
    && StonesStand(db.tombstones, db'.tombstones)
  }

  lemma PostLawful(db: Db, u: UserId, kind: EntryKind, amount: real, anchor: Option<Anchor>, intent: Option<Intent>)
    requires u in db.users && kind != Autopay
    requires RowLaw(Entry(u, kind, amount, db.users[u].balance + amount, anchor, intent))
    ensures Lawful(db, Post(db, u, kind, amount, anchor, intent))
  {
    var db' := Post(db, u, kind, amount, anchor, intent);
    assert db'.ledger[|db.ledger|..] == [Entry(u, kind, amount, db.users[u].balance + amount, anchor, intent)];
  }

  lemma NoRowsLawful(db: Db, db': Db)
    requires db'.ledger == db.ledger
    requires ChargesStand(db.charges, db'.charges) && StonesStand(db.tombstones, db'.tombstones)
    ensures Lawful(db, db')
  {
    assert db'.ledger[|db.ledger|..] == [];
  }

  /** A credit row and the refund its tombstones may add to it. */
  lemma LandingLawful(before: Db, db: Db, u: UserId, p: Intent, amount: real, c: Entry, stones: seq<Tombstone>)
    requires u in db.users && amount > 0.0 && RowLaw(c) && c.user == u && u in before.users
    requires db.ledger == before.ledger + [c] && db.tombstones == before.tombstones
    requires ChargesStand(before.charges, db.charges)
    requires c.kind == Autopay ==> Armed(before.users[u])
    ensures Lawful(before, ApplyStones(db, u, p, amount, stones))
  {
    var end := ApplyStones(db, u, p, amount, stones);
    StonesOutcome(db, u, p, amount, stones);
    if AnyTaker(db.ledger, p, amount, stones) {
      var t :| t in stones && Taker(db.ledger, p, amount, t) &&
        end.ledger ==
            db.ledger + [Entry(u, Refund, -amount, end.users[u].balance, Some(OfObject(t.objectId)), Some(p))];
      assert end.ledger[|before.ledger|..] == [c, end.ledger[|db.ledger|]];
    } else {
      assert end.ledger[|before.ledger|..] == [c];
    }
  }

  lemma PurchaseLawful(db: Db, u: UserId, amount: real, s: Session, p: Option<Intent>)
    ensures Lawful(db, Apply(CreditPurchase(u, amount, s, p), db))
  {
    PurchaseShape(CreditPurchase(u, amount, s, p), db);
    if amount <= 0.0 || Anchored(db.ledger, OfSession(s)) || u !in db.users {
      NoRowsLawful(db, db);
    } else {
      var posted := Post(db, u, Purchase, amount, Some(OfSession(s)), p);
      if p.Some? {
        LandingLawful(db, posted, u, p.value, amount, posted.ledger[|db.ledger|], Unapplied(db.tombstones, p.value));
      } else {
        PostLawful(db, u, Purchase, amount, Some(OfSession(s)), p);
      }
    }
  }

  lemma SettleLawful(db: Db, p: Intent, recovered: Option<Recovered>)
    requires Inv(db) && Valid(SettleAutopay(p, recovered))
    ensures Lawful(db, Apply(SettleAutopay(p, recovered), db))
  {
    var op := SettleAutopay(p, recovered);
    SettleShape(op, db);
    var due := Due(op, db);
    if due.Some? && Agrees(op, due.value) && ArmedUser(db, due.value.user) {
      SettledLawful(db, p, due.value);
    } else if due.Some? {
      RefusedLawful(db, Apply(op, db), Stripe(p), due.value);
    } else {
      NoRowsLawful(db, db);
    }
  }

  lemma RefusedLawful(db: Db, end: Db, id: ChargeId, c: Charge)
    requires id in db.charges ==> db.charges[id] == c && c.status == Pending
    requires exists status :: end == SetCharge(db, id, c.(status := status))
    ensures Lawful(db, end)
  {
    NoRowsLawful(db, end);
  }

  lemma SettledLawful(db: Db, p: Intent, c: Charge)
    requires ArmedUser(db, c.user) && c.amount > 0.0
    requires Stripe(p) in db.charges ==> db.charges[Stripe(p)] == c && c.status == Pending
    ensures Lawful(db, CreditCharge(db, p, c, Unapplied(db.tombstones, p)))
  {
    var posted := PostCharge(db, p, c);
    LandingLawful(db, posted, c.user, p, c.amount, posted.ledger[|db.ledger|], Unapplied(db.tombstones, p));
  }

  lemma ResolveLawful(db: Db, o: ObjectId, p: Intent, dispute: bool, cents: Option<int>, currency: Option<string>)
    ensures Lawful(db, Apply(ResolveReversal(o, p, dispute, cents, currency), db))
  {
    InsertShape(db.tombstones, o, p, dispute, cents, currency);
    NoRowsLawful(db, Apply(ResolveReversal(o, p, dispute, cents, currency), db));
  }

  lemma ReverseLawful(db: Db, p: Intent, o: ObjectId)
    requires Inv(db)
    ensures Lawful(db, Apply(ReversePurchase(p, o), db))
  {
    ReverseShape(ReversePurchase(p, o), db);
    if ReversalApplies(db, p, o) {
      CreditedOwner(db, p);
      PostLawful(db, p.customer, Refund, -Credited(db.ledger, p).value.amount, Some(OfObject(o)), Some(p));
    } else {
      NoRowsLawful(db, db);
    }
  }

  lemma PlainLawful(op: Op, db: Db)
    requires Plain(op)
    ensures Lawful(db, Apply(op, db))
  {
    var kind, amount := PlainShape(op, db);
    if Apply(op, db) == db {
      NoRowsLawful(db, db);
    } else {
      PostLawful(db, op.user, kind, amount, None, None);
    }
  }

  lemma QuietLawful(op: Op, db: Db)
    requires op.MarkApplied? || op.FreezeAccount? || op.UnfreezeAccount? || op.BumpFailure? || op.ConfigureAutopay?
        || op.DisableAutopay?
    ensures Lawful(db, Apply(op, db))
  {
    NoRowsLawful(db, Apply(op, db));
  }

  lemma ChargeOpLawful(op: Op, db: Db)
    requires op.ClaimAutopay? || op.AttachAutopay? || op.DropClaim? || op.RecordCharge? || op.FailAutopay?
    ensures Lawful(db, Apply(op, db))
  {
    NoRowsLawful(db, Apply(op, db));
  }

  /** Every transaction is lawful. */
  lemma ApplyLawful(op: Op, db: Db)
    requires Inv(db) && Valid(op)
    ensures Lawful(db, Apply(op, db))
  {
    match op
    case CreditPurchase(u, amount, s, p) => PurchaseLawful(db, u, amount, s, p);
    case SettleAutopay(p, recovered) => SettleLawful(db, p, recovered);
    case ReversePurchase(p, o) => ReverseLawful(db, p, o);
    case ResolveReversal(o, p, dispute, cents, currency) => ResolveLawful(db, o, p, dispute, cents, currency);
    case GrantPromo(_, _) => PlainLawful(op, db);
    case WriteOffReceivable(_) => PlainLawful(op, db);
    case RecordRecovery(_, _) => PlainLawful(op, db);
    case DebitUsage(_, _) => PlainLawful(op, db);
    case ClaimAutopay(_, _, _, _) => ChargeOpLawful(op, db);
    case AttachAutopay(_, _) => ChargeOpLawful(op, db);
    case DropClaim(_) => ChargeOpLawful(op, db);
    case RecordCharge(_, _, _, _) => ChargeOpLawful(op, db);
    case FailAutopay(_) => ChargeOpLawful(op, db);
    case _ => QuietLawful(op, db);
  }

  lemma LawfulRows(db: Db, db': Db)
    requires RowLaws(db.ledger) && Lawful(db, db')
    ensures RowLaws(db'.ledger)
  {
    assert db'.ledger == db.ledger + db'.ledger[|db.ledger|..];
  }

  /** A terminal charge keeps its status through any serial run, and rows are never taken away. */
  lemma {:induction false} SerialStands(db: Db, ops: seq<Op>, p: Intent)
    requires Inv(db) && forall i :: 0 <= i < |ops| ==> Valid(ops[i])
    ensures db.ledger <= Serial(db, ops).ledger
    ensures Stripe(p) in db.charges ==> Stripe(p) in Serial(db, ops).charges
    ensures Stripe(p) in db.charges && db.charges[Stripe(p)].status != Pending ==>
      Serial(db, ops).charges[Stripe(p)] == db.charges[Stripe(p)]
    decreases |ops|
  {
    if ops == [] {
    } else {
      ApplyKeeps(ops[0], db);
      ApplyLawful(ops[0], db);
      SerialStands(Apply(ops[0], db), ops[1..], p);
    }
  }

  /** How many rows of a ledger satisfy a test. */
  ghost function Count(ledger: seq<Entry>, test: Entry -> bool): nat {
    if ledger == [] then 0
    else Count(ledger[..|ledger| - 1], test) + (if test(ledger[|ledger| - 1]) then 1 else 0)
  }

  lemma {:induction false} AtMostOne(ledger: seq<Entry>, test: Entry -> bool)
    requires forall i, j :: 0 <= i < j < |ledger| ==> !(test(ledger[i]) && test(ledger[j]))
    ensures Count(ledger, test) <= 1
    ensures Count(ledger, test) == 1 <==> exists e :: e in ledger && test(e)
  {
    if ledger == [] {
    } else {
      var front, last := ledger[..|ledger| - 1], ledger[|ledger| - 1];
      assert ledger == front + [last];
      AtMostOne(front, test);
      if test(last) {
        assert last in ledger;
        assert forall e :: e in front ==> !test(e);
      }
    }
  }

  /** However often webhooks are replayed: one purchase row per session, one refund row per intent, and a
      charge is succeeded exactly when exactly one autopay row carries it. */
  lemma ExactlyOnce(db: Db, s: Session, p: Intent)
    requires Inv(db)
    ensures Count(db.ledger, (e: Entry) => e.anchor == Some(OfSession(s))) <= 1
    ensures Count(db.ledger, (e: Entry) => IsRefund(e, p)) <= 1
    ensures Count(db.ledger, (e: Entry) => e.kind == Autopay && e.anchor == Some(OfIntent(p))) <= 1
    ensures Count(db.ledger, (e: Entry) => e.kind == Autopay && e.anchor == Some(OfIntent(p))) == 1 <==>
      Stripe(p) in db.charges && db.charges[Stripe(p)].status == Succeeded
  {
    AtMostOne(db.ledger, (e: Entry) => e.anchor == Some(OfSession(s)));
    AtMostOne(db.ledger, (e: Entry) => IsRefund(e, p));
    var carried := (e: Entry) => e.kind == Autopay && e.anchor == Some(OfIntent(p));
    AtMostOne(db.ledger, carried);
    if Stripe(p) in db.charges && db.charges[Stripe(p)].status == Succeeded {
      var e :| e in db.ledger && Matches(e, p, db.charges[Stripe(p)]);
      assert carried(e);
    }
  }
}
