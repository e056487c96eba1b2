/** The router's door for money: every amount it prices, quotes or accepts as a credit is a whole number of cents, so
    every credit it ever posts is. */
module BillingCents {
  import opened Wrappers
  import opened Billing
  import opened BillingStones
  import opened BillingShapes

  predicate Whole(amount: real) {
    amount * 100.0 == (amount * 100.0).Floor as real
  }

  /** `None` for anything finer than a cent. */
  function UsdToCents(amount: real): (cents: Option<int>)
    ensures cents.Some? <==> Whole(amount)
    ensures cents.Some? ==> cents.value as real == amount * 100.0
  {
    if Whole(amount) then Some((amount * 100.0).Floor) else None
  }

  datatype Rail = Card | Crypto

  /** Rounded up to whole cents. */
  function CentsUp(x: real): real {
    (-((-x * 100.0).Floor)) as real / 100.0
  }

  function FeeRate(rail: Rail): real {
    if rail.Card? then 0.055 else 0.05
  }

  function FeeFloor(rail: Rail): real {
    if rail.Card? then 0.80 else 0.0
  }

  /** The deposit fee on top of a credit. */
  function DepositFee(credit: real, rail: Rail): real {
    var percentage := CentsUp(FeeRate(rail) * credit);
    if percentage >= FeeFloor(rail) then percentage else FeeFloor(rail)
  }

  /** What Stripe collects for a credit. */
  function Gross(credit: real, rail: Rail): real {
    credit + DepositFee(credit, rail)
  }

  lemma WholeSum(a: real, b: real)
    requires Whole(b)
    ensures Whole(a + b) <==> Whole(a)
  {
    var n := (b * 100.0).Floor;
    assert (a + b) * 100.0 == a * 100.0 + n as real;
    assert ((a + b) * 100.0).Floor == (a * 100.0).Floor + n;
  }

  lemma WholeCents(n: int)
    ensures Whole(n as real / 100.0)
  {
    assert (n as real / 100.0) * 100.0 == n as real;
  }

  lemma FeeIsWhole(credit: real, rail: Rail)
    ensures Whole(DepositFee(credit, rail))
  {
    var percentage := FeeRate(rail) * credit;
    WholeCents(-((-percentage * 100.0).Floor));
    WholeCents(80);
    WholeCents(0);
  }

  /** The fee is the least whole number of cents that is no less than the rail's percentage of the credit (five and a
      half by card, five in stablecoin) nor than the rail's floor (eighty cents by card), and the gross is the credit
      and the fee. */
  lemma FeeIsLeast(credit: real, rail: Rail, cents: int)
    ensures var fee := Gross(credit, rail) - credit;
      var percentage := if rail.Card? then 0.055 * credit else 0.05 * credit;
      var floor := if rail.Card? then 0.80 else 0.0;
      && Whole(fee) && fee >= percentage && fee >= floor
      && (cents as real / 100.0 >= percentage && cents as real / 100.0 >= floor ==> fee <= cents as real / 100.0)
  {
    FeeIsWhole(credit, rail);
    var percentage := if rail.Card? then 0.055 * credit else 0.05 * credit;
    var up := -((-percentage * 100.0).Floor);
    assert CentsUp(percentage) == up as real / 100.0;
    assert (up - 1) as real < percentage * 100.0 <= up as real;
    if cents as real / 100.0 >= percentage {
      assert cents as real >= percentage * 100.0;
      assert cents >= up;
    }
  }

  /** The webhook's check, that the recomputed gross converts to cents, lets through exactly the credits of whole
      cents: the fee itself is one. */
  lemma GrossIsWhole(credit: real, rail: Rail)
    ensures UsdToCents(Gross(credit, rail)).Some? <==> Whole(credit)
  {
    FeeIsWhole(credit, rail);
    WholeSum(credit, DepositFee(credit, rail));
  }

  /** What a transaction's caller has checked of the amounts it passes. A checkout records only a credit it could
      convert, autopay settings only such a top-up; a recovered charge's gross is recomputed and converted; a declined
      charge is recorded for the credit the router itself stamped. */
  predicate Priced(op: Op) {
    match op
    case CreditPurchase(_, amount, _, _) => UsdToCents(amount).Some?
    case ConfigureAutopay(_, _, topup) => UsdToCents(topup).Some?
    case SettleAutopay(_, recovered) => recovered.Some? ==> UsdToCents(Gross(recovered.value.amount, Card)).Some?
    case RecordCharge(_, _, amount, _) => UsdToCents(amount).Some?
    case _ => true
  }

  ghost predicate CreditsWhole(ledger: seq<Entry>) {
    forall e :: e in ledger && CreditIntent(e).Some? ==> Whole(e.amount)
  }

  ghost predicate ChargesWhole(charges: map<ChargeId, Charge>) {
    forall id :: id in charges ==> Whole(charges[id].amount)
  }

  ghost predicate TopupsWhole(users: map<UserId, Account>) {
    forall u :: u in users && users[u].topup.Some? ==> Whole(users[u].topup.value)
  }

  /** No credit, charge or standing top-up in the tables is finer than a cent. */
  ghost predicate CentsOnly(db: Db) {
    CreditsWhole(db.ledger) && ChargesWhole(db.charges) && TopupsWhole(db.users)
  }

  lemma PostCents(db: Db, u: UserId, kind: EntryKind, amount: real, anchor: Option<Anchor>, intent: Option<Intent>)
    requires CentsOnly(db) && (kind in {Purchase, Autopay} ==> Whole(amount))
    ensures CentsOnly(Post(db, u, kind, amount, anchor, intent))
  {
    if u in db.users {
      var e := Post(db, u, kind, amount, anchor, intent).ledger[|db.ledger|];
      assert forall x :: x in db.ledger + [e] <==> x in db.ledger || x == e;
    }
  }

  /** Tombstones add a refund at most. */
  lemma StonesCents(db: Db, u: UserId, p: Intent, amount: real, stones: seq<Tombstone>)
    requires CentsOnly(db) && u in db.users
    ensures CentsOnly(ApplyStones(db, u, p, amount, stones))
  {
    var end := ApplyStones(db, u, p, amount, stones);
    StonesOutcome(db, u, p, amount, stones);
    if AnyTaker(db.ledger, p, amount, stones) {
      var t :| t in stones && Taker(db.ledger, p, amount, t) &&
        end.ledger ==
            db.ledger + [Entry(u, Refund, -amount, end.users[u].balance, Some(OfObject(t.objectId)), Some(p))];
      assert forall x :: x in end.ledger ==> x in db.ledger || x.kind == Refund;
    }
  }

  lemma PurchaseCents(op: Op, db: Db)
    requires CentsOnly(db) && Priced(op) && op.CreditPurchase?
    ensures CentsOnly(Apply(op, db))
  {
    PurchaseShape(op, db);
    var posted := Post(db, op.user, Purchase, op.amount, Some(OfSession(op.session)), op.paid);
    PostCents(db, op.user, Purchase, op.amount, Some(OfSession(op.session)), op.paid);
    if op.user in db.users && op.paid.Some? {
      StonesCents(posted, op.user, op.paid.value, op.amount, Unapplied(db.tombstones, op.paid.value));
    }
  }

  lemma SettleCents(op: Op, db: Db)
    requires CentsOnly(db) && Priced(op) && op.SettleAutopay?
    ensures CentsOnly(Apply(op, db))
  {
    SettleShape(op, db);
    var due := Due(op, db);
    if due.Some? {
      assert Whole(due.value.amount) by {
        if op.recovered.Some? { GrossIsWhole(op.recovered.value.amount, Card); }
      }
      if Agrees(op, due.value) && ArmedUser(db, due.value.user) {
        ChargeCents(db, op.intent, due.value);
      }
    }
  }

  lemma ChargeCents(db: Db, p: Intent, c: Charge)
    requires CentsOnly(db) && Whole(c.amount) && c.user in db.users
    ensures CentsOnly(CreditCharge(db, p, c, Unapplied(db.tombstones, p)))
  {
    var cleared := db.(users := db.users[c.user := db.users[c.user].(failures := 0)]);
    var marked := SetCharge(cleared, Stripe(p), c.(status := Succeeded));
    PostCents(marked, c.user, Autopay, c.amount, Some(OfIntent(p)), None);
    StonesCents(PostCharge(db, p, c), c.user, p, c.amount, Unapplied(db.tombstones, p));
  }

  lemma ReverseCents(op: Op, db: Db)
    requires CentsOnly(db) && op.ReversePurchase?
    ensures CentsOnly(Apply(op, db))
  {
    ReverseShape(op, db);
    if ReversalApplies(db, op.intent, op.objectId) {
      var c := Credited(db.ledger, op.intent).value;
      PostCents(db, c.user, Refund, -c.amount, Some(OfObject(op.objectId)), Some(op.intent));
    }
  }

  lemma PlainCents(op: Op, db: Db)
    requires CentsOnly(db) && Plain(op)
    ensures CentsOnly(Apply(op, db))
  {
    var kind, amount := PlainShape(op, db);
    if Apply(op, db) != db {
      PostCents(db, op.user, kind, amount, None, None);
    }
  }

  /** The transactions that post no row. */
  lemma QuietCents(op: Op, db: Db)
    requires CentsOnly(db) && Priced(op)
    requires !op.CreditPurchase? && !op.SettleAutopay? && !op.ReversePurchase? && !Plain(op)
    ensures CentsOnly(Apply(op, db))
  {
  }

  /** So whatever passes the door keeps the tables in whole cents. */
  lemma ApplyCents(op: Op, db: Db)
    requires CentsOnly(db) && Priced(op)
    ensures CentsOnly(Apply(op, db))
  {
    match op
    case CreditPurchase(_, _, _, _) => PurchaseCents(op, db);
    case SettleAutopay(_, _) => SettleCents(op, db);
    case ReversePurchase(_, _) => ReverseCents(op, db);
    case GrantPromo(_, _) => PlainCents(op, db);
    case WriteOffReceivable(_) => PlainCents(op, db);
    case RecordRecovery(_, _) => PlainCents(op, db);
    case DebitUsage(_, _) => PlainCents(op, db);
    case _ => QuietCents(op, db);
  }

  lemma CreditedWhole(db: Db, p: Intent)
    requires CentsOnly(db) && Credited(db.ledger, p).Some?
    ensures Whole(Credited(db.ledger, p).value.amount)
  {
    CreditedIs(db.ledger, p);
  }
}
