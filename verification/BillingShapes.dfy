/** The few shapes a whole transaction's effect can take. */
module BillingShapes {
  import opened Wrappers
  import opened Billing
  import opened BillingStones

  lemma PurchaseShape(op: Op, db: Db)
    requires op.CreditPurchase?
    ensures var credits := op.amount > 0.0 && !Anchored(db.ledger, OfSession(op.session)) && op.user in db.users;
      var stones := if op.paid.Some? then Unapplied(db.tombstones, op.paid.value) else [];
      Apply(op, db) == if credits then CreditSession(db, op.user, op.amount, op.session, op.paid, stones) else db
  {
  }

  ghost predicate ReversalApplies(db: Db, p: Intent, o: ObjectId) {
    Credited(db.ledger, p).Some? && !AlreadyReversed(db.ledger, o, p)
  }

  lemma ReverseShape(op: Op, db: Db)
    requires op.ReversePurchase?
    ensures Apply(op, db) ==
      if ReversalApplies(db, op.intent, op.objectId)
      then var c := Credited(db.ledger, op.intent).value;
           Post(db, c.user, Refund, -c.amount, Some(OfObject(op.objectId)), Some(op.intent))
      else db
  {
  }

  /** The charge a settlement acts on, if it acts at all. */
  ghost function Due(op: Op, db: Db): Option<Charge>
    requires op.SettleAutopay?
  {
    var charge := ReadCharge(op, db);
    if charge.None? && op.recovered.Some? && HasPending(db.charges, op.recovered.value.user) then None
    else
      var row := SettledCharge(op, charge);
      if row.Some? && row.value.status == Pending then row else None
  }

  ghost predicate Agrees(op: Op, c: Charge)
    requires op.SettleAutopay?
  {
    op.recovered.Some? ==> op.recovered.value == Recovered(c.user, c.amount, c.gross)
  }

  ghost predicate ArmedUser(db: Db, u: UserId) {
    u in db.users && Armed(db.users[u])
  }

  /** Settlement refuses, withholds or credits; a charge that is not due is left alone. */
  lemma SettleShape(op: Op, db: Db)
    requires op.SettleAutopay?
    ensures var due := Due(op, db);
      Apply(op, db) ==
      if due.None? then db
      else if !Agrees(op, due.value) then SetCharge(db, Stripe(op.intent), due.value.(status := Failed))
      else if !ArmedUser(db, due.value.user) then SetCharge(db, Stripe(op.intent), due.value.(status := Withheld))
      else CreditCharge(db, op.intent, due.value, Unapplied(db.tombstones, op.intent))
  {
  }

  ghost predicate Plain(op: Op) {
    op.GrantPromo? || op.WriteOffReceivable? || op.RecordRecovery? || op.DebitUsage?
  }

  /** Promo, write-off, recovery and usage post at most one unanchored row. */
  lemma PlainShape(op: Op, db: Db) returns (kind: EntryKind, amount: real)
    requires Plain(op)
    ensures kind in {Promo, WriteOff, Recovery, Usage}
    ensures Apply(op, db) == db || (op.user in db.users && Apply(op, db) == Post(db, op.user, kind, amount, None, None))
    ensures Apply(op, db) != db ==>
      var after := db.users[op.user].balance + amount;
      if kind == Usage then amount < 0.0 <= after else amount > 0.0 && (kind == WriteOff ==> after == 0.0)
  {
    match op
    case GrantPromo(_, _) => kind, amount := Promo, op.amount;
    case WriteOffReceivable(u) => kind, amount := WriteOff, if u in db.users then -db.users[u].balance else 0.0;
    case RecordRecovery(_, _) => kind, amount := Recovery, op.amount;
    case DebitUsage(_, debit) => kind, amount := Usage, -debit;
  }
}
