/** The prepaid-credit tables and what each transaction of `billing.rs` does to them.

    A transaction is split the way the database sees it: `Observe` is what its queries read,
    `Effect` is what its statements then write, decided on what was read. `Apply` is the two in
    one go, the transaction run alone. `BillingProtocol` interleaves them under locks. */
module Billing {
  import opened Wrappers

  type UserId = nat

  /** A Stripe id belongs to the customer Stripe made it for; the router never reads the tag. */
  datatype Session = Session(customer: UserId, serial: nat)
  datatype Intent = Intent(customer: UserId, serial: nat)
  datatype ChargeKey = ChargeKey(customer: UserId, serial: nat)

  /** A dispute id or a charge id: what a reversal is anchored on. */
  datatype ObjectId = ObjectId(serial: nat)

  /** The unique `stripe_session_id` column: a session, an autopay intent, or a reversing object. */
  datatype Anchor = OfSession(session: Session) | OfIntent(intent: Intent) | OfObject(objectId: ObjectId)

  datatype EntryKind = Purchase | Promo | Usage | Refund | Autopay | WriteOff | Recovery

  datatype Entry = Entry(user: UserId, kind: EntryKind, amount: real, balanceAfter: real,
                         anchor: Option<Anchor>, intent: Option<Intent>)

  datatype FreezeReason = Dispute | Operator

  datatype Account = Account(balance: real, frozen: Option<FreezeReason>, autopayEnabled: bool,
                             threshold: Option<real>, topup: Option<real>, failures: nat)

  datatype Tombstone = Tombstone(objectId: ObjectId, intent: Intent, dispute: bool,
                                 cents: Option<int>, currency: Option<string>, applied: bool)

  datatype ChargeId = Local(key: ChargeKey) | Stripe(intent: Intent)
  datatype ChargeStatus = Pending | Succeeded | Failed | Withheld
  datatype Charge = Charge(user: UserId, amount: real, gross: real, status: ChargeStatus)

  /** The committed tables. Tombstones are kept oldest first. */
  datatype Db = Db(users: map<UserId, Account>, ledger: seq<Entry>,
                   tombstones: seq<Tombstone>, charges: map<ChargeId, Charge>)

  datatype Credit = Credit(user: UserId, amount: real)

  // ---------------------------------------------------------------- reading the tables

  /** The PaymentIntent a credit row belongs to: a purchase names it, an autopay row is anchored on it. */
  function CreditIntent(e: Entry): Option<Intent> {
    if e.kind == Purchase then e.intent
    else if e.kind == Autopay && e.anchor.Some? && e.anchor.value.OfIntent? then Some(e.anchor.value.intent)
    else None
  }

  predicate IsCredit(e: Entry, p: Intent) {
    CreditIntent(e) == Some(p)
  }

  predicate IsRefund(e: Entry, p: Intent) {
    e.kind == Refund && e.intent == Some(p)
  }

  /** The oldest credit of an intent. */
  function Credited(ledger: seq<Entry>, p: Intent): Option<Credit> {
    if ledger == [] then None
    else if IsCredit(ledger[0], p) then Some(Credit(ledger[0].user, ledger[0].amount))
    else Credited(ledger[1..], p)
  }

  predicate Anchored(ledger: seq<Entry>, a: Anchor) {
    exists e :: e in ledger && e.anchor == Some(a)
  }

  predicate Refunded(ledger: seq<Entry>, p: Intent) {
    exists e :: e in ledger && IsRefund(e, p)
  }

  predicate HasRefund(ledger: seq<Entry>, u: UserId) {
    exists e :: e in ledger && e.user == u && e.kind == Refund
  }

  predicate HasPending(charges: map<ChargeId, Charge>, u: UserId) {
    exists id :: id in charges && charges[id].user == u && charges[id].status == Pending
  }

  function Unapplied(tombstones: seq<Tombstone>, p: Intent): seq<Tombstone> {
    if tombstones == [] then []
    else if tombstones[0].intent == p && !tombstones[0].applied then [tombstones[0]] + Unapplied(tombstones[1..], p)
    else Unapplied(tombstones[1..], p)
  }

  /** Whole cents, half rounded up: `ROUND(amount * 100)::bigint` on a positive amount. */
  function Cents(amount: real): int {
    (amount * 100.0 + 0.5).Floor
  }

  predicate Covers(cents: Option<int>, currency: Option<string>, amount: real) {
    currency == Some("usd") && cents.Some? && cents.value >= Cents(amount)
  }

  predicate StoneCovers(t: Tombstone, amount: real) {
    Covers(t.cents, t.currency, amount)
  }

  /** `AUTOPAY_ELIGIBILITY_PREDICATE` with the off switch. */
  predicate Armed(a: Account) {
    a.autopayEnabled && a.frozen == None && a.balance >= 0.0 && a.failures < 3
  }

  // ---------------------------------------------------------------- single writes

  /** Move a balance and append the row that snapshots it. Nothing else moves money. */
  function Post(db: Db, u: UserId, kind: EntryKind, amount: real, anchor: Option<Anchor>, intent: Option<Intent>): Db {
    if u !in db.users then db
    else
      var after := db.users[u].balance + amount;
      db.(users := db.users[u := db.users[u].(balance := after)],
          ledger := db.ledger + [Entry(u, kind, amount, after, anchor, intent)])
  }

  /** First writer wins. */
  function FreezeUser(db: Db, u: UserId, reason: FreezeReason): Db {
    if u in db.users && db.users[u].frozen == None
    then db.(users := db.users[u := db.users[u].(frozen := Some(reason))])
    else db
  }

  function StampObject(tombstones: seq<Tombstone>, o: ObjectId): (r: seq<Tombstone>)
    ensures |r| == |tombstones|
    ensures forall i :: 0 <= i < |r| ==>
      r[i] == tombstones[i].(applied := (tombstones[i].applied || tombstones[i].objectId == o))
  {
    seq(|tombstones|, i requires 0 <= i < |tombstones| =>
      tombstones[i].(applied := (tombstones[i].applied || tombstones[i].objectId == o)))
  }

  function StampIntent(tombstones: seq<Tombstone>, p: Intent): (r: seq<Tombstone>)
    ensures |r| == |tombstones|
    ensures forall i :: 0 <= i < |r| ==>
      r[i] == tombstones[i].(applied := (tombstones[i].applied || tombstones[i].intent == p))
  {
    seq(|tombstones|, i requires 0 <= i < |tombstones| =>
      tombstones[i].(applied := (tombstones[i].applied || tombstones[i].intent == p)))
  }

  /** The NULL-safe maximum two reports of one object merge to. */
  function MaxCents(a: Option<int>, b: Option<int>): Option<int> {
    match (a, b)
    case (Some(x), Some(y)) => Some(if x >= y then x else y)
    case (Some(x), None) => a
    case (None, _) => b
  }

  predicate SameAnchors(t: Tombstone, p: Intent, dispute: bool, currency: Option<string>) {
    t.intent == p && t.dispute == dispute && t.currency == currency
  }

  /** Write or merge a tombstone. A reused object id whose anchors differ changes nothing. */
  function InsertObserved(tombstones: seq<Tombstone>, o: ObjectId, p: Intent, dispute: bool,
                          cents: Option<int>, currency: Option<string>): seq<Tombstone>
  {
    if tombstones == [] then [Tombstone(o, p, dispute, cents, currency, false)]
    else
      var t := tombstones[0];
      if t.objectId != o then [t] + InsertObserved(tombstones[1..], o, p, dispute, cents, currency)
      else if !t.applied && SameAnchors(t, p, dispute, currency)
      then [t.(cents := MaxCents(t.cents, cents))] + tombstones[1..]
      else tombstones
  }

  // ---------------------------------------------------------------- consuming tombstones

  predicate Discharged(t: Tombstone, amount: real) {
    t.dispute || StoneCovers(t, amount)
  }

  predicate AlreadyReversed(ledger: seq<Entry>, o: ObjectId, p: Intent) {
    Anchored(ledger, OfObject(o)) || Refunded(ledger, p)
  }

  /** One turn of the loop over the claimed tombstones. */
  function ApplyStone(db: Db, u: UserId, p: Intent, amount: real, t: Tombstone): Db {
    var frozen := if t.dispute then FreezeUser(db, u, Dispute) else db;
    var reversed :=
      if StoneCovers(t, amount) && !AlreadyReversed(frozen.ledger, t.objectId, p)
      then Post(frozen, u, Refund, -amount, Some(OfObject(t.objectId)), Some(p))
      else frozen;
    if Discharged(t, amount) then reversed.(tombstones := StampObject(reversed.tombstones, t.objectId)) else reversed
  }

  function ApplyStones(db: Db, u: UserId, p: Intent, amount: real, stones: seq<Tombstone>): Db
    decreases |stones|
  {
    if stones == [] then db
    else ApplyStones(ApplyStone(db, u, p, amount, stones[0]), u, p, amount, stones[1..])
  }

  // ---------------------------------------------------------------- the transactions

  datatype Recovered = Recovered(user: UserId, amount: real, gross: real)

  datatype Op =
    | CreditPurchase(user: UserId, amount: real, session: Session, paid: Option<Intent>)
    | GrantPromo(user: UserId, amount: real)
    | ReversePurchase(intent: Intent, objectId: ObjectId)
    | ResolveReversal(objectId: ObjectId, intent: Intent, dispute: bool, cents: Option<int>, currency: Option<string>)
    | MarkApplied(intent: Intent)
    | FreezeAccount(user: UserId, reason: FreezeReason)
    | UnfreezeAccount(user: UserId)
    | WriteOffReceivable(user: UserId)
    | RecordRecovery(user: UserId, amount: real)
    | ClaimAutopay(user: UserId, amount: real, gross: real, key: ChargeKey)
    | AttachAutopay(key: ChargeKey, intent: Intent)
    | DropClaim(key: ChargeKey)
    | RecordCharge(intent: Intent, user: UserId, amount: real, gross: real)
    | SettleAutopay(intent: Intent, recovered: Option<Recovered>)
    | FailAutopay(charge: ChargeId)
    | BumpFailure(user: UserId)
    | ConfigureAutopay(user: UserId, threshold: real, topup: real)
    | DisableAutopay(user: UserId)
    | DebitUsage(user: UserId, debit: real)

  /** What the callers and Stripe guarantee: an id is used for the customer it was made for, and
      a charge row is a positive credit no larger than what was collected (the table's CHECK). */
  predicate Valid(op: Op) {
    match op
    case CreditPurchase(u, _, s, p) => s.customer == u && (p.Some? ==> p.value.customer == u)
    case ClaimAutopay(u, amount, gross, key) => key.customer == u && 0.0 < amount <= gross
    case AttachAutopay(key, p) => key.customer == p.customer
    case RecordCharge(p, u, amount, gross) => u == p.customer && 0.0 < amount <= gross
    case SettleAutopay(p, r) => r.Some? ==> r.value.user == p.customer && 0.0 < r.value.amount <= r.value.gross
    case _ => true
  }

  datatype View = View(charge: Option<Charge>, taken: bool, credited: Option<Credit>, seen: bool,
                       refunded: bool, stones: seq<Tombstone>, account: Option<Account>, reviewable: bool)

  function ChargeOf(op: Op): Option<ChargeId> {
    match op
    case ClaimAutopay(_, _, _, key) => Some(Local(key))
    case AttachAutopay(key, _) => Some(Local(key))
    case DropClaim(key) => Some(Local(key))
    case RecordCharge(p, _, _, _) => Some(Stripe(p))
    case SettleAutopay(p, _) => Some(Stripe(p))
    case FailAutopay(id) => Some(id)
    case _ => None
  }

  /** The intent whose credits, refunds and tombstones the transaction deals with. */
  function IntentOf(op: Op): Option<Intent> {
    match op
    case CreditPurchase(_, _, _, p) => p
    case ReversePurchase(p, _) => Some(p)
    case ResolveReversal(_, p, _, _, _) => Some(p)
    case MarkApplied(p) => Some(p)
    case SettleAutopay(p, _) => Some(p)
    case AttachAutopay(_, p) => Some(p)
    case _ => None
  }

  function AnchorOf(op: Op): Option<Anchor> {
    match op
    case CreditPurchase(_, _, s, _) => Some(OfSession(s))
    case ReversePurchase(_, o) => Some(OfObject(o))
    case _ => None
  }

  /** The charge row settlement works on: the stored one, or the one recovered from metadata. */
  function SettledCharge(op: Op, charge: Option<Charge>): Option<Charge>
    requires op.SettleAutopay?
  {
    if charge.None? && op.recovered.Some?
    then Some(Charge(op.recovered.value.user, op.recovered.value.amount, op.recovered.value.gross, Pending))
    else charge
  }

  /** The user the transaction acts on, once its first reads have named it. */
  function UserOf(op: Op, charge: Option<Charge>, credited: Option<Credit>): Option<UserId> {
    match op
    case CreditPurchase(u, _, _, _) => Some(u)
    case GrantPromo(u, _) => Some(u)
    case ReversePurchase(_, _) => if credited.Some? then Some(credited.value.user) else None
    case FreezeAccount(u, _) => Some(u)
    case UnfreezeAccount(u) => Some(u)
    case WriteOffReceivable(u) => Some(u)
    case RecordRecovery(u, _) => Some(u)
    case ClaimAutopay(u, _, _, _) => Some(u)
    case RecordCharge(_, u, _, _) => Some(u)
    case SettleAutopay(_, _) =>
      var row := SettledCharge(op, charge);
      if row.Some? then Some(row.value.user) else None
    case FailAutopay(_) => if charge.Some? then Some(charge.value.user) else None
    case BumpFailure(u) => Some(u)
    case ConfigureAutopay(u, _, _) => Some(u)
    case DisableAutopay(u) => Some(u)
    case DebitUsage(u, _) => Some(u)
    case _ => None
  }

  function ReadCharge(op: Op, db: Db): Option<Charge> {
    var id := ChargeOf(op);
    if id.Some? && id.value in db.charges then Some(db.charges[id.value]) else None
  }

  function ReadCredited(op: Op, db: Db): Option<Credit> {
    var p := IntentOf(op);
    if p.Some? then Credited(db.ledger, p.value) else None
  }

  predicate ReadTaken(user: Option<UserId>, db: Db) {
    user.Some? && HasPending(db.charges, user.value)
  }

  predicate ReadSeen(op: Op, db: Db) {
    AnchorOf(op).Some? && Anchored(db.ledger, AnchorOf(op).value)
  }

  predicate ReadRefunded(op: Op, db: Db) {
    IntentOf(op).Some? && Refunded(db.ledger, IntentOf(op).value)
  }

  function ReadStones(op: Op, db: Db): seq<Tombstone> {
    if IntentOf(op).Some? then Unapplied(db.tombstones, IntentOf(op).value) else []
  }

  function ReadAccount(user: Option<UserId>, db: Db): Option<Account> {
    if user.Some? && user.value in db.users then Some(db.users[user.value]) else None
  }

  predicate ReadReviewable(user: Option<UserId>, db: Db) {
    user.Some? && HasRefund(db.ledger, user.value)
  }

  /** Everything the transaction reads, read at one moment. */
  function Observe(op: Op, db: Db): View {
    var charge := ReadCharge(op, db);
    var credited := ReadCredited(op, db);
    var user := UserOf(op, charge, credited);
    View(charge, ReadTaken(user, db), credited, ReadSeen(op, db), ReadRefunded(op, db),
         ReadStones(op, db), ReadAccount(user, db), ReadReviewable(user, db))
  }

  /** Three strikes turn autopay off. */
  function Strike(a: Account): Account {
    a.(failures := a.failures + 1, autopayEnabled := (a.autopayEnabled && a.failures + 1 < 3))
  }

  function StrikeUser(db: Db, u: UserId): Db {
    if u in db.users then db.(users := db.users[u := Strike(db.users[u])]) else db
  }

  function SetCharge(db: Db, id: ChargeId, c: Charge): Db {
    db.(charges := db.charges[id := c])
  }

  /** A paid session's credit, and whatever the reversals observed before it take back. */
  function CreditSession(db: Db, u: UserId, amount: real, s: Session, p: Option<Intent>, stones: seq<Tombstone>): Db {
    var posted := Post(db, u, Purchase, amount, Some(OfSession(s)), p);
    if p.Some? then ApplyStones(posted, u, p.value, amount, stones) else posted
  }

  function PostCharge(db: Db, p: Intent, c: Charge): Db {
    var cleared := if c.user in db.users then db.(users := db.users[c.user := db.users[c.user].(failures := 0)])
                   else db;
    Post(SetCharge(cleared, Stripe(p), c.(status := Succeeded)), c.user, Autopay, c.amount, Some(OfIntent(p)), None)
  }

  /** A settled recharge's credit, likewise. */
  function CreditCharge(db: Db, p: Intent, c: Charge, stones: seq<Tombstone>): Db {
    ApplyStones(PostCharge(db, p, c), c.user, p, c.amount, stones)
  }

  function Effect(op: Op, v: View, db: Db): Db {
    match op
    case CreditPurchase(u, amount, s, p) =>
      if amount <= 0.0 || v.seen || v.account.None? then db
      else CreditSession(db, u, amount, s, p, v.stones)
    case GrantPromo(u, amount) =>
      if amount <= 0.0 then db else Post(db, u, Promo, amount, None, None)
    case ReversePurchase(p, o) =>
      if v.credited.None? || v.seen || v.refunded then db
      else Post(db, v.credited.value.user, Refund, -v.credited.value.amount, Some(OfObject(o)), Some(p))
    case ResolveReversal(o, p, dispute, cents, currency) =>
      if v.credited.Some? then db
      else db.(tombstones := InsertObserved(db.tombstones, o, p, dispute, cents, currency))
    case MarkApplied(p) => db.(tombstones := StampIntent(db.tombstones, p))
    case FreezeAccount(u, reason) => FreezeUser(db, u, reason)
    case UnfreezeAccount(u) =>
      if u in db.users then db.(users := db.users[u := db.users[u].(frozen := None)]) else db
    case WriteOffReceivable(u) =>
      if v.account.None? || v.account.value.balance >= 0.0 then db
      else Post(db, u, WriteOff, -v.account.value.balance, None, None)
    case RecordRecovery(u, amount) =>
      if amount <= 0.0 || v.account.None? then db
      else if v.account.value.frozen == None && !v.reviewable && v.account.value.balance >= 0.0 then db
      else Post(db, u, Recovery, amount, None, None)
    case ClaimAutopay(u, amount, gross, key) =>
      if v.account.Some? && Armed(v.account.value) && v.account.value.topup == Some(amount)
         && v.account.value.threshold.Some? && v.account.value.balance < v.account.value.threshold.value
         && v.charge.None? && !v.taken
      then SetCharge(db, Local(key), Charge(u, amount, gross, Pending))
      else db
    case AttachAutopay(key, p) =>
      if v.charge.None? || Stripe(p) in db.charges then db
      else db.(charges := (db.charges - {Local(key)})[Stripe(p) := v.charge.value])
    case DropClaim(key) => db.(charges := db.charges - {Local(key)})
    case RecordCharge(p, u, amount, gross) =>
      if v.charge.Some? || v.taken then db else SetCharge(db, Stripe(p), Charge(u, amount, gross, Pending))
    case SettleAutopay(p, recovered) => Settle(op, v, db)
    case FailAutopay(id) =>
      if v.charge.None? || v.charge.value.status != Pending then db
      else StrikeUser(SetCharge(db, id, v.charge.value.(status := Failed)), v.charge.value.user)
    case BumpFailure(u) => StrikeUser(db, u)
    case ConfigureAutopay(u, threshold, topup) =>
      if u in db.users
      then db.(users := db.users[u := db.users[u].(autopayEnabled := true, threshold := Some(threshold),
                                                   topup := Some(topup), failures := 0)])
      else db
    case DisableAutopay(u) =>
      if u in db.users then db.(users := db.users[u := db.users[u].(autopayEnabled := false)]) else db
    case DebitUsage(u, debit) =>
      if v.account.None? || debit <= 0.0 || v.account.value.balance < debit then db
      else Post(db, u, Usage, -debit, None, None)
  }

  /** Settlement: refuse a stored row that disagrees, withhold from an account that is not armed,
      credit otherwise. */
  function Settle(op: Op, v: View, db: Db): Db
    requires op.SettleAutopay?
  {
    var p := op.intent;
    if v.charge.None? && op.recovered.Some? && v.taken then db
    else
      var row := SettledCharge(op, v.charge);
      if row.None? || row.value.status != Pending then db
      else if op.recovered.Some? && op.recovered.value != Recovered(row.value.user, row.value.amount, row.value.gross)
      then SetCharge(db, Stripe(p), row.value.(status := Failed))
      else if v.account.None? || !Armed(v.account.value)
      then SetCharge(db, Stripe(p), row.value.(status := Withheld))
      else CreditCharge(db, p, row.value, v.stones)
  }

  /** The transaction run alone. */
  function Apply(op: Op, db: Db): Db {
    Effect(op, Observe(op, db), db)
  }

  /** The states every serial run goes through. */
  function Serial(db: Db, ops: seq<Op>): Db
    decreases |ops|
  {
    if ops == [] then db else Serial(Apply(ops[0], db), ops[1..])
  }
}
