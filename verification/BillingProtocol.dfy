/** The transactions of `billing.rs` as the database runs them: interleaved, one statement at a time, each
    deciding at commit on what it read earlier. Locks are part of the state.

    Every transaction walks the same eleven stages, taking at each lock stage the exclusive lock it needs
    there, if any: charge rows (0, 1), the pending slot of a user (3), the user's advisory lock (5), the
    PaymentIntent's (6), the user row (8). It reads at stages 2, 4, 7 and 9 and commits at 10.

    Two waits are out of that order. A charge row references its user's row, so inserting one (4) pins the
    user row until the transaction is over: against `FOR UPDATE`, which write-offs and recoveries lock the row
    with, though not against an `UPDATE`. And an insert that comes to the one-pending index (3) waits there for
    whoever is rewriting the user's pending row. `BillingDeadlock` says what comes of them. */
module BillingProtocol {
  import opened Wrappers
  import opened Billing
  import opened BillingStones
  import opened BillingShapes
  import opened BillingInvariants
  import opened BillingLaws

  type TxId = nat

  datatype Lock =
    | ChargeRow(id: ChargeId)
    | PendingSlot(user: UserId)
    | UserLock(user: UserId)
    | IntentLock(intent: Intent)
    | UserRow(user: UserId)

  function Rank(l: Lock): (r: nat)
    ensures r <= 8
  {
    match l
    case ChargeRow(id) => if id.Local? then 0 else 1
    case PendingSlot(_) => 3
    case UserLock(_) => 5
    case IntentLock(_) => 6
    case UserRow(_) => 8
  }

  const COMMIT: nat := 10

  /** Statements that read and write in one go; they only have to wait for the rows they write. */
  predicate SingleStatement(op: Op) {
    op.ClaimAutopay? || op.AttachAutopay? || op.DropClaim? || op.RecordCharge? || op.FreezeAccount?
        || op.UnfreezeAccount? || op.MarkApplied?
    || op.BumpFailure? || op.ConfigureAutopay? || op.DisableAutopay?
  }

  /** Settlement goes on to credit only from a pending row that agrees with what was collected. */
  predicate Proceeds(op: Op, charge: Option<Charge>)
    requires op.SettleAutopay?
  {
    var row := SettledCharge(op, charge);
    row.Some? && row.value.status == Pending
    && (op.recovered.Some? ==> op.recovered.value == Recovered(row.value.user, row.value.amount, row.value.gross))
  }

  predicate LocksUser(op: Op, charge: Option<Charge>) {
    op.CreditPurchase? || op.GrantPromo? || op.ReversePurchase? || op.WriteOffReceivable? || op.RecordRecovery?
    || op.DebitUsage? || (op.SettleAutopay? && Proceeds(op, charge))
  }

  predicate LocksIntent(op: Op, charge: Option<Charge>) {
    op.CreditPurchase? || op.ResolveReversal? || op.MarkApplied? || (op.SettleAutopay? && Proceeds(op, charge))
  }

  predicate LocksRow(op: Op, charge: Option<Charge>) {
    LocksUser(op, charge) || op.FreezeAccount? || op.UnfreezeAccount? || op.FailAutopay?
    || op.BumpFailure? || op.ConfigureAutopay? || op.DisableAutopay?
  }

  /** The exclusive lock a transaction takes at a stage, named by what it has read by then. */
  function LockAt(op: Op, charge: Option<Charge>, credited: Option<Credit>, stage: nat): (l: Option<Lock>)
    ensures l.Some? ==> Rank(l.value) == stage
  {
    var u := UserOf(op, charge, credited);
    match stage
    case 0 =>
      (match op
       case ClaimAutopay(_, _, _, key) => Some(ChargeRow(Local(key)))
       case AttachAutopay(key, _) => Some(ChargeRow(Local(key)))
       case DropClaim(key) => Some(ChargeRow(Local(key)))
       case FailAutopay(id) => if id.Local? then Some(ChargeRow(id)) else None
       case _ => None)
    case 1 =>
      (match op
       case AttachAutopay(_, p) => Some(ChargeRow(Stripe(p)))
       case RecordCharge(p, _, _, _) => Some(ChargeRow(Stripe(p)))
       case SettleAutopay(p, _) => Some(ChargeRow(Stripe(p)))
       case FailAutopay(id) => if id.Stripe? then Some(ChargeRow(id)) else None
       case _ => None)
    case 3 =>
      (match op
       case ClaimAutopay(u, _, _, _) => Some(PendingSlot(u))
       case RecordCharge(_, u, _, _) => Some(PendingSlot(u))
       case SettleAutopay(_, r) => if charge.None? && r.Some? then Some(PendingSlot(r.value.user)) else None
       case _ => None)
    case 5 => if u.Some? && LocksUser(op, charge) then Some(UserLock(u.value)) else None
    case 6 => if IntentOf(op).Some? && LocksIntent(op, charge) then Some(IntentLock(IntentOf(op).value)) else None
    case 8 => if u.Some? && LocksRow(op, charge) then Some(UserRow(u.value)) else None
    case _ => None
  }

  datatype Txn = Txn(op: Op, stage: nat, view: View)

  datatype System = System(db: Db, holder: map<Lock, TxId>, txns: map<TxId, Txn>)

  datatype Move = Begin(tx: TxId, op: Op) | Advance(tx: TxId) | Abort(tx: TxId)

  function Wants(t: Txn): (l: Option<Lock>)
    ensures l.Some? ==> Rank(l.value) == t.stage
  {
    LockAt(t.op, t.view.charge, t.view.credited, t.stage)
  }

  const INSERTING: nat := 4
  const ROW: nat := 8

  /** Takes the user row `FOR UPDATE`. */
  predicate TakesOutright(op: Op) {
    op.WriteOffReceivable? || op.RecordRecovery?
  }

  /** The user whose row the charge row it inserts references. For a claim that finds its user not eligible,
      which the model reads only at the commit, this is one more wait than there is. */
  function InsertsFor(op: Op, charge: Option<Charge>): Option<UserId> {
    if charge.Some? then None
    else
      match op
      case ClaimAutopay(u, _, _, _) => Some(u)
      case RecordCharge(_, u, _, _) => Some(u)
      case SettleAutopay(_, recovered) => if recovered.Some? then Some(recovered.value.user) else None
      case _ => None
  }

  /** Its insert holds this user's row against being taken outright. */
  predicate Pins(t: Txn, u: UserId) {
    INSERTING < t.stage && InsertsFor(t.op, t.view.charge) == Some(u) && !t.view.taken
  }

  /** Waiting for an exclusive lock. */
  predicate AwaitsLock(s: System, a: TxId, b: TxId)
    requires a in s.txns && b in s.txns
  {
    var l := Wants(s.txns[a]);
    l.Some? && l.value in s.holder && s.holder[l.value] == b
  }

  /** Waiting to take a user row outright that an insert has pinned. */
  predicate AwaitsPin(s: System, a: TxId, b: TxId)
    requires a in s.txns && b in s.txns
  {
    a != b && s.txns[a].stage == ROW && TakesOutright(s.txns[a].op) && Pins(s.txns[b], s.txns[a].op.user)
  }

  /** Waiting to insert a charge for a user whose row is taken outright. A taken slot refuses the insert first. */
  predicate AwaitsRow(s: System, a: TxId, b: TxId)
    requires a in s.txns && b in s.txns
  {
    var u := InsertsFor(s.txns[a].op, s.txns[a].view.charge);
    && s.txns[a].stage == INSERTING && u.Some? && !HasPending(s.db.charges, u.value)
    && UserRow(u.value) in s.holder && s.holder[UserRow(u.value)] == b && TakesOutright(s.txns[b].op)
  }

  const SLOT: nat := 3

  /** A settlement that inserts the charge it recovered. */
  predicate NewlyCharged(t: Txn) {
    t.op.SettleAutopay? && t.view.charge.None? && t.op.recovered.Some?
  }

  /** It has this pending row in hand, to rename it, to delete it or to bring it to its end. */
  predicate Rewrites(t: Txn, charges: map<ChargeId, Charge>, id: ChargeId) {
    match t.op
    case AttachAutopay(key, p) => id == Local(key) && 0 < t.stage && Stripe(p) !in charges
    case DropClaim(key) => id == Local(key) && 0 < t.stage
    case SettleAutopay(p, _) => id == Stripe(p) && 1 < t.stage
    case FailAutopay(failed) => id == failed && Rank(ChargeRow(failed)) < t.stage
    case _ => false
  }

  /** Its own key written, waiting in the one-pending index for what becomes of the user's pending row. A claim and
      the record of a declined charge look at that index first, and have nothing in hand while they wait. */
  predicate AwaitsRewrite(s: System, a: TxId, b: TxId)
    requires a in s.txns && b in s.txns
  {
    && NewlyCharged(s.txns[a]) && s.txns[a].stage == SLOT
    && exists id :: id in s.db.charges && s.db.charges[id].status == Pending
         && s.db.charges[id].user == s.txns[a].op.recovered.value.user && Rewrites(s.txns[b], s.db.charges, id)
  }

  /** Not waiting for anything somebody holds. */
  predicate CanAdvance(s: System, tx: TxId) {
    && tx in s.txns && (Wants(s.txns[tx]).Some? ==> Wants(s.txns[tx]).value !in s.holder)
    && forall b :: b in s.txns ==> !AwaitsPin(s, tx, b) && !AwaitsRow(s, tx, b) && !AwaitsRewrite(s, tx, b)
  }

  predicate Enabled(s: System, m: Move) {
    match m
    case Begin(tx, op) => tx !in s.txns && Valid(op)
    case Advance(tx) => CanAdvance(s, tx)
    case Abort(tx) => tx in s.txns
  }

  const NOTHING: View := View(None, false, None, false, false, [], None, false)

  /** The reads of one stage, against the tables committed at that moment. */
  function Load(t: Txn, db: Db): View {
    var v := t.view;
    match t.stage
    case 2 =>
      v.(charge := ReadCharge(t.op, db), credited := if t.op.ReversePurchase? then ReadCredited(t.op, db) else None)
    case 4 => v.(taken := ReadTaken(UserOf(t.op, v.charge, v.credited), db))
    case 7 => v.(seen := ReadSeen(t.op, db), refunded := ReadRefunded(t.op, db),
                 credited := if t.op.ReversePurchase? then v.credited else ReadCredited(t.op, db))
    case 9 =>
      var u := UserOf(t.op, v.charge, v.credited);
      v.(stones := ReadStones(t.op, db), account := ReadAccount(u, db), reviewable := ReadReviewable(u, db))
    case _ => v
  }

  /** Reads that end the transaction on the spot, with a rollback. */
  predicate GivesUp(t: Txn, v: View) {
    || (t.stage == 2 && t.op.ReversePurchase? && v.credited.None?)
    || (t.stage == 4 && t.op.SettleAutopay? && v.charge.None? && t.op.recovered.Some? && v.taken)
  }

  /** The writes, decided on the reads. The unique anchor index refuses a duplicate and rolls back. */
  ghost function Commit(t: Txn, db: Db): Db {
    if SingleStatement(t.op) then Apply(t.op, db)
    else
      var end := Effect(t.op, t.view, db);
      if UniqueAnchors(end.ledger) then end else db
  }

  function Finish(s: System, tx: TxId, db: Db): System {
    System(db, map l | l in s.holder && s.holder[l] != tx :: s.holder[l], s.txns - {tx})
  }

  ghost function Step(s: System, m: Move): System
    requires Enabled(s, m)
  {
    match m
    case Begin(tx, op) => s.(txns := s.txns[tx := Txn(op, 0, NOTHING)])
    case Abort(tx) => Finish(s, tx, s.db)
    case Advance(tx) =>
      var t := s.txns[tx];
      if t.stage >= COMMIT then Finish(s, tx, Commit(t, s.db))
      else
        var v := Load(t, s.db);
        if GivesUp(t, v) then Finish(s, tx, s.db)
        else
          var held := if Wants(t).Some? then s.holder[Wants(t).value := tx] else s.holder;
          System(s.db, held, s.txns[tx := Txn(t.op, t.stage + 1, v)])
  }

  ghost predicate Runs(s: System, moves: seq<Move>, end: System)
    decreases |moves|
  {
    if moves == [] then end == s
    else Enabled(s, moves[0]) && Runs(Step(s, moves[0]), moves[1..], end)
  }

  // ---------------------------------------------------------------- what each commit touches

  /** The transaction has taken this lock by the time it commits. */
  predicate Has(op: Op, v: View, l: Lock) {
    LockAt(op, v.charge, v.credited, Rank(l)) == Some(l)
  }

  ghost predicate ChargesHeld(op: Op, v: View, db: Db, db': Db) {
    && (forall id :: !Has(op, v, ChargeRow(id)) ==> ReadAt(db.charges, id) == ReadAt(db'.charges, id))
    && (forall u :: !Has(op, v, PendingSlot(u)) && HasPending(db'.charges, u) ==> HasPending(db.charges, u))
  }

  function ReadAt<K, V>(m: map<K, V>, k: K): Option<V> {
    if k in m then Some(m[k]) else None
  }

  ghost predicate UsersHeld(op: Op, v: View, db: Db, db': Db) {
    forall u :: !Has(op, v, UserRow(u)) ==> ReadAt(db.users, u) == ReadAt(db'.users, u)
  }

  ghost predicate CreditsHeld(op: Op, v: View, db: Db, db': Db) {
    forall p :: !Has(op, v, IntentLock(p)) ==> Credited(db'.ledger, p) == Credited(db.ledger, p)
  }

  ghost predicate StonesHeld(op: Op, v: View, db: Db, db': Db) {
    forall p :: !Has(op, v, IntentLock(p)) ==> Unapplied(db'.tombstones, p) == Unapplied(db.tombstones, p)
  }

  ghost predicate RefundsHeld(op: Op, v: View, db: Db, db': Db) {
    && (forall p: Intent :: !Has(op, v, UserLock(p.customer)) && Refunded(db'.ledger, p) ==> Refunded(db.ledger, p))
    && (forall u :: !Has(op, v, UserLock(u)) && HasRefund(db'.ledger, u) ==> HasRefund(db.ledger, u))
  }

  /** A commit changes only what its locks protect. */
  ghost predicate Footprint(op: Op, v: View, db: Db, db': Db) {
    ChargesHeld(op, v, db, db') && UsersHeld(op, v, db, db') && CreditsHeld(op, v, db, db')
    && StonesHeld(op, v, db, db') && RefundsHeld(op, v, db, db')
  }

  lemma {:induction false} UnappliedSame(before: seq<Tombstone>, after: seq<Tombstone>, p: Intent)
    requires |before| == |after|
    requires forall i :: 0 <= i < |before| ==>
      after[i] == before[i] || (before[i].intent != p && after[i].intent != p)
          || (before[i].applied && after[i].applied)
    ensures Unapplied(after, p) == Unapplied(before, p)
  {
    if before == [] {
    } else {
      UnappliedSame(before[1..], after[1..], p);
    }
  }

  lemma {:induction false} UnappliedOther(tombstones: seq<Tombstone>, t: Tombstone, p: Intent)
    requires t.intent != p
    ensures Unapplied(tombstones + [t], p) == Unapplied(tombstones, p)
  {
    if tombstones == [] {
    } else {
      assert (tombstones + [t])[1..] == tombstones[1..] + [t];
      UnappliedOther(tombstones[1..], t, p);
    }
  }

  /** What rows added at the end can change of what others read. */
  lemma RowsHeld(ledger: seq<Entry>, more: seq<Entry>)
    ensures forall p :: (forall e :: e in more ==> !IsCredit(e, p)) ==>
        Credited(ledger + more, p) == Credited(ledger, p)
    ensures forall p :: (forall e :: e in more ==> !IsRefund(e, p)) && Refunded(ledger + more, p) ==>
        Refunded(ledger, p)
    ensures forall u :: (forall e :: e in more ==> e.user != u || e.kind != Refund) && HasRefund(ledger + more, u) ==>
        HasRefund(ledger, u)
  {
    forall p | forall e :: e in more ==> !IsCredit(e, p)
      ensures Credited(ledger + more, p) == Credited(ledger, p)
    {
      CreditedStable(ledger, more, p);
      CreditedIs(more, p);
    }
  }

  /** A landing credit writes inside the user's and the intent's locks. */
  lemma LandingHeld(op: Op, v: View, before: Db, db: Db, u: UserId, p: Intent, amount: real, c: Entry)
    requires u in db.users && p.customer == u && c.user == u && c.kind != Refund
    requires Has(op, v, UserLock(u)) && Has(op, v, IntentLock(p)) && Has(op, v, UserRow(u))
    requires DistinctStones(before.tombstones)
    requires db.ledger == before.ledger + [c] && db.tombstones == before.tombstones
    requires CreditIntent(c) == Some(p)
    requires forall x :: x != u ==> ReadAt(db.users, x) == ReadAt(before.users, x)
    requires ChargesHeld(op, v, before, db)
    ensures Footprint(op, v, before, ApplyStones(db, u, p, amount, Unapplied(db.tombstones, p)))
  {
    var stones := Unapplied(db.tombstones, p);
    var end := ApplyStones(db, u, p, amount, stones);
    StonesOutcome(db, u, p, amount, stones);
    var more := LandedRows(before, db, end, u, p, amount, c, stones);
    RowsHeld(before.ledger, more);
    LandedStones(before.tombstones, end.tombstones, p, amount, stones);
    forall q | !Has(op, v, IntentLock(q)) ensures q != p {}
  }

  /** A landing stamps tombstones of its own intent only. */
  lemma LandedStones(before: seq<Tombstone>, after: seq<Tombstone>, p: Intent, amount: real, stones: seq<Tombstone>)
    requires DistinctStones(before) && OnlyStamped(before, after) && stones == Unapplied(before, p)
    requires forall i :: 0 <= i < |before| ==>
        (after[i].applied <==> before[i].applied || Spent(stones, amount, before[i].objectId))
    ensures forall q :: q != p ==> Unapplied(after, q) == Unapplied(before, q)
  {
    forall i | 0 <= i < |before| && after[i] != before[i] ensures before[i].intent == p {
      var t :| t in stones && t.objectId == before[i].objectId && Discharged(t, amount);
      UnappliedIs(before, p, t);
    }
    forall q | q != p ensures Unapplied(after, q) == Unapplied(before, q) {
      UnappliedSame(before, after, q);
    }
  }

  lemma LandedRows(before: Db, db: Db, end: Db, u: UserId, p: Intent, amount: real, c: Entry, stones: seq<Tombstone>)
    returns (more: seq<Entry>)
    requires u in db.users && Outcome(db, end, u, p, amount, stones) && db.ledger == before.ledger + [c]
    ensures end.ledger == before.ledger + more
    ensures forall e :: e in more ==> e == c || (e.user == u && e.kind == Refund && e.intent == Some(p))
  {
    if AnyTaker(db.ledger, p, amount, stones) {
      var t :| t in stones && Taker(db.ledger, p, amount, t) &&
        end.ledger ==
            db.ledger + [Entry(u, Refund, -amount, end.users[u].balance, Some(OfObject(t.objectId)), Some(p))];
      more := [c, end.ledger[|db.ledger|]];
    } else {
      more := [c];
    }
  }

  lemma PurchaseHeld(op: Op, db: Db)
    requires Inv(db) && Valid(op) && op.CreditPurchase?
    ensures Footprint(op, Observe(op, db), db, Apply(op, db))
  {
    PurchaseShape(op, db);
    if op.amount > 0.0 && !Anchored(db.ledger, OfSession(op.session)) && op.user in db.users {
      var posted := Post(db, op.user, Purchase, op.amount, Some(OfSession(op.session)), op.paid);
      var c := posted.ledger[|db.ledger|];
      if op.paid.Some? {
        LandingHeld(op, Observe(op, db), db, posted, op.user, op.paid.value, op.amount, c);
      } else {
        RowsHeld(db.ledger, [c]);
      }
    }
  }

  lemma SettleHeld(op: Op, db: Db)
    requires Inv(db) && Valid(op) && op.SettleAutopay?
    ensures Footprint(op, Observe(op, db), db, Apply(op, db))
  {
    SettleShape(op, db);
    var due := Due(op, db);
    if due.Some? {
      if Agrees(op, due.value) && ArmedUser(db, due.value.user) {
        SettledHeld(op, Observe(op, db), db, due.value);
      } else {
        RefusedHeld(op, Observe(op, db), db, due.value);
      }
    }
  }

  lemma RefusedHeld(op: Op, v: View, db: Db, c: Charge)
    requires op.SettleAutopay?
    ensures forall status | status != Pending ::
      Footprint(op, v, db, SetCharge(db, Stripe(op.intent), c.(status := status)))
  {
    forall status | status != Pending
      ensures Footprint(op, v, db, SetCharge(db, Stripe(op.intent), c.(status := status)))
    {
      assert Has(op, v, ChargeRow(Stripe(op.intent)));
    }
  }

  lemma SettledHeld(op: Op, v: View, db: Db, c: Charge)
    requires DistinctStones(db.tombstones) && op.SettleAutopay? && c.user == op.intent.customer && c.user in db.users
    requires Has(op, v, UserLock(c.user)) && Has(op, v, IntentLock(op.intent)) && Has(op, v, UserRow(c.user))
    ensures Footprint(op, v, db, CreditCharge(db, op.intent, c, Unapplied(db.tombstones, op.intent)))
  {
    var posted := PostCharge(db, op.intent, c);
    LandingHeld(op, v, db, posted, c.user, op.intent, c.amount, posted.ledger[|db.ledger|]);
  }

  lemma ReverseHeld(op: Op, db: Db)
    requires Conserved(db) && CreditsOwned(db.ledger) && op.ReversePurchase?
    ensures Footprint(op, Observe(op, db), db, Apply(op, db))
  {
    ReverseShape(op, db);
    if ReversalApplies(db, op.intent, op.objectId) {
      CreditedOwner(db, op.intent);
      ReverseLocks(op, Observe(op, db), Credited(db.ledger, op.intent).value);
      RefundHeld(op, Observe(op, db), db, op.intent.customer, -Credited(db.ledger, op.intent).value.amount);
    }
  }

  lemma ReverseLocks(op: Op, v: View, credit: Credit)
    requires op.ReversePurchase? && v.credited == Some(credit)
    ensures Has(op, v, UserLock(credit.user)) && Has(op, v, UserRow(credit.user))
  {
  }

  lemma RefundHeld(op: Op, v: View, db: Db, u: UserId, amount: real)
    requires op.ReversePurchase? && u in db.users && u == op.intent.customer
    requires Has(op, v, UserLock(u)) && Has(op, v, UserRow(u))
    ensures Footprint(op, v, db, Post(db, u, Refund, amount, Some(OfObject(op.objectId)), Some(op.intent)))
  {
    var end := Post(db, u, Refund, amount, Some(OfObject(op.objectId)), Some(op.intent));
    RowsHeld(db.ledger, [end.ledger[|db.ledger|]]);
  }

  lemma TombstonesHeld(op: Op, db: Db)
    requires op.ResolveReversal? || op.MarkApplied?
    ensures Footprint(op, Observe(op, db), db, Apply(op, db))
  {
    var end := Apply(op, db);
    forall q | q != op.intent ensures Unapplied(end.tombstones, q) == Unapplied(db.tombstones, q) {
      if op.MarkApplied? {
        UnappliedSame(db.tombstones, end.tombstones, q);
      } else if end != db {
        InsertShape(db.tombstones, op.objectId, op.intent, op.dispute, op.cents, op.currency);
        var front := end.tombstones[..|db.tombstones|];
        UnappliedSame(db.tombstones, front, q);
        if |end.tombstones| > |db.tombstones| {
          UnappliedOther(front, end.tombstones[|db.tombstones|], q);
        } else {
          assert front == end.tombstones;
        }
      }
    }
    forall q | !Has(op, Observe(op, db), IntentLock(q)) ensures q != op.intent {}
  }

  lemma PlainHeld(op: Op, db: Db)
    requires Plain(op)
    ensures Footprint(op, Observe(op, db), db, Apply(op, db))
  {
    var kind, amount := PlainShape(op, db);
    if Apply(op, db) != db {
      PostHeld(op, Observe(op, db), db, op.user, kind, amount);
    }
  }

  lemma PostHeld(op: Op, v: View, db: Db, u: UserId, kind: EntryKind, amount: real)
    requires u in db.users && kind in {Promo, WriteOff, Recovery, Usage} && Has(op, v, UserRow(u))
    ensures Footprint(op, v, db, Post(db, u, kind, amount, None, None))
  {
    var end := Post(db, u, kind, amount, None, None);
    RowsHeld(db.ledger, [end.ledger[|db.ledger|]]);
    assert end.ledger == db.ledger + [end.ledger[|db.ledger|]];
  }

  lemma AccountHeld(op: Op, db: Db)
    requires op.FreezeAccount? || op.UnfreezeAccount? || op.BumpFailure? || op.ConfigureAutopay? || op.DisableAutopay?
    ensures Footprint(op, Observe(op, db), db, Apply(op, db))
  {
  }

  lemma NewChargeHeld(op: Op, db: Db)
    requires op.ClaimAutopay? || op.RecordCharge?
    ensures Footprint(op, Observe(op, db), db, Apply(op, db))
  {
  }

  lemma FailHeld(op: Op, db: Db)
    requires op.FailAutopay?
    ensures Footprint(op, Observe(op, db), db, Apply(op, db))
  {
  }

  lemma AttachHeld(op: Op, db: Db)
    requires op.AttachAutopay? || op.DropClaim?
    ensures Footprint(op, Observe(op, db), db, Apply(op, db))
  {
    var end := Apply(op, db);
    forall u | HasPending(end.charges, u) ensures HasPending(db.charges, u) {
      var id :| id in end.charges && end.charges[id].user == u && end.charges[id].status == Pending;
      assert db.charges[if id in db.charges then id else Local(op.key)] == end.charges[id];
    }
  }

  lemma FootprintOf(op: Op, db: Db)
    requires Inv(db) && Valid(op)
    ensures Footprint(op, Observe(op, db), db, Apply(op, db))
  {
    match op
    case CreditPurchase(_, _, _, _) => PurchaseHeld(op, db);
    case SettleAutopay(_, _) => SettleHeld(op, db);
    case ReversePurchase(_, _) => ReverseHeld(op, db);
    case ResolveReversal(_, _, _, _, _) => TombstonesHeld(op, db);
    case MarkApplied(_) => TombstonesHeld(op, db);
    case GrantPromo(_, _) => PlainHeld(op, db);
    case WriteOffReceivable(_) => PlainHeld(op, db);
    case RecordRecovery(_, _) => PlainHeld(op, db);
    case DebitUsage(_, _) => PlainHeld(op, db);
    case ClaimAutopay(_, _, _, _) => NewChargeHeld(op, db);
    case AttachAutopay(_, _) => AttachHeld(op, db);
    case DropClaim(_) => AttachHeld(op, db);
    case RecordCharge(_, _, _, _) => NewChargeHeld(op, db);
    case FailAutopay(_) => FailHeld(op, db);
    case _ => AccountHeld(op, db);
  }
}
