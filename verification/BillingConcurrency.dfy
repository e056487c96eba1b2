/** Every interleaved run of the billing transactions is a serial run. */
module BillingConcurrency {
  import opened Wrappers
  import opened Billing
  import opened BillingStones
  import opened BillingShapes
  import opened BillingInvariants
  import opened BillingLaws
  import opened BillingProtocol

  ghost predicate Holds(t: Txn, l: Lock) {
    Rank(l) < t.stage && Has(t.op, t.view, l)
  }

  ghost predicate HoldersRun(s: System) {
    forall l :: l in s.holder ==> s.holder[l] in s.txns && Holds(s.txns[s.holder[l]], l)
  }

  ghost predicate TakenIsHeld(s: System) {
    forall tx, l :: tx in s.txns && Holds(s.txns[tx], l) ==> l in s.holder && s.holder[l] == tx
  }

  ghost predicate FreshTarget(t: Txn, db: Db) {
    && t.view.charge == ReadCharge(t.op, db)
    && (t.op.ReversePurchase? ==> t.view.credited.Some? && t.view.credited == ReadCredited(t.op, db))
  }

  ghost predicate FreshSlot(t: Txn, db: Db) {
    NewlyCharged(t) ==> !t.view.taken && !HasPending(db.charges, t.op.recovered.value.user)
  }

  ghost predicate FreshGuards(t: Txn, db: Db) {
    && (t.view.seen ==> ReadSeen(t.op, db))
    && (t.op.ReversePurchase? ==> t.view.refunded == ReadRefunded(t.op, db))
    && (t.op.ResolveReversal? ==> t.view.credited == ReadCredited(t.op, db))
  }

  ghost predicate FreshRows(t: Txn, db: Db) {
    var u := UserOf(t.op, t.view.charge, t.view.credited);
    && (LocksRow(t.op, t.view.charge) ==> t.view.account == ReadAccount(u, db))
    && (LocksIntent(t.op, t.view.charge) ==> t.view.stones == ReadStones(t.op, db))
    && (t.op.RecordRecovery? ==> t.view.reviewable == ReadReviewable(u, db))
  }

  /** What a transaction has read and will decide on still holds: its locks keep it so. */
  ghost predicate Fresh(t: Txn, db: Db) {
    SingleStatement(t.op) ||
    (&& (t.stage > 2 ==> FreshTarget(t, db))
     && (t.stage > 4 ==> FreshSlot(t, db))
     && (t.stage > 7 ==> FreshGuards(t, db))
     && (t.stage > 9 ==> FreshRows(t, db)))
  }

  ghost predicate TxnsFresh(s: System) {
    forall tx :: tx in s.txns ==> Valid(s.txns[tx].op) && s.txns[tx].stage <= COMMIT && Fresh(s.txns[tx], s.db)
  }

  ghost predicate SysInv(s: System) {
    Inv(s.db) && HoldersRun(s) && TakenIsHeld(s) && TxnsFresh(s)
  }

  // ---------------------------------------------------------------- one transaction's commit

  lemma PurchaseCommits(t: Txn, db: Db)
    requires Inv(db) && Valid(t.op) && Fresh(t, db) && t.stage == COMMIT && t.op.CreditPurchase?
    ensures Commit(t, db) == Apply(t.op, db)
  {
    ApplyKeeps(t.op, db);
    var v := Observe(t.op, db);
    if v.seen && !t.view.seen && Effect(t.op, t.view, db) != db {
      PurchaseCollides(t.op, t.view, db);
    } else {
      assert Effect(t.op, t.view, db) == Effect(t.op, v, db);
    }
  }

  /** Crediting a session twice runs into the unique index. */
  lemma PurchaseCollides(op: Op, v: View, db: Db)
    requires op.CreditPurchase? && Anchored(db.ledger, OfSession(op.session))
    requires op.amount > 0.0 && !v.seen && v.account.Some? && op.user in db.users
    ensures !UniqueAnchors(Effect(op, v, db).ledger)
  {
    var posted := Post(db, op.user, Purchase, op.amount, Some(OfSession(op.session)), op.paid);
    var n := |db.ledger|;
    var i :| 0 <= i < n && db.ledger[i].anchor == Some(OfSession(op.session));
    if op.paid.Some? {
      StonesOutcome(posted, op.user, op.paid.value, op.amount, v.stones);
    }
    var end := Effect(op, v, db);
    assert end.ledger[i].anchor == end.ledger[n].anchor;
  }

  lemma ReverseCommits(t: Txn, db: Db)
    requires Conserved(db) && CreditsOwned(db.ledger) && UniqueAnchors(Apply(t.op, db).ledger)
    requires Fresh(t, db) && t.stage == COMMIT && t.op.ReversePurchase?
    ensures Commit(t, db) == Apply(t.op, db)
  {
    var v := Observe(t.op, db);
    CreditedOwner(db, t.op.intent);
    if v.seen && !t.view.seen && !v.refunded {
      ReverseCollides(t.op, t.view, db);
    } else {
      assert Effect(t.op, t.view, db) == Effect(t.op, v, db);
    }
  }

  /** So does anchoring a second reversal on one object. */
  lemma ReverseCollides(op: Op, v: View, db: Db)
    requires op.ReversePurchase? && Anchored(db.ledger, OfObject(op.objectId))
    requires v.credited.Some? && v.credited.value.user in db.users && !v.seen && !v.refunded
    ensures !UniqueAnchors(Effect(op, v, db).ledger)
  {
    var n := |db.ledger|;
    var i :| 0 <= i < n && db.ledger[i].anchor == Some(OfObject(op.objectId));
    var end := Effect(op, v, db);
    assert end.ledger[i].anchor == end.ledger[n].anchor;
  }

  lemma SettleCommits(t: Txn, db: Db)
    requires Inv(db) && Valid(t.op) && Fresh(t, db) && t.stage == COMMIT && t.op.SettleAutopay?
    ensures Commit(t, db) == Apply(t.op, db)
  {
    ApplyKeeps(t.op, db);
    assert Effect(t.op, t.view, db) == Effect(t.op, Observe(t.op, db), db);
  }

  lemma OtherCommits(t: Txn, db: Db)
    requires Inv(db) && Valid(t.op) && Fresh(t, db) && t.stage == COMMIT
    requires t.op.GrantPromo? || t.op.WriteOffReceivable? || t.op.RecordRecovery? || t.op.DebitUsage?
             || t.op.ResolveReversal? || t.op.FailAutopay?
    ensures Commit(t, db) == Apply(t.op, db)
  {
    ApplyKeeps(t.op, db);
  }

  /** Committing on what was read is the whole transaction run now. */
  lemma CommitIsApply(t: Txn, db: Db)
    requires Inv(db) && Valid(t.op) && Fresh(t, db) && t.stage == COMMIT
    ensures Commit(t, db) == Apply(t.op, db)
  {
    if SingleStatement(t.op) {
    } else {
      match t.op
      case CreditPurchase(_, _, _, _) => PurchaseCommits(t, db);
      case ReversePurchase(_, _) =>
        ApplyKeeps(t.op, db);
        ReverseCommits(t, db);
      case SettleAutopay(_, _) => SettleCommits(t, db);
      case _ => OtherCommits(t, db);
    }
  }

  // ---------------------------------------------------------------- other transactions' commits

  /** By the time it commits, the locks a transaction has are the ones its reads of now would name. */
  lemma HasNow(t: Txn, db: Db, l: Lock)
    requires Fresh(t, db) && t.stage == COMMIT
    ensures Has(t.op, t.view, l) == Has(t.op, Observe(t.op, db), l)
  {
  }

  /** Another transaction's commit cannot stale what this one has read. */
  lemma FreshKept(t: Txn, db: Db, db': Db, op: Op, v: View)
    requires Valid(t.op) && Fresh(t, db) && Inv(db)
    requires Footprint(op, v, db, db') && db.ledger <= db'.ledger
    requires forall l :: Holds(t, l) ==> !Has(op, v, l)
    ensures Fresh(t, db')
  {
    if !SingleStatement(t.op) {
      if t.stage > 2 { TargetKept(t, db, db', op, v); }
      if t.stage > 4 { SlotKept(t, db, db', op, v); }
      if t.stage > 7 { GuardsKept(t, db, db', op, v); }
      if t.stage > 9 { RowsKept(t, db, db', op, v); }
    }
  }

  lemma TargetKept(t: Txn, db: Db, db': Db, op: Op, v: View)
    requires !SingleStatement(t.op) && t.stage > 2 && FreshTarget(t, db)
    requires ChargesHeld(op, v, db, db') && db.ledger <= db'.ledger
    requires forall l :: Holds(t, l) ==> !Has(op, v, l)
    ensures FreshTarget(t, db')
  {
    var id := ChargeOf(t.op);
    if id.Some? {
      assert Holds(t, ChargeRow(id.value));
      assert ReadAt(db.charges, id.value) == ReadAt(db'.charges, id.value);
    }
    if t.op.ReversePurchase? {
      assert db'.ledger == db.ledger + db'.ledger[|db.ledger|..];
      CreditedStable(db.ledger, db'.ledger[|db.ledger|..], t.op.intent);
    }
  }

  lemma SlotKept(t: Txn, db: Db, db': Db, op: Op, v: View)
    requires t.stage > 4 && FreshSlot(t, db) && ChargesHeld(op, v, db, db')
    requires forall l :: Holds(t, l) ==> !Has(op, v, l)
    ensures FreshSlot(t, db')
  {
    if NewlyCharged(t) {
      assert Holds(t, PendingSlot(t.op.recovered.value.user));
    }
  }

  lemma GuardsKept(t: Txn, db: Db, db': Db, op: Op, v: View)
    requires t.stage > 7 && Inv(db) && FreshTarget(t, db) && FreshGuards(t, db)
    requires CreditsHeld(op, v, db, db') && RefundsHeld(op, v, db, db') && db.ledger <= db'.ledger
    requires forall l :: Holds(t, l) ==> !Has(op, v, l)
    ensures FreshGuards(t, db')
  {
    assert forall e :: e in db.ledger ==> e in db'.ledger;
    if t.view.seen {
      var e :| e in db.ledger && e.anchor == Some(AnchorOf(t.op).value);
      assert e in db'.ledger;
    }
    if t.op.ReversePurchase? {
      var p := t.op.intent;
      CreditedOwner(db, p);
      assert Holds(t, UserLock(p.customer));
      if Refunded(db.ledger, p) {
        var e :| e in db.ledger && IsRefund(e, p);
        assert e in db'.ledger;
      }
    }
    if t.op.ResolveReversal? {
      assert Holds(t, IntentLock(t.op.intent));
    }
  }

  lemma RowsKept(t: Txn, db: Db, db': Db, op: Op, v: View)
    requires t.stage > 9 && FreshRows(t, db)
    requires UsersHeld(op, v, db, db') && StonesHeld(op, v, db, db') && RefundsHeld(op, v, db, db')
    requires db.ledger <= db'.ledger
    requires forall l :: Holds(t, l) ==> !Has(op, v, l)
    ensures FreshRows(t, db')
  {
    var u := UserOf(t.op, t.view.charge, t.view.credited);
    if LocksRow(t.op, t.view.charge) && u.Some? {
      assert Holds(t, UserRow(u.value));
      assert ReadAt(db.users, u.value) == ReadAt(db'.users, u.value);
    }
    if LocksIntent(t.op, t.view.charge) && IntentOf(t.op).Some? {
      assert Holds(t, IntentLock(IntentOf(t.op).value));
    }
    if t.op.RecordRecovery? {
      assert Holds(t, UserLock(u.value));
      if HasRefund(db.ledger, u.value) {
        var e :| e in db.ledger && e.user == u.value && e.kind == Refund;
        assert e in db'.ledger;
      }
    }
  }

  // ---------------------------------------------------------------- one step

  lemma FinishKeepsLocks(s: System, tx: TxId, db: Db)
    requires HoldersRun(s) && TakenIsHeld(s)
    ensures HoldersRun(Finish(s, tx, db)) && TakenIsHeld(Finish(s, tx, db))
  {
  }

  /** Nobody else holds what a committing transaction has locked. */
  lemma Exclusive(s: System, tx: TxId, other: TxId, l: Lock)
    requires TakenIsHeld(s) && tx in s.txns && other in s.txns && tx != other
    requires s.txns[tx].stage == COMMIT && Holds(s.txns[other], l)
    ensures !Has(s.txns[tx].op, s.txns[tx].view, l)
  {
    assert s.holder[l] == other;
    var t := s.txns[tx];
    assert Has(t.op, t.view, l) ==> Holds(t, l);
  }

  lemma CommitKeeps(s: System, tx: TxId)
    requires SysInv(s) && tx in s.txns && s.txns[tx].stage == COMMIT
    ensures SysInv(Finish(s, tx, Commit(s.txns[tx], s.db)))
    ensures Commit(s.txns[tx], s.db) == Apply(s.txns[tx].op, s.db)
    ensures Lawful(s.db, Commit(s.txns[tx], s.db))
  {
    var t, db := s.txns[tx], s.db;
    CommitIsApply(t, db);
    ApplyKeeps(t.op, db);
    ApplyLawful(t.op, db);
    FootprintOf(t.op, db);
    FinishKeepsLocks(s, tx, Apply(t.op, db));
    forall other | other in s.txns && other != tx ensures Fresh(s.txns[other], Apply(t.op, db)) {
      forall l | Holds(s.txns[other], l) ensures !Has(t.op, Observe(t.op, db), l) {
        Exclusive(s, tx, other, l);
        HasNow(t, db, l);
      }
      FreshKept(s.txns[other], db, Apply(t.op, db), t.op, Observe(t.op, db));
    }
  }

  /** A later read never renames a lock already taken. */
  lemma LocksSettled(t: Txn, db: Db, l: Lock)
    requires Rank(l) <= t.stage < COMMIT
    ensures Has(t.op, Load(t, db), l) == Has(t.op, t.view, l)
  {
  }

  lemma LoadFresh(t: Txn, db: Db)
    requires Fresh(t, db) && Valid(t.op) && t.stage < COMMIT && !GivesUp(t, Load(t, db))
    ensures Fresh(Txn(t.op, t.stage + 1, Load(t, db)), db)
  {
  }

  lemma HoldsNext(t: Txn, db: Db, l: Lock)
    requires t.stage < COMMIT
    ensures Holds(Txn(t.op, t.stage + 1, Load(t, db)), l) <==> Holds(t, l) || Wants(t) == Some(l)
  {
    if Rank(l) <= t.stage {
      LocksSettled(t, db, l);
    }
  }

  lemma AdvanceKeepsLocks(s: System, tx: TxId, s': System)
    requires HoldersRun(s) && TakenIsHeld(s) && CanAdvance(s, tx) && s.txns[tx].stage < COMMIT
    requires s' == System(s.db, if Wants(s.txns[tx]).Some? then s.holder[Wants(s.txns[tx]).value := tx] else s.holder,
                          s.txns[tx := Txn(s.txns[tx].op, s.txns[tx].stage + 1, Load(s.txns[tx], s.db))])
    ensures HoldersRun(s') && TakenIsHeld(s')
  {
    var t, t' := s.txns[tx], s'.txns[tx];
    forall l | l in s'.holder ensures s'.holder[l] in s'.txns && Holds(s'.txns[s'.holder[l]], l) {
      HoldsNext(t, s.db, l);
    }
    forall x, l | x in s'.txns && Holds(s'.txns[x], l) ensures l in s'.holder && s'.holder[l] == x {
      HoldsNext(t, s.db, l);
      if x == tx {
        assert Holds(t, l) || Wants(t) == Some(l);
      } else {
        assert Holds(s.txns[x], l);
      }
    }
  }

  lemma AdvanceKeeps(s: System, tx: TxId)
    requires SysInv(s) && CanAdvance(s, tx) && s.txns[tx].stage < COMMIT
    requires !GivesUp(s.txns[tx], Load(s.txns[tx], s.db))
    ensures SysInv(Step(s, Advance(tx)))
  {
    AdvanceKeepsLocks(s, tx, Step(s, Advance(tx)));
    AdvanceKeepsFresh(s, tx, Step(s, Advance(tx)));
  }

  lemma AdvanceKeepsFresh(s: System, tx: TxId, s': System)
    requires TxnsFresh(s) && tx in s.txns && s.txns[tx].stage < COMMIT && !GivesUp(s.txns[tx], Load(s.txns[tx], s.db))
    requires s'.db == s.db
    requires s'.txns == s.txns[tx := Txn(s.txns[tx].op, s.txns[tx].stage + 1, Load(s.txns[tx], s.db))]
    ensures TxnsFresh(s')
  {
    LoadFresh(s.txns[tx], s.db);
  }

  /** A transaction that gives up on its first reads has done nothing, and run alone would do nothing. */
  lemma GivingUpIsApply(t: Txn, db: Db)
    requires Fresh(t, db) && t.stage < COMMIT && GivesUp(t, Load(t, db))
    ensures Apply(t.op, db) == db
  {
  }

  lemma RollbackKeeps(s: System, tx: TxId)
    requires SysInv(s)
    ensures SysInv(Finish(s, tx, s.db))
  {
    FinishKeepsLocks(s, tx, s.db);
  }

  lemma BeginKeepsLocks(s: System, tx: TxId, t: Txn, s': System)
    requires HoldersRun(s) && TakenIsHeld(s) && tx !in s.txns && t.stage == 0
    requires s' == s.(txns := s.txns[tx := t])
    ensures HoldersRun(s') && TakenIsHeld(s')
  {
    assert forall l :: !Holds(t, l);
  }

  lemma BeginKeeps(s: System, tx: TxId, op: Op)
    requires SysInv(s) && tx !in s.txns && Valid(op)
    ensures SysInv(Step(s, Begin(tx, op)))
  {
    var t := Txn(op, 0, NOTHING);
    BeginKeepsLocks(s, tx, t, Step(s, Begin(tx, op)));
    assert Fresh(t, s.db);
  }

  /** Every step keeps the system invariant; it changes the tables only as one whole transaction, and a
      transaction that finishes by itself has had exactly its serial effect. */
  lemma StepKeeps(s: System, m: Move)
    requires SysInv(s) && Enabled(s, m)
    ensures SysInv(Step(s, m))
    ensures Lawful(s.db, Step(s, m).db)
    ensures Step(s, m).db != s.db ==> m.Advance? && Step(s, m).db == Apply(s.txns[m.tx].op, s.db)
    ensures m.Advance? && m.tx !in Step(s, m).txns ==> Step(s, m).db == Apply(s.txns[m.tx].op, s.db)
  {
    NoRowsLawful(s.db, s.db);
    match m
    case Begin(tx, op) => BeginKeeps(s, tx, op);
    case Abort(tx) => RollbackKeeps(s, tx);
    case Advance(tx) =>
      if s.txns[tx].stage == COMMIT {
        CommitKeeps(s, tx);
      } else if GivesUp(s.txns[tx], Load(s.txns[tx], s.db)) {
        GivingUpIsApply(s.txns[tx], s.db);
        RollbackKeeps(s, tx);
      } else {
        AdvanceKeeps(s, tx);
      }
  }

  // ---------------------------------------------------------------- whole runs

  ghost function Start(db: Db): System {
    System(db, map[], map[])
  }

  /** The move on which a transaction ends by itself: it commits, or finds nothing to do, or runs into the unique
      index. An abort is none. */
  ghost predicate Finishes(s: System, m: Move)
    requires Enabled(s, m)
  {
    m.Advance? && m.tx !in Step(s, m).txns
  }

  /** The transactions of a run that ended by themselves, in the order they did. */
  ghost function Finished(s: System, moves: seq<Move>): seq<Op>
    decreases |moves|
  {
    if moves == [] || !Enabled(s, moves[0]) then []
    else (if Finishes(s, moves[0]) then [s.txns[moves[0].tx].op] else []) + Finished(Step(s, moves[0]), moves[1..])
  }

  lemma {:induction false} SerialAppend(db: Db, ops: seq<Op>, op: Op)
    ensures Serial(db, [op] + ops) == Serial(Apply(op, db), ops)
  {
    assert ([op] + ops)[1..] == ops;
  }

  /** Serializability: whatever the interleaving, the tables reached are those of running the very transactions
      that finished, one after another, in the order they finished. */
  lemma {:induction false} RunsSerially(s: System, moves: seq<Move>, end: System)
    requires SysInv(s) && Runs(s, moves, end)
    ensures SysInv(end)
    ensures end.db == Serial(s.db, Finished(s, moves))
    ensures forall op :: op in Finished(s, moves) ==> Valid(op)
    decreases |moves|
  {
    if moves == [] {
    } else {
      StepTables(s, moves[0]);
      var mid := Step(s, moves[0]);
      RunsSerially(mid, moves[1..], end);
      if Finishes(s, moves[0]) {
        SerialAppend(s.db, Finished(mid, moves[1..]), s.txns[moves[0].tx].op);
      } else {
        assert [] + Finished(mid, moves[1..]) == Finished(mid, moves[1..]);
      }
    }
  }

  /** The tables change only where a transaction finishes, and then as if it ran alone. */
  lemma StepTables(s: System, m: Move)
    requires SysInv(s) && Enabled(s, m)
    ensures Step(s, m).db == if Finishes(s, m) then Apply(s.txns[m.tx].op, s.db) else s.db
    ensures Finishes(s, m) ==> Valid(s.txns[m.tx].op)
    ensures SysInv(Step(s, m))
  {
    StepKeeps(s, m);
  }

  /** The tables of every interleaved run from good tables are good: ledger conserved, one refund per intent,
      no race left open, every charge matched. */
  lemma RunsKeepInv(db: Db, moves: seq<Move>, end: System)
    requires Inv(db) && RowLaws(db.ledger) && Runs(Start(db), moves, end)
    ensures Inv(end.db) && RowLaws(end.db.ledger)
  {
    RunsSerially(Start(db), moves, end);
    SerialRows(db, Finished(Start(db), moves));
  }

  /** Over every interleaved run a charge that is not pending keeps its status for ever, a Stripe charge never
      disappears, and no ledger row does. */
  lemma TerminalStands(s: System, moves: seq<Move>, end: System, p: Intent)
    requires SysInv(s) && Runs(s, moves, end)
    ensures s.db.ledger <= end.db.ledger
    ensures Stripe(p) in s.db.charges ==> Stripe(p) in end.db.charges
    ensures Stripe(p) in s.db.charges && s.db.charges[Stripe(p)].status != Pending ==>
      end.db.charges[Stripe(p)] == s.db.charges[Stripe(p)]
  {
    RunsSerially(s, moves, end);
    SerialStands(s.db, Finished(s, moves), p);
  }

  /** In every interleaved run, the only row that takes a user's balance from zero or above to below zero is a refund
      of that user. */
  lemma NegativeOnlyByRefund(db: Db, moves: seq<Move>, end: System, u: UserId, i: nat)
    requires Inv(db) && RowLaws(db.ledger) && Runs(Start(db), moves, end) && i < |end.db.ledger|
    requires Sum(end.db.ledger, i, u) >= 0.0 > Sum(end.db.ledger, i + 1, u)
    ensures end.db.ledger[i].kind == Refund && end.db.ledger[i].user == u
  {
    RunsKeepInv(db, moves, end);
    CrossingIsRefund(end.db.ledger, u, i);
  }

  lemma CrossingIsRefund(ledger: seq<Entry>, u: UserId, i: nat)
    requires PrefixSums(ledger) && RowLaws(ledger) && i < |ledger|
    requires Sum(ledger, i, u) >= 0.0 > Sum(ledger, i + 1, u)
    ensures ledger[i].kind == Refund && ledger[i].user == u
  {
    assert RowLaw(ledger[i]);
  }

  lemma {:induction false} SerialRows(db: Db, ops: seq<Op>)
    requires Inv(db) && RowLaws(db.ledger) && forall i :: 0 <= i < |ops| ==> Valid(ops[i])
    ensures RowLaws(Serial(db, ops).ledger)
    decreases |ops|
  {
    if ops == [] {
    } else {
      ApplyKeeps(ops[0], db);
      ApplyLawful(ops[0], db);
      LawfulRows(db, Apply(ops[0], db));
      SerialRows(Apply(ops[0], db), ops[1..]);
    }
  }
}
