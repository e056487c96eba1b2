/** When the interleaved transactions wait for each other, and when they do not. */
module BillingDeadlock {
  import opened Wrappers
  import opened Billing
  import opened BillingInvariants
  import opened BillingProtocol
  import opened BillingConcurrency

  ghost predicate WaitsFor(s: System, a: TxId, b: TxId) {
    a in s.txns && b in s.txns
    && (AwaitsLock(s, a, b) || AwaitsPin(s, a, b) || AwaitsRow(s, a, b) || AwaitsRewrite(s, a, b))
  }

  ghost function Waits(s: System): (TxId, TxId) -> bool {
    (a: TxId, b: TxId) => WaitsFor(s, a, b)
  }

  /** Each of them waits for one of them. */
  ghost predicate Circular(among: set<TxId>, waits: (TxId, TxId) -> bool) {
    among != {} && forall a {:trigger WaitsAmong(among, waits, a)} :: a in among ==> WaitsAmong(among, waits, a)
  }

  ghost predicate WaitsAmong(among: set<TxId>, waits: (TxId, TxId) -> bool, a: TxId) {
    exists b :: b in among && waits(a, b)
  }

  /** Open transactions each waiting for another of them: only an abort lets any of them go on. */
  ghost predicate Deadlocked(s: System, among: set<TxId>) {
    Circular(among, Waits(s))
  }

  /** One way it comes to that. A settlement has inserted the charge it recovered, which pins its user's row,
      and is about to take the user's lock. A write-off or a recovery of that user has the user's lock, and is
      about to take the row. */
  ghost predicate Clinched(s: System, a: TxId, w: TxId) {
    && a in s.txns && w in s.txns
    && s.txns[a].op.SettleAutopay? && s.txns[a].stage == 5 && s.txns[a].view.charge.None?
        && s.txns[a].op.recovered.Some?
    && TakesOutright(s.txns[w].op) && s.txns[w].stage == ROW && s.txns[w].op.user == s.txns[a].op.recovered.value.user
  }

  /** The other. A settlement has written the key of the charge it recovered, and is about to enter the one-pending
      index. The rename of the user's claim to that charge has the claim in hand, and is about to write the key. */
  ghost predicate Snarled(s: System, a: TxId, b: TxId) {
    && a in s.txns && b in s.txns
    && NewlyCharged(s.txns[a]) && s.txns[a].stage == SLOT
    && s.txns[b].op.AttachAutopay? && s.txns[b].stage == 1 && s.txns[b].op.intent == s.txns[a].op.intent
    && Local(s.txns[b].op.key) in s.db.charges && s.db.charges[Local(s.txns[b].op.key)].status == Pending
  }

  ghost predicate Knotted(s: System, a: TxId, b: TxId) {
    Clinched(s, a, b) || Snarled(s, a, b)
  }

  ghost predicate AnyKnot(s: System) {
    exists a, b :: Knotted(s, a, b)
  }

  lemma HolderAwaited(s: System, tx: TxId)
    requires HoldersRun(s) && tx in s.txns
    ensures var l := Wants(s.txns[tx]);
      l.Some? && l.value in s.holder ==> WaitsFor(s, tx, s.holder[l.value])
  {
  }

  /** It inserts a charge row of this user, under a key it found free. */
  ghost predicate Charging(t: Txn, u: UserId) {
    t.view.charge.None? &&
    match t.op
    case ClaimAutopay(user, _, _, _) => user == u
    case RecordCharge(_, user, _, _) => user == u
    case SettleAutopay(_, recovered) => recovered.Some? && recovered.value.user == u
    case _ => false
  }

  /** A write-off or a recovery of this user. */
  ghost predicate Resolving(t: Txn, u: UserId) {
    (t.op.WriteOffReceivable? || t.op.RecordRecovery?) && t.op.user == u
  }

  ghost predicate PendingOf(charges: map<ChargeId, Charge>, u: UserId) {
    exists id :: id in charges && charges[id].user == u && charges[id].status == Pending
  }

  lemma RowAwaited(s: System, a: TxId, b: TxId, u: UserId)
    requires HoldersRun(s) && TakenIsHeld(s) && a in s.txns && b in s.txns
    requires s.txns[a].stage == 4 && Charging(s.txns[a], u)
    ensures AwaitsRow(s, a, b) <==> !PendingOf(s.db.charges, u) && Resolving(s.txns[b], u) && 8 < s.txns[b].stage
  {
    if Resolving(s.txns[b], u) && 8 < s.txns[b].stage { assert Holds(s.txns[b], UserRow(u)); }
    if AwaitsRow(s, a, b) { assert Holds(s.txns[b], UserRow(u)); }
  }

  lemma OnlyRowAwaited(s: System, a: TxId, u: UserId)
    requires a in s.txns && s.txns[a].stage == 4 && Charging(s.txns[a], u)
    ensures CanAdvance(s, a) <==> forall b :: b in s.txns ==> !AwaitsRow(s, a, b)
  {
  }

  /** An insert of a charge waits exactly for a write-off or a recovery that has its user's row, and not even then if
      a pending charge of the user refuses it. */
  lemma InsertGoesOn(s: System, a: TxId, u: UserId)
    requires HoldersRun(s) && TakenIsHeld(s) && a in s.txns && s.txns[a].stage == 4 && Charging(s.txns[a], u)
    ensures CanAdvance(s, a) <==>
      PendingOf(s.db.charges, u) || forall b :: b in s.txns && Resolving(s.txns[b], u) ==> s.txns[b].stage <= 8
  {
    OnlyRowAwaited(s, a, u);
    forall b | b in s.txns
      ensures AwaitsRow(s, a, b) <==> !PendingOf(s.db.charges, u) && Resolving(s.txns[b], u) && 8 < s.txns[b].stage
    {
      RowAwaited(s, a, b, u);
    }
  }

  /** And the write-off or recovery waits for that row exactly while somebody has it locked or has inserted a charge
      that refers to it. */
  lemma ResolvingGoesOn(s: System, w: TxId, u: UserId)
    requires w in s.txns && s.txns[w].stage == 8 && Resolving(s.txns[w], u)
    ensures CanAdvance(s, w) <==>
      UserRow(u) !in s.holder
      && forall b :: b in s.txns && 4 < s.txns[b].stage && Charging(s.txns[b], u) ==> s.txns[b].view.taken
  {
    forall b | b in s.txns ensures !AwaitsRow(s, w, b) && !AwaitsRewrite(s, w, b) {}
    forall b | b in s.txns
      ensures AwaitsPin(s, w, b) <==> 4 < s.txns[b].stage && Charging(s.txns[b], u) && !s.txns[b].view.taken
    {
    }
  }

  /** It has this charge row in hand: a claim to be renamed to a charge there is none of yet, to be dropped or to be
      failed; a charge to be settled or failed. */
  ghost predicate InHand(t: Txn, charges: map<ChargeId, Charge>, id: ChargeId) {
    match id
    case Local(key) =>
      0 < t.stage && (
        || (t.op.AttachAutopay? && t.op.key == key && Stripe(t.op.intent) !in charges)
        || t.op == DropClaim(key) || t.op == FailAutopay(id))
    case Stripe(p) => 1 < t.stage && ((t.op.SettleAutopay? && t.op.intent == p) || t.op == FailAutopay(id))
  }

  ghost predicate Rewriting(s: System, b: TxId, u: UserId) {
    b in s.txns &&
    exists id :: id in s.db.charges && s.db.charges[id].user == u && s.db.charges[id].status == Pending
                 && InHand(s.txns[b], s.db.charges, id)
  }

  lemma HandsOn(t: Txn, charges: map<ChargeId, Charge>, id: ChargeId)
    ensures Rewrites(t, charges, id) <==> InHand(t, charges, id)
  {
  }

  lemma RewriteAwaited(s: System, a: TxId, b: TxId, u: UserId)
    requires a in s.txns && b in s.txns && s.txns[a].stage == 3 && s.txns[a].op.SettleAutopay?
    requires Charging(s.txns[a], u)
    ensures AwaitsRewrite(s, a, b) <==> Rewriting(s, b, u)
  {
    forall id ensures Rewrites(s.txns[b], s.db.charges, id) <==> InHand(s.txns[b], s.db.charges, id) {
      HandsOn(s.txns[b], s.db.charges, id);
    }
  }

  /** A settlement that has written the key of the charge it recovered waits exactly for the user's pending slot and for
      whoever has the user's pending row in hand. */
  lemma SettlementGoesOn(s: System, a: TxId, u: UserId)
    requires a in s.txns && s.txns[a].stage == 3 && s.txns[a].op.SettleAutopay? && Charging(s.txns[a], u)
    ensures CanAdvance(s, a) <==> PendingSlot(u) !in s.holder && forall b :: !Rewriting(s, b, u)
  {
    forall b | b in s.txns
      ensures !AwaitsPin(s, a, b) && !AwaitsRow(s, a, b) && (AwaitsRewrite(s, a, b) <==> Rewriting(s, b, u))
    {
      RewriteAwaited(s, a, b, u);
    }
  }

  /** Whoever waits for nobody can go on. */
  lemma FreeGoesOn(s: System, tx: TxId)
    requires HoldersRun(s) && tx in s.txns && forall b :: !WaitsFor(s, tx, b)
    ensures CanAdvance(s, tx)
  {
    HolderAwaited(s, tx);
    forall b | b in s.txns ensures !AwaitsPin(s, tx, b) && !AwaitsRow(s, tx, b) && !AwaitsRewrite(s, tx, b) {
      assert !WaitsFor(s, tx, b);
    }
  }

  /** And whoever waits cannot. */
  lemma WaiterStays(s: System, a: TxId, b: TxId)
    requires WaitsFor(s, a, b)
    ensures !CanAdvance(s, a)
  {
  }

  /** Waiting for an exclusive lock or for a row taken outright is waiting for somebody further on. */
  lemma OthersAreFurther(s: System, a: TxId, b: TxId)
    requires HoldersRun(s) && WaitsFor(s, a, b) && !AwaitsPin(s, a, b) && !AwaitsRewrite(s, a, b)
    ensures s.txns[a].stage < s.txns[b].stage
  {
    if AwaitsLock(s, a, b) {
      assert Holds(s.txns[b], Wants(s.txns[a]).value);
    }
  }

  /** Of the transactions that insert a charge, only a settlement locks anything after, and its user first. */
  lemma PinnerLocks(t: Txn, u: UserId)
    requires Pins(t, u) && Wants(t).Some?
    ensures t.op.SettleAutopay? && t.view.charge.None? && t.op.recovered.Some? && t.op.recovered.value.user == u
    ensures t.stage >= 5 && Has(t.op, t.view, UserLock(u))
  {
  }

  lemma OutrightLocks(op: Op, v: View)
    requires TakesOutright(op)
    ensures Has(op, v, UserLock(op.user))
  {
  }

  lemma PinnerAwaitsLock(s: System, a: TxId, b: TxId, u: UserId)
    requires WaitsFor(s, a, b) && Pins(s.txns[a], u)
    ensures Wants(s.txns[a]).Some?
  {
  }

  /** An insert that pins a row and cannot go on is a settlement waiting for the user's lock. */
  lemma PinnerClinches(s: System, a: TxId, w: TxId, b: TxId)
    requires TakenIsHeld(s) && w in s.txns && a in s.txns && AwaitsPin(s, w, a) && WaitsFor(s, a, b)
    ensures Clinched(s, a, w)
  {
    var u := s.txns[w].op.user;
    PinnerAwaitsLock(s, a, b, u);
    PinnerLocks(s.txns[a], u);
    OutrightLocks(s.txns[w].op, s.txns[w].view);
    OneHolds(s, w, a, UserLock(u));
  }

  lemma OneHolds(s: System, w: TxId, a: TxId, l: Lock)
    requires TakenIsHeld(s) && w in s.txns && a in s.txns && w != a && Holds(s.txns[w], l)
    ensures !Holds(s.txns[a], l)
  {
    assert s.holder[l] == w;
  }

  /** A settlement about to take its user's lock, with the charge it recovered inserted, pins the row. */
  lemma ClincherPins(t: Txn, db: Db, u: UserId)
    requires Fresh(t, db) && t.op.SettleAutopay? && t.view.charge.None? && t.op.recovered.Some?
    requires t.op.recovered.value.user == u
    requires t.stage == 5
    ensures Pins(t, u) && Wants(t) == Some(UserLock(u))
  {
  }

  lemma ClinchIsMutual(s: System, a: TxId, w: TxId)
    requires TakenIsHeld(s) && TxnsFresh(s) && Clinched(s, a, w)
    ensures WaitsFor(s, a, w) && WaitsFor(s, w, a)
  {
    var u := s.txns[w].op.user;
    OutrightLocks(s.txns[w].op, s.txns[w].view);
    assert Holds(s.txns[w], UserLock(u));
    ClincherPins(s.txns[a], s.db, u);
    assert AwaitsLock(s, a, w) && AwaitsPin(s, w, a);
  }

  // ---------------------------------------------------------------- the rename

  /** Whoever rewrites a pending row and waits is further on than an insert that waits for it, or is the rename of a
      claim. */
  lemma RewriterWaits(s: System, a: TxId, b: TxId, c: TxId)
    requires TxnsFresh(s) && a in s.txns && b in s.txns && AwaitsRewrite(s, a, b) && WaitsFor(s, b, c)
    ensures s.txns[a].stage < s.txns[b].stage || (s.txns[b].op.AttachAutopay? && s.txns[b].stage == 1)
  {
    var id :| id in s.db.charges && Rewrites(s.txns[b], s.db.charges, id);
    if s.txns[b].op.SettleAutopay? {
      assert s.txns[b].stage > 2 ==> s.txns[b].view.charge == ReadCharge(s.txns[b].op, s.db);
    }
  }

  /** If it is, and the key it waits for is held by one that waits itself and is no further on than the insert, that
      one is a settlement and the two are snarled. */
  lemma RenameSnarls(s: System, a: TxId, b: TxId, c: TxId, d: TxId)
    requires HoldersRun(s) && a in s.txns && b in s.txns && AwaitsRewrite(s, a, b)
    requires s.txns[b].op.AttachAutopay? && s.txns[b].stage == 1
    requires WaitsFor(s, b, c) && WaitsFor(s, c, d) && s.txns[c].stage <= SLOT && s.txns[d].stage <= SLOT
    ensures Snarled(s, c, b)
  {
    assert Holds(s.txns[c], Wants(s.txns[b]).value);
    if !AwaitsRewrite(s, c, d) {
      OthersAreFurther(s, c, d);
    }
  }

  /** A settlement that has written its key, on its way to the index, finds no charge under it and holds it. */
  lemma SnarlIsMutual(s: System, a: TxId, b: TxId)
    requires TakenIsHeld(s) && TxnsFresh(s) && ChargesOwned(s.db.charges) && Snarled(s, a, b)
    ensures WaitsFor(s, a, b) && WaitsFor(s, b, a)
  {
    var p := s.txns[a].op.intent;
    assert Holds(s.txns[a], ChargeRow(Stripe(p)));
    assert AwaitsLock(s, b, a);
    assert s.txns[a].view.charge == ReadCharge(s.txns[a].op, s.db);
    assert Rewrites(s.txns[b], s.db.charges, Local(s.txns[b].op.key));
  }

  // ---------------------------------------------------------------- every circle

  function StageOf(s: System): TxId -> nat {
    (a: TxId) => if a in s.txns then s.txns[a].stage else 0
  }

  lemma {:induction false} Topmost(among: set<TxId>, stage: TxId -> nat) returns (top: TxId)
    requires among != {}
    ensures top in among && forall x :: x in among ==> stage(x) <= stage(top)
    decreases |among|
  {
    var x :| x in among;
    var rest := among - {x};
    if rest == {} {
      assert forall y :: y in among ==> y == x || y in rest;
      top := x;
    } else {
      var t := Topmost(rest, stage);
      top := if stage(t) >= stage(x) then t else x;
      assert forall y :: y in among ==> y == x || y in rest;
    }
  }

  /** Some one of a circle waits for a second, that for a third and that for a fourth, and none of them is further on
      than the first. */
  lemma CircleTurns(among: set<TxId>, waits: (TxId, TxId) -> bool, stage: TxId -> nat)
    returns (a: TxId, b: TxId, c: TxId, d: TxId)
    requires Circular(among, waits)
    ensures waits(a, b) && waits(b, c) && waits(c, d)
    ensures stage(b) <= stage(a) && stage(c) <= stage(a) && stage(d) <= stage(a)
  {
    a := Topmost(among, stage);
    assert WaitsAmong(among, waits, a);
    b :| b in among && waits(a, b);
    assert WaitsAmong(among, waits, b);
    c :| c in among && waits(b, c);
    assert WaitsAmong(among, waits, c);
    d :| d in among && waits(c, d);
  }

  /** Waiting for one that waits itself climbs, except at a clinch or at a rename. */
  lemma EdgeClimbs(s: System, a: TxId, b: TxId, c: TxId)
    requires HoldersRun(s) && TakenIsHeld(s) && TxnsFresh(s) && WaitsFor(s, a, b) && WaitsFor(s, b, c)
    ensures s.txns[a].stage < s.txns[b].stage || Clinched(s, b, a)
      || (AwaitsRewrite(s, a, b) && s.txns[b].op.AttachAutopay? && s.txns[b].stage == 1)
  {
    if AwaitsPin(s, a, b) {
      PinnerClinches(s, b, a, c);
    } else if AwaitsRewrite(s, a, b) {
      RewriterWaits(s, a, b, c);
    } else {
      OthersAreFurther(s, a, b);
    }
  }

  lemma DeadlockHasKnot(s: System, among: set<TxId>)
    requires HoldersRun(s) && TakenIsHeld(s) && TxnsFresh(s) && Deadlocked(s, among)
    ensures AnyKnot(s)
  {
    var a, b, c, d := CircleTurns(among, Waits(s), StageOf(s));
    EdgeClimbs(s, a, b, c);
    if Clinched(s, b, a) {
      assert Knotted(s, b, a);
    } else {
      RenameSnarls(s, a, b, c, d);
      assert Knotted(s, c, b);
    }
  }

  lemma PairIsCircle(waits: (TxId, TxId) -> bool, a: TxId, w: TxId)
    requires waits(a, w) && waits(w, a)
    ensures Circular({a, w}, waits)
  {
    assert WaitsAmong({a, w}, waits, a) && WaitsAmong({a, w}, waits, w);
  }

  lemma KnotIsDeadlock(s: System, a: TxId, b: TxId)
    requires TakenIsHeld(s) && TxnsFresh(s) && ChargesOwned(s.db.charges) && Knotted(s, a, b)
    ensures WaitsFor(s, a, b) && WaitsFor(s, b, a) && Deadlocked(s, {a, b})
  {
    if Clinched(s, a, b) { ClinchIsMutual(s, a, b); } else { SnarlIsMutual(s, a, b); }
    PairIsCircle(Waits(s), a, b);
  }

  lemma AnyKnotDeadlocks(s: System)
    requires TakenIsHeld(s) && TxnsFresh(s) && ChargesOwned(s.db.charges) && AnyKnot(s)
    ensures exists among :: Deadlocked(s, among)
  {
    var a, b :| Knotted(s, a, b);
    KnotIsDeadlock(s, a, b);
  }

  /** Transactions deadlock in two ways and no other: a settlement with a charge it inserted against a write-off or
      recovery of the same user, and a settlement about to insert one against the rename of a claim to it. */
  lemma DeadlockIsKnot(db: Db, moves: seq<Move>, s: System)
    requires Inv(db) && Runs(Start(db), moves, s)
    ensures (exists among :: Deadlocked(s, among)) <==> AnyKnot(s)
  {
    RunsSerially(Start(db), moves, s);
    if among :| Deadlocked(s, among) {
      DeadlockHasKnot(s, among);
    }
    if AnyKnot(s) {
      AnyKnotDeadlocks(s);
    }
  }

  lemma StuckIsDeadlock(s: System)
    requires HoldersRun(s) && s.txns != map[] && forall tx :: !CanAdvance(s, tx)
    ensures Deadlocked(s, s.txns.Keys)
  {
    forall tx | tx in s.txns.Keys ensures WaitsAmong(s.txns.Keys, Waits(s), tx) {
      var b := StuckWaits(s, tx);
      assert Waits(s)(tx, b);
    }
    var tx :| tx in s.txns;
    assert tx in s.txns.Keys;
  }

  lemma StuckWaits(s: System, tx: TxId) returns (b: TxId)
    requires HoldersRun(s) && tx in s.txns && !CanAdvance(s, tx)
    ensures b in s.txns && WaitsFor(s, tx, b)
  {
    if forall x :: !WaitsFor(s, tx, x) {
      FreeGoesOn(s, tx);
    }
    b :| WaitsFor(s, tx, b);
  }

  /** So a reachable state is stuck only there: while any transaction is open and there is no such pair, one of them
      can take its next step. */
  lemma NeverStuck(db: Db, moves: seq<Move>, end: System)
    requires Inv(db) && Runs(Start(db), moves, end) && end.txns != map[] && !AnyKnot(end)
    ensures exists tx :: CanAdvance(end, tx)
  {
    RunsSerially(Start(db), moves, end);
    if forall tx :: !CanAdvance(end, tx) {
      StuckIsDeadlock(end);
      DeadlockHasKnot(end, end.txns.Keys);
    }
  }

  /** And every step it takes brings it closer: it finishes, or reaches its next stage. */
  lemma AdvanceProgresses(s: System, tx: TxId)
    requires SysInv(s) && CanAdvance(s, tx)
    ensures var s' := Step(s, Advance(tx));
      tx !in s'.txns || s'.txns[tx].stage == s.txns[tx].stage + 1 <= COMMIT
  {
  }

  // ---------------------------------------------------------------- once knotted

  /** Nothing but an abort of one of the two ends it, whatever the others do. */
  lemma {:induction false} KnotLasts(s: System, moves: seq<Move>, end: System, a: TxId, b: TxId)
    requires SysInv(s) && Knotted(s, a, b) && Runs(s, moves, end)
    requires forall m :: m in moves ==> m != Abort(a) && m != Abort(b)
    ensures Knotted(end, a, b) && end.txns[a] == s.txns[a] && end.txns[b] == s.txns[b]
    decreases |moves|
  {
    if moves == [] {
    } else {
      assert moves[0] in moves && forall m :: m in moves[1..] ==> m in moves;
      KnotStays(s, moves[0], a, b);
      KnotLasts(Step(s, moves[0]), moves[1..], end, a, b);
    }
  }

  lemma OthersStay(s: System, m: Move, x: TxId)
    requires Enabled(s, m) && x in s.txns && m.tx != x
    ensures x in Step(s, m).txns && Step(s, m).txns[x] == s.txns[x]
  {
  }

  lemma KnotStays(s: System, m: Move, a: TxId, b: TxId)
    requires SysInv(s) && Knotted(s, a, b) && Enabled(s, m) && m != Abort(a) && m != Abort(b)
    ensures var s' := Step(s, m);
      SysInv(s') && Knotted(s', a, b) && s'.txns[a] == s.txns[a] && s'.txns[b] == s.txns[b]
  {
    StepKeeps(s, m);
    NeitherMoves(s, m, a, b);
    if Snarled(s, a, b) {
      ClaimInHand(s, b);
      HeldRowStays(s, m, b, Local(s.txns[b].op.key));
    }
  }

  lemma NeitherMoves(s: System, m: Move, a: TxId, b: TxId)
    requires TakenIsHeld(s) && TxnsFresh(s) && ChargesOwned(s.db.charges)
    requires Knotted(s, a, b) && Enabled(s, m) && m != Abort(a) && m != Abort(b)
    ensures m.tx != a && m.tx != b
    ensures var s' := Step(s, m);
      a in s'.txns && b in s'.txns && s'.txns[a] == s.txns[a] && s'.txns[b] == s.txns[b]
  {
    KnotIsDeadlock(s, a, b);
    WaiterStays(s, a, b);
    WaiterStays(s, b, a);
    assert m.tx != a && m.tx != b;
    OthersStay(s, m, a);
    OthersStay(s, m, b);
  }

  lemma ClaimInHand(s: System, b: TxId)
    requires b in s.txns && s.txns[b].op.AttachAutopay? && s.txns[b].stage == 1
    ensures Holds(s.txns[b], ChargeRow(Local(s.txns[b].op.key)))
  {
  }

  /** Nobody else writes a charge row a transaction holds. */
  lemma HeldRowStays(s: System, m: Move, b: TxId, id: ChargeId)
    requires SysInv(s) && Enabled(s, m) && m.tx != b && b in s.txns && Holds(s.txns[b], ChargeRow(id))
    ensures ReadAt(Step(s, m).db.charges, id) == ReadAt(s.db.charges, id)
  {
    if m.Advance? && s.txns[m.tx].stage == COMMIT {
      var t := s.txns[m.tx];
      CommitIsApply(t, s.db);
      FootprintOf(t.op, s.db);
      Exclusive(s, m.tx, b, ChargeRow(id));
      HasNow(t, s.db, ChargeRow(id));
    }
  }

  // ---------------------------------------------------------------- both are reached

  lemma RunsOn(s: System, moves: seq<Move>, mid: System, m: Move)
    requires Runs(s, moves, mid) && Enabled(mid, m)
    ensures Runs(s, moves + [m], Step(mid, m))
    decreases |moves|
  {
    if moves == [] {
      assert moves + [m] == [m] && [m][1..] == [];
    } else {
      RunsOn(Step(s, moves[0]), moves[1..], mid, m);
      assert (moves + [m])[1..] == moves[1..] + [m];
    }
  }

  /** One more step of a transaction that takes this lock there, if any, and reads this. */
  lemma Onward(s: System, moves: seq<Move>, mid: System, tx: TxId, v: View) returns (moves': seq<Move>, next: System)
    requires Runs(s, moves, mid) && CanAdvance(mid, tx)
    requires mid.txns[tx].stage < COMMIT && v == Load(mid.txns[tx], mid.db) && !GivesUp(mid.txns[tx], v)
    ensures Runs(s, moves', next) && next.db == mid.db
    ensures next.txns == mid.txns[tx := Txn(mid.txns[tx].op, mid.txns[tx].stage + 1, v)]
    ensures next.holder == if Wants(mid.txns[tx]).Some? then mid.holder[Wants(mid.txns[tx]).value := tx] else mid.holder
  {
    RunsOn(s, moves, mid, Advance(tx));
    moves', next := moves + [Advance(tx)], Step(mid, Advance(tx));
  }

  function SettlementLocks(p: Intent, u: UserId, stage: nat): map<Lock, TxId> {
    if stage <= 1 then map[]
    else if stage <= 3 then map[ChargeRow(Stripe(p)) := 0]
    else map[ChargeRow(Stripe(p)) := 0, PendingSlot(u) := 0]
  }

  lemma SettlementStep(s: System, p: Intent, r: Recovered)
    requires 0 in s.txns && s.txns.Keys == {0} && s.txns[0].stage < 5
    requires Stripe(p) !in s.db.charges && (s.txns[0].stage < SLOT || !HasPending(s.db.charges, r.user))
    requires s.txns[0] == Txn(SettleAutopay(p, Some(r)), s.txns[0].stage, NOTHING)
    requires s.holder == SettlementLocks(p, r.user, s.txns[0].stage)
    ensures CanAdvance(s, 0) && Load(s.txns[0], s.db) == NOTHING && !GivesUp(s.txns[0], NOTHING)
    ensures (if Wants(s.txns[0]).Some? then s.holder[Wants(s.txns[0]).value := 0] else s.holder)
            == SettlementLocks(p, r.user, s.txns[0].stage + 1)
  {
  }

  /** A recovered settlement by itself: up to the one-pending index, and past it if the user has no pending charge up
      to its user's lock. */
  lemma SettlementInserts(db: Db, p: Intent, r: Recovered, upTo: nat) returns (moves: seq<Move>, mid: System)
    requires Stripe(p) !in db.charges && Valid(SettleAutopay(p, Some(r)))
    requires upTo <= SLOT || (upTo <= 5 && !HasPending(db.charges, r.user))
    ensures Runs(Start(db), moves, mid) && mid.db == db
    ensures mid.txns == map[0 := Txn(SettleAutopay(p, Some(r)), upTo, NOTHING)]
    ensures mid.holder == SettlementLocks(p, r.user, upTo)
  {
    var op, s := SettleAutopay(p, Some(r)), Start(db);
    assert Runs(s, [], s);
    moves, mid := Began(s, [], s, 0, op);
    var n: nat := 0;
    while n < upTo
      invariant n <= upTo && Runs(s, moves, mid) && mid.db == db && mid.txns == map[0 := Txn(op, n, NOTHING)]
      invariant mid.holder == SettlementLocks(p, r.user, n)
    {
      SettlementStep(mid, p, r);
      moves, mid := Onward(s, moves, mid, 0, NOTHING);
      n := n + 1;
    }
  }

  lemma Began(s: System, moves: seq<Move>, mid: System, tx: TxId, op: Op) returns (moves': seq<Move>, next: System)
    requires Runs(s, moves, mid) && tx !in mid.txns && Valid(op)
    ensures Runs(s, moves', next) && next == mid.(txns := mid.txns[tx := Txn(op, 0, NOTHING)])
  {
    RunsOn(s, moves, mid, Begin(tx, op));
    moves', next := moves + [Begin(tx, op)], Step(mid, Begin(tx, op));
  }

  function WriteOffLocks(before: map<Lock, TxId>, u: UserId, stage: nat): map<Lock, TxId> {
    if stage <= 5 then before else before[UserLock(u) := 1]
  }

  lemma WriteOffStep(s: System, before: map<Lock, TxId>, u: UserId)
    requires UserLock(u) !in before && !HasPending(s.db.charges, u)
    requires 1 in s.txns && s.txns[1].stage < ROW && s.txns[1] == Txn(WriteOffReceivable(u), s.txns[1].stage, NOTHING)
    requires s.holder == WriteOffLocks(before, u, s.txns[1].stage)
    ensures CanAdvance(s, 1) && Load(s.txns[1], s.db) == NOTHING && !GivesUp(s.txns[1], NOTHING)
    ensures (if Wants(s.txns[1]).Some? then s.holder[Wants(s.txns[1]).value := 1] else s.holder)
            == WriteOffLocks(before, u, s.txns[1].stage + 1)
  {
  }

  lemma WriteOffGoes(s: System, moves: seq<Move>, mid: System, before: map<Lock, TxId>, u: UserId, n: nat)
    returns (moves': seq<Move>, next: System)
    requires Runs(s, moves, mid) && 1 in mid.txns && n < ROW && mid.txns[1] == Txn(WriteOffReceivable(u), n, NOTHING)
    requires UserLock(u) !in before && !HasPending(mid.db.charges, u) && mid.holder == WriteOffLocks(before, u, n)
    ensures Runs(s, moves', next) && next.db == mid.db && next.holder == WriteOffLocks(before, u, n + 1)
    ensures next.txns == mid.txns[1 := Txn(WriteOffReceivable(u), n + 1, NOTHING)]
  {
    WriteOffStep(mid, before, u);
    moves', next := Onward(s, moves, mid, 1, NOTHING);
  }

  /** Then a write-off of the same user, up to the row. */
  lemma WriteOffFollows(s: System, moves0: seq<Move>, mid0: System, u: UserId) returns (moves: seq<Move>, end: System)
    requires Runs(s, moves0, mid0) && 1 !in mid0.txns && UserLock(u) !in mid0.holder && !HasPending(mid0.db.charges, u)
    ensures Runs(s, moves, end) && end.txns == mid0.txns[1 := Txn(WriteOffReceivable(u), ROW, NOTHING)]
  {
    var op := WriteOffReceivable(u);
    moves, end := Began(s, moves0, mid0, 1, op);
    var n: nat := 0;
    while n < ROW
      invariant n <= ROW && Runs(s, moves, end) && end.db == mid0.db
      invariant end.txns == mid0.txns[1 := Txn(op, n, NOTHING)] && end.holder == WriteOffLocks(mid0.holder, u, n)
    {
      moves, end := WriteOffGoes(s, moves, end, mid0.holder, u, n);
      n := n + 1;
    }
  }

  /** The input: wherever a recovered charge is settled for a user with no pending one, while that user's receivable
      is written off. */
  lemma ClinchReached(db: Db, p: Intent, r: Recovered) returns (moves: seq<Move>, end: System)
    requires Stripe(p) !in db.charges && !HasPending(db.charges, r.user) && Valid(SettleAutopay(p, Some(r)))
    ensures Runs(Start(db), moves, end) && Clinched(end, 0, 1)
  {
    var before, mid := SettlementInserts(db, p, r, 5);
    moves, end := WriteOffFollows(Start(db), before, mid, r.user);
  }

  lemma RenameStep(s: System, key: ChargeKey, p: Intent)
    requires 1 in s.txns && s.txns[1] == Txn(AttachAutopay(key, p), 0, NOTHING) && ChargeRow(Local(key)) !in s.holder
    ensures CanAdvance(s, 1) && Load(s.txns[1], s.db) == NOTHING && !GivesUp(s.txns[1], NOTHING)
  {
  }

  /** The input: wherever a recovered charge is settled while the user's pending claim is renamed to it. */
  lemma SnarlReached(db: Db, p: Intent, r: Recovered, key: ChargeKey) returns (moves: seq<Move>, end: System)
    requires Stripe(p) !in db.charges && Valid(SettleAutopay(p, Some(r))) && Valid(AttachAutopay(key, p))
    requires Local(key) in db.charges && db.charges[Local(key)].status == Pending
    ensures Runs(Start(db), moves, end) && Snarled(end, 0, 1)
  {
    var before, mid := SettlementInserts(db, p, r, SLOT);
    moves, end := Began(Start(db), before, mid, 1, AttachAutopay(key, p));
    RenameStep(end, key, p);
    moves, end := Onward(Start(db), moves, end, 1, NOTHING);
  }

  // ---------------------------------------------------------------- what keeps clear of them

  ghost predicate Rivals(a: Op, w: Op) {
    a.SettleAutopay? && a.recovered.Some?
    && ((TakesOutright(w) && w.user == a.recovered.value.user) || (w.AttachAutopay? && w.intent == a.intent))
  }

  ghost predicate Opens(moves: seq<Move>, op: Op) {
    exists m :: m in moves && m.Begin? && m.op == op
  }

  lemma {:induction false} OpenedBegan(s: System, moves: seq<Move>, end: System, tx: TxId)
    requires Runs(s, moves, end) && tx in end.txns
    ensures Opens(moves, end.txns[tx].op) || exists x :: x in s.txns && s.txns[x].op == end.txns[tx].op
    decreases |moves|
  {
    if moves == [] {
    } else {
      var mid := Step(s, moves[0]);
      OpenedBegan(mid, moves[1..], end, tx);
      var op := end.txns[tx].op;
      assert moves[0] in moves && forall m :: m in moves[1..] ==> m in moves;
      if !Opens(moves[1..], op) {
        var x :| x in mid.txns && mid.txns[x].op == op;
        StepOpens(s, moves[0], x);
      }
    }
  }

  lemma StepOpens(s: System, m: Move, x: TxId)
    requires Enabled(s, m) && x in Step(s, m).txns
    ensures (m.Begin? && m.op == Step(s, m).txns[x].op) || (x in s.txns && s.txns[x].op == Step(s, m).txns[x].op)
  {
  }

  /** A caller who never lets a settlement with recovered metadata run beside a write-off or recovery of the same user,
      or beside the rename of a claim to the same intent, is never stuck. */
  lemma ApartNeverStuck(db: Db, moves: seq<Move>, end: System)
    requires Inv(db) && Runs(Start(db), moves, end) && end.txns != map[]
    requires forall a, w :: Opens(moves, a) && Opens(moves, w) ==> !Rivals(a, w)
    ensures exists tx :: CanAdvance(end, tx)
  {
    if AnyKnot(end) {
      var a, w :| Knotted(end, a, w);
      OpenedBegan(Start(db), moves, end, a);
      OpenedBegan(Start(db), moves, end, w);
      assert Rivals(end.txns[a].op, end.txns[w].op);
    }
    NeverStuck(db, moves, end);
  }
}
