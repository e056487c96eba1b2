/** The functions of `billing.rs`, statement by statement, over tables they update in place. Each is proved
    to leave exactly the tables `Apply` gives, and says row by row what those are and what it reports. */
module BillingStore {
  import opened Wrappers
  import opened Billing
  import opened BillingStones
  import opened BillingShapes

  datatype CreditOutcome = Applied(balanceAfter: real) | AlreadyApplied | Refused
  datatype ReversalOutcome = Reversed(amount: real, balanceAfter: real) | WasReversed | UnknownPurchase | NoSuchUser
  datatype ResolutionOutcome =
    | Forgiven(forgiven: real, balanceAfter: real)
    | AlreadyWrittenOff(balance: real)
    | Recovered(amount: real, balanceAfter: real)
    | NotReviewable
    | Unprocessable
  datatype AutopayOutcome = ChargeCredited | AlreadySettled | Unknown | CreditWithheld | Disagreed | SlotTaken

  /** The account autopay may charge. */
  ghost predicate Eligible(a: Account) {
    a.autopayEnabled && a.frozen == None && a.balance >= 0.0 && a.failures < 3
  }

  ghost predicate SlotFree(charges: map<ChargeId, Charge>, u: UserId) {
    forall id :: id in charges && charges[id].user == u ==> charges[id].status != Pending
  }

  /** One balance moved by an amount. */
  ghost function Paid(users: map<UserId, Account>, u: UserId, amount: real): map<UserId, Account>
    requires u in users
  {
    users[u := users[u].(balance := users[u].balance + amount)]
  }

  /** One more strike, and off at the third. */
  ghost function Struck(users: map<UserId, Account>, u: UserId): map<UserId, Account> {
    if u !in users then users
    else
      var a := users[u];
      users[u := a.(failures := a.failures + 1, autopayEnabled := (a.autopayEnabled && a.failures <= 1))]
  }

  /** A row that credits the intent: a purchase that names it, or an autopay row anchored on it. */
  ghost predicate Credits(e: Entry, p: Intent) {
    (e.kind == Purchase && e.intent == Some(p)) || (e.kind == Autopay && e.anchor == Some(OfIntent(p)))
  }

  /** The oldest row that credits the intent, if there is one. */
  ghost predicate Oldest(ledger: seq<Entry>, p: Intent, credited: Option<Credit>) {
    if credited.None? then forall e :: e in ledger ==> !Credits(e, p)
    else
      exists i :: 0 <= i < |ledger| && Credits(ledger[i], p)
        && credited.value == Credit(ledger[i].user, ledger[i].amount)
        && forall j :: 0 <= j < i ==> !Credits(ledger[j], p)
  }

  lemma {:induction false} CreditedIsOldest(ledger: seq<Entry>, p: Intent)
    ensures Oldest(ledger, p, Credited(ledger, p))
  {
    if ledger == [] {
    } else if IsCredit(ledger[0], p) {
      assert Credits(ledger[0], p);
    } else {
      CreditedIsOldest(ledger[1..], p);
      assert ledger == [ledger[0]] + ledger[1..];
      if Credited(ledger, p).Some? {
        var i :| 0 <= i < |ledger[1..]| && Credits(ledger[1..][i], p)
          && Credited(ledger, p).value == Credit(ledger[1..][i].user, ledger[1..][i].amount)
          && forall j :: 0 <= j < i ==> !Credits(ledger[1..][j], p);
        assert ledger[i + 1] == ledger[1..][i];
        assert forall j :: 0 < j < i + 1 ==> ledger[j] == ledger[1..][j - 1];
      }
    }
  }

  /** The purchase posted. */
  ghost function Bought(db: Db, u: UserId, amount: real, session: Session, intent: Option<Intent>): Db
    requires u in db.users
  {
    var after := db.users[u].balance + amount;
    Db(Paid(db.users, u, amount),
       db.ledger + [Entry(u, Purchase, amount, after, Some(OfSession(session)), intent)], db.tombstones, db.charges)
  }

  /** The recharge posted: its charge succeeded, its row and its strikes cleared. */
  ghost function Posted(db: Db, p: Intent, row: Charge): Db
    requires row.user in db.users
  {
    var balance := db.users[row.user].balance + row.amount;
    Db(db.users[row.user := db.users[row.user].(balance := balance, failures := 0)],
       db.ledger + [Entry(row.user, Autopay, row.amount, balance, Some(OfIntent(p)), None)],
       db.tombstones, db.charges[Stripe(p) := row.(status := Succeeded)])
  }

  lemma PostChargeIs(db: Db, p: Intent, row: Charge)
    requires row.user in db.users
    ensures PostCharge(db, p, row) == Posted(db, p, row)
  {
  }

  class Store {
    var users: map<UserId, Account>
    var ledger: seq<Entry>
    var tombstones: seq<Tombstone>
    var charges: map<ChargeId, Charge>

    function State(): Db
      reads this
    {
      Db(users, ledger, tombstones, charges)
    }

    constructor ()
      ensures State() == Db(map[], [], [], map[])
    {
      users, ledger, tombstones, charges := map[], [], [], map[];
    }

    /** UPDATE the balance and INSERT the row that snapshots it. */
    method PostRow(u: UserId, kind: EntryKind, amount: real, anchor: Option<Anchor>, intent: Option<Intent>)
      returns (after: real)
      requires u in users
      modifies this
      ensures State() == Post(old(State()), u, kind, amount, anchor, intent)
      ensures users == Paid(old(users), u, amount) && after == old(users[u].balance) + amount
      ensures ledger == old(ledger) + [Entry(u, kind, amount, after, anchor, intent)]
      ensures tombstones == old(tombstones) && charges == old(charges)
    {
      after := users[u].balance + amount;
      users := users[u := users[u].(balance := after)];
      ledger := ledger + [Entry(u, kind, amount, after, anchor, intent)];
    }

    method CreditPurchase(u: UserId, amount: real, session: Session, intent: Option<Intent>)
      returns (outcome: CreditOutcome)
      modifies this
      ensures State() == Apply(Op.CreditPurchase(u, amount, session, intent), old(State()))
      ensures outcome == AlreadyApplied <==>
        amount > 0.0 && exists e :: e in old(ledger) && e.anchor == Some(OfSession(session))
      ensures outcome.Applied? <==>
        amount > 0.0 && u in old(users) && forall e :: e in old(ledger) ==> e.anchor != Some(OfSession(session))
      // The balance reported is the one the purchase produced, before any observed reversal takes it back.
      ensures outcome.Applied? ==>
        var posted := Bought(old(State()), u, amount, session, intent);
        && outcome.balanceAfter == posted.users[u].balance
        && (if intent.None? then State() == posted
            else Outcome(posted, State(), u, intent.value, amount, Unapplied(old(tombstones), intent.value)))
      ensures !outcome.Applied? ==> State() == old(State())
    {
      PurchaseShape(Op.CreditPurchase(u, amount, session, intent), State());
      if amount <= 0.0 {
        return Refused;
      }
      if Anchored(ledger, OfSession(session)) {
        return AlreadyApplied;
      }
      if u !in users {
        return Refused;
      }
      var balanceAfter := PostPurchase(u, amount, session, intent);
      return Applied(balanceAfter);
    }

    method PostPurchase(u: UserId, amount: real, session: Session, intent: Option<Intent>) returns (after: real)
      requires u in users
      modifies this
      ensures State() == CreditSession(old(State()), u, amount, session, intent,
                                       if intent.Some? then Unapplied(old(tombstones), intent.value) else [])
      ensures var posted := Bought(old(State()), u, amount, session, intent);
        && after == posted.users[u].balance
        && (if intent.None? then State() == posted
            else Outcome(posted, State(), u, intent.value, amount, Unapplied(old(tombstones), intent.value)))
    {
      after := PostRow(u, Purchase, amount, Some(OfSession(session)), intent);
      assert State() == Bought(old(State()), u, amount, session, intent);
      if intent.Some? {
        ApplyObservedReversals(u, intent.value, amount);
      }
    }

    /** Consume every unapplied tombstone of the intent, oldest first, against the credit just posted. */
    method ApplyObservedReversals(u: UserId, p: Intent, amount: real)
      requires u in users
      modifies this
      ensures State() == ApplyStones(old(State()), u, p, amount, Unapplied(old(tombstones), p))
      ensures Outcome(old(State()), State(), u, p, amount, Unapplied(old(tombstones), p))
    {
      var claimed := Unapplied(tombstones, p);
      ghost var start := State();
      var i := 0;
      while i < |claimed|
        invariant 0 <= i <= |claimed| && u in users
        invariant ApplyStones(State(), u, p, amount, claimed[i..]) == ApplyStones(start, u, p, amount, claimed)
      {
        ghost var before := State();
        var stone := claimed[i];
        if stone.dispute && users[u].frozen == None {
          users := users[u := users[u].(frozen := Some(Dispute))];
        }
        var covers := StoneCovers(stone, amount);
        if covers && !AlreadyReversed(ledger, stone.objectId, p) {
          var _ := PostRow(u, Refund, -amount, Some(OfObject(stone.objectId)), Some(p));
        }
        if stone.dispute || covers {
          tombstones := StampObject(tombstones, stone.objectId);
        }
        assert State() == ApplyStone(before, u, p, amount, stone);
        assert claimed[i..][1..] == claimed[i + 1..];
        i := i + 1;
      }
      assert claimed[i..] == [];
      StonesOutcome(start, u, p, amount, claimed);
    }

    method GrantPromo(u: UserId, amount: real) returns (granted: bool)
      modifies this
      ensures State() == Apply(Op.GrantPromo(u, amount), old(State()))
      ensures granted <==> amount > 0.0 && u in old(users)
      ensures users == if granted then Paid(old(users), u, amount) else old(users)
      ensures ledger == old(ledger) + if granted then
        [Entry(u, Promo, amount, old(users)[u].balance + amount, None, None)] else []
      ensures tombstones == old(tombstones) && charges == old(charges)
    {
      granted := amount > 0.0 && u in users;
      if granted {
        var _ := PostRow(u, Promo, amount, None, None);
      }
    }

    /** Take back what a refunded or disputed charge credited, once. */
    method ReversePurchase(p: Intent, o: ObjectId) returns (outcome: ReversalOutcome)
      modifies this
      ensures State() == Apply(Op.ReversePurchase(p, o), old(State()))
      ensures outcome == UnknownPurchase <==> forall e :: e in old(ledger) ==> !Credits(e, p)
      ensures outcome == WasReversed <==>
        && (exists e :: e in old(ledger) && Credits(e, p))
        && (exists e :: e in old(ledger)
              && (e.anchor == Some(OfObject(o)) || (e.kind == Refund && e.intent == Some(p))))
      ensures outcome.Reversed? ==>
        exists u, amount, after ::
          && Oldest(old(ledger), p, Some(Credit(u, amount))) && u in old(users)
          && after == old(users)[u].balance - amount && outcome == Reversed(amount, after)
          && users == Paid(old(users), u, -amount)
          && ledger == old(ledger) + [Entry(u, Refund, -amount, after, Some(OfObject(o)), Some(p))]
      ensures outcome == NoSuchUser ==>
        exists u, amount :: Oldest(old(ledger), p, Some(Credit(u, amount))) && u !in users
      ensures !outcome.Reversed? ==> users == old(users) && ledger == old(ledger)
      ensures tombstones == old(tombstones) && charges == old(charges)
    {
      ReverseShape(Op.ReversePurchase(p, o), State());
      CreditedIsOldest(ledger, p);
      var credited := Credited(ledger, p);
      if credited.None? {
        return UnknownPurchase;
      }
      if AlreadyReversed(ledger, o, p) {
        return WasReversed;
      }
      var u, amount := credited.value.user, credited.value.amount;
      if u !in users {
        return NoSuchUser;
      }
      var balanceAfter := PostRow(u, Refund, -amount, Some(OfObject(o)), Some(p));
      assert Oldest(old(ledger), p, Some(Credit(u, amount)));
      return Reversed(amount, balanceAfter);
    }

    /** Report the credit of the intent, or leave a tombstone for it. */
    method ResolveReversal(o: ObjectId, p: Intent, dispute: bool, cents: Option<int>, currency: Option<string>)
      returns (credited: Option<Credit>)
      modifies this
      ensures State() == Apply(Op.ResolveReversal(o, p, dispute, cents, currency), old(State()))
      ensures Oldest(old(ledger), p, credited)
      ensures credited.Some? ==> tombstones == old(tombstones)
      ensures credited.None? ==> Recorded(old(tombstones), tombstones, Tombstone(o, p, dispute, cents, currency, false))
      ensures users == old(users) && ledger == old(ledger) && charges == old(charges)
    {
      credited := Credited(ledger, p);
      CreditedIsOldest(ledger, p);
      if credited.None? {
        InsertIs(tombstones, o, p, dispute, cents, currency);
        tombstones := InsertObserved(tombstones, o, p, dispute, cents, currency);
      }
    }

    method MarkIntentReversalsApplied(p: Intent) returns (stamped: nat)
      modifies this
      ensures State() == Apply(MarkApplied(p), old(State()))
      ensures stamped == |Unapplied(old(tombstones), p)|
      ensures |tombstones| == |old(tombstones)|
      ensures forall i :: 0 <= i < |tombstones| ==>
        tombstones[i] ==
        if old(tombstones)[i].intent == p then old(tombstones)[i].(applied := true) else old(tombstones)[i]
      ensures users == old(users) && ledger == old(ledger) && charges == old(charges)
    {
      stamped := |Unapplied(tombstones, p)|;
      tombstones := StampIntent(tombstones, p);
    }

    method FreezeAccount(u: UserId, reason: FreezeReason) returns (froze: bool)
      modifies this
      ensures State() == Apply(Op.FreezeAccount(u, reason), old(State()))
      ensures froze <==> u in old(users) && old(users)[u].frozen == None
      ensures users == if froze then old(users)[u := old(users)[u].(frozen := Some(reason))] else old(users)
      ensures ledger == old(ledger) && tombstones == old(tombstones) && charges == old(charges)
    {
      froze := u in users && users[u].frozen == None;
      if froze {
        users := users[u := users[u].(frozen := Some(reason))];
      }
    }

    method UnfreezeAccount(u: UserId) returns (thawed: bool)
      modifies this
      ensures State() == Apply(Op.UnfreezeAccount(u), old(State()))
      ensures thawed <==> u in old(users) && old(users)[u].frozen.Some?
      ensures users == if u in old(users) then old(users)[u := old(users)[u].(frozen := None)] else old(users)
      ensures ledger == old(ledger) && tombstones == old(tombstones) && charges == old(charges)
    {
      thawed := u in users && users[u].frozen.Some?;
      if thawed {
        users := users[u := users[u].(frozen := None)];
      } else {
        assert u in users ==> users[u := users[u].(frozen := None)] == users;
      }
    }

    /** Forgive whatever is owed at this moment; the amount is read, never passed in. */
    method WriteOffReceivable(u: UserId) returns (outcome: ResolutionOutcome)
      modifies this
      ensures State() == Apply(Op.WriteOffReceivable(u), old(State()))
      ensures outcome.Forgiven? <==> u in old(users) && old(users)[u].balance < 0.0
      ensures outcome.Forgiven? ==>
        && outcome == Forgiven(-old(users)[u].balance, 0.0)
        && users == old(users)[u := old(users)[u].(balance := 0.0)]
        && ledger == old(ledger) + [Entry(u, WriteOff, -old(users)[u].balance, 0.0, None, None)]
      ensures outcome.AlreadyWrittenOff? <==>
        u in old(users) && old(users)[u].balance >= 0.0
        && exists e :: e in old(ledger) && e.user == u && e.kind == WriteOff
      ensures outcome.AlreadyWrittenOff? ==> outcome.balance == old(users)[u].balance
      ensures outcome == Unprocessable <==> u !in old(users)
      ensures !outcome.Forgiven? ==> users == old(users) && ledger == old(ledger)
      ensures tombstones == old(tombstones) && charges == old(charges)
    {
      if u !in users {
        return Unprocessable;
      }
      var balance := users[u].balance;
      if balance >= 0.0 {
        return if exists e :: e in ledger && e.user == u && e.kind == WriteOff then AlreadyWrittenOff(balance)
               else NotReviewable;
      }
      var after := PostRow(u, WriteOff, -balance, None, None);
      return Forgiven(-balance, after);
    }

    /** Record money that came back, on an account under review only. */
    method RecordRecovery(u: UserId, amount: real) returns (outcome: ResolutionOutcome)
      modifies this
      ensures State() == Apply(Op.RecordRecovery(u, amount), old(State()))
      ensures outcome.Recovered? <==>
        && amount > 0.0 && u in old(users)
        && (old(users)[u].frozen.Some? || old(users)[u].balance < 0.0
            || exists e :: e in old(ledger) && e.user == u && e.kind == Refund)
      ensures outcome.Recovered? ==>
        var after := old(users)[u].balance + amount;
        && outcome == ResolutionOutcome.Recovered(amount, after) && users == Paid(old(users), u, amount)
        && ledger == old(ledger) + [Entry(u, Recovery, amount, after, None, None)]
      ensures outcome == Unprocessable <==> amount <= 0.0 || u !in old(users)
      ensures !outcome.Recovered? ==> users == old(users) && ledger == old(ledger)
      ensures tombstones == old(tombstones) && charges == old(charges)
    {
      if amount <= 0.0 || u !in users {
        return Unprocessable;
      }
      if users[u].frozen == None && !HasRefund(ledger, u) && users[u].balance >= 0.0 {
        return NotReviewable;
      }
      var after := PostRow(u, Recovery, amount, None, None);
      return ResolutionOutcome.Recovered(amount, after);
    }

    method ClaimAutopayAttempt(u: UserId, amount: real, gross: real, key: ChargeKey) returns (claimed: bool)
      modifies this
      ensures State() == Apply(ClaimAutopay(u, amount, gross, key), old(State()))
      ensures claimed <==>
        && u in old(users) && Eligible(old(users)[u]) && old(users)[u].topup == Some(amount)
        && old(users)[u].threshold.Some? && old(users)[u].balance < old(users)[u].threshold.value
        && Local(key) !in old(charges) && SlotFree(old(charges), u)
      ensures charges == if claimed then old(charges)[Local(key) := Charge(u, amount, gross, Pending)] else old(charges)
      ensures users == old(users) && ledger == old(ledger) && tombstones == old(tombstones)
    {
      claimed := u in users && Armed(users[u]) && users[u].topup == Some(amount)
        && users[u].threshold.Some? && users[u].balance < users[u].threshold.value
        && Local(key) !in charges && !HasPending(charges, u);
      if claimed {
        charges := charges[Local(key) := Charge(u, amount, gross, Pending)];
      }
    }

    /** Two statements, each its own transaction: rename the claim, or drop it where nothing was renamed. */
    method AttachAutopayIntent(key: ChargeKey, p: Intent)
      modifies this
      ensures var renamed := Apply(AttachAutopay(key, p), old(State()));
        State() == if renamed != old(State()) then renamed else Apply(DropClaim(key), renamed)
      ensures charges ==
        if Local(key) in old(charges) && Stripe(p) !in old(charges)
        then (old(charges) - {Local(key)})[Stripe(p) := old(charges)[Local(key)]]
        else old(charges) - {Local(key)}
      ensures users == old(users) && ledger == old(ledger) && tombstones == old(tombstones)
    {
      var renamed := Local(key) in charges && Stripe(p) !in charges;
      if renamed {
        charges := (charges - {Local(key)})[Stripe(p) := charges[Local(key)]];
        assert Stripe(p) in charges && Stripe(p) !in old(charges);
      } else {
        charges := charges - {Local(key)};
      }
    }

    /** Credit a succeeded charge exactly once, or withhold it from an account that is no longer eligible. */
    method SettleAutopayIntent(p: Intent, recovered: Option<Billing.Recovered>) returns (outcome: AutopayOutcome)
      modifies this
      ensures State() == Apply(SettleAutopay(p, recovered), old(State()))
      ensures outcome == SlotTaken <==>
        Stripe(p) !in old(charges) && recovered.Some? && !SlotFree(old(charges), recovered.value.user)
      ensures outcome == Unknown <==> Stripe(p) !in old(charges) && recovered.None?
      // A stored row that disagrees is refused whatever its status; only a pending one is failed.
      ensures outcome == Disagreed <==>
        && Stripe(p) in old(charges) && recovered.Some?
        && recovered.value != Billing.Recovered(old(charges)[Stripe(p)].user, old(charges)[Stripe(p)].amount,
                                                old(charges)[Stripe(p)].gross)
      ensures outcome == Disagreed ==>
        var row := old(charges)[Stripe(p)];
        charges == if row.status == Pending then old(charges)[Stripe(p) := row.(status := Failed)] else old(charges)
      ensures outcome == AlreadySettled <==>
        && Stripe(p) in old(charges) && old(charges)[Stripe(p)].status != Pending
        && (recovered.Some? ==>
              recovered.value == Billing.Recovered(old(charges)[Stripe(p)].user, old(charges)[Stripe(p)].amount,
                                                   old(charges)[Stripe(p)].gross))
      ensures outcome in {SlotTaken, Unknown, AlreadySettled} ==> charges == old(charges)
      ensures outcome in {ChargeCredited, CreditWithheld} ==>
        var row := if Stripe(p) in old(charges) then old(charges)[Stripe(p)]
                   else Charge(recovered.value.user, recovered.value.amount, recovered.value.gross, Pending);
        && (outcome == ChargeCredited <==> row.user in old(users) && Eligible(old(users)[row.user]))
        && charges == old(charges)[Stripe(p) :=
             row.(status := if outcome == ChargeCredited then Succeeded else Withheld)]
        && (outcome == ChargeCredited ==>
             Outcome(Posted(old(State()), p, row), State(), row.user, p, row.amount, Unapplied(old(tombstones), p)))
      ensures outcome != ChargeCredited ==>
          ledger == old(ledger) && users == old(users) && tombstones == old(tombstones)
    {
      SettleShape(SettleAutopay(p, recovered), State());
      var row: Charge;
      if Stripe(p) in charges {
        row := charges[Stripe(p)];
      } else if recovered.Some? {
        if HasPending(charges, recovered.value.user) {
          return SlotTaken;
        }
        row := Charge(recovered.value.user, recovered.value.amount, recovered.value.gross, Pending);
      } else {
        return Unknown;
      }
      if recovered.Some? && recovered.value != Billing.Recovered(row.user, row.amount, row.gross) {
        if row.status == Pending {
          charges := charges[Stripe(p) := row.(status := Failed)];
        }
        return Disagreed;
      }
      if row.status != Pending {
        return AlreadySettled;
      }
      if row.user !in users || !Armed(users[row.user]) {
        charges := charges[Stripe(p) := row.(status := Withheld)];
        return CreditWithheld;
      }
      PostRecharge(p, row);
      return ChargeCredited;
    }

    method PostRecharge(p: Intent, row: Charge)
      requires row.user in users
      modifies this
      ensures State() == CreditCharge(old(State()), p, row, Unapplied(old(tombstones), p))
      ensures Outcome(Posted(old(State()), p, row), State(), row.user, p, row.amount, Unapplied(old(tombstones), p))
    {
      PostChargeIs(State(), p, row);
      charges := charges[Stripe(p) := row.(status := Succeeded)];
      users := users[row.user := users[row.user].(failures := 0)];
      var _ := PostRow(row.user, Autopay, row.amount, Some(OfIntent(p)), None);
      assert State() == Posted(old(State()), p, row);
      ApplyObservedReversals(row.user, p, row.amount);
    }

    /** A declined charge goes terminal and counts a strike; three strikes turn autopay off. */
    method FailAutopayIntent(id: ChargeId) returns (handled: bool)
      modifies this
      ensures State() == Apply(FailAutopay(id), old(State()))
      ensures handled <==> id in old(charges) && old(charges)[id].status == Pending
      ensures charges == if handled then old(charges)[id := old(charges)[id].(status := Failed)] else old(charges)
      ensures users == if handled then Struck(old(users), old(charges)[id].user) else old(users)
      ensures ledger == old(ledger) && tombstones == old(tombstones)
    {
      handled := id in charges && charges[id].status == Pending;
      if handled {
        var u := charges[id].user;
        charges := charges[id := charges[id].(status := Failed)];
        if u in users {
          var a := users[u];
          users := users[u := a.(failures := a.failures + 1,
                                 autopayEnabled := (a.autopayEnabled && a.failures + 1 < 3))];
        }
      }
    }

    /** A charge that failed before it had an intent counts the same strike. */
    method BumpAutopayFailure(u: UserId)
      modifies this
      ensures State() == Apply(BumpFailure(u), old(State()))
      ensures users == Struck(old(users), u)
      ensures ledger == old(ledger) && tombstones == old(tombstones) && charges == old(charges)
    {
      if u in users {
        var a := users[u];
        users := users[u := a.(failures := a.failures + 1,
                               autopayEnabled := (a.autopayEnabled && a.failures + 1 < 3))];
      }
    }

    /** The declined charge of a lost claim, recorded unless its key or the user's slot is taken. */
    method RecordAutopayCharge(p: Intent, u: UserId, amount: real, gross: real)
      modifies this
      ensures State() == Apply(RecordCharge(p, u, amount, gross), old(State()))
      ensures charges == if Stripe(p) !in old(charges) && SlotFree(old(charges), u)
                         then old(charges)[Stripe(p) := Charge(u, amount, gross, Pending)] else old(charges)
      ensures users == old(users) && ledger == old(ledger) && tombstones == old(tombstones)
    {
      if Stripe(p) !in charges && !HasPending(charges, u) {
        charges := charges[Stripe(p) := Charge(u, amount, gross, Pending)];
      }
    }

    /** Turning autopay on sets both amounts and forgets the strikes. */
    method ConfigureAutopay(u: UserId, threshold: real, topup: real) returns (updated: bool)
      modifies this
      ensures State() == Apply(Op.ConfigureAutopay(u, threshold, topup), old(State()))
      ensures updated <==> u in old(users)
      ensures users == if updated
                       then old(users)[u := Account(old(users)[u].balance, old(users)[u].frozen, true,
                                                    Some(threshold), Some(topup), 0)]
                       else old(users)
      ensures ledger == old(ledger) && tombstones == old(tombstones) && charges == old(charges)
    {
      updated := u in users;
      if updated {
        users := users[u := users[u].(autopayEnabled := true, threshold := Some(threshold), topup := Some(topup),
                                      failures := 0)];
      }
    }

    /** Turning it off touches nothing else. */
    method DisableAutopay(u: UserId)
      modifies this
      ensures State() == Apply(Op.DisableAutopay(u), old(State()))
      ensures users == if u in old(users) then old(users)[u := old(users)[u].(autopayEnabled := false)] else old(users)
      ensures ledger == old(ledger) && tombstones == old(tombstones) && charges == old(charges)
    {
      if u in users {
        users := users[u := users[u].(autopayEnabled := false)];
      }
    }

    /** The debit of one settled request, already clamped to what was held; the database refuses an overdraft. */
    method DebitUsage(u: UserId, debit: real) returns (debited: bool)
      modifies this
      ensures State() == Apply(Op.DebitUsage(u, debit), old(State()))
      ensures debited <==> debit > 0.0 && u in old(users) && old(users)[u].balance >= debit
      ensures users == if debited then Paid(old(users), u, -debit) else old(users)
      ensures ledger == old(ledger) + if debited then
        [Entry(u, Usage, -debit, old(users)[u].balance - debit, None, None)] else []
      ensures tombstones == old(tombstones) && charges == old(charges)
    {
      debited := debit > 0.0 && u in users && users[u].balance >= debit;
      if debited {
        var _ := PostRow(u, Usage, -debit, None, None);
      }
    }
  }
}
