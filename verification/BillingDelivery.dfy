/** The webhook side of one PaymentIntent: its credit, and the refund and dispute events that may reach the
    router before, while or after it lands, be redelivered, and fail half way.

    A handler runs one transaction at a time (resolve, freeze if a dispute, reverse if covering, mark applied),
    and anything may happen between two of them. Whatever the order, the account ends as the reports ask. */
module BillingDelivery {
  import opened Wrappers
  import opened Billing
  import opened BillingCents
  import opened BillingStones
  import opened BillingShapes
  import opened BillingInvariants
  import opened BillingLaws

  /** What one refund or dispute event says. */
  datatype Event = Event(objectId: ObjectId, dispute: bool, cents: Option<int>, currency: Option<string>)

  datatype Stage = Resolving | Freezing(credit: Credit) | Reversing(credit: Credit) | Marking

  datatype Flight = Flight(event: Event, stage: Stage)

  /** The events answered; those the tables took in, on a tombstone ahead of the credit or by finding it; and those of
      them seen through to the end. */
  datatype Log = Log(done: set<Event>, heard: set<Event>, heeded: set<Event>)

  datatype Desk = Desk(db: Db, flights: map<nat, Flight>, log: Log)

  /** What transactions elsewhere do to the freeze of the intent's customer: anything, anything but lift it, or nothing
      at all, from what it was. */
  datatype Others = Anything | NeverThaw | HandsOff(was: Option<FreezeReason>)

  datatype Move =
    | Deliver(handler: nat, event: Event)
    | Proceed(handler: nat)
    | Drop(handler: nat)
    | Land(credit: Op)
    | Elsewhere(op: Op)

  /** The webhook's own coverage test: a credit finer than a cent is never covered. */
  predicate WebhookCovers(e: Event, amount: real) {
    e.currency == Some("usd") && e.cents.Some? && UsdToCents(amount).Some? && e.cents.value >= UsdToCents(amount).value
  }

  predicate EventCovers(e: Event, amount: real) {
    Covers(e.cents, e.currency, amount)
  }

  /** The two coverage tests, in SQL over the tombstone and in the webhook, agree on every report exactly
      when the credit is a whole number of cents. */
  lemma CoverageAgrees(amount: real)
    ensures Whole(amount) <==> forall e: Event :: WebhookCovers(e, amount) <==> EventCovers(e, amount)
    ensures !Whole(amount) ==> forall e: Event :: !WebhookCovers(e, amount)
  {
    if Whole(amount) {
      assert amount * 100.0 + 0.5 < (amount * 100.0).Floor as real + 1.0;
      assert Cents(amount) == (amount * 100.0).Floor;
    } else {
      var e := Event(ObjectId(0), false, Some(Cents(amount)), Some("usd"));
      assert EventCovers(e, amount) && !WebhookCovers(e, amount);
    }
  }

  /** The transaction a handler runs at each stage. */
  function StageOp(p: Intent, f: Flight): Op {
    var e := f.event;
    match f.stage
    case Resolving => ResolveReversal(e.objectId, p, e.dispute, e.cents, e.currency)
    case Freezing(credit) => FreezeAccount(credit.user, Dispute)
    case Reversing(_) => ReversePurchase(p, e.objectId)
    case Marking => MarkApplied(p)
  }

  /** Where the handler goes once the credit is known and, for a dispute, the account frozen. */
  function Covering(e: Event, credit: Credit): Option<Stage> {
    if WebhookCovers(e, credit.amount) then Some(Reversing(credit)) else None
  }

  /** Where it goes from each stage, on the credit its transaction found; `None` is done. */
  function NextStage(f: Flight, credited: Option<Credit>): Option<Stage> {
    match f.stage
    case Resolving =>
      if credited.None? then None
      else if f.event.dispute then Some(Freezing(credited.value))
      else Covering(f.event, credited.value)
    case Freezing(credit) => Covering(f.event, credit)
    case Reversing(_) => if credited.None? then None else Some(Marking)
    case Marking => None
  }

  /** Recorded ahead of its credit, a report is taken in unless a tombstone of its object says something else. */
  predicate TakenIn(tombstones: seq<Tombstone>, p: Intent, e: Event) {
    forall t :: t in tombstones && t.objectId == e.objectId ==> !t.applied && SameAnchors(t, p, e.dispute, e.currency)
  }

  predicate Hears(p: Intent, f: Flight, credited: Option<Credit>, tombstones: seq<Tombstone>) {
    !f.stage.Resolving? || credited.Some? || TakenIn(tombstones, p, f.event)
  }

  function Noted(log: Log, e: Event, hears: bool, over: bool): Log {
    Log(if over then log.done + {e} else log.done,
        if hears then log.heard + {e} else log.heard,
        if hears && over then log.heeded + {e} else log.heeded)
  }

  /** The stages a handler goes through if it finds this credit at each. */
  ghost function Stages(e: Event, stage: Stage, credited: Option<Credit>): seq<Stage>
    decreases match stage case Resolving => 3 case Freezing(_) => 2 case Reversing(_) => 1 case Marking => 0
  {
    var next := NextStage(Flight(e, stage), credited);
    [stage] + if next.Some? then Stages(e, next.value, credited) else []
  }

  /** Where there is no credit a handler stops at once. Where there is, it freezes for a dispute, and whether or not it
      did, a report that covers the credit is reversed and then marked. */
  lemma HandlerLaw(e: Event, credit: Credit)
    ensures Stages(e, Resolving, None) == [Resolving]
    ensures var covers := e.currency == Some("usd") && e.cents.Some? && Whole(credit.amount)
                          && e.cents.value as real / 100.0 >= credit.amount;
      Stages(e, Resolving, Some(credit)) ==
        [Resolving] + (if e.dispute then [Freezing(credit)] else [])
        + (if covers then [Reversing(credit), Marking] else [])
  {
    assert Stages(e, Reversing(credit), Some(credit)) == [Reversing(credit), Marking];
  }

  ghost function After(d: Desk, h: nat, db: Db, e: Event, stage: Option<Stage>, hears: bool): Desk {
    Desk(db, if stage.Some? then d.flights[h := Flight(e, stage.value)] else d.flights - {h},
         Noted(d.log, e, hears, stage.None?))
  }

  ghost function Proceeded(p: Intent, d: Desk, h: nat): Desk
    requires h in d.flights
  {
    var f, credited := d.flights[h], Credited(d.db.ledger, p);
    After(d, h, Apply(StageOp(p, f), d.db), f.event, NextStage(f, credited), Hears(p, f, credited, d.db.tombstones))
  }

  ghost predicate ObjectOf(events: set<Event>, o: ObjectId) {
    exists e :: e in events && e.objectId == o
  }

  /** The row is anchored on one of these events. */
  ghost predicate AnchoredOn(events: set<Event>, e: Entry) {
    e.anchor.Some? && e.anchor.value.OfObject? && ObjectOf(events, e.anchor.value.objectId)
  }

  ghost predicate FreezeKept(others: Others, before: Option<FreezeReason>, after: Option<FreezeReason>) {
    match others
    case Anything => true
    case NeverThaw => before.Some? ==> after.Some?
    case HandsOff(_) => after == before
  }

  /** Rows and tombstones of other intents may come and go; no row and no tombstone of this one does. */
  ghost predicate Untouched(others: Others, p: Intent, events: set<Event>, db: Db, db': Db) {
    && (forall e :: (IsCredit(e, p) || IsRefund(e, p) || (e.anchor.Some? && e.anchor.value.OfObject?
                     && ObjectOf(events, e.anchor.value.objectId))) ==> (e in db'.ledger <==> e in db.ledger))
    && (forall t: Tombstone :: t.intent == p || ObjectOf(events, t.objectId) ==>
        (t in db'.tombstones <==> t in db.tombstones))
    && FreezeKept(others, FrozenAt(db, p), FrozenAt(db', p))
  }

  ghost function FrozenAt(db: Db, p: Intent): Option<FreezeReason> {
    if p.customer in db.users then db.users[p.customer].frozen else None
  }

  predicate CreditsOnly(op: Op, p: Intent) {
    (op.CreditPurchase? && op.paid == Some(p)) || (op.SettleAutopay? && op.intent == p)
  }

  ghost predicate Possible(others: Others, p: Intent, events: set<Event>, credit: Op, d: Desk, m: Move) {
    match m
    case Deliver(h, e) => h !in d.flights && e in events
    case Proceed(h) => h in d.flights
    case Drop(h) => h in d.flights
    case Land(op) => op == credit
    case Elsewhere(op) => Valid(op) && Untouched(others, p, events, d.db, Apply(op, d.db))
  }

  ghost function Moved(p: Intent, d: Desk, m: Move): Desk {
    match m
    case Deliver(h, e) => d.(flights := d.flights[h := Flight(e, Resolving)])
    case Proceed(h) => if h in d.flights then Proceeded(p, d, h) else d
    case Drop(h) => d.(flights := d.flights - {h})
    case Land(op) => d.(db := Apply(op, d.db))
    case Elsewhere(op) => d.(db := Apply(op, d.db))
  }

  ghost predicate Plays(others: Others, p: Intent, events: set<Event>, credit: Op, d: Desk, moves: seq<Move>, end: Desk)
    decreases |moves|
  {
    if moves == [] then end == d
    else
      && Possible(others, p, events, credit, d, moves[0])
      && Plays(others, p, events, credit, Moved(p, d, moves[0]), moves[1..], end)
  }

  // ---------------------------------------------------------------- what holds all along

  /** Two reports of one object that cannot both be true. */
  predicate Rivals(a: Event, b: Event) {
    a.objectId == b.objectId && (a.dispute != b.dispute || a.currency != b.currency)
  }

  ghost predicate Rivalled(events: set<Event>, e: Event) {
    exists x :: x in events && Rivals(x, e)
  }

  /** One object is one report: its kind and currency never change between deliveries. */
  ghost predicate Coherent(events: set<Event>) {
    forall a, b :: a in events && b in events ==> !Rivals(a, b)
  }

  ghost predicate AnyDisputed(events: set<Event>) {
    exists e :: e in events && e.dispute
  }

  ghost predicate AnyCovering(events: set<Event>, amount: real) {
    exists e :: e in events && EventCovers(e, amount)
  }

  /** The tombstone says what some event said. */
  ghost predicate Reported(events: set<Event>, t: Tombstone) {
    exists e :: e in events && e.objectId == t.objectId && e.dispute == t.dispute && e.cents == t.cents
        && e.currency == t.currency
  }

  ghost predicate AtLeast(a: Option<int>, b: Option<int>) {
    b.Some? ==> a.Some? && a.value >= b.value
  }

  ghost predicate Remembers(p: Intent, t: Tombstone, e: Event) {
    t.objectId == e.objectId && t.intent == p && !t.applied && t.dispute == e.dispute && t.currency == e.currency
    && AtLeast(t.cents, e.cents)
  }

  /** Tombstones and anchors of these events belong to this intent, and its tombstones say what was heard. */
  ghost predicate Clean(p: Intent, events: set<Event>, heard: set<Event>, db: Db) {
    && (forall t :: t in db.tombstones && ObjectOf(events, t.objectId) ==> t.intent == p)
    && (forall t :: t in db.tombstones && t.intent == p ==> Reported(heard, t))
    && (forall e :: e in db.ledger && AnchoredOn(events, e) ==> IsRefund(e, p))
  }

  /** Before the credit: every event taken in is remembered by a tombstone, and nothing has happened yet. */
  ghost predicate Awaiting(others: Others, p: Intent, d: Desk) {
    && !Refunded(d.db.ledger, p)
    && (others.HandsOff? ==> FrozenAt(d.db, p) == others.was)
    && (forall t :: t in d.db.tombstones && t.intent == p ==> !t.applied)
    && (forall e :: e in d.log.heeded ==> exists t :: t in d.db.tombstones && Remembers(p, t, e))
    && (forall h :: h in d.flights ==> d.flights[h].stage.Resolving?)
  }

  ghost predicate FlightOk(others: Others, p: Intent, db: Db, credit: Credit, f: Flight) {
    var froze := f.event.dispute && !others.Anything? ==> FrozenAt(db, p).Some?;
    match f.stage
    case Resolving => true
    case Freezing(c) => c == credit && f.event.dispute
    case Reversing(c) => c == credit && WebhookCovers(f.event, c.amount) && froze
    case Marking => Refunded(db.ledger, p) && froze
  }

  /** The freeze is what it was, or what a dispute makes of a free account. */
  ghost predicate FreezeExplained(was: Option<FreezeReason>, heard: set<Event>, now: Option<FreezeReason>) {
    now == was || (was.None? && now == Some(Dispute) && AnyDisputed(heard))
  }

  /** The intent is credited once. */
  ghost predicate Sole(p: Intent, ledger: seq<Entry>, credit: Credit) {
    forall e :: e in ledger && IsCredit(e, p) ==> e.user == credit.user && e.amount == credit.amount
  }

  /** After the credit: the account is frozen only for a dispute and the credit taken back only for a covering
      event, and every event seen through has had its effect. */
  ghost predicate Landed(others: Others, p: Intent, d: Desk, credit: Credit) {
    && credit.user == p.customer && p.customer in d.db.users
    && Sole(p, d.db.ledger, credit)
    && (others.HandsOff? ==> FreezeExplained(others.was, d.log.heard, FrozenAt(d.db, p)))
    && (Refunded(d.db.ledger, p) ==> AnyCovering(d.log.heard, credit.amount))
    && (!others.Anything? ==> forall e :: e in d.log.heeded && e.dispute ==> FrozenAt(d.db, p).Some?)
    && (forall e :: e in d.log.heeded && WebhookCovers(e, credit.amount) ==> Refunded(d.db.ledger, p))
    && (forall h :: h in d.flights ==> FlightOk(others, p, d.db, credit, d.flights[h]))
  }

  /** An event answered was seen through, or passed over for a rival that had been taken in. */
  ghost predicate Kept(log: Log) {
    log.heeded <= log.heard && forall e :: e in log.done && e !in log.heeded ==> Rivalled(log.heard, e)
  }

  ghost predicate EventsOnly(events: set<Event>, d: Desk) {
    d.log.done <= events && d.log.heard <= events && forall h :: h in d.flights ==> d.flights[h].event in events
  }

  /** The credit's own marker: its session is in the ledger, or its charge has succeeded. */
  ghost predicate Marked(p: Intent, credit: Op, db: Db) {
    if credit.CreditPurchase? then Anchored(db.ledger, OfSession(credit.session))
    else Stripe(p) in db.charges && db.charges[Stripe(p)].status == Succeeded
  }

  ghost predicate Phase(others: Others, p: Intent, credit: Op, d: Desk) {
    var credited := Credited(d.db.ledger, p);
    if credited.None? then Awaiting(others, p, d) else Landed(others, p, d, credited.value) && Marked(p, credit, d.db)
  }

  ghost predicate DeskInv(others: Others, p: Intent, events: set<Event>, credit: Op, d: Desk) {
    && Inv(d.db) && EventsOnly(events, d) && Kept(d.log)
    && Clean(p, events, d.log.heard, d.db) && Phase(others, p, credit, d)
  }

  // ---------------------------------------------------------------- the moves

  lemma MaxAtLeast(a: Option<int>, b: Option<int>)
    ensures AtLeast(MaxCents(a, b), a) && AtLeast(MaxCents(a, b), b)
    ensures MaxCents(a, b) == a || MaxCents(a, b) == b
    ensures MaxCents(a, b) == MaxCents(b, a)
  {
  }

  ghost function HeardWith(heard: set<Event>, tombstones: seq<Tombstone>, p: Intent, e: Event): set<Event> {
    if TakenIn(tombstones, p, e) then heard + {e} else heard
  }

  /** Recording an event that is taken in leaves a tombstone that remembers it; none is forgotten, and none comes to
      say what was not heard. */
  lemma {:induction false} InsertRemembers(tombstones: seq<Tombstone>, p: Intent, events: set<Event>,
                                           heard: set<Event>, e: Event)
    requires e in events && DistinctStones(tombstones)
    requires forall t :: t in tombstones && ObjectOf(events, t.objectId) ==> t.intent == p
    requires forall t :: t in tombstones && t.intent == p ==> Reported(heard, t) && !t.applied
    ensures var r := InsertObserved(tombstones, e.objectId, p, e.dispute, e.cents, e.currency);
      && (TakenIn(tombstones, p, e) ==> exists t :: t in r && Remembers(p, t, e))
      && (forall t, x :: t in tombstones && Remembers(p, t, x) ==> exists t' :: t' in r && Remembers(p, t', x))
      && (forall t :: t in r && t.intent == p ==> Reported(HeardWith(heard, tombstones, p, e), t) && !t.applied)
      && (forall t :: t in r && ObjectOf(events, t.objectId) ==> t.intent == p)
  {
    var r := InsertObserved(tombstones, e.objectId, p, e.dispute, e.cents, e.currency);
    if tombstones == [] {
      var t := Tombstone(e.objectId, p, e.dispute, e.cents, e.currency, false);
      assert r == [t] && Remembers(p, t, e) && Reported({e}, t);
    } else {
      var head, rest := tombstones[0], tombstones[1..];
      assert tombstones == [head] + rest;
      assert forall t :: t in tombstones <==> t == head || t in rest;
      if head.objectId != e.objectId {
        InsertRemembers(rest, p, events, heard, e);
        var r' := InsertObserved(rest, e.objectId, p, e.dispute, e.cents, e.currency);
        assert r == [head] + r';
        assert forall t :: t in r <==> t == head || t in r';
        assert TakenIn(tombstones, p, e) <==> TakenIn(rest, p, e);
        RemembersCons(p, e, head, rest, r');
      } else {
        MergeRemembers(head, rest, p, events, heard, e);
      }
    }
  }

  /** A report of a known object is merged if it agrees, or else passed over. */
  lemma MergeRemembers(head: Tombstone, rest: seq<Tombstone>, p: Intent, events: set<Event>, heard: set<Event>,
                       e: Event)
    requires e in events && head.objectId == e.objectId && DistinctStones([head] + rest)
    requires forall t :: t in [head] + rest && ObjectOf(events, t.objectId) ==> t.intent == p
    requires forall t :: t in [head] + rest && t.intent == p ==> Reported(heard, t) && !t.applied
    ensures var r := InsertObserved([head] + rest, e.objectId, p, e.dispute, e.cents, e.currency);
      && (TakenIn([head] + rest, p, e) ==> exists t :: t in r && Remembers(p, t, e))
      && (forall t, x :: t in [head] + rest && Remembers(p, t, x) ==> exists t' :: t' in r && Remembers(p, t', x))
      && (forall t :: t in r && t.intent == p ==> Reported(HeardWith(heard, [head] + rest, p, e), t) && !t.applied)
      && (forall t :: t in r && ObjectOf(events, t.objectId) ==> t.intent == p)
  {
    var tombstones := [head] + rest;
    var r := InsertObserved(tombstones, e.objectId, p, e.dispute, e.cents, e.currency);
    assert head in tombstones && ObjectOf(events, head.objectId);
    assert TakenIn(tombstones, p, e) <==> SameAnchors(head, p, e.dispute, e.currency) by {
      forall t | t in tombstones && t.objectId == e.objectId ensures t == head {
        var i :| 0 <= i < |tombstones| && tombstones[i] == t;
      }
    }
    if TakenIn(tombstones, p, e) {
      MaxAtLeast(head.cents, e.cents);
      var merged := head.(cents := MaxCents(head.cents, e.cents));
      assert r == [merged] + rest;
      assert forall t :: t in r <==> t == merged || t in rest;
      assert Remembers(p, merged, e) && Reported(heard + {e}, merged);
      forall t, y | t in tombstones && Remembers(p, t, y) ensures exists t' :: t' in r && Remembers(p, t', y) {
        if t == head { assert Remembers(p, merged, y); } else { assert t in r; }
      }
    } else {
      assert r == tombstones;
    }
  }

  lemma RemembersCons(p: Intent, e: Event, head: Tombstone, rest: seq<Tombstone>, r: seq<Tombstone>)
    requires forall t, x :: t in rest && Remembers(p, t, x) ==> exists t' :: t' in r && Remembers(p, t', x)
    ensures (exists t :: t in r && Remembers(p, t, e)) ==> exists t :: t in [head] + r && Remembers(p, t, e)
    ensures forall t, x :: t in [head] + rest && Remembers(p, t, x) ==>
        exists t' :: t' in [head] + r && Remembers(p, t', x)
  {
    if t :| t in r && Remembers(p, t, e) {
      assert t in [head] + r;
    }
    forall t, x | t in [head] + rest && Remembers(p, t, x)
      ensures exists t' :: t' in [head] + r && Remembers(p, t', x)
    {
      if t in rest {
        var t' :| t' in r && Remembers(p, t', x);
        assert t' in [head] + r;
      } else {
        assert head in [head] + r;
      }
    }
  }

  lemma WebhookMeansCovers(e: Event, amount: real)
    requires WebhookCovers(e, amount)
    ensures EventCovers(e, amount)
  {
    CoverageAgrees(amount);
  }

  /** What is passed over has a rival, the report the tombstone in its way came from. */
  lemma PassedOverForRival(p: Intent, events: set<Event>, heard: set<Event>, db: Db, e: Event)
    requires Clean(p, events, heard, db) && e in events && !TakenIn(db.tombstones, p, e)
    requires forall t :: t in db.tombstones && t.intent == p ==> !t.applied
    ensures Rivalled(heard, e)
  {
    var t :| t in db.tombstones && t.objectId == e.objectId
        && !(!t.applied && SameAnchors(t, p, e.dispute, e.currency));
    assert ObjectOf(events, t.objectId) && Reported(heard, t);
    var x :| x in heard && x.objectId == t.objectId && x.dispute == t.dispute && x.cents == t.cents
        && x.currency == t.currency;
    assert Rivals(x, e);
  }

  /** Whatever stage it is at, a handler that is over has seen its event through, or passed it over for a rival. */
  lemma NotedKept(log: Log, e: Event, hears: bool, over: bool)
    requires Kept(log) && (hears || Rivalled(log.heard, e))
    ensures Kept(Noted(log, e, hears, over))
  {
    var log' := Noted(log, e, hears, over);
    forall x | x in log'.done && x !in log'.heeded ensures Rivalled(log'.heard, x) {
      var y :| y in log.heard && Rivals(y, x);
      assert y in log'.heard;
    }
  }

  /** The handler finds no credit and leaves a tombstone, or passes its event over. */
  lemma ResolvedAwaiting(others: Others, p: Intent, events: set<Event>, d: Desk, h: nat)
    requires EventsOnly(events, d) && Kept(d.log) && Clean(p, events, d.log.heard, d.db) && Awaiting(others, p, d)
    requires h in d.flights && Credited(d.db.ledger, p).None? && DistinctStones(d.db.tombstones)
    ensures var d' := Proceeded(p, d, h);
      && d'.db.ledger == d.db.ledger && EventsOnly(events, d') && Kept(d'.log)
      && Clean(p, events, d'.log.heard, d'.db) && Awaiting(others, p, d')
  {
    var e := d.flights[h].event;
    var d' := Proceeded(p, d, h);
    InsertRemembers(d.db.tombstones, p, events, d.log.heard, e);
    if !TakenIn(d.db.tombstones, p, e) { PassedOverForRival(p, events, d.log.heard, d.db, e); }
    NotedKept(d.log, e, TakenIn(d.db.tombstones, p, e), true);
    assert d'.log.heard == HeardWith(d.log.heard, d.db.tombstones, p, e);
    forall x | x in d'.log.heeded ensures exists t :: t in d'.db.tombstones && Remembers(p, t, x) {
      if x in d.log.heeded {
        var t :| t in d.db.tombstones && Remembers(p, t, x);
      }
    }
  }

  /** What is said of what was heard stays said when more is heard. */
  lemma CleanStays(p: Intent, events: set<Event>, heard: set<Event>, db: Db, heard': set<Event>)
    requires Clean(p, events, heard, db) && heard <= heard'
    ensures Clean(p, events, heard', db)
  {
    forall t | t in db.tombstones && t.intent == p ensures Reported(heard', t) {
      assert Reported(heard, t);
    }
  }

  /** The handler finds the credit: it only reads. */
  lemma ResolvedLanded(others: Others, p: Intent, events: set<Event>, d: Desk, h: nat, credit: Credit)
    requires Landed(others, p, d, credit) && EventsOnly(events, d)
    requires h in d.flights && d.flights[h].stage.Resolving? && Credited(d.db.ledger, p) == Some(credit)
    ensures Proceeded(p, d, h).db == d.db
    ensures Landed(others, p, Proceeded(p, d, h), credit) && EventsOnly(events, Proceeded(p, d, h))
  {
  }

  lemma FrozenLanded(others: Others, p: Intent, events: set<Event>, d: Desk, h: nat, credit: Credit)
    requires Landed(others, p, d, credit) && EventsOnly(events, d)
    requires h in d.flights && d.flights[h].stage.Freezing?
    ensures var d' := Proceeded(p, d, h);
      Landed(others, p, d', credit) && EventsOnly(events, d') && d'.db == d.db.(users := d'.db.users)
  {
    assert d.flights[h].event in Proceeded(p, d, h).log.heard;
  }

  /** The reversal leaves the credit's whole amount taken back, by it or before it. */
  lemma ReversalTakes(p: Intent, events: set<Event>, heard: set<Event>, db: Db, o: ObjectId, credit: Credit)
    requires Clean(p, events, heard, db) && ObjectOf(events, o) && Credited(db.ledger, p) == Some(credit)
    requires Sole(p, db.ledger, credit) && credit.user == p.customer && p.customer in db.users
    ensures var db' := Apply(ReversePurchase(p, o), db);
      && Refunded(db'.ledger, p) && db.ledger <= db'.ledger && Sole(p, db'.ledger, credit)
      && Credited(db'.ledger, p) == Some(credit) && Clean(p, events, heard, db')
      && db'.charges == db.charges && FrozenAt(db', p) == FrozenAt(db, p) && db'.users.Keys == db.users.Keys
  {
    var db' := Apply(ReversePurchase(p, o), db);
    ReverseShape(ReversePurchase(p, o), db);
    if ReversalApplies(db, p, o) {
      var row := db'.ledger[|db.ledger|];
      RefundRecorded(db.ledger, row, p);
      CreditedStable(db.ledger, [row], p);
      assert forall x :: x in db'.ledger <==> x in db.ledger || x == row;
    } else if Anchored(db.ledger, OfObject(o)) {
      var row :| row in db.ledger && row.anchor == Some(OfObject(o));
      assert IsRefund(row, p);
    }
  }

  lemma ReversedLanded(others: Others, p: Intent, events: set<Event>, d: Desk, h: nat, credit: Credit)
    requires Landed(others, p, d, credit) && EventsOnly(events, d) && Clean(p, events, d.log.heard, d.db)
    requires h in d.flights && d.flights[h].stage.Reversing? && Credited(d.db.ledger, p) == Some(credit)
    ensures var d' := Proceeded(p, d, h);
      && Landed(others, p, d', credit) && EventsOnly(events, d') && Clean(p, events, d'.log.heard, d'.db)
      && Credited(d'.db.ledger, p) == Some(credit) && d.db.ledger <= d'.db.ledger && d'.db.charges == d.db.charges
  {
    var e := d.flights[h].event;
    var d' := Proceeded(p, d, h);
    WebhookMeansCovers(e, credit.amount);
    ReversalTakes(p, events, d.log.heard, d.db, e.objectId, credit);
    CleanStays(p, events, d.log.heard, d'.db, d'.log.heard);
    assert e in d'.log.heard;
  }

  lemma MarkedLanded(others: Others, p: Intent, events: set<Event>, d: Desk, h: nat, credit: Credit)
    requires Landed(others, p, d, credit) && EventsOnly(events, d) && Clean(p, events, d.log.heard, d.db)
    requires h in d.flights && d.flights[h].stage.Marking?
    ensures var d' := Proceeded(p, d, h);
      && Landed(others, p, d', credit) && EventsOnly(events, d') && Clean(p, events, d'.log.heard, d'.db)
      && d'.db == d.db.(tombstones := d'.db.tombstones)
  {
    var d' := Proceeded(p, d, h);
    CleanStays(p, events, d.log.heard, d.db, d'.log.heard);
    forall t | t in d'.db.tombstones
      ensures (ObjectOf(events, t.objectId) ==> t.intent == p) && (t.intent == p ==> Reported(d'.log.heard, t))
    {
      var i :| 0 <= i < |d'.db.tombstones| && d'.db.tombstones[i] == t;
      assert d.db.tombstones[i] in d.db.tombstones && t == d.db.tombstones[i].(applied := t.applied);
    }
  }

  lemma ProceedKeeps(others: Others, p: Intent, events: set<Event>, credit: Op, d: Desk, h: nat)
    requires DeskInv(others, p, events, credit, d) && h in d.flights
    ensures DeskInv(others, p, events, credit, Proceeded(p, d, h))
  {
    var e := d.flights[h].event;
    var credited := Credited(d.db.ledger, p);
    StageIsValid(p, d.flights[h]);
    ApplyKeeps(StageOp(p, d.flights[h]), d.db);
    if credited.None? {
      ResolvedAwaiting(others, p, events, d, h);
    } else {
      ProceedsLanded(others, p, events, credit, d, h, credited.value);
      NotedKept(d.log, e, true, NextStage(d.flights[h], credited).None?);
    }
  }

  lemma ProceedsLanded(others: Others, p: Intent, events: set<Event>, credit: Op, d: Desk, h: nat, landed: Credit)
    requires Landed(others, p, d, landed) && EventsOnly(events, d) && Clean(p, events, d.log.heard, d.db)
    requires h in d.flights && Credited(d.db.ledger, p) == Some(landed) && Marked(p, credit, d.db)
    ensures var d' := Proceeded(p, d, h);
      && Landed(others, p, d', landed) && EventsOnly(events, d') && Clean(p, events, d'.log.heard, d'.db)
      && Credited(d'.db.ledger, p) == Some(landed) && Marked(p, credit, d'.db)
  {
    var d' := Proceeded(p, d, h);
    match d.flights[h].stage
    case Resolving =>
      ResolvedLanded(others, p, events, d, h, landed);
      CleanStays(p, events, d.log.heard, d.db, d'.log.heard);
    case Freezing(_) =>
      FrozenLanded(others, p, events, d, h, landed);
      CleanStays(p, events, d.log.heard, d.db, d'.log.heard);
    case Reversing(_) =>
      ReversedLanded(others, p, events, d, h, landed);
      MarkedStays(p, credit, d.db, d'.db);
    case Marking => MarkedLanded(others, p, events, d, h, landed);
  }

  lemma MarkedStays(p: Intent, credit: Op, db: Db, db': Db)
    requires Marked(p, credit, db) && db.ledger <= db'.ledger
    requires Stripe(p) in db.charges && db.charges[Stripe(p)].status == Succeeded ==>
      Stripe(p) in db'.charges && db'.charges[Stripe(p)] == db.charges[Stripe(p)]
    ensures Marked(p, credit, db')
  {
    if credit.CreditPurchase? {
      var e :| e in db.ledger && e.anchor == Some(OfSession(credit.session));
      assert e in db'.ledger;
    }
  }

  // ---------------------------------------------------------------- the credit lands

  /** What the landing credit finds: one unapplied tombstone for everything that finished before it. */
  lemma StonesAwaiting(p: Intent, heard: set<Event>, tombstones: seq<Tombstone>, heeded: set<Event>,
                       stones: seq<Tombstone>)
    requires stones == Unapplied(tombstones, p)
    requires forall t :: t in tombstones && t.intent == p ==> Reported(heard, t) && !t.applied
    requires forall e :: e in heeded ==> exists t :: t in tombstones && Remembers(p, t, e)
    ensures forall t :: t in stones ==> Reported(heard, t)
    ensures forall e :: e in heeded ==> exists t :: t in stones && Remembers(p, t, e)
  {
    forall t ensures t in stones <==> t in tombstones && t.intent == p && !t.applied {
      UnappliedIs(tombstones, p, t);
    }
    forall e | e in heeded ensures exists t :: t in stones && Remembers(p, t, e) {
      var t :| t in tombstones && Remembers(p, t, e);
      assert t in stones;
    }
  }

  ghost predicate AnyCovers(stones: seq<Tombstone>, amount: real) {
    exists t :: t in stones && StoneCovers(t, amount)
  }

  /** No row is anchored on one of these events yet. */
  ghost predicate Unanchored(events: set<Event>, ledger: seq<Entry>) {
    forall e :: e in ledger && e.anchor.Some? && e.anchor.value.OfObject? ==> !ObjectOf(events, e.anchor.value.objectId)
  }

  /** The landing adds no refund row or one, and one iff a tombstone covers the credit. */
  lemma LandingRefunds(p: Intent, events: set<Event>, heard: set<Event>, posted: Db, end: Db, amount: real,
                       stones: seq<Tombstone>)
    returns (more: seq<Entry>)
    requires p.customer in posted.users && Outcome(posted, end, p.customer, p, amount, stones)
    requires !Refunded(posted.ledger, p) && Unanchored(events, posted.ledger)
    requires heard <= events && forall t :: t in stones ==> Reported(heard, t)
    ensures end.ledger == posted.ledger + more
    ensures forall e :: e in more ==> IsRefund(e, p)
    ensures Refunded(end.ledger, p) <==> AnyCovers(stones, amount)
  {
    forall t | t in stones ensures Taker(posted.ledger, p, amount, t) <==> StoneCovers(t, amount) {
      assert Reported(heard, t) && ObjectOf(events, t.objectId);
    }
    if AnyTaker(posted.ledger, p, amount, stones) {
      var t :| t in stones && Taker(posted.ledger, p, amount, t) &&
        end.ledger == posted.ledger
            + [Entry(p.customer, Refund, -amount, end.users[p.customer].balance, Some(OfObject(t.objectId)), Some(p))];
      more := [end.ledger[|posted.ledger|]];
      RefundRecorded(posted.ledger, more[0], p);
    } else {
      more := [];
    }
  }

  /** A tombstone that does something stands for an event that does. */
  lemma StonesSound(heard: set<Event>, stones: seq<Tombstone>, amount: real)
    requires forall t :: t in stones ==> Reported(heard, t)
    ensures AnyDispute(stones) ==> AnyDisputed(heard)
    ensures AnyCovers(stones, amount) ==> AnyCovering(heard, amount)
  {
    if t :| t in stones && t.dispute {
      assert Reported(heard, t);
    }
    if t :| t in stones && StoneCovers(t, amount) {
      assert Reported(heard, t);
      var e :| e in heard && e.objectId == t.objectId && e.dispute == t.dispute && e.cents == t.cents
          && e.currency == t.currency;
      assert EventCovers(e, amount);
    }
  }

  /** And every event seen through has its tombstone. */
  lemma StonesComplete(p: Intent, heeded: set<Event>, stones: seq<Tombstone>, amount: real)
    requires forall e :: e in heeded ==> exists t :: t in stones && Remembers(p, t, e)
    ensures forall e :: e in heeded && e.dispute ==> AnyDispute(stones)
    ensures forall e :: e in heeded && WebhookCovers(e, amount) ==> AnyCovers(stones, amount)
  {
    forall e | e in heeded && WebhookCovers(e, amount) ensures AnyCovers(stones, amount) {
      WebhookMeansCovers(e, amount);
      var t :| t in stones && Remembers(p, t, e);
      assert StoneCovers(t, amount);
    }
  }

  lemma LandingClean(p: Intent, events: set<Event>, heard: set<Event>, before: seq<Tombstone>, db: Db, end: Db)
    requires Clean(p, events, heard, db) && db.tombstones == before && OnlyStamped(before, end.tombstones)
    requires forall e :: e in end.ledger ==>
        e in db.ledger || IsRefund(e, p) || !(e.anchor.Some? && e.anchor.value.OfObject?)
    ensures Clean(p, events, heard, end)
  {
    forall t | t in end.tombstones
      ensures (ObjectOf(events, t.objectId) ==> t.intent == p) && (t.intent == p ==> Reported(heard, t))
    {
      var i :| 0 <= i < |end.tombstones| && end.tombstones[i] == t;
      assert before[i] in before && t == before[i].(applied := t.applied);
    }
  }

  /** Put together, with the loop's own facts out of sight. */
  lemma LandingAssembles(others: Others, p: Intent, d: Desk, end: Db, credit: Credit, stones: seq<Tombstone>)
    requires credit.user == p.customer && p.customer in end.users && Sole(p, end.ledger, credit)
    requires others.HandsOff? ==> FrozenAt(d.db, p) == others.was
    requires end.users[p.customer].frozen ==
      if AnyDispute(stones) && FrozenAt(d.db, p).None? then Some(Dispute) else FrozenAt(d.db, p)
    requires Refunded(end.ledger, p) <==> AnyCovers(stones, credit.amount)
    requires forall t :: t in stones ==> Reported(d.log.heard, t)
    requires forall e :: e in d.log.heeded ==> exists t :: t in stones && Remembers(p, t, e)
    requires forall h :: h in d.flights ==> d.flights[h].stage.Resolving?
    ensures Landed(others, p, d.(db := end), credit)
  {
    StonesSound(d.log.heard, stones, credit.amount);
    StonesComplete(p, d.log.heeded, stones, credit.amount);
  }

  /** The credit's own row is the first of its intent, and what follows is no credit. */
  lemma LandingCredits(p: Intent, ledger: seq<Entry>, c: Entry, more: seq<Entry>)
    requires Credited(ledger, p).None? && IsCredit(c, p) && forall e :: e in more ==> IsRefund(e, p)
    ensures Credited(ledger + [c] + more, p) == Some(Credit(c.user, c.amount))
    ensures Sole(p, ledger + [c] + more, Credit(c.user, c.amount))
  {
    CreditedStable(ledger, [c] + more, p);
    CreditedIs(ledger, p);
    assert ledger + [c] + more == ledger + ([c] + more);
  }

  /** A row is posted where nothing was credited yet: the landing meets what finished before it. */
  lemma LandsOnAwaiting(others: Others, p: Intent, events: set<Event>, d: Desk, posted: Db, c: Entry)
    requires Clean(p, events, d.log.heard, d.db) && Awaiting(others, p, d) && Credited(d.db.ledger, p).None?
    requires p.customer in posted.users && posted.users[p.customer].frozen == FrozenAt(d.db, p)
    requires posted.ledger == d.db.ledger + [c] && posted.tombstones == d.db.tombstones && d.log.heard <= events
    requires IsCredit(c, p) && c.user == p.customer && !(c.anchor.Some? && c.anchor.value.OfObject?)
    ensures var end := ApplyStones(posted, p.customer, p, c.amount, Unapplied(posted.tombstones, p));
      && Landed(others, p, d.(db := end), Credit(c.user, c.amount)) && Clean(p, events, d.log.heard, end)
      && Credited(end.ledger, p) == Some(Credit(c.user, c.amount)) && posted.ledger <= end.ledger
          && end.charges == posted.charges
  {
    var u, amount, heard := p.customer, c.amount, d.log.heard;
    var stones := Unapplied(posted.tombstones, p);
    var end := ApplyStones(posted, u, p, amount, stones);
    StonesOutcome(posted, u, p, amount, stones);
    StonesAwaiting(p, heard, posted.tombstones, d.log.heeded, stones);
    assert Unanchored(events, posted.ledger) by { UnanchoredYet(p, events, d.db.ledger, c); }
    assert !Refunded(posted.ledger, p);
    var more := LandingRefunds(p, events, heard, posted, end, amount, stones);
    LandingCredits(p, d.db.ledger, c, more);
    LandingAssembles(others, p, d, end, Credit(c.user, amount), stones);
    LandingClean(p, events, heard, posted.tombstones, d.db, end);
  }

  lemma UnanchoredYet(p: Intent, events: set<Event>, ledger: seq<Entry>, c: Entry)
    requires !Refunded(ledger, p) && !(c.anchor.Some? && c.anchor.value.OfObject?)
    requires forall e :: e in ledger && AnchoredOn(events, e) ==> IsRefund(e, p)
    ensures Unanchored(events, ledger + [c])
  {
  }

  /** The purchase lands, or has landed before and does nothing. */
  lemma PurchaseLands(others: Others, p: Intent, events: set<Event>, credit: Op, d: Desk)
    requires DeskInv(others, p, events, credit, d) && Valid(credit) && credit.CreditPurchase? && credit.paid == Some(p)
    ensures DeskInv(others, p, events, credit, d.(db := Apply(credit, d.db)))
  {
    PurchaseShape(credit, d.db);
    if credit.amount > 0.0 && !Anchored(d.db.ledger, OfSession(credit.session)) && credit.user in d.db.users {
      ApplyKeeps(credit, d.db);
      var posted := Post(d.db, credit.user, Purchase, credit.amount, Some(OfSession(credit.session)), Some(p));
      var c := posted.ledger[|d.db.ledger|];
      LandsOnAwaiting(others, p, events, d, posted, c);
      assert c in posted.ledger && c in Apply(credit, d.db).ledger;
    }
  }

  /** The recharge is credited, refused or withheld, or was settled before and is left alone. */
  lemma SettlementLands(others: Others, p: Intent, events: set<Event>, credit: Op, d: Desk)
    requires DeskInv(others, p, events, credit, d) && Valid(credit) && credit.SettleAutopay? && credit.intent == p
    ensures DeskInv(others, p, events, credit, d.(db := Apply(credit, d.db)))
  {
    SettleShape(credit, d.db);
    ApplyKeeps(credit, d.db);
    var due := Due(credit, d.db);
    if due.Some? {
      assert Credited(d.db.ledger, p).None?;
      if Agrees(credit, due.value) && ArmedUser(d.db, due.value.user) {
        RechargeLands(others, p, events, credit, d, due.value);
      } else {
        AwaitingCharges(others, p, events, d, Apply(credit, d.db));
      }
    }
  }

  lemma RechargeLands(others: Others, p: Intent, events: set<Event>, credit: Op, d: Desk, c: Charge)
    requires Clean(p, events, d.log.heard, d.db) && Awaiting(others, p, d) && EventsOnly(events, d)
    requires Credited(d.db.ledger, p).None?
    requires credit.SettleAutopay? && credit.intent == p && c.user == p.customer && ArmedUser(d.db, c.user)
    ensures var end := CreditCharge(d.db, p, c, Unapplied(d.db.tombstones, p));
      && EventsOnly(events, d.(db := end)) && Clean(p, events, d.log.heard, end)
      && Phase(others, p, credit, d.(db := end))
  {
    var posted := PostCharge(d.db, p, c);
    LandsOnAwaiting(others, p, events, d, posted, posted.ledger[|d.db.ledger|]);
  }

  lemma AwaitingCharges(others: Others, p: Intent, events: set<Event>, d: Desk, end: Db)
    requires Awaiting(others, p, d) && Clean(p, events, d.log.heard, d.db) && end == d.db.(charges := end.charges)
    ensures Awaiting(others, p, d.(db := end)) && Clean(p, events, d.log.heard, end)
  {
  }

  // ---------------------------------------------------------------- everything else

  lemma {:induction false} SameCredited(p: Intent, ledger: seq<Entry>, ledger': seq<Entry>)
    requires ledger <= ledger' && forall e :: IsCredit(e, p) && e in ledger' ==> e in ledger
    ensures Credited(ledger', p) == Credited(ledger, p)
  {
    var more := ledger'[|ledger|..];
    assert ledger' == ledger + more;
    CreditedStable(ledger, more, p);
    CreditedIs(ledger, p);
    CreditedIs(more, p);
  }

  lemma ElsewhereAwaiting(others: Others, p: Intent, events: set<Event>, d: Desk, db': Db)
    requires Awaiting(others, p, d) && Clean(p, events, d.log.heard, d.db) && Untouched(others, p, events, d.db, db')
    ensures Awaiting(others, p, d.(db := db')) && Clean(p, events, d.log.heard, db')
  {
    forall e | e in d.log.heeded ensures exists t :: t in db'.tombstones && Remembers(p, t, e) {
      var t :| t in d.db.tombstones && Remembers(p, t, e);
    }
  }

  lemma ElsewhereLanded(others: Others, p: Intent, events: set<Event>, d: Desk, db': Db, credit: Credit)
    requires Landed(others, p, d, credit) && Clean(p, events, d.log.heard, d.db)
    requires Untouched(others, p, events, d.db, db') && p.customer in db'.users
    ensures Landed(others, p, d.(db := db'), credit) && Clean(p, events, d.log.heard, db')
  {
    assert Refunded(db'.ledger, p) <==> Refunded(d.db.ledger, p);
  }

  lemma ElsewhereKeeps(others: Others, p: Intent, events: set<Event>, credit: Op, d: Desk, op: Op)
    requires DeskInv(others, p, events, credit, d) && Valid(op) && Untouched(others, p, events, d.db, Apply(op, d.db))
    ensures DeskInv(others, p, events, credit, d.(db := Apply(op, d.db)))
  {
    var db' := Apply(op, d.db);
    ApplyKeeps(op, d.db);
    ApplyLawful(op, d.db);
    SameCredited(p, d.db.ledger, db'.ledger);
    if Credited(d.db.ledger, p).None? {
      ElsewhereAwaiting(others, p, events, d, db');
    } else {
      CreditedOwner(db', p);
      ElsewhereLanded(others, p, events, d, db', Credited(d.db.ledger, p).value);
      MarkedStays(p, credit, d.db, db');
    }
  }

  /** A delivery starts a handler; a failure drops one. */
  lemma HandlersKeep(others: Others, p: Intent, events: set<Event>, credit: Op, d: Desk, m: Move)
    requires DeskInv(others, p, events, credit, d)
    requires Possible(others, p, events, credit, d, m) && (m.Deliver? || m.Drop?)
    ensures DeskInv(others, p, events, credit, Moved(p, d, m))
  {
  }

  lemma MoveKeeps(others: Others, p: Intent, events: set<Event>, credit: Op, d: Desk, m: Move)
    requires CreditsOnly(credit, p) && Valid(credit)
    requires DeskInv(others, p, events, credit, d) && Possible(others, p, events, credit, d, m)
    ensures DeskInv(others, p, events, credit, Moved(p, d, m))
  {
    match m
    case Proceed(h) => ProceedKeeps(others, p, events, credit, d, h);
    case Land(op) =>
      if op.CreditPurchase? {
        PurchaseLands(others, p, events, credit, d);
      } else {
        SettlementLands(others, p, events, credit, d);
      }
    case Elsewhere(op) => ElsewhereKeeps(others, p, events, credit, d, op);
    case _ => HandlersKeep(others, p, events, credit, d, m);
  }

  lemma StageIsValid(p: Intent, f: Flight)
    ensures Valid(StageOp(p, f))
  {
  }

  /** No move takes a row away, so a credit once there stays, and nothing is passed over behind it. */
  lemma CreditStays(others: Others, p: Intent, events: set<Event>, credit: Op, d: Desk, m: Move)
    requires Inv(d.db) && Valid(credit) && Possible(others, p, events, credit, d, m)
    requires Credited(d.db.ledger, p).Some?
    ensures Credited(Moved(p, d, m).db.ledger, p).Some?
    ensures d.log.done <= d.log.heeded ==> Moved(p, d, m).log.done <= Moved(p, d, m).log.heeded
  {
    match m
    case Proceed(h) =>
      StageIsValid(p, d.flights[h]);
      RowsStay(p, StageOp(p, d.flights[h]), d.db);
    case Land(op) => RowsStay(p, op, d.db);
    case Elsewhere(op) => RowsStay(p, op, d.db);
    case _ =>
  }

  lemma RowsStay(p: Intent, op: Op, db: Db)
    requires Inv(db) && Valid(op)
    ensures Credited(db.ledger, p).Some? ==> Credited(Apply(op, db).ledger, p).Some?
  {
    ApplyLawful(op, db);
    RowsOnlyAdded(p, db, Apply(op, db));
  }

  lemma RowsOnlyAdded(p: Intent, db: Db, db': Db)
    requires db.ledger <= db'.ledger
    ensures Credited(db.ledger, p).Some? ==> Credited(db'.ledger, p).Some?
  {
    var more := db'.ledger[|db.ledger|..];
    assert db'.ledger == db.ledger + more;
    CreditedStable(db.ledger, more, p);
  }

  lemma {:induction false} PlaysKeep(others: Others, p: Intent, events: set<Event>, credit: Op, d: Desk,
                                     moves: seq<Move>, end: Desk)
    requires CreditsOnly(credit, p) && Valid(credit)
    requires DeskInv(others, p, events, credit, d) && Plays(others, p, events, credit, d, moves, end)
    ensures DeskInv(others, p, events, credit, end)
    decreases |moves|
  {
    if moves == [] {
    } else {
      MoveKeeps(others, p, events, credit, d, moves[0]);
      PlaysKeep(others, p, events, credit, Moved(p, d, moves[0]), moves[1..], end);
    }
  }

  // ---------------------------------------------------------------- confluence

  /** No reversal of the intent is known, and where the customer's freeze is left alone it is what it is said to be. */
  ghost predicate Unreversed(others: Others, p: Intent, events: set<Event>, db: Db) {
    && !Refunded(db.ledger, p) && Unanchored(events, db.ledger)
    && (forall t :: t in db.tombstones ==> t.intent != p && !ObjectOf(events, t.objectId))
    && (others.HandsOff? ==> FrozenAt(db, p) == others.was)
  }

  /** Where the account of an intent may start: ahead of its credit, or behind it. */
  ghost predicate Starts(others: Others, p: Intent, events: set<Event>, credit: Op, db: Db) {
    var credited := Credited(db.ledger, p);
    && Inv(db) && Unreversed(others, p, events, db)
    && (credited.Some? ==> Sole(p, db.ledger, credited.value) && Marked(p, credit, db))
  }

  function Vacant(db: Db): Desk {
    Desk(db, map[], Log({}, {}, {}))
  }

  /** What these reports ask for. Whatever happens to the freeze elsewhere, the ledger holds exactly one refund row of
      the intent, of the whole credit, if one of them covers the credit, and else none. If nobody else lifts a freeze,
      a dispute leaves the account frozen. If nobody else touches it, it is frozen exactly if it was or one of them is
      a dispute. */
  ghost predicate EndsAs(others: Others, p: Intent, reports: set<Event>, db: Db, landed: Credit) {
    && Count(db.ledger, (e: Entry) => IsRefund(e, p)) == (if AnyCovering(reports, landed.amount) then 1 else 0)
    && (forall e :: e in db.ledger && IsRefund(e, p) ==> e.amount == -landed.amount && e.user == p.customer)
    && (!others.Anything? && AnyDisputed(reports) ==> FrozenAt(db, p).Some?)
    && (others.HandsOff? ==>
          FrozenAt(db, p) == (if others.was.None? && AnyDisputed(reports) then Some(Dispute) else others.was))
  }

  /** Whatever the order, interleaving, failures and redeliveries: once the credit has landed and every report taken in
      has been seen through, the account is as the reports taken in ask, and no report was passed over but for a rival
      that was taken in. */
  lemma Confluence(others: Others, p: Intent, events: set<Event>, credit: Op, start: Db, moves: seq<Move>, end: Desk,
                   landed: Credit)
    requires CreditsOnly(credit, p) && Valid(credit) && Starts(others, p, events, credit, start)
    requires Plays(others, p, events, credit, Vacant(start), moves, end)
    requires Credited(end.db.ledger, p) == Some(landed) && Whole(landed.amount) && end.log.heard <= end.log.heeded
    ensures EndsAs(others, p, end.log.heard, end.db, landed)
    ensures end.log.heard <= events && forall e :: e in end.log.done - end.log.heard ==> Rivalled(end.log.heard, e)
  {
    StartsKept(others, p, events, credit, start);
    PlaysKeep(others, p, events, credit, Vacant(start), moves, end);
    LandedTells(others, p, end, landed);
    RefundCounted(p, end.db, landed);
  }

  lemma AllHeard(events: set<Event>, d: Desk)
    requires EventsOnly(events, d) && Kept(d.log) && events <= d.log.done
    requires Coherent(events) || d.log.done <= d.log.heeded
    ensures d.log.heard == d.log.heeded == events
  {
    forall e | e in events ensures e in d.log.heeded {
      assert e in d.log.done;
    }
  }

  /** Nothing is passed over if no two reports are rivals, or if they all come behind the credit. Then, once the credit
      has landed and every event has been handled, the account is as all of them ask. */
  lemma ConfluenceOfAll(others: Others, p: Intent, events: set<Event>, credit: Op, start: Db, moves: seq<Move>,
                        end: Desk, landed: Credit)
    requires CreditsOnly(credit, p) && Valid(credit) && Starts(others, p, events, credit, start)
    requires Plays(others, p, events, credit, Vacant(start), moves, end)
    requires Credited(end.db.ledger, p) == Some(landed) && Whole(landed.amount) && events <= end.log.done
    requires Coherent(events) || Credited(start.ledger, p).Some?
    ensures end.log.heard == end.log.heeded == events && EndsAs(others, p, events, end.db, landed)
  {
    StartsKept(others, p, events, credit, start);
    PlaysKeep(others, p, events, credit, Vacant(start), moves, end);
    if Credited(start.ledger, p).Some? {
      NonePassedOver(others, p, events, credit, Vacant(start), moves, end);
    }
    AllHeard(events, end);
    Confluence(others, p, events, credit, start, moves, end, landed);
  }

  /** Where rivals are reported, some ahead of the credit and some behind it, the account of a customer otherwise left
      alone is as all the reports ask exactly if none that was passed over would have made a difference. */
  lemma RivalsLaw(was: Option<FreezeReason>, p: Intent, events: set<Event>, credit: Op, start: Db, moves: seq<Move>,
                  end: Desk, landed: Credit)
    requires CreditsOnly(credit, p) && Valid(credit) && Starts(HandsOff(was), p, events, credit, start)
    requires Plays(HandsOff(was), p, events, credit, Vacant(start), moves, end)
    requires Credited(end.db.ledger, p) == Some(landed) && Whole(landed.amount) && end.log.heard <= end.log.heeded
    ensures EndsAs(HandsOff(was), p, events, end.db, landed) <==>
      && (AnyCovering(events, landed.amount) ==> AnyCovering(end.log.heard, landed.amount))
      && (was.None? && AnyDisputed(events) ==> AnyDisputed(end.log.heard))
  {
    Confluence(HandsOff(was), p, events, credit, start, moves, end, landed);
  }

  lemma StartsKept(others: Others, p: Intent, events: set<Event>, credit: Op, start: Db)
    requires Starts(others, p, events, credit, start)
    ensures DeskInv(others, p, events, credit, Vacant(start))
  {
    if Credited(start.ledger, p).Some? { CreditedOwner(start, p); }
  }

  lemma {:induction false} NonePassedOver(others: Others, p: Intent, events: set<Event>, credit: Op, d: Desk,
                                          moves: seq<Move>, end: Desk)
    requires CreditsOnly(credit, p) && Valid(credit)
    requires DeskInv(others, p, events, credit, d) && Plays(others, p, events, credit, d, moves, end)
    requires Credited(d.db.ledger, p).Some? && d.log.done <= d.log.heeded
    ensures end.log.done <= end.log.heeded
    decreases |moves|
  {
    if moves == [] {
    } else {
      MoveKeeps(others, p, events, credit, d, moves[0]);
      CreditStays(others, p, events, credit, d, moves[0]);
      NonePassedOver(others, p, events, credit, Moved(p, d, moves[0]), moves[1..], end);
    }
  }

  lemma LandedTells(others: Others, p: Intent, end: Desk, landed: Credit)
    requires Landed(others, p, end, landed) && Whole(landed.amount) && end.log.heard <= end.log.heeded
    ensures !others.Anything? && AnyDisputed(end.log.heard) ==> FrozenAt(end.db, p).Some?
    ensures others.HandsOff? ==>
      FrozenAt(end.db, p) == (if others.was.None? && AnyDisputed(end.log.heard) then Some(Dispute) else others.was)
    ensures Refunded(end.db.ledger, p) <==> AnyCovering(end.log.heard, landed.amount)
  {
    CoverageAgrees(landed.amount);
    assert forall e :: e in end.log.heard ==> e in end.log.heeded;
  }

  lemma RefundCounted(p: Intent, db: Db, landed: Credit)
    requires Inv(db) && Sole(p, db.ledger, landed) && landed.user == p.customer
    ensures Count(db.ledger, (e: Entry) => IsRefund(e, p)) == if Refunded(db.ledger, p) then 1 else 0
    ensures forall e :: e in db.ledger && IsRefund(e, p) ==> e.amount == -landed.amount && e.user == p.customer
  {
    AtMostOne(db.ledger, (e: Entry) => IsRefund(e, p));
    forall e | e in db.ledger && IsRefund(e, p) ensures e.amount == -landed.amount && e.user == p.customer {
      var c :| c in db.ledger && TakesBack(e, c);
    }
  }

  /** Two reports of one object merge to the same tombstone in either order. */
  lemma {:induction false} MergeCommutes(tombstones: seq<Tombstone>, o: ObjectId, p: Intent, dispute: bool,
                                         currency: Option<string>, a: Option<int>, b: Option<int>)
    ensures InsertObserved(InsertObserved(tombstones, o, p, dispute, a, currency), o, p, dispute, b, currency) ==
            InsertObserved(InsertObserved(tombstones, o, p, dispute, b, currency), o, p, dispute, a, currency)
  {
    if tombstones == [] {
    } else {
      MergeCommutes(tombstones[1..], o, p, dispute, currency, a, b);
    }
  }

  // ---------------------------------------------------------------- where confluence stops

  lemma PlaysOne(others: Others, p: Intent, events: set<Event>, credit: Op, d: Desk, m: Move, moves: seq<Move>,
                 end: Desk)
    requires Possible(others, p, events, credit, d, m) && Plays(others, p, events, credit, Moved(p, d, m), moves, end)
    ensures Plays(others, p, events, credit, d, [m] + moves, end)
  {
    assert ([m] + moves)[1..] == moves;
  }

  ghost function Blank(u: UserId): Db {
    Db(map[u := Account(0.0, None, false, None, None, 0)], [], [], map[])
  }

  function FirstIntent(u: UserId): Intent {
    Intent(u, 0)
  }

  function FirstPurchase(u: UserId, amount: real): Op {
    CreditPurchase(u, amount, Session(u, 0), Some(FirstIntent(u)))
  }

  lemma BlankStarts(p: Intent, events: set<Event>, credit: Op, u: UserId)
    ensures Starts(HandsOff(None), p, events, credit, Blank(u)) && Credited(Blank(u).ledger, p).None?
  {
  }

  /** One order in which these events were all handled and the first purchase landed, and where it ended. */
  ghost predicate Settles(u: UserId, amount: real, events: set<Event>, moves: seq<Move>, end: Desk) {
    var p, credit := FirstIntent(u), FirstPurchase(u, amount);
    && CreditsOnly(credit, p) && Valid(credit) && Starts(HandsOff(None), p, events, credit, Blank(u))
    && Plays(HandsOff(None), p, events, credit, Vacant(Blank(u)), moves, end)
    && end.log.done == events && Credited(end.db.ledger, p) == Some(Credit(u, amount))
  }

  /** What confluence rests on, one: a credit of whole cents. One finer than a cent the tombstone path rounds and
      takes back, and the webhook path refuses to compare and does not: the order the two arrive in would decide. The
      router never posts such a credit (`BillingCents.ApplyCents`). */
  lemma SubCentDiverges(amount: real, e: Event, u: UserId) returns (early: Desk, late: Desk)
    requires amount > 0.0 && !Whole(amount) && e.cents == Some(Cents(amount)) && e.currency == Some("usd") && !e.dispute
    ensures Coherent({e})
    ensures var credit := FirstPurchase(u, amount);
      && Settles(u, amount, {e}, [Deliver(0, e), Proceed(0), Land(credit)], early)
          && Refunded(early.db.ledger, FirstIntent(u))
      && Settles(u, amount, {e}, [Land(credit), Deliver(0, e), Proceed(0)], late)
          && !Refunded(late.db.ledger, FirstIntent(u))
  {
    var p, credit := FirstIntent(u), FirstPurchase(u, amount);
    BlankStarts(p, {e}, credit, u);
    early := EarlyEvent(p, credit, Vacant(Blank(u)), e, u, amount);
    late := LateEvent(p, credit, Vacant(Blank(u)), e, u, amount);
  }

  lemma EarlyEvent(p: Intent, credit: Op, first: Desk, e: Event, u: UserId, amount: real) returns (end: Desk)
    requires first == Vacant(Blank(u))
    requires credit == CreditPurchase(u, amount, Session(u, 0), Some(p)) && p == Intent(u, 0) && amount > 0.0
    requires EventCovers(e, amount) && !e.dispute
    ensures Plays(HandsOff(None), p, {e}, credit, first, [Deliver(0, e), Proceed(0), Land(credit)], end)
    ensures end.log.done == {e} && Credited(end.db.ledger, p) == Some(Credit(u, amount)) && Refunded(end.db.ledger, p)
  {
    var t := Tombstone(e.objectId, p, false, e.cents, e.currency, false);
    var heard, noted := EventNoted(p, first, e, t);
    end := Moved(p, noted, Land(credit));
    StoneLands(p, noted.db, credit, u, amount, t);
    assert Plays(HandsOff(None), p, {e}, credit, end, [], end);
    PlaysOne(HandsOff(None), p, {e}, credit, noted, Land(credit), [], end);
    PlaysOne(HandsOff(None), p, {e}, credit, heard, Proceed(0), [Land(credit)], end);
    PlaysOne(HandsOff(None), p, {e}, credit, first, Deliver(0, e), [Proceed(0), Land(credit)], end);
  }

  lemma EventNoted(p: Intent, first: Desk, e: Event, t: Tombstone) returns (heard: Desk, noted: Desk)
    requires first.db.ledger == [] && first.db.tombstones == []
    requires first.flights == map[] && first.log == Log({}, {}, {})
    requires t == Tombstone(e.objectId, p, e.dispute, e.cents, e.currency, false)
    ensures heard == Moved(p, first, Deliver(0, e)) && 0 in heard.flights && noted == Moved(p, heard, Proceed(0))
    ensures noted.db == first.db.(tombstones := [t]) && noted.log.done == {e}
  {
    heard := Moved(p, first, Deliver(0, e));
    noted := Moved(p, heard, Proceed(0));
  }

  /** A first purchase over one open tombstone: one purchase row, and a refund row if the tombstone covers it. */
  lemma {:induction false} LandsOnOne(p: Intent, db: Db, credit: Op, u: UserId, amount: real, t: Tombstone)
    requires db.users == map[u := Account(0.0, None, false, None, None, 0)] && db.ledger == [] && db.tombstones == [t]
    requires t.intent == p && !t.applied
    requires credit == CreditPurchase(u, amount, Session(u, 0), Some(p)) && amount > 0.0
    ensures Apply(credit, db).ledger ==
            [Entry(u, Purchase, amount, amount, Some(OfSession(Session(u, 0))), Some(p))]
            + if StoneCovers(t, amount) then [Entry(u, Refund, -amount, 0.0, Some(OfObject(t.objectId)), Some(p))]
              else []
    ensures u in Apply(credit, db).users
    ensures Apply(credit, db).users[u].frozen == if t.dispute then Some(Dispute) else None
  {
    PurchaseShape(credit, db);
    var posted := Post(db, u, Purchase, amount, Some(OfSession(Session(u, 0))), Some(p));
    assert Unapplied([t], p) == [t] + Unapplied([], p);
    assert ApplyStones(posted, u, p, amount, [t]) == ApplyStone(posted, u, p, amount, t);
  }

  lemma {:induction false} StoneLands(p: Intent, db: Db, credit: Op, u: UserId, amount: real, t: Tombstone)
    requires db.users == map[u := Account(0.0, None, false, None, None, 0)] && db.ledger == [] && db.tombstones == [t]
    requires t.intent == p && p.customer == u && !t.applied
    requires credit == CreditPurchase(u, amount, Session(u, 0), Some(p)) && amount > 0.0
    ensures var end := Apply(credit, db);
      && Credited(end.ledger, p) == Some(Credit(u, amount)) && (Refunded(end.ledger, p) <==> StoneCovers(t, amount))
      && FrozenAt(end, p) == if t.dispute then Some(Dispute) else None
  {
    LandsOnOne(p, db, credit, u, amount, t);
    var c := Entry(u, Purchase, amount, amount, Some(OfSession(Session(u, 0))), Some(p));
    var r := Entry(u, Refund, -amount, 0.0, Some(OfObject(t.objectId)), Some(p));
    CreditedOnOne(c, r, p, u, amount);
    assert Apply(credit, db).ledger == if StoneCovers(t, amount) then [c] + [r] else [c];
  }

  lemma CreditedOnOne(c: Entry, r: Entry, p: Intent, u: UserId, amount: real)
    requires IsCredit(c, p) && c.user == u && c.amount == amount && IsRefund(r, p)
    ensures Credited([c], p) == Credited([c] + [r], p) == Some(Credit(u, amount))
    ensures !Refunded([c], p) && Refunded([c] + [r], p)
  {
    RefundRecorded([c], r, p);
  }

  lemma LateEvent(p: Intent, credit: Op, first: Desk, e: Event, u: UserId, amount: real) returns (end: Desk)
    requires first == Vacant(Blank(u))
    requires credit == CreditPurchase(u, amount, Session(u, 0), Some(p)) && p == Intent(u, 0) && amount > 0.0
    requires !WebhookCovers(e, amount) && !e.dispute
    ensures Plays(HandsOff(None), p, {e}, credit, first, [Land(credit), Deliver(0, e), Proceed(0)], end)
    ensures end.log.done == {e} && Credited(end.db.ledger, p) == Some(Credit(u, amount)) && !Refunded(end.db.ledger, p)
  {
    var paid := Moved(p, first, Land(credit));
    PurchaseShape(credit, first.db);
    var c := Entry(u, Purchase, amount, amount, Some(OfSession(Session(u, 0))), Some(p));
    assert paid.db.ledger == [c];
    var heard := Moved(p, paid, Deliver(0, e));
    end := Moved(p, heard, Proceed(0));
    assert end.db.ledger == [c] && end.log.done == {e};
    assert Plays(HandsOff(None), p, {e}, credit, end, [], end);
    PlaysOne(HandsOff(None), p, {e}, credit, heard, Proceed(0), [], end);
    PlaysOne(HandsOff(None), p, {e}, credit, paid, Deliver(0, e), [Proceed(0)], end);
    PlaysOne(HandsOff(None), p, {e}, credit, first, Land(credit), [Deliver(0, e), Proceed(0)], end);
  }

  ghost function Both(x: Event, y: Event, credit: Op): seq<Move> {
    [Deliver(0, x), Proceed(0), Deliver(1, y), Proceed(1), Land(credit)]
  }

  /** The tombstone two reports of one object leave: their maximum if they agree on everything else, or else the
      first. */
  function KeptOf(p: Intent, x: Event, y: Event): Tombstone {
    var agree := x.dispute == y.dispute && x.currency == y.currency;
    Tombstone(x.objectId, p, x.dispute, if agree then MaxCents(x.cents, y.cents) else x.cents, x.currency, false)
  }

  ghost predicate SameEnd(p: Intent, one: Desk, other: Desk) {
    FrozenAt(one.db, p) == FrozenAt(other.db, p) && (Refunded(one.db.ledger, p) <==> Refunded(other.db.ledger, p))
  }

  /** What confluence rests on, two: coherent reports. Two reports of one object that come before its credit may come
      in either order exactly if they are of one kind and of one currency, or else cover the credit alike. */
  lemma ReusedObjectLaw(a: Event, b: Event, amount: real, u: UserId) returns (one: Desk, other: Desk)
    requires amount > 0.0 && a.objectId == b.objectId
    ensures Settles(u, amount, {a, b}, Both(a, b, FirstPurchase(u, amount)), one)
    ensures Settles(u, amount, {a, b}, Both(b, a, FirstPurchase(u, amount)), other)
    ensures SameEnd(FirstIntent(u), one, other) <==>
      a.dispute == b.dispute && (a.currency == b.currency || (EventCovers(a, amount) <==> EventCovers(b, amount)))
  {
    var p, credit := FirstIntent(u), FirstPurchase(u, amount);
    BlankStarts(p, {a, b}, credit, u);
    assert {b, a} == {a, b};
    MaxAtLeast(a.cents, b.cents);
    one := TwoReports(p, credit, Vacant(Blank(u)), a, b, u, amount);
    other := TwoReports(p, credit, Vacant(Blank(u)), b, a, u, amount);
  }

  lemma TwoReports(p: Intent, credit: Op, first: Desk, x: Event, y: Event, u: UserId, amount: real) returns (end: Desk)
    requires first == Vacant(Blank(u))
    requires credit == CreditPurchase(u, amount, Session(u, 0), Some(p)) && p == Intent(u, 0) && amount > 0.0
    requires x.objectId == y.objectId
    ensures Plays(HandsOff(None), p, {x, y}, credit, first, Both(x, y, credit), end)
    ensures end.log.done == {x, y} && Credited(end.db.ledger, p) == Some(Credit(u, amount))
    ensures FrozenAt(end.db, p) == if x.dispute then Some(Dispute) else None
    ensures Refunded(end.db.ledger, p) <==> StoneCovers(KeptOf(p, x, y), amount)
  {
    var events := {x, y};
    var heard := Moved(p, first, Deliver(0, x));
    var noted := Moved(p, heard, Proceed(0));
    var t := KeptOf(p, x, y);
    assert noted.db == first.db.(tombstones := [Tombstone(x.objectId, p, x.dispute, x.cents, x.currency, false)]);
    assert noted.log.done == {x};
    var again := Moved(p, noted, Deliver(1, y));
    var kept := Moved(p, again, Proceed(1));
    assert kept.db == first.db.(tombstones := [t]) && kept.log.done == {x, y};
    end := Moved(p, kept, Land(credit));
    StoneLands(p, kept.db, credit, u, amount, t);
    assert Plays(HandsOff(None), p, events, credit, end, [], end);
    PlaysOne(HandsOff(None), p, events, credit, kept, Land(credit), [], end);
    PlaysOne(HandsOff(None), p, events, credit, again, Proceed(1), [Land(credit)], end);
    PlaysOne(HandsOff(None), p, events, credit, noted, Deliver(1, y), [Proceed(1), Land(credit)], end);
    PlaysOne(HandsOff(None), p, events, credit, heard, Proceed(0), [Deliver(1, y), Proceed(1), Land(credit)], end);
    PlaysOne(HandsOff(None), p, events, credit, first, Deliver(0, x),
             [Proceed(0), Deliver(1, y), Proceed(1), Land(credit)], end);
  }
}
