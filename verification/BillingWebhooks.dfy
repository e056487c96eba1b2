/** Webhook handlers whose every transaction runs statement by statement under the locks of `BillingProtocol`, among
    whatever else runs there. What they do is one of the serial plays of `BillingDelivery`, so its confluence holds of
    every interleaving. Credits come through the door of `BillingCents`, so it holds of every credit. */
module BillingWebhooks {
  import opened Wrappers
  import opened Billing
  import opened BillingCents
  import opened BillingInvariants
  import opened BillingLaws
  import opened BillingProtocol
  import opened BillingConcurrency
  import D = BillingDelivery

  /** The database with its open transactions, the handlers at work, which transaction each handler waits on, and what
      has become of the events. */
  datatype Office = Office(system: System, flights: map<nat, D.Flight>, serving: map<TxId, nat>, log: D.Log)

  datatype Motion =
    | Deliver(handler: nat, event: D.Event)
    | Serve(handler: nat, tx: TxId)
    | Open(tx: TxId, op: Op)
    | Go(tx: TxId)
    | Break(tx: TxId)
    | Drop(handler: nat)

  ghost function DeskOf(o: Office): D.Desk {
    D.Desk(o.system.db, o.flights, o.log)
  }

  ghost predicate Idle(o: Office, h: nat) {
    h in o.flights && forall tx :: tx in o.serving ==> o.serving[tx] != h
  }

  /** The move of the lock-level system a motion makes, if any. */
  function SystemMove(p: Intent, o: Office, m: Motion): Option<BillingProtocol.Move>
    requires m.Serve? ==> m.handler in o.flights
  {
    match m
    case Serve(h, tx) => Some(BillingProtocol.Begin(tx, D.StageOp(p, o.flights[h])))
    case Open(tx, op) => Some(BillingProtocol.Begin(tx, op))
    case Go(tx) => Some(BillingProtocol.Advance(tx))
    case Break(tx) => Some(BillingProtocol.Abort(tx))
    case _ => None
  }

  /** What may happen next. A transaction that is neither a handler's nor the credit may do anything when it finishes
      except touch this intent's rows and tombstones; what it may do to the customer's freeze, `others` says. */
  ghost predicate May(others: D.Others, p: Intent, events: set<D.Event>, credit: Op, o: Office, m: Motion) {
    && (match m
        case Deliver(h, e) => h !in o.flights && e in events
        case Serve(h, _) => Idle(o, h)
        case Open(_, op) => Priced(op)
        case Drop(h) => Idle(o, h)
        case _ => true)
    && (SystemMove(p, o, m).Some? ==> Enabled(o.system, SystemMove(p, o, m).value))
    && (m.Go? && Finishes(o.system, BillingProtocol.Advance(m.tx)) && m.tx !in o.serving
        && o.system.txns[m.tx].op != credit ==>
          D.Untouched(others, p, events, o.system.db, Apply(o.system.txns[m.tx].op, o.system.db)))
  }

  /** A commit that runs into the unique index is an error to its handler, and the webhook fails. */
  ghost predicate Collides(t: Txn, db: Db) {
    t.stage >= COMMIT && !SingleStatement(t.op) && !UniqueAnchors(Effect(t.op, t.view, db).ledger)
  }

  /** The handler's answer from its transaction: it goes on with what that transaction read. */
  ghost function Answered(p: Intent, o: Office, tx: TxId, system: System): Office
    requires tx in o.serving && tx in o.system.txns && o.serving[tx] in o.flights
  {
    var h := o.serving[tx];
    var f, t := o.flights[h], o.system.txns[tx];
    if Collides(t, o.system.db) then Office(system, o.flights - {h}, o.serving - {tx}, o.log)
    else
      var credited := Load(t, o.system.db).credited;
      var stage, hears := D.NextStage(f, credited), D.Hears(p, f, credited, o.system.db.tombstones);
      Office(system, if stage.Some? then o.flights[h := D.Flight(f.event, stage.value)] else o.flights - {h},
             o.serving - {tx}, D.Noted(o.log, f.event, hears, stage.None?))
  }

  ghost predicate Awaited(o: Office, tx: TxId) {
    tx in o.serving && o.serving[tx] in o.flights
  }

  ghost function Gone(p: Intent, o: Office, tx: TxId, system: System): Office
    requires tx in o.system.txns
  {
    if tx in system.txns || !Awaited(o, tx) then o.(system := system) else Answered(p, o, tx, system)
  }

  /** An abort fails the webhook that waited on it. */
  ghost function Broken(o: Office, tx: TxId, system: System): Office {
    if Awaited(o, tx) then Office(system, o.flights - {o.serving[tx]}, o.serving - {tx}, o.log)
    else o.(system := system)
  }

  ghost function Moves(others: D.Others, p: Intent, events: set<D.Event>, credit: Op, o: Office, m: Motion): Office
    requires May(others, p, events, credit, o, m)
  {
    match m
    case Deliver(h, e) => o.(flights := o.flights[h := D.Flight(e, D.Resolving)])
    case Serve(h, tx) => o.(system := Step(o.system, BillingProtocol.Begin(tx, D.StageOp(p, o.flights[h]))),
                            serving := o.serving[tx := h])
    case Open(tx, op) => o.(system := Step(o.system, BillingProtocol.Begin(tx, op)))
    case Go(tx) => Gone(p, o, tx, Step(o.system, BillingProtocol.Advance(tx)))
    case Break(tx) => Broken(o, tx, Step(o.system, BillingProtocol.Abort(tx)))
    case Drop(h) => o.(flights := o.flights - {h})
  }

  ghost predicate Works(others: D.Others, p: Intent, events: set<D.Event>, credit: Op, o: Office,
                        motions: seq<Motion>, end: Office)
    decreases |motions|
  {
    if motions == [] then end == o
    else
      && May(others, p, events, credit, o, motions[0])
      && Works(others, p, events, credit, Moves(others, p, events, credit, o, motions[0]), motions[1..], end)
  }

  // ---------------------------------------------------------------- what holds all along

  /** A handler waits on one transaction at a time, the one its stage asks for. */
  ghost predicate Linked(p: Intent, o: Office) {
    && (forall tx :: tx in o.serving ==>
          (tx in o.system.txns && o.serving[tx] in o.flights
           && o.system.txns[tx].op == D.StageOp(p, o.flights[o.serving[tx]])))
    && (forall a, b :: a in o.serving && b in o.serving && o.serving[a] == o.serving[b] ==> a == b)
  }

  ghost predicate PricedOnly(s: System) {
    CentsOnly(s.db) && forall tx :: tx in s.txns ==> Priced(s.txns[tx].op)
  }

  ghost predicate OfficeInv(p: Intent, o: Office) {
    SysInv(o.system) && Linked(p, o) && PricedOnly(o.system)
  }

  /** Only one transaction is touched, and it keeps what it is for. */
  ghost predicate Only(s: System, tx: TxId, s': System) {
    && (forall x :: x != tx ==> (x in s'.txns <==> x in s.txns) && (x in s.txns ==> s'.txns[x] == s.txns[x]))
    && (tx in s.txns && tx in s'.txns ==> s'.txns[tx].op == s.txns[tx].op)
  }

  /** What a lock-level step does to the open transactions and the tables. */
  lemma StepTxns(s: System, m: BillingProtocol.Move)
    requires Enabled(s, m)
    ensures Only(s, m.tx, Step(s, m))
    ensures m.Abort? ==> m.tx !in Step(s, m).txns
    ensures m.Begin? ==> m.tx !in s.txns && m.tx in Step(s, m).txns && Step(s, m).txns[m.tx].op == m.op
    ensures m.Advance? ==> m.tx in s.txns
  {
  }

  lemma StepPriced(s: System, m: BillingProtocol.Move)
    requires SysInv(s) && PricedOnly(s) && Enabled(s, m) && (m.Begin? ==> Priced(m.op))
    ensures PricedOnly(Step(s, m))
  {
    StepTxns(s, m);
    StepTables(s, m);
    if Finishes(s, m) {
      ApplyCents(s.txns[m.tx].op, s.db);
    }
  }

  lemma StepSound(s: System, m: BillingProtocol.Move)
    requires SysInv(s) && PricedOnly(s) && Enabled(s, m) && (m.Begin? ==> Priced(m.op))
    ensures SysInv(Step(s, m)) && PricedOnly(Step(s, m))
    ensures Step(s, m).db == if Finishes(s, m) then Apply(s.txns[m.tx].op, s.db) else s.db
    ensures Finishes(s, m) ==> Valid(s.txns[m.tx].op)
  {
    StepKeeps(s, m);
    StepTables(s, m);
    StepPriced(s, m);
  }

  /** A transaction that finishes is at its commit, or has just read that there is nothing to do. */
  predicate AtEnd(t: Txn, db: Db) {
    t.stage == COMMIT || (t.stage < COMMIT && GivesUp(t, Load(t, db)))
  }

  lemma FinishesHow(s: System, tx: TxId)
    requires TxnsFresh(s) && Enabled(s, BillingProtocol.Advance(tx)) && Finishes(s, BillingProtocol.Advance(tx))
    ensures Fresh(s.txns[tx], s.db) && AtEnd(s.txns[tx], s.db)
  {
  }

  /** The handler goes on with what its transaction read, and that is what the tables hold as it finishes. */
  lemma ReadIsCurrent(t: Txn, db: Db, p: Intent, f: D.Flight)
    requires Fresh(t, db) && AtEnd(t, db) && t.op == D.StageOp(p, f)
    ensures D.NextStage(f, Load(t, db).credited) == D.NextStage(f, Credited(db.ledger, p))
    ensures D.Hears(p, f, Load(t, db).credited, db.tombstones) == D.Hears(p, f, Credited(db.ledger, p), db.tombstones)
  {
  }

  /** A collision leaves the tables alone. */
  lemma CollisionIsNothing(s: System, tx: TxId)
    requires Enabled(s, BillingProtocol.Advance(tx)) && Collides(s.txns[tx], s.db)
    ensures Step(s, BillingProtocol.Advance(tx)).db == s.db
  {
  }

  // ---------------------------------------------------------------- one motion is one play, or none

  /** The motion of the tables and the handlers, said over the desk. */
  ghost predicate Mirrors(others: D.Others, p: Intent, events: set<D.Event>, credit: Op, d: D.Desk,
                          play: Option<D.Move>, d': D.Desk)
  {
    if play.None? then d' == d
    else D.Possible(others, p, events, credit, d, play.value) && d' == D.Moved(p, d, play.value)
  }

  lemma LinkedStays(p: Intent, o: Office, tx: TxId, system: System)
    requires Linked(p, o) && Only(o.system, tx, system) && (tx in o.serving ==> tx in system.txns)
    ensures Linked(p, o.(system := system))
  {
  }

  lemma LinkedGrows(p: Intent, o: Office, h: nat, tx: TxId, system: System)
    requires Linked(p, o) && Only(o.system, tx, system) && Idle(o, h) && tx !in o.system.txns
    requires tx in system.txns && system.txns[tx].op == D.StageOp(p, o.flights[h])
    ensures Linked(p, o.(system := system, serving := o.serving[tx := h]))
  {
  }

  /** A handler's transaction is over, one way or another, and the handler is dropped or goes on. */
  lemma LinkedShrinks(p: Intent, o: Office, tx: TxId, o': Office)
    requires Linked(p, o) && tx in o.serving && o'.serving == o.serving - {tx} && Only(o.system, tx, o'.system)
    requires forall h :: h != o.serving[tx] && h in o.flights ==> h in o'.flights && o'.flights[h] == o.flights[h]
    ensures Linked(p, o')
  {
  }

  lemma LinkedAtDoor(p: Intent, o: Office, h: nat, o': Office)
    requires Linked(p, o) && o'.serving == o.serving && o'.system == o.system && (h !in o.flights || Idle(o, h))
    requires forall x :: x != h && x in o.flights ==> x in o'.flights && o'.flights[x] == o.flights[x]
    ensures Linked(p, o')
  {
  }

  /** The transaction a handler waits on finishes: what it read is what the tables hold, and a collision has left
      them alone. */
  ghost predicate Current(p: Intent, o: Office, tx: TxId, system: System)
    requires tx in o.system.txns
  {
    Awaited(o, tx) ==>
      (var t, f, db := o.system.txns[tx], o.flights[o.serving[tx]], o.system.db;
       && D.NextStage(f, Load(t, db).credited) == D.NextStage(f, Credited(db.ledger, p))
       && D.Hears(p, f, Load(t, db).credited, db.tombstones) == D.Hears(p, f, Credited(db.ledger, p), db.tombstones)
       && (Collides(t, db) ==> system.db == db))
  }

  lemma FinishIsCurrent(p: Intent, o: Office, tx: TxId, system: System)
    requires TxnsFresh(o.system) && Linked(p, o)
    requires Enabled(o.system, BillingProtocol.Advance(tx)) && Finishes(o.system, BillingProtocol.Advance(tx))
    requires system == Step(o.system, BillingProtocol.Advance(tx))
    ensures Current(p, o, tx, system)
  {
    FinishesHow(o.system, tx);
    if Awaited(o, tx) {
      ReadIsCurrent(o.system.txns[tx], o.system.db, p, o.flights[o.serving[tx]]);
      if Collides(o.system.txns[tx], o.system.db) { CollisionIsNothing(o.system, tx); }
    }
  }

  lemma ProceedsTo(p: Intent, d: D.Desk, h: nat, db: Db, credited: Option<Credit>)
    requires h in d.flights && db == Apply(D.StageOp(p, d.flights[h]), d.db)
    requires var f := d.flights[h];
      && D.NextStage(f, credited) == D.NextStage(f, Credited(d.db.ledger, p))
      && D.Hears(p, f, credited, d.db.tombstones) == D.Hears(p, f, Credited(d.db.ledger, p), d.db.tombstones)
    ensures var f := d.flights[h];
      D.Moved(p, d, D.Proceed(h)) ==
      D.After(d, h, db, f.event, D.NextStage(f, credited), D.Hears(p, f, credited, d.db.tombstones))
  {
  }

  /** The handler goes on, as far as the desk can see. */
  lemma AnswerProceeds(p: Intent, o: Office, tx: TxId, system: System)
    requires Awaited(o, tx) && tx in o.system.txns && Current(p, o, tx, system)
    requires o.system.txns[tx].op == D.StageOp(p, o.flights[o.serving[tx]])
    requires system.db == Apply(o.system.txns[tx].op, o.system.db) && !Collides(o.system.txns[tx], o.system.db)
    ensures DeskOf(Answered(p, o, tx, system)) == D.Moved(p, DeskOf(o), D.Proceed(o.serving[tx]))
  {
    ProceedsTo(p, DeskOf(o), o.serving[tx], system.db, Load(o.system.txns[tx], o.system.db).credited);
  }

  lemma RefusalMirrors(others: D.Others, p: Intent, events: set<D.Event>, credit: Op, o: Office, tx: TxId,
                       system: System)
    requires Awaited(o, tx) && tx in o.system.txns && Current(p, o, tx, system)
    requires system.db == Apply(o.system.txns[tx].op, o.system.db) && Collides(o.system.txns[tx], o.system.db)
    ensures Mirrors(others, p, events, credit, DeskOf(o), Some(D.Drop(o.serving[tx])),
                    DeskOf(Answered(p, o, tx, system)))
  {
  }

  lemma AnswerMirrors(others: D.Others, p: Intent, events: set<D.Event>, credit: Op, o: Office, tx: TxId,
                      system: System)
    returns (play: Option<D.Move>)
    requires Awaited(o, tx) && tx in o.system.txns && Current(p, o, tx, system)
    requires o.system.txns[tx].op == D.StageOp(p, o.flights[o.serving[tx]])
    requires system.db == Apply(o.system.txns[tx].op, o.system.db)
    ensures Mirrors(others, p, events, credit, DeskOf(o), play, DeskOf(Answered(p, o, tx, system)))
  {
    if Collides(o.system.txns[tx], o.system.db) {
      play := Some(D.Drop(o.serving[tx]));
      RefusalMirrors(others, p, events, credit, o, tx, system);
    } else {
      play := Some(D.Proceed(o.serving[tx]));
      AnswerProceeds(p, o, tx, system);
    }
  }

  lemma FinishMirrors(others: D.Others, p: Intent, events: set<D.Event>, credit: Op, d: D.Desk, op: Op)
    returns (play: Option<D.Move>)
    requires Valid(op) && (op != credit ==> D.Untouched(others, p, events, d.db, Apply(op, d.db)))
    ensures Mirrors(others, p, events, credit, d, play, d.(db := Apply(op, d.db)))
  {
    play := Some(if op == credit then D.Land(credit) else D.Elsewhere(op));
  }

  lemma BeginKeepsOffice(p: Intent, o: Office, tx: TxId, op: Op, system: System)
    requires OfficeInv(p, o) && Enabled(o.system, BillingProtocol.Begin(tx, op)) && Priced(op)
    requires system == Step(o.system, BillingProtocol.Begin(tx, op))
    ensures SysInv(system) && PricedOnly(system) && system.db == o.system.db && Linked(p, o.(system := system))
    ensures Only(o.system, tx, system) && tx !in o.system.txns && tx in system.txns && system.txns[tx].op == op
  {
    StepSound(o.system, BillingProtocol.Begin(tx, op));
    StepTxns(o.system, BillingProtocol.Begin(tx, op));
    LinkedStays(p, o, tx, system);
  }

  lemma GoMirrors(others: D.Others, p: Intent, events: set<D.Event>, credit: Op, o: Office, tx: TxId, system: System)
    returns (play: Option<D.Move>)
    requires Linked(p, o) && tx in o.system.txns && Only(o.system, tx, system)
    requires system.db == if tx !in system.txns then Apply(o.system.txns[tx].op, o.system.db) else o.system.db
    requires tx !in system.txns ==> Valid(o.system.txns[tx].op) && Current(p, o, tx, system)
    requires tx !in system.txns && tx !in o.serving && o.system.txns[tx].op != credit ==>
      D.Untouched(others, p, events, o.system.db, Apply(o.system.txns[tx].op, o.system.db))
    ensures Linked(p, Gone(p, o, tx, system))
    ensures Mirrors(others, p, events, credit, DeskOf(o), play, DeskOf(Gone(p, o, tx, system)))
  {
    if tx in system.txns {
      play := None;
      LinkedStays(p, o, tx, system);
    } else if tx !in o.serving {
      play := FinishMirrors(others, p, events, credit, DeskOf(o), o.system.txns[tx].op);
      LinkedStays(p, o, tx, system);
    } else {
      play := AnswerMirrors(others, p, events, credit, o, tx, system);
      LinkedShrinks(p, o, tx, Answered(p, o, tx, system));
    }
  }

  lemma BreakMirrors(others: D.Others, p: Intent, events: set<D.Event>, credit: Op, o: Office, tx: TxId, system: System)
    returns (play: Option<D.Move>)
    requires Linked(p, o) && Only(o.system, tx, system) && system.db == o.system.db
    ensures Linked(p, Broken(o, tx, system))
    ensures Mirrors(others, p, events, credit, DeskOf(o), play, DeskOf(Broken(o, tx, system)))
  {
    if tx in o.serving {
      LinkedShrinks(p, o, tx, Broken(o, tx, system));
      play := Some(D.Drop(o.serving[tx]));
    } else {
      LinkedStays(p, o, tx, system);
      play := None;
    }
  }

  lemma ServeKeeps(p: Intent, o: Office, h: nat, tx: TxId)
    requires OfficeInv(p, o) && Idle(o, h) && Enabled(o.system, BillingProtocol.Begin(tx, D.StageOp(p, o.flights[h])))
    ensures var o' := o.(system := Step(o.system, BillingProtocol.Begin(tx, D.StageOp(p, o.flights[h]))),
                         serving := o.serving[tx := h]);
      OfficeInv(p, o') && DeskOf(o') == DeskOf(o)
  {
    var system := Step(o.system, BillingProtocol.Begin(tx, D.StageOp(p, o.flights[h])));
    BeginKeepsOffice(p, o, tx, D.StageOp(p, o.flights[h]), system);
    LinkedGrows(p, o, h, tx, system);
  }

  lemma GoKeeps(others: D.Others, p: Intent, events: set<D.Event>, credit: Op, o: Office, tx: TxId)
    returns (play: Option<D.Move>)
    requires OfficeInv(p, o) && May(others, p, events, credit, o, Go(tx))
    ensures var o' := Moves(others, p, events, credit, o, Go(tx));
      OfficeInv(p, o') && Mirrors(others, p, events, credit, DeskOf(o), play, DeskOf(o'))
  {
    StepSound(o.system, BillingProtocol.Advance(tx));
    StepTxns(o.system, BillingProtocol.Advance(tx));
    if Finishes(o.system, BillingProtocol.Advance(tx)) {
      FinishIsCurrent(p, o, tx, Step(o.system, BillingProtocol.Advance(tx)));
    }
    play := GoMirrors(others, p, events, credit, o, tx, Step(o.system, BillingProtocol.Advance(tx)));
  }

  lemma BreakKeeps(others: D.Others, p: Intent, events: set<D.Event>, credit: Op, o: Office, tx: TxId)
    returns (play: Option<D.Move>)
    requires OfficeInv(p, o) && May(others, p, events, credit, o, Break(tx))
    ensures var o' := Moves(others, p, events, credit, o, Break(tx));
      OfficeInv(p, o') && Mirrors(others, p, events, credit, DeskOf(o), play, DeskOf(o'))
  {
    StepSound(o.system, BillingProtocol.Abort(tx));
    StepTxns(o.system, BillingProtocol.Abort(tx));
    play := BreakMirrors(others, p, events, credit, o, tx, Step(o.system, BillingProtocol.Abort(tx)));
  }

  /** A transaction starts, a handler's or another: nothing shows yet. */
  lemma BeginKeeps(others: D.Others, p: Intent, events: set<D.Event>, credit: Op, o: Office, m: Motion)
    requires OfficeInv(p, o) && May(others, p, events, credit, o, m) && (m.Serve? || m.Open?)
    ensures var o' := Moves(others, p, events, credit, o, m);
      OfficeInv(p, o') && DeskOf(o') == DeskOf(o)
  {
    if m.Serve? {
      ServeKeeps(p, o, m.handler, m.tx);
    } else {
      BeginKeepsOffice(p, o, m.tx, m.op, Step(o.system, BillingProtocol.Begin(m.tx, m.op)));
    }
  }

  /** A webhook comes in, or its handler fails between two transactions. */
  lemma DoorKeeps(others: D.Others, p: Intent, events: set<D.Event>, credit: Op, o: Office, m: Motion)
    returns (play: Option<D.Move>)
    requires OfficeInv(p, o) && May(others, p, events, credit, o, m) && (m.Deliver? || m.Drop?)
    ensures var o' := Moves(others, p, events, credit, o, m);
      OfficeInv(p, o') && Mirrors(others, p, events, credit, DeskOf(o), play, DeskOf(o'))
  {
    play := Some(if m.Deliver? then D.Deliver(m.handler, m.event) else D.Drop(m.handler));
    LinkedAtDoor(p, o, m.handler, Moves(others, p, events, credit, o, m));
  }

  lemma MotionMirrors(others: D.Others, p: Intent, events: set<D.Event>, credit: Op, o: Office, m: Motion)
    returns (play: Option<D.Move>)
    requires OfficeInv(p, o) && May(others, p, events, credit, o, m)
    ensures var o' := Moves(others, p, events, credit, o, m);
      OfficeInv(p, o') && Mirrors(others, p, events, credit, DeskOf(o), play, DeskOf(o'))
  {
    match m
    case Go(tx) => play := GoKeeps(others, p, events, credit, o, tx);
    case Break(tx) => play := BreakKeeps(others, p, events, credit, o, tx);
    case _ =>
      if m.Deliver? || m.Drop? {
        play := DoorKeeps(others, p, events, credit, o, m);
      } else {
        play := None;
        BeginKeeps(others, p, events, credit, o, m);
      }
  }

  /** Refinement: every interleaving of handlers, under the locks and statement by statement, is a serial play. */
  lemma {:induction false} WorksPlay(others: D.Others, p: Intent, events: set<D.Event>, credit: Op, o: Office,
                                     motions: seq<Motion>, end: Office)
    returns (plays: seq<D.Move>)
    requires OfficeInv(p, o) && Works(others, p, events, credit, o, motions, end)
    ensures OfficeInv(p, end) && D.Plays(others, p, events, credit, DeskOf(o), plays, DeskOf(end))
    decreases |motions|
  {
    if motions == [] {
      plays := [];
    } else {
      var play := MotionMirrors(others, p, events, credit, o, motions[0]);
      var mid := Moves(others, p, events, credit, o, motions[0]);
      plays := WorksPlay(others, p, events, credit, mid, motions[1..], end);
      if play.Some? {
        D.PlaysOne(others, p, events, credit, DeskOf(o), play.value, plays, DeskOf(end));
        plays := [play.value] + plays;
      }
    }
  }

  // ---------------------------------------------------------------- confluence

  ghost function Opened(db: Db): Office {
    Office(Start(db), map[], map[], D.Log({}, {}, {}))
  }

  /** Whatever the interleaving of the handlers' statements, the credit's and everyone else's, with whatever failures
      and redeliveries: once the credit has landed and every report taken in has been seen through, the account is as
      the reports taken in ask, and no report was passed over but for a rival that was taken in. */
  lemma ConfluenceUnderLocks(others: D.Others, p: Intent, events: set<D.Event>, credit: Op, start: Db,
                             motions: seq<Motion>, end: Office)
    requires D.CreditsOnly(credit, p) && Valid(credit)
    requires D.Starts(others, p, events, credit, start) && CentsOnly(start)
    requires Works(others, p, events, credit, Opened(start), motions, end)
    requires Credited(end.system.db.ledger, p).Some? && end.log.heard <= end.log.heeded
    ensures D.EndsAs(others, p, end.log.heard, end.system.db, Credited(end.system.db.ledger, p).value)
    ensures end.log.heard <= events
    ensures forall e :: e in end.log.done - end.log.heard ==> D.Rivalled(end.log.heard, e)
  {
    var plays := WorksPlay(others, p, events, credit, Opened(start), motions, end);
    CreditedWhole(end.system.db, p);
    D.Confluence(others, p, events, credit, start, plays, DeskOf(end), Credited(end.system.db.ledger, p).value);
  }

  /** So if no two reports are rivals, or if they all come behind the credit: once the credit has landed and every event
      has been answered, the account is as all of them ask. */
  lemma ConfluenceOfAllUnderLocks(others: D.Others, p: Intent, events: set<D.Event>, credit: Op, start: Db,
                                  motions: seq<Motion>, end: Office)
    requires D.CreditsOnly(credit, p) && Valid(credit)
    requires D.Starts(others, p, events, credit, start) && CentsOnly(start)
    requires Works(others, p, events, credit, Opened(start), motions, end)
    requires Credited(end.system.db.ledger, p).Some? && events <= end.log.done
    requires D.Coherent(events) || Credited(start.ledger, p).Some?
    ensures D.EndsAs(others, p, events, end.system.db, Credited(end.system.db.ledger, p).value)
  {
    var plays := WorksPlay(others, p, events, credit, Opened(start), motions, end);
    CreditedWhole(end.system.db, p);
    D.ConfluenceOfAll(others, p, events, credit, start, plays, DeskOf(end), Credited(end.system.db.ledger, p).value);
  }
}
