/** What every buffered walk guarantees, whatever the upstreams, the clock and the health registry do. */
module BufferedWalkLaws {
  import opened Wrappers
  import opened Ordering
  import opened Walking
  import opened BufferedWalk

  // ---------------------------------------------------------------- where a walk stands

  /** A failure or blank answer the walk tries the same candidate again after. */
  predicate Retries(route: seq<Rung>, c: Call) {
    c.attempt < RETRIES &&
    match c.result
    case Blank => true
    case Failed(_, class_) => class_.ContextWindow? || class_.Retryable? || (class_.RateLimited? && |route| == 1)
    case _ => false
  }

  /** About to make this attempt at this candidate. */
  ghost predicate At(route: seq<Rung>, calls: seq<Call>, position: nat, attempt: nat) {
    if calls == [] then attempt == 0
    else
      var last := calls[|calls| - 1];
      if attempt == 0 then last.position < position && !Retries(route, last)
      else last.position == position && last.attempt == attempt - 1 && (attempt <= RETRIES ==> Retries(route, last))
  }

  /** A call the walk goes on after. */
  predicate GoesOn(c: Call) {
    c.result.Blank? || c.result.Failed?
  }

  /** The last call overflowed the prompt as it was. */
  ghost predicate Overflowed(calls: seq<Call>) {
    calls != [] && calls[|calls| - 1].result.Failed? && calls[|calls| - 1].result.class_.ContextWindow?
  }

  /** After an overflow the walk goes on only on a prompt that has been shortened. */
  ghost predicate Repaired(w: Walk) {
    Overflowed(w.calls) ==> w.truncated
  }

  ghost predicate Stands(route: seq<Rung>, w: Walk, position: nat, attempt: nat) {
    && At(route, w.calls, position, attempt) && NoneServed(w.rows) && (w.last.Some? <==> w.calls != [])
    && (w.calls != [] ==> GoesOn(w.calls[|w.calls| - 1])) && Repaired(w)
  }

  ghost predicate MayCall(route: seq<Rung>, w: Walk, position: nat, attempt: nat) {
    && position < |route| && attempt <= RETRIES && At(route, w.calls, position, attempt) && Repaired(w)
    && (w.calls != [] ==> GoesOn(w.calls[|w.calls| - 1]))
    && (route[position].credential == Twin ==> route[position].definition.provider in w.armed)
  }

  /** A usage report that counts something. */
  ghost function Counted(report: Option<Usage>): Option<Usage> {
    if report == Some(Usage(0, 0)) then None else report
  }

  /** What an attempt that was no refusal comes to, how its row is marked, and whether it served. */
  ghost predicate Tells(h: Happening, attempt: nat, result: Result, mark: Mark, served: bool) {
    match result
    case Died => !served && ((h == Drained(true) && mark == Aborted) || (h.Overran? && mark == TimedOut))
    case Blank => !served && h.Answered? && h.blank && attempt < 2 && mark == ValidationFailed
    case Won => h.Answered? && (h.blank ==> attempt >= 2) && mark == Fine && (served <==> Counted(h.report).Some?)
    case Failed(_, _) => false
  }

  /** A fact about the walk that every step keeps: passing over, a failed call, any other call, truncating. */
  ghost predicate Preserved(world: World, route: seq<Rung>, inv: Walk -> bool) {
    && (forall w, d, mark :: inv(w) && (mark == PolicySkipped || mark == HealthSkipped) ==> inv(Skip(w, d, mark)))
    && (forall w, p: nat, a: nat, f ::
          inv(w) && MayCall(route, w, p, a) && world.happens(p, a) == Refused(f) ==> inv(Failing(w, route[p], p, a, f)))
    && (forall w, p: nat, a: nat, result: Result, mark, served ::
          inv(w) && MayCall(route, w, p, a) && Tells(world.happens(p, a), a, result, mark, served) ==>
          inv(Called(w, route[p].definition, p, a, result, mark, served)))
    && (forall w :: inv(w) && !w.truncated && Overflowed(w.calls) && DropCount(w.messages) > 0 ==> inv(Shortened(w)))
  }

  ghost predicate EndsAt(calls: seq<Call>, p: nat) {
    calls != [] && calls[|calls| - 1].position == p
  }

  predicate IsExhaustion(t: Terminal) {
    t.Exhausted? || t.RetentionRefused? || t.ParameterRejected?
  }

  /** The walk ended on a prompt that nothing more can be dropped from. */
  ghost predicate Irreducible(calls: seq<Call>) {
    && calls != [] && calls[|calls| - 1].result.Failed? && calls[|calls| - 1].result.class_.ContextWindow?
    && DropCount(calls[|calls| - 1].sent) == 0
  }

  ghost predicate EndOk(w: Walk, e: Ending) {
    match e
    case Terminated(t) => NoneServed(w.rows) && (w.last.Some? <==> w.calls != [])
        && (IsExhaustion(t) ==> t == Exhaustion(w))
    case Served(d, usage) =>
      && OnlyLastServed(w.rows) && w.rows != [] && w.rows[|w.rows| - 1].served == usage.Some?
      && w.last == Some(d) && (usage.Some? ==> usage.value != UNMETERED)
  }

  /** The attempt the walk has come to would end it before any call. */
  ghost predicate Halts(world: World, route: seq<Rung>, calls: seq<Call>, h: Happening) {
    && (calls != [] ==> GoesOn(calls[|calls| - 1]))
    && exists p: nat, a: nat :: p < |route| && a <= RETRIES && At(route, calls, p, a) && world.happens(p, a) == h
  }

  ghost predicate LastIs(world: World, calls: seq<Call>, result: Result, h: Happening) {
    && calls != [] && calls[|calls| - 1].result == result
    && world.happens(calls[|calls| - 1].position, calls[|calls| - 1].attempt) == h
  }

  /** The last call is worth repeating after a wait, and the wait was cut short. */
  ghost predicate CutWaiting(world: World, route: seq<Rung>, calls: seq<Call>) {
    && calls != []
    && var c := calls[|calls| - 1];
       Retries(route, c) && !world.waits(c.position, c.attempt) && !(c.result.Failed? && c.result.class_.ContextWindow?)
  }

  /** What ended the walk. */
  ghost predicate Because(world: World, route: seq<Rung>, calls: seq<Call>, e: Ending) {
    match e
    case Served(d, usage) =>
      && calls != [] && calls[|calls| - 1].result.Won? && calls[|calls| - 1].position < |route|
      && var c := calls[|calls| - 1];
         && d == route[c.position].definition && world.happens(c.position, c.attempt).Answered?
         && usage == Counted(world.happens(c.position, c.attempt).report)
    case Terminated(t) =>
      match t
      case Timeout => LastIs(world, calls, Died, Overran) || Halts(world, route, calls, Late)
      case Shutdown =>
        LastIs(world, calls, Died, Drained(true)) || Halts(world, route, calls, Drained(false))
        || CutWaiting(world, route, calls)
      case _ =>
        calls == [] || Irreducible(calls) || (GoesOn(calls[|calls| - 1]) && !Retries(route, calls[|calls| - 1]))
  }

  // ---------------------------------------------------------------- every walk keeps what every step keeps

  /** Only calls to this candidate have been added. */
  ghost predicate OnlyAt(calls: seq<Call>, calls': seq<Call>, position: nat) {
    calls <= calls' && forall i :: |calls| <= i < |calls'| ==> calls'[i].position == position
  }

  ghost predicate NextOk(world: World, route: seq<Rung>, inv: Walk -> bool, w: Walk, position: nat, attempt: nat,
                         next: Next)
  {
    inv(next.walk) && OnlyAt(w.calls, next.walk.calls, position) &&
    match next
    case Again(w') => Stands(route, w', position, attempt + 1) && w.armed <= w'.armed && w.calls <= w'.calls
    case Onward(w') => Stands(route, w', position + 1, 0) && w.calls <= w'.calls && EndsAt(w'.calls, position)
    case Ended(w', e) =>
      EndOk(w', e) && Because(world, route, w'.calls, e)
      && (e.Terminated? && IsExhaustion(e.terminal) ==> Irreducible(w'.calls))
  }

  lemma FailureKeeps(world: World, route: seq<Rung>, inv: Walk -> bool, w: Walk, position: nat, attempt: nat,
                     f: Failure)
    requires Preserved(world, route, inv) && inv(w) && Stands(route, w, position, attempt)
    requires MayCall(route, w, position, attempt) && world.happens(position, attempt) == Refused(f)
    ensures NextOk(world, route, inv, w, position, attempt, AfterFailure(world, route, w, position, attempt, f))
  {
    assert inv(Failing(w, route[position], position, attempt, f));
  }

  lemma AnswerKeeps(world: World, route: seq<Rung>, inv: Walk -> bool, w: Walk, position: nat, attempt: nat,
                    result: Result, mark: Mark, served: bool)
    requires Preserved(world, route, inv) && inv(w) && Stands(route, w, position, attempt)
    requires MayCall(route, w, position, attempt)
    requires Tells(world.happens(position, attempt), attempt, result, mark, served)
    ensures var w' := Called(w, route[position].definition, position, attempt, result, mark, served);
      && inv(w') && OnlyLastServed(w'.rows) && w'.rows[|w'.rows| - 1].served == served
          && (!served ==> NoneServed(w'.rows))
      && (result.Blank? && attempt < RETRIES && !served ==> Stands(route, w', position, attempt + 1))
  {
  }

  lemma CutShortKeeps(world: World, route: seq<Rung>, inv: Walk -> bool, w: Walk, position: nat, attempt: nat,
                      mark: Mark, t: Terminal)
    requires Preserved(world, route, inv) && inv(w) && Stands(route, w, position, attempt)
    requires MayCall(route, w, position, attempt)
    requires var h := world.happens(position, attempt);
      (h == Drained(true) && mark == Aborted && t == Shutdown) || (h == Overran && mark == TimedOut && t == Timeout)
    ensures NextOk(world, route, inv, w, position, attempt,
                   Ended(Called(w, route[position].definition, position, attempt, Died, mark, false), Terminated(t)))
  {
    AnswerKeeps(world, route, inv, w, position, attempt, Died, mark, false);
  }

  lemma BlankKeeps(world: World, route: seq<Rung>, inv: Walk -> bool, w: Walk, position: nat, attempt: nat)
    requires Preserved(world, route, inv) && inv(w) && Stands(route, w, position, attempt)
    requires MayCall(route, w, position, attempt) && attempt < RETRIES
    requires world.happens(position, attempt).Answered? && world.happens(position, attempt).blank
    ensures NextOk(world, route, inv, w, position, attempt, Attempt(world, route, w, position, attempt))
  {
    AnswerKeeps(world, route, inv, w, position, attempt, Blank, ValidationFailed, false);
  }

  lemma AnsweredKeeps(world: World, route: seq<Rung>, inv: Walk -> bool, w: Walk, position: nat, attempt: nat)
    requires Preserved(world, route, inv) && inv(w) && Stands(route, w, position, attempt)
    requires MayCall(route, w, position, attempt)
    requires world.happens(position, attempt).Answered?
    ensures NextOk(world, route, inv, w, position, attempt, Attempt(world, route, w, position, attempt))
  {
    var h := world.happens(position, attempt);
    if attempt < RETRIES && h.blank {
      BlankKeeps(world, route, inv, w, position, attempt);
    } else {
      AnswerKeeps(world, route, inv, w, position, attempt, Won, Fine, Metered(h.report).Some?);
    }
  }

  lemma AttemptKeeps(world: World, route: seq<Rung>, inv: Walk -> bool, w: Walk, position: nat, attempt: nat)
    requires Preserved(world, route, inv) && inv(w) && Stands(route, w, position, attempt)
    requires MayCall(route, w, position, attempt)
    ensures NextOk(world, route, inv, w, position, attempt, Attempt(world, route, w, position, attempt))
  {
    match world.happens(position, attempt)
    case Late =>
    case Drained(inFlight) =>
      if inFlight { CutShortKeeps(world, route, inv, w, position, attempt, Aborted, Shutdown); }
    case Overran => CutShortKeeps(world, route, inv, w, position, attempt, TimedOut, Timeout);
    case Answered(_, _) => AnsweredKeeps(world, route, inv, w, position, attempt);
    case Refused(f) => FailureKeeps(world, route, inv, w, position, attempt, f);
  }

  lemma OnlyAtThen(calls: seq<Call>, mid: seq<Call>, end: seq<Call>, position: nat)
    requires OnlyAt(calls, mid, position) && OnlyAt(mid, end, position)
    ensures OnlyAt(calls, end, position)
  {
    forall i | |calls| <= i < |end| ensures end[i].position == position {
      if i < |mid| { assert mid[i] == end[i]; }
    }
  }

  lemma NextThen(world: World, route: seq<Rung>, inv: Walk -> bool, w: Walk, mid: Walk, position: nat, attempt: nat,
                 next: Next)
    requires OnlyAt(w.calls, mid.calls, position) && !next.Again?
    requires NextOk(world, route, inv, mid, position, attempt + 1, next)
    ensures NextOk(world, route, inv, w, position, attempt, next)
  {
    OnlyAtThen(w.calls, mid.calls, next.walk.calls, position);
  }

  lemma TriesStep(world: World, route: seq<Rung>, w: Walk, position: nat, attempt: nat)
    requires position < |route| && attempt <= RETRIES + 1
    ensures attempt == RETRIES + 1 ==> Tries(world, route, w, position, attempt) == Onward(w)
    ensures attempt <= RETRIES ==>
      var next := Attempt(world, route, w, position, attempt);
      Tries(world, route, w, position, attempt) ==
        if next.Again? then Tries(world, route, next.walk, position, attempt + 1) else next
  {
  }

  /** A candidate's attempts. */
  lemma {:induction false} TriesKeep(world: World, route: seq<Rung>, inv: Walk -> bool, w: Walk, position: nat,
                                     attempt: nat)
    requires Preserved(world, route, inv) && inv(w) && Stands(route, w, position, attempt) && position < |route|
    requires attempt <= RETRIES + 1
    requires route[position].credential == Twin ==> route[position].definition.provider in w.armed
    ensures NextOk(world, route, inv, w, position, attempt, Tries(world, route, w, position, attempt))
    decreases RETRIES + 1 - attempt
  {
    TriesStep(world, route, w, position, attempt);
    if attempt <= RETRIES {
      AttemptKeeps(world, route, inv, w, position, attempt);
      var next := Attempt(world, route, w, position, attempt);
      if next.Again? {
        TriesKeep(world, route, inv, next.walk, position, attempt + 1);
        NextThen(world, route, inv, w, next.walk, position, attempt,
                 Tries(world, route, next.walk, position, attempt + 1));
      }
    }
  }

  ghost predicate CalledAt(calls: seq<Call>, p: nat) {
    exists c :: c in calls && c.position == p
  }

  /** Every candidate passed was called, or skipped for a stated reason. */
  ghost predicate Passed(world: World, route: seq<Rung>, calls: seq<Call>, position: nat) {
    position <= |route| &&
    forall p :: 0 <= p < position ==>
      CalledAt(calls, p) || route[p].credential == Twin || (world.skips(p) && (calls != [] || p + 1 < |route|))
  }

  lemma PassedCalled(world: World, route: seq<Rung>, calls: seq<Call>, calls': seq<Call>, position: nat)
    requires position < |route| && Passed(world, route, calls, position) && calls <= calls' && EndsAt(calls', position)
    ensures Passed(world, route, calls', position + 1)
  {
    assert calls'[|calls'| - 1] in calls';
    forall p | 0 <= p < position && CalledAt(calls, p) ensures CalledAt(calls', p) {
      var c :| c in calls && c.position == p;
      assert c in calls';
    }
  }

  ghost predicate FinishOk(world: World, route: seq<Rung>, inv: Walk -> bool, f: Finish) {
    && inv(f.walk) && EndOk(f.walk, f.ending) && Because(world, route, f.walk.calls, f.ending)
    && (f.ending.Terminated? && IsExhaustion(f.ending.terminal) ==>
          Passed(world, route, f.walk.calls, |route|) || Irreducible(f.walk.calls))
  }

  ghost predicate VisitOk(world: World, route: seq<Rung>, inv: Walk -> bool, position: nat, next: Next) {
    match next
    case Onward(w') => inv(w') && Stands(route, w', position + 1, 0) && Passed(world, route, w'.calls, position + 1)
    case Ended(w', e) => FinishOk(world, route, inv, Finish(w', e))
    case _ => false
  }

  lemma SkipKeeps(world: World, route: seq<Rung>, inv: Walk -> bool, w: Walk, position: nat, mark: Mark)
    requires position < |route| && Preserved(world, route, inv) && inv(w) && Stands(route, w, position, 0)
    requires Passed(world, route, w.calls, position)
    requires (mark == PolicySkipped && Unearned(route[position], w.armed))
        || (mark == HealthSkipped && HealthSkips(world.skips, route, w.last, position))
    ensures VisitOk(world, route, inv, position, Onward(Skip(w, route[position].definition, mark)))
  {
  }

  lemma VisitKeeps(world: World, route: seq<Rung>, inv: Walk -> bool, w: Walk, position: nat)
    requires position < |route| && Preserved(world, route, inv) && inv(w) && Stands(route, w, position, 0)
    requires Passed(world, route, w.calls, position)
    ensures VisitOk(world, route, inv, position, Visit(world, route, w, position))
  {
    if Unearned(route[position], w.armed) {
      SkipKeeps(world, route, inv, w, position, PolicySkipped);
    } else if HealthSkips(world.skips, route, w.last, position) {
      SkipKeeps(world, route, inv, w, position, HealthSkipped);
    } else {
      TriesKeep(world, route, inv, w, position, 0);
      var next := Tries(world, route, w, position, 0);
      if next.Onward? {
        PassedCalled(world, route, w.calls, next.walk.calls, position);
      }
    }
  }

  lemma {:induction false} FromKeeps(world: World, route: seq<Rung>, inv: Walk -> bool, w: Walk, position: nat)
    requires position <= |route| && Preserved(world, route, inv) && inv(w) && Stands(route, w, position, 0)
    requires Passed(world, route, w.calls, position)
    ensures FinishOk(world, route, inv, From(world, route, w, position))
    decreases |route| - position
  {
    if position == |route| {
    } else {
      VisitKeeps(world, route, inv, w, position);
      var next := Visit(world, route, w, position);
      if next.Onward? {
        FromKeeps(world, route, inv, next.walk, position + 1);
      }
    }
  }

  /** Whatever every step keeps and the start has, the finished walk has; and it finishes properly. */
  lemma RunKeeps(world: World, route: seq<Rung>, messages: seq<Message>, inv: Walk -> bool)
    requires Preserved(world, route, inv) && inv(StartWalk(messages))
    ensures FinishOk(world, route, inv, Run(world, route, messages))
  {
    FromKeeps(world, route, inv, StartWalk(messages), 0);
  }

  // ---------------------------------------------------------------- the ledger

  ghost predicate RowsOk(w: Walk) {
    Numbered(w.rows) && Tried(w.rows) == |w.calls|
  }

  ghost function RowsFact(): Walk -> bool {
    w => RowsOk(w)
  }

  lemma RowsPush(w: Walk, w': Walk, d: Definition, mark: Mark, served: bool)
    requires RowsOk(w) && w'.rows == Pushed(w.rows, d, mark, served)
    requires |w'.calls| == |w.calls| + (if mark == PolicySkipped || mark == HealthSkipped then 0 else 1)
    ensures RowsOk(w')
  {
    TriedPush(w.rows, w'.rows[|w.rows|]);
  }

  lemma RowsPreserved(world: World, route: seq<Rung>)
    ensures Preserved(world, route, RowsFact())
  {
    forall w, d, mark | RowsOk(w) && (mark == PolicySkipped || mark == HealthSkipped) ensures RowsOk(Skip(w, d, mark)) {
      RowsPush(w, Skip(w, d, mark), d, mark, false);
    }
    forall w, p: nat, a: nat, f | RowsOk(w) && MayCall(route, w, p, a) ensures RowsOk(Failing(w, route[p], p, a, f)) {
      RowsPush(w, Failing(w, route[p], p, a, f), route[p].definition, MarkOf(Classify(f, w.truncated)), false);
    }
    forall w, p: nat, a: nat, result: Result, mark, served
      | RowsOk(w) && MayCall(route, w, p, a) && Tells(world.happens(p, a), a, result, mark, served)
      ensures RowsOk(Called(w, route[p].definition, p, a, result, mark, served))
    {
      RowsPush(w, Called(w, route[p].definition, p, a, result, mark, served), route[p].definition, mark, served);
    }
  }

  /** The ledger that is settled: rows numbered from one without a gap, one per call besides the skips, none
      served unless the reply is a completion, and then only the last. */
  lemma LedgerLaw(world: World, route: seq<Rung>, messages: seq<Message>)
    ensures var f := Run(world, route, messages);
      var s := SettlementOf(f);
      && Numbered(s.rows) && OnlyLastServed(s.rows) && Tried(s.rows) == |f.walk.calls|
      && ((exists r :: r in s.rows && r.served) <==> s.status == 200)
  {
    RowsPreserved(world, route);
    RunKeeps(world, route, messages, RowsFact());
    var f := Run(world, route, messages);
    if f.ending.Served? && f.ending.usage.Some? {
      assert f.walk.rows[|f.walk.rows| - 1] in f.walk.rows;
    }
  }

  // ---------------------------------------------------------------- what the calls and rows say of the world

  /** A call's result is what its attempt came to. */
  ghost predicate Told(world: World, c: Call) {
    var h := world.happens(c.position, c.attempt);
    match c.result
    case Died => h == Drained(true) || h.Overran?
    case Blank => h.Answered? && h.blank && c.attempt < 2
    case Won => h.Answered? && (h.blank ==> c.attempt >= 2)
    case Failed(f, _) => h == Refused(f)
  }

  ghost predicate ToldOk(world: World, route: seq<Rung>, w: Walk) {
    && (forall c :: c in w.calls ==> Told(world, c) && c.position < |route|)
    && (w.calls == [] ==> w.last.None?)
    && (w.calls != [] ==> w.last == Some(route[w.calls[|w.calls| - 1].position].definition))
  }

  ghost function ToldFact(world: World, route: seq<Rung>): Walk -> bool {
    w => ToldOk(world, route, w)
  }

  lemma ToldPreserved(world: World, route: seq<Rung>)
    ensures Preserved(world, route, ToldFact(world, route))
  {
    forall w, p: nat, a: nat, f
      | ToldOk(world, route, w) && MayCall(route, w, p, a) && world.happens(p, a) == Refused(f)
      ensures ToldOk(world, route, Failing(w, route[p], p, a, f))
    {
      var c := Call(p, a, w.messages, Failed(f, Classify(f, w.truncated)));
      assert forall x :: x in w.calls + [c] <==> x in w.calls || x == c;
    }
    forall w, p: nat, a: nat, result: Result, mark, served
      | ToldOk(world, route, w) && MayCall(route, w, p, a) && Tells(world.happens(p, a), a, result, mark, served)
      ensures ToldOk(world, route, Called(w, route[p].definition, p, a, result, mark, served))
    {
      var c := Call(p, a, w.messages, result);
      assert forall x :: x in w.calls + [c] <==> x in w.calls || x == c;
    }
  }

  /** What the settled ledger says of a call: its candidate, how it ended, and whether it served. */
  ghost predicate RowTells(world: World, route: seq<Rung>, c: Call, r: Row) {
    c.position < |route| && r.definition == route[c.position].definition &&
    match world.happens(c.position, c.attempt)
    case Late => false
    case Drained(_) => r.mark == Aborted && !r.served
    case Overran => r.mark == TimedOut && !r.served
    case Answered(blank, report) =>
      if blank && c.attempt < 2 then r.mark == ValidationFailed && !r.served
      else r.mark == Fine && (r.served <==> Counted(report).Some?)
    case Refused(f) => r.mark == (if f.rateLimited && !f.unattested then Limited else UpstreamError) && !r.served
  }

  /** The rows that stand for a call. */
  ghost function Unskipped(rows: seq<Row>): seq<Row> {
    if rows == [] then []
    else
      var last := rows[|rows| - 1];
      Unskipped(rows[..|rows| - 1]) + if last.mark == PolicySkipped || last.mark == HealthSkipped then [] else [last]
  }

  ghost predicate MarksOk(world: World, route: seq<Rung>, w: Walk) {
    && |Unskipped(w.rows)| == |w.calls|
    && forall i :: 0 <= i < |w.calls| ==> RowTells(world, route, w.calls[i], Unskipped(w.rows)[i])
  }

  ghost function MarksFact(world: World, route: seq<Rung>): Walk -> bool {
    w => MarksOk(world, route, w)
  }

  lemma MarksPush(world: World, route: seq<Rung>, w: Walk, w': Walk, c: Call, mark: Mark, served: bool)
    requires MarksOk(world, route, w) && w'.calls == w.calls + [c] && c.position < |route|
    requires w'.rows == Pushed(w.rows, route[c.position].definition, mark, served)
    requires mark != PolicySkipped && mark != HealthSkipped
    requires RowTells(world, route, c, Row(|w.rows| + 1, route[c.position].definition, mark, served))
    ensures MarksOk(world, route, w')
  {
    assert w'.rows[..|w'.rows| - 1] == w.rows;
  }

  lemma MarksPreserved(world: World, route: seq<Rung>)
    ensures Preserved(world, route, MarksFact(world, route))
  {
    forall w, d, mark | MarksOk(world, route, w) && (mark == PolicySkipped || mark == HealthSkipped)
      ensures MarksOk(world, route, Skip(w, d, mark))
    {
      var rows := Skip(w, d, mark).rows;
      assert rows[..|rows| - 1] == w.rows;
      assert Unskipped(w.rows) + [] == Unskipped(w.rows);
    }
    forall w, p: nat, a: nat, f
      | MarksOk(world, route, w) && MayCall(route, w, p, a) && world.happens(p, a) == Refused(f)
      ensures MarksOk(world, route, Failing(w, route[p], p, a, f))
    {
      MarksPush(world, route, w, Failing(w, route[p], p, a, f),
                Call(p, a, w.messages, Failed(f, Classify(f, w.truncated))), MarkOf(Classify(f, w.truncated)), false);
    }
    forall w, p: nat, a: nat, result: Result, mark, served
      | MarksOk(world, route, w) && MayCall(route, w, p, a) && Tells(world.happens(p, a), a, result, mark, served)
      ensures MarksOk(world, route, Called(w, route[p].definition, p, a, result, mark, served))
    {
      MarksPush(world, route, w, Called(w, route[p].definition, p, a, result, mark, served),
                Call(p, a, w.messages, result), mark, served);
    }
  }

  /** Every call's result is what happened to it, and the rows that are no skips say so, call by call: the candidate
      tried, how the attempt ended and whether it served. */
  lemma RowLaw(world: World, route: seq<Rung>, messages: seq<Message>)
    ensures var f := Run(world, route, messages);
      && (forall c :: c in f.walk.calls ==> Told(world, c))
      && |Unskipped(SettlementOf(f).rows)| == |f.walk.calls|
      && forall i :: 0 <= i < |f.walk.calls| ==>
           RowTells(world, route, f.walk.calls[i], Unskipped(SettlementOf(f).rows)[i])
  {
    ToldPreserved(world, route);
    RunKeeps(world, route, messages, ToldFact(world, route));
    MarksPreserved(world, route);
    RunKeeps(world, route, messages, MarksFact(world, route));
  }

  /** The status each end replies with. */
  ghost function StatusOf(t: Terminal): nat {
    match t
    case ParameterRejected(_) => 400
    case Timeout => 504
    case Shutdown => 503
    case _ => 502
  }

  /** An answer in hand is charged what its upstream reported, and given; one that reported nothing is charged nothing
      and not given. Every other end is charged nothing, under the status it replies with. */
  ghost predicate Charged(world: World, calls: seq<Call>, s: Settlement, reply: Reply) {
    if calls != [] && calls[|calls| - 1].result.Won? then
      var h := world.happens(calls[|calls| - 1].position, calls[|calls| - 1].attempt);
      && h.Answered? && s.definition.Some?
      && (match Counted(h.report)
          case Some(usage) => s.usage == usage && s.status == 200 && reply == Completion(s.definition.value, usage)
          case None => s.usage == Usage(0, 0) && s.status == 502 && reply == MeteringUnavailable)
    else s.usage == Usage(0, 0) && reply.NoCompletion? && s.status == StatusOf(reply.terminal)
  }

  /** The candidate of the last call, if there was one. */
  ghost predicate Names(route: seq<Rung>, calls: seq<Call>, d: Option<Definition>) {
    if calls == [] then d.None?
    else calls[|calls| - 1].position < |route| && d == Some(route[calls[|calls| - 1].position].definition)
  }

  /** A charge is exactly what the upstream of the last call reported for the answer the customer gets. */
  lemma ChargeLaw(world: World, route: seq<Rung>, messages: seq<Message>)
    ensures var f := Run(world, route, messages);
      && Charged(world, f.walk.calls, SettlementOf(f), ReplyOf(f, true))
      && Names(route, f.walk.calls, SettlementOf(f).definition) && SettlementOf(f).rows == f.walk.rows
      && ReplyOf(f, false) == MeteringUnavailable
  {
    ToldPreserved(world, route);
    RunKeeps(world, route, messages, ToldFact(world, route));
    ChargeMeans(world, route, Run(world, route, messages));
  }

  lemma ChargeMeans(world: World, route: seq<Rung>, f: Finish)
    requires ToldOk(world, route, f.walk) && EndOk(f.walk, f.ending) && Because(world, route, f.walk.calls, f.ending)
    ensures Charged(world, f.walk.calls, SettlementOf(f), ReplyOf(f, true))
    ensures Names(route, f.walk.calls, SettlementOf(f).definition)
  {
    if f.walk.calls != [] {
      assert f.walk.calls[|f.walk.calls| - 1] in f.walk.calls;
    }
  }

  // ---------------------------------------------------------------- the calls

  /** The call that may follow: the same candidate again exactly after a failure worth retrying, else a later one. */
  ghost predicate Follows(route: seq<Rung>, before: Call, after: Call) {
    if Retries(route, before) then after.position == before.position && after.attempt == before.attempt + 1
    else before.position < after.position && after.attempt == 0
  }

  ghost predicate CallsOk(route: seq<Rung>, calls: seq<Call>) {
    && (forall i :: 0 <= i < |calls| ==> calls[i].position < |route| && calls[i].attempt <= RETRIES)
    && (calls != [] ==> calls[0].attempt == 0)
    && (forall i :: 0 < i < |calls| ==> Follows(route, calls[i - 1], calls[i]))
  }

  ghost function CallsFact(route: seq<Rung>): Walk -> bool {
    (w: Walk) => CallsOk(route, w.calls)
  }

  lemma CallsPreserved(world: World, route: seq<Rung>)
    ensures Preserved(world, route, CallsFact(route))
  {
    forall w: Walk, p: nat, a: nat, f | CallsOk(route, w.calls) && MayCall(route, w, p, a)
      ensures CallsOk(route, Failing(w, route[p], p, a, f).calls)
    {
      CallsPush(route, w.calls, Call(p, a, w.messages, Failed(f, Classify(f, w.truncated))));
    }
    forall w: Walk, p: nat, a: nat, result: Result, mark, served | CallsOk(route, w.calls) && MayCall(route, w, p, a)
      ensures CallsOk(route, Called(w, route[p].definition, p, a, result, mark, served).calls)
    {
      CallsPush(route, w.calls, Call(p, a, w.messages, result));
    }
  }

  lemma CallsPush(route: seq<Rung>, calls: seq<Call>, c: Call)
    requires CallsOk(route, calls) && At(route, calls, c.position, c.attempt) && c.position < |route|
    requires c.attempt <= RETRIES
    ensures CallsOk(route, calls + [c])
  {
  }

  /** The upstream calls climb the route, each candidate's attempts in one unbroken run, and a call is repeated
      on the same candidate exactly after a failure worth retrying there. `RepeatLaw` says which those are. */
  lemma CallLaw(world: World, route: seq<Rung>, messages: seq<Message>)
    ensures CallsOk(route, Run(world, route, messages).walk.calls)
  {
    CallsPreserved(world, route);
    RunKeeps(world, route, messages, CallsFact(route));
  }

  function CallsAt(calls: seq<Call>, p: nat): nat {
    if calls == [] then 0
    else CallsAt(calls[..|calls| - 1], p) + (if calls[|calls| - 1].position == p then 1 else 0)
  }

  lemma {:induction false} ClimbBound(route: seq<Rung>, calls: seq<Call>, p: nat)
    requires CallsOk(route, calls)
    ensures CallsAt(calls, p) <= 3
    ensures calls != [] ==>
      var last := calls[|calls| - 1];
      (last.position < p ==> CallsAt(calls, p) == 0) && (last.position == p ==> CallsAt(calls, p) == last.attempt + 1)
  {
    if calls == [] {
    } else {
      var n := |calls| - 1;
      ClimbBound(route, calls[..n], p);
      if n > 0 { assert Follows(route, calls[n - 1], calls[n]); }
    }
  }

  /** Never more than three calls to one candidate. */
  lemma AtMostThree(world: World, route: seq<Rung>, messages: seq<Message>, p: nat)
    ensures CallsAt(Run(world, route, messages).walk.calls, p) <= 3
  {
    CallLaw(world, route, messages);
    ClimbBound(route, Run(world, route, messages).walk.calls, p);
  }

  /** An exhausted walk has been everywhere: each candidate was called, or is an unearned twin, or was unhealthy
      with somewhere else to go. Only a prompt that cannot be shortened ends the walk earlier. */
  lemma ExhaustionLaw(world: World, route: seq<Rung>, messages: seq<Message>)
    requires Run(world, route, messages).ending.Terminated? && IsExhaustion(Run(world, route, messages).ending.terminal)
    ensures var calls := Run(world, route, messages).walk.calls;
      Passed(world, route, calls, |route|) || Irreducible(calls)
  {
    CallsPreserved(world, route);
    RunKeeps(world, route, messages, CallsFact(route));
  }

  lemma NotCalled(p: nat)
    ensures !CalledAt([], p)
  {
  }

  /** Health never costs a walk its only call: nothing is called only where the route is empty or ends in a twin. */
  lemma SomethingIsCalled(world: World, route: seq<Rung>, messages: seq<Message>)
    requires Run(world, route, messages).ending.Terminated? && IsExhaustion(Run(world, route, messages).ending.terminal)
    requires route != [] && route[|route| - 1].credential != Twin
    ensures Run(world, route, messages).walk.calls != []
  {
    ExhaustionLaw(world, route, messages);
    var p: nat := |route| - 1;
    NotCalled(p);
  }

  // ---------------------------------------------------------------- the fallback

  /** The customer's key was tried on this provider, and failed in a way the classifier covers. */
  ghost predicate Earns(route: seq<Rung>, c: Call, provider: string) {
    c.position < |route| && route[c.position].credential == Byok && route[c.position].definition.provider == provider
    && c.result.Failed? && c.result.class_.PermitsByokFallback()
  }

  ghost predicate EarnedBy(route: seq<Rung>, calls: seq<Call>, provider: string) {
    exists c :: c in calls && Earns(route, c, provider)
  }

  /** The armed set is exactly what has been earned, and every twin called had earned it before. */
  ghost predicate ArmedOk(route: seq<Rung>, w: Walk) {
    && (forall p :: p in w.armed <==> EarnedBy(route, w.calls, p))
    && (forall i ::
          0 <= i < |w.calls| && w.calls[i].position < |route| && route[w.calls[i].position].credential == Twin ==>
          EarnedBy(route, w.calls[..i], route[w.calls[i].position].definition.provider))
  }

  lemma ArmedPush(route: seq<Rung>, w: Walk, w': Walk, c: Call)
    requires ArmedOk(route, w) && MayCall(route, w, c.position, c.attempt) && w'.calls == w.calls + [c]
    requires w'.armed == if route[c.position].credential == Byok && c.result.Failed?
        && c.result.class_.PermitsByokFallback()
                         then w.armed + {route[c.position].definition.provider} else w.armed
    ensures ArmedOk(route, w')
  {
    var n := |w.calls|;
    assert forall x :: x in w'.calls <==> x in w.calls || x == c;
    forall p ensures EarnedBy(route, w'.calls, p) <==> EarnedBy(route, w.calls, p) || Earns(route, c, p) {}
    forall i | 0 <= i <= n && w'.calls[i].position < |route| && route[w'.calls[i].position].credential == Twin
      ensures EarnedBy(route, w'.calls[..i], route[w'.calls[i].position].definition.provider)
    {
      assert w'.calls[..i] == w.calls[..i];
      if i < n {
        assert w'.calls[i] == w.calls[i];
      } else {
        assert w.calls[..n] == w.calls;
      }
    }
  }

  ghost function ArmedFact(route: seq<Rung>): Walk -> bool {
    w => ArmedOk(route, w)
  }

  lemma ArmedPreserved(world: World, route: seq<Rung>)
    ensures Preserved(world, route, ArmedFact(route))
  {
    forall w, p: nat, a: nat, f | ArmedOk(route, w) && MayCall(route, w, p, a)
      ensures ArmedOk(route, Failing(w, route[p], p, a, f))
    {
      ArmedPush(route, w, Failing(w, route[p], p, a, f), Call(p, a, w.messages, Failed(f, Classify(f, w.truncated))));
    }
    forall w, p: nat, a: nat, result: Result, mark, served | ArmedOk(route, w) && MayCall(route, w, p, a)
        && Tells(world.happens(p, a), a, result, mark, served)
      ensures ArmedOk(route, Called(w, route[p].definition, p, a, result, mark, served))
    {
      ArmedPush(route, w, Called(w, route[p].definition, p, a, result, mark, served), Call(p, a, w.messages, result));
    }
  }

  /** A fallback twin is called only after the customer's own key on that provider was, and failed in a way the
      classifier covers. `KeyArms` says which those are. */
  lemma NoUnearnedFallback(world: World, route: seq<Rung>, messages: seq<Message>, i: nat)
    requires i < |Run(world, route, messages).walk.calls|
    ensures var calls := Run(world, route, messages).walk.calls;
      var p := calls[i].position;
      p < |route| && (route[p].credential == Twin ==> EarnedBy(route, calls[..i], route[p].definition.provider))
  {
    CallLaw(world, route, messages);
    ArmedPreserved(world, route);
    RunKeeps(world, route, messages, ArmedFact(route));
  }

  /** Every failure was classified by what had been sent: a prompt is the request's own until it is shortened. */
  ghost predicate ClassesOk(messages: seq<Message>, w: Walk) {
    && w.messages == (if w.truncated then Truncated(messages) else messages)
    && (w.truncated ==> Truncated(messages) != messages)
    && forall c :: c in w.calls && c.result.Failed? ==>
        c.result.class_ == Classify(c.result.failure, c.sent != messages)
  }

  ghost function ClassesFact(messages: seq<Message>): Walk -> bool {
    w => ClassesOk(messages, w)
  }

  lemma ClassesPush(messages: seq<Message>, w: Walk, w': Walk, c: Call)
    requires ClassesOk(messages, w) && c.sent == w.messages && w'.calls == w.calls + [c]
    requires w'.messages == w.messages && w'.truncated == w.truncated
    requires c.result.Failed? ==> c.result.class_ == Classify(c.result.failure, w.truncated)
    ensures ClassesOk(messages, w')
  {
    assert forall x :: x in w'.calls <==> x in w.calls || x == c;
  }

  lemma ClassesFail(route: seq<Rung>, messages: seq<Message>)
    ensures forall w, p: nat, a: nat, f :: ClassesOk(messages, w) && MayCall(route, w, p, a) ==>
        ClassesOk(messages, Failing(w, route[p], p, a, f))
  {
    forall w, p: nat, a: nat, f | ClassesOk(messages, w) && MayCall(route, w, p, a)
      ensures ClassesOk(messages, Failing(w, route[p], p, a, f))
    {
      ClassesPush(messages, w, Failing(w, route[p], p, a, f),
                  Call(p, a, w.messages, Failed(f, Classify(f, w.truncated))));
    }
  }

  lemma ClassesPreserved(world: World, route: seq<Rung>, messages: seq<Message>)
    ensures Preserved(world, route, ClassesFact(messages))
  {
    ClassesFail(route, messages);
    forall w, p: nat, a: nat, result: Result, mark, served | ClassesOk(messages, w) && MayCall(route, w, p, a)
        && Tells(world.happens(p, a), a, result, mark, served)
      ensures ClassesOk(messages, Called(w, route[p].definition, p, a, result, mark, served))
    {
      ClassesPush(messages, w, Called(w, route[p].definition, p, a, result, mark, served),
                  Call(p, a, w.messages, result));
    }
    DropMeans(messages);
  }

  /** Which failures of the customer's key arm the twin: every one but a 429 that no retry can help, and of those
      too the ones read as something else first. So the refusal of an account that cannot pay, which the opt-in is
      not meant to cover, arms exactly when it is unattested or it is also a context overflow met before the
      prompt was shortened. (The router asks no retention attestation of a customer's key, so of the two only the
      overflow can happen to one.) */
  lemma KeyArms(world: World, route: seq<Rung>, messages: seq<Message>, c: Call)
    requires c in Run(world, route, messages).walk.calls && c.result.Failed?
    requires c.position < |route| && route[c.position].credential == Byok
    ensures var f := c.result.failure;
      var readAsOther := f.unattested || (f.contextWindow && c.sent == messages);
      && (Earns(route, c, route[c.position].definition.provider) <==>
            readAsOther || !(f.rateLimited && (f.accountCannotPay || f.clientError)))
      && (AccountRefused(f) ==> (Earns(route, c, route[c.position].definition.provider) <==> readAsOther))
  {
    ClassesPreserved(world, route, messages);
    RunKeeps(world, route, messages, ClassesFact(messages));
  }

  /** The input: an exhausted account whose refusal also reads as a context overflow, on a route with a twin. The
      key is refused twice, each time by an account that cannot pay, and the house answers and is paid. */
  lemma HouseAnswersExhaustedAccount(world: World, d: Definition, messages: seq<Message>, f: Failure, usage: Usage)
    requires f == Failure(false, true, true, true, false, None) && DropCount(messages) > 0 && usage != UNMETERED
    requires !world.skips(0) && world.happens(0, 0) == Refused(f) == world.happens(0, 1)
    requires !world.skips(1) && world.happens(1, 0) == Answered(false, Some(usage))
    ensures AccountRefused(f)
    ensures var end := Run(world, [Rung(0, d, Byok), Rung(1, d, Twin)], messages);
      && |end.walk.calls| == 3 && end.walk.calls[0].result.Failed? && end.walk.calls[1].result.Failed?
      && end.walk.calls[0].result.failure == f == end.walk.calls[1].result.failure
      && end.walk.calls[2].position == 1 && SettlementOf(end).usage == usage && SettlementOf(end).status == 200
  {
    var route := [Rung(0, d, Byok), Rung(1, d, Twin)];
    var w0 := StartWalk(messages);
    var w1 := Shortened(Failing(w0, route[0], 0, 0, f));
    assert Attempt(world, route, w0, 0, 0) == Again(w1);
    var w2 := Failing(w1, route[0], 0, 1, f);
    assert Attempt(world, route, w1, 0, 1) == Onward(w2);
    assert Tries(world, route, w1, 0, 1) == Onward(w2);
    assert Visit(world, route, w0, 0) == Tries(world, route, w0, 0, 0) == Onward(w2);
    var w3 := Called(w2, d, 1, 0, Won, Fine, true);
    assert Attempt(world, route, w2, 1, 0) == Ended(w3, Served(d, Some(usage)));
    assert Visit(world, route, w2, 1) == Tries(world, route, w2, 1, 0) == Ended(w3, Served(d, Some(usage)));
    assert From(world, route, w2, 1) == Finish(w3, Served(d, Some(usage)));
    assert Run(world, route, messages) == From(world, route, w0, 0) == From(world, route, w2, 1);
  }

  // ---------------------------------------------------------------- the prompt

  /** Refused for a prompt too long, and not for retention. */
  ghost predicate Overflows(c: Call) {
    c.result.Failed? && !c.result.failure.unattested && c.result.failure.contextWindow
  }

  /** Some call before this one did. */
  ghost predicate OverflowedBefore(calls: seq<Call>, i: nat) {
    exists j :: 0 <= j < i && j < |calls| && Overflows(calls[j])
  }

  ghost predicate RepairOk(messages: seq<Message>, w: Walk) {
    var n := |w.calls|;
    && ClassesOk(messages, w)
    && (forall i :: 0 <= i < n ==>
          w.calls[i].sent == if OverflowedBefore(w.calls, i) then Truncated(messages) else messages)
    && (w.truncated ==> OverflowedBefore(w.calls, n))
    && (n > 0 && OverflowedBefore(w.calls, n - 1) ==> w.truncated)
    && (forall i :: 0 <= i < n - 1 && Overflows(w.calls[i]) ==> DropCount(messages) > 0)
  }

  ghost function RepairFact(messages: seq<Message>): Walk -> bool {
    w => RepairOk(messages, w)
  }

  lemma OverflowShortens(messages: seq<Message>, w: Walk)
    requires RepairOk(messages, w) && Repaired(w) && w.calls != [] && Overflows(w.calls[|w.calls| - 1])
    ensures w.truncated
  {
    var n := |w.calls| - 1;
    assert w.calls[n] in w.calls;
    if !OverflowedBefore(w.calls, n) {
      assert w.calls[n].result.class_ == Classify(w.calls[n].result.failure, false);
    }
  }

  /** The walk that may call is on a shortened prompt exactly if a call overflowed. */
  lemma TruncatedMeans(messages: seq<Message>, w: Walk)
    requires RepairOk(messages, w) && Repaired(w)
    ensures w.truncated <==> OverflowedBefore(w.calls, |w.calls|)
  {
    if j :| 0 <= j < |w.calls| && Overflows(w.calls[j]) {
      var n := |w.calls| - 1;
      if j < n {
        assert OverflowedBefore(w.calls, n);
      } else {
        OverflowShortens(messages, w);
      }
    }
  }

  lemma TruncatedDrops(messages: seq<Message>, w: Walk)
    requires ClassesOk(messages, w) && w.truncated
    ensures DropCount(messages) > 0
  {
    DropMeans(messages);
  }

  lemma OverflowedPush(calls: seq<Call>, c: Call, i: nat)
    requires i <= |calls|
    ensures OverflowedBefore(calls + [c], i) <==> OverflowedBefore(calls, i)
    ensures OverflowedBefore(calls + [c], |calls| + 1) <==> OverflowedBefore(calls, |calls|) || Overflows(c)
  {
    forall j | 0 <= j < |calls| ensures (calls + [c])[j] == calls[j] {}
    if Overflows(c) { assert Overflows((calls + [c])[|calls|]); }
  }

  lemma RepairPush(messages: seq<Message>, w: Walk, w': Walk, c: Call)
    requires RepairOk(messages, w) && Repaired(w) && c.sent == w.messages && w'.calls == w.calls + [c]
    requires w'.messages == w.messages && w'.truncated == w.truncated
    requires c.result.Failed? ==> c.result.class_ == Classify(c.result.failure, w.truncated)
    ensures RepairOk(messages, w')
  {
    ClassesPush(messages, w, w', c);
    TruncatedMeans(messages, w);
    if w.truncated { TruncatedDrops(messages, w); }
    forall i | 0 <= i <= |w.calls| ensures OverflowedBefore(w'.calls, i) <==> OverflowedBefore(w.calls, i) {
      OverflowedPush(w.calls, c, i);
    }
    OverflowedPush(w.calls, c, 0);
    forall i | 0 <= i < |w.calls| && Overflows(w'.calls[i]) ensures DropCount(messages) > 0 {
      assert Overflows(w.calls[i]);
      assert OverflowedBefore(w.calls, |w.calls|);
    }
  }

  lemma RepairFail(route: seq<Rung>, messages: seq<Message>)
    ensures forall w, p: nat, a: nat, f :: RepairOk(messages, w) && MayCall(route, w, p, a) ==>
        RepairOk(messages, Failing(w, route[p], p, a, f))
  {
    forall w, p: nat, a: nat, f | RepairOk(messages, w) && MayCall(route, w, p, a)
      ensures RepairOk(messages, Failing(w, route[p], p, a, f))
    {
      RepairPush(messages, w, Failing(w, route[p], p, a, f),
                 Call(p, a, w.messages, Failed(f, Classify(f, w.truncated))));
    }
  }

  lemma RepairShortens(messages: seq<Message>, w: Walk)
    requires RepairOk(messages, w) && !w.truncated && Overflowed(w.calls) && DropCount(w.messages) > 0
    ensures RepairOk(messages, Shortened(w))
  {
    DropMeans(messages);
    var n := |w.calls| - 1;
    assert w.calls[n] in w.calls;
    assert Overflows(w.calls[n]);
  }

  lemma RepairPreserved(world: World, route: seq<Rung>, messages: seq<Message>)
    ensures Preserved(world, route, RepairFact(messages))
  {
    RepairFail(route, messages);
    forall w, p: nat, a: nat, result: Result, mark, served | RepairOk(messages, w) && MayCall(route, w, p, a)
        && Tells(world.happens(p, a), a, result, mark, served)
      ensures RepairOk(messages, Called(w, route[p].definition, p, a, result, mark, served))
    {
      RepairPush(messages, w, Called(w, route[p].definition, p, a, result, mark, served),
                 Call(p, a, w.messages, result));
    }
    forall w | RepairOk(messages, w) && !w.truncated && Overflowed(w.calls) && DropCount(w.messages) > 0
      ensures RepairOk(messages, Shortened(w))
    {
      RepairShortens(messages, w);
    }
  }

  /** The prompt is shortened once at most, and stays so: every call sends the request's own prompt until one has
      overflowed, and from then on its one truncation. */
  lemma RepairLaw(world: World, route: seq<Rung>, messages: seq<Message>, i: nat)
    requires i < |Run(world, route, messages).walk.calls|
    ensures var calls := Run(world, route, messages).walk.calls;
      calls[i].sent == if OverflowedBefore(calls, i) then Truncated(messages) else messages
  {
    RepairPreserved(world, route, messages);
    RunKeeps(world, route, messages, RepairFact(messages));
  }

  // ---------------------------------------------------------------- which call is repeated

  /** A failure worth another call to the same candidate: a prompt too long that has not been shortened yet; or else
      nothing the client must mend nor an account that cannot pay, and no rate limit if there is somewhere else to go.
      Never a refusal of the retention guarantee. */
  ghost predicate Worth(route: seq<Rung>, f: Failure, shortened: bool) {
    !f.unattested &&
    if f.contextWindow && !shortened then true
    else !f.clientError && !(f.rateLimited && f.accountCannotPay) && (f.rateLimited ==> |route| == 1)
  }

  /** Two calls to a candidate may be repeated, and are after a blank answer or such a failure. */
  ghost predicate Repeats(world: World, route: seq<Rung>, calls: seq<Call>, i: nat)
    requires i < |calls|
  {
    calls[i].attempt < 2 &&
    match world.happens(calls[i].position, calls[i].attempt)
    case Answered(blank, _) => blank
    case Refused(f) => Worth(route, f, OverflowedBefore(calls, i))
    case _ => false
  }

  lemma RetriesMeans(world: World, route: seq<Rung>, messages: seq<Message>, w: Walk, i: nat)
    requires RepairOk(messages, w) && ToldOk(world, route, w) && i < |w.calls| && GoesOn(w.calls[i])
    ensures Retries(route, w.calls[i]) <==> Repeats(world, route, w.calls, i)
  {
    var c := w.calls[i];
    assert c in w.calls && Told(world, c);
    if c.result.Failed? {
      assert c.result.class_ == Classify(c.result.failure, c.sent != messages);
      if OverflowedBefore(w.calls, i) {
        var j :| 0 <= j < i && Overflows(w.calls[j]);
        assert DropCount(messages) > 0;
        DropMeans(messages);
      }
    }
  }

  ghost predicate AllFacts(world: World, route: seq<Rung>, messages: seq<Message>, f: Finish) {
    && RepairOk(messages, f.walk) && ToldOk(world, route, f.walk) && CallsOk(route, f.walk.calls)
    && GoingOn(f.walk.calls) && Because(world, route, f.walk.calls, f.ending)
  }

  /** Every call but the last is one the walk goes on after. */
  ghost predicate GoingOn(calls: seq<Call>) {
    forall i :: 0 <= i < |calls| - 1 ==> GoesOn(calls[i])
  }

  ghost function GoingOnFact(): Walk -> bool {
    (w: Walk) => GoingOn(w.calls)
  }

  lemma GoingOnPreserved(world: World, route: seq<Rung>)
    ensures Preserved(world, route, GoingOnFact())
  {
  }

  lemma FactsHold(world: World, route: seq<Rung>, messages: seq<Message>)
    ensures AllFacts(world, route, messages, Run(world, route, messages))
  {
    RepairPreserved(world, route, messages);
    RunKeeps(world, route, messages, RepairFact(messages));
    ToldPreserved(world, route);
    RunKeeps(world, route, messages, ToldFact(world, route));
    GoingOnPreserved(world, route);
    RunKeeps(world, route, messages, GoingOnFact());
    CallLaw(world, route, messages);
  }

  /** The next call is to the same candidate exactly after a call worth repeating, said over what the world did; it is
      to a later candidate, for the first time, after any other. */
  lemma RepeatLaw(world: World, route: seq<Rung>, messages: seq<Message>, i: nat)
    requires i + 1 < |Run(world, route, messages).walk.calls|
    ensures var calls := Run(world, route, messages).walk.calls;
      if Repeats(world, route, calls, i)
      then calls[i + 1].position == calls[i].position && calls[i + 1].attempt == calls[i].attempt + 1
      else calls[i + 1].position > calls[i].position && calls[i + 1].attempt == 0
  {
    FactsHold(world, route, messages);
    var w := Run(world, route, messages).walk;
    RetriesMeans(world, route, messages, w, i);
    assert Follows(route, w.calls[i], w.calls[i + 1]);
  }

  /** The attempt the walk had come to: the next one at the same candidate if the last call is worth repeating, else the
      first at a later candidate. */
  ghost predicate Comes(world: World, route: seq<Rung>, calls: seq<Call>, p: nat, a: nat) {
    && p < |route| && a <= 2
    && if calls == [] then a == 0
       else
         var n, last := |calls| - 1, calls[|calls| - 1];
         if a == 0 then last.position < p && !Repeats(world, route, calls, n)
         else last.position == p && a == last.attempt + 1 && Repeats(world, route, calls, n)
  }

  ghost predicate ComesTo(world: World, route: seq<Rung>, calls: seq<Call>, h: Happening) {
    exists p: nat, a: nat :: Comes(world, route, calls, p, a) && world.happens(p, a) == h
  }

  /** The last call met the first overflow, on a prompt of one turn at most. */
  ghost predicate CannotShorten(messages: seq<Message>, calls: seq<Call>) {
    calls != [] && Overflows(calls[|calls| - 1]) && !OverflowedBefore(calls, |calls| - 1)
    && |Kept(messages, false)| <= 1
  }

  /** What the last call came to. */
  ghost predicate LastCame(world: World, calls: seq<Call>, h: Happening) {
    calls != [] && world.happens(calls[|calls| - 1].position, calls[|calls| - 1].attempt) == h
  }

  /** Why a walk ends as it does. It serves the last call's answer. It runs out of time in a call or before one, is shut
      down in a call, before one, or while waiting to repeat one. Otherwise the last call was not worth repeating, or it
      was a prompt too long that cannot be shortened. */
  ghost predicate EndsFor(world: World, route: seq<Rung>, messages: seq<Message>, calls: seq<Call>, e: Ending) {
    match e
    case Served(_, _) => calls != [] && calls[|calls| - 1].result.Won?
    case Terminated(t) =>
      match t
      case Timeout => LastCame(world, calls, Overran) || ComesTo(world, route, calls, Late)
      case Shutdown =>
        || LastCame(world, calls, Drained(true)) || ComesTo(world, route, calls, Drained(false))
        || (calls != [] && !world.waits(calls[|calls| - 1].position, calls[|calls| - 1].attempt)
            && Repeats(world, route, calls, |calls| - 1)
            && (Overflows(calls[|calls| - 1]) ==> OverflowedBefore(calls, |calls| - 1)))
      case _ =>
        calls == [] || CannotShorten(messages, calls)
        || (GoesOn(calls[|calls| - 1]) && !Repeats(world, route, calls, |calls| - 1))
  }

  lemma EndingLaw(world: World, route: seq<Rung>, messages: seq<Message>)
    ensures var f := Run(world, route, messages);
      EndsFor(world, route, messages, f.walk.calls, f.ending)
  {
    FactsHold(world, route, messages);
    BecauseMeans(world, route, messages, Run(world, route, messages));
  }

  lemma HaltsMeans(world: World, route: seq<Rung>, messages: seq<Message>, w: Walk, h: Happening)
    requires RepairOk(messages, w) && ToldOk(world, route, w) && Halts(world, route, w.calls, h)
    ensures ComesTo(world, route, w.calls, h)
  {
    var p: nat, a: nat :| p < |route| && a <= RETRIES && At(route, w.calls, p, a) && world.happens(p, a) == h;
    if w.calls != [] { RetriesMeans(world, route, messages, w, |w.calls| - 1); }
    assert Comes(world, route, w.calls, p, a);
  }

  lemma BecauseMeans(world: World, route: seq<Rung>, messages: seq<Message>, f: Finish)
    requires AllFacts(world, route, messages, f)
    ensures EndsFor(world, route, messages, f.walk.calls, f.ending)
  {
    var w := f.walk;
    if Halts(world, route, w.calls, Late) { HaltsMeans(world, route, messages, w, Late); }
    if Halts(world, route, w.calls, Drained(false)) { HaltsMeans(world, route, messages, w, Drained(false)); }
    if w.calls != [] {
      LastMeans(world, route, messages, w);
    }
  }

  lemma LastMeans(world: World, route: seq<Rung>, messages: seq<Message>, w: Walk)
    requires RepairOk(messages, w) && ToldOk(world, route, w) && w.calls != []
    ensures var n := |w.calls| - 1;
      && (GoesOn(w.calls[n]) ==> (Retries(route, w.calls[n]) <==> Repeats(world, route, w.calls, n)))
      && (Overflowed(w.calls) <==> Overflows(w.calls[n]) && !OverflowedBefore(w.calls, n))
      && (Irreducible(w.calls) ==> CannotShorten(messages, w.calls))
  {
    var n := |w.calls| - 1;
    assert w.calls[n] in w.calls;
    if GoesOn(w.calls[n]) { RetriesMeans(world, route, messages, w, n); }
    if w.calls[n].result.Failed? {
      assert w.calls[n].result.class_ == Classify(w.calls[n].result.failure, w.calls[n].sent != messages);
      DropMeans(messages);
      if OverflowedBefore(w.calls, n) {
        var j :| 0 <= j < n && Overflows(w.calls[j]);
        assert DropCount(messages) > 0;
      }
    }
  }

  // ---------------------------------------------------------------- who is passed over

  ghost predicate CalledBehind(calls: seq<Call>, p: nat) {
    exists c :: c in calls && c.position < p
  }

  ghost predicate EarnedBehind(route: seq<Rung>, calls: seq<Call>, p: nat, provider: string) {
    exists c :: c in calls && c.position < p && Earns(route, c, provider)
  }

  /** A twin no failure behind it has earned, or an unhealthy candidate with a call behind it or a candidate ahead. */
  ghost predicate PassesOver(world: World, route: seq<Rung>, calls: seq<Call>, p: nat)
    requires p < |route|
  {
    || (route[p].credential == Twin && !EarnedBehind(route, calls, p, route[p].definition.provider))
    || (world.skips(p) && (CalledBehind(calls, p) || p + 1 < |route|))
  }

  ghost predicate Settled(world: World, route: seq<Rung>, calls: seq<Call>, position: nat) {
    position <= |route|
    && forall p :: 0 <= p < position ==> (CalledAt(calls, p) <==> !PassesOver(world, route, calls, p))
  }

  ghost predicate Behind(calls: seq<Call>, position: nat) {
    forall c :: c in calls ==> c.position < position
  }

  /** What later candidates do changes nothing for the ones behind. */
  lemma SettledGrows(world: World, route: seq<Rung>, calls: seq<Call>, calls': seq<Call>, position: nat, at: nat)
    requires Settled(world, route, calls, position) && OnlyAt(calls, calls', at) && position <= at
    ensures Settled(world, route, calls', position)
  {
    forall c ensures c in calls' && c.position < position <==> c in calls && c.position < position {
      if c in calls' && c.position < position {
        var i :| 0 <= i < |calls'| && calls'[i] == c;
        assert calls'[i] == calls[i];
      }
    }
    forall p | 0 <= p < position
      ensures CalledAt(calls', p) <==> CalledAt(calls, p)
      ensures PassesOver(world, route, calls', p) <==> PassesOver(world, route, calls, p)
    {
      BehindSame(route, calls, calls', position, p);
    }
  }

  lemma BehindSame(route: seq<Rung>, calls: seq<Call>, calls': seq<Call>, position: nat, p: nat)
    requires p < position && p < |route|
    requires forall c :: c in calls' && c.position < position <==> c in calls && c.position < position
    ensures CalledAt(calls', p) <==> CalledAt(calls, p)
    ensures CalledBehind(calls', p) <==> CalledBehind(calls, p)
    ensures EarnedBehind(route, calls', p, route[p].definition.provider) <==>
            EarnedBehind(route, calls, p, route[p].definition.provider)
  {
  }

  /** Where the walk stands, the guards of a visit are that. */
  lemma GuardsMean(world: World, route: seq<Rung>, w: Walk, position: nat)
    requires position < |route| && ArmedOk(route, w) && Behind(w.calls, position) && (w.last.Some? <==> w.calls != [])
    ensures PassesOver(world, route, w.calls, position) <==>
      Unearned(route[position], w.armed) || HealthSkips(world.skips, route, w.last, position)
  {
    var provider := route[position].definition.provider;
    assert EarnedBehind(route, w.calls, position, provider) <==> EarnedBy(route, w.calls, provider);
    assert CalledBehind(w.calls, position) <==> w.calls != [] by {
      if w.calls != [] { assert w.calls[0] in w.calls; }
    }
  }

  /** Between candidates. */
  ghost predicate Arrived(world: World, route: seq<Rung>, w: Walk, position: nat) {
    && position <= |route| && ArmedOk(route, w) && Stands(route, w, position, 0)
    && Behind(w.calls, position) && Settled(world, route, w.calls, position)
  }

  /** Where a walk stopped: before the end, at a candidate not passed over. */
  ghost predicate Stopped(world: World, route: seq<Rung>, calls: seq<Call>, e: Ending, reach: nat) {
    && Settled(world, route, calls, reach) && (forall c :: c in calls ==> c.position <= reach)
    && (if reach == |route| then e.Terminated? && IsExhaustion(e.terminal)
        else
          && !PassesOver(world, route, calls, reach)
          && (e.Terminated? && IsExhaustion(e.terminal) ==> Irreducible(calls)))
  }

  lemma VisitArrives(world: World, route: seq<Rung>, w: Walk, position: nat)
    requires Arrived(world, route, w, position) && position < |route|
    ensures var next := Visit(world, route, w, position);
      match next
      case Onward(w') => Arrived(world, route, w', position + 1)
      case Ended(w', e) => Stopped(world, route, w'.calls, e, position)
      case _ => false
  {
    ArmedPreserved(world, route);
    GuardsMean(world, route, w, position);
    var next := Visit(world, route, w, position);
    if PassesOver(world, route, w.calls, position) {
      SkippedSettles(world, route, w.calls, position);
      assert ArmedFact(route)(next.walk);
    } else {
      TriesKeep(world, route, ArmedFact(route), w, position, 0);
      TriedSettles(world, route, w.calls, next.walk.calls, position);
      assert ArmedFact(route)(next.walk);
    }
  }

  ghost predicate MovesOn(world: World, route: seq<Rung>, w: Walk, p: nat, w': Walk) {
    p < |route| && Visit(world, route, w, p) == Onward(w')
  }

  ghost predicate StopsAt(world: World, route: seq<Rung>, w: Walk, p: nat, f: Finish) {
    p < |route| && Visit(world, route, w, p) == Ended(f.walk, f.ending)
  }

  /** What holds wherever the walk arrives, and what is left of it where it ends. */
  ghost predicate Carries(world: World, route: seq<Rung>, inv: (Walk, nat) -> bool, end: (Finish, nat) -> bool) {
    && (forall w, p: nat, w' :: inv(w, p) && MovesOn(world, route, w, p, w') ==> inv(w', p + 1))
    && (forall w, p: nat, f :: inv(w, p) && StopsAt(world, route, w, p, f) ==> end(f, p))
    && (forall w :: inv(w, |route|) ==> end(Finish(w, Terminated(Exhaustion(w))), |route|))
  }

  lemma {:induction false} FromReaches(world: World, route: seq<Rung>, w: Walk, position: nat,
                                       inv: (Walk, nat) -> bool, end: (Finish, nat) -> bool)
    returns (reach: nat)
    requires position <= |route| && inv(w, position) && Carries(world, route, inv, end)
    ensures reach <= |route| && end(From(world, route, w, position), reach)
    decreases |route| - position
  {
    reach := position;
    if position < |route| {
      var next := Visit(world, route, w, position);
      FromSteps(world, route, w, position);
      if next.Onward? {
        assert MovesOn(world, route, w, position, next.walk);
        reach := FromReaches(world, route, next.walk, position + 1, inv, end);
      } else {
        assert StopsAt(world, route, w, position, Finish(next.walk, next.ending));
      }
    }
  }

  lemma FromSteps(world: World, route: seq<Rung>, w: Walk, position: nat)
    requires position < |route|
    ensures var next := Visit(world, route, w, position);
      && (next.Onward? || next.Ended?)
      && (next.Onward? ==> From(world, route, w, position) == From(world, route, next.walk, position + 1))
      && (next.Ended? ==> From(world, route, w, position) == Finish(next.walk, next.ending))
  {
  }

  ghost function ArrivedFact(world: World, route: seq<Rung>): (Walk, nat) -> bool {
    (w: Walk, p: nat) => Arrived(world, route, w, p)
  }

  ghost function StoppedFact(world: World, route: seq<Rung>): (Finish, nat) -> bool {
    (f: Finish, p: nat) => p <= |route| && Stopped(world, route, f.walk.calls, f.ending, p)
  }

  lemma EndStopped(world: World, route: seq<Rung>, w: Walk)
    requires Arrived(world, route, w, |route|)
    ensures Stopped(world, route, w.calls, Terminated(Exhaustion(w)), |route|)
  {
  }

  lemma ArrivedCarries(world: World, route: seq<Rung>)
    ensures Carries(world, route, ArrivedFact(world, route), StoppedFact(world, route))
  {
    forall w, p: nat, w' | Arrived(world, route, w, p) && MovesOn(world, route, w, p, w')
      ensures Arrived(world, route, w', p + 1)
    {
      VisitArrives(world, route, w, p);
    }
    forall w, p: nat, f | Arrived(world, route, w, p) && StopsAt(world, route, w, p, f)
      ensures Stopped(world, route, f.walk.calls, f.ending, p)
    {
      VisitArrives(world, route, w, p);
    }
    forall w | Arrived(world, route, w, |route|)
      ensures Stopped(world, route, w.calls, Terminated(Exhaustion(w)), |route|)
    {
      EndStopped(world, route, w);
    }
  }

  lemma SkippedSettles(world: World, route: seq<Rung>, calls: seq<Call>, position: nat)
    requires position < |route| && Settled(world, route, calls, position) && Behind(calls, position)
    requires PassesOver(world, route, calls, position)
    ensures Settled(world, route, calls, position + 1) && Behind(calls, position + 1)
  {
    assert !CalledAt(calls, position);
  }

  lemma TriedSettles(world: World, route: seq<Rung>, calls: seq<Call>, calls': seq<Call>, position: nat)
    requires position < |route| && Settled(world, route, calls, position) && Behind(calls, position)
    requires !PassesOver(world, route, calls, position) && OnlyAt(calls, calls', position)
    ensures Settled(world, route, calls', position) && !PassesOver(world, route, calls', position)
    ensures Behind(calls', position + 1)
    ensures EndsAt(calls', position) ==> Settled(world, route, calls', position + 1)
  {
    SettledGrows(world, route, calls, calls', position, position);
    forall c | c in calls' ensures c.position <= position && (c.position < position ==> c in calls) {
      var i :| 0 <= i < |calls'| && calls'[i] == c;
      if i < |calls| { assert calls'[i] == calls[i]; }
    }
    forall c | c in calls ensures c in calls' {
      var i :| 0 <= i < |calls| && calls[i] == c;
      assert calls'[i] == c;
    }
    if EndsAt(calls', position) { assert calls'[|calls'| - 1] in calls'; }
  }

  /** Of the candidates up to where the walk got, exactly those are called that are not passed over; a walk that did not
      get to the end stopped at a candidate that is not. It gets to the end exactly to say it is exhausted, unless a
      prompt cannot be shortened. */
  lemma PassLaw(world: World, route: seq<Rung>, messages: seq<Message>) returns (reach: nat)
    ensures var f := Run(world, route, messages);
      reach <= |route| && Stopped(world, route, f.walk.calls, f.ending, reach)
  {
    ArrivedCarries(world, route);
    assert ArrivedFact(world, route)(StartWalk(messages), 0);
    reach := FromReaches(world, route, StartWalk(messages), 0, ArrivedFact(world, route), StoppedFact(world, route));
    assert StoppedFact(world, route)(Run(world, route, messages), reach);
  }

  /** The rows and calls of one candidate: a skip row and no call where it is passed over, saying why, and else one row
      for each of its calls. */
  ghost predicate Visited(world: World, route: seq<Rung>, before: seq<Call>, p: nat, rows: seq<Row>, calls: seq<Call>)
    requires p < |route|
  {
    var d := route[p].definition;
    if PassesOver(world, route, before, p) then
      var unearned := route[p].credential == Twin && !EarnedBehind(route, before, p, d.provider);
      calls == [] && |rows| == 1 && rows[0].definition == d && !rows[0].served
      && rows[0].mark == if unearned then PolicySkipped else HealthSkipped
    else
      |rows| == |calls|
      && forall k :: 0 <= k < |calls| ==> calls[k].position == p && RowTells(world, route, calls[k], rows[k])
  }

  /** The ledger is the candidates' rows, one after another, in route order. */
  ghost predicate Ledger(world: World, route: seq<Rung>, rows: seq<Row>, calls: seq<Call>, position: nat)
    requires position <= |route|
    decreases position
  {
    if position == 0 then rows == [] && calls == []
    else
      exists m: nat, n: nat :: m <= |rows| && n <= |calls|
        && Ledger(world, route, rows[..m], calls[..n], position - 1)
        && Visited(world, route, calls[..n], position - 1, rows[m..], calls[n..])
  }

  /** One row has been added for each call that has, and says what it came to. */
  ghost predicate Records(world: World, route: seq<Rung>, w: Walk, w': Walk) {
    && w.rows <= w'.rows && w.calls <= w'.calls && |w'.rows| - |w.rows| == |w'.calls| - |w.calls|
    && forall k :: |w.calls| <= k < |w'.calls| ==>
         RowTells(world, route, w'.calls[k], w'.rows[|w.rows| - |w.calls| + k])
  }

  lemma RecordsOne(world: World, route: seq<Rung>, w: Walk, w': Walk, c: Call, r: Row)
    requires w'.rows == w.rows + [r] && w'.calls == w.calls + [c] && RowTells(world, route, c, r)
    ensures Records(world, route, w, w')
  {
  }

  lemma FailureRecords(world: World, route: seq<Rung>, w: Walk, position: nat, attempt: nat, f: Failure)
    requires position < |route| && world.happens(position, attempt) == Refused(f)
    ensures Records(world, route, w, AfterFailure(world, route, w, position, attempt, f).walk)
  {
    var w' := AfterFailure(world, route, w, position, attempt, f).walk;
    RecordsOne(world, route, w, w', w'.calls[|w.calls|], w'.rows[|w.rows|]);
  }

  lemma AttemptRecords(world: World, route: seq<Rung>, w: Walk, position: nat, attempt: nat)
    requires position < |route|
    ensures Records(world, route, w, Attempt(world, route, w, position, attempt).walk)
  {
    var h := world.happens(position, attempt);
    var w' := Attempt(world, route, w, position, attempt).walk;
    if h.Refused? {
      FailureRecords(world, route, w, position, attempt, h.failure);
    } else if w' != w {
      RecordsOne(world, route, w, w', w'.calls[|w.calls|], w'.rows[|w.rows|]);
    }
  }

  lemma RecordsThen(world: World, route: seq<Rung>, w: Walk, mid: Walk, end: Walk)
    requires Records(world, route, w, mid) && Records(world, route, mid, end)
    ensures Records(world, route, w, end)
  {
    forall k | |w.calls| <= k < |end.calls|
      ensures RowTells(world, route, end.calls[k], end.rows[|w.rows| - |w.calls| + k])
    {
      if k < |mid.calls| {
        assert RowTells(world, route, mid.calls[k], mid.rows[|w.rows| - |w.calls| + k]);
      }
    }
  }

  lemma {:induction false} TriesRecord(world: World, route: seq<Rung>, w: Walk, position: nat, attempt: nat)
    requires position < |route| && attempt <= RETRIES + 1
    ensures Records(world, route, w, Tries(world, route, w, position, attempt).walk)
    decreases RETRIES + 1 - attempt
  {
    if attempt <= RETRIES {
      AttemptRecords(world, route, w, position, attempt);
      var next := Attempt(world, route, w, position, attempt);
      if next.Again? {
        TriesRecord(world, route, next.walk, position, attempt + 1);
        RecordsThen(world, route, w, next.walk, Tries(world, route, next.walk, position, attempt + 1).walk);
      }
    }
  }

  ghost predicate LedgerAt(world: World, route: seq<Rung>, w: Walk, position: nat) {
    Arrived(world, route, w, position) && Ledger(world, route, w.rows, w.calls, position)
  }

  /** The candidate a walk stopped at has its rows too. */
  ghost predicate LedgerTo(world: World, route: seq<Rung>, f: Finish, reach: nat) {
    && reach <= |route| && (reach == |route| ==> f.ending == Terminated(Exhaustion(f.walk)))
    && Ledger(world, route, f.walk.rows, f.walk.calls, if reach == |route| then reach else reach + 1)
  }

  ghost function LedgerFact(world: World, route: seq<Rung>): (Walk, nat) -> bool {
    (w: Walk, p: nat) => LedgerAt(world, route, w, p)
  }

  ghost function LedgerEnd(world: World, route: seq<Rung>): (Finish, nat) -> bool {
    (f: Finish, p: nat) => LedgerTo(world, route, f, p)
  }

  lemma LedgerMoves(world: World, route: seq<Rung>, w: Walk, position: nat, w': Walk)
    requires LedgerAt(world, route, w, position) && MovesOn(world, route, w, position, w')
    ensures LedgerAt(world, route, w', position + 1)
  {
    VisitArrives(world, route, w, position);
    VisitRecords(world, route, w, position);
  }

  lemma LedgerStops(world: World, route: seq<Rung>, w: Walk, position: nat, f: Finish)
    requires LedgerAt(world, route, w, position) && StopsAt(world, route, w, position, f)
    ensures LedgerTo(world, route, f, position)
  {
    VisitRecords(world, route, w, position);
  }

  lemma LedgerRunsOut(world: World, route: seq<Rung>, w: Walk)
    requires LedgerAt(world, route, w, |route|)
    ensures LedgerTo(world, route, Finish(w, Terminated(Exhaustion(w))), |route|)
  {
  }

  lemma LedgerCarries(world: World, route: seq<Rung>)
    ensures Carries(world, route, LedgerFact(world, route), LedgerEnd(world, route))
  {
    forall w, p: nat, w' | LedgerAt(world, route, w, p) && MovesOn(world, route, w, p, w')
      ensures LedgerAt(world, route, w', p + 1)
    {
      LedgerMoves(world, route, w, p, w');
    }
    forall w, p: nat, f | LedgerAt(world, route, w, p) && StopsAt(world, route, w, p, f)
      ensures LedgerTo(world, route, f, p)
    {
      LedgerStops(world, route, w, p, f);
    }
    forall w | LedgerAt(world, route, w, |route|)
      ensures LedgerTo(world, route, Finish(w, Terminated(Exhaustion(w))), |route|)
    {
      LedgerRunsOut(world, route, w);
    }
  }

  lemma SkipRecords(world: World, route: seq<Rung>, w: Walk, position: nat)
    requires Arrived(world, route, w, position) && position < |route| && PassesOver(world, route, w.calls, position)
    ensures var w' := Visit(world, route, w, position).walk;
      && w.rows <= w'.rows && w'.calls == w.calls
      && Visited(world, route, w.calls, position, w'.rows[|w.rows|..], w'.calls[|w.calls|..])
  {
    GuardsMean(world, route, w, position);
    GuardsApart(world, route, w, position);
    assert Visit(world, route, w, position).walk.calls[|w.calls|..] == [];
  }

  lemma TryRecords(world: World, route: seq<Rung>, w: Walk, position: nat)
    requires Arrived(world, route, w, position) && position < |route| && !PassesOver(world, route, w.calls, position)
    ensures var w' := Visit(world, route, w, position).walk;
      && w.rows <= w'.rows && w.calls <= w'.calls
      && Visited(world, route, w.calls, position, w'.rows[|w.rows|..], w'.calls[|w.calls|..])
  {
    GuardsMean(world, route, w, position);
    assert Visit(world, route, w, position) == Tries(world, route, w, position, 0);
    TriesRecord(world, route, w, position, 0);
    VisitOnlyAt(world, route, w, position);
  }

  lemma VisitRecords(world: World, route: seq<Rung>, w: Walk, position: nat)
    requires Arrived(world, route, w, position) && position < |route|
    requires Ledger(world, route, w.rows, w.calls, position)
    ensures var w' := Visit(world, route, w, position).walk;
      Ledger(world, route, w'.rows, w'.calls, position + 1)
  {
    var w' := Visit(world, route, w, position).walk;
    if PassesOver(world, route, w.calls, position) {
      SkipRecords(world, route, w, position);
    } else {
      TryRecords(world, route, w, position);
    }
    LedgerGrows(world, route, w.rows, w.calls, position, w'.rows, w'.calls);
  }

  lemma VisitOnlyAt(world: World, route: seq<Rung>, w: Walk, position: nat)
    requires Arrived(world, route, w, position) && position < |route| && !Unearned(route[position], w.armed)
    ensures OnlyAt(w.calls, Tries(world, route, w, position, 0).walk.calls, position)
  {
    ArmedPreserved(world, route);
    TriesKeep(world, route, ArmedFact(route), w, position, 0);
  }

  lemma GuardsApart(world: World, route: seq<Rung>, w: Walk, position: nat)
    requires position < |route| && ArmedOk(route, w) && Behind(w.calls, position)
    ensures var provider := route[position].definition.provider;
      Unearned(route[position], w.armed) <==>
        route[position].credential == Twin && !EarnedBehind(route, w.calls, position, provider)
  {
    var provider := route[position].definition.provider;
    assert EarnedBehind(route, w.calls, position, provider) <==> EarnedBy(route, w.calls, provider);
  }

  lemma LedgerGrows(world: World, route: seq<Rung>, rows: seq<Row>, calls: seq<Call>, position: nat, rows': seq<Row>,
                    calls': seq<Call>)
    requires position < |route| && Ledger(world, route, rows, calls, position) && rows <= rows' && calls <= calls'
    requires Visited(world, route, calls, position, rows'[|rows|..], calls'[|calls|..])
    ensures Ledger(world, route, rows', calls', position + 1)
  {
    assert rows'[..|rows|] == rows && calls'[..|calls|] == calls;
  }

  /** So the settled ledger is, candidate by candidate in route order: for one passed over a skip, for policy if it is a
      twin nothing has earned and for health otherwise, and for one called a row a call that says what it came to. */
  lemma WalkLaw(world: World, route: seq<Rung>, messages: seq<Message>) returns (reach: nat)
    ensures var f := Run(world, route, messages);
      && reach <= |route| && (reach < |route| || (f.ending.Terminated? && IsExhaustion(f.ending.terminal)))
      && Ledger(world, route, SettlementOf(f).rows, f.walk.calls, if reach == |route| then reach else reach + 1)
  {
    LedgerCarries(world, route);
    assert LedgerAt(world, route, StartWalk(messages), 0);
    reach := FromReaches(world, route, StartWalk(messages), 0, LedgerFact(world, route), LedgerEnd(world, route));
    assert LedgerTo(world, route, Run(world, route, messages), reach);
    ExhaustionTerminates(Run(world, route, messages).walk);
  }

  lemma ExhaustionTerminates(w: Walk)
    ensures IsExhaustion(Exhaustion(w))
  {
  }

  // ---------------------------------------------------------------- the terminal

  ghost predicate Unattested(c: Call) {
    c.result.Failed? && c.result.class_.RetentionAttestation?
  }

  ghost predicate AnyUnattested(calls: seq<Call>) {
    exists c :: c in calls && Unattested(c)
  }

  function FirstRejection(calls: seq<Call>): Option<string> {
    if calls == [] then None
    else
      var earlier := FirstRejection(calls[..|calls| - 1]);
      var r := calls[|calls| - 1].result;
      if earlier.Some? then earlier
      else if r.Failed? && r.class_.NonRetryable? then r.failure.parameter
      else None
  }

  ghost predicate LatchesOk(w: Walk) {
    (w.retention <==> AnyUnattested(w.calls)) && w.rejected == FirstRejection(w.calls)
  }

  lemma LatchPush(w: Walk, w': Walk, c: Call)
    requires LatchesOk(w) && w'.calls == w.calls + [c]
    requires w'.retention == (w.retention || Unattested(c))
    requires w'.rejected == if w.rejected.None? && c.result.Failed? && c.result.class_.NonRetryable?
                            then c.result.failure.parameter else w.rejected
    ensures LatchesOk(w')
  {
    assert w'.calls[..|w.calls|] == w.calls;
    assert forall x :: x in w'.calls <==> x in w.calls || x == c;
  }

  ghost function LatchesFact(): Walk -> bool {
    w => LatchesOk(w)
  }

  lemma LatchesPreserved(world: World, route: seq<Rung>)
    ensures Preserved(world, route, LatchesFact())
  {
    forall w, p: nat, a: nat, f | LatchesOk(w) && MayCall(route, w, p, a)
      ensures LatchesOk(Failing(w, route[p], p, a, f))
    {
      LatchPush(w, Failing(w, route[p], p, a, f), Call(p, a, w.messages, Failed(f, Classify(f, w.truncated))));
    }
    forall w, p: nat, a: nat, result: Result, mark, served | LatchesOk(w) && MayCall(route, w, p, a)
        && Tells(world.happens(p, a), a, result, mark, served)
      ensures LatchesOk(Called(w, route[p].definition, p, a, result, mark, served))
    {
      LatchPush(w, Called(w, route[p].definition, p, a, result, mark, served), Call(p, a, w.messages, result));
    }
  }

  /** The parameter a call's refusal names, if it counts: the retention guarantee was given, the prompt was not the
      trouble or had been shortened already, the client is to mend it, and nothing was rate limited. */
  ghost function Rejection(calls: seq<Call>, i: nat): Option<string>
    requires i < |calls|
  {
    match calls[i].result
    case Failed(f, _) =>
      if !f.unattested && (f.contextWindow ==> OverflowedBefore(calls, i)) && f.clientError && !f.rateLimited
      then f.parameter else None
    case _ => None
  }

  lemma {:induction false} RejectionIs(messages: seq<Message>, w: Walk, n: nat) returns (i: nat)
    requires RepairOk(messages, w) && n <= |w.calls|
    ensures FirstRejection(w.calls[..n]).None? ==> forall j :: 0 <= j < n ==> Rejection(w.calls, j).None?
    ensures FirstRejection(w.calls[..n]).Some? ==>
      i < n && Rejection(w.calls, i) == FirstRejection(w.calls[..n])
      && forall j :: 0 <= j < i ==> Rejection(w.calls, j).None?
  {
    i := 0;
    if n > 0 {
      i := RejectionIs(messages, w, n - 1);
      assert w.calls[..n][..n - 1] == w.calls[..n - 1];
      if FirstRejection(w.calls[..n - 1]).None? { i := n - 1; }
      RejectedMeans(messages, w, n - 1);
    }
  }

  lemma RejectedMeans(messages: seq<Message>, w: Walk, i: nat)
    requires RepairOk(messages, w) && i < |w.calls|
    ensures var r := w.calls[i].result;
      Rejection(w.calls, i) == if r.Failed? && r.class_.NonRetryable? then r.failure.parameter else None
  {
    assert w.calls[i] in w.calls;
    DropMeans(messages);
    if OverflowedBefore(w.calls, i) {
      var j :| 0 <= j < i && Overflows(w.calls[j]);
      assert DropCount(messages) > 0;
    }
  }

  /** The exhausted walk's word: a refusal of the retention guarantee met anywhere outranks everything, then the first
      refused parameter that counts, then plain exhaustion. */
  lemma PrecedenceLaw(world: World, route: seq<Rung>, messages: seq<Message>) returns (i: nat)
    requires Run(world, route, messages).ending.Terminated? && IsExhaustion(Run(world, route, messages).ending.terminal)
    ensures var calls := Run(world, route, messages).walk.calls;
      match Run(world, route, messages).ending.terminal
      case RetentionRefused => exists c :: c in calls && c.result.Failed? && c.result.failure.unattested
      case ParameterRejected(reason) =>
        && (forall c :: c in calls && c.result.Failed? ==> !c.result.failure.unattested)
        && i < |calls| && Rejection(calls, i) == Some(reason) && forall j :: 0 <= j < i ==> Rejection(calls, j).None?
      case _ =>
        && (forall c :: c in calls && c.result.Failed? ==> !c.result.failure.unattested)
        && forall j :: 0 <= j < |calls| ==> Rejection(calls, j).None?
  {
    LatchesPreserved(world, route);
    RunKeeps(world, route, messages, LatchesFact());
    RepairPreserved(world, route, messages);
    RunKeeps(world, route, messages, RepairFact(messages));
    var w := Run(world, route, messages).walk;
    i := RejectionIs(messages, w, |w.calls|);
    assert w.calls[..|w.calls|] == w.calls;
    forall c | c in w.calls && c.result.Failed? ensures Unattested(c) <==> c.result.failure.unattested {
      assert c.result.class_ == Classify(c.result.failure, c.sent != messages);
    }
  }

  // ---------------------------------------------------------------- the floor's one hole

  /** A health-skipped BYOK candidate ahead of its own twin: both are passed over, nothing is called, and the
      buffered walk still settles, for nothing. */
  lemma SkippedWithItsTwin(d: Definition, messages: seq<Message>, world: World)
    requires world.skips(0)
    ensures var route := [Rung(0, d, Byok), Rung(1, d, Twin)];
      var f := Run(world, route, messages);
      f.walk.calls == [] && SettlementOf(f) == Settlement(None, UNMETERED, 502, f.walk.rows) && |f.walk.rows| == 2
  {
    var route := [Rung(0, d, Byok), Rung(1, d, Twin)];
    var w1 := Skip(StartWalk(messages), d, HealthSkipped);
    assert Visit(world, route, StartWalk(messages), 0) == Onward(w1);
    assert Run(world, route, messages) == From(world, route, w1, 1);
    var w2 := Skip(w1, d, PolicySkipped);
    assert Visit(world, route, w1, 1) == Onward(w2);
    assert From(world, route, w1, 1) == From(world, route, w2, 2);
  }
}
