/** The buffered failover walk: try the route's candidates in order, up to three calls each, repair the prompt
    at most once, and hand the usage session to settlement exactly once whatever happens. */
module BufferedWalk {
  import opened Wrappers
  import opened Ordering
  import opened Walking

  /** What becomes of one attempt: the deadline had passed, the router drained before or during the call, the
      call overran, the upstream answered, or it failed. */
  datatype Happening =
    | Late
    | Drained(inFlight: bool)
    | Overran
    | Answered(blank: bool, report: Option<Usage>)
    | Refused(failure: Failure)

  /** Everything outside the walk: the health registry, the upstreams, whether a backoff ran to its end, and
      whether the settlement could be stored. */
  datatype World = World(skips: nat -> bool, happens: (nat, nat) -> Happening, waits: (nat, nat) -> bool, stores: bool)

  datatype Result = Died | Blank | Won | Failed(failure: Failure, class_: FailureClass)

  /** One upstream call. */
  datatype Call = Call(position: nat, attempt: nat, sent: seq<Message>, result: Result)

  const RETRIES := 2

  datatype Walk = Walk(rows: seq<Row>, calls: seq<Call>, messages: seq<Message>, truncated: bool, retention: bool,
                       rejected: Option<string>, last: Option<Definition>, armed: set<string>)

  datatype Terminal = Exhausted | RetentionRefused | ParameterRejected(reason: string) | Timeout | Shutdown

  datatype Ending = Terminated(terminal: Terminal) | Served(definition: Definition, usage: Option<Usage>)

  datatype Next = Again(walk: Walk) | Onward(walk: Walk) | Ended(walk: Walk, ending: Ending)

  datatype Finish = Finish(walk: Walk, ending: Ending)

  function Status(t: Terminal): nat {
    match t
    case Exhausted => 502
    case RetentionRefused => 502
    case ParameterRejected(_) => 400
    case Timeout => 504
    case Shutdown => 503
  }

  datatype Reply =
    | Completion(definition: Definition, usage: Usage)
    | NoCompletion(terminal: Terminal)
    | MeteringUnavailable

  function StartWalk(messages: seq<Message>): Walk {
    Walk([], [], messages, false, false, None, None, {})
  }

  // ---------------------------------------------------------------- the walk, step by step

  /** A call was made: one row, one more candidate tried. */
  function Called(w: Walk, d: Definition, position: nat, attempt: nat, result: Result, mark: Mark, served: bool): Walk {
    w.(rows := Pushed(w.rows, d, mark, served), calls := w.calls + [Call(position, attempt, w.messages, result)],
       last := Some(d))
  }

  /** Retention outranks a refused parameter, and both outrank plain exhaustion. */
  function Exhaustion(w: Walk): Terminal {
    if w.retention then RetentionRefused
    else if w.rejected.Some? then ParameterRejected(w.rejected.value)
    else Exhausted
  }

  /** What a failure latches for the rest of the walk. */
  function Latched(w: Walk, c: Rung, f: Failure, class_: FailureClass): Walk {
    w.(retention := w.retention || class_.RetentionAttestation?,
       rejected := if w.rejected.None? && class_.NonRetryable? then f.parameter else w.rejected,
       armed := if c.credential == Byok && class_.PermitsByokFallback() then w.armed + {c.definition.provider}
                else w.armed)
  }

  function Failing(w: Walk, c: Rung, position: nat, attempt: nat, f: Failure): Walk {
    var class_ := Classify(f, w.truncated);
    Called(Latched(w, c, f, class_), c.definition, position, attempt, Failed(f, class_), MarkOf(class_), false)
  }

  function Shortened(w: Walk): Walk {
    w.(messages := Truncated(w.messages), truncated := true)
  }

  function AfterFailure(world: World, route: seq<Rung>, w: Walk, position: nat, attempt: nat, f: Failure): Next
    requires position < |route|
  {
    var class_ := Classify(f, w.truncated);
    var failed := Failing(w, route[position], position, attempt, f);
    if class_.ContextWindow? then
      if DropCount(w.messages) > 0 then Again(Shortened(failed))
      else Ended(failed, Terminated(Exhaustion(failed)))
    else if class_.IsNonRetryable() then Onward(failed)
    else if class_.IsRateLimited() && |route| > 1 then Onward(failed)
    else if attempt < RETRIES && !world.waits(position, attempt) then Ended(failed, Terminated(Shutdown))
    else Again(failed)
  }

  function Attempt(world: World, route: seq<Rung>, w: Walk, position: nat, attempt: nat): Next
    requires position < |route|
  {
    var d := route[position].definition;
    match world.happens(position, attempt)
    case Late => Ended(w, Terminated(Timeout))
    case Drained(inFlight) =>
      Ended(if inFlight then Called(w, d, position, attempt, Died, Aborted, false) else w, Terminated(Shutdown))
    case Overran => Ended(Called(w, d, position, attempt, Died, TimedOut, false), Terminated(Timeout))
    case Answered(blank, report) =>
      if attempt < RETRIES && blank then
        var rerolled := Called(w, d, position, attempt, Blank, ValidationFailed, false);
        if world.waits(position, attempt) then Again(rerolled) else Ended(rerolled, Terminated(Shutdown))
      else
        var usage := Metered(report);
        Ended(Called(w, d, position, attempt, Won, Fine, usage.Some?), Served(d, usage))
    case Refused(f) => AfterFailure(world, route, w, position, attempt, f)
  }

  function Tries(world: World, route: seq<Rung>, w: Walk, position: nat, attempt: nat): (n: Next)
    requires position < |route| && attempt <= RETRIES + 1
    ensures !n.Again?
    decreases RETRIES + 1 - attempt
  {
    if attempt == RETRIES + 1 then Onward(w)
    else
      var next := Attempt(world, route, w, position, attempt);
      if next.Again? then Tries(world, route, next.walk, position, attempt + 1) else next
  }

  function Skip(w: Walk, d: Definition, mark: Mark): Walk {
    w.(rows := Pushed(w.rows, d, mark, false))
  }

  /** One candidate: passed over, or tried. */
  function Visit(world: World, route: seq<Rung>, w: Walk, position: nat): (n: Next)
    requires position < |route|
    ensures !n.Again?
  {
    var c := route[position];
    if Unearned(c, w.armed) then Onward(Skip(w, c.definition, PolicySkipped))
    else if HealthSkips(world.skips, route, w.last, position) then Onward(Skip(w, c.definition, HealthSkipped))
    else Tries(world, route, w, position, 0)
  }

  function From(world: World, route: seq<Rung>, w: Walk, position: nat): Finish
    requires position <= |route|
    decreases |route| - position
  {
    if position == |route| then Finish(w, Terminated(Exhaustion(w)))
    else
      var next := Visit(world, route, w, position);
      if next.Ended? then Finish(next.walk, next.ending) else From(world, route, next.walk, position + 1)
  }

  function Run(world: World, route: seq<Rung>, messages: seq<Message>): Finish {
    From(world, route, StartWalk(messages), 0)
  }

  /** What a finished walk settles: measured usage of the answer served, or nothing. */
  function SettlementOf(f: Finish): Settlement {
    match f.ending
    case Terminated(t) => Settlement(f.walk.last, UNMETERED, Status(t), f.walk.rows)
    case Served(d, usage) =>
      Settlement(Some(d), if usage.Some? then usage.value else UNMETERED, if usage.Some? then 200 else 502, f.walk.rows)
  }

  function ReplyOf(f: Finish, stored: bool): Reply {
    if !stored then MeteringUnavailable
    else
      match f.ending
      case Terminated(t) => NoCompletion(t)
      case Served(d, usage) => if usage.Some? then Completion(d, usage.value) else MeteringUnavailable
  }

  // ---------------------------------------------------------------- the imperative walk

  /** `persist_usage`: the session is consumed by the call. */
  method Persist(settled: seq<Settlement>, s: Settlement) returns (r: seq<Settlement>)
    ensures r == settled + [s]
  {
    r := settled + [s];
  }

  /** One refused attempt: shorten the prompt if that was the trouble and can be, else give the candidate up or try it
      again. */
  method TakeFailure(world: World, route: seq<Rung>, w: Walk, position: nat, attempt: nat, f: Failure)
    returns (next: Next)
    requires position < |route|
    ensures next == AfterFailure(world, route, w, position, attempt, f)
  {
    var c := route[position];
    var class_ := Classify(f, w.truncated);
    var walk := Called(Latched(w, c, f, class_), c.definition, position, attempt, Failed(f, class_), MarkOf(class_),
                       false);
    if class_.ContextWindow? {
      var rest, dropped := TruncateForContext(walk.messages);
      if dropped == 0 {
        return Ended(walk, Terminated(Exhaustion(walk)));
      }
      walk := walk.(messages := rest, truncated := true);
    } else if class_.IsNonRetryable() {
      return Onward(walk);
    } else if class_.IsRateLimited() && |route| > 1 {
      return Onward(walk);
    } else if attempt < RETRIES && !world.waits(position, attempt) {
      return Ended(walk, Terminated(Shutdown));
    }
    return Again(walk);
  }

  /** One candidate's attempts, from the first on. `next` says whether the walk goes on. */
  method TryCandidate(world: World, route: seq<Rung>, w: Walk, position: nat, first: nat) returns (next: Next)
    requires position < |route| && first <= RETRIES
    ensures next == Tries(world, route, w, position, first)
  {
    var c := route[position];
    var d := c.definition;
    var walk := w;
    var attempt := first;
    while attempt <= RETRIES
      invariant attempt <= RETRIES + 1
      invariant Tries(world, route, walk, position, attempt) == Tries(world, route, w, position, first)
    {
      ghost var before := walk;
      match world.happens(position, attempt) {
        case Late =>
          return Ended(walk, Terminated(Timeout));
        case Drained(inFlight) =>
          if inFlight { walk := Called(walk, d, position, attempt, Died, Aborted, false); }
          return Ended(walk, Terminated(Shutdown));
        case Overran =>
          walk := Called(walk, d, position, attempt, Died, TimedOut, false);
          return Ended(walk, Terminated(Timeout));
        case Answered(blank, report) =>
          if attempt < RETRIES && blank {
            walk := Called(walk, d, position, attempt, Blank, ValidationFailed, false);
            if !world.waits(position, attempt) {
              return Ended(walk, Terminated(Shutdown));
            }
          } else {
            var usage := Metered(report);
            walk := Called(walk, d, position, attempt, Won, Fine, usage.Some?);
            return Ended(walk, Served(d, usage));
          }
        case Refused(f) =>
          next := TakeFailure(world, route, walk, position, attempt, f);
          if !next.Again? { return; }
          walk := next.walk;
      }
      assert Attempt(world, route, before, position, attempt) == Again(walk);
      attempt := attempt + 1;
    }
    return Onward(walk);
  }

  /** The whole walk. Every path out hands the session over, once. */
  method RunNonStreaming(world: World, route: seq<Rung>, messages: seq<Message>)
    returns (settled: seq<Settlement>, reply: Reply)
    ensures settled == [SettlementOf(Run(world, route, messages))]
    ensures reply == ReplyOf(Run(world, route, messages), world.stores)
  {
    settled := [];
    var walk := StartWalk(messages);
    var position := 0;
    while position < |route|
      invariant 0 <= position <= |route| && settled == []
      invariant From(world, route, walk, position) == Run(world, route, messages)
    {
      var c := route[position];
      if Unearned(c, walk.armed) {
        walk := Skip(walk, c.definition, PolicySkipped);
      } else if HealthSkips(world.skips, route, walk.last, position) {
        walk := Skip(walk, c.definition, HealthSkipped);
      } else {
        var next := TryCandidate(world, route, walk, position, 0);
        walk := next.walk;
        if next.Ended? {
          settled := Persist(settled, SettlementOf(Finish(walk, next.ending)));
          return settled, ReplyOf(Finish(walk, next.ending), world.stores);
        }
      }
      position := position + 1;
    }
    settled := Persist(settled, SettlementOf(Finish(walk, Terminated(Exhaustion(walk)))));
    reply := ReplyOf(Finish(walk, Terminated(Exhaustion(walk))), world.stores);
  }
}
