/** The streaming failover walk: one call per candidate, frames relayed to the client as they come, and a
    switch to the next candidate only while the client has received nothing. */
module StreamingWalk {
  import opened Wrappers
  import opened Ordering
  import opened Walking

  datatype Interruption = Timeout | Shutdown

  function InterruptionStatus(i: Interruption): nat {
    match i case Timeout => 504 case Shutdown => 503
  }

  /** What a live stream yields. A delta is one model step: an opening frame if the turn is not open yet, then one
      frame or more, each accepted by the client's channel or not. Running out of events is the stream ending. */
  datatype StreamEvent =
    | Delta(empty: bool, opens: bool, first: bool, rest: seq<bool>)
    | Reported(report: Option<Usage>)
    | Final
    | Broke(failure: Failure)
    | Cut(interruption: Interruption)

  /** What becomes of a call to a candidate that cannot stream; its answer is replayed piece by piece. */
  datatype Chat =
    | Drained(inFlight: bool)
    | Overran
    | Answered(report: Option<Usage>, opens: bool, pieces: seq<bool>)
    | Refused(failure: Failure)

  datatype World = World(skips: nat -> bool, closed: nat -> bool, late: nat -> bool, streams: nat -> bool,
                         chat: nat -> Chat,
                         events: nat -> seq<StreamEvent>, hangsUp: nat -> bool, opensLate: nat -> bool, stores: bool)

  datatype Frame = Scaffolding | ModelOutput

  /** A frame the client's channel accepted, and the candidate it came from. */
  datatype Sent = Sent(position: nat, frame: Frame)

  datatype Delivery = Delivery(sent: bool, attempted: bool) {
    predicate Abandoned() {
      attempted && !sent
    }

    /** Bill only metered actuals, and only what was delivered. */
    function Settled(usage: Option<Usage>): Usage {
      if !sent || usage.None? then UNMETERED else usage.value
    }
  }

  /** The client's side of the walk. */
  datatype Channel = Channel(out: seq<Sent>, delivery: Delivery, connected: bool)

  datatype Stream = Stream(channel: Channel, open: bool, usage: Option<Usage>, completed: bool,
                           cut: Option<Interruption>,
                           broke: Option<Failure>)

  function Send(ch: Channel, position: nat, accepted: bool, frame: Frame): Channel {
    var output := frame == ModelOutput;
    ch.(out := if accepted then ch.out + [Sent(position, frame)] else ch.out,
        delivery := Delivery(ch.delivery.sent || (accepted && output), ch.delivery.attempted || output))
  }

  /** Send until one is refused. */
  function SendAll(ch: Channel, position: nat, takes: seq<bool>): Channel
    decreases |takes|
  {
    if takes == [] then ch
    else
      var next := Send(ch, position, takes[0], ModelOutput);
      if takes[0] then SendAll(next, position, takes[1..]) else next
  }

  predicate AllTaken(takes: seq<bool>) {
    forall i :: 0 <= i < |takes| ==> takes[i]
  }

  function OnDelta(s: Stream, position: nat, e: StreamEvent): Stream
    requires e.Delta?
  {
    if e.empty || !s.channel.connected then s
    else
      var lead := if s.open then s.channel else Send(s.channel, position, e.opens, Scaffolding);
      var open := s.open || e.opens;
      if !open then s.(channel := lead.(connected := false), open := false)
      else
        var takes := [e.first] + e.rest;
        s.(channel := SendAll(lead, position, takes).(connected := AllTaken(takes)), open := true)
  }

  function Fold(s: Stream, position: nat, events: seq<StreamEvent>): Stream
    decreases |events|
  {
    if events == [] then s
    else
      match events[0]
      case Delta(_, _, _, _) => Fold(OnDelta(s, position, events[0]), position, events[1..])
      case Reported(report) => Fold(s.(usage := Metered(report)), position, events[1..])
      case Final => s.(completed := true)
      case Broke(f) => s.(broke := Some(f))
      case Cut(i) => s.(cut := Some(i))
  }

  // ---------------------------------------------------------------- the walk

  /** One upstream call: live or not, the usage it reported, whether it ran to its terminal, and its failure. */
  datatype Call = Call(position: nat, live: bool, usage: Option<Usage>, completed: bool, failure: Option<Failure>,
                       died: bool)

  datatype Walk = Walk(rows: seq<Row>, calls: seq<Call>, channel: Channel, retention: bool, rejected: Option<string>,
                       last: Option<Definition>, armed: set<string>)

  datatype Next = Onward(walk: Walk) | Ended(walk: Walk, settlement: Settlement)

  datatype Finish = Finish(walk: Walk, settled: Option<Settlement>)

  function StartWalk(): Walk {
    Walk([], [], Channel([], Delivery(false, false), true), false, None, None, {})
  }

  function Skip(w: Walk, d: Definition, mark: Mark): Walk {
    w.(rows := Pushed(w.rows, d, mark, false))
  }

  function Called(w: Walk, d: Definition, call: Call, mark: Mark, served: bool): Walk {
    w.(rows := Pushed(w.rows, d, mark, served), calls := w.calls + [call], last := Some(d))
  }

  /** The buffered classifier's failure of a whole call; a live stream's refusal of a parameter latches whatever
      its class. */
  function Latched(w: Walk, f: Failure, live: bool): Walk {
    w.(retention := w.retention || f.unattested,
       rejected := if w.rejected.None? && (live || Classify(f, false).NonRetryable?) then f.parameter else w.rejected)
  }

  function Armed(w: Walk, c: Rung, covered: bool): Walk {
    if c.credential == Byok && covered then w.(armed := w.armed + {c.definition.provider}) else w
  }

  function Interrupted(world: World, w: Walk, position: nat, d: Option<Definition>, usage: Option<Usage>,
                       i: Interruption): Settlement {
    Settlement(d, w.channel.delivery.Settled(usage),
               if w.channel.connected && !world.hangsUp(position) then InterruptionStatus(i) else 499, w.rows)
  }

  /** A whole answer in hand: settle it, then replay it. */
  function Synthetic(world: World, w: Walk, d: Definition, position: nat): Next
    requires world.chat(position).Answered?
  {
    var answer := world.chat(position);
    var usage := Metered(answer.report);
    var w' := Called(w, d, Call(position, false, usage, true, None, false), Fine, usage.Some?);
    if usage.None? then Ended(w', Settlement(Some(d), UNMETERED, 502, w'.rows))
    else
      var lead := Send(w'.channel, position, answer.opens, Scaffolding);
      var replayed := if !world.stores then w'.channel
                      else if !answer.opens then lead
                      else SendAll(lead, position, answer.pieces);
      Ended(w'.(channel := replayed),
            Settlement(Some(d), usage.value, if world.hangsUp(position) then 499 else 200, w'.rows))
  }

  function Whole(world: World, route: seq<Rung>, w: Walk, position: nat): Next
    requires position < |route|
  {
    var c := route[position];
    var d := c.definition;
    match world.chat(position)
    case Drained(inFlight) =>
      var w' := if inFlight then Called(w, d, Call(position, false, None, false, None, true), Aborted, false) else w;
      Ended(w', Interrupted(world, w', position, w'.last, None, Shutdown))
    case Overran =>
      var w' := Called(w, d, Call(position, false, None, false, None, true), TimedOut, false);
      Ended(w', Interrupted(world, w', position, Some(d), None, Timeout))
    case Answered(_, _, _) => Synthetic(world, w, d, position)
    case Refused(f) =>
      var class_ := Classify(f, false);
      Onward(Called(Armed(Latched(w, f, false), c, class_.PermitsByokFallback()), d,
                    Call(position, false, None, false, Some(f), false), MarkOf(class_), false))
  }

  function FreshStream(w: Walk): Stream {
    Stream(w.channel, false, None, false, None, None)
  }

  /** What the walk knows after a live stream stopped. */
  function Streamed(w: Walk, s: Stream): Walk {
    (if s.broke.Some? then Latched(w, s.broke.value, true) else w).(channel := s.channel)
  }

  function LiveCall(position: nat, s: Stream): Call {
    Call(position, true, s.usage, s.completed, s.broke, s.cut.Some?)
  }

  /** The stream ran to its terminal: the turn is opened if nothing opened it, and the answer settled. */
  function Completed(world: World, w: Walk, d: Definition, position: nat, s: Stream): Next {
    var ch := if s.channel.connected && !s.open
              then Send(s.channel, position, world.opensLate(position), Scaffolding)
                   .(connected := world.opensLate(position))
              else s.channel;
    var sent := ch.delivery.sent;
    var w' := Called(w.(channel := ch), d, LiveCall(position, s), Fine, sent);
    if s.usage.None? then Ended(w', Settlement(Some(d), UNMETERED, 502, w'.rows))
    else Ended(w', Settlement(Some(d), if ch.delivery.Abandoned() then UNMETERED else s.usage.value,
                              if ch.connected && !world.hangsUp(position) then 200 else 499, w'.rows))
  }

  /** The stream broke or just ended. Delivered output or a client gone settles here; otherwise the walk goes on. */
  function Broken(world: World, w: Walk, c: Rung, position: nat, s: Stream): Next {
    var d := c.definition;
    var connected := s.channel.connected && !world.hangsUp(position);
    var sent := s.channel.delivery.sent;
    var limited := s.broke.Some? && s.broke.value.rateLimited;
    var mark := if limited && !sent then Limited else StreamError;
    var refused := s.broke.Some? && AccountRefused(s.broke.value);
    var w1 := w.(channel := s.channel.(connected := connected));
    if sent || !connected then
      var w' := Called(w1, d, LiveCall(position, s), mark, sent);
      Ended(w', Settlement(Some(d), s.channel.delivery.Settled(s.usage), if connected then 502 else 499, w'.rows))
    else Onward(Called(Armed(w1, c, !refused), d, LiveCall(position, s), mark, false))
  }

  function Live(world: World, route: seq<Rung>, w: Walk, position: nat): Next
    requires position < |route|
  {
    var c := route[position];
    var d := c.definition;
    var s := Fold(FreshStream(w), position, world.events(position));
    var w1 := Streamed(w, s);
    if s.cut.Some? then
      var mark := if s.cut.value.Timeout? then TimedOut else Aborted;
      var w' := Called(w1, d, LiveCall(position, s), mark, s.channel.delivery.sent);
      Ended(w', Interrupted(world, w', position, Some(d), s.usage, s.cut.value))
    else if s.completed then Completed(world, w1, d, position, s)
    else Broken(world, w1, c, position, s)
  }

  function Visit(world: World, route: seq<Rung>, w: Walk, position: nat): Next
    requires position < |route|
  {
    var c := route[position];
    if Unearned(c, w.armed) then Onward(Skip(w, c.definition, PolicySkipped))
    else if world.closed(position) then Ended(w, Settlement(w.last, UNMETERED, 499, w.rows))
    else if HealthSkips(world.skips, route, w.last, position) then Onward(Skip(w, c.definition, HealthSkipped))
    else if world.late(position) then Ended(w, Interrupted(world, w, position, w.last, None, Timeout))
    else if !world.streams(position) then Whole(world, route, w, position)
    else Live(world, route, w, position)
  }

  /** Nothing was served. A walk that never called anyone has no candidate to name, and settles nothing. */
  function Exhausted(w: Walk): Finish {
    Finish(w, if w.last.None? then None
              else Some(Settlement(w.last, UNMETERED, if !w.retention && w.rejected.Some? then 400 else 502, w.rows)))
  }

  function From(world: World, route: seq<Rung>, w: Walk, position: nat): Finish
    requires position <= |route|
    decreases |route| - position
  {
    if position == |route| then Exhausted(w)
    else
      var next := Visit(world, route, w, position);
      if next.Ended? then Finish(next.walk, Some(next.settlement)) else From(world, route, next.walk, position + 1)
  }

  function Run(world: World, route: seq<Rung>): Finish {
    From(world, route, StartWalk(), 0)
  }

  // ---------------------------------------------------------------- the imperative walk

  method SendRun(ch: Channel, position: nat, takes: seq<bool>) returns (r: Channel, accepted: bool)
    ensures r == SendAll(ch, position, takes) && accepted == AllTaken(takes)
  {
    r, accepted := ch, true;
    var i := 0;
    while i < |takes|
      invariant 0 <= i <= |takes| && accepted && forall k :: 0 <= k < i ==> takes[k]
      invariant SendAll(r, position, takes[i..]) == SendAll(ch, position, takes)
    {
      r := Send(r, position, takes[i], ModelOutput);
      if !takes[i] {
        return r, false;
      }
      assert takes[i..][1..] == takes[i + 1..];
      i := i + 1;
    }
    assert takes[i..] == [];
  }

  /** Relay one live stream until its terminal, its failure, an interruption or its end. */
  method Relay(s0: Stream, position: nat, events: seq<StreamEvent>) returns (s: Stream)
    ensures s == Fold(s0, position, events)
  {
    s := s0;
    var i := 0;
    while i < |events|
      invariant 0 <= i <= |events| && Fold(s, position, events[i..]) == Fold(s0, position, events)
    {
      assert events[i..][1..] == events[i + 1..];
      var e := events[i];
      match e {
        case Delta(empty, opens, first, rest) =>
          if !empty && s.channel.connected {
            var ch := s.channel;
            var open := s.open;
            if !open {
              ch := Send(ch, position, opens, Scaffolding);
              open := opens;
            }
            if !open {
              s := s.(channel := ch.(connected := false), open := false);
            } else {
              var sent, accepted := SendRun(ch, position, [first] + rest);
              s := s.(channel := sent.(connected := accepted), open := true);
            }
          }
        case Reported(report) =>
          s := s.(usage := Metered(report));
        case Final =>
          s := s.(completed := true);
          return;
        case Broke(f) =>
          s := s.(broke := Some(f));
          return;
        case Cut(interruption) =>
          s := s.(cut := Some(interruption));
          return;
      }
      i := i + 1;
    }
    assert events[i..] == [];
  }

  method StreamToChannel(world: World, route: seq<Rung>) returns (settled: seq<Settlement>, out: seq<Sent>)
    ensures settled == if Run(world, route).settled.Some? then [Run(world, route).settled.value] else []
    ensures out == Run(world, route).walk.channel.out
  {
    settled := [];
    var walk := StartWalk();
    var position := 0;
    while position < |route|
      invariant 0 <= position <= |route| && settled == []
      invariant From(world, route, walk, position) == Run(world, route)
    {
      var c := route[position];
      if Unearned(c, walk.armed) {
        walk := Skip(walk, c.definition, PolicySkipped);
      } else if world.closed(position) {
        settled := settled + [Settlement(walk.last, UNMETERED, 499, walk.rows)];
        return settled, walk.channel.out;
      } else if HealthSkips(world.skips, route, walk.last, position) {
        walk := Skip(walk, c.definition, HealthSkipped);
      } else if world.late(position) {
        settled := settled + [Interrupted(world, walk, position, walk.last, None, Timeout)];
        return settled, walk.channel.out;
      } else {
        var next;
        if !world.streams(position) {
          next := Whole(world, route, walk, position);
        } else {
          var s := Relay(FreshStream(walk), position, world.events(position));
          var known := Streamed(walk, s);
          if s.cut.Some? {
            var mark := if s.cut.value.Timeout? then TimedOut else Aborted;
            known := Called(known, c.definition, LiveCall(position, s), mark, s.channel.delivery.sent);
            next := Ended(known, Interrupted(world, known, position, Some(c.definition), s.usage, s.cut.value));
          } else if s.completed {
            next := Completed(world, known, c.definition, position, s);
          } else {
            next := Broken(world, known, c, position, s);
          }
        }
        walk := next.walk;
        if next.Ended? {
          settled := settled + [next.settlement];
          return settled, walk.channel.out;
        }
      }
      position := position + 1;
    }
    if walk.last.Some? {
      settled := settled + [Exhausted(walk).settled.value];
    }
    out := walk.channel.out;
  }
}
