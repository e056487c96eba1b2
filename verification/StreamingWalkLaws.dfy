/** What every streaming walk guarantees, whatever the upstreams, the client, the clock and the health registry do. */
module StreamingWalkLaws {
  import opened Wrappers
  import opened Ordering
  import opened Walking
  import opened StreamingWalk

  // ---------------------------------------------------------------- one live stream

  ghost predicate AnyOutput(out: seq<Sent>) {
    exists x :: x in out && x.frame == ModelOutput
  }

  ghost predicate AllFrom(out: seq<Sent>, position: nat) {
    forall x :: x in out ==> x.position == position
  }

  /** A channel that only this candidate has written to. */
  ghost predicate ChannelOk(ch: Channel, position: nat) {
    AllFrom(ch.out, position) && (ch.delivery.sent <==> AnyOutput(ch.out))
        && (ch.delivery.sent ==> ch.delivery.attempted)
  }

  /** A client that is still there and has been sent no output has been sent nothing, and nothing was tried. */
  ghost predicate StreamOk(s: Stream, position: nat) {
    && ChannelOk(s.channel, position)
    && (s.channel.connected ==> (s.open <==> s.channel.delivery.sent))
    && (s.channel.connected && !s.open ==> s.channel.out == [] && !s.channel.delivery.attempted)
    && (!s.open && !s.channel.connected ==> !s.channel.delivery.sent)
  }

  lemma SendOk(ch: Channel, position: nat, accepted: bool, frame: Frame)
    requires ChannelOk(ch, position)
    ensures ChannelOk(Send(ch, position, accepted, frame), position)
  {
    var ch' := Send(ch, position, accepted, frame);
    assert forall x :: x in ch'.out <==> x in ch.out || (accepted && x == Sent(position, frame));
  }

  lemma {:induction false} SendAllOk(ch: Channel, position: nat, takes: seq<bool>)
    requires ChannelOk(ch, position)
    ensures ChannelOk(SendAll(ch, position, takes), position)
    ensures takes != [] && takes[0] ==> SendAll(ch, position, takes).delivery.sent
    ensures ch.delivery.sent ==> SendAll(ch, position, takes).delivery.sent
    decreases |takes|
  {
    if takes == [] {
    } else {
      SendOk(ch, position, takes[0], ModelOutput);
      if takes[0] {
        SendAllOk(Send(ch, position, takes[0], ModelOutput), position, takes[1..]);
      }
    }
  }

  lemma DeltaOk(s: Stream, position: nat, e: StreamEvent)
    requires StreamOk(s, position) && e.Delta?
    ensures StreamOk(OnDelta(s, position, e), position)
  {
    if !e.empty && s.channel.connected {
      var lead := if s.open then s.channel else Send(s.channel, position, e.opens, Scaffolding);
      SendOk(s.channel, position, e.opens, Scaffolding);
      var takes := [e.first] + e.rest;
      SendAllOk(lead, position, takes);
      assert AllTaken(takes) ==> takes[0];
    }
  }

  lemma {:induction false} FoldOk(s: Stream, position: nat, events: seq<StreamEvent>)
    requires StreamOk(s, position)
    ensures StreamOk(Fold(s, position, events), position)
    decreases |events|
  {
    if events == [] {
    } else {
      match events[0]
      case Delta(_, _, _, _) =>
        DeltaOk(s, position, events[0]);
        FoldOk(OnDelta(s, position, events[0]), position, events[1..]);
      case Reported(report) => FoldOk(s.(usage := Metered(report)), position, events[1..]);
      case _ =>
    }
  }

  // ---------------------------------------------------------------- where a walk stands

  /** Between candidates the client is there and has received nothing at all, not even an opening frame. */
  ghost predicate Untouched(ch: Channel) {
    ch == Channel([], Delivery(false, false), true)
  }

  ghost predicate Stands(w: Walk) {
    Untouched(w.channel) && NoneServed(w.rows) && (w.last.Some? <==> w.calls != []) && (w.calls == [] ==> w.armed == {})
    && (w.calls != [] ==> !Bills(w.calls[|w.calls| - 1], w.channel.delivery))
  }

  /** A call is billable: its upstream metered it and its output was not withheld from the client. */
  predicate Bills(c: Call, d: Delivery) {
    c.usage.Some? && (if c.live then d.sent || (c.completed && !d.attempted) else true)
  }

  /** A call served: a live one by delivering output, a whole answer by being metered. */
  predicate Serves(c: Call, d: Delivery) {
    if c.live then d.sent else c.usage.Some?
  }

  ghost function Billed(w: Walk): Usage {
    if w.calls != [] && Bills(w.calls[|w.calls| - 1], w.channel.delivery) then w.calls[|w.calls| - 1].usage.value
    else UNMETERED
  }

  ghost predicate EndOk(w: Walk, s: Settlement) {
    && OnlyLastServed(w.rows) && s.rows == w.rows
    && s.usage == Billed(w)
    && s.definition == w.last
    && ((exists r :: r in w.rows && r.served) <==> w.calls != [] && Serves(w.calls[|w.calls| - 1], w.channel.delivery))
    && (w.calls == [] ==> w.channel.out == [])
    && (w.calls != [] ==> AllFrom(w.channel.out, w.calls[|w.calls| - 1].position))
  }

  ghost predicate MayCall(route: seq<Rung>, w: Walk, position: nat) {
    && position < |route|
    && (route[position].credential == Twin ==> route[position].definition.provider in w.armed)
    && (w.calls != [] ==> w.calls[|w.calls| - 1].position < position)
  }

  predicate Covered(c: Call) {
    !c.died && !c.completed &&
    if c.live then c.failure.Some? ==> !AccountRefused(c.failure.value)
    else c.failure.Some? && Classify(c.failure.value, false).PermitsByokFallback()
  }

  /** The walk after a call: its row, its latches and, only where the opt-in covers the failure, its arming. */
  ghost predicate CallStep(route: seq<Rung>, w: Walk, c: Call, mark: Mark, served: bool, w': Walk) {
    && c.position < |route| && mark != PolicySkipped && mark != HealthSkipped
    && w'.calls == w.calls + [c]
    && w'.rows == Pushed(w.rows, route[c.position].definition, mark, served)
    && (w'.armed == w.armed || (route[c.position].credential == Byok && Covered(c)
                                && w'.armed == w.armed + {route[c.position].definition.provider}))
    && w'.retention == (w.retention || (c.failure.Some? && c.failure.value.unattested))
    && w'.rejected == (if w.rejected.None? && Rejects(c) then c.failure.value.parameter else w.rejected)
  }

  predicate Rejects(c: Call) {
    c.failure.Some? && (c.live || Classify(c.failure.value, false).NonRetryable?)
  }

  /** A fact about the walk that passing over a candidate and calling one both keep. */
  ghost predicate Preserved(route: seq<Rung>, inv: Walk -> bool) {
    && (forall w, d, mark :: inv(w) && (mark == PolicySkipped || mark == HealthSkipped) ==> inv(Skip(w, d, mark)))
    && (forall w, c: Call, mark, served, w' ::
          inv(w) && MayCall(route, w, c.position) && CallStep(route, w, c, mark, served, w') ==> inv(w'))
  }

  ghost predicate NextOk(inv: Walk -> bool, position: nat, next: Next) {
    inv(next.walk) &&
    match next
    case Onward(w') => Stands(w') && w'.calls != [] && w'.calls[|w'.calls| - 1].position == position
    case Ended(w', s) => EndOk(w', s)
  }

  /** Before a candidate is called. */
  ghost predicate Before(route: seq<Rung>, inv: Walk -> bool, w: Walk, position: nat) {
    Preserved(route, inv) && inv(w) && Stands(w) && MayCall(route, w, position)
  }

  lemma RowServed(rows: seq<Row>, d: Definition, mark: Mark, served: bool)
    requires NoneServed(rows)
    ensures var rows' := Pushed(rows, d, mark, served);
      OnlyLastServed(rows') && ((exists r :: r in rows' && r.served) <==> served) && (!served ==> NoneServed(rows'))
  {
    var rows' := Pushed(rows, d, mark, served);
    assert rows'[|rows|] in rows';
  }

  /** A call that settles: what is billed and served is what this call earned. */
  lemma SettlesOk(route: seq<Rung>, inv: Walk -> bool, w: Walk, c: Call, mark: Mark, w': Walk, s: Settlement)
    requires Before(route, inv, w, c.position) && CallStep(route, w, c, mark, Serves(c, w'.channel.delivery), w')
    requires w'.last == Some(route[c.position].definition) && AllFrom(w'.channel.out, c.position)
    requires s.rows == w'.rows && s.definition == w'.last
    requires s.usage == if Bills(c, w'.channel.delivery) then c.usage.value else UNMETERED
    ensures inv(w') && EndOk(w', s)
  {
    RowServed(w.rows, route[c.position].definition, mark, Serves(c, w'.channel.delivery));
  }

  /** Ending where no call was made since: nothing is billed and nothing was sent. */
  lemma IdleOk(w: Walk, s: Settlement)
    requires Stands(w) && s.rows == w.rows && s.definition == w.last && s.usage == UNMETERED
    ensures EndOk(w, s)
  {
  }

  lemma SyntheticKeeps(world: World, route: seq<Rung>, inv: Walk -> bool, w: Walk, position: nat)
    requires Before(route, inv, w, position) && world.chat(position).Answered?
    ensures NextOk(inv, position, Synthetic(world, w, route[position].definition, position))
  {
    var next := Synthetic(world, w, route[position].definition, position);
    var answer := world.chat(position);
    var c := Call(position, false, Metered(answer.report), true, None, false);
    SendOk(w.channel, position, answer.opens, Scaffolding);
    SendAllOk(Send(w.channel, position, answer.opens, Scaffolding), position, answer.pieces);
    var w' := next.walk;
    SettlesOk(route, inv, w, c, Fine, w', next.settlement);
  }

  lemma WholeKeeps(world: World, route: seq<Rung>, inv: Walk -> bool, w: Walk, position: nat)
    requires Before(route, inv, w, position)
    ensures NextOk(inv, position, Whole(world, route, w, position))
  {
    var next := Whole(world, route, w, position);
    match world.chat(position)
    case Drained(inFlight) =>
      if inFlight {
        SettlesOk(route, inv, w, Call(position, false, None, false, None, true), Aborted, next.walk, next.settlement);
      } else {
        IdleOk(w, next.settlement);
      }
    case Overran => SettlesOk(route, inv, w, Call(position, false, None, false, None, true), TimedOut, next.walk,
                              next.settlement);
    case Answered(_, _, _) => SyntheticKeeps(world, route, inv, w, position);
    case Refused(f) => RefusedKeeps(world, route, inv, w, position, f);
  }

  lemma RefusedKeeps(world: World, route: seq<Rung>, inv: Walk -> bool, w: Walk, position: nat, f: Failure)
    requires Before(route, inv, w, position) && world.chat(position) == Refused(f)
    ensures NextOk(inv, position, Whole(world, route, w, position))
  {
    var c := Call(position, false, None, false, Some(f), false);
    var mark := MarkOf(Classify(f, false));
    var w' := Whole(world, route, w, position).walk;
    assert CallStep(route, w, c, mark, false, w');
    RowServed(w.rows, route[position].definition, mark, false);
  }

  lemma StreamStarts(w: Walk, position: nat)
    requires Stands(w)
    ensures StreamOk(FreshStream(w), position)
  {
  }

  lemma CutKeeps(world: World, route: seq<Rung>, inv: Walk -> bool, w: Walk, position: nat, s: Stream)
    requires Before(route, inv, w, position) && StreamOk(s, position) && s.cut.Some? && !s.completed
    ensures var mark := if s.cut.value.Timeout? then TimedOut else Aborted;
      var d := route[position].definition;
      var w' := Called(Streamed(w, s), d, LiveCall(position, s), mark, s.channel.delivery.sent);
      NextOk(inv, position, Ended(w', Interrupted(world, w', position, Some(d), s.usage, s.cut.value)))
  {
    var mark := if s.cut.value.Timeout? then TimedOut else Aborted;
    var d := route[position].definition;
    var w' := Called(Streamed(w, s), d, LiveCall(position, s), mark, s.channel.delivery.sent);
    SettlesOk(route, inv, w, LiveCall(position, s), mark, w',
              Interrupted(world, w', position, Some(d), s.usage, s.cut.value));
  }

  lemma CompletedKeeps(world: World, route: seq<Rung>, inv: Walk -> bool, w: Walk, position: nat, s: Stream)
    requires Before(route, inv, w, position) && StreamOk(s, position) && s.cut.None? && s.completed
    ensures NextOk(inv, position, Completed(world, Streamed(w, s), route[position].definition, position, s))
  {
    SendOk(s.channel, position, world.opensLate(position), Scaffolding);
    var next := Completed(world, Streamed(w, s), route[position].definition, position, s);
    SettlesOk(route, inv, w, LiveCall(position, s), Fine, next.walk, next.settlement);
  }

  lemma BrokenKeeps(world: World, route: seq<Rung>, inv: Walk -> bool, w: Walk, position: nat, s: Stream)
    requires Before(route, inv, w, position) && StreamOk(s, position) && s.cut.None? && !s.completed
    ensures NextOk(inv, position, Broken(world, Streamed(w, s), route[position], position, s))
  {
    var next := Broken(world, Streamed(w, s), route[position], position, s);
    var c := LiveCall(position, s);
    var limited := s.broke.Some? && s.broke.value.rateLimited;
    var mark := if limited && !s.channel.delivery.sent then Limited else StreamError;
    if next.Ended? {
      SettlesOk(route, inv, w, c, mark, next.walk, next.settlement);
    } else {
      assert CallStep(route, w, c, mark, false, next.walk);
      RowServed(w.rows, route[position].definition, mark, false);
    }
  }

  /** A stream stops in one way only. */
  lemma {:induction false} FoldStops(s: Stream, position: nat, events: seq<StreamEvent>)
    requires s.cut.None? && !s.completed && s.broke.None?
    ensures var r := Fold(s, position, events);
      (r.cut.Some? ==> !r.completed && r.broke.None?) && (r.completed ==> r.broke.None?)
    decreases |events|
  {
    if events == [] {
    } else {
      match events[0]
      case Delta(_, _, _, _) => FoldStops(OnDelta(s, position, events[0]), position, events[1..]);
      case Reported(report) => FoldStops(s.(usage := Metered(report)), position, events[1..]);
      case _ =>
    }
  }

  lemma LiveKeeps(world: World, route: seq<Rung>, inv: Walk -> bool, w: Walk, position: nat)
    requires Before(route, inv, w, position)
    ensures NextOk(inv, position, Live(world, route, w, position))
  {
    var s := Fold(FreshStream(w), position, world.events(position));
    StreamStarts(w, position);
    FoldOk(FreshStream(w), position, world.events(position));
    FoldStops(FreshStream(w), position, world.events(position));
    if s.cut.Some? {
      CutKeeps(world, route, inv, w, position, s);
    } else if s.completed {
      CompletedKeeps(world, route, inv, w, position, s);
    } else {
      BrokenKeeps(world, route, inv, w, position, s);
    }
  }

  // ---------------------------------------------------------------- the whole walk

  /** Between candidates. */
  ghost predicate Between(route: seq<Rung>, inv: Walk -> bool, w: Walk, position: nat) {
    inv(w) && Stands(w) && position <= |route| && (w.calls != [] ==> w.calls[|w.calls| - 1].position < position)
  }

  ghost predicate VisitOk(route: seq<Rung>, inv: Walk -> bool, w: Walk, position: nat, next: Next) {
    match next
    case Onward(w') => Between(route, inv, w', position + 1) && (w.calls != [] ==> w'.calls != [])
    case Ended(w', s) => inv(w') && EndOk(w', s)
  }

  lemma SkipKeeps(route: seq<Rung>, inv: Walk -> bool, w: Walk, position: nat, d: Definition, mark: Mark)
    requires Preserved(route, inv) && Between(route, inv, w, position) && position < |route|
    requires mark == PolicySkipped || mark == HealthSkipped
    ensures Between(route, inv, Skip(w, d, mark), position + 1)
  {
    RowServed(w.rows, d, mark, false);
  }

  lemma VisitKeeps(world: World, route: seq<Rung>, inv: Walk -> bool, w: Walk, position: nat)
    requires Preserved(route, inv) && Between(route, inv, w, position) && position < |route|
    ensures VisitOk(route, inv, w, position, Visit(world, route, w, position))
  {
    var d := route[position].definition;
    if Unearned(route[position], w.armed) {
      SkipKeeps(route, inv, w, position, d, PolicySkipped);
    } else if world.closed(position) {
      IdleOk(w, Settlement(w.last, UNMETERED, 499, w.rows));
    } else if HealthSkips(world.skips, route, w.last, position) {
      SkipKeeps(route, inv, w, position, d, HealthSkipped);
    } else if world.late(position) {
      IdleOk(w, Interrupted(world, w, position, w.last, None, Timeout));
    } else if !world.streams(position) {
      WholeKeeps(world, route, inv, w, position);
    } else {
      LiveKeeps(world, route, inv, w, position);
    }
  }

  ghost predicate FinishOk(inv: Walk -> bool, f: Finish) {
    && inv(f.walk)
    && (if f.settled.Some? then EndOk(f.walk, f.settled.value) else f.walk.calls == [] && f.walk.channel.out == [])
  }

  lemma {:induction false} FromKeeps(world: World, route: seq<Rung>, inv: Walk -> bool, w: Walk, position: nat)
    requires Preserved(route, inv) && Between(route, inv, w, position)
    ensures FinishOk(inv, From(world, route, w, position))
    decreases |route| - position
  {
    if position == |route| {
      if w.last.Some? { IdleOk(w, Exhausted(w).settled.value); }
    } else {
      VisitKeeps(world, route, inv, w, position);
      var next := Visit(world, route, w, position);
      if next.Onward? {
        FromKeeps(world, route, inv, next.walk, position + 1);
      }
    }
  }

  /** Whatever every step keeps and the start has, the finished walk has; and it finishes properly. */
  lemma RunKeeps(world: World, route: seq<Rung>, inv: Walk -> bool)
    requires Preserved(route, inv) && inv(StartWalk())
    ensures FinishOk(inv, Run(world, route))
  {
    FromKeeps(world, route, inv, StartWalk(), 0);
  }

  ghost function Anything(): Walk -> bool {
    w => true
  }

  // ---------------------------------------------------------------- settled once, and when not at all

  /** Every candidate from here on is passed over without a call: a twin, or unhealthy with another one behind it. */
  ghost predicate PassedOver(world: World, route: seq<Rung>, position: nat) {
    forall p :: position <= p < |route| ==>
      route[p].credential == Twin || (!world.closed(p) && world.skips(p) && p + 1 < |route|)
  }

  lemma {:induction false} UnsettledFrom(world: World, route: seq<Rung>, w: Walk, position: nat)
    requires Between(route, Anything(), w, position)
    ensures From(world, route, w, position).settled.None? <==> w.last.None? && PassedOver(world, route, position)
    decreases |route| - position
  {
    if position == |route| {
    } else {
      VisitKeeps(world, route, Anything(), w, position);
      var next := Visit(world, route, w, position);
      if next.Onward? {
        UnsettledFrom(world, route, next.walk, position + 1);
        OnwardMeans(world, route, w, position);
      } else if w.last.None? {
        assert !Unearned(route[position], w.armed);
      }
    }
  }

  lemma OnwardMeans(world: World, route: seq<Rung>, w: Walk, position: nat)
    requires Between(route, Anything(), w, position) && position < |route| && Visit(world, route, w, position).Onward?
    ensures Visit(world, route, w, position).walk.last.None? <==>
      w.last.None? && (route[position].credential == Twin
                       || (!world.closed(position) && world.skips(position) && position + 1 < |route|))
  {
    if !Unearned(route[position], w.armed) && !world.closed(position)
        && !HealthSkips(world.skips, route, w.last, position) && !world.late(position) {
      if world.streams(position) { LiveKeeps(world, route, Anything(), w, position); }
      else { WholeKeeps(world, route, Anything(), w, position); }
    }
  }

  /** The streaming walk settles its session exactly once, except that it settles none exactly where every
      candidate was passed over without a call. */
  lemma SettlesUnlessPassedOver(world: World, route: seq<Rung>)
    ensures Run(world, route).settled.None? <==> PassedOver(world, route, 0)
  {
    UnsettledFrom(world, route, StartWalk(), 0);
  }

  /** So the routes that can leave a session unsettled are the empty one and those that end in a twin. */
  lemma RoutesThatLeak(route: seq<Rung>)
    ensures (exists world :: Run(world, route).settled.None?) <==> route == [] || route[|route| - 1].credential == Twin
  {
    var unhealthy := World(p => true, p => false, p => false, p => true, p => Overran, p => [], p => false, p => true,
                           true);
    SettlesUnlessPassedOver(unhealthy, route);
    if route != [] && route[|route| - 1].credential != Twin {
      forall world ensures Run(world, route).settled.Some? {
        SettlesUnlessPassedOver(world, route);
        var p := |route| - 1;
        assert !(route[p].credential == Twin || (!world.closed(p) && world.skips(p) && p + 1 < |route|));
      }
    } else {
      assert PassedOver(unhealthy, route, 0);
    }
  }

  // ---------------------------------------------------------------- delivery and billing

  /** All output of a response comes from one candidate, the last one called: whenever the walk moved on, the
      client had received nothing, not even an opening frame. */
  lemma OneVoice(world: World, route: seq<Rung>)
    ensures var w := Run(world, route).walk;
      if w.calls == [] then w.channel.out == [] else AllFrom(w.channel.out, w.calls[|w.calls| - 1].position)
  {
    RunKeeps(world, route, Anything());
  }

  ghost predicate MovesOn(world: World, route: seq<Rung>, w: Walk, position: nat, w': Walk)
    requires position < |route|
  {
    Visit(world, route, w, position) == Onward(w')
  }

  /** A run up to some place in the route: the walk as it came to every candidate so far, each one moved past. */
  ghost predicate Arrives(world: World, route: seq<Rung>, stations: seq<Walk>) {
    && 0 < |stations| <= |route| + 1 && stations[0] == StartWalk()
    && forall p :: 0 <= p < |stations| - 1 ==> MovesOn(world, route, stations[p], p, stations[p + 1])
  }

  /** What the start has and moving past a candidate keeps, holds wherever a run arrives. */
  lemma {:induction false} ArrivalKeeps(world: World, route: seq<Rung>, stations: seq<Walk>, inv: (Walk, nat) -> bool,
                                        position: nat)
    requires Arrives(world, route, stations) && position < |stations| && inv(StartWalk(), 0)
    requires forall p, w, w' :: 0 <= p < |route| && inv(w, p) && MovesOn(world, route, w, p, w') ==> inv(w', p + 1)
    ensures inv(stations[position], position)
  {
    if position > 0 {
      ArrivalKeeps(world, route, stations, inv, position - 1);
      assert MovesOn(world, route, stations[position - 1], position - 1, stations[position]);
    }
  }

  /** The run goes on from where it arrives. */
  ghost predicate GoesOn(world: World, route: seq<Rung>, w: Walk, position: nat) {
    Between(route, Anything(), w, position) && Run(world, route) == From(world, route, w, position)
  }

  ghost function StandsFact(world: World, route: seq<Rung>): (Walk, nat) -> bool {
    (w: Walk, p: nat) => GoesOn(world, route, w, p)
  }

  lemma OnwardStands(world: World, route: seq<Rung>, w: Walk, position: nat, w': Walk)
    requires Between(route, Anything(), w, position) && position < |route| && MovesOn(world, route, w, position, w')
    ensures Between(route, Anything(), w', position + 1)
    ensures From(world, route, w, position) == From(world, route, w', position + 1)
  {
    VisitKeeps(world, route, Anything(), w, position);
  }

  lemma ArrivingStands(world: World, route: seq<Rung>, stations: seq<Walk>, position: nat)
    requires Arrives(world, route, stations) && position < |stations|
    ensures Between(route, Anything(), stations[position], position)
    ensures Run(world, route) == From(world, route, stations[position], position)
  {
    forall p: nat, w, w' | p < |route| && GoesOn(world, route, w, p) && MovesOn(world, route, w, p, w')
      ensures GoesOn(world, route, w', p + 1)
    {
      OnwardStands(world, route, w, p, w');
    }
    assert GoesOn(world, route, StartWalk(), 0);
    ArrivalKeeps(world, route, stations, StandsFact(world, route), position);
    assert GoesOn(world, route, stations[position], position);
  }

  /** Whenever a run moves on, the client has accepted nothing at all from the candidates behind, not even an opening
      frame, no output was tried on it, and it is still there. */
  lemma CleanHandover(world: World, route: seq<Rung>, stations: seq<Walk>, position: nat)
    requires Arrives(world, route, stations) && position < |stations|
    ensures var w := stations[position];
      && w.channel.out == [] && w.channel.delivery == Delivery(false, false) && w.channel.connected
      && Run(world, route) == From(world, route, w, position)
  {
    ArrivingStands(world, route, stations, position);
  }

  // ---------------------------------------------------------------- the ledger and the calls

  ghost predicate LedgerOk(route: seq<Rung>, w: Walk) {
    && Numbered(w.rows) && Tried(w.rows) == |w.calls|
    && (forall i :: 0 <= i < |w.calls| ==> w.calls[i].position < |route|)
    && (forall i :: 0 < i < |w.calls| ==> w.calls[i - 1].position < w.calls[i].position)
  }

  ghost function LedgerFact(route: seq<Rung>): Walk -> bool {
    w => LedgerOk(route, w)
  }

  lemma LedgerPush(route: seq<Rung>, w: Walk, c: Call, mark: Mark, served: bool, w': Walk)
    requires LedgerOk(route, w) && MayCall(route, w, c.position) && CallStep(route, w, c, mark, served, w')
    ensures LedgerOk(route, w')
  {
    TriedPush(w.rows, w'.rows[|w.rows|]);
  }

  lemma LedgerPreserved(route: seq<Rung>)
    ensures Preserved(route, LedgerFact(route))
  {
    forall w, d, mark | LedgerOk(route, w) && (mark == PolicySkipped || mark == HealthSkipped)
      ensures LedgerOk(route, Skip(w, d, mark))
    {
      TriedPush(w.rows, Row(|w.rows| + 1, d, mark, false));
    }
    forall w, c: Call, mark, served, w' | LedgerOk(route, w) && MayCall(route, w, c.position)
        && CallStep(route, w, c, mark, served, w')
      ensures LedgerOk(route, w')
    {
      LedgerPush(route, w, c, mark, served, w');
    }
  }

  /** Rows numbered from one without a gap, one per call besides the skips; at most the last is served, and it is
      exactly when its call delivered output (live) or was a metered whole answer. One call per candidate. */
  lemma LedgerLaw(world: World, route: seq<Rung>)
    ensures var f := Run(world, route);
      && LedgerOk(route, f.walk)
      && (f.settled.Some? ==>
            var rows := f.settled.value.rows;
            var calls := f.walk.calls;
            && rows == f.walk.rows && OnlyLastServed(rows)
            && ((exists r :: r in rows && r.served) <==>
                calls != [] && Serves(calls[|calls| - 1], f.walk.channel.delivery)))
  {
    LedgerPreserved(route);
    RunKeeps(world, route, LedgerFact(route));
  }

  // ---------------------------------------------------------------- the fallback

  /** The customer's key was tried on this provider, and failed in a way the walk covers. */
  ghost predicate Earns(route: seq<Rung>, c: Call, provider: string) {
    c.position < |route| && route[c.position].credential == Byok && route[c.position].definition.provider == provider
        && Covered(c)
  }

  ghost predicate EarnedBy(route: seq<Rung>, calls: seq<Call>, provider: string) {
    exists c :: c in calls && Earns(route, c, provider)
  }

  ghost predicate ArmedOk(route: seq<Rung>, w: Walk) {
    && (forall p :: p in w.armed ==> EarnedBy(route, w.calls, p))
    && (forall i ::
          0 <= i < |w.calls| && w.calls[i].position < |route| && route[w.calls[i].position].credential == Twin ==>
          EarnedBy(route, w.calls[..i], route[w.calls[i].position].definition.provider))
  }

  ghost function ArmedFact(route: seq<Rung>): Walk -> bool {
    w => ArmedOk(route, w)
  }

  lemma ArmedPush(route: seq<Rung>, w: Walk, c: Call, mark: Mark, served: bool, w': Walk)
    requires ArmedOk(route, w) && MayCall(route, w, c.position) && CallStep(route, w, c, mark, served, w')
    ensures ArmedOk(route, w')
  {
    var n := |w.calls|;
    assert forall x :: x in w'.calls <==> x in w.calls || x == c;
    forall p | EarnedBy(route, w.calls, p) || Earns(route, c, p) ensures EarnedBy(route, w'.calls, p) {}
    forall i | 0 <= i <= n && w'.calls[i].position < |route| && route[w'.calls[i].position].credential == Twin
      ensures EarnedBy(route, w'.calls[..i], route[w'.calls[i].position].definition.provider)
    {
      assert w'.calls[..i] == w.calls[..i];
      if i < n {
        assert w'.calls[i] == w.calls[i];
      } else {
        assert w.calls[..n] == w.calls;
      }
    }
  }

  lemma ArmedPreserved(route: seq<Rung>)
    ensures Preserved(route, ArmedFact(route))
  {
    forall w, c: Call, mark, served, w' | ArmedOk(route, w) && MayCall(route, w, c.position)
        && CallStep(route, w, c, mark, served, w')
      ensures ArmedOk(route, w')
    {
      ArmedPush(route, w, c, mark, served, w');
    }
  }

  /** A fallback twin is called only after the customer's own key on that provider was, and failed in a way the
      walk covers. `KeyArms` says which those are. */
  lemma NoUnearnedFallback(world: World, route: seq<Rung>, i: nat)
    requires i < |Run(world, route).walk.calls|
    ensures var calls := Run(world, route).walk.calls;
      var p := calls[i].position;
      p < |route| && (route[p].credential == Twin ==> EarnedBy(route, calls[..i], route[p].definition.provider))
  {
    LedgerLaw(world, route);
    ArmedPreserved(route);
    RunKeeps(world, route, ArmedFact(route));
  }

  /** What moving past a candidate adds: nothing, or one call that ended without an answer. */
  ghost predicate MovedPast(route: seq<Rung>, position: nat, w: Walk, w': Walk)
    requires position < |route|
  {
    var provider := route[position].definition.provider;
    if w'.calls == w.calls then w'.armed == w.armed
    else
      && |w'.calls| == |w.calls| + 1 && w'.calls == w.calls + [w'.calls[|w.calls|]]
      && var c := w'.calls[|w.calls|];
         && c.position == position && !c.died && !c.completed && (!c.live ==> c.failure.Some?)
         && w'.armed == if Earns(route, c, provider) then w.armed + {provider} else w.armed
  }

  lemma VisitMovesPast(world: World, route: seq<Rung>, w: Walk, position: nat, w': Walk)
    requires Between(route, Anything(), w, position) && position < |route| && MovesOn(world, route, w, position, w')
    ensures MovedPast(route, position, w, w')
  {
    if !Unearned(route[position], w.armed) && !world.closed(position)
        && !HealthSkips(world.skips, route, w.last, position) && world.streams(position) {
      FoldStops(FreshStream(w), position, world.events(position));
    }
  }

  /** On arrival the armed providers are those some failure behind has earned. */
  ghost predicate ArrivedOk(route: seq<Rung>, w: Walk) {
    && (forall provider :: provider in w.armed <==> EarnedBy(route, w.calls, provider))
    && (forall c :: c in w.calls ==> c.position < |route| && !c.died && !c.completed && (!c.live ==> c.failure.Some?))
  }

  lemma MovedPastKeeps(route: seq<Rung>, position: nat, w: Walk, w': Walk)
    requires position < |route| && ArrivedOk(route, w) && MovedPast(route, position, w, w')
    ensures ArrivedOk(route, w')
  {
    if w'.calls != w.calls {
      var c := w'.calls[|w.calls|];
      assert forall x :: x in w'.calls <==> x in w.calls || x == c;
      forall provider ensures EarnedBy(route, w'.calls, provider) <==>
          EarnedBy(route, w.calls, provider) || Earns(route, c, provider) {}
    }
  }

  ghost predicate ArrivesOk(route: seq<Rung>, w: Walk, position: nat) {
    Between(route, Anything(), w, position) && ArrivedOk(route, w)
  }

  ghost function ArrivedFact(route: seq<Rung>): (Walk, nat) -> bool {
    (w: Walk, p: nat) => ArrivesOk(route, w, p)
  }

  lemma OnwardOk(world: World, route: seq<Rung>, w: Walk, position: nat, w': Walk)
    requires Between(route, Anything(), w, position) && position < |route| && MovesOn(world, route, w, position, w')
    requires ArrivedOk(route, w)
    ensures ArrivedOk(route, w')
  {
    VisitMovesPast(world, route, w, position, w');
    MovedPastKeeps(route, position, w, w');
  }

  lemma ArrivingOk(world: World, route: seq<Rung>, stations: seq<Walk>, position: nat)
    requires Arrives(world, route, stations) && position < |stations|
    ensures ArrivedOk(route, stations[position])
  {
    forall p: nat, w, w' | p < |route| && ArrivesOk(route, w, p) && MovesOn(world, route, w, p, w')
      ensures ArrivesOk(route, w', p + 1)
    {
      OnwardStands(world, route, w, p, w');
      OnwardOk(world, route, w, p, w');
    }
    assert ArrivesOk(route, StartWalk(), 0);
    ArrivalKeeps(world, route, stations, ArrivedFact(route), position);
    assert ArrivesOk(route, stations[position], position);
  }

  /** A twin that the walk reaches is passed over exactly if no failure behind has earned it. */
  lemma TwinAwaitsFailure(world: World, route: seq<Rung>, stations: seq<Walk>, position: nat)
    requires Arrives(world, route, stations) && position < |stations| && position < |route|
    requires route[position].credential == Twin
    ensures var w := stations[position];
      Visit(world, route, w, position) == Onward(Skip(w, route[position].definition, PolicySkipped)) <==>
        !EarnedBy(route, w.calls, route[position].definition.provider)
  {
    ArrivingOk(world, route, stations, position);
    if !Unearned(route[position], stations[position].armed) {
      EarnedIsVisited(world, route, stations[position], position);
    }
  }

  lemma EarnedIsVisited(world: World, route: seq<Rung>, w: Walk, position: nat)
    requires position < |route| && !Unearned(route[position], w.armed)
    ensures Visit(world, route, w, position) != Onward(Skip(w, route[position].definition, PolicySkipped))
  {
    var next := Visit(world, route, w, position);
    if next.Onward? && |next.walk.rows| == |w.rows| + 1 {
      assert next.walk.rows[|w.rows|].mark != PolicySkipped;
    }
  }

  /** Which failures of the customer's key arm the twin. A whole answer is read by the classifier, which no prompt
      has been shortened for; a live stream asks only whether the account was refused. So the refusal of an account
      that cannot pay, which the opt-in is not meant to cover, arms exactly when it came as a whole answer that is
      unattested or also reads as a context overflow, and never on a live stream. (The router asks no retention
      attestation of a customer's key, so of the two only the overflow can happen to one.) */
  lemma KeyArms(world: World, route: seq<Rung>, stations: seq<Walk>, position: nat, c: Call)
    requires Arrives(world, route, stations) && position < |stations| && c in stations[position].calls
    requires c.position < |route| && route[c.position].credential == Byok && c.failure.Some?
    ensures var f, readAsOther := c.failure.value, c.failure.value.unattested || c.failure.value.contextWindow;
      && (Earns(route, c, route[c.position].definition.provider) <==>
            if c.live then !AccountRefused(f)
            else readAsOther || !(f.rateLimited && (f.accountCannotPay || f.clientError)))
      && (AccountRefused(f) ==> (Earns(route, c, route[c.position].definition.provider) <==> !c.live && readAsOther))
  {
    ArrivingOk(world, route, stations, position);
  }

  /** The input: an exhausted account whose refusal also reads as a context overflow, from a candidate that cannot
      stream, ahead of its twin. The house answers and is paid. */
  lemma HouseAnswersExhaustedAccount(world: World, d: Definition, f: Failure, usage: Usage, opens: bool,
                                     pieces: seq<bool>)
    requires f == Failure(false, true, true, true, false, None) && usage != UNMETERED
    requires forall p :: 0 <= p < 2 ==> !world.closed(p) && !world.skips(p) && !world.late(p) && !world.streams(p)
    requires world.chat(0) == Refused(f) && world.chat(1) == Answered(Some(usage), opens, pieces)
    ensures AccountRefused(f)
    ensures var end := Run(world, [Rung(0, d, Byok), Rung(1, d, Twin)]);
      && |end.walk.calls| == 2 && end.walk.calls[0].failure == Some(f) && end.walk.calls[1].position == 1
      && end.settled.Some? && end.settled.value.usage == usage
  {
    var route := [Rung(0, d, Byok), Rung(1, d, Twin)];
    var w1 := Whole(world, route, StartWalk(), 0).walk;
    assert Visit(world, route, StartWalk(), 0) == Onward(w1);
    var end := Synthetic(world, w1, d, 1);
    assert Visit(world, route, w1, 1) == end && end.Ended?;
    assert From(world, route, w1, 1) == Finish(end.walk, Some(end.settlement));
    assert Run(world, route) == From(world, route, w1, 1);
  }

  // ---------------------------------------------------------------- the terminal

  ghost predicate AnyUnattested(calls: seq<Call>) {
    exists c :: c in calls && c.failure.Some? && c.failure.value.unattested
  }

  function FirstRejection(calls: seq<Call>): Option<string> {
    if calls == [] then None
    else
      var earlier := FirstRejection(calls[..|calls| - 1]);
      var c := calls[|calls| - 1];
      if earlier.Some? then earlier else if Rejects(c) then c.failure.value.parameter else None
  }

  ghost predicate LatchesOk(w: Walk) {
    (w.retention <==> AnyUnattested(w.calls)) && w.rejected == FirstRejection(w.calls)
  }

  ghost function LatchesFact(): Walk -> bool {
    w => LatchesOk(w)
  }

  lemma LatchesPreserved(route: seq<Rung>)
    ensures Preserved(route, LatchesFact())
  {
    forall w, c: Call, mark, served, w' | LatchesOk(w) && MayCall(route, w, c.position)
        && CallStep(route, w, c, mark, served, w')
      ensures LatchesOk(w')
    {
      assert w'.calls[..|w.calls|] == w.calls;
      assert forall x :: x in w'.calls <==> x in w.calls || x == c;
    }
  }

  /** Only the end of the route settles as a 400. */
  lemma VisitStatus(world: World, route: seq<Rung>, w: Walk, position: nat)
    requires position < |route| && Visit(world, route, w, position).Ended?
    ensures Visit(world, route, w, position).settlement.status in {200, 499, 502, 503, 504}
  {
  }

  lemma {:induction false} FromStatus(world: World, route: seq<Rung>, w: Walk, position: nat)
    requires Preserved(route, LatchesFact()) && Between(route, LatchesFact(), w, position)
    ensures var f := From(world, route, w, position);
      f.settled.Some? && f.settled.value.status == 400 ==>
          !AnyUnattested(f.walk.calls) && FirstRejection(f.walk.calls).Some?
    decreases |route| - position
  {
    if position == |route| {
    } else {
      VisitKeeps(world, route, LatchesFact(), w, position);
      var next := Visit(world, route, w, position);
      if next.Onward? {
        FromStatus(world, route, next.walk, position + 1);
      } else {
        VisitStatus(world, route, w, position);
      }
    }
  }

  /** A settled 400 names a parameter some upstream refused, and no upstream refused the retention guarantee. */
  lemma ParameterLaw(world: World, route: seq<Rung>)
    ensures var f := Run(world, route);
      f.settled.Some? && f.settled.value.status == 400 ==>
          !AnyUnattested(f.walk.calls) && FirstRejection(f.walk.calls).Some?
  {
    LatchesPreserved(route);
    FromStatus(world, route, StartWalk(), 0);
  }
}
