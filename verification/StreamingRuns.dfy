/** What a streaming run comes to, said of the world alone: which candidates are passed over, called or never
    reached, what the client receives, what is settled, and under which status. */
module StreamingRuns {
  import opened Wrappers
  import opened Ordering
  import opened Walking
  import opened StreamingWalk
  import Laws = StreamingWalkLaws

  // ---------------------------------------------------------------- what a live stream says

  /** Where a stream stops: at its terminal, its failure, an interruption, or where it ends. */
  ghost function Stop(es: seq<StreamEvent>): (n: nat)
    ensures n <= |es|
  {
    if es == [] || es[0].Final? || es[0].Broke? || es[0].Cut? then 0 else 1 + Stop(es[1..])
  }

  /** A usage report that counts something. */
  ghost function Counted(report: Option<Usage>): Option<Usage> {
    if report == Some(Usage(0, 0)) then None else report
  }

  /** What the last report of these events counts, if there is one. */
  ghost function Latest(start: Option<Usage>, es: seq<StreamEvent>): Option<Usage> {
    if es == [] then start
    else
      var last := es[|es| - 1];
      if last.Reported? then Counted(last.report) else Latest(start, es[..|es| - 1])
  }

  ghost function UsageAt(world: World, p: nat): Option<Usage> {
    Latest(None, world.events(p)[..Stop(world.events(p))])
  }

  ghost predicate EndsFinal(es: seq<StreamEvent>) {
    Stop(es) < |es| && es[Stop(es)].Final?
  }

  ghost function Breaks(es: seq<StreamEvent>): Option<Failure> {
    if Stop(es) < |es| && es[Stop(es)].Broke? then Some(es[Stop(es)].failure) else None
  }

  ghost function Cuts(es: seq<StreamEvent>): Option<Interruption> {
    if Stop(es) < |es| && es[Stop(es)].Cut? then Some(es[Stop(es)].interruption) else None
  }

  /** A frame put to the client's channel, and whether it would be taken. */
  datatype Offer = Offer(frame: Frame, taken: bool)

  ghost function Outputs(takes: seq<bool>): (os: seq<Offer>)
    ensures |os| == |takes| && forall k :: 0 <= k < |os| ==> os[k] == Offer(ModelOutput, takes[k])
  {
    if takes == [] then [] else [Offer(ModelOutput, takes[0])] + Outputs(takes[1..])
  }

  /** The frames of one delta: an opening frame if the turn has not begun, and every output. */
  ghost function OffersOf(e: StreamEvent, begun: bool): (os: seq<Offer>)
    requires e.Delta?
    ensures os == [] <==> e.empty
  {
    if e.empty then []
    else (if begun then [] else [Offer(Scaffolding, e.opens)]) + Outputs([e.first] + e.rest)
  }

  /** The frames of a stream up to where it stops. */
  ghost function Offers(es: seq<StreamEvent>, begun: bool): seq<Offer> {
    if es == [] then []
    else
      match es[0]
      case Delta(empty, _, _, _) => OffersOf(es[0], begun) + Offers(es[1..], begun || !empty)
      case Reported(_) => Offers(es[1..], begun)
      case _ => []
  }

  /** The client takes frames up to the first one refused; nothing is put to it after that. */
  ghost function Taken(os: seq<Offer>): (n: nat)
    ensures n <= |os|
  {
    if os == [] || !os[0].taken then 0 else 1 + Taken(os[1..])
  }

  ghost predicate AnyOutput(os: seq<Offer>) {
    exists o :: o in os && o.frame == ModelOutput
  }

  ghost predicate Delivers(os: seq<Offer>) {
    AnyOutput(os[..Taken(os)])
  }

  ghost predicate Attempts(os: seq<Offer>) {
    AnyOutput(if Taken(os) < |os| then os[..Taken(os) + 1] else os)
  }

  /** What the client has received of these frames. */
  ghost predicate Received(out: seq<Sent>, p: nat, os: seq<Offer>) {
    |out| == Taken(os) && forall k :: 0 <= k < |out| ==> out[k] == Sent(p, os[k].frame)
  }

  ghost predicate Took(ch: Channel, p: nat, os: seq<Offer>) {
    Received(ch.out, p, os) && (ch.delivery.sent <==> Delivers(os)) && (ch.delivery.attempted <==> Attempts(os))
  }

  lemma {:induction false} TakenAppend(os: seq<Offer>, more: seq<Offer>)
    ensures Taken(os) < |os| ==> Taken(os + more) == Taken(os)
    ensures Taken(os) == |os| ==> Taken(os + more) == |os| + Taken(more)
  {
    if os == [] {
      assert os + more == more;
    } else {
      assert (os + more)[1..] == os[1..] + more;
      TakenAppend(os[1..], more);
    }
  }

  /** Once a frame is refused, later ones make no difference. */
  lemma TookNoMore(ch: Channel, p: nat, os: seq<Offer>, more: seq<Offer>)
    requires Took(ch, p, os) && Taken(os) < |os|
    ensures Took(ch, p, os + more) && Taken(os + more) < |os + more|
  {
    TakenAppend(os, more);
    var n := Taken(os);
    assert (os + more)[..n] == os[..n] && (os + more)[..n + 1] == os[..n + 1];
  }

  lemma AnyOutputPush(os: seq<Offer>, o: Offer)
    ensures AnyOutput(os + [o]) <==> AnyOutput(os) || o.frame == ModelOutput
  {
    assert forall x :: x in os + [o] <==> x in os || x == o;
  }

  lemma TookOne(ch: Channel, p: nat, os: seq<Offer>, o: Offer)
    requires Took(ch, p, os) && Taken(os) == |os|
    ensures Took(Send(ch, p, o.taken, o.frame), p, os + [o])
    ensures Taken(os + [o]) == if o.taken then |os| + 1 else |os|
  {
    TakenAppend(os, [o]);
    assert Taken([o]) == if o.taken then 1 else 0 by { assert [o][1..] == []; }
    AnyOutputPush(os, o);
    assert os[..|os|] == os == (os + [o])[..|os|] && (os + [o])[..|os| + 1] == os + [o];
  }

  lemma {:induction false} SendAllStill(ch: Channel, p: nat, takes: seq<bool>)
    ensures SendAll(ch, p, takes).connected == ch.connected
    decreases |takes|
  {
    if takes != [] && takes[0] { SendAllStill(Send(ch, p, true, ModelOutput), p, takes[1..]); }
  }

  lemma TookRefused(ch: Channel, p: nat, os: seq<Offer>, rest: seq<bool>)
    requires Took(ch, p, os) && Taken(os) == |os|
    ensures var os' := os + [Offer(ModelOutput, false)] + Outputs(rest);
      Took(Send(ch, p, false, ModelOutput), p, os') && Taken(os') < |os'|
  {
    var o := Offer(ModelOutput, false);
    TookOne(ch, p, os, o);
    TookNoMore(Send(ch, p, false, ModelOutput), p, os + [o], Outputs(rest));
  }

  lemma OutputsStep(os: seq<Offer>, takes: seq<bool>)
    requires takes != []
    ensures os + Outputs(takes) == os + [Offer(ModelOutput, takes[0])] + Outputs(takes[1..])
    ensures AllTaken(takes) <==> takes[0] && AllTaken(takes[1..])
  {
    assert takes == [takes[0]] + takes[1..];
  }

  lemma {:induction false} TookAll(ch: Channel, p: nat, os: seq<Offer>, takes: seq<bool>)
    requires Took(ch, p, os) && Taken(os) == |os|
    ensures Took(SendAll(ch, p, takes), p, os + Outputs(takes))
    ensures Taken(os + Outputs(takes)) == |os + Outputs(takes)| <==> AllTaken(takes)
    decreases |takes|
  {
    if takes == [] {
      assert os + [] == os;
    } else {
      var rest := takes[1..];
      OutputsStep(os, takes);
      if takes[0] {
        var os' := os + [Offer(ModelOutput, true)];
        TookOne(ch, p, os, Offer(ModelOutput, true));
        TookAll(Send(ch, p, true, ModelOutput), p, os', rest);
      } else {
        TookRefused(ch, p, os, rest);
      }
    }
  }

  /** How a stream stands after its events so far: what it has put to the client, and whether all of it was taken. */
  ghost predicate StreamTook(s: Stream, p: nat, os: seq<Offer>) {
    && Took(s.channel, p, os) && (s.channel.connected <==> Taken(os) == |os|)
    && (s.channel.connected ==> (s.open <==> os != []))
  }

  lemma DeltaTook(s: Stream, p: nat, e: StreamEvent, os: seq<Offer>)
    requires e.Delta? && StreamTook(s, p, os)
    ensures StreamTook(OnDelta(s, p, e), p, os + OffersOf(e, os != []))
  {
    if e.empty {
      assert os + [] == os;
    } else if !s.channel.connected {
      TookNoMore(s.channel, p, os, OffersOf(e, os != []));
    } else {
      OpenTook(s, p, e, os);
    }
  }

  lemma BegunTook(s: Stream, p: nat, e: StreamEvent, os: seq<Offer>)
    requires e.Delta? && !e.empty && s.channel.connected && s.open && StreamTook(s, p, os)
    ensures StreamTook(OnDelta(s, p, e), p, os + OffersOf(e, true))
  {
    var takes := [e.first] + e.rest;
    TookAll(s.channel, p, os, takes);
    SendAllStill(s.channel, p, takes);
    assert OffersOf(e, true) == Outputs(takes);
  }

  lemma OpenTook(s: Stream, p: nat, e: StreamEvent, os: seq<Offer>)
    requires e.Delta? && !e.empty && s.channel.connected && StreamTook(s, p, os)
    ensures StreamTook(OnDelta(s, p, e), p, os + OffersOf(e, os != []))
  {
    if s.open {
      BegunTook(s, p, e, os);
    } else {
      LeadTook(s, p, e);
      assert os == [] && [] + OffersOf(e, false) == OffersOf(e, false);
    }
  }

  lemma LeadTook(s: Stream, p: nat, e: StreamEvent)
    requires e.Delta? && !e.empty && s.channel.connected && !s.open && StreamTook(s, p, [])
    ensures StreamTook(OnDelta(s, p, e), p, OffersOf(e, false))
  {
    var o, takes, lead := Offer(Scaffolding, e.opens), [e.first] + e.rest, Send(s.channel, p, e.opens, Scaffolding);
    TookOne(s.channel, p, [], o);
    assert [] + [o] == [o] && OffersOf(e, false) == [o] + Outputs(takes);
    if e.opens {
      TookAll(lead, p, [o], takes);
      SendAllStill(lead, p, takes);
    } else {
      TookNoMore(lead, p, [o], Outputs(takes));
    }
  }

  lemma Joined(os: seq<Offer>, mine: seq<Offer>, later: seq<Offer>)
    ensures (os + mine) + later == os + (mine + later)
    ensures os + mine != [] <==> os != [] || mine != []
  {
  }

  lemma {:induction false} FoldTook(s: Stream, p: nat, es: seq<StreamEvent>, os: seq<Offer>)
    requires StreamTook(s, p, os)
    ensures StreamTook(Fold(s, p, es), p, os + Offers(es, os != []))
    decreases |es|
  {
    if es == [] {
      assert os + [] == os;
    } else {
      match es[0]
      case Delta(empty, _, _, _) =>
        DeltaTook(s, p, es[0], os);
        FoldTook(OnDelta(s, p, es[0]), p, es[1..], os + OffersOf(es[0], os != []));
        Joined(os, OffersOf(es[0], os != []), Offers(es[1..], os != [] || !empty));
      case Reported(report) => FoldTook(s.(usage := Metered(report)), p, es[1..], os);
      case _ => assert os + [] == os;
    }
  }

  lemma {:induction false} LatestFirst(start: Option<Usage>, e: StreamEvent, es: seq<StreamEvent>)
    ensures Latest(start, [e] + es) == Latest(if e.Reported? then Counted(e.report) else start, es)
  {
    if es == [] {
      assert ([e] + es)[..0] == [];
    } else {
      var n := |es| - 1;
      assert ([e] + es)[..n + 1] == [e] + es[..n];
      LatestFirst(start, e, es[..n]);
    }
  }

  /** A stream's usage is the last report before it stopped; and it stops as its events say. */
  lemma {:induction false} FoldTells(s: Stream, p: nat, es: seq<StreamEvent>)
    requires s.cut.None? && !s.completed && s.broke.None?
    ensures var r := Fold(s, p, es);
      && r.usage == Latest(s.usage, es[..Stop(es)]) && (r.completed <==> EndsFinal(es)) && r.broke == Breaks(es)
      && r.cut == Cuts(es)
    decreases |es|
  {
    if es != [] && (es[0].Delta? || es[0].Reported?) {
      var rest, n := es[1..], Stop(es[1..]);
      assert es[..n + 1] == [es[0]] + rest[..n];
      LatestFirst(s.usage, es[0], rest[..n]);
      if es[0].Delta? {
        FoldTells(OnDelta(s, p, es[0]), p, rest);
      } else {
        FoldTells(s.(usage := Metered(es[0].report)), p, rest);
      }
    }
  }

  /** One live stream, whatever it yields: the client is sent its frames in order until one is refused, and it leaves
      behind its last report and the way it stopped. */
  lemma StreamLaw(w: Walk, p: nat, es: seq<StreamEvent>)
    requires Laws.Untouched(w.channel)
    ensures var s := Fold(FreshStream(w), p, es);
      && s.usage == Latest(None, es[..Stop(es)]) && (s.completed <==> EndsFinal(es)) && s.broke == Breaks(es)
      && s.cut == Cuts(es) && Received(s.channel.out, p, Offers(es, false))
      && (s.channel.delivery.sent <==> Delivers(Offers(es, false)))
      && (s.channel.delivery.attempted <==> Attempts(Offers(es, false)))
      && (s.channel.connected <==> Taken(Offers(es, false)) == |Offers(es, false)|)
      && (s.channel.connected ==> (s.open <==> Offers(es, false) != []))
  {
    FoldTells(FreshStream(w), p, es);
    FoldTook(FreshStream(w), p, es, []);
    assert [] + Offers(es, false) == Offers(es, false);
  }

  /** A stream that puts anything to the client puts output to it. */
  lemma {:induction false} OffersOutput(es: seq<StreamEvent>, begun: bool)
    ensures Offers(es, begun) != [] ==> AnyOutput(Offers(es, begun))
  {
    if es != [] && es[0].Delta? {
      OffersOutput(es[1..], begun || !es[0].empty);
      var mine, later := OffersOf(es[0], begun), Offers(es[1..], begun || !es[0].empty);
      assert forall o :: o in mine + later <==> o in mine || o in later;
      if !es[0].empty { assert mine[|mine| - 1].frame == ModelOutput && mine[|mine| - 1] in mine; }
    } else if es != [] && es[0].Reported? {
      OffersOutput(es[1..], begun);
    }
  }

  lemma NothingOffered(es: seq<StreamEvent>)
    ensures var os := Offers(es, false);
      os == [] <==> Taken(os) == |os| && !Delivers(os)
  {
    var os := Offers(es, false);
    OffersOutput(es, false);
    assert os[..|os|] == os;
  }

  // ---------------------------------------------------------------- what a call came to

  ghost function FailureAt(world: World, p: nat): Option<Failure> {
    if world.streams(p) then Breaks(world.events(p))
    else if world.chat(p).Refused? then Some(world.chat(p).failure)
    else None
  }

  ghost function CallAt(world: World, p: nat): Call {
    if world.streams(p) then
      Call(p, true, UsageAt(world, p), EndsFinal(world.events(p)), Breaks(world.events(p)),
           Cuts(world.events(p)).Some?)
    else
      match world.chat(p)
      case Answered(report, _, _) => Call(p, false, Counted(report), true, None, false)
      case Refused(f) => Call(p, false, None, false, Some(f), false)
      case _ => Call(p, false, None, false, None, true)
  }

  /** A failed call to the customer's key that its fallback covers. A live stream that just ended is covered, and
      one that broke is unless the account could not pay; a whole answer's refusal is unless it is a rate limit no
      retry helps and reads as nothing else. */
  ghost predicate Arms(world: World, route: seq<Rung>, p: nat, provider: string) {
    && p < |route| && route[p].credential == Byok && route[p].definition.provider == provider
    && match FailureAt(world, p)
       case None => true
       case Some(f) =>
         if world.streams(p) then !(f.rateLimited && f.accountCannotPay)
         else f.unattested || f.contextWindow || !(f.rateLimited && (f.accountCannotPay || f.clientError))
  }

  ghost predicate Earned(world: World, route: seq<Rung>, calls: seq<Call>, provider: string) {
    exists c :: c in calls && Arms(world, route, c.position, provider)
  }

  ghost predicate Unattested(world: World, calls: seq<Call>) {
    exists c :: c in calls && FailureAt(world, c.position).Some? && FailureAt(world, c.position).value.unattested
  }

  /** The parameter a call's refusal names, if it counts: any that broke a live stream does, and of a whole answer
      one whose retention guarantee was given, that is no overflow, that the client is to mend, and that is no rate
      limit. */
  ghost function Rejection(world: World, p: nat): Option<string> {
    match FailureAt(world, p)
    case None => None
    case Some(f) =>
      if world.streams(p) || (!f.unattested && !f.contextWindow && f.clientError && !f.rateLimited) then f.parameter
      else None
  }

  ghost predicate Rejects(world: World, calls: seq<Call>) {
    exists c :: c in calls && Rejection(world, c.position).Some?
  }

  /** The candidate of the last call, if there was one. */
  ghost predicate Names(route: seq<Rung>, calls: seq<Call>, d: Option<Definition>) {
    if calls == [] then d.None?
    else calls[|calls| - 1].position < |route| && d == Some(route[calls[|calls| - 1].position].definition)
  }

  // ---------------------------------------------------------------- candidate by candidate

  /** A twin that nothing has earned. */
  ghost predicate Awaits(world: World, route: seq<Rung>, before: seq<Call>, p: nat)
    requires p < |route|
  {
    route[p].credential == Twin && !Earned(world, route, before, route[p].definition.provider)
  }

  /** Unhealthy, with a call behind it or a candidate ahead. */
  ghost predicate Avoided(world: World, route: seq<Rung>, before: seq<Call>, p: nat) {
    world.skips(p) && (before != [] || p + 1 < |route|)
  }

  /** A call the walk goes on after: a whole answer was refused, or a live stream broke or ended before it had put
      anything to a client that is still there. */
  ghost predicate GaveUp(world: World, p: nat, mark: Mark) {
    if world.streams(p) then
      var es := world.events(p);
      && !EndsFinal(es) && Cuts(es).None? && Offers(es, false) == [] && !world.hangsUp(p)
      && mark == if Breaks(es).Some? && Breaks(es).value.rateLimited then Limited else StreamError
    else
      && world.chat(p).Refused?
      && mark == if world.chat(p).failure.rateLimited && !world.chat(p).failure.unattested then Limited
                 else UpstreamError
  }

  /** The row and the calls of a candidate the walk moved past. */
  ghost predicate MovedPast(world: World, route: seq<Rung>, before: seq<Call>, p: nat, row: Row, calls: seq<Call>)
    requires p < |route|
  {
    && row.definition == route[p].definition && !row.served
    && if Awaits(world, route, before, p) then row.mark == PolicySkipped && calls == []
       else
         && !world.closed(p)
         && if Avoided(world, route, before, p) then row.mark == HealthSkipped && calls == []
            else !world.late(p) && GaveUp(world, p, row.mark) && calls == [CallAt(world, p)]
  }

  /** The ledger of the candidates moved past, one row each, in route order. */
  ghost predicate Ledger(world: World, route: seq<Rung>, rows: seq<Row>, calls: seq<Call>, position: nat)
    requires position <= |route|
    decreases position
  {
    if position == 0 then rows == [] && calls == []
    else
      && |rows| == position
      && exists n: nat :: n <= |calls| && Ledger(world, route, rows[..position - 1], calls[..n], position - 1)
           && MovedPast(world, route, calls[..n], position - 1, rows[position - 1], calls[n..])
  }

  // ---------------------------------------------------------------- where it ends

  /** Ended at a live stream that was cut, ran to its terminal, or broke or ended after something had been put to the
      client or with the client gone. */
  ghost predicate LiveEnds(world: World, p: nat, row: Row, out: seq<Sent>, s: Settlement) {
    var es, usage := world.events(p), UsageAt(world, p);
    var os := if EndsFinal(es) && Offers(es, false) == [] then [Offer(Scaffolding, world.opensLate(p))]
              else Offers(es, false);
    var there := Taken(os) == |os| && !world.hangsUp(p);
    var reported := if usage.Some? then usage.value else Usage(0, 0);
    && Received(out, p, os) && (row.served <==> Delivers(os))
    && (if Cuts(es).Some? then
          var late := Cuts(es).value == Timeout;
          && row.mark == (if late then TimedOut else Aborted)
          && s.status == (if !there then 499 else if late then 504 else 503)
          && s.usage == (if Delivers(os) then reported else Usage(0, 0))
        else if EndsFinal(es) then
          && row.mark == Fine
          && s.status == (if usage.None? then 502 else if there then 200 else 499)
          && s.usage == (if Attempts(os) && !Delivers(os) then Usage(0, 0) else reported)
        else
          && (os != [] || world.hangsUp(p))
          && row.mark == (if Breaks(es).Some? && Breaks(es).value.rateLimited && !Delivers(os) then Limited
                          else StreamError)
          && s.status == (if there then 502 else 499)
          && s.usage == (if Delivers(os) then reported else Usage(0, 0)))
  }

  /** Ended at a whole answer, or in the call for one. */
  ghost predicate WholeEnds(world: World, p: nat, row: Row, out: seq<Sent>, s: Settlement) {
    match world.chat(p)
    case Drained(inFlight) =>
      && inFlight && out == [] && row.mark == Aborted && !row.served && s.usage == Usage(0, 0)
      && s.status == if world.hangsUp(p) then 499 else 503
    case Overran =>
      && out == [] && row.mark == TimedOut && !row.served && s.usage == Usage(0, 0)
      && s.status == if world.hangsUp(p) then 499 else 504
    case Answered(report, opens, pieces) =>
      row.mark == Fine && (
        match Counted(report)
        case None => out == [] && !row.served && s.usage == Usage(0, 0) && s.status == 502
        case Some(usage) =>
          && row.served && s.usage == usage && s.status == (if world.hangsUp(p) then 499 else 200)
          && Received(out, p, if world.stores then [Offer(Scaffolding, opens)] + Outputs(pieces) else []))
    case Refused(_) => false
  }

  /** Ended before a call: the client was gone, the deadline had passed, or the router drained. */
  ghost predicate IdleEnds(world: World, route: seq<Rung>, before: seq<Call>, p: nat, s: Settlement) {
    s.usage == Usage(0, 0) && Names(route, before, s.definition) &&
    if world.closed(p) then s.status == 499
    else
      && !Avoided(world, route, before, p)
      && if world.late(p) then s.status == if world.hangsUp(p) then 499 else 504
         else
           && !world.streams(p) && world.chat(p) == Drained(false)
           && s.status == if world.hangsUp(p) then 499 else 503
  }

  ghost predicate CallEnds(world: World, route: seq<Rung>, before: seq<Call>, p: nat, row: Row, out: seq<Sent>,
                           s: Settlement)
    requires p < |route|
  {
    && !world.closed(p) && !Avoided(world, route, before, p) && !world.late(p)
    && row.definition == route[p].definition && s.definition == Some(route[p].definition)
    && if world.streams(p) then LiveEnds(world, p, row, out, s) else WholeEnds(world, p, row, out, s)
  }

  ghost predicate EndsAt(world: World, route: seq<Rung>, before: seq<Call>, p: nat, rows: seq<Row>, calls: seq<Call>,
                         out: seq<Sent>, s: Settlement)
    requires p < |route|
  {
    && !Awaits(world, route, before, p)
    && if rows == [] then calls == [] && out == [] && IdleEnds(world, route, before, p, s)
       else |rows| == 1 && calls == [CallAt(world, p)] && CallEnds(world, route, before, p, rows[0], out, s)
  }

  /** Every candidate was moved past. A walk that called no one settles nothing. */
  ghost predicate RanOut(world: World, route: seq<Rung>, calls: seq<Call>, out: seq<Sent>,
                         settled: Option<Settlement>)
  {
    && out == [] && (settled.None? <==> calls == [])
    && (settled.Some? ==>
          && settled.value.usage == Usage(0, 0) && Names(route, calls, settled.value.definition)
          && settled.value.status == if !Unattested(world, calls) && Rejects(world, calls) then 400 else 502)
  }

  // ---------------------------------------------------------------- one visit

  /** What StreamLaw says of the stream of this candidate. */
  ghost predicate Relayed(world: World, p: nat, s: Stream) {
    var es, os := world.events(p), Offers(world.events(p), false);
    && s.usage == UsageAt(world, p) && (s.completed <==> EndsFinal(es)) && s.broke == Breaks(es) && s.cut == Cuts(es)
    && Took(s.channel, p, os) && (s.channel.connected <==> Taken(os) == |os|)
    && (s.channel.connected ==> (s.open <==> os != []))
  }

  /** The walk after a call: its row and its call, and what it has learnt. */
  ghost predicate Added(world: World, route: seq<Rung>, w: Walk, p: nat, w': Walk, row: Row)
    requires p < |route|
  {
    w'.rows == w.rows + [row] && w'.calls == w.calls + [CallAt(world, p)] && row.definition == route[p].definition
  }

  ghost predicate Learnt(world: World, route: seq<Rung>, w: Walk, p: nat, w': Walk)
    requires p < |route|
  {
    var provider, failure := route[p].definition.provider, FailureAt(world, p);
    && w'.last == Some(route[p].definition)
    && w'.armed == (if Arms(world, route, p, provider) then w.armed + {provider} else w.armed)
    && w'.retention == (w.retention || (failure.Some? && failure.value.unattested))
    && (w'.rejected.Some? <==> w.rejected.Some? || Rejection(world, p).Some?)
  }

  /** A call either moves the walk on, or ends it. */
  ghost predicate CallStep(world: World, route: seq<Rung>, w: Walk, p: nat, next: Next)
    requires p < |route|
  {
    match next
    case Onward(w') =>
      exists row :: Added(world, route, w, p, w', row) && Learnt(world, route, w, p, w') && !row.served
                    && GaveUp(world, p, row.mark)
    case Ended(w', s) =>
      exists row :: Added(world, route, w, p, w', row) && s.rows == w'.rows && s.definition == Some(route[p].definition)
                    && if world.streams(p) then LiveEnds(world, p, row, w'.channel.out, s)
                       else WholeEnds(world, p, row, w'.channel.out, s)
  }

  lemma CutStep(world: World, route: seq<Rung>, w: Walk, p: nat, s: Stream)
    requires p < |route| && world.streams(p) && Relayed(world, p, s) && s.cut.Some?
    requires s == Fold(FreshStream(w), p, world.events(p))
    ensures CallStep(world, route, w, p, Live(world, route, w, p))
  {
    var w' := Live(world, route, w, p).walk;
    assert Added(world, route, w, p, w', w'.rows[|w.rows|]);
  }

  lemma LateOpening(world: World, p: nat, ch: Channel)
    requires ch == Channel([], Delivery(false, false), true)
    ensures var o, opens := Offer(Scaffolding, world.opensLate(p)), world.opensLate(p);
      && Took(Send(ch, p, opens, Scaffolding), p, [o]) && (Taken([o]) == 1 <==> opens) && Taken([o]) <= 1
  {
    TookOne(ch, p, [], Offer(Scaffolding, world.opensLate(p)));
    assert [] + [Offer(Scaffolding, world.opensLate(p))] == [Offer(Scaffolding, world.opensLate(p))];
  }

  lemma CompletedStep(world: World, route: seq<Rung>, w: Walk, p: nat, s: Stream)
    requires p < |route| && world.streams(p) && Relayed(world, p, s) && s.cut.None? && s.completed
    requires s == Fold(FreshStream(w), p, world.events(p))
    ensures CallStep(world, route, w, p, Live(world, route, w, p))
  {
    var w' := Live(world, route, w, p).walk;
    if Offers(world.events(p), false) == [] { LateOpening(world, p, s.channel); }
    assert Added(world, route, w, p, w', w'.rows[|w.rows|]);
  }

  lemma BrokenStep(world: World, route: seq<Rung>, w: Walk, p: nat, s: Stream)
    requires p < |route| && world.streams(p) && Relayed(world, p, s) && s.cut.None? && !s.completed
    requires s == Fold(FreshStream(w), p, world.events(p))
    ensures CallStep(world, route, w, p, Live(world, route, w, p))
  {
    var w' := Live(world, route, w, p).walk;
    NothingOffered(world.events(p));
    assert Added(world, route, w, p, w', w'.rows[|w.rows|]);
  }

  lemma LiveStep(world: World, route: seq<Rung>, w: Walk, p: nat)
    requires p < |route| && world.streams(p) && Laws.Untouched(w.channel)
    ensures CallStep(world, route, w, p, Live(world, route, w, p))
  {
    var s := Fold(FreshStream(w), p, world.events(p));
    StreamLaw(w, p, world.events(p));
    if s.cut.Some? {
      CutStep(world, route, w, p, s);
    } else if s.completed {
      CompletedStep(world, route, w, p, s);
    } else {
      BrokenStep(world, route, w, p, s);
    }
  }

  lemma ReplayedTook(ch: Channel, p: nat, opens: bool, pieces: seq<bool>)
    requires ch == Channel([], Delivery(false, false), true)
    ensures var lead := Send(ch, p, opens, Scaffolding);
      Received((if opens then SendAll(lead, p, pieces) else lead).out, p, [Offer(Scaffolding, opens)] + Outputs(pieces))
  {
    var o, lead := Offer(Scaffolding, opens), Send(ch, p, opens, Scaffolding);
    TookOne(ch, p, [], o);
    assert [] + [o] == [o];
    if opens { TookAll(lead, p, [o], pieces); } else { TookNoMore(lead, p, [o], Outputs(pieces)); }
  }

  lemma WholeStep(world: World, route: seq<Rung>, w: Walk, p: nat)
    requires p < |route| && !world.streams(p) && Laws.Untouched(w.channel) && world.chat(p) != Drained(false)
    ensures CallStep(world, route, w, p, Whole(world, route, w, p))
  {
    var w' := Whole(world, route, w, p).walk;
    if world.chat(p).Answered? { ReplayedTook(w.channel, p, world.chat(p).opens, world.chat(p).pieces); }
    assert Added(world, route, w, p, w', w'.rows[|w.rows|]);
  }

  // ---------------------------------------------------------------- the whole run

  /** What the walk knows where it stands between candidates. */
  ghost predicate Knows(world: World, route: seq<Rung>, w: Walk) {
    && (forall provider :: provider in w.armed <==> Earned(world, route, w.calls, provider))
    && (w.retention <==> Unattested(world, w.calls)) && (w.rejected.Some? <==> Rejects(world, w.calls))
    && Names(route, w.calls, w.last)
  }

  ghost predicate Arrived(world: World, route: seq<Rung>, w: Walk, position: nat) {
    && Laws.Between(route, Laws.Anything(), w, position) && Knows(world, route, w)
    && Ledger(world, route, w.rows, w.calls, position)
  }

  lemma KnowsCall(world: World, route: seq<Rung>, w: Walk, p: nat, w': Walk)
    requires p < |route| && Knows(world, route, w) && Learnt(world, route, w, p, w')
    requires w'.calls == w.calls + [CallAt(world, p)]
    ensures Knows(world, route, w')
  {
    var c := CallAt(world, p);
    assert c.position == p;
    assert forall x :: x in w'.calls <==> x in w.calls || x == c;
    forall provider
      ensures Earned(world, route, w'.calls, provider) <==>
              Earned(world, route, w.calls, provider) || Arms(world, route, p, provider)
    {
    }
  }

  lemma LedgerPush(world: World, route: seq<Rung>, w: Walk, p: nat, row: Row, w': Walk)
    requires p < |route| && Ledger(world, route, w.rows, w.calls, p) && |w.rows| == p
    requires w'.rows == w.rows + [row] && w.calls <= w'.calls
    requires MovedPast(world, route, w.calls, p, row, w'.calls[|w.calls|..])
    ensures Ledger(world, route, w'.rows, w'.calls, p + 1)
  {
    assert w'.rows[..p] == w.rows && w'.calls[..|w.calls|] == w.calls;
  }

  lemma LedgerLong(world: World, route: seq<Rung>, rows: seq<Row>, calls: seq<Call>, position: nat)
    requires position <= |route| && Ledger(world, route, rows, calls, position)
    ensures |rows| == position
  {
  }

  /** Where the walk stands, the guards of a visit say who is passed over. */
  lemma GuardsMean(world: World, route: seq<Rung>, w: Walk, p: nat)
    requires p < |route| && Laws.Stands(w) && Knows(world, route, w)
    ensures Unearned(route[p], w.armed) <==> Awaits(world, route, w.calls, p)
    ensures HealthSkips(world.skips, route, w.last, p) <==> Avoided(world, route, w.calls, p)
  {
  }

  lemma SkipArrives(world: World, route: seq<Rung>, w: Walk, p: nat, mark: Mark)
    requires Arrived(world, route, w, p) && p < |route|
    requires if Awaits(world, route, w.calls, p) then mark == PolicySkipped
             else !world.closed(p) && Avoided(world, route, w.calls, p) && mark == HealthSkipped
    ensures Arrived(world, route, Skip(w, route[p].definition, mark), p + 1)
  {
    var d, w' := route[p].definition, Skip(w, route[p].definition, mark);
    LedgerLong(world, route, w.rows, w.calls, p);
    Laws.RowServed(w.rows, d, mark, false);
    assert w'.calls[|w.calls|..] == [];
    LedgerPush(world, route, w, p, w'.rows[|w.rows|], w');
  }

  /** The visit goes as far as the call. */
  ghost predicate Reached(world: World, route: seq<Rung>, w: Walk, p: nat)
    requires p < |route|
  {
    && !Awaits(world, route, w.calls, p) && !world.closed(p) && !Avoided(world, route, w.calls, p) && !world.late(p)
    && (world.streams(p) || world.chat(p) != Drained(false))
  }

  lemma VisitCalls(world: World, route: seq<Rung>, w: Walk, p: nat)
    requires Arrived(world, route, w, p) && p < |route| && Reached(world, route, w, p)
    ensures CallStep(world, route, w, p, Visit(world, route, w, p))
  {
    GuardsMean(world, route, w, p);
    if world.streams(p) { LiveStep(world, route, w, p); } else { WholeStep(world, route, w, p); }
  }

  lemma CallArrives(world: World, route: seq<Rung>, w: Walk, p: nat, w': Walk)
    requires Arrived(world, route, w, p) && p < |route| && Reached(world, route, w, p)
    requires Visit(world, route, w, p) == Onward(w')
    ensures Arrived(world, route, w', p + 1)
  {
    VisitCalls(world, route, w, p);
    var row :| Added(world, route, w, p, w', row) && Learnt(world, route, w, p, w') && !row.served
               && GaveUp(world, p, row.mark);
    Laws.VisitKeeps(world, route, Laws.Anything(), w, p);
    KnowsCall(world, route, w, p, w');
    LedgerLong(world, route, w.rows, w.calls, p);
    assert w'.calls[|w.calls|..] == [CallAt(world, p)];
    LedgerPush(world, route, w, p, row, w');
  }

  /** Stopped at this candidate, with so many calls behind it. */
  ghost predicate Stopped(world: World, route: seq<Rung>, f: Finish, p: nat, behind: nat) {
    var rows, calls := f.walk.rows, f.walk.calls;
    && p < |route| && p <= |rows| && behind <= |calls| && f.settled.Some?
    && Ledger(world, route, rows[..p], calls[..behind], p)
    && EndsAt(world, route, calls[..behind], p, rows[p..], calls[behind..], f.walk.channel.out, f.settled.value)
  }

  /** Where a run ended: which candidates it moved past, and what became of the one it ended at, if any. */
  ghost predicate EndedAt(world: World, route: seq<Rung>, f: Finish, reach: nat) {
    && reach <= |route| && (f.settled.Some? ==> f.settled.value.rows == f.walk.rows)
    && if reach == |route| then
         && Ledger(world, route, f.walk.rows, f.walk.calls, reach)
         && RanOut(world, route, f.walk.calls, f.walk.channel.out, f.settled)
       else exists behind :: Stopped(world, route, f, reach, behind)
  }

  lemma IdleEnd(world: World, route: seq<Rung>, w: Walk, p: nat)
    requires Arrived(world, route, w, p) && p < |route| && Visit(world, route, w, p).Ended?
    requires !Reached(world, route, w, p)
    ensures var next := Visit(world, route, w, p);
      && next.walk == w && next.settlement.rows == w.rows
      && EndsAt(world, route, w.calls, p, [], [], w.channel.out, next.settlement)
  {
    GuardsMean(world, route, w, p);
  }

  lemma CallEnd(world: World, route: seq<Rung>, w: Walk, p: nat)
    requires Arrived(world, route, w, p) && p < |route| && Visit(world, route, w, p).Ended?
    requires Reached(world, route, w, p)
    ensures var next := Visit(world, route, w, p);
      && w.rows <= next.walk.rows && w.calls <= next.walk.calls && next.settlement.rows == next.walk.rows
      && EndsAt(world, route, w.calls, p, next.walk.rows[|w.rows|..], next.walk.calls[|w.calls|..],
                next.walk.channel.out, next.settlement)
  {
    VisitCalls(world, route, w, p);
    var next := Visit(world, route, w, p);
    assert next.walk.rows[|w.rows|..] == [next.walk.rows[|w.rows|]];
    assert next.walk.calls[|w.calls|..] == [CallAt(world, p)];
  }

  lemma VisitEnds(world: World, route: seq<Rung>, w: Walk, p: nat)
    requires Arrived(world, route, w, p) && p < |route| && Visit(world, route, w, p).Ended?
    ensures var next := Visit(world, route, w, p);
      EndedAt(world, route, Finish(next.walk, Some(next.settlement)), p)
  {
    var next := Visit(world, route, w, p);
    var w' := next.walk;
    LedgerLong(world, route, w.rows, w.calls, p);
    if Reached(world, route, w, p) {
      CallEnd(world, route, w, p);
    } else {
      IdleEnd(world, route, w, p);
      assert w'.rows[p..] == [] && w'.calls[|w.calls|..] == [];
    }
    assert w'.rows[..p] == w.rows && w'.calls[..|w.calls|] == w.calls;
    assert Stopped(world, route, Finish(w', Some(next.settlement)), p, |w.calls|);
  }

  lemma VisitArrives(world: World, route: seq<Rung>, w: Walk, p: nat)
    requires Arrived(world, route, w, p) && p < |route| && Visit(world, route, w, p).Onward?
    ensures Arrived(world, route, Visit(world, route, w, p).walk, p + 1)
  {
    GuardsMean(world, route, w, p);
    if Awaits(world, route, w.calls, p) {
      SkipArrives(world, route, w, p, PolicySkipped);
    } else if Avoided(world, route, w.calls, p) {
      SkipArrives(world, route, w, p, HealthSkipped);
    } else {
      CallArrives(world, route, w, p, Visit(world, route, w, p).walk);
    }
  }

  lemma RunsOut(world: World, route: seq<Rung>, w: Walk)
    requires Arrived(world, route, w, |route|)
    ensures EndedAt(world, route, Exhausted(w), |route|)
  {
    LedgerLong(world, route, w.rows, w.calls, |route|);
  }

  lemma {:induction false} FromEnds(world: World, route: seq<Rung>, w: Walk, p: nat) returns (reach: nat)
    requires Arrived(world, route, w, p)
    ensures EndedAt(world, route, From(world, route, w, p), reach)
    decreases |route| - p
  {
    reach := p;
    if p == |route| {
      RunsOut(world, route, w);
    } else {
      var next := Visit(world, route, w, p);
      if next.Onward? {
        VisitArrives(world, route, w, p);
        reach := FromEnds(world, route, next.walk, p + 1);
      } else {
        VisitEnds(world, route, w, p);
      }
    }
  }

  /** Every streaming run, said of the world alone. The candidates are taken in route order, and those moved past
      are a twin that nothing has earned, an unhealthy one with a call behind it or a candidate ahead, or one whose
      call failed before anything had been put to the client. The run ends at the first of any other kind, in one of
      the ways `EndsAt` lists, each with its frames, its row, its usage and its status; or, with every candidate
      moved past, as `RanOut` says. */
  lemma RunLaw(world: World, route: seq<Rung>) returns (reach: nat)
    ensures EndedAt(world, route, Run(world, route), reach)
  {
    reach := FromEnds(world, route, StartWalk(), 0);
  }

  // ---------------------------------------------------------------- what is billed

  /** What a call is charged: a live one the last report before its stream stopped, if output reached the client or the
      stream ran to its terminal with none tried; a whole answer what it reports. */
  ghost function ChargeAt(world: World, p: nat): Usage {
    var reported :=
      if world.streams(p) then
        var es, os := world.events(p), Offers(world.events(p), false);
        if Delivers(os) || (EndsFinal(es) && !Attempts(os)) then UsageAt(world, p) else None
      else if world.chat(p).Answered? then Counted(world.chat(p).report)
      else None;
    if reported.Some? then reported.value else Usage(0, 0)
  }

  lemma NothingCharged(world: World, p: nat, mark: Mark)
    requires GaveUp(world, p, mark)
    ensures ChargeAt(world, p) == Usage(0, 0)
  {
    NothingOffered(world.events(p));
  }

  /** The last candidate moved past, and those before. */
  lemma LedgerSplits(world: World, route: seq<Rung>, rows: seq<Row>, calls: seq<Call>, position: nat) returns (n: nat)
    requires 0 < position <= |route| && Ledger(world, route, rows, calls, position)
    ensures n <= |calls| && |rows| == position && Ledger(world, route, rows[..position - 1], calls[..n], position - 1)
    ensures MovedPast(world, route, calls[..n], position - 1, rows[position - 1], calls[n..])
  {
    n :| n <= |calls| && Ledger(world, route, rows[..position - 1], calls[..n], position - 1)
         && MovedPast(world, route, calls[..n], position - 1, rows[position - 1], calls[n..]);
  }

  lemma MovedCharge(world: World, route: seq<Rung>, before: seq<Call>, p: nat, row: Row, calls: seq<Call>)
    requires p < |route| && MovedPast(world, route, before, p, row, calls) && calls != []
    ensures ChargeAt(world, calls[|calls| - 1].position) == Usage(0, 0)
  {
    NothingCharged(world, p, row.mark);
    assert CallAt(world, p).position == p;
  }

  /** A call the walk went on after is charged nothing. */
  lemma {:induction false} LastGaveUp(world: World, route: seq<Rung>, rows: seq<Row>, calls: seq<Call>, position: nat)
    requires position <= |route| && Ledger(world, route, rows, calls, position) && calls != []
    ensures ChargeAt(world, calls[|calls| - 1].position) == Usage(0, 0)
    decreases position
  {
    if position > 0 {
      var n := LedgerSplits(world, route, rows, calls, position);
      var last := calls[n..];
      if last == [] {
        assert calls[..n] == calls;
        LastGaveUp(world, route, rows[..position - 1], calls, position - 1);
      } else {
        MovedCharge(world, route, calls[..n], position - 1, rows[position - 1], last);
        assert calls[|calls| - 1] == last[|last| - 1];
      }
    }
  }

  lemma OneOpening(world: World, p: nat)
    ensures var os := [Offer(Scaffolding, world.opensLate(p))];
      !Delivers(os) && !Attempts(os) && !Delivers([]) && !Attempts([])
  {
    LateOpening(world, p, Channel([], Delivery(false, false), true));
    var os := [Offer(Scaffolding, world.opensLate(p))];
    forall o, n: nat | n <= |os| && o in os[..n] ensures o.frame == Scaffolding { assert o in os; }
  }

  lemma CallCharges(world: World, route: seq<Rung>, before: seq<Call>, p: nat, row: Row, out: seq<Sent>, s: Settlement)
    requires p < |route| && CallEnds(world, route, before, p, row, out, s)
    ensures s.usage == ChargeAt(world, p)
  {
    OneOpening(world, p);
  }

  ghost function Charge(world: World, calls: seq<Call>): Usage {
    if calls == [] then Usage(0, 0) else ChargeAt(world, calls[|calls| - 1].position)
  }

  lemma RunOutCharges(world: World, route: seq<Rung>, rows: seq<Row>, calls: seq<Call>, position: nat)
    requires position <= |route| && Ledger(world, route, rows, calls, position)
    ensures Charge(world, calls) == Usage(0, 0)
  {
    if calls != [] { LastGaveUp(world, route, rows, calls, position); }
  }

  lemma StopCharges(world: World, route: seq<Rung>, before: seq<Call>, p: nat, done: seq<Row>, rows: seq<Row>,
                    calls: seq<Call>, out: seq<Sent>, s: Settlement)
    requires p < |route| && Ledger(world, route, done, before, p)
    requires EndsAt(world, route, before, p, rows, calls, out, s)
    ensures s.usage == Charge(world, before + calls) && Names(route, before + calls, s.definition)
  {
    if rows == [] {
      assert before + calls == before;
      RunOutCharges(world, route, done, before, p);
    } else {
      CallCharges(world, route, before, p, rows[0], out, s);
      assert CallAt(world, p).position == p;
    }
  }

  lemma StoppedCharges(world: World, route: seq<Rung>, f: Finish, p: nat, behind: nat)
    requires Stopped(world, route, f, p, behind)
    ensures f.settled.value.usage == Charge(world, f.walk.calls)
    ensures Names(route, f.walk.calls, f.settled.value.definition)
  {
    var rows, calls := f.walk.rows, f.walk.calls;
    var before, last := calls[..behind], calls[behind..];
    StopCharges(world, route, before, p, rows[..p], rows[p..], last, f.walk.channel.out, f.settled.value);
    assert before + last == calls;
  }

  lemma EndCharges(world: World, route: seq<Rung>, f: Finish, reach: nat)
    requires EndedAt(world, route, f, reach) && f.settled.Some?
    ensures f.settled.value.usage == Charge(world, f.walk.calls)
    ensures Names(route, f.walk.calls, f.settled.value.definition)
  {
    if reach == |route| {
      RunOutCharges(world, route, f.walk.rows, f.walk.calls, reach);
    } else {
      var behind :| Stopped(world, route, f, reach, behind);
      StoppedCharges(world, route, f, reach, behind);
    }
  }

  /** What is billed is the charge of the last call, under its candidate's name; no call is no charge. */
  lemma BillingLaw(world: World, route: seq<Rung>)
    ensures var f := Run(world, route);
      f.settled.Some? ==>
        && f.settled.value.usage == Charge(world, f.walk.calls)
        && Names(route, f.walk.calls, f.settled.value.definition)
  {
    var reach := RunLaw(world, route);
    if Run(world, route).settled.Some? { EndCharges(world, route, Run(world, route), reach); }
  }
}
