/** What the two candidate walks share: how an upstream failure is read, what is recorded of an attempt,
    and the one repair a walk may make to the prompt. */
module Walking {
  import opened Ordering
  import opened Sequences
  import opened Wrappers

  /** What the error text of one failure says. */
  datatype Failure = Failure(unattested: bool, contextWindow: bool, rateLimited: bool, accountCannotPay: bool,
                             clientError: bool, parameter: Option<string>)

  datatype FailureClass =
    | Retryable
    | RateLimited
    | RateLimitedNonRetryable
    | NonRetryable
    | ContextWindow(limited: bool)
    | RetentionAttestation
  {
    predicate IsNonRetryable() {
      NonRetryable? || RateLimitedNonRetryable? || RetentionAttestation?
    }

    predicate IsRateLimited() {
      RateLimited? || RateLimitedNonRetryable?
    }

    /** The customer's own spending limit is not a failure the opt-in covers. */
    predicate PermitsByokFallback() {
      !RateLimitedNonRetryable?
    }
  }

  /** A 429 that says the account cannot pay. */
  predicate AccountRefused(f: Failure) {
    f.rateLimited && f.accountCannotPay
  }

  function Classify(f: Failure, truncated: bool): FailureClass {
    if f.unattested then RetentionAttestation
    else if !truncated && f.contextWindow then ContextWindow(f.rateLimited)
    else if f.clientError || AccountRefused(f) then (if f.rateLimited then RateLimitedNonRetryable else NonRetryable)
    else if f.rateLimited then RateLimited
    else Retryable
  }

  datatype Mark =
    | Fine
    | PolicySkipped
    | HealthSkipped
    | Aborted
    | TimedOut
    | ValidationFailed
    | Limited
    | UpstreamError
    | StreamError

  function MarkOf(class_: FailureClass): Mark {
    if class_.IsRateLimited() || (class_.ContextWindow? && class_.limited) then Limited else UpstreamError
  }

  /** One row of the walk ledger. */
  datatype Row = Row(number: nat, definition: Definition, mark: Mark, served: bool)

  ghost predicate Numbered(rows: seq<Row>) {
    forall i :: 0 <= i < |rows| ==> rows[i].number == i + 1
  }

  ghost predicate NoneServed(rows: seq<Row>) {
    forall r :: r in rows ==> !r.served
  }

  /** At most the last row is served. */
  ghost predicate OnlyLastServed(rows: seq<Row>) {
    forall i :: 0 <= i < |rows| && rows[i].served ==> i == |rows| - 1
  }

  function Pushed(rows: seq<Row>, d: Definition, mark: Mark, served: bool): seq<Row> {
    rows + [Row(|rows| + 1, d, mark, served)]
  }

  predicate Skipped(r: Row) {
    r.mark == PolicySkipped || r.mark == HealthSkipped
  }

  /** How many rows stand for an upstream call. */
  function Tried(rows: seq<Row>): nat {
    if rows == [] then 0 else Tried(rows[..|rows| - 1]) + (if Skipped(rows[|rows| - 1]) then 0 else 1)
  }

  lemma TriedPush(rows: seq<Row>, r: Row)
    ensures Tried(rows + [r]) == Tried(rows) + (if Skipped(r) then 0 else 1)
  {
    assert (rows + [r])[..|rows|] == rows;
  }

  // ---------------------------------------------------------------- passing over

  /** A twin whose provider no failure of the customer's key has armed. */
  predicate Unearned(c: Rung, armed: set<string>) {
    c.credential == Twin && c.definition.provider !in armed
  }

  /** A skip is taken only where the walk has been somewhere already or has somewhere left to go. */
  predicate HealthSkips(skips: nat -> bool, route: seq<Rung>, last: Option<Definition>, position: nat) {
    skips(position) && (last.Some? || position + 1 < |route|)
  }

  // ---------------------------------------------------------------- what is settled

  datatype Usage = Usage(prompt: nat, completion: nat)

  const UNMETERED := Usage(0, 0)

  datatype Settlement = Settlement(definition: Option<Definition>, usage: Usage, status: nat, rows: seq<Row>)

  /** A usage report that counts nothing is no report. */
  function Metered(report: Option<Usage>): (u: Option<Usage>)
    ensures u.Some? ==> u.value != UNMETERED
  {
    if report == Some(UNMETERED) then None else report
  }

  // ---------------------------------------------------------------- the prompt

  datatype Message = Message(system: bool, text: string)

  /** One side of the conversation. */
  function Kept(messages: seq<Message>, system: bool): seq<Message> {
    if messages == [] then []
    else (if messages[0].system == system then [messages[0]] else []) + Kept(messages[1..], system)
  }

  /** The prompt without its n oldest messages that are not the system's. */
  function Dropped(messages: seq<Message>, n: nat): seq<Message> {
    if messages == [] || n == 0 then messages
    else if messages[0].system then [messages[0]] + Dropped(messages[1..], n)
    else Dropped(messages[1..], n - 1)
  }

  function DropCount(messages: seq<Message>): nat {
    |Kept(messages, false)| / 2
  }

  function Truncated(messages: seq<Message>): seq<Message> {
    Dropped(messages, DropCount(messages))
  }

  lemma {:induction false} DroppedKeeps(messages: seq<Message>, n: nat)
    requires n <= |Kept(messages, false)|
    ensures Kept(Dropped(messages, n), true) == Kept(messages, true)
    ensures Kept(Dropped(messages, n), false) == Kept(messages, false)[n..]
  {
    if messages == [] || n == 0 {
    } else {
      var m, rest := messages[0], messages[1..];
      var turns, system := Kept(rest, false), Kept(rest, true);
      assert messages == [m] + rest;
      KeptCons(m, rest, true);
      KeptCons(m, rest, false);
      if m.system {
        DroppedKeeps(rest, n);
        var less := Dropped(rest, n);
        assert Dropped(messages, n) == [m] + less;
        KeptCons(m, less, true);
        KeptCons(m, less, false);
        assert [] + turns == turns && [] + turns[n..] == turns[n..];
      } else {
        DroppedKeeps(rest, n - 1);
        assert Dropped(messages, n) == Dropped(rest, n - 1);
        assert ([m] + turns)[n..] == turns[n - 1..] && [] + system == system;
      }
    }
  }

  lemma KeptCons(m: Message, rest: seq<Message>, system: bool)
    ensures Kept([m] + rest, system) == (if m.system == system then [m] else []) + Kept(rest, system)
  {
    assert ([m] + rest)[1..] == rest;
  }

  lemma {:induction false} DroppedCut(messages: seq<Message>, n: nat) returns (cut: nat)
    requires n <= |Kept(messages, false)|
    ensures cut <= |messages| && |Kept(messages[..cut], false)| == n
    ensures Dropped(messages, n) == Kept(messages[..cut], true) + messages[cut..]
  {
    cut := 0;
    if messages == [] || n == 0 {
      assert [] + messages == messages;
    } else {
      var m, rest := messages[0], messages[1..];
      assert messages == [m] + rest;
      KeptCons(m, rest, false);
      var sub := DroppedCut(rest, if m.system then n else n - 1);
      cut := sub + 1;
      assert messages[..cut] == [m] + rest[..sub] && messages[cut..] == rest[sub..];
      KeptCons(m, rest[..sub], true);
      KeptCons(m, rest[..sub], false);
      assert ([m] + Kept(rest[..sub], true)) + rest[sub..] == [m] + (Kept(rest[..sub], true) + rest[sub..]);
      assert [] + Kept(rest[..sub], true) == Kept(rest[..sub], true);
    }
  }

  /** Truncation cuts the prompt where half its turns lie before the cut, rounded down: of what is before only the
      system messages stay, and what is behind stays as it is. So the last turn is never lost, and the prompt is
      unchanged exactly when there is one turn at most. */
  lemma TruncationLaw(messages: seq<Message>) returns (cut: nat)
    ensures var turns, rest := Kept(messages, false), Truncated(messages);
      && cut <= |messages| && rest == Kept(messages[..cut], true) + messages[cut..]
      && |Kept(messages[..cut], false)| == |turns| / 2
      && Kept(rest, true) == Kept(messages, true) && Kept(rest, false) == turns[|turns| / 2..]
      && (turns != [] ==> Kept(rest, false) != [] && Kept(rest, false)[|Kept(rest, false)| - 1] == turns[|turns| - 1])
      && (rest == messages <==> |turns| <= 1)
  {
    DroppedKeeps(messages, DropCount(messages));
    cut := DroppedCut(messages, DropCount(messages));
  }

  lemma DropMeans(messages: seq<Message>)
    ensures DropCount(messages) == |Kept(messages, false)| / 2
    ensures DropCount(messages) == 0 <==> |Kept(messages, false)| <= 1
    ensures DropCount(messages) == 0 <==> Truncated(messages) == messages
  {
    var cut := TruncationLaw(messages);
  }

  lemma {:induction false} KeptPush(messages: seq<Message>, m: Message, system: bool)
    ensures Kept(messages + [m], system) == Kept(messages, system) + (if m.system == system then [m] else [])
  {
    var last := if m.system == system then [m] else [];
    if messages == [] {
      assert messages + [m] == [m] + [];
      KeptCons(m, [], system);
    } else {
      var head, rest := messages[0], messages[1..];
      assert messages == [head] + rest && messages + [m] == [head] + (rest + [m]);
      KeptPush(rest, m, system);
      KeptCons(head, rest + [m], system);
      KeptCons(head, rest, system);
      Associates(if head.system == system then [head] else [], Kept(rest, system), last);
    }
  }

  /** System messages in front are passed over. */
  lemma {:induction false} DroppedOver(front: seq<Message>, rest: seq<Message>, n: nat)
    requires forall m :: m in front ==> m.system
    ensures Dropped(front + rest, n) == front + Dropped(rest, n)
  {
    if front == [] {
      assert front + rest == rest;
    } else {
      assert (front + rest)[1..] == front[1..] + rest;
      assert front[0] in front;
      DroppedOver(front[1..], rest, n);
    }
  }

  /** The positions of the turns, oldest first. */
  ghost predicate TurnsOf(messages: seq<Message>, turns: seq<nat>) {
    && |turns| == |Kept(messages, false)|
    && (forall k :: 0 <= k < |turns| ==> turns[k] < |messages| && !messages[turns[k]].system)
    && (forall k :: 0 <= k < |turns| - 1 ==> turns[k] < turns[k + 1])
    && (forall j: nat :: j < |messages| && !messages[j].system ==> j in turns)
  }

  method FindTurns(messages: seq<Message>) returns (turns: seq<nat>)
    ensures TurnsOf(messages, turns)
  {
    turns := [];
    var i := 0;
    while i < |messages|
      invariant 0 <= i <= |messages| && TurnsOf(messages[..i], turns)
    {
      var m := messages[i];
      assert messages[..i + 1] == messages[..i] + [m];
      KeptPush(messages[..i], m, false);
      if !m.system { turns := turns + [i]; }
      i := i + 1;
    }
    assert messages[..i] == messages;
  }

  /** The prompt once only the turns from the k-th on have been removed, of the oldest ones to go. */
  function Partly(messages: seq<Message>, turn: nat, left: nat): seq<Message>
    requires turn <= |messages|
  {
    messages[..turn] + Dropped(messages[turn..], left)
  }

  /** Taking out one turn after another, from the newest to go back to the oldest, takes them all out. */
  ghost predicate Removable(messages: seq<Message>, turns: seq<nat>, dropped: nat) {
    && dropped < |turns| && (forall k :: 0 <= k < |turns| ==> turns[k] < |messages|)
    && Dropped(messages, dropped) == Partly(messages, turns[0], dropped)
    && forall k :: 0 <= k < dropped ==>
         (var rest := Partly(messages, turns[k + 1], dropped - k - 1);
          turns[k] < |rest| && rest[..turns[k]] + rest[turns[k] + 1..] == Partly(messages, turns[k], dropped - k))
  }

  lemma OldestRemovable(messages: seq<Message>, turns: seq<nat>, dropped: nat)
    requires TurnsOf(messages, turns) && dropped < |turns|
    ensures Removable(messages, turns, dropped)
  {
    forall k | 0 <= k < dropped
      ensures var rest := Partly(messages, turns[k + 1], dropped - k - 1);
        turns[k] < |rest| && rest[..turns[k]] + rest[turns[k] + 1..] == Partly(messages, turns[k], dropped - k)
    {
      DropOne(messages, turns, k, dropped);
    }
    FirstTurn(messages, turns, dropped);
  }

  method RemoveOldest(messages: seq<Message>, turns: seq<nat>, dropped: nat) returns (rest: seq<Message>)
    requires Removable(messages, turns, dropped)
    ensures rest == Dropped(messages, dropped)
  {
    rest := messages;
    var k: nat := dropped;
    assert Partly(messages, turns[k], 0) == messages;
    while k > 0
      invariant 0 <= k <= dropped && rest == Partly(messages, turns[k], dropped - k)
    {
      k := k - 1;
      rest := rest[..turns[k]] + rest[turns[k] + 1..];
    }
  }

  /** Drop the oldest half of the turns, and report how many went. */
  method TruncateForContext(messages: seq<Message>) returns (rest: seq<Message>, dropped: nat)
    ensures rest == Truncated(messages)
    ensures dropped == |Kept(messages, false)| / 2
  {
    var turns := FindTurns(messages);
    rest, dropped := messages, 0;
    if |turns| <= 1 { return; }
    dropped := |turns| / 2;
    OldestRemovable(messages, turns, dropped);
    rest := RemoveOldest(messages, turns, dropped);
  }

  lemma FirstTurn(messages: seq<Message>, turns: seq<nat>, dropped: nat)
    requires TurnsOf(messages, turns) && turns != []
    ensures Dropped(messages, dropped) == messages[..turns[0]] + Dropped(messages[turns[0]..], dropped)
  {
    var front := messages[..turns[0]];
    TurnsSorted(turns);
    forall m | m in front ensures m.system {
      var j :| 0 <= j < |front| && front[j] == m;
      assert messages[j] == m;
    }
    DroppedOver(front, messages[turns[0]..], dropped);
    assert messages == front + messages[turns[0]..];
  }

  lemma TurnsSorted(turns: seq<nat>)
    requires forall k :: 0 <= k < |turns| - 1 ==> turns[k] < turns[k + 1]
    ensures forall a, b :: 0 <= a < b < |turns| ==> turns[a] < turns[b]
  {
    if turns != [] {
      var front := turns[..|turns| - 1];
      TurnsSorted(front);
      forall a, b | 0 <= a < b < |turns| ensures turns[a] < turns[b] {
        assert front[a] == turns[a];
        if b == |turns| - 1 && a < b - 1 { assert front[b - 1] == turns[b - 1]; }
        if b < |turns| - 1 { assert front[b] == turns[b]; }
      }
    }
  }

  /** Between one turn and the next there are only system messages. */
  lemma Between(messages: seq<Message>, turns: seq<nat>, k: nat)
    requires k + 1 < |turns| && TurnsOf(messages, turns)
    ensures turns[k] < turns[k + 1]
    ensures forall m :: m in messages[turns[k] + 1..turns[k + 1]] ==> m.system
  {
    TurnsSorted(turns);
    var a, b := turns[k], turns[k + 1];
    var between := messages[a + 1..b];
    forall m | m in between ensures m.system {
      var j :| 0 <= j < |between| && between[j] == m;
      assert messages[a + 1 + j] == m;
      forall t | 0 <= t < |turns| ensures turns[t] <= a || turns[t] >= b {
        assert t <= k || t >= k + 1;
      }
    }
  }

  /** Removing one more turn, the next older one. */
  lemma DropOne(messages: seq<Message>, turns: seq<nat>, k: nat, dropped: nat)
    requires k < dropped < |turns| && TurnsOf(messages, turns)
    ensures var rest := messages[..turns[k + 1]] + Dropped(messages[turns[k + 1]..], dropped - k - 1);
      turns[k] < |rest| && rest[..turns[k]] + rest[turns[k] + 1..] ==
        messages[..turns[k]] + Dropped(messages[turns[k]..], dropped - k)
  {
    Between(messages, turns, k);
    Respliced(messages, turns[k], turns[k + 1], dropped - k - 1);
  }

  lemma Respliced(messages: seq<Message>, a: nat, b: nat, n: nat)
    requires a < b < |messages| && !messages[a].system && forall m :: m in messages[a + 1..b] ==> m.system
    ensures var rest := messages[..b] + Dropped(messages[b..], n);
      a < |rest| && rest[..a] + rest[a + 1..] == messages[..a] + Dropped(messages[a..], n + 1)
  {
    var between, later := messages[a + 1..b], messages[b..];
    DroppedOver(between, later, n);
    var rest := messages[..b] + Dropped(later, n);
    assert messages[..b] == messages[..a] + [messages[a]] + between;
    assert rest == messages[..a] + [messages[a]] + (between + Dropped(later, n));
    assert rest[..a] == messages[..a];
    assert rest[a + 1..] == between + Dropped(later, n);
    assert messages[a..][1..] == messages[a + 1..] == between + later;
  }
}
