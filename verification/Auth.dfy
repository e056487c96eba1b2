/** Inference keys: the authenticator and its cache, over a key table that changes under it. */
module Auth {
  import opened Texts
  import opened Wrappers

  /** A digest as lower-case hex. Hashing is injective here. */
  datatype Digest = Digest(of: string)

  datatype Identity = Identity(id: nat, user: nat, priority: Option<string>, retention: string)

  /** One row of `api_keys`. Times are in milliseconds. */
  datatype KeyRow = KeyRow(hash: Digest, identity: Identity, disabled: bool, deadline: Option<int>)

  datatype CacheEntry = CacheEntry(key: Identity, expiresAt: int)

  const CACHE_TTL := 30000

  // ---------------------------------------------------------------- shape and comparison

  predicate IsHexDigit(c: char) {
    '0' <= c <= '9' || 'a' <= c <= 'f' || 'A' <= c <= 'F'
  }

  const KEY_PREFIX := "zcr_"

  predicate ValidKeyShape(token: string) {
    |token| == 68 && token[..4] == KEY_PREFIX && forall i :: 4 <= i < 68 ==> IsHexDigit(token[i])
  }

  function HexDigit(n: nat): char
    requires n < 16
  {
    "0123456789abcdef"[n]
  }

  /** Two lower-case digits a byte. */
  function Hex(bytes: seq<nat>): (s: string)
    requires forall i :: 0 <= i < |bytes| ==> bytes[i] < 256
    ensures |s| == 2 * |bytes|
  {
    if bytes == [] then []
    else
      var front, last := bytes[..|bytes| - 1], bytes[|bytes| - 1];
      Hex(front) + [HexDigit(last / 16), HexDigit(last % 16)]
  }

  /** A new key over thirty-two random bytes. */
  method GenerateApiKey(bytes: seq<nat>) returns (token: string)
    requires |bytes| == 32 && forall i :: 0 <= i < |bytes| ==> bytes[i] < 256
    ensures token == "zcr_" + Hex(bytes)
    ensures ValidKeyShape(token)
  {
    token := KEY_PREFIX;
    var i := 0;
    while i < |bytes|
      invariant 0 <= i <= |bytes| && token == KEY_PREFIX + Hex(bytes[..i])
    {
      assert bytes[..i + 1][..i] == bytes[..i];
      token := token + [HexDigit(bytes[i] / 16), HexDigit(bytes[i] % 16)];
      i := i + 1;
    }
    assert bytes[..i] == bytes;
    HexDigits(bytes);
  }

  function HexValue(c: char): (n: nat)
    requires IsHexDigit(c)
    ensures n < 16 && HexDigit(n) == ToLower(c)
  {
    if c <= '9' then c as int - '0' as int
    else if c <= 'F' then c as int - 'A' as int + 10
    else c as int - 'a' as int + 10
  }

  lemma {:induction false} HexDigits(bytes: seq<nat>)
    requires forall i :: 0 <= i < |bytes| ==> bytes[i] < 256
    ensures forall i :: 0 <= i < |Hex(bytes)| ==> IsHexDigit(Hex(bytes)[i])
  {
    if bytes == [] {
    } else {
      HexDigits(bytes[..|bytes| - 1]);
    }
  }

  lemma HexPush(bytes: seq<nat>, a: char, b: char) returns (more: seq<nat>)
    requires (forall i :: 0 <= i < |bytes| ==> bytes[i] < 256) && IsHexDigit(a) && IsHexDigit(b)
    ensures |more| == |bytes| + 1 && forall i :: 0 <= i < |more| ==> more[i] < 256
    ensures Hex(more) == Hex(bytes) + [ToLower(a), ToLower(b)]
  {
    var n := 16 * HexValue(a) + HexValue(b);
    assert n / 16 == HexValue(a) && n % 16 == HexValue(b);
    more := bytes + [n];
    assert more[..|more| - 1] == bytes;
  }

  lemma {:induction false} HexRead(s: string) returns (bytes: seq<nat>)
    requires |s| % 2 == 0 && forall i :: 0 <= i < |s| ==> IsHexDigit(s[i])
    ensures 2 * |bytes| == |s| && forall i :: 0 <= i < |bytes| ==> bytes[i] < 256
    ensures Hex(bytes) == Lowered(s)
  {
    if s == [] {
      bytes := [];
    } else {
      var n := |s| - 2;
      var front := HexRead(s[..n]);
      bytes := HexPush(front, s[n], s[n + 1]);
      assert Lowered(s) == Lowered(s[..n]) + [ToLower(s[n]), ToLower(s[n + 1])];
    }
  }

  /** The token writes these bytes out in hex, in either case, behind the prefix. */
  ghost predicate Spells(token: string, bytes: seq<nat>) {
    && |bytes| == 32 && (forall i :: 0 <= i < |bytes| ==> bytes[i] < 256)
    && |token| == 68 && token[..4] == "zcr_" && Lowered(token[4..]) == Hex(bytes)
  }

  /** The shape asked of a key is exactly that of some generated one, in either case of its hex letters. */
  lemma KeyShapeLaw(token: string)
    ensures ValidKeyShape(token) <==> exists bytes :: Spells(token, bytes)
  {
    if ValidKeyShape(token) {
      var bytes := HexRead(token[4..]);
      assert Spells(token, bytes);
    }
    if bytes :| Spells(token, bytes) {
      HexDigits(bytes);
      forall i | 4 <= i < 68 ensures IsHexDigit(token[i]) {
        assert token[i] == token[4..][i - 4] && Lowered(token[4..])[i - 4] == ToLower(token[i]);
      }
    }
  }

  function Xor(a: nat, b: nat): nat {
    if a == 0 && b == 0 then 0 else (if a % 2 == b % 2 then 0 else 1) + 2 * Xor(a / 2, b / 2)
  }

  function BitOr(a: nat, b: nat): nat {
    if a == 0 && b == 0 then 0 else (if a % 2 == 1 || b % 2 == 1 then 1 else 0) + 2 * BitOr(a / 2, b / 2)
  }

  lemma {:induction false} XorZero(a: nat, b: nat)
    ensures Xor(a, b) == 0 <==> a == b
  {
    if a == 0 && b == 0 {
    } else {
      XorZero(a / 2, b / 2);
    }
  }

  lemma {:induction false} BitOrZero(a: nat, b: nat)
    ensures BitOr(a, b) == 0 <==> a == 0 && b == 0
  {
    if a == 0 && b == 0 {
    } else {
      BitOrZero(a / 2, b / 2);
    }
  }

  /** Every byte of both is read, whatever differs first; the answer is equality. */
  method ConstantTimeEq(left: seq<nat>, right: seq<nat>) returns (equal: bool)
    ensures equal <==> left == right
  {
    var longest := if |left| >= |right| then |left| else |right|;
    var difference := Xor(|left|, |right|);
    XorZero(|left|, |right|);
    var index := 0;
    while index < longest
      invariant 0 <= index <= longest
      invariant difference == 0 <==> |left| == |right| && forall k :: 0 <= k < index ==> left[k] == right[k]
    {
      var leftByte := if index < |left| then left[index] else 0;
      var rightByte := if index < |right| then right[index] else 0;
      XorZero(leftByte, rightByte);
      BitOrZero(difference, Xor(leftByte, rightByte));
      difference := BitOr(difference, Xor(leftByte, rightByte));
      index := index + 1;
    }
    equal := difference == 0;
  }

  // ---------------------------------------------------------------- one call

  /** The cached key, if its entry outlives the call's clock reading. */
  function Cached(cache: map<Digest, CacheEntry>, hash: Digest, now: int): Option<Identity> {
    if hash in cache && cache[hash].expiresAt > now then Some(cache[hash].key) else None
  }

  /** A row that may authenticate this token at this moment. */
  predicate Live(row: KeyRow, hash: Digest, at: int) {
    row.hash == hash && !row.disabled && (row.deadline.Some? ==> row.deadline.value > at)
  }

  /** How long an entry is served: thirty seconds, or as long as its key lives if that is less. */
  function Ttl(deadline: Option<int>, at: int): (ttl: int)
    ensures 0 <= ttl <= CACHE_TTL
  {
    if deadline.None? then CACHE_TTL
    else if deadline.value - at < 0 then 0
    else if deadline.value - at <= CACHE_TTL then deadline.value - at
    else CACHE_TTL
  }

  function Pruned(cache: map<Digest, CacheEntry>, now: int): map<Digest, CacheEntry> {
    map h | h in cache && cache[h].expiresAt > now :: cache[h]
  }

  function Stored(cache: map<Digest, CacheEntry>, hash: Digest, row: KeyRow, now: int,
                  at: int): map<Digest, CacheEntry> {
    Pruned(cache, now)[hash := CacheEntry(row.identity, now + Ttl(row.deadline, at))]
  }

  datatype Outcome = Accepted(key: Identity) | Invalid | DatabaseFailed

  /** What the database answers: a row with the hash asked for, none, or a failure. */
  datatype Answer = Found(row: KeyRow) | Missing | Failed

  /** Lapsed entries are gone, the others as they were, and the key has a new one: for thirty seconds, or for as long as
      it lives if that is less. */
  ghost predicate Refreshed(before: map<Digest, CacheEntry>, after: map<Digest, CacheEntry>, hash: Digest, row: KeyRow,
                            now: int, at: int)
  {
    && (forall h :: h in after <==> h == hash || (h in before && now < before[h].expiresAt))
    && (forall h :: h in after && h != hash ==> after[h] == before[h])
    && after[hash].key == row.identity
    && after[hash].expiresAt - now ==
       if row.deadline.None? || row.deadline.value - at >= 30000 then 30000
       else if row.deadline.value <= at then 0 else row.deadline.value - at
  }

  class KeyAuthenticator {
    var cache: map<Digest, CacheEntry>

    constructor ()
      ensures cache == map[]
    {
      cache := map[];
    }

    /** One call alone: `now` is its clock reading, `answer` what the query returns if it is made, `checked` and
        `sized` the later readings the deadline is compared with. */
    method Authenticate(token: string, answer: Answer, now: int, checked: int, sized: int) returns (outcome: Outcome)
      requires answer.Found? ==> answer.row.hash == Digest(token)
      modifies this
      ensures var h := Digest(token);
        if ValidKeyShape(token) && h in old(cache) && now < old(cache)[h].expiresAt
        then outcome == Accepted(old(cache)[h].key) && cache == old(cache)
        else if answer.Found? && ValidKeyShape(token) && !answer.row.disabled
             && (answer.row.deadline.Some? ==> checked < answer.row.deadline.value)
        then outcome == Accepted(answer.row.identity) && Refreshed(old(cache), cache, h, answer.row, now, sized)
        else cache == old(cache) && outcome == if answer.Failed? then DatabaseFailed else Invalid
    {
      var valid := ValidKeyShape(token);
      var hash := Digest(token);
      if valid {
        var hit := Cached(cache, hash, now);
        if hit.Some? { return Accepted(hit.value); }
      }
      if answer.Failed? { return DatabaseFailed; }
      if answer.Missing? || !valid || answer.row.hash != hash || answer.row.disabled { return Invalid; }
      if answer.row.deadline.Some? && answer.row.deadline.value <= checked { return Invalid; }
      var ttl := Ttl(answer.row.deadline, sized);
      cache := Pruned(cache, now);
      cache := cache[hash := CacheEntry(answer.row.identity, now + ttl)];
      return Accepted(answer.row.identity);
    }
  }

  // ---------------------------------------------------------------- many calls at once

  datatype Stage = Looking | Querying | Checking(answer: Option<KeyRow>) | Storing(row: KeyRow, seen: int) | Done

  datatype Call = Call(token: string, now: int, stage: Stage)

  /** A database read that was made, with the row it found or none; and an answer that was given: its call's clock
      reading, and the key accepted or the moment of refusal. */
  datatype Event =
    | Read(row: KeyRow, at: int)
    | Absent(hash: Digest, at: int)
    | Accept(token: string, now: int, key: Identity)
    | Refuse(token: string, now: int, at: int)

  datatype System = System(clock: int, table: map<Digest, KeyRow>, cache: map<Digest, CacheEntry>,
                           calls: map<nat, Call>, history: seq<Event>)

  /** Time passes; the table is edited; a call begins, or takes its next step. */
  datatype Move =
    | Tick(ms: nat)
    | Edit(hash: Digest, row: Option<KeyRow>)
    | Begin(call: nat, token: string)
    | Step(call: nat)

  predicate Enabled(s: System, m: Move) {
    match m
    case Tick(_) => true
    case Edit(hash, row) => row.Some? ==> row.value.hash == hash
    case Begin(c, _) => c !in s.calls
    case Step(c) => c in s.calls && !s.calls[c].stage.Done?
  }

  function To(s: System, c: nat, stage: Stage): System
    requires c in s.calls
  {
    s.(calls := s.calls[c := s.calls[c].(stage := stage)])
  }

  function Accepting(s: System, c: nat, key: Identity): System
    requires c in s.calls
  {
    To(s, c, Done).(history := s.history + [Accept(s.calls[c].token, s.calls[c].now, key)])
  }

  function Advance(s: System, c: nat): System
    requires c in s.calls
  {
    var call := s.calls[c];
    var hash := Digest(call.token);
    var valid := ValidKeyShape(call.token);
    match call.stage
    case Looking =>
      var hit := if valid then Cached(s.cache, hash, call.now) else None;
      if hit.Some? then Accepting(s, c, hit.value) else To(s, c, Querying)
    case Querying =>
      if hash in s.table
      then To(s, c, Checking(Some(s.table[hash]))).(history := s.history + [Read(s.table[hash], s.clock)])
      else To(s, c, Checking(None)).(history := s.history + [Absent(hash, s.clock)])
    case Checking(answer) =>
      if answer.Some? && valid && Live(answer.value, hash, s.clock) then To(s, c, Storing(answer.value, s.clock))
      else To(s, c, Done).(history := s.history + [Refuse(call.token, call.now, s.clock)])
    case Storing(row, _) =>
      Accepting(s, c, row.identity).(cache := Stored(s.cache, hash, row, call.now, s.clock))
    case Done => s
  }

  function Next(s: System, m: Move): System
    requires Enabled(s, m)
  {
    match m
    case Tick(ms) => s.(clock := s.clock + ms)
    case Edit(hash, row) => s.(table := if row.Some? then s.table[hash := row.value] else s.table - {hash})
    case Begin(c, token) => s.(calls := s.calls[c := Call(token, s.clock, Looking)])
    case Step(c) => Advance(s, c)
  }

  ghost predicate Runs(s: System, moves: seq<Move>, end: System)
    decreases |moves|
  {
    if moves == [] then end == s else Enabled(s, moves[0]) && Runs(Next(s, moves[0]), moves[1..], end)
  }

  // ---------------------------------------------------------------- the cache refines the database

  /** A read of this token's row, enabled, for this key, less than the TTL before a moment that its deadline is
      still beyond. */
  predicate Backs(r: Event, hash: Digest, key: Identity, moment: int) {
    r.Read? && r.row.hash == hash && r.row.identity == key && !r.row.disabled
    && r.at > moment - 30000 && (r.row.deadline.Some? ==> moment < r.row.deadline.value)
  }

  ghost predicate Backed(history: seq<Event>, hash: Digest, key: Identity, moment: int) {
    exists r :: r in history && Backs(r, hash, key, moment)
  }

  ghost predicate TableOk(table: map<Digest, KeyRow>) {
    forall h :: h in table ==> table[h].hash == h
  }

  /** An entry is backed for as long as it is served. */
  ghost predicate CacheOk(s: System) {
    forall h, t :: h in s.cache && t < s.cache[h].expiresAt ==> Backed(s.history, h, s.cache[h].key, t)
  }

  /** What a call has read is in the history, no earlier than its clock reading. */
  ghost predicate CallOk(s: System, call: Call) {
    && call.now <= s.clock
    && (call.stage.Checking? && call.stage.answer.Some? ==>
          WasRead(s.history, call.stage.answer.value, call.now) && call.stage.answer.value.hash == Digest(call.token))
    && (call.stage.Checking? && call.stage.answer.None? ==> WasAbsent(s.history, Digest(call.token), call.now))
    && (call.stage.Storing? ==>
          && WasRead(s.history, call.stage.row, call.now) && ValidKeyShape(call.token)
          && Live(call.stage.row, Digest(call.token), call.stage.seen) && call.now <= call.stage.seen <= s.clock)
  }

  ghost predicate WasRead(history: seq<Event>, row: KeyRow, since: int) {
    exists r :: r in history && r.Read? && r.row == row && r.at >= since
  }

  ghost predicate WasAbsent(history: seq<Event>, hash: Digest, since: int) {
    exists r :: r in history && r.Absent? && r.hash == hash && r.at >= since
  }

  /** What speaks against a call: a read made for it that found no row, or one disabled, or one whose deadline is past
      when it is refused. */
  predicate Speaks(r: Event, e: Event)
    requires e.Refuse?
  {
    match r
    case Absent(hash, at) => hash == Digest(e.token) && at >= e.now
    case Read(row, at) =>
      row.hash == Digest(e.token) && at >= e.now
      && (row.disabled || (row.deadline.Some? && row.deadline.value <= e.at))
    case _ => false
  }

  ghost predicate WellRefused(history: seq<Event>, e: Event)
    requires e.Refuse?
  {
    !ValidKeyShape(e.token) || exists r :: r in history && Speaks(r, e)
  }

  ghost predicate RefusesOk(history: seq<Event>) {
    forall i :: 0 <= i < |history| && history[i].Refuse? ==> WellRefused(history[..i], history[i])
  }

  ghost predicate AcceptsOk(history: seq<Event>) {
    forall i :: 0 <= i < |history| && history[i].Accept? ==>
      ValidKeyShape(history[i].token) && Backed(history[..i], Digest(history[i].token), history[i].key, history[i].now)
  }

  ghost predicate Inv(s: System) {
    && TableOk(s.table) && CacheOk(s) && (forall c :: c in s.calls ==> CallOk(s, s.calls[c]))
    && AcceptsOk(s.history) && RefusesOk(s.history)
  }

  lemma BackedMore(history: seq<Event>, e: Event, hash: Digest, key: Identity, moment: int)
    requires Backed(history, hash, key, moment)
    ensures Backed(history + [e], hash, key, moment)
  {
    var r :| r in history && Backs(r, hash, key, moment);
    assert r in history + [e];
  }

  lemma ReadMore(history: seq<Event>, e: Event, row: KeyRow, since: int)
    requires WasRead(history, row, since)
    ensures WasRead(history + [e], row, since)
  {
    var r :| r in history && r.Read? && r.row == row && r.at >= since;
    assert r in history + [e];
  }

  lemma AbsentMore(history: seq<Event>, e: Event, hash: Digest, since: int)
    requires WasAbsent(history, hash, since)
    ensures WasAbsent(history + [e], hash, since)
  {
    var r :| r in history && r.Absent? && r.hash == hash && r.at >= since;
    assert r in history + [e];
  }

  lemma RefusesGrow(history: seq<Event>, e: Event)
    requires RefusesOk(history) && (e.Refuse? ==> WellRefused(history, e))
    ensures RefusesOk(history + [e])
  {
    forall i | 0 <= i < |history + [e]| && (history + [e])[i].Refuse?
      ensures WellRefused((history + [e])[..i], (history + [e])[i])
    {
      assert (history + [e])[..i] == history[..i];
      assert history[..|history|] == history;
    }
  }

  /** One more event leaves everything as it was. */
  lemma HistoryGrows(s: System, e: Event)
    requires Inv(s) && (e.Accept? ==> ValidKeyShape(e.token) && Backed(s.history, Digest(e.token), e.key, e.now))
    requires e.Refuse? ==> WellRefused(s.history, e)
    ensures Inv(s.(history := s.history + [e]))
  {
    var history := s.history + [e];
    forall h, t | h in s.cache && t < s.cache[h].expiresAt ensures Backed(history, h, s.cache[h].key, t) {
      BackedMore(s.history, e, h, s.cache[h].key, t);
    }
    forall c | c in s.calls ensures CallOk(s.(history := history), s.calls[c]) {
      var stage := s.calls[c].stage;
      if stage.Checking? && stage.answer.Some? { ReadMore(s.history, e, stage.answer.value, s.calls[c].now); }
      if stage.Checking? && stage.answer.None? { AbsentMore(s.history, e, Digest(s.calls[c].token), s.calls[c].now); }
      if stage.Storing? { ReadMore(s.history, e, stage.row, s.calls[c].now); }
    }
    forall i | 0 <= i < |history| && history[i].Accept?
      ensures ValidKeyShape(history[i].token)
      ensures Backed(history[..i], Digest(history[i].token), history[i].key, history[i].now)
    {
      assert history[..i] == s.history[..i];
      assert s.history[..|s.history|] == s.history;
    }
    RefusesGrow(s.history, e);
  }

  lemma StageKeeps(s: System, c: nat, stage: Stage)
    requires Inv(s) && c in s.calls && CallOk(s, s.calls[c].(stage := stage))
    ensures Inv(To(s, c, stage))
  {
  }

  lemma LookKeeps(s: System, c: nat)
    requires Inv(s) && c in s.calls && s.calls[c].stage.Looking?
    ensures Inv(Advance(s, c))
  {
    var call := s.calls[c];
    var hit := if ValidKeyShape(call.token) then Cached(s.cache, Digest(call.token), call.now) else None;
    if hit.Some? {
      HistoryGrows(s, Accept(call.token, call.now, hit.value));
      StageKeeps(s.(history := s.history + [Accept(call.token, call.now, hit.value)]), c, Done);
    } else {
      StageKeeps(s, c, Querying);
    }
  }

  lemma QueryKeeps(s: System, c: nat)
    requires Inv(s) && c in s.calls && s.calls[c].stage.Querying?
    ensures Inv(Advance(s, c))
  {
    var hash := Digest(s.calls[c].token);
    if hash in s.table {
      var e := Read(s.table[hash], s.clock);
      HistoryGrows(s, e);
      assert e in s.history + [e];
      StageKeeps(s.(history := s.history + [e]), c, Checking(Some(s.table[hash])));
    } else {
      var e := Absent(hash, s.clock);
      HistoryGrows(s, e);
      assert e in s.history + [e];
      StageKeeps(s.(history := s.history + [e]), c, Checking(None));
    }
  }

  /** A row read since the call began and live when checked backs the call, and every moment its entry is served. */
  lemma EntryBacked(s: System, call: Call, at: int, moment: int)
    requires CallOk(s, call) && call.stage.Storing? && at >= call.stage.seen
    requires moment == call.now || moment < call.now + Ttl(call.stage.row.deadline, at)
    ensures Backed(s.history, Digest(call.token), call.stage.row.identity, moment)
  {
    var row := call.stage.row;
    var r :| r in s.history && r.Read? && r.row == row && r.at >= call.now;
    assert Backs(r, Digest(call.token), row.identity, moment);
  }

  lemma StoreKeeps(s: System, c: nat)
    requires Inv(s) && c in s.calls && s.calls[c].stage.Storing?
    ensures Inv(Advance(s, c))
  {
    var call := s.calls[c];
    var hash, row := Digest(call.token), call.stage.row;
    EntryBacked(s, call, s.clock, call.now);
    forall t | t < call.now + Ttl(row.deadline, s.clock) ensures Backed(s.history, hash, row.identity, t) {
      EntryBacked(s, call, s.clock, t);
    }
    var cached := s.(cache := Stored(s.cache, hash, row, call.now, s.clock));
    CacheKeeps(s, cached, hash);
    var e := Accept(call.token, call.now, row.identity);
    HistoryGrows(cached, e);
    StageKeeps(cached.(history := s.history + [e]), c, Done);
  }

  lemma CacheKeeps(s: System, s': System, hash: Digest)
    requires Inv(s) && s' == s.(cache := s'.cache) && hash in s'.cache
    requires forall h :: h in s'.cache && h != hash ==> h in s.cache && s'.cache[h] == s.cache[h]
    requires forall t :: t < s'.cache[hash].expiresAt ==> Backed(s.history, hash, s'.cache[hash].key, t)
    ensures Inv(s')
  {
  }

  /** What was read speaks against a call that goes no further. */
  lemma RefusalCaused(s: System, call: Call, e: Event)
    requires CallOk(s, call) && call.stage.Checking? && e == Refuse(call.token, call.now, s.clock)
    requires var answer := call.stage.answer;
      !(answer.Some? && ValidKeyShape(call.token) && Live(answer.value, Digest(call.token), s.clock))
    ensures WellRefused(s.history, e)
  {
    var answer := call.stage.answer;
    if answer.Some? {
      var r :| r in s.history && r.Read? && r.row == answer.value && r.at >= call.now;
      assert ValidKeyShape(call.token) ==> Speaks(r, e);
    } else {
      var r :| r in s.history && r.Absent? && r.hash == Digest(call.token) && r.at >= call.now;
      assert Speaks(r, e);
    }
  }

  lemma CheckKeeps(s: System, c: nat)
    requires Inv(s) && c in s.calls && s.calls[c].stage.Checking?
    ensures Inv(Advance(s, c))
  {
    var answer := s.calls[c].stage.answer;
    if answer.Some? && ValidKeyShape(s.calls[c].token) && Live(answer.value, Digest(s.calls[c].token), s.clock) {
      StageKeeps(s, c, Storing(answer.value, s.clock));
    } else {
      var e := Refuse(s.calls[c].token, s.calls[c].now, s.clock);
      RefusalCaused(s, s.calls[c], e);
      HistoryGrows(s, e);
      StageKeeps(s.(history := s.history + [e]), c, Done);
    }
  }

  lemma NextKeeps(s: System, m: Move)
    requires Inv(s) && Enabled(s, m)
    ensures Inv(Next(s, m))
  {
    match m
    case Step(c) =>
      match s.calls[c].stage {
        case Looking => LookKeeps(s, c);
        case Querying => QueryKeeps(s, c);
        case Checking(_) => CheckKeeps(s, c);
        case Storing(_, _) => StoreKeeps(s, c);
      }
    case _ =>
  }

  lemma {:induction false} RunsKeep(s: System, moves: seq<Move>, end: System)
    requires Inv(s) && Runs(s, moves, end)
    ensures Inv(end)
    decreases |moves|
  {
    if moves == [] {
    } else {
      NextKeeps(s, moves[0]);
      RunsKeep(Next(s, moves[0]), moves[1..], end);
    }
  }

  ghost function Start(clock: int, table: map<Digest, KeyRow>): System {
    System(clock, table, map[], map[], [])
  }

  /** And every call refused had no key's shape, or was refused on a read made for it that found no row, or a disabled
      one, or one whose deadline had passed: a good key is never turned away. */
  lemma RefusedWasDead(clock: int, table: map<Digest, KeyRow>, moves: seq<Move>, end: System, i: nat)
    requires TableOk(table) && Runs(Start(clock, table), moves, end) && i < |end.history| && end.history[i].Refuse?
    ensures var e := end.history[i];
      !ValidKeyShape(e.token) || exists r :: r in end.history[..i] && Speaks(r, e)
  {
    RunsKeep(Start(clock, table), moves, end);
    assert WellRefused(end.history[..i], end.history[i]);
  }

  /** Whatever the interleaving, every key accepted had been returned by a database read that saw it enabled,
      made less than thirty seconds before the call's clock reading, and that reading is before the deadline the
      read saw. */
  lemma AcceptedWasLive(clock: int, table: map<Digest, KeyRow>, moves: seq<Move>, end: System, i: nat)
    requires TableOk(table) && Runs(Start(clock, table), moves, end) && i < |end.history| && end.history[i].Accept?
    ensures var a := end.history[i];
      ValidKeyShape(a.token) && exists r :: r in end.history[..i] && Backs(r, Digest(a.token), a.key, a.now)
  {
    RunsKeep(Start(clock, table), moves, end);
    assert Backed(end.history[..i], Digest(end.history[i].token), end.history[i].key, end.history[i].now);
  }
}
