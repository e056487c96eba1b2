/** The device-authorization grant, sections 3.4 and 3.5 of RFC 8628: one code, approved once, claimed once. */
module Device {
  import opened Texts
  import opened Wrappers

  type UserId = nat
  type GrantId = nat

  datatype Status = Pending | Approved | Denied | Expired | Claimed

  datatype Grant = Grant(status: Status, user: Option<UserId>, keyName: Option<string>, expiresAt: int,
                         lastPolled: Option<int>, keyId: Option<nat>)

  /** Milliseconds. */
  const TTL := 900000
  const POLL_INTERVAL := 5000
  const GRACE := 86400000

  const DEFAULT_KEY_NAME := "zeroclaw device"

  /** The key minted when a grant was claimed. */
  datatype Mint = Mint(grant: GrantId, user: UserId, keyId: nat, name: string)

  datatype Approval = Approval(grant: GrantId, user: UserId)

  /** A poll: its transaction's clock reading, then, once it holds the row, what it read there. */
  datatype Poll = Waiting(grant: GrantId, now: int) | Holding(grant: GrantId, now: int, row: Grant)

  datatype Reply =
    | Token(keyId: nat)
    | AuthorizationPending
    | SlowDown
    | AccessDenied
    | ExpiredToken
    | InvalidGrant
    | ServerError

  datatype System = System(clock: int, grants: map<GrantId, Grant>, used: set<GrantId>, minted: seq<Mint>,
                           approvals: seq<Approval>, polls: map<nat, Poll>, replies: seq<(GrantId, Reply)>)

  datatype Move =
    | Tick(ms: nat)
    | Start(id: GrantId, keyName: Option<string>)
    | OpenPoll(poll: nat, grant: GrantId)
    | LockPoll(poll: nat)
    | FinishPoll(poll: nat, admitted: bool, keyId: nat)
    | AbortPoll(poll: nat)
    | Approve(grant: GrantId, user: UserId, keyName: Option<string>, now: int)
    | Deny(grant: GrantId, now: int)
    | Sweep(grant: GrantId, now: int)
    | Reclaim(grant: GrantId, now: int)

  predicate IsTerminal(s: Status) {
    s.Denied? || s.Expired? || s.Claimed?
  }

  /** Somebody holds the row: every other writer waits. */
  ghost predicate Locked(s: System, g: GrantId) {
    exists p :: p in s.polls && s.polls[p].Holding? && s.polls[p].grant == g
  }

  /** A statement writes its row once nobody holds it, still by the clock reading it began with. */
  ghost predicate Writable(s: System, g: GrantId, now: int) {
    g in s.grants && !Locked(s, g) && now <= s.clock
  }

  ghost predicate Enabled(s: System, m: Move) {
    match m
    case Tick(_) => true
    case Start(id, _) => id !in s.used
    case OpenPoll(p, _) => p !in s.polls
    case LockPoll(p) => p in s.polls && s.polls[p].Waiting? && s.polls[p].grant in s.grants
        && !Locked(s, s.polls[p].grant)
    case FinishPoll(p, _, _) => p in s.polls && s.polls[p].Holding?
    case AbortPoll(p) => p in s.polls
    case Approve(g, _, _, now) => Writable(s, g, now)
    case Deny(g, now) => Writable(s, g, now)
    case Sweep(g, now) => Writable(s, g, now)
    case Reclaim(g, now) => Writable(s, g, now)
  }

  // ---------------------------------------------------------------- one poll

  predicate PolledTooRecently(row: Grant, now: int) {
    row.lastPolled.Some? && row.lastPolled.value > now - POLL_INTERVAL
  }

  function NameOf(keyName: Option<string>): string {
    if keyName.Some? && Trim(keyName.value) != [] then Trim(keyName.value) else DEFAULT_KEY_NAME
  }

  /** What a poll answers on the row it locked, what it leaves there, and the key it mints. */
  datatype Decision = Decision(reply: Reply, row: Grant, mint: Option<Mint>)

  function Decide(g: GrantId, row: Grant, now: int, admitted: bool, keyId: nat): Decision {
    if row.expiresAt <= now && (row.status.Pending? || row.status.Approved?)
    then Decision(ExpiredToken, row.(status := Expired), None)
    else
      match row.status
      case Pending =>
        Decision(if PolledTooRecently(row, now) then SlowDown else AuthorizationPending,
                 row.(lastPolled := Some(now)), None)
      case Approved =>
        if row.user.None? then Decision(ServerError, row, None)
        else if !admitted then Decision(AccessDenied, row, None)
        else Decision(Token(keyId), row.(status := Claimed, keyId := Some(keyId), lastPolled := Some(now)),
                      Some(Mint(g, row.user.value, keyId, NameOf(row.keyName))))
      case Denied => Decision(AccessDenied, row, None)
      case Expired => Decision(ExpiredToken, row, None)
      case Claimed => Decision(InvalidGrant, row, None)
  }

  /** What section 3.5 of RFC 8628 has a poll answer on the row it locked, the row it leaves, and the key it mints. */
  ghost predicate Answers(g: GrantId, row: Grant, now: int, admitted: bool, keyId: nat, reply: Reply, after: Grant,
                          mint: Option<Mint>)
  {
    match row.status
    case Denied => reply == AccessDenied && after == row && mint.None?
    case Expired => reply == ExpiredToken && after == row && mint.None?
    case Claimed => reply == InvalidGrant && after == row && mint.None?
    case Pending =>
      && mint.None?
      && (if row.expiresAt <= now then reply == ExpiredToken && after == row.(status := Expired)
          else
            && after == row.(lastPolled := Some(now))
            && reply == if row.lastPolled.Some? && now - row.lastPolled.value < 5000 then SlowDown
                        else AuthorizationPending)
    case Approved =>
      if row.expiresAt <= now then reply == ExpiredToken && after == row.(status := Expired) && mint.None?
      else if row.user.None? then reply == ServerError && after == row && mint.None?
      else if !admitted then reply == AccessDenied && after == row && mint.None?
      else
        && reply == Token(keyId) && after == row.(status := Claimed, keyId := Some(keyId), lastPolled := Some(now))
        && mint == Some(Mint(g, row.user.value, keyId,
                             if row.keyName.None? || Trim(row.keyName.value) == "" then "zeroclaw device"
                             else Trim(row.keyName.value)))
  }

  lemma DecideAnswers(g: GrantId, row: Grant, now: int, admitted: bool, keyId: nat)
    ensures var d := Decide(g, row, now, admitted, keyId);
      Answers(g, row, now, admitted, keyId, d.reply, d.row, d.mint)
  {
  }

  function Open(row: Grant, at: int): bool {
    row.status.Pending? && row.expiresAt > at
  }

  function SetGrant(s: System, g: GrantId, row: Grant): System {
    s.(grants := s.grants[g := row])
  }

  function Next(s: System, m: Move): System
    requires match m
             case LockPoll(p) => p in s.polls && s.polls[p].grant in s.grants
             case FinishPoll(p, _, _) => p in s.polls && s.polls[p].Holding?
             case AbortPoll(p) => p in s.polls
             case Approve(g, _, _, _) => g in s.grants
             case Deny(g, _) => g in s.grants
             case Sweep(g, _) => g in s.grants
             case Reclaim(g, _) => g in s.grants
             case _ => true
  {
    match m
    case Tick(ms) => s.(clock := s.clock + ms)
    case Start(id, name) =>
      SetGrant(s, id, Grant(Pending, None, name, s.clock + TTL, None, None)).(used := s.used + {id})
    case OpenPoll(p, g) => s.(polls := s.polls[p := Waiting(g, s.clock)])
    case LockPoll(p) => s.(polls := s.polls[p := Holding(s.polls[p].grant, s.polls[p].now, s.grants[s.polls[p].grant])])
    case FinishPoll(p, admitted, keyId) =>
      var poll := s.polls[p];
      var d := Decide(poll.grant, poll.row, poll.now, admitted, keyId);
      SetGrant(s, poll.grant, d.row).(polls := s.polls - {p}, replies := s.replies + [(poll.grant, d.reply)],
                                      minted := if d.mint.Some? then s.minted + [d.mint.value] else s.minted)
    case AbortPoll(p) => s.(polls := s.polls - {p})
    case Approve(g, user, name, now) =>
      var row := s.grants[g];
      if Open(row, now)
      then SetGrant(s, g,
                    row.(status := Approved, user := Some(user), keyName := if name.Some? then name else row.keyName))
             .(approvals := s.approvals + [Approval(g, user)])
      else s
    case Deny(g, now) => if Open(s.grants[g], now) then SetGrant(s, g, s.grants[g].(status := Denied)) else s
    case Sweep(g, now) =>
      if !IsTerminal(s.grants[g].status) && s.grants[g].expiresAt <= now
      then SetGrant(s, g, s.grants[g].(status := Expired)) else s
    case Reclaim(g, now) =>
      if IsTerminal(s.grants[g].status) && s.grants[g].expiresAt <= now - GRACE then s.(grants := s.grants - {g}) else s
  }

  ghost predicate Runs(s: System, moves: seq<Move>, end: System)
    decreases |moves|
  {
    if moves == [] then end == s else Enabled(s, moves[0]) && Runs(Next(s, moves[0]), moves[1..], end)
  }

  /** The handlers' statements over the table, each with its row to itself. */
  class Grants {
    var rows: map<GrantId, Grant>
    var minted: seq<Mint>

    constructor ()
      ensures rows == map[] && minted == []
    {
      rows, minted := map[], [];
    }

    /** `poll_device_token` after its row lock. `admitted` is the key-limit check's answer. */
    method PollToken(g: GrantId, now: int, admitted: bool, keyId: nat) returns (reply: Reply)
      modifies this
      ensures g !in old(rows) ==> reply == InvalidGrant && rows == old(rows) && minted == old(minted)
      ensures g in old(rows) ==>
        && rows.Keys == old(rows).Keys && (forall x :: x in rows && x != g ==> rows[x] == old(rows)[x])
        && old(minted) <= minted && |minted| <= |old(minted)| + 1
        && Answers(g, old(rows)[g], now, admitted, keyId, reply, rows[g],
                   if minted == old(minted) then None else Some(minted[|old(minted)|]))
    {
      if g !in rows { return InvalidGrant; }
      var row := rows[g];
      if row.expiresAt <= now && (row.status.Pending? || row.status.Approved?) {
        rows := rows[g := row.(status := Expired)];
        return ExpiredToken;
      }
      match row.status {
        case Pending =>
          rows := rows[g := row.(lastPolled := Some(now))];
          reply := if PolledTooRecently(row, now) then SlowDown else AuthorizationPending;
        case Approved =>
          if row.user.None? { return ServerError; }
          if !admitted { return AccessDenied; }
          minted := minted + [Mint(g, row.user.value, keyId, NameOf(row.keyName))];
          rows := rows[g := row.(status := Claimed, keyId := Some(keyId), lastPolled := Some(now))];
          reply := Token(keyId);
        case Denied => reply := AccessDenied;
        case Expired => reply := ExpiredToken;
        case Claimed => reply := InvalidGrant;
      }
    }

    method ApproveCode(g: GrantId, user: UserId, keyName: Option<string>, now: int) returns (found: bool)
      modifies this`rows
      ensures found <==> g in old(rows) && old(rows)[g].status == Pending && now < old(rows)[g].expiresAt
      ensures rows == if found then old(rows)[g := old(rows)[g].(status := Approved, user := Some(user),
                        keyName := if keyName.Some? then keyName else old(rows)[g].keyName)] else old(rows)
    {
      found := g in rows && Open(rows[g], now);
      if found {
        var name := if keyName.Some? then keyName else rows[g].keyName;
        rows := rows[g := rows[g].(status := Approved, user := Some(user), keyName := name)];
      }
    }

    method DenyCode(g: GrantId, now: int) returns (found: bool)
      modifies this`rows
      ensures found <==> g in old(rows) && old(rows)[g].status == Pending && now < old(rows)[g].expiresAt
      ensures rows == if found then old(rows)[g := old(rows)[g].(status := Denied)] else old(rows)
    {
      found := g in rows && Open(rows[g], now);
      if found {
        rows := rows[g := rows[g].(status := Denied)];
      }
    }
  }

  // ---------------------------------------------------------------- what holds all along

  /** Row locks exclude: whoever holds a row reads what is in it, and no two hold one row. */
  ghost predicate LocksOk(s: System) {
    && (forall p :: p in s.polls && s.polls[p].Holding? ==>
        s.polls[p].grant in s.grants && s.grants[s.polls[p].grant] == s.polls[p].row)
    && (forall p, q :: p in s.polls && q in s.polls && p != q && s.polls[p].Holding? && s.polls[q].Holding? ==>
        s.polls[p].grant != s.polls[q].grant)
  }

  ghost predicate MintOf(minted: seq<Mint>, g: GrantId) {
    exists k :: k in minted && k.grant == g
  }

  /** One mint a grant at most; a grant still on the table has one exactly when it is claimed, under its key id. */
  ghost predicate MintsOk(s: System) {
    && (forall i, j :: 0 <= i < j < |s.minted| ==> s.minted[i].grant != s.minted[j].grant)
    && (forall k :: k in s.minted ==> k.grant in s.used)
    && (forall g :: g in s.grants ==> g in s.used && (s.grants[g].status.Claimed? <==> MintOf(s.minted, g)))
    && (forall k :: k in s.minted && k.grant in s.grants ==>
        s.grants[k.grant].keyId == Some(k.keyId) && s.grants[k.grant].user == Some(k.user))
  }

  /** A grant's user is the one who approved it, and only one ever does. */
  ghost predicate ApprovalsOk(s: System) {
    && (forall i, j :: 0 <= i < j < |s.approvals| ==> s.approvals[i].grant != s.approvals[j].grant)
    && (forall a :: a in s.approvals ==>
        a.grant in s.used && (a.grant in s.grants ==> !s.grants[a.grant].status.Pending?))
    && (forall g :: g in s.grants && s.grants[g].user.Some? ==> Approval(g, s.grants[g].user.value) in s.approvals)
    && (forall g :: g in s.grants && s.grants[g].status.Approved? ==> s.grants[g].user.Some?)
    && (forall k :: k in s.minted ==> Approval(k.grant, k.user) in s.approvals)
  }

  /** A token is handed out once a grant, for the key then minted. */
  ghost predicate RepliesOk(s: System) {
    && (forall r :: r in s.replies && r.1.Token? ==>
        exists k :: k in s.minted && k.grant == r.0 && k.keyId == r.1.keyId)
    && (forall i, j :: 0 <= i < j < |s.replies| && s.replies[i].1.Token? && s.replies[j].1.Token? ==>
        s.replies[i].0 != s.replies[j].0)
  }

  ghost predicate Inv(s: System) {
    LocksOk(s) && MintsOk(s) && ApprovalsOk(s) && RepliesOk(s)
  }

  // ---------------------------------------------------------------- every move

  /** A row changes, but not to a claim, nor back to pending or approved, and keeps its user. */
  ghost predicate Settled(s: System, g: GrantId, row: Grant) {
    && g in s.grants && (row.status.Claimed? ==> row == s.grants[g])
        && (s.grants[g].status.Claimed? ==> row == s.grants[g])
    && row.user == s.grants[g].user
    && (row.status.Pending? ==> s.grants[g].status.Pending?) && (row.status.Approved? ==> s.grants[g].status.Approved?)
  }

  lemma RowKeeps(s: System, g: GrantId, row: Grant)
    requires MintsOk(s) && ApprovalsOk(s) && RepliesOk(s) && Settled(s, g, row)
    ensures var s' := SetGrant(s, g, row);
      MintsOk(s') && ApprovalsOk(s') && RepliesOk(s')
  {
  }

  lemma UnlockedKeeps(s: System, g: GrantId, row: Grant)
    requires LocksOk(s) && g in s.grants && !Locked(s, g)
    ensures LocksOk(SetGrant(s, g, row))
  {
  }

  /** The holder writes its row and lets go. */
  lemma HolderKeeps(s: System, p: nat, row: Grant, s': System)
    requires LocksOk(s) && p in s.polls && s.polls[p].Holding?
    requires s'.grants == s.grants[s.polls[p].grant := row] && s'.polls == s.polls - {p}
    ensures LocksOk(s')
  {
  }

  lemma DenyKeeps(s: System, g: GrantId, now: int)
    requires Inv(s) && g in s.grants && !Locked(s, g)
    ensures Inv(Next(s, Deny(g, now)))
  {
    if Open(s.grants[g], now) {
      RowKeeps(s, g, s.grants[g].(status := Denied));
      UnlockedKeeps(s, g, s.grants[g].(status := Denied));
    }
  }

  lemma SweepKeeps(s: System, g: GrantId, now: int)
    requires Inv(s) && g in s.grants && !Locked(s, g)
    ensures Inv(Next(s, Sweep(g, now)))
  {
    if !IsTerminal(s.grants[g].status) {
      RowKeeps(s, g, s.grants[g].(status := Expired));
      UnlockedKeeps(s, g, s.grants[g].(status := Expired));
    }
  }

  lemma ApproveKeeps(s: System, g: GrantId, user: UserId, name: Option<string>, now: int)
    requires Inv(s) && g in s.grants && !Locked(s, g)
    ensures Inv(Next(s, Approve(g, user, name, now)))
  {
    if Open(s.grants[g], now) {
      var s' := Next(s, Approve(g, user, name, now));
      UnlockedKeeps(s, g, s'.grants[g]);
      var a := Approval(g, user);
      assert s'.approvals == s.approvals + [a];
      assert forall x :: x in s'.approvals <==> x in s.approvals || x == a;
    }
  }

  lemma StartKeeps(s: System, id: GrantId, name: Option<string>)
    requires Inv(s) && id !in s.used
    ensures Inv(Next(s, Start(id, name)))
  {
  }

  lemma MintPush(minted: seq<Mint>, k: Mint, g: GrantId)
    ensures MintOf(minted + [k], g) <==> MintOf(minted, g) || k.grant == g
  {
    assert k in minted + [k];
    if MintOf(minted, g) {
      var x :| x in minted && x.grant == g;
      assert x in minted + [k];
    }
  }

  lemma ClaimedMints(s: System, g: GrantId, row: Grant, k: Mint, s': System)
    requires MintsOk(s) && g in s.grants && s.grants[g].status.Approved? && s.grants[g].user == Some(k.user)
    requires row == s.grants[g].(status := Claimed, keyId := Some(k.keyId), lastPolled := row.lastPolled)
    requires k.grant == g
    requires s'.grants == s.grants[g := row] && s'.minted == s.minted + [k] && s'.used == s.used
    ensures MintsOk(s')
  {
    assert forall x :: x in s'.minted <==> x in s.minted || x == k;
    assert !MintOf(s.minted, g);
    forall h ensures MintOf(s'.minted, h) <==> MintOf(s.minted, h) || h == g {
      MintPush(s.minted, k, h);
    }
  }

  /** A poll that mints: the row it holds is approved, so nothing was minted for it yet. */
  lemma ClaimKeeps(s: System, p: nat, admitted: bool, keyId: nat)
    requires Inv(s) && p in s.polls && s.polls[p].Holding?
    requires Decide(s.polls[p].grant, s.polls[p].row, s.polls[p].now, admitted, keyId).mint.Some?
    ensures Inv(Next(s, FinishPoll(p, admitted, keyId)))
  {
    var s' := Next(s, FinishPoll(p, admitted, keyId));
    var g := s.polls[p].grant;
    var k := s'.minted[|s.minted|];
    HolderKeeps(s, p, s'.grants[g], s');
    ClaimedMints(s, g, s'.grants[g], k, s');
    ClaimReplies(s, g, k, s');
    assert forall x :: x in s'.minted <==> x in s.minted || x == k;
  }

  lemma ClaimReplies(s: System, g: GrantId, k: Mint, s': System)
    requires RepliesOk(s) && !MintOf(s.minted, g) && k.grant == g
    requires s'.minted == s.minted + [k] && s'.replies == s.replies + [(g, Token(k.keyId))]
    ensures RepliesOk(s')
  {
    assert forall x :: x in s'.minted <==> x in s.minted || x == k;
    forall r | r in s'.replies && r.1.Token?
      ensures exists m :: m in s'.minted && m.grant == r.0 && m.keyId == r.1.keyId
    {
      if r in s.replies {
        var m :| m in s.minted && m.grant == r.0 && m.keyId == r.1.keyId;
        assert m in s'.minted;
      } else {
        assert k in s'.minted;
      }
    }
    forall i | 0 <= i < |s.replies| && s.replies[i].1.Token? ensures s.replies[i].0 != g {
      assert s.replies[i] in s.replies;
    }
  }

  lemma AnswerSettles(s: System, g: GrantId, now: int, admitted: bool, keyId: nat)
    requires g in s.grants && Decide(g, s.grants[g], now, admitted, keyId).mint.None?
    ensures Settled(s, g, Decide(g, s.grants[g], now, admitted, keyId).row)
    ensures !Decide(g, s.grants[g], now, admitted, keyId).reply.Token?
  {
  }

  lemma AnswerReplies(s: System, g: GrantId, reply: Reply, s': System)
    requires RepliesOk(s) && !reply.Token? && s'.minted == s.minted && s'.replies == s.replies + [(g, reply)]
    ensures RepliesOk(s')
  {
    assert forall x :: x in s'.replies <==> x in s.replies || x == (g, reply);
  }

  lemma SameTables(s: System, s': System)
    requires MintsOk(s) && ApprovalsOk(s)
    requires s'.grants == s.grants && s'.used == s.used && s'.minted == s.minted && s'.approvals == s.approvals
    ensures MintsOk(s') && ApprovalsOk(s')
  {
  }

  lemma AnswerKeeps(s: System, p: nat, admitted: bool, keyId: nat)
    requires Inv(s) && p in s.polls && s.polls[p].Holding?
    requires Decide(s.polls[p].grant, s.polls[p].row, s.polls[p].now, admitted, keyId).mint.None?
    ensures Inv(Next(s, FinishPoll(p, admitted, keyId)))
  {
    var g := s.polls[p].grant;
    var d := Decide(g, s.polls[p].row, s.polls[p].now, admitted, keyId);
    var s' := Next(s, FinishPoll(p, admitted, keyId));
    AnswerSettles(s, g, s.polls[p].now, admitted, keyId);
    HolderKeeps(s, p, d.row, s');
    RowKeeps(s, g, d.row);
    SameTables(SetGrant(s, g, d.row), s');
    AnswerReplies(s, g, d.reply, s');
  }

  lemma PollKeeps(s: System, p: nat, admitted: bool, keyId: nat)
    requires Inv(s) && p in s.polls && s.polls[p].Holding?
    ensures Inv(Next(s, FinishPoll(p, admitted, keyId)))
  {
    if Decide(s.polls[p].grant, s.polls[p].row, s.polls[p].now, admitted, keyId).mint.Some? {
      ClaimKeeps(s, p, admitted, keyId);
    } else {
      AnswerKeeps(s, p, admitted, keyId);
    }
  }

  lemma LockKeeps(s: System, p: nat)
    requires Inv(s) && Enabled(s, LockPoll(p))
    ensures Inv(Next(s, LockPoll(p)))
  {
  }

  lemma ReclaimKeeps(s: System, g: GrantId, now: int)
    requires Inv(s) && g in s.grants && !Locked(s, g)
    ensures Inv(Next(s, Reclaim(g, now)))
  {
  }

  lemma NextKeeps(s: System, m: Move)
    requires Inv(s) && Enabled(s, m)
    ensures Inv(Next(s, m))
  {
    match m
    case Start(id, name) => StartKeeps(s, id, name);
    case LockPoll(p) => LockKeeps(s, p);
    case FinishPoll(p, admitted, keyId) => PollKeeps(s, p, admitted, keyId);
    case Approve(g, user, name, now) => ApproveKeeps(s, g, user, name, now);
    case Deny(g, now) => DenyKeeps(s, g, now);
    case Sweep(g, now) => SweepKeeps(s, g, now);
    case Reclaim(g, now) => ReclaimKeeps(s, g, now);
    case _ =>
  }

  lemma {:induction false} RunsKeep(s: System, moves: seq<Move>, end: System)
    requires Inv(s) && Runs(s, moves, end)
    ensures Inv(end)
    decreases |moves|
  {
    if moves == [] {
    } else {
      NextKeeps(s, moves[0]);
      RunsKeep(Next(s, moves[0]), moves[1..], end);
    }
  }

  // ---------------------------------------------------------------- the promises

  ghost function Empty(clock: int): System {
    System(clock, map[], {}, [], [], map[], [])
  }

  /** Over every interleaving of starts, polls, approvals, denials and sweeps: a grant mints at most one key and
      hands out at most one token; a grant on the table is claimed exactly when a key was minted for it; and the
      key is the one approver's. */
  lemma SingleUse(clock: int, moves: seq<Move>, end: System)
    requires Runs(Empty(clock), moves, end)
    ensures forall i, j :: 0 <= i < j < |end.minted| ==> end.minted[i].grant != end.minted[j].grant
    ensures forall i, j :: 0 <= i < j < |end.replies| && end.replies[i].1.Token? && end.replies[j].1.Token? ==>
        end.replies[i].0 != end.replies[j].0
    ensures forall g :: g in end.grants ==> (end.grants[g].status.Claimed? <==> MintOf(end.minted, g))
    ensures forall k, a :: k in end.minted && a in end.approvals && a.grant == k.grant ==> a.user == k.user
    ensures forall k :: k in end.minted ==> Approval(k.grant, k.user) in end.approvals
  {
    RunsKeep(Empty(clock), moves, end);
    forall k, a | k in end.minted && a in end.approvals && a.grant == k.grant ensures a.user == k.user {
      var i :| 0 <= i < |end.approvals| && end.approvals[i] == a;
      var j :| 0 <= j < |end.approvals| && end.approvals[j] == Approval(k.grant, k.user);
      assert i == j;
    }
  }

  lemma TerminalStep(s: System, m: Move, g: GrantId)
    requires Inv(s) && Enabled(s, m) && g in s.grants && IsTerminal(s.grants[g].status)
    ensures var s' := Next(s, m);
      && (g in s'.grants ==> s'.grants[g] == s.grants[g])
      && (g !in s'.grants ==> m.Reclaim? && m.grant == g)
      && (s'.minted != s.minted ==> s'.minted[|s.minted|].grant != g)
  {
  }

  /** A grant that was there and is denied, expired or claimed, or gone. */
  ghost predicate Over(s: System, g: GrantId) {
    g in s.used && (g in s.grants ==> IsTerminal(s.grants[g].status))
  }

  lemma OverStays(s: System, m: Move, g: GrantId)
    requires Inv(s) && Enabled(s, m) && Over(s, g)
    ensures var s' := Next(s, m);
      && Over(s', g) && (g in s'.grants ==> g in s.grants && s'.grants[g] == s.grants[g])
      && s.minted <= s'.minted && forall k :: k in s'.minted[|s.minted|..] ==> k.grant != g
  {
    if g in s.grants {
      TerminalStep(s, m, g);
    }
  }

  /** Over every run, a denied, expired or claimed grant never changes and never mints again: it stays as it is until
      it is forgotten, and then it stays forgotten. */
  lemma {:induction false} TerminalStands(s: System, moves: seq<Move>, end: System, g: GrantId)
    requires Inv(s) && Over(s, g) && Runs(s, moves, end)
    ensures g in end.grants ==> g in s.grants && end.grants[g] == s.grants[g]
    ensures s.minted <= end.minted && forall k :: k in end.minted[|s.minted|..] ==> k.grant != g
    decreases |moves|
  {
    if moves == [] {
    } else {
      var mid := Next(s, moves[0]);
      NextKeeps(s, moves[0]);
      OverStays(s, moves[0], g);
      TerminalStands(mid, moves[1..], end, g);
      NoneSince(s.minted, mid.minted, end.minted, g);
    }
  }

  lemma NoneSince(before: seq<Mint>, mid: seq<Mint>, after: seq<Mint>, g: GrantId)
    requires before <= mid <= after
    requires forall k :: k in mid[|before|..] ==> k.grant != g
    requires forall k :: k in after[|mid|..] ==> k.grant != g
    ensures before <= after && forall k :: k in after[|before|..] ==> k.grant != g
  {
    assert after[|before|..] == mid[|before|..] + after[|mid|..];
  }

  /** What every other statement does to the table: a grant starts pending with fifteen minutes to live; only a pending
      one that is still alive is approved or denied; a lapsed one expires; and one that is over is forgotten a day after
      it lapsed. */
  lemma StatementLaw(s: System, m: Move)
    requires Enabled(s, m) && (m.Start? || m.Approve? || m.Deny? || m.Sweep? || m.Reclaim?)
    ensures var grants := Next(s, m).grants;
      match m
      case Start(id, name) => grants == s.grants[id := Grant(Pending, None, name, s.clock + 900000, None, None)]
      case Approve(g, user, name, now) =>
        var row := s.grants[g];
        var named := if name.Some? then name else row.keyName;
        if row.status == Pending && now < row.expiresAt
        then
          && grants == s.grants[g := row.(status := Approved, user := Some(user), keyName := named)]
          && Next(s, m).approvals == s.approvals + [Approval(g, user)]
        else Next(s, m) == s
      case Deny(g, now) =>
        var row := s.grants[g];
        grants == if row.status == Pending && now < row.expiresAt then s.grants[g := row.(status := Denied)]
                  else s.grants
      case Sweep(g, now) =>
        var row := s.grants[g];
        grants == if row.status in {Pending, Approved} && row.expiresAt <= now
                  then s.grants[g := row.(status := Expired)] else s.grants
      case Reclaim(g, now) =>
        var row := s.grants[g];
        grants == if row.status in {Denied, Expired, Claimed} && row.expiresAt + 86400000 <= now then s.grants - {g}
                  else s.grants
      case _ => true
  {
  }

  /** What a poll is told, as section 3.5 has it: slow down exactly if the last poll was within the interval, pending
      exactly if it was not. Only the token changes the grant to claimed. */
  lemma ReplyLaw(s: System, p: nat, admitted: bool, keyId: nat)
    requires Inv(s) && p in s.polls && s.polls[p].Holding?
    ensures var poll := s.polls[p];
      var row := s.grants[poll.grant];
      var s' := Next(s, FinishPoll(p, admitted, keyId));
      var reply := s'.replies[|s.replies|].1;
      && (reply.Token? <==> row.status.Approved? && row.expiresAt > poll.now && admitted)
      && (s'.minted != s.minted <==> reply.Token?)
      && (reply == ExpiredToken <==> row.status.Expired? || (!IsTerminal(row.status) && row.expiresAt <= poll.now))
      && (reply == InvalidGrant <==> row.status.Claimed?)
      && (reply == AccessDenied <==>
          row.status.Denied? || (row.status.Approved? && row.expiresAt > poll.now && !admitted))
      && (reply == SlowDown <==>
            row.status.Pending? && row.expiresAt > poll.now && row.lastPolled.Some?
                && poll.now - row.lastPolled.value < 5000)
      && (reply == AuthorizationPending <==>
            row.status.Pending? && row.expiresAt > poll.now
                && (row.lastPolled.None? || poll.now - row.lastPolled.value >= 5000))
      && (reply == SlowDown || reply == AuthorizationPending ==> s'.grants[poll.grant].lastPolled == Some(poll.now))
      && reply != ServerError
      && s'.replies == s.replies + [(poll.grant, reply)] && s.minted <= s'.minted
      && Answers(poll.grant, row, poll.now, admitted, keyId, reply, s'.grants[poll.grant],
                 if s'.minted == s.minted then None else Some(s'.minted[|s.minted|]))
  {
    DecideAnswers(s.polls[p].grant, s.polls[p].row, s.polls[p].now, admitted, keyId);
  }
}
