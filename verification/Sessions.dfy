/** Browser sessions: how long one lives, how coarsely its use is written down, and why neither
    that nor dropping the expired ones on the way changes who is let in. */
module Sessions {
  import opened Json

  /** Time in nanoseconds. */
  const SECOND: int := 1_000_000_000
  const HOUR: int := 3600 * SECOND

  /** How long a session can last in all, and how long unused. */
  const ABSOLUTE_LIFETIME: int := 30 * 24 * HOUR
  const IDLE_LIFETIME: int := 14 * 24 * HOUR

  /** A use is written down at most this often. */
  const TOUCH_INTERVAL: int := 5 * 60 * SECOND

  datatype Session = Session(user: nat, createdAt: int, lastSeenAt: int)

  function ExpiresAt(s: Session): int {
    var absolute, idle := s.createdAt + ABSOLUTE_LIFETIME, s.lastSeenAt + IDLE_LIFETIME;
    if absolute <= idle then absolute else idle
  }

  predicate IsLive(s: Session, now: int) {
    now < ExpiresAt(s)
  }

  /** The sessions, by the hash of the token their cookie carries. */
  type Table = map<string, Session>

  function Purged(t: Table, now: int): Table {
    map k | k in t && !(t[k].createdAt <= now - ABSOLUTE_LIFETIME || t[k].lastSeenAt <= now - IDLE_LIFETIME) :: t[k]
  }

  function Opened(t: Table, token: string, user: nat, now: int): Table {
    Purged(t, now)[token := Session(user, now, now)]
  }

  function Touched(s: Session, now: int): Session {
    if now - s.lastSeenAt >= TOUCH_INTERVAL then s.(lastSeenAt := now) else s
  }

  /** The live session a token names, marked as seen. One that has expired goes. */
  function Authenticated(t: Table, token: string, now: int): (Table, Option<Session>) {
    if token !in t then (t, None)
    else if !IsLive(t[token], now) then (t - {token}, None)
    else (t[token := Touched(t[token], now)], Some(Touched(t[token], now)))
  }

  function RevokedAll(t: Table, user: nat, keep: Option<string>): Table {
    map k | k in t && (t[k].user != user || keep == Some(k)) :: t[k]
  }

  /** The tokens of a user's live sessions. */
  function Listed(t: Table, user: nat, now: int): set<string> {
    set k | k in t && t[k].user == user && IsLive(t[k], now)
  }

  class SessionStore {
    var sessions: Table

    constructor ()
      ensures sessions == map[]
    {
      sessions := map[];
    }

    method PurgeExpired(now: int)
      modifies this
      ensures sessions == Purged(old(sessions), now)
      ensures sessions == map k | k in old(sessions) && IsLive(old(sessions)[k], now) :: old(sessions)[k]
    {
      sessions := map k | k in sessions
        && !(sessions[k].createdAt <= now - ABSOLUTE_LIFETIME || sessions[k].lastSeenAt <= now - IDLE_LIFETIME) :: sessions[k];
    }

    method Create(token: string, user: nat, now: int) returns (s: Session)
      requires token !in sessions
      modifies this
      ensures sessions == Opened(old(sessions), token, user, now) && s == sessions[token]
    {
      PurgeExpired(now);
      s := Session(user, now, now);
      sessions := sessions[token := s];
    }

    method Authenticate(token: string, now: int) returns (found: Option<Session>)
      modifies this
      ensures (sessions, found) == Authenticated(old(sessions), token, now)
    {
      if token !in sessions {
        return None;
      }
      var s := sessions[token];
      if !IsLive(s, now) {
        sessions := sessions - {token};
        return None;
      }
      if now - s.lastSeenAt >= TOUCH_INTERVAL {
        s := s.(lastSeenAt := now);
      }
      sessions := sessions[token := s];
      return Some(s);
    }

    method Revoke(token: string) returns (existed: bool)
      modifies this
      ensures existed <==> token in old(sessions)
      ensures sessions == old(sessions) - {token}
    {
      existed := token in sessions;
      sessions := sessions - {token};
    }

    method RevokeAllFor(user: nat, keep: Option<string>)
      modifies this
      ensures sessions == RevokedAll(old(sessions), user, keep)
    {
      sessions := map k | k in sessions && (sessions[k].user != user || keep == Some(k)) :: sessions[k];
    }
  }

  // ---- runs ----

  datatype Op =
    | Open(token: string, user: nat, now: int)
    | Use(token: string, now: int)
    | List(user: nat, now: int)
    | Revoke(token: string, now: int)
    | RevokeAll(user: nat, keep: Option<string>, now: int)

  function After(t: Table, op: Op): Table {
    match op
    case Open(token, user, now) => Opened(t, token, user, now)
    case Use(token, now) => Authenticated(t, token, now).0
    case List(user, now) => t
    case Revoke(token, now) => t - {token}
    case RevokeAll(user, keep, now) => RevokedAll(t, user, keep)
  }

  function AfterAll(t: Table, ops: seq<Op>): Table
    decreases |ops|
  {
    if ops == [] then t else AfterAll(After(t, ops[0]), ops[1..])
  }

  /** A clock that does not run backwards, from `since` on. */
  ghost predicate Timely(ops: seq<Op>, since: int)
    decreases |ops|
  {
    ops == [] || (since <= ops[0].now && Timely(ops[1..], ops[0].now))
  }

  /** The time of the last of `ops`. */
  function Latest(ops: seq<Op>, since: int): int
    decreases |ops|
  {
    if ops == [] then since else Latest(ops[1..], ops[0].now)
  }

  ghost predicate NotReopened(ops: seq<Op>, token: string) {
    forall i :: 0 <= i < |ops| ==> !(ops[i].Open? && ops[i].token == token)
  }

  /** Purging drops exactly the sessions that have expired. */
  lemma PurgedAreLive(t: Table, now: int)
    ensures Purged(t, now) == map k | k in t && IsLive(t[k], now) :: t[k]
  {
  }

  /** Who is let in, and what is left: the session a token names if neither lifetime is over, its use
      written down; one that is over goes, and no other session is touched. */
  lemma LetInExactly(t: Table, token: string, now: int)
    ensures var (after, found) := Authenticated(t, token, now);
            && (found.Some? <==>
                  (token in t && now < t[token].createdAt + ABSOLUTE_LIFETIME && now < t[token].lastSeenAt + IDLE_LIFETIME))
            && (found.Some? ==>
                  && found.value.user == t[token].user && found.value.createdAt == t[token].createdAt
                  && now - TOUCH_INTERVAL < found.value.lastSeenAt
                  && (found.value.lastSeenAt == now || found.value == t[token]))
            && (token in after <==> found.Some?) && (found.Some? ==> after[token] == found.value)
            && (forall k :: k != token ==> (k in after <==> k in t) && (k in t ==> after[k] == t[k]))
  {
  }

  /** The sessions listed for a user are those that would be let in as them. */
  lemma ListedAreLetIn(t: Table, user: nat, now: int, token: string)
    ensures token in Listed(t, user, now) <==>
            Authenticated(t, token, now).1.Some? && Authenticated(t, token, now).1.value.user == user
  {
  }

  /** Ending sessions ends those asked for and no other. */
  lemma RevokedExactly(t: Table, op: Op, token: string)
    requires op.Revoke? || op.RevokeAll?
    ensures var asked := (op.Revoke? && op.token == token)
                         || (op.RevokeAll? && token in t && t[token].user == op.user && op.keep != Some(token));
            && (token in After(t, op) <==> token in t && !asked)
            && (token in After(t, op) ==> After(t, op)[token] == t[token])
  {
  }

  /** An ended session lets nobody in again, whatever happens afterwards. */
  lemma NotAfterRevoked(t: Table, op: Op, token: string, ops: seq<Op>, now: int)
    requires op == Revoke(token, op.now) || (op.RevokeAll? && token in t && t[token].user == op.user && op.keep != Some(token))
    requires NotReopened(ops, token)
    ensures Authenticated(AfterAll(After(t, op), ops), token, now).1 == None
  {
    RevokedExactly(t, op, token);
    if token in AfterAll(After(t, op), ops) {
      CreationStays(After(t, op), ops, token);
      assert false;
    }
  }

  lemma {:induction false} CreationStays(t: Table, ops: seq<Op>, token: string)
    requires NotReopened(ops, token) && token in AfterAll(t, ops)
    ensures token in t && AfterAll(t, ops)[token].createdAt == t[token].createdAt
    ensures AfterAll(t, ops)[token].user == t[token].user
    decreases |ops|
  {
    if ops != [] {
      assert forall i :: 0 <= i < |ops[1..]| ==> ops[1..][i] == ops[i + 1];
      CreationStays(After(t, ops[0]), ops[1..], token);
    }
  }

  /** Whoever a token lets in is who the session was opened for, whatever else is opened, used and
      ended. */
  lemma LetInAsOpened(t: Table, token: string, user: nat, openedAt: int, ops: seq<Op>, now: int)
    requires NotReopened(ops, token)
    ensures var found := Authenticated(AfterAll(Opened(t, token, user, openedAt), ops), token, now).1;
            found.Some? ==> found.value.user == user && found.value.createdAt == openedAt
  {
    if token in AfterAll(Opened(t, token, user, openedAt), ops) {
      CreationStays(Opened(t, token, user, openedAt), ops, token);
    }
  }

  /** However a session is used, it lets nobody in 30 days after it was opened. */
  lemma NotAfterThirtyDays(t: Table, token: string, user: nat, openedAt: int, ops: seq<Op>, now: int)
    requires NotReopened(ops, token) && now >= openedAt + ABSOLUTE_LIFETIME
    ensures Authenticated(AfterAll(Opened(t, token, user, openedAt), ops), token, now).1 == None
  {
    var later := AfterAll(Opened(t, token, user, openedAt), ops);
    if token in later {
      CreationStays(Opened(t, token, user, openedAt), ops, token);
    }
  }

  /** The longest gap between uses that a session is sure to survive. */
  const SAFE_GAP: int := IDLE_LIFETIME - TOUCH_INTERVAL

  /** Whether everything in `ops` happens within the safe gap of the token's last use before it,
      within its first 30 days, and nothing ends the session. */
  ghost predicate KeptInUse(ops: seq<Op>, token: string, user: nat, openedAt: int, lastUse: int)
    decreases |ops|
  {
    ops == [] ||
    var op := ops[0];
    && lastUse <= op.now <= lastUse + SAFE_GAP
    && op.now < openedAt + ABSOLUTE_LIFETIME
    && !(op.Open? && op.token == token) && !(op.Revoke? && op.token == token)
    && !(op.RevokeAll? && op.user == user && op.keep != Some(token))
    && KeptInUse(ops[1..], token, user, openedAt, if op.Use? && op.token == token then op.now else lastUse)
  }

  function LastUse(ops: seq<Op>, token: string, since: int): int
    decreases |ops|
  {
    if ops == [] then since
    else LastUse(ops[1..], token, if ops[0].Use? && ops[0].token == token then ops[0].now else since)
  }

  /** What coarse touching leaves written down about a session in use. */
  ghost predicate WrittenDown(t: Table, token: string, user: nat, openedAt: int, lastUse: int) {
    && token in t && t[token].user == user && t[token].createdAt == openedAt
    && lastUse - TOUCH_INTERVAL < t[token].lastSeenAt <= lastUse
  }

  lemma {:induction false} InUseStays(t: Table, token: string, user: nat, openedAt: int, lastUse: int, ops: seq<Op>)
    requires WrittenDown(t, token, user, openedAt, lastUse) && KeptInUse(ops, token, user, openedAt, lastUse)
    ensures WrittenDown(AfterAll(t, ops), token, user, openedAt, LastUse(ops, token, lastUse))
    decreases |ops|
  {
    if ops != [] {
      var op := ops[0];
      var used := if op.Use? && op.token == token then op.now else lastUse;
      assert IsLive(t[token], op.now);
      assert WrittenDown(After(t, op), token, user, openedAt, used);
      InUseStays(After(t, op), token, user, openedAt, used, ops[1..]);
    }
  }

  /** A session used at gaps of at most 14 days less 5 minutes never expires before its 30 days,
      although uses are not all written down, and whoever else opens, uses or ends sessions. */
  lemma UsedSessionsLive(t: Table, token: string, user: nat, openedAt: int, ops: seq<Op>, now: int)
    requires KeptInUse(ops, token, user, openedAt, openedAt)
    requires LastUse(ops, token, openedAt) <= now <= LastUse(ops, token, openedAt) + SAFE_GAP
    requires now < openedAt + ABSOLUTE_LIFETIME
    ensures Authenticated(AfterAll(Opened(t, token, user, openedAt), ops), token, now).1.Some?
  {
    InUseStays(Opened(t, token, user, openedAt), token, user, openedAt, openedAt, ops);
  }

  /** No longer gap is sure: a session opened at any time, used again just short of 5 minutes later, and
      next after a gap longer than the safe one, however little, has expired. */
  lemma SafeGapIsTight(t: Table, token: string, user: nat, openedAt: int, gap: int)
    requires gap > SAFE_GAP
    ensures var used := openedAt + TOUCH_INTERVAL - 1;
            var after := AfterAll(Opened(t, token, user, openedAt), [Use(token, used)]);
            && Authenticated(Opened(t, token, user, openedAt), token, used).1.Some?
            && Authenticated(after, token, used + gap).1 == None
  {
    var used := openedAt + TOUCH_INTERVAL - 1;
    var begun := Opened(t, token, user, openedAt);
    assert [Use(token, used)][1..] == [];
    assert AfterAll(begun, [Use(token, used)]) == After(begun, Use(token, used));
  }

  // ---- the dead stay dead ----

  ghost predicate Dead(t: Table, token: string, now: int) {
    token in t ==> !IsLive(t[token], now)
  }

  lemma {:induction false} DeadStays(t: Table, token: string, ops: seq<Op>, since: int)
    requires Dead(t, token, since) && Timely(ops, since) && NotReopened(ops, token)
    ensures Dead(AfterAll(t, ops), token, Latest(ops, since))
    decreases |ops|
  {
    if ops != [] {
      assert forall i :: 0 <= i < |ops[1..]| ==> ops[1..][i] == ops[i + 1];
      DeadStays(After(t, ops[0]), token, ops[1..], ops[0].now);
    }
  }

  /** A session that has expired or ended never lets anyone in again. */
  lemma DeadNeverRevives(t: Table, token: string, ops: seq<Op>, since: int, now: int)
    requires Dead(t, token, since) && Timely(ops, since) && NotReopened(ops, token) && now >= Latest(ops, since)
    ensures Authenticated(AfterAll(t, ops), token, now).1 == None
  {
    DeadStays(t, token, ops, since);
  }

  // ---- purging changes no answer ----

  datatype Answer = Found(session: Option<Session>) | Tokens(tokens: set<string>) | Nothing

  function AnswerTo(t: Table, op: Op): Answer {
    match op
    case Use(token, now) => Found(Authenticated(t, token, now).1)
    case List(user, now) => Tokens(Listed(t, user, now))
    case Open(_, _, _) => Nothing
    case Revoke(_, _) => Nothing
    case RevokeAll(_, _, _) => Nothing
  }

  function Answers(t: Table, ops: seq<Op>): seq<Answer>
    decreases |ops|
  {
    if ops == [] then [] else [AnswerTo(t, ops[0])] + Answers(After(t, ops[0]), ops[1..])
  }

  /** The same without anything being purged. */
  function AfterUnpurged(t: Table, op: Op): Table {
    if op.Open? then t[op.token := Session(op.user, op.now, op.now)] else After(t, op)
  }

  function UnpurgedAnswers(t: Table, ops: seq<Op>): seq<Answer>
    decreases |ops|
  {
    if ops == [] then [] else [AnswerTo(t, ops[0])] + UnpurgedAnswers(AfterUnpurged(t, ops[0]), ops[1..])
  }

  /** Two tables that hold the same live sessions. */
  ghost predicate SameLive(t: Table, u: Table, now: int) {
    forall k :: (k in t && IsLive(t[k], now)) || (k in u && IsLive(u[k], now)) ==> k in t && k in u && t[k] == u[k]
  }

  lemma SameLiveNext(t: Table, u: Table, op: Op, since: int)
    requires SameLive(t, u, since) && since <= op.now
    ensures AnswerTo(t, op) == AnswerTo(u, op)
    ensures SameLive(After(t, op), AfterUnpurged(u, op), op.now)
  {
    if op.List? {
      assert forall k :: k in Listed(t, op.user, op.now) <==> k in Listed(u, op.user, op.now);
    }
  }

  /** Dropping expired sessions whenever one is opened changes no later answer: not who is let
      in, and not which sessions are listed. */
  lemma {:induction false} PurgingIsInvisible(t: Table, u: Table, ops: seq<Op>, since: int)
    requires SameLive(t, u, since) && Timely(ops, since)
    ensures Answers(t, ops) == UnpurgedAnswers(u, ops)
    decreases |ops|
  {
    if ops != [] {
      SameLiveNext(t, u, ops[0], since);
      PurgingIsInvisible(After(t, ops[0]), AfterUnpurged(u, ops[0]), ops[1..], ops[0].now);
    }
  }
}
