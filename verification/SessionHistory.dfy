/** What every sequence of calls on the session store guarantees. */
module SessionHistory {
  import opened Policy
  import opened Text
  import opened Passwords
  import opened SessionStore

  // --- Consistency of the tables ----------------------------------------------------------------

  ghost predicate IndexExact(users: map<string, UserRow>, usernames: map<string, string>) {
    && (forall name :: name in usernames ==> usernames[name] in users && users[usernames[name]].user.username == name)
    && (forall id :: id in users ==>
          var user := users[id].user;
          user.userId == id && user.username in usernames && usernames[user.username] == id)
  }

  predicate BelongsTo(session: Session, users: map<string, UserRow>) {
    && session.userId in users
    && session.tenantId == users[session.userId].user.tenantId
    && session.role == users[session.userId].user.role
  }

  ghost predicate SessionsMatch(sessions: map<string, Session>, users: map<string, UserRow>) {
    forall s :: s in sessions ==> sessions[s].sessionId == s && BelongsTo(sessions[s], users)
  }

  /** One user per username, and every session carries the tenant and role of its user. */
  ghost predicate Consistent(db: Db) {
    IndexExact(db.users, db.usernames) && SessionsMatch(db.sessions, db.users)
  }

  /** Sessions are only ever opened for users the store itself returned. */
  predicate KnownUser(db: Db, call: Call) {
    call.CreateSession? ==>
      && call.user.userId in db.users
      && call.user.tenantId == db.users[call.user.userId].user.tenantId
      && call.user.role == db.users[call.user.userId].user.role
  }

  lemma InsertKeepsConsistent(db: Db, kdf: Kdf, tenantId: string, username: string, password: string, role: string,
                              userId: string, salt: seq<Byte>, now: int)
    requires Consistent(db)
    ensures Consistent(InsertUser(db, kdf, tenantId, username, password, role, userId, salt, now).0)
  {
  }

  lemma RowChangeKeepsConsistent(db: Db, id: string, row: UserRow)
    requires Consistent(db) && id in db.users
    requires row.user.(disabled := false) == db.users[id].user.(disabled := false)
    ensures Consistent(db.(users := db.users[id := row]))
  {
    var after := db.users[id := row];
    assert row.user.userId == id && row.user.username == db.users[id].user.username;
    assert IndexExact(after, db.usernames);
  }

  lemma ResetKeepsConsistent(db: Db, token: string, newPassword: string, salt: seq<Byte>, now: int, kdf: Kdf)
    requires Consistent(db)
    ensures Consistent(RedeemReset(db, kdf, token, newPassword, salt, now).0)
  {
    var user := ResetUser(db, RedeemPasswordReset(token, newPassword, salt), now);
    if user.Some? {
      var spent := MarkToken(db, token, now).0;
      var row := db.users[user.value].(passwordHash := HashPassword(kdf, newPassword, salt));
      RowChangeKeepsConsistent(spent, user.value, row);
      var changed := spent.(users := spent.users[user.value := row]);
      assert RedeemReset(db, kdf, token, newPassword, salt, now).0 == WithoutSessionsOf(changed, user.value);
    }
  }

  lemma StepKeepsConsistent(db: Db, call: Call, now: int, kdf: Kdf, lazy: bool)
    requires Consistent(db) && KnownUser(db, call)
    ensures Consistent(Step(db, call, now, kdf, lazy).0)
  {
    match call
    case CreateUser(tenantId, username, password, role, userId, salt) =>
      InsertKeepsConsistent(db, kdf, tenantId, username, password, role, userId, salt, now);
    case RedeemSignupInvite(token, password, userId, salt) =>
      var row := SelectToken(db, token, Signup, now);
      if row.Some? {
        InsertKeepsConsistent(MarkToken(db, token, now).0, kdf, row.value.tenantId, row.value.username, password, row.value.role, userId, salt, now);
      }
    case RedeemPasswordReset(token, newPassword, salt) => ResetKeepsConsistent(db, token, newPassword, salt, now, kdf);
    case SetDisabled(userId, disabled) =>
      if userId in db.users {
        RowChangeKeepsConsistent(db, userId, db.users[userId].(user := db.users[userId].user.(disabled := disabled)));
      }
    case CreateSession(user, sessionId, csrf) =>
      assert BelongsTo(NewSession(user, sessionId, csrf, now), db.users);
    case _ =>
  }

  // --- Tenants ------------------------------------------------------------------------------------

  ghost predicate SameUsers(a: map<string, UserRow>, b: map<string, UserRow>, tenantId: string) {
    forall id :: (id in a && a[id].user.tenantId == tenantId) || (id in b && b[id].user.tenantId == tenantId)
            ==> id in a && id in b && a[id] == b[id]
  }

  ghost predicate SameSessions(a: map<string, Session>, b: map<string, Session>, tenantId: string) {
    forall s :: (s in a && a[s].tenantId == tenantId) || (s in b && b[s].tenantId == tenantId) ==> s in a && s in b && a[s] == b[s]
  }

  ghost predicate SameTokens(a: map<string, Token>, b: map<string, Token>, tenantId: string) {
    forall t :: (t in a && a[t].tenantId == tenantId) || (t in b && b[t].tenantId == tenantId) ==> t in a && t in b && a[t] == b[t]
  }

  ghost predicate SameAcks(a: map<AckKey, Ack>, b: map<AckKey, Ack>, tenantId: string) {
    forall k :: (k in a || k in b) && k.tenantId == tenantId ==> k in a && k in b && a[k] == b[k]
  }

  /** The two states hold the same rows of one tenant: the same users, sessions, tokens and acknowledgments. */
  ghost predicate SameRows(a: Db, b: Db, tenantId: string) {
    && SameUsers(a.users, b.users, tenantId)
    && SameSessions(a.sessions, b.sessions, tenantId)
    && SameTokens(a.tokens, b.tokens, tenantId)
    && SameAcks(a.acks, b.acks, tenantId)
  }

  /** The tenant a call acts for: the one it names, or the one of the row it names. */
  function ActingTenant(db: Db, call: Call): Option<string> {
    match call
    case CreateUser(tenantId, _, _, _, _, _) => Some(tenantId)
    case CreateSignupInvite(tenantId, _, _, _) => Some(tenantId)
    case CreatePasswordResetToken(tenantId, _, _) => Some(tenantId)
    case AcknowledgeIncident(tenantId, _, _) => Some(tenantId)
    case CreateSession(user, _, _) => Some(user.tenantId)
    case SetDisabled(userId, _) => if userId in db.users then Some(db.users[userId].user.tenantId) else None
    case RedeemSignupInvite(token, _, _, _) => if token in db.tokens then Some(db.tokens[token].tenantId) else None
    case RedeemPasswordReset(token, _, _) => if token in db.tokens then Some(db.tokens[token].tenantId) else None
    case GetSession(s) => if s in db.sessions then Some(db.sessions[s].tenantId) else None
    case DestroySession(s) => if s in db.sessions then Some(db.sessions[s].tenantId) else None
    case Authenticate(_, _) => None
  }

  lemma InsertIsIsolated(db: Db, kdf: Kdf, tenantId: string, username: string, password: string, role: string,
                         userId: string, salt: seq<Byte>, now: int, other: string)
    requires other != tenantId
    ensures SameRows(InsertUser(db, kdf, tenantId, username, password, role, userId, salt, now).0, db, other)
  {
    hide HashPassword, LongEnough, SameUsers;
    if userId !in db.users {
      NewUserIsIsolated(db.users, userId, UserRow(User(userId, tenantId, username, role, now, false), HashPassword(kdf, password, salt)), other);
    }
    SameUsersAsItself(db.users, other);
  }

  lemma NewUserIsIsolated(users: map<string, UserRow>, userId: string, row: UserRow, other: string)
    requires userId !in users && row.user.tenantId != other
    ensures SameUsers(users[userId := row], users, other)
  {
  }

  lemma SameUsersAsItself(users: map<string, UserRow>, tenantId: string)
    ensures SameUsers(users, users, tenantId)
  {
  }

  lemma MarkIsIsolated(db: Db, token: string, now: int, other: string)
    requires token in db.tokens && db.tokens[token].tenantId != other
    ensures SameRows(MarkToken(db, token, now).0, db, other)
  {
  }

  lemma SameRowsChain(a: Db, b: Db, c: Db, tenantId: string)
    requires SameRows(a, b, tenantId) && SameRows(b, c, tenantId)
    ensures SameRows(a, c, tenantId)
  {
  }

  lemma NewPasswordIsIsolated(db: Db, userId: string, passwordHash: string, other: string)
    requires Consistent(db) && userId in db.users && db.users[userId].user.tenantId != other
    ensures SameRows(WithoutSessionsOf(WithPassword(db, userId, passwordHash), userId), db, other)
  {
    var after := WithoutSessionsOf(WithPassword(db, userId, passwordHash), userId);
    assert SameUsers(after.users, db.users, other);
    assert SameSessions(after.sessions, db.sessions, other);
  }

  lemma ResetIsIsolated(db: Db, token: string, newPassword: string, salt: seq<Byte>, now: int, kdf: Kdf, other: string)
    requires Consistent(db) && token in db.tokens && db.tokens[token].tenantId != other
    ensures SameRows(RedeemReset(db, kdf, token, newPassword, salt, now).0, db, other)
  {
    var spent := MarkToken(db, token, now).0;
    var user := FindUser(spent, db.tokens[token].tenantId, db.tokens[token].username);
    MarkIsIsolated(db, token, now, other);
    if user.Some? {
      var passwordHash := HashPassword(kdf, newPassword, salt);
      NewPasswordIsIsolated(spent, user.value, passwordHash, other);
      SameRowsChain(WithoutSessionsOf(WithPassword(spent, user.value, passwordHash), user.value), spent, db, other);
    }
  }

  lemma SignupIsIsolated(db: Db, token: string, password: string, userId: string, salt: seq<Byte>, now: int, kdf: Kdf, other: string)
    requires token in db.tokens && db.tokens[token].tenantId != other
    ensures SameRows(Step(db, RedeemSignupInvite(token, password, userId, salt), now, kdf, true).0, db, other)
  {
    var row := db.tokens[token];
    var spent := MarkToken(db, token, now).0;
    MarkIsIsolated(db, token, now, other);
    InsertIsIsolated(spent, kdf, row.tenantId, row.username, password, row.role, userId, salt, now, other);
    SameRowsChain(InsertUser(spent, kdf, row.tenantId, row.username, password, row.role, userId, salt, now).0, spent, db, other);
  }

  predicate Composite(call: Call) {
    call.CreateUser? || call.RedeemSignupInvite? || call.RedeemPasswordReset?
  }

  predicate OnSessions(call: Call) {
    call.CreateSession? || call.GetSession? || call.DestroySession?
  }

  lemma SessionCallIsIsolated(db: Db, call: Call, now: int, kdf: Kdf, lazy: bool, other: string)
    requires OnSessions(call) && ActingTenant(db, call) != Some(other)
    ensures SameRows(Step(db, call, now, kdf, lazy).0, db, other)
  {
    hide SameUsers;
    SameUsersAsItself(db.users, other);
  }

  lemma LinkIsIsolated(db: Db, token: string, row: Token, other: string)
    requires row.tenantId != other
    ensures SameRows(AddLink(db, token, row).0, db, other)
  {
  }

  lemma AccountCallIsIsolated(db: Db, call: Call, now: int, kdf: Kdf, lazy: bool, other: string)
    requires call.SetDisabled? || call.Authenticate? || call.AcknowledgeIncident?
    requires ActingTenant(db, call) != Some(other)
    ensures SameRows(Step(db, call, now, kdf, lazy).0, db, other)
  {
  }

  /** No call changes a row of a tenant other than the one it acts for, nor gives that tenant a new one. */
  lemma TenantsAreIsolated(db: Db, call: Call, now: int, kdf: Kdf, lazy: bool, other: string)
    requires Consistent(db) && ActingTenant(db, call) != Some(other)
    ensures SameRows(Step(db, call, now, kdf, lazy).0, db, other)
  {
    match call
    case CreateUser(tenantId, username, password, role, userId, salt) =>
      InsertIsIsolated(db, kdf, tenantId, username, password, role, userId, salt, now, other);
    case RedeemSignupInvite(token, password, userId, salt) =>
      if token in db.tokens {
        SignupIsIsolated(db, token, password, userId, salt, now, kdf, other);
      }
    case RedeemPasswordReset(token, newPassword, salt) =>
      if token in db.tokens {
        ResetIsIsolated(db, token, newPassword, salt, now, kdf, other);
      }
    case CreateSignupInvite(tenantId, username, role, token) =>
      LinkIsIsolated(db, token, Token(Signup, tenantId, username, role, now, now + SIGNUP_TTL, None), other);
    case CreatePasswordResetToken(tenantId, username, token) =>
      LinkIsIsolated(db, token, Token(PasswordReset, tenantId, username, "", now, now + RESET_TTL, None), other);
    case _ =>
      if OnSessions(call) {
        SessionCallIsIsolated(db, call, now, kdf, lazy, other);
      } else {
        AccountCallIsIsolated(db, call, now, kdf, lazy, other);
      }
  }

  // --- Runs ---------------------------------------------------------------------------------------

  datatype Turn = Turn(call: Call, now: int)

  function Run(turns: seq<Turn>, n: nat, kdf: Kdf, lazy: bool): Db
    requires n <= |turns|
  {
    if n == 0 then EMPTY else Step(Run(turns, n - 1, kdf, lazy), turns[n - 1].call, turns[n - 1].now, kdf, lazy).0
  }

  function AnswerAt(turns: seq<Turn>, n: nat, kdf: Kdf, lazy: bool): Answer
    requires n < |turns|
  {
    Step(Run(turns, n, kdf, lazy), turns[n].call, turns[n].now, kdf, lazy).1
  }

  predicate MonotoneClock(turns: seq<Turn>) {
    forall i, j :: 0 <= i <= j < |turns| ==> turns[i].now <= turns[j].now
  }

  predicate KnownUsersTo(turns: seq<Turn>, n: nat, kdf: Kdf, lazy: bool)
    requires n <= |turns|
  {
    n == 0 || (KnownUsersTo(turns, n - 1, kdf, lazy) && KnownUser(Run(turns, n - 1, kdf, lazy), turns[n - 1].call))
  }

  /** In every run there is one user per username and every session matches its user. */
  lemma {:induction false} RunsAreConsistent(turns: seq<Turn>, n: nat, kdf: Kdf, lazy: bool)
    requires n <= |turns| && KnownUsersTo(turns, n, kdf, lazy)
    ensures Consistent(Run(turns, n, kdf, lazy))
  {
    if n > 0 {
      RunsAreConsistent(turns, n - 1, kdf, lazy);
      StepKeepsConsistent(Run(turns, n - 1, kdf, lazy), turns[n - 1].call, turns[n - 1].now, kdf, lazy);
    }
  }

  /** In every run two users with the same username, of whatever tenants, are the same user. */
  lemma UsernamesAreUnique(turns: seq<Turn>, n: nat, kdf: Kdf, lazy: bool, id: string, id': string)
    requires n <= |turns| && KnownUsersTo(turns, n, kdf, lazy)
    requires id in Run(turns, n, kdf, lazy).users && id' in Run(turns, n, kdf, lazy).users
    ensures var users := Run(turns, n, kdf, lazy).users; users[id].user.username == users[id'].user.username ==> id == id'
  {
    RunsAreConsistent(turns, n, kdf, lazy);
  }

  // --- Disabling -----------------------------------------------------------------------------------------

  function Flagless(row: UserRow): UserRow {
    row.(user := row.user.(disabled := false))
  }

  /** The two states differ in disabled flags only. */
  ghost predicate SameButFlags(a: Db, b: Db) {
    && a.sessions == b.sessions && a.tokens == b.tokens && a.usernames == b.usernames && a.acks == b.acks
    && SameUsersButFlags(a.users, b.users)
  }

  ghost predicate SameUsersButFlags(a: map<string, UserRow>, b: map<string, UserRow>) {
    && (forall id :: id in a <==> id in b)
    && forall id :: id in a && id in b ==> Flagless(a[id]) == Flagless(b[id])
  }

  lemma SameRowKeepsFlags(a: map<string, UserRow>, b: map<string, UserRow>, id: string, row: UserRow, row': UserRow)
    requires SameUsersButFlags(a, b) && Flagless(row) == Flagless(row')
    ensures SameUsersButFlags(a[id := row], b[id := row'])
  {
  }

  lemma InsertKeepsFlags(a: Db, b: Db, kdf: Kdf, tenantId: string, username: string, password: string, role: string,
                         userId: string, salt: seq<Byte>, now: int)
    requires SameButFlags(a, b)
    ensures SameButFlags(InsertUser(a, kdf, tenantId, username, password, role, userId, salt, now).0,
                         InsertUser(b, kdf, tenantId, username, password, role, userId, salt, now).0)
  {
    hide HashPassword, LongEnough, SameUsersButFlags;
    assert userId in a.users <==> userId in b.users by { FlagsKeepKeys(a.users, b.users, userId); }
    var row := UserRow(User(userId, tenantId, username, role, now, false), HashPassword(kdf, password, salt));
    SameRowKeepsFlags(a.users, b.users, userId, row, row);
  }

  lemma FlagsKeepKeys(a: map<string, UserRow>, b: map<string, UserRow>, id: string)
    requires SameUsersButFlags(a, b)
    ensures id in a <==> id in b
    ensures id in a ==> Flagless(a[id]) == Flagless(b[id]) && a[id].user.tenantId == b[id].user.tenantId
  {
  }

  lemma ResetKeepsFlags(a: Db, b: Db, kdf: Kdf, token: string, newPassword: string, salt: seq<Byte>, now: int)
    requires SameButFlags(a, b)
    ensures SameButFlags(RedeemReset(a, kdf, token, newPassword, salt, now).0, RedeemReset(b, kdf, token, newPassword, salt, now).0)
  {
    hide HashPassword, LongEnough, SameUsersButFlags;
    var row := SelectToken(a, token, PasswordReset, now);
    if row.Some? {
      var name := row.value.username;
      if name in a.usernames {
        var id := a.usernames[name];
        FlagsKeepKeys(a.users, b.users, id);
        if id in a.users {
          var hash := HashPassword(kdf, newPassword, salt);
          SameRowKeepsFlags(a.users, b.users, id, a.users[id].(passwordHash := hash), b.users[id].(passwordHash := hash));
        }
      }
    }
  }

  lemma StepKeepsFlags(a: Db, b: Db, call: Call, now: int, kdf: Kdf, lazy: bool)
    requires SameButFlags(a, b)
    ensures SameButFlags(Step(a, call, now, kdf, lazy).0, Step(b, call, now, kdf, lazy).0)
  {
    hide HashPassword, VerifyPassword, InsertUser, RedeemReset, SameUsersButFlags;
    match call
    case CreateUser(tenantId, username, password, role, userId, salt) =>
      InsertKeepsFlags(a, b, kdf, tenantId, username, password, role, userId, salt, now);
    case SetDisabled(userId, disabled) =>
      FlagsKeepKeys(a.users, b.users, userId);
      if userId in a.users {
        SameRowKeepsFlags(a.users, b.users, userId, a.users[userId].(user := a.users[userId].user.(disabled := disabled)),
                          b.users[userId].(user := b.users[userId].user.(disabled := disabled)));
      }
    case RedeemSignupInvite(token, password, userId, salt) =>
      var row := SelectToken(a, token, Signup, now);
      if row.Some? {
        InsertKeepsFlags(MarkToken(a, token, now).0, MarkToken(b, token, now).0, kdf, row.value.tenantId, row.value.username, password,
                         row.value.role, userId, salt, now);
      }
    case RedeemPasswordReset(token, newPassword, salt) => ResetKeepsFlags(a, b, kdf, token, newPassword, salt, now);
    case CreatePasswordResetToken(tenantId, username, token) =>
      if username in a.usernames {
        FlagsKeepKeys(a.users, b.users, a.usernames[username]);
      }
    case _ =>
  }

  lemma DisablingKeepsFlags(db: Db, call: Call, now: int, kdf: Kdf, lazy: bool)
    requires call.SetDisabled?
    ensures SameButFlags(Step(db, call, now, kdf, lazy).0, db)
  {
  }

  lemma {:induction false} RunTake(turns: seq<Turn>, n: nat, m: nat, kdf: Kdf, lazy: bool)
    requires n <= m <= |turns|
    ensures Run(turns[..m], n, kdf, lazy) == Run(turns, n, kdf, lazy)
  {
    hide Step;
    if n > 0 {
      RunTake(turns, n - 1, m, kdf, lazy);
    }
  }

  /**
   * Disabling or enabling a user ends no session and opens none: leave any such call out of any run, and afterwards the
   * sessions are the same, so every look-up is answered alike.
   */
  lemma {:induction false} DisablingTouchesNoSession(before: seq<Turn>, flag: Turn, after: seq<Turn>, kdf: Kdf, lazy: bool)
    requires flag.call.SetDisabled?
    ensures SameButFlags(Run(before + [flag] + after, |before| + 1 + |after|, kdf, lazy), Run(before + after, |before| + |after|, kdf, lazy))
    decreases |after|
  {
    hide Step, SameButFlags;
    var with, without := before + [flag] + after, before + after;
    if after == [] {
      RunTake(with, |before|, |before|, kdf, lazy);
      assert with[..|before|] == before && without == before;
      DisablingKeepsFlags(Run(before, |before|, kdf, lazy), flag.call, flag.now, kdf, lazy);
      RunEnds(with, kdf, lazy);
    } else {
      var last := |after| - 1;
      DisablingTouchesNoSession(before, flag, after[..last], kdf, lazy);
      assert with[..|with| - 1] == before + [flag] + after[..last] && without[..|without| - 1] == before + after[..last];
      RunEnds(with, kdf, lazy);
      RunEnds(without, kdf, lazy);
      StepKeepsFlags(Run(with, |with| - 1, kdf, lazy), Run(without, |without| - 1, kdf, lazy), after[last].call, after[last].now, kdf, lazy);
    }
  }

  lemma RunEnds(turns: seq<Turn>, kdf: Kdf, lazy: bool)
    requires turns != []
    ensures var n := |turns| - 1;
            && Run(turns, n, kdf, lazy) == Run(turns[..n], n, kdf, lazy)
            && Run(turns, n + 1, kdf, lazy) == Step(Run(turns, n, kdf, lazy), turns[n].call, turns[n].now, kdf, lazy).0
  {
    hide Step;
    RunTake(turns, |turns| - 1, |turns| - 1, kdf, lazy);
  }

  // --- The life of a session ----------------------------------------------------------------------

  predicate Opens(db: Db, turn: Turn, session: Session) {
    && turn.call.CreateSession? && turn.call.sessionId !in db.sessions
    && var user := turn.call.user;
    session == Session(turn.call.sessionId, user.userId, user.tenantId, user.role, turn.call.csrf, turn.now, turn.now + 28_800_000)
  }

  /** Logged out, or its user's password was reset. */
  predicate Ends(db: Db, turn: Turn, session: Session) {
    || turn.call == DestroySession(session.sessionId)
    || ResetUser(db, turn.call, turn.now) == Some(session.userId)
  }

  predicate LooksUpAfterExpiry(turn: Turn, session: Session) {
    turn.call == GetSession(session.sessionId) && session.expiresAt <= turn.now
  }

  /** Opened at turn i and neither ended nor swept away before turn n. */
  predicate LiveSince(turns: seq<Turn>, i: nat, n: nat, kdf: Kdf, lazy: bool, session: Session)
    requires i < n <= |turns|
  {
    && Opens(Run(turns, i, kdf, lazy), turns[i], session)
    && forall j :: i < j < n ==> !Ends(Run(turns, j, kdf, lazy), turns[j], session) && !(lazy && LooksUpAfterExpiry(turns[j], session))
  }

  /** All that a call does to the sessions table. */
  function SessionsAfter(db: Db, turn: Turn, lazy: bool): map<string, Session> {
    match turn.call
    case CreateSession(user, sessionId, csrf) =>
      if sessionId in db.sessions then db.sessions else db.sessions[sessionId := NewSession(user, sessionId, csrf, turn.now)]
    case GetSession(sessionId) =>
      if lazy && sessionId in db.sessions && db.sessions[sessionId].expiresAt <= turn.now then db.sessions - {sessionId} else db.sessions
    case DestroySession(sessionId) => db.sessions - {sessionId}
    case RedeemPasswordReset(_, _, _) =>
      var user := ResetUser(db, turn.call, turn.now);
      if user.Some? then map s | s in db.sessions && db.sessions[s].userId != user.value :: db.sessions[s] else db.sessions
    case _ => db.sessions
  }

  lemma ResetSessions(db: Db, token: string, newPassword: string, salt: seq<Byte>, now: int, kdf: Kdf)
    ensures RedeemReset(db, kdf, token, newPassword, salt, now).0.sessions
              == SessionsAfter(db, Turn(RedeemPasswordReset(token, newPassword, salt), now), false)
  {
  }

  lemma StepSessions(db: Db, turn: Turn, kdf: Kdf, lazy: bool)
    ensures Step(db, turn.call, turn.now, kdf, lazy).0.sessions == SessionsAfter(db, turn, lazy)
  {
    if turn.call.RedeemPasswordReset? {
      ResetSessions(db, turn.call.token, turn.call.newPassword, turn.call.salt, turn.now, kdf);
    }
  }

  predicate Keyed(sessions: map<string, Session>) {
    forall s :: s in sessions ==> sessions[s].sessionId == s
  }

  lemma SessionStep(db: Db, turn: Turn, kdf: Kdf, lazy: bool, session: Session)
    requires Keyed(db.sessions)
    ensures Keyed(Step(db, turn.call, turn.now, kdf, lazy).0.sessions)
    ensures Stored(Step(db, turn.call, turn.now, kdf, lazy).0, session) <==>
              || Opens(db, turn, session)
              || (Stored(db, session) && !Ends(db, turn, session) && !(lazy && LooksUpAfterExpiry(turn, session)))
  {
    StepSessions(db, turn, kdf, lazy);
  }

  predicate Stored(db: Db, session: Session) {
    session.sessionId in db.sessions && db.sessions[session.sessionId] == session
  }

  lemma {:induction false} SessionsAreKeyed(turns: seq<Turn>, n: nat, kdf: Kdf, lazy: bool, any: Session)
    requires n <= |turns|
    ensures Keyed(Run(turns, n, kdf, lazy).sessions)
  {
    if n > 0 {
      SessionsAreKeyed(turns, n - 1, kdf, lazy, any);
      SessionStep(Run(turns, n - 1, kdf, lazy), turns[n - 1], kdf, lazy, any);
    }
  }

  /** Liveness through one more turn. */
  lemma LiveNext(turns: seq<Turn>, i: nat, n: nat, kdf: Kdf, lazy: bool, session: Session)
    requires i < n < |turns|
    ensures LiveSince(turns, i, n + 1, kdf, lazy, session) <==>
              LiveSince(turns, i, n, kdf, lazy, session) && !Ends(Run(turns, n, kdf, lazy), turns[n], session)
              && !(lazy && LooksUpAfterExpiry(turns[n], session))
  {
  }

  lemma {:induction false} StoredWasOpened(turns: seq<Turn>, n: nat, kdf: Kdf, lazy: bool, session: Session) returns (i: nat)
    requires n <= |turns| && Stored(Run(turns, n, kdf, lazy), session)
    ensures i < n && LiveSince(turns, i, n, kdf, lazy, session)
  {
    var db, turn := Run(turns, n - 1, kdf, lazy), turns[n - 1];
    SessionsAreKeyed(turns, n - 1, kdf, lazy, session);
    SessionStep(db, turn, kdf, lazy, session);
    if Opens(db, turn, session) {
      i := n - 1;
    } else {
      i := StoredWasOpened(turns, n - 1, kdf, lazy, session);
      LiveNext(turns, i, n - 1, kdf, lazy, session);
    }
  }

  lemma {:induction false} LiveIsStored(turns: seq<Turn>, i: nat, n: nat, kdf: Kdf, lazy: bool, session: Session)
    requires i < n <= |turns| && LiveSince(turns, i, n, kdf, lazy, session)
    ensures Stored(Run(turns, n, kdf, lazy), session)
  {
    SessionsAreKeyed(turns, n - 1, kdf, lazy, session);
    SessionStep(Run(turns, n - 1, kdf, lazy), turns[n - 1], kdf, lazy, session);
    if i < n - 1 {
      LiveNext(turns, i, n - 1, kdf, lazy, session);
      LiveIsStored(turns, i, n - 1, kdf, lazy, session);
    }
  }

  /** A session row is there exactly when the history says the session is live. */
  lemma StoredIffLive(turns: seq<Turn>, n: nat, kdf: Kdf, lazy: bool, session: Session)
    requires n <= |turns|
    ensures Stored(Run(turns, n, kdf, lazy), session) <==> exists i: nat :: i < n && LiveSince(turns, i, n, kdf, lazy, session)
  {
    if Stored(Run(turns, n, kdf, lazy), session) {
      var i := StoredWasOpened(turns, n, kdf, lazy, session);
    }
    if i: nat :| i < n && LiveSince(turns, i, n, kdf, lazy, session) {
      LiveIsStored(turns, i, n, kdf, lazy, session);
    }
  }

  /**
   * Under any clock, getSession answers with a session exactly when it was opened, not ended, still inside its eight-hour
   * window, and no earlier look-up already found it expired.
   */
  lemma SessionAnswerIsExact(turns: seq<Turn>, n: nat, kdf: Kdf, session: Session)
    requires n < |turns| && turns[n].call == GetSession(session.sessionId)
    ensures AnswerAt(turns, n, kdf, true) == MaybeSession(Some(session)) <==>
              turns[n].now < session.expiresAt && exists i: nat :: i < n && LiveSince(turns, i, n, kdf, true, session)
  {
    StoredIffLive(turns, n, kdf, true, session);
    SessionsAreKeyed(turns, n, kdf, true, session);
  }

  /** With a clock that never runs back: opened, never destroyed, younger than eight hours, and no reset since. */
  lemma SessionAnswerUnderMonotoneClock(turns: seq<Turn>, n: nat, kdf: Kdf, session: Session)
    requires n < |turns| && turns[n].call == GetSession(session.sessionId) && MonotoneClock(turns)
    ensures AnswerAt(turns, n, kdf, true) == MaybeSession(Some(session)) <==>
              exists i: nat :: i < n && Opens(Run(turns, i, kdf, true), turns[i], session)
                && turns[n].now < turns[i].now + 28_800_000
                && forall j :: i < j < n ==> !Ends(Run(turns, j, kdf, true), turns[j], session)
  {
    SessionAnswerIsExact(turns, n, kdf, session);
    forall i: nat | i < n && Opens(Run(turns, i, kdf, true), turns[i], session) && turns[n].now < turns[i].now + 28_800_000
        && forall j :: i < j < n ==> !Ends(Run(turns, j, kdf, true), turns[j], session)
      ensures LiveSince(turns, i, n, kdf, true, session)
    {
      forall j | i < j < n ensures !LooksUpAfterExpiry(turns[j], session) {
        assert turns[j].now <= turns[n].now;
      }
    }
  }

  // --- Lazy expiry against no expiry -------------------------------------------------------------------

  predicate SameButSessions(a: Db, b: Db) {
    a.users == b.users && a.usernames == b.usernames && a.tokens == b.tokens && a.acks == b.acks
  }

  /** The lazy store lacks some rows of the plain store, all of them expired. */
  ghost predicate Simulates(swept: Db, plain: Db, now: int) {
    && SameButSessions(swept, plain)
    && (forall s :: s in swept.sessions ==> s in plain.sessions && plain.sessions[s] == swept.sessions[s])
    && (forall s :: s in plain.sessions && s !in swept.sessions ==> plain.sessions[s].expiresAt <= now)
  }

  lemma SimilarSessions(swept: Db, plain: Db, before: int, turn: Turn, kdf: Kdf)
    requires Simulates(swept, plain, before) && before <= turn.now
    requires turn.call.CreateSession? ==> turn.call.sessionId !in plain.sessions
    ensures var a := SessionsAfter(swept, turn, true);
            var b := SessionsAfter(plain, turn, false);
            && (forall s :: s in a ==> s in b && b[s] == a[s])
            && (forall s :: s in b && s !in a ==> b[s].expiresAt <= turn.now)
  {
    assert ResetUser(swept, turn.call, turn.now) == ResetUser(plain, turn.call, turn.now);
  }

  lemma InsertIgnoresSessions(a: Db, b: Db, kdf: Kdf, tenantId: string, username: string, password: string, role: string,
                              userId: string, salt: seq<Byte>, now: int)
    requires SameButSessions(a, b)
    ensures var (a', x) := InsertUser(a, kdf, tenantId, username, password, role, userId, salt, now);
            var (b', y) := InsertUser(b, kdf, tenantId, username, password, role, userId, salt, now);
            SameButSessions(a', b') && x == y
  {
  }

  lemma ResetIgnoresSessions(a: Db, b: Db, token: string, newPassword: string, salt: seq<Byte>, now: int, kdf: Kdf)
    requires SameButSessions(a, b)
    ensures var (a', x) := RedeemReset(a, kdf, token, newPassword, salt, now);
            var (b', y) := RedeemReset(b, kdf, token, newPassword, salt, now);
            SameButSessions(a', b') && x == y
  {
  }

  lemma SessionCallTouchesOnlySessions(db: Db, call: Call, now: int, kdf: Kdf, lazy: bool)
    requires OnSessions(call)
    ensures SameButSessions(Step(db, call, now, kdf, lazy).0, db)
  {
  }

  lemma AccountCallIgnoresSessions(a: Db, b: Db, call: Call, now: int, kdf: Kdf)
    requires SameButSessions(a, b) && !Composite(call) && !OnSessions(call)
    ensures SameButSessions(Step(a, call, now, kdf, true).0, Step(b, call, now, kdf, false).0)
    ensures Step(a, call, now, kdf, true).1 == Step(b, call, now, kdf, false).1
  {
  }

  /** Apart from sessions, a call neither reads nor writes what the two stores disagree on. */
  lemma SessionsOnlyMatterToSessions(a: Db, b: Db, turn: Turn, kdf: Kdf)
    requires SameButSessions(a, b)
    ensures var (a', x) := Step(a, turn.call, turn.now, kdf, true);
            var (b', y) := Step(b, turn.call, turn.now, kdf, false);
            SameButSessions(a', b') && (!turn.call.CreateSession? && !turn.call.GetSession? ==> x == y)
  {
    match turn.call
    case CreateUser(tenantId, username, password, role, userId, salt) =>
      InsertIgnoresSessions(a, b, kdf, tenantId, username, password, role, userId, salt, turn.now);
    case RedeemSignupInvite(token, password, userId, salt) =>
      var row := SelectToken(a, token, Signup, turn.now);
      if row.Some? {
        InsertIgnoresSessions(MarkToken(a, token, turn.now).0, MarkToken(b, token, turn.now).0, kdf,
                              row.value.tenantId, row.value.username, password, row.value.role, userId, salt, turn.now);
      }
    case RedeemPasswordReset(token, newPassword, salt) =>
      ResetIgnoresSessions(a, b, token, newPassword, salt, turn.now, kdf);
    case _ =>
      if OnSessions(turn.call) {
        SessionCallTouchesOnlySessions(a, turn.call, turn.now, kdf, true);
        SessionCallTouchesOnlySessions(b, turn.call, turn.now, kdf, false);
      } else {
        AccountCallIgnoresSessions(a, b, turn.call, turn.now, kdf);
      }
  }

  lemma StepSimulates(swept: Db, plain: Db, before: int, turn: Turn, kdf: Kdf)
    requires Simulates(swept, plain, before) && before <= turn.now
    requires turn.call.CreateSession? ==> turn.call.sessionId !in plain.sessions
    ensures Step(swept, turn.call, turn.now, kdf, true).1 == Step(plain, turn.call, turn.now, kdf, false).1
    ensures Simulates(Step(swept, turn.call, turn.now, kdf, true).0, Step(plain, turn.call, turn.now, kdf, false).0, turn.now)
  {
    SimilarSessions(swept, plain, before, turn, kdf);
    SessionsOnlyMatterToSessions(swept, plain, turn, kdf);
    StepSessions(swept, turn, kdf, true);
    StepSessions(plain, turn, kdf, false);
  }

  /** Session identifiers are random: no two calls draw the same one. */
  predicate FreshSessionIds(turns: seq<Turn>) {
    forall i, j :: 0 <= i < j < |turns| && turns[i].call.CreateSession? && turns[j].call.CreateSession?
              ==> turns[i].call.sessionId != turns[j].call.sessionId
  }

  lemma {:induction false} NeverOpenedIsAbsent(turns: seq<Turn>, n: nat, kdf: Kdf, lazy: bool, sessionId: string)
    requires n <= |turns|
    requires forall i :: 0 <= i < n && turns[i].call.CreateSession? ==> turns[i].call.sessionId != sessionId
    ensures sessionId !in Run(turns, n, kdf, lazy).sessions
  {
    if n > 0 {
      NeverOpenedIsAbsent(turns, n - 1, kdf, lazy, sessionId);
      StepSessions(Run(turns, n - 1, kdf, lazy), turns[n - 1], kdf, lazy);
    }
  }

  lemma {:induction false} RunSimulates(turns: seq<Turn>, n: nat, kdf: Kdf)
    requires n <= |turns| && MonotoneClock(turns) && FreshSessionIds(turns)
    ensures n == 0 ==> Simulates(Run(turns, n, kdf, true), Run(turns, n, kdf, false), 0)
    ensures n > 0 ==> Simulates(Run(turns, n, kdf, true), Run(turns, n, kdf, false), turns[n - 1].now)
    ensures n < |turns| ==> AnswerAt(turns, n, kdf, true) == AnswerAt(turns, n, kdf, false)
    decreases n
  {
    if n > 0 {
      RunSimulates(turns, n - 1, kdf);
      TurnSimulates(turns, n - 1, kdf);
    }
    if n < |turns| {
      TurnSimulates(turns, n, kdf);
    }
  }

  lemma TurnSimulates(turns: seq<Turn>, n: nat, kdf: Kdf)
    requires n < |turns| && MonotoneClock(turns) && FreshSessionIds(turns)
    requires if n == 0 then true else Simulates(Run(turns, n, kdf, true), Run(turns, n, kdf, false), turns[n - 1].now)
    ensures AnswerAt(turns, n, kdf, true) == AnswerAt(turns, n, kdf, false)
    ensures Simulates(Run(turns, n + 1, kdf, true), Run(turns, n + 1, kdf, false), turns[n].now)
  {
    if turns[n].call.CreateSession? {
      NeverOpenedIsAbsent(turns, n, kdf, false, turns[n].call.sessionId);
    }
    StepSimulates(Run(turns, n, kdf, true), Run(turns, n, kdf, false), if n == 0 then turns[n].now else turns[n - 1].now, turns[n], kdf);
  }

  /** Sweeping expired sessions on look-up is invisible: every call of every run is answered as if nothing were swept. */
  lemma LazyExpiryIsInvisible(turns: seq<Turn>, n: nat, kdf: Kdf)
    requires n < |turns| && MonotoneClock(turns) && FreshSessionIds(turns)
    ensures AnswerAt(turns, n, kdf, true) == AnswerAt(turns, n, kdf, false)
  {
    RunSimulates(turns, n, kdf);
  }

  /** Were the clock to run back, it would show: a session swept at its expiry stays gone. */
  lemma LazyExpiryShowsWhenClockRunsBack(kdf: Kdf, user: User)
    ensures var turns := [Turn(CreateSession(user, "s", "c"), 0), Turn(GetSession("s"), SESSION_TTL), Turn(GetSession("s"), 1)];
            && AnswerAt(turns, 2, kdf, true) == MaybeSession(None)
            && AnswerAt(turns, 2, kdf, false) == MaybeSession(Some(NewSession(user, "s", "c", 0)))
  {
    var turns := [Turn(CreateSession(user, "s", "c"), 0), Turn(GetSession("s"), SESSION_TTL), Turn(GetSession("s"), 1)];
    forall lazy: bool ensures Run(turns, 1, kdf, lazy).sessions == map["s" := NewSession(user, "s", "c", 0)] {
      assert Run(turns, 0, kdf, lazy) == EMPTY;
    }
    assert Run(turns, 2, kdf, true).sessions == map[];
    assert Run(turns, 2, kdf, false) == Run(turns, 1, kdf, false);
  }

  // --- When a redemption succeeds ----------------------------------------------------------------------

  predicate Usable(db: Db, token: string, kind: Kind, now: int) {
    token in db.tokens && db.tokens[token].kind == kind && db.tokens[token].usedAt.None? && now < db.tokens[token].expiresAt
  }

  /** A signup succeeds exactly when its link is usable, the password long enough, the role real and the name untaken. */
  lemma SignupSucceedsExactlyWhen(db: Db, token: string, password: string, userId: string, salt: seq<Byte>, now: int, kdf: Kdf)
    requires Consistent(db) && userId !in db.users
    ensures Step(db, RedeemSignupInvite(token, password, userId, salt), now, kdf, true).1.UserIs? <==>
              && Usable(db, token, Signup, now)
              && Utf16Length(password) >= 12 && db.tokens[token].role in CLIENT_ROLES
              && forall id :: id in db.users ==> db.users[id].user.username != db.tokens[token].username
  {
  }

  /** A reset succeeds exactly when its link is usable, the password long enough and the account still there. */
  lemma ResetSucceedsExactlyWhen(db: Db, token: string, newPassword: string, salt: seq<Byte>, now: int, kdf: Kdf)
    requires Consistent(db)
    ensures Step(db, RedeemPasswordReset(token, newPassword, salt), now, kdf, true).1 == Done <==>
              && Usable(db, token, PasswordReset, now)
              && Utf16Length(newPassword) >= 12
              && exists id :: id in db.users && db.users[id].user.username == db.tokens[token].username
                              && db.users[id].user.tenantId == db.tokens[token].tenantId
  {
    if Usable(db, token, PasswordReset, now) {
      var row := db.tokens[token];
      var found := FindUser(db, row.tenantId, row.username);
      assert found.Some? <==> exists id :: id in db.users && db.users[id].user.username == row.username && db.users[id].user.tenantId == row.tenantId;
      assert FindUser(MarkToken(db, token, now).0, row.tenantId, row.username) == found;
    }
  }

  // --- Redemption, then login --------------------------------------------------------------------------

  /**
   * After a successful reset the account opens with exactly the passwords that derive the new key, none of the user's
   * sessions is left, and every other user's row and sessions are as before.
   */
  lemma ResetReplacesCredential(db: Db, token: string, newPassword: string, salt: seq<Byte>, now: int, kdf: Kdf, q: string, later: int)
    requires Consistent(db) && salt != [] && kdf(newPassword, salt) != []
    requires Step(db, RedeemPasswordReset(token, newPassword, salt), now, kdf, true).1 == Done
    ensures ResetUser(db, RedeemPasswordReset(token, newPassword, salt), now).Some?
    ensures var after := Step(db, RedeemPasswordReset(token, newPassword, salt), now, kdf, true).0;
            var userId := ResetUser(db, RedeemPasswordReset(token, newPassword, salt), now).value;
            && userId in db.users
            && var user := db.users[userId].user;
            && user.username == db.tokens[token].username && user.tenantId == db.tokens[token].tenantId
            && (Step(after, Authenticate(user.username, q), later, kdf, true).1 == MaybeUser(Some(user)) <==>
                  !user.disabled && kdf(q, salt) == kdf(newPassword, salt))
            && (forall s :: s in after.sessions ==> after.sessions[s].userId != userId)
            && (forall s :: s in db.sessions && db.sessions[s].userId != userId ==> s in after.sessions && after.sessions[s] == db.sessions[s])
            && after.users.Keys == db.users.Keys
            && (forall id :: id in db.users && id != userId ==> after.users[id] == db.users[id])
  {
    VerifyExactlyWhenKeysAgree(kdf, newPassword, q, salt);
  }

  /** A redeemed invite makes the user the invite named, and lets it in with the chosen password. */
  lemma SignupMakesInvitedUser(db: Db, token: string, password: string, userId: string, salt: seq<Byte>, now: int, kdf: Kdf, q: string, later: int)
    requires salt != [] && kdf(password, salt) != []
    requires Step(db, RedeemSignupInvite(token, password, userId, salt), now, kdf, true).1.UserIs?
    ensures token in db.tokens
    ensures var (after, answer) := Step(db, RedeemSignupInvite(token, password, userId, salt), now, kdf, true);
            var invite := db.tokens[token];
            && invite.kind == Signup && invite.usedAt.None? && now < invite.expiresAt
            && answer.user == User(userId, invite.tenantId, invite.username, invite.role, now, false)
            && after.tokens[token].usedAt == Some(now)
            && (Step(after, Authenticate(invite.username, q), later, kdf, true).1 == MaybeUser(Some(answer.user)) <==>
                  kdf(q, salt) == kdf(password, salt))
  {
    VerifyExactlyWhenKeysAgree(kdf, password, q, salt);
  }

  predicate Spends(turn: Turn, token: string, kind: Kind) {
    match turn.call
    case RedeemSignupInvite(t, _, _, _) => t == token && kind == Signup
    case RedeemPasswordReset(t, _, _) => t == token && kind == PasswordReset
    case _ => false
  }

  lemma SpendingMarks(db: Db, turn: Turn, token: string, kind: Kind, kdf: Kdf)
    requires Spends(turn, token, kind)
    ensures var (after, answer) := Step(db, turn.call, turn.now, kdf, true);
            if SelectToken(db, token, kind, turn.now).Some?
            then token in after.tokens && after.tokens[token] == db.tokens[token].(usedAt := Some(turn.now))
            else answer == Refused(InvalidInput)
  {
  }

  lemma SpentStaysSpent(db: Db, turn: Turn, token: string, kdf: Kdf)
    requires token in db.tokens && db.tokens[token].usedAt.Some?
    ensures var after := Step(db, turn.call, turn.now, kdf, true).0;
            token in after.tokens && after.tokens[token] == db.tokens[token]
  {
    hide InsertUser, RedeemReset, VerifyPassword;
    match turn.call
    case CreateUser(tenantId, username, password, role, userId, salt) =>
      InsertKeepsTokens(db, kdf, tenantId, username, password, role, userId, salt, turn.now);
    case RedeemSignupInvite(t, password, userId, salt) => SignupKeepsSpent(db, t, password, userId, salt, turn.now, kdf, token);
    case RedeemPasswordReset(t, newPassword, salt) => ResetKeepsSpent(db, t, newPassword, salt, turn.now, kdf, token);
    case _ =>
  }

  lemma InsertKeepsTokens(db: Db, kdf: Kdf, tenantId: string, username: string, password: string, role: string,
                          userId: string, salt: seq<Byte>, now: int)
    ensures InsertUser(db, kdf, tenantId, username, password, role, userId, salt, now).0.tokens == db.tokens
  {
  }

  lemma SignupKeepsSpent(db: Db, t: string, password: string, userId: string, salt: seq<Byte>, now: int, kdf: Kdf, token: string)
    requires token in db.tokens && db.tokens[token].usedAt.Some?
    ensures var after := Step(db, RedeemSignupInvite(t, password, userId, salt), now, kdf, true).0;
            token in after.tokens && after.tokens[token] == db.tokens[token]
  {
    hide InsertUser;
    var row := SelectToken(db, t, Signup, now);
    if row.Some? {
      InsertKeepsTokens(MarkToken(db, t, now).0, kdf, row.value.tenantId, row.value.username, password, row.value.role, userId, salt, now);
    }
  }

  lemma ResetKeepsSpent(db: Db, t: string, newPassword: string, salt: seq<Byte>, now: int, kdf: Kdf, token: string)
    requires token in db.tokens && db.tokens[token].usedAt.Some?
    ensures var after := RedeemReset(db, kdf, t, newPassword, salt, now).0;
            token in after.tokens && after.tokens[token] == db.tokens[token]
  {
    hide HashPassword, FindUser;
  }

  lemma {:induction false} SpentSince(turns: seq<Turn>, i: nat, n: nat, kdf: Kdf, token: string, kind: Kind)
    requires i < n <= |turns| && Spends(turns[i], token, kind)
    requires SelectToken(Run(turns, i, kdf, true), token, kind, turns[i].now).Some?
    ensures var db := Run(turns, n, kdf, true); token in db.tokens && db.tokens[token].usedAt == Some(turns[i].now)
  {
    if i == n - 1 {
      SpendingMarks(Run(turns, i, kdf, true), turns[i], token, kind, kdf);
    } else {
      SpentSince(turns, i, n - 1, kdf, token, kind);
      SpentStaysSpent(Run(turns, n - 1, kdf, true), turns[n - 1], token, kdf);
    }
  }

  /** Once spent, a token is refused by every later call of either kind, whatever came of the call that spent it. */
  lemma SpentTokenIsRefused(turns: seq<Turn>, i: nat, n: nat, kdf: Kdf, token: string, kind: Kind, later: Kind)
    requires i < n < |turns| && Spends(turns[i], token, kind) && Spends(turns[n], token, later)
    requires SelectToken(Run(turns, i, kdf, true), token, kind, turns[i].now).Some?
    ensures AnswerAt(turns, n, kdf, true) == Refused(InvalidInput)
  {
    SpentSince(turns, i, n, kdf, token, kind);
    SpendingMarks(Run(turns, n, kdf, true), turns[n], token, later, kdf);
  }
}
