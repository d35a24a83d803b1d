/** The Control Center's users, sessions, single-use tokens and incident acknowledgments. */
module SessionStore {
  import opened Policy
  import opened Text
  import opened Passwords

  const SESSION_TTL := 8 * 3600_000
  const SIGNUP_TTL := 7 * 24 * 3600_000
  const RESET_TTL := 3600_000
  const CLIENT_ROLES := ["client-viewer", "client-reviewer", "client-admin", "client-auditor"]

  datatype User = User(userId: string, tenantId: string, username: string, role: string, createdAt: int, disabled: bool)

  datatype UserRow = UserRow(user: User, passwordHash: string)

  datatype Session = Session(sessionId: string, userId: string, tenantId: string, role: string, csrf: string,
                             createdAt: int, expiresAt: int)

  datatype Kind = Signup | PasswordReset

  // A reset token carries no role.
  datatype Token = Token(kind: Kind, tenantId: string, username: string, role: string, createdAt: int, expiresAt: int,
                         usedAt: Option<int>)

  datatype AckKey = AckKey(tenantId: string, signature: string)

  datatype Ack = Ack(actor: string, at: int)

  // `usernames` is the unique index on the users table, from username to user id.
  datatype Db = Db(users: map<string, UserRow>, usernames: map<string, string>, sessions: map<string, Session>,
                   tokens: map<string, Token>, acks: map<AckKey, Ack>)

  const EMPTY := Db(map[], map[], map[], map[], map[])

  datatype Error = InvalidInput | Conflict | NotFound | KeyCollision

  datatype Answer =
    | Done
    | Refused(error: Error)
    | UserIs(user: User)
    | MaybeUser(found: Option<User>)
    | MaybeSession(session: Option<Session>)
    | Link(token: string, expiresAt: int)

  datatype Call =
    | CreateUser(tenantId: string, username: string, password: string, role: string, userId: string, salt: seq<Byte>)
    | SetDisabled(userId: string, disabled: bool)
    | CreateSignupInvite(tenantId: string, username: string, role: string, token: string)
    | CreatePasswordResetToken(tenantId: string, username: string, token: string)
    | RedeemSignupInvite(token: string, password: string, userId: string, salt: seq<Byte>)
    | RedeemPasswordReset(token: string, newPassword: string, salt: seq<Byte>)
    | Authenticate(username: string, password: string)
    | CreateSession(user: User, sessionId: string, csrf: string)
    | GetSession(sessionId: string)
    | DestroySession(sessionId: string)
    | AcknowledgeIncident(tenantId: string, signature: string, actor: string)

  const MIN_PASSWORD := 12

  predicate LongEnough(password: string) {
    Utf16Length(password) >= MIN_PASSWORD
  }

  function FindUser(db: Db, tenantId: string, username: string): Option<string> {
    if username in db.usernames && db.usernames[username] in db.users && db.users[db.usernames[username]].user.tenantId == tenantId
    then Some(db.usernames[username]) else None
  }

  function InsertUser(db: Db, kdf: Kdf, tenantId: string, username: string, password: string, role: string,
                      userId: string, salt: seq<Byte>, now: int): (Db, Answer)
  {
    if role !in CLIENT_ROLES || !LongEnough(password) then (db, Refused(InvalidInput))
    else if userId in db.users || username in db.usernames then (db, Refused(Conflict))
    else
      var user := User(userId, tenantId, username, role, now, false);
      (db.(users := db.users[userId := UserRow(user, HashPassword(kdf, password, salt))],
           usernames := db.usernames[username := userId]),
       UserIs(user))
  }

  function AddLink(db: Db, token: string, row: Token): (Db, Answer) {
    if token in db.tokens then (db, Refused(KeyCollision))
    else (db.(tokens := db.tokens[token := row]), Link(token, row.expiresAt))
  }

  /** The read half of spending a token. */
  function SelectToken(db: Db, token: string, kind: Kind, now: int): Option<Token> {
    if token in db.tokens && db.tokens[token].kind == kind && db.tokens[token].usedAt.None? && now < db.tokens[token].expiresAt
    then Some(db.tokens[token]) else None
  }

  /** The write half: one guarded UPDATE, and whether it changed a row. */
  function MarkToken(db: Db, token: string, now: int): (Db, bool) {
    if token in db.tokens && db.tokens[token].usedAt.None?
    then (db.(tokens := db.tokens[token := db.tokens[token].(usedAt := Some(now))]), true)
    else (db, false)
  }

  function WithPassword(db: Db, userId: string, passwordHash: string): Db {
    if userId in db.users then db.(users := db.users[userId := db.users[userId].(passwordHash := passwordHash)]) else db
  }

  function WithoutSessionsOf(db: Db, userId: string): Db {
    db.(sessions := map s | s in db.sessions && db.sessions[s].userId != userId :: db.sessions[s])
  }

  function WithoutSession(db: Db, sessionId: string): Db {
    db.(sessions := db.sessions - {sessionId})
  }

  function RedeemReset(db: Db, kdf: Kdf, token: string, newPassword: string, salt: seq<Byte>, now: int): (Db, Answer) {
    var row := SelectToken(db, token, PasswordReset, now);
    if row.None? then (db, Refused(InvalidInput))
    else
      var spent := MarkToken(db, token, now).0;
      if !LongEnough(newPassword) then (spent, Refused(InvalidInput))
      else
        var userId := FindUser(spent, row.value.tenantId, row.value.username);
        if userId.None? then (spent, Refused(NotFound))
        else (WithoutSessionsOf(WithPassword(spent, userId.value, HashPassword(kdf, newPassword, salt)), userId.value), Done)
  }

  /** The user whose password a call changes, if it changes one. */
  function ResetUser(db: Db, call: Call, now: int): Option<string> {
    if call.RedeemPasswordReset? && LongEnough(call.newPassword) then
      var row := SelectToken(db, call.token, PasswordReset, now);
      if row.Some? then FindUser(db, row.value.tenantId, row.value.username) else None
    else None
  }

  function NewSession(user: User, sessionId: string, csrf: string, now: int): Session {
    Session(sessionId, user.userId, user.tenantId, user.role, csrf, now, now + SESSION_TTL)
  }

  /** One call. `lazy` is the store as it is; without it, getSession leaves expired rows in place. */
  function Step(db: Db, call: Call, now: int, kdf: Kdf, lazy: bool): (Db, Answer) {
    match call
    case CreateUser(tenantId, username, password, role, userId, salt) =>
      InsertUser(db, kdf, tenantId, username, password, role, userId, salt, now)
    case SetDisabled(userId, disabled) =>
      if userId !in db.users then (db, Refused(NotFound))
      else (db.(users := db.users[userId := db.users[userId].(user := db.users[userId].user.(disabled := disabled))]), Done)
    case CreateSignupInvite(tenantId, username, role, token) =>
      if role !in CLIENT_ROLES then (db, Refused(InvalidInput))
      else if username in db.usernames then (db, Refused(Conflict))
      else AddLink(db, token, Token(Signup, tenantId, username, role, now, now + SIGNUP_TTL, None))
    case CreatePasswordResetToken(tenantId, username, token) =>
      if FindUser(db, tenantId, username).None? then (db, Refused(NotFound))
      else AddLink(db, token, Token(PasswordReset, tenantId, username, "", now, now + RESET_TTL, None))
    case RedeemSignupInvite(token, password, userId, salt) =>
      var row := SelectToken(db, token, Signup, now);
      if row.None? then (db, Refused(InvalidInput))
      else InsertUser(MarkToken(db, token, now).0, kdf, row.value.tenantId, row.value.username, password, row.value.role, userId, salt, now)
    case RedeemPasswordReset(token, newPassword, salt) =>
      RedeemReset(db, kdf, token, newPassword, salt, now)
    case Authenticate(username, password) =>
      if username !in db.usernames || db.usernames[username] !in db.users then (db, MaybeUser(None))
      else
        var row := db.users[db.usernames[username]];
        (db, MaybeUser(if !row.user.disabled && VerifyPassword(kdf, password, row.passwordHash) then Some(row.user) else None))
    case CreateSession(user, sessionId, csrf) =>
      if sessionId in db.sessions then (db, Refused(KeyCollision))
      else
        var session := NewSession(user, sessionId, csrf, now);
        (db.(sessions := db.sessions[sessionId := session]), MaybeSession(Some(session)))
    case GetSession(sessionId) =>
      if sessionId !in db.sessions then (db, MaybeSession(None))
      else if db.sessions[sessionId].expiresAt <= now then (if lazy then WithoutSession(db, sessionId) else db, MaybeSession(None))
      else (db, MaybeSession(Some(db.sessions[sessionId])))
    case DestroySession(sessionId) => (WithoutSession(db, sessionId), Done)
    case AcknowledgeIncident(tenantId, signature, actor) =>
      (db.(acks := db.acks[AckKey(tenantId, signature) := Ack(actor, now)]), Done)
  }

  class ControlCenterSessionStore {
    const kdf: Kdf
    var users: map<string, UserRow>
    var usernames: map<string, string>
    var sessions: map<string, Session>
    var tokens: map<string, Token>
    var acks: map<AckKey, Ack>

    constructor (kdf: Kdf)
      ensures this.kdf == kdf && Contents() == EMPTY
    {
      this.kdf := kdf;
      users, usernames, sessions, tokens, acks := map[], map[], map[], map[], map[];
    }

    function Contents(): Db
      reads this
    {
      Db(users, usernames, sessions, tokens, acks)
    }

    method CreateUser(tenantId: string, username: string, password: string, role: string,
                      userId: string, salt: seq<Byte>, now: int) returns (r: Answer)
      modifies this`users, this`usernames
      ensures (Contents(), r) == InsertUser(old(Contents()), kdf, tenantId, username, password, role, userId, salt, now)
    {
      if role !in CLIENT_ROLES { return Refused(InvalidInput); }
      if !LongEnough(password) { return Refused(InvalidInput); }
      var passwordHash := HashPassword(kdf, password, salt);
      if userId in users || username in usernames { return Refused(Conflict); }
      var user := User(userId, tenantId, username, role, now, false);
      users := users[userId := UserRow(user, passwordHash)];
      usernames := usernames[username := userId];
      r := UserIs(user);
    }

    method SetDisabled(userId: string, disabled: bool) returns (r: Answer)
      modifies this`users
      ensures forall now :: (Contents(), r) == Step(old(Contents()), Call.SetDisabled(userId, disabled), now, kdf, true)
    {
      if userId !in users { return Refused(NotFound); }
      users := users[userId := users[userId].(user := users[userId].user.(disabled := disabled))];
      r := Done;
    }

    method CreateSignupInvite(tenantId: string, username: string, role: string, token: string, now: int) returns (r: Answer)
      modifies this`tokens
      ensures (Contents(), r) == Step(old(Contents()), Call.CreateSignupInvite(tenantId, username, role, token), now, kdf, true)
    {
      if role !in CLIENT_ROLES { return Refused(InvalidInput); }
      if username in usernames { return Refused(Conflict); }
      if token in tokens { return Refused(KeyCollision); }
      var expiresAt := now + SIGNUP_TTL;
      tokens := tokens[token := Token(Signup, tenantId, username, role, now, expiresAt, None)];
      r := Link(token, expiresAt);
    }

    method CreatePasswordResetToken(tenantId: string, username: string, token: string, now: int) returns (r: Answer)
      modifies this`tokens
      ensures (Contents(), r) == Step(old(Contents()), Call.CreatePasswordResetToken(tenantId, username, token), now, kdf, true)
    {
      if FindUser(Contents(), tenantId, username).None? { return Refused(NotFound); }
      if token in tokens { return Refused(KeyCollision); }
      var expiresAt := now + RESET_TTL;
      tokens := tokens[token := Token(PasswordReset, tenantId, username, "", now, expiresAt, None)];
      r := Link(token, expiresAt);
    }

    /** Spends a token: the SELECT, then the guarded UPDATE, with nothing in between. */
    method ConsumeToken(token: string, kind: Kind, now: int) returns (row: Option<Token>)
      modifies this`tokens
      ensures row == SelectToken(old(Contents()), token, kind, now)
      ensures Contents() == if row.Some? then MarkToken(old(Contents()), token, now).0 else old(Contents())
      ensures row.Some? ==> token in old(tokens) && old(tokens[token].usedAt).None? && tokens[token].usedAt == Some(now) && now < row.value.expiresAt
    {
      if token !in tokens || tokens[token].kind != kind { return None; }
      var selected := tokens[token];
      if selected.usedAt.Some? { return None; }
      if selected.expiresAt <= now { return None; }
      tokens := tokens[token := tokens[token].(usedAt := Some(now))];
      row := Some(selected);
    }

    method RedeemSignupInvite(token: string, password: string, userId: string, salt: seq<Byte>, now: int) returns (r: Answer)
      modifies this
      ensures (Contents(), r) == Step(old(Contents()), Call.RedeemSignupInvite(token, password, userId, salt), now, kdf, true)
    {
      var row := ConsumeToken(token, Signup, now);
      if row.None? { return Refused(InvalidInput); }
      r := CreateUser(row.value.tenantId, row.value.username, password, row.value.role, userId, salt, now);
    }

    method RedeemPasswordReset(token: string, newPassword: string, salt: seq<Byte>, now: int) returns (r: Answer)
      modifies this
      ensures (Contents(), r) == Step(old(Contents()), Call.RedeemPasswordReset(token, newPassword, salt), now, kdf, true)
    {
      var row := ConsumeToken(token, PasswordReset, now);
      if row.None? { return Refused(InvalidInput); }
      if !LongEnough(newPassword) { return Refused(InvalidInput); }
      var userId := FindUser(Contents(), row.value.tenantId, row.value.username);
      if userId.None? { return Refused(NotFound); }
      var passwordHash := HashPassword(kdf, newPassword, salt);
      users := users[userId.value := users[userId.value].(passwordHash := passwordHash)];
      sessions := map s | s in sessions && sessions[s].userId != userId.value :: sessions[s];
      r := Done;
    }

    method Authenticate(username: string, password: string) returns (r: Option<User>)
      ensures forall now :: (Contents(), MaybeUser(r)) == Step(Contents(), Call.Authenticate(username, password), now, kdf, true)
    {
      if username !in usernames || usernames[username] !in users { return None; }
      var row := users[usernames[username]];
      if row.user.disabled { return None; }
      if !VerifyPassword(kdf, password, row.passwordHash) { return None; }
      r := Some(row.user);
    }

    method CreateSession(user: User, sessionId: string, csrf: string, now: int) returns (r: Answer)
      modifies this`sessions
      ensures (Contents(), r) == Step(old(Contents()), Call.CreateSession(user, sessionId, csrf), now, kdf, true)
    {
      if sessionId in sessions { return Refused(KeyCollision); }
      sessions := sessions[sessionId := Session(sessionId, user.userId, user.tenantId, user.role, csrf, now, now + SESSION_TTL)];
      var session := GetSession(sessionId, now);
      r := MaybeSession(session);
    }

    method GetSession(sessionId: string, now: int) returns (r: Option<Session>)
      modifies this`sessions
      ensures (Contents(), MaybeSession(r)) == Step(old(Contents()), Call.GetSession(sessionId), now, kdf, true)
    {
      if sessionId !in sessions { return None; }
      var row := sessions[sessionId];
      if row.expiresAt <= now { DestroySession(sessionId); return None; }
      r := Some(row);
    }

    method DestroySession(sessionId: string)
      modifies this`sessions
      ensures Contents() == WithoutSession(old(Contents()), sessionId)
    {
      sessions := sessions - {sessionId};
    }

    method AcknowledgeIncident(tenantId: string, signature: string, actor: string, now: int)
      modifies this`acks
      ensures Contents() == Step(old(Contents()), Call.AcknowledgeIncident(tenantId, signature, actor), now, kdf, true).0
    {
      acks := acks[AckKey(tenantId, signature) := Ack(actor, now)];
    }
  }
}
