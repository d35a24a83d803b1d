/** Links, accounts and acknowledgments over every run: who made them, and what they are good for. */
module SessionAccounts {
  import opened Policy
  import opened Text
  import opened Passwords
  import opened SessionStore
  import opened SessionHistory

  // --- Where links come from ------------------------------------------------------------------------------------

  /** The call made this link: for an invite with the tenant, name and role it names, good for a week; for a reset, an hour. */
  predicate MakesLink(turn: Turn, token: string, row: Token) {
    && row.createdAt == turn.now
    && match row.kind
       case Signup =>
         turn.call == CreateSignupInvite(row.tenantId, row.username, row.role, token) && row.expiresAt == turn.now + 604_800_000
       case PasswordReset =>
         turn.call == CreatePasswordResetToken(row.tenantId, row.username, token) && row.expiresAt == turn.now + 3_600_000
  }

  lemma StepLinks(db: Db, turn: Turn, kdf: Kdf, lazy: bool, token: string)
    requires token in Step(db, turn.call, turn.now, kdf, lazy).0.tokens
    ensures var row := Step(db, turn.call, turn.now, kdf, lazy).0.tokens[token];
            || (token in db.tokens && row.(usedAt := None) == db.tokens[token].(usedAt := None))
            || (MakesLink(turn, token, row) && row.usedAt.None? && token !in db.tokens)
  {
    hide HashPassword, VerifyPassword, LongEnough, InsertUser, RedeemReset, FindUser;
    match turn.call
    case CreateUser(tenantId, username, password, role, userId, salt) =>
      InsertKeepsTokens(db, kdf, tenantId, username, password, role, userId, salt, turn.now);
    case RedeemSignupInvite(t, password, userId, salt) => SignupKeepsLinks(db, t, password, userId, salt, turn.now, kdf, lazy, token);
    case RedeemPasswordReset(t, newPassword, salt) => ResetKeepsLinks(db, t, newPassword, salt, turn.now, kdf, token);
    case _ =>
  }

  lemma SignupKeepsLinks(db: Db, t: string, password: string, userId: string, salt: seq<Byte>, now: int, kdf: Kdf, lazy: bool, token: string)
    requires token in Step(db, RedeemSignupInvite(t, password, userId, salt), now, kdf, lazy).0.tokens
    ensures var row := Step(db, RedeemSignupInvite(t, password, userId, salt), now, kdf, lazy).0.tokens[token];
            token in db.tokens && row.(usedAt := None) == db.tokens[token].(usedAt := None)
  {
    hide InsertUser;
    var row := SelectToken(db, t, Signup, now);
    if row.Some? {
      InsertKeepsTokens(MarkToken(db, t, now).0, kdf, row.value.tenantId, row.value.username, password, row.value.role, userId, salt, now);
    }
  }

  lemma ResetKeepsLinks(db: Db, t: string, newPassword: string, salt: seq<Byte>, now: int, kdf: Kdf, token: string)
    requires token in RedeemReset(db, kdf, t, newPassword, salt, now).0.tokens
    ensures var row := RedeemReset(db, kdf, t, newPassword, salt, now).0.tokens[token];
            token in db.tokens && row.(usedAt := None) == db.tokens[token].(usedAt := None)
  {
    hide HashPassword, FindUser, LongEnough;
  }

  lemma {:induction false} LinkOrigin(turns: seq<Turn>, n: nat, kdf: Kdf, lazy: bool, token: string) returns (i: nat)
    requires n <= |turns| && token in Run(turns, n, kdf, lazy).tokens
    ensures i < n && MakesLink(turns[i], token, Run(turns, n, kdf, lazy).tokens[token])
  {
    hide Step;
    StepLinks(Run(turns, n - 1, kdf, lazy), turns[n - 1], kdf, lazy, token);
    if token in Run(turns, n - 1, kdf, lazy).tokens {
      i := LinkOrigin(turns, n - 1, kdf, lazy, token);
    } else {
      i := n - 1;
    }
  }

  /** In every run a user made by redeeming a link is the one named by an earlier call that made that link as an invite. */
  lemma InvitedUserWasNamed(turns: seq<Turn>, n: nat, kdf: Kdf, lazy: bool, token: string, user: User)
    requires n < |turns| && turns[n].call.RedeemSignupInvite? && turns[n].call.token == token
    requires AnswerAt(turns, n, kdf, lazy) == UserIs(user)
    ensures exists i: nat :: i < n && turns[i].call == CreateSignupInvite(user.tenantId, user.username, user.role, token)
                             && turns[n].now < turns[i].now + 604_800_000
  {
    var db := Run(turns, n, kdf, lazy);
    RedeemerIsInvited(db, token, turns[n].call.password, turns[n].call.userId, turns[n].call.salt, turns[n].now, kdf, lazy);
    var i := LinkOrigin(turns, n, kdf, lazy, token);
  }

  lemma RedeemerIsInvited(db: Db, token: string, password: string, userId: string, salt: seq<Byte>, now: int, kdf: Kdf, lazy: bool)
    requires Step(db, RedeemSignupInvite(token, password, userId, salt), now, kdf, lazy).1.UserIs?
    ensures Usable(db, token, Signup, now)
    ensures var row := db.tokens[token];
            Step(db, RedeemSignupInvite(token, password, userId, salt), now, kdf, lazy).1 == UserIs(User(userId, row.tenantId, row.username, row.role, now, false))
  {
    hide HashPassword, LongEnough;
  }

  // --- How long links are good ----------------------------------------------------------------------------------

  /** An unspent link stays as it is while nobody redeems it. */
  lemma UnspentStays(db: Db, turn: Turn, kdf: Kdf, token: string)
    requires token in db.tokens && db.tokens[token].usedAt.None? && !Spends(turn, token, db.tokens[token].kind)
    ensures var after := Step(db, turn.call, turn.now, kdf, true).0; token in after.tokens && after.tokens[token] == db.tokens[token]
  {
    hide HashPassword, VerifyPassword, LongEnough;
  }

  lemma {:induction false} UnspentSince(turns: seq<Turn>, i: nat, n: nat, kdf: Kdf, token: string, row: Token)
    requires i < n <= |turns| && row.usedAt.None?
    requires token in Run(turns, i + 1, kdf, true).tokens && Run(turns, i + 1, kdf, true).tokens[token] == row
    requires forall k :: i < k < n ==> !Spends(turns[k], token, row.kind)
    ensures token in Run(turns, n, kdf, true).tokens && Run(turns, n, kdf, true).tokens[token] == row
  {
    hide Step;
    if i + 1 < n {
      UnspentSince(turns, i, n - 1, kdf, token, row);
      UnspentStays(Run(turns, n - 1, kdf, true), turns[n - 1], kdf, token);
    }
  }

  /**
   * An invite not redeemed before makes its user exactly within a week of the call that made it, for a password of at least
   * twelve characters, while nobody has the name; the user is of the tenant, name and role that call named.
   */
  lemma InviteIsGoodExactlyForAWeek(turns: seq<Turn>, i: nat, n: nat, kdf: Kdf, tenantId: string, username: string, role: string, token: string)
    requires i < n < |turns| && KnownUsersTo(turns, n, kdf, true)
    requires turns[i].call == CreateSignupInvite(tenantId, username, role, token) && AnswerAt(turns, i, kdf, true).Link?
    requires turns[n].call.RedeemSignupInvite? && turns[n].call.token == token
    requires forall k :: i < k < n ==> !Spends(turns[k], token, Signup)
    requires turns[n].call.userId !in Run(turns, n, kdf, true).users
    ensures AnswerAt(turns, n, kdf, true) == UserIs(User(turns[n].call.userId, tenantId, username, role, turns[n].now, false)) <==>
              && turns[n].now < turns[i].now + 604_800_000 && Utf16Length(turns[n].call.password) >= 12
              && forall id :: id in Run(turns, n, kdf, true).users ==> Run(turns, n, kdf, true).users[id].user.username != username
    ensures AnswerAt(turns, n, kdf, true).UserIs? <==> AnswerAt(turns, n, kdf, true) == UserIs(User(turns[n].call.userId, tenantId, username, role, turns[n].now, false))
  {
    hide Step, Consistent;
    var db, call := Run(turns, n, kdf, true), turns[n].call;
    var row := InviteIsMade(Run(turns, i, kdf, true), turns[i].now, kdf, tenantId, username, role, token);
    UnspentSince(turns, i, n, kdf, token, row);
    RunsAreConsistent(turns, n, kdf, true);
    SignupSucceedsExactlyWhen(db, token, call.password, call.userId, call.salt, turns[n].now, kdf);
    if AnswerAt(turns, n, kdf, true).UserIs? {
      RedeemerIsInvited(db, token, call.password, call.userId, call.salt, turns[n].now, kdf, true);
    }
  }

  lemma InviteIsMade(db: Db, now: int, kdf: Kdf, tenantId: string, username: string, role: string, token: string) returns (row: Token)
    requires Step(db, CreateSignupInvite(tenantId, username, role, token), now, kdf, true).1.Link?
    ensures row == Token(Signup, tenantId, username, role, now, now + 604_800_000, None) && role in CLIENT_ROLES
    ensures var after := Step(db, CreateSignupInvite(tenantId, username, role, token), now, kdf, true).0;
            token in after.tokens && after.tokens[token] == row
  {
    row := Token(Signup, tenantId, username, role, now, now + 604_800_000, None);
  }

  lemma ResetLinkIsMade(db: Db, now: int, kdf: Kdf, tenantId: string, username: string, token: string) returns (row: Token)
    requires Step(db, CreatePasswordResetToken(tenantId, username, token), now, kdf, true).1.Link?
    ensures row == Token(PasswordReset, tenantId, username, "", now, now + 3_600_000, None)
    ensures FindUser(db, tenantId, username).Some?
    ensures var after := Step(db, CreatePasswordResetToken(tenantId, username, token), now, kdf, true).0;
            token in after.tokens && after.tokens[token] == row
  {
    row := Token(PasswordReset, tenantId, username, "", now, now + 3_600_000, None);
  }

  /** Does anybody have the name? */
  predicate IsTaken(db: Db, username: string) {
    exists id :: id in db.users && db.users[id].user.username == username
  }

  predicate HasAccount(db: Db, tenantId: string, username: string) {
    exists id :: id in db.users && db.users[id].user.username == username && db.users[id].user.tenantId == tenantId
  }

  /**
   * An invite is made exactly for one of the four roles and a name nobody has; a reset link exactly for an account of that
   * tenant. Either says until when it is good, and nothing else changes.
   */
  lemma LinksAreMadeExactlyWhen(db: Db, now: int, kdf: Kdf, tenantId: string, username: string, role: string, token: string)
    requires Consistent(db) && token !in db.tokens
    ensures var (after, answer) := Step(db, CreateSignupInvite(tenantId, username, role, token), now, kdf, true);
            && (answer.Link? <==>
                  && (role == "client-viewer" || role == "client-reviewer" || role == "client-admin" || role == "client-auditor")
                  && !IsTaken(db, username))
            && (answer.Link? ==> answer == Link(token, now + 604_800_000))
            && after.(tokens := db.tokens) == db && (!answer.Link? ==> after == db)
    ensures var (after, answer) := Step(db, CreatePasswordResetToken(tenantId, username, token), now, kdf, true);
            && (answer.Link? <==> HasAccount(db, tenantId, username))
            && (answer.Link? ==> answer == Link(token, now + 3_600_000))
            && after.(tokens := db.tokens) == db && (!answer.Link? ==> after == db)
  {
    assert CLIENT_ROLES[0] == "client-viewer" && CLIENT_ROLES[1] == "client-reviewer" && CLIENT_ROLES[2] == "client-admin"
        && CLIENT_ROLES[3] == "client-auditor";
  }

  /** Accounts are never removed, renamed or moved. */
  lemma AccountsStay(db: Db, turn: Turn, kdf: Kdf, userId: string)
    requires userId in db.users
    ensures var after := Step(db, turn.call, turn.now, kdf, true).0;
            userId in after.users && after.users[userId].user.(disabled := false) == db.users[userId].user.(disabled := false)
  {
    hide HashPassword, VerifyPassword, LongEnough;
  }

  lemma {:induction false} AccountSince(turns: seq<Turn>, i: nat, n: nat, kdf: Kdf, userId: string)
    requires i <= n <= |turns| && userId in Run(turns, i, kdf, true).users
    ensures var user, later := Run(turns, i, kdf, true).users[userId].user, Run(turns, n, kdf, true).users;
            userId in later && later[userId].user.(disabled := false) == user.(disabled := false)
  {
    hide Step;
    if i < n {
      AccountSince(turns, i, n - 1, kdf, userId);
      AccountsStay(Run(turns, n - 1, kdf, true), turns[n - 1], kdf, userId);
    }
  }

  /** A reset link not redeemed before resets exactly within an hour, for a password of at least twelve characters. */
  lemma ResetIsGoodExactlyForAnHour(turns: seq<Turn>, i: nat, n: nat, kdf: Kdf, tenantId: string, username: string, token: string)
    requires i < n < |turns| && KnownUsersTo(turns, n, kdf, true)
    requires turns[i].call == CreatePasswordResetToken(tenantId, username, token) && AnswerAt(turns, i, kdf, true).Link?
    requires turns[n].call.RedeemPasswordReset? && turns[n].call.token == token
    requires forall k :: i < k < n ==> !Spends(turns[k], token, PasswordReset)
    ensures AnswerAt(turns, n, kdf, true) == Done <==>
              turns[n].now < turns[i].now + 3_600_000 && Utf16Length(turns[n].call.newPassword) >= 12
    ensures AnswerAt(turns, n, kdf, true) == Done ==>
              var user := ResetUser(Run(turns, n, kdf, true), turns[n].call, turns[n].now);
              user.Some? && user.value in Run(turns, n, kdf, true).users
              && Run(turns, n, kdf, true).users[user.value].user.username == username && Run(turns, n, kdf, true).users[user.value].user.tenantId == tenantId
  {
    hide Step, Consistent;
    var db, call := Run(turns, n, kdf, true), turns[n].call;
    var row := ResetLinkIsMade(Run(turns, i, kdf, true), turns[i].now, kdf, tenantId, username, token);
    UnspentSince(turns, i, n, kdf, token, row);
    RunsAreConsistent(turns, n, kdf, true);
    RunIsConsistentAt(turns, i, n, kdf);
    var userId := FindUser(Run(turns, i, kdf, true), tenantId, username).value;
    FoundIsNamed(Run(turns, i, kdf, true), tenantId, username);
    AccountSince(turns, i, n, kdf, userId);
    ResetSucceedsExactlyWhen(db, token, call.newPassword, call.salt, turns[n].now, kdf);
    if AnswerAt(turns, n, kdf, true) == Done {
      ResetFinds(db, token, call.newPassword, call.salt, turns[n].now, kdf);
    }
  }

  lemma {:induction false} RunIsConsistentAt(turns: seq<Turn>, i: nat, n: nat, kdf: Kdf)
    requires i <= n <= |turns| && KnownUsersTo(turns, n, kdf, true)
    ensures Consistent(Run(turns, i, kdf, true))
  {
    hide Consistent, Run;
    if i == n {
      RunsAreConsistent(turns, n, kdf, true);
    } else {
      RunIsConsistentAt(turns, i, n - 1, kdf);
    }
  }

  lemma FoundIsNamed(db: Db, tenantId: string, username: string)
    requires Consistent(db) && FindUser(db, tenantId, username).Some?
    ensures var id := FindUser(db, tenantId, username).value;
            id in db.users && db.users[id].user.username == username && db.users[id].user.tenantId == tenantId
  {
  }

  lemma ResetFinds(db: Db, token: string, newPassword: string, salt: seq<Byte>, now: int, kdf: Kdf)
    requires Consistent(db) && Step(db, RedeemPasswordReset(token, newPassword, salt), now, kdf, true).1 == Done
    ensures token in db.tokens
    ensures var user := ResetUser(db, RedeemPasswordReset(token, newPassword, salt), now);
            user.Some? && user.value in db.users
            && db.users[user.value].user.username == db.tokens[token].username && db.users[user.value].user.tenantId == db.tokens[token].tenantId
  {
  }

  // --- Making accounts -------------------------------------------------------------------------------------------

  /** An account is made exactly for one of the four roles, a password of at least twelve characters, and a name nobody has. */
  lemma UserIsCreatedExactlyWhen(db: Db, tenantId: string, username: string, password: string, role: string, userId: string,
                                 salt: seq<Byte>, now: int, kdf: Kdf)
    requires Consistent(db) && userId !in db.users
    ensures var (after, answer) := Step(db, CreateUser(tenantId, username, password, role, userId, salt), now, kdf, true);
            && (answer.UserIs? <==>
                  && (role == "client-viewer" || role == "client-reviewer" || role == "client-admin" || role == "client-auditor")
                  && Utf16Length(password) >= 12
                  && forall id :: id in db.users ==> db.users[id].user.username != username)
            && (answer.UserIs? ==> answer.user == User(userId, tenantId, username, role, now, false))
  {
    hide HashPassword;
    assert CLIENT_ROLES[0] == "client-viewer" && CLIENT_ROLES[1] == "client-reviewer" && CLIENT_ROLES[2] == "client-admin"
        && CLIENT_ROLES[3] == "client-auditor";
  }

  // --- Logging in ------------------------------------------------------------------------------------------------

  /** The call at turn i gave the user this password, under this salt: by making the account or by a reset. */
  ghost predicate SetsPassword(turns: seq<Turn>, i: nat, kdf: Kdf, userId: string, password: string, salt: seq<Byte>)
    requires i < |turns|
  {
    match turns[i].call
    case CreateUser(_, _, p, _, id, s) => id == userId && p == password && s == salt && AnswerAt(turns, i, kdf, true).UserIs?
    case RedeemSignupInvite(_, p, id, s) => id == userId && p == password && s == salt && AnswerAt(turns, i, kdf, true).UserIs?
    case RedeemPasswordReset(_, p, s) => p == password && s == salt && ResetUser(Run(turns, i, kdf, true), turns[i].call, turns[i].now) == Some(userId)
    case _ => false
  }

  /** And none after it, before turn n, gave the user another. */
  ghost predicate LastPassword(turns: seq<Turn>, i: nat, n: nat, kdf: Kdf, userId: string, password: string, salt: seq<Byte>)
    requires i < n <= |turns|
  {
    && SetsPassword(turns, i, kdf, userId, password, salt)
    && forall j, p, s :: i < j < n ==> !SetsPassword(turns, j, kdf, userId, p, s)
  }

  /** What the last call that disabled or enabled the user said. */
  predicate FlaggedDisabled(turns: seq<Turn>, n: nat, kdf: Kdf, userId: string)
    requires n <= |turns|
  {
    if n == 0 then false
    else if turns[n - 1].call.SetDisabled? && turns[n - 1].call.userId == userId && userId in Run(turns, n - 1, kdf, true).users
    then turns[n - 1].call.disabled
    else FlaggedDisabled(turns, n - 1, kdf, userId)
  }

  /** What one call does to the password and the flag of a user. */
  lemma StepAccount(turns: seq<Turn>, n: nat, kdf: Kdf, userId: string)
    requires n < |turns| && userId in Run(turns, n + 1, kdf, true).users
    ensures var before, after := Run(turns, n, kdf, true).users, Run(turns, n + 1, kdf, true).users;
            if userId in before && forall p, s :: !SetsPassword(turns, n, kdf, userId, p, s)
            then after[userId].passwordHash == before[userId].passwordHash
            else exists p, s :: SetsPassword(turns, n, kdf, userId, p, s) && after[userId].passwordHash == HashPassword(kdf, p, s)
    ensures var before, after := Run(turns, n, kdf, true).users, Run(turns, n + 1, kdf, true).users;
            after[userId].user.disabled ==
              if userId in before && turns[n].call.SetDisabled? && turns[n].call.userId == userId then turns[n].call.disabled
              else userId in before && before[userId].user.disabled
  {
    hide HashPassword, VerifyPassword, LongEnough;
    var db, turn := Run(turns, n, kdf, true), turns[n];
    assert Run(turns, n + 1, kdf, true) == Step(db, turn.call, turn.now, kdf, true).0;
    match turn.call
    case CreateUser(tenantId, username, password, role, id, salt) =>
      assert AnswerAt(turns, n, kdf, true).UserIs? ==> SetsPassword(turns, n, kdf, id, password, salt);
    case RedeemSignupInvite(token, password, id, salt) =>
      assert AnswerAt(turns, n, kdf, true).UserIs? ==> SetsPassword(turns, n, kdf, id, password, salt);
    case RedeemPasswordReset(token, password, salt) =>
      ResetSetsPassword(db, token, password, salt, turn.now, kdf, userId);
      assert ResetUser(db, turn.call, turn.now) == Some(userId) ==> SetsPassword(turns, n, kdf, userId, password, salt);
    case _ =>
  }

  lemma ResetSetsPassword(db: Db, token: string, password: string, salt: seq<Byte>, now: int, kdf: Kdf, userId: string)
    requires userId in db.users
    ensures var after := RedeemReset(db, kdf, token, password, salt, now).0.users;
            && userId in after && after[userId].user == db.users[userId].user
            && after[userId].passwordHash == if ResetUser(db, RedeemPasswordReset(token, password, salt), now) == Some(userId)
                                             then HashPassword(kdf, password, salt) else db.users[userId].passwordHash
  {
    hide HashPassword;
  }

  /** In every run a stored password is the one set last, and the flag the one set last. */
  lemma {:induction false} PasswordAndFlagAreTheLast(turns: seq<Turn>, n: nat, kdf: Kdf, userId: string)
    requires n <= |turns| && userId in Run(turns, n, kdf, true).users
    ensures var row := Run(turns, n, kdf, true).users[userId];
            && row.user.disabled == FlaggedDisabled(turns, n, kdf, userId)
            && exists i: nat, p, s :: i < n && LastPassword(turns, i, n, kdf, userId, p, s) && row.passwordHash == HashPassword(kdf, p, s)
  {
    hide Step, HashPassword, SetsPassword;
    StepAccount(turns, n - 1, kdf, userId);
    var before := Run(turns, n - 1, kdf, true).users;
    if userId in before {
      PasswordAndFlagAreTheLast(turns, n - 1, kdf, userId);
    } else {
      NoFlagBefore(turns, n - 1, kdf, userId);
    }
    var last: nat := n - 1;
    if userId in before && forall p, s :: !SetsPassword(turns, last, kdf, userId, p, s) {
      var i: nat, p, s :| i < last && LastPassword(turns, i, last, kdf, userId, p, s) && before[userId].passwordHash == HashPassword(kdf, p, s);
      assert LastPassword(turns, i, n, kdf, userId, p, s);
    } else {
      var p, s :| SetsPassword(turns, last, kdf, userId, p, s) && Run(turns, n, kdf, true).users[userId].passwordHash == HashPassword(kdf, p, s);
      assert LastPassword(turns, last, n, kdf, userId, p, s);
    }
  }

  /** Nobody is flagged before there is an account. */
  lemma {:induction false} NoFlagBefore(turns: seq<Turn>, n: nat, kdf: Kdf, userId: string)
    requires n <= |turns| && userId !in Run(turns, n, kdf, true).users
    ensures !FlaggedDisabled(turns, n, kdf, userId)
  {
    hide Step;
    if n > 0 {
      if userId in Run(turns, n - 1, kdf, true).users {
        AccountsStay(Run(turns, n - 1, kdf, true), turns[n - 1], kdf, userId);
        assert false;
      }
      NoFlagBefore(turns, n - 1, kdf, userId);
    }
  }

  /**
   * A login succeeds exactly with a password that derives, under the salt used when the user's password was last set, the
   * key derived then, and unless the last call to flag the user disabled it.
   */
  lemma LoginSucceedsExactlyWhen(turns: seq<Turn>, n: nat, kdf: Kdf, userId: string, i: nat, password: string, salt: seq<Byte>, q: string)
    requires n < |turns| && KnownUsersTo(turns, n, kdf, true) && userId in Run(turns, n, kdf, true).users
    requires i < n && LastPassword(turns, i, n, kdf, userId, password, salt) && salt != [] && kdf(password, salt) != []
    requires turns[n].call == Authenticate(Run(turns, n, kdf, true).users[userId].user.username, q)
    ensures var user := Run(turns, n, kdf, true).users[userId].user;
            && (AnswerAt(turns, n, kdf, true) == MaybeUser(Some(user)) <==>
                  kdf(q, salt) == kdf(password, salt) && !FlaggedDisabled(turns, n, kdf, userId))
            && (AnswerAt(turns, n, kdf, true) != MaybeUser(Some(user)) ==> AnswerAt(turns, n, kdf, true) == MaybeUser(None))
  {
    hide Step, HashPassword, SetsPassword, Consistent, VerifyPassword;
    RunsAreConsistent(turns, n, kdf, true);
    PasswordAndFlagAreTheLast(turns, n, kdf, userId);
    var row := Run(turns, n, kdf, true).users[userId];
    var i': nat, p, s :| i' < n && LastPassword(turns, i', n, kdf, userId, p, s) && row.passwordHash == HashPassword(kdf, p, s);
    OneLastPassword(turns, i, i', n, kdf, userId, password, salt, p, s);
    VerifyExactlyWhenKeysAgree(kdf, password, q, salt);
    AuthenticateAnswers(Run(turns, n, kdf, true), userId, q, turns[n].now, kdf);
  }

  lemma OneLastPassword(turns: seq<Turn>, i: nat, j: nat, n: nat, kdf: Kdf, userId: string, p: string, s: seq<Byte>, q: string, t: seq<Byte>)
    requires i < n <= |turns| && j < n && LastPassword(turns, i, n, kdf, userId, p, s) && LastPassword(turns, j, n, kdf, userId, q, t)
    ensures i == j && p == q && s == t
  {
    hide Step;
  }

  lemma AuthenticateAnswers(db: Db, userId: string, q: string, now: int, kdf: Kdf)
    requires Consistent(db) && userId in db.users
    ensures var row := db.users[userId];
            Step(db, Authenticate(row.user.username, q), now, kdf, true).1
              == MaybeUser(if !row.user.disabled && VerifyPassword(kdf, q, row.passwordHash) then Some(row.user) else None)
  {
    hide VerifyPassword;
  }

  // --- Acknowledgments -------------------------------------------------------------------------------------------

  /** The call at turn i acknowledged the incident, and no later one before turn n did. */
  predicate LastAcknowledgment(turns: seq<Turn>, i: nat, n: nat, key: AckKey)
    requires i < n <= |turns|
  {
    && Acknowledges(turns[i], key)
    && forall j :: i < j < n ==> !Acknowledges(turns[j], key)
  }

  predicate Acknowledges(turn: Turn, key: AckKey) {
    turn.call.AcknowledgeIncident? && turn.call.tenantId == key.tenantId && turn.call.signature == key.signature
  }

  lemma StepAcks(db: Db, turn: Turn, kdf: Kdf, key: AckKey)
    ensures var after := Step(db, turn.call, turn.now, kdf, true).0.acks;
            if Acknowledges(turn, key) then key in after && after[key] == Ack(turn.call.actor, turn.now)
            else (key in after <==> key in db.acks) && (key in after ==> after[key] == db.acks[key])
  {
    hide HashPassword, VerifyPassword, LongEnough;
  }

  /** In every run an incident is acknowledged exactly when some call did, and by whom and when the last such call says. */
  lemma {:induction false} AcknowledgmentIsTheLast(turns: seq<Turn>, n: nat, kdf: Kdf, key: AckKey)
    requires n <= |turns|
    ensures key in Run(turns, n, kdf, true).acks <==> exists i: nat :: i < n && LastAcknowledgment(turns, i, n, key)
    ensures forall i: nat :: i < n && LastAcknowledgment(turns, i, n, key) && key in Run(turns, n, kdf, true).acks ==>
              Run(turns, n, kdf, true).acks[key] == Ack(turns[i].call.actor, turns[i].now)
  {
    hide Step, Acknowledges;
    if n > 0 {
      AcknowledgmentIsTheLast(turns, n - 1, kdf, key);
      StepAcks(Run(turns, n - 1, kdf, true), turns[n - 1], kdf, key);
      AcknowledgedNext(turns, n, key);
      var m: nat := n - 1;
      if i: nat :| i < m && LastAcknowledgment(turns, i, m, key) {
        assert Acknowledges(turns[m], key) || LastAcknowledgment(turns, i, n, key);
      }
    }
  }

  lemma AcknowledgedNext(turns: seq<Turn>, n: nat, key: AckKey)
    requires 0 < n <= |turns|
    ensures forall i: nat :: i < n ==>
              (LastAcknowledgment(turns, i, n, key) <==>
                 if i == n - 1 then Acknowledges(turns[n - 1], key) else LastAcknowledgment(turns, i, n - 1, key) && !Acknowledges(turns[n - 1], key))
    ensures Acknowledges(turns[n - 1], key) ==> LastAcknowledgment(turns, n - 1, n, key)
  {
    hide Acknowledges;
  }
}
