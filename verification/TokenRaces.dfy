/** Token redemption and login by any number of requests whose statements interleave. */
module TokenRaces {
  import opened Policy
  import opened Sequences
  import opened Text
  import opened Passwords
  import opened SessionStore
  import opened SessionHistory

  datatype Job =
    | SignupJob(token: string, password: string, userId: string, salt: seq<Byte>)
    | ResetJob(token: string, newPassword: string, salt: seq<Byte>)

  function KindOf(job: Job): Kind {
    if job.SignupJob? then Signup else PasswordReset
  }

  // A process between two statements of its job. A login waits between the password check and opening its session.
  datatype Process =
    | Selected(job: Job, row: Token, at: int)
    | Spent(job: Job, row: Token)
    | Found(job: Job, userId: string)
    | Changed(job: Job, userId: string)
    | Admitted(user: User, passwordHash: string)

  datatype Note =
    | Consumed(token: string, kind: Kind, selectedAt: int, usedAt: int)
    | Joined(token: string, user: User)

  // `openedUnder` remembers, for every session opened, the stored password hash its login was checked against.
  datatype World = World(db: Db, processes: map<nat, Process>, notes: seq<Note>, openedUnder: map<string, string>)

  // Each move is one statement of one process, or one whole call of somebody else.
  datatype Move =
    | Select(pid: nat, job: Job)
    | Mark(pid: nat)
    | Join(pid: nat)
    | Find(pid: nat)
    | Change(pid: nat)
    | Sweep(pid: nat)
    | Login(pid: nat, username: string, password: string)
    | Open(pid: nat, sessionId: string, csrf: string)
    | Whole(call: Call)

  predicate Enabled(w: World, move: Move) {
    match move
    case Select(pid, _) => pid !in w.processes
    case Mark(pid) => pid in w.processes && w.processes[pid].Selected?
    case Join(pid) => pid in w.processes && w.processes[pid].Spent? && w.processes[pid].job.SignupJob?
    case Find(pid) => pid in w.processes && w.processes[pid].Spent? && w.processes[pid].job.ResetJob?
    case Change(pid) => pid in w.processes && w.processes[pid].Found? && w.processes[pid].job.ResetJob?
    case Sweep(pid) => pid in w.processes && w.processes[pid].Changed?
    case Login(pid, _, _) => pid !in w.processes
    case Open(pid, _, _) => pid in w.processes && w.processes[pid].Admitted?
    case Whole(call) => !call.RedeemSignupInvite? && !call.RedeemPasswordReset? && !call.CreateSession?
  }

  function Next(w: World, move: Move, now: int, kdf: Kdf): World
    requires Enabled(w, move)
  {
    match move
    case Select(pid, job) =>
      var row := SelectToken(w.db, job.token, KindOf(job), now);
      if row.None? then w else w.(processes := w.processes[pid := Selected(job, row.value, now)])
    case Mark(pid) =>
      var Selected(job, row, at) := w.processes[pid];
      var (db, changed) := MarkToken(w.db, job.token, now);
      if changed
      then w.(db := db, processes := w.processes[pid := Spent(job, row)], notes := w.notes + [Consumed(job.token, KindOf(job), at, now)])
      else w.(processes := w.processes - {pid})
    case Join(pid) =>
      var Spent(job, row) := w.processes[pid];
      var (db, answer) := InsertUser(w.db, kdf, row.tenantId, row.username, job.password, row.role, job.userId, job.salt, now);
      w.(db := db, processes := w.processes - {pid},
         notes := if answer.UserIs? then w.notes + [Joined(job.token, answer.user)] else w.notes)
    case Find(pid) =>
      var Spent(job, row) := w.processes[pid];
      var user := FindUser(w.db, row.tenantId, row.username);
      w.(processes := if !LongEnough(job.newPassword) || user.None? then w.processes - {pid} else w.processes[pid := Found(job, user.value)])
    case Change(pid) =>
      var Found(job, userId) := w.processes[pid];
      w.(db := WithPassword(w.db, userId, HashPassword(kdf, job.newPassword, job.salt)),
         processes := w.processes[pid := Changed(job, userId)])
    case Sweep(pid) =>
      w.(db := WithoutSessionsOf(w.db, w.processes[pid].userId), processes := w.processes - {pid})
    case Login(pid, username, password) =>
      var found := Step(w.db, Authenticate(username, password), now, kdf, true).1.found;
      if found.None? then w
      else w.(processes := w.processes[pid := Admitted(found.value, w.db.users[w.db.usernames[username]].passwordHash)])
    case Open(pid, sessionId, csrf) =>
      var Admitted(user, passwordHash) := w.processes[pid];
      var (db, answer) := Step(w.db, CreateSession(user, sessionId, csrf), now, kdf, true);
      w.(db := db, processes := w.processes - {pid},
         openedUnder := if answer.MaybeSession? then w.openedUnder[sessionId := passwordHash] else w.openedUnder)
    case Whole(call) => w.(db := Step(w.db, call, now, kdf, true).0)
  }

  // --- Runs ---------------------------------------------------------------------------------------

  datatype Timed = Timed(move: Move, now: int)

  const START := World(EMPTY, map[], [], map[])

  /** The world after the moves, or None if one of them was not possible when its turn came. */
  function After(moves: seq<Timed>, kdf: Kdf): Option<World> {
    if moves == [] then Some(START)
    else
      var last := |moves| - 1;
      var before := After(moves[..last], kdf);
      if before.Some? && Enabled(before.value, moves[last].move)
      then Some(Next(before.value, moves[last].move, moves[last].now, kdf)) else None
  }

  // --- The invariant --------------------------------------------------------------------------------

  predicate SameInvite(a: Token, b: Token) {
    a.(usedAt := None) == b.(usedAt := None)
  }

  ghost predicate ProcessSound(db: Db, p: Process) {
    && (p.Selected? || p.Spent? ==>
          && p.job.token in db.tokens && SameInvite(p.row, db.tokens[p.job.token]) && p.row.kind == KindOf(p.job)
          && (p.Selected? ==> p.at < p.row.expiresAt)
          && (p.Spent? ==> db.tokens[p.job.token].usedAt.Some?))
    && (p.Admitted? ==> p.user.userId in db.users && SameIdentity(p.user, db.users[p.user.userId].user))
  }

  /** A user row keeps all but its disabled flag. */
  predicate SameIdentity(a: User, b: User) {
    a.(disabled := false) == b.(disabled := false)
  }

  ghost predicate NoteSound(db: Db, note: Note) {
    && note.token in db.tokens
    && var row := db.tokens[note.token];
    && row.usedAt.Some?
    && match note
       case Consumed(_, kind, selectedAt, usedAt) => row.kind == kind && selectedAt < row.expiresAt && row.usedAt == Some(usedAt)
       case Joined(_, user) =>
         && row.kind == Signup && user.tenantId == row.tenantId && user.username == row.username && user.role == row.role
         && user.username in db.usernames
  }

  ghost predicate Inv(w: World) {
    && Consistent(w.db)
    && (forall pid :: pid in w.processes ==> ProcessSound(w.db, w.processes[pid]))
    && (forall i :: 0 <= i < |w.notes| ==> NoteSound(w.db, w.notes[i]))
    && (forall i, j :: 0 <= i < j < |w.notes| && w.notes[i].Consumed? && w.notes[j].Consumed? ==> w.notes[i].token != w.notes[j].token)
    && (forall i, j :: 0 <= i < j < |w.notes| && w.notes[i].Joined? && w.notes[j].Joined? ==>
          w.notes[i].token != w.notes[j].token && w.notes[i].user.username != w.notes[j].user.username)
    && (forall pid, pid' :: pid in w.processes && pid' in w.processes && pid != pid' && w.processes[pid].Spent? && w.processes[pid'].Spent?
          ==> w.processes[pid].job.token != w.processes[pid'].job.token)
    && (forall pid, i :: pid in w.processes && w.processes[pid].Spent? && 0 <= i < |w.notes| && w.notes[i].Joined?
          ==> w.processes[pid].job.token != w.notes[i].token)
  }

  /** Tokens and usernames only gain rows, and a token row only ever gains its time of use. */
  ghost predicate Grown(a: Db, b: Db) {
    && (forall t :: t in a.tokens ==> t in b.tokens && SameInvite(a.tokens[t], b.tokens[t])
                                      && (a.tokens[t].usedAt.Some? ==> b.tokens[t] == a.tokens[t]))
    && (forall name :: name in a.usernames ==> name in b.usernames)
    && (forall id :: id in a.users ==> id in b.users && SameIdentity(a.users[id].user, b.users[id].user))
  }

  lemma GrownKeepsSound(w: World, db: Db)
    requires Inv(w) && Grown(w.db, db) && Consistent(db)
    ensures Inv(w.(db := db))
  {
    forall i | 0 <= i < |w.notes| ensures NoteSound(db, w.notes[i]) {
      assert NoteSound(w.db, w.notes[i]);
    }
    forall pid | pid in w.processes ensures ProcessSound(db, w.processes[pid]) {
      assert ProcessSound(w.db, w.processes[pid]);
    }
  }

  lemma InsertGrows(db: Db, kdf: Kdf, tenantId: string, username: string, password: string, role: string,
                    userId: string, salt: seq<Byte>, now: int)
    ensures Grown(db, InsertUser(db, kdf, tenantId, username, password, role, userId, salt, now).0)
    ensures InsertUser(db, kdf, tenantId, username, password, role, userId, salt, now).1.UserIs? ==>
              var (after, answer) := InsertUser(db, kdf, tenantId, username, password, role, userId, salt, now);
              && username !in db.usernames && username in after.usernames && after.tokens == db.tokens
              && answer.user.tenantId == tenantId && answer.user.username == username && answer.user.role == role
  {
    hide HashPassword, LongEnough;
  }

  lemma WholeGrows(db: Db, call: Call, now: int, kdf: Kdf)
    requires !call.RedeemSignupInvite? && !call.RedeemPasswordReset? && !call.CreateSession?
    ensures Grown(db, Step(db, call, now, kdf, true).0)
  {
    hide Grown, InsertUser, AddLink, FindUser, VerifyPassword;
    match call
    case CreateUser(tenantId, username, password, role, userId, salt) =>
      InsertGrows(db, kdf, tenantId, username, password, role, userId, salt, now);
    case SetDisabled(userId, disabled) => DisablingGrows(db, userId, disabled);
    case CreateSignupInvite(tenantId, username, role, token) =>
      LinkGrows(db, token, Token(Signup, tenantId, username, role, now, now + SIGNUP_TTL, None));
    case CreatePasswordResetToken(tenantId, username, token) =>
      LinkGrows(db, token, Token(PasswordReset, tenantId, username, "", now, now + RESET_TTL, None));
    case _ => SameRowsGrow(db, Step(db, call, now, kdf, true).0);
  }

  lemma DisablingGrows(db: Db, userId: string, disabled: bool)
    ensures Grown(db, db)
    ensures userId in db.users ==>
              Grown(db, db.(users := db.users[userId := db.users[userId].(user := db.users[userId].user.(disabled := disabled))]))
  {
  }

  lemma LinkGrows(db: Db, token: string, row: Token)
    ensures Grown(db, db) && Grown(db, AddLink(db, token, row).0)
  {
  }

  lemma SameRowsGrow(a: Db, b: Db)
    requires a.users == b.users && a.usernames == b.usernames && a.tokens == b.tokens
    ensures Grown(a, b)
  {
  }

  lemma DropKeepsInv(w: World, pid: nat)
    requires Inv(w)
    ensures Inv(w.(processes := w.processes - {pid}))
  {
  }

  lemma NoteKeepsInv(w: World, note: Note)
    requires Inv(w) && NoteSound(w.db, note)
    requires note.Consumed? ==> forall i :: 0 <= i < |w.notes| && w.notes[i].Consumed? ==> w.notes[i].token != note.token
    requires note.Joined? ==>
               forall i :: 0 <= i < |w.notes| && w.notes[i].Joined? ==>
                             w.notes[i].token != note.token && w.notes[i].user.username != note.user.username
    requires note.Joined? ==> forall pid :: pid in w.processes && w.processes[pid].Spent? ==> w.processes[pid].job.token != note.token
    ensures Inv(w.(notes := w.notes + [note]))
  {
  }

  lemma SpendKeepsInv(w: World, pid: nat, p: Process)
    requires Inv(w) && p.Spent? && ProcessSound(w.db, p)
    requires forall other :: other in w.processes && w.processes[other].Spent? ==> w.processes[other].job.token != p.job.token
    requires forall i :: 0 <= i < |w.notes| && w.notes[i].Joined? ==> w.notes[i].token != p.job.token
    ensures Inv(w.(processes := w.processes[pid := p]))
  {
  }

  lemma UnspentIsUnclaimed(w: World, token: string)
    requires Inv(w) && token in w.db.tokens && w.db.tokens[token].usedAt.None?
    ensures forall i :: 0 <= i < |w.notes| ==> w.notes[i].token != token
    ensures forall pid :: pid in w.processes && w.processes[pid].Spent? ==> w.processes[pid].job.token != token
  {
    forall i | 0 <= i < |w.notes| ensures w.notes[i].token != token {
      assert NoteSound(w.db, w.notes[i]);
    }
    forall pid | pid in w.processes && w.processes[pid].Spent? ensures w.processes[pid].job.token != token {
      assert ProcessSound(w.db, w.processes[pid]);
    }
  }

  lemma MarkKeepsInv(w: World, pid: nat, now: int, kdf: Kdf)
    requires Inv(w) && Enabled(w, Mark(pid))
    ensures Inv(Next(w, Mark(pid), now, kdf))
  {
    var Selected(job, row, at) := w.processes[pid];
    var (db, changed) := MarkToken(w.db, job.token, now);
    if changed {
      assert ProcessSound(w.db, w.processes[pid]);
      UnspentIsUnclaimed(w, job.token);
      GrownKeepsSound(w, db);
      var note := Consumed(job.token, KindOf(job), at, now);
      NoteKeepsInv(w.(db := db), note);
      SpendKeepsInv(w.(db := db, notes := w.notes + [note]), pid, Spent(job, row));
    } else {
      DropKeepsInv(w, pid);
    }
  }

  lemma JoinedNamesAreTaken(w: World, username: string)
    requires Inv(w) && username !in w.db.usernames
    ensures forall i :: 0 <= i < |w.notes| && w.notes[i].Joined? ==> w.notes[i].user.username != username
  {
    forall i | 0 <= i < |w.notes| && w.notes[i].Joined? ensures w.notes[i].user.username != username {
      assert NoteSound(w.db, w.notes[i]);
    }
  }

  lemma JoinKeepsInv(w: World, pid: nat, now: int, kdf: Kdf)
    requires Inv(w) && Enabled(w, Join(pid))
    ensures Inv(Next(w, Join(pid), now, kdf))
  {
    hide InsertUser, Grown, Consistent;
    var Spent(job, row) := w.processes[pid];
    assert ProcessSound(w.db, w.processes[pid]);
    var (db, answer) := InsertUser(w.db, kdf, row.tenantId, row.username, job.password, row.role, job.userId, job.salt, now);
    InsertKeepsConsistent(w.db, kdf, row.tenantId, row.username, job.password, row.role, job.userId, job.salt, now);
    InsertGrows(w.db, kdf, row.tenantId, row.username, job.password, row.role, job.userId, job.salt, now);
    DropKeepsInv(w, pid);
    var dropped := w.(processes := w.processes - {pid});
    GrownKeepsSound(dropped, db);
    if answer.UserIs? {
      JoinedNamesAreTaken(w, row.username);
      NoteKeepsInv(dropped.(db := db), Joined(job.token, answer.user));
    }
  }

  lemma ChangeKeepsInv(w: World, pid: nat, now: int, kdf: Kdf)
    requires Inv(w) && Enabled(w, Change(pid))
    ensures Inv(Next(w, Change(pid), now, kdf))
  {
    var Found(job, userId) := w.processes[pid];
    var passwordHash := HashPassword(kdf, job.newPassword, job.salt);
    if userId in w.db.users {
      RowChangeKeepsConsistent(w.db, userId, w.db.users[userId].(passwordHash := passwordHash));
    }
    GrownKeepsSound(w, WithPassword(w.db, userId, passwordHash));
    StepAsideKeepsInv(w.(db := WithPassword(w.db, userId, passwordHash)), pid, Changed(job, userId));
  }

  lemma SweepKeepsInv(w: World, pid: nat, now: int, kdf: Kdf)
    requires Inv(w) && Enabled(w, Sweep(pid))
    ensures Inv(Next(w, Sweep(pid), now, kdf))
  {
    var dropped := w.(processes := w.processes - {pid});
    DropKeepsInv(w, pid);
    GrownKeepsSound(dropped, WithoutSessionsOf(w.db, w.processes[pid].userId));
  }

  /** A process that holds no token row weighs nothing. */
  lemma StepAsideKeepsInv(w: World, pid: nat, p: Process)
    requires Inv(w) && (p.Found? || p.Changed? || (p.Admitted? && ProcessSound(w.db, p)))
    ensures Inv(w.(processes := w.processes[pid := p]))
  {
  }

  lemma FindKeepsInv(w: World, pid: nat, now: int, kdf: Kdf)
    requires Inv(w) && Enabled(w, Find(pid))
    ensures Inv(Next(w, Find(pid), now, kdf))
  {
    var Spent(job, row) := w.processes[pid];
    var user := FindUser(w.db, row.tenantId, row.username);
    DropKeepsInv(w, pid);
    if user.Some? {
      StepAsideKeepsInv(w, pid, Found(job, user.value));
    }
  }

  lemma LoginKeepsInv(w: World, pid: nat, username: string, password: string, now: int, kdf: Kdf)
    requires Inv(w) && pid !in w.processes
    ensures Inv(Next(w, Login(pid, username, password), now, kdf))
  {
    hide VerifyPassword;
    var found := Step(w.db, Authenticate(username, password), now, kdf, true).1.found;
    if found.Some? {
      var row := w.db.users[w.db.usernames[username]];
      assert row.user.userId == w.db.usernames[username];
      StepAsideKeepsInv(w, pid, Admitted(found.value, row.passwordHash));
    }
  }

  lemma OpenKeepsInv(w: World, pid: nat, sessionId: string, csrf: string, now: int, kdf: Kdf)
    requires Inv(w) && Enabled(w, Open(pid, sessionId, csrf))
    ensures Inv(Next(w, Open(pid, sessionId, csrf), now, kdf))
  {
    hide Inv, Consistent, Grown, Step;
    var user := w.processes[pid].user;
    var call := CreateSession(user, sessionId, csrf);
    AdmittedIsKnown(w, pid);
    StepKeepsConsistent(w.db, call, now, kdf, true);
    OpenGrows(w.db, user, sessionId, csrf, now, kdf);
    DropKeepsInv(w, pid);
    GrownKeepsSound(w.(processes := w.processes - {pid}), Step(w.db, call, now, kdf, true).0);
    InvDependsOn(w.(processes := w.processes - {pid}, db := Step(w.db, call, now, kdf, true).0), Next(w, Open(pid, sessionId, csrf), now, kdf));
  }

  lemma AdmittedIsKnown(w: World, pid: nat)
    requires Inv(w) && pid in w.processes && w.processes[pid].Admitted?
    ensures Consistent(w.db)
    ensures forall sessionId, csrf :: KnownUser(w.db, CreateSession(w.processes[pid].user, sessionId, csrf))
  {
    assert ProcessSound(w.db, w.processes[pid]);
  }

  lemma OpenGrows(db: Db, user: User, sessionId: string, csrf: string, now: int, kdf: Kdf)
    ensures Grown(db, Step(db, CreateSession(user, sessionId, csrf), now, kdf, true).0)
  {
  }

  lemma InvDependsOn(w: World, other: World)
    requires Inv(w) && other.db == w.db && other.processes == w.processes && other.notes == w.notes
    ensures Inv(other)
  {
  }

  lemma SelectKeepsInv(w: World, pid: nat, job: Job, now: int, kdf: Kdf)
    requires Inv(w) && pid !in w.processes
    ensures Inv(Next(w, Select(pid, job), now, kdf))
  {
  }

  lemma WholeKeepsInv(w: World, call: Call, now: int, kdf: Kdf)
    requires Inv(w) && Enabled(w, Whole(call))
    ensures Inv(Next(w, Whole(call), now, kdf))
  {
    hide Inv, Grown;
    assert Consistent(w.db) by { InvIsConsistent(w); }
    StepKeepsConsistent(w.db, call, now, kdf, true);
    WholeGrows(w.db, call, now, kdf);
    GrownKeepsSound(w, Step(w.db, call, now, kdf, true).0);
  }

  lemma InvIsConsistent(w: World)
    requires Inv(w)
    ensures Consistent(w.db)
  {
  }

  lemma NextKeepsInv(w: World, move: Move, now: int, kdf: Kdf)
    requires Inv(w) && Enabled(w, move)
    ensures Inv(Next(w, move, now, kdf))
  {
    hide Inv, Next;
    match move
    case Select(pid, job) => SelectKeepsInv(w, pid, job, now, kdf);
    case Mark(pid) => MarkKeepsInv(w, pid, now, kdf);
    case Join(pid) => JoinKeepsInv(w, pid, now, kdf);
    case Find(pid) => FindKeepsInv(w, pid, now, kdf);
    case Change(pid) => ChangeKeepsInv(w, pid, now, kdf);
    case Sweep(pid) => SweepKeepsInv(w, pid, now, kdf);
    case Login(pid, username, password) => LoginKeepsInv(w, pid, username, password, now, kdf);
    case Open(pid, sessionId, csrf) => OpenKeepsInv(w, pid, sessionId, csrf, now, kdf);
    case Whole(call) => WholeKeepsInv(w, call, now, kdf);
  }

  lemma {:induction false} RunsKeepInv(moves: seq<Timed>, kdf: Kdf)
    requires After(moves, kdf).Some?
    ensures Inv(After(moves, kdf).value)
  {
    if moves != [] {
      var last := |moves| - 1;
      RunsKeepInv(moves[..last], kdf);
      NextKeepsInv(After(moves[..last], kdf).value, moves[last].move, moves[last].now, kdf);
    }
  }

  /**
   * However the statements interleave: a token is consumed at most once, only through a link of its own kind that was
   * selected before it expired; one invite makes at most one user, with the invite's tenant, username and role; and all
   * the invites for one username make at most one user between them.
   */
  lemma RedemptionIsRaceFree(moves: seq<Timed>, kdf: Kdf)
    requires After(moves, kdf).Some?
    ensures var w := After(moves, kdf).value;
            && (forall i, j :: 0 <= i < j < |w.notes| && w.notes[i].Consumed? && w.notes[j].Consumed? ==> w.notes[i].token != w.notes[j].token)
            && (forall i, j :: 0 <= i < j < |w.notes| && w.notes[i].Joined? && w.notes[j].Joined? ==>
                  w.notes[i].token != w.notes[j].token && w.notes[i].user.username != w.notes[j].user.username)
            && (forall i :: 0 <= i < |w.notes| ==> NoteSound(w.db, w.notes[i]))
  {
    RunsKeepInv(moves, kdf);
  }

  // --- When an expired link is still spent ----------------------------------------------------------------------

  predicate NotBefore(more: seq<Timed>, t: int) {
    forall i :: 0 <= i < |more| ==> t <= more[i].now
  }

  predicate Held(w: World, token: string) {
    exists pid :: pid in w.processes && w.processes[pid].Selected? && w.processes[pid].job.token == token
  }

  predicate Unspent(w: World, token: string, expiresAt: int) {
    token in w.db.tokens && w.db.tokens[token].usedAt.None? && w.db.tokens[token].expiresAt == expiresAt
  }

  lemma ExpiredUnheldStays(w: World, move: Move, now: int, kdf: Kdf, token: string, expiresAt: int)
    requires Enabled(w, move) && Unspent(w, token, expiresAt) && !Held(w, token) && expiresAt <= now
    ensures Unspent(Next(w, move, now, kdf), token, expiresAt) && !Held(Next(w, move, now, kdf), token)
  {
    var after := Next(w, move, now, kdf);
    hide Step, InsertUser, HashPassword, VerifyPassword;
    match move
    case Whole(call) => WholeKeepsUnspent(w.db, call, now, kdf, token);
    case Join(pid) =>
      var Spent(job, row) := w.processes[pid];
      InsertKeepsTokens(w.db, kdf, row.tenantId, row.username, job.password, row.role, job.userId, job.salt, now);
    case Open(pid, sessionId, csrf) => OpenKeepsTokens(w.db, w.processes[pid].user, sessionId, csrf, now, kdf);
    case _ =>
  }

  lemma OpenKeepsTokens(db: Db, user: User, sessionId: string, csrf: string, now: int, kdf: Kdf)
    ensures Step(db, CreateSession(user, sessionId, csrf), now, kdf, true).0.tokens == db.tokens
  {
  }

  lemma WholeKeepsUnspent(db: Db, call: Call, now: int, kdf: Kdf, token: string)
    requires !call.RedeemSignupInvite? && !call.RedeemPasswordReset? && token in db.tokens
    ensures var after := Step(db, call, now, kdf, true).0; token in after.tokens && after.tokens[token] == db.tokens[token]
  {
  }

  lemma {:induction false} ExpiredUnheldIsNeverSpent(moves: seq<Timed>, more: seq<Timed>, kdf: Kdf, token: string, expiresAt: int)
    requires After(moves, kdf).Some? && Unspent(After(moves, kdf).value, token, expiresAt) && !Held(After(moves, kdf).value, token)
    requires After(moves + more, kdf).Some? && NotBefore(more, expiresAt)
    ensures Unspent(After(moves + more, kdf).value, token, expiresAt) && !Held(After(moves + more, kdf).value, token)
    decreases |more|
  {
    hide Next, Enabled, Unspent, Held;
    if more == [] {
      assert moves + more == moves;
    } else {
      ConcatTake(moves, more);
      var last := |more| - 1;
      ExpiredUnheldIsNeverSpent(moves, more[..last], kdf, token, expiresAt);
      ExpiredUnheldStays(After(moves + more[..last], kdf).value, more[last].move, more[last].now, kdf, token, expiresAt);
    }
  }

  /**
   * The UPDATE does not look at the expiry again. So an unspent link can still be spent by moves from its expiry on if
   * and only if some process selected it before and has not marked it yet.
   */
  lemma ExpiredLinkIsSpentExactlyWhenHeld(moves: seq<Timed>, kdf: Kdf, token: string)
    requires After(moves, kdf).Some? && token in After(moves, kdf).value.db.tokens
    requires After(moves, kdf).value.db.tokens[token].usedAt.None?
    ensures var w := After(moves, kdf).value;
            (exists more :: NotBefore(more, w.db.tokens[token].expiresAt) && After(moves + more, kdf).Some?
                            && !Unspent(After(moves + more, kdf).value, token, w.db.tokens[token].expiresAt)) <==> Held(w, token)
  {
    var w := After(moves, kdf).value;
    var expiresAt := w.db.tokens[token].expiresAt;
    if Held(w, token) {
      var pid :| pid in w.processes && w.processes[pid].Selected? && w.processes[pid].job.token == token;
      var more := [Timed(Mark(pid), expiresAt)];
      ConcatTake(moves, more);
      assert moves + more[..0] == moves;
      assert NotBefore(more, expiresAt) && After(moves + more, kdf).Some?;
      assert !Unspent(After(moves + more, kdf).value, token, expiresAt);
    } else {
      forall more | NotBefore(more, expiresAt) && After(moves + more, kdf).Some?
        ensures Unspent(After(moves + more, kdf).value, token, expiresAt)
      {
        ExpiredUnheldIsNeverSpent(moves, more, kdf, token, expiresAt);
      }
    }
  }

  /** The UPDATE does not look at the expiry again: a process held up between its statements spends an expired link. */
  lemma LateMarkStillSpends(kdf: Kdf)
    ensures var job := SignupJob("t", "a long password", "u", []);
            var moves := [Timed(Whole(CreateSignupInvite("tenant", "name", "client-admin", "t")), 0),
                          Timed(Select(0, job), SIGNUP_TTL - 1), Timed(Mark(0), SIGNUP_TTL)];
            && After(moves, kdf).Some?
            && var w := After(moves, kdf).value;
               w.notes == [Consumed("t", Signup, SIGNUP_TTL - 1, SIGNUP_TTL)] && "t" in w.db.tokens && w.db.tokens["t"].expiresAt <= SIGNUP_TTL
  {
    var job := SignupJob("t", "a long password", "u", []);
    var invite := Timed(Whole(CreateSignupInvite("tenant", "name", "client-admin", "t")), 0);
    var select := Timed(Select(0, job), SIGNUP_TTL - 1);
    var moves := [invite, select, Timed(Mark(0), SIGNUP_TTL)];
    var row := Token(Signup, "tenant", "name", "client-admin", 0, SIGNUP_TTL, None);
    assert moves[..2][..1] == [invite] && [invite][..0] == [] && moves[..2] == [invite, select];
    assert After([invite], kdf) == Some(START.(db := EMPTY.(tokens := map["t" := row]))) by {
      assert CLIENT_ROLES[2] == "client-admin";
      assert After([], kdf) == Some(START);
    }
    assert After(moves[..2], kdf).value.processes == map[0 := Selected(job, row, SIGNUP_TTL - 1)];
  }

  // --- Sessions opened under a password since replaced ------------------------------------------------------------

  ghost predicate Tracked(w: World) {
    forall s :: s in w.db.sessions ==> s in w.openedUnder
  }

  /** A session of the user whose login was checked against another password than the present one. */
  ghost predicate Outdated(w: World, userId: string, hash: string, s: string) {
    s in w.db.sessions && w.db.sessions[s].userId == userId && s in w.openedUnder && w.openedUnder[s] != hash
  }

  predicate LoginPending(w: World, userId: string, hash: string) {
    exists pid :: pid in w.processes && w.processes[pid].Admitted? && w.processes[pid].user.userId == userId && w.processes[pid].passwordHash != hash
  }

  ghost predicate UpToDate(w: World, userId: string, hash: string) {
    !LoginPending(w, userId, hash) && forall s :: !Outdated(w, userId, hash, s)
  }

  predicate HasPassword(w: World, userId: string, hash: string) {
    userId in w.db.users && w.db.users[userId].passwordHash == hash
  }

  /** The end of a reset: none of the user's sessions is left. */
  lemma SweepLeavesNoSession(w: World, pid: nat, now: int, kdf: Kdf)
    requires Enabled(w, Sweep(pid))
    ensures var after := Next(w, Sweep(pid), now, kdf);
            forall s :: s in after.db.sessions ==> after.db.sessions[s].userId != w.processes[pid].userId
  {
  }

  lemma OnlyOpenAddsSessions(w: World, move: Move, now: int, kdf: Kdf, s: string)
    requires Enabled(w, move) && !move.Open? && s in Next(w, move, now, kdf).db.sessions
    ensures s in w.db.sessions && w.db.sessions[s] == Next(w, move, now, kdf).db.sessions[s]
    ensures Next(w, move, now, kdf).openedUnder == w.openedUnder
  {
    hide InsertUser, HashPassword, VerifyPassword;
    match move
    case Whole(call) => WholeAddsNoSession(w.db, call, now, kdf, s);
    case Join(pid) =>
      var Spent(job, row) := w.processes[pid];
      InsertKeepsSessions(w.db, kdf, row.tenantId, row.username, job.password, row.role, job.userId, job.salt, now);
    case _ =>
  }

  lemma InsertKeepsSessions(db: Db, kdf: Kdf, tenantId: string, username: string, password: string, role: string,
                            userId: string, salt: seq<Byte>, now: int)
    ensures InsertUser(db, kdf, tenantId, username, password, role, userId, salt, now).0.sessions == db.sessions
  {
  }

  lemma WholeAddsNoSession(db: Db, call: Call, now: int, kdf: Kdf, s: string)
    requires !call.RedeemSignupInvite? && !call.RedeemPasswordReset? && !call.CreateSession?
    requires s in Step(db, call, now, kdf, true).0.sessions
    ensures s in db.sessions && db.sessions[s] == Step(db, call, now, kdf, true).0.sessions[s]
  {
    hide HashPassword, VerifyPassword;
  }

  /** A login is admitted under the password of the moment. */
  lemma AdmittedUnderPresentPassword(w: World, move: Move, now: int, kdf: Kdf, pid: nat)
    requires Inv(w) && Enabled(w, move)
    requires pid in Next(w, move, now, kdf).processes && Next(w, move, now, kdf).processes[pid].Admitted?
    ensures var p := Next(w, move, now, kdf).processes[pid];
            (pid in w.processes && w.processes[pid] == p) || HasPassword(w, p.user.userId, p.passwordHash)
  {
    hide InsertUser, HashPassword, VerifyPassword;
    if move.Login? {
      var found := Step(w.db, Authenticate(move.username, move.password), now, kdf, true).1.found;
      if found.Some? {
        assert w.db.users[w.db.usernames[move.username]].user.userId == w.db.usernames[move.username];
      }
    }
  }

  lemma OpenAddsOneSession(w: World, pid: nat, sessionId: string, csrf: string, now: int, kdf: Kdf)
    requires Enabled(w, Open(pid, sessionId, csrf))
    ensures var after := Next(w, Open(pid, sessionId, csrf), now, kdf);
            if sessionId in w.db.sessions
            then after.db == w.db && after.openedUnder == w.openedUnder
            else after.db.sessions == w.db.sessions[sessionId := NewSession(w.processes[pid].user, sessionId, csrf, now)]
                 && after.openedUnder == w.openedUnder[sessionId := w.processes[pid].passwordHash]
  {
  }

  lemma UpToDateStays(w: World, move: Move, now: int, kdf: Kdf, userId: string, hash: string)
    requires Inv(w) && Enabled(w, move) && HasPassword(w, userId, hash) && UpToDate(w, userId, hash)
    ensures UpToDate(Next(w, move, now, kdf), userId, hash)
  {
    hide Next, Inv;
    var after := Next(w, move, now, kdf);
    if LoginPending(after, userId, hash) {
      var pid :| pid in after.processes && after.processes[pid].Admitted? && after.processes[pid].user.userId == userId
                 && after.processes[pid].passwordHash != hash;
      AdmittedUnderPresentPassword(w, move, now, kdf, pid);
      assert false;
    }
    forall s ensures !Outdated(after, userId, hash, s) {
      if s in after.db.sessions {
        assert !Outdated(w, userId, hash, s);
        if move.Open? {
          OpenAddsOneSession(w, move.pid, move.sessionId, move.csrf, now, kdf);
        } else {
          OnlyOpenAddsSessions(w, move, now, kdf, s);
        }
      }
    }
  }

  lemma TrackedStays(w: World, move: Move, now: int, kdf: Kdf)
    requires Enabled(w, move) && Tracked(w)
    ensures Tracked(Next(w, move, now, kdf))
  {
    hide Next;
    forall s | s in Next(w, move, now, kdf).db.sessions ensures s in Next(w, move, now, kdf).openedUnder {
      if move.Open? {
        OpenAddsOneSession(w, move.pid, move.sessionId, move.csrf, now, kdf);
      } else {
        OnlyOpenAddsSessions(w, move, now, kdf, s);
      }
    }
  }

  /** Every session of a run is known to have been opened by a login. */
  lemma {:induction false} RunsTrackSessions(moves: seq<Timed>, kdf: Kdf)
    requires After(moves, kdf).Some?
    ensures Tracked(After(moves, kdf).value)
  {
    hide Next, Enabled;
    if moves != [] {
      var last := |moves| - 1;
      RunsTrackSessions(moves[..last], kdf);
      TrackedStays(After(moves[..last], kdf).value, moves[last].move, moves[last].now, kdf);
    }
  }

  /** The user's password is this one all along. */
  ghost predicate Steady(moves: seq<Timed>, more: seq<Timed>, kdf: Kdf, userId: string, hash: string) {
    forall k :: 0 <= k <= |more| ==> After(moves + more[..k], kdf).Some? && HasPassword(After(moves + more[..k], kdf).value, userId, hash)
  }

  lemma {:induction false} UpToDateForGood(moves: seq<Timed>, more: seq<Timed>, kdf: Kdf, userId: string, hash: string)
    requires Steady(moves, more, kdf, userId, hash)
    requires After(moves, kdf).Some? && UpToDate(After(moves, kdf).value, userId, hash)
    ensures After(moves + more, kdf).Some? && UpToDate(After(moves + more, kdf).value, userId, hash)
    decreases |more|
  {
    hide Next, Enabled, UpToDate, Inv;
    assert more[..|more|] == more;
    if more == [] {
      assert moves + more == moves;
    } else {
      var last := |more| - 1;
      ConcatTake(moves, more);
      assert Steady(moves, more[..last], kdf, userId, hash) by {
        forall k | 0 <= k <= last ensures more[..last][..k] == more[..k] {
        }
      }
      UpToDateForGood(moves, more[..last], kdf, userId, hash);
      var w := After(moves + more[..last], kdf).value;
      RunsKeepInv(moves + more[..last], kdf);
      UpToDateStays(w, more[last].move, more[last].now, kdf, userId, hash);
    }
  }

  lemma {:induction false} UnusedName(taken: set<string>) returns (s: string)
    ensures s !in taken
    ensures forall t :: t in taken ==> |t| < |s|
  {
    if taken == {} {
      s := "s";
    } else {
      var t :| t in taken;
      var r := UnusedName(taken - {t});
      s := r + t + "s";
    }
  }

  /**
   * Take any world in which no session of the user dates from another password, such as the one after a reset's sweep.
   * While the password stays, such a session appears again in some continuation if and only if some login was admitted
   * under another password and has not opened its session yet.
   */
  lemma OutdatedSessionAppearsExactlyWhenLoginPending(moves: seq<Timed>, kdf: Kdf, userId: string, hash: string)
    requires After(moves, kdf).Some? && HasPassword(After(moves, kdf).value, userId, hash)
    requires forall s :: !Outdated(After(moves, kdf).value, userId, hash, s)
    ensures (exists more, s :: Steady(moves, more, kdf, userId, hash) && After(moves + more, kdf).Some?
                               && Outdated(After(moves + more, kdf).value, userId, hash, s)) <==>
              LoginPending(After(moves, kdf).value, userId, hash)
  {
    var w := After(moves, kdf).value;
    if LoginPending(w, userId, hash) {
      var pid :| pid in w.processes && w.processes[pid].Admitted? && w.processes[pid].user.userId == userId && w.processes[pid].passwordHash != hash;
      var s := UnusedName(w.db.sessions.Keys);
      PendingLoginOpens(moves, kdf, userId, hash, pid, s);
    } else {
      forall more, s | Steady(moves, more, kdf, userId, hash) && After(moves + more, kdf).Some?
        ensures !Outdated(After(moves + more, kdf).value, userId, hash, s)
      {
        UpToDateForGood(moves, more, kdf, userId, hash);
      }
    }
  }

  lemma PendingLoginOpens(moves: seq<Timed>, kdf: Kdf, userId: string, hash: string, pid: nat, s: string)
    requires After(moves, kdf).Some? && HasPassword(After(moves, kdf).value, userId, hash)
    requires var w := After(moves, kdf).value;
             && pid in w.processes && w.processes[pid].Admitted? && w.processes[pid].user.userId == userId
             && w.processes[pid].passwordHash != hash && s !in w.db.sessions
    ensures var more := [Timed(Open(pid, s, ""), 0)];
            && Steady(moves, more, kdf, userId, hash) && After(moves + more, kdf).Some?
            && Outdated(After(moves + more, kdf).value, userId, hash, s)
  {
    var w, more := After(moves, kdf).value, [Timed(Open(pid, s, ""), 0)];
    ConcatTake(moves, more);
    assert moves + more[..0] == moves && more[..1] == more;
    OpenAddsOneSession(w, pid, s, "", 0, kdf);
    assert After(moves + more, kdf) == Some(Next(w, Open(pid, s, ""), 0, kdf));
    assert Next(w, Open(pid, s, ""), 0, kdf).db.users == w.db.users;
  }

  // --- Sessions of a disabled user --------------------------------------------------------------------------------

  predicate IsDisabled(w: World, userId: string) {
    userId in w.db.users && w.db.users[userId].user.disabled
  }

  predicate Pending(w: World, userId: string) {
    exists pid :: pid in w.processes && w.processes[pid].Admitted? && w.processes[pid].user.userId == userId
  }

  /** Every session of the user was there in `before` already. */
  ghost predicate NoNewSession(before: Db, db: Db, userId: string) {
    forall s :: s in db.sessions && db.sessions[s].userId == userId ==> s in before.sessions
  }

  /** A disabled user is not admitted. */
  lemma DisabledIsNotAdmitted(w: World, move: Move, now: int, kdf: Kdf, userId: string)
    requires Inv(w) && Enabled(w, move) && IsDisabled(w, userId) && !Pending(w, userId)
    ensures !Pending(Next(w, move, now, kdf), userId)
  {
    hide InsertUser, HashPassword, VerifyPassword;
    if move.Login? {
      var found := Step(w.db, Authenticate(move.username, move.password), now, kdf, true).1.found;
      if found.Some? {
        assert w.db.users[w.db.usernames[move.username]].user.userId == w.db.usernames[move.username];
      }
    }
  }

  lemma NoNewSessionStays(before: Db, w: World, move: Move, now: int, kdf: Kdf, userId: string)
    requires Enabled(w, move) && NoNewSession(before, w.db, userId) && !Pending(w, userId)
    ensures NoNewSession(before, Next(w, move, now, kdf).db, userId)
  {
    hide Next;
    var after := Next(w, move, now, kdf);
    forall s | s in after.db.sessions && after.db.sessions[s].userId == userId ensures s in before.sessions {
      if move.Open? {
        OpenAddsOneSession(w, move.pid, move.sessionId, move.csrf, now, kdf);
      } else {
        OnlyOpenAddsSessions(w, move, now, kdf, s);
      }
    }
  }

  /** The user is disabled all along. */
  ghost predicate StaysDisabled(moves: seq<Timed>, more: seq<Timed>, kdf: Kdf, userId: string) {
    forall k :: 0 <= k <= |more| ==> After(moves + more[..k], kdf).Some? && IsDisabled(After(moves + more[..k], kdf).value, userId)
  }

  lemma {:induction false} NobodyAdmittedNobodyOpens(moves: seq<Timed>, more: seq<Timed>, kdf: Kdf, userId: string)
    requires StaysDisabled(moves, more, kdf, userId)
    requires After(moves, kdf).Some? && !Pending(After(moves, kdf).value, userId)
    ensures After(moves + more, kdf).Some? && !Pending(After(moves + more, kdf).value, userId)
    ensures NoNewSession(After(moves, kdf).value.db, After(moves + more, kdf).value.db, userId)
    decreases |more|
  {
    hide Next, Enabled, Inv, Pending, NoNewSession, IsDisabled;
    assert more[..|more|] == more;
    if more == [] {
      assert moves + more == moves;
      SameSessionsAreOld(After(moves, kdf).value.db, userId);
    } else {
      var last := |more| - 1;
      ConcatTake(moves, more);
      assert StaysDisabled(moves, more[..last], kdf, userId) by {
        forall k | 0 <= k <= last ensures more[..last][..k] == more[..k] {
        }
      }
      NobodyAdmittedNobodyOpens(moves, more[..last], kdf, userId);
      var w := After(moves + more[..last], kdf).value;
      RunsKeepInv(moves + more[..last], kdf);
      DisabledIsNotAdmitted(w, more[last].move, more[last].now, kdf, userId);
      NoNewSessionStays(After(moves, kdf).value.db, w, more[last].move, more[last].now, kdf, userId);
    }
  }

  lemma SameSessionsAreOld(db: Db, userId: string)
    ensures NoNewSession(db, db, userId)
  {
  }

  /**
   * Take any world in which a user is disabled. While it stays so, it gains a session in some continuation if and only if
   * some login of it was admitted before and has not opened its session yet.
   */
  lemma DisabledUserGainsSessionExactlyWhenLoginPending(moves: seq<Timed>, kdf: Kdf, userId: string)
    requires After(moves, kdf).Some? && IsDisabled(After(moves, kdf).value, userId)
    ensures (exists more :: StaysDisabled(moves, more, kdf, userId) && After(moves + more, kdf).Some?
                            && !NoNewSession(After(moves, kdf).value.db, After(moves + more, kdf).value.db, userId)) <==>
              Pending(After(moves, kdf).value, userId)
  {
    var w := After(moves, kdf).value;
    if Pending(w, userId) {
      var pid :| pid in w.processes && w.processes[pid].Admitted? && w.processes[pid].user.userId == userId;
      var s := UnusedName(w.db.sessions.Keys);
      AdmittedLoginOpens(moves, kdf, userId, pid, s);
    } else {
      forall more | StaysDisabled(moves, more, kdf, userId) && After(moves + more, kdf).Some?
        ensures NoNewSession(w.db, After(moves + more, kdf).value.db, userId)
      {
        NobodyAdmittedNobodyOpens(moves, more, kdf, userId);
      }
    }
  }

  lemma AdmittedLoginOpens(moves: seq<Timed>, kdf: Kdf, userId: string, pid: nat, s: string)
    requires After(moves, kdf).Some? && IsDisabled(After(moves, kdf).value, userId)
    requires var w := After(moves, kdf).value;
             && pid in w.processes && w.processes[pid].Admitted? && w.processes[pid].user.userId == userId && s !in w.db.sessions
    ensures var more := [Timed(Open(pid, s, ""), 0)];
            && StaysDisabled(moves, more, kdf, userId) && After(moves + more, kdf).Some?
            && !NoNewSession(After(moves, kdf).value.db, After(moves + more, kdf).value.db, userId)
  {
    var w, more := After(moves, kdf).value, [Timed(Open(pid, s, ""), 0)];
    ConcatTake(moves, more);
    assert moves + more[..0] == moves && more[..1] == more;
    OpenAddsOneSession(w, pid, s, "", 0, kdf);
    assert After(moves + more, kdf) == Some(Next(w, Open(pid, s, ""), 0, kdf));
    assert Next(w, Open(pid, s, ""), 0, kdf).db.users == w.db.users;
    assert s in After(moves + more, kdf).value.db.sessions;
  }
}
