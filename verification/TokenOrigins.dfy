/** Where links come from and how long they are good for, however the statements of their redeemers interleave. */
module TokenOrigins {
  import opened Policy
  import opened Sequences
  import opened Text
  import opened Passwords
  import opened SessionStore
  import opened SessionHistory
  import opened TokenRaces

  /** The call that makes such a link, and the time from which it is no longer good. */
  predicate Asks(move: Timed, token: string, kind: Kind, tenantId: string, username: string, role: string, expiresAt: int) {
    match kind
    case Signup =>
      move.move == Whole(CreateSignupInvite(tenantId, username, role, token)) && expiresAt == move.now + 604_800_000
    case PasswordReset =>
      move.move == Whole(CreatePasswordResetToken(tenantId, username, token)) && expiresAt == move.now + 3_600_000
  }

  /** Move k is the one that made the row of the token. */
  predicate Makes(moves: seq<Timed>, k: nat, kdf: Kdf, token: string, row: Token)
    requires k < |moves|
  {
    && Asks(moves[k], token, row.kind, row.tenantId, row.username, row.role, row.expiresAt)
    && After(moves[..k], kdf).Some? && token !in After(moves[..k], kdf).value.db.tokens
    && After(moves[..k + 1], kdf).Some? && token in After(moves[..k + 1], kdf).value.db.tokens
  }

  lemma MadeBefore(moves: seq<Timed>, n: nat, k: nat, kdf: Kdf, token: string, row: Token, later: Token)
    requires k < n <= |moves| && Makes(moves[..n], k, kdf, token, row) && SameInvite(row, later)
    ensures Makes(moves, k, kdf, token, later)
  {
    assert moves[..n][..k] == moves[..k] && moves[..n][..k + 1] == moves[..k + 1];
  }

  /** Rows are only added by the two calls that make links; a row that was there only gains its time of use. */
  lemma RowOrigin(w: World, move: Move, now: int, kdf: Kdf, token: string)
    requires Inv(w) && Enabled(w, move) && token in Next(w, move, now, kdf).db.tokens
    ensures var row := Next(w, move, now, kdf).db.tokens[token];
            if token in w.db.tokens then SameInvite(w.db.tokens[token], row)
            else Asks(Timed(move, now), token, row.kind, row.tenantId, row.username, row.role, row.expiresAt)
  {
    hide InsertUser, HashPassword, VerifyPassword, Inv;
    match move
    case Join(pid) =>
      var Spent(job, row) := w.processes[pid];
      InsertKeepsTokens(w.db, kdf, row.tenantId, row.username, job.password, row.role, job.userId, job.salt, now);
    case Whole(call) => WholeRowOrigin(w.db, call, now, kdf, token);
    case _ =>
  }

  lemma WholeRowOrigin(db: Db, call: Call, now: int, kdf: Kdf, token: string)
    requires !call.RedeemSignupInvite? && !call.RedeemPasswordReset? && token in Step(db, call, now, kdf, true).0.tokens
    ensures var row := Step(db, call, now, kdf, true).0.tokens[token];
            if token in db.tokens then db.tokens[token] == row
            else Asks(Timed(Whole(call), now), token, row.kind, row.tenantId, row.username, row.role, row.expiresAt)
  {
    hide HashPassword, VerifyPassword, LongEnough;
  }

  /** Every row of every interleaving was made by a call that named its tenant, its username and its role. */
  lemma {:induction false} EveryLinkWasAskedFor(moves: seq<Timed>, kdf: Kdf, token: string)
    requires After(moves, kdf).Some? && token in After(moves, kdf).value.db.tokens
    ensures exists k: nat :: k < |moves| && Makes(moves, k, kdf, token, After(moves, kdf).value.db.tokens[token])
  {
    hide Next, Enabled, Asks, Inv;
    var last := |moves| - 1;
    var w := After(moves[..last], kdf).value;
    var row := After(moves, kdf).value.db.tokens[token];
    RunsKeepInv(moves[..last], kdf);
    RowOrigin(w, moves[last].move, moves[last].now, kdf, token);
    assert moves[..last + 1] == moves;
    if token in w.db.tokens {
      EveryLinkWasAskedFor(moves[..last], kdf, token);
      var k: nat :| k < last && Makes(moves[..last], k, kdf, token, w.db.tokens[token]);
      MadeBefore(moves, last, k, kdf, token, w.db.tokens[token], row);
    } else {
      assert Makes(moves, last, kdf, token, row);
    }
  }

  /** At most one call made it: later calls for the same token are refused. */
  lemma {:induction false} LinksStay(moves: seq<Timed>, j: nat, kdf: Kdf, token: string)
    requires j <= |moves| && After(moves, kdf).Some? && After(moves[..j], kdf).Some? && token in After(moves[..j], kdf).value.db.tokens
    ensures token in After(moves, kdf).value.db.tokens && SameInvite(After(moves[..j], kdf).value.db.tokens[token], After(moves, kdf).value.db.tokens[token])
  {
    hide Next, Enabled, Inv;
    if j == |moves| {
      assert moves[..j] == moves;
    } else {
      var last := |moves| - 1;
      assert moves[..last][..j] == moves[..j];
      LinksStay(moves[..last], j, kdf, token);
      var w := After(moves[..last], kdf).value;
      RunsKeepInv(moves[..last], kdf);
      RowStays(w, moves[last].move, moves[last].now, kdf, token);
    }
  }

  lemma RowStays(w: World, move: Move, now: int, kdf: Kdf, token: string)
    requires Inv(w) && Enabled(w, move) && token in w.db.tokens
    ensures token in Next(w, move, now, kdf).db.tokens && SameInvite(w.db.tokens[token], Next(w, move, now, kdf).db.tokens[token])
    ensures Next(w, move, now, kdf).db.tokens[token] == w.db.tokens[token]
            || (move.Mark? && w.processes[move.pid].job.token == token
                && Next(w, move, now, kdf).notes == w.notes + [Consumed(token, KindOf(w.processes[move.pid].job), w.processes[move.pid].at, now)])
  {
    hide InsertUser, HashPassword, VerifyPassword, Inv;
    match move
    case Join(pid) =>
      var Spent(job, row) := w.processes[pid];
      InsertKeepsTokens(w.db, kdf, row.tenantId, row.username, job.password, row.role, job.userId, job.salt, now);
    case Whole(call) => WholeKeepsUnspent(w.db, call, now, kdf, token);
    case _ =>
  }

  /** So a token has one maker. */
  lemma OneMaker(moves: seq<Timed>, i: nat, j: nat, kdf: Kdf, token: string, row: Token, other: Token)
    requires i < |moves| && j < |moves| && Makes(moves, i, kdf, token, row) && Makes(moves, j, kdf, token, other)
    ensures j <= i
  {
    hide Next, Enabled, Asks;
    if i < j {
      assert moves[..j][..i + 1] == moves[..i + 1];
      LinksStay(moves[..j], i + 1, kdf, token);
      assert false;
    }
  }

  // --- What was spent ---------------------------------------------------------------------------------------------

  ghost predicate IsConsumed(w: World, token: string) {
    exists i :: 0 <= i < |w.notes| && w.notes[i].Consumed? && w.notes[i].token == token
  }

  /** A link is marked as used exactly when one of its redeemers consumed it. */
  lemma {:induction false} UsedExactlyWhenConsumed(moves: seq<Timed>, kdf: Kdf, token: string)
    requires After(moves, kdf).Some? && token in After(moves, kdf).value.db.tokens
    ensures After(moves, kdf).value.db.tokens[token].usedAt.Some? <==> IsConsumed(After(moves, kdf).value, token)
  {
    hide Next, Enabled, Inv, Asks;
    var last := |moves| - 1;
    var w, w' := After(moves[..last], kdf).value, After(moves, kdf).value;
    RunsKeepInv(moves[..last], kdf);
    RunsKeepInv(moves, kdf);
    if IsConsumed(w', token) {
      ConsumedIsUsed(w', token);
    }
    if w'.db.tokens[token].usedAt.Some? {
      RowOrigin(w, moves[last].move, moves[last].now, kdf, token);
      if token in w.db.tokens {
        UsedExactlyWhenConsumed(moves[..last], kdf, token);
        RowStays(w, moves[last].move, moves[last].now, kdf, token);
        if w'.db.tokens[token] == w.db.tokens[token] {
          NotesStay(w, moves[last].move, moves[last].now, kdf);
          var i :| 0 <= i < |w.notes| && w.notes[i].Consumed? && w.notes[i].token == token;
          assert w'.notes[i] == w.notes[i];
        } else {
          assert w'.notes[|w.notes|].Consumed?;
        }
      } else {
        NewRowIsUnused(w, moves[last].move, moves[last].now, kdf, token);
        assert false;
      }
    }
  }

  lemma ConsumedIsUsed(w: World, token: string)
    requires Inv(w) && token in w.db.tokens && IsConsumed(w, token)
    ensures w.db.tokens[token].usedAt.Some?
  {
    var i :| 0 <= i < |w.notes| && w.notes[i].Consumed? && w.notes[i].token == token;
    assert NoteSound(w.db, w.notes[i]);
  }

  lemma NotesStay(w: World, move: Move, now: int, kdf: Kdf)
    requires Enabled(w, move)
    ensures w.notes <= Next(w, move, now, kdf).notes
  {
    hide InsertUser, HashPassword, VerifyPassword, Step;
  }

  lemma NewRowIsUnused(w: World, move: Move, now: int, kdf: Kdf, token: string)
    requires Enabled(w, move) && token !in w.db.tokens && token in Next(w, move, now, kdf).db.tokens
    ensures Next(w, move, now, kdf).db.tokens[token].usedAt.None?
  {
    hide InsertUser, HashPassword, VerifyPassword;
    match move
    case Join(pid) =>
      var Spent(job, row) := w.processes[pid];
      InsertKeepsTokens(w.db, kdf, row.tenantId, row.username, job.password, row.role, job.userId, job.salt, now);
    case Open(pid, sessionId, csrf) => OpenKeepsTokens(w.db, w.processes[pid].user, sessionId, csrf, now, kdf);
    case Whole(call) => NewWholeRowIsUnused(w.db, call, now, kdf, token);
    case _ =>
  }

  lemma NewWholeRowIsUnused(db: Db, call: Call, now: int, kdf: Kdf, token: string)
    requires !call.RedeemSignupInvite? && !call.RedeemPasswordReset?
    requires token !in db.tokens && token in Step(db, call, now, kdf, true).0.tokens
    ensures Step(db, call, now, kdf, true).0.tokens[token].usedAt.None?
  {
    hide HashPassword, VerifyPassword, LongEnough;
  }

  /** The links a redeemer may hold: a sign-up invite for one who signs up, a reset link for one who resets. */
  ghost predicate IsGood(moves: seq<Timed>, k: nat, kdf: Kdf, token: string, kind: Kind, now: int)
    requires k < |moves|
  {
    exists row: Token :: row.kind == kind && Makes(moves, k, kdf, token, row) && now < row.expiresAt
  }

  /**
   * In every interleaving a redeemer gets past its SELECT exactly with a token that some earlier call of its own kind made,
   * less than a week (sign-up) or an hour (reset) before, and that nobody has consumed since.
   */
  lemma SelectionSucceedsExactlyWhen(moves: seq<Timed>, kdf: Kdf, pid: nat, job: Job, now: int)
    requires After(moves, kdf).Some? && Enabled(After(moves, kdf).value, Select(pid, job))
    ensures var w := After(moves, kdf).value;
            pid in Next(w, Select(pid, job), now, kdf).processes <==>
              && !IsConsumed(w, job.token)
              && (job.SignupJob? ==> exists k: nat :: k < |moves| && IsGood(moves, k, kdf, job.token, Signup, now))
              && (job.ResetJob? ==> exists k: nat :: k < |moves| && IsGood(moves, k, kdf, job.token, PasswordReset, now))
  {
    hide Makes, IsConsumed, IsGood, After, Next;
    SelectedExactlyWhenFound(After(moves, kdf).value, pid, job, now, kdf);
    GoodExactlyWhenInTable(moves, kdf, job.token, KindOf(job), now);
    if job.token in After(moves, kdf).value.db.tokens {
      UsedExactlyWhenConsumed(moves, kdf, job.token);
    }
  }

  lemma SelectedExactlyWhenFound(w: World, pid: nat, job: Job, now: int, kdf: Kdf)
    requires Enabled(w, Select(pid, job))
    ensures pid in Next(w, Select(pid, job), now, kdf).processes <==>
              && job.token in w.db.tokens && w.db.tokens[job.token].usedAt.None?
              && w.db.tokens[job.token].kind == KindOf(job) && now < w.db.tokens[job.token].expiresAt
  {
  }

  lemma GoodExactlyWhenInTable(moves: seq<Timed>, kdf: Kdf, token: string, kind: Kind, now: int)
    requires After(moves, kdf).Some?
    ensures var rows := After(moves, kdf).value.db.tokens;
            (exists k: nat :: k < |moves| && IsGood(moves, k, kdf, token, kind, now)) <==>
              token in rows && rows[token].kind == kind && now < rows[token].expiresAt
  {
    hide Makes, After;
    var rows := After(moves, kdf).value.db.tokens;
    if k: nat :| k < |moves| && IsGood(moves, k, kdf, token, kind, now) {
      var other: Token :| other.kind == kind && Makes(moves, k, kdf, token, other) && now < other.expiresAt;
      MadeIsThere(moves, k, kdf, token, other);
      EveryLinkWasAskedFor(moves, kdf, token);
      var j: nat :| j < |moves| && Makes(moves, j, kdf, token, rows[token]);
      SameMakerSameRow(moves, j, k, kdf, token, rows[token], other);
    }
    if token in rows && rows[token].kind == kind && now < rows[token].expiresAt {
      EveryLinkWasAskedFor(moves, kdf, token);
      var j: nat :| j < |moves| && Makes(moves, j, kdf, token, rows[token]);
      assert IsGood(moves, j, kdf, token, kind, now);
    }
  }

  lemma SameMakerSameRow(moves: seq<Timed>, i: nat, j: nat, kdf: Kdf, token: string, row: Token, other: Token)
    requires i < |moves| && j < |moves| && Makes(moves, i, kdf, token, row) && Makes(moves, j, kdf, token, other)
    ensures i == j && row.kind == other.kind && row.expiresAt == other.expiresAt
            && row.tenantId == other.tenantId && row.username == other.username
  {
    hide After;
    OneMaker(moves, i, j, kdf, token, row, other);
    OneMaker(moves, j, i, kdf, token, other, row);
  }

  lemma MadeIsThere(moves: seq<Timed>, k: nat, kdf: Kdf, token: string, row: Token)
    requires k < |moves| && After(moves, kdf).Some? && Makes(moves, k, kdf, token, row)
    ensures token in After(moves, kdf).value.db.tokens
  {
    hide Next, Enabled, Asks;
    LinksStay(moves, k + 1, kdf, token);
  }

  /**
   * Whatever came of a link, in every interleaving: it was consumed by one who selected it less than a week after the
   * invite was made, or less than an hour after the reset link was; and a user who joined has the tenant, the username and
   * the role named by the call that made the invite.
   */
  lemma EveryRedemptionWasAskedFor(moves: seq<Timed>, kdf: Kdf, i: nat)
    requires After(moves, kdf).Some? && i < |After(moves, kdf).value.notes|
    ensures var note := After(moves, kdf).value.notes[i];
            match note
            case Consumed(token, kind, selectedAt, usedAt) =>
              exists k: nat :: k < |moves| && IsGood(moves, k, kdf, token, kind, selectedAt)
            case Joined(token, user) =>
              exists k: nat, row: Token ::
                k < |moves| && Makes(moves, k, kdf, token, row)
                && moves[k].move == Whole(CreateSignupInvite(user.tenantId, user.username, user.role, token))
  {
    hide Makes, After;
    var w := After(moves, kdf).value;
    RunsKeepInv(moves, kdf);
    assert NoteSound(w.db, w.notes[i]);
    var token := w.notes[i].token;
    var row := w.db.tokens[token];
    EveryLinkWasAskedFor(moves, kdf, token);
    var k: nat :| k < |moves| && Makes(moves, k, kdf, token, row);
    MakerAsks(moves, k, kdf, token, row);
    if w.notes[i].Consumed? {
      assert IsGood(moves, k, kdf, token, w.notes[i].kind, w.notes[i].selectedAt);
    }
  }

  lemma MakerAsks(moves: seq<Timed>, k: nat, kdf: Kdf, token: string, row: Token)
    requires k < |moves| && Makes(moves, k, kdf, token, row)
    ensures Asks(moves[k], token, row.kind, row.tenantId, row.username, row.role, row.expiresAt)
  {
  }

  // --- Whose password a reset changes -----------------------------------------------------------------------------

  ghost predicate Named(db: Db, p: Process) {
    p.Found? || p.Changed? ==>
      && p.job.token in db.tokens && db.tokens[p.job.token].kind == PasswordReset && p.userId in db.users
      && db.users[p.userId].user.tenantId == db.tokens[p.job.token].tenantId
      && db.users[p.userId].user.username == db.tokens[p.job.token].username
  }

  ghost predicate AllNamed(w: World) {
    forall pid :: pid in w.processes ==> Named(w.db, w.processes[pid])
  }

  lemma NextGrows(w: World, move: Move, now: int, kdf: Kdf)
    requires Inv(w) && Enabled(w, move)
    ensures Grown(w.db, Next(w, move, now, kdf).db)
  {
    hide InsertUser, HashPassword, VerifyPassword, Inv, Grown, Step;
    match move
    case Mark(pid) => MarkGrows(w.db, w.processes[pid].job.token, now);
    case Join(pid) =>
      var Spent(job, row) := w.processes[pid];
      InsertGrows(w.db, kdf, row.tenantId, row.username, job.password, row.role, job.userId, job.salt, now);
    case Change(pid) =>
      var Found(job, userId) := w.processes[pid];
      PasswordGrows(w.db, userId, HashPassword(kdf, job.newPassword, job.salt));
    case Open(pid, sessionId, csrf) => OpenGrows(w.db, w.processes[pid].user, sessionId, csrf, now, kdf);
    case Whole(call) => WholeGrows(w.db, call, now, kdf);
    case _ => SameRowsGrow(w.db, Next(w, move, now, kdf).db);
  }

  lemma MarkGrows(db: Db, token: string, now: int)
    ensures Grown(db, MarkToken(db, token, now).0)
  {
  }

  lemma PasswordGrows(db: Db, userId: string, hash: string)
    ensures Grown(db, WithPassword(db, userId, hash))
  {
  }

  lemma NamedStays(db: Db, after: Db, p: Process)
    requires Named(db, p) && Grown(db, after)
    ensures Named(after, p)
  {
  }

  /** A resetter finds the account its link names. */
  lemma NextKeepsNamed(w: World, move: Move, now: int, kdf: Kdf)
    requires Inv(w) && Enabled(w, move) && AllNamed(w)
    ensures AllNamed(Next(w, move, now, kdf))
  {
    hide Grown, Named, Next, Inv, Enabled;
    var after := Next(w, move, now, kdf);
    NextGrows(w, move, now, kdf);
    forall pid | pid in after.processes ensures Named(after.db, after.processes[pid]) {
      ProcessIsNamed(w, move, now, kdf, pid);
    }
  }

  lemma ProcessIsNamed(w: World, move: Move, now: int, kdf: Kdf, pid: nat)
    requires Inv(w) && Enabled(w, move) && pid in Next(w, move, now, kdf).processes
    requires Grown(w.db, Next(w, move, now, kdf).db) && (pid in w.processes ==> Named(w.db, w.processes[pid]))
    ensures Named(Next(w, move, now, kdf).db, Next(w, move, now, kdf).processes[pid])
  {
    hide InsertUser, HashPassword, VerifyPassword, Step, Grown, Consistent, Inv, MarkToken, WithPassword;
    var after := Next(w, move, now, kdf);
    if move.Find? && move.pid == pid {
      FindIsNamed(w, pid, now, kdf);
    } else if pid in w.processes {
      NamedStays(w.db, after.db, w.processes[pid]);
    }
  }

  lemma FindIsNamed(w: World, pid: nat, now: int, kdf: Kdf)
    requires Inv(w) && Enabled(w, Find(pid)) && pid in Next(w, Find(pid), now, kdf).processes
    ensures Named(w.db, Next(w, Find(pid), now, kdf).processes[pid]) && Next(w, Find(pid), now, kdf).db == w.db
  {
    hide LongEnough;
    assert ProcessSound(w.db, w.processes[pid]);
  }

  lemma {:induction false} RunsKeepNamed(moves: seq<Timed>, kdf: Kdf)
    requires After(moves, kdf).Some?
    ensures AllNamed(After(moves, kdf).value)
  {
    hide Next, Enabled, Inv, Named;
    if moves != [] {
      var last := |moves| - 1;
      RunsKeepNamed(moves[..last], kdf);
      RunsKeepInv(moves[..last], kdf);
      NextKeepsNamed(After(moves[..last], kdf).value, moves[last].move, moves[last].now, kdf);
    }
  }

  /**
   * Whenever a reset changes a password, in whatever interleaving, it is that of the account whose tenant and username were
   * named by the call that made the link, it becomes the one given, and nobody else's changes.
   */
  lemma EveryResetWasAskedFor(moves: seq<Timed>, kdf: Kdf, pid: nat, now: int)
    requires After(moves, kdf).Some? && Enabled(After(moves, kdf).value, Change(pid))
    ensures var w := After(moves, kdf).value;
            var Found(job, userId) := w.processes[pid];
            && userId in w.db.users
            && (exists k: nat, row: Token ::
                  k < |moves| && Makes(moves, k, kdf, job.token, row)
                  && moves[k].move == Whole(CreatePasswordResetToken(w.db.users[userId].user.tenantId, w.db.users[userId].user.username, job.token)))
            && Next(w, Change(pid), now, kdf).db.users
               == w.db.users[userId := UserRow(w.db.users[userId].user, HashPassword(kdf, job.newPassword, job.salt))]
  {
    hide Makes, After, HashPassword, Inv;
    var w := After(moves, kdf).value;
    var Found(job, userId) := w.processes[pid];
    RunsKeepNamed(moves, kdf);
    assert Named(w.db, w.processes[pid]);
    EveryLinkWasAskedFor(moves, kdf, job.token);
    var k: nat :| k < |moves| && Makes(moves, k, kdf, job.token, w.db.tokens[job.token]);
    MakerAsks(moves, k, kdf, job.token, w.db.tokens[job.token]);
  }
}
