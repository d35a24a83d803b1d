/** Runs of the Gate, and exactly which evidence logs they can leave behind. */
module GateRuns {
  import opened Schema
  import opened Policy
  import opened Evidence
  import opened GateService

  datatype Turn = Turn(call: Call, env: Ambient)

  predicate Mints(call: Call) {
    call.SetEnvelope? || call.Approve? || call.Authorize?
  }

  /** A minted identifier was never minted before. */
  predicate FreshTurn(db: Db, turn: Turn) {
    Mints(turn.call) ==> Fresh(db.evidence, |db.evidence|, turn.env.id)
  }

  /** The state after the first n calls. */
  function Run(turns: seq<Turn>, n: nat): Db
    requires n <= |turns|
  {
    if n == 0 then EMPTY_DB else Step(Run(turns, n - 1), turns[n - 1].call, turns[n - 1].env).0
  }

  predicate FreshUpTo(turns: seq<Turn>, n: nat)
    requires n <= |turns|
  {
    n == 0 || (FreshUpTo(turns, n - 1) && FreshTurn(Run(turns, n - 1), turns[n - 1]))
  }

  predicate FreshRun(turns: seq<Turn>) {
    FreshUpTo(turns, |turns|)
  }

  function Final(turns: seq<Turn>): Db {
    Run(turns, |turns|)
  }

  /** What the tables say, in the auditor's terms: the log names agents but not their display names or tokens. */
  function AuditView(db: Db): Audit {
    Audit(db.agents.Keys, (set a | a in db.agents && db.agents[a].revoked),
          db.policies, db.usage, db.approvals, db.decisions, db.decisionPolicies)
  }

  predicate ApprovalGranted(a: Audit, at: int, approval: Approval) {
    && approval.agentId in a.registered - a.revoked
    && approval.agentId in a.policies
    && var policy := a.policies[approval.agentId];
    && approval.requestHash.OfRequest?
    && var request := approval.requestHash.request;
    && IsRequest(request) && request.agentId == approval.agentId && request.approvalId.None?
    && FindRule(policy.envelope.approvals, request.action) == Some(Rule(request.action, approval.role))
    && approval.policyHash == policy.hash && approval.policyRevision == policy.revision
    && at < approval.expiresAt <= policy.envelope.expiresAt
    && !approval.used
    && Evaluate(request, Some(policy.envelope),
                Context(at, false, true, UsageOf(a.usage, approval.agentId), a.registered - a.revoked)) == Allow
  }

  predicate ValidIn(a: Audit, request: Request, now: int) {
    var approval := PresentedApproval(a.approvals, request);
    approval.Some? && ApprovalValid(approval.value, request, Lookup(a.policies, request.agentId), now)
  }

  predicate DecisionReached(a: Audit, d: Decision) {
    var policy := Lookup(a.policies, d.agentId);
    var valid := ValidIn(a, d.request, d.timestamp);
    && d.agentId in a.registered
    && IsRequest(d.request) && d.request.agentId == d.agentId
    && d.verdict == Evaluate(d.request, EnvelopeOf(policy),
                             Context(d.timestamp, d.agentId in a.revoked, valid, UsageOf(a.usage, d.agentId), a.registered - a.revoked))
    && d.policyHash == (if policy.Some? then Some(policy.value.hash) else None)
    && d.approvalReference == (if valid then d.request.approvalId else None)
  }

  /** Could the Gate have written this record, given what the log said before it? */
  predicate Warranted(a: Audit, e: Event) {
    match e
    case AgentRegistered(_, id) => IsId(id) && id !in a.registered
    case EnvelopeIssued(at, id, hash, revision, envelope) =>
      && id in a.registered - a.revoked
      && hash == OfEnvelope(envelope) && envelope.agentId == id
      && WellFormed(envelope) && at < envelope.expiresAt
    case ApprovalIssued(at, approval) => ApprovalGranted(a, at, approval)
    case AuthorizationDecision(d) => DecisionReached(a, d)
    case AgentRevoked(_, id, reason) => IsId(id) && IsLabel(reason) && id in a.registered
  }

  predicate Admissible(log: seq<Event>, n: nat)
    requires n < |log|
  {
    && Warranted(Replay(log, n), log[n])
    && (MintedBy(log[n]).Some? ==> Fresh(log, n, MintedBy(log[n]).value))
  }

  predicate Legal(log: seq<Event>) {
    forall n :: 0 <= n < |log| ==> Admissible(log, n)
  }

  /** The tables are what the log says they are, and the log is one the Gate could write. */
  predicate Sound(db: Db) {
    && Keyed(db)
    && AuditView(db) == Replay(db.evidence, |db.evidence|)
    && Legal(db.evidence)
  }

  lemma LegalAppend(log: seq<Event>, e: Event)
    requires Legal(log)
    requires Warranted(Replay(log, |log|), e)
    requires MintedBy(e).Some? ==> Fresh(log, |log|, MintedBy(e).value)
    ensures Legal(log + [e])
  {
    hide Warranted, Replay, MintedBy;
    var extended := log + [e];
    forall n | 0 <= n < |extended| ensures Admissible(extended, n) {
      ReplayPrefix(log, e, n);
      if n < |log| {
        assert Admissible(log, n);
        assert extended[n] == log[n];
      }
    }
  }

  lemma AppendKeepsSound(db: Db, after: Db, e: Event)
    requires Sound(db) && Keyed(after)
    requires after.evidence == db.evidence + [e]
    requires AuditView(after) == Learn(AuditView(db), e)
    requires Warranted(AuditView(db), e)
    requires MintedBy(e).Some? ==> Fresh(db.evidence, |db.evidence|, MintedBy(e).value)
    ensures Sound(after)
  {
    LegalAppend(db.evidence, e);
    ReplayAppend(db.evidence, e);
  }

  lemma RegisterKeepsSound(db: Db, principal: Principal, agentId: string, name: string, tokenHash: string, env: Ambient)
    requires Sound(db)
    ensures Sound(Step(db, Register(principal, agentId, name, tokenHash), env).0)
  {
    var after := Step(db, Register(principal, agentId, name, tokenHash), env).0;
    if after != db {
      var e := AgentRegistered(env.now, agentId);
      assert AuditView(after).registered == Learn(AuditView(db), e).registered;
      assert AuditView(after).revoked == AuditView(db).revoked;
      AppendKeepsSound(db, after, e);
    }
  }

  lemma RevokeKeepsSound(db: Db, principal: Principal, agentId: string, reason: string, env: Ambient)
    requires Sound(db)
    ensures Sound(Step(db, Revoke(principal, agentId, reason), env).0)
  {
    var after := Step(db, Revoke(principal, agentId, reason), env).0;
    if after != db {
      var e := AgentRevoked(env.now, agentId, reason);
      assert AuditView(after).registered == AuditView(db).registered;
      assert AuditView(after).revoked == AuditView(db).revoked + {agentId};
      AppendKeepsSound(db, after, e);
    }
  }

  lemma SetEnvelopeKeepsSound(db: Db, principal: Principal, envelope: Envelope, env: Ambient)
    requires Sound(db) && Fresh(db.evidence, |db.evidence|, env.id)
    ensures Sound(Step(db, SetEnvelope(principal, envelope), env).0)
  {
    var after := Step(db, SetEnvelope(principal, envelope), env).0;
    if after != db {
      AppendKeepsSound(db, after, EnvelopeIssued(env.now, envelope.agentId, OfEnvelope(envelope), env.id, envelope));
    }
  }

  lemma KnownAgentsView(db: Db)
    ensures KnownAgents(db.agents) == AuditView(db).registered - AuditView(db).revoked
  {
  }

  lemma ApproveKeepsSound(db: Db, principal: Principal, request: Request, expiresAt: int, env: Ambient)
    requires Sound(db) && Fresh(db.evidence, |db.evidence|, env.id)
    ensures Sound(Step(db, Approve(principal, request, expiresAt), env).0)
  {
    var after := Step(db, Approve(principal, request, expiresAt), env).0;
    if after != db {
      KnownAgentsView(db);
      var approval := ApprovalFor(db, principal, request, expiresAt, env).0.value;
      assert Bound(request) == request;
      assert ApprovalGranted(AuditView(db), env.now, approval);
      AppendKeepsSound(db, after, ApprovalIssued(env.now, approval));
    }
  }

  lemma AuthorizeKeepsSound(db: Db, principal: Principal, request: Request, env: Ambient)
    requires Sound(db) && Fresh(db.evidence, |db.evidence|, env.id)
    ensures Sound(Step(db, Authorize(principal, request), env).0)
  {
    var after := Step(db, Authorize(principal, request), env).0;
    if after != db {
      KnownAgentsView(db);
      var d := DecisionFor(db, request, env);
      assert DecisionReached(AuditView(db), d);
      assert AuditView(after) == Learn(AuditView(db), AuthorizationDecision(d));
      AppendKeepsSound(db, after, AuthorizationDecision(d));
    }
  }

  lemma StepKeepsSound(db: Db, call: Call, env: Ambient)
    requires Sound(db) && FreshTurn(db, Turn(call, env))
    ensures Sound(Step(db, call, env).0)
  {
    match call
    case Register(p, id, name, token) => RegisterKeepsSound(db, p, id, name, token, env);
    case SetEnvelope(p, envelope) => SetEnvelopeKeepsSound(db, p, envelope, env);
    case Approve(p, request, expiresAt) => ApproveKeepsSound(db, p, request, expiresAt, env);
    case Authorize(p, request) => AuthorizeKeepsSound(db, p, request, env);
    case Revoke(p, id, reason) => RevokeKeepsSound(db, p, id, reason, env);
  }

  lemma EmptyIsSound()
    ensures Sound(EMPTY_DB)
  {
    assert AuditView(EMPTY_DB) == EMPTY_AUDIT;
  }

  lemma OnlySetEnvelopeIssues(db: Db, call: Call, env: Ambient)
    requires !call.SetEnvelope?
    ensures Step(db, call, env).0.policies == db.policies
  {
  }

  lemma OnlyAuthorizeDecides(db: Db, call: Call, env: Ambient)
    requires !call.Authorize?
    ensures Step(db, call, env).0.decisions == db.decisions
  {
  }

  lemma RunNext(turns: seq<Turn>, n: nat, turn: Turn)
    requires 0 < n <= |turns| && turns[n - 1] == turn
    ensures Run(turns, n) == Step(Run(turns, n - 1), turn.call, turn.env).0
  {
  }

  lemma RunStepKeepsSound(turns: seq<Turn>, n: nat)
    requires 0 < n <= |turns| && Sound(Run(turns, n - 1)) && FreshTurn(Run(turns, n - 1), turns[n - 1])
    ensures Sound(Run(turns, n))
  {
    var db, turn := Run(turns, n - 1), turns[n - 1];
    StepKeepsSound(db, turn.call, turn.env);
    RunNext(turns, n, turn);
  }

  /** In every reachable state the log alone rebuilds the tables. */
  lemma {:induction false} EvidenceRebuildsTables(turns: seq<Turn>, n: nat)
    requires n <= |turns| && FreshUpTo(turns, n)
    ensures Sound(Run(turns, n))
  {
    if n == 0 {
      EmptyIsSound();
    } else {
      EvidenceRebuildsTables(turns, n - 1);
      RunStepKeepsSound(turns, n);
    }
  }

  /** A call that fails, for any reason, leaves tables and log as they were. */
  lemma FailureLeavesNoTrace(db: Db, call: Call, env: Ambient)
    ensures var (after, outcome) := Step(db, call, env);
            && (outcome.Failed? <==> after == db)
            && (!outcome.Failed? ==> env.appendOk && |after.evidence| == |db.evidence| + 1 && db.evidence < after.evidence)
  {
    hide Evaluate, WellFormed, IsRequest, IsId, IsLabel, FindRule, Charge;
    var (after, outcome) := Step(db, call, env);
    if !outcome.Failed? {
      assert |after.evidence| == |db.evidence| + 1;
    }
  }

  // --- Every legal log is the log of some run -------------------------------------------------

  /** A call that writes a given record. */
  function TurnFor(e: Event): Turn {
    match e
    case AgentRegistered(at, id) => Turn(Register(Admin(""), id, id, ""), Ambient(at, "", true))
    case EnvelopeIssued(at, _, _, revision, envelope) => Turn(SetEnvelope(Admin(""), envelope), Ambient(at, revision, true))
    case ApprovalIssued(at, approval) =>
      Turn(Approve(Approver(approval.role),
                   if approval.requestHash.OfRequest? then approval.requestHash.request
                   else Request("", "", "", "", None, 0, None, None),
                   approval.expiresAt),
           Ambient(at, approval.id, true))
    case AuthorizationDecision(d) => Turn(Authorize(AgentPrincipal(d.agentId), d.request), Ambient(d.timestamp, d.decisionId, true))
    case AgentRevoked(at, id, reason) => Turn(Revoke(Admin(""), id, reason), Ambient(at, "", true))
  }

  lemma WarrantedIsWritten(db: Db, e: Event)
    requires Sound(db) && Warranted(AuditView(db), e)
    ensures Step(db, TurnFor(e).call, TurnFor(e).env).0.evidence == db.evidence + [e]
  {
    KnownAgentsView(db);
    if e.ApprovalIssued? {
      var request := e.approval.requestHash.request;
      assert Bound(request) == request;
      assert ApprovalFor(db, Approver(e.approval.role), request, e.approval.expiresAt, TurnFor(e).env).0 == Some(e.approval);
    } else if e.AuthorizationDecision? {
      assert DecisionFor(db, e.decision.request, TurnFor(e).env) == e.decision;
    }
  }

  lemma {:induction false} ReplayTake(log: seq<Event>, n: nat, m: nat)
    requires n <= m <= |log|
    ensures Replay(log[..m], n) == Replay(log, n)
  {
    if n > 0 {
      ReplayTake(log, n - 1, m);
    }
  }

  lemma NextTurnIsFresh(log: seq<Event>, n: nat, db: Db)
    requires n < |log| && Admissible(log, n) && db.evidence == log[..n]
    ensures FreshTurn(db, TurnFor(log[n]))
  {
    assert Mints(TurnFor(log[n]).call) <==> MintedBy(log[n]).Some?;
  }

  lemma NextRecordIsWarranted(log: seq<Event>, n: nat, db: Db)
    requires n < |log| && Admissible(log, n) && Sound(db) && db.evidence == log[..n]
    ensures Warranted(AuditView(db), log[n])
  {
    ReplayTake(log, n, n);
  }

  lemma NextTurnWritesNextRecord(log: seq<Event>, n: nat, db: Db, e: Event)
    requires n < |log| && log[n] == e && Sound(db) && db.evidence == log[..n]
    requires Warranted(AuditView(db), e) && FreshTurn(db, TurnFor(e))
    ensures var after := Step(db, TurnFor(e).call, TurnFor(e).env).0;
            Sound(after) && after.evidence == log[..n + 1]
  {
    WarrantedIsWritten(db, e);
    StepKeepsSound(db, TurnFor(e).call, TurnFor(e).env);
    assert log[..n + 1] == log[..n] + [e];
  }

  lemma LegalRecordIsStep(log: seq<Event>, n: nat, db: Db, after: Db)
    requires n < |log| && Admissible(log, n) && Sound(db) && db.evidence == log[..n]
    requires after == Step(db, TurnFor(log[n]).call, TurnFor(log[n]).env).0
    ensures FreshTurn(db, TurnFor(log[n])) && Sound(after) && after.evidence == log[..n + 1]
  {
    NextTurnIsFresh(log, n, db);
    NextRecordIsWarranted(log, n, db);
    NextTurnWritesNextRecord(log, n, db, log[n]);
  }

  ghost predicate Writes(turns: seq<Turn>, log: seq<Event>, n: nat) {
    n <= |turns| && n <= |log| && Sound(Run(turns, n)) && Run(turns, n).evidence == log[..n] && FreshUpTo(turns, n)
  }

  lemma NothingWritten(turns: seq<Turn>, log: seq<Event>)
    ensures Writes(turns, log, 0)
  {
    EmptyIsSound();
    assert log[..0] == [];
  }

  lemma NextRecordWritten(turns: seq<Turn>, log: seq<Event>, n: nat)
    requires 0 < n <= |log| && Admissible(log, n - 1) && Writes(turns, log, n - 1)
    requires n <= |turns| && turns[n - 1] == TurnFor(log[n - 1])
    ensures Writes(turns, log, n)
  {
    hide Step, Sound, TurnFor, Admissible, Fresh;
    RunNext(turns, n, TurnFor(log[n - 1]));
    LegalRecordIsStep(log, n - 1, Run(turns, n - 1), Run(turns, n));
  }

  lemma {:induction false} LegalPrefixIsRun(turns: seq<Turn>, log: seq<Event>, n: nat)
    requires Legal(log) && n <= |log| == |turns| && forall i :: 0 <= i < |log| ==> turns[i] == TurnFor(log[i])
    ensures Writes(turns, log, n)
  {
    hide Writes, Admissible;
    if n == 0 {
      NothingWritten(turns, log);
    } else {
      LegalPrefixIsRun(turns, log, n - 1);
      NextRecordWritten(turns, log, n);
    }
  }

  lemma LegalLogIsRun(log: seq<Event>) returns (turns: seq<Turn>)
    requires Legal(log)
    ensures FreshRun(turns) && Final(turns).evidence == log
  {
    turns := seq(|log|, i requires 0 <= i < |log| => TurnFor(log[i]));
    LegalPrefixIsRun(turns, log, |log|);
    assert log[..|log|] == log;
  }

  /** The reachable logs are exactly the legal ones. */
  lemma ReachableLogsAreTheLegalOnes(log: seq<Event>)
    ensures Legal(log) <==> exists turns :: FreshRun(turns) && Final(turns).evidence == log
  {
    if Legal(log) {
      var turns := LegalLogIsRun(log);
    }
    forall turns | FreshRun(turns) && Final(turns).evidence == log ensures Legal(log) {
      EvidenceRebuildsTables(turns, |turns|);
    }
  }
}
