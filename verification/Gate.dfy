/** The Gate: five transactions over keyed tables, each leaving one evidence record. */
module GateService {
  import opened Schema
  import opened Policy
  import opened Evidence

  datatype Principal = Admin(role: string) | Approver(role: string) | AgentPrincipal(agentId: string)

  // The principal under which services configure their own Gate.
  const ADMINISTRATOR := Admin("administrator")

  datatype Agent = Agent(id: string, name: string, tokenHash: string, revoked: bool)

  datatype Db = Db(agents: map<string, Agent>, policies: map<string, IssuedPolicy>, usage: map<string, Usage>,
                   approvals: map<string, Approval>, decisions: map<string, Decision>,
                   decisionPolicies: map<string, DecisionPolicy>, evidence: seq<Event>)

  const EMPTY_DB := Db(map[], map[], map[], map[], map[], map[], [])

  // What the host supplies to one call: the clock reading, the minted identifier, whether evidence can be written.
  datatype Ambient = Ambient(now: int, id: string, appendOk: bool)

  datatype Call =
    | Register(principal: Principal, agentId: string, name: string, tokenHash: string)
    | SetEnvelope(principal: Principal, envelope: Envelope)
    | Approve(principal: Principal, request: Request, expiresAt: int)
    | Authorize(principal: Principal, request: Request)
    | Revoke(principal: Principal, agentId: string, reason: string)

  datatype Outcome = Done | Decided(decision: Decision) | Failed(status: int)

  const APPEND_FAILED := 500

  // A schema error: each server in front of the Gate answers it in its own way.
  const MALFORMED := 0

  function KnownAgents(agents: map<string, Agent>): set<string> {
    set a | a in agents && !agents[a].revoked
  }

  function ContextOf(db: Db, agentId: string, approvalValid: bool, now: int): Context
    requires agentId in db.agents
  {
    Context(now, db.agents[agentId].revoked, approvalValid, UsageOf(db.usage, agentId), KnownAgents(db.agents))
  }

  predicate PresentsValidApproval(db: Db, request: Request, now: int) {
    var approval := PresentedApproval(db.approvals, request);
    approval.Some? && ApprovalValid(approval.value, request, Lookup(db.policies, request.agentId), now)
  }

  /** The decision an authorization transaction reaches. */
  function DecisionFor(db: Db, request: Request, env: Ambient): Decision
    requires request.agentId in db.agents
  {
    var policy := Lookup(db.policies, request.agentId);
    var valid := PresentsValidApproval(db, request, env.now);
    Decision(env.id, request.agentId, Evaluate(request, EnvelopeOf(policy), ContextOf(db, request.agentId, valid, env.now)),
             if policy.Some? then Some(policy.value.hash) else None, env.now, request,
             if valid then request.approvalId else None)
  }

  function AfterAuthorize(db: Db, d: Decision): Db {
    var allowed := d.verdict.Allow?;
    db.(usage := if allowed then db.usage[d.agentId := Charge(UsageOf(db.usage, d.agentId), d.request, d.timestamp)] else db.usage,
        approvals := if allowed then MarkUsed(db.approvals, d.approvalReference) else db.approvals,
        decisions := db.decisions[d.decisionId := d],
        decisionPolicies := if d.agentId in db.policies
                            then db.decisionPolicies[d.decisionId := DecisionPolicy(db.policies[d.agentId].hash, db.policies[d.agentId].revision)]
                            else db.decisionPolicies,
        evidence := db.evidence + [AuthorizationDecision(d)])
  }

  /** The approval an approver's call would create, or the status it is refused with. */
  function ApprovalFor(db: Db, principal: Principal, request: Request, expiresAt: int, env: Ambient): (r: (Option<Approval>, int)) {
    if !principal.Approver? then (None, 403)
    else if !IsRequest(request) || request.approvalId.Some? then (None, MALFORMED)
    else
      var policy := Lookup(db.policies, request.agentId);
      var rule := if policy.Some? then FindRule(policy.value.envelope.approvals, request.action) else None;
      if policy.None? || request.agentId !in db.agents || db.agents[request.agentId].revoked || rule.None?
         || rule.value.approverRole != principal.role
      then (None, 403)
      else if expiresAt <= env.now || expiresAt > policy.value.envelope.expiresAt then (None, 400)
      else if Evaluate(request, EnvelopeOf(policy), ContextOf(db, request.agentId, true, env.now)) != Allow then (None, 409)
      else (Some(Approval(env.id, request.agentId, policy.value.hash, policy.value.revision, RequestHash(request),
                          principal.role, expiresAt, false)), 0)
  }

  function Attempt(db: Db, call: Call, env: Ambient): (Db, Outcome) {
    match call
    case Register(principal, agentId, name, tokenHash) =>
      if !principal.Admin? then (db, Failed(403))
      else if !IsId(agentId) || !IsLabel(name) then (db, Failed(MALFORMED))
      else if agentId in db.agents then (db, Failed(409))
      else (db.(agents := db.agents[agentId := Agent(agentId, name, tokenHash, false)],
                evidence := db.evidence + [AgentRegistered(env.now, agentId)]), Done)
    case SetEnvelope(principal, envelope) =>
      if !principal.Admin? then (db, Failed(403))
      else if !WellFormed(envelope) then (db, Failed(MALFORMED))
      else if envelope.expiresAt <= env.now then (db, Failed(400))
      else if envelope.agentId !in db.agents || db.agents[envelope.agentId].revoked then (db, Failed(409))
      else (db.(policies := db.policies[envelope.agentId := IssuedPolicy(envelope, OfEnvelope(envelope), env.id)],
                evidence := db.evidence + [EnvelopeIssued(env.now, envelope.agentId, OfEnvelope(envelope), env.id, envelope)]), Done)
    case Approve(principal, request, expiresAt) =>
      var (approval, status) := ApprovalFor(db, principal, request, expiresAt, env);
      if approval.None? then (db, Failed(status))
      else (db.(approvals := db.approvals[env.id := approval.value],
                evidence := db.evidence + [ApprovalIssued(env.now, approval.value)]), Done)
    case Authorize(principal, request) =>
      if !IsRequest(request) then (db, Failed(MALFORMED))
      else if principal != AgentPrincipal(request.agentId) then (db, Failed(403))
      else if request.agentId !in db.agents then (db, Failed(401))
      else
        var decision := DecisionFor(db, request, env);
        (AfterAuthorize(db, decision), Decided(decision))
    case Revoke(principal, agentId, reason) =>
      if !principal.Admin? then (db, Failed(403))
      else if !IsId(agentId) || !IsLabel(reason) then (db, Failed(MALFORMED))
      else if agentId !in db.agents then (db, Failed(404))
      else (db.(agents := db.agents[agentId := db.agents[agentId].(revoked := true)],
                evidence := db.evidence + [AgentRevoked(env.now, agentId, reason)]), Done)
  }

  /** One call: all of its effect, or none. */
  function Step(db: Db, call: Call, env: Ambient): (Db, Outcome) {
    var (after, outcome) := Attempt(db, call, env);
    if outcome.Failed? then (db, outcome)
    else if !env.appendOk then (db, Failed(APPEND_FAILED))
    else (after, outcome)
  }

  /** Every row carries the key it is stored under. */
  predicate Keyed(db: Db) {
    && (forall k :: k in db.agents ==> db.agents[k].id == k)
    && (forall k :: k in db.approvals ==> db.approvals[k].id == k)
  }

  /** The constant-time currency check, on a decision and the tables of the moment. */
  predicate PolicyCurrent(db: Db, d: Decision, now: int) {
    && d.agentId in db.policies
    && d.decisionId in db.decisionPolicies
    && db.policies[d.agentId].envelope.expiresAt > now
    && d.policyHash == Some(db.policies[d.agentId].hash)
    && db.decisionPolicies[d.decisionId].policyHash == db.policies[d.agentId].hash
    && db.decisionPolicies[d.decisionId].policyRevision == db.policies[d.agentId].revision
  }

  predicate AgentRevokedIn(db: Db, agentId: string) {
    agentId !in db.agents || db.agents[agentId].revoked
  }

  predicate Authenticates(db: Db, tokenHash: string, agentId: string) {
    agentId in db.agents && db.agents[agentId].tokenHash == tokenHash
  }

  class Gate {
    var agents: map<string, Agent>
    var policies: map<string, IssuedPolicy>
    var usage: map<string, Usage>
    var approvals: map<string, Approval>
    var decisions: map<string, Decision>
    var decisionPolicies: map<string, DecisionPolicy>
    var evidence: seq<Event>

    constructor ()
      ensures Valid() && Snapshot() == EMPTY_DB
    {
      agents, policies, usage := map[], map[], map[];
      approvals, decisions, decisionPolicies := map[], map[], map[];
      evidence := [];
    }

    function Snapshot(): Db
      reads this
    {
      Db(agents, policies, usage, approvals, decisions, decisionPolicies, evidence)
    }

    ghost predicate Valid()
      reads this
    {
      Keyed(Snapshot())
    }

    method Rollback(saved: Db)
      modifies this
      ensures Snapshot() == saved
    {
      agents, policies, usage := saved.agents, saved.policies, saved.usage;
      approvals, decisions, decisionPolicies := saved.approvals, saved.decisions, saved.decisionPolicies;
      evidence := saved.evidence;
    }

    method Append(e: Event, appendOk: bool) returns (ok: bool)
      modifies this`evidence
      ensures ok == appendOk
      ensures evidence == if ok then old(evidence) + [e] else old(evidence)
    {
      if appendOk {
        evidence := evidence + [e];
      }
      ok := appendOk;
    }

    method Register(principal: Principal, agentId: string, name: string, tokenHash: string, env: Ambient) returns (r: Outcome)
      requires Valid()
      modifies this
      ensures Valid()
      ensures (Snapshot(), r) == Step(old(Snapshot()), Call.Register(principal, agentId, name, tokenHash), env)
    {
      hide IsId, IsLabel;
      if !principal.Admin? { return Failed(403); }
      if !IsId(agentId) || !IsLabel(name) { return Failed(MALFORMED); }
      if agentId in agents { return Failed(409); }
      var saved := Snapshot();
      agents := agents[agentId := Agent(agentId, name, tokenHash, false)];
      var ok := Append(AgentRegistered(env.now, agentId), env.appendOk);
      if !ok { Rollback(saved); return Failed(APPEND_FAILED); }
      r := Done;
    }

    method SetEnvelope(principal: Principal, envelope: Envelope, env: Ambient) returns (r: Outcome)
      requires Valid()
      modifies this
      ensures Valid()
      ensures (Snapshot(), r) == Step(old(Snapshot()), Call.SetEnvelope(principal, envelope), env)
    {
      hide WellFormed;
      if !principal.Admin? { return Failed(403); }
      if !WellFormed(envelope) { return Failed(MALFORMED); }
      if envelope.expiresAt <= env.now { return Failed(400); }
      var saved := Snapshot();
      if envelope.agentId !in agents || agents[envelope.agentId].revoked { return Failed(409); }
      var policyHash := OfEnvelope(envelope);
      policies := policies[envelope.agentId := IssuedPolicy(envelope, policyHash, env.id)];
      var ok := Append(EnvelopeIssued(env.now, envelope.agentId, policyHash, env.id, envelope), env.appendOk);
      if !ok { Rollback(saved); return Failed(APPEND_FAILED); }
      r := Done;
    }

    method Approve(principal: Principal, request: Request, expiresAt: int, env: Ambient) returns (r: Outcome)
      requires Valid()
      modifies this
      ensures Valid()
      ensures (Snapshot(), r) == Step(old(Snapshot()), Call.Approve(principal, request, expiresAt), env)
    {
      hide IsRequest, Evaluate, FindRule;
      if !principal.Approver? { return Failed(403); }
      if !IsRequest(request) || request.approvalId.Some? { return Failed(MALFORMED); }
      var saved := Snapshot();
      var agentId := request.agentId;
      if agentId !in policies || agentId !in agents || agents[agentId].revoked { return Failed(403); }
      var policy := policies[agentId];
      var rule := FindRule(policy.envelope.approvals, request.action);
      if rule.None? || rule.value.approverRole != principal.role { return Failed(403); }
      if expiresAt <= env.now || expiresAt > policy.envelope.expiresAt { return Failed(400); }
      var verdict := Evaluate(request, Some(policy.envelope), ContextOf(Snapshot(), agentId, true, env.now));
      if verdict != Allow { return Failed(409); }
      var approval := Approval(env.id, agentId, policy.hash, policy.revision, RequestHash(request), principal.role, expiresAt, false);
      approvals := approvals[approval.id := approval];
      var ok := Append(ApprovalIssued(env.now, approval), env.appendOk);
      if !ok { Rollback(saved); return Failed(APPEND_FAILED); }
      r := Done;
    }

    /** Brings one usage record up to date, field by field. */
    method CountCall(usage: Usage, request: Request, timestamp: int) returns (charged: Usage)
      ensures charged == Charge(usage, request, timestamp)
    {
      charged := usage;
      if charged.startedAt.None? { charged := charged.(startedAt := Some(timestamp)); }
      charged := charged.(calls := charged.calls + 1);
      charged := charged.(external := charged.external + if request.destination.Some? then 1 else 0);
      charged := charged.(costMicros := charged.costMicros + request.costMicros);
      charged := charged.(attempts := charged.attempts[request.action := AttemptsFor(charged, request.action) + 1]);
    }

    /** Reaches the decision; changes nothing. */
    method Judge(request: Request, env: Ambient) returns (decision: Decision)
      requires Valid() && request.agentId in agents
      ensures decision == DecisionFor(Snapshot(), request, env)
    {
      var agent := agents[request.agentId];
      var policy := Lookup(policies, agent.id);
      var approval := PresentedApproval(approvals, request);
      var valid := approval.Some? && ApprovalValid(approval.value, request, policy, env.now);
      var context := ContextOf(Snapshot(), agent.id, valid, env.now);
      decision := Decision(env.id, agent.id, Evaluate(request, EnvelopeOf(policy), context),
                           if policy.Some? then Some(policy.value.hash) else None,
                           env.now, request, if valid then Some(approval.value.id) else None);
    }

    /** Puts the rows a decision changes. */
    method Record(decision: Decision)
      requires Valid() && (decision.approvalReference.Some? ==> decision.approvalReference.value in approvals)
      modifies this
      ensures Valid()
      ensures Snapshot() == AfterAuthorize(old(Snapshot()), decision).(evidence := old(evidence))
    {
      if decision.verdict.Allow? {
        var charged := CountCall(UsageOf(usage, decision.agentId), decision.request, decision.timestamp);
        usage := usage[decision.agentId := charged];
        if decision.approvalReference.Some? {
          var approval := approvals[decision.approvalReference.value];
          approvals := approvals[approval.id := approval.(used := true)];
        }
      }
      decisions := decisions[decision.decisionId := decision];
      if decision.agentId in policies {
        var policy := policies[decision.agentId];
        decisionPolicies := decisionPolicies[decision.decisionId := DecisionPolicy(policy.hash, policy.revision)];
      }
    }

    method Authorize(principal: Principal, request: Request, env: Ambient) returns (r: Outcome)
      requires Valid()
      modifies this
      ensures Valid()
      ensures (Snapshot(), r) == Step(old(Snapshot()), Call.Authorize(principal, request), env)
    {
      hide IsRequest, Evaluate;
      if !IsRequest(request) { return Failed(MALFORMED); }
      if principal != AgentPrincipal(request.agentId) { return Failed(403); }
      var saved := Snapshot();
      if request.agentId !in agents { return Failed(401); }
      var decision := Judge(request, env);
      Record(decision);
      var ok := Append(AuthorizationDecision(decision), env.appendOk);
      if !ok { Rollback(saved); return Failed(APPEND_FAILED); }
      r := Decided(decision);
    }

    method Revoke(principal: Principal, agentId: string, reason: string, env: Ambient) returns (r: Outcome)
      requires Valid()
      modifies this
      ensures Valid()
      ensures (Snapshot(), r) == Step(old(Snapshot()), Call.Revoke(principal, agentId, reason), env)
    {
      hide IsId, IsLabel;
      if !principal.Admin? { return Failed(403); }
      if !IsId(agentId) || !IsLabel(reason) { return Failed(MALFORMED); }
      if agentId !in agents { return Failed(404); }
      var saved := Snapshot();
      agents := agents[agentId := agents[agentId].(revoked := true)];
      var ok := Append(AgentRevoked(env.now, agentId, reason), env.appendOk);
      if !ok { Rollback(saved); return Failed(APPEND_FAILED); }
      r := Done;
    }

    /** The agent a token belongs to, looked up by its digest. Revocation is not looked at. */
    method AuthenticateAgent(tokenHash: string) returns (agentId: Option<string>)
      ensures agentId.Some? ==> Authenticates(Snapshot(), tokenHash, agentId.value)
      ensures agentId.None? ==> forall a :: !Authenticates(Snapshot(), tokenHash, a)
    {
      var rest := agents.Keys;
      while rest != {}
        invariant rest <= agents.Keys
        invariant forall a :: a in agents && a !in rest ==> agents[a].tokenHash != tokenHash
        decreases |rest|
      {
        var a :| a in rest;
        if agents[a].tokenHash == tokenHash { return Some(a); }
        rest := rest - {a};
      }
      agentId := None;
    }

    method IsPolicyCurrent(d: Decision, now: int) returns (current: bool)
      ensures current == PolicyCurrent(Snapshot(), d, now)
    {
      if d.agentId !in policies || d.decisionId !in decisionPolicies { return false; }
      var policy, issued := policies[d.agentId], decisionPolicies[d.decisionId];
      current := policy.envelope.expiresAt > now && d.policyHash == Some(policy.hash)
        && issued.policyHash == policy.hash && issued.policyRevision == policy.revision;
    }

    method IsAgentRevoked(agentId: string) returns (revoked: bool)
      ensures revoked == AgentRevokedIn(Snapshot(), agentId)
    {
      revoked := if agentId in agents then agents[agentId].revoked else true;
    }
  }
}
