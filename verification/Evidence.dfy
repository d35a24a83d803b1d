/** The evidence log of the Gate and the tables an auditor can rebuild from the log alone. */
module Evidence {
  import opened Policy

  // SHA-256 over the canonical form, taken as collision-free: a digest is what was digested.
  datatype Digest = OfEnvelope(envelope: Envelope) | OfRequest(request: Request)

  datatype IssuedPolicy = IssuedPolicy(envelope: Envelope, hash: Digest, revision: string)

  datatype DecisionPolicy = DecisionPolicy(policyHash: Digest, policyRevision: string)

  datatype Approval = Approval(id: string, agentId: string, policyHash: Digest, policyRevision: string,
                               requestHash: Digest, role: string, expiresAt: int, used: bool)

  datatype Decision = Decision(decisionId: string, agentId: string, verdict: Verdict, policyHash: Option<Digest>,
                               timestamp: int, request: Request, approvalReference: Option<string>)

  datatype Event =
    | AgentRegistered(at: int, agentId: string)
    | EnvelopeIssued(at: int, agentId: string, policyHash: Digest, revision: string, envelope: Envelope)
    | ApprovalIssued(at: int, approval: Approval)
    | AuthorizationDecision(decision: Decision)
    | AgentRevoked(at: int, agentId: string, reason: string)

  datatype Audit = Audit(registered: set<string>, revoked: set<string>,
                         policies: map<string, IssuedPolicy>, usage: map<string, Usage>,
                         approvals: map<string, Approval>, decisions: map<string, Decision>,
                         decisionPolicies: map<string, DecisionPolicy>)

  const EMPTY_AUDIT := Audit({}, {}, map[], map[], map[], map[], map[])

  function UsageOf(usage: map<string, Usage>, agentId: string): Usage {
    if agentId in usage then usage[agentId] else EMPTY_USAGE
  }

  /** A request without its approval id: what an approval is bound to. */
  function Bound(request: Request): Request {
    request.(approvalId := None)
  }

  function RequestHash(request: Request): Digest {
    OfRequest(Bound(request))
  }

  /** The approval that an ALLOW decision consumed, if any. */
  function Consumed(e: Event): Option<string> {
    if e.AuthorizationDecision? && e.decision.verdict.Allow? then e.decision.approvalReference else None
  }

  function MarkUsed(approvals: map<string, Approval>, id: Option<string>): map<string, Approval> {
    if id.Some? && id.value in approvals then approvals[id.value := approvals[id.value].(used := true)] else approvals
  }

  /** What one record tells an auditor who already knows `a`. */
  function Learn(a: Audit, e: Event): Audit {
    match e
    case AgentRegistered(_, id) => a.(registered := a.registered + {id})
    case EnvelopeIssued(_, id, hash, revision, envelope) => a.(policies := a.policies[id := IssuedPolicy(envelope, hash, revision)])
    case ApprovalIssued(_, approval) => a.(approvals := a.approvals[approval.id := approval])
    case AgentRevoked(_, id, _) => a.(revoked := a.revoked + {id})
    case AuthorizationDecision(d) =>
      a.(usage := if d.verdict.Allow?
                  then a.usage[d.agentId := Charge(UsageOf(a.usage, d.agentId), d.request, d.timestamp)] else a.usage,
         approvals := MarkUsed(a.approvals, Consumed(e)),
         decisions := a.decisions[d.decisionId := d],
         decisionPolicies := if d.agentId in a.policies
                             then a.decisionPolicies[d.decisionId := DecisionPolicy(a.policies[d.agentId].hash, a.policies[d.agentId].revision)]
                             else a.decisionPolicies)
  }

  /** The tables after the first n records. */
  function Replay(log: seq<Event>, n: nat): Audit
    requires n <= |log|
  {
    if n == 0 then EMPTY_AUDIT else Learn(Replay(log, n - 1), log[n - 1])
  }

  /** The identifiers the Gate minted in one record. */
  function MintedBy(e: Event): Option<string> {
    match e
    case EnvelopeIssued(_, _, _, revision, _) => Some(revision)
    case ApprovalIssued(_, approval) => Some(approval.id)
    case AuthorizationDecision(d) => Some(d.decisionId)
    case _ => None
  }

  predicate Fresh(log: seq<Event>, n: nat, id: string)
    requires n <= |log|
  {
    forall i :: 0 <= i < n ==> MintedBy(log[i]) != Some(id)
  }

  /** Would an approval with this content let the request through, given the agent's current policy? */
  predicate ApprovalValid(approval: Approval, request: Request, policy: Option<IssuedPolicy>, now: int) {
    && !approval.used
    && approval.agentId == request.agentId
    && policy.Some?
    && approval.policyHash == policy.value.hash
    && approval.policyRevision == policy.value.revision
    && approval.requestHash == RequestHash(request)
    && FindRule(policy.value.envelope.approvals, request.action).Some?
    && approval.role == FindRule(policy.value.envelope.approvals, request.action).value.approverRole
    && approval.expiresAt > now
  }

  function Lookup<V>(table: map<string, V>, key: string): Option<V> {
    if key in table then Some(table[key]) else None
  }

  function PresentedApproval(approvals: map<string, Approval>, request: Request): Option<Approval> {
    if request.approvalId.Some? then Lookup(approvals, request.approvalId.value) else None
  }

  function EnvelopeOf(policy: Option<IssuedPolicy>): Option<Envelope> {
    if policy.Some? then Some(policy.value.envelope) else None
  }

  lemma {:induction false} ReplayPrefix(log: seq<Event>, e: Event, n: nat)
    requires n <= |log|
    ensures Replay(log + [e], n) == Replay(log, n)
  {
    if n > 0 {
      ReplayPrefix(log, e, n - 1);
    }
  }

  lemma ReplayAppend(log: seq<Event>, e: Event)
    ensures Replay(log + [e], |log| + 1) == Learn(Replay(log, |log|), e)
  {
    ReplayPrefix(log, e, |log|);
  }
}
