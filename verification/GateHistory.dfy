/** What every run of the Gate guarantees about approvals, policies, usage and revocation. */
module GateHistory {
  import opened Schema
  import opened Policy
  import opened Evidence
  import opened GateService
  import opened GateRuns

  predicate IssuedTo(e: Event, agentId: string) {
    e.EnvelopeIssued? && e.agentId == agentId
  }

  predicate Allowed(e: Event) {
    e.AuthorizationDecision? && e.decision.verdict.Allow?
  }

  lemma MintedOnce(log: seq<Event>, i: nat, j: nat)
    requires Legal(log) && i < |log| && j < |log|
    requires MintedBy(log[i]).Some? && MintedBy(log[i]) == MintedBy(log[j])
    ensures i == j
  {
    assert Admissible(log, i) && Admissible(log, j);
  }

  /** The policy in force is the last one issued. */
  lemma {:induction false} PolicyOrigin(log: seq<Event>, n: nat, agentId: string) returns (k: nat)
    requires n <= |log| && agentId in Replay(log, n).policies
    ensures k < n && IssuedTo(log[k], agentId)
    ensures Replay(log, n).policies[agentId] == IssuedPolicy(log[k].envelope, log[k].policyHash, log[k].revision)
    ensures forall m :: k < m < n ==> !IssuedTo(log[m], agentId)
  {
    if IssuedTo(log[n - 1], agentId) {
      k := n - 1;
    } else {
      k := PolicyOrigin(log, n - 1, agentId);
    }
  }

  lemma {:induction false} PolicyPresent(log: seq<Event>, k: nat, n: nat, agentId: string)
    requires k < n <= |log| && IssuedTo(log[k], agentId)
    ensures agentId in Replay(log, n).policies
  {
    if k < n - 1 {
      PolicyPresent(log, k, n - 1, agentId);
    }
  }

  lemma {:induction false} ApprovalOrigin(log: seq<Event>, n: nat, id: string) returns (i: nat)
    requires n <= |log| && id in Replay(log, n).approvals
    ensures i < n && log[i].ApprovalIssued? && log[i].approval.id == id
    ensures Replay(log, n).approvals[id] == log[i].approval.(used := Replay(log, n).approvals[id].used)
  {
    if log[n - 1].ApprovalIssued? && log[n - 1].approval.id == id {
      i := n - 1;
    } else {
      i := ApprovalOrigin(log, n - 1, id);
    }
  }

  // --- An ALLOW that consumed an approval --------------------------------------------------------

  lemma ConsumedIsPresented(log: seq<Event>, j: nat)
    requires Legal(log) && j < |log| && Consumed(log[j]).Some?
    ensures var a, d := Replay(log, j), log[j].decision;
            && d.request.approvalId == d.approvalReference
            && d.approvalReference.value in a.approvals
            && ApprovalValid(a.approvals[d.approvalReference.value], d.request, Lookup(a.policies, d.agentId), d.timestamp)
            && d.request.agentId == d.agentId
  {
    assert Admissible(log, j);
  }

  lemma NewApprovalIsNew(log: seq<Event>, i: nat)
    requires Legal(log) && i < |log| && log[i].ApprovalIssued?
    ensures log[i].approval.id !in Replay(log, i).approvals && !log[i].approval.used
  {
    assert Admissible(log, i);
    if log[i].approval.id in Replay(log, i).approvals {
      var earlier := ApprovalOrigin(log, i, log[i].approval.id);
      MintedOnce(log, earlier, i);
    }
  }

  /** An approval is used exactly when an ALLOW decision references it. */
  lemma {:induction false} UsedIffConsumed(log: seq<Event>, n: nat, id: string)
    requires Legal(log) && n <= |log|
    ensures id in Replay(log, n).approvals ==>
              (Replay(log, n).approvals[id].used <==> exists j :: 0 <= j < n && Consumed(log[j]) == Some(id))
    ensures id !in Replay(log, n).approvals ==> forall j :: 0 <= j < n ==> Consumed(log[j]) != Some(id)
  {
    if n > 0 {
      UsedIffConsumed(log, n - 1, id);
      if log[n - 1].ApprovalIssued? {
        NewApprovalIsNew(log, n - 1);
      } else if Consumed(log[n - 1]).Some? {
        ConsumedIsPresented(log, n - 1);
      }
    }
  }

  /** No approval is consumed twice. */
  lemma ApprovalConsumedOnce(log: seq<Event>, i: nat, j: nat)
    requires Legal(log) && i < |log| && j < |log|
    requires Consumed(log[i]).Some? && Consumed(log[i]) == Consumed(log[j])
    ensures i == j
  {
    var first, second := if i < j then i else j, if i < j then j else i;
    ConsumedIsPresented(log, second);
    UsedIffConsumed(log, second, Consumed(log[second]).value);
  }

  /** In every run: used flags, and single use, over the whole log. */
  lemma ApprovalsAreSingleUse(turns: seq<Turn>, id: string)
    requires FreshRun(turns)
    ensures var db := Final(turns);
            && (id in db.approvals ==> (db.approvals[id].used <==> exists j :: 0 <= j < |db.evidence| && Consumed(db.evidence[j]) == Some(id)))
            && forall i, j :: 0 <= i < |db.evidence| && 0 <= j < |db.evidence| && Consumed(db.evidence[i]) == Some(id) == Consumed(db.evidence[j])
                              ==> i == j
  {
    EvidenceRebuildsTables(turns, |turns|);
    var db := Final(turns);
    UsedIffConsumed(db.evidence, |db.evidence|, id);
    forall i, j | 0 <= i < |db.evidence| && 0 <= j < |db.evidence| && Consumed(db.evidence[i]) == Some(id) == Consumed(db.evidence[j])
      ensures i == j
    {
      ApprovalConsumedOnce(db.evidence, i, j);
    }
  }

  /** The chain behind an ALLOW that consumed an approval: one policy issue, then one approval, then the decision. */
  ghost predicate ApprovalChain(log: seq<Event>, k: nat, i: nat, j: nat)
    requires k < i < j < |log|
  {
    && log[j].AuthorizationDecision? && log[i].ApprovalIssued?
    && var d, approval := log[j].decision, log[i].approval;
    && IssuedTo(log[k], d.agentId)
    && (forall m :: k < m < j ==> !IssuedTo(log[m], d.agentId))
    && Some(approval.id) == d.approvalReference
    && approval.requestHash == OfRequest(Bound(d.request))
    && FindRule(log[k].envelope.approvals, d.request.action) == Some(Rule(d.request.action, approval.role))
    && d.timestamp < approval.expiresAt <= log[k].envelope.expiresAt
    && d.policyHash == Some(log[k].policyHash)
    && approval.policyRevision == log[k].revision
  }

  lemma ConsumedApprovalHasChain(log: seq<Event>, j: nat) returns (k: nat, i: nat)
    requires Legal(log) && j < |log| && Consumed(log[j]).Some?
    ensures k < i < j && ApprovalChain(log, k, i, j)
  {
    var d := log[j].decision;
    ConsumedIsPresented(log, j);
    k := PolicyOrigin(log, j, d.agentId);
    i := ApprovalOrigin(log, j, d.approvalReference.value);
    assert Admissible(log, j) && Admissible(log, i);
    var before := PolicyOrigin(log, i, log[i].approval.agentId);
    MintedOnce(log, before, k);
  }

  /** Every ALLOW under a policy that demands an approval for the action consumed one. */
  lemma DemandedApprovalIsConsumed(log: seq<Event>, j: nat)
    requires Legal(log) && j < |log| && Allowed(log[j])
    requires var d := log[j].decision;
             d.agentId in Replay(log, j).policies && FindRule(Replay(log, j).policies[d.agentId].envelope.approvals, d.request.action).Some?
    ensures Consumed(log[j]).Some?
  {
    assert Admissible(log, j);
  }

  lemma AllowedUnderLivePolicy(log: seq<Event>, j: nat) returns (k: nat)
    requires Legal(log) && j < |log| && Allowed(log[j])
    ensures k < j && IssuedTo(log[k], log[j].decision.agentId)
    ensures forall m :: k < m < j ==> !IssuedTo(log[m], log[j].decision.agentId)
    ensures log[j].decision.timestamp < log[k].envelope.expiresAt
    ensures log[j].decision.agentId in Replay(log, j).policies
    ensures Replay(log, j).policies[log[j].decision.agentId].envelope == log[k].envelope
  {
    assert Admissible(log, j);
    k := PolicyOrigin(log, j, log[j].decision.agentId);
  }

  /**
   * In every run, each ALLOW was made under the policy last issued to the agent, before that policy's expiry; and when
   * that policy wants an approval for the action, a matching approval was given after the policy was issued, by the
   * role it names, for this very request.
   */
  lemma EveryAllowIsAuthorised(turns: seq<Turn>, j: nat)
    requires FreshRun(turns) && j < |Final(turns).evidence| && Allowed(Final(turns).evidence[j])
    ensures var log := Final(turns).evidence;
            var d := log[j].decision;
            exists k: nat :: k < j && IssuedTo(log[k], d.agentId)
                      && (forall m :: k < m < j ==> !IssuedTo(log[m], d.agentId))
                      && d.timestamp < log[k].envelope.expiresAt
                      && (FindRule(log[k].envelope.approvals, d.request.action).Some? || d.approvalReference.Some? ==>
                            exists i: nat :: k < i < j && ApprovalChain(log, k, i, j))
  {
    EvidenceRebuildsTables(turns, |turns|);
    var log := Final(turns).evidence;
    var d := log[j].decision;
    var k := AllowedUnderLivePolicy(log, j);
    if FindRule(log[k].envelope.approvals, d.request.action).Some? || d.approvalReference.Some? {
      if d.approvalReference.None? {
        DemandedApprovalIsConsumed(log, j);
      }
      var k', i := ConsumedApprovalHasChain(log, j);
      assert k' == k;
    }
  }

  /** What an envelope grants, in its own terms: a binding with all that the schema demands of it, opening the resource. */
  ghost predicate Bestows(e: Envelope, request: Request, knownAgents: set<string>) {
    && e.agentId == request.agentId && Reaches(request, e)
    && exists b :: b in e.bindings && b.action == request.action && b.tool == request.tool
                   && OpenedBy(e, b, request.resource, knownAgents) && !b.kind.Secrets?
                   && b.tool in e.toolsAllow && b.tool !in e.toolsDeny
                   && b.outcome in e.allowedOutcomes && b.outcome !in e.forbiddenOutcomes
                   && !("envelope." <= b.action) && !("agent.register" <= b.action)
                   && (b.destinationRequired ==> request.destination.Some?)
  }

  lemma AllowIsBestowed(request: Request, e: Envelope, context: Context)
    requires WellFormed(e) && Evaluate(request, Some(e), context) == Allow
    ensures Bestows(e, request, context.knownAgents)
  {
    hide Evaluate, OpenedBy, Shaped, Reaches, WithinLifetime, FindBinding;
    AllowsExactlyWhenGranted(request, e, context);
    var b :| b in e.bindings && GrantedBy(request, e, b, context.knownAgents);
    assert BindingAccepted(e, b);
    SecretsAreNotOpened(e, b, request.resource, context.knownAgents);
  }

  lemma SecretsAreNotOpened(e: Envelope, b: Binding, resource: string, knownAgents: set<string>)
    requires OpenedBy(e, b, resource, knownAgents)
    ensures !b.kind.Secrets?
  {
  }

  /**
   * In every run, each ALLOW was given to an agent then registered and not revoked, and is within what the envelope last
   * issued to it bestows: for a file, the resource is a listed scope or lies strictly below a listed tree.
   */
  lemma EveryAllowIsBestowed(turns: seq<Turn>, j: nat)
    requires FreshRun(turns) && j < |Final(turns).evidence| && Allowed(Final(turns).evidence[j])
    ensures var log := Final(turns).evidence;
            var d := log[j].decision;
            && d.agentId in Replay(log, j).registered && d.agentId !in Replay(log, j).revoked
            && exists k: nat :: k < j && IssuedTo(log[k], d.agentId)
                      && (forall m :: k < m < j ==> !IssuedTo(log[m], d.agentId))
                      && Bestows(log[k].envelope, d.request, Replay(log, j).registered - Replay(log, j).revoked)
  {
    hide Bestows, Replay, WellFormed;
    EvidenceRebuildsTables(turns, |turns|);
    var log := Final(turns).evidence;
    assert Admissible(log, j);
    var a, d := Replay(log, j), log[j].decision;
    var k := AllowedUnderLivePolicy(log, j);
    assert Admissible(log, k);
    var context := Context(d.timestamp, d.agentId in a.revoked, ValidIn(a, d.request, d.timestamp), UsageOf(a.usage, d.agentId), a.registered - a.revoked);
    AllowIsToLiveAgent(d.request, EnvelopeOf(Lookup(a.policies, d.agentId)), context);
    AllowIsBestowed(d.request, log[k].envelope, context);
  }

  lemma AllowIsToLiveAgent(request: Request, envelope: Option<Envelope>, context: Context)
    requires Evaluate(request, envelope, context) == Allow
    ensures !context.revoked
  {
  }

  // --- Policy currency ----------------------------------------------------------------------------

  lemma {:induction false} DecisionOrigin(log: seq<Event>, n: nat, id: string) returns (j: nat)
    requires n <= |log| && id in Replay(log, n).decisions
    ensures j < n && log[j] == AuthorizationDecision(Replay(log, n).decisions[id]) && log[j].decision.decisionId == id
  {
    if log[n - 1].AuthorizationDecision? && log[n - 1].decision.decisionId == id {
      j := n - 1;
    } else {
      j := DecisionOrigin(log, n - 1, id);
    }
  }

  /** The stored policy row of a decision is the policy of the moment it was made. */
  lemma {:induction false} DecisionPolicyOf(log: seq<Event>, j: nat, n: nat)
    requires Legal(log) && j < n <= |log| && log[j].AuthorizationDecision?
    ensures var d := log[j].decision;
            Lookup(Replay(log, n).decisionPolicies, d.decisionId) ==
              if d.agentId in Replay(log, j).policies
              then Some(DecisionPolicy(Replay(log, j).policies[d.agentId].hash, Replay(log, j).policies[d.agentId].revision))
              else None
  {
    var d := log[j].decision;
    if j == n - 1 {
      assert Admissible(log, j);
      NoDecisionPolicyYet(log, j, d.decisionId);
    } else {
      DecisionPolicyOf(log, j, n - 1);
      if MintedBy(log[n - 1]) == Some(d.decisionId) {
        MintedOnce(log, j, n - 1);
      }
    }
  }

  lemma {:induction false} NoDecisionPolicyYet(log: seq<Event>, n: nat, id: string)
    requires n <= |log| && (forall i :: 0 <= i < n ==> MintedBy(log[i]) != Some(id))
    ensures id !in Replay(log, n).decisionPolicies
  {
    if n > 0 {
      NoDecisionPolicyYet(log, n - 1, id);
    }
  }

  /** Made under a policy that is still the last one issued to the agent, and unexpired. */
  ghost predicate CurrentInHistory(log: seq<Event>, d: Decision, now: int) {
    exists k: nat, j: nat :: k < j < |log| && IssuedTo(log[k], d.agentId) && log[j] == AuthorizationDecision(d)
      && (forall m :: k < m < |log| ==> !IssuedTo(log[m], d.agentId))
      && log[k].envelope.expiresAt > now
  }

  lemma CurrentImpliesHistory(db: Db, d: Decision, now: int)
    requires Sound(db) && d.decisionId in db.decisions && db.decisions[d.decisionId] == d
    requires PolicyCurrent(db, d, now)
    ensures CurrentInHistory(db.evidence, d, now)
  {
    var log := db.evidence;
    var j := DecisionOrigin(log, |log|, d.decisionId);
    DecisionPolicyOf(log, j, |log|);
    var k := PolicyOrigin(log, |log|, d.agentId);
    var then_ := PolicyOrigin(log, j, d.agentId);
    MintedOnce(log, then_, k);
  }

  lemma HistoryImpliesCurrent(db: Db, d: Decision, now: int)
    requires Sound(db) && CurrentInHistory(db.evidence, d, now)
    ensures PolicyCurrent(db, d, now)
  {
    hide Evaluate, ValidIn, ApprovalGranted, WellFormed, Fresh;
    var log := db.evidence;
    var k: nat, j: nat :| k < j < |log| && IssuedTo(log[k], d.agentId) && log[j] == AuthorizationDecision(d)
      && (forall m :: k < m < |log| ==> !IssuedTo(log[m], d.agentId))
      && log[k].envelope.expiresAt > now;
    DecisionPolicyOf(log, j, |log|);
    PolicyPresent(log, k, j, d.agentId);
    PolicyPresent(log, k, |log|, d.agentId);
    var now_ := PolicyOrigin(log, |log|, d.agentId);
    var then_ := PolicyOrigin(log, j, d.agentId);
    assert Admissible(log, j);
  }

  /** The constant-time currency check decides the whole-history question, for every stored decision of every run. */
  lemma CurrencyCheckIsExact(turns: seq<Turn>, d: Decision, now: int)
    requires FreshRun(turns)
    requires d.decisionId in Final(turns).decisions && Final(turns).decisions[d.decisionId] == d
    ensures PolicyCurrent(Final(turns), d, now) <==> CurrentInHistory(Final(turns).evidence, d, now)
  {
    EvidenceRebuildsTables(turns, |turns|);
    if PolicyCurrent(Final(turns), d, now) {
      CurrentImpliesHistory(Final(turns), d, now);
    }
    if CurrentInHistory(Final(turns).evidence, d, now) {
      HistoryImpliesCurrent(Final(turns), d, now);
    }
  }

  // --- Usage ----------------------------------------------------------------------------------------

  /** The positions of an agent's ALLOW decisions among the first n records. */
  function Allows(log: seq<Event>, n: nat, agentId: string): set<nat>
    requires n <= |log|
  {
    set j: nat | j < n && Allowed(log[j]) && log[j].decision.agentId == agentId
  }

  function AllowsTo(log: seq<Event>, n: nat, agentId: string): set<nat>
    requires n <= |log|
  {
    set j: nat | j < n && Allowed(log[j]) && log[j].decision.agentId == agentId && log[j].decision.request.destination.Some?
  }

  function AllowsOf(log: seq<Event>, n: nat, agentId: string, action: string): set<nat>
    requires n <= |log|
  {
    set j: nat | j < n && Allowed(log[j]) && log[j].decision.agentId == agentId && log[j].decision.request.action == action
  }

  function CostOf(log: seq<Event>, n: nat, agentId: string): nat
    requires n <= |log|
  {
    if n == 0 then 0
    else CostOf(log, n - 1, agentId) +
         if Allowed(log[n - 1]) && log[n - 1].decision.agentId == agentId then log[n - 1].decision.request.costMicros else 0
  }

  /** The record is the tally of the agent's ALLOW decisions; the start is the time of the first. */
  ghost predicate IsTally(usage: Usage, log: seq<Event>, n: nat, agentId: string)
    requires n <= |log|
  {
    && usage.calls == |Allows(log, n, agentId)|
    && usage.external == |AllowsTo(log, n, agentId)|
    && usage.costMicros == CostOf(log, n, agentId)
    && (forall action :: AttemptsFor(usage, action) == |AllowsOf(log, n, agentId, action)|)
    && (usage.startedAt.None? <==> Allows(log, n, agentId) == {})
    && (usage.startedAt.Some? ==>
          exists first :: first in Allows(log, n, agentId) && log[first].decision.timestamp == usage.startedAt.value
                          && forall j :: j in Allows(log, n, agentId) ==> first <= j)
  }

  lemma TallyStays(usage: Usage, log: seq<Event>, n: nat, agentId: string)
    requires 0 < n <= |log| && IsTally(usage, log, n - 1, agentId)
    requires !(Allowed(log[n - 1]) && log[n - 1].decision.agentId == agentId)
    ensures IsTally(usage, log, n, agentId)
  {
    assert Allows(log, n, agentId) == Allows(log, n - 1, agentId);
    assert AllowsTo(log, n, agentId) == AllowsTo(log, n - 1, agentId);
    forall action ensures AllowsOf(log, n, agentId, action) == AllowsOf(log, n - 1, agentId, action) {
    }
  }

  lemma AttemptsGrow(usage: Usage, log: seq<Event>, n: nat, agentId: string, action: string)
    requires 0 < n <= |log| && Allowed(log[n - 1]) && log[n - 1].decision.agentId == agentId
    requires AttemptsFor(usage, action) == |AllowsOf(log, n - 1, agentId, action)|
    ensures AttemptsFor(Charge(usage, log[n - 1].decision.request, log[n - 1].decision.timestamp), action) == |AllowsOf(log, n, agentId, action)|
  {
    if action == log[n - 1].decision.request.action {
      assert AllowsOf(log, n, agentId, action) == AllowsOf(log, n - 1, agentId, action) + {n - 1};
    } else {
      assert AllowsOf(log, n, agentId, action) == AllowsOf(log, n - 1, agentId, action);
    }
  }

  lemma CallsGrow(log: seq<Event>, n: nat, agentId: string)
    requires 0 < n <= |log| && Allowed(log[n - 1]) && log[n - 1].decision.agentId == agentId
    ensures Allows(log, n, agentId) == Allows(log, n - 1, agentId) + {n - 1}
    ensures |Allows(log, n, agentId)| == |Allows(log, n - 1, agentId)| + 1
    ensures |AllowsTo(log, n, agentId)| == |AllowsTo(log, n - 1, agentId)| + if log[n - 1].decision.request.destination.Some? then 1 else 0
  {
    assert Allows(log, n, agentId) == Allows(log, n - 1, agentId) + {n - 1};
    if log[n - 1].decision.request.destination.Some? {
      assert AllowsTo(log, n, agentId) == AllowsTo(log, n - 1, agentId) + {n - 1};
    } else {
      assert AllowsTo(log, n, agentId) == AllowsTo(log, n - 1, agentId);
    }
  }

  lemma TallyGrows(usage: Usage, log: seq<Event>, n: nat, agentId: string)
    requires 0 < n <= |log| && IsTally(usage, log, n - 1, agentId)
    requires Allowed(log[n - 1]) && log[n - 1].decision.agentId == agentId
    ensures IsTally(Charge(usage, log[n - 1].decision.request, log[n - 1].decision.timestamp), log, n, agentId)
  {
    hide AllowsOf, AllowsTo, AttemptsFor;
    CallsGrow(log, n, agentId);
    forall action {
      AttemptsGrow(usage, log, n, agentId, action);
    }
    assert n - 1 in Allows(log, n, agentId);
  }

  lemma {:induction false} UsageIsTally(log: seq<Event>, n: nat, agentId: string)
    requires n <= |log|
    ensures IsTally(UsageOf(Replay(log, n).usage, agentId), log, n, agentId)
  {
    if n == 0 {
      assert Allows(log, 0, agentId) == {} == AllowsTo(log, 0, agentId);
      forall action ensures AllowsOf(log, 0, agentId, action) == {} {
      }
    } else {
      UsageIsTally(log, n - 1, agentId);
      var usage := UsageOf(Replay(log, n - 1).usage, agentId);
      if Allowed(log[n - 1]) && log[n - 1].decision.agentId == agentId {
        TallyGrows(usage, log, n, agentId);
      } else {
        TallyStays(usage, log, n, agentId);
      }
    }
  }

  /** The limits an ALLOW respects, counted over the agent's whole life, itself included. */
  ghost predicate WithinLimits(log: seq<Event>, j: nat, limits: Limits)
    requires j < |log| && log[j].AuthorizationDecision?
  {
    var d := log[j].decision;
    && |Allows(log, j + 1, d.agentId)| <= limits.maxToolCalls
    && (d.request.destination.Some? ==> |AllowsTo(log, j + 1, d.agentId)| <= limits.maxExternalRequests)
    && CostOf(log, j + 1, d.agentId) <= limits.maxCostMicros
    && |AllowsOf(log, j + 1, d.agentId, d.request.action)| <= 1 + limits.maxRetriesPerAction
    && (forall first :: first in Allows(log, j, d.agentId) && (forall i :: i in Allows(log, j, d.agentId) ==> first <= i)
          ==> d.timestamp - log[first].decision.timestamp < limits.maxRuntimeSeconds * 1000)
  }

  lemma AllowChecksLimits(log: seq<Event>, j: nat)
    requires Legal(log) && j < |log| && Allowed(log[j])
    ensures var d := log[j].decision;
            && d.agentId in Replay(log, j).policies
            && LimitObjection(d.request, Replay(log, j).policies[d.agentId].envelope.limits,
                              UsageOf(Replay(log, j).usage, d.agentId), d.timestamp).None?
  {
    assert Admissible(log, j);
  }

  lemma UnderLimits(usage: Usage, log: seq<Event>, j: nat, limits: Limits)
    requires j < |log| && Allowed(log[j])
    requires IsTally(usage, log, j, log[j].decision.agentId)
    requires LimitObjection(log[j].decision.request, limits, usage, log[j].decision.timestamp).None?
    ensures WithinLimits(log, j, limits)
  {
    hide AllowsTo, AllowsOf;
    var d := log[j].decision;
    CallsGrow(log, j + 1, d.agentId);
    AttemptsGrow(usage, log, j + 1, d.agentId, d.request.action);
    assert AttemptsFor(usage, d.request.action) == |AllowsOf(log, j, d.agentId, d.request.action)|;
    forall first | first in Allows(log, j, d.agentId) && (forall i :: i in Allows(log, j, d.agentId) ==> first <= i)
      ensures d.timestamp - log[first].decision.timestamp < limits.maxRuntimeSeconds * 1000
    {
      FirstAllowStartsUsage(usage, log, j, d.agentId, first);
    }
  }

  lemma FirstAllowStartsUsage(usage: Usage, log: seq<Event>, n: nat, agentId: string, first: nat)
    requires n <= |log| && IsTally(usage, log, n, agentId)
    requires first in Allows(log, n, agentId) && forall i :: i in Allows(log, n, agentId) ==> first <= i
    ensures usage.startedAt == Some(log[first].decision.timestamp)
  {
  }

  lemma AllowWithinLimits(log: seq<Event>, j: nat)
    requires Legal(log) && j < |log| && Allowed(log[j])
    ensures log[j].decision.agentId in Replay(log, j).policies
    ensures WithinLimits(log, j, Replay(log, j).policies[log[j].decision.agentId].envelope.limits)
  {
    var d := log[j].decision;
    AllowChecksLimits(log, j);
    UsageIsTally(log, j, d.agentId);
    UnderLimits(UsageOf(Replay(log, j).usage, d.agentId), log, j, Replay(log, j).policies[d.agentId].envelope.limits);
  }

  /** The newest record is an ALLOW within so many milliseconds of the first the agent ever got. */
  ghost predicate AllowedWithin(log: seq<Event>, agentId: string, ms: int)
    requires log != []
  {
    var last := |log| - 1;
    && Allowed(log[last]) && log[last].decision.agentId == agentId
    && forall first :: first in Allows(log, last, agentId) && (forall k :: k in Allows(log, last, agentId) ==> first <= k)
         ==> log[last].decision.timestamp - log[first].decision.timestamp < ms
  }

  lemma NewAllowIsWithinRuntime(db: Db, after: Db, agentId: string)
    requires Sound(db) && Sound(after) && |after.evidence| == |db.evidence| + 1 && db.evidence <= after.evidence
    requires Allowed(after.evidence[|db.evidence|]) && after.evidence[|db.evidence|].decision.agentId == agentId
    ensures agentId in db.policies && AllowedWithin(after.evidence, agentId, db.policies[agentId].envelope.limits.maxRuntimeSeconds * 1000)
  {
    var log, j := after.evidence, |db.evidence|;
    assert log == db.evidence + [log[j]];
    ReplayPrefix(db.evidence, log[j], j);
    AllowWithinLimits(log, j);
  }

  /**
   * In every run: usage records are the tallies of the whole log, through policy replacement and revocation, and every
   * ALLOW left its agent within the limits of the policy then in force.
   */
  lemma UsageIsTalliedAndBounded(turns: seq<Turn>, agentId: string)
    requires FreshRun(turns)
    ensures var db := Final(turns);
            IsTally(UsageOf(db.usage, agentId), db.evidence, |db.evidence|, agentId)
    ensures var log := Final(turns).evidence;
            forall j: nat :: j < |log| && Allowed(log[j]) ==>
              exists k: nat :: k < j && IssuedTo(log[k], log[j].decision.agentId)
                        && (forall m :: k < m < j ==> !IssuedTo(log[m], log[j].decision.agentId))
                        && WithinLimits(log, j, log[k].envelope.limits)
  {
    EvidenceRebuildsTables(turns, |turns|);
    var log := Final(turns).evidence;
    UsageIsTally(log, |log|, agentId);
    forall j: nat | j < |log| && Allowed(log[j])
      ensures exists k: nat :: k < j && IssuedTo(log[k], log[j].decision.agentId)
                && (forall m :: k < m < j ==> !IssuedTo(log[m], log[j].decision.agentId))
                && WithinLimits(log, j, log[k].envelope.limits)
    {
      AllowWithinLimits(log, j);
      var k := AllowedUnderLivePolicy(log, j);
      assert WithinLimits(log, j, log[k].envelope.limits);
    }
  }

  // --- Revocation -----------------------------------------------------------------------------------

  lemma {:induction false} RevokedStays(log: seq<Event>, i: nat, n: nat)
    requires Legal(log) && i < n <= |log| && log[i].AgentRevoked?
    ensures log[i].agentId in Replay(log, n).revoked && log[i].agentId in Replay(log, n).registered
  {
    hide Legal, Learn;
    if i < n - 1 {
      RevokedStays(log, i, n - 1);
      NothingUnrevokes(Replay(log, n - 1), log[n - 1], log[i].agentId);
    } else {
      RevocationIsLearnt(log, i);
    }
  }

  lemma NothingUnrevokes(a: Audit, e: Event, agentId: string)
    ensures agentId in a.revoked ==> agentId in Learn(a, e).revoked
    ensures agentId in a.registered ==> agentId in Learn(a, e).registered
  {
    hide Charge;
  }

  lemma RevocationIsLearnt(log: seq<Event>, i: nat)
    requires Legal(log) && i < |log| && log[i].AgentRevoked?
    ensures log[i].agentId in Learn(Replay(log, i), log[i]).revoked && log[i].agentId in Learn(Replay(log, i), log[i]).registered
  {
    hide Replay;
    assert Admissible(log, i);
  }

  /** Does a record give an agent anything: an identity, a policy, an approval, an ALLOW? */
  predicate Grants(e: Event, agentId: string) {
    match e
    case AgentRegistered(_, id) => id == agentId
    case EnvelopeIssued(_, id, _, _, _) => id == agentId
    case ApprovalIssued(_, approval) => approval.agentId == agentId
    case AuthorizationDecision(d) => d.verdict.Allow? && d.agentId == agentId
    case AgentRevoked(_, _, _) => false
  }

  lemma RevokedGetsNothing(log: seq<Event>, i: nat, j: nat)
    requires Legal(log) && i < j < |log| && log[i].AgentRevoked?
    ensures !Grants(log[j], log[i].agentId)
  {
    RevokedStays(log, i, j);
    assert Admissible(log, j);
  }

  lemma {:induction false} UngrantedIsFrozen(log: seq<Event>, n: nat, m: nat, agentId: string)
    requires Legal(log) && n <= m <= |log| && (forall j :: n <= j < m ==> !Grants(log[j], agentId))
    ensures Lookup(Replay(log, m).policies, agentId) == Lookup(Replay(log, n).policies, agentId)
    ensures UsageOf(Replay(log, m).usage, agentId) == UsageOf(Replay(log, n).usage, agentId)
    ensures forall id :: id in Replay(log, n).approvals && Replay(log, n).approvals[id].agentId == agentId ==>
              id in Replay(log, m).approvals && Replay(log, m).approvals[id] == Replay(log, n).approvals[id]
  {
    hide Legal, FindRule, Learn;
    if n < m {
      UngrantedIsFrozen(log, n, m - 1, agentId);
      if log[m - 1].ApprovalIssued? {
        NewApprovalIsNew(log, m - 1);
      } else if Consumed(log[m - 1]).Some? {
        ConsumedIsPresented(log, m - 1);
      }
      UngrantedTeachesNothing(Replay(log, m - 1), log[m - 1], agentId);
    }
  }

  lemma UngrantedTeachesNothing(a: Audit, e: Event, agentId: string)
    requires !Grants(e, agentId) && (e.ApprovalIssued? ==> e.approval.id !in a.approvals)
    requires Consumed(e).Some? ==> e.decision.approvalReference.value in a.approvals
                                   && a.approvals[e.decision.approvalReference.value].agentId == e.decision.agentId
    ensures Lookup(Learn(a, e).policies, agentId) == Lookup(a.policies, agentId)
    ensures UsageOf(Learn(a, e).usage, agentId) == UsageOf(a.usage, agentId)
    ensures forall id :: id in a.approvals && a.approvals[id].agentId == agentId ==>
              id in Learn(a, e).approvals && Learn(a, e).approvals[id] == a.approvals[id]
  {
    hide Charge;
  }

  /**
   * Revocation is permanent: after it, no run re-registers the agent, issues it a policy or an approval, or allows it
   * anything, so its policy, usage and approvals stay as they were and it stays revoked.
   */
  lemma RevocationIsPermanent(turns: seq<Turn>, i: nat)
    requires FreshRun(turns) && i < |Final(turns).evidence| && Final(turns).evidence[i].AgentRevoked?
    ensures var db := Final(turns);
            var (log, agentId) := (db.evidence, db.evidence[i].agentId);
            && AgentRevokedIn(db, agentId)
            && (forall j :: i < j < |log| ==> !Grants(log[j], agentId))
            && Lookup(db.policies, agentId) == Lookup(Replay(log, i).policies, agentId)
            && UsageOf(db.usage, agentId) == UsageOf(Replay(log, i).usage, agentId)
            && (forall id :: id in Replay(log, i).approvals && Replay(log, i).approvals[id].agentId == agentId ==>
                  id in db.approvals && db.approvals[id] == Replay(log, i).approvals[id])
  {
    EvidenceRebuildsTables(turns, |turns|);
    var db := Final(turns);
    var log := db.evidence;
    RevokedStays(log, i, |log|);
    assert log[i].agentId in AuditView(db).revoked;
    forall j | i < j < |log| ensures !Grants(log[j], log[i].agentId) {
      RevokedGetsNothing(log, i, j);
    }
    UngrantedIsFrozen(log, i, |log|, log[i].agentId);
  }

  // --- Approve, then authorize --------------------------------------------------------------------

  lemma ApproveGrants(db: Db, principal: Principal, request: Request, expiresAt: int, env: Ambient)
    requires Step(db, Approve(principal, request, expiresAt), env).1 == Done
    ensures ApprovalFor(db, principal, request, expiresAt, env).0.Some?
    ensures Step(db, Approve(principal, request, expiresAt), env).0.approvals
              == db.approvals[env.id := ApprovalFor(db, principal, request, expiresAt, env).0.value]
    ensures Bound(request) == request
    ensures request.agentId in db.policies && request.agentId in db.agents && !db.agents[request.agentId].revoked
    ensures FindRule(db.policies[request.agentId].envelope.approvals, request.action).Some?
    ensures expiresAt <= db.policies[request.agentId].envelope.expiresAt
    ensures Evaluate(request, Some(db.policies[request.agentId].envelope), ContextOf(db, request.agentId, true, env.now)) == Allow
  {
  }

  /** The engine reads neither the approval id nor the tool input. */
  lemma EvaluateIgnoresApprovalId(request: Request, envelope: Option<Envelope>, context: Context, id: Option<string>)
    ensures Evaluate(request.(approvalId := id), envelope, context) == Evaluate(request, envelope, context)
  {
  }

  /** Later in the approval's lifetime, and within the runtime limit, the engine still says ALLOW. */
  lemma StillAllowedLater(request: Request, e: Envelope, context: Context, later: int)
    requires Evaluate(request, Some(e), context) == Allow && later < e.expiresAt
    requires context.usage.startedAt.Some? ==> later - context.usage.startedAt.value < e.limits.maxRuntimeSeconds * 1000
    ensures Evaluate(request, Some(e), context.(now := later)) == Allow
  {
    assert LimitObjection(request, e.limits, context.usage, later).None?;
  }

  /** Nothing but the approvals table and the log separates the two states. */
  lemma PresentedIsAllowed(db: Db, approved: Db, request: Request, approval: Approval, second: Ambient)
    requires request.agentId in db.policies && request.agentId in db.agents
    requires approved.agents == db.agents && approved.policies == db.policies && approved.usage == db.usage
    requires approval.id in approved.approvals && approved.approvals[approval.id] == approval
    requires Evaluate(request, Some(db.policies[request.agentId].envelope), ContextOf(db, request.agentId, true, second.now)) == Allow
    requires ApprovalValid(approval, request, Some(db.policies[request.agentId]), second.now)
    ensures var d := DecisionFor(approved, request.(approvalId := Some(approval.id)), second);
            d.verdict == Allow && d.approvalReference == Some(approval.id)
  {
    var presented := request.(approvalId := Some(approval.id));
    assert Bound(presented) == Bound(request);
    EvaluateIgnoresApprovalId(request, Some(db.policies[request.agentId].envelope),
                              ContextOf(db, request.agentId, true, second.now), Some(approval.id));
  }

  lemma SpentIsRefused(db: Db, request: Request, env: Ambient)
    requires request.agentId in db.agents && request.agentId in db.policies
    requires FindRule(db.policies[request.agentId].envelope.approvals, request.action).Some?
    requires request.approvalId.Some? && request.approvalId.value in db.approvals && db.approvals[request.approvalId.value].used
    ensures DecisionFor(db, request, env).verdict != Allow && DecisionFor(db, request, env).approvalReference == None
  {
  }

  /**
   * Minted ids have the shape of one. So an approved request, presented with its approval before expiry and with nothing in between, is allowed and consumes
   * the approval; presented again, at any time, it is not allowed.
   */
  lemma ApprovedRequestIsAllowedOnce(db: Db, principal: Principal, request: Request, expiresAt: int,
                                     first: Ambient, second: Ambient, third: Ambient)
    requires Step(db, Approve(principal, request, expiresAt), first).1 == Done
    requires second.now < expiresAt && second.appendOk && IsId(first.id)
    requires var usage := UsageOf(db.usage, request.agentId);
             usage.startedAt.Some? && request.agentId in db.policies ==>
               second.now - usage.startedAt.value < db.policies[request.agentId].envelope.limits.maxRuntimeSeconds * 1000
    ensures var presented := Authorize(AgentPrincipal(request.agentId), request.(approvalId := Some(first.id)));
            var approved := Step(db, Approve(principal, request, expiresAt), first).0;
            var (consumed, outcome) := Step(approved, presented, second);
            && outcome.Decided? && outcome.decision.verdict == Allow && outcome.decision.approvalReference == Some(first.id)
            && var again := Step(consumed, presented, third).1;
               again.Failed? || (again.decision.verdict != Allow && again.decision.approvalReference == None)
  {
    hide IsId, IsLabel, IsHost, IsRelease, Evaluate, FindRule, Charge;
    var presented := request.(approvalId := Some(first.id));
    ApproveGrants(db, principal, request, expiresAt, first);
    var approved := Step(db, Approve(principal, request, expiresAt), first).0;
    var approval := approved.approvals[first.id];
    StillAllowedLater(request, db.policies[request.agentId].envelope, ContextOf(db, request.agentId, true, first.now), second.now);
    PresentedIsAllowed(db, approved, request, approval, second);
    var consumed := AfterAuthorize(approved, DecisionFor(approved, presented, second));
    SpentIsRefused(consumed, presented, third);
  }

  // --- Which limits an ALLOW does not re-check ---------------------------------------------------------

  /** After an ALLOW the external count is within the current limit exactly when the request had a destination or it was before. */
  lemma ExternalWithinLimitIff(log: seq<Event>, j: nat)
    requires Legal(log) && j < |log| && Allowed(log[j])
    ensures log[j].decision.agentId in Replay(log, j).policies
    ensures var d := log[j].decision;
            var limit := Replay(log, j).policies[d.agentId].envelope.limits.maxExternalRequests;
            |AllowsTo(log, j + 1, d.agentId)| <= limit <==> d.request.destination.Some? || |AllowsTo(log, j, d.agentId)| <= limit
  {
    AllowWithinLimits(log, j);
    CallsGrow(log, j + 1, log[j].decision.agentId);
  }

  ghost predicate TriedWithin(log: seq<Event>, n: nat, agentId: string, action: string, retries: nat)
    requires n <= |log|
  {
    |AllowsOf(log, n, agentId, action)| <= 1 + retries
  }

  /** An action is within the retry limit after an ALLOW exactly when it is the one allowed, or it was before. */
  lemma RetriesWithinLimitIff(log: seq<Event>, j: nat, action: string)
    requires Legal(log) && j < |log| && Allowed(log[j])
    ensures log[j].decision.agentId in Replay(log, j).policies
    ensures var d := log[j].decision;
            var retries := Replay(log, j).policies[d.agentId].envelope.limits.maxRetriesPerAction;
            TriedWithin(log, j + 1, d.agentId, action, retries) <==> action == d.request.action || TriedWithin(log, j, d.agentId, action, retries)
  {
    hide Legal, Replay, AllowsOf;
    AllowWithinLimits(log, j);
    if action != log[j].decision.request.action {
      OtherActionsKeepCount(log, j, log[j].decision.agentId, action);
    }
  }

  lemma OtherActionsKeepCount(log: seq<Event>, j: nat, agentId: string, action: string)
    requires j < |log| && Allowed(log[j]) && action != log[j].decision.request.action
    ensures AllowsOf(log, j + 1, agentId, action) == AllowsOf(log, j, agentId, action)
  {
  }

  /** Is every counter of the agent, over its whole life so far, within these limits? */
  ghost predicate EveryCounterWithin(log: seq<Event>, n: nat, agentId: string, limits: Limits)
    requires n <= |log|
  {
    && |Allows(log, n, agentId)| <= limits.maxToolCalls
    && |AllowsTo(log, n, agentId)| <= limits.maxExternalRequests
    && CostOf(log, n, agentId) <= limits.maxCostMicros
    && forall action :: TriedWithin(log, n, agentId, action, limits.maxRetriesPerAction)
  }

  /**
   * After an ALLOW every counter is within the limits then in force if and only if the ones the engine does not look at
   * were: the external count, for a request without destination, and the retry counts of all other actions.
   */
  lemma EveryCounterWithinIff(log: seq<Event>, j: nat)
    requires Legal(log) && j < |log| && Allowed(log[j])
    ensures log[j].decision.agentId in Replay(log, j).policies
    ensures var d := log[j].decision;
            var limits := Replay(log, j).policies[d.agentId].envelope.limits;
            EveryCounterWithin(log, j + 1, d.agentId, limits) <==>
              && (d.request.destination.Some? || |AllowsTo(log, j, d.agentId)| <= limits.maxExternalRequests)
              && forall action :: action != d.request.action ==> TriedWithin(log, j, d.agentId, action, limits.maxRetriesPerAction)
  {
    hide Legal, Replay, Allows, AllowsTo, AllowsOf, CostOf, TriedWithin;
    AllowWithinLimits(log, j);
    ExternalWithinLimitIff(log, j);
    var d, retries := log[j].decision, Replay(log, j).policies[log[j].decision.agentId].envelope.limits.maxRetriesPerAction;
    OthersDecideRetries(log, j, j + 1, retries);
  }

  lemma OthersDecideRetries(log: seq<Event>, j: nat, n: nat, retries: nat)
    requires Legal(log) && j < |log| && Allowed(log[j]) && n == j + 1
    requires log[j].decision.agentId in Replay(log, j).policies
    requires retries == Replay(log, j).policies[log[j].decision.agentId].envelope.limits.maxRetriesPerAction
    ensures var d := log[j].decision;
            (forall action :: TriedWithin(log, n, d.agentId, action, retries)) <==>
              (forall action :: action != d.request.action ==> TriedWithin(log, j, d.agentId, action, retries))
  {
    hide Legal, Replay, TriedWithin;
    var d := log[j].decision;
    forall action
      ensures TriedWithin(log, n, d.agentId, action, retries) <==> action == d.request.action || TriedWithin(log, j, d.agentId, action, retries)
    {
      RetriesWithinLimitIff(log, j, action);
    }
  }
}
