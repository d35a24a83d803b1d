/** Synchronisation, authorization and execution interleaved with administration: what every MCP call rests on. */
module GatewayRuns {
  import opened Schema
  import opened Paths
  import opened Policy
  import opened Sequences
  import opened Evidence
  import opened GateService
  import opened GateRuns
  import opened GateHistory
  import opened GovernedSync

  const CAPABILITY_MS := 30_000

  // A capability is signed with the random key of the process that issued it; `epoch` counts processes.
  datatype Capability = Capability(decision: Decision, expiresAt: int, consumed: bool, epoch: nat)

  // An execution past its live checks: what it is about to call, and what it saw when it checked.
  datatype Flight = Flight(capabilityId: string, decision: Decision, connector: Connector, checkedAt: int, policy: IssuedPolicy,
                           log: seq<Event>, tools: seq<Tool>, servers: map<ServerKey, ServerStatus>)

  datatype SyncRecord = SyncRecord(tenantId: string, agentId: string, tools: seq<Tool>, now: int)

  datatype World = World(wiring: Wiring, tools: seq<Tool>, servers: map<ServerKey, ServerStatus>,
                         capabilities: map<string, Capability>, flights: map<nat, Flight>, calls: seq<Flight>,
                         syncs: map<string, SyncRecord>, epoch: nat)

  const START := World(Wiring(EMPTY_DB, {}, [], map[]), [], map[], map[], map[], [], map[], 0)

  datatype Move =
    | Administer(tools: seq<Tool>, servers: map<ServerKey, ServerStatus>)
    | Synchronise(tenantId: string, agentId: string, first: Ambient, second: Ambient)
    | AskGate(call: Call, env: Ambient)
    | Issue(decisionId: string, capabilityId: string, now: int)
    | Redeem(pid: nat, capabilityId: string, now: int)
    | Reach(pid: nat)
    | Restart

  // A tool id is minted once, for one server of one tenant.
  datatype Owner = Owner(tenantId: string, serverId: string, externalName: string)
  type Ownership = string -> Owner

  predicate Owned(owner: Ownership, tools: seq<Tool>) {
    forall t :: t in tools ==> owner(t.toolId) == Owner(t.tenantId, t.serverId, t.externalName)
  }

  predicate OwnedConnector(owner: Ownership, c: Connector) {
    owner(c.toolId) == Owner(c.tenantId, c.serverId, c.externalName)
  }

  /** May the broker act on a decision at all: is it an ALLOW, still current, for a registered and fitting tool? */
  predicate BrokerAccepts(w: Wiring, d: Decision, now: int) {
    && d.verdict.Allow?
    && !AgentRevokedIn(w.gate, d.agentId)
    && PolicyCurrent(w.gate, d, now)
    && d.request.tool in w.registry
    && d.request.action == ActionOf(w.registry[d.request.tool].toolId)
    && d.request.destination.None?
  }

  /** A fresh capability for a decision no capability was issued for. */
  predicate CanIssue(w: World, decisionId: string, capabilityId: string, now: int) {
    && decisionId in w.wiring.gate.decisions && capabilityId !in w.capabilities
    && BrokerAccepts(w.wiring, w.wiring.gate.decisions[decisionId], now)
    && forall c :: c in w.capabilities ==> w.capabilities[c].decision.decisionId != decisionId
  }

  predicate CanRedeem(w: World, pid: nat, capabilityId: string, now: int) {
    && pid !in w.flights && capabilityId in w.capabilities
    && !w.capabilities[capabilityId].consumed && now < w.capabilities[capabilityId].expiresAt
    && w.capabilities[capabilityId].epoch == w.epoch
    && BrokerAccepts(w.wiring, w.capabilities[capabilityId].decision, now)
  }

  predicate Enabled(w: World, move: Move, owner: Ownership) {
    match move
    case Administer(tools, _) => Owned(owner, tools)
    case Synchronise(_, _, _, second) => Fresh(w.wiring.gate.evidence, |w.wiring.gate.evidence|, second.id)
    case AskGate(call, env) => (call.Authorize? || call.Revoke? || call.Approve?) && FreshTurn(w.wiring.gate, Turn(call, env))
    case Issue(decisionId, capabilityId, now) => CanIssue(w, decisionId, capabilityId, now)
    case Redeem(pid, capabilityId, now) => CanRedeem(w, pid, capabilityId, now)
    case Reach(pid) => pid in w.flights
    case Restart => true
  }

  function Spend(w: World, capabilityId: string): World
    requires capabilityId in w.capabilities
  {
    w.(capabilities := w.capabilities[capabilityId := w.capabilities[capabilityId].(consumed := true)])
  }

  function AfterIssue(w: World, decisionId: string, capabilityId: string, now: int): World
    requires CanIssue(w, decisionId, capabilityId, now)
  {
    w.(capabilities := w.capabilities[capabilityId := Capability(w.wiring.gate.decisions[decisionId], now + CAPABILITY_MS, false, w.epoch)])
  }

  function FlightFor(w: World, capabilityId: string, now: int): Flight
    requires capabilityId in w.capabilities && BrokerAccepts(w.wiring, w.capabilities[capabilityId].decision, now)
  {
    var d := w.capabilities[capabilityId].decision;
    Flight(capabilityId, d, w.wiring.registry[d.request.tool], now, w.wiring.gate.policies[d.agentId], w.wiring.gate.evidence,
           w.tools, w.servers)
  }

  /** The capability is spent, whether or not the live checks then let the execution through. */
  function AfterRedeem(w: World, pid: nat, capabilityId: string, now: int): World
    requires CanRedeem(w, pid, capabilityId, now)
  {
    var f := FlightFor(w, capabilityId, now);
    if Live(w.tools, w.servers, f.connector) then Spend(w, capabilityId).(flights := w.flights[pid := f]) else Spend(w, capabilityId)
  }

  function AfterReach(w: World, pid: nat): World
    requires pid in w.flights
  {
    w.(flights := w.flights - {pid}, calls := w.calls + [w.flights[pid]])
  }

  /** A new process on the same stores: registries, executions under way and the signing key are gone. */
  function Restarted(w: World): World {
    w.(wiring := Wiring(w.wiring.gate, {}, [], map[]), flights := map[], epoch := w.epoch + 1)
  }

  function Next(w: World, move: Move, owner: Ownership): World
    requires Enabled(w, move, owner)
  {
    match move
    case Administer(tools, servers) => w.(tools := tools, servers := servers)
    case Synchronise(tenantId, agentId, first, second) =>
      var (wiring, outcome) := Sync(w.wiring, w.tools, tenantId, agentId, first, second);
      w.(wiring := wiring,
         syncs := if outcome == Done then w.syncs[second.id := SyncRecord(tenantId, agentId, w.tools, second.now)] else w.syncs)
    case AskGate(call, env) => w.(wiring := w.wiring.(gate := Step(w.wiring.gate, call, env).0))
    case Issue(decisionId, capabilityId, now) => AfterIssue(w, decisionId, capabilityId, now)
    case Redeem(pid, capabilityId, now) => AfterRedeem(w, pid, capabilityId, now)
    case Reach(pid) => AfterReach(w, pid)
    case Restart => Restarted(w)
  }

  /** The world after the moves, or None if one of them was not possible when its turn came. */
  function After(moves: seq<Move>, owner: Ownership): Option<World> {
    if moves == [] then Some(START)
    else
      var last := |moves| - 1;
      var before := After(moves[..last], owner);
      if before.Some? && Enabled(before.value, moves[last], owner) then Some(Next(before.value, moves[last], owner)) else None
  }

  // --- What a call rests on --------------------------------------------------------------------------

  /** The policy was issued by a synchronisation, from the tools enabled at that moment. */
  ghost predicate FromSync(policy: IssuedPolicy, agentId: string, syncs: map<string, SyncRecord>, owner: Ownership) {
    && policy.revision in syncs
    && var s := syncs[policy.revision];
    && s.agentId == agentId && Owned(owner, s.tools)
    && policy.envelope == EnvelopeFor(agentId, s.tenantId, EnabledTools(s.tools, s.tenantId), s.now)
  }

  /** The synchronisation saw the call's own tool enabled, and an enabled tool of the tenant that opens the resource to it. */
  ghost predicate Seen(f: Flight, s: SyncRecord) {
    exists t, u, p ::
      && t in s.tools && t.enabled && t.tenantId == f.connector.tenantId && t.toolId == f.connector.toolId
      && t.serverId == f.connector.serverId && t.externalName == f.connector.externalName
      && u in s.tools && u.enabled && u.tenantId == f.connector.tenantId
      && p in u.resourcePatterns && OffersBy(f.decision.request, t, u, p)
  }

  /**
   * The call is for the tool and action of an ALLOW, without destination, whose policy was the last one issued to the agent
   * and unexpired when the call was checked, the agent never having been revoked; the synchronisation that issued that
   * policy saw the tool enabled, for the same tenant and server, and an enabled tool with a scope the resource lies in; and
   * at the check the tool was enabled and its server not disabled.
   */
  ghost predicate Grounded(f: Flight, syncs: map<string, SyncRecord>) {
    && f.decision.verdict.Allow? && f.decision.request.destination == None
    && f.decision.request.tool == "mcp." + f.connector.toolId && f.decision.request.action == "mcp." + f.connector.toolId + ".execute"
    && CurrentInHistory(f.log, f.decision, f.checkedAt)
    && (forall i :: 0 <= i < |f.log| && f.log[i].AgentRevoked? ==> f.log[i].agentId != f.decision.agentId)
    && f.decision.policyHash == Some(f.policy.hash)
    && f.policy.revision in syncs
    && var s := syncs[f.policy.revision];
    && s.agentId == f.decision.agentId && s.tenantId == f.connector.tenantId
    && Seen(f, s)
    && ServerKey(f.connector.tenantId, f.connector.serverId) in f.servers
    && f.servers[ServerKey(f.connector.tenantId, f.connector.serverId)] != Disabled
    && Enables(f.tools, f.connector.tenantId, f.connector.toolId)
  }

  ghost predicate PoliciesFromSyncs(db: Db, syncs: map<string, SyncRecord>, owner: Ownership) {
    && (forall a :: a in db.policies ==> FromSync(db.policies[a], a, syncs, owner))
    && (forall r :: r in syncs ==> !Fresh(db.evidence, |db.evidence|, r))
  }

  predicate ConnectorsOwned(owner: Ownership, connectors: seq<Connector>) {
    forall c :: c in connectors ==> OwnedConnector(owner, c)
  }

  predicate RegistryOwned(owner: Ownership, registry: map<string, Connector>) {
    forall p :: p in registry ==> p == PlatformId(registry[p].toolId) && OwnedConnector(owner, registry[p])
  }

  ghost predicate WiringSound(w: Wiring, syncs: map<string, SyncRecord>, owner: Ownership) {
    Sound(w.gate) && PoliciesFromSyncs(w.gate, syncs, owner) && ConnectorsOwned(owner, w.connectors) && RegistryOwned(owner, w.registry)
  }

  ghost predicate CapabilitiesSound(w: World) {
    && (forall c :: c in w.capabilities ==>
          var d := w.capabilities[c].decision;
          d.decisionId in w.wiring.gate.decisions && w.wiring.gate.decisions[d.decisionId] == d && d.verdict.Allow?)
    && (forall c, c' :: c in w.capabilities && c' in w.capabilities && c != c' ==>
          w.capabilities[c].decision.decisionId != w.capabilities[c'].decision.decisionId)
  }

  ghost predicate FlightSound(capabilities: map<string, Capability>, syncs: map<string, SyncRecord>, f: Flight) {
    && f.capabilityId in capabilities && capabilities[f.capabilityId].consumed
    && capabilities[f.capabilityId].decision == f.decision
    && Grounded(f, syncs)
  }

  ghost predicate AllSound(capabilities: map<string, Capability>, syncs: map<string, SyncRecord>, flights: map<nat, Flight>, calls: seq<Flight>) {
    && (forall p :: p in flights ==> FlightSound(capabilities, syncs, flights[p]))
    && (forall i :: 0 <= i < |calls| ==> FlightSound(capabilities, syncs, calls[i]))
  }

  ghost predicate SingleUse(flights: map<nat, Flight>, calls: seq<Flight>) {
    && (forall p, q :: p in flights && q in flights && p != q ==> flights[p].capabilityId != flights[q].capabilityId)
    && (forall p, i :: p in flights && 0 <= i < |calls| ==> flights[p].capabilityId != calls[i].capabilityId)
    && (forall i, j :: 0 <= i < j < |calls| ==> calls[i].capabilityId != calls[j].capabilityId)
  }

  ghost predicate Unused(flights: map<nat, Flight>, calls: seq<Flight>, capabilityId: string) {
    && (forall p :: p in flights ==> flights[p].capabilityId != capabilityId)
    && (forall i :: 0 <= i < |calls| ==> calls[i].capabilityId != capabilityId)
  }

  ghost predicate FlightsSound(w: World) {
    AllSound(w.capabilities, w.syncs, w.flights, w.calls) && SingleUse(w.flights, w.calls)
  }

  ghost predicate Inv(w: World, owner: Ownership) {
    && Owned(owner, w.tools)
    && WiringSound(w.wiring, w.syncs, owner)
    && CapabilitiesSound(w)
    && FlightsSound(w)
  }

  // --- The Gate's part -------------------------------------------------------------------------------

  lemma DecisionsPersist(db: Db, call: Call, env: Ambient)
    requires Sound(db) && FreshTurn(db, Turn(call, env))
    ensures var after := Step(db, call, env).0;
            forall id :: id in db.decisions ==> id in after.decisions && after.decisions[id] == db.decisions[id]
  {
    if call.Authorize? && env.id in db.decisions {
      var j := DecisionOrigin(db.evidence, |db.evidence|, env.id);
    }
  }

  lemma EvidenceGrows(db: Db, call: Call, env: Ambient, id: string)
    requires !Fresh(db.evidence, |db.evidence|, id)
    ensures var after := Step(db, call, env).0; !Fresh(after.evidence, |after.evidence|, id)
  {
    FailureLeavesNoTrace(db, call, env);
    var after := Step(db, call, env).0;
    var i :| 0 <= i < |db.evidence| && MintedBy(db.evidence[i]) == Some(id);
    assert after.evidence[i] == db.evidence[i];
  }

  /** A current ALLOW was judged under the very envelope that is in force. */
  lemma CurrentAllowWasJudgedByPolicyInForce(db: Db, d: Decision, now: int) returns (context: Context)
    requires Sound(db) && d.decisionId in db.decisions && db.decisions[d.decisionId] == d
    requires d.verdict.Allow? && PolicyCurrent(db, d, now)
    ensures Evaluate(d.request, Some(db.policies[d.agentId].envelope), context) == Allow
  {
    CurrentImpliesHistory(db, d, now);
    var k: nat, j: nat :| k < j < |db.evidence| && IssuedTo(db.evidence[k], d.agentId) && db.evidence[j] == AuthorizationDecision(d)
      && (forall m :: k < m < |db.evidence| ==> !IssuedTo(db.evidence[m], d.agentId)) && db.evidence[k].envelope.expiresAt > now;
    LastIssueStaysInForce(db.evidence, k, j, d.agentId);
    context := JudgedAllow(db.evidence, j);
  }

  lemma LastIssueStaysInForce(log: seq<Event>, k: nat, j: nat, agentId: string)
    requires Legal(log) && k < j < |log| && IssuedTo(log[k], agentId)
    requires forall m :: k < m < |log| ==> !IssuedTo(log[m], agentId)
    ensures agentId in Replay(log, j).policies && agentId in Replay(log, |log|).policies
    ensures Replay(log, j).policies[agentId] == Replay(log, |log|).policies[agentId]
  {
    PolicyPresent(log, k, j, agentId);
    PolicyPresent(log, k, |log|, agentId);
    var atDecision := PolicyOrigin(log, j, agentId);
    var atPresent := PolicyOrigin(log, |log|, agentId);
  }

  lemma JudgedAllow(log: seq<Event>, j: nat) returns (context: Context)
    requires Legal(log) && j < |log| && Allowed(log[j]) && log[j].decision.agentId in Replay(log, j).policies
    ensures Evaluate(log[j].decision.request, Some(Replay(log, j).policies[log[j].decision.agentId].envelope), context) == Allow
  {
    assert Admissible(log, j);
    var a, d := Replay(log, j), log[j].decision;
    context := Context(d.timestamp, d.agentId in a.revoked, ValidIn(a, d.request, d.timestamp), UsageOf(a.usage, d.agentId), a.registered - a.revoked);
  }

  // --- Each move keeps the invariant ------------------------------------------------------------------

  lemma {:induction false} ConnectorsStayOwned(connectors: seq<Connector>, tools: seq<Tool>, tenantId: string, owner: Ownership)
    requires Owned(owner, tools) && ConnectorsOwned(owner, connectors)
    ensures ConnectorsOwned(owner, WithConnectors(connectors, tools, tenantId))
  {
    if tools != [] {
      ConnectorsStayOwned(connectors, tools[..|tools| - 1], tenantId, owner);
    }
  }

  lemma {:induction false} RegistryStaysOwned(registry: map<string, Connector>, connectors: seq<Connector>, tenantId: string, owner: Ownership)
    requires RegistryOwned(owner, registry) && ConnectorsOwned(owner, connectors)
    ensures RegistryOwned(owner, WithTools(registry, connectors, tenantId))
  {
    if connectors != [] {
      var last := |connectors| - 1;
      RegistryStaysOwned(registry, connectors[..last], tenantId, owner);
      var before := WithTools(registry, connectors[..last], tenantId);
      var after := WithTools(registry, connectors, tenantId);
      assert OwnedConnector(owner, connectors[last]);
      forall p | p in after ensures p == PlatformId(after[p].toolId) && OwnedConnector(owner, after[p]) {
        if p != PlatformId(connectors[last].toolId) || after == before {
          assert p in before && after[p] == before[p];
        }
      }
    }
  }

  /** A Gate call that issues no policy. */
  lemma AskKeepsPolicies(db: Db, syncs: map<string, SyncRecord>, owner: Ownership, call: Call, env: Ambient)
    requires PoliciesFromSyncs(db, syncs, owner) && !call.SetEnvelope?
    ensures PoliciesFromSyncs(Step(db, call, env).0, syncs, owner)
  {
    OnlySetEnvelopeIssues(db, call, env);
    forall r | r in syncs ensures !Fresh(Step(db, call, env).0.evidence, |Step(db, call, env).0.evidence|, r) {
      EvidenceGrows(db, call, env, r);
    }
  }

  lemma JoinKeepsFresh(w: Wiring, agentId: string, first: Ambient, id: string)
    requires Fresh(w.gate.evidence, |w.gate.evidence|, id)
    ensures var gate := Joined(w, agentId, first); Fresh(gate.evidence, |gate.evidence|, id)
  {
  }

  function EnvelopeOfRecord(record: SyncRecord): Envelope {
    EnvelopeFor(record.agentId, record.tenantId, EnabledTools(record.tools, record.tenantId), record.now)
  }

  lemma IssuedPolicyIsFromSync(db: Db, envelope: Envelope, env: Ambient)
    ensures var (after, outcome) := Step(db, SetEnvelope(ADMINISTRATOR, envelope), env);
            if outcome == Done
            then after.policies == db.policies[envelope.agentId := IssuedPolicy(envelope, OfEnvelope(envelope), env.id)]
                 && !Fresh(after.evidence, |after.evidence|, env.id)
            else after == db
  {
    var (after, outcome) := Step(db, SetEnvelope(ADMINISTRATOR, envelope), env);
    if outcome == Done {
      assert MintedBy(after.evidence[|db.evidence|]) == Some(env.id);
    }
  }

  lemma IssueKeepsPolicies(db: Db, syncs: map<string, SyncRecord>, owner: Ownership, record: SyncRecord, env: Ambient)
    requires PoliciesFromSyncs(db, syncs, owner) && Owned(owner, record.tools) && record.now == env.now && env.id !in syncs
    ensures var (after, outcome) := Step(db, SetEnvelope(ADMINISTRATOR, EnvelopeOfRecord(record)), env);
            PoliciesFromSyncs(after, if outcome == Done then syncs[env.id := record] else syncs, owner)
  {
    hide FromSync;
    var envelope := EnvelopeOfRecord(record);
    var call := SetEnvelope(ADMINISTRATOR, envelope);
    var (after, outcome) := Step(db, call, env);
    IssuedPolicyIsFromSync(db, envelope, env);
    if outcome == Done {
      forall r | r in syncs ensures !Fresh(after.evidence, |after.evidence|, r) {
        EvidenceGrows(db, call, env, r);
      }
      IssuedFromRecord(db, syncs, owner, record, IssuedPolicy(envelope, OfEnvelope(envelope), env.id));
    }
  }

  lemma IssuedFromRecord(db: Db, syncs: map<string, SyncRecord>, owner: Ownership, record: SyncRecord, policy: IssuedPolicy)
    requires PoliciesFromSyncs(db, syncs, owner) && Owned(owner, record.tools)
    requires policy.revision !in syncs && policy.envelope == EnvelopeOfRecord(record)
    ensures var policies := db.policies[record.agentId := policy];
            forall a :: a in policies ==> FromSync(policies[a], a, syncs[policy.revision := record], owner)
  {
    forall a | a in db.policies && a != record.agentId ensures FromSync(db.policies[a], a, syncs[policy.revision := record], owner) {
      assert FromSync(db.policies[a], a, syncs, owner);
    }
  }

  lemma JoinKeepsGate(w: Wiring, agentId: string, first: Ambient, syncs: map<string, SyncRecord>, owner: Ownership)
    requires Sound(w.gate) && PoliciesFromSyncs(w.gate, syncs, owner)
    ensures Sound(Joined(w, agentId, first)) && PoliciesFromSyncs(Joined(w, agentId, first), syncs, owner)
  {
    if agentId !in w.registeredAgents {
      StepKeepsSound(w.gate, Register(ADMINISTRATOR, agentId, agentId, first.id), first);
      AskKeepsPolicies(w.gate, syncs, owner, Register(ADMINISTRATOR, agentId, agentId, first.id), first);
    }
  }

  lemma SyncKeepsWiring(w: World, tenantId: string, agentId: string, first: Ambient, second: Ambient, owner: Ownership)
    requires Inv(w, owner) && Enabled(w, Synchronise(tenantId, agentId, first, second), owner)
    ensures var after := Next(w, Synchronise(tenantId, agentId, first, second), owner); WiringSound(after.wiring, after.syncs, owner)
  {
    var record := SyncRecord(tenantId, agentId, w.tools, second.now);
    JoinKeepsGate(w.wiring, agentId, first, w.syncs, owner);
    JoinKeepsFresh(w.wiring, agentId, first, second.id);
    var joined := Joined(w.wiring, agentId, first);
    assert second.id !in w.syncs;
    IssueKeepsPolicies(joined, w.syncs, owner, record, second);
    StepKeepsSound(joined, SetEnvelope(ADMINISTRATOR, EnvelopeOfRecord(record)), second);
    ConnectorsStayOwned(w.wiring.connectors, w.tools, tenantId, owner);
    RegistryStaysOwned(w.wiring.registry, WithConnectors(w.wiring.connectors, w.tools, tenantId), tenantId, owner);
  }

  /** An execution stays sound while consumed capabilities and records of synchronisations stay. */
  lemma MoreKeepsSound(capabilities: map<string, Capability>, capabilities': map<string, Capability>,
                       syncs: map<string, SyncRecord>, syncs': map<string, SyncRecord>, flights: map<nat, Flight>, calls: seq<Flight>)
    requires AllSound(capabilities, syncs, flights, calls)
    requires forall c :: c in capabilities && capabilities[c].consumed ==> c in capabilities' && capabilities'[c] == capabilities[c]
    requires forall r :: r in syncs ==> r in syncs' && syncs'[r] == syncs[r]
    ensures AllSound(capabilities', syncs', flights, calls)
  {
    forall f | FlightSound(capabilities, syncs, f) ensures FlightSound(capabilities', syncs', f) {
    }
  }

  lemma FrameKeepsFlights(w: World, after: World)
    requires CapabilitiesSound(w) && FlightsSound(w)
    requires after.capabilities == w.capabilities && after.flights == w.flights && after.calls == w.calls
    requires forall id :: id in w.wiring.gate.decisions ==> id in after.wiring.gate.decisions && after.wiring.gate.decisions[id] == w.wiring.gate.decisions[id]
    requires forall r :: r in w.syncs ==> r in after.syncs && after.syncs[r] == w.syncs[r]
    ensures CapabilitiesSound(after) && FlightsSound(after)
  {
    MoreKeepsSound(w.capabilities, after.capabilities, w.syncs, after.syncs, w.flights, w.calls);
  }

  lemma RevisionIsNew(db: Db, syncs: map<string, SyncRecord>, owner: Ownership, revision: string)
    requires PoliciesFromSyncs(db, syncs, owner) && Fresh(db.evidence, |db.evidence|, revision)
    ensures revision !in syncs
  {
  }

  lemma WiringIsSynced(w: Wiring, syncs: map<string, SyncRecord>, owner: Ownership)
    requires WiringSound(w, syncs, owner)
    ensures PoliciesFromSyncs(w.gate, syncs, owner)
  {
  }

  lemma SyncKeepsInv(w: World, tenantId: string, agentId: string, first: Ambient, second: Ambient, owner: Ownership)
    requires Inv(w, owner) && Enabled(w, Synchronise(tenantId, agentId, first, second), owner)
    ensures Inv(Next(w, Synchronise(tenantId, agentId, first, second), owner), owner)
  {
    hide WiringSound, CapabilitiesSound, FlightsSound, Sync, Fresh;
    var after := Next(w, Synchronise(tenantId, agentId, first, second), owner);
    WiringIsSynced(w.wiring, w.syncs, owner);
    SyncKeepsWiring(w, tenantId, agentId, first, second, owner);
    SyncKeepsDecisions(w.wiring, w.tools, tenantId, agentId, first, second);
    RevisionIsNew(w.wiring.gate, w.syncs, owner, second.id);
    FrameKeepsFlights(w, after);
  }

  lemma SyncKeepsDecisions(w: Wiring, tools: seq<Tool>, tenantId: string, agentId: string, first: Ambient, second: Ambient)
    ensures Sync(w, tools, tenantId, agentId, first, second).0.gate.decisions == w.gate.decisions
  {
    OnlyAuthorizeDecides(w.gate, Register(ADMINISTRATOR, agentId, agentId, first.id), first);
    OnlyAuthorizeDecides(Joined(w, agentId, first),
                         SetEnvelope(ADMINISTRATOR, EnvelopeFor(agentId, tenantId, EnabledTools(tools, tenantId), second.now)), second);
  }

  lemma AskKeepsInv(w: World, call: Call, env: Ambient, owner: Ownership)
    requires Inv(w, owner) && Enabled(w, AskGate(call, env), owner)
    ensures Inv(Next(w, AskGate(call, env), owner), owner)
  {
    StepKeepsSound(w.wiring.gate, call, env);
    AskKeepsPolicies(w.wiring.gate, w.syncs, owner, call, env);
    DecisionsPersist(w.wiring.gate, call, env);
    FrameKeepsFlights(w, Next(w, AskGate(call, env), owner));
  }

  /** The heart of it: an execution that gets past the broker and the live checks is grounded. */
  lemma CheckedFlightIsGrounded(w: World, f: Flight, owner: Ownership)
    requires WiringSound(w.wiring, w.syncs, owner)
    requires var d := f.decision;
             && d.decisionId in w.wiring.gate.decisions && w.wiring.gate.decisions[d.decisionId] == d
             && BrokerAccepts(w.wiring, d, f.checkedAt)
             && f.connector == w.wiring.registry[d.request.tool] && f.policy == w.wiring.gate.policies[d.agentId]
             && f.log == w.wiring.gate.evidence
    requires Live(f.tools, f.servers, f.connector)
    ensures Grounded(f, w.syncs)
  {
    hide Seen, CurrentInHistory, Sound, Offers;
    var d := f.decision;
    CurrentImpliesHistory(w.wiring.gate, d, f.checkedAt);
    UnrevokedInLog(w.wiring.gate, d.agentId);
    assert FromSync(f.policy, d.agentId, w.syncs, owner);
    var s := w.syncs[f.policy.revision];
    var context := CurrentAllowWasJudgedByPolicyInForce(w.wiring.gate, d, f.checkedAt);
    PolicyIsWellFormed(w.wiring.gate, d.agentId);
    ToolsAllowExactlyWhen(d.request, d.agentId, s.tenantId, EnabledTools(s.tools, s.tenantId), s.now, context);
    assert OwnedConnector(owner, f.connector);
    OfferedIsSeen(f, s, owner);
  }

  lemma OfferedIsSeen(f: Flight, s: SyncRecord, owner: Ownership)
    requires Offers(EnabledTools(s.tools, s.tenantId), f.decision.request)
    requires f.decision.request.tool == PlatformId(f.connector.toolId) && Owned(owner, s.tools) && OwnedConnector(owner, f.connector)
    ensures s.tenantId == f.connector.tenantId && Seen(f, s)
  {
    hide LiesIn;
    var enabled := EnabledTools(s.tools, s.tenantId);
    var t, u, p :| t in enabled && u in enabled && p in u.resourcePatterns && OffersBy(f.decision.request, t, u, p);
    PlatformIdInjective(t.toolId, f.connector.toolId);
    assert owner(t.toolId) == Owner(t.tenantId, t.serverId, t.externalName);
  }

  lemma PolicyIsWellFormed(db: Db, agentId: string)
    requires Sound(db) && agentId in db.policies
    ensures WellFormed(db.policies[agentId].envelope)
  {
    hide WellFormed;
    var k := PolicyOrigin(db.evidence, |db.evidence|, agentId);
    assert Admissible(db.evidence, k);
  }

  lemma UnrevokedInLog(db: Db, agentId: string)
    requires Sound(db) && !AgentRevokedIn(db, agentId)
    ensures forall i :: 0 <= i < |db.evidence| && db.evidence[i].AgentRevoked? ==> db.evidence[i].agentId != agentId
  {
    hide Legal, Replay;
    forall i | 0 <= i < |db.evidence| && db.evidence[i].AgentRevoked? ensures db.evidence[i].agentId != agentId {
      RevokedStays(db.evidence, i, |db.evidence|);
      assert db.evidence[i].agentId in AuditView(db).revoked;
    }
  }

  lemma UnconsumedIsUnused(w: World, capabilityId: string)
    requires FlightsSound(w) && (capabilityId in w.capabilities ==> !w.capabilities[capabilityId].consumed)
    ensures Unused(w.flights, w.calls, capabilityId)
  {
    forall p | p in w.flights ensures w.flights[p].capabilityId != capabilityId {
      assert FlightSound(w.capabilities, w.syncs, w.flights[p]);
    }
    forall i | 0 <= i < |w.calls| ensures w.calls[i].capabilityId != capabilityId {
      assert FlightSound(w.capabilities, w.syncs, w.calls[i]);
    }
  }

  lemma SpendingKeepsSound(w: World, capabilityId: string)
    requires CapabilitiesSound(w) && FlightsSound(w) && capabilityId in w.capabilities && !w.capabilities[capabilityId].consumed
    ensures CapabilitiesSound(Spend(w, capabilityId)) && FlightsSound(Spend(w, capabilityId))
  {
    MoreKeepsSound(w.capabilities, Spend(w, capabilityId).capabilities, w.syncs, w.syncs, w.flights, w.calls);
  }

  lemma LaunchKeepsSingleUse(flights: map<nat, Flight>, calls: seq<Flight>, pid: nat, f: Flight)
    requires SingleUse(flights, calls) && pid !in flights && Unused(flights, calls, f.capabilityId)
    ensures SingleUse(flights[pid := f], calls)
  {
  }

  lemma LaunchKeepsSound(capabilities: map<string, Capability>, syncs: map<string, SyncRecord>, flights: map<nat, Flight>,
                         calls: seq<Flight>, pid: nat, f: Flight)
    requires AllSound(capabilities, syncs, flights, calls) && FlightSound(capabilities, syncs, f)
    ensures AllSound(capabilities, syncs, flights[pid := f], calls)
  {
  }

  lemma RedeemKeepsFlights(w: World, pid: nat, capabilityId: string, now: int, owner: Ownership)
    requires WiringSound(w.wiring, w.syncs, owner) && CapabilitiesSound(w) && FlightsSound(w) && CanRedeem(w, pid, capabilityId, now)
    ensures CapabilitiesSound(AfterRedeem(w, pid, capabilityId, now)) && FlightsSound(AfterRedeem(w, pid, capabilityId, now))
  {
    var f := FlightFor(w, capabilityId, now);
    UnconsumedIsUnused(w, capabilityId);
    SpendingKeepsSound(w, capabilityId);
    if Live(w.tools, w.servers, f.connector) {
      CheckedFlightIsGrounded(w, f, owner);
      LaunchKeepsSingleUse(w.flights, w.calls, pid, f);
      LaunchKeepsSound(Spend(w, capabilityId).capabilities, w.syncs, w.flights, w.calls, pid, f);
    }
  }

  lemma ReachKeepsSingleUse(flights: map<nat, Flight>, calls: seq<Flight>, pid: nat)
    requires SingleUse(flights, calls) && pid in flights
    ensures SingleUse(flights - {pid}, calls + [flights[pid]])
  {
  }

  lemma ReachKeepsFlights(w: World, pid: nat)
    requires FlightsSound(w) && pid in w.flights
    ensures FlightsSound(AfterReach(w, pid))
  {
    hide FlightSound, SingleUse;
    ReachKeepsSingleUse(w.flights, w.calls, pid);
    assert FlightSound(w.capabilities, w.syncs, w.flights[pid]);
  }

  lemma DecisionsAreKeyed(db: Db, id: string)
    requires Sound(db) && id in db.decisions
    ensures db.decisions[id].decisionId == id
  {
    var j := DecisionOrigin(db.evidence, |db.evidence|, id);
  }

  lemma IssueKeepsCapabilities(w: World, capabilityId: string, capability: Capability)
    requires CapabilitiesSound(w) && capability.decision.verdict.Allow?
    requires var id := capability.decision.decisionId;
             && id in w.wiring.gate.decisions && w.wiring.gate.decisions[id] == capability.decision
             && (forall c :: c in w.capabilities ==> w.capabilities[c].decision.decisionId != id)
    ensures CapabilitiesSound(w.(capabilities := w.capabilities[capabilityId := capability]))
  {
  }

  lemma IssueKeepsFlights(w: World, decisionId: string, capabilityId: string, now: int)
    requires Sound(w.wiring.gate) && CapabilitiesSound(w) && FlightsSound(w) && CanIssue(w, decisionId, capabilityId, now)
    ensures CapabilitiesSound(AfterIssue(w, decisionId, capabilityId, now)) && FlightsSound(AfterIssue(w, decisionId, capabilityId, now))
  {
    DecisionsAreKeyed(w.wiring.gate, decisionId);
    var capability := Capability(w.wiring.gate.decisions[decisionId], now + CAPABILITY_MS, false, w.epoch);
    IssueKeepsCapabilities(w, capabilityId, capability);
    MoreKeepsSound(w.capabilities, w.capabilities[capabilityId := capability], w.syncs, w.syncs, w.flights, w.calls);
  }

  lemma IssueKeepsInv(w: World, decisionId: string, capabilityId: string, now: int, owner: Ownership)
    requires Inv(w, owner) && CanIssue(w, decisionId, capabilityId, now)
    ensures Inv(AfterIssue(w, decisionId, capabilityId, now), owner)
  {
    IssueKeepsFlights(w, decisionId, capabilityId, now);
  }

  lemma RedeemKeepsInv(w: World, pid: nat, capabilityId: string, now: int, owner: Ownership)
    requires Inv(w, owner) && CanRedeem(w, pid, capabilityId, now)
    ensures Inv(AfterRedeem(w, pid, capabilityId, now), owner)
  {
    RedeemKeepsFlights(w, pid, capabilityId, now, owner);
  }

  lemma ReachKeepsInv(w: World, pid: nat, owner: Ownership)
    requires Inv(w, owner) && pid in w.flights
    ensures Inv(AfterReach(w, pid), owner)
  {
    ReachKeepsFlights(w, pid);
  }

  lemma RestartKeepsInv(w: World, owner: Ownership)
    requires Inv(w, owner)
    ensures Inv(Restarted(w), owner)
  {
    hide Sound;
    RestartKeepsFlights(w);
  }

  lemma RestartKeepsFlights(w: World)
    requires CapabilitiesSound(w) && FlightsSound(w)
    ensures CapabilitiesSound(Restarted(w)) && FlightsSound(Restarted(w))
  {
    hide FlightSound;
  }

  lemma NextKeepsInv(w: World, move: Move, owner: Ownership)
    requires Inv(w, owner) && Enabled(w, move, owner)
    ensures Inv(Next(w, move, owner), owner)
  {
    match move
    case Administer(tools, servers) =>
    case Synchronise(tenantId, agentId, first, second) => SyncKeepsInv(w, tenantId, agentId, first, second, owner);
    case AskGate(call, env) => AskKeepsInv(w, call, env, owner);
    case Issue(decisionId, capabilityId, now) => IssueKeepsInv(w, decisionId, capabilityId, now, owner);
    case Redeem(pid, capabilityId, now) => RedeemKeepsInv(w, pid, capabilityId, now, owner);
    case Reach(pid) => ReachKeepsInv(w, pid, owner);
    case Restart => RestartKeepsInv(w, owner);
  }

  lemma {:induction false} RunsKeepInv(moves: seq<Move>, owner: Ownership)
    requires After(moves, owner).Some?
    ensures Inv(After(moves, owner).value, owner)
  {
    if moves == [] {
      EmptyIsSound();
    } else {
      var last := |moves| - 1;
      RunsKeepInv(moves[..last], owner);
      NextKeepsInv(After(moves[..last], owner).value, moves[last], owner);
    }
  }

  /** In every interleaving each MCP call is grounded, and no decision is executed twice. */
  lemma EveryMcpCallIsGrounded(moves: seq<Move>, owner: Ownership)
    requires After(moves, owner).Some?
    ensures var w := After(moves, owner).value;
            && (forall i :: 0 <= i < |w.calls| ==> Grounded(w.calls[i], w.syncs))
            && (forall i, j :: 0 <= i < j < |w.calls| ==> w.calls[i].decision.decisionId != w.calls[j].decision.decisionId)
  {
    RunsKeepInv(moves, owner);
    var w := After(moves, owner).value;
    forall i | 0 <= i < |w.calls| ensures FlightSound(w.capabilities, w.syncs, w.calls[i]) {
    }
  }

  /**
   * Lifetime counters survive a synchronisation: from ten minutes after its first ALLOW on, an agent is allowed nothing
   * more, however often its tenant is synchronised.
   */
  lemma SynchronisingNeverRenewsRuntime(moves: seq<Move>, owner: Ownership, request: Request, env: Ambient)
    requires After(moves, owner).Some?
    requires Enabled(After(moves, owner).value, AskGate(Authorize(AgentPrincipal(request.agentId), request), env), owner)
    requires var outcome := Step(After(moves, owner).value.wiring.gate, Authorize(AgentPrincipal(request.agentId), request), env).1;
             outcome.Decided? && outcome.decision.verdict.Allow?
    ensures var after := Step(After(moves, owner).value.wiring.gate, Authorize(AgentPrincipal(request.agentId), request), env).0;
            after.evidence != [] && AllowedWithin(after.evidence, request.agentId, 600_000)
  {
    RunsKeepInv(moves, owner);
    var w := After(moves, owner).value;
    AllowIsWithinTenMinutes(w.wiring.gate, w.syncs, owner, request, env);
  }

  lemma AllowIsWithinTenMinutes(db: Db, syncs: map<string, SyncRecord>, owner: Ownership, request: Request, env: Ambient)
    requires Sound(db) && PoliciesFromSyncs(db, syncs, owner) && FreshTurn(db, Turn(Authorize(AgentPrincipal(request.agentId), request), env))
    requires var outcome := Step(db, Authorize(AgentPrincipal(request.agentId), request), env).1;
             outcome.Decided? && outcome.decision.verdict.Allow?
    ensures var after := Step(db, Authorize(AgentPrincipal(request.agentId), request), env).0;
            after.evidence != [] && AllowedWithin(after.evidence, request.agentId, 600_000)
  {
    hide Sound, AllowedWithin;
    var call := Authorize(AgentPrincipal(request.agentId), request);
    StepKeepsSound(db, call, env);
    NewAllowIsWithinRuntime(db, Step(db, call, env).0, request.agentId);
    assert FromSync(db.policies[request.agentId], request.agentId, syncs, owner);
  }

  // --- When a decision is carried out ---------------------------------------------------------------------

  lemma Extend(moves: seq<Move>, move: Move, owner: Ownership)
    requires After(moves, owner).Some? && Enabled(After(moves, owner).value, move, owner)
    ensures After(moves + [move], owner) == Some(Next(After(moves, owner).value, move, owner))
  {
    assert (moves + [move])[..|moves|] == moves;
  }

  /**
   * A decision the broker accepts, and has issued no capability for, is carried to its server at once if and only if its
   * tool is enabled and its server not disabled.
   */
  lemma AcceptedDecisionIsCalledExactlyWhenLive(moves: seq<Move>, owner: Ownership, decisionId: string, capabilityId: string, pid: nat, now: int)
    requires After(moves, owner).Some?
    requires CanIssue(After(moves, owner).value, decisionId, capabilityId, now) && pid !in After(moves, owner).value.flights
    ensures var w := After(moves, owner).value;
            var d := w.wiring.gate.decisions[decisionId];
            var after := After(moves + [Issue(decisionId, capabilityId, now), Redeem(pid, capabilityId, now), Reach(pid)], owner);
            && (after.Some? <==> Live(w.tools, w.servers, w.wiring.registry[d.request.tool]))
            && (after.Some? ==> |after.value.calls| == |w.calls| + 1 && after.value.calls[|w.calls|].decision == d)
  {
    hide Live, BrokerAccepts, After;
    var issue, redeem, reach := Issue(decisionId, capabilityId, now), Redeem(pid, capabilityId, now), Reach(pid);
    Extend(moves, issue, owner);
    assert moves + [issue, redeem, reach] == moves + [issue] + [redeem] + [reach];
    assert CanRedeem(After(moves + [issue], owner).value, pid, capabilityId, now);
    Extend(moves + [issue], redeem, owner);
    var checked := After(moves + [issue] + [redeem], owner).value;
    LastMoveEnabled(moves + [issue] + [redeem], reach, owner);
    if pid in checked.flights {
      Extend(moves + [issue] + [redeem], reach, owner);
    }
  }

  lemma LastMoveEnabled(moves: seq<Move>, move: Move, owner: Ownership)
    requires After(moves, owner).Some?
    ensures After(moves + [move], owner).Some? <==> Enabled(After(moves, owner).value, move, owner)
  {
    assert (moves + [move])[..|moves|] == moves;
  }

  /**
   * The broker acts on a stored decision exactly when it is an ALLOW without destination, for the action of a registered
   * tool, made under the policy last issued, which is unexpired, and the agent was never revoked.
   */
  lemma BrokerAcceptsExactlyWhen(w: Wiring, syncs: map<string, SyncRecord>, owner: Ownership, d: Decision, now: int)
    requires WiringSound(w, syncs, owner) && d.decisionId in w.gate.decisions && w.gate.decisions[d.decisionId] == d
    ensures BrokerAccepts(w, d, now) <==>
              && d.verdict.Allow? && d.request.destination == None
              && (exists toolId :: d.request.tool == "mcp." + toolId && d.request.action == "mcp." + toolId + ".execute" && d.request.tool in w.registry)
              && CurrentInHistory(w.gate.evidence, d, now)
              && forall i :: 0 <= i < |w.gate.evidence| && w.gate.evidence[i].AgentRevoked? ==> w.gate.evidence[i].agentId != d.agentId
  {
    hide CurrentInHistory, Sound, PoliciesFromSyncs, PolicyCurrent;
    CurrencyIsExact(w.gate, d, now);
    DecidedAgentIsRegistered(w.gate, d);
    if !AgentRevokedIn(w.gate, d.agentId) {
      UnrevokedInLog(w.gate, d.agentId);
    } else {
      RevokedShowsInLog(w.gate, d.agentId);
    }
    if d.request.tool in w.registry {
      var toolId := w.registry[d.request.tool].toolId;
      assert d.request.tool == "mcp." + toolId;
      forall other | d.request.tool == "mcp." + other ensures other == toolId {
        PlatformIdInjective(other, toolId);
      }
    }
  }

  lemma CurrencyIsExact(db: Db, d: Decision, now: int)
    requires Sound(db) && d.decisionId in db.decisions && db.decisions[d.decisionId] == d
    ensures PolicyCurrent(db, d, now) <==> CurrentInHistory(db.evidence, d, now)
  {
    hide Sound, PolicyCurrent, CurrentInHistory;
    if PolicyCurrent(db, d, now) {
      CurrentImpliesHistory(db, d, now);
    }
    if CurrentInHistory(db.evidence, d, now) {
      HistoryImpliesCurrent(db, d, now);
    }
  }

  lemma DecidedAgentIsRegistered(db: Db, d: Decision)
    requires Sound(db) && d.decisionId in db.decisions && db.decisions[d.decisionId] == d
    ensures d.agentId in db.agents
  {
    var j := DecisionOrigin(db.evidence, |db.evidence|, d.decisionId);
    assert Admissible(db.evidence, j);
    RegistrationStays(db.evidence, j, |db.evidence|, d.agentId);
    assert d.agentId in AuditView(db).registered;
  }

  lemma {:induction false} RegistrationStays(log: seq<Event>, j: nat, n: nat, agentId: string)
    requires j <= n <= |log| && agentId in Replay(log, j).registered
    ensures agentId in Replay(log, n).registered
  {
    hide Learn;
    if j < n {
      RegistrationStays(log, j, n - 1, agentId);
      NothingUnrevokes(Replay(log, n - 1), log[n - 1], agentId);
    }
  }

  lemma RevokedShowsInLog(db: Db, agentId: string)
    requires Sound(db) && agentId in db.agents && db.agents[agentId].revoked
    ensures exists i :: 0 <= i < |db.evidence| && db.evidence[i].AgentRevoked? && db.evidence[i].agentId == agentId
  {
    hide Legal, Replay;
    assert agentId in AuditView(db).revoked;
    var i := RevocationOrigin(db.evidence, |db.evidence|, agentId);
  }

  lemma {:induction false} RevocationOrigin(log: seq<Event>, n: nat, agentId: string) returns (i: nat)
    requires n <= |log| && agentId in Replay(log, n).revoked
    ensures i < n && log[i].AgentRevoked? && log[i].agentId == agentId
  {
    if log[n - 1].AgentRevoked? && log[n - 1].agentId == agentId {
      i := n - 1;
    } else {
      i := RevocationOrigin(log, n - 1, agentId);
    }
  }

  // --- How fresh an execution is -------------------------------------------------------------------------

  /** The capability was issued for the decision at move k, under thirty seconds before this time, and no restart came since. */
  predicate IssuedAt(moves: seq<Move>, k: nat, capabilityId: string, decisionId: string)
    requires k < |moves|
  {
    moves[k].Issue? && moves[k].capabilityId == capabilityId && moves[k].decisionId == decisionId
  }

  predicate NoRestartSince(moves: seq<Move>, k: nat) {
    forall i :: k <= i < |moves| ==> !moves[i].Restart?
  }

  ghost predicate IssuedWithin(moves: seq<Move>, c: string, capability: Capability, epoch: nat) {
    exists k: nat :: k < |moves| && IssuedAt(moves, k, c, capability.decision.decisionId) && capability.expiresAt == moves[k].now + 30_000
                     && (capability.epoch == epoch ==> NoRestartSince(moves, k))
  }

  /** The execution was checked by a redemption of a capability issued under thirty seconds before, by the same process. */
  ghost predicate FreshlyChecked(moves: seq<Move>, f: Flight) {
    exists k: nat, m: nat ::
      && k < m < |moves| && IssuedAt(moves, k, f.capabilityId, f.decision.decisionId)
      && moves[m].Redeem? && moves[m].capabilityId == f.capabilityId && moves[m].now == f.checkedAt
      && f.checkedAt < moves[k].now + 30_000 && NoRestartSince(moves[..m], k)
  }

  ghost predicate AllFresh(moves: seq<Move>, w: World) {
    && (forall c :: c in w.capabilities ==> w.capabilities[c].epoch <= w.epoch && IssuedWithin(moves, c, w.capabilities[c], w.epoch))
    && (forall p :: p in w.flights ==> FreshlyChecked(moves, w.flights[p]))
    && (forall i :: 0 <= i < |w.calls| ==> FreshlyChecked(moves, w.calls[i]))
  }

  lemma CheckedStays(moves: seq<Move>, move: Move, f: Flight)
    requires FreshlyChecked(moves, f)
    ensures FreshlyChecked(moves + [move], f)
  {
    var k: nat, m: nat :|
      && k < m < |moves| && IssuedAt(moves, k, f.capabilityId, f.decision.decisionId)
      && moves[m].Redeem? && moves[m].capabilityId == f.capabilityId && moves[m].now == f.checkedAt
      && f.checkedAt < moves[k].now + 30_000 && NoRestartSince(moves[..m], k);
    assert (moves + [move])[..m] == moves[..m];
    assert IssuedAt(moves + [move], k, f.capabilityId, f.decision.decisionId);
  }

  lemma IssuedStays(moves: seq<Move>, move: Move, c: string, capability: Capability, consumed: bool, epoch: nat)
    requires IssuedWithin(moves, c, capability, epoch) && capability.epoch <= epoch
    ensures IssuedWithin(moves + [move], c, capability.(consumed := consumed), if move.Restart? then epoch + 1 else epoch)
  {
    var k: nat :| k < |moves| && IssuedAt(moves, k, c, capability.decision.decisionId) && capability.expiresAt == moves[k].now + 30_000
                  && (capability.epoch == epoch ==> NoRestartSince(moves, k));
    assert IssuedAt(moves + [move], k, c, capability.decision.decisionId);
  }

  lemma IssuedNow(moves: seq<Move>, w: World, decisionId: string, capabilityId: string, now: int)
    requires Sound(w.wiring.gate) && CanIssue(w, decisionId, capabilityId, now)
    ensures var after := AfterIssue(w, decisionId, capabilityId, now);
            IssuedWithin(moves + [Issue(decisionId, capabilityId, now)], capabilityId, after.capabilities[capabilityId], w.epoch)
  {
    hide Sound, BrokerAccepts;
    DecisionsAreKeyed(w.wiring.gate, decisionId);
    var all := moves + [Issue(decisionId, capabilityId, now)];
    assert IssuedAt(all, |moves|, capabilityId, decisionId) && NoRestartSince(all, |moves|);
  }

  lemma CheckedNow(moves: seq<Move>, w: World, pid: nat, capabilityId: string, now: int)
    requires AllFresh(moves, w) && CanRedeem(w, pid, capabilityId, now)
    ensures FreshlyChecked(moves + [Redeem(pid, capabilityId, now)], FlightFor(w, capabilityId, now))
  {
    hide BrokerAccepts, FreshlyChecked;
    var f := FlightFor(w, capabilityId, now);
    var k: nat :| k < |moves| && IssuedAt(moves, k, capabilityId, f.decision.decisionId)
                  && w.capabilities[capabilityId].expiresAt == moves[k].now + 30_000 && NoRestartSince(moves, k);
    RedeemedNow(moves, pid, capabilityId, now, f, k);
  }

  lemma RedeemedNow(moves: seq<Move>, pid: nat, capabilityId: string, now: int, f: Flight, k: nat)
    requires k < |moves| && IssuedAt(moves, k, capabilityId, f.decision.decisionId) && now < moves[k].now + 30_000 && NoRestartSince(moves, k)
    requires f.capabilityId == capabilityId && f.checkedAt == now
    ensures FreshlyChecked(moves + [Redeem(pid, capabilityId, now)], f)
  {
    var all, m := moves + [Redeem(pid, capabilityId, now)], |moves|;
    assert all[..m] == moves && all[m] == Redeem(pid, capabilityId, now);
    assert IssuedAt(all, k, f.capabilityId, f.decision.decisionId);
  }

  lemma NextKeepsFresh(moves: seq<Move>, w: World, move: Move, owner: Ownership)
    requires AllFresh(moves, w) && Sound(w.wiring.gate) && Enabled(w, move, owner)
    ensures AllFresh(moves + [move], Next(w, move, owner))
  {
    hide Sound, IssuedWithin, FreshlyChecked, Step, Sync, BrokerAccepts, Live, Fresh;
    var after := Next(w, move, owner);
    forall f | FreshlyChecked(moves, f) ensures FreshlyChecked(moves + [move], f) {
      CheckedStays(moves, move, f);
    }
    forall c, consumed | c in w.capabilities
      ensures IssuedWithin(moves + [move], c, w.capabilities[c].(consumed := consumed), if move.Restart? then w.epoch + 1 else w.epoch)
    {
      IssuedStays(moves, move, c, w.capabilities[c], consumed, w.epoch);
    }
    assert forall c :: c in w.capabilities ==> w.capabilities[c] == w.capabilities[c].(consumed := w.capabilities[c].consumed);
    match move
    case Issue(decisionId, capabilityId, now) => IssuedNow(moves, w, decisionId, capabilityId, now);
    case Redeem(pid, capabilityId, now) => CheckedNow(moves, w, pid, capabilityId, now);
    case _ =>
  }

  /** Every MCP call of every run was checked less than thirty seconds after its capability was issued, by the same process. */
  lemma {:induction false} EveryCallIsFreshlyChecked(moves: seq<Move>, owner: Ownership)
    requires After(moves, owner).Some?
    ensures AllFresh(moves, After(moves, owner).value)
  {
    hide Next, Enabled, Inv, Sound;
    if moves != [] {
      var last := |moves| - 1;
      EveryCallIsFreshlyChecked(moves[..last], owner);
      RunsKeepInv(moves[..last], owner);
      InvHasSoundGate(After(moves[..last], owner).value, owner);
      assert moves == moves[..last] + [moves[last]];
      NextKeepsFresh(moves[..last], After(moves[..last], owner).value, moves[last], owner);
    }
  }

  lemma InvHasSoundGate(w: World, owner: Ownership)
    requires Inv(w, owner)
    ensures Sound(w.wiring.gate)
  {
  }

  // --- When disabling takes effect ------------------------------------------------------------------------

  /** No administration makes the connector's tool live again. */
  predicate KeepsDead(more: seq<Move>, c: Connector) {
    forall i :: 0 <= i < |more| && more[i].Administer? ==> !Live(more[i].tools, more[i].servers, c)
  }

  predicate Pending(w: World, f: Flight) {
    exists p :: p in w.flights && w.flights[p] == f
  }

  /** Since `w0` the connector was not live, nothing new got through it, and calls through it are executions then pending. */
  ghost predicate OnlyPendingSince(w0: World, w: World, c: Connector) {
    && !Live(w.tools, w.servers, c)
    && (forall p :: p in w.flights && w.flights[p].connector == c ==> Pending(w0, w.flights[p]))
    && w0.calls <= w.calls
    && forall i :: |w0.calls| <= i < |w.calls| && w.calls[i].connector == c ==> Pending(w0, w.calls[i])
  }

  lemma NothingNewGetsThrough(w0: World, w: World, move: Move, owner: Ownership, c: Connector)
    requires OnlyPendingSince(w0, w, c) && Enabled(w, move, owner) && KeepsDead([move], c)
    ensures OnlyPendingSince(w0, Next(w, move, owner), c)
  {
    hide Live, Step, Sync, BrokerAccepts, Pending;
    var after := Next(w, move, owner);
    match move
    case Administer(tools, servers) => assert [move][0] == move;
    case Redeem(pid, capabilityId, now) =>
      assert pid in after.flights ==> Live(w.tools, w.servers, after.flights[pid].connector);
    case _ =>
  }

  lemma {:induction false} DisabledStops(moves: seq<Move>, more: seq<Move>, owner: Ownership, c: Connector)
    requires After(moves, owner).Some? && !Live(After(moves, owner).value.tools, After(moves, owner).value.servers, c)
    requires After(moves + more, owner).Some? && KeepsDead(more, c)
    ensures OnlyPendingSince(After(moves, owner).value, After(moves + more, owner).value, c)
    decreases |more|
  {
    hide Live, Next, Enabled;
    if more == [] {
      assert moves + more == moves;
    } else {
      ConcatTake(moves, more);
      var last := |more| - 1;
      DisabledStops(moves, more[..last], owner, c);
      NothingNewGetsThrough(After(moves, owner).value, After(moves + more[..last], owner).value, more[last], owner, c);
    }
  }

  predicate CalledSince(w0: World, w: World, c: Connector) {
    exists i :: |w0.calls| <= i < |w.calls| && w.calls[i].connector == c
  }

  /**
   * Take any world in which a tool is disabled, or its server, or either is gone. While no administration brings it back,
   * it is called in some continuation if and only if an execution of it is past its live check and waits for the server
   * connection; restarts, synchronisations and new decisions make no difference.
   */
  lemma DisabledToolIsCalledExactlyWhenPending(moves: seq<Move>, owner: Ownership, c: Connector)
    requires After(moves, owner).Some? && !Live(After(moves, owner).value.tools, After(moves, owner).value.servers, c)
    ensures var w := After(moves, owner).value;
            (exists more :: KeepsDead(more, c) && After(moves + more, owner).Some? && CalledSince(w, After(moves + more, owner).value, c)) <==>
              exists p :: p in w.flights && w.flights[p].connector == c
  {
    hide Live, Next;
    var w := After(moves, owner).value;
    if p :| p in w.flights && w.flights[p].connector == c {
      PendingExecutionCalls(moves, owner, p);
      assert KeepsDead([Reach(p)], c);
    }
    forall more | KeepsDead(more, c) && After(moves + more, owner).Some? && CalledSince(w, After(moves + more, owner).value, c)
      ensures exists p :: p in w.flights && w.flights[p].connector == c
    {
      DisabledStops(moves, more, owner, c);
      var after := After(moves + more, owner).value;
      var i :| |w.calls| <= i < |after.calls| && after.calls[i].connector == c;
      assert Pending(w, after.calls[i]);
    }
  }

  lemma PendingExecutionCalls(moves: seq<Move>, owner: Ownership, p: nat)
    requires After(moves, owner).Some? && p in After(moves, owner).value.flights
    ensures var w := After(moves, owner).value;
            && After(moves + [Reach(p)], owner).Some?
            && CalledSince(w, After(moves + [Reach(p)], owner).value, w.flights[p].connector)
  {
    ConcatTake(moves, [Reach(p)]);
    assert moves + [Reach(p)][..0] == moves;
    var w, after := After(moves, owner).value, After(moves + [Reach(p)], owner).value;
    assert after.calls[|w.calls|] == w.flights[p];
  }

  /**
   * The live check is made before the wait for the server connection, and not again: a tool disabled during that wait
   * is still called.
   */
  lemma DisablingDuringConnectDoesNotStopCall(moves: seq<Move>, owner: Ownership, pid: nat)
    requires After(moves, owner).Some? && pid in After(moves, owner).value.flights
    ensures var w := After(moves, owner).value;
            var late := After(moves + [Administer([], map[]), Reach(pid)], owner);
            && late.Some? && late.value.calls == w.calls + [w.flights[pid]]
            && !Live(late.value.tools, late.value.servers, w.flights[pid].connector)
  {
    var disabled := moves + [Administer([], map[])];
    assert disabled[..|moves|] == moves;
    var all := moves + [Administer([], map[]), Reach(pid)];
    assert all[..|moves| + 1] == disabled;
  }

  // --- A registration that failed --------------------------------------------------------------------------

  /** The process takes the agent for registered, and the Gate does not know it. */
  predicate Lost(w: Wiring, agentId: string) {
    agentId in w.registeredAgents && agentId !in w.gate.agents
  }

  /** A synchronisation remembers its agent as registered even if the registration failed, for whatever reason. */
  lemma SyncLosesAgentExactlyWhen(w: Wiring, tools: seq<Tool>, tenantId: string, agentId: string, first: Ambient, second: Ambient)
    ensures Lost(Sync(w, tools, tenantId, agentId, first, second).0, agentId) <==>
              agentId !in w.gate.agents && (agentId in w.registeredAgents || !first.appendOk || !IsId(agentId))
  {
    hide WellFormed, WithTools, WithConnectors, EnvelopeFor, IsId, IsLabel;
    if IsId(agentId) {
      IdsAreLabels("", agentId);
      assert "" + agentId == agentId;
    }
  }

  lemma OthersKeepAgents(db: Db, call: Call, env: Ambient)
    requires !call.Register?
    ensures Step(db, call, env).0.agents.Keys == db.agents.Keys
  {
    hide WellFormed, Evaluate, IsRequest, IsId, IsLabel, FindRule;
  }

  lemma LostStays(w: World, move: Move, owner: Ownership, agentId: string)
    requires Enabled(w, move, owner) && !move.Restart? && Lost(w.wiring, agentId)
    ensures Lost(Next(w, move, owner).wiring, agentId)
  {
    hide Step, WithTools, WithConnectors, EnvelopeFor, Live, BrokerAccepts;
    match move
    case Synchronise(tenantId, other, first, second) => SyncKeepsLost(w.wiring, w.tools, tenantId, other, first, second, agentId);
    case AskGate(call, env) =>
      OthersKeepAgents(w.wiring.gate, call, env);
      assert agentId !in w.wiring.gate.agents.Keys;
    case _ =>
  }

  lemma SyncKeepsLost(w: Wiring, tools: seq<Tool>, tenantId: string, other: string, first: Ambient, second: Ambient, agentId: string)
    requires Lost(w, agentId)
    ensures Lost(Sync(w, tools, tenantId, other, first, second).0, agentId)
  {
    hide WellFormed, WithTools, WithConnectors, EnvelopeFor, IsId, IsLabel;
  }

  predicate NoRestart(more: seq<Move>) {
    forall i :: 0 <= i < |more| ==> !more[i].Restart?
  }

  /**
   * Once an agent is lost, no move but a restart brings it back: in every continuation without one its synchronisations are
   * refused, whatever the tools. After a restart one succeeds exactly when the tools can be issued and the evidence written.
   */
  lemma {:induction false} LostUntilRestart(moves: seq<Move>, more: seq<Move>, owner: Ownership, tenantId: string, agentId: string,
                                            first: Ambient, second: Ambient)
    requires After(moves, owner).Some? && Lost(After(moves, owner).value.wiring, agentId)
    requires After(moves + more, owner).Some? && NoRestart(more)
    ensures var w := After(moves + more, owner).value;
            var issuable := Issuable(agentId, tenantId, EnabledTools(w.tools, tenantId));
            && Lost(w.wiring, agentId)
            && Sync(w.wiring, w.tools, tenantId, agentId, first, second).1 == Failed(if issuable then 409 else MALFORMED)
            && (Sync(Restarted(w).wiring, w.tools, tenantId, agentId, first, second).1 == Done <==> issuable && first.appendOk && second.appendOk)
    decreases |more|
  {
    hide Lost, Next, Enabled, Issuable, Sync;
    if more == [] {
      assert moves + more == moves;
    } else {
      ConcatTake(moves, more);
      var last := |more| - 1;
      LostUntilRestart(moves, more[..last], owner, tenantId, agentId, first, second);
      LostStays(After(moves + more[..last], owner).value, more[last], owner, agentId);
    }
    var w := After(moves + more, owner).value;
    LostIsRefused(w.wiring, w.tools, tenantId, agentId, first, second);
  }

  lemma LostIsRefused(w: Wiring, tools: seq<Tool>, tenantId: string, agentId: string, first: Ambient, second: Ambient)
    requires Lost(w, agentId)
    ensures var issuable := Issuable(agentId, tenantId, EnabledTools(tools, tenantId));
            && Sync(w, tools, tenantId, agentId, first, second).1 == Failed(if issuable then 409 else MALFORMED)
            && (Sync(Wiring(w.gate, {}, [], map[]), tools, tenantId, agentId, first, second).1 == Done <==>
                  issuable && first.appendOk && second.appendOk)
  {
    hide Sync, WellFormed, FitSchema, CanonicalScopes, DistinctTools, IsLabel, IsId;
    var renewed := Wiring(w.gate, {}, [], map[]);
    RefusedSyncKeepsOldPolicy(w, tools, tenantId, agentId, first, second);
    PolicyFollowsToolsExactlyWhen(renewed, tools, tenantId, agentId, first, second);
    if Issuable(agentId, tenantId, EnabledTools(tools, tenantId)) {
      assert IsId(agentId) by { IssuableHasId(agentId, tenantId, EnabledTools(tools, tenantId)); }
      IdsAreLabels("", agentId);
      assert "" + agentId == agentId;
    }
  }

  lemma IssuableHasId(agentId: string, tenantId: string, tools: seq<Tool>)
    requires Issuable(agentId, tenantId, tools)
    ensures IsId(agentId)
  {
  }
}
