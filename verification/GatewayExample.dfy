/** A run of the gateway that ends in an MCP call. */
module GatewayExample {
  import opened Text
  import opened Schema
  import opened Policy
  import opened Evidence
  import opened GateService
  import opened GateRuns
  import opened GovernedSync
  import opened GatewayRuns

  // --- One tool, one server, one request ---------------------------------------------------------------------

  const TOOL := Tool("tenant", "x", "server", "x", [], ["/a"], true)
  const SERVERS := map[ServerKey("tenant", "server") := Reachable]
  const REQUEST := Request("agent", ActionOf("x"), PlatformId("x"), "/a", None, 0, None, None)
  const FIRST := Ambient(0, "", true)
  const SECOND := Ambient(0, "policy", true)
  const THIRD := Ambient(0, "decision", true)
  const ADMINISTER := Administer([TOOL], SERVERS)
  const SYNCHRONISE := Synchronise("tenant", "agent", FIRST, SECOND)
  const ASK := AskGate(Authorize(AgentPrincipal("agent"), REQUEST), THIRD)

  function OneOwner(): Ownership {
    _ => Owner("tenant", "server", "x")
  }

  function ToolEnvelope(): Envelope {
    EnvelopeFor("agent", "tenant", [TOOL], 0)
  }

  function ToolPolicy(): IssuedPolicy {
    IssuedPolicy(ToolEnvelope(), OfEnvelope(ToolEnvelope()), "policy")
  }

  lemma PathIsCanonical()
    ensures ValidFile("/a") && CanonicalScope("/a")
  {
    SplitPlain("a", '/');
    assert "/a"[1..] == "a";
    assert Split("/a", '/') == [""] + ["a"];
  }

  lemma ToolIsEnabled()
    ensures EnabledTools([TOOL], "tenant") == [TOOL] && FindTool([TOOL], "tenant", "x") == Some(TOOL)
  {
    assert [TOOL][..0] == [];
  }

  lemma ToolIsRead()
    ensures Patterns([TOOL], Read) == ["/a"] && Patterns([TOOL], Write) == []
  {
    assert [TOOL][..0] == [];
  }

  lemma WordsFit()
    ensures IsId("agent") && IsId("tenant") && IsId(TaskOf("tenant")) && IsId(ActionOf("x")) && IsId(PlatformId("x"))
    ensures IsLabel("agent") && IsLabel("/a") && INPUT_TOOL != PlatformId("x")
  {
    assert ActionOf("x") == "mcp.x.execute" && PlatformId("x") == "mcp.x" && TaskOf("tenant") == "client-gateway-tenant";
    assert INPUT_TOOL[0] == 'd' && PlatformId("x")[0] == 'm';
  }

  lemma ToolIsIssuable()
    ensures Issuable("agent", "tenant", [TOOL])
  {
    hide IsId, IsLabel, CanonicalScope, TaskOf, ActionOf;
    WordsFit();
    ToolIsRead();
    PathIsCanonical();
  }

  lemma RequestFits()
    ensures IsRequest(REQUEST)
  {
    hide IsId, IsLabel;
    WordsFit();
  }

  lemma ToolRequestIsAllowed(context: Context)
    requires context.now == 0 && !context.revoked && context.usage == EMPTY_USAGE
    ensures Evaluate(REQUEST, Some(ToolEnvelope()), context) == Allow
  {
    hide ValidFile, PlatformId, ActionOf;
    var e, b := ToolEnvelope(), BindingOf(TOOL);
    assert e.bindings == [b];
    assert e.toolsAllow == [b.tool];
    ToolIsRead();
    PathIsCanonical();
    assert e.files.read == ["/a"] && MatchesPattern("/a", "/a", true);
    AllowsWhenBindingGrants(REQUEST, e, context, b);
  }

  // --- The world move by move ----------------------------------------------------------------------------------

  function Administered(): World {
    START.(tools := [TOOL], servers := SERVERS)
  }

  /** The agent is registered under the tool's policy, and the tool is in the registry. */
  ghost predicate Ready(w: Wiring) {
    && w.gate.agents == map["agent" := Agent("agent", "agent", "", false)]
    && w.gate.policies == map["agent" := ToolPolicy()]
    && w.gate.usage == map[] && w.gate.approvals == map[] && w.gate.decisions == map[] && w.gate.decisionPolicies == map[]
    && w.registry == map[PlatformId("x") := ConnectorFor(TOOL, "tenant")]
  }

  function RegisteredDb(): Db {
    EMPTY_DB.(agents := map["agent" := Agent("agent", "agent", "", false)], evidence := [AgentRegistered(0, "agent")])
  }

  function IssuedDb(): Db {
    RegisteredDb().(policies := map["agent" := ToolPolicy()],
                    evidence := [AgentRegistered(0, "agent"), EnvelopeIssued(0, "agent", ToolPolicy().hash, "policy", ToolEnvelope())])
  }

  lemma AgentIsRegistered()
    ensures Step(EMPTY_DB, Register(ADMINISTRATOR, "agent", "agent", ""), FIRST).0 == RegisteredDb()
  {
    hide IsId, IsLabel;
    WordsFit();
  }

  lemma PolicyIsIssued()
    ensures Step(RegisteredDb(), SetEnvelope(ADMINISTRATOR, ToolEnvelope()), SECOND).0 == IssuedDb()
  {
    hide EnvelopeFor, WellFormed, Issuable;
    ToolLease();
    ToolIsIssuable();
    EnvelopeAcceptedExactlyWhen("agent", "tenant", [TOOL], 0);
  }

  lemma WiringIsReady()
    ensures var w := Sync(Administered().wiring, [TOOL], "tenant", "agent", FIRST, SECOND).0;
            w.gate == IssuedDb() && w.registry == map[PlatformId("x") := ConnectorFor(TOOL, "tenant")]
  {
    hide Step, EnvelopeFor, PlatformId, WithTools, WithConnectors, RegisteredDb, IssuedDb;
    AgentIsRegistered();
    PolicyIsIssued();
    ToolIsEnabled();
    ToolIsConnected();
  }

  lemma IssuedIsReady(w: Wiring)
    requires w.gate == IssuedDb() && w.registry == map[PlatformId("x") := ConnectorFor(TOOL, "tenant")]
    ensures Ready(w) && Fresh(w.gate.evidence, |w.gate.evidence|, "decision")
  {
    hide EnvelopeFor, PlatformId;
  }

  lemma ToolIsConnected()
    ensures WithConnectors([], [TOOL], "tenant") == [ConnectorFor(TOOL, "tenant")]
    ensures WithTools(map[], [ConnectorFor(TOOL, "tenant")], "tenant") == map[PlatformId("x") := ConnectorFor(TOOL, "tenant")]
  {
    assert [TOOL][..0] == [];
    assert [ConnectorFor(TOOL, "tenant")][..0] == [];
  }

  lemma ToolLease()
    ensures ToolEnvelope().expiresAt == LEASE_MS && ToolEnvelope().agentId == "agent"
  {
  }

  function Asked(w: Wiring): Wiring {
    w.(gate := Step(w.gate, Authorize(AgentPrincipal("agent"), REQUEST), THIRD).0)
  }

  lemma DecisionIsAccepted(w: Wiring)
    requires Ready(w)
    ensures var after := Asked(w);
            && "decision" in after.gate.decisions && BrokerAccepts(after, after.gate.decisions["decision"], 0)
            && after.registry == w.registry && REQUEST == after.gate.decisions["decision"].request
  {
    hide Evaluate, EnvelopeFor, PlatformId, ActionOf, IsRequest;
    assert ToolEnvelope().expiresAt == LEASE_MS by { ToolLease(); }
    RequestFits();
    var d := DecisionFor(w.gate, REQUEST, THIRD);
    ToolRequestIsAllowed(ContextOf(w.gate, "agent", false, 0));
    assert d.verdict == Allow;
  }

  lemma StartEndsIn(moves: seq<Move>)
    requires moves == [ADMINISTER, SYNCHRONISE, ASK]
    ensures After(moves, OneOwner()).Some?
    ensures var w := After(moves, OneOwner()).value;
            && CanIssue(w, "decision", "capability", 0) && w.wiring.gate.decisions["decision"].request == REQUEST && w.flights == map[] && w.calls == []
            && Live(w.tools, w.servers, w.wiring.registry[w.wiring.gate.decisions["decision"].request.tool])
  {
    hide After, Sync, Ready, BrokerAccepts, Step, IssuedDb;
    var owner := OneOwner();
    assert After([], owner) == Some(START) by { NothingHappened(owner); }
    Extend([], ADMINISTER, owner);
    assert [] + [ADMINISTER] == [ADMINISTER];
    WiringIsReady();
    Extend([ADMINISTER], SYNCHRONISE, owner);
    assert [ADMINISTER] + [SYNCHRONISE] == [ADMINISTER, SYNCHRONISE];
    var synced := After([ADMINISTER, SYNCHRONISE], owner).value;
    IssuedIsReady(synced.wiring);
    DecisionIsAccepted(synced.wiring);
    Extend([ADMINISTER, SYNCHRONISE], ASK, owner);
    assert [ADMINISTER, SYNCHRONISE] + [ASK] == moves;
    ToolIsRegistered(synced.wiring);
    ToolIsEnabled();
  }

  lemma NothingHappened(owner: Ownership)
    ensures After([], owner) == Some(START)
  {
  }

  lemma ToolIsRegistered(w: Wiring)
    requires Ready(w)
    ensures w.registry == map[PlatformId("x") := ConnectorFor(TOOL, "tenant")]
  {
  }

  /** A run in which an enabled tool of a synchronised tenant is asked for, allowed, and called. */
  lemma SomeRunCallsTool() returns (moves: seq<Move>, owner: Ownership)
    ensures After(moves, owner).Some? && |After(moves, owner).value.calls| == 1
    ensures After(moves, owner).value.calls[0].decision.request == REQUEST
  {
    hide Live, CanIssue, After;
    owner := OneOwner();
    var start := [ADMINISTER, SYNCHRONISE, ASK];
    StartEndsIn(start);
    AcceptedDecisionIsCalledExactlyWhenLive(start, owner, "decision", "capability", 0, 0);
    moves := start + [Issue("decision", "capability", 0), Redeem(0, "capability", 0), Reach(0)];
  }
}
