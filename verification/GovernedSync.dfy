/** The client gateway: policies derived from live tool state, registries that only grow, and live checks at execution. */
module GovernedSync {
  import opened Text
  import opened Schema
  import opened Paths
  import opened Policy
  import opened Evidence
  import opened GateService

  datatype Tool = Tool(tenantId: string, toolId: string, serverId: string, externalName: string,
                       allowedOperations: seq<string>, resourcePatterns: seq<string>, enabled: bool)

  datatype ServerKey = ServerKey(tenantId: string, serverId: string)

  datatype ServerStatus = Registered | Reachable | Disabled

  datatype Connector = Connector(tenantId: string, serverId: string, toolId: string, externalName: string)

  function PlatformId(toolId: string): string {
    "mcp." + toolId
  }

  function ActionOf(toolId: string): string {
    PlatformId(toolId) + ".execute"
  }

  function TaskOf(tenantId: string): string {
    "client-gateway-" + tenantId
  }

  function OperationOf(tool: Tool): Operation {
    if "write" in tool.allowedOperations then Write else Read
  }

  // --- Envelopes from enabled tools ---------------------------------------------------------------

  function EnabledTools(tools: seq<Tool>, tenantId: string): (r: seq<Tool>)
    ensures forall t :: t in r <==> t in tools && t.tenantId == tenantId && t.enabled
  {
    if tools == [] then []
    else
      var rest := EnabledTools(tools[..|tools| - 1], tenantId);
      var last := tools[|tools| - 1];
      if last.tenantId == tenantId && last.enabled then rest + [last] else rest
  }

  function BindingOf(tool: Tool): Binding {
    Binding(ActionOf(tool.toolId), "invoke " + PlatformId(tool.toolId), PlatformId(tool.toolId), Files, OperationOf(tool), false)
  }

  function Patterns(tools: seq<Tool>, operation: Operation): seq<string> {
    if tools == [] then []
    else
      var rest := Patterns(tools[..|tools| - 1], operation);
      var last := tools[|tools| - 1];
      if OperationOf(last) == operation then rest + last.resourcePatterns else rest
  }

  const LEASE_MS := 3_600_000
  const TENANT_LIMITS := Limits(600, 1000, 0, 1000_000000, 20)

  /** The envelope of a list of enabled tools, member by member. */
  function EnvelopeFor(agentId: string, tenantId: string, tools: seq<Tool>, now: int): Envelope {
    Envelope(agentId, Identity(agentId, "client-service-identity", tenantId), now + LEASE_MS, TaskOf(tenantId),
             seq(|tools|, i requires 0 <= i < |tools| => "invoke " + PlatformId(tools[i].toolId)), [],
             NO_PERMISSIONS, Permissions(Patterns(tools, Read), Patterns(tools, Write)), NO_PERMISSIONS, NO_PERMISSIONS,
             seq(|tools|, i requires 0 <= i < |tools| => PlatformId(tools[i].toolId)), [],
             [], ["*"], [], TENANT_LIMITS, [],
             seq(|tools|, i requires 0 <= i < |tools| => BindingOf(tools[i])), "client-integration")
  }

  // --- Registries -----------------------------------------------------------------------------------

  function ConnectorFor(tool: Tool, tenantId: string): Connector {
    Connector(tenantId, tool.serverId, tool.toolId, tool.externalName)
  }

  predicate HasConnector(connectors: seq<Connector>, tenantId: string, toolId: string) {
    exists c :: c in connectors && c.tenantId == tenantId && c.toolId == toolId
  }

  /** Every enabled tool of the tenant gets a connector, unless one is registered already. */
  function WithConnectors(connectors: seq<Connector>, tools: seq<Tool>, tenantId: string): seq<Connector> {
    if tools == [] then connectors
    else
      var before := WithConnectors(connectors, tools[..|tools| - 1], tenantId);
      var last := tools[|tools| - 1];
      if last.tenantId == tenantId && last.enabled && !HasConnector(before, tenantId, last.toolId)
      then before + [ConnectorFor(last, tenantId)] else before
  }

  /** Every connector of the tenant becomes a broker tool, unless one of that name is registered already. */
  function WithTools(registry: map<string, Connector>, connectors: seq<Connector>, tenantId: string): map<string, Connector> {
    if connectors == [] then registry
    else
      var before := WithTools(registry, connectors[..|connectors| - 1], tenantId);
      var last := connectors[|connectors| - 1];
      if last.tenantId == tenantId && PlatformId(last.toolId) !in before then before[PlatformId(last.toolId) := last] else before
  }

  datatype Wiring = Wiring(gate: Db, registeredAgents: set<string>, connectors: seq<Connector>, registry: map<string, Connector>)

  /** The Gate after a synchronisation registered its agent, if it had to. */
  function Joined(w: Wiring, agentId: string, first: Ambient): Db {
    if agentId in w.registeredAgents then w.gate else Step(w.gate, Register(ADMINISTRATOR, agentId, agentId, first.id), first).0
  }

  /** One synchronisation: the wiring afterwards, and whether the new envelope was issued. */
  function Sync(w: Wiring, tools: seq<Tool>, tenantId: string, agentId: string, first: Ambient, second: Ambient): (Wiring, Outcome) {
    var gate := Joined(w, agentId, first);
    var connectors := WithConnectors(w.connectors, tools, tenantId);
    var (after, outcome) := Step(gate, SetEnvelope(ADMINISTRATOR, EnvelopeFor(agentId, tenantId, EnabledTools(tools, tenantId), second.now)), second);
    (Wiring(after, w.registeredAgents + {agentId}, connectors, WithTools(w.registry, connectors, tenantId)), outcome)
  }

  /** The live checks a connector makes before it reaches for its server. */
  predicate Live(tools: seq<Tool>, servers: map<ServerKey, ServerStatus>, c: Connector) {
    && ServerKey(c.tenantId, c.serverId) in servers && servers[ServerKey(c.tenantId, c.serverId)] != Disabled
    && ToolEnabled(tools, c.tenantId, c.toolId)
  }

  /** The row of a tool, if there is one. */
  function FindTool(tools: seq<Tool>, tenantId: string, toolId: string): (r: Option<Tool>)
    ensures r.Some? ==> r.value in tools && r.value.tenantId == tenantId && r.value.toolId == toolId
  {
    if tools == [] then None
    else if tools[0].tenantId == tenantId && tools[0].toolId == toolId then Some(tools[0])
    else FindTool(tools[1..], tenantId, toolId)
  }

  predicate ToolEnabled(tools: seq<Tool>, tenantId: string, toolId: string) {
    FindTool(tools, tenantId, toolId).Some? && FindTool(tools, tenantId, toolId).value.enabled
  }

  class GovernedIntegration {
    const gate: Gate
    var registeredAgents: set<string>
    var connectors: seq<Connector>
    var registry: map<string, Connector>

    constructor (gate: Gate)
      ensures this.gate == gate && registeredAgents == {} && connectors == [] && registry == map[]
    {
      this.gate := gate;
      registeredAgents, connectors, registry := {}, [], map[];
    }

    function Contents(): Wiring
      reads this, gate
    {
      Wiring(gate.Snapshot(), registeredAgents, connectors, registry)
    }

    static method BuildTenantGateEnvelope(agentId: string, tenantId: string, enabledTools: seq<Tool>, now: int) returns (e: Envelope)
      ensures e == EnvelopeFor(agentId, tenantId, enabledTools, now)
    {
      hide PlatformId;
      var filesRead, filesWrite, allowedTools: seq<string> := [], [], [];
      var actionBindings: seq<Binding> := [];
      for i := 0 to |enabledTools|
        invariant filesRead == Patterns(enabledTools[..i], Read) && filesWrite == Patterns(enabledTools[..i], Write)
        invariant |allowedTools| == |actionBindings| == i
        invariant forall j :: 0 <= j < i ==> allowedTools[j] == PlatformId(enabledTools[j].toolId)
        invariant forall j :: 0 <= j < i ==> actionBindings[j] == BindingOf(enabledTools[j])
      {
        var tool := enabledTools[i];
        assert enabledTools[..i + 1] == enabledTools[..i] + [tool];
        var platformId := PlatformId(tool.toolId);
        if OperationOf(tool) == Write {
          filesWrite := filesWrite + tool.resourcePatterns;
        } else {
          filesRead := filesRead + tool.resourcePatterns;
        }
        allowedTools := allowedTools + [platformId];
        actionBindings := actionBindings + [Binding(platformId + ".execute", "invoke " + platformId, platformId, Files, OperationOf(tool), false)];
      }
      assert enabledTools[..|enabledTools|] == enabledTools;
      var outcomes := seq(|allowedTools|, i requires 0 <= i < |allowedTools| => "invoke " + allowedTools[i]);
      e := Envelope(agentId, Identity(agentId, "client-service-identity", tenantId), now + LEASE_MS, "client-gateway-" + tenantId,
                    outcomes, [], NO_PERMISSIONS, Permissions(filesRead, filesWrite), NO_PERMISSIONS, NO_PERMISSIONS,
                    allowedTools, [], [], ["*"], [], TENANT_LIMITS, [], actionBindings, "client-integration");
    }

    method RegisterMcpConnectors(tools: seq<Tool>, tenantId: string)
      modifies this`connectors
      ensures connectors == WithConnectors(old(connectors), tools, tenantId)
    {
      for i := 0 to |tools|
        invariant connectors == WithConnectors(old(connectors), tools[..i], tenantId)
      {
        var tool := tools[i];
        assert tools[..i + 1][..i] == tools[..i];
        if tool.tenantId == tenantId && tool.enabled {
          if !HasConnector(connectors, tenantId, tool.toolId) {
            connectors := connectors + [ConnectorFor(tool, tenantId)];
          }
        }
      }
      assert tools[..|tools|] == tools;
    }

    method BuildToolRegistry(tenantId: string)
      modifies this`registry
      ensures registry == WithTools(old(registry), connectors, tenantId)
    {
      for i := 0 to |connectors|
        invariant registry == WithTools(old(registry), connectors[..i], tenantId)
      {
        var connector := connectors[i];
        assert connectors[..i + 1][..i] == connectors[..i];
        if connector.tenantId == tenantId && PlatformId(connector.toolId) !in registry {
          registry := registry[PlatformId(connector.toolId) := connector];
        }
      }
      assert connectors[..|connectors|] == connectors;
    }

    method SyncGovernedTenant(tools: seq<Tool>, tenantId: string, agentId: string, first: Ambient, second: Ambient) returns (r: Outcome)
      requires gate.Valid()
      modifies this, gate
      ensures gate.Valid()
      ensures (Contents(), r) == Sync(old(Contents()), tools, tenantId, agentId, first, second)
    {
      if agentId !in registeredAgents {
        var ignored := gate.Register(ADMINISTRATOR, agentId, agentId, first.id, first);
        registeredAgents := registeredAgents + {agentId};
      }
      assert registeredAgents == old(registeredAgents) + {agentId};
      RegisterMcpConnectors(tools, tenantId);
      BuildToolRegistry(tenantId);
      var envelope := BuildTenantGateEnvelope(agentId, tenantId, EnabledTools(tools, tenantId), second.now);
      r := gate.SetEnvelope(ADMINISTRATOR, envelope, second);
    }

    static method CheckLive(tools: seq<Tool>, servers: map<ServerKey, ServerStatus>, c: Connector) returns (live: bool)
      ensures live == Live(tools, servers, c)
    {
      if ServerKey(c.tenantId, c.serverId) !in servers { return false; }
      if servers[ServerKey(c.tenantId, c.serverId)] == Disabled { return false; }
      var currentTool := FindTool(tools, c.tenantId, c.toolId);
      if currentTool.None? { return false; }
      live := currentTool.value.enabled;
    }
  }

  // --- What an envelope of enabled tools can and cannot do --------------------------------------------

  lemma PlatformIdInjective(a: string, b: string)
    requires PlatformId(a) == PlatformId(b)
    ensures a == b
  {
    assert a == PlatformId(a)[4..] && b == PlatformId(b)[4..];
  }

  lemma ActionInjective(a: string, b: string)
    requires ActionOf(a) == ActionOf(b)
    ensures a == b
  {
    assert |a| == |b|;
    assert PlatformId(a) == ActionOf(a)[..|a| + 4] && PlatformId(b) == ActionOf(b)[..|b| + 4];
    PlatformIdInjective(a, b);
  }

  lemma {:induction false} PatternsCollected(tools: seq<Tool>, p: string)
    ensures p in Patterns(tools, Read) + Patterns(tools, Write) <==> exists t :: t in tools && p in t.resourcePatterns
  {
    if tools != [] {
      var last := tools[|tools| - 1];
      PatternsCollected(tools[..|tools| - 1], p);
      assert forall t :: t in tools <==> t in tools[..|tools| - 1] || t == last;
    }
  }

  lemma BindingsAccepted(agentId: string, tenantId: string, tools: seq<Tool>, now: int, b: Binding)
    requires b in EnvelopeFor(agentId, tenantId, tools, now).bindings
    ensures BindingAccepted(EnvelopeFor(agentId, tenantId, tools, now), b)
  {
    var e := EnvelopeFor(agentId, tenantId, tools, now);
    var i :| 0 <= i < |tools| && e.bindings[i] == b;
    assert e.allowedOutcomes[i] == b.outcome && e.toolsAllow[i] == b.tool && b.action[0] == 'm';
  }

  predicate DistinctTools(tools: seq<Tool>) {
    forall i, j :: 0 <= i < j < |tools| ==> tools[i].toolId != tools[j].toolId
  }

  lemma DistinctToolsDistinctActions(agentId: string, tenantId: string, tools: seq<Tool>, now: int)
    ensures DistinctActions(EnvelopeFor(agentId, tenantId, tools, now).bindings) <==> DistinctTools(tools)
  {
    var bindings := EnvelopeFor(agentId, tenantId, tools, now).bindings;
    forall i, j | 0 <= i < j < |tools| ensures bindings[i].action == bindings[j].action <==> tools[i].toolId == tools[j].toolId {
      if bindings[i].action == bindings[j].action {
        ActionInjective(tools[i].toolId, tools[j].toolId);
      }
    }
  }

  predicate CanonicalScopes(tools: seq<Tool>) {
    forall t, p :: t in tools && p in t.resourcePatterns ==> CanonicalScope(p)
  }

  predicate LabelScopes(tools: seq<Tool>) {
    forall t, p :: t in tools && p in t.resourcePatterns ==> IsLabel(p)
  }

  lemma ScopesCarriedOver(agentId: string, tenantId: string, tools: seq<Tool>, now: int)
    ensures var files := EnvelopeFor(agentId, tenantId, tools, now).files;
            && ((forall p :: p in files.read + files.write ==> CanonicalScope(p)) <==> CanonicalScopes(tools))
            && ((forall p :: p in files.read + files.write ==> IsLabel(p)) <==> LabelScopes(tools))
  {
    hide CanonicalScope, IsLabel, Patterns;
    forall p
      ensures p in Patterns(tools, Read) + Patterns(tools, Write) <==> exists t :: t in tools && p in t.resourcePatterns
    {
      PatternsCollected(tools, p);
    }
  }

  predicate ToolIds(tools: seq<Tool>) {
    forall t :: t in tools ==> IsId(ActionOf(t.toolId))
  }

  lemma ToolIdShapes(tool: Tool)
    requires IsId(ActionOf(tool.toolId))
    ensures IsId(PlatformId(tool.toolId)) && IsLabel("invoke " + PlatformId(tool.toolId))
  {
    IdPrefix(PlatformId(tool.toolId), ".execute");
    IdsAreLabels("invoke ", PlatformId(tool.toolId));
  }

  lemma ToolsShapeEnvelope(agentId: string, tenantId: string, tools: seq<Tool>, now: int)
    ensures var e := EnvelopeFor(agentId, tenantId, tools, now);
            (forall b :: b in e.bindings ==> IsId(b.action)) <==> ToolIds(tools)
    ensures var e := EnvelopeFor(agentId, tenantId, tools, now);
            ToolIds(tools) ==>
              Ids(e.toolsAllow) && (forall o :: o in e.allowedOutcomes ==> IsLabel(o))
              && (forall b :: b in e.bindings ==> IsLabel(b.outcome) && IsId(b.tool))
  {
    hide IsId, IsLabel, ActionOf, PlatformId;
    var e := EnvelopeFor(agentId, tenantId, tools, now);
    forall i | 0 <= i < |tools| ensures e.bindings[i] in e.bindings && e.bindings[i].action == ActionOf(tools[i].toolId) && tools[i] in tools {
    }
    if ToolIds(tools) {
      forall t | t in tools ensures IsId(PlatformId(t.toolId)) && IsLabel("invoke " + PlatformId(t.toolId)) {
        ToolIdShapes(t);
      }
    }
  }

  lemma FixedIdsAreIds()
    ensures IsId("client-service-identity") && LimitsInRange(TENANT_LIMITS)
  {
  }

  /** The tools, for this agent and tenant, make an envelope of the right shape. */
  predicate FitSchema(agentId: string, tenantId: string, tools: seq<Tool>) {
    && IsId(agentId) && IsId(tenantId) && IsId(TaskOf(tenantId))
    && 1 <= |tools| <= LIST_MAX && ToolIds(tools)
    && |Patterns(tools, Read)| <= LIST_MAX && |Patterns(tools, Write)| <= LIST_MAX && LabelScopes(tools)
  }

  lemma ShapedExactlyWhen(agentId: string, tenantId: string, tools: seq<Tool>, now: int)
    ensures Shaped(EnvelopeFor(agentId, tenantId, tools, now)) <==> FitSchema(agentId, tenantId, tools)
  {
    hide IsId, IsLabel, IsHost, ToolIds, LabelScopes, Patterns, TaskOf, LimitsInRange;
    var e := EnvelopeFor(agentId, tenantId, tools, now);
    assert |e.bindings| == |tools| == |e.allowedOutcomes|;
    FixedIdsAreIds();
    ToolsShapeEnvelope(agentId, tenantId, tools, now);
    ScopesCarriedOver(agentId, tenantId, tools, now);
    assert IsId(agentId) ==> IsLabel(agentId) by {
      if IsId(agentId) {
        IdsAreLabels("", agentId);
        assert "" + agentId == agentId;
      }
    }
  }

  predicate Issuable(agentId: string, tenantId: string, tools: seq<Tool>) {
    FitSchema(agentId, tenantId, tools) && DistinctTools(tools) && CanonicalScopes(tools)
  }

  /**
   * The Gate accepts the envelope exactly when agent, tenant and tools have proper ids, some tool is enabled, at most a
   * thousand, all distinct, with at most a thousand scopes to read and to write, each canonical and of 1 to 512 characters.
   */
  lemma EnvelopeAcceptedExactlyWhen(agentId: string, tenantId: string, tools: seq<Tool>, now: int)
    ensures WellFormed(EnvelopeFor(agentId, tenantId, tools, now)) <==> Issuable(agentId, tenantId, tools)
  {
    hide Shaped, FitSchema, BindingAccepted, Patterns;
    forall b | b in EnvelopeFor(agentId, tenantId, tools, now).bindings {
      BindingsAccepted(agentId, tenantId, tools, now, b);
    }
    DistinctToolsDistinctActions(agentId, tenantId, tools, now);
    ScopesCarriedOver(agentId, tenantId, tools, now);
    ShapedExactlyWhen(agentId, tenantId, tools, now);
  }

  // --- What the envelope of some tools allows -----------------------------------------------------------------

  lemma {:induction false} PatternsByOperation(tools: seq<Tool>, operation: Operation, p: string)
    ensures p in Patterns(tools, operation) <==> exists u :: u in tools && p in u.resourcePatterns && OperationOf(u) == operation
  {
    if tools != [] {
      var last := tools[|tools| - 1];
      PatternsByOperation(tools[..|tools| - 1], operation, p);
      assert forall t :: t in tools <==> t in tools[..|tools| - 1] || t == last;
    }
  }

  /** Is the request for a listed tool, on a resource in a scope of some listed tool that writes or reads like it? */
  ghost predicate Offers(tools: seq<Tool>, request: Request) {
    exists t, u, p :: t in tools && u in tools && p in u.resourcePatterns && OffersBy(request, t, u, p)
  }

  ghost predicate OffersBy(request: Request, t: Tool, u: Tool, p: string) {
    && request.tool == "mcp." + t.toolId && request.action == "mcp." + t.toolId + ".execute"
    && ("write" in t.allowedOperations <==> "write" in u.allowedOperations)
    && LiesIn(request.resource, p)
  }

  lemma OffersExactlyWhenGranted(agentId: string, tenantId: string, tools: seq<Tool>, now: int, request: Request, knownAgents: set<string>)
    ensures var e := EnvelopeFor(agentId, tenantId, tools, now);
            (exists b :: b in e.bindings && GrantedBy(request, e, b, knownAgents)) <==> Offers(tools, request)
  {
    hide LiesIn, Patterns;
    var e := EnvelopeFor(agentId, tenantId, tools, now);
    forall b | b in e.bindings && GrantedBy(request, e, b, knownAgents) ensures Offers(tools, request) {
      var i :| 0 <= i < |tools| && e.bindings[i] == b;
      var p :| p in Patterns(tools, OperationOf(tools[i])) && LiesIn(request.resource, p);
      PatternsByOperation(tools, OperationOf(tools[i]), p);
      var u :| u in tools && p in u.resourcePatterns && OperationOf(u) == OperationOf(tools[i]);
      assert tools[i] in tools && OffersBy(request, tools[i], u, p);
    }
    forall t, u, p | t in tools && u in tools && p in u.resourcePatterns && OffersBy(request, t, u, p)
      ensures exists b :: b in e.bindings && GrantedBy(request, e, b, knownAgents)
    {
      var i :| 0 <= i < |tools| && tools[i] == t;
      PatternsByOperation(tools, OperationOf(t), p);
      assert e.bindings[i] in e.bindings && GrantedBy(request, e, e.bindings[i], knownAgents);
    }
  }

  /**
   * The envelope of some tools, if the schema takes it, allows a request exactly when the agent is the envelope's and not
   * revoked, the hour is not over, there is no destination, the tools offer it, and ten minutes, a thousand calls, a
   * thousand dollars and twenty retries leave room.
   */
  lemma ToolsAllowExactlyWhen(request: Request, agentId: string, tenantId: string, tools: seq<Tool>, now: int, context: Context)
    requires WellFormed(EnvelopeFor(agentId, tenantId, tools, now))
    ensures Evaluate(request, Some(EnvelopeFor(agentId, tenantId, tools, now)), context) == Allow <==>
              && !context.revoked && request.agentId == agentId && context.now < now + 3_600_000
              && request.destination == None && Offers(tools, request)
              && (context.usage.startedAt.Some? ==> context.now < context.usage.startedAt.value + 600_000)
              && context.usage.calls < 1000 && context.usage.costMicros + request.costMicros <= 1_000_000_000
              && AttemptsFor(context.usage, request.action) <= 20
  {
    hide Evaluate, WellFormed, Offers, GrantedBy;
    AllowsExactlyWhenGranted(request, EnvelopeFor(agentId, tenantId, tools, now), context);
    OffersExactlyWhenGranted(agentId, tenantId, tools, now, request, context.knownAgents);
  }

  // --- What a synchronisation registers ------------------------------------------------------------------------

  predicate Enables(tools: seq<Tool>, tenantId: string, toolId: string) {
    exists t :: t in tools && t.tenantId == tenantId && t.toolId == toolId && t.enabled
  }

  /** The connectors there stay first, and those added are exactly for the enabled tools of the tenant that had none. */
  lemma {:induction false} ConnectorsAreAddedExactly(connectors: seq<Connector>, tools: seq<Tool>, tenantId: string, toolId: string)
    ensures connectors <= WithConnectors(connectors, tools, tenantId)
    ensures HasConnector(WithConnectors(connectors, tools, tenantId), tenantId, toolId) <==>
              HasConnector(connectors, tenantId, toolId) || Enables(tools, tenantId, toolId)
  {
    if tools != [] {
      var last := tools[|tools| - 1];
      ConnectorsAreAddedExactly(connectors, tools[..|tools| - 1], tenantId, toolId);
      assert forall t :: t in tools <==> t in tools[..|tools| - 1] || t == last;
    }
  }

  /** Names there keep their tool, and those added are exactly the tenant's connectors that had none. */
  lemma {:induction false} ToolsAreAddedExactly(registry: map<string, Connector>, connectors: seq<Connector>, tenantId: string, name: string)
    ensures var after := WithTools(registry, connectors, tenantId);
            && (name in after <==> name in registry || exists c :: c in connectors && c.tenantId == tenantId && name == PlatformId(c.toolId))
            && (name in registry ==> after[name] == registry[name])
  {
    if connectors != [] {
      var last := connectors[|connectors| - 1];
      ToolsAreAddedExactly(registry, connectors[..|connectors| - 1], tenantId, name);
      assert forall c :: c in connectors <==> c in connectors[..|connectors| - 1] || c == last;
    }
  }

  /**
   * After a synchronisation a tool id is in the broker's registry exactly when it was, or the tenant had a connector for it,
   * or the tool is enabled now; tools registered before are the same.
   */
  lemma SyncRegistersExactly(w: Wiring, tools: seq<Tool>, tenantId: string, agentId: string, first: Ambient, second: Ambient, toolId: string)
    ensures var registry := Sync(w, tools, tenantId, agentId, first, second).0.registry;
            && ("mcp." + toolId in registry <==>
                  "mcp." + toolId in w.registry || HasConnector(w.connectors, tenantId, toolId) || Enables(tools, tenantId, toolId))
            && (forall name :: name in w.registry ==> name in registry && registry[name] == w.registry[name])
  {
    hide Step, WithTools, WithConnectors, EnvelopeFor, Enables;
    var connectors := WithConnectors(w.connectors, tools, tenantId);
    ConnectorsAreAddedExactly(w.connectors, tools, tenantId, toolId);
    forall name | name in w.registry
      ensures name in WithTools(w.registry, connectors, tenantId) && WithTools(w.registry, connectors, tenantId)[name] == w.registry[name]
    {
      ToolsAreAddedExactly(w.registry, connectors, tenantId, name);
    }
    ToolsAreAddedExactly(w.registry, connectors, tenantId, PlatformId(toolId));
    forall c | c in connectors && PlatformId(c.toolId) == PlatformId(toolId) ensures c.toolId == toolId {
      PlatformIdInjective(c.toolId, toolId);
    }
  }

  /** A scope one character too long is canonical, and yet keeps a synchronisation from taking effect. */
  lemma LongScopeIsRefused(agentId: string, tenantId: string, tool: Tool, now: int)
    requires tool.resourcePatterns == ["/" + seq(LABEL_MAX, _ => 'a')]
    ensures CanonicalScopes([tool]) && !Issuable(agentId, tenantId, [tool])
    ensures !WellFormed(EnvelopeFor(agentId, tenantId, [tool], now))
  {
    hide Coherent, Shaped;
    var name := seq(LABEL_MAX, _ => 'a');
    var scope := "/" + name;
    SplitPlain(name, '/');
    assert scope[1..] == name;
    assert Split(scope, '/') == [""] + [name];
    assert |scope| == LABEL_MAX + 1;
    assert !IsTree(scope) by { assert scope[|scope| - 1] == 'a'; }
    assert CanonicalScope(scope);
    assert tool in [tool] && scope in tool.resourcePatterns && !IsLabel(scope);
    EnvelopeAcceptedExactlyWhen(agentId, tenantId, [tool], now);
  }

  /**
   * A synchronisation makes the agent's policy follow the tools enabled now if and only if those can be issued, the agent
   * is known and not revoked, and the evidence can be written. Otherwise every policy stays in force as it was, tools since
   * disabled included.
   */
  lemma PolicyFollowsToolsExactlyWhen(w: Wiring, tools: seq<Tool>, tenantId: string, agentId: string, first: Ambient, second: Ambient)
    ensures var (after, outcome) := Sync(w, tools, tenantId, agentId, first, second);
            var enabled := EnabledTools(tools, tenantId);
            var envelope := EnvelopeFor(agentId, tenantId, enabled, second.now);
            && (outcome == Done <==> Issuable(agentId, tenantId, enabled) && !AgentRevokedIn(Joined(w, agentId, first), agentId) && second.appendOk)
            && after.gate.policies == if outcome == Done
                                      then w.gate.policies[agentId := IssuedPolicy(envelope, OfEnvelope(envelope), second.id)]
                                      else w.gate.policies
  {
    hide WellFormed, Issuable, Patterns;
    EnvelopeAcceptedExactlyWhen(agentId, tenantId, EnabledTools(tools, tenantId), second.now);
    assert Joined(w, agentId, first).policies == w.gate.policies;
  }

  /** How a synchronisation is refused: by the schema for its tools or ids, 409 for its agent, 500 for the evidence. */
  lemma RefusedSyncKeepsOldPolicy(w: Wiring, tools: seq<Tool>, tenantId: string, agentId: string, first: Ambient, second: Ambient)
    ensures var (after, outcome) := Sync(w, tools, tenantId, agentId, first, second);
            && (outcome == Failed(MALFORMED) <==> !Issuable(agentId, tenantId, EnabledTools(tools, tenantId)))
            && (outcome == Failed(409) <==> Issuable(agentId, tenantId, EnabledTools(tools, tenantId)) && AgentRevokedIn(Joined(w, agentId, first), agentId))
            && (outcome.Failed? ==> after.gate.policies == w.gate.policies)
  {
    hide WellFormed, Issuable, Patterns;
    EnvelopeAcceptedExactlyWhen(agentId, tenantId, EnabledTools(tools, tenantId), second.now);
    assert Joined(w, agentId, first).policies == w.gate.policies;
  }
}
