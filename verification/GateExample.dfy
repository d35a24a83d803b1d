/** A run in which an ALLOW leaves its agent over a limit of the policy then in force. */
module GateExample {
  import opened Text
  import opened Schema
  import opened Policy
  import opened Evidence
  import opened GateService
  import opened GateRuns
  import opened GateHistory

  function Lease(maxExternal: nat, maxRetries: nat): Envelope {
    Envelope("agent", Identity("agent", "role", "owner"), 1000, "task", ["read"], [], Permissions(["repo"], []), NO_PERMISSIONS, NO_PERMISSIONS, NO_PERMISSIONS,
             ["git"], [], ["host"], [], [], Limits(60, 10, maxExternal, 0, maxRetries), [],
             [Binding("fetch", "read", "git", Repositories, Read, false), Binding("list", "read", "git", Repositories, Read, false)], "")
  }

  function Ask(action: string, destination: Option<string>): Request {
    Request("agent", action, "git", "repo", destination, 0, None, None)
  }

  lemma LeaseBinds(maxExternal: nat, maxRetries: nat)
    ensures FindBinding(Lease(maxExternal, maxRetries).bindings, "fetch") == Some(Lease(maxExternal, maxRetries).bindings[0])
    ensures FindBinding(Lease(maxExternal, maxRetries).bindings, "list") == Some(Lease(maxExternal, maxRetries).bindings[1])
  {
    assert "fetch"[0] != "list"[0];
  }

  lemma AskAllowed(action: string, destination: Option<string>, maxExternal: nat, maxRetries: nat, usage: Usage, known: set<string>)
    requires action == "fetch" || action == "list"
    requires destination == None || (destination == Some("host") && usage.external < maxExternal)
    requires usage.startedAt == None || usage.startedAt == Some(0)
    requires usage.calls < 10 && usage.costMicros == 0 && AttemptsFor(usage, action) <= maxRetries
    ensures Evaluate(Ask(action, destination), Some(Lease(maxExternal, maxRetries)), Context(0, false, false, usage, known)) == Allow
  {
    LeaseBinds(maxExternal, maxRetries);
    assert MatchesPattern("repo", "repo", false);
    assert "repo" in Lease(maxExternal, maxRetries).repositories.read;
  }

  lemma LeaseIsShaped(maxExternal: nat, maxRetries: nat)
    requires maxExternal <= 1 && maxRetries <= 1
    ensures Shaped(Lease(maxExternal, maxRetries))
  {
    hide IsId, IsLabel, IsHost;
    WordsFit();
  }

  lemma WordsFit()
    ensures IsId("agent") && IsId("role") && IsId("owner") && IsId("task") && IsId("git") && IsId("fetch") && IsId("list")
    ensures IsLabel("agent") && IsLabel("read") && IsLabel("repo") && IsHost("host") && INPUT_TOOL != "git"
  {
    SplitPlain("host", '.');
    assert IsHostPart("host");
    assert INPUT_TOOL[0] == 'd';
  }

  lemma LeaseIsCoherent(maxExternal: nat, maxRetries: nat)
    ensures Coherent(Lease(maxExternal, maxRetries))
  {
    assert "fetch"[0] != "list"[0];
    assert Lease(maxExternal, maxRetries).files.read + Lease(maxExternal, maxRetries).files.write == [];
  }

  lemma LeaseIsWellFormed(maxExternal: nat, maxRetries: nat)
    requires maxExternal <= 1 && maxRetries <= 1
    ensures WellFormed(Lease(maxExternal, maxRetries))
  {
    hide Shaped, Coherent;
    LeaseIsShaped(maxExternal, maxRetries);
    LeaseIsCoherent(maxExternal, maxRetries);
  }

  lemma AskFits(action: string, destination: Option<string>)
    requires (action == "fetch" || action == "list") && (destination == None || destination == Some("host"))
    ensures IsRequest(Ask(action, destination))
  {
    hide IsId, IsLabel, IsHost;
    WordsFit();
  }

  function Issued(maxExternal: nat, maxRetries: nat, revision: string): Event {
    EnvelopeIssued(0, "agent", OfEnvelope(Lease(maxExternal, maxRetries)), revision, Lease(maxExternal, maxRetries))
  }

  function Granted(id: string, action: string, destination: Option<string>, maxExternal: nat, maxRetries: nat): Event {
    AuthorizationDecision(Decision(id, "agent", Allow, Some(OfEnvelope(Lease(maxExternal, maxRetries))), 0, Ask(action, destination), None))
  }

  /** Two fetches, one to a host; then the limits are lowered; then a listing, which neither lowered limit concerns. */
  function Story(): seq<Event> {
    [AgentRegistered(0, "agent"), Issued(1, 1, "p1"), Granted("d1", "fetch", Some("host"), 1, 1), Granted("d2", "fetch", None, 1, 1),
     Issued(0, 0, "p2"), Granted("d3", "list", None, 0, 0)]
  }

  /** So many fetches, one of them to a host, and nothing else. */
  predicate Counted(usage: map<string, Usage>, fetches: nat) {
    && "agent" in usage
    && var u := usage["agent"];
    && u.startedAt == Some(0) && u.calls == fetches && u.external == 1 && u.costMicros == 0
    && AttemptsFor(u, "fetch") == fetches && AttemptsFor(u, "list") == 0
  }

  predicate Knows(a: Audit, maxExternal: nat, maxRetries: nat, revision: string) {
    && a.registered == {"agent"} && a.revoked == {} && a.approvals == map[]
    && a.policies == map["agent" := IssuedPolicy(Lease(maxExternal, maxRetries), OfEnvelope(Lease(maxExternal, maxRetries)), revision)]
  }

  lemma IssueTeaches(a: Audit, maxExternal: nat, maxRetries: nat, revision: string)
    requires a.registered == {"agent"} && a.revoked == {} && a.approvals == map[] && a.policies.Keys <= {"agent"}
    ensures var after := Learn(a, Issued(maxExternal, maxRetries, revision));
            Knows(after, maxExternal, maxRetries, revision) && after.usage == a.usage
  {
    hide Lease;
  }

  lemma GrantTeaches(a: Audit, id: string, action: string, destination: Option<string>, maxExternal: nat, maxRetries: nat, revision: string)
    requires Knows(a, maxExternal, maxRetries, revision)
    ensures var after := Learn(a, Granted(id, action, destination, maxExternal, maxRetries));
            && Knows(after, maxExternal, maxRetries, revision)
            && after.usage == a.usage["agent" := Charge(UsageOf(a.usage, "agent"), Ask(action, destination), 0)]
  {
    hide Lease;
  }

  lemma StoryTables()
    ensures Replay(Story(), 1) == EMPTY_AUDIT.(registered := {"agent"})
    ensures Knows(Replay(Story(), 2), 1, 1, "p1") && Replay(Story(), 2).usage == map[]
    ensures Knows(Replay(Story(), 3), 1, 1, "p1") && Counted(Replay(Story(), 3).usage, 1)
    ensures Knows(Replay(Story(), 4), 1, 1, "p1") && Counted(Replay(Story(), 4).usage, 2)
    ensures Knows(Replay(Story(), 5), 0, 0, "p2") && Counted(Replay(Story(), 5).usage, 2)
  {
    hide Lease, Knows, Learn, Charge, Counted;
    var s := Story();
    var a := EMPTY_AUDIT.(registered := {"agent"});
    assert Replay(s, 1) == a by { FirstRecordTeaches(); }
    ReplayNext(s, 1, Issued(1, 1, "p1"));
    IssueTeaches(a, 1, 1, "p1");
    ReplayNext(s, 2, Granted("d1", "fetch", Some("host"), 1, 1));
    GrantTeaches(Replay(s, 2), "d1", "fetch", Some("host"), 1, 1, "p1");
    FetchIsCounted(map[], 0, Some("host"));
    ReplayNext(s, 3, Granted("d2", "fetch", None, 1, 1));
    GrantTeaches(Replay(s, 3), "d2", "fetch", None, 1, 1, "p1");
    FetchIsCounted(Replay(s, 3).usage, 1, None);
    ReplayNext(s, 4, Issued(0, 0, "p2"));
    KnowsAgent(Replay(s, 4), 1, 1, "p1");
    IssueTeaches(Replay(s, 4), 0, 0, "p2");
  }

  lemma ReplayNext(log: seq<Event>, n: nat, e: Event)
    requires n < |log| && log[n] == e
    ensures Replay(log, n + 1) == Learn(Replay(log, n), e)
  {
  }

  lemma FirstRecordTeaches()
    ensures Replay(Story(), 1) == EMPTY_AUDIT.(registered := {"agent"})
  {
  }

  lemma FetchIsCounted(usage: map<string, Usage>, fetches: nat, destination: Option<string>)
    requires (fetches == 0 && usage == map[] && destination == Some("host")) || (fetches == 1 && Counted(usage, 1) && destination == None)
    ensures Counted(usage["agent" := Charge(UsageOf(usage, "agent"), Ask("fetch", destination), 0)], fetches + 1)
  {
    var u := UsageOf(usage, "agent");
    assert AttemptsFor(u, "fetch") == fetches && AttemptsFor(u, "list") == 0;
    hide UsageOf;
    ChargeCountsTry(u, Ask("fetch", destination), "list");
  }

  lemma ChargeCountsTry(usage: Usage, request: Request, other: string)
    requires other != request.action
    ensures AttemptsFor(Charge(usage, request, 0), request.action) == AttemptsFor(usage, request.action) + 1
    ensures AttemptsFor(Charge(usage, request, 0), other) == AttemptsFor(usage, other)
  {
  }

  lemma KnowsAgent(a: Audit, maxExternal: nat, maxRetries: nat, revision: string)
    requires Knows(a, maxExternal, maxRetries, revision)
    ensures a.registered == {"agent"} && a.revoked == {} && a.approvals == map[] && a.policies.Keys <= {"agent"}
  {
  }

  lemma LeaseWantsNoApproval(maxExternal: nat, maxRetries: nat)
    ensures Lease(maxExternal, maxRetries).approvals == []
  {
  }

  lemma {:induction false} GrantIsLegal(log: seq<Event>, n: nat, a: Audit, id: string, action: string, destination: Option<string>,
                     maxExternal: nat, maxRetries: nat, revision: string)
    requires n < |log| && log[n] == Granted(id, action, destination, maxExternal, maxRetries) && a == Replay(log, n)
    requires Knows(a, maxExternal, maxRetries, revision) && Fresh(log, n, id)
    requires action == "fetch" || action == "list"
    requires var usage := UsageOf(a.usage, "agent");
             && (destination == None || (destination == Some("host") && usage.external < maxExternal))
             && (usage.startedAt == None || usage.startedAt == Some(0))
             && usage.calls < 10 && usage.costMicros == 0 && AttemptsFor(usage, action) <= maxRetries
    ensures Admissible(log, n)
  {
    hide IsRequest, Evaluate, Lease;
    AskFits(action, destination);
    assert Lease(maxExternal, maxRetries).approvals == [] by { LeaseWantsNoApproval(maxExternal, maxRetries); }
    AskAllowed(action, destination, maxExternal, maxRetries, UsageOf(a.usage, "agent"), {"agent"} - {});
    assert DecisionReached(a, log[n].decision);
  }

  lemma {:induction false} IssueIsLegal(log: seq<Event>, n: nat, a: Audit, maxExternal: nat, maxRetries: nat, revision: string)
    requires n < |log| && log[n] == Issued(maxExternal, maxRetries, revision)
    requires a == Replay(log, n) && a.registered == {"agent"} && a.revoked == {} && Fresh(log, n, revision)
    requires maxExternal <= 1 && maxRetries <= 1
    ensures Admissible(log, n)
  {
    hide WellFormed;
    LeaseIsWellFormed(maxExternal, maxRetries);
  }

  lemma StoryIsLegal()
    ensures Legal(Story())
  {
    hide Replay, Lease, Admissible;
    StoryTables();
    FirstRecordIsLegal();
    IssueIsLegal(Story(), 1, Replay(Story(), 1), 1, 1, "p1");
    GrantIsLegal(Story(), 2, Replay(Story(), 2), "d1", "fetch", Some("host"), 1, 1, "p1");
    GrantIsLegal(Story(), 3, Replay(Story(), 3), "d2", "fetch", None, 1, 1, "p1");
    IssueIsLegal(Story(), 4, Replay(Story(), 4), 0, 0, "p2");
    GrantIsLegal(Story(), 5, Replay(Story(), 5), "d3", "list", None, 0, 0, "p2");
    forall n | 0 <= n < |Story()| ensures Admissible(Story(), n) {
      assert n == 0 || n == 1 || n == 2 || n == 3 || n == 4 || n == 5;
    }
  }

  lemma FirstRecordIsLegal()
    ensures Admissible(Story(), 0)
  {
    WordsFit();
  }

  lemma StoryTally()
    ensures |AllowsTo(Story(), 5, "agent")| == 1 && |AllowsOf(Story(), 5, "agent", "fetch")| == 2
  {
    StoryTables();
    UsageIsTally(Story(), 5, "agent");
  }

  lemma StoryEnds()
    ensures |Story()| == 6 && Allowed(Story()[5]) && Story()[5].decision.agentId == "agent"
    ensures Story()[5].decision.request.destination == None && Story()[5].decision.request.action == "list" != "fetch"
    ensures IssuedTo(Story()[4], "agent")
    ensures Story()[4].envelope.limits.maxExternalRequests == 0 && Story()[4].envelope.limits.maxRetriesPerAction == 0
    ensures Replay(Story(), 5).policies["agent"].envelope == Story()[4].envelope
  {
    StoryTables();
    assert "fetch"[0] != "list"[0];
  }

  /** A reachable log whose last ALLOW leaves one external call on record under a policy that permits none. */
  lemma AllowCanLeaveExternalOverLimit() returns (turns: seq<Turn>)
    ensures FreshRun(turns)
    ensures var log := Final(turns).evidence;
            && |log| == 6 && Allowed(log[5]) && IssuedTo(log[4], log[5].decision.agentId)
            && |AllowsTo(log, 6, log[5].decision.agentId)| > log[4].envelope.limits.maxExternalRequests
  {
    hide Story, Replay, Legal, AllowsTo, IssuedTo;
    StoryIsLegal();
    turns := LegalLogIsRun(Story());
    StoryEnds();
    StoryTally();
    ExternalWithinLimitIff(Story(), 5);
  }

  /** The same log leaves an action tried twice under a policy that permits no retry. */
  lemma AllowCanLeaveRetriesOverLimit() returns (turns: seq<Turn>)
    ensures FreshRun(turns)
    ensures var log := Final(turns).evidence;
            && |log| == 6 && Allowed(log[5]) && IssuedTo(log[4], log[5].decision.agentId)
            && |AllowsOf(log, 6, log[5].decision.agentId, "fetch")| > 1 + log[4].envelope.limits.maxRetriesPerAction
  {
    hide Story, Replay, Legal, AllowsOf, IssuedTo;
    StoryIsLegal();
    turns := LegalLogIsRun(Story());
    StoryEnds();
    StoryTally();
    RetriesWithinLimitIff(Story(), 5, "fetch");
  }
}
