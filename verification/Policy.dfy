/** Authority envelopes, authorization requests and the policy engine that judges one against the other. */
module Policy {
  import opened Text
  import opened Schema
  import opened Paths

  datatype Option<+T> = None | Some(value: T)

  datatype ResourceKind = Repositories | Files | Databases | Infrastructure | Secrets | Agents

  datatype Operation = Read | Write | Access | Communicate

  datatype Binding = Binding(action: string, outcome: string, tool: string,
                             kind: ResourceKind, operation: Operation, destinationRequired: bool)

  datatype Rule = Rule(action: string, approverRole: string)

  // Money is counted in whole micro-dollars: the schemas accept no finer amount.
  datatype Limits = Limits(maxRuntimeSeconds: nat, maxToolCalls: nat, maxExternalRequests: nat,
                           maxCostMicros: nat, maxRetriesPerAction: nat)

  datatype Permissions = Permissions(read: seq<string>, write: seq<string>)

  const NO_PERMISSIONS := Permissions([], [])

  // How an agent introduces itself; only a restarting service compares it.
  datatype Identity = Identity(name: string, role: string, owner: string)

  // `other` stands for the members that no rule reads and whose shape is not checked here; they take part in the digest.
  datatype Envelope = Envelope(
    agentId: string, identity: Identity, expiresAt: int, taskId: string,
    allowedOutcomes: seq<string>, forbiddenOutcomes: seq<string>,
    repositories: Permissions, files: Permissions, databases: Permissions, infrastructure: Permissions,
    toolsAllow: seq<string>, toolsDeny: seq<string>,
    networkAllow: seq<string>, networkDeny: seq<string>,
    communicateWith: seq<string>,
    limits: Limits, approvals: seq<Rule>, bindings: seq<Binding>, other: string)

  // `input` is the release named by the input of the one tool whose input is bound to the request.
  datatype Request = Request(agentId: string, action: string, tool: string, resource: string,
                             destination: Option<string>, costMicros: nat,
                             approvalId: Option<string>, input: Option<string>)

  datatype Usage = Usage(startedAt: Option<int>, calls: nat, external: nat, costMicros: nat,
                         attempts: map<string, nat>)

  datatype Context = Context(now: int, revoked: bool, approvalValid: bool, usage: Usage, knownAgents: set<string>)

  datatype Verdict = Allow | Block(reason: string) | Hold(reason: string)

  const EMPTY_USAGE := Usage(None, 0, 0, 0, map[])

  const INPUT_TOOL := "demo.deploy.execute"

  /** Does the request satisfy the request schema, the input of the one tool that takes one included? */
  predicate IsRequest(r: Request) {
    && IsId(r.agentId) && IsId(r.action) && IsId(r.tool) && IsLabel(r.resource)
    && (r.destination.Some? ==> IsHost(r.destination.value))
    && r.costMicros <= MONEY_MAX
    && (r.approvalId.Some? ==> IsId(r.approvalId.value))
    && (r.input.Some? <==> r.tool == INPUT_TOOL) && (r.input.Some? ==> IsRelease(r.input.value))
  }

  function AttemptsFor(usage: Usage, action: string): nat {
    if action in usage.attempts then usage.attempts[action] else 0
  }

  /** The first binding for an action. */
  function FindBinding(bindings: seq<Binding>, action: string): (r: Option<Binding>)
    ensures r.Some? ==> r.value in bindings && r.value.action == action
    ensures r.None? ==> forall b :: b in bindings ==> b.action != action
  {
    if bindings == [] then None
    else if bindings[0].action == action then Some(bindings[0])
    else FindBinding(bindings[1..], action)
  }

  /** The first approval rule for an action. */
  function FindRule(rules: seq<Rule>, action: string): (r: Option<Rule>)
    ensures r.Some? ==> r.value in rules && r.value.action == action
    ensures r.None? ==> forall x :: x in rules ==> x.action != action
  {
    if rules == [] then None
    else if rules[0].action == action then Some(rules[0])
    else FindRule(rules[1..], action)
  }

  /** A canonical absolute POSIX path. */
  predicate ValidFile(path: string) {
    && path != "" && path[0] == '/'
    && (forall c :: c in path ==> c != '\\' && c != '%' && c != '*' && c as int >= 32 && c as int != 127)
    && (forall part :: part in Split(path, '/')[1..] ==> part != "" && part != "." && part != "..")
  }

  predicate IsTree(pattern: string) {
    |pattern| >= 3 && pattern[|pattern| - 3..] == "/**"
  }

  /** A file pattern ending in slash-star-star covers the whole tree below it; any other pattern covers itself. */
  predicate MatchesPattern(resource: string, pattern: string, files: bool) {
    if files && IsTree(pattern) then pattern[..|pattern| - 2] <= resource else resource == pattern
  }

  predicate MatchesResource(resource: string, patterns: seq<string>, files: bool) {
    && (files ==> ValidFile(resource))
    && exists pattern :: pattern in patterns && MatchesPattern(resource, pattern, files)
  }

  function PermissionsFor(e: Envelope, kind: ResourceKind): Permissions
    requires !kind.Secrets? && !kind.Agents?
  {
    match kind
    case Repositories => e.repositories
    case Files => e.files
    case Databases => e.databases
    case Infrastructure => e.infrastructure
  }

  predicate DistinctActions(bindings: seq<Binding>) {
    forall i, j :: 0 <= i < j < |bindings| ==> bindings[i].action != bindings[j].action
  }

  predicate BindingAccepted(e: Envelope, b: Binding) {
    && (match b.kind
        case Secrets => b.operation == Access
        case Agents => b.operation == Communicate
        case _ => b.operation == Read || b.operation == Write)
    && b.outcome in e.allowedOutcomes && b.outcome !in e.forbiddenOutcomes
    && b.tool in e.toolsAllow && b.tool !in e.toolsDeny
    && !("envelope." <= b.action) && !("agent.register" <= b.action)
  }

  predicate CanonicalScope(pattern: string) {
    ValidFile(if IsTree(pattern) then pattern[..|pattern| - 3] else pattern)
  }

  const LIST_MAX := 1000

  predicate Labels(labels: seq<string>) {
    |labels| <= LIST_MAX && forall l :: l in labels ==> IsLabel(l)
  }

  predicate Listed(p: Permissions) {
    Labels(p.read) && Labels(p.write)
  }

  predicate Ids(ids: seq<string>) {
    forall id :: id in ids ==> IsId(id)
  }

  predicate LimitsInRange(limits: Limits) {
    && 1 <= limits.maxRuntimeSeconds <= RUNTIME_MAX && 1 <= limits.maxToolCalls <= SAFE_MAX
    && limits.maxExternalRequests <= SAFE_MAX && limits.maxCostMicros <= MONEY_MAX && limits.maxRetriesPerAction <= SAFE_MAX
  }

  /** The shape of each member by itself. */
  predicate Shaped(e: Envelope) {
    && IsId(e.agentId) && IsLabel(e.identity.name) && IsId(e.identity.role) && IsId(e.identity.owner) && IsId(e.taskId)
    && Labels(e.allowedOutcomes) && Labels(e.forbiddenOutcomes) && e.allowedOutcomes != []
    && Listed(e.repositories) && Listed(e.files) && Listed(e.databases) && Listed(e.infrastructure)
    && Ids(e.toolsAllow) && Ids(e.toolsDeny) && Ids(e.communicateWith)
    && (forall h :: h in e.networkAllow ==> IsHost(h)) && (forall h :: h in e.networkDeny ==> IsHost(h) || h == "*")
    && LimitsInRange(e.limits)
    && (forall r :: r in e.approvals ==> IsId(r.action) && IsId(r.approverRole))
    && 1 <= |e.bindings| <= LIST_MAX
    && (forall b :: b in e.bindings ==> IsId(b.action) && IsLabel(b.outcome) && IsId(b.tool))
  }

  /** What the members must satisfy together. */
  predicate Coherent(e: Envelope) {
    && DistinctActions(e.bindings)
    && (forall b :: b in e.bindings ==> BindingAccepted(e, b))
    && (forall r :: r in e.approvals ==> FindBinding(e.bindings, r.action).Some?)
    && (forall i, j :: 0 <= i < j < |e.approvals| ==> e.approvals[i].action != e.approvals[j].action)
    && (forall p :: p in e.files.read + e.files.write ==> CanonicalScope(p))
  }

  /** What the envelope schema demands before an envelope can be issued at all. */
  predicate WellFormed(e: Envelope) {
    Shaped(e) && Coherent(e)
  }

  /** The resource half of the judgement: None when the resource is granted, otherwise why not. */
  function ResourceObjection(request: Request, e: Envelope, binding: Binding, knownAgents: set<string>): Option<string> {
    match binding.kind
    case Secrets => Some("Secret access requires an ephemeral credential broker (not enabled in v0.1)")
    case Agents =>
      if request.resource !in knownAgents || request.resource !in e.communicateWith
      then Some("Unauthorized agent communication") else None
    case kind =>
      if binding.operation != Read && binding.operation != Write then Some("Invalid resource operation")
      else
        var permissions := PermissionsFor(e, kind);
        if MatchesResource(request.resource, if binding.operation == Read then permissions.read else permissions.write, kind == Files)
        then None else Some("Undeclared resource or operation")
  }

  /** The limit half of the judgement, against lifetime usage. */
  function LimitObjection(request: Request, limits: Limits, usage: Usage, now: int): Option<Verdict> {
    if usage.startedAt.Some? && now - usage.startedAt.value >= limits.maxRuntimeSeconds * 1000 then Some(Block("Runtime limit exceeded"))
    else if usage.calls >= limits.maxToolCalls then Some(Block("Tool-call limit exceeded"))
    else if request.destination.Some? && usage.external >= limits.maxExternalRequests then Some(Block("External-request limit exceeded"))
    else if usage.costMicros + request.costMicros > limits.maxCostMicros then Some(Hold("Cost limit exceeded"))
    else if AttemptsFor(usage, request.action) >= 1 + limits.maxRetriesPerAction then Some(Block("Retry limit exceeded"))
    else None
  }

  function NetworkObjection(request: Request, e: Envelope, binding: Binding): Option<string> {
    if binding.destinationRequired && request.destination.None? then Some("Destination is required for this action")
    else if request.destination.Some? &&
            (request.destination.value !in e.networkAllow ||
             (request.destination.value in e.networkDeny && request.destination.value != "*"))
    then Some("Unauthorized network destination")
    else None
  }

  function Evaluate(request: Request, envelope: Option<Envelope>, context: Context): Verdict {
    if context.revoked then Block("Agent has been revoked")
    else if envelope.None? then Block("No authority envelope")
    else
      var e := envelope.value;
      var binding := FindBinding(e.bindings, request.action);
      if e.agentId != request.agentId then Block("Agent identity mismatch")
      else if e.expiresAt <= context.now then Block("Envelope expired")
      else if binding.None? then Block("Action is outside the stated objective")
      else if binding.value.tool != request.tool || request.tool !in e.toolsAllow || request.tool in e.toolsDeny
      then Block("Tool " + request.tool + " is not permitted")
      else
        match ResourceObjection(request, e, binding.value, context.knownAgents)
        case Some(reason) => Block(reason)
        case None =>
          match NetworkObjection(request, e, binding.value)
          case Some(reason) => Block(reason)
          case None =>
            match LimitObjection(request, e.limits, context.usage, context.now)
            case Some(verdict) => verdict
            case None =>
              if FindRule(e.approvals, request.action).Some? && !context.approvalValid
              then Hold("Valid approval required")
              else Allow
  }

  /** Usage after one more allowed request. */
  function Charge(usage: Usage, request: Request, now: int): Usage {
    Usage(
      if usage.startedAt.Some? then usage.startedAt else Some(now),
      usage.calls + 1,
      usage.external + (if request.destination.Some? then 1 else 0),
      usage.costMicros + request.costMicros,
      usage.attempts[request.action := AttemptsFor(usage, request.action) + 1])
  }

  // --- What the engine's answer means ---------------------------------------------------------

  lemma {:induction false} BindingIsUnique(bindings: seq<Binding>, b: Binding)
    requires b in bindings && DistinctActions(bindings)
    ensures FindBinding(bindings, b.action) == Some(b)
  {
    if bindings[0] != b {
      BindingIsUnique(bindings[1..], b);
    }
  }

  /** The resources a binding covers, in the envelope's own terms. */
  predicate Covers(e: Envelope, b: Binding, resource: string, knownAgents: set<string>) {
    match b.kind
    case Secrets => false
    case Agents => resource in knownAgents && resource in e.communicateWith
    case Repositories => CoversBy(e.repositories, b, resource)
    case Databases => CoversBy(e.databases, b, resource)
    case Infrastructure => CoversBy(e.infrastructure, b, resource)
    case Files => CoversBy(e.files, b, resource)
  }

  predicate CoversBy(granted: Permissions, b: Binding, resource: string) {
    || (b.operation == Read && MatchesResource(resource, granted.read, b.kind == Files))
    || (b.operation == Write && MatchesResource(resource, granted.write, b.kind == Files))
  }

  predicate WithinLifetime(request: Request, limits: Limits, usage: Usage, now: int) {
    && (usage.startedAt.Some? ==> now < usage.startedAt.value + limits.maxRuntimeSeconds * 1000)
    && usage.calls + 1 <= limits.maxToolCalls
    && (request.destination.Some? ==> usage.external + 1 <= limits.maxExternalRequests)
    && usage.costMicros + request.costMicros <= limits.maxCostMicros
    && AttemptsFor(usage, request.action) <= limits.maxRetriesPerAction
  }

  predicate Reaches(request: Request, e: Envelope) {
    request.destination.Some? ==>
      request.destination.value in e.networkAllow && (request.destination.value in e.networkDeny ==> request.destination.value == "*")
  }

  predicate CoveredBy(request: Request, e: Envelope, b: Binding, knownAgents: set<string>) {
    && b.action == request.action && b.tool == request.tool
    && Covers(e, b, request.resource, knownAgents)
    && (b.destinationRequired ==> request.destination.Some?)
  }

  lemma AllowsWhenBindingGrants(request: Request, e: Envelope, context: Context, b: Binding)
    requires FindBinding(e.bindings, request.action) == Some(b)
    requires b.tool in e.toolsAllow && b.tool !in e.toolsDeny
    ensures Evaluate(request, Some(e), context) == Allow <==>
              && !context.revoked && e.agentId == request.agentId && context.now < e.expiresAt
              && CoveredBy(request, e, b, context.knownAgents)
              && Reaches(request, e)
              && WithinLifetime(request, e.limits, context.usage, context.now)
              && (FindRule(e.approvals, request.action).Some? ==> context.approvalValid)
  {
    assert ResourceObjection(request, e, b, context.knownAgents).None? <==> Covers(e, b, request.resource, context.knownAgents);
    assert NetworkObjection(request, e, b).None? <==> Reaches(request, e) && (b.destinationRequired ==> request.destination.Some?);
    assert LimitObjection(request, e.limits, context.usage, context.now).None? <==> WithinLifetime(request, e.limits, context.usage, context.now);
  }

  // --- Files: scopes and what lies in them -------------------------------------------------------------------

  lemma ValidFileExactlyWhen(path: string)
    ensures ValidFile(path) <==> exists r: seq<string> :: Proper(r) && path == Path(r)
  {
    if ValidFile(path) {
      var r := Split(path, '/')[1..];
      PartsAreSegments(path);
      JoinedSplit(path[1..]);
      assert path == "" + ['/'] + path[1..];
      SplitAtSeparator("", path[1..], '/');
      assert Proper(r) && path == Path(r);
    }
    forall r: seq<string> | Proper(r) && path == Path(r) ensures ValidFile(path) {
      SplitPath(r);
      forall c | c in path ensures c == '/' || Plain(c) {
        PathHasPlainCharacters(r, c);
      }
      assert forall part :: part in r ==> Segment(part);
      assert Split(path, '/')[1..] == r;
    }
  }

  lemma PartsAreSegments(path: string)
    requires ValidFile(path)
    ensures Segments(Split(path, '/')[1..]) && |Split(path, '/')| > 1
  {
    assert path == "" + ['/'] + path[1..];
    SplitAtSeparator("", path[1..], '/');
    forall part | part in Split(path, '/')[1..] ensures Segment(part) {
      SplitParts(path, part);
    }
  }

  lemma ScopeExactlyWhen(scope: string)
    ensures CanonicalScope(scope) <==> exists s: seq<string> :: Proper(s) && (scope == Path(s) || scope == Path(s) + "/**")
  {
    var base := if IsTree(scope) then scope[..|scope| - 3] else scope;
    ValidFileExactlyWhen(base);
    if CanonicalScope(scope) {
      var s: seq<string> :| Proper(s) && base == Path(s);
      assert IsTree(scope) ==> scope == Path(s) + "/**";
    }
    forall s: seq<string> | Proper(s) && (scope == Path(s) || scope == Path(s) + "/**") ensures base == Path(s) {
      PathIsNoTree(s);
    }
  }

  lemma PathIsNoTree(s: seq<string>)
    requires Proper(s)
    ensures !IsTree(Path(s)) && IsTree(Path(s) + "/**") && (Path(s) + "/**")[..|Path(s)| + 1] == Path(s) + "/"
    ensures (Path(s) + "/**")[..|Path(s)|] == Path(s)
  {
    if IsTree(Path(s)) {
      var last := Path(s)[|Path(s)| - 1];
      assert Path(s)[|Path(s)| - 3..][2] == '*';
      PathHasPlainCharacters(s, last);
    }
  }

  /** One scope: a path matches itself, a tree matches what lies strictly below it, segment by segment. */
  lemma MatchesExactlyWhenLiesIn(resource: string, scope: string)
    requires CanonicalScope(scope)
    ensures ValidFile(resource) && MatchesPattern(resource, scope, true) <==> LiesIn(resource, scope)
  {
    hide ValidFile, CanonicalScope, Segments, Path;
    ValidFileExactlyWhen(resource);
    ScopeExactlyWhen(scope);
    var s: seq<string> :| Proper(s) && (scope == Path(s) || scope == Path(s) + "/**");
    PathIsNoTree(s);
    if ValidFile(resource) && MatchesPattern(resource, scope, true) {
      var r: seq<string> :| Proper(r) && resource == Path(r);
      BelowExactlyWhen(s, r);
      if scope == Path(s) {
        PathIsInjective(r, s);
      }
    }
    forall r: seq<string>, s': seq<string> | Proper(r) && Proper(s') && resource == Path(r)
        && ((scope == Path(s') && r == s') || (scope == Path(s') + "/**" && s' < r))
      ensures ValidFile(resource) && MatchesPattern(resource, scope, true)
    {
      PathIsNoTree(s');
      BelowExactlyWhen(s', r);
    }
  }

  /** A file request is covered by canonical scopes exactly when it lies in one of them. */
  lemma FileIsCoveredExactlyWhen(resource: string, scopes: seq<string>)
    requires forall p :: p in scopes ==> CanonicalScope(p)
    ensures MatchesResource(resource, scopes, true) <==> exists p :: p in scopes && LiesIn(resource, p)
  {
    forall p | p in scopes ensures ValidFile(resource) && MatchesPattern(resource, p, true) <==> LiesIn(resource, p) {
      MatchesExactlyWhenLiesIn(resource, p);
    }
  }

  /** What a binding opens: the listed names of its kind or, for files, what lies in a listed scope. */
  ghost predicate OpenedBy(e: Envelope, b: Binding, resource: string, knownAgents: set<string>) {
    match b.kind
    case Secrets => false
    case Agents => resource in knownAgents && resource in e.communicateWith
    case Repositories => resource in if b.operation == Read then e.repositories.read else e.repositories.write
    case Databases => resource in if b.operation == Read then e.databases.read else e.databases.write
    case Infrastructure => resource in if b.operation == Read then e.infrastructure.read else e.infrastructure.write
    case Files => exists p :: p in (if b.operation == Read then e.files.read else e.files.write) && LiesIn(resource, p)
  }

  lemma CoversExactlyWhenOpened(e: Envelope, b: Binding, resource: string, knownAgents: set<string>)
    requires Coherent(e) && b in e.bindings
    ensures Covers(e, b, resource, knownAgents) <==> OpenedBy(e, b, resource, knownAgents)
  {
    hide CanonicalScope, LiesIn, ValidFile, FindBinding;
    assert BindingAccepted(e, b);
    forall p | p in e.files.read || p in e.files.write ensures CanonicalScope(p) {
      assert p in e.files.read + e.files.write;
    }
    if b.kind == Files {
      FileIsCoveredExactlyWhen(resource, e.files.read);
      FileIsCoveredExactlyWhen(resource, e.files.write);
    } else {
      hide IsTree;
    }
  }

  ghost predicate GrantedBy(request: Request, e: Envelope, b: Binding, knownAgents: set<string>) {
    && b.action == request.action && b.tool == request.tool
    && OpenedBy(e, b, request.resource, knownAgents)
    && (b.destinationRequired ==> request.destination.Some?)
  }

  /** An envelope the schema accepts allows a request exactly when one of its bindings grants it on every count. */
  lemma AllowsExactlyWhenGranted(request: Request, e: Envelope, context: Context)
    requires WellFormed(e)
    ensures Evaluate(request, Some(e), context) == Allow <==>
              && !context.revoked && e.agentId == request.agentId && context.now < e.expiresAt
              && (exists b :: b in e.bindings && GrantedBy(request, e, b, context.knownAgents))
              && Reaches(request, e)
              && WithinLifetime(request, e.limits, context.usage, context.now)
              && ((exists r :: r in e.approvals && r.action == request.action) ==> context.approvalValid)
  {
    hide Evaluate, Covers, OpenedBy, Shaped, Reaches, WithinLifetime;
    var found := FindBinding(e.bindings, request.action);
    forall b | b in e.bindings && GrantedBy(request, e, b, context.knownAgents) ensures found == Some(b) {
      BindingIsUnique(e.bindings, b);
    }
    if found.Some? {
      assert BindingAccepted(e, found.value);
      CoversExactlyWhenOpened(e, found.value, request.resource, context.knownAgents);
      AllowsWhenBindingGrants(request, e, context, found.value);
    } else {
      UnboundIsRefused(request, e, context);
    }
  }

  lemma UnboundIsRefused(request: Request, e: Envelope, context: Context)
    requires FindBinding(e.bindings, request.action).None?
    ensures Evaluate(request, Some(e), context) != Allow
  {
  }

  /** All but money, retries and approvals. */
  ghost predicate Grantable(request: Request, e: Envelope, context: Context) {
    && !context.revoked && e.agentId == request.agentId && context.now < e.expiresAt
    && (exists b :: b in e.bindings && GrantedBy(request, e, b, context.knownAgents))
    && Reaches(request, e)
    && (context.usage.startedAt.Some? ==> context.now < context.usage.startedAt.value + e.limits.maxRuntimeSeconds * 1000)
    && context.usage.calls + 1 <= e.limits.maxToolCalls
    && (request.destination.Some? ==> context.usage.external + 1 <= e.limits.maxExternalRequests)
  }

  /**
   * A request is held, rather than blocked, exactly when all that a human could not settle is in order and either it would
   * cost too much or, retries permitting, the approval it wants is missing.
   */
  lemma HoldsExactlyWhen(request: Request, e: Envelope, context: Context)
    requires WellFormed(e)
    ensures Evaluate(request, Some(e), context).Hold? <==>
              && Grantable(request, e, context)
              && (|| context.usage.costMicros + request.costMicros > e.limits.maxCostMicros
                  || (&& AttemptsFor(context.usage, request.action) <= e.limits.maxRetriesPerAction
                      && (exists r :: r in e.approvals && r.action == request.action) && !context.approvalValid))
  {
    hide Covers, OpenedBy, Shaped, Reaches;
    var found := FindBinding(e.bindings, request.action);
    forall b | b in e.bindings && GrantedBy(request, e, b, context.knownAgents) ensures found == Some(b) {
      BindingIsUnique(e.bindings, b);
    }
    if found.Some? {
      var b := found.value;
      assert BindingAccepted(e, b);
      CoversExactlyWhenOpened(e, b, request.resource, context.knownAgents);
      ObjectionsMean(request, e, b, context.knownAgents);
    }
  }

  lemma ObjectionsMean(request: Request, e: Envelope, b: Binding, knownAgents: set<string>)
    ensures ResourceObjection(request, e, b, knownAgents).None? <==> Covers(e, b, request.resource, knownAgents)
    ensures NetworkObjection(request, e, b).None? <==> Reaches(request, e) && (b.destinationRequired ==> request.destination.Some?)
  {
  }

  /** Nothing is allowed or held without an envelope. */
  lemma NothingWithoutEnvelope(request: Request, context: Context)
    ensures Evaluate(request, None, context).Block?
  {
  }

  /** Less usage never loses permission. */
  lemma AllowIsAntitoneInUsage(request: Request, envelope: Option<Envelope>, context: Context, less: Usage)
    requires Evaluate(request, envelope, context) == Allow
    requires less.startedAt == context.usage.startedAt || less.startedAt.None?
    requires less.calls <= context.usage.calls && less.external <= context.usage.external && less.costMicros <= context.usage.costMicros
    requires AttemptsFor(less, request.action) <= AttemptsFor(context.usage, request.action)
    ensures Evaluate(request, envelope, context.(usage := less)) == Allow
  {
    assert LimitObjection(request, envelope.value.limits, less, context.now).None?;
  }
}
