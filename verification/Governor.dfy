/** The improvement governor: generations stepped through a fixed state machine, each consequential step authorized by the Gate. */
module Governor {
  import opened Policy
  import opened Evidence
  import opened GateService

  // --- Generations ------------------------------------------------------------------------------------

  datatype Status = Proposed | Authorized | Building | Built | Evaluating | Evaluated | Rejected | AwaitingApproval
                  | Canary | Promoted | RolledBack | BuildFailed | Indeterminate

  function Successors(from: Status): set<Status> {
    match from
    case Proposed => {Authorized, Rejected}
    case Authorized => {Building, Rejected}
    case Building => {Built, BuildFailed, Indeterminate}
    case Built => {Evaluating}
    case Evaluating => {Evaluated, Rejected, Indeterminate}
    case Evaluated => {AwaitingApproval, Rejected, Canary}
    case AwaitingApproval => {Canary, Rejected}
    case Canary => {Promoted, RolledBack, Rejected, Indeterminate}
    case Promoted => {RolledBack}
    case _ => {}
  }

  datatype Generation = Generation(systemId: string, parent: Option<string>, status: Status)

  // What one evaluation measured; what it is recorded as.
  datatype Measure = Promotable | OnHold | Rejectable | Unclear

  datatype Evaluation = Evaluation(profile: string, measure: Measure, decidedAt: int)

  // Limits are unchecked JSON numbers, whole or not. One that does not read as a number is None: nothing ever compares as
  // having reached it.
  datatype Limit = Limit(bound: Option<real>)

  datatype RecursionLimits = RecursionLimits(generations: Limit, attempts: Limit, runtime: Limit, cost: Limit, toolCalls: Limit)

  datatype Budget = Budget(limits: RecursionLimits, generations: nat)

  datatype RollbackRecord = RollbackRecord(generationId: string, target: string, restored: bool)

  // `accepted` holds one row per system; `names` is the caller's name for it. `workspaces` says whether a candidate was built.
  datatype Books = Books(names: map<string, string>, accepted: map<string, Option<string>>, generations: map<string, Generation>,
                         budgets: map<string, Budget>, evaluations: map<string, seq<Evaluation>>, rollbacks: seq<RollbackRecord>,
                         workspaces: map<string, bool>, specs: set<string>, profiles: map<string, string>, waiting: map<nat, Waiting>)

  // An evaluation that has measured and recorded, and now waits for the build verifier.
  datatype Waiting = Waiting(generationId: string, measure: Measure)

  const NO_BOOKS := Books(map[], map[], map[], map[], map[], [], map[], {}, map[], map[])

  datatype Answer = Ok | Withheld | Error(status: int)

  const NOT_FOUND := 404
  const CONFLICT := 409
  const INTERNAL := 500
  const UNAVAILABLE := 503

  // The readiness probe works on a system and a generation of this name, neither of which exists.
  const PROBE := "__readiness_probe__"
  const ONE := Limit(Some(1.0))
  const PROBE_LIMITS := RecursionLimits(ONE, ONE, ONE, ONE, ONE)

  predicate Reached(limit: Limit, used: nat) {
    limit.bound.Some? && used as real >= limit.bound.value
  }

  /** The counters other than generations are never charged, so their limits matter only when reached at zero. */
  predicate Blocked(limits: RecursionLimits) {
    Reached(limits.attempts, 0) || Reached(limits.runtime, 0) || Reached(limits.cost, 0) || Reached(limits.toolCalls, 0)
  }

  predicate Exhausted(b: Budget) {
    Reached(b.limits.generations, b.generations) || Blocked(b.limits)
  }

  /** Moves a generation along one edge; a promotion also makes it its system's accepted generation. */
  function Moved(b: Books, generationId: string, to: Status): (Books, Answer) {
    if generationId !in b.generations then (b, Error(NOT_FOUND))
    else
      var g := b.generations[generationId];
      if to !in Successors(g.status) then (b, Error(CONFLICT))
      else if to == Promoted && g.systemId !in b.accepted then (b, Error(NOT_FOUND))
      else (b.(generations := b.generations[generationId := g.(status := to)],
               accepted := if to == Promoted then b.accepted[g.systemId := Some(generationId)] else b.accepted), Ok)
  }

  // --- The handlers, on the governor's own books --------------------------------------------------------

  datatype Proposal = Proposal(name: string, parent: Option<string>, limits: RecursionLimits, valid: bool, systemId: string, generationId: string)

  /** The system of a proposal and its budget exist from the first proposal on, whatever becomes of the proposal. */
  function WithSystem(b: Books, p: Proposal): Books {
    if p.name in b.names then b
    else b.(names := b.names[p.name := p.systemId], accepted := b.accepted[p.systemId := None])
  }

  function WithBudget(b: Books, systemId: string, limits: RecursionLimits): Books {
    if systemId in b.budgets then b else b.(budgets := b.budgets[systemId := Budget(limits, 0)])
  }

  function SystemOf(b: Books, p: Proposal): string {
    if p.name in b.names then b.names[p.name] else p.systemId
  }

  function Opened(b: Books, p: Proposal): (r: Books)
    ensures SystemOf(b, p) in r.budgets && SystemOf(b, p) == SystemOf(r, p)
  {
    WithBudget(WithSystem(b, p), SystemOf(b, p), p.limits)
  }

  function WithGeneration(b: Books, systemId: string, generationId: string, parent: Option<string>): Books
    requires systemId in b.budgets
  {
    var budget := b.budgets[systemId];
    b.(generations := b.generations[generationId := Generation(systemId, parent, Proposed)],
       budgets := b.budgets[systemId := budget.(generations := budget.generations + 1)],
       workspaces := b.workspaces[generationId := false],
       specs := b.specs + {generationId})
  }

  function Created(b: Books, p: Proposal): (Books, Answer) {
    var known := Opened(b, p);
    var systemId := SystemOf(b, p);
    if Exhausted(known.budgets[systemId]) then (known, Error(429))
    else if !p.valid then (known, Error(400))
    else if p.parent.Some? && p.parent.value !in b.generations then (known, Error(NOT_FOUND))
    else (WithGeneration(known, systemId, p.generationId, p.parent), Ok)
  }

  function ProfileSet(b: Books, name: string, profile: string): (Books, Answer) {
    if name !in b.names then (b, Error(NOT_FOUND)) else (b.(profiles := b.profiles[b.names[name] := profile]), Ok)
  }

  // How far a build gets: no workspace, a workspace that cannot be hashed, or all the way.
  datatype Effort = NoWorkspace | NoHash | Complete

  function WithWorkspace(b: Books, generationId: string): Books {
    b.(workspaces := b.workspaces[generationId := true])
  }

  function BuildDone(b: Books, generationId: string, effort: Effort): (Books, Answer) {
    if generationId !in b.workspaces then (b, Error(NOT_FOUND))
    else
      var (building, answer) := Moved(b, generationId, Building);
      if answer != Ok then (b, answer)
      else if effort == NoWorkspace then (building, Error(500))
      else
        var tracked := WithWorkspace(building, generationId);
        if effort == NoHash then (tracked, Error(500)) else Moved(tracked, generationId, Built)
  }

  function EvaluationsOf(b: Books, generationId: string): seq<Evaluation> {
    if generationId in b.evaluations then b.evaluations[generationId] else []
  }

  function WithDefaultProfile(b: Books, systemId: string, profile: string): Books {
    if systemId in b.profiles then b else b.(profiles := b.profiles[systemId := profile])
  }

  function Recorded(b: Books, generationId: string, e: Evaluation): Books {
    b.(evaluations := b.evaluations[generationId := EvaluationsOf(b, generationId) + [e]])
  }

  /** A generation just built enters evaluation; one already evaluated stays where it is. */
  function Entered(b: Books, generationId: string): Books
    requires generationId in b.generations
  {
    if b.generations[generationId].status == Built then Moved(b, generationId, Evaluating).0 else b
  }

  /** The evaluation up to its wait: `measured` is None when the measurement itself breaks off. */
  function EvaluationBegun(b: Books, pid: nat, generationId: string, profile: string, measured: Option<Measure>, now: int): (Books, Answer) {
    if generationId !in b.workspaces || !b.workspaces[generationId] then (b, Error(CONFLICT))
    else if generationId !in b.generations then (b, Error(NOT_FOUND))
    else
      var g := b.generations[generationId];
      if g.status != Built && g.status != Evaluated then (b, Error(CONFLICT))
      else
        var entered := Entered(b, generationId);
        if generationId !in b.specs then (entered, Error(NOT_FOUND))
        else
          var profiled := WithDefaultProfile(entered, g.systemId, profile);
          if measured.None? then (profiled, Error(500))
          else (Recorded(profiled, generationId, Evaluation(profile, measured.value, now))
                .(waiting := b.waiting[pid := Waiting(generationId, measured.value)]), Ok)
  }

  function Target(measure: Measure, verified: bool): Status {
    if !verified then Rejected
    else match measure
      case Promotable => Evaluated
      case OnHold => Evaluated
      case Rejectable => Rejected
      case Unclear => Indeterminate
  }

  /** The evaluation after its wait: `verified` is None when the verifier itself breaks off. */
  function EvaluationFinished(b: Books, pid: nat, verified: Option<bool>): (Books, Answer)
    requires pid in b.waiting
  {
    var done := b.(waiting := b.waiting - {pid});
    if verified.None? then (done, Error(500))
    else
      var generationId := b.waiting[pid].generationId;
      var target := Target(b.waiting[pid].measure, verified.value);
      if generationId in b.generations && b.generations[generationId].status == target then (done, Ok)
      else Moved(done, generationId, target)
  }

  function CanaryStarted(b: Books, generationId: string, sessionOpened: bool): (Books, Answer) {
    if !sessionOpened then (b, Error(500))
    else if generationId !in b.specs then (b, Error(NOT_FOUND))
    else Moved(b, generationId, Canary)
  }

  /** The row a query ordered by time returns last: the newest, and of several equally new the one recorded last. */
  function Latest(evaluations: seq<Evaluation>): (r: Option<Evaluation>)
    ensures r.None? <==> evaluations == []
    ensures r.Some? ==> r.value in evaluations
  {
    if evaluations == [] then None
    else
      var before := Latest(evaluations[..|evaluations| - 1]);
      var last := evaluations[|evaluations| - 1];
      if before.Some? && before.value.decidedAt > last.decidedAt then before else Some(last)
  }

  predicate ProfileStale(b: Books, generationId: string, systemId: string) {
    var latest := Latest(EvaluationsOf(b, generationId));
    latest.Some? && systemId in b.profiles && latest.value.profile != b.profiles[systemId]
  }

  predicate ParentStale(b: Books, g: Generation) {
    g.parent.Some? && g.systemId in b.accepted && b.accepted[g.systemId].Some? && b.accepted[g.systemId] != g.parent
  }

  function Promotion(b: Books, generationId: string): (Books, Answer) {
    if generationId !in b.generations then (b, Error(NOT_FOUND))
    else
      var g := b.generations[generationId];
      if ProfileStale(b, generationId, g.systemId) || ParentStale(b, g) then (b, Error(CONFLICT))
      else Moved(b, generationId, Promoted)
  }

  /** The rollback record is completed before the generation moves, and stays if the move is then refused. */
  function Rollback(b: Books, generationId: string, target: string, onDisk: bool): (Books, Answer) {
    if generationId !in b.generations || target !in b.generations then (b, Error(NOT_FOUND))
    else
      var restored := target in b.workspaces && onDisk;
      Moved(b.(rollbacks := b.rollbacks + [RollbackRecord(generationId, target, restored)]), generationId,
            if restored then RolledBack else Indeterminate)
  }

  // --- Gate-guarded orders -------------------------------------------------------------------------------

  datatype Order =
    | Create(proposal: Proposal)
    | SetProfile(name: string, profile: string)
    | AuthorizeGeneration(generationId: string)
    | Build(generationId: string, effort: Effort)
    | BeginEvaluation(pid: nat, generationId: string, profile: string, measured: Option<Measure>)
    | FinishEvaluation(pid: nat, verified: Option<bool>)
    | ApproveOperation(operation: string, generationId: string, role: string)
    | StartCanary(generationId: string, approvalId: Option<string>, sessionOpened: bool)
    | Promote(generationId: string, approvalId: Option<string>)
    | RollBack(generationId: string, target: string, approvalId: Option<string>, onDisk: bool)
    | Probe(healthy: bool)

  datatype World = World(gate: Db, books: Books)

  const APPROVAL_MS := 600_000

  /** The Gate request of one governor operation on one generation. */
  function OperationRequest(governor: string, operation: string, generationId: string, approvalId: Option<string>): Request {
    Request(governor, "improvement." + operation, "improvement." + operation, "/improvement/generations/" + generationId,
            None, 0, if approvalId == Some("") then None else approvalId, None)
  }

  predicate Guarded(order: Order) {
    order.AuthorizeGeneration? || order.Build? || order.StartCanary? || order.Promote? || order.RollBack?
  }

  function OperationOf(order: Order): string
    requires Guarded(order)
  {
    match order
    case AuthorizeGeneration(_) => "authorize_generation"
    case Build(_, _) => "build"
    case StartCanary(_, _, _) => "start_canary"
    case Promote(_, _) => "promote"
    case RollBack(_, _, _, _) => "rollback"
  }

  function ApprovalOf(order: Order): Option<string> {
    if order.StartCanary? || order.Promote? || order.RollBack? then order.approvalId else None
  }

  /** What a guarded order does once the Gate allows it. */
  function Performed(b: Books, order: Order): (Books, Answer)
    requires Guarded(order)
  {
    match order
    case AuthorizeGeneration(id) => Moved(b, id, Authorized)
    case Build(id, effort) => BuildDone(b, id, effort)
    case StartCanary(id, _, sessionOpened) => CanaryStarted(b, id, sessionOpened)
    case Promote(id, _) => Promotion(b, id)
    case RollBack(id, target, _, onDisk) => Rollback(b, id, target, onDisk)
  }

  /** Does the order go to the Gate? */
  predicate Asks(order: Order) {
    Guarded(order) || order.ApproveOperation? || order.Probe?
  }

  function GateCall(governor: string, order: Order, now: int): Call
    requires Asks(order)
  {
    if order.Probe?
    then Authorize(AgentPrincipal(governor), OperationRequest(governor, "authorize_generation", PROBE, None))
    else if order.ApproveOperation?
    then Approve(Approver(order.role), OperationRequest(governor, order.operation, order.generationId, None), now + APPROVAL_MS)
    else Authorize(AgentPrincipal(governor), OperationRequest(governor, OperationOf(order), order.generationId, ApprovalOf(order)))
  }

  function Unguarded(b: Books, order: Order, now: int): (Books, Answer)
    requires !Guarded(order) && !order.ApproveOperation?
    requires order.FinishEvaluation? ==> order.pid in b.waiting
  {
    match order
    case Create(proposal) => Created(b, proposal)
    case SetProfile(name, profile) => ProfileSet(b, name, profile)
    case BeginEvaluation(pid, id, profile, measured) => EvaluationBegun(b, pid, id, profile, measured, now)
    case FinishEvaluation(pid, verified) => EvaluationFinished(b, pid, verified)
    case Probe(healthy) => (WithBudget(b, PROBE, PROBE_LIMITS), if healthy then Ok else Error(UNAVAILABLE))
  }

  /** The status a failed Gate call is answered with. */
  function StatusOf(gateStatus: int): int {
    if gateStatus == MALFORMED then INTERNAL else gateStatus
  }

  /** One order, Gate and books together. */
  function Handle(w: World, governor: string, order: Order, env: Ambient): (World, Answer)
    requires order.FinishEvaluation? ==> order.pid in w.books.waiting
  {
    if order.Probe? then
      var (gate, outcome) := Step(w.gate, GateCall(governor, order, env.now), env);
      var (books, answer) := Unguarded(w.books, order, env.now);
      (World(gate, books), if outcome.Failed? then Error(UNAVAILABLE) else answer)
    else if Asks(order) then
      var (gate, outcome) := Step(w.gate, GateCall(governor, order, env.now), env);
      var asked := w.(gate := gate);
      if outcome.Failed? then (asked, Error(StatusOf(outcome.status)))
      else if order.ApproveOperation? then (asked, Ok)
      else if outcome.Decided? && outcome.decision.verdict != Allow then
        (asked, if order.generationId in w.books.generations then Withheld else Error(NOT_FOUND))
      else
        var (books, answer) := Performed(w.books, order);
        (World(gate, books), answer)
    else
      var (books, answer) := Unguarded(w.books, order, env.now);
      (w.(books := books), answer)
  }

  // --- The governor's own authority ------------------------------------------------------------------------

  const OPERATIONS := ["authorize_generation", "build", "invoke_candidate_tool", "start_canary", "promote", "rollback", "authority_expansion"]
  const APPROVED_OPERATIONS := ["promote", "rollback", "start_canary", "authority_expansion"]
  const YEAR_MS := 365 * 24 * 3_600_000
  const GOVERNOR_LIMITS := Limits(3600, 1000, 0, 100_000000, 1000)

  function Prefixed(operations: seq<string>): seq<string> {
    seq(|operations|, i requires 0 <= i < |operations| => "improvement." + operations[i])
  }

  function BindingFor(operation: string): Binding {
    Binding("improvement." + operation,
            if operation == "promote" then "generation promoted"
            else if operation == "rollback" then "generation rolled back" else "generation rejected",
            "improvement." + operation, Files, if operation == "invoke_candidate_tool" then Write else Read, false)
  }

  function DisplayName(governor: string): string {
    "Improvement Governor (" + governor + ")"
  }

  function GovernorIdentity(governor: string): Identity {
    Identity(DisplayName(governor), "improvement-governor", "tna-improvement-governor")
  }

  function GovernorEnvelope(governor: string, role: string, now: int): Envelope {
    Envelope(governor, GovernorIdentity(governor), now + YEAR_MS, "recursive-improvement",
             ["generation promoted", "generation rejected", "generation rolled back"], ["self-promotion", "authority self-expansion"],
             NO_PERMISSIONS, Permissions(["/improvement/**"], []), NO_PERMISSIONS, NO_PERMISSIONS,
             Prefixed(OPERATIONS), [], [], ["*"], [], GOVERNOR_LIMITS,
             seq(|APPROVED_OPERATIONS|, i requires 0 <= i < |APPROVED_OPERATIONS| => Rule("improvement." + APPROVED_OPERATIONS[i], role)),
             seq(|OPERATIONS|, i requires 0 <= i < |OPERATIONS| => BindingFor(OPERATIONS[i])), "production")
  }

  const ALREADY_REGISTERED := 409
  const CRASHED := 500

  /**
   * Registers the governor and issues its envelope. If an earlier process registered it, what that one left must bear the
   * governor's identity, or the start fails.
   */
  function Registered(db: Db, governor: string, role: string, first: Ambient, second: Ambient): (Db, Outcome) {
    var (joined, outcome) := Step(db, Register(ADMINISTRATOR, governor, DisplayName(governor), first.id), first);
    if outcome.Failed? && outcome.status != ALREADY_REGISTERED then (joined, outcome)
    else if outcome.Failed? && governor in joined.policies && joined.policies[governor].envelope.identity != GovernorIdentity(governor)
    then (joined, Failed(CRASHED))
    else Step(joined, SetEnvelope(ADMINISTRATOR, GovernorEnvelope(governor, role, second.now)), second)
  }

  /** A new process on the same store: what was kept in memory is gone. */
  function Restarted(b: Books): Books {
    b.(workspaces := map[], specs := {}, profiles := map[], waiting := map[])
  }

  // --- The process ---------------------------------------------------------------------------------------

  class ImprovementGovernor {
    const gate: Gate
    const governor: string
    var names: map<string, string>
    var accepted: map<string, Option<string>>
    var generations: map<string, Generation>
    var budgets: map<string, Budget>
    var evaluations: map<string, seq<Evaluation>>
    var rollbacks: seq<RollbackRecord>
    var workspaces: map<string, bool>
    var specs: set<string>
    var profiles: map<string, string>
    var waiting: map<nat, Waiting>

    constructor (gate: Gate, governor: string)
      ensures this.gate == gate && this.governor == governor
      ensures Contents() == NO_BOOKS
    {
      this.gate, this.governor := gate, governor;
      names, accepted, generations, budgets, evaluations := map[], map[], map[], map[], map[];
      rollbacks, workspaces, specs, profiles, waiting := [], map[], {}, map[], map[];
    }

    function Contents(): Books
      reads this
    {
      Books(names, accepted, generations, budgets, evaluations, rollbacks, workspaces, specs, profiles, waiting)
    }

    function Whole(): World
      reads this, gate
    {
      World(gate.Snapshot(), Contents())
    }

    method RegisterImprovementGovernor(role: string, first: Ambient, second: Ambient) returns (r: Outcome)
      requires gate.Valid()
      modifies gate
      ensures gate.Valid()
      ensures (gate.Snapshot(), r) == Registered(old(gate.Snapshot()), governor, role, first, second)
    {
      r := gate.Register(ADMINISTRATOR, governor, DisplayName(governor), first.id, first);
      if r.Failed? && r.status != ALREADY_REGISTERED { return; }
      if r.Failed? && governor in gate.policies && gate.policies[governor].envelope.identity != GovernorIdentity(governor) {
        return Failed(CRASHED);
      }
      r := gate.SetEnvelope(ADMINISTRATOR, GovernorEnvelope(governor, role, second.now), second);
    }

    /** A restart: only the store and the Gate outlive the process. */
    method Restart(role: string, first: Ambient, second: Ambient) returns (r: Outcome)
      requires gate.Valid()
      modifies this, gate
      ensures gate.Valid()
      ensures Contents() == Restarted(old(Contents()))
      ensures (gate.Snapshot(), r) == Registered(old(gate.Snapshot()), governor, role, first, second)
    {
      workspaces, specs, profiles, waiting := map[], {}, map[], map[];
      r := RegisterImprovementGovernor(role, first, second);
    }

    method TransitionGeneration(generationId: string, to: Status) returns (r: Answer)
      modifies this`generations, this`accepted
      ensures (Contents(), r) == Moved(old(Contents()), generationId, to)
    {
      if generationId !in generations { return Error(NOT_FOUND); }
      var current := generations[generationId];
      if to !in Successors(current.status) { return Error(CONFLICT); }
      if to == Promoted {
        if current.systemId !in accepted { return Error(NOT_FOUND); }
        accepted := accepted[current.systemId := Some(generationId)];
      }
      generations := generations[generationId := current.(status := to)];
      r := Ok;
    }

    /** Finds or creates the system of a proposal, and its budget. */
    method OpenSystem(p: Proposal) returns (systemId: string)
      modifies this`names, this`accepted, this`budgets
      ensures Contents() == Opened(old(Contents()), p)
      ensures systemId == SystemOf(old(Contents()), p)
    {
      systemId := p.systemId;
      if p.name in names {
        systemId := names[p.name];
      } else {
        names := names[p.name := systemId];
        accepted := accepted[systemId := None];
      }
      if systemId !in budgets {
        budgets := budgets[systemId := Budget(p.limits, 0)];
      }
    }

    method HandleCreate(p: Proposal) returns (r: Answer)
      modifies this
      ensures (Contents(), r) == Created(old(Contents()), p)
    {
      var systemId := OpenSystem(p);
      var budget := budgets[systemId];
      if Exhausted(budget) { return Error(429); }
      if !p.valid { return Error(400); }
      if p.parent.Some? && p.parent.value !in generations { return Error(NOT_FOUND); }
      generations := generations[p.generationId := Generation(systemId, p.parent, Proposed)];
      budgets := budgets[systemId := budget.(generations := budget.generations + 1)];
      workspaces := workspaces[p.generationId := false];
      specs := specs + {p.generationId};
      r := Ok;
    }

    method HandleProfile(name: string, profile: string) returns (r: Answer)
      modifies this`profiles
      ensures (Contents(), r) == ProfileSet(old(Contents()), name, profile)
    {
      if name !in names { return Error(NOT_FOUND); }
      profiles := profiles[names[name] := profile];
      r := Ok;
    }

    /** Asks the Gate; the answer is Ok when the operation may go ahead. */
    method AskGate(order: Order, env: Ambient) returns (r: Answer)
      requires gate.Valid() && Guarded(order)
      modifies gate
      ensures gate.Valid()
      ensures var (after, outcome) := Step(old(gate.Snapshot()), GateCall(governor, order, env.now), env);
              && gate.Snapshot() == after
              && r == if outcome.Failed? then Error(StatusOf(outcome.status))
                      else if outcome.Decided? && outcome.decision.verdict != Allow
                      then if order.generationId in generations then Withheld else Error(NOT_FOUND)
                      else Ok
    {
      var request := OperationRequest(governor, OperationOf(order), order.generationId, ApprovalOf(order));
      var outcome := gate.Authorize(AgentPrincipal(governor), request, env);
      if outcome.Failed? { return Error(StatusOf(outcome.status)); }
      if outcome.Decided? && outcome.decision.verdict != Allow {
        if order.generationId !in generations { return Error(NOT_FOUND); }
        return Withheld;
      }
      r := Ok;
    }

    /** The readiness probe, which nobody has to be authenticated for; `healthy` is what the other stores say. */
    method HandleReady(healthy: bool, env: Ambient) returns (r: Answer)
      requires gate.Valid()
      modifies this, gate
      ensures gate.Valid()
      ensures (Whole(), r) == Handle(old(Whole()), governor, Probe(healthy), env)
    {
      if PROBE !in budgets {
        budgets := budgets[PROBE := Budget(PROBE_LIMITS, 0)];
      }
      var outcome := gate.Authorize(AgentPrincipal(governor), OperationRequest(governor, "authorize_generation", PROBE, None), env);
      r := if outcome.Failed? || !healthy then Error(UNAVAILABLE) else Ok;
    }

    method HandleAuthorize(generationId: string, env: Ambient) returns (r: Answer)
      requires gate.Valid()
      modifies this, gate
      ensures gate.Valid()
      ensures (Whole(), r) == Handle(old(Whole()), governor, AuthorizeGeneration(generationId), env)
    {
      r := AskGate(AuthorizeGeneration(generationId), env);
      if r == Ok { r := TransitionGeneration(generationId, Authorized); }
    }

    /** The build once the Gate allowed it. */
    method CompleteBuild(generationId: string, effort: Effort) returns (r: Answer)
      modifies this
      ensures (Contents(), r) == BuildDone(old(Contents()), generationId, effort)
    {
      if generationId !in workspaces { return Error(NOT_FOUND); }
      r := TransitionGeneration(generationId, Building);
      if r != Ok { return; }
      if effort == NoWorkspace { return Error(500); }
      workspaces := workspaces[generationId := true];
      if effort == NoHash { return Error(500); }
      r := TransitionGeneration(generationId, Built);
    }

    method HandleBuild(generationId: string, effort: Effort, env: Ambient) returns (r: Answer)
      requires gate.Valid()
      modifies this, gate
      ensures gate.Valid()
      ensures (Whole(), r) == Handle(old(Whole()), governor, Build(generationId, effort), env)
    {
      r := AskGate(Build(generationId, effort), env);
      if r == Ok { r := CompleteBuild(generationId, effort); }
    }

    method BeginEvaluate(pid: nat, generationId: string, profile: string, measured: Option<Measure>, now: int) returns (r: Answer)
      modifies this
      ensures (Contents(), r) == EvaluationBegun(old(Contents()), pid, generationId, profile, measured, now)
    {
      if generationId !in workspaces || !workspaces[generationId] { return Error(CONFLICT); }
      if generationId !in generations { return Error(NOT_FOUND); }
      var gen := generations[generationId];
      if gen.status == Built {
        var entered := TransitionGeneration(generationId, Evaluating);
      } else if gen.status != Evaluated {
        return Error(CONFLICT);
      }
      if generationId !in specs { return Error(NOT_FOUND); }
      if gen.systemId !in profiles { profiles := profiles[gen.systemId := profile]; }
      if measured.None? { return Error(500); }
      var earlier := if generationId in evaluations then evaluations[generationId] else [];
      evaluations := evaluations[generationId := earlier + [Evaluation(profile, measured.value, now)]];
      waiting := waiting[pid := Waiting(generationId, measured.value)];
      r := Ok;
    }

    method FinishEvaluate(pid: nat, verified: Option<bool>) returns (r: Answer)
      requires pid in waiting
      modifies this
      ensures (Contents(), r) == EvaluationFinished(old(Contents()), pid, verified)
    {
      var w := waiting[pid];
      waiting := waiting - {pid};
      if verified.None? { return Error(500); }
      var target := Target(w.measure, verified.value);
      if w.generationId in generations && generations[w.generationId].status == target { return Ok; }
      r := TransitionGeneration(w.generationId, target);
    }

    method HandleApprove(operation: string, generationId: string, role: string, env: Ambient) returns (r: Answer)
      requires gate.Valid()
      modifies gate
      ensures gate.Valid()
      ensures (Whole(), r) == Handle(old(Whole()), governor, ApproveOperation(operation, generationId, role), env)
    {
      hide Step;
      var outcome := gate.Approve(Approver(role), OperationRequest(governor, operation, generationId, None), env.now + APPROVAL_MS, env);
      r := if outcome.Failed? then Error(StatusOf(outcome.status)) else Ok;
    }

    method HandleCanary(generationId: string, approvalId: Option<string>, sessionOpened: bool, env: Ambient) returns (r: Answer)
      requires gate.Valid()
      modifies this, gate
      ensures gate.Valid()
      ensures (Whole(), r) == Handle(old(Whole()), governor, StartCanary(generationId, approvalId, sessionOpened), env)
    {
      r := AskGate(StartCanary(generationId, approvalId, sessionOpened), env);
      if r == Ok {
        if !sessionOpened { return Error(500); }
        if generationId !in specs { return Error(NOT_FOUND); }
        r := TransitionGeneration(generationId, Canary);
      }
    }

    /** The promotion once the Gate allowed it: two guards against a stale basis, then the move. */
    method CompletePromotion(generationId: string) returns (r: Answer)
      modifies this
      ensures (Contents(), r) == Promotion(old(Contents()), generationId)
    {
      if generationId !in generations { return Error(NOT_FOUND); }
      var gen := generations[generationId];
      var latest := Latest(EvaluationsOf(Contents(), generationId));
      if latest.Some? && gen.systemId in profiles && latest.value.profile != profiles[gen.systemId] { return Error(CONFLICT); }
      if gen.parent.Some? && gen.systemId in accepted {
        var current := accepted[gen.systemId];
        if current.Some? && current != gen.parent { return Error(CONFLICT); }
      }
      r := TransitionGeneration(generationId, Promoted);
    }

    method HandlePromote(generationId: string, approvalId: Option<string>, env: Ambient) returns (r: Answer)
      requires gate.Valid()
      modifies this, gate
      ensures gate.Valid()
      ensures (Whole(), r) == Handle(old(Whole()), governor, Promote(generationId, approvalId), env)
    {
      r := AskGate(Promote(generationId, approvalId), env);
      if r == Ok { r := CompletePromotion(generationId); }
    }

    /** The rollback once the Gate allowed it. */
    method CompleteRollback(generationId: string, target: string, onDisk: bool) returns (r: Answer)
      modifies this
      ensures (Contents(), r) == Rollback(old(Contents()), generationId, target, onDisk)
    {
      if generationId !in generations || target !in generations { return Error(NOT_FOUND); }
      var verified := target in workspaces && onDisk;
      rollbacks := rollbacks + [RollbackRecord(generationId, target, verified)];
      if !verified {
        r := TransitionGeneration(generationId, Indeterminate);
      } else {
        r := TransitionGeneration(generationId, RolledBack);
      }
    }

    method HandleRollback(generationId: string, target: string, approvalId: Option<string>, onDisk: bool, env: Ambient) returns (r: Answer)
      requires gate.Valid()
      modifies this, gate
      ensures gate.Valid()
      ensures (Whole(), r) == Handle(old(Whole()), governor, RollBack(generationId, target, approvalId, onDisk), env)
    {
      r := AskGate(RollBack(generationId, target, approvalId, onDisk), env);
      if r == Ok { r := CompleteRollback(generationId, target, onDisk); }
    }
  }
}
