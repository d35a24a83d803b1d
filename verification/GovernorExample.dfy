/** A run of the governor that starts on an empty store and ends in a promotion. */
module GovernorExample {
  import opened Text
  import opened Schema
  import opened Policy
  import opened Evidence
  import opened GateService
  import opened GateRuns
  import opened GateHistory
  import opened Governor
  import opened GovernorRuns
  import opened GovernorBounds

  const ROLE := "approver"
  const ID := "g"

  lemma PlainPathIsCanonical(a: string, b: string, c: string)
    requires PlainDirectory(a) && PlainDirectory(b) && PlainDirectory(c)
    ensures ValidFile("/" + a + "/" + b + "/" + c)
  {
    var path, below := "/" + a + "/" + b + "/" + c, b + ['/'] + c;
    SplitPlain(c, '/');
    SplitAtSeparator(b, c, '/');
    SplitAtSeparator(a, below, '/');
    SplitAtSeparator("", a + ['/'] + below, '/');
    assert path == "" + ['/'] + (a + ['/'] + below);
    assert Split(path, '/') == [""] + [a, b, c];
    assert Split(path, '/')[1..] == [a, b, c];
    forall ch | ch in path ensures ch == '/' || ch == '_' || 'a' <= ch <= 'z' {
    }
  }

  lemma PathIsCanonical(target: string)
    requires PlainDirectory(target) && |target| < 100
    ensures ValidFile("/improvement/generations/" + target) && IsLabel("/improvement/generations/" + target)
  {
    hide ValidFile;
    assert PlainDirectory("improvement") && PlainDirectory("generations");
    PlainPathIsCanonical("improvement", "generations", target);
    assert "/improvement/generations/" + target == "/" + "improvement" + "/" + "generations" + "/" + target;
  }

  // --- The Gate's side ---------------------------------------------------------------------------------------

  /** So many calls, all at time zero, none to a host, none that costs. */
  ghost predicate Light(usage: Usage, n: nat) {
    && (usage.startedAt == None || usage.startedAt == Some(0)) && usage.calls == n && usage.costMicros == 0
    && forall action :: AttemptsFor(usage, action) <= n
  }

  predicate MintedAmong(log: seq<Event>, ids: set<string>) {
    forall i :: 0 <= i < |log| && MintedBy(log[i]).Some? ==> MintedBy(log[i]).value in ids
  }

  /** The governor holds its lease, has made n calls, and no identifiers but these were minted. */
  ghost predicate Able(db: Db, governor: string, n: nat, ids: set<string>) {
    && IsId(governor) && governor in db.agents && !db.agents[governor].revoked
    && governor in db.policies && db.policies[governor].envelope == GovernorEnvelope(governor, ROLE, 0)
    && Light(UsageOf(db.usage, governor), n)
    && MintedAmong(db.evidence, ids)
  }

  lemma LightLeavesRoom(usage: Usage, n: nat, request: Request)
    requires Light(usage, n) && n < 1000 && request.destination == None && request.costMicros == 0
    ensures WithinLifetime(request, GOVERNOR_LIMITS, usage, 0) && Light(Charge(usage, request, 0), n + 1)
  {
    forall action ensures AttemptsFor(Charge(usage, request, 0), action) <= n + 1 {
      assert AttemptsFor(usage, action) <= n && AttemptsFor(usage, request.action) <= n;
    }
  }

  predicate Plain(target: string) {
    PlainDirectory(target) && |target| < 100
  }

  predicate Readable(operation: string) {
    operation in OPERATIONS && operation != "invoke_candidate_tool"
  }

  lemma GovernorMay(db: Db, governor: string, n: nat, ids: set<string>, operation: string, target: string, approvalId: Option<string>, valid: bool)
    requires Able(db, governor, n, ids) && n < 1000 && Readable(operation) && Plain(target)
    requires operation in APPROVED_OPERATIONS ==> valid
    ensures Evaluate(OperationRequest(governor, operation, target, approvalId), Some(GovernorEnvelope(governor, ROLE, 0)),
                     ContextOf(db, governor, valid, 0)) == Allow
    ensures Light(Charge(UsageOf(db.usage, governor), OperationRequest(governor, operation, target, approvalId), 0), n + 1)
  {
    hide Evaluate, WithinLifetime, ValidFile, Light, GovernorEnvelope, Charge;
    PathIsCanonical(target);
    LightLeavesRoom(UsageOf(db.usage, governor), n, OperationRequest(governor, operation, target, approvalId));
    EngineAllowsOperationExactlyWhen(governor, ROLE, 0, operation, target, approvalId, ContextOf(db, governor, valid, 0));
  }

  lemma RequestFits(governor: string, operation: string, target: string, approvalId: Option<string>)
    requires IsId(governor) && Readable(operation) && Plain(target) && (approvalId.Some? ==> IsId(approvalId.value))
    ensures IsRequest(OperationRequest(governor, operation, target, approvalId))
    ensures OperationRequest(governor, operation, target, approvalId).agentId == governor
  {
    hide IsRequest, IsId, IsLabel;
    PathIsCanonical(target);
    OperationFitsExactlyWhen(governor, operation, target, approvalId);
  }

  lemma AskingSucceeds(db: Db, governor: string, n: nat, ids: set<string>, operation: string, target: string, approvalId: Option<string>, id: string)
    requires Able(db, governor, n, ids) && n < 1000 && Readable(operation) && Plain(target) && (approvalId.Some? ==> IsId(approvalId.value))
    requires var request := OperationRequest(governor, operation, target, approvalId);
             operation in APPROVED_OPERATIONS ==> PresentsValidApproval(db, request, 0)
    ensures var request := OperationRequest(governor, operation, target, approvalId);
            var (after, outcome) := Step(db, Authorize(AgentPrincipal(governor), request), Ambient(0, id, true));
            && outcome.Decided? && outcome.decision.verdict == Allow && Able(after, governor, n + 1, ids + {id})
  {
    hide Evaluate, Light, GovernorEnvelope, Charge, PresentsValidApproval, IsRequest, IsId, OperationRequest, Plain, Readable;
    var request := OperationRequest(governor, operation, target, approvalId);
    RequestFits(governor, operation, target, approvalId);
    GovernorMay(db, governor, n, ids, operation, target, approvalId, PresentsValidApproval(db, request, 0));
  }

  lemma ApprovingSucceeds(db: Db, governor: string, n: nat, ids: set<string>, operation: string, id: string)
    requires Able(db, governor, n, ids) && n < 1000 && Readable(operation)
    requires operation in APPROVED_OPERATIONS && IsId(id)
    ensures var (after, outcome) := Step(db, Approve(Approver(ROLE), OperationRequest(governor, operation, ID, None), APPROVAL_MS), Ambient(0, id, true));
            && outcome == Done && Able(after, governor, n, ids + {id})
            && PresentsValidApproval(after, OperationRequest(governor, operation, ID, Some(id)), 0)
  {
    hide Evaluate, Light, FindRule, GovernorEnvelope, IsRequest, IsId, Readable;
    RequestFits(governor, operation, ID, None);
    GovernorMay(db, governor, n, ids, operation, ID, None, true);
    OperationWantsApproval(governor, ROLE, 0, operation);
    assert GovernorEnvelope(governor, ROLE, 0).expiresAt == YEAR_MS by { LeaseOfAYear(governor); }
    assert id != "" by { IdsAreNotEmpty(id); }
    BoundIgnoresApproval(governor, operation, id);
  }

  lemma IdsAreNotEmpty(id: string)
    requires IsId(id)
    ensures id != ""
  {
  }

  lemma LeaseOfAYear(governor: string)
    ensures GovernorEnvelope(governor, ROLE, 0).expiresAt == YEAR_MS
  {
  }

  lemma BoundIgnoresApproval(governor: string, operation: string, id: string)
    requires id != ""
    ensures RequestHash(OperationRequest(governor, operation, ID, Some(id))) == RequestHash(OperationRequest(governor, operation, ID, None))
    ensures OperationRequest(governor, operation, ID, Some(id)).approvalId == Some(id)
  {
  }

  lemma StartingSucceeds(governor: string)
    requires IsId(governor)
    ensures Able(Registered(EMPTY_DB, governor, ROLE, Ambient(0, "", true), Ambient(0, "policy", true)).0, governor, 0, {"policy"})
  {
    hide WellFormed, GovernorEnvelope, IsId, IsLabel;
    assert IsId(ROLE) by { RoleIsId(); }
    GovernorEnvelopeIsWellFormedExactlyWhen(governor, ROLE, 0);
    DisplayNameIsLabel(governor);
    LeaseOfAYear(governor);
    assert GovernorEnvelope(governor, ROLE, 0).agentId == governor by { LeaseIsGovernors(governor); }
  }

  lemma RoleIsId()
    ensures IsId(ROLE) && IsId("first") && IsId("second") && Plain(ID) && Plain(PROBE)
  {
  }

  lemma LeaseIsGovernors(governor: string)
    ensures GovernorEnvelope(governor, ROLE, 0).agentId == governor
  {
  }

  // --- The books' side -----------------------------------------------------------------------------------------

  /** The books hold one generation without parent in this status, nothing accepted, nothing waiting. */
  ghost predicate At(b: Books, status: Status, built: bool) {
    && ID in b.generations && b.generations[ID] == Generation("s", None, status)
    && ID in b.workspaces && b.workspaces[ID] == built && ID in b.specs
    && "s" in b.accepted && b.waiting == map[]
  }

  predicate Unassessed(b: Books) {
    b.evaluations == map[] && b.profiles == map[]
  }

  const NO_LIMITS := RecursionLimits(Limit(None), Limit(None), Limit(None), Limit(None), Limit(None))
  const CREATE := Create(Proposal("system", None, NO_LIMITS, true, "s", ID))

  lemma CreatingStarts()
    ensures var b := Created(NO_BOOKS, CREATE.proposal).0; At(b, Proposed, false) && Unassessed(b)
  {
  }

  lemma MovingMoves(b: Books, from: Status, built: bool, to: Status)
    requires At(b, from, built) && to in Successors(from) && to != Promoted
    ensures At(Moved(b, ID, to).0, to, built) && Moved(b, ID, to).1 == Ok
    ensures Moved(b, ID, to).0.evaluations == b.evaluations && Moved(b, ID, to).0.profiles == b.profiles
  {
  }

  lemma BuildingBuilds(b: Books)
    requires At(b, Authorized, false) && Unassessed(b)
    ensures var after := BuildDone(b, ID, Complete).0; At(after, Built, true) && Unassessed(after)
  {
    hide Moved, At;
    assert ID in b.workspaces by { AtHasWorkspace(b, Authorized, false); }
    MovingMoves(b, Authorized, false, Building);
    var building := Moved(b, ID, Building).0;
    WorkspaceIsSet(building, Building, false);
    MovingMoves(WithWorkspace(building, ID), Building, true, Built);
  }

  lemma AtHasWorkspace(b: Books, status: Status, built: bool)
    requires At(b, status, built)
    ensures ID in b.workspaces && b.workspaces[ID] == built && ID in b.generations && ID in b.specs
    ensures b.generations[ID] == Generation("s", None, status)
  {
  }

  lemma WorkspaceIsSet(b: Books, status: Status, built: bool)
    requires At(b, status, built)
    ensures At(WithWorkspace(b, ID), status, true)
  {
  }

  const MEASURED := Evaluation("profile", Promotable, 0)

  /** Measured once, under the profile that this made the active one. */
  predicate MeasuredOnce(b: Books) {
    b.evaluations == map[ID := [MEASURED]] && b.profiles == map["s" := "profile"]
  }

  /** Measured and recorded; the evaluation waits for its verifier. */
  ghost predicate MidEvaluation(b: Books) {
    At(b.(waiting := map[]), Evaluating, true) && MeasuredOnce(b) && b.waiting == map[0 := Waiting(ID, Promotable)]
  }

  lemma EvaluationBegins(b: Books)
    requires At(b, Built, true) && Unassessed(b)
    ensures MidEvaluation(EvaluationBegun(b, 0, ID, "profile", Some(Promotable), 0).0)
  {
    hide Moved;
    MovingMoves(b, Built, true, Evaluating);
    var entered := Moved(b, ID, Evaluating).0;
    assert EvaluationsOf(entered, ID) + [MEASURED] == [MEASURED];
    var begun := EvaluationBegun(b, 0, ID, "profile", Some(Promotable), 0).0;
    assert begun == Recorded(WithDefaultProfile(entered, "s", "profile"), ID, MEASURED).(waiting := map[0 := Waiting(ID, Promotable)]);
  }

  lemma EvaluationEnds(b: Books)
    requires MidEvaluation(b)
    ensures 0 in b.waiting
    ensures var after := EvaluationFinished(b, 0, Some(true)).0; At(after, Evaluated, true) && MeasuredOnce(after)
  {
    hide Moved;
    var done := b.(waiting := b.waiting - {0});
    assert done.waiting == map[];
    MovingMoves(done, Evaluating, true, Evaluated);
  }

  lemma CanaryStarts(b: Books)
    requires At(b, Evaluated, true) && MeasuredOnce(b)
    ensures var after := CanaryStarted(b, ID, true).0; At(after, Canary, true) && MeasuredOnce(after)
  {
    hide Moved;
    MovingMoves(b, Evaluated, true, Canary);
  }

  lemma CanaryIsPromoted(b: Books)
    requires At(b, Canary, true) && MeasuredOnce(b)
    ensures Promotes(b, Promotion(b, ID).0, ID)
  {
    assert Latest([MEASURED]) == Some(MEASURED);
  }

  // --- Both sides move by move -----------------------------------------------------------------------------------

  function Beaten(order: Order, id: string): Move {
    Serve(Beat(order, Ambient(0, id, true)))
  }

  lemma UnguardedGoes(w: World, governor: string, order: Order)
    requires !Asks(order) && Possible(w, governor, Beat(order, Ambient(0, "", true)))
    ensures Goes(w, governor, Beaten(order, ""), World(w.gate, Unguarded(w.books, order, 0).0))
  {
    hide Unguarded;
  }

  lemma NewIdIsFresh(log: seq<Event>, ids: set<string>, id: string)
    requires MintedAmong(log, ids) && id !in ids
    ensures Fresh(log, |log|, id)
  {
  }

  lemma GuardedGoes(w: World, governor: string, order: Order, n: nat, ids: set<string>, id: string) returns (after: World)
    requires Able(w.gate, governor, n, ids) && n < 1000 && id !in ids && Guarded(order) && order.generationId == ID
    requires OperationOf(order) in APPROVED_OPERATIONS ==>
               PresentsValidApproval(w.gate, OperationRequest(governor, OperationOf(order), ID, ApprovalOf(order)), 0)
    requires ApprovalOf(order).Some? ==> IsId(ApprovalOf(order).value)
    ensures Goes(w, governor, Beaten(order, id), after) && after.books == Performed(w.books, order).0
    ensures Able(after.gate, governor, n + 1, ids + {id})
  {
    hide Able, PresentsValidApproval, Performed, OperationRequest, Step, IsId, Plain, Readable;
    assert Readable(OperationOf(order)) by { GuardedIsOperation(order); }
    RoleIsId();
    assert Fresh(w.gate.evidence, |w.gate.evidence|, id) by { AbleMinted(w.gate, governor, n, ids); NewIdIsFresh(w.gate.evidence, ids, id); }
    AskingSucceeds(w.gate, governor, n, ids, OperationOf(order), ID, ApprovalOf(order), id);
    after := Handle(w, governor, order, Ambient(0, id, true)).0;
  }

  lemma AbleMinted(db: Db, governor: string, n: nat, ids: set<string>)
    requires Able(db, governor, n, ids)
    ensures MintedAmong(db.evidence, ids)
  {
  }

  lemma GuardedIsOperation(order: Order)
    requires Guarded(order)
    ensures Readable(OperationOf(order))
  {
    assert OPERATIONS[0] == "authorize_generation" && OPERATIONS[1] == "build" && OPERATIONS[3] == "start_canary"
        && OPERATIONS[4] == "promote" && OPERATIONS[5] == "rollback";
    assert OperationOf(order)[0] != "invoke_candidate_tool"[0];
  }

  lemma ApprovalGoes(w: World, governor: string, operation: string, n: nat, ids: set<string>, id: string) returns (after: World)
    requires Able(w.gate, governor, n, ids) && n < 1000 && id !in ids && IsId(id)
    requires Readable(operation) && operation in APPROVED_OPERATIONS
    ensures Goes(w, governor, Beaten(ApproveOperation(operation, ID, ROLE), id), after) && after.books == w.books
    ensures Able(after.gate, governor, n, ids + {id})
    ensures PresentsValidApproval(after.gate, OperationRequest(governor, operation, ID, Some(id)), 0)
  {
    hide Able, PresentsValidApproval, OperationRequest, Step, IsId;
    assert Fresh(w.gate.evidence, |w.gate.evidence|, id) by { AbleMinted(w.gate, governor, n, ids); NewIdIsFresh(w.gate.evidence, ids, id); }
    ApprovingSucceeds(w.gate, governor, n, ids, operation, id);
    after := Handle(w, governor, ApproveOperation(operation, ID, ROLE), Ambient(0, id, true)).0;
  }

  lemma Longer(trace: seq<World>, moves: seq<Move>, governor: string, move: Move, after: World) returns (trace': seq<World>, moves': seq<Move>)
    requires IsRun(trace, moves, governor) && Goes(trace[|moves|], governor, move, after)
    ensures IsRun(trace', moves', governor) && trace' == trace + [after] && moves' == moves + [move] && trace'[|moves'|] == after
  {
    hide Goes, GateSound;
    trace', moves' := trace + [after], moves + [move];
    forall i | 0 <= i <= |moves| ensures Goes(trace'[i], governor, moves'[i], trace'[i + 1]) {
      if i < |moves| {
        assert Goes(trace[i], governor, moves[i], trace[i + 1]);
      }
    }
  }

  lemma RunToStart(governor: string) returns (trace: seq<World>, moves: seq<Move>)
    requires IsId(governor)
    ensures IsRun(trace, moves, governor) && |moves| == 1 && |trace| == 2
    ensures Able(trace[1].gate, governor, 0, {"policy"}) && trace[1].books == NO_BOOKS && moves[0].Restart?
  {
    hide Able, Registered, IsId;
    var first, second := Ambient(0, "", true), Ambient(0, "policy", true);
    StartingSucceeds(governor);
    EmptyIsSound();
    trace := [World(EMPTY_DB, NO_BOOKS), World(Registered(EMPTY_DB, governor, ROLE, first, second).0, NO_BOOKS)];
    moves := [Restart(ROLE, first, second)];
  }

  lemma CreatingGoes(w: World, governor: string)
    requires w.books == NO_BOOKS
    ensures Goes(w, governor, Beaten(CREATE, ""), World(w.gate, Created(NO_BOOKS, CREATE.proposal).0))
  {
    UnguardedGoes(w, governor, CREATE);
  }

  /** From an empty store to a generation built. */
  lemma RunToBuilt(governor: string) returns (trace: seq<World>, moves: seq<Move>)
    requires IsId(governor)
    ensures IsRun(trace, moves, governor) && |trace| == |moves| + 1
    ensures Able(trace[|moves|].gate, governor, 2, {"policy", "authorized", "built"})
    ensures At(trace[|moves|].books, Built, true) && Unassessed(trace[|moves|].books)
  {
    hide Able, At, IsRun, Goes, Moved, BuildDone, Created, Registered;
    trace, moves := RunToStart(governor);
    var w := trace[1];
    CreatingGoes(w, governor);
    CreatingStarts();
    w := World(w.gate, Created(NO_BOOKS, CREATE.proposal).0);
    trace, moves := Longer(trace, moves, governor, Beaten(CREATE, ""), w);
    MovingMoves(w.books, Proposed, false, Authorized);
    w := GuardedGoes(w, governor, AuthorizeGeneration(ID), 0, {"policy"}, "authorized");
    trace, moves := Longer(trace, moves, governor, Beaten(AuthorizeGeneration(ID), "authorized"), w);
    BuildingBuilds(w.books);
    w := GuardedGoes(w, governor, Build(ID, Complete), 1, {"policy"} + {"authorized"}, "built");
    trace, moves := Longer(trace, moves, governor, Beaten(Build(ID, Complete), "built"), w);
    assert {"policy"} + {"authorized"} + {"built"} == {"policy", "authorized", "built"};
  }

  const BEGIN := BeginEvaluation(0, ID, "profile", Some(Promotable))
  const FINISH := FinishEvaluation(0, Some(true))

  lemma EvaluatingGoes(w: World, governor: string) returns (begun: World, after: World)
    requires At(w.books, Built, true) && Unassessed(w.books)
    ensures Goes(w, governor, Beaten(BEGIN, ""), begun) && Goes(begun, governor, Beaten(FINISH, ""), after)
    ensures after.gate == w.gate && At(after.books, Evaluated, true) && MeasuredOnce(after.books)
  {
    hide Goes, MidEvaluation, EvaluationBegun, EvaluationFinished;
    EvaluationBegins(w.books);
    UnguardedGoes(w, governor, BEGIN);
    begun := World(w.gate, EvaluationBegun(w.books, 0, ID, "profile", Some(Promotable), 0).0);
    EvaluationEnds(begun.books);
    UnguardedGoes(begun, governor, FINISH);
    after := World(begun.gate, EvaluationFinished(begun.books, 0, Some(true)).0);
  }

  /** An operation that wants an approval is approved, then carried out. */
  lemma ApprovedGoes(w: World, governor: string, order: Order, n: nat, ids: set<string>, approval: string, decision: string)
    returns (approved: World, after: World)
    requires Able(w.gate, governor, n, ids) && n < 1000 && approval !in ids && decision !in ids && approval != decision && IsId(approval)
    requires (order.StartCanary? || order.Promote?) && order.generationId == ID && order.approvalId == Some(approval)
    ensures Goes(w, governor, Beaten(ApproveOperation(OperationOf(order), ID, ROLE), approval), approved)
    ensures Goes(approved, governor, Beaten(order, decision), after)
    ensures approved.books == w.books && after.books == Performed(w.books, order).0
    ensures Able(after.gate, governor, n + 1, ids + {approval} + {decision})
  {
    hide Able, Goes, PresentsValidApproval, Performed, OperationRequest, IsId;
    GuardedIsOperation(order);
    assert APPROVED_OPERATIONS[0] == "promote" && APPROVED_OPERATIONS[2] == "start_canary";
    approved := ApprovalGoes(w, governor, OperationOf(order), n, ids, approval);
    after := GuardedGoes(approved, governor, order, n, ids + {approval}, decision);
  }

  lemma RunToPromotion(governor: string) returns (trace: seq<World>, moves: seq<Move>)
    requires IsId(governor)
    ensures IsRun(trace, moves, governor) && |moves| > 0 && |trace| == |moves| + 1
    ensures Promotes(trace[|moves| - 1].books, trace[|moves|].books, ID)
  {
    hide Able, At, IsRun, Goes, Moved, CanaryStarted, Promotion, Promotes, IsId;
    RoleIsId();
    trace, moves := RunToBuilt(governor);
    var ids := {"policy", "authorized", "built"};
    var begun, w := EvaluatingGoes(trace[|moves|], governor);
    trace, moves := Longer(trace, moves, governor, Beaten(BEGIN, ""), begun);
    trace, moves := Longer(trace, moves, governor, Beaten(FINISH, ""), w);
    var canary := StartCanary(ID, Some("first"), true);
    CanaryStarts(w.books);
    var approved, running := ApprovedGoes(w, governor, canary, 2, ids, "first", "canary");
    trace, moves := Longer(trace, moves, governor, Beaten(ApproveOperation("start_canary", ID, ROLE), "first"), approved);
    trace, moves := Longer(trace, moves, governor, Beaten(canary, "canary"), running);
    var promote := Promote(ID, Some("second"));
    CanaryIsPromoted(running.books);
    var endorsed, promoted := ApprovedGoes(running, governor, promote, 3, ids + {"first"} + {"canary"}, "second", "promoted");
    trace, moves := Longer(trace, moves, governor, Beaten(ApproveOperation("promote", ID, ROLE), "second"), endorsed);
    trace, moves := Longer(trace, moves, governor, Beaten(promote, "promoted"), promoted);
    assert trace[|moves| - 1] == endorsed;
  }
  /** Only a governor with a proper id is ever allowed anything. */
  lemma PromoterHasProperId(trace: seq<World>, moves: seq<Move>, governor: string, i: nat, id: string)
    requires IsRun(trace, moves, governor) && i + 1 < |trace| && PromotesAt(trace, i, id)
    ensures IsId(governor)
  {
    hide Goes, BooksSound, AuditView, Replay, GovernorPolicy;
    EveryPromotionIsGuarded(trace, moves, governor, i, id);
    RunIsSound(trace, moves, governor, i + 1);
    assert Admissible(trace[i + 1].gate.evidence, |trace[i].gate.evidence|);
  }

  predicate PromotesAt(trace: seq<World>, i: nat, id: string)
    requires i + 1 < |trace|
  {
    Promotes(trace[i].books, trace[i + 1].books, id)
  }

  ghost predicate SomePromotion(trace: seq<World>) {
    exists i: nat, id: string :: i + 1 < |trace| && PromotesAt(trace, i, id)
  }

  /** Some run promotes a generation if and only if the governor's id is a proper one; an empty store and Gate will do. */
  lemma SomeRunPromotesExactlyWhen(governor: string)
    ensures (exists trace: seq<World>, moves: seq<Move> :: IsRun(trace, moves, governor) && SomePromotion(trace)) <==> IsId(governor)
  {
    hide IsRun, Promotes, IsId;
    if IsId(governor) {
      var trace, moves := RunToPromotion(governor);
      assert PromotesAt(trace, |moves| - 1, ID);
    }
    forall trace: seq<World>, moves: seq<Move> | IsRun(trace, moves, governor) && SomePromotion(trace) ensures IsId(governor) {
      var i: nat, id: string :| i + 1 < |trace| && PromotesAt(trace, i, id);
      PromoterHasProperId(trace, moves, governor, i, id);
    }
  }
}
