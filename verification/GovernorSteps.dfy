/** What each step of a generation rests on, over every run, and when each order is carried out. */
module GovernorSteps {
  import opened Schema
  import opened Policy
  import opened Evidence
  import opened GateService
  import opened GateRuns
  import opened GateHistory
  import opened Governor
  import opened GovernorRuns
  import opened GovernorBounds

  // --- When the other guarded orders are carried out --------------------------------------------------------------

  /** An authorization is carried out exactly when the Gate lets it through and the generation is a proposal. */
  lemma AuthorizationSucceedsExactlyWhen(w: World, governor: string, role: string, issued: int, id: string, env: Ambient)
    requires governor in w.gate.policies && w.gate.policies[governor].envelope == GovernorEnvelope(governor, role, issued)
    requires governor in w.gate.agents
    ensures Handle(w, governor, AuthorizeGeneration(id), env).1 == Ok <==>
              && GateLets(w.gate, governor, issued, "authorize_generation", id, None, env)
              && id in w.books.generations && w.books.generations[id].status == Proposed
  {
    hide Step, GateLets, OperationRequest;
    OperationsAreThese("authorize_generation");
    OperationIsAllowedExactlyWhen(w.gate, governor, role, issued, "authorize_generation", id, None, env);
  }

  lemma BuildDoneExactlyWhen(b: Books, id: string, effort: Effort)
    ensures var (after, answer) := BuildDone(b, id, effort);
            && (answer == Ok <==> id in b.workspaces && id in b.generations && b.generations[id].status == Authorized && effort == Complete)
            && (answer == Ok ==> id in after.generations && after.generations[id].status == Built
                                 && id in after.workspaces && after.workspaces[id])
  {
  }

  /** A build is carried out exactly when the Gate lets it through, this process knows the generation, it is authorized, and nothing breaks off. */
  lemma BuildSucceedsExactlyWhen(w: World, governor: string, role: string, issued: int, id: string, effort: Effort, env: Ambient)
    requires governor in w.gate.policies && w.gate.policies[governor].envelope == GovernorEnvelope(governor, role, issued)
    requires governor in w.gate.agents
    ensures var (after, answer) := Handle(w, governor, Build(id, effort), env);
            && (answer == Ok <==>
                  && GateLets(w.gate, governor, issued, "build", id, None, env)
                  && id in w.books.workspaces && id in w.books.generations && w.books.generations[id].status == Authorized
                  && effort == Complete)
            && (answer == Ok ==> id in after.books.generations && after.books.generations[id].status == Built
                                 && id in after.books.workspaces && after.books.workspaces[id])
  {
    hide Step, GateLets, OperationRequest, BuildDone;
    BuildDoneExactlyWhen(w.books, id, effort);
    OperationsAreThese("build");
    OperationIsAllowedExactlyWhen(w.gate, governor, role, issued, "build", id, None, env);
  }

  /** A canary is started exactly when the Gate lets it through, its session opens, its spec is known and it was evaluated. */
  lemma CanaryStartsExactlyWhen(w: World, governor: string, role: string, issued: int, id: string, approvalId: Option<string>,
                                sessionOpened: bool, env: Ambient)
    requires governor in w.gate.policies && w.gate.policies[governor].envelope == GovernorEnvelope(governor, role, issued)
    requires governor in w.gate.agents
    ensures Handle(w, governor, StartCanary(id, approvalId, sessionOpened), env).1 == Ok <==>
              && GateLets(w.gate, governor, issued, "start_canary", id, approvalId, env)
              && sessionOpened && id in w.books.specs && id in w.books.generations
              && (w.books.generations[id].status == Evaluated || w.books.generations[id].status == AwaitingApproval)
  {
    hide Step, GateLets, OperationRequest;
    OperationsAreThese("start_canary");
    OperationIsAllowedExactlyWhen(w.gate, governor, role, issued, "start_canary", id, approvalId, env);
  }

  lemma RollbackWantsBoth(b: Books, id: string, target: string, onDisk: bool)
    requires id !in b.generations || target !in b.generations
    ensures Rollback(b, id, target, onDisk) == (b, Error(404))
  {
  }

  /** A rollback is carried out exactly when the Gate lets it through, both generations exist, and the status permits where it leads. */
  lemma RollbackSucceedsExactlyWhen(w: World, governor: string, role: string, issued: int, id: string, target: string,
                                    approvalId: Option<string>, onDisk: bool, env: Ambient)
    requires governor in w.gate.policies && w.gate.policies[governor].envelope == GovernorEnvelope(governor, role, issued)
    requires governor in w.gate.agents
    ensures Handle(w, governor, RollBack(id, target, approvalId, onDisk), env).1 == Ok <==>
              && GateLets(w.gate, governor, issued, "rollback", id, approvalId, env)
              && id in w.books.generations && target in w.books.generations
              && var status := w.books.generations[id].status;
                 if target in w.books.workspaces && onDisk then status == Canary || status == Promoted
                 else status == Canary || status == Building || status == Evaluating
  {
    hide Step, GateLets, OperationRequest, Rollback;
    if id in w.books.generations && target in w.books.generations {
      RollbackMovesExactlyWhen(w.books, id, target, onDisk);
    } else {
      RollbackWantsBoth(w.books, id, target, onDisk);
    }
    OperationsAreThese("rollback");
    OperationIsAllowedExactlyWhen(w.gate, governor, role, issued, "rollback", id, approvalId, env);
  }

  // --- Evaluation -------------------------------------------------------------------------------------------------

  /**
   * An evaluation gets to its wait exactly when this process has built the generation and knows its spec, the generation
   * is built or evaluated, and the measurement comes through. It then leaves one record and waits; a generation just built
   * is evaluating; and the first profile used on a system becomes its active one. Otherwise nothing is recorded.
   */
  lemma EvaluationBeginsExactlyWhen(b: Books, pid: nat, id: string, profile: string, measured: Option<Measure>, now: int)
    ensures var (after, answer) := EvaluationBegun(b, pid, id, profile, measured, now);
            && (answer == Ok <==>
                  && id in b.workspaces && b.workspaces[id] && id in b.specs && measured.Some?
                  && id in b.generations && (b.generations[id].status == Built || b.generations[id].status == Evaluated))
            && (answer == Ok ==>
                  var g := b.generations[id];
                  && after.generations == b.generations[id := g.(status := if g.status == Built then Evaluating else Evaluated)]
                  && id in after.evaluations
                  && after.evaluations[id] == (if id in b.evaluations then b.evaluations[id] else []) + [Evaluation(profile, measured.value, now)]
                  && (forall other :: other != id ==> EvaluationsOf(after, other) == EvaluationsOf(b, other))
                  && after.waiting == b.waiting[pid := Waiting(id, measured.value)]
                  && after.profiles == if g.systemId in b.profiles then b.profiles else b.profiles[g.systemId := profile])
            && (answer != Ok ==> after.evaluations == b.evaluations && after.waiting == b.waiting)
            && after.accepted == b.accepted && after.budgets == b.budgets && after.rollbacks == b.rollbacks
  {
    hide Entered;
    if BeginsWith(b, id, measured) {
      EvaluationIsBegun(b, pid, id, profile, measured.value, now);
    } else if id in b.generations && (b.generations[id].status == Built || b.generations[id].status == Evaluated) {
      EnteredIsEvaluating(b, id);
    }
  }

  predicate BeginsWith(b: Books, id: string, measured: Option<Measure>) {
    && id in b.workspaces && b.workspaces[id] && id in b.specs && measured.Some?
    && id in b.generations && (b.generations[id].status == Built || b.generations[id].status == Evaluated)
  }

  lemma EvaluationIsBegun(b: Books, pid: nat, id: string, profile: string, measure: Measure, now: int)
    requires BeginsWith(b, id, Some(measure))
    ensures var g := b.generations[id];
            EvaluationBegun(b, pid, id, profile, Some(measure), now)
              == (b.(generations := b.generations[id := g.(status := if g.status == Built then Evaluating else Evaluated)],
                     evaluations := b.evaluations[id := EvaluationsOf(b, id) + [Evaluation(profile, measure, now)]],
                     waiting := b.waiting[pid := Waiting(id, measure)],
                     profiles := if g.systemId in b.profiles then b.profiles else b.profiles[g.systemId := profile]), Ok)
  {
    hide Entered;
    EnteredIsEvaluating(b, id);
  }

  lemma EnteredIsEvaluating(b: Books, id: string)
    requires id in b.generations && (b.generations[id].status == Built || b.generations[id].status == Evaluated)
    ensures var g := b.generations[id];
            Entered(b, id) == b.(generations := b.generations[id := g.(status := if g.status == Built then Evaluating else Evaluated)])
  {
    assert b.generations[id := b.generations[id]] == b.generations;
  }

  /** Where an evaluation leads: the verifier's refusal rejects, else what was measured decides. */
  predicate LeadsTo(measure: Measure, verified: bool, to: Status) {
    || (to == Evaluated && verified && (measure == Promotable || measure == OnHold))
    || (to == Rejected && (!verified || measure == Rejectable))
    || (to == Indeterminate && verified && measure == Unclear)
  }

  /**
   * After its wait an evaluation moves the generation where its measure and the verifier lead, from evaluating or, if it
   * was moved meanwhile, from wherever the edges allow; a generation that is there already stays. Nothing else changes.
   */
  lemma EvaluationFinishesExactlyWhen(b: Books, pid: nat, verified: bool, to: Status)
    requires pid in b.waiting && b.waiting[pid].generationId in b.generations && LeadsTo(b.waiting[pid].measure, verified, to)
    ensures var id := b.waiting[pid].generationId;
            var (after, answer) := EvaluationFinished(b, pid, Some(verified));
            var from := b.generations[id].status;
            && (answer == Ok <==>
                  || from == to || from == Evaluating
                  || (to == Rejected && from in {Proposed, Authorized, Evaluated, AwaitingApproval, Canary})
                  || (to == Indeterminate && from in {Building, Canary}))
            && after == b.(waiting := b.waiting - {pid}, generations := after.generations)
            && after.generations == if answer == Ok then b.generations[id := b.generations[id].(status := to)] else b.generations
  {
  }

  // --- Approvals --------------------------------------------------------------------------------------------------

  /**
   * An approval is given exactly when the role is the approver's, the operation wants one, ten minutes fit into the lease,
   * and the Gate would let the operation through with it. It is then for this operation on this generation, for ten minutes.
   */
  lemma ApprovalIsGivenExactlyWhen(w: World, governor: string, role: string, issued: int, operation: string, id: string, approver: string, env: Ambient)
    requires governor in w.gate.policies && w.gate.policies[governor].envelope == GovernorEnvelope(governor, role, issued)
    requires governor in w.gate.agents && operation in OPERATIONS && operation != "invoke_candidate_tool"
    ensures var (after, answer) := Handle(w, governor, ApproveOperation(operation, id, approver), env);
            && (answer == Ok <==>
                  && WantsApproval(operation) && approver == role && Fits(governor, id, None) && env.appendOk && !w.gate.agents[governor].revoked
                  && env.now + 600_000 <= issued + 31_536_000_000
                  && HasRoom(w.gate, governor, issued, operation, env.now) && ValidFile("/improvement/generations/" + id))
            && (answer == Ok ==>
                  after.gate.approvals == w.gate.approvals[env.id := Approval(env.id, governor, w.gate.policies[governor].hash,
                    w.gate.policies[governor].revision, OfRequest(Wanted(governor, operation, id)), role, env.now + 600_000, false)])
            && after.books == w.books
  {
    hide Evaluate, ValidFile, OperationRequest, Fits, HasRoom, WantsApproval, IsRequest, WithinLifetime, FindRule, GovernorEnvelope, Wanted;
    RequestIsGovernors(governor, operation, id, None);
    RequestIsWanted(governor, operation, id, None);
    OperationFitsExactlyWhen(governor, operation, id, None);
    RoomIsLifetime(w.gate, governor, issued, operation, id, None, env.now);
    ApprovedOperationsAreThese(operation);
    OperationWantsApproval(governor, role, issued, operation);
    LeaseEnds(governor, role, issued);
    EngineAllowsOperationExactlyWhen(governor, role, issued, operation, id, None, ContextOf(w.gate, governor, true, env.now));
    assert OperationRequest(governor, operation, id, None).approvalId == None by { NothingPresented(governor, operation, id); }
  }

  lemma NothingPresented(governor: string, operation: string, id: string)
    ensures OperationRequest(governor, operation, id, None).approvalId == None
    ensures Bound(OperationRequest(governor, operation, id, None)) == OperationRequest(governor, operation, id, None)
  {
  }

  lemma LeaseEnds(governor: string, role: string, issued: int)
    ensures GovernorEnvelope(governor, role, issued).expiresAt == issued + 31_536_000_000
  {
  }

  // --- What a step rests on ----------------------------------------------------------------------------------------

  predicate Becomes(before: Books, after: Books, id: string, to: Status) {
    && id in before.generations && before.generations[id].status != to
    && id in after.generations && after.generations[id].status == to
  }

  /** The order a move serves, if it serves one. */
  function Served(move: Move): Option<Order> {
    match move
    case Serve(beat) => Some(beat.order)
    case Restart(_, _, _) => None
  }

  /** A finished evaluation waited for this generation with this measure. */
  predicate Finishes(b: Books, order: Option<Order>, id: string, measures: set<Measure>, verified: bool) {
    && order.Some? && order.value.FinishEvaluation? && order.value.verified == Some(verified)
    && order.value.pid in b.waiting && b.waiting[order.value.pid].generationId == id && b.waiting[order.value.pid].measure in measures
  }

  const ANY_MEASURE := {Promotable, OnHold, Rejectable, Unclear}

  /** What must have happened for a generation to get to a status, and where from. */
  ghost predicate Causes(w: World, after: World, governor: string, move: Move, id: string, to: Status)
    requires id in w.books.generations
  {
    var order, from := Served(move), w.books.generations[id].status;
    match to
    case Authorized => from == Proposed && order == Some(AuthorizeGeneration(id)) && Permitted(w.gate, after.gate, governor, "authorize_generation", id)
    case Building =>
      && from == Authorized && order.Some? && order.value.Build? && order.value.generationId == id && order.value.effort != Complete
      && Permitted(w.gate, after.gate, governor, "build", id)
    case Built =>
      && from == Authorized && order == Some(Build(id, Complete)) && Permitted(w.gate, after.gate, governor, "build", id)
    case Evaluating =>
      && from == Built && order.Some? && order.value.BeginEvaluation? && order.value.generationId == id
      && id in w.books.workspaces && w.books.workspaces[id]
    case Evaluated => from == Evaluating && Finishes(w.books, order, id, {Promotable, OnHold}, true)
    case Rejected =>
      && from in {Evaluating, Evaluated, AwaitingApproval, Canary, Proposed, Authorized}
      && (Finishes(w.books, order, id, ANY_MEASURE, false) || Finishes(w.books, order, id, {Rejectable}, true))
    case Canary =>
      && from in {Evaluated, AwaitingApproval} && order.Some? && order.value.StartCanary? && order.value.generationId == id
      && Endorsed(w.gate, after.gate, governor, "start_canary", id)
    case Promoted =>
      && from == Canary && order.Some? && order.value.Promote? && order.value.generationId == id
      && Endorsed(w.gate, after.gate, governor, "promote", id)
    case RolledBack =>
      && from in {Canary, Promoted} && order.Some? && order.value.RollBack? && order.value.generationId == id
      && order.value.target in w.books.workspaces && order.value.onDisk
      && Endorsed(w.gate, after.gate, governor, "rollback", id)
    case Indeterminate =>
      && from in {Building, Evaluating, Canary}
      && (|| Finishes(w.books, order, id, {Unclear}, true)
          || (&& order.Some? && order.value.RollBack? && order.value.generationId == id
              && Endorsed(w.gate, after.gate, governor, "rollback", id)))
    case Proposed => false
    case AwaitingApproval => false
    case BuildFailed => false
  }

  // --- On the books -----------------------------------------------------------------------------------------------

  lemma MovedBecomes(b: Books, id: string, target: Status, x: string, to: Status)
    requires Becomes(b, Moved(b, id, target).0, x, to)
    ensures x == id && to == target && to in Successors(b.generations[id].status)
  {
  }

  lemma BuildBecomes(b: Books, id: string, effort: Effort, x: string, to: Status)
    requires Becomes(b, BuildDone(b, id, effort).0, x, to)
    ensures x == id && b.generations[id].status == Authorized && to == if effort == Complete then Built else Building
  {
  }

  lemma RollbackBecomes(b: Books, id: string, target: string, onDisk: bool, x: string, to: Status)
    requires Becomes(b, Rollback(b, id, target, onDisk).0, x, to)
    ensures x == id && to == (if target in b.workspaces && onDisk then RolledBack else Indeterminate)
    ensures to in Successors(b.generations[id].status)
  {
  }

  lemma BegunBecomes(b: Books, pid: nat, id: string, profile: string, measured: Option<Measure>, now: int, x: string, to: Status)
    requires Becomes(b, EvaluationBegun(b, pid, id, profile, measured, now).0, x, to)
    ensures x == id && to == Evaluating && b.generations[id].status == Built && id in b.workspaces && b.workspaces[id]
  {
    hide Moved;
    if id in b.generations && b.generations[id].status == Built && Becomes(b, Moved(b, id, Evaluating).0, x, to) {
      MovedBecomes(b, id, Evaluating, x, to);
    }
  }

  lemma FinishedBecomes(b: Books, pid: nat, verified: Option<bool>, x: string, to: Status)
    requires pid in b.waiting && Becomes(b, EvaluationFinished(b, pid, verified).0, x, to)
    ensures verified.Some? && x == b.waiting[pid].generationId && to in Successors(b.generations[x].status)
    ensures to == Target(b.waiting[pid].measure, verified.value)
  {
    hide Moved;
    MovedBecomes(b.(waiting := b.waiting - {pid}), b.waiting[pid].generationId, Target(b.waiting[pid].measure, verified.value), x, to);
  }

  lemma CreatedBecomes(b: Books, p: Proposal, x: string, to: Status)
    requires p.generationId !in b.generations
    ensures !Becomes(b, Created(b, p).0, x, to)
  {
    hide Exhausted;
  }

  // --- With the Gate ----------------------------------------------------------------------------------------------

  lemma GuardedIsPermitted(w: World, governor: string, beat: Beat, operation: string)
    requires governor in w.gate.policies ==> GovernorPolicy(w.gate.policies[governor], governor)
    requires Guarded(beat.order) && operation == OperationOf(beat.order)
    requires Handle(w, governor, beat.order, beat.env).0.books != w.books
    ensures var after := Handle(w, governor, beat.order, beat.env).0;
            && Permitted(w.gate, after.gate, governor, operation, beat.order.generationId)
            && (WantsApproval(operation) ==> Endorsed(w.gate, after.gate, governor, operation, beat.order.generationId))
            && after.books == Performed(w.books, beat.order).0
  {
    hide Step, Permitted, Endorsed, OperationRequest, Performed, GovernorPolicy, OperationOf, WantsApproval;
    AuthorizeNeverJustDone(w.gate, governor, operation, beat.order.generationId, ApprovalOf(beat.order), beat.env);
    if Step(w.gate, GateCall(governor, beat.order, beat.env.now), beat.env).1.Decided? {
      AllowedOperationIsEndorsed(w.gate, governor, operation, beat.order.generationId, ApprovalOf(beat.order), beat.env);
    }
  }

  lemma AuthorizeNeverJustDone(db: Db, governor: string, operation: string, id: string, approvalId: Option<string>, env: Ambient)
    ensures var outcome := Step(db, Authorize(AgentPrincipal(governor), OperationRequest(governor, operation, id, approvalId)), env).1;
            outcome.Decided? || outcome.Failed?
  {
    hide IsRequest, Evaluate;
  }

  lemma ServedHasCause(w: World, governor: string, beat: Beat, after: World, id: string, to: Status)
    requires governor in w.gate.policies ==> GovernorPolicy(w.gate.policies[governor], governor)
    requires Leads(w, governor, beat, after) && Becomes(w.books, after.books, id, to)
    ensures Causes(w, after, governor, Serve(beat), id, to)
  {
    hide Moved, BuildDone, Rollback, EvaluationBegun, EvaluationFinished, Created, Permitted, Endorsed, GovernorPolicy, Promotion,
         CanaryStarted, GateCall, Step;
    BooksAfter(w, governor, beat);
    if Guarded(beat.order) {
      GuardedHasCause(w, governor, beat, after, id, to);
    } else {
      UnguardedHasCause(w, governor, beat, after, id, to);
    }
  }

  lemma GuardedHasCause(w: World, governor: string, beat: Beat, after: World, id: string, to: Status)
    requires governor in w.gate.policies ==> GovernorPolicy(w.gate.policies[governor], governor)
    requires Leads(w, governor, beat, after) && Guarded(beat.order) && Becomes(w.books, after.books, id, to)
    ensures Causes(w, after, governor, Serve(beat), id, to)
  {
    hide Moved, BuildDone, Rollback, Permitted, Endorsed, GovernorPolicy, Handle, Possible;
    GuardedIsPermitted(w, governor, beat, OperationOf(beat.order));
    match beat.order
    case AuthorizeGeneration(x) => MovedBecomes(w.books, x, Authorized, id, to);
    case Build(x, effort) => BuildBecomes(w.books, x, effort, id, to);
    case StartCanary(x, _, _) => MovedBecomes(w.books, x, Canary, id, to);
    case Promote(x, _) => MovedBecomes(w.books, x, Promoted, id, to);
    case RollBack(x, target, _, onDisk) => RollbackBecomes(w.books, x, target, onDisk, id, to);
  }

  lemma UnguardedHasCause(w: World, governor: string, beat: Beat, after: World, id: string, to: Status)
    requires Leads(w, governor, beat, after) && !Guarded(beat.order) && Becomes(w.books, after.books, id, to)
    ensures Causes(w, after, governor, Serve(beat), id, to)
  {
    hide Moved, EvaluationBegun, EvaluationFinished, Created, Permitted, Endorsed, Step;
    match beat.order
    case Create(p) => CreatedBecomes(w.books, p, id, to);
    case SetProfile(_, _) =>
    case BeginEvaluation(pid, x, profile, measured) => BegunBecomes(w.books, pid, x, profile, measured, beat.env.now, id, to);
    case FinishEvaluation(pid, verified) => FinishedHasCause(w, governor, beat, after, id, to);
    case ApproveOperation(_, _, _) =>
    case Probe(_) =>
  }

  lemma PredecessorsAreThese(from: Status, to: Status)
    requires to in Successors(from)
    ensures to == Evaluated ==> from == Evaluating
    ensures to == Rejected ==> from in {Evaluating, Evaluated, AwaitingApproval, Canary, Proposed, Authorized}
    ensures to == Indeterminate ==> from in {Building, Evaluating, Canary}
  {
  }

  lemma FinishedHasCause(w: World, governor: string, beat: Beat, after: World, id: string, to: Status)
    requires beat.order.FinishEvaluation? && beat.order.pid in w.books.waiting
    requires Becomes(w.books, EvaluationFinished(w.books, beat.order.pid, beat.order.verified).0, id, to)
    ensures Causes(w, after, governor, Serve(beat), id, to)
  {
    hide Moved, EvaluationFinished, Permitted, Endorsed;
    FinishedBecomes(w.books, beat.order.pid, beat.order.verified, id, to);
    var waiting := w.books.waiting[beat.order.pid];
    assert Served(Serve(beat)) == Some(beat.order);
    assert waiting.measure.Promotable? || waiting.measure.OnHold? || waiting.measure.Rejectable? || waiting.measure.Unclear?;
    assert beat.order.verified == Some(true) || beat.order.verified == Some(false);
    PredecessorsAreThese(w.books.generations[id].status, to);
  }

  /**
   * In every run, restarts and probes included, each step of a generation has its cause: to be authorized, built, made a
   * canary, promoted or rolled back takes an ALLOW for exactly that operation on exactly that generation, the last three on an
   * unused approval of the approver's role; to be evaluated takes a finished evaluation of it that was verified and found
   * nothing to reject; and no step leads anywhere else.
   */
  lemma EveryStepHasItsCause(trace: seq<World>, moves: seq<Move>, governor: string, i: nat, id: string, to: Status)
    requires IsRun(trace, moves, governor) && i < |moves| && Becomes(trace[i].books, trace[i + 1].books, id, to)
    ensures Causes(trace[i], trace[i + 1], governor, moves[i], id, to)
  {
    hide Leads, BooksSound, Causes, Sound, GovernorPolicy, Registered;
    RunIsSound(trace, moves, governor, i);
    assert Goes(trace[i], governor, moves[i], trace[i + 1]);
    if moves[i].Serve? {
      ServedHasCause(trace[i], governor, moves[i].beat, trace[i + 1], id, to);
    }
  }

  // --- Profiles and proposals --------------------------------------------------------------------------------------

  /**
   * Setting the active profile is refused exactly for an unknown name. Afterwards a generation of that system is promoted
   * exactly when it is a canary, its parent is not overtaken, and the evaluation that counts used the profile just set.
   */
  lemma ProfileSetDecidesPromotion(b: Books, name: string, profile: string, id: string)
    requires BooksSound(b)
    ensures var (after, answer) := ProfileSet(b, name, profile);
            && (answer == Ok <==> name in b.names)
            && (answer == Ok && id in b.generations && b.generations[id].systemId == b.names[name] ==>
                  (Promotion(after, id).1 == Ok <==>
                     && b.generations[id].status == Canary
                     && Latest(EvaluationsOf(b, id)).Some? && Latest(EvaluationsOf(b, id)).value.profile == profile
                     && var g := b.generations[id];
                        (g.parent.None? || b.accepted[g.systemId].None? || b.accepted[g.systemId] == g.parent)))
            && (forall other :: other in b.generations && (name in b.names ==> b.generations[other].systemId != b.names[name]) ==>
                  Promotion(after, other).1 == Promotion(b, other).1)
  {
    hide BooksSound, Latest, Current, Promotion;
    var after := ProfileSet(b, name, profile).0;
    ProfilesKeepSound(b, after.profiles);
    CanaryIsPromotedExactlyWhen(after, id);
    if name in b.names && id in b.generations && b.generations[id].systemId == b.names[name] {
      CurrentUnderSetProfile(b, after, id, profile);
    }
    forall other | other in b.generations && (name in b.names ==> b.generations[other].systemId != b.names[name])
      ensures Promotion(after, other).1 == Promotion(b, other).1
    {
      OtherSystemsKeepPromotion(b, name, profile, other);
    }
  }

  lemma CurrentUnderSetProfile(b: Books, after: Books, id: string, profile: string)
    requires BooksSound(b) && id in b.generations && after == b.(profiles := b.profiles[b.generations[id].systemId := profile])
    ensures var g := b.generations[id];
            && g.systemId in b.accepted
            && (Current(after, id) <==>
                  && Latest(EvaluationsOf(b, id)).Some? && Latest(EvaluationsOf(b, id)).value.profile == profile
                  && (g.parent.None? || b.accepted[g.systemId].None? || b.accepted[g.systemId] == g.parent))
  {
    hide NamesSound, AcceptedSound, Charged, Assessed, Latest, Tracked;
  }

  lemma OtherSystemsKeepPromotion(b: Books, name: string, profile: string, other: string)
    requires other in b.generations && (name in b.names ==> b.generations[other].systemId != b.names[name])
    ensures Promotion(ProfileSet(b, name, profile).0, other).1 == Promotion(b, other).1
  {
    hide Latest;
  }

  /**
   * A proposal is accepted exactly when its spec is valid, its parent, if it names one, exists, and the budget of its
   * system, on the limits of the system's first proposal, is not used up; it then becomes one new generation of that system.
   */
  lemma ProposalIsAcceptedExactlyWhen(b: Books, p: Proposal)
    requires BooksSound(b) && p.systemId !in b.accepted && p.systemId != PROBE && p.generationId !in b.generations
    ensures var (after, answer) := Created(b, p);
            var systemId := if p.name in b.names then b.names[p.name] else p.systemId;
            && (p.name in b.names ==> systemId in b.budgets)
            && var limits, used := if p.name in b.names then b.budgets[systemId].limits else p.limits, |GenerationsOf(b.generations, systemId)|;
            && (answer == Ok <==>
                  && p.valid && (p.parent.Some? ==> p.parent.value in b.generations)
                  && (limits.generations.bound.Some? ==> (used as real) < limits.generations.bound.value) && !Blocked(limits))
            && (answer == Ok ==> after.generations == b.generations[p.generationId := Generation(systemId, p.parent, Proposed)])
  {
    hide AcceptedSound, Assessed, Blocked;
    if p.name !in b.names {
      NoGenerationsYet(b, p.systemId);
    }
  }

  lemma NoGenerationsYet(b: Books, systemId: string)
    requires RowsSound(b.accepted, b.generations) && systemId !in b.accepted
    ensures GenerationsOf(b.generations, systemId) == {}
  {
  }
}
