/** The readiness probe: anybody's, charged to the governor like everything else, and what that does to promotions. */
module GovernorProbes {
  import opened Schema
  import opened Policy
  import opened Evidence
  import opened GateService
  import opened GateRuns
  import opened GateHistory
  import opened Governor
  import opened GovernorRuns
  import opened GovernorBounds
  import opened GovernorExample

  // --- When a probe is charged -----------------------------------------------------------------------------------

  function ProbeRequest(governor: string): Request {
    OperationRequest(governor, "authorize_generation", PROBE, None)
  }

  /** A probe counts against the governor exactly when any other order would be let through; the answer does not say. */
  lemma ProbeIsChargedExactlyWhen(w: World, governor: string, role: string, issued: int, healthy: bool, env: Ambient)
    requires governor in w.gate.policies && w.gate.policies[governor].envelope == GovernorEnvelope(governor, role, issued)
    requires governor in w.gate.agents
    ensures var (after, answer) := Handle(w, governor, Probe(healthy), env);
            && (CallsOf(after.gate, governor) == CallsOf(w.gate, governor) + 1 <==>
                  IsId(governor) && env.appendOk && !w.gate.agents[governor].revoked
                  && HasRoom(w.gate, governor, issued, "authorize_generation", env.now))
            && (answer == Ok <==> IsId(governor) && env.appendOk && healthy)
            && after.books == WithBudget(w.books, PROBE, PROBE_LIMITS)
  {
    hide HasRoom, OperationRequest, IsId, ValidFile, Step, Fits;
    ProbeFitsExactlyWhen(governor);
    RequestIsGovernors(governor, "authorize_generation", PROBE, None);
    ApprovedOperationsAreThese("authorize_generation");
    OperationIsAllowedExactlyWhen(w.gate, governor, role, issued, "authorize_generation", PROBE, None, env);
    ProbeDecides(w.gate, governor, env);
  }

  lemma ProbeFitsExactlyWhen(governor: string)
    ensures "authorize_generation" in OPERATIONS && "authorize_generation" != "invoke_candidate_tool"
    ensures "authorize_generation" !in APPROVED_OPERATIONS
    ensures ValidFile(ProbeRequest(governor).resource) && (Fits(governor, PROBE, None) <==> IsId(governor))
    ensures IsRequest(ProbeRequest(governor)) <==> IsId(governor)
    ensures ProbeRequest(governor).agentId == governor
    ensures ProbeRequest(governor).destination == None && ProbeRequest(governor).costMicros == 0
    ensures ProbeRequest(governor).approvalId == None
  {
    hide IsId, IsLabel, ValidFile, IsRequest;
    assert OPERATIONS[0] == "authorize_generation" && "authorize_generation"[1] == 'u';
    assert APPROVED_OPERATIONS[3] == "authority_expansion" && |"authority_expansion"| == 19 && |"authorize_generation"| == 20;
    assert PlainDirectory(PROBE) by { RoleIsId(); }
    PathIsCanonical(PROBE);
    OperationFitsExactlyWhen(governor, "authorize_generation", PROBE, None);
  }

  function CallsOf(db: Db, agentId: string): nat {
    UsageOf(db.usage, agentId).calls
  }

  lemma ProbeDecides(db: Db, governor: string, env: Ambient)
    requires governor in db.agents
    ensures var (after, outcome) := Step(db, Authorize(AgentPrincipal(governor), ProbeRequest(governor)), env);
            && (outcome.Decided? <==> IsId(governor) && env.appendOk) && (outcome.Decided? || outcome.Failed?)
            && CallsOf(after, governor) == CallsOf(db, governor) + if outcome.Decided? && outcome.decision.verdict == Allow then 1 else 0
  {
    hide Evaluate, IsRequest, OperationRequest, IsId;
    ProbeFitsExactlyWhen(governor);
  }

  // --- After the last call ---------------------------------------------------------------------------------------

  const CALLS_MAX := 1000

  lemma StepKeepsCalls(db: Db, call: Call, env: Ambient, agentId: string)
    ensures CallsOf(Step(db, call, env).0, agentId) >= CallsOf(db, agentId)
  {
    hide Evaluate, IsRequest, IsId, IsLabel, WellFormed, FindRule;
  }

  lemma MoveKeepsCalls(w: World, governor: string, move: Move, after: World)
    requires Goes(w, governor, move, after)
    ensures CallsOf(after.gate, governor) >= CallsOf(w.gate, governor)
  {
    hide Step, CallsOf, Possible, Performed, Unguarded, GovernorEnvelope;
    match move
    case Serve(beat) =>
      if Asks(beat.order) {
        StepKeepsCalls(w.gate, GateCall(governor, beat.order, beat.env.now), beat.env, governor);
      }
    case Restart(role, first, second) =>
      var call := Register(ADMINISTRATOR, governor, DisplayName(governor), first.id);
      StepKeepsCalls(w.gate, call, first, governor);
      StepKeepsCalls(Step(w.gate, call, first).0, SetEnvelope(ADMINISTRATOR, GovernorEnvelope(governor, role, second.now)), second, governor);
  }

  lemma {:induction false} CallsNeverFall(trace: seq<World>, moves: seq<Move>, governor: string, i: nat, j: nat)
    requires IsRun(trace, moves, governor) && i <= j <= |moves|
    ensures CallsOf(trace[j].gate, governor) >= CallsOf(trace[i].gate, governor)
    decreases j
  {
    hide Goes, CallsOf, GateSound;
    if i < j {
      CallsNeverFall(trace, moves, governor, i, j - 1);
      assert Goes(trace[j - 1], governor, moves[j - 1], trace[j]);
      MoveKeepsCalls(trace[j - 1], governor, moves[j - 1], trace[j]);
    }
  }

  lemma SpentIsNeverAllowed(db: Db, governor: string, request: Request, env: Ambient)
    requires governor in db.policies ==> GovernorPolicy(db.policies[governor], governor)
    requires request.agentId == governor && CallsOf(db, governor) >= CALLS_MAX
    ensures var outcome := Step(db, Authorize(AgentPrincipal(governor), request), env).1;
            !(outcome.Decided? && outcome.decision.verdict == Allow)
  {
    hide IsRequest, FindBinding, FindRule, ResourceObjection, NetworkObjection;
  }

  lemma WithheldKeepsBooks(w: World, governor: string, beat: Beat)
    requires Guarded(beat.order)
    requires var outcome := Step(w.gate, GateCall(governor, beat.order, beat.env.now), beat.env).1;
             !(outcome.Decided? && outcome.decision.verdict == Allow)
    ensures Handle(w, governor, beat.order, beat.env).0.books == w.books
  {
    hide Evaluate, IsRequest, FindRule, Performed;
  }

  /** Once the Gate has allowed the governor a thousand things, probes included, no process promotes anything any more. */
  lemma NoPromotionAfterLastCall(trace: seq<World>, moves: seq<Move>, governor: string, i: nat, j: nat, id: string)
    requires IsRun(trace, moves, governor) && i <= j < |moves| && CallsOf(trace[i].gate, governor) >= CALLS_MAX
    ensures !Promotes(trace[j].books, trace[j + 1].books, id)
  {
    hide Goes, CallsOf, BooksSound, Sound, Step, GovernorPolicy, Endorsed, Current;
    if Promotes(trace[j].books, trace[j + 1].books, id) {
      EveryPromotionIsGuarded(trace, moves, governor, j, id);
      CallsNeverFall(trace, moves, governor, i, j);
      RunIsSound(trace, moves, governor, j);
      assert Goes(trace[j], governor, moves[j], trace[j + 1]);
      PromoteIsWithheld(trace[j], governor, moves[j].beat, trace[j + 1]);
    }
  }

  lemma PromoteIsWithheld(w: World, governor: string, beat: Beat, after: World)
    requires Goes(w, governor, Serve(beat), after) && beat.order.Promote? && CallsOf(w.gate, governor) >= CALLS_MAX
    requires governor in w.gate.policies ==> GovernorPolicy(w.gate.policies[governor], governor)
    ensures after.books == w.books
  {
    hide CallsOf, Step, GovernorPolicy, Handle, Possible;
    assert GateCall(governor, beat.order, beat.env.now).request.agentId == governor;
    SpentIsNeverAllowed(w.gate, governor, GateCall(governor, beat.order, beat.env.now).request, beat.env);
    WithheldKeepsBooks(w, governor, beat);
  }

  // --- Probes alone get there ------------------------------------------------------------------------------------

  /** The engine would let a probe through. */
  predicate ProbeAllowed(db: Db, governor: string, now: int) {
    && IsId(governor) && governor in db.agents && governor in db.policies
    && Evaluate(ProbeRequest(governor), Some(db.policies[governor].envelope), ContextOf(db, governor, false, now)) == Allow
  }

  /** The governor may act at this time until its calls run out. */
  ghost predicate Leased(db: Db, governor: string, now: int) {
    && IsId(governor) && governor in db.agents && !db.agents[governor].revoked && governor in db.policies
    && (exists role: string, issued: int :: db.policies[governor].envelope == GovernorEnvelope(governor, role, issued) && now < issued + YEAR_MS)
    && Unhurried(UsageOf(db.usage, governor), now)
  }

  ghost predicate Unhurried(usage: Usage, now: int) {
    && (usage.startedAt.Some? ==> now < usage.startedAt.value + 3_600_000)
    && usage.costMicros <= GOVERNOR_LIMITS.maxCostMicros
    && forall action :: AttemptsFor(usage, action) <= usage.calls
  }

  lemma AllowedProbeIsLeased(db: Db, governor: string, now: int)
    requires GateSound(db, governor) && ProbeAllowed(db, governor, now)
    ensures Leased(db, governor, now) && CallsOf(db, governor) < CALLS_MAX
  {
    hide Sound, Evaluate, ValidFile, WithinLifetime, OperationRequest, IsId, GovernorEnvelope, Unhurried;
    var role: string, issued: int :| db.policies[governor].envelope == GovernorEnvelope(governor, role, issued);
    ProbeFitsExactlyWhen(governor);
    EngineAllowsOperationExactlyWhen(governor, role, issued, "authorize_generation", PROBE, None, ContextOf(db, governor, false, now));
    TriesWithinCalls(db, governor);
    RoomIsUnhurried(UsageOf(db.usage, governor), ProbeRequest(governor), now);
  }

  lemma RoomIsUnhurried(usage: Usage, request: Request, now: int)
    requires WithinLifetime(request, GOVERNOR_LIMITS, usage, now) && forall action :: AttemptsFor(usage, action) <= usage.calls
    ensures Unhurried(usage, now) && usage.calls < CALLS_MAX
  {
  }

  lemma TriesWithinCalls(db: Db, agentId: string)
    requires Sound(db)
    ensures forall action :: AttemptsFor(UsageOf(db.usage, agentId), action) <= UsageOf(db.usage, agentId).calls
  {
    var log := db.evidence;
    assert AuditView(db).usage == Replay(log, |log|).usage;
    UsageIsTally(log, |log|, agentId);
    forall action ensures AttemptsFor(UsageOf(db.usage, agentId), action) <= UsageOf(db.usage, agentId).calls {
      SubsetIsSmaller(AllowsOf(log, |log|, agentId, action), Allows(log, |log|, agentId));
    }
  }

  lemma {:induction false} SubsetIsSmaller<T>(a: set<T>, b: set<T>)
    requires a <= b
    ensures |a| <= |b|
  {
    if a != {} {
      var x :| x in a;
      SubsetIsSmaller(a - {x}, b - {x});
    }
  }

  lemma ProbeKeepsLease(db: Db, governor: string, now: int, id: string)
    requires Leased(db, governor, now) && CallsOf(db, governor) < CALLS_MAX
    ensures var after := Step(db, Authorize(AgentPrincipal(governor), ProbeRequest(governor)), Ambient(now, id, true)).0;
            Leased(after, governor, now) && CallsOf(after, governor) == CallsOf(db, governor) + 1
  {
    hide Evaluate, ValidFile, OperationRequest, IsId, IsRequest, GovernorEnvelope, Unhurried, WithinLifetime, Charge;
    var role: string, issued: int :| db.policies[governor].envelope == GovernorEnvelope(governor, role, issued) && now < issued + YEAR_MS;
    ProbeFitsExactlyWhen(governor);
    EngineAllowsOperationExactlyWhen(governor, role, issued, "authorize_generation", PROBE, None, ContextOf(db, governor, false, now));
    ChargeIsUnhurried(UsageOf(db.usage, governor), ProbeRequest(governor), now);
    ProbeDecides(db, governor, Ambient(now, id, true));
  }

  lemma ChargeIsUnhurried(usage: Usage, request: Request, now: int)
    requires Unhurried(usage, now) && usage.calls < CALLS_MAX && request.destination == None && request.costMicros == 0
    ensures WithinLifetime(request, GOVERNOR_LIMITS, usage, now)
    ensures Unhurried(Charge(usage, request, now), now) && Charge(usage, request, now).calls == usage.calls + 1
  {
    forall action ensures AttemptsFor(Charge(usage, request, now), action) <= usage.calls + 1 {
      assert AttemptsFor(usage, action) <= usage.calls && AttemptsFor(usage, request.action) <= usage.calls;
    }
  }

  lemma {:induction false} FreshId(log: seq<Event>, n: nat) returns (id: string)
    requires n <= |log|
    ensures forall i :: 0 <= i < n && MintedBy(log[i]).Some? ==> |MintedBy(log[i]).value| < |id|
  {
    if n == 0 {
      id := "";
    } else {
      id := FreshId(log, n - 1);
      if MintedBy(log[n - 1]).Some? && |MintedBy(log[n - 1]).value| >= |id| {
        id := MintedBy(log[n - 1]).value + "p";
      }
    }
  }

  predicate ProbesFrom(moves: seq<Move>, n: nat, now: int) {
    forall i :: n <= i < |moves| ==> moves[i].Serve? && moves[i].beat.order == Probe(true) && moves[i].beat.env.now == now
  }

  lemma ProbeGoes(w: World, governor: string, now: int) returns (move: Move, after: World)
    requires Leased(w.gate, governor, now) && CallsOf(w.gate, governor) < CALLS_MAX
    ensures Goes(w, governor, move, after) && ProbesFrom([move], 0, now)
    ensures Leased(after.gate, governor, now) && CallsOf(after.gate, governor) == CallsOf(w.gate, governor) + 1
  {
    hide Leased, CallsOf, Step, OperationRequest;
    var id := FreshId(w.gate.evidence, |w.gate.evidence|);
    ProbeKeepsLease(w.gate, governor, now, id);
    move := Serve(Beat(Probe(true), Ambient(now, id, true)));
    after := Handle(w, governor, Probe(true), Ambient(now, id, true)).0;
  }

  lemma {:induction false} Exhausting(trace: seq<World>, moves: seq<Move>, governor: string, now: int, n: nat)
    returns (trace': seq<World>, moves': seq<Move>)
    requires IsRun(trace, moves, governor) && Leased(trace[|moves|].gate, governor, now)
    requires n <= |moves| && ProbesFrom(moves, n, now) && CallsOf(trace[|moves|].gate, governor) <= CALLS_MAX
    ensures IsRun(trace', moves', governor) && trace <= trace' && moves <= moves' && ProbesFrom(moves', n, now)
    ensures CallsOf(trace'[|moves'|].gate, governor) == CALLS_MAX
    decreases CALLS_MAX - CallsOf(trace[|moves|].gate, governor)
  {
    hide Leased, CallsOf, Goes, IsRun;
    RunHasEnd(trace, moves, governor);
    var w := trace[|moves|];
    if CallsOf(w.gate, governor) == CALLS_MAX {
      trace', moves' := trace, moves;
    } else {
      var move, after := ProbeGoes(w, governor, now);
      assert [move][0] == move;
      var longer, more := Longer(trace, moves, governor, move, after);
      trace', moves' := Exhausting(longer, more, governor, now, n);
    }
  }

  ghost predicate NothingPromotedFrom(trace: seq<World>, n: nat) {
    forall j: nat, id: string :: n <= j && j + 1 < |trace| ==> !PromotesAt(trace, j, id)
  }

  lemma RunHasEnd(trace: seq<World>, moves: seq<Move>, governor: string)
    requires IsRun(trace, moves, governor)
    ensures |trace| == |moves| + 1
  {
  }

  /**
   * From any world of any run in which a single probe would be allowed, probes alone, all at that moment, lead to a world
   * after which nothing is ever promoted again, by this process or any other.
   */
  lemma ProbesAloneExhaust(trace: seq<World>, moves: seq<Move>, governor: string, now: int)
    returns (trace': seq<World>, moves': seq<Move>)
    requires IsRun(trace, moves, governor) && ProbeAllowed(trace[|moves|].gate, governor, now)
    ensures IsRun(trace', moves', governor) && trace <= trace' && moves <= moves' && ProbesFrom(moves', |moves|, now)
    ensures forall longer: seq<World>, more: seq<Move> :: IsRun(longer, more, governor) && trace' <= longer ==> NothingPromotedFrom(longer, |moves'|)
  {
    hide Leased, CallsOf, GateSound, ProbeAllowed, Goes, Promotes;
    RunIsSound(trace, moves, governor, |moves|);
    AllowedProbeIsLeased(trace[|moves|].gate, governor, now);
    trace', moves' := Exhausting(trace, moves, governor, now, |moves|);
    RunHasEnd(trace', moves', governor);
    forall longer: seq<World>, more: seq<Move> | IsRun(longer, more, governor) && trace' <= longer
      ensures NothingPromotedFrom(longer, |moves'|)
    {
      assert longer[|moves'|] == trace'[|moves'|];
      RunHasEnd(longer, more, governor);
      forall j: nat, id: string | |moves'| <= j && j + 1 < |longer| ensures !PromotesAt(longer, j, id) {
        NoPromotionAfterLastCall(longer, more, governor, |moves'|, j, id);
      }
    }
  }

  /** Right after its very first start a governor is in such a world. */
  lemma NewGovernorAllowsProbe(governor: string) returns (trace: seq<World>, moves: seq<Move>)
    requires IsId(governor)
    ensures IsRun(trace, moves, governor) && ProbeAllowed(trace[|moves|].gate, governor, 0)
  {
    hide IsRun, IsId, GovernorEnvelope, OperationRequest, Evaluate, Light;
    trace, moves := RunToStart(governor);
    ProbeFitsExactlyWhen(governor);
    RoleIsId();
    GovernorMay(trace[1].gate, governor, 0, {"policy"}, "authorize_generation", PROBE, None, false);
  }
}
