/** What follows over whole runs of the governor: lineage, budgets, which evaluation counts, rollbacks and restarts. */
module GovernorBounds {
  import opened Schema
  import opened Policy
  import opened Evidence
  import opened GateService
  import opened GateRuns
  import opened GateHistory
  import opened Governor
  import opened GovernorRuns

  // --- What each order leaves alone -----------------------------------------------------------------------

  lemma MoveFrame(b: Books, id: string, to: Status)
    ensures var after := Moved(b, id, to).0;
            && after == b.(generations := after.generations, accepted := after.accepted)
            && (to != Promoted ==> after.accepted == b.accepted) && b.accepted.Keys <= after.accepted.Keys
  {
  }

  lemma BuildFrame(b: Books, id: string, effort: Effort)
    ensures var after := BuildDone(b, id, effort).0;
            && after.budgets == b.budgets && after.names == b.names && after.evaluations == b.evaluations && after.accepted == b.accepted
  {
    hide Moved;
    MoveFrame(b, id, Building);
    MoveFrame(WithWorkspace(Moved(b, id, Building).0, id), id, Built);
  }

  lemma RollbackFrame(b: Books, id: string, target: string, onDisk: bool)
    ensures var after := Rollback(b, id, target, onDisk).0;
            && after.budgets == b.budgets && after.names == b.names && after.evaluations == b.evaluations && after.accepted == b.accepted
  {
    hide Moved;
    var restored := target in b.workspaces && onDisk;
    MoveFrame(b.(rollbacks := b.rollbacks + [RollbackRecord(id, target, restored)]), id, if restored then RolledBack else Indeterminate);
  }

  lemma PerformingFrame(b: Books, order: Order)
    requires Guarded(order)
    ensures var after := Performed(b, order).0;
            && after.budgets == b.budgets && after.names == b.names && after.evaluations == b.evaluations
            && (!order.Promote? ==> after.accepted == b.accepted) && b.accepted.Keys <= after.accepted.Keys
  {
    hide Moved, BuildDone, Rollback;
    match order
    case AuthorizeGeneration(id) => MoveFrame(b, id, Authorized);
    case Build(id, effort) => BuildFrame(b, id, effort);
    case StartCanary(id, _, _) => MoveFrame(b, id, Canary);
    case Promote(id, _) => MoveFrame(b, id, Promoted);
    case RollBack(id, target, _, onDisk) => RollbackFrame(b, id, target, onDisk);
  }

  lemma EnteringFrame(b: Books, id: string)
    requires id in b.generations
    ensures var after := Entered(b, id);
            after.budgets == b.budgets && after.names == b.names && after.accepted == b.accepted && after.evaluations == b.evaluations
  {
    hide Moved;
    MoveFrame(b, id, Evaluating);
  }

  lemma BeginningFrame(b: Books, pid: nat, id: string, profile: string, measured: Option<Measure>, now: int)
    ensures var after := EvaluationBegun(b, pid, id, profile, measured, now).0;
            && after.budgets == b.budgets && after.names == b.names && after.accepted == b.accepted
            && (after.evaluations == b.evaluations
                || (measured.Some? && after.evaluations == Recorded(b, id, Evaluation(profile, measured.value, now)).evaluations))
  {
    hide Entered;
    if id in b.generations {
      EnteringFrame(b, id);
      var profiled := WithDefaultProfile(Entered(b, id), b.generations[id].systemId, profile);
      assert EvaluationsOf(profiled, id) == EvaluationsOf(b, id);
    }
  }

  lemma FinishingFrame(b: Books, pid: nat, verified: Option<bool>)
    requires pid in b.waiting
    ensures var after := EvaluationFinished(b, pid, verified).0;
            && after.budgets == b.budgets && after.names == b.names && after.accepted == b.accepted && after.evaluations == b.evaluations
  {
    hide Moved;
    if verified.Some? {
      MoveFrame(b.(waiting := b.waiting - {pid}), b.waiting[pid].generationId, Target(b.waiting[pid].measure, verified.value));
    }
  }

  lemma EvaluatingFrame(w: World, governor: string, beat: Beat)
    requires Possible(w, governor, beat) && (beat.order.BeginEvaluation? || beat.order.FinishEvaluation?)
    ensures var after := Unguarded(w.books, beat.order, beat.env.now).0;
            after.budgets == w.books.budgets && after.names == w.books.names && after.accepted == w.books.accepted
  {
    hide EvaluationBegun, EvaluationFinished;
    match beat.order
    case BeginEvaluation(pid, id, profile, measured) => BeginningFrame(w.books, pid, id, profile, measured, beat.env.now);
    case FinishEvaluation(pid, verified) => FinishingFrame(w.books, pid, verified);
  }

  // --- The accepted lineage -------------------------------------------------------------------------------

  predicate PromotesIn(before: Books, after: Books, systemId: string, id: string) {
    Promotes(before, after, id) && before.generations[id].systemId == systemId
  }

  predicate PromotedAt(trace: seq<World>, k: nat, systemId: string, id: string)
    requires k + 1 < |trace|
  {
    PromotesIn(trace[k].books, trace[k + 1].books, systemId, id)
  }

  lemma MoveChangesAcceptedByPromoting(b: Books, id: string, to: Status, s: string)
    requires s in b.accepted && Moved(b, id, to).0.accepted[s] != b.accepted[s]
    ensures PromotesIn(b, Moved(b, id, to).0, s, id)
  {
  }

  lemma OrderChangesAcceptedByPromoting(b: Books, order: Order, s: string)
    requires Guarded(order) && s in b.accepted && s in Performed(b, order).0.accepted && Performed(b, order).0.accepted[s] != b.accepted[s]
    ensures exists id :: PromotesIn(b, Performed(b, order).0, s, id)
  {
    hide Moved;
    PerformingFrame(b, order);
    MoveChangesAcceptedByPromoting(b, order.generationId, Promoted, s);
    assert PromotesIn(b, Performed(b, order).0, s, order.generationId);
  }

  lemma CreatingKeepsAccepted(b: Books, p: Proposal, s: string)
    requires s in b.accepted && p.systemId !in b.accepted
    ensures s in Created(b, p).0.accepted && Created(b, p).0.accepted[s] == b.accepted[s]
  {
    hide Exhausted, WithSystem, SystemOf;
    assert Created(b, p).0.accepted == WithSystem(b, p).accepted;
    NamingKeepsAccepted(b, p, s);
  }

  lemma NamingKeepsAccepted(b: Books, p: Proposal, s: string)
    requires s in b.accepted && p.systemId !in b.accepted
    ensures s in WithSystem(b, p).accepted && WithSystem(b, p).accepted[s] == b.accepted[s]
  {
  }

  lemma UnguardedKeepsAccepted(w: World, governor: string, beat: Beat, s: string)
    requires Possible(w, governor, beat) && !Guarded(beat.order) && !beat.order.ApproveOperation? && s in w.books.accepted
    ensures var after := Unguarded(w.books, beat.order, beat.env.now).0; s in after.accepted && after.accepted[s] == w.books.accepted[s]
  {
    hide EvaluationBegun, EvaluationFinished, Created;
    match beat.order
    case Create(p) => CreatingKeepsAccepted(w.books, p, s);
    case SetProfile(_, _) =>
    case Probe(_) =>
    case _ => EvaluatingFrame(w, governor, beat);
  }

  lemma AcceptedChangesByPromoting(w: World, governor: string, beat: Beat, after: World, s: string)
    requires Leads(w, governor, beat, after) && s in w.books.accepted
    ensures s in after.books.accepted
    ensures after.books.accepted[s] == w.books.accepted[s] || exists id :: PromotesIn(w.books, after.books, s, id)
  {
    hide Performed, Unguarded, Possible;
    BooksAfter(w, governor, beat);
    if Guarded(beat.order) {
      PerformingFrame(w.books, beat.order);
      if after.books == Performed(w.books, beat.order).0 && after.books.accepted[s] != w.books.accepted[s] {
        OrderChangesAcceptedByPromoting(w.books, beat.order, s);
      }
    } else if !beat.order.ApproveOperation? {
      UnguardedKeepsAccepted(w, governor, beat, s);
    }
  }

  lemma AcceptedChangesOnlyByPromoting(w: World, governor: string, move: Move, after: World, s: string)
    requires Goes(w, governor, move, after) && s in w.books.accepted
    ensures s in after.books.accepted
    ensures after.books.accepted[s] == w.books.accepted[s] || exists id :: PromotesIn(w.books, after.books, s, id)
  {
    hide Leads, Registered, PromotesIn;
    if move.Serve? {
      AcceptedChangesByPromoting(w, governor, move.beat, after, s);
    }
  }

  lemma {:induction false} AcceptedStaysBetween(trace: seq<World>, moves: seq<Move>, governor: string,
                                                i: nat, j: nat, s: string)
    requires IsRun(trace, moves, governor) && i <= j <= |moves| && s in trace[i].books.accepted
    requires forall k, id :: i <= k < j ==> !PromotedAt(trace, k, s, id)
    ensures s in trace[j].books.accepted && trace[j].books.accepted[s] == trace[i].books.accepted[s]
    decreases j
  {
    hide Goes, PromotesIn, GateSound;
    if i < j {
      AcceptedStaysBetween(trace, moves, governor, i, j - 1, s);
      assert Goes(trace[j - 1], governor, moves[j - 1], trace[j]);
      AcceptedChangesOnlyByPromoting(trace[j - 1], governor, moves[j - 1], trace[j], s);
      if trace[j].books.accepted[s] != trace[j - 1].books.accepted[s] {
        var id :| PromotesIn(trace[j - 1].books, trace[j].books, s, id);
        NotPromotedAt(trace, i, j, s, j - 1, id);
        assert false;
      }
    }
  }

  lemma NotPromotedAt(trace: seq<World>, i: nat, j: nat, s: string, k: nat, id: string)
    requires i <= k < j < |trace|
    requires forall m, x :: i <= m < j ==> !PromotedAt(trace, m, s, x)
    ensures !PromotesIn(trace[k].books, trace[k + 1].books, s, id)
  {
    assert !PromotedAt(trace, k, s, id);
  }

  /** Of two successive promotions in a system, the later generation has no parent or descends from the earlier one. */
  lemma AcceptedLineageIsLinear(trace: seq<World>, moves: seq<Move>, governor: string,
                                i: nat, a: string, j: nat, b: string, s: string)
    requires IsRun(trace, moves, governor) && i < j < |moves|
    requires PromotedAt(trace, i, s, a) && PromotedAt(trace, j, s, b)
    requires forall k, id :: i < k < j ==> !PromotedAt(trace, k, s, id)
    ensures trace[j].books.generations[b].parent == None || trace[j].books.generations[b].parent == Some(a)
  {
    hide Goes, Endorsed, GateSound;
    EveryPromotionIsGuarded(trace, moves, governor, i, a);
    EveryPromotionIsGuarded(trace, moves, governor, j, b);
    AcceptedStaysBetween(trace, moves, governor, i + 1, j, s);
  }

  // --- Budgets -----------------------------------------------------------------------------------------------

  predicate NamesKept(names: map<string, string>, after: map<string, string>) {
    forall n :: n in names ==> n in after && after[n] == names[n]
  }

  predicate LimitsKept(budgets: map<string, Budget>, after: map<string, Budget>) {
    forall s :: s in budgets ==> s in after && after[s].limits == budgets[s].limits
  }

  /** Names stay bound to their system, and a budget's limits are never rewritten. */
  predicate Kept(b: Books, after: Books) {
    NamesKept(b.names, after.names) && LimitsKept(b.budgets, after.budgets)
  }

  lemma OrderKeeps(w: World, governor: string, beat: Beat, after: World)
    requires Leads(w, governor, beat, after)
    ensures Kept(w.books, after.books)
    ensures forall n :: n !in w.books.names && n in after.books.names ==> beat.order.Create? && beat.order.proposal.name == n
  {
    hide Performed, EvaluationBegun, EvaluationFinished, Created, Handle;
    assert Possible(w, governor, beat);
    BooksAfter(w, governor, beat);
    match beat.order
    case Create(p) => CreatingKeeps(w.books, p);
    case SetProfile(_, _) =>
    case BeginEvaluation(_, _, _, _) => EvaluatingFrame(w, governor, beat);
    case FinishEvaluation(_, _) => EvaluatingFrame(w, governor, beat);
    case ApproveOperation(_, _, _) =>
    case Probe(_) =>
    case _ => PerformingFrame(w.books, beat.order);
  }

  lemma MoveKeeps(w: World, governor: string, move: Move, after: World)
    requires Goes(w, governor, move, after)
    ensures Kept(w.books, after.books)
    ensures forall n :: n !in w.books.names && n in after.books.names ==>
                          move.Serve? && move.beat.order.Create? && move.beat.order.proposal.name == n
  {
    hide Leads, Registered;
    if move.Serve? {
      OrderKeeps(w, governor, move.beat, after);
    }
  }

  lemma CreatingKeeps(b: Books, p: Proposal)
    ensures Kept(b, Created(b, p).0)
    ensures Created(b, p).0.names == WithSystem(b, p).names
  {
    hide Kept, Exhausted, Opened, WithGeneration, WithSystem, SystemOf;
    OpeningKeeps(b, p);
    GrowingKeeps(b, Opened(b, p), SystemOf(b, p), p.generationId, p.parent);
  }

  lemma GrowingKeeps(b: Books, known: Books, s: string, id: string, parent: Option<string>)
    requires Kept(b, known) && s in known.budgets
    ensures Kept(b, WithGeneration(known, s, id, parent)) && WithGeneration(known, s, id, parent).names == known.names
  {
    hide NamesKept, LimitsKept;
    ChargingKeeps(b.budgets, known.budgets, s);
  }

  lemma OpeningKeeps(b: Books, p: Proposal)
    ensures Kept(b, Opened(b, p)) && Opened(b, p).names == WithSystem(b, p).names
  {
    hide NamesKept, LimitsKept;
    NamingKeeps(b.names, p.name, p.systemId);
    BudgetingKeeps(b.budgets, SystemOf(b, p), p.limits);
  }

  lemma NamingKeeps(names: map<string, string>, name: string, systemId: string)
    ensures NamesKept(names, names)
    ensures name !in names ==> NamesKept(names, names[name := systemId])
  {
  }

  lemma BudgetingKeeps(budgets: map<string, Budget>, s: string, limits: RecursionLimits)
    ensures LimitsKept(budgets, budgets)
    ensures s !in budgets ==> LimitsKept(budgets, budgets[s := Budget(limits, 0)])
  {
  }

  lemma ChargingKeeps(budgets: map<string, Budget>, known: map<string, Budget>, s: string)
    requires LimitsKept(budgets, known) && s in known
    ensures LimitsKept(budgets, known[s := known[s].(generations := known[s].generations + 1)])
  {
  }

  lemma {:induction false} RunKeeps(trace: seq<World>, moves: seq<Move>, governor: string, i: nat, j: nat)
    requires IsRun(trace, moves, governor) && i <= j <= |moves|
    ensures Kept(trace[i].books, trace[j].books)
    decreases j
  {
    hide Goes, GateSound;
    if i < j {
      RunKeeps(trace, moves, governor, i, j - 1);
      assert Goes(trace[j - 1], governor, moves[j - 1], trace[j]);
      MoveKeeps(trace[j - 1], governor, moves[j - 1], trace[j]);
    }
  }

  /**
   * The first proposal that names a system fixes its limits, refused or not: at every later moment of the run, restarts
   * included, the system has exactly the generations its budget was charged for, and no more than that proposal's limit
   * rounded up to a whole number.
   */
  lemma FirstProposalBoundsSystem(trace: seq<World>, moves: seq<Move>, governor: string, i: nat, j: nat, name: string)
    requires IsRun(trace, moves, governor) && i < j <= |moves|
    requires name !in trace[i].books.names && name in trace[i + 1].books.names
    ensures moves[i].Serve? && moves[i].beat.order.Create? && moves[i].beat.order.proposal.name == name
    ensures name in trace[j].books.names
    ensures var b, s := trace[j].books, trace[j].books.names[name];
            && s in b.budgets && b.budgets[s].limits == moves[i].beat.order.proposal.limits
            && b.budgets[s].generations == |GenerationsOf(b.generations, s)|
            && WithinBound(moves[i].beat.order.proposal.limits.generations, |GenerationsOf(b.generations, s)|)
  {
    hide Goes, NamesSound, RowsSound, AcceptedSound, Assessed, GateSound, WithinBound;
    assert Goes(trace[i], governor, moves[i], trace[i + 1]);
    MoveKeeps(trace[i], governor, moves[i], trace[i + 1]);
    RunIsSound(trace, moves, governor, i);
    FirstLimits(trace[i], governor, moves[i].beat, trace[i + 1]);
    RunKeeps(trace, moves, governor, i + 1, j);
    RunIsSound(trace, moves, governor, j);
  }

  lemma FirstLimits(w: World, governor: string, beat: Beat, after: World)
    requires BooksSound(w.books) && Goes(w, governor, Serve(beat), after) && beat.order.Create? && beat.order.proposal.name !in w.books.names
    ensures var p := beat.order.proposal;
            && p.name in after.books.names && after.books.names[p.name] == p.systemId
            && p.systemId in after.books.budgets && after.books.budgets[p.systemId].limits == p.limits
  {
    hide NamesSound, RowsSound, AcceptedSound, Assessed, Charged, Created;
    CreatingFixesLimits(w.books, beat.order.proposal);
  }

  lemma CreatingFixesLimits(b: Books, p: Proposal)
    requires p.name !in b.names && p.systemId !in b.budgets
    ensures var after := Created(b, p).0;
            && p.name in after.names && after.names[p.name] == p.systemId
            && p.systemId in after.budgets && after.budgets[p.systemId].limits == p.limits
  {
    hide Exhausted;
  }

  /** A refused proposal creates no generation and charges nobody. */
  lemma RefusedProposalCreatesNothing(b: Books, p: Proposal)
    requires Created(b, p).1 != Ok
    ensures var after := Created(b, p).0;
            && after.generations == b.generations && after.workspaces == b.workspaces && after.specs == b.specs
            && ChargesNobody(b.budgets, after.budgets)
  {
    hide Exhausted, Opened;
    assert Created(b, p).0 == Opened(b, p);
    OpeningCreatesNothing(b, p);
  }

  predicate ChargesNobody(before: map<string, Budget>, after: map<string, Budget>) {
    forall s :: s in after ==> after[s].generations == if s in before then before[s].generations else 0
  }

  lemma NewBudgetChargesNobody(budgets: map<string, Budget>, s: string, limits: RecursionLimits)
    requires s !in budgets
    ensures ChargesNobody(budgets, budgets[s := Budget(limits, 0)])
  {
  }

  lemma OpeningCreatesNothing(b: Books, p: Proposal)
    ensures var after := Opened(b, p);
            && after.generations == b.generations && after.workspaces == b.workspaces && after.specs == b.specs
            && ChargesNobody(b.budgets, after.budgets)
  {
    hide ChargesNobody;
    var s := SystemOf(b, p);
    if s in b.budgets {
      assert Opened(b, p).budgets == b.budgets;
      assert ChargesNobody(b.budgets, b.budgets) by { NothingChargesNobody(b.budgets); }
    } else {
      NewBudgetChargesNobody(b.budgets, s, p.limits);
    }
  }

  lemma NothingChargesNobody(budgets: map<string, Budget>)
    ensures ChargesNobody(budgets, budgets)
  {
  }

  // --- Which evaluation counts ---------------------------------------------------------------------------------

  /** The evaluation recorded last is the one a promotion looks at, exactly when none recorded before it is dated later. */
  lemma {:induction false} NewestCountsExactlyWhen(earlier: seq<Evaluation>, e: Evaluation)
    ensures Latest(earlier + [e]) == Some(e) <==>
              (forall x :: x in earlier ==> x.decidedAt <= e.decidedAt) || Latest(earlier) == Some(e)
  {
    assert (earlier + [e])[..|earlier|] == earlier;
    LatestIsNewest(earlier);
  }

  lemma {:induction false} LatestIsNewest(evaluations: seq<Evaluation>)
    ensures Latest(evaluations).Some? ==> forall x :: x in evaluations ==> x.decidedAt <= Latest(evaluations).value.decidedAt
  {
    if evaluations != [] {
      var last := |evaluations| - 1;
      LatestIsNewest(evaluations[..last]);
      forall x | x in evaluations ensures x.decidedAt <= Latest(evaluations).value.decidedAt {
        assert x in evaluations[..last] || x == evaluations[last];
      }
    }
  }

  function TimeOf(move: Move): int {
    if move.Serve? then move.beat.env.now else move.second.now
  }

  predicate Monotone(moves: seq<Move>) {
    forall i, j :: 0 <= i < j < |moves| ==> TimeOf(moves[i]) <= TimeOf(moves[j])
  }

  /** Every record counts while it is the newest, and none is dated later than t. */
  ghost predicate Timely(evaluations: map<string, seq<Evaluation>>, t: int) {
    forall g :: g in evaluations && evaluations[g] != [] ==>
      Latest(evaluations[g]) == Some(evaluations[g][|evaluations[g]| - 1]) && forall x :: x in evaluations[g] ==> x.decidedAt <= t
  }

  lemma RecordingKeepsTimely(b: Books, id: string, e: Evaluation, t: int)
    requires Timely(b.evaluations, t) && t <= e.decidedAt
    ensures Timely(Recorded(b, id, e).evaluations, e.decidedAt)
  {
    hide Latest;
    var before, after := EvaluationsOf(b, id), Recorded(b, id, e).evaluations;
    NewestCountsExactlyWhen(before, e);
    assert after == b.evaluations[id := before + [e]];
    assert forall x :: x in before ==> x.decidedAt <= t;
    assert forall x :: x in before + [e] ==> x.decidedAt <= e.decidedAt;
    assert (before + [e])[|before|] == e;
  }

  lemma OnlyBeginningRecords(w: World, governor: string, beat: Beat, after: World)
    requires Leads(w, governor, beat, after)
    ensures after.books.evaluations == w.books.evaluations
            || exists id: string, e: Evaluation :: e.decidedAt == beat.env.now && after.books.evaluations == Recorded(w.books, id, e).evaluations
  {
    hide Performed, EvaluationBegun, EvaluationFinished, Created, ProfileSet, Handle, Recorded;
    assert Possible(w, governor, beat);
    BooksAfter(w, governor, beat);
    match beat.order
    case Create(p) => CreatingRecordsNothing(w.books, p);
    case SetProfile(name, profile) => ProfilingRecordsNothing(w.books, name, profile);
    case BeginEvaluation(pid, id, profile, measured) => BeginningFrame(w.books, pid, id, profile, measured, beat.env.now);
    case FinishEvaluation(pid, verified) => FinishingFrame(w.books, pid, verified);
    case ApproveOperation(_, _, _) =>
    case Probe(_) =>
    case _ => PerformingFrame(w.books, beat.order);
  }

  lemma CreatingRecordsNothing(b: Books, p: Proposal)
    ensures Created(b, p).0.evaluations == b.evaluations
  {
    hide Exhausted, SystemOf, Opened;
    OpeningRecordsNothing(b, p);
  }

  lemma OpeningRecordsNothing(b: Books, p: Proposal)
    ensures Opened(b, p).evaluations == b.evaluations
  {
    hide WithSystem, WithBudget, SystemOf;
    SystemRecordsNothing(b, p);
    BudgetRecordsNothing(WithSystem(b, p), SystemOf(b, p), p.limits);
  }

  lemma SystemRecordsNothing(b: Books, p: Proposal)
    ensures WithSystem(b, p).evaluations == b.evaluations
  {
  }

  lemma BudgetRecordsNothing(b: Books, systemId: string, limits: RecursionLimits)
    ensures WithBudget(b, systemId, limits).evaluations == b.evaluations
  {
  }

  lemma ProfilingRecordsNothing(b: Books, name: string, profile: string)
    ensures ProfileSet(b, name, profile).0.evaluations == b.evaluations
  {
  }

  lemma OrderKeepsTimely(w: World, governor: string, beat: Beat, after: World, t: int)
    requires Leads(w, governor, beat, after) && Timely(w.books.evaluations, t) && t <= beat.env.now
    ensures Timely(after.books.evaluations, beat.env.now)
  {
    hide Leads, Recorded;
    OnlyBeginningRecords(w, governor, beat, after);
    if after.books.evaluations != w.books.evaluations {
      var id: string, e: Evaluation :| e.decidedAt == beat.env.now && after.books.evaluations == Recorded(w.books, id, e).evaluations;
      RecordingKeepsTimely(w.books, id, e, t);
    }
  }

  lemma MoveKeepsTimely(w: World, governor: string, move: Move, after: World, t: int)
    requires Goes(w, governor, move, after) && Timely(w.books.evaluations, t) && t <= TimeOf(move)
    ensures Timely(after.books.evaluations, TimeOf(move))
  {
    hide Leads, Registered;
    if move.Serve? {
      OrderKeepsTimely(w, governor, move.beat, after, t);
    }
  }

  lemma {:induction false} RunIsTimely(trace: seq<World>, moves: seq<Move>, governor: string, n: nat)
    requires IsRun(trace, moves, governor) && 0 < n <= |moves| && Monotone(moves)
    ensures Timely(trace[n].books.evaluations, TimeOf(moves[n - 1]))
  {
    hide Goes, Timely, TimeOf, GateSound;
    assert Goes(trace[n - 1], governor, moves[n - 1], trace[n]);
    if n == 1 {
      assert Timely(trace[0].books.evaluations, TimeOf(moves[0])) by { NothingIsTimely(TimeOf(moves[0])); }
      MoveKeepsTimely(trace[0], governor, moves[0], trace[1], TimeOf(moves[0]));
    } else {
      RunIsTimely(trace, moves, governor, n - 1);
      MoveKeepsTimely(trace[n - 1], governor, moves[n - 1], trace[n], TimeOf(moves[n - 2]));
    }
  }

  lemma NothingIsTimely(t: int)
    ensures Timely(NO_BOOKS.evaluations, t)
  {
  }

  /**
   * Under a clock that never runs back, a promoted generation's last recorded evaluation used the profile active then, if
   * one was set since the process started.
   */
  lemma LastEvaluationUsedActiveProfile(trace: seq<World>, moves: seq<Move>, governor: string, i: nat, id: string)
    requires IsRun(trace, moves, governor) && i < |moves| && Promotes(trace[i].books, trace[i + 1].books, id)
    requires Monotone(moves)
    ensures id in trace[i].books.evaluations && trace[i].books.evaluations[id] != []
    ensures var b, recorded := trace[i].books, trace[i].books.evaluations[id];
            b.generations[id].systemId in b.profiles ==> recorded[|recorded| - 1].profile == b.profiles[b.generations[id].systemId]
  {
    hide Endorsed, Goes, GateSound;
    EveryPromotionIsGuarded(trace, moves, governor, i, id);
    if i > 0 {
      RunIsTimely(trace, moves, governor, i);
    }
  }

  /** While the process lives, no system loses its active profile, and evaluating a generation gives its system one. */
  lemma ServingKeepsProfiles(w: World, governor: string, beat: Beat, after: World)
    requires Leads(w, governor, beat, after)
    ensures w.books.profiles.Keys <= after.books.profiles.Keys
    ensures beat.order.BeginEvaluation? && Handle(w, governor, beat.order, beat.env).1 == Ok ==>
              beat.order.generationId in after.books.generations
              && after.books.generations[beat.order.generationId].systemId in after.books.profiles
  {
    hide Performed, EvaluationBegun, EvaluationFinished, Created;
    BooksAfter(w, governor, beat);
    match beat.order
    case Create(p) => CreatingKeepsProfiles(w.books, p);
    case SetProfile(_, _) =>
    case BeginEvaluation(pid, id, profile, measured) => BeginningSetsProfile(w.books, pid, id, profile, measured, beat.env.now);
    case FinishEvaluation(pid, verified) => FinishingKeepsProfiles(w.books, pid, verified);
    case ApproveOperation(_, _, _) =>
    case Probe(_) =>
    case _ => PerformingKeepsProfiles(w.books, beat.order);
  }

  lemma CreatingKeepsProfiles(b: Books, p: Proposal)
    ensures Created(b, p).0.profiles == b.profiles
  {
    hide Exhausted;
  }

  lemma FinishingKeepsProfiles(b: Books, pid: nat, verified: Option<bool>)
    requires pid in b.waiting
    ensures EvaluationFinished(b, pid, verified).0.profiles == b.profiles
  {
    hide Moved;
    if verified.Some? {
      MoveFrame(b.(waiting := b.waiting - {pid}), b.waiting[pid].generationId, Target(b.waiting[pid].measure, verified.value));
    }
  }

  lemma BeginningSetsProfile(b: Books, pid: nat, id: string, profile: string, measured: Option<Measure>, now: int)
    ensures var (after, answer) := EvaluationBegun(b, pid, id, profile, measured, now);
            && b.profiles.Keys <= after.profiles.Keys
            && (answer == Ok ==> id in after.generations && after.generations[id].systemId in after.profiles)
  {
    hide Entered;
    if id in b.generations {
      EnteringKeepsSystem(b, id);
    }
  }

  lemma EnteringKeepsSystem(b: Books, id: string)
    requires id in b.generations
    ensures var after := Entered(b, id);
            && after.profiles == b.profiles && id in after.generations && after.generations[id].systemId == b.generations[id].systemId
  {
  }

  lemma BuildKeepsProfiles(b: Books, id: string, effort: Effort)
    ensures BuildDone(b, id, effort).0.profiles == b.profiles
  {
    hide Moved;
    MoveFrame(b, id, Building);
    MoveFrame(WithWorkspace(Moved(b, id, Building).0, id), id, Built);
  }

  lemma PerformingKeepsProfiles(b: Books, order: Order)
    requires Guarded(order)
    ensures Performed(b, order).0.profiles == b.profiles
  {
    hide Moved, BuildDone, ProfileStale, ParentStale;
    match order
    case AuthorizeGeneration(id) => MoveFrame(b, id, Authorized);
    case Build(id, effort) => BuildKeepsProfiles(b, id, effort);
    case StartCanary(id, _, _) => MoveFrame(b, id, Canary);
    case Promote(id, _) => MoveFrame(b, id, Promoted);
    case RollBack(id, target, _, onDisk) =>
      var restored := target in b.workspaces && onDisk;
      MoveFrame(b.(rollbacks := b.rollbacks + [RollbackRecord(id, target, restored)]), id, if restored then RolledBack else Indeterminate);
  }

  /** Generations never leave the store, and never change system. */
  predicate Lasting(before: Generations, after: Generations) {
    forall g :: g in before ==> g in after && after[g].systemId == before[g].systemId
  }

  lemma MoveKeepsGenerations(b: Books, id: string, to: Status)
    ensures Lasting(b.generations, Moved(b, id, to).0.generations)
  {
    hide Lasting, Successors;
    NothingMoves(b.generations);
    if id in b.generations {
      StatusLasts(b.generations, id, to);
    }
  }

  lemma StatusLasts(generations: Generations, id: string, to: Status)
    requires id in generations
    ensures Lasting(generations, generations[id := generations[id].(status := to)])
  {
  }

  lemma LastingIsTransitive(a: Generations, b: Generations, c: Generations)
    requires Lasting(a, b) && Lasting(b, c)
    ensures Lasting(a, c)
  {
  }

  lemma PerformingKeepsGenerations(b: Books, order: Order)
    requires Guarded(order)
    ensures Lasting(b.generations, Performed(b, order).0.generations)
  {
    hide Moved, Lasting;
    assert Lasting(b.generations, b.generations) by { NothingMoves(b.generations); }
    match order
    case AuthorizeGeneration(id) => MoveKeepsGenerations(b, id, Authorized);
    case Build(id, effort) =>
      var tracked := WithWorkspace(Moved(b, id, Building).0, id);
      MoveKeepsGenerations(b, id, Building);
      MoveKeepsGenerations(tracked, id, Built);
      LastingIsTransitive(b.generations, tracked.generations, Moved(tracked, id, Built).0.generations);
    case StartCanary(id, _, _) => MoveKeepsGenerations(b, id, Canary);
    case Promote(id, _) => MoveKeepsGenerations(b, id, Promoted);
    case RollBack(id, target, _, onDisk) =>
      var restored := target in b.workspaces && onDisk;
      MoveKeepsGenerations(b.(rollbacks := b.rollbacks + [RollbackRecord(id, target, restored)]), id, if restored then RolledBack else Indeterminate);
  }

  lemma NothingMoves(generations: Generations)
    ensures Lasting(generations, generations)
  {
  }

  lemma EvaluatingKeepsGenerations(b: Books, pid: nat, id: string, profile: string, measured: Option<Measure>, now: int)
    ensures Lasting(b.generations, EvaluationBegun(b, pid, id, profile, measured, now).0.generations)
  {
    hide Moved, Lasting;
    NothingMoves(b.generations);
    MoveKeepsGenerations(b, id, Evaluating);
  }

  lemma FinishingKeepsGenerations(b: Books, pid: nat, verified: Option<bool>)
    requires pid in b.waiting
    ensures Lasting(b.generations, EvaluationFinished(b, pid, verified).0.generations)
  {
    hide Moved, Lasting;
    NothingMoves(b.generations);
    if verified.Some? {
      MoveKeepsGenerations(b.(waiting := b.waiting - {pid}), b.waiting[pid].generationId, Target(b.waiting[pid].measure, verified.value));
    }
  }

  lemma CreatingKeepsGenerations(b: Books, p: Proposal)
    requires p.generationId !in b.generations
    ensures Lasting(b.generations, Created(b, p).0.generations)
  {
    hide Exhausted, Opened, Lasting, SystemOf;
    assert Opened(b, p).generations == b.generations by { OpeningCreatesNothing(b, p); }
    NothingMoves(b.generations);
    OneMoreLasts(b.generations, p.generationId, Generation(SystemOf(b, p), p.parent, Proposed));
  }

  lemma OneMoreLasts(generations: Generations, id: string, g: Generation)
    requires id !in generations
    ensures Lasting(generations, generations[id := g])
  {
  }

  lemma ServingKeepsGenerations(w: World, governor: string, beat: Beat, after: World)
    requires Leads(w, governor, beat, after)
    ensures Lasting(w.books.generations, after.books.generations)
  {
    hide Performed, EvaluationBegun, EvaluationFinished, Created, Lasting;
    BooksAfter(w, governor, beat);
    NothingMoves(w.books.generations);
    match beat.order
    case Create(p) => CreatingKeepsGenerations(w.books, p);
    case SetProfile(_, _) =>
    case BeginEvaluation(pid, id, profile, measured) => EvaluatingKeepsGenerations(w.books, pid, id, profile, measured, beat.env.now);
    case FinishEvaluation(pid, verified) => FinishingKeepsGenerations(w.books, pid, verified);
    case ApproveOperation(_, _, _) =>
    case Probe(_) =>
    case _ => PerformingKeepsGenerations(w.books, beat.order);
  }

  ghost predicate HasProfile(b: Books, id: string) {
    id in b.generations && b.generations[id].systemId in b.profiles
  }

  lemma ServingKeepsProfileOf(w: World, governor: string, beat: Beat, after: World, id: string)
    requires Leads(w, governor, beat, after) && HasProfile(w.books, id)
    ensures HasProfile(after.books, id)
  {
    hide Leads;
    ServingKeepsProfiles(w, governor, beat, after);
    ServingKeepsGenerations(w, governor, beat, after);
  }

  lemma {:induction false} ProfileLastsWithProcess(trace: seq<World>, moves: seq<Move>, governor: string, k: nat, i: nat, id: string)
    requires IsRun(trace, moves, governor) && k <= i <= |moves| && HasProfile(trace[k].books, id)
    requires forall m :: k <= m < i ==> moves[m].Serve?
    ensures HasProfile(trace[i].books, id)
    decreases i
  {
    hide GateSound, Leads, HasProfile;
    if k < i {
      ProfileLastsWithProcess(trace, moves, governor, k, i - 1, id);
      assert Goes(trace[i - 1], governor, moves[i - 1], trace[i]);
      ServingKeepsProfileOf(trace[i - 1], governor, moves[i - 1].beat, trace[i], id);
    }
  }

  /**
   * If the process that promotes a generation also evaluated it, at any earlier time, its system has an active profile and
   * the promotion rests on an evaluation under it.
   */
  lemma EvaluatedInThisProcessUsesActiveProfile(trace: seq<World>, moves: seq<Move>, governor: string, k: nat, i: nat, id: string)
    requires IsRun(trace, moves, governor) && k < i < |moves| && Promotes(trace[i].books, trace[i + 1].books, id)
    requires forall m :: k <= m < i ==> moves[m].Serve?
    requires moves[k].beat.order.BeginEvaluation? && moves[k].beat.order.generationId == id
    requires Possible(trace[k], governor, moves[k].beat) && Handle(trace[k], governor, moves[k].beat.order, moves[k].beat.env).1 == Ok
    ensures var b := trace[i].books;
            && id in b.generations && b.generations[id].systemId in b.profiles && Latest(EvaluationsOf(b, id)).Some?
            && Latest(EvaluationsOf(b, id)).value.profile == b.profiles[b.generations[id].systemId]
  {
    hide GateSound, Endorsed, Handle, Possible;
    assert Goes(trace[k], governor, moves[k], trace[k + 1]);
    ServingKeepsProfiles(trace[k], governor, moves[k].beat, trace[k + 1]);
    ProfileLastsWithProcess(trace, moves, governor, k + 1, i, id);
    EveryPromotionIsGuarded(trace, moves, governor, i, id);
  }

  // --- When a promotion succeeds --------------------------------------------------------------------------------

  lemma OperationIsBound(governor: string, role: string, issued: int, k: nat)
    requires k < |OPERATIONS|
    ensures var e, action := GovernorEnvelope(governor, role, issued), "improvement." + OPERATIONS[k];
            FindBinding(e.bindings, action) == Some(BindingFor(OPERATIONS[k])) && action in e.toolsAllow
  {
    hide Coherent;
    var e := GovernorEnvelope(governor, role, issued);
    GovernorEnvelopeIsCoherent(governor, role, issued);
    assert e.bindings[k] == BindingFor(OPERATIONS[k]) && e.toolsAllow[k] == "improvement." + OPERATIONS[k];
    assert DistinctActions(e.bindings) by { CoherentIsDistinct(e); }
    BindingIsUnique(e.bindings, BindingFor(OPERATIONS[k]));
  }

  lemma CoherentIsDistinct(e: Envelope)
    requires Coherent(e)
    ensures DistinctActions(e.bindings)
  {
  }

  /** Every operation but invoking a tool reads below one tree. */
  lemma GenerationPathIsCovered(governor: string, role: string, issued: int, operation: string, id: string, knownAgents: set<string>)
    requires operation != "invoke_candidate_tool"
    ensures var resource := "/improvement/generations/" + id;
            Covers(GovernorEnvelope(governor, role, issued), BindingFor(operation), resource, knownAgents) <==> ValidFile(resource)
  {
    hide ValidFile;
    var resource := "/improvement/generations/" + id;
    var pattern := "/improvement/**";
    assert pattern[12..] == "/**" && pattern[..13] == "/improvement/" && resource[..13] == "/improvement/";
    assert MatchesPattern(resource, pattern, true);
    assert GovernorEnvelope(governor, role, issued).files.read == [pattern];
    assert pattern in GovernorEnvelope(governor, role, issued).files.read;
  }

  lemma EngineAllowsOperationExactlyWhen(governor: string, role: string, issued: int, operation: string, id: string,
                                         approvalId: Option<string>, context: Context)
    requires operation in OPERATIONS && operation != "invoke_candidate_tool"
    ensures var request := OperationRequest(governor, operation, id, approvalId);
            Evaluate(request, Some(GovernorEnvelope(governor, role, issued)), context) == Allow <==>
              && !context.revoked && context.now < issued + YEAR_MS && ValidFile(request.resource)
              && WithinLifetime(request, GOVERNOR_LIMITS, context.usage, context.now)
              && (operation in APPROVED_OPERATIONS ==> context.approvalValid)
  {
    var request, e := OperationRequest(governor, operation, id, approvalId), GovernorEnvelope(governor, role, issued);
    hide Evaluate, Covers, ValidFile, WithinLifetime, FindRule, FindBinding;
    var k :| 0 <= k < |OPERATIONS| && OPERATIONS[k] == operation;
    assert request.action == "improvement." + operation == request.tool;
    OperationIsBound(governor, role, issued, k);
    GenerationPathIsCovered(governor, role, issued, operation, id, context.knownAgents);
    OperationWantsApproval(governor, role, issued, operation);
    AllowsWhenBindingGrants(request, e, context, BindingFor(operation));
  }

  lemma AskingDecides(db: Db, principal: Principal, request: Request, env: Ambient)
    requires principal == AgentPrincipal(request.agentId) && request.agentId in db.agents
    ensures var outcome := Step(db, Authorize(principal, request), env).1;
            if IsRequest(request) && env.appendOk then outcome == Decided(DecisionFor(db, request, env)) else outcome.Failed?
  {
  }

  /** What the request schema wants of the caller's ids and path. */
  predicate Fits(governor: string, id: string, approvalId: Option<string>) {
    && IsId(governor) && IsLabel("/improvement/generations/" + id)
    && (approvalId.Some? && approvalId.value != "" ==> IsId(approvalId.value))
  }

  lemma OperationFitsExactlyWhen(governor: string, operation: string, id: string, approvalId: Option<string>)
    requires operation in OPERATIONS
    ensures IsRequest(OperationRequest(governor, operation, id, approvalId)) <==> Fits(governor, id, approvalId)
  {
    hide IsId, IsLabel, OperationName;
    OperationsAreNamed();
    var k :| 0 <= k < |OPERATIONS| && OPERATIONS[k] == operation;
    OperationIsId(operation);
    assert ("improvement." + operation)[0] == 'i' && INPUT_TOOL[0] == 'd';
  }

  /** The governor's year is not over, and an hour, a thousand calls, a hundred dollars and a thousand retries leave room. */
  predicate HasRoom(db: Db, governor: string, issued: int, operation: string, now: int) {
    && now < issued + 31_536_000_000
    && var usage := UsageOf(db.usage, governor);
    && (usage.startedAt.Some? ==> now < usage.startedAt.value + 3_600_000)
    && usage.calls < 1000 && usage.costMicros <= 100_000_000 && AttemptsFor(usage, "improvement." + operation) <= 1000
  }

  lemma RoomIsLifetime(db: Db, governor: string, issued: int, operation: string, id: string, approvalId: Option<string>, now: int)
    ensures HasRoom(db, governor, issued, operation, now) <==>
              now < issued + YEAR_MS
              && WithinLifetime(OperationRequest(governor, operation, id, approvalId), GOVERNOR_LIMITS, UsageOf(db.usage, governor), now)
  {
  }

  /** The request for an operation on a generation, with the approval presented: an empty one counts as none. */
  function Asking(governor: string, operation: string, id: string, approvalId: Option<string>): Request {
    Wanted(governor, operation, id).(approvalId := if approvalId == Some("") then None else approvalId)
  }

  /** All that the Gate demands for an operation on a generation. */
  predicate GateLets(db: Db, governor: string, issued: int, operation: string, id: string, approvalId: Option<string>, env: Ambient)
    requires governor in db.agents
  {
    && Fits(governor, id, approvalId) && env.appendOk && !db.agents[governor].revoked
    && HasRoom(db, governor, issued, operation, env.now) && ValidFile("/improvement/generations/" + id)
    && (WantsApproval(operation) ==> PresentsValidApproval(db, Asking(governor, operation, id, approvalId), env.now))
  }

  /**
   * The Gate allows the governor an operation on a generation exactly when the request satisfies the schema, the governor
   * is not revoked, its lease and limits leave room, the path is canonical, the evidence can be written and, to promote, roll
   * back or start a canary, the approval presented is valid for it.
   */
  lemma OperationIsAllowedExactlyWhen(db: Db, governor: string, role: string, issued: int, operation: string, id: string,
                                      approvalId: Option<string>, env: Ambient)
    requires governor in db.policies && db.policies[governor].envelope == GovernorEnvelope(governor, role, issued)
    requires governor in db.agents && operation in OPERATIONS && operation != "invoke_candidate_tool"
    ensures var outcome := Step(db, Authorize(AgentPrincipal(governor), OperationRequest(governor, operation, id, approvalId)), env).1;
            && (outcome.Decided? || outcome.Failed?)
            && (outcome.Decided? && outcome.decision.verdict == Allow <==> GateLets(db, governor, issued, operation, id, approvalId, env))
  {
    hide Step, Evaluate, ValidFile, WithinLifetime, PresentsValidApproval, OperationRequest, IsRequest, Fits, HasRoom, WantsApproval;
    var request := OperationRequest(governor, operation, id, approvalId);
    RequestIsGovernors(governor, operation, id, approvalId);
    OperationFitsExactlyWhen(governor, operation, id, approvalId);
    AskingDecides(db, AgentPrincipal(governor), request, env);
    RoomIsLifetime(db, governor, issued, operation, id, approvalId, env.now);
    ApprovedOperationsAreThese(operation);
    EngineAllowsOperationExactlyWhen(governor, role, issued, operation, id, approvalId,
                                     ContextOf(db, governor, PresentsValidApproval(db, request, env.now), env.now));
  }

  lemma RequestIsGovernors(governor: string, operation: string, id: string, approvalId: Option<string>)
    ensures OperationRequest(governor, operation, id, approvalId).agentId == governor
    ensures OperationRequest(governor, operation, id, approvalId) == Asking(governor, operation, id, approvalId)
    ensures OperationRequest(governor, operation, id, approvalId).resource == "/improvement/generations/" + id
  {
  }

  /**
   * From any world of a run, a promote order is carried out if and only if the Gate lets a promotion through and the
   * generation is a canary whose evaluation and parent are current.
   */
  lemma PromotionSucceedsExactlyWhen(w: World, governor: string, role: string, issued: int, id: string, approvalId: Option<string>, env: Ambient)
    requires governor in w.gate.policies && w.gate.policies[governor].envelope == GovernorEnvelope(governor, role, issued)
    requires governor in w.gate.agents && BooksSound(w.books)
    ensures Handle(w, governor, Promote(id, approvalId), env).1 == Ok <==>
              && GateLets(w.gate, governor, issued, "promote", id, approvalId, env)
              && id in w.books.generations && w.books.generations[id].status == Canary && Current(w.books, id)
  {
    hide Step, GateLets, BooksSound, Current, Promotion, OperationRequest;
    OperationsAreThese("promote");
    OperationIsAllowedExactlyWhen(w.gate, governor, role, issued, "promote", id, approvalId, env);
    CanaryIsPromotedExactlyWhen(w.books, id);
  }

  lemma OperationsAreThese(operation: string)
    requires operation == "promote" || operation == "rollback" || operation == "start_canary" || operation == "build"
             || operation == "authorize_generation"
    ensures operation in OPERATIONS && operation != "invoke_candidate_tool"
  {
    assert OPERATIONS[0] == "authorize_generation" && OPERATIONS[1] == "build" && OPERATIONS[3] == "start_canary"
        && OPERATIONS[4] == "promote" && OPERATIONS[5] == "rollback";
    assert operation[0] != "invoke_candidate_tool"[0];
  }

  lemma CanaryIsPromotedExactlyWhen(b: Books, id: string)
    requires BooksSound(b)
    ensures Promotion(b, id).1 == Ok <==> id in b.generations && b.generations[id].status == Canary && Current(b, id)
  {
    hide NamesSound, AcceptedSound, Charged, Latest;
    if id in b.generations && b.generations[id].status == Canary {
      CanaryHasRecord(b, id);
    }
  }

  // --- What a promotion does not look at -------------------------------------------------------------------------

  function Regraded(evaluations: seq<Evaluation>, m: Measure): (r: seq<Evaluation>)
    ensures |r| == |evaluations|
    ensures forall i :: 0 <= i < |r| ==> r[i] == evaluations[i].(measure := m)
  {
    seq(|evaluations|, i requires 0 <= i < |evaluations| => evaluations[i].(measure := m))
  }

  lemma {:induction false} RegradingKeepsLatest(evaluations: seq<Evaluation>, m: Measure)
    ensures Latest(evaluations).None? <==> Latest(Regraded(evaluations, m)).None?
    ensures Latest(evaluations).Some? ==> Latest(Regraded(evaluations, m)) == Some(Latest(evaluations).value.(measure := m))
  {
    if evaluations != [] {
      var last := |evaluations| - 1;
      RegradingKeepsLatest(evaluations[..last], m);
      assert Regraded(evaluations, m)[..last] == Regraded(evaluations[..last], m);
    }
  }

  /** Whether a generation can be promoted does not depend on what its evaluations found: one on hold is promoted like any other. */
  lemma PromotionIgnoresFindings(b: Books, id: string, m: Measure)
    ensures var other := b.(evaluations := b.evaluations[id := Regraded(EvaluationsOf(b, id), m)]);
            && Promotion(other, id).1 == Promotion(b, id).1
            && Promotion(other, id).0.generations == Promotion(b, id).0.generations
            && Promotion(other, id).0.accepted == Promotion(b, id).0.accepted
  {
    hide ProfileStale, ParentStale;
    var other := b.(evaluations := b.evaluations[id := Regraded(EvaluationsOf(b, id), m)]);
    if id in b.generations {
      RegradingKeepsStaleness(b, id, m, b.generations[id].systemId);
      assert ParentStale(other, b.generations[id]) == ParentStale(b, b.generations[id]) by { ParentStaleDependsOn(b, other, b.generations[id]); }
      MovedDependsOn(b, other, id, Promoted);
    }
  }

  lemma RegradingKeepsStaleness(b: Books, id: string, m: Measure, systemId: string)
    ensures ProfileStale(b.(evaluations := b.evaluations[id := Regraded(EvaluationsOf(b, id), m)]), id, systemId) == ProfileStale(b, id, systemId)
  {
    hide Latest, Regraded;
    RegradingKeepsLatest(EvaluationsOf(b, id), m);
  }

  lemma ParentStaleDependsOn(b: Books, other: Books, g: Generation)
    requires b.accepted == other.accepted
    ensures ParentStale(b, g) == ParentStale(other, g)
  {
  }

  lemma MovedDependsOn(b: Books, other: Books, id: string, to: Status)
    requires b.generations == other.generations && b.accepted == other.accepted
    ensures Moved(b, id, to).1 == Moved(other, id, to).1
    ensures Moved(b, id, to).0.generations == Moved(other, id, to).0.generations
    ensures Moved(b, id, to).0.accepted == Moved(other, id, to).0.accepted
  {
    hide Successors;
    if id in b.generations {
      var g := b.generations[id];
      if to in Successors(g.status) && (to == Promoted ==> g.systemId in b.accepted) {
        var generations := b.generations[id := g.(status := to)];
        var accepted := if to == Promoted then b.accepted[g.systemId := Some(id)] else b.accepted;
        assert Moved(b, id, to) == (b.(generations := generations, accepted := accepted), Ok);
        assert Moved(other, id, to) == (other.(generations := generations, accepted := accepted), Ok);
      } else {
        assert Moved(b, id, to).0 == b && Moved(other, id, to).0 == other;
      }
    }
  }

  // --- Rollbacks ------------------------------------------------------------------------------------------------

  /**
   * A rollback moves the generation exactly when its status has the edge; the record says restored whenever the target
   * was found, also when the generation is then refused the move.
   */
  lemma RollbackMovesExactlyWhen(b: Books, id: string, target: string, onDisk: bool)
    requires id in b.generations && target in b.generations
    ensures var (after, answer) := Rollback(b, id, target, onDisk);
            var status, restored := b.generations[id].status, target in b.workspaces && onDisk;
            && after.rollbacks == b.rollbacks + [RollbackRecord(id, target, restored)]
            && (answer == Ok <==> status == Canary || (restored && status == Promoted) || (!restored && (status == Building || status == Evaluating)))
            && (answer != Ok ==> after.generations == b.generations)
            && after.accepted == b.accepted
  {
  }

  /** A rolled-back generation stays its system's baseline: only its children, and generations without a parent, get promoted. */
  lemma RolledBackStaysBaseline(b: Books, id: string, target: string, onDisk: bool, candidate: string)
    requires BooksSound(b) && id in b.generations && candidate in b.generations && b.generations[candidate].parent.Some?
    requires b.generations[candidate].systemId == b.generations[id].systemId && b.accepted[b.generations[id].systemId] == Some(id)
    requires candidate != id
    ensures var after := Rollback(b, id, target, onDisk).0;
            Promotion(after, candidate).1 == Ok ==> b.generations[candidate].parent == Some(id)
  {
    hide NamesSound, AcceptedSound, Assessed, Charged;
  }

  // --- Restarts --------------------------------------------------------------------------------------------------

  /** After a restart nothing is known about active profiles, and a canary is promoted whatever profile it was evaluated under. */
  lemma RestartForgetsActiveProfile(b: Books, id: string)
    requires BooksSound(b)
    ensures Promotion(Restarted(b), id).1 == Ok <==>
              id in b.generations && b.generations[id].status == Canary && !ParentStale(b, b.generations[id])
  {
    hide NamesSound, AcceptedSound, Assessed, Charged;
  }

  // --- The governor's own limits ------------------------------------------------------------------------------------

  /**
   * Whatever the governor is allowed, in this process or any other, it is allowed within an hour of the first thing it ever
   * was.
   */
  lemma EveryAllowIsWithinAnHourOfFirst(trace: seq<World>, moves: seq<Move>, governor: string, i: nat)
    requires IsRun(trace, moves, governor) && i < |moves|
    requires |trace[i].gate.evidence| < |trace[i + 1].gate.evidence|
    requires var e := trace[i + 1].gate.evidence[|trace[i + 1].gate.evidence| - 1]; Allowed(e) && e.decision.agentId == governor
    ensures AllowedWithin(trace[i + 1].gate.evidence, governor, 3_600_000)
  {
    hide BooksSound, Sound, AllowedWithin, GovernorPolicy, Step, Registered;
    RunIsSound(trace, moves, governor, i);
    RunIsSound(trace, moves, governor, i + 1);
    assert Goes(trace[i], governor, moves[i], trace[i + 1]);
    OneRecordAllows(trace[i], governor, moves[i], trace[i + 1]);
    NewAllowIsWithinRuntime(trace[i].gate, trace[i + 1].gate, governor);
    GovernorRunsAnHour(trace[i].gate.policies[governor], governor);
  }

  lemma OneRecordAllows(w: World, governor: string, move: Move, after: World)
    requires Goes(w, governor, move, after) && |w.gate.evidence| < |after.gate.evidence|
    requires Allowed(after.gate.evidence[|after.gate.evidence| - 1])
    ensures |after.gate.evidence| == |w.gate.evidence| + 1 && w.gate.evidence <= after.gate.evidence
  {
    hide Step, Registered, Possible, Performed, Unguarded, GateCall;
    match move
    case Serve(beat) =>
      if Asks(beat.order) {
        OneCallOneRecord(w, governor, beat, after);
      }
    case Restart(role, first, second) => RestartAllowsNothing(w.gate, governor, role, first, second);
  }

  lemma OneCallOneRecord(w: World, governor: string, beat: Beat, after: World)
    requires Leads(w, governor, beat, after) && Asks(beat.order)
    ensures |after.gate.evidence| <= |w.gate.evidence| + 1 && w.gate.evidence <= after.gate.evidence
  {
    hide Step, Possible, Performed, Unguarded;
    FailureLeavesNoTrace(w.gate, GateCall(governor, beat.order, beat.env.now), beat.env);
  }

  lemma RestartAllowsNothing(db: Db, governor: string, role: string, first: Ambient, second: Ambient)
    ensures var after := Registered(db, governor, role, first, second).0;
            |after.evidence| > |db.evidence| ==> !Allowed(after.evidence[|after.evidence| - 1])
  {
    hide Step;
    var call := Register(ADMINISTRATOR, governor, DisplayName(governor), first.id);
    OnlyAuthorizeAllows(db, call, first);
    OnlyAuthorizeAllows(Step(db, call, first).0, SetEnvelope(ADMINISTRATOR, GovernorEnvelope(governor, role, second.now)), second);
  }

  lemma OnlyAuthorizeAllows(db: Db, call: Call, env: Ambient)
    requires !call.Authorize?
    ensures var after := Step(db, call, env).0;
            |after.evidence| >= |db.evidence| && (after.evidence == db.evidence || !Allowed(after.evidence[|after.evidence| - 1]))
  {
    hide WellFormed, IsId, IsLabel, IsRequest, Evaluate, FindRule;
  }

  /** Once the Gate has allowed the governor anything, no promotion happens from an hour later on, in this process or any after it. */
  lemma PromotionWithinAnHourOfFirstAllow(trace: seq<World>, moves: seq<Move>, governor: string, i: nat, id: string)
    requires IsRun(trace, moves, governor) && i < |moves| && Promotes(trace[i].books, trace[i + 1].books, id)
    ensures trace[i + 1].gate.evidence != [] && AllowedWithin(trace[i + 1].gate.evidence, governor, 3_600_000)
  {
    hide Goes, BooksSound, Sound, AllowedWithin, GovernorPolicy;
    EveryPromotionIsGuarded(trace, moves, governor, i, id);
    RunIsSound(trace, moves, governor, i);
    RunIsSound(trace, moves, governor, i + 1);
    NewAllowIsWithinRuntime(trace[i].gate, trace[i + 1].gate, governor);
    GovernorRunsAnHour(trace[i].gate.policies[governor], governor);
  }

  lemma GovernorRunsAnHour(policy: IssuedPolicy, governor: string)
    requires GovernorPolicy(policy, governor)
    ensures policy.envelope.limits.maxRuntimeSeconds == 3600
  {
  }
}
