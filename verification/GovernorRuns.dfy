/** Every run of the governor: what a promotion rests on, how accepted generations follow each other, what a budget bounds. */
module GovernorRuns {
  import opened Policy
  import opened Text
  import opened Schema
  import opened Evidence
  import opened GateService
  import opened GateRuns
  import opened GateHistory
  import opened Governor

  datatype Beat = Beat(order: Order, env: Ambient)

  /** Minted identifiers are new, and only an evaluation that waits can finish. */
  predicate Possible(w: World, governor: string, beat: Beat) {
    match beat.order
    case Create(p) => p.systemId !in w.books.accepted && p.systemId != PROBE && p.generationId !in w.books.generations
    case SetProfile(_, _) => true
    case BeginEvaluation(pid, _, _, _) => pid !in w.books.waiting
    case FinishEvaluation(pid, _) => pid in w.books.waiting
    case _ => FreshTurn(w.gate, Turn(GateCall(governor, beat.order, beat.env.now), beat.env))
  }

  predicate Leads(w: World, governor: string, beat: Beat, after: World) {
    Possible(w, governor, beat) && after == Handle(w, governor, beat.order, beat.env).0
  }

  // What happens next: the process serves an order, or is replaced by a new one on the same stores.
  datatype Move = Serve(beat: Beat) | Restart(role: string, first: Ambient, second: Ambient)

  // A start that fails serves nothing until another one succeeds; letting it serve only adds runs.
  predicate Goes(w: World, governor: string, move: Move, after: World) {
    match move
    case Serve(beat) => Leads(w, governor, beat, after)
    case Restart(role, first, second) =>
      && Fresh(w.gate.evidence, |w.gate.evidence|, second.id)
      && after == World(Registered(w.gate, governor, role, first, second).0, Restarted(w.books))
  }

  /**
   * A run: the worlds before and after each move, from an empty governor store and a Gate of any history in which nobody
   * else issued the governor a policy.
   */
  ghost predicate IsRun(trace: seq<World>, moves: seq<Move>, governor: string) {
    && |trace| == |moves| + 1
    && trace[0].books == NO_BOOKS && GateSound(trace[0].gate, governor)
    && forall i :: 0 <= i < |moves| ==> Goes(trace[i], governor, moves[i], trace[i + 1])
  }

  // --- The invariant on the books ------------------------------------------------------------------------

  type Generations = map<string, Generation>
  type Accepted = map<string, Option<string>>
  type Evaluations = map<string, seq<Evaluation>>

  ghost predicate NamesSound(names: map<string, string>, accepted: Accepted) {
    && (forall n :: n in names ==> names[n] in accepted)
    && (forall m, n :: m in names && n in names && m != n ==> names[m] != names[n])
  }

  ghost predicate RowsSound(accepted: Accepted, generations: Generations) {
    && (forall g :: g in generations ==> generations[g].systemId in accepted)
    && (forall g :: g in generations && generations[g].parent.Some? ==> generations[g].parent.value in generations)
  }

  ghost predicate Tracked(b: Books) {
    && (forall s :: s in b.accepted ==> s in b.budgets && s != PROBE)
    && (forall s :: s in b.budgets ==> s in b.accepted || s == PROBE)
    && b.workspaces.Keys == b.specs <= b.generations.Keys
  }

  /** An accepted generation is one of the system's own that was promoted, and may have been rolled back since. */
  ghost predicate AcceptedSound(accepted: Accepted, generations: Generations) {
    forall s :: s in accepted && accepted[s].Some? ==>
      && accepted[s].value in generations
      && var g := generations[accepted[s].value];
      g.systemId == s && (g.status == Promoted || g.status == RolledBack)
  }

  /** The generation was evaluated, in this process or an earlier one. */
  ghost predicate HasRecord(generations: Generations, evaluations: Evaluations, generationId: string) {
    generationId in generations && generationId in evaluations && evaluations[generationId] != []
  }

  predicate PastEvaluation(status: Status) {
    status == Evaluated || status == AwaitingApproval || status == Canary || status == Promoted
  }

  ghost predicate Assessed(generations: Generations, evaluations: Evaluations, waiting: map<nat, Waiting>) {
    && (forall g :: g in generations && PastEvaluation(generations[g].status) ==> HasRecord(generations, evaluations, g))
    && (forall p :: p in waiting ==> HasRecord(generations, evaluations, waiting[p].generationId))
  }

  function GenerationsOf(generations: Generations, systemId: string): set<string> {
    set g | g in generations && generations[g].systemId == systemId
  }

  /** The least whole number not below x. */
  function Ceiling(x: real): (n: int)
    ensures n as real - 1.0 < x <= n as real
  {
    if x.Floor as real == x then x.Floor else x.Floor + 1
  }

  predicate WithinBound(limit: Limit, used: nat) {
    limit.bound.Some? ==> used <= if limit.bound.value > 0.0 then Ceiling(limit.bound.value) else 0
  }

  ghost predicate Charged(generations: Generations, budgets: map<string, Budget>) {
    && (forall s :: s in budgets ==> budgets[s].generations == |GenerationsOf(generations, s)|)
    && (forall s :: s in budgets ==> WithinBound(budgets[s].limits.generations, budgets[s].generations))
    && (forall s :: s in budgets && budgets[s].generations > 0 ==> !Blocked(budgets[s].limits))
  }

  ghost predicate BooksSound(b: Books) {
    && NamesSound(b.names, b.accepted) && RowsSound(b.accepted, b.generations) && Tracked(b)
    && AcceptedSound(b.accepted, b.generations)
    && Assessed(b.generations, b.evaluations, b.waiting)
    && Charged(b.generations, b.budgets)
  }

  // --- Moving a generation -------------------------------------------------------------------------------

  predicate OneMoved(before: Generations, after: Generations, id: string, to: Status) {
    id in before && after == before[id := before[id].(status := to)]
  }

  lemma MoveKeepsRows(accepted: Accepted, before: Generations, after: Generations, id: string, to: Status)
    requires RowsSound(accepted, before) && OneMoved(before, after, id, to)
    ensures RowsSound(accepted, after) && after.Keys == before.Keys
  {
  }

  lemma MoveKeepsAccepted(accepted: Accepted, before: Generations, after: Generations, id: string, to: Status)
    requires AcceptedSound(accepted, before) && OneMoved(before, after, id, to) && to in Successors(before[id].status)
    ensures AcceptedSound(accepted, after)
    ensures to == Promoted ==> AcceptedSound(accepted[before[id].systemId := Some(id)], after)
  {
  }

  lemma MoveKeepsCharged(before: Generations, after: Generations, id: string, to: Status, budgets: map<string, Budget>)
    requires Charged(before, budgets) && OneMoved(before, after, id, to)
    ensures Charged(after, budgets)
  {
    forall s ensures GenerationsOf(after, s) == GenerationsOf(before, s) {
    }
  }

  /** Only the step into Evaluated needs a basis that was not needed before. */
  lemma MoveKeepsAssessed(before: Generations, after: Generations, id: string, to: Status, evaluations: Evaluations,
                          waiting: map<nat, Waiting>)
    requires Assessed(before, evaluations, waiting) && OneMoved(before, after, id, to) && to in Successors(before[id].status)
    requires to == Evaluated ==> HasRecord(before, evaluations, id)
    ensures Assessed(after, evaluations, waiting)
  {
    forall g | HasRecord(before, evaluations, g) ensures HasRecord(after, evaluations, g) {
    }
  }

  lemma MoveKeepsSound(b: Books, id: string, to: Status)
    requires BooksSound(b) && (to == Evaluated ==> HasRecord(b.generations, b.evaluations, id))
    ensures BooksSound(Moved(b, id, to).0)
  {
    hide AcceptedSound, Assessed, Charged, Successors, Tracked, NamesSound, RowsSound;
    var (after, answer) := Moved(b, id, to);
    if answer == Ok {
      MoveKeepsRows(b.accepted, b.generations, after.generations, id, to);
      MoveKeepsAccepted(b.accepted, b.generations, after.generations, id, to);
      MoveKeepsCharged(b.generations, after.generations, id, to, b.budgets);
      MoveKeepsAssessed(b.generations, after.generations, id, to, b.evaluations, b.waiting);
      MoveKeepsTracked(b, after);
    }
  }

  lemma MoveKeepsTracked(b: Books, after: Books)
    requires Tracked(b) && NamesSound(b.names, b.accepted) && RowsSound(b.accepted, after.generations)
    requires after.accepted.Keys == b.accepted.Keys && after.generations.Keys == b.generations.Keys
    requires after.names == b.names && after.budgets == b.budgets && after.workspaces == b.workspaces && after.specs == b.specs
    ensures Tracked(after) && NamesSound(after.names, after.accepted) && RowsSound(after.accepted, after.generations)
  {
    assert forall s :: s in after.accepted <==> s in after.accepted.Keys;
    assert forall s :: s in b.accepted <==> s in b.accepted.Keys;
  }

  // --- Each handler keeps the invariant -------------------------------------------------------------------

  lemma NamingKeepsSound(b: Books, p: Proposal)
    requires NamesSound(b.names, b.accepted) && RowsSound(b.accepted, b.generations) && AcceptedSound(b.accepted, b.generations)
    requires p.systemId !in b.accepted
    ensures var after := WithSystem(b, p);
            && NamesSound(after.names, after.accepted) && RowsSound(after.accepted, after.generations)
            && AcceptedSound(after.accepted, after.generations)
  {
    assert WithSystem(b, p).generations == b.generations;
    NamingKeepsNames(b.names, b.accepted, p.name, p.systemId);
  }

  lemma NamingKeepsNames(names: map<string, string>, accepted: Accepted, name: string, systemId: string)
    requires NamesSound(names, accepted) && systemId !in accepted
    ensures name !in names ==> NamesSound(names[name := systemId], accepted[systemId := None])
  {
  }

  lemma NewBudgetKeepsCharged(generations: Generations, accepted: Accepted, budgets: map<string, Budget>, systemId: string, limits: RecursionLimits)
    requires RowsSound(accepted, generations) && Charged(generations, budgets) && systemId !in accepted
    ensures Charged(generations, budgets[systemId := Budget(limits, 0)])
  {
    assert GenerationsOf(generations, systemId) == {};
  }

  lemma OpeningKeepsCharged(b: Books, p: Proposal)
    requires RowsSound(b.accepted, b.generations) && Charged(b.generations, b.budgets) && Tracked(b)
    requires p.systemId !in b.accepted && p.systemId != PROBE && (p.name in b.names ==> b.names[p.name] in b.accepted)
    ensures Charged(Opened(b, p).generations, Opened(b, p).budgets) && Tracked(Opened(b, p))
  {
    if p.name !in b.names {
      NewBudgetKeepsCharged(b.generations, b.accepted, b.budgets, p.systemId, p.limits);
    }
  }

  lemma OpeningKeepsSound(b: Books, p: Proposal)
    requires BooksSound(b) && p.systemId !in b.accepted && p.systemId != PROBE
    ensures BooksSound(Opened(b, p)) && Opened(b, p).generations == b.generations && SystemOf(b, p) in Opened(b, p).accepted
  {
    hide RowsSound, AcceptedSound, Charged, Assessed;
    assert p.name in b.names ==> b.names[p.name] in b.accepted;
    NamingKeepsSound(b, p);
    OpeningKeepsCharged(b, p);
  }

  lemma ProposalKeepsAssessed(b: Books, id: string, g: Generation)
    requires Assessed(b.generations, b.evaluations, b.waiting) && id !in b.generations && g.status == Proposed
    ensures Assessed(b.generations[id := g], b.evaluations, b.waiting)
  {
    forall x | HasRecord(b.generations, b.evaluations, x) ensures HasRecord(b.generations[id := g], b.evaluations, x) {
    }
  }

  /** One more generation, one more charged; the check before it left room for one. */
  lemma ProposalKeepsCharged(generations: Generations, budgets: map<string, Budget>, id: string, g: Generation)
    requires Charged(generations, budgets) && g.systemId in budgets && id !in generations && !Exhausted(budgets[g.systemId])
    ensures Charged(generations[id := g],
                    budgets[g.systemId := budgets[g.systemId].(generations := budgets[g.systemId].generations + 1)])
  {
    forall s | s in budgets
      ensures |GenerationsOf(generations[id := g], s)| == |GenerationsOf(generations, s)| + if s == g.systemId then 1 else 0
    {
      NewGenerationCounts(generations, id, g, s);
    }
    RoomForOne(budgets[g.systemId].limits.generations, budgets[g.systemId].generations);
  }

  lemma RoomForOne(limit: Limit, used: nat)
    requires !Reached(limit, used)
    ensures WithinBound(limit, used + 1)
  {
  }

  lemma NewGenerationCounts(generations: Generations, id: string, g: Generation, s: string)
    requires id !in generations
    ensures |GenerationsOf(generations[id := g], s)| == |GenerationsOf(generations, s)| + if s == g.systemId then 1 else 0
  {
    assert GenerationsOf(generations[id := g], s)
        == if s == g.systemId then GenerationsOf(generations, s) + {id} else GenerationsOf(generations, s);
  }

  lemma ProposalKeepsRows(accepted: Accepted, generations: Generations, id: string, g: Generation)
    requires RowsSound(accepted, generations) && AcceptedSound(accepted, generations) && id !in generations
    requires g.systemId in accepted && (g.parent.Some? ==> g.parent.value in generations)
    ensures RowsSound(accepted, generations[id := g]) && AcceptedSound(accepted, generations[id := g])
  {
  }

  lemma ProposalKeepsSound(b: Books, systemId: string, id: string, parent: Option<string>)
    requires BooksSound(b) && systemId in b.accepted && systemId in b.budgets && id !in b.generations && !Exhausted(b.budgets[systemId])
    requires parent.Some? ==> parent.value in b.generations
    ensures BooksSound(WithGeneration(b, systemId, id, parent))
  {
    hide NamesSound, RowsSound, AcceptedSound, Assessed, Charged, Exhausted;
    var g := Generation(systemId, parent, Proposed);
    ProposalKeepsRows(b.accepted, b.generations, id, g);
    ProposalKeepsAssessed(b, id, g);
    ProposalKeepsCharged(b.generations, b.budgets, id, g);
    assert Tracked(WithGeneration(b, systemId, id, parent));
  }

  lemma CreateKeepsSound(b: Books, p: Proposal)
    requires BooksSound(b) && p.systemId !in b.accepted && p.systemId != PROBE && p.generationId !in b.generations
    ensures BooksSound(Created(b, p).0)
  {
    OpeningKeepsSound(b, p);
    if Created(b, p).1 == Ok {
      ProposalKeepsSound(Opened(b, p), SystemOf(b, p), p.generationId, p.parent);
    }
  }

  lemma ProbeKeepsSound(b: Books)
    requires BooksSound(b)
    ensures BooksSound(WithBudget(b, PROBE, PROBE_LIMITS))
  {
    hide NamesSound, AcceptedSound, Assessed;
    NewBudgetKeepsCharged(b.generations, b.accepted, b.budgets, PROBE, PROBE_LIMITS);
  }

  lemma ProfilesKeepSound(b: Books, profiles: map<string, string>)
    requires BooksSound(b)
    ensures BooksSound(b.(profiles := profiles))
  {
  }

  lemma RestartKeepsSound(b: Books)
    requires BooksSound(b)
    ensures BooksSound(Restarted(b))
  {
    hide NamesSound, RowsSound, AcceptedSound, Charged;
  }

  lemma WorkspaceKeepsSound(b: Books, id: string)
    requires BooksSound(b) && id in b.workspaces
    ensures BooksSound(WithWorkspace(b, id))
  {
    assert b.workspaces[id := true].Keys == b.workspaces.Keys;
  }

  lemma BuildKeepsSound(b: Books, id: string, effort: Effort)
    requires BooksSound(b)
    ensures BooksSound(BuildDone(b, id, effort).0)
  {
    hide BooksSound, Successors;
    if id in b.workspaces {
      var (building, answer) := Moved(b, id, Building);
      MoveKeepsSound(b, id, Building);
      if answer == Ok {
        WorkspaceKeepsSound(building, id);
        MoveKeepsSound(WithWorkspace(building, id), id, Built);
      }
    }
  }

  lemma RecordingKeepsSound(b: Books, pid: nat, id: string, e: Evaluation, waiting: Waiting)
    requires BooksSound(b) && id in b.generations && waiting.generationId == id
    ensures BooksSound(Recorded(b, id, e).(waiting := b.waiting[pid := waiting]))
  {
    hide NamesSound, RowsSound, AcceptedSound, Charged;
    var evaluations := Recorded(b, id, e).evaluations;
    assert HasRecord(b.generations, evaluations, id);
    forall g | HasRecord(b.generations, b.evaluations, g) ensures HasRecord(b.generations, evaluations, g) {
    }
  }

  lemma EnteringKeepsSound(b: Books, id: string)
    requires BooksSound(b) && id in b.generations
    ensures BooksSound(Entered(b, id)) && id in Entered(b, id).generations
    ensures Entered(b, id).generations[id].systemId == b.generations[id].systemId && Entered(b, id).waiting == b.waiting
  {
    hide BooksSound, Successors;
    MoveKeepsSound(b, id, Evaluating);
  }

  lemma BeginKeepsSound(b: Books, pid: nat, id: string, profile: string, measured: Option<Measure>, now: int)
    requires BooksSound(b)
    ensures BooksSound(EvaluationBegun(b, pid, id, profile, measured, now).0)
  {
    hide BooksSound, Moved;
    if id in b.generations {
      EnteringKeepsSound(b, id);
      var entered := Entered(b, id);
      var profiled := WithDefaultProfile(entered, b.generations[id].systemId, profile);
      ProfilesKeepSound(entered, profiled.profiles);
      if measured.Some? {
        RecordingKeepsSound(profiled, pid, id, Evaluation(profile, measured.value, now), Waiting(id, measured.value));
      }
    }
  }

  lemma FinishKeepsSound(b: Books, pid: nat, verified: Option<bool>)
    requires BooksSound(b) && pid in b.waiting
    ensures BooksSound(EvaluationFinished(b, pid, verified).0)
  {
    var done := b.(waiting := b.waiting - {pid});
    assert BooksSound(done);
    if verified.Some? {
      MoveKeepsSound(done, b.waiting[pid].generationId, Target(b.waiting[pid].measure, verified.value));
    }
  }

  lemma RollbackKeepsSound(b: Books, id: string, target: string, onDisk: bool)
    requires BooksSound(b)
    ensures BooksSound(Rollback(b, id, target, onDisk).0)
  {
    if id in b.generations && target in b.generations {
      var restored := target in b.workspaces && onDisk;
      var noted := b.(rollbacks := b.rollbacks + [RollbackRecord(id, target, restored)]);
      assert BooksSound(noted);
      MoveKeepsSound(noted, id, if restored then RolledBack else Indeterminate);
    }
  }

  lemma PerformingKeepsSound(b: Books, order: Order)
    requires BooksSound(b) && Guarded(order)
    ensures BooksSound(Performed(b, order).0)
  {
    match order
    case AuthorizeGeneration(id) => MoveKeepsSound(b, id, Authorized);
    case Build(id, effort) => BuildKeepsSound(b, id, effort);
    case StartCanary(id, _, _) => MoveKeepsSound(b, id, Canary);
    case Promote(id, _) => MoveKeepsSound(b, id, Promoted);
    case RollBack(id, target, _, onDisk) => RollbackKeepsSound(b, id, target, onDisk);
  }

  lemma UnguardedKeepsSound(w: World, governor: string, beat: Beat)
    requires BooksSound(w.books) && Possible(w, governor, beat) && !Guarded(beat.order) && !beat.order.ApproveOperation?
    ensures BooksSound(Unguarded(w.books, beat.order, beat.env.now).0)
  {
    match beat.order
    case Create(p) => CreateKeepsSound(w.books, p);
    case SetProfile(name, profile) =>
      if name in w.books.names { ProfilesKeepSound(w.books, w.books.profiles[w.books.names[name] := profile]); }
    case BeginEvaluation(pid, id, profile, measured) => BeginKeepsSound(w.books, pid, id, profile, measured, beat.env.now);
    case FinishEvaluation(pid, verified) => FinishKeepsSound(w.books, pid, verified);
    case Probe(_) => ProbeKeepsSound(w.books);
  }

  /** What one order does to the books: nothing, or what the handler does on its own. */
  lemma BooksAfter(w: World, governor: string, beat: Beat)
    requires Possible(w, governor, beat)
    ensures var after := Handle(w, governor, beat.order, beat.env).0.books;
            || after == w.books
            || (Guarded(beat.order) && after == Performed(w.books, beat.order).0)
            || (!Guarded(beat.order) && !beat.order.ApproveOperation? && after == Unguarded(w.books, beat.order, beat.env.now).0)
  {
  }

  lemma HandleKeepsBooks(w: World, governor: string, beat: Beat)
    requires BooksSound(w.books) && Possible(w, governor, beat)
    ensures BooksSound(Handle(w, governor, beat.order, beat.env).0.books)
  {
    BooksAfter(w, governor, beat);
    if Guarded(beat.order) {
      PerformingKeepsSound(w.books, beat.order);
    } else if !beat.order.ApproveOperation? {
      UnguardedKeepsSound(w, governor, beat);
    }
  }

  // --- The Gate under the governor -------------------------------------------------------------------------

  ghost predicate GovernorPolicy(policy: IssuedPolicy, governor: string) {
    exists role: string, issued: int :: policy.envelope == GovernorEnvelope(governor, role, issued)
  }

  /** The Gate's tables are sound, and the governor acts under an envelope it issued to itself, if under any. */
  ghost predicate GateSound(db: Db, governor: string) {
    Sound(db) && (governor in db.policies ==> GovernorPolicy(db.policies[governor], governor))
  }

  lemma HandleKeepsGate(w: World, governor: string, beat: Beat)
    requires GateSound(w.gate, governor) && Possible(w, governor, beat)
    ensures GateSound(Handle(w, governor, beat.order, beat.env).0.gate, governor)
    ensures w.gate.evidence <= Handle(w, governor, beat.order, beat.env).0.gate.evidence
  {
    hide Sound, GovernorPolicy;
    if Asks(beat.order) {
      var call := GateCall(governor, beat.order, beat.env.now);
      StepKeepsSound(w.gate, call, beat.env);
      OnlySetEnvelopeIssues(w.gate, call, beat.env);
      FailureLeavesNoTrace(w.gate, call, beat.env);
    }
  }

  lemma RegisterIsMinor(db: Db, governor: string, first: Ambient, id: string)
    requires Sound(db) && Fresh(db.evidence, |db.evidence|, id)
    ensures var joined := Step(db, Register(ADMINISTRATOR, governor, DisplayName(governor), first.id), first).0;
            && Sound(joined) && joined.policies == db.policies && db.evidence <= joined.evidence
            && Fresh(joined.evidence, |joined.evidence|, id)
  {
    var call := Register(ADMINISTRATOR, governor, DisplayName(governor), first.id);
    StepKeepsSound(db, call, first);
    FailureLeavesNoTrace(db, call, first);
  }

  lemma IssueIsGovernors(db: Db, governor: string, role: string, second: Ambient)
    requires GateSound(db, governor) && Fresh(db.evidence, |db.evidence|, second.id)
    ensures var after := Step(db, SetEnvelope(ADMINISTRATOR, GovernorEnvelope(governor, role, second.now)), second).0;
            GateSound(after, governor) && db.evidence <= after.evidence
  {
    hide Sound, WellFormed, GovernorEnvelope;
    var call := SetEnvelope(ADMINISTRATOR, GovernorEnvelope(governor, role, second.now));
    StepKeepsSound(db, call, second);
    FailureLeavesNoTrace(db, call, second);
  }

  lemma RestartKeepsGate(db: Db, governor: string, role: string, first: Ambient, second: Ambient)
    requires GateSound(db, governor) && Fresh(db.evidence, |db.evidence|, second.id)
    ensures GateSound(Registered(db, governor, role, first, second).0, governor)
    ensures db.evidence <= Registered(db, governor, role, first, second).0.evidence
  {
    hide Sound, Step, GovernorPolicy, GovernorEnvelope;
    RegisterIsMinor(db, governor, first, second.id);
    IssueIsGovernors(Step(db, Register(ADMINISTRATOR, governor, DisplayName(governor), first.id), first).0, governor, role, second);
  }

  lemma OperationsAreDistinct()
    ensures forall i, j :: 0 <= i < j < |OPERATIONS| ==> "improvement." + OPERATIONS[i] != "improvement." + OPERATIONS[j]
  {
    forall i, j | 0 <= i < j < |OPERATIONS| ensures "improvement." + OPERATIONS[i] != "improvement." + OPERATIONS[j] {
      assert ("improvement." + OPERATIONS[i])[12..] == OPERATIONS[i];
      assert ("improvement." + OPERATIONS[j])[12..] == OPERATIONS[j];
    }
  }

  predicate PlainDirectory(name: string) {
    && name != "" && name != "." && name != ".."
    && forall i :: 0 <= i < |name| ==> 'a' <= name[i] <= 'z' || name[i] == '_'
  }

  /** The tree below a plain top-level directory is a canonical scope. */
  lemma PlainTreeIsCanonical(name: string)
    requires PlainDirectory(name)
    ensures CanonicalScope("/" + name + "/**")
  {
    var pattern, path := "/" + name + "/**", "/" + name;
    assert pattern[|pattern| - 3..] == "/**" && pattern[..|pattern| - 3] == path;
    SplitPlain(name, '/');
    assert path[1..] == name;
    assert Split(path, '/') == [""] + [name];
    assert forall c :: c in path ==> c == '/' || c in name;
  }

  /**
   * On any Gate the governor starts if and only if its id and the approver role are proper ids, it was not revoked, the
   * evidence can be written and, if it was registered before, a policy issued to it since bears its identity; else the
   * policies stay as they were.
   */
  lemma GovernorStartsExactlyWhen(db: Db, governor: string, role: string, first: Ambient, second: Ambient)
    ensures var (after, outcome) := Registered(db, governor, role, first, second);
            && (outcome == Outcome.Done <==>
                  && IsId(governor) && IsId(role) && second.appendOk
                  && (if governor in db.agents then !db.agents[governor].revoked else first.appendOk)
                  && (governor in db.agents && governor in db.policies ==>
                        db.policies[governor].envelope.identity
                          == Identity("Improvement Governor (" + governor + ")", "improvement-governor", "tna-improvement-governor")))
            && (outcome != Outcome.Done ==> after.policies == db.policies)
            && (outcome == Outcome.Done ==> governor in after.policies && after.policies == db.policies[governor := after.policies[governor]]
                                            && after.policies[governor].envelope.identity == GovernorIdentity(governor))
  {
    hide Step, IsId, GovernorEnvelope, DisplayName;
    GovernorJoins(db, governor, first);
    GovernorIsIssued(Step(db, Register(ADMINISTRATOR, governor, DisplayName(governor), first.id), first).0, governor, role, second);
    IdentityIs(governor);
  }

  lemma IdentityIs(governor: string)
    ensures GovernorIdentity(governor)
            == Identity("Improvement Governor (" + governor + ")", "improvement-governor", "tna-improvement-governor")
  {
  }

  lemma GovernorJoins(db: Db, governor: string, env: Ambient)
    ensures var (after, outcome) := Step(db, Register(ADMINISTRATOR, governor, DisplayName(governor), env.id), env);
            && after.policies == db.policies
            && (outcome.Failed? <==> !IsId(governor) || governor in db.agents || !env.appendOk)
            && (outcome == Failed(409) <==> IsId(governor) && governor in db.agents)
            && (governor in after.agents <==> governor in db.agents || (IsId(governor) && env.appendOk))
            && (governor in after.agents ==> after.agents[governor].revoked == (governor in db.agents && db.agents[governor].revoked))
  {
    hide IsId, IsLabel, DisplayName;
    if IsId(governor) {
      DisplayNameIsLabel(governor);
    }
  }

  lemma GovernorIsIssued(db: Db, governor: string, role: string, env: Ambient)
    ensures var (after, outcome) := Step(db, SetEnvelope(ADMINISTRATOR, GovernorEnvelope(governor, role, env.now)), env);
            && (outcome == Outcome.Done <==>
                  IsId(governor) && IsId(role) && env.appendOk && governor in db.agents && !db.agents[governor].revoked)
            && (outcome != Outcome.Done ==> after.policies == db.policies)
            && (outcome == Outcome.Done ==> governor in after.policies && after.policies == db.policies[governor := after.policies[governor]]
                                            && after.policies[governor].envelope.identity == GovernorIdentity(governor))
  {
    hide WellFormed, IsId;
    GovernorEnvelopeIsWellFormedExactlyWhen(governor, role, env.now);
  }

  /** What an earlier process of the governor left bears its identity. */
  lemma OwnPolicyStarts(db: Db, governor: string, role: string, first: Ambient, second: Ambient)
    requires GateSound(db, governor)
    ensures Registered(db, governor, role, first, second).1 == Outcome.Done <==>
              && IsId(governor) && IsId(role) && second.appendOk
              && if governor in db.agents then !db.agents[governor].revoked else first.appendOk
  {
    hide Sound, IsId, Registered;
    GovernorStartsExactlyWhen(db, governor, role, first, second);
  }

  lemma DisplayNameIsLabel(governor: string)
    requires IsId(governor)
    ensures IsLabel(DisplayName(governor))
  {
  }

  predicate OperationName(name: string) {
    0 < |name| < 100 && forall i :: 0 <= i < |name| ==> 'a' <= name[i] <= 'z' || name[i] == '_'
  }

  lemma OperationIsId(name: string)
    requires OperationName(name)
    ensures IsId("improvement." + name)
  {
    var prefix := "improvement.";
    forall c | c in prefix + name ensures c in prefix || c in name {
    }
  }

  lemma OperationsAreNamed()
    ensures forall i :: 0 <= i < |OPERATIONS| ==> OperationName(OPERATIONS[i])
    ensures forall i :: 0 <= i < |APPROVED_OPERATIONS| ==> OperationName(APPROVED_OPERATIONS[i])
  {
    assert OperationName("authorize_generation") && OperationName("build") && OperationName("invoke_candidate_tool");
    assert OperationName("start_canary") && OperationName("promote") && OperationName("rollback") && OperationName("authority_expansion");
  }

  lemma GovernorIdsAreIds(governor: string, role: string, now: int)
    ensures var e := GovernorEnvelope(governor, role, now);
            && Ids(e.toolsAllow) && (forall b :: b in e.bindings ==> IsId(b.action) && IsId(b.tool) && IsLabel(b.outcome))
            && ((forall r :: r in e.approvals ==> IsId(r.action) && IsId(r.approverRole)) <==> IsId(role))
  {
    hide IsId, IsLabel, OperationName;
    var e := GovernorEnvelope(governor, role, now);
    OperationsAreNamed();
    forall i | 0 <= i < |OPERATIONS| ensures IsId("improvement." + OPERATIONS[i]) {
      OperationIsId(OPERATIONS[i]);
    }
    forall i | 0 <= i < |APPROVED_OPERATIONS| ensures IsId("improvement." + APPROVED_OPERATIONS[i]) {
      OperationIsId(APPROVED_OPERATIONS[i]);
    }
    OutcomesAreLabels();
    assert e.approvals[0] in e.approvals && e.approvals[0].approverRole == role;
  }

  lemma OutcomesAreLabels()
    ensures IsLabel("generation promoted") && IsLabel("generation rejected") && IsLabel("generation rolled back")
    ensures IsLabel("self-promotion") && IsLabel("authority self-expansion") && IsLabel("/improvement/**")
  {
  }

  lemma GovernorConstantsFit(governor: string)
    ensures IsId("improvement-governor") && IsId("tna-improvement-governor") && IsId("recursive-improvement")
    ensures LimitsInRange(GOVERNOR_LIMITS) && (IsId(governor) ==> IsLabel(DisplayName(governor)))
  {
  }

  lemma GovernorEnvelopeIsShapedExactlyWhen(governor: string, role: string, now: int)
    ensures Shaped(GovernorEnvelope(governor, role, now)) <==> IsId(governor) && IsId(role)
  {
    hide IsId, IsLabel, IsHost, LimitsInRange, DisplayName;
    GovernorConstantsFit(governor);
    GovernorIdsAreIds(governor, role, now);
    OutcomesAreLabels();
  }

  lemma GovernorEnvelopeIsWellFormedExactlyWhen(governor: string, role: string, now: int)
    ensures WellFormed(GovernorEnvelope(governor, role, now)) <==> IsId(governor) && IsId(role)
  {
    hide Shaped, Coherent, IsId;
    GovernorEnvelopeIsShapedExactlyWhen(governor, role, now);
    GovernorEnvelopeIsCoherent(governor, role, now);
  }

  lemma GovernorEnvelopeIsCoherent(governor: string, role: string, now: int)
    ensures Coherent(GovernorEnvelope(governor, role, now))
  {
    hide CanonicalScope, FindBinding, BindingAccepted;
    var e := GovernorEnvelope(governor, role, now);
    OperationsAreDistinct();
    GovernorScopeIsCanonical();
    assert e.files.read + e.files.write == ["/improvement/**"];
    OperationBindingsAreAccepted(governor, role, now);
    forall r | r in e.approvals ensures FindBinding(e.bindings, r.action).Some? {
      ApprovedOperationIsBound(governor, role, now, r);
    }
    ApprovedOperationsAreDistinct(governor, role, now);
  }

  lemma GovernorScopeIsCanonical()
    ensures CanonicalScope("/improvement/**")
  {
    hide CanonicalScope;
    assert PlainDirectory("improvement");
    PlainTreeIsCanonical("improvement");
    assert "/" + "improvement" + "/**" == "/improvement/**";
  }

  lemma OperationBindingsAreAccepted(governor: string, role: string, now: int)
    ensures var e := GovernorEnvelope(governor, role, now); forall b :: b in e.bindings ==> BindingAccepted(e, b)
  {
    var e := GovernorEnvelope(governor, role, now);
    forall b | b in e.bindings ensures BindingAccepted(e, b) {
      var i :| 0 <= i < |OPERATIONS| && e.bindings[i] == b;
      assert e.toolsAllow[i] == b.tool && b.action[0] == 'i';
    }
  }

  lemma ApprovedOperationIsBound(governor: string, role: string, now: int, r: Rule)
    requires r in GovernorEnvelope(governor, role, now).approvals
    ensures FindBinding(GovernorEnvelope(governor, role, now).bindings, r.action).Some?
  {
    var e := GovernorEnvelope(governor, role, now);
    var i :| 0 <= i < |APPROVED_OPERATIONS| && e.approvals[i] == r;
    assert APPROVED_OPERATIONS[i] in OPERATIONS by {
      assert OPERATIONS[4] == APPROVED_OPERATIONS[0] && OPERATIONS[5] == APPROVED_OPERATIONS[1];
      assert OPERATIONS[3] == APPROVED_OPERATIONS[2] && OPERATIONS[6] == APPROVED_OPERATIONS[3];
    }
    var k :| 0 <= k < |OPERATIONS| && OPERATIONS[k] == APPROVED_OPERATIONS[i];
    assert e.bindings[k].action == r.action && e.bindings[k] in e.bindings;
  }

  lemma ApprovedOperationsAreDistinct(governor: string, role: string, now: int)
    ensures var rules := GovernorEnvelope(governor, role, now).approvals;
            forall i, j :: 0 <= i < j < |rules| ==> rules[i].action != rules[j].action
  {
    var rules := GovernorEnvelope(governor, role, now).approvals;
    forall i, j | 0 <= i < j < |rules| ensures rules[i].action != rules[j].action {
      assert rules[i].action[12..] == APPROVED_OPERATIONS[i] && rules[j].action[12..] == APPROVED_OPERATIONS[j];
    }
  }

  ghost predicate Inv(w: World, governor: string) {
    GateSound(w.gate, governor) && BooksSound(w.books)
  }

  lemma EmptyBooksAreSound()
    ensures BooksSound(NO_BOOKS)
  {
    forall s ensures GenerationsOf(map[], s) == {} {
    }
  }

  lemma MoveKeepsInv(w: World, governor: string, move: Move, after: World)
    requires Inv(w, governor) && Goes(w, governor, move, after)
    ensures Inv(after, governor) && w.gate.evidence <= after.gate.evidence
  {
    hide BooksSound, GateSound, Handle, Registered, Restarted, Possible;
    match move
    case Serve(beat) =>
      HandleKeepsGate(w, governor, beat);
      HandleKeepsBooks(w, governor, beat);
    case Restart(role, first, second) =>
      RestartKeepsGate(w.gate, governor, role, first, second);
      RestartKeepsSound(w.books);
  }

  lemma {:induction false} RunIsSound(trace: seq<World>, moves: seq<Move>, governor: string, n: nat)
    requires IsRun(trace, moves, governor) && n <= |moves|
    ensures Inv(trace[n], governor)
  {
    hide BooksSound, GateSound, Goes;
    if n == 0 {
      EmptyBooksAreSound();
    } else {
      RunIsSound(trace, moves, governor, n - 1);
      assert Goes(trace[n - 1], governor, moves[n - 1], trace[n]);
      MoveKeepsInv(trace[n - 1], governor, moves[n - 1], trace[n]);
    }
  }

  // --- What a promotion rests on ---------------------------------------------------------------------------

  predicate Promotes(before: Books, after: Books, id: string) {
    && id in before.generations && before.generations[id].status != Promoted
    && id in after.generations && after.generations[id].status == Promoted
  }

  /**
   * There is an evaluation; the one the promotion looked at used the active profile, if one was set in this process; and
   * the parent is not overtaken.
   */
  ghost predicate Current(b: Books, id: string) {
    && id in b.generations
    && var g := b.generations[id];
    && Latest(EvaluationsOf(b, id)).Some?
    && (g.systemId in b.profiles ==> Latest(EvaluationsOf(b, id)).value.profile == b.profiles[g.systemId])
    && g.systemId in b.accepted
    && (g.parent.None? || b.accepted[g.systemId].None? || b.accepted[g.systemId] == g.parent)
  }

  /** The role that must approve an operation under the governor's policy in force. */
  function ApproverRole(db: Db, governor: string, operation: string): Option<string> {
    if governor !in db.policies then None
    else
      var rule := FindRule(db.policies[governor].envelope.approvals, "improvement." + operation);
      if rule.None? then None else Some(rule.value.approverRole)
  }

  /** What a governor asks of the Gate for an operation on a generation, short of the approval it presents. */
  function Wanted(governor: string, operation: string, id: string): Request {
    Request(governor, "improvement." + operation, "improvement." + operation, "/improvement/generations/" + id, None, 0, None, None)
  }

  /** The Gate's new record allows the governor exactly this operation on this generation. */
  ghost predicate Permitted(before: Db, after: Db, governor: string, operation: string, id: string) {
    && |after.evidence| == |before.evidence| + 1 && before.evidence <= after.evidence
    && var e := after.evidence[|before.evidence|];
    && Allowed(e) && e.decision.agentId == governor
    && e.decision.request.(approvalId := None) == Wanted(governor, operation, id)
  }

  /** And it rests on an unused approval of the approver's role for it, now used up. */
  ghost predicate Endorsed(before: Db, after: Db, governor: string, operation: string, id: string) {
    && Permitted(before, after, governor, operation, id)
    && var e := after.evidence[|before.evidence|];
    && e.decision.approvalReference.Some?
    && var a := e.decision.approvalReference.value;
    && a in before.approvals && !before.approvals[a].used
    && Some(before.approvals[a].role) == ApproverRole(before, governor, operation) && before.approvals[a].agentId == governor
    && before.approvals[a].requestHash == OfRequest(Wanted(governor, operation, id))
    && a in after.approvals && after.approvals[a].used
  }

  lemma OperationWantsApproval(governor: string, role: string, issued: int, operation: string)
    ensures FindRule(GovernorEnvelope(governor, role, issued).approvals, "improvement." + operation)
              == if operation in APPROVED_OPERATIONS then Some(Rule("improvement." + operation, role)) else None
  {
    var rules := GovernorEnvelope(governor, role, issued).approvals;
    var found := FindRule(rules, "improvement." + operation);
    forall i | 0 <= i < |rules| ensures rules[i].action == "improvement." + operation <==> APPROVED_OPERATIONS[i] == operation {
      assert rules[i].action[12..] == APPROVED_OPERATIONS[i] && ("improvement." + operation)[12..] == operation;
    }
    forall i | 0 <= i < |rules| && APPROVED_OPERATIONS[i] == operation ensures found.Some? {
      assert rules[i] in rules;
    }
  }

  lemma DecidedMeans(db: Db, principal: Principal, request: Request, env: Ambient)
    requires Step(db, Authorize(principal, request), env).1.Decided?
    ensures request.agentId in db.agents
    ensures var (after, outcome) := Step(db, Authorize(principal, request), env);
            outcome.decision == DecisionFor(db, request, env) && after == AfterAuthorize(db, outcome.decision)
  {
  }

  lemma AllowUsesApproval(db: Db, request: Request, env: Ambient)
    requires request.agentId in db.agents && request.agentId in db.policies && DecisionFor(db, request, env).verdict.Allow?
    requires FindRule(db.policies[request.agentId].envelope.approvals, request.action).Some?
    ensures PresentsValidApproval(db, request, env.now)
  {
  }

  lemma AllowPermits(db: Db, governor: string, operation: string, id: string, request: Request, env: Ambient)
    requires request.agentId == governor && governor in db.agents && Bound(request) == Wanted(governor, operation, id)
    requires DecisionFor(db, request, env).verdict.Allow?
    ensures Permitted(db, AfterAuthorize(db, DecisionFor(db, request, env)), governor, operation, id)
  {
    hide Evaluate, FindRule, ContextOf, Charge, PresentsValidApproval;
  }

  lemma AllowEndorses(db: Db, governor: string, operation: string, id: string, request: Request, env: Ambient)
    requires request.agentId == governor && governor in db.agents && governor in db.policies
    requires Bound(request) == Wanted(governor, operation, id)
    requires request.action == "improvement." + operation && ApproverRole(db, governor, operation).Some?
    requires DecisionFor(db, request, env).verdict.Allow?
    ensures Endorsed(db, AfterAuthorize(db, DecisionFor(db, request, env)), governor, operation, id)
  {
    hide Evaluate, FindRule, ContextOf, Charge, Permitted;
    AllowUsesApproval(db, request, env);
    AllowPermits(db, governor, operation, id, request, env);
  }

  lemma RequestIsWanted(governor: string, operation: string, id: string, approvalId: Option<string>)
    ensures var request := OperationRequest(governor, operation, id, approvalId);
            && request.agentId == governor && request.action == "improvement." + operation
            && Bound(request) == Wanted(governor, operation, id)
  {
  }

  predicate WantsApproval(operation: string) {
    operation == "promote" || operation == "rollback" || operation == "start_canary" || operation == "authority_expansion"
  }

  lemma ApprovedOperationsAreThese(operation: string)
    ensures operation in APPROVED_OPERATIONS <==> WantsApproval(operation)
  {
    assert APPROVED_OPERATIONS[0] == "promote" && APPROVED_OPERATIONS[1] == "rollback" && APPROVED_OPERATIONS[2] == "start_canary"
        && APPROVED_OPERATIONS[3] == "authority_expansion";
  }

  lemma GovernorPolicyNamesRole(db: Db, governor: string, operation: string)
    requires governor in db.policies && GovernorPolicy(db.policies[governor], governor) && WantsApproval(operation)
    ensures ApproverRole(db, governor, operation).Some?
  {
    var role: string, issued: int :| db.policies[governor].envelope == GovernorEnvelope(governor, role, issued);
    ApprovedOperationsAreThese(operation);
    OperationWantsApproval(governor, role, issued, operation);
  }

  lemma AllowNeedsPolicy(db: Db, request: Request, env: Ambient)
    requires request.agentId in db.agents && DecisionFor(db, request, env).verdict.Allow?
    ensures request.agentId in db.policies
  {
  }

  /** What the Gate lets through is permitted and, for the operations that want one, endorsed by an approval. */
  lemma AllowedOperationIsEndorsed(db: Db, governor: string, operation: string, id: string, approvalId: Option<string>, env: Ambient)
    requires governor in db.policies ==> GovernorPolicy(db.policies[governor], governor)
    requires var outcome := Step(db, Authorize(AgentPrincipal(governor), OperationRequest(governor, operation, id, approvalId)), env).1;
             outcome.Decided? && outcome.decision.verdict == Allow
    ensures var after := Step(db, Authorize(AgentPrincipal(governor), OperationRequest(governor, operation, id, approvalId)), env).0;
            && Permitted(db, after, governor, operation, id)
            && (WantsApproval(operation) ==> Endorsed(db, after, governor, operation, id))
  {
    hide Step, Endorsed, Permitted, AfterAuthorize, DecisionFor, OperationRequest, Bound, GovernorPolicy, ApproverRole, WantsApproval, Wanted;
    var request := OperationRequest(governor, operation, id, approvalId);
    RequestIsWanted(governor, operation, id, approvalId);
    DecidedMeans(db, AgentPrincipal(governor), request, env);
    AllowNeedsPolicy(db, request, env);
    AllowPermits(db, governor, operation, id, request, env);
    if WantsApproval(operation) {
      GovernorPolicyNamesRole(db, governor, operation);
      AllowEndorses(db, governor, operation, id, request, env);
    }
  }

  /** Of all orders only a promotion promotes, and only from a canary with both guards passed. */
  lemma OnlyPromotionPromotes(b: Books, order: Order, id: string)
    requires Guarded(order) && Promotes(b, Performed(b, order).0, id)
    ensures order.Promote? && order.generationId == id && b.generations[id].status == Canary
    ensures !ProfileStale(b, id, b.generations[id].systemId) && !ParentStale(b, b.generations[id])
    ensures Performed(b, order).0 == Moved(b, id, Promoted).0 && Performed(b, order).1 == Ok
  {
    hide ProfileStale, ParentStale, Exhausted;
  }

  lemma NoneElsePromotes(w: World, governor: string, beat: Beat, id: string)
    requires Possible(w, governor, beat) && !Guarded(beat.order) && !beat.order.ApproveOperation?
    ensures !Promotes(w.books, Unguarded(w.books, beat.order, beat.env.now).0, id)
  {
    match beat.order
    case FinishEvaluation(pid, verified) => FinishPromotesNone(w.books, pid, verified, id);
    case BeginEvaluation(pid, g, profile, measured) => BeginPromotesNone(w.books, pid, g, profile, measured, beat.env.now, id);
    case _ =>
  }

  lemma MoveElsewherePromotesNone(b: Books, g: string, to: Status, id: string)
    requires to != Promoted
    ensures !Promotes(b, Moved(b, g, to).0, id)
  {
  }

  lemma FinishPromotesNone(b: Books, pid: nat, verified: Option<bool>, id: string)
    requires pid in b.waiting
    ensures !Promotes(b, EvaluationFinished(b, pid, verified).0, id)
  {
    hide Moved;
    if verified.Some? {
      MoveElsewherePromotesNone(b.(waiting := b.waiting - {pid}), b.waiting[pid].generationId,
                                Target(b.waiting[pid].measure, verified.value), id);
    }
  }

  lemma BeginPromotesNone(b: Books, pid: nat, g: string, profile: string, measured: Option<Measure>, now: int, id: string)
    ensures !Promotes(b, EvaluationBegun(b, pid, g, profile, measured, now).0, id)
  {
    hide Moved;
    MoveElsewherePromotesNone(b, g, Evaluating, id);
  }

  lemma CanaryHasRecord(b: Books, id: string)
    requires BooksSound(b) && id in b.generations && b.generations[id].status == Canary
    ensures HasRecord(b.generations, b.evaluations, id) && b.generations[id].systemId in b.accepted
  {
  }

  lemma PromotionIsGuarded(w: World, governor: string, beat: Beat, after: World, id: string)
    requires Inv(w, governor) && Leads(w, governor, beat, after) && Promotes(w.books, after.books, id)
    ensures beat.order.Promote? && beat.order.generationId == id && w.books.generations[id].status == Canary
    ensures Current(w.books, id)
    ensures after.books.accepted == w.books.accepted[w.books.generations[id].systemId := Some(id)]
    ensures Endorsed(w.gate, after.gate, governor, "promote", id)
  {
    hide Sound, RowsSound, AcceptedSound, NamesSound, Charged, Tracked, Performed, Unguarded, Assessed, GovernorPolicy;
    BooksAfter(w, governor, beat);
    if !Guarded(beat.order) {
      if !beat.order.ApproveOperation? {
        NoneElsePromotes(w, governor, beat, id);
      }
      assert false;
    }
    OnlyPromotionPromotes(w.books, beat.order, id);
    CanaryHasRecord(w.books, id);
    AllowedOperationIsEndorsed(w.gate, governor, "promote", id, beat.order.approvalId, beat.env);
  }

  /**
   * In every run, restarts and evaluations interleaved at their wait included, each promotion was asked for by a promote
   * order, came from a canary, rests on an evaluation, under the profile active at that moment if one was set since the
   * process started, and on a parent that is none or accepted (or nothing was accepted yet), and used up an approval given
   * for it by the role the governor's policy names.
   */
  lemma EveryPromotionIsGuarded(trace: seq<World>, moves: seq<Move>, governor: string, i: nat, id: string)
    requires IsRun(trace, moves, governor) && i < |moves| && Promotes(trace[i].books, trace[i + 1].books, id)
    ensures moves[i].Serve? && moves[i].beat.order.Promote? && moves[i].beat.order.generationId == id
    ensures trace[i].books.generations[id].status == Canary && Current(trace[i].books, id)
    ensures trace[i + 1].books.accepted == trace[i].books.accepted[trace[i].books.generations[id].systemId := Some(id)]
    ensures Endorsed(trace[i].gate, trace[i + 1].gate, governor, "promote", id)
  {
    hide Inv, GateSound, Leads;
    RunIsSound(trace, moves, governor, i);
    assert Goes(trace[i], governor, moves[i], trace[i + 1]);
    PromotionIsGuarded(trace[i], governor, moves[i].beat, trace[i + 1], id);
  }

  // --- One approval, one promotion -------------------------------------------------------------------------

  lemma {:induction false} EvidenceOnlyGrows(trace: seq<World>, moves: seq<Move>, governor: string, i: nat, j: nat)
    requires IsRun(trace, moves, governor) && i <= j <= |moves|
    ensures trace[i].gate.evidence <= trace[j].gate.evidence
    decreases j
  {
    hide Inv, GateSound, Goes;
    if i < j {
      EvidenceOnlyGrows(trace, moves, governor, i, j - 1);
      RunIsSound(trace, moves, governor, j - 1);
      assert Goes(trace[j - 1], governor, moves[j - 1], trace[j]);
      MoveKeepsInv(trace[j - 1], governor, moves[j - 1], trace[j]);
    }
  }

  /** No two promotions of a run rest on the same approval, in whichever process they happen. */
  lemma PromotionsHaveTheirOwnApprovals(trace: seq<World>, moves: seq<Move>, governor: string, i: nat, a: string, j: nat, b: string)
    requires IsRun(trace, moves, governor) && i < j < |moves|
    requires Promotes(trace[i].books, trace[i + 1].books, a) && Promotes(trace[j].books, trace[j + 1].books, b)
    ensures |trace[i].gate.evidence| < |trace[j].gate.evidence| < |trace[|moves|].gate.evidence|
    ensures var log := trace[|moves|].gate.evidence;
            && Consumed(log[|trace[i].gate.evidence|]).Some? && Consumed(log[|trace[j].gate.evidence|]).Some?
            && Consumed(log[|trace[i].gate.evidence|]) != Consumed(log[|trace[j].gate.evidence|])
  {
    hide BooksSound, Goes, GovernorPolicy, Keyed, AuditView, Replay;
    EveryPromotionIsGuarded(trace, moves, governor, i, a);
    EveryPromotionIsGuarded(trace, moves, governor, j, b);
    EvidenceOnlyGrows(trace, moves, governor, i + 1, j);
    EvidenceOnlyGrows(trace, moves, governor, i + 1, |moves|);
    EvidenceOnlyGrows(trace, moves, governor, j + 1, |moves|);
    RunIsSound(trace, moves, governor, |moves|);
    var log := trace[|moves|].gate.evidence;
    if Consumed(log[|trace[i].gate.evidence|]) == Consumed(log[|trace[j].gate.evidence|]) {
      ApprovalConsumedOnce(log, |trace[i].gate.evidence|, |trace[j].gate.evidence|);
    }
  }
}
