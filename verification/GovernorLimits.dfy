/** When a system's number of generations can pass the limit its first proposal set. */
module GovernorLimits {
  import opened Policy
  import opened GateService
  import opened GateRuns
  import opened Governor
  import opened GovernorRuns

  predicate Whole(x: real) {
    x.Floor as real == x
  }

  /** A budget with these limits has more generations than they say. */
  predicate Passed(b: Books, systemId: string, limits: RecursionLimits)
    requires limits.generations.bound.Some?
  {
    && systemId in b.budgets && b.budgets[systemId].limits == limits
    && b.budgets[systemId].generations as real > limits.generations.bound.value
  }

  /** A negative limit is passed from the start, a fractional one by its last generation, and no other is ever passed. */
  predicate Passable(limits: RecursionLimits)
    requires limits.generations.bound.Some?
  {
    var bound := limits.generations.bound.value;
    bound < 0.0 || (!Whole(bound) && !Blocked(limits))
  }

  lemma PassedIsPassable(b: Books, systemId: string, limits: RecursionLimits)
    requires limits.generations.bound.Some? && Charged(b.generations, b.budgets) && Passed(b, systemId, limits)
    ensures Passable(limits)
  {
    assert WithinBound(b.budgets[systemId].limits.generations, b.budgets[systemId].generations);
  }

  // --- A run of proposals -------------------------------------------------------------------------------------

  function Name(i: nat): string {
    seq(i, _ => 'g')
  }

  function Propose(i: nat, limits: RecursionLimits): Proposal {
    Proposal("system", None, limits, true, Name(i), Name(i))
  }

  function Filled(limits: RecursionLimits, k: nat): Books {
    if k == 0 then NO_BOOKS else Created(Filled(limits, k - 1), Propose(k - 1, limits)).0
  }

  /** One system, so many proposals old, so many of them accepted. */
  ghost predicate Holds(b: Books, limits: RecursionLimits, proposals: nat, accepted: nat) {
    && b.names == (if proposals == 0 then map[] else map["system" := ""])
    && b.accepted.Keys == (if proposals == 0 then {} else {""})
    && b.budgets == (if proposals == 0 then map[] else map["" := Budget(limits, accepted)])
    && forall g :: g in b.generations ==> |g| < proposals
  }

  lemma FirstProposalHolds(limits: RecursionLimits)
    ensures Holds(Filled(limits, 1), limits, 1, if Exhausted(Budget(limits, 0)) then 0 else 1)
  {
    assert Name(0) == "";
    assert Filled(limits, 0) == NO_BOOKS;
  }

  lemma NextProposalHolds(b: Books, limits: RecursionLimits, k: nat)
    requires 0 < k && Holds(b, limits, k, k) && !Exhausted(Budget(limits, k))
    ensures Holds(Created(b, Propose(k, limits)).0, limits, k + 1, k + 1)
  {
    assert |Name(k)| == k;
    hide Exhausted, Name;
    var p := Propose(k, limits);
    assert p.name in b.names && SystemOf(b, p) == "" && Opened(b, p) == b;
  }

  lemma {:induction false} FilledHolds(limits: RecursionLimits, k: nat)
    requires 0 < k && limits.generations.bound.Some? && (k - 1) as real < limits.generations.bound.value && !Blocked(limits)
    ensures Holds(Filled(limits, k), limits, k, k)
  {
    if k == 1 {
      FirstProposalHolds(limits);
    } else {
      FilledHolds(limits, k - 1);
      NextProposalHolds(Filled(limits, k - 1), limits, k - 1);
    }
  }

  function Traces(limits: RecursionLimits, k: nat): seq<World> {
    seq(k + 1, i requires 0 <= i <= k => World(EMPTY_DB, Filled(limits, i)))
  }

  function Proposals(limits: RecursionLimits, k: nat): seq<Move> {
    seq(k, i requires 0 <= i < k => Serve(Beat(Create(Propose(i, limits)), Ambient(0, "", true))))
  }

  lemma ProposalsAreRun(limits: RecursionLimits, k: nat, governor: string)
    requires k > 1 ==> limits.generations.bound.Some? && (k - 2) as real < limits.generations.bound.value && !Blocked(limits)
    ensures IsRun(Traces(limits, k), Proposals(limits, k), governor)
  {
    hide Goes, GateSound, Filled, Propose;
    var trace, moves := Traces(limits, k), Proposals(limits, k);
    assert trace[0].books == NO_BOOKS by { assert Filled(limits, 0) == NO_BOOKS by { NothingFilled(limits); } }
    assert GateSound(EMPTY_DB, governor) by { EmptyGateIsSound(governor); }
    forall i | 0 <= i < k ensures Goes(trace[i], governor, moves[i], trace[i + 1]) {
      if i > 0 {
        FilledHolds(limits, i);
      }
      ProposalGoes(limits, i, governor);
    }
  }

  lemma NothingFilled(limits: RecursionLimits)
    ensures Filled(limits, 0) == NO_BOOKS
  {
  }

  lemma EmptyGateIsSound(governor: string)
    ensures GateSound(EMPTY_DB, governor)
  {
    EmptyIsSound();
  }

  lemma ProposalGoes(limits: RecursionLimits, i: nat, governor: string)
    requires i > 0 ==> Holds(Filled(limits, i), limits, i, i)
    ensures Goes(World(EMPTY_DB, Filled(limits, i)), governor,
                 Serve(Beat(Create(Propose(i, limits)), Ambient(0, "", true))), World(EMPTY_DB, Filled(limits, i + 1)))
  {
    hide Created, Holds;
    ProposalIsPossible(World(EMPTY_DB, Filled(limits, i)), governor, limits, i, Ambient(0, "", true));
  }

  lemma ProposalIsPossible(w: World, governor: string, limits: RecursionLimits, i: nat, env: Ambient)
    requires w.books == Filled(limits, i) && (i > 0 ==> Holds(w.books, limits, i, i))
    ensures Possible(w, governor, Beat(Create(Propose(i, limits)), env))
  {
    hide Filled;
    assert |Name(i)| == i;
    assert Name(i) != PROBE by { assert PROBE[0] == '_'; }
    if i > 0 {
      assert Name(i) !in w.books.accepted.Keys;
    } else {
      NothingFilled(limits);
    }
  }

  lemma PassableIsPassed(limits: RecursionLimits, governor: string) returns (trace: seq<World>, moves: seq<Move>, systemId: string)
    requires limits.generations.bound.Some? && Passable(limits)
    ensures IsRun(trace, moves, governor) && Passed(trace[|moves|].books, systemId, limits)
  {
    var bound := limits.generations.bound.value;
    var k := if bound < 0.0 then 1 else Ceiling(bound);
    trace, moves, systemId := Traces(limits, k), Proposals(limits, k), "";
    ProposalsAreRun(limits, k, governor);
    if bound < 0.0 {
      FirstProposalHolds(limits);
    } else {
      FilledHolds(limits, k);
    }
  }

  /**
   * Some run takes a system past the limit of its first proposal if and only if that limit is negative, or is not a whole
   * number and no other limit blocks the system from the start.
   */
  lemma LimitIsPassedExactlyWhen(limits: RecursionLimits, governor: string)
    requires limits.generations.bound.Some?
    ensures (exists trace: seq<World>, moves: seq<Move>, systemId: string :: IsRun(trace, moves, governor) && Passed(trace[|moves|].books, systemId, limits))
            <==> Passable(limits)
  {
    if Passable(limits) {
      var trace, moves, systemId := PassableIsPassed(limits, governor);
    }
    forall trace: seq<World>, moves: seq<Move>, systemId: string | IsRun(trace, moves, governor) && Passed(trace[|moves|].books, systemId, limits)
      ensures Passable(limits)
    {
      RunIsSound(trace, moves, governor, |moves|);
      PassedIsPassable(trace[|moves|].books, systemId, limits);
    }
  }
}
