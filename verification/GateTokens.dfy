/** Whose token opens which agent, over every run of the Gate. */
module GateTokens {
  import opened Schema
  import opened Policy
  import opened Evidence
  import opened GateService
  import opened GateRuns

  /** The call at turn i registered this agent under this name, with this token. */
  predicate Registers(turns: seq<Turn>, i: nat, agentId: string, name: string, tokenHash: string)
    requires i < |turns|
  {
    && turns[i].call.Register? && turns[i].call.agentId == agentId && turns[i].call.name == name && turns[i].call.tokenHash == tokenHash
    && Step(Run(turns, i), turns[i].call, turns[i].env).1 == Done
  }

  lemma RowsStay(db: Db, call: Call, env: Ambient, agentId: string)
    requires agentId in db.agents
    ensures var after := Step(db, call, env).0;
            && agentId in after.agents
            && after.agents[agentId].(revoked := false) == db.agents[agentId].(revoked := false)
            && (db.agents[agentId].revoked ==> after.agents[agentId].revoked)
  {
    hide IsRequest, IsId, IsLabel, WellFormed, Evaluate, FindRule;
  }

  lemma NewRowIsRegistered(db: Db, call: Call, env: Ambient, agentId: string)
    requires agentId !in db.agents
    ensures var (after, outcome) := Step(db, call, env);
            if call.Register? && call.agentId == agentId && outcome == Done
            then agentId in after.agents && after.agents[agentId] == Agent(agentId, call.name, call.tokenHash, false)
            else agentId !in after.agents
  {
    hide IsRequest, IsId, IsLabel, WellFormed, Evaluate, FindRule;
  }

  lemma RegisterWantsNewAgent(db: Db, call: Call, env: Ambient)
    requires call.Register? && Step(db, call, env).1 == Done
    ensures call.agentId !in db.agents
  {
  }

  predicate HasRow(db: Db, agentId: string, name: string, tokenHash: string) {
    agentId in db.agents && db.agents[agentId].(revoked := false) == Agent(agentId, name, tokenHash, false)
  }

  /** A row is there exactly when some call registered it so: nothing renames an agent or changes its token, revocation included. */
  lemma {:induction false} RowIsThereExactlyWhenRegistered(turns: seq<Turn>, n: nat, agentId: string, name: string, tokenHash: string)
    requires n <= |turns|
    ensures HasRow(Run(turns, n), agentId, name, tokenHash) <==> exists i: nat :: i < n && Registers(turns, i, agentId, name, tokenHash)
  {
    hide Step, HasRow;
    if n == 0 {
      NoRowAtFirst(agentId, name, tokenHash);
    } else {
      RowIsThereExactlyWhenRegistered(turns, n - 1, agentId, name, tokenHash);
      RowStep(Run(turns, n - 1), turns[n - 1].call, turns[n - 1].env, agentId, name, tokenHash);
      assert Run(turns, n) == Step(Run(turns, n - 1), turns[n - 1].call, turns[n - 1].env).0;
      var last: nat := n - 1;
      assert Registers(turns, last, agentId, name, tokenHash) ==> exists i: nat :: i < n && Registers(turns, i, agentId, name, tokenHash);
      if i: nat :| i < n && Registers(turns, i, agentId, name, tokenHash) {
        assert i < n - 1 || i == last;
      }
    }
  }

  lemma NoRowAtFirst(agentId: string, name: string, tokenHash: string)
    ensures !HasRow(EMPTY_DB, agentId, name, tokenHash)
  {
  }

  lemma RowStep(db: Db, call: Call, env: Ambient, agentId: string, name: string, tokenHash: string)
    ensures HasRow(Step(db, call, env).0, agentId, name, tokenHash) <==>
              || HasRow(db, agentId, name, tokenHash)
              || (call.Register? && call.agentId == agentId && call.name == name && call.tokenHash == tokenHash && Step(db, call, env).1 == Done)
  {
    hide Step;
    if agentId in db.agents {
      RowsStay(db, call, env, agentId);
      if call.Register? && Step(db, call, env).1 == Done {
        RegisterWantsNewAgent(db, call, env);
      }
    } else {
      NewRowIsRegistered(db, call, env, agentId);
    }
  }

  /** Tokens are random: no two registrations draw the same one. */
  predicate FreshTokens(turns: seq<Turn>) {
    forall i, j :: 0 <= i < j < |turns| && turns[i].call.Register? && turns[j].call.Register? ==> turns[i].call.tokenHash != turns[j].call.tokenHash
  }

  /**
   * In every run a token opens an agent exactly when that agent was registered with it, revoked since or not, and no token
   * opens two.
   */
  lemma TokenOpensExactlyItsAgent(turns: seq<Turn>, n: nat, tokenHash: string, agentId: string, other: string)
    requires n <= |turns| && FreshTokens(turns)
    ensures Authenticates(Run(turns, n), tokenHash, agentId) <==> exists i: nat, name: string :: i < n && Registers(turns, i, agentId, name, tokenHash)
    ensures Authenticates(Run(turns, n), tokenHash, agentId) && Authenticates(Run(turns, n), tokenHash, other) ==> agentId == other
  {
    hide Step, Run;
    OpensExactlyWhenRegistered(turns, n, tokenHash, agentId);
    OpensExactlyWhenRegistered(turns, n, tokenHash, other);
    if Authenticates(Run(turns, n), tokenHash, agentId) && Authenticates(Run(turns, n), tokenHash, other) {
      var i: nat, name: string :| i < n && Registers(turns, i, agentId, name, tokenHash);
      var j: nat, name': string :| j < n && Registers(turns, j, other, name', tokenHash);
      assert i == j;
    }
  }

  lemma OpensExactlyWhenRegistered(turns: seq<Turn>, n: nat, tokenHash: string, agentId: string)
    requires n <= |turns|
    ensures Authenticates(Run(turns, n), tokenHash, agentId) <==> exists i: nat, name: string :: i < n && Registers(turns, i, agentId, name, tokenHash)
  {
    hide Step, Registers;
    var db := Run(turns, n);
    RunIsKeyed(turns, n);
    if Authenticates(db, tokenHash, agentId) {
      RowIsThereExactlyWhenRegistered(turns, n, agentId, db.agents[agentId].name, tokenHash);
    }
    forall i: nat, name: string | i < n && Registers(turns, i, agentId, name, tokenHash) ensures Authenticates(db, tokenHash, agentId) {
      RowIsThereExactlyWhenRegistered(turns, n, agentId, name, tokenHash);
    }
  }

  lemma {:induction false} RunIsKeyed(turns: seq<Turn>, n: nat)
    requires n <= |turns|
    ensures forall a :: a in Run(turns, n).agents ==> Run(turns, n).agents[a].id == a
  {
    hide Step;
    if n > 0 {
      RunIsKeyed(turns, n - 1);
      var db := Run(turns, n - 1);
      forall a | a in Run(turns, n).agents ensures Run(turns, n).agents[a].id == a {
        if a in db.agents {
          RowsStay(db, turns[n - 1].call, turns[n - 1].env, a);
        } else {
          NewRowIsRegistered(db, turns[n - 1].call, turns[n - 1].env, a);
        }
      }
    }
  }
}
