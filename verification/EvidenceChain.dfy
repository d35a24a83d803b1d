/** The evidence table as it is stored: every row carries the hash of the row before it and its own. */
module EvidenceChain {
  // SHA-256 over previous hash and body, taken as collision-free: a link is what was hashed.
  datatype Link = Genesis | Hashed(previous: Link, body: string)

  datatype Row = Row(body: string, previous: Link, hash: Link)

  function LastHash(rows: seq<Row>): Link {
    if rows == [] then Genesis else rows[|rows| - 1].hash
  }

  /** The table after one more record. */
  function Appended(rows: seq<Row>, body: string): seq<Row> {
    rows + [Row(body, LastHash(rows), Hashed(LastHash(rows), body))]
  }

  /** Each row names the hash before it and carries its own. */
  predicate Chained(rows: seq<Row>) {
    forall i :: 0 <= i < |rows| ==> rows[i].previous == LastHash(rows[..i]) && rows[i].hash == Hashed(rows[i].previous, rows[i].body)
  }

  method VerifyEvidence(rows: seq<Row>) returns (ok: bool)
    ensures ok <==> Chained(rows)
  {
    var previous := Genesis;
    for i := 0 to |rows|
      invariant previous == LastHash(rows[..i])
      invariant forall j :: 0 <= j < i ==> rows[j].previous == LastHash(rows[..j]) && rows[j].hash == Hashed(rows[j].previous, rows[j].body)
    {
      var row := rows[i];
      if row.previous != previous || row.hash != Hashed(previous, row.body) { return false; }
      previous := row.hash;
    }
    ok := true;
  }

  function Bodies(rows: seq<Row>): seq<string> {
    seq(|rows|, i requires 0 <= i < |rows| => rows[i].body)
  }

  /** A table that verifies still does after one more record, and holds exactly one body more. */
  lemma AppendKeepsChain(rows: seq<Row>, body: string)
    requires Chained(rows)
    ensures Chained(Appended(rows, body)) && Bodies(Appended(rows, body)) == Bodies(rows) + [body]
  {
    var after := Appended(rows, body);
    forall i | 0 <= i < |after|
      ensures after[i].previous == LastHash(after[..i]) && after[i].hash == Hashed(after[i].previous, after[i].body)
    {
      assert after[..i] == rows[..i];
      if i == |rows| {
        assert rows[..i] == rows;
      }
    }
  }

  lemma ChainedPrefix(rows: seq<Row>, n: nat)
    requires Chained(rows) && n <= |rows|
    ensures Chained(rows[..n])
  {
    forall i | 0 <= i < n
      ensures rows[..n][i].previous == LastHash(rows[..n][..i]) && rows[..n][i].hash == Hashed(rows[..n][i].previous, rows[..n][i].body)
    {
      assert rows[..n][..i] == rows[..i];
    }
  }

  /** The last hash commits to the whole table: two tables that verify and end in the same hash are the same. */
  lemma {:induction false} LastHashCommits(a: seq<Row>, b: seq<Row>)
    requires Chained(a) && Chained(b) && LastHash(a) == LastHash(b)
    ensures a == b
    decreases |a|
  {
    if a == [] {
      assert b == [];
    } else {
      var m, n := |a| - 1, |b| - 1;
      assert b != [];
      ChainedPrefix(a, m);
      ChainedPrefix(b, n);
      assert a[m].previous == LastHash(a[..m]) && b[n].previous == LastHash(b[..n]);
      LastHashCommits(a[..m], b[..n]);
      assert a == a[..m] + [a[m]] && b == b[..n] + [b[n]];
    }
  }

  /** Whoever changes, drops or inserts anything before the end of a table that verified leaves one that does not, unless the end changes too. */
  lemma TamperingShowsUnlessEndChanges(honest: seq<Row>, stored: seq<Row>)
    requires Chained(honest) && stored != honest
    ensures !Chained(stored) || LastHash(stored) != LastHash(honest)
  {
    if Chained(stored) && LastHash(stored) == LastHash(honest) {
      LastHashCommits(stored, honest);
      assert false;
    }
  }

  /** Verification alone cannot tell that the newest records were cut off: every prefix verifies. */
  lemma TruncationVerifies(honest: seq<Row>, n: nat)
    requires Chained(honest) && n < |honest|
    ensures Chained(honest[..n]) && LastHash(honest[..n]) != LastHash(honest)
  {
    ChainedPrefix(honest, n);
    if LastHash(honest[..n]) == LastHash(honest) {
      LastHashCommits(honest[..n], honest);
      assert false;
    }
  }
}
