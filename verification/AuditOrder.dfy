/** Startup migration of the audit log (`_ensure_postgres_audit_sequence`): rebuild the
    insertion order of rows that come back from the database in any order, by following
    previous hashes from GENESIS, and refuse a log whose order is not the only one. */
module AuditOrder {
  import opened Prelude
  import opened HashChain

  /** A row of `audit_events` as the migration reads it; the body is the event id. */
  type Row = Link<string>

  datatype OrderError = Fork | DisconnectedOrForked

  ghost predicate Connected(rows: seq<Row>) {
    rows == [] || (Connected(Front(rows)) && Last(rows).previousHash == Head(Front(rows)))
  }

  ghost predicate DistinctPrevious(rows: seq<Row>) {
    forall i, j :: 0 <= i < j < |rows| ==> rows[i].previousHash != rows[j].previousHash
  }

  /** `p` puts exactly the rows of `rows` into one chain that starts at GENESIS. */
  ghost predicate IsOrdering(rows: seq<Row>, p: seq<Row>) {
    multiset(p) == multiset(rows) && Connected(p)
  }

  /** The condition under which an insertion order can be recovered at all. */
  ghost predicate Reconstructible(rows: seq<Row>) {
    DistinctPrevious(rows) && exists p :: IsOrdering(rows, p)
  }

  /** The rows that name `h` as their previous hash. */
  function WithPrevious(rows: seq<Row>, h: string): seq<Row> {
    if rows == [] then []
    else WithPrevious(Front(rows), h) + (if Last(rows).previousHash == h then [Last(rows)] else [])
  }

  /** A chain from GENESIS in which every row is the only candidate for its place. */
  ghost predicate IsPath(rows: seq<Row>, p: seq<Row>) {
    && Connected(p)
    && DistinctPrevious(p)
    && forall i :: 0 <= i < |p| ==> WithPrevious(rows, p[i].previousHash) == [p[i]]
  }

  /** An unambiguous chain that two or more rows claim to continue. */
  ghost predicate ForksAfter(rows: seq<Row>, p: seq<Row>) {
    IsPath(rows, p) && |WithPrevious(rows, Head(p))| >= 2
  }

  lemma {:induction false} WithPreviousHolds(rows: seq<Row>, h: string)
    ensures forall r :: r in WithPrevious(rows, h) <==> r in rows && r.previousHash == h
  {
    if rows != [] {
      WithPreviousHolds(Front(rows), h);
      assert rows == Front(rows) + [Last(rows)];
    }
  }

  lemma {:induction false} WithPreviousAtMostOne(rows: seq<Row>, h: string)
    requires DistinctPrevious(rows)
    ensures |WithPrevious(rows, h)| <= 1
  {
    if rows != [] {
      WithPreviousAtMostOne(Front(rows), h);
      WithPreviousHolds(Front(rows), h);
      var w := WithPrevious(Front(rows), h);
      assert w != [] ==> w[0] in w;
      assert forall i :: 0 <= i < |rows| - 1 ==> rows[i].previousHash != Last(rows).previousHash;
    }
  }

  lemma {:induction false} WithPreviousIsSole(rows: seq<Row>, r: Row)
    requires DistinctPrevious(rows) && r in rows
    ensures WithPrevious(rows, r.previousHash) == [r]
  {
    WithPreviousAtMostOne(rows, r.previousHash);
    WithPreviousHolds(rows, r.previousHash);
  }

  lemma {:induction false} WithPreviousCounts(rows: seq<Row>, i: nat, j: nat)
    requires i < j < |rows| && rows[i].previousHash == rows[j].previousHash
    ensures |WithPrevious(rows, rows[i].previousHash)| >= 2
    decreases |rows|
  {
    var h := rows[i].previousHash;
    if j == |rows| - 1 {
      WithPreviousHolds(Front(rows), h);
      assert Front(rows)[i] in WithPrevious(Front(rows), h);
    } else {
      WithPreviousCounts(Front(rows), i, j);
    }
  }

  lemma {:induction false} ConnectedPrefix(p: seq<Row>, k: nat)
    requires k <= |p| && Connected(p)
    ensures Connected(p[..k])
    ensures k < |p| ==> p[k].previousHash == Head(p[..k])
    decreases |p|
  {
    if k == |p| {
      assert p[..k] == p;
    } else if k == |p| - 1 {
      assert p[..k] == Front(p);
    } else {
      ConnectedPrefix(Front(p), k);
      assert Front(p)[..k] == p[..k];
    }
  }

  lemma {:induction false} PathPrefix(rows: seq<Row>, p: seq<Row>, k: nat)
    requires k <= |p| && IsPath(rows, p)
    ensures IsPath(rows, p[..k])
  {
    ConnectedPrefix(p, k);
  }

  /** Unambiguous chains never disagree: of two, the shorter is a prefix of the longer. */
  lemma {:induction false} PathsAgree(rows: seq<Row>, p: seq<Row>, q: seq<Row>)
    requires IsPath(rows, p) && IsPath(rows, q) && |p| <= |q|
    ensures p == q[..|p|]
    decreases |p|
  {
    hide Connected, DistinctPrevious, WithPrevious, Head;
    if p != [] {
      var k := |p| - 1;
      PathPrefix(rows, p, k);
      PathsAgree(rows, p[..k], q);
      ConnectedPrefix(p, k);
      ConnectedPrefix(q, k);
      assert [p[k]] == WithPrevious(rows, p[k].previousHash) == WithPrevious(rows, q[k].previousHash) == [q[k]];
      assert p == p[..k] + [p[k]] && q[..k + 1] == q[..k] + [q[k]];
    }
  }

  /** The next row of the longer of two unambiguous chains is the sole heir of the shorter. */
  lemma {:induction false} NextOnPath(rows: seq<Row>, p: seq<Row>, q: seq<Row>)
    requires IsPath(rows, p) && IsPath(rows, q) && |p| < |q|
    ensures p == q[..|p|] && q[|p|].previousHash == Head(p)
    ensures WithPrevious(rows, Head(p)) == [q[|p|]]
    ensures forall r :: r in p ==> r.previousHash != Head(p)
  {
    PathsAgree(rows, p, q);
    ConnectedPrefix(q, |p|);
  }

  lemma {:induction false} CountOfDistinct(s: seq<Row>, x: Row)
    requires DistinctPrevious(s)
    ensures multiset(s)[x] == if x in s then 1 else 0
  {
    if s != [] {
      CountOfDistinct(Front(s), x);
      assert s == Front(s) + [Last(s)];
    }
  }

  lemma {:induction false} DistinctSameRows(a: seq<Row>, b: seq<Row>)
    requires DistinctPrevious(a) && DistinctPrevious(b)
    requires forall x :: x in a <==> x in b
    ensures multiset(a) == multiset(b)
  {
    forall x: Row ensures multiset(a)[x] == multiset(b)[x] {
      CountOfDistinct(a, x);
      CountOfDistinct(b, x);
    }
  }

  /** Reordering rows keeps their previous hashes pairwise distinct. */
  lemma {:induction false} DistinctIsOrderFree(rows: seq<Row>, p: seq<Row>)
    requires multiset(p) == multiset(rows) && DistinctPrevious(rows)
    ensures DistinctPrevious(p)
  {
    forall i, j | 0 <= i < j < |p| ensures p[i].previousHash != p[j].previousHash {
      assert p[i] in multiset(rows) && p[j] in multiset(rows);
      if p[i].previousHash == p[j].previousHash {
        WithPreviousIsSole(rows, p[i]);
        WithPreviousIsSole(rows, p[j]);
        assert p == p[..i] + [p[i]] + p[i + 1..j] + [p[j]] + p[j + 1..];
        CountOfDistinct(rows, p[i]);
      }
    }
  }

  lemma {:induction false} OrderingIsPath(rows: seq<Row>, p: seq<Row>)
    requires DistinctPrevious(rows) && IsOrdering(rows, p)
    ensures IsPath(rows, p)
  {
    DistinctIsOrderFree(rows, p);
    forall i | 0 <= i < |p| ensures WithPrevious(rows, p[i].previousHash) == [p[i]] {
      assert p[i] in multiset(rows);
      WithPreviousIsSole(rows, p[i]);
    }
  }

  /** A log that can be reconstructed has exactly one insertion order. */
  lemma {:induction false} OrderingIsUnique(rows: seq<Row>, p: seq<Row>, q: seq<Row>)
    requires DistinctPrevious(rows) && IsOrdering(rows, p) && IsOrdering(rows, q)
    ensures p == q
  {
    OrderingIsPath(rows, p);
    OrderingIsPath(rows, q);
    assert |multiset(p)| == |multiset(q)|;
    PathsAgree(rows, p, q);
  }

  /** An unambiguous chain through which every previous hash has been used up is the ordering. */
  lemma {:induction false} ExhaustedPathIsOrdering(rows: seq<Row>, p: seq<Row>)
    requires IsPath(rows, p)
    requires forall r :: r in rows ==> exists i :: 0 <= i < |p| && p[i].previousHash == r.previousHash
    ensures DistinctPrevious(rows) && IsOrdering(rows, p)
  {
    forall i, j | 0 <= i < j < |rows| ensures rows[i].previousHash != rows[j].previousHash {
      if rows[i].previousHash == rows[j].previousHash {
        WithPreviousCounts(rows, i, j);
      }
    }
    forall r ensures r in rows <==> r in p {
      WithPreviousHolds(rows, r.previousHash);
      if r in rows {
        var i :| 0 <= i < |p| && p[i].previousHash == r.previousHash;
        assert r in [p[i]];
      }
      if r in p {
        assert r in WithPrevious(rows, r.previousHash);
      }
    }
    DistinctSameRows(p, rows);
  }

  /** A stuck walk that has not used up every previous hash rules out any ordering. */
  lemma {:induction false} StuckPathRefutes(rows: seq<Row>, p: seq<Row>, left: Row)
    requires IsPath(rows, p) && left in rows
    requires forall i :: 0 <= i < |p| ==> p[i].previousHash != left.previousHash
    requires |WithPrevious(rows, Head(p))| == 1 ==> exists i :: 0 <= i < |p| && p[i].previousHash == Head(p)
    ensures !Reconstructible(rows)
  {
    if Reconstructible(rows) {
      var q :| IsOrdering(rows, q);
      OrderingIsPath(rows, q);
      assert left in multiset(q);
      if |p| < |q| {
        NextOnPath(rows, p, q);
      } else {
        PathsAgree(rows, q, p);
      }
    }
  }

  /** A walk that stopped without meeting a fork shows that no fork can be reached. */
  lemma {:induction false} StuckPathHasNoFork(rows: seq<Row>, p: seq<Row>, q: seq<Row>)
    requires IsPath(rows, p)
    requires WithPrevious(rows, Head(p)) == [] || exists i :: 0 <= i < |p| && p[i].previousHash == Head(p)
    ensures !ForksAfter(rows, q)
  {
    if ForksAfter(rows, q) {
      if |p| < |q| {
        NextOnPath(rows, p, q);
      } else if |q| < |p| {
        NextOnPath(rows, q, p);
      } else {
        PathsAgree(rows, p, q);
      }
    }
  }

  /** State of the reconstruction loop: the chain built so far is unambiguous and the
      dictionary still holds the groups whose previous hash it has not used. */
  ghost predicate Walking(rows: seq<Row>, ordered: seq<Row>, byPrevious: map<string, seq<Row>>) {
    && IsPath(rows, ordered)
    && (forall h :: h in byPrevious ==> byPrevious[h] == WithPrevious(rows, h))
    && (forall h :: h in byPrevious <==>
         WithPrevious(rows, h) != [] && forall i :: 0 <= i < |ordered| ==> ordered[i].previousHash != h)
  }

  lemma {:induction false} WalkMeetsFork(rows: seq<Row>, ordered: seq<Row>, byPrevious: map<string, seq<Row>>)
    requires Walking(rows, ordered, byPrevious)
    requires Head(ordered) in byPrevious && |byPrevious[Head(ordered)]| != 1
    ensures ForksAfter(rows, ordered) && !Reconstructible(rows)
  {
    var candidates := WithPrevious(rows, Head(ordered));
    WithPreviousHolds(rows, Head(ordered));
    assert candidates[0] in candidates;
    StuckPathRefutes(rows, ordered, candidates[0]);
  }

  lemma {:induction false} WalkStep(rows: seq<Row>, ordered: seq<Row>, byPrevious: map<string, seq<Row>>, row: Row)
    requires Walking(rows, ordered, byPrevious)
    requires Head(ordered) in byPrevious && byPrevious[Head(ordered)] == [row]
    ensures Walking(rows, ordered + [row], byPrevious - {Head(ordered)})
  {
    WithPreviousHolds(rows, Head(ordered));
    assert row in byPrevious[Head(ordered)];
    assert Front(ordered + [row]) == ordered;
  }

  lemma {:induction false} WalkEndsCleanly(rows: seq<Row>, ordered: seq<Row>, byPrevious: map<string, seq<Row>>)
    requires Walking(rows, ordered, byPrevious)
    requires byPrevious == map[]
    ensures DistinctPrevious(rows) && IsOrdering(rows, ordered) && |ordered| == |rows|
    ensures forall q :: IsOrdering(rows, q) ==> q == ordered
  {
    forall row | row in rows ensures exists i :: 0 <= i < |ordered| && ordered[i].previousHash == row.previousHash {
      WithPreviousHolds(rows, row.previousHash);
      assert row in WithPrevious(rows, row.previousHash);
      assert row.previousHash !in byPrevious;
    }
    ExhaustedPathIsOrdering(rows, ordered);
    assert |multiset(ordered)| == |multiset(rows)|;
    forall q | IsOrdering(rows, q) ensures q == ordered {
      OrderingIsUnique(rows, q, ordered);
    }
  }

  lemma {:induction false} WalkLeavesRows(rows: seq<Row>, ordered: seq<Row>, byPrevious: map<string, seq<Row>>)
    requires Walking(rows, ordered, byPrevious)
    requires Head(ordered) !in byPrevious && byPrevious != map[]
    ensures !Reconstructible(rows)
  {
    var h :| h in byPrevious;
    WithPreviousHolds(rows, h);
    assert WithPrevious(rows, h)[0] in WithPrevious(rows, h);
    StuckPathRefutes(rows, ordered, WithPrevious(rows, h)[0]);
  }

  /** `by_previous`: the rows grouped by previous hash. */
  method GroupByPrevious(rows: seq<Row>) returns (byPrevious: map<string, seq<Row>>)
    ensures forall h :: h in byPrevious <==> WithPrevious(rows, h) != []
    ensures forall h :: h in byPrevious ==> byPrevious[h] == WithPrevious(rows, h)
  {
    byPrevious := map[];
    for i := 0 to |rows|
      invariant forall h :: h in byPrevious <==> WithPrevious(rows[..i], h) != []
      invariant forall h :: h in byPrevious ==> byPrevious[h] == WithPrevious(rows[..i], h)
    {
      var row := rows[i];
      assert Front(rows[..i + 1]) == rows[..i] && Last(rows[..i + 1]) == row;
      var bucket := if row.previousHash in byPrevious then byPrevious[row.previousHash] else [];
      byPrevious := byPrevious[row.previousHash := bucket + [row]];
    }
    assert rows[..|rows|] == rows;
  }

  /** The reconstruction loop. It succeeds exactly on the logs that have one insertion
      order, returns that order, and names a fork exactly when one is reachable. */
  method Reconstruct(rows: seq<Row>) returns (r: Result<seq<Row>, OrderError>)
    ensures r.Ok? <==> Reconstructible(rows)
    ensures r.Ok? ==> IsOrdering(rows, r.value) && forall q :: IsOrdering(rows, q) ==> q == r.value
    ensures r == Err(Fork) <==> exists q :: ForksAfter(rows, q)
  {
    var byPrevious := GroupByPrevious(rows);
    hide ForksAfter, IsOrdering;
    var ordered: seq<Row> := [];
    var previousHash := GENESIS;
    while previousHash in byPrevious
      invariant Walking(rows, ordered, byPrevious) && previousHash == Head(ordered)
      decreases |byPrevious|
    {
      var candidates := byPrevious[previousHash];
      if |candidates| != 1 {
        WalkMeetsFork(rows, ordered, byPrevious);
        return Err(Fork);
      }
      WalkStep(rows, ordered, byPrevious, candidates[0]);
      byPrevious := byPrevious - {previousHash};
      ordered := ordered + [candidates[0]];
      previousHash := candidates[0].eventHash;
    }
    forall q ensures !ForksAfter(rows, q) {
      StuckPathHasNoFork(rows, ordered, q);
    }
    if byPrevious == map[] {
      WalkEndsCleanly(rows, ordered, byPrevious);
    }
    if byPrevious != map[] || |ordered| != |rows| {
      WalkLeavesRows(rows, ordered, byPrevious);
      return Err(DisconnectedOrForked);
    }
    r := Ok(ordered);
  }

  ghost predicate DistinctEvents(rows: seq<Row>) {
    forall i, j :: 0 <= i < j < |rows| ==> rows[i].body != rows[j].body
  }

  /** `ids` gives row number `i` the sequence id `i + 1`. */
  ghost predicate Numbers(ids: map<string, nat>, rows: seq<Row>) {
    forall i :: 0 <= i < |rows| ==> rows[i].body in ids && ids[rows[i].body] == i + 1
  }

  /** The `sequence_id` backfill over the recovered order. */
  method AssignSequenceIds(ordered: seq<Row>) returns (ids: map<string, nat>)
    ensures DistinctEvents(ordered) ==> Numbers(ids, ordered)
  {
    ids := map[];
    for i := 0 to |ordered|
      invariant DistinctEvents(ordered) ==> Numbers(ids, ordered[..i])
    {
      ids := ids[ordered[i].body := i + 1];
    }
    assert ordered[..|ordered|] == ordered;
  }

  /** The whole migration: refuses exactly the logs without a single order, and otherwise
      numbers the events along that order. */
  method Migrate(rows: seq<Row>) returns (r: Result<map<string, nat>, OrderError>)
    ensures r.Ok? <==> Reconstructible(rows)
    ensures r.Ok? ==> forall q :: IsOrdering(rows, q) && DistinctEvents(q) ==> Numbers(r.value, q)
  {
    var rebuilt := Reconstruct(rows);
    if rebuilt.Err? {
      return Err(rebuilt.error);
    }
    var ids := AssignSequenceIds(rebuilt.value);
    r := Ok(ids);
  }
}
