/** World snapshots of `state_oracle.py`: versions are unique and the latest commit is current. */
module StateOracle {
  import opened Prelude
  import opened HashChain

  datatype Snapshot = Snapshot(
    snapshotId: string, worldVersion: string, contentHash: string, content: Json, committedAt: int)

  /** Text order, as `ORDER BY snapshot_id` compares. */
  predicate TextLess(a: string, b: string) {
    b != [] && (a == [] || a[0] < b[0] || (a[0] == b[0] && TextLess(a[1..], b[1..])))
  }

  predicate Later(a: Snapshot, b: Snapshot) {
    a.committedAt > b.committedAt || (a.committedAt == b.committedAt && TextLess(b.snapshotId, a.snapshotId))
  }

  /** `ORDER BY committed_at DESC, snapshot_id DESC LIMIT 1`. */
  function Current(table: seq<Snapshot>): Option<Snapshot> {
    if table == [] then None
    else
      var best := Current(Front(table));
      if best == None || Later(Last(table), best.value) then Some(Last(table)) else best
  }

  function CurrentVersion(table: seq<Snapshot>): Option<string> {
    var current := Current(table);
    if current == None then None else Some(current.value.worldVersion)
  }

  predicate KeyTaken(table: seq<Snapshot>, snapshotId: string, version: string) {
    exists i :: 0 <= i < |table| && (table[i].snapshotId == snapshotId || table[i].worldVersion == version)
  }

  /** `world_version or "wv_..."`: an empty version is replaced by a generated one. */
  function ChosenVersion(worldVersion: string, generated: string): string {
    if worldVersion != "" then worldVersion else generated
  }

  /** The insert of `commit_snapshot`; a primary-key or uniqueness violation raises and inserts nothing. */
  function Commit(table: seq<Snapshot>, row: Snapshot): (seq<Snapshot>, bool) {
    if KeyTaken(table, row.snapshotId, row.worldVersion) then (table, false) else (table + [row], true)
  }

  /** Unique versions, and commit times that strictly increase. */
  ghost predicate Orderly(table: seq<Snapshot>) {
    && (forall i, j :: 0 <= i < j < |table| ==> table[i].worldVersion != table[j].worldVersion)
    && (forall i, j :: 0 <= i < j < |table| ==> table[i].committedAt < table[j].committedAt)
  }

  lemma {:induction false} CurrentIsNewest(table: seq<Snapshot>)
    requires Orderly(table) && table != []
    ensures Current(table) == Some(Last(table))
  {
    if |table| > 1 {
      CurrentIsNewest(Front(table));
    }
  }

  lemma {:induction false} TextOrder(a: string, b: string, c: string)
    ensures !TextLess(a, a) && !(TextLess(a, b) && TextLess(b, a))
    ensures TextLess(a, b) || TextLess(b, a) || a == b
    ensures TextLess(a, b) && TextLess(b, c) ==> TextLess(a, c)
  {
    if a != [] && b != [] && c != [] {
      TextOrder(a[1..], b[1..], c[1..]);
      assert a == [a[0]] + a[1..] && b == [b[0]] + b[1..];
    } else if a != [] && b != [] {
      TextOrder(a[1..], b[1..], []);
      assert a == [a[0]] + a[1..] && b == [b[0]] + b[1..];
    } else if a != [] {
      TextOrder(a[1..], [], []);
    }
  }

  /** The row that the query reads, on any table: one that no row was committed after, and among those
      of its time one whose id no other's follows. */
  lemma {:induction false} CurrentIsGreatest(table: seq<Snapshot>)
    ensures Current(table) == None <==> table == []
    ensures table != [] ==>
      && Current(table).value in table
      && forall row :: row in table ==>
           || row.committedAt < Current(table).value.committedAt
           || (row.committedAt == Current(table).value.committedAt
               && (row.snapshotId == Current(table).value.snapshotId
                   || TextLess(row.snapshotId, Current(table).value.snapshotId)))
  {
    if table != [] {
      var front, last := Front(table), Last(table);
      CurrentIsGreatest(front);
      assert table == front + [last];
      hide TextLess;
      if front != [] {
        var best := Current(front).value;
        TextOrder(best.snapshotId, last.snapshotId, last.snapshotId);
        forall row | row in front
          ensures TextLess(row.snapshotId, best.snapshotId) && TextLess(best.snapshotId, last.snapshotId) ==>
            TextLess(row.snapshotId, last.snapshotId)
        {
          TextOrder(row.snapshotId, best.snapshotId, last.snapshotId);
        }
      }
    }
  }

  /** Once another snapshot is committed, the world never shows an earlier version again. */
  lemma {:induction false} WorldNeverReturns(before: seq<Snapshot>, after: seq<Snapshot>)
    requires Orderly(after) && before <= after && before != []
    ensures CurrentVersion(before) == CurrentVersion(after) <==> before == after
  {
    assert forall i :: 0 <= i < |before| ==> before[i] == after[i];
    assert Orderly(before);
    CurrentIsNewest(before);
    CurrentIsNewest(after);
  }

  class Oracle {
    const digest: Json -> string
    var table: seq<Snapshot>

    constructor (digest: Json -> string)
      ensures this.digest == digest && table == [] && Orderly(table)
    {
      this.digest := digest;
      table := [];
    }

    /** The committed row, or None for the exception, which leaves the table as it was. */
    method CommitSnapshot(content: Json, worldVersion: string, generated: string, snapshotId: string, at: int)
      returns (result: Option<Snapshot>)
      modifies this
      ensures var row := Snapshot(snapshotId, ChosenVersion(worldVersion, generated), digest(content), content, at);
        && (table, result.Some?) == Commit(old(table), row)
        && (result.Some? ==> result.value == row)
      ensures var version := if worldVersion == "" then generated else worldVersion;
        && (result.Some? <==>
             forall row :: row in old(table) ==> row.snapshotId != snapshotId && row.worldVersion != version)
        && table == (if result.Some? then old(table) + [result.value] else old(table))
        && (result.Some? ==> result.value == Snapshot(snapshotId, version, digest(content), content, at))
      ensures old(Orderly(table) && forall i :: 0 <= i < |table| ==> table[i].committedAt < at) ==> Orderly(table)
    {
      var version := if worldVersion != "" then worldVersion else generated;
      var row := Snapshot(snapshotId, version, digest(content), content, at);
      for i := 0 to |table|
        invariant !KeyTaken(table[..i], snapshotId, version)
      {
        if table[i].snapshotId == snapshotId || table[i].worldVersion == version {
          return None;
        }
      }
      assert table[..|table|] == table;
      table := table + [row];
      result := Some(row);
    }
  }
}
