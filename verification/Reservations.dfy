/** How often one decision can be reserved over a sequence of storage transactions. */
module Reservations {
  import opened Prelude
  import opened HashChain
  import opened EvidenceGate
  import opened Policy
  import opened Records
  import opened Storage

  /** The tables before transaction `k`. */
  function Before(digest: Digest, backend: Backend, txs: seq<Tx>, k: nat): Tables
    requires k <= |txs|
  {
    RunAll(digest, backend, txs[..k])
  }

  lemma {:induction false} BeforeNext(digest: Digest, backend: Backend, txs: seq<Tx>, k: nat)
    requires k < |txs|
    ensures Before(digest, backend, txs, k + 1) == Apply(digest, backend, Before(digest, backend, txs, k), txs[k])
  {
    assert Front(txs[..k + 1]) == txs[..k];
  }

  /** Transaction `k` reserves decision `d` and is granted. */
  predicate Grants(digest: Digest, backend: Backend, txs: seq<Tx>, k: nat, d: string) {
    && k < |txs| && txs[k].TxReserve? && txs[k].d == d
    && Reserve(backend, Before(digest, backend, txs, k), d, txs[k].nonce, txs[k].at).1
  }

  predicate OpenRecord(r: Record, nonce: string) {
    r.nonce == nonce && r.startedAt == None && r.consumedAt == None
  }

  /** A reservation with this nonce would be granted. */
  predicate OpenRow(t: Tables, d: string, nonce: string) {
    d in t.records && OpenRecord(t.records[d], nonce)
  }

  /** A committed save of a record of `d`. */
  predicate Saves(t: Tables, tx: Tx, d: string) {
    tx.TxSave? && tx.record.decisionId == d && !KeysTaken(t, tx.ids)
  }

  /** A committed save of a record of `d` that is neither reserved nor consumed. */
  predicate Reopens(t: Tables, tx: Tx, d: string, nonce: string) {
    Saves(t, tx, d) && OpenRecord(tx.record, nonce)
  }

  /** A committed write that ends reservability: a save of any other record of `d`, a granted
      consumption, or a granted reservation where the backend stores it. */
  predicate Closes(backend: Backend, t: Tables, tx: Tx, d: string, nonce: string) {
    || (Saves(t, tx, d) && !OpenRecord(tx.record, nonce))
    || (tx.TxConsume? && tx.d == d && ConsumeNonce(t, d, tx.nonce, tx.at).1)
    || (tx.TxReserve? && tx.d == d && backend == Sqlite && Reserve(backend, t, d, tx.nonce, tx.at).1)
  }

  lemma {:induction false} StepOpens(digest: Digest, backend: Backend, t: Tables, tx: Tx, d: string, nonce: string)
    ensures OpenRow(Apply(digest, backend, t, tx), d, nonce) <==>
      Reopens(t, tx, d, nonce) || (OpenRow(t, d, nonce) && !Closes(backend, t, tx, d, nonce))
  {
    hide KeysTaken, ReconciliationKeyTaken, MaxVersion;
  }

  ghost predicate Quiet(digest: Digest, backend: Backend, txs: seq<Tx>, from: nat, to: nat, d: string, nonce: string)
    requires to <= |txs|
  {
    forall k :: from <= k < to ==> !Closes(backend, Before(digest, backend, txs, k), txs[k], d, nonce)
  }

  /** After transaction `from`, one before `to` saves an open record of `d` and nothing after it closes it. */
  ghost predicate ReopenedBetween(digest: Digest, backend: Backend, txs: seq<Tx>, from: nat, to: nat, d: string,
                                  nonce: string)
    requires to <= |txs|
  {
    exists k :: from < k < to && Reopens(Before(digest, backend, txs, k), txs[k], d, nonce)
      && Quiet(digest, backend, txs, k + 1, to, d, nonce)
  }

  lemma {:induction false} OpenAfterGrant(digest: Digest, backend: Backend, txs: seq<Tx>, i: nat, j: nat,
                                          d: string, nonce: string)
    requires i < j <= |txs| && Grants(digest, backend, txs, i, d)
    ensures OpenRow(Before(digest, backend, txs, j), d, nonce) <==>
      || ReopenedBetween(digest, backend, txs, i, j, d, nonce)
      || (backend == Postgres && nonce == txs[i].nonce && Quiet(digest, backend, txs, i + 1, j, d, nonce))
    decreases j
  {
    hide Before, Closes, Reopens, OpenRow, Apply;
    BeforeNext(digest, backend, txs, j - 1);
    if j == i + 1 {
      FirstGrant(digest, backend, txs, i, d, nonce);
    } else {
      var m := j - 1;
      OpenAfterGrant(digest, backend, txs, i, m, d, nonce);
      StepOpens(digest, backend, Before(digest, backend, txs, m), txs[m], d, nonce);
    }
  }

  lemma {:induction false} FirstGrant(digest: Digest, backend: Backend, txs: seq<Tx>, i: nat, d: string, nonce: string)
    requires Grants(digest, backend, txs, i, d)
    ensures OpenRow(Before(digest, backend, txs, i + 1), d, nonce) <==> backend == Postgres && nonce == txs[i].nonce
  {
    BeforeNext(digest, backend, txs, i);
    hide Before;
  }

  /** Exactly when a decision that was reserved is reserved again, over any transactions. SQLite
      needs a save of a record that was loaded before the first reservation. On PostgreSQL it is
      enough that nothing in between saved another record of the decision or consumed it. */
  lemma {:induction false} SecondGrantIff(digest: Digest, backend: Backend, txs: seq<Tx>, i: nat, j: nat, d: string)
    requires i < j < |txs| && Grants(digest, backend, txs, i, d) && txs[j].TxReserve? && txs[j].d == d
    ensures Grants(digest, backend, txs, j, d) <==>
      || ReopenedBetween(digest, backend, txs, i, j, d, txs[j].nonce)
      || (backend == Postgres && txs[j].nonce == txs[i].nonce
          && Quiet(digest, backend, txs, i + 1, j, d, txs[j].nonce))
  {
    hide Before, Closes, Reopens;
    OpenAfterGrant(digest, backend, txs, i, j, d, txs[j].nonce);
  }

  // ---- one run for each backend ----

  const SAMPLE_REQUEST: ActionRequest :=
    ActionRequest("tenant", "agent", None, None, "read", None, map[], [], None, None)

  const SAMPLE_SIGNAL: Signal := Signal(Proceed, 0.1, RequestAuthorization)

  /** A record as evaluation stores it. */
  const SAMPLE: Record := Record(
    "d", "t", "tenant", SAMPLE_REQUEST, Normalize(SAMPLE_REQUEST, SAMPLE_SIGNAL), "a", "n",
    DEFAULT_POLICY, "p", Low, Allow, SAMPLE_SIGNAL, [], Pass, [], None, None, None, None,
    300 * SECOND, None, "s", None, None, None, None)

  const CREATE: Tx := TxSave(SAMPLE, DecisionCreated, Fresh("e0", "v0", "r0", 0))
  const STALE: Tx := TxSave(SAMPLE, EventType.ApprovalRecorded, Fresh("e1", "v1", "r1", 2))

  /** PostgreSQL grants the same reservation twice in a row. */
  lemma {:induction false} PostgresGrantsTwice(digest: Digest) returns (txs: seq<Tx>)
    ensures |txs| == 3 && Grants(digest, Postgres, txs, 1, "d") && Grants(digest, Postgres, txs, 2, "d")
  {
    txs := [CREATE, TxReserve("d", "n", 1), TxReserve("d", "n", 2)];
    hide Apply;
    assert Before(digest, Postgres, txs, 0) == EMPTY by {
      assert txs[..0] == [];
    }
    BeforeNext(digest, Postgres, txs, 0);
    BeforeNext(digest, Postgres, txs, 1);
    hide Before;
    CreatedIsOpen(digest, Postgres);
    ReserveLeavesRow(digest, Before(digest, Postgres, txs, 1));
  }

  lemma {:induction false} CreatedIsOpen(digest: Digest, backend: Backend)
    ensures OpenRow(Apply(digest, backend, EMPTY, CREATE), "d", "n")
    ensures !KeysTaken(Apply(digest, backend, EMPTY, CREATE), STALE.ids)
  {
    assert "e0" != "e1" && "v0" != "v1";
  }

  lemma {:induction false} ReserveLeavesRow(digest: Digest, t: Tables)
    ensures Apply(digest, Postgres, t, TxReserve("d", "n", 1)) == t
  {
  }

  /** SQLite grants it twice around a save of the record as it was loaded before. */
  lemma {:induction false} SqliteGrantsTwice(digest: Digest) returns (txs: seq<Tx>)
    ensures |txs| == 4 && Grants(digest, Sqlite, txs, 1, "d") && Grants(digest, Sqlite, txs, 3, "d")
  {
    txs := [CREATE, TxReserve("d", "n", 1), STALE, TxReserve("d", "n", 3)];
    hide Apply;
    assert Before(digest, Sqlite, txs, 0) == EMPTY by {
      assert txs[..0] == [];
    }
    BeforeNext(digest, Sqlite, txs, 0);
    BeforeNext(digest, Sqlite, txs, 1);
    BeforeNext(digest, Sqlite, txs, 2);
    hide Before;
    CreatedIsOpen(digest, Sqlite);
    StampKeepsKeys(digest, Before(digest, Sqlite, txs, 1), STALE.ids);
    StepOpens(digest, Sqlite, Before(digest, Sqlite, txs, 2), STALE, "d", "n");
  }

  lemma {:induction false} StampKeepsKeys(digest: Digest, t: Tables, ids: Fresh)
    ensures KeysTaken(Apply(digest, Sqlite, t, TxReserve("d", "n", 1)), ids) == KeysTaken(t, ids)
  {
  }
}
