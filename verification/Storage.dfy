/** The tables of `storage.py` and the transactions that write them: current records,
    their versions, the hash-chained audit log and the reconciliation table. */
module Storage {
  import opened Prelude
  import opened HashChain
  import opened Policy
  import opened Records
  import AuditOrder

  datatype Backend = Sqlite | Postgres

  datatype EventType =
    | DecisionCreated
    | ApprovalRecorded
    | ExecutionReserved
    | ExecutionRecorded
    | ExecutionReconciled

  datatype Event = Event(
    decision: Decision, tenantId: string, actionHash: string, version: nat, resolution: Option<string>)

  /** What the hash of an audit event covers besides the previous hash. */
  datatype EventBody = EventBody(decisionId: string, eventType: EventType, event: Event)

  type Digest = (EventBody, string) -> string

  datatype AuditRow = AuditRow(eventId: string, link: Link<EventBody>, createdAt: int)

  datatype VersionRow = VersionRow(
    versionId: string, decisionId: string, version: nat, eventType: EventType, record: Record, createdAt: int)

  datatype ReconciliationRow = ReconciliationRow(
    reconciliationId: string, tenantId: string, nonce: string, resolution: string, outcome: Json, resolvedAt: int)

  /** `reconciliations` is keyed by its unique column `decision_id`. */
  datatype Tables = Tables(
    records: map<string, Record>,
    versions: seq<VersionRow>,
    audit: seq<AuditRow>,
    reconciliations: map<string, ReconciliationRow>)

  const EMPTY: Tables := Tables(map[], [], [], map[])

  /** Random ids and the timestamp that one writing transaction draws. */
  datatype Fresh = Fresh(eventId: string, versionId: string, reconciliationId: string, timestamp: int)

  /** A transaction commits, rolls back with an empty answer, or rolls back and raises. */
  datatype Outcome<+T> = Committed(value: T) | Declined | Raised

  const RESOLUTIONS: set<string> := {"CONFIRMED_FILLED", "CONFIRMED_NOT_EXECUTED"}

  // ---- the transactions as functions on the tables ----

  /** `SELECT COALESCE(MAX(version), 0) ... WHERE decision_id = d`. */
  function MaxVersion(versions: seq<VersionRow>, d: string): nat {
    if versions == [] then 0
    else
      var best := MaxVersion(Front(versions), d);
      if Last(versions).decisionId == d && Last(versions).version > best then Last(versions).version else best
  }

  /** `_latest_audit_hash`, with GENESIS for an empty log. */
  function AuditHead(audit: seq<AuditRow>): string {
    if audit == [] then GENESIS else Last(audit).link.eventHash
  }

  /** A primary key that the transaction is about to insert is already there. */
  predicate KeysTaken(t: Tables, ids: Fresh) {
    || (exists i :: 0 <= i < |t.audit| && t.audit[i].eventId == ids.eventId)
    || (exists i :: 0 <= i < |t.versions| && t.versions[i].versionId == ids.versionId)
  }

  predicate ReconciliationKeyTaken(t: Tables, d: string, ids: Fresh) {
    || d in t.reconciliations
    || (exists x :: x in t.reconciliations && t.reconciliations[x].reconciliationId == ids.reconciliationId)
  }

  function BodyFor(t: Tables, d: string, record: Record, eventType: EventType, resolution: Option<string>): EventBody {
    EventBody(d, eventType,
              Event(record.decision, record.tenantId, record.actionHash, MaxVersion(t.versions, d) + 1, resolution))
  }

  /** The record with the hash of its next audit event. */
  function Stamped(digest: Digest, t: Tables, d: string, record: Record, eventType: EventType,
                   resolution: Option<string>): Record {
    record.(auditEventHash := Some(digest(BodyFor(t, d, record, eventType, resolution), AuditHead(t.audit))))
  }

  /** One audit event, one version row and the current row, written together. */
  function WriteEvent(digest: Digest, t: Tables, d: string, record: Record, eventType: EventType,
                      resolution: Option<string>, ids: Fresh): Tables {
    var body := BodyFor(t, d, record, eventType, resolution);
    var link := Link(body, AuditHead(t.audit), digest(body, AuditHead(t.audit)));
    var stored := Stamped(digest, t, d, record, eventType, resolution);
    t.(audit := t.audit + [AuditRow(ids.eventId, link, ids.timestamp)],
       versions := t.versions + [VersionRow(ids.versionId, d, body.event.version, eventType, stored, ids.timestamp)],
       records := t.records[d := stored])
  }

  /** `save_record`: writes whatever record the caller loaded earlier. */
  function SaveRecord(digest: Digest, t: Tables, record: Record, eventType: EventType, ids: Fresh)
    : (Tables, Outcome<Record>)
  {
    if KeysTaken(t, ids) then (t, Raised)
    else (WriteEvent(digest, t, record.decisionId, record, eventType, None, ids),
          Committed(Stamped(digest, t, record.decisionId, record, eventType, None)))
  }

  predicate Claimable(t: Tables, d: string, nonce: string) {
    d in t.records && t.records[d].nonce == nonce && t.records[d].consumedAt == None
  }

  /** `reserve_execution`. PostgreSQL's `jsonb_set` is told not to create a missing key, so
      there the row matches but a record without `execution_started_at` stays as it is. */
  function Reserve(backend: Backend, t: Tables, d: string, nonce: string, startedAt: int): (Tables, bool) {
    if !Claimable(t, d, nonce) || t.records[d].startedAt.Some? then (t, false)
    else if backend == Postgres then (t, true)
    else (t.(records := t.records[d := t.records[d].(startedAt := Some(startedAt))]), true)
  }

  /** `consume_nonce`. */
  function ConsumeNonce(t: Tables, d: string, nonce: string, consumedAt: int): (Tables, bool) {
    if !Claimable(t, d, nonce) then (t, false)
    else (t.(records := t.records[d := t.records[d].(consumedAt := Some(consumedAt))]), true)
  }

  function Finalized(current: Record, nonce: string, consumedAt: int, outcome: Json): Record {
    current.(execution := Some(ExecutionRecord(consumedAt, Executed, current.actionHash, nonce)),
             outcome := Some(outcome),
             consumedAt := Some(consumedAt))
  }

  /** `finalize_execution`: builds on the stored record, not on the caller's copy. */
  function Finalize(digest: Digest, t: Tables, d: string, nonce: string, consumedAt: int, outcome: Json, ids: Fresh)
    : (Tables, Outcome<Record>)
  {
    if !Claimable(t, d, nonce) || t.records[d].startedAt == None then (t, Declined)
    else if KeysTaken(t, ids) then (t, Raised)
    else
      var finalized := Finalized(t.records[d], nonce, consumedAt, outcome);
      (WriteEvent(digest, t, d, finalized, ExecutionRecorded, None, ids),
       Committed(Stamped(digest, t, d, finalized, ExecutionRecorded, None)))
  }

  function Reconciled(record: Record, actionHash: string, nonce: string, resolvedAt: int, resolution: string,
                      outcome: Json): Record {
    record.(execution := Some(ExecutionRecord(resolvedAt, ExecutionStatus.Reconciled, actionHash, nonce)),
            reconciliation := Some(Reconciliation(resolution, resolvedAt)),
            outcome := Some(outcome),
            consumedAt := Some(resolvedAt))
  }

  /** `reconcile_execution`: checks the stored record but writes the caller's copy. A stored
      record whose `execution` is null makes the status lookup raise. */
  function Reconcile(digest: Digest, t: Tables, record: Record, nonce: string, resolvedAt: int, resolution: string,
                     outcome: Json, ids: Fresh): (Tables, Outcome<Record>)
  {
    var d := record.decisionId;
    if resolution !in RESOLUTIONS then (t, Raised)
    else if !Claimable(t, d, nonce) || t.records[d].startedAt == None then (t, Declined)
    else if t.records[d].reconciliation.Some? then (t, Declined)
    else if t.records[d].execution == None then (t, Raised)
    else if t.records[d].execution.value.status == ExecutionStatus.Reconciled then (t, Declined)
    else if ReconciliationKeyTaken(t, d, ids) || KeysTaken(t, ids) then (t, Raised)
    else
      var reconciled := Reconciled(record, t.records[d].actionHash, nonce, resolvedAt, resolution, outcome);
      var row := ReconciliationRow(ids.reconciliationId, reconciled.tenantId, nonce, resolution, outcome, resolvedAt);
      (WriteEvent(digest, t.(reconciliations := t.reconciliations[d := row]), d, reconciled,
                  ExecutionReconciled, Some(resolution), ids),
       Committed(Stamped(digest, t, d, reconciled, ExecutionReconciled, Some(resolution))))
  }

  // ---- agreement of the tables ----

  function LinksOf(audit: seq<AuditRow>): (links: seq<Link<EventBody>>)
    ensures |links| == |audit|
    ensures forall i :: 0 <= i < |audit| ==> links[i] == audit[i].link
  {
    if audit == [] then [] else LinksOf(Front(audit)) + [Last(audit).link]
  }

  /** The columns that the startup migration reads. */
  function RowsOf(audit: seq<AuditRow>): (rows: seq<AuditOrder.Row>)
    ensures |rows| == |audit|
    ensures forall i :: 0 <= i < |audit| ==>
      rows[i] == Link(audit[i].eventId, audit[i].link.previousHash, audit[i].link.eventHash)
  {
    if audit == [] then []
    else RowsOf(Front(audit)) + [Link(Last(audit).eventId, Last(audit).link.previousHash, Last(audit).link.eventHash)]
  }

  function CountOf(versions: seq<VersionRow>, d: string): nat {
    if versions == [] then 0
    else CountOf(Front(versions), d) + (if Last(versions).decisionId == d then 1 else 0)
  }

  /** The version rows of one decision, in the order they were written. */
  function VersionsOf(versions: seq<VersionRow>, d: string): seq<VersionRow> {
    if versions == [] then []
    else VersionsOf(Front(versions), d) + (if Last(versions).decisionId == d then [Last(versions)] else [])
  }

  function LatestRecord(versions: seq<VersionRow>, d: string): Option<Record> {
    if versions == [] then None
    else if Last(versions).decisionId == d then Some(Last(versions).record)
    else LatestRecord(Front(versions), d)
  }

  /** A version row and an audit row that one transaction wrote together. */
  ghost predicate Twin(v: VersionRow, a: AuditRow) {
    && v.decisionId == a.link.body.decisionId == v.record.decisionId
    && v.eventType == a.link.body.eventType
    && v.version == a.link.body.event.version
    && v.record.auditEventHash == Some(a.link.eventHash)
    && a.link.body.event.decision == v.record.decision
    && a.link.body.event.tenantId == v.record.tenantId
    && a.link.body.event.actionHash == v.record.actionHash
  }

  /** Versions and audit events go in pairs, and each decision numbers its own from 1. */
  ghost predicate Aligned(versions: seq<VersionRow>, audit: seq<AuditRow>) {
    && |versions| == |audit|
    && (versions == [] ||
        (&& Aligned(Front(versions), Front(audit))
         && Twin(Last(versions), Last(audit))
         && Last(versions).version == CountOf(Front(versions), Last(versions).decisionId) + 1))
  }

  /** A record without the two fields that are stamped outside of a version. */
  function Unstamped(r: Record): Record {
    r.(startedAt := None, consumedAt := None)
  }

  /** The current row of every decision is its last version, apart from the stamps. */
  ghost predicate CurrentRowsAgree(t: Tables) {
    && (forall d :: d in t.records <==> LatestRecord(t.versions, d).Some?)
    && (forall d :: d in t.records ==> Unstamped(t.records[d]) == Unstamped(LatestRecord(t.versions, d).value))
  }

  ghost predicate DistinctEventIds(audit: seq<AuditRow>) {
    forall i, j :: 0 <= i < j < |audit| ==> audit[i].eventId != audit[j].eventId
  }

  ghost predicate Agreeing(digest: Digest, t: Tables) {
    && Chained(digest, LinksOf(t.audit))
    && Aligned(t.versions, t.audit)
    && CurrentRowsAgree(t)
    && DistinctEventIds(t.audit)
  }

  lemma {:induction false} MaxIsCount(versions: seq<VersionRow>, audit: seq<AuditRow>, d: string)
    requires Aligned(versions, audit)
    ensures MaxVersion(versions, d) == CountOf(versions, d)
  {
    if versions != [] {
      MaxIsCount(Front(versions), Front(audit), d);
    }
  }

  lemma {:induction false} LatestIsOwn(versions: seq<VersionRow>, audit: seq<AuditRow>, d: string)
    requires Aligned(versions, audit) && LatestRecord(versions, d).Some?
    ensures LatestRecord(versions, d).value.decisionId == d
  {
    if Last(versions).decisionId != d {
      LatestIsOwn(Front(versions), Front(audit), d);
    }
  }

  /** The row stored under a decision id is a record of that decision. */
  lemma {:induction false} CurrentRowIsOwn(digest: Digest, t: Tables, d: string)
    requires Agreeing(digest, t) && d in t.records
    ensures t.records[d].decisionId == d
  {
    LatestIsOwn(t.versions, t.audit, d);
    assert t.records[d].decisionId == Unstamped(t.records[d]).decisionId;
  }

  lemma {:induction false} HeadOfLinks(audit: seq<AuditRow>)
    ensures Head(LinksOf(audit)) == AuditHead(audit)
  {
  }

  lemma {:induction false} WriteKeepsChain(digest: Digest, t: Tables, d: string, record: Record, eventType: EventType,
                                           resolution: Option<string>, ids: Fresh)
    requires Chained(digest, LinksOf(t.audit))
    ensures Chained(digest, LinksOf(WriteEvent(digest, t, d, record, eventType, resolution, ids).audit))
  {
    var next := WriteEvent(digest, t, d, record, eventType, resolution, ids);
    HeadOfLinks(t.audit);
    assert Front(next.audit) == t.audit;
    ExtendIsChained(digest, LinksOf(t.audit), BodyFor(t, d, record, eventType, resolution));
    assert LinksOf(next.audit) == Extend(digest, LinksOf(t.audit), BodyFor(t, d, record, eventType, resolution));
  }

  lemma {:induction false} WriteKeepsAlignment(digest: Digest, t: Tables, d: string, record: Record,
                                               eventType: EventType,
                                               resolution: Option<string>, ids: Fresh)
    requires Aligned(t.versions, t.audit) && record.decisionId == d
    ensures var next := WriteEvent(digest, t, d, record, eventType, resolution, ids);
      Aligned(next.versions, next.audit)
  {
    var next := WriteEvent(digest, t, d, record, eventType, resolution, ids);
    assert Front(next.audit) == t.audit && Front(next.versions) == t.versions;
    MaxIsCount(t.versions, t.audit, d);
  }

  lemma {:induction false} WriteKeepsCurrentRows(digest: Digest, t: Tables, d: string, record: Record,
                                                 eventType: EventType,
                                                 resolution: Option<string>, ids: Fresh)
    requires CurrentRowsAgree(t)
    ensures CurrentRowsAgree(WriteEvent(digest, t, d, record, eventType, resolution, ids))
  {
    var next := WriteEvent(digest, t, d, record, eventType, resolution, ids);
    assert Front(next.versions) == t.versions;
  }

  lemma {:induction false} WriteAgrees(digest: Digest, t: Tables, d: string, record: Record, eventType: EventType,
                                       resolution: Option<string>, ids: Fresh)
    requires Agreeing(digest, t) && record.decisionId == d && !KeysTaken(t, ids)
    ensures Agreeing(digest, WriteEvent(digest, t, d, record, eventType, resolution, ids))
  {
    WriteKeepsChain(digest, t, d, record, eventType, resolution, ids);
    WriteKeepsAlignment(digest, t, d, record, eventType, resolution, ids);
    WriteKeepsCurrentRows(digest, t, d, record, eventType, resolution, ids);
  }

  /** One transaction, with everything it draws or receives. */
  datatype Tx =
    | TxSave(record: Record, eventType: EventType, ids: Fresh)
    | TxReserve(d: string, nonce: string, at: int)
    | TxConsume(d: string, nonce: string, at: int)
    | TxFinalize(d: string, nonce: string, at: int, outcome: Json, ids: Fresh)
    | TxReconcile(record: Record, nonce: string, at: int, resolution: string, outcome: Json, ids: Fresh)

  function Apply(digest: Digest, backend: Backend, t: Tables, tx: Tx): Tables {
    match tx
    case TxSave(record, eventType, ids) => SaveRecord(digest, t, record, eventType, ids).0
    case TxReserve(d, nonce, at) => Reserve(backend, t, d, nonce, at).0
    case TxConsume(d, nonce, at) => ConsumeNonce(t, d, nonce, at).0
    case TxFinalize(d, nonce, at, outcome, ids) => Finalize(digest, t, d, nonce, at, outcome, ids).0
    case TxReconcile(record, nonce, at, resolution, outcome, ids) =>
      Reconcile(digest, t, record, nonce, at, resolution, outcome, ids).0
  }

  function RunAll(digest: Digest, backend: Backend, txs: seq<Tx>): Tables {
    if txs == [] then EMPTY else Apply(digest, backend, RunAll(digest, backend, Front(txs)), Last(txs))
  }

  lemma {:induction false} StampAgrees(digest: Digest, t: Tables, d: string, r: Record)
    requires Agreeing(digest, t) && d in t.records && Unstamped(r) == Unstamped(t.records[d])
    ensures Agreeing(digest, t.(records := t.records[d := r]))
  {
    var next := t.(records := t.records[d := r]);
    assert CurrentRowsAgree(next);
  }

  lemma {:induction false} FinalizeAgrees(digest: Digest, t: Tables, d: string, nonce: string, at: int,
                                          outcome: Json, ids: Fresh)
    requires Agreeing(digest, t)
    ensures Agreeing(digest, Finalize(digest, t, d, nonce, at, outcome, ids).0)
  {
    if Finalize(digest, t, d, nonce, at, outcome, ids).1.Committed? {
      CurrentRowIsOwn(digest, t, d);
      WriteAgrees(digest, t, d, Finalized(t.records[d], nonce, at, outcome), ExecutionRecorded, None, ids);
    }
  }

  lemma {:induction false} ReconcileAgrees(digest: Digest, t: Tables, record: Record, nonce: string, at: int,
                                           resolution: string, outcome: Json, ids: Fresh)
    requires Agreeing(digest, t)
    ensures Agreeing(digest, Reconcile(digest, t, record, nonce, at, resolution, outcome, ids).0)
  {
    hide Agreeing, KeysTaken, ReconciliationKeyTaken, WriteEvent, Stamped, Reconciled;
    var d := record.decisionId;
    if Reconcile(digest, t, record, nonce, at, resolution, outcome, ids).1.Committed? {
      var row := ReconciliationRow(ids.reconciliationId, record.tenantId, nonce, resolution, outcome, at);
      var inserted := t.(reconciliations := t.reconciliations[d := row]);
      var reconciled := Reconciled(record, t.records[d].actionHash, nonce, at, resolution, outcome);
      ReconciledIsOwn(record, t.records[d].actionHash, nonce, at, resolution, outcome);
      InsertAgrees(digest, t, inserted.reconciliations, ids);
      WriteAgrees(digest, inserted, d, reconciled, ExecutionReconciled, Some(resolution), ids);
    }
  }

  lemma {:induction false} ReconciledIsOwn(record: Record, actionHash: string, nonce: string, at: int,
                                           resolution: string, outcome: Json)
    ensures var r := Reconciled(record, actionHash, nonce, at, resolution, outcome);
      r.decisionId == record.decisionId && r.tenantId == record.tenantId
  {
  }

  lemma {:induction false} InsertAgrees(digest: Digest, t: Tables, reconciliations: map<string, ReconciliationRow>,
                                        ids: Fresh)
    requires Agreeing(digest, t)
    ensures Agreeing(digest, t.(reconciliations := reconciliations))
    ensures KeysTaken(t.(reconciliations := reconciliations), ids) == KeysTaken(t, ids)
  {
  }

  lemma {:induction false} SaveAgrees(digest: Digest, t: Tables, record: Record, eventType: EventType, ids: Fresh)
    requires Agreeing(digest, t)
    ensures Agreeing(digest, SaveRecord(digest, t, record, eventType, ids).0)
  {
    hide Agreeing;
    if !KeysTaken(t, ids) {
      WriteAgrees(digest, t, record.decisionId, record, eventType, None, ids);
    }
  }

  lemma {:induction false} ReserveAgrees(digest: Digest, backend: Backend, t: Tables, d: string, nonce: string, at: int)
    requires Agreeing(digest, t)
    ensures Agreeing(digest, Reserve(backend, t, d, nonce, at).0)
  {
    hide Agreeing;
    if d in t.records {
      StampAgrees(digest, t, d, t.records[d].(startedAt := Some(at)));
    }
  }

  lemma {:induction false} ConsumeAgrees(digest: Digest, t: Tables, d: string, nonce: string, at: int)
    requires Agreeing(digest, t)
    ensures Agreeing(digest, ConsumeNonce(t, d, nonce, at).0)
  {
    hide Agreeing;
    if d in t.records {
      StampAgrees(digest, t, d, t.records[d].(consumedAt := Some(at)));
    }
  }

  lemma {:induction false} ApplyAgrees(digest: Digest, backend: Backend, t: Tables, tx: Tx)
    requires Agreeing(digest, t)
    ensures Agreeing(digest, Apply(digest, backend, t, tx))
  {
    hide Agreeing, SaveRecord, Reserve, ConsumeNonce, Finalize, Reconcile;
    match tx
    case TxSave(record, eventType, ids) => SaveAgrees(digest, t, record, eventType, ids);
    case TxReserve(d, nonce, at) => ReserveAgrees(digest, backend, t, d, nonce, at);
    case TxConsume(d, nonce, at) => ConsumeAgrees(digest, t, d, nonce, at);
    case TxFinalize(d, nonce, at, outcome, ids) => FinalizeAgrees(digest, t, d, nonce, at, outcome, ids);
    case TxReconcile(record, nonce, at, resolution, outcome, ids) =>
      ReconcileAgrees(digest, t, record, nonce, at, resolution, outcome, ids);
  }

  /** Whatever transactions ran, in whatever order, the four tables agree. */
  lemma {:induction false} RunsAgree(digest: Digest, backend: Backend, txs: seq<Tx>)
    ensures Agreeing(digest, RunAll(digest, backend, txs))
  {
    if txs != [] {
      RunsAgree(digest, backend, Front(txs));
      ApplyAgrees(digest, backend, RunAll(digest, backend, Front(txs)), Last(txs));
    }
  }

  // ---- what agreement means ----

  lemma {:induction false} AlignedAt(versions: seq<VersionRow>, audit: seq<AuditRow>, i: nat)
    requires Aligned(versions, audit) && i < |versions|
    ensures Twin(versions[i], audit[i])
    ensures versions[i].version == CountOf(versions[..i], versions[i].decisionId) + 1
    decreases |versions|
  {
    if i == |versions| - 1 {
      assert versions[..i] == Front(versions);
    } else {
      AlignedAt(Front(versions), Front(audit), i);
      assert Front(versions)[..i] == versions[..i];
    }
  }

  lemma {:induction false} CountGrows(versions: seq<VersionRow>, d: string, i: nat, j: nat)
    requires i < j <= |versions| && versions[i].decisionId == d
    ensures CountOf(versions[..i], d) < CountOf(versions[..j], d)
    decreases j
  {
    assert Front(versions[..j]) == versions[..j - 1];
    if i < j - 1 {
      CountGrows(versions, d, i, j - 1);
    }
  }

  /** The versions of a decision are numbered 1, 2, ... in log order, without gap or repeat. */
  lemma {:induction false} VersionsAreConsecutive(versions: seq<VersionRow>, audit: seq<AuditRow>, d: string)
    requires Aligned(versions, audit)
    ensures |VersionsOf(versions, d)| == CountOf(versions, d)
    ensures forall k :: 0 <= k < |VersionsOf(versions, d)| ==> VersionsOf(versions, d)[k].version == k + 1
  {
    if versions != [] {
      VersionsAreConsecutive(Front(versions), Front(audit), d);
    }
  }

  /** The `audit_event_hash` of a version belongs to the one audit event that has the same
      decision and version number, and that event has the same type. */
  lemma {:induction false} VersionNamesOneEvent(digest: Digest, t: Tables, i: nat, j: nat)
    requires Ideal(digest) && Agreeing(digest, t) && i < |t.versions| && j < |t.audit|
    ensures Twin(t.versions[i], t.audit[i])
    ensures t.versions[i].record.auditEventHash == Some(t.audit[j].link.eventHash) <==> i == j
    ensures (t.audit[j].link.body.decisionId == t.versions[i].decisionId
             && t.audit[j].link.body.event.version == t.versions[i].version) <==> i == j
  {
    AlignedAt(t.versions, t.audit, i);
    AlignedAt(t.versions, t.audit, j);
    if i < j {
      NoHashRepeats(digest, LinksOf(t.audit), i, j);
      if t.versions[i].decisionId == t.versions[j].decisionId {
        CountGrows(t.versions, t.versions[i].decisionId, i, j);
      }
    } else if j < i {
      NoHashRepeats(digest, LinksOf(t.audit), j, i);
      if t.versions[i].decisionId == t.versions[j].decisionId {
        CountGrows(t.versions, t.versions[i].decisionId, j, i);
      }
    }
  }

  lemma {:induction false} RowsAreConnected(digest: Digest, audit: seq<AuditRow>)
    requires Chained(digest, LinksOf(audit))
    ensures AuditOrder.Connected(RowsOf(audit))
  {
    if audit != [] {
      assert Front(LinksOf(audit)) == LinksOf(Front(audit));
      assert Front(RowsOf(audit)) == RowsOf(Front(audit));
      RowsAreConnected(digest, Front(audit));
      HeadOfLinks(Front(audit));
    }
  }

  lemma {:induction false} AgreeingLogIsRecovered(digest: Digest, t: Tables, fetched: seq<AuditOrder.Row>)
    requires Ideal(digest) && Agreeing(digest, t)
    requires multiset(fetched) == multiset(RowsOf(t.audit))
    ensures AuditOrder.Reconstructible(fetched) && AuditOrder.DistinctEvents(RowsOf(t.audit))
    ensures forall p :: AuditOrder.IsOrdering(fetched, p) <==> p == RowsOf(t.audit)
  {
    var rows := RowsOf(t.audit);
    RowsAreConnected(digest, t.audit);
    forall i, j | 0 <= i < j < |rows| ensures rows[i].previousHash != rows[j].previousHash {
      NoHashRepeats(digest, LinksOf(t.audit), i, j);
    }
    AuditOrder.DistinctIsOrderFree(rows, fetched);
    assert AuditOrder.IsOrdering(fetched, rows);
    forall p | AuditOrder.IsOrdering(fetched, p) ensures p == rows {
      AuditOrder.OrderingIsUnique(fetched, p, rows);
    }
  }

  /** Round trip. Whatever transactions wrote the log, its rows fetched in any order can be
      put back, and the only order the migration can return is the order of insertion. */
  lemma {:induction false} ShuffledLogIsRecovered(digest: Digest, backend: Backend, txs: seq<Tx>,
                                                  fetched: seq<AuditOrder.Row>)
    requires Ideal(digest)
    requires multiset(fetched) == multiset(RowsOf(RunAll(digest, backend, txs).audit))
    ensures AuditOrder.Reconstructible(fetched)
    ensures forall p :: AuditOrder.IsOrdering(fetched, p) <==> p == RowsOf(RunAll(digest, backend, txs).audit)
  {
    RunsAgree(digest, backend, txs);
    AgreeingLogIsRecovered(digest, RunAll(digest, backend, txs), fetched);
  }
}
