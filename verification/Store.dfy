/** The writing functions of `storage.py` on tables that they update in place. Each method
    is one transaction: it commits all its rows or, by refusing or raising, none. */
module Store {
  import opened Prelude
  import opened HashChain
  import opened Records
  import opened Storage
  import AuditOrder

  class RecordStore {
    const digest: Digest
    const backend: Backend

    var records: map<string, Record>
    var versions: seq<VersionRow>
    var audit: seq<AuditRow>
    var reconciliations: map<string, ReconciliationRow>

    function View(): Tables
      reads this
    {
      Tables(records, versions, audit, reconciliations)
    }

    constructor (digest: Digest, backend: Backend)
      ensures this.digest == digest && this.backend == backend
      ensures View() == EMPTY && Agreeing(digest, View())
    {
      this.digest := digest;
      this.backend := backend;
      records, versions, audit, reconciliations := map[], [], [], map[];
    }

    /** The part that the three writers share: number the version, link the event to the
        latest hash, insert both rows and replace the current row. */
    method InsertEvent(d: string, record: Record, eventType: EventType, resolution: Option<string>, ids: Fresh)
      returns (stored: Record)
      requires !KeysTaken(View(), ids)
      modifies this
      ensures View() == WriteEvent(digest, old(View()), d, record, eventType, resolution, ids)
      ensures stored == Stamped(digest, old(View()), d, record, eventType, resolution)
      ensures record.decisionId == d && old(Agreeing(digest, View())) ==> Agreeing(digest, View())
    {
      hide Agreeing;
      if record.decisionId == d && Agreeing(digest, View()) {
        WriteAgrees(digest, View(), d, record, eventType, resolution, ids);
      }
      var version := MaxVersion(versions, d) + 1;
      var previousHash := AuditHead(audit);
      var body := EventBody(d, eventType,
                            Event(record.decision, record.tenantId, record.actionHash, version, resolution));
      var eventHash := digest(body, previousHash);
      stored := record.(auditEventHash := Some(eventHash));
      audit := audit + [AuditRow(ids.eventId, Link(body, previousHash, eventHash), ids.timestamp)];
      versions := versions + [VersionRow(ids.versionId, d, version, eventType, stored, ids.timestamp)];
      records := records[d := stored];
    }

    method SaveRecord(record: Record, eventType: EventType, ids: Fresh) returns (r: Outcome<Record>)
      modifies this
      ensures (View(), r) == Storage.SaveRecord(digest, old(View()), record, eventType, ids)
      ensures old(Agreeing(digest, View())) ==> Agreeing(digest, View())
    {
      hide Agreeing;
      if Agreeing(digest, View()) {
        SaveAgrees(digest, View(), record, eventType, ids);
      }
      if KeysTaken(View(), ids) {
        return Raised;
      }
      var stored := InsertEvent(record.decisionId, record, eventType, None, ids);
      r := Committed(stored);
    }

    method ReserveExecution(d: string, nonce: string, startedAt: int) returns (reserved: bool)
      modifies `records
      ensures (View(), reserved) == Storage.Reserve(backend, old(View()), d, nonce, startedAt)
      ensures old(Agreeing(digest, View())) ==> Agreeing(digest, View())
    {
      hide Agreeing;
      if Agreeing(digest, View()) {
        ReserveAgrees(digest, backend, View(), d, nonce, startedAt);
      }
      reserved := false;
      if d in records {
        var row := records[d];
        if row.nonce == nonce && row.consumedAt == None && row.startedAt == None {
          reserved := true;
          if backend == Sqlite {
            records := records[d := row.(startedAt := Some(startedAt))];
          }
        }
      }
    }

    method ConsumeNonce(d: string, nonce: string, consumedAt: int) returns (claimed: bool)
      modifies `records
      ensures (View(), claimed) == Storage.ConsumeNonce(old(View()), d, nonce, consumedAt)
      ensures old(Agreeing(digest, View())) ==> Agreeing(digest, View())
    {
      hide Agreeing;
      if Agreeing(digest, View()) {
        ConsumeAgrees(digest, View(), d, nonce, consumedAt);
      }
      claimed := false;
      if d in records {
        var row := records[d];
        if row.nonce == nonce && row.consumedAt == None {
          claimed := true;
          records := records[d := row.(consumedAt := Some(consumedAt))];
        }
      }
    }

    method FinalizeExecution(d: string, nonce: string, consumedAt: int, outcome: Json, ids: Fresh)
      returns (r: Outcome<Record>)
      modifies this
      ensures (View(), r) == Storage.Finalize(digest, old(View()), d, nonce, consumedAt, outcome, ids)
      ensures !r.Committed? ==> View() == old(View())
      ensures old(Agreeing(digest, View())) ==> Agreeing(digest, View())
    {
      hide Agreeing;
      if Agreeing(digest, View()) {
        FinalizeAgrees(digest, View(), d, nonce, consumedAt, outcome, ids);
      }
      if d !in records {
        return Declined;
      }
      var current := records[d];
      if current.nonce != nonce || current.consumedAt.Some? || current.startedAt == None {
        return Declined;
      }
      var finalized := current;
      finalized := finalized.(execution := Some(ExecutionRecord(consumedAt, Executed, current.actionHash, nonce)));
      finalized := finalized.(outcome := Some(outcome));
      finalized := finalized.(consumedAt := Some(consumedAt));
      if KeysTaken(View(), ids) {
        return Raised;
      }
      finalized := InsertEvent(d, finalized, ExecutionRecorded, None, ids);
      r := Committed(finalized);
    }

    method ReconcileExecution(record: Record, nonce: string, resolvedAt: int, resolution: string, outcome: Json,
                              ids: Fresh)
      returns (r: Outcome<Record>)
      modifies this
      ensures (View(), r) == Storage.Reconcile(digest, old(View()), record, nonce, resolvedAt, resolution, outcome, ids)
      ensures !r.Committed? ==> View() == old(View())
      ensures old(Agreeing(digest, View())) ==> Agreeing(digest, View())
    {
      hide Agreeing;
      if Agreeing(digest, View()) {
        ReconcileAgrees(digest, View(), record, nonce, resolvedAt, resolution, outcome, ids);
      }
      if resolution !in RESOLUTIONS {
        return Raised;
      }
      var d := record.decisionId;
      if d !in records {
        return Declined;
      }
      var current := records[d];
      if current.nonce != nonce || current.consumedAt.Some? || current.startedAt == None {
        return Declined;
      }
      if current.reconciliation.Some? {
        return Declined;
      }
      if current.execution == None {
        return Raised;
      }
      if current.execution.value.status == ExecutionStatus.Reconciled {
        return Declined;
      }
      var finalized := record;
      finalized := finalized.(execution :=
        Some(ExecutionRecord(resolvedAt, ExecutionStatus.Reconciled, current.actionHash, nonce)));
      finalized := finalized.(reconciliation := Some(Reconciliation(resolution, resolvedAt)));
      finalized := finalized.(outcome := Some(outcome));
      finalized := finalized.(consumedAt := Some(resolvedAt));
      if ReconciliationKeyTaken(View(), d, ids) || KeysTaken(View(), ids) {
        return Raised;
      }
      reconciliations := reconciliations[d :=
        ReconciliationRow(ids.reconciliationId, finalized.tenantId, nonce, resolution, outcome, resolvedAt)];
      finalized := InsertEvent(d, finalized, ExecutionReconciled, Some(resolution), ids);
      r := Committed(finalized);
    }

    /** The migration on this store's own log, fetched in any order: it succeeds and numbers
        every event by its place of insertion. */
    method RebuildSequence(fetched: seq<AuditOrder.Row>) returns (r: Result<map<string, nat>, AuditOrder.OrderError>)
      requires Ideal(digest) && Agreeing(digest, View())
      requires multiset(fetched) == multiset(RowsOf(audit))
      ensures r.Ok? && AuditOrder.Numbers(r.value, RowsOf(audit))
    {
      AgreeingLogIsRecovered(digest, View(), fetched);
      r := AuditOrder.Migrate(fetched);
    }
  }
}
