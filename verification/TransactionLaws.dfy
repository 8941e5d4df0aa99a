/** What each transaction of `storage.py` writes and when it refuses, row by row: an account of
    the tables before and after that does not use the functions that build them. */
module TransactionLaws {
  import opened Prelude
  import opened HashChain
  import opened Records
  import opened Storage

  /** A primary key is already in the log or among the versions. */
  ghost predicate Collides(t: Tables, ids: Fresh) {
    || (exists row :: row in t.audit && row.eventId == ids.eventId)
    || (exists row :: row in t.versions && row.versionId == ids.versionId)
  }

  /** `v` is the number of the next version of `d`. */
  ghost predicate IsNextVersion(versions: seq<VersionRow>, d: string, v: nat) {
    && (forall row :: row in versions && row.decisionId == d ==> row.version < v)
    && (v == 1 || (v > 1 && exists row :: row in versions && row.decisionId == d && row.version == v - 1))
  }

  /** From `t` to `t'` one event of decision `d` was written, in all three tables: an audit row that is
      linked to the last one, the next version, and the current row, which is `record` with the hash
      of the event. */
  ghost predicate WroteEvent(digest: Digest, t: Tables, t': Tables, d: string, record: Record, eventType: EventType,
                             resolution: Option<string>, ids: Fresh)
  {
    && |t'.audit| == |t.audit| + 1 && t.audit < t'.audit
    && |t'.versions| == |t.versions| + 1 && t.versions < t'.versions
    && var row, version := Last(t'.audit), Last(t'.versions);
       var stored := record.(auditEventHash := Some(row.link.eventHash));
       && row.eventId == ids.eventId && row.createdAt == ids.timestamp
       && row.link.previousHash == (if t.audit == [] then "GENESIS" else Last(t.audit).link.eventHash)
       && row.link.eventHash == digest(row.link.body, row.link.previousHash)
       && row.link.body == EventBody(d, eventType, Event(record.decision, record.tenantId, record.actionHash,
                                                         version.version, resolution))
       && IsNextVersion(t.versions, d, version.version)
       && version == VersionRow(ids.versionId, d, version.version, eventType, stored, ids.timestamp)
       && t'.records == t.records[d := stored]
  }

  lemma {:induction false} KeysCollide(t: Tables, ids: Fresh)
    ensures KeysTaken(t, ids) <==> Collides(t, ids)
  {
    if Collides(t, ids) {
      if row :| row in t.audit && row.eventId == ids.eventId {
        var i :| 0 <= i < |t.audit| && t.audit[i] == row;
      } else {
        var row :| row in t.versions && row.versionId == ids.versionId;
        var i :| 0 <= i < |t.versions| && t.versions[i] == row;
      }
    }
    if KeysTaken(t, ids) {
      if i :| 0 <= i < |t.audit| && t.audit[i].eventId == ids.eventId {
        assert t.audit[i] in t.audit;
      } else {
        var i :| 0 <= i < |t.versions| && t.versions[i].versionId == ids.versionId;
        assert t.versions[i] in t.versions;
      }
    }
  }

  lemma {:induction false} MaxIsGreatest(versions: seq<VersionRow>, d: string)
    ensures IsNextVersion(versions, d, MaxVersion(versions, d) + 1)
  {
    if versions != [] {
      var front, last := Front(versions), Last(versions);
      MaxIsGreatest(front, d);
      assert versions == front + [last];
      var v := MaxVersion(versions, d) + 1;
      if last.decisionId == d && last.version == v - 1 {
        assert last in versions;
      } else if v > 1 {
        var row :| row in front && row.decisionId == d && row.version == v - 1;
        assert row in versions;
      }
    }
  }

  lemma {:induction false} WriteIsEvent(digest: Digest, t: Tables, d: string, record: Record, eventType: EventType,
                                        resolution: Option<string>, ids: Fresh)
    ensures WroteEvent(digest, t, WriteEvent(digest, t, d, record, eventType, resolution, ids), d, record, eventType,
                       resolution, ids)
  {
    MaxIsGreatest(t.versions, d);
    hide IsNextVersion, MaxVersion;
  }

  /** `save_record` refuses exactly a taken key and otherwise writes the record it is given. */
  lemma {:induction false} SaveWrites(digest: Digest, t: Tables, record: Record, eventType: EventType, ids: Fresh)
    ensures var (t', saved) := SaveRecord(digest, t, record, eventType, ids);
      && (saved.Committed? <==> !Collides(t, ids))
      && (saved.Committed? ==>
           && WroteEvent(digest, t, t', record.decisionId, record, eventType, None, ids)
           && t'.reconciliations == t.reconciliations && saved.value == t'.records[record.decisionId])
      && (!saved.Committed? ==> saved == Raised && t' == t)
  {
    KeysCollide(t, ids);
    WriteIsEvent(digest, t, record.decisionId, record, eventType, None, ids);
    hide KeysTaken, Collides, WroteEvent, MaxVersion;
  }

  /** The row of `d` carries this nonce, was reserved, and is not consumed. */
  predicate InHand(t: Tables, d: string, nonce: string) {
    d in t.records && t.records[d].nonce == nonce && t.records[d].consumedAt == None && t.records[d].startedAt.Some?
  }

  /** `finalize_execution` changes a reserved row to EXECUTED with the reported outcome, and nothing else of it. */
  lemma {:induction false} FinalizeWrites(digest: Digest, t: Tables, d: string, nonce: string, at: int, outcome: Json,
                                          ids: Fresh)
    ensures var (t', done) := Finalize(digest, t, d, nonce, at, outcome, ids);
      && (done.Committed? <==> InHand(t, d, nonce) && !Collides(t, ids))
      && (done.Declined? <==> !InHand(t, d, nonce))
      && (done.Committed? ==>
           && WroteEvent(digest, t, t', d,
                         t.records[d].(execution := Some(ExecutionRecord(at, Executed, t.records[d].actionHash, nonce)),
                                       outcome := Some(outcome), consumedAt := Some(at)),
                         ExecutionRecorded, None, ids)
           && t'.reconciliations == t.reconciliations && done.value == t'.records[d])
      && (!done.Committed? ==> t' == t)
  {
    KeysCollide(t, ids);
    if d in t.records {
      WriteIsEvent(digest, t, d, Finalized(t.records[d], nonce, at, outcome), ExecutionRecorded, None, ids);
    }
    hide KeysTaken, Collides, WroteEvent, MaxVersion;
  }

  /** The decision or the id of the new row is already in the reconciliation table. */
  ghost predicate ReconciledBefore(t: Tables, d: string, ids: Fresh) {
    d in t.reconciliations
    || exists x :: x in t.reconciliations && t.reconciliations[x].reconciliationId == ids.reconciliationId
  }

  lemma {:induction false} KeyIsTaken(t: Tables, d: string, ids: Fresh)
    ensures ReconciliationKeyTaken(t, d, ids) <==> ReconciledBefore(t, d, ids)
  {
  }

  /** The stored row still waits for its execution to be settled. */
  predicate Unsettled(r: Record) {
    r.reconciliation == None && r.execution.Some? && r.execution.value.status != ExecutionStatus.Reconciled
  }

  /** `reconcile_execution` checks the stored row, and writes the record it is given as RECONCILED with
      resolution and outcome, together with one row of the reconciliation table. */
  lemma {:induction false} ReconcileWrites(digest: Digest, t: Tables, record: Record, nonce: string, at: int,
                                           resolution: string, outcome: Json, ids: Fresh)
    ensures var (t', done) := Reconcile(digest, t, record, nonce, at, resolution, outcome, ids);
      var d := record.decisionId;
      && (done.Committed? <==>
           && (resolution == "CONFIRMED_FILLED" || resolution == "CONFIRMED_NOT_EXECUTED")
           && InHand(t, d, nonce) && Unsettled(t.records[d])
           && !ReconciledBefore(t, d, ids) && !Collides(t, ids))
      && (done.Committed? ==>
           && WroteEvent(digest, t, t', d,
                         record.(execution := Some(ExecutionRecord(at, ExecutionStatus.Reconciled,
                                                                   t.records[d].actionHash, nonce)),
                                 reconciliation := Some(Reconciliation(resolution, at)),
                                 outcome := Some(outcome), consumedAt := Some(at)),
                         ExecutionReconciled, Some(resolution), ids)
           && t'.reconciliations ==
              t.reconciliations[d := ReconciliationRow(ids.reconciliationId, record.tenantId, nonce, resolution,
                                                       outcome, at)]
           && done.value == t'.records[d])
      && (!done.Committed? ==> t' == t)
      && (done.Raised? ==>
           || (resolution != "CONFIRMED_FILLED" && resolution != "CONFIRMED_NOT_EXECUTED")
           || (d in t.records && t.records[d].execution == None)
           || (d in t.records && Unsettled(t.records[d]) && (ReconciledBefore(t, d, ids) || Collides(t, ids))))
      && (done.Declined? ==>
           || !InHand(t, d, nonce) || t.records[d].reconciliation.Some?
           || (t.records[d].execution.Some? && t.records[d].execution.value.status == ExecutionStatus.Reconciled))
  {
    KeysCollide(t, ids);
    KeyIsTaken(t, record.decisionId, ids);
    hide ReconciliationKeyTaken, ReconciledBefore;
    var d := record.decisionId;
    if d in t.records {
      var row := ReconciliationRow(ids.reconciliationId, record.tenantId, nonce, resolution, outcome, at);
      var next := Storage.Reconciled(record, t.records[d].actionHash, nonce, at, resolution, outcome);
      WriteIsEvent(digest, t.(reconciliations := t.reconciliations[d := row]), d, next, ExecutionReconciled,
                   Some(resolution), ids);
      EventIgnoresReconciliations(digest, t, t.reconciliations[d := row],
                                  WriteEvent(digest, t.(reconciliations := t.reconciliations[d := row]), d, next,
                                             ExecutionReconciled, Some(resolution), ids),
                                  d, next, ExecutionReconciled, Some(resolution), ids);
    }
    hide KeysTaken, Collides, WroteEvent, MaxVersion;
  }

  lemma {:induction false} EventIgnoresReconciliations(digest: Digest, t: Tables,
                                                       reconciliations: map<string, ReconciliationRow>, t': Tables,
                                                       d: string, record: Record, eventType: EventType,
                                                       resolution: Option<string>, ids: Fresh)
    requires WroteEvent(digest, t.(reconciliations := reconciliations), t', d, record, eventType, resolution, ids)
    ensures WroteEvent(digest, t, t', d, record, eventType, resolution, ids)
  {
  }

  /** `reserve_execution` says yes to an unreserved, unconsumed row with the nonce; on SQLite the row is
      stamped, on PostgreSQL it stays as it is. `consume_nonce` says yes to an unconsumed one and stamps it. */
  lemma {:induction false} StampsWrite(backend: Backend, t: Tables, d: string, nonce: string, at: int)
    ensures var (t', yes) := Reserve(backend, t, d, nonce, at);
      && (yes <==> d in t.records && t.records[d].nonce == nonce && t.records[d].consumedAt == None
                   && t.records[d].startedAt == None)
      && t' == if yes && backend == Sqlite then t.(records := t.records[d := t.records[d].(startedAt := Some(at))])
               else t
    ensures var (t', yes) := ConsumeNonce(t, d, nonce, at);
      && (yes <==> d in t.records && t.records[d].nonce == nonce && t.records[d].consumedAt == None)
      && t' == if yes then t.(records := t.records[d := t.records[d].(consumedAt := Some(at))]) else t
  {
  }
}
