/** What every handler keeps about a decision record, and how a record may change. */
module GateInvariant {
  import opened Prelude
  import opened EvidenceGate
  import opened Policy
  import opened Records
  import opened Storage
  import opened GateHandlers

  /** The part of a record that evaluation fixes for good. */
  function Core(r: Record): Record {
    r.(approval := None, decision := Ask, execution := None, outcome := None, consumedAt := None,
       startedAt := None, authority := None, reconciliation := None, auditEventHash := None)
  }

  /** The decision that evaluation took, before any approval. */
  function InitialDecision(cfg: Config, r: Record): Option<Decision> {
    if r.evidenceVerdict == Block then Some(Ask) else Pipeline(r.request, cfg.policy)
  }

  /** Hashes, signature and evidence fields fit together as evaluation left them. */
  ghost predicate Bound(cfg: Config, r: Record) {
    && r.signature == cfg.sign(SignedPartOf(r))
    && r.policySnapshot == cfg.policy && r.policyHash == cfg.policyHash(r.policySnapshot)
    && r.normalizedAction == Normalize(r.request, r.signal) && r.actionHash == cfg.actionHash(r.normalizedAction)
    && r.signal == ComputeSignal(r.request, EvaluateRisk(r.request, cfg.policy), cfg.policy)
    && r.evidence == r.request.evidence
    && r.worldVersion == r.request.worldVersion && r.tenantId == r.request.tenantId
    && (ScanAll(r.evidence).contradictions == [] <==> r.contradictions == [])
    && (r.evidenceVerdict == Pass ==> r.contradictions == [])
  }

  /** The decision field follows from evaluation and at most one approval. */
  ghost predicate DecisionFollows(cfg: Config, r: Record) {
    if r.approval == None then Some(r.decision) == InitialDecision(cfg, r)
    else InitialDecision(cfg, r) == Some(Ask) && r.decision == if r.approval.value.approved then Allow else Deny
  }

  /** The execution fields only ever take these shapes. */
  ghost predicate LifecycleOk(r: Record) {
    && (r.startedAt.Some? ==> r.decision == Allow && r.evidenceVerdict == Pass)
    && (r.authority.Some? ==> r.startedAt.Some?)
    && (r.authority.Some? <==> r.execution.Some?)
    && (r.consumedAt.Some? ==> r.startedAt.Some?)
    && (r.consumedAt.Some? <==> r.execution.Some? && r.execution.value.status != Reserved)
    && (r.reconciliation.Some? <==> r.execution.Some? && r.execution.value.status == ExecutionStatus.Reconciled)
  }

  /** A stored authority carries the record's own identity and hashes, under a valid tag. */
  ghost predicate AuthorityOk(cfg: Config, r: Record) {
    r.authority.Some? ==>
      var a := r.authority.value;
      && a.decisionId == r.decisionId && a.tenantId == r.tenantId && a.nonce == r.nonce
      && a.actionDigest == r.actionHash && a.policyDigest == r.policyHash
      && a.decision == Allow && a.signature == cfg.tag(a.(signature := ""))
  }

  ghost predicate RecordOk(cfg: Config, r: Record) {
    Bound(cfg, r) && DecisionFollows(cfg, r) && LifecycleOk(r) && AuthorityOk(cfg, r)
  }

  /** `r'` is `r` or a later state of it. */
  ghost predicate Succeeds(r: Record, r': Record) {
    && Core(r) == Core(r')
    && (r.consumedAt.Some? ==> r' == r)
    && (r.startedAt.Some? ==> r'.startedAt == r.startedAt && r'.authority == r.authority)
    && (r.authority.Some? ==> r'.authority == r.authority)
    && (r.approval.Some? ==> r'.approval == r.approval && r'.decision == r.decision)
    && (r.decision != Ask ==> r'.decision == r.decision)
  }

  lemma {:induction false} SavedRecord(digest: Digest, t: Tables, record: Record, eventType: EventType, ids: Fresh)
    ensures var (t', saved) := SaveRecord(digest, t, record, eventType, ids);
      if saved.Committed? then
        && t'.records == t.records[record.decisionId := saved.value]
        && saved.value == record.(auditEventHash := saved.value.auditEventHash)
      else t' == t
  {
  }

  lemma {:induction false} AuditHashIsFree(cfg: Config, r: Record, h: Option<string>)
    requires RecordOk(cfg, r)
    ensures RecordOk(cfg, r.(auditEventHash := h))
  {
    assert SignedPartOf(r.(auditEventHash := h)) == SignedPartOf(r);
  }

  lemma {:induction false} SucceedsIsReflexive(r: Record)
    ensures Succeeds(r, r)
  {
  }

  lemma {:induction false} SucceedsIsTransitive(a: Record, b: Record, c: Record)
    requires Succeeds(a, b) && Succeeds(b, c)
    ensures Succeeds(a, c)
  {
  }

  // ---- evaluate ----

  lemma {:induction false} GateReport(items: seq<Item>, now: int)
    ensures var report := Gate(items, now);
      && |report.normalized| == |items|
      && (ScanAll(report.normalized).contradictions == [] <==> report.contradictions == [])
      && (report.verdict == Pass ==> report.contradictions == [])
  {
    NormalizingKeepsConflicts(items, now);
  }

  lemma {:induction false} NewRecordIsOk(cfg: Config, req: ActionRequest, world: Option<string>, names: Names,
                                         decision: Decision, now: int)
    requires DecisionFor(req, Gate(req.evidence, now), cfg.policy) == Some(decision)
    ensures RecordOk(cfg, NewRecord(cfg, req, world, names, Gate(req.evidence, now), decision, now))
  {
    var report := Gate(req.evidence, now);
    var r := NewRecord(cfg, req, world, names, report, decision, now);
    GateReport(req.evidence, now);
    assert SignedPartOf(r) == SignedPartOf(r.(signature := ""));
    PipelineIgnoresHints(req, cfg.policy, req.riskHint, report.normalized, r.worldVersion);
    assert r.request == req.(riskHint := req.riskHint, evidence := report.normalized, worldVersion := r.worldVersion);
  }

  lemma {:induction false} EvaluateShape(cfg: Config, t: Tables, world: Option<string>, req: ActionRequest,
                                         names: Names,
                                         ids: Fresh, now: int)
    ensures var (t', answer) := Evaluate(cfg, t, world, req, names, ids, now);
      if answer.Refused? then t' == t
      else
        && t'.records == t.records[names.decisionId := answer.record]
        && RecordOk(cfg, answer.record)
        && answer.record.decisionId == names.decisionId && answer.record.nonce == names.nonce
        && answer.record.tenantId == req.tenantId
        && answer.record.request == StampWorld(req, world).(evidence := Gate(req.evidence, now).normalized)
        && answer.record.evidenceVerdict == Gate(req.evidence, now).verdict
        && answer.record.approval == None && answer.record.startedAt == None && answer.record.authority == None
        && answer.record.consumedAt == None
  {
    var (t', answer) := Evaluate(cfg, t, world, req, names, ids, now);
    if answer.Granted? {
      var report := Gate(req.evidence, now);
      var decision := DecisionFor(req, report, cfg.policy).value;
      var record := NewRecord(cfg, req, world, names, report, decision, now);
      NewRecordIsOk(cfg, req, world, names, decision, now);
      SavedRecord(cfg.eventDigest, t, record, DecisionCreated, ids);
      AuditHashIsFree(cfg, record, answer.record.auditEventHash);
    }
  }

  // ---- approve ----

  lemma {:induction false} LoadedLive(cfg: Config, t: Tables, d: string, tenant: string, now: int)
    requires LoadLive(cfg, t, d, tenant, now).Granted?
    ensures d in t.records && LoadLive(cfg, t, d, tenant, now).record == t.records[d]
    ensures t.records[d].consumedAt == None && t.records[d].tenantId == tenant && now < t.records[d].expiresAt
  {
  }

  lemma {:induction false} ApproveShape(cfg: Config, t: Tables, d: string, approval: Approval, ids: Fresh, now: int)
    requires d in t.records ==> t.records[d].decisionId == d && RecordOk(cfg, t.records[d])
    ensures var (t', answer) := Approve(cfg, t, d, approval, ids, now);
      if answer.Refused? then t' == t
      else
        && d in t.records && t'.records == t.records[d := answer.record]
        && RecordOk(cfg, answer.record) && Succeeds(t.records[d], answer.record)
        && answer.record.authority == t.records[d].authority && answer.record.startedAt == t.records[d].startedAt
        && answer.record.consumedAt == t.records[d].consumedAt
  {
    var (t', answer) := Approve(cfg, t, d, approval, ids, now);
    if answer.Granted? {
      var r := t.records[d];
      var next := Approved(cfg, r, approval, now);
      SavedRecord(cfg.eventDigest, t, next, EventType.ApprovalRecorded, ids);
      assert SignedPartOf(next) == SignedPartOf(r);
      AuditHashIsFree(cfg, next, answer.record.auditEventHash);
    }
  }

  // ---- reserve ----

  lemma {:induction false} UnfaultyBinding(cfg: Config, r: Record, world: Option<string>,
                                           outcome: ExecutionOutcome, now: int)
    requires RecordOk(cfg, r) && BindingFault(r, world, outcome, now) == None
    ensures r.decision == Allow && r.evidenceVerdict == Pass && r.contradictions == []
    ensures outcome.nonce == r.nonce
    ensures r.worldVersion.Some? ==> world == r.worldVersion
  {
  }

  /** The record that a granted reservation answers with, and what a refusal may leave. */
  lemma {:induction false} ReserveWrites(cfg: Config, t: Tables, world: Option<string>, d: string,
                                         outcome: ExecutionOutcome,
                                         ids: Fresh, now: int)
    requires d in t.records ==> t.records[d].decisionId == d
    ensures var (t', answer) := ExecutionReserve(cfg, t, world, d, outcome, ids, now);
      var loaded := LoadLive(cfg, t, d, outcome.tenantId, now);
      t' == t ||
      (&& loaded.Granted? && BindingFault(loaded.record, world, outcome, now) == None
       && d in t.records && loaded.record == t.records[d] && t.records[d].startedAt == None
       && t.records[d].consumedAt == None
       && if answer.Refused? then t'.records == t.records[d := t.records[d].(startedAt := Some(now))]
          else
            && t'.records == t.records[d := answer.record]
            && answer.record
               == WithReservation(cfg, d, t.records[d], now).(auditEventHash := answer.record.auditEventHash))
    ensures ExecutionReserve(cfg, t, world, d, outcome, ids, now).1.Granted? ==>
      ExecutionReserve(cfg, t, world, d, outcome, ids, now).0 != t
  {
    hide LoadLive, BindingFault, SaveRecord, KeysTaken;
    var loaded := LoadLive(cfg, t, d, outcome.tenantId, now);
    if loaded.Granted? {
      LoadedLive(cfg, t, d, outcome.tenantId, now);
      var t1 := Reserve(cfg.backend, t, d, outcome.nonce, now).0;
      SavedRecord(cfg.eventDigest, t1, WithReservation(cfg, d, loaded.record, now), ExecutionReserved, ids);
    }
  }

  /** Either nothing changes, or the stamp of `reserve_execution` alone is stored, or the
      reservation is granted together with the only authority of the decision. */
  lemma {:induction false} ReserveShape(cfg: Config, t: Tables, world: Option<string>, d: string,
                                        outcome: ExecutionOutcome,
                                        ids: Fresh, now: int)
    requires d in t.records ==> t.records[d].decisionId == d && RecordOk(cfg, t.records[d])
    ensures var (t', answer) := ExecutionReserve(cfg, t, world, d, outcome, ids, now);
      if answer.Refused? then
        || t' == t
        || (&& d in t.records && t.records[d].startedAt == None
            && t'.records == t.records[d := t.records[d].(startedAt := Some(now))]
            && RecordOk(cfg, t'.records[d]) && Succeeds(t.records[d], t'.records[d]))
      else
        && d in t.records && t.records[d].startedAt == None && t.records[d].authority == None
        && t.records[d].consumedAt == None
        && t'.records == t.records[d := answer.record]
        && RecordOk(cfg, answer.record) && Succeeds(t.records[d], answer.record)
        && answer.record.startedAt == Some(now)
        && answer.record.authority == Some(IssueAuthority(cfg, d, t.records[d], now))
        && answer.record.decision == Allow && answer.record.consumedAt == None
        && (t.records[d].worldVersion.Some? ==> world == t.records[d].worldVersion)
  {
    hide LoadLive, BindingFault, ExecutionReserve, RecordOk, Succeeds;
    var (t', answer) := ExecutionReserve(cfg, t, world, d, outcome, ids, now);
    ReserveWrites(cfg, t, world, d, outcome, ids, now);
    if t' != t {
      var r := t.records[d];
      UnfaultyBinding(cfg, r, world, outcome, now);
      StampedIsOk(cfg, r, now);
      ReservedIsOk(cfg, d, r, now);
      if answer.Granted? {
        AuditHashIsFree(cfg, WithReservation(cfg, d, r, now), answer.record.auditEventHash);
        AuditHashSucceeds(r, WithReservation(cfg, d, r, now), answer.record.auditEventHash);
      }
    }
  }

  lemma {:induction false} StampedIsOk(cfg: Config, r: Record, now: int)
    requires RecordOk(cfg, r) && r.startedAt == None && r.decision == Allow && r.evidenceVerdict == Pass
    ensures RecordOk(cfg, r.(startedAt := Some(now))) && Succeeds(r, r.(startedAt := Some(now)))
  {
    assert SignedPartOf(r.(startedAt := Some(now))) == SignedPartOf(r);
  }

  lemma {:induction false} ReservedIsOk(cfg: Config, d: string, r: Record, now: int)
    requires RecordOk(cfg, r) && r.startedAt == None && r.consumedAt == None && r.decisionId == d
    requires r.decision == Allow && r.evidenceVerdict == Pass
    ensures RecordOk(cfg, WithReservation(cfg, d, r, now)) && Succeeds(r, WithReservation(cfg, d, r, now))
    ensures r.authority == None
  {
    assert SignedPartOf(WithReservation(cfg, d, r, now)) == SignedPartOf(r);
  }

  lemma {:induction false} AuditHashSucceeds(r: Record, r': Record, h: Option<string>)
    requires Succeeds(r, r') && r.consumedAt == None
    ensures Succeeds(r, r'.(auditEventHash := h))
  {
  }

  // ---- execute and reconcile ----

  lemma {:induction false} FinalRecordIsOk(cfg: Config, r: Record, final: Record)
    requires RecordOk(cfg, r) && r.consumedAt == None && r.startedAt.Some? && r.authority.Some?
    requires Core(final) == Core(r) && final.startedAt == r.startedAt && final.authority == r.authority
    requires final.approval == r.approval && final.decision == r.decision
    requires final.consumedAt.Some? && final.execution.Some? && final.execution.value.status != Reserved
    requires final.reconciliation.Some? <==> final.execution.value.status == ExecutionStatus.Reconciled
    ensures RecordOk(cfg, final) && Succeeds(r, final)
  {
    assert final.request == Core(final).request && final.signature == Core(final).signature;
    assert SignedPartOf(final) == SignedPartOf(Core(final)) == SignedPartOf(Core(r)) == SignedPartOf(r);
    assert final.evidence == Core(final).evidence == r.evidence;
    assert final.contradictions == Core(final).contradictions == r.contradictions;
    assert final.policySnapshot == Core(final).policySnapshot && final.signal == Core(final).signal;
    assert final.normalizedAction == Core(final).normalizedAction && final.actionHash == Core(final).actionHash;
    assert final.policyHash == Core(final).policyHash && final.evidenceVerdict == Core(final).evidenceVerdict;
    assert final.worldVersion == Core(final).worldVersion && final.tenantId == Core(final).tenantId;
    assert final.decisionId == Core(final).decisionId && final.nonce == Core(final).nonce;
  }

  /** A refused reservation leaves its stamp behind exactly when the reservation itself was
      granted on SQLite and then the authority could not be issued or the record not saved. */
  lemma {:induction false} RefusalLeavesStampIff(cfg: Config, t: Tables, world: Option<string>, d: string,
                                                 outcome: ExecutionOutcome, ids: Fresh, now: int)
    ensures var (t', answer) := ExecutionReserve(cfg, t, world, d, outcome, ids, now);
      var loaded := LoadLive(cfg, t, d, outcome.tenantId, now);
      (answer.Refused? && t' != t) <==>
        (&& loaded.Granted? && BindingFault(loaded.record, world, outcome, now) == None
         && loaded.record.startedAt == None
         && cfg.backend == Sqlite && (!cfg.authorityReady || KeysTaken(t, ids)))
  {
    var (t', answer) := ExecutionReserve(cfg, t, world, d, outcome, ids, now);
    var loaded := LoadLive(cfg, t, d, outcome.tenantId, now);
    if loaded.Granted? && BindingFault(loaded.record, world, outcome, now) == None {
      var (t1, reserved) := Reserve(cfg.backend, t, d, outcome.nonce, now);
      assert KeysTaken(t1, ids) == KeysTaken(t, ids);
      if reserved && cfg.backend == Sqlite {
        assert t1.records[d].startedAt == Some(now) && t.records[d].startedAt == None;
      }
    }
  }

  lemma {:induction false} ExecutionShape(cfg: Config, t: Tables, world: Option<string>, d: string,
                                          outcome: ExecutionOutcome,
                                          ids: Fresh, now: int)
    requires d in t.records ==> t.records[d].decisionId == d && RecordOk(cfg, t.records[d])
    ensures var (t', answer) := Execution(cfg, t, world, d, outcome, ids, now);
      if answer.Refused? then t' == t
      else
        && d in t.records && t'.records == t.records[d := answer.record]
        && RecordOk(cfg, answer.record) && Succeeds(t.records[d], answer.record)
        && t.records[d].consumedAt == None && t.records[d].startedAt.Some?
        && answer.record.consumedAt == Some(now) && answer.record.execution.Some?
        && answer.record.execution.value.status == Executed
        && answer.record.authority == t.records[d].authority
        && (t.records[d].worldVersion.Some? ==> world == t.records[d].worldVersion)
  {
    hide RecordOk, Succeeds, LoadLive, BindingFault, KeysTaken, MaxVersion, BodyFor;
    var (t', answer) := Execution(cfg, t, world, d, outcome, ids, now);
    if answer.Granted? {
      LoadedLive(cfg, t, d, outcome.tenantId, now);
      var r := t.records[d];
      UnfaultyBinding(cfg, r, world, outcome, now);
      var finalized := Finalized(r, outcome.nonce, now, outcome.outcome);
      FinalRecordIsOk(cfg, r, finalized);
      AuditHashIsFree(cfg, finalized, answer.record.auditEventHash);
      AuditHashSucceeds(r, finalized, answer.record.auditEventHash);
    }
  }

  lemma {:induction false} ReconcileShape(cfg: Config, t: Tables, d: string, outcome: ReconciliationOutcome,
                                          ids: Fresh, now: int)
    requires d in t.records ==> t.records[d].decisionId == d && RecordOk(cfg, t.records[d])
    ensures var (t', answer) := ExecutionReconcile(cfg, t, d, outcome, ids, now);
      if answer.Refused? then t' == t
      else
        && d in t.records && t'.records == t.records[d := answer.record]
        && RecordOk(cfg, answer.record) && Succeeds(t.records[d], answer.record)
        && t.records[d].consumedAt == None && t.records[d].startedAt.Some?
        && answer.record.consumedAt == Some(now) && answer.record.execution.Some?
        && answer.record.execution.value.status == ExecutionStatus.Reconciled
        && answer.record.authority == t.records[d].authority
  {
    var (t', answer) := ExecutionReconcile(cfg, t, d, outcome, ids, now);
    if answer.Granted? {
      var r := t.records[d];
      var reconciled := Storage.Reconciled(r, r.actionHash, outcome.nonce, now, outcome.resolution, outcome.outcome);
      FinalRecordIsOk(cfg, r, reconciled);
      AuditHashIsFree(cfg, reconciled, answer.record.auditEventHash);
    }
  }

  // ---- consequences for one record ----

  /** A reserved decision had acceptable evidence, and is not one that no approval may lift. */
  lemma {:induction false} ReservedMeansPermitted(cfg: Config, r: Record)
    requires RecordOk(cfg, r) && r.startedAt.Some?
    ensures r.decision == Allow && r.evidenceVerdict == Pass && r.contradictions == []
    ensures !Prohibited(r.request, cfg.policy)
  {
    PipelineTable(r.request, cfg.policy);
  }

  /** What replay reports of any record the gate may hold, at any later time. */
  lemma {:induction false} ReplayOfRecord(cfg: Config, r: Record, now: int)
    requires RecordOk(cfg, r)
    ensures var replay := Replay(cfg, r, now);
      && replay.Some?
      && replay.value.policyHashMatch && replay.value.actionHashMatch
      && Some(replay.value.replayed) == Pipeline(r.request, cfg.policy)
      && Some(replay.value.expected) == InitialDecision(cfg, r)
      && replay.value.evidenceVerdict == (if Acceptable(r.evidence, now) then Pass else Block)
      && replay.value.contradictions == ScanAll(r.evidence).contradictions
      && (replay.value.matches <==>
           r.contradictions == [] && (r.evidenceVerdict == Pass || Pipeline(r.request, cfg.policy) == Some(Ask)))
  {
    var report := Gate(r.evidence, now);
    var req := r.request.(evidence := report.normalized);
    PassMeansAcceptable(r.evidence, now);
    PipelineTable(r.request, cfg.policy);
    assert EvaluateRisk(req, cfg.policy) == EvaluateRisk(r.request, cfg.policy);
    assert Normalize(req, r.signal) == Normalize(r.request, r.signal);
    assert Decide(req, EvaluateRisk(req, cfg.policy), r.signal, cfg.policy) == Pipeline(r.request, cfg.policy);
  }
}
