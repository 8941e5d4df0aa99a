/** The handlers of `app.py` in their own form: each loads a record, checks it, changes it
    and saves it through the record store. */
module ActionGate {
  import opened Prelude
  import opened EvidenceGate
  import opened Policy
  import opened Records
  import opened Storage
  import opened StateOracle
  import opened GateHandlers
  import opened Store

  lemma {:induction false} DecideIgnoresWorld(req: ActionRequest, world: Option<string>, risk: Risk, signal: Signal,
                                              policy: PolicySnapshot)
    ensures Decide(req.(worldVersion := world), risk, signal, policy) == Decide(req, risk, signal, policy)
  {
  }

  class Gateway {
    const cfg: Config
    const store: RecordStore
    const oracle: Oracle

    constructor (cfg: Config, store: RecordStore, oracle: Oracle)
      requires store.digest == cfg.eventDigest && store.backend == cfg.backend
      ensures this.cfg == cfg && this.store == store && this.oracle == oracle && Wired()
    {
      this.cfg, this.store, this.oracle := cfg, store, oracle;
    }

    /** The store works with this gate's digest function and backend. */
    ghost predicate Wired() {
      store.digest == cfg.eventDigest && store.backend == cfg.backend
    }

    method LoadRecord(d: string, tenant: string, now: int) returns (r: Answer)
      ensures r == LoadLive(cfg, store.View(), d, tenant, now)
    {
      if d !in store.records {
        return Refused(NotFound);
      }
      var record := store.records[d];
      if record.tenantId != tenant {
        return Refused(NotFound);
      }
      if record.signature != cfg.sign(SignedPartOf(record)) {
        return Refused(SignatureInvalid);
      }
      if record.consumedAt.Some? {
        return Refused(AlreadyConsumed);
      }
      if record.expiresAt <= now {
        return Refused(Expired);
      }
      r := Granted(record);
    }

    method Evaluate(request: ActionRequest, names: Names, ids: Fresh, now: int) returns (answer: Answer)
      requires Wired()
      modifies store
      ensures (store.View(), answer) ==
        GateHandlers.Evaluate(cfg, old(store.View()), CurrentVersion(oracle.table), request, names, ids, now)
    {
      hide Storage.SaveRecord, Gate, EvaluateRisk, ComputeSignal, Decide, NewRecord, KeysTaken;
      if cfg.production && !cfg.signingReady {
        return Refused(SigningNotConfigured);
      }
      if cfg.production && !Truthy(request.actorId) {
        return Refused(ActorRequired);
      }
      if cfg.requireSession && !Truthy(request.sessionId) {
        return Refused(SessionRequired);
      }
      var req := request;
      var risk := EvaluateRisk(req, cfg.policy);
      var signal := ComputeSignal(req, risk, cfg.policy);
      var world := CurrentVersion(oracle.table);
      if world == None {
        if cfg.production {
          return Refused(OracleNotInitialized);
        }
      } else {
        if req.worldVersion.Some? && req.worldVersion != world {
          return Refused(WorldNotCurrent);
        }
        req := req.(worldVersion := world);
      }
      var report := CheckEvidence(req.evidence, now);
      var decision := Ask;
      if report.contradictions == [] && report.verdict == Pass {
        DecideIgnoresWorld(request, req.worldVersion, risk, signal, cfg.policy);
        var decided := Decide(req, risk, signal, cfg.policy);
        if decided == None {
          return Refused(InvalidSignalBinding);
        }
        decision := decided.value;
      }
      if cfg.decisionTtl <= 0 || cfg.decisionTtl > 86400 {
        return Refused(InvalidDecisionTtl);
      }
      var record := NewRecord(cfg, request, world, names, report, decision, now);
      var saved := store.SaveRecord(record, DecisionCreated, ids);
      if !saved.Committed? {
        return Refused(StoreFailure);
      }
      answer := Granted(saved.value);
    }

    method Approve(d: string, approval: Approval, ids: Fresh, now: int) returns (answer: Answer)
      requires Wired()
      modifies store
      ensures (store.View(), answer) == GateHandlers.Approve(cfg, old(store.View()), d, approval, ids, now)
    {
      hide Storage.SaveRecord;
      answer := LoadRecord(d, approval.tenantId, now);
      if answer.Refused? {
        return;
      }
      var record := answer.record;
      if record.decision != Ask {
        return Refused(NotAwaitingApproval);
      }
      if approval.actionHash != record.actionHash {
        return Refused(ApprovalActionMismatch);
      }
      if approval.policyVersion != record.policySnapshot.version {
        return Refused(ApprovalPolicyMismatch);
      }
      if cfg.production {
        if !cfg.approvalReady {
          return Refused(ApprovalNotConfigured);
        }
        if approval.signature != cfg.approvalTag(approval.(signature := "")) {
          return Refused(ApprovalSignatureInvalid);
        }
      }
      var ttl := if approval.ttlSeconds.Some? then approval.ttlSeconds.value else cfg.approvalTtl;
      if ttl <= 0 || ttl > 86400 {
        return Refused(InvalidApprovalTtl);
      }
      record := record.(approval := Some(ApprovalRecord(approval.approverId, approval.approved, now + ttl * SECOND)));
      record := record.(decision := if approval.approved then Allow else Deny);
      var saved := store.SaveRecord(record, EventType.ApprovalRecorded, ids);
      if !saved.Committed? {
        return Refused(StoreFailure);
      }
      answer := Granted(saved.value);
    }

    /** The checks before an execution is reserved or recorded, in their order. */
    method CheckBindings(record: Record, outcome: ExecutionOutcome, now: int) returns (fault: Option<Refusal>)
      ensures fault == BindingFault(record, CurrentVersion(oracle.table), outcome, now)
    {
      if record.decision != Allow {
        return Some(NotPermitted);
      }
      if outcome.actionHash != record.actionHash {
        return Some(ActionMismatch);
      }
      if record.request.actorId.Some? && outcome.actorId != record.request.actorId {
        return Some(ActorMismatch);
      }
      if record.request.sessionId.Some? && outcome.sessionId != record.request.sessionId {
        return Some(SessionMismatch);
      }
      if outcome.nonce != record.nonce {
        return Some(NonceMismatch);
      }
      if record.worldVersion.Some? {
        var claimed := outcome.worldVersion;
        if claimed == None {
          claimed := record.worldVersion;
        }
        if claimed != record.worldVersion {
          return Some(WorldMismatch);
        }
        var current := CurrentVersion(oracle.table);
        if current == None || current != record.worldVersion {
          return Some(WorldChanged);
        }
      }
      if record.contradictions != [] {
        return Some(EvidenceContradiction);
      }
      if record.evidenceVerdict == Block {
        return Some(EvidenceBlocked);
      }
      if record.approval.Some? && record.approval.value.approved && record.approval.value.expiresAt <= now {
        return Some(ApprovalExpired);
      }
      fault := None;
    }

    method ExecutionReserve(d: string, outcome: ExecutionOutcome, ids: Fresh, now: int) returns (answer: Answer)
      requires Wired()
      modifies store
      ensures (store.View(), answer) ==
        GateHandlers.ExecutionReserve(cfg, old(store.View()), CurrentVersion(oracle.table), d, outcome, ids, now)
    {
      answer := LoadRecord(d, outcome.tenantId, now);
      if answer.Refused? {
        return;
      }
      var record := answer.record;
      var fault := CheckBindings(record, outcome, now);
      if fault.Some? {
        return Refused(fault.value);
      }
      var reserved := store.ReserveExecution(d, outcome.nonce, now);
      if !reserved {
        return Refused(AlreadyReserved);
      }
      record := record.(startedAt := Some(now));
      if !cfg.authorityReady {
        return Refused(AuthorityNotConfigured);
      }
      var issued := now / SECOND;
      var unsigned := Authority(d, record.tenantId, cfg.actionHash(record.normalizedAction),
                                cfg.policyHash(record.policySnapshot), record.nonce,
                                issued, issued + Max(1, (record.expiresAt - now) / SECOND), record.decision, "");
      record := record.(authority := Some(unsigned.(signature := cfg.tag(unsigned))));
      record := record.(execution := Some(ExecutionRecord(now, Reserved, record.actionHash, record.nonce)));
      assert record == WithReservation(cfg, d, answer.record, now);
      var saved := store.SaveRecord(record, ExecutionReserved, ids);
      if !saved.Committed? {
        return Refused(StoreFailure);
      }
      answer := Granted(saved.value);
    }

    method Execution(d: string, outcome: ExecutionOutcome, ids: Fresh, now: int) returns (answer: Answer)
      requires Wired()
      modifies store
      ensures (store.View(), answer) ==
        GateHandlers.Execution(cfg, old(store.View()), CurrentVersion(oracle.table), d, outcome, ids, now)
    {
      answer := LoadRecord(d, outcome.tenantId, now);
      if answer.Refused? {
        return;
      }
      var record := answer.record;
      var fault := CheckBindings(record, outcome, now);
      if fault.Some? {
        return Refused(fault.value);
      }
      if record.startedAt == None {
        return Refused(NotReserved);
      }
      if record.authority == None {
        return Refused(AuthorityMissing);
      }
      if record.reconciliation.Some? {
        return Refused(AlreadyReconciled);
      }
      if record.execution == None {
        return Refused(ServerError);
      }
      if record.execution.value.status == ExecutionStatus.Reconciled {
        return Refused(AlreadyReconciled);
      }
      var finalized := store.FinalizeExecution(d, outcome.nonce, now, outcome.outcome, ids);
      match finalized {
        case Committed(final) => answer := Granted(final);
        case Declined => answer := Refused(FinalizationConflict);
        case Raised => answer := Refused(StoreFailure);
      }
    }

    method ExecutionReconcile(d: string, outcome: ReconciliationOutcome, ids: Fresh, now: int) returns (answer: Answer)
      requires Wired()
      modifies store
      ensures (store.View(), answer) == GateHandlers.ExecutionReconcile(cfg, old(store.View()), d, outcome, ids, now)
    {
      answer := LoadRecord(d, outcome.tenantId, now);
      if answer.Refused? {
        return;
      }
      var record := answer.record;
      if record.decision != Allow {
        return Refused(NotPermitted);
      }
      if outcome.actionHash != record.actionHash {
        return Refused(ActionMismatch);
      }
      if outcome.nonce != record.nonce {
        return Refused(NonceMismatch);
      }
      if record.startedAt == None {
        return Refused(NotReserved);
      }
      if record.consumedAt.Some? {
        return Refused(AlreadyFinalized);
      }
      if record.reconciliation.Some? {
        return Refused(AlreadyReconciled);
      }
      if outcome.resolution !in RESOLUTIONS {
        return Refused(InvalidResolution);
      }
      var reconciled := store.ReconcileExecution(record, outcome.nonce, now, outcome.resolution, outcome.outcome, ids);
      match reconciled {
        case Committed(final) => answer := Granted(final);
        case Declined => answer := Refused(ReconciliationConflict);
        case Raised => answer := Refused(StoreFailure);
      }
    }
  }
}
