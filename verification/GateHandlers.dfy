/** The HTTP handlers of `app.py` as functions on the tables: each returns the new tables
    and the answer. One call is one atomic step with one clock reading. */
module GateHandlers {
  import opened Prelude
  import opened EvidenceGate
  import opened Policy
  import opened Records
  import opened Storage

  datatype SignedPart = SignedPart(
    decisionId: string, tenantId: string, actionHash: string, policyHash: string, nonce: string, expiresAt: int)

  datatype Approval = Approval(
    approverId: string, approved: bool, actionHash: string, tenantId: string, policyVersion: string,
    ttlSeconds: Option<int>, signature: string)

  /** Deployment settings, and the digest and signing functions as parameters. */
  datatype Config = Config(
    production: bool, requireSession: bool, backend: Backend,
    policy: PolicySnapshot, decisionTtl: int, approvalTtl: int,
    signingReady: bool, authorityReady: bool, approvalReady: bool,
    eventDigest: Digest,
    actionHash: NormalizedAction -> string,
    policyHash: PolicySnapshot -> string,
    sign: SignedPart -> string,
    tag: Authority -> string,
    approvalTag: Approval -> string)

  datatype Refusal =
    | SigningNotConfigured | ActorRequired | SessionRequired | OracleNotInitialized | WorldNotCurrent
    | InvalidSignalBinding | InvalidDecisionTtl | StoreFailure | ServerError
    | NotFound | SignatureInvalid | AlreadyConsumed | Expired
    | NotAwaitingApproval | ApprovalActionMismatch | ApprovalPolicyMismatch
    | ApprovalNotConfigured | ApprovalSignatureInvalid | InvalidApprovalTtl
    | NotPermitted | ActionMismatch | ActorMismatch | SessionMismatch | NonceMismatch
    | WorldMismatch | WorldChanged | EvidenceContradiction | EvidenceBlocked | ApprovalExpired
    | AlreadyReserved | AuthorityNotConfigured
    | NotReserved | AuthorityMissing | AlreadyReconciled | FinalizationConflict
    | AlreadyFinalized | InvalidResolution | ReconciliationConflict

  datatype Answer = Granted(record: Record) | Refused(reason: Refusal)

  /** The random names that one evaluation draws. */
  datatype Names = Names(decisionId: string, traceId: string, nonce: string)

  datatype ExecutionOutcome = ExecutionOutcome(
    actionHash: string, tenantId: string, actorId: Option<string>, sessionId: Option<string>,
    nonce: string, worldVersion: Option<string>, outcome: Json)

  datatype ReconciliationOutcome = ReconciliationOutcome(
    actionHash: string, tenantId: string, nonce: string, resolution: string, outcome: Json)

  // ---- evaluate ----

  /** The request as the gate keeps it: stamped with the current world, if there is one. */
  function StampWorld(req: ActionRequest, world: Option<string>): ActionRequest {
    if world.Some? then req.(worldVersion := world) else req
  }

  function DecisionFor(req: ActionRequest, report: Report, policy: PolicySnapshot): Option<Decision> {
    if report.verdict == Block then Some(Ask) else Pipeline(req, policy)
  }

  function SignedPartOf(r: Record): SignedPart {
    SignedPart(r.decisionId, r.tenantId, r.actionHash, r.policyHash, r.nonce, r.expiresAt)
  }

  function NewRecord(cfg: Config, req: ActionRequest, world: Option<string>, names: Names, report: Report,
                     decision: Decision, now: int): Record
  {
    var risk := EvaluateRisk(req, cfg.policy);
    var signal := ComputeSignal(req, risk, cfg.policy);
    var kept := StampWorld(req, world).(evidence := report.normalized);
    var normalized := Normalize(kept, signal);
    var unsigned := Record(
      names.decisionId, names.traceId, req.tenantId,
      kept, normalized, cfg.actionHash(normalized), names.nonce,
      cfg.policy, cfg.policyHash(cfg.policy),
      risk, decision, signal,
      report.normalized, report.verdict, report.contradictions,
      kept.worldVersion,
      None, None, None,
      now + cfg.decisionTtl * SECOND, None, "",
      None, None, None, None);
    unsigned.(signature := cfg.sign(SignedPartOf(unsigned)))
  }

  function Evaluate(cfg: Config, t: Tables, world: Option<string>, req: ActionRequest, names: Names,
                    ids: Fresh, now: int): (Tables, Answer)
  {
    if cfg.production && !cfg.signingReady then (t, Refused(SigningNotConfigured))
    else if cfg.production && !Truthy(req.actorId) then (t, Refused(ActorRequired))
    else if cfg.requireSession && !Truthy(req.sessionId) then (t, Refused(SessionRequired))
    else if world == None && cfg.production then (t, Refused(OracleNotInitialized))
    else if world.Some? && req.worldVersion.Some? && req.worldVersion != world then (t, Refused(WorldNotCurrent))
    else
      var report := Gate(req.evidence, now);
      var decision := DecisionFor(req, report, cfg.policy);
      if decision == None then (t, Refused(InvalidSignalBinding))
      else if cfg.decisionTtl <= 0 || cfg.decisionTtl > 86400 then (t, Refused(InvalidDecisionTtl))
      else
        var record := NewRecord(cfg, req, world, names, report, decision.value, now);
        var (t', saved) := SaveRecord(cfg.eventDigest, t, record, DecisionCreated, ids);
        (t', if saved.Committed? then Granted(saved.value) else Refused(StoreFailure))
  }

  // ---- what the later handlers share ----

  /** `load`: the stored record, if it belongs to the tenant and its signature verifies. */
  function Load(cfg: Config, t: Tables, d: string, tenant: string): Answer {
    if d !in t.records || t.records[d].tenantId != tenant then Refused(NotFound)
    else if t.records[d].signature != cfg.sign(SignedPartOf(t.records[d])) then Refused(SignatureInvalid)
    else Granted(t.records[d])
  }

  function LoadLive(cfg: Config, t: Tables, d: string, tenant: string, now: int): Answer {
    var loaded := Load(cfg, t, d, tenant);
    if loaded.Refused? then loaded
    else if loaded.record.consumedAt.Some? then Refused(AlreadyConsumed)
    else if loaded.record.expiresAt <= now then Refused(Expired)
    else loaded
  }

  /** The checks that reserving and recording an execution have in common. */
  function BindingFault(r: Record, world: Option<string>, outcome: ExecutionOutcome, now: int): Option<Refusal> {
    if r.decision != Allow then Some(NotPermitted)
    else if outcome.actionHash != r.actionHash then Some(ActionMismatch)
    else if r.request.actorId.Some? && outcome.actorId != r.request.actorId then Some(ActorMismatch)
    else if r.request.sessionId.Some? && outcome.sessionId != r.request.sessionId then Some(SessionMismatch)
    else if outcome.nonce != r.nonce then Some(NonceMismatch)
    else if r.worldVersion.Some? && outcome.worldVersion.Some? && outcome.worldVersion != r.worldVersion then
      Some(WorldMismatch)
    else if r.worldVersion.Some? && world != r.worldVersion then Some(WorldChanged)
    else if r.contradictions != [] then Some(EvidenceContradiction)
    else if r.evidenceVerdict == Block then Some(EvidenceBlocked)
    else if r.approval.Some? && r.approval.value.approved && r.approval.value.expiresAt <= now then
      Some(ApprovalExpired)
    else None
  }

  // ---- approve ----

  function ApprovalFault(cfg: Config, r: Record, approval: Approval): Option<Refusal> {
    var ttl := if approval.ttlSeconds.Some? then approval.ttlSeconds.value else cfg.approvalTtl;
    if r.decision != Ask then Some(NotAwaitingApproval)
    else if approval.actionHash != r.actionHash then Some(ApprovalActionMismatch)
    else if approval.policyVersion != r.policySnapshot.version then Some(ApprovalPolicyMismatch)
    else if cfg.production && !cfg.approvalReady then Some(ApprovalNotConfigured)
    else if cfg.production && approval.signature != cfg.approvalTag(approval.(signature := "")) then
      Some(ApprovalSignatureInvalid)
    else if ttl <= 0 || ttl > 86400 then Some(InvalidApprovalTtl)
    else None
  }

  function Approved(cfg: Config, r: Record, approval: Approval, now: int): Record {
    var ttl := if approval.ttlSeconds.Some? then approval.ttlSeconds.value else cfg.approvalTtl;
    r.(approval := Some(ApprovalRecord(approval.approverId, approval.approved, now + ttl * SECOND)),
       decision := if approval.approved then Allow else Deny)
  }

  function Approve(cfg: Config, t: Tables, d: string, approval: Approval, ids: Fresh, now: int): (Tables, Answer) {
    var loaded := LoadLive(cfg, t, d, approval.tenantId, now);
    if loaded.Refused? then (t, loaded)
    else if ApprovalFault(cfg, loaded.record, approval).Some? then
      (t, Refused(ApprovalFault(cfg, loaded.record, approval).value))
    else
      var (t', saved) := SaveRecord(cfg.eventDigest, t, Approved(cfg, loaded.record, approval, now),
                                    EventType.ApprovalRecorded, ids);
      (t', if saved.Committed? then Granted(saved.value) else Refused(StoreFailure))
  }

  // ---- reserve ----

  function Max(a: int, b: int): int { if a > b then a else b }

  /** `issue_authority` with the decision's remaining lifetime and its nonce. */
  function IssueAuthority(cfg: Config, d: string, r: Record, now: int): Authority {
    var issued := now / SECOND;
    var unsigned := Authority(d, r.tenantId, cfg.actionHash(r.normalizedAction),
                              cfg.policyHash(r.policySnapshot), r.nonce,
                              issued, issued + Max(1, (r.expiresAt - now) / SECOND), r.decision, "");
    unsigned.(signature := cfg.tag(unsigned))
  }

  function WithReservation(cfg: Config, d: string, r: Record, now: int): Record {
    r.(startedAt := Some(now),
       authority := Some(IssueAuthority(cfg, d, r, now)),
       execution := Some(ExecutionRecord(now, Reserved, r.actionHash, r.nonce)))
  }

  /** The reservation itself is stored before the authority is issued: if the gate has no
      authority secret, or the save fails, the answer is an error but the stamp stays. */
  function ExecutionReserve(cfg: Config, t: Tables, world: Option<string>, d: string, outcome: ExecutionOutcome,
                            ids: Fresh, now: int): (Tables, Answer)
  {
    var loaded := LoadLive(cfg, t, d, outcome.tenantId, now);
    if loaded.Refused? then (t, loaded)
    else if BindingFault(loaded.record, world, outcome, now).Some? then
      (t, Refused(BindingFault(loaded.record, world, outcome, now).value))
    else
      var (t1, reserved) := Reserve(cfg.backend, t, d, outcome.nonce, now);
      if !reserved then (t1, Refused(AlreadyReserved))
      else if !cfg.authorityReady then (t1, Refused(AuthorityNotConfigured))
      else
        var (t2, saved) := SaveRecord(cfg.eventDigest, t1, WithReservation(cfg, d, loaded.record, now),
                                       ExecutionReserved, ids);
        (t2, if saved.Committed? then Granted(saved.value) else Refused(StoreFailure))
  }

  // ---- record the execution ----

  function ReservationFault(r: Record): Option<Refusal> {
    if r.startedAt == None then Some(NotReserved)
    else if r.authority == None then Some(AuthorityMissing)
    else if r.reconciliation.Some? then Some(AlreadyReconciled)
    else if r.execution == None then Some(ServerError)
    else if r.execution.value.status == ExecutionStatus.Reconciled then Some(AlreadyReconciled)
    else None
  }

  function Execution(cfg: Config, t: Tables, world: Option<string>, d: string, outcome: ExecutionOutcome,
                     ids: Fresh, now: int): (Tables, Answer)
  {
    var loaded := LoadLive(cfg, t, d, outcome.tenantId, now);
    if loaded.Refused? then (t, loaded)
    else if BindingFault(loaded.record, world, outcome, now).Some? then
      (t, Refused(BindingFault(loaded.record, world, outcome, now).value))
    else if ReservationFault(loaded.record).Some? then (t, Refused(ReservationFault(loaded.record).value))
    else
      var (t', finalized) := Finalize(cfg.eventDigest, t, d, outcome.nonce, now, outcome.outcome, ids);
      (t', match finalized
           case Committed(record) => Granted(record)
           case Declined => Refused(FinalizationConflict)
           case Raised => Refused(StoreFailure))
  }

  // ---- reconcile an execution of unknown outcome ----

  function ReconcileFault(r: Record, outcome: ReconciliationOutcome): Option<Refusal> {
    if r.decision != Allow then Some(NotPermitted)
    else if outcome.actionHash != r.actionHash then Some(ActionMismatch)
    else if outcome.nonce != r.nonce then Some(NonceMismatch)
    else if r.startedAt == None then Some(NotReserved)
    else if r.consumedAt.Some? then Some(AlreadyFinalized)
    else if r.reconciliation.Some? then Some(AlreadyReconciled)
    else if outcome.resolution !in RESOLUTIONS then Some(InvalidResolution)
    else None
  }

  function ExecutionReconcile(cfg: Config, t: Tables, d: string, outcome: ReconciliationOutcome, ids: Fresh, now: int)
    : (Tables, Answer)
  {
    var loaded := LoadLive(cfg, t, d, outcome.tenantId, now);
    if loaded.Refused? then (t, loaded)
    else if ReconcileFault(loaded.record, outcome).Some? then
      (t, Refused(ReconcileFault(loaded.record, outcome).value))
    else
      var (t', reconciled) := Reconcile(cfg.eventDigest, t, loaded.record, outcome.nonce, now, outcome.resolution,
                                        outcome.outcome, ids);
      (t', match reconciled
           case Committed(record) => Granted(record)
           case Declined => Refused(ReconciliationConflict)
           case Raised => Refused(StoreFailure))
  }

  // ---- replay ----

  datatype ReplayReport = ReplayReport(
    replayed: Decision, expected: Decision, matches: bool, policyHashMatch: bool, actionHashMatch: bool,
    evidenceVerdict: Verdict, contradictions: seq<Contradiction>)

  /** `replay` of a schema-3.1 record: the stored signal is used, not recomputed; `None` is
      the 422 answer to a stored signal whose parts do not belong together. */
  function Replay(cfg: Config, r: Record, now: int): Option<ReplayReport> {
    var policyHashMatch := cfg.policyHash(r.policySnapshot) == r.policyHash;
    var report := Gate(r.evidence, now);
    var req := r.request.(evidence := report.normalized);
    var actionHashMatch := cfg.actionHash(Normalize(req, r.signal)) == r.actionHash;
    var decision := Decide(req, EvaluateRisk(req, r.policySnapshot), r.signal, r.policySnapshot);
    if decision == None then None
    else
      var expected := if r.approval.Some? && r.decision in {Allow, Deny} then Ask else r.decision;
      Some(ReplayReport(decision.value, expected,
                        decision.value == expected && policyHashMatch && actionHashMatch && report.contradictions == [],
                        policyHashMatch, actionHashMatch, report.verdict, report.contradictions))
  }
}
