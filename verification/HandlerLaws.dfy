/** The answers of the handlers, from the request and the stored row alone: exactly which requests
    are granted, what is then stored and answered, and that every refusal has its reason. */
module HandlerLaws {
  import opened Prelude
  import opened EvidenceGate
  import opened Policy
  import opened Records
  import opened Storage
  import opened TransactionLaws
  import opened GateHandlers

  /** The order in which the handlers look for reasons to refuse. */
  function Rank(reason: Refusal): nat {
    match reason
    case SigningNotConfigured => 0
    case ActorRequired => 1
    case SessionRequired => 2
    case OracleNotInitialized => 3
    case WorldNotCurrent => 4
    case InvalidDecisionTtl => 5
    case NotFound => 6
    case SignatureInvalid => 7
    case AlreadyConsumed => 8
    case Expired => 9
    case NotAwaitingApproval => 10
    case ApprovalActionMismatch => 11
    case ApprovalPolicyMismatch => 12
    case ApprovalNotConfigured => 13
    case ApprovalSignatureInvalid => 14
    case InvalidApprovalTtl => 15
    case NotPermitted => 16
    case ActionMismatch => 17
    case ActorMismatch => 18
    case SessionMismatch => 19
    case NonceMismatch => 20
    case WorldMismatch => 21
    case WorldChanged => 22
    case EvidenceContradiction => 23
    case EvidenceBlocked => 24
    case ApprovalExpired => 25
    case AlreadyReserved => 26
    case AuthorityNotConfigured => 27
    case NotReserved => 28
    case AuthorityMissing => 29
    case AlreadyReconciled => 30
    case ServerError => 31
    case InvalidResolution => 32
    case ReconciliationConflict => 33
    case _ => 34
  }

  // ---- evaluate ----

  predicate Given(s: Option<string>) {
    s.Some? && s.value != ""
  }

  /** Deployment and caller allow a decision to be made. */
  predicate MayEvaluate(cfg: Config, world: Option<string>, req: ActionRequest) {
    && (cfg.production ==> cfg.signingReady && Given(req.actorId) && world.Some?)
    && (cfg.requireSession ==> Given(req.sessionId))
    && (world.Some? && req.worldVersion.Some? ==> req.worldVersion == world)
    && 0 < cfg.decisionTtl <= 86400
  }

  /** What speaks against an evaluation. */
  ghost predicate EvaluateReason(cfg: Config, t: Tables, world: Option<string>, req: ActionRequest, ids: Fresh,
                                 reason: Refusal)
  {
    match reason
    case SigningNotConfigured => cfg.production && !cfg.signingReady
    case ActorRequired => cfg.production && !Given(req.actorId)
    case SessionRequired => cfg.requireSession && !Given(req.sessionId)
    case OracleNotInitialized => cfg.production && world == None
    case WorldNotCurrent => world.Some? && req.worldVersion.Some? && req.worldVersion != world
    case InvalidDecisionTtl => cfg.decisionTtl <= 0 || cfg.decisionTtl > 86400
    case StoreFailure => Collides(t, ids)
    case _ => false
  }

  /** The request as it is kept: in the current world, with the evidence as it was judged. */
  ghost predicate Keeps(kept: ActionRequest, req: ActionRequest, world: Option<string>, now: int) {
    && kept == req.(evidence := kept.evidence, worldVersion := if world.Some? then world else req.worldVersion)
    && |kept.evidence| == |req.evidence|
    && forall i :: 0 <= i < |req.evidence| ==>
         kept.evidence[i] == req.evidence[i].(state := Some(GivenState(req.evidence[i], now)))
  }

  /** The decision of policy and evidence together. */
  ghost function Judgement(policy: PolicySnapshot, req: ActionRequest, now: int): Decision {
    if !Acceptable(req.evidence, now) then Ask
    else if Prohibited(req, policy) then Deny
    else if Lower(req.action) in policy.highRisk + policy.external then Ask
    else Allow
  }

  /** The new decision record, field by field. */
  ghost predicate IsNewDecision(cfg: Config, r: Record, req: ActionRequest, world: Option<string>, names: Names,
                                now: int) {
    && r.decisionId == names.decisionId && r.traceId == names.traceId && r.nonce == names.nonce
    && r.tenantId == req.tenantId && Keeps(r.request, req, world, now) && r.evidence == r.request.evidence
    && r.worldVersion == r.request.worldVersion
    && r.risk == EvaluateRisk(req, cfg.policy) && r.signal == ComputeSignal(req, r.risk, cfg.policy)
    && r.normalizedAction == NormalizedAction(req.tenantId, req.actorId, req.sessionId, Lower(req.action), req.target,
                                              req.parameters, r.signal)
    && r.actionHash == cfg.actionHash(r.normalizedAction)
    && r.policySnapshot == cfg.policy && r.policyHash == cfg.policyHash(cfg.policy)
    && r.decision == Judgement(cfg.policy, req, now)
    && r.evidenceVerdict == (if Acceptable(req.evidence, now) then Pass else Block)
    && r.contradictions == ScanAll(req.evidence).contradictions
    && r.expiresAt == now + cfg.decisionTtl * 1_000_000
    && r.signature == cfg.sign(SignedPart(r.decisionId, r.tenantId, r.actionHash, r.policyHash, r.nonce, r.expiresAt))
    && r.approval == None && r.execution == None && r.outcome == None && r.consumedAt == None && r.startedAt == None
    && r.authority == None && r.reconciliation == None
  }

  lemma {:induction false} JudgementIsDecided(cfg: Config, req: ActionRequest, now: int)
    ensures DecisionFor(req, Gate(req.evidence, now), cfg.policy) == Some(Judgement(cfg.policy, req, now))
    ensures Gate(req.evidence, now).verdict == if Acceptable(req.evidence, now) then Pass else Block
  {
    PassMeansAcceptable(req.evidence, now);
    PipelineTable(req, cfg.policy);
    hide Gate, Acceptable, InProduction, Pipeline;
  }

  lemma {:induction false} NewRecordIsNew(cfg: Config, req: ActionRequest, world: Option<string>, names: Names,
                                          now: int)
    ensures var r := NewRecord(cfg, req, world, names, Gate(req.evidence, now), Judgement(cfg.policy, req, now), now);
      IsNewDecision(cfg, r, req, world, names, now)
  {
    JudgementIsDecided(cfg, req, now);
    forall i | 0 <= i < |req.evidence|
      ensures Gate(req.evidence, now).normalized[i]
           == req.evidence[i].(state := Some(GivenState(req.evidence[i], now)))
    {
      RowsAreGivenStates(req.evidence, now, i);
    }
    assert |Gate(req.evidence, now).normalized| == |req.evidence|;
    assert Gate(req.evidence, now).contradictions == ScanAll(req.evidence).contradictions;
    var r := NewRecord(cfg, req, world, names, Gate(req.evidence, now), Judgement(cfg.policy, req, now), now);
    assert SignedPartOf(r) == SignedPartOf(r.(signature := ""));
    hide Gate, GivenState, Judgement, Acceptable, ComputeSignal, EvaluateRisk;
  }

  /** `evaluate`: the evaluations that are granted, and the decision that is stored and answered. */
  lemma {:induction false} EvaluateAnswers(cfg: Config, t: Tables, world: Option<string>, req: ActionRequest,
                                           names: Names, ids: Fresh, now: int)
    ensures var (t', answer) := Evaluate(cfg, t, world, req, names, ids, now);
      && (answer.Granted? <==> MayEvaluate(cfg, world, req) && !Collides(t, ids))
      && (answer.Refused? ==> t' == t)
      && (answer.Granted? ==>
           && IsNewDecision(cfg, answer.record, req, world, names, now)
           && WroteEvent(cfg.eventDigest, t, t', names.decisionId, answer.record, DecisionCreated, None, ids)
           && t'.reconciliations == t.reconciliations && t'.records[names.decisionId] == answer.record)
  {
    JudgementIsDecided(cfg, req, now);
    NewRecordIsNew(cfg, req, world, names, now);
    var r := NewRecord(cfg, req, world, names, Gate(req.evidence, now), Judgement(cfg.policy, req, now), now);
    SaveWrites(cfg.eventDigest, t, r, DecisionCreated, ids);
    hide Gate, NewRecord, SaveRecord, Judgement, DecisionFor, Collides, Keeps;
    var (t', saved) := SaveRecord(cfg.eventDigest, t, r, DecisionCreated, ids);
    if saved.Committed? {
      HashIsFree(cfg, r, saved.value, req, world, names, now);
      SameEvent(cfg.eventDigest, t, t', names.decisionId, r, saved.value, DecisionCreated, ids);
    }
    hide IsNewDecision, WroteEvent;
  }

  /** A refused evaluation gives the first reason there is. */
  lemma {:induction false} EvaluateRefuses(cfg: Config, t: Tables, world: Option<string>, req: ActionRequest,
                                           names: Names, ids: Fresh, now: int)
    requires Evaluate(cfg, t, world, req, names, ids, now).1.Refused?
    ensures var reason := Evaluate(cfg, t, world, req, names, ids, now).1.reason;
      && EvaluateReason(cfg, t, world, req, ids, reason)
      && forall x :: EvaluateReason(cfg, t, world, req, ids, x) ==> Rank(reason) <= Rank(x)
  {
    JudgementIsDecided(cfg, req, now);
    var r := NewRecord(cfg, req, world, names, Gate(req.evidence, now), Judgement(cfg.policy, req, now), now);
    SaveWrites(cfg.eventDigest, t, r, DecisionCreated, ids);
    hide Gate, NewRecord, SaveRecord, Judgement, DecisionFor, Collides, WroteEvent;
  }

  lemma {:induction false} HashIsFree(cfg: Config, r: Record, r': Record, req: ActionRequest, world: Option<string>,
                                      names: Names, now: int)
    requires IsNewDecision(cfg, r, req, world, names, now) && r' == r.(auditEventHash := r'.auditEventHash)
    ensures IsNewDecision(cfg, r', req, world, names, now)
  {
  }

  /** The event says the same of the record with its hash. */
  lemma {:induction false} SameEvent(digest: Digest, t: Tables, t': Tables, d: string, r: Record, r': Record,
                                     eventType: EventType, ids: Fresh)
    requires WroteEvent(digest, t, t', d, r, eventType, None, ids) && r' == r.(auditEventHash := r'.auditEventHash)
    ensures WroteEvent(digest, t, t', d, r', eventType, None, ids)
  {
    hide IsNextVersion;
  }

  // ---- what the later handlers check of the stored decision ----

  predicate Has(t: Tables, d: string, tenant: string) {
    d in t.records && t.records[d].tenantId == tenant
  }

  predicate SignatureHolds(cfg: Config, r: Record) {
    r.signature == cfg.sign(SignedPart(r.decisionId, r.tenantId, r.actionHash, r.policyHash, r.nonce, r.expiresAt))
  }

  /** The decision is there for the tenant, genuine, not used and not expired. */
  predicate Live(cfg: Config, t: Tables, d: string, tenant: string, now: int) {
    && Has(t, d, tenant) && SignatureHolds(cfg, t.records[d])
    && t.records[d].consumedAt == None && now < t.records[d].expiresAt
  }

  predicate LoadReason(cfg: Config, t: Tables, d: string, tenant: string, now: int, reason: Refusal) {
    match reason
    case NotFound => !Has(t, d, tenant)
    case SignatureInvalid => Has(t, d, tenant) && !SignatureHolds(cfg, t.records[d])
    case AlreadyConsumed => Has(t, d, tenant) && t.records[d].consumedAt.Some?
    case Expired => Has(t, d, tenant) && t.records[d].expiresAt <= now
    case _ => false
  }

  lemma {:induction false} LoadAnswers(cfg: Config, t: Tables, d: string, tenant: string, now: int)
    ensures var answer := LoadLive(cfg, t, d, tenant, now);
      && (answer.Granted? <==> Live(cfg, t, d, tenant, now))
      && (answer.Granted? ==> answer.record == t.records[d])
      && (answer.Refused? ==>
           && LoadReason(cfg, t, d, tenant, now, answer.reason)
           && forall x :: LoadReason(cfg, t, d, tenant, now, x) ==> Rank(answer.reason) <= Rank(x))
      && (answer.Granted? ==> forall x :: !LoadReason(cfg, t, d, tenant, now, x))
  {
  }

  /** The outcome names what was decided: action, actor, session, nonce and, if it names one, the world;
      and the decision may still be used in the current world. */
  predicate Usable(r: Record, world: Option<string>, outcome: ExecutionOutcome, now: int) {
    && r.decision == Allow && outcome.actionHash == r.actionHash && outcome.nonce == r.nonce
    && (r.request.actorId == None || outcome.actorId == r.request.actorId)
    && (r.request.sessionId == None || outcome.sessionId == r.request.sessionId)
    && (r.worldVersion == None ||
        (world == r.worldVersion && (outcome.worldVersion == None || outcome.worldVersion == r.worldVersion)))
    && r.contradictions == [] && r.evidenceVerdict == Pass
    && (r.approval.Some? && r.approval.value.approved ==> now < r.approval.value.expiresAt)
  }

  predicate UseReason(r: Record, world: Option<string>, outcome: ExecutionOutcome, now: int, reason: Refusal) {
    match reason
    case NotPermitted => r.decision != Allow
    case ActionMismatch => outcome.actionHash != r.actionHash
    case ActorMismatch => r.request.actorId.Some? && outcome.actorId != r.request.actorId
    case SessionMismatch => r.request.sessionId.Some? && outcome.sessionId != r.request.sessionId
    case NonceMismatch => outcome.nonce != r.nonce
    case WorldMismatch => r.worldVersion.Some? && outcome.worldVersion.Some? && outcome.worldVersion != r.worldVersion
    case WorldChanged => r.worldVersion.Some? && world != r.worldVersion
    case EvidenceContradiction => r.contradictions != []
    case EvidenceBlocked => r.evidenceVerdict == Block
    case ApprovalExpired => r.approval.Some? && r.approval.value.approved && r.approval.value.expiresAt <= now
    case _ => false
  }

  lemma {:induction false} BindingsHold(r: Record, world: Option<string>, outcome: ExecutionOutcome, now: int)
    ensures var fault := BindingFault(r, world, outcome, now);
      && (fault == None <==> Usable(r, world, outcome, now))
      && (fault.Some? ==>
           && UseReason(r, world, outcome, now, fault.value)
           && forall x :: UseReason(r, world, outcome, now, x) ==> Rank(fault.value) <= Rank(x))
      && (fault == None ==> forall x :: !UseReason(r, world, outcome, now, x))
  {
  }

  // ---- approve ----

  /** The approval is for this decision, rightly signed where that is asked, and for at most a day. */
  predicate MayApprove(cfg: Config, r: Record, approval: Approval, ttl: int) {
    && r.decision == Ask && approval.actionHash == r.actionHash && approval.policyVersion == r.policySnapshot.version
    && (cfg.production ==> cfg.approvalReady && approval.signature == cfg.approvalTag(approval.(signature := "")))
    && 0 < ttl <= 86400
  }

  predicate ApproveReason(cfg: Config, r: Record, approval: Approval, ttl: int, reason: Refusal) {
    match reason
    case NotAwaitingApproval => r.decision != Ask
    case ApprovalActionMismatch => approval.actionHash != r.actionHash
    case ApprovalPolicyMismatch => approval.policyVersion != r.policySnapshot.version
    case ApprovalNotConfigured => cfg.production && !cfg.approvalReady
    case ApprovalSignatureInvalid =>
      cfg.production && approval.signature != cfg.approvalTag(approval.(signature := ""))
    case InvalidApprovalTtl => ttl <= 0 || ttl > 86400
    case _ => false
  }

  /** Everything that speaks against an approval. */
  ghost predicate ApprovalRefusable(cfg: Config, t: Tables, d: string, approval: Approval, ids: Fresh, now: int,
                                    reason: Refusal)
  {
    || LoadReason(cfg, t, d, approval.tenantId, now, reason)
    || (d in t.records && ApproveReason(cfg, t.records[d], approval, ApprovalTtl(cfg, approval), reason))
    || (reason == StoreFailure && Collides(t, ids))
  }

  /** How long the approval is good for: as long as it says, or as long as approvals are. */
  function ApprovalTtl(cfg: Config, approval: Approval): int {
    match approval.ttlSeconds
    case Some(ttl) => ttl
    case None => cfg.approvalTtl
  }

  /** `approve`: the approvals that are granted, and the decision as approved or denied. */
  lemma {:induction false} ApproveAnswers(cfg: Config, t: Tables, d: string, approval: Approval, ids: Fresh, now: int)
    requires d in t.records ==> t.records[d].decisionId == d
    ensures var (t', answer) := Approve(cfg, t, d, approval, ids, now);
      var ttl := ApprovalTtl(cfg, approval);
      && (answer.Granted? <==>
           && Live(cfg, t, d, approval.tenantId, now) && MayApprove(cfg, t.records[d], approval, ttl)
           && !Collides(t, ids))
      && (answer.Refused? ==> t' == t)
      && (answer.Granted? ==>
           && answer.record == t.records[d].(
                approval := Some(ApprovalRecord(approval.approverId, approval.approved, now + ttl * 1_000_000)),
                decision := if approval.approved then Allow else Deny,
                auditEventHash := answer.record.auditEventHash)
           && WroteEvent(cfg.eventDigest, t, t', d, answer.record, EventType.ApprovalRecorded, None, ids)
           && t'.reconciliations == t.reconciliations && t'.records[d] == answer.record)
  {
    LoadAnswers(cfg, t, d, approval.tenantId, now);
    hide LoadLive, SaveRecord, Collides, IsNextVersion, LoadReason, Rank, SignatureHolds;
    if Live(cfg, t, d, approval.tenantId, now) {
      var next := Approved(cfg, t.records[d], approval, now);
      SaveWrites(cfg.eventDigest, t, next, EventType.ApprovalRecorded, ids);
      var (t', saved) := SaveRecord(cfg.eventDigest, t, next, EventType.ApprovalRecorded, ids);
      if saved.Committed? {
        SameEvent(cfg.eventDigest, t, t', d, next, saved.value, EventType.ApprovalRecorded, ids);
      }
    }
  }

  /** A refused approval gives the first reason there is. */
  lemma {:induction false} ApproveRefuses(cfg: Config, t: Tables, d: string, approval: Approval, ids: Fresh, now: int)
    requires Approve(cfg, t, d, approval, ids, now).1.Refused?
    ensures var reason := Approve(cfg, t, d, approval, ids, now).1.reason;
      && ApprovalRefusable(cfg, t, d, approval, ids, now, reason)
      && forall x :: ApprovalRefusable(cfg, t, d, approval, ids, now, x) ==> Rank(reason) <= Rank(x)
  {
    LoadAnswers(cfg, t, d, approval.tenantId, now);
    hide LoadLive, SaveRecord, Collides, SignatureHolds;
    if Live(cfg, t, d, approval.tenantId, now) {
      var next := Approved(cfg, t.records[d], approval, now);
      SaveWrites(cfg.eventDigest, t, next, EventType.ApprovalRecorded, ids);
    }
    hide Approved, WroteEvent;
  }

  // ---- reserve ----

  /** The authority that is handed out for decision `d`: for its tenant, action, policy and nonce, from
      this second until the decision expires, but for one second at least. */
  ghost predicate IsAuthorityFor(cfg: Config, d: string, r: Record, a: Authority, now: int) {
    && a.decisionId == d && a.tenantId == r.tenantId && a.nonce == r.nonce && a.decision == r.decision
    && a.actionDigest == cfg.actionHash(r.normalizedAction) && a.policyDigest == cfg.policyHash(r.policySnapshot)
    && a.issuedAt == now / 1_000_000
    && a.expiresAt == a.issuedAt + (if r.expiresAt - now < 2_000_000 then 1 else (r.expiresAt - now) / 1_000_000)
    && a.signature == cfg.tag(a.(signature := ""))
  }

  /** The tables with the reservation alone, as the backend stores it. */
  function WithStamp(backend: Backend, t: Tables, d: string, now: int): Tables
    requires d in t.records
  {
    if backend == Sqlite then t.(records := t.records[d := t.records[d].(startedAt := Some(now))]) else t
  }

  /** Everything that speaks against a reservation. */
  ghost predicate ReservationRefusable(cfg: Config, t: Tables, world: Option<string>, d: string,
                                       outcome: ExecutionOutcome, ids: Fresh, now: int, reason: Refusal)
  {
    || LoadReason(cfg, t, d, outcome.tenantId, now, reason)
    || (d in t.records && UseReason(t.records[d], world, outcome, now, reason))
    || (reason == AlreadyReserved && d in t.records && t.records[d].startedAt.Some?)
    || (reason == AuthorityNotConfigured && !cfg.authorityReady)
    || (reason == StoreFailure && Collides(t, ids))
  }

  /** `execution_reserve`: the reservations that are granted, and the authority that is handed out and
      stored. A refusal leaves the tables alone, but for the stamp of a reservation that went
      through before the authority or the save failed. */
  lemma {:induction false} ReserveAnswers(cfg: Config, t: Tables, world: Option<string>, d: string,
                                          outcome: ExecutionOutcome, ids: Fresh, now: int)
    requires d in t.records ==> t.records[d].decisionId == d
    ensures var (t', answer) := ExecutionReserve(cfg, t, world, d, outcome, ids, now);
      var open := Live(cfg, t, d, outcome.tenantId, now) && Usable(t.records[d], world, outcome, now)
        && t.records[d].startedAt == None;
      && (answer.Granted? <==> open && cfg.authorityReady && !Collides(t, ids))
      && (answer.Refused? ==>
           t' == if open then WithStamp(cfg.backend, t, d, now) else t)
      && (answer.Granted? ==>
           && answer.record.authority.Some?
           && IsAuthorityFor(cfg, d, t.records[d], answer.record.authority.value, now)
           && answer.record == t.records[d].(
                startedAt := Some(now), authority := answer.record.authority,
                execution := Some(ExecutionRecord(now, Reserved, t.records[d].actionHash, t.records[d].nonce)),
                auditEventHash := answer.record.auditEventHash)
           && WroteEvent(cfg.eventDigest, WithStamp(cfg.backend, t, d, now), t', d, answer.record, ExecutionReserved,
                         None, ids)
           && t'.reconciliations == t.reconciliations && t'.records[d] == answer.record)
  {
    LoadAnswers(cfg, t, d, outcome.tenantId, now);
    StampsWrite(cfg.backend, t, d, outcome.nonce, now);
    hide LoadLive, SaveRecord, Collides, Reserve, BindingFault, LoadReason, UseReason, Rank, SignatureHolds,
      WroteEvent, IsAuthorityFor, WithReservation;
    if Live(cfg, t, d, outcome.tenantId, now) {
      BindingsHold(t.records[d], world, outcome, now);
      if Usable(t.records[d], world, outcome, now) && t.records[d].startedAt == None {
        ReservationSaved(cfg, t, d, ids, now);
        assert Reserve(cfg.backend, t, d, outcome.nonce, now) == (WithStamp(cfg.backend, t, d, now), true);
      }
    }
  }

  /** Where a refused reservation got stuck. */
  lemma {:induction false} ReservationStuck(cfg: Config, t: Tables, world: Option<string>, d: string,
                                            outcome: ExecutionOutcome, ids: Fresh, now: int)
    requires d in t.records ==> t.records[d].decisionId == d
    requires ExecutionReserve(cfg, t, world, d, outcome, ids, now).1.Refused?
    ensures var reason := ExecutionReserve(cfg, t, world, d, outcome, ids, now).1.reason;
      if !Live(cfg, t, d, outcome.tenantId, now) then
        LoadLive(cfg, t, d, outcome.tenantId, now) == Refused(reason)
      else if !Usable(t.records[d], world, outcome, now) then
        BindingFault(t.records[d], world, outcome, now) == Some(reason)
      else if t.records[d].startedAt.Some? then reason == AlreadyReserved
      else if !cfg.authorityReady then reason == AuthorityNotConfigured
      else reason == StoreFailure && Collides(t, ids)
  {
    LoadAnswers(cfg, t, d, outcome.tenantId, now);
    StampsWrite(cfg.backend, t, d, outcome.nonce, now);
    hide LoadLive, SaveRecord, Collides, Reserve, BindingFault, SignatureHolds, WithReservation, LoadReason, UseReason,
      Rank;
    if Live(cfg, t, d, outcome.tenantId, now) {
      BindingsHold(t.records[d], world, outcome, now);
      if Usable(t.records[d], world, outcome, now) && t.records[d].startedAt == None {
        ReservationSavedIff(cfg, t, d, ids, now);
        assert Reserve(cfg.backend, t, d, outcome.nonce, now) == (WithStamp(cfg.backend, t, d, now), true);
      }
    }
  }

  /** A refused reservation gives the first reason there is. */
  lemma {:induction false} ReserveRefuses(cfg: Config, t: Tables, world: Option<string>, d: string,
                                          outcome: ExecutionOutcome, ids: Fresh, now: int)
    requires d in t.records ==> t.records[d].decisionId == d
    requires ExecutionReserve(cfg, t, world, d, outcome, ids, now).1.Refused?
    ensures var reason := ExecutionReserve(cfg, t, world, d, outcome, ids, now).1.reason;
      && ReservationRefusable(cfg, t, world, d, outcome, ids, now, reason)
      && forall x :: ReservationRefusable(cfg, t, world, d, outcome, ids, now, x) ==> Rank(reason) <= Rank(x)
  {
    LoadAnswers(cfg, t, d, outcome.tenantId, now);
    ReservationStuck(cfg, t, world, d, outcome, ids, now);
    LoadRanks(cfg, t, d, outcome.tenantId, now);
    hide LoadLive, ExecutionReserve, Collides, BindingFault, SignatureHolds, Usable;
    assert Rank(AlreadyReserved) == 26 && Rank(AuthorityNotConfigured) == 27 && Rank(StoreFailure) == 34;
    if d in t.records {
      BindingsHold(t.records[d], world, outcome, now);
      UseRanks(t.records[d], world, outcome, now);
    }
    hide LoadReason, UseReason, Rank;
  }

  lemma {:induction false} LoadRanks(cfg: Config, t: Tables, d: string, tenant: string, now: int)
    ensures forall x :: LoadReason(cfg, t, d, tenant, now, x) ==> 6 <= Rank(x) <= 9
  {
    hide Has, SignatureHolds;
  }

  lemma {:induction false} UseRanks(r: Record, world: Option<string>, outcome: ExecutionOutcome, now: int)
    ensures forall x :: UseReason(r, world, outcome, now, x) ==> 16 <= Rank(x) <= 25
  {
  }

  lemma {:induction false} ReservationSavedIff(cfg: Config, t: Tables, d: string, ids: Fresh, now: int)
    requires d in t.records && t.records[d].decisionId == d
    ensures var t1 := WithStamp(cfg.backend, t, d, now);
      var next := WithReservation(cfg, d, t.records[d], now);
      SaveRecord(cfg.eventDigest, t1, next, ExecutionReserved, ids).1.Committed? <==> !Collides(t, ids)
  {
    ReservationSaved(cfg, t, d, ids, now);
  }

  lemma {:induction false} ReservationSaved(cfg: Config, t: Tables, d: string, ids: Fresh, now: int)
    requires d in t.records && t.records[d].decisionId == d
    ensures var t1, r := WithStamp(cfg.backend, t, d, now), t.records[d];
      var (t', saved) := SaveRecord(cfg.eventDigest, t1, WithReservation(cfg, d, r, now), ExecutionReserved, ids);
      && (saved.Committed? <==> !Collides(t, ids))
      && (!saved.Committed? ==> t' == t1)
      && (saved.Committed? ==>
           && saved.value.authority.Some? && IsAuthorityFor(cfg, d, r, saved.value.authority.value, now)
           && saved.value == r.(
                startedAt := Some(now), authority := saved.value.authority,
                execution := Some(ExecutionRecord(now, Reserved, r.actionHash, r.nonce)),
                auditEventHash := saved.value.auditEventHash)
           && WroteEvent(cfg.eventDigest, t1, t', d, saved.value, ExecutionReserved, None, ids)
           && t'.reconciliations == t.reconciliations && t'.records[d] == saved.value)
  {
    hide SaveRecord, IsNextVersion;
    var t1, next := WithStamp(cfg.backend, t, d, now), WithReservation(cfg, d, t.records[d], now);
    assert Collides(t1, ids) == Collides(t, ids);
    hide Collides;
    AuthorityIsIssued(cfg, d, t.records[d], now);
    hide IssueAuthority;
    SaveWrites(cfg.eventDigest, t1, next, ExecutionReserved, ids);
    var (t', saved) := SaveRecord(cfg.eventDigest, t1, next, ExecutionReserved, ids);
    if saved.Committed? {
      SameEvent(cfg.eventDigest, t1, t', d, next, saved.value, ExecutionReserved, ids);
    }
  }

  lemma {:induction false} AuthorityIsIssued(cfg: Config, d: string, r: Record, now: int)
    ensures IsAuthorityFor(cfg, d, r, IssueAuthority(cfg, d, r, now), now)
  {
    var a := IssueAuthority(cfg, d, r, now);
    assert a.(signature := "") == a.(signature := "").(signature := "");
  }

  // ---- record the execution ----

  predicate ExecutionReason(r: Record, reason: Refusal) {
    match reason
    case NotReserved => r.startedAt == None
    case AuthorityMissing => r.authority == None
    case AlreadyReconciled =>
      r.reconciliation.Some? || (r.execution.Some? && r.execution.value.status == ExecutionStatus.Reconciled)
    case ServerError => r.execution == None
    case _ => false
  }

  /** Everything that speaks against recording an execution. */
  ghost predicate ExecutionRefusable(cfg: Config, t: Tables, world: Option<string>, d: string,
                                     outcome: ExecutionOutcome, ids: Fresh, now: int, reason: Refusal)
  {
    || LoadReason(cfg, t, d, outcome.tenantId, now, reason)
    || (d in t.records && UseReason(t.records[d], world, outcome, now, reason))
    || (d in t.records && ExecutionReason(t.records[d], reason))
    || (reason == StoreFailure && Collides(t, ids))
  }

  /** `execution`: the executions that are recorded. The record then says EXECUTED at this time, with the
      action hash and nonce of the decision and the reported outcome; nothing else of it changes. */
  lemma {:induction false} ExecutionAnswers(cfg: Config, t: Tables, world: Option<string>, d: string,
                                            outcome: ExecutionOutcome, ids: Fresh, now: int)
    ensures var (t', answer) := Execution(cfg, t, world, d, outcome, ids, now);
      && (answer.Granted? <==>
           && Live(cfg, t, d, outcome.tenantId, now) && Usable(t.records[d], world, outcome, now)
           && t.records[d].startedAt.Some? && t.records[d].authority.Some? && Unsettled(t.records[d])
           && !Collides(t, ids))
      && (answer.Refused? ==> t' == t)
      && (answer.Granted? ==>
           && answer.record == t.records[d].(
                execution := Some(ExecutionRecord(now, Executed, t.records[d].actionHash, t.records[d].nonce)),
                outcome := Some(outcome.outcome), consumedAt := Some(now),
                auditEventHash := answer.record.auditEventHash)
           && WroteEvent(cfg.eventDigest, t, t', d, answer.record, ExecutionRecorded, None, ids)
           && t'.reconciliations == t.reconciliations && t'.records[d] == answer.record)
  {
    LoadAnswers(cfg, t, d, outcome.tenantId, now);
    hide LoadLive, Finalize, Collides, WroteEvent, BindingFault, SignatureHolds, LoadReason, UseReason, Rank;
    if Live(cfg, t, d, outcome.tenantId, now) {
      BindingsHold(t.records[d], world, outcome, now);
      if Usable(t.records[d], world, outcome, now) && t.records[d].startedAt.Some? {
        ExecutionSaved(cfg.eventDigest, t, d, outcome.outcome, ids, now);
      }
    }
  }

  /** A refused recording of an execution gives the first reason there is. */
  lemma {:induction false} ExecutionRefuses(cfg: Config, t: Tables, world: Option<string>, d: string,
                                            outcome: ExecutionOutcome, ids: Fresh, now: int)
    requires Execution(cfg, t, world, d, outcome, ids, now).1.Refused?
    ensures var reason := Execution(cfg, t, world, d, outcome, ids, now).1.reason;
      && ExecutionRefusable(cfg, t, world, d, outcome, ids, now, reason)
      && forall x :: ExecutionRefusable(cfg, t, world, d, outcome, ids, now, x) ==> Rank(reason) <= Rank(x)
  {
    LoadAnswers(cfg, t, d, outcome.tenantId, now);
    hide LoadLive, Finalize, Collides, WroteEvent, BindingFault, SignatureHolds;
    if Live(cfg, t, d, outcome.tenantId, now) {
      BindingsHold(t.records[d], world, outcome, now);
      if Usable(t.records[d], world, outcome, now) && t.records[d].startedAt.Some? {
        ExecutionSaved(cfg.eventDigest, t, d, outcome.outcome, ids, now);
      }
    }
  }

  lemma {:induction false} ExecutionSaved(digest: Digest, t: Tables, d: string, outcome: Json, ids: Fresh, now: int)
    requires d in t.records && t.records[d].startedAt.Some? && t.records[d].consumedAt == None
    ensures var r := t.records[d];
      var (t', done) := Finalize(digest, t, d, r.nonce, now, outcome, ids);
      && (done.Committed? <==> !Collides(t, ids))
      && (!done.Committed? ==> done == Raised && t' == t)
      && (done.Committed? ==>
           && done.value == r.(execution := Some(ExecutionRecord(now, Executed, r.actionHash, r.nonce)),
                               outcome := Some(outcome), consumedAt := Some(now),
                               auditEventHash := done.value.auditEventHash)
           && WroteEvent(digest, t, t', d, done.value, ExecutionRecorded, None, ids)
           && t'.reconciliations == t.reconciliations && t'.records[d] == done.value)
  {
    var r := t.records[d];
    FinalizeWrites(digest, t, d, r.nonce, now, outcome, ids);
    hide Finalize, Collides, IsNextVersion;
    var (t', done) := Finalize(digest, t, d, r.nonce, now, outcome, ids);
    if done.Committed? {
      var next := r.(execution := Some(ExecutionRecord(now, Executed, r.actionHash, r.nonce)),
                     outcome := Some(outcome), consumedAt := Some(now));
      SameEvent(digest, t, t', d, next, done.value, ExecutionRecorded, ids);
    }
  }

  // ---- reconcile ----

  /** The reconciliation names what was decided and reserved, and says one of two things about it. */
  predicate MayReconcile(r: Record, resolved: ReconciliationOutcome) {
    && r.decision == Allow && resolved.actionHash == r.actionHash && resolved.nonce == r.nonce
    && r.startedAt.Some? && Unsettled(r)
    && (resolved.resolution == "CONFIRMED_FILLED" || resolved.resolution == "CONFIRMED_NOT_EXECUTED")
  }

  predicate ReconcileReason(r: Record, resolved: ReconciliationOutcome, reason: Refusal) {
    match reason
    case NotPermitted => r.decision != Allow
    case ActionMismatch => resolved.actionHash != r.actionHash
    case NonceMismatch => resolved.nonce != r.nonce
    case NotReserved => r.startedAt == None
    case AlreadyReconciled => r.reconciliation.Some?
    case InvalidResolution =>
      resolved.resolution != "CONFIRMED_FILLED" && resolved.resolution != "CONFIRMED_NOT_EXECUTED"
    case ReconciliationConflict => r.execution.Some? && r.execution.value.status == ExecutionStatus.Reconciled
    case StoreFailure => r.execution == None
    case _ => false
  }

  /** Everything that speaks against a reconciliation. */
  ghost predicate ReconciliationRefusable(cfg: Config, t: Tables, d: string, resolved: ReconciliationOutcome,
                                          ids: Fresh, now: int, reason: Refusal)
  {
    || LoadReason(cfg, t, d, resolved.tenantId, now, reason)
    || (d in t.records && ReconcileReason(t.records[d], resolved, reason))
    || (reason == StoreFailure && (ReconciledBefore(t, d, ids) || Collides(t, ids)))
  }

  /** `execution_reconcile`: the reconciliations that are recorded, in the record and in their own table. */
  lemma {:induction false} ReconcileAnswers(cfg: Config, t: Tables, d: string, resolved: ReconciliationOutcome,
                                            ids: Fresh, now: int)
    requires d in t.records ==> t.records[d].decisionId == d
    ensures var (t', answer) := ExecutionReconcile(cfg, t, d, resolved, ids, now);
      && (answer.Granted? <==>
           && Live(cfg, t, d, resolved.tenantId, now) && MayReconcile(t.records[d], resolved)
           && !ReconciledBefore(t, d, ids) && !Collides(t, ids))
      && (answer.Refused? ==> t' == t)
      && (answer.Granted? ==>
           && answer.record == t.records[d].(
                execution := Some(ExecutionRecord(now, ExecutionStatus.Reconciled, t.records[d].actionHash,
                                                  t.records[d].nonce)),
                reconciliation := Some(Reconciliation(resolved.resolution, now)),
                outcome := Some(resolved.outcome), consumedAt := Some(now),
                auditEventHash := answer.record.auditEventHash)
           && WroteEvent(cfg.eventDigest, t, t', d, answer.record, ExecutionReconciled, Some(resolved.resolution), ids)
           && t'.reconciliations == t.reconciliations[d :=
                ReconciliationRow(ids.reconciliationId, t.records[d].tenantId, t.records[d].nonce, resolved.resolution,
                                  resolved.outcome, now)]
           && t'.records[d] == answer.record)
  {
    LoadAnswers(cfg, t, d, resolved.tenantId, now);
    hide LoadLive, Reconcile, Collides, ReconciledBefore, IsNextVersion, SignatureHolds, LoadReason, Rank;
    if Live(cfg, t, d, resolved.tenantId, now) {
      var r := t.records[d];
      ReconcileWrites(cfg.eventDigest, t, r, resolved.nonce, now, resolved.resolution, resolved.outcome, ids);
      var (t', done) :=
        Reconcile(cfg.eventDigest, t, r, resolved.nonce, now, resolved.resolution, resolved.outcome, ids);
      if done.Committed? {
        var next := r.(
          execution := Some(ExecutionRecord(now, ExecutionStatus.Reconciled, r.actionHash, resolved.nonce)),
          reconciliation := Some(Reconciliation(resolved.resolution, now)),
          outcome := Some(resolved.outcome), consumedAt := Some(now));
        SameResolvedEvent(cfg.eventDigest, t, t', d, next, done.value, Some(resolved.resolution), ids);
      }
    }
  }

  /** A refused reconciliation gives the first reason there is. */
  lemma {:induction false} ReconcileRefuses(cfg: Config, t: Tables, d: string, resolved: ReconciliationOutcome,
                                            ids: Fresh, now: int)
    requires d in t.records ==> t.records[d].decisionId == d
    requires ExecutionReconcile(cfg, t, d, resolved, ids, now).1.Refused?
    ensures var reason := ExecutionReconcile(cfg, t, d, resolved, ids, now).1.reason;
      && ReconciliationRefusable(cfg, t, d, resolved, ids, now, reason)
      && forall x :: ReconciliationRefusable(cfg, t, d, resolved, ids, now, x) ==> Rank(reason) <= Rank(x)
  {
    LoadAnswers(cfg, t, d, resolved.tenantId, now);
    hide LoadLive, Reconcile, Collides, ReconciledBefore, WroteEvent, SignatureHolds;
    if Live(cfg, t, d, resolved.tenantId, now) {
      var r := t.records[d];
      ReconcileWrites(cfg.eventDigest, t, r, resolved.nonce, now, resolved.resolution, resolved.outcome, ids);
      var (t', done) :=
        Reconcile(cfg.eventDigest, t, r, resolved.nonce, now, resolved.resolution, resolved.outcome, ids);
      assert ReconcileFault(r, resolved) == None && done.Raised? ==>
        r.execution == None || ReconciledBefore(t, d, ids) || Collides(t, ids);
    }
  }

  lemma {:induction false} SameResolvedEvent(digest: Digest, t: Tables, t': Tables, d: string, r: Record, r': Record,
                                             resolution: Option<string>, ids: Fresh)
    requires WroteEvent(digest, t, t', d, r, ExecutionReconciled, resolution, ids)
    requires r' == r.(auditEventHash := r'.auditEventHash)
    ensures WroteEvent(digest, t, t', d, r', ExecutionReconciled, resolution, ids)
  {
    hide IsNextVersion;
  }

  // ---- replay ----

  /** What the stored signal asks its consumer to do, if its parts belong together. */
  predicate BelongsTogether(signal: Signal) {
    || (signal.mode == Proceed && signal.consumerAction == RequestAuthorization)
    || (signal.mode == Inhibit && signal.consumerAction == BlockReaction)
    || (signal.mode == Hold && signal.consumerAction == RequireReevaluation)
    || (signal.mode == Unknown && signal.consumerAction == RequireEvidence)
  }

  /** The decision that a stored signal leads to. */
  function Redecided(r: Record): Decision {
    var a, policy := Lower(r.request.action), r.policySnapshot;
    match r.signal.mode
    case Inhibit => Deny
    case Hold => Ask
    case Unknown => Ask
    case Proceed =>
      if a in policy.critical then Sandbox
      else if a in policy.highRisk && InProduction(r.request.target) then Deny
      else if a in policy.highRisk + policy.external then Ask
      else Allow
  }

  /** `replay` of any stored record, tampered with or not: what it recomputes, what it compares that
      with, and when it reports a match. */
  lemma {:induction false} ReplayAnswers(cfg: Config, r: Record, now: int)
    ensures var replay := Replay(cfg, r, now);
      && (replay.Some? <==> BelongsTogether(r.signal))
      && (replay.Some? ==>
           && replay.value.replayed == Redecided(r)
           && replay.value.expected ==
                (if r.approval.Some? && (r.decision == Allow || r.decision == Deny) then Ask else r.decision)
           && (replay.value.policyHashMatch <==> r.policyHash == cfg.policyHash(r.policySnapshot))
           && (replay.value.actionHashMatch <==>
                r.actionHash == cfg.actionHash(
                  NormalizedAction(r.request.tenantId, r.request.actorId, r.request.sessionId, Lower(r.request.action),
                                   r.request.target, r.request.parameters, r.signal)))
           && (replay.value.evidenceVerdict == Pass <==> Acceptable(r.evidence, now))
           && replay.value.contradictions == ScanAll(r.evidence).contradictions
           && (replay.value.matches <==>
                && replay.value.replayed == replay.value.expected
                && replay.value.policyHashMatch && replay.value.actionHashMatch && replay.value.contradictions == []))
  {
    PassMeansAcceptable(r.evidence, now);
    var req := r.request.(evidence := Gate(r.evidence, now).normalized);
    RiskTable(req, r.policySnapshot);
    hide Acceptable, InProduction, EvaluateRisk, Lower, ScanAll, NormalizedAll;
  }
}
