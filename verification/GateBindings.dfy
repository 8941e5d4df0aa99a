/** What a use of a decision is bound to: the evaluated request, a human approval where policy
    asks for one, and the lifetime of the decision. */
module GateBindings {
  import opened Prelude
  import opened EvidenceGate
  import opened Policy
  import opened Records
  import opened Storage
  import opened StateOracle
  import opened GateHandlers
  import opened HandlerLaws
  import opened ToolServer
  import opened GateInvariant
  import opened GateRuns
  import opened GateTheorems

  // ---- binding to the evaluated request ----

  /** The hash of the action as it was requested. */
  function RequestedHash(cfg: Config, req: ActionRequest): string {
    cfg.actionHash(Normalize(req, ComputeSignal(req, EvaluateRisk(req, cfg.policy), cfg.policy)))
  }

  /** An outcome names tenant, nonce, action, actor and session of the evaluation, and no world other
      than the one that was current then, or that the request named when there was none. */
  ghost predicate BoundTo(cfg: Config, outcome: ExecutionOutcome, req: ActionRequest, world: Option<string>,
                          names: Names)
  {
    var evaluated := if world.Some? then world else req.worldVersion;
    && outcome.tenantId == req.tenantId
    && outcome.nonce == names.nonce
    && outcome.actionHash == RequestedHash(cfg, req)
    && (req.actorId.Some? ==> outcome.actorId == req.actorId)
    && (req.sessionId.Some? ==> outcome.sessionId == req.sessionId)
    && (evaluated.Some? && outcome.worldVersion.Some? ==> outcome.worldVersion == evaluated)
  }

  /** What a granted reservation or execution checked on the stored record. */
  ghost predicate Checked(r: Record, world: Option<string>, outcome: ExecutionOutcome, now: int) {
    && r.tenantId == outcome.tenantId && now < r.expiresAt
    && Usable(r, world, outcome, now)
  }

  lemma {:induction false} UseChecked(cfg: ToolConfig, run: seq<Action>, j: nat, d: string)
    requires IsRun(cfg, run)
    requires Reserves(cfg, run, j, d) || (Finishes(cfg, run, j, d) && run[j].Executing?)
    ensures d in At(cfg, run, j).tables.records
    ensures var s := At(cfg, run, j);
      Checked(s.tables.records[d], CurrentVersion(s.snapshots), run[j].outcome, run[j].now)
  {
    hide State, Inv, IsRun, BindingFault, SaveRecord, Finalize, Reserve, Usable;
    var s := At(cfg, run, j);
    if d in s.tables.records {
      BindingsHold(s.tables.records[d], CurrentVersion(s.snapshots), run[j].outcome, run[j].now);
    }
  }

  lemma {:induction false} HashIsStamped(cfg: Config, r: Record, req: ActionRequest, world: Option<string>, now: int)
    requires RecordOk(cfg, r)
    requires r.request == StampWorld(req, world).(evidence := Gate(req.evidence, now).normalized)
    ensures r.actionHash == RequestedHash(cfg, req)
  {
    hide Gate;
    GateReport(req.evidence, now);
    var kept := r.request;
    assert EvaluateRisk(kept, cfg.policy) == EvaluateRisk(req, cfg.policy);
    assert kept.evidence == [] <==> req.evidence == [];
    assert Normalize(kept, r.signal) == Normalize(req, r.signal);
  }

  /** Nonce and expiry that the evaluation drew. */
  lemma {:induction false} EvaluationDraws(cfg: ToolConfig, run: seq<Action>, e: nat, d: string)
    requires IsRun(cfg, run) && Evaluates(cfg, run, e, d)
    ensures d in At(cfg, run, e + 1).tables.records
    ensures At(cfg, run, e + 1).tables.records[d].nonce == run[e].names.nonce
    ensures At(cfg, run, e + 1).tables.records[d].expiresAt == run[e].now + cfg.gate.decisionTtl * SECOND
  {
    hide State, Inv, Follows, Gate, Pipeline, EvaluateRisk, ComputeSignal, Enabled;
    RunAt(cfg, run, e);
  }

  lemma {:induction false} DrawnPersists(cfg: ToolConfig, run: seq<Action>, e: nat, j: nat, d: string)
    requires IsRun(cfg, run) && Evaluates(cfg, run, e, d) && e < j <= |run|
    ensures d in At(cfg, run, j).tables.records
    ensures At(cfg, run, j).tables.records[d].nonce == run[e].names.nonce
    ensures At(cfg, run, j).tables.records[d].expiresAt == run[e].now + cfg.gate.decisionTtl * SECOND
    ensures At(cfg, run, j).tables.records[d].actionHash == RequestedHash(cfg.gate, run[e].req)
  {
    EvaluatesInRange(cfg, run, e, d);
    hide State, Step, IsRun, Inv, Gate, StampWorld, RecordOk, Evaluates, RequestedHash;
    EvaluationDraws(cfg, run, e, d);
    EvaluationPersists(cfg, run, e, j, d);
    RunMovesOn(cfg, run, e + 1, j);
    var r0, r := At(cfg, run, e + 1).tables.records[d], At(cfg, run, j).tables.records[d];
    assert r.nonce == Core(r).nonce == Core(r0).nonce == r0.nonce;
    assert r.expiresAt == Core(r).expiresAt == Core(r0).expiresAt == r0.expiresAt;
    HashIsStamped(cfg.gate, r, run[e].req, CurrentVersion(At(cfg, run, e).snapshots), run[e].now);
  }

  lemma {:induction false} CheckedMeansBound(cfg: Config, r: Record, world: Option<string>,
                                             outcome: ExecutionOutcome, now: int,
                                             req: ActionRequest, first: Option<string>, names: Names)
    requires Checked(r, world, outcome, now)
    requires r.worldVersion == if first.Some? then first else req.worldVersion
    requires r.request.tenantId == req.tenantId == r.tenantId
    requires r.request.actorId == req.actorId && r.request.sessionId == req.sessionId
    requires r.nonce == names.nonce && r.actionHash == RequestedHash(cfg, req)
    ensures BoundTo(cfg, outcome, req, first, names)
  {
    hide RequestedHash;
  }

  /** Every granted reservation and every recorded execution, at any later point of a run, is
      bound to the request as it was evaluated, and comes before the decision expires. */
  lemma {:induction false} UseIsBound(cfg: ToolConfig, run: seq<Action>, e: nat, j: nat, d: string)
    requires IsRun(cfg, run) && e < j && Evaluates(cfg, run, e, d)
    requires Reserves(cfg, run, j, d) || (Finishes(cfg, run, j, d) && run[j].Executing?)
    ensures BoundTo(cfg.gate, run[j].outcome, run[e].req, CurrentVersion(At(cfg, run, e).snapshots), run[e].names)
    ensures run[j].now < run[e].now + cfg.gate.decisionTtl * SECOND
  {
    UseInRange(cfg, run, j, d);
    hide State, Step, IsRun, Inv, Gate, RecordOk, RequestedHash, Reserves, Finishes, Evaluates, BindingFault, BoundTo;
    UseChecked(cfg, run, j, d);
    DrawnPersists(cfg, run, e, j, d);
    EvaluationPersists(cfg, run, e, j, d);
    var r := At(cfg, run, j).tables.records[d];
    BoundTenant(cfg.gate, r);
    WorldOfRecord(cfg.gate, r);
    CheckedMeansBound(cfg.gate, r, CurrentVersion(At(cfg, run, j).snapshots), run[j].outcome, run[j].now,
                      run[e].req, CurrentVersion(At(cfg, run, e).snapshots), run[e].names);
  }

  lemma {:induction false} ReconciliationChecked(cfg: ToolConfig, run: seq<Action>, j: nat, d: string)
    requires IsRun(cfg, run) && Finishes(cfg, run, j, d) && run[j].Reconciling?
    ensures d in At(cfg, run, j).tables.records
    ensures var r := At(cfg, run, j).tables.records[d];
      && r.tenantId == run[j].resolved.tenantId && run[j].now < r.expiresAt
      && ReconcileFault(r, run[j].resolved) == None
  {
    hide State, Inv, IsRun, ReconcileFault, Reconcile;
  }

  /** A recorded reconciliation names tenant, nonce and action hash of the evaluation and one of
      the two resolutions, and comes before the decision expires. */
  lemma {:induction false} ReconciliationIsBound(cfg: ToolConfig, run: seq<Action>, e: nat, j: nat, d: string)
    requires IsRun(cfg, run) && e < j && Evaluates(cfg, run, e, d)
    requires Finishes(cfg, run, j, d) && run[j].Reconciling?
    ensures run[j].resolved.tenantId == run[e].req.tenantId && run[j].resolved.nonce == run[e].names.nonce
    ensures run[j].resolved.actionHash == RequestedHash(cfg.gate, run[e].req)
    ensures run[j].resolved.resolution in RESOLUTIONS
    ensures run[j].now < run[e].now + cfg.gate.decisionTtl * SECOND
  {
    UseInRange(cfg, run, j, d);
    hide State, Step, IsRun, Inv, Gate, RecordOk, RequestedHash, Finishes, Evaluates;
    ReconciliationChecked(cfg, run, j, d);
    DrawnPersists(cfg, run, e, j, d);
    EvaluationPersists(cfg, run, e, j, d);
    BoundTenant(cfg.gate, At(cfg, run, j).tables.records[d]);
    StampKeepsRequest(run[e].req, CurrentVersion(At(cfg, run, e).snapshots),
                      Gate(run[e].req.evidence, run[e].now).normalized);
  }

  lemma {:induction false} UseInRange(cfg: ToolConfig, run: seq<Action>, j: nat, d: string)
    requires Reserves(cfg, run, j, d) || Finishes(cfg, run, j, d)
    ensures j < |run|
  {
  }

  // ---- human approval ----

  ghost predicate Approves(cfg: ToolConfig, run: seq<Action>, i: nat, d: string) {
    i < |run| && run[i].Approving? && run[i].d == d && ReplyAt(cfg, run, i).answer.Granted?
  }

  /** The approval that came in at time `now` is for exactly this record, and in production a
      correctly signed one; `given` is what the record remembers of it. */
  ghost predicate Answers(cfg: Config, r: Record, approval: Approval, given: ApprovalRecord, now: int) {
    && approval.tenantId == r.tenantId && approval.actionHash == r.actionHash
    && approval.policyVersion == r.policySnapshot.version
    && (cfg.production ==> cfg.approvalReady && approval.signature == cfg.approvalTag(approval.(signature := "")))
    && given.approverId == approval.approverId && given.approved == approval.approved
    && 0 < ApprovalTtl(cfg, approval) <= 86400
    && given.expiresAt == now + ApprovalTtl(cfg, approval) * 1_000_000 && now < r.expiresAt
  }

  lemma {:induction false} ApprovalStored(cfg: ToolConfig, run: seq<Action>, i: nat, d: string)
    requires IsRun(cfg, run) && Approves(cfg, run, i, d)
    ensures d in At(cfg, run, i).tables.records && d in At(cfg, run, i + 1).tables.records
    ensures At(cfg, run, i).tables.records[d].decision == Ask
    ensures var r := At(cfg, run, i + 1).tables.records[d];
      && r.approval.Some?
      && Answers(cfg.gate, At(cfg, run, i).tables.records[d], run[i].approval, r.approval.value, run[i].now)
  {
    hide State, RecordsOk, IssuedOk, Orderly, Agreeing, Follows, Enabled, LoadLive, SaveRecord;
    var s, approval, now := At(cfg, run, i), run[i].approval, run[i].now;
    RunAt(cfg, run, i);
    LoadedLive(cfg.gate, s.tables, d, approval.tenantId, now);
    OwnRecord(cfg, s, d);
    SavedRecord(cfg.gate.eventDigest, s.tables, Approved(cfg.gate, s.tables.records[d], approval, now),
                EventType.ApprovalRecorded, run[i].ids);
  }

  lemma {:induction false} OwnRecord(cfg: ToolConfig, s: Sys, d: string)
    requires Inv(cfg, s) && d in s.tables.records
    ensures s.tables.records[d].decisionId == d
  {
    hide RecordOk;
  }

  /** A step that gives a record its approval is a granted approval of that decision. */
  lemma {:induction false} NewApprovalsAreGiven(cfg: ToolConfig, run: seq<Action>, i: nat, d: string)
    requires IsRun(cfg, run) && i < |run|
    requires d in At(cfg, run, i + 1).tables.records && At(cfg, run, i + 1).tables.records[d].approval.Some?
    requires d in At(cfg, run, i).tables.records ==> At(cfg, run, i).tables.records[d].approval == None
    ensures Approves(cfg, run, i, d)
  {
    hide Follows, State, RecordsOk, IssuedOk, Orderly, Agreeing, Enabled, Evaluate, Approve, ExecutionReserve,
      Execution, ExecutionReconcile, Serve, Commit, CurrentVersion, HandedOut;
    var a, s := run[i], At(cfg, run, i);
    RunAt(cfg, run, i);
    if a.Evaluating? {
      EvaluateShape(cfg.gate, s.tables, CurrentVersion(s.snapshots), a.req, a.names, a.ids, a.now);
    } else if a.Approving? {
      ApprovedOnly(cfg, s, a, d);
    } else {
      OthersKeepApprovals(cfg, s, a);
    }
  }

  /** An approval step changes its own decision only, and only if it is granted. */
  lemma {:induction false} ApprovedOnly(cfg: ToolConfig, s: Sys, a: Action, d: string)
    requires Inv(cfg, s) && a.Approving?
    ensures var (s', reply) := Step(cfg, s, a);
      reply.answer.Refused? || d != a.d ==>
        (d in s'.tables.records <==> d in s.tables.records)
        && (d in s.tables.records ==> s'.tables.records[d] == s.tables.records[d])
  {
    hide RecordOk, Agreeing, Approve, Orderly, IssuedOk, Succeeds;
    ApproveShape(cfg.gate, s.tables, a.d, a.approval, a.ids, a.now);
  }

  lemma {:induction false} OthersKeepApprovals(cfg: ToolConfig, s: Sys, a: Action)
    requires Inv(cfg, s) && !a.Evaluating? && !a.Approving?
    ensures SameApprovals(s.tables, Step(cfg, s, a).0.tables)
  {
    hide RecordOk, Agreeing, ExecutionReserve, Execution, ExecutionReconcile, Orderly, IssuedOk, Serve, Commit,
      CurrentVersion;
    var world := CurrentVersion(s.snapshots);
    match a
    case Reserving(x, outcome, ids, now) => ReserveKeepsApproval(cfg.gate, s.tables, world, x, outcome, ids, now);
    case Executing(x, outcome, ids, now) => ExecutionKeepsApproval(cfg.gate, s.tables, world, x, outcome, ids, now);
    case Reconciling(x, resolved, ids, now) => ReconcileKeepsApproval(cfg.gate, s.tables, x, resolved, ids, now);
    case Committing(_, _) =>
    case Calling(_, _) =>
  }

  ghost predicate SameApprovals(t: Tables, t': Tables) {
    forall d :: d in t'.records && t'.records[d].approval.Some? ==>
      d in t.records && t.records[d].approval == t'.records[d].approval
  }

  lemma {:induction false} ReserveKeepsApproval(cfg: Config, t: Tables, world: Option<string>, d: string,
                                                outcome: ExecutionOutcome, ids: Fresh, now: int)
    requires d in t.records ==> t.records[d].decisionId == d
    ensures SameApprovals(t, ExecutionReserve(cfg, t, world, d, outcome, ids, now).0)
  {
    hide BindingFault, IssueAuthority, LoadLive, SaveRecord, Reserve;
    var loaded := LoadLive(cfg, t, d, outcome.tenantId, now);
    if loaded.Granted? {
      LoadedLive(cfg, t, d, outcome.tenantId, now);
      StampKeepsApproval(cfg.backend, t, d, outcome.nonce, now);
      var t1 := Reserve(cfg.backend, t, d, outcome.nonce, now).0;
      SavedRecord(cfg.eventDigest, t1, WithReservation(cfg, d, loaded.record, now), ExecutionReserved, ids);
    }
  }

  lemma {:induction false} StampKeepsApproval(backend: Backend, t: Tables, d: string, nonce: string, at: int)
    ensures SameApprovals(t, Reserve(backend, t, d, nonce, at).0)
  {
  }

  lemma {:induction false} ExecutionKeepsApproval(cfg: Config, t: Tables, world: Option<string>, d: string,
                                                  outcome: ExecutionOutcome, ids: Fresh, now: int)
    requires d in t.records ==> t.records[d].decisionId == d
    ensures SameApprovals(t, Execution(cfg, t, world, d, outcome, ids, now).0)
  {
    hide BindingFault;
  }

  lemma {:induction false} ReconcileKeepsApproval(cfg: Config, t: Tables, d: string, resolved: ReconciliationOutcome,
                                                  ids: Fresh, now: int)
    requires d in t.records ==> t.records[d].decisionId == d
    ensures SameApprovals(t, ExecutionReconcile(cfg, t, d, resolved, ids, now).0)
  {
  }

  /** Every approval in a stored record was given by one earlier approval step. */
  lemma {:induction false} ApprovalHasOrigin(cfg: ToolConfig, run: seq<Action>, i: nat, d: string) returns (a: nat)
    requires IsRun(cfg, run) && i <= |run|
    requires d in At(cfg, run, i).tables.records && At(cfg, run, i).tables.records[d].approval.Some?
    ensures a < i && Approves(cfg, run, a, d)
    decreases i
  {
    hide Step, IsRun, Approves;
    assert i > 0;
    if d in At(cfg, run, i - 1).tables.records && At(cfg, run, i - 1).tables.records[d].approval.Some? {
      a := ApprovalHasOrigin(cfg, run, i - 1, d);
    } else {
      NewApprovalsAreGiven(cfg, run, i - 1, d);
      a := i - 1;
    }
  }

  /** Where policy asks for a human, no reservation is granted without one: between evaluation
      and reservation lies a positive approval of this very action, which has not expired: not the
      time it was given for, or that approvals are good for, has passed. */
  lemma {:induction false} SensitiveNeedsApproval(cfg: ToolConfig, run: seq<Action>, e: nat, j: nat, d: string)
    returns (a: nat)
    requires IsRun(cfg, run) && e < j && Evaluates(cfg, run, e, d) && Reserves(cfg, run, j, d)
    requires Pipeline(run[e].req, cfg.gate.policy) == Some(Ask)
    ensures e < a < j && Approves(cfg, run, a, d) && run[a].approval.approved
    ensures run[a].approval.actionHash == RequestedHash(cfg.gate, run[e].req)
    ensures run[a].approval.tenantId == run[e].req.tenantId
    ensures cfg.gate.production ==> run[a].approval.signature == cfg.gate.approvalTag(run[a].approval.(signature := ""))
    ensures run[j].now < run[a].now + ApprovalTtl(cfg.gate, run[a].approval) * 1_000_000
  {
    UseInRange(cfg, run, j, d);
    hide State, Step, IsRun, Gate, RequestedHash, Reserves, Finishes, Evaluates, Pipeline, StampWorld, Approves, Inv,
      RecordOk, Follows;
    UseChecked(cfg, run, j, d);
    EvaluationPersists(cfg, run, e, j, d);
    var r := At(cfg, run, j).tables.records[d];
    PipelineIsStamped(run[e].req, cfg.gate.policy, CurrentVersion(At(cfg, run, e).snapshots),
                      Gate(run[e].req.evidence, run[e].now).normalized);
    AskMeansApproved(cfg.gate, r, CurrentVersion(At(cfg, run, j).snapshots), run[j].outcome, run[j].now);
    a := ApprovalHasOrigin(cfg, run, j, d);
    ApprovalStored(cfg, run, a, d);
    ApprovalComesLater(cfg, run, e, a, d);
    ApprovalPersists(cfg, run, a, j, d);
    DrawnPersists(cfg, run, e, a, d);
    EvaluationPersists(cfg, run, e, a, d);
    BoundTenant(cfg.gate, At(cfg, run, a).tables.records[d]);
  }

  lemma {:induction false} PipelineIsStamped(req: ActionRequest, policy: PolicySnapshot, world: Option<string>,
                                             evidence: seq<Item>)
    ensures Pipeline(StampWorld(req, world).(evidence := evidence), policy) == Pipeline(req, policy)
  {
    var kept := StampWorld(req, world).(evidence := evidence);
    PipelineIgnoresHints(req, policy, req.riskHint, evidence, kept.worldVersion);
    assert kept == req.(riskHint := req.riskHint, evidence := evidence, worldVersion := kept.worldVersion);
  }

  lemma {:induction false} AskMeansApproved(cfg: Config, r: Record, world: Option<string>,
                                            outcome: ExecutionOutcome, now: int)
    requires RecordOk(cfg, r) && Checked(r, world, outcome, now) && Pipeline(r.request, cfg.policy) == Some(Ask)
    ensures r.approval.Some? && r.approval.value.approved && now < r.approval.value.expiresAt
  {
    hide Pipeline;
  }

  lemma {:induction false} ApprovalComesLater(cfg: ToolConfig, run: seq<Action>, e: nat, a: nat, d: string)
    requires IsRun(cfg, run) && Evaluates(cfg, run, e, d) && a < |run| && d in At(cfg, run, a).tables.records
    ensures e < a
  {
    hide State, Step, IsRun, Evaluates, Succeeds;
    EvaluationStored(cfg, run, e, d);
    EvaluatesInRange(cfg, run, e, d);
    if a <= e {
      RunMovesOn(cfg, run, a, e);
    }
  }

  lemma {:induction false} EvaluatesInRange(cfg: ToolConfig, run: seq<Action>, e: nat, d: string)
    requires Evaluates(cfg, run, e, d)
    ensures e < |run| && run[e].Evaluating?
  {
  }

  lemma {:induction false} ApprovalPersists(cfg: ToolConfig, run: seq<Action>, a: nat, j: nat, d: string)
    requires IsRun(cfg, run) && a < j <= |run| && d in At(cfg, run, a + 1).tables.records
    requires At(cfg, run, a + 1).tables.records[d].approval.Some?
    ensures d in At(cfg, run, j).tables.records
    ensures At(cfg, run, j).tables.records[d].approval == At(cfg, run, a + 1).tables.records[d].approval
  {
    hide State, Step, IsRun;
    RunMovesOn(cfg, run, a + 1, j);
  }

  // ---- lifetime ----

  /** A token expires with its decision, or at the end of the second in which it was issued. */
  lemma {:induction false} TokenLifetime(cfg: Config, d: string, r: Record, now: int)
    requires now < r.expiresAt
    ensures IssueAuthority(cfg, d, r, now).expiresAt * SECOND <= Max(r.expiresAt, now / SECOND * SECOND + SECOND)
    ensures now < IssueAuthority(cfg, d, r, now).expiresAt * SECOND
  {
    var left := r.expiresAt - now;
    assert now / SECOND * SECOND <= now < now / SECOND * SECOND + SECOND;
    assert left / SECOND * SECOND <= left;
  }

  lemma {:induction false} ReservationIssues(cfg: ToolConfig, run: seq<Action>, i: nat, d: string)
    requires IsRun(cfg, run) && Reserves(cfg, run, i, d)
    ensures d in At(cfg, run, i).tables.records && d in At(cfg, run, i + 1).tables.records
    ensures At(cfg, run, i + 1).tables.records[d].authority
         == Some(IssueAuthority(cfg.gate, d, At(cfg, run, i).tables.records[d], run[i].now))
  {
    hide Follows, State, RecordOk, Agreeing, ExecutionReserve;
    var a, s := run[i], At(cfg, run, i);
    RunAt(cfg, run, i);
    ReserveShape(cfg.gate, s.tables, CurrentVersion(s.snapshots), d, a.outcome, a.ids, a.now);
  }

  lemma {:induction false} AuthorityPersists(cfg: ToolConfig, run: seq<Action>, i: nat, j: nat, d: string)
    requires IsRun(cfg, run) && i <= j <= |run| && d in At(cfg, run, i).tables.records
    requires At(cfg, run, i).tables.records[d].authority.Some?
    ensures d in At(cfg, run, j).tables.records
    ensures At(cfg, run, j).tables.records[d].authority == At(cfg, run, i).tables.records[d].authority
  {
    hide State, Step, IsRun;
    RunMovesOn(cfg, run, i, j);
  }

  /** The tool accepts no call later than one second after the decision expired, counted from
      its evaluation. */
  lemma {:induction false} AcceptedCallIsTimely(cfg: ToolConfig, run: seq<Action>, j: nat, d: string)
    returns (e: nat, r: nat)
    requires IsRun(cfg, run) && Accepts(cfg, run, j, d)
    ensures e < r < j && Evaluates(cfg, run, e, d) && Reserves(cfg, run, r, d)
    ensures run[j].now < run[e].now + (cfg.gate.decisionTtl + 1) * SECOND
  {
    hide State, Step, IsRun, Inv, Gate, CarriesParameters, Reserves, Evaluates, RecordOk, Prohibited, BindingFault,
      IssueAuthority, IsWhatWasEvaluated, RequestedHash;
    e, r := AcceptedCallIsAuthorized(cfg, run, j, d);
    AcceptedCall(cfg, run, j, d);
    ReservationIssues(cfg, run, r, d);
    AuthorityPersists(cfg, run, r + 1, j, d);
    UseChecked(cfg, run, r, d);
    DrawnPersists(cfg, run, e, r, d);
    TokenLifetime(cfg.gate, d, At(cfg, run, r).tables.records[d], run[r].now);
  }
}
