/** Safety of the decision lifecycle and of the tool boundary, over every run. */
module GateTheorems {
  import opened Prelude
  import opened HashChain
  import opened EvidenceGate
  import opened Policy
  import opened Records
  import opened Storage
  import opened StateOracle
  import opened TransactionLaws
  import opened GateHandlers
  import opened HandlerLaws
  import opened ToolServer
  import opened GateInvariant
  import opened GateRuns
  import AuditOrder

  // ---- what a step of a run did ----

  ghost predicate Evaluates(cfg: ToolConfig, run: seq<Action>, e: nat, d: string) {
    e < |run| && run[e].Evaluating? && run[e].names.decisionId == d && ReplyAt(cfg, run, e).answer.Granted?
  }

  ghost predicate Reserves(cfg: ToolConfig, run: seq<Action>, i: nat, d: string) {
    i < |run| && run[i].Reserving? && run[i].d == d && ReplyAt(cfg, run, i).answer.Granted?
  }

  /** The step records the execution or reconciles it. */
  ghost predicate Finishes(cfg: ToolConfig, run: seq<Action>, i: nat, d: string) {
    i < |run| && (run[i].Executing? || run[i].Reconciling?) && run[i].d == d && ReplyAt(cfg, run, i).answer.Granted?
  }

  /** The tool accepts a call for decision `d`. */
  ghost predicate Accepts(cfg: ToolConfig, run: seq<Action>, i: nat, d: string) {
    && i < |run| && run[i].Calling? && run[i].call.token.Parsed?
    && run[i].call.token.authority.decisionId == d
    && ReplyAt(cfg, run, i) == Served(None)
  }

  // ---- every record and every authority has an origin ----

  /** The record that an evaluation step stored. */
  lemma {:induction false} EvaluationStored(cfg: ToolConfig, run: seq<Action>, e: nat, d: string)
    requires IsRun(cfg, run) && Evaluates(cfg, run, e, d)
    ensures d !in At(cfg, run, e).tables.records
    ensures d in At(cfg, run, e + 1).tables.records
    ensures var r := At(cfg, run, e + 1).tables.records[d];
      && r == ReplyAt(cfg, run, e).answer.record
      && r.request == StampWorld(run[e].req, CurrentVersion(At(cfg, run, e).snapshots))
                        .(evidence := Gate(run[e].req.evidence, run[e].now).normalized)
      && r.evidenceVerdict == Gate(run[e].req.evidence, run[e].now).verdict
      && r.tenantId == run[e].req.tenantId
    ensures At(cfg, run, e + 1).snapshots == At(cfg, run, e).snapshots
  {
    hide Inv, Follows, State, Evaluate, RecordOk;
    var a, s := run[e], At(cfg, run, e);
    RunAt(cfg, run, e);
    EvaluateShape(cfg.gate, s.tables, CurrentVersion(s.snapshots), a.req, a.names, a.ids, a.now);
  }

  /** The step added no record, or it is the evaluation that stored it. */
  lemma {:induction false} NewRecordsAreEvaluated(cfg: ToolConfig, run: seq<Action>, i: nat, d: string)
    requires IsRun(cfg, run) && i < |run|
    requires d in At(cfg, run, i + 1).tables.records && d !in At(cfg, run, i).tables.records
    ensures Evaluates(cfg, run, i, d)
  {
    hide Follows, State, RecordOk, Agreeing, Evaluate, Approve, ExecutionReserve, Execution, ExecutionReconcile,
      IssuedOk, Orderly, Enabled, Serve, Commit, CurrentVersion, Succeeds, HandedOut, SaveRecord;
    var a, s := run[i], At(cfg, run, i);
    var world := CurrentVersion(s.snapshots);
    RunAt(cfg, run, i);
    match a
    case Evaluating(req, names, ids, now) => EvaluateShape(cfg.gate, s.tables, world, req, names, ids, now);
    case Approving(x, approval, ids, now) => ApproveShape(cfg.gate, s.tables, x, approval, ids, now);
    case Reserving(x, outcome, ids, now) => ReserveShape(cfg.gate, s.tables, world, x, outcome, ids, now);
    case Executing(x, outcome, ids, now) => ExecutionShape(cfg.gate, s.tables, world, x, outcome, ids, now);
    case Reconciling(x, resolved, ids, now) => ReconcileShape(cfg.gate, s.tables, x, resolved, ids, now);
    case Committing(_, _) =>
    case Calling(_, _) =>
  }

  /** Every stored decision was evaluated at one earlier step. */
  lemma {:induction false} RecordHasOrigin(cfg: ToolConfig, run: seq<Action>, i: nat, d: string) returns (e: nat)
    requires IsRun(cfg, run) && i <= |run| && d in At(cfg, run, i).tables.records
    ensures e < i && Evaluates(cfg, run, e, d)
    decreases i
  {
    hide Step, IsRun, Evaluates;
    assert i > 0;
    if d in At(cfg, run, i - 1).tables.records {
      e := RecordHasOrigin(cfg, run, i - 1, d);
    } else {
      NewRecordsAreEvaluated(cfg, run, i - 1, d);
      e := i - 1;
    }
  }

  /** What a granted reservation found and left behind. */
  lemma {:induction false} ReservationStored(cfg: ToolConfig, run: seq<Action>, i: nat, d: string)
    requires IsRun(cfg, run) && Reserves(cfg, run, i, d)
    ensures d in At(cfg, run, i).tables.records && d in At(cfg, run, i + 1).tables.records
    ensures At(cfg, run, i).tables.records[d].startedAt == None
    ensures At(cfg, run, i + 1).tables.records[d].startedAt.Some?
    ensures var world := At(cfg, run, i).tables.records[d].worldVersion;
      world.Some? ==> CurrentVersion(At(cfg, run, i).snapshots) == world
  {
    hide Follows, State, RecordOk, Agreeing, ExecutionReserve;
    var a, s := run[i], At(cfg, run, i);
    RunAt(cfg, run, i);
    ReserveShape(cfg.gate, s.tables, CurrentVersion(s.snapshots), d, a.outcome, a.ids, a.now);
  }

  /** A step hands out an authority only by granting the reservation of its decision. */
  lemma {:induction false} NewAuthoritiesAreReserved(cfg: ToolConfig, run: seq<Action>, i: nat, a: Authority)
    requires IsRun(cfg, run) && i < |run|
    requires a in At(cfg, run, i + 1).issued && a !in At(cfg, run, i).issued
    ensures Reserves(cfg, run, i, a.decisionId)
  {
    hide Follows, State, RecordOk, Agreeing, Evaluate, Approve, ExecutionReserve, Execution, ExecutionReconcile;
    var s := At(cfg, run, i);
    RunAt(cfg, run, i);
    if run[i].Reserving? {
      ReserveShape(cfg.gate, s.tables, CurrentVersion(s.snapshots), run[i].d, run[i].outcome, run[i].ids, run[i].now);
    }
  }

  lemma {:induction false} AuthorityHasOrigin(cfg: ToolConfig, run: seq<Action>, i: nat, a: Authority) returns (r: nat)
    requires IsRun(cfg, run) && i <= |run| && a in At(cfg, run, i).issued
    ensures r < i && Reserves(cfg, run, r, a.decisionId)
    decreases i
  {
    hide Step, IsRun, Reserves;
    assert i > 0;
    if a in At(cfg, run, i - 1).issued {
      r := AuthorityHasOrigin(cfg, run, i - 1, a);
    } else {
      NewAuthoritiesAreReserved(cfg, run, i - 1, a);
      r := i - 1;
    }
  }

  /** The evaluated part of a record is still in place at any later step. */
  lemma {:induction false} EvaluationPersists(cfg: ToolConfig, run: seq<Action>, e: nat, j: nat, d: string)
    requires IsRun(cfg, run) && Evaluates(cfg, run, e, d) && e < j <= |run|
    ensures d in At(cfg, run, j).tables.records
    ensures var r := At(cfg, run, j).tables.records[d];
      && RecordOk(cfg.gate, r) && r.decisionId == d
      && r.request == StampWorld(run[e].req, CurrentVersion(At(cfg, run, e).snapshots))
                        .(evidence := Gate(run[e].req.evidence, run[e].now).normalized)
      && r.evidenceVerdict == Gate(run[e].req.evidence, run[e].now).verdict
  {
    hide State, Step, IsRun, RecordOk, Agreeing, Gate, StampWorld, Evaluates;
    EvaluationStored(cfg, run, e, d);
    RunMovesOn(cfg, run, e + 1, j);
    PrefixIsRun(cfg, run, j);
    RunKeepsInv(cfg, run[..j]);
    var r0, r := At(cfg, run, e + 1).tables.records[d], At(cfg, run, j).tables.records[d];
    assert r.request == Core(r).request == Core(r0).request == r0.request;
    assert r.evidenceVerdict == Core(r).evidenceVerdict == Core(r0).evidenceVerdict == r0.evidenceVerdict;
  }

  // ---- at most once ----

  /** A decision is reserved at most once in a run. */
  lemma {:induction false} ReservedAtMostOnce(cfg: ToolConfig, run: seq<Action>, i: nat, j: nat, d: string)
    requires IsRun(cfg, run) && i < j && Reserves(cfg, run, i, d)
    ensures !Reserves(cfg, run, j, d)
  {
    hide State, Step, IsRun, Inv, Reserves;
    if Reserves(cfg, run, j, d) {
      ReservationStored(cfg, run, i, d);
      ReservationStored(cfg, run, j, d);
      ReservesInRange(cfg, run, j, d);
      RunMovesOn(cfg, run, i + 1, j);
    }
  }

  lemma {:induction false} ReservesInRange(cfg: ToolConfig, run: seq<Action>, i: nat, d: string)
    requires Reserves(cfg, run, i, d)
    ensures i < |run|
  {
  }

  /** Once the execution is recorded or reconciled, neither happens again. */
  lemma {:induction false} FinishedAtMostOnce(cfg: ToolConfig, run: seq<Action>, i: nat, j: nat, d: string)
    requires IsRun(cfg, run) && i < j && Finishes(cfg, run, i, d)
    ensures !Finishes(cfg, run, j, d)
  {
    hide State, Step, IsRun, Inv;
    if Finishes(cfg, run, j, d) {
      FinishStored(cfg, run, i, d);
      FinishStored(cfg, run, j, d);
      RunMovesOn(cfg, run, i + 1, j);
    }
  }

  /** What the step leaves of record `r`: executed with the reported outcome, or reconciled with its
      resolution and outcome, now, for the action hash and nonce of the decision; all else stays. */
  function FinishedAs(r: Record, a: Action): Record
    requires a.Executing? || a.Reconciling?
  {
    match a
    case Executing(_, outcome, _, now) =>
      r.(execution := Some(ExecutionRecord(now, Executed, r.actionHash, r.nonce)),
         outcome := Some(outcome.outcome), consumedAt := Some(now))
    case Reconciling(_, resolved, _, now) =>
      r.(execution := Some(ExecutionRecord(now, ExecutionStatus.Reconciled, r.actionHash, r.nonce)),
         reconciliation := Some(Reconciliation(resolved.resolution, now)),
         outcome := Some(resolved.outcome), consumedAt := Some(now))
  }

  /** A finish answers with the record it stores, which is the one it found with the execution
      recorded; a reconciliation also gets its row in the reconciliation table. */
  lemma {:induction false} FinishWrites(cfg: ToolConfig, run: seq<Action>, i: nat, d: string)
    requires IsRun(cfg, run) && Finishes(cfg, run, i, d)
    ensures d in At(cfg, run, i).tables.records && d in At(cfg, run, i + 1).tables.records
    ensures var r, r' := At(cfg, run, i).tables.records[d], At(cfg, run, i + 1).tables.records[d];
      && r' == FinishedAs(r, run[i]).(auditEventHash := r'.auditEventHash)
      && ReplyAt(cfg, run, i) == Answered(Granted(r'))
      && At(cfg, run, i + 1).tables.reconciliations ==
           if run[i].Executing? then At(cfg, run, i).tables.reconciliations
           else At(cfg, run, i).tables.reconciliations[d :=
                  ReconciliationRow(run[i].ids.reconciliationId, r.tenantId, r.nonce, run[i].resolved.resolution,
                                    run[i].resolved.outcome, run[i].now)]
  {
    hide Follows, State, RecordOk, Agreeing, Execution, ExecutionReconcile, Live, Usable, MayReconcile, IsNextVersion,
      IssuedOk, Orderly, Enabled;
    var a, s := run[i], At(cfg, run, i);
    RunAt(cfg, run, i);
    if a.Executing? {
      ExecutionAnswers(cfg.gate, s.tables, CurrentVersion(s.snapshots), d, a.outcome, a.ids, a.now);
      LiveIsStored(cfg.gate, s.tables, d, a.outcome.tenantId, a.now);
    } else {
      ReconcileAnswers(cfg.gate, s.tables, d, a.resolved, a.ids, a.now);
      LiveIsStored(cfg.gate, s.tables, d, a.resolved.tenantId, a.now);
    }
  }

  lemma {:induction false} LiveIsStored(cfg: Config, t: Tables, d: string, tenant: string, now: int)
    ensures Live(cfg, t, d, tenant, now) ==> d in t.records
  {
  }

  /** A finish finds the decision reserved and not consumed, and consumes it for good. */
  lemma {:induction false} FinishStored(cfg: ToolConfig, run: seq<Action>, i: nat, d: string)
    requires IsRun(cfg, run) && Finishes(cfg, run, i, d)
    ensures d in At(cfg, run, i).tables.records && d in At(cfg, run, i + 1).tables.records
    ensures At(cfg, run, i).tables.records[d].consumedAt == None
    ensures At(cfg, run, i).tables.records[d].startedAt.Some? && At(cfg, run, i).tables.records[d].authority.Some?
    ensures At(cfg, run, i + 1).tables.records[d].consumedAt == Some(run[i].now)
    ensures At(cfg, run, i + 1).tables.records[d].execution.Some?
    ensures At(cfg, run, i + 1).tables.records[d].execution.value.status ==
      if run[i].Executing? then Executed else ExecutionStatus.Reconciled
    ensures var world := At(cfg, run, i).tables.records[d].worldVersion;
      run[i].Executing? && world.Some? ==> CurrentVersion(At(cfg, run, i).snapshots) == world
  {
    hide Follows, State, RecordOk, Agreeing, Execution, ExecutionReconcile;
    var a, s := run[i], At(cfg, run, i);
    RunAt(cfg, run, i);
    if a.Executing? {
      ExecutionShape(cfg.gate, s.tables, CurrentVersion(s.snapshots), d, a.outcome, a.ids, a.now);
    } else {
      ReconcileShape(cfg.gate, s.tables, d, a.resolved, a.ids, a.now);
    }
    ExecutionMeansAuthority(cfg.gate, At(cfg, run, i + 1).tables.records[d]);
  }

  lemma {:induction false} ExecutionMeansAuthority(cfg: Config, r: Record)
    requires RecordOk(cfg, r) && r.execution.Some?
    ensures r.authority.Some?
  {
  }

  /** A consumed record never changes again. */
  lemma {:induction false} ConsumedIsFrozen(cfg: ToolConfig, run: seq<Action>, i: nat, j: nat, d: string)
    requires IsRun(cfg, run) && i <= j <= |run|
    requires d in At(cfg, run, i).tables.records && At(cfg, run, i).tables.records[d].consumedAt.Some?
    ensures d in At(cfg, run, j).tables.records
    ensures At(cfg, run, j).tables.records[d] == At(cfg, run, i).tables.records[d]
  {
    hide State, Step, IsRun;
    RunMovesOn(cfg, run, i, j);
  }

  /** A reservation stamp that was stored without an authority is final: the decision is never
      reserved, finished or accepted by the tool. */
  lemma {:induction false} StampWithoutAuthorityIsStuck(cfg: ToolConfig, run: seq<Action>, i: nat, j: nat, d: string)
    requires IsRun(cfg, run) && i <= j < |run| && d in At(cfg, run, i).tables.records
    requires At(cfg, run, i).tables.records[d].startedAt.Some? && At(cfg, run, i).tables.records[d].authority == None
    ensures !Reserves(cfg, run, j, d) && !Finishes(cfg, run, j, d) && !Accepts(cfg, run, j, d)
  {
    hide State, Step, IsRun, Inv, CarriesParameters;
    RunMovesOn(cfg, run, i, j);
    if Reserves(cfg, run, j, d) {
      ReservationStored(cfg, run, j, d);
    }
    if Finishes(cfg, run, j, d) {
      FinishStored(cfg, run, j, d);
    }
    if Accepts(cfg, run, j, d) {
      AcceptedCall(cfg, run, j, d);
    }
  }

  // ---- the tool boundary ----

  /** The facts that the tool's checks establish about the stored decision. */
  lemma {:induction false} UnfaultyCall(cfg: ToolConfig, t: Tables, world: Option<string>, call: ToolCall, now: int)
    requires CallFault(cfg, t, world, call, now) == None
    ensures call.token.Parsed? && call.tenantId.Some?
    ensures var a := call.token.authority;
      && a.signature == cfg.gate.tag(a.(signature := ""))
      && a.issuedAt <= now / SECOND < a.expiresAt
      && a.decisionId in t.records
      && t.records[a.decisionId].decision == Allow
      && CarriesParameters(call, call.tenantId.value, t.records[a.decisionId].request)
      && t.records[a.decisionId].worldVersion.Some? && world == t.records[a.decisionId].worldVersion
      && t.records[a.decisionId].actionHash == a.actionDigest
      && t.records[a.decisionId].tenantId == call.tenantId.value == a.tenantId
  {
  }

  lemma {:induction false} AcceptedCall(cfg: ToolConfig, run: seq<Action>, j: nat, d: string)
    requires IsRun(cfg, run) && Accepts(cfg, run, j, d)
    ensures var a, s, s', now := run[j].call.token.authority, At(cfg, run, j), At(cfg, run, j + 1), run[j].now;
      && a in s.issued && d in s.tables.records
      && s.tables.records[d].authority == Some(a)
      && s.tables.records[d].decision == Allow
      && run[j].call.tenantId.Some?
      && CarriesParameters(run[j].call, run[j].call.tenantId.value, s.tables.records[d].request)
      && s.tables.records[d].worldVersion.Some?
      && CurrentVersion(s.snapshots) == s.tables.records[d].worldVersion
      && now / SECOND < a.expiresAt
      && s.clock <= now
      && a.nonce !in Unexpired(s.used, now / SECOND)
      && a.nonce in s'.used && s'.used[a.nonce].expiresAt == a.expiresAt
  {
    hide State, RecordOk, Agreeing, CallFault, Follows;
    var s, call, now := At(cfg, run, j), run[j].call, run[j].now;
    RunAt(cfg, run, j);
    UnfaultyCall(cfg, s.tables, CurrentVersion(s.snapshots), call, now);
  }

  /** A claimed nonce stays in the tool's table until its token has expired. */
  lemma {:induction false} ClaimPersists(cfg: ToolConfig, run: seq<Action>, i: nat, j: nat, nonce: string,
                                         expiresAt: int)
    requires IsRun(cfg, run) && i <= j <= |run|
    requires nonce in At(cfg, run, i).used && At(cfg, run, i).used[nonce].expiresAt == expiresAt
    ensures var s := At(cfg, run, j);
      (nonce in s.used && s.used[nonce].expiresAt == expiresAt) || s.clock / SECOND >= expiresAt
    decreases j
  {
    hide State, Inv, IsRun, Follows, CallFault, Evaluate, Approve, ExecutionReserve, Execution, ExecutionReconcile;
    if i < j {
      ClaimPersists(cfg, run, i, j - 1, nonce, expiresAt);
      RunAt(cfg, run, j - 1);
      ClaimSurvivesStep(cfg, At(cfg, run, j - 1), run[j - 1], nonce, expiresAt);
    }
  }

  lemma {:induction false} ClaimSurvivesStep(cfg: ToolConfig, s: Sys, a: Action, nonce: string, expiresAt: int)
    requires Enabled(cfg, s, a)
    requires (nonce in s.used && s.used[nonce].expiresAt == expiresAt) || s.clock / SECOND >= expiresAt
    ensures var s' := Step(cfg, s, a).0;
      (nonce in s'.used && s'.used[nonce].expiresAt == expiresAt) || s'.clock / SECOND >= expiresAt
  {
    hide CallFault, Evaluate, Approve, ExecutionReserve, Execution, ExecutionReconcile;
    assert s.clock / SECOND <= a.now / SECOND;
  }

  /** The tool accepts at most one call per decision, whatever tokens and payloads are sent. */
  lemma {:induction false} AcceptedAtMostOnce(cfg: ToolConfig, run: seq<Action>, i: nat, j: nat, d: string)
    requires IsRun(cfg, run) && i < j && Accepts(cfg, run, i, d)
    ensures !Accepts(cfg, run, j, d)
  {
    hide State, Step, IsRun, Inv, CarriesParameters;
    if Accepts(cfg, run, j, d) {
      AcceptedCall(cfg, run, i, d);
      AcceptedCall(cfg, run, j, d);
      RunMovesOn(cfg, run, i, j);
      var a := run[i].call.token.authority;
      ClaimPersists(cfg, run, i + 1, j, a.nonce, a.expiresAt);
    }
  }

  lemma {:induction false} StampKeepsParameters(call: ToolCall, tenant: string, req: ActionRequest,
                                                world: Option<string>, evidence: seq<Item>)
    ensures CarriesParameters(call, tenant, StampWorld(req, world).(evidence := evidence))
         == CarriesParameters(call, tenant, req)
  {
  }

  /** The call is one that the evaluation of `req` at time `at` allows: right tenant, exactly
      the evaluated arguments, evidence that passed, and a stored decision that says ALLOW. */
  ghost predicate IsWhatWasEvaluated(policy: PolicySnapshot, t: Tables, call: ToolCall, d: string,
                                     req: ActionRequest, at: int) {
    && call.tenantId == Some(req.tenantId)
    && CarriesParameters(call, req.tenantId, req)
    && Gate(req.evidence, at).verdict == Pass
    && !Prohibited(req, policy)
    && d in t.records && t.records[d].decision == Allow
  }

  /** Every accepted call goes back to one evaluation and one later reservation of its
      decision, and is what was evaluated. */
  lemma {:induction false} AcceptedCallIsAuthorized(cfg: ToolConfig, run: seq<Action>, j: nat, d: string)
    returns (e: nat, r: nat)
    requires IsRun(cfg, run) && Accepts(cfg, run, j, d)
    ensures e < r < j && Evaluates(cfg, run, e, d) && Reserves(cfg, run, r, d)
    ensures IsWhatWasEvaluated(cfg.gate.policy, At(cfg, run, j).tables, run[j].call, d, run[e].req, run[e].now)
  {
    hide State, Step, IsRun, Inv, Gate, CarriesParameters, Reserves, RecordOk, BoundDigests, Prohibited, StampWorld;
    AcceptedCall(cfg, run, j, d);
    r := AuthorityHasOrigin(cfg, run, j, run[j].call.token.authority);
    ReservationStored(cfg, run, r, d);
    e := RecordHasOrigin(cfg, run, r, d);
    EvaluationPersists(cfg, run, e, j, d);
    var record := At(cfg, run, j).tables.records[d];
    var world, kept := CurrentVersion(At(cfg, run, e).snapshots), Gate(run[e].req.evidence, run[e].now).normalized;
    RunMovesOn(cfg, run, r + 1, j);
    ReservedMeansPermitted(cfg.gate, record);
    AcceptedTenant(cfg, run, j, d);
    BoundTenant(cfg.gate, record);
    StampKeepsRequest(run[e].req, world, kept);
    StampKeepsParameters(run[j].call, run[j].call.tenantId.value, run[e].req, world, kept);
    ProhibitedIsStamped(run[e].req, cfg.gate.policy, world, kept);
  }

  lemma {:induction false} StampKeepsRequest(req: ActionRequest, world: Option<string>, evidence: seq<Item>)
    ensures StampWorld(req, world).(evidence := evidence).tenantId == req.tenantId
  {
  }

  lemma {:induction false} AcceptedTenant(cfg: ToolConfig, run: seq<Action>, j: nat, d: string)
    requires IsRun(cfg, run) && Accepts(cfg, run, j, d)
    ensures d in At(cfg, run, j).tables.records
    ensures run[j].call.tenantId == Some(At(cfg, run, j).tables.records[d].tenantId)
  {
    hide State, Inv, IsRun, CallFault;
    var s := At(cfg, run, j);
    UnfaultyCall(cfg, s.tables, CurrentVersion(s.snapshots), run[j].call, run[j].now);
  }

  lemma {:induction false} BoundTenant(cfg: Config, r: Record)
    requires RecordOk(cfg, r)
    ensures r.request.tenantId == r.tenantId
  {
  }

  lemma {:induction false} ProhibitedIsStamped(req: ActionRequest, policy: PolicySnapshot, world: Option<string>,
                                               evidence: seq<Item>)
    ensures Prohibited(StampWorld(req, world).(evidence := evidence), policy) == Prohibited(req, policy)
  {
  }

  /** A decision evaluated on unacceptable evidence, or one that no approval may lift, is never
      reserved, finished or executed, whatever approvals follow. */
  lemma {:induction false} BlockedNeverRuns(cfg: ToolConfig, run: seq<Action>, e: nat, j: nat, d: string)
    requires IsRun(cfg, run) && Evaluates(cfg, run, e, d) && e < j < |run|
    requires Gate(run[e].req.evidence, run[e].now).verdict == Block || Prohibited(run[e].req, cfg.gate.policy)
    ensures d in At(cfg, run, j + 1).tables.records && At(cfg, run, j + 1).tables.records[d].startedAt == None
    ensures !Reserves(cfg, run, j, d) && !Finishes(cfg, run, j, d) && !Accepts(cfg, run, j, d)
  {
    hide State, Step, IsRun, Inv, Gate, RecordOk, Prohibited, StampWorld, CarriesParameters;
    EvaluationPersists(cfg, run, e, j, d);
    EvaluationPersists(cfg, run, e, j + 1, d);
    ProhibitedIsStamped(run[e].req, cfg.gate.policy, CurrentVersion(At(cfg, run, e).snapshots),
                        Gate(run[e].req.evidence, run[e].now).normalized);
    if At(cfg, run, j + 1).tables.records[d].startedAt.Some? {
      ReservedMeansPermitted(cfg.gate, At(cfg, run, j + 1).tables.records[d]);
    }
    if At(cfg, run, j).tables.records[d].startedAt.Some? {
      ReservedMeansPermitted(cfg.gate, At(cfg, run, j).tables.records[d]);
    }
    if Reserves(cfg, run, j, d) { ReservationStored(cfg, run, j, d); }
    if Finishes(cfg, run, j, d) { FinishStored(cfg, run, j, d); }
    if Accepts(cfg, run, j, d) {
      AcceptedCall(cfg, run, j, d);
      AuthorityMeansStarted(cfg.gate, At(cfg, run, j).tables.records[d]);
    }
  }

  lemma {:induction false} AuthorityMeansStarted(cfg: Config, r: Record)
    requires RecordOk(cfg, r) && r.authority.Some?
    ensures r.startedAt.Some?
  {
  }

  // ---- the world between evaluation and use ----

  /** A use of decision `d`: reserved, recorded, or accepted by the tool. */
  ghost predicate Uses(cfg: ToolConfig, run: seq<Action>, j: nat, d: string) {
    || Reserves(cfg, run, j, d)
    || (Finishes(cfg, run, j, d) && run[j].Executing?)
    || Accepts(cfg, run, j, d)
  }

  lemma {:induction false} UseSeesOwnWorld(cfg: ToolConfig, run: seq<Action>, j: nat, d: string)
    requires IsRun(cfg, run) && Uses(cfg, run, j, d)
    ensures j < |run| && d in At(cfg, run, j).tables.records
    ensures var world := At(cfg, run, j).tables.records[d].worldVersion;
      world.Some? ==> CurrentVersion(At(cfg, run, j).snapshots) == world
  {
    hide State, Step, IsRun, CarriesParameters, RecordOk;
    if Reserves(cfg, run, j, d) {
      ReservationStored(cfg, run, j, d);
    } else if Finishes(cfg, run, j, d) {
      FinishStored(cfg, run, j, d);
    } else {
      AcceptedCall(cfg, run, j, d);
    }
  }

  /** For a decision bound to a world version, nothing was committed between its evaluation
      and its use exactly when a snapshot existed at evaluation; a version that the caller
      brought along before the first commit is the one way around. */
  lemma {:induction false} WorldUnchangedUntilUse(cfg: ToolConfig, run: seq<Action>, e: nat, j: nat, d: string)
    requires IsRun(cfg, run) && e < j && Evaluates(cfg, run, e, d) && Uses(cfg, run, j, d)
    requires At(cfg, run, e).snapshots != [] || run[e].req.worldVersion.Some?
    ensures At(cfg, run, e).snapshots == At(cfg, run, j).snapshots <==> At(cfg, run, e).snapshots != []
  {
    hide State, Step, IsRun, Gate, Evaluates, Uses, RecordOk, Agreeing;
    UseSeesOwnWorld(cfg, run, j, d);
    EvaluationPersists(cfg, run, e, j, d);
    var r := At(cfg, run, j).tables.records[d];
    WorldOfRecord(cfg.gate, r);
    RunMovesOn(cfg, run, e, j);
    PrefixIsRun(cfg, run, j);
    RunKeepsInv(cfg, run[..j]);
    if At(cfg, run, e).snapshots != [] {
      WorldNeverReturns(At(cfg, run, e).snapshots, At(cfg, run, j).snapshots);
      SomeWorld(At(cfg, run, e).snapshots);
    }
  }

  /** Equal snapshot tables at two points of a run mean that no commit succeeded in between. */
  lemma {:induction false} NoCommitBetween(cfg: ToolConfig, run: seq<Action>, e: nat, k: nat, j: nat)
    requires IsRun(cfg, run) && e <= k < j <= |run| && run[k].Committing?
    requires At(cfg, run, e).snapshots == At(cfg, run, j).snapshots
    ensures ReplyAt(cfg, run, k) == WorldCommit(false)
  {
    hide State, IsRun, Inv, Succeeds;
    RunMovesOn(cfg, run, e, k);
    RunAt(cfg, run, k);
    RunMovesOn(cfg, run, k + 1, j);
  }

  lemma {:induction false} WorldOfRecord(cfg: Config, r: Record)
    requires RecordOk(cfg, r)
    ensures r.worldVersion == r.request.worldVersion
  {
  }

  lemma {:induction false} SomeWorld(snapshots: seq<Snapshot>)
    requires snapshots != []
    ensures CurrentVersion(snapshots).Some?
  {
  }

  // ---- replay, loading, and the audit log ----

  /** In every reachable state, replay reports a match exactly when the evidence had no
      contradiction and either passed or the policy alone asks; the hashes always match,
      and the stored signature always verifies. */
  lemma {:induction false} ReplayInEveryState(cfg: ToolConfig, run: seq<Action>, d: string, now: int)
    requires IsRun(cfg, run) && d in State(cfg, run).tables.records
    ensures var r := State(cfg, run).tables.records[d];
      && Load(cfg.gate, State(cfg, run).tables, d, r.tenantId) == Granted(r)
      && Replay(cfg.gate, r, now).Some?
      && Replay(cfg.gate, r, now).value.policyHashMatch && Replay(cfg.gate, r, now).value.actionHashMatch
      && (Replay(cfg.gate, r, now).value.evidenceVerdict == Pass <==> Acceptable(r.evidence, now))
      && Some(Replay(cfg.gate, r, now).value.replayed) == Pipeline(r.request, cfg.gate.policy)
      && (Replay(cfg.gate, r, now).value.matches <==>
           r.contradictions == [] && (r.evidenceVerdict == Pass || Pipeline(r.request, cfg.gate.policy) == Some(Ask)))
  {
    hide State, IsRun, Replay, Pipeline, Agreeing, Acceptable;
    RunKeepsInv(cfg, run);
    ReplayOfRecord(cfg.gate, State(cfg, run).tables.records[d], now);
  }

  /** The audit log of any run can be fetched in any order and put back as it was written. */
  lemma {:induction false} AuditLogIsRecoverable(cfg: ToolConfig, run: seq<Action>, fetched: seq<AuditOrder.Row>)
    requires IsRun(cfg, run) && Ideal(cfg.gate.eventDigest)
    requires multiset(fetched) == multiset(RowsOf(State(cfg, run).tables.audit))
    ensures AuditOrder.Reconstructible(fetched)
    ensures forall p :: AuditOrder.IsOrdering(fetched, p) <==> p == RowsOf(State(cfg, run).tables.audit)
  {
    hide State, IsRun, Agreeing, RecordsOk, IssuedOk, Orderly;
    RunKeepsInv(cfg, run);
    AgreeingLogIsRecovered(cfg.gate.eventDigest, State(cfg, run).tables, fetched);
  }
}
