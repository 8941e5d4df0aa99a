/** The gate, the state oracle and the protected tool as one transition system, and what
    holds along every run that mixes their steps. */
module GateRuns {
  import opened Prelude
  import opened HashChain
  import opened EvidenceGate
  import opened Policy
  import opened Records
  import opened Storage
  import opened StateOracle
  import opened GateHandlers
  import opened ToolServer
  import opened GateInvariant

  /** `issued` collects the authorities that a granted reservation handed out; `used` is the
      tool's own nonce table; `clock` is the latest reading of the common clock. */
  datatype Sys = Sys(
    tables: Tables, snapshots: seq<Snapshot>, issued: set<Authority>, used: map<string, UsedAuthority>, clock: int)

  datatype Action =
    | Evaluating(req: ActionRequest, names: Names, ids: Fresh, now: int)
    | Approving(d: string, approval: Approval, ids: Fresh, now: int)
    | Reserving(d: string, outcome: ExecutionOutcome, ids: Fresh, now: int)
    | Executing(d: string, outcome: ExecutionOutcome, ids: Fresh, now: int)
    | Reconciling(d: string, resolved: ReconciliationOutcome, ids: Fresh, now: int)
    | Committing(row: Snapshot, now: int)
    | Calling(call: ToolCall, now: int)

  datatype Reply = Answered(answer: Answer) | WorldCommit(done: bool) | Served(fault: Option<ToolFault>)

  function Step(cfg: ToolConfig, s: Sys, a: Action): (Sys, Reply) {
    var world := CurrentVersion(s.snapshots);
    match a
    case Evaluating(req, names, ids, now) =>
      var (t, answer) := Evaluate(cfg.gate, s.tables, world, req, names, ids, now);
      (s.(tables := t, clock := now), Answered(answer))
    case Approving(d, approval, ids, now) =>
      var (t, answer) := Approve(cfg.gate, s.tables, d, approval, ids, now);
      (s.(tables := t, clock := now), Answered(answer))
    case Reserving(d, outcome, ids, now) =>
      var (t, answer) := ExecutionReserve(cfg.gate, s.tables, world, d, outcome, ids, now);
      (s.(tables := t, issued := s.issued + HandedOut(answer), clock := now), Answered(answer))
    case Executing(d, outcome, ids, now) =>
      var (t, answer) := Execution(cfg.gate, s.tables, world, d, outcome, ids, now);
      (s.(tables := t, clock := now), Answered(answer))
    case Reconciling(d, resolved, ids, now) =>
      var (t, answer) := ExecutionReconcile(cfg.gate, s.tables, d, resolved, ids, now);
      (s.(tables := t, clock := now), Answered(answer))
    case Committing(row, now) =>
      var (snapshots, done) := Commit(s.snapshots, row.(committedAt := now));
      (s.(snapshots := snapshots, clock := now), WorldCommit(done))
    case Calling(call, now) =>
      var (used, fault) := Serve(cfg, s.tables, world, s.used, call, now);
      (s.(used := used, clock := now), Served(fault))
  }

  /** The authority in the record that a granted reservation returns. */
  function HandedOut(answer: Answer): set<Authority> {
    if answer.Granted? && answer.record.authority.Some? then {answer.record.authority.value} else {}
  }

  /** The environment: the clock does not go back, commit times strictly increase, random
      names do not repeat, and a token whose tag verifies was issued by the gate. */
  ghost predicate Enabled(cfg: ToolConfig, s: Sys, a: Action) {
    && s.clock <= a.now
    && (a.Evaluating? ==>
         && a.names.decisionId !in s.tables.records
         && forall d :: d in s.tables.records ==> s.tables.records[d].nonce != a.names.nonce)
    && (a.Committing? ==> forall i :: 0 <= i < |s.snapshots| ==> s.snapshots[i].committedAt < a.now)
    && (a.Calling? && a.call.token.Parsed? ==>
         var token := a.call.token.authority;
         token.signature == cfg.gate.tag(token.(signature := "")) ==> token in s.issued)
  }

  const START: Sys := Sys(EMPTY, [], {}, map[], 0)

  function State(cfg: ToolConfig, run: seq<Action>): Sys {
    if run == [] then START else Step(cfg, State(cfg, Front(run)), Last(run)).0
  }

  ghost predicate IsRun(cfg: ToolConfig, run: seq<Action>) {
    run == [] || (IsRun(cfg, Front(run)) && Enabled(cfg, State(cfg, Front(run)), Last(run)))
  }

  /** The state before step `i` of a run. */
  function At(cfg: ToolConfig, run: seq<Action>, i: nat): Sys
    requires i <= |run|
  {
    State(cfg, run[..i])
  }

  function ReplyAt(cfg: ToolConfig, run: seq<Action>, i: nat): Reply
    requires i < |run|
  {
    Step(cfg, At(cfg, run, i), run[i]).1
  }

  // ---- the invariant ----

  ghost predicate RecordsOk(cfg: Config, records: map<string, Record>) {
    && (forall d :: d in records ==> records[d].decisionId == d && RecordOk(cfg, records[d]))
    && (forall d, e :: d in records && e in records && d != e ==> records[d].nonce != records[e].nonce)
  }

  /** Every authority handed out is the one stored with its decision. */
  ghost predicate IssuedOk(issued: set<Authority>, records: map<string, Record>) {
    forall a :: a in issued ==>
      && a.decisionId in records
      && records[a.decisionId].authority == Some(a)
      && a.nonce == records[a.decisionId].nonce
  }

  ghost predicate Inv(cfg: ToolConfig, s: Sys) {
    && RecordsOk(cfg.gate, s.tables.records)
    && IssuedOk(s.issued, s.tables.records)
    && Orderly(s.snapshots)
    && Agreeing(cfg.gate.eventDigest, s.tables)
  }

  /** How the state may move in any number of steps. */
  ghost predicate Follows(s: Sys, s': Sys) {
    && s.clock <= s'.clock
    && s.snapshots <= s'.snapshots
    && s.issued <= s'.issued
    && (forall d :: d in s.tables.records ==>
         d in s'.tables.records && Succeeds(s.tables.records[d], s'.tables.records[d]))
  }

  lemma {:induction false} ReserveHandlerAgrees(cfg: Config, t: Tables, world: Option<string>, d: string,
                                                outcome: ExecutionOutcome, ids: Fresh, now: int)
    requires Agreeing(cfg.eventDigest, t)
    ensures Agreeing(cfg.eventDigest, ExecutionReserve(cfg, t, world, d, outcome, ids, now).0)
  {
    hide Agreeing, SaveRecord, Reserve, WithReservation;
    var loaded := LoadLive(cfg, t, d, outcome.tenantId, now);
    if loaded.Granted? {
      ReserveAgrees(cfg.eventDigest, cfg.backend, t, d, outcome.nonce, now);
      var (t1, reserved) := Reserve(cfg.backend, t, d, outcome.nonce, now);
      SaveAgrees(cfg.eventDigest, t1, WithReservation(cfg, d, loaded.record, now), ExecutionReserved, ids);
    }
  }

  /** The transactions behind a step keep the four tables in agreement. */
  lemma {:induction false} StepAgrees(cfg: ToolConfig, s: Sys, a: Action)
    requires Agreeing(cfg.gate.eventDigest, s.tables)
    ensures Agreeing(cfg.gate.eventDigest, Step(cfg, s, a).0.tables)
  {
    hide Agreeing, SaveRecord, Finalize, Reconcile, Reserve, NewRecord, Gate, Pipeline;
    var digest, t := cfg.gate.eventDigest, s.tables;
    match a
    case Evaluating(req, names, ids, now) =>
      var report := Gate(req.evidence, now);
      var decision := DecisionFor(req, report, cfg.gate.policy);
      if decision.Some? {
        var record := NewRecord(cfg.gate, req, CurrentVersion(s.snapshots), names, report, decision.value, now);
        SaveAgrees(digest, t, record, DecisionCreated, ids);
      }
    case Approving(d, approval, ids, now) =>
      var loaded := LoadLive(cfg.gate, t, d, approval.tenantId, now);
      if loaded.Granted? {
        SaveAgrees(digest, t, Approved(cfg.gate, loaded.record, approval, now), EventType.ApprovalRecorded, ids);
      }
    case Reserving(d, outcome, ids, now) =>
      ReserveHandlerAgrees(cfg.gate, t, CurrentVersion(s.snapshots), d, outcome, ids, now);
    case Executing(d, outcome, ids, now) =>
      FinalizeAgrees(digest, t, d, outcome.nonce, now, outcome.outcome, ids);
    case Reconciling(d, resolved, ids, now) =>
      var loaded := LoadLive(cfg.gate, t, d, resolved.tenantId, now);
      if loaded.Granted? {
        ReconcileAgrees(digest, t, loaded.record, resolved.nonce, now, resolved.resolution, resolved.outcome, ids);
      }
    case Committing(_, _) =>
    case Calling(_, _) =>
  }

  /** Records and authorities are good after a step, and old records only moved on. */
  ghost predicate RecordsMovedOn(cfg: Config, s: Sys, s': Sys) {
    && RecordsOk(cfg, s'.tables.records)
    && IssuedOk(s'.issued, s'.tables.records)
    && forall d :: d in s.tables.records ==>
         d in s'.tables.records && Succeeds(s.tables.records[d], s'.tables.records[d])
  }

  lemma {:induction false} UntouchedMovedOn(cfg: Config, s: Sys, s': Sys)
    requires RecordsOk(cfg, s.tables.records) && IssuedOk(s.issued, s.tables.records)
    requires s'.tables.records == s.tables.records && s'.issued == s.issued
    ensures RecordsMovedOn(cfg, s, s')
  {
    hide RecordOk, Succeeds;
    forall d | d in s.tables.records ensures Succeeds(s.tables.records[d], s.tables.records[d]) {
      SucceedsIsReflexive(s.tables.records[d]);
    }
  }

  lemma {:induction false} ReplacedMovedOn(cfg: Config, s: Sys, s': Sys, d: string, r: Record)
    requires RecordsOk(cfg, s.tables.records) && IssuedOk(s.issued, s.tables.records)
    requires d in s.tables.records && RecordOk(cfg, r) && Succeeds(s.tables.records[d], r)
    requires s'.tables.records == s.tables.records[d := r]
    requires s'.issued == s.issued ||
      (&& r.authority.Some? && s'.issued == s.issued + {r.authority.value}
       && r.authority.value.decisionId == d && r.authority.value.nonce == s.tables.records[d].nonce)
    ensures RecordsMovedOn(cfg, s, s')
  {
    hide RecordOk, Succeeds;
    var before := s.tables.records;
    SuccessorIsSame(before[d], r);
    forall x | x in before ensures Succeeds(before[x], s'.tables.records[x]) {
      SucceedsIsReflexive(before[x]);
    }
    forall a | a in s.issued && a.decisionId == d ensures r.authority == Some(a) {
      assert before[d].authority == Some(a);
    }
  }

  lemma {:induction false} SuccessorIsSame(r: Record, r': Record)
    requires Succeeds(r, r')
    ensures r'.decisionId == r.decisionId && r'.nonce == r.nonce
    ensures r.authority.Some? ==> r'.authority == r.authority
  {
    assert r'.decisionId == Core(r').decisionId && r'.nonce == Core(r').nonce;
  }

  lemma {:induction false} InsertedMovedOn(cfg: Config, s: Sys, s': Sys, d: string, r: Record)
    requires RecordsOk(cfg, s.tables.records) && IssuedOk(s.issued, s.tables.records)
    requires d !in s.tables.records && RecordOk(cfg, r) && r.decisionId == d
    requires forall x :: x in s.tables.records ==> s.tables.records[x].nonce != r.nonce
    requires s'.tables.records == s.tables.records[d := r] && s'.issued == s.issued
    ensures RecordsMovedOn(cfg, s, s')
  {
    hide RecordOk, Succeeds;
    forall x | x in s.tables.records ensures Succeeds(s.tables.records[x], s.tables.records[x]) {
      SucceedsIsReflexive(s.tables.records[x]);
    }
  }

  lemma {:induction false} EvaluatingMovesOn(cfg: ToolConfig, s: Sys, a: Action)
    requires Inv(cfg, s) && Enabled(cfg, s, a) && a.Evaluating?
    ensures RecordsMovedOn(cfg.gate, s, Step(cfg, s, a).0)
  {
    hide RecordOk, Succeeds, Agreeing, Evaluate, RecordsMovedOn;
    var s' := Step(cfg, s, a).0;
    EvaluateShape(cfg.gate, s.tables, CurrentVersion(s.snapshots), a.req, a.names, a.ids, a.now);
    if s'.tables == s.tables {
      UntouchedMovedOn(cfg.gate, s, s');
    } else {
      InsertedMovedOn(cfg.gate, s, s', a.names.decisionId, s'.tables.records[a.names.decisionId]);
    }
  }

  lemma {:induction false} ReservingMovesOn(cfg: ToolConfig, s: Sys, a: Action)
    requires Inv(cfg, s) && a.Reserving?
    ensures RecordsMovedOn(cfg.gate, s, Step(cfg, s, a).0)
  {
    hide RecordOk, Succeeds, Agreeing, ExecutionReserve, RecordsMovedOn;
    var s' := Step(cfg, s, a).0;
    ReserveShape(cfg.gate, s.tables, CurrentVersion(s.snapshots), a.d, a.outcome, a.ids, a.now);
    if s'.tables.records == s.tables.records && s'.issued == s.issued {
      UntouchedMovedOn(cfg.gate, s, s');
    } else {
      ReplacedMovedOn(cfg.gate, s, s', a.d, s'.tables.records[a.d]);
    }
  }

  lemma {:induction false} UpdatingMovesOn(cfg: ToolConfig, s: Sys, a: Action)
    requires Inv(cfg, s) && (a.Approving? || a.Executing? || a.Reconciling?)
    ensures RecordsMovedOn(cfg.gate, s, Step(cfg, s, a).0)
  {
    hide RecordOk, Succeeds, Agreeing, Approve, Execution, ExecutionReconcile, RecordsMovedOn;
    var s' := Step(cfg, s, a).0;
    if a.Approving? {
      ApproveShape(cfg.gate, s.tables, a.d, a.approval, a.ids, a.now);
    } else if a.Executing? {
      ExecutionShape(cfg.gate, s.tables, CurrentVersion(s.snapshots), a.d, a.outcome, a.ids, a.now);
    } else {
      ReconcileShape(cfg.gate, s.tables, a.d, a.resolved, a.ids, a.now);
    }
    if s'.tables == s.tables {
      UntouchedMovedOn(cfg.gate, s, s');
    } else {
      ReplacedMovedOn(cfg.gate, s, s', a.d, s'.tables.records[a.d]);
    }
  }

  lemma {:induction false} StepMovesOn(cfg: ToolConfig, s: Sys, a: Action)
    requires Inv(cfg, s) && Enabled(cfg, s, a)
    ensures RecordsMovedOn(cfg.gate, s, Step(cfg, s, a).0)
  {
    hide RecordsMovedOn, RecordsOk, IssuedOk, Agreeing;
    if a.Evaluating? {
      EvaluatingMovesOn(cfg, s, a);
    } else if a.Reserving? {
      ReservingMovesOn(cfg, s, a);
    } else if a.Committing? || a.Calling? {
      UntouchedMovedOn(cfg.gate, s, Step(cfg, s, a).0);
    } else {
      UpdatingMovesOn(cfg, s, a);
    }
  }

  lemma {:induction false} StepKeepsInv(cfg: ToolConfig, s: Sys, a: Action)
    requires Inv(cfg, s) && Enabled(cfg, s, a)
    ensures Inv(cfg, Step(cfg, s, a).0) && Follows(s, Step(cfg, s, a).0)
  {
    hide RecordsOk, IssuedOk, Agreeing, Succeeds;
    StepMovesOn(cfg, s, a);
    StepAgrees(cfg, s, a);
  }

  lemma {:induction false} StartIsGood(cfg: ToolConfig)
    ensures Inv(cfg, START)
  {
  }

  lemma {:induction false} RunKeepsInv(cfg: ToolConfig, run: seq<Action>)
    requires IsRun(cfg, run)
    ensures Inv(cfg, State(cfg, run))
  {
    hide Inv, Enabled, Step;
    if run == [] {
      StartIsGood(cfg);
    } else {
      RunKeepsInv(cfg, Front(run));
      StepKeepsInv(cfg, State(cfg, Front(run)), Last(run));
    }
  }

  lemma {:induction false} PrefixIsRun(cfg: ToolConfig, run: seq<Action>, i: nat)
    requires IsRun(cfg, run) && i <= |run|
    ensures IsRun(cfg, run[..i])
    decreases |run|
  {
    hide Enabled, Step;
    if i < |run| {
      PrefixIsRun(cfg, Front(run), i);
      assert Front(run)[..i] == run[..i];
    } else {
      assert run[..i] == run;
    }
  }

  /** A run grows by a step that is enabled where it ends. */
  lemma {:induction false} RunGrows(cfg: ToolConfig, run: seq<Action>, a: Action)
    requires IsRun(cfg, run) && Enabled(cfg, State(cfg, run), a)
    ensures IsRun(cfg, run + [a]) && State(cfg, run + [a]) == Step(cfg, State(cfg, run), a).0
    ensures At(cfg, run + [a], |run|) == State(cfg, run)
    ensures ReplyAt(cfg, run + [a], |run|) == Step(cfg, State(cfg, run), a).1
  {
    hide Step, Enabled;
    assert Front(run + [a]) == run && (run + [a])[..|run|] == run;
  }

  /** What a run did before stays when it grows. */
  lemma {:induction false} GrowthKeeps(cfg: ToolConfig, run: seq<Action>, a: Action, i: nat)
    requires i < |run|
    ensures At(cfg, run + [a], i) == At(cfg, run, i) && ReplyAt(cfg, run + [a], i) == ReplyAt(cfg, run, i)
  {
    assert (run + [a])[..i] == run[..i];
  }

  /** Step `i` of a run: it is enabled, and leads from one good state to the next. */
  lemma {:induction false} RunAt(cfg: ToolConfig, run: seq<Action>, i: nat)
    requires IsRun(cfg, run) && i < |run|
    ensures Inv(cfg, At(cfg, run, i)) && Inv(cfg, At(cfg, run, i + 1))
    ensures Enabled(cfg, At(cfg, run, i), run[i])
    ensures At(cfg, run, i + 1) == Step(cfg, At(cfg, run, i), run[i]).0
    ensures Follows(At(cfg, run, i), At(cfg, run, i + 1))
  {
    hide Inv, Enabled, Step, Follows;
    var prefix := run[..i + 1];
    PrefixIsRun(cfg, run, i + 1);
    assert Front(prefix) == run[..i] && Last(prefix) == run[i];
    RunKeepsInv(cfg, run[..i]);
    StepKeepsInv(cfg, At(cfg, run, i), run[i]);
  }

  lemma {:induction false} FollowsIsTransitive(a: Sys, b: Sys, c: Sys)
    requires Follows(a, b) && Follows(b, c)
    ensures Follows(a, c)
  {
    hide Succeeds;
    forall d | d in a.tables.records
      ensures d in c.tables.records && Succeeds(a.tables.records[d], c.tables.records[d])
    {
      SucceedsIsTransitive(a.tables.records[d], b.tables.records[d], c.tables.records[d]);
    }
  }

  /** Along a run records only move on: evaluation's part never changes, a consumed record is
      frozen, and reservation, authority and approval are each set at most once. */
  lemma {:induction false} RunMovesOn(cfg: ToolConfig, run: seq<Action>, i: nat, j: nat)
    requires IsRun(cfg, run) && i <= j <= |run|
    ensures Follows(At(cfg, run, i), At(cfg, run, j))
    decreases j
  {
    hide Succeeds, Step, Inv, IsRun, Enabled;
    if i == j {
      forall d | d in At(cfg, run, i).tables.records
        ensures Succeeds(At(cfg, run, i).tables.records[d], At(cfg, run, i).tables.records[d])
      {
        SucceedsIsReflexive(At(cfg, run, i).tables.records[d]);
      }
    } else {
      RunMovesOn(cfg, run, i, j - 1);
      RunAt(cfg, run, j - 1);
      FollowsIsTransitive(At(cfg, run, i), At(cfg, run, j - 1), At(cfg, run, j));
    }
  }
}
