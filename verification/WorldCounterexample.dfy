/** A concrete run in which the world changes between evaluation and use: no snapshot exists
    yet, the caller names the version that is committed next. The same run shows a decision
    that is evaluated, reserved and redeemed at the tool. */
module WorldCounterexample {
  import opened Prelude
  import opened EvidenceGate
  import opened Policy
  import opened Records
  import opened Storage
  import opened StateOracle
  import opened GateHandlers
  import opened ToolServer
  import opened GateRuns
  import opened GateTheorems

  /** A development deployment whose policy restricts nothing, and a tool that checks the world. */
  ghost predicate Serving(cfg: ToolConfig) {
    && Permissive(cfg.gate) && cfg.gate.authorityReady && cfg.secretReady && cfg.worldRevalidation
    && (forall action :: cfg.gate.actionHash(action) != "")
    && (forall policy :: cfg.gate.policyHash(policy) != "")
  }

  /** A development deployment whose policy restricts nothing. */
  ghost predicate Permissive(cfg: Config) {
    && !cfg.production && !cfg.requireSession && cfg.backend == Sqlite
    && cfg.decisionTtl == 300
    && cfg.policy == PolicySnapshot("p", {}, {}, {})
  }

  const REQUEST: ActionRequest :=
    ActionRequest("tenant", "agent", None, None, "read", None, map[], [], None, Some("w1"))

  const CREATED: Fresh := Fresh("e0", "v0", "r0", 0)
  const SAVED: Fresh := Fresh("e1", "v1", "r1", 2)

  const EVALUATION: Action := Evaluating(REQUEST, Names("d", "t", "n"), CREATED, 0)

  const W1: Snapshot := Snapshot("s1", "w1", "hash", JObject(map[]), 1)

  const COMMIT: Action := Committing(W1, 1)

  function EvaluatedRecord(cfg: Config): Record {
    NewRecord(cfg, REQUEST, None, Names("d", "t", "n"), Gate([], 0), Allow, 0)
  }

  function Outcome(cfg: Config): ExecutionOutcome {
    ExecutionOutcome(EvaluatedRecord(cfg).actionHash, "tenant", None, None, "n", None, JNull)
  }

  lemma {:induction false} EvaluationGranted(cfg: ToolConfig)
    requires Permissive(cfg.gate)
    ensures var (s, reply) := Step(cfg, START, EVALUATION);
      && reply.answer.Granted? && s.snapshots == [] && s.clock == 0 && s.issued == {} && s.used == map[]
      && s.tables.records == map["d" := reply.answer.record]
      && reply.answer.record == EvaluatedRecord(cfg.gate).(auditEventHash := reply.answer.record.auditEventHash)
      && s.tables.audit == [s.tables.audit[0]] && s.tables.audit[0].eventId == "e0"
      && s.tables.versions == [s.tables.versions[0]] && s.tables.versions[0].versionId == "v0"
  {
    assert Pipeline(REQUEST, cfg.gate.policy) == Some(Allow);
    assert !KeysTaken(EMPTY, CREATED);
    assert Gate([], 0).verdict == Pass;
  }

  /** The state after evaluation and commit. */
  ghost predicate AfterCommit(cfg: Config, s: Sys) {
    && "d" in s.tables.records && s.snapshots == [W1]
    && s.tables.records["d"] == EvaluatedRecord(cfg).(auditEventHash := s.tables.records["d"].auditEventHash)
    && |s.tables.audit| == 1 && s.tables.audit[0].eventId == "e0"
    && |s.tables.versions| == 1 && s.tables.versions[0].versionId == "v0"
  }

  /** Evaluate and commit. */
  lemma {:induction false} UpToCommit(cfg: ToolConfig) returns (run: seq<Action>)
    requires Permissive(cfg.gate)
    ensures run == [EVALUATION, COMMIT] && IsRun(cfg, run) && Evaluates(cfg, run, 0, "d")
    ensures At(cfg, run, 0).snapshots == []
    ensures var s := State(cfg, run); AfterCommit(cfg.gate, s) && s.clock == 1 && s.used == map[] && s.issued == {}
  {
    hide Evaluate, EvaluatedRecord, Permissive;
    EvaluationGranted(cfg);
    assert Enabled(cfg, START, EVALUATION);
    RunGrows(cfg, [], EVALUATION);
    assert [] + [EVALUATION] == [EVALUATION];
    var s1 := State(cfg, [EVALUATION]);
    RunGrows(cfg, [EVALUATION], COMMIT);
    GrowthKeeps(cfg, [EVALUATION], COMMIT, 0);
    run := [EVALUATION] + [COMMIT];
  }

  /** Nothing speaks against the reservation. */
  lemma {:induction false} ReservationIsDue(cfg: ToolConfig, s: Sys)
    requires Permissive(cfg.gate) && AfterCommit(cfg.gate, s)
    ensures var r := s.tables.records["d"];
      && LoadLive(cfg.gate, s.tables, "d", "tenant", 2) == Granted(r)
      && CurrentVersion(s.snapshots) == Some("w1")
      && BindingFault(r, Some("w1"), Outcome(cfg.gate), 2) == None
      && Reserve(Sqlite, s.tables, "d", "n", 2)
         == (s.tables.(records := s.tables.records["d" := r.(startedAt := Some(2))]), true)
    ensures !KeysTaken(s.tables, SAVED)
  {
    var r := s.tables.records["d"];
    assert SignedPartOf(r) == SignedPartOf(EvaluatedRecord(cfg.gate));
    CurrentIsNewest(s.snapshots);
    assert "e0" != "e1" && "v0" != "v1";
  }

  lemma {:induction false} ReservationGranted(cfg: ToolConfig, s: Sys)
    requires Permissive(cfg.gate) && cfg.gate.authorityReady && AfterCommit(cfg.gate, s)
    ensures var (s', reply) := Step(cfg, s, Reserving("d", Outcome(cfg.gate), SAVED, 2));
      && reply.answer.Granted? && s'.issued == s.issued + {IssuedToken(cfg.gate)}
      && s'.snapshots == s.snapshots && s'.used == s.used && s'.clock == 2
      && "d" in s'.tables.records && IsReserved(cfg.gate, s'.tables.records["d"])
  {
    ReservationIsDue(cfg, s);
    hide KeysTaken, BindingFault, LoadLive, Reserve;
    assert KeysTaken(Reserve(Sqlite, s.tables, "d", "n", 2).0, SAVED) == KeysTaken(s.tables, SAVED) by {
      StampLeavesKeys(s.tables, s.tables.records["d" := s.tables.records["d"].(startedAt := Some(2))], SAVED);
    }
  }

  lemma {:induction false} StampLeavesKeys(t: Tables, records: map<string, Record>, ids: Fresh)
    ensures KeysTaken(t.(records := records), ids) == KeysTaken(t, ids)
  {
  }

  function IssuedToken(cfg: Config): Authority {
    IssueAuthority(cfg, "d", EvaluatedRecord(cfg), 2)
  }

  /** The stored record differs from the evaluated one only in what the reservation added. */
  predicate IsReserved(cfg: Config, r: Record) {
    r == EvaluatedRecord(cfg).(startedAt := r.startedAt, authority := r.authority, execution := r.execution,
                               auditEventHash := r.auditEventHash)
  }

  function Redeeming(cfg: Config): Action {
    var r := EvaluatedRecord(cfg);
    Calling(ToolCall(Parsed(IssuedToken(cfg)), Some("tenant"), map[], Some(r.actionHash), Some(r.policyHash)), 3)
  }

  lemma {:induction false} CallAccepted(cfg: ToolConfig, s: Sys)
    requires Serving(cfg) && s.snapshots == [W1] && s.used == map[]
    requires "d" in s.tables.records && IsReserved(cfg.gate, s.tables.records["d"])
    ensures Step(cfg, s, Redeeming(cfg.gate)).1 == Served(None)
  {
    var r, evaluated, call := s.tables.records["d"], EvaluatedRecord(cfg.gate), Redeeming(cfg.gate).call;
    assert SignedPartOf(r) == SignedPartOf(evaluated);
    CurrentIsNewest(s.snapshots);
    assert NamesDigests(cfg, call, r.actionHash, r.policyHash);
    ServeIff(cfg, s.tables, Some("w1"), map[], call, 3);
  }

  /** Reservation and call are granted although a commit lies between them and the evaluation. */
  lemma {:induction false} CallerVersionSlipsThrough(cfg: ToolConfig) returns (run: seq<Action>)
    requires Serving(cfg)
    ensures IsRun(cfg, run) && |run| == 4
    ensures Evaluates(cfg, run, 0, "d") && Reserves(cfg, run, 2, "d") && Accepts(cfg, run, 3, "d")
    ensures At(cfg, run, 0).snapshots != At(cfg, run, 2).snapshots
  {
    var reserving, calling := Reserving("d", Outcome(cfg.gate), SAVED, 2), Redeeming(cfg.gate);
    var start := UpToCommit(cfg);
    ReservationGranted(cfg, State(cfg, start));
    hide Step, State, IsRun, EvaluatedRecord, Permissive, AfterCommit, IsReserved, IssuedToken;
    RunGrows(cfg, start, reserving);
    GrowthKeeps(cfg, start, reserving, 0);
    var reserved := start + [reserving];
    CallAccepted(cfg, State(cfg, reserved));
    RunGrows(cfg, reserved, calling);
    GrowthKeeps(cfg, reserved, calling, 0);
    GrowthKeeps(cfg, reserved, calling, 2);
    run := reserved + [calling];
  }
}
