/** Policy pipeline of `app.py`: risk, pre-execution signal, decision. */
module Policy {
  import opened Prelude
  import opened EvidenceGate

  /** The parts of a policy that the rules read. */
  datatype PolicySnapshot = PolicySnapshot(
    version: string, highRisk: set<string>, external: set<string>, critical: set<string>)

  datatype ActionRequest = ActionRequest(
    tenantId: string, agentId: string,
    actorId: Option<string>, sessionId: Option<string>,
    action: string, target: Option<string>, parameters: map<string, Json>,
    evidence: seq<Item>, riskHint: Option<string>, worldVersion: Option<string>)

  datatype Risk = Low | High | Critical

  datatype Mode = Proceed | Inhibit | Hold | Unknown

  datatype ConsumerAction = RequestAuthorization | BlockReaction | RequireReevaluation | RequireEvidence

  datatype Signal = Signal(mode: Mode, reactivity: real, consumerAction: ConsumerAction)

  datatype Decision = Allow | Deny | Ask | Sandbox

  datatype NormalizedAction = NormalizedAction(
    tenantId: string, actorId: Option<string>, sessionId: Option<string>,
    action: string, target: Option<string>, parameters: map<string, Json>, signal: Signal)

  const DEFAULT_POLICY: PolicySnapshot := PolicySnapshot(
    "builtin-v1",
    {"delete_file", "delete_customer", "delete_database", "transfer_funds", "transfer_money"},
    {"send_email", "send_external_email", "http_post_external"},
    {"financial_transfer", "transfer_funds", "transfer_money"})

  predicate ProductionTarget(target: Option<string>) {
    Truthy(target) && (Contains(Lower(target.value), "production") || Contains(Lower(target.value), "prod"))
  }

  function EvaluateRisk(req: ActionRequest, policy: PolicySnapshot): Risk {
    var a := Lower(req.action);
    if a in policy.critical then Critical
    else if a in policy.highRisk then (if ProductionTarget(req.target) then Critical else High)
    else if a in policy.external then High
    else Low
  }

  function ComputeSignal(req: ActionRequest, risk: Risk, policy: PolicySnapshot): Signal {
    var a := Lower(req.action);
    if risk == Critical then Signal(Inhibit, 1.0, BlockReaction)
    else if risk == High && a in policy.highRisk then Signal(Hold, 0.75, RequireReevaluation)
    else if req.evidence == [] && (a in policy.highRisk || a in policy.external) then
      Signal(Unknown, 0.5, RequireEvidence)
    else Signal(Proceed, 0.1, RequestAuthorization)
  }

  function ExpectedConsumerAction(mode: Mode): ConsumerAction {
    match mode
    case Proceed => RequestAuthorization
    case Inhibit => BlockReaction
    case Hold => RequireReevaluation
    case Unknown => RequireEvidence
  }

  /** `decide`; `None` is the 422 answer to a signal whose parts do not belong together. */
  function Decide(req: ActionRequest, risk: Risk, signal: Signal, policy: PolicySnapshot): Option<Decision> {
    var a := Lower(req.action);
    if ExpectedConsumerAction(signal.mode) != signal.consumerAction then None
    else if signal.mode == Inhibit then Some(Deny)
    else if signal.mode in {Hold, Unknown} then Some(Ask)
    else if a in policy.critical then Some(Sandbox)
    else if a in policy.highRisk && risk == Critical then Some(Deny)
    else if a in policy.highRisk || a in policy.external then Some(Ask)
    else Some(Allow)
  }

  function Pipeline(req: ActionRequest, policy: PolicySnapshot): Option<Decision> {
    var risk := EvaluateRisk(req, policy);
    Decide(req, risk, ComputeSignal(req, risk, policy), policy)
  }

  function Normalize(req: ActionRequest, signal: Signal): NormalizedAction {
    NormalizedAction(req.tenantId, req.actorId, req.sessionId, Lower(req.action), req.target, req.parameters, signal)
  }

  // ---- the stages as tables ----

  predicate MeansProd(text: string, i: nat) {
    i + 4 <= |text| && Lower(text[i..i + 4]) == "prod"
  }

  /** The target has "prod" in it, in any case. */
  predicate InProduction(target: Option<string>) {
    target.Some? && exists i :: 0 <= i <= |target.value| && MeansProd(target.value, i)
  }

  lemma {:induction false} ProdIsFound(target: Option<string>)
    ensures InProduction(target) <==> Truthy(target) && Contains(Lower(target.value), "prod")
  {
    if target.Some? {
      var text, low := target.value, Lower(target.value);
      forall i: nat ensures OccursAt(low, "prod", i) <==> MeansProd(text, i) {
        if i + 4 <= |low| {
          assert low[i..i + 4] == Lower(text[i..i + 4]);
        }
      }
      if Contains(low, "prod") {
        var i :| 0 <= i <= |low| && OccursAt(low, "prod", i);
        assert MeansProd(text, i);
      }
      if InProduction(target) {
        var i :| 0 <= i <= |text| && MeansProd(text, i);
        assert OccursAt(low, "prod", i);
      }
    }
  }

  lemma {:induction false} ProductionContainsProd(s: string)
    ensures Contains(s, "production") ==> Contains(s, "prod")
  {
    if i :| 0 <= i <= |s| && OccursAt(s, "production", i) {
      assert s[i..i + 4] == s[i..i + 10][..4] == "production"[..4] == "prod";
      assert OccursAt(s, "prod", i);
    }
  }

  /** The longer word of the source adds nothing: whatever contains it contains "prod". */
  lemma {:induction false} ProductionMeansProd(target: Option<string>)
    ensures ProductionTarget(target) <==> InProduction(target)
  {
    ProdIsFound(target);
    if Truthy(target) {
      ProductionContainsProd(Lower(target.value));
    }
  }

  /** No human approval may lift these: financial actions and destruction in production. */
  predicate Prohibited(req: ActionRequest, policy: PolicySnapshot) {
    var a := Lower(req.action);
    a in policy.critical || (a in policy.highRisk && InProduction(req.target))
  }

  lemma {:induction false} RiskTable(req: ActionRequest, policy: PolicySnapshot)
    ensures var a, risk := Lower(req.action), EvaluateRisk(req, policy);
      risk == if Prohibited(req, policy) then Critical else if a in policy.highRisk + policy.external then High else Low
  {
    ProductionMeansProd(req.target);
    hide InProduction, ProductionTarget;
  }

  lemma {:induction false} SignalTable(req: ActionRequest, policy: PolicySnapshot)
    ensures var a := Lower(req.action);
      ComputeSignal(req, EvaluateRisk(req, policy), policy) ==
        if Prohibited(req, policy) then Signal(Inhibit, 1.0, BlockReaction)
        else if a in policy.highRisk then Signal(Hold, 0.75, RequireReevaluation)
        else if a in policy.external && req.evidence == [] then Signal(Unknown, 0.5, RequireEvidence)
        else Signal(Proceed, 0.1, RequestAuthorization)
  {
    RiskTable(req, policy);
    hide InProduction, EvaluateRisk;
  }

  /** What the three stages decide together. The SANDBOX rule of `Decide` is never reached:
      its actions are critical, and critical risk already signals INHIBIT. */
  lemma {:induction false} PipelineTable(req: ActionRequest, policy: PolicySnapshot)
    ensures Pipeline(req, policy) == Some(Deny) <==> Prohibited(req, policy)
    ensures Pipeline(req, policy) == Some(Allow) <==>
      Lower(req.action) !in policy.critical + policy.highRisk + policy.external
    ensures Pipeline(req, policy) == Some(Ask) <==>
      !Prohibited(req, policy) && Lower(req.action) in policy.highRisk + policy.external
    ensures Pipeline(req, policy).Some? && Pipeline(req, policy) != Some(Sandbox)
  {
    RiskTable(req, policy);
    SignalTable(req, policy);
    hide InProduction, EvaluateRisk, ComputeSignal;
  }

  /** The same for the built-in policy, action by action. */
  lemma {:induction false} DefaultPolicyTable(req: ActionRequest)
    ensures var a := Lower(req.action);
      var financial := a == "financial_transfer" || a == "transfer_funds" || a == "transfer_money";
      var deletes := a == "delete_file" || a == "delete_customer" || a == "delete_database";
      var sends := a == "send_email" || a == "send_external_email" || a == "http_post_external";
      Pipeline(req, DEFAULT_POLICY) ==
        if financial || (deletes && InProduction(req.target)) then Some(Deny)
        else if deletes || sends then Some(Ask)
        else Some(Allow)
  {
    PipelineTable(req, DEFAULT_POLICY);
    hide Lower, InProduction, Pipeline;
  }

  /** The agent's own risk hint, its evidence and its world version move nothing in the pipeline. */
  lemma PipelineIgnoresHints(req: ActionRequest, policy: PolicySnapshot,
                             hint: Option<string>, evidence: seq<Item>, world: Option<string>)
    ensures Pipeline(req.(riskHint := hint, evidence := evidence, worldVersion := world), policy)
         == Pipeline(req, policy)
  {
  }
}
