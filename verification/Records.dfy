/** The decision record that the Action Gate stores as JSON, and what hangs off it. */
module Records {
  import opened Prelude
  import opened EvidenceGate
  import opened Policy

  /** Times are microseconds since the epoch; an authority counts whole seconds. */
  const SECOND: int := 1_000_000

  datatype Authority = Authority(
    decisionId: string, tenantId: string,
    actionDigest: string, policyDigest: string, nonce: string,
    issuedAt: int, expiresAt: int, decision: Decision, signature: string)

  datatype ApprovalRecord = ApprovalRecord(approverId: string, approved: bool, expiresAt: int)

  datatype ExecutionStatus = Reserved | Executed | Reconciled

  datatype ExecutionRecord = ExecutionRecord(timestamp: int, status: ExecutionStatus, actionHash: string, nonce: string)

  datatype Reconciliation = Reconciliation(resolution: string, resolvedAt: int)

  /** `None` in `startedAt`, `authority`, `reconciliation` and `auditEventHash` is an absent
      key; in `approval`, `execution`, `outcome` and `consumedAt` it is a stored null. */
  datatype Record = Record(
    decisionId: string, traceId: string, tenantId: string,
    request: ActionRequest,
    normalizedAction: NormalizedAction, actionHash: string, nonce: string,
    policySnapshot: PolicySnapshot, policyHash: string,
    risk: Risk, decision: Decision, signal: Signal,
    evidence: seq<Item>, evidenceVerdict: Verdict, contradictions: seq<Contradiction>,
    worldVersion: Option<string>,
    approval: Option<ApprovalRecord>, execution: Option<ExecutionRecord>, outcome: Option<Json>,
    expiresAt: int, consumedAt: Option<int>, signature: string,
    startedAt: Option<int>, authority: Option<Authority>, reconciliation: Option<Reconciliation>,
    auditEventHash: Option<string>)
}
