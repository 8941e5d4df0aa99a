/** Exactly when the tool accepts an authority that the gate issued. */
module GateAcceptance {
  import opened Prelude
  import opened EvidenceGate
  import opened Policy
  import opened Records
  import opened Storage
  import opened StateOracle
  import opened GateHandlers
  import opened ToolServer
  import opened GateInvariant
  import opened GateRuns
  import opened GateTheorems

  /** Apart from its token, the call is one for the stored decision `r`, in the decision's world. */
  ghost predicate Matches(cfg: ToolConfig, r: Record, world: Option<string>, call: ToolCall) {
    && cfg.secretReady && cfg.worldRevalidation
    && r.tenantId != "" && call.tenantId == Some(r.tenantId)
    && NamesDigests(cfg, call, r.actionHash, r.policyHash)
    && ("tenant_id" in call.payload ==> call.payload["tenant_id"] == JString(r.tenantId))
    && CarriesParameters(call, r.tenantId, r.request)
    && Truthy(r.worldVersion) && world == r.worldVersion
  }

  /** A call that presents the authority `a` of the stored decision `r` as it should be. */
  ghost predicate Presents(cfg: ToolConfig, r: Record, world: Option<string>, call: ToolCall, a: Authority, now: int) {
    Matches(cfg, r, world, call) && a.issuedAt <= now / SECOND < a.expiresAt
  }

  /** The authority carries the identity and hashes of the record, under a valid tag. */
  ghost predicate Fits(cfg: Config, r: Record, a: Authority) {
    AuthorityOk(cfg, r.(authority := Some(a)))
  }

  /** With an authority issued for a decision that is still permitted, all other checks of the tool
      pass by themselves. */
  lemma {:induction false} GenuineCallFault(cfg: ToolConfig, t: Tables, world: Option<string>, call: ToolCall,
                                            a: Authority, now: int)
    requires call.token == Parsed(a) && a.decisionId in t.records
    requires Bound(cfg.gate, t.records[a.decisionId]) && Fits(cfg.gate, t.records[a.decisionId], a)
    ensures CallFault(cfg, t, world, call, now) == None <==>
      t.records[a.decisionId].decision == Allow && Presents(cfg, t.records[a.decisionId], world, call, a, now)
  {
    hide CallFault, CarriesParameters, NamesDigests;
    FaultlessIff(cfg, t, world, call, now);
  }

  /** The tool accepts some call with this nonce. */
  ghost predicate Claims(cfg: ToolConfig, run: seq<Action>, i: nat, nonce: string) {
    && i < |run| && run[i].Calling? && run[i].call.token.Parsed? && run[i].call.token.authority.nonce == nonce
    && ReplyAt(cfg, run, i) == Served(None)
  }

  lemma {:induction false} NewNoncesAreClaimed(cfg: ToolConfig, run: seq<Action>, i: nat, nonce: string)
    requires IsRun(cfg, run) && i < |run|
    requires nonce in At(cfg, run, i + 1).used && nonce !in At(cfg, run, i).used
    ensures Claims(cfg, run, i, nonce)
  {
    hide Inv, Follows, State, Evaluate, Approve, ExecutionReserve, Execution, ExecutionReconcile, BoundDigests,
      LiveFault, EnvelopeFault;
    RunAt(cfg, run, i);
  }

  lemma {:induction false} NonceHasOrigin(cfg: ToolConfig, run: seq<Action>, j: nat, nonce: string) returns (i: nat)
    requires IsRun(cfg, run) && j <= |run| && nonce in At(cfg, run, j).used
    ensures i < j && Claims(cfg, run, i, nonce)
    decreases j
  {
    hide Step, IsRun, Claims;
    assert j > 0;
    if nonce in At(cfg, run, j - 1).used {
      i := NonceHasOrigin(cfg, run, j - 1, nonce);
    } else {
      NewNoncesAreClaimed(cfg, run, j - 1, nonce);
      i := j - 1;
    }
  }

  /** What is stored with an issued authority. */
  lemma {:induction false} IssuedIsStored(cfg: ToolConfig, run: seq<Action>, j: nat, a: Authority)
    requires IsRun(cfg, run) && j <= |run| && a in At(cfg, run, j).issued
    ensures a.decisionId in At(cfg, run, j).tables.records
    ensures var r := At(cfg, run, j).tables.records[a.decisionId];
      r.authority == Some(a) && r.decisionId == a.decisionId && r.nonce == a.nonce && RecordOk(cfg.gate, r)
  {
    hide State, Step, IsRun, RecordOk, Agreeing;
    PrefixIsRun(cfg, run, j);
    RunKeepsInv(cfg, run[..j]);
  }

  /** A claim of a decision's nonce was an accepted call for that decision. */
  lemma {:induction false} ClaimIsForDecision(cfg: ToolConfig, run: seq<Action>, i: nat, j: nat, a: Authority)
    requires IsRun(cfg, run) && i < j <= |run| && Claims(cfg, run, i, a.nonce) && a in At(cfg, run, j).issued
    ensures Accepts(cfg, run, i, a.decisionId)
  {
    hide State, Step, IsRun, RecordOk, Agreeing, CarriesParameters;
    var token := run[i].call.token.authority;
    AcceptedCall(cfg, run, i, token.decisionId);
    RunMovesOn(cfg, run, i, j);
    IssuedIsStored(cfg, run, j, token);
    IssuedIsStored(cfg, run, j, a);
    PrefixIsRun(cfg, run, j);
    RunKeepsInv(cfg, run[..j]);
  }

  ghost predicate AcceptedBefore(cfg: ToolConfig, run: seq<Action>, j: nat, d: string) {
    exists i :: 0 <= i < j && Accepts(cfg, run, i, d)
  }

  /** In every run, a call with an authority that the gate issued is accepted exactly when it
      presents it as evaluated, in time and in the same world, and no call for that decision
      was accepted before. */
  lemma {:induction false} GenuineCallAcceptedIff(cfg: ToolConfig, run: seq<Action>, j: nat, a: Authority)
    requires IsRun(cfg, run) && j < |run| && run[j].Calling? && run[j].call.token == Parsed(a)
    requires a in At(cfg, run, j).issued
    ensures a.decisionId in At(cfg, run, j).tables.records
    ensures ReplyAt(cfg, run, j) == Served(None) <==>
      && Presents(cfg, At(cfg, run, j).tables.records[a.decisionId], CurrentVersion(At(cfg, run, j).snapshots),
                  run[j].call, a, run[j].now)
      && !AcceptedBefore(cfg, run, j, a.decisionId)
  {
    hide State, IsRun, RecordOk, Bound, Agreeing, CallFault, Presents, Accepts, Claims;
    var s, call, now := At(cfg, run, j), run[j].call, run[j].now;
    var fault := CallFault(cfg, s.tables, CurrentVersion(s.snapshots), call, now);
    IssuedIsStored(cfg, run, j, a);
    StoredFits(cfg.gate, s.tables.records[a.decisionId], a);
    GenuineCallFault(cfg, s.tables, CurrentVersion(s.snapshots), call, a, now);
    if fault == None {
      ServedIff(cfg, run, j, a);
    }
  }

  lemma {:induction false} StoredFits(cfg: Config, r: Record, a: Authority)
    requires RecordOk(cfg, r) && r.authority == Some(a)
    ensures Fits(cfg, r, a) && Bound(cfg, r) && r.decision == Allow
  {
  }

  lemma {:induction false} ServedIff(cfg: ToolConfig, run: seq<Action>, j: nat, a: Authority)
    requires IsRun(cfg, run) && j < |run| && run[j].Calling? && run[j].call.token == Parsed(a)
    requires a in At(cfg, run, j).issued
    requires var s := At(cfg, run, j);
      CallFault(cfg, s.tables, CurrentVersion(s.snapshots), run[j].call, run[j].now) == None
    ensures ReplyAt(cfg, run, j) == Served(None) <==> !AcceptedBefore(cfg, run, j, a.decisionId)
  {
    hide State, IsRun, CallFault, Claims;
    if ReplyAt(cfg, run, j) == Served(None) {
      assert Accepts(cfg, run, j, a.decisionId);
      hide Accepts;
      forall i | 0 <= i < j ensures !Accepts(cfg, run, i, a.decisionId) {
        if Accepts(cfg, run, i, a.decisionId) {
          AcceptedAtMostOnce(cfg, run, i, j, a.decisionId);
        }
      }
    } else {
      hide Accepts;
      assert a.nonce in At(cfg, run, j).used;
      var i := NonceHasOrigin(cfg, run, j, a.nonce);
      ClaimIsForDecision(cfg, run, i, j, a);
    }
  }
}
