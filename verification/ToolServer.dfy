/** The protected tool of `tool_server.py`: it checks an execution authority against the
    payload, the gate's stored decision and the current world, and then claims its nonce. */
module ToolServer {
  import opened Prelude
  import opened EvidenceGate
  import opened Policy
  import opened Records
  import opened Storage
  import opened GateHandlers

  /** What the authority header held. */
  datatype Token = NoToken | MalformedToken | Parsed(authority: Authority)

  /** A row of `used_authorities`, keyed by nonce; times in seconds. */
  datatype UsedAuthority = UsedAuthority(decisionId: string, expiresAt: int, usedAt: int)

  datatype ToolConfig = ToolConfig(
    gate: Config, secretReady: bool, worldRevalidation: bool, jsonDigest: map<string, Json> -> string)

  datatype ToolCall = ToolCall(
    token: Token, tenantId: Option<string>, payload: map<string, Json>,
    actionDigest: Option<string>, policyDigest: Option<string>)

  datatype ToolFault =
    | VerificationNotConfigured | DirectAccessRejected | MalformedAuthority | BindingRequired
    | InvalidSignature | TenantMismatch | ExpiredOrNotYetValid | NotExecutable
    | ActionBindingMismatch | PolicyBindingMismatch
    | RevalidationNotConfigured | RevalidationUnavailable | EvidenceMismatch | AuthorityMismatch
    | ParametersMismatch | WorldVersionMissing | WorldStateChanged | NonceReuse

  /** `verify_authority` and its wrapper: signature, tenant, time window, decision, action. */
  function EnvelopeFault(cfg: Config, a: Authority, tenant: string, actionDigest: string, now: int): Option<ToolFault> {
    var current := now / SECOND;
    if a.signature != cfg.tag(a.(signature := "")) then Some(InvalidSignature)
    else if a.tenantId != tenant then Some(TenantMismatch)
    else if current >= a.expiresAt || current < a.issuedAt then Some(ExpiredOrNotYetValid)
    else if a.decision != Allow then Some(NotExecutable)
    else if a.actionDigest != actionDigest then Some(ActionBindingMismatch)
    else None
  }

  /** Digests the call is bound to: of the action and policy in the payload, or the headers. */
  function BoundDigests(cfg: ToolConfig, call: ToolCall): Option<(string, string)> {
    if Get(call.payload, "action").JObject? && Get(call.payload, "policy").JObject? then
      Some((cfg.jsonDigest(Get(call.payload, "action").fields), cfg.jsonDigest(Get(call.payload, "policy").fields)))
    else if Truthy(call.actionDigest) && Truthy(call.policyDigest) then
      Some((call.actionDigest.value, call.policyDigest.value))
    else None
  }

  function OptionalString(s: Option<string>): Json {
    if s.Some? then JString(s.value) else JNull
  }

  /** The tool arguments inside a payload: of a JSON-RPC call, of a signed execution
      envelope, or the whole body; an error if they name another tool or target. */
  function ActualParameters(payload: map<string, Json>, tenant: string, req: ActionRequest)
    : Result<map<string, Json>, ToolFault>
  {
    if Get(payload, "jsonrpc") == JString("2.0") && Get(payload, "method") == JString("tools/call") then
      var params := Get(payload, "params");
      if !params.JObject? || Get(params.fields, "name") != JString(req.action) then Err(ActionBindingMismatch)
      else
        var arguments := Get(params.fields, "arguments");
        if !arguments.JObject? || Get(arguments.fields, "target") != OptionalString(req.target) then
          Err(ParametersMismatch)
        else Ok(arguments.fields)
    else if Get(payload, "tenant_id") == JString(tenant) && Get(payload, "action").JString?
         && Get(payload, "target").JString? && Get(payload, "parameters").JObject? then
      if Get(payload, "action") != JString(req.action) || Get(payload, "target") != OptionalString(req.target) then
        Err(ActionBindingMismatch)
      else Ok(Get(payload, "parameters").fields)
    else Ok(payload)
  }

  /** `_verify_live_world_binding`: the stored decision and the current world, read back from the gate. */
  function LiveFault(cfg: ToolConfig, t: Tables, world: Option<string>, a: Authority, tenant: string,
                     payload: map<string, Json>, actionDigest: string, policyDigest: string): Option<ToolFault>
  {
    if !cfg.worldRevalidation then Some(RevalidationNotConfigured)
    else
      var loaded := Load(cfg.gate, t, a.decisionId, tenant);
      if loaded.Refused? then Some(RevalidationUnavailable)
      else
        var r := loaded.record;
        if r.tenantId != tenant || r.decision != Allow then Some(EvidenceMismatch)
        else if r.nonce != a.nonce || r.decisionId != a.decisionId then Some(AuthorityMismatch)
        else if r.actionHash != a.actionDigest || r.actionHash != actionDigest then Some(ActionBindingMismatch)
        else if r.policyHash != policyDigest then Some(PolicyBindingMismatch)
        else
          var actual := ActualParameters(payload, tenant, r.request);
          if actual.Err? then Some(actual.error)
          else if r.request.parameters != actual.value then Some(ParametersMismatch)
          else if !Truthy(r.worldVersion) then Some(WorldVersionMissing)
          else if world == None then Some(RevalidationUnavailable)
          else if world != r.worldVersion then Some(WorldStateChanged)
          else None
  }

  /** Everything that is checked before the nonce is claimed. */
  function CallFault(cfg: ToolConfig, t: Tables, world: Option<string>, call: ToolCall, now: int): Option<ToolFault> {
    if !cfg.secretReady then Some(VerificationNotConfigured)
    else if call.token.NoToken? || !Truthy(call.tenantId) then Some(DirectAccessRejected)
    else if call.token.MalformedToken? then Some(MalformedAuthority)
    else if BoundDigests(cfg, call) == None then Some(BindingRequired)
    else
      var a, tenant := call.token.authority, call.tenantId.value;
      var (actionDigest, policyDigest) := BoundDigests(cfg, call).value;
      if EnvelopeFault(cfg.gate, a, tenant, actionDigest, now).Some? then
        EnvelopeFault(cfg.gate, a, tenant, actionDigest, now)
      else if a.policyDigest != policyDigest then Some(PolicyBindingMismatch)
      else if "tenant_id" in call.payload && call.payload["tenant_id"] != JString(tenant) then Some(TenantMismatch)
      else LiveFault(cfg, t, world, a, tenant, call.payload, actionDigest, policyDigest)
  }

  /** Rows that survive the purge at the start of a claim. */
  function Unexpired(used: map<string, UsedAuthority>, now: int): map<string, UsedAuthority> {
    map n | n in used && used[n].expiresAt > now :: used[n]
  }

  /** `_claim_nonce` at `now` seconds; a reused nonce rolls the purge back too. */
  function ClaimNonce(used: map<string, UsedAuthority>, nonce: string, decisionId: string, expiresAt: int, now: int)
    : (map<string, UsedAuthority>, bool)
  {
    var kept := Unexpired(used, now);
    if nonce in kept then (used, false)
    else (kept[nonce := UsedAuthority(decisionId, expiresAt, now)], true)
  }

  /** `verify_execution_authority`, one call with one clock reading; `None` is acceptance. */
  function Serve(cfg: ToolConfig, t: Tables, world: Option<string>, used: map<string, UsedAuthority>,
                 call: ToolCall, now: int)
    : (map<string, UsedAuthority>, Option<ToolFault>)
  {
    var fault := CallFault(cfg, t, world, call, now);
    if fault.Some? then (used, fault)
    else
      var a := call.token.authority;
      var (used', claimed) := ClaimNonce(used, a.nonce, a.decisionId, a.expiresAt, now / SECOND);
      (used', if claimed then None else Some(NonceReuse))
  }

  // ---- what acceptance means ----

  /** `target` stands in the arguments as in the request; an absent one reads as null. */
  predicate TargetIs(fields: map<string, Json>, target: Option<string>) {
    match target
    case Some(text) => "target" in fields && fields["target"] == JString(text)
    case None => "target" in fields ==> fields["target"] == JNull
  }

  /** A JSON-RPC tool call. */
  predicate IsToolsCall(payload: map<string, Json>) {
    && "jsonrpc" in payload && payload["jsonrpc"] == JString("2.0")
    && "method" in payload && payload["method"] == JString("tools/call")
  }

  /** A signed execution envelope of this tenant. */
  predicate IsEnvelope(payload: map<string, Json>, tenant: string) {
    && "tenant_id" in payload && payload["tenant_id"] == JString(tenant)
    && "action" in payload && payload["action"].JString? && "target" in payload && payload["target"].JString?
    && "parameters" in payload && payload["parameters"].JObject?
  }

  /** The payload calls the evaluated tool, on the evaluated target, with exactly the evaluated arguments. */
  ghost predicate CarriesParameters(call: ToolCall, tenant: string, req: ActionRequest) {
    var payload := call.payload;
    if IsToolsCall(payload) then
      && "params" in payload && payload["params"].JObject?
      && var params := payload["params"].fields;
         && "name" in params && params["name"] == JString(req.action)
         && "arguments" in params && params["arguments"] == JObject(req.parameters)
         && TargetIs(req.parameters, req.target)
    else if IsEnvelope(payload, tenant) then
      && payload["action"] == JString(req.action) && Some(payload["target"].s) == req.target
      && payload["parameters"] == JObject(req.parameters)
    else payload == req.parameters
  }

  /** The search for the arguments finds the evaluated ones exactly in such payloads. */
  lemma {:induction false} ParametersIff(call: ToolCall, tenant: string, req: ActionRequest)
    ensures ActualParameters(call.payload, tenant, req) == Ok(req.parameters) <==> CarriesParameters(call, tenant, req)
  {
    var payload := call.payload;
    assert Get(payload, "params") == (if "params" in payload then payload["params"] else JNull);
  }

  /** The call names these digests: of action and policy objects in the payload if both are there,
      else by two headers that are not empty. */
  ghost predicate NamesDigests(cfg: ToolConfig, call: ToolCall, actionDigest: string, policyDigest: string) {
    var payload := call.payload;
    if "action" in payload && payload["action"].JObject? && "policy" in payload && payload["policy"].JObject? then
      && actionDigest == cfg.jsonDigest(payload["action"].fields)
      && policyDigest == cfg.jsonDigest(payload["policy"].fields)
    else
      && call.actionDigest == Some(actionDigest) && actionDigest != ""
      && call.policyDigest == Some(policyDigest) && policyDigest != ""
  }

  /** The token is genuine, in its window, and for this tenant and these digests. */
  ghost predicate TokenHolds(cfg: ToolConfig, call: ToolCall, a: Authority, now: int) {
    && cfg.secretReady && call.tenantId == Some(a.tenantId) && a.tenantId != ""
    && a.signature == cfg.gate.tag(a.(signature := ""))
    && a.issuedAt * 1_000_000 <= now < a.expiresAt * 1_000_000 && a.decision == Allow
    && NamesDigests(cfg, call, a.actionDigest, a.policyDigest)
    && ("tenant_id" in call.payload ==> call.payload["tenant_id"] == JString(a.tenantId))
  }

  /** The gate's stored decision is the one of the token, still permitted and genuine, was made on
      this payload, and its world is the current one. */
  ghost predicate DecisionHolds(cfg: ToolConfig, t: Tables, world: Option<string>, call: ToolCall, a: Authority) {
    && cfg.worldRevalidation && a.decisionId in t.records
    && var r := t.records[a.decisionId];
       && r.decisionId == a.decisionId && r.tenantId == a.tenantId && r.nonce == a.nonce && r.decision == Allow
       && r.signature == cfg.gate.sign(SignedPart(r.decisionId, r.tenantId, r.actionHash, r.policyHash, r.nonce,
                                                  r.expiresAt))
       && r.actionHash == a.actionDigest && r.policyHash == a.policyDigest
       && CarriesParameters(call, a.tenantId, r.request)
       && r.worldVersion.Some? && r.worldVersion.value != "" && world == r.worldVersion
  }

  /** Before the nonce is claimed, the tool finds nothing wrong exactly with these calls. */
  lemma {:induction false} FaultlessIff(cfg: ToolConfig, t: Tables, world: Option<string>, call: ToolCall, now: int)
    ensures CallFault(cfg, t, world, call, now) == None <==>
      && call.token.Parsed? && TokenHolds(cfg, call, call.token.authority, now)
      && DecisionHolds(cfg, t, world, call, call.token.authority)
  {
    hide ActualParameters, CarriesParameters, EnvelopeFault, LiveFault;
    if call.token.Parsed? {
      DigestsIff(cfg, call);
      EnvelopeIff(cfg, call.token.authority, call, now);
      if cfg.secretReady && Truthy(call.tenantId) && BoundDigests(cfg, call).Some? {
        var (x, y) := BoundDigests(cfg, call).value;
        var a := call.token.authority;
        if call.tenantId == Some(a.tenantId) && x == a.actionDigest && y == a.policyDigest {
          LiveIff(cfg, t, world, a, call, x, y);
        }
      }
    }
  }

  lemma {:induction false} DigestsIff(cfg: ToolConfig, call: ToolCall)
    ensures forall x, y :: BoundDigests(cfg, call) == Some((x, y)) <==> NamesDigests(cfg, call, x, y)
  {
  }

  lemma {:induction false} EnvelopeIff(cfg: ToolConfig, a: Authority, call: ToolCall, now: int)
    ensures forall tenant, digest ::
      EnvelopeFault(cfg.gate, a, tenant, digest, now) == None <==>
        && a.signature == cfg.gate.tag(a.(signature := "")) && a.tenantId == tenant && a.actionDigest == digest
        && a.issuedAt * 1_000_000 <= now < a.expiresAt * 1_000_000 && a.decision == Allow
  {
  }

  lemma {:induction false} LiveIff(cfg: ToolConfig, t: Tables, world: Option<string>, a: Authority, call: ToolCall,
                                   actionDigest: string, policyDigest: string)
    requires call.tenantId == Some(a.tenantId)
    requires actionDigest == a.actionDigest && policyDigest == a.policyDigest
    ensures LiveFault(cfg, t, world, a, a.tenantId, call.payload, actionDigest, policyDigest) == None <==>
      DecisionHolds(cfg, t, world, call, a)
  {
    hide ActualParameters, CarriesParameters;
    if a.decisionId in t.records {
      ParametersIff(call, a.tenantId, t.records[a.decisionId].request);
    }
  }

  /** What a fault says of the call. */
  ghost predicate IsTrueOf(cfg: ToolConfig, t: Tables, world: Option<string>, call: ToolCall, now: int,
                           fault: ToolFault)
  {
    match fault
    case VerificationNotConfigured => !cfg.secretReady
    case DirectAccessRejected => call.token == NoToken || call.tenantId == None || call.tenantId == Some("")
    case MalformedAuthority => call.token == MalformedToken
    case BindingRequired => forall x, y :: !NamesDigests(cfg, call, x, y)
    case RevalidationNotConfigured => !cfg.worldRevalidation
    case _ => call.token.Parsed? && IsTrueOfToken(cfg, t, world, call, call.token.authority, now, fault)
  }

  ghost predicate IsTrueOfToken(cfg: ToolConfig, t: Tables, world: Option<string>, call: ToolCall, a: Authority,
                                now: int, fault: ToolFault)
  {
    var stored := a.decisionId in t.records;
    match fault
    case InvalidSignature => a.signature != cfg.gate.tag(a.(signature := ""))
    case TenantMismatch =>
      || call.tenantId != Some(a.tenantId)
      || ("tenant_id" in call.payload && call.payload["tenant_id"] != JString(a.tenantId))
    case ExpiredOrNotYetValid => now < a.issuedAt * 1_000_000 || a.expiresAt * 1_000_000 <= now
    case NotExecutable => a.decision != Allow
    case ActionBindingMismatch =>
      || (forall y :: !NamesDigests(cfg, call, a.actionDigest, y))
      || (stored && t.records[a.decisionId].actionHash != a.actionDigest)
      || (stored && !CarriesParameters(call, a.tenantId, t.records[a.decisionId].request))
    case PolicyBindingMismatch =>
      || (forall x :: !NamesDigests(cfg, call, x, a.policyDigest))
      || (stored && t.records[a.decisionId].policyHash != a.policyDigest)
    case RevalidationUnavailable =>
      || !stored || t.records[a.decisionId].tenantId != a.tenantId || world == None
      || t.records[a.decisionId].signature != cfg.gate.sign(SignedPartOf(t.records[a.decisionId]))
    case EvidenceMismatch => stored && t.records[a.decisionId].decision != Allow
    case AuthorityMismatch =>
      stored && (t.records[a.decisionId].nonce != a.nonce || t.records[a.decisionId].decisionId != a.decisionId)
    case ParametersMismatch => stored && !CarriesParameters(call, a.tenantId, t.records[a.decisionId].request)
    case WorldVersionMissing =>
      stored && (t.records[a.decisionId].worldVersion == None || t.records[a.decisionId].worldVersion == Some(""))
    case WorldStateChanged => stored && world != t.records[a.decisionId].worldVersion
    case _ => false
  }

  /** No fault is found that is not there. */
  lemma {:induction false} FaultsAreTrue(cfg: ToolConfig, t: Tables, world: Option<string>, call: ToolCall, now: int)
    ensures var fault := CallFault(cfg, t, world, call, now);
      fault.Some? ==> IsTrueOf(cfg, t, world, call, now, fault.value)
  {
    hide ActualParameters, NamesDigests, BoundDigests, EnvelopeFault, LiveFault, IsTrueOfToken;
    DigestsIff(cfg, call);
    if call.token.Parsed? && call.tenantId.Some? && BoundDigests(cfg, call).Some? {
      var a := call.token.authority;
      var (x, y) := BoundDigests(cfg, call).value;
      assert NamesDigests(cfg, call, x, y);
      EnvelopeFaultIsTrue(cfg, t, world, call, a, x, y, now);
    }
  }

  lemma {:induction false} EnvelopeFaultIsTrue(cfg: ToolConfig, t: Tables, world: Option<string>, call: ToolCall,
                                               a: Authority, x: string, y: string, now: int)
    requires call.tenantId.Some? && NamesDigests(cfg, call, x, y)
    ensures var fault := EnvelopeFault(cfg.gate, a, call.tenantId.value, x, now);
      fault.Some? ==> IsTrueOfToken(cfg, t, world, call, a, now, fault.value) && !Early(fault.value)
    ensures a.policyDigest != y ==> IsTrueOfToken(cfg, t, world, call, a, now, PolicyBindingMismatch)
    ensures EnvelopeFault(cfg.gate, a, call.tenantId.value, x, now) == None && a.policyDigest == y ==>
      && ("tenant_id" in call.payload && call.payload["tenant_id"] != JString(call.tenantId.value) ==>
           IsTrueOfToken(cfg, t, world, call, a, now, TenantMismatch))
      && var fault := LiveFault(cfg, t, world, a, call.tenantId.value, call.payload, x, y);
         && (fault == Some(RevalidationNotConfigured) ==> !cfg.worldRevalidation)
         && (fault.Some? && fault != Some(RevalidationNotConfigured) ==>
              IsTrueOfToken(cfg, t, world, call, a, now, fault.value) && !Early(fault.value))
  {
    hide ActualParameters, CarriesParameters, LiveFault;
    OneDigest(cfg, call, x, y);
    hide NamesDigests;
    if EnvelopeFault(cfg.gate, a, call.tenantId.value, x, now) == None && a.policyDigest == y {
      LiveFaultIsTrue(cfg, t, world, call, a, now);
    }
  }

  /** Faults of the call rather than of its token. */
  predicate Early(fault: ToolFault) {
    fault in {VerificationNotConfigured, DirectAccessRejected, MalformedAuthority, BindingRequired,
              RevalidationNotConfigured}
  }

  lemma {:induction false} OneDigest(cfg: ToolConfig, call: ToolCall, x: string, y: string)
    requires NamesDigests(cfg, call, x, y)
    ensures forall x', y' :: NamesDigests(cfg, call, x', y') ==> x' == x && y' == y
  {
  }

  lemma {:induction false} LiveFaultIsTrue(cfg: ToolConfig, t: Tables, world: Option<string>, call: ToolCall,
                                           a: Authority, now: int)
    ensures var fault := LiveFault(cfg, t, world, a, a.tenantId, call.payload, a.actionDigest, a.policyDigest);
      && (fault == Some(RevalidationNotConfigured) ==> !cfg.worldRevalidation)
      && (fault.Some? && fault != Some(RevalidationNotConfigured) ==>
           IsTrueOfToken(cfg, t, world, call, a, now, fault.value) && !Early(fault.value))
  {
    hide ActualParameters, CarriesParameters, NamesDigests, SignedPartOf;
    if a.decisionId in t.records {
      ParametersIff(call, a.tenantId, t.records[a.decisionId].request);
      WrongArguments(call.payload, a.tenantId, t.records[a.decisionId].request);
    }
  }

  lemma {:induction false} WrongArguments(payload: map<string, Json>, tenant: string, req: ActionRequest)
    ensures var found := ActualParameters(payload, tenant, req);
      found.Err? ==> found.error == ActionBindingMismatch || found.error == ParametersMismatch
  {
  }

  /** `verify_execution_authority`, in full: the calls it accepts, and what it remembers of them. */
  lemma {:induction false} ServeIff(cfg: ToolConfig, t: Tables, world: Option<string>,
                                    used: map<string, UsedAuthority>, call: ToolCall, now: int)
    ensures var (used', fault) := Serve(cfg, t, world, used, call, now);
      && (fault == None <==>
           && call.token.Parsed? && TokenHolds(cfg, call, call.token.authority, now)
           && DecisionHolds(cfg, t, world, call, call.token.authority)
           && var n := call.token.authority.nonce; n in used ==> used[n].expiresAt * 1_000_000 <= now)
      && (fault != None ==> used' == used)
      && (fault == None ==>
           var a := call.token.authority;
           forall n ::
             && (n in used' <==> n == a.nonce || (n in used && now < used[n].expiresAt * 1_000_000))
             && (n in used' ==>
                  used'[n] == (if n == a.nonce then UsedAuthority(a.decisionId, a.expiresAt, now / 1_000_000)
                               else used[n])))
  {
    hide CallFault, TokenHolds, DecisionHolds;
    FaultlessIff(cfg, t, world, call, now);
    if CallFault(cfg, t, world, call, now) == None {
      var kept := Unexpired(used, now / SECOND);
      forall n | n in used ensures n in kept <==> now < used[n].expiresAt * 1_000_000 {
        assert used[n].expiresAt > now / SECOND <==> now < used[n].expiresAt * SECOND;
      }
    }
  }

  class NonceRegistry {
    var used: map<string, UsedAuthority>

    constructor ()
      ensures used == map[]
    {
      used := map[];
    }

    method Claim(nonce: string, decisionId: string, expiresAt: int, now: int) returns (claimed: bool)
      modifies this
      ensures (used, claimed) == ClaimNonce(old(used), nonce, decisionId, expiresAt, now)
      ensures claimed ==> nonce in used
      ensures !claimed ==> used == old(used)
    {
      var before := used;
      used := map n | n in used && used[n].expiresAt > now :: used[n];
      if nonce in used {
        used := before;
        return false;
      }
      used := used[nonce := UsedAuthority(decisionId, expiresAt, now)];
      claimed := true;
    }

    /** `verify_authority_envelope`; `None` is success. */
    static method VerifyEnvelope(cfg: Config, a: Authority, tenant: string, actionDigest: string, now: int)
      returns (fault: Option<ToolFault>)
      ensures fault == EnvelopeFault(cfg, a, tenant, actionDigest, now)
    {
      var current := now / SECOND;
      var expected := cfg.tag(a.(signature := ""));
      if a.signature != expected {
        return Some(InvalidSignature);
      }
      if a.tenantId != tenant {
        return Some(TenantMismatch);
      }
      if current >= a.expiresAt || current < a.issuedAt {
        return Some(ExpiredOrNotYetValid);
      }
      if a.decision != Allow {
        return Some(NotExecutable);
      }
      if a.actionDigest != actionDigest {
        return Some(ActionBindingMismatch);
      }
      fault := None;
    }

    /** The tool arguments inside a payload. */
    static method FindArguments(payload: map<string, Json>, tenant: string, req: ActionRequest)
      returns (arguments: Result<map<string, Json>, ToolFault>)
      ensures arguments == ActualParameters(payload, tenant, req)
    {
      if Get(payload, "jsonrpc") == JString("2.0") && Get(payload, "method") == JString("tools/call") {
        var params := Get(payload, "params");
        if !params.JObject? || Get(params.fields, "name") != JString(req.action) {
          return Err(ActionBindingMismatch);
        }
        var passed := Get(params.fields, "arguments");
        if !passed.JObject? || Get(passed.fields, "target") != OptionalString(req.target) {
          return Err(ParametersMismatch);
        }
        return Ok(passed.fields);
      }
      if Get(payload, "tenant_id") == JString(tenant) && Get(payload, "action").JString?
         && Get(payload, "target").JString? && Get(payload, "parameters").JObject? {
        if Get(payload, "action") != JString(req.action) || Get(payload, "target") != OptionalString(req.target) {
          return Err(ActionBindingMismatch);
        }
        return Ok(Get(payload, "parameters").fields);
      }
      arguments := Ok(payload);
    }

    /** `_verify_live_world_binding`; `None` is success. */
    static method VerifyLiveWorldBinding(cfg: ToolConfig, t: Tables, world: Option<string>, a: Authority,
                                         tenant: string,
                                         payload: map<string, Json>, actionDigest: string, policyDigest: string)
      returns (fault: Option<ToolFault>)
      ensures fault == LiveFault(cfg, t, world, a, tenant, payload, actionDigest, policyDigest)
    {
      if !cfg.worldRevalidation {
        return Some(RevalidationNotConfigured);
      }
      var loaded := Load(cfg.gate, t, a.decisionId, tenant);
      if loaded.Refused? {
        return Some(RevalidationUnavailable);
      }
      var record := loaded.record;
      if record.tenantId != tenant || record.decision != Allow {
        return Some(EvidenceMismatch);
      }
      if record.nonce != a.nonce || record.decisionId != a.decisionId {
        return Some(AuthorityMismatch);
      }
      if record.actionHash != a.actionDigest || record.actionHash != actionDigest {
        return Some(ActionBindingMismatch);
      }
      if record.policyHash != policyDigest {
        return Some(PolicyBindingMismatch);
      }
      var actual := FindArguments(payload, tenant, record.request);
      if actual.Err? {
        return Some(actual.error);
      }
      if record.request.parameters != actual.value {
        return Some(ParametersMismatch);
      }
      if record.worldVersion == None || record.worldVersion.value == "" {
        return Some(WorldVersionMissing);
      }
      if world == None {
        return Some(RevalidationUnavailable);
      }
      if world != record.worldVersion {
        return Some(WorldStateChanged);
      }
      fault := None;
    }

    /** `verify_execution_authority`: the first check that fails, or the claim of the nonce. */
    method VerifyExecutionAuthority(cfg: ToolConfig, t: Tables, world: Option<string>, call: ToolCall, now: int)
      returns (fault: Option<ToolFault>)
      modifies this
      ensures (used, fault) == Serve(cfg, t, world, old(used), call, now)
    {
      hide ActualParameters, EnvelopeFault, LiveFault, ClaimNonce;
      if !cfg.secretReady {
        return Some(VerificationNotConfigured);
      }
      if call.token.NoToken? || call.tenantId == None || call.tenantId.value == "" {
        return Some(DirectAccessRejected);
      }
      if call.token.MalformedToken? {
        return Some(MalformedAuthority);
      }
      var a, tenant, payload := call.token.authority, call.tenantId.value, call.payload;
      var actionDigest, policyDigest: string;
      if Get(payload, "action").JObject? && Get(payload, "policy").JObject? {
        actionDigest := cfg.jsonDigest(Get(payload, "action").fields);
        policyDigest := cfg.jsonDigest(Get(payload, "policy").fields);
      } else if Truthy(call.actionDigest) && Truthy(call.policyDigest) {
        actionDigest, policyDigest := call.actionDigest.value, call.policyDigest.value;
      } else {
        return Some(BindingRequired);
      }
      fault := VerifyEnvelope(cfg.gate, a, tenant, actionDigest, now);
      if fault.Some? {
        return;
      }
      if a.policyDigest != policyDigest {
        return Some(PolicyBindingMismatch);
      }
      if "tenant_id" in payload && payload["tenant_id"] != JString(tenant) {
        return Some(TenantMismatch);
      }
      fault := VerifyLiveWorldBinding(cfg, t, world, a, tenant, payload, actionDigest, policyDigest);
      if fault.Some? {
        return;
      }
      var claimed := Claim(a.nonce, a.decisionId, a.expiresAt, now / SECOND);
      if !claimed {
        fault := Some(NonceReuse);
      }
    }
  }
}
