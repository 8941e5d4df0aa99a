/** Single use of an execution authority when spent nonces are garbage-collected: the
    gate's registry (`enforcement.py`, `storage.py`) and the tool's (`tool_server.py`),
    each against a registry that never forgets. */
module NonceRetention {
  import opened Prelude
  import opened EvidenceGate
  import opened Policy
  import opened Records
  import opened ToolServer

  /** A row of `authority_nonces`; time in microseconds. */
  datatype Spent = Spent(decisionId: string, consumedAt: int)

  /** One call of `enforce_execution_authority` with a token that parses: what the endpoint
      expects, and the readings of the clock for verification and for consumption. */
  datatype Enforcement = Enforcement(
    authority: Authority, tenant: Option<string>, actionDigest: Option<string>, policyDigest: Option<string>,
    verifiedAt: int, consumedAt: int)

  datatype Op = Enforce(call: Enforcement) | Purge(olderThan: int, at: int)

  predicate InWindow(a: Authority, now: int) {
    a.issuedAt <= now / SECOND < a.expiresAt
  }

  /** `verify_authority` with the optional expectations of the endpoint. */
  predicate Verifies(tag: Authority -> string, call: Enforcement) {
    var a := call.authority;
    && a.signature == tag(a.(signature := ""))
    && (Truthy(call.tenant) ==> a.tenantId == call.tenant.value)
    && InWindow(a, call.verifiedAt)
    && (call.actionDigest.Some? ==> a.actionDigest == call.actionDigest.value)
    && (call.policyDigest.Some? ==> a.policyDigest == call.policyDigest.value)
    && a.decision == Allow
  }

  /** `consume_authority_nonce`: insert or ignore. */
  function Consume(rows: map<string, Spent>, nonce: string, decisionId: string, at: int): (map<string, Spent>, bool) {
    if nonce in rows then (rows, false) else (rows[nonce := Spent(decisionId, at)], true)
  }

  /** `purge_authority_nonces`; a negative retention raises and deletes nothing. */
  function PurgeOld(rows: map<string, Spent>, olderThan: int, at: int): map<string, Spent> {
    if olderThan < 0 then rows
    else map n | n in rows && rows[n].consumedAt >= at - olderThan * SECOND :: rows[n]
  }

  /** One operation on a registry that does or does not forget, and whether it let a tool run. */
  function Step(tag: Authority -> string, forgets: bool, rows: map<string, Spent>, op: Op): (map<string, Spent>, bool) {
    match op
    case Enforce(call) =>
      if Verifies(tag, call) then Consume(rows, call.authority.nonce, call.authority.decisionId, call.consumedAt)
      else (rows, false)
    case Purge(olderThan, at) => (if forgets then PurgeOld(rows, olderThan, at) else rows, false)
  }

  function Rows(tag: Authority -> string, forgets: bool, ops: seq<Op>, k: nat): map<string, Spent>
    requires k <= |ops|
  {
    if k == 0 then map[] else Step(tag, forgets, Rows(tag, forgets, ops, k - 1), ops[k - 1]).0
  }

  /** Operation `k` lets its tool run. */
  function Runs(tag: Authority -> string, forgets: bool, ops: seq<Op>, k: nat): bool
    requires k < |ops|
  {
    Step(tag, forgets, Rows(tag, forgets, ops, k), ops[k]).1
  }

  function FirstReading(op: Op): int { if op.Enforce? then op.call.verifiedAt else op.at }

  function LastReading(op: Op): int { if op.Enforce? then op.call.consumedAt else op.at }

  predicate SameNonce(a: Op, b: Op) {
    a.Enforce? && b.Enforce? && a.call.authority.nonce == b.call.authority.nonce
  }

  /** The operation presents a token with nonce `n`. */
  predicate Presents(op: Op, n: string) {
    op.Enforce? && op.call.authority.nonce == n
  }

  /** The clock does not go back, and no two tokens share a nonce. */
  ghost predicate Proper(ops: seq<Op>) {
    && (forall i :: 0 <= i < |ops| ==> FirstReading(ops[i]) <= LastReading(ops[i]))
    && (forall i, j :: 0 <= i < j < |ops| ==> LastReading(ops[i]) <= FirstReading(ops[j]))
    && (forall i, j :: 0 <= i < |ops| && 0 <= j < |ops| && SameNonce(ops[i], ops[j]) ==>
          ops[i].call.authority == ops[j].call.authority)
  }

  /** No purge keeps nonces for less time than `retention`, no token lives longer than `lifetime`. */
  ghost predicate Within(ops: seq<Op>, retention: int, lifetime: int) {
    forall i :: 0 <= i < |ops| ==>
      match ops[i]
      case Enforce(call) => call.authority.expiresAt - call.authority.issuedAt <= lifetime
      case Purge(olderThan, _) => olderThan >= retention
  }

  /** Every remembered nonce was consumed by an earlier call whose token was then valid. */
  ghost predicate Consumed(ops: seq<Op>, k: nat, rows: map<string, Spent>)
    requires k <= |ops|
  {
    forall n :: n in rows ==> exists i :: 0 <= i < k && ConsumedBy(ops[i], n, rows[n])
  }

  ghost predicate ConsumedBy(op: Op, n: string, row: Spent) {
    && op.Enforce? && op.call.authority.nonce == n && op.call.consumedAt == row.consumedAt
    && InWindow(op.call.authority, op.call.verifiedAt)
  }

  /** The forgetting registry has lost only nonces whose token has expired. */
  ghost predicate OnlyExpiredForgotten(ops: seq<Op>, k: nat, kept: map<string, Spent>, all: map<string, Spent>)
    requires k <= |ops|
  {
    && (forall n :: n in kept ==> n in all && kept[n] == all[n])
    && (forall n, i, j :: n in all && n !in kept && 0 <= i < |ops| && Presents(ops[i], n) && k <= j < |ops| ==>
          ops[i].call.authority.expiresAt <= FirstReading(ops[j]) / SECOND)
  }

  lemma {:induction false} EverythingWasConsumed(tag: Authority -> string, ops: seq<Op>, k: nat)
    requires k <= |ops|
    ensures Consumed(ops, k, Rows(tag, false, ops, k))
  {
    if k > 0 {
      EverythingWasConsumed(tag, ops, k - 1);
      var before, after := Rows(tag, false, ops, k - 1), Rows(tag, false, ops, k);
      forall n | n in after ensures exists i :: 0 <= i < k && ConsumedBy(ops[i], n, after[n]) {
        if n in before {
          var i :| 0 <= i < k - 1 && ConsumedBy(ops[i], n, before[n]);
          assert ConsumedBy(ops[i], n, after[n]);
        } else {
          assert ConsumedBy(ops[k - 1], n, after[n]);
        }
      }
    }
  }

  /** What a purge deletes belongs to a token that has expired by then. */
  lemma {:induction false} PurgedIsExpired(call: Enforcement, olderThan: int, at: int)
    requires call.verifiedAt <= call.consumedAt < at - olderThan * SECOND
    requires InWindow(call.authority, call.verifiedAt)
    requires call.authority.expiresAt - call.authority.issuedAt <= olderThan
    ensures call.authority.expiresAt <= at / SECOND
  {
  }

  /** A row that a purge deletes is of no further use: its token has expired for every later call. */
  lemma {:induction false} PurgedRowIsExpired(ops: seq<Op>, p: nat, lifetime: int, rows: map<string, Spent>,
                                              n: string, i: nat, j: nat)
    requires Proper(ops) && Within(ops, lifetime, lifetime) && p < j < |ops| && ops[p].Purge?
    requires Consumed(ops, p, rows) && n in rows && rows[n].consumedAt < ops[p].at - ops[p].olderThan * SECOND
    requires i < |ops| && Presents(ops[i], n)
    ensures ops[i].call.authority.expiresAt <= FirstReading(ops[j]) / SECOND
  {
    var c :| 0 <= c < p && ConsumedBy(ops[c], n, rows[n]);
    assert SameNonce(ops[c], ops[i]) && FirstReading(ops[c]) <= LastReading(ops[c]);
    assert LastReading(ops[p]) <= FirstReading(ops[j]);
    hide Proper, Within, Consumed;
    PurgedIsExpired(ops[c].call, ops[p].olderThan, ops[p].at);
  }

  lemma {:induction false} PurgeForgetsExpired(tag: Authority -> string, ops: seq<Op>, p: nat, lifetime: int,
                                               kept: map<string, Spent>, all: map<string, Spent>)
    requires Proper(ops) && Within(ops, lifetime, lifetime) && p < |ops| && ops[p].Purge?
    requires OnlyExpiredForgotten(ops, p, kept, all) && Consumed(ops, p, all)
    ensures OnlyExpiredForgotten(ops, p + 1, Step(tag, true, kept, ops[p]).0, all)
  {
    hide Proper, Within, Consumed;
    var kept' := Step(tag, true, kept, ops[p]).0;
    forall n, i, j | n in all && n !in kept' && 0 <= i < |ops| && Presents(ops[i], n) && p + 1 <= j < |ops|
      ensures ops[i].call.authority.expiresAt <= FirstReading(ops[j]) / SECOND
    {
      if n in kept {
        PurgedRowIsExpired(ops, p, lifetime, all, n, i, j);
      }
    }
  }

  lemma {:induction false} OnlyExpiredIsForgotten(tag: Authority -> string, ops: seq<Op>, k: nat, lifetime: int)
    requires Proper(ops) && Within(ops, lifetime, lifetime) && k <= |ops|
    ensures OnlyExpiredForgotten(ops, k, Rows(tag, true, ops, k), Rows(tag, false, ops, k))
    ensures forall i :: 0 <= i < k ==> Runs(tag, true, ops, i) == Runs(tag, false, ops, i)
  {
    hide Proper, Within, OnlyExpiredForgotten;
    if k == 0 {
      NothingForgotten(ops);
    } else {
      OnlyExpiredIsForgotten(tag, ops, k - 1, lifetime);
      var kept, all := Rows(tag, true, ops, k - 1), Rows(tag, false, ops, k - 1);
      if ops[k - 1].Purge? {
        EverythingWasConsumed(tag, ops, k - 1);
        PurgeForgetsExpired(tag, ops, k - 1, lifetime, kept, all);
      } else {
        hide Step;
        StepAgrees(tag, ops, k - 1, kept, all);
      }
    }
  }

  lemma {:induction false} NothingForgotten(ops: seq<Op>)
    ensures OnlyExpiredForgotten(ops, 0, map[], map[])
  {
  }

  /** A call that a forgetful registry would see differently is refused as expired anyway. */
  lemma {:induction false} StepAgrees(tag: Authority -> string, ops: seq<Op>, k: nat, kept: map<string, Spent>,
                                      all: map<string, Spent>)
    requires k < |ops| && ops[k].Enforce? && OnlyExpiredForgotten(ops, k, kept, all)
    ensures Step(tag, true, kept, ops[k]).1 == Step(tag, false, all, ops[k]).1
    ensures Proper(ops) ==>
      OnlyExpiredForgotten(ops, k + 1, Step(tag, true, kept, ops[k]).0, Step(tag, false, all, ops[k]).0)
  {
    var n := ops[k].call.authority.nonce;
    if n in all && n !in kept {
      assert Presents(ops[k], n);
      assert ops[k].call.authority.expiresAt <= FirstReading(ops[k]) / SECOND;
    }
  }

  // ---- exactly which enforcements let their tool run ----

  /** The authority is genuine, for the expected tenant and digests where one is expected, within its
      window, and for a decision that says ALLOW. */
  predicate Warranted(tag: Authority -> string, call: Enforcement) {
    var a := call.authority;
    && tag(Authority(a.decisionId, a.tenantId, a.actionDigest, a.policyDigest, a.nonce, a.issuedAt, a.expiresAt,
                     a.decision, "")) == a.signature
    && (call.tenant == None || call.tenant == Some("") || call.tenant == Some(a.tenantId))
    && (call.actionDigest == None || call.actionDigest == Some(a.actionDigest))
    && (call.policyDigest == None || call.policyDigest == Some(a.policyDigest))
    && a.issuedAt * 1_000_000 <= call.verifiedAt < a.expiresAt * 1_000_000
    && a.decision == Allow
  }

  lemma {:induction false} WarrantedIff(tag: Authority -> string, call: Enforcement)
    ensures Verifies(tag, call) <==> Warranted(tag, call)
  {
    var a := call.authority;
    assert a.(signature := "") == Authority(a.decisionId, a.tenantId, a.actionDigest, a.policyDigest, a.nonce,
                                            a.issuedAt, a.expiresAt, a.decision, "");
  }

  /** No purge between operations `i` and `k` reaches back to what operation `i` consumed. */
  ghost predicate Spared(ops: seq<Op>, i: nat, k: nat)
    requires i < k <= |ops| && ops[i].Enforce?
  {
    forall p :: i < p < k && ops[p].Purge? ==>
      ops[p].olderThan < 0 || ops[p].at - ops[p].olderThan * 1_000_000 <= ops[i].call.consumedAt
  }

  /** Before operation `k`, the registry knows nonce `n` from operation `i`. */
  ghost predicate KnownFrom(tag: Authority -> string, forgets: bool, ops: seq<Op>, k: nat, n: string, i: nat)
    requires k <= |ops|
  {
    i < k && Presents(ops[i], n) && Runs(tag, forgets, ops, i) && (forgets ==> Spared(ops, i, k))
  }

  /** What operation `k` changes about who the registry knows a nonce from. */
  lemma {:induction false} KnownGrows(tag: Authority -> string, forgets: bool, ops: seq<Op>, k: nat, n: string, i: nat)
    requires k < |ops|
    ensures KnownFrom(tag, forgets, ops, k + 1, n, i) <==>
      if i < k then
        && KnownFrom(tag, forgets, ops, k, n, i)
        && (forgets && ops[k].Purge? && ops[k].olderThan >= 0 ==>
             ops[k].at - ops[k].olderThan * SECOND <= ops[i].call.consumedAt)
      else i == k && Presents(ops[k], n) && Runs(tag, forgets, ops, k)
  {
    hide Runs;
  }

  /** The row of a nonce after operation `k`, in terms of the row before. */
  lemma {:induction false} RowGrows(tag: Authority -> string, forgets: bool, ops: seq<Op>, k: nat, n: string)
    requires k < |ops|
    ensures var rows, rows' := Rows(tag, forgets, ops, k), Rows(tag, forgets, ops, k + 1);
      if n in rows then
        && !(Presents(ops[k], n) && Runs(tag, forgets, ops, k))
        && (n in rows' <==>
             (forgets && ops[k].Purge? && ops[k].olderThan >= 0 ==>
                ops[k].at - ops[k].olderThan * SECOND <= rows[n].consumedAt))
        && (n in rows' ==> rows'[n] == rows[n])
      else
        && (n in rows' <==> Presents(ops[k], n) && Runs(tag, forgets, ops, k))
        && (n in rows' ==> rows'[n] == Spent(ops[k].call.authority.decisionId, ops[k].call.consumedAt))
  {
    hide Verifies;
  }

  lemma {:induction false} RowsAreKnown(tag: Authority -> string, forgets: bool, ops: seq<Op>, k: nat, n: string)
    requires k <= |ops|
    ensures n in Rows(tag, forgets, ops, k) <==> exists i: nat :: KnownFrom(tag, forgets, ops, k, n, i)
    ensures forall i: nat :: KnownFrom(tag, forgets, ops, k, n, i) ==>
      Rows(tag, forgets, ops, k)[n] == Spent(ops[i].call.authority.decisionId, ops[i].call.consumedAt)
  {
    if k > 0 {
      var m: nat := k - 1;
      RowsAreKnown(tag, forgets, ops, m, n);
      RowGrows(tag, forgets, ops, m, n);
      hide Rows, Runs;
      forall i: nat | KnownFrom(tag, forgets, ops, k, n, i)
        ensures n in Rows(tag, forgets, ops, k)
        ensures Rows(tag, forgets, ops, k)[n] == Spent(ops[i].call.authority.decisionId, ops[i].call.consumedAt)
      {
        KnownGrows(tag, forgets, ops, m, n, i);
      }
      if n in Rows(tag, forgets, ops, k) {
        if n in Rows(tag, forgets, ops, m) {
          var i: nat :| KnownFrom(tag, forgets, ops, m, n, i);
          KnownGrows(tag, forgets, ops, m, n, i);
          assert KnownFrom(tag, forgets, ops, k, n, i);
        } else {
          KnownGrows(tag, forgets, ops, m, n, m);
          assert KnownFrom(tag, forgets, ops, k, n, m);
        }
      }
    }
  }

  /** Over every sequence of operations: a tool runs exactly if its authority is warranted and no
      earlier operation ran with the same nonce, other than one that a purge has reached since. A
      registry that never forgets has no such exception. */
  lemma {:induction false} RunsIff(tag: Authority -> string, forgets: bool, ops: seq<Op>, k: nat)
    requires k < |ops|
    ensures Runs(tag, forgets, ops, k) <==>
      && ops[k].Enforce? && Warranted(tag, ops[k].call)
      && !exists i: nat :: KnownFrom(tag, forgets, ops, k, ops[k].call.authority.nonce, i)
  {
    if ops[k].Enforce? {
      WarrantedIff(tag, ops[k].call);
      RowsAreKnown(tag, forgets, ops, k, ops[k].call.authority.nonce);
    }
    hide Verifies, Warranted, Rows;
  }

  /** Pruning is invisible: on every proper run within these bounds, the pruned registry lets
      exactly those calls through that a registry without pruning would. */
  ghost predicate PruningIsInvisible(tag: Authority -> string, retention: int, lifetime: int) {
    forall ops, k | Proper(ops) && Within(ops, retention, lifetime) && 0 <= k < |ops| ::
      Runs(tag, true, ops, k) == Runs(tag, false, ops, k)
  }

  /** Accept a token, purge just after `retention`, present the token again. */
  function Replayed(a: Authority, retention: int): seq<Op> {
    var late := retention * SECOND + 1;
    [Enforce(Enforcement(a, None, None, None, 0, 0)),
     Purge(retention, late),
     Enforce(Enforcement(a, None, None, None, late, late))]
  }

  lemma {:induction false} ReplaySucceeds(tag: Authority -> string, a: Authority, retention: int)
    requires 0 <= retention < a.expiresAt && a.issuedAt == 0 && a.decision == Allow
    requires a.signature == tag(a.(signature := ""))
    ensures Proper(Replayed(a, retention))
    ensures Runs(tag, true, Replayed(a, retention), 2) && !Runs(tag, false, Replayed(a, retention), 2)
  {
    var ops := Replayed(a, retention);
    var spent := map[a.nonce := Spent(a.decisionId, 0)];
    assert Verifies(tag, ops[0].call) && Verifies(tag, ops[2].call);
    assert Rows(tag, true, ops, 1) == spent;
    assert Rows(tag, false, ops, 0) == map[] && Rows(tag, false, ops, 1) == spent;
    assert Rows(tag, true, ops, 2) == map[] && Rows(tag, false, ops, 2) == spent;
  }

  /** Retention at least as long as the longest token lifetime is exactly what it takes. */
  lemma {:induction false} RetentionMustCoverLifetime(tag: Authority -> string, retention: int, lifetime: int)
    requires 0 <= retention
    ensures PruningIsInvisible(tag, retention, lifetime) <==> lifetime <= retention
  {
    if lifetime <= retention {
      forall ops, k | Proper(ops) && Within(ops, retention, lifetime) && 0 <= k < |ops|
        ensures Runs(tag, true, ops, k) == Runs(tag, false, ops, k)
      {
        assert Within(ops, retention, retention);
        OnlyExpiredIsForgotten(tag, ops, |ops|, retention);
      }
    } else {
      var unsigned := Authority("d", "t", "a", "p", "n", 0, lifetime, Allow, "");
      var a := unsigned.(signature := tag(unsigned));
      ReplaySucceeds(tag, a, retention);
      assert Within(Replayed(a, retention), retention, lifetime);
    }
  }

  // ---- the tool's own registry ----

  /** A tool call with its two readings: verification, and the purge that precedes its claim. */
  datatype ToolUse = ToolUse(authority: Authority, otherwiseValid: bool, verifiedAt: int, claimedAt: int)

  predicate Passes(use: ToolUse) {
    use.otherwiseValid && InWindow(use.authority, use.verifiedAt)
  }

  function ClaimStep(forgets: bool, used: map<string, UsedAuthority>, use: ToolUse): (map<string, UsedAuthority>,
                     bool) {
    var a := use.authority;
    if !Passes(use) then (used, false)
    else if forgets then ClaimNonce(used, a.nonce, a.decisionId, a.expiresAt, use.claimedAt / SECOND)
    else if a.nonce in used then (used, false)
    else (used[a.nonce := UsedAuthority(a.decisionId, a.expiresAt, use.claimedAt / SECOND)], true)
  }

  function Used(forgets: bool, uses: seq<ToolUse>, k: nat): map<string, UsedAuthority>
    requires k <= |uses|
  {
    if k == 0 then map[] else ClaimStep(forgets, Used(forgets, uses, k - 1), uses[k - 1]).0
  }

  function Claims(forgets: bool, uses: seq<ToolUse>, k: nat): bool
    requires k < |uses|
  {
    ClaimStep(forgets, Used(forgets, uses, k), uses[k]).1
  }

  /** Claims happen in clock order, each after its own verification; one token per nonce. */
  ghost predicate ProperUses(uses: seq<ToolUse>) {
    && (forall i :: 0 <= i < |uses| ==> uses[i].verifiedAt <= uses[i].claimedAt)
    && (forall i, j :: 0 <= i < j < |uses| ==> uses[i].claimedAt <= uses[j].claimedAt)
    && (forall i, j :: 0 <= i < |uses| && 0 <= j < |uses| && uses[i].authority.nonce == uses[j].authority.nonce ==>
          uses[i].authority == uses[j].authority)
  }

  /** A replay that verified in time but claims when the token has expired. */
  ghost predicate StraddlingReplay(uses: seq<ToolUse>, k: nat)
    requires k < |uses|
  {
    && Passes(uses[k]) && uses[k].authority.nonce in Used(false, uses, k)
    && uses[k].claimedAt / SECOND >= uses[k].authority.expiresAt
  }

  /** The purged table against the full one: it holds no more, and what it lacks has expired. */
  ghost predicate OnlyExpiredPurged(uses: seq<ToolUse>, k: nat, kept: map<string, UsedAuthority>, all: map<string,
                                    UsedAuthority>)
    requires k <= |uses|
  {
    && (forall n :: n in kept ==> n in all)
    && (forall n, i :: n in kept && 0 <= i < |uses| && uses[i].authority.nonce == n ==>
          kept[n].expiresAt == uses[i].authority.expiresAt)
    && (forall n, i, j ::
          n in all && n !in kept && 0 <= i < |uses| && uses[i].authority.nonce == n && k <= j < |uses| ==>
          uses[i].authority.expiresAt <= uses[j].claimedAt / SECOND)
  }

  lemma {:induction false} ClaimStepKeeps(uses: seq<ToolUse>, k: nat, kept: map<string, UsedAuthority>,
                                          all: map<string, UsedAuthority>)
    requires ProperUses(uses) && k < |uses| && OnlyExpiredPurged(uses, k, kept, all)
    ensures OnlyExpiredPurged(uses, k + 1, ClaimStep(true, kept, uses[k]).0, ClaimStep(false, all, uses[k]).0)
  {
    var a, now := uses[k].authority, uses[k].claimedAt / SECOND;
    var kept', all' := ClaimStep(true, kept, uses[k]).0, ClaimStep(false, all, uses[k]).0;
    assert forall j :: k < j < |uses| ==> now <= uses[j].claimedAt / SECOND;
    forall n, i, j | n in all' && n !in kept' && 0 <= i < |uses| && uses[i].authority.nonce == n && k + 1 <= j < |uses|
      ensures uses[i].authority.expiresAt <= uses[j].claimedAt / SECOND
    {
      if n in kept {
        assert kept[n].expiresAt <= now;
      }
    }
  }

  lemma {:induction false} OnlyExpiredIsPurged(uses: seq<ToolUse>, k: nat)
    requires ProperUses(uses) && k <= |uses|
    ensures OnlyExpiredPurged(uses, k, Used(true, uses, k), Used(false, uses, k))
  {
    hide ProperUses, OnlyExpiredPurged, ClaimStep;
    if k == 0 {
      NothingPurged(uses);
    } else {
      OnlyExpiredIsPurged(uses, k - 1);
      ClaimStepKeeps(uses, k - 1, Used(true, uses, k - 1), Used(false, uses, k - 1));
    }
  }

  lemma {:induction false} NothingPurged(uses: seq<ToolUse>)
    ensures OnlyExpiredPurged(uses, 0, map[], map[])
  {
  }

  /** The tool's purge changes the verdict on exactly one kind of call: a replay whose
      verification still found the token valid and whose claim finds it expired. */
  lemma {:induction false} PurgeDiffersOnStraddlingReplays(uses: seq<ToolUse>, k: nat)
    requires ProperUses(uses) && k < |uses|
    ensures Claims(true, uses, k) != Claims(false, uses, k) <==> StraddlingReplay(uses, k)
  {
    OnlyExpiredIsPurged(uses, k);
  }

  /** With one reading per call there is no such call. */
  lemma {:induction false} OneReadingIsEnough(uses: seq<ToolUse>, k: nat)
    requires ProperUses(uses) && k < |uses| && uses[k].verifiedAt == uses[k].claimedAt
    ensures Claims(true, uses, k) == Claims(false, uses, k)
  {
    PurgeDiffersOnStraddlingReplays(uses, k);
  }

  /** A token of one second, accepted at once and replayed across its expiry. */
  lemma {:induction false} StraddlingReplayExample(a: Authority)
    requires a.issuedAt == 0 && a.expiresAt == 1
    ensures var uses := [ToolUse(a, true, 0, 0), ToolUse(a, true, 999_999, 1_000_000)];
      ProperUses(uses) && Claims(true, uses, 0) && Claims(true, uses, 1) && !Claims(false, uses, 1)
  {
    var uses := [ToolUse(a, true, 0, 0), ToolUse(a, true, 999_999, 1_000_000)];
    assert Used(true, uses, 1) == map[a.nonce := UsedAuthority(a.decisionId, 1, 0)];
    assert Used(false, uses, 1) == map[a.nonce := UsedAuthority(a.decisionId, 1, 0)];
  }

  class AuthorityNonces {
    var rows: map<string, Spent>

    constructor ()
      ensures rows == map[]
    {
      rows := map[];
    }

    method ConsumeAuthorityNonce(nonce: string, decisionId: string, consumedAt: int) returns (claimed: bool)
      modifies this
      ensures (rows, claimed) == Consume(old(rows), nonce, decisionId, consumedAt)
    {
      claimed := nonce !in rows;
      if claimed {
        rows := rows[nonce := Spent(decisionId, consumedAt)];
      }
    }

    /** Returns the number of deleted rows; `Err` is the ValueError. */
    method PurgeAuthorityNonces(olderThan: int, now: int) returns (deleted: Result<nat, ()>)
      modifies this
      ensures rows == PurgeOld(old(rows), olderThan, now)
      ensures forall n ::
        && (n in rows <==>
             n in old(rows) && (olderThan < 0 || now - olderThan * 1_000_000 <= old(rows)[n].consumedAt))
        && (n in rows ==> rows[n] == old(rows)[n])
      ensures deleted.Err? <==> olderThan < 0
      ensures deleted.Ok? ==> deleted.value == |old(rows)| - |rows|
    {
      if olderThan < 0 {
        return Err(());
      }
      var cutoff := now - olderThan * SECOND;
      var kept := map n | n in rows && rows[n].consumedAt >= cutoff :: rows[n];
      assert kept.Keys <= rows.Keys;
      assert |rows.Keys| == |kept.Keys| + |rows.Keys - kept.Keys|;
      deleted := Ok(|rows| - |kept|);
      rows := kept;
    }

    /** `verify_authority`: whether it raises nothing. */
    static method VerifyAuthority(tag: Authority -> string, call: Enforcement) returns (valid: bool)
      ensures valid <==> Warranted(tag, call)
    {
      WarrantedIff(tag, call);
      hide Warranted;
      var a := call.authority;
      var tenant := if Truthy(call.tenant) then call.tenant.value else a.tenantId;
      var current := call.verifiedAt / SECOND;
      if tag(a.(signature := "")) != a.signature {
        return false;
      }
      if a.tenantId != tenant {
        return false;
      }
      if current >= a.expiresAt || current < a.issuedAt {
        return false;
      }
      if call.actionDigest.Some? && a.actionDigest != call.actionDigest.value {
        return false;
      }
      if call.policyDigest.Some? && a.policyDigest != call.policyDigest.value {
        return false;
      }
      valid := a.decision == Allow;
    }

    /** `enforce_execution_authority`: the tool runs exactly if the authority is warranted and its nonce
        is not known, which then it is; otherwise nothing changes. */
    method EnforceExecutionAuthority(tag: Authority -> string, call: Enforcement) returns (runs: bool)
      modifies this
      ensures (rows, runs) == Step(tag, true, old(rows), Enforce(call))
      ensures runs <==> Warranted(tag, call) && call.authority.nonce !in old(rows)
      ensures rows ==
        if runs then old(rows)[call.authority.nonce := Spent(call.authority.decisionId, call.consumedAt)] else old(rows)
    {
      WarrantedIff(tag, call);
      hide Verifies, Warranted;
      runs := VerifyAuthority(tag, call);
      if runs {
        runs := ConsumeAuthorityNonce(call.authority.nonce, call.authority.decisionId, call.consumedAt);
      }
    }
  }
}
