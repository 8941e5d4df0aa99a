/** Idempotent ingress of `csg_ingress.py`: any number of calls run the protocol load,
    insert if absent, reload, interleaved one database access at a time. */
module Ingress {
  import opened Prelude
  import opened HashChain
  import opened EvidenceGate
  import opened Policy
  import opened Storage

  datatype Request = Request(tenantId: string, key: string, digest: string, action: string, target: Option<string>)

  /** A minted decision; `id` stands for its random decision id and nonce. */
  datatype Minted = Minted(id: string, decision: Decision, digest: string)

  /** One call of `decide` that passed authentication and the request signature. */
  datatype Call = Call(req: Request, id: string)

  type Key = (string, string)

  /** `idempotency_keys`: request digest and stored response per tenant and key. */
  type Rows = map<Key, (string, Minted)>

  datatype Reply = Success(minted: Minted) | Conflict | NotVisible

  datatype Pc = Loading | Inserting(own: Minted) | Reloading | Done(reply: Reply)

  const FINANCIAL: set<string> := {"transfer_funds", "transfer_money"}
  const DESTRUCTIVE: set<string> := {"delete_database", "delete_customer", "delete_file"}
  const SENSITIVE: set<string> := DESTRUCTIVE + {"send_email", "send_external_email", "http_post_external"}

  function DeterministicDecision(action: string, target: Option<string>): Decision {
    var a := Lower(action);
    if a in FINANCIAL then Sandbox
    else if a in DESTRUCTIVE && Truthy(target) && Contains(Lower(target.value), "prod") then Deny
    else if a in SENSITIVE then Ask
    else Allow
  }

  function Mint(call: Call): Minted {
    Minted(call.id, DeterministicDecision(call.req.action, call.req.target), call.req.digest)
  }

  /** The ingress rules as a table: which decision a request gets. */
  predicate Ruled(decision: Decision, req: Request) {
    var a := Lower(req.action);
    var deletes := a == "delete_database" || a == "delete_customer" || a == "delete_file";
    var sends := a == "send_email" || a == "send_external_email" || a == "http_post_external";
    && (decision == Sandbox <==> a == "transfer_funds" || a == "transfer_money")
    && (decision == Deny <==> deletes && InProduction(req.target))
    && (decision == Ask <==> sends || (deletes && !InProduction(req.target)))
    && decision in {Sandbox, Deny, Ask, Allow}
  }

  /** Every request is decided by the table, under its own id and digest. */
  lemma {:induction false} MintIsRuled(call: Call)
    ensures Ruled(Mint(call).decision, call.req)
    ensures Mint(call).id == call.id && Mint(call).digest == call.req.digest
  {
    ProdIsFound(call.req.target);
    hide Lower, InProduction, Contains;
  }

  function CallKey(call: Call): Key {
    (call.req.tenantId, call.req.key)
  }

  /** `save_idempotency`: the row if it is absent, and whether the caller is told so. SQLite's
      answer is the row of `SELECT changes()`, which is there whether or not it says 0. */
  function Save(backend: Backend, rows: Rows, key: Key, row: (string, Minted)): (Rows, bool) {
    if key in rows then (rows, backend == Sqlite) else (rows[key := row], true)
  }

  function Answer(call: Call, row: (string, Minted)): Reply {
    if row.0 != call.req.digest then Conflict else Success(row.1)
  }

  /** One database access of a call. */
  function Access(backend: Backend, rows: Rows, call: Call, pc: Pc): (Rows, Pc) {
    match pc
    case Loading =>
      (rows, if CallKey(call) in rows then Done(Answer(call, rows[CallKey(call)])) else Inserting(Mint(call)))
    case Inserting(own) =>
      var (rows', inserted) := Save(backend, rows, CallKey(call), (call.req.digest, own));
      (rows', if inserted then Done(Success(own)) else Reloading)
    case Reloading =>
      (rows, Done(if CallKey(call) in rows then Answer(call, rows[CallKey(call)]) else NotVisible))
    case Done(_) => (rows, pc)
  }

  // ---- interleavings ----

  datatype State = State(rows: Rows, pcs: seq<Pc>)

  function Start(rows: Rows, calls: seq<Call>): State {
    State(rows, seq(|calls|, _ => Loading))
  }

  function StepCall(backend: Backend, calls: seq<Call>, s: State, i: nat): (s': State)
    requires |s.pcs| == |calls|
    ensures |s'.pcs| == |calls|
  {
    if i >= |calls| then s
    else
      var (rows, pc) := Access(backend, s.rows, calls[i], s.pcs[i]);
      State(rows, s.pcs[i := pc])
  }

  /** The state after the calls took their accesses in the order of `schedule`. */
  function Interleave(backend: Backend, rows: Rows, calls: seq<Call>, schedule: seq<nat>): (s: State)
    ensures |s.pcs| == |calls|
  {
    if schedule == [] then Start(rows, calls)
    else StepCall(backend, calls, Interleave(backend, rows, calls, Front(schedule)), Last(schedule))
  }

  /** A finished call got the stored decision if its digest is the stored one, and a conflict
      otherwise. */
  ghost predicate Agrees(s: State, call: Call, reply: Reply) {
    CallKey(call) in s.rows && reply == Answer(call, s.rows[CallKey(call)])
  }

  ghost predicate AllAgree(calls: seq<Call>, s: State)
    requires |s.pcs| == |calls|
  {
    forall i :: 0 <= i < |calls| && s.pcs[i].Done? ==> Agrees(s, calls[i], s.pcs[i].reply)
  }

  /** What else holds while calls are under way. */
  ghost predicate UnderWay(calls: seq<Call>, s: State)
    requires |s.pcs| == |calls|
  {
    forall i :: 0 <= i < |calls| ==>
      && (s.pcs[i].Inserting? ==> s.pcs[i].own == Mint(calls[i]))
      && (s.pcs[i].Reloading? ==> CallKey(calls[i]) in s.rows)
  }

  /** The next access is an insert that finds its key taken. */
  ghost predicate LostRace(calls: seq<Call>, s: State, i: nat)
    requires |s.pcs| == |calls|
  {
    i < |calls| && s.pcs[i].Inserting? && CallKey(calls[i]) in s.rows
  }

  /** Some insert of the schedule found its key taken. */
  ghost predicate RaceIn(backend: Backend, rows: Rows, calls: seq<Call>, schedule: seq<nat>) {
    schedule != [] &&
    (|| RaceIn(backend, rows, calls, Front(schedule))
     || LostRace(calls, Interleave(backend, rows, calls, Front(schedule)), Last(schedule)))
  }

  /** Stored rows are never changed or removed. */
  lemma {:induction false} RowsStay(backend: Backend, rows: Rows, calls: seq<Call>, schedule: seq<nat>, n: nat)
    requires n <= |schedule|
    ensures var early := Interleave(backend, rows, calls, schedule[..n]);
      var late := Interleave(backend, rows, calls, schedule);
      forall k :: k in early.rows ==> k in late.rows && late.rows[k] == early.rows[k]
    decreases |schedule|
  {
    if n < |schedule| {
      RowsStay(backend, rows, calls, Front(schedule), n);
      assert Front(schedule)[..n] == schedule[..n];
    } else {
      assert schedule[..n] == schedule;
    }
  }

  lemma {:induction false} AccessKeepsAgreement(backend: Backend, calls: seq<Call>, s: State, i: nat)
    requires |s.pcs| == |calls| && i < |calls| && AllAgree(calls, s) && UnderWay(calls, s)
    requires backend == Postgres || !LostRace(calls, s, i)
    ensures AllAgree(calls, StepCall(backend, calls, s, i)) && UnderWay(calls, StepCall(backend, calls, s, i))
  {
    var s' := StepCall(backend, calls, s, i);
    forall j | 0 <= j < |calls| && s'.pcs[j].Done? ensures Agrees(s', calls[j], s'.pcs[j].reply) {
      if j != i { assert Agrees(s, calls[j], s.pcs[j].reply); }
    }
  }

  lemma {:induction false} UnraveledRunsAgree(backend: Backend, rows: Rows, calls: seq<Call>, schedule: seq<nat>)
    requires backend == Postgres || !RaceIn(backend, rows, calls, schedule)
    ensures AllAgree(calls, Interleave(backend, rows, calls, schedule))
    ensures UnderWay(calls, Interleave(backend, rows, calls, schedule))
  {
    if schedule != [] {
      UnraveledRunsAgree(backend, rows, calls, Front(schedule));
      if Last(schedule) < |calls| {
        AccessKeepsAgreement(backend, calls, Interleave(backend, rows, calls, Front(schedule)), Last(schedule));
      }
    }
  }

  /** PostgreSQL, every interleaving of any number of calls: a finished call has the one
      stored decision of its key exactly when its digest is the stored one, every other
      digest is refused, and the commit is always visible to the loser of a race. */
  lemma {:induction false} OneDecisionPerKey(rows: Rows, calls: seq<Call>, schedule: seq<nat>, i: nat, j: nat)
    requires i < |calls| && j < |calls|
    requires calls[i].req.tenantId == calls[j].req.tenantId && calls[i].req.key == calls[j].req.key
    requires Interleave(Postgres, rows, calls, schedule).pcs[i].Done?
    requires Interleave(Postgres, rows, calls, schedule).pcs[j].Done?
    ensures var s, key := Interleave(Postgres, rows, calls, schedule), (calls[i].req.tenantId, calls[i].req.key);
      && key in s.rows
      && s.pcs[i].reply == (if s.rows[key].0 == calls[i].req.digest then Success(s.rows[key].1) else Conflict)
      && s.pcs[j].reply == (if s.rows[key].0 == calls[j].req.digest then Success(s.rows[key].1) else Conflict)
      && (s.pcs[i].reply.Success? && s.pcs[j].reply.Success? ==> s.pcs[i].reply == s.pcs[j].reply)
      && (s.pcs[i].reply.Success? && calls[i].req.digest != calls[j].req.digest ==> s.pcs[j].reply == Conflict)
      && (calls[i].req.digest == calls[j].req.digest ==> s.pcs[i].reply == s.pcs[j].reply)
  {
    UnraveledRunsAgree(Postgres, rows, calls, schedule);
    var s := Interleave(Postgres, rows, calls, schedule);
    assert Agrees(s, calls[i], s.pcs[i].reply) && Agrees(s, calls[j], s.pcs[j].reply);
  }

  /** The row is what this call stores: its digest, and a decision of its own by the rules. */
  ghost predicate MintedFor(call: Call, row: (string, Minted)) {
    row.0 == call.req.digest == row.1.digest && row.1.id == call.id && Ruled(row.1.decision, call.req)
  }

  /** The stored decision of a key was there before, or one of the calls minted it by the rules for
      the digest that is stored with it. */
  lemma {:induction false} StoredDecisionHasOrigin(backend: Backend, rows: Rows, calls: seq<Call>,
                                                   schedule: seq<nat>, key: Key)
    requires backend == Postgres || !RaceIn(backend, rows, calls, schedule)
    requires key in Interleave(backend, rows, calls, schedule).rows
    ensures var row := Interleave(backend, rows, calls, schedule).rows[key];
      (key in rows && row == rows[key]) ||
      exists i :: 0 <= i < |calls| && key == (calls[i].req.tenantId, calls[i].req.key) && MintedFor(calls[i], row)
  {
    if schedule != [] {
      var before := Interleave(backend, rows, calls, Front(schedule));
      if key in before.rows {
        StoredDecisionHasOrigin(backend, rows, calls, Front(schedule), key);
      } else {
        UnraveledRunsAgree(backend, rows, calls, Front(schedule));
        var i := Last(schedule);
        assert i < |calls| && CallKey(calls[i]) == key;
        MintIsRuled(calls[i]);
        hide Ruled;
        assert MintedFor(calls[i], before.rows[key := (calls[i].req.digest, Mint(calls[i]))][key]);
      }
    }
  }

  function Occurrences(schedule: seq<nat>, i: nat): nat {
    if schedule == [] then 0 else Occurrences(Front(schedule), i) + (if Last(schedule) == i then 1 else 0)
  }

  function Remaining(pc: Pc): nat {
    match pc
    case Loading => 3
    case Inserting(_) => 2
    case Reloading => 1
    case Done(_) => 0
  }

  /** No call waits for another: it is done after at most three accesses of its own. */
  lemma {:induction false} DoneAfterThreeAccesses(backend: Backend, rows: Rows, calls: seq<Call>,
                                                  schedule: seq<nat>, i: nat)
    requires i < |calls|
    ensures Remaining(Interleave(backend, rows, calls, schedule).pcs[i]) <=
      if Occurrences(schedule, i) >= 3 then 0 else 3 - Occurrences(schedule, i)
  {
    if schedule != [] {
      DoneAfterThreeAccesses(backend, rows, calls, Front(schedule), i);
    }
  }

  // ---- SQLite ----

  /** Random ids: no two calls share one, and none is stored yet. */
  ghost predicate FreshIds(rows: Rows, calls: seq<Call>) {
    && (forall i, j :: 0 <= i < j < |calls| ==> calls[i].id != calls[j].id)
    && (forall k, i :: k in rows && 0 <= i < |calls| ==> rows[k].1.id != calls[i].id)
  }

  /** Ids that were stored come from a call that has already answered with them. */
  ghost predicate StoredByDone(calls: seq<Call>, s: State)
    requires |s.pcs| == |calls|
  {
    forall k, i :: k in s.rows && 0 <= i < |calls| && s.rows[k].1.id == calls[i].id ==>
      k == CallKey(calls[i]) && s.pcs[i].Done?
  }

  ghost predicate OwnMints(calls: seq<Call>, s: State)
    requires |s.pcs| == |calls|
  {
    forall i :: 0 <= i < |calls| && s.pcs[i].Inserting? ==> s.pcs[i].own == Mint(calls[i])
  }

  lemma {:induction false} IdsTracked(rows: Rows, calls: seq<Call>, schedule: seq<nat>)
    requires FreshIds(rows, calls)
    ensures StoredByDone(calls, Interleave(Sqlite, rows, calls, schedule))
    ensures OwnMints(calls, Interleave(Sqlite, rows, calls, schedule))
  {
    if schedule != [] {
      IdsTracked(rows, calls, Front(schedule));
      var s := Interleave(Sqlite, rows, calls, Front(schedule));
      var s', n := Interleave(Sqlite, rows, calls, schedule), Last(schedule);
      if n < |calls| {
        forall k, i | k in s'.rows && 0 <= i < |calls| && s'.rows[k].1.id == calls[i].id
          ensures k == CallKey(calls[i]) && s'.pcs[i].Done?
        {
          if k !in s.rows {
            assert s.pcs[n].own.id == calls[n].id;
            assert i == n;
          }
        }
      }
    }
  }

  /** A call that lost a race on SQLite keeps an answer that disagrees with the stored row. */
  lemma {:induction false} RaceShows(rows: Rows, calls: seq<Call>, schedule: seq<nat>)
    requires FreshIds(rows, calls) && RaceIn(Sqlite, rows, calls, schedule)
    ensures !AllAgree(calls, Interleave(Sqlite, rows, calls, schedule))
  {
    var s := Interleave(Sqlite, rows, calls, Front(schedule));
    var s', n := Interleave(Sqlite, rows, calls, schedule), Last(schedule);
    IdsTracked(rows, calls, Front(schedule));
    if LostRace(calls, s, n) {
      assert !Agrees(s', calls[n], s'.pcs[n].reply);
    } else {
      RaceShows(rows, calls, Front(schedule));
      var i :| 0 <= i < |calls| && s.pcs[i].Done? && !Agrees(s, calls[i], s.pcs[i].reply);
      StayDisagreeing(rows, calls, schedule, i);
    }
  }

  /** On SQLite every finished call has been answered from a row or has stored its own. */
  lemma {:induction false} DoneKeysAreStored(rows: Rows, calls: seq<Call>, schedule: seq<nat>, i: nat)
    requires i < |calls| && Interleave(Sqlite, rows, calls, schedule).pcs[i].Done?
    ensures CallKey(calls[i]) in Interleave(Sqlite, rows, calls, schedule).rows
  {
    if schedule != [] {
      var s := Interleave(Sqlite, rows, calls, Front(schedule));
      if s.pcs[i].Done? {
        DoneKeysAreStored(rows, calls, Front(schedule), i);
      } else {
        NeverReloading(rows, calls, Front(schedule), i);
      }
    }
  }

  lemma {:induction false} NeverReloading(rows: Rows, calls: seq<Call>, schedule: seq<nat>, i: nat)
    requires i < |calls|
    ensures !Interleave(Sqlite, rows, calls, schedule).pcs[i].Reloading?
  {
    if schedule != [] {
      NeverReloading(rows, calls, Front(schedule), i);
    }
  }

  lemma {:induction false} StayDisagreeing(rows: Rows, calls: seq<Call>, schedule: seq<nat>, i: nat)
    requires schedule != [] && i < |calls|
    requires var s := Interleave(Sqlite, rows, calls, Front(schedule));
      s.pcs[i].Done? && !Agrees(s, calls[i], s.pcs[i].reply)
    ensures !AllAgree(calls, Interleave(Sqlite, rows, calls, schedule))
  {
    var s' := Interleave(Sqlite, rows, calls, schedule);
    DoneKeysAreStored(rows, calls, Front(schedule), i);
    RowsStay(Sqlite, rows, calls, schedule, |schedule| - 1);
    assert !Agrees(s', calls[i], s'.pcs[i].reply);
  }

  /** Exactly when all finished calls agree with the stored rows: always on PostgreSQL, and on
      SQLite when no insert ever found its key taken. */
  lemma {:induction false} AgreementCondition(backend: Backend, rows: Rows, calls: seq<Call>, schedule: seq<nat>)
    requires FreshIds(rows, calls)
    ensures AllAgree(calls, Interleave(backend, rows, calls, schedule)) <==>
      backend == Postgres || !RaceIn(backend, rows, calls, schedule)
  {
    if backend == Postgres || !RaceIn(backend, rows, calls, schedule) {
      UnraveledRunsAgree(backend, rows, calls, schedule);
    } else {
      RaceShows(rows, calls, schedule);
    }
  }

  /** Two SQLite calls with different requests under one key, both past their load before
      either inserts: both succeed, with different decisions. */
  lemma {:induction false} SqliteRaceExample(a: Call, b: Call)
    requires CallKey(a) == CallKey(b) && a.req.digest != b.req.digest && a.id != b.id
    ensures var s := Interleave(Sqlite, map[], [a, b], [0, 1, 0, 1]);
      s.pcs == [Done(Success(Mint(a))), Done(Success(Mint(b)))] && s.rows == map[CallKey(a) := (a.req.digest, Mint(a))]
  {
    var calls, mine, other := [a, b], Mint(a), Mint(b);
    assert Front([0, 1, 0, 1]) == [0, 1, 0] && Front([0, 1, 0]) == [0, 1] && Front([0, 1]) == [0] && Front([0]) == [];
    assert Interleave(Sqlite, map[], calls, []) == State(map[], [Loading, Loading]);
    assert Interleave(Sqlite, map[], calls, [0]) == State(map[], [Inserting(mine), Loading]);
    assert Interleave(Sqlite, map[], calls, [0, 1]) == State(map[], [Inserting(mine), Inserting(other)]);
    assert Interleave(Sqlite, map[], calls, [0, 1, 0]) ==
      State(map[CallKey(a) := (a.req.digest, mine)], [Done(Success(mine)), Inserting(other)]);
  }

  // ---- the protocol in its own form ----

  /** A row that another call inserts while this one is under way. */
  type Write = (Key, (string, Minted))

  class IdempotencyStore {
    const backend: Backend
    var rows: Rows

    constructor (backend: Backend)
      ensures this.backend == backend && rows == map[]
    {
      this.backend := backend;
      rows := map[];
    }

    method LoadIdempotency(key: Key) returns (row: Option<(string, Minted)>)
      ensures row == if key in rows then Some(rows[key]) else None
    {
      row := if key in rows then Some(rows[key]) else None;
    }

    method SaveIdempotency(key: Key, digest: string, response: Minted) returns (inserted: bool)
      modifies this
      ensures (rows, inserted) == Save(backend, old(rows), key, (digest, response))
    {
      if key !in rows {
        rows := rows[key := (digest, response)];
        return true;
      }
      inserted := backend == Sqlite;
    }

    /** What other calls do to the table in the meantime. */
    method OtherCalls(writes: seq<Write>)
      modifies this
      ensures forall k :: k in old(rows) ==> k in rows && rows[k] == old(rows)[k]
      ensures writes == [] ==> rows == old(rows)
    {
      for i := 0 to |writes|
        invariant i == 0 ==> rows == old(rows)
        invariant forall k :: k in old(rows) ==> k in rows && rows[k] == old(rows)[k]
      {
        var inserted := SaveIdempotency(writes[i].0, writes[i].1.0, writes[i].1.1);
      }
    }

    /** `decide`, with other calls between its three accesses. Stored rows stay, the key is
        stored at the end, and the reply is the stored answer; only SQLite may instead hand
        out the decision that this call minted. */
    method Decide(call: Call, afterLoad: seq<Write>, afterSave: seq<Write>) returns (reply: Reply)
      modifies this
      ensures forall k :: k in old(rows) ==> k in rows && rows[k] == old(rows)[k]
      ensures (call.req.tenantId, call.req.key) in rows
      ensures var row := rows[(call.req.tenantId, call.req.key)];
        || reply == (if row.0 == call.req.digest then Success(row.1) else Conflict)
        || (backend == Sqlite && reply.Success? && MintedFor(call, (call.req.digest, reply.minted)))
      ensures (call.req.tenantId, call.req.key) !in old(rows) && afterLoad == [] ==>
        && reply.Success? && MintedFor(call, rows[(call.req.tenantId, call.req.key)])
        && rows[(call.req.tenantId, call.req.key)] == (call.req.digest, reply.minted)
    {
      MintIsRuled(call);
      hide Ruled, DeterministicDecision;
      var key := CallKey(call);
      var existing := LoadIdempotency(key);
      OtherCalls(afterLoad);
      if existing.Some? {
        if existing.value.0 != call.req.digest {
          return Conflict;
        }
        return Success(existing.value.1);
      }
      var decision := Mint(call);
      var inserted := SaveIdempotency(key, call.req.digest, decision);
      OtherCalls(afterSave);
      if inserted {
        return Success(decision);
      }
      var winner := LoadIdempotency(key);
      if winner == None {
        return NotVisible;
      }
      if winner.value.0 != call.req.digest {
        return Conflict;
      }
      reply := Success(winner.value.1);
    }
  }

  // ---- the ingress rules and the gate's policy ----

  /** The ingress rules and the gate's default policy take the same decision on acceptable
      evidence, except for the financial actions: the gate denies all three, the ingress answers
      SANDBOX to two of them and ALLOW to the third. */
  lemma {:induction false} IngressMatchesGate(req: ActionRequest)
    ensures var a, ingress := Lower(req.action), DeterministicDecision(req.action, req.target);
      if a == "transfer_funds" || a == "transfer_money" then
        ingress == Sandbox && Pipeline(req, DEFAULT_POLICY) == Some(Deny)
      else if a == "financial_transfer" then
        ingress == Allow && Pipeline(req, DEFAULT_POLICY) == Some(Deny)
      else Some(ingress) == Pipeline(req, DEFAULT_POLICY)
  {
    var asked := Request("", "", "", req.action, req.target);
    MintIsRuled(Call(asked, ""));
    DefaultPolicyTable(req);
    hide Lower, InProduction, DeterministicDecision, Pipeline;
    assert Mint(Call(asked, "")).decision == DeterministicDecision(req.action, req.target);
  }
}
