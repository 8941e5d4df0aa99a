/** Approvals and reservations of one decision, one database access at a time: an approval loads
    the record and later saves the record it loaded. When such a save reopens a reserved decision,
    on either backend, and what the tool then accepts. */
module SplitApproval {
  import opened Prelude
  import opened HashChain
  import opened EvidenceGate
  import opened Policy
  import opened Records
  import opened Storage
  import opened Reservations
  import opened GateHandlers
  import opened ToolServer
  import opened GateInvariant
  import opened GateAcceptance
  import opened SplitReservation

  /** One call of the approval handler or of the reservation handler. */
  datatype GateCall = Approver(approval: Approval, ids: Fresh) | Reserver(attempt: Attempt)

  function ApprovalAccess(cfg: Config, d: string, approval: Approval, ids: Fresh, t: Tables, pc: Pc, now: int)
    : (Tables, Pc)
  {
    match pc
    case Waiting =>
      var loaded := LoadLive(cfg, t, d, approval.tenantId, now);
      (t, if loaded.Refused? then Finished(loaded)
          else
            var fault := ApprovalFault(cfg, loaded.record, approval);
            if fault.Some? then Finished(Refused(fault.value)) else Loaded(loaded.record))
    case Loaded(r) =>
      var next := Approved(cfg, r, approval, now);
      var (t', saved) := SaveRecord(cfg.eventDigest, t, next, EventType.ApprovalRecorded, ids);
      (t', Finished(if saved.Committed? then Granted(saved.value) else Refused(StoreFailure)))
    case Holding(_, _) => (t, pc)
    case Finished(_) => (t, pc)
  }

  /** Two accesses without interruption and with one clock reading are the whole handler. */
  lemma {:induction false} ApprovalAccessesAreTheHandler(cfg: Config, d: string, approval: Approval, ids: Fresh,
                                                         t: Tables, now: int)
    ensures var (t1, pc1) := ApprovalAccess(cfg, d, approval, ids, t, Waiting, now);
      var (t2, pc2) := ApprovalAccess(cfg, d, approval, ids, t1, pc1, now);
      var (t', answer) := Approve(cfg, t, d, approval, ids, now);
      t2 == t' && pc2 == Finished(answer)
  {
    hide LoadLive, ApprovalFault, SaveRecord;
  }

  function CallAccess(cfg: Config, d: string, call: GateCall, t: Tables, pc: Pc, turn: Turn): (Tables, Pc) {
    match call
    case Approver(approval, ids) => ApprovalAccess(cfg, d, approval, ids, t, pc, turn.now)
    case Reserver(attempt) => Access(cfg, d, attempt, t, pc, turn.now, turn.world)
  }

  function TakeTurn(cfg: Config, d: string, calls: seq<GateCall>, s: State, turn: Turn): (s': State)
    requires |s.pcs| == |calls|
    ensures |s'.pcs| == |calls|
  {
    if turn.who >= |calls| then s
    else
      var (t, pc) := CallAccess(cfg, d, calls[turn.who], s.tables, s.pcs[turn.who], turn);
      State(t, s.pcs[turn.who := pc])
  }

  /** The state after the calls took their accesses in the order of `schedule`. */
  function After(cfg: Config, d: string, calls: seq<GateCall>, t: Tables, schedule: seq<Turn>): (s: State)
    ensures |s.pcs| == |calls|
  {
    if schedule == [] then State(t, seq(|calls|, _ => Waiting))
    else TakeTurn(cfg, d, calls, After(cfg, d, calls, t, Front(schedule)), Last(schedule))
  }

  /** The state before turn `k`. */
  function Before(cfg: Config, d: string, calls: seq<GateCall>, t: Tables, schedule: seq<Turn>, k: nat): (s: State)
    requires k <= |schedule|
    ensures |s.pcs| == |calls|
  {
    After(cfg, d, calls, t, schedule[..k])
  }

  lemma {:induction false} BeforeNext(cfg: Config, d: string, calls: seq<GateCall>, t: Tables, schedule: seq<Turn>,
                                      k: nat)
    requires k < |schedule|
    ensures Before(cfg, d, calls, t, schedule, k + 1)
         == TakeTurn(cfg, d, calls, Before(cfg, d, calls, t, schedule, k), schedule[k])
  {
    assert Front(schedule[..k + 1]) == schedule[..k];
  }

  lemma {:induction false} BeforeFirst(cfg: Config, d: string, calls: seq<GateCall>, t: Tables, schedule: seq<Turn>)
    ensures Before(cfg, d, calls, t, schedule, 0) == State(t, seq(|calls|, _ => Waiting))
  {
    assert schedule[..0] == [];
  }

  // ---- the accesses that open and close the decision ----

  /** The save of an approval, either way, of the record that was loaded before. */
  predicate Approves(calls: seq<GateCall>, s: State, who: nat)
    requires |s.pcs| == |calls|
  {
    who < |calls| && calls[who].Approver? && s.pcs[who].Loaded? && !KeysTaken(s.tables, calls[who].ids)
  }

  /** The second access of a reservation. */
  predicate Tries(calls: seq<GateCall>, s: State, who: nat)
    requires |s.pcs| == |calls|
  {
    who < |calls| && calls[who].Reserver? && s.pcs[who].Loaded?
  }

  /** `reserve_execution` says yes to it. */
  predicate Reserves(cfg: Config, d: string, calls: seq<GateCall>, s: State, turn: Turn)
    requires |s.pcs| == |calls|
  {
    && Tries(calls, s, turn.who)
    && Reserve(cfg.backend, s.tables, d, calls[turn.who].attempt.outcome.nonce, turn.now).1
  }

  /** The save of a reservation. */
  predicate Saves(calls: seq<GateCall>, s: State, who: nat)
    requires |s.pcs| == |calls|
  {
    && who < |calls| && calls[who].Reserver? && s.pcs[who].Holding?
    && !KeysTaken(s.tables, calls[who].attempt.ids)
  }

  predicate Shuts(cfg: Config, d: string, calls: seq<GateCall>, s: State, turn: Turn)
    requires |s.pcs| == |calls|
  {
    Saves(calls, s, turn.who) || (cfg.backend == Sqlite && Reserves(cfg, d, calls, s, turn))
  }

  // ---- the invariant ----

  /** `r` is a state of the decision `r0`, not yet consumed. */
  predicate Kin(r: Record, r0: Record) {
    Core(r) == Core(r0) && r.consumedAt == None
  }

  lemma {:induction false} KinFields(cfg: Config, r: Record, r0: Record)
    requires Kin(r, r0)
    ensures r.decisionId == r0.decisionId && r.tenantId == r0.tenantId && r.nonce == r0.nonce
    ensures r.evidenceVerdict == r0.evidenceVerdict && r.worldVersion == r0.worldVersion && r.request == r0.request
    ensures r.actionHash == r0.actionHash && r.policyHash == r0.policyHash && r.expiresAt == r0.expiresAt
    ensures Bound(cfg, r0) ==> Bound(cfg, r)
  {
    assert r.decisionId == Core(r).decisionId && r.tenantId == Core(r).tenantId && r.nonce == Core(r).nonce;
    assert r.evidenceVerdict == Core(r).evidenceVerdict && r.worldVersion == Core(r).worldVersion;
    assert r.request == Core(r).request && r.actionHash == Core(r).actionHash && r.policyHash == Core(r).policyHash;
    assert r.expiresAt == Core(r).expiresAt && r.policySnapshot == Core(r).policySnapshot;
    assert r.signature == Core(r).signature && r.normalizedAction == Core(r).normalizedAction;
    assert r.signal == Core(r).signal && r.evidence == Core(r).evidence && r.contradictions == Core(r).contradictions;
    assert SignedPartOf(r) == SignedPartOf(r0);
  }

  /** Where a call may stand; `asking` says that the stored decision still is ASK. */
  ghost predicate CallOk(cfg: Config, d: string, r0: Record, asking: bool, call: GateCall, pc: Pc) {
    match call
    case Approver(_, _) =>
      && !pc.Holding?
      && (pc.Loaded? ==> Kin(pc.record, r0) && pc.record.decision == Ask && pc.record.startedAt == None)
    case Reserver(attempt) =>
      && (pc.Loaded? || pc.Holding? ==>
           && !asking && Kin(pc.record, r0) && pc.record.decision == Allow && attempt.outcome.nonce == r0.nonce)
      && (IsGranted(pc) ==>
           && !asking && pc.answer.record.authority.Some?
           && var a := pc.answer.record.authority.value;
              a.decisionId == d && a.nonce == r0.nonce && Fits(cfg, r0, a))
  }

  ghost predicate RowOk(d: string, r0: Record, t: Tables) {
    && d in t.records && Kin(t.records[d], r0)
    && (t.records[d].decision == Ask ==> t.records[d].startedAt == None)
  }

  predicate Asking(d: string, t: Tables) {
    d in t.records && t.records[d].decision == Ask
  }

  ghost predicate Sound(cfg: Config, d: string, calls: seq<GateCall>, r0: Record, s: State)
    requires |s.pcs| == |calls|
  {
    && RowOk(d, r0, s.tables)
    && forall i :: 0 <= i < |calls| ==> CallOk(cfg, d, r0, Asking(d, s.tables), calls[i], s.pcs[i])
  }

  /** What one access does: it keeps the row and the call in shape, ASK never returns, an approval
      opens the decision, and a reservation's access closes it. */
  ghost predicate Effect(cfg: Config, d: string, r0: Record, call: GateCall, t: Tables, pc: Pc, turn: Turn) {
    var (t', pc') := CallAccess(cfg, d, call, t, pc, turn);
    var approves := call.Approver? && pc.Loaded? && !KeysTaken(t, call.ids);
    var saves := call.Reserver? && pc.Holding? && !KeysTaken(t, call.attempt.ids);
    var reserves := call.Reserver? && pc.Loaded?
      && Reserve(cfg.backend, t, d, call.attempt.outcome.nonce, turn.now).1;
    && RowOk(d, r0, t') && CallOk(cfg, d, r0, Asking(d, t'), call, pc')
    && (Asking(d, t') <==> Asking(d, t) && !approves)
    && (OpenRow(t', d, r0.nonce) <==>
         approves || (OpenRow(t, d, r0.nonce) && !saves && !(cfg.backend == Sqlite && reserves)))
    && (pc'.Loaded? ==> pc == Waiting && t' == t && if call.Approver? then Asking(d, t) else !Asking(d, t))
    && (pc != Waiting && !pc.Loaded? && !pc.Holding? ==> pc' == pc)
  }

  lemma {:induction false} LoadEffect(cfg: Config, d: string, r0: Record, call: GateCall, t: Tables, turn: Turn)
    requires RowOk(d, r0, t) && RecordOk(cfg, r0) && r0.decisionId == d
    ensures Effect(cfg, d, r0, call, t, Waiting, turn)
  {
    KinFields(cfg, t.records[d], r0);
    hide Kin, RecordOk, ApprovalFault;
    if call.Approver? {
      FaultlessAsks(cfg, t.records[d], call.approval);
    }
  }

  lemma {:induction false} FaultlessAsks(cfg: Config, r: Record, approval: Approval)
    ensures ApprovalFault(cfg, r, approval) == None ==> r.decision == Ask
  {
  }

  lemma {:induction false} ApprovalEffect(cfg: Config, d: string, r0: Record, call: GateCall, t: Tables, pc: Pc,
                                          turn: Turn)
    requires RowOk(d, r0, t) && r0.decisionId == d && CallOk(cfg, d, r0, Asking(d, t), call, pc)
    requires call.Approver? && pc.Loaded?
    ensures Effect(cfg, d, r0, call, t, pc, turn)
  {
    hide KeysTaken, MaxVersion, BodyFor;
    KinFields(cfg, pc.record, r0);
    SavedRecord(cfg.eventDigest, t, Approved(cfg, pc.record, call.approval, turn.now), EventType.ApprovalRecorded,
                call.ids);
  }

  lemma {:induction false} TryEffect(cfg: Config, d: string, r0: Record, call: GateCall, t: Tables, pc: Pc, turn: Turn)
    requires RowOk(d, r0, t) && r0.decisionId == d && CallOk(cfg, d, r0, Asking(d, t), call, pc)
    requires call.Reserver? && pc.Loaded?
    ensures Effect(cfg, d, r0, call, t, pc, turn)
  {
    hide KeysTaken, Fits;
    KinFields(cfg, t.records[d], r0);
    ReserveAccess(cfg, d, call.attempt, t, pc.record, turn);
  }

  lemma {:induction false} SaveEffect(cfg: Config, d: string, r0: Record, call: GateCall, t: Tables, pc: Pc, turn: Turn)
    requires RowOk(d, r0, t) && r0.decisionId == d && CallOk(cfg, d, r0, Asking(d, t), call, pc) && Bound(cfg, r0)
    requires call.Reserver? && pc.Holding?
    ensures Effect(cfg, d, r0, call, t, pc, turn)
  {
    hide KeysTaken, IssueAuthority, Fits, MaxVersion, BodyFor;
    KinFields(cfg, pc.record, r0);
    SavedRecord(cfg.eventDigest, t, Reservation(cfg, d, pc.record, pc.startedAt, turn.now), ExecutionReserved,
                call.attempt.ids);
    TokenFits(cfg, d, r0, pc.record, turn.now);
  }

  lemma {:induction false} TokenFits(cfg: Config, d: string, r0: Record, r: Record, now: int)
    requires Bound(cfg, r0) && Kin(r, r0) && r.decision == Allow && r0.decisionId == d
    ensures Fits(cfg, r0, IssueAuthority(cfg, d, r, now))
    ensures IssueAuthority(cfg, d, r, now).decisionId == d && IssueAuthority(cfg, d, r, now).nonce == r0.nonce
  {
    hide Kin;
    KinFields(cfg, r, r0);
  }

  lemma {:induction false} AccessEffect(cfg: Config, d: string, r0: Record, call: GateCall, t: Tables, pc: Pc,
                                        turn: Turn)
    requires RowOk(d, r0, t) && RecordOk(cfg, r0) && r0.decisionId == d && CallOk(cfg, d, r0, Asking(d, t), call, pc)
    ensures Effect(cfg, d, r0, call, t, pc, turn)
  {
    hide Effect, RowOk, RecordOk, Kin, Fits;
    OkIsBound(cfg, r0);
    match pc
    case Waiting => LoadEffect(cfg, d, r0, call, t, turn);
    case Loaded(_) =>
      if call.Approver? {
        ApprovalEffect(cfg, d, r0, call, t, pc, turn);
      } else {
        TryEffect(cfg, d, r0, call, t, pc, turn);
      }
    case Holding(_, _) => SaveEffect(cfg, d, r0, call, t, pc, turn);
    case Finished(_) => FinishedEffect(cfg, d, r0, call, t, pc, turn);
  }

  lemma {:induction false} FinishedEffect(cfg: Config, d: string, r0: Record, call: GateCall, t: Tables, pc: Pc,
                                          turn: Turn)
    requires RowOk(d, r0, t) && CallOk(cfg, d, r0, Asking(d, t), call, pc) && pc.Finished?
    ensures Effect(cfg, d, r0, call, t, pc, turn)
  {
  }

  /** Exactly when the decision is open for a reservation after an access: an approval saved what
      it had loaded, or it was open before and no access of a reservation closed it. ASK ends
      with the first approval that is saved, and does not return. */
  lemma {:induction false} TurnOpens(cfg: Config, d: string, calls: seq<GateCall>, r0: Record, s: State, turn: Turn)
    requires |s.pcs| == |calls| && Sound(cfg, d, calls, r0, s) && RecordOk(cfg, r0) && r0.decisionId == d
    ensures var s' := TakeTurn(cfg, d, calls, s, turn);
      && Sound(cfg, d, calls, r0, s')
      && (OpenRow(s'.tables, d, r0.nonce) <==>
           Approves(calls, s, turn.who) || (OpenRow(s.tables, d, r0.nonce) && !Shuts(cfg, d, calls, s, turn)))
      && (Asking(d, s'.tables) <==> Asking(d, s.tables) && !Approves(calls, s, turn.who))
      && (forall w :: 0 <= w < |calls| && s'.pcs[w].Loaded? ==>
           s'.pcs[w] == s.pcs[w] || (if calls[w].Approver? then Asking(d, s.tables) else !Asking(d, s.tables)))
  {
    hide CallAccess, RecordOk, Kin, OpenRow, Reserve, KeysTaken, Asking;
    if turn.who < |calls| {
      var call, pc := calls[turn.who], s.pcs[turn.who];
      AccessEffect(cfg, d, r0, call, s.tables, pc, turn);
      var t' := CallAccess(cfg, d, call, s.tables, pc, turn).0;
      forall i | 0 <= i < |calls| ensures CallOk(cfg, d, r0, Asking(d, t'), calls[i], s.pcs[i]) || i == turn.who {
        assert CallOk(cfg, d, r0, Asking(d, s.tables), calls[i], s.pcs[i]);
      }
    }
  }

  lemma {:induction false} AfterIsSound(cfg: Config, d: string, calls: seq<GateCall>, t: Tables, schedule: seq<Turn>)
    requires d in t.records && Unreserved(d, t.records[d]) && RecordOk(cfg, t.records[d])
    ensures Sound(cfg, d, calls, t.records[d], After(cfg, d, calls, t, schedule))
  {
    if schedule != [] {
      hide Sound, TakeTurn, RecordOk;
      AfterIsSound(cfg, d, calls, t, Front(schedule));
      TurnOpens(cfg, d, calls, t.records[d], After(cfg, d, calls, t, Front(schedule)), Last(schedule));
    }
  }

  /** `TurnOpens` at turn `k` of a schedule. */
  lemma {:induction false} OpensAt(cfg: Config, d: string, calls: seq<GateCall>, t: Tables, schedule: seq<Turn>, k: nat)
    requires d in t.records && Unreserved(d, t.records[d]) && RecordOk(cfg, t.records[d]) && k < |schedule|
    ensures var s, s' := Before(cfg, d, calls, t, schedule, k), Before(cfg, d, calls, t, schedule, k + 1);
      var turn, nonce := schedule[k], t.records[d].nonce;
      && (OpenRow(s'.tables, d, nonce) <==>
           Approves(calls, s, turn.who) || (OpenRow(s.tables, d, nonce) && !Shuts(cfg, d, calls, s, turn)))
      && (Asking(d, s'.tables) <==> Asking(d, s.tables) && !Approves(calls, s, turn.who))
      && (forall w :: 0 <= w < |calls| && s'.pcs[w].Loaded? ==>
           s'.pcs[w] == s.pcs[w] || (if calls[w].Approver? then Asking(d, s.tables) else !Asking(d, s.tables)))
  {
    AfterIsSound(cfg, d, calls, t, schedule[..k]);
    BeforeNext(cfg, d, calls, t, schedule, k);
    hide Sound, TakeTurn, RecordOk, OpenRow, Asking, After;
    TurnOpens(cfg, d, calls, t.records[d], Before(cfg, d, calls, t, schedule, k), schedule[k]);
  }

  // ---- when a reserved decision is reserved again ----

  ghost predicate Unshut(cfg: Config, d: string, calls: seq<GateCall>, t: Tables, schedule: seq<Turn>, from: nat,
                         to: nat)
    requires to <= |schedule|
  {
    forall k :: from <= k < to ==> !Shuts(cfg, d, calls, Before(cfg, d, calls, t, schedule, k), schedule[k])
  }

  /** An approval is saved after turn `from`, and nothing after it closes the decision before turn `to`. */
  ghost predicate ReopenedWithin(cfg: Config, d: string, calls: seq<GateCall>, t: Tables, schedule: seq<Turn>,
                                 from: nat, to: nat)
    requires to <= |schedule|
  {
    exists k :: from < k < to && Approves(calls, Before(cfg, d, calls, t, schedule, k), schedule[k].who)
      && Unshut(cfg, d, calls, t, schedule, k + 1, to)
  }

  lemma {:induction false} OpenAfterReservation(cfg: Config, d: string, calls: seq<GateCall>, t: Tables,
                                                schedule: seq<Turn>, i: nat, j: nat)
    requires d in t.records && Unreserved(d, t.records[d]) && RecordOk(cfg, t.records[d]) && i < j <= |schedule|
    requires Reserves(cfg, d, calls, Before(cfg, d, calls, t, schedule, i), schedule[i])
    ensures OpenRow(Before(cfg, d, calls, t, schedule, j).tables, d, t.records[d].nonce) <==>
      || ReopenedWithin(cfg, d, calls, t, schedule, i, j)
      || (cfg.backend == Postgres && Unshut(cfg, d, calls, t, schedule, i + 1, j))
    decreases j
  {
    hide Before, Shuts, Approves, OpenRow, Asking, RecordOk, Unreserved, Reserves;
    if j == i + 1 {
      AfterReservation(cfg, d, calls, t, schedule, i);
    } else {
      OpenAfterReservation(cfg, d, calls, t, schedule, i, j - 1);
      OpensAt(cfg, d, calls, t, schedule, j - 1);
    }
  }

  lemma {:induction false} AfterReservation(cfg: Config, d: string, calls: seq<GateCall>, t: Tables,
                                            schedule: seq<Turn>, i: nat)
    requires d in t.records && Unreserved(d, t.records[d]) && RecordOk(cfg, t.records[d]) && i < |schedule|
    requires Reserves(cfg, d, calls, Before(cfg, d, calls, t, schedule, i), schedule[i])
    ensures OpenRow(Before(cfg, d, calls, t, schedule, i + 1).tables, d, t.records[d].nonce) <==>
      cfg.backend == Postgres
  {
    hide Before, OpenRow, Asking, RecordOk, Unreserved, Reserve, Approves, Saves;
    OpensAt(cfg, d, calls, t, schedule, i);
    TriesOpen(cfg, d, calls, t, schedule, i);
  }

  /** A reservation is granted exactly while the decision is open. */
  lemma {:induction false} TriesOpen(cfg: Config, d: string, calls: seq<GateCall>, t: Tables, schedule: seq<Turn>,
                                     i: nat)
    requires d in t.records && Unreserved(d, t.records[d]) && RecordOk(cfg, t.records[d]) && i < |schedule|
    requires Tries(calls, Before(cfg, d, calls, t, schedule, i), schedule[i].who)
    ensures var s := Before(cfg, d, calls, t, schedule, i);
      && (Reserves(cfg, d, calls, s, schedule[i]) <==> OpenRow(s.tables, d, t.records[d].nonce))
      && !Approves(calls, s, schedule[i].who) && !Saves(calls, s, schedule[i].who) && !Asking(d, s.tables)
  {
    AfterIsSound(cfg, d, calls, t, schedule[..i]);
    var s, w := Before(cfg, d, calls, t, schedule, i), schedule[i].who;
    assert CallOk(cfg, d, t.records[d], Asking(d, s.tables), calls[w], s.pcs[w]);
    hide After, RecordOk, KeysTaken;
  }

  /** Exactly when a decision that was reserved is reserved again, in every interleaving of any
      number of approvals and reservations: an approval was saved in between and nothing after it
      closed the decision, or, on PostgreSQL, nothing in between closed it. */
  lemma {:induction false} SecondReservationIff(cfg: Config, d: string, calls: seq<GateCall>, t: Tables,
                                                schedule: seq<Turn>, i: nat, j: nat)
    requires d in t.records && Unreserved(d, t.records[d]) && RecordOk(cfg, t.records[d]) && i < j < |schedule|
    requires Reserves(cfg, d, calls, Before(cfg, d, calls, t, schedule, i), schedule[i])
    requires Tries(calls, Before(cfg, d, calls, t, schedule, j), schedule[j].who)
    ensures Reserves(cfg, d, calls, Before(cfg, d, calls, t, schedule, j), schedule[j]) <==>
      || ReopenedWithin(cfg, d, calls, t, schedule, i, j)
      || (cfg.backend == Postgres && Unshut(cfg, d, calls, t, schedule, i + 1, j))
  {
    hide Before, RecordOk, Unreserved, Reserves, Tries, OpenRow, Unshut, ReopenedWithin;
    OpenAfterReservation(cfg, d, calls, t, schedule, i, j);
    TriesOpen(cfg, d, calls, t, schedule, j);
  }

  // ---- only approvals that overlap reopen a decision ----

  /** Once the decision is no longer ASK it never is again, and no further approval gets to load it. */
  lemma {:induction false} LoadedEarlier(cfg: Config, d: string, calls: seq<GateCall>, t: Tables, schedule: seq<Turn>,
                                         m: nat, n: nat, w: nat)
    requires d in t.records && Unreserved(d, t.records[d]) && RecordOk(cfg, t.records[d]) && m <= n <= |schedule|
    requires !Asking(d, Before(cfg, d, calls, t, schedule, m).tables) && w < |calls|
    ensures !Asking(d, Before(cfg, d, calls, t, schedule, n).tables)
    ensures calls[w].Approver? && Before(cfg, d, calls, t, schedule, n).pcs[w].Loaded? ==>
      Before(cfg, d, calls, t, schedule, m).pcs[w].Loaded?
    decreases n
  {
    hide Before, RecordOk, Unreserved, Asking, OpenRow, Approves, Shuts;
    if m < n {
      LoadedEarlier(cfg, d, calls, t, schedule, m, n - 1, w);
      OpensAt(cfg, d, calls, t, schedule, n - 1);
    }
  }

  /** A decision that was ASK and no longer is was approved or denied in between. */
  lemma {:induction false} AskEndsWithApproval(cfg: Config, d: string, calls: seq<GateCall>, t: Tables,
                                               schedule: seq<Turn>, n: nat) returns (k: nat)
    requires d in t.records && Unreserved(d, t.records[d]) && RecordOk(cfg, t.records[d]) && n <= |schedule|
    requires Asking(d, t) && !Asking(d, Before(cfg, d, calls, t, schedule, n).tables)
    ensures k < n && Approves(calls, Before(cfg, d, calls, t, schedule, k), schedule[k].who)
    ensures Asking(d, Before(cfg, d, calls, t, schedule, k).tables)
    ensures !Asking(d, Before(cfg, d, calls, t, schedule, k + 1).tables)
    decreases n
  {
    hide Before, Shuts, RecordOk, Unreserved, Asking, OpenRow, Approves;
    BeforeFirst(cfg, d, calls, t, schedule);
    OpensAt(cfg, d, calls, t, schedule, n - 1);
    if Asking(d, Before(cfg, d, calls, t, schedule, n - 1).tables) {
      k := n - 1;
    } else {
      k := AskEndsWithApproval(cfg, d, calls, t, schedule, n - 1);
    }
  }

  /** An approval that is saved after a reservation was granted overlapped another one: that other
      approval was saved before the reservation, and both had loaded the record by then. */
  lemma {:induction false} ReopeningOverlaps(cfg: Config, d: string, calls: seq<GateCall>, t: Tables,
                                             schedule: seq<Turn>, i: nat, k: nat) returns (k0: nat)
    requires d in t.records && Unreserved(d, t.records[d]) && RecordOk(cfg, t.records[d]) && i < k < |schedule|
    requires Reserves(cfg, d, calls, Before(cfg, d, calls, t, schedule, i), schedule[i])
    requires Approves(calls, Before(cfg, d, calls, t, schedule, k), schedule[k].who)
    ensures k0 < i && schedule[k0].who != schedule[k].who
    ensures Approves(calls, Before(cfg, d, calls, t, schedule, k0), schedule[k0].who)
    ensures Before(cfg, d, calls, t, schedule, k0).pcs[schedule[k].who].Loaded?
  {
    BeforeFirst(cfg, d, calls, t, schedule);
    TriesOpen(cfg, d, calls, t, schedule, i);
    hide Before, RecordOk, Unreserved, OpenRow, Asking, Shuts, KeysTaken;
    var w := schedule[k].who;
    if !Asking(d, t) {
      LoadedEarlier(cfg, d, calls, t, schedule, 0, k, w);
      assert false;
    } else {
      k0 := AskEndsWithApproval(cfg, d, calls, t, schedule, i);
      LoadedEarlier(cfg, d, calls, t, schedule, k0 + 1, k, w);
      SavedIsDone(cfg, d, calls, t, schedule, k0);
    }
  }

  /** After its save an approval has its answer; the other calls stand where they stood. */
  lemma {:induction false} SavedIsDone(cfg: Config, d: string, calls: seq<GateCall>, t: Tables, schedule: seq<Turn>,
                                       k: nat)
    requires k < |schedule| && Approves(calls, Before(cfg, d, calls, t, schedule, k), schedule[k].who)
    ensures var s, s' := Before(cfg, d, calls, t, schedule, k), Before(cfg, d, calls, t, schedule, k + 1);
      && s'.pcs[schedule[k].who].Finished?
      && forall w :: 0 <= w < |calls| && w != schedule[k].who ==> s'.pcs[w] == s.pcs[w]
  {
    BeforeNext(cfg, d, calls, t, schedule, k);
    hide Before, SaveRecord, KeysTaken, Approved;
  }

  /** On SQLite a decision is reserved twice only across two approvals that overlapped: both had
      loaded it before the first of them was saved, and the second was saved after the reservation. */
  lemma {:induction false} SqliteNeedsOverlap(cfg: Config, d: string, calls: seq<GateCall>, t: Tables,
                                              schedule: seq<Turn>, i: nat, j: nat) returns (k0: nat, k: nat)
    requires d in t.records && Unreserved(d, t.records[d]) && RecordOk(cfg, t.records[d]) && i < j < |schedule|
    requires cfg.backend == Sqlite
    requires Reserves(cfg, d, calls, Before(cfg, d, calls, t, schedule, i), schedule[i])
    requires Reserves(cfg, d, calls, Before(cfg, d, calls, t, schedule, j), schedule[j])
    ensures k0 < i < k < j && schedule[k0].who != schedule[k].who
    ensures Approves(calls, Before(cfg, d, calls, t, schedule, k0), schedule[k0].who)
    ensures Approves(calls, Before(cfg, d, calls, t, schedule, k), schedule[k].who)
    ensures Before(cfg, d, calls, t, schedule, k0).pcs[schedule[k].who].Loaded?
  {
    SecondReservationIff(cfg, d, calls, t, schedule, i, j);
    hide Before, RecordOk, Unreserved, Reserves, Approves, Unshut;
    k :| i < k < j && Approves(calls, Before(cfg, d, calls, t, schedule, k), schedule[k].who)
      && Unshut(cfg, d, calls, t, schedule, k + 1, j);
    k0 := ReopeningOverlaps(cfg, d, calls, t, schedule, i, k);
  }

  // ---- two tokens at the tool ----

  lemma {:induction false} KinServes(cfg: ToolConfig, r: Record, r0: Record, world: Option<string>, call: ToolCall,
                                     a: Authority, now: int)
    requires Kin(r, r0) && Bound(cfg.gate, r0) && Fits(cfg.gate, r0, a)
    ensures Bound(cfg.gate, r) && Fits(cfg.gate, r, a)
    ensures Presents(cfg, r, world, call, a, now) == Presents(cfg, r0, world, call, a, now)
  {
    KinFields(cfg.gate, r, r0);
    hide Kin, Bound, NamesDigests, CarriesParameters;
  }

  /** What is known of an authority that a call was handed, and of the row it meets. */
  lemma {:induction false} HandedAtTurn(cfg: Config, d: string, calls: seq<GateCall>, t: Tables, schedule: seq<Turn>,
                                        n: nat, i: nat, a: Authority)
    requires d in t.records && Unreserved(d, t.records[d]) && RecordOk(cfg, t.records[d]) && n <= |schedule|
    requires i < |calls| && calls[i].Reserver? && HandedTo(Before(cfg, d, calls, t, schedule, n), i, a)
    ensures var rows := Before(cfg, d, calls, t, schedule, n).tables.records;
      d in rows && Kin(rows[d], t.records[d])
    ensures Fits(cfg, t.records[d], a) && a.decisionId == d && a.nonce == t.records[d].nonce
  {
    AfterIsSound(cfg, d, calls, t, schedule[..n]);
    hide After, RecordOk, Fits, Kin;
    var s := Before(cfg, d, calls, t, schedule, n);
    assert CallOk(cfg, d, t.records[d], Asking(d, s.tables), calls[i], s.pcs[i]);
  }

  /** In every interleaving of approvals and reservations: exactly when the tool accepts, after
      `m` turns, the token that one call was handed and then, after `n` turns, that of another. */
  lemma {:induction false} BothServedIff(cfg: ToolConfig, d: string, calls: seq<GateCall>, t: Tables,
                                         schedule: seq<Turn>, used: map<string, UsedAuthority>,
                                         m: nat, i: nat, first: ToolCall, ta: int, worldA: Option<string>,
                                         n: nat, j: nat, second: ToolCall, tb: int, worldB: Option<string>)
    requires d in t.records && Unreserved(d, t.records[d]) && RecordOk(cfg.gate, t.records[d])
    requires m <= n <= |schedule| && ta <= tb && t.records[d].nonce !in used
    requires i < |calls| && j < |calls| && calls[i].Reserver? && calls[j].Reserver?
    requires first.token.Parsed? && second.token.Parsed?
    requires HandedTo(Before(cfg.gate, d, calls, t, schedule, m), i, first.token.authority)
    requires HandedTo(Before(cfg.gate, d, calls, t, schedule, n), j, second.token.authority)
    ensures var s := Before(cfg.gate, d, calls, t, schedule, m).tables;
      var s' := Before(cfg.gate, d, calls, t, schedule, n).tables;
      var a, b := first.token.authority, second.token.authority;
      var (used', fault) := Serve(cfg, s, worldA, used, first, ta);
      && d in s.records && d in s'.records
      && (fault == None && Serve(cfg, s', worldB, used', second, tb).1 == None <==>
           && s.records[d].decision == Allow && Presents(cfg, t.records[d], worldA, first, a, ta)
           && s'.records[d].decision == Allow && Presents(cfg, t.records[d], worldB, second, b, tb)
           && a.expiresAt <= tb / SECOND)
  {
    var gate, r0, a, b := cfg.gate, t.records[d], first.token.authority, second.token.authority;
    var s := Before(gate, d, calls, t, schedule, m).tables;
    var s' := Before(gate, d, calls, t, schedule, n).tables;
    OkIsBound(gate, r0);
    HandedAtTurn(gate, d, calls, t, schedule, m, i, a);
    HandedAtTurn(gate, d, calls, t, schedule, n, j, b);
    hide Before, HandedTo, Unreserved, RecordOk, Bound, Fits, Kin, Presents, Serve;
    KinServes(cfg, s.records[d], r0, worldA, first, a, ta);
    KinServes(cfg, s'.records[d], r0, worldB, second, b, tb);
    FirstTokenAcceptedIff(cfg, s, used, first, a, ta, worldA);
    if Serve(cfg, s, worldA, used, first, ta).1 == None {
      SecondTokenAcceptedIff(cfg, used, s, first, a, ta, worldA, s', second, b, tb, worldB);
    }
  }

  // ---- a decision redeemed twice on SQLite ----

  /** The authority that any reservation of the decision is handed that saves at `now`. */
  function TokenAt(cfg: Config, d: string, r0: Record, now: int): Authority {
    IssueAuthority(cfg, d, r0.(decision := Allow), now)
  }

  lemma {:induction false} SameToken(cfg: Config, d: string, r: Record, r0: Record, now: int)
    requires Kin(r, r0) && r.decision == Allow
    ensures IssueAuthority(cfg, d, r, now) == TokenAt(cfg, d, r0, now)
  {
    KinFields(cfg, r, r0);
    assert r.normalizedAction == Core(r).normalizedAction && r.policySnapshot == Core(r).policySnapshot;
  }

  lemma {:induction false} SaveLeavesOtherKeys(digest: Digest, t: Tables, record: Record, eventType: EventType,
                                               ids: Fresh, other: Fresh)
    requires !KeysTaken(t, other) && Apart(ids, other)
    ensures !KeysTaken(SaveRecord(digest, t, record, eventType, ids).0, other)
  {
    hide Stamped, MaxVersion, BodyFor;
  }

  /** An approval that loaded `r0` is saved, and opens the decision again. */
  lemma {:induction false} ApprovalSaved(cfg: Config, d: string, r0: Record, approval: Approval, ids: Fresh, t: Tables,
                                         now: int)
    requires Unreserved(d, r0) && r0.consumedAt == None && approval.approved && !KeysTaken(t, ids)
    ensures var (t', pc) := ApprovalAccess(cfg, d, approval, ids, t, Loaded(r0), now);
      && pc.Finished? && d in t'.records
      && t'.records[d] == Approved(cfg, r0, approval, now).(auditEventHash := t'.records[d].auditEventHash)
      && Kin(t'.records[d], r0) && t'.records[d].decision == Allow
      && forall other :: !KeysTaken(t, other) && Apart(ids, other) ==> !KeysTaken(t', other)
  {
    hide KeysTaken, MaxVersion, BodyFor, Apart, SaveRecord;
    var next := Approved(cfg, r0, approval, now);
    SavedRecord(cfg.eventDigest, t, next, EventType.ApprovalRecorded, ids);
    CommittedIffFree(cfg.eventDigest, t, next, EventType.ApprovalRecorded, ids);
    forall other | !KeysTaken(t, other) && Apart(ids, other)
      ensures !KeysTaken(SaveRecord(cfg.eventDigest, t, next, EventType.ApprovalRecorded, ids).0, other)
    {
      SaveLeavesOtherKeys(cfg.eventDigest, t, next, EventType.ApprovalRecorded, ids, other);
    }
  }

  /** A reservation that may go ahead and that nothing interrupts is granted. */
  lemma {:induction false} ReservationRuns(cfg: Config, d: string, r0: Record, attempt: Attempt, t: Tables,
                                           load: Turn, try: Turn, save: Turn)
    requires cfg.backend == Sqlite && cfg.authorityReady && !KeysTaken(t, attempt.ids)
    requires d in t.records && Kin(t.records[d], r0) && Unreserved(d, t.records[d]) && t.records[d].decision == Allow
    requires Bound(cfg, r0) && attempt.outcome.tenantId == r0.tenantId && load.now < r0.expiresAt
    requires BindingFault(t.records[d], load.world, attempt.outcome, load.now) == None
    ensures var (t1, pc1) := Access(cfg, d, attempt, t, Waiting, load.now, load.world);
      var (t2, pc2) := Access(cfg, d, attempt, t1, pc1, try.now, try.world);
      var (t3, pc3) := Access(cfg, d, attempt, t2, pc2, save.now, save.world);
      && IsGranted(pc3) && pc3.answer.record.authority == Some(TokenAt(cfg, d, r0, save.now))
      && d in t3.records && t3.records[d].decision == Allow
      && forall other :: !KeysTaken(t, other) && Apart(attempt.ids, other) ==> !KeysTaken(t3, other)
  {
    var r := t.records[d];
    KinFields(cfg, r, r0);
    assert LoadLive(cfg, t, d, attempt.outcome.tenantId, load.now) == Granted(r);
    var t2 := t.(records := t.records[d := r.(startedAt := Some(try.now))]);
    SameToken(cfg, d, r, r0, save.now);
    hide KeysTaken, Kin, Core, Bound, LoadLive, IssueAuthority, TokenAt, Apart, MaxVersion, BodyFor, SaveRecord;
    assert attempt.outcome.nonce == r.nonce;
    var next := Reservation(cfg, d, r, try.now, save.now);
    forall other ensures KeysTaken(t2, other) == KeysTaken(t, other) {
      RowsHoldNoKeys(t, t.records[d := r.(startedAt := Some(try.now))], other);
    }
    CommittedIffFree(cfg.eventDigest, t2, next, ExecutionReserved, attempt.ids);
    SavedRecord(cfg.eventDigest, t2, next, ExecutionReserved, attempt.ids);
    forall other | !KeysTaken(t, other) && Apart(attempt.ids, other)
      ensures !KeysTaken(SaveRecord(cfg.eventDigest, t2, next, ExecutionReserved, attempt.ids).0, other)
    {
      SaveLeavesOtherKeys(cfg.eventDigest, t2, next, ExecutionReserved, attempt.ids, other);
    }
  }

  lemma {:induction false} CommittedIffFree(digest: Digest, t: Tables, record: Record, eventType: EventType, ids: Fresh)
    ensures SaveRecord(digest, t, record, eventType, ids).1.Committed? <==> !KeysTaken(t, ids)
  {
  }

  function IdsOf(call: GateCall): Fresh {
    match call
    case Approver(_, ids) => ids
    case Reserver(attempt) => attempt.ids
  }

  ghost predicate AllApart(calls: seq<GateCall>) {
    forall i, j :: 0 <= i < |calls| && 0 <= j < |calls| && i != j ==> Apart(IdsOf(calls[i]), IdsOf(calls[j]))
  }

  ghost predicate Free(calls: seq<GateCall>, t: Tables, w: nat) {
    w < |calls| && !KeysTaken(t, IdsOf(calls[w]))
  }

  /** Approval `a` holds the record `r0`, and reservation `r` has not begun. */
  ghost predicate Ready(calls: seq<GateCall>, r0: Record, s: State, a: nat, r: nat) {
    && |s.pcs| == |calls| && Free(calls, s.tables, a) && Free(calls, s.tables, r)
    && calls[a].Approver? && calls[r].Reserver? && s.pcs[a] == Loaded(r0) && s.pcs[r] == Waiting
  }

  /** The approval permits the reservation to be loaded. */
  predicate Permits(cfg: Config, r0: Record, approval: Approval, outcome: ExecutionOutcome, saved: int, load: Turn) {
    && approval.approved && outcome.tenantId == r0.tenantId && load.now < r0.expiresAt
    && BindingFault(Approved(cfg, r0, approval, saved), load.world, outcome, load.now) == None
  }

  /** Four turns of a schedule. */
  function Rounds(cfg: Config, d: string, calls: seq<GateCall>, s: State, round: seq<Turn>): State
    requires |s.pcs| == |calls| && |round| == 4
  {
    TakeTurn(cfg, d, calls, TakeTurn(cfg, d, calls, TakeTurn(cfg, d, calls, TakeTurn(cfg, d, calls, s,
      round[0]), round[1]), round[2]), round[3])
  }

  lemma {:induction false} AfterFour(cfg: Config, d: string, calls: seq<GateCall>, t: Tables, schedule: seq<Turn>,
                                     round: seq<Turn>)
    requires |round| == 4
    ensures After(cfg, d, calls, t, schedule + round) == Rounds(cfg, d, calls, After(cfg, d, calls, t, schedule), round)
  {
    hide TakeTurn;
    var all, n := schedule + round, |schedule|;
    assert all[..n] == schedule && all[..n + 4] == all;
    BeforeNext(cfg, d, calls, t, all, n);
    BeforeNext(cfg, d, calls, t, all, n + 1);
    BeforeNext(cfg, d, calls, t, all, n + 2);
    BeforeNext(cfg, d, calls, t, all, n + 3);
    hide After;
  }

  /** The turns of a round: approval `a` saves once, and permits reservation `r`, which takes three. */
  ghost predicate IsRound(cfg: Config, calls: seq<GateCall>, r0: Record, a: nat, r: nat, round: seq<Turn>) {
    && a < |calls| && r < |calls| && calls[a].Approver? && calls[r].Reserver? && |round| == 4
    && round[0].who == a && round[1].who == round[2].who == round[3].who == r
    && Permits(cfg, r0, calls[a].approval, calls[r].attempt.outcome, round[0].now, round[1])
  }

  /** The approval saves; the reservation loads, reserves and saves. */
  lemma {:induction false} RoundGrants(cfg: Config, d: string, calls: seq<GateCall>, r0: Record, s: State,
                                       a: nat, r: nat, round: seq<Turn>)
    requires cfg.backend == Sqlite && cfg.authorityReady && Unreserved(d, r0) && RecordOk(cfg, r0) && AllApart(calls)
    requires Ready(calls, r0, s, a, r) && IsRound(cfg, calls, r0, a, r, round)
    ensures var s' := Rounds(cfg, d, calls, s, round);
      && |s'.pcs| == |calls| && HandedTo(s', r, TokenAt(cfg, d, r0, round[3].now))
      && d in s'.tables.records && s'.tables.records[d].decision == Allow
      && (forall w :: 0 <= w < |calls| && w != a && w != r ==>
           s'.pcs[w] == s.pcs[w] && (Free(calls, s.tables, w) ==> Free(calls, s'.tables, w)))
  {
    var approval, ids, attempt := calls[a].approval, calls[a].ids, calls[r].attempt;
    assert r0.consumedAt == None && Bound(cfg, r0);
    hide Bound, RecordOk, KeysTaken, Apart, TokenAt, Kin, BindingFault, Approved;
    ApprovalSaved(cfg, d, r0, approval, ids, s.tables, round[0].now);
    var t1 := ApprovalAccess(cfg, d, approval, ids, s.tables, Loaded(r0), round[0].now).0;
    var row := t1.records[d];
    ApprovedIsOpen(cfg, d, r0, approval, round[0].now, row, round[1].world, attempt.outcome, round[1].now);
    ReservationRuns(cfg, d, r0, attempt, t1, round[1], round[2], round[3]);
    hide Access, ApprovalAccess, Unreserved;
  }

  /** Two approvals that hold the same record, each saved before one of two reservations: both are granted. */
  lemma {:induction false} TwoRoundsGrant(cfg: Config, d: string, calls: seq<GateCall>, r0: Record, t: Tables,
                                          loads: seq<Turn>, a: nat, r: nat, round: seq<Turn>,
                                          a': nat, r': nat, round': seq<Turn>)
    requires cfg.backend == Sqlite && cfg.authorityReady && Unreserved(d, r0) && RecordOk(cfg, r0) && AllApart(calls)
    requires Ready(calls, r0, After(cfg, d, calls, t, loads), a, r) && IsRound(cfg, calls, r0, a, r, round)
    requires Ready(calls, r0, After(cfg, d, calls, t, loads), a', r') && IsRound(cfg, calls, r0, a', r', round')
    requires a != a' && r != r'
    ensures var s := After(cfg, d, calls, t, loads + round + round');
      && HandedTo(s, r, TokenAt(cfg, d, r0, round[3].now)) && HandedTo(s, r', TokenAt(cfg, d, r0, round'[3].now))
      && d in s.tables.records && s.tables.records[d].decision == Allow
  {
    AfterFour(cfg, d, calls, t, loads, round);
    AfterFour(cfg, d, calls, t, loads + round, round');
    hide After, Unreserved, RecordOk, AllApart, Rounds, TokenAt, Free, Permits;
    RoundGrants(cfg, d, calls, r0, After(cfg, d, calls, t, loads), a, r, round);
    RoundGrants(cfg, d, calls, r0, After(cfg, d, calls, t, loads + round), a', r', round');
  }

  lemma {:induction false} ApprovedIsOpen(cfg: Config, d: string, r0: Record, approval: Approval, saved: int,
                                          row: Record, world: Option<string>, outcome: ExecutionOutcome, now: int)
    requires Unreserved(d, r0) && row == Approved(cfg, r0, approval, saved).(auditEventHash := row.auditEventHash)
    ensures Unreserved(d, row)
    ensures BindingFault(row, world, outcome, now)
         == BindingFault(Approved(cfg, r0, approval, saved), world, outcome, now)
  {
  }

  /** Two approvals and two reservations of the decision `r`. */
  function MailCalls(r: Record): seq<GateCall> {
    var approval := Approval("approver", true, r.actionHash, "tenant", r.policySnapshot.version, Some(600), "");
    [Approver(approval, Fresh("e1", "v1", "r1", 700_000)), Approver(approval, Fresh("e2", "v2", "r2", 950_000)),
     Reserver(Attempt(PlainOutcome(r), Fresh("e3", "v3", "r3", 900_000))),
     Reserver(Attempt(PlainOutcome(r), Fresh("e4", "v4", "r4", 1_000_000)))]
  }

  /** Both approvals load at 0.6 s. The first saves at 0.7 s, and a reservation is granted; the second
      saves at 0.95 s, and the other reservation is granted. */
  const MAIL_LOADS: seq<Turn> := [Turn(0, 600_000, W1), Turn(1, 600_000, W1)]
  const FIRST_ROUND: seq<Turn> :=
    [Turn(0, 700_000, W1), Turn(2, 800_000, W1), Turn(2, 800_000, W1), Turn(2, 900_000, W1)]
  const SECOND_ROUND: seq<Turn> :=
    [Turn(1, 950_000, W1), Turn(3, 960_000, W1), Turn(3, 960_000, W1), Turn(3, 1_000_000, W1)]

  /** What the example needs of the evaluated decision. */
  ghost predicate MailRow(cfg: Config, r: Record) {
    && Unreserved("d", r) && RecordOk(cfg, r) && r.decision == Ask && r.evidenceVerdict == Pass
    && r.tenantId == "tenant" && r.expiresAt == 300_500_000 && r.nonce == "n" && r.worldVersion == W1
    && r.request.actorId == None && r.request.sessionId == None
  }

  lemma {:induction false} MailIsAsked(cfg: Config)
    requires cfg.policy == DEFAULT_POLICY && !cfg.production && !cfg.requireSession && cfg.decisionTtl == 300
    ensures var t := Evaluated(cfg, "send_email");
      && "d" in t.records && MailRow(cfg, t.records["d"])
      && t.records["d"] == PlainRecord(cfg, "send_email", Ask).(auditEventHash := t.records["d"].auditEventHash)
      && forall w :: 0 <= w < 4 ==> Free(MailCalls(t.records["d"]), t, w)
  {
    assert Lower("send_email") == "send_email";
    PipelineTable(PlainRequest("send_email"), DEFAULT_POLICY);
    EvaluatedIsPlain(cfg, "send_email", Ask);
    MailFields(cfg);
    hide RecordOk, Evaluated, KeysTaken, Pipeline, PlainRecord;
    var calls := MailCalls(Evaluated(cfg, "send_email").records["d"]);
    forall w | 0 <= w < 4 ensures Apart(CREATED, IdsOf(calls[w])) {
      MailIdsAreApart(calls, Evaluated(cfg, "send_email").records["d"]);
    }
  }

  lemma {:induction false} MailFields(cfg: Config)
    ensures var r := PlainRecord(cfg, "send_email", Ask);
      && r.evidenceVerdict == Pass && r.tenantId == "tenant" && r.worldVersion == W1
      && r.request.actorId == None && r.request.sessionId == None
  {
    assert Gate([], 500_000).verdict == Pass;
  }

  lemma {:induction false} MailIdsAreApart(calls: seq<GateCall>, r: Record)
    requires calls == MailCalls(r)
    ensures AllApart(calls) && forall w :: 0 <= w < |calls| ==> Apart(CREATED, IdsOf(calls[w]))
  {
    assert "e0" != "e1" && "e0" != "e2" && "e0" != "e3" && "e0" != "e4";
    assert "v0" != "v1" && "v0" != "v2" && "v0" != "v3" && "v0" != "v4";
  }

  /** Either approval permits either reservation. */
  lemma {:induction false} MailPermits(cfg: Config, r: Record, saved: int, load: Turn)
    requires MailRow(cfg, r) && 600_000 <= saved <= load.now <= 1_000_000 && load.world == W1
    ensures Permits(cfg, r, MailCalls(r)[0].approval, PlainOutcome(r), saved, load)
  {
    assert r.contradictions == [];
    hide RecordOk;
  }

  lemma {:induction false} MailAreRounds(cfg: Config, r: Record)
    requires MailRow(cfg, r)
    ensures IsRound(cfg, MailCalls(r), r, 0, 2, FIRST_ROUND) && IsRound(cfg, MailCalls(r), r, 1, 3, SECOND_ROUND)
  {
    MailPermits(cfg, r, 700_000, FIRST_ROUND[1]);
    MailPermits(cfg, r, 950_000, SECOND_ROUND[1]);
    hide MailRow, Permits;
  }

  /** After the two loads both approvals hold the evaluated record. */
  lemma {:induction false} BothLoad(cfg: Config, t: Tables)
    requires !cfg.production && "d" in t.records && MailRow(cfg, t.records["d"])
    ensures var r0 := t.records["d"];
      After(cfg, "d", MailCalls(r0), t, MAIL_LOADS) == State(t, [Loaded(r0), Loaded(r0), Waiting, Waiting])
  {
    var r0 := t.records["d"];
    var calls, s := MailCalls(r0), MAIL_LOADS;
    assert LoadLive(cfg, t, "d", "tenant", 600_000) == Granted(r0);
    assert Front(s) == s[..1] && Front(s[..1]) == [] && Last(s[..1]) == s[0];
    assert ApprovalFault(cfg, r0, calls[0].approval) == None;
    hide LoadLive, ApprovalFault, MailRow;
    assert After(cfg, "d", calls, t, []).pcs == [Waiting, Waiting, Waiting, Waiting];
    assert After(cfg, "d", calls, t, s[..1]) == State(t, [Loaded(r0), Waiting, Waiting, Waiting]);
  }

  /** Both reservations are granted. */
  lemma {:induction false} MailTurns(cfg: Config, t: Tables)
    requires cfg.backend == Sqlite && cfg.authorityReady && !cfg.production
    requires "d" in t.records && MailRow(cfg, t.records["d"])
    requires forall w :: 0 <= w < 4 ==> Free(MailCalls(t.records["d"]), t, w)
    ensures var r0 := t.records["d"];
      var s := After(cfg, "d", MailCalls(r0), t, MAIL_LOADS + FIRST_ROUND + SECOND_ROUND);
      && HandedTo(s, 2, TokenAt(cfg, "d", r0, 900_000)) && HandedTo(s, 3, TokenAt(cfg, "d", r0, 1_000_000))
      && "d" in s.tables.records && s.tables.records["d"].decision == Allow
  {
    var r0 := t.records["d"];
    var calls := MailCalls(r0);
    BothLoad(cfg, t);
    MailIdsAreApart(calls, r0);
    MailAreRounds(cfg, r0);
    assert After(cfg, "d", calls, t, MAIL_LOADS).pcs == [Loaded(r0), Loaded(r0), Waiting, Waiting];
    hide After, Free, AllApart, TokenAt, IsRound, RecordOk;
    TwoRoundsGrant(cfg, "d", calls, r0, t, MAIL_LOADS, 0, 2, FIRST_ROUND, 1, 3, SECOND_ROUND);
  }

  /** The two tokens at the tool. */
  lemma {:induction false} MailIsServed(cfg: ToolConfig, t: Tables)
    requires "d" in t.records && MailRow(cfg.gate, t.records["d"])
    requires var r0 := t.records["d"];
      var s := After(cfg.gate, "d", MailCalls(r0), t, MAIL_LOADS + FIRST_ROUND + SECOND_ROUND);
      && HandedTo(s, 2, TokenAt(cfg.gate, "d", r0, 900_000)) && HandedTo(s, 3, TokenAt(cfg.gate, "d", r0, 1_000_000))
      && "d" in s.tables.records && s.tables.records["d"].decision == Allow
      && Matches(cfg, r0, W1, PlainCall(r0, TokenAt(cfg.gate, "d", r0, 900_000)))
    ensures ServedTwice(cfg, t.records["d"],
                        After(cfg.gate, "d", MailCalls(t.records["d"]), t, MAIL_LOADS + FIRST_ROUND + SECOND_ROUND),
                        2, 3)
  {
    var gate, r0 := cfg.gate, t.records["d"];
    var calls, all := MailCalls(r0), MAIL_LOADS + FIRST_ROUND + SECOND_ROUND;
    var a, b := TokenAt(gate, "d", r0, 900_000), TokenAt(gate, "d", r0, 1_000_000);
    TokenExpiry(gate, "d", r0.(decision := Allow), 900_000);
    TokenExpiry(gate, "d", r0.(decision := Allow), 1_000_000);
    assert all[..|all|] == all;
    assert calls[2].Reserver? && calls[3].Reserver?;
    hide After, TokenAt, IssueAuthority, Matches, RecordOk, Serve, MailCalls;
    var first, second := PlainCall(r0, a), PlainCall(r0, b);
    TokenIsApart(cfg, r0, W1, first, Parsed(b));
    BothServedIff(cfg, "d", calls, t, all, map[], |all|, 2, first, 298_000_000, W1,
                  |all|, 3, second, 299_000_000, W1);
  }

  /** From an evaluation that says ASK, on SQLite: two approvals that overlap make two reservations
      succeed, and the tool accepts the first token at 298 s and the second at 299 s. */
  lemma {:induction false} SqliteOverlapExample(cfg: ToolConfig)
    requires Deployed(cfg, Sqlite)
    ensures var t := Evaluated(cfg.gate, "send_email");
      && "d" in t.records
      && ServedTwice(cfg, t.records["d"],
                     After(cfg.gate, "d", MailCalls(t.records["d"]), t, MAIL_LOADS + FIRST_ROUND + SECOND_ROUND), 2, 3)
  {
    var gate, t := cfg.gate, Evaluated(cfg.gate, "send_email");
    MailIsAsked(gate);
    var r0 := t.records["d"];
    MailTurns(gate, t);
    PlainMatches(cfg, Sqlite, r0, "send_email", Ask, TokenAt(gate, "d", r0, 900_000));
    hide Evaluated, Deployed, MailRow, Matches, TokenAt, After;
    MailIsServed(cfg, t);
  }
}
