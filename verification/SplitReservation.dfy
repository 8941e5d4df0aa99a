/** The reservation handler one database access at a time: any number of overlapping calls on one
    decision load the record, reserve it, and save it with an authority. What the tool then
    accepts below the granularity of whole handlers. */
module SplitReservation {
  import opened Prelude
  import opened HashChain
  import opened EvidenceGate
  import opened Policy
  import opened Records
  import opened Storage
  import opened GateHandlers
  import opened ToolServer
  import opened GateInvariant
  import opened GateAcceptance

  /** One call of the handler. */
  datatype Attempt = Attempt(outcome: ExecutionOutcome, ids: Fresh)

  datatype Pc = Waiting | Loaded(record: Record) | Holding(record: Record, startedAt: int) | Finished(answer: Answer)

  /** Call `who` makes its next access at time `now`, in the world that is then current. */
  datatype Turn = Turn(who: nat, now: int, world: Option<string>)

  /** The record that the handler saves: stamped at its reservation, with an authority issued now. */
  function Reservation(cfg: Config, d: string, r: Record, startedAt: int, now: int): Record {
    r.(startedAt := Some(startedAt),
       authority := Some(IssueAuthority(cfg, d, r, now)),
       execution := Some(ExecutionRecord(startedAt, Reserved, r.actionHash, r.nonce)))
  }

  function Access(cfg: Config, d: string, attempt: Attempt, t: Tables, pc: Pc, now: int,
                  world: Option<string>): (Tables, Pc) {
    match pc
    case Waiting =>
      var loaded := LoadLive(cfg, t, d, attempt.outcome.tenantId, now);
      (t, if loaded.Refused? then Finished(loaded)
          else
            var fault := BindingFault(loaded.record, world, attempt.outcome, now);
            if fault.Some? then Finished(Refused(fault.value)) else Loaded(loaded.record))
    case Loaded(r) =>
      var (t', reserved) := Reserve(cfg.backend, t, d, attempt.outcome.nonce, now);
      (t', if !reserved then Finished(Refused(AlreadyReserved))
           else if !cfg.authorityReady then Finished(Refused(AuthorityNotConfigured))
           else Holding(r, now))
    case Holding(r, startedAt) =>
      var next := Reservation(cfg, d, r, startedAt, now);
      var (t', saved) := SaveRecord(cfg.eventDigest, t, next, ExecutionReserved, attempt.ids);
      (t', Finished(if saved.Committed? then Granted(saved.value) else Refused(StoreFailure)))
    case Finished(_) => (t, pc)
  }

  /** Three accesses without interruption and with one clock reading are the whole handler. */
  lemma {:induction false} AccessesAreTheHandler(cfg: Config, d: string, attempt: Attempt, t: Tables, now: int,
                                                 world: Option<string>)
    ensures var (t1, pc1) := Access(cfg, d, attempt, t, Waiting, now, world);
      var (t2, pc2) := Access(cfg, d, attempt, t1, pc1, now, world);
      var (t3, pc3) := Access(cfg, d, attempt, t2, pc2, now, world);
      var (t', answer) := ExecutionReserve(cfg, t, world, d, attempt.outcome, attempt.ids, now);
      t3 == t' && pc3 == Finished(answer)
  {
    hide LoadLive, BindingFault, Reserve, SaveRecord, IssueAuthority;
  }

  // ---- interleavings ----

  datatype State = State(tables: Tables, pcs: seq<Pc>)

  function StepTurn(cfg: Config, d: string, attempts: seq<Attempt>, s: State, turn: Turn): (s': State)
    requires |s.pcs| == |attempts|
    ensures |s'.pcs| == |attempts|
  {
    if turn.who >= |attempts| then s
    else
      var (t, pc) := Access(cfg, d, attempts[turn.who], s.tables, s.pcs[turn.who], turn.now, turn.world);
      State(t, s.pcs[turn.who := pc])
  }

  function Interleave(cfg: Config, d: string, attempts: seq<Attempt>, t: Tables, schedule: seq<Turn>): (s: State)
    ensures |s.pcs| == |attempts|
  {
    if schedule == [] then State(t, seq(|attempts|, _ => Waiting))
    else StepTurn(cfg, d, attempts, Interleave(cfg, d, attempts, t, Front(schedule)), Last(schedule))
  }

  predicate IsGranted(pc: Pc) {
    pc.Finished? && pc.answer.Granted?
  }

  predicate IsRefused(pc: Pc) {
    pc.Finished? && pc.answer.Refused?
  }

  /** Random ids: none is taken, and no two calls draw the same. */
  ghost predicate FreshIds(t: Tables, attempts: seq<Attempt>) {
    && (forall i :: 0 <= i < |attempts| ==> !KeysTaken(t, attempts[i].ids))
    && (forall i, j :: 0 <= i < j < |attempts| ==> Apart(attempts[i].ids, attempts[j].ids))
  }

  predicate Apart(a: Fresh, b: Fresh) {
    a.eventId != b.eventId && a.versionId != b.versionId
  }

  // ---- what decides a call, read off the schedule ----

  /** How many turns call `i` has had. */
  function Turns(schedule: seq<Turn>, i: nat): nat {
    if schedule == [] then 0 else Turns(Front(schedule), i) + (if Last(schedule).who == i then 1 else 0)
  }

  /** The stored decision permits this call at this time. */
  predicate Admitted(cfg: Config, d: string, t: Tables, outcome: ExecutionOutcome, now: int, world: Option<string>) {
    var loaded := LoadLive(cfg, t, d, outcome.tenantId, now);
    loaded.Granted? && BindingFault(loaded.record, world, outcome, now) == None
  }

  /** Call `i` was admitted at its first turn. */
  predicate Admits(cfg: Config, d: string, attempts: seq<Attempt>, t: Tables, schedule: seq<Turn>, i: nat)
    requires i < |attempts|
  {
    && schedule != []
    && var turn := Last(schedule);
       if turn.who == i && Turns(Front(schedule), i) == 0 then
         Admitted(cfg, d, t, attempts[i].outcome, turn.now, turn.world)
       else Admits(cfg, d, attempts, t, Front(schedule), i)
  }

  /** Some admitted call has made the access that shows in the row: its second turn, which
      reserves, on SQLite, and its third turn, which saves, on PostgreSQL. */
  predicate Closed(cfg: Config, d: string, attempts: seq<Attempt>, t: Tables, schedule: seq<Turn>) {
    && schedule != []
    && (|| Closed(cfg, d, attempts, t, Front(schedule))
        || Closes(cfg, d, attempts, t, Front(schedule), Last(schedule).who))
  }

  predicate Closes(cfg: Config, d: string, attempts: seq<Attempt>, t: Tables, before: seq<Turn>, i: nat) {
    && i < |attempts| && Admits(cfg, d, attempts, t, before, i)
    && if cfg.backend == Sqlite then Turns(before, i) == 1 else cfg.authorityReady && Turns(before, i) == 2
  }

  /** Call `i` was admitted, and its second turn came before any call closed the row. */
  predicate Passes(cfg: Config, d: string, attempts: seq<Attempt>, t: Tables, schedule: seq<Turn>, i: nat)
    requires i < |attempts|
  {
    && schedule != []
    && if Last(schedule).who == i && Turns(Front(schedule), i) == 1 then
         && Admits(cfg, d, attempts, t, Front(schedule), i)
         && cfg.authorityReady && !Closed(cfg, d, attempts, t, Front(schedule))
       else Passes(cfg, d, attempts, t, Front(schedule), i)
  }

  /** When call `i` saved and was handed its authority: the time of its third turn, if it passed. */
  function GrantTime(cfg: Config, d: string, attempts: seq<Attempt>, t: Tables, schedule: seq<Turn>,
                     i: nat): Option<int>
    requires i < |attempts|
  {
    if schedule == [] then None
    else if Last(schedule).who == i && Turns(Front(schedule), i) == 2 then
      if Passes(cfg, d, attempts, t, Front(schedule), i) then Some(Last(schedule).now) else None
    else GrantTime(cfg, d, attempts, t, Front(schedule), i)
  }

  // ---- the invariant ----

  /** An unreserved decision. */
  predicate Unreserved(d: string, r0: Record) {
    r0.decisionId == d && r0.startedAt == None
  }

  /** `r` differs from `r0` only in what reservations write. */
  predicate SameDecision(r: Record, r0: Record) {
    r == r0.(startedAt := r.startedAt, authority := r.authority, execution := r.execution,
             auditEventHash := r.auditEventHash)
  }

  lemma {:induction false} SameDecisionFields(r: Record, r0: Record)
    requires SameDecision(r, r0)
    ensures r.decisionId == r0.decisionId && r.tenantId == r0.tenantId && r.nonce == r0.nonce
    ensures r.consumedAt == r0.consumedAt && r.expiresAt == r0.expiresAt && r.decision == r0.decision
    ensures r.evidenceVerdict == r0.evidenceVerdict && r.worldVersion == r0.worldVersion && r.request == r0.request
    ensures r.actionHash == r0.actionHash && r.policyHash == r0.policyHash
  {
  }

  lemma {:induction false} SameIssue(cfg: Config, d: string, r: Record, r0: Record, now: int)
    requires SameDecision(r, r0)
    ensures IssueAuthority(cfg, d, r, now) == IssueAuthority(cfg, d, r0, now)
  {
  }

  /** Reservations of others change nothing about whether a call is admitted. */
  lemma {:induction false} LoadAccess(cfg: Config, d: string, attempt: Attempt, t: Tables, s: Tables, turn: Turn)
    requires d in t.records && d in s.records && SameDecision(s.records[d], t.records[d])
    ensures var (s', pc) := Access(cfg, d, attempt, s, Waiting, turn.now, turn.world);
      && s' == s
      && if Admitted(cfg, d, t, attempt.outcome, turn.now, turn.world) then pc == Loaded(s.records[d])
         else IsRefused(pc)
  {
    assert SignedPartOf(s.records[d]) == SignedPartOf(t.records[d]);
    assert BindingFault(s.records[d], turn.world, attempt.outcome, turn.now)
        == BindingFault(t.records[d], turn.world, attempt.outcome, turn.now);
  }

  lemma {:induction false} AdmittedFacts(cfg: Config, d: string, t: Tables, outcome: ExecutionOutcome, now: int,
                                         world: Option<string>)
    requires Admitted(cfg, d, t, outcome, now, world)
    ensures d in t.records && t.records[d].consumedAt == None && outcome.nonce == t.records[d].nonce
    ensures t.records[d].decision == Allow && t.records[d].evidenceVerdict == Pass
  {
  }

  lemma {:induction false} AdmitsFacts(cfg: Config, d: string, attempts: seq<Attempt>, t: Tables, schedule: seq<Turn>,
                                       i: nat)
    requires i < |attempts| && Admits(cfg, d, attempts, t, schedule, i)
    ensures d in t.records && t.records[d].consumedAt == None && attempts[i].outcome.nonce == t.records[d].nonce
    ensures t.records[d].decision == Allow && t.records[d].evidenceVerdict == Pass
  {
    hide Admitted;
    var turn := Last(schedule);
    if turn.who == i && Turns(Front(schedule), i) == 0 {
      AdmittedFacts(cfg, d, t, attempts[i].outcome, turn.now, turn.world);
    } else {
      AdmitsFacts(cfg, d, attempts, t, Front(schedule), i);
    }
  }

  lemma {:induction false} ReserveAccess(cfg: Config, d: string, attempt: Attempt, s: Tables, r: Record, turn: Turn)
    requires d in s.records && s.records[d].nonce == attempt.outcome.nonce && s.records[d].consumedAt == None
    ensures var (s', pc) := Access(cfg, d, attempt, s, Loaded(r), turn.now, turn.world);
      if s.records[d].startedAt.Some? then s' == s && IsRefused(pc)
      else
        && s' == (if cfg.backend == Postgres then s
                  else s.(records := s.records[d := s.records[d].(startedAt := Some(turn.now))]))
        && (if cfg.authorityReady then pc == Holding(r, turn.now) else IsRefused(pc))
  {
  }

  lemma {:induction false} SaveAccess(cfg: Config, d: string, attempt: Attempt, r0: Record, s: Tables, r: Record,
                                      startedAt: int, turn: Turn)
    requires !KeysTaken(s, attempt.ids) && SameDecision(r, r0) && r0.decisionId == d
    ensures var (s', pc) := Access(cfg, d, attempt, s, Holding(r, startedAt), turn.now, turn.world);
      && IsGranted(pc) && s'.records == s.records[d := pc.answer.record]
      && SameDecision(pc.answer.record, r0) && pc.answer.record.startedAt.Some?
      && pc.answer.record.authority == Some(IssueAuthority(cfg, d, r0, turn.now))
      && pc.answer.record
         == Reservation(cfg, d, r0, startedAt, turn.now).(auditEventHash := pc.answer.record.auditEventHash)
  {
    hide IssueAuthority, KeysTaken, MaxVersion, BodyFor;
    SameIssue(cfg, d, r, r0, turn.now);
    SavedRecord(cfg.eventDigest, s, Reservation(cfg, d, r, startedAt, turn.now), ExecutionReserved, attempt.ids);
  }

  lemma {:induction false} SaveTakesOwnKeys(cfg: Config, d: string, attempt: Attempt, s: Tables, r: Record,
                                            startedAt: int, turn: Turn, other: Fresh)
    requires !KeysTaken(s, attempt.ids) && !KeysTaken(s, other) && Apart(attempt.ids, other)
    ensures !KeysTaken(Access(cfg, d, attempt, s, Holding(r, startedAt), turn.now, turn.world).0, other)
  {
    hide IssueAuthority, MaxVersion, BodyFor, Stamped;
  }

  /** Where call `i` stands after `schedule`. */
  ghost predicate Stands(cfg: Config, d: string, attempts: seq<Attempt>, t: Tables, schedule: seq<Turn>, i: nat, pc: Pc)
    requires i < |attempts| && d in t.records
  {
    var turns := Turns(schedule, i);
    if turns == 0 then pc == Waiting
    else if !Admits(cfg, d, attempts, t, schedule, i) then IsRefused(pc)
    else if turns == 1 then pc.Loaded? && SameDecision(pc.record, t.records[d])
    else if !Passes(cfg, d, attempts, t, schedule, i) then IsRefused(pc)
    else if turns == 2 then pc.Holding? && SameDecision(pc.record, t.records[d])
    else
      && IsGranted(pc) && GrantTime(cfg, d, attempts, t, schedule, i).Some?
      && SameDecision(pc.answer.record, t.records[d])
      && pc.answer.record.authority
         == Some(IssueAuthority(cfg, d, t.records[d], GrantTime(cfg, d, attempts, t, schedule, i).value))
  }

  ghost predicate Going(cfg: Config, d: string, attempts: seq<Attempt>, t: Tables, schedule: seq<Turn>, s: State)
    requires |s.pcs| == |attempts| && d in t.records
  {
    && d in s.tables.records && SameDecision(s.tables.records[d], t.records[d])
    && (s.tables.records[d].startedAt.Some? <==> Closed(cfg, d, attempts, t, schedule))
    && (forall i :: 0 <= i < |attempts| ==> Stands(cfg, d, attempts, t, schedule, i, s.pcs[i]))
    && (forall i :: 0 <= i < |attempts| && Turns(schedule, i) <= 2 ==> !KeysTaken(s.tables, attempts[i].ids))
  }

  /** A turn of another call leaves a call where it stands. */
  lemma {:induction false} OthersStand(cfg: Config, d: string, attempts: seq<Attempt>, t: Tables, schedule: seq<Turn>,
                                       i: nat, pc: Pc)
    requires i < |attempts| && d in t.records && schedule != [] && Last(schedule).who != i
    requires Stands(cfg, d, attempts, t, Front(schedule), i, pc)
    ensures Stands(cfg, d, attempts, t, schedule, i, pc)
  {
  }

  /** An admitted call that did not pass had its second turn after the row was closed. */
  lemma {:induction false} FailedMeansClosed(cfg: Config, d: string, attempts: seq<Attempt>, t: Tables,
                                             schedule: seq<Turn>, i: nat)
    requires i < |attempts| && cfg.authorityReady && Turns(schedule, i) >= 2
    requires Admits(cfg, d, attempts, t, schedule, i) && !Passes(cfg, d, attempts, t, schedule, i)
    ensures Closed(cfg, d, attempts, t, schedule)
  {
    hide Admitted, Closes;
    var turn := Last(schedule);
    if !(turn.who == i && Turns(Front(schedule), i) == 1) {
      FailedMeansClosed(cfg, d, attempts, t, Front(schedule), i);
    }
  }

  /** What a turn of call `w` has to establish. */
  ghost predicate MovesOn(cfg: Config, d: string, attempts: seq<Attempt>, t: Tables, schedule: seq<Turn>, s: Tables,
                          pc: Pc)
    requires schedule != [] && Last(schedule).who < |attempts| && d in t.records
  {
    && d in s.records && SameDecision(s.records[d], t.records[d])
    && (s.records[d].startedAt.Some? <==> Closed(cfg, d, attempts, t, schedule))
    && Stands(cfg, d, attempts, t, schedule, Last(schedule).who, pc)
    && (forall i :: 0 <= i < |attempts| && Turns(schedule, i) <= 2 ==> !KeysTaken(s, attempts[i].ids))
  }

  lemma {:induction false} FirstTurn(cfg: Config, d: string, attempts: seq<Attempt>, t: Tables, schedule: seq<Turn>,
                                     s: State)
    requires schedule != [] && Last(schedule).who < |attempts| && |s.pcs| == |attempts| && d in t.records
    requires Going(cfg, d, attempts, t, Front(schedule), s) && Turns(Front(schedule), Last(schedule).who) == 0
    ensures var turn := Last(schedule);
      var (s', pc) := Access(cfg, d, attempts[turn.who], s.tables, s.pcs[turn.who], turn.now, turn.world);
      MovesOn(cfg, d, attempts, t, schedule, s', pc)
  {
    hide Access, Admitted, KeysTaken, SameDecision;
    var turn := Last(schedule);
    LoadAccess(cfg, d, attempts[turn.who], t, s.tables, turn);
  }

  lemma {:induction false} SecondTurn(cfg: Config, d: string, attempts: seq<Attempt>, t: Tables, schedule: seq<Turn>,
                                      s: State)
    requires schedule != [] && Last(schedule).who < |attempts| && |s.pcs| == |attempts| && d in t.records
    requires Going(cfg, d, attempts, t, Front(schedule), s) && Turns(Front(schedule), Last(schedule).who) == 1
    requires Admits(cfg, d, attempts, t, Front(schedule), Last(schedule).who)
    ensures var turn := Last(schedule);
      var (s', pc) := Access(cfg, d, attempts[turn.who], s.tables, s.pcs[turn.who], turn.now, turn.world);
      MovesOn(cfg, d, attempts, t, schedule, s', pc)
  {
    hide Access, Admitted, KeysTaken, SameDecision;
    var turn, row := Last(schedule), s.tables.records[d];
    AdmitsFacts(cfg, d, attempts, t, Front(schedule), turn.who);
    SameDecisionFields(row, t.records[d]);
    ReserveAccess(cfg, d, attempts[turn.who], s.tables, s.pcs[turn.who].record, turn);
    var stamped := row.(startedAt := Some(turn.now));
    StampStaysSame(row, t.records[d], turn.now);
    forall i | 0 <= i < |attempts|
      ensures KeysTaken(s.tables.(records := s.tables.records[d := stamped]), attempts[i].ids)
           == KeysTaken(s.tables, attempts[i].ids)
    {
      RowsHoldNoKeys(s.tables, s.tables.records[d := stamped], attempts[i].ids);
    }
  }

  lemma {:induction false} StampStaysSame(r: Record, r0: Record, now: int)
    requires SameDecision(r, r0)
    ensures SameDecision(r.(startedAt := Some(now)), r0)
  {
  }

  lemma {:induction false} RowsHoldNoKeys(t: Tables, records: map<string, Record>, ids: Fresh)
    ensures KeysTaken(t.(records := records), ids) == KeysTaken(t, ids)
  {
  }

  lemma {:induction false} ThirdTurn(cfg: Config, d: string, attempts: seq<Attempt>, t: Tables, schedule: seq<Turn>,
                                     s: State)
    requires schedule != [] && Last(schedule).who < |attempts| && |s.pcs| == |attempts| && d in t.records
    requires FreshIds(t, attempts) && t.records[d].decisionId == d
    requires Going(cfg, d, attempts, t, Front(schedule), s) && Turns(Front(schedule), Last(schedule).who) == 2
    requires Passes(cfg, d, attempts, t, Front(schedule), Last(schedule).who)
    requires Admits(cfg, d, attempts, t, Front(schedule), Last(schedule).who)
    ensures var turn := Last(schedule);
      var (s', pc) := Access(cfg, d, attempts[turn.who], s.tables, s.pcs[turn.who], turn.now, turn.world);
      MovesOn(cfg, d, attempts, t, schedule, s', pc)
  {
    hide Access, Admitted, KeysTaken, SameDecision, Apart;
    var turn := Last(schedule);
    var w, pc := turn.who, s.pcs[turn.who];
    SaveAccess(cfg, d, attempts[w], t.records[d], s.tables, pc.record, pc.startedAt, turn);
    PassedIsReady(cfg, d, attempts, t, Front(schedule), w);
    forall i | 0 <= i < |attempts| && Turns(schedule, i) <= 2
      ensures !KeysTaken(Access(cfg, d, attempts[w], s.tables, pc, turn.now, turn.world).0, attempts[i].ids)
    {
      ApartFrom(t, attempts, w, i);
      SaveTakesOwnKeys(cfg, d, attempts[w], s.tables, pc.record, pc.startedAt, turn, attempts[i].ids);
    }
  }

  lemma {:induction false} ApartFrom(t: Tables, attempts: seq<Attempt>, i: nat, j: nat)
    requires FreshIds(t, attempts) && i < |attempts| && j < |attempts| && i != j
    ensures Apart(attempts[i].ids, attempts[j].ids)
  {
  }

  /** A call that passed could be handed an authority, and on SQLite has closed the row. */
  lemma {:induction false} PassedIsReady(cfg: Config, d: string, attempts: seq<Attempt>, t: Tables,
                                         schedule: seq<Turn>, i: nat)
    requires i < |attempts| && Passes(cfg, d, attempts, t, schedule, i)
    ensures cfg.authorityReady && (cfg.backend == Sqlite ==> Closed(cfg, d, attempts, t, schedule))
  {
    hide Admitted;
    if !(Last(schedule).who == i && Turns(Front(schedule), i) == 1) {
      PassedIsReady(cfg, d, attempts, t, Front(schedule), i);
    }
  }

  /** A turn of a call that has its answer changes nothing, and closes nothing. */
  lemma {:induction false} IdleTurn(cfg: Config, d: string, attempts: seq<Attempt>, t: Tables, schedule: seq<Turn>,
                                    s: State)
    requires schedule != [] && Last(schedule).who < |attempts| && |s.pcs| == |attempts| && d in t.records
    requires Going(cfg, d, attempts, t, Front(schedule), s) && s.pcs[Last(schedule).who].Finished?
    ensures var turn := Last(schedule);
      var (s', pc) := Access(cfg, d, attempts[turn.who], s.tables, s.pcs[turn.who], turn.now, turn.world);
      MovesOn(cfg, d, attempts, t, schedule, s', pc)
  {
    hide Admitted, KeysTaken, SameDecision;
    var turn := Last(schedule);
    if cfg.authorityReady && Turns(Front(schedule), turn.who) == 2
       && Admits(cfg, d, attempts, t, Front(schedule), turn.who) {
      FailedMeansClosed(cfg, d, attempts, t, Front(schedule), turn.who);
    }
  }

  lemma {:induction false} TurnKeeps(cfg: Config, d: string, attempts: seq<Attempt>, t: Tables, schedule: seq<Turn>,
                                     s: State)
    requires schedule != [] && |s.pcs| == |attempts| && d in t.records && t.records[d].decisionId == d
    requires FreshIds(t, attempts) && Going(cfg, d, attempts, t, Front(schedule), s)
    ensures Going(cfg, d, attempts, t, schedule, StepTurn(cfg, d, attempts, s, Last(schedule)))
  {
    hide Access, Admitted, Admits, Passes, KeysTaken, SameDecision, FreshIds;
    var turn, before := Last(schedule), Front(schedule);
    var w := turn.who;
    if w < |attempts| {
      if Turns(before, w) == 0 {
        FirstTurn(cfg, d, attempts, t, schedule, s);
      } else if s.pcs[w].Finished? {
        IdleTurn(cfg, d, attempts, t, schedule, s);
      } else if Turns(before, w) == 1 {
        SecondTurn(cfg, d, attempts, t, schedule, s);
      } else {
        ThirdTurn(cfg, d, attempts, t, schedule, s);
      }
    }
    var s' := StepTurn(cfg, d, attempts, s, turn);
    forall i | 0 <= i < |attempts| ensures Stands(cfg, d, attempts, t, schedule, i, s'.pcs[i]) {
      if i != w {
        OthersStand(cfg, d, attempts, t, schedule, i, s.pcs[i]);
      }
    }
  }

  lemma {:induction false} InterleaveKeeps(cfg: Config, d: string, attempts: seq<Attempt>, t: Tables,
                                           schedule: seq<Turn>)
    requires d in t.records && Unreserved(d, t.records[d]) && FreshIds(t, attempts)
    ensures Going(cfg, d, attempts, t, schedule, Interleave(cfg, d, attempts, t, schedule))
  {
    hide StepTurn, KeysTaken;
    if schedule != [] {
      hide Going;
      InterleaveKeeps(cfg, d, attempts, t, Front(schedule));
      TurnKeeps(cfg, d, attempts, t, schedule, Interleave(cfg, d, attempts, t, Front(schedule)));
    }
  }

  /** Exactly which calls are granted, and with which authority, in every interleaving: those that
      were admitted and reserved before any call closed the row, with an authority issued at
      their third turn. */
  lemma {:induction false} GrantedIff(cfg: Config, d: string, attempts: seq<Attempt>, t: Tables, schedule: seq<Turn>,
                                      i: nat)
    requires d in t.records && Unreserved(d, t.records[d]) && FreshIds(t, attempts) && i < |attempts|
    ensures var pc := Interleave(cfg, d, attempts, t, schedule).pcs[i];
      var time := GrantTime(cfg, d, attempts, t, schedule, i);
      && (IsGranted(pc) <==> time.Some?)
      && (time.Some? ==> pc.answer.record.authority == Some(IssueAuthority(cfg, d, t.records[d], time.value)))
  {
    InterleaveKeeps(cfg, d, attempts, t, schedule);
    GrantTimeMeans(cfg, d, attempts, t, schedule, i);
    hide Interleave, Admits, Passes, GrantTime, SameDecision, KeysTaken, IssueAuthority;
  }

  lemma {:induction false} GrantTimeMeans(cfg: Config, d: string, attempts: seq<Attempt>, t: Tables,
                                          schedule: seq<Turn>, i: nat)
    requires i < |attempts|
    ensures GrantTime(cfg, d, attempts, t, schedule, i).Some? <==>
      Turns(schedule, i) >= 3 && Passes(cfg, d, attempts, t, schedule, i)
    ensures Turns(schedule, i) <= 1 ==> !Passes(cfg, d, attempts, t, schedule, i)
    ensures Passes(cfg, d, attempts, t, schedule, i) ==> Admits(cfg, d, attempts, t, schedule, i)
  {
    hide Admitted, Closed;
    if schedule != [] {
      GrantTimeMeans(cfg, d, attempts, t, Front(schedule), i);
    }
  }

  /** On SQLite at most one of any number of overlapping calls is granted. */
  lemma {:induction false} SqliteGrantsOnce(cfg: Config, d: string, attempts: seq<Attempt>, t: Tables,
                                            schedule: seq<Turn>, i: nat, j: nat)
    requires cfg.backend == Sqlite && d in t.records && Unreserved(d, t.records[d]) && FreshIds(t, attempts)
    requires i < |attempts| && j < |attempts| && i != j
    ensures var s := Interleave(cfg, d, attempts, t, schedule); !(IsGranted(s.pcs[i]) && IsGranted(s.pcs[j]))
  {
    hide Interleave, Passes, GrantTime;
    GrantedIff(cfg, d, attempts, t, schedule, i);
    GrantedIff(cfg, d, attempts, t, schedule, j);
    GrantTimeMeans(cfg, d, attempts, t, schedule, i);
    GrantTimeMeans(cfg, d, attempts, t, schedule, j);
    if Passes(cfg, d, attempts, t, schedule, i) && Passes(cfg, d, attempts, t, schedule, j) {
      OnePasses(cfg, d, attempts, t, schedule, i, j);
    }
  }

  lemma {:induction false} OnePasses(cfg: Config, d: string, attempts: seq<Attempt>, t: Tables, schedule: seq<Turn>,
                                     i: nat, j: nat)
    requires cfg.backend == Sqlite && i < |attempts| && j < |attempts| && i != j
    ensures !(Passes(cfg, d, attempts, t, schedule, i) && Passes(cfg, d, attempts, t, schedule, j))
  {
    hide Admitted, Admits, Closed;
    if schedule != [] {
      OnePasses(cfg, d, attempts, t, Front(schedule), i, j);
      if Passes(cfg, d, attempts, t, Front(schedule), i) {
        PassedIsReady(cfg, d, attempts, t, Front(schedule), i);
      }
      if Passes(cfg, d, attempts, t, Front(schedule), j) {
        PassedIsReady(cfg, d, attempts, t, Front(schedule), j);
      }
    }
  }

  /** Exactly when the reservation of a call that has loaded its record is granted: while no call
      has closed the row. */
  lemma {:induction false} PassesIff(cfg: Config, d: string, attempts: seq<Attempt>, t: Tables, schedule: seq<Turn>,
                                     turn: Turn)
    requires d in t.records && Unreserved(d, t.records[d]) && FreshIds(t, attempts) && turn.who < |attempts|
    requires Interleave(cfg, d, attempts, t, schedule).pcs[turn.who].Loaded? && cfg.authorityReady
    ensures Interleave(cfg, d, attempts, t, schedule + [turn]).pcs[turn.who].Holding? <==>
      !Closed(cfg, d, attempts, t, schedule)
  {
    hide Admits, Passes, GrantTime, Access, SameDecision, KeysTaken, IssueAuthority;
    var s, w := Interleave(cfg, d, attempts, t, schedule), turn.who;
    InterleaveKeeps(cfg, d, attempts, t, schedule);
    assert Stands(cfg, d, attempts, t, schedule, w, s.pcs[w]);
    AdmitsFacts(cfg, d, attempts, t, schedule, w);
    SameDecisionFields(s.tables.records[d], t.records[d]);
    ReserveAccess(cfg, d, attempts[w], s.tables, s.pcs[w].record, turn);
    assert Front(schedule + [turn]) == schedule;
  }

  // ---- two tokens at the tool ----

  lemma {:induction false} ReservationIsOk(cfg: Config, d: string, r0: Record, startedAt: int, now: int)
    requires RecordOk(cfg, r0) && r0.decisionId == d && r0.consumedAt == None
    requires r0.decision == Allow && r0.evidenceVerdict == Pass
    ensures RecordOk(cfg, Reservation(cfg, d, r0, startedAt, now))
  {
    assert SignedPartOf(Reservation(cfg, d, r0, startedAt, now)) == SignedPartOf(r0);
  }

  lemma {:induction false} TurnRowIsOk(cfg: Config, d: string, attempts: seq<Attempt>, t: Tables, schedule: seq<Turn>,
                                       s: State)
    requires schedule != [] && |s.pcs| == |attempts| && d in t.records && Unreserved(d, t.records[d])
    requires RecordOk(cfg, t.records[d]) && Going(cfg, d, attempts, t, Front(schedule), s)
    requires RecordOk(cfg, s.tables.records[d])
    ensures var s' := StepTurn(cfg, d, attempts, s, Last(schedule));
      d in s'.tables.records && RecordOk(cfg, s'.tables.records[d])
  {
    hide Access, Admitted, Admits, Passes, GrantTime, KeysTaken, SameDecision, RecordOk, Closed, Reservation;
    var turn, before := Last(schedule), Front(schedule);
    var w := turn.who;
    if w < |attempts| {
      var row, pc := s.tables.records[d], s.pcs[w];
      SameDecisionFields(row, t.records[d]);
      assert Stands(cfg, d, attempts, t, before, w, pc);
      match pc {
        case Waiting =>
          LoadAccess(cfg, d, attempts[w], t, s.tables, turn);
        case Loaded(r) =>
          AdmitsFacts(cfg, d, attempts, t, before, w);
          ReserveAccess(cfg, d, attempts[w], s.tables, r, turn);
          if row.startedAt == None {
            StampedIsOk(cfg, row, turn.now);
          }
        case Holding(r, startedAt) =>
          AdmitsFacts(cfg, d, attempts, t, before, w);
          SaveAccess(cfg, d, attempts[w], t.records[d], s.tables, r, startedAt, turn);
          ReservationIsOk(cfg, d, t.records[d], startedAt, turn.now);
          var saved := Access(cfg, d, attempts[w], s.tables, pc, turn.now, turn.world).1.answer.record;
          AuditHashIsFree(cfg, Reservation(cfg, d, t.records[d], startedAt, turn.now), saved.auditEventHash);
        case Finished(_) =>
          FinishedStays(cfg, d, attempts[w], s.tables, pc, turn);
      }
    }
  }

  lemma {:induction false} FinishedStays(cfg: Config, d: string, attempt: Attempt, s: Tables, pc: Pc, turn: Turn)
    requires pc.Finished?
    ensures Access(cfg, d, attempt, s, pc, turn.now, turn.world) == (s, pc)
  {
  }

  lemma {:induction false} RowIsOk(cfg: Config, d: string, attempts: seq<Attempt>, t: Tables, schedule: seq<Turn>)
    requires d in t.records && Unreserved(d, t.records[d]) && FreshIds(t, attempts) && RecordOk(cfg, t.records[d])
    ensures var row := Interleave(cfg, d, attempts, t, schedule).tables.records;
      d in row && SameDecision(row[d], t.records[d]) && RecordOk(cfg, row[d])
  {
    hide StepTurn, KeysTaken, RecordOk, SameDecision;
    InterleaveKeeps(cfg, d, attempts, t, schedule);
    if schedule != [] {
      RowIsOk(cfg, d, attempts, t, Front(schedule));
      InterleaveKeeps(cfg, d, attempts, t, Front(schedule));
      TurnRowIsOk(cfg, d, attempts, t, schedule, Interleave(cfg, d, attempts, t, Front(schedule)));
    }
  }

  /** The second in which an authority expires that is issued at `now` for a decision that expires
      at `expiry`: the last full second before that, or the one before it if the second of its
      issue was further gone. */
  function ExpirySecond(expiry: int, now: int): int {
    if expiry - now < SECOND then now / SECOND + 1
    else if now % SECOND <= expiry % SECOND then expiry / SECOND
    else expiry / SECOND - 1
  }

  lemma {:induction false} TokenExpiry(cfg: Config, d: string, r: Record, now: int)
    ensures var a := IssueAuthority(cfg, d, r, now);
      a.issuedAt == now / SECOND < a.expiresAt == ExpirySecond(r.expiresAt, now)
  {
    SplitDifference(r.expiresAt, now);
  }

  lemma {:induction false} SplitDifference(e: int, n: int)
    ensures (e - n) / SECOND == e / SECOND - n / SECOND - (if n % SECOND <= e % SECOND then 0 else 1)
  {
    var q := e / SECOND - n / SECOND;
    assert e - n == q * SECOND + (e % SECOND - n % SECOND);
  }

  lemma {:induction false} IssuedFits(cfg: Config, d: string, r0: Record, r: Record, now: int)
    requires RecordOk(cfg, r0) && r0.decision == Allow && r0.decisionId == d && SameDecision(r, r0)
    ensures Fits(cfg, r, IssueAuthority(cfg, d, r0, now))
    ensures IssueAuthority(cfg, d, r0, now).decisionId == d && IssueAuthority(cfg, d, r0, now).nonce == r0.nonce
  {
  }

  /** After an accepted call with token `a`, a call with another token for the same decision is
      accepted exactly when the stored decision permits it, it is presented properly and `a` has expired. */
  lemma {:induction false} SecondTokenAcceptedIff(cfg: ToolConfig, used: map<string, UsedAuthority>, t: Tables,
                                                  first: ToolCall, a: Authority, ta: int, worldA: Option<string>,
                                                  t': Tables, second: ToolCall, b: Authority, tb: int,
                                                  worldB: Option<string>)
    requires ta <= tb && a.nonce == b.nonce && first.token == Parsed(a) && second.token == Parsed(b)
    requires b.decisionId in t'.records && Bound(cfg.gate, t'.records[b.decisionId])
    requires Fits(cfg.gate, t'.records[b.decisionId], b)
    requires Serve(cfg, t, worldA, used, first, ta).1 == None
    ensures Serve(cfg, t', worldB, Serve(cfg, t, worldA, used, first, ta).0, second, tb).1 == None <==>
      && t'.records[b.decisionId].decision == Allow && Presents(cfg, t'.records[b.decisionId], worldB, second, b, tb)
      && a.expiresAt <= tb / SECOND
  {
    hide CallFault, Presents, Bound, Fits;
    GenuineCallFault(cfg, t', worldB, second, b, tb);
  }

  lemma {:induction false} FirstTokenAcceptedIff(cfg: ToolConfig, t: Tables, used: map<string, UsedAuthority>,
                                                 call: ToolCall, a: Authority, now: int, world: Option<string>)
    requires call.token == Parsed(a) && a.nonce !in used && a.decisionId in t.records
    requires Bound(cfg.gate, t.records[a.decisionId]) && Fits(cfg.gate, t.records[a.decisionId], a)
    ensures Serve(cfg, t, world, used, call, now).1 == None <==>
      t.records[a.decisionId].decision == Allow && Presents(cfg, t.records[a.decisionId], world, call, a, now)
  {
    hide CallFault, Presents, Bound, Fits;
    GenuineCallFault(cfg, t, world, call, a, now);
  }

  /** Some call would be one for the decision, apart from its token and time. */
  ghost predicate Redeemable(cfg: ToolConfig, r: Record) {
    exists call, world :: Matches(cfg, r, world, call)
  }

  lemma {:induction false} TokenIsApart(cfg: ToolConfig, r: Record, world: Option<string>, call: ToolCall, token: Token)
    ensures Matches(cfg, r, world, call.(token := token)) == Matches(cfg, r, world, call)
  {
  }

  lemma {:induction false} SameMatches(cfg: ToolConfig, r: Record, r0: Record, world: Option<string>, call: ToolCall)
    requires SameDecision(r, r0)
    ensures Matches(cfg, r, world, call) == Matches(cfg, r0, world, call)
  {
    hide SameDecision, NamesDigests, CarriesParameters;
    SameDecisionFields(r, r0);
  }

  /** The turns up to time `now`, of a clock that does not go back. */
  function Until(schedule: seq<Turn>, now: int): seq<Turn> {
    if schedule == [] || Last(schedule).now <= now then schedule else Until(Front(schedule), now)
  }

  /** At time `now`, `a` has been handed to call `i` of the handler. */
  ghost predicate HandedTo(s: State, i: nat, a: Authority) {
    i < |s.pcs| && IsGranted(s.pcs[i]) && s.pcs[i].answer.record.authority == Some(a)
  }

  /** Among the accesses of `schedule`, the tool accepts at `ta` the token that call `i` of the
      handler was handed, and then at `tb` that of call `j`. */
  ghost predicate BothServed(cfg: ToolConfig, d: string, attempts: seq<Attempt>, t: Tables, schedule: seq<Turn>,
                             used: map<string, UsedAuthority>,
                             i: nat, first: ToolCall, ta: int, worldA: Option<string>,
                             j: nat, second: ToolCall, tb: int, worldB: Option<string>)
  {
    var s := Interleave(cfg.gate, d, attempts, t, Until(schedule, ta));
    var s' := Interleave(cfg.gate, d, attempts, t, Until(schedule, tb));
    && ta <= tb && first.token.Parsed? && HandedTo(s, i, first.token.authority)
    && second.token.Parsed? && HandedTo(s', j, second.token.authority)
    && Serve(cfg, s.tables, worldA, used, first, ta).1 == None
    && Serve(cfg, s'.tables, worldB, Serve(cfg, s.tables, worldA, used, first, ta).0, second, tb).1 == None
  }

  ghost predicate PairAcceptable(cfg: ToolConfig, d: string, attempts: seq<Attempt>, t: Tables, schedule: seq<Turn>,
                                 used: map<string, UsedAuthority>, i: nat, j: nat)
  {
    exists first, ta, worldA, second, tb, worldB ::
      BothServed(cfg, d, attempts, t, schedule, used, i, first, ta, worldA, j, second, tb, worldB)
  }

  /** Two calls for the decision can be accepted by the tool, at whatever times. */
  ghost predicate TwiceAcceptable(cfg: ToolConfig, d: string, attempts: seq<Attempt>, t: Tables, schedule: seq<Turn>,
                                  used: map<string, UsedAuthority>)
  {
    exists i, j :: 0 <= i < |attempts| && 0 <= j < |attempts|
      && PairAcceptable(cfg, d, attempts, t, schedule, used, i, j)
  }

  /** Calls `i` and `j` were admitted, reserved before any call closed the row, and saved at times
      whose authorities expire in different seconds, that of `i` first. */
  predicate ExpireApart(cfg: Config, d: string, attempts: seq<Attempt>, t: Tables, schedule: seq<Turn>, i: nat, j: nat)
    requires i < |attempts| && j < |attempts| && d in t.records
  {
    var first, second := GrantTime(cfg, d, attempts, t, schedule, i), GrantTime(cfg, d, attempts, t, schedule, j);
    && first.Some? && second.Some?
    && ExpirySecond(t.records[d].expiresAt, first.value) < ExpirySecond(t.records[d].expiresAt, second.value)
  }

  /** What was handed out by `now` is what was saved by then. */
  lemma {:induction false} GrantedUntil(cfg: Config, d: string, attempts: seq<Attempt>, t: Tables, schedule: seq<Turn>,
                                        i: nat, now: int)
    requires i < |attempts|
    ensures var time := GrantTime(cfg, d, attempts, t, Until(schedule, now), i);
      var full := GrantTime(cfg, d, attempts, t, schedule, i);
      && (time.Some? ==> full == time)
      && (full.Some? && full.value <= now ==> time == full)
  {
    hide Passes;
    if schedule != [] && Last(schedule).now > now {
      GrantedUntil(cfg, d, attempts, t, Front(schedule), i, now);
      GrantTimeMeans(cfg, d, attempts, t, Front(schedule), i);
    }
  }

  lemma {:induction false} OkIsBound(cfg: Config, r: Record)
    requires RecordOk(cfg, r)
    ensures Bound(cfg, r)
  {
  }

  /** The row and the tokens at any time: the tool judges them as it would the evaluated decision. */
  lemma {:induction false} HandedFits(cfg: Config, d: string, attempts: seq<Attempt>, t: Tables, schedule: seq<Turn>,
                                      i: nat, a: Authority)
    requires d in t.records && Unreserved(d, t.records[d]) && FreshIds(t, attempts) && RecordOk(cfg, t.records[d])
    requires i < |attempts| && HandedTo(Interleave(cfg, d, attempts, t, schedule), i, a)
    ensures var s, time := Interleave(cfg, d, attempts, t, schedule), GrantTime(cfg, d, attempts, t, schedule, i);
      && d in s.tables.records && SameDecision(s.tables.records[d], t.records[d]) && Bound(cfg, s.tables.records[d])
      && s.tables.records[d].decision == Allow && Fits(cfg, s.tables.records[d], a)
      && a.decisionId == d && a.nonce == t.records[d].nonce
      && time.Some? && a.issuedAt == time.value / SECOND < a.expiresAt
      && a.expiresAt == ExpirySecond(t.records[d].expiresAt, time.value)
  {
    hide Interleave, GrantTime, Passes, Admits, IssueAuthority, KeysTaken, ExpirySecond, RecordOk, Bound, SameDecision,
      Fits;
    var s, time := Interleave(cfg, d, attempts, t, schedule), GrantTime(cfg, d, attempts, t, schedule, i);
    GrantedIff(cfg, d, attempts, t, schedule, i);
    GrantTimeMeans(cfg, d, attempts, t, schedule, i);
    AdmitsFacts(cfg, d, attempts, t, schedule, i);
    RowIsOk(cfg, d, attempts, t, schedule);
    SameDecisionFields(s.tables.records[d], t.records[d]);
    OkIsBound(cfg, s.tables.records[d]);
    IssuedFits(cfg, d, t.records[d], s.tables.records[d], time.value);
    TokenExpiry(cfg, d, t.records[d], time.value);
  }

  /** Two accepted calls mean a redeemable decision and tokens that expire apart. */
  lemma {:induction false} ServedMeansApart(cfg: ToolConfig, d: string, attempts: seq<Attempt>, t: Tables,
                                            schedule: seq<Turn>, used: map<string, UsedAuthority>, i: nat,
                                            first: ToolCall, ta: int, worldA: Option<string>, j: nat, second: ToolCall,
                                            tb: int, worldB: Option<string>)
    requires d in t.records && Unreserved(d, t.records[d]) && FreshIds(t, attempts) && RecordOk(cfg.gate, t.records[d])
    requires i < |attempts| && j < |attempts|
    requires BothServed(cfg, d, attempts, t, schedule, used, i, first, ta, worldA, j, second, tb, worldB)
    ensures Redeemable(cfg, t.records[d]) && ExpireApart(cfg.gate, d, attempts, t, schedule, i, j)
  {
    var gate, a, b := cfg.gate, first.token.authority, second.token.authority;
    var s := Interleave(gate, d, attempts, t, Until(schedule, ta));
    var s' := Interleave(gate, d, attempts, t, Until(schedule, tb));
    hide Interleave, GrantTime, Until, Serve, Matches, RecordOk, Bound, Fits, SameDecision, ExpirySecond, FreshIds,
      HandedTo;
    HandedFits(gate, d, attempts, t, Until(schedule, ta), i, a);
    HandedFits(gate, d, attempts, t, Until(schedule, tb), j, b);
    GrantedUntil(gate, d, attempts, t, schedule, i, ta);
    GrantedUntil(gate, d, attempts, t, schedule, j, tb);
    SecondTokenAcceptedIff(cfg, used, s.tables, first, a, ta, worldA, s'.tables, second, b, tb, worldB);
    SameMatches(cfg, s'.tables.records[d], t.records[d], worldB, second);
  }

  /** Calls that match the decision redeem both tokens, the second once the first has expired. */
  lemma {:induction false} Redeems(cfg: ToolConfig, d: string, attempts: seq<Attempt>, t: Tables, schedule: seq<Turn>,
                                   used: map<string, UsedAuthority>, call: ToolCall, world: Option<string>,
                                   i: nat, a: Authority, ta: int, j: nat, b: Authority, tb: int)
    requires d in t.records && Unreserved(d, t.records[d]) && FreshIds(t, attempts) && RecordOk(cfg.gate, t.records[d])
    requires i < |attempts| && j < |attempts| && t.records[d].nonce !in used && Matches(cfg, t.records[d], world, call)
    requires HandedTo(Interleave(cfg.gate, d, attempts, t, Until(schedule, ta)), i, a)
    requires HandedTo(Interleave(cfg.gate, d, attempts, t, Until(schedule, tb)), j, b)
    requires ta <= tb && a.issuedAt <= ta / SECOND < a.expiresAt && b.issuedAt <= tb / SECOND < b.expiresAt
    requires a.expiresAt <= tb / SECOND
    ensures BothServed(cfg, d, attempts, t, schedule, used, i, call.(token := Parsed(a)), ta, world,
                       j, call.(token := Parsed(b)), tb, world)
  {
    var gate, r0, first, second := cfg.gate, t.records[d], call.(token := Parsed(a)), call.(token := Parsed(b));
    var s := Interleave(gate, d, attempts, t, Until(schedule, ta));
    var s' := Interleave(gate, d, attempts, t, Until(schedule, tb));
    hide Interleave, GrantTime, Until, Serve, Matches, RecordOk, Bound, Fits, SameDecision, ExpirySecond, FreshIds,
      HandedTo;
    HandedFits(gate, d, attempts, t, Until(schedule, ta), i, a);
    HandedFits(gate, d, attempts, t, Until(schedule, tb), j, b);
    SameMatches(cfg, s.tables.records[d], r0, world, first);
    SameMatches(cfg, s'.tables.records[d], r0, world, second);
    TokenIsApart(cfg, r0, world, call, Parsed(a));
    TokenIsApart(cfg, r0, world, call, Parsed(b));
    FirstTokenAcceptedIff(cfg, s.tables, used, first, a, ta, world);
    SecondTokenAcceptedIff(cfg, used, s.tables, first, a, ta, world, s'.tables, second, b, tb, world);
  }

  /** Tokens that expire apart are redeemed at the save of the first and in the last second of the other. */
  lemma {:induction false} ApartIsServed(cfg: ToolConfig, d: string, attempts: seq<Attempt>, t: Tables,
                                         schedule: seq<Turn>, used: map<string, UsedAuthority>, i: nat, j: nat)
    requires d in t.records && Unreserved(d, t.records[d]) && FreshIds(t, attempts) && RecordOk(cfg.gate, t.records[d])
    requires i < |attempts| && j < |attempts| && t.records[d].nonce !in used
    requires Redeemable(cfg, t.records[d]) && ExpireApart(cfg.gate, d, attempts, t, schedule, i, j)
    ensures PairAcceptable(cfg, d, attempts, t, schedule, used, i, j)
  {
    var gate, r0 := cfg.gate, t.records[d];
    var time := GrantTime(gate, d, attempts, t, schedule, i).value;
    var time' := GrantTime(gate, d, attempts, t, schedule, j).value;
    var a, b := IssueAuthority(gate, d, r0, time), IssueAuthority(gate, d, r0, time');
    var call, world :| Matches(cfg, r0, world, call);
    TokenExpiry(gate, d, r0, time);
    TokenExpiry(gate, d, r0, time');
    hide Interleave, GrantTime, Until, IssueAuthority, Matches, RecordOk, ExpirySecond, FreshIds, BothServed;
    var tb := Max((b.expiresAt - 1) * SECOND, time');
    assert tb / SECOND == b.expiresAt - 1;
    GrantedUntil(gate, d, attempts, t, schedule, i, time);
    GrantedUntil(gate, d, attempts, t, schedule, j, tb);
    GrantedIff(gate, d, attempts, t, Until(schedule, time), i);
    GrantedIff(gate, d, attempts, t, Until(schedule, tb), j);
    Redeems(cfg, d, attempts, t, schedule, used, call, world, i, a, time, j, b, tb);
  }

  /** Below whole handlers, in every interleaving of any number of calls, the tool can accept two
      calls for a decision exactly when the decision is redeemable at all and two calls of the
      handler were admitted, reserved before any call closed the row, and saved at times whose
      authorities expire in different seconds. On SQLite that never happens. */
  lemma {:induction false} TwiceAcceptableIff(cfg: ToolConfig, d: string, attempts: seq<Attempt>, t: Tables,
                                              schedule: seq<Turn>, used: map<string, UsedAuthority>)
    requires d in t.records && Unreserved(d, t.records[d]) && FreshIds(t, attempts) && RecordOk(cfg.gate, t.records[d])
    requires t.records[d].nonce !in used
    ensures TwiceAcceptable(cfg, d, attempts, t, schedule, used) <==>
      && Redeemable(cfg, t.records[d])
      && exists i, j :: 0 <= i < |attempts| && 0 <= j < |attempts|
           && ExpireApart(cfg.gate, d, attempts, t, schedule, i, j)
    ensures cfg.gate.backend == Sqlite ==> !TwiceAcceptable(cfg, d, attempts, t, schedule, used)
  {
    hide BothServed, ExpireApart, Redeemable, RecordOk, FreshIds;
    forall i, j | 0 <= i < |attempts| && 0 <= j < |attempts|
      ensures PairAcceptable(cfg, d, attempts, t, schedule, used, i, j) <==>
        Redeemable(cfg, t.records[d]) && ExpireApart(cfg.gate, d, attempts, t, schedule, i, j)
      ensures cfg.gate.backend == Sqlite ==> !ExpireApart(cfg.gate, d, attempts, t, schedule, i, j)
    {
      NoTwo(cfg.gate, d, attempts, t, schedule, i, j);
      if Redeemable(cfg, t.records[d]) && ExpireApart(cfg.gate, d, attempts, t, schedule, i, j) {
        ApartIsServed(cfg, d, attempts, t, schedule, used, i, j);
      }
      forall first, ta, worldA, second, tb, worldB |
        BothServed(cfg, d, attempts, t, schedule, used, i, first, ta, worldA, j, second, tb, worldB)
        ensures Redeemable(cfg, t.records[d]) && ExpireApart(cfg.gate, d, attempts, t, schedule, i, j)
      {
        ServedMeansApart(cfg, d, attempts, t, schedule, used, i, first, ta, worldA, j, second, tb, worldB);
      }
    }
  }

  lemma {:induction false} NoTwo(cfg: Config, d: string, attempts: seq<Attempt>, t: Tables, schedule: seq<Turn>,
                                 i: nat, j: nat)
    requires d in t.records && i < |attempts| && j < |attempts|
    ensures cfg.backend == Sqlite ==> !ExpireApart(cfg, d, attempts, t, schedule, i, j)
  {
    hide GrantTime, Passes, ExpirySecond;
    GrantTimeMeans(cfg, d, attempts, t, schedule, i);
    GrantTimeMeans(cfg, d, attempts, t, schedule, j);
    if cfg.backend == Sqlite && i != j {
      OnePasses(cfg, d, attempts, t, schedule, i, j);
    }
  }

  // ---- a decision redeemed twice on PostgreSQL ----

  const W1: Option<string> := Some("w1")

  function PlainRequest(action: string): ActionRequest {
    ActionRequest("tenant", "agent", None, None, action, None, map[], [], None, None)
  }

  const CREATED: Fresh := Fresh("e0", "v0", "r0", 500_000)

  const PLAIN_NAMES: Names := Names("d", "t", "n")

  /** A gate with the built-in policy, and a tool that checks the world. */
  ghost predicate Deployed(cfg: ToolConfig, backend: Backend) {
    && cfg.gate.backend == backend && cfg.gate.authorityReady && cfg.gate.policy == DEFAULT_POLICY
    && !cfg.gate.production && !cfg.gate.requireSession && cfg.gate.decisionTtl == 300
    && cfg.secretReady && cfg.worldRevalidation
    && (forall action :: cfg.gate.actionHash(action) != "") && (forall policy :: cfg.gate.policyHash(policy) != "")
  }

  /** The tables after one evaluation at 0.5 s, in the world "w1". */
  function Evaluated(cfg: Config, action: string): Tables {
    Evaluate(cfg, EMPTY, W1, PlainRequest(action), PLAIN_NAMES, CREATED, 500_000).0
  }

  function PlainRecord(cfg: Config, action: string, decision: Decision): Record {
    NewRecord(cfg, PlainRequest(action), W1, PLAIN_NAMES, Gate([], 500_000), decision, 500_000)
  }

  function PlainOutcome(r: Record): ExecutionOutcome {
    ExecutionOutcome(r.actionHash, "tenant", None, None, "n", None, JNull)
  }

  /** Two calls that reserve it. */
  function TwoAttempts(r: Record): seq<Attempt> {
    var outcome := PlainOutcome(r);
    [Attempt(outcome, Fresh("e1", "v1", "r1", 900_000)), Attempt(outcome, Fresh("e2", "v2", "r2", 1_000_000))]
  }

  /** Both load and reserve at 0.8 s; they save at 0.9 s and at 1.0 s. */
  const OVERLAP: seq<Turn> :=
    [Turn(0, 800_000, W1), Turn(1, 800_000, W1), Turn(0, 800_000, W1), Turn(1, 800_000, W1),
     Turn(0, 900_000, W1), Turn(1, 1_000_000, W1)]

  function PlainCall(r: Record, token: Authority): ToolCall {
    ToolCall(Parsed(token), Some("tenant"), map[], Some(r.actionHash), Some(r.policyHash))
  }

  /** Calls `i` and `j` were granted for the decision `r`, and the tool accepts the token of the one
      at 298 s, then that of the other at 299 s. */
  ghost predicate ServedTwice(cfg: ToolConfig, r: Record, s: State, i: nat, j: nat) {
    && i < |s.pcs| && j < |s.pcs| && IsGranted(s.pcs[i]) && IsGranted(s.pcs[j])
    && s.pcs[i].answer.record.authority.Some? && s.pcs[j].answer.record.authority.Some?
    && var first := PlainCall(r, s.pcs[i].answer.record.authority.value);
       var second := PlainCall(r, s.pcs[j].answer.record.authority.value);
       && Serve(cfg, s.tables, W1, map[], first, 298_000_000).1 == None
       && Serve(cfg, s.tables, W1, Serve(cfg, s.tables, W1, map[], first, 298_000_000).0, second, 299_000_000).1 == None
  }

  lemma {:induction false} EvaluatedIsSaved(cfg: Config, action: string, decision: Decision)
    requires cfg.policy == DEFAULT_POLICY && !cfg.production && !cfg.requireSession && cfg.decisionTtl == 300
    requires Pipeline(PlainRequest(action), DEFAULT_POLICY) == Some(decision)
    ensures Evaluate(cfg, EMPTY, W1, PlainRequest(action), PLAIN_NAMES, CREATED, 500_000)
         == (SaveRecord(cfg.eventDigest, EMPTY, PlainRecord(cfg, action, decision), DecisionCreated, CREATED).0,
             Granted(Stamped(cfg.eventDigest, EMPTY, "d", PlainRecord(cfg, action, decision), DecisionCreated, None)))
  {
    hide NewRecord, WriteEvent, Stamped, Pipeline;
    assert Gate([], 500_000).verdict == Pass;
    assert !KeysTaken(EMPTY, CREATED);
    PlainIsOwn(cfg, action, decision);
  }

  lemma {:induction false} PlainIsOwn(cfg: Config, action: string, decision: Decision)
    ensures var r := PlainRecord(cfg, action, decision);
      && r.decisionId == "d" && r.nonce == "n" && r.startedAt == None && r.decision == decision
      && r.expiresAt == 500_000 + cfg.decisionTtl * SECOND
  {
  }

  lemma {:induction false} PlainKeys(cfg: Config, action: string, decision: Decision, ids: Fresh)
    requires !KeysTaken(EMPTY, CREATED) && Apart(CREATED, ids)
    ensures var r := PlainRecord(cfg, action, decision);
      !KeysTaken(SaveRecord(cfg.eventDigest, EMPTY, r, DecisionCreated, CREATED).0, ids)
  {
    hide PlainRecord, Stamped, MaxVersion, BodyFor;
  }

  lemma {:induction false} EvaluatedIsPlain(cfg: Config, action: string, decision: Decision)
    requires cfg.policy == DEFAULT_POLICY && !cfg.production && !cfg.requireSession && cfg.decisionTtl == 300
    requires Pipeline(PlainRequest(action), DEFAULT_POLICY) == Some(decision)
    ensures var t := Evaluated(cfg, action);
      && "d" in t.records
      && t.records["d"] == PlainRecord(cfg, action, decision).(auditEventHash := t.records["d"].auditEventHash)
      && Unreserved("d", t.records["d"]) && RecordOk(cfg, t.records["d"])
      && t.records["d"].expiresAt == 300_500_000 && t.records["d"].nonce == "n" && t.records["d"].decision == decision
      && forall ids :: Apart(CREATED, ids) ==> !KeysTaken(t, ids)
  {
    EvaluatedIsSaved(cfg, action, decision);
    EvaluateShape(cfg, EMPTY, W1, PlainRequest(action), PLAIN_NAMES, CREATED, 500_000);
    PlainIsOwn(cfg, action, decision);
    assert !KeysTaken(EMPTY, CREATED);
    SavedRecord(cfg.eventDigest, EMPTY, PlainRecord(cfg, action, decision), DecisionCreated, CREATED);
    hide PlainRecord, Evaluate, SaveRecord, RecordOk, KeysTaken, Apart;
    forall ids | Apart(CREATED, ids) ensures !KeysTaken(Evaluated(cfg, action), ids) {
      PlainKeys(cfg, action, decision, ids);
    }
  }

  lemma {:induction false} PlainIsAdmitted(cfg: Config, t: Tables)
    requires "d" in t.records && cfg.decisionTtl == 300
    requires t.records["d"] == PlainRecord(cfg, "read", Allow).(auditEventHash := t.records["d"].auditEventHash)
    ensures Admitted(cfg, "d", t, PlainOutcome(t.records["d"]), 800_000, W1)
  {
    var r := t.records["d"];
    assert SignedPartOf(r) == SignedPartOf(PlainRecord(cfg, "read", Allow));
    assert Gate([], 500_000).verdict == Pass;
  }

  lemma {:induction false} PlainMatches(cfg: ToolConfig, backend: Backend, r: Record, action: string,
                                        decision: Decision, token: Authority)
    requires Deployed(cfg, backend)
    requires r == PlainRecord(cfg.gate, action, decision).(auditEventHash := r.auditEventHash)
    ensures Matches(cfg, r, W1, PlainCall(r, token))
  {
    hide Gate, EvaluateRisk, ComputeSignal;
  }

  /** Both calls pass: they reserve before the first save. */
  lemma {:induction false} OverlapGrantTimes(cfg: Config, attempts: seq<Attempt>, t: Tables)
    requires cfg.backend == Postgres && cfg.authorityReady && |attempts| == 2
    requires forall i :: 0 <= i < 2 ==> Admitted(cfg, "d", t, attempts[i].outcome, 800_000, W1)
    ensures GrantTime(cfg, "d", attempts, t, OVERLAP, 0) == Some(900_000)
    ensures GrantTime(cfg, "d", attempts, t, OVERLAP, 1) == Some(1_000_000)
  {
    hide Admitted;
    var s := OVERLAP;
    assert Front(s) == s[..5] && Front(s[..5]) == s[..4] && Front(s[..4]) == s[..3];
    assert Front(s[..3]) == s[..2] && Front(s[..2]) == s[..1] && Front(s[..1]) == [];
    assert Turns(s[..1], 0) == 1 && Turns(s[..1], 1) == 0 && Turns(s[..2], 0) == 1 && Turns(s[..2], 1) == 1;
    assert Turns(s[..3], 0) == 2 && Turns(s[..3], 1) == 1 && Turns(s[..4], 0) == 2 && Turns(s[..4], 1) == 2;
    assert Turns(s[..5], 0) == 3 && Turns(s[..5], 1) == 2;
    assert Admits(cfg, "d", attempts, t, s[..1], 0) && Admits(cfg, "d", attempts, t, s[..2], 0);
    assert Admits(cfg, "d", attempts, t, s[..2], 1) && Admits(cfg, "d", attempts, t, s[..3], 1);
    assert !Closed(cfg, "d", attempts, t, s[..1]);
    assert !Closed(cfg, "d", attempts, t, s[..2]);
    assert !Closed(cfg, "d", attempts, t, s[..3]);
    assert Passes(cfg, "d", attempts, t, s[..3], 0) && Passes(cfg, "d", attempts, t, s[..4], 0);
    assert Passes(cfg, "d", attempts, t, s[..4], 1) && Passes(cfg, "d", attempts, t, s[..5], 1);
  }

  /** From an evaluation in the world "w1": two overlapping calls are both granted, and the tool
      accepts the first token at 298 s and the second at 299 s. */
  lemma {:induction false} PostgresOverlapExample(cfg: ToolConfig)
    requires Deployed(cfg, Postgres)
    ensures var t := Evaluated(cfg.gate, "read");
      && "d" in t.records
      && var attempts := TwoAttempts(t.records["d"]);
         && ServedTwice(cfg, t.records["d"], Interleave(cfg.gate, "d", attempts, t, OVERLAP), 0, 1)
         && TwiceAcceptable(cfg, "d", attempts, t, OVERLAP, map[])
  {
    var gate, t := cfg.gate, Evaluated(cfg.gate, "read");
    ReadIsAllowed();
    EvaluatedIsPlain(gate, "read", Allow);
    var attempts := TwoAttempts(t.records["d"]);
    PlainIsAdmitted(gate, t);
    assert attempts[0].outcome == attempts[1].outcome == PlainOutcome(t.records["d"]);
    OverlapGrantTimes(gate, attempts, t);
    PlainMatches(cfg, Postgres, t.records["d"], "read", Allow, IssueAuthority(gate, "d", t.records["d"], 900_000));
    assert FreshIds(t, attempts) by {
      TwoAreFresh(t, attempts);
    }
    hide Evaluated, Deployed, FreshIds, PlainRecord, RecordOk, Interleave, Admitted, GrantTime, Matches, IssueAuthority,
      TwoAttempts;
    OverlapIsServed(cfg, attempts, t);
  }

  lemma {:induction false} ReadIsAllowed()
    ensures Pipeline(PlainRequest("read"), DEFAULT_POLICY) == Some(Allow)
  {
    assert Lower("read") == "read";
    PipelineTable(PlainRequest("read"), DEFAULT_POLICY);
  }

  lemma {:induction false} TwoAreFresh(t: Tables, attempts: seq<Attempt>)
    requires "d" in t.records && attempts == TwoAttempts(t.records["d"])
    requires forall ids :: Apart(CREATED, ids) ==> !KeysTaken(t, ids)
    ensures FreshIds(t, attempts)
  {
    hide KeysTaken;
    assert "e0" != "e1" && "v0" != "v1" && "e0" != "e2" && "v0" != "v2" && "e1" != "e2" && "v1" != "v2";
    assert Apart(CREATED, attempts[0].ids) && Apart(CREATED, attempts[1].ids);
  }

  /** The two tokens at the tool, given when they were issued. */
  lemma {:induction false} OverlapIsServed(cfg: ToolConfig, attempts: seq<Attempt>, t: Tables)
    requires |attempts| == 2 && "d" in t.records && Unreserved("d", t.records["d"]) && FreshIds(t, attempts)
    requires RecordOk(cfg.gate, t.records["d"]) && t.records["d"].decision == Allow
    requires t.records["d"].expiresAt == 300_500_000 && t.records["d"].nonce == "n"
    requires GrantTime(cfg.gate, "d", attempts, t, OVERLAP, 0) == Some(900_000)
    requires GrantTime(cfg.gate, "d", attempts, t, OVERLAP, 1) == Some(1_000_000)
    requires Matches(cfg, t.records["d"], W1,
                     PlainCall(t.records["d"], IssueAuthority(cfg.gate, "d", t.records["d"], 900_000)))
    ensures ServedTwice(cfg, t.records["d"], Interleave(cfg.gate, "d", attempts, t, OVERLAP), 0, 1)
    ensures TwiceAcceptable(cfg, "d", attempts, t, OVERLAP, map[])
  {
    var s, gate, r0 := Interleave(cfg.gate, "d", attempts, t, OVERLAP), cfg.gate, t.records["d"];
    var a, b := IssueAuthority(gate, "d", r0, 900_000), IssueAuthority(gate, "d", r0, 1_000_000);
    GrantedIff(gate, "d", attempts, t, OVERLAP, 0);
    GrantedIff(gate, "d", attempts, t, OVERLAP, 1);
    TokenExpiry(gate, "d", r0, 900_000);
    TokenExpiry(gate, "d", r0, 1_000_000);
    assert Until(OVERLAP, 298_000_000) == OVERLAP && Until(OVERLAP, 299_000_000) == OVERLAP;
    hide Interleave, GrantTime, Until, IssueAuthority, Matches, RecordOk, Serve, FreshIds;
    Redeems(cfg, "d", attempts, t, OVERLAP, map[], PlainCall(r0, a), W1, 0, a, 298_000_000, 1, b, 299_000_000);
    assert PairAcceptable(cfg, "d", attempts, t, OVERLAP, map[], 0, 1);
  }
}
