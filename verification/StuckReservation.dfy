/** A concrete run that ends in a decision which can neither be reserved nor finished: the gate
    has no authority secret, and the stamp of the refused reservation stays. */
module StuckReservation {
  import opened Prelude
  import opened Storage
  import opened GateHandlers
  import opened ToolServer
  import opened GateRuns
  import opened GateTheorems
  import opened WorldCounterexample

  lemma {:induction false} ReservationLeavesStamp(cfg: ToolConfig, s: Sys)
    requires Permissive(cfg.gate) && !cfg.gate.authorityReady && AfterCommit(cfg.gate, s)
    ensures var (s', reply) := Step(cfg, s, Reserving("d", WorldCounterexample.Outcome(cfg.gate), SAVED, 2));
      && reply == Answered(Refused(AuthorityNotConfigured))
      && "d" in s'.tables.records && s'.tables.records["d"].startedAt == Some(2)
      && s'.tables.records["d"].authority == None
  {
    ReservationIsDue(cfg, s);
    hide KeysTaken, BindingFault, LoadLive, Reserve;
  }

  /** Evaluate, commit, reserve: the last answer is an error, and its stamp is stored. */
  lemma {:induction false} StampWithoutAuthority(cfg: ToolConfig) returns (run: seq<Action>)
    requires Permissive(cfg.gate) && !cfg.gate.authorityReady
    ensures IsRun(cfg, run) && |run| == 3
    ensures Evaluates(cfg, run, 0, "d") && run[2].Reserving? && run[2].d == "d"
    ensures ReplyAt(cfg, run, 2) == Answered(Refused(AuthorityNotConfigured))
    ensures var records := State(cfg, run).tables.records;
      "d" in records && records["d"].startedAt.Some? && records["d"].authority == None
  {
    var reserving := Reserving("d", WorldCounterexample.Outcome(cfg.gate), SAVED, 2);
    run := UpToCommit(cfg);
    ReservationLeavesStamp(cfg, State(cfg, run));
    hide Step, State, IsRun, EvaluatedRecord, Permissive, AfterCommit;
    RunGrows(cfg, run, reserving);
    GrowthKeeps(cfg, run, reserving, 0);
    run := run + [reserving];
  }

  /** After that run, nothing that may follow uses the decision. */
  lemma {:induction false} StuckForEver(cfg: ToolConfig, more: seq<Action>, j: nat) returns (run: seq<Action>)
    requires Permissive(cfg.gate) && !cfg.gate.authorityReady
    ensures IsRun(cfg, run) && |run| == 3
    ensures IsRun(cfg, run + more) && 3 <= j < |run + more| ==>
      !Reserves(cfg, run + more, j, "d") && !Finishes(cfg, run + more, j, "d") && !Accepts(cfg, run + more, j, "d")
  {
    run := StampWithoutAuthority(cfg);
    hide State, Step, IsRun, Reserves, Finishes, Accepts;
    if IsRun(cfg, run + more) && 3 <= j < |run + more| {
      assert (run + more)[..3] == run;
      StampWithoutAuthorityIsStuck(cfg, run + more, 3, j, "d");
    }
  }
}
