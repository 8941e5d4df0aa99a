# Verification of the Action Gate

These modules model the Action Gate of this repository and prove what it promises along whole
runs. An agent's request is *evaluated* into a signed decision record, possibly *approved* by a
human, *reserved* once, and then *executed* or *reconciled*; the protected tool *redeems* the
single-use authority that the reservation issued. Around that core lie the hash-chained audit log
and its migration, the evidence ledger, idempotent ingress, the replay registries for nonces, the
rate limiters, the state oracle, the awareness hierarchy, the price oracle and the paper trader.

`dafny verify dfyconfig.toml` checks everything.

## How the model is built

* `Prelude`, `HashChain` hold shared datatypes and the theory of one hash chain. A hash is a
  function parameter; where tamper evidence needs it, it is *ideal*: injective and never the text
  `GENESIS`.
* `AuditOrder` is the startup migration that rebuilds insertion order from unordered rows.
  `Storage` gives every transaction as a function on the tables, with the invariant `Agreeing`;
  `Store` has the same transactions as methods that update the tables in place.
* `Reservations` counts the grants of one decision over transaction sequences.
* `EvidenceGate`, `Policy`, `Records`, `StateOracle`, `GateHandlers`, `ToolServer` hold the
  decision lifecycle and the tool. `ActionGate.Gateway` is the handlers as methods that load,
  change and save, each proved equal to its function in `GateHandlers`.
* `TransactionLaws` and `HandlerLaws` say in terms of rows and fields alone which transactions and
  requests are granted, what is then written and answered, and that a refusal gives the first reason there is.
* `GateInvariant`, `GateRuns`, `GateTheorems`, `GateBindings`, `GateAcceptance` compose them. A
  run is any sequence of evaluate, approve, reserve, execute, reconcile, world commit and tool
  call. The environment keeps a non-decreasing clock, strictly increasing commit times, fresh
  random names, and unforgeable authority tags: a token whose tag verifies was handed out by the
  gate. `WorldCounterexample` gives one concrete run from evaluation to an accepted call,
  `StuckReservation` one that ends with a stamp and no authority.
* `SplitReservation` takes the reservation handler one database access at a time, for any number
  of overlapping calls, whose random ids are fresh and differ. `SplitApproval` adds the accesses of
  the approval handler.
* `Ingress`, `NonceRetention`, `RateLimit`, `EvidenceLedger`, `Awareness`, `Maat`, `PaperTrader`
  stand alone.

Each HTTP handler is one atomic step with one clock reading, because `save_record` writes back
whatever record its handler loaded. Each storage transaction is one atomic step for the audit log.
Times are integers of microseconds; an authority counts whole seconds. Limiter times, prices and
rates are reals.

## What the proofs found

* **A decision can be reserved twice.** `Reservations.SecondGrantIff` says exactly when, over any
  transactions. PostgreSQL calls `jsonb_set` with create-missing false and a fresh record has no
  `execution_started_at`, so the stamp is not stored and a second reservation is granted until
  some save stores it (`PostgresGrantsTwice`). SQLite stores the stamp, but `save_record` writes
  back whatever its caller loaded, so a save of a record loaded earlier opens the decision again
  (`SqliteGrantsTwice`).
* **Overlapping reservations on PostgreSQL can be redeemed twice.** With the handler split into its
  load, reservation and save, a call is granted iff it was admitted when it loaded and reserved
  before any call saved (`SplitReservation.GrantedIff`). The authorities share a nonce, and the tool
  forgets a nonce when its authority expires. So it accepts two calls exactly when the decision is
  redeemable at all and two such calls saved at times whose authorities expire in different seconds
  (`TwiceAcceptableIff`). `PostgresOverlapExample` starts from an evaluation: the tool accepts one
  token at 298 s and the other at 299 s.
* **Overlapping approvals do the same, also on SQLite.** An approval saves the record it loaded.
  Saved after a reservation it opens the decision again, and a second reservation is granted
  (`SplitApproval.SecondReservationIff`). That takes two approvals that both loaded before either
  saved (`SqliteNeedsOverlap`); `SqliteOverlapExample` redeems both tokens.
* **A refused reservation can be final.** The stamp is stored before the authority is issued. When
  issuing or saving fails on SQLite the answer is an error and the stamp stays
  (`RefusalLeavesStampIff`); the decision can then never be reserved, executed or reconciled
  (`StampWithoutAuthorityIsStuck`, and the run `StuckReservation.StampWithoutAuthority`).
* **The world can change between evaluation and use** in one way: no snapshot existed at
  evaluation and the caller named the version that is committed later (`WorldUnchangedUntilUse`
  and the run `CallerVersionSlipsThrough`).
* **SQLite ingress can answer one key with two decisions.** `save_idempotency` tests the row of
  `SELECT changes()` for truth, and that row is always there (`AgreementCondition`,
  `SqliteRaceExample`).
* **Pruned nonces need retention.** Pruning is invisible exactly when the retention is at least the
  longest token lifetime (`RetentionMustCoverLifetime`). The tool's own purge differs from a full
  registry exactly on a replay whose two clock readings straddle the token's expiry
  (`PurgeDiffersOnStraddlingReplays`); with one reading there is no such call.
* **SANDBOX is unreachable** in the gate's pipeline: critical risk already signals INHIBIT, which
  denies. `action_gate/policy_store.py:14` and `action_gate/demo.md:58` say SANDBOX; the ingress
  rules do answer SANDBOX (`PipelineTable`, `IngressMatchesGate`).
  `action_gate/SECURITY_AUTHORITY_GATE.md:11` lets SANDBOX authorities pass;
  `action_gate/security_authority.py:119` rejects them, and the model follows the code.
* **A component named ROOT** can pass `hierarchy_valid`, and `descendants` then runs for ever from
  exactly the starts that have it below them (`DescendantsEndIff`, `RootNamedExample`).
* **The two limiters differ** for a limit or window that is not positive: one raises it to 1, the
  other refuses everything (`InterchangeableWhenPositive`).
* **Paper trading at rates of one or more** loses its invariants; each has its exact condition on
  `(1 - slippage) * (1 - fee)`.

## Model

| member | source | states |
|---|---|---|
| HashChain.HeadCommits | action_gate/evidence_ledger.py:28-42 | With an ideal hash, two chains with the same head hash are equal in every body, hash and length. |
| HashChain.HeadPinsPrefix | action_gate/evidence_ledger.py:73-87 | A head hash found at an inner position of another chain fixes that chain's whole prefix. |
| HashChain.NoHashRepeats | action_gate/storage.py:59-71 | No hash occurs twice along a chain from GENESIS, by descent to the first link. |
| HashChain.ChainedIff | action_gate/evidence_ledger.py:73-87 | A chain, link by link: the first names GENESIS, every other the hash before it, and each hash is that of its body and the named hash. |
| AuditOrder.Reconstruct | action_gate/storage.py:51-75 | Terminates on any rows, also with cyclic hashes. Succeeds iff previous hashes are pairwise distinct and some ordering is one chain from GENESIS; the result is the only such ordering; reports a fork iff one is reachable along an unambiguous chain. |
| AuditOrder.OrderingIsUnique | action_gate/storage.py:59-75 | Rows with distinct previous hashes have at most one insertion order. |
| AuditOrder.GroupByPrevious | action_gate/storage.py:54-56 | The dictionary holds exactly the rows of each previous hash, in row order. |
| AuditOrder.AssignSequenceIds | action_gate/storage.py:77-81 | Row number i of the recovered order gets sequence id i + 1. |
| AuditOrder.Migrate | action_gate/storage.py:31-95 | Refuses exactly the logs without a single order and otherwise numbers every event along it. |
| Storage.ApplyAgrees | action_gate/storage.py:217-422 | Every transaction keeps the agreement of records, versions, audit log and event ids. |
| Storage.RunsAgree | action_gate/storage.py:217-501 | After any sequence of transactions, on either backend, the tables agree. |
| Storage.VersionsAreConsecutive | action_gate/storage.py:230-238 | In every agreeing state the versions of a decision are exactly 1..n in audit-log order. |
| Storage.VersionNamesOneEvent | action_gate/storage.py:217-250 | The audit hash of a version belongs to the one event with the same decision, version and type. |
| Storage.CurrentRowIsOwn | action_gate/storage.py:244-247 | The current row under a decision id is a record of that decision. |
| Storage.ShuffledLogIsRecovered | action_gate/storage.py:51-75 | Round trip: whatever transactions wrote the log, its rows in any order are reconstructible and the only order is the insertion order. |
| Storage.AgreeingLogIsRecovered | action_gate/storage.py:51-75 | The same for every state in which the tables agree. |
| Reservations.SecondGrantIff | action_gate/storage.py:253-281 | Over any transactions, a reservation after a granted one of the same decision is granted iff a committed save in between stored an unreserved, unconsumed record and no later write closed it, or, on PostgreSQL only, nothing in between closed it at all. |
| Reservations.StepOpens | action_gate/storage.py:217-501 | Which single transaction makes a decision reservable or ends that. |
| Reservations.PostgresGrantsTwice | action_gate/storage.py:258-265 | A run of three transactions on PostgreSQL in which the second and third reservation are granted. |
| Reservations.SqliteGrantsTwice | action_gate/storage.py:244-274 | A run on SQLite in which a save of the record as loaded earlier lies between two granted reservations. |
| TransactionLaws.SaveWrites | action_gate/storage.py:217-250 | Refuses exactly a taken key; otherwise one audit row linked to the last, the next version of the decision and the current row, with every column. |
| TransactionLaws.StampsWrite | action_gate/storage.py:253-281 | Exactly when a reservation or a consumption is granted, and the one field that changes, per backend. |
| TransactionLaws.FinalizeWrites | action_gate/storage.py:284-351 | Exactly when an execution is finalised; the row then says EXECUTED with action hash, nonce and reported outcome, and all else of it stays. |
| TransactionLaws.ReconcileWrites | action_gate/storage.py:354-422 | Exactly when a reconciliation is written; the row with resolution and outcome, and its own row in the reconciliation table. |
| Store.RecordStore.InsertEvent | action_gate/storage.py:217-250 | The in-place writer leaves exactly the tables of the transaction function: version, link to the latest hash, both rows, current row. |
| Store.RecordStore.SaveRecord | action_gate/storage.py:217-250 | The whole new tables and answer, also on a key collision; agreement is kept. |
| Store.RecordStore.ReserveExecution | action_gate/storage.py:253-281 | Updates the row or refuses, per backend; agreement is kept. |
| Store.RecordStore.FinalizeExecution | action_gate/storage.py:284-351 | New tables and answer; a refusal changes nothing; agreement is kept. |
| Store.RecordStore.ReconcileExecution | action_gate/storage.py:354-422 | New tables and answer; a refusal changes nothing; agreement is kept. |
| Store.RecordStore.ConsumeNonce | action_gate/storage.py:476-501 | Stamps the row or refuses; agreement is kept. |
| Store.RecordStore.RebuildSequence | action_gate/storage.py:31-95 | On the store's own log, fetched in any order, the migration succeeds and numbers every event by its place of insertion. |
| EvidenceGate.NormalizeEvidence | action_gate/app.py:168-209 | The loop produces the specified rows, contradictions and memory. |
| EvidenceGate.CheckEvidence | action_gate/app.py:212-216 | The verdict, rows and contradictions are those of the specification. |
| EvidenceGate.ContradictionsMeanConflict | action_gate/app.py:183-198 | A contradiction is reported iff two rows with the same key have different values. |
| EvidenceGate.PassMeansAcceptable | action_gate/app.py:168-216 | PASS iff every row declares one of the six reliable states, has no expiry or a readable later one, and no two rows say different things under one key. |
| EvidenceGate.RowsAreGivenStates | action_gate/app.py:175-207 | Every row comes back unchanged but for its state: UNKNOWN for an unreadable expiry or an unlisted state, STALE when expired, else the upper-cased declared one. |
| EvidenceGate.ContradictionOfRow | action_gate/app.py:183-198 | A row that says something else than the first row of its key adds one contradiction with both values, the state of the last row that agreed with the first, and its own. |
| EvidenceGate.NoContradictionOfRow | action_gate/app.py:183-198 | A row without key or value, or the first of its key, adds none. |
| EvidenceGate.VerdictIgnoresOrder | action_gate/app.py:168-216 | Reordering the rows changes neither the verdict nor whether there is a contradiction. |
| EvidenceGate.BlockIsPermanent | action_gate/app.py:199-216 | More rows or a later time never turn BLOCK into PASS. |
| EvidenceGate.NormalizingKeepsVerdict | action_gate/app.py:168-216 | Normalised evidence gets the verdict and rows that the raw evidence would get at that time. |
| Policy.PipelineTable | action_gate/app.py:241-331 | Exactly which requests are denied, asked and allowed by risk, signal and decision together; SANDBOX never. |
| Policy.RiskTable | action_gate/app.py:241-331 | The risk of every request; the word "production" in the rule adds nothing to "prod". |
| Policy.SignalTable | action_gate/app.py:241-331 | Mode, reactivity and consumer action of every request. |
| Policy.DefaultPolicyTable | action_gate/app.py:241-331 | The decision of the built-in policy, action by action. |
| Policy.PipelineIgnoresHints | action_gate/app.py:241-331 | The agent's risk hint, its evidence and its world version do not move the pipeline. |
| StateOracle.CurrentIsNewest | action_gate/state_oracle.py:37-55 | With increasing commit times the row read by the query is the last one committed. |
| StateOracle.CurrentIsGreatest | action_gate/state_oracle.py:37-55 | On any table, the query reads a row that none was committed after, and of its time the one with the last id. |
| StateOracle.WorldNeverReturns | action_gate/state_oracle.py:58-89 | After another commit the current version is never an earlier one again. |
| StateOracle.Oracle.CommitSnapshot | action_gate/state_oracle.py:58-89 | The row with chosen version, content, content hash and time is appended and returned, or the table stays and nothing is returned iff id or version is taken; order is kept. |
| ActionGate.Gateway.Evaluate | action_gate/app.py:458-563 | The handler's error order, the record it stores and the tables it leaves. |
| ActionGate.Gateway.Approve | action_gate/app.py:617-641 | The same for approval. |
| ActionGate.Gateway.ExecutionReserve | action_gate/app.py:645-702 | The same for reservation, including the stamp that stays when issuing fails. |
| ActionGate.Gateway.Execution | action_gate/app.py:706-748 | The same for recording an execution. |
| ActionGate.Gateway.ExecutionReconcile | action_gate/app.py:752-778 | The same for reconciliation. |
| HandlerLaws.EvaluateAnswers | action_gate/app.py:458-563 | Exactly which evaluations are granted; every field of the decision that is stored and answered; a refusal changes nothing. |
| HandlerLaws.EvaluateRefuses | action_gate/app.py:458-563 | The error of a refused evaluation is the first, in the order of the source, of all that speak against it. |
| HandlerLaws.ApproveAnswers | action_gate/app.py:617-641 | Exactly which approvals are granted; the approval expires after the time it was given for, else the configured one; a refusal changes nothing. |
| HandlerLaws.ApproveRefuses | action_gate/app.py:617-635 | The error of a refused approval is the first, in the order of the source, of all that speak against it. |
| HandlerLaws.BindingsHold | action_gate/app.py:645-675 | Exactly when an outcome fits a stored decision in the current world; the fault found is the first there is. |
| HandlerLaws.ReserveAnswers | action_gate/app.py:645-702 | Exactly which reservations are granted; every field of the authority and the record; what a refusal leaves behind. |
| HandlerLaws.ReserveRefuses | action_gate/app.py:645-686 | The error of a refused reservation is the first, in the order of the source, of all that speak against it. |
| HandlerLaws.ExecutionAnswers | action_gate/app.py:706-748 | Exactly which executions are recorded; EXECUTED with the reported outcome, and nothing else of the record changes; a refusal changes nothing. |
| HandlerLaws.ExecutionRefuses | action_gate/app.py:706-748 | The error of a refused execution is the first, in the order of the source, of all that speak against it. |
| HandlerLaws.ReconcileAnswers | action_gate/app.py:752-778 | The same for reconciliations, with the row of the reconciliation table. |
| HandlerLaws.ReconcileRefuses | action_gate/app.py:752-778 | The error of a refused reconciliation is the first, in the order of the source, of all that speak against it. |
| HandlerLaws.ReplayAnswers | action_gate/app.py:782-815 | The replay of any stored record, tampered with or not: the decision recomputed from its signal, the one compared with, each hash, and exactly when they match. |
| GateInvariant.ReservedMeansPermitted | action_gate/app.py:645-702 | A reserved record passed the evidence gate, says ALLOW and is not of a kind no approval may lift. |
| GateInvariant.RefusalLeavesStampIff | action_gate/app.py:676-702 | Exactly when a refused reservation still changes the stored record. |
| GateInvariant.ReplayOfRecord | action_gate/app.py:782-815 | What replay reports of any record the gate may hold, at any later time. |
| GateRuns.StepKeepsInv | action_gate/app.py:458-778 | Every step of gate, oracle or tool keeps the invariant, and records only move forward. |
| GateRuns.RunKeepsInv | action_gate/app.py:458-778 | The invariant holds after every run. |
| GateRuns.RunMovesOn | action_gate/app.py:616-778 | Between any two points of a run the evaluated part of a record is unchanged, a consumed record is frozen, and reservation, authority and approval are each set at most once. |
| GateTheorems.RecordHasOrigin | action_gate/app.py:458-563 | Every stored decision comes from one earlier evaluation of the run. |
| GateTheorems.AuthorityHasOrigin | action_gate/app.py:676-702 | Every authority comes from one earlier granted reservation of its decision. |
| GateTheorems.ReservedAtMostOnce | action_gate/app.py:645-702 | A decision is reserved at most once in any run. |
| GateTheorems.FinishedAtMostOnce | action_gate/app.py:706-778 | A decision is executed or reconciled at most once, never both. |
| GateTheorems.FinishStored | action_gate/app.py:706-778 | A finish finds the decision reserved, with authority and unconsumed, sets the consumption time and the matching status. |
| GateTheorems.FinishWrites | action_gate/app.py:706-778 | In every run a finish answers with the record it stores: the one it found, with execution, outcome, resolution and consumption of this step and all else unchanged; a reconciliation gets its row. |
| GateTheorems.ConsumedIsFrozen | action_gate/app.py:413-417 | Once consumed, a record never changes for the rest of the run. |
| GateTheorems.StampWithoutAuthorityIsStuck | action_gate/storage.py:354-390 | A stamped record without authority is never reserved, finished or accepted afterwards. |
| StuckReservation.StampWithoutAuthority | action_gate/app.py:674-686 | A run on SQLite without authority secret that ends with a stored stamp, no authority and an error answer. |
| StuckReservation.StuckForEver | action_gate/app.py:674-778 | Whatever follows that run, the decision is never reserved, finished or accepted. |
| GateTheorems.ClaimPersists | action_gate/tool_server.py:76-90 | A claimed nonce stays in the tool's table until its token has expired. |
| GateTheorems.AcceptedCall | action_gate/tool_server.py:92-202 | What the checks of an accepted call imply about token, record, parameters, world and nonce. |
| GateTheorems.AcceptedAtMostOnce | action_gate/tool_server.py:175-202 | The tool accepts at most one call per decision, whatever tokens and payloads are sent. |
| GateTheorems.AcceptedCallIsAuthorized | action_gate/tool_server.py:92-202 | Every accepted call follows one evaluation and one later reservation of its decision, has the evaluated tenant and parameters, evidence that passed and a stored ALLOW. |
| GateTheorems.BlockedNeverRuns | action_gate/app.py:616-778 | A decision evaluated on blocked evidence, or prohibited by policy, is never reserved, finished or redeemed, whatever approvals follow. |
| GateTheorems.WorldUnchangedUntilUse | action_gate/app.py:660-667 | For a decision bound to a version, no snapshot was committed between evaluation and use iff a snapshot existed at evaluation. |
| GateTheorems.NoCommitBetween | action_gate/state_oracle.py:58-89 | Equal snapshot tables at two points mean that every commit in between failed. |
| GateTheorems.ReplayInEveryState | action_gate/app.py:782-815 | In every reachable state signature and hashes verify, and replay matches iff there is no contradiction and the evidence passed or the policy alone says ASK. |
| GateTheorems.AuditLogIsRecoverable | action_gate/storage.py:51-75 | The audit log of any run, fetched in any order, has its insertion order as the only reconstruction. |
| GateBindings.UseIsBound | action_gate/app.py:645-748 | Every granted reservation and recorded execution names the tenant, nonce, action hash, actor and session of its evaluation and no other world, and comes before the decision expires. |
| GateBindings.ReconciliationIsBound | action_gate/app.py:752-778 | Every recorded reconciliation names the tenant, nonce and action hash of its evaluation and one of the two resolutions, and comes before the decision expires. |
| GateBindings.ApprovalHasOrigin | action_gate/app.py:617-641 | Every approval in a stored record was given by one earlier approval step. |
| GateBindings.SensitiveNeedsApproval | action_gate/app.py:617-641 | Where policy says ASK, between evaluation and granted reservation lies a positive approval of exactly this action and tenant, correctly signed in production, and not older than it was given for. |
| GateBindings.TokenLifetime | action_gate/app.py:687-698 | An issued authority expires with its decision or at the end of the second of its issue, and not before it is issued. |
| GateBindings.AcceptedCallIsTimely | action_gate/security_authority.py:102-125 | No call is accepted later than one second after the decision's lifetime, counted from evaluation. |
| GateAcceptance.GenuineCallAcceptedIff | action_gate/tool_server.py:92-202 | In every run a call with an issued authority is accepted iff it presents tenant, hashes and parameters of the stored decision, in time and in the same world, and no call for the decision was accepted before. |
| GateAcceptance.NonceHasOrigin | action_gate/tool_server.py:76-90 | Every nonce in the tool's table was claimed by one earlier accepted call. |
| SplitReservation.AccessesAreTheHandler | action_gate/app.py:645-702 | The three accesses without interruption are the whole handler. |
| SplitReservation.GrantedIff | action_gate/app.py:645-702 | In every interleaving of any number of calls, a call is granted iff it was admitted at its first access, made its second before any admitted call had made the access that shows in the row (the second on SQLite, the third on PostgreSQL), and has made its third; its authority is the one issued at the time of the third. |
| SplitReservation.PassesIff | action_gate/storage.py:253-281 | In every interleaving, the reservation of a call that has loaded its record is granted iff no admitted call has closed the row: by its reservation on SQLite, by its save on PostgreSQL. |
| SplitReservation.SqliteGrantsOnce | action_gate/storage.py:267-274 | In every interleaving of any number of calls on SQLite at most one is granted. |
| SplitReservation.TokenExpiry | action_gate/app.py:687-698 | The second in which an authority expires, from the expiry of its decision and the time of issue, also for an expired decision. |
| SplitReservation.TwiceAcceptableIff | action_gate/tool_server.py:92-202 | In every interleaving the tool can accept two calls, each with a token handed out by then and at any times, iff some call matches the decision and two calls of the handler were admitted, reserved before any call closed the row, and saved at times whose authorities expire in different seconds; never on SQLite with reservations alone. |
| SplitReservation.SecondTokenAcceptedIff | action_gate/tool_server.py:175-202 | After an accepted call, a call with another authority of the decision is accepted iff the stored decision says ALLOW, it is presented properly and the first authority has expired. |
| SplitReservation.PostgresOverlapExample | action_gate/storage.py:258-265 | After one evaluation in the world "w1", two overlapping calls on PostgreSQL are both granted, and the tool accepts the first token at 298 s and the second at 299 s. |
| SplitApproval.ApprovalAccessesAreTheHandler | action_gate/app.py:617-641 | The two accesses of an approval without interruption are the whole handler. |
| SplitApproval.TurnOpens | action_gate/storage.py:217-281 | Which access of an approval or a reservation opens or closes a decision; ASK ends with the first approval saved and never returns. |
| SplitApproval.SecondReservationIff | action_gate/storage.py:253-281 | In every interleaving of any number of approvals and reservations, a reservation after a granted one is granted iff an approval was saved in between and nothing after it closed the decision, or, on PostgreSQL, nothing in between closed it. |
| SplitApproval.ReopeningOverlaps | action_gate/app.py:617-641 | An approval saved after a granted reservation overlapped another one that was saved before it: both had loaded the record by then. |
| SplitApproval.SqliteNeedsOverlap | action_gate/storage.py:267-274 | On SQLite two reservations are granted only across two such approvals, the second saved between them. |
| SplitApproval.BothServedIff | action_gate/tool_server.py:92-202 | At any two points of any interleaving, the tool accepts the tokens handed to two reservations iff the stored decision says ALLOW both times, both are presented properly and the first has expired when the second is presented. |
| SplitApproval.SqliteOverlapExample | action_gate/app.py:617-702 | After one evaluation that says ASK, two overlapping approvals and two reservations on SQLite: both are granted, and the tool accepts the first token at 298 s and the second at 299 s. |
| WorldCounterexample.CallerVersionSlipsThrough | action_gate/app.py:478-485 | A run of four steps in which a commit lies between evaluation and a granted reservation and accepted call. |
| ToolServer.NonceRegistry.Claim | action_gate/tool_server.py:76-90 | Purge and insert in place; a reused nonce rolls both back. |
| ToolServer.ParametersIff | action_gate/tool_server.py:129-161 | The payload passes iff it calls the evaluated tool on the evaluated target with exactly the evaluated arguments: as a JSON-RPC call, as the signed envelope, or as the whole body. |
| ToolServer.FaultlessIff | action_gate/tool_server.py:92-202 | The calls with which nothing is wrong before the claim: token, window, tenant, digests, stored decision, parameters and world, each in terms of the call and the record. |
| ToolServer.ServeIff | action_gate/tool_server.py:76-202 | A call is accepted iff nothing is wrong with it and its nonce is unknown or that claim expired; which rows the nonce table then holds. |
| ToolServer.FaultsAreTrue | action_gate/tool_server.py:92-202 | Every fault that the tool reports is true of the call, its token, the stored decision or the world. |
| ToolServer.NonceRegistry.VerifyExecutionAuthority | action_gate/tool_server.py:175-202 | The first failing check in the source's order, or a claim of the nonce. |
| NonceRetention.RetentionMustCoverLifetime | action_gate/storage.py:452-473 | Enforcement with purges accepts what a never-forgetting registry accepts, on all call sequences, iff retention is at least the longest token lifetime. |
| NonceRetention.RunsIff | action_gate/enforcement.py:28-76 | Over every sequence of enforcements and purges: a tool runs iff signature, tenant, window, digests and decision hold and no earlier operation ran with the nonce, other than one that a purge has reached. |
| NonceRetention.AuthorityNonces.VerifyAuthority | action_gate/security_authority.py:95-119 | The checks in their order pass iff the authority is warranted for what the endpoint expects. |
| NonceRetention.OnlyExpiredIsForgotten | action_gate/storage.py:452-473 | What enforcement forgot belongs to expired tokens, and all verdicts agree. |
| NonceRetention.PurgeDiffersOnStraddlingReplays | action_gate/tool_server.py:76-90 | The tool's purge changes a verdict iff the call is a replay verified before and claimed after its token's expiry. |
| NonceRetention.OneReadingIsEnough | action_gate/tool_server.py:76-90 | With one clock reading per call the purge changes no verdict. |
| NonceRetention.StraddlingReplayExample | action_gate/tool_server.py:76-90 | A concrete replay that is accepted across its expiry. |
| NonceRetention.AuthorityNonces.EnforceExecutionAuthority | action_gate/enforcement.py:28-76 | The tool runs iff the authority is warranted and its nonce unknown, which then becomes known; otherwise the registry stays. |
| NonceRetention.AuthorityNonces.PurgeAuthorityNonces | action_gate/storage.py:452-473 | The rows that stay, the number deleted, and the error for a negative age. |
| Ingress.OneDecisionPerKey | action_gate/csg_ingress.py:104-131 | PostgreSQL, every interleaving: the key of a finished call is stored, and its reply is the stored decision if the stored digest is its own and a conflict otherwise; so "commit not visible" never happens, and two successes agree. |
| Ingress.MintIsRuled | action_gate/csg_ingress.py:46-54 | The table of the rules in terms of action and target: SANDBOX, DENY, ASK, ALLOW; the decision carries the id and digest of its call. |
| Ingress.RowsStay | action_gate/storage.py:172-186 | A stored row is never changed or removed. |
| Ingress.StoredDecisionHasOrigin | action_gate/csg_ingress.py:112-119 | A stored decision was there before, or was minted by one of the calls for the stored digest, under that call's id and by the rules. |
| Ingress.DoneAfterThreeAccesses | action_gate/csg_ingress.py:104-131 | A call is done after at most three accesses of its own, whatever the others do. |
| Ingress.AgreementCondition | action_gate/storage.py:172-186 | All finished calls agree with the stored rows iff the backend is PostgreSQL or no insert found its key taken. |
| Ingress.SqliteRaceExample | action_gate/storage.py:178-181 | Two SQLite calls under one key both succeed with different decisions. |
| Ingress.IdempotencyStore.Decide | action_gate/csg_ingress.py:91-131 | With other calls between its accesses, the reply is the answer of the stored row, rows stay, and the key is stored at the end; a first call stores and answers a decision by the rules; SQLite's exception is stated. |
| Ingress.IngressMatchesGate | action_gate/csg_ingress.py:46-54 | The ingress rules and the default policy pipeline agree off the three financial actions; there the gate denies, and the ingress answers SANDBOX to two and ALLOW to the third. |
| RateLimit.LimitersAgree | action_gate/rate_limit.py:17-27 | Memory and database limiter both allow iff the unbounded log holds fewer than `limit` acceptances of the key in the last window. |
| RateLimit.AllowsIff | action_gate/rate_limit.py:11-27 | A limiter allows a call iff, of the calls of the key that it allowed itself, fewer than `limit` lie in the last window; for all settings. |
| RateLimit.InterchangeableWhenPositive | action_gate/storage.py:504-533 | The two limiters answer alike on all call sequences iff limit and window are positive. |
| RateLimit.AcceptedIsLogged | action_gate/rate_limit.py:17-27 | The calls that each limiter allowed are exactly those in the unbounded log. |
| RateLimit.AtMostLimitPerWindow | action_gate/rate_limit.py:11-27 | No half-open interval of window length holds more than `limit` calls of a key that a limiter allowed; in memory with limit and window raised to 1, in the database none for settings that are not positive. |
| RateLimit.SlidingWindowRateLimiter.Allow | action_gate/rate_limit.py:17-27 | The popping loop and append leave the specified queue and answer. |
| RateLimit.RateLimitTable.AllowRateLimit | action_gate/storage.py:504-533 | Deletion, count and insert leave the specified rows and answer. |
| EvidenceLedger.HeadCommitsToHistory | action_gate/evidence_ledger.py:73-87 | If both ledgers verify and one's head hash stands at position i of the other, the first is the other's prefix up to i, field by field. |
| EvidenceLedger.IntactIff | action_gate/evidence_ledger.py:73-87 | What `verify_chain` checks, link by link and id by id. |
| EvidenceLedger.Ledger.Append | action_gate/evidence_ledger.py:55-68 | Accepted iff the id is non-empty and new and the payload serialises; then exactly one linked event is added, and the returned event has its fields and payload value but shares no object with the ledger; a refusal changes nothing. |
| EvidenceLedger.Ledger.Events | action_gate/evidence_ledger.py:70-71 | Copies of all events, none sharing an object with the ledger. |
| EvidenceLedger.Ledger.VerifyChain | action_gate/evidence_ledger.py:73-87 | True iff ids are distinct and registered and every link matches. |
| EvidenceLedger.Node.Reachable | action_gate/evidence_ledger.py:44-53 | The objects found are closed under containment, so they are all that a holder of the payload can reach. |
| EvidenceLedger.Exercise | action_gate/evidence_ledger.py:44-87 | After any mix of appends, appends of an object passed before and since emptied, reads, and arbitrary changes to every payload object ever passed or returned, the events are those of the accepted appends with the values of that moment, and `verify_chain` is true. |
| EvidenceLedger.VerifyAround | action_gate/evidence_ledger.py:73-87 | Any change to any objects outside the ledger leaves it valid, its contents and events as they were and the answer of `verify_chain` the same. |
| EvidenceLedger.Node.Copy | action_gate/evidence_ledger.py:44-53 | The copy has the same value and only fresh objects. |
| Awareness.HierarchyValid | src/awareness_layer.py:75-89 | True iff ids are distinct, parents are known and a depth ranking to ROOT exists; both loops terminate. |
| Awareness.ClimbsToRoot | src/awareness_layer.py:82-88 | The climb ends; success means ROOT is reached, failure means no ranking exists. |
| Awareness.SizeMeansDistinct | src/awareness_layer.py:76-77 | Comparing set size and list length detects exactly the repeated ids. |
| Awareness.DescendantsEndIff | src/awareness_registry.py:27-35 | For a valid hierarchy the loop ends from a start iff no descendant of the start is called ROOT. |
| Awareness.DescendantsTerminateIff | src/awareness_registry.py:27-35 | It ends from every start iff no component is called ROOT. |
| Awareness.RootNamedExample | src/awareness_layer.py:75-89 | A valid hierarchy of two components, one called ROOT, and two starts from which the loop never ends. |
| Awareness.AwarenessRegistry.Descendants | src/awareness_registry.py:24-35 | Terminates; the result holds every proper descendant exactly once, in the order of the source's stack. |
| Awareness.NotOwnDescendant | src/awareness_registry.py:27-35 | No component is its own proper descendant. |
| Awareness.EveryNeedIsRouted | src/awareness_registry.py:47-55 | Asking upwards from any component ends at the nearest permitted one or at a human, within as many hops as its depth. |
| Awareness.RouteIff | src/awareness_registry.py:47-55 | The decision is the mode of the first permission for the need; without one, the parent, or a human under ROOT; there is no other. |
| Awareness.AwarenessRegistry.RouteNeed | src/awareness_registry.py:47-55 | The decision of `RouteIff` for a known component, nothing for an unknown one. |
| Awareness.AwarenessRegistry.Build | src/awareness_registry.py:15-19 | Built iff the contracts, later ones replacing earlier ones of the same id, form a valid hierarchy. |
| Awareness.LatestAreKept | src/awareness_registry.py:15-16 | Of several contracts with one id the last is kept, once, at the place of the first. |
| Maat.MedianBreakdownPoint | RESEARCH/market_lab/maat.py:66 | Prices in an interval keep the median there against any m further prices iff they outnumber them. |
| Maat.MedianIsMiddle | RESEARCH/market_lab/maat.py:66 | The median is the middle value of an odd number and halfway between the two middle ones of an even number. |
| Maat.MajorityHoldsMedian | RESEARCH/market_lab/maat.py:66 | A strict majority in [lo, hi] puts the median there, for odd and even counts. |
| Maat.MedianIgnoresOrder | RESEARCH/market_lab/maat.py:66 | Equal multisets of prices have equal medians. |
| Maat.LatestIsNewest | RESEARCH/market_lab/maat.py:59-62 | The dictionary holds for each source its newest observation, the first among equally new ones. |
| Maat.ConsensusPriceIsBounded | RESEARCH/market_lab/maat.py:66-73 | With a majority of sources in [lo, hi], an agreed price lies in [lo(1-e), hi(1+e)]. |
| Maat.TightMajorityDecides | RESEARCH/market_lab/maat.py:66-73 | Enough sources, a majority, within relative distance e of each other: there is a consensus, and its price lies between theirs. |
| Maat.AnswerIsCoherent | RESEARCH/market_lab/maat.py:55-73 | How status, price, accepted, rejected and dispersion of an answer determine each other. |
| Maat.AnswerIsExplained | RESEARCH/market_lab/maat.py:55-73 | Every answer: the number of sources, which of them are within the limit of the median of their newest prices and which are not, how far the farthest is, and the median of the close ones. |
| Maat.EvidenceIsListed | RESEARCH/market_lab/maat.py:50-53 | The evidence hash is that of the newest observation of every source, in order of the sources. |
| Maat.SubmissionOrderIsIrrelevant | RESEARCH/market_lab/maat.py:55-73 | The same set of observations in any order and with repetitions gives the same answer, lists and evidence hash included, unless one source has two observations of one time. |
| Maat.StaleChangesNothing | RESEARCH/market_lab/maat.py:59-62 | An observation no newer than one of its source and symbol changes no answer. |
| Maat.MaatOracle.Submit | RESEARCH/market_lab/maat.py:43-48 | Appends exactly the valid observations. |
| Maat.SortingIgnoresOrder | RESEARCH/market_lab/maat.py:68-69 | Sorted lists of the same sources are the same list. |
| Maat.MaatOracle.Fingerprint | RESEARCH/market_lab/maat.py:50-53 | Hashes the newest observations in order of source. |
| Maat.MaatOracle.GetConsensus | RESEARCH/market_lab/maat.py:55-73 | The loop over the observations gives the specified answer, with sorted lists and evidence hash. |
| PaperTrader.RunBalance | RESEARCH/market_lab/paper_trader.py:27-57 | Over any run, equity plus every fee and all slippage paid equals starting equity plus each held position times its price changes. |
| PaperTrader.TradeIs | RESEARCH/market_lab/paper_trader.py:27-48 | When a step trades, and every field of the trade. |
| PaperTrader.EndingEquity | RESEARCH/market_lab/paper_trader.py:53-57 | The same for the reported ending equity, valued at the last price given even when signals run out earlier. |
| PaperTrader.NeverBoth | RESEARCH/market_lab/paper_trader.py:27-48 | Cash and position are never both non-zero, at any rates. |
| PaperTrader.SolventIffSalesKeep | RESEARCH/market_lab/paper_trader.py:27-48 | In every run exactly one of cash and position is positive and the other zero iff (1-slippage)(1-fee) > 0. |
| PaperTrader.AlternatesIffSalesKeep | RESEARCH/market_lab/paper_trader.py:27-48 | In every run trades alternate LONG, SHORT iff (1-slippage)(1-fee) is not zero. |
| PaperTrader.NeverRisesIffSalesAreFair | RESEARCH/market_lab/paper_trader.py:27-51 | At a constant price no step of any run raises equity iff 0 <= (1-slippage)(1-fee) <= 1. |
| PaperTrader.RatesBelowOne | RESEARCH/market_lab/paper_trader.py:17-19 | Rates below one meet all three conditions. |
| PaperTrader.PaperTrader.StepOnce | RESEARCH/market_lab/paper_trader.py:27-48 | New cash, position and trade list, the trade returned, and the error that changes nothing. |
| PaperTrader.PaperTrader.Run | RESEARCH/market_lab/paper_trader.py:53-57 | The state after the steps before the first bad price, and the summary when there is none. |

## Left out

- GateRuns.StepKeepsInv: each handler is one atomic step; of the interleavings below that, reservations and approvals of one decision are modelled (`SplitReservation`, `SplitApproval`), not executions or reconciliations in between.
- GateTheorems.AcceptedAtMostOnce: holds for atomic handlers, see `SplitReservation` and `SplitApproval` for overlapping ones; signature forgery, token encoding and key rotation are outside; a token whose tag verifies was issued by the gate.
- NonceRetention.RetentionMustCoverLifetime: one token per nonce, and purges use the same clock as the calls.
- RateLimit.LimitersAgree: `allow` is atomic with a non-decreasing clock; the source reads the clock before it takes its lock.
- Awareness.AwarenessRegistry.Descendants: requires that no descendant of the start is called ROOT, the exact condition under which the source returns.
- SQL text, connections, locks and write-ahead logging: a transaction is one atomic step.
- HTTP, authentication, request validation, rate limiting of the endpoints, environment configuration, URL checks, the MCP adapters and the dashboards: input and output only.
- Cryptography and canonical JSON: hash, signature and tag functions are parameters, ideal where a theorem says so.
- Key identifiers and rotation; the fields of the record that no modelled code reads (policy trace, timestamps of creation, versions of schema and API).
- Replay of records of schema 3.0, and the self-audit endpoint.
- Upper and lower case beyond ASCII, Python's equality of 1, 1.0 and True, and timestamps without a zone in evidence.
- Appending a payload that contains itself to the evidence ledger; JSON numbers other than integers.
- Rounding of floating-point numbers in prices, rates and times.
- Components' observing, need detection and action bookkeeping, and the registry's health report: one-line state changes.
- `state_bound/`, `financial_runtime/`, `governance/` and the prediction engines: smaller versions of the same ideas.
