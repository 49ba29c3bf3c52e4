# Governed authority ledger: a verified model

This project models the governed authority ledger of the signal-to-content workspace: one SQLite store that is changed only by atomic transactions, the audit that re-checks it, and the external-effect protocol built on it. It proves what every step keeps, what every run of any number of writers can reach, and what the audit loops accept.

`dafny verify dfyconfig.toml` checks everything.

## How the model is laid out

Two layers share one idea, the append-only event log.

**The hash chain** (`Canonical`, `EventChain`, `EventLog`, `Ranges`). Rows and JSON values are terms; a SHA-256 digest of canonical JSON is a free term over the value it hashes, so collision freedom and domain separation are facts about terms and not assumptions. `EventLog.Database` is the imperative writer and auditor: `InsertTransitionEvent` with its rollback, and the accumulating loops of the chain audit.

**The ledger** (all other modules). Every table is a field of `Ledger.Store`, and an event is named by its chain sequence; `ChainedRuns` justifies that name: whatever rows events are written as, the log of any run is an accepted chain whose row at entry k is event k's, and as long as events can be told from their rows the chain's hashes tell the log.

- `EventCoding`: a code from which a ledger event can be told, the witness that such rows exist.
- `Models`, `Authorization`: records and the staged capability evaluator.
- `Ledger`: each transaction as a function from the store it sees to the store it leaves, or `None` when it rolls back.
- `GovernedDatabase`: the same transactions as the program writes them, table by table with a rollback, each proved equal to its function.
- `Writers`: authentication and mediation, which read outside any transaction and leave a pending attempt.
- `ReadOutcomes`, `CommitOutcomes`: what each request comes to before its transaction and how each transaction ends, on stores the invariants hold of.
- `System`: writers over one store. A run is a sequence of reads, commits, new principals and new candidates in any order; the packet files and the clock are arbitrary at each step.
- `Consumption`, `PolicyRuns`, `Temporal`, `PacketRuns`, `EffectRuns`: the invariants, one concern each. `Runs` puts them together and states the results for every run.
- `EffectCreations`, `EffectProgress`: when effect requests, claims and results are granted, and that the effect protocol has no dead ends.
- `ReceiptRuns`, `Preparation`: preparing, mediating and committing one operation.
- `PolicyAudit`, `PolicyAuditRuns`: the policy audit loops, and exactly which recorded events of a reachable store they reject.
- `PolicyAuditSteps`: exactly which commits, runs and requests keep the policy audit content, decided beforehand.
- `PolicyAuditRejections`: requests that break it, and runs of one trusted principal that do.
- `EffectAudit`: the request, claim and result loops, sound on arbitrary tables and complete on reachable ones. `AuditTracing`: what acceptance by the policy and effect loops means for tables of any origin.
- `Projection`: the JSONL receipt log, its crash-prone projector and its audit.
- `EffectExecutor`: executing a claimed effect and the capture directory. `ExecutionRuns`: executions against the history of the store they audit.

## Where code and expectation differ

The model follows the code. Five differences show up as theorems.

1. Replays and stale requests are recorded at the packet's *current* state, while the audit wants the command's canonical prior state; it also rejects a replay of an unscoped request, a replay forwarded under another operation, and a rejected request with a noncanonical requested state. `PolicyAuditSteps.RequestAuditExact` gives the exact condition under which a request keeps the audit content, in terms of the request, the clock and the store it is submitted to; `PolicyAuditRejections` has a run for each way of failing it, and `ReplayedAcceptanceBreaksAudit` shows that replaying any accepted packet request inside its window always fails it.
2. A denial with `REQUEST_BINDING_REJECTED` is produced by writers and refused by the audit (`SecondRegistrationBreaksAudit`, `DeniedBindingRunRejected`).
3. The result audit looks up the request by the result's effect and the claim by the result's dispatch and never compares them; `EffectAuditSound` therefore groups results by claim.
4. A failed audit never recovers, and the executor refuses on one: a single replay blocks every later execution of any effect (`ExecutionRuns.ReplayBlocksExecutions`).
5. The executor may report that an effect did not happen although its capture is there: a first execution of a claim writes it and dies, a second lacks its credential (`EffectExecutor.FalseFailure`; `FailureTrueIff` is the exact condition).

The two JSON columns are hashed by parsed value; `SameEvent` in the chain layer compares them so.

The consumed-operation lookup by proof hash never finds more than the lookup by operation id: a consumed proof always has a consumed id (`Consumption.ConsumedById`).

## Model

| member | source | states |
|---|---|---|
| EventChain.TamperEvidence | src/governed_signal_to_content/integrity.py:41-156 | two stores that both pass the chain audit with equal head hashes have the same entries, the same protected columns event by event (JSON columns by value), and the same legacy corpus |
| EventChain.ProtectedColumns | src/governed_signal_to_content/integrity.py:41-156 | column by column: two accepted stores with equal heads agree on every mirrored, target and authorization column and the receipt text of each native row, on its two JSON columns by value, and on every immutable column and all three JSON texts of each legacy row |
| EventChain.AlterationRejected | src/governed_signal_to_content/integrity.py:591-738 | overwriting any of these in one stored row of an accepted store, entries and head kept, makes the audit reject it |
| EventChain.AcceptedReceipt | src/governed_signal_to_content/integrity.py:159-290 | each accepted native row has coherent authorization evidence and stores, as canonical text, a receipt with every required and no unknown field that repeats its columns and names its place in the chain |
| EventChain.DomainsSeparate | src/governed_signal_to_content/integrity.py:104-156 | an event hash is never an activation hash |
| EventChain.EqualHashesBackwards | src/governed_signal_to_content/integrity.py:623-738 | equal hashes at one sequence force equal rows at every earlier one |
| EventChain.TailCheckRefinesAudit | src/governed_signal_to_content/database.py:1109-1308 | once the O(1) tail check passes, the appended store passes the whole-chain audit iff the store before it did |
| EventChain.AcceptedStoreAppends | src/governed_signal_to_content/database.py:1109-1308 | on an accepted store no constraint can fire for a fresh aligned event, and the audit accepts the result |
| EventChain.InsertsNeverFork | src/governed_signal_to_content/database.py:122-136 | in any tables the constraints keep events, predecessors and hashes of entries distinct and every row and entry as it was |
| EventChain.InsertedRow | src/governed_signal_to_content/database.py:1214-1275 | an insert stores the event's own columns, its receipt with only the chain fields added, and the row not yet projected |
| EventLog.ReceiptRowsArePreparable | src/governed_signal_to_content/receipts.py:169-230 | every row built from a fresh receipt passes preparation and alignment |
| EventLog.RowTargets | src/governed_signal_to_content/receipts.py:169-216 | a receipt's row names the caller's target and governed hash, and the candidate and packet among the receipt's identifiers |
| EventLog.ActivationAccepted | src/governed_signal_to_content/database.py:687-766 | activating the chain over any unchained history yields an accepted chain |
| EventLog.RunOfAppendsAccepted | src/governed_signal_to_content/integrity.py:216-248 | any run of fresh appends succeeds, keeps all entries, and numbers the i-th append with the i-th next sequence |
| EventLog.Database.InsertTransitionEvent | src/governed_signal_to_content/database.py:1109-1308 | succeeds exactly when tail check, preparation and constraints hold, leaves the store unchanged otherwise, and keeps audit acceptance in both directions |
| EventLog.Database.VerifyChain | src/governed_signal_to_content/integrity.py:591-738 | the accumulating loops report nothing iff the declarative chain predicate holds |
| EventLog.Database.VerifyLinks | src/governed_signal_to_content/integrity.py:667-705 | the predecessor walk reports nothing iff every native row continues the one before it and carries a canonical receipt |
| ChainedRuns.AppendSimulated | src/governed_signal_to_content/database.py:1109-1308 | one ledger append is one successful chain append, and the longer chain mirrors the longer log row by row |
| ChainedRuns.RunsStayChained | src/governed_signal_to_content/database.py:1109-1308 | for every faithful encoding of events as rows, the log of any run of any number of writers is one accepted chain over the unchanged history whose row at entry k is event k's stored row, and each further step leaves it or appends to it |
| ChainedRuns.EqualHeadsEqualLogs | src/governed_signal_to_content/integrity.py:591-738 | two accepted chains with equal head hashes, over any histories and under any ids, record the same log event for event |
| ChainedRuns.HashTellsPrefix | src/governed_signal_to_content/integrity.py:667-705 | two chains over one history agree on the hash at k iff their logs agree on the first k events |
| ChainedRuns.HeadTellsLog | src/governed_signal_to_content/integrity.py:707-738 | any two runs over one history end in the same head hash iff they recorded the same log |
| ChainedRuns.FaithfulExists | src/governed_signal_to_content/receipts.py:169-230 | such an encoding exists, from whose rows every event can be told |
| EventCoding.EventsTold | src/governed_signal_to_content/receipts.py:169-230 | events with equal codes are equal |
| Authorization.EvaluatorExact | src/governed_signal_to_content/authorization.py:173-374 | for every query: allowed iff the policy is bootstrapped, the query well scoped and an unrevoked exact grant exists, naming the one with least event sequence; denied with a stage's reason iff that stage is the first no grant survives; the scope and bootstrap denials exactly on the queries that call for them |
| Authorization.EvaluatorStable | src/governed_signal_to_content/authorization.py:173-374 | later grants and revocations of other grants never change an allowed decision or the grant it names |
| GovernedDatabase.Database.CommitAuthorityTransition | src/governed_signal_to_content/database.py:1615-1747 | the imperative transaction with its rollback is its function: committed store or nothing changed |
| GovernedDatabase.Database.RecordAuthorizationRejection | src/governed_signal_to_content/database.py:1750-1814 | as above, for a rejection recorded with current policy evidence |
| GovernedDatabase.Database.DecidePolicy | src/governed_signal_to_content/database.py:1835-1997 | the decision reassigned check by check is the policy decision |
| GovernedDatabase.Database.CommitCapabilityPolicyOperation | src/governed_signal_to_content/database.py:1817-2071 | as above, for bootstrap, grant and revocation |
| GovernedDatabase.Database.CommitExecutionManagement | src/governed_signal_to_content/external_effects.py:187-331 | as above, for binding and executor registration |
| GovernedDatabase.Database.ApplyCandidateTransition | src/governed_signal_to_content/database.py:1381-1427 | as above, for a candidate step with or without its packet |
| GovernedDatabase.Database.ApplyPacketTransition | src/governed_signal_to_content/database.py:1439-1535 | as above, for a paired packet step |
| GovernedDatabase.Database.CreateExternalEffectRequest | src/governed_signal_to_content/external_effects.py:352-385 | as above, for requesting an effect: found, created or refused |
| GovernedDatabase.Database.DeriveFromRelease | src/governed_signal_to_content/external_effects.py:395-599 | the evidence checks one by one, the derived request and its two inserts are the derivation function |
| GovernedDatabase.Database.ClaimEffect | src/governed_signal_to_content/external_effects.py:602-691 | as above, for the exclusive claim |
| GovernedDatabase.Database.RecordSignedResult | src/governed_signal_to_content/external_effects.py:694-860 | as above, for a signed result and its resubmission |
| GovernedDatabase.Database.MediateAuthenticated | src/governed_signal_to_content/transition_mediator.py:798-937 | mediation by mismatch lists is the mediation function |
| Preparation.MediationExact | src/governed_signal_to_content/transition_mediator.py:798-1050 | mediation hands a request to its commit iff the adapter, the operation's own states and decision, packet, candidate, intact files and, for a release, the packet's last approval and its receipt all agree; otherwise it rejects at the current state with what was found of the files |
| ReadOutcomes.PacketIntake | src/governed_signal_to_content/transition_mediator.py:572-696 | a signed packet request is mediated if fresh and valid, recorded as a replay at its own packet if used, recorded without trusting it if invalid, and for an unknown packet not at all |
| ReadOutcomes.UnsignedIntake | src/governed_signal_to_content/transition_mediator.py:610-696 | an unsigned request is recorded only at a packet the adapter asserts |
| ReadOutcomes.PolicyIntake | src/governed_signal_to_content/transition_mediator.py:449-564 | a signed policy request goes to its commit, or to the consumption of its proof under another asserted operation, or its refusal is recorded, with its proof iff it is a replay |
| ReadOutcomes.MisdirectedIntake | src/governed_signal_to_content/transition_mediator.py:449-608 | a request sent to the other mediator has its proof consumed if fresh and valid and otherwise leaves no trace |
| ReadOutcomes.RegistrationIntake | src/governed_signal_to_content/external_effects.py:120-186 | a signed registration goes to its commit, is recorded as a replay, or leaves no trace |
| ReadOutcomes.CandidateIntake | src/governed_signal_to_content/state_machine.py:114-193 | a candidate step goes to its commit iff it follows the candidate's state, and is otherwise recorded as refused there |
| ReadOutcomes.PacketStepIntake | src/governed_signal_to_content/state_machine.py:196-301 | a packet step that needs authority is refused as unauthenticated, one that follows the packet's state goes to its commit, any other is refused |
| ReadOutcomes.OtherIntake | src/governed_signal_to_content/external_effects.py:352-364 | requests on unknown rows go nowhere, and an effect request carries on with what its packet's directory, if intact, holds |
| CommitOutcomes.AuthorityOutcome | src/governed_signal_to_content/database.py:1615-1747 | a packet operation is accepted, with the whole new store, iff its principal holds an unrevoked grant for exactly its packet's state, request and scope and its evidence is there; it rolls back iff it was consumed, meets another candidate or lacks only its evidence; it is denied, with the reason, in every other case |
| CommitOutcomes.ConsumingKeepsDistinct | src/governed_signal_to_content/database.py:1075-1106 | in any tables consuming a proof overwrites none, and no proof is ever consumed under two operations or without a registered principal |
| CommitOutcomes.RejectionOutcome | src/governed_signal_to_content/database.py:1750-1814 | a rejection is recorded at the state the request met iff its operation was not consumed |
| CommitOutcomes.BootstrapOutcome | src/governed_signal_to_content/database.py:1838-1866 | the bootstrap is accepted iff no policy exists, the registry is its principal alone and its grant is versioned; the reason otherwise |
| CommitOutcomes.GrantOutcome | src/governed_signal_to_content/database.py:1867-1913 | a grant is accepted, with its row, iff a policy manager asks, its scope is versioned and its subject registered; the rollback and the reason otherwise |
| CommitOutcomes.RevocationOutcome | src/governed_signal_to_content/database.py:1914-1997 | a revocation is accepted, with its row, iff a policy manager asks, it names a grant as it is, not yet revoked, and an administrator remains; the rollback and the first reason otherwise |
| CommitOutcomes.BindingRejectionOutcome | src/governed_signal_to_content/transition_mediator.py:135-203 | a misdirected policy request only consumes its proof, by an event that evaluates nothing |
| CommitOutcomes.RegistrationOutcome | src/governed_signal_to_content/external_effects.py:187-331 | a binding or executor is registered, with its row, iff a binding manager asks and nothing it names is taken; the rollback and the reason otherwise |
| ReadOutcomes.CandidateOutcome | src/governed_signal_to_content/database.py:1381-1427 | a candidate step commits iff the candidate is still where it was read and the new packet's id unused, and then moves it and adds the packet |
| ReadOutcomes.PacketStepOutcome | src/governed_signal_to_content/database.py:1439-1535 | a packet step commits iff packet and candidate are still where the packet was read, and then moves both |
| System.CommitShape | src/governed_signal_to_content/database.py:454-467 | a transaction only adds rows, appends exactly its own event or nothing, and writes no table but its own |
| System.NextAppends | src/governed_signal_to_content/database.py:1364-1378 | one step of any writer appends at most one event and alters none |
| System.RunGrows | src/governed_signal_to_content/database.py:1109-1308 | over any continuation of any run the log and every table only grow |
| Consumption.ReadOk | src/governed_signal_to_content/transition_mediator.py:572-937 | whatever a writer carries out of its reads is signed by its principal, canonical for its kind, and stays so however late it commits |
| Consumption.CommitLogStep | src/governed_signal_to_content/database.py:1075-1106 | a commit appends an event that adjudicates and consumes exactly one fresh proof, or one that consumes none |
| Consumption.ConsumedById | src/governed_signal_to_content/database.py:1060-1072 | a proof found consumed has had its operation id consumed earlier in the log |
| Runs.RunInv | src/governed_signal_to_content/database.py:1615-2071 | every system any number of writers can reach, in any interleaving, satisfies all invariants |
| Runs.ConsumptionBijection | src/governed_signal_to_content/database.py:1075-1106 | consumed operations and verified events correspond one to one with equal outcomes, no proof is adjudicated twice, replays and failures correspond to none |
| Runs.RejectedKeepsGoverned | src/governed_signal_to_content/transition_mediator.py:610-777 | a rejected attempt changes only the log and, if its proof verified, the consumed proofs |
| Runs.AuthenticationExact | src/governed_signal_to_content/authentication.py:695-819 | on every reachable store a request in its window and signed with the registered key is a replay iff its operation id was consumed, and otherwise authentic |
| Runs.SignaturesHold | src/governed_signal_to_content/authentication.py:695-819 | every verified or replayed proof in the log is signed with its principal's registered key |
| Temporal.CommitTimeKept | src/governed_signal_to_content/database.py:1643-1747 | each allowed decision equals the evaluation of the policy of its own moment, read back from the final tables |
| Runs.TemporalAuthorization | src/governed_signal_to_content/integrity.py:483-518 | an allowed event names the earliest grant in force when it was appended: same principal, capability, states and exact scope, granted before, not revoked before, revoked at it only by itself |
| Runs.DecidedAtCommit | src/governed_signal_to_content/database.py:1643-1747 | the decision of an event is the evaluation of the store its transaction found, never of an earlier read |
| Runs.BootstrapAtMostOnce | src/governed_signal_to_content/database.py:1838-1866 | bootstrap is accepted at most once in any run |
| Runs.AdministratorRemains | src/governed_signal_to_content/database.py:1969-1997 | after bootstrap some trusted principal is always allowed to manage the policy |
| PolicyRuns.RevokeKeepsAdmin | src/governed_signal_to_content/database.py:1914-1997 | an accepted revocation, of oneself or of another, leaves an unrevoked administrator |
| Runs.ReleaseProvenance | src/governed_signal_to_content/database.py:1690-1747 | a released packet has exactly one accepted approval and one later accepted release, for its manifest, scope and packet receipt, the release naming that approval and its event, and no other accepted authority event |
| PacketRuns.TrailExact | src/governed_signal_to_content/database.py:1690-1747 | a packet's trail lists exactly its accepted authority events |
| Runs.WorkflowShape | src/governed_signal_to_content/state_machine.py:22-55 | packet and candidate states are equal, one packet per candidate, one approval per packet, and moves plus remaining potential never exceed eight |
| PacketRuns.TransitionsDescend | src/governed_signal_to_content/state_machine.py:22-55 | every allowed transition strictly lowers the potential |
| PacketRuns.CandidateWithoutPacket | src/governed_signal_to_content/packets.py:225-268 | a candidate with a packet is past every state a candidate step of a shipped caller starts from |
| Runs.AtMostOnceEffect | src/governed_signal_to_content/external_effects.py:602-860 | claims are numbered 1..n in chain order, all but the last failed retry-permitted before the next, at most the last is unresolved, at most one result may have had its effect |
| EffectRuns.LatestIsLast | src/governed_signal_to_content/external_effects.py:612-622 | the row with the highest attempt is the last claim made |
| EffectRuns.LatestIsHighest | src/governed_signal_to_content/external_effects.py:612-622 | in any table the query finds a claim of the effect with the highest attempt, if there is one |
| EffectRuns.ResubmissionIdempotent | src/governed_signal_to_content/external_effects.py:725-734 | resubmitting a recorded result changes nothing and no other result of its claim is ever accepted |
| EffectCreations.NoDeadEnds | src/governed_signal_to_content/external_effects.py:352-599 | requesting the effect of a released packet with intact files never meets inconsistent evidence, whatever was revoked since, and the request created or found is found in every continuation |
| EffectCreations.SameRequestForever | src/governed_signal_to_content/external_effects.py:369-382 | once any reachable system has created or found a packet's request, asking with the same artifacts finds it ever after, whatever other writers do |
| EffectCreations.ReleaseGrantSupports | src/governed_signal_to_content/external_effects.py:420-471 | the grant of a release still supports it as the effect request checks it |
| EffectProgress.CreatedOnEvidence | src/governed_signal_to_content/external_effects.py:395-599 | in any tables a request is created only on its packet's last release, allowed under an earlier unrevoked grant for its exact scope and states, the approved decision it names and a binding of its scope, only once, and names exactly these |
| EffectProgress.ChangedFilesRefused | src/governed_signal_to_content/external_effects.py:383-392 | in any store a released packet without a request ends with changed artifacts iff the directory its transaction finds does not hold, intact, what was read before |
| EffectProgress.ExistingReturned | src/governed_signal_to_content/external_effects.py:369-382 | in any store a packet's latest request is returned iff it names what was recomputed and the packet's manifest, and otherwise the artifacts have changed |
| EffectProgress.RequestsNameTheirFiles | src/governed_signal_to_content/external_effects.py:383-392 | whichever commit adds a request found the packet's directory intact with the request's manifest and receipt |
| EffectProgress.ClaimGranted | src/governed_signal_to_content/external_effects.py:602-691 | in every reachable store a claim is granted iff the effect has a request, the claim id is unused and the last claim, if any, failed retry-permitted; it is numbered next and names the request |
| EffectProgress.ResultGranted | src/governed_signal_to_content/external_effects.py:694-860 | in every reachable store a result is accepted iff its registered executor signed exactly it and it repeats a claim and its request, and the claim has that result already or none and the id is unused; what it adds |
| EffectProgress.RoundCloses | src/governed_signal_to_content/external_effects.py:602-860 | whatever an execution of an open claim signs is recorded, and the next claim is then granted iff it reported a failure |
| ReceiptRuns.RunAgrees | src/governed_signal_to_content/transition_mediator.py:990-1050 | in a run that has only ever seen one packet receipt in a packet's directory, every accepted authority event of the packet and every commit under way for it carries that receipt |
| Preparation.PreparedRoundTrip | src/governed_signal_to_content/authentication.py:321-414 | an operation prepared from a reachable store, signed and submitted in its window with the packet receipt its files have always had, passes every mediation and release-approval check, and its commit never rolls back and is accepted iff the evaluator allows it |
| Preparation.PreparedExact | src/governed_signal_to_content/authentication.py:321-414 | whatever became of the files before, it passes mediation iff the packet receipt is still the approved one |
| Preparation.PreparationExact | src/governed_signal_to_content/authentication.py:321-414 | preparation succeeds iff the principal is registered and the packet scoped, where the operation starts, intact and, for a release, last approved as it is; the envelope binds all of that for 300 seconds |
| PolicyAudit.AuditEvent | src/governed_signal_to_content/integrity.py:368-518 | one turn of the binding loop reports nothing iff the event's evidence is canonical and its grant in force |
| PolicyAudit.VerifyEvents | src/governed_signal_to_content/integrity.py:1501-1535 | the reason and binding loops flag exactly the events that fail them |
| PolicyAudit.AuditState | src/governed_signal_to_content/integrity.py:1004-1085 | the bootstrap checks report nothing iff the state row is linked and an administrator is active |
| PolicyAudit.AuditGrant | src/governed_signal_to_content/integrity.py:1087-1222 | the mismatch checks of one grant report nothing iff it agrees with its event, operation, principals and canonical scope |
| PolicyAudit.VerifyGrants | src/governed_signal_to_content/integrity.py:1087-1222 | the grant loop reports nothing iff every grant does |
| PolicyAudit.AuditRevocation | src/governed_signal_to_content/integrity.py:1223-1305 | the mismatch checks of one revocation report nothing iff it agrees with its event, operation and grant |
| PolicyAudit.VerifyRevocations | src/governed_signal_to_content/integrity.py:1223-1305 | the revocation loop reports nothing iff every revocation does |
| PolicyAudit.VerifyPolicy | src/governed_signal_to_content/integrity.py:825-1305 | all policy loops together report nothing iff the declarative policy predicate holds |
| AuditTracing.PolicyAuditSound | src/governed_signal_to_content/integrity.py:825-1305 | tables of any origin the policy loops accept have every operation, grant, revocation and the bootstrap traced to the event that made it, every decision to its command and signer, and every allowed decision to a grant for exactly it, made before by an accepted event and not revoked before it |
| PolicyAuditRuns.EventExact | src/governed_signal_to_content/integrity.py:349-518 | in a reachable store an event passes both event loops iff its record is canonical |
| PolicyAuditRuns.PolicyAuditExact | src/governed_signal_to_content/integrity.py:825-1305 | on every reachable store the row checks pass, and the audit holds iff every record is canonical |
| PolicyAuditSteps.CommitAuditExact | src/governed_signal_to_content/database.py:1615-2071 | whoever commits and whatever was read before, the store passes the policy audit afterwards iff it did before and the attempt rolls back or is safe on the store it meets |
| PolicyAuditSteps.RunAuditExact | src/governed_signal_to_content/integrity.py:825-1305 | a run ends in a store the audit accepts iff every one of its commits was safe on the store it met |
| PolicyAuditSteps.RequestAuditExact | src/governed_signal_to_content/transition_mediator.py:572-937 | on a store the audit accepts, a request read and committed leaves one it accepts iff: a packet request meets its operation's own states, a replay moreover is scoped and forwarded under its own operation, a bootstrap of an empty policy comes from the only principal, and no manager registers what is registered |
| PolicyAuditRejections.StaleRequestBreaksAudit | src/governed_signal_to_content/transition_mediator.py:893-901 | a valid request that finds its packet in another state is recorded so that the audit rejects the store |
| PolicyAuditRejections.ReplayedAcceptanceBreaksAudit | src/governed_signal_to_content/transition_mediator.py:610-696 | replaying any accepted packet request in its window makes the audit reject the store |
| PolicyAuditRejections.SecondRegistrationBreaksAudit | src/governed_signal_to_content/external_effects.py:218-243 | registering a scope, target, executor or key twice makes the audit reject the store |
| PolicyAuditRejections.StaleRunRejected | src/governed_signal_to_content/transition_mediator.py:674-683 | a concrete run of one trusted principal with a stale approval, and its replay, both rejected |
| PolicyAuditRejections.RefusedReplay | src/governed_signal_to_content/transition_mediator.py:637-683 | from an audited store whose packet awaits approval, replaying a refused approval breaks the audit iff it is unscoped or forwarded under another operation |
| PolicyAuditRejections.ReplayRunsRejected | src/governed_signal_to_content/transition_mediator.py:637-683 | concrete runs of one trusted principal with an unscoped and a misnamed replay, each rejected |
| PolicyAuditRejections.DeniedBindingRunRejected | src/governed_signal_to_content/external_effects.py:218-243 | a concrete run of one trusted principal, who bootstraps, grants itself the management of bindings and registers one scope twice; rejected |
| EffectAudit.AuditRequest | src/governed_signal_to_content/integrity.py:1790-1923 | the mismatch checks of one request report nothing iff it agrees with its release, approval, grant, binding, packet and files |
| EffectAudit.VerifyRequests | src/governed_signal_to_content/integrity.py:1790-1923 | the request loop reports nothing iff every request does |
| EffectAudit.RequestAuditExact | src/governed_signal_to_content/integrity.py:1790-1923 | a request of a reachable store passes the request loop iff its packet's directory holds, intact, the artifacts it was created from |
| AuditTracing.AcceptedRequest | src/governed_signal_to_content/integrity.py:1790-1923 | a request the loop accepts, in tables of any origin, is traced to its release, approval, grant, binding and packet, and its packet's directory is intact |
| EffectAudit.VerifyClaims | src/governed_signal_to_content/integrity.py:1925-1968 | the accumulating claim loop reports nothing iff claims are numbered 1..n effect by effect and linked to request and event |
| EffectAudit.VerifyRetries | src/governed_signal_to_content/integrity.py:1970-2003 | the retry loop reports nothing iff every later attempt follows an earlier retry-permitted failure |
| EffectAudit.AuditResult | src/governed_signal_to_content/integrity.py:2006-2085 | the mismatch checks of one result report nothing iff it is validly signed, later than its claim and executor, and recorded by its event |
| EffectAudit.VerifyResults | src/governed_signal_to_content/integrity.py:2006-2085 | the result loop reports nothing iff every result is |
| EffectAudit.VerifyEffects | src/governed_signal_to_content/integrity.py:1925-2085 | the claim, retry and result loops together report nothing iff the declarative effect predicate holds |
| EffectAudit.EffectAuditSound | src/governed_signal_to_content/integrity.py:1925-2085 | arbitrary tables the loops accept satisfy at-most-once, with results grouped by claim |
| AuditTracing.EffectAuditTraces | src/governed_signal_to_content/integrity.py:1925-2085 | in accepted tables of any origin every claim is of an earlier request, every retry follows a retry-permitted failure, and every result is of a claim and signed by its registered executor's key over exactly its envelope |
| EffectAudit.EffectAuditComplete | src/governed_signal_to_content/integrity.py:1925-2085 | the loops accept every reachable store, in any row order that sorts attempts |
| Projection.Projector.Find | src/governed_signal_to_content/receipts.py:271-281 | the line scan finds the event's first receipt, or the first line it cannot read |
| Projection.Projector.ProjectEvent | src/governed_signal_to_content/receipts.py:240-259 | append and mark, or only append when interrupted, or nothing on a collision |
| Projection.Projector.ReconcilePending | src/governed_signal_to_content/receipts.py:262-268 | the loop over pending events is the fold of projections up to an error or interruption |
| Projection.ProjectionCrashSafe | src/governed_signal_to_content/receipts.py:240-281 | over any history with interruptions old lines stay, receipts occur at most once with their canonical payload, and marked events are present |
| Projection.ReconciledIsComplete | src/governed_signal_to_content/receipts.py:262-268 | after any history an uninterrupted reconcile succeeds, marks and projects every event, and leaves the audit content |
| Projection.VerifyProjection | src/governed_signal_to_content/integrity.py:2279-2400 | the projection loops report nothing iff the projection is valid, and complete iff every event is marked and present |
| Projection.ValidProjectionTold | src/governed_signal_to_content/integrity.py:2279-2400 | in a valid projection every line that names an event is that event's own receipt and the only one, marked events have theirs, and every native receipt is some event's |
| Projection.PendingAscends | src/governed_signal_to_content/database.py:2090-2106 | pending events are projected in the order of the rows |
| Projection.ReconcileStops | src/governed_signal_to_content/receipts.py:262-268 | a reconciliation that stops leaves the events before the one it stopped at marked and the events after it as they were |
| EffectExecutor.CaptureAdapter.InvokeAdapter | src/governed_signal_to_content/effect_executor.py:71-119 | exclusive creation, comparison with an existing capture, and every way it can end |
| EffectExecutor.CaptureAdapter.ExecuteClaimedEffect | src/governed_signal_to_content/effect_executor.py:161-261 | the reassigned outcome variables classify the execution as its function does |
| EffectExecutor.ExecutionSafe | src/governed_signal_to_content/effect_executor.py:161-261 | one execution alters no capture, creates at most its own, signs only valid results of its claim; a retry-permitted failure wrote nothing, a success has its capture |
| EffectExecutor.OutcomesTruthful | src/governed_signal_to_content/effect_executor.py:161-261 | at the adapter, no effect is reported iff the credential was missing; whoever wrote the capture and signed says the effect may have occurred; every exception and collision ends unknown |
| EffectExecutor.OutcomesExact | src/governed_signal_to_content/effect_executor.py:161-261 | an execution raises, succeeds or fails exactly when the audit, files, credential, directory and interruption say so |
| EffectExecutor.CapturedOnce | src/governed_signal_to_content/effect_executor.py:71-119 | across any executions a key's capture is written at most once, never altered, and belongs to a request with that key |
| EffectExecutor.FailureTrueIff | src/governed_signal_to_content/effect_executor.py:198-231 | a report that an effect did not happen is true iff neither the directory at the outset nor any earlier execution had its capture |
| EffectExecutor.OnlyFailuresWriteNothing | src/governed_signal_to_content/effect_executor.py:198-231 | executions of a key that were only ever refused or reported failed have written nothing |
| EffectExecutor.FalseFailure | src/governed_signal_to_content/effect_executor.py:71-119 | for any request, a claim executed twice, first dying after its capture and then without its credential, is reported as failed and safe to retry |
| EffectExecutor.KeysDistinct | src/governed_signal_to_content/effect_protocol.py:57-77 | distinct requests of a reachable store never share an idempotency key |
| ExecutionRuns.ExecutedOnlyIfAllSafe | src/governed_signal_to_content/effect_executor.py:171-181 | an effect is executed only in a run all of whose commits were safe for the policy audit |
| ExecutionRuns.FailedAuditIsPermanent | src/governed_signal_to_content/integrity.py:825-1305 | once the policy audit fails, it fails in every continuation of the run |
| ExecutionRuns.ReplayBlocksExecutions | src/governed_signal_to_content/effect_executor.py:171-181 | after one replay of an accepted packet request inside its window, by any writer, every later execution of any effect is refused and writes nothing |

## Left out

- Event ids in the ledger layer: an event is named by its chain sequence; the chain layer has the ids and the UNIQUE constraints. How a ledger event is written out as a row and its receipt is an arbitrary encoding from which the event can be told, not the program's field by field.
- Timestamps and application versions in rows, and their equality checks in the audits; only the authentication window uses a clock.
- `target_type`, `target_id`, reasons, asserted actors and the workflow commands' names in events; the stage labels of effect events.
- Ed25519 and SHA-256: a signature is a term naming the signing key and what was signed, a digest a term over what was hashed; key encodings, fingerprints and base64 canonicality are not modelled.
- The truncated effect id digest is taken as injective.
- Envelope field patterns, the shape of approval ids, scope identifier vocabulary, and the single adapter `test.capture`.
- Packet directories: a map from packet to what `recompute_packet_manifest` reads; materializing a packet, word counts and renames are left out.
- `transition_candidate` and `transition_packet` steps no shipped caller issues, notably to `FAILED`; the pairing and history results are for runs without them.
- Registering trusted principals is wider than the program's one-time bootstrap: any fresh principal with a fresh key may appear, so every run of the program is a run of the model.
- Candidate fields, evidence, deduplication reasons and classification: only the states they lead to.
- Unknown capability strings, for which the program's evaluator has a separate denial.
- The latest approved approval is the last inserted rather than the last by decision time; invariants show there is at most one.
- Legacy rows in the chain audit are a corpus indexed by event id instead of a list in a fixed order.
- Column-adding migrations and the grant-table rebuild; only chain activation is modelled.
- The packet-scope, binding and executor loops of the audit, and its missing-table checks: the results about the policy and effect audits are about the loops modelled.
- Concurrent JSONL projectors, and a log that is not valid UTF-8.
- The approval JSON projection and every file the command line writes.
- EffectExecutor.ExecutionSafe: file creation is atomic, so a capture is whole or absent.
- ExecutionRuns.ReplayBlocksExecutions: of the executor's audit only the policy part is tied to the store; the chain and effect parts, the context and the adapter check stay one flag.
- Preparation.PreparedExact: preparation itself does not check that a release's packet receipt is still the approved one; the condition is the receipt's, and `PreparedRoundTrip` has none for files that never changed.
