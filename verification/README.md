# FractalMind protocols: a verified model

This project models the parts of FractalMind that decide what may run, what may be spent, what
may be sent and what can still be read, and proves what they keep over every run. The contracts
are modelled from the Move sources, the dialogs and harnesses from the App and its acceptance
scripts, the Host loop from envd.

| file | what it models |
|---|---|
| `OkrProtocol.dfy`, `OkrTheorems.dfy`, `OkrResults.dfy`, `OkrTrail.dfy`, `OkrGuards.dfy`, `OkrReplay.dfy`, `OkrCompletion.dfy` | OKRs, the capabilities they issue and the Runs they pay for: activation, queueing ahead, start, settlement, stop, pause, renewal, observation, verification, acceptance; where every fact on the ledger comes from, exactly when each entry commits, the replay indexes, and that a KR can always be completed |
| `DirectPermission.dfy`, `DirectTrail.dfy`, `DirectGuards.dfy`, `DirectReplay.dfy` | the standing permission for direct messages, with its ordinary and its approved ledger, the trail of who decided what, its exact guards and its replay indexes |
| `Recovery.dfy`, `RecoveryGrants.dfy` | repeated identity recovery with key rotation, code replacement and record writes, and how long a device may write |
| `ImportSession.dfy`, `ImportReceipts.dfy`, `ImportQuotes.dfy` | the Agent import dialog, its stored attempt, the transaction manager that claims before it broadcasts, what the dialog reports, and what becomes of a dropped quote |
| `OkrDraft.dfy`, `OkrDraftClaims.dfy`, `OkrDraftReceipts.dfy` | the OKR draft dialog with its epoch guard and stored logical id, and what it reports |
| `DiscoverQuote.dfy`, `DiscoverHistory.dfy` | the race between ticks, rescans, the debounce timer and late quotes, and what the page shows told by what happened to it |
| `Planner.dfy` | the read, compare-and-swap write, read planner and the Host loop that runs any planner |
| `Framing.dfy`, `PhaseLines.dfy` | newline framing, the two one-shot phase harnesses, and which phase each line reaches |
| `Devtools.dfy` | the request multiplexer over one debugging socket |
| `RecordHistory.dfy`, `RecordTrail.dfy` | revision chains of encrypted records, the walk that collects them, and where each record comes from |
| `HostDirectory.dfy`, `HostTrail.dfy` | the execution directory of a managed Agent, the versioned rebind, and which transaction each fact reflects |
| `IdentitySetup.dfy` | the identity creation view |
| `SuiFormat.dfy` | the two MIST formatters |
| `Common.dfy` | options, atomic commits, outcomes and sums |

How it is modelled. A Move transaction commits or aborts as a whole, so each entry is a function
from the ledger to `Done(next)` or `Abort`, and a run is any sequence of entries with any clock
readings. Guards on identity, membership and instance are one arbitrary boolean per call
(`authorized`); everything proved holds for either answer, and only authorized calls commit.
What a ledger or a page shows is also told by its history: a log of what committed, or the events
judged in the states they met, without naming the functions that compute the state. The dialogs are protocols between
clicks, awaits, unmounts and the chain: each is a state machine with one event per handler and
one per await, so all interleavings are covered, and the import dialog is also given as the
component object whose handlers are steps of that machine. The loops (Host loop, framing, history
walk, recovery rounds, multiplexer close) are methods with invariants, proved
against a specification that does not mention them. Hashes are injective constructors, keys are
abstract values, JSON parsing is an arbitrary partial function. Object ids are indexes.

Findings, each proved:

- Recovery is possible exactly while the organization has fewer than 256 keys, so at most 255
  times (`Recovery.RecoverableExactly`, `Recovery.RoundCounters`).
- A Run's result is saved under a name made of its intent alone. Of two Runs in progress with one
  intent on two capabilities only the first can finish; the other holds its reservation for good
  (`OkrResults.SecondResultBlocked`, `OkrResults.TwoCapabilitiesOneIntent`). When intents determine
  their capability, as signed commands do, it never happens (`OkrResults.NamedIntentsNeverBlock`).
- An import attempt whose claim became durable but which the chain did not take can never be sent
  or reset. Four ways lead there, and no fifth: an unmount after the claim, an unmount during it, a
  claim reported as failed, and a broadcast that throws (`ImportSession.UnmountAfterClaim`,
  `ImportSession.UnmountDuringClaim`, `ImportSession.ClaimReportedFailed`,
  `ImportSession.BroadcastRefused`, `ImportSession.LostOnlyBy`). A stored attempt can be cleared
  exactly unless it was claimed and never taken (`ImportSession.ClearableExactly`). The OKR draft has
  the same state, the same ways and the same exact condition (`OkrDraftClaims.ClearableExactly`).
- The OKR draft keeps controller and storage on one id as long as no action starts on an open
  controller without a recorded attempt (`OkrDraft.PendingIsStored`, `OkrDraft.UnsettledIdKept`).
  Where one does, an id is lost (`OkrDraft.UnlinkedStartLosesTheId`). Only a refused save makes
  that possible, and one refused save does (`OkrDraft.AcceptedSavesLink`,
  `OkrDraft.RefusedSaveUnlinks`).
- A control Run that is running while the name of its result is taken blocks every later rebind of
  its Agent (`HostDirectory.UnsettleableBlocksRebind`).
- The quote on display matches the ticks and the scan whenever something is ticked; with nothing
  ticked a late quote for the Agent just unticked appears, enables the import button and is what
  an import then submits (`DiscoverHistory.DisplayedQuoteMatches`, `DiscoverQuote.UntickedQuoteShown`,
  `DiscoverHistory.SubmitsTheTicksExactly`).
- A request held after a write follows exactly one read and one write only while nobody else
  changes the file (`Planner.HeldRequest`, `Planner.HeldUnderInterference`, `Planner.HeldTwice`).
- The history of records can be read exactly while no record has more than 1000 revisions
  (`RecordHistory.History`).

## Model

| member | source | states |
|---|---|---|
| `OkrTheorems.ExecuteKeeps` | protocols/fractalmind-protocol/contracts/okr/sources/okr.move:129-521 | every run of all fourteen entries, with any other writer of records beside them, keeps the whole invariant: both ledgers are sums of claims within their limits, the two claims of a Run agree, settled means final, verified KRs are those below the cursor, started Runs have only verified KRs before them, active slots are exact |
| `OkrTheorems.BudgetConserved` | apps/fractalmind-app/scripts/native-app-execution-localnet.ts:1988-2046 | after any run `reserved` is the sum of unsettled allowances, `spent` the sum of settled spends, every amount ever prepared is reserved, spent or refunded, and the limit holds |
| `OkrTheorems.ReleasedOnlyBySettling` | protocols/fractalmind-protocol/contracts/okr/sources/okr.move:369-419 | a reservation falls only by settling one of the OKR's own Runs, by exactly its allowance, with exactly the reported spend; pause, expiry, archive and renewal release nothing |
| `OkrTheorems.FinishExactly` | protocols/fractalmind-protocol/contracts/protocol/sources/node_execution.move:334-366 | a result can be reported exactly for a running Run at its cursor within its allowance whose intent has no saved result yet, in every OKR phase, after expiry and revocation; unknown effects only at zero |
| `OkrResults.BlockedForever` | protocols/fractalmind-protocol/contracts/protocol/sources/node_execution.move:356-359 | a running Run whose intent already has a saved result can never be finished in any way and keeps its reservation, in every continuation |
| `OkrResults.SecondResultBlocked` | protocols/fractalmind-protocol/contracts/protocol/sources/node_execution.move:416-426 | of two Runs in progress with the same intent the first to finish, in whatever state, blocks the other for good |
| `OkrResults.TwoCapabilitiesOneIntent` | protocols/fractalmind-protocol/contracts/protocol/sources/product_record.move:76-82 | the input from the empty ledger: one intent prepared and started on two capabilities of one OKR, one finished; the other's allowance stays held whatever follows |
| `OkrResults.NamedIntentsNeverBlock` | protocols/fractalmind-protocol/sdk/src/node-command.ts:78-95 | when every intent determines its capability, as the signed command does, and no other record takes the name of an intent the run prepares, no Run is ever blocked, in any run |
| `OkrTheorems.StopAlwaysPossible` | protocols/fractalmind-protocol/contracts/protocol/sources/node_execution.move:399-410 | a stop is possible exactly for queued and running Runs; a queued one is cancelled at zero and refunded in full, a running one keeps its reservation |
| `OkrTheorems.StartsInOrder` | protocols/fractalmind-protocol/contracts/okr/sources/okr.move:358-368 | in any reachable ledger a start means: active, current agreement, the KR at the cursor, exactly the earlier KRs verified, funded, although later KRs may be queued ahead |
| `OkrTheorems.VerifiedBelowCursor` | apps/fractalmind-app/scripts/native-app-execution-localnet.ts:1572-1653 | in every reachable ledger the verified KRs of every OKR are exactly those below its cursor |
| `OkrTheorems.ProgressInOrder` | apps/fractalmind-app/scripts/native-app-execution-localnet.ts:1811-1889 | in every reachable ledger a started Run of the current agreement has only verified KRs before it |
| `OkrTheorems.AcceptedOnlyWithEvidence` | protocols/fractalmind-protocol/contracts/okr/sources/okr.move:494-512 | an accepted OKR has every KR verified, every target met and a succeeded Run of that very KR behind every sample |
| `OkrTheorems.ActiveSlots` | protocols/fractalmind-protocol/contracts/okr/sources/okr.move:199-201 | the active counter equals the number of active OKRs and never exceeds three |
| `OkrTheorems.ExecuteLater` | protocols/fractalmind-protocol/contracts/okr/sources/okr.move:358-434 | over any continuation versions, spending, cursors and replay indexes only grow, a Run keeps its command and allowance, and is frozen once final or parked |
| `OkrTheorems.SpendingNeverResets` | apps/fractalmind-app/scripts/native-app-execution-localnet.ts:2175-2183 | no sequence of transactions, renewals included, lowers what an OKR has spent |
| `OkrTheorems.StaleRunNeverStarts` | protocols/fractalmind-protocol/contracts/okr/sources/okr.move:363-366 | a queued Run of an older agreement or of a verified KR never starts in any continuation; it waits or is cancelled at zero |
| `OkrTheorems.ParkedReservation` | protocols/fractalmind-protocol/contracts/protocol/sources/node_execution.move:349-356 | a Run with unknown effects keeps its whole reservation in every continuation |
| `OkrTheorems.ReplayReservesNothing` | protocols/fractalmind-protocol/contracts/protocol/sources/remote_authority.move:579-622 | once prepared, a command reserves nothing again: at any later time its replay aborts or changes nothing |
| `OkrTrail.SamplesAreReported` | protocols/fractalmind-protocol/contracts/okr/sources/okr.move:439-469 | in every run a recorded sample is the value, Run and time of a committed observation of that very KR, from a succeeded Run of it |
| `OkrTrail.AcceptedOnReportedValues` | protocols/fractalmind-protocol/contracts/okr/sources/okr.move:470-512 | an accepted OKR was confirmed by a human, every KR was verified by a transaction of its own, and every reported value had reached its target in the direction away from the baseline |
| `OkrTrail.EverythingIsOnRecord` | protocols/fractalmind-protocol/contracts/okr/sources/okr.move:129-521 | criteria and deadline are those of the latest approved specification, the phase is that of the latest transition, limit, asset, expiry and ceiling are those of the latest activation, capabilities carry the terms of one activation, and Runs the command, state, stop and spend of committed transactions |
| `OkrTrail.OnlyAuthorizedCommits` | protocols/fractalmind-protocol/contracts/okr/sources/okr.move:129-521 | every transaction that committed was authorized |
| `OkrGuards.DraftExactly` | protocols/fractalmind-protocol/contracts/okr/sources/okr.move:100-160 | a draft is accepted exactly with one to three criteria that move, weights and sample ages in bounds, and a future deadline |
| `OkrGuards.ActivateExactly` | protocols/fractalmind-protocol/contracts/okr/sources/okr.move:184-214 | activation commits exactly for a draft or paused OKR on its version, with a free slot, terms inside the deadline, a limit covering what is spent and held, and the old asset once anything was claimed |
| `OkrGuards.LifeExactly` | protocols/fractalmind-protocol/contracts/okr/sources/okr.move:407-438 | pause, archive and a new specification commit exactly in their phases on the current version |
| `OkrGuards.IssueExactly` | protocols/fractalmind-protocol/contracts/okr/sources/okr.move:264-279 | a capability is issued exactly for an active OKR with a KR to go under the ceiling of the present agreement |
| `OkrGuards.PrepareExactly` | protocols/fractalmind-protocol/contracts/okr/sources/okr.move:331-357 | a new command commits exactly when agreement, times and capability allow it, its identifiers are unused, and its amount fits both budgets |
| `OkrGuards.BeginExactly` | protocols/fractalmind-protocol/contracts/okr/sources/okr.move:358-368 | a Run starts exactly at the cursor, under the present agreement, queued, unexpired and on its unchanged live capability |
| `OkrGuards.ObserveExactly` | protocols/fractalmind-protocol/contracts/okr/sources/okr.move:439-469 | a value is recorded exactly for the KR at the cursor, from a succeeded Run of this activation, sampled after it was prepared, recently and not before the sample it replaces |
| `OkrGuards.VerifyExactly` | protocols/fractalmind-protocol/contracts/okr/sources/okr.move:470-493 | a KR is verified exactly at the cursor with a recent sample that reached the target |
| `OkrGuards.AchieveExactly` | protocols/fractalmind-protocol/contracts/okr/sources/okr.move:494-512 | an OKR is accepted exactly when the cursor has passed every KR and every one still holds |
| `OkrReplay.OneRunPerIdentifier` | protocols/fractalmind-protocol/contracts/protocol/sources/remote_authority.move:579-670 | in every run two Runs of one capability share no intent, command id, nonce or idempotency key |
| `OkrReplay.KnownExactly` | protocols/fractalmind-protocol/contracts/protocol/sources/remote_authority.move:579-670 | in every run a capability knows an identifier exactly when one of its Runs carries it |
| `OkrReplay.ReplayExactly` | protocols/fractalmind-protocol/contracts/protocol/sources/remote_authority.move:579-622 | a command with a known id commits exactly when it may still be prepared and repeats its Run, and then changes nothing |
| `OkrReplay.RunningCursor` | protocols/fractalmind-protocol/contracts/protocol/sources/node_execution.move:411-415 | in every run the cursor of a running Run is two, or three after a stop request |
| `OkrResults.NameTakenByCommit` | protocols/fractalmind-protocol/contracts/protocol/sources/node_execution.move:356-359 | a result name is taken exactly when a committed finish or another writer took it |
| `OkrCompletion.NextKrCanBeVerified` | protocols/fractalmind-protocol/contracts/okr/sources/okr.move:264-493 | from every sound ledger an active OKR with a ceiling can have its next KR issued, prepared, begun, finished, observed and verified, for every fitting command, spend and value that reaches the target |
| `DirectPermission.TransactSound` | protocols/fractalmind-protocol/contracts/direct-agent/sources/direct_agent.move:135-374 | every run of all twelve entries, with any other writer of records beside them, keeps the ledgers, the one-to-one link of messages, approvals and Runs, and the capability totals |
| `DirectPermission.LedgersNeverMix` | apps/fractalmind-app/scripts/native-app-execution-localnet.ts:3121-3177 | after every run each of the four totals is the sum over its own claims, and the standing limit holds whatever was approved |
| `DirectPermission.LedgerIsolation` | protocols/fractalmind-protocol/contracts/direct-agent/sources/direct_agent.move:354-363 | work on an approval never touches the standing ledger, ordinary work never the approved one, and only an update changes the limit |
| `DirectPermission.OneRunPerMessage` | protocols/fractalmind-protocol/contracts/direct-agent/sources/direct_agent.move:285-306 | no message and no approval ever pays for two Runs |
| `DirectPermission.SettledClaimKept` | apps/fractalmind-app/scripts/native-app-execution-localnet.ts:3320-3335 | in every continuation a claim keeps the message's allowance, and a settled Run stays exactly as it is |
| `DirectPermission.ReplayChangesNoLedger` | apps/fractalmind-app/scripts/native-app-execution-localnet.ts:3374-3388 | at any later time the replay of a prepared command aborts or changes nothing |
| `DirectPermission.OldReservationCancellable` | protocols/fractalmind-protocol/contracts/direct-agent/sources/direct_agent.move:370-374 | a Run can be stopped exactly while queued or running, under every later version; a queued one gives its whole reservation back to its own ledger and leaves every other field of the permission as it was |
| `DirectPermission.OldRunFinishable` | protocols/fractalmind-protocol/contracts/direct-agent/sources/direct_agent.move:364-369 | reporting a result depends exactly on the Run, its cursor, its allowance and the name of its result being free, never on the policy in force |
| `DirectPermission.SecondResultBlocked` | protocols/fractalmind-protocol/contracts/protocol/sources/node_execution.move:356-359 | of two Runs in progress with the same intent the first to finish blocks the other |
| `DirectPermission.BlockedForever` | protocols/fractalmind-protocol/contracts/protocol/sources/node_execution.move:356-359 | a blocked Run can never be finished and keeps its claim open in every continuation |
| `DirectPermission.OldRunNeverStarts` | protocols/fractalmind-protocol/contracts/direct-agent/sources/direct_agent.move:324-331 | a Run queued under an older policy version never starts in any continuation |
| `DirectPermission.ApprovalUsedOnce` | protocols/fractalmind-protocol/contracts/direct-agent/sources/direct_agent.move:241-260 | a consumed or denied approval stays so for ever and no preparation on it changes anything |
| `DirectTrail.NoRunWithoutAYes` | protocols/fractalmind-protocol/contracts/direct-agent/sources/direct_agent.move:241-254 | in every run a granted or consumed approval has a recorded yes, a denied one a recorded no, every Run on an approval has a yes for that very message and workspace revision, and an approval ends with its message |
| `DirectTrail.EverythingIsOnRecord` | protocols/fractalmind-protocol/contracts/direct-agent/sources/direct_agent.move:113-374 | the terms in force are those of the latest update, and messages, approvals, grants and Runs are exactly what committed transactions wrote, asked, decided, issued, prepared, stopped and reported |
| `DirectTrail.OnlyAuthorizedCommits` | protocols/fractalmind-protocol/contracts/direct-agent/sources/direct_agent.move:113-374 | every transaction that committed was authorized |
| `DirectTrail.NameTakenByCommit` | protocols/fractalmind-protocol/contracts/protocol/sources/node_execution.move:356-359 | a result name is taken exactly when it was at the start or a committed transaction took it |
| `DirectGuards.UpdateExactly` | protocols/fractalmind-protocol/contracts/direct-agent/sources/direct_agent.move:135-153 | an update commits exactly on the current version with terms in bounds that cover what is spent and held |
| `DirectGuards.MessageExactly` | protocols/fractalmind-protocol/contracts/direct-agent/sources/direct_agent.move:169-191 | a message is accepted exactly under current terms, with a new token, an amount fitting its action and a short life |
| `DirectGuards.AskExactly` | protocols/fractalmind-protocol/contracts/direct-agent/sources/direct_agent.move:207-225 | an approval is asked for exactly when the message is current, not covered by the standing terms, and has neither approval nor Run |
| `DirectGuards.DecideExactly` | protocols/fractalmind-protocol/contracts/direct-agent/sources/direct_agent.move:241-254 | a decision commits exactly on a pending, current approval, a yes to a write only in the unchanged workspace, and the approval then stands as answered |
| `DirectGuards.IssueExactly` | protocols/fractalmind-protocol/contracts/direct-agent/sources/direct_agent.move:261-278 | grants are issued exactly under current terms, approved ones exactly on a valid yes, and revoked once |
| `DirectGuards.OrdinaryExactly` | protocols/fractalmind-protocol/contracts/direct-agent/sources/direct_agent.move:285-314 | without an approval a new Run is prepared exactly when the standing terms cover the message |
| `DirectGuards.ApprovedExactly` | protocols/fractalmind-protocol/contracts/direct-agent/sources/direct_agent.move:285-323 | on an approval exactly when it was granted for this message under these terms, is unexpired and the workspace of a write is unchanged |
| `DirectGuards.BeginExactly` | protocols/fractalmind-protocol/contracts/direct-agent/sources/direct_agent.move:324-345 | a Run starts exactly once, under the terms it was prepared under |
| `DirectReplay.OneRunPerIdentifier` | protocols/fractalmind-protocol/contracts/protocol/sources/remote_authority.move:579-670 | in every run two Runs of one capability share no intent, command id, nonce or idempotency key |
| `DirectReplay.KnownExactly` | protocols/fractalmind-protocol/contracts/protocol/sources/remote_authority.move:579-670 | in every run a capability knows an identifier exactly when one of its Runs carries it |
| `DirectReplay.ReplayExactly` | protocols/fractalmind-protocol/contracts/direct-agent/sources/direct_agent.move:285-323 | an order with a known id commits exactly when everything is still current and it repeats its Run, and then changes nothing |
| `Recovery.ExecuteKeeps` | protocols/fractalmind-protocol/contracts/protocol/sources/identity.move:331-379 | every interleaving of preparations, submissions, code replacements and writes keeps: one active backup, every keyring a prefix of the current one, every record openable, still submittable preparations extend the current ring by an unknown key |
| `Recovery.RoundCounters` | apps/fractalmind-app/scripts/native-recovery-localnet.ts:343-747 | after k recoveries and r replacements in any run the generation is 1+k, the recovery version 1+k+r, the key version k+1, and k is at most 255 |
| `Recovery.KeyringReach` | apps/fractalmind-app/scripts/native-workload-recovery.ts:905-957 | the current keyring opens every record ever written; a keyring kept from any round opens exactly the records up to its own version and holds no later key under any version |
| `Recovery.UsedNeverAcceptedAgain` | apps/fractalmind-app/scripts/native-workload-recovery.ts:658-680 | only the newest code and device are accepted: once a backup was replaced nothing prepared from its code is ever accepted, and older devices never write or replace the code again, in any continuation |
| `Recovery.RecoverableExactly` | apps/fractalmind-app/native/src/keyrings.rs:221-298 | with the current code a recovery can be prepared exactly while there are fewer than 256 keys, and submitted exactly with unused addresses |
| `Recovery.OneRound` | apps/fractalmind-app/scripts/native-workload-recovery.ts:235-1076 | one round succeeds, advances all three counters by one, consumes the addresses and writes under the new key version |
| `Recovery.Rounds` | apps/fractalmind-app/scripts/native-recovery-localnet.ts:343-747 | any number of rounds up to the key limit succeeds, with one record per round under consecutive versions |
| `RecoveryGrants.OnlyTheNewestDeviceWrites` | protocols/fractalmind-protocol/contracts/protocol/sources/identity.move:331-344 | after any run only the newest device can write, and exactly until thirty days after the creation or recovery that admitted it |
| `RecoveryGrants.GrantedBy` | protocols/fractalmind-protocol/contracts/protocol/sources/identity.move:331-344 | in every run each further device was admitted by one committed recovery, as prepared, with a grant of thirty days from then |
| `RecoveryGrants.SaveExactly` | protocols/fractalmind-protocol/contracts/protocol/sources/identity.move:480-494 | a save commits exactly for an unexpired device of the present generation and appends one record under the present key |
| `RecoveryGrants.PrepareExactly` | apps/fractalmind-app/native/src/keyrings.rs:221-298 | a recovery is prepared exactly with the code of a backup that holds the present keyring, while fewer than 256 keys exist |
| `RecoveryGrants.SubmitExactly` | protocols/fractalmind-protocol/contracts/protocol/sources/identity.move:331-379 | a prepared recovery is accepted exactly while nothing was recovered or replaced since, with an unused code and a device that is no code |
| `RecoveryGrants.ReplaceExactly` | protocols/fractalmind-protocol/contracts/protocol/sources/identity.move:345-379 | a code is replaced exactly by an unexpired device of the present generation with an unused code |
| `ImportSession.ExecuteKeeps` | apps/fractalmind-app/src/AgentImportFlow.tsx:104-331 | every interleaving of clicks, awaits, authority changes, unmounts, remounts and stray completions keeps the protocol invariant |
| `ImportSession.UnresolvedIsStored` | apps/fractalmind-app/src/AgentImportFlow.tsx:139-180 | at any time at most one sent request is unresolved and its id is the one in storage |
| `ImportSession.NeverReplayed` | protocols/fractalmind-protocol/sdk/src/transaction-manager.ts:182-230 | no id is ever put to the chain twice, whether the call was taken or refused |
| `ImportSession.StepSends` | protocols/fractalmind-protocol/sdk/src/transaction-manager.ts:210-230 | a broadcast call is always for the stored attempt by a mounted, not restored view |
| `ImportSession.StepStores` | apps/fractalmind-app/src/agent-import-attempt.ts:81-97 | storage changes only by saving a new id where there was none, or by an allowed reset of the shown attempt |
| `ImportSession.ForgottenNeverSent` | apps/fractalmind-app/src/agent-import.ts:589-592 | an id that left storage is never put to the chain afterwards |
| `ImportSession.ForgottenSafely` | apps/fractalmind-app/src/AgentImportFlow.tsx:308-331 | an attempt is forgotten only by a reset, while the receipt the chain gave it is on display, or when it was never put to the chain and never will be |
| `ImportSession.RestoredNeverRequoted` | apps/fractalmind-app/src/AgentImportFlow.tsx:587-664 | after an unmount the stored attempt is never quoted or broadcast again in any continuation |
| `ImportSession.UnreadableBlocks` | apps/fractalmind-app/src/agent-import-attempt.ts:38-65 | an unreadable stored attempt stays and nothing is sent any more |
| `ImportSession.UnmountAfterClaim` | protocols/fractalmind-protocol/sdk/src/transaction-manager.ts:224-230 | unmounting between the claim and the broadcast always leaves a claimed, unsent, stored attempt |
| `ImportSession.UnmountDuringClaim` | protocols/fractalmind-protocol/sdk/src/transaction-manager.ts:214-226 | so does unmounting while the claim is being written, when it then succeeds |
| `ImportSession.ClaimReportedFailed` | protocols/fractalmind-protocol/sdk/src/transaction-manager.ts:214-223 | so does, without any unmount, a claim that became durable although it was reported as failed |
| `ImportSession.BroadcastRefused` | protocols/fractalmind-protocol/sdk/src/transaction-manager.ts:225-229 | so does, with the view mounted throughout, a broadcast call that throws |
| `ImportSession.LostOnlyBy` | protocols/fractalmind-protocol/sdk/src/transaction-manager.ts:213-230 | there is no fifth way: an id is claimed and not taken by the chain only after one of these four steps |
| `ImportSession.ClaimedUnsentIsKept` | apps/fractalmind-app/src/AgentImportFlow.tsx:702-747 | such an attempt stays stored and unsent in every continuation |
| `ImportSession.ClearableExactly` | apps/fractalmind-app/src/AgentImportFlow.tsx:308-331 | once its view is gone a stored attempt can still be cleared by some continuation exactly unless it was claimed and the chain never took it |
| `ImportSession.ClearableWithoutReceipt` | apps/fractalmind-app/src/AgentImportFlow.tsx:308-331 | it can be cleared without waiting for the chain exactly when it was never claimed or its receipt exists |
| `ImportReceipts.ShownOutcomeIsTheReceipt` | protocols/fractalmind-protocol/sdk/src/transaction-manager.ts:241-254 | in every interleaving an outcome is shown only for a claimed attempt, and a confirmed or failed one is the receipt the chain gave that very attempt |
| `ImportReceipts.ReceiptExactly` | protocols/fractalmind-protocol/sdk/src/transaction-manager.ts:241-254 | in every run an id is confirmed exactly when the chain settled it with success, and failed exactly when without |
| `ImportReceipts.QueryExactly` | apps/fractalmind-app/src/AgentImportFlow.tsx:702-733 | a query shows the receipt if there is a visible one, says never submitted exactly when nothing was claimed, and otherwise unknown |
| `ImportReceipts.AlreadyRegistered` | apps/fractalmind-app/src/AgentImportFlow.tsx:276-298 | an Agent found registered while quoting or before signing is reported so, nothing is claimed or broadcast, and it cannot be quoted again |
| `ImportReceipts.ImportCompletes` | apps/fractalmind-app/src/AgentImportFlow.tsx:587-664 | from every start with nothing stored a new attempt can be quoted, signed and broadcast once, and the view shows what the chain says |
| `ImportQuotes.DroppedNeverSigned` | apps/fractalmind-app/src/AgentImportFlow.tsx:139-148 | in every run a quote cancelled, or dropped for a changed authority, is never shown again and never signed for, through every close and reopening |
| `ImportSession.ImportView.Restore` | apps/fractalmind-app/src/AgentImportFlow.tsx:160-180 | mounting is the protocol step that shows the stored attempt as restored |
| `ImportSession.ImportView.Unmounted` | apps/fractalmind-app/src/AgentImportFlow.tsx:129-138 | unmounting disposes the controller and leaves the running action behind |
| `ImportSession.ImportView.DropQuote` | apps/fractalmind-app/src/AgentImportFlow.tsx:139-148 | a changed authority drops the quote and its plan and nothing else |
| `ImportSession.ImportView.Reset` | apps/fractalmind-app/src/AgentImportFlow.tsx:308-331 | reset is the guarded protocol step that clears storage, controller and state |
| `ImportSession.ImportView.ReceiveQuote` | apps/fractalmind-app/src/AgentImportFlow.tsx:606-625 | a quote is shown only if the authority did not change meanwhile |
| `ImportSession.ImportView.Receive` | apps/fractalmind-app/src/AgentImportFlow.tsx:276-298 | each reply sets exactly the fields of its protocol step |
| `OkrDraft.RunKeeps` | apps/fractalmind-app/src/CreateOkr.tsx:177-339 | every interleaving, refused saves included, keeps attempt, controller, quote and storage on one id as long as no action starts on an open controller without a recorded attempt |
| `OkrDraft.PendingIsStored` | apps/fractalmind-app/src/CreateOkr.tsx:229-291 | from every start and after every guarded run, through every close, hide, expiry, refusal, unmount and reopen, a sent but unresolved draft is the stored one |
| `OkrDraft.LogicalIdStable` | apps/fractalmind-app/src/CreateOkr.tsx:313-322 | after every guarded run, whatever the next event, the logical id leaves storage only when a new candidate is asked for while the receipt the chain gave that very id is on display |
| `OkrDraft.UnsettledIdKept` | apps/fractalmind-app/src/CreateOkr.tsx:292-339 | an id stored by a guarded run stays the stored one through any continuation, guarded or not, until it has a receipt |
| `OkrDraft.AcceptedSavesLink` | apps/fractalmind-app/src/CreateOkr.tsx:242-249 | only a refused save can break the guard: a run whose saves are all accepted is guarded |
| `OkrDraft.StaleCompletionInvisible` | apps/fractalmind-app/src/CreateOkr.tsx:234-291 | whatever an action that is no longer live brings back, nothing shown, stored or sent changes |
| `OkrDraft.LateCompletionInvisible` | apps/fractalmind-app/src/CreateOkr.tsx:234-291 | after any run whatsoever, closed, reopened or remounted, a completion started before the close alters nothing shown, stored or sent |
| `OkrDraft.ClosingEndsTheEpoch` | apps/fractalmind-app/src/CreateOkr.tsx:323-339 | after any run every close, hide, expiry and unmount moves the epoch past all actions there are |
| `OkrDraft.RefusedSaveUnlinks` | apps/fractalmind-app/src/CreateOkr.tsx:242-249 | from every start with nothing stored, opening the dialog and one refused save leave the controller open for an id recorded nowhere |
| `OkrDraft.UnlinkedStartLosesTheId` | apps/fractalmind-app/src/CreateOkr.tsx:247-249 | in every such state an accepted action stores another id; one continuation leaves the first pending while the other is stored, and a longer one forgets the other although it was never sent and has no receipt |
| `OkrDraft.CancelledNotSubmitted` | apps/fractalmind-app/src/CreateOkr.tsx:665-665 | a cancelled quote cannot be submitted |
| `OkrDraft.ReopenedClean` | apps/fractalmind-app/src/CreateOkr.tsx:323-339 | closing and reopening brings the stored draft back without quote, controller, outcome or error |
| `OkrDraft.NewCandidateClean` | apps/fractalmind-app/src/CreateOkr.tsx:313-322 | a new candidate starts clean, only after a confirmed or failed outcome |
| `OkrDraft.ErrorsShown` | apps/fractalmind-app/src/CreateOkr.tsx:276-295 | an error is shown by a live action that failed and cleared by reopening or by editing an idle form |
| `OkrDraftReceipts.ShownOutcomeIsTheReceipt` | protocols/fractalmind-protocol/sdk/src/transaction-manager.ts:241-254 | in every guarded run a confirmed or failed outcome on display is the receipt the chain gave that very draft |
| `OkrDraftReceipts.ReceiptExactly` | protocols/fractalmind-protocol/sdk/src/transaction-manager.ts:241-254 | in every run a draft is confirmed exactly when the chain settled it with success, and failed exactly when without |
| `OkrDraftReceipts.QueryExactly` | apps/fractalmind-app/src/CreateOkr.tsx:250-259 | a query shows the receipt if there is a visible one, reports not sent exactly when nothing was claimed, and otherwise unknown |
| `OkrDraftReceipts.DraftCompletes` | apps/fractalmind-app/src/CreateOkr.tsx:229-291 | from every start with nothing stored a new draft can be quoted, claimed and sent, the dialog shows what the chain says, and a new candidate can follow |
| `OkrDraftClaims.ClosingAfterClaim` | apps/fractalmind-app/src/CreateOkr.tsx:323-339 | in every reached state, hiding, closing by force or unmounting between claim and broadcast leaves a claimed, unsent, stored draft |
| `OkrDraftClaims.ClosingDuringClaim` | apps/fractalmind-app/src/CreateOkr.tsx:323-339 | so does closing while the claim is being written, when it then succeeds |
| `OkrDraftClaims.ClaimReportedFailed` | protocols/fractalmind-protocol/sdk/src/transaction-manager.ts:214-223 | so does a claim that became durable although it was reported as failed |
| `OkrDraftClaims.BroadcastRefused` | protocols/fractalmind-protocol/sdk/src/transaction-manager.ts:225-229 | so does a broadcast call that throws |
| `OkrDraftClaims.StuckForever` | apps/fractalmind-app/src/CreateOkr.tsx:313-322 | such a draft stays stored and unsent in every continuation |
| `OkrDraftClaims.ClearableExactly` | apps/fractalmind-app/src/CreateOkr.tsx:292-339 | in every reached state, once the dialog is closed, hidden or gone, some continuation reaches a new candidate exactly unless the stored draft was claimed and the chain never took it |
| `DiscoverQuote.JoinInjective` | apps/fractalmind-app/src/AgentDiscover.tsx:303-303 | for names without commas the effect's key determines the selection, order included |
| `DiscoverQuote.UntickedQuoteShown` | apps/fractalmind-app/src/AgentDiscover.tsx:284-287 | in every state with an empty selection, tick, fire, untick and complete shows a quote for the unticked Agent and enables the import |
| `DiscoverQuote.LeftoverQuoteCleared` | apps/fractalmind-app/src/AgentDiscover.tsx:284-287 | a leftover quote never survives the next tick |
| `DiscoverHistory.SelectedIsTicked` | apps/fractalmind-app/src/AgentDiscover.tsx:338-341 | in every run the selection is exactly the Agents ticked or focused on and neither unticked nor cleared since, in the order of the ticks |
| `DiscoverHistory.ScanIsLatest` | apps/fractalmind-app/src/AgentDiscover.tsx:160-244 | in every run the scan on display is exactly the latest one not dropped since |
| `DiscoverHistory.FlagIsHistory` | apps/fractalmind-app/src/AgentDiscover.tsx:182-335 | in every run the page is busy, or quoting, exactly when something made it so that has not ended since |
| `DiscoverHistory.QuoteIsLatestAnswer` | apps/fractalmind-app/src/AgentDiscover.tsx:283-303 | in every run the quote on display is exactly what the latest successful answer to the latest request brought, if neither ticks nor scan changed since |
| `DiscoverHistory.RequestsAreMade` | apps/fractalmind-app/src/AgentDiscover.tsx:286-296 | whatever waits, is in flight or is on display was asked for ticks and a scan the page really had |
| `DiscoverHistory.RequestsLeaveOnce` | apps/fractalmind-app/src/AgentDiscover.tsx:286-303 | in every run no request leaves twice, and requests leave in the order they were made |
| `DiscoverHistory.DisplayedQuoteMatches` | apps/fractalmind-app/src/AgentDiscover.tsx:283-303 | in every interleaving, with something ticked, the quote shown is absent or for exactly the ticks not taken away since, in their order, and for the latest scan |
| `DiscoverHistory.SubmitsTheTicksExactly` | apps/fractalmind-app/src/AgentDiscover.tsx:305-318 | in every run an import submits exactly when the button is enabled and a lapsing quote can be renewed, and then exactly the ticks not taken away since, precisely when there are any; otherwise the ticks of an earlier moment |
| `DiscoverHistory.QuoteArrives` | apps/fractalmind-app/src/AgentDiscover.tsx:286-303 | a tick, its debounce and a successful answer bring the quote for all present ticks and enable the import |
| `Planner.RunPlannedFileGoals` | runtime/fractalmind-envd/internal/boundedrun/planner.go:55-141 | the Host loop refines its recursive specification for every planner, check and limits, and rejects invalid tasks and limits untouched |
| `Planner.CountingMeasurements` | runtime/fractalmind-envd/internal/boundedrun/planner.go:127-137 | counting the measurements is comparing them with the approved paths |
| `Planner.RequestEnds` | runtime/fractalmind-envd/internal/boundedrun/planner.go:79-138 | the one reason for each ending of a request, in order, and exactly what it leaves: nothing touched, only a refused write charged, otherwise the call carried out and observed |
| `Planner.AnyModelIsBounded` | runtime/fractalmind-envd/internal/boundedrun/planner.go:74-138 | whatever the model answers, other paths never change, approved files hold old or approved content, the budget holds, and submitted means every file holds its approved content |
| `Planner.NeverOverwritesUnread` | apps/fractalmind-app/scripts/native-app-execution-localnet.ts:664-702 | for every observation history and store, a write follows a latest read of that path with its hash and commits exactly when the file still is what that read saw |
| `Planner.RequestAdvances` | apps/fractalmind-app/scripts/native-app-execution-localnet.ts:664-702 | one request performs the next line of the first unfinished file's script and submits exactly after the last line |
| `Planner.ClosedLoop` | apps/fractalmind-app/scripts/native-app-execution-localnet.ts:656-703 | for any distinct list and store the loop submits exactly when both limits cover one call per correct file and three per other, uses exactly that many, and leaves the initial store with the approval written over it |
| `Planner.CostBounds` | apps/fractalmind-app/scripts/native-app-execution-localnet.ts:1289-1304 | between one and three calls per file |
| `Planner.WrittenAt` | runtime/fractalmind-envd/internal/boundedrun/tools.go:333-388 | the written store differs from the initial one exactly on the approved paths |
| `Planner.HeldRequest` | apps/fractalmind-app/scripts/native-app-execution-localnet.ts:678-693 | in the undisturbed loop a request whose file was last written is reached only after exactly one read and one write of it |
| `Planner.MadeAlternates` | apps/fractalmind-app/scripts/native-app-execution-localnet.ts:664-702 | with a store that changes arbitrarily between requests, the planner's reads and writes of a file take turns, every write leaves the approved content and every earlier read found something else |
| `Planner.HeldUnderInterference` | apps/fractalmind-app/scripts/native-app-execution-localnet.ts:678-693 | so a request held after a write follows as many reads as writes, and exactly one of each precisely when no later read found the file changed |
| `Planner.HeldTwice` | apps/fractalmind-app/scripts/native-app-execution-localnet.ts:678-693 | for every file another writer between write and read makes the planner read and write a second time |
| `Planner.StopAndRerun` | apps/fractalmind-app/scripts/native-app-execution-localnet.ts:2038-2048 | stopped after any number of calls, every write already made saves two calls of the next run |
| `Planner.HeldThenRerun` | apps/fractalmind-app/scripts/native-app-execution-localnet.ts:2038-2048 | a file stopped at its held request cost two calls and costs one more |
| `Framing.LinesSplit` | apps/fractalmind-app/scripts/host-admission-localnet.ts:368-375 | where output is cut does not change its lines or its tail |
| `Framing.Faithful` | apps/fractalmind-app/scripts/host-admission-localnet.ts:368-375 | lines and tail together are the whole output |
| `Framing.ChunkingIrrelevant` | apps/fractalmind-app/scripts/native-app-execution-localnet.ts:906-912 | for every chunking exactly the lines of the whole output are dispatched, in order, and exactly the text after the last newline is left |
| `PhaseHarness.OneName` | apps/fractalmind-app/scripts/native-app-execution-localnet.ts:913-914 | a line falls under at most one name without spaces |
| `PhaseHarness.PhaseIsFirstA` | apps/fractalmind-app/scripts/native-app-execution-localnet.ts:913-922 | a phase keeps its value or gets the effect of its first matching line, whatever happens to the others |
| `PhaseHarness.PhaseIsFirstB` | apps/fractalmind-app/scripts/host-admission-localnet.ts:376-416 | a phase keeps its value or gets its first delivery, unless a broken line of any kind came before |
| `PhaseHarness.PhaseMap.Hear` | apps/fractalmind-app/scripts/native-app-execution-localnet.ts:913-920 | the loop over the phases settles exactly the waiting phases the line names |
| `PhaseHarness.PhaseMap.OnData` | apps/fractalmind-app/scripts/native-app-execution-localnet.ts:906-922 | after any chunk every phase is what the whole output so far says and the buffer is its tail |
| `PhaseHarness.PhaseMap.OnExit` | apps/fractalmind-app/scripts/native-app-execution-localnet.ts:924-937 | after exit every waiting phase is rejected as exited and every delivered one is unchanged |
| `PhaseHarness.CliHarness.Hear` | apps/fractalmind-app/scripts/host-admission-localnet.ts:376-416 | the chain of tests delivers at most one value, or rejects everything waiting when one of them throws |
| `PhaseHarness.CliHarness.OnData` | apps/fractalmind-app/scripts/host-admission-localnet.ts:368-418 | after any chunk every phase is what the whole output so far says and the buffer is its tail |
| `PhaseHarness.CliHarness.OnEnd` | apps/fractalmind-app/scripts/host-admission-localnet.ts:422-447 | after exit or failure to start every waiting phase is rejected as exited and every delivered one is unchanged |
| `PhaseLines.PlainLines` | apps/fractalmind-app/scripts/host-admission-localnet.ts:388-404 | each of the five plain tags, followed by a space and a payload that parses, settles its own named phase if it waits and no other |
| `PhaseLines.NativeLines` | apps/fractalmind-app/scripts/host-admission-localnet.ts:376-387 | the two native tags settle the ready or result phase their value names, status or execute, and any other name breaks every waiting phase |
| `PhaseLines.MalformedLines` | apps/fractalmind-app/scripts/host-admission-localnet.ts:405-413 | under each of the seven tags a malformed payload rejects every waiting phase and no settled one |
| `PhaseLines.OtherLines` | apps/fractalmind-app/scripts/host-admission-localnet.ts:376-404 | a line under none of the seven tags settles nothing |
| `PhaseLines.NamedLines` | apps/fractalmind-app/scripts/native-app-execution-localnet.ts:913-920 | in the harness with named phases a line headed by a name settles that phase alone, with its parsed value or its own error |
| `PhaseLines.UnnamedLines` | apps/fractalmind-app/scripts/native-app-execution-localnet.ts:913-920 | a line headed by no name settles nothing |
| `Devtools.SettledForGood` | apps/fractalmind-app/scripts/android-native-acceptance.ts:100-116 | once settled, late responses, timers and the close change nothing |
| `Devtools.SettledByItsOwn` | apps/fractalmind-app/scripts/android-native-acceptance.ts:188-209 | a settled request was settled by the first of its own response, its own timer and the close: resolved with the value of a successful response, failed by a failed one, timed out by the timer, closed by the close |
| `Devtools.Devtools.Evaluate` | apps/fractalmind-app/scripts/android-native-acceptance.ts:188-205 | every request gets a never used id, is pending and has an armed timer |
| `Devtools.Devtools.OnMessage` | apps/fractalmind-app/scripts/android-native-acceptance.ts:101-109 | a response resolves its own pending request with its value, or fails it, and otherwise reaches nobody |
| `Devtools.Devtools.OnTimeout` | apps/fractalmind-app/scripts/android-native-acceptance.ts:191-194 | an armed timer rejects its own request only |
| `Devtools.Devtools.OnClose` | apps/fractalmind-app/scripts/android-native-acceptance.ts:110-116 | the close rejects every pending request, clears every timer and changes no settled one |
| `RecordHistory.ExecuteGood` | protocols/fractalmind-protocol/contracts/protocol/sources/product_record.move:59-97 | every run of saves and rotations keeps linked, unique revision chains and never changes a saved record |
| `RecordHistory.FindsExactly` | apps/fractalmind-app/src/private-records.ts:103-150 | on a reachable ledger a record behind a head is found exactly within a thousand records |
| `RecordHistory.ChainComplete` | apps/fractalmind-app/scripts/native-workload-recovery.ts:91-114 | the chain of a head is every record of its key, as many as its revision |
| `RecordHistory.ChainDistinct` | apps/fractalmind-app/scripts/native-workload-recovery.ts:91-114 | no record appears twice in a chain |
| `RecordHistory.Walk` | apps/fractalmind-app/scripts/native-workload-recovery.ts:90-114 | on any answers a returned chain descends by one to a first record within a thousand rows; on a reachable ledger it succeeds exactly up to a thousand revisions |
| `RecordHistory.History` | apps/fractalmind-app/scripts/native-workload-recovery.ts:87-119 | on any answers a sorted permutation of one chain per head, each of at most a thousand rows; on a reachable ledger it succeeds exactly when no head is past a thousand revisions, and then is every record ever saved, exactly once |
| `RecordHistory.AppendingKeepsRows` | apps/fractalmind-app/scripts/native-workload-recovery.ts:87-119 | appending revisions over any number of writes and rotations never drops or changes an earlier row |
| `RecordTrail.SaveExactly` | protocols/fractalmind-protocol/contracts/protocol/sources/product_record.move:59-97 | a save commits exactly with the present key version, a fresh id and the newest revision of its key, and then is the head of that key while no other record or head changes |
| `RecordTrail.SavedBy` | protocols/fractalmind-protocol/contracts/protocol/sources/product_record.move:59-97 | in every run each record says exactly what the committed save that created it said, and the head it replaced |
| `RecordTrail.EncryptedUnder` | protocols/fractalmind-protocol/contracts/protocol/sources/product_record.move:59-97 | the key version of a record is one more than the rotations before its save |
| `RecordTrail.ReadableExactly` | apps/fractalmind-app/src/private-records.ts:103-150 | on every reachable ledger a record is readable exactly when it is the head, or asked for as history, and within a thousand records of its head |
| `HostDirectory.CounterExact` | protocols/fractalmind-protocol/contracts/protocol/sources/host.move:524-546 | in every run the counter is the number of unsettled control executions |
| `HostDirectory.DuplicatePrepare` | apps/fractalmind-app/scripts/host-admission-localnet.ts:1822-1830 | once prepared, a command adds nothing for ever: after any run preparing it again changes neither entries, nor revision, nor counter |
| `HostDirectory.RebindNeedsIdle` | protocols/fractalmind-protocol/contracts/protocol/sources/host.move:501-505 | no rebind commits while any control execution is unsettled |
| `HostDirectory.AtMostOneWinner` | apps/fractalmind-app/scripts/host-admission-localnet.ts:2338-2458 | of all rebinds carrying the same expected version at most one commits, in every run |
| `HostDirectory.VersionCounts` | protocols/fractalmind-protocol/contracts/protocol/sources/host.move:345-389 | in every run the version counts exactly the committed rebinds and revocations |
| `HostDirectory.UnsettleableBlocksRebind` | protocols/fractalmind-protocol/contracts/protocol/sources/host.move:533-546 | a control execution with unknown effects, or running with the name of its result taken, blocks every later rebind for good |
| `HostDirectory.SettleableOtherwise` | protocols/fractalmind-protocol/contracts/protocol/sources/host.move:533-546 | every other unsettled control execution can be settled by one transaction, which takes exactly one off the count |
| `HostTrail.RegistrationCommits` | protocols/fractalmind-protocol/contracts/protocol/sources/host.move:318-389 | each kind of rebind commits exactly while no control execution is unsettled, on its version if it names one, and only the confirmation gives control; a revocation commits once |
| `HostTrail.RunCommits` | protocols/fractalmind-protocol/contracts/protocol/sources/host.move:524-546 | starting, stopping and finishing commit exactly in their states, finishing with its own capability and a free result name |
| `HostTrail.ConfirmedByLatestRebind` | protocols/fractalmind-protocol/contracts/protocol/sources/host.move:337-389 | in every run control is confirmed exactly when the latest committed rebind was the confirmation |
| `HostTrail.RevokedUntilRebound` | protocols/fractalmind-protocol/contracts/protocol/sources/host.move:306-380 | in every run an Agent is revoked exactly when a committed revocation was not followed by a committed rebind |
| `HostTrail.EntryRecorded` | protocols/fractalmind-protocol/contracts/protocol/sources/host.move:524-532 | in every run each entry was recorded by the first preparation of its command and still carries its terms |
| `HostTrail.MarkedByCommit` | protocols/fractalmind-protocol/contracts/protocol/sources/host.move:524-546 | in every run an entry is started, settled or over exactly when a committed transaction made it so |
| `HostTrail.NameTakenByCommit` | protocols/fractalmind-protocol/contracts/protocol/sources/node_execution.move:356-359 | a result name is taken exactly when a committed finish or another writer took it |
| `HostDirectory.AgentRecord.RecordExecution` | protocols/fractalmind-protocol/contracts/protocol/sources/host.move:524-532 | recording keeps the invariant, adds at most one entry and returns the command's Run |
| `HostDirectory.AgentRecord.FinishExecution` | protocols/fractalmind-protocol/contracts/protocol/sources/host.move:533-546 | a result is accepted exactly for a running Run of this capability whose result name is free, settles it once unless its effects are unknown, and keeps the count |
| `HostDirectory.AgentRecord.RebindAtVersion` | protocols/fractalmind-protocol/contracts/protocol/sources/host.move:381-389 | the versioned rebind succeeds exactly on the expected version with nothing unsettled |
| `IdentitySetup.QuoteOnlyAfterAcknowledgement` | apps/fractalmind-app/src/CreateIdentity.tsx:245-275 | in every run a quote exists only after the code was acknowledged and is no longer shown, and never beside an outcome |
| `IdentitySetup.UnknownOnlyReread` | apps/fractalmind-app/src/CreateIdentity.tsx:231-299 | an unknown outcome changes only by re-reading the original, and a new attempt begins only from a failed outcome |
| `IdentitySetup.UnknownBlocks` | apps/fractalmind-app/src/CreateIdentity.tsx:618-701 | until the original is read again nothing is quoted, submitted or begun anew |
| `IdentitySetup.OutcomeIsLatestAnswer` | apps/fractalmind-app/src/CreateIdentity.tsx:231-299 | in every run the outcome on display is the latest answer of the chain, of a read of the original, or of a new start or attempt |
| `IdentitySetup.SubmissionReports` | apps/fractalmind-app/src/CreateIdentity.tsx:245-299 | whoever saved the code can be quoted and submit, and is told exactly what the chain reports |
| `IdentitySetup.CodeCanBeRevealed` | apps/fractalmind-app/src/CreateIdentity.tsx:460-487 | until acknowledged the code can be shown again, and acknowledging hides it |
| `IdentitySetup.RefreshReads` | apps/fractalmind-app/src/CreateIdentity.tsx:231-244 | a refresh replaces everything known of the chain by what was read |
| `IdentitySetup.NewcomerArrives` | apps/fractalmind-app/src/CreateIdentity.tsx:176-244 | a newcomer sees the code after opening and reaches the quote by acknowledging it |
| `SuiFormat.ExactRoundTrip` | apps/fractalmind-app/src/CreateIdentity.tsx:50-53 | the exact text reads back as the amount, with a canonical fraction |
| `SuiFormat.ExactInjective` | apps/fractalmind-app/src/CreateIdentity.tsx:50-53 | different amounts have different exact texts |
| `SuiFormat.ShortRoundsDown` | apps/fractalmind-app/src/AgentDiscover.tsx:71-76 | the four-digit text is the amount rounded down to 100000 MIST, and the exact text zero-padded and cut |
| `SuiFormat.ShortMonotone` | apps/fractalmind-app/src/AgentDiscover.tsx:71-76 | a larger amount is never shown as a smaller one |

## Left out

- Identity, membership, binding and instance guards of the contracts: one arbitrary boolean per call; what they check is not modelled.
- Draft retries by logical id, priorities, encrypted bodies, events and the shared-workspace assignment of OKRs: no effect on the ledgers.
- Overflow of 64-bit versions, cursors and sums: counters are unbounded; Move would abort.
- Arguments a caller of `finish` can choose validly (key version, result envelope, body size): taken as valid.
- Capability delegation to children (`uses_delegated`, `budget_delegated`): the contracts modelled here never delegate.
- DirectPermission.BlockedForever: the hypothesis that intents name their capability is worked out for OKR Runs only.
- DirectPermission: keeps one claimed total per capability; its split into spent and reserved is modelled for OKR capabilities only.
- Recovery: one organization; several organizations in one keyring, key rotation by device revocation, paired devices and the 64 KiB size bound of the backup are not modelled. Key and code randomness is a counter, so collisions do not occur.
- ImportSession: closing the dialog is refused while an action runs and otherwise drops the quote; one target, one tab, one component at a time; the history-only view, journal gas conflicts beyond a failed claim, and clearing of browser storage from outside are not modelled.
- OkrDraft: form editing and normalization, the source message and its expiry appear only as a forced close; one fixed connection profile.
- DiscoverHistory.DisplayedQuoteMatches: scans are identified by their timestamp, as the program does; two scans with the same timestamp count as one.
- Planner: file permissions, symbolic links, size limits and the policy's directory scopes; a read fails only because the file is missing.
- RecordHistory: record contents, decryption and paging of the listing; a repeated record is caught by its revision rather than by the set of seen ids.
- PhaseHarness: a spawn error without exit settles nothing in the first harness; it is an end event in the second.
- HostDirectory: the legacy path for instances without a directory.
- IdentitySetup: name availability checks, funding and the local Host step.
- Coordinator transport, Sui RPC, native bridge, cryptography, translations and styling.
