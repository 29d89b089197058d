# Verified models of the Host session, the body renderers and the wire encodings

A Dafny 4.11 project. `dafny verify dfyconfig.toml` checks all of it.

**Host session authority** (`Host*.dfy`, `ReplayWindow.dfy`). The Host side of one sidecar session:
the turn authority (Idle, Active, Cancelling, Terminal), the pending confirmation slot, one-shot
approvals, single-use grants, the one-slot expiry timer with its worker, and retirement. `HostSteps`
is a labelled transition system: every critical section under the turn-authority lock is one step;
a handler's test of `closed` before that lock, scheduling a ticket, the worker's take and fire, the
decider's take, the clearing and answering of removed actions, and each piece of `retire` by either
of its two callers (the coordinator that gave the session up and runs no command any more, the reader
whose loop has ended) are steps of their own. A label that is not enabled leaves the state alone, so
*every* sequence of labels is a run and results quantify over all of them. The clock, the durable
authorization and the selected provider change by steps of the environment. `HostEvolution` states
what one step may do without naming the code; the whole-run results (`HostChain`, `HostTheorems`,
`HostRevision`, `HostFence`, `HostTimer`, `HostConservation`, `HostKeys`) rest on it. `HostLedgers`
says what each step and each run leaves in the slot and the ledgers, `HostRetirement` what `retire`
leaves there under interference, `HostProgress` that the chain can be completed. `HostSession` is the
session object whose methods update its fields in place, each specified by a step function.
`HostMessages` is the reader's loop over messages with its replay window, and `HostOutcomes` says over
whole runs what cancellation achieves, which process may be acted for, and how every removed action
is answered.

**Body renderers** (`RendererHost*`, `Fallback*`, `Composed*`, `Live2D*`, `RuntimeBinding*`,
`Binding*`). Each TypeScript class is a state machine whose steps are the code between two
suspension points; the renderers, engines, providers and factories below are free to succeed, fail
or take any time. What a collaborator may rely on is a monitor folded over the trace (`Observe`,
with a `legal` flag) plus lemmas that read a legal trace by position. `ComposedRenderer` is the
product of the renderer host and the fallback renderer: the host's calls start the firewall's
threads and the host sees exactly their results. `BindingHosts` is the product of the binding
controller with one renderer host per binding: a candidate's mount, its first render and every
disposal settle as its host makes them. The `...Object` modules are the classes themselves,
one method per stretch of code between two awaits. `FallbackOutcomes` and `RendererHostOutcomes` say
what reaches the caller: why a render failed, and that an accepted snapshot is delivered.

**Encodings** (`Utf8`, `Frames`, `BoundedText`, `Normalization`, `Fingerprint`, `ProviderBindings`).
Frame streams and bounded text are byte sequences; UTF-8 validity is that of section 4 of RFC 3629.
Hashes are parameters; a lemma that needs it assumes only that the two texts in hand do not collide.

**Contracts.** `HostVerdicts` and the `...Effects` modules give, for callers, each step's effect in
plain field values, constants and conditions, without naming the step's own functions. They are
contracts that the results rest on, not results.

Where the code does not promise what one might expect, a lemma gives a failing input and another the
exact condition:

- ledgers empty after `retire`: the reader's may leave an approval
  (`HostRetirement.ReaderMayLeaveApproval`, and `HostRetirement.ReaderLeavesApprovalsExactly`), the
  coordinator's a pending action (`HostRetirement.StopMayLeaveAction`, and
  `HostRetirement.StopLeavesSlotExactly`); the rest is always empty
  (`HostRetirement.RetirementEmpties`), and after `stop` everything is
  (`HostRetirement.StopLeavesNothing`);
- 60 s from admission to use: `HostProgress.UseMayBeLate`, and `HostProgress.UsesAreTimelyExactly`;
- an approval key names one call of accepted ids: `HostKeys.KeyAloneIsAmbiguous`, and `HostKeys.KeyIsAmbiguousExactly`
  (on reachable states the lookup is unambiguous, `HostKeys.LookupFindsItsOwnCall`);
- the fallback renderer's disposed mode without its host:
  `FallbackTheorems.StandaloneDisposeCanBeUndone`, and `FallbackTheorems.LeavesDisposedExactly`;
- exclusion for failed body candidates: `RuntimeBindingTheorems.FailedCandidateMayOverlap`, and
  `RuntimeBindingTheorems.ExclusionExactly`;
- bounded text as a prefix of what was said: `BoundedText.NeedNotBePrefix`, and
  `BoundedText.PrefixExactly`;
- fingerprint preimages of ids with a NUL: `Fingerprint.NulMakesIdsAmbiguous`, and
  `Fingerprint.PreimageDetermines`.

## Model

| member | source | states |
|---|---|---|
| HostGenerationProof.GenerationHolds | src-tauri/src/vita_sidecar.rs:700-1037 | In every reachable state of every interleaving: while turn t is active every pending action, approval and grant carries t and the Codex turn t learned; while idle or cancelling all three ledgers are empty; at most 1 pending action and 64 grants; ledger keys match their contents. |
| HostTheorems.AuthorityChain | src-tauri/src/vita_sidecar.rs:2054-2226 | Every allowed revalidation in every run is preceded, in this order, by an allowed scope for the same Host and Codex turn, an admission, a delivered Confirm and an allowed grant, with equal binding, revision, confirmation id and grant. |
| HostTheorems.ChainsAreDisjoint | src-tauri/src/vita_sidecar.rs:2361-2387 | Two allowed revalidations never rest on the same grant, nor on the same Confirm. |
| HostTheorems.UsesGrantsConfirms | src-tauri/src/vita_sidecar.rs:2054-2226 | In every run: allowed revalidations <= grants issued <= delivered Confirm replies. |
| HostTheorems.UseIsTimely | src-tauri/src/vita_sidecar.rs:2105-2125 | The Confirm falls within 30 s of the admission and before the sidecar's own deadline; the use falls less than 60 s after the admission plus the lag of the expiry stamp's clock reading behind the expiry check, and less than 60 s plain whenever the expiry stamp does. |
| HostProgress.UsesAreTimelyExactly | src-tauri/src/vita_sidecar.rs:2118-2125 | Exact condition of the plain 60 s bound: in any reachable state with a usable grant, whatever happens next, every use of it lies less than 60 s after the Admitted event of the chain it was minted on if and only if its expiry stamp lies at most 60 s after that event. |
| HostTheorems.StoredGrantIsChained | src-tauri/src/vita_sidecar.rs:2054-2160 | In every reachable state with a live reader each stored grant was minted on a complete chain: scope, admission, delivered Confirm, in that order and with equal evidence. |
| HostProgress.UseMayBeLate | src-tauri/src/vita_sidecar.rs:2118-2125 | Counterexample run from the start: a use a full 60 s after its admission, because the mint was stamped well after the check. |
| HostProgress.LateMintIsUsableLate | src-tauri/src/vita_sidecar.rs:2118-2125 | The reason: however late the mint is stamped after the check, the grant is usable for its whole lifetime from the expiry stamp on. |
| HostProgress.UseSucceedsExactly | src-tauri/src/vita_sidecar.rs:2162-2226 | A stored grant of the active turn under the present authorization is accepted at a time exactly when it has not expired then. |
| HostRevision.AuthorizationIsStable | src-tauri/src/vita_sidecar.rs:2228-2251 | With a revision that grows on every change, no authorization change lies between the Confirm and the use of one chain. |
| HostEvolutionProof.StepEvolves | src-tauri/src/vita_sidecar.rs:700-2401 | Every step of every thread emits at most one event, only with the evidence that event needs, and never invents evidence: the code-free relation all whole-run results rest on. |
| HostChainProof.ChainedHolds | src-tauri/src/vita_sidecar.rs:2054-2226 | In every reachable state each event of the trace rests on earlier ones, evidence is one-shot, and every stored approval and grant is backed by the trace. |
| HostFence.CancellationIsAFence | src-tauri/src/vita_sidecar.rs:736-900 | Once a turn's cancellation began, or it ended, no later event of any run releases a credential, admits, confirms, allows scope, grants or revalidates for it; a cancelled turn ends only as Cancelled or TimedOut or by retirement. |
| HostFence.LateCompletionIsInert | src-tauri/src/vita_sidecar.rs:819-900 | A Completed frame leaves the whole state, text and error included, unchanged exactly when its turn is not active. |
| HostFence.LateFailureIsInert | src-tauri/src/vita_sidecar.rs:1803-1821 | A failure frame leaves the whole state unchanged exactly when the authority does not accept its phase for that turn. |
| HostFence.RetirementIsFinal | src-tauri/src/vita_sidecar.rs:1011-1037 | After retirement no step of any later interleaving makes a turn active or emits an empowering event, and the ledgers only shrink. |
| HostFence.RetiredForever | src-tauri/src/vita_sidecar.rs:1011-1037 | After a `retire` by either caller that runs as one block, from any reachable state that admits it, the three ledgers stay empty and no turn is ever active again. |
| HostFence.InterleavedRetirementMayLeaveApproval | src-tauri/src/vita_sidecar.rs:1011-1037 | The local step behind the run below: from any state in which the reader retires and a decider is about to confirm for the active turn, answering after the approvals were cleared leaves an approval. |
| HostRetirement.RetirementEmpties | src-tauri/src/vita_sidecar.rs:483-496 | Over every run with arbitrary steps between the pieces: once either caller has finished `retire` the session is retired and its grants are empty; the coordinator's `retire` also leaves no approval, the reader's no pending action. |
| HostRetirement.StopLeavesNothing | src-tauri/src/vita_sidecar.rs:483-496 | Once `stop` has returned, its own `retire` and that of the reader it joins being done, all three ledgers are empty, no turn is active, and no later step of any run changes that or empowers anything. |
| HostRetirement.ReaderLeavesApprovalsExactly | src-tauri/src/vita_sidecar.rs:1762-1764 | In every run in which the reader's `retire` has finished, its approvals are empty exactly when every approval a delivered Confirm stored since their clearing was cleared again. |
| HostRetirement.StopLeavesSlotExactly | src-tauri/src/vita_sidecar.rs:483-496 | In every run in which the coordinator's `retire` has finished, its slot is empty exactly when every action admitted since the drain was removed again; only the confirmation that stood between its test of `closed` and its insertion at the drain can be left, and if none stood the slot is empty. |
| HostRetirement.CallersHold | src-tauri/src/vita_sidecar.rs:1401-1430 | In every reachable state: a coordinator that gave the session up runs no command, a reader that ended has no request under way, and the session is closed exactly when one of them has begun to retire it. |
| HostRetirement.ReaderMayLeaveApproval | src-tauri/src/vita_sidecar.rs:1409-1510 | Counterexample run from the start: the reader's loop ends, and its `retire` leaves an approval a decider stored between two of its pieces. |
| HostRetirement.StopMayLeaveAction | src-tauri/src/vita_sidecar.rs:1972-2050 | Counterexample run from the start: a confirmation finds the session open, `stop` closes and drains it, the confirmation is inserted, and `retire` ends with it stored. |
| HostLedgers.LedgersOfRun | src-tauri/src/vita_sidecar.rs:700-2401 | Over every run an approval, grant or pending action is present exactly when a step put it in and none cleared it since, or it was there from the start and no step cleared it. |
| HostLedgers.StepFollows | src-tauri/src/vita_sidecar.rs:700-2401 | For every step of every thread, exactly which approval key, grant id and pending id it puts in and which it clears. |
| HostFence.LateFramesAreInert | src-tauri/src/vita_sidecar.rs:819-900 | Once a turn's cancellation began in a run, a Completed or Failed frame for it leaves the reached state entirely unchanged. |
| HostOutcomes.CancellationTakesHold | src-tauri/src/vita_sidecar.rs:736-762 | In every reachable state in which a cancelling command may begin: an active turn moves to Cancelling, this is recorded, no evidence is left, and no continuation ever empowers that turn; any other authority and the record stay as they are. |
| HostOutcomes.EveryProcessIsOwn | src-tauri/src/vita_sidecar.rs:2253-2276 | In every run each allowed scope, admission, Confirm, grant and use names a process with this session's own session, life, task, capability, program, profile and workspace, and a fence hash of 64 lower-case hexadecimal digits. |
| HostOutcomes.RemovalIsAnswered | src-tauri/src/vita_sidecar.rs:959-990 | Every step of every thread that takes an action out of the slot hands it to its decider with the user's decision, or owes it the answer that removal calls for: Deny when overdue or drained by `retire`, Cancel when its turn is retired or the user cancels in time. |
| HostOutcomes.OwedAnswersAreKept | src-tauri/src/vita_sidecar.rs:2318-2330 | In every run, whatever is sent to an action that is owed an answer carries the decision it was removed with and no approval; until then it stays owed. |
| HostOutcomes.TraceOnlyGrows | src-tauri/src/vita_sidecar.rs:700-2401 | The record of a run is only ever extended. |
| HostMessages.ReplayEndsTheLoop | src-tauri/src/vita_sidecar.rs:1709-1723 | In every run of the reader loop, with anything in between: a message under the id of one that survived, at most 128 acceptances later, ends the loop and changes nothing else. |
| HostMessages.HandledRepeatsAreFarApart | src-tauri/src/vita_sidecar.rs:1709-1757 | In every run of the loop two surviving messages with the same id lie more than 128 acceptances apart. |
| HostMessages.MessageExactly | src-tauri/src/vita_sidecar.rs:1709-1757 | A message with an empty, too long or remembered id, of another phase, or a lifecycle message of another session ends the loop and changes nothing else; any other has its frame's effect. |
| HostTimer.TimerAgreesHolds | src-tauri/src/vita_sidecar.rs:572-647 | In every reachable state of an open session, whenever an action is stored, the timer holds exactly its ticket, or the worker holds it already due, or the reader is between insert and schedule. |
| HostTimer.LateClearKeepsNewerTicket | src-tauri/src/vita_sidecar.rs:623-631 | Clearing the ticket of a removed action never drops the ticket of a stored one. |
| HostTimer.FiringIsNeverStale | src-tauri/src/vita_sidecar.rs:1087-1113 | A worker that fires removes nothing but the action its ticket was made for, and only when due. |
| HostTimer.WorkerRemovesExpired | src-tauri/src/vita_sidecar.rs:1044-1113 | No wake-up is lost: an action past its deadline with a scheduled ticket is removed by at most three moves of the worker alone. |
| HostConservation.ConfirmationsAreConserved | src-tauri/src/vita_sidecar.rs:1432-1510 | In every state of every run, for every action: admissions = replies + (stored, held by a decider, or owed an answer), and it is admitted at most once, so nothing is lost or answered twice. |
| HostKeys.KeyNamesCall | src-tauri/src/vita_sidecar.rs:2395-2401 | Within one Host turn and one Codex turn two approval keys are equal exactly when the tool calls are. |
| HostKeys.KeyIsAmbiguousExactly | src-tauri/src/vita_sidecar.rs:2395-2401 | Under one Host turn a call with ids the protocol accepts shares its key with a different accepted pair of tool call and Codex turn exactly when its two ids joined by `:` hold another `:` with non-empty text of at most 128 bytes on either side. |
| HostKeys.KeyAloneIsAmbiguous | vita-agent-protocol/src/lib.rs:888-898 | A concrete such pair of accepted ids: `valid_id` allows `:` inside ids. |
| Common.ValidIdExactly | vita-agent-protocol/src/lib.rs:888-898 | Contract for callers: exactly the empty text, more than 128 bytes, and any control or white-space character are refused. |
| HostKeys.OneCodexTurnPerHostTurn | src-tauri/src/vita_sidecar.rs:1940-1957 | In no run is one Host turn evaluated under two Codex turns. |
| HostKeys.LookupFindsItsOwnCall | src-tauri/src/vita_sidecar.rs:2395-2401 | In every reachable state an approval found for a call of the active turn is that call's: same Host turn, Codex turn and tool call. |
| HostProgress.FullChainSucceeds | src-tauri/src/vita_sidecar.rs:1912-2226 | Sufficiency, as a run with fresh ids: from any state with an active turn that may learn the call's Codex turn, evaluate, admit, schedule, take, confirm, issue and revalidate ends in an allowed revalidation at every time before the expiry. |
| HostSession.Session.constructor | src-tauri/src/vita_sidecar.rs:499-520 | A new session is the initial state and valid. |
| HostSession.Session.ReadMessage | src-tauri/src/vita_sidecar.rs:1709-1757 | One message of the reader loop: an id out of bounds or in the replay window, a message of another phase or a lifecycle message of another session leaves the loop ended and every other field as it was; anything else has its frame's effect. The invariant and the window are kept. |
| HostSession.Session.AdmitRequest | src-tauri/src/vita_sidecar.rs:1717-1723 | Admits exactly ids in bounds that are not in the window; ids in bounds enter it. |
| HostSession.Session.ReadFrame | src-tauri/src/vita_sidecar.rs:1724-1742 | The dispatch to the handlers: the new state is the step function's, and the generation invariant is kept. |
| HostSession.Session.RetireSession | src-tauri/src/vita_sidecar.rs:1011-1037 | `retire` by either caller, run as one block, including the clearing of the replay window. |
| HostSession.Session.RunCommand | src-tauri/src/vita_sidecar.rs:1401-1675 | One critical section of a user command: exact new state, invariant kept. |
| HostSession.Session.RunTick | src-tauri/src/vita_sidecar.rs:596-647 | One critical section of the reader's accepted request, the timer, its worker or a thread owing an answer: exact new state, invariant kept. |
| HostSession.Session.RunRetire | src-tauri/src/vita_sidecar.rs:1011-1037 | `retire` by either caller from a valid session: exact new state, invariant kept. |
| HostSession.Session.HandleAuthorityEvaluate | src-tauri/src/vita_sidecar.rs:1912-1970 | Learns the Codex turn exactly when scope is allowed (what allows it: HostVerdicts.ScopeExactly and HostEffects.EvaluateEffect); every changed field is that of the step. |
| HostSession.Session.HandleConfirmationRequired | src-tauri/src/vita_sidecar.rs:1972-2002 | Up to the authority lock: waits with the computed deadline, refuses an overdue request, or ends the loop for an inexact one or a closed session. |
| HostSession.Session.AdmitConfirmation | src-tauri/src/vita_sidecar.rs:2003-2052 | Under the lock: stores the action, and leaves its ticket to be scheduled, exactly when admitted. |
| HostSession.Session.HandleIssueGrant | src-tauri/src/vita_sidecar.rs:2054-2160 | Reaps, spends the approval and stores the grant as the decision says. |
| HostSession.Session.HandleRevalidateGrant | src-tauri/src/vita_sidecar.rs:2162-2226 | Consumes the grant exactly when the use is allowed. |
| HostSession.Session.HandleCredentialRequired | src-tauri/src/vita_sidecar.rs:1823-1847 | Up to the authority lock: a request of an open session waits, any other is denied. |
| HostSession.Session.AnswerCredential | src-tauri/src/vita_sidecar.rs:1848-1910 | Under the lock: answers and changes nothing else. |
| HostSession.Session.HandleTurnState | src-tauri/src/vita_sidecar.rs:1766-1778 | A terminal state frame ends its turn together with its evidence. |
| HostSession.Session.HandleTurnCompleted | src-tauri/src/vita_sidecar.rs:1780-1801 | Completion ends the turn and publishes the text exactly when accepted. |
| HostSession.Session.HandleTurnFailed | src-tauri/src/vita_sidecar.rs:1803-1821 | Failure ends the turn and publishes the error exactly when accepted. |
| HostSession.Session.AcceptTurnState | src-tauri/src/vita_sidecar.rs:819-900 | Accepts for an active turn, or for a cancelling one only Cancelled and TimedOut. |
| HostSession.Session.TerminalizeTurn | src-tauri/src/vita_sidecar.rs:784-817 | Ends the named turn and its evidence in one critical section, or changes nothing. |
| HostSession.Session.ClearTurnEvidence | src-tauri/src/vita_sidecar.rs:959-983 | Removes exactly the turn's pending actions, approvals and grants; the removed actions are owed an answer. |
| HostSession.Session.ReapExpiredGrants | src-tauri/src/vita_sidecar.rs:2356-2359 | The loop keeps exactly the unused, unexpired grants. |
| HostSession.Session.BeginTurn | src-tauri/src/vita_sidecar.rs:700-730 | A turn begins only in an idle, open session with the configured provider. |
| HostSession.Session.BeginCancellation | src-tauri/src/vita_sidecar.rs:736-762 | An active turn becomes Cancelling and this is recorded; an active or cancelling turn loses exactly its own pending actions, which are owed Cancel, approvals and grants; any other authority, and then every ledger, stays as it was. |
| HostSession.Session.FinishStart | src-tauri/src/vita_sidecar.rs:1572-1634 | A turn that could not be announced is failed. |
| HostSession.Session.TakeAnyForCancel | src-tauri/src/vita_sidecar.rs:2305-2316 | Cancelling takes whatever is stored, with Deny when it has expired. |
| HostSession.Session.TakePending | src-tauri/src/vita_sidecar.rs:2290-2303 | The decider takes the action out of the slot before any check. |
| HostSession.Session.DecidePending | src-tauri/src/vita_sidecar.rs:1432-1510 | Stores the approval exactly when the Confirm was written. |
| HostSession.Session.DecideAndAnswer | src-tauri/src/vita_sidecar.rs:1432-1510 | The decider's three critical sections, run without interference. |
| HostSession.Session.Schedule | src-tauri/src/vita_sidecar.rs:613-621 | The newest ticket takes the one slot unless the timer was stopped. |
| HostSession.Session.ExpirePending | src-tauri/src/vita_sidecar.rs:2332-2354 | Removes exactly the actions past their deadline; each is owed a Deny. |
| HostSession.Session.ExpirePendingTicket | src-tauri/src/vita_sidecar.rs:1087-1113 | Removes exactly the action the fired ticket names, if due and the session is open. |
| HostSession.Session.ForceTerminalCancelled | src-tauri/src/vita_sidecar.rs:902-924 | Any turn ends as Cancelled; an idle session stays idle. |
| HostSession.Session.Retire | src-tauri/src/vita_sidecar.rs:1011-1037 | Closes, empties all ledgers, stops the timer and forces the authority out of Active. |
| HostVerdicts.ScopeExactly | src-tauri/src/vita_sidecar.rs:1912-1957 | Contract for callers: scope is allowed with a revision exactly when the session is exact, the turn active and its Codex turn unknown or equal, the process binding valid, and the authorization enabled at that revision. |
| HostVerdicts.ArrivalExactly | src-tauri/src/vita_sidecar.rs:1972-2002 | Contract for callers: a confirmation goes on to the authority lock with a deadline exactly when the open session, life, task, capability and binding are exact and the deadline lies ahead and is the earlier of the sidecar's and 30 s from now. |
| HostVerdicts.AdmissionExactly | src-tauri/src/vita_sidecar.rs:2003-2050 | Contract for callers: under the lock it is admitted exactly when the turn is active under that Codex turn and the slot is empty, whether or not the session was closed meanwhile. |
| HostVerdicts.IssueExactly | src-tauri/src/vita_sidecar.rs:2054-2125 | Contract for callers: a grant rests on an approval exactly when the session, turn and binding are exact, the authorization stands at the requested revision, the reaped ledger has room and the approval under the call's key is the unexpired one of this very call. |
| HostVerdicts.IssueRefusedExactly | src-tauri/src/vita_sidecar.rs:2054-2125 | Contract for callers: which requests reap the ledger, and which of those spend an approval although no grant is minted. |
| HostVerdicts.UseExactly | src-tauri/src/vita_sidecar.rs:2162-2226 | Contract for callers: a use is allowed exactly when session, turn, process binding and present revision are exact and the presented grant is identical to the stored, unused, unexpired one. |
| HostVerdicts.CredentialExactly | src-tauri/src/vita_sidecar.rs:1848-1910 | Contract for callers: under the lock a credential is released exactly for the active turn whose provider binding is exact, whose provider is still the configured chat provider, and whose secret is stored. |
| HostVerdicts.ConfirmExactly | src-tauri/src/vita_sidecar.rs:1432-1510 | Contract for callers: a Confirm is sent with a revision exactly when the turn is active, the deadline ahead, the user confirmed, and the process binding is authorized at that revision. |
| HostVerdicts.AnswerExactly | src-tauri/src/vita_sidecar.rs:1432-1510 | Contract for callers: without approval the answer is Cancel for a turn that is gone, the user's own decision when in time and no Confirm, and else Deny. |
| HostEffects.OtherwiseNothing | src-tauri/src/vita_sidecar.rs:700-2401 | Contract for callers, in plain field values: a step whose thread is not at that point changes nothing; `May` lists when each one is. |
| HostEffects.EvaluateEffect | src-tauri/src/vita_sidecar.rs:1912-1970 | Contract for callers, in plain field values: which answer an evaluation gets, and the one field an allowed one sets. |
| HostEffects.ArrivalEffect | src-tauri/src/vita_sidecar.rs:1972-2002 | Contract for callers, in plain field values: an arriving confirmation ends the loop, is denied, or waits with the earlier of the two deadlines. |
| HostEffects.AdmissionEffect | src-tauri/src/vita_sidecar.rs:2003-2050 | Contract for callers, in plain field values: under the lock it is stored with its ticket, refused with Cancel, or ends the loop when the slot is full. |
| HostEffects.IssueEffect | src-tauri/src/vita_sidecar.rs:2054-2160 | Contract for callers, in plain field values: which grants are reaped, when the approval is spent, what the minted grant holds, and which answer is sent. |
| HostEffects.UseEffect | src-tauri/src/vita_sidecar.rs:2162-2226 | Contract for callers, in plain field values: an allowed use removes its grant; a refused one changes no ledger. |
| HostEffects.CredentialArrivalEffect | src-tauri/src/vita_sidecar.rs:1823-1847 | Contract for callers, in plain field values: a request of an open session waits for the lock. |
| HostEffects.CredentialEffect | src-tauri/src/vita_sidecar.rs:1848-1910 | Contract for callers, in plain field values: the credential is sent exactly for the active turn's own binding to the still configured chat provider with a stored secret, and nothing else changes. |
| HostEffects.ReportEffect | src-tauri/src/vita_sidecar.rs:1766-1778 | Contract for callers, in plain field values: a terminal phase ends exactly the turn that accepts it, under that phase. |
| HostEffects.CompletionEffect | src-tauri/src/vita_sidecar.rs:1780-1801 | Contract for callers, in plain field values: a completion of the active turn ends it as Completed and publishes its text. |
| HostEffects.FailureEffect | src-tauri/src/vita_sidecar.rs:1803-1821 | Contract for callers, in plain field values: an accepted failure ends the turn under its own phase and publishes the code. |
| HostEffects.StartEffect | src-tauri/src/vita_sidecar.rs:700-730 | Contract for callers, in plain field values: what a turn starts with, and the exact condition under which it does. |
| HostEffects.AnnounceEffect | src-tauri/src/vita_sidecar.rs:1572-1634 | Contract for callers, in plain field values: a turn that could not be announced ends as Failed. |
| HostEffects.CancelEffect | src-tauri/src/vita_sidecar.rs:736-762 | Contract for callers, in plain field values: cancellation by authority. |
| HostEffects.DecideEffect | src-tauri/src/vita_sidecar.rs:1432-1510 | Contract for callers, in plain field values: which answer the decider sends, and the approval a written Confirm leaves. |
| HostEffects.CommandEffect | src-tauri/src/vita_sidecar.rs:1401-1692 | Contract for callers, in plain field values: the remaining moves of the user commands, with the decision a cancelled action is owed. |
| HostEffects.ExpiryEffect | src-tauri/src/vita_sidecar.rs:2332-2354 | Contract for callers, in plain field values: exactly the overdue actions leave, each owed Deny. |
| HostEffects.FireEffect | src-tauri/src/vita_sidecar.rs:1087-1113 | Contract for callers, in plain field values: exactly the due action the ticket names leaves, owed Deny. |
| HostEffects.TickEffect | src-tauri/src/vita_sidecar.rs:596-647 | Contract for callers, in plain field values: scheduling, the worker's take, the clearing of a ticket, and the answer that is sent. |
| HostEffects.RetireEffect | src-tauri/src/vita_sidecar.rs:1011-1037 | Contract for callers, in plain field values: each piece of `retire`: what is emptied, what is owed, and Cancelled as the forced phase. |
| HostEffects.ChangeEffect | src-tauri/src/vita_sidecar.rs:2228-2251 | Contract for callers, in plain field values: what the environment may change. |
| ReplayWindow.RequestReplayWindow.Accept | src-tauri/src/vita_sidecar.rs:662-674 | Accepts exactly the ids not among the last 128 accepted; the queue is those, without duplicates, and the set is its elements. |
| ReplayWindow.RequestReplayWindow.EvictOldest | src-tauri/src/vita_sidecar.rs:668-672 | The loop evicts only the oldest id, from queue and set alike. |
| ReplayWindow.RequestReplayWindow.Clear | src-tauri/src/vita_sidecar.rs:676-679 | Back to the empty window. |
| ReplayWindow.RepeatsAreFarApart | src-tauri/src/vita_sidecar.rs:662-674 | In any run of offers two acceptances of one id lie more than 128 acceptances apart. |
| ReplayWindow.TailIsDistinct | src-tauri/src/vita_sidecar.rs:662-674 | The last 128 acceptances are always distinct. |
| ReplayWindow.RefusedForAWholeWindow | src-tauri/src/vita_sidecar.rs:662-674 | An accepted id is in the window exactly while fewer than 128 others were accepted after it. |
| RendererHostProof.RendererIsSerialized | src/body/bodyRenderer.ts:76-265 | Over every run: the renderer is mounted only when not mounted, rendered only after a successful mount and before disposal, one operation at a time, and disposed at most once. |
| RendererHostProof.DeliveriesFollowAcceptance | src/body/bodyRenderer.ts:165-181 | Deliveries are a prefix of the accepted renders in acceptance order even when some fail; `pendingRenderCount` is the number of accepted renders not yet settled. |
| RendererHostProof.DisposedExactlyOnce | src/body/bodyRenderer.ts:200-265 | When `disposeAndWait` has settled, the renderer was disposed exactly once, no mount is in flight and every accepted render has settled. |
| RendererHostProof.NothingAfterDisposal | src/body/bodyRenderer.ts:228-265 | Read by position: after the dispose call nothing but its return reaches the renderer. |
| RendererHostProof.RenderIsFramed | src/body/bodyRenderer.ts:136-189 | Read by position: each render follows a successful mount and the settlement of every earlier render. |
| RendererHostProof.DisposalProgresses | src/body/bodyRenderer.ts:200-265 | A started disposal is never stuck: some step is enabled that brings it strictly closer to its end, and no other step undoes that. |
| RendererHostOutcomes.RenderIsDelivered | src/body/bodyRenderer.ts:136-181 | In every run that ends at rest and undisposed, a render called while mounted, or while a mount is under way that then succeeds, has been delivered to the renderer and has come back. |
| RendererHostOutcomes.MayStepExactly | src/body/bodyRenderer.ts:76-265 | Contract for callers, in plain field values: which moments of the event loop may come next. |
| RendererHostOutcomes.MountAnswers | src/body/bodyRenderer.ts:76-109 | Contract for callers, in plain field values: the answer to a mount call by phase and element. |
| RendererHostOutcomes.MountEffect | src/body/bodyRenderer.ts:76-109 | Contract for callers, in plain field values: only an unmounted host starts a mount. |
| RendererHostOutcomes.MountSettleEffect | src/body/bodyRenderer.ts:111-131 | Contract for callers, in plain field values: what a settled mount publishes or rolls back. |
| RendererHostOutcomes.RenderEffect | src/body/bodyRenderer.ts:136-159 | Contract for callers, in plain field values: a render is queued, waits or is refused. |
| RendererHostOutcomes.WaiterEffect | src/body/bodyRenderer.ts:143-150 | Contract for callers, in plain field values: a waiting render is queued exactly when its mount succeeded and the host is still mounted. |
| RendererHostOutcomes.JobEffect | src/body/bodyRenderer.ts:165-181 | Contract for callers, in plain field values: the oldest queued render starts, or is dropped after disposal. |
| RendererHostOutcomes.JobSettleEffect | src/body/bodyRenderer.ts:165-181 | Contract for callers, in plain field values: a settled render is counted once, whatever its result. |
| RendererHostOutcomes.DisposeEffect | src/body/bodyRenderer.ts:200-226 | Contract for callers, in plain field values: what a disposal waits for, and when the renderer is disposed at once. |
| RendererHostOutcomes.DisposalEffect | src/body/bodyRenderer.ts:228-265 | Contract for callers, in plain field values: how a disposal goes on. |
| RendererHostObject.BodyRendererHost.Mount | src/body/bodyRenderer.ts:76-133 | The verdict and new state of a mount call: refused, idempotent, joined or started. |
| RendererHostObject.BodyRendererHost.MountSettled | src/body/bodyRenderer.ts:111-131 | Success publishes the host unless disposed meanwhile; failure rolls back to unmounted unless disposed. |
| RendererHostObject.BodyRendererHost.Render | src/body/bodyRenderer.ts:136-159 | Queued when mounted, waits for the mount under way, refused otherwise. |
| RendererHostObject.BodyRendererHost.JobStarted | src/body/bodyRenderer.ts:165-181 | The next delivery starts, or is dropped after disposal. |
| RendererHostObject.BodyRendererHost.DisposeAndWait | src/body/bodyRenderer.ts:200-226 | Terminal; waits for the mount under way and the render tail as needed. |
| RendererHostObject.BodyRendererHost.Advance | src/body/bodyRenderer.ts:76-265 | Every enabled moment of the event loop: exact new state, invariant kept. |
| ComposedRendererProof.FirewallIsSafe | src/body/fallbackBodyRenderer.ts:145-302 | Driven by the renderer host, in every run: the fallback is mounted only after the primary failed and its disposal has settled, a failed primary is not rendered again in its lifetime, one inner operation at a time, a render succeeds exactly when one inner render did, and each lifetime and disposal ends with every mounted renderer disposed. |
| ComposedTheorems.DisposedRendererIsClean | src/body/fallbackBodyRenderer.ts:119-143 | When the host's disposal has settled, each inner renderer was disposed exactly once in the last lifetime if it was mounted in it, and never otherwise. |
| ComposedTheorems.EverySuccessReachedOneRenderer | src/body/fallbackBodyRenderer.ts:85-117 | With no render under way, successful host deliveries and successful inner renders are equally many. |
| ComposedTheorems.CallsReturn | src/body/fallbackBodyRenderer.ts:145-302 | A host call is never stuck in the firewall: it can always move, and every move brings the call closer to its result. |
| FallbackOutcomes.RenderTells | src/body/fallbackBodyRenderer.ts:85-117 | Read by position, in every run under the renderer host: a render call fails only right after the fallback's own mount or render failed, and succeeds only right after an inner render did; so a snapshot is given up only when the fallback failed on it. |
| FallbackOutcomes.MountTells | src/body/fallbackBodyRenderer.ts:145-184 | In every run, when the host learns the outcome of a mount, the last thing that happened is the mount of the renderer in charge succeeding, or the fallback's failing. |
| FallbackTheorems.PrimaryGoneBeforeFallback | src/body/fallbackBodyRenderer.ts:169-172 | Read by position: before a fallback mount the primary's disposal returned in the same lifetime. |
| FallbackTheorems.NoPrimaryRenderAfterFailure | src/body/fallbackBodyRenderer.ts:201-222 | Read by position: after a failed mount or render the primary is not rendered before a new lifetime. |
| FallbackTheorems.FallbackOnlyAfterFailure | src/body/fallbackBodyRenderer.ts:155-172 | Read by position: a fallback mount is preceded, in the same lifetime, by a mount or render of the primary that failed. |
| FallbackTheorems.LifetimeIsCleanedUp | src/body/fallbackBodyRenderer.ts:186-199 | At the end of a lifetime each renderer was disposed exactly once if it was mounted in it, and never otherwise. |
| FallbackTheorems.StandaloneDisposeCanBeUndone | src/body/fallbackBodyRenderer.ts:169-171 | Counterexample without the host: dispose landing in that await settles, and the mode is then overwritten with fallback. |
| FallbackTheorems.LeavesDisposedExactly | src/body/fallbackBodyRenderer.ts:169-171 | A step leaves the disposed mode exactly when it continues a mount that was disposing its failed primary. |
| FallbackInvariant.ResumeMountKeeps | src/body/fallbackBodyRenderer.ts:145-184 | Each continuation of an exclusive mount keeps the correspondence of cleanup flags, mode and what happened to the inner renderers. |
| FallbackInvariant.ResumeRenderKeeps | src/body/fallbackBodyRenderer.ts:201-239 | The same for each continuation of a render, failover included. |
| FallbackInvariant.ResumeDisposeKeeps | src/body/fallbackBodyRenderer.ts:119-143 | The same for each continuation of a disposal. |
| FallbackEffects.MayStepExactly | src/body/fallbackBodyRenderer.ts:43-302 | Contract for callers, in plain field values: which continuation may come next. |
| FallbackEffects.MountCall | src/body/fallbackBodyRenderer.ts:43-83 | Contract for callers, in plain field values: a mount call starts from rest, or answers for the element it is mounted on. |
| FallbackEffects.RenderCall | src/body/fallbackBodyRenderer.ts:85-107 | Contract for callers, in plain field values: where a render call goes, by mode. |
| FallbackEffects.DisposeCall | src/body/fallbackBodyRenderer.ts:119-135 | Contract for callers, in plain field values: what a disposal sets and waits for. |
| FallbackEffects.MountGoesOn | src/body/fallbackBodyRenderer.ts:145-199 | Contract for callers, in plain field values: each await of a mount: which renderer is kept, dropped or mounted next, and with which result it ends. |
| FallbackEffects.RenderGoesOn | src/body/fallbackBodyRenderer.ts:108-117 | Contract for callers, in plain field values: each await of a render, failover included: after the fallback mounted, the same snapshot is rendered on it, and its result is the call's. |
| FallbackEffects.DisposeGoesOn | src/body/fallbackBodyRenderer.ts:130-142 | Contract for callers, in plain field values: primary first, then the fallback. |
| FallbackEffects.OperationReturns | src/body/fallbackBodyRenderer.ts:43-302 | Contract for callers, in plain field values: what comes back to the thread that waits for it. |
| FallbackEffects.CallerTakes | src/body/fallbackBodyRenderer.ts:43-143 | Contract for callers, in plain field values: a result is taken once. |
| FallbackRendererObject.FallbackBodyRenderer.Mount | src/body/fallbackBodyRenderer.ts:43-83 | A mount call to its first await. |
| FallbackRendererObject.FallbackBodyRenderer.Render | src/body/fallbackBodyRenderer.ts:85-117 | A render call to its first await. |
| FallbackRendererObject.FallbackBodyRenderer.Dispose | src/body/fallbackBodyRenderer.ts:119-143 | A dispose call to its first await. |
| FallbackRendererObject.FallbackBodyRenderer.DisposeOnce | src/body/fallbackBodyRenderer.ts:275-302 | Gives up ownership, and calls dispose only if the renderer was not disposed in this lifetime. |
| FallbackRendererObject.FallbackBodyRenderer.ContinuePreparation | src/body/fallbackBodyRenderer.ts:186-199 | From await to await: cleanup of the previous lifetime, then the primary's mount. |
| FallbackRendererObject.FallbackBodyRenderer.ContinuePrimary | src/body/fallbackBodyRenderer.ts:155-172 | From await to await: keep the primary, or drop it and mount the fallback. |
| FallbackRendererObject.FallbackBodyRenderer.ContinueFallback | src/body/fallbackBodyRenderer.ts:172-184 | From await to await: the fallback inside `mount`, with rollback on failure. |
| FallbackRendererObject.FallbackBodyRenderer.ContinueRender | src/body/fallbackBodyRenderer.ts:108-117 | From await to await: deliver, or fail over and deliver (what each await leads to: FallbackEffects.RenderGoesOn); the invariant is kept. |
| FallbackRendererObject.FallbackBodyRenderer.ContinueDispose | src/body/fallbackBodyRenderer.ts:130-142 | From await to await: primary, then fallback. |
| Live2DProof.EveryEngineIsReleasedOnce | src/body/live2dRenderer.ts:162-358 | Across failed mounts, retries and disposal at any moment no engine is disposed twice; back at unmounted, or with disposal settled, every engine the factory returned was disposed exactly once and its disposal has returned. |
| Live2DProof.EnginesDoNotOverlap | src/body/live2dRenderer.ts:295-352 | At most one engine is undisposed at any moment, and a mounted renderer holds it. |
| Live2DProof.NothingAfterDisposal | src/body/live2dRenderer.ts:326-352 | Once an engine's disposal was called nothing but its return happens to it; in particular it is not rendered. |
| Live2DProof.DisposedIsAbsorbing | src/body/live2dRenderer.ts:232-259 | No continuation of a run leaves the disposed phase. |
| Live2DProof.DisposalProgresses | src/body/live2dRenderer.ts:232-259 | A started disposal is never stuck. |
| Live2DEffects.RenderReachesEngine | src/body/live2dRenderer.ts:201-217 | In every run a render call reaches the one undisposed engine exactly when the adapter is mounted, and does nothing else. |
| Live2DEffects.MayStepExactly | src/body/live2dRenderer.ts:162-358 | Contract for callers, in plain field values: which moments may come next. |
| Live2DEffects.MountEffect | src/body/live2dRenderer.ts:162-199 | Contract for callers, in plain field values: only an unmounted adapter starts a mount, with one fresh engine or none. |
| Live2DEffects.ReturnEffect | src/body/live2dRenderer.ts:295-352 | Contract for callers, in plain field values: what a settled engine mount, a settled disposal and the `finally` of a mount change. |
| Live2DEffects.MountGoesOn | src/body/live2dRenderer.ts:295-324 | Contract for callers, in plain field values: a mounted engine is published while its mount is the present one; any other is given up. |
| Live2DEffects.DisposeEffect | src/body/live2dRenderer.ts:232-259 | Contract for callers, in plain field values: what a disposal supersedes, and what it waits for. |
| Live2DEffects.DisposeGoesOn | src/body/live2dRenderer.ts:232-259 | Contract for callers, in plain field values: how a disposal goes on. |
| Live2DObject.Live2DRenderer.Mount | src/body/live2dRenderer.ts:162-199 | A fresh mount makes one engine, or fails with none when the factory throws. |
| Live2DObject.Live2DRenderer.ContinueMount | src/body/live2dRenderer.ts:295-324 | From await to await: publish if still current, otherwise release the engine. |
| Live2DObject.Live2DRenderer.DisposeEngine | src/body/live2dRenderer.ts:326-352 | Shares a running disposal, or gives up the engine and starts one. |
| Live2DObject.Live2DRenderer.Dispose | src/body/live2dRenderer.ts:232-259 | Supersedes the mount under way and releases once it is over. |
| Live2DObject.Live2DRenderer.Advance | src/body/live2dRenderer.ts:162-358 | Every enabled moment of the event loop: exact new state, invariant kept. |
| RuntimeBindingTheorems.ControllerKeepsItsPromises | src/body/bodyRuntimeBinding.ts:161-259 | Over every interleaving: a candidate is mounted only when every binding mounted before it finished its disposal, or was a candidate that failed; deliveries go only to the binding mounted last while its host is open; snapshots are installed in token order. |
| RuntimeBindingTheorems.TakenOverBindingsAreGone | src/body/bodyRuntimeBinding.ts:161-177 | When a candidate's mount is called, every binding that any rebind so far took over has finished `disposeAndWait`, without exception. |
| RuntimeBindingTheorems.OneCurrentBinding | src/body/bodyRuntimeBinding.ts:161-165 | The active and pending binding are never both set, and the one set carries the current generation and an open host. |
| RuntimeBindingTheorems.EarlierBindingIsGone | src/body/bodyRuntimeBinding.ts:161-244 | Read by position: before a later mount, an earlier binding's disposal settled or it had failed. |
| RuntimeBindingTheorems.DeliveryIsCurrent | src/body/bodyRuntimeBinding.ts:103-119 | Read by position: a delivery goes to a mounted, undisposed, unfailed binding after which none was mounted. |
| RuntimeBindingTheorems.InstallsInOrder | src/body/bodyRuntimeBinding.ts:79-101 | Read by position: installed tokens strictly increase. |
| RuntimeBindingTheorems.DisposedIsSilent | src/body/bodyRuntimeBinding.ts:121-135 | Once disposed, no step mounts, delivers, installs or fails anything. |
| RuntimeBindingTheorems.RetirementProgresses | src/body/bodyRuntimeBinding.ts:167-174 | The retirement tail is never stuck. |
| RuntimeBindingTheorems.ExclusionExactly | src/body/bodyRuntimeBinding.ts:161-244 | Exact condition of exclusion without exception: when a candidate's mount is called, every binding mounted before has finished its disposal if and only if every failed candidate has. |
| RuntimeBindingTheorems.FailedCandidateMayOverlap | src/body/bodyRuntimeBinding.ts:235-243 | Counterexample run for failed candidates: one is still disposing when the next is mounted. |
| RuntimeBindingEffects.RenderEffect | src/body/bodyRuntimeBinding.ts:103-119 | A render call is delivered exactly when the provider's result applies and the binding it was called on is still the one held; either way the call is over and nothing else changes. |
| RuntimeBindingEffects.CommandEffect | src/body/bodyRuntimeBinding.ts:53-135 | Contract for callers, in plain field values: attach, initialize, refresh, render and dispose. |
| RuntimeBindingEffects.RefreshEffect | src/body/bodyRuntimeBinding.ts:53-101 | Contract for callers, in plain field values: only the newest refresh of a living controller installs, and when it rebinds. |
| RuntimeBindingEffects.TailEffect | src/body/bodyRuntimeBinding.ts:161-177 | Contract for callers, in plain field values: the retirement tail, in order, and the settlement of a host. |
| RuntimeBindingEffects.CandidateEffect | src/body/bodyRuntimeBinding.ts:174-203 | Contract for callers, in plain field values: the exact condition under which a candidate is mounted. |
| RuntimeBindingEffects.StartEffect | src/body/bodyRuntimeBinding.ts:203-244 | Contract for callers, in plain field values: what each of a candidate's three awaits leads to, the delivery of its first snapshot included. |
| BindingHostsProof.OldRenderersAreDone | src/body/bodyRuntimeBinding.ts:161-244 | With one real renderer host per binding: whenever a candidate's mount is called, the renderer of every earlier binding that did not fail, and of every binding some rebind took over, has returned from its one dispose call with no mount, render or queue left. |
| BindingFirstRender.FirstRenderTells | src/body/bodyRuntimeBinding.ts:161-244 | In every run of the product the first render of a candidate was accepted by its host; when the rebind learns the outcome, a success was delivered to and finished by the renderer, and a failure was the renderer's own unless the host was disposed meanwhile. |
| BindingHostsProof.HostRefinesStatus | src/body/bodyRenderer.ts:200-265 | What the controller relies on is what a renderer host does: the first dispose call starts a disposal, its settlement ends it, and no other step changes that. |
| RuntimeBindingObject.BodyRuntimeBindingController.Rebind | src/body/bodyRuntimeBinding.ts:161-173 | Starts a generation, takes over the held binding and chains its retirement. |
| RuntimeBindingObject.BodyRuntimeBindingController.MountCandidate | src/body/bodyRuntimeBinding.ts:174-203 | Mounts only for the current generation with a host and a presentation. |
| RuntimeBindingObject.BodyRuntimeBindingController.MountEnded | src/body/bodyRuntimeBinding.ts:203-217 | Publishes a candidate that is still current, disposes of one that is not. |
| RuntimeBindingObject.BodyRuntimeBindingController.FailCandidate | src/body/bodyRuntimeBinding.ts:235-243 | Lets go of a failed candidate and disposes it outside the tail. |
| RuntimeBindingObject.BodyRuntimeBindingController.RefreshEnded | src/body/bodyRuntimeBinding.ts:79-101 | Only the newest refresh installs and rebinds. |
| RuntimeBindingObject.BodyRuntimeBindingController.Dispose | src/body/bodyRuntimeBinding.ts:121-135 | Supersedes everything under way and disposes of the held binding. |
| RuntimeBindingObject.BodyRuntimeBindingController.AdvanceCommand | src/body/bodyRuntimeBinding.ts:53-135 | Every enabled command moment: exact new state, invariant kept. |
| RuntimeBindingObject.BodyRuntimeBindingController.AdvanceMove | src/body/bodyRuntimeBinding.ts:161-244 | Every enabled moment of a rebind, the tail or a host: exact new state, invariant kept. |
| Frames.StreamRoundTrip | vita-agent-protocol/src/lib.rs:72-155 | A stream reads cleanly as a list of bodies exactly when it is the encoding of that list and each body is valid UTF-8 of 1 to 524288 bytes. |
| Frames.EncodingIsInjective | vita-agent-protocol/src/lib.rs:72-84 | Lists of bodies with equal streams are equal. |
| Frames.CutStream | vita-agent-protocol/src/lib.rs:131-155 | A stream cut inside a frame yields all earlier frames and then a truncation error: of the length within its 4 bytes, of the body after. |
| Frames.BeRoundTrip | vita-agent-protocol/src/lib.rs:142 | The big-endian length of any 32-bit number reads back. |
| Frames.BeBytesRoundTrip | vita-agent-protocol/src/lib.rs:81 | Any 4 bytes are the big-endian form of the number they denote. |
| Frames.BigEndian | vita-agent-protocol/src/lib.rs:81 | Each of the four length bytes, most significant first. |
| Frames.ReadExactly | vita-agent-protocol/src/lib.rs:131-155 | Contract for callers, in plain field values: the result of one read by the value of its four length bytes, each error included. |
| Frames.EncodeExactly | vita-agent-protocol/src/lib.rs:72-84 | Contract for callers, in plain field values: the bytes of a frame. |
| Frames.EncodeFrame | vita-agent-protocol/src/lib.rs:72-84 | Fails exactly for empty and oversized bodies; otherwise 4 length bytes and then the body. |
| Frames.ReadFrame | vita-agent-protocol/src/lib.rs:131-155 | A clean end exactly at the end of the stream; a body is valid and within bounds, and exactly its frame is consumed. |
| Frames.WriteFrame | vita-agent-protocol/src/lib.rs:72-84 | The buffer-filling writer computes exactly the frame, or the error. |
| Frames.FrameReader.Read | vita-agent-protocol/src/lib.rs:131-155 | The in-order reader yields exactly what the specification of one read says, and consumes as much. |
| Frames.FrameReader.ReadToEnd | src-tauri/src/vita_sidecar.rs:1708-1712 | Reading frame after frame collects exactly the bodies before the end or the first framing error. |
| Frames.FrameReader.ServeToEnd | src-tauri/src/vita_sidecar.rs:1701-1760 | The reader loop as a whole, with decoding, checks and dispatch as a predicate on everything served so far: exactly the specified bodies are served. |
| Frames.ServesLongestPrefix | src-tauri/src/vita_sidecar.rs:1701-1760 | What is served is the longest prefix of the bodies each of which is handled. |
| Utf8.ValidSplit | vita-agent/src/runtime_composition.rs:277-281 | Cutting valid UTF-8 at a character boundary leaves two valid texts. |
| Utf8.CharLenExactly | vita-agent/src/runtime_composition.rs:277-280 | The characters a text starts with are exactly the well-formed sequences of one to four bytes of the table in section 4 of RFC 3629, each with its own length. |
| Utf8.BoundaryNear | vita-agent/src/runtime_composition.rs:277-280 | In valid UTF-8 a character boundary is at most three bytes back from any position. |
| BoundedText.AccumulationIsBounded | vita-agent/src/runtime_composition.rs:268-282 | After any list of messages the buffer is valid UTF-8 within the limit, the concatenation of one character-boundary prefix of each message in order, and at most 3 bytes of room are left once any message was cut. |
| BoundedText.PrefixExactly | vita-agent/src/runtime_composition.rs:268-282 | The buffer is a prefix of the concatenated messages exactly when every message after the first cut one is empty or starts with a character that does not fit. |
| BoundedText.NeedNotBePrefix | vita-agent/src/runtime_composition.rs:268-282 | Counterexample for every limit: a short message after a cut one makes the buffer no prefix. |
| BoundedText.CutIsGreatest | vita-agent/src/runtime_composition.rs:277-280 | The boundary found by walking back is the greatest one in reach. |
| BoundedText.AssistantText.AppendBounded | vita-agent/src/runtime_composition.rs:268-282 | The in-place append with its decrementing loop computes exactly the bounded append. |
| BoundedText.BoundedText | vita-agent/src/runtime_composition.rs:284-293 | The decrementing loop keeps exactly the greatest prefix that fits. |
| BoundedText.AssistantText.RunTurn | vita-agent/src/runtime_composition.rs:180-235 | By index over the events: an answer exactly when the first ending event is a completion that did not fail, and then its bounded final message, or the bounded accumulation before it; otherwise failure. |
| BoundedText.AnswerIsBounded | vita-agent/src/runtime_composition.rs:180-235 | An answer is valid UTF-8 of at most 262144 bytes; it is the start of the final message of the event that ends the turn, or, without one, the bounded accumulation of what was said before it. |
| BoundedText.TurnExactly | vita-agent/src/runtime_composition.rs:207-233 | By index over the events: the turn is answered exactly when some successful completion has no ending event before it, and fails when the first ending event is an abort or a failed completion, or there is none. |
| BoundedText.KeptExactly | vita-agent/src/runtime_composition.rs:268-293 | What is kept of a text is its longest prefix within the room that ends between two characters. |
| Normalization.WordsOfNormalized | src-tauri/src/candidate_memory_internal/normalization.rs:79-83 | The words of the result are the mapped words of the input. |
| Normalization.NormalizeIdentifies | src-tauri/src/candidate_memory_internal/normalization.rs:79-83 | Two inputs normalize equally exactly when their mapped word sequences are equal. |
| Normalization.NormalizeTwice | src-tauri/src/candidate_memory_internal/normalization.rs:79-83 | Normalizing twice changes nothing. |
| Normalization.TrimIsNoOp | src-tauri/src/candidate_memory_internal/normalization.rs:82 | The final trim changes nothing. |
| Normalization.WordsOfMapped | src-tauri/src/candidate_memory_internal/normalization.rs:26-68 | The character table keeps whitespace status: mapping and splitting commute. |
| Normalization.FixedExactlyWhenCanonical | src-tauri/src/candidate_memory_internal/normalization.rs:79-83 | The fixed points are exactly the texts without a micro sign, with single spaces as only whitespace and none at the ends. |
| Normalization.TableExactly | src-tauri/src/candidate_memory_internal/normalization.rs:26-68 | The only character the table changes is the micro sign, which becomes the Greek mu. |
| Normalization.WordsExactly | src-tauri/src/candidate_memory_internal/normalization.rs:79-83 | Splitting and joining, case by case: words are what lies between whitespace, joined by one space each. |
| Fingerprint.PreimageDetermines | src-tauri/src/candidate_memory_internal/fingerprint.rs:28-45 | With NUL-free ids two preimages are equal exactly when domain, life, subject, kind and normalized content are. |
| Fingerprint.NulMakesIdsAmbiguous | src-tauri/src/candidate_memory_internal/fingerprint.rs:28-45 | Conversely every pair of ids holding a NUL shares its preimage with another pair. |
| Fingerprint.DomainsNeverMeet | src-tauri/src/candidate_memory_internal/fingerprint.rs:7-8 | Dedup and rejection preimages never coincide, whatever the ids hold. |
| Fingerprint.FingerprintsIdentify | src-tauri/src/candidate_memory_internal/fingerprint.rs:10-45 | Unless their preimages collide under the hash, fingerprints of NUL-free ids are equal exactly when domain, ids and kind agree and the contents have the same mapped words. |
| Fingerprint.ComputeFingerprint | src-tauri/src/candidate_memory_internal/fingerprint.rs:28-45 | The successive writes feed the hasher exactly the preimage of the normalized content. |
| Fingerprint.LayoutExactly | src-tauri/src/candidate_memory_internal/fingerprint.rs:7-45 | The preimage byte for byte: the domain's own label, both ids, the kind's own name and the content, with a NUL between. |
| ProviderBindings.CanonicalFormDetermines | vita-agent-protocol/src/lib.rs:270-301 | Bindings with valid fields have equal 0x1f-joined forms exactly when all nine fields agree. |
| ProviderBindings.UnvalidatedFormIsAmbiguous | vita-agent-protocol/src/lib.rs:265-266 | Why validation comes before the hash, as the code does: a separator inside a field would make two canonical forms coincide. |
| ProviderBindings.HashCommits | vita-agent-protocol/src/lib.rs:303-315 | Unless their canonical forms collide under the hash, two validated bindings share a hash exactly when they are equal. |
| ProviderBindings.TamperedBindingFails | vita-agent-protocol/src/lib.rs:303-315 | Unless the canonical forms collide under the hash, any change of a validated binding that keeps its hash fails validation. |
| ProviderBindings.Derive | vita-agent-protocol/src/lib.rs:248-268 | Succeeds exactly when all nine fields are acceptable, copies each of them by name, and `validate` accepts the result of a hash with 64 hexadecimal digits. |
| ProviderBindings.Validate | vita-agent-protocol/src/lib.rs:303-315 | Accepts exactly valid fields with a 64-digit hexadecimal hash equal to the expected one. |
| ProviderBindings.ValidateWithoutHash | vita-agent-protocol/src/lib.rs:286-301 | The loop accepts exactly when all nine fields are non-empty, at most 256 bytes and free of control characters. |
| ProviderBindings.FieldsExactly | vita-agent-protocol/src/lib.rs:286-301 | The nine fields that are checked, by name. |
| ProviderBindings.CanonicalExactly | vita-agent-protocol/src/lib.rs:270-284 | The canonical form: the nine fields by name, in order, with 0x1f between. |
| ProviderBindings.ValidatesExactly | vita-agent-protocol/src/lib.rs:303-315 | Contract for callers, in plain field values: acceptance in terms of the fields, 64 hexadecimal digits and the hash of the canonical form. |

## Left out

- Host environment: process spawning, pipes, path and image checks, Git lookup, windows and Tauri commands; a write of a frame is a Boolean that may be false, and a failing reader is a step that ends the reader loop.
- Storage and capability evaluation: an environment step that sets "enabled or not" with a strictly larger revision; the evaluator may also be unreachable. The source adds 1 to the revision on each change (src-tauri/src/storage/capability_authorization.rs:137).
- Identifiers: turns, pending actions, confirmations and grants get identifiers never used before; entropy failure, colliding ids and lock poisoning are not modelled.
- Message validation of DTOs and JSON: malformed frames are the step that ends the reader loop; a process binding keeps the compared fields and one value for the remaining hashes and limits.
- HostMessages.ReplayEndsTheLoop: the window belongs to the loop of HostMessages, whose runs hold every run of the session; in HostSteps alone a refused message is the step that ends the reader loop.
- UI projection: `active_turn_id`, `turn_phase` and the pending summary, which the source updates outside the authority lock; text and error are written together with the handler that accepts them.
- Tests of `closed` by `begin_turn`, the expiry worker and `start_turn` are one step with what follows them; nothing those steps share with others can tell the difference.
- HostVerdicts.IssueExactly: the clock readings of the reaping and of the expiry check are one; the two stamps of the grant are readings of their own.
- HostFence.RetiredForever: is about `retire` without interference; HostRetirement.RetirementEmpties is about `retire` under any.
- HostRetirement.StopLeavesNothing: that the sidecar process ends and the reader thread with it, which `stop` waits for, is not proved.
- HostSession.Session.RetireFor: the counters of performed pieces stand for where the two callers of `retire` are in it; the source keeps no such fields.
- HostSession.Session.ReadMessage: one decoded message at a time; the pipe it blocks on is not modelled, and what decoding refuses is the predicate of Frames.FrameReader.ServeToEnd.
- HostSession.Session.ClearTurnEvidence: the source's `retain` and the expiry passes are written as map comprehensions; only the reaping of grants is a loop.
- Coordinator: status, readiness, session start, and of `stop` all but giving the session up and retiring it; the coordinator lock is the rule that one command runs at a time.
- RendererHostProof.RendererIsSerialized: re-entrant calls from inside a renderer are not modelled; a synchronous throw counts as a failed result.
- RendererHost: a settled promise and the code it wakes are separate moments only where other code can tell the difference.
- ComposedRendererProof.FirewallIsSafe: clearing of host elements (`replaceChildren`) is not modelled.
- FallbackRendererObject.FallbackBodyRenderer.Mount: a call that joins the mount under way has no effect of its own and is not a step.
- RuntimeBindingTheorems.ControllerKeepsItsPromises: a binding's renderer host is reduced to "the first dispose call starts a disposal that settles later"; BindingHostsProof.HostRefinesStatus and the product there justify it.
- BindingFirstRender.FirstRenderTells: later render calls of a binding may be refused by its host; the controller ignores their outcome, as the source does.
- RuntimeBinding: the provider's coordinator is the choice between an applied, a superseded and a failing result; published snapshots are not told apart.
- Live2DEffects.RenderReachesEngine: a render is the moment at which its call has waited for the mount under way; the wait is no step, and a render that fails is not told apart from one that was refused.
- Live2D: `resize`, the lazy engine import and host clearing.
- Frames.FrameReader.Read: an I/O error at the first byte, and `decode_frame` with its JSON, are not modelled.
- BoundedText.AssistantText.RunTurn: submission, timeout and cancellation of a turn are the failure outcome.
- Normalization.FixedExactlyWhenCanonical: claims nothing about Unicode normalization beyond the source's own table, of which every row but the micro sign maps a character to itself.
- Fingerprint.ComputeFingerprint: texts are character sequences; their UTF-8 bytes and SHA-256 are the hash parameter.
- ProviderBindings.Derive: SHA-256 is a parameter; that its digests are 64 hexadecimal digits is a condition of the acceptance clause.
- Unmodelled files: the `d29*` test fixtures, service wrappers, stores, Vue components, the conversation service and the memory review controller, whose guards would only add easy members.
