# Verification of the Loomex runner's durable protocols

This project models the three parts of the runner that must stay correct when a process dies
between any two of its steps, when answers are lost, and when writes land late:

1. **The credential journal** (`src/auth.rs`). One protected record holds the tokens of an
   installation, the browser sign-in in progress, and at most one journaled request. Every
   operation loads a copy, writes it back whole before it sends anything, and uses an answer only
   if the record is still the one that the request left with.
2. **The uninstall** (`src/bootstrap_uninstall.rs`): its phases, its single stop request, and a
   cleanup that any number of runs may have to finish.
3. **The continuation ledger** (`src/continuation_resolution.rs`): receipts that are written once,
   and the judgement whether a closure still stands.

## How it is built

| files | contents |
|---|---|
| `Basics.dfy` | results, and the JSON values that the code reads |
| `Credentials.dfy` | the protected record, recovery references, identity and evidence, token parsing |
| `AuthHistory.dfy` | what the store and the network see: events, the step relation, lawful histories |
| `AuthInvariant.dfy` | the structural invariant of every reachable record |
| `AuthTheorems.dfy`, `LogoutTheorems.dfy`, `RecoveryTheorems.dfy`, `AdoptionTheorems.dfy` | theorems over whole histories |
| `Scopes.dfy` | persona scopes and their closure |
| `AuthOutcomes.dfy`, `Authenticator.dfy` | the operations of `Auth` as methods of a class over one store, proved lawful step by step |
| `StoreQueue.dfy`, `InstallationIdentity.dfy` | the lock and native worker below `load` and `save`; concurrent callers of `installation_id` |
| `UninstallPhases.dfy`, `UninstallRun.dfy` | the uninstall up to its cleanup, over any number of runs |
| `FileTrees.dfy`, `UninstallState.dfy`, `UninstallEffects.dfy`, `CleanupFacts.dfy`, `UninstallCleanup.dfy`, `UninstallCapture.dfy` | the cleanup on a mutable disk, one durable effect at a time |
| `Continuations.dfy` | the ledger |

A crash needs no event of its own: a history, a trace or a disk may stop after any effect, and the
next operation starts from what is durable. `Auth.Save`, `Runner.Save` and `Cleaner.Effect` choose
freely whether an effect lands, lands unnoticed, or does not land. The server is an oracle that
accepts, refuses (retryable or definite) or never answers a process that is gone; a transport
failure is a retryable refusal. In a history an `Overwritten` event is a write by anyone who does
not hold the operation lock; theorems that need exclusive ownership ask for a history without one
(`Undisturbed`, `Continuous`), as the singleton owner of the store guarantees.

Readings of the clock that decide whether a token is usable, a sign-in has lapsed or a cancellation
must take back an approval are parameters of the methods that make the decision, so that their
contracts can say what was due; all other readings are the environment's choice.

What a function computes is stated a second time without it: an inventory check by the entries that
it refuses (`Unsound`, `Tampered`), a verdict by the fields of the answer (`Decides`, `Attests`,
`ShowsTheEnd`), a stored token by the reply that carried it (`StoresReply`). Lemmas named
`...Exactly` join the two, and the contracts of the methods use the second form.

Digests, signatures, references and random values are free constructors: two of them are equal only
if everything that went into them is. Fresh random values are larger than all seen before.

Methods and lemmas end with a `hide` statement where their proofs do not need a definition; it
shortens the verifier's work and says which definitions matter.

## What the proofs found

- **Declined callback.** An `access_denied` callback drops the sign-in even while its exchange is
  pending. The recovery reference of that exchange then changes, unless it was carried by the
  pending record itself; `DeclineAndReference` gives the exact condition and
  `DeclineChangesReference` a record where it fails (`src/auth.rs:1549-1553`).
- **Restarted sign-in.** `login` under the same key restarts a lapsed flow and keeps its received
  code, but takes the transaction from the new offer. If the server names another transaction, the
  recovery reference changes although the code is the same. `RestartAndReference` gives the exact
  condition, `RestartChangesReference` a lawful run (`src/auth.rs:1264-1269`, `src/auth.rs:1346`).
- **Legacy sign-ins cannot be logged out.** `cleanup_locked` hands the stored flow identifier to
  `cancel_login_locked`, which compares it with the derived one. A logout of an admitted record
  without evidence meets `LOGIN_FLOW_MISMATCH` if and only if there is no device, there are no
  children, and the sign-in has a started transaction but no flow identifier; apart from store
  faults it never gets further. `Auth.Cleanup` states both directions, `LegacySignInExists` gives a
  record (`src/auth.rs:2288-2290`, `src/auth.rs:2814-2826`).
- **After the very last effect.** An uninstall that dies after removing its terminal marker has
  finished; the next run finds nothing installed and refuses. From a resumable state this is the
  only refusal that a rerun can meet (`Cleaner.Resume`).
- **Wider recovery than documented.** `docs/architecture.md:39` speaks of a one-time recovery within
  30 seconds; the code lets a pending request be recovered at any time and any number of times
  (`src/auth.rs:589-597`). The model follows the code, and `LateRecoveryGainsNoLifetime` shows that
  nothing is gained by waiting.
- `complete_browser_callback` and `reconcile_bound` do not look at `logout_pending`; the invariant
  holds all the same.

## Model

| member | source | states |
|---|---|---|
| AuthInvariant.StructuralInvariant | src/auth.rs:2423-2647 | in every reachable record: a device excludes a sign-in; exchange, bootstrap and cancel pending exclude a device; rotations and enrollments have their token; only a cancel displaces, at most one request; evidence only while logging out or in a cleared record |
| AuthInvariant.StepKeepsSound | src/auth.rs:2464-2647 | each single write keeps that invariant |
| AuthInvariant.AdoptedRotation | src/auth.rs:2576-2606 | a rotation keeps the subject it rotates, replaces exactly that token, and touches nothing else but attachments |
| AuthInvariant.AdoptedEnrollment | src/auth.rs:2607-2627 | an enrollment adds or replaces exactly its own organization's child and leaves every other one as it is |
| AuthInvariant.AdoptionStoresReply | src/auth.rs:2567-2627 | for every kind of request, the token stored has the access and the refresh secret that its part of the reply names, and the owner that the reply names; a cancellation completes only on its confirmation |
| AuthTheorems.InstallationIdStable | src/auth.rs:927-941 | identity and key of a record never change while it is not deleted |
| AuthTheorems.ReceiptsWriteOnce | src/auth.rs:1001-1036 | over any run a receipt keeps its key, installation and reference, and a settled one never changes |
| AuthTheorems.StepReceipts | src/auth.rs:2507-2530 | one write adds at most the bound key, or settles exactly the open receipts of the pending reference: with a rejection, or with a result that says whether the written record has a device and which organization is active in it |
| AuthTheorems.ReceiptSettledByItsOwnRequest | src/auth.rs:2629-2647 | a receipt is settled only by the request whose reference it holds, and a result only in the write that clears that request, about that very record |
| AuthTheorems.ResultWasTrueWhenWritten | src/auth.rs:2631-2657 | over any run, whatever a receipt reports was true of the record of the write that completed its own request |
| AuthTheorems.WriteAhead | src/auth.rs:2440-2463 | every journaled send follows directly on the write of that very record, with the recovery flag only after the flag was stored; `Auth.Transmit`, `Auth.Recover` and `Auth.Begin` are proved to send and write only so, because they keep `Valid` |
| AuthTheorems.SameStampSameRequest | src/auth.rs:2423-2463 | two journaled requests with one stamp are the same request apart from the recovery flag, however often displaced and restored |
| AuthTheorems.ExactReplay | src/auth.rs:2464-2502 | all sends of one request carry the same route and body, over all crashes and retries |
| AuthTheorems.FirstSendOnce | src/auth.rs:2440-2463 | each request is sent at most once without the recovery flag, and never after any other send of it |
| AuthTheorems.SentRequestsAreWellBuilt | src/auth.rs:2427-2475 | whatever is sent, first or repeated or restored, goes to the endpoint of its kind and is signed by this installation, for its own purpose, over the secret that it presents |
| LogoutTheorems.EvidenceIsBacked | src/auth.rs:2267-2362 | stored evidence was earned by a confirming answer since the last sign-in began, for that device |
| LogoutTheorems.ErasureIsConfirmed | src/auth.rs:2366-2384 | when a logout erases device, children, pending request or started sign-in, the server had confirmed their revocation; nothing else is left but identity, key, evidence and receipts |
| LogoutTheorems.DeviceNeverForgotten | src/auth.rs:2240-2397 | over any run, a device once stored is still stored under its subject, or its logout was confirmed |
| LogoutTheorems.DeviceEvidenceStays | src/auth.rs:2267-2275 | evidence of a device logout stays valid, under the same identity, until a new sign-in, and no further logout request is sent |
| LogoutTheorems.ClearingKeepsIdentity | src/auth.rs:2712-2748 | the identity and the validity of its evidence are the same before and after clearing |
| LogoutTheorems.WorthlessEvidence | src/auth.rs:2712-2748 | evidence of another installation or device, of unknown kind, without time, or of less than what is stored confirms nothing |
| RecoveryTheorems.LegacyReferences | src/auth.rs:2673-2692 | two requests from before generations existed share a reference exactly when target, route, body and start agree; the recovery mark and the displaced request do not matter |
| RecoveryTheorems.CodeReferences | src/auth.rs:2658-2711 | two records of a received code share a reference exactly when installation, key, flow, transaction and code agree, whatever is pending for the code |
| RecoveryTheorems.GenerationReferences | src/auth.rs:2673-2711 | other requests share one exactly when installation and generation agree, and a fresh generation is never mistaken for a code |
| RecoveryTheorems.SignInKeepsReference | src/auth.rs:2533-2548 | from the received code through exchange and bootstrap, over crashes, retries, rejections and restarts of the lapsed flow that are offered their own transaction again, the reference is one and the same |
| RecoveryTheorems.AdmittedExactly | src/auth.rs:1343-1367 | an offer or a declined callback is part of such a run exactly when it leaves the reference as it was |
| RecoveryTheorems.OfferAndReference | src/auth.rs:1343-1367 | an offer keeps the reference exactly when no code was received, the pending request is not the sign-in's, or the transaction is the same |
| RecoveryTheorems.RestartAndReference | src/auth.rs:1264-1318 | restarting a lapsed flow under its key keeps the code, and the reference exactly when the server names the same transaction again |
| RecoveryTheorems.RestartChangesReference | src/auth.rs:1264-1350 | a lawful run from a sound record in which such a restart changes the reference |
| RecoveryTheorems.MarkKeepsReference | src/auth.rs:2673-2692 | setting the recovery flag does not change the reference |
| RecoveryTheorems.CancelChangesReference | src/auth.rs:1621-1631 | a cancellation has another reference than the operation it displaces |
| RecoveryTheorems.RefusedCancelRestores | src/auth.rs:2549-2554 | one step: a refused cancellation restores the displaced operation, and the reference exactly when the sign-in still yields the same generation |
| RecoveryTheorems.RefusalRestoresDisplaced | src/auth.rs:1620-1633 | over any run between the journaled cancellation and its refusal, crashes and recoveries included, exactly the displaced operation is restored, and its reference exactly when the sign-in still yields the same generation |
| RecoveryTheorems.StoredThroughout | src/auth.rs:1620-1633 | a stored request that is older than some point was stored at that point too, and nothing deleted the record since |
| RecoveryTheorems.DeclineAndReference | src/auth.rs:1549-1553 | when a declined callback keeps the reference of a pending request, and when not |
| RecoveryTheorems.DeclineChangesReference | src/auth.rs:1549-1553 | a sound record with a live sign-in whose callback is accepted and changes the reference |
| RecoveryTheorems.ExpiryIsBounded | src/auth.rs:2777-2802 | an expiry exceeds neither start plus TTL nor the server's own deadline, and is one of the two |
| RecoveryTheorems.UsableMeansAMinuteLeft | src/auth.rs:520-525 | a token is usable exactly when more than sixty seconds are left, at the end of time too |
| RecoveryTheorems.LateRecoveryGainsNoLifetime | src/auth.rs:2777-2810 | whenever and however often a request is recovered, its token lives no longer than counted from the first send |
| RecoveryTheorems.AnswersNeedTheirOwnRecord | src/auth.rs:2493-2505 | no write that uses an answer follows any other write since its request left; `Auth.Dispatch`, `Auth.Settle` and `Auth.AskFor` keep it so |
| RecoveryTheorems.StepKeepsUpgrade | src/auth.rs:1973-2052 | an upgrade past its grant keeps request and attachment, moves only forward, and a verdict never changes |
| RecoveryTheorems.GrantNeverResent | src/auth.rs:1994-2029 | over any run without logout, an answered grant is never asked for again |
| AdoptionTheorems.TokenRoundTrip | src/auth.rs:2803-2810 | a token reply is read back as the token it was built from, with the earlier of the two deadlines |
| AdoptionTheorems.BootstrapBindsDevice | src/auth.rs:2567-2575 | a bootstrap stores the device that the reply names and ends the sign-in |
| AdoptionTheorems.ChildKeepsAttached | src/auth.rs:2592-2606 | after a rotation an attachment is cached exactly when the reply describes one of the same runner, and it is that one |
| AdoptionTheorems.EnrollmentKeepsAttached | src/auth.rs:2607-2627 | after an enrollment an attachment is cached exactly when the reply declares one, and it is that one |
| AdoptionTheorems.StoredTokensWereIssued | src/auth.rs:2567-2627 | over any run every stored token was handed out by the server, both secrets together, in an answer to a request of its kind |
| AdoptionTheorems.BearersAreAccessTokens | src/auth.rs:2474-2492 | every call is authorised by the access secret of the stored token of its owner |
| AdoptionTheorems.AttachmentsFollowChildren | src/auth.rs:2585-2627 | over any run a cached attachment names the runner of the child that is stored now |
| Credentials.BindingExactly | src/auth.rs:2749-2776 | an attachment is read exactly when its five fields are there, name this organization, and are well formed |
| Scopes.NormalizeIsClosure | src/auth.rs:2137-2151 | the normalised grant is the least set closed under chat to read and memory write to memory read |
| Scopes.VerifiedMeansClosedGrant | src/auth.rs:2067-2172 | a token is verified exactly when the self description names the stored runner and device, the cached and the expected attachment, and the persona scopes in the token equal the closed grant |
| Scopes.StaleMeansMissing | src/auth.rs:2152-2168 | a token is stale exactly when all that holds but it has strictly fewer persona scopes than the closed grant |
| Authenticator.Auth.Save | src/auth.rs:908-912 | a write lands whole and lawfully, or not at all; success means it has landed |
| Authenticator.Auth.Revalidate | src/auth.rs:916-923 | success means the store still holds exactly the expected record |
| Authenticator.Auth.InstallationId | src/auth.rs:927-941 | returns the stored identity, creating it only in an empty store |
| Authenticator.Auth.Dispatch | src/auth.rs:2493-2505 | an answer is passed on only over an unchanged record; after a foreign write nothing more happens |
| Authenticator.Auth.Settle | src/auth.rs:2629-2647 | adoption, clearing of the request and settling of its receipts are one write, which stores the token of the answer and reports itself in the receipts |
| Authenticator.Auth.Refuse | src/auth.rs:2506-2531 | a definite rejection is recorded in every receipt that waited for the request, and nothing else changes but that an enrollment is forgotten; a retryable one changes nothing |
| Authenticator.Auth.Cancelled | src/auth.rs:2549-2566 | refused: the displaced request is back; confirmed in a logout: evidence before the sign-in is dropped |
| Authenticator.Auth.EnrollmentBearer | src/auth.rs:2474-2492 | an enrollment is signed with the access token of the stored device, which is usable; an unsent one with an expired device is gone afterwards, and a sent one is left alone |
| Authenticator.Auth.Exchanged | src/auth.rs:2534-2548 | an answered exchange becomes the bootstrap that redeems its grant, signed for it, started now, under the same reference |
| Authenticator.Auth.Transmit | src/auth.rs:2464-2647 | success completes exactly the pending request, stores the token of the answer and records its results; every other outcome is one of the listed faults, with what it leaves |
| Authenticator.Auth.Recover | src/auth.rs:2454-2463 | a recovery stores its flag first and completes the same request |
| Authenticator.Auth.Begin | src/auth.rs:2423-2453 | refuses without effect while a request is pending; else journals once, over the record it was given, and completes; an ambiguous answer is repeated exactly once |
| Authenticator.Auth.EnsureDevice | src/auth.rs:2398-2422 | yields a device token that was usable when read last, with no request open; rotates only an expired one; sends nothing in a logout |
| Authenticator.Auth.Credential | src/auth.rs:1708-1737 | the bearer is the stored child's, usable when read last, with no request open and no logout under way; only expired tokens are rotated |
| Authenticator.Auth.OwnerBoundCredential | src/auth.rs:1738-1763 | serves only the stored owner who is the expected identity and account, with an access token that was usable when read last; any mismatch has no effect and is told as what it is; no other subject changes, only expired tokens are rotated, at most twice; of anyone else no owner check fails |
| AuthOutcomes.RotationKeepsOwner | src/auth.rs:1810-1836 | a completed rotation of a record without evidence leaves its owner valid |
| AuthOutcomes.OwnerHasNoEvidence | src/auth.rs:1810-1836 | in a sound record a valid owner is never hidden behind old evidence |
| Authenticator.Auth.ReconcileState | src/auth.rs:1057-1083 | repeats or finishes the operation in the record and starts none |
| Authenticator.Auth.ReconcileBound | src/auth.rs:982-1056 | a settled, mismatched or unbound key sends nothing; only references are bound, and durably before any send; the answer is the one of the receipt bound to the caller, a new one describes the stored record, and a definite rejection is always recorded |
| AuthOutcomes.BindingLasts | src/auth.rs:1022-1038 | once a key is bound, every later send happens with the key bound in the store |
| Authenticator.Auth.Login | src/auth.rs:1240-1371 | the offered flow is the one in the store; a key keeps its flow and its runner; a live flow is given back to its own key and refused to any other; nothing happens in a logout |
| Authenticator.Auth.CompleteBrowserCallback | src/auth.rs:1530-1571 | a foreign or lapsed callback, a malformed or a second code has no effect; success ends with a device and no sign-in |
| Authenticator.Auth.CancelLogin | src/auth.rs:1581-1633 | only a started sign-in of this flow, with no request but its own, is cancelled; everything else is refused without effect, each case with its own fault, a flow mismatch exactly for another flow; a cancellation refused at once leaves the record as it was |
| Authenticator.Auth.IntendCancel | src/auth.rs:1606-1633 | the cancellation carries this transaction and browser state, takes back an approval exactly when there may be one, is signed for just that, and is stored with the request it displaces |
| Authenticator.Auth.RevokeSession | src/auth.rs:2267-2365 | success leaves a record that may be cleared; a flow mismatch is met by legacy sign-ins and by nothing else |
| AuthOutcomes.LegacySignInExists | src/auth.rs:2814-2826 | a sound record that meets the mismatch for good |
| Authenticator.Auth.RevokeDevice | src/auth.rs:2325-2364 | success leaves valid evidence and every credential in place; failure is a store fault, a refusal, or a foreign write |
| Authenticator.Auth.Erase | src/auth.rs:2366-2396 | the deletion follows only on the durable, revalidated clearing; the report is that of the record |
| Authenticator.Auth.Cleanup | src/auth.rs:2240-2397 | another identity is refused without effect; with evidence nothing is sent, the same identity is admitted again, only the store can fail, and success confirms it again; the report agrees with the cleared record; a flow mismatch exactly for an admitted legacy sign-in |
| Authenticator.Auth.Select | src/auth.rs:1670-1707 | the organization is enrolled under the caller's key, active and marked as enrolled; every other profile and enrollment is kept |
| Authenticator.Auth.Inspect | src/auth.rs:2080-2097 | one look with a usable token: only an expired one is rotated first, and a verdict rests on the last answer |
| Authenticator.Auth.VerifiedScopes | src/auth.rs:2067-2174 | success is verified by the last answer for the stored child; only rotations and self descriptions are sent; every rotation is of a stored token found expired at a reading of the clock, but at most one, which answers at once to a self description that found the token older than its grant |
| Authenticator.Auth.ScopeStatus | src/auth.rs:2054-2066 | the same for a status read, which asks for no grant; success is verified by the last answer |
| Authenticator.Auth.Discover | src/auth.rs:1945-1975 | an upgrade is journaled with this record's own attachment before any grant is asked for |
| Authenticator.Auth.RequestGrant | src/auth.rs:1994-2029 | the journaled verdict is the one of the last answer, which names the journaled attachment and scopes: denied for a denial, a refresh only for a grant that asks for it |
| Authenticator.Auth.ScopeUpgrade | src/auth.rs:1908-2053 | a new verification covers every requested scope and rests on the last self description; a new denial is what the last receipt says; a key keeps its request, attachment and verdict |
| StoreQueue.StoreIsLinearised | src/auth.rs:848-896 | over any interleaving the store is what its calls made of it in the order of the lock, whatever became of the callers |
| StoreQueue.LastWriteStays | src/auth.rs:848-896 | what a sequence of calls leaves is what the last successful write or removal made of it |
| StoreQueue.AnswerHasItsPlace | src/auth.rs:848-896 | each answer has one place in that order, and a reading is the latest successful write before it |
| StoreQueue.StartedCallComesFirst | src/auth.rs:869-877 | a started call takes effect before any call that starts later, even when its caller has gone |
| StoreQueue.AbandonedNeverRuns | src/auth.rs:853-857 | a call abandoned before it started never takes effect |
| StoreQueue.UnavailableWriteNeverRuns | src/auth.rs:878-896 | a write whose timeout is reported as unavailable has not happened and never will |
| StoreQueue.PendingWriteMayRun | src/auth.rs:878-896 | a write whose timeout is reported as pending has taken its place or is running |
| InstallationIdentity.CallersAgree | src/auth.rs:927-941 | all concurrent callers that get an identity get the stored one, with timeouts and cancellations anywhere |
| InstallationIdentity.MoveKeepsAgreed | src/auth.rs:927-941 | no move of caller or worker writes over an identity |
| UninstallPhases.StopIsSentOnce | src/bootstrap_uninstall.rs:1094-1123 | over any number of runs the stop request is sent at most once, and never while the journal still allows it |
| UninstallPhases.AttemptIsDurable | src/bootstrap_uninstall.rs:1094-1109 | the attempt is durable before every spawn; `Runner.RequestStop` is proved to save and spawn only so |
| UninstallPhases.JournalsFollow | src/bootstrap_uninstall.rs:822-1190 | phases never go back, the installation never changes, the device is bound at most once, and revocation facts are final |
| UninstallPhases.RevokedIsSatisfied | src/bootstrap_uninstall.rs:2161-2169 | every revoked or cleanup journal has a confirmed revocation, or reports that nothing was bound to revoke, and has captured the state |
| UninstallPhases.AbsenceRecorded | src/bootstrap_uninstall.rs:265-277 | a verified absence is recorded with everything that follows from it |
| UninstallPhases.NativeIsBound | src/bootstrap_uninstall.rs:265-294 | the identity that is bound is the one found in the native store and the one that was expected; where none was expected none may be found |
| UninstallPhases.LogoutIsBound | src/bootstrap_uninstall.rs:1141-1170 | a logout is recorded only for the bound owner, binds its device, and is kept as reported; a device is never reported as nothing to revoke |
| UninstallRun.Runner.RequestStop | src/bootstrap_uninstall.rs:1056-1123 | the phase stays; after a refused spawn, and only then, the journal says again that the request is to be made |
| UninstallRun.Runner.Revoke | src/bootstrap_uninstall.rs:1141-1170 | the native identity is bound or its absence verified before the phase becomes revoked |
| UninstallRun.Runner.Run | src/bootstrap_uninstall.rs:822-1190 | a run that comes to the cleanup meets its guard, with the state captured, and the service was asked to stop at most once in all runs |
| UninstallState.GoalIsExact | src/bootstrap_uninstall.rs:1917-2095 | the end state lacks exactly what is inventoried, the named files, the agent and the pointer, and keeps every other version, every other path and the lock file as they were |
| UninstallState.NamedFilesAreNotOwned | src/bootstrap_uninstall.rs:2264-2319 | no inventory can name the receipts, the helper, the socket or the lock file |
| UninstallState.OwnedLiesInOwnDirectories | src/bootstrap_uninstall.rs:2264-2319 | what may be deleted lies in one of the runner's four directories, under a name that the runner makes, and the directory it lies in may be deleted too |
| UninstallState.ReadyIsValid | src/bootstrap_uninstall.rs:161-243 | a resumable state passes the validation of its journal |
| UninstallState.ValidExactly | src/bootstrap_uninstall.rs:161-243 | validation fails exactly when the helper, a receipt or the owned list is not the recorded one, the target is not listed, or a version holds anything but its inventoried files |
| UninstallState.EntriesReadyExactly | src/bootstrap_uninstall.rs:2321-2380 | the state check fails exactly when an entry is listed twice, not owned, gone too early, or differs in kind, content, mode or links, or a listed directory holds something unlisted |
| FileTrees.InventoriedExactly | src/lifecycle.rs:5334-5425 | an inventory check fails exactly on an unlisted or changed file, anything that is no file, an unlisted directory, or a listed file that must be there |
| UninstallState.AllDone | src/bootstrap_uninstall.rs:2080-2088 | when every task is done only the terminal handover separates the disk from its goal |
| UninstallEffects.MakeMark | src/bootstrap_uninstall.rs:1978-1997 | a progress mark made in its place keeps the cleanup resumable and its goal fixed |
| UninstallEffects.Rename | src/bootstrap_uninstall.rs:1960-1971 | so does the rename of a whole version into the quarantine |
| UninstallEffects.EraseFromPayload | src/bootstrap_uninstall.rs:1985-2003 | so does any part of a marked deletion |
| UninstallEffects.EraseFromState | src/bootstrap_uninstall.rs:2381-2400 | so does any part of a marked state deletion, or of the named files |
| CleanupFacts.FilesThenDirectories | src/lifecycle.rs:5427-5441 | files first and directories deepest first never meets a directory that still holds something |
| FileTrees.SortDeepestFirst | src/lifecycle.rs:5417-5423 | a rearrangement with the deepest directories first |
| UninstallCleanup.Cleaner.RemoveExact | src/lifecycle.rs:5427-5441 | one unlisted or changed file, or unlisted directory, and nothing is removed; else all of it and the root |
| UninstallCleanup.Cleaner.RenameAside | src/bootstrap_uninstall.rs:1956-1977 | a version with a changed, missing or unlisted file, or in two places, is refused without effect; a whole one is moved |
| UninstallCleanup.Cleaner.DeleteQuarantined | src/bootstrap_uninstall.rs:1985-2003 | a quarantined version with anything but its own files is refused without effect; else it is deleted after its mark, from any interruption |
| UninstallCleanup.Cleaner.RemoveVersion | src/bootstrap_uninstall.rs:1952-2004 | one version goes, through both of its marks, and no other is touched |
| UninstallCleanup.Cleaner.CheckEntries | src/bootstrap_uninstall.rs:2321-2380 | accepts exactly when every listed entry is as captured in kind, content, mode and links, or gone after the mark, and nothing unlisted is inside |
| UninstallCleanup.Cleaner.RemoveStateEntries | src/bootstrap_uninstall.rs:2321-2402 | one entry changed in kind, content, mode or links, and nothing is removed; else only listed entries go, after the mark is durable, and no directory refuses |
| UninstallCleanup.Cleaner.Prepare | src/bootstrap_uninstall.rs:1923-1937 | before the revocation is satisfied, the store removed and all work over, nothing is removed |
| UninstallCleanup.Cleaner.RemoveStage | src/bootstrap_uninstall.rs:2009-2036 | a staged payload with anything but its own files is refused without effect; else it goes after its mark |
| UninstallCleanup.Cleaner.RemoveAgent | src/bootstrap_uninstall.rs:2034-2043 | a changed launch agent is refused without effect |
| UninstallCleanup.Cleaner.RemoveNamed | src/bootstrap_uninstall.rs:2046-2053 | a socket that is none and a receipt that is no file are refused without effect |
| UninstallCleanup.Cleaner.RemoveCurrent | src/bootstrap_uninstall.rs:2056-2071 | a pointer to another version is refused without effect |
| UninstallCleanup.Cleaner.RemoveReceipts | src/bootstrap_uninstall.rs:2072-2079 | without the recorded helper no receipt is removed |
| UninstallCleanup.Cleaner.RemovePayload | src/bootstrap_uninstall.rs:1937-2007 | all versions and the quarantine go, from any interruption |
| UninstallCleanup.Cleaner.HandOver | src/bootstrap_uninstall.rs:2080-2088 | the marker takes over from the journal without a gap |
| UninstallCleanup.Cleaner.FinishTerminal | src/bootstrap_uninstall.rs:2097-2159 | a run that finds only the marker passes its checks and finishes; a marker whose removals are undone is refused without effect |
| UninstallCleanup.Cleaner.Resume | src/bootstrap_uninstall.rs:822-835 | a journal that its files do not bear out is refused without effect; from every resumable state a run meets no refusal of its own but that nothing is left, and, unless interrupted, reaches the goal; without interruption it ends |
| UninstallCleanup.Cleaner.RunAgain | src/bootstrap_uninstall.rs:1917-2159 | over any number of interrupted runs the end is the one of an uninterrupted run, and an uninterrupted run gets there |
| UninstallCapture.Capture | src/bootstrap_uninstall.rs:2224-2262 | describes every candidate exactly, in kind, content and mode, or refuses when one of them is not owned, or no directory or file with a single link |
| UninstallCapture.CaptureIsReady | src/bootstrap_uninstall.rs:2224-2262 | a capture that holds every child of its directories passes the check of the deletion |
| UninstallCapture.FreshlyRevokedIsReady | src/bootstrap_uninstall.rs:1136-1172 | what the runs before the cleanup and the capture leave of a whole installation is resumable |
| Continuations.FirstWriterWins | src/continuation_resolution.rs:50-103 | however far apart, equal requests get the same receipt, any other is refused, and neither changes anything |
| Continuations.RowsArePermanent | src/continuation_resolution.rs:63-103 | no sequence of operations changes or removes a stored closure |
| Continuations.LedgerStaysSound | src/continuation_resolution.rs:63-281 | every stored closure is filed under its own candidate and key, and every terminal fact rests on a complete result |
| Continuations.FactsAreSound | src/continuation_resolution.rs:243-281 | an accepted terminal observation has a complete result for exactly its run |
| Continuations.BareTerminalIsRefused | src/continuation_resolution.rs:126-147 | a terminal snapshot without its result is never accepted |
| Continuations.AcceptedExactly | src/continuation_resolution.rs:243-281 | an observation is accepted exactly when it is of this run, complete, under a known status in its own spelling, and, if the run is over, with all of its result; it is kept as it was |
| Continuations.KeysTellApart | src/continuation_resolution.rs:63-76 | two candidates share a row exactly when kind, organization, account, installation and record agree |
| Continuations.MatchesMeansEqual | src/continuation_resolution.rs:105-124 | the ten fence fields agree exactly when the candidates are equal, absent fields included |
| Continuations.ResolvedMeansItStands | src/continuation_resolution.rs:149-241 | resolved exactly when the candidate is the one that was closed and the evidence of the receipt's kind is there, spelled out for each kind |
| Continuations.EvidenceNamesItsSuccessor | src/continuation_resolution.rs:204-236 | a superseded closure stands exactly when the tables hold the very successor it names, in the lineage of this record and generation, reached by an unbroken path, with the recorded receipt |
| Continuations.ResolvedHasItsReceipt | src/continuation_resolution.rs:149-185 | nothing resolves without a receipt and a request under UUIDs for this very candidate, whatever else is in the tables |
| Continuations.ChangedCandidateIsUnresolved | src/continuation_resolution.rs:149-241 | a candidate that changed in any field is unresolved again |
| Continuations.NewObservation | src/continuation_resolution.rs:243-281 | a later observation reopens exactly the terminal closures that rested on another one |
| Continuations.ObservationFailsOnlyForAnotherRun | src/continuation_resolution.rs:283-324 | a stored observation is rejected exactly when it is about another run of the same record |
| Continuations.ClosingOnItsObservationResolves | src/continuation_resolution.rs:63-241 | observing a terminal run and closing on that observation resolves it |
| Continuations.Ledger.Close | src/continuation_resolution.rs:63-103 | inserts the receipt once, hands it out only for the stored request, changes no other closure, and answers as the specification |
| Continuations.Ledger.Replay | src/continuation_resolution.rs:50-61 | returns the receipt of an equal request without closing anything |
| Continuations.Ledger.Observe | src/continuation_resolution.rs:243-281 | keeps the latest accepted observation, and answers as the specification |

## Left out

- The keychain, file locks, permissions and inode checks: the store is one cell, and exclusive ownership is a hypothesis of the theorems that need it.
- Cryptography: signatures, digests, random values and the PKCE challenge are free constructors.
- The text of RFC 3339 deadlines: an absolute expiry is an already parsed number of seconds.
- The clock reads a positive number of seconds; evidence confirmed at zero would not be valid.
- UUIDs are recognised in their hyphenated and plain spellings only; names are counted in characters, which for the ASCII names used is in bytes.
- HTTP: which status is retryable is the server oracle's choice; URLs, origins and headers are not modelled, and the offered authorization path stands for the browser URL.
- The callback listener, its pages and browser launching; a listener that cannot be bound is a failure before any effect.
- `organizations`: its write, which replaces the listed profiles, is a step of the histories, but the method and the parsing of the list are not modelled.
- `connection`, `status` and the other read-only projections, and the diagnostics attached to cleanup failures.
- The scope list of a denied grant, which the code copies unread, is kept only when it is a list of texts.
- InstallationIdentity.CallersAgree: other operations, which keep the identity of a stored record (`InstallationIdStable`), are not among the moves.
- UninstallRun.Runner.Run: `recover_old` enters only as its effect on the journal; synthetic test runs, process and service inspection, activation reporting and maintenance context files are the environment's.
- UninstallCleanup.Cleaner.Resume: the work owner's and the prior operation's temporary files are one flag each, and the copies kept as retirement evidence are not part of the disk; both removals are repeatable.
- UninstallCapture.FreshlyRevokedIsReady: that the captured list holds every child of its directories comes from the state inventory, which is not part of this model.
- Concurrent changes of the file system during a cleanup; a file still in use is an interruption.
- `maintenance_generation_path` and the follow tables are parameters of the ledger; schema fields that every writer sets to one constant are not modelled.
