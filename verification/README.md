# Annotation platform: model and proofs

This project models the business rules of the annotation platform in Dafny 4.11 and proves what they are for. A
transaction of the repository runs under row locks and rolls back when it raises, so each is one atomic step over the
tables. The steps are written twice: as functions over values (`TaskRows`, `Store`, `Sessions`), about which the theorems
are proved, and as methods of `Repository.AnnotationRepository`, which rewrite the tables row by row, loop over batches,
write partial states and roll them back, and are proved to do exactly what the functions say. What the functions themselves
compute is stated case by case in the outcome lemmas: which of its answers a command gets under which condition on account,
rows, clock and request, and what every row holds afterwards, without the functions.

| file | contents |
|---|---|
| `Common.dfy` | shared types, ascending id lists |
| `Segments.dfy` | dirty-segment edits, the timeline check, credited seconds |
| `Sessions.dfy` | session rows, fences, deadlines |
| `TaskRows.dfy` | the rows of one task and every change a transaction makes to them |
| `TaskInvariant.dfy` | what the rows of a task satisfy at all times |
| `TaskHistory.dfy` | immutability, edit histories, revoke and restore, credit, over sequences of changes |
| `Store.dfy` | all tables and every transaction as one step |
| `StoreInvariant.dfy`, `StoreAdmin.dfy` | the invariant of the store, kept by every transaction; deactivation |
| `StoreRuns.dfy`, `StoreSessions.dfy`, `StoreReplay.dfy`, `StoreRestore.dfy`, `StoreEffects.dfy` | theorems over whole runs |
| `WorkedRun.dfy` | one run from beginning to end, all of whose commands are accepted |
| `SessionOutcomes.dfy`, `StoreRequests.dfy`, `AdminOutcomes.dfy` | the answer to every command and the rows it leaves, case by case |
| `StoreLeases.dfy` | preprocessing leases and the store in one run |
| `CreditBounds.dfy` | credit of current versions against the length of the audio, over runs |
| `LegacyImport.dfy` | tasks, assignments and reservations taken over from the earlier system |
| `Repository.dfy` | the repository as a class over its tables |
| `ClaimSearch.dfy` | scopes, filters, the banded claim search, counts by scene |
| `ProcessingLease.dfy` | the preprocessing lease, removal of rejected audio |
| `Provenance.dfy` | source revisions, review chains, media identities |
| `Ingestion.dfy` | which task an audio file belongs to: identities, paths, aliases, placeholders |
| `ImportPlan.dfy` | planning a metadata import: verdicts, order, counters |
| `ImportApply.dfy`, `ImportReferences.dfy` | carrying an import out: acceptance, growth, idempotence, references |
| `LoginLimiter.dfy` | the sliding-window limit on failed admin logins |
| `AsrDispatch.dfy` | bounded dispatch of segments to the speech recogniser |

Modelling choices: identifiers are naturals drawn from a counter, so new ones are unused; hashes are taken as injective;
the clock is a natural number that does not decrease; seconds of audio are reals; "now" is constant inside a transaction;
cross-checks are disabled, so every submission has an ordinary submitter who is also the credited annotator. Partial unique
indexes (open draft of a task, task of an annotator, batch code, review number and so on) are columns of the model, and
their exactness is part of the invariants. The clock, the liveness of an admin session, the validity of a processing lease
inside `StorePreprocessedTask`, the answers of the recogniser, the order in which they arrive and the failures of file
operations are inputs.

Results that qualify what the code or its documentation suggests:

- A rejected fence stays rejected only because session ids are fresh: after a logout the generation starts again at 1, so a
  repeated id would revive its old fence (`Sessions.ReissuedIdRevivesFence`).
- The source-first id set is not the matching set for an open filter over all scenes, nor for a scope without access that
  still has codes stored; those are the only exceptions (`ClaimSearch.SourceFirstExactness`), and the search uses it for
  neither.
- Synchronising the same source records again is a no-op exactly when the list does not contain two different digests for
  one record (`Provenance.ResyncIsNoOp`).
- A metadata plan without errors can still refer to a missing admin action or batch when the document carries none of that
  kind and the mapping names the id, or to a later review as predecessor (`ImportReferences.ReferencesResolve` and the three
  examples beside it); the transaction then fails and rolls back, as it does when two records claim one key
  (`ImportApply.PlanIsAcceptedIff`). Planning again after an import is clean exactly when no batch's mapped id was taken by
  another batch of the import and no review was numbered zero: such a review is written as number one
  (`ImportApply.ImportIsIdempotent`, `ImportApply.MappedIdMayBeTaken`, `ImportApply.ZeroNumberIsNoticed`).
- Deactivation is final for everything the service and its admin commands do. Importing a manifest of the earlier system is
  the exception: it can give a deactivated account a current submission, a task or a reservation
  (`LegacyImport.ImportKeepsInv`, `LegacyImport.HandOverKeepsInv`, `LegacyImport.ReserveKeepsInv`). Manifests are also the
  only source of reservations, so over runs from an empty store the clauses about reservations hold because there are none.
- A media identity that comes with a different digest is not reported as a conflict: the conflict is caught and the task the
  identity is bound to is used (`Ingestion.IdentityDecides`). Processing, unlike importing, does not refuse a path that
  belongs to another task than the identity, and such a path keeps leading to the other task (`Ingestion.PathLeadsBack`,
  `Ingestion.PathOfAnotherTask`). Several tasks can have one alias, also after an import; which of them a lookup returns is
  then open (`Ingestion.ImportedPathLeadsBack`, `Ingestion.SharedAlias`). A result stored under such a path can reach another
  task than the leased one, and is refused there, because no other task accepts the token
  (`Ingestion.StoreReachesTheLeasedTask`).
- A rejected audio file can be away from its path without a committed rejection: after an interrupt between setting it aside
  and the commit, which no handler catches, and after a failure when it has disappeared or cannot be renamed back
  (`ProcessingLease.RejectedAudio.Finalize`, `ProcessingLease.InterruptsLoseAudio`). There is no other case.

## Model

| member | source | states |
|---|---|---|
| Segments.ApplyMeaning | annotation_repository.py:1445-1476 | a save succeeds iff its entries are well formed, distinct and existing; each named row then has its entry's times, text and mark, its length to the millisecond and the recogniser's text as before, every other row is untouched; otherwise the first entry that cannot be applied is reported |
| Segments.MergeDirtySegments | annotation_repository.py:1479-1500 | the in-memory merge fails on the same requests with the same error as the row-by-row update, and gives the same rows in the original order |
| Segments.ValidateTimeline | annotation_repository.py:1516-1528 | the neighbour-only check accepts iff no two rows at all overlap by more than the tolerance and all lie in the audio |
| Segments.SumTrainable | annotation_duration.py:22-29 | the loop over the rows adds up exactly the durations that are not excluded, whatever their order |
| Segments.CreditOfRows | annotation_duration.py:22-29 | an empty version is credited with nothing; one row more adds its duration, or nothing if it is excluded |
| Segments.CreditIsBounded | annotation_duration.py:22-33 | rows that pass the timeline check credit at most the audio's length plus 1.5 ms a row |
| Segments.EditsStayFaithful | annotation_repository.py:1503-1513 | accepted edits keep stored durations within rounding of the stored times, so the bound holds after every save |
| Sessions.RejectedFenceStaysRejected | annotation_repository.py:349-367 | no run of logins, takeovers, heartbeats, writes, logouts, deactivations and time lets a rejected fence pass again, if its session id is not drawn again |
| Sessions.ReissuedIdRevivesFence | annotation_repository.py:286-320 | with a repeated session id that fails, because the generation restarts after logout |
| Sessions.GenerationAloneFences | annotation_repository.py:286-320 | while the row is not deleted, the generation alone keeps an outdated fence out, even if ids repeat |
| Sessions.EntryReplacesTheSession | annotation_repository.py:527-702 | an entry has the only passing fence; a login displaces only an expired or unseen session, a takeover only the observed one |
| Sessions.RunKeepsAuthOk | annotation_repository.py:286-394 | in every run each row's idle deadline is min(last activity + idle, absolute), the absolute deadline is login + allowance, and only active accounts have rows |
| Sessions.AdmittedWritesAreInTime | annotation_repository.py:349-394 | no write is admitted after login + absolute or after last activity + idle |
| Sessions.DeadlinesWithinASession | annotation_repository.py:371-394 | within a session the absolute deadline does not move and passive heartbeats and resumes do not move the idle one |
| Sessions.IdleTimeoutIsNotEarly | annotation_repository.py:752-816 | an idle timeout never comes earlier than idle minus throttle after genuine activity, over any run |
| SessionOutcomes.LoginOutcome | annotation_repository.py:527-624 | without a session or past a deadline a login is let in, with the cookie of the live session it is resumed and only the time seen moves, over another's it takes over iff that one is unseen for the presence lease, else it is turned away |
| SessionOutcomes.TakeoverOutcome | annotation_repository.py:668-702 | a takeover replaces exactly the observed session, live or not |
| SessionOutcomes.HeartbeatOutcome | annotation_repository.py:752-816 | the reason of every refusal; otherwise the session is seen now, and only activity past the throttle moves the idle deadline |
| SessionOutcomes.LogoutOutcome | annotation_repository.py:721-749 | a logout removes the caller's own session and no other |
| SessionOutcomes.WriteOutcome | annotation_repository.py:349-394 | a write is admitted iff the fence is that of an active account's session inside both deadlines, which is then marked as used; the reason otherwise |
| TaskInvariant.MoveKeepsRows | annotation_repository.py:1021-1058 | every change keeps the lifecycle rules of a task's versions, assignment, blocks and audit rows |
| TaskInvariant.OneDraftOrOnePublished | annotation_repository.py:4382-4428 | a pending task has one open version and no published one; any other has one published version with the task's status, open only to its submitter's revision |
| TaskInvariant.RevokeSucceeds | annotation_repository.py:4651-4751 | on rows in order a revoke goes through iff the expected version is the annotator's current one and open work is absent or may be released |
| TaskInvariant.ResetKeepsRows | annotation_repository.py:4382-4510 | releasing a task's work never fails on rows in order, and leaves them in order |
| TaskInvariant.SubmitKeepsVersions | annotation_repository.py:1707-1724 | publishing supersedes every other published version and keeps inherited credit consistent along bases |
| TaskInvariant.RestoreKeepsRows | annotation_repository.py:4943-5050 | a restore whose checks pass leaves the task in order, the annotator unblocked |
| TaskHistory.ClosedWorkIsImmutable | annotation_repository.py:1707-1716 | over any sequence of changes a version that left draft keeps segments, credit, submitter and outcome |
| TaskHistory.VersionIsTheFoldOfItsEdits | annotation_repository.py:1548-1594 | a version is the fold of its accepted edits; its revision counts them, and the i-th was made against revision i |
| TaskHistory.PatchesKeepIdsAndRecognisedText | annotation_repository.py:1458-1476 | any number of human edits keep segment ids and recogniser text |
| TaskHistory.RestoreUndoesRevoke | annotation_repository.py:4877-5066 | whenever a restore is accepted, whatever lies between, the task is as just before the revoke |
| TaskHistory.RestorableIffUntouched | annotation_repository.py:4943-5014 | after a revoke and any changes, all the restore checks pass iff the clean draft is untouched, nobody holds the task and no claim came later: the checks on status, current version and revoked version never decide |
| TaskHistory.LegacyCreditIsConstant | annotation_duration.py:9-33 | along revisions of a version credited by audio length every submission, skips included, has that credit |
| TaskHistory.SubmissionCreditIsBounded | annotation_duration.py:22-33 | a submission's own credit is at most the audio's length plus 1.5 ms a row |
| StoreInvariant.OrdinaryStep | annotation_repository.py:1021-1283 | claim, save, complete, give-up, reopen, release by operator, preprocess and session commands keep the store's invariant and change one task by one checked move, or none |
| StoreInvariant.SetRowsKeepsHeld | annotation_repository.py:1029-1043 | the index on assigned annotators stays exact: one task per annotator, one annotator per task |
| StoreAdmin.RevokeStep | annotation_repository.py:4779-4874 | a revoke batch is carried out on all its tasks with distinct drafts, or not at all; other tasks are untouched |
| StoreAdmin.RestoreStep | annotation_repository.py:4877-5066 | a restore batch undoes the source revoke on all its tasks, or nothing changes |
| StoreAdmin.ReleaseStep | annotation_repository.py:5069-5149 | a release changes only its task, by one reset, and leaves no reservation |
| StoreAdmin.DeactivationGoesThrough | annotation_repository.py:5232-5361 | deactivating an active account meets no conflict: it succeeds iff the common admin checks pass and the account is active; everything it had submitted is pending again and blocked for it |
| StoreRuns.RunKeepsInv | annotation_repository.py:1021-1740 | every run of commands keeps the invariant of all tables |
| StoreRuns.ReachableStates | annotation_repository.py:4740-4751 | in every state reached from an empty store tasks are in order, nobody holds two tasks, and a blocked annotator is neither assignee nor current submitter |
| StoreRuns.ExplainRun | annotation_repository.py:1548-1740 | every run is, for each task, a sequence of checked moves whose edits are those of the accepted requests |
| StoreRuns.SubmittedWorkIsImmutable | annotation_repository.py:1707-1716 | no run of the store changes a submitted version's segments or credit |
| StoreRuns.NoLostUpdates | annotation_repository.py:1548-1594 | after any run a version holds the fold of the accepted edits in order, each made against a different revision |
| StoreRuns.RestoreUndoesRevokeInRuns | annotation_repository.py:4877-5066 | an accepted restore of any reachable revoke puts the task back, however many commands lie between |
| StoreRestore.RestoreIsAcceptedIff | annotation_repository.py:4877-5041 | a new restore of revoked tasks is accepted after any run iff the annotator is active and every clean draft is untouched, as a batch or not at all |
| StoreRestore.ClaimsStayPast | annotation_repository.py:4967-4975 | in every run no task records a claim for a time to come, new tasks none at all |
| StoreRestore.RevokeCanBeUndone | annotation_repository.py:4779-5066 | in every reachable state a revoke of an active annotator's work can be undone at once |
| WorkedRun.WorkIsRevokedAndPutBack | annotation_repository.py:4877-5066 | a run from the empty store in which storing, login, claim, submission, revoke and restore are all accepted, and the task is as before |
| StoreSessions.RejectedFenceStaysRejected | annotation_repository.py:349-367 | fence permanence over runs of all commands of the store |
| StoreSessions.AcceptedWritesAreFenced | annotation_repository.py:252-394 | in every reachable state a write is accepted only through the one live session of an active account, in time |
| StoreSessions.DeactivationIsFinal | annotation_repository.py:5256-5361 | after a deactivation no later run, restores included, gives the account a session, task, reservation or current submission |
| StoreReplay.CarriedOutOnce | annotation_repository.py:210-236 | repeating a carried-out request at any later time, through any session of its user, changes nothing and gives the stored response unless the session is refused |
| StoreReplay.AdminCarriedOutOnce | annotation_repository.py:4292-4347 | repeating a carried-out admin command changes nothing at any later time, even after the admin session has ended |
| StoreReplay.PreprocessKnownPath | preprocess_store.py:73-134 | a known path is refreshed iff unprotected, leased and asked for; otherwise nothing changes; the new-task fall-through is unreachable |
| StoreLeases.StoreOutcome | preprocess_store.py:56-175 | who may store segments under which token, and what becomes of rows and lease |
| StoreLeases.RefreshIsFenced | preprocess_store.py:73-134 | a refresh is accepted only under the live token of the task's lease, which is then spent, or without a token while nobody holds the lease |
| StoreLeases.HolderIsUndisturbed | annotation_metadata/processing.py:26-113 | in every run of lease calls and commands, while a token holds, no refresh has overwritten the task's recognised segments since the grant |
| StoreLeases.RefreshUnderTheOnlyToken | preprocess_store.py:73-134 | a refresh accepted in a run was made under the only live token, is the first since its grant, and the token never serves again |
| CreditBounds.CurrentCreditIsBounded | annotation_duration.py:22-33 | if recognised times are faithful, in every reachable state the current version's credit by segments, restored versions included, is at most the audio's length plus 1.5 ms a row |
| StoreReplay.PathsAreStable | preprocess_store.py:136-175 | an audio path keeps its task for ever |
| StoreEffects.AcceptedSave | annotation_repository.py:1548-1594 | an accepted save is by the holder, against the latest revision, and changes only the named rows of the working version |
| StoreEffects.AcceptedSubmission | annotation_repository.py:1649-1740 | an accepted submission becomes current under its annotator's name with its edits, a valid timeline and complete texts; the previous one is superseded |
| StoreEffects.GiveUpUndoesTake | annotation_repository.py:1335-1401 | giving up a fresh claim restores the task, reservation apart |
| StoreEffects.GiveUpUndoesRevise | annotation_repository.py:1975-2081 | a revision starts as a copy of the own submission, and giving it up leaves only an abandoned draft behind |
| StoreEffects.RevokeLeavesACleanCopy | annotation_repository.py:4382-4428 | what replaces a revoked version is the baseline without texts and marks |
| StoreEffects.ReleaseLeavesACleanCopy | annotation_repository.py:4382-4428 | so is what a release leaves on a pending task |
| StoreEffects.RefreshReplacesDraftAndBaseline | preprocess_store.py:114-134 | a refresh replaces draft and baseline alike and no other version |
| StoreRequests.EarlyOutcome | annotation_repository.py:210-236 | an implausible request is invalid, one without authoritative session refused; a used number gives the stored response to the same request of the same annotator, and a conflict to any other |
| StoreRequests.SaveOutcome | annotation_repository.py:1548-1594 | a save is refused without assignment, under another lease than the one in force, against another revision or for its first bad entry, and otherwise recorded; every table is stated |
| StoreRequests.CompleteOutcome | annotation_repository.py:1597-1740 | the same for a completion, which is also invalid if rows overlap, leave the audio or lack a text; credit and reasons are stated |
| StoreRequests.AbandonOutcome | annotation_repository.py:1335-1401 | a give-up needs the assignment and no other lease than its own; a revision's draft is dropped, an annotation's stays |
| StoreRequests.ReopenOutcome | annotation_repository.py:1975-2081 | who may reopen what; the revision is a copy of the submission with its outcome and reasons |
| StoreRequests.ClaimOutcome | annotation_repository.py:1164-1256 | a holder gets the own task again; otherwise the tried task is taken iff pending, eligible, nobody's, and neither closed to the annotator nor reserved for another |
| StoreRequests.OperatorReleaseOutcome | manage_state.py:1243-1297 | the operator gives back exactly what the annotator holds |
| StoreRequests.PreprocessOutcome | preprocess_store.py:26-175 | when segments are refused, put aside or stored, and the rows of a refreshed and of a new task |
| AdminOutcomes.EarlyOutcome | annotation_repository.py:4292-4347 | an improper command is invalid; a used number names its action to the same command of the same session and is a conflict otherwise; a new one needs a live session |
| AdminOutcomes.RevokeOutcome | annotation_repository.py:4779-4874 | a batch goes through iff every task's current submission is the named one, the annotator's, with no open work that may not be dropped, else the first obstacle is reported; the rows it leaves |
| AdminOutcomes.RestoreOutcome | annotation_repository.py:4877-5066 | a batch goes through iff the source is a revoke and every task is untouched, unclaimed and an active account's; the rows it leaves |
| AdminOutcomes.ReleaseOutcome | annotation_repository.py:5069-5149 | a release goes through iff somebody holds the task; the rows it leaves |
| AdminOutcomes.DeactivateOutcome | annotation_repository.py:5232-5361 | unknown and inactive accounts; otherwise account and session are gone and each task is left without what the annotator had to do with it, other people's as they were |
| LegacyImport.LegacyRowsOk | manage_state.py:567-682 | a task taken over from a legacy file obeys all lifecycle rules |
| LegacyImport.ImportOutcome | manage_state.py:567-682 | which files are refused; otherwise the new task's rows, credit, baseline and account |
| LegacyImport.HandOverOutcome | manage_state.py:739-785 | when an assignment entry fails, conflicts, is there already or hands the open version over |
| LegacyImport.ReserveOutcome | manage_state.py:787-797 | a reservation touches pending tasks only, and nothing but the reservation |
| LegacyImport.ImportKeepsInv | manage_state.py:539-682 | taking over a file keeps the store's invariant iff its submitter is not a deactivated account |
| LegacyImport.HandOverKeepsInv | manage_state.py:739-785 | a manifest assignment keeps the store's invariant iff the account is not deactivated, the annotator not blocked and the task not reserved |
| LegacyImport.ReserveKeepsInv | manage_state.py:787-797 | a manifest reservation keeps it iff the account is not deactivated, nobody holds the task and its draft was not made by a revoke |
| LegacyImport.TakingOverAgain | manage_state.py:567-573 | files taken over once are all skipped the next time, and nothing changes |
| LegacyImport.ImportThenExport | manage_state.py:870-940 | a file that is taken over and exported again is the same file |
| LegacyImport.ExportThenImport | manage_state.py:870-940 | exported work in order is taken over iff its stated credit is not negative, with the same status, rows, reasons, submitter and credit |
| LegacyImport.LegacyCreditOverRuns | annotation_duration.py:9-33 | legacy credit is passed on unchanged in every run |
| Repository.AnnotationRepository.LoginOrResume | annotation_repository.py:527-624 | the transaction does exactly the login step of the model and keeps the invariant |
| Repository.AnnotationRepository.ForceTakeover | annotation_repository.py:668-702 | the same for a takeover, undoing the account creation when refused |
| Repository.AnnotationRepository.SessionHeartbeat | annotation_repository.py:752-816 | the same for a heartbeat |
| Repository.AnnotationRepository.Logout | annotation_repository.py:721-749 | the same for a logout |
| Repository.AnnotationRepository.Claim | annotation_repository.py:1164-1256 | resuming or taking a task row by row is the model's claim |
| Repository.AnnotationRepository.ApplyDirtySegments | annotation_repository.py:1458-1476 | the in-place loop gives the rows of the specification, or its error with a partial state to roll back |
| Repository.AnnotationRepository.SaveDraft | annotation_repository.py:1548-1594 | saving with rollback on a bad row is the model's save |
| Repository.AnnotationRepository.SnapshotDuration | annotation_duration.py:4-37 | the guarded update freezes the specified credit iff the version is an uncredited draft |
| Repository.AnnotationRepository.PublishWorkingVersion | annotation_repository.py:1667-1724 | validating, freezing, superseding and publishing in turn gives the specified rows or refuses |
| Repository.AnnotationRepository.Complete | annotation_repository.py:1597-1740 | completing with rollback is the model's completion |
| Repository.AnnotationRepository.Abandon | annotation_repository.py:1335-1401 | giving up is the model's step |
| Repository.AnnotationRepository.OperatorRelease | manage_state.py:1243-1297 | the operator's release is the model's step |
| Repository.AnnotationRepository.ReopenCompleted | annotation_repository.py:1975-2081 | reopening is the model's step |
| Repository.AnnotationRepository.ReleaseTaskDraft | annotation_repository.py:4431-4510 | deleting the assignment and abandoning drafts one by one is the specified release |
| Repository.AnnotationRepository.CloneCleanDraft | annotation_repository.py:4382-4428 | the cleaned copy, or the specified conflict with nothing changed |
| Repository.AnnotationRepository.RevokeLockedTask | annotation_repository.py:4651-4776 | the revoke of one task in its separate updates is the specified one |
| Repository.AnnotationRepository.AdminRevoke | annotation_repository.py:4779-4874 | the batch loop with rollback is the model's revoke |
| Repository.AnnotationRepository.RestoreLockedTask | annotation_repository.py:4943-5050 | accepted iff all restore conditions hold; then the specified rows |
| Repository.AnnotationRepository.AdminRestore | annotation_repository.py:4877-5066 | the batch loop with rollback is the model's restore |
| Repository.AnnotationRepository.AdminReleaseAssignment | annotation_repository.py:5069-5149 | the admin release is the model's |
| Repository.AnnotationRepository.AdminDeactivate | annotation_repository.py:5232-5361 | ending the session, releasing, unreserving, revoking in order and closing the account is the model's deactivation |
| Repository.AnnotationRepository.StorePreprocessedTask | preprocess_store.py:26-175 | storing recognised segments is the model's step |
| ClaimSearch.ExistsIsLateral | annotation_metadata/queries.py:260-391 | the EXISTS form and the best-source join match the same tasks for every scope and filter |
| ClaimSearch.MatchIs | annotation_metadata/queries.py:260-391 | a task matches iff one current source has the batch, scene and confidence asked for in a scene of the scope, or the filter needs no source |
| ClaimSearch.SourceFirstExactness | annotation_metadata/queries.py:394-418 | the source-first id set is the matching set exactly under the stated condition on scope and filter |
| ClaimSearch.FetchClaimCandidate | annotation_metadata/claiming.py:324-440 | reserved-then-banded search finds the same task as the one-shot ordered query, for any locked tasks, scope, filter, user and policy |
| ClaimSearch.FoundTaskIsFirst | annotation_metadata/claiming.py:77-137 | a task is found iff one qualifies that nobody locks; it qualifies and goes before the others by reservation, confidence, allocation order and id |
| ClaimSearch.ClaimFromPool | annotation_repository.py:1084-1134 | refused iff the filter names a scene outside the scope; otherwise "empty" iff no unassigned task matches, "busy" iff all matches are locked, never without locks; a claimed task qualifies under scope and filter |
| ClaimSearch.RefusedMatchesNothing | annotation_metadata/claiming.py:44-50 | a filter refused for the scope matches no task |
| ClaimSearch.AllowedIffMatchable | annotation_metadata/queries.py:57-64 | a scene is allowed iff some task could match a filter by it under the scope |
| ClaimSearch.NoneOfferedUnlocked | annotation_metadata/claiming.py:77-137 | without locks the ordered query finds nothing iff the unassigned matching count is zero |
| ClaimSearch.CountIs | annotation_metadata/claiming.py:140-205 | the count shown is the number of tasks that qualify |
| ClaimSearch.SceneCounts | annotation_metadata/claiming.py:140-205 | the grouped count of every listed scene is the count a claim filtered by it alone would see |
| ClaimSearch.ReasonAgreesWithClaim | annotation_metadata/queries.py:462-480 | the pool is shown as available iff an unhindered claim gets a task, refused filters included |
| ClaimSearch.ReasonOutcome | annotation_metadata/queries.py:462-480 | what each of the reasons for an empty pool says about the tasks |
| ClaimSearch.FoundTaskIsClaimed | annotation_repository.py:1021-1081 | the task the search found is accepted by the claim transaction |
| ProcessingLease.TaskRow.AcquireProcessingLease | annotation_metadata/processing.py:26-52 | granted iff no live lease and the expected version fits; the token is new |
| ProcessingLease.TaskRow.CompleteProcessing | annotation_metadata/processing.py:90-113 | clears the lease only for its live holder |
| ProcessingLease.TaskRow.TryReleaseProcessingLease | annotation_metadata/processing.py:116-124 | true iff the caller held the live lease, which is then gone |
| ProcessingLease.LeaseOutcomes | annotation_metadata/processing.py:26-113 | when a lease is granted, renewed, honoured and cleared, and what the columns then hold |
| ProcessingLease.GrantLasts | annotation_metadata/processing.py:26-67 | a granted or renewed token holds exactly for the time asked for, whatever others call |
| ProcessingLease.OneHolderAtATime | annotation_metadata/processing.py:70-87 | at most one token passes the check at a time |
| ProcessingLease.LostStaysLost | annotation_metadata/processing.py:55-113 | a lapsed, completed or superseded token never renews, writes or completes again, in any run |
| ProcessingLease.HolderIsAlone | annotation_metadata/processing.py:26-52 | while a token holds, no other grant has happened since it was granted |
| ProcessingLease.ExpectedVersionIsUsedOnce | annotation_metadata/processing.py:36-37 | of workers that ask against one version at most one is ever granted the lease |
| ProcessingLease.TokenlessCallsAreHarmless | annotation_metadata/processing.py:79-82 | calls without a token never clear or bypass a live lease |
| ProcessingLease.RejectedAudio.Finalize | preprocess_store.py:178-243 | the file is away from its path without a recorded rejection iff an interrupt before the commit, its disappearance or a failing rename back lost it |
| ProcessingLease.InterruptsLoseAudio | preprocess_store.py:203-243 | such inputs; with no failing file operation only an interrupt does it |
| Provenance.NothingIsRewritten | annotation_metadata/repository.py:91-194 | in every run chains are 1..n with only the last current, neighbours differ, owners and digests stay, and no row is lost |
| Provenance.ResyncIsNoOp | annotation_metadata/ingestion.py:183-210 | taking in the same list again changes nothing iff it says one thing about each record |
| Provenance.SyncOutcomes | annotation_metadata/repository.py:148-194 | when evidence is refused, unchanged, or becomes the record's current revision, which is stated |
| Provenance.ReviewSays | annotation_metadata/repository.py:394-449 | a review is recorded iff it says something new, and is then the current one |
| Provenance.AttachOutcomes | annotation_metadata/repository.py:91-129 | another task or another digest is refused; a first digest is added |
| Provenance.MetadataRepository.SyncSourceRecord | annotation_metadata/repository.py:148-194 | the write is the specified one, refused iff another task owns the record |
| Provenance.MetadataRepository.AppendSceneReview | annotation_metadata/repository.py:394-449 | an equal or initially blank review changes nothing; any other is linked to the one it supersedes |
| Provenance.MetadataRepository.AttachIdentity | annotation_metadata/repository.py:91-129 | an identity stays with its task and its digest is written once |
| Ingestion.BeginIs | annotation_metadata/ingestion.py:308-398 | starting is refused iff the task is unprotected and under a live lease, and then changes nothing; otherwise the file is placed with its identity's task, the one its path leads to, or the one new placeholder, with a new lease unless protected |
| Ingestion.ImportIs | annotation_metadata/ingestion.py:548-625 | refused iff the path is another task's own than the identity's; otherwise bound and placed, at most one placeholder, no orphan |
| Ingestion.PathLeadsBack | annotation_metadata/ingestion.py:247-305 | after a start a lookup of the path can return the task iff no other task has it as its own path, and is certain to iff besides the path is the task's own or no other task's alias |
| Ingestion.ImportedPathLeadsBack | annotation_metadata/ingestion.py:554-625 | after an import a lookup can always return the task, and is certain to iff the path is the task's own or no other task's alias |
| Ingestion.SharedAlias | annotation_metadata/ingestion.py:273-305 | a state reached by imports in which an import and a start of the same path go ahead on one task while a lookup may return another |
| Ingestion.StoreReachesTheLeasedTask | annotation_metadata/ingestion.py:308-398 | in every run after a start that granted a lease, its token is accepted for no other task; a lookup of the returned path is certain to find the leased task, one of the given path iff that is the task's own or nobody else's own or alias |
| Ingestion.PathOfAnotherTask | annotation_metadata/ingestion.py:323-339 | a start with a known identity and another task's path goes ahead, where an import is refused |
| Ingestion.RunKeeps | annotation_metadata/ingestion.py:308-398 | in every run no task is lost or renamed, no alias forgotten, no identity rebound, no digest rewritten |
| Ingestion.IdentityDecides | annotation_metadata/ingestion.py:323-389 | after any run a call with a bound identity is about its task and makes no other; a different digest is neither recorded nor a reason to refuse |
| Ingestion.Intake.FindTaskForAudioPath | annotation_metadata/ingestion.py:273-305 | finds a task the path leads to: own path before alias before source record, none iff there is none |
| Ingestion.Intake.BeginAudioProcessing | annotation_metadata/ingestion.py:308-398 | the branches with their fallback and rollback are the specified transaction |
| Ingestion.Intake.ImportOneRecord | annotation_metadata/ingestion.py:548-625 | the same for the placing part of an import |
| ImportPlan.Planner.PlanImport | annotation_metadata/export_import.py:174-205 | the planner fails iff some record, core identity or mapping entry is wrong; its sorted insertions put batches, sources, predictions, actions and reviews in that order, and its counters count the insertions and the unchanged records |
| ImportPlan.FaultsFail | annotation_metadata/export_import.py:208-290 | the checks before the records fail iff a task, version or user is missing, two tasks end on one, a version is on another task, or a mapping entry names no record of a kind the document has |
| ImportPlan.BatchVerdict | annotation_metadata/export_import.py:292-321 | a batch is unchanged iff the row under its code, else under its mapped id, equals it; new iff neither is known; else wrong |
| ImportPlan.ActionVerdict | annotation_metadata/export_import.py:370-400 | the same for an admin action, whose operation must be free |
| ImportPlan.BatchOfSource | annotation_metadata/export_import.py:465-485 | where a source's batch is looked for, and in which order |
| ImportPlan.SourceVerdict | annotation_metadata/export_import.py:488-533 | a source present with other contents is wrong, an equal one unchanged, a new one inserted with its mapped task and batch unless its record has a current row |
| ImportPlan.PredictionVerdict | annotation_metadata/export_import.py:536-575 | the same for a prediction, which needs a version of its task |
| ImportPlan.ReviewVerdict | annotation_metadata/export_import.py:578-688 | the same for a review, which needs its references and its number free |
| ImportApply.ApplyImport | annotation_metadata/export_import.py:828-973 | the rows are written in order, or a constraint stops the import |
| ImportApply.PlanIsAcceptedIff | annotation_metadata/export_import.py:828-973 | planned rows are accepted iff each refers to rows present or inserted before it, no two claim one key, and a review numbered zero finds number one of its version free |
| ImportApply.RowsAddedAsPlanned | annotation_metadata/export_import.py:174-190 | a carried-out import adds to each table exactly the number the planner counted |
| ImportApply.ImportIsIdempotent | annotation_metadata/export_import.py:292-321 | planning again finds no error, nothing to insert and every record unchanged iff no batch's mapped id was taken by another batch and every inserted review had a number |
| ImportApply.MappedIdMayBeTaken | annotation_metadata/export_import.py:292-321 | a clean plan that is carried out and then conflicts with itself, because a batch known by code shares its mapped id with a new one |
| ImportApply.ZeroNumberIsNoticed | annotation_metadata/export_import.py:939-962 | the same for a review numbered zero, which is written as number one |
| ImportReferences.ReferencesResolve | annotation_metadata/export_import.py:488-688 | every row refers to rows present or inserted before it iff mapped-only batches and actions exist and predecessors have smaller numbers |
| ImportReferences.MappedBatchMayBeMissing | annotation_metadata/export_import.py:464-485 | a clean plan whose source refers to a batch that only the mapping explains and nobody inserts |
| ImportReferences.NamedActionMayBeMissing | annotation_metadata/export_import.py:627-640 | a clean plan that refers to an admin action nobody inserts |
| ImportReferences.PredecessorMayComeLater | annotation_metadata/export_import.py:578-616 | a clean plan whose review is inserted before its predecessor |
| LoginLimiter.AdminLoginLimiter.RateLimited | server.py:316-344 | the answer is the exact sliding-window count since the last clear unless the address's live entry was evicted within the window, and never stricter |
| LoginLimiter.AdminLoginLimiter.MakeRoom | server.py:321-335 | an unexpired entry is evicted only when the table is full of them, alone, and has the oldest last failure; other entries stay, lists stay non-empty and the table within 4096 |
| LoginLimiter.AdminLoginLimiter.ClearFailures | server.py:347-349 | forgets the address, its history and its evictions |
| LoginLimiter.RecordedTail | server.py:336-340 | pruning and recording keep the stored list the unexpired tail of all failures |
| AsrDispatch.Transcribe | preprocess.py:446-526 | in-flight bound, at-most-once requests in order, none after a refusal, each text is the answer's unless that is empty or an error report, eligible iff no answer is a refusal and every segment says something |
| AsrDispatch.FillSlots | preprocess.py:459-466 | starts requests only while a slot is free and no refusal has been taken in |
| AsrDispatch.StartKeepsTrace | preprocess.py:459-466 | a start keeps the bound, the order and the stop rule of the whole trace |

## Left out

- Cross-checks, sampling, adjudication and admin-edited versions (submissions without an ordinary submitter); the module `annotation_quality` is not part of this model.
- SQL text, isolation levels, lock waits, deadlocks and connection handling: each transaction is one atomic step.
- The web layer (routes, cookies, CSRF, streaming), dashboards, exports to spreadsheets, serializers and waveforms.
- Recognition itself: voice activity detection, audio decoding, the recogniser's client and its retries.
- Event tables beyond the time of a task's last claim, participants, version numbers, file names, extra JSON fields, assignment timestamps.
- Scene reviews inside save and complete: `Provenance.AppendReview` models the review chain on its own.
- The fields of admin summaries; an admin action keeps its operation, session, request and time.
- The order in which a batch's identifiers are sorted before it is processed: batches are given as lists without repeats.
- Reasons are trimmed of spaces, tabs and line ends only, and blank transcripts likewise; other Unicode white space is not modelled.
- Repository.AnnotationRepository.StorePreprocessedTask: the processing lease is a flag of the request here; its protocol is `ProcessingLease`, and the two are joined in `StoreLeases`. Path aliases and source rows as ways to find a task are in `Ingestion`.
- Repository.AnnotationRepository.Claim: the candidate is an argument; which task the search picks is `ClaimSearch`, and the link is `ClaimSearch.FoundTaskIsClaimed`. The re-check of a locked candidate and the 64 attempts collapse, because nothing changes within the atomic step.
- Usernames: accounts are identified by their ids, so the optional confirmation of a username is not modelled.
- LegacyImport.ImportKeepsInv: models one file, `LegacyImport.HandOver` and `LegacyImport.Reserve` one further entry of the manifest each; `LegacyImport.TakeOverAll` skips files already taken over, but the inventory and the rows of the batch are not modelled.
- LegacyImport.ImportThenExport: covers status, duration, category, people, credit, reasons and segments; waveforms, dates, audio and folder names, extra JSON fields and the quality fields are not modelled.
- ImportPlan.Planner.PlanImport: covers batches, sources, predictions, admin actions and reviews with every field filled in, where empty text counts as missing (a batch named "" is written under its code and no longer agrees with the document); import runs, media identities, path aliases, audit events, scopes, review labels and the values written for missing fields other than a review's number are not modelled. A task's sources are planned in document order, which affects neither references nor keys.
- ImportReferences.ReferencesResolve: assumes the structural checks made when the document is read (unique ids, known batches and predecessors) and that no two reviews are mapped onto one id; `ImportApply.PlanIsAcceptedIff` assumes neither.
- Ingestion.ImportIs: placing a record only; reading and copying audio, batches, import runs, the report of duplicate digests and the source rows written afterwards (`Provenance.MetadataRepository.SyncSourceRecord`) are not modelled, and paths are taken as already normalised. The lock on an identity makes the fallback for a lost race unreachable for new identities.
- Rounding of floating-point sums: seconds are reals, rounded to milliseconds only where the code rounds.
