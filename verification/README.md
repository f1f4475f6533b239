# Durable state and irreversible actions: a verified model

SessionPlane drives a chat provider whose actions cannot be taken back: a prompt is submitted, a
conversation deleted, a stop or retry button pressed. Its core may crash between any two durable
writes, and many clients call it. This project models the parts that keep such actions from being
repeated while the durable records keep telling the truth, and proves what they promise.

Verify with `dafny verify dfyconfig.toml`.

## What is modelled

* **Submissions** (`Storage`, `Submission*`). The tables of sessions, generations, outbox rows and
  reservations; one function per durable transaction; a state machine over them in which a crash
  is possible at every step, including between a transaction and the provider's `submitOnce`; the
  three startup passes. `SubmissionTheorems` holds the results over all runs, `SubmissionMeaning` what the
  transactions mean to one another, `SubmissionRequests` exactly which requests start,
  `SubmissionOutcomes` and `SubmissionFlows` what a submission leaves, `SubmissionDecisions` when every other
  operation is accepted, `SubmissionFinality` what ends a generation for good and `SubmissionRevival` which ended
  generations live again.
  `SubmissionService` is the same service as a class: tables it updates in place, transactions that roll back, and the
  startup loops, each method proved to do what its transaction says.
* **Pages** (`Page*`, `ProviderUrl`). The page table as a declarative rule (`PageRules`), every
  operation on it (`PageOperations`), all runs (`PageRuns`), when a page is given to a session (`PageGrants`),
  and the registry as a class whose loops compute the rule (`PageRegistry`). Conversation identities are read from URLs by the real parser.
* **Receipt-guarded actions** (`ConversationCleanup`, `CleanupReceipts`, `StopService`, `FollowupService`,
  `LoadRecovery`). Each writes its record before it acts; each is a state machine with crashes and
  a class with the sequential call. `StopRefinement` shows that the submission service does to a session
  what the stop service assumes, and `StopRuns` runs both on the same tables and session actors.
* **Handover** (`MaintenanceRuns`, `MaintenanceLeases`, `Maintenance`, `Client`, `Guardian`, `Bindings`). The admission
  lease with timers and polling, the client's retry loop composed with it, the freeze/kill-or-resume
  fence, and the check of page bindings across a restart.
* **Continuation and transfer** (`ContinuationChain`, `Transfer`, `CommandLine`). The backoff chain
  against its deadline, the verified chunked download with base64, and two small command-line
  languages.

Runs are sequences of events applied to a state. An event whose guard does not hold changes nothing,
so every sequence is a run, and a theorem over sequences is a theorem over all interleavings. What
the browser, the provider, the clock and the network do comes in as arguments of events and methods.

## Where the code does less than it says

* A client request identity is usable again after its team was deleted, because team deletion
  removes outbox rows. "At most once per request" therefore holds exactly up to that deletion:
  `RepeatNeedsTeamDeletion`, `SendStartsExactlyWhen`, and the run in
  `RequestRepeatedAfterTeamDeletion`.
* A provider's definite refusal completes the deletion receipt without a deletion, so another
  request deletes again: `AttemptedExactlyWhenUnlatched` and `RefusedIsAskedAgain`.
* A confirmed stop can be undone: a resumption looks at its request before it waits for the session's
  actor. If it saw an authorized successor failed, and the successor is approved again and stopped in
  between, the resumption replays it as failed, and its authorization may be repeated. This is the only
  way (`StoppedLivesAgainExactlyWhenReplayWaits`, `StopIsFinal`); it happens (`StoppedSuccessorIsReopened`)
  and leads to a second gesture (`UnsentSuccessorIsStoppedAgain`), and there is no second one without a
  waiting resumption (`OnceUnlessAsked`). Exactly when a generation can be gestured at again, and exactly
  when an ended generation lives again, say `StopRuns.GesturedAgainExactlyWhen` and
  `LivesExactlyWhenLiveOrRevivable`. All this needs an adapter that confirms a stop. None of those in the
  repository does: they answer `unknown` or throw (`src/providers/chatgpt/adapter.ts:676-696`,
  `src/providers/provider-dom-runtime.ts:666-677`), and for them each generation gets at most one gesture
  (`UnconfirmedMeansOnce`).
* The follow-up's comment that a human edit is never overwritten does not hold for an edit that falls
  between reading the draft and the preparation's write, between that write and the send, or between the
  restoration's last look at the composer and its write: such an edit is lost, and no other is
  (`ForeignTextIsLostExactlyWhenEdited`, `EditBeforeWriteIsLost`, `RacingEditIsLost`).
* The skip-ahead search for a command-line argument misses one whose text overlaps itself after a
  space, and only then: `FindsEveryArgumentExactlyWhen`.
* A reused download is checked against the declared digest only, so a success has the declared size
  exactly when it was not reused or the existing file has that size (`Transfer.Disk.Download`); a reply
  with any other size is accepted (`WrongSizeIsReused`).
* The second startup pass replaces the reason of a preparation cancelled by its caller with the general
  one, because a cancelled row keeps no result: exactly when it does so says
  `ReasonIsReplacedExactlyWhen`, and `CancelledReasonIsReplaced` and the run in `CancellationIsForgotten`
  show it. A second run of the pass then changes nothing.

## Model

| member | source | states |
|---|---|---|
| SubmissionTheorems.SubmittedAtMostOnce | src/core/submission-service.ts:743-809 | In every run with crashes, replays, resumed and reopened preparations and restart passes, `submitOnce` is called at most once for every outbox row, and two calls for one client request imply that the first one's row has been deleted |
| SubmissionTheorems.RepeatNeedsTeamDeletion | src/core/submission-service.ts:511-572 | Two calls for the same request have a team deletion between them: a step of the run that removes the row of the first call |
| SubmissionTheorems.RowLostByTeam | src/storage/team-repository.ts:129-139 | The row of a call disappears only in a step that deletes its team |
| SubmissionWitness.RequestRepeatedAfterTeamDeletion | src/storage/team-repository.ts:129-139 | A concrete run in which the same client request reaches the provider twice, because deleting the team removes outbox rows while receipts stay |
| SubmissionRequests.SendStartsExactlyWhen | src/core/submission-service.ts:1861-1949 | In every reachable state `send` adds a row and starts its submission if and only if the session is idle, has its role, no deletion of its conversation was attempted, no row answers for the request, and the session is new, ready, complete, failed and reconciled, or cancelled for a follow-up or for the continuation of exactly this request; the new row, generation and session are as stated, and nothing else changes |
| SubmissionRequests.RepeatedSendReplaysExactlyWhen | src/core/submission-service.ts:511-560 | A repeated `send` replays the row that answers if and only if its payload is the same, it is no authorized successor and its session is idle; else it writes nothing |
| SubmissionRequests.AcceptedExactlyWhenFree | src/core/submission-service.ts:1870-1882 | In a consistent store the busy check and `advanceGeneration` together let exactly these requests through |
| SubmissionRequests.NewRowsWereRequested | src/core/submission-service.ts:1861-1949 | Every row a step of any run adds was requested in that step by an allowed `send`, or as the only successor of an unresolved original |
| SubmissionRequests.GenerationsAreRequested | src/core/submission-service.ts:1883-1890 | Whatever step raises the generation of a session raises it by one, for a row requested in that step, in a session that has its role and no attempted deletion of its conversation |
| SubmissionRequests.NoPromptIntoDeletion | src/core/submission-service.ts:1883-1886 | Over every run no generation starts in a session without its role or with a conversation whose deletion was attempted |
| SubmissionRequests.ApprovalBeginsExactlyWhen | src/core/submission-service.ts:937-990 | An approval is let in if and only if its session is idle, has its role and its page, and either the original is current and unresolved or its own reserved successor failed before it was sent |
| SubmissionRequests.SuccessorIsAddedExactlyWhen | src/core/submission-service.ts:996-1036 | An approval that was verified adds a successor if and only if the original is not reserved on this route, still current and unresolved, and its session has its role, its page and no attempted deletion; the successor waits for its caller and the reservation names it |
| SubmissionRequests.UnresolvedExactlyWhen | src/core/submission-service.ts:1056-1070 | The original is unresolved if and only if its session has not ended, nothing is completed, and it is ambiguous, or acknowledged without an answer; a follow-up also needs the conversation and, of an acknowledged one, that the continuation was lost; its prompt was then sent |
| SubmissionRequests.RepeatedApprovalReopensExactlyWhen | src/core/submission-service.ts:951-995 | A repeated approval adds no row and reopens its own successor, to be inspected again, if and only if that one failed before it was sent and is current |
| SubmissionFlows.SubmissionLeaves | src/core/submission-service.ts:639-811 | An uninterrupted submission in the state machine leaves the same tables as the method: the acknowledged message, turn, conversation and page, or the reported reason or error, and calls the provider exactly when the page was opened and prepared |
| SubmissionFlows.TurnIsUninterrupted | src/core/submission-service.ts:743-784 | From the filled composer to the call nothing comes between but a crash: every other event is refused |
| SubmissionFlows.OthersTakeEffectExactlyWhen | src/scheduler/actor-scheduler.ts:167-231 | Every other operation takes effect exactly when its session is idle, and routing and deletions exactly outside a turn |
| SubmissionFlows.AcknowledgementRecords | src/core/submission-service.ts:2060-2128 | Whatever other sessions did since the call, the acknowledgement is recorded as it was given, and always |
| SubmissionFlows.AmbiguityRecords | src/core/submission-service.ts:2276-2349 | Likewise a missing acknowledgement, with the reason reported; a session that has ended stays so |
| SubmissionFlows.PreparationRecords | src/core/submission-service.ts:1750-1805 | Likewise a pause, which tells cooldown from decision, and a failure before submission with its error |
| SubmissionFlows.ResumesExactlyWhen | src/core/submission-service.ts:842-866 | A preparation runs again if and only if it waits for its caller in an idle session and needs no inspection |
| SubmissionFlows.ReplaysExactlyWhen | src/core/submission-service.ts:813-840 | A resumption waits to replay exactly a row that was settled or attempted when it looked, and then replays what the row has become |
| SubmissionFlows.ReloadBeginsExactlyWhen | src/core/submission-service.ts:1430-1500 | A reload begins exactly on the page of the current generation of an idle session, and remembers exactly what it may reopen |
| SubmissionFlows.ReloadEnds | src/core/submission-service.ts:1500-1531 | What it remembered is reopened if and only if it still is a failed request of the current generation |
| SubmissionOutcomes.PreSubmitPassLeaves | src/core/submission-service.ts:161-213 | The first pass keeps a waiting preparation for inspection, fails every other prepared or filled request of a live session as interrupted for want of a browser, and writes nothing else |
| SubmissionOutcomes.SubmissionPassLeaves | src/core/submission-service.ts:297-311 | The third pass makes exactly the attempted requests ambiguous, as interrupted after the attempt |
| SubmissionDecisions.CancelsExactlyWhen | src/core/submission-service.ts:1653-1656 | A preparation can be cancelled if and only if it waits for its caller, and leaves exactly the failed request |
| SubmissionDecisions.InspectsExactlyWhen | src/core/submission-service.ts:1533-1592 | An inspection reopens exactly a request that failed for want of a browser, if asked to, clears the mark of a waiting one, and else throws |
| SubmissionDecisions.ReloadReopensExactlyWhen | src/core/submission-service.ts:1460-1499 | A reload may reopen exactly a failed request of a ready session, after its duplicates were reconciled, or for want of a browser after a crash |
| SubmissionDecisions.ReplayLeaves | src/core/submission-service.ts:2365-2416 | A replay makes exactly an attempt ambiguous and fails exactly a preparation nobody decides any more |
| SubmissionDecisions.RecoversExactlyWhen | src/core/submission-service.ts:337-470 | Recovery binds exactly an ambiguous request of a live session with a page to the message, turn and conversation it was given, on a message the session does not know |
| SubmissionDecisions.ContinuesExactlyWhen | src/core/submission-service.ts:1149-1237 | A continuation retires exactly an acknowledged, unanswered turn of a live, routed session with page and conversation; a reconciled time-out needs no write |
| SubmissionDecisions.FailureIsReconciledExactlyWhen | src/core/submission-service.ts:1346-1428 | A failure is reconciled exactly for an acknowledged turn of a live session that shows an alert or timed out |
| SubmissionDecisions.FollowupIsReconciledExactlyWhen | src/core/submission-service.ts:1280-1342 | A follow-up retires exactly a sent turn of a live session, acknowledged and unanswered unless it is a recovery; the session then takes the next request if and only if the turn was not answered |
| SubmissionDecisions.StopIsRecordedExactlyWhen | src/core/stop-service.ts:159-183 | A stop is recorded exactly for the current generation, whatever it has come to |
| SubmissionDecisions.AnswerIsRecordedExactlyWhen | src/core/observation-service.ts:388-392 | A final answer is recorded exactly of an acknowledged turn that is live or was answered before |
| SubmissionDecisions.ProgressIsRecordedExactlyWhen | src/core/observation-service.ts:338-357 | Progress is recorded exactly of an acknowledged turn of a live session |
| SubmissionDecisions.PageIsRecordedExactlyWhen | src/core/recovery-service.ts:769-806 | Page recovery keeps exactly the diagnosis of an ended, ambiguous or failed request when it found no error, and gives an unsent request only a page it had or that of its conversation |
| SubmissionDecisions.RetirementEndsExactlyUnsent | src/storage/session-repository.ts:495-502 | Retiring a role ends its session if and only if nothing was sent and it has not ended |
| SubmissionDecisions.SuccessionEndsExactlyUnsent | src/core/team-directory.ts:307-355 | A replacement session starts empty with the role, and its predecessor ends under the same condition |
| SubmissionDecisions.TrackingEndsExactlyWhen | src/storage/session-repository.ts:463-493 | Tracking is given up, and taken up again, exactly for a sent turn that is not completed |
| SubmissionTheorems.RepeatedSendStartsNothing | src/core/submission-service.ts:512-524 | Repeating a request starts no submission and adds no row, and once its outcome is recorded it writes nothing |
| SubmissionTheorems.CallsOnlyWhileAttempted | src/core/submission-service.ts:757-784 | Every call is made for a row that is durably `submit_attempted` with its prompt flag set, and never made before for that row |
| SubmissionTheorems.CallIsAttempted | src/core/submission-service.ts:757-784 | At the call the row's generation is current and says `submit_attempted` too |
| SubmissionTheorems.NeverTakenBack | src/core/submission-service.ts:2131-2145 | Once a row is attempted it stays attempted, unknown or submitted for ever, submitted is final, and its identity never changes |
| SubmissionTheorems.DeletedForGood | src/storage/outbox-repository.ts:51-75 | A deleted row never comes back |
| SubmissionTheorems.RowsAgree | src/core/submission-service.ts:1962-2019 | At every crash point the outbox row and its generation agree on state and prompt flag, and the flag holds exactly in attempted, submitted and unknown |
| SubmissionTheorems.GenerationsAgree | src/core/submission-service.ts:1905-1937 | The same for every generation, because each was inserted together with its outbox row |
| SubmissionTheorems.OneUnsettledRequest | src/core/submission-service.ts:1870-1884 | A session has at most one prepared, filled or attempted request, it belongs to the current generation, and requests of older generations are settled |
| SubmissionTheorems.OlderGenerationsSettled | src/core/submission-service.ts:1870-1884 | Every generation that is not current is settled |
| SubmissionTheorems.OneAuthorizedSuccessor | src/core/submission-service.ts:937-1036 | An unresolved original gets at most one authorized successor in total, over the resend and the follow-up route, at any two moments of any run |
| SubmissionTheorems.PassesNeverThrow | src/core/submission-service.ts:161-311 | In every reachable state of startup no listed row can make a pass throw |
| SubmissionTheorems.StartupSettles | src/main.ts:292-305 | When startup ends, no live current generation is filled or attempted, and each of the three passes would change nothing on any row |
| SubmissionRecovery.PreSubmitPassSettles | src/core/submission-service.ts:161-213 | The first pass commits on every row, keeps the tables consistent and leaves the row settled |
| SubmissionRecovery.DiagnosticsPassSettles | src/core/submission-service.ts:215-295 | The second pass commits on every row, makes the session tell what the row recorded, and undoes nothing of the first pass |
| SubmissionRecovery.SubmissionPassSettles | src/core/submission-service.ts:297-311 | The third pass turns an interrupted attempt into an unknown outcome and undoes nothing of the earlier passes |
| SubmissionRecovery.DoneMeansUnchanged | src/core/submission-service.ts:161-311 | A settled row is left exactly as it is by each pass |
| SubmissionRecovery.DoneKept | src/core/submission-service.ts:161-311 | What a pass did to one row survives the passes over all others |
| SubmissionSafety.StepKeepsInv | src/core/submission-service.ts:611-880 | Every step of the state machine, a crash at any point included, keeps the invariant and moves the history only forward |
| SubmissionSafety.CallIsNew | src/core/submission-service.ts:779-784 | A new call is for a row never called before, and for a request whose earlier row is gone |
| SubmissionInvariants.PairedSound | src/core/submission-service.ts:1976-1993 | A committed pair of generation update and row transition keeps both tables consistent and moves no other session's rows |
| SubmissionTransactions.FillComposerSound | src/core/submission-service.ts:743-756 | Recording the filled composer keeps the tables consistent and only leads from prepared to filled |
| SubmissionTransactions.AttemptSubmitSound | src/core/submission-service.ts:757-777 | Recording the attempt keeps the tables consistent and only leads from filled to attempted |
| SubmissionTransactions.CompleteSubmittedSound | src/core/submission-service.ts:2060-2128 | Recording an acknowledgement keeps the tables consistent |
| SubmissionTransactions.RecordUnknownSound | src/core/submission-service.ts:2276-2349 | Recording an ambiguous outcome keeps the tables consistent, provided the attempt is durable |
| SubmissionTransactions.FailPreSubmitSound | src/core/submission-service.ts:2131-2209 | A failure before submission, or after it as an ambiguous outcome, keeps the tables consistent |
| SubmissionTransactions.RecordInterruptedSound | src/core/submission-service.ts:2211-2274 | Recording an interrupted preparation keeps the tables consistent |
| SubmissionTransactions.RecordPreparationRequiredSound | src/core/submission-service.ts:1750-1805 | Pausing for a caller's decision keeps the tables consistent |
| SubmissionTransactions.TerminalizePreparationSound | src/core/submission-service.ts:1807-1840 | Cancelling a preparation keeps the tables consistent |
| SubmissionTransactions.ReplaySound | src/core/submission-service.ts:2365-2416 | Replaying a request keeps the tables consistent |
| SubmissionTransactions.ReopenSound | src/core/submission-service.ts:1558-1566 | Reopening a failed preparation keeps the tables consistent and never touches an attempted request |
| SubmissionTransactions.ReopenSuccessorSound | src/core/submission-service.ts:951-995 | Repeating an authorization reopens only its own successor's proven pre-submit failure |
| SubmissionTransactions.PreparationSound | src/core/submission-service.ts:1594-1711 | A recorded choice and a cancelled preparation keep the tables consistent |
| SubmissionTransactions.InspectPreparationSound | src/core/submission-service.ts:1533-1592 | Inspecting a preparation, and recovering its browser failure, keeps the tables consistent |
| SubmissionTransactions.BeforeRefreshSound | src/core/submission-service.ts:1430-1500 | Marking a preparation for inspection before a reload keeps the tables consistent |
| SubmissionTransactions.AfterRefreshSound | src/core/submission-service.ts:1500-1531 | Reopening after a reload keeps the tables consistent, whatever was read before it |
| SubmissionTransactions.PersistPageSound | src/core/submission-service.ts:1952-1960 | Persisting the page changes no outbox row |
| SubmissionTransactions.RecoverAcknowledgementSound | src/core/submission-service.ts:337-470 | Promoting an ambiguous request on provider evidence keeps the tables consistent |
| SubmissionTransactions.PrepareContinuationSound | src/core/submission-service.ts:1149-1237 | Retiring a turn for an approved continuation keeps the tables consistent |
| SubmissionTransactions.ReconcileFollowupSound | src/core/submission-service.ts:1280-1342 | Reconciling a manual follow-up keeps the tables consistent |
| SubmissionTransactions.ReconcileFailureSound | src/core/submission-service.ts:1346-1428 | Reconciling a failed turn keeps the tables consistent |
| SubmissionTransactions.AcceptedIsSettled | src/core/submission-service.ts:1870-1884 | Every session the busy check and `advanceGeneration` let through has settled its current generation |
| SubmissionTransactions.PrepareOutboxKeeps | src/core/submission-service.ts:1851-1949 | Preparing a request adds exactly one row and one generation and keeps the tables consistent |
| SubmissionTransactions.PrepareSuccessorKeeps | src/core/submission-service.ts:996-1036 | Preparing an authorized successor adds exactly one row for the next generation and reserves it |
| SubmissionTransactions.CompleteStopSound | src/core/stop-service.ts:159-221 | Cancelling a stopped generation keeps the tables consistent |
| SubmissionTransactions.ObserveSound | src/core/observation-service.ts:322-392 | An observer's progress and its final answer keep the tables consistent |
| SubmissionTransactions.RecordPageStateSound | src/core/recovery-service.ts:769-806 | Page recovery keeps the tables consistent |
| SubmissionTransactions.RetireRoleSound | src/core/team-directory.ts:238-263 | Retiring a role keeps the tables consistent |
| SubmissionTransactions.RetireDeletedSound | src/storage/session-repository.ts:254-259 | Retiring a deleted conversation keeps the tables consistent |
| SubmissionTransactions.TrackingSound | src/storage/session-repository.ts:463-493 | Retiring and restoring an observation keep the tables consistent |
| SubmissionTransactions.CreateSessionKeeps | src/core/team-directory.ts:307-355 | A replacement session keeps the tables consistent and touches no row or generation |
| SubmissionTransactions.DeleteTeamKeeps | src/storage/team-repository.ts:129-139 | Deleting a team keeps the tables of the others consistent and unchanged |
| SubmissionFinality.StopIsFinal | src/core/stop-service.ts:159-183 | A recorded stop that nothing could undo is final over every later run until its team is deleted: the generation is never live again, and after a sent prompt the session takes no other request |
| SubmissionRevival.StoppedLivesAgainExactlyWhenReplayWaits | src/core/submission-service.ts:813-840 | In every reachable state, a stopped generation can become live again while its team exists if and only if it is an authorized successor, neither sent nor failed, its session still has its role and a page that can be found, and a resumption that saw it failed waits behind the stop |
| SubmissionRevival.LivesExactlyWhenLiveOrRevivable | src/core/submission-service.ts:930-990 | In every reachable state, the current generation of an idle session is live in some later run if and only if it is live now or has ended unsent with a failed preparation that can be reopened or an authorization that can be repeated; then a run of this session alone makes it so |
| SubmissionRevival.SentNeverLivesAgain | src/storage/session-repository.ts:463-493 | A generation whose prompt was sent and that has ended is never live again: no answer, failure, continuation, deletion or abandoned tracking is taken back |
| SubmissionRevival.NothingToRestore | src/storage/session-repository.ts:463-482 | In every reachable state of a store written by this service, the restoration of retired sessions at startup selects no row |
| SubmissionRevival.RevivesFailed | src/core/submission-service.ts:1533-1592 | A preparation that failed for want of a browser, in a ready session, is live after its page was found and inspected |
| SubmissionRevival.RevivesDuplicate | src/core/recovery-service.ts:418-478 | A preparation that failed on a page that could not be told from a duplicate is live after the duplicates were reconciled and the page reloaded |
| SubmissionRevival.SuccessorRevives | src/core/submission-service.ts:941-990 | An authorized successor that failed in a ready, routed session, or is retired and waits to be replayed, is live after its authorization was repeated |
| SubmissionRevival.EndedStaysDead | src/core/submission-service.ts:161-1087 | What is neither live nor revivable never lives again |
| SubmissionFinality.StepStaysFinished | src/core/submission-service.ts:161-1087 | No step of the service, of its observers, of routing or of startup takes such an end back |
| SubmissionFinality.StepKeepsOriginals | src/core/submission-service.ts:937-1036 | An authorized successor and its original stay in one session and with one client |
| StopRefinement.SessionMovesAsAssumed | src/storage/session-repository.ts:379-461 | Whatever any step of the submission service does to a session is a change the stop service allows for |
| StopRefinement.OnlyRetiredMeanwhile | src/storage/session-repository.ts:495-502 | While another operation holds the session's actor, the others leave the session as it is or retire it unsent |
| StopRefinement.StopIsRecorded | src/core/stop-service.ts:159-183 | A recorded stop makes of the session exactly what the stop service records |
| SubmissionWitness.StoppedSuccessorIsReopened | src/core/submission-service.ts:813-840 | A concrete run from an empty store: an authorized successor fails, is approved again while a resumption waits, is stopped before it was sent, replayed by the resumption, and live again after its authorization was repeated |
| SubmissionRecovery.ReasonIsReplacedExactlyWhen | src/core/submission-service.ts:215-295 | The second pass replaces the reason of a failed generation if and only if it is current and not ended, a failure is recorded, and the reason is not the one stored with the row, or the general one where none is stored |
| SubmissionRecovery.CancelledReasonIsReplaced | src/core/submission-service.ts:1807-1840 | After a cancelled preparation the second pass replaces the caller's cancellation with the general reason |
| SubmissionWitness.CancellationIsForgotten | src/core/submission-service.ts:1807-1840 | A concrete run from an empty store: the caller cancels a preparation, and after a restart it is told as a failure |
| SubmissionService.Service.UpdateCurrentGeneration | src/storage/session-repository.ts:379-461 | The update fails unless the generation is current, and otherwise writes exactly the given fields |
| SubmissionService.Service.TransitionRow | src/storage/outbox-repository.ts:145-178 | Compare-and-set on the submission state |
| SubmissionService.Service.WritePair | src/core/submission-service.ts:1976-1993 | Both writes happen, or the rollback leaves every table as it was |
| SubmissionService.Service.WritePairWithSnapshot | src/core/submission-service.ts:2069-2104 | The same, with the updated session's snapshot stored as the result |
| SubmissionService.Service.RunPreparedSubmission | src/core/submission-service.ts:639-811 | The submission calls the provider exactly when the page opened and was prepared, and leaves row, generation and session exactly as its result calls for: message, turn, conversation and page of the acknowledgement, or the reported reason or error, or a pause that tells cooldown from decision |
| SubmissionService.Service.AttemptAndRecord | src/core/submission-service.ts:743-809 | Filled, attempted, called and recorded in this order, so that the call's requirement of a durable attempt is met; the three tables together become what one write of the result would have made of them |
| SubmissionService.Service.RecordSubmissionUnknown | src/core/submission-service.ts:2276-2349 | The method does what the transaction says, and nothing when it is refused |
| SubmissionService.Service.FailPreSubmit | src/core/submission-service.ts:2131-2209 | The method does what the transaction says, and nothing when it is refused |
| SubmissionService.Service.RecoverInterruptedPreSubmissions | src/core/submission-service.ts:161-213 | The loop leaves no row the first pass would still touch |
| SubmissionService.Service.ReconcileOutboxDiagnostics | src/core/submission-service.ts:215-295 | The loop leaves no row the second pass would still touch, and undoes nothing |
| SubmissionService.Service.RecoverInterruptedSubmissions | src/core/submission-service.ts:297-311 | The loop leaves no row any pass would still touch |
| SubmissionService.Service.UpdateGeneration | src/scheduler/actor-scheduler.ts:167-231 | A terminal generation keeps its session state |
| SubmissionService.Service.ListByStates | src/storage/outbox-repository.ts:129-143 | Exactly the rows in the given states are listed |
| SubmissionService.Service.StartCore | src/main.ts:292-305 | After the three passes in startup order every row is settled for all of them |
| SubmissionMeaning.FailureFreesTheSession | src/core/submission-service.ts:2131-2209 | A failure before submission leaves no trace of a turn, can be reopened, and frees the session for another request |
| SubmissionMeaning.FailedIsReopenableWhenReady | src/core/submission-service.ts:1716-1731 | In a consistent store a failed request of the current generation is reopenable if and only if its session is ready |
| SubmissionMeaning.ReopenedAwaitsDecision | src/core/submission-service.ts:1558-1566 | A reopened request waits for its caller again, with or without a fresh inspection, and keeps its session busy |
| SubmissionMeaning.ReopenThenCancel | src/core/submission-service.ts:1807-1840 | Reopening and cancelling a failed preparation gives it back but for its error and diagnosis |
| SubmissionMeaning.AcknowledgementIsRecorded | src/core/submission-service.ts:2069-2104 | An acknowledged request is bound to exactly the provider's identities, replays the snapshot recorded with it, and keeps its session busy |
| SubmissionMeaning.RecoveryBindsANewMessage | src/core/submission-service.ts:337-500 | Acknowledgement recovery never throws, promotes exactly an ambiguous live current request on a message its session does not know, and never takes a message twice |
| SubmissionMeaning.AmbiguityIsHeld | src/core/submission-service.ts:2276-2349 | An ambiguous attempt of a live session keeps it busy and replays the snapshot recorded with it |
| SubmissionMeaning.AmbiguityMayBeResent | src/core/submission-service.ts:1056-1073 | It is what a duplicate-risk approval may resend |
| SubmissionMeaning.AmbiguityKeepsTheEnd | src/core/submission-service.ts:2293-2299 | Recording an ambiguity never reopens a session that has ended |
| SubmissionMeaning.ContinuationOpensForItsSuccessor | src/core/submission-service.ts:1870-1884 | After an approved continuation the session accepts the request that continues exactly that one, and no other |
| SubmissionMeaning.FailureReconciliationOpens | src/core/submission-service.ts:1870-1884 | A reconciled failure opens the session to any request |
| SubmissionMeaning.StopClosesTheSession | src/core/stop-service.ts:166-183 | A stopped generation leaves a session that accepts no request |
| SubmissionMeaning.AnswerOpensTheSession | src/core/observation-service.ts:411-429 | A final answer is kept and opens the session to any request |
| PageRegistry.Registry.ReconcileConflicts | src/browser/page-registry.ts:541-586 | The four loops leave exactly the table of the declarative rule |
| PageRegistry.Registry.GroupActive | src/browser/page-registry.ts:549-557 | The grouping loop lists every conversation of an open page once, with its open pages in registration order |
| PageRegistry.Registry.MarkGroup | src/browser/page-registry.ts:560-583 | Marking one group leaves every other page as it was |
| PageRegistry.SortGroup | src/browser/page-registry.ts:564-568 | The sort yields the same pages, bound pages first, then by registration |
| PageRegistry.Registry.RegisterPage | src/browser/page-registry.ts:113-161 | Registration of a known page changes nothing, of a new one appends it and reconciles |
| PageRegistry.Registry.RefreshPage | src/browser/page-registry.ts:202-219 | A refresh records the URL read, bumps the epoch exactly when it changed, and reconciles |
| PageRegistry.Registry.BindPage | src/browser/page-registry.ts:221-269 | A page is bound if and only if it is open, shows the requested conversation as the only open page, and is free for this session, generation and conversation; it is then owned there. A refusal keeps only what the refresh recorded |
| PageRegistry.Registry.ReservePage | src/browser/page-registry.ts:356-400 | A page is reserved if and only if it is open, nobody else's, and alone at the requested conversation or at none |
| PageRegistry.Registry.ReserveUnknownConversationCandidate | src/browser/page-registry.ts:272-285 | It is reserved if and only if it is open, nobody's, the retained target, and alone at some conversation |
| PageRegistry.Registry.BindVerifiedRedirect | src/browser/page-registry.ts:301-327 | A redirect is accepted if and only if it leads the session's own page from a temporary identity, or none yet, to the permanent one it shows alone; the page is then owned there |
| PageRegistry.Registry.ReserveRedirectCandidate | src/browser/page-registry.ts:329-354 | Only an unowned page, alone at the permanent identity it shows, is reserved; its identity is then to be verified |
| PageRegistry.Registry.ReconnectCrashedPage | src/browser/page-registry.ts:170-192 | The crashed page of a session goes on under a new page object and epoch if and only if nothing its snapshot recorded has changed and the object is open, unknown and at the same URL |
| PageRegistry.Registry.UnbindPage | src/browser/page-registry.ts:402-411 | Unbinding clears the ownership and reconciles |
| PageRegistry.Registry.CloseContext | src/browser/page-registry.ts:58-64 | Closing a context closes its open pages one after the other |
| PageRegistry.Registry.MarkClosed | src/browser/page-registry.ts:529-539 | A page is closed once, and the others are reconciled |
| PageRegistry.Registry.CountAt | src/browser/page-registry.ts:424-428 | The count of open pages at a conversation |
| PageRegistry.Registry.RequireSessionPage | src/browser/page-registry.ts:476-522 | A page is handed out exactly when the refreshed record grants it; it is then open, belongs to the session, and is the only open page at the conversation the session expects |
| PageRules.ConflictRule | src/browser/page-registry.ts:541-595 | An open page is in conflict if and only if another open page has its conversation, and otherwise in its base state |
| PageRules.ConflictOwnerIsLeast | src/browser/page-registry.ts:564-581 | The named owner is the least of the group by bound first, then registration order, and the whole group names it |
| PageRules.DuplicatesAreTheGroup | src/browser/page-registry.ts:573-582 | The named duplicates are exactly the other open pages at the conversation |
| PageRules.OwnedIsExclusive | src/browser/page-registry.ts:541-595 | An owned page is the only open page at its conversation |
| PageRules.RankedIsSorted | src/browser/page-registry.ts:564-568 | The ranking holds exactly the open pages at the conversation, in comparator order |
| PageRules.SortedIsUnique | src/browser/page-registry.ts:564-568 | A list sorted by the comparator is determined by its members |
| PageOperations.ReconciledSettles | src/browser/page-registry.ts:541-586 | Reconciling changes no identity and leaves nothing to reconcile |
| PageGrants.BindsExactlyWhen | src/browser/page-registry.ts:221-269 | The condition and every error of a binding, in terms of the table before and of what the browser shows, and the page and all others afterwards |
| PageGrants.ReservesExactlyWhen | src/browser/page-registry.ts:356-400 | The same for a reservation |
| PageGrants.ReservesUnknownExactlyWhen | src/browser/page-registry.ts:272-285 | The same for a retained target |
| PageGrants.BindsRedirectExactlyWhen | src/browser/page-registry.ts:301-327 | The same for a verified redirect |
| PageGrants.ReservesRedirectExactlyWhen | src/browser/page-registry.ts:329-354 | The same for a redirect candidate |
| PageGrants.RedirectIsReservedThenBound | src/browser/page-registry.ts:301-354 | A redirected page that is nobody's can be reserved and then bound, and not bound first |
| PageGrants.RefreshRecords | src/browser/page-registry.ts:202-219 | A refresh records the URL and its conversation, starts a new epoch exactly when the URL is another one, and changes no owner |
| PageGrants.RegisterLists | src/browser/page-registry.ts:113-161 | A new page is listed last, nobody's and in its first epoch; a known one changes nothing |
| PageGrants.UnbindFrees | src/browser/page-registry.ts:402-411 | An unbound page is nobody's, and free exactly if open and alone at its conversation |
| PageGrants.SessionIsGivenByAGrant | src/browser/page-registry.ts:221-400 | Whatever step makes a page a session's is a granting call for it whose condition holds |
| PageGrants.OwnersWereGranted | src/browser/page-registry.ts:221-400 | Over every run a page that became a session's was given to it by such a call |
| PageRuns.StepKeeps | src/browser/page-registry.ts:113-411 | Every operation and browser event keeps the table equal to the rule |
| PageRuns.TableIsReconciled | src/browser/page-registry.ts:541-595 | After every run the table equals the rule, and an owned page is exclusive |
| PageRuns.EpochNamesUrlAndPage | src/browser/page-registry.ts:170-219 | Two moments with the same epoch for a page key have the same URL and the same page object; closed pages stay closed |
| PageRuns.SessionChangesOnlyByUnbinding | src/browser/page-registry.ts:221-411 | A page passes from one session to another only through an unbinding of that page |
| ProviderUrl.ParsePrinted | src/core/recovery-service.ts:814-830 | For every provider, every base URL on its hosts and every valid identity, the printed URL parses back to the identity |
| ProviderUrl.ShownExactlyWhen | src/browser/page-binding.ts:42-116 | A page shows an identity if and only if it follows the last marker of its own provider in the path, wherever that is, and has that provider's form |
| ProviderUrl.SegmentsOfJoined | src/browser/page-binding.ts:55-59 | Splitting a path gives back its segments |
| ProviderUrl.ParsedIsValid | src/browser/page-binding.ts:82-116 | A parsed identity is one the page's own provider could have issued |
| ProviderUrl.DecodeEncode | src/core/recovery-service.ts:819-819 | Percent-encoding a component and decoding it gives the text back |
| ProviderUrl.ParseHref | src/browser/page-binding.ts:42-62 | Printing a parsed URL and parsing it again gives the same URL |
| MaintenanceLeases.GrantedExactlyWhenAsked | src/core/maintenance.ts:39-65 | A lease is granted exactly to a call that asks within the bounds while there is none; it lasts the time asked, with one timer, and is ready at once exactly if judged with nothing running |
| MaintenanceLeases.JudgedExactlyWhen | src/core/maintenance.ts:39-74 | While it is held, it is judged only by its holder or its own `prepare`, and only a renewal moves its expiry, to thirty seconds on |
| MaintenanceLeases.EndsExactlyWhen | src/core/maintenance.ts:29-96 | It ends exactly by its timer at the expiry, a resume, a failed commit, an expired `prepare` or a callback that found it ready |
| MaintenanceLeases.ExitsExactlyWhen | src/core/maintenance.ts:89-96 | The process exits exactly on a commit of the live, ready lease with nothing running |
| MaintenanceLeases.RunsUntilReleased | src/core/maintenance.ts:17-22 | An operation runs exactly from its admission to its own release |
| MaintenanceLeases.PauseAlwaysEnds | src/core/maintenance.ts:60-62 | From every reachable pause, letting the expiry come and the pending timer fire admits operations again |
| MaintenanceRuns.ExitIsSafe | src/core/maintenance.ts:89-96 | A commit that exits has no admitted operation, holds the live lease it names, and no callback has run since readiness |
| MaintenanceRuns.PausedIsComplete | src/core/maintenance.ts:6-16 | Paused holds if and only if token, expiry, aborted read waits and exactly one pending timer are present |
| MaintenanceRuns.LeaseEndsOnlyByItself | src/core/maintenance.ts:29-96 | No step replaces one lease by another, and a lease ends only by its own timer, resume, commit or `prepare`, or by a callback that found it ready |
| MaintenanceRuns.NoAdmissionWhilePaused | src/core/maintenance.ts:17-27 | No operation is admitted while a lease is held |
| MaintenanceRuns.StepKeepsInv | src/core/maintenance.ts:17-96 | Every interleaving keeps the lease invariant |
| Maintenance.CoreMaintenance.Enter | src/core/maintenance.ts:17-22 | Admission, refused exactly while paused |
| Maintenance.CoreMaintenance.Quiesce | src/core/maintenance.ts:39-52 | A new or renewed lease, judged ready or draining |
| Maintenance.CoreMaintenance.BeginPrepare | src/core/maintenance.ts:53-65 | `prepare` up to its first poll |
| Maintenance.CoreMaintenance.Poll | src/core/maintenance.ts:66-78 | One turn of the drain loop; it reports ready only with nothing admitted, its own lease and time left |
| Maintenance.CoreMaintenance.Resume | src/core/maintenance.ts:80-87 | Resuming is refused for a stale token |
| Maintenance.CoreMaintenance.Commit | src/core/maintenance.ts:89-96 | The check and the exit are one step |
| Client.CallTransport | src/cli/client.ts:73-100 | The loop goes on exactly after an attempt the gate refused, one that wrote nothing in a waiting read or after a refusal, or a lost connection in a waiting read, if it ended before the time allowed since the latest refusal, or else since the first attempt; it reports how the last one ended. However often it goes on, the body of a method that is not a waiting read starts at most once, and a lost answer is never followed by another write |
| Client.AdmittedExactlyWhenNotPaused | src/rpc/router.ts:84-93 | After any history of a core, a new operation joins those it started if and only if no lease is held |
| Client.AttemptIsTruthful | src/cli/client.ts:102-211 | One attempt settles once, writes its request at most once, and reports truly whether it wrote it |
| Client.EndsExactlyWhen | src/cli/client.ts:122-211 | Which event ends an attempt, and how, and exactly when its request is written |
| Client.BodyStartsExactlyWhen | src/rpc/router.ts:84-93 | The body of a request runs if and only if its method is exempt or no lease is held |
| Client.RefusalIsSurvived | src/cli/client.ts:82-92 | A concrete handover: a refused attempt, then an answered one, which is the last |
| Guardian.NeverLeftFrozen | scripts/ops/handover.py:319-351 | When the guardian has run to its end the core runs, was killed or died; it is not left stopped |
| Guardian.KilledOnlyUnderGuard | scripts/ops/handover.py:337-343 | The core is killed only on a command read before the deadline, after the guard passed, and it took no step since the guard looked |
| Guardian.CommittedMeansGone | scripts/ops/handover.py:356-362 | `commit()` returns normally only when the old core is gone |
| Guardian.CommitTellsExactly | scripts/ops/handover.py:356-362 | When its reply is read or given up, `commit()` returns normally if and only if the core is gone |
| Guardian.AbandonedCoreRuns | scripts/ops/handover.py:330-351 | A parent that goes away without a command leaves a core that runs again |
| Guardian.HandsOverExactlyWhen | scripts/ops/handover.py:309-366 | With nobody in between, the old core is killed and the commit returns if and only if it is the core meant, runs, is frozen before the deadline and passes the guard |
| Guardian.NoGuardNoKill | scripts/ops/handover.py:309-366 | Without a passed guard the core is never killed |
| Guardian.GuardianAlwaysEnds | scripts/ops/handover.py:330-351 | Past the deadline the guardian's own next steps end with the core resumed, killed or dead |
| Bindings.VerifyBindings | scripts/ops/handover.py:70-96 | The loop accepts exactly what the declarative condition accepts |
| Bindings.AcceptedExactlyWhen | scripts/ops/handover.py:70-96 | A handover is accepted if and only if every page is read back with its target and conversation, and with the same owner, a later durable generation of it, or as an alias taken over by a durable owner of the same target |
| Bindings.Reflexive | scripts/ops/handover.py:70-96 | An unchanged snapshot is accepted |
| Bindings.Transitive | scripts/ops/handover.py:70-96 | Two accepted handovers are one accepted handover, if the middle adds no page key and durable requests only grow |
| Bindings.ChainAccepted | scripts/ops/handover.py:70-96 | So is any number of them |
| Bindings.OwnerBefore | scripts/ops/handover.py:78-87 | An owner in the middle, itself perhaps a recovered alias, stands for an owner before |
| Bindings.AddedPageBreaksTheChain | scripts/ops/handover.py:77-87 | Without that condition the chain can fail: concrete snapshots |
| ConversationCleanup.DeletedAtMostOnceUnlessRefused | src/core/conversation-cleanup-service.ts:505-527 | For one conversation, over all clients, request ids, replays and crashes, the provider is asked to delete again only after it refused every earlier time |
| ConversationCleanup.AttemptedExactlyWhenUnlatched | src/storage/receipt-repository.ts:89-97 | A new request goes on to the deletion if and only if no attempted or deleted receipt exists for the conversation |
| ConversationCleanup.RefusedIsAskedAgain | src/core/conversation-cleanup-service.ts:523-527 | "At most once" fails after a refusal: a concrete run with two calls |
| ConversationCleanup.RecordedDeletionIsReal | src/core/conversation-cleanup-service.ts:516-541 | A recorded deletion, and a replacement's confirmed cleanup, imply that the provider confirmed or showed it |
| ConversationCleanup.ReplayedReplacementKeepsItsSuccessor | src/core/conversation-cleanup-service.ts:157-209 | A recorded replacement names the same successor for ever, and its cleanup moves only from uncertain to confirmed |
| ConversationCleanup.PreservingNeverDeletes | src/core/conversation-cleanup-service.ts:231-295 | A preserving replacement is recorded if and only if no deletion of the conversation is latched, so every earlier call was refused; in every later run it stays preserved with nothing to confirm |
| CleanupReceipts.ReceiptTells | src/core/conversation-cleanup-service.ts:516-541 | In every run a complete receipt says exactly whether the conversation was deleted; if not, the provider refused |
| CleanupReceipts.EntersExactlyWhen | src/core/conversation-cleanup-service.ts:427-505 | A deletion is let in to look at its conversation exactly by its own receipt without an outcome, with no latching receipt, or by a latching one of the same owner without an outcome |
| CleanupReceipts.ReplacementTellsExactly | src/core/conversation-cleanup-service.ts:306-331 | A destructive replacement says not attempted, confirmed, refused or uncertain exactly as the receipt of its deletion, or one that latches the conversation, says it, and has something to confirm exactly when its own deletion has no outcome |
| CleanupReceipts.ReplayConfirmsExactlyWhen | src/core/conversation-cleanup-service.ts:165-190 | Its replay confirms the cleanup exactly when that deletion was recorded as done |
| ConversationCleanup.StepKeepsInv | src/core/conversation-cleanup-service.ts:427-557 | Every step, a crash included, keeps the latch invariant |
| ConversationCleanup.CleanupService.Delete | src/core/conversation-cleanup-service.ts:427-557 | The method answers by its own receipt, the session, another receipt and the state of the work, in this order; it reaches `deleteOnce` exactly when nothing latches the conversation, and leaves the receipt its answer calls for |
| ConversationCleanup.CleanupService.FindConversationDeletion | src/storage/receipt-repository.ts:89-97 | A latching receipt is found if and only if there is one |
| StopService.StoppedAtMostOnce | src/core/stop-service.ts:107-157 | A generation gets at most one gesture; only a confirmed stop that could still be undone when it was asked for is ever followed by another |
| StopService.UnconfirmedMeansOnce | src/core/stop-service.ts:144-150 | In every run in which no answer confirms a stop, each generation gets at most one gesture |
| StopService.NeverGesturedAgain | src/core/stop-service.ts:107-157 | A generation whose stop is unconfirmed, or that has ended for good, never gets another gesture |
| StopService.GesturedExactlyWhenLive | src/core/stop-service.ts:113-148 | A new request reaches the gesture if and only if it names no other generation, the generation is live and no stop of it is unconfirmed; its attempt is then recorded first |
| StopService.CompletedExactlyWhenConfirmed | src/core/stop-service.ts:147-221 | The answer to a gesture completes its receipt and cancels its generation if and only if it confirms the stop of the current one |
| StopService.UnavailableRecordsExactlyEnded | src/core/stop-service.ts:135-145 | Without a control a receipt is written if and only if the generation ended meanwhile |
| StopService.CompletedOnlyWithCancellation | src/core/stop-service.ts:159-218 | An attempted receipt becomes complete only in the step that cancels its generation |
| StopRuns.RunRefines | src/core/stop-service.ts:107-218 | Every run of both services together, on the same tables and the same session actors, is a run of the stop service |
| StopRuns.StoppedAtMostOnce | src/core/stop-service.ts:107-157 | The same for runs of both services together |
| StopRuns.OnceUnlessAsked | src/core/stop-service.ts:107-157 | Over all runs of both services in which no resumption waits for the actor, each generation gets at most one gesture |
| StopRuns.GesturedAgainExactlyWhen | src/core/stop-service.ts:107-157 | In every reachable state of both services together, the current generation of an idle session gets a gesture in some later run if and only if no stop of it is unconfirmed and it is live or revivable |
| StopWitness.UnsentSuccessorIsStoppedAgain | src/core/stop-service.ts:107-157 | A concrete run of both services from an empty store with two gestures at one generation: the first stop is confirmed and undone |
| StopService.Service.StopLocked | src/core/stop-service.ts:107-157 | The method makes the gesture exactly when the guards pass, records it first, completes the receipt with the generation it cancels unless that was overtaken, and records a generation that ended while no control was available |
| StopService.Service.HasUnconfirmedStop | src/core/stop-service.ts:98-105 | An attempted receipt of the generation is found if and only if there is one |
| FollowupService.SentAtMostOnce | src/core/session-ui-service.ts:354-387 | One receipt key sends at most once, and a stored `dispatched` of false means nothing was sent |
| FollowupService.DraftIsKept | src/core/session-ui-service.ts:355-367 | The draft that was read is durable before the first editor change |
| FollowupService.DraftNeverChanges | src/core/session-ui-service.ts:355-367 | The stored draft never changes |
| FollowupService.RestoredMeansSeen | src/core/session-ui-service.ts:389-410 | A completed run that reports the draft restored saw exactly the original text in the composer |
| FollowupService.ForeignTextIsLostExactlyWhenEdited | src/core/session-ui-service.ts:375-396 | The preparation, the send and the restoration replace a text other than the backed-up draft, an empty composer, the literal prompt or what they had left there if and only if the human put such a text there after the service had read the draft, looked at the composer to restore it, or written it, whichever came last |
| FollowupService.EditBeforeWriteIsLost | src/providers/chatgpt/submission.ts:825-858 | In every state from which the service writes next, any such edit is lost |
| FollowupService.RacingEditIsLost | src/core/session-ui-service.ts:375-396 | Both happen: a concrete run loses an edit to the preparation and one to the restoration, and reports the draft restored |
| FollowupService.UndisturbedCall | src/core/session-ui-service.ts:304-414 | With nobody else at the composer a call of the state machine does what the method does: refused without a trace, or one verified send and the draft written back exactly where it may be |
| FollowupService.FollowupCall.Continue | src/core/session-ui-service.ts:304-414 | One call sends only without an earlier receipt, refuses a draft that is not its prepared prompt without a trace, writes the composer back exactly when it is empty or holds the literal prompt, and reports the draft restored exactly with it in the composer |
| LoadRecovery.ClicksAreCounted | src/core/conversation-load-recovery.ts:179-197 | Over all sweeps, recoveries, reviews and crashes, clicks never exceed the persisted attempts, which never exceed 100 |
| LoadRecovery.ExhaustedClicksNoMore | src/core/conversation-load-recovery.ts:179-179 | After a hundred clicks there is never another |
| LoadRecovery.Sweeper.ObservePages | src/core/conversation-load-recovery.ts:131-155 | The observing loop does what one observation after the other does, counts no attempt and clicks nothing |
| LoadRecovery.Sweeper.TakeTurn | src/core/conversation-load-recovery.ts:171-198 | A turn clicks at most once, only below the limit and with the attempt persisted, gives it back only when it did not click, and says exactly what it saw |
| LoadRecovery.ObservationTells | src/core/conversation-load-recovery.ts:141-155 | An observation starts a record exactly at a load error and says what the page shows; an exhausted conversation stays so until it is rendered |
| LoadRecovery.SelectsExactlyWhen | src/core/conversation-load-recovery.ts:159-163 | A sweep selects exactly a conversation still waiting, held or being attempted, one at a time |
| LoadRecovery.TurnTells | src/core/conversation-load-recovery.ts:171-198 | In the state machine a turn says and counts the same as the method |
| ContinuationChain.ChainIsBounded | src/core/thinking-failure-recovery.ts:116-130 | The backoffs of a chain of n continuations together are shorter than the time from its start to its deadline; for n of at least 6 that is 63000 + 60000(n-6) ms |
| ContinuationChain.ChainFits | src/core/thinking-failure-recovery.ts:129-130 | Along a chain root and deadline are constant and the attempt is the position |
| ContinuationChain.ContinuesExactlyWhen | src/core/thinking-failure-recovery.ts:92-136 | In every run a failed request is continued if and only if it is still current, its configuration is known, its backoff has passed and its deadline has not, its chain is not paused and the page shows the failure; the chain is paused exactly when evidence, deadline or page speak against it |
| ContinuationChain.ChainGoesOn | src/core/thinking-failure-recovery.ts:92-136 | A concrete run in which a failed request is continued a second after its failure |
| ContinuationChain.OneSuccessor | src/core/thinking-failure-recovery.ts:131-136 | A failed request has at most one automatic successor |
| ContinuationChain.TotalBackoffGrows | src/core/thinking-failure-recovery.ts:119-119 | The closed form of the total backoff |
| ContinuationChain.StepKeepsInv | src/core/submission-service.ts:1890-1899 | Every send, failure and continuation keeps the chain's links |
| ContinuationChain.PausedChainStops | src/core/thinking-failure-recovery.ts:45-57 | Once a chain is paused, no later run adds a request to it |
| ContinuationChain.Recovery.Continue | src/core/thinking-failure-recovery.ts:92-136 | The method continues exactly when pause, failure, configuration evidence, deadline, backoff, the inspected page and absence of a successor allow it, and pauses the chain where the source throws |
| Transfer.Disk.Download | src/cli/remote-artifacts.ts:15-46 | Against any replies the output is either complete with the declared size and digest or left as it was; an existing output is reused if and only if the first reply describes the artifact, no overwrite was asked for and the digests agree, and a success has the declared size if and only if it was not reused or the existing file has it; against the core's own `read` it is the stored bytes |
| Transfer.WrongSizeIsReused | src/cli/remote-artifacts.ts:20-23 | A reply under which a file of any other size than the declared one is delivered as the artifact |
| Transfer.Disk.ReceiveAll | src/cli/remote-artifacts.ts:32-41 | The chunk loop ends with all bytes and the right digest, or fails |
| Transfer.Disk.WriteAll | src/cli/remote-artifacts.ts:36-37 | Partial writes add up to the chunk |
| Transfer.HonestChunk | src/core/artifact-service.ts:235-247 | What the core's `read` answers decodes to the next stored bytes, and to at least one |
| Transfer.DecodeEncode | src/core/artifact-service.ts:245-245 | Every byte sequence survives base64 (RFC 4648, section 4) |
| Transfer.Store.StoreContent | src/core/artifact-service.ts:354-380 | Stored content has the digest it is stored under, and is never rewritten |
| CommandLine.ContainsArgument | src/browser/browser-owner.ts:1415-1427 | The loop computes the skip-ahead search |
| CommandLine.FindsEveryArgumentExactlyWhen | src/browser/browser-owner.ts:1415-1427 | The search finds exactly the arguments of every command line if and only if the word does not overlap itself after a space; words without spaces qualify |
| CommandLine.FoundIsArgument | src/browser/browser-owner.ts:1424-1424 | Whatever the word, what the search finds is an argument |
| CommandLine.SkippedArgumentOverlaps | src/browser/browser-owner.ts:1425-1425 | An argument inside a skipped occurrence makes the word overlap itself after a space |
| CommandLine.ReadPrinted | src/cli/remote.ts:9-11 | A POSIX shell reads back exactly the printed words |

## Left out

- The provider adapters, DOM and CDP access, selectors and page text: every answer they give is an argument.
- SQLite, JSON and hashing: an atomic store of tables; request hashes are the payloads themselves; the file digest is any function of the bytes.
- Events and timestamps of the submission tables, and fields no modelled guard reads; the event that proves an approved continuation is written together with its reason and names the same message and conversation.
- Conversations held for human review, attachment files, expected-generation and account-cooldown checks on `send`: each only refuses a request earlier, before any row exists.
- The conversation identity an observer rewrites after a provider redirect: no modelled invariant reads it.
- `conversation-cleanup-service.ts` `deleteTeam`: its loop calls the modelled stop and deletion; page closing after a deletion.
- `session-ui-service.ts` beyond `continueFollowup`, including `retryStream`: guard conjunctions over observations of the page.
- `handover.py` `promote_package`, `restore_install`, `prefreeze_drain`, lock classification and the order in `main`; a signal sent to the core by anybody but the guardian.
- `recovery-service.ts` beyond the page-state update and the printed URL; `observation-service.ts` beyond its updates; `team-directory.ts` roles; `ref-snapshot.ts`; the profile lock.
- `artifact-service.ts` capture, export and selection.
- User information, default ports, dot segments and IPv6 hosts in URLs; percent-escapes beyond ASCII; characters a browser would re-encode.
- Metrics of the page registry and its listeners.
- `prepare` of the maintenance lease is one method per turn of its polling loop, because other calls run between two turns.
- `BindPage` and the other registry methods read the page object's URL and closed flag once per call, as one synchronous turn does.
- SubmissionTheorems.StartupSettles: the count of recovered rows each pass returns is not modelled.
- SubmissionTheorems.SubmittedAtMostOnce: per request it is stated up to the deletion of the earlier row, because the stronger statement is false.
- ConversationCleanup.DeletedAtMostOnceUnlessRefused: allows a further call after a refusal, because the code makes one.
- StopService.StoppedAtMostOnce: allows a further gesture after a confirmed stop that could be undone, because a waiting resumption undoes it.
- FollowupService.EditBeforeWriteIsLost: one turn of the loop that clears and fills the composer is one step, so an edit between the clearing and the insertion is not told apart from one before it.
- ConversationCleanup.CleanupService.Delete: the checks of outputs, unresolved work and idle pages are one flag, because each of them only refuses the deletion; `deleteTeam` disposal options are left out.
- Transfer.Disk.Download: the size of a reused output is not promised, because the code does not compare it.
- SubmissionRevival.LivesExactlyWhenLiveOrRevivable: that the provider still shows the original unresolved when its authorization is repeated, and the receipt that latches the contrary, are an answer of the verification; so are what the pages show when duplicates are reconciled, what else blocks the cleanup of their conversation, the accounts' cooldowns and the holds of a human review.
- Durable rows written by older versions of the service: every store starts empty.
- LoadRecovery.Sweeper.TakeTurn: a click whose report was lost counts as made.
