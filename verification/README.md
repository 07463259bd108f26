# Code Forge: models and proofs

Dafny models of the parts of Code Forge in which a mistake would be hard to see: the Runtime database as a transactional state machine, the content files beside it, the event stream that reads it while others write, the Impala budgets and tool dispatch, and three self-contained algorithms. Each object that the code updates in place is a class with those fields, whose methods are proved to perform operations on values. Of the database, its content files, the budgets and the dispatcher the properties are proved of all histories of those operations, with transactions, queries and calls interleaved in any way and cut short at any write.

- `run_tables.dfy` has the rows and one operation per transaction; `run_store.dfy` is `SqliteRuntimeStore`, statement by statement, proved to perform exactly those operations. `run_invariants.dfy`, `run_steps.dfy` and `run_histories.dfy` give the inductive invariant and arbitrary histories from an empty database; `run_ownership.dfy`, `run_claims.dfy`, `run_leases.dfy`, `run_revisions.dfy`, `run_acceptance.dfy`, `run_answers.dfy`, `run_projects.dfy`, `run_scopes.dfy`, `run_service.dfy`, `run_logs.dfy`, `run_refinement.dfy` and `run_cancellation.dfy` prove what holds of every history, and `run_examples.dfy` has the histories that break a promise.
- `state_machine.dfy`, `event_log.dfy`, `event_paging.dfy`, `event_stream.dfy` and `session_numbering.dfy` are about events: their replay, numbering, paging, streaming and migration.
- `file_names.dfy` and `content_log.dfy` model the JSONL logs and object files, and `event_content.dfy` the event rows that point into them.
- `user_binding.dfy` models user bindings and what survives a workspace row.
- `impala_cells.dfy`, `impala_json.dfy` and `impala_result.dfy` model the result of a query, `impala_books.dfy`, `impala_budget.dfy` and `impala_accounts.dfy` the cost of all queries, `impala_control.dfy` what is told of them, `impala_dispatch.dfy` and `impala_dispatcher.dfy` the dispatch of tool calls.
- `utf8.dfy`, `bounded_capture.dfy` and `skill_resolver.dfy` stand alone.

`dafny verify dfyconfig.toml` checks everything.

## What is assumed

- A transaction is atomic, a single file replace is atomic, and an append that crashes leaves a prefix of what it was writing. Identifiers, times and digests are parameters; a clash of identifiers is an error of the operation (`Integrity`), never excluded beforehand.
- Times are integers. The code compares ISO strings, in which `isoformat` drops zero microseconds.
- The Impala driver, the clock and cancellation are a script of what they do. The messages of the code base's own errors have at most 200 characters and `elapsed_ms` at most 20 digits. The bindings of scopes to departments and the departments' policies do not change while a budget file is in use, and one process uses the budget files.
- Text is Unicode scalar values: no lone surrogates, which `.encode()` refuses.

## Where the code does not do what is promised

- `docs/database.md` intends a resumed run to be claimed again. `claim_next_run` requires both pointers to be NULL, and a resumed run keeps them: it is never claimed again, and nothing else of its session or workspace is claimed until it ends (`ResumedRunIsNeverClaimed`, and a history in `AnsweredRunIsNotClaimed`).
- The public `transition_run` can put a queued run into RUNNING without an attempt, and only then are RUNNING runs unowned (`NextKeepsOwned`, `UnclaimedStartIsUnowned`).
- `extra_data` can rebind the status that a waiting event announces, and `append_event` can record a lifecycle event; exactly then the log stops agreeing with the row (`TransitionAgrees`, `AppendAgrees`).
- A session created without a project reference and path rejects every message, because its rebuilt reference is the derived one (`DefaultProjectRejectsEveryMessage`).
- After a refused answer, an accepted one stores its own digest beside the refused text (`RefusedAnswerIsRead`).
- The migration from version 1 resets the epoch of every workspace and keeps the epochs of its attempts. Where some session of a workspace had its first run claimed, exactly there, no claim ever succeeds again (`MigratedWorkspaceIsStuck`, `StuckForEver`, and a history in `MigratedMessageIsStuck`).
- Two folders with skills of one name can hide a dependency cycle (`CycleUnnoticed`); with one skill for each name that the roots lead to, none stays hidden (`ResolvesExactlyAcyclic`).
- An answer that is repeated after its message is over is accepted again, and its stream ends without a run.finished event; that happens exactly when the message was over before the cursor was taken (`MessageDelivered`, `RepeatedAnswerStreamsNothing`).
- With more than 999999 JSONL files the newest is no longer the one that is filled, except where every digit of their number but the last is 9 (`CandidateIsNewest`); records still read back.

## Model

| member | source | states |
|---|---|---|
| StateMachine.TransitionKeepsRowChecks | src/code_forge/state_machine.py:52-93 | a transition never leaves a terminal status or takes CANCELLING anywhere but to CANCELLED, and its result meets the constraints on task_outcome and wait_reason |
| StateMachine.TransitionExactly | src/code_forge/state_machine.py:12-93 | a transition succeeds if and only if the version is current, the status may be entered from there, and outcome and wait reason belong to it |
| StateMachine.EveryRunCanEnd | src/code_forge/state_machine.py:12-50 | no status that is not terminal is a dead end |
| RunRefinement.StepRefinesStateMachine | src/code_forge/state_machine.py:52-93 | every transaction of the store, for every run, changes nothing of its state or makes exactly one transition |
| RunRefinement.ClaimRefines | src/code_forge/persistence/sqlite_store.py:1862-1881 | a claim, which writes RUNNING without calling transition, writes the row that transition would give |
| RunStore.SqliteRuntimeStore.InsertEvent | src/code_forge/persistence/sqlite_store.py:2173-2252 | inserts one event under the next number of its run and of its session and raises both, or changes nothing |
| RunStore.SqliteRuntimeStore.FindRequest | src/code_forge/persistence/sqlite_store.py:1370-1393 | finds a run of the key if there is one |
| RunStore.SqliteRuntimeStore.AcceptOnce | src/code_forge/persistence/sqlite_store.py:1395-1537 | in every consistent database: reuses the key's run, refuses, or adds one queued run with its event, changing nothing on an error; keeps the database consistent |
| RunAcceptance.AcceptExactly | src/code_forge/persistence/sqlite_store.py:1395-1537 | in every consistent database: a key in use gives its run or a conflict; else a message is accepted if and only if its session exists, its binding is the session's, no open run stands against it and its identifiers are new, and then exactly its row, its event and both next numbers are written |
| RunAcceptance.RunsAreNumbered | src/code_forge/persistence/sqlite_store.py:1457-1519 | in every history the runs of a session have exactly the numbers 1 to next_run_seq - 1, each once |
| RunStore.SqliteRuntimeStore.NextRun | src/code_forge/persistence/sqlite_store.py:1748-1774 | none exactly when no run is claimable, else a claimable run: none is due earlier, of those due together none was created earlier, and of those none has a smaller number |
| RunStore.SqliteRuntimeStore.LeaseRun | src/code_forge/persistence/sqlite_store.py:1777-1901 | all rows of a claim, or none when a unique constraint fails, and the epochs that the caller is told |
| RunStore.SqliteRuntimeStore.ClaimNextRun | src/code_forge/persistence/sqlite_store.py:1729-1901 | nothing exactly when no run can be claimed, else the claim of the run that is first by due time, creation and number; fails only on an identifier in use; keeps the database consistent |
| RunClaims.ClaimTakesTheFirst | src/code_forge/persistence/sqlite_store.py:1760-1774 | in every history a claim takes a message that waits, and of all that wait the one that was accepted first |
| RunClaims.ClaimableSinceAccepted | src/code_forge/persistence/sqlite_store.py:1760-1774 | a message meets the claim query exactly from when it was accepted, while it waits behind no other of its session and nobody holds its session or workspace |
| RunClaims.SucceededWasClaimed | src/code_forge/persistence/sqlite_store.py:1729-1901 | where no step starts an unclaimed run, a message that succeeded was claimed |
| RunStore.SqliteRuntimeStore.Transition | src/code_forge/persistence/sqlite_store.py:1975-2108 | the transition of the state machine with its event, ending the attempt of a finished run, or an error and no change; keeps the database consistent |
| RunStore.ReleaseByPointer | src/code_forge/persistence/sqlite_store.py:2077-2107 | the updates that clear pointers by value reach the finished run's own session and workspace and nothing else |
| RunStore.SqliteRuntimeStore.CancelRun | src/code_forge/persistence/sqlite_store.py:2110-2145 | up to two transactions, the second only for a run that was queued, with nothing between them |
| RunStore.CancelRefinesRequest | src/code_forge/state_machine.py:96-101 | uninterrupted, cancelling is request_cancel of the state machine, and takes a run that was never started on to CANCELLED |
| RunCancellation.AskedUnlessMoved | src/code_forge/persistence/sqlite_store.py:2115-2136 | with any transactions between the read and the request, the request takes effect if and only if the run has not moved since it was read, and else reports a conflict |
| RunCancellation.CancelledWhateverComesBetween | src/code_forge/persistence/sqlite_store.py:2137-2145 | with any transactions between the two of a cancellation, the run is CANCELLED after the second and for ever |
| RunStore.SqliteRuntimeStore.RespondToRun | src/code_forge/persistence/sqlite_store.py:2599-2671 | consumes an answer once and requeues the run, repeats itself for the same answer, and rolls back an answer whose version is stale |
| RunAnswers.RespondExactly | src/code_forge/persistence/sqlite_store.py:2599-2671 | an answer succeeds if and only if it repeats the one its question has, or its question is open, its key unused, its version current, its run waiting or recovering and its event new; then exactly the question, the run and the event change |
| RunAnswers.QuestionTakesOneAnswer | src/code_forge/persistence/sqlite_store.py:2617-2671 | in every history all successful answers of a question have one key and text, and only the first changes anything |
| RunAnswers.ResponseKeysDiffer | src/code_forge/persistence/sqlite_store.py:2645-2665 | in every history no two questions of a run are answered under one key |
| RunStore.SqliteRuntimeStore.RecordRevision | src/code_forge/persistence/sqlite_store.py:1903-1973 | publishes on top of the current revision exactly under the current lease |
| RunLeases.ClaimGivesLease | src/code_forge/persistence/sqlite_store.py:1775-1881 | a claim writes one attempt with the next epochs, the lease and the current revision as its base, and points session, workspace and run at it; the attempt keeps all of these for ever |
| RunLeases.EndReleases | src/code_forge/persistence/sqlite_store.py:2072-2107 | the end of a run ends its attempt now and frees its session and its workspace, lease included |
| RunLeases.PublishedUnderLease | src/code_forge/persistence/sqlite_store.py:1903-1973 | in every history a commit publishes if and only if a claim made its attempt with a lease that has not expired, the attempt has not ended, and it gives its own epoch, its own workspace and a new revision; then that is the current one |
| RunStore.SqliteRuntimeStore.AppendEvent | src/code_forge/persistence/sqlite_store.py:2147-2171 | appends one event to a run that exists, or changes nothing |
| RunHistories.EffectKeepsBase | src/code_forge/persistence/sqlite_store.py:1395-2145 | every transaction, with any arguments, keeps references, pointers, epochs, keys, row constraints and numbering consistent |
| RunHistories.NextExtends | src/code_forge/persistence/sqlite_store.py:1395-2145 | no transaction takes back a run, its snapshot, a terminal status, an epoch, a revision, an event, or the release of an attempt |
| RunHistories.HistoryExtends | src/code_forge/persistence/sqlite_store.py:1395-2145 | the same between any two states of a history |
| RunScopes.OtherScopesUnseen | src/code_forge/persistence/sqlite_store.py:1395-2145 | a step that is called for another scope changes no row of this one |
| RunScopes.OthersChangeNothing | src/code_forge/persistence/sqlite_store.py:1395-2145 | nor does any number of such steps |
| RunProjects.CreateExactly | src/code_forge/persistence/sqlite_store.py:1045-1200 | create_session joins the workspace of its project, whose columns become the binding's, refuses another tenant or user, or opens a workspace; a session without a binding has its own |
| RunProjects.ProjectsShareWorkspaces | src/code_forge/persistence/sqlite_store.py:1045-1200 | in every history two sessions share a workspace if and only if they were created for one project of one scope |
| RunProjects.IdentityNeverChanges | src/code_forge/persistence/sqlite_store.py:1060-1100 | a workspace never changes its scope, tenant, user or project |
| RunSteps.ClaimableIsFree | src/code_forge/persistence/sqlite_store.py:1760-1772 | no run of a claimable run's session or workspace has an attempt, and the run never had one |
| RunSteps.LeaseKeepsFifo | src/code_forge/persistence/sqlite_store.py:1762-1774 | a claim keeps the order of claims if and only if every earlier run of the session is settled |
| RunSteps.TransitionKeepsOwned | src/code_forge/persistence/sqlite_store.py:1975-2108 | a transition keeps active runs owned if and only if it does not start an unclaimed run |
| RunOwnership.AttemptHoldsItsLeases | src/code_forge/persistence/sqlite_store.py:1762-1881 | in every history a run with an attempt is its session's active run, its attempt is its workspace's active attempt, and the attempt has both current epochs |
| RunOwnership.NextKeepsOwned | src/code_forge/persistence/sqlite_store.py:2072-2107 | running, waiting and recovering runs stay owned if and only if no step starts an unclaimed run |
| RunOwnership.ActiveRunOwns | src/code_forge/persistence/sqlite_store.py:1762-1881 | a running, waiting or recovering run has an attempt and owns its session and workspace |
| RunOwnership.SingleWriter | src/code_forge/persistence/sqlite_store.py:1762-1765 | sessions that share a workspace have at most one such run between them |
| RunOwnership.FinishedRunOwnsNothing | src/code_forge/persistence/sqlite_store.py:2072-2107 | a terminal run has no attempt, and no session or workspace points at it |
| RunOwnership.ClaimedAtMostOnce | src/code_forge/persistence/sqlite_store.py:1775-1826 | two attempts of a history never share a run, a session epoch or a workspace epoch |
| RunOwnership.ClaimsFollowRunOrder | src/code_forge/persistence/sqlite_store.py:1762-1774 | in a session, claims are in the order of run_seq |
| RunOwnership.ClaimsPassOnlySettledRuns | src/code_forge/persistence/sqlite_store.py:1762-1774 | at a claim every earlier run is terminal, or cancelling and never attempted |
| RunOwnership.ClaimSucceeds | src/code_forge/persistence/sqlite_store.py:282-284 | the unique constraints on epochs and event numbers never stop a claim |
| RunOwnership.ResumedRunIsNeverClaimed | src/code_forge/persistence/sqlite_store.py:1763-1764 | a run that was claimed once, and any run sharing a session or workspace with one that holds an attempt, cannot be claimed |
| RunExamples.AnsweredRunIsNotClaimed | src/code_forge/persistence/sqlite_store.py:1763-1764 | the history in which a message is claimed, waits and is answered: its run is QUEUED with its attempt, and no claim query finds it |
| RunOwnership.UnclaimedStartIsUnowned | src/code_forge/persistence/sqlite_store.py:1975-2045 | starting a queued run through transition_run breaks ownership |
| RunOwnership.FirstMessageIsUnclaimed | src/code_forge/persistence/sqlite_store.py:1477-1519 | such a run exists after the first message of any session |
| RunOwnership.EventLogDeterminesRow | src/code_forge/persistence/sqlite_store.py:2047-2071 | replaying a run's lifecycle events through the state machine gives its status, outcome and version, and the version is their number minus one |
| RunLogs.TransitionAgrees | src/code_forge/persistence/sqlite_store.py:2047-2070 | log and row agree after a transition if and only if extra_data does not mislabel a waiting status |
| RunLogs.AppendAgrees | src/code_forge/persistence/sqlite_store.py:2147-2171 | they agree after append_event if and only if it records no lifecycle event |
| RunLogs.RespondAgrees | src/code_forge/persistence/sqlite_store.py:2673-2768 | they agree after an answer, whose helper repeats the transition |
| RunRevisions.RevisionChain | src/code_forge/persistence/sqlite_store.py:1913-1973 | a workspace's revisions are one linear parent chain ending at current_revision, published by its own attempts under epochs that never decrease |
| RunRevisions.ReleasedCannotPublish | src/code_forge/persistence/sqlite_store.py:1926-1932 | an attempt that has lost its workspace can publish nothing, whatever epoch it gives |
| RunRevisions.NoPublicationAfterRelease | src/code_forge/persistence/sqlite_store.py:1913-1973 | after an attempt has been released no later publication of the history is its |
| RunService.KeyAcceptedOnce | src/code_forge/persistence/sqlite_store.py:1405-1421 | in any history a key is accepted as new exactly once if a run carries it, and else never |
| RunService.SubmittedRunCarriesKey | src/code_forge/service.py:36-66 | a successful submit names the run that carries its key and fingerprint for ever after, with the snapshot of the call that created it |
| RunService.SubmitsAgree | src/code_forge/service.py:36-66 | any two successful submits of one key name one run and had one fingerprint |
| RunService.OneCallCreates | src/code_forge/service.py:36-66 | no two calls both report a new run |
| RunService.FreshCallReports | src/code_forge/service.py:36-66 | the call whose acceptance was new reports it |
| RunService.OtherFingerprintConflicts | src/code_forge/service.py:47-57 | a later submit of another fingerprint gets a conflict, whether it looked for the key before or after the first was accepted |
| RunService.OneOpenRun | src/code_forge/persistence/sqlite_store.py:1441-1456 | when every message of a session sets reject_if_active it never has two open runs |
| EventLog.InsertKeepsNumbering | src/code_forge/persistence/sqlite_store.py:2197-2252 | an event's two numbers are its positions in the run's and the session's log, and the next numbers stay one past the logs |
| EventLog.NextNumbersAreFree | src/code_forge/persistence/sqlite_store.py:353-353 | the unique constraints on event numbers never fire |
| EventLog.OrdersAgree | src/code_forge/persistence/sqlite_store.py:2197-2215 | the two orders agree on the events of one run |
| EventPaging.PageIsSlice | src/code_forge/persistence/sqlite_store.py:2328-2347 | any reply that the query allows is the stretch of the log after the cursor |
| EventPaging.SliceIsPage | src/code_forge/persistence/sqlite_store.py:2328-2347 | and the query allows that stretch |
| EventPaging.PagesAreContiguous | src/code_forge/persistence/sqlite_store.py:2328-2347 | pages read with any limits while the table grows are one stretch of the log without gap or repetition |
| EventPaging.PagesReadWholeLog | src/code_forge/transport/server.py:425-437 | with limits of at least 1 the first empty page means that the whole log was read, and it comes in time |
| EventPaging.CursorIsLength | src/code_forge/persistence/sqlite_store.py:2349-2356 | the session's cursor is the length of its log |
| EventStream.CurrentMessage | src/code_forge/persistence/sqlite_store.py:1625-1631 | the latest run of the session, if there is one |
| EventStream.Stream | src/code_forge/transport/server.py:489-551 | for any schedule of writers between its reads: a stream that stops has written exactly the wanted events after its cursor up to the end of the log at its last read, once and in order, and its message was over; it is cut off only when its reads run out, and not even then if the message was over and the log at rest for long enough to page through it |
| EventStream.WatchedIsObserved | src/code_forge/transport/server.py:507-547 | successive reads of any history are such a schedule |
| EventStream.FinishedMessageSettles | src/code_forge/transport/server.py:507-547 | so in any history the stream of a message that has finished stops, once its session is at rest |
| EventStream.MessageDelivered | src/code_forge/transport/server.py:355-376 | the stream delivers all of the message's log since its cursor, and with it the run.finished event of its final status and outcome if and only if the message was not over when the cursor was taken |
| RunExamples.RepeatedAnswerStreamsNothing | src/code_forge/persistence/sqlite_store.py:2621-2624 | the history in which an answer is repeated after its message has failed: it is accepted, and its stream stops by itself and delivers nothing |
| SessionNumbering.HistoryIsDense | src/code_forge/persistence/sqlite_store.py:2197-2252 | after any history the events of a run and of a session carry exactly the numbers 1 to next - 1, each once |
| SessionNumbering.WindowEqualsCount | src/code_forge/persistence/sqlite_store.py:817-829 | the window form and the counting form assign the same number |
| SessionNumbering.MigrationIsDense | src/code_forge/persistence/sqlite_store.py:904-931 | the migrated numbers are exactly 1 to next - 1 in the order of run_seq and seq |
| SessionNumbering.MigratedIsDense | src/code_forge/persistence/sqlite_store.py:810-841 | every session of a migrated database has its events numbered 1 to next - 1 |
| SessionNumbering.MigratedEpochs | src/code_forge/persistence/sqlite_store.py:732-791 | the epoch invariant survives the migration if and only if nothing was ever claimed |
| SessionNumbering.MigratedWorkspaceIsStuck | src/code_forge/persistence/sqlite_store.py:699-889 | after the migration from version 1 a claim in a workspace is stopped by its epochs if and only if some session of it had its first run claimed before |
| SessionNumbering.StuckForEver | src/code_forge/persistence/sqlite_store.py:699-889 | and then no claim in it succeeds after any transactions that commit later |
| RunExamples.MigratedMessageIsStuck | src/code_forge/persistence/sqlite_store.py:699-889 | the history in which a first message is claimed and fails, a second is accepted and the database is migrated: the second meets the claim query, and every claim of it fails |
| FileNames.NamesSortByNumber | src/code_forge/persistence/content_store.py:104-114 | up to 999999 the sorted order of file names is the order of their numbers |
| FileNames.FileNameInjective | src/code_forge/persistence/content_store.py:113-113 | different numbers give different names |
| ContentLog.FileContentStore.NextPath | src/code_forge/persistence/content_store.py:103-114 | the last file in sorted order, or a new one when that is not empty and the record would exceed the limit |
| ContentLog.FileContentStore.AppendRecord | src/code_forge/persistence/content_store.py:70-101 | returns where the record was appended; files only grow, and the record reads back |
| ContentLog.RecordsReadBack | src/code_forge/persistence/content_store.py:116-133 | whatever is written before and after, by committed, aborted or crashed transactions, a record reads back verified from its location |
| ContentLog.VerifiedIsWritten | src/code_forge/persistence/content_store.py:122-133 | whatever has become of the files, what reads back verified is what was written |
| EventContent.EventsReadBack | src/code_forge/persistence/sqlite_store.py:2194-2239 | after any history of committed, rolled back and torn transactions every row of run_events reads back its own record verified, and no two rows share a byte |
| EventContent.TablesAreHistory | src/code_forge/persistence/sqlite_store.py:2194-2239 | the tables beside the files are those of a history of the committed transactions |
| ContentLog.LogFilesInOrder | src/code_forge/persistence/content_store.py:103-114 | the files of a directory are named exactly 1 to n |
| ContentLog.FilesWithinLimit | src/code_forge/persistence/content_store.py:103-114 | every file is within max_file_bytes or holds a single record |
| ContentLog.CandidateIsNewest | src/code_forge/persistence/content_store.py:104-107 | the candidate is the newest of n files if and only if n is at most 999999 or every digit of n but its last is 9 |
| ContentLog.RecordGoesTo | src/code_forge/persistence/content_store.py:103-114 | with at most 999999 files a record goes into the newest, and starts a new one only if that is not empty and would exceed the limit |
| ContentLog.ObjectReadsBack | src/code_forge/persistence/content_store.py:135-158 | an object reads back as what was written if and only if its path was free or already held the same payload |
| ContentLog.RefusedAnswerIsRead | src/code_forge/persistence/sqlite_store.py:2627-2663 | after a refused answer the next one's digest is stored beside the refused text |
| Bindings.BindingRoundTrip | src/code_forge/transport/server.py:105-160 | the binding rebuilt from the workspace row is the original if and only if the payload's reference is one the row can give back |
| Bindings.RebuiltBindingIsAccepted | src/code_forge/persistence/sqlite_store.py:1540-1566 | the store accepts the rebuilt binding exactly then, and otherwise reports a conflict |
| Bindings.PayloadAccepted | src/code_forge/contracts.py:202-277 | a payload gives a binding if and only if its root is absolute, its user path and any project path name something below where they start, and any project reference is stable |
| Bindings.PayloadBinding | src/code_forge/contracts.py:202-277 | every binding built from a payload has canonical paths below one another and the reference that was given, derived or defaulted |
| Bindings.DefaultProjectRejectsEveryMessage | src/code_forge/transport/server.py:98-102 | a session without project reference and path rejects every message |
| Bindings.DefaultProjectExample | src/code_forge/transport/server.py:105-138 | such a session can be created |
| Utf8.DecodeEncoded | src/code_forge/integrations/impala/service.py:512-515 | decoding undoes encoding, under either error handler |
| Utf8.CutIsLongestPrefix | src/code_forge/integrations/impala/service.py:512-515 | a cut text is its longest prefix of whole characters within the limit, at most 3 bytes short of it, and is cut exactly when it does not fit |
| Utf8.FeedIsDecode | src/code_forge/execution/local_process_backend.py:291-291 | decoding byte by byte behind an unfinished character is decoding at once |
| BoundedCapture.ReadBounded | src/code_forge/execution/local_process_backend.py:279-322 | for every split into chunks: the file is the first `limit` bytes, the answer says whether there were more, the sink is told so once and last, and it is told the decoding of the file |
| BoundedCapture.HeldBack | src/code_forge/execution/local_process_backend.py:308-316 | what truncation holds back from the sink is an unfinished character of at most 3 bytes at the end of the file |
| ImpalaCells.Row | src/code_forge/integrations/impala/service.py:497-517 | every cell is its value's text cut to the limit, and the flag is set exactly when some cell was shortened |
| ImpalaCells.BinaryCell | src/code_forge/integrations/impala/service.py:508-515 | cutting the bytes before base 64 gives the cell that cutting the whole text would |
| ImpalaCells.KeptIsLongestPrefix | src/code_forge/integrations/impala/service.py:497-517 | a text cell is the longest prefix of whole characters that fits, and any other cell is its value |
| ImpalaCells.Base64RoundTrip | src/code_forge/integrations/impala/service.py:508-508 | base 64 decodes to the bytes it encodes |
| ImpalaJson.SuccessSize | src/code_forge/integrations/impala/service.py:471-476 | finishing adds at most 84 bytes to a result with the same rows |
| ImpalaJson.EmptySize | src/code_forge/integrations/impala/service.py:439-473 | a result without rows takes at most 4096 bytes, whatever its status and error |
| ImpalaJson.QuotedReadsBack | src/code_forge/integrations/impala/service.py:39-40 | every string literal of a result is read back as the UTF-8 of its text, wherever it stands |
| ImpalaJson.NumberReadsBack | src/code_forge/integrations/impala/service.py:39-40 | every integer of a result is read back with its sign |
| ImpalaResult.Fetch | src/code_forge/integrations/impala/service.py:415-431 | the rows are the cut image of the first remote rows, as many as are wanted, leave the slack free and come before anything is raised; the reasons say why the loop stopped |
| ImpalaResult.Execute | src/code_forge/integrations/impala/service.py:332-487 | every result encodes to at most max_bytes; SUCCEEDED, FAILED, CANCELLED and UNKNOWN each exactly in their own case of what was raised first and what could not be confirmed afterwards, with the error that belongs to it; a success holds the image of exactly the rows up to where the loop ends and is marked truncated exactly when a row was dropped or a kept row cut; any other status holds no rows |
| ImpalaResult.NothingRaised | src/code_forge/integrations/impala/service.py:364-433 | nothing is raised if and only if the setup, every checkpoint and fetch up to the end of the loop and the checkpoint after it succeed, the columns are not too many and their names leave the slack free |
| ImpalaBudget.ImpalaTools.Reserve | src/code_forge/integrations/impala/service.py:226-309 | the step Reserve: refuses exactly by its checks and then changes nothing; else charges the three files in full and keeps every other query's reservation, or stops after some of the writes, by an error or by the process's death |
| ImpalaBudget.ImpalaTools.Settle | src/code_forge/integrations/impala/service.py:477-486 | the step Settle: replaces the reservation by what was used in each file it reaches, and takes the query from the active ones even when a write fails |
| ImpalaBudget.ImpalaTools.Query | src/code_forge/integrations/impala/service.py:135-206 | a query is reserved, then sent, then settled with the rows and bytes of its own result, which is faithful |
| ImpalaBudget.BudgetsAreConserved | src/code_forge/integrations/impala/service.py:237-309 | under any interleaving of queries in flight, failing writes, deaths and restarts, every file holds exactly what settled queries used plus what all others reserved, never negative and never above its limits |
| ImpalaBudget.DispatchedIsCharged | src/code_forge/integrations/impala/service.py:189-206 | every query that was ever sent stands in its message's, its user's and its department's file, and while it is in flight they hold its full reservation |
| ImpalaAccounts.StandsWhereItBelongs | src/code_forge/integrations/impala/service.py:222-267 | in every history a granted query stands in exactly the files of its message, of its user's hour and of its department's hour, and reserves there what it asked for |
| ImpalaAccounts.SentIsCharged | src/code_forge/integrations/impala/service.py:188-206 | before a query is sent all three of these files hold its full reservation |
| ImpalaAccounts.DispatchedWereSent | src/code_forge/integrations/impala/service.py:188-206 | the dispatched queries are exactly those that some step sent |
| ImpalaAccounts.FilesHoldAccounts | src/code_forge/integrations/impala/service.py:237-309 | every budget file holds exactly the account of its message, its user's hour or its department's hour, told from the calls alone |
| ImpalaAccounts.RefusedExactly | src/code_forge/integrations/impala/service.py:235-292 | a query is granted if and only if the adapter was not told to stop since its process started, its reference is new, fewer queries of its user and department are in flight than allowed, and it fits into all three accounts |
| ImpalaBudget.ConcurrencyIsBounded | src/code_forge/integrations/impala/service.py:240-247 | no more queries of a user or of a department are in flight than the department's policy allows |
| ImpalaBudget.SettlementIsFinal | src/code_forge/integrations/impala/service.py:477-486 | once settled, a query's three files hold what it used for ever, whatever other queries do |
| ImpalaBudget.NothingLeaks | src/code_forge/integrations/impala/service.py:268-290 | when no fault cut a step short and no query is active, every file holds exactly what its queries used |
| ImpalaControl.QueryControl.Control | src/code_forge/integrations/impala/service.py:311-331 | answers for the owner's queries only, and sets the cancellation flag of one that runs |
| ImpalaControl.ShownToItsOwner | src/code_forge/integrations/impala/service.py:311-318 | in every history a query is shown exactly to the scope and session that began it, and anyone else is told the same as of a query that does not exist |
| ImpalaControl.OwnerIsTold | src/code_forge/integrations/impala/service.py:319-331 | it is shown as running or being cancelled exactly while this process runs it, else with the status that was saved for it, or as UNKNOWN if none was |
| ImpalaControl.SavedStatusIsFinal | src/code_forge/integrations/impala/service.py:319-331 | a status that was saved is told for ever |
| ImpalaDispatch.AtMostOnce | src/code_forge/harness/impala_tools.py:57-186 | under any interleaving of duplicates, retries, abandoned tasks, failing writes and crashes a call is dispatched at most once, after being marked RUNNING; a final status has its result saved |
| ImpalaDispatch.LaterCallsGetTheSavedResult | src/code_forge/harness/impala_tools.py:131-136 | once final, the same call gets the saved result and different arguments a conflict, without a dispatch |
| ImpalaDispatch.DispatchedIsNeverRepeated | src/code_forge/harness/impala_tools.py:131-137 | a call that was dispatched is answered from the ledger: with the saved result, a conflict or UNKNOWN |
| ImpalaDispatch.AnsweredByLedger | src/code_forge/harness/impala_tools.py:131-137 | a call whose key is past PREPARED leaves with the ledger's answer and changes neither ledger, results nor the calls made |
| ImpalaDispatch.EntersUnlessOccupied | src/code_forge/harness/impala_tools.py:63-66 | whatever was abandoned, failed or died before, a waiting call enters its slot unless another is inside it now |
| ImpalaDispatch.StatusTellsResult | src/code_forge/harness/impala_tools.py:145-166 | in every history a final status means the saved result: it is the query's own, or SUCCEEDED where a call arrived that asks about another query and got its reference |
| ImpalaDispatcher.ImpalaToolDispatcher.PrepareTool | src/code_forge/persistence/sqlite_store.py:2386-2480 | returns the key's row, a conflict for other parameters, or a new prepared row; an operation identifier in use is an error |
| ImpalaDispatcher.ImpalaToolDispatcher.ExecuteLocked | src/code_forge/harness/impala_tools.py:68-206 | one call with any fault is a stretch of a history of the dispatcher, so what holds of histories holds of the ledger and the results it leaves, and its reply is that history's |
| ImpalaDispatcher.CallIsExecuted | src/code_forge/harness/impala_tools.py:111-206 | a call that nothing cuts short, new or prepared before, calls the tool once, saves and returns its result, and leaves the result's status in the ledger |
| SkillResolver.ManualSkillResolver.ResolveTree | src/code_forge/skills/manual_skill_resolver.py:221-253 | performs the search and leaves `visiting` as it was |
| SkillResolver.ManualSkillResolver.ResolveRoots | src/code_forge/skills/manual_skill_resolver.py:175-182 | performs the search for one root after the other over the same resolved skills |
| SkillResolver.SnapshotIsTopological | src/code_forge/skills/manual_skill_resolver.py:175-182 | the resolved skills repeat no name, contain every root, and list every dependency before its dependent |
| SkillResolver.RootsGetTheirVersions | src/code_forge/skills/manual_skill_resolver.py:175-182 | a requested skill that names a version is resolved at that version |
| SkillResolver.ResolvesExactlyAcyclic | src/code_forge/skills/manual_skill_resolver.py:175-253 | for any list of roots over shared resolved skills: where every lookup from the roots succeeds and no versions conflict, it fails only if a cycle can be reached, and where moreover each name reached belongs to one skill, if and only if |
| SkillResolver.CycleUnnoticed | src/code_forge/skills/manual_skill_resolver.py:230-237 | with two skills of one name within reach, a reachable cycle can go unnoticed |

## Left out

- `create_session`: its idempotency keys and titles; the model keeps the session row, the workspace row and the rule that a project's identity does not change.
- Pending questions are put by an environment step: the store itself only answers them.
- Events keep the data that the lifecycle reads, `status` and `task_outcome`; outputs, errors and snapshot references of an event are not modelled.
- Audit columns, heartbeats, artifacts, legacy project names and the other read-only views of the tables.
- HTTP headers and JSON rendering of streamed events: all event types are public, so the projection drops none.
- Liveness: expired leases, cancellation reaching CANCELLED, resumed runs being claimed. The code does not implement them.
- The bodies of `bounded_select`, `checkpoint` and the skill bundle copy; the default-path listing of `resolve_and_store`, which only relabels resolved skills.
- Rebinding a workspace's user path while it has content, policy changes during a query, and several processes sharing budget files.
- ImpalaBudget.ImpalaTools.Query: nothing else runs between its reservation and its settlement, because a method cannot be interrupted; the histories of BudgetsAreConserved interleave any queries.
- ImpalaDispatcher.ImpalaToolDispatcher.ExecuteLocked: no other task acts during the call; the histories of ImpalaDispatch interleave them.
- SessionNumbering.MigratedWorkspaceIsStuck: the migration copies the columns of this model's tables; those of tool executions, artifacts and audit are not part of it.
- RunStore.SqliteRuntimeStore.CancelRun: runs its two transactions back to back, because a method cannot be interrupted; RunCancellation states what other transactions between them can change.
- ImpalaDispatch.AtMostOnce: one process at a time holds the lock stripes; a second process with its own locks is not modelled, because an attempt belongs to one worker.
- EventStream.Stream: the number of reads is finite, and counted in reads, not in time; a stream whose message never ends is cut off in the model.
- ContentLog.RecordsReadBack: the record is its canonical JSON text; parsing it is not modelled.
- ImpalaJson.QuotedReadsBack: string literals are read back; a reader for whole JSON objects is not modelled.
