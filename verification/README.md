# Along: a verified model

Along is a focus timer for two people. A Go server with a PostgreSQL store owns the timers and an append-only
event log per pair; Flutter phones keep a local copy, a cursor into the log and an outbox of commands, and talk
to the server over a network that loses requests and responses. This project models that system in Dafny and
proves what it promises over whole runs. Check it with `dafny verify dfyconfig.toml`.

How the files fit together:

- `Domain`, `Timeline`: the session state machine, the timer, and inductions over legal histories of one session.
- `Tables`: the server's tables as a value and each transaction as a function. `StoreInvariant` and `StoreRuns`
  prove what every transaction keeps and what holds in every run. `Store` is the imperative store: a class whose
  methods reassign table fields statement by statement, with loops and rollbacks, proved equal to the functions.
- `Effects`: what each call does, described by the tables before and after it and nothing else, and why exactly the
  transactions fit. `SyncEffects`, `AuthEffects` and `PushEffects` do the same for the commands of a phone, for logins
  and tokens, and for the push worker. `SyncOutcome` and `Arrival` follow a command from the phone to its effect.
- `Reducer`, `Paging`, `Replay`: the phone's event reducer, the cursor paging of the log, and both together.
- `SyncMessages`, `SyncProtocol`, `SyncSteps`: the protocol of both ends as a state machine with lost messages,
  serialization failures and other callers at every point, and its invariant. `Freshness` says what each step does
  to each session; `SyncTheorems` has exactly-once delivery and convergence, and `Pacing` says when no
  batch leaves out a committed command. `TornReadExample` and `StaleRetryExample` are two runs that do not converge;
  `TornEnd` says which torn reads never heal.
- `SyncHandler`, `Phone`: the endpoint and the phone's database and sync engine as classes. `SyncRefinement`
  proves that what they do is a run of the protocol, and that a sync ends; `StuckNote` has the note that blocks it.
- `Offline`, `ClockSkew`: offline sessions and the server-offset arithmetic.
- `AuthTables`, `AuthRuns`, `AuthStore`: logins, refresh-token families and revocation.
- `RateLimiter`, `PushQueue`, `PushWorker`, `Hub`, `Truncation`: the smaller pieces.

Hypotheses:

- Every transaction is one atomic step on one clock that never goes back, in whole microseconds.
- New events get larger cursors than all earlier ones (`Paging.Numbered`). The `bigserial` column gives this only
  if transactions commit in the order in which they draw numbers.
- A lost request is no longer served after the phone has given it up.
- Agreement on a session is claimed exactly as far as it holds (`SyncTheorems.ConvergenceExact`). Two kinds of
  delivery spoil a session: one whose two reads were torn by a change of the current session, and one that answers
  a committed command which a full batch had left out. Each happens in a reachable run (`TornReadExample`,
  `StaleRetryExample`). The second needs a deferred cheer, or a clock set back (`Pacing.LeftOutNeedsDeferral`).
  Exactly-once delivery needs neither to be absent.
- `Phone.SyncEngine.PerformSync` is about a server with no other caller meanwhile. The state machine has other
  callers between any two steps.
- Outside the sync engine the phone writes only sessions the server does not have, and copies of completed ones.
- The push worker does not crash between a claim and storing its outcome, and its storage calls succeed: a run of
  `PushQueue` handles every claimed job before the next claim.
- Identifiers drawn at random are new, and the rate limiter's clock never reads the zero time.

Where the code does something its documentation does not say, the model follows the code:

- A start that fails after its sweep, because its identifier or its expired key is already in use, rolls the sweep
  back with it (`StoreRuns.OnlyCommitsChange`).
- Only starts and reads of the current session sweep, so an overdue session can still be paused by a command.
- An import checks its times before it looks up its key, so it is refused on bounds even when it repeats a
  committed one with other times.
- The rate limiter can grant 2 x limit - 1 calls within one interval, and does (`RateLimiter.SpanBoundIsReached`).
- A large enough Retry-After wraps around and is answered with a short delay (`PushQueue.RetryAfterCanWrap`).
- An import command whose payload lacks the times imports the zero time (`SyncRefinement.ImportWithoutTimes`).
- A serialization failure is answered as a version conflict, and the phone then drops the command. If it is a retry of
  one that had committed, the phone reports a refusal of what took effect (`SyncTheorems.ExactlyOnce`). The same
  happens to a retry after the key has expired.
- A note whose text holds NUL passes the length check and is refused by the database, which becomes a status of 500
  for the whole request. The phone sends it again with every sync (`StuckNote.NulNoteBlocks`).

## Model

| member | source | states |
|---|---|---|
| Timeline.ChainShape | server/internal/domain/state_machine.go:16-51 | After any legal history of commands and sweeps a session is well formed (each optional column is set exactly in its state, members fit the state, offline rows are completed at version 1), its version is the number of its snapshots, and its pair, starter and start never change |
| Timeline.VersionsCount | server/internal/store/collaboration.go:384-438 | The k-th snapshot of every legal history carries version k, without gap or repeat, and is well formed |
| Timeline.EndMovesByPauses | server/internal/store/collaboration.go:406-438 | The end of a server-started session is its start plus 25 minutes plus exactly the pauses that were resumed |
| Timeline.TimerConserved | mobile/lib/features/focus/domain/focus_session.dart:72-78 | While a server-started session is active, unclamped time left plus unpaused running time is always 25 minutes, at every moment |
| Timeline.NoJump | mobile/lib/features/focus/domain/focus_session.dart:72-78 | The displayed time is the same just before and just after a join, a pause and a resume, and stands still during a pause |
| Timeline.TerminalHasNoSuccessor | server/internal/domain/state_machine.go:35-50 | No command and no sweep follows a completed, cancelled or expired snapshot |
| StoreInvariant.ExecuteKeepsInv | server/internal/store/collaboration.go:185-658 | Every transaction, with every argument and at any later time, keeps the invariant: pairs of two, legal histories, one active session per pair, a complete journal, members of the pair only, unique invite tokens |
| StoreRuns.Reachable | server/internal/store/collaboration.go:185-658 | The invariant holds after every run of calls at non-decreasing times |
| StoreRuns.JournalReplays | server/internal/store/collaboration.go:968-1001 | Folding the phone's reducer over a pair's whole event log from nothing gives exactly the server's sessions, participants and notes of that pair, in every reachable state |
| StoreRuns.JournalVersions | server/internal/store/collaboration.go:968-1001 | In every reachable state the log holds as many snapshots of a session as its version says, and the k-th carries version k |
| StoreRuns.SessionShape | server/internal/store/collaboration.go:350-479 | In every reachable state a session is well formed, and one that is together, or paused from it, has exactly the two members of its pair |
| StoreRuns.StoredRow | server/internal/store/collaboration.go:350-479 | The stored row and members of a session are its last logged snapshot, and the version counts the snapshots |
| StoreRuns.AtMostOneActive | server/migrations/000001_initial.sql:129-131 | No reachable state has two open, together or paused sessions of one pair |
| StoreRuns.TimerInEveryRun | server/internal/store/collaboration.go:384-429 | For every server-started session in every run: end = start + 25 minutes + resumed pauses, and time left plus running time is 25 minutes while it is active |
| StoreRuns.TerminalForever | server/internal/store/collaboration.go:350-479 | A terminal row and its members are the same in every later state of the run |
| StoreRuns.VersionsOnlyGrow | server/internal/store/collaboration.go:350-479 | A session never disappears and its version never decreases |
| StoreRuns.NoLostUpdate | server/internal/store/collaboration.go:372-382 | Of all commands on a session with one expected version, by either partner and under any keys, at most one ever succeeds |
| StoreInvariant.SweepLeavesNoneDue | server/internal/store/collaboration.go:751-845 | After a sweep at a time no session of the pair is overdue or stale-paused at that time |
| StoreInvariant.SweepTwice | server/internal/store/collaboration.go:751-845 | A second sweep at the same time changes nothing at all |
| StoreInvariant.SweepLatenessIsInvisible | server/internal/store/collaboration.go:751-845 | Sweeping early and again late leaves the same rows and members as sweeping late alone |
| Effects.DoesMeans | server/internal/store/collaboration.go:34-658 | A description of every call in terms of the tables alone (when it is accepted, which error it is refused with, every column, member, note, event, key and answer it leaves) fits exactly one outcome in every reachable state, and that is the transaction's: nothing is left open |
| Effects.CallsDo | server/internal/store/collaboration.go:34-658 | Every call of every run that does not repeat a key does exactly what is described |
| Effects.SweepEffect | server/internal/store/collaboration.go:751-845 | An open or joined session past its end is completed at that end, one paused for 24 hours is expired with its pause cleared, each one version higher with every other column and its members as they were; every other session is untouched |
| Effects.SweepInRun | server/internal/store/collaboration.go:623-659 | That is what reading the current session does to every session, in every run |
| Effects.TransitionCommitsIff | server/internal/store/collaboration.go:350-479 | A command with a new key commits if and only if the caller is in the pair, the session is of the pair at the expected version, and its state is one of those listed for the action (a join also: by the other account, not past the end); then every column of the row is as listed, the moved end included |
| Effects.ImportCommitsIff | server/internal/store/collaboration.go:268-329 | An import with a new key commits if and only if the caller is in the pair, the identifier is new and the times are within 24 hours and 2 minutes of the server's clock; then start, end and completion are the call's |
| Effects.StartCommitsIff | server/internal/store/collaboration.go:185-266 | A start with a new key commits if and only if the caller is in the pair, the identifier is new, and everything of the pair that is under way is overdue |
| StoreRuns.RetryErasure | server/internal/store/collaboration.go:1031-1094 | Deleting any set of repeated keyed calls from any run leaves every table and the event log as they are |
| StoreRuns.RetryAnswersStored | server/internal/store/collaboration.go:1031-1071 | A repeated request is answered with the stored response if and only if less than seven days have passed since it committed; otherwise it fails |
| StoreRuns.OneCommitPerKey | server/migrations/000001_initial.sql:159-168 | No two calls of a run with one account and key commit, even after the key has expired |
| StoreRuns.KeysAreCommits | server/internal/store/collaboration.go:1073-1094 | A key is in the table exactly when a call with it has committed |
| StoreRuns.CommitsStoreKeys | server/internal/store/collaboration.go:1073-1094 | Exactly the committing calls store a key, with their operation, response and expiry; every other call leaves the keys alone |
| StoreRuns.UsedKeyChangesNothing | server/internal/store/collaboration.go:1031-1094 | A call with a key that was ever used changes no table, expired or not |
| StoreRuns.OnlyCommitsChange | server/internal/store/collaboration.go:198-260 | A keyed call that fails, or repeats an earlier one, leaves every table as it was, the sweep included |
| StoreRuns.OtherOperationFails | server/internal/store/collaboration.go:1046-1055 | A key reused under another operation fails and changes nothing |
| Store.Store.StartSession | server/internal/store/collaboration.go:185-266 | Ends in exactly the tables and answer of the transaction function, which `Effects.DoesMeans` describes, keeps the event numbering and never lowers a cursor |
| Store.Store.ImportSoloSession | server/internal/store/collaboration.go:268-329 | Same, for importing an offline session; the bounds on the times come before the key lookup; `Effects.ImportCommitsIff` says when and how |
| Store.Store.TransitionSession | server/internal/store/collaboration.go:350-479 | Same, for join, pause, resume, complete and cancel: version check, transition, timer arithmetic, event, key; `Effects.TransitionCommitsIff` says when and how |
| Store.Store.CompleteElapsedSession | server/internal/store/collaboration.go:751-845 | The two loops over stale and elapsed sessions end in exactly the swept tables, which complete what ran out at its own end and expire what was left paused (`Effects.Sweeps`) |
| Store.Store.ExpireStale | server/internal/store/collaboration.go:752-795 | The loop over stale pauses: whichever order it takes, the tables are the swept ones, or untouched if there is none |
| Store.Store.CompleteElapsed | server/internal/store/collaboration.go:796-845 | The loop over elapsed sessions: likewise |
| Store.Store.ApplyAction | server/internal/store/collaboration.go:384-463 | A legal action leaves exactly the written row, the member list and one event, or fails as the model says |
| Store.Store.SaveIdempotency | server/internal/store/collaboration.go:1073-1094 | The key is stored for seven days, or, if it exists, nothing is stored and the caller is told |
| Store.Store.AddSessionNote | server/internal/store/collaboration.go:481-551 | Same as above, for a note; a text with NUL, which a text column refuses, fails without effect |
| Store.Store.Cheer | server/internal/store/collaboration.go:553-621 | Same as above, for a cheer with its cooldown |
| Store.Store.ReadCurrent | server/internal/store/collaboration.go:623-659 | Sweeps and returns the pair's active session, if any |
| Store.Store.CreatePairInvite | server/internal/store/collaboration.go:34-74 | Ends in the tables and answer of the transaction function: open invites of the account are revoked, one is added |
| Store.Store.AcceptPairInvite | server/internal/store/collaboration.go:76-166 | Same, for accepting an invite, which pairs two accounts that have no pair |
| Store.Store.Handle | server/internal/store/collaboration.go:185-658 | Any call, dispatched: tables and answer are those of the run model, the invariant is kept, and a call that is not a retry does what `Effects.Does` says of the tables |
| Store.Store.PairEvents | server/internal/store/collaboration.go:709-749 | The events returned are exactly a page: those of the pair between the old and the new cursor in order, at most the limit, and all that are left if fewer than the limit |
| Paging.PageLeavesRest | server/internal/store/collaboration.go:709-749 | A page and what lies past its new cursor are together what lay past the old one; a short page leaves nothing; the cursor does not decrease |
| Paging.ReplayIsComplete | mobile/lib/core/sync/sync_engine.dart:136-150 | From any cursor and for any limit, the pages up to the first short one are together exactly the pair's events past the cursor, in order, without gap or duplicate, and their number is determined by the number of events |
| SyncSteps.StepKeepsGood | mobile/lib/core/sync/sync_engine.dart:84-150 | Every step of the protocol (other callers, serving or denying one command, the two reads, delivery, losses, local writes) keeps the protocol invariant |
| SyncTheorems.RunGood | mobile/lib/core/sync/sync_engine.dart:84-150 | The protocol invariant holds at every moment of every run: a committed command in the outbox can be retried, and unless a batch left it out, a snapshot of what its answer carries is still ahead of the cursor |
| SyncTheorems.ExactlyOnce | mobile/lib/core/sync/sync_engine.dart:105-127 | At every moment of every run with any losses: a command the phone enqueued is still in the outbox with at most one effect, or left as applied with exactly one, or left as refused, with one effect if after it had committed a serialization failure refused it or it was retried too late, and with none otherwise |
| SyncTheorems.DeniedMeans | server/internal/httpapi/respond.go:68-77 | The record of denied commands holds exactly those that a serialization failure refused after they had committed |
| SyncTheorems.LapsedMeans | server/internal/store/collaboration.go:1031-1071 | The record of lapsed commands holds exactly those that were retried after they had committed and their keys had expired |
| SyncTheorems.MissedMeans | mobile/lib/core/database/app_database.dart:192-216 | The record of missed commands holds exactly those that some batch left out after they had committed |
| SyncTheorems.FateIsFinal | mobile/lib/core/sync/sync_engine.dart:105-127 | A command that left the outbox keeps its fate, so a refused one never takes effect later |
| SyncTheorems.CursorAdvances | mobile/lib/core/sync/sync_engine.dart:136-137 | The phone's cursor never decreases in any run |
| Freshness.DeliveryDecides | mobile/lib/core/sync/sync_engine.dart:103-138 | After any delivery a session is fresh (its local row is the server's, or a snapshot of it is ahead) if and only if the delivery does not spoil it, and it was fresh or is brought along at its present version |
| Freshness.StepDecides | mobile/lib/core/sync/sync_engine.dart:84-174 | Every step decides the freshness of every session: only a torn or a stale delivery spoils it; only a new snapshot, a brought row or a history refresh renews it |
| Freshness.LoggedVersion | server/internal/store/collaboration.go:968-1001 | A recorded snapshot of a session is the stored row if and only if it has the stored version |
| SyncTheorems.FreshInRun | mobile/lib/core/sync/sync_engine.dart:84-150 | At every moment of every run a session is fresh if and only if no delivery spoiled it without its being renewed since |
| SyncTheorems.UnhealedMeans | mobile/lib/core/sync/sync_engine.dart:84-150 | Left spoiled means: some earlier step spoiled the session and no step in between renewed it |
| SyncTheorems.ConvergenceExact | mobile/lib/core/sync/sync_engine.dart:84-150 | In every run with any losses, when a last page is delivered with the server unmoved since it was read, a session is the same on phone and server if and only if it is not left spoiled |
| SyncTheorems.QuietConvergence | mobile/lib/core/sync/sync_engine.dart:84-150 | If every pair of reads saw the current session unchanged and every batch had all committed commands, then after every last page phone and server agree on every session of the pair |
| Pacing.Convergence | mobile/lib/core/sync/sync_engine.dart:84-150 | If every new command is younger than those that wait, no delivered result defers a cheer and every pair of reads saw the current session unchanged, then after every last page phone and server agree on every session of the pair |
| Pacing.LeftOutNeedsDeferral | mobile/lib/core/database/app_database.dart:192-216 | While creation times grow, a batch leaves out a committed command only after some delivery has deferred a cheer |
| Pacing.FrontCovers | mobile/lib/core/database/app_database.dart:192-216 | If every committed waiting command has fewer than 100 others that are as old or older, then whatever else waits, every batch has all committed commands that can still be answered |
| Pacing.FewWait | mobile/lib/core/database/app_database.dart:192-216 | That is so if no committed command waits, however many others do, and if at most 100 wait |
| SyncTheorems.SpoilingHasCause | mobile/lib/core/sync/sync_engine.dart:105-137 | A delivery spoils nothing unless its reads were torn or some batch left out a committed command |
| SyncTheorems.SmallBatchCovers | mobile/lib/core/database/app_database.dart:192-216 | A batch of fewer than 100 commands contains every command that committed without the phone knowing and can still be answered |
| SyncTheorems.TornRead | server/internal/httpapi/sync_handler.go:60-69 | Last page, delivered at once: the session read as current agrees afterwards if and only if it did not change between the two reads |
| TornReadExample.TornReadHappens | server/internal/httpapi/sync_handler.go:60-69 | A concrete run in which a partner pauses between the two reads and the phone does not converge |
| SyncTheorems.StaleRetry | mobile/lib/core/sync/sync_engine.dart:105-137 | Last page, delivered at once: a fresh session that is not the current one differs afterwards if and only if the reply answers a command that an earlier batch left out, the cursor is past the session's snapshots, and the session has moved on since the answer |
| StaleRetryExample.StaleRetryHappens | mobile/lib/core/database/app_database.dart:192-216 | A concrete run with growing creation times and untorn reads that ends without agreement: a cheer is deferred, 99 notes and a resume follow, the resume commits unheard, the partner cancels, the cheer and the notes leave the resume out, and its late answer overwrites the cancelled session |
| TornEnd.TornEndHeals | server/internal/httpapi/sync_handler.go:60-69 | A torn delivery of a session that had already ended: if the session is fresh at any later moment, then the history screen listed it as completed, or a reply answered the phone's own command with the end |
| TornEnd.TornForever | server/internal/httpapi/sync_handler.go:60-69 | So if it was cancelled or expired and no command of this account ended it, phone and server never agree on it again and no event of it is ever replayed |
| SyncMessages.ResultsSettle | mobile/lib/core/sync/sync_engine.dart:105-127 | What a batch of results does to each outbox entry: settled ones go, cooled-down ones wait five seconds, all others stay untouched |
| Reducer.FoldRow | mobile/lib/core/sync/sync_engine.dart:153-174 | After replaying events a session's row is its last snapshot among them, or what it was before |
| SyncEffects.ServeMeans | server/internal/httpapi/sync_handler.go:80-190 | A description of every command in terms of the tables alone (which field checks refuse it, with which code; which session, action, version, times or text it is carried out with; what is reported for each outcome) fits exactly one outcome in every reachable state, and that is the dispatcher's |
| SyncEffects.AppliedLeaves | server/internal/httpapi/sync_handler.go:80-190 | An applied command has appended exactly one event, after at most the sweep's in a start: on the session it names, by its caller, with the state, times, text or cheer its kind and payload name; the phone is told what that event records |
| SyncEffects.FieldsRefuse | server/internal/httpapi/sync_handler.go:80-190 | A command is answered as invalid, unsupported or malformed if and only if a field check listed for its kind fails, and then changes nothing |
| SyncOutcome.AppliedIsDone | mobile/lib/core/sync/sync_engine.dart:105-127 | In every run with any losses, an applied command was enqueued before, exactly one later step carried it out, and that step did what the enqueued command's kind says |
| Replay.PagesReplay | mobile/lib/core/sync/sync_engine.dart:136-150 | In every run of the server, for any page limit, the pages from cursor zero to the first short one, folded from nothing, give exactly the pair's sessions, participants and notes |
| SyncHandler.Api.ApplySyncCommand | server/internal/httpapi/sync_handler.go:80-190 | The switch over command types, written out, has the effect and result line of the model for every kind and every malformed payload; a command that is not a retry does what `SyncEffects.ServedAs` says of the tables |
| SyncHandler.Api.ServeCommands | server/internal/httpapi/sync_handler.go:41-59 | The command loop has the effect and results of serving the commands in order, and stops at the first that makes the request fail |
| SyncHandler.Api.Sync | server/internal/httpapi/sync_handler.go:22-75 | A request is refused exactly when out of bounds; otherwise tables and reply are those of serving all commands, then sweeping, then reading a page |
| SyncHandler.Api.Finish | server/internal/httpapi/sync_handler.go:60-75 | The two reads: a sweep with the active session, then a page; the reply says there is more exactly when the page is full |
| SyncRefinement.ServeSucceeds | server/internal/httpapi/sync_handler.go:80-190 | A command makes the whole request fail if and only if it is a note that passes every check of the dispatcher and the store and whose text holds the character NUL; every other command has a result line under its own identifier |
| SyncRefinement.NulNoteFails | server/internal/httpapi/sync_handler.go:164-171 | The note with NUL alone, on a running session, fails the request and changes no table |
| SyncRefinement.FailedTrip | server/internal/httpapi/sync_handler.go:41-59 | A request that fails is a run of the protocol: the commands before the failing note take effect, their results are lost, and the phone is as it was |
| StuckNote.NulNoteBlocks | mobile/lib/core/sync/sync_engine.dart:84-96 | Such a note in front of the outbox blocks the phone: as long as its session is not cancelled and no serialization failure hits it, no reply is ever delivered and the cursor stays |
| SyncRefinement.RoundTripFull | mobile/lib/core/sync/sync_engine.dart:84-150 | A request that is answered without interruption and its delivery are a run of the protocol, make progress, and, when all sessions were fresh and every committed waiting command was in front, keep that so and on a last page make phone and server agree |
| SyncRefinement.PacedIsCalm | mobile/lib/core/sync/sync_engine.dart:84-150 | That is so at every moment of every run in which creation times grow, no cheer is deferred and no reads are torn |
| SyncRefinement.RoundTripProgress | mobile/lib/core/sync/sync_engine.dart:148-150 | After a full page fewer commands wait, or as many and a session has ended, or as many and fewer events are left, whatever the clocks show: the recursion of a sync ends |
| SyncRefinement.ImportWithoutTimes | server/internal/httpapi/sync_handler.go:102-124 | An import whose payload has no times is applied and leaves a completed session at the zero time |
| Phone.AppDatabase.PendingCommands | mobile/lib/core/database/app_database.dart:192-216 | The batch is exactly the oldest eligible commands by creation time, at most the limit |
| Phone.SyncEngine.Observe | mobile/lib/core/sync/sync_engine.dart:87-104 | The offset kept in memory is the midpoint offset, and whole milliseconds of it are stored |
| Phone.SyncEngine.ApplyReply | mobile/lib/core/sync/sync_engine.dart:103-138 | The local transaction has the effect of results, then events, then the current session, then the cursor |
| Phone.SyncEngine.RoundTripOnce | mobile/lib/core/sync/sync_engine.dart:84-138 | One request and its reply through the real endpoint take the phone and the server along a run of the protocol, with progress; it fails only if some waiting note holds NUL, and then the phone is as it was |
| Phone.SyncEngine.PerformSync | mobile/lib/core/sync/sync_engine.dart:84-151 | A whole sync ends although both clocks move between pages as they like, and it fails only if some waiting note holds NUL; unless it stops at a failure or a refusal that the caller asked for, phone and server agree when all sessions were fresh and every committed waiting command was in front, as when none waits |
| Phone.SyncEngine.Exchange | mobile/lib/core/sync/sync_engine.dart:84-138 | The oldest eligible commands go out with the cursor, and the reply, which is the endpoint's answer to them, is applied; if the request fails the phone's database is as it was |
| Offline.StepAgreement | mobile/lib/features/focus/data/session_repository.dart:92-139 | One pause, resume or complete leaves equal rows equal exactly when the server accepts it, or it resumes what is not paused |
| Offline.OfflineSimulates | mobile/lib/features/focus/data/session_repository.dart:92-139 | For every sequence of calls, legal or not, the phone's row equals the server's in every column if and only if every call is accepted or is a resume; otherwise the phone's version is ahead for ever |
| Offline.PausingTwiceDiffers | mobile/lib/features/focus/data/session_repository.dart:92-105 | An illegal sequence that does differ: pausing twice forgets the pause origin on the phone |
| Offline.SessionRepository.StartOffline | mobile/lib/features/focus/data/session_repository.dart:28-70 | Writes the row the server would open, marked as offline, and queues nothing |
| Offline.SessionRepository.Pause | mobile/lib/features/focus/data/session_repository.dart:92-106 | An offline session is changed locally and nothing is queued; any other is left alone and a command with its version is queued |
| Offline.SessionRepository.Resume | mobile/lib/features/focus/data/session_repository.dart:108-124 | Same for a resume; the end moves by the time since the pause |
| Offline.SessionRepository.Complete | mobile/lib/features/focus/data/session_repository.dart:125-157 | Same for completing; an offline session of a pair also queues its import with start and completion time |
| Arrival.CompletedOfflineArrives | mobile/lib/features/focus/data/session_repository.dart:125-157 | An offline session, started, paused and resumed at any times and completed: when its import is first served it is applied if and only if the account is in the pair, the session is new and the times are in bounds; then the server's row has the start and the completion time of the phone's |
| Arrival.TapArrives | mobile/lib/features/focus/data/session_repository.dart:92-157 | A command on a session that phone and server agree on is applied, while they do, if and only if the row shown permits it, and then the server's row is the one shown, moved by the action |
| ClockSkew.OffsetBound | mobile/lib/core/sync/sync_engine.dart:87-100 | The measured offset is within half the round trip, rounded up to a microsecond, of the true one, for any clocks and delays |
| ClockSkew.OffsetBoundIsTight | mobile/lib/core/sync/sync_engine.dart:97-100 | The bound is attained for every round trip |
| ClockSkew.BelievedTime | mobile/lib/core/sync/sync_engine.dart:35-35 | The time a phone believes the server shows is off by at most its bound, a millisecond more after a restart |
| ClockSkew.TwoPhonesAgree | mobile/lib/features/focus/domain/focus_session.dart:72-78 | Two phones showing one row at one moment differ by at most the sum of their bounds |
| AuthRuns.ReachableAuth | server/internal/store/auth.go:283-336 | In every reachable state every token is in its family's chain and every session of a revoked passkey is revoked |
| AuthRuns.FamilyIsChain | server/internal/store/auth.go:444-577 | The tokens of a family are exactly one linear chain: it starts at the token that names it, parent and replacement links are inverse, all but the last are consumed, all belong to one session |
| AuthRuns.RotatesOnce | server/internal/store/auth.go:525-541 | No token rotates successfully twice in any run |
| AuthRuns.OnlyTheLastRotates | server/internal/store/auth.go:525-554 | A successful rotation presents the last token of the chain, and the new token is the last of the longer chain |
| AuthRuns.ReuseEndsFamily | server/internal/store/auth.go:500-521 | After reuse is detected no token of that family ever rotates again |
| AuthRuns.RevokedForever | server/internal/store/auth.go:579-604 | A revoked session never validates again and none of its tokens rotates, whatever happens in between, logins on the same device included |
| AuthRuns.RevocationIsPermanent | server/internal/store/auth.go:659-804 | Logout, a revoked passkey, a revoked installation and token reuse each end the sessions they name for ever |
| AuthRuns.RevokedPasskeyIsDead | server/internal/store/auth.go:659-689 | No session made with a revoked passkey validates, whenever it was made |
| AuthRuns.OtherAccountsUntouched | server/internal/store/auth.go:766-804 | Revoking one account's installation changes no validation of another account with the same installation identifier |
| AuthRuns.OtherAccountsRotate | server/internal/store/auth.go:766-804 | Nor the answer to any rotation by it |
| AuthEffects.OpMeans | server/internal/store/auth.go:177-804 | A description of every operation column by column fits exactly one outcome in any state, and that is the operation's |
| AuthEffects.GrantedIff | server/internal/store/auth.go:444-577 | A rotation is granted if and only if the stored hash is the one presented, the token is unconsumed and unrevoked, its session and device are not revoked, its account is active, neither expiry has passed and the new identifier is free; it is reuse if and only if the hash matches and the token is consumed |
| AuthEffects.GrantNeedsSecret | server/internal/store/auth.go:444-577 | In every run, a granted rotation presents the secret that an earlier grant handed out with that token, within the expiry it was given |
| AuthEffects.WrongSecretChangesNothing | server/internal/store/auth.go:497-499 | A wrong secret changes no table, for a live token and for a used one |
| AuthEffects.ValidMeans | server/internal/store/auth.go:579-604 | At every moment of every run an access token is good if and only if it comes from a granted login whose expiry lies ahead, its account was activated, and since then no logout, passkey or device revocation or token reuse has ended its session |
| AuthStore.AuthStore.RotateRefresh | server/internal/store/auth.go:444-577 | The tables and answer are those of the rotation function in every branch, rollback included, and every column is as `AuthEffects.RotateDoes` says |
| AuthStore.AuthStore.InsertSession | server/internal/store/auth.go:283-336 | The installation is reactivated, the session and its first token are new |
| AuthStore.AuthStore.ActivateAccount | server/internal/store/auth.go:177-241 | Tables and answer of activation, with rollback on a duplicate |
| AuthStore.AuthStore.CreateLoginSession | server/internal/store/auth.go:243-281 | Tables and answer of a passkey login |
| AuthStore.AuthStore.ValidateAuthSession | server/internal/store/auth.go:579-604 | Answers whether the access token is still good, after every way it can have ended; `AuthEffects.ValidMeans` says what that is over a run |
| AuthStore.AuthStore.EndCredential | server/internal/store/auth.go:659-689 | Tables and answer of revoking a passkey with its sessions |
| AuthStore.AuthStore.EndInstallation | server/internal/store/auth.go:766-804 | Tables and answer of revoking an installation with its sessions |
| RateLimiter.PruningIsInvisible | server/internal/httpapi/middleware.go:43-49 | Pruning over 10,000 buckets changes no answer of any run, for any limit and interval |
| RateLimiter.AllowedMeans | server/internal/httpapi/middleware.go:35-52 | A call is granted if and only if its key, this call included, has been called at most the limit's number of times since its last window opened, where a window opens at the first call after the one before has run out |
| RateLimiter.SpanBound | server/internal/httpapi/middleware.go:35-52 | In any half-open span of one interval a key gets at most 2 x limit - 1 grants, over any calls by any keys |
| RateLimiter.SpanBoundIsReached | server/internal/httpapi/middleware.go:35-52 | For every limit there is a run that reaches that bound |
| RateLimiter.RateLimiter.Allow | server/internal/httpapi/middleware.go:35-52 | The answer is the model's, and the buckets are those of the calls so far |
| RateLimiter.RateLimiter.DeleteFaded | server/internal/httpapi/middleware.go:44-48 | The loop deletes exactly the buckets older than two intervals |
| PushQueue.ClaimsAreBounded | server/internal/store/push.go:76-131 | In every run of one worker a job is claimed at most 11 times, and after the eleventh it has left the queue |
| PushQueue.SettledForever | server/internal/store/push.go:84-95 | A sent or failed job stays so and is never claimed again, whatever devices are registered or revoked |
| PushQueue.DeliveredOnce | server/internal/apns/client.go:239-263 | The push service accepts a job at most once, and it is then out of the queue |
| PushQueue.LockExcludes | server/internal/store/push.go:84-107 | While its lock lasts a claimed job without an outcome is claimed by no worker |
| PushQueue.DelayIsBounded | server/internal/apns/client.go:265-284 | Every retry delay is positive and at most an hour, whatever Retry-After says and whatever the attempts |
| PushQueue.RetryAfterHonoured | server/internal/apns/client.go:162-166 | A Retry-After is honoured up to an hour if and only if its nanoseconds fit 64 bits or wrap to at least an hour |
| PushQueue.RetryAfterCanWrap | server/internal/apns/client.go:162-166 | A value of 584 years that is answered with a delay of 0.29 seconds |
| PushQueue.BackoffGrows | server/internal/apns/client.go:269-280 | Without a Retry-After each attempt waits longer than the one before, whatever the jitter |
| PushEffects.AnswerMeans | server/internal/apns/client.go:239-285 | A description of what each answer of the push service does to the queue, column by column and with the pauses written out, fits exactly one state, and that is the worker's |
| PushEffects.LockMeans | server/internal/store/push.go:76-131 | A claim locks the jobs it picks for a minute and changes nothing else |
| PushEffects.PauseIsKept | server/internal/apns/client.go:265-284 | In every run of one worker, the next claim of a job that is to be tried again comes after its whole pause |
| PushWorker.BatchIsRun | server/internal/apns/client.go:226-237 | A tick of the worker is a stretch of a run of the model |
| PushWorker.PushStore.ClaimPushJobs | server/internal/store/push.go:76-131 | Claims the oldest claimable jobs, at most the limit, locks exactly those and returns their attempts |
| PushWorker.PushStore.RevokePushToken | server/internal/store/push.go:169-199 | Revokes the device and fails all its open jobs |
| PushWorker.Worker.ProcessJob | server/internal/apns/client.go:239-263 | Each answer of the push service has the effect of the model, as `PushEffects.AnswerDoes` describes it |
| PushWorker.Worker.RetryJob | server/internal/apns/client.go:265-285 | The tenth retry fails the job; otherwise it becomes available after the delay |
| PushWorker.Worker.ProcessBatch | server/internal/apns/client.go:226-237 | The loop over a claimed batch has the effect of handling its jobs in order |
| Hub.TakenInOrder | server/internal/realtime/hub.go:47-57 | What a subscriber took and still holds is a subsequence of what was published, in order, never more than 8 held |
| Hub.HintFollowsPublish | server/internal/realtime/hub.go:47-57 | After every publish, dropped or not, a subscriber that later holds nothing has taken a hint since |
| Hub.Hub.Publish | server/internal/realtime/hub.go:47-57 | Every subscriber of the pair has something to receive; one that missed the hint holds 8 |
| Hub.Hub.Subscribe | server/internal/realtime/hub.go:29-45 | Adds one empty channel to the pair and touches no other pair |
| Hub.Hub.Unsubscribe | server/internal/realtime/hub.go:36-43 | Removes the channel and an empty entry; calling it again changes nothing |
| Truncation.Bounded | server/internal/httpapi/diagnostic_handlers.go:117-127 | The result is the longest prefix of whole characters of the trimmed text that fits, and gives up at most three bytes |
| Truncation.FitIsLongest | server/internal/httpapi/diagnostic_handlers.go:117-127 | A prefix fits in the limit if and only if it is no longer than the chosen one |
| Truncation.CutIsValid | server/internal/httpapi/diagnostic_handlers.go:123-125 | A cut of an encoded text is valid UTF-8 exactly when it falls between two characters |
| Truncation.TrimRemovesSpace | server/internal/httpapi/diagnostic_handlers.go:118-118 | Trimming removes exactly the white space at both ends |

## Left out

- Store.Store.StartSession: does not model the push jobs inserted for the partner, nor the hint sent with each event; the push queue takes jobs as they come.
- Store.Store.AddSessionNote: does not model the push jobs inserted for the partner.
- Phone.SyncEngine.PerformSync: has no other caller between its pages; `SyncTheorems.ConvergenceExact` does.
- Offline.SessionRepository.StartOffline: models the offline branches of a start only; the online one is the optimistic write named below.
- Offline.SessionRepository.Complete: does not model the flag that a row waits for a sync, nor the sync started afterwards.
- AuthStore.AuthStore.ActivateAccount: an account is active or not; the pending status and the recovery codes are not modelled.
- AuthStore.AuthStore.ValidateAuthSession: does not model the name and pair that the query also reads.
- AuthStore.AuthStore.EndInstallation: does not model the push devices that are revoked in the same transaction.
- The single use of recovery codes: `AuthStore.AuthStore.UseRecoveryCode` takes the code as already checked.
- Notes in convergence: a note can reach the phone both in a snapshot and as an event of its own, so only rows and participants are claimed to agree; `StoreRuns.JournalReplays` covers notes for a replay from nothing.
- Display names, and the account, pair and history read models: stored text that no branch depends on.
- The optimistic local start and its deletion on an error: it writes a session the server may have, outside the sync engine.
- The guard that lets only one sync run at a time: syncs are taken one after the other.
- A serialization failure (SQLSTATE 40001) during the two reads fails the whole request with status 409, which to the phone is a lost request; during a command it is the step `SyncProtocol.Deny`.
- Requests that are still being served after the phone gave them up: see the hypotheses.
- Ties in creation times: the outbox order and the claim order are then any.
- The order of participants who joined in the same microsecond: members are kept in joining order.
- The column `dissolved_at` of pairs: nothing in the repository sets it.
- The cache of the push service's provider token: signing is foreign code.
- WebAuthn ceremonies, access-token signing, password hashing and encryption: hashes are values compared for equality.
- Account deletion and pending accounts: an account is active or it is not.
- LISTEN/NOTIFY, WebSockets and their reconnects: hints can be lost there, so nothing is claimed beyond the hub.
- HTTP, JSON, routing, logging, configuration, migrations, scripts and the Flutter user interface: no state worth proving.
- Database date precision and the saturation of Go durations at 292 years: times are exact integers.
- `strings.TrimSpace` on bytes: `Truncation.Trim` works on the characters of a text, which is what valid UTF-8 decodes to.
