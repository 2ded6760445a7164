# Verified model of fasti-kit's stateful core

A Dafny model of the parts of fasti-kit where several requests, processes and a
clock meet over shared state, with proofs of what those parts promise.  Verify
it with `dafny verify dfyconfig.toml`.

The pattern is the same for each protocol.  A datatype holds the whole state, an
event datatype lists every atomic step, `Step` says what one event does, and
`Run` folds a sequence of events.  Theorems quantify over every sequence of
events, so over every interleaving, crash and clock.  Beside each protocol stand
classes in the form of the code, with fields their methods update, loops, and
failures as parameters.  The contract of a service call (login, refresh, following
a link, the token check, logout, closure, registration, a relay's batch, a retry)
says that it is a run of its protocol with other requests' events before each of
its own steps.  The repositories, the routed session, the cache and the text edits
take one step each, or one after another, and their contracts say which.

| files | part of the system |
|---|---|
| `AuthTables`, `AuthProtocol`, `AuthInvariant`, `AuthTheorems`, `LinkTheorems`, `PurgeTheorems` | refresh-session rotation, logout, closure, one-time links and purges (the rotation is that of section 4.14.2 of RFC 9700) |
| `AuthRepositories`, `AuthService` | the repositories over a transactional database, and the service calls under interference |
| `Blocklist`, `BlocklistFlush`, `BlocklistService` | revoked tokens in Redis in front of their table, and what a loss of Redis does |
| `Outbox`, `OutboxTheorems`, `OutboxFairness`, `OutboxService` | the transactional outbox, its relays, waiting times, dead letters, registration |
| `MailDelivery` | accounts and outbox together: the mail with a pending link |
| `Routing`, `ResilientSession` | primary/replica routing, the pin, failover |
| `Cache`, `CacheService` | cache-aside with tag invalidation |
| `Naming`, `TextMerges`, `ListEdits` | the scaffolder's names and text edits |
| `Interleaving` | one request's steps among everyone else's, shared by the three service modules |
| `Options`, `Text`, `Fresh` | shared result shapes, string functions, unused numbers |

Time is an integer number of microseconds in the authentication, blocklist and
outbox models, and a plain integer in the cache.  A repository call is one
atomic step with one clock reading; a service call is a sequence of such steps.
Database picks (which rows a locking select returns), queue and Redis answers,
fresh identifiers and replica lag are parameters, and the theorems hold for all
of them.

## Where the code does less than one might expect

The model follows the code in each case, gives a witness, and states exactly when
the promise does hold.

- A logout revokes the session named in the cookie only when the caller owns it;
  otherwise that session can go on rotating (`AuthTheorems.LogoutEndsOwnSessionOnly`,
  an equivalence).
- A one-time link can be consumed twice when its row is purged while a second
  request that decoded it in time is still under way
  (`LinkTheorems.UncalmPurgeAllowsTwoUses`).  A purge makes a second use possible if
  and only if some request has by then read its user, or has decoded the token and
  its user still waits for it (`LinkTheorems.SecondUseExactly`); without a purge at
  such a moment there is at most one use (`LinkTheorems.LinkConsumedAtMostOnce`).
- For the same reason a purge of the token table can be seen: from each such moment
  some future consumes the link more often than the same run without purges
  (`PurgeTheorems.UncalmPurgeShows`).  A run whose purges avoid such moments looks
  the same without them (`PurgeTheorems.PurgesAreInvisible`).
- A Redis flush while a logout is between its two writes, or while a seeder holds a
  list that lacks a row committed since, makes the blocklist miss a revoked token
  (`BlocklistFlush.FlushDuringLogoutDisagrees`,
  `BlocklistFlush.FlushDuringSeedingDisagrees`).
  `BlocklistFlush.FlushIsHarmlessExactly` is the equivalence: the next flush is
  harmless, whatever follows, if and only if each token with a millisecond left that an open
  logout has written is in the table or will be written again, and each seeder has
  still to write every such row of the table.
- The docstring of `_can_fail_over` says it is true only when a rollback destroys
  nothing.  A raw text write that does not start with one of the six keywords can be
  destroyed by a later failover, and a later read on the replica can miss it before
  or after its commit (`Routing.UnannouncedWriteIsLost`).  If every other write is
  recognised, some later failover destroys work, and some later read misses a
  committed write, if and only if that write came with no pin and nothing pending;
  some read misses it before the commit if and only if it came with no pin
  (`Routing.LostExactlyWhenUnannounced`, `Routing.MissedExactlyWhenUnannounced`).
  `Routing.LostExactly`, `Routing.CommittedMissedExactly` and
  `Routing.FlushedMissedExactly` give the conditions for a session in any state.
- Two cached functions that share a tag but not a lifetime lose entries from the
  tag's set while they are live, so an invalidation misses them
  (`Cache.UnequalLifetimesServeStale`); equal lifetimes are necessary and
  sufficient for exact invalidation (`Cache.ExactExactlyWhenUniform`).
- Adding to a list whose values are in single quotes drops them
  (`ListEdits.SingleQuotesAreLost`), and so does adding to any list not written as
  additions write it: an addition inserts behind the old list and changes nothing
  else if and only if the list was the rendering of its double-quoted values
  (`ListEdits.AdditionInsertsExactly`).
- Names with a part that starts with a digit, or with two parts of one letter at
  the end, do not come back from Pascal case; `Naming.RoundTripExactly` is the
  equivalence.

## Model

| member | source | states |
|---|---|---|
| AuthTables.AddAllIfAbsentMeaning | auth/repositories/revoked_token_repository.py:72-78 | inserting tokens one by one where absent keeps every expiry already there and, for each other id, the first expiry given |
| AuthRepositories.Database.EndTransaction | core/database.py:238-245 | what was staged is committed, or, if the body or the commit raised, is gone and the error is raised again |
| AuthRepositories.RefreshSessionRepository.Create | auth/repositories/refresh_session_repository.py:16-23 | one new row, generation 0, never rotated, not revoked, committed |
| AuthRepositories.RefreshSessionRepository.Rotate | auth/repositories/refresh_session_repository.py:25-45 | the compare-and-swap: succeeds exactly for the owner's current generation of a session neither revoked nor expired, and then changes that row only |
| AuthRepositories.RefreshSessionRepository.Get | auth/repositories/refresh_session_repository.py:47-56 | the committed row, with the pin as it was before |
| AuthRepositories.RefreshSessionRepository.RevokeMatching | auth/repositories/refresh_session_repository.py:81-87 | stamps exactly the matching rows not revoked yet |
| AuthRepositories.RefreshSessionRepository.Revoke | auth/repositories/refresh_session_repository.py:58-60 | the session of that id is revoked and committed, whoever owns it |
| AuthRepositories.RefreshSessionRepository.PurgeExpired | auth/repositories/refresh_session_repository.py:71-79 | deletes exactly the rows at or past their expiry and counts them |
| AuthRepositories.RevokedTokenRepository.Contains | auth/repositories/revoked_token_repository.py:23-35 | whether an unexpired row of that id is committed, with the pin restored |
| AuthRepositories.RevokedTokenRepository.ActiveTokens | auth/repositories/revoked_token_repository.py:37-48 | exactly the unexpired rows, with the pin restored |
| AuthRepositories.RevokedTokenRepository.StageAdd | auth/repositories/revoked_token_repository.py:60-70 | a second row of one id is a conflict and rolls back all that was staged; otherwise the row is staged |
| AuthRepositories.RevokedTokenRepository.StageAddIfAbsent | auth/repositories/revoked_token_repository.py:72-78 | an existing row of that id stays as it is |
| AuthRepositories.RevokedTokenRepository.PurgeExpired | auth/repositories/revoked_token_repository.py:50-58 | deletes exactly the expired rows and counts them |
| AuthRepositories.UserRepository.GetConsistent | user/repositories/user_repository.py:47-56 | the committed user, with the request pinned |
| AuthRepositories.UserRepository.StageUpdate | user/repositories/user_repository.py:125-137 | the change is staged on an existing user only |
| AuthRepositories.AccountRepository.ConsumeLink | auth/repositories/account_repository.py:24-41 | verification and reset: all of user, token and sessions in one commit, or nothing on an unknown user, a used token or a failing commit |
| AuthRepositories.AccountRepository.Start | auth/repositories/account_repository.py:43-61 | the pending id and the mail event are one commit, or nothing on an unknown user or a failing commit |
| AuthRepositories.AccountRepository.StageAll | auth/repositories/account_repository.py:70-71 | every token is staged where absent |
| AuthRepositories.AccountRepository.Logout | auth/repositories/account_repository.py:63-73 | tokens and the caller's own session in one commit, or nothing if it fails |
| AuthRepositories.AccountRepository.Close | auth/repositories/account_repository.py:75-85 | user, tokens and all the user's sessions in one commit, or nothing on an unknown user or a failing commit |
| AuthService.InterleaveNext | auth/services/auth_service.py:64-90 | a request's next step, after whatever the others do, continues its run of the protocol |
| AuthService.OthersLeave | auth/services/auth_service.py:64-126 | nobody else begins a request, moves it along or changes a link |
| AuthService.AuthServer.Login | auth/services/auth_service.py:53-62 | for every interference, a run of the protocol's login: a session exactly for a right password of an active and verified user |
| AuthService.AuthServer.Refresh | auth/services/auth_service.py:64-90 | for every interference, the whole call and each of its exits is a run of the protocol's refresh |
| AuthService.AuthServer.RotateOrDiagnose | auth/services/auth_service.py:72-90 | the part after the user check, likewise |
| AuthService.AuthServer.Diagnose | auth/services/auth_service.py:76-90 | the part after a rotation that missed, likewise |
| AuthService.AuthServer.SettleMiss | auth/services/auth_service.py:80-90 | the grace test and the revocation, likewise |
| AuthService.AuthServer.CheckUser | auth/services/auth_service.py:67-70 | only an active and verified user goes on |
| AuthService.AuthServer.TryRotate | auth/services/auth_service.py:72-74 | the step of the rotation |
| AuthService.AuthServer.Fetch | auth/services/auth_service.py:76 | the separate read after a miss |
| AuthService.AuthServer.JudgeLive | auth/services/auth_service.py:206-212 | the liveness test on the row read |
| AuthService.AuthServer.JudgeGrace | auth/services/auth_service.py:214-219 | the grace test on the row read |
| AuthService.AuthServer.Revoke | auth/services/auth_service.py:85 | the revocation, whatever the row has become since |
| AuthService.AuthServer.FollowLink | auth/services/auth_service.py:105-126 | verification and reset after decoding: for every interference, a run of the protocol's link request; if its commit fails, the request has changed nothing |
| AuthService.AuthServer.FollowUnused | auth/services/auth_service.py:159-174 | the part after the check for use, likewise |
| AuthService.AuthServer.CheckUnused | auth/services/auth_service.py:193-194 | the check for use |
| AuthService.AuthServer.CheckPending | auth/services/auth_service.py:159-164 | an unknown or closed user, or a superseded token, is refused |
| AuthService.AuthServer.CommitNow | auth/services/auth_service.py:166-174 | a conflict at the commit is an invalid link; a commit that fails raises and changes nothing |
| AuthInvariant.StepChange | auth/repositories/refresh_session_repository.py:16-87 | every event changes the session rows by at most one creation, rotation, revocation or purge, and the issued tokens with it |
| AuthInvariant.StepEffect | auth/repositories/account_repository.py:24-85 | every event changes users, revoked tokens, outbox and links by at most one of the account transactions |
| AuthInvariant.ChangedRows | auth/repositories/refresh_session_repository.py:25-87 | a row only evolves, goes only once expired, and appears only by creation |
| AuthInvariant.StepInv | auth/services/auth_service.py:64-126 | every event keeps the invariant that ties issued tokens, requests under way, closed users and links to the rows |
| AuthInvariant.RunInv | auth/services/auth_service.py:64-126 | and so does every run |
| AuthTheorems.RotationNeeds | auth/services/auth_service.py:67-74 | a rotation happens only in a refresh that found its user active, for an issued token of a session that is not dead |
| AuthTheorems.RefusalIsFinal | auth/services/auth_service.py:64-90 | after an invalid-token refusal, by whichever exit, no rotation of that session and user succeeds in any future |
| AuthTheorems.ReuseIsNeverCurrent | auth/services/auth_service.py:72-90 | at the revocation the presented generation is strictly below the stored one, by more than one or past the grace |
| AuthTheorems.RotationIsLinear | auth/repositories/refresh_session_repository.py:25-45 | per session and generation at most one rotation ever succeeds; the tokens issued carry generations 0 to the stored one, once each |
| AuthTheorems.SessionsOnlyEvolve | auth/repositories/refresh_session_repository.py:16-87 | owner and expiry never change, revocation is written once and freezes the generation, and a session is unrotated exactly at generation 0 |
| AuthTheorems.ClosureStopsRefresh | auth/repositories/account_repository.py:75-85 | after a closure commits, no rotation for that user succeeds, by requests under way or sessions created later |
| AuthTheorems.ResetEndsSessions | auth/repositories/account_repository.py:32-41 | every session there when a reset commits never rotates again |
| AuthTheorems.LogoutEndsOwnSessionOnly | auth/repositories/account_repository.py:63-73 | the session named in a logout never rotates again if and only if the caller owns it |
| AuthTheorems.LiveSessionRotates | auth/services/auth_service.py:64-74 | a live session of a user in good standing has a future in which it rotates |
| LinkTheorems.LinkUsesAreAccounted | auth/services/auth_service.py:105-126 | uses of a link equal its rows present plus its rows purged, in every run |
| LinkTheorems.SecondUseExactly | auth/repositories/revoked_token_repository.py:50-58 | after the purge of a used link's expired row, a further use is possible if and only if some request has read its user, or has decoded the token and its user still waits for it |
| LinkTheorems.LinkConsumedAtMostOnce | auth/repositories/revoked_token_repository.py:60-70 | at most one use, however many requests race, when no purge takes this link's row while a request can still commit it (section 4.1.4 of RFC 7519) |
| LinkTheorems.LinksAreAllOrNothing | auth/services/auth_service.py:150-174 | a losing request changes no table in any of its steps; a winning one makes the whole change in one step, and no later step of its own changes anything |
| LinkTheorems.RacersBothConsume | auth/repositories/revoked_token_repository.py:50-58 | two requests past their checks both commit when the row is purged in between |
| LinkTheorems.PendingLinkCanBeRaced | auth/services/auth_service.py:105-126 | any pending unused link can be brought to that point |
| LinkTheorems.UncalmPurgeAllowsTwoUses | auth/repositories/revoked_token_repository.py:50-58 | a whole history in which one link verifies twice |
| PurgeTheorems.SharedStep | auth/repositories/refresh_session_repository.py:71-79 | one event keeps a run and the same run without purges alike |
| PurgeTheorems.ErasureSimulates | auth/repositories/refresh_session_repository.py:71-79 | a run with purges is simulated by the run without them: always for session purges, and for token purges when none takes a row from under a request that can still commit the link |
| PurgeTheorems.PurgesAreInvisible | auth/repositories/revoked_token_repository.py:23-58 | under the same condition every request has the same outcome with or without purges, and the two token queries answer the same |
| PurgeTheorems.UncalmPurgeShows | auth/repositories/revoked_token_repository.py:50-58 | from every moment at which the condition fails, some future consumes the link more often than the same run without purges |
| PurgeTheorems.TokenPurgesCanShow | auth/repositories/revoked_token_repository.py:50-58 | a whole history with two uses of a link whose erasure has at most one |
| Blocklist.StepInv | auth/blocklist.py:22-59 | every event keeps the agreement of Redis, table, seeders and logouts under way |
| Blocklist.RunInv | auth/dependencies.py:38-58 | and so does every run whose flushes are guarded |
| Blocklist.BlocklistAgrees | auth/blocklist.py:22-59 | when READY is set, every token with an unexpired committed row has a key that lives to within a millisecond of its expiry |
| Blocklist.CheckNeverMisses | auth/dependencies.py:38-58 | a check of a token with a committed row and a millisecond left never answers that it is not revoked, whatever happens during the check |
| Blocklist.NoFalseAlarm | auth/dependencies.py:38-58 | a check answers that a token is revoked only when some logout or closure named it |
| Blocklist.WriteCovers | auth/blocklist.py:26-30 | a lifetime in whole milliseconds still reaches to within a millisecond of the expiry, however late the write |
| BlocklistFlush.FlushIsHarmlessExactly | auth/blocklist.py:22-59 | after a history whose flushes were safe: in every future of one more flush READY implies a key for each lasting row, if and only if that flush came at a safe moment, read off logouts and seeders under way |
| BlocklistFlush.UnsafeFlushDisagrees | auth/blocklist.py:22-59 | the future that shows it, from any unsafe moment |
| BlocklistFlush.FlushDuringLogoutDisagrees | auth/services/auth_service.py:92-96 | a flush between a logout's two writes defeats the agreement |
| BlocklistFlush.FlushDuringSeedingDisagrees | auth/dependencies.py:55-56 | a flush between a seeder's list and its READY, with a logout in between, defeats the agreement |
| BlocklistService.TokenBlocklist.Revoke | auth/blocklist.py:22-32 | lifetimes by one clock reading, then all writes, or on an error the prefix that reached Redis; with others before each write, a run of the protocol's writes |
| BlocklistService.TokenBlocklist.LookupKey | auth/blocklist.py:34-44 | no answer when Redis is down or not ready, else whether the key is live |
| BlocklistService.TokenBlocklist.TryClaim | auth/blocklist.py:46-52 | one winner while the lock lasts, none when Redis is down |
| BlocklistService.TokenBlocklist.Seed | auth/blocklist.py:54-59 | a run of the protocol's seeding: READY only after every write of the list, never when a write or READY itself failed, and the check's answer stays |
| BlocklistService.TokenGate.IsTokenRevoked | auth/dependencies.py:38-58 | for every interference a run of the protocol's check that ends in the answer returned, a step failing only when Redis was down for it; a token without an id is revoked |
| BlocklistService.SessionEnder.Logout | auth/services/auth_service.py:92-96 | for every interference a run of the protocol's logout: on a Redis error or a failing commit nothing is committed, otherwise the whole logout is one commit on the tables as they then stand |
| BlocklistService.SessionEnder.CloseAccount | auth/services/auth_service.py:98-103 | the same for a closure; an unknown user is reported and commits nothing |
| Outbox.EnqueueCount | core/outbox/relay.py:43-59 | one hand-over keeps each row's account of how often the queue took it |
| Outbox.CommitCount | core/outbox/relay.py:61 | so does a commit |
| Outbox.AbortCount | core/outbox/relay.py:43-61 | so does the loss of a batch |
| Outbox.CommitRows | core/outbox/relay.py:43-61 | a committed batch leaves each row pending below the limit, dispatched, or parked at the limit |
| Outbox.LockBatches | core/outbox/relay.py:24-39 | rows locked by one relay are locked by no other |
| Outbox.RetryLetters | core/dead_letter/repository.py:77-96 | a retry keeps one staged row per claimed job, with its function and wrapped arguments |
| Outbox.StepInv | core/outbox/relay.py:21-77 | every event of business transactions, relays, cleanup and dead letters keeps the invariant |
| Outbox.RunInv | core/outbox/relay.py:21-77 | and so does every run |
| OutboxTheorems.CountsAreEvents | core/outbox/relay.py:43-61 | the counters equal the numbers of events they stand for |
| OutboxTheorems.ExactDuplicateCount | core/outbox/relay.py:24-62 | times taken by the queue = lost batches that had enqueued the row + calls that raised after taking it + 1 if dispatched + 1 if enqueued in the open batch |
| OutboxTheorems.OneHolder | core/outbox/relay.py:24-39 | at most one open batch holds a row, and only a pending one |
| OutboxTheorems.NoRowIsLost | core/outbox/relay.py:21-77 | a row once committed is ever after in exactly one of pending, dispatched, parked at the limit, or cleaned after dispatch, and was taken by the queue in the second and fourth |
| OutboxTheorems.NothingLeavesUncommitted | core/outbox/repository.py:15-20 | every job in the queue is a row's whose transaction, or retry, committed before, with that row's content |
| OutboxTheorems.ParkedExactlyAtTheLimit | core/outbox/relay.py:48-52 | a row's attempts are the committed batches that failed to enqueue it, and it is parked if and only if they reach the limit |
| OutboxTheorems.SettledForGood | core/outbox/relay.py:28-31 | a dispatched or parked row never changes and is never enqueued again |
| OutboxTheorems.RetryStagesExactlyOnce | core/dead_letter/repository.py:77-96 | rows ever staged for a job are one if a retry committed and none otherwise, and its mark says which |
| OutboxTheorems.RetriedJobIsNeverLost | core/dead_letter/repository.py:89-96 | a retried job's call is pending, taken by the queue, or parked, in every later state |
| OutboxTheorems.LettersAreRecorded | core/dead_letter/repository.py:21-46 | the function and arguments a retry uses are those first recorded |
| OutboxFairness.RoundSpends | core/outbox/relay.py:43-59 | a round spends at least one attempt for each row it took |
| OutboxFairness.WaitIsBounded | core/outbox/relay.py:24-61 | one relay, committed rounds: a row with r others ever ordered at or before it is passed over in at most r * attempts / batch rounds, whatever arrives |
| OutboxFairness.PendingDrains | core/outbox/relay.py:24-61 | with no new rows, nothing is pending after as many rounds as attempts were left |
| OutboxService.OutboxEvent.Settle | core/outbox/relay.py:46-52 | what one answer does to the row's fields |
| OutboxService.Relay.Select | core/outbox/relay.py:24-39 | the locked rows become the session's objects, one each |
| OutboxService.Relay.Turn | core/outbox/relay.py:43-59 | one turn over an object is one hand-over of the protocol |
| OutboxService.Relay.Commit | core/outbox/relay.py:61 | the objects' changes reach exactly their rows |
| OutboxService.Relay.Loop | core/outbox/relay.py:41-59 | the loop and its two counts, with others at work before each turn |
| OutboxService.Relay.DispatchPending | core/outbox/relay.py:21-62 | the whole call, with others at work before its lock, each turn and its commit, committed or lost after any turn, is a run of the protocol; the result counts accepted and failed rows |
| OutboxService.CleanupDispatched | core/outbox/relay.py:65-77 | deletes only rows dispatched before the cutoff, and counts them |
| OutboxService.RelayLoop | core/outbox/relay.py:94-117 | the counter is the length of the current streak of failures; the log marks each streak's first failure and its end |
| OutboxService.DeadLetterRepository.Retry | core/dead_letter/repository.py:77-96 | claim and staging together: a staging failure leaves the whole state as it was; no result exactly for a job that is absent or claimed |
| OutboxService.DeadLetterRepository.Delete | core/dead_letter/repository.py:98-108 | removes the job and says whether it was there |
| OutboxService.DeadLetterRepository.Purge | core/dead_letter/repository.py:110-126 | removes exactly the matching jobs; restricted to retried ones it leaves every unclaimed job |
| OutboxService.DeadLetterService.RetryJob | core/dead_letter/service.py:34-43 | success exactly for a job unclaimed after the others moved; otherwise absent or conflict by what is there after they moved again |
| OutboxService.DeadLetterService.Purge | core/dead_letter/service.py:45-53 | refuses exactly an unbounded purge of unclaimed jobs |
| OutboxService.ClaimedForGood | core/dead_letter/repository.py:82-84 | a claimed or removed job is never unclaimed again |
| OutboxService.RegisteredEventWaits | user/repositories/user_repository.py:36-45 | a transaction that stages one mail and commits leaves that row pending, and changes no other row |
| OutboxService.UserRepository.Register | user/repositories/user_repository.py:26-45 | for every interference a run of one transaction: user and event both or neither; a taken address is the conflict; addresses stay distinct |
| MailDelivery.PendingLinkIsMailed | auth/repositories/account_repository.py:43-61 | in every run of accounts and outbox together, each user's pending link has an outbox row with its mail, and that row is waiting, or was taken by the queue, or is parked |
| Routing.StepInv | core/database.py:85-136 | every operation keeps: work flushed or committed by the session implies the pin, and no failover has destroyed work |
| Routing.FailoverDestroysNothing | core/database.py:151-188 | over every sequence of operations with recognised writes, a failover rolls back an empty session only |
| Routing.AtMostTwoAttempts | core/database.py:175-188 | one attempt, or two exactly when the first fails operationally in a session with no pin or pending work, the second on the primary |
| Routing.LostExactly | core/database.py:151-188 | from any state, some future with recognised writes has a failover that destroys work if and only if work is flushed with no pin and nothing pending |
| Routing.LostExactlyWhenUnannounced | core/database.py:114-123 | after a run with recognised writes and one more statement, some future has a failover that destroys work if and only if the statement wrote unrecognised with no pin and nothing pending |
| Routing.UnannouncedWriteIsLost | core/database.py:114-123 | every unrecognised text has a run in which its write is lost though the commit succeeds, and one in which the next read misses it after the commit |
| Routing.CommittedMissedExactly | core/database.py:85-123 | from any state, some later read misses a write the session committed if and only if there is no pin and something is committed, or flushed with nothing pending |
| Routing.FlushedMissedExactly | core/database.py:85-123 | from any state, some later read misses an uncommitted write of the session if and only if something is flushed and there is no pin |
| Routing.MissedExactlyWhenUnannounced | core/database.py:114-123 | after a run with recognised writes and one more statement: a later read can miss a committed write if and only if the statement wrote unrecognised with no pin and nothing pending, and an uncommitted one if and only if it did so with no pin |
| Routing.UnrecognisedTexts | core/database.py:115-118 | texts that start with a table expression or a comment are not recognised |
| Routing.RecognisedAnyhow | core/database.py:115-118 | leading space and letter case do not matter |
| Routing.PinsExactly | core/database.py:102-136 | which operations pin a session |
| Routing.PinStays | core/database.py:102-103 | a pinned session stays pinned |
| Routing.ReadsItsWrites | core/database.py:96-123 | every read sees all the session's commits and its uncommitted writes, whatever the lag |
| Routing.MonotonicAfterPin | core/database.py:96-136 | after the first pinning operation every read sees the whole log, so no less than any before |
| Routing.LogGrows | core/database.py:238-245 | the log only grows, and what the session once owned in it stays its own |
| Routing.CommittedWritesAreRead | core/database.py:96-123 | every later read covers the places at which a commit put its writes, and those writes are still there |
| Routing.ScopedReadsLeaveNoTrace | auth/repositories/revoked_token_repository.py:23-46 | a request with its scoped reads left out ends in the same state, and its other reads observed the same |
| ResilientSession.RoutingSession.GetBind | core/database.py:85-123 | the routing decision and the pin it leaves |
| ResilientSession.RoutingSession.MayFailOver | core/database.py:151-173 | no pin and no pending work |
| ResilientSession.RoutingSession.Execute | core/database.py:175-203 | the attempts made, what is rolled back between them, and which error comes out |
| ResilientSession.RoutingSession.Flush | core/database.py:126-136 | a flush with work pins first |
| ResilientSession.RoutingSession.Commit | core/database.py:238-245 | pending work is flushed and joins the log, or all is rolled back |
| ResilientSession.RoutingSession.ReadScoped | auth/repositories/refresh_session_repository.py:47-56 | set, read on the primary, reset |
| ResilientSession.DbSession | core/database.py:218-230 | a request starts unpinned, any sequence of operations is a run of the model, and the caller's pin is back at the end |
| Cache.StepInv | core/cache.py:55-114 | every event keeps each live entry in each of its tag sets with the set's deadline no earlier |
| Cache.InvalidationIsExact | core/cache.py:93-114 | an invalidation removes exactly the live entries that carry one of the tags |
| Cache.CachedRefinesDirect | core/cache.py:55-86 | a call answers as the undecorated function unless its data changed with no invalidation of its tags since |
| Cache.CacheIsInvisible | core/cache.py:55-114 | when each change is followed by its invalidation, every call answers as the undecorated function |
| Cache.CoveredExactlyWhenUniform | core/cache.py:76-84 | the deadline property holds in every run if and only if functions sharing a tag share their lifetime |
| Cache.ExactExactlyWhenUniform | core/cache.py:76-114 | every invalidation in every run is exact if and only if functions sharing a tag share their lifetime |
| Cache.UnequalLifetimesServeStale | core/cache.py:76-84 | for any two functions that share a tag but not a lifetime, a run in which the longer-lived entry survives the tag's invalidation and is served stale |
| Cache.StalenessIsBounded | core/cache.py:63-76 | whatever is invalidated, a call answers with a value that was true less than one lifetime ago |
| CacheService.PositionOrName | core/cache.py:19-21 | an argument by position or by name binds alike |
| CacheService.DefaultOrSpelled | core/cache.py:19-21 | a default left or spelled out binds alike |
| CacheService.SameKeyExactly | core/cache.py:15-32 | two calls share a key exactly when function and all arguments but the ignored ones agree |
| CacheService.GenerateCacheKey | core/cache.py:23-32 | the loop over the bound arguments gives that key |
| CacheService.CachedProgram.Call | core/cache.py:56-86 | the wrapper is the model's call: a live entry, or compute, store and tag |
| CacheService.CachedProgram.InvalidateTags | core/cache.py:93-114 | the two loops are the model's invalidation |
| Naming.SnakeIsIdempotent | scripts/_boilerplate.py:79-83 | snake case is idempotent on every string, and its results are exactly the strings in snake form |
| Naming.SplitsFuse | scripts/_boilerplate.py:17-22 | the two boundary passes insert at each boundary once |
| Naming.PascalIsJoined | scripts/_boilerplate.py:86-87 | Pascal case capitalises each part's first character and drops the underscores |
| Naming.RoundTripExactly | scripts/_boilerplate.py:79-87 | a name comes back from Pascal case if and only if it is in snake form and each of its underscores is one the boundaries recover |
| Naming.PlainNamesReturn | scripts/_boilerplate.py:79-87 | names of parts with a letter and at least one more letter or digit come back |
| Naming.PascalIsInjective | scripts/_boilerplate.py:86-87 | no two such names share a Pascal form |
| Naming.NamesThatDoNotReturn | scripts/_boilerplate.py:17-22 | a part that starts with a digit, or two last parts of one letter, does not come back |
| TextMerges.SplitJoin | scripts/_boilerplate.py:291-313 | written lines read back as they were |
| TextMerges.WiringIsConservative | scripts/_boilerplate.py:291-311 | the original lines survive in order; exactly the missing ones are added, once each |
| TextMerges.WiringKeepsOrder | scripts/_boilerplate.py:295-311 | imports that all came before the includes still do |
| TextMerges.RegisterRouterIsIdempotent | scripts/_boilerplate.py:279-315 | on the text of the file, a second run writes nothing, and the first kept lines and order |
| TextMerges.SourceFile.Register | scripts/_boilerplate.py:279-315 | the method writes exactly that, or nothing when the file or an anchor is missing or both lines are there |
| ListEdits.ValuesRendered | scripts/_boilerplate.py:318-319 | rendered values read back |
| ListEdits.ExtendedKeeps | scripts/_boilerplate.py:326-334 | the value is appended to the list's values, which keep their order; what follows the list is unchanged |
| ListEdits.AddToListIsIdempotent | scripts/_boilerplate.py:322-335 | a second addition changes nothing |
| ListEdits.AddToListTouchesOneList | scripts/_boilerplate.py:322-335 | at most one line changes, and there only the list, to which the value is appended |
| ListEdits.NothingToAdd | scripts/_boilerplate.py:330-335 | with no list, or the value in it, the text comes back untouched |
| ListEdits.AdditionInsertsExactly | scripts/_boilerplate.py:318-334 | the new line is the old one with the value inserted behind the list if and only if the list was the rendering of its double-quoted values |
| ListEdits.FrontSurvivesExactly | scripts/_boilerplate.py:318-334 | the old list is the front of the new one if and only if it was that rendering or went on with a beginning of what is added |
| ListEdits.TrailingCommaSurvives | scripts/_boilerplate.py:318-334 | a list with a trailing comma is not that rendering and yet is kept as the front |
| ListEdits.SingleQuotesAreLost | scripts/_boilerplate.py:318-334 | a list without double quotes is replaced by the added value alone |
| ListEdits.RegisterAllIsIdempotent | scripts/_boilerplate.py:338-347 | adding a domain to all seven lists twice is adding it once |
| ListEdits.ListValues | scripts/_boilerplate.py:318-319 | the matches left to right |
| ListEdits.AddValue | scripts/_boilerplate.py:322-335 | the loop over matches edits the first that qualifies |
| ListEdits.ProjectFile.Register | scripts/_boilerplate.py:372-413 | all lists or none: what is written parses and names the domain in every list, and a further registration would change nothing; otherwise the file is as it was |

## Left out

- HTTP routes, cookies, CSRF, rate limits, middleware, problem formatting, health checks, migrations, seeding, logging texts and mail.
- Signing and decoding of tokens, password hashing, SHA-256 and JSON: tokens decode only if issued, identifiers are fresh, the digest is injective and a stored result reads back equal.
- `refresh_session_claims` and the parsing of cookies: a request arrives with its claims.
- Postgres and SQLAlchemy internals: a transaction is all or nothing on the latest committed state; no snapshots inside one, no identity map, no commit of an aborted transaction.
- A commit that fails is modelled for the account transactions and the outbox; the single-table repositories' commits succeed. A commit whose outcome the caller cannot know is not modelled.
- The clock of `rotate` is read just before its UPDATE; the model reads it in the same step.
- Floating-point rounding in `total_seconds() * 1000` may lose one more millisecond of a key's life than the truncation modelled.
- In the blocklist's classes the others change Redis and the revoked tokens; users and sessions are changed by the call alone. A database error in a check is not modelled.
- Partial loss of Redis (evictions, a lost tail of its log): only a full flush is modelled.
- `force_delete`, `list`, `add`, `update` and `delete` of users, and e-mail uniqueness outside registration: not used by the protocols.
- Verification and reset are one link request with a kind; what they set on the user differs by kind, and response messages are not modelled.
- The queue's own deduplication by job key and the jobs' execution; `last_error`; the relay's heartbeat.
- The dead-letter hook, which swallows its own failures: the model starts from recorded jobs.
- Interleavings inside a cached call or an invalidation: the cache's operations follow one another. A cached function that raises stores nothing and is not modelled.
- `bind_override_var`, pool listeners and engine disposal.
- `update_init`, `merge_imports`, `register_model`, `parse_fields` and the code templates; they rest on Python's parser.
- Text outside ASCII in the naming functions, and white space outside ASCII before a raw statement.
- AuthTheorems.LogoutEndsOwnSessionOnly: the equivalence is stated for a session that is live and whose owner may refresh; for any other session nothing rotates in any case.
- LinkTheorems.LinkConsumedAtMostOnce: needs the condition that LinkTheorems.SecondUseExactly shows to be exact; the law without it is LinkTheorems.LinkUsesAreAccounted.
- PurgeTheorems.PurgesAreInvisible: token purges need that condition; PurgeTheorems.UncalmPurgeShows is what happens without it.
- Blocklist.BlocklistAgrees: covers tokens named by logouts and closures; the rows of one-time links are not written to Redis by the code.
- ListEdits.AddToListIsIdempotent: the value holds no quote, bracket or line break and the key no space, as the callers' domain names and keys do not.
