# Verified model of la-memoria

la-memoria is a self-hosted bookmark manager written in Go. This project models the
parts of it whose correctness depends on more than one function, and proves what they
guarantee. `dafny verify dfyconfig.toml` checks everything (Dafny 4.11).

**Screenshots.** Saving, updating and deleting bookmarks, capturing screenshots and
retrying failed removals touch four stores that share no transaction: files (staging,
promoted, quarantine), bookmark rows, capture drafts and the cleanup queue.
`ScreenshotModel` gives every operation as a process that makes one port call per step;
each call either takes effect or fails without effect. `SagaSystem` interleaves any number
of them, with time passing, drafts expiring and drafts going with their session at any
point. `SagaLedger`, `SagaSafety` and `SagaTheorems` prove what holds in every
interleaving; the ledger says for each promoted or quarantined key which process, row or
cleanup record answers for it. `SagaAddresses` proves exactly which runs keep bookmarks and
captured addresses together. `SagaSerial` proves the exact results of operations run one
after the other with arbitrary failures, and `SagaOutcome` what an answer says about rows,
in every interleaving and one after the other. `SagaRaces` gives runs that go wrong.
`DraftLifecycle`, `DraftExpiry`, `DraftOwners`, `FinalStates`, `StagedFiles` and
`ReadyDrafts` are about capture drafts, with `DraftRaces` for runs that go wrong.
`ScreenshotUseCases` has the use cases and adapters as classes that change their
state in place; each method is proved to do what its process does when run alone, and
`SoloIsPerform` carries the theorems about processes over to them. `OperationEffects` and
`CleanupEffects` say, from stores, input and failing calls, exactly when each operation
succeeds, and what it then leaves. `CleanupQueue` and `CleanupWorkers` model the queue itself
with many workers, `Retention` the retention pass.

**Signing in.** `LoginThrottle` proves the in-memory throttle and the PostgreSQL UPSERT,
with or without retention, to be indistinguishable to sign-ins one after the other: both
refine one small machine. `ThrottleOverlap` says exactly which overlapping ones tell them apart.
`ThrottleBounds` derives exact bounds on password trials from that machine. `Sessions`
characterises authorization by the history of a run in which any store call may fail;
`Authentication` has the stores and use cases as classes. `Framing` and `JsonLines` model the
command-line stream and the session it carries.

**Everything else.** `CaptureSlots` (the capture semaphore and its deferred close),
`Pagination` and `SearchPages` (count, clamp, cap and offset against one sorted list),
`Tags` and `TagTables` (normalization, upsert, links and the join that reads them back),
`Encodings` and `PasswordHash` (printing and reading password verifiers).

## What the model takes for granted

- UUIDs and random tokens are numbers that are never handed out twice.
- A rename is atomic, and so is each SQL statement or transaction; an error from either
  means that nothing was written.
- Time is counted in microseconds, the resolution of PostgreSQL, and does not run backwards.
- A crash is a process that takes no more steps.
- SHA-256 digests are injective. Argon2, JSON decoding, URL parsing, white space and case
  mapping are parameters; of trimming only idempotence is used.
- The database orders tag names as Go orders strings.
- A `close` command that fails has ended its browser session all the same: the program
  ignores its outcome and gives the slot back.
- Source addresses contain no NUL character, which makes the key of the in-memory throttle
  injective whatever the user name is.

## Where the code does not do what one would expect

Each of these is proved, with the condition under which things go well; the members are in
the table.

- A row's file can be missing for good only after a failed `Restore`; between operations
  that is exactly when (`MissingExactly`), and in interleavings too, apart from the time a
  deletion of the bookmark is pending (`EveryScreenshotHasItsFile`).
- One failed port call never leaves a file to nobody (`SingleFaultsLeaveNothing`), two can
  (`TwoFailuresLeaveAFile`), and operations that overlap can without any (`OverlapLeavesAFile`);
  `UntrackedFilesHaveACause` says exactly which files those are.
- Operations that overlap can leave a bookmark with the screenshot of another address
  (`OverlapShowsAnotherAddress`): `UpdateBookmark` does not check that a row whose screenshot
  it keeps still has the address that was read. Bookmarks show their own address throughout
  a run if and only if no update of the run does that (`SameAddressExactly`).
- `UpdateBookmark` refused once is enough to leave a ready draft whose file is gone
  (`RefusedUpdateSpendsTheDraft`). Exactly when a ready draft has its file is said by
  `StagedFileExactly` for interleavings and by `ReadyDraftsHaveFiles` between operations.
- Retention marks a draft at the very instant of its expiry, when it is still usable, and a
  draft can be discarded after its lifetime until it is marked; those are exactly the steps
  that can notice a mark (`MarkShowsExactly`, `UnnoticedExactly`).
- The store overwrites a draft's state unconditionally. Operations that overlap can therefore
  revive a draft: a late capture makes an expired one ready (`ExpiredTurnsReady`), and a late
  retry a consumed one, which is then consumed again (`ConsumedTwice`). Consumed, discarded
  and expired are final throughout a run if and only if no draft write of the run replaces
  such a state by another (`FinalExactly`); that is so when drafts reach such a state only
  while no operation has a copy of theirs in hand (`FinalWhenAlone`), and when operations do
  not overlap (`FinalStatesStay`).
- A cleanup pass that cannot complete a record abandons the rest of its batch in the state
  `running`, where no pass looks again (`StuckExactly`, `StuckForGood`).
- Requirement FR-031 promises a block after five failures within ten minutes. The window
  is fixed, not sliding: seven failures within a microsecond need not block, and a half-open
  ten minutes hold up to eight (`SevenNeedNotBlock`, `EightIsReached`); `BlockedExactly` says
  when a failure blocks.
- The two throttle stores answer differently once a failure is recorded for a pair that is
  blocked and whose window is over, which overlapping sign-ins can do (`OverlapHappens`), and
  not otherwise (`AlikeExactly`).
- A sign-in revokes the session presented to it before its last store calls. If one of those
  fails, the sign-in fails and the session is lost (`FailedSignInKeepsExactly`); a stream
  then holds a token that no longer authorizes (`TokenExactly`).
- The check of a scanned line's length never applies, since the scanner rejects such a line
  first (`ScannedLinesFit`). The stream ends at the first line that is too long and does not
  recover, although the documents allow for it (`LongLineEnds`, `FramedExactly`).
- A search cap of zero counts all matches and shows none (`ZeroCapShowsNothing`). The use
  case replaces zero by a default, so this concerns callers of the store only.

Two more remarks, which are not theorems: `ThrottleWindow`, `ThrottleFailures` and
`BlockDuration` are configured but never read (bookmarker/usecase/auth.go:53-61), so the
constants are those of the stores; and the spacing of cleanup retries counts from the start
of a pass, not from the removal attempt.

## Model

| member | source | states |
|---|---|---|
| SagaTheorems.EveryScreenshotHasItsFile | bookmarker/usecase/delete.go:24-53 | in every interleaving with any failures, a row's screenshot is at its key and shows the row's captured address, or is safe in quarantine while that bookmark's deletion is pending; neither if and only if its Restore has failed |
| SagaTheorems.StorageKeysAreUnique | migrations/0001_bookmarks.up.sql:31 | no two bookmarks ever share a storage key, however many saves race on one draft, so the unique constraint never fires |
| SagaTheorems.CleanupNeverNamesALiveFile | bookmarker/usecase/cleanup.go:41-53 | in every interleaving no cleanup record names a file that a bookmark row references |
| SagaTheorems.LiveFilesStay | adapters/filesystem/screenshots.go:84-104 | only the Quarantine of a deletion ever takes a referenced file away from its key |
| SagaTheorems.UntrackedFilesHaveACause | bookmarker/usecase/update.go:88-102 | in every interleaving the files that no row, unfinished cleanup record or unfinished operation knows of are exactly those left by one of six recorded kinds of step and not taken up since |
| SagaTheorems.SucceededFilesAreGone | bookmarker/usecase/cleanup.go:41-53 | in every interleaving the file of a succeeded cleanup record is gone, unless a Restore that came too late has brought it back |
| SagaAddresses.SameAddressExactly | bookmarker/usecase/update.go:47-74 | in every interleaving every bookmark's screenshot, at its key or set aside by a pending deletion, is a capture of its address at every point of the run if and only if no successful update keeps a screenshot under an address that the row no longer has |
| SagaAddresses.MixingIsWrong | adapters/postgres/bookmark_maintain.go:43-66 | each such update of a matching row makes it wrong |
| SagaTheorems.LeftFilesStayUnreferenced | adapters/postgres/bookmark_maintain.go:64-76 | a key once left behind is never shown by a row again |
| SagaTheorems.GoneStaysGone | adapters/filesystem/screenshots.go:44-46 | a staged file that is gone never comes back |
| SagaTheorems.StagedFilesArePromotedOnce | adapters/filesystem/screenshots.go:68-82 | whatever races on one ready draft, its staged file is promoted at most once |
| SagaSerial.UntrackedExactly | bookmarker/usecase/delete.go:39-51 | between operations the files nobody tracks, a succeeded cleanup record not counting, are exactly those of a failed compensating Remove, a failed Restore or a failed CreateScreenshotCleanup |
| SagaSerial.RecordsInUse | bookmarker/usecase/cleanup.go:41-53 | between operations the file of a succeeded cleanup record is gone |
| SagaSerial.JobsAreARun | bookmarker/usecase/update.go:46-104 | operations one after the other are an interleaving, so what holds of all of those holds of them |
| SagaSerial.MissingExactly | bookmarker/usecase/delete.go:39-43 | between operations a row lacks its file if and only if a Restore of it failed, and a file that is there is a capture of the row's own address |
| SagaSerial.SingleFaultsLeaveNothing | bookmarker/usecase/update.go:74-102 | operations with at most one failed port call each never leave a file to nobody |
| SagaSerial.SingleFaultConservation | bookmarker/usecase/update.go:74-102 | with at most one failure per operation every promoted or quarantined file belongs to one row or to a cleanup record that has not succeeded, never both, and every row has its file |
| SagaOutcome.AnswersTellOfWrites | bookmarker/usecase/update.go:46-104 | in every interleaving an operation writes rows at most once, and a finished save or deletion reports success if and only if it has |
| SagaOutcome.WritesAreAsked | adapters/postgres/bookmark_maintain.go:43-89 | in every interleaving no step changes rows but such a write, which makes the one row what its operation was asked for, without a screenshot only on explicit choice |
| SagaOutcome.AnswersAreTruthful | bookmarker/usecase/create.go:42-77 | with operations one after the other, one that reports an error changed no bookmark row; one that reports success left exactly the requested address, and a row without a screenshot only on explicit choice |
| SagaRaces.TwoFailuresLeaveAFile | bookmarker/usecase/update.go:74-78 | a reachable run with a refused row update and a refused removal that leaves a promoted file to nobody |
| SagaRaces.OverlapLeavesAFile | bookmarker/usecase/delete.go:28-46 | a reachable run without any failure in which a deletion overlapping an update leaves a promoted file to nobody |
| SagaRaces.OverlapShowsAnotherAddress | bookmarker/usecase/update.go:47-74 | a reachable run without any failure that ends with a bookmark showing a capture of another address |
| SagaRaces.RefusedUpdateSpendsTheDraft | bookmarker/usecase/update.go:74-78 | a reachable run with one refused row update after which a ready draft has no file |
| DraftLifecycle.DraftsAreWellFormed | bookmarker/usecase/capture.go:73-94 | in every interleaving a failed draft has a failure code and no file key, a ready draft has a file key |
| DraftLifecycle.IdentityStays | adapters/postgres/capture_draft_store.go:83-93 | no step changes a draft's owner, address or expiry; its bookmark binding can only be dropped |
| DraftOwners.OnlyTheOwnerTouches | bookmarker/model/capture.go:42-54 | in every interleaving a draft changes only through an operation of its owner's session, and is consumed only by a save that named it, its address and, for an update, the bookmark it is bound to |
| DraftExpiry.UnnoticedExactly | adapters/postgres/retention.go:17-29 | in any interleaving of saves, deletions, captures, retries and discards, expiring drafts changes nothing but their marks, at any point of the run, if and only if no step looks up a marked draft that it would go on with unmarked |
| DraftExpiry.ExpiryIsUnnoticed | adapters/postgres/retention.go:17-29 | so it changes nothing in runs where no save or retry looks up a draft at the instant of its expiry and no discard takes one after it |
| DraftExpiry.MarkShowsExactly | bookmarker/model/capture.go:42-65 | marking a draft changes what a step does if and only if that step looks it up for a save or update that could use it, a retry that could run, or a discard that is allowed |
| DraftExpiry.SavesNoticeAtTheInstant | bookmarker/model/capture.go:55-57 | saves and retries can notice a mark at the very instant of expiry only, never after it |
| FinalStates.FinalExactly | adapters/postgres/capture_draft_store.go:83-100 | in every interleaving consumed, discarded and expired are final throughout the run if and only if no successful draft write of it replaces such a state by another |
| FinalStates.FinalWhenAlone | bookmarker/model/capture.go:67-74 | they are final in every run in which drafts become terminal only while no unfinished operation has a copy that it may still write back |
| DraftRaces.ConsumedTwice | bookmarker/usecase/capture.go:118-135 | a run in which one of two overlapping retries revives a consumed draft, which is consumed again for a second bookmark |
| DraftRaces.ExpiredTurnsReady | bookmarker/usecase/capture.go:73-94 | a run without any failure in which a capture makes an expired draft ready |
| StagedFiles.StagedFileExactly | adapters/filesystem/screenshots.go:68-92 | in every interleaving a draft's staged file is there if and only if no save has promoted it and no discard has removed it, and a ready draft has such a file |
| ReadyDrafts.ReadyDraftsHaveFiles | bookmarker/usecase/create.go:103-110 | between operations a ready draft has its staged file if and only if no operation took it without being able to record that; no other draft names the file, which shows the draft's address |
| ReadyDrafts.FaultlessRunsLoseNothing | bookmarker/usecase/capture.go:50-94 | without failed port calls no ready draft ever loses its file |
| ReadyDrafts.FinalStatesStay | bookmarker/model/capture.go:67-74 | with operations one after the other, whatever fails, consumed, discarded and expired are final |
| ReadyDrafts.StepMoves | bookmarker/model/capture.go:59-74 | a step whose private copy is the stored draft moves drafts only from capturing to ready or failed, from failed back to capturing, and into a terminal state |
| Retention.RetentionProcessor.Process | bookmarker/usecase/retention.go:39-75 | expires drafts, deletes old sessions with their drafts, deletes old throttle rows and runs one cleanup pass, in this order, each only if the one before succeeded; a session is gone if and only if its statement took effect, found it and it was created at least the age ago, a throttle row likewise; drafts go with their session and change by expiry only |
| Retention.PassIsJobs | bookmarker/usecase/retention.go:39-75 | however far a pass gets, it is a sequence of jobs that the theorems about operations performed one after the other cover |
| LoginThrottle.SweepIsUnnoticed | adapters/postgres/retention.go:43-55 | a sweep that keeps rows for 15 minutes or more, as the default does, changes no IsBlocked answer right after it or at any later point of the run |
| ScreenshotModel.StepsAreFew | bookmarker/usecase/update.go:46-104 | every operation ends: each port call lowers a bound on those still to come |
| OperationEffects.CreateExactly | bookmarker/usecase/create.go:42-112 | for every state, input and pattern of failures, a bookmark is created if and only if its address and description are valid, either a draft of the session for that address within its lifetime is ready and has its file, or saving without a screenshot was chosen and no draft or an unready one of that kind was named, and the lookup, the promotion and the row write work; an input that cannot succeed changes nothing |
| OperationEffects.CreatesWithShot | bookmarker/usecase/create.go:105-111 | with no call failing that is exactly one new row with the draft's address and final address, one promoted file in place of the staged one, and the draft consumed |
| OperationEffects.CreatesWithoutShot | bookmarker/usecase/create.go:83-103 | without a ready draft it is exactly one new row without a screenshot |
| OperationEffects.UpdateExactly | bookmarker/usecase/update.go:46-104 | an update succeeds if and only if the bookmark exists, address and description are valid, either the draft named serves, is bound to the bookmark, is ready and has its file, or none is named and the address is unchanged or going without was chosen, and the calls up to the row write work; the old file is queued, due at once, if and only if it was replaced and can be queued but not removed |
| OperationEffects.UpdatesWithShot | bookmarker/usecase/update.go:74-102 | with no call failing, row, files and draft change to exactly the new screenshot, and the old file is gone |
| OperationEffects.UpdatesInPlace | bookmarker/usecase/update.go:60-93 | saving an unchanged address without naming a draft changes no address, screenshot or file |
| OperationEffects.UpdatesWithoutShot | bookmarker/usecase/update.go:79-102 | on explicit choice a new address takes the screenshot and its file away, and nothing else changes |
| OperationEffects.DeleteExactly | bookmarker/usecase/delete.go:24-53 | a bookmark is deleted if and only if that is confirmed, it exists, its screenshot's file is there and the calls up to the deletion work; with no call failing row and file are gone and only bindings of drafts change besides; the parked file is queued if and only if it can be queued but not removed |
| OperationEffects.AttemptsExactly | bookmarker/usecase/capture.go:73-94 | an attempt whose outcome can be stored makes the draft ready with the captured file if and only if capture and validation work, and otherwise failed with the code of what did not |
| OperationEffects.StartExactly | bookmarker/usecase/capture.go:50-72 | a capture starts if and only if its address is valid and its draft can be stored; the draft is the session's, for that address, bound as asked, and ends after the lifetime |
| OperationEffects.RetryExactly | bookmarker/usecase/capture.go:118-135 | a draft is tried again if and only if it is the session's, failed and within its lifetime, and looking it up and marking it work; a refusal changes nothing |
| OperationEffects.DiscardExactly | bookmarker/usecase/capture.go:139-155 | a draft is discarded if and only if it is the session's, ready or failed, and looking it up and marking it work, whether or not its file can be removed |
| CleanupEffects.CleanupExactly | bookmarker/usecase/cleanup.go:35-59 | a pass succeeds if and only if the claim and the storing of every outcome work; each record it claimed is then succeeded with its file gone, or abandoned, or pending and due as many minutes after the pass began as it has failed; nothing else changes |
| ScreenshotUseCases.SoloIsPerform | bookmarker/usecase/update.go:46-104 | running a use case alone is performing its operation, so the theorems about operations hold of the methods below |
| ScreenshotUseCases.Creator.Create | bookmarker/usecase/create.go:42-77 | leaves the stores and the answer that the create process run to its end does, for every pattern of failures |
| ScreenshotUseCases.Creator.ResolveScreenshot | bookmarker/usecase/create.go:82-112 | stops where the create process stands in front of writing the row, or has given up |
| ScreenshotUseCases.Maintainer.Update | bookmarker/usecase/update.go:46-104 | leaves the stores and the answer of the update process run to its end |
| ScreenshotUseCases.Maintainer.Write | bookmarker/usecase/update.go:74-102 | swap, compensation, consumption and retirement end as the process does from its row update on |
| ScreenshotUseCases.Maintainer.Delete | bookmarker/usecase/delete.go:24-53 | leaves the stores and the answer of the delete process run to its end |
| ScreenshotUseCases.CleanupProcessor.Process | bookmarker/usecase/cleanup.go:35-59 | leaves the stores and the answer of the cleanup process, over all claimed records or up to the first failed completion |
| ScreenshotUseCases.CaptureService.Start | bookmarker/usecase/capture.go:50-72 | leaves the stores and the answer of the capture process run to its end |
| ScreenshotUseCases.CaptureService.Attempt | bookmarker/usecase/capture.go:73-94 | one attempt ends as the process does from the shot on |
| ScreenshotUseCases.CaptureService.Retry | bookmarker/usecase/capture.go:118-135 | leaves the stores and the answer of the retry process run to its end |
| ScreenshotUseCases.CaptureService.Discard | bookmarker/usecase/capture.go:139-155 | leaves the stores and the answer of the discard process run to its end |
| ScreenshotUseCases.ScreenshotStore.Promote | adapters/filesystem/screenshots.go:68-82 | moves an existing staged file to a fresh promoted key, or changes nothing |
| ScreenshotUseCases.ScreenshotStore.Quarantine | adapters/filesystem/screenshots.go:108-122 | moves an existing file to a fresh quarantine key, or changes nothing |
| ScreenshotUseCases.ScreenshotStore.Restore | adapters/filesystem/screenshots.go:126-142 | moves a quarantined file back to its old key, or changes nothing |
| ScreenshotUseCases.ScreenshotStore.Remove | adapters/filesystem/screenshots.go:84-104 | the key is gone afterwards, and its absence before is no error |
| ScreenshotUseCases.Database.UpdateBookmark | adapters/postgres/bookmark_maintain.go:43-78 | replaces address and, if asked, screenshot of an existing row, or changes nothing |
| ScreenshotUseCases.Database.DeleteBookmark | adapters/postgres/bookmark_maintain.go:80-89 | removes an existing row with its screenshot row and unbinds its drafts, or changes nothing |
| ScreenshotUseCases.Database.ClaimDueScreenshotCleanup | adapters/postgres/bookmark_maintain.go:99-124 | marks distinct pending records whose time has come, no more than the limit, as running, returns them as they were, and changes no other |
| ScreenshotUseCases.Database.UpdateDraft | adapters/postgres/capture_draft_store.go:83-100 | overwrites state, file key, final address and failure code, whatever they were, and nothing else |
| CleanupWorkers.RunningRecordsHaveOneHolder | adapters/postgres/retention.go:57-83 | with any number of workers a record is in at most one batch, once, and only while it is running |
| CleanupWorkers.TriesAreBounded | bookmarker/usecase/cleanup.go:35-59 | a file is tried at most the maximum number of times (once if that is below one); the pass of its k-th retry starts at least 1 + ... + k minutes after the first; pending means tries are left, abandoned that none are |
| CleanupWorkers.RecordsTellTheirTries | bookmarker/usecase/cleanup.go:41-54 | in every run a pending record has failed each of its n tries and is due exactly n minutes after the pass of the last began, a succeeded one was removed by its last, an abandoned one has failed the allowed number of times |
| CleanupWorkers.TakenExactly | adapters/postgres/retention.go:57-66 | in every run a pass can claim a record that has failed n times if and only if n minutes have gone by since the pass of the last try began |
| CleanupWorkers.PulledExactly | adapters/postgres/retention.go:57-83 | a claim for some pending records whose time has come, up to the limit, takes exactly these |
| CleanupWorkers.CompletedExactly | bookmarker/usecase/cleanup.go:41-57 | a completion stores succeeded, abandoned or pending with the exact next time, as the tries of the record say |
| CleanupWorkers.TriangleIsReached | bookmarker/usecase/cleanup.go:51-51 | for each try that is allowed some run makes it exactly 1 + ... + k minutes after the first |
| CleanupWorkers.RemainingFalls | bookmarker/usecase/cleanup.go:41-57 | each completion uses up at least one of the remaining tries of the queue and nothing else changes their sum |
| CleanupWorkers.CompletionsAreBounded | bookmarker/usecase/cleanup.go:41-57 | however passes interleave, no more than the maximum number of completions happen per record ever queued |
| CleanupWorkers.StuckExactly | bookmarker/usecase/cleanup.go:55-57 | a running record loses its worker if and only if a completion fails, of it or of one before it in the same batch |
| CleanupWorkers.StuckForGood | adapters/postgres/bookmark_maintain.go:99-124 | such a record is not tried again in any later run |
| LoginThrottle.MemoryRefines | bookmarker/usecase/auth.go:225-241 | a failure recorded in memory takes the reference machine's step and keeps the record sane |
| LoginThrottle.TableRefines | adapters/postgres/auth_store.go:96-117 | the UPSERT takes the same step although it keeps a stale blocked_until |
| LoginThrottle.StoresAreIndistinguishable | bookmarker/usecase/auth.go:216-241 | at every point of every run of sign-ins, with retention sweeping the table at any time, memory and table answer IsBlocked alike for every pair, and failure counts stay in 1..5 |
| LoginThrottle.OldRowsAreClean | adapters/postgres/retention.go:43-55 | a row left alone for 15 minutes or more has no effect on any later answer |
| LoginThrottle.FifthFailureBlocks | bookmarker/usecase/auth.go:225-241 | four failures at one time do not block; a fifth does if and only if it comes less than ten minutes later, and the block lasts exactly fifteen minutes |
| LoginThrottle.SweepShowsExactly | adapters/postgres/retention.go:43-55 | some run has an IsBlocked answer that a sweep changes if and only if the sweep keeps rows for less than 15 minutes |
| ThrottleOverlap.AlikeExactly | adapters/postgres/auth_store.go:79-124 | over every run of recorded failures, clearances and retention, whenever they come, memory and table answer IsBlocked alike for every pair at every point if and only if no failure is recorded for a pair that is blocked and whose window is over |
| ThrottleOverlap.TrippingTellsThemApart | bookmarker/usecase/auth.go:225-241 | such a failure lifts the block in memory and keeps it in the table, whatever the entries are |
| ThrottleOverlap.OverlapHappens | bookmarker/usecase/auth.go:67-72 | a run of sign-ins that overlap in which that happens |
| LoginThrottle.JoinIsInjective | bookmarker/usecase/auth.go:213-215 | for source addresses without NUL the joined key determines user name and address |
| ThrottleBounds.AtMostEightInTenMinutes | bookmarker/usecase/auth.go:67-77 | any half-open ten minutes hold at most eight failed verifications of a pair since its last success |
| ThrottleBounds.EightIsReached | bookmarker/usecase/auth.go:225-241 | a run with eight of them |
| ThrottleBounds.BlocksHold | bookmarker/usecase/auth.go:67-72 | nothing is verified for a pair in the 15 minutes after a block began, whatever is tried |
| ThrottleBounds.AtMostThatMany | bookmarker/usecase/auth.go:67-77 | failed verifications over a stretch of time number at most 5 plus Gain of it, so at most five for each ten minutes begun |
| ThrottleBounds.BoundIsReached | bookmarker/usecase/auth.go:67-77 | for every length of the stretch there is a run with exactly that many |
| ThrottleBounds.BlockedExactly | bookmarker/usecase/auth.go:225-241 | a failed verification blocks if and only if it is the fifth since its window was opened |
| ThrottleBounds.SevenNeedNotBlock | bookmarker/usecase/auth.go:225-241 | a run with seven failures within ten minutes and no block |
| Sessions.AuthorizedExactly | bookmarker/usecase/auth.go:67-101 | over every run, whichever store calls fail, a token is authorized if and only if a successful sign-in returned it and its session was since neither signed out, nor revoked by a sign-in it was presented to, nor deleted by retention |
| Sessions.FailedSignInKeepsExactly | bookmarker/usecase/auth.go:74-87 | a failed sign-in keeps the session presented to it if and only if it failed before the revocation, or the revocation itself did |
| Sessions.RevocationIsPermanent | bookmarker/usecase/auth.go:191-203 | a token whose session was revoked or deleted never authorizes again |
| Sessions.RevocationHitsOne | bookmarker/usecase/auth.go:191-203 | revoking by id changes the one session it is meant for |
| Sessions.SignInSucceedsExactly | bookmarker/usecase/auth.go:67-87 | a sign-in succeeds if and only if its credentials are right, the tries before it have not blocked its pair, and neither IsBlocked nor ClearFailures nor CreateSession fails |
| Authentication.MemorySessionStore.RevokeSession | bookmarker/usecase/auth.go:191-203 | the scan in arbitrary order revokes exactly the session with the id and reports whether there is one |
| Authentication.MemoryThrottleStore.RecordFailure | bookmarker/usecase/auth.go:225-241 | stores the failure in the pair's entry and touches no other |
| Authentication.ThrottleTable.RecordFailure | adapters/postgres/auth_store.go:96-117 | the UPSERT's effect on the pair's row and no other |
| Authentication.ThrottleTable.DeleteExpiredThrottlePairs | adapters/postgres/retention.go:43-55 | removes unlocked rows of at least the age and nothing else |
| Authentication.Authenticator.SignIn | bookmarker/usecase/auth.go:67-87 | takes the sign-in step of the session model and returns its token, whichever store calls fail |
| Authentication.Authenticator.NewAnonymousSession | bookmarker/usecase/auth.go:64-66 | adds one anonymous session under a fresh token, which by AuthorizedExactly never authorizes |
| Authentication.Authenticator.SignOut | bookmarker/usecase/auth.go:88-94 | takes the sign-out step, and fails if and only if the token has no active session |
| Authentication.Authenticator.Authorize | bookmarker/usecase/auth.go:95-101 | answers with the session id if and only if the token is authorized |
| Framing.FramedExactly | adapters/jsonl/protocol.go:38-60 | for every input, framing fails if and only if some line is longer than 65536 bytes, and gives the texts of all lines before the first such, whether or not a line feed ends the last |
| Framing.EveryInputIsLines | adapters/jsonl/protocol.go:38-43 | every input is lines that end in a line feed and a last one that does not |
| Framing.LongLineEnds | adapters/jsonl/protocol.go:53-57 | the first line that is too long ends the stream whatever follows it: exactly the lines before it are scanned |
| Framing.WrittenLinesAreScanned | adapters/jsonl/protocol.go:38-51 | lines without line feeds and within the limit are scanned as written, up to carriage returns |
| Framing.CarriageReturns | adapters/jsonl/protocol.go:40-43 | the text of a line is the line without the one carriage return it may end in |
| Framing.ScannedLinesFit | adapters/jsonl/protocol.go:44-47 | no scanned line exceeds the limit, so that branch is dead |
| JsonLines.OneResponsePerLine | adapters/jsonl/protocol.go:38-51 | responses are as many as lines that are not blank, in their order, each the answer in the state the lines before left |
| JsonLines.TokenExactly | adapters/jsonl/create_operations.go:23-56 | whichever store calls fail, the stream holds a token if and only if some line signed in and none since signed out; the token is authorized if and only if besides none since failed as a sign-in after revoking its session |
| JsonLines.FaultlessStoresForfeitNothing | adapters/jsonl/create_operations.go:40-46 | with stores that do not fail, as those in memory, a failed second sign-in changes neither |
| JsonLines.ProtectedExactly | adapters/jsonl/protocol.go:97-116 | each of the ten capture, saving and configuration operations is performed if and only if the stream's token is authorized in that sense and can be looked up, and is otherwise told to authenticate |
| JsonLines.PublicExactly | adapters/jsonl/protocol.go:89-92 | listing and searching are performed whatever the session |
| JsonLines.UnknownExactly | adapters/jsonl/protocol.go:117-118 | every name but the fourteen is answered unknown_operation and changes nothing |
| JsonLines.SignInExactly | adapters/jsonl/create_operations.go:23-48 | a sign-in is answered, and the stream's token replaced, according to password, name, block and failing calls |
| JsonLines.SignOutExactly | adapters/jsonl/create_operations.go:50-56 | signing out always succeeds for the stream and drops its token, which no longer authorizes if the store calls worked |
| JsonLines.RejectedExactly | adapters/jsonl/protocol.go:66-86 | an unreadable or incomplete request is told what is wrong with it, under its id if that could be read, and changes nothing |
| JsonLines.Server.Serve | adapters/jsonl/protocol.go:38-61 | writes exactly the responses to the framed lines, and one more if a line is too long |
| JsonLines.Server.HandleLine | adapters/jsonl/protocol.go:62-120 | answers one line and leaves token and stores as the session model says |
| CaptureSlots.SlotsAreBounded | adapters/agentbrowser/capture.go:40-54 | in every interleaving slots held equal the captures between admission and release and never exceed the maximum; nor do browser sessions between their open and the return of their close |
| CaptureSlots.AdmittedExactly | adapters/agentbrowser/capture.go:41-46 | in every interleaving a capture is turned away if and only if as many others as allowed hold a slot when it asks |
| CaptureSlots.ReleasedAfterClose | adapters/agentbrowser/capture.go:48-66 | a rejected capture issues no command; one that gave its slot back issued exactly one close, after all its other commands |
| CaptureSlots.Capturer.Capture | adapters/agentbrowser/capture.go:40-73 | is admitted if and only if a slot is free, issues the commands up to the first that fails and then close, gives the slot back, and succeeds if and only if all three work, with the reached address, or the one asked for if none is reported |
| CaptureSlots.RestExactly | adapters/agentbrowser/capture.go:51-64 | these are the commands of the process that the interleavings are made of |
| Pagination.NewPagination | bookmarker/model/pagination.go:55-88 | the page is the requested one, or the first or last if that lies outside; the last page is the first that reaches the end; the links are those of the lemmas below |
| Pagination.LastPageFits | bookmarker/model/pagination.go:24-33 | the last page is the first one that reaches the end |
| Pagination.ClampIsNearest | bookmarker/model/pagination.go:35-46 | of all pages the clamped one is the nearest to the one requested |
| Pagination.LinksAreBounded | bookmarker/model/pagination.go:55-88 | at most nine links, and none if and only if there is one page |
| Pagination.LinksContinue | bookmarker/model/pagination.go:72-86 | links run from page 1 to the last; neighbours are consecutive or have one ellipsis between them that hides a page |
| Pagination.LinksShow | bookmarker/model/pagination.go:78-80 | exactly the first, last and adjacent pages are linked, and exactly the page itself is current |
| Pagination.LinksIncrease | bookmarker/model/pagination.go:72-86 | page numbers strictly increase |
| Pagination.ReachExactly | bookmarker/model/pagination.go:50-50 | the least number of clicks between any two pages, which is at most half their distance rounded up |
| SearchPages.PagesMakeTheList | adapters/postgres/bookmark_query.go:46-77 | pages one to last in sequence are the matches by falling creation time and id up to the cap, each once, and only older matches are left out |
| SearchPages.SearchPageIsASlice | adapters/postgres/bookmark_query.go:103-112 | any requested page shows the rows of the clamped page out of that list, whose length is the reported total |
| SearchPages.BrowsePageIsASlice | adapters/postgres/bookmark_query.go:23-44 | the same for browsing, without a cap |
| SearchPages.OrderIsDetermined | adapters/postgres/bookmark_query.go:92-97 | the order of rows depends on nothing but the rows |
| SearchPages.ZeroCapShowsNothing | adapters/postgres/bookmark_query.go:54-59 | with a cap of zero the total disagrees with the rows if and only if anything matches |
| SearchPages.Search | bookmarker/usecase/search.go:36-53 | the requested page, or the nearest there is, is shown: exactly its rows of the promised list, marked by the separately built control; the total is the number of matches or the cap |
| SearchPages.Browse | bookmarker/usecase/browse.go:29-37 | the same for browsing, out of all matches |
| Tags.NormalizeTags | bookmarker/model/bookmark.go:37-56 | sorted by name without repetition, blanks dropped, each name with the spelling of its first input |
| Tags.NormalizedIsDetermined | bookmarker/model/bookmark.go:37-56 | that describes one result only |
| Tags.NormalizedNames | bookmarker/model/bookmark.go:20-22 | a name is in the result if and only if it is the trimmed and lowered form of some input and not blank |
| Tags.LessExactly | bookmarker/model/bookmark.go:50-50 | the order is that of the first difference, or else of the length |
| TagTables.TablesAgree | adapters/postgres/bookmark_create.go:30-42 | after any writes the tables hold what a plain map of last written tags says, and linking never violates the primary key |
| TagTables.HydrationIsLastSaved | adapters/postgres/bookmark_query.go:136-164 | reading a bookmark's tags gives the names last written, in order, with the accepted spellings |
| TagTables.SpellingIsFirst | bookmarker/model/bookmark.go:11-16 | the display name of a tag is that of the first write that brought it in |
| TagTables.FilterSelectsCarriers | adapters/postgres/bookmark_query.go:79-84 | the tag filter selects exactly the bookmarks whose last write carried the tag in any spelling |
| TagTables.JoinHydrates | adapters/postgres/bookmark_query.go:148-163 | what the loop gathers for a bookmark out of the shared join is its own hydration |
| TagTables.HydrateTags | adapters/postgres/bookmark_query.go:136-164 | each bookmark receives exactly its own rows, in their order |
| TagTables.TagStore.UpdateBookmark | adapters/postgres/bookmark_maintain.go:43-63 | replaces the links of an existing bookmark, or leaves everything as it was |
| TagTables.TagStore.CreateBookmark | adapters/postgres/bookmark_create.go:23-42 | adds a bookmark with its links, or leaves everything as it was |
| Encodings.SplitOfJoin | bookmarker/usecase/password.go:45-50 | joined parts without the separator are split back |
| Encodings.JoinOfSplit | bookmarker/usecase/password.go:45-45 | every text is the join of its parts, none of which holds the separator |
| Encodings.ParsePrinted | bookmarker/usecase/password.go:56-59 | a printed number is read back if and only if it fits 32 bits |
| Encodings.DecodeOfEncode | bookmarker/usecase/password.go:64-71 | unpadded base64 (sections 3.2 and 4 of RFC 4648) decodes to what was encoded, and its text holds no separator |
| Encodings.EncodesNumbers | bookmarker/usecase/password.go:39-40 | three bytes and their four letters spell the same number, the higher digits first |
| Encodings.DecodedExactly | bookmarker/usecase/password.go:64-71 | a text decodes if and only if, line ends aside, it is of the alphabet and leaves no single letter over |
| Encodings.GroupsOfOctets | bookmarker/usecase/password.go:64-71 | what decodes has the groups that were read, up to the bits left over at the end |
| Encodings.LineEndsAreSkipped | bookmarker/usecase/password.go:64-71 | line ends within the text make no difference |
| PasswordHash.VerifyOfPrint | bookmarker/usecase/password.go:44-74 | for every cost, salt and key a printed verifier accepts a password if and only if it derives the printed key; a parallelism that is a multiple of 256 panics |
| PasswordHash.VerifyOfGenerate | bookmarker/usecase/password.go:15-42 | a generated verifier accepts its own password, and another exactly if both derive the same key |
| PasswordHash.GeneratedText | bookmarker/usecase/password.go:20-41 | the parts of a generated verifier are argon2id, v=19, m=65536,t=3,p=1, the salt and a key of 32 bytes |
| PasswordHash.VerifyExactly | bookmarker/usecase/password.go:44-74 | every text whatever is invalid if and only if it does not describe six parts with algorithm, version, well-formed settings that make each cost positive, salt and key; otherwise the password is accepted if and only if it derives the key described |
| PasswordHash.ParseExactly | bookmarker/usecase/password.go:49-60 | the settings are read if and only if each is a name, an equals sign and a number below 2^32, and of equal names the last counts |
| PasswordHash.VerifyPassword | bookmarker/usecase/password.go:44-74 | the loop over parameters reads every verifier text as the specification does, malformed ones included |

## Left out

- HTTP handlers, templates, cookies, command mains, configuration files and connection handling: delivery plumbing.
- Description, tags and timestamps in the rows of the screenshot model; tags have their own model.
- The final `FindDraft` of `Start` and `Retry`, `Status` and `Preview` as operations of their own: they only read.
- A failed capture that leaves a file in the staging directory; staging files are outside the conservation claims.
- `last_error_code`, the `CleanupPending` flag and the distinction between error codes of the screenshot operations: an answer is success or failure.
- Foreign key violations (a draft for a vanished session or bookmark) are among the failures any port call may have.
- Containment of file keys (`resolve`, `sanitizeComponent`), file permissions and the PNG signature: a validation may fail.
- TokenExactly: the sessions that retention deletes while a stream runs, a day after sign-in; `AuthorizedExactly` covers them.
- The SQL of the session statements: they act on their table as the in-memory store does on its map, except that any of them may fail.
- CSRF tokens and the `Retry-After` duration; a failing `CreateSession` of an anonymous visit changes nothing.
- The payload fields of JSON Lines requests other than credentials, and the results of performed requests.
- Timeouts of browser commands: a command that times out is one that failed.
- Machine integers: page numbers and attempt counts are unbounded.
- Full-text matching: any predicate on bookmarks. Browsing and searching read one state of the table, though the program counts and fetches in two statements.
- Argon2 itself: of the derivation only its refusal of a parallelism of zero, after truncation to eight bits, is modelled.
- Cancelled contexts: they end an operation like a failing port call.
