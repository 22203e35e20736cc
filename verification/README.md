# Verified model of official numbering and asynchronous signing

The system gives every official document of a municipality (a tenant) a number, has a worker sign its PDF from a
queue, and lets a sweeper repair what crashes leave behind. This project states what that protocol guarantees over
all its runs and proves it, together with four smaller parts: the document list, the reconciler of stored PDFs, the
queue-capacity check and the gateway's rate limiter.

`dafny verify dfyconfig.toml` checks everything.

## The parts

- **Numbering** (`OfficialRows`, `GlobalNumbering`, `SpecialLane`, `NumberingRuns`, `SharedLane`, `TicketHistory`,
  `NumberingService`, `ReservationAnswers`, `NumberFormat`, `SpecialStatements`, `BatchedLane`, `LostNumber`). Rows of
  `official_documents` go through RESERVED, CONFIRMING, CONFIRMED and CANCELLED. GLOBAL numbers form one sequence per
  year, taken under an advisory lock; SPECIAL numbers form one lane per type, year and department, with a counter row
  and an active-reservation pointer. `NumberingService.Numbering` is the imperative form, one method per transaction
  over the two tables, each method proved equal to the functions of `GlobalNumbering`, `SpecialLane` and `OfficialRows`;
  `ReservationAnswers` says which number each reservation answers, and `NumberingRuns` runs those functions as a state
  machine. `SpecialStatements` takes SPECIAL reservations apart into their statements, with row locks, SKIP LOCKED and
  the other transactions committing in between.
- **Signing** (`SigningSessions`, `SessionTimes`, `SigningProtocol`, `SigningSafety`, `SigningTheorems`, `JobAlone`,
  `SigningOutcome`, `SigningProgress`, `SweeperPass`, `SweepTimes`, `RetryCeilings`, `EndlessRequeues`, `LostPdf`). The
  queue rows with their UPDATE statements (class `SessionTable`), and the whole numerator flow as a step relation over
  the numbering table, the queue, the drafts, the store of official PDFs and the jobs in flight. Every await of a job is
  one step, every database or storage call can fail with or without its effect, and a job can die before any step.
  `SweeperPass.Sweeper` is one pass of the sweeper as loops over those tables. `JobAlone` and `SigningOutcome` say what
  a job leaves behind, `SessionTimes` and `SweepTimes` when a queue row or a number may be taken.
- **Common signing** (`CommonSigning`, `CommonAlone`, `TornSignature`). One non-numerator session with its locked PDF,
  at the grain of single reads, writes and storage calls.
- **The document list** (`DocumentVisibility`), **the reconciler** (`Reconciler`), **the drain estimate**
  (`QueueDrain`) and **the limiter** (`RateLimiter`).

## What the model assumes

- A GLOBAL reservation, with its two queries, is one atomic step. `GlobalNumbering.TornReadCollides` says exactly what
  breaks when it is not: `cancel_number` takes no advisory lock.
- In the runs the GLOBAL recycling query finds a CANCELLED row whenever there is one. SKIP LOCKED may pass over rows
  other transactions hold, in favour of any other row, but not over all of them;
  `GlobalNumbering.ReserveDistinctExactly` says what happens when it does. Ties of the ORDER BY are left open.
- Tickets are globally fresh, a type's regime is fixed and a document keeps its type.
- A claim is made under a worker identity of its own, so a job whose claim was taken away passes no later fence. The
  fence and the upload that follows it are one step. Every statement that does not check the claim stays open to it.
- A document is not reserved again while it has a live signing session, and a reservation gets a session only when its
  document has no live one.
- The rejection handler's read of the reservation status succeeds, except where a theorem says what happens otherwise
  (`SigningTheorems.DeletesExactlyOnFailedRead`, `LostPdf.FailedReadLosesThePdf`).
- Each sweeper handler reads and writes one row in one step. One sweeper runs at a time.
- Signing changes a PDF and hashes tell PDFs apart; rolling the signing lock back is one move from `inprocess/` to
  `tosign/`. The upload, its marker and the deletion of the locked copy are separate steps.

## What the code does not guarantee

Some promises hold only under a condition. Each entry names the lemma that states when the promise holds and a lemma
with a case in which it fails.

- Gap-free GLOBAL numbering. A step on a year without gaps leaves it so if and only if it drops none of its numbers
  but the last (`NumberingRuns.DenseExactly`). A reservation drops a number when it recycles another document's row
  while the requester owns one, and when it deletes the requester's own CANCELLED row of another year, recycling or
  not. `LostNumber.ReservationLeavesAGap` is a reachable case.
- A number handed out is in use: `_generate_confirmed_number` answers with a row already CANCELLED exactly when
  the document owns one and another is recycled, or none (`GlobalNumbering.GenerateConserves`,
  `LostNumber.GenerateAnswersCancelled`).
- SPECIAL lane exclusivity with batches: over every run, it is lost exactly when a reservation is admitted beside a
  RESERVED row of another batch or user while the lane points to no RESERVED row of its own
  (`SharedLane.ExclusivityExactly`). A confirm, a rejection and a document that moves to another lane each bring that
  about (`BatchedLane`).
- The session of a signed document ends signed: exactly when its draft was still waiting at the moment the job
  marks it (`SigningOutcome.SessionEndsSignedExactly`, `LostPdf.SignedDocumentSessionFails`).
- The PDF of a CONFIRMED number is never deleted: the rejection handler deletes it exactly when its status read fails
  (`SigningTheorems.DeletesExactlyOnFailedRead`, `LostPdf.FailedReadLosesThePdf`).
- The counter of requeues by an unreadable status is exact, and bounds them by four, exactly as long as the jobs that
  requeue carry the row's counter, which the claim's holder always does (`RetryCeilings.CounterIsExact`). Jobs that
  lost their claim requeue a session any number of times (`EndlessRequeues.NoCeilingWithoutTheClaim`).
- A signed session has its signature in `tosign/`: exactly when no rollback of the signing lock moved the unsigned
  copy over the upload (`CommonSigning.CommonSigningIsCrashSafe`, `TornSignature.SignedWithoutSignature`).
- The fast list shows what the original shows, except drafts signed under a NULL `is_numerator` with the 'sector'
  filter (`DocumentVisibility.RewritePreservesMeaning`, `DocumentVisibility.ADraftFallsThrough`).
- The drain check is sound exactly for positive concurrency and workers (`QueueDrain.CheckIsSoundExactly`,
  `QueueDrain.CoherentButIdle`).
- The limiter's bound holds exactly for windows up to 120 seconds or a zero limit (`RateLimiter.BoundHoldsExactly`,
  which rests on the history of `RateLimiter.CleanupForgets`). A window closed at both ends can hold twice the limit
  and never more (`RateLimiter.ClosedWindowHoldsTwice`, `RateLimiter.TwiceIsReached`).
- A finding that persists is reported once: a missing PDF is reported again exactly when the listing of the run before
  was truncated (`Reconciler.TruncationReopensExactly`, `Reconciler.ReportedTwice`).
- A number called duplicated is in both buckets: unless `oficial/` alone has it under two keys that differ in the case
  of their extension (`Reconciler.InventoryIsComplete`, `Reconciler.DuplicateInOneBucket`).

## Model

| member | source | states |
|---|---|---|
| NumberingService.Numbering.NextGlobalSequence | shared/numbering.py:123-164 | the number of an oldest CANCELLED row nobody holds, its row deleted, or else the greatest live number plus one |
| NumberingService.Numbering.ReserveGlobal | shared/numbering.py:730-861 | the transaction leaves the table and returns the row that `GlobalNumbering.Reserve` says, including expiry, retry, recycling and the primary-key race |
| NumberingService.Numbering.ReserveCitizenNumber | shared/numbering.py:167-261 | the same for a citizen's reservation, which leaves the table alone when the insert conflicts |
| NumberingService.Numbering.GenerateConfirmedNumber | shared/numbering.py:264-369 | the same for a number born CONFIRMED |
| NumberingService.Numbering.OldestCancelledOnLane | shared/numbering.py:616-628 | the recycling query of a lane: an oldest of its CANCELLED rows that nobody holds, or all are held |
| NumberingService.Numbering.ReserveSpecial | shared/numbering.py:534-727 | the SPECIAL transaction: retry, shared batch, busy lane, recycling, counter and pointer |
| NumberingService.Numbering.ReleaseLane | shared/numbering.py:447-483 | clears the lane's pointer unless the batch still has a live sibling |
| NumberingService.Numbering.ConfirmNumber | shared/numbering.py:864-905 | the compare-and-set on ticket and status, the lane release, and whether StaleReservationError is raised |
| NumberingService.Numbering.FinalizeNumber | shared/numbering.py:908-959 | the compare-and-set to CONFIRMED and its row count |
| NumberingService.Numbering.CancelNumber | shared/numbering.py:974-1036 | cancellation by ticket and states, with the lane release and the row count |
| ReservationAnswers.ReserveAnswers | shared/numbering.py:744-861 | the answer is the row the table then holds: the unchanged one for a retry within four minutes, else a fresh RESERVED row with the request's ticket, an oldest recycled number or the greatest plus one; only a lost primary-key race answers another row, and nothing answered is CANCELLED |
| ReservationAnswers.ReserveLeavesOthers | shared/numbering.py:785-858 | only the requester's row changes and only the recycled row goes |
| ReservationAnswers.CitizenAnswers | shared/numbering.py:167-261 | the same for a citizen's reservation, refused exactly when a row of the document survives, with nothing changed |
| ReservationAnswers.GenerateAnswers | shared/numbering.py:264-369 | a number born CONFIRMED answers the table's row: the one the document already had, or a new one that takes the next number |
| ReservationAnswers.SpecialAnswers | shared/numbering.py:566-729 | a SPECIAL reservation answers the table's RESERVED row; a fresh one carries the request and takes a recycled number or the counter's next |
| ReservationAnswers.SpecialBusyExactly | shared/numbering.py:566-614 | the busy error with batches: another document's RESERVED row holds the lane, unless batch and user are known and the same |
| ReservationAnswers.SpecialRetryChangesNothing | shared/numbering.py:566-590 | a retry by the lane's active document answers its row and changes nothing |
| ReservationAnswers.ReleaseFreesTheLane | shared/numbering.py:447-483 | both columns of the lane are cleared when they name the document or its batch and no sibling waits, and nothing else moves |
| ReservationAnswers.RejectionFreesThePointer | services/documents/lifecycle/rejection.py:97-124 | a rejection clears the pointer alone, and only when it names the document |
| GlobalNumbering.ReserveKeepsDistinct | shared/numbering.py:730-861 | a reservation, also a citizen's, keeps the year's numbers distinct over rows of any status |
| GlobalNumbering.GenerateKeepsDistinct | shared/numbering.py:264-369 | so does a number born CONFIRMED |
| NumberingRuns.GlobalUniqueness | shared/numbering.py:123-164 | in every run of all eight transactions no two GLOBAL rows of a year, live or CANCELLED, share a number |
| GlobalNumbering.ReserveConserves | shared/numbering.py:744-858 | the year's set of numbers after a reservation: unchanged on a retry, else without the lost own number and with max+1 exactly when nothing was recycled |
| GlobalNumbering.ReserveConservesOtherYears | shared/numbering.py:744-858 | what the same reservation does to the numbers of other years |
| GlobalNumbering.ReserveCitizenConserves | shared/numbering.py:167-261 | a citizen's reservation never loses a number of any year, and is refused exactly when a row of the document survives |
| GlobalNumbering.GenerateConserves | shared/numbering.py:264-369 | what a number born CONFIRMED does to the year's numbers, and exactly when it returns a CANCELLED row's number |
| GlobalNumbering.StatusUpdatesConserve | shared/numbering.py:864-1036 | confirm, finalize and cancel leave every year's numbers and their uniqueness alone |
| NumberingRuns.StepConserves | shared/numbering.py:744-858 | every transaction leaves a year's numbers as they were, adds exactly max+1 or drops exactly one; it drops one exactly when it recycles while the requester owns a row, or deletes the requester's CANCELLED row of another year |
| NumberingRuns.DenseWithoutLoss | shared/numbering.py:123-164 | the numbers of a year stay {1..n} along every run without such a drop |
| NumberingRuns.DenseExactly | shared/numbering.py:744-858 | a year without gaps stays so if and only if the transaction drops none of its numbers but the last |
| LostNumber.ReservationLeavesAGap | shared/numbering.py:785-806 | a reachable state from which a reservation takes {1, 2, 3} to {1, 3} |
| LostNumber.GenerateAnswersCancelled | shared/numbering.py:350-369 | a reachable state from which a number born CONFIRMED is answered with a CANCELLED row |
| GlobalNumbering.PicksAreAnswers | shared/numbering.py:124-136 | what SKIP LOCKED can answer: any CANCELLED row of the year, or none only if all are held |
| GlobalNumbering.ReserveDistinctExactly | shared/numbering.py:124-161 | for every answer of that query, when the reservation keeps numbers distinct: unless a row overlooked holds MAX+1 |
| GlobalNumbering.TornReadCollides | shared/numbering.py:124-161 | if statuses move between the two queries, MAX+1 collides exactly when a row cancelled in between holds that number |
| NumberFormat.PaddedReadsBack | shared/numbering.py:234 | zero padding keeps the number: it can be read back for any width |
| NumberFormat.PaddedExactly | shared/numbering.py:234 | a padded number is the one string of at least that many digits, with no zero in front of more, that has its value |
| NumberFormat.PrintedRows | shared/numbering.py:766-769 | a GLOBAL and a SPECIAL number as printed: parts in order, eight digits and four |
| NumberFormat.OfficialNumberInjective | shared/numbering.py:234 | equal official numbers of dash-free acronyms have equal year and sequence |
| NumberFormat.OfficialNumbersUnique | shared/numbering.py:766-769 | where numbers are distinct, no two GLOBAL rows show the same official number |
| SpecialLane.ReserveKeepsPointer | shared/numbering.py:550-727 | without batches a reservation keeps the active-reservation column equal to the one RESERVED row of the lane, or NULL |
| SpecialLane.ReleaseKeepsPointer | shared/numbering.py:447-483 | so does a row leaving RESERVED together with its lane release |
| SpecialLane.OneReservedPerLane | shared/numbering.py:553-614 | then at most one row of a lane is RESERVED |
| SpecialLane.BusyExactly | shared/numbering.py:566-614 | SpecialLaneBusyError is raised exactly when another document's reservation holds the lane |
| SpecialLane.StalePointerExactly | shared/numbering.py:450-467 | after a confirm or cancel of the active document the pointer stays exactly when a sibling is RESERVED, after a rejection never; nobody is busy then |
| SharedLane.StepBreaksExactly | shared/numbering.py:566-727 | a transaction ends a lane's exclusivity exactly when it is a reservation admitted beside a stranger while the lane points to no RESERVED row of its own |
| SharedLane.ExclusivityExactly | shared/numbering.py:447-729 | in every run, batches included, a lane is never shared by two batches or users if and only if no such reservation happens |
| NumberingRuns.StepKeepsLanes | shared/numbering.py:534-727 | every transaction of either regime keeps the lane invariant when no batch is used |
| NumberingRuns.LaneExclusivity | shared/numbering.py:553-729 | in every run without batches a lane has at most one RESERVED row, which is its active reservation, or none and NULL |
| BatchedLane.BatchBreaksExclusivity | shared/numbering.py:450-467 | a reachable state, after a confirm, from which a stranger joins a batch's lane |
| BatchedLane.RejectionBreaksExclusivity | services/documents/lifecycle/rejection.py:97-124 | another, after a rejection that cleared the pointer beside a live sibling |
| BatchedLane.MovedDocumentBreaksExclusivity | shared/numbering.py:553-614 | another, in which the lane points to a RESERVED row of another lane and user |
| SpecialStatements.StepKeepsInv | shared/numbering.py:537-727 | every statement of interleaved SPECIAL reservations, and every confirm, finalize, cancel and reject committing between them, keeps numbers distinct and below the counter |
| SpecialStatements.SpecialUniqueness | shared/numbering.py:616-729 | in every such run, batches included, a lane's numbers are pairwise distinct and at most `last_number`, which never decreases |
| SpecialStatements.StatementsAreReserve | shared/numbering.py:534-729 | the statements of one reservation, run one after the other, do what the transaction does, whatever reservations of other lanes are under way |
| TicketHistory.TicketSafety | shared/numbering.py:864-1036 | over a whole run a ticket goes RESERVED, CONFIRMING, CONFIRMED, is cancelled only before CONFIRMED, and a CONFIRMED row never changes again |
| TicketHistory.TicketKeepsItsDocument | shared/numbering.py:808-833 | no other document ever holds the ticket |
| TicketHistory.StaleTicketIsDead | shared/numbering.py:883-900 | once a document holds another row, every confirm, finalize or ticketed cancel with the old ticket, at any later point, changes nothing |
| SigningSessions.SessionTable.ClaimOne | workers/escri.py:285-338 | claims, among the jobs other claimers do not hold, the oldest of a tenant with fewest jobs in flight, or there is none |
| SigningSessions.SessionTable.ClaimBatch | workers/escri.py:211-217 | with no other claimer, a batch is a chain of such claims, cut short only when nothing is claimable |
| SigningSessions.SessionTable.Renew | workers/escri.py:375-391 | renews exactly the claims still held |
| SigningSessions.SessionTable.MarkSessionSigned | workers/escri.py:1757-1798 | the strict update and its recovery together close a session that is pending, or processing under this worker or nobody |
| SigningSessions.SessionTable.MarkSessionFailed | workers/escri.py:1825-1841 | only a processing session fails |
| SigningSessions.SessionTable.RequeueOrFailPostUpload | workers/escri.py:1866-1911 | counts the retry in the row, then requeues or fails it |
| SigningSessions.SessionTable.RequeueGuardUnverifiable | workers/escri.py:1944-1988 | requeues with the claimed payload's counter plus one, or fails at the ceiling |
| SigningSessions.SessionTable.HandleProcessingExpired | workers/sweeper_escri.py:345-411 | every expired processing session, and no other, returns to the queue, flagged when its row is CONFIRMING |
| SigningSessions.ClosingsAreForward | workers/escri.py:1757-1841 | closing and expiring statements never revive a session or change whose it is |
| SigningSessions.RequeuesAreForward | workers/escri.py:1920-1988 | nor do the requeues |
| SigningSessions.PostUploadIsForward | workers/escri.py:1866-1911 | nor does the post-upload handler, whatever the status |
| SigningSessions.MarkSignedRespectsClaims | workers/escri.py:1757-1798 | marking signed never takes a session from another worker's active claim |
| SessionTimes.ClaimGivesTenMinutes | workers/escri.py:285-338 | a claim leaves the session with this worker alone and expires after ten minutes, not before |
| SessionTimes.RenewalGivesTenMinutes | workers/escri.py:375-391 | a renewal gives the holder ten more minutes and nobody else anything |
| SessionTimes.BreakerWaits | workers/escri.py:1920-1942 | an open breaker sends the session back, not claimable before the wait is over and for half an hour |
| SessionTimes.GuardWaits | workers/escri.py:1944-1988 | an unreadable status does so too, counted, and fails the session at the fifth attempt |
| SessionTimes.AbandonedGoesBack | workers/sweeper_escri.py:382-411 | an abandoned session is claimable at once for half an hour, resuming if it did or if the row is CONFIRMING |
| SessionTimes.ShutdownGivesBack | workers/escri.py:341-373 | a clean shutdown gives the session back at once if the worker still holds it |
| SessionTimes.ClosesExactly | workers/escri.py:1757-1798 | a live session is closed as signed if and only if no other worker holds it |
| SessionTimes.PostUploadAnswers | workers/escri.py:1866-1911 | after any history of claims, renewals, closings and sweeps, the first post-upload failure sends the session back for 30 seconds, the second for 60, unclaimed, and the third fails it |
| SessionTimes.RequeuedAtMostTwice | workers/escri.py:1866-1911 | over any such history a session is requeued by that handler at most twice |
| SessionTimes.CommonHandlerMatches | workers/escri.py:1866-1911 | the handler of the common flow, statement by statement, does the same to the row |
| SigningSessions.BatchIsFair | workers/escri.py:211-217 | after a batch a served tenant has at most one more job in flight than any tenant with a claimable job left |
| SigningSessions.BatchIsOrdered | workers/escri.py:301-318 | within a tenant claims follow creation order and skip nobody |
| SigningSafety.StepKeepsInv | workers/escri.py:452-897 | every step of users, workers, sweeper and digital path keeps the links between sessions, numbers and PDFs |
| SigningSafety.ReservationKeepsInv | shared/numbering.py:744-858 | a new reservation, recycling included, breaks no link |
| SigningSafety.ConfirmKeepsInv | workers/escri.py:583-592 | the confirm of a job, lost before or after its effect |
| SigningSafety.StaleKeepsInv | workers/escri.py:585-642 | a stale ticket is resumed, closed or failed by what the row now says |
| SigningSafety.FenceKeepsInv | workers/escri.py:644-680 | a fenced upload replaces no other document's PDF |
| SigningSafety.FinalizeKeepsInv | workers/escri.py:694-695 | a number becomes CONFIRMED only with its own PDF stored |
| SigningSafety.FailureKeepsInv | workers/escri.py:834-880 | the failure handler cancels no committed number |
| SigningSafety.DeleteNeverReached | workers/escri.py:787-807 | no job stands before the deletion of an official PDF |
| SigningSafety.RejectKeepsInv | services/documents/lifecycle/rejection.py:86-125 | a rejection frees only a RESERVED number |
| SigningSafety.SweepDigitalKeepsInv | workers/sweeper_escri.py:824-1039 | a CONFIRMING digital orphan is completed when its PDF is found and cancelled only when it is absent |
| SigningTheorems.StepRefines | workers/escri.py:452-897 | seen from the numbering table every step is one numbering transaction or nothing |
| SigningTheorems.NumberingIsRefined | workers/escri.py:452-897 | so every reachable numbering table is reachable by the numbering transactions alone |
| SigningTheorems.SignedMeansStored | workers/escri.py:694-740 | in every state of every run a signed session has its number CONFIRMED under its ticket and the PDF stored, and every CONFIRMED reservation has its own PDF |
| SigningTheorems.StoredMeansCommitted | workers/escri.py:583-695 | a stored PDF's number is held by a row that is CONFIRMING or CONFIRMED, under the PDF's ticket |
| SigningTheorems.StoredForGood | shared/numbering.py:123-150 | from then on neither the PDF nor the number's owner ever changes |
| SigningTheorems.OneLiveSession | workers/sweeper_escri.py:785-807 | at most one session of a reservation, and of a document, is pending or processing |
| SigningTheorems.SessionsMoveForward | workers/sweeper_escri.py:302-417 | over any run no session disappears, changes owner or leaves a terminal status |
| SigningTheorems.DeletesExactlyOnFailedRead | workers/escri.py:748-787 | the rejection handler enters its delete branch exactly when the status read fails |
| LostPdf.FailedReadLosesThePdf | workers/escri.py:748-807 | a reachable state from which a failed read deletes the PDF of a CONFIRMED number |
| JobAlone.ClaimStartsTheJob | workers/escri.py:285-338 | a job starts under its claim with the row it claimed, resuming exactly when the row says so |
| JobAlone.JobRunsToItsEnd | workers/escri.py:452-740 | a job just claimed and left alone: a number under its ticket ends CONFIRMED with the PDF stored under it, the waiting draft and the session signed; a draft that does not wait, or a number no longer the job's, fails the session and leaves the rest |
| JobAlone.StaleTicketEnds | workers/escri.py:585-642 | the same from a failed compare-and-set: resumed, only closed, or failed, by what the row says |
| JobAlone.FailedCallsGoToTheHandler | workers/escri.py:583-740 | a call that fails changes the tables as a successful one or not at all, and leads to the failure handler |
| JobAlone.NoUploadWithoutTheClaim | workers/escri.py:644-680 | a job that lost its claim uploads nothing and ends |
| JobAlone.FailedPreparation | workers/escri.py:502-582 | a preparation that fails or loses its lease changes no table |
| JobAlone.BreakerHandsBack | workers/escri.py:1920-1942 | an open breaker ends the job and hands the session back for as long as it says |
| JobAlone.GuardHandsBack | workers/escri.py:1944-1988 | so does an unreadable status, for 30 seconds, and fails the session at the fifth attempt |
| JobAlone.ShutdownHandsBack | workers/escri.py:341-373 | a clean shutdown hands the session back at once if the job still holds it |
| JobAlone.HeartbeatKeepsTheClaim | workers/escri.py:375-419 | a heartbeat keeps a claim still held for ten minutes more and changes nothing else |
| SigningOutcome.SessionEndsSignedExactly | workers/escri.py:722-786 | a job that marks its document and ends holding its claim, its calls succeeding, leaves its session signed if and only if the draft was still waiting, and failed otherwise, whatever others do meanwhile |
| SigningOutcome.FailureEndsExactly | workers/escri.py:834-897 | a failed job that keeps its claim to the end, its calls succeeding: row CONFIRMED, the session ends signed; CONFIRMING, the job ends at once and changes nothing; otherwise the session ends failed, whatever others do meanwhile |
| SigningOutcome.GivingUpCancels | workers/escri.py:880-897 | a failed job that is no resume cancels its reservation on the way |
| SigningOutcome.CancelFrees | shared/numbering.py:974-1036 | that cancels exactly a RESERVED row under the job's own ticket |
| SigningOutcome.ResumingNeverCancels | workers/escri.py:880-897 | a resuming job never cancels |
| SigningOutcome.RejectionCleansUp | services/documents/lifecycle/rejection.py:84-138 | a rejection leaves the document rejected, its RESERVED number CANCELLED, its live sessions EXPIRED, and nothing else changed |
| LostPdf.SignedDocumentSessionFails | workers/escri.py:763-786 | a run in which the only session of a signed document ends failed |
| SigningProgress.NobodyIsStuck | workers/sweeper_escri.py:520-583 | an overdue RESERVED or CONFIRMING row, or a CONFIRMED one whose draft still waits, has a live session or an enabled sweeper handler that frees it or queues one |
| SigningProgress.LiveSessionMoves | workers/sweeper_escri.py:302-417 | an expired live session can be requeued or expired by the sweeper |
| SigningProgress.EveryReservationCanEnd | workers/sweeper_escri.py:608-822 | from every state the invariant allows some run from now on frees the number, or confirms it with its PDF stored and its draft no longer waiting |
| SigningProgress.FromQuietConfirmed | workers/sweeper_escri.py:1103-1190 | the auto-heal part of that run |
| SweeperPass.Sweeper.HandlePendingExpired | workers/sweeper_escri.py:302-325 | expires exactly the pending sessions past their time |
| SweeperPass.Sweeper.HandleReservedOrphans | workers/sweeper_escri.py:520-583 | cancels exactly the RESERVED rows more than 15 minutes old with no session queued and no digital session active |
| SweeperPass.Sweeper.ResolveDigitalOrphans | workers/sweeper_escri.py:824-1039 | each digital orphan is CONFIRMED and its waiting draft signed when its PDF is found, CANCELLED when it is not, and nothing else changes |
| SweeperPass.Sweeper.HandleConfirmingExpired | workers/sweeper_escri.py:608-822 | digital orphans are resolved, each other orphaned CONFIRMING row gets one new resume session, and nothing else changes |
| SweeperPass.Sweeper.HandleConfirmedNotSigned | workers/sweeper_escri.py:1103-1195 | each CONFIRMED row whose draft waits gets one auto-heal session, and nothing else changes |
| SweeperPass.Sweeper.SweepSchema | workers/sweeper_escri.py:186-197 | after a pass no live numerator session is past its time, every orphan is freed or resolved by what is stored, every other RESERVED row is untouched, every overdue reservation has a live session, and sessions only moved forward |
| SweeperPass.RequeuedServes | workers/sweeper_escri.py:785-807 | re-queueing gives every selected row a live session and takes none away |
| SweeperPass.SelectionsExactly | workers/sweeper_escri.py:520-540 | the four selections in terms of status, age, queue and digital sessions |
| SweeperPass.CancelsExactly | workers/sweeper_escri.py:520-583 | a pass over the RESERVED rows changes exactly those to be freed |
| SweepTimes.SweptOnlyWhenOld | workers/sweeper_escri.py:520-583 | in every run, a reservation the sweeper cancels was made by an event more than 15 minutes before, has nothing queued, and is the only row to change |
| SweepTimes.ResumedOnlyWhenOld | workers/sweeper_escri.py:608-652 | a CONFIRMING number it takes on was confirmed by an event more than 20 minutes before and has nothing queued |
| SweepTimes.SweepReservedExactly | workers/sweeper_escri.py:520-540 | and it may cancel every RESERVED row that old with nothing queued |
| SweepTimes.ExpiredExactly | workers/sweeper_escri.py:302-325 | exactly the pending sessions past their time end expired |
| SweepTimes.AbandonedExactly | workers/sweeper_escri.py:345-411 | a session whose claim has run out goes back unclaimed, resuming exactly when it did or the row is CONFIRMING |
| SweepTimes.QueuedExactly | workers/sweeper_escri.py:785-807 | what is put in the queue: free at once, for half an hour, of the row's ticket and number, resuming and auto-healing exactly by its status |
| SweepTimes.MarkedExactly | workers/sweeper_escri.py:1198-1316 | a CONFIRMED number of a rejected document, or a digital one that hangs, gets a session that is over and cannot be claimed, and nothing else changes |
| RetryCeilings.StepCounts | workers/escri.py:1944-1988 | whoever acts, a guard requeue leaves the acting job's claimed counter plus one in the row, and every other step, the sweeper's rewrite included, leaves the counter alone |
| RetryCeilings.RequeueCountsExactly | workers/escri.py:1944-1988 | so a guard requeue is counted if and only if the acting job carries the row's counter, as the claim's holder does |
| RetryCeilings.CounterIsExact | workers/escri.py:1944-1988 | in every run the counter counts the requeues throughout if and only if each was made by a job carrying the row's counter, and then there are at most four |
| RetryCeilings.GuardCeiling | workers/escri.py:1944-1988 | in particular when every failing read comes from the claim's holder |
| RetryCeilings.LastAttemptFails | workers/escri.py:1953-1970 | the holder's failed read ends the session exactly at the ceiling |
| EndlessRequeues.NoCeilingWithoutTheClaim | workers/escri.py:484-500 | for every k, a run from the empty system that requeues one session k times, counts at most one of them and leaves it pending |
| CommonSigning.StepKeepsInv | workers/escri.py:925-1148 | every step of any number of jobs, dying anywhere, keeps what files, session and signer say consistent |
| CommonSigning.CommonSigningIsCrashSafe | workers/escri.py:925-1148 | at most one upload and two post-upload requeues; a signed session has its signer marked, and exactly one signature in `tosign` if and only if no rollback tore it |
| CommonSigning.TornExactly | services/documents/signing/r2_lock.py:168-186 | which rollbacks tear: those that find the unsigned copy after the upload |
| CommonSigning.ThirdFailureCloses | workers/escri.py:1866-1911 | the third post-upload failure closes the session |
| CommonAlone.JobRunsToItsEnd | workers/escri.py:925-1125 | a job just claimed and left alone: it only closes, finishes an upload it finds, signs the locked PDF once, or fails for want of one, and leaves exactly that |
| CommonAlone.EndsSignedExactly | workers/escri.py:951-1050 | so it ends signed if and only if the signer or the upload is marked or `tosign` does not hold the unsigned PDF |
| CommonAlone.FailureUnlocks | workers/escri.py:1126-1145 | a failure before the upload gives the PDF back unsigned and fails the session |
| CommonAlone.FailureRequeuesTwice | workers/escri.py:1866-1911 | one after it requeues the session twice, then fails it, and leaves the files |
| CommonAlone.ExpiryUnlocks | workers/sweeper_escri.py:453-488 | a session that expires before its upload has its PDF back in `tosign` as it was |
| CommonAlone.AbandonedStartsOver | workers/sweeper_escri.py:490-518 | an abandoned session can be claimed by a job that starts over |
| TornSignature.SignedWithoutSignature | workers/escri.py:1126-1145 | a run that ends signed, with the signer marked, and no signature in `tosign` |
| DocumentVisibility.DraftsShown | services/document_service.py:177-196 | who sees a draft, without NULLs: creator, signer, or sector mate unless private, and what each filter keeps |
| DocumentVisibility.OfficialsShown | services/document_service.py:283-297 | the same for official documents |
| DocumentVisibility.DraftsDiffer | services/document_service.py:300-325 | a draft is missed by the fast form exactly when it falls through under 'sector' |
| DocumentVisibility.OfficialsAgree | services/document_service.py:327-353 | official documents are listed alike under every filter |
| DocumentVisibility.RewritePreservesMeaning | services/document_service.py:300-362 | for every database, user and filter the two forms list the same documents if and only if the filter is not 'sector' or no draft falls through |
| DocumentVisibility.ADraftFallsThrough | services/document_service.py:377-383 | a database in which the two forms differ |
| DocumentVisibility.AgreeWithoutNulls | services/document_service.py:424-440 | with no NULL `is_numerator` they agree outright |
| DocumentVisibility.FiltersPartition | services/document_service.py:546-549 | 'mine' and 'sector' split the unfiltered list |
| Reconciler.NumbersInStore | jobs/reconcile_r2_db.py:27-66 | the inventory of both buckets and whether a listing was cut short |
| Reconciler.InventoryIsComplete | jobs/reconcile_r2_db.py:27-66 | it holds every stored number, prefers `oficial`, and calls duplicated exactly the numbers in both buckets or twice in `oficial` |
| Reconciler.DuplicateInOneBucket | jobs/reconcile_r2_db.py:51-59 | a listing in which a number is called duplicated although it is in one bucket only |
| Reconciler.NumbersInDatabase | jobs/reconcile_r2_db.py:69-100 | the official rows by number |
| Reconciler.OfficialsAreLast | jobs/reconcile_r2_db.py:69-100 | each number's row is its last official one, and there is one exactly when some official row has the number |
| Reconciler.Reconcile | jobs/reconcile_r2_db.py:123-235 | the findings are exactly the discrepancies outside the grace window, each once |
| Reconciler.KeyTextInjective | jobs/reconcile_r2_db.py:313-321 | the text findings are compared by tells them apart |
| Reconciler.FindingsTable.Persist | jobs/reconcile_r2_db.py:245-307 | inserts or reopens every finding whose insert succeeds and returns the unreported ones |
| Reconciler.FindingsTable.MarkResolved | jobs/reconcile_r2_db.py:310-329 | resolves exactly the open records not found again, and counts them |
| Reconciler.FindingsTable.RunOnce | jobs/reconcile_r2_db.py:379-381 | one run is the step the histories below are made of |
| Reconciler.NewExactly | jobs/reconcile_r2_db.py:245-307 | with inserts that may fail, a finding is new exactly when it is inserted while its episode is not open |
| Reconciler.NewOncePerEpisode | jobs/reconcile_r2_db.py:245-329 | over successful runs it is new if and only if present now and absent the run before |
| Reconciler.NeverTwiceInAnEpisode | jobs/reconcile_r2_db.py:245-329 | it is never reported twice while it stays present, even when inserts fail |
| Reconciler.MissingIsReported | jobs/reconcile_r2_db.py:156-189 | a run finds a missing PDF if and only if its listing was not cut short |
| Reconciler.ReportedExactly | jobs/reconcile_r2_db.py:123-235 | over listings and rows: a PDF without document, a document without PDF, a location out of step and a duplicate are each reported if and only if they are so and outside the grace window |
| Reconciler.ReconcileTenant | jobs/reconcile_r2_db.py:123-235 | a whole run on a tenant finds exactly those discrepancies, each once |
| Reconciler.TruncationReopensExactly | jobs/reconcile_r2_db.py:156-329 | a missing PDF that persists over two runs, its finding open, is new in the second, complete run if and only if the first one's listing was truncated |
| Reconciler.ReportedTwice | jobs/reconcile_r2_db.py:156-160 | three runs that report one missing PDF twice |
| QueueDrain.StartBound | workers/escri.py:204-217 | no job of a queue of n starts after the last full round |
| QueueDrain.DrainsExactly | workers/escri.py:204-217 | every run starts all n jobs before they expire if and only if somebody claims and the last round begins in time |
| QueueDrain.CoherentDrains | config/constants.py:404-426 | a passing configuration check drains every queue up to the cap in time |
| QueueDrain.EstimateIsTight | config/constants.py:404-406 | the estimate exceeds the latest possible start in a full queue, by at most one job |
| QueueDrain.CheckIsSoundExactly | config/constants.py:404-426 | a passing check guarantees it if and only if concurrency and workers are positive |
| QueueDrain.CoherentButIdle | config/constants.py:404-426 | configurations that pass the check and never claim |
| RateLimiter.InMemoryRateLimiter.Check | api_gateway/rate_limiter.py:46-59 | the key's new list and the verdict with its remaining count or retry_after |
| RateLimiter.InMemoryRateLimiter.Cleanup | api_gateway/rate_limiter.py:61-65 | drops exactly the idle keys |
| RateLimiter.AtMostLimitPerWindow | api_gateway/rate_limiter.py:46-65 | every half-open window holds at most `limit` admitted requests, for every history with cleanups |
| RateLimiter.AdmitsExactly | api_gateway/rate_limiter.py:46-59 | a request is admitted if and only if fewer than `limit` were in the window that ends with it |
| RateLimiter.RemainingExactly | api_gateway/rate_limiter.py:50-59 | an admitted request is told the limit less the requests in the window that ends with it, itself counted |
| RateLimiter.CleanupDropsExactly | api_gateway/rate_limiter.py:61-65 | a key is idle exactly when all its requests are more than 120 seconds old |
| RateLimiter.RetryExactly | api_gateway/rate_limiter.py:54-57 | a rejected key is admitted again exactly when its oldest counted request leaves the window |
| RateLimiter.RetryFrom | api_gateway/rate_limiter.py:54-57 | a rejection finds `limit` requests, and retry_after is the wait rounded down, at least one second |
| RateLimiter.BoundHoldsExactly | api_gateway/rate_limiter.py:61-65 | the bound holds in every history if and only if the window is at most 120 seconds or the limit is zero |
| RateLimiter.ClosedWindowHoldsTwice | api_gateway/rate_limiter.py:48-50 | a window closed at both ends never holds more than twice the limit |
| RateLimiter.TwiceIsReached | api_gateway/rate_limiter.py:48-50 | for every limit and window a history in which it holds exactly that |

## Left out

- The database lookups that resolve a type, a city and a department before numbering, and their validation errors.
- `document_chunks` rows deleted beside a recycled number: they feed nothing back.
- `document_service` search, dates, ordering and hydration columns: the model keeps visibility, role and sector
  filter. A user signs a document at most once there, and a type's acronym is not NULL.
- SPECIAL rows in the signing protocol: asynchronous numerator signing is modelled for GLOBAL numbers.
- The PDF's file name: the store is keyed by year and sequence, which `NumberFormat.OfficialNumbersUnique` justifies.
- The fallback that reads the official number when a payload lacks it: payloads carry it from the start.
- SigningSafety.SweepDigitalKeepsInv: the protocol lets the sweeper resolve a reservation whose digital session is
  still under way, which the code skips; `SweeperPass` has that exclusion.
- Audit rows, alerts, public publication, purges and the bucket a PDF was stored in: soft-fail effects.
- `digital_complete`, `sign_citizen` and `dts` jobs: of the digital path only opening, confirming, uploading and the
  orphan resolution are modelled.
- Rejection of a document while a common signature is in progress, and the Redis part of the signing lock.
- The non-atomic rollback of the signing lock: copying and deleting count as one move.
- Heartbeat timing: a lost claim may be noticed at any step or never.
- Job failures before the first read of a numerator job: they behave as a failure in a later step.
- SweeperPass.Sweeper.SweepSchema: one pass happens at one instant and leaves the batch, common, `dts` and conflict
  handlers out; `SigningProtocol` has the conflict step, `CommonSigning` the common ones.
- SweeperPass.Sweeper.HandleConfirmingExpired: the observation marker for a digital orphan younger than its grace
  period, which is shorter than the age the query asks for; the rows' order.
- Cancellations by a digital batch with CONFIRMING among its states: `batch_digital` is not part of this model. The
  other calls of `cancel_number` outside the worker and the sweeper are the step `CancelUnsent` of `SigningProtocol`.
- Unique constraints other than primary keys: a collision that the model predicts may surface as an error.
- The order of findings and of the rows a sweep selects.
- TSA requeues, the rate-limit cap and the queue admission limits: single-branch arithmetic.
