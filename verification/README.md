# Verification of the Remak backend

A model in Dafny of the parts of this repository whose correctness lies in how pieces work together,
and proofs about it. `dafny verify dfyconfig.toml` checks everything.

## What is modelled

**The ingestion protocol.** `Schema` has the tables, `Transactions` every transaction as a function from
one committed state to the next, `Effects` what each of them writes, column by column, and `Tables` the SQL
statements as methods that change the tables in place.
The services and workers (`Library`, `Identity`, `Filestore`, `Outbox`, `ScrapeResults`, `Enrichment`,
`Cleanup`) run those statements in the order of the Go code, with its loops, guards and rollbacks, and
are proved to commit exactly those functions. `Protocol` lets everything interleave: API requests, any
number of dispatchers, the scraper, the result consumer, the enrichment and cleanup loops and the
maintenance job, with sends that are not marked, crashes at any point, duplicated, reordered and late
results, expired leases, lost replies, deletions, withdrawals and refreshes. What a worker has read stays
in its own state and may be stale when it commits. `Refinement` and `RequestSteps` show that the methods take
steps of this relation.
`Invariants` says what every reachable state satisfies, the `Proofs…` modules and `Runs` that every step
keeps it, `Progress` what no step takes back, `TakenBack` the one thing that a step does take back, and
`Theorems` and `Histories` what follows for every run. `Objects` follows the version rows that name objects,
`Artifacts` and `Deletions` say when cleanups delete what they should, and `LiveObjects` when the files of live
documents are there.
`Maintenance` adds the deletion of old inbox, outbox and job rows, and shows that it goes unnoticed.
`Findings` has the runs in which the design fails, built from those of `Examples`.

**Text and ranking.** `Chunker` is the overlapping window of `ChunkText`; `RankFusion` is reciprocal rank
fusion and the search around it.

**Services over the same tables.** `Pagination` follows a cursor while the list changes, `Challenges`
interleaves the statements of verify and complete calls, `AccountLock` interleaves the statements of
uploads, creates, deletions and withdrawals under their row locks, with sums from `Storage`, and
`Collections` is the collection update while documents are deleted.

## What is assumed

- In `Protocol` a transaction is one atomic step; the reads before it (scrape_results.go:147-159,
  processor.go:88-106) are separate steps. `AccountLock` and `Challenges` are at the level of statements.
- There is one consumer loop, one enrichment loop and one cleanup loop (cmd/worker/main.go:67-71). They
  may crash and start again at any point. A claim is not taken over by a second worker while the first
  still works on it.
- A result carries the `eventId` and the job of a request that was sent (docs/events.md:34, 65), and is
  otherwise arbitrary.
- Only `Maintenance` has the deletion of old inbox, outbox and job rows. It needs that no result arrives
  whose inbox row is gone (`Maintenance.Retained`). The 30 days of maintenance.sql.go:12-15 count from the
  result; they suffice if the outbox row is published or dead-lettered by then and the two queues keep
  messages for less together.
- A commit or a statement that reports an error may have happened all the same. In `Protocol` the caller
  can always go on as after an error: the consumer, a dispatcher or the cleanup loop gives up or stops, the
  enrichment loop fails and rejects the job (`Finish` and `FinishOutdated` without an answer). An upload sees
  an error if its transaction rolls back or commits without an answer (`NewFile`), or before that
  (`FailUpload`), and only then deletes its own objects again (`Compensate`), which a commit that has been
  sent already may still precede or follow. Of the classes, `Enrichment` and `Cleanup` have it too; in the
  others a commit that reports an error has not happened.
- Generated identifiers are fresh, and so are the keys of uploaded files, which contain one
  (filestore/service.go:145). An object is stored once, before its upload's transaction begins
  (filestore/service.go:146-155), in a bucket in which the scraper stores nothing.
- Lease expiry, back-off, retention ages and the choice among due rows are left to the clock: what a clock
  could allow is allowed at any moment.
- A NULL text column and an empty one are the same value, as pgutil.Text makes them.

## What the proofs show about the design

- **A completed document can be taken back.** When the commit of an enrichment happens and reports an
  error (processor.go:223), ProcessBatch records a failure, which changes nothing because the job has
  succeeded, and then RejectEnrichment, whose WHERE tests neither the status nor the job
  (documents.sql.go:993-999). The document is ENRICH_REJECTED with a job that nobody will claim again, and
  the vector search, which does not test the status, goes on to show its chunks.
  `Theorems.NeverBackwards` and `TakenBack.PhaseFallsExactly` give the exact condition: the phase at an
  unchanged version falls exactly at a stored rejection of a job that has succeeded and whose document is
  live at that version. `Theorems.TakenBackForGood` says what follows, `Findings.LostReply` is a run.
  Nothing else takes a document back (`TakenBack.TakenBackExactly`).
- **An artifact can outlive the cleanup of its document**, in two ways. docs/data-model.md:74 promises that
  every last artifact is deleted even if cleanup and late result come together. First, a result that was
  read while its document was live at a later version may commit after the document has been deleted and
  cleaned up: its artifact is recorded and the cleanup is not requeued (scrape_results.go:245)
  (`Findings.LateResult`). Secondly, a request that is delivered again makes the scraper store the same
  keys again (docs/events.md:44-54), after the cleanup has deleted them; its result is a duplicate
  (`Findings.SecondDelivery`). In neither case is the cleanup queued again for it; unless a withdrawal or
  another late result happens to do so, hard deletion drops the record. `Artifacts.CoveredExactly` gives the
  exact condition for every step, `Artifacts.CleanupIsSafe` the guarantee for all runs without such a step,
  and `Findings.HarmIsDone` shows that every such step can lead to a succeeded cleanup with an object left.
  A result of the current version needs no condition, because CompleteScrape checks again. All of this is
  about objects that a version row names. An object that the scraper stores for a result that is never
  accepted, or after the document has been hard-deleted, is named by none: no cleanup lists it, and it is
  outside `StoredAgain` and these results.
- **A publish mark that commits after a failed result** puts job and document back to processing
  (outbox.go:131-140) with the event already in the inbox. The document then stays in the scrape phase
  until it is refreshed (`Theorems.LateMark`, `Theorems.RejectedForGood`, `Findings.LateMark`).
- **The object of an uploaded file can be gone.** When the commit of an upload happens and reports an error,
  the clean-up deletes objects that the committed rows name (filestore/service.go:95-99, 282-291).
  `LiveObjects.FileGoneExactly`: in every state of every run, the object of a live file or image has been
  deleted if and only if its upload has committed without an answer and has deleted its objects again. No
  other upload and no cleanup takes it. `Findings.LostUpload` is a run.
- **A collection update can succeed without a document that it added.** `Collections.AddedExactly`: a new
  document becomes a member if and only if no deletion or withdrawal that commits before its insert
  (taxonomy.sql.go:15-25) begins hits it; one that commits later leaves it a member although it is deleted.
  The same insert waits for a removal in progress if the document is a member already, and then inserts the
  row again. `Collections.Races` has these, `Collections.CompleteExactly` the exact condition for the members
  to be the old and the added ones without the removed ones.
- **A challenge can be consumed without a token.** The mark and the token are two steps
  (identity/service.go:429-435), and the path without a token (service.go:481) needs only the mark:
  `Challenges.EffectWithoutToken`. What holds is that every effect has one verification of its own email
  and purpose (`Challenges.ChallengeLifecycle`, `Challenges.ConsumedOnceVerified`).
- **A result can be applied twice if its inbox row is deleted too early**: `Maintenance.AppliedAgain` says
  exactly when, and that the document then goes back to the scrape phase or waits for its enrichment again,
  even if it was completed. `Findings.ForgottenResult` is a run.
- **A hard-deleted cursor row ends the pagination early** with an empty page
  (`Pagination.CompleteExactly`, `Pagination.EndsEarly`).
- docs/events.md:87-95 lists the inbox registration before the match of job, document and version; the
  code matches first (scrape_results.go:147-177) and the model follows the code. In reachable states the
  terminal check of scrape_results.go:179-186 never decides: the inbox already has.

## Main results

- Runs and results: `Runs.RunKeeps`, `Theorems.ResultAppliedOnce`, `Theorems.VerdictOfResult`,
  `Histories.AppliedResultStays`, `Maintenance.MaintenanceIsUnseen`, `Maintenance.AppliedOnce`.
- Status: `Theorems.NeverBackwards`, `TakenBack.PhaseFallsExactly`, `TakenBack.TakenBackExactly`,
  `Theorems.DocumentShowsItsVersion`, `Theorems.SearchSeesTheContent`, `Theorems.EnrichingHasJob`,
  `Histories.MemoKeepsItsText`, `Enrichment.AttemptEnriches`, `Enrichment.AttemptFails`.
- Jobs and outbox: `Theorems.ClaimsBounded`, `Theorems.NothingLeftToClaim`, `Theorems.OutboxIsSafe`,
  `Histories.PublishedIsProcessing`, `Outbox.BatchIsDispatched`.
- Artifacts: `Artifacts.CoveredExactly`, `Deletions.CleanupDeletes`, `Findings.HarmIsDone`,
  `LiveObjects.FileGoneExactly`.
- Accounts and challenges: `AccountLock.AccountIsConsistent`, `Challenges.ChallengeLifecycle`,
  `Challenges.VerifiedByCode`.
- Text and ranking: `Chunker.ChunksAreWindows`, `Chunker.PhraseInOneChunk`, `Chunker.WindowsReassemble`,
  `RankFusion.FusionIsUnique`, `RankFusion.AgreementWins`, `RankFusion.Dominates`.
- Lists: `Pagination.NeverTwice`, `Pagination.CompleteExactly`, `Collections.CountCheck`,
  `Collections.AddedExactly`, `Collections.StaysExactly`, `Collections.CompleteExactly`.

## Model

Every statement of the SQL files that the transactions use is a method of `Tables`, under its own name. Those
with a guard that matters above come last.

| member | source | states |
|---|---|---|
| Runs.RunKeeps | internal/worker/scrape_results.go:124-264 | every state of every run satisfies the invariant (Invariants.Inv): rows that match one another, exact inbox, earned phases, projection, index, lease and cleanup state, although workers act on stale reads |
| Runs.NextKeeps | cmd/worker/main.go:52-71 | each step of any process, taken in any reachable state, keeps the invariant; dispatchers may be many |
| Progress.RunMoves | internal/dbgen/documents.sql.go:950-1020 | between any two states of a run versions, jobs, events and histories have only moved forward, a version has not gone back to the scrape phase, and deletion is final |
| Theorems.ResultAppliedOnce | internal/worker/scrape_results.go:160-263 | for every request of every run: its scrape job has exactly one applied result if its event is in the inbox and none otherwise, and every committed inbox row is processed |
| Theorems.FirstResultWins | internal/worker/scrape_results.go:204-220 | once the result of a version is applied, neither artifact key of its row ever changes again |
| Theorems.VerdictOfResult | internal/worker/scrape_results.go:160-263 | exactly what the transaction decides in a reachable state; the terminal check never decides, and a missing cleanup row or a used identifier never rolls it back, so the requeue always affects one row |
| Theorems.NeverBackwards | internal/dbgen/documents.sql.go:195-230 | between any two states of a run current_version never falls, and at one version the phase has fallen if and only if the document was completed and has been taken back since; DRAFT and ENRICH_PROCESSING are never committed; owner and type stay, deletion is final |
| TakenBack.PhaseFallsExactly | internal/dbgen/documents.sql.go:993-999 | at every step of every run the phase of a document at an unchanged version falls if and only if the loop stores a rejection for a job that has succeeded and whose document is live at that version |
| TakenBack.TakenBackExactly | internal/enrichment/processor.go:52-83 | in every state of every run a live document is ENRICH_REJECTED with a succeeded job if and only if such a step has taken its current version back |
| TakenBack.FallenExactly | internal/enrichment/processor.go:52-83 | the same between any two states, also when the document has been deleted since |
| Theorems.TakenBackForGood | internal/dbgen/jobs.sql.go:17-39 | a version taken back stays ENRICH_REJECTED while it is shown, its job cannot be claimed and the vector search shows its chunks |
| Theorems.StatusCommitted | internal/dbgen/documents.sql.go:950-957 | no committed document is in ENRICH_PROCESSING |
| Theorems.RejectedForGood | internal/worker/scrape_results.go:187-203 | a version whose applied result left it in the scrape phase stays in that phase until the document gets a new version |
| Theorems.LateMark | internal/worker/outbox.go:110-145 | when the publish mark commits, the document is shown as being scraped exactly if it is still in the scrape phase at that version, whether or not its result has been applied |
| Theorems.DocumentShowsItsVersion | internal/enrichment/processor.go:95-217 | in every committed state content, and once completed summary, of a live document are those of its version row at current_version |
| Theorems.SearchSeesTheContent | internal/dbgen/jobs.sql.go:450-472 | the chunks the vector search joins in for a document are exactly ChunkText of its content, numbered from 0, if it is live and COMPLETED or was until it was taken back, and none otherwise |
| Theorems.OutboxIsSafe | internal/worker/outbox.go:56-145 | no event is published and dead-lettered, published implies sent, at most ten failures are counted and dead-lettering happens exactly at the tenth |
| Theorems.EndedOnce | internal/dbgen/jobs.sql.go:256-264 | an event published in any state of a run is dead-lettered in none |
| Theorems.AttemptsReadAreCurrent | internal/worker/outbox.go:92-105 | while a dispatcher's token is on a row, the attempt count it read is the stored one |
| Theorems.PayloadNamesItsJob | internal/library/service.go:187-221 | every outbox payload passes the dispatcher's envelope check and names the scrape job of its document and version, so ignoring the returned row of the upsert is harmless |
| Theorems.DeletedHasCleanup | internal/library/service.go:342-376 | a document is deleted exactly when it has a cleanup job, and a live document has an active owner |
| Theorems.VersionsAreOneToCurrent | internal/library/service.go:187-198 | the version rows of each document are exactly 1 to current_version |
| Theorems.SucceededStays | internal/dbgen/jobs.sql.go:142-146 | SUCCEEDED is absorbing along every run; attempts never go down |
| Theorems.ClaimsBounded | internal/dbgen/jobs.sql.go:17-39 | an enrichment job is claimed at most five times in any run, so all claims are at most five for each job ever created |
| Theorems.SizeBounded | internal/dbgen/jobs.sql.go:17-39 | the counting argument behind it: counts of at most n for each of k identifiers add up to at most n times k |
| Theorems.NothingLeftToClaim | internal/dbgen/jobs.sql.go:17-39 | an enrichment job cannot be claimed exactly when it has succeeded or has used its five attempts, and then it is never claimed again in the run |
| Theorems.EnrichingHasJob | internal/enrichment/processor.go:47-106 | a live document in the enrichment phase has a job of its version, which has succeeded if and only if the document is completed or was until it was taken back |
| Histories.AppliedResultStays | internal/worker/scrape_results.go:204-214 | in every later state of every run in which the document is still there, the version row of an applied result has the raw and the content key of its message, and its text unless that is blank |
| Histories.TextStays | internal/enrichment/processor.go:108-153 | a version row that has a text, which for a webpage is that of its result, keeps it for the rest of the run while the document is there |
| Histories.MemoKeepsItsText | internal/library/service.go:35-145 | in every state of every run the version row of a memo holds the trimmed text, not blank and of at most 5 MiB, of the request that created this version |
| Histories.PublishMarks | internal/worker/outbox.go:110-145 | a publish mark under the token publishes the event, and its scrape job becomes PROCESSING with one more attempt if it was QUEUED or FAILED, and stays as it is otherwise |
| Histories.PublishedIsProcessing | internal/dbgen/jobs.sql.go:352-360 | in every state of every run the scrape job of a published event is PROCESSING while its result is not in the inbox and its document is there |
| Artifacts.CoveredExactly | internal/worker/artifact_cleanup.go:70-103 | a step keeps the cleanup complete if and only if it does not record an object for, or store again an object of, a document whose cleanup has finished or has listed without it; only a raced commit and the scraper can |
| Artifacts.CleanupIsSafe | internal/worker/artifact_cleanup.go:70-103 | over every run without such a step, also when results commit between listing and completion |
| Deletions.CleanupDeletes | internal/worker/artifact_cleanup.go:70-103 | in a run without such a step, once the cleanup of a document has succeeded, the object of the raw and that of the content key of each of its version rows has been deleted by a step of the run, since the row names it, and not stored again |
| Deletions.PurgeForgetsNothing | internal/dbgen/maintenance.sql.go:66-92 | so have both objects of every row that hard deletion of documents or withdrawn accounts removes |
| Deletions.DeletedSince | internal/worker/artifact_cleanup.go:89-95 | in any run, an object that a row names and that is not recorded as undeleted has been deleted by a step of the run since the row names it |
| Artifacts.RacedCovered | internal/worker/scrape_results.go:245-252 | the raced commit itself, both directions |
| Artifacts.StoredAgainCovered | docs/events.md:44-54 | the second delivery of a request, both directions |
| LiveObjects.FileGoneExactly | internal/filestore/service.go:74-101 | in every state of every run a live file or image names the object of its own upload, which no other file names, and that object has been deleted if and only if the transaction of the upload committed without an answer and the upload deleted its objects again |
| LiveObjects.RunIsFollowed | internal/filestore/service.go:74-101 | every step of every run keeps the key of an upload and its error, records an error at the commit if and only if nobody is answered, and deletes the object of a live document, or of one not committed yet, only as the clean-up of that upload after an error |
| LiveObjects.DeletedExactly | internal/filestore/service.go:282-291 | so along a run the object of such a document is deleted if and only if its own upload has deleted it again: no other request and no cleanup loop does |
| LiveObjects.FailedExactly | internal/filestore/service.go:95-99 | and an upload that has committed has seen an error if and only if a step of the run committed it without an answer |
| Objects.StepIsTracked | internal/worker/scrape_results.go:204-252 | every step but those of the scraper and the cleanup loop changes the objects that version rows name in one row at most, the one of its version or its result, records objects for that row alone and moves no cleanup on |
| Maintenance.MaintenanceIsUnseen | internal/dbgen/maintenance.sql.go:12-43 | a run with the deletion of old inbox, outbox and job rows is a run without it, seen without the deleted rows, as long as no result arrives whose inbox row is gone |
| Maintenance.RowsAreForgotten | internal/dbgen/maintenance.sql.go:12-43 | which inbox, outbox and job rows the maintenance job may delete, and that nothing else goes with them |
| Maintenance.AppliedOnce | internal/dbgen/maintenance.sql.go:12-15 | then a scrape job has one applied result if and only if its event is or was in the inbox, and none otherwise |
| Maintenance.WaitingHasJob | internal/dbgen/maintenance.sql.go:25-29 | and the job that a live document waits for has not been deleted |
| Maintenance.AppliedAgain | internal/worker/scrape_results.go:160-263 | without its inbox row a result is applied twice if and only if its job was read as unfinished or with the other outcome and, unless it reports a failure, it has content, its version row exists and, if read as current, it still is and its size is not negative; if its version is the one shown, the document is then ENRICH_PENDING or SCRAPE_REJECTED, whatever it was |
| Findings.ResultOutlivesCleanup | internal/worker/scrape_results.go:155-252 | from every reachable state in which a result has been read as old and its live document has nothing to clean up, the run can go on to a succeeded cleanup and an artifact that it has not deleted: removal, cleanup, commit |
| Findings.LateResult | internal/worker/scrape_results.go:155-252 | such a state is reached from the empty system: a concrete run |
| Findings.ScrapeOutlivesCleanup | docs/data-model.md:74 | from every reachable state with a live page that names one object, its cleanup and a second delivery of its request leave the object stored with the cleanup succeeded |
| Findings.SecondDelivery | docs/data-model.md:74 | such a state is reached from the empty system: a concrete run |
| Findings.HarmIsDone | internal/worker/artifact_cleanup.go:70-103 | after every harmful step, raced or stored again, past the listing or past the end, the run can go on to a succeeded cleanup with an object left |
| Findings.LostCommit | internal/enrichment/processor.go:52-83 | from every reachable state in which an enrichment can commit, its commit without a reply, the failure and the rejection take the completed document back |
| Findings.LostReply | internal/enrichment/processor.go:217-223 | such a state is reached from the empty system: a concrete run |
| Findings.LostUpload | internal/filestore/service.go:95-99 | a concrete run: an upload commits without an answer and deletes its object again, which a live file then names |
| Findings.ForgottenResult | internal/dbgen/maintenance.sql.go:12-15 | a concrete run with maintenance in which a result is applied twice |
| Findings.LateMark | internal/worker/outbox.go:110-145 | a concrete run after which a document is SCRAPE_PROCESSING although its failed result is in the inbox |
| ProofsConsume.NotYetApplied | internal/worker/scrape_results.go:160-177 | while the event of a request is not in the inbox its version has no enrichment job and is in the scrape phase |
| ProofsConsume.CommitCurrentKeeps | internal/worker/scrape_results.go:204-263 | a completed result of the current version keeps the whole invariant |
| ProofsConsume.CommitOldKeeps | internal/worker/scrape_results.go:204-263 | so does one of an old version or of a deleted document |
| ProofsConsume.CommitFailureKeeps | internal/worker/scrape_results.go:187-203 | so does a failed result |
| ProofsDispatch.PublishKeeps | internal/worker/outbox.go:110-145 | the publish mark keeps the invariant however late it commits |
| ProofsDispatch.NothingInvalid | internal/worker/outbox.go:66-81 | a claimed event never fails the envelope check |
| ProofsDispatch.FailedSendRow | internal/worker/outbox.go:92-105 | a failed send keeps every row within its ten attempts |
| ProofsEnrich.CommitShape | internal/enrichment/processor.go:143-217 | whether or not the content columns are written, version and document end with the content that was chunked |
| ProofsEnrich.EnrichedIndex | internal/dbgen/jobs.sql.go:408-411 | replacing the chunks of one version makes the visible chunks those of the content |
| ProofsEnrich.RejectedWasEnriching | internal/dbgen/documents.sql.go:993-999 | the document of a rejection is past the scrape phase, and completed only if the job in hand has succeeded |
| ProofsApi.BeginKeeps | internal/library/service.go:35-221 | every request that creates a version keeps the invariant |
| Outbox.OutboxDispatcher.DispatchBatch | internal/worker/outbox.go:56-108 | the loop commits AllDispatched of the claimed batch for the answers of the queue, and each valid event handled is sent once, in order, with the answer it gets |
| Outbox.OutboxDispatcher.Dispatch | internal/worker/outbox.go:66-105 | one event: dead letter without sending, or one send of the payload and then publish mark, reschedule or dead letter, by answer and attempts |
| Outbox.OutboxDispatcher.MarkPublishedAndProcessing | internal/worker/outbox.go:110-145 | the mark, the job and the document together, or nothing; the job is PROCESSING with one more attempt if it was QUEUED or FAILED |
| Outbox.BatchIsDispatched | internal/worker/outbox.go:56-108 | a batch whose events carry the token goes through to its end, and each event is published, given back with one more attempt, or dead-lettered at the tenth or as invalid, by its own answer |
| Outbox.EventIsDispatched | internal/worker/outbox.go:66-105 | the same for one event, under the token or not |
| Effects.PublishIsWritten | internal/worker/outbox.go:110-145 | the mark commits exactly under the token, and what it then writes to event, job and document |
| Effects.FailedSendIsWritten | internal/worker/outbox.go:92-105 | a failed send adds an attempt and gives the event back, as a dead letter after nine attempts |
| Effects.SendableEvent | internal/worker/outbox.go:66-81 | what a payload must be to be sent |
| Effects.EventsAreClaimed | internal/dbgen/jobs.sql.go:75-91 | a claim puts the token on the picked events and changes nothing else |
| ScrapeResults.ScrapeResultConsumer.Transact | internal/worker/scrape_results.go:160-263 | the statements commit exactly ApplyResult, or roll back |
| ScrapeResults.ScrapeResultConsumer.Complete | internal/worker/scrape_results.go:204-256 | a completed result passes exactly under the guards CanComplete and then does ApplySuccess: both artifact keys and the content are in its version row, and the document shows the content if it was read as current |
| ScrapeResults.ScrapeResultConsumer.ProcessMessage | internal/worker/scrape_results.go:124-264 | all checks and reads in order |
| ScrapeResults.ScrapeResultConsumer.Poll | internal/worker/scrape_results.go:76-109 | messages in turn; exactly those processed without error are deleted |
| ScrapeResults.DeletedIsRecorded | internal/worker/scrape_results.go:95-107 | a message is deleted only with its event in the inbox; otherwise nothing was committed |
| ScrapeResults.AllDeletedAreRecorded | internal/worker/scrape_results.go:95-107 | the same for a whole poll |
| ScrapeResults.RedeliveryChangesNothing | internal/worker/scrape_results.go:170-177 | a message delivered again after its event is in the inbox changes nothing and is deleted again |
| ScrapeResults.RecordedByVerdict | internal/worker/scrape_results.go:160-263 | the inbox grows by the event exactly when the message is neither rolled back nor a duplicate |
| ScrapeResults.MessageIsPrepared | internal/worker/scrape_results.go:124-146 | a message is accepted if its envelope is valid and its content, when it is left to an artifact, can be read |
| ScrapeResults.MessageIsHandled | internal/worker/scrape_results.go:147-264 | it is applied against the job it names and its live document; refused or rolled back it changes nothing and is not deleted |
| Effects.ResultIsJudged | internal/worker/scrape_results.go:160-250 | what the transaction decides, on the columns of the tables and the fields of the message |
| Effects.AcceptedResult | internal/worker/scrape_results.go:124-155 | what an envelope must be, and which job it matches |
| Effects.ResultIsWritten | internal/worker/scrape_results.go:204-256 | the version row of an applied result has its two keys and its content; if it was read as current, the document has content and size and is ENRICH_PENDING, and its enrichment job is queued; a deleted document's cleanup starts over; the job has succeeded; nothing else changes |
| Effects.FailureIsWritten | internal/worker/scrape_results.go:187-203 | a failed result rejects the document if it is live at that version, and fails the job unless it is finished |
| Enrichment.Processor.ProcessBatch | internal/enrichment/processor.go:47-85 | the loop attempts every claimed job, in order, from the state after the claim |
| Enrichment.Processor.Attempt | internal/enrichment/processor.go:52-83 | a job that fails, or whose commit reports an error, is marked FAILED and its document rejected, on what has been committed |
| Enrichment.Processor.Process | internal/enrichment/processor.go:87-132 | outdated and deleted documents complete the job, missing content or an error fails it, else the transaction runs |
| Enrichment.Processor.Commit | internal/enrichment/processor.go:133-223 | the statements, chunk loop included, commit exactly CommitEnrichment, with or without saying so, or roll back |
| Enrichment.Processor.StoreChunks | internal/enrichment/processor.go:154-174 | delete and insert leave exactly the new chunks of the version |
| Enrichment.RowsWritten | internal/enrichment/processor.go:139-222 | the ENRICH_PROCESSING mark in between is overwritten in the same transaction |
| Enrichment.AttemptEnriches | internal/enrichment/processor.go:108-223 | the text is that of the version row, else of the document row, else the extractor's; both rows end with it and the summary, the document completed, the version's chunks those of the text, the job succeeded; unless the commit is confirmed, the document is rejected on top of that |
| Enrichment.AttemptFails | internal/enrichment/processor.go:52-130 | without a text, a summary, an open job or a commit, the job fails, the document is rejected and nothing else is written |
| Enrichment.TextExists | internal/enrichment/processor.go:108-121 | one of the two is the case: there is a text if the version row has one, or has none and the document row has one, or the extractor returns one |
| Enrichment.AttemptIsOutdated | internal/enrichment/processor.go:95-107 | a job whose version is not shown is completed and no document changes |
| Enrichment.BatchSettles | internal/enrichment/processor.go:47-85 | whatever the answers, every claimed job of a batch has succeeded or failed afterwards, and no other job changes |
| Effects.ChunksAreReplaced | internal/dbgen/jobs.sql.go:408-411 | the version has exactly the new chunks, numbered from 0, and every other version those it had |
| Cleanup.ArtifactCleanupProcessor.Process | internal/worker/artifact_cleanup.go:70-103 | on success the object of every non-empty raw or content key of the document's version rows was deleted, each once and nothing else, from the artifact bucket for a webpage and the document bucket otherwise, and the job completed; it fails exactly if a deletion has failed or the job is neither PROCESSING nor SUCCEEDED, and the job is left |
| Cleanup.ArtifactCleanupProcessor.ProcessBatch | internal/worker/artifact_cleanup.go:43-68 | each claimed job is completed with all its objects deleted, or failed since a deletion of one of them has failed |
| Cleanup.ClaimedAreSettled | internal/worker/artifact_cleanup.go:43-68 | a claimed cleanup that is done has succeeded, one that is not has failed, and no other changes |
| Effects.ObjectsAreThose | internal/dbgen/documents.sql.go:671-683 | the objects of a document are those of the two keys of each of its version rows |
| Cleanup.ObjectStore.DeleteObject | internal/worker/artifact_cleanup.go:89-95 | a deletion that reports an error may have been carried out |
| Refinement.DispatchedBySteps | internal/worker/outbox.go:65-106 | the dispatcher's loop body is a path of protocol steps |
| Refinement.HandledBySteps | internal/worker/scrape_results.go:124-264 | so is handling any message, refused before the transaction or not |
| Refinement.AttemptedBySteps | internal/enrichment/processor.go:52-83 | so is the attempt of a job |
| Refinement.CleanedBySteps | internal/worker/artifact_cleanup.go:70-103 | and so is cleaning up one document, whichever deletions succeed |
| RequestSteps.RequestIsStep | internal/library/service.go:35-221 | every request that creates a version is one protocol step, committed or refused |
| RequestSteps.UploadIsStep | internal/filestore/service.go:95-99 | so is the upload of a file, whose request sees an error exactly if it is rolled back or not answered |
| RequestSteps.CrashesAreSteps | cmd/worker/main.go:52-71 | every worker may stop at any moment and start again |
| RequestSteps.FailuresAreSteps | internal/enrichment/processor.go:52-83 | an error of the enrichment loop, and the rejection after it, whether or not they are stored |
| RequestSteps.SendIsStep | internal/worker/outbox.go:83-105 | a send may reach the queue or not and say so or not |
| Library.Service.CreateVersionAndJob | internal/library/service.go:187-221 | version, job and outbox event of a document row, or an error |
| Library.Service.CreateMemo | internal/library/service.go:35-63 | the rows of a new memo under the account lock, or nothing |
| Library.Service.CreateWebpage | internal/library/service.go:65-101 | document, version, SCRAPE job and outbox event together, or nothing |
| Library.Service.UpdateMemo | internal/library/service.go:112-145 | the next version of an owned live memo, or nothing |
| Library.Service.UpdateWebpage | internal/library/service.go:147-185 | the next version of an owned live webpage with its request, or nothing |
| Library.Service.Delete | internal/library/service.go:342-376 | soft deletion and its cleanup job together, or nothing |
| Effects.MemoIsCreated | internal/library/service.go:35-63 | exactly when a memo is created, and its document, version and job rows |
| Effects.MemoIsUpdated | internal/library/service.go:112-145 | exactly when a memo is edited; the next version has the trimmed input as its content |
| Effects.PageIsCreated | internal/library/service.go:65-101 | exactly when a webpage is created, with its job and the event of its scrape request |
| Effects.PageIsRefreshed | internal/library/service.go:147-185 | exactly when a webpage is refreshed; the next version starts with the content shown |
| Effects.DocumentIsDeleted | internal/library/service.go:342-376 | exactly when a document is deleted, and its cleanup |
| Identity.Service.Withdraw | internal/identity/service.go:191-221 | the challenge is consumed, account and documents deleted and every cleanup queued, all or nothing |
| Identity.Service.DeleteAccount | internal/identity/service.go:200-215 | account, documents and cleanup rows of the withdrawal |
| Effects.AccountIsWithdrawn | internal/identity/service.go:200-215 | every document of the account is deleted with a queued cleanup, and no other row changes |
| Filestore.Service.Persist | internal/filestore/service.go:167-249 | all files are recorded if the account is active and they fit its limit, else none |
| Filestore.Service.PersistFile | internal/filestore/service.go:193-243 | one file: document, version, artifact key and job |
| Filestore.UploadStaysWithinLimit | internal/filestore/service.go:181-191 | after an upload the live documents of the account are within its limit |
| Filestore.UploadsAddUp | internal/filestore/service.go:185-191 | the usage after an upload is the usage before and the sizes added |
| Filestore.FitsExactly | internal/filestore/service.go:181-191 | an upload fits if the account is active and live sizes and files together are at most 1 GiB, 10 GiB for a paying user, 1 TiB for an administrator |
| Filestore.FilesAreRecorded | internal/filestore/service.go:192-245 | every file has its live document, its version with the key and its job, and no document that was there changes |
| Filestore.DeletionFreesSpace | internal/dbgen/accounts.sql.go:167-171 | a deletion gives the size of the document back to its owner alone |
| Storage.LimitByAccount | internal/filestore/service.go:320-328 | the limit by role and plan |
| Storage.GetStorageUsage | internal/dbgen/accounts.sql.go:167-171 | the sum over the live documents of the owner, in any order |
| Chunker.ChunkText | internal/enrichment/chunker.go:10-43 | the nested loops compute Chunks, end because every window ends past its start by more than the overlap, and never reach the clamp |
| Chunker.FindEnd | internal/enrichment/chunker.go:18-29 | the back-search finds the window end |
| Chunker.WindowEnd | internal/enrichment/chunker.go:18-29 | a window is not empty, has at most 1200 runes and more than 600 unless it is the last |
| Chunker.WindowIsCut | internal/enrichment/chunker.go:18-29 | a window of 1200 runes is cut after the last line feed, full stop or ideographic full stop of its second half, if there is one |
| Chunker.ChunksAreWindows | internal/enrichment/chunker.go:10-43 | the chunks are the trimmed windows that are not blank, all of them and in order |
| Text.TrimExactly | internal/enrichment/chunker.go:11 | trimming leaves the slice between the first and the last rune that is not one of the 25 white-space code points |
| Chunker.LastBreakIsGreatest | internal/enrichment/chunker.go:22-28 | it ends at the last sentence break in its second half, or is full |
| Chunker.KeptHasWindow | internal/enrichment/chunker.go:30-33 | no window that is not blank goes missing from the chunks |
| Chunker.WindowsAreCut | internal/enrichment/chunker.go:17-41 | each window starts 180 runes before the end of the one before, the last reaches the end |
| Chunker.WindowCount | internal/enrichment/chunker.go:37-40 | the start grows by at least 421 runes a turn |
| Chunker.ChunkCount | internal/enrichment/chunker.go:17-41 | an input of n > 1200 runes yields at most 1 + (n - 181) / 421 chunks |
| Chunker.ChunkBounds | internal/enrichment/chunker.go:30-33 | every chunk has 1 to 1200 runes and no outer space; there is a chunk exactly if the input is not blank |
| Chunker.WindowsReassemble | internal/enrichment/chunker.go:17-41 | the windows, each after the first without its first 180 runes, concatenate to the trimmed input |
| Chunker.PhraseInOneChunk | internal/enrichment/chunker.go:10-43 | every phrase of at most 181 runes that starts and ends with a non-space lies whole in one chunk |
| RankFusion.AddRanks | internal/retrieval/service.go:116-122 | the loop adds exactly the contribution of a list to every document it names |
| RankFusion.Entries | internal/retrieval/service.go:123-126 | the entries of the map, each once, in any iteration order |
| RankFusion.SortSlice | internal/retrieval/service.go:127-132 | some sorted order of the same elements |
| RankFusion.FuseRanks | internal/retrieval/service.go:115-141 | without repetition, sorted by score and identifier, min(limit, size of the union) long, and no omitted document would come before a returned one |
| RankFusion.FusionIsUnique | internal/retrieval/service.go:123-140 | so the answer is the same for every iteration order and every correct sort |
| RankFusion.FusionIsOrdered | internal/retrieval/service.go:123-141 | by falling score, then by rising identifier, as many as asked for or all, and nothing better left out |
| RankFusion.ScoreByRanks | internal/retrieval/service.go:115-122 | ranks i and j counted from 0 score 1 / (61 + i) + 1 / (61 + j), and a list that does not name the document adds nothing |
| RankFusion.AgreementWins | internal/retrieval/service.go:19-22 | a document in both lists comes before every document in one, for lists of up to 61 candidates; the limit is 50 |
| RankFusion.AgreementWinsInSearch | internal/retrieval/service.go:61-107 | for the candidates the search asks for, a returned document of only one list is preceded by every document of both |
| RankFusion.AgreementCanTie | internal/retrieval/service.go:19-22 | at 62 candidates it can be a tie |
| RankFusion.Dominates | internal/retrieval/service.go:115-141 | a document ranked sooner in every list that names another comes before it in the answer |
| RankFusion.ContributionAt | internal/retrieval/service.go:117-122 | a list without repetition adds one weight for a document, that of its rank |
| RankFusion.Collect | internal/retrieval/service.go:85-105 | the dedup loop keeps each document at its first hit and the first 12 chunks |
| RankFusion.FirstHitsAreDistinct | internal/retrieval/service.go:100-104 | the deduplicated list names every hit document once |
| RankFusion.FirstHitsInOrder | internal/retrieval/service.go:100-104 | in the order of first hits |
| RankFusion.Search | internal/retrieval/service.go:46-108 | refuses long queries, answers blank ones with nothing, clamps the limit to 1..20 and fuses the candidates |
| Pagination.BoundedLimit | internal/library/service.go:697-705 | 1 to 20 |
| Pagination.CursorRoundTrip | internal/library/cursor.go:16-41 | the cursor of a page decodes to its last document; other versions and the nil identifier are refused |
| Pagination.Falling | internal/dbgen/documents.sql.go:751-766 | across all pages of a traversal documents come in strictly falling (created_at, id) order, whatever happens between the pages |
| Pagination.PageShows | internal/dbgen/documents.sql.go:751-766 | live documents of the owner after the cursor's row, newest first, then by falling identifier, none left out before one that is shown |
| Pagination.NeverTwice | internal/dbgen/documents.sql.go:751-766 | no document is returned twice |
| Pagination.NothingMissed | internal/library/service.go:238-251 | followed to the empty page, a traversal returns every document listed throughout, as long as the last cursor's row is there, deleted or not |
| Pagination.CompleteExactly | internal/dbgen/documents.sql.go:755-763 | exactly when that row is there or nothing listed throughout comes after it |
| Pagination.EndsEarly | internal/dbgen/documents.sql.go:755-763 | a traversal that misses a document listed all the time, because the row of its cursor was hard-deleted |
| Pagination.StaticPages | internal/library/service.go:238-251 | in a static state the pages hold exactly the live documents of the owner |
| Pagination.PageExists | internal/dbgen/documents.sql.go:751-766 | every request has an answer of the promised form |
| Challenges.ChallengeTable.IncrementChallengeAttempt | internal/dbgen/challenges.sql.go:214-223 | counts an attempt exactly if the challenge is open, not expired and below its maximum |
| Challenges.ChallengeTable.MarkChallengeVerified | internal/dbgen/challenges.sql.go:243-251 | verifies an open challenge once |
| Challenges.ChallengeTable.ConsumeChallenge | internal/dbgen/challenges.sql.go:15-22 | consumes a verified challenge once |
| Challenges.ChallengeTable.VerifyCode | internal/identity/service.go:405-440 | a token exactly for an open, unexpired challenge below its maximum whose code, email and purpose are those given; a wrong code costs one attempt and nothing else |
| Challenges.ChallengeLifecycle | internal/identity/service.go:106-270 | over every interleaving of the statements of verify and complete calls, with lost answers and crashes: at most five comparisons, at most one verification, at most one token and only if verified, and as many consumptions as effects, one at most and only if verified; all for the email and purpose of the challenge |
| Challenges.VerifiedByCode | internal/identity/service.go:405-440 | over every run a verification has been marked by a request that had compared the very code, email and purpose the challenge was created with, before it expired |
| Challenges.RightCodeVerifies | internal/identity/service.go:405-440 | the right code of an open challenge gives a token in three statements that change nothing else |
| Challenges.WrongCodeCosts | internal/identity/service.go:421-428 | a wrong one costs one attempt, if one is left, and nothing else |
| Challenges.VerifiedCompletes | internal/identity/service.go:119-215 | a request that has found a verified challenge consumes it with its effect, and a withdrawal deletes every challenge of its email |
| Challenges.ConsumedOnceVerified | internal/identity/service.go:119-147 | the step that consumes a challenge is the transaction of a request, for the email and purpose for which the challenge had been verified, once, and not consumed before |
| Challenges.EffectWithoutToken | internal/identity/service.go:429-491 | a run in which a challenge is consumed although no token was ever issued for it |
| Challenges.NextKeeps | internal/identity/service.go:405-492 | each statement of each call keeps the counts |
| AccountLock.AccountIsConsistent | internal/filestore/service.go:167-191 | under every interleaving of the statements of uploads, creates, deletions and withdrawals: live files and images within the limit, deleted exactly with a cleanup job, no live document of a withdrawn account |
| AccountLock.UploadGoesThrough | internal/filestore/service.go:167-249 | undisturbed, an upload that fits adds all its files and one that does not adds nothing |
| AccountLock.CreateGoesThrough | internal/library/service.go:35-101 | undisturbed, a memo or a webpage is created without a check of the quota |
| AccountLock.DeletionGoesThrough | internal/library/service.go:342-376 | undisturbed, a deletion deletes its document and queues its cleanup |
| AccountLock.WithdrawalGoesThrough | internal/identity/service.go:191-221 | undisturbed, a withdrawal deletes the account and all its documents with a cleanup for each |
| AccountLock.CheckUsageKeeps | internal/filestore/service.go:181-191 | the usage read under the lock stays an upper bound for files and images until commit |
| AccountLock.InsertKeeps | internal/filestore/service.go:192-245 | committing what was checked stays within the limit |
| AccountLock.WithdrawKeeps | internal/identity/service.go:200-210 | a withdrawal that commits leaves no live document and every document with a cleanup job |
| AccountLock.DeleteKeeps | internal/library/service.go:349-362 | a deletion that commits does not disturb a withdrawal or an upload in progress |
| Collections.ParseDocumentIDs | internal/library/service.go:715-730 | the identifiers in order of first appearance, or an error |
| Collections.ParsedIsDistinct | internal/library/service.go:715-730 | each identifier of the input once |
| Collections.ParsedInOrder | internal/library/service.go:715-730 | in the order in which they are first named |
| Collections.UpdatableExactly | internal/library/service.go:528-588 | what an update may do, on its inputs and the tables |
| Collections.CommittedExactly | internal/library/service.go:366-368 | a removal of another transaction takes the rows of its document, a withdrawal deletes documents and no rows |
| Collections.ExecutedExactly | internal/dbgen/taxonomy.sql.go:15-25 | an insert adds the row of a document that was live and the owner's when it began, if the row is not there when it ends; a deletion takes the row of a document of the owner |
| Collections.CountCheck | internal/library/service.go:732-752 | the count check passes exactly for lists without repetition of owned live identifiers |
| Collections.ChangeCheck | internal/library/service.go:569-572 | over both lists together it also says that nothing is added and removed at once |
| Collections.Store.UpdateCollection | internal/library/service.go:528-613 | succeeds exactly if the collection exists, the lists are valid and the name is free, and then commits exactly Outcome, for anything that others commit before and during each statement; one that fails changes nothing |
| Collections.Store.ChangeMembers | internal/library/service.go:589-608 | the two loops, with the deletions of others before and during their statements, compute Outcome |
| Collections.AddedExactly | internal/dbgen/taxonomy.sql.go:15-25 | an added document that was no member becomes one if and only if no deletion or withdrawal that commits before its insert begins hits it |
| Collections.StaysExactly | internal/library/service.go:366-368 | a member that is not removed stays one, here and in every other collection, if and only if the first of the deletions to hit its document is not a removal, or is one that its own insert waits for |
| Collections.NotAdded | internal/dbgen/taxonomy.sql.go:303-312 | a removed document is no member, and no other becomes one |
| Collections.CompleteExactly | internal/library/service.go:589-608 | the members are (old + added) - removed if and only if no new document is hit before its insert begins and a member that is to stay is dropped at most while its insert waits |
| Collections.Races | internal/dbgen/taxonomy.sql.go:15-25 | removed before its insert begins a document is left out, member or not; removed before the insert ends it is a member although it is deleted, even if it was one and its row was deleted |
| Collections.ValidIsChecked | internal/library/service.go:569-572 | the check of the update gives what these results need |
| Collections.Store.AddDocumentToCollection | internal/dbgen/taxonomy.sql.go:15-25 | adds only a document that was owned and live when it began, to an owned collection; a row that is deleted while it waits is inserted again |
| Collections.Store.RemoveOwnedDocumentFromCollection | internal/dbgen/taxonomy.sql.go:303-312 | removes only an owned document from an owned collection |
| Tables.Database.LockActiveAccount | internal/dbgen/accounts.sql.go:204-208 | found exactly if active |
| Tables.Database.CompleteScrape | internal/dbgen/documents.sql.go:219-230 | content, size and status of the live current version; negative size is an error |
| Tables.Database.RejectScrape | internal/dbgen/documents.sql.go:1014-1020 | only a live document at that version |
| Tables.Database.RejectEnrichment | internal/dbgen/documents.sql.go:993-999 | only a live document at that version, whatever its status |
| Tables.Database.MarkDocumentProcessing | internal/dbgen/documents.sql.go:972-978 | pending or rejected at that version, deleted or not |
| Tables.Database.SaveExtractedContent | internal/dbgen/documents.sql.go:1054-1070 | the version row, and the document if still live at that version, which alone is counted |
| Tables.Database.RequeueArtifactCleanupJob | internal/dbgen/documents.sql.go:1035-1044 | resets the cleanup row, if there is one |
| Tables.Database.CompleteArtifactCleanupJob | internal/dbgen/documents.sql.go:117-121 | only from PROCESSING or SUCCEEDED |
| Tables.Database.ListDocumentArtifactKeys | internal/dbgen/documents.sql.go:671-683 | the raw and the content key of every version row of the document that are not NULL, each with its type, and nothing else |
| Tables.Database.CreateIngestionJob | internal/dbgen/jobs.sql.go:191-199 | leaves the row of the same document, version and type alone |
| Tables.Database.CompleteJob | internal/dbgen/jobs.sql.go:142-146 | only from QUEUED, PROCESSING or SUCCEEDED |
| Tables.Database.MarkOutboxPublished | internal/dbgen/jobs.sql.go:370-374 | only under the token, once |
| Tables.Database.RegisterInboxEvent | internal/dbgen/jobs.sql.go:389-394 | inserts exactly if the event is new |
| Tables.Database.ClaimOutboxEvents | internal/dbgen/jobs.sql.go:75-91 | as many of the due rows as the limit allows, each once, unpublished and not dead-lettered; each carries the token |
| Tables.Database.ClaimEnrichmentJobs | internal/dbgen/jobs.sql.go:17-39 | as many of the due rows as the limit allows, each once, claimable; each PROCESSING with one more attempt |
| Tables.Database.ClaimArtifactCleanupJobs | internal/dbgen/documents.sql.go:64-84 | as many of the due rows as the limit allows, each once, claimable; each PROCESSING with one more attempt |
| Tables.Database.HardDeleteCleanedDocuments | internal/dbgen/maintenance.sql.go:66-72 | removes exactly the aged documents with a finished cleanup, with all their rows |
| Tables.Database.HardDeleteWithdrawnAccount | internal/dbgen/maintenance.sql.go:82-92 | removes a withdrawn account exactly if every document of it has a finished cleanup |
| Effects.DocumentsAreRemoved | internal/dbgen/maintenance.sql.go:66-72 | which documents may be removed, and that every row that refers to one goes with it, save outbox and inbox |
| Effects.AccountIsRemoved | internal/dbgen/maintenance.sql.go:82-92 | when a withdrawn account may be removed, and with it its documents |
| Effects.ClaimableJobs | internal/dbgen/jobs.sql.go:17-39 | five claims for an enrichment job and ten for a cleanup, unless it has succeeded |
| Effects.JobsAreClaimed | internal/dbgen/jobs.sql.go:17-39 | a claimed job or cleanup is PROCESSING with one more attempt, and no other row changes |

## Left out

- Results with another eventId for a finished job: the code promises nothing more there.
- FileGoneExactly: an object that a failed upload leaves stored without a row is not followed; nothing deletes it.
- FuseRanks: scores are exact reals; two documents whose exact scores are equal may differ in the last bit of a float64.
- AccountIsConsistent: webpage sizes, which scraping sets after the quota check, count in the usage that is read but not in the bound; role and plan do not change.
- CursorRoundTrip: base64 and JSON are abstracted to the token they carry.
- Commit: the tags that the transaction of process replaces are not modelled; they do not influence documents, versions, chunks or jobs.
- Delete: nor are the tag and collection rows that it removes; `Collections` has the latter.
- Withdraw: the revocation of refresh tokens is not modelled.
- UpdateCollection: a collection that is renamed between the read of its row and the update by name is not modelled, nor are concurrent changes of its members other than by deletions.
- ClaimOutboxEvents: which rows are due and not locked is a parameter; lease times and the order by created_at are left out.
- ClaimEnrichmentJobs: the same.
- ClaimArtifactCleanupJobs: the same.
- HardDeleteCleanedDocuments: the age of 30 days is a parameter.
- HardDeleteWithdrawnAccount: one account at a time, where the statement removes all that qualify.
- Titles, thumbnails, content hashes, media types, timestamps and error texts: no guard tests them.
- Tags and collection rows inside the ingestion transactions: they do not influence documents, versions, jobs or artifacts.
- Several files in one upload inside `Protocol`: `Filestore` and `AccountLock` have them, the protocol takes one file a step.
- Results of overlapping workers on the same enrichment or cleanup job: the code promises nothing more there.
- Bounds on artifact and message sizes, UTF-8 checks and JSON decoding: a message decodes or it does not.
- PostgreSQL full-text ranking, trigram similarity and vector search: arbitrary candidate lists.
- AI providers, PDF extraction, presigned URLs, mail delivery, password hashing and token signatures: arbitrary answers, or abstract values.
- Code and token lifetimes other than a challenge's expiry, and the hourly limit on code requests.
- Login, refresh-token rotation, profiles: only a serial claim would be available.
- HTTP handlers, configuration, migrations and the legacy import.
