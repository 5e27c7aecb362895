/** What each transaction writes, row by row and column by column: every other row and column is as before. */
module Effects {
  import opened Schema
  import opened Transactions
  import Text
  import Chunker

  // ----- requests -----

  /** The rows of a new version: its job is there already if the unique index has one, and then stays as it is. */
  ghost predicate VersionRows(db: Db, t: Db, d: Uuid, row: Document, version: Version, job: Uuid, kind: JobKind) {
    var v := row.currentVersion;
    && t.documents == db.documents[d := row] && t.versions == db.versions[VersionKey(d, v) := version]
    && (if JobKey(d, v, kind) in db.jobIndex then t.jobs == db.jobs && t.jobIndex == db.jobIndex
        else
          && t.jobs == db.jobs[job := Job(JobKey(d, v, kind), Queued, 0)]
          && t.jobIndex == db.jobIndex[JobKey(d, v, kind) := job])
    && t.accounts == db.accounts && t.inbox == db.inbox && t.chunks == db.chunks && t.cleanup == db.cleanup
  }

  /** No row is in the way of a new version and its job. */
  predicate Insertable(db: Db, d: Uuid, v: nat, job: Uuid, kind: JobKind) {
    VersionKey(d, v) !in db.versions && (JobKey(d, v, kind) in db.jobIndex || job !in db.jobs)
  }

  /** The text of a memo is its input without outer space, not blank and at most 5 MiB of UTF-8. */
  predicate IsMemo(text: string) { text != "" && Text.ByteLength(text) <= 5242880 }

  lemma MemoIsCreated(db: Db, owner: Uuid, d: Uuid, job: Uuid, raw: string)
    ensures var text, after := Text.Trim(raw), Begin(db, CreateMemo(db, owner, d, job, raw));
            && (after.Some? <==>
                && IsMemo(text) && owner in db.accounts && !db.accounts[owner].deleted
                && d !in db.documents && Insertable(db, d, 1, job, Enrich))
            && (after.Some? ==>
                  && VersionRows(db, after.value, d, Document(owner, Memo, "", text, "", EnrichPending, 1, 0, false),
                                 Version("", "", text, ""), job, Enrich)
                  && after.value.outbox == db.outbox)
  {
  }

  /** An edit is the next version of a live memo of the owner: the trimmed text is the content of both rows,
      and the summary stays until the new one is there. */
  lemma MemoIsUpdated(db: Db, owner: Uuid, d: Uuid, job: Uuid, raw: string)
    ensures var text, after := Text.Trim(raw), Begin(db, UpdateMemo(db, owner, d, job, raw));
            && (after.Some? <==>
                && IsMemo(text) && d in db.documents
                && var row := db.documents[d];
                   && !row.deleted && row.owner == owner && row.kind == Memo
                   && Insertable(db, d, row.currentVersion + 1, job, Enrich))
            && (after.Some? ==>
                  var row := db.documents[d];
                  && VersionRows(db, after.value, d,
                                 Document(owner, Memo, row.sourceUrl, text, row.summary, EnrichPending,
                                          row.currentVersion + 1, row.fileSize, false),
                                 Version("", "", text, ""), job, Enrich)
                  && after.value.outbox == db.outbox)
  {
  }

  /** The event of a scrape request, as docs/events.md has it. */
  function RequestEvent(d: Uuid, v: nat, job: Uuid, event: Uuid, url: string): OutboxEvent {
    OutboxEvent("document.scrape.requested.v1", d,
                RequestEnvelope("1.0", event, "document.scrape.requested.v1", ScrapeRequest(job, d, v, url)),
                0, None, false, false)
  }

  lemma PageIsCreated(db: Db, owner: Uuid, d: Uuid, job: Uuid, event: Uuid, url: string)
    ensures var after := Begin(db, CreateWebpage(db, owner, d, job, event, url));
            && (after.Some? <==>
                && url != "" && owner in db.accounts && !db.accounts[owner].deleted
                && d !in db.documents && Insertable(db, d, 1, job, Scrape) && event !in db.outbox)
            && (after.Some? ==>
                  && VersionRows(db, after.value, d, Document(owner, Webpage, url, "", "", ScrapePending, 1, 0, false),
                                 Version("", "", "", ""), job, Scrape)
                  && after.value.outbox == db.outbox[event := RequestEvent(d, 1, job, event, url)])
  {
  }

  /** A refresh is the next version of a live webpage of the owner. Its row starts with the content shown. */
  lemma PageIsRefreshed(db: Db, owner: Uuid, d: Uuid, job: Uuid, event: Uuid, url: string)
    ensures var after := Begin(db, UpdateWebpage(db, owner, d, job, event, url));
            && (after.Some? <==>
                && url != "" && d in db.documents
                && var row := db.documents[d];
                   && !row.deleted && row.owner == owner && row.kind == Webpage
                   && Insertable(db, d, row.currentVersion + 1, job, Scrape) && event !in db.outbox)
            && (after.Some? ==>
                  var row := db.documents[d];
                  && VersionRows(db, after.value, d,
                                 Document(owner, Webpage, url, row.content, row.summary, ScrapePending,
                                          row.currentVersion + 1, row.fileSize, false),
                                 Version("", "", row.content, ""), job, Scrape)
                  && after.value.outbox == db.outbox[event := RequestEvent(d, row.currentVersion + 1, job, event, url)])
  {
  }

  lemma FileIsRecorded(db: Db, owner: Uuid, file: Upload)
    requires file.kind == Image || file.kind == File
    ensures var d, after := file.document, Begin(db, PersistFile(db, owner, file));
            && (after.Some? <==>
                && owner in db.accounts && !db.accounts[owner].deleted
                && d !in db.documents && Insertable(db, d, 1, file.job, Enrich))
            && (after.Some? ==>
                  && VersionRows(db, after.value, d,
                                 Document(owner, file.kind, "", file.content, "", EnrichPending, 1, file.size, false),
                                 Version(file.key, "", file.content, ""), file.job, Enrich)
                  && after.value.outbox == db.outbox)
  {
  }

  lemma DocumentIsDeleted(db: Db, owner: Uuid, d: Uuid)
    ensures Delete(db, owner, d).Some? <==> d in db.documents && !db.documents[d].deleted && db.documents[d].owner == owner
    ensures Delete(db, owner, d).Some? ==>
              Delete(db, owner, d).value == db.(
              documents := db.documents[d := db.documents[d].(deleted := true)],
              cleanup := if d in db.cleanup then db.cleanup else db.cleanup[d := CleanupJob(Queued, 0)])
  {
  }

  /** All documents of the account are deleted and have a cleanup that starts over; no others change. */
  lemma AccountIsWithdrawn(db: Db, a: Uuid)
    ensures Withdraw(db, a).Some? <==> a in db.accounts && !db.accounts[a].deleted
    ensures Withdraw(db, a).Some? ==>
              var t := Withdraw(db, a).value;
              && t == db.(accounts := db.accounts[a := db.accounts[a].(deleted := true)],
                          documents := t.documents, cleanup := t.cleanup)
              && t.documents.Keys == db.documents.Keys
              && (forall d :: d in db.documents ==>
                    if db.documents[d].owner == a
                    then t.documents[d] == db.documents[d].(deleted := true)
                         && d in t.cleanup && t.cleanup[d] == CleanupJob(Queued, 0)
                    else t.documents[d] == db.documents[d])
              && (forall d :: d !in db.documents || db.documents[d].owner != a ==>
                    (d in t.cleanup <==> d in db.cleanup) && (d in db.cleanup ==> t.cleanup[d] == db.cleanup[d]))
  {
  }

  // ----- the outbox -----

  /** The mark commits exactly under the token. The job of the payload is then being scraped if it was queued or
      had failed, and so is the document if it waits or was rejected at that version. */
  lemma PublishIsWritten(db: Db, e: Uuid, token: Uuid, request: ScrapeRequest)
    ensures MarkPublished(db, e, token, request).Some? <==>
            e in db.outbox && db.outbox[e].lock == Some(token) && !db.outbox[e].published
    ensures MarkPublished(db, e, token, request).Some? ==>
              var t, j, d := MarkPublished(db, e, token, request).value, request.job, request.document;
              && t == db.(outbox := db.outbox[e := db.outbox[e].(published := true)], jobs := t.jobs, documents := t.documents)
              && t.jobs == (if j in db.jobs && (db.jobs[j].state == Queued || db.jobs[j].state == Failed)
                            then db.jobs[j := Job(db.jobs[j].key, Processing, db.jobs[j].attempts + 1)] else db.jobs)
              && t.documents == (if d in db.documents && db.documents[d].currentVersion == request.version
                                    && (db.documents[d].status == ScrapePending || db.documents[d].status == ScrapeRejected)
                                 then db.documents[d := db.documents[d].(status := ScrapeProcessing)] else db.documents)
  {
  }

  /** A failed send gives the event back with one more attempt, the tenth time for good. */
  lemma FailedSendIsWritten(db: Db, e: Uuid, token: Uuid, attemptsRead: nat)
    ensures SendFailed(db, e, token, attemptsRead) ==
            if e in db.outbox && db.outbox[e].lock == Some(token) && !db.outbox[e].published
            then db.(outbox := db.outbox[e := db.outbox[e].(attempts := db.outbox[e].attempts + 1, lock := None,
                                                            deadLettered := db.outbox[e].deadLettered || attemptsRead >= 9)])
            else db
  {
  }

  lemma DeadLetterIsWritten(db: Db, e: Uuid, token: Uuid)
    ensures DeadLetter(db, e, token) ==
            if e in db.outbox && db.outbox[e].lock == Some(token) && !db.outbox[e].published
            then db.(outbox := db.outbox[e := db.outbox[e].(attempts := db.outbox[e].attempts + 1, lock := None,
                                                            deadLettered := true)])
            else db
  {
  }

  lemma EventsAreClaimed(db: Db, token: Uuid, picked: set<Uuid>)
    ensures var t := ClaimEvents(db, token, picked);
            && t == db.(outbox := t.outbox) && t.outbox.Keys == db.outbox.Keys
            && forall e :: e in db.outbox ==>
                 t.outbox[e] == if e in picked then db.outbox[e].(lock := Some(token)) else db.outbox[e]
  {
  }

  lemma ClaimableEvent(row: OutboxEvent)
    ensures Claimable(row) <==> !row.published && !row.deadLettered
  {
  }

  /** What a payload must be to be sent. */
  lemma SendableEvent(e: Uuid, row: OutboxEvent)
    ensures ValidRequest(e, row) <==>
            && row.eventType == row.payload.eventType == "document.scrape.requested.v1"
            && row.payload.schemaVersion == "1.0" && row.payload.eventId == e
            && row.payload.data.job != 0 && row.payload.data.document == row.aggregate
            && row.payload.data.version > 0 && row.payload.data.url != ""
  {
  }

  // ----- results -----

  /** The checks of a message that need no database, and its match with its job. */
  lemma AcceptedResult(m: ScrapeResult, job: Job)
    ensures ValidEnvelope(m) <==>
            && m.schemaVersion == "1.0" && m.eventId != 0 && m.job != 0 && m.document != 0 && m.version >= 1
            && m.eventType in {"document.scrape.completed.v1", "document.scrape.failed.v1"}
    ensures MatchesJob(m, job) <==> job.key.kind == Scrape && job.key.document == m.document && job.key.version == m.version
  {
  }

  /** The document was read live, at the version of the result. */
  predicate ReadCurrent(m: ScrapeResult, found: Option<Document>) {
    found.Some? && found.value.currentVersion == m.version
  }

  /** Nothing is in the way of a completed result. */
  predicate Acceptable(db: Db, m: ScrapeResult, found: Option<Document>, enrichJob: Uuid)
    requires m.version > 0
  {
    && m.content != "" && VersionKey(m.document, m.version) in db.versions
    && (ReadCurrent(m, found) ==>
          && m.document in db.documents && !db.documents[m.document].deleted
          && db.documents[m.document].currentVersion == m.version && m.fileSize >= 0
          && (JobKey(m.document, m.version, Enrich) in db.jobIndex || enrichJob !in db.jobs))
    && (found.None? ==> m.document in db.cleanup)
  }

  lemma ResultIsJudged(db: Db, m: ScrapeResult, job: Job, found: Option<Document>, enrichJob: Uuid)
    requires m.version > 0
    ensures Judge(db, m, job, found, enrichJob) ==
            if m.eventId in db.inbox then Duplicate
            else if m.eventType == "document.scrape.failed.v1" then if job.state == Failed then Terminal else AppliedFailure
            else if m.eventType == "document.scrape.completed.v1" && job.state == Succeeded then Terminal
            else if Acceptable(db, m, found, enrichJob) then AppliedSuccess else RolledBack
  {
    assert SCRAPE_FAILED != SCRAPE_COMPLETED;
  }

  lemma JobIsCompleted(jobs: map<Uuid, Job>, j: Uuid)
    ensures Completable(jobs, j) <==>
            j in jobs && (jobs[j].state == Queued || jobs[j].state == Processing || jobs[j].state == Succeeded)
    ensures CompleteJob(jobs, j) ==
            if j in jobs && (jobs[j].state == Queued || jobs[j].state == Processing || jobs[j].state == Succeeded)
            then jobs[j := Job(jobs[j].key, Succeeded, jobs[j].attempts)] else jobs
    ensures FailJob(jobs, j) ==
            if j in jobs && (jobs[j].state == Queued || jobs[j].state == Processing)
            then jobs[j := Job(jobs[j].key, Failed, jobs[j].attempts)] else jobs
  {
  }

  /** The rows of a result read as current: its version, its document, its own job and that of the enrichment. */
  lemma CurrentIsApplied(db: Db, m: ScrapeResult, found: Option<Document>, enrichJob: Uuid)
    requires m.version > 0 && ReadCurrent(m, found) && m.document in db.documents && m.fileSize >= 0
    ensures var key := JobKey(m.document, m.version, Enrich);
            var inserts := key !in db.jobIndex;
            ApplySuccess(db, m, found, enrichJob) == db.(
            versions := db.versions[VersionKey(m.document, m.version) := Version(m.rawKey, m.contentKey, m.content, "")],
            documents := db.documents[m.document := db.documents[m.document].(
                                        content := m.content, fileSize := m.fileSize, status := EnrichPending)],
            jobIndex := if inserts then db.jobIndex[key := enrichJob] else db.jobIndex,
            jobs := CompleteJob(if inserts then db.jobs[enrichJob := Job(key, Queued, 0)] else db.jobs, m.job))
  {
  }

  /** Otherwise its version and its own job, and the cleanup starts over if no live document was read. */
  lemma OldIsApplied(db: Db, m: ScrapeResult, found: Option<Document>, enrichJob: Uuid)
    requires m.version > 0 && !ReadCurrent(m, found) && (found.None? ==> m.document in db.cleanup)
    ensures ApplySuccess(db, m, found, enrichJob) == db.(
            versions := db.versions[VersionKey(m.document, m.version) := Version(m.rawKey, m.contentKey, m.content, "")],
            cleanup := if found.None? then db.cleanup[m.document := CleanupJob(Queued, 0)] else db.cleanup,
            jobs := CompleteJob(db.jobs, m.job))
  {
  }

  lemma SuccessIsApplied(db: Db, m: ScrapeResult, job: Job, found: Option<Document>, enrichJob: Uuid)
    requires m.version > 0 && Judge(db, m, job, found, enrichJob) == AppliedSuccess
    ensures ApplyResult(db, m, job, found, enrichJob) ==
            ApplySuccess(db, m, found, enrichJob).(inbox := db.inbox[m.eventId := true])
    ensures Acceptable(db, m, found, enrichJob)
  {
    ResultIsJudged(db, m, job, found, enrichJob);
    if ReadCurrent(m, found) {
      CurrentIsApplied(db, m, found, enrichJob);
    } else {
      OldIsApplied(db, m, found, enrichJob);
    }
  }

  /** The version row of an applied result has its two keys and its content, and no summary. The document shows
      the content if the result was read as current, and is then to be enriched. */
  ghost predicate ResultWritten(db: Db, m: ScrapeResult, found: Option<Document>, t: Db)
    requires m.version > 0
  {
    var k := VersionKey(m.document, m.version);
    && k in t.versions && t.versions[k].rawKey == m.rawKey && t.versions[k].contentKey == m.contentKey
    && t.versions[k].content == m.content && t.versions[k].summary == "" && t.versions - {k} == db.versions - {k}
    && t.outbox == db.outbox && t.chunks == db.chunks && t.accounts == db.accounts
    && t.cleanup == (if found.None? then db.cleanup[m.document := CleanupJob(Queued, 0)] else db.cleanup)
    && (!ReadCurrent(m, found) ==> t.documents == db.documents)
    && (ReadCurrent(m, found) ==>
          && m.document in db.documents && m.fileSize >= 0
          && t.documents == db.documents[m.document := db.documents[m.document].(
                            content := m.content, fileSize := m.fileSize, status := EnrichPending)])
  }

  /** The job of the result has succeeded, and that of the enrichment is queued if the result was current. */
  ghost predicate ResultJobs(db: Db, m: ScrapeResult, found: Option<Document>, enrichJob: Uuid, t: Db)
    requires m.version > 0
  {
    var key := JobKey(m.document, m.version, Enrich);
    var inserts := ReadCurrent(m, found) && key !in db.jobIndex;
    && t.jobIndex == (if inserts then db.jobIndex[key := enrichJob] else db.jobIndex)
    && t.jobs.Keys == db.jobs.Keys + (if inserts then {enrichJob} else {})
    && (inserts ==> t.jobs[enrichJob] == Job(key, Queued, 0))
    && forall j :: j in db.jobs && (inserts ==> j != enrichJob) ==>
         t.jobs[j] == if j == m.job && db.jobs[j].state in {Queued, Processing, Succeeded}
                      then Job(db.jobs[j].key, Succeeded, db.jobs[j].attempts) else db.jobs[j]
  }

  lemma SuccessIsWritten(db: Db, m: ScrapeResult, found: Option<Document>, enrichJob: Uuid)
    requires m.version > 0 && Acceptable(db, m, found, enrichJob) && enrichJob != m.job
    ensures var t := ApplySuccess(db, m, found, enrichJob);
            ResultWritten(db, m, found, t) && ResultJobs(db, m, found, enrichJob, t)
  {
    if ReadCurrent(m, found) {
      CurrentIsApplied(db, m, found, enrichJob);
    } else {
      OldIsApplied(db, m, found, enrichJob);
    }
  }

  lemma ResultIsWritten(db: Db, m: ScrapeResult, job: Job, found: Option<Document>, enrichJob: Uuid)
    requires m.version > 0 && Judge(db, m, job, found, enrichJob) == AppliedSuccess && enrichJob != m.job
    ensures var t := ApplyResult(db, m, job, found, enrichJob);
            && ResultWritten(db, m, found, t) && ResultJobs(db, m, found, enrichJob, t)
            && t.inbox == db.inbox[m.eventId := true]
  {
    SuccessIsApplied(db, m, job, found, enrichJob);
    SuccessIsWritten(db, m, found, enrichJob);
  }

  /** A failed result rejects the document if it is current still, and the job. */
  lemma FailureIsWritten(db: Db, m: ScrapeResult, job: Job, found: Option<Document>, enrichJob: Uuid)
    requires m.version > 0 && Judge(db, m, job, found, enrichJob) == AppliedFailure
    ensures var t, d := ApplyResult(db, m, job, found, enrichJob), m.document;
            && t == db.(inbox := db.inbox[m.eventId := true], documents := t.documents, jobs := t.jobs)
            && t.documents == (if ReadCurrent(m, found) && d in db.documents && !db.documents[d].deleted
                                  && db.documents[d].currentVersion == m.version
                               then db.documents[d := db.documents[d].(status := ScrapeRejected)] else db.documents)
            && t.jobs == (if m.job in db.jobs && db.jobs[m.job].state in {Queued, Processing}
                          then db.jobs[m.job := Job(db.jobs[m.job].key, Failed, db.jobs[m.job].attempts)] else db.jobs)
  {
  }

  lemma NothingElseIsWritten(db: Db, m: ScrapeResult, job: Job, found: Option<Document>, enrichJob: Uuid)
    requires m.version > 0
    ensures var verdict, t := Judge(db, m, job, found, enrichJob), ApplyResult(db, m, job, found, enrichJob);
            && (verdict == Duplicate || verdict == RolledBack ==> t == db)
            && (verdict == Terminal ==> t == db.(inbox := db.inbox[m.eventId := true]))
  {
  }

  // ----- claims, chunks and cleanup -----

  lemma ClaimableJobs(job: Job, cleanup: CleanupJob)
    ensures ClaimableJob(job) <==> job.key.kind == Enrich && job.state in {Queued, Failed, Processing} && job.attempts < 5
    ensures ClaimableCleanup(cleanup) <==> cleanup.state in {Queued, Failed, Processing} && cleanup.attempts < 10
  {
  }

  lemma JobsAreClaimed(jobs: map<Uuid, Job>, cleanup: map<Uuid, CleanupJob>, picked: set<Uuid>)
    ensures var t := ClaimJobs(jobs, picked);
            && t.Keys == jobs.Keys
            && forall j :: j in jobs ==>
                 t[j] == if j in picked then Job(jobs[j].key, Processing, jobs[j].attempts + 1) else jobs[j]
    ensures var t := ClaimCleanup(cleanup, picked);
            && t.Keys == cleanup.Keys
            && forall d :: d in cleanup ==>
                 t[d] == if d in picked then CleanupJob(Processing, cleanup[d].attempts + 1) else cleanup[d]
  {
  }

  lemma ChunksAreReplaced(chunks: map<ChunkKey, string>, d: Uuid, v: nat, texts: seq<string>)
    ensures var t := ReplaceChunks(chunks, d, v, texts);
            && (forall i :: 0 <= i < |texts| ==> ChunkKey(d, v, i) in t && t[ChunkKey(d, v, i)] == texts[i])
            && (forall i: nat :: i >= |texts| ==> ChunkKey(d, v, i) !in t)
            && (forall k: ChunkKey :: k.document != d || k.version != v ==> (k in t <==> k in chunks) && (k in chunks ==> t[k] == chunks[k]))
  {
  }

  lemma EnrichmentIsRejected(db: Db, d: Uuid, v: nat)
    ensures RejectEnrichment(db, d, v) ==
            if d in db.documents && !db.documents[d].deleted && db.documents[d].currentVersion == v
            then db.documents[d := db.documents[d].(status := EnrichRejected)] else db.documents
  {
  }

  /** The bucket of a document's objects. */
  function BucketFor(kind: DocumentKind): Bucket { if kind.Webpage? then ArtifactBucket else DocumentBucket }

  /** The objects of a document are those of the two keys of each of its version rows. */
  lemma ObjectsAreThose(documents: map<Uuid, Document>, versions: map<VersionKey, Version>, d: Uuid, target: S3Object)
    ensures target in ObjectsOf(documents, versions, d) <==>
            && d in documents && target.key != "" && target.bucket == BucketFor(documents[d].kind)
            && exists k :: k in versions && k.document == d
                           && (target.key == versions[k].rawKey || target.key == versions[k].contentKey)
  {
    if d in documents {
      forall k | k in versions && k.document == d && target.key != "" && target.bucket == BucketFor(documents[d].kind)
                 && (target.key == versions[k].rawKey || target.key == versions[k].contentKey)
        ensures target in ObjectsOf(documents, versions, d)
      {
        assert target.key in KeysOf(versions[k]) && target == S3Object(BucketOf(documents[d].kind), target.key);
      }
    }
  }

  lemma CleanupIsRequeued(db: Db, d: Uuid)
    ensures Requeue(db, d) == if d in db.cleanup then db.(cleanup := db.cleanup[d := CleanupJob(Queued, 0)]) else db
  {
  }

  lemma CleanupEnds(cleanup: map<Uuid, CleanupJob>, d: Uuid)
    ensures CleanupCompletable(cleanup, d) <==>
            d in cleanup && (cleanup[d].state == Processing || cleanup[d].state == Succeeded)
    ensures CompleteCleanup(cleanup, d) ==
            if d in cleanup && (cleanup[d].state == Processing || cleanup[d].state == Succeeded)
            then cleanup[d := CleanupJob(Succeeded, cleanup[d].attempts)] else cleanup
    ensures FailCleanup(cleanup, d) ==
            if d in cleanup && cleanup[d].state == Processing
            then cleanup[d := CleanupJob(Failed, cleanup[d].attempts)] else cleanup
  {
  }

  // ----- maintenance -----

  /** A deleted document goes, with every row that refers to it, once its cleanup has succeeded. */
  lemma DocumentsAreRemoved(db: Db, gone: set<Uuid>)
    ensures forall d :: HardDeletable(db, d) <==>
                        && d in db.documents && db.documents[d].deleted
                        && d in db.cleanup && db.cleanup[d].state == Succeeded
    ensures var t := RemoveDocuments(db, gone);
            && t.accounts == db.accounts && t.outbox == db.outbox && t.inbox == db.inbox
            && t.documents == db.documents - gone && t.cleanup == db.cleanup - gone
            && (forall k :: k in t.versions <==> k in db.versions && k.document !in gone)
            && (forall k :: k in t.versions ==> t.versions[k] == db.versions[k])
            && (forall j :: j in t.jobs <==> j in db.jobs && db.jobs[j].key.document !in gone)
            && (forall j :: j in t.jobs ==> t.jobs[j] == db.jobs[j])
            && (forall k :: k in t.jobIndex <==> k in db.jobIndex && k.document !in gone)
            && (forall k :: k in t.jobIndex ==> t.jobIndex[k] == db.jobIndex[k])
            && (forall k :: k in t.chunks <==> k in db.chunks && k.document !in gone)
            && (forall k :: k in t.chunks ==> t.chunks[k] == db.chunks[k])
  {
  }

  /** A withdrawn account goes, with its documents, once the cleanup of each has succeeded. */
  lemma AccountIsRemoved(db: Db, a: Uuid)
    ensures AccountHardDeletable(db, a) <==>
            && a in db.accounts && db.accounts[a].deleted
            && forall d :: d in db.documents && db.documents[d].owner == a ==> d in db.cleanup && db.cleanup[d].state == Succeeded
    ensures RemoveAccount(db, a).accounts == db.accounts - {a}
    ensures var gone := set d | d in db.documents && db.documents[d].owner == a;
            RemoveAccount(db, a) == RemoveDocuments(db, gone).(accounts := db.accounts - {a})
  {
    var owned := OwnedDocuments(db.documents, a);
    assert owned == set d | d in db.documents && db.documents[d].owner == a;
    assert forall d :: d in owned <==> d in db.documents && db.documents[d].owner == a;
  }
}
