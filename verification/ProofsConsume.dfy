/** The result consumer keeps the invariant: the inbox decides, and what it decides on is either
    still true or guarded again inside the transaction. */
module ProofsConsume {
  import opened Schema
  import opened Transactions
  import opened Protocol
  import opened Invariants
  import opened ProofsMoves

  // ----- reads -----

  lemma ReceivedIsAnswered(s: System, m: ScrapeResult, artifact: string)
    requires RowsOk(s) && TerminalReceived(s.db.jobs, s.eventOf, s.db.inbox) && ResultsAnswer(s.results, s.requests)
    requires m in s.results && ValidEnvelope(m) && m.job in s.db.jobs && MatchesJob(m, s.db.jobs[m.job])
    ensures Answered(WithContent(m, artifact), s.db.jobs[m.job], s.requests, s.db.inbox)
  {
  }

  lemma ConsumerReplaced(s: System, consumer: Consumer)
    requires Inv(s) && ConsumerOk(consumer, s.db.documents, s.requests, s.db.inbox)
    ensures Inv(s.(consumer := consumer))
  {
  }

  lemma ReadDocumentOk(s: System)
    requires RowsOk(s) && ConsumerOk(s.consumer, s.db.documents, s.requests, s.db.inbox) && s.consumer.HasJob?
    ensures ConsumerOk(DoReadDocument(s).consumer, s.db.documents, s.requests, s.db.inbox)
  {
  }

  lemma UsedGrows(s: System, job: Uuid)
    requires Inv(s)
    ensures Inv(s.(used := s.used + {job}))
  {
  }

  // ----- the inbox row and the job -----

  lemma InboxGrows(inbox: map<Uuid, bool>, requests: map<Uuid, ScrapeRequest>, eventOf: map<Uuid, Uuid>,
                   applied: multiset<Uuid>, e: Uuid)
    requires InboxExact(inbox, requests, eventOf, applied) && RequestsPaired(requests, eventOf)
    requires e in requests && e !in inbox
    ensures InboxExact(inbox[e := true], requests, eventOf, applied + multiset{requests[e].job})
  {
  }

  lemma PhasesKeptByInbox(documents: map<Uuid, Document>, jobIndex: map<JobKey, Uuid>, eventOf: map<Uuid, Uuid>,
                          inbox: map<Uuid, bool>, e: Uuid)
    requires PhaseEarned(documents, jobIndex, eventOf, inbox)
    ensures PhaseEarned(documents, jobIndex, eventOf, inbox[e := true])
  {
  }

  /** The result of event e is in the inbox, and counted. */
  function Counted(s: System, e: Uuid, j: Uuid): System {
    s.(db := s.db.(inbox := s.db.inbox[e := true]), applied := s.applied + multiset{j}, consumer := Waiting)
  }

  lemma CountedKeeps(s: System, e: Uuid)
    requires Inv(s) && e in s.requests && e !in s.db.inbox
    ensures Inv(Counted(s, e, s.requests[e].job))
  {
    InboxGrows(s.db.inbox, s.requests, s.eventOf, s.applied, e);
    PhasesKeptByInbox(s.db.documents, s.db.jobIndex, s.eventOf, s.db.inbox, e);
  }

  /** The scrape job ends with its result. */
  lemma JobEnds(documents: map<Uuid, Document>, jobs: map<Uuid, Job>, jobIndex: map<JobKey, Uuid>,
                requests: map<Uuid, ScrapeRequest>, eventOf: map<Uuid, Uuid>, inbox: map<Uuid, bool>,
                j: Uuid, after: map<Uuid, Job>)
    requires JobsIndexed(documents, jobs, jobIndex) && ScrapesRequested(documents, jobIndex, requests, eventOf)
    requires TerminalReceived(jobs, eventOf, inbox)
    requires j in eventOf && eventOf[j] in inbox
    requires after == FailJob(jobs, j) || after == CompleteJob(jobs, j)
    ensures ScrapeJobsMoved(jobs, after) && TerminalReceived(after, eventOf, inbox)
  {
  }

  // ----- a failed result -----

  /** Before its result is applied, a version is still being scraped and has no enrichment job. */
  lemma NotYetApplied(s: System, e: Uuid)
    requires RowsOk(s) && PhaseEarned(s.db.documents, s.db.jobIndex, s.eventOf, s.db.inbox)
    requires e in s.requests && e !in s.db.inbox && s.requests[e].document in s.db.documents
    ensures var d, v := s.requests[e].document, s.requests[e].version;
            && s.db.documents[d].kind == Webpage
            && !ResultApplied(s.db.jobIndex, s.eventOf, s.db.inbox, d, v)
            && JobKey(d, v, Enrich) !in s.db.jobIndex
            && v <= s.db.documents[d].currentVersion
            && (s.db.documents[d].currentVersion == v ==> Phase(s.db.documents[d].status) == 0)
  {
    var d, v := s.requests[e].document, s.requests[e].version;
    var k := JobKey(d, v, Scrape);
    assert k in s.db.jobIndex && s.db.jobIndex[k] == s.requests[e].job;
    assert !ResultApplied(s.db.jobIndex, s.eventOf, s.db.inbox, d, v);
  }

  lemma RejectScrapeMoves(s: System, e: Uuid)
    requires RowsOk(s) && PhaseEarned(s.db.documents, s.db.jobIndex, s.eventOf, s.db.inbox)
    requires e in s.requests && e !in s.db.inbox
    ensures StatusMoved(s.db.documents, RejectScrape(s.db, s.requests[e].document, s.requests[e].version))
  {
    var d, v := s.requests[e].document, s.requests[e].version;
    if s.db.Current(d, v) {
      NotYetApplied(s, e);
      OneStatusMoved(s.db.documents, d, ScrapeRejected);
    } else {
      NothingMoved(s.db.documents);
    }
  }

  lemma FailureKeeps(s: System, e: Uuid, documents: map<Uuid, Document>)
    requires Inv(s) && e in s.requests && e !in s.db.inbox && StatusMoved(s.db.documents, documents)
    ensures var j := s.requests[e].job;
            Inv(Counted(s, e, j).(db := s.db.(documents := documents, jobs := FailJob(s.db.jobs, j),
                                              inbox := s.db.inbox[e := true])))
  {
    var j := s.requests[e].job;
    var s1 := s.(db := s.db.(documents := documents));
    StatusMovedKeeps(s, documents);
    var s2 := Counted(s1, e, j);
    CountedKeeps(s1, e);
    JobEnds(documents, s.db.jobs, s.db.jobIndex, s.requests, s.eventOf, s2.db.inbox, j, FailJob(s.db.jobs, j));
    ScrapeJobsMovedKeeps(s2, FailJob(s.db.jobs, j));
  }

  lemma FailureShape(s: System, job: Uuid)
    requires s.consumer.HasDocument? && s.consumer.m.version > 0
    requires Judge(s.db, s.consumer.m, s.consumer.job, s.consumer.found, job) == AppliedFailure
    ensures var m := s.consumer.m;
            var documents := if ReadAsCurrent(m, s.consumer.found) then RejectScrape(s.db, m.document, m.version)
                             else s.db.documents;
            DoCommit(s, job) ==
            Counted(s, m.eventId, m.job).(
            db := s.db.(documents := documents, jobs := FailJob(s.db.jobs, m.job), inbox := s.db.inbox[m.eventId := true]),
            used := s.used + {job})
  {
  }

  lemma FailedResultMoves(s: System, job: Uuid)
    requires RowsOk(s) && PhaseEarned(s.db.documents, s.db.jobIndex, s.eventOf, s.db.inbox)
    requires ConsumerOk(s.consumer, s.db.documents, s.requests, s.db.inbox)
    requires s.consumer.HasDocument? && s.consumer.m.version > 0
    requires Judge(s.db, s.consumer.m, s.consumer.job, s.consumer.found, job) == AppliedFailure
    ensures var m := s.consumer.m;
            && m.eventId in s.requests && m.eventId !in s.db.inbox && s.requests[m.eventId].job == m.job
            && StatusMoved(s.db.documents, if ReadAsCurrent(m, s.consumer.found)
                                           then RejectScrape(s.db, m.document, m.version) else s.db.documents)
  {
    RejectScrapeMoves(s, s.consumer.m.eventId);
    NothingMoved(s.db.documents);
  }

  lemma CommitFailureKeeps(s: System, job: Uuid)
    requires Inv(s) && s.consumer.HasDocument? && s.consumer.m.version > 0
    requires Judge(s.db, s.consumer.m, s.consumer.job, s.consumer.found, job) == AppliedFailure
    ensures Inv(DoCommit(s, job))
  {
    var m := s.consumer.m;
    var documents := if ReadAsCurrent(m, s.consumer.found) then RejectScrape(s.db, m.document, m.version)
                     else s.db.documents;
    FailedResultMoves(s, job);
    FailureKeeps(s, m.eventId, documents);
    FailureShape(s, job);
    UsedGrows(DoCommit(s, job).(used := s.used), job);
  }

  // ----- the version row of a completed result -----

  lemma InRecorded(d: Uuid, kind: DocumentKind, version: Version)
    ensures forall r :: r in RecordedBy(d, kind, version) <==>
                        r.document == d && r.target.bucket == BucketOf(kind) && r.target.key in KeysOf(version)
  {
  }

  lemma RequeueKeepsDeletion(accounts: map<Uuid, Account>, documents: map<Uuid, Document>,
                             cleanup: map<Uuid, CleanupJob>, d: Uuid)
    requires DeletedIffCleanup(accounts, documents, cleanup) && d in cleanup
    ensures DeletedIffCleanup(accounts, documents, cleanup[d := CleanupJob(Queued, 0)])
  {
  }

  /** The version row, its objects and the requeued cleanup. */
  function Written(s: System, k: VersionKey, version: Version, cleanup: map<Uuid, CleanupJob>): System
    requires k.document in s.db.documents
  {
    s.(db := s.db.(versions := s.db.versions[k := version], cleanup := cleanup),
       undeleted := s.undeleted + RecordedBy(k.document, s.db.documents[k.document].kind, version))
  }

  ghost predicate CanWrite(s: System, k: VersionKey, version: Version, cleanup: map<Uuid, CleanupJob>) {
    && k in s.db.versions && k.document in s.db.documents
    && JobKey(k.document, k.version, Enrich) !in s.db.jobIndex && !s.db.Current(k.document, k.version)
    && (cleanup == s.db.cleanup
        || (k.document in s.db.cleanup && cleanup == s.db.cleanup[k.document := CleanupJob(Queued, 0)]))
  }

  lemma WrittenKeepsRows(s: System, k: VersionKey, version: Version, cleanup: map<Uuid, CleanupJob>)
    requires RowsOk(s) && k in s.db.versions && k.document in s.db.documents
    requires cleanup == s.db.cleanup
             || (k.document in s.db.cleanup && cleanup == s.db.cleanup[k.document := CleanupJob(Queued, 0)])
    ensures RowsOk(Written(s, k, version, cleanup))
  {
    VersionRowKept(s.db.documents, s.db.versions, k, version);
    if cleanup != s.db.cleanup {
      RequeueKeepsDeletion(s.db.accounts, s.db.documents, s.db.cleanup, k.document);
    }
  }

  lemma WrittenKeepsEnrichment(s: System, k: VersionKey, version: Version, cleanup: map<Uuid, CleanupJob>)
    requires EnrichmentOk(s) && CanWrite(s, k, version, cleanup)
    ensures EnrichmentOk(Written(s, k, version, cleanup))
  {
  }

  /** The result of a version that is not, or no longer, the one shown. */
  lemma WrittenKeeps(s: System, k: VersionKey, version: Version, cleanup: map<Uuid, CleanupJob>)
    requires Inv(s) && CanWrite(s, k, version, cleanup)
    ensures Inv(Written(s, k, version, cleanup))
  {
    WrittenKeepsRows(s, k, version, cleanup);
    WrittenKeepsEnrichment(s, k, version, cleanup);
  }

  // ----- the current version: the document and its enrichment job -----

  /** What a completed result of the current version makes of the document. */
  ghost predicate Scraped(before: Document, after: Document) {
    && !before.deleted && before.kind == Webpage && Phase(before.status) == 0
    && after == before.(content := after.content, fileSize := after.fileSize, status := EnrichPending)
  }

  lemma ScrapedKeepsRows(documents: map<Uuid, Document>, versions: map<VersionKey, Version>, jobs: map<Uuid, Job>,
                         jobIndex: map<JobKey, Uuid>, d: Uuid, after: Document, version: Version, job: Uuid)
    requires VersionsExact(documents, versions) && JobsIndexed(documents, jobs, jobIndex)
    requires d in documents && Scraped(documents[d], after) && job !in jobs
    requires JobKey(d, after.currentVersion, Enrich) !in jobIndex
    ensures var k := JobKey(d, after.currentVersion, Enrich);
            && VersionsExact(documents[d := after], versions[VersionKey(d, after.currentVersion) := version])
            && JobsIndexed(documents[d := after], jobs[job := Job(k, Queued, 0)], jobIndex[k := job])
  {
  }

  lemma ScrapedKeepsRequests(documents: map<Uuid, Document>, jobIndex: map<JobKey, Uuid>, requests: map<Uuid, ScrapeRequest>,
                             eventOf: map<Uuid, Uuid>, d: Uuid, after: Document, job: Uuid)
    requires ScrapesRequested(documents, jobIndex, requests, eventOf)
    requires d in documents && Scraped(documents[d], after) && job !in eventOf
    ensures ScrapesRequested(documents[d := after], jobIndex[JobKey(d, after.currentVersion, Enrich) := job], requests, eventOf)
  {
  }

  lemma ScrapedKeepsPhases(documents: map<Uuid, Document>, jobs: map<Uuid, Job>, jobIndex: map<JobKey, Uuid>,
                           eventOf: map<Uuid, Uuid>, inbox: map<Uuid, bool>, d: Uuid, after: Document, job: Uuid)
    requires PhaseEarned(documents, jobIndex, eventOf, inbox) && StatusBacked(documents, jobs, jobIndex)
    requires d in documents && Scraped(documents[d], after) && job !in jobs
    requires JobKey(d, after.currentVersion, Enrich) !in jobIndex
    requires ResultApplied(jobIndex, eventOf, inbox, d, after.currentVersion)
    ensures var k := JobKey(d, after.currentVersion, Enrich);
            && PhaseEarned(documents[d := after], jobIndex[k := job], eventOf, inbox)
            && StatusBacked(documents[d := after], jobs[job := Job(k, Queued, 0)], jobIndex[k := job])
  {
  }

  lemma ScrapedKeepsBatch(enricher: Enricher, used: set<Uuid>, documents: map<Uuid, Document>, versions: map<VersionKey, Version>,
                          jobs: map<Uuid, Job>, jobIndex: map<JobKey, Uuid>, d: Uuid, after: Document, version: Version, job: Uuid)
    requires BatchHeld(enricher, used, jobs) && BatchVersions(enricher, documents, jobIndex)
    requires SnapshotKept(enricher, documents, versions)
    requires d in documents && Scraped(documents[d], after) && job !in used
    requires JobKey(d, after.currentVersion, Enrich) !in jobIndex
    ensures var k := JobKey(d, after.currentVersion, Enrich);
            && BatchHeld(enricher, used, jobs[job := Job(k, Queued, 0)])
            && BatchVersions(enricher, documents[d := after], jobIndex[k := job])
            && SnapshotKept(enricher, documents[d := after], versions[VersionKey(d, after.currentVersion) := version])
  {
  }

  lemma ScrapedKeepsProjection(documents: map<Uuid, Document>, versions: map<VersionKey, Version>,
                               d: Uuid, after: Document, version: Version)
    requires ProjectionAgrees(documents, versions)
    requires d in documents && Scraped(documents[d], after) && version.content == after.content
    ensures ProjectionAgrees(documents[d := after], versions[VersionKey(d, after.currentVersion) := version])
  {
  }

  /** Without an enrichment job the version had no chunks, and with a new one it still has none. */
  lemma ScrapedKeepsIndex(documents: map<Uuid, Document>, jobs: map<Uuid, Job>, jobIndex: map<JobKey, Uuid>,
                          chunks: map<ChunkKey, string>, d: Uuid, after: Document, job: Uuid)
    requires JobsIndexed(documents, jobs, jobIndex) && IndexAgrees(documents, jobs, jobIndex, chunks)
    requires d in documents && Scraped(documents[d], after) && job !in jobs
    requires JobKey(d, after.currentVersion, Enrich) !in jobIndex
    ensures var k := JobKey(d, after.currentVersion, Enrich);
            IndexAgrees(documents[d := after], jobs[job := Job(k, Queued, 0)], jobIndex[k := job], chunks)
  {
    var k := JobKey(d, after.currentVersion, Enrich);
    var documents', jobs', jobIndex' := documents[d := after], jobs[job := Job(k, Queued, 0)], jobIndex[k := job];
    forall x: ChunkKey | ShowsVersion(documents', x.document, x.version)
      ensures ChunkAt(chunks, x) ==
              ExpectedChunk(Enriched(jobs', jobIndex', x.document, x.version), documents'[x.document].content, x.index)
    {
      NewJobStarts(jobs, jobIndex, k, job, x.document, x.version);
      assert ShowsVersion(documents, x.document, x.version);
    }
  }

  lemma ScrapedKeepsConsumer(consumer: Consumer, accounts: map<Uuid, Account>, documents: map<Uuid, Document>,
                             cleanup: map<Uuid, CleanupJob>, requests: map<Uuid, ScrapeRequest>, inbox: map<Uuid, bool>,
                             d: Uuid, after: Document)
    requires ConsumerOk(consumer, documents, requests, inbox) && DeletedIffCleanup(accounts, documents, cleanup)
    requires d in documents && Scraped(documents[d], after)
    ensures ConsumerOk(consumer, documents[d := after], requests, inbox)
    ensures DeletedIffCleanup(accounts, documents[d := after], cleanup)
  {
  }

  /** The document shows the result and waits for its enrichment job. */
  function Shown(s: System, d: Uuid, after: Document, version: Version, job: Uuid): System
    requires d in s.db.documents
  {
    var k := JobKey(d, after.currentVersion, Enrich);
    s.(db := s.db.(documents := s.db.documents[d := after],
                   versions := s.db.versions[VersionKey(d, after.currentVersion) := version],
                   jobs := s.db.jobs[job := Job(k, Queued, 0)],
                   jobIndex := s.db.jobIndex[k := job]),
       used := s.used + {job},
       enrichJobs := s.enrichJobs + {job},
       undeleted := s.undeleted + RecordedBy(d, s.db.documents[d].kind, version))
  }

  ghost predicate CanShow(s: System, d: Uuid, after: Document, version: Version, job: Uuid) {
    && d in s.db.documents && Scraped(s.db.documents[d], after)
    && job !in s.used && version.content == after.content
    && JobKey(d, after.currentVersion, Enrich) !in s.db.jobIndex
    && ResultApplied(s.db.jobIndex, s.eventOf, s.db.inbox, d, after.currentVersion)
  }

  lemma ShownKeepsRows(s: System, d: Uuid, after: Document, version: Version, job: Uuid)
    requires RowsOk(s) && ConsumerOk(s.consumer, s.db.documents, s.requests, s.db.inbox)
    requires CanShow(s, d, after, version, job)
    ensures var t := Shown(s, d, after, version, job);
            RowsOk(t) && ConsumerOk(t.consumer, t.db.documents, t.requests, t.db.inbox)
  {
    ScrapedKeepsRows(s.db.documents, s.db.versions, s.db.jobs, s.db.jobIndex, d, after, version, job);
    ScrapedKeepsRequests(s.db.documents, s.db.jobIndex, s.requests, s.eventOf, d, after, job);
    ScrapedKeepsConsumer(s.consumer, s.db.accounts, s.db.documents, s.db.cleanup, s.requests, s.db.inbox, d, after);
  }

  lemma ShownKeepsResults(s: System, d: Uuid, after: Document, version: Version, job: Uuid)
    requires RowsOk(s) && ResultsOk(s) && CanShow(s, d, after, version, job)
    ensures ResultsOk(Shown(s, d, after, version, job))
  {
    ShownKeepsRows(s, d, after, version, job);
    ScrapedKeepsPhases(s.db.documents, s.db.jobs, s.db.jobIndex, s.eventOf, s.db.inbox, d, after, job);
    TerminalKeptByNewJob(s.db.jobs, s.eventOf, s.db.inbox, job, JobKey(d, after.currentVersion, Enrich));
  }

  lemma ShownKeepsEnrichment(s: System, d: Uuid, after: Document, version: Version, job: Uuid)
    requires RowsOk(s) && EnrichmentOk(s) && CanShow(s, d, after, version, job)
    ensures EnrichmentOk(Shown(s, d, after, version, job))
  {
    var k := JobKey(d, after.currentVersion, Enrich);
    ScrapedKeepsBatch(s.enricher, s.used, s.db.documents, s.db.versions, s.db.jobs, s.db.jobIndex, d, after, version, job);
    BatchKeptByNewJob(s.enricher, s.used, s.used + {job}, s.db.jobs, job, Job(k, Queued, 0));
    ScrapedKeepsProjection(s.db.documents, s.db.versions, d, after, version);
    ScrapedKeepsIndex(s.db.documents, s.db.jobs, s.db.jobIndex, s.db.chunks, d, after, job);
    ClaimsKeptByNewJob(s.db.jobs, s.claims, s.enrichJobs, job, k);
  }

  lemma ShownKeeps(s: System, d: Uuid, after: Document, version: Version, job: Uuid)
    requires Inv(s) && CanShow(s, d, after, version, job)
    ensures Inv(Shown(s, d, after, version, job))
  {
    ShownKeepsRows(s, d, after, version, job);
    ShownKeepsResults(s, d, after, version, job);
    ShownKeepsEnrichment(s, d, after, version, job);
  }

  // ----- a completed result -----

  /** What the guards of the transaction establish, for the current version and for an older one. */
  lemma AppliedGuards(db: Db, m: ScrapeResult, job: Job, found: Option<Document>, enrichJob: Uuid)
    requires m.version > 0 && Judge(db, m, job, found, enrichJob) == AppliedSuccess
    ensures m.eventId !in db.inbox && VersionKey(m.document, m.version) in db.versions
    ensures ReadAsCurrent(m, found) ==> db.Current(m.document, m.version) && m.fileSize >= 0
    ensures found.None? ==> m.document in db.cleanup
  {
  }

  lemma CurrentApplied(db: Db, m: ScrapeResult, found: Option<Document>, enrichJob: Uuid)
    requires m.version > 0 && ReadAsCurrent(m, found) && m.document in db.documents && m.fileSize >= 0
    requires JobKey(m.document, m.version, Enrich) !in db.jobIndex
    ensures var k := JobKey(m.document, m.version, Enrich);
            ApplySuccess(db, m, found, enrichJob) ==
            db.(versions := db.versions[VersionKey(m.document, m.version) := ResultVersion(m)],
                documents := db.documents[m.document := ScrapedDocument(db.documents[m.document], m)],
                jobs := CompleteJob(db.jobs[enrichJob := Job(k, Queued, 0)], m.job),
                jobIndex := db.jobIndex[k := enrichJob])
  {
  }

  lemma OldApplied(db: Db, m: ScrapeResult, found: Option<Document>, enrichJob: Uuid)
    requires m.version > 0 && !ReadAsCurrent(m, found)
    ensures ApplySuccess(db, m, found, enrichJob) ==
            db.(versions := db.versions[VersionKey(m.document, m.version) := ResultVersion(m)],
                cleanup := if found.None? then Requeue(db, m.document).cleanup else db.cleanup,
                jobs := CompleteJob(db.jobs, m.job))
  {
  }

  lemma EndKeeps(s: System, e: Uuid)
    requires Inv(s) && e in s.requests && e in s.db.inbox
    ensures Inv(s.(db := s.db.(jobs := CompleteJob(s.db.jobs, s.requests[e].job))))
  {
    var j := s.requests[e].job;
    JobEnds(s.db.documents, s.db.jobs, s.db.jobIndex, s.requests, s.eventOf, s.db.inbox, j, CompleteJob(s.db.jobs, j));
    ScrapeJobsMovedKeeps(s, CompleteJob(s.db.jobs, j));
  }

  /** The request whose result is applied, and the document and version it asked for. */
  ghost predicate Requested(s: System, e: Uuid, d: Uuid, v: nat) {
    && e in s.requests && e !in s.db.inbox
    && s.requests[e].document == d && s.requests[e].version == v
    && d in s.db.documents && VersionKey(d, v) in s.db.versions
  }

  lemma ResultIsApplied(s: System, e: Uuid, d: Uuid, v: nat)
    requires RequestsPaired(s.requests, s.eventOf)
    requires ScrapesRequested(s.db.documents, s.db.jobIndex, s.requests, s.eventOf) && Requested(s, e, d, v)
    ensures ResultApplied(s.db.jobIndex, s.eventOf, s.db.inbox[e := true], d, v)
  {
  }

  lemma CurrentCanShow(s: System, e: Uuid, d: Uuid, after: Document, version: Version, job: Uuid)
    requires RowsOk(s) && PhaseEarned(s.db.documents, s.db.jobIndex, s.eventOf, s.db.inbox)
    requires Requested(s, e, d, after.currentVersion)
    requires s.db.Current(d, after.currentVersion) && job !in s.used && version.content == after.content
    requires after == s.db.documents[d].(content := after.content, fileSize := after.fileSize, status := EnrichPending)
    ensures CanShow(Counted(s, e, s.requests[e].job), d, after, version, job)
  {
    NotYetApplied(s, e);
    ResultIsApplied(s, e, d, after.currentVersion);
  }

  lemma ApplyCurrentKeeps(s: System, e: Uuid, d: Uuid, after: Document, version: Version, job: Uuid)
    requires Inv(s) && Requested(s, e, d, after.currentVersion)
    requires s.db.Current(d, after.currentVersion) && job !in s.used && version.content == after.content
    requires after == s.db.documents[d].(content := after.content, fileSize := after.fileSize, status := EnrichPending)
    ensures var t := Shown(Counted(s, e, s.requests[e].job), d, after, version, job);
            Inv(t.(db := t.db.(jobs := CompleteJob(t.db.jobs, s.requests[e].job))))
  {
    CurrentCanShow(s, e, d, after, version, job);
    CountedKeeps(s, e);
    ShownKeeps(Counted(s, e, s.requests[e].job), d, after, version, job);
    EndKeeps(Shown(Counted(s, e, s.requests[e].job), d, after, version, job), e);
  }

  lemma ApplyOldKeeps(s: System, e: Uuid, k: VersionKey, version: Version, cleanup: map<Uuid, CleanupJob>,
                      job: Uuid)
    requires Inv(s) && Requested(s, e, k.document, k.version) && CanWrite(s, k, version, cleanup)
    ensures var t := Written(Counted(s, e, s.requests[e].job), k, version, cleanup);
            Inv(t.(db := t.db.(jobs := CompleteJob(t.db.jobs, s.requests[e].job)), used := s.used + {job}))
  {
    CountedKeeps(s, e);
    var s1 := Counted(s, e, s.requests[e].job);
    assert CanWrite(s1, k, version, cleanup);
    WrittenKeeps(s1, k, version, cleanup);
    var s2 := Written(s1, k, version, cleanup);
    EndKeeps(s2, e);
    UsedGrows(s2.(db := s2.db.(jobs := CompleteJob(s2.db.jobs, s.requests[e].job))), job);
  }

  /** A message in hand whose result is about to be applied. */
  ghost predicate Applying(s: System, job: Uuid) {
    && s.consumer.HasDocument? && s.consumer.m.version > 0
    && Judge(s.db, s.consumer.m, s.consumer.job, s.consumer.found, job) == AppliedSuccess
  }

  lemma ApplyingRequested(s: System, job: Uuid)
    requires VersionsExact(s.db.documents, s.db.versions) && Applying(s, job)
    requires ConsumerOk(s.consumer, s.db.documents, s.requests, s.db.inbox)
    ensures var m := s.consumer.m;
            Requested(s, m.eventId, m.document, m.version) && s.requests[m.eventId].job == m.job
  {
  }

  lemma CommitCurrentKeeps(s: System, job: Uuid)
    requires Inv(s) && Applying(s, job) && ReadAsCurrent(s.consumer.m, s.consumer.found) && job !in s.used
    ensures Inv(DoCommit(s, job))
  {
    var m := s.consumer.m;
    ApplyingRequested(s, job);
    AppliedGuards(s.db, m, s.consumer.job, s.consumer.found, job);
    NotYetApplied(s, m.eventId);
    ApplyCurrentKeeps(s, m.eventId, m.document, ScrapedDocument(s.db.documents[m.document], m), ResultVersion(m), job);
    CurrentShape(s, job);
  }

  lemma CurrentShape(s: System, job: Uuid)
    requires Applying(s, job) && ReadAsCurrent(s.consumer.m, s.consumer.found)
    requires s.db.Current(s.consumer.m.document, s.consumer.m.version) && s.consumer.m.fileSize >= 0
    requires JobKey(s.consumer.m.document, s.consumer.m.version, Enrich) !in s.db.jobIndex
    ensures var m := s.consumer.m;
            var t := Shown(Counted(s, m.eventId, m.job), m.document,
                           ScrapedDocument(s.db.documents[m.document], m), ResultVersion(m), job);
            DoCommit(s, job) == t.(db := t.db.(jobs := CompleteJob(t.db.jobs, m.job)))
  {
    CurrentApplied(s.db, s.consumer.m, s.consumer.found, job);
  }

  /** The cleanup rows after the result of an old version. */
  function Requeued(s: System): map<Uuid, CleanupJob>
    requires s.consumer.HasDocument?
  {
    if s.consumer.found.None? then Requeue(s.db, s.consumer.m.document).cleanup else s.db.cleanup
  }

  lemma OldShape(s: System, job: Uuid)
    requires Applying(s, job) && !ReadAsCurrent(s.consumer.m, s.consumer.found)
    requires s.consumer.m.document in s.db.documents
    ensures var m := s.consumer.m;
            var t := Written(Counted(s, m.eventId, m.job), VersionKey(m.document, m.version), ResultVersion(m),
                             Requeued(s));
            DoCommit(s, job) == t.(db := t.db.(jobs := CompleteJob(t.db.jobs, m.job)), used := s.used + {job})
  {
    OldApplied(s.db, s.consumer.m, s.consumer.found, job);
  }

  lemma OldCanWrite(s: System, job: Uuid)
    requires DeletedIffCleanup(s.db.accounts, s.db.documents, s.db.cleanup) && Applying(s, job)
    requires ConsumerOk(s.consumer, s.db.documents, s.requests, s.db.inbox)
    requires !ReadAsCurrent(s.consumer.m, s.consumer.found) && s.consumer.m.document in s.db.documents
    requires JobKey(s.consumer.m.document, s.consumer.m.version, Enrich) !in s.db.jobIndex
    ensures var m := s.consumer.m;
            CanWrite(s, VersionKey(m.document, m.version), ResultVersion(m), Requeued(s))
  {
  }

  lemma CommitOldKeeps(s: System, job: Uuid)
    requires Inv(s) && Applying(s, job) && !ReadAsCurrent(s.consumer.m, s.consumer.found)
    ensures Inv(DoCommit(s, job))
  {
    var m := s.consumer.m;
    ApplyingRequested(s, job);
    NotYetApplied(s, m.eventId);
    OldCanWrite(s, job);
    ApplyOldKeeps(s, m.eventId, VersionKey(m.document, m.version), ResultVersion(m), Requeued(s), job);
    OldShape(s, job);
  }

  // ----- every step -----

  lemma CommitKeeps(s: System, job: Uuid)
    requires Inv(s) && s.consumer.HasDocument? && Fresh(s, [job])
    ensures Inv(DoCommit(s, job))
  {
    var m, found := s.consumer.m, s.consumer.found;
    assert [job][0] == job;
    assert m.version > 0 && (m.document in s.db.documents <== VersionKey(m.document, m.version) in s.db.versions);
    match Judge(s.db, m, s.consumer.job, found, job)
    case AppliedFailure => CommitFailureKeeps(s, job);
    case AppliedSuccess => if ReadAsCurrent(m, found) { CommitCurrentKeeps(s, job); } else { CommitOldKeeps(s, job); }
    case Terminal => TerminalIsDuplicate(s, job);
    case _ => NothingCommitted(s, job);
  }

  /** A job read as finished had its event in the inbox already, so the terminal check never decides. */
  lemma TerminalIsDuplicate(s: System, job: Uuid)
    requires ConsumerOk(s.consumer, s.db.documents, s.requests, s.db.inbox) && s.consumer.HasDocument?
    ensures s.consumer.m.version > 0
    ensures Judge(s.db, s.consumer.m, s.consumer.job, s.consumer.found, job) != Terminal
  {
  }

  lemma NothingCommitted(s: System, job: Uuid)
    requires Inv(s) && s.consumer.HasDocument? && s.consumer.m.version > 0
    requires Judge(s.db, s.consumer.m, s.consumer.job, s.consumer.found, job) in {RolledBack, Duplicate}
    ensures Inv(DoCommit(s, job))
  {
    ConsumerReplaced(s, Waiting);
    UsedGrows(s.(consumer := Waiting), job);
    assert DoCommit(s, job) == s.(consumer := Waiting, used := s.used + {job});
  }

  lemma ConsumeKeeps(s: System, step: ConsumeStep, t: System)
    requires Inv(s) && ConsumeNext(s, step, t)
    ensures Inv(t)
  {
    match step
    case Receive(m, artifact) =>
      ReceivedIsAnswered(s, m, artifact);
      ConsumerReplaced(s, t.consumer);
    case ReadDocument =>
      ReadDocumentOk(s);
      ConsumerReplaced(s, t.consumer);
    case Commit(job) => CommitKeeps(s, job);
    case StopConsumer => ConsumerReplaced(s, Waiting);
  }
}
