/** Changes that leave the phase of every document, and every enrichment job, as they are. */
module ProofsMoves {
  import opened Schema
  import opened Transactions
  import opened Protocol
  import opened Invariants

  /** It stays in its phase, or a completed document is rejected. */
  predicate StatusMayMove(before: Status, after: Status) {
    || after == before
    || (after in {ScrapeProcessing, ScrapeRejected, EnrichRejected} && Phase(after) == Phase(before))
    || (before == Completed && after == EnrichRejected)
  }

  /** Only the status of documents differs. */
  ghost predicate StatusMoved(documents: map<Uuid, Document>, after: map<Uuid, Document>) {
    && after.Keys == documents.Keys
    && forall d :: d in documents ==>
         && after[d] == documents[d].(status := after[d].status)
         && StatusMayMove(documents[d].status, after[d].status)
  }

  lemma OneStatusMoved(documents: map<Uuid, Document>, d: Uuid, status: Status)
    requires d in documents && StatusMayMove(documents[d].status, status)
    ensures StatusMoved(documents, documents[d := documents[d].(status := status)])
  {
  }

  lemma NothingMoved(documents: map<Uuid, Document>)
    ensures StatusMoved(documents, documents)
  {
  }

  /** Content, summary, size and status aside, the documents are the same. */
  ghost predicate SameRows(documents: map<Uuid, Document>, after: map<Uuid, Document>) {
    && after.Keys == documents.Keys
    && forall d :: d in documents ==>
         && after[d].owner == documents[d].owner && after[d].kind == documents[d].kind
         && after[d].currentVersion == documents[d].currentVersion && after[d].deleted == documents[d].deleted
  }

  lemma OneRowRewritten(documents: map<Uuid, Document>, d: Uuid, after: Document)
    requires d in documents && after.owner == documents[d].owner && after.kind == documents[d].kind
    requires after.currentVersion == documents[d].currentVersion && after.deleted == documents[d].deleted
    ensures SameRows(documents, documents[d := after])
  {
  }

  lemma SameRowsKeepTables(documents: map<Uuid, Document>, after: map<Uuid, Document>, versions: map<VersionKey, Version>,
                           jobs: map<Uuid, Job>, jobIndex: map<JobKey, Uuid>)
    requires VersionsExact(documents, versions) && JobsIndexed(documents, jobs, jobIndex) && SameRows(documents, after)
    ensures VersionsExact(after, versions) && JobsIndexed(after, jobs, jobIndex)
  {
  }

  lemma SameRowsKeepScrapes(documents: map<Uuid, Document>, after: map<Uuid, Document>, jobIndex: map<JobKey, Uuid>,
                            requests: map<Uuid, ScrapeRequest>, eventOf: map<Uuid, Uuid>)
    requires ScrapesRequested(documents, jobIndex, requests, eventOf) && SameRows(documents, after)
    ensures ScrapesRequested(after, jobIndex, requests, eventOf)
  {
  }

  lemma SameRowsKeepDeletion(accounts: map<Uuid, Account>, documents: map<Uuid, Document>, after: map<Uuid, Document>,
                             cleanup: map<Uuid, CleanupJob>)
    requires DeletedIffCleanup(accounts, documents, cleanup) && SameRows(documents, after)
    ensures DeletedIffCleanup(accounts, after, cleanup)
  {
  }

  lemma SameRowsKeepRows(s: System, after: map<Uuid, Document>)
    requires RowsOk(s) && SameRows(s.db.documents, after)
    ensures RowsOk(s.(db := s.db.(documents := after)))
  {
    SameRowsKeepTables(s.db.documents, after, s.db.versions, s.db.jobs, s.db.jobIndex);
    SameRowsKeepScrapes(s.db.documents, after, s.db.jobIndex, s.requests, s.eventOf);
    SameRowsKeepDeletion(s.db.accounts, s.db.documents, after, s.db.cleanup);
  }

  lemma SameRowsKeepWorkers(consumer: Consumer, enricher: Enricher, documents: map<Uuid, Document>, after: map<Uuid, Document>,
                            versions: map<VersionKey, Version>, jobIndex: map<JobKey, Uuid>,
                            requests: map<Uuid, ScrapeRequest>, inbox: map<Uuid, bool>)
    requires ConsumerOk(consumer, documents, requests, inbox) && SameRows(documents, after)
    requires BatchVersions(enricher, documents, jobIndex) && SnapshotKept(enricher, documents, versions)
    ensures ConsumerOk(consumer, after, requests, inbox)
    ensures BatchVersions(enricher, after, jobIndex) && SnapshotKept(enricher, after, versions)
  {
  }

  lemma StatusMovedKeepsPhases(documents: map<Uuid, Document>, after: map<Uuid, Document>,
                               jobIndex: map<JobKey, Uuid>, eventOf: map<Uuid, Uuid>, inbox: map<Uuid, bool>)
    requires PhaseEarned(documents, jobIndex, eventOf, inbox) && StatusMoved(documents, after)
    ensures PhaseEarned(after, jobIndex, eventOf, inbox)
  {
  }

  lemma StatusMovedKeepsStatus(documents: map<Uuid, Document>, after: map<Uuid, Document>, jobs: map<Uuid, Job>,
                               jobIndex: map<JobKey, Uuid>)
    requires StatusBacked(documents, jobs, jobIndex) && StatusMoved(documents, after)
    ensures StatusBacked(after, jobs, jobIndex)
  {
  }

  lemma StatusMovedKeepsContent(documents: map<Uuid, Document>, after: map<Uuid, Document>,
                                versions: map<VersionKey, Version>, jobs: map<Uuid, Job>,
                                jobIndex: map<JobKey, Uuid>, chunks: map<ChunkKey, string>)
    requires ProjectionAgrees(documents, versions) && IndexAgrees(documents, jobs, jobIndex, chunks)
    requires StatusMoved(documents, after)
    ensures ProjectionAgrees(after, versions) && IndexAgrees(after, jobs, jobIndex, chunks)
  {
    forall d | d in after && !after[d].deleted ensures Projected(after, versions, d) {
      assert Projected(documents, versions, d);
    }
    forall k: ChunkKey | ShowsVersion(after, k.document, k.version)
      ensures ChunkAt(chunks, k) ==
              ExpectedChunk(Enriched(jobs, jobIndex, k.document, k.version), after[k.document].content, k.index)
    {
      assert ShowsVersion(documents, k.document, k.version);
    }
  }

  lemma StatusMovedKeeps(s: System, after: map<Uuid, Document>)
    requires Inv(s) && StatusMoved(s.db.documents, after)
    ensures Inv(s.(db := s.db.(documents := after)))
  {
    SameRowsKeepRows(s, after);
    StatusMovedKeepsPhases(s.db.documents, after, s.db.jobIndex, s.eventOf, s.db.inbox);
    StatusMovedKeepsStatus(s.db.documents, after, s.db.jobs, s.db.jobIndex);
    SameRowsKeepWorkers(s.consumer, s.enricher, s.db.documents, after, s.db.versions, s.db.jobIndex, s.requests, s.db.inbox);
    StatusMovedKeepsContent(s.db.documents, after, s.db.versions, s.db.jobs, s.db.jobIndex, s.db.chunks);
  }

  /** Only state and attempts of scrape jobs differ. */
  ghost predicate ScrapeJobsMoved(jobs: map<Uuid, Job>, after: map<Uuid, Job>) {
    && after.Keys == jobs.Keys
    && forall j :: j in jobs ==>
         && after[j].key == jobs[j].key
         && (jobs[j].key.kind == Enrich ==> after[j] == jobs[j])
         && (jobs[j].state != Cancelled ==> after[j].state != Cancelled)
  }

  lemma ScrapeJobsMovedKeepsRows(s: System, after: map<Uuid, Job>)
    requires JobsIndexed(s.db.documents, s.db.jobs, s.db.jobIndex)
    requires IdsUsed(s.used, s.db.documents, s.db.jobs, s.requests, s.eventOf, s.enrichJobs)
    requires ScrapeJobsMoved(s.db.jobs, after)
    ensures JobsIndexed(s.db.documents, after, s.db.jobIndex)
    ensures IdsUsed(s.used, s.db.documents, after, s.requests, s.eventOf, s.enrichJobs)
  {
  }

  lemma ScrapeJobsMovedKeepsEnriched(documents: map<Uuid, Document>, jobs: map<Uuid, Job>, after: map<Uuid, Job>,
                                     jobIndex: map<JobKey, Uuid>, d: Uuid, v: nat)
    requires JobsIndexed(documents, jobs, jobIndex) && ScrapeJobsMoved(jobs, after)
    ensures HasEnrichJob(after, jobIndex, d, v) <==> HasEnrichJob(jobs, jobIndex, d, v)
    ensures Enriched(after, jobIndex, d, v) <==> Enriched(jobs, jobIndex, d, v)
  {
  }

  lemma ScrapeJobsMovedKeepsStatus(documents: map<Uuid, Document>, jobs: map<Uuid, Job>, after: map<Uuid, Job>,
                                   jobIndex: map<JobKey, Uuid>, chunks: map<ChunkKey, string>)
    requires JobsIndexed(documents, jobs, jobIndex) && ScrapeJobsMoved(jobs, after)
    requires StatusBacked(documents, jobs, jobIndex) && IndexAgrees(documents, jobs, jobIndex, chunks)
    ensures StatusBacked(documents, after, jobIndex) && IndexAgrees(documents, after, jobIndex, chunks)
  {
    forall d, v
      ensures HasEnrichJob(after, jobIndex, d, v) <==> HasEnrichJob(jobs, jobIndex, d, v)
      ensures Enriched(after, jobIndex, d, v) <==> Enriched(jobs, jobIndex, d, v)
    {
      ScrapeJobsMovedKeepsEnriched(documents, jobs, after, jobIndex, d, v);
    }
  }

  lemma ScrapeJobsMovedKeepsClaims(s: System, after: map<Uuid, Job>)
    requires BatchHeld(s.enricher, s.used, s.db.jobs) && ClaimsCounted(s.db.jobs, s.claims, s.enrichJobs)
    requires ScrapeJobsMoved(s.db.jobs, after)
    ensures BatchHeld(s.enricher, s.used, after) && ClaimsCounted(after, s.claims, s.enrichJobs)
  {
  }

  lemma ScrapeJobsMovedKeeps(s: System, after: map<Uuid, Job>)
    requires Inv(s) && ScrapeJobsMoved(s.db.jobs, after) && TerminalReceived(after, s.eventOf, s.db.inbox)
    ensures Inv(s.(db := s.db.(jobs := after)))
  {
    ScrapeJobsMovedKeepsRows(s, after);
    ScrapeJobsMovedKeepsStatus(s.db.documents, s.db.jobs, after, s.db.jobIndex, s.db.chunks);
    ScrapeJobsMovedKeepsClaims(s, after);
  }

  // ----- version rows and enrichment jobs -----

  lemma VersionRowKept(documents: map<Uuid, Document>, versions: map<VersionKey, Version>, k: VersionKey, version: Version)
    requires VersionsExact(documents, versions) && k in versions
    ensures VersionsExact(documents, versions[k := version])
  {
  }

  lemma BatchKeptByNewJob(enricher: Enricher, used: set<Uuid>, used': set<Uuid>, jobs: map<Uuid, Job>, job: Uuid, row: Job)
    requires BatchHeld(enricher, used, jobs) && job !in used && used <= used'
    ensures BatchHeld(enricher, used', jobs[job := row])
  {
  }

  lemma ClaimsKeptByNewJob(jobs: map<Uuid, Job>, claims: multiset<Uuid>, enrichJobs: set<Uuid>, job: Uuid, k: JobKey)
    requires ClaimsCounted(jobs, claims, enrichJobs) && job !in enrichJobs
    ensures k.kind == Enrich ==> ClaimsCounted(jobs[job := Job(k, Queued, 0)], claims, enrichJobs + {job})
    ensures k.kind != Enrich ==> ClaimsCounted(jobs[job := Job(k, Queued, 0)], claims, enrichJobs)
  {
  }

  lemma TerminalKeptByNewJob(jobs: map<Uuid, Job>, eventOf: map<Uuid, Uuid>, inbox: map<Uuid, bool>, job: Uuid, k: JobKey)
    requires TerminalReceived(jobs, eventOf, inbox)
    ensures TerminalReceived(jobs[job := Job(k, Queued, 0)], eventOf, inbox)
  {
  }

  lemma NewJobStarts(jobs: map<Uuid, Job>, jobIndex: map<JobKey, Uuid>, k: JobKey, job: Uuid, d: Uuid, v: nat)
    requires k !in jobIndex && job !in jobs && forall x :: x in jobIndex ==> jobIndex[x] in jobs
    ensures Enriched(jobs[job := Job(k, Queued, 0)], jobIndex[k := job], d, v) <==> Enriched(jobs, jobIndex, d, v)
  {
  }
}
