/** What every committed state of the ingestion protocol satisfies. Each predicate names only the
    tables and worker states it constrains. */
module Invariants {
  import opened Schema
  import opened Transactions
  import opened Protocol
  import Chunker

  // ----- rows that refer to one another -----

  /** The version rows of a document are exactly 1 to its current version. */
  ghost predicate VersionsExact(documents: map<Uuid, Document>, versions: map<VersionKey, Version>) {
    && (forall d :: d in documents ==> documents[d].currentVersion >= 1)
    && (forall k :: k in versions <==>
          k.document in documents && 1 <= k.version <= documents[k.document].currentVersion)
  }

  /** The unique index is exact and a job belongs to an existing version; only webpages are scraped. */
  ghost predicate JobsIndexed(documents: map<Uuid, Document>, jobs: map<Uuid, Job>, jobIndex: map<JobKey, Uuid>) {
    && (forall j :: j in jobs ==> jobs[j].key in jobIndex && jobIndex[jobs[j].key] == j)
    && (forall k :: k in jobIndex ==> jobIndex[k] in jobs && jobs[jobIndex[k]].key == k)
    && (forall k :: k in jobIndex ==>
          && k.document in documents && 1 <= k.version <= documents[k.document].currentVersion
          && k.kind != Thumbnail
          && (k.kind == Scrape ==> documents[k.document].kind == Webpage))
  }

  /** Events and scrape jobs are paired one to one, and every request is well formed. */
  ghost predicate RequestsPaired(requests: map<Uuid, ScrapeRequest>, eventOf: map<Uuid, Uuid>) {
    && (forall e :: e in requests ==>
          && requests[e].job in eventOf && eventOf[requests[e].job] == e
          && requests[e].job != NIL && requests[e].document != NIL
          && requests[e].version > 0 && requests[e].url != "")
    && (forall j :: j in eventOf ==> eventOf[j] in requests && requests[eventOf[j]].job == j)
  }

  ghost predicate ScrapedBy(jobIndex: map<JobKey, Uuid>, requests: map<Uuid, ScrapeRequest>,
                            eventOf: map<Uuid, Uuid>, k: JobKey)
    requires k in jobIndex
  {
    var j := jobIndex[k];
    && j in eventOf && eventOf[j] in requests
    && requests[eventOf[j]].document == k.document && requests[eventOf[j]].version == k.version
  }

  /** Every version of a webpage has its scrape job, and a request names the scrape job of its
      document and version for as long as the document exists. */
  ghost predicate ScrapesRequested(documents: map<Uuid, Document>, jobIndex: map<JobKey, Uuid>,
                                   requests: map<Uuid, ScrapeRequest>, eventOf: map<Uuid, Uuid>) {
    && (forall k :: k in jobIndex && k.kind == Scrape ==> ScrapedBy(jobIndex, requests, eventOf, k))
    && (forall k :: k in jobIndex && k.kind == Enrich ==> jobIndex[k] !in eventOf)
    && (forall k: VersionKey :: k.document in documents && documents[k.document].kind == Webpage
                                && 1 <= k.version <= documents[k.document].currentVersion ==>
          JobKey(k.document, k.version, Scrape) in jobIndex)
    && (forall e :: e in requests && requests[e].document in documents ==>
          var k := JobKey(requests[e].document, requests[e].version, Scrape);
          k in jobIndex && jobIndex[k] == requests[e].job)
  }

  /** Every outbox row carries the request it was created for and passes the envelope check. */
  ghost predicate OutboxValid(outbox: map<Uuid, OutboxEvent>, requests: map<Uuid, ScrapeRequest>) {
    forall e :: e in outbox ==>
      e in requests && ValidRequest(e, outbox[e]) && outbox[e].payload.data == requests[e]
  }

  /** No identifier in use, now or in a history, will be generated again. */
  ghost predicate IdsUsed(used: set<Uuid>, documents: map<Uuid, Document>, jobs: map<Uuid, Job>,
                          requests: map<Uuid, ScrapeRequest>, eventOf: map<Uuid, Uuid>, enrichJobs: set<Uuid>) {
    && NIL in used && NIL !in documents
    && documents.Keys <= used && jobs.Keys <= used && requests.Keys <= used
    && eventOf.Keys <= used && enrichJobs <= used
    && (forall e :: e in requests ==> requests[e].document in used)
  }

  // ----- results -----

  /** An inbox row is there, and processed, exactly when the one result of its event is applied. */
  ghost predicate InboxExact(inbox: map<Uuid, bool>, requests: map<Uuid, ScrapeRequest>,
                             eventOf: map<Uuid, Uuid>, applied: multiset<Uuid>) {
    && (forall e :: e in inbox ==> inbox[e] && e in requests)
    && (forall e :: e in requests ==> applied[requests[e].job] == if e in inbox then 1 else 0)
    && (forall j :: j in applied ==> j in eventOf)
  }

  ghost predicate TerminalReceived(jobs: map<Uuid, Job>, eventOf: map<Uuid, Uuid>, inbox: map<Uuid, bool>) {
    forall j :: j in jobs && jobs[j].key.kind == Scrape && jobs[j].state in {Succeeded, Failed} ==>
      j in eventOf && eventOf[j] in inbox
  }

  ghost predicate ResultsAnswer(results: set<ScrapeResult>, requests: map<Uuid, ScrapeRequest>) {
    forall m :: m in results ==> m.eventId in requests && requests[m.eventId].job == m.job
  }

  ghost predicate Answered(m: ScrapeResult, job: Job, requests: map<Uuid, ScrapeRequest>, inbox: map<Uuid, bool>) {
    && ValidEnvelope(m) && MatchesJob(m, job)
    && m.eventId in requests
    && requests[m.eventId].job == m.job
    && requests[m.eventId].document == m.document && requests[m.eventId].version == m.version
    && (job.state in {Succeeded, Failed} ==> m.eventId in inbox)
  }

  /** What the consumer read is either still true or has changed in one direction only. */
  ghost predicate ConsumerOk(consumer: Consumer, documents: map<Uuid, Document>,
                             requests: map<Uuid, ScrapeRequest>, inbox: map<Uuid, bool>) {
    match consumer
    case Waiting => true
    case HasJob(m, job) => Answered(m, job, requests, inbox)
    case HasDocument(m, job, found) =>
      && Answered(m, job, requests, inbox)
      && (found.Some? ==>
            && m.version <= found.value.currentVersion
            && (m.document in documents ==> found.value.currentVersion <= documents[m.document].currentVersion))
      && (found.None? ==> m.document !in documents || documents[m.document].deleted)
  }

  // ----- status -----

  function Phase(status: Status): nat {
    match status
    case EnrichPending => 1
    case EnrichProcessing => 1
    case EnrichRejected => 1
    case Completed => 2
    case _ => 0
  }

  ghost predicate ResultApplied(jobIndex: map<JobKey, Uuid>, eventOf: map<Uuid, Uuid>, inbox: map<Uuid, bool>,
                                d: Uuid, v: nat) {
    var k := JobKey(d, v, Scrape);
    k in jobIndex && jobIndex[k] in eventOf && eventOf[jobIndex[k]] in inbox
  }

  /** A webpage leaves the scrape phase, and gets an enrichment job, only by the applied result of
      that version; a version with an enrichment job is past the scrape phase. */
  ghost predicate PhaseEarned(documents: map<Uuid, Document>, jobIndex: map<JobKey, Uuid>,
                              eventOf: map<Uuid, Uuid>, inbox: map<Uuid, bool>) {
    && (forall d :: d in documents ==>
          && documents[d].status != Draft && documents[d].status != EnrichProcessing
          && (documents[d].kind != Webpage ==> Phase(documents[d].status) >= 1)
          && (documents[d].kind == Webpage && Phase(documents[d].status) >= 1 ==>
                ResultApplied(jobIndex, eventOf, inbox, d, documents[d].currentVersion)))
    && (forall k :: k in jobIndex && k.kind == Enrich && k.document in documents ==>
          && (documents[k.document].kind == Webpage ==>
                ResultApplied(jobIndex, eventOf, inbox, k.document, k.version))
          && (k.version == documents[k.document].currentVersion ==> Phase(documents[k.document].status) >= 1))
  }

  ghost predicate HasEnrichJob(jobs: map<Uuid, Job>, jobIndex: map<JobKey, Uuid>, d: Uuid, v: nat) {
    var k := JobKey(d, v, Enrich);
    k in jobIndex && jobIndex[k] in jobs
  }

  ghost predicate Enriched(jobs: map<Uuid, Job>, jobIndex: map<JobKey, Uuid>, d: Uuid, v: nat) {
    HasEnrichJob(jobs, jobIndex, d, v) && jobs[jobIndex[JobKey(d, v, Enrich)]].state == Succeeded
  }

  /** A completed document's enrichment job has succeeded; that of a live document which waits for its
      enrichment has not; and one that is rejected has a job. */
  ghost predicate StatusBacked(documents: map<Uuid, Document>, jobs: map<Uuid, Job>, jobIndex: map<JobKey, Uuid>) {
    forall d :: d in documents ==>
      && (documents[d].status == Completed ==> Enriched(jobs, jobIndex, d, documents[d].currentVersion))
      && (Phase(documents[d].status) == 1 && !documents[d].deleted ==>
            && HasEnrichJob(jobs, jobIndex, d, documents[d].currentVersion)
            && (documents[d].status == EnrichPending ==> !Enriched(jobs, jobIndex, d, documents[d].currentVersion)))
  }

  // ----- the enrichment loop -----

  /** What the job in hand may have become by the loop's own doing. */
  predicate MayHold(stage: EnrichStage, state: JobState) {
    || (stage.Unanswered? && state == Succeeded)
    || (stage.Rejecting? && state in {Failed, Succeeded})
  }

  /** While the loop holds a job nobody else moves it. */
  ghost predicate BatchHeld(enricher: Enricher, used: set<Uuid>, jobs: map<Uuid, Job>) {
    && (forall i, j :: 0 <= i < j < |enricher.batch| ==> enricher.batch[i].id != enricher.batch[j].id)
    && (forall i :: 0 <= i < |enricher.batch| ==>
          var c := enricher.batch[i];
          && c.id in used && c.document in used
          && (c.id in jobs ==>
                && jobs[c.id].key == JobKey(c.document, c.version, Enrich)
                && (jobs[c.id].state == Processing || (i == 0 && MayHold(enricher.stage, jobs[c.id].state)))))
  }

  ghost predicate VersionKept(c: ClaimedJob, version: Version, versions: map<VersionKey, Version>) {
    VersionKey(c.document, c.version) in versions ==>
      versions[VersionKey(c.document, c.version)].content == version.content
  }

  /** The version row read still holds the content that was read; the job read as outdated still is. */
  ghost predicate SnapshotKept(enricher: Enricher, documents: map<Uuid, Document>, versions: map<VersionKey, Version>) {
    enricher.batch != [] ==>
      var c := enricher.batch[0];
      match enricher.stage
      case HasVersion(version) => VersionKept(c, version, versions)
      case HasBoth(version, document) => VersionKept(c, version, versions)
      case Outdated =>
        c.document in documents ==> documents[c.document].deleted || documents[c.document].currentVersion != c.version
      case _ => true
  }

  /** The job held belongs to a version that has an enrichment job, so no result will write it. */
  ghost predicate BatchVersions(enricher: Enricher, documents: map<Uuid, Document>, jobIndex: map<JobKey, Uuid>) {
    forall i :: 0 <= i < |enricher.batch| ==>
      var c := enricher.batch[i];
      c.document in documents ==>
        && JobKey(c.document, c.version, Enrich) in jobIndex
        && jobIndex[JobKey(c.document, c.version, Enrich)] == c.id
  }

  // ----- content, summary and chunks -----

  ghost predicate Projected(documents: map<Uuid, Document>, versions: map<VersionKey, Version>, d: Uuid)
    requires d in documents
  {
    var k := VersionKey(d, documents[d].currentVersion);
    && k in versions
    && documents[d].content == versions[k].content
    && (documents[d].status == Completed ==> documents[d].summary == versions[k].summary)
  }

  /** A live document shows its current version row. */
  ghost predicate ProjectionAgrees(documents: map<Uuid, Document>, versions: map<VersionKey, Version>) {
    forall d :: d in documents && !documents[d].deleted ==> Projected(documents, versions, d)
  }

  /** The text chunk i of a document should have, if it should have one. */
  function ExpectedChunk(enriched: bool, content: string, i: nat): Option<string> {
    var texts := Chunker.Chunks(content);
    if enriched && i < |texts| then Some(texts[i]) else None
  }

  function ChunkAt(chunks: map<ChunkKey, string>, k: ChunkKey): Option<string> {
    if k in chunks then Some(chunks[k]) else None
  }

  /** v is the current version of a live document. */
  predicate ShowsVersion(documents: map<Uuid, Document>, d: Uuid, v: nat) {
    d in documents && !documents[d].deleted && documents[d].currentVersion == v
  }

  /** The chunks at the current version of a live document are those of its content once its enrichment
      job has succeeded and none before; older versions may have chunks, later ones have none. */
  ghost predicate IndexAgrees(documents: map<Uuid, Document>, jobs: map<Uuid, Job>, jobIndex: map<JobKey, Uuid>,
                              chunks: map<ChunkKey, string>) {
    && (forall k :: k in chunks ==> k.document in documents && k.version <= documents[k.document].currentVersion)
    && (forall k: ChunkKey :: ShowsVersion(documents, k.document, k.version) ==>
          ChunkAt(chunks, k) ==
          ExpectedChunk(Enriched(jobs, jobIndex, k.document, k.version), documents[k.document].content, k.index))
  }

  // ----- attempts -----

  ghost predicate ClaimsCounted(jobs: map<Uuid, Job>, claims: multiset<Uuid>, enrichJobs: set<Uuid>) {
    && (forall j :: j in jobs && jobs[j].key.kind == Enrich ==>
          j in enrichJobs && claims[j] == jobs[j].attempts)
    && (forall j :: j in jobs ==> jobs[j].state != Cancelled)
    && (forall j :: claims[j] <= MAX_ENRICH_ATTEMPTS)
    && (forall j :: j in claims ==> j in enrichJobs)
  }

  // ----- the outbox -----

  /** Ten failures at most; the tenth, and only it, ends in a dead letter, which is never published. */
  ghost predicate RowSafe(e: Uuid, row: OutboxEvent, sent: set<Uuid>) {
    && (row.deadLettered ==> row.lock.None? && row.attempts == LAST_ATTEMPT + 1 && !row.published)
    && (!row.deadLettered ==> row.attempts <= LAST_ATTEMPT)
    && (row.published ==> e in sent)
  }

  ghost predicate OutboxSafe(outbox: map<Uuid, OutboxEvent>, sent: set<Uuid>) {
    forall e :: e in outbox ==> RowSafe(e, outbox[e], sent)
  }

  ghost predicate TokensUsed(outbox: map<Uuid, OutboxEvent>, dispatchers: map<Uuid, Dispatcher>, used: set<Uuid>) {
    && dispatchers.Keys <= used
    && (forall e :: e in outbox && outbox[e].lock.Some? ==> outbox[e].lock.value in used)
  }

  /** As long as its token is on the row, what a dispatcher read when it claimed the row is current. */
  ghost predicate ClaimCurrent(token: Uuid, c: ClaimedEvent, outbox: map<Uuid, OutboxEvent>) {
    && c.id in outbox
    && outbox[c.id].payload == c.row.payload && outbox[c.id].eventType == c.row.eventType
    && outbox[c.id].aggregate == c.row.aggregate
    && (outbox[c.id].lock == Some(token) ==> outbox[c.id].attempts == c.row.attempts)
  }

  ghost predicate DispatcherOk(token: Uuid, dispatcher: Dispatcher, outbox: map<Uuid, OutboxEvent>, sent: set<Uuid>) {
    && (forall i, j :: 0 <= i < j < |dispatcher.batch| ==> dispatcher.batch[i].id != dispatcher.batch[j].id)
    && (forall i :: 0 <= i < |dispatcher.batch| ==> ClaimCurrent(token, dispatcher.batch[i], outbox))
    && (dispatcher.batch != [] && dispatcher.stage == Delivered ==> dispatcher.batch[0].id in sent)
  }

  ghost predicate DispatchersOk(dispatchers: map<Uuid, Dispatcher>, outbox: map<Uuid, OutboxEvent>, sent: set<Uuid>) {
    forall token :: token in dispatchers ==> DispatcherOk(token, dispatchers[token], outbox, sent)
  }

  // ----- deletion -----

  /** A document is deleted exactly when it has a cleanup job, and with its account. */
  ghost predicate DeletedIffCleanup(accounts: map<Uuid, Account>, documents: map<Uuid, Document>,
                                    cleanup: map<Uuid, CleanupJob>) {
    && cleanup.Keys <= documents.Keys
    && (forall d :: d in documents ==>
          && (documents[d].deleted <==> d in cleanup)
          && documents[d].owner in accounts
          && (accounts[documents[d].owner].deleted ==> documents[d].deleted))
  }

  // ----- all together -----

  ghost predicate RowsOk(s: System) {
    && VersionsExact(s.db.documents, s.db.versions)
    && JobsIndexed(s.db.documents, s.db.jobs, s.db.jobIndex)
    && RequestsPaired(s.requests, s.eventOf)
    && ScrapesRequested(s.db.documents, s.db.jobIndex, s.requests, s.eventOf)
    && OutboxValid(s.db.outbox, s.requests)
    && IdsUsed(s.used, s.db.documents, s.db.jobs, s.requests, s.eventOf, s.enrichJobs)
    && DeletedIffCleanup(s.db.accounts, s.db.documents, s.db.cleanup)
  }

  ghost predicate ResultsOk(s: System) {
    && InboxExact(s.db.inbox, s.requests, s.eventOf, s.applied)
    && TerminalReceived(s.db.jobs, s.eventOf, s.db.inbox)
    && ResultsAnswer(s.results, s.requests)
    && ConsumerOk(s.consumer, s.db.documents, s.requests, s.db.inbox)
    && PhaseEarned(s.db.documents, s.db.jobIndex, s.eventOf, s.db.inbox)
    && StatusBacked(s.db.documents, s.db.jobs, s.db.jobIndex)
  }

  ghost predicate EnrichmentOk(s: System) {
    && BatchHeld(s.enricher, s.used, s.db.jobs)
    && BatchVersions(s.enricher, s.db.documents, s.db.jobIndex)
    && SnapshotKept(s.enricher, s.db.documents, s.db.versions)
    && ProjectionAgrees(s.db.documents, s.db.versions)
    && IndexAgrees(s.db.documents, s.db.jobs, s.db.jobIndex, s.db.chunks)
    && ClaimsCounted(s.db.jobs, s.claims, s.enrichJobs)
  }

  ghost predicate DeliveryOk(s: System) {
    && OutboxSafe(s.db.outbox, s.sent)
    && TokensUsed(s.db.outbox, s.dispatchers, s.used)
    && DispatchersOk(s.dispatchers, s.db.outbox, s.sent)
  }

  ghost predicate Inv(s: System) {
    RowsOk(s) && ResultsOk(s) && EnrichmentOk(s) && DeliveryOk(s)
  }

  /** It says nothing about objects, uploads or the cleanup loop. */
  lemma ObjectsDoNotMatter(s: System, t: System)
    requires Inv(s)
    requires t == s.(cleaner := t.cleaner, undeleted := t.undeleted, files := t.files)
    ensures Inv(t)
  {
  }

  lemma InitiallyOk()
    ensures Inv(INITIAL)
  {
  }
}
