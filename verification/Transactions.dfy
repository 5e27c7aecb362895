/** The transactions of the API and the workers, each as a function from one committed state to
    the next. None is a rollback. The classes of Library, Outbox, ScrapeResults, Enrichment and
    Cleanup run the statements one by one and are proved to compute these functions. */
module Transactions {
  import opened Schema
  import Text
  import Chunker

  // ----- internal/library/service.go -----

  const MAX_CONTENT_BYTES := 5 * 1024 * 1024

  function ValidMemo(raw: string): Option<string> {
    var content := Text.Trim(raw);
    if content == "" || Text.ByteLength(content) > MAX_CONTENT_BYTES then None else Some(content)
  }

  /** INSERT ... ON CONFLICT (document_id, document_version, type) leaves an existing row alone. */
  predicate JobInsertable(db: Db, id: Uuid, key: JobKey) { key in db.jobIndex || id !in db.jobs }

  function InsertJob(db: Db, id: Uuid, key: JobKey): Db {
    if key in db.jobIndex then db
    else db.(jobs := db.jobs[id := Job(key, Queued, 0)], jobIndex := db.jobIndex[key := id])
  }

  /** What a request that creates a document or a version of one writes: the document row, its
      version row, its job and, for a webpage, the outbox event. */
  datatype NewVersion = NewVersion(d: Uuid, document: Document, version: Version, job: Uuid, event: Uuid) {
    function Kind(): JobKind { if document.kind == Webpage then Scrape else Enrich }
    function Key(): VersionKey { VersionKey(d, document.currentVersion) }
    function Index(): JobKey { JobKey(d, document.currentVersion, Kind()) }
    function Request(): ScrapeRequest { ScrapeRequest(job, d, document.currentVersion, document.sourceUrl) }

    /** The payload names the identifier just generated, not the row that the insert returned. */
    function Event(): OutboxEvent {
      OutboxEvent(SCRAPE_REQUESTED, d, RequestEnvelope(SCHEMA_V1, event, SCRAPE_REQUESTED, Request()),
                  0, None, false, false)
    }
  }

  /** createVersionAndJob, after the insert or update of the document row. */
  function BeginVersion(db: Db, n: NewVersion): Option<Db> {
    if n.Key() in db.versions || !JobInsertable(db, n.job, n.Index()) || (n.Kind() == Scrape && n.event in db.outbox)
    then None
    else
      Some(InsertJob(db.(
                     documents := db.documents[n.d := n.document],
                     versions := db.versions[n.Key() := n.version],
                     outbox := if n.Kind() == Scrape then db.outbox[n.event := n.Event()] else db.outbox),
                     n.job, n.Index()))
  }

  /** The whole request: its checks, then its rows. */
  function Begin(db: Db, plan: Option<NewVersion>): Option<Db> {
    if plan.None? then None else BeginVersion(db, plan.value)
  }

  function CreateMemo(db: Db, owner: Uuid, d: Uuid, job: Uuid, raw: string): Option<NewVersion> {
    var content :- ValidMemo(raw);
    if !db.ActiveAccount(owner) || d in db.documents then None
    else
      var document := Document(owner, Memo, "", content, "", EnrichPending, 1, 0, false);
      Some(NewVersion(d, document, Version("", "", content, ""), job, NIL))
  }

  function CreateWebpage(db: Db, owner: Uuid, d: Uuid, job: Uuid, event: Uuid, url: string): Option<NewVersion> {
    if url == "" || !db.ActiveAccount(owner) || d in db.documents then None
    else
      var document := Document(owner, Webpage, url, "", "", ScrapePending, 1, 0, false);
      Some(NewVersion(d, document, Version("", "", "", ""), job, event))
  }

  predicate OwnedLive(db: Db, owner: Uuid, d: Uuid, kind: DocumentKind) {
    db.Live(d) && db.documents[d].owner == owner && db.documents[d].kind == kind
  }

  function UpdateMemo(db: Db, owner: Uuid, d: Uuid, job: Uuid, raw: string): Option<NewVersion> {
    var content :- ValidMemo(raw);
    if !OwnedLive(db, owner, d, Memo) then None
    else
      var before := db.documents[d];
      var document := before.(content := content, currentVersion := before.currentVersion + 1, status := EnrichPending);
      Some(NewVersion(d, document, Version("", "", content, ""), job, NIL))
  }

  /** The new version row starts with the content of the document as it is. */
  function UpdateWebpage(db: Db, owner: Uuid, d: Uuid, job: Uuid, event: Uuid, url: string): Option<NewVersion> {
    if url == "" || !OwnedLive(db, owner, d, Webpage) then None
    else
      var before := db.documents[d];
      var document := before.(sourceUrl := url, currentVersion := before.currentVersion + 1, status := ScrapePending);
      Some(NewVersion(d, document, Version("", "", before.content, ""), job, event))
  }

  /** The part of Delete that touches these tables. The cleanup row is inserted unless one is there. */
  function Delete(db: Db, owner: Uuid, d: Uuid): Option<Db> {
    if !db.Live(d) || db.documents[d].owner != owner then None
    else Some(db.(
                  documents := db.documents[d := db.documents[d].(deleted := true)],
                  cleanup := if d in db.cleanup then db.cleanup else db.cleanup[d := CleanupJob(Queued, 0)]))
  }

  // ----- internal/filestore/service.go -----

  datatype Upload = Upload(document: Uuid, job: Uuid, key: string, size: nat, content: string, kind: DocumentKind)

  /** One file of persist, once the account is locked and the quota has been checked. */
  function PersistFile(db: Db, owner: Uuid, file: Upload): Option<NewVersion> {
    if !db.ActiveAccount(owner) || file.document in db.documents then None
    else
      var document := Document(owner, file.kind, "", file.content, "", EnrichPending, 1, file.size, false);
      Some(NewVersion(file.document, document, Version(file.key, "", file.content, ""), file.job, NIL))
  }

  /** All files of a request, or none. */
  function PersistFiles(db: Db, owner: Uuid, files: seq<Upload>): Option<Db> {
    if files == [] then Some(db)
    else
      var n := |files| - 1;
      var before :- PersistFiles(db, owner, files[..n]);
      Begin(before, PersistFile(before, owner, files[n]))
  }

  // ----- internal/identity/service.go, internal/dbgen/accounts.sql.go -----

  /** The part of Withdraw that touches these tables. */
  function Withdraw(db: Db, a: Uuid): Option<Db> {
    if !db.ActiveAccount(a) then None
    else Some(db.(
                  accounts := db.accounts[a := db.accounts[a].(deleted := true)],
                  documents := SoftDeleteOwned(db.documents, a),
                  cleanup := RequeueOwned(db.documents, db.cleanup, a)))
  }

  function SoftDeleteOwned(documents: map<Uuid, Document>, a: Uuid): map<Uuid, Document> {
    map d | d in documents ::
      if documents[d].owner == a then documents[d].(deleted := true) else documents[d]
  }

  function RequeueOwned(documents: map<Uuid, Document>, cleanup: map<Uuid, CleanupJob>, a: Uuid): map<Uuid, CleanupJob> {
    var owned := set d | d in documents && documents[d].owner == a;
    map d | d in cleanup.Keys + owned :: if d in owned then CleanupJob(Queued, 0) else cleanup[d]
  }

  // ----- internal/worker/outbox.go -----

  /** The envelope check of DispatchBatch. */
  predicate ValidRequest(id: Uuid, row: OutboxEvent) {
    && row.eventType == SCRAPE_REQUESTED
    && row.payload.schemaVersion == SCHEMA_V1
    && row.payload.eventId == id
    && row.payload.eventType == row.eventType
    && row.payload.data.job != NIL
    && row.payload.data.document == row.aggregate
    && row.payload.data.version > 0
    && row.payload.data.url != ""
  }

  predicate Claimable(row: OutboxEvent) { !row.published && !row.deadLettered }

  predicate Leased(db: Db, e: Uuid, token: Uuid) {
    e in db.outbox && db.outbox[e].lock == Some(token) && !db.outbox[e].published
  }

  function ClaimEvents(db: Db, token: Uuid, picked: set<Uuid>): Db {
    db.(outbox := map e | e in db.outbox ::
        if e in picked then db.outbox[e].(lock := Some(token)) else db.outbox[e])
  }

  /** markPublishedAndProcessing. */
  function MarkPublished(db: Db, e: Uuid, token: Uuid, request: ScrapeRequest): Option<Db> {
    if !Leased(db, e, token) then None
    else Some(db.(
                  outbox := db.outbox[e := db.outbox[e].(published := true)],
                  jobs := MarkJobProcessing(db.jobs, request.job),
                  documents := MarkDocumentProcessing(db.documents, request.document, request.version)))
  }

  function MarkJobProcessing(jobs: map<Uuid, Job>, j: Uuid): map<Uuid, Job> {
    if j in jobs && jobs[j].state in {Queued, Failed}
    then jobs[j := jobs[j].(state := Processing, attempts := jobs[j].attempts + 1)]
    else jobs
  }

  /** The statement does not test deleted_at. */
  function MarkDocumentProcessing(documents: map<Uuid, Document>, d: Uuid, v: nat): map<Uuid, Document> {
    if d in documents && documents[d].currentVersion == v && documents[d].status in {ScrapePending, ScrapeRejected}
    then documents[d := documents[d].(status := ScrapeProcessing)]
    else documents
  }

  function Reschedule(db: Db, e: Uuid, token: Uuid): Db {
    if !Leased(db, e, token) then db
    else db.(outbox := db.outbox[e := db.outbox[e].(attempts := db.outbox[e].attempts + 1, lock := None)])
  }

  function DeadLetter(db: Db, e: Uuid, token: Uuid): Db {
    if !Leased(db, e, token) then db
    else db.(outbox := db.outbox[
             e := db.outbox[e].(attempts := db.outbox[e].attempts + 1, lock := None, deadLettered := true)])
  }

  const LAST_ATTEMPT := 9

  /** What a failed send does, by the attempt count that the dispatcher read when it claimed. */
  function SendFailed(db: Db, e: Uuid, token: Uuid, attemptsRead: nat): Db {
    if attemptsRead >= LAST_ATTEMPT then DeadLetter(db, e, token) else Reschedule(db, e, token)
  }

  // ----- internal/worker/scrape_results.go -----

  predicate ValidEnvelope(m: ScrapeResult) {
    && m.schemaVersion == SCHEMA_V1 && m.eventId != NIL && m.job != NIL && m.document != NIL && m.version > 0
    && (m.eventType == SCRAPE_COMPLETED || m.eventType == SCRAPE_FAILED)
  }

  predicate MatchesJob(m: ScrapeResult, job: Job) {
    job.key.kind == Scrape && job.key.document == m.document && job.key.version == m.version
  }

  predicate TerminalDuplicate(m: ScrapeResult, job: Job) {
    || (job.state == Succeeded && m.eventType == SCRAPE_COMPLETED)
    || (job.state == Failed && m.eventType == SCRAPE_FAILED)
  }

  predicate ReadAsCurrent(m: ScrapeResult, found: Option<Document>) {
    found.Some? && found.value.currentVersion == m.version
  }

  datatype Verdict = RolledBack | Duplicate | Terminal | AppliedFailure | AppliedSuccess

  /** What the transaction of processMessage does with a message whose content has been read, given
      the job row and the document row read before it began. `enrichJob` is the identifier
      generated for the enrichment job. */
  function Judge(db: Db, m: ScrapeResult, job: Job, found: Option<Document>, enrichJob: Uuid): Verdict
    requires m.version > 0
  {
    if m.eventId in db.inbox then Duplicate
    else if TerminalDuplicate(m, job) then Terminal
    else if m.eventType == SCRAPE_FAILED then AppliedFailure
    else if m.content == "" then RolledBack
    else if VersionKey(m.document, m.version) !in db.versions then RolledBack
    else if ReadAsCurrent(m, found)
            && (!db.Current(m.document, m.version) || m.fileSize < 0
                || !JobInsertable(db, enrichJob, JobKey(m.document, m.version, Enrich))) then RolledBack
    else if found.None? && m.document !in db.cleanup then RolledBack
    else AppliedSuccess
  }

  function ApplyResult(db: Db, m: ScrapeResult, job: Job, found: Option<Document>, enrichJob: Uuid): Db
    requires m.version > 0
  {
    match Judge(db, m, job, found, enrichJob)
    case RolledBack => db
    case Duplicate => db
    case Terminal => Receive(db, m)
    case AppliedFailure => Receive(ApplyFailure(db, m, found), m)
    case AppliedSuccess => Receive(ApplySuccess(db, m, found, enrichJob), m)
  }

  /** The inbox row is registered and completed in the same transaction. */
  function Receive(db: Db, m: ScrapeResult): Db {
    db.(inbox := db.inbox[m.eventId := true])
  }

  function ApplyFailure(db: Db, m: ScrapeResult, found: Option<Document>): Db
    requires m.version > 0
  {
    db.(documents := if ReadAsCurrent(m, found) then RejectScrape(db, m.document, m.version) else db.documents,
        jobs := FailJob(db.jobs, m.job))
  }

  function RejectScrape(db: Db, d: Uuid, v: nat): map<Uuid, Document> {
    if db.Current(d, v) then db.documents[d := db.documents[d].(status := ScrapeRejected)] else db.documents
  }

  function FailJob(jobs: map<Uuid, Job>, j: Uuid): map<Uuid, Job> {
    if j in jobs && jobs[j].state in {Queued, Processing} then jobs[j := jobs[j].(state := Failed)] else jobs
  }

  predicate Completable(jobs: map<Uuid, Job>, j: Uuid) {
    j in jobs && jobs[j].state in {Queued, Processing, Succeeded}
  }

  function CompleteJob(jobs: map<Uuid, Job>, j: Uuid): map<Uuid, Job> {
    if Completable(jobs, j) then jobs[j := jobs[j].(state := Succeeded)] else jobs
  }

  /** CompleteDocumentVersion. */
  function ResultVersion(m: ScrapeResult): Version { Version(m.rawKey, m.contentKey, m.content, "") }

  function ApplySuccess(db: Db, m: ScrapeResult, found: Option<Document>, enrichJob: Uuid): Db
    requires m.version > 0
  {
    var key := VersionKey(m.document, m.version);
    var db1 := db.(versions := db.versions[key := ResultVersion(m)]);
    var db2 := if ReadAsCurrent(m, found) then StartEnrichment(db1, m, enrichJob) else db1;
    var db3 := if found.None? then Requeue(db2, m.document) else db2;
    db3.(jobs := CompleteJob(db3.jobs, m.job))
  }

  /** CompleteScrape. */
  function ScrapedDocument(document: Document, m: ScrapeResult): Document
    requires m.fileSize >= 0
  {
    document.(content := m.content, fileSize := m.fileSize, status := EnrichPending)
  }

  /** CompleteScrape and the enrichment job. */
  function StartEnrichment(db: Db, m: ScrapeResult, enrichJob: Uuid): Db
    requires m.version > 0
  {
    if m.document !in db.documents || m.fileSize < 0 then db
    else
      InsertJob(db.(documents := db.documents[m.document := ScrapedDocument(db.documents[m.document], m)]),
                enrichJob, JobKey(m.document, m.version, Enrich))
  }

  function Requeue(db: Db, d: Uuid): Db {
    if d in db.cleanup then db.(cleanup := db.cleanup[d := CleanupJob(Queued, 0)]) else db
  }

  // ----- internal/enrichment/processor.go -----

  const MAX_ENRICH_ATTEMPTS := 5

  predicate ClaimableJob(job: Job) {
    job.key.kind == Enrich && job.state in {Queued, Failed, Processing} && job.attempts < MAX_ENRICH_ATTEMPTS
  }

  function ClaimJobs(jobs: map<Uuid, Job>, picked: set<Uuid>): map<Uuid, Job> {
    map j | j in jobs ::
      if j in picked then jobs[j].(state := Processing, attempts := jobs[j].attempts + 1) else jobs[j]
  }

  /** The text to enrich: of the version row, else of the document row, else what the extractor returned. */
  function EnrichContent(version: Version, document: Document, extracted: string): string {
    var content := if version.content != "" then version.content else document.content;
    if Text.Trim(content) == "" then extracted else content
  }

  function ReplaceChunks(chunks: map<ChunkKey, string>, d: Uuid, v: nat, texts: seq<string>): map<ChunkKey, string> {
    (map k | k in chunks && !(k.document == d && k.version == v) :: chunks[k]) +
    (map i | 0 <= i < |texts| :: ChunkKey(d, v, i) := texts[i])
  }

  predicate CanCommit(db: Db, job: ClaimedJob, content: string) {
    && Text.Trim(content) != ""
    && VersionKey(job.document, job.version) in db.versions
    && db.Current(job.document, job.version)
    && Completable(db.jobs, job.id)
  }

  /** The transaction of process, given the version and document rows read before it began. The
      content columns are written only when the content is not what the version row held then. */
  function CommitEnrichment(db: Db, job: ClaimedJob, version: Version, document: Document,
                            extracted: string, summary: string): Option<Db>
  {
    var content := EnrichContent(version, document, extracted);
    if !CanCommit(db, job, content) then None
    else
      var key := VersionKey(job.document, job.version);
      var save := version.content != content;
      var v := db.versions[key];
      var d := db.documents[job.document];
      Some(db.(
           versions := db.versions[key := v.(content := if save then content else v.content, summary := summary)],
           documents := db.documents[job.document := d.(content := if save then content else d.content,
                                                        summary := summary, status := Completed)],
           chunks := ReplaceChunks(db.chunks, job.document, job.version, Chunker.Chunks(content)),
           jobs := CompleteJob(db.jobs, job.id)))
  }

  /** The statement tests the version but not the status. */
  function RejectEnrichment(db: Db, d: Uuid, v: nat): map<Uuid, Document> {
    if db.Current(d, v) then db.documents[d := db.documents[d].(status := EnrichRejected)] else db.documents
  }

  // ----- internal/worker/artifact_cleanup.go -----

  const MAX_CLEANUP_ATTEMPTS := 10

  datatype Bucket = DocumentBucket | ArtifactBucket
  datatype S3Object = S3Object(bucket: Bucket, key: string)

  function BucketOf(kind: DocumentKind): Bucket {
    if kind == Webpage then ArtifactBucket else DocumentBucket
  }

  function KeysOf(version: Version): set<string> {
    {version.rawKey, version.contentKey} - {""}
  }

  /** The objects that the version rows of a document name. */
  function ObjectsOf(documents: map<Uuid, Document>, versions: map<VersionKey, Version>, d: Uuid): set<S3Object> {
    if d !in documents then {}
    else set k, key | k in versions && k.document == d && key in KeysOf(versions[k]) ::
           S3Object(BucketOf(documents[d].kind), key)
  }

  predicate ClaimableCleanup(job: CleanupJob) {
    job.state in {Queued, Failed, Processing} && job.attempts < MAX_CLEANUP_ATTEMPTS
  }

  function ClaimCleanup(cleanup: map<Uuid, CleanupJob>, picked: set<Uuid>): map<Uuid, CleanupJob> {
    map d | d in cleanup ::
      if d in picked then CleanupJob(Processing, cleanup[d].attempts + 1) else cleanup[d]
  }

  predicate CleanupCompletable(cleanup: map<Uuid, CleanupJob>, d: Uuid) {
    d in cleanup && cleanup[d].state in {Processing, Succeeded}
  }

  function CompleteCleanup(cleanup: map<Uuid, CleanupJob>, d: Uuid): map<Uuid, CleanupJob> {
    if CleanupCompletable(cleanup, d) then cleanup[d := cleanup[d].(state := Succeeded)] else cleanup
  }

  function FailCleanup(cleanup: map<Uuid, CleanupJob>, d: Uuid): map<Uuid, CleanupJob> {
    if d in cleanup && cleanup[d].state == Processing then cleanup[d := cleanup[d].(state := Failed)] else cleanup
  }

  // ----- internal/dbgen/maintenance.sql.go -----

  /** DELETE FROM documents, with ON DELETE CASCADE. Outbox and inbox rows have no foreign key. */
  function RemoveDocuments(db: Db, gone: set<Uuid>): Db {
    db.(documents := db.documents - gone,
        versions := map k | k in db.versions && k.document !in gone :: db.versions[k],
        jobs := map j | j in db.jobs && db.jobs[j].key.document !in gone :: db.jobs[j],
        jobIndex := map k | k in db.jobIndex && k.document !in gone :: db.jobIndex[k],
        chunks := map k | k in db.chunks && k.document !in gone :: db.chunks[k],
        cleanup := db.cleanup - gone)
  }

  predicate Cleaned(db: Db, d: Uuid) { d in db.cleanup && db.cleanup[d].state == Succeeded }

  /** The guard of HardDeleteCleanedDocuments, age aside. */
  predicate HardDeletable(db: Db, d: Uuid) {
    d in db.documents && db.documents[d].deleted && Cleaned(db, d)
  }

  function OwnedDocuments(documents: map<Uuid, Document>, a: Uuid): set<Uuid> {
    set d | d in documents && documents[d].owner == a
  }

  /** The guard of HardDeleteWithdrawnAccounts, age aside. */
  predicate AccountHardDeletable(db: Db, a: Uuid) {
    && a in db.accounts && db.accounts[a].deleted
    && forall d :: d in OwnedDocuments(db.documents, a) ==> Cleaned(db, d)
  }

  function RemoveAccount(db: Db, a: Uuid): Db {
    RemoveDocuments(db, OwnedDocuments(db.documents, a)).(accounts := db.accounts - {a})
  }
}
