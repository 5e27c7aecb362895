/** The tables of db/migrations/00001_initial.sql and 00003_artifact_lifecycle.sql that the
    ingestion protocol reads or writes, as values. Timestamps are kept only where a guard
    tests them, as the boolean the guard asks for. */
module Schema {

  /** A UUID; uuid.Nil is zero and the order is the order of the textual form. */
  type Uuid = nat
  const NIL: Uuid := 0

  predicate Distinct(ids: seq<Uuid>) {
    forall i, j :: 0 <= i < j < |ids| ==> ids[i] != ids[j]
  }

  function Elements(ids: seq<Uuid>): set<Uuid> { set id | id in ids }

  lemma {:induction false} DistinctSize(ids: seq<Uuid>)
    requires Distinct(ids)
    ensures |Elements(ids)| == |ids|
  {
    if ids == [] {
      assert Elements(ids) == {};
    } else {
      var n := |ids| - 1;
      DistinctSize(ids[..n]);
      assert Elements(ids) == Elements(ids[..n]) + {ids[n]};
    }
  }

  datatype Option<+T> = None | Some(value: T) {
    predicate IsFailure() { None? }

    function PropagateFailure<U>(): Option<U>
      requires None?
    {
      None
    }

    function Extract(): T
      requires Some?
    {
      value
    }

    function GetOr(default: T): T {
      if Some? then value else default
    }
  }

  datatype DocumentKind = Webpage | Memo | Image | File
  datatype Status =
    | Draft
    | ScrapePending | ScrapeProcessing | ScrapeRejected
    | EnrichPending | EnrichProcessing | EnrichRejected
    | Completed
  datatype JobKind = Scrape | Enrich | Thumbnail
  datatype JobState = Queued | Processing | Succeeded | Failed | Cancelled

  datatype Role = User | Admin
  datatype Plan = Free | Plus
  datatype Account = Account(role: Role, plan: Plan, deleted: bool)

  datatype Document = Document(
    owner: Uuid, kind: DocumentKind, sourceUrl: string, content: string, summary: string,
    status: Status, currentVersion: nat, fileSize: nat, deleted: bool)

  /** UNIQUE (document_id, version). */
  datatype VersionKey = VersionKey(document: Uuid, version: nat)
  datatype Version = Version(rawKey: string, contentKey: string, content: string, summary: string)

  /** UNIQUE (document_id, document_version, type). */
  datatype JobKey = JobKey(document: Uuid, version: nat, kind: JobKind)
  datatype Job = Job(key: JobKey, state: JobState, attempts: nat)

  /** What the enrichment worker keeps of a row it has claimed. */
  datatype ClaimedJob = ClaimedJob(id: Uuid, document: Uuid, version: nat)

  datatype ScrapeRequest = ScrapeRequest(job: Uuid, document: Uuid, version: nat, url: string)
  datatype RequestEnvelope =
    RequestEnvelope(schemaVersion: string, eventId: Uuid, eventType: string, data: ScrapeRequest)
  datatype OutboxEvent = OutboxEvent(
    eventType: string, aggregate: Uuid, payload: RequestEnvelope, attempts: nat,
    lock: Option<Uuid>, published: bool, deadLettered: bool)

  datatype ScrapeResult = ScrapeResult(
    schemaVersion: string, eventId: Uuid, eventType: string, job: Uuid, document: Uuid, version: int,
    content: string, rawKey: string, contentKey: string, fileSize: int)

  /** UNIQUE (document_id, document_version, chunk_index). */
  datatype ChunkKey = ChunkKey(document: Uuid, version: nat, index: nat)

  /** One row per document: UNIQUE (document_id). */
  datatype CleanupJob = CleanupJob(state: JobState, attempts: nat)

  const SCHEMA_V1 := "1.0"
  const SCRAPE_REQUESTED := "document.scrape.requested.v1"
  const SCRAPE_COMPLETED := "document.scrape.completed.v1"
  const SCRAPE_FAILED := "document.scrape.failed.v1"

  /** A committed state of the database. `jobIndex` is the unique index of ingestion_jobs;
      an inbox row maps to whether it has been processed. */
  datatype Db = Db(
    accounts: map<Uuid, Account>,
    documents: map<Uuid, Document>,
    versions: map<VersionKey, Version>,
    jobs: map<Uuid, Job>,
    jobIndex: map<JobKey, Uuid>,
    outbox: map<Uuid, OutboxEvent>,
    inbox: map<Uuid, bool>,
    chunks: map<ChunkKey, string>,
    cleanup: map<Uuid, CleanupJob>)
  {
    /** id = d AND deleted_at IS NULL */
    predicate Live(d: Uuid) { d in documents && !documents[d].deleted }

    /** id = d AND current_version = v AND deleted_at IS NULL */
    predicate Current(d: Uuid, v: int) { Live(d) && documents[d].currentVersion == v }

    predicate ActiveAccount(a: Uuid) { a in accounts && !accounts[a].deleted }
  }

  const EMPTY_DB := Db(map[], map[], map[], map[], map[], map[], map[], map[], map[])
}
