/** The ingestion protocol as a step relation: API requests, dispatchers, the scraper, the result
    consumer, the enrichment and cleanup workers and the maintenance job interleave at the
    granularity of one statement outside a transaction or one whole transaction. What a worker
    read earlier stays in its own state and may be stale by the time it commits. Crashes,
    resends, duplicated, reordered and late results, lease expiry and deletions are all steps.
    Time is not modelled: whatever a clock could allow is allowed at any moment. */
module Protocol {
  import opened Schema
  import opened Transactions

  /** The result consumer: what it holds of the message in hand. */
  datatype Consumer =
    | Waiting
    | HasJob(m: ScrapeResult, job: Job)
    | HasDocument(m: ScrapeResult, job: Job, found: Option<Document>)

  /** The enrichment loop works on batch[0]. */
  datatype EnrichStage =
    | Fetched
    | HasVersion(version: Version)
    | HasBoth(version: Version, document: Document)
    | Outdated
    | Unanswered  // a commit has happened and reported an error
    | Rejecting
  datatype Enricher = Enricher(batch: seq<ClaimedJob>, stage: EnrichStage)

  /** The cleanup loop works on the document batch[0]. */
  datatype CleanStage = Unlisted | Deleting(todo: set<S3Object>)
  datatype Cleaner = Cleaner(batch: seq<Uuid>, stage: CleanStage)

  /** A dispatcher works on batch[0]; the rows are as they were when it claimed them. */
  datatype ClaimedEvent = ClaimedEvent(id: Uuid, row: OutboxEvent)
  datatype SendStage = Unsent | Delivered | Refused
  datatype Dispatcher = Dispatcher(batch: seq<ClaimedEvent>, stage: SendStage)

  /** An upload between the object and its rows: `failed` if its request has seen an error, and `open` while
      its transaction may still commit. */
  datatype Uploading = Uploading(key: string, failed: bool, open: bool)

  datatype Files = Files(
    uploads: map<Uuid, Uploading>,  // by the document identifier generated for the file
    owners: map<string, Uuid>,      // the key of every object ever stored, and its document identifier
    deleted: set<string>)           // of those, the keys whose object has been deleted

  /** A version row of the document names the object. */
  datatype Recorded = Recorded(document: Uuid, target: S3Object)

  datatype System = System(
    db: Db,
    sent: set<Uuid>,             // events delivered to the request queue at least once
    results: set<ScrapeResult>,  // messages the result queue may deliver, any number of times
    consumer: Consumer,
    enricher: Enricher,
    cleaner: Cleaner,
    dispatchers: map<Uuid, Dispatcher>,  // by lock token; a restarted dispatcher has a new one
    files: Files,
    // histories
    used: set<Uuid>,                     // every identifier ever generated
    requests: map<Uuid, ScrapeRequest>,  // every event ever written to the outbox
    eventOf: map<Uuid, Uuid>,            // the event of every scrape job ever created
    applied: multiset<Uuid>,             // scrape jobs, once for each result applied
    enrichJobs: set<Uuid>,               // every enrichment job ever created
    claims: multiset<Uuid>,              // enrichment jobs, once for each claim
    undeleted: set<Recorded>)            // not deleted since it was last recorded, or stored again

  const INITIAL := System(
    EMPTY_DB, {}, {}, Waiting, Enricher([], Fetched), Cleaner([], Unlisted), map[], Files(map[], map[], {}),
    {NIL}, map[], map[], multiset{}, {}, multiset{}, {})

  datatype ApiStep =
    | NewAccount(account: Uuid)
    | NewMemo(owner: Uuid, document: Uuid, job: Uuid, content: string)
    | EditMemo(owner: Uuid, document: Uuid, job: Uuid, content: string)
    | NewWebpage(owner: Uuid, document: Uuid, job: Uuid, event: Uuid, url: string)
    | RefreshWebpage(owner: Uuid, document: Uuid, job: Uuid, event: Uuid, url: string)
    | PutFile(document: Uuid, key: string)
    | NewFile(owner: Uuid, file: Upload, answered: bool)
    | FailUpload(document: Uuid, sent: bool)
    | Compensate(document: Uuid, reached: bool)
    | Remove(owner: Uuid, document: Uuid)
    | Leave(account: Uuid)

  datatype DispatchStep =
    | Start
    | Stop
    | Lease(picked: seq<Uuid>)
    | Send(delivered: bool, acknowledged: bool)
    | Publish
    | GiveUp
    | DropInvalid
    | Skip(rest: bool)

  datatype ConsumeStep =
    | Receive(m: ScrapeResult, artifact: string)
    | ReadDocument
    | Commit(job: Uuid)
    | StopConsumer

  datatype EnrichStep =
    | TakeJobs(picked: seq<Uuid>)
    | ReadVersion
    | ReadCurrent
    | FinishOutdated(answered: bool)
    | Finish(extracted: string, summary: string, answered: bool)
    | Fail(stored: bool)
    | Reject(stored: bool)
    | StopEnricher

  datatype CleanStep =
    | TakeCleanup(picked: seq<Uuid>)
    | List
    | DeleteObject(target: S3Object)
    | Complete
    | GiveUpCleanup
    | StopCleaner

  datatype Step =
    | Api(api: ApiStep)
    | Dispatch(token: Uuid, dispatch: DispatchStep)
    | Scraper(result: ScrapeResult)
    | Consume(consume: ConsumeStep)
    | Enriching(enrich: EnrichStep)
    | Cleaning(clean: CleanStep)
    | PurgeDocuments(expired: set<Uuid>)
    | PurgeAccount(account: Uuid)

  predicate Fresh(s: System, ids: seq<Uuid>) {
    && (forall i :: 0 <= i < |ids| ==> ids[i] !in s.used && ids[i] !in s.files.uploads)
    && Distinct(ids)
  }

  predicate Busy(s: System, token: Uuid, stage: SendStage) {
    token in s.dispatchers && s.dispatchers[token].batch != [] && s.dispatchers[token].stage == stage
  }

  predicate EnricherBusy(s: System) { s.enricher.batch != [] }

  predicate CleanerBusy(s: System) { s.cleaner.batch != [] }

  ghost predicate ApiNext(s: System, step: ApiStep, t: System) {
    match step
    case NewAccount(a) => Fresh(s, [a]) && t == DoNewAccount(s, a)
    case NewMemo(owner, d, job, content) =>
      Fresh(s, [d, job]) && t == DoBegin(s, CreateMemo(s.db, owner, d, job, content))
    case EditMemo(owner, d, job, content) =>
      Fresh(s, [job]) && t == DoBegin(s, UpdateMemo(s.db, owner, d, job, content))
    case NewWebpage(owner, d, job, event, url) =>
      Fresh(s, [d, job, event]) && t == DoBegin(s, CreateWebpage(s.db, owner, d, job, event, url))
    case RefreshWebpage(owner, d, job, event, url) =>
      Fresh(s, [job, event]) && t == DoBegin(s, UpdateWebpage(s.db, owner, d, job, event, url))
    case PutFile(d, key) => Fresh(s, [d]) && key != "" && key !in s.files.owners && t == DoPutFile(s, d, key)
    case NewFile(owner, file, answered) => CanPersist(s, file, answered) && t == DoNewFile(s, owner, file, answered)
    case FailUpload(d, sent) => d in s.files.uploads && s.files.uploads[d].open && t == DoFailUpload(s, d, sent)
    case Compensate(d, reached) => d in s.files.uploads && s.files.uploads[d].failed && t == DoCompensate(s, d, reached)
    case Remove(owner, d) => t == DoRemove(s, owner, d)
    case Leave(a) => t == DoLeave(s, a)
  }

  /** The transaction of an upload, at its commit. Once its request has seen an error nobody is answered. */
  predicate CanPersist(s: System, file: Upload, answered: bool) {
    && file.document in s.files.uploads && s.files.uploads[file.document].open
    && file.key == s.files.uploads[file.document].key
    && (s.files.uploads[file.document].failed ==> !answered)
    && file.document !in s.used && Fresh(s, [file.job]) && file.kind in {Image, File}
  }

  predicate CanLease(s: System, token: Uuid, picked: seq<Uuid>) {
    && token in s.dispatchers && s.dispatchers[token].batch == [] && Distinct(picked)
    && forall i :: 0 <= i < |picked| ==> picked[i] in s.db.outbox && Claimable(s.db.outbox[picked[i]])
  }

  ghost predicate DispatchNext(s: System, token: Uuid, step: DispatchStep, t: System) {
    match step
    case Start => Fresh(s, [token]) && t == DoStart(s, token)
    case Stop => token in s.dispatchers && t == s.(dispatchers := s.dispatchers - {token})
    case Lease(picked) => CanLease(s, token, picked) && t == DoLease(s, token, picked)
    case Send(delivered, acknowledged) =>
      && Busy(s, token, Unsent) && ValidRequest(Head(s, token).id, Head(s, token).row)
      && t == DoSend(s, token, delivered, acknowledged)
    case Publish => Busy(s, token, Delivered) && t == DoPublish(s, token)
    case GiveUp => Busy(s, token, Refused) && t == DoGiveUp(s, token)
    case DropInvalid =>
      && Busy(s, token, Unsent) && !ValidRequest(Head(s, token).id, Head(s, token).row)
      && t == DoDropInvalid(s, token)
    case Skip(rest) => token in s.dispatchers && s.dispatchers[token].batch != [] && t == DoSkip(s, token, rest)
  }

  /** A result carries the event and the job of a request that was delivered; the rest is arbitrary. */
  predicate Answers(s: System, m: ScrapeResult) {
    m.eventId in s.sent && m.eventId in s.requests && s.requests[m.eventId].job == m.job
  }

  ghost predicate ConsumeNext(s: System, step: ConsumeStep, t: System) {
    match step
    case Receive(m, artifact) =>
      && s.consumer.Waiting? && m in s.results && ValidEnvelope(m)
      && m.job in s.db.jobs && MatchesJob(m, s.db.jobs[m.job])
      && t == DoReceive(s, m, artifact)
    case ReadDocument => s.consumer.HasJob? && t == DoReadDocument(s)
    case Commit(job) => s.consumer.HasDocument? && Fresh(s, [job]) && t == DoCommit(s, job)
    case StopConsumer => t == s.(consumer := Waiting)
  }

  predicate CanTakeJobs(s: System, picked: seq<Uuid>) {
    && !EnricherBusy(s) && Distinct(picked)
    && forall i :: 0 <= i < |picked| ==> picked[i] in s.db.jobs && ClaimableJob(s.db.jobs[picked[i]])
  }

  ghost predicate EnrichNext(s: System, step: EnrichStep, t: System) {
    match step
    case TakeJobs(picked) => CanTakeJobs(s, picked) && t == DoTakeJobs(s, picked)
    case ReadVersion =>
      && EnricherBusy(s) && s.enricher.stage.Fetched?
      && VersionKey(Current(s).document, Current(s).version) in s.db.versions
      && t == DoReadVersion(s)
    case ReadCurrent => EnricherBusy(s) && s.enricher.stage.HasVersion? && t == DoReadCurrent(s)
    case FinishOutdated(answered) => EnricherBusy(s) && s.enricher.stage.Outdated? && t == DoFinishOutdated(s, answered)
    case Finish(extracted, summary, answered) =>
      EnricherBusy(s) && s.enricher.stage.HasBoth? && t == DoFinish(s, extracted, summary, answered)
    case Fail(stored) => EnricherBusy(s) && !s.enricher.stage.Rejecting? && t == DoFail(s, stored)
    case Reject(stored) => EnricherBusy(s) && s.enricher.stage.Rejecting? && t == DoReject(s, stored)
    case StopEnricher => t == s.(enricher := Enricher([], Fetched))
  }

  predicate CanTakeCleanup(s: System, picked: seq<Uuid>) {
    && !CleanerBusy(s) && Distinct(picked)
    && forall i :: 0 <= i < |picked| ==> picked[i] in s.db.cleanup && ClaimableCleanup(s.db.cleanup[picked[i]])
  }

  ghost predicate CleanNext(s: System, step: CleanStep, t: System) {
    match step
    case TakeCleanup(picked) => CanTakeCleanup(s, picked) && t == DoTakeCleanup(s, picked)
    case List => CleanerBusy(s) && s.cleaner.stage.Unlisted? && t == DoList(s)
    case DeleteObject(target) =>
      && CleanerBusy(s) && s.cleaner.stage.Deleting? && target in s.cleaner.stage.todo
      && t == DoDeleteObject(s, target)
    case Complete =>
      && CleanerBusy(s) && s.cleaner.stage == Deleting({}) && CleanupCompletable(s.db.cleanup, s.cleaner.batch[0])
      && t == DoComplete(s)
    case GiveUpCleanup => CleanerBusy(s) && t == DoGiveUpCleanup(s)
    case StopCleaner => t == s.(cleaner := Cleaner([], Unlisted))
  }

  ghost predicate Next(s: System, step: Step, t: System) {
    match step
    case Api(api) => ApiNext(s, api, t)
    case Dispatch(token, dispatch) => DispatchNext(s, token, dispatch, t)
    case Scraper(m) => Answers(s, m) && t == DoScrape(s, m)
    case Consume(consume) => ConsumeNext(s, consume, t)
    case Enriching(enrich) => EnrichNext(s, enrich, t)
    case Cleaning(clean) => CleanNext(s, clean, t)
    case PurgeDocuments(expired) =>
      (forall d :: d in expired ==> HardDeletable(s.db, d)) && t == s.(db := RemoveDocuments(s.db, expired))
    case PurgeAccount(a) => AccountHardDeletable(s.db, a) && t == s.(db := RemoveAccount(s.db, a))
  }

  /** A run: states linked by steps, from the empty system. */
  ghost predicate IsRun(states: seq<System>, steps: seq<Step>) {
    && |states| == |steps| + 1
    && states[0] == INITIAL
    && forall i {:trigger steps[i]} :: 0 <= i < |steps| ==> Next(states[i], steps[i], states[i + 1])
  }

  // ----- API requests -----

  function DoNewAccount(s: System, a: Uuid): System {
    s.(db := s.db.(accounts := s.db.accounts[a := Account(User, Free, false)]), used := s.used + {a})
  }

  /** The objects that a version row names for its document. */
  function RecordedBy(d: Uuid, kind: DocumentKind, version: Version): set<Recorded> {
    set key | key in KeysOf(version) :: Recorded(d, S3Object(BucketOf(kind), key))
  }

  /** A request that creates a version, if it passed its checks. */
  function DoBegin(s: System, plan: Option<NewVersion>): System {
    match plan
    case None => s
    case Some(n) =>
      match BeginVersion(s.db, n)
      case None => s
      case Some(db) =>
        var s1 := s.(db := db, undeleted := s.undeleted + RecordedBy(n.d, n.document.kind, n.version));
        if n.Kind() == Enrich then
          s1.(used := s.used + {n.d, n.job}, enrichJobs := s.enrichJobs + {n.job})
        else
          s1.(used := s.used + {n.d, n.job, n.event},
              requests := s.requests[n.event := n.Request()],
              eventOf := s.eventOf[n.job := n.event])
  }

  // ----- uploads -----

  /** The object is stored before the transaction begins. Its key contains the document identifier, so that
      it is used for no other object. */
  function DoPutFile(s: System, d: Uuid, key: string): System {
    s.(files := s.files.(uploads := s.files.uploads[d := Uploading(key, false, true)],
                         owners := s.files.owners[key := d]))
  }

  /** The transaction commits, or rolls back. Without an answer the request sees an error in either case. */
  function DoNewFile(s: System, owner: Uuid, file: Upload, answered: bool): System
    requires file.document in s.files.uploads
  {
    var plan := PersistFile(s.db, owner, file);
    var upload := s.files.uploads[file.document];
    var error := !answered || Begin(s.db, plan).None?;
    DoBegin(s, plan).(files := s.files.(
                      uploads := s.files.uploads[file.document := upload.(failed := upload.failed || error, open := false)]))
  }

  /** The request sees an error first: another file of it fails, or the transaction does. If its commit has
      been sent, it may still happen. */
  function DoFailUpload(s: System, d: Uuid, sent: bool): System
    requires d in s.files.uploads
  {
    s.(files := s.files.(uploads := s.files.uploads[d := s.files.uploads[d].(failed := true, open := sent)]))
  }

  /** A request that has seen an error deletes its objects again. */
  function DoCompensate(s: System, d: Uuid, reached: bool): System
    requires d in s.files.uploads
  {
    var key := s.files.uploads[d].key;
    if !reached then s
    else s.(undeleted := Without(s.undeleted, S3Object(DocumentBucket, key)),
            files := s.files.(deleted := s.files.deleted + {key}))
  }

  // ----- deletion and withdrawal -----

  function DoRemove(s: System, owner: Uuid, d: Uuid): System {
    match Delete(s.db, owner, d)
    case None => s
    case Some(db) => s.(db := db)
  }

  function DoLeave(s: System, a: Uuid): System {
    match Withdraw(s.db, a)
    case None => s
    case Some(db) => s.(db := db)
  }

  // ----- dispatchers -----

  function Head(s: System, token: Uuid): ClaimedEvent
    requires token in s.dispatchers && s.dispatchers[token].batch != []
  {
    s.dispatchers[token].batch[0]
  }

  function NextEvent(dispatcher: Dispatcher): Dispatcher
    requires dispatcher.batch != []
  {
    Dispatcher(dispatcher.batch[1..], Unsent)
  }

  function DoStart(s: System, token: Uuid): System {
    s.(dispatchers := s.dispatchers[token := Dispatcher([], Unsent)], used := s.used + {token})
  }

  function ClaimedEvents(outbox: map<Uuid, OutboxEvent>, picked: seq<Uuid>): seq<ClaimedEvent>
    requires forall i :: 0 <= i < |picked| ==> picked[i] in outbox
  {
    seq(|picked|, i requires 0 <= i < |picked| => ClaimedEvent(picked[i], outbox[picked[i]]))
  }

  function DoLease(s: System, token: Uuid, picked: seq<Uuid>): System
    requires forall i :: 0 <= i < |picked| ==> picked[i] in s.db.outbox
  {
    s.(db := ClaimEvents(s.db, token, Elements(picked)),
       dispatchers := s.dispatchers[token := Dispatcher(ClaimedEvents(s.db.outbox, picked), Unsent)])
  }

  /** The queue may have taken a message although the call reported an error. */
  function DoSend(s: System, token: Uuid, delivered: bool, acknowledged: bool): System
    requires token in s.dispatchers && s.dispatchers[token].batch != []
  {
    var stage := if delivered && acknowledged then Delivered else Refused;
    s.(sent := if delivered then s.sent + {Head(s, token).id} else s.sent,
       dispatchers := s.dispatchers[token := s.dispatchers[token].(stage := stage)])
  }

  /** An error here ends the batch. */
  function DoPublish(s: System, token: Uuid): System
    requires token in s.dispatchers && s.dispatchers[token].batch != []
  {
    var claimed := Head(s, token);
    match MarkPublished(s.db, claimed.id, token, claimed.row.payload.data)
    case None => s.(dispatchers := s.dispatchers[token := Dispatcher([], Unsent)])
    case Some(db) => s.(db := db, dispatchers := s.dispatchers[token := NextEvent(s.dispatchers[token])])
  }

  function DoGiveUp(s: System, token: Uuid): System
    requires token in s.dispatchers && s.dispatchers[token].batch != []
  {
    var claimed := Head(s, token);
    s.(db := SendFailed(s.db, claimed.id, token, claimed.row.attempts),
       dispatchers := s.dispatchers[token := NextEvent(s.dispatchers[token])])
  }

  function DoDropInvalid(s: System, token: Uuid): System
    requires token in s.dispatchers && s.dispatchers[token].batch != []
  {
    s.(db := DeadLetter(s.db, Head(s, token).id, token),
       dispatchers := s.dispatchers[token := NextEvent(s.dispatchers[token])])
  }

  /** A database error: the dispatcher goes on to the next event, or ends the batch. */
  function DoSkip(s: System, token: Uuid, rest: bool): System
    requires token in s.dispatchers && s.dispatchers[token].batch != []
  {
    var next := if rest then Dispatcher([], Unsent) else NextEvent(s.dispatchers[token]);
    s.(dispatchers := s.dispatchers[token := next])
  }

  // ----- the scraper -----

  /** The objects that a message names are stored before it is sent. The keys come from document, version
      and job, so a request that is delivered again has the objects of its first result stored again:
      version rows may name them already. */
  function StoredAgain(db: Db, m: ScrapeResult): set<Recorded> {
    set k, key | k in db.versions && k.document in db.documents && db.documents[k.document].kind == Webpage
                 && key in KeysOf(db.versions[k]) && key in {m.rawKey, m.contentKey} ::
      Recorded(k.document, S3Object(ArtifactBucket, key))
  }

  function DoScrape(s: System, m: ScrapeResult): System {
    s.(results := s.results + {m},
       undeleted := s.undeleted + StoredAgain(s.db, m))
  }

  // ----- the result consumer -----

  /** The content of a completed result may be left to an artifact, which is read first. */
  function WithContent(m: ScrapeResult, artifact: string): ScrapeResult {
    if m.eventType == SCRAPE_COMPLETED && m.content == "" && m.contentKey != "" then m.(content := artifact) else m
  }

  function DoReceive(s: System, m: ScrapeResult, artifact: string): System
    requires m.job in s.db.jobs
  {
    s.(consumer := HasJob(WithContent(m, artifact), s.db.jobs[m.job]))
  }

  function FindLive(db: Db, d: Uuid): Option<Document> {
    if db.Live(d) then Some(db.documents[d]) else None
  }

  function DoReadDocument(s: System): System
    requires s.consumer.HasJob?
  {
    s.(consumer := HasDocument(s.consumer.m, s.consumer.job, FindLive(s.db, s.consumer.m.document)))
  }

  /** The objects that a successful result records for its document. */
  function NewlyRecorded(db: Db, m: ScrapeResult): set<Recorded> {
    if m.document !in db.documents then {}
    else RecordedBy(m.document, db.documents[m.document].kind, ResultVersion(m))
  }

  /** The document was read live at a later version and has been deleted since: the result is
      recorded and nothing is queued to clean up after it. */
  predicate Raced(db: Db, m: ScrapeResult, found: Option<Document>) {
    && found.Some? && found.value.currentVersion != m.version
    && m.document in db.documents && db.documents[m.document].deleted
  }

  function DoCommit(s: System, job: Uuid): System
    requires s.consumer.HasDocument?
  {
    var m, found := s.consumer.m, s.consumer.found;
    if m.version <= 0 then s
    else
      var verdict := Judge(s.db, m, s.consumer.job, found, job);
      var db := ApplyResult(s.db, m, s.consumer.job, found, job);
      var s1 := s.(db := db, consumer := Waiting, used := s.used + {job});
      match verdict
      case AppliedFailure => s1.(applied := s.applied + multiset{m.job})
      case AppliedSuccess =>
        s1.(applied := s.applied + multiset{m.job},
            enrichJobs := if ReadAsCurrent(m, found) then s.enrichJobs + {job} else s.enrichJobs,
            undeleted := s.undeleted + NewlyRecorded(s.db, m))
      case _ => s1
  }

  // ----- the enrichment loop -----

  function Current(s: System): ClaimedJob
    requires EnricherBusy(s)
  {
    s.enricher.batch[0]
  }

  function NextJob(s: System): Enricher
    requires EnricherBusy(s)
  {
    Enricher(s.enricher.batch[1..], Fetched)
  }

  function ClaimedJobs(jobs: map<Uuid, Job>, picked: seq<Uuid>): seq<ClaimedJob>
    requires forall i :: 0 <= i < |picked| ==> picked[i] in jobs
  {
    seq(|picked|, i requires 0 <= i < |picked| =>
        var key := jobs[picked[i]].key; ClaimedJob(picked[i], key.document, key.version))
  }

  function DoTakeJobs(s: System, picked: seq<Uuid>): System
    requires forall i :: 0 <= i < |picked| ==> picked[i] in s.db.jobs
  {
    s.(db := s.db.(jobs := ClaimJobs(s.db.jobs, Elements(picked))),
       enricher := Enricher(ClaimedJobs(s.db.jobs, picked), Fetched),
       claims := s.claims + multiset(Elements(picked)))
  }

  function DoReadVersion(s: System): System
    requires EnricherBusy(s) && VersionKey(Current(s).document, Current(s).version) in s.db.versions
  {
    s.(enricher := s.enricher.(stage :=
       HasVersion(s.db.versions[VersionKey(Current(s).document, Current(s).version)])))
  }

  /** A document that is gone, deleted or at another version makes the job outdated. */
  function DoReadCurrent(s: System): System
    requires EnricherBusy(s) && s.enricher.stage.HasVersion?
  {
    s.(enricher := s.enricher.(stage :=
       match FindLive(s.db, Current(s).document)
       case None => Outdated
       case Some(document) =>
         if document.currentVersion != Current(s).version then Outdated
         else HasBoth(s.enricher.stage.version, document)))
  }

  /** The commit has happened. If its reply is lost, what follows is the handling of an error. */
  function Replied(s: System, answered: bool): Enricher
    requires EnricherBusy(s)
  {
    if answered then NextJob(s) else s.enricher.(stage := Unanswered)
  }

  function DoFinishOutdated(s: System, answered: bool): System
    requires EnricherBusy(s)
  {
    s.(db := s.db.(jobs := CompleteJob(s.db.jobs, Current(s).id)), enricher := Replied(s, answered))
  }

  function DoFinish(s: System, extracted: string, summary: string, answered: bool): System
    requires EnricherBusy(s) && s.enricher.stage.HasBoth?
  {
    match CommitEnrichment(s.db, Current(s), s.enricher.stage.version, s.enricher.stage.document,
                                        extracted, summary)
    case None => s
    case Some(db) => s.(db := db, enricher := Replied(s, answered))
  }

  /** Any error of process: a read, the extractor, the AI provider, a guard of the transaction, or
      a commit, which may have happened all the same.
      The statement that records it may fail as well; the document is rejected in any case. */
  function DoFail(s: System, stored: bool): System
    requires EnricherBusy(s)
  {
    s.(db := if stored then s.db.(jobs := FailJob(s.db.jobs, Current(s).id)) else s.db,
       enricher := s.enricher.(stage := Rejecting))
  }

  function DoReject(s: System, stored: bool): System
    requires EnricherBusy(s)
  {
    s.(db := if stored
             then s.db.(documents := RejectEnrichment(s.db, Current(s).document, Current(s).version)) else s.db,
       enricher := NextJob(s))
  }

  // ----- the cleanup loop -----

  function DoTakeCleanup(s: System, picked: seq<Uuid>): System {
    s.(db := s.db.(cleanup := ClaimCleanup(s.db.cleanup, Elements(picked))),
       cleaner := Cleaner(picked, Unlisted))
  }

  function DoList(s: System): System
    requires CleanerBusy(s)
  {
    s.(cleaner := s.cleaner.(stage := Deleting(ObjectsOf(s.db.documents, s.db.versions, s.cleaner.batch[0]))))
  }

  function Without(recorded: set<Recorded>, target: S3Object): set<Recorded> {
    set r | r in recorded && r.target != target
  }

  function DoDeleteObject(s: System, target: S3Object): System
    requires s.cleaner.stage.Deleting?
  {
    s.(cleaner := s.cleaner.(stage := Deleting(s.cleaner.stage.todo - {target})),
       undeleted := Without(s.undeleted, target),
       files := if target.bucket.DocumentBucket? then s.files.(deleted := s.files.deleted + {target.key}) else s.files)
  }

  function DoComplete(s: System): System
    requires CleanerBusy(s)
  {
    s.(db := s.db.(cleanup := CompleteCleanup(s.db.cleanup, s.cleaner.batch[0])),
       cleaner := Cleaner(s.cleaner.batch[1..], Unlisted))
  }

  /** A failed listing, deletion or completion. */
  function DoGiveUpCleanup(s: System): System
    requires CleanerBusy(s)
  {
    s.(db := s.db.(cleanup := FailCleanup(s.db.cleanup, s.cleaner.batch[0])),
       cleaner := Cleaner(s.cleaner.batch[1..], Unlisted))
  }
}
