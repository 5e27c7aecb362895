/** The requests of the API keep the invariant. Every request that creates a version, of a new
    document or of an old one, is one and the same change. */
module ProofsApi {
  import opened Schema
  import opened Transactions
  import opened Protocol
  import opened Invariants
  import opened ProofsMoves

  /** What the checks of a request and its fresh identifiers establish. */
  ghost predicate CanBegin(s: System, n: NewVersion) {
    && n.job !in s.used
    && (n.Kind() == Scrape ==> n.event !in s.used && n.event != n.job && n.event != n.d && n.document.sourceUrl != "")
    && n.job != n.d
    && !n.document.deleted
    && n.document.status == (if n.Kind() == Scrape then ScrapePending else EnrichPending)
    && n.version.content == n.document.content
    && s.db.ActiveAccount(n.document.owner)
    && if n.d in s.db.documents then
         && !s.db.documents[n.d].deleted
         && n.document.currentVersion == s.db.documents[n.d].currentVersion + 1
         && n.document.kind == s.db.documents[n.d].kind && n.document.owner == s.db.documents[n.d].owner
       else n.d !in s.used && n.document.currentVersion == 1
  }

  lemma FreshOne(s: System, a: Uuid)
    requires Fresh(s, [a])
    ensures a !in s.used
  {
    assert [a][0] == a;
  }

  lemma FreshTwo(s: System, a: Uuid, b: Uuid)
    requires Fresh(s, [a, b])
    ensures a !in s.used && b !in s.used && a != b
  {
    assert [a, b][0] == a && [a, b][1] == b;
  }

  lemma FreshThree(s: System, a: Uuid, b: Uuid, c: Uuid)
    requires Fresh(s, [a, b, c])
    ensures a !in s.used && b !in s.used && c !in s.used && a != b && a != c && b != c
  {
    assert [a, b, c][0] == a && [a, b, c][1] == b && [a, b, c][2] == c;
  }

  lemma OwnerActive(s: System, d: Uuid)
    requires DeletedIffCleanup(s.db.accounts, s.db.documents, s.db.cleanup) && s.db.Live(d)
    ensures s.db.ActiveAccount(s.db.documents[d].owner)
  {
  }

  lemma CreateMemoBegins(s: System, owner: Uuid, d: Uuid, job: Uuid, raw: string)
    requires Fresh(s, [d, job])
    ensures var plan := CreateMemo(s.db, owner, d, job, raw); plan.Some? ==> CanBegin(s, plan.value)
  {
    FreshTwo(s, d, job);
  }

  lemma UpdateMemoBegins(s: System, owner: Uuid, d: Uuid, job: Uuid, raw: string)
    requires Fresh(s, [job]) && DeletedIffCleanup(s.db.accounts, s.db.documents, s.db.cleanup)
    requires s.db.documents.Keys <= s.used
    ensures var plan := UpdateMemo(s.db, owner, d, job, raw); plan.Some? ==> CanBegin(s, plan.value)
  {
    FreshOne(s, job);
    if s.db.Live(d) { OwnerActive(s, d); }
  }

  lemma CreateWebpageBegins(s: System, owner: Uuid, d: Uuid, job: Uuid, event: Uuid, url: string)
    requires Fresh(s, [d, job, event])
    ensures var plan := CreateWebpage(s.db, owner, d, job, event, url); plan.Some? ==> CanBegin(s, plan.value)
  {
    FreshThree(s, d, job, event);
  }

  lemma UpdateWebpageBegins(s: System, owner: Uuid, d: Uuid, job: Uuid, event: Uuid, url: string)
    requires Fresh(s, [job, event]) && DeletedIffCleanup(s.db.accounts, s.db.documents, s.db.cleanup)
    requires s.db.documents.Keys <= s.used
    ensures var plan := UpdateWebpage(s.db, owner, d, job, event, url); plan.Some? ==> CanBegin(s, plan.value)
  {
    FreshTwo(s, job, event);
    if s.db.Live(d) { OwnerActive(s, d); }
  }

  lemma UploadBegins(s: System, owner: Uuid, file: Upload, answered: bool)
    requires CanPersist(s, file, answered)
    ensures var plan := PersistFile(s.db, owner, file); plan.Some? ==> CanBegin(s, plan.value)
  {
    assert [file.job][0] == file.job;
  }

  /** What a request that creates a version is about to write. */
  function PlanOf(db: Db, step: ApiStep): Option<NewVersion> {
    match step
    case NewMemo(owner, d, job, content) => CreateMemo(db, owner, d, job, content)
    case EditMemo(owner, d, job, content) => UpdateMemo(db, owner, d, job, content)
    case NewWebpage(owner, d, job, event, url) => CreateWebpage(db, owner, d, job, event, url)
    case RefreshWebpage(owner, d, job, event, url) => UpdateWebpage(db, owner, d, job, event, url)
    case NewFile(owner, file, _) => PersistFile(db, owner, file)
    case _ => None
  }

  predicate Begins(step: ApiStep) {
    step.NewMemo? || step.EditMemo? || step.NewWebpage? || step.RefreshWebpage? || step.NewFile?
  }

  lemma BeginLeaves(s: System, plan: Option<NewVersion>)
    ensures var t := DoBegin(s, plan);
            && t.consumer == s.consumer && t.enricher == s.enricher && t.cleaner == s.cleaner
            && t.dispatchers == s.dispatchers && t.claims == s.claims && t.files == s.files
  {
  }

  lemma DeletionLeaves(s: System, owner: Uuid, d: Uuid)
    ensures DoRemove(s, owner, d) == s.(db := DoRemove(s, owner, d).db) && DoLeave(s, owner) == s.(db := DoLeave(s, owner).db)
  {
  }

  lemma RemovalLeaves(s: System, step: ApiStep, t: System)
    requires ApiNext(s, step, t) && (step.Remove? || step.Leave?)
    ensures t == s.(db := t.db)
  {
    DeletionLeaves(s, if step.Remove? then step.owner else step.account, if step.Remove? then step.document else NIL);
  }

  /** No request touches the state of a worker. */
  lemma ApiLeaves(s: System, step: ApiStep, t: System)
    requires ApiNext(s, step, t)
    ensures t.consumer == s.consumer && t.enricher == s.enricher && t.cleaner == s.cleaner
    ensures t.dispatchers == s.dispatchers && t.claims == s.claims
  {
    if step.Remove? || step.Leave? {
      RemovalLeaves(s, step, t);
    } else if Begins(step) {
      BeginLeaves(s, PlanOf(s.db, step));
    }
  }

  lemma PlanNext(s: System, step: ApiStep, t: System)
    requires RowsOk(s) && Begins(step) && ApiNext(s, step, t)
    ensures t == DoBegin(s, PlanOf(s.db, step)).(files := t.files)
    ensures PlanOf(s.db, step).Some? ==> CanBegin(s, PlanOf(s.db, step).value)
  {
    match step
    case NewMemo(owner, d, job, content) => CreateMemoBegins(s, owner, d, job, content);
    case EditMemo(owner, d, job, content) => UpdateMemoBegins(s, owner, d, job, content);
    case NewWebpage(owner, d, job, event, url) => CreateWebpageBegins(s, owner, d, job, event, url);
    case RefreshWebpage(owner, d, job, event, url) => UpdateWebpageBegins(s, owner, d, job, event, url);
    case NewFile(owner, file, answered) => UploadBegins(s, owner, file, answered);
  }

  // ----- a new version keeps each part of the invariant -----

  lemma VersionsGrow(documents: map<Uuid, Document>, versions: map<VersionKey, Version>,
                     d: Uuid, document: Document, version: Version)
    requires VersionsExact(documents, versions)
    requires document.currentVersion == if d in documents then documents[d].currentVersion + 1 else 1
    ensures VersionKey(d, document.currentVersion) !in versions
    ensures VersionsExact(documents[d := document], versions[VersionKey(d, document.currentVersion) := version])
  {
  }

  lemma JobsGrow(documents: map<Uuid, Document>, jobs: map<Uuid, Job>, jobIndex: map<JobKey, Uuid>,
                 d: Uuid, document: Document, job: Uuid, k: JobKey)
    requires JobsIndexed(documents, jobs, jobIndex) && job !in jobs
    requires if d in documents then
               document.currentVersion == documents[d].currentVersion + 1 && document.kind == documents[d].kind
             else document.currentVersion == 1
    requires k.document == d && k.version == document.currentVersion && k.kind in {Scrape, Enrich}
    requires k.kind == Scrape ==> document.kind == Webpage
    ensures k !in jobIndex
    ensures JobsIndexed(documents[d := document], jobs[job := Job(k, Queued, 0)], jobIndex[k := job])
  {
  }

  lemma RequestsGrow(requests: map<Uuid, ScrapeRequest>, eventOf: map<Uuid, Uuid>, e: Uuid, r: ScrapeRequest)
    requires RequestsPaired(requests, eventOf) && e !in requests && r.job !in eventOf
    requires r.job != NIL && r.document != NIL && r.version > 0 && r.url != ""
    ensures RequestsPaired(requests[e := r], eventOf[r.job := e])
  {
  }

  /** The part of ScrapesRequested that a job of another kind can change. */
  lemma ScrapesKeptByEnrich(documents: map<Uuid, Document>, jobIndex: map<JobKey, Uuid>,
                            requests: map<Uuid, ScrapeRequest>, eventOf: map<Uuid, Uuid>,
                            d: Uuid, document: Document, k: JobKey, job: Uuid)
    requires ScrapesRequested(documents, jobIndex, requests, eventOf)
    requires k.kind == Enrich && job !in eventOf && document.kind != Webpage
    requires d !in documents ==> forall e :: e in requests ==> requests[e].document != d
    requires d in documents ==> documents[d].kind == document.kind
    ensures ScrapesRequested(documents[d := document], jobIndex[k := job], requests, eventOf)
  {
  }

  lemma ScrapesGrow(documents: map<Uuid, Document>, jobIndex: map<JobKey, Uuid>,
                    requests: map<Uuid, ScrapeRequest>, eventOf: map<Uuid, Uuid>,
                    d: Uuid, document: Document, k: JobKey, e: Uuid, r: ScrapeRequest)
    requires ScrapesRequested(documents, jobIndex, requests, eventOf)
    requires k == JobKey(d, document.currentVersion, Scrape) && k !in jobIndex
    requires r.document == d && r.version == document.currentVersion
    requires e !in requests && r.job !in eventOf && forall x :: x in jobIndex ==> jobIndex[x] != r.job
    requires forall j :: j in eventOf ==> eventOf[j] in requests
    requires d !in documents ==> forall x :: x in requests ==> requests[x].document != d
    requires document.currentVersion == if d in documents then documents[d].currentVersion + 1 else 1
    requires d in documents ==> documents[d].kind == document.kind
    ensures ScrapesRequested(documents[d := document], jobIndex[k := r.job], requests[e := r], eventOf[r.job := e])
  {
  }

  lemma OutboxGrows(outbox: map<Uuid, OutboxEvent>, requests: map<Uuid, ScrapeRequest>, n: NewVersion)
    requires OutboxValid(outbox, requests) && n.event !in requests
    requires n.job != NIL && n.document.currentVersion > 0 && n.document.sourceUrl != ""
    ensures OutboxValid(outbox[n.event := n.Event()], requests[n.event := n.Request()])
  {
  }

  lemma InboxKept(inbox: map<Uuid, bool>, requests: map<Uuid, ScrapeRequest>, eventOf: map<Uuid, Uuid>,
                  applied: multiset<Uuid>, e: Uuid, r: ScrapeRequest)
    requires InboxExact(inbox, requests, eventOf, applied) && e !in requests && r.job !in eventOf
    ensures InboxExact(inbox, requests[e := r], eventOf[r.job := e], applied)
  {
  }

  /** A new version starts in the first phase of its kind. */
  lemma PhaseStarts(documents: map<Uuid, Document>, jobIndex: map<JobKey, Uuid>,
                    eventOf: map<Uuid, Uuid>, inbox: map<Uuid, bool>, d: Uuid, document: Document, k: JobKey, job: Uuid)
    requires PhaseEarned(documents, jobIndex, eventOf, inbox)
    requires k !in jobIndex && k.document == d && k.version == document.currentVersion
    requires forall x :: x in jobIndex ==> x.document in documents && x.version <= documents[x.document].currentVersion
    requires document.currentVersion == if d in documents then documents[d].currentVersion + 1 else 1
    requires d in documents ==> documents[d].kind == document.kind
    requires if document.kind == Webpage then k.kind == Scrape && document.status == ScrapePending
             else k.kind == Enrich && document.status == EnrichPending
    ensures PhaseEarned(documents[d := document], jobIndex[k := job], eventOf, inbox)
  {
  }

  lemma PhaseKeptByEvent(documents: map<Uuid, Document>, jobIndex: map<JobKey, Uuid>,
                         eventOf: map<Uuid, Uuid>, inbox: map<Uuid, bool>, j: Uuid, e: Uuid)
    requires PhaseEarned(documents, jobIndex, eventOf, inbox) && j !in eventOf
    ensures PhaseEarned(documents, jobIndex, eventOf[j := e], inbox)
  {
  }

  lemma StatusStarts(documents: map<Uuid, Document>, jobs: map<Uuid, Job>, jobIndex: map<JobKey, Uuid>,
                     d: Uuid, document: Document, k: JobKey, job: Uuid)
    requires StatusBacked(documents, jobs, jobIndex)
    requires k !in jobIndex && job !in jobs && k.document == d && k.version == document.currentVersion
    requires if k.kind == Enrich then document.status == EnrichPending else document.status == ScrapePending
    ensures StatusBacked(documents[d := document], jobs[job := Job(k, Queued, 0)], jobIndex[k := job])
  {
  }

  lemma ProjectionStarts(documents: map<Uuid, Document>, versions: map<VersionKey, Version>,
                         d: Uuid, document: Document, version: Version)
    requires ProjectionAgrees(documents, versions) && VersionKey(d, document.currentVersion) !in versions
    requires document.content == version.content && document.status != Completed
    ensures ProjectionAgrees(documents[d := document], versions[VersionKey(d, document.currentVersion) := version])
  {
  }

  lemma IndexStarts(documents: map<Uuid, Document>, jobs: map<Uuid, Job>, jobIndex: map<JobKey, Uuid>,
                    chunks: map<ChunkKey, string>, d: Uuid, document: Document, k: JobKey, job: Uuid)
    requires JobsIndexed(documents, jobs, jobIndex) && k !in jobIndex && job !in jobs
    requires IndexAgrees(documents, jobs, jobIndex, chunks)
    requires document.currentVersion == if d in documents then documents[d].currentVersion + 1 else 1
    ensures IndexAgrees(documents[d := document], jobs[job := Job(k, Queued, 0)], jobIndex[k := job], chunks)
  {
    var documents', jobs', jobIndex' := documents[d := document], jobs[job := Job(k, Queued, 0)], jobIndex[k := job];
    forall x: ChunkKey | ShowsVersion(documents', x.document, x.version)
      ensures ChunkAt(chunks, x) ==
              ExpectedChunk(Enriched(jobs', jobIndex', x.document, x.version), documents'[x.document].content, x.index)
    {
      NewJobStarts(jobs, jobIndex, k, job, x.document, x.version);
      assert x.document != d ==> ShowsVersion(documents, x.document, x.version);
    }
  }

  lemma BatchVersionsKept(enricher: Enricher, used: set<Uuid>, documents: map<Uuid, Document>, jobs: map<Uuid, Job>,
                          jobIndex: map<JobKey, Uuid>, d: Uuid, document: Document, k: JobKey, job: Uuid)
    requires BatchVersions(enricher, documents, jobIndex) && BatchHeld(enricher, used, jobs)
    requires k !in jobIndex && (d !in documents ==> d !in used)
    ensures BatchVersions(enricher, documents[d := document], jobIndex[k := job])
  {
  }

  lemma SnapshotKeptByNewVersion(enricher: Enricher, used: set<Uuid>, documents: map<Uuid, Document>,
                                 versions: map<VersionKey, Version>, jobs: map<Uuid, Job>, jobIndex: map<JobKey, Uuid>,
                                 d: Uuid, document: Document, version: Version)
    requires SnapshotKept(enricher, documents, versions)
    requires BatchHeld(enricher, used, jobs) && BatchVersions(enricher, documents, jobIndex)
    requires forall x :: x in jobIndex ==> x.document in documents && x.version <= documents[x.document].currentVersion
    requires d !in documents ==> d !in used
    requires d in documents ==> document.currentVersion == documents[d].currentVersion + 1 && !documents[d].deleted
    ensures SnapshotKept(enricher, documents[d := document], versions[VersionKey(d, document.currentVersion) := version])
  {
  }

  lemma ConsumerKeptByEvent(consumer: Consumer, documents: map<Uuid, Document>, requests: map<Uuid, ScrapeRequest>,
                            inbox: map<Uuid, bool>, e: Uuid, r: ScrapeRequest)
    requires ConsumerOk(consumer, documents, requests, inbox) && e !in requests
    ensures ConsumerOk(consumer, documents, requests[e := r], inbox)
  {
  }

  lemma ConsumerKeptByNewVersion(consumer: Consumer, documents: map<Uuid, Document>, requests: map<Uuid, ScrapeRequest>,
                                 inbox: map<Uuid, bool>, d: Uuid, document: Document)
    requires ConsumerOk(consumer, documents, requests, inbox)
    requires d !in documents ==> forall e :: e in requests ==> requests[e].document != d
    requires d in documents ==> documents[d].currentVersion <= document.currentVersion && !documents[d].deleted
    ensures ConsumerOk(consumer, documents[d := document], requests, inbox)
  {
  }

  lemma DeletionKeptByNewVersion(accounts: map<Uuid, Account>, documents: map<Uuid, Document>,
                                 cleanup: map<Uuid, CleanupJob>, d: Uuid, document: Document)
    requires DeletedIffCleanup(accounts, documents, cleanup)
    requires !document.deleted && (d in documents ==> !documents[d].deleted)
    requires document.owner in accounts && !accounts[document.owner].deleted
    ensures DeletedIffCleanup(accounts, documents[d := document], cleanup)
  {
  }

  // ----- the invariant as a whole -----

  /** Nothing in the database or the histories mentions the new version yet. */
  ghost predicate Unmet(s: System, n: NewVersion) {
    && n.Key() !in s.db.versions && n.Index() !in s.db.jobIndex && n.job !in s.db.jobs
    && n.job !in s.eventOf && n.job !in s.enrichJobs
    && (n.Kind() == Scrape ==> n.event !in s.requests && n.event !in s.db.outbox)
    && (n.d in s.db.documents || forall e :: e in s.requests ==> s.requests[e].document != n.d)
    && (forall k :: k in s.db.jobIndex ==> s.db.jobIndex[k] != n.job)
    && n.d !in s.db.cleanup && n.d != NIL && n.job != NIL && n.document.currentVersion >= 1
  }

  lemma BeginUnmet(s: System, n: NewVersion)
    requires RowsOk(s) && CanBegin(s, n)
    ensures Unmet(s, n)
  {
  }

  lemma BeginShape(s: System, n: NewVersion)
    requires Unmet(s, n)
    ensures var t := DoBegin(s, Some(n));
            t == s.(db := s.db.(documents := s.db.documents[n.d := n.document],
                                versions := s.db.versions[n.Key() := n.version],
                                jobs := s.db.jobs[n.job := Job(n.Index(), Queued, 0)],
                                jobIndex := s.db.jobIndex[n.Index() := n.job],
                                outbox := t.db.outbox),
                    used := t.used, requests := t.requests, eventOf := t.eventOf, enrichJobs := t.enrichJobs,
                    undeleted := s.undeleted + RecordedBy(n.d, n.document.kind, n.version))
    ensures var t := DoBegin(s, Some(n));
            if n.Kind() == Enrich then
              && t.db.outbox == s.db.outbox && t.requests == s.requests && t.eventOf == s.eventOf
              && t.enrichJobs == s.enrichJobs + {n.job} && t.used == s.used + {n.d, n.job}
            else
              && t.db.outbox == s.db.outbox[n.event := n.Event()]
              && t.requests == s.requests[n.event := n.Request()] && t.eventOf == s.eventOf[n.job := n.event]
              && t.enrichJobs == s.enrichJobs && t.used == s.used + {n.d, n.job, n.event}
  {
  }

  lemma BeginKeepsTables(s: System, n: NewVersion)
    requires VersionsExact(s.db.documents, s.db.versions) && JobsIndexed(s.db.documents, s.db.jobs, s.db.jobIndex)
    requires DeletedIffCleanup(s.db.accounts, s.db.documents, s.db.cleanup)
    requires Unmet(s, n) && CanBegin(s, n)
    ensures var db := DoBegin(s, Some(n)).db;
            && VersionsExact(db.documents, db.versions) && JobsIndexed(db.documents, db.jobs, db.jobIndex)
            && DeletedIffCleanup(db.accounts, db.documents, db.cleanup)
  {
    BeginShape(s, n);
    var db := s.db;
    VersionsGrow(db.documents, db.versions, n.d, n.document, n.version);
    JobsGrow(db.documents, db.jobs, db.jobIndex, n.d, n.document, n.job, n.Index());
    DeletionKeptByNewVersion(db.accounts, db.documents, db.cleanup, n.d, n.document);
  }

  lemma BeginKeepsRequests(s: System, n: NewVersion)
    requires RequestsPaired(s.requests, s.eventOf) && OutboxValid(s.db.outbox, s.requests)
    requires ScrapesRequested(s.db.documents, s.db.jobIndex, s.requests, s.eventOf)
    requires Unmet(s, n) && CanBegin(s, n)
    ensures var t := DoBegin(s, Some(n));
            && RequestsPaired(t.requests, t.eventOf) && OutboxValid(t.db.outbox, t.requests)
            && ScrapesRequested(t.db.documents, t.db.jobIndex, t.requests, t.eventOf)
  {
    BeginShape(s, n);
    var db := s.db;
    if n.Kind() == Enrich {
      ScrapesKeptByEnrich(db.documents, db.jobIndex, s.requests, s.eventOf, n.d, n.document, n.Index(), n.job);
    } else {
      RequestsGrow(s.requests, s.eventOf, n.event, n.Request());
      ScrapesGrow(db.documents, db.jobIndex, s.requests, s.eventOf, n.d, n.document, n.Index(), n.event, n.Request());
      OutboxGrows(db.outbox, s.requests, n);
    }
  }

  lemma BeginKeepsIds(s: System, n: NewVersion)
    requires IdsUsed(s.used, s.db.documents, s.db.jobs, s.requests, s.eventOf, s.enrichJobs) && Unmet(s, n)
    ensures var t := DoBegin(s, Some(n));
            IdsUsed(t.used, t.db.documents, t.db.jobs, t.requests, t.eventOf, t.enrichJobs)
  {
    BeginShape(s, n);
  }

  lemma BeginKeepsRows(s: System, n: NewVersion)
    requires RowsOk(s) && CanBegin(s, n)
    ensures RowsOk(DoBegin(s, Some(n)))
  {
    BeginUnmet(s, n);
    BeginKeepsTables(s, n);
    BeginKeepsRequests(s, n);
    BeginKeepsIds(s, n);
  }

  lemma BeginKeepsPhases(s: System, n: NewVersion)
    requires PhaseEarned(s.db.documents, s.db.jobIndex, s.eventOf, s.db.inbox)
    requires StatusBacked(s.db.documents, s.db.jobs, s.db.jobIndex)
    requires JobsIndexed(s.db.documents, s.db.jobs, s.db.jobIndex)
    requires Unmet(s, n) && CanBegin(s, n)
    ensures var t := DoBegin(s, Some(n));
            && PhaseEarned(t.db.documents, t.db.jobIndex, t.eventOf, t.db.inbox)
            && StatusBacked(t.db.documents, t.db.jobs, t.db.jobIndex)
  {
    BeginShape(s, n);
    var db := s.db;
    PhaseStarts(db.documents, db.jobIndex, s.eventOf, db.inbox, n.d, n.document, n.Index(), n.job);
    StatusStarts(db.documents, db.jobs, db.jobIndex, n.d, n.document, n.Index(), n.job);
    if n.Kind() == Scrape {
      PhaseKeptByEvent(db.documents[n.d := n.document], db.jobIndex[n.Index() := n.job], s.eventOf, db.inbox, n.job, n.event);
    }
  }

  lemma TerminalKeptByEvent(jobs: map<Uuid, Job>, eventOf: map<Uuid, Uuid>, inbox: map<Uuid, bool>, j: Uuid, e: Uuid)
    requires TerminalReceived(jobs, eventOf, inbox) && j !in eventOf
    ensures TerminalReceived(jobs, eventOf[j := e], inbox)
  {
  }

  lemma BeginKeepsInbox(s: System, n: NewVersion)
    requires InboxExact(s.db.inbox, s.requests, s.eventOf, s.applied)
    requires TerminalReceived(s.db.jobs, s.eventOf, s.db.inbox) && ResultsAnswer(s.results, s.requests)
    requires Unmet(s, n)
    ensures var t := DoBegin(s, Some(n));
            && InboxExact(t.db.inbox, t.requests, t.eventOf, t.applied)
            && TerminalReceived(t.db.jobs, t.eventOf, t.db.inbox) && ResultsAnswer(t.results, t.requests)
  {
    BeginShape(s, n);
    TerminalKeptByNewJob(s.db.jobs, s.eventOf, s.db.inbox, n.job, n.Index());
    if n.Kind() == Scrape {
      InboxKept(s.db.inbox, s.requests, s.eventOf, s.applied, n.event, n.Request());
      TerminalKeptByEvent(s.db.jobs[n.job := Job(n.Index(), Queued, 0)], s.eventOf, s.db.inbox, n.job, n.event);
    }
  }

  lemma BeginKeepsConsumer(s: System, n: NewVersion)
    requires ConsumerOk(s.consumer, s.db.documents, s.requests, s.db.inbox)
    requires Unmet(s, n) && CanBegin(s, n)
    ensures var t := DoBegin(s, Some(n)); ConsumerOk(t.consumer, t.db.documents, t.requests, t.db.inbox)
  {
    BeginShape(s, n);
    ConsumerKeptByNewVersion(s.consumer, s.db.documents, s.requests, s.db.inbox, n.d, n.document);
    if n.Kind() == Scrape {
      ConsumerKeptByEvent(s.consumer, s.db.documents[n.d := n.document], s.requests, s.db.inbox, n.event, n.Request());
    }
  }

  lemma BeginKeepsResults(s: System, n: NewVersion)
    requires RowsOk(s) && ResultsOk(s) && CanBegin(s, n)
    ensures ResultsOk(DoBegin(s, Some(n)))
  {
    BeginUnmet(s, n);
    BeginKeepsInbox(s, n);
    BeginKeepsConsumer(s, n);
    BeginKeepsPhases(s, n);
  }

  lemma BeginKeepsEnrichment(s: System, n: NewVersion)
    requires RowsOk(s) && EnrichmentOk(s) && CanBegin(s, n)
    ensures EnrichmentOk(DoBegin(s, Some(n)))
  {
    BeginUnmet(s, n);
    BeginShape(s, n);
    var t := DoBegin(s, Some(n));
    var db := s.db;
    BatchKeptByNewJob(s.enricher, s.used, t.used, db.jobs, n.job, Job(n.Index(), Queued, 0));
    BatchVersionsKept(s.enricher, s.used, db.documents, db.jobs, db.jobIndex, n.d, n.document, n.Index(), n.job);
    SnapshotKeptByNewVersion(s.enricher, s.used, db.documents, db.versions, db.jobs, db.jobIndex, n.d, n.document, n.version);
    ProjectionStarts(db.documents, db.versions, n.d, n.document, n.version);
    IndexStarts(db.documents, db.jobs, db.jobIndex, db.chunks, n.d, n.document, n.Index(), n.job);
    ClaimsKeptByNewJob(db.jobs, s.claims, s.enrichJobs, n.job, n.Index());
  }

  lemma BeginKeepsDelivery(s: System, n: NewVersion)
    requires RowsOk(s) && DeliveryOk(s) && CanBegin(s, n)
    ensures DeliveryOk(DoBegin(s, Some(n)))
  {
    BeginUnmet(s, n);
    BeginShape(s, n);
    if n.Kind() == Scrape {
      OutboxSafeGrows(s.db.outbox, s.sent, s.dispatchers, s.used, n);
    }
  }

  lemma OutboxSafeGrows(outbox: map<Uuid, OutboxEvent>, sent: set<Uuid>, dispatchers: map<Uuid, Dispatcher>,
                        used: set<Uuid>, n: NewVersion)
    requires OutboxSafe(outbox, sent) && TokensUsed(outbox, dispatchers, used) && DispatchersOk(dispatchers, outbox, sent)
    requires n.event !in outbox
    ensures OutboxSafe(outbox[n.event := n.Event()], sent)
    ensures TokensUsed(outbox[n.event := n.Event()], dispatchers, used)
    ensures DispatchersOk(dispatchers, outbox[n.event := n.Event()], sent)
  {
  }

  lemma BeginKeeps(s: System, plan: Option<NewVersion>)
    requires Inv(s) && (plan.Some? ==> CanBegin(s, plan.value))
    ensures Inv(DoBegin(s, plan))
  {
    if plan.Some? {
      BeginKeepsRows(s, plan.value);
      BeginKeepsResults(s, plan.value);
      BeginKeepsEnrichment(s, plan.value);
      BeginKeepsDelivery(s, plan.value);
    }
  }

  // ----- accounts, deletion and withdrawal -----

  lemma NewAccountKeeps(s: System, a: Uuid)
    requires Inv(s) && Fresh(s, [a])
    ensures Inv(DoNewAccount(s, a))
  {
    var t := DoNewAccount(s, a);
    AccountAdded(s.db.accounts, s.db.documents, s.db.cleanup, a);
    assert IdsUsed(t.used, t.db.documents, t.db.jobs, t.requests, t.eventOf, t.enrichJobs);
    assert BatchHeld(t.enricher, t.used, t.db.jobs);
    assert TokensUsed(t.db.outbox, t.dispatchers, t.used);
  }

  lemma AccountAdded(accounts: map<Uuid, Account>, documents: map<Uuid, Document>, cleanup: map<Uuid, CleanupJob>, a: Uuid)
    requires DeletedIffCleanup(accounts, documents, cleanup)
    ensures DeletedIffCleanup(accounts[a := Account(User, Free, false)], documents, cleanup)
  {
  }

  /** Only deletion flags differ, and only by being set. */
  ghost predicate SoftDeleted(documents: map<Uuid, Document>, after: map<Uuid, Document>) {
    && after.Keys == documents.Keys
    && forall d :: d in documents ==>
         && after[d] == documents[d].(deleted := after[d].deleted)
         && (documents[d].deleted ==> after[d].deleted)
  }

  /** Cleanup rows are only added or queued again. */
  ghost predicate OnlyQueued(cleanup: map<Uuid, CleanupJob>, after: map<Uuid, CleanupJob>) {
    && cleanup.Keys <= after.Keys
    && forall d :: d in after ==> after[d] == CleanupJob(Queued, 0) || (d in cleanup && after[d] == cleanup[d])
  }

  lemma SoftDeleteKeepsTables(s: System, after: map<Uuid, Document>)
    requires RowsOk(s) && SoftDeleted(s.db.documents, after)
    ensures VersionsExact(after, s.db.versions)
    ensures JobsIndexed(after, s.db.jobs, s.db.jobIndex)
    ensures IdsUsed(s.used, after, s.db.jobs, s.requests, s.eventOf, s.enrichJobs)
  {
  }

  lemma SoftDeleteKeepsScrapes(documents: map<Uuid, Document>, after: map<Uuid, Document>, jobIndex: map<JobKey, Uuid>,
                               requests: map<Uuid, ScrapeRequest>, eventOf: map<Uuid, Uuid>)
    requires ScrapesRequested(documents, jobIndex, requests, eventOf) && SoftDeleted(documents, after)
    ensures ScrapesRequested(after, jobIndex, requests, eventOf)
  {
  }

  lemma SoftDeleteKeepsPhases(documents: map<Uuid, Document>, after: map<Uuid, Document>, jobs: map<Uuid, Job>,
                              jobIndex: map<JobKey, Uuid>, eventOf: map<Uuid, Uuid>, inbox: map<Uuid, bool>)
    requires PhaseEarned(documents, jobIndex, eventOf, inbox) && StatusBacked(documents, jobs, jobIndex)
    requires SoftDeleted(documents, after)
    ensures PhaseEarned(after, jobIndex, eventOf, inbox) && StatusBacked(after, jobs, jobIndex)
  {
  }

  lemma SoftDeleteKeepsWorkers(s: System, after: map<Uuid, Document>)
    requires ConsumerOk(s.consumer, s.db.documents, s.requests, s.db.inbox)
    requires BatchVersions(s.enricher, s.db.documents, s.db.jobIndex)
    requires SnapshotKept(s.enricher, s.db.documents, s.db.versions)
    requires SoftDeleted(s.db.documents, after)
    ensures ConsumerOk(s.consumer, after, s.requests, s.db.inbox)
    ensures BatchVersions(s.enricher, after, s.db.jobIndex)
    ensures SnapshotKept(s.enricher, after, s.db.versions)
  {
  }

  lemma SoftDeleteKeepsContent(documents: map<Uuid, Document>, after: map<Uuid, Document>,
                               versions: map<VersionKey, Version>, jobs: map<Uuid, Job>, jobIndex: map<JobKey, Uuid>,
                               chunks: map<ChunkKey, string>)
    requires ProjectionAgrees(documents, versions) && IndexAgrees(documents, jobs, jobIndex, chunks)
    requires SoftDeleted(documents, after)
    ensures ProjectionAgrees(after, versions) && IndexAgrees(after, jobs, jobIndex, chunks)
  {
    forall d | d in after && !after[d].deleted ensures Projected(after, versions, d) {
      assert Projected(documents, versions, d);
    }
    forall k: ChunkKey | ShowsVersion(after, k.document, k.version)
      ensures ChunkAt(chunks, k) ==
              ExpectedChunk(Enriched(jobs, jobIndex, k.document, k.version), after[k.document].content, k.index)
    {
      assert ShowsVersion(documents, k.document, k.version);
    }
  }

  lemma SoftDeleteKeeps(s: System, t: System)
    requires Inv(s)
    requires t == s.(db := s.db.(accounts := t.db.accounts, documents := t.db.documents, cleanup := t.db.cleanup))
    requires SoftDeleted(s.db.documents, t.db.documents) && OnlyQueued(s.db.cleanup, t.db.cleanup)
    requires DeletedIffCleanup(t.db.accounts, t.db.documents, t.db.cleanup)
    ensures Inv(t)
  {
    SoftDeleteKeepsTables(s, t.db.documents);
    SoftDeleteKeepsScrapes(s.db.documents, t.db.documents, s.db.jobIndex, s.requests, s.eventOf);
    SoftDeleteKeepsPhases(s.db.documents, t.db.documents, s.db.jobs, s.db.jobIndex, s.eventOf, s.db.inbox);
    SoftDeleteKeepsWorkers(s, t.db.documents);
    SoftDeleteKeepsContent(s.db.documents, t.db.documents, s.db.versions, s.db.jobs, s.db.jobIndex, s.db.chunks);
  }

  lemma RemoveKeeps(s: System, owner: Uuid, d: Uuid)
    requires Inv(s)
    ensures Inv(DoRemove(s, owner, d))
  {
    if Delete(s.db, owner, d).Some? {
      RemoveShape(s.db, owner, d);
      SoftDeleteKeeps(s, DoRemove(s, owner, d));
    }
  }

  lemma RemoveShape(db: Db, owner: Uuid, d: Uuid)
    requires DeletedIffCleanup(db.accounts, db.documents, db.cleanup) && Delete(db, owner, d).Some?
    ensures var after := Delete(db, owner, d).value;
            && SoftDeleted(db.documents, after.documents) && OnlyQueued(db.cleanup, after.cleanup)
            && DeletedIffCleanup(after.accounts, after.documents, after.cleanup)
  {
  }

  lemma LeaveKeeps(s: System, a: Uuid)
    requires Inv(s)
    ensures Inv(DoLeave(s, a))
  {
    if Withdraw(s.db, a).Some? {
      LeaveShape(s.db, a);
      SoftDeleteKeeps(s, DoLeave(s, a));
    }
  }

  lemma LeaveShape(db: Db, a: Uuid)
    requires DeletedIffCleanup(db.accounts, db.documents, db.cleanup) && Withdraw(db, a).Some?
    ensures var after := Withdraw(db, a).value;
            && SoftDeleted(db.documents, after.documents) && OnlyQueued(db.cleanup, after.cleanup)
            && DeletedIffCleanup(after.accounts, after.documents, after.cleanup)
  {
  }

  lemma BegunKeeps(s: System, step: ApiStep, t: System)
    requires Inv(s) && Begins(step) && ApiNext(s, step, t)
    ensures Inv(t)
  {
    PlanNext(s, step, t);
    BeginKeeps(s, PlanOf(s.db, step));
    ObjectsDoNotMatter(DoBegin(s, PlanOf(s.db, step)), t);
  }

  lemma DeletionKeeps(s: System, step: ApiStep, t: System)
    requires Inv(s) && (step.Remove? || step.Leave?) && ApiNext(s, step, t)
    ensures Inv(t)
  {
    match step
    case Remove(owner, d) => RemoveKeeps(s, owner, d);
    case Leave(a) => LeaveKeeps(s, a);
  }

  lemma ApiKeeps(s: System, step: ApiStep, t: System)
    requires Inv(s) && ApiNext(s, step, t)
    ensures Inv(t)
  {
    if Begins(step) {
      BegunKeeps(s, step, t);
    } else if step.Remove? || step.Leave? {
      DeletionKeeps(s, step, t);
    } else if step.NewAccount? {
      NewAccountKeeps(s, step.account);
    } else {
      ObjectsDoNotMatter(s, t);
    }
  }
}
