/** The enrichment loop keeps the invariant: what it read may be stale, and the guards of its
    transaction, with the claim it holds on the job, make up for that. */
module ProofsEnrich {
  import opened Schema
  import opened Transactions
  import opened Protocol
  import opened Invariants
  import opened ProofsMoves
  import Chunker

  // ----- steps that change only enrichment jobs and the loop's own state -----

  /** Only state and attempts of enrichment jobs differ. */
  ghost predicate EnrichJobsMoved(jobs: map<Uuid, Job>, after: map<Uuid, Job>) {
    && after.Keys == jobs.Keys
    && forall j :: j in jobs ==>
         && after[j].key == jobs[j].key
         && (jobs[j].key.kind != Enrich ==> after[j] == jobs[j])
  }

  /** And nothing succeeds, or ceases to have succeeded, that a live document shows. */
  ghost predicate SuccessKept(documents: map<Uuid, Document>, jobs: map<Uuid, Job>, after: map<Uuid, Job>) {
    && EnrichJobsMoved(jobs, after)
    && forall j :: j in jobs ==>
         && (jobs[j].state == Succeeded ==> after[j].state == Succeeded)
         && (after[j].state == Succeeded && jobs[j].state != Succeeded ==>
               !ShowsVersion(documents, jobs[j].key.document, jobs[j].key.version))
  }

  ghost predicate LoopOk(s: System) {
    && BatchHeld(s.enricher, s.used, s.db.jobs)
    && BatchVersions(s.enricher, s.db.documents, s.db.jobIndex)
    && SnapshotKept(s.enricher, s.db.documents, s.db.versions)
    && ClaimsCounted(s.db.jobs, s.claims, s.enrichJobs)
  }

  lemma EnrichJobsMovedKeepsRows(documents: map<Uuid, Document>, jobs: map<Uuid, Job>, after: map<Uuid, Job>,
                                 jobIndex: map<JobKey, Uuid>, eventOf: map<Uuid, Uuid>, inbox: map<Uuid, bool>)
    requires JobsIndexed(documents, jobs, jobIndex) && TerminalReceived(jobs, eventOf, inbox)
    requires EnrichJobsMoved(jobs, after)
    ensures JobsIndexed(documents, after, jobIndex) && TerminalReceived(after, eventOf, inbox)
  {
  }

  lemma SuccessKeptKeeps(documents: map<Uuid, Document>, jobs: map<Uuid, Job>, after: map<Uuid, Job>,
                         jobIndex: map<JobKey, Uuid>, chunks: map<ChunkKey, string>)
    requires JobsIndexed(documents, jobs, jobIndex) && SuccessKept(documents, jobs, after)
    requires StatusBacked(documents, jobs, jobIndex) && IndexAgrees(documents, jobs, jobIndex, chunks)
    ensures StatusBacked(documents, after, jobIndex) && IndexAgrees(documents, after, jobIndex, chunks)
  {
    forall k: ChunkKey | ShowsVersion(documents, k.document, k.version)
      ensures Enriched(after, jobIndex, k.document, k.version) <==> Enriched(jobs, jobIndex, k.document, k.version)
    {
    }
  }

  lemma LoopStepKeeps(s: System, t: System)
    requires Inv(s)
    requires t == s.(db := s.db.(jobs := t.db.jobs), enricher := t.enricher, claims := t.claims)
    requires SuccessKept(s.db.documents, s.db.jobs, t.db.jobs) && LoopOk(t)
    ensures Inv(t)
  {
    EnrichJobsMovedKeepsRows(s.db.documents, s.db.jobs, t.db.jobs, s.db.jobIndex, s.eventOf, s.db.inbox);
    SuccessKeptKeeps(s.db.documents, s.db.jobs, t.db.jobs, s.db.jobIndex, s.db.chunks);
  }

  lemma StageMoves(enricher: Enricher, stage: EnrichStage, used: set<Uuid>, documents: map<Uuid, Document>,
                   jobs: map<Uuid, Job>, jobIndex: map<JobKey, Uuid>)
    requires BatchHeld(enricher, used, jobs) && BatchVersions(enricher, documents, jobIndex)
    requires enricher.stage !in {Unanswered, Rejecting} && stage !in {Unanswered, Rejecting}
    ensures BatchHeld(enricher.(stage := stage), used, jobs) && BatchVersions(enricher.(stage := stage), documents, jobIndex)
  {
  }

  lemma ReadStepKeeps(s: System, stage: EnrichStage)
    requires Inv(s) && s.enricher.stage !in {Unanswered, Rejecting} && stage !in {Unanswered, Rejecting}
    requires SnapshotKept(s.enricher.(stage := stage), s.db.documents, s.db.versions)
    ensures Inv(s.(enricher := s.enricher.(stage := stage)))
  {
    StageMoves(s.enricher, stage, s.used, s.db.documents, s.db.jobs, s.db.jobIndex);
  }

  lemma SameJobs(documents: map<Uuid, Document>, jobs: map<Uuid, Job>)
    ensures SuccessKept(documents, jobs, jobs)
  {
  }

  lemma NextJobOk(enricher: Enricher, used: set<Uuid>, documents: map<Uuid, Document>, versions: map<VersionKey, Version>,
                  jobs: map<Uuid, Job>, jobIndex: map<JobKey, Uuid>)
    requires enricher.batch != []
    requires BatchHeld(enricher, used, jobs) && BatchVersions(enricher, documents, jobIndex)
    ensures var next := Enricher(enricher.batch[1..], Fetched);
            && BatchHeld(next, used, jobs) && BatchVersions(next, documents, jobIndex)
            && SnapshotKept(next, documents, versions)
  {
  }

  /** Whether or not the reply of the commit arrives, the job in hand is done. */
  lemma RepliedOk(s: System, after: map<Uuid, Job>, answered: bool)
    requires EnricherBusy(s) && s.enricher.stage !in {Unanswered, Rejecting}
    requires BatchHeld(s.enricher, s.used, s.db.jobs) && BatchVersions(s.enricher, s.db.documents, s.db.jobIndex)
    requires after == CompleteJob(s.db.jobs, Protocol.Current(s).id)
    ensures BatchHeld(Replied(s, answered), s.used, after)
    ensures BatchVersions(Replied(s, answered), s.db.documents, s.db.jobIndex)
    ensures forall documents, versions :: SnapshotKept(Replied(s, answered), documents, versions)
  {
    BatchBehind(s.enricher, s.used, s.db.jobs, after);
    NextJobOk(s.enricher, s.used, s.db.documents, s.db.versions, s.db.jobs, s.db.jobIndex);
  }

  // ----- claim -----

  lemma TakenOk(used: set<Uuid>, documents: map<Uuid, Document>, versions: map<VersionKey, Version>, jobs: map<Uuid, Job>,
                jobIndex: map<JobKey, Uuid>, picked: seq<Uuid>)
    requires JobsIndexed(documents, jobs, jobIndex) && jobs.Keys <= used && documents.Keys <= used
    requires Distinct(picked)
    requires forall i :: 0 <= i < |picked| ==> picked[i] in jobs && ClaimableJob(jobs[picked[i]])
    ensures var enricher := Enricher(ClaimedJobs(jobs, picked), Fetched);
            && BatchHeld(enricher, used, ClaimJobs(jobs, Elements(picked)))
            && BatchVersions(enricher, documents, jobIndex) && SnapshotKept(enricher, documents, versions)
  {
  }

  lemma ClaimMoves(documents: map<Uuid, Document>, jobs: map<Uuid, Job>, picked: set<Uuid>)
    requires forall j :: j in picked ==> j in jobs && ClaimableJob(jobs[j])
    ensures SuccessKept(documents, jobs, ClaimJobs(jobs, picked))
  {
  }

  lemma ClaimCounts(jobs: map<Uuid, Job>, claims: multiset<Uuid>, enrichJobs: set<Uuid>, picked: set<Uuid>)
    requires ClaimsCounted(jobs, claims, enrichJobs)
    requires forall j :: j in picked ==> j in jobs && ClaimableJob(jobs[j])
    ensures ClaimsCounted(ClaimJobs(jobs, picked), claims + multiset(picked), enrichJobs)
  {
  }

  lemma TakeJobsKeeps(s: System, picked: seq<Uuid>)
    requires Inv(s) && CanTakeJobs(s, picked)
    ensures Inv(DoTakeJobs(s, picked))
  {
    var t := DoTakeJobs(s, picked);
    TakenOk(s.used, s.db.documents, s.db.versions, s.db.jobs, s.db.jobIndex, picked);
    ClaimMoves(s.db.documents, s.db.jobs, Elements(picked));
    ClaimCounts(s.db.jobs, s.claims, s.enrichJobs, Elements(picked));
    LoopStepKeeps(s, t);
  }

  // ----- the job in hand ends -----

  lemma HeadHeld(enricher: Enricher, used: set<Uuid>, jobs: map<Uuid, Job>)
    requires BatchHeld(enricher, used, jobs) && enricher.batch != []
    ensures var c := enricher.batch[0];
            c.id in jobs ==>
              && jobs[c.id].key == JobKey(c.document, c.version, Enrich)
              && (jobs[c.id].state == Processing || MayHold(enricher.stage, jobs[c.id].state))
  {
  }

  /** The job in hand is not the enrichment job that the status of a live document waits for. */
  lemma OutdatedMoves(documents: map<Uuid, Document>, jobs: map<Uuid, Job>, c: ClaimedJob)
    requires c.id in jobs ==> jobs[c.id].key == JobKey(c.document, c.version, Enrich)
    requires c.document in documents ==> documents[c.document].deleted || documents[c.document].currentVersion != c.version
    ensures SuccessKept(documents, jobs, CompleteJob(jobs, c.id))
  {
  }

  lemma FailureMoves(documents: map<Uuid, Document>, jobs: map<Uuid, Job>, c: ClaimedJob)
    requires c.id in jobs ==> jobs[c.id].key.kind == Enrich
    ensures SuccessKept(documents, jobs, FailJob(jobs, c.id))
  {
  }

  /** The job in hand may change; those behind it may not. */
  lemma BatchBehind(enricher: Enricher, used: set<Uuid>, jobs: map<Uuid, Job>, after: map<Uuid, Job>)
    requires enricher.batch != [] && BatchHeld(enricher, used, jobs)
    requires after.Keys == jobs.Keys && forall j :: j in jobs && j != enricher.batch[0].id ==> after[j] == jobs[j]
    ensures BatchHeld(Enricher(enricher.batch[1..], Fetched), used, after)
  {
  }

  lemma FailKeepsClaims(jobs: map<Uuid, Job>, claims: multiset<Uuid>, enrichJobs: set<Uuid>, j: Uuid)
    requires ClaimsCounted(jobs, claims, enrichJobs)
    ensures ClaimsCounted(FailJob(jobs, j), claims, enrichJobs)
    ensures ClaimsCounted(CompleteJob(jobs, j), claims, enrichJobs)
  {
  }

  lemma OutdatedLoop(s: System, answered: bool)
    requires LoopOk(s) && EnricherBusy(s) && s.enricher.stage.Outdated?
    ensures var t := DoFinishOutdated(s, answered);
            SuccessKept(s.db.documents, s.db.jobs, t.db.jobs) && LoopOk(t)
  {
    var c := Protocol.Current(s);
    HeadHeld(s.enricher, s.used, s.db.jobs);
    OutdatedMoves(s.db.documents, s.db.jobs, c);
    FailKeepsClaims(s.db.jobs, s.claims, s.enrichJobs, c.id);
    RepliedOk(s, CompleteJob(s.db.jobs, c.id), answered);
  }

  lemma FinishOutdatedKeeps(s: System, answered: bool)
    requires Inv(s) && EnricherBusy(s) && s.enricher.stage.Outdated?
    ensures Inv(DoFinishOutdated(s, answered))
  {
    OutdatedLoop(s, answered);
    LoopStepKeeps(s, DoFinishOutdated(s, answered));
  }

  lemma FailHeld(enricher: Enricher, used: set<Uuid>, documents: map<Uuid, Document>, versions: map<VersionKey, Version>,
                 jobs: map<Uuid, Job>, jobIndex: map<JobKey, Uuid>, after: map<Uuid, Job>)
    requires enricher.batch != [] && !enricher.stage.Rejecting?
    requires BatchHeld(enricher, used, jobs) && BatchVersions(enricher, documents, jobIndex)
    requires after == FailJob(jobs, enricher.batch[0].id) || after == jobs
    ensures BatchHeld(enricher.(stage := Rejecting), used, after)
    ensures BatchVersions(enricher.(stage := Rejecting), documents, jobIndex)
    ensures SnapshotKept(enricher.(stage := Rejecting), documents, versions)
  {
  }

  lemma FailLoop(s: System, stored: bool)
    requires LoopOk(s) && EnricherBusy(s) && !s.enricher.stage.Rejecting?
    ensures var t := DoFail(s, stored); SuccessKept(s.db.documents, s.db.jobs, t.db.jobs) && LoopOk(t)
  {
    var c := Protocol.Current(s);
    HeadHeld(s.enricher, s.used, s.db.jobs);
    SameJobs(s.db.documents, s.db.jobs);
    FailureMoves(s.db.documents, s.db.jobs, c);
    FailKeepsClaims(s.db.jobs, s.claims, s.enrichJobs, c.id);
    FailHeld(s.enricher, s.used, s.db.documents, s.db.versions, s.db.jobs, s.db.jobIndex, DoFail(s, stored).db.jobs);
  }

  lemma FailKeeps(s: System, stored: bool)
    requires Inv(s) && EnricherBusy(s) && !s.enricher.stage.Rejecting?
    ensures Inv(DoFail(s, stored))
  {
    FailLoop(s, stored);
    LoopStepKeeps(s, DoFail(s, stored));
  }

  // ----- rejection -----

  /** The document of a rejection is past the scrape phase, and completed only if the job in hand has
      succeeded: then its commit has reported an error. */
  lemma RejectedWasEnriching(documents: map<Uuid, Document>, jobs: map<Uuid, Job>, jobIndex: map<JobKey, Uuid>,
                             eventOf: map<Uuid, Uuid>, inbox: map<Uuid, bool>, enricher: Enricher)
    requires JobsIndexed(documents, jobs, jobIndex)
    requires PhaseEarned(documents, jobIndex, eventOf, inbox) && StatusBacked(documents, jobs, jobIndex)
    requires BatchVersions(enricher, documents, jobIndex) && enricher.batch != []
    ensures var c := enricher.batch[0];
            c.document in documents && documents[c.document].currentVersion == c.version ==>
              && documents[c.document].status in {EnrichPending, EnrichRejected, Completed}
              && (documents[c.document].status == Completed ==> c.id in jobs && jobs[c.id].state == Succeeded)
  {
  }

  lemma RejectKeeps(s: System, stored: bool)
    requires Inv(s) && EnricherBusy(s) && s.enricher.stage.Rejecting?
    ensures Inv(DoReject(s, stored))
  {
    var c := Protocol.Current(s);
    var t := s.(enricher := NextJob(s));
    SameJobs(s.db.documents, s.db.jobs);
    NextJobOk(s.enricher, s.used, s.db.documents, s.db.versions, s.db.jobs, s.db.jobIndex);
    LoopStepKeeps(s, t);
    RejectedWasEnriching(s.db.documents, s.db.jobs, s.db.jobIndex, s.eventOf, s.db.inbox, s.enricher);
    RejectionMoves(s.db, c.document, c.version);
    if stored {
      StatusMovedKeeps(t, RejectEnrichment(s.db, c.document, c.version));
    }
  }

  lemma RejectionMoves(db: Db, d: Uuid, v: nat)
    requires d in db.documents && db.documents[d].currentVersion == v ==>
               db.documents[d].status in {EnrichPending, EnrichRejected, Completed}
    ensures StatusMoved(db.documents, RejectEnrichment(db, d, v))
  {
  }

  lemma StopKeeps(s: System)
    requires Inv(s)
    ensures Inv(s.(enricher := Enricher([], Fetched)))
  {
  }

  // ----- the transaction -----

  /** The job of the document's current version, about to be completed. */
  ghost predicate JobOf(documents: map<Uuid, Document>, jobs: map<Uuid, Job>, jobIndex: map<JobKey, Uuid>, d: Uuid, j: Uuid) {
    && d in documents && !documents[d].deleted
    && Completable(jobs, j) && jobs[j].key == JobKey(d, documents[d].currentVersion, Enrich)
    && jobs[j].key in jobIndex && jobIndex[jobs[j].key] == j
  }

  /** The document has an enrichment job, so its result, if it needs one, has been applied. */
  lemma EnrichedPhase(documents: map<Uuid, Document>, jobs: map<Uuid, Job>, jobIndex: map<JobKey, Uuid>,
                      eventOf: map<Uuid, Uuid>, inbox: map<Uuid, bool>, d: Uuid, after: Document, j: Uuid)
    requires PhaseEarned(documents, jobIndex, eventOf, inbox) && JobOf(documents, jobs, jobIndex, d, j)
    requires after == documents[d].(content := after.content, summary := after.summary, status := Completed)
    ensures PhaseEarned(documents[d := after], jobIndex, eventOf, inbox)
  {
  }

  lemma EnrichedStatus(documents: map<Uuid, Document>, jobs: map<Uuid, Job>, jobIndex: map<JobKey, Uuid>,
                       d: Uuid, after: Document, j: Uuid)
    requires JobsIndexed(documents, jobs, jobIndex) && StatusBacked(documents, jobs, jobIndex)
    requires JobOf(documents, jobs, jobIndex, d, j)
    requires after == documents[d].(content := after.content, summary := after.summary, status := Completed)
    ensures StatusBacked(documents[d := after], CompleteJob(jobs, j), jobIndex)
  {
  }

  lemma EnrichedProjection(documents: map<Uuid, Document>, versions: map<VersionKey, Version>, d: Uuid,
                           after: Document, version: Version)
    requires ProjectionAgrees(documents, versions) && d in documents
    requires after.currentVersion == documents[d].currentVersion
    requires after.content == version.content && after.summary == version.summary
    ensures ProjectionAgrees(documents[d := after], versions[VersionKey(d, after.currentVersion) := version])
  {
  }

  lemma CompletedEnriched(documents: map<Uuid, Document>, jobs: map<Uuid, Job>, jobIndex: map<JobKey, Uuid>,
                          d: Uuid, j: Uuid, x: Uuid, v: nat)
    requires JobsIndexed(documents, jobs, jobIndex) && JobOf(documents, jobs, jobIndex, d, j)
    ensures Enriched(CompleteJob(jobs, j), jobIndex, x, v) <==>
            (x == d && v == documents[d].currentVersion) || Enriched(jobs, jobIndex, x, v)
  {
  }

  lemma ReplacedChunk(chunks: map<ChunkKey, string>, d: Uuid, v: nat, texts: seq<string>, k: ChunkKey)
    ensures ChunkAt(ReplaceChunks(chunks, d, v, texts), k) ==
            if k.document == d && k.version == v then if k.index < |texts| then Some(texts[k.index]) else None
            else ChunkAt(chunks, k)
  {
  }

  /** Chunks left by older versions, or by an earlier attempt, do not show. */
  lemma EnrichedIndex(documents: map<Uuid, Document>, jobs: map<Uuid, Job>, jobIndex: map<JobKey, Uuid>,
                      chunks: map<ChunkKey, string>, d: Uuid, after: Document, j: Uuid)
    requires JobsIndexed(documents, jobs, jobIndex) && IndexAgrees(documents, jobs, jobIndex, chunks)
    requires JobOf(documents, jobs, jobIndex, d, j)
    requires after.currentVersion == documents[d].currentVersion
    ensures IndexAgrees(documents[d := after], CompleteJob(jobs, j), jobIndex,
                        ReplaceChunks(chunks, d, after.currentVersion, Chunker.Chunks(after.content)))
  {
    var texts := Chunker.Chunks(after.content);
    var chunks' := ReplaceChunks(chunks, d, after.currentVersion, texts);
    var documents', jobs' := documents[d := after], CompleteJob(jobs, j);
    forall k: ChunkKey | ShowsVersion(documents', k.document, k.version)
      ensures ChunkAt(chunks', k) ==
              ExpectedChunk(Enriched(jobs', jobIndex, k.document, k.version), documents'[k.document].content, k.index)
    {
      ReplacedChunk(chunks, d, after.currentVersion, texts, k);
      CompletedEnriched(documents, jobs, jobIndex, d, j, k.document, k.version);
      assert k.document != d ==> ShowsVersion(documents, k.document, k.version);
    }
    forall k | k in chunks' ensures k.document in documents' && k.version <= documents'[k.document].currentVersion {
      ReplacedChunk(chunks, d, after.currentVersion, texts, k);
      assert k in chunks || k.document == d;
    }
  }

  /** The new rows of the document and its version, its chunks and its job. */
  function EnrichedDb(db: Db, d: Uuid, after: Document, version: Version, j: Uuid): Db {
    db.(versions := db.versions[VersionKey(d, after.currentVersion) := version],
        documents := db.documents[d := after],
        chunks := ReplaceChunks(db.chunks, d, after.currentVersion, Chunker.Chunks(after.content)),
        jobs := CompleteJob(db.jobs, j))
  }

  ghost predicate CanEnrich(s: System, after: Document, version: Version) {
    && EnricherBusy(s) && s.enricher.stage.HasBoth?
    && var c := Protocol.Current(s);
       && JobOf(s.db.documents, s.db.jobs, s.db.jobIndex, c.document, c.id)
       && c.version == after.currentVersion
       && after == s.db.documents[c.document].(content := after.content, summary := after.summary, status := Completed)
       && VersionKey(c.document, after.currentVersion) in s.db.versions
       && version == s.db.versions[VersionKey(c.document, after.currentVersion)].(
                     content := after.content, summary := after.summary)
  }

  function Finished(s: System, after: Document, version: Version, answered: bool): System
    requires EnricherBusy(s)
  {
    s.(db := EnrichedDb(s.db, Protocol.Current(s).document, after, version, Protocol.Current(s).id),
       enricher := Replied(s, answered))
  }

  lemma FinishedKeepsRows(s: System, after: Document, version: Version, answered: bool)
    requires RowsOk(s) && CanEnrich(s, after, version)
    requires TerminalReceived(s.db.jobs, s.eventOf, s.db.inbox)
    ensures var t := Finished(s, after, version, answered); RowsOk(t) && TerminalReceived(t.db.jobs, t.eventOf, t.db.inbox)
  {
    var c := Protocol.Current(s);
    var documents := s.db.documents[c.document := after];
    OneRowRewritten(s.db.documents, c.document, after);
    SameRowsKeepRows(s, documents);
    VersionRowKept(documents, s.db.versions, VersionKey(c.document, after.currentVersion), version);
    CompletedMoves(s.db.jobs, c.id);
    EnrichJobsMovedKeepsRows(documents, s.db.jobs, CompleteJob(s.db.jobs, c.id), s.db.jobIndex, s.eventOf, s.db.inbox);
  }

  lemma CompletedMoves(jobs: map<Uuid, Job>, j: Uuid)
    requires j in jobs ==> jobs[j].key.kind == Enrich
    ensures EnrichJobsMoved(jobs, CompleteJob(jobs, j))
  {
  }

  lemma FinishedKeepsResults(s: System, after: Document, version: Version, answered: bool)
    requires RowsOk(s) && ResultsOk(s) && CanEnrich(s, after, version)
    ensures ResultsOk(Finished(s, after, version, answered))
  {
    var c := Protocol.Current(s);
    FinishedKeepsRows(s, after, version, answered);
    EnrichedPhase(s.db.documents, s.db.jobs, s.db.jobIndex, s.eventOf, s.db.inbox, c.document, after, c.id);
    EnrichedStatus(s.db.documents, s.db.jobs, s.db.jobIndex, c.document, after, c.id);
    FinishedKeepsConsumer(s.consumer, s.db.documents, s.requests, s.db.inbox, c.document, after);
  }

  lemma FinishedKeepsConsumer(consumer: Consumer, documents: map<Uuid, Document>, requests: map<Uuid, ScrapeRequest>,
                              inbox: map<Uuid, bool>, d: Uuid, after: Document)
    requires ConsumerOk(consumer, documents, requests, inbox) && d in documents
    requires after.currentVersion == documents[d].currentVersion && after.deleted == documents[d].deleted
    ensures ConsumerOk(consumer, documents[d := after], requests, inbox)
  {
  }

  lemma FinishedKeepsEnrichment(s: System, after: Document, version: Version, answered: bool)
    requires JobsIndexed(s.db.documents, s.db.jobs, s.db.jobIndex)
    requires EnrichmentOk(s) && CanEnrich(s, after, version)
    ensures EnrichmentOk(Finished(s, after, version, answered))
  {
    var c := Protocol.Current(s);
    RepliedOk(s, CompleteJob(s.db.jobs, c.id), answered);
    EnrichedProjection(s.db.documents, s.db.versions, c.document, after, version);
    EnrichedIndex(s.db.documents, s.db.jobs, s.db.jobIndex, s.db.chunks, c.document, after, c.id);
    FailKeepsClaims(s.db.jobs, s.claims, s.enrichJobs, c.id);
  }

  lemma FinishedKeeps(s: System, after: Document, version: Version, answered: bool)
    requires Inv(s) && CanEnrich(s, after, version)
    ensures Inv(Finished(s, after, version, answered))
  {
    FinishedKeepsRows(s, after, version, answered);
    FinishedKeepsResults(s, after, version, answered);
    FinishedKeepsEnrichment(s, after, version, answered);
  }

  /** Whether or not the content columns are written, the rows end up with the content enriched. */
  lemma CommitShape(db: Db, c: ClaimedJob, version: Version, document: Document, extracted: string, summary: string)
    requires CommitEnrichment(db, c, version, document, extracted, summary).Some?
    requires VersionKept(c, version, db.versions) && ProjectionAgrees(db.documents, db.versions)
    ensures var content := EnrichContent(version, document, extracted);
            && c.document in db.documents && VersionKey(c.document, c.version) in db.versions
            && CommitEnrichment(db, c, version, document, extracted, summary).value ==
               EnrichedDb(db, c.document,
                          db.documents[c.document].(content := content, summary := summary, status := Completed),
                          db.versions[VersionKey(c.document, c.version)].(content := content, summary := summary), c.id)
  {
  }

  lemma CommitCanEnrich(s: System, extracted: string, summary: string)
    requires BatchHeld(s.enricher, s.used, s.db.jobs) && BatchVersions(s.enricher, s.db.documents, s.db.jobIndex)
    requires EnricherBusy(s) && s.enricher.stage.HasBoth?
    requires CanCommit(s.db, Protocol.Current(s), EnrichContent(s.enricher.stage.version, s.enricher.stage.document, extracted))
    ensures var c := Protocol.Current(s);
            var content := EnrichContent(s.enricher.stage.version, s.enricher.stage.document, extracted);
            CanEnrich(s, s.db.documents[c.document].(content := content, summary := summary, status := Completed),
                      s.db.versions[VersionKey(c.document, c.version)].(content := content, summary := summary))
  {
  }

  lemma FinishKeeps(s: System, extracted: string, summary: string, answered: bool)
    requires Inv(s) && EnricherBusy(s) && s.enricher.stage.HasBoth?
    ensures Inv(DoFinish(s, extracted, summary, answered))
  {
    var c := Protocol.Current(s);
    var version, document := s.enricher.stage.version, s.enricher.stage.document;
    if CommitEnrichment(s.db, c, version, document, extracted, summary).Some? {
      var content := EnrichContent(version, document, extracted);
      CommitShape(s.db, c, version, document, extracted, summary);
      CommitCanEnrich(s, extracted, summary);
      FinishedKeeps(s, s.db.documents[c.document].(content := content, summary := summary, status := Completed),
                    s.db.versions[VersionKey(c.document, c.version)].(content := content, summary := summary), answered);
    }
  }

  // ----- every step -----

  lemma ReadVersionKeeps(s: System)
    requires Inv(s) && EnricherBusy(s) && s.enricher.stage.Fetched?
    requires VersionKey(Protocol.Current(s).document, Protocol.Current(s).version) in s.db.versions
    ensures Inv(DoReadVersion(s))
  {
    ReadStepKeeps(s, DoReadVersion(s).enricher.stage);
  }

  lemma ReadCurrentKeeps(s: System)
    requires Inv(s) && EnricherBusy(s) && s.enricher.stage.HasVersion?
    ensures Inv(DoReadCurrent(s))
  {
    ReadStepKeeps(s, DoReadCurrent(s).enricher.stage);
  }

  lemma EnrichKeeps(s: System, step: EnrichStep, t: System)
    requires Inv(s) && EnrichNext(s, step, t)
    ensures Inv(t)
  {
    match step
    case TakeJobs(picked) => TakeJobsKeeps(s, picked);
    case ReadVersion => ReadVersionKeeps(s);
    case ReadCurrent => ReadCurrentKeeps(s);
    case FinishOutdated(answered) => FinishOutdatedKeeps(s, answered);
    case Finish(extracted, summary, answered) => FinishKeeps(s, extracted, summary, answered);
    case Fail(stored) => FailKeeps(s, stored);
    case Reject(stored) => RejectKeeps(s, stored);
    case StopEnricher => StopKeeps(s);
  }
}
