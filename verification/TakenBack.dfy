/** The one way in which a completed document is taken back: the commit of its enrichment reports an
    error although it has happened, and the loop then rejects the document, whose job has succeeded. */
module TakenBack {
  import opened Schema
  import opened Transactions
  import opened Protocol
  import opened Invariants
  import opened Runs
  import opened Progress
  import ProofsApi
  import ProofsConsume
  import ProofsDispatch
  import ProofsEnrich
  import ProofsMoves

  /** The loop stores a rejection for a job that has succeeded. Its document is live at that version. */
  ghost predicate TakesBack(s: System, step: Step, d: Uuid) {
    && step == Enriching(Reject(true)) && EnricherBusy(s)
    && var c := Protocol.Current(s);
       c.document == d && s.db.Current(d, c.version) && c.id in s.db.jobs && s.db.jobs[c.id].state == Succeeded
  }

  ghost predicate DoneAt(db: Db, d: Uuid) {
    d in db.documents && Enriched(db.jobs, db.jobIndex, d, db.documents[d].currentVersion)
  }

  /** A live document is rejected although its enrichment job has succeeded. */
  ghost predicate IsTakenBack(db: Db, d: Uuid) {
    db.Live(d) && db.documents[d].status == EnrichRejected && DoneAt(db, d)
  }

  // ----- steps of others -----

  predicate SameVersion(documents: map<Uuid, Document>, after: map<Uuid, Document>, d: Uuid) {
    d in documents && d in after && after[d].currentVersion == documents[d].currentVersion
  }

  /** No document is completed, and none is taken back. */
  ghost predicate QuietDocuments(documents: map<Uuid, Document>, after: map<Uuid, Document>) {
    forall d :: SameVersion(documents, after, d) ==> (after[d].status == Completed <==> documents[d].status == Completed)
  }

  /** No enrichment job succeeds. */
  ghost predicate QuietJobs(jobs: map<Uuid, Job>, after: map<Uuid, Job>) {
    forall j :: j in after && after[j].key.kind == Enrich && after[j].state == Succeeded ==>
      j in jobs && jobs[j].key == after[j].key && jobs[j].state == Succeeded
  }

  ghost predicate Quiet(s: System, t: System) {
    QuietDocuments(s.db.documents, t.db.documents) && QuietJobs(s.db.jobs, t.db.jobs)
  }

  lemma BeginIsQuiet(s: System, n: NewVersion)
    requires RowsOk(s) && ProofsApi.CanBegin(s, n)
    ensures Quiet(s, DoBegin(s, Some(n)))
  {
    ProofsApi.BeginUnmet(s, n);
    ProofsApi.BeginShape(s, n);
    NewVersionIsQuiet(s.db.documents, n.d, n.document);
    QueuedIsQuiet(s.db.jobs, n.job, n.Index());
  }

  lemma NewVersionIsQuiet(documents: map<Uuid, Document>, d: Uuid, document: Document)
    requires d in documents ==> document.currentVersion != documents[d].currentVersion
    ensures QuietDocuments(documents, documents[d := document])
  {
  }

  lemma QueuedIsQuiet(jobs: map<Uuid, Job>, job: Uuid, k: JobKey)
    ensures QuietJobs(jobs, jobs[job := Job(k, Queued, 0)])
  {
  }

  lemma PlanIsQuiet(s: System, plan: Option<NewVersion>)
    requires RowsOk(s) && (plan.Some? ==> ProofsApi.CanBegin(s, plan.value))
    ensures Quiet(s, DoBegin(s, plan))
  {
    if plan.Some? {
      BeginIsQuiet(s, plan.value);
    }
  }

  lemma RemoveIsQuiet(s: System, owner: Uuid, d: Uuid)
    ensures Quiet(s, DoRemove(s, owner, d))
  {
  }

  lemma LeaveIsQuiet(s: System, a: Uuid)
    ensures Quiet(s, DoLeave(s, a))
  {
  }

  lemma ApiIsQuiet(s: System, step: ApiStep, t: System)
    requires RowsOk(s) && ApiNext(s, step, t)
    ensures Quiet(s, t)
  {
    match step
    case Remove(owner, d) => RemoveIsQuiet(s, owner, d);
    case Leave(a) => LeaveIsQuiet(s, a);
    case NewAccount(a) => SameIsQuiet(s, t);
    case PutFile(_, _) => SameIsQuiet(s, t);
    case FailUpload(_, _) => SameIsQuiet(s, t);
    case Compensate(_, _) => SameIsQuiet(s, t);
    case _ =>
      ProofsApi.PlanNext(s, step, t);
      PlanIsQuiet(s, ProofsApi.PlanOf(s.db, step));
  }

  lemma MarkIsQuiet(documents: map<Uuid, Document>, d: Uuid, v: nat, jobs: map<Uuid, Job>, j: Uuid)
    ensures QuietDocuments(documents, MarkDocumentProcessing(documents, d, v))
    ensures QuietJobs(jobs, MarkJobProcessing(jobs, j))
  {
  }

  lemma SameIsQuiet(s: System, t: System)
    requires t.db.documents == s.db.documents && t.db.jobs == s.db.jobs
    ensures Quiet(s, t)
  {
  }

  lemma DispatchIsQuiet(s: System, token: Uuid, step: DispatchStep, t: System)
    requires DispatchNext(s, token, step, t)
    ensures Quiet(s, t)
  {
    match step
    case Publish =>
      var request := Head(s, token).row.payload.data;
      MarkIsQuiet(s.db.documents, request.document, request.version, s.db.jobs, request.job);
      SameIsQuiet(s, s);
    case _ => SameIsQuiet(s, t);
  }

  /** Only the scrape job of the result ends. */
  lemma ScrapeJobEnds(s: System, e: Uuid)
    requires JobsIndexed(s.db.documents, s.db.jobs, s.db.jobIndex)
    requires ScrapesRequested(s.db.documents, s.db.jobIndex, s.requests, s.eventOf) && RequestsPaired(s.requests, s.eventOf)
    requires e in s.requests
    ensures var j := s.requests[e].job;
            QuietJobs(s.db.jobs, FailJob(s.db.jobs, j)) && QuietJobs(s.db.jobs, CompleteJob(s.db.jobs, j))
  {
    var j := s.requests[e].job;
    assert j in s.eventOf;
    if j in s.db.jobs {
      assert s.db.jobIndex[s.db.jobs[j].key] == j;
    }
    EndIsQuiet(s.db.jobs, j);
  }

  lemma EndIsQuiet(jobs: map<Uuid, Job>, j: Uuid)
    requires j in jobs ==> jobs[j].key.kind != Enrich
    ensures QuietJobs(jobs, FailJob(jobs, j)) && QuietJobs(jobs, CompleteJob(jobs, j))
  {
  }

  lemma NewJobIsQuiet(jobs: map<Uuid, Job>, after: map<Uuid, Job>, job: Uuid, k: JobKey, j: Uuid)
    requires QuietJobs(jobs, CompleteJob(jobs, j)) && job !in jobs && job != j
    ensures QuietJobs(jobs, CompleteJob(jobs[job := Job(k, Queued, 0)], j))
  {
  }

  lemma OneDocumentIsQuiet(documents: map<Uuid, Document>, d: Uuid, after: Document)
    requires d in documents && documents[d].status != Completed && after.status != Completed
    ensures QuietDocuments(documents, documents[d := after])
  {
  }

  lemma FailureIsQuiet(s: System, job: Uuid)
    requires RowsOk(s) && PhaseEarned(s.db.documents, s.db.jobIndex, s.eventOf, s.db.inbox)
    requires ConsumerOk(s.consumer, s.db.documents, s.requests, s.db.inbox)
    requires s.consumer.HasDocument? && s.consumer.m.version > 0
    requires Judge(s.db, s.consumer.m, s.consumer.job, s.consumer.found, job) == AppliedFailure
    ensures Quiet(s, DoCommit(s, job))
  {
    var m := s.consumer.m;
    ProofsConsume.FailedResultMoves(s, job);
    ProofsConsume.FailureShape(s, job);
    ScrapeJobEnds(s, m.eventId);
    RejectIsQuiet(s, m.eventId);
    SameIsQuiet(s, s);
  }

  lemma RejectIsQuiet(s: System, e: Uuid)
    requires RowsOk(s) && PhaseEarned(s.db.documents, s.db.jobIndex, s.eventOf, s.db.inbox)
    requires e in s.requests && e !in s.db.inbox
    ensures QuietDocuments(s.db.documents, RejectScrape(s.db, s.requests[e].document, s.requests[e].version))
  {
    var d := s.requests[e].document;
    if s.db.Current(d, s.requests[e].version) {
      ProofsConsume.NotYetApplied(s, e);
      OneDocumentIsQuiet(s.db.documents, d, s.db.documents[d].(status := ScrapeRejected));
    }
  }

  lemma CurrentJobsAreQuiet(s: System, e: Uuid, job: Uuid, k: JobKey)
    requires RowsOk(s) && e in s.requests && job !in s.used
    ensures QuietJobs(s.db.jobs, CompleteJob(s.db.jobs[job := Job(k, Queued, 0)], s.requests[e].job))
  {
    ScrapeJobEnds(s, e);
    assert s.requests[e].job in s.eventOf;
    NewJobIsQuiet(s.db.jobs, s.db.jobs, job, k, s.requests[e].job);
  }

  lemma CurrentCommitted(s: System, job: Uuid)
    requires RowsOk(s) && PhaseEarned(s.db.documents, s.db.jobIndex, s.eventOf, s.db.inbox)
    requires ConsumerOk(s.consumer, s.db.documents, s.requests, s.db.inbox)
    requires ProofsConsume.Applying(s, job) && ReadAsCurrent(s.consumer.m, s.consumer.found)
    ensures var m, t := s.consumer.m, DoCommit(s, job);
            && m.document in s.db.documents && m.fileSize >= 0
            && t.db.documents == s.db.documents[m.document := ScrapedDocument(s.db.documents[m.document], m)]
            && t.db.jobs == CompleteJob(s.db.jobs[job := Job(JobKey(m.document, m.version, Enrich), Queued, 0)], m.job)
  {
    var m := s.consumer.m;
    ProofsConsume.ApplyingRequested(s, job);
    ProofsConsume.NotYetApplied(s, m.eventId);
    ProofsConsume.AppliedGuards(s.db, m, s.consumer.job, s.consumer.found, job);
    ProofsConsume.CurrentShape(s, job);
  }

  lemma CurrentIsQuiet(s: System, job: Uuid)
    requires RowsOk(s) && PhaseEarned(s.db.documents, s.db.jobIndex, s.eventOf, s.db.inbox)
    requires ConsumerOk(s.consumer, s.db.documents, s.requests, s.db.inbox)
    requires ProofsConsume.Applying(s, job) && ReadAsCurrent(s.consumer.m, s.consumer.found) && job !in s.used
    ensures Quiet(s, DoCommit(s, job))
  {
    CurrentCommitted(s, job);
    CurrentPhase(s, job);
    ShownIsQuiet(s, DoCommit(s, job), s.consumer.m, job);
  }

  lemma CurrentPhase(s: System, job: Uuid)
    requires RowsOk(s) && PhaseEarned(s.db.documents, s.db.jobIndex, s.eventOf, s.db.inbox)
    requires ConsumerOk(s.consumer, s.db.documents, s.requests, s.db.inbox)
    requires ProofsConsume.Applying(s, job) && ReadAsCurrent(s.consumer.m, s.consumer.found)
    ensures var m := s.consumer.m;
            && m.eventId in s.requests && s.requests[m.eventId].job == m.job
            && m.document in s.db.documents && s.db.documents[m.document].status != Completed
  {
    ProofsConsume.ApplyingRequested(s, job);
    ProofsConsume.NotYetApplied(s, s.consumer.m.eventId);
    ProofsConsume.AppliedGuards(s.db, s.consumer.m, s.consumer.job, s.consumer.found, job);
  }

  lemma ShownIsQuiet(s: System, t: System, m: ScrapeResult, job: Uuid)
    requires RowsOk(s) && m.version > 0 && m.fileSize >= 0 && job !in s.used
    requires m.eventId in s.requests && s.requests[m.eventId].job == m.job
    requires m.document in s.db.documents && s.db.documents[m.document].status != Completed
    requires t.db.documents == s.db.documents[m.document := ScrapedDocument(s.db.documents[m.document], m)]
    requires t.db.jobs == CompleteJob(s.db.jobs[job := Job(JobKey(m.document, m.version, Enrich), Queued, 0)], m.job)
    ensures Quiet(s, t)
  {
    CurrentJobsAreQuiet(s, m.eventId, job, JobKey(m.document, m.version, Enrich));
    OneDocumentIsQuiet(s.db.documents, m.document, ScrapedDocument(s.db.documents[m.document], m));
  }

  lemma OldIsQuiet(s: System, job: Uuid)
    requires RowsOk(s) && ConsumerOk(s.consumer, s.db.documents, s.requests, s.db.inbox)
    requires ProofsConsume.Applying(s, job) && !ReadAsCurrent(s.consumer.m, s.consumer.found)
    ensures Quiet(s, DoCommit(s, job))
  {
    ProofsConsume.ApplyingRequested(s, job);
    ProofsConsume.OldShape(s, job);
    ScrapeJobEnds(s, s.consumer.m.eventId);
    SameIsQuiet(s, s);
  }

  lemma NothingIsQuiet(s: System, job: Uuid)
    requires s.consumer.HasDocument? && s.consumer.m.version > 0
    requires Judge(s.db, s.consumer.m, s.consumer.job, s.consumer.found, job) in {RolledBack, Duplicate}
    ensures Quiet(s, DoCommit(s, job))
  {
    SameIsQuiet(s, DoCommit(s, job));
  }

  lemma CommitIsQuiet(s: System, job: Uuid)
    requires RowsOk(s) && PhaseEarned(s.db.documents, s.db.jobIndex, s.eventOf, s.db.inbox)
    requires ConsumerOk(s.consumer, s.db.documents, s.requests, s.db.inbox)
    requires s.consumer.HasDocument? && job !in s.used
    ensures Quiet(s, DoCommit(s, job))
  {
    ProofsConsume.TerminalIsDuplicate(s, job);
    match Judge(s.db, s.consumer.m, s.consumer.job, s.consumer.found, job)
    case AppliedFailure => FailureIsQuiet(s, job);
    case AppliedSuccess =>
      if ReadAsCurrent(s.consumer.m, s.consumer.found) { CurrentIsQuiet(s, job); } else { OldIsQuiet(s, job); }
    case _ => NothingIsQuiet(s, job);
  }

  lemma ConsumeIsQuiet(s: System, step: ConsumeStep, t: System)
    requires RowsOk(s) && PhaseEarned(s.db.documents, s.db.jobIndex, s.eventOf, s.db.inbox)
    requires ConsumerOk(s.consumer, s.db.documents, s.requests, s.db.inbox)
    requires ConsumeNext(s, step, t)
    ensures Quiet(s, t)
  {
    if step.Commit? {
      ProofsApi.FreshOne(s, step.job);
      CommitIsQuiet(s, step.job);
    } else {
      SameIsQuiet(s, t);
    }
  }

  lemma CleanIsQuiet(s: System, step: CleanStep, t: System)
    requires CleanNext(s, step, t)
    ensures Quiet(s, t)
  {
    SameIsQuiet(s, t);
  }

  lemma PurgeIsQuiet(s: System, t: System, gone: set<Uuid>)
    requires t == s.(db := RemoveDocuments(s.db, gone).(accounts := t.db.accounts))
    ensures Quiet(s, t)
  {
  }

  lemma OthersAreQuiet(s: System, step: Step, t: System)
    requires RowsOk(s) && PhaseEarned(s.db.documents, s.db.jobIndex, s.eventOf, s.db.inbox)
    requires ConsumerOk(s.consumer, s.db.documents, s.requests, s.db.inbox)
    requires Next(s, step, t) && !step.Enriching?
    ensures Quiet(s, t)
  {
    match step
    case Api(api) => ApiIsQuiet(s, api, t);
    case Dispatch(token, dispatch) => DispatchIsQuiet(s, token, dispatch, t);
    case Scraper(m) => SameIsQuiet(s, t);
    case Consume(consume) => ConsumeIsQuiet(s, consume, t);
    case Cleaning(clean) => CleanIsQuiet(s, clean, t);
    case PurgeDocuments(expired) => PurgeIsQuiet(s, t, expired);
    case PurgeAccount(a) => PurgeIsQuiet(s, t, OwnedDocuments(s.db.documents, a));
  }

  lemma DispatchKeepsEnricher(s: System, token: Uuid, step: DispatchStep, t: System)
    requires DispatchNext(s, token, step, t)
    ensures t.enricher == s.enricher
  {
  }

  lemma OthersKeepEnricher(s: System, step: Step, t: System)
    requires Next(s, step, t) && !step.Enriching?
    ensures t.enricher == s.enricher
  {
    match step
    case Api(api) => ProofsApi.ApiLeaves(s, api, t);
    case Dispatch(token, dispatch) => DispatchKeepsEnricher(s, token, dispatch, t);
    case _ =>
  }

  // ----- the job in hand -----

  /** If the job in hand has succeeded and its document shows that version, the document is completed. */
  ghost predicate HeadCompleted(s: System) {
    EnricherBusy(s) ==>
      var c := Protocol.Current(s);
      c.id in s.db.jobs && s.db.jobs[c.id].state == Succeeded && s.db.Current(c.document, c.version) ==>
        s.db.documents[c.document].status == Completed
  }

  ghost predicate Held(s: System) {
    BatchHeld(s.enricher, s.used, s.db.jobs) && BatchVersions(s.enricher, s.db.documents, s.db.jobIndex)
  }

  lemma HeadStaysCompleted(s: System, t: System)
    requires Exact(s) && Held(s) && BatchHeld(t.enricher, t.used, t.db.jobs)
    requires HeadCompleted(s) && Quiet(s, t) && t.enricher == s.enricher && DocumentsMove(s, t)
    ensures HeadCompleted(t)
  {
    if EnricherBusy(s) {
      var c := Protocol.Current(s);
      if c.id in t.db.jobs && t.db.jobs[c.id].state == Succeeded && t.db.Current(c.document, c.version) {
        assert DocumentMoves(s.db.documents[c.document], t.db.documents[c.document]);
        assert SameVersion(s.db.documents, t.db.documents, c.document);
      }
    }
  }

  /** Only after a commit without a reply can the job in hand have succeeded. */
  lemma FreshHead(s: System)
    requires BatchHeld(s.enricher, s.used, s.db.jobs) && (EnricherBusy(s) ==> s.enricher.stage !in {Unanswered, Rejecting})
    ensures EnricherBusy(s) && Protocol.Current(s).id in s.db.jobs ==> s.db.jobs[Protocol.Current(s).id].state == Processing
    ensures HeadCompleted(s)
  {
  }

  lemma FinishedHead(s: System, extracted: string, summary: string)
    requires EnricherBusy(s) && s.enricher.stage.HasBoth?
    requires BatchHeld(s.enricher, s.used, s.db.jobs)
    ensures HeadCompleted(DoFinish(s, extracted, summary, false))
  {
    FreshHead(s);
  }

  lemma OutdatedHead(s: System)
    requires EnricherBusy(s) && s.enricher.stage.Outdated?
    requires SnapshotKept(s.enricher, s.db.documents, s.db.versions)
    ensures HeadCompleted(DoFinishOutdated(s, false))
  {
  }

  lemma FailedHead(s: System, stored: bool)
    requires EnricherBusy(s) && HeadCompleted(s)
    ensures HeadCompleted(DoFail(s, stored))
  {
  }

  lemma EnrichKeepsHead(s: System, step: EnrichStep, t: System)
    requires BatchHeld(s.enricher, s.used, s.db.jobs) && SnapshotKept(s.enricher, s.db.documents, s.db.versions)
    requires HeadCompleted(s) && EnrichNext(s, step, t) && BatchHeld(t.enricher, t.used, t.db.jobs)
    ensures HeadCompleted(t)
  {
    match step
    case Fail(stored) => FailedHead(s, stored);
    case FinishOutdated(answered) => if answered { FreshHead(t); } else { OutdatedHead(s); }
    case Finish(extracted, summary, answered) => if answered { FreshHead(t); } else { FinishedHead(s, extracted, summary); }
    case _ => FreshHead(t);
  }

  // ----- exactly when the phase falls -----

  /** What the invariant says about statuses and the job in hand. */
  ghost predicate Backed(s: System) {
    && Exact(s) && Held(s)
    && PhaseEarned(s.db.documents, s.db.jobIndex, s.eventOf, s.db.inbox)
    && StatusBacked(s.db.documents, s.db.jobs, s.db.jobIndex)
  }

  /** The document of the job in hand, if it shows that version, is completed exactly if the job has succeeded. */
  ghost predicate HeadSettled(s: System) {
    EnricherBusy(s) && s.db.Current(Protocol.Current(s).document, Protocol.Current(s).version) ==>
      var c := Protocol.Current(s);
      && s.db.documents[c.document].status in {EnrichPending, EnrichRejected, Completed}
      && (s.db.documents[c.document].status == Completed <==> c.id in s.db.jobs && s.db.jobs[c.id].state == Succeeded)
  }

  lemma HeadIsSettled(s: System)
    requires Backed(s) && HeadCompleted(s)
    ensures HeadSettled(s)
  {
    if EnricherBusy(s) {
      ProofsEnrich.RejectedWasEnriching(s.db.documents, s.db.jobs, s.db.jobIndex, s.eventOf, s.db.inbox, s.enricher);
    }
  }

  lemma RejectionFalls(s: System, stored: bool, d: Uuid)
    requires HeadSettled(s) && EnricherBusy(s) && d in s.db.documents
    ensures var t := DoReject(s, stored);
            && d in t.db.documents
            && (Phase(t.db.documents[d].status) < Phase(s.db.documents[d].status) <==>
                TakesBack(s, Enriching(Reject(stored)), d))
  {
  }

  lemma FinishRaises(s: System, extracted: string, summary: string, answered: bool, d: Uuid)
    requires EnricherBusy(s) && s.enricher.stage.HasBoth? && d in s.db.documents
    ensures var t := DoFinish(s, extracted, summary, answered);
            d in t.db.documents && Phase(s.db.documents[d].status) <= Phase(t.db.documents[d].status)
  {
  }

  lemma EnrichFallsExactly(s: System, step: EnrichStep, t: System, d: Uuid)
    requires HeadSettled(s) && EnrichNext(s, step, t) && SameVersion(s.db.documents, t.db.documents, d)
    ensures Phase(t.db.documents[d].status) < Phase(s.db.documents[d].status) <==> TakesBack(s, Enriching(step), d)
  {
    match step
    case Reject(stored) => RejectionFalls(s, stored, d);
    case Finish(extracted, summary, answered) => FinishRaises(s, extracted, summary, answered, d);
    case _ =>
  }

  lemma QuietNeverFalls(s: System, t: System, d: Uuid)
    requires QuietDocuments(s.db.documents, t.db.documents) && DocumentsMove(s, t)
    requires d in s.used && SameVersion(s.db.documents, t.db.documents, d)
    ensures Phase(s.db.documents[d].status) <= Phase(t.db.documents[d].status)
  {
    assert DocumentMoves(s.db.documents[d], t.db.documents[d]);
  }

  // ----- what a step makes of it -----

  /** A step of the protocol, with what is known of it and of the states before and after. */
  ghost predicate Linked(s: System, step: Step, t: System) {
    && Next(s, step, t) && Backed(s) && Backed(t) && HeadCompleted(s) && s.db.jobs.Keys <= s.used
    && SnapshotKept(s.enricher, s.db.documents, s.db.versions)
    && Moves(s, t) && (!step.Enriching? ==> Quiet(s, t) && t.enricher == s.enricher)
  }

  lemma HeadCompletedNext(s: System, step: Step, t: System)
    requires Linked(s, step, t)
    ensures HeadCompleted(t)
  {
    if step.Enriching? {
      EnrichKeepsHead(s, step.enrich, t);
    } else {
      HeadStaysCompleted(s, t);
    }
  }

  /** The phase of a document at an unchanged version falls exactly when it is taken back. */
  lemma FallsExactly(s: System, step: Step, t: System, d: Uuid)
    requires Linked(s, step, t) && SameVersion(s.db.documents, t.db.documents, d)
    ensures Phase(t.db.documents[d].status) < Phase(s.db.documents[d].status) <==> TakesBack(s, step, d)
  {
    if step.Enriching? {
      HeadIsSettled(s);
      EnrichFallsExactly(s, step.enrich, t, d);
    } else {
      QuietNeverFalls(s, t, d);
    }
  }

  /** A document becomes completed only by a job that had not succeeded before. */
  lemma FinishCompletes(s: System, extracted: string, summary: string, answered: bool, d: Uuid)
    requires Held(s) && EnricherBusy(s) && s.enricher.stage.HasBoth? && d in s.db.documents
    requires s.db.documents[d].status != Completed
    ensures var t := DoFinish(s, extracted, summary, answered);
            d in t.db.documents && t.db.documents[d].status == Completed ==> !DoneAt(s.db, d)
  {
    FreshHead(s);
  }

  lemma EnrichCompletes(s: System, step: EnrichStep, t: System, d: Uuid)
    requires Held(s) && EnrichNext(s, step, t) && SameVersion(s.db.documents, t.db.documents, d)
    requires t.db.documents[d].status == Completed && s.db.documents[d].status != Completed
    ensures !DoneAt(s.db, d)
  {
    match step
    case Finish(extracted, summary, answered) => FinishCompletes(s, extracted, summary, answered, d);
    case _ =>
  }

  /** A job that succeeds without completing its document is not one that a live document shows. */
  lemma QuietSuccess(s: System, t: System, d: Uuid)
    requires Exact(s) && JobsIndexed(t.db.documents, t.db.jobs, t.db.jobIndex)
    requires QuietJobs(s.db.jobs, t.db.jobs) && DocumentsMove(s, t) && t.db.Live(d) && DoneAt(t.db, d)
    ensures SameVersion(s.db.documents, t.db.documents, d) && s.db.Live(d) && DoneAt(s.db, d)
  {
    var k := JobKey(d, t.db.documents[d].currentVersion, Enrich);
    var j := t.db.jobIndex[k];
    assert s.db.jobs[j].key == k && k in s.db.jobIndex && s.db.jobIndex[k] == j;
    assert d in s.used;
    assert DocumentMoves(s.db.documents[d], t.db.documents[d]);
  }

  lemma FinishSuccess(s: System, extracted: string, summary: string, answered: bool, d: Uuid)
    requires JobsIndexed(s.db.documents, s.db.jobs, s.db.jobIndex) && Held(s)
    requires EnricherBusy(s) && s.enricher.stage.HasBoth?
    ensures var t := DoFinish(s, extracted, summary, answered);
            t.db.Live(d) && DoneAt(t.db, d) && t.db.documents[d].status != Completed ==>
              SameVersion(s.db.documents, t.db.documents, d) && s.db.Live(d) && DoneAt(s.db, d)
  {
  }

  lemma OutdatedSuccess(s: System, answered: bool, d: Uuid)
    requires JobsIndexed(s.db.documents, s.db.jobs, s.db.jobIndex) && Held(s)
    requires SnapshotKept(s.enricher, s.db.documents, s.db.versions)
    requires EnricherBusy(s) && s.enricher.stage.Outdated?
    ensures var t := DoFinishOutdated(s, answered); t.db.Live(d) && DoneAt(t.db, d) ==> DoneAt(s.db, d)
  {
  }

  lemma TakeJobsSuccess(s: System, picked: seq<Uuid>, d: Uuid)
    requires CanTakeJobs(s, picked)
    ensures var t := DoTakeJobs(s, picked); t.db.Live(d) && DoneAt(t.db, d) ==> DoneAt(s.db, d)
  {
  }

  lemma EnrichSuccess(s: System, step: EnrichStep, t: System, d: Uuid)
    requires JobsIndexed(s.db.documents, s.db.jobs, s.db.jobIndex) && Held(s)
    requires SnapshotKept(s.enricher, s.db.documents, s.db.versions)
    requires EnrichNext(s, step, t) && t.db.Live(d) && DoneAt(t.db, d) && t.db.documents[d].status != Completed
    ensures SameVersion(s.db.documents, t.db.documents, d) && s.db.Live(d) && DoneAt(s.db, d)
  {
    match step
    case TakeJobs(picked) => TakeJobsSuccess(s, picked, d);
    case Finish(extracted, summary, answered) => FinishSuccess(s, extracted, summary, answered, d);
    case FinishOutdated(answered) => OutdatedSuccess(s, answered, d);
    case _ =>
  }

  lemma OldSuccess(s: System, step: Step, t: System, d: Uuid)
    requires Linked(s, step, t) && t.db.Live(d) && DoneAt(t.db, d) && t.db.documents[d].status != Completed
    ensures SameVersion(s.db.documents, t.db.documents, d) && s.db.Live(d) && DoneAt(s.db, d)
  {
    if step.Enriching? {
      EnrichSuccess(s, step.enrich, t, d);
    } else {
      QuietSuccess(s, t, d);
    }
  }

  lemma StatusOfDone(s: System, d: Uuid)
    requires Backed(s) && s.db.Live(d) && DoneAt(s.db, d)
    ensures s.db.documents[d].status in {EnrichRejected, Completed}
  {
  }

  /** What a step does to one document, whatever step it is. */
  ghost predicate Accounted(s: System, step: Step, t: System, d: Uuid) {
    && (SameVersion(s.db.documents, t.db.documents, d) ==>
          && (Phase(t.db.documents[d].status) < Phase(s.db.documents[d].status) <==> TakesBack(s, step, d))
          && (DoneAt(s.db, d) && s.db.documents[d].status != Completed ==> t.db.documents[d].status != Completed))
    && (t.db.Live(d) && DoneAt(t.db, d) && t.db.documents[d].status != Completed ==>
          SameVersion(s.db.documents, t.db.documents, d) && s.db.Live(d) && DoneAt(s.db, d))
  }

  lemma StepIsAccounted(s: System, step: Step, t: System, d: Uuid)
    requires Linked(s, step, t)
    ensures Accounted(s, step, t, d)
  {
    if SameVersion(s.db.documents, t.db.documents, d) {
      FallsExactly(s, step, t, d);
      if DoneAt(s.db, d) && s.db.documents[d].status != Completed {
        NotCompletedAgain(s, step, t, d);
      }
    }
    if t.db.Live(d) && DoneAt(t.db, d) && t.db.documents[d].status != Completed {
      OldSuccess(s, step, t, d);
    }
  }

  lemma BecomesTakenBack(s: System, step: Step, t: System, d: Uuid)
    requires Accounted(s, step, t, d) && Backed(s) && IsTakenBack(t.db, d)
    ensures SameVersion(s.db.documents, t.db.documents, d) && s.db.Live(d)
    ensures TakesBack(s, step, d) || IsTakenBack(s.db, d)
  {
    StatusOfDone(s, d);
  }

  lemma StaysDone(s: System, t: System, d: Uuid)
    requires Exact(s) && Exact(t) && IndexMoves(s, t) && JobsMove(s.used, s.db.jobs, t.db.jobs)
    requires s.db.jobs.Keys <= s.used
    requires SameVersion(s.db.documents, t.db.documents, d) && DoneAt(s.db, d)
    ensures DoneAt(t.db, d)
  {
    var k := JobKey(d, s.db.documents[d].currentVersion, Enrich);
    assert k in t.db.jobIndex && t.db.jobIndex[k] == s.db.jobIndex[k];
    assert JobMoves(s.db.jobs[s.db.jobIndex[k]], t.db.jobs[t.db.jobIndex[k]]);
  }

  lemma NotCompletedAgain(s: System, step: Step, t: System, d: Uuid)
    requires Next(s, step, t) && Held(s) && (!step.Enriching? ==> QuietDocuments(s.db.documents, t.db.documents))
    requires DoneAt(s.db, d) && SameVersion(s.db.documents, t.db.documents, d)
    requires s.db.documents[d].status != Completed
    ensures t.db.documents[d].status != Completed
  {
    if step.Enriching? && t.db.documents[d].status == Completed {
      EnrichCompletes(s, step.enrich, t, d);
    }
  }

  lemma StaysTakenBack(s: System, step: Step, t: System, d: Uuid)
    requires Accounted(s, step, t, d) && Exact(s) && Backed(t) && IsTakenBack(s.db, d)
    requires IndexMoves(s, t) && JobsMove(s.used, s.db.jobs, t.db.jobs) && s.db.jobs.Keys <= s.used
    requires SameVersion(s.db.documents, t.db.documents, d) && t.db.Live(d)
    ensures IsTakenBack(t.db, d)
  {
    StaysDone(s, t, d);
    StatusOfDone(t, d);
  }

  lemma TakesBackNext(s: System, step: Step, t: System, d: Uuid)
    requires Next(s, step, t) && HeadCompleted(s) && BatchVersions(s.enricher, s.db.documents, s.db.jobIndex)
    requires TakesBack(s, step, d)
    ensures SameVersion(s.db.documents, t.db.documents, d) && s.db.Live(d) && IsTakenBack(t.db, d)
  {
    assert s.db.documents[d].status == Completed;
  }

  // ----- every run -----

  lemma BackedAt(states: seq<System>, steps: seq<Step>, n: nat)
    requires IsRun(states, steps) && n < |states|
    ensures Backed(states[n]) && states[n].db.jobs.Keys <= states[n].used
    ensures SnapshotKept(states[n].enricher, states[n].db.documents, states[n].db.versions)
  {
    RunKeeps(states, steps, n);
  }

  lemma QuietAt(states: seq<System>, steps: seq<Step>, n: nat)
    requires IsRun(states, steps) && n < |steps| && !steps[n].Enriching?
    ensures Quiet(states[n], states[n + 1]) && states[n + 1].enricher == states[n].enricher
  {
    RunKeeps(states, steps, n);
    RunStep(states, steps, n);
    OthersAreQuiet(states[n], steps[n], states[n + 1]);
    OthersKeepEnricher(states[n], steps[n], states[n + 1]);
  }

  lemma LinkedIf(states: seq<System>, steps: seq<Step>, n: nat)
    requires IsRun(states, steps) && n < |steps| && HeadCompleted(states[n])
    ensures Linked(states[n], steps[n], states[n + 1])
  {
    BackedAt(states, steps, n);
    BackedAt(states, steps, n + 1);
    RunStep(states, steps, n);
    StepMoves(states, steps, n);
    if !steps[n].Enriching? {
      QuietAt(states, steps, n);
    }
  }

  lemma HeadCompletedStep(states: seq<System>, steps: seq<Step>, n: nat)
    requires IsRun(states, steps) && n < |steps| && HeadCompleted(states[n])
    ensures HeadCompleted(states[n + 1])
  {
    LinkedIf(states, steps, n);
    HeadCompletedNext(states[n], steps[n], states[n + 1]);
  }

  lemma {:induction false} HeadCompletedAt(states: seq<System>, steps: seq<Step>, n: nat)
    requires IsRun(states, steps) && n < |states|
    ensures HeadCompleted(states[n])
    decreases n
  {
    if n > 0 {
      HeadCompletedAt(states, steps, n - 1);
      HeadCompletedStep(states, steps, n - 1);
    }
  }

  lemma LinkedAt(states: seq<System>, steps: seq<Step>, n: nat)
    requires IsRun(states, steps) && n < |steps|
    ensures Linked(states[n], steps[n], states[n + 1])
  {
    HeadCompletedAt(states, steps, n);
    LinkedIf(states, steps, n);
  }

  /** At every step of every run. */
  lemma PhaseFallsExactly(states: seq<System>, steps: seq<Step>, n: nat, d: Uuid)
    requires IsRun(states, steps) && n < |steps|
    requires SameVersion(states[n].db.documents, states[n + 1].db.documents, d)
    ensures Phase(states[n + 1].db.documents[d].status) < Phase(states[n].db.documents[d].status) <==>
            TakesBack(states[n], steps[n], d)
  {
    LinkedAt(states, steps, n);
    FallsExactly(states[n], steps[n], states[n + 1], d);
  }

  /** Version v of the document is taken back by step k. */
  ghost predicate TakesBackAt(states: seq<System>, steps: seq<Step>, k: nat, d: Uuid, v: nat)
    requires k < |steps| && k < |states|
  {
    TakesBack(states[k], steps[k], d) && states[k].db.documents[d].currentVersion == v
  }

  /** Version v of the document is taken back by one of the steps from i to j. */
  ghost predicate WasTakenBack(states: seq<System>, steps: seq<Step>, i: nat, j: nat, d: Uuid, v: nat)
    requires i <= j <= |steps| <= |states|
  {
    exists k: nat :: i <= k < j && TakesBackAt(states, steps, k, d, v)
  }

  // ----- one document along a run -----

  ghost predicate NeverCompletes(db: Db, d: Uuid) { DoneAt(db, d) && db.documents[d].status != Completed }

  /** What a step means for the document, whatever step it is. */
  ghost predicate Told(s: System, step: Step, t: System, d: Uuid) {
    && (d in s.used ==> d in t.used) && (d in s.db.documents ==> d in s.used)
    && (d in t.db.documents && d in s.used ==> d in s.db.documents)
    && (d in s.db.documents && d in t.db.documents ==>
          s.db.documents[d].currentVersion <= t.db.documents[d].currentVersion
          && (s.db.documents[d].deleted ==> t.db.documents[d].deleted))
    && (SameVersion(s.db.documents, t.db.documents, d) ==> ToldVersion(s, step, t, d))
    && (t.db.Live(d) ==>
          (IsTakenBack(t.db, d) <==>
           SameVersion(s.db.documents, t.db.documents, d) && (TakesBack(s, step, d) || IsTakenBack(s.db, d))))
  }

  ghost predicate ToldVersion(s: System, step: Step, t: System, d: Uuid)
    requires SameVersion(s.db.documents, t.db.documents, d)
  {
    var before, after := Phase(s.db.documents[d].status), Phase(t.db.documents[d].status);
    && (after < before <==> TakesBack(s, step, d)) && (before >= 1 ==> after >= 1)
    && (NeverCompletes(s.db, d) || TakesBack(s, step, d) ==> NeverCompletes(t.db, d))
  }

  lemma VersionIsTold(s: System, step: Step, t: System, d: Uuid)
    requires Linked(s, step, t) && SameVersion(s.db.documents, t.db.documents, d) && Accounted(s, step, t, d)
    ensures ToldVersion(s, step, t, d)
  {
    assert DocumentMoves(s.db.documents[d], t.db.documents[d]);
    if TakesBack(s, step, d) {
      TakesBackNext(s, step, t, d);
    } else if NeverCompletes(s.db, d) {
      StaysDone(s, t, d);
    }
  }

  lemma StepIsTold(s: System, step: Step, t: System, d: Uuid)
    requires Linked(s, step, t)
    ensures Told(s, step, t, d)
  {
    StepIsAccounted(s, step, t, d);
    if SameVersion(s.db.documents, t.db.documents, d) {
      VersionIsTold(s, step, t, d);
    }
    if d in s.db.documents && d in t.db.documents {
      assert DocumentMoves(s.db.documents[d], t.db.documents[d]);
    }
    if t.db.Live(d) {
      if IsTakenBack(t.db, d) {
        BecomesTakenBack(s, step, t, d);
      } else if TakesBack(s, step, d) {
        TakesBackNext(s, step, t, d);
      } else if IsTakenBack(s.db, d) && SameVersion(s.db.documents, t.db.documents, d) {
        StaysTakenBack(s, step, t, d);
      }
    }
  }

  /** A run, as far as the document is concerned. */
  ghost predicate ToldRun(states: seq<System>, steps: seq<Step>, d: Uuid) {
    && |states| == |steps| + 1 && d !in states[0].db.documents
    && forall i {:trigger steps[i]} :: 0 <= i < |steps| ==> Told(states[i], steps[i], states[i + 1], d)
  }

  lemma RunIsTold(states: seq<System>, steps: seq<Step>, d: Uuid)
    requires IsRun(states, steps)
    ensures ToldRun(states, steps, d)
  {
    forall i | 0 <= i < |steps| ensures Told(states[i], steps[i], states[i + 1], d) {
      LinkedAt(states, steps, i);
      StepIsTold(states[i], steps[i], states[i + 1], d);
    }
  }

  lemma {:induction false} VersionGrows(states: seq<System>, steps: seq<Step>, k: nat, n: nat, d: Uuid)
    requires ToldRun(states, steps, d) && k <= n < |states| && d in states[k].db.documents
    ensures (n < |steps| ==> d in states[n].used) && (d in states[n].db.documents ==>
              states[k].db.documents[d].currentVersion <= states[n].db.documents[d].currentVersion)
    decreases n
  {
    if k < n {
      VersionGrows(states, steps, k, n - 1, d);
      assert Told(states[n - 1], steps[n - 1], states[n], d);
    }
    if n < |steps| {
      assert Told(states[n], steps[n], states[n + 1], d);
    }
  }

  /** The versions in between are the same, too. */
  lemma VersionBetween(states: seq<System>, steps: seq<Step>, k: nat, n: nat, d: Uuid)
    requires ToldRun(states, steps, d) && k <= n < |steps| && d in states[k].db.documents && d in states[n + 1].db.documents
    requires states[k].db.documents[d].currentVersion == states[n + 1].db.documents[d].currentVersion
    ensures SameVersion(states[n].db.documents, states[n + 1].db.documents, d)
  {
    VersionGrows(states, steps, k, n, d);
    assert Told(states[n], steps[n], states[n + 1], d);
  }

  lemma {:induction false} TakenBackIn(states: seq<System>, steps: seq<Step>, n: nat, d: Uuid)
    requires ToldRun(states, steps, d) && n < |states| && states[n].db.Live(d)
    ensures IsTakenBack(states[n].db, d) <==>
            WasTakenBack(states, steps, 0, n, d, states[n].db.documents[d].currentVersion)
    decreases n
  {
    if n > 0 {
      var before, after := states[n - 1].db.documents, states[n].db.documents;
      var v := after[d].currentVersion;
      assert Told(states[n - 1], steps[n - 1], states[n], d);
      if SameVersion(before, after, d) {
        TakenBackIn(states, steps, n - 1, d);
        OneMoreStep(states, steps, 0, n - 1, d, v);
      } else if WasTakenBack(states, steps, 0, n, d, v) {
        var k: nat :| k < n && TakesBackAt(states, steps, k, d, v);
        VersionBetween(states, steps, k, n - 1, d);
      }
    }
  }

  /** A live document is rejected with a job that has succeeded exactly when its version was taken back. */
  lemma TakenBackExactly(states: seq<System>, steps: seq<Step>, n: nat, d: Uuid)
    requires IsRun(states, steps) && n < |states| && states[n].db.Live(d)
    ensures IsTakenBack(states[n].db, d) <==>
            WasTakenBack(states, steps, 0, n, d, states[n].db.documents[d].currentVersion)
  {
    RunIsTold(states, steps, d);
    TakenBackIn(states, steps, n, d);
  }

  lemma OneMoreStep(states: seq<System>, steps: seq<Step>, i: nat, n: nat, d: Uuid, v: nat)
    requires i <= n < |steps| < |states|
    ensures WasTakenBack(states, steps, i, n + 1, d, v) <==>
            WasTakenBack(states, steps, i, n, d, v) || TakesBackAt(states, steps, n, d, v)
  {
  }

  // ----- between any two states of a run -----

  lemma {:induction false} PhaseKept(states: seq<System>, steps: seq<Step>, i: nat, j: nat, d: Uuid, v: nat)
    requires ToldRun(states, steps, d) && i <= j < |states| && d in states[i].db.documents && d in states[j].db.documents
    requires v == states[i].db.documents[d].currentVersion == states[j].db.documents[d].currentVersion
    ensures Phase(states[i].db.documents[d].status) >= 1 ==> Phase(states[j].db.documents[d].status) >= 1
    ensures !WasTakenBack(states, steps, i, j, d, v) ==>
              Phase(states[i].db.documents[d].status) <= Phase(states[j].db.documents[d].status)
    decreases j - i
  {
    if i < j {
      VersionBetween(states, steps, i, j - 1, d);
      OneMoreStep(states, steps, i, j - 1, d, v);
      PhaseKept(states, steps, i, j - 1, d, v);
      assert Told(states[j - 1], steps[j - 1], states[j], d);
    }
  }

  lemma {:induction false} NeverCompletesAfter(states: seq<System>, steps: seq<Step>, k: nat, n: nat, d: Uuid, v: nat)
    requires ToldRun(states, steps, d) && k <= n < |steps| && TakesBackAt(states, steps, k, d, v)
    requires d in states[n + 1].db.documents && states[n + 1].db.documents[d].currentVersion == v
    ensures NeverCompletes(states[n + 1].db, d)
    decreases n
  {
    VersionBetween(states, steps, k, n, d);
    if k < n {
      NeverCompletesAfter(states, steps, k, n - 1, d, v);
    }
    assert Told(states[n], steps[n], states[n + 1], d);
  }

  /** The phase at an unchanged version has fallen exactly when the document was completed and has been
      taken back since. */
  lemma FallenExactly(states: seq<System>, steps: seq<Step>, i: nat, j: nat, d: Uuid, v: nat)
    requires IsRun(states, steps) && i <= j < |states| && d in states[i].db.documents && d in states[j].db.documents
    requires v == states[i].db.documents[d].currentVersion == states[j].db.documents[d].currentVersion
    ensures var before, after := states[i].db.documents[d].status, states[j].db.documents[d].status;
            Phase(after) < Phase(before) <==> before == Completed && WasTakenBack(states, steps, i, j, d, v)
  {
    RunIsTold(states, steps, d);
    PhaseKept(states, steps, i, j, d, v);
    if WasTakenBack(states, steps, i, j, d, v) {
      var k: nat :| i <= k < j && TakesBackAt(states, steps, k, d, v);
      NeverCompletesAfter(states, steps, k, j - 1, d, v);
    }
  }
}
