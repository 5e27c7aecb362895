/** What may become of a row over any number of steps: nothing that is finished is taken back. */
module Progress {
  import opened Schema
  import opened Transactions
  import opened Protocol
  import opened Invariants
  import opened ProofsMoves
  import opened ProofsApi
  import opened ProofsConsume
  import opened ProofsEnrich
  import ProofsDispatch
  import opened Runs

  /** The result of a version has been applied: its event is in the inbox. */
  ghost predicate Received(s: System, k: VersionKey) {
    ResultApplied(s.db.jobIndex, s.eventOf, s.db.inbox, k.document, k.version)
  }

  /** The version never goes down, nor does a version go back to the scrape phase; a deleted document
      stays deleted. */
  ghost predicate DocumentMoves(before: Document, after: Document) {
    && after.owner == before.owner && after.kind == before.kind
    && (before.deleted ==> after.deleted)
    && (before.currentVersion < after.currentVersion
        || (before.currentVersion == after.currentVersion && (Phase(before.status) >= 1 ==> Phase(after.status) >= 1)))
  }

  /** A version leaves the scrape phase only by its first result. */
  ghost predicate PhaseMoves(received: bool, before: Document, after: Document) {
    before.currentVersion == after.currentVersion && Phase(before.status) == 0 && received ==> Phase(after.status) == 0
  }

  ghost predicate DocumentsMove(s: System, t: System) {
    forall d :: d in t.db.documents && d in s.used ==>
      && d in s.db.documents && DocumentMoves(s.db.documents[d], t.db.documents[d])
      && PhaseMoves(Received(s, VersionKey(d, s.db.documents[d].currentVersion)), s.db.documents[d], t.db.documents[d])
  }

  ghost predicate JobMoves(before: Job, after: Job) {
    && after.key == before.key && before.attempts <= after.attempts
    && (before.state == Succeeded ==> after.state == Succeeded) && (before.state != Queued ==> after.state != Queued)
  }

  ghost predicate JobsMove(used: set<Uuid>, jobs: map<Uuid, Job>, after: map<Uuid, Job>) {
    forall j :: j in after && j in used ==> j in jobs && JobMoves(jobs[j], after[j])
  }

  ghost predicate EventMoves(before: OutboxEvent, after: OutboxEvent) {
    && after.payload == before.payload && before.attempts <= after.attempts
    && (before.published ==> after.published) && (before.deadLettered ==> after.deadLettered)
  }

  ghost predicate EventsMove(outbox: map<Uuid, OutboxEvent>, after: map<Uuid, OutboxEvent>) {
    forall e :: e in outbox ==> e in after && EventMoves(outbox[e], after[e])
  }

  ghost predicate IndexMoves(s: System, t: System) {
    && s.used <= t.used && s.db.inbox.Keys <= t.db.inbox.Keys
    && (forall k :: k in s.db.jobIndex && k.document in t.db.documents ==>
          k in t.db.jobIndex && t.db.jobIndex[k] == s.db.jobIndex[k])
    && (forall j :: j in s.eventOf ==> j in t.eventOf && t.eventOf[j] == s.eventOf[j])
    && (forall e :: e in s.requests ==> e in t.requests && t.requests[e] == s.requests[e])
  }

  /** The artifact keys of a version row are those of its first result, or those it was created with. */
  predicate SameArtifacts(before: Version, after: Version) {
    after.rawKey == before.rawKey && after.contentKey == before.contentKey
  }

  ghost predicate VersionsMove(s: System, t: System) {
    forall k :: k in s.db.versions && k in t.db.versions && !SameArtifacts(s.db.versions[k], t.db.versions[k]) ==>
      !Received(s, k) && Received(t, k)
  }

  ghost predicate Moves(s: System, t: System) {
    && IndexMoves(s, t) && DocumentsMove(s, t) && JobsMove(s.used, s.db.jobs, t.db.jobs)
    && EventsMove(s.db.outbox, t.db.outbox) && VersionsMove(s, t)
  }

  // ----- it composes -----

  lemma ReceivedKept(s: System, t: System, k: VersionKey)
    requires IndexMoves(s, t) && Received(s, k) && k.document in t.db.documents
    ensures Received(t, k)
  {
  }

  lemma DocumentsCompose(s: System, t: System, u: System)
    requires IndexMoves(s, t) && DocumentsMove(s, t) && DocumentsMove(t, u)
    ensures DocumentsMove(s, u)
  {
  }

  lemma VersionsCompose(s: System, t: System, u: System)
    requires VersionsExact(s.db.documents, s.db.versions) && VersionsExact(t.db.documents, t.db.versions)
    requires VersionsExact(u.db.documents, u.db.versions) && s.db.documents.Keys <= s.used
    requires IndexMoves(s, t) && IndexMoves(t, u) && DocumentsMove(s, t) && DocumentsMove(t, u)
    requires VersionsMove(s, t) && VersionsMove(t, u)
    ensures VersionsMove(s, u)
  {
    forall k | k in s.db.versions && k in u.db.versions && !SameArtifacts(s.db.versions[k], u.db.versions[k])
      ensures !Received(s, k) && Received(u, k)
    {
      assert DocumentMoves(t.db.documents[k.document], u.db.documents[k.document]);
      assert DocumentMoves(s.db.documents[k.document], t.db.documents[k.document]);
      assert k in t.db.versions;
      if Received(s, k) {
        ReceivedKept(s, t, k);
      }
      if Received(t, k) {
        ReceivedKept(t, u, k);
      }
    }
  }

  lemma RowsCompose(s: System, t: System, u: System)
    requires IndexMoves(s, t) && IndexMoves(t, u)
    requires JobsMove(s.used, s.db.jobs, t.db.jobs) && JobsMove(t.used, t.db.jobs, u.db.jobs)
    requires EventsMove(s.db.outbox, t.db.outbox) && EventsMove(t.db.outbox, u.db.outbox)
    ensures JobsMove(s.used, s.db.jobs, u.db.jobs) && EventsMove(s.db.outbox, u.db.outbox)
  {
  }

  lemma IndexComposes(s: System, t: System, u: System)
    requires IndexMoves(s, t) && IndexMoves(t, u) && DocumentsMove(t, u)
    requires s.db.documents.Keys <= s.used && JobsIndexed(s.db.documents, s.db.jobs, s.db.jobIndex)
    ensures IndexMoves(s, u)
  {
  }

  ghost predicate Exact(s: System) {
    && VersionsExact(s.db.documents, s.db.versions) && s.db.documents.Keys <= s.used
    && JobsIndexed(s.db.documents, s.db.jobs, s.db.jobIndex)
  }

  lemma MovesCompose(s: System, t: System, u: System)
    requires Exact(s) && Exact(t) && Exact(u) && Moves(s, t) && Moves(t, u)
    ensures Moves(s, u)
  {
    DocumentsCompose(s, t, u);
    VersionsCompose(s, t, u);
    RowsCompose(s, t, u);
    IndexComposes(s, t, u);
  }

  // ----- parts that a step leaves alone -----

  lemma DocumentsStay(s: System, t: System)
    requires t.db.documents == s.db.documents
    ensures DocumentsMove(s, t)
  {
  }

  lemma JobsStay(used: set<Uuid>, jobs: map<Uuid, Job>)
    ensures JobsMove(used, jobs, jobs)
  {
  }

  lemma EventsStay(outbox: map<Uuid, OutboxEvent>)
    ensures EventsMove(outbox, outbox)
  {
  }

  /** A step that only reads, or writes elsewhere. */
  lemma Stays(s: System, t: System)
    requires t.db.documents == s.db.documents && t.db.versions == s.db.versions && t.db.jobs == s.db.jobs
    requires t.db.outbox == s.db.outbox && t.db.jobIndex == s.db.jobIndex && t.db.inbox == s.db.inbox
    requires t.eventOf == s.eventOf && t.requests == s.requests && s.used <= t.used
    ensures Moves(s, t)
  {
  }

  /** The outbox alone. */
  lemma EventsOnly(s: System, t: System)
    requires t == s.(db := s.db.(outbox := t.db.outbox), sent := t.sent, dispatchers := t.dispatchers)
    requires EventsMove(s.db.outbox, t.db.outbox)
    ensures Moves(s, t)
  {
  }

  /** The jobs alone. */
  lemma JobsOnly(s: System, t: System)
    requires t == s.(db := s.db.(jobs := t.db.jobs), enricher := t.enricher, claims := t.claims)
    requires JobsMove(s.used, s.db.jobs, t.db.jobs)
    ensures Moves(s, t)
  {
  }

  /** Documents, and what the protocol does not observe here. */
  lemma DocumentsOnly(s: System, t: System)
    requires t.db.versions == s.db.versions && t.db.jobs == s.db.jobs
    requires t.db.outbox == s.db.outbox && t.db.jobIndex == s.db.jobIndex && t.db.inbox == s.db.inbox
    requires t.eventOf == s.eventOf && t.requests == s.requests && t.used == s.used
    requires DocumentsMove(s, t)
    ensures Moves(s, t)
  {
  }

  lemma StatusMoves(s: System, t: System)
    requires StatusMoved(s.db.documents, t.db.documents)
    ensures DocumentsMove(s, t)
  {
  }

  lemma SoftDeleteMoves(s: System, t: System)
    requires SoftDeleted(s.db.documents, t.db.documents)
    ensures DocumentsMove(s, t)
  {
  }

  // ----- API -----

  lemma BeginMoves(s: System, n: NewVersion)
    requires RowsOk(s) && CanBegin(s, n)
    ensures Moves(s, DoBegin(s, Some(n)))
  {
    BeginUnmet(s, n);
    BeginShape(s, n);
    var t := DoBegin(s, Some(n));
    BeginDocuments(s, t, n.d, n.document);
    NewRowsMove(s, n);
    NewJobMoves(s.used, s.db.jobs, n.job, Job(n.Index(), Queued, 0));
    if n.Kind() == Scrape {
      NewEventMoves(s.db.outbox, n.event, n.Event());
    } else {
      EventsStay(s.db.outbox);
    }
  }

  lemma NewRowsMove(s: System, n: NewVersion)
    requires Unmet(s, n)
    ensures var t := DoBegin(s, Some(n)); IndexMoves(s, t) && VersionsMove(s, t)
  {
    BeginShape(s, n);
  }

  lemma BeginDocuments(s: System, t: System, d: Uuid, document: Document)
    requires t.db.documents == s.db.documents[d := document]
    requires if d in s.db.documents then
               && !s.db.documents[d].deleted && document.currentVersion == s.db.documents[d].currentVersion + 1
               && document.kind == s.db.documents[d].kind && document.owner == s.db.documents[d].owner
             else d !in s.used
    ensures DocumentsMove(s, t)
  {
  }

  lemma NewJobMoves(used: set<Uuid>, jobs: map<Uuid, Job>, j: Uuid, job: Job)
    requires j !in used
    ensures JobsMove(used, jobs, jobs[j := job])
  {
  }

  lemma NewEventMoves(outbox: map<Uuid, OutboxEvent>, e: Uuid, row: OutboxEvent)
    requires e !in outbox
    ensures EventsMove(outbox, outbox[e := row])
  {
  }

  lemma PlanMoves(s: System, plan: Option<NewVersion>)
    requires RowsOk(s) && (plan.Some? ==> CanBegin(s, plan.value))
    ensures Moves(s, DoBegin(s, plan))
  {
    if plan.Some? {
      BeginMoves(s, plan.value);
    } else {
      Stays(s, s);
    }
  }

  lemma RemoveMoves(s: System, owner: Uuid, d: Uuid)
    requires RowsOk(s)
    ensures Moves(s, DoRemove(s, owner, d))
  {
    if Delete(s.db, owner, d).Some? {
      RemoveShape(s.db, owner, d);
      SoftDeleteMoves(s, DoRemove(s, owner, d));
      DocumentsOnly(s, DoRemove(s, owner, d));
    } else {
      Stays(s, s);
    }
  }

  lemma LeaveMoves(s: System, a: Uuid)
    requires RowsOk(s)
    ensures Moves(s, DoLeave(s, a))
  {
    if Withdraw(s.db, a).Some? {
      LeaveShape(s.db, a);
      SoftDeleteMoves(s, DoLeave(s, a));
      DocumentsOnly(s, DoLeave(s, a));
    } else {
      Stays(s, s);
    }
  }

  lemma FilesAreUnseen(s: System, t: System, u: System)
    requires Moves(s, t) && u == t.(files := u.files)
    ensures Moves(s, u)
  {
  }

  lemma ApiMoves(s: System, step: ApiStep, t: System)
    requires RowsOk(s) && ApiNext(s, step, t)
    ensures Moves(s, t)
  {
    match step
    case NewAccount(a) => Stays(s, t);
    case PutFile(_, _) => Stays(s, t);
    case FailUpload(_, _) => Stays(s, t);
    case Compensate(_, _) => Stays(s, t);
    case Remove(owner, d) => RemoveMoves(s, owner, d);
    case Leave(a) => LeaveMoves(s, a);
    case _ =>
      PlanNext(s, step, t);
      PlanMoves(s, PlanOf(s.db, step));
      FilesAreUnseen(s, DoBegin(s, PlanOf(s.db, step)), t);
  }

  // ----- dispatchers -----

  lemma LeaseMoves(db: Db, token: Uuid, picked: set<Uuid>)
    ensures EventsMove(db.outbox, ClaimEvents(db, token, picked).outbox)
  {
  }

  lemma OneEventMoves(outbox: map<Uuid, OutboxEvent>, e: Uuid, row: OutboxEvent)
    requires e in outbox && EventMoves(outbox[e], row)
    ensures EventsMove(outbox, outbox[e := row])
  {
  }

  lemma GiveUpMoves(db: Db, e: Uuid, token: Uuid, attempts: nat)
    ensures EventsMove(db.outbox, SendFailed(db, e, token, attempts).outbox)
  {
    ProofsDispatch.SendFailedShape(db, e, token, attempts);
    if Leased(db, e, token) {
      OneEventMoves(db.outbox, e, ProofsDispatch.FailedRow(db.outbox[e], attempts));
    } else {
      EventsStay(db.outbox);
    }
  }

  lemma MarkMoves(used: set<Uuid>, jobs: map<Uuid, Job>, j: Uuid)
    ensures JobsMove(used, jobs, MarkJobProcessing(jobs, j))
  {
  }

  lemma PublishMoves(s: System, token: Uuid)
    requires Busy(s, token, Delivered)
    ensures Moves(s, DoPublish(s, token))
  {
    var c := Head(s, token);
    var t := DoPublish(s, token);
    if Leased(s.db, c.id, token) {
      OneEventMoves(s.db.outbox, c.id, s.db.outbox[c.id].(published := true));
      MarkMoves(s.used, s.db.jobs, c.row.payload.data.job);
      ProofsDispatch.PublishMovesDocuments(s.db.documents, c.row.payload.data.document, c.row.payload.data.version);
      StatusMoves(s, t);
    } else {
      Stays(s, t);
    }
  }

  lemma DispatchMoves(s: System, token: Uuid, step: DispatchStep, t: System)
    requires DispatchersOk(s.dispatchers, s.db.outbox, s.sent) && OutboxValid(s.db.outbox, s.requests)
    requires DispatchNext(s, token, step, t)
    ensures Moves(s, t)
  {
    match step
    case Lease(picked) =>
      LeaseMoves(s.db, token, Elements(picked));
      EventsOnly(s, t);
    case Publish => PublishMoves(s, token);
    case GiveUp =>
      GiveUpMoves(s.db, Head(s, token).id, token, Head(s, token).row.attempts);
      EventsOnly(s, t);
    case DropInvalid => ProofsDispatch.NothingInvalid(s, token);
    case _ => Stays(s, t);
  }

  // ----- the result consumer -----

  lemma FailJobMoves(used: set<Uuid>, jobs: map<Uuid, Job>, j: Uuid)
    ensures JobsMove(used, jobs, FailJob(jobs, j)) && JobsMove(used, jobs, CompleteJob(jobs, j))
  {
  }

  lemma NewThenCompleteMoves(used: set<Uuid>, jobs: map<Uuid, Job>, j: Uuid, job: Job, done: Uuid)
    requires j !in used
    ensures JobsMove(used, jobs, CompleteJob(jobs[j := job], done))
  {
  }

  /** The documents and the jobs, and an inbox that grows. */
  lemma RejectionIsMove(s: System, t: System)
    requires t.db.versions == s.db.versions && t.db.outbox == s.db.outbox && t.db.jobIndex == s.db.jobIndex
    requires s.db.inbox.Keys <= t.db.inbox.Keys && t.eventOf == s.eventOf && t.requests == s.requests && s.used <= t.used
    requires DocumentsMove(s, t) && JobsMove(s.used, s.db.jobs, t.db.jobs)
    ensures Moves(s, t)
  {
  }

  lemma CommitFailureMoves(s: System, job: Uuid)
    requires Inv(s) && s.consumer.HasDocument? && s.consumer.m.version > 0
    requires Judge(s.db, s.consumer.m, s.consumer.job, s.consumer.found, job) == AppliedFailure
    ensures Moves(s, DoCommit(s, job))
  {
    var m := s.consumer.m;
    FailureShape(s, job);
    RejectScrapeMoves(s, m.eventId);
    NothingMoved(s.db.documents);
    StatusMoves(s, DoCommit(s, job));
    FailJobMoves(s.used, s.db.jobs, m.job);
    RejectionIsMove(s, DoCommit(s, job));
  }

  lemma ResultVersionMoves(s: System, t: System, e: Uuid, k: VersionKey, version: Version)
    requires RequestsPaired(s.requests, s.eventOf) && Requested(s, e, k.document, k.version)
    requires ScrapesRequested(s.db.documents, s.db.jobIndex, s.requests, s.eventOf)
    requires t.db.versions == s.db.versions[k := version] && t.db.inbox == s.db.inbox[e := true] && t.eventOf == s.eventOf
    requires forall x :: x in s.db.jobIndex ==> x in t.db.jobIndex && t.db.jobIndex[x] == s.db.jobIndex[x]
    requires !Received(s, k)
    ensures VersionsMove(s, t)
  {
    ResultIsApplied(s, e, k.document, k.version);
  }

  lemma ShownDocumentMoves(s: System, t: System, d: Uuid, after: Document)
    requires t.db.documents == s.db.documents[d := after] && d in s.db.documents && Scraped(s.db.documents[d], after)
    requires !Received(s, VersionKey(d, after.currentVersion))
    ensures DocumentsMove(s, t)
  {
  }

  lemma ShownIndexMoves(s: System, e: Uuid, d: Uuid, after: Document, version: Version, job: Uuid)
    requires d in s.db.documents && e in s.requests && JobKey(d, after.currentVersion, Enrich) !in s.db.jobIndex
    ensures IndexMoves(s, Shown(Counted(s, e, s.requests[e].job), d, after, version, job))
  {
  }

  lemma ShownMoves(s: System, e: Uuid, d: Uuid, after: Document, version: Version, job: Uuid)
    requires RowsOk(s) && PhaseEarned(s.db.documents, s.db.jobIndex, s.eventOf, s.db.inbox)
    requires Requested(s, e, d, after.currentVersion) && job !in s.used && Scraped(s.db.documents[d], after)
    ensures var t := Shown(Counted(s, e, s.requests[e].job), d, after, version, job);
            Moves(s, t.(db := t.db.(jobs := CompleteJob(t.db.jobs, s.requests[e].job))))
  {
    var t := Shown(Counted(s, e, s.requests[e].job), d, after, version, job);
    NotYetApplied(s, e);
    ShownIndexMoves(s, e, d, after, version, job);
    ShownDocumentMoves(s, t, d, after);
    NewThenCompleteMoves(s.used, s.db.jobs, job, Job(JobKey(d, after.currentVersion, Enrich), Queued, 0), s.requests[e].job);
    ResultVersionMoves(s, t, e, VersionKey(d, after.currentVersion), version);
    EventsStay(s.db.outbox);
  }

  lemma CommitCurrentMoves(s: System, job: Uuid)
    requires Inv(s) && Applying(s, job) && ReadAsCurrent(s.consumer.m, s.consumer.found) && job !in s.used
    ensures Moves(s, DoCommit(s, job))
  {
    var m := s.consumer.m;
    ApplyingRequested(s, job);
    AppliedGuards(s.db, m, s.consumer.job, s.consumer.found, job);
    NotYetApplied(s, m.eventId);
    CurrentShape(s, job);
    ShownMoves(s, m.eventId, m.document, ScrapedDocument(s.db.documents[m.document], m), ResultVersion(m), job);
  }

  lemma CommitOldMoves(s: System, job: Uuid)
    requires Inv(s) && Applying(s, job) && !ReadAsCurrent(s.consumer.m, s.consumer.found)
    ensures Moves(s, DoCommit(s, job))
  {
    var m, t := s.consumer.m, DoCommit(s, job);
    ApplyingRequested(s, job);
    NotYetApplied(s, m.eventId);
    OldShape(s, job);
    DocumentsStay(s, t);
    FailJobMoves(s.used, s.db.jobs, m.job);
    ResultVersionMoves(s, t, m.eventId, VersionKey(m.document, m.version), ResultVersion(m));
    EventsStay(s.db.outbox);
  }

  lemma NothingCommittedMoves(s: System, job: Uuid)
    requires s.consumer.HasDocument? && s.consumer.m.version > 0
    requires Judge(s.db, s.consumer.m, s.consumer.job, s.consumer.found, job) in {RolledBack, Duplicate}
    ensures Moves(s, DoCommit(s, job))
  {
  }

  lemma CommitMoves(s: System, job: Uuid)
    requires Inv(s) && s.consumer.HasDocument? && job !in s.used
    ensures Moves(s, DoCommit(s, job))
  {
    TerminalIsDuplicate(s, job);
    var verdict := Judge(s.db, s.consumer.m, s.consumer.job, s.consumer.found, job);
    if verdict == AppliedFailure {
      CommitFailureMoves(s, job);
    } else if verdict != AppliedSuccess {
      NothingCommittedMoves(s, job);
    } else if ReadAsCurrent(s.consumer.m, s.consumer.found) {
      CommitCurrentMoves(s, job);
    } else {
      CommitOldMoves(s, job);
    }
  }

  lemma ConsumeMoves(s: System, step: ConsumeStep, t: System)
    requires Inv(s) && ConsumeNext(s, step, t)
    ensures Moves(s, t)
  {
    match step
    case Commit(job) =>
      FreshOne(s, job);
      CommitMoves(s, job);
    case _ => Stays(s, t);
  }

  // ----- the enrichment loop -----

  lemma ClaimedMove(used: set<Uuid>, jobs: map<Uuid, Job>, picked: set<Uuid>)
    requires forall j :: j in picked ==> j in jobs && ClaimableJob(jobs[j])
    ensures JobsMove(used, jobs, ClaimJobs(jobs, picked))
  {
  }

  lemma EnrichedDocumentMoves(s: System, t: System, d: Uuid, after: Document)
    requires t.db.documents == s.db.documents[d := after] && d in s.db.documents && after.status == Completed
    requires after == s.db.documents[d].(content := after.content, summary := after.summary, status := Completed)
    requires Phase(s.db.documents[d].status) >= 1
    ensures DocumentsMove(s, t)
  {
  }

  lemma FinishedMoves(s: System, after: Document, version: Version, answered: bool)
    requires PhaseEarned(s.db.documents, s.db.jobIndex, s.eventOf, s.db.inbox) && CanEnrich(s, after, version)
    ensures Moves(s, Finished(s, after, version, answered))
  {
    var c := Protocol.Current(s);
    EnrichedDocumentMoves(s, Finished(s, after, version, answered), c.document, after);
    FailJobMoves(s.used, s.db.jobs, c.id);
    EventsStay(s.db.outbox);
  }

  lemma FinishMoves(s: System, extracted: string, summary: string, answered: bool)
    requires Inv(s) && EnricherBusy(s) && s.enricher.stage.HasBoth?
    ensures Moves(s, DoFinish(s, extracted, summary, answered))
  {
    var c := Protocol.Current(s);
    var version, document := s.enricher.stage.version, s.enricher.stage.document;
    if CommitEnrichment(s.db, c, version, document, extracted, summary).Some? {
      var content := EnrichContent(version, document, extracted);
      CommitShape(s.db, c, version, document, extracted, summary);
      CommitCanEnrich(s, extracted, summary);
      FinishedMoves(s, s.db.documents[c.document].(content := content, summary := summary, status := Completed),
                    s.db.versions[VersionKey(c.document, c.version)].(content := content, summary := summary), answered);
    } else {
      Stays(s, s);
    }
  }

  lemma RejectMoves(s: System, stored: bool)
    requires Inv(s) && EnricherBusy(s)
    ensures Moves(s, DoReject(s, stored))
  {
    var c := Protocol.Current(s);
    RejectedWasEnriching(s.db.documents, s.db.jobs, s.db.jobIndex, s.eventOf, s.db.inbox, s.enricher);
    RejectionMoves(s.db, c.document, c.version);
    NothingMoved(s.db.documents);
    StatusMoves(s, DoReject(s, stored));
    DocumentsOnly(s, DoReject(s, stored));
  }

  lemma EnrichMoves(s: System, step: EnrichStep, t: System)
    requires Inv(s) && EnrichNext(s, step, t)
    ensures Moves(s, t)
  {
    match step
    case TakeJobs(picked) =>
      ClaimedMove(s.used, s.db.jobs, Elements(picked));
      JobsOnly(s, t);
    case FinishOutdated(_) =>
      FailJobMoves(s.used, s.db.jobs, Protocol.Current(s).id);
      JobsOnly(s, t);
    case Finish(extracted, summary, answered) => FinishMoves(s, extracted, summary, answered);
    case Fail(stored) =>
      FailJobMoves(s.used, s.db.jobs, Protocol.Current(s).id);
      JobsStay(s.used, s.db.jobs);
      JobsOnly(s, t);
    case Reject(stored) => RejectMoves(s, stored);
    case _ => Stays(s, t);
  }

  // ----- hard deletion -----

  lemma PurgeMoves(s: System, t: System, gone: set<Uuid>)
    requires t == s.(db := RemoveDocuments(s.db, gone).(accounts := t.db.accounts))
    ensures Moves(s, t)
  {
    EventsStay(s.db.outbox);
  }

  // ----- every step, every run -----

  lemma CleanMoves(s: System, step: CleanStep, t: System)
    requires CleanNext(s, step, t)
    ensures Moves(s, t)
  {
  }

  lemma NextMoves(s: System, step: Step, t: System)
    requires Inv(s) && Next(s, step, t)
    ensures Moves(s, t)
  {
    match step
    case Api(api) => ApiMoves(s, api, t);
    case Dispatch(token, dispatch) => DispatchMoves(s, token, dispatch, t);
    case Scraper(m) => Stays(s, t);
    case Consume(consume) => ConsumeMoves(s, consume, t);
    case Enriching(enrich) => EnrichMoves(s, enrich, t);
    case Cleaning(clean) => CleanMoves(s, clean, t);
    case PurgeDocuments(expired) => PurgeMoves(s, t, expired);
    case PurgeAccount(a) => PurgeMoves(s, t, OwnedDocuments(s.db.documents, a));
  }

  lemma ExactAt(states: seq<System>, steps: seq<Step>, i: nat)
    requires IsRun(states, steps) && i < |states|
    ensures Exact(states[i])
  {
    RunKeeps(states, steps, i);
  }

  lemma StepMoves(states: seq<System>, steps: seq<Step>, i: nat)
    requires IsRun(states, steps) && i < |steps|
    ensures Moves(states[i], states[i + 1])
  {
    RunKeeps(states, steps, i);
    RunStep(states, steps, i);
    NextMoves(states[i], steps[i], states[i + 1]);
  }

  lemma OneMoreStepMoves(states: seq<System>, steps: seq<Step>, i: nat, j: nat)
    requires IsRun(states, steps) && i <= j < |steps| && Moves(states[i], states[j])
    ensures Moves(states[i], states[j + 1])
  {
    ExactAt(states, steps, i);
    ExactStep(states, steps, j);
    MovesCompose(states[i], states[j], states[j + 1]);
  }

  lemma ExactStep(states: seq<System>, steps: seq<Step>, i: nat)
    requires IsRun(states, steps) && i < |steps|
    ensures Exact(states[i]) && Exact(states[i + 1]) && Moves(states[i], states[i + 1])
  {
    ExactAt(states, steps, i);
    ExactAt(states, steps, i + 1);
    StepMoves(states, steps, i);
  }

  /** Between any two states of a run, rows have only moved forward. */
  lemma {:induction false} RunMoves(states: seq<System>, steps: seq<Step>, i: nat, j: nat)
    requires IsRun(states, steps) && i <= j < |states|
    ensures Moves(states[i], states[j])
    decreases j - i
  {
    if i == j {
      Stays(states[i], states[i]);
    } else {
      RunMoves(states, steps, i, j - 1);
      OneMoreStepMoves(states, steps, i, j - 1);
    }
  }
}
