/** What a step does to the version rows that name objects: at most one row changes its keys. */
module Objects {
  import opened Schema
  import opened Transactions
  import opened Protocol
  import opened Invariants
  import ProofsApi
  import ProofsConsume

  /** The version row names the object by one of its keys. */
  ghost predicate Names(documents: map<Uuid, Document>, versions: map<VersionKey, Version>, k: VersionKey, r: Recorded) {
    && k in versions && k.document in documents && r.document == k.document
    && r.target.bucket == (if documents[k.document].kind == Webpage then ArtifactBucket else DocumentBucket)
    && r.target.key != "" && (r.target.key == versions[k].rawKey || r.target.key == versions[k].contentKey)
  }

  /** What is recorded for a row is what it names. */
  lemma RecordedIsNamed(documents: map<Uuid, Document>, versions: map<VersionKey, Version>, k: VersionKey, r: Recorded)
    requires k in versions && k.document in documents
    ensures r in RecordedBy(k.document, documents[k.document].kind, versions[k]) <==> Names(documents, versions, k, r)
  {
    if Names(documents, versions, k, r) {
      assert r.target.key in KeysOf(versions[k]);
      assert r == Recorded(k.document, S3Object(BucketOf(documents[k.document].kind), r.target.key));
    }
  }

  /** The row that the step gives its keys, if it is one that does. */
  ghost function Changed(s: System, step: Step): set<VersionKey> {
    match step
    case Api(api) => var plan := ProofsApi.PlanOf(s.db, api); if plan.Some? then {plan.value.Key()} else {}
    case Consume(consume) => ChangedByConsumer(s, consume)
    case _ => {}
  }

  ghost function ChangedByConsumer(s: System, step: ConsumeStep): set<VersionKey> {
    if step.Commit? then ChangedByCommit(s, step.job) else {}
  }

  ghost function ChangedByCommit(s: System, job: Uuid): set<VersionKey> {
    if ProofsConsume.Applying(s, job) then {VersionKey(s.consumer.m.document, s.consumer.m.version)} else {}
  }

  ghost predicate SameKeys(s: System, t: System, k: VersionKey)
    requires k in t.db.versions && k.document in t.db.documents
  {
    && k in s.db.versions && k.document in s.db.documents
    && t.db.documents[k.document].kind == s.db.documents[k.document].kind
    && t.db.versions[k].rawKey == s.db.versions[k].rawKey && t.db.versions[k].contentKey == s.db.versions[k].contentKey
  }

  ghost predicate KeysKept(s: System, t: System, changed: set<VersionKey>) {
    forall k :: k in t.db.versions && k.document in t.db.documents && k !in changed ==> SameKeys(s, t, k)
  }

  /** No cleanup gets further, and objects are recorded for the changed row alone. */
  ghost predicate CleanupKept(s: System, t: System, changed: set<VersionKey>) {
    && t.cleaner == s.cleaner
    && (forall d :: d in t.db.cleanup && t.db.cleanup[d].state != Queued ==> d in s.db.cleanup && t.db.cleanup[d] == s.db.cleanup[d])
    && (forall r :: r in t.undeleted && r !in s.undeleted ==> exists k :: k in changed && k.document == r.document)
  }

  ghost predicate Tracked(s: System, t: System, changed: set<VersionKey>) {
    KeysKept(s, t, changed) && CleanupKept(s, t, changed)
  }

  /** Rows may go, and documents change in everything but their kind. */
  lemma RowsStay(s: System, t: System, changed: set<VersionKey>)
    requires t.db.versions == s.db.versions && CleanupKept(s, t, changed)
    requires forall d :: d in t.db.documents ==> d in s.db.documents && t.db.documents[d].kind == s.db.documents[d].kind
    ensures Tracked(s, t, changed)
  {
  }

  lemma BeginTracked(s: System, n: NewVersion, t: System)
    requires RowsOk(s) && ProofsApi.CanBegin(s, n) && t == DoBegin(s, Some(n)).(files := t.files)
    ensures Tracked(s, t, {n.Key()})
  {
    ProofsApi.BeginUnmet(s, n);
    ProofsApi.BeginShape(s, n);
    ProofsApi.BeginLeaves(s, Some(n));
    assert forall r :: r in RecordedBy(n.d, n.document.kind, n.version) ==> r.document == n.Key().document;
  }

  lemma DeletionTracked(s: System, owner: Uuid, d: Uuid)
    ensures Tracked(s, DoRemove(s, owner, d), {}) && Tracked(s, DoLeave(s, owner), {})
  {
    ProofsApi.DeletionLeaves(s, owner, d);
  }

  lemma ApiTracked(s: System, step: ApiStep, t: System)
    requires RowsOk(s) && ApiNext(s, step, t)
    ensures Tracked(s, t, Changed(s, Api(step)))
  {
    match step
    case NewAccount(a) => RowsStay(s, t, {});
    case PutFile(_, _) => RowsStay(s, t, {});
    case FailUpload(_, _) => RowsStay(s, t, {});
    case Compensate(_, _) => RowsStay(s, t, {});
    case Remove(owner, d) => DeletionTracked(s, owner, d);
    case Leave(a) => DeletionTracked(s, a, NIL);
    case _ =>
      ProofsApi.PlanNext(s, step, t);
      if ProofsApi.PlanOf(s.db, step).Some? {
        BeginTracked(s, ProofsApi.PlanOf(s.db, step).value, t);
      } else {
        RowsStay(s, t, {});
      }
  }

  lemma PublishTracked(s: System, token: Uuid)
    requires Busy(s, token, Delivered)
    ensures Tracked(s, DoPublish(s, token), {})
  {
    RowsStay(s, DoPublish(s, token), {});
  }

  lemma DispatchTracked(s: System, token: Uuid, step: DispatchStep, t: System)
    requires DispatchNext(s, token, step, t)
    ensures Tracked(s, t, {})
  {
    match step
    case Publish => PublishTracked(s, token);
    case _ => RowsStay(s, t, {});
  }

  lemma RowWritten(s: System, t: System, k: VersionKey, version: Version)
    requires k.document in s.db.documents && t.db.versions == s.db.versions[k := version]
    requires forall d :: d in t.db.documents ==> d in s.db.documents && t.db.documents[d].kind == s.db.documents[d].kind
    requires t.undeleted == s.undeleted + RecordedBy(k.document, s.db.documents[k.document].kind, version)
    requires CleanupKept(s, t.(undeleted := s.undeleted), {})
    ensures Tracked(s, t, {k})
  {
    ProofsConsume.InRecorded(k.document, s.db.documents[k.document].kind, version);
  }

  lemma CurrentTracked(s: System, job: Uuid)
    requires ProofsConsume.Applying(s, job) && ReadAsCurrent(s.consumer.m, s.consumer.found)
    requires JobKey(s.consumer.m.document, s.consumer.m.version, Enrich) !in s.db.jobIndex
    ensures Tracked(s, DoCommit(s, job), {VersionKey(s.consumer.m.document, s.consumer.m.version)})
  {
    var m := s.consumer.m;
    ProofsConsume.AppliedGuards(s.db, m, s.consumer.job, s.consumer.found, job);
    ProofsConsume.CurrentShape(s, job);
    RowWritten(s, DoCommit(s, job), VersionKey(m.document, m.version), ResultVersion(m));
  }

  lemma OldRow(s: System, job: Uuid)
    requires ProofsConsume.Applying(s, job) && !ReadAsCurrent(s.consumer.m, s.consumer.found)
    requires s.consumer.m.document in s.db.documents
    ensures var m, t := s.consumer.m, DoCommit(s, job);
            && t.db.versions == s.db.versions[VersionKey(m.document, m.version) := ResultVersion(m)]
            && t.db.documents == s.db.documents && t.cleaner == s.cleaner
            && t.undeleted == s.undeleted + RecordedBy(m.document, s.db.documents[m.document].kind, ResultVersion(m))
            && (t.db.cleanup == s.db.cleanup
                || (m.document in s.db.cleanup && t.db.cleanup == s.db.cleanup[m.document := CleanupJob(Queued, 0)]))
  {
    ProofsConsume.OldShape(s, job);
  }

  lemma OldTracked(s: System, t: System, k: VersionKey, version: Version)
    requires k.document in s.db.documents && t.db.versions == s.db.versions[k := version]
    requires t.db.documents == s.db.documents && t.cleaner == s.cleaner
    requires t.undeleted == s.undeleted + RecordedBy(k.document, s.db.documents[k.document].kind, version)
    requires t.db.cleanup == s.db.cleanup
             || (k.document in s.db.cleanup && t.db.cleanup == s.db.cleanup[k.document := CleanupJob(Queued, 0)])
    ensures Tracked(s, t, {k})
  {
    RowWritten(s, t, k, version);
  }

  lemma FailureTracked(s: System, job: Uuid)
    requires s.consumer.HasDocument? && s.consumer.m.version > 0
    requires Judge(s.db, s.consumer.m, s.consumer.job, s.consumer.found, job) == AppliedFailure
    ensures Tracked(s, DoCommit(s, job), {})
  {
    ProofsConsume.FailureShape(s, job);
    RowsStay(s, DoCommit(s, job), {});
  }

  lemma NothingTracked(s: System, job: Uuid)
    requires s.consumer.HasDocument? && s.consumer.m.version > 0
    requires Judge(s.db, s.consumer.m, s.consumer.job, s.consumer.found, job) in {RolledBack, Duplicate}
    ensures Tracked(s, DoCommit(s, job), {})
  {
    RowsStay(s, DoCommit(s, job), {});
  }

  /** What the tracking of results needs of the invariant. */
  ghost predicate ResultsKnown(s: System) {
    && RowsOk(s) && PhaseEarned(s.db.documents, s.db.jobIndex, s.eventOf, s.db.inbox)
    && ConsumerOk(s.consumer, s.db.documents, s.requests, s.db.inbox)
  }

  lemma SuccessTracked(s: System, job: Uuid)
    requires ResultsKnown(s) && ProofsConsume.Applying(s, job)
    ensures Tracked(s, DoCommit(s, job), ChangedByCommit(s, job))
  {
    ProofsConsume.ApplyingRequested(s, job);
    ProofsConsume.NotYetApplied(s, s.consumer.m.eventId);
    if ReadAsCurrent(s.consumer.m, s.consumer.found) {
      CurrentTracked(s, job);
    } else {
      OldRow(s, job);
      OldTracked(s, DoCommit(s, job), VersionKey(s.consumer.m.document, s.consumer.m.version), ResultVersion(s.consumer.m));
    }
  }

  lemma OtherTracked(s: System, job: Uuid)
    requires s.consumer.HasDocument? && s.consumer.m.version > 0
    requires Judge(s.db, s.consumer.m, s.consumer.job, s.consumer.found, job) in {RolledBack, Duplicate, AppliedFailure}
    ensures Tracked(s, DoCommit(s, job), {})
  {
    if Judge(s.db, s.consumer.m, s.consumer.job, s.consumer.found, job) == AppliedFailure {
      FailureTracked(s, job);
    } else {
      NothingTracked(s, job);
    }
  }

  lemma UnappliedTracked(s: System, job: Uuid)
    requires ConsumerOk(s.consumer, s.db.documents, s.requests, s.db.inbox)
    requires s.consumer.HasDocument? && !ProofsConsume.Applying(s, job)
    ensures Tracked(s, DoCommit(s, job), ChangedByCommit(s, job))
  {
    ProofsConsume.TerminalIsDuplicate(s, job);
    OtherTracked(s, job);
  }

  lemma CommitTracked(s: System, job: Uuid)
    requires ResultsKnown(s) && s.consumer.HasDocument?
    ensures Tracked(s, DoCommit(s, job), ChangedByCommit(s, job))
  {
    if ProofsConsume.Applying(s, job) {
      SuccessTracked(s, job);
    } else {
      UnappliedTracked(s, job);
    }
  }

  lemma ReadTracked(s: System, step: ConsumeStep, t: System)
    requires ConsumeNext(s, step, t) && !step.Commit?
    ensures Tracked(s, t, {})
  {
    assert t == s.(consumer := t.consumer);
    RowsStay(s, t, {});
  }

  lemma ConsumeTracked(s: System, step: ConsumeStep, t: System)
    requires ResultsKnown(s) && ConsumeNext(s, step, t)
    ensures Tracked(s, t, ChangedByConsumer(s, step))
  {
    if step.Commit? {
      CommitTracked(s, step.job);
    } else {
      ReadTracked(s, step, t);
    }
  }

  lemma FinishTracked(s: System, extracted: string, summary: string, answered: bool)
    requires EnricherBusy(s) && s.enricher.stage.HasBoth?
    ensures Tracked(s, DoFinish(s, extracted, summary, answered), {})
  {
  }

  lemma RejectTracked(s: System, stored: bool)
    requires EnricherBusy(s)
    ensures Tracked(s, DoReject(s, stored), {})
  {
    RowsStay(s, DoReject(s, stored), {});
  }

  lemma EnrichTracked(s: System, step: EnrichStep, t: System)
    requires EnrichNext(s, step, t)
    ensures Tracked(s, t, {})
  {
    match step
    case Finish(extracted, summary, answered) => FinishTracked(s, extracted, summary, answered);
    case Reject(stored) => RejectTracked(s, stored);
    case _ => RowsStay(s, t, {});
  }

  lemma PurgeTracked(s: System, t: System, gone: set<Uuid>)
    requires t == s.(db := RemoveDocuments(s.db, gone).(accounts := t.db.accounts))
    ensures Tracked(s, t, {})
  {
  }

  /** Every step but those of the scraper, which stores objects, and of the cleanup loop, which deletes them. */
  lemma StepIsTracked(s: System, step: Step, t: System)
    requires ResultsKnown(s) && Next(s, step, t) && !step.Scraper? && !step.Cleaning?
    ensures Tracked(s, t, Changed(s, step))
  {
    match step
    case Api(api) => ApiTracked(s, api, t);
    case Dispatch(token, dispatch) => DispatchTracked(s, token, dispatch, t);
    case Consume(consume) => ConsumeTracked(s, consume, t);
    case Enriching(enrich) => EnrichTracked(s, enrich, t);
    case PurgeDocuments(expired) => PurgeTracked(s, t, expired);
    case PurgeAccount(a) => PurgeTracked(s, t, OwnedDocuments(s.db.documents, a));
  }

  lemma CleaningKeepsRows(s: System, step: CleanStep, t: System)
    requires CleanNext(s, step, t)
    ensures t.db.versions == s.db.versions && t.db.documents == s.db.documents
  {
  }
}
