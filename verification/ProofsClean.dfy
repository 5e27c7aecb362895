/** The cleanup loop and the hard deletions keep the invariant. */
module ProofsClean {
  import opened Schema
  import opened Transactions
  import opened Protocol
  import opened Invariants

  // ----- the cleanup loop -----

  lemma CleanupRowsMove(s: System, t: System)
    requires Inv(s) && t == s.(db := s.db.(cleanup := t.db.cleanup)) && t.db.cleanup.Keys == s.db.cleanup.Keys
    ensures Inv(t)
  {
  }

  lemma CleanKeeps(s: System, step: CleanStep, t: System)
    requires Inv(s) && CleanNext(s, step, t)
    ensures Inv(t)
  {
    var moved := s.(db := s.db.(cleanup := t.db.cleanup));
    assert t.db.cleanup.Keys == s.db.cleanup.Keys;
    CleanupRowsMove(s, moved);
    ObjectsDoNotMatter(moved, t);
  }

  // ----- hard deletion -----

  lemma PurgeKeepsTables(db: Db, gone: set<Uuid>)
    requires VersionsExact(db.documents, db.versions) && JobsIndexed(db.documents, db.jobs, db.jobIndex)
    ensures var t := RemoveDocuments(db, gone);
            VersionsExact(t.documents, t.versions) && JobsIndexed(t.documents, t.jobs, t.jobIndex)
  {
  }

  lemma PurgeKeepsScrapes(db: Db, gone: set<Uuid>, requests: map<Uuid, ScrapeRequest>, eventOf: map<Uuid, Uuid>)
    requires ScrapesRequested(db.documents, db.jobIndex, requests, eventOf)
    ensures var t := RemoveDocuments(db, gone); ScrapesRequested(t.documents, t.jobIndex, requests, eventOf)
  {
  }

  lemma PurgeKeepsDeletion(db: Db, gone: set<Uuid>)
    requires DeletedIffCleanup(db.accounts, db.documents, db.cleanup)
    ensures var t := RemoveDocuments(db, gone); DeletedIffCleanup(t.accounts, t.documents, t.cleanup)
  {
  }

  lemma PurgeKeepsRows(s: System, gone: set<Uuid>)
    requires RowsOk(s)
    ensures RowsOk(s.(db := RemoveDocuments(s.db, gone)))
  {
    PurgeKeepsTables(s.db, gone);
    PurgeKeepsScrapes(s.db, gone, s.requests, s.eventOf);
    PurgeKeepsDeletion(s.db, gone);
  }

  lemma PurgeKeepsEnriched(db: Db, gone: set<Uuid>, d: Uuid, v: nat)
    requires JobsIndexed(db.documents, db.jobs, db.jobIndex) && d !in gone
    ensures var t := RemoveDocuments(db, gone);
            && (HasEnrichJob(t.jobs, t.jobIndex, d, v) <==> HasEnrichJob(db.jobs, db.jobIndex, d, v))
            && (Enriched(t.jobs, t.jobIndex, d, v) <==> Enriched(db.jobs, db.jobIndex, d, v))
  {
  }

  lemma PurgeKeepsPhases(db: Db, gone: set<Uuid>, eventOf: map<Uuid, Uuid>)
    requires JobsIndexed(db.documents, db.jobs, db.jobIndex)
    requires PhaseEarned(db.documents, db.jobIndex, eventOf, db.inbox) && StatusBacked(db.documents, db.jobs, db.jobIndex)
    ensures var t := RemoveDocuments(db, gone);
            && PhaseEarned(t.documents, t.jobIndex, eventOf, t.inbox) && StatusBacked(t.documents, t.jobs, t.jobIndex)
  {
    var t := RemoveDocuments(db, gone);
    forall d, v | d in t.documents && ResultApplied(db.jobIndex, eventOf, db.inbox, d, v)
      ensures ResultApplied(t.jobIndex, eventOf, t.inbox, d, v)
    {
    }
    forall d, v | d in t.documents
      ensures HasEnrichJob(t.jobs, t.jobIndex, d, v) <==> HasEnrichJob(db.jobs, db.jobIndex, d, v)
      ensures Enriched(t.jobs, t.jobIndex, d, v) <==> Enriched(db.jobs, db.jobIndex, d, v)
    {
      PurgeKeepsEnriched(db, gone, d, v);
    }
  }

  lemma PurgeKeepsWorkers(s: System, gone: set<Uuid>)
    requires ConsumerOk(s.consumer, s.db.documents, s.requests, s.db.inbox)
    requires BatchHeld(s.enricher, s.used, s.db.jobs) && BatchVersions(s.enricher, s.db.documents, s.db.jobIndex)
    requires SnapshotKept(s.enricher, s.db.documents, s.db.versions)
    ensures var db := RemoveDocuments(s.db, gone);
            && ConsumerOk(s.consumer, db.documents, s.requests, db.inbox)
            && BatchHeld(s.enricher, s.used, db.jobs) && BatchVersions(s.enricher, db.documents, db.jobIndex)
            && SnapshotKept(s.enricher, db.documents, db.versions)
  {
  }

  lemma PurgeKeepsProjection(db: Db, gone: set<Uuid>, claims: multiset<Uuid>, enrichJobs: set<Uuid>)
    requires ProjectionAgrees(db.documents, db.versions) && ClaimsCounted(db.jobs, claims, enrichJobs)
    ensures var t := RemoveDocuments(db, gone);
            ProjectionAgrees(t.documents, t.versions) && ClaimsCounted(t.jobs, claims, enrichJobs)
  {
    var t := RemoveDocuments(db, gone);
    forall d | d in t.documents && !t.documents[d].deleted ensures Projected(t.documents, t.versions, d) {
      assert Projected(db.documents, db.versions, d);
    }
  }

  lemma PurgeKeepsIndex(db: Db, gone: set<Uuid>)
    requires JobsIndexed(db.documents, db.jobs, db.jobIndex)
    requires IndexAgrees(db.documents, db.jobs, db.jobIndex, db.chunks)
    ensures var t := RemoveDocuments(db, gone); IndexAgrees(t.documents, t.jobs, t.jobIndex, t.chunks)
  {
    var t := RemoveDocuments(db, gone);
    forall k: ChunkKey | ShowsVersion(t.documents, k.document, k.version)
      ensures ChunkAt(t.chunks, k) ==
              ExpectedChunk(Enriched(t.jobs, t.jobIndex, k.document, k.version), t.documents[k.document].content, k.index)
    {
      assert ShowsVersion(db.documents, k.document, k.version);
      PurgeKeepsEnriched(db, gone, k.document, k.version);
    }
  }

  lemma PurgeKeepsResults(s: System, gone: set<Uuid>)
    requires RowsOk(s) && ResultsOk(s) && EnrichmentOk(s)
    ensures ResultsOk(s.(db := RemoveDocuments(s.db, gone)))
  {
    PurgeKeepsPhases(s.db, gone, s.eventOf);
    PurgeKeepsWorkers(s, gone);
  }

  lemma PurgeKeeps(s: System, gone: set<Uuid>)
    requires Inv(s)
    ensures Inv(s.(db := RemoveDocuments(s.db, gone)))
  {
    PurgeKeepsRows(s, gone);
    PurgeKeepsResults(s, gone);
    PurgeKeepsWorkers(s, gone);
    PurgeKeepsProjection(s.db, gone, s.claims, s.enrichJobs);
    PurgeKeepsIndex(s.db, gone);
  }

  lemma AccountRemoved(accounts: map<Uuid, Account>, documents: map<Uuid, Document>, cleanup: map<Uuid, CleanupJob>, a: Uuid)
    requires DeletedIffCleanup(accounts, documents, cleanup) && forall d :: d in documents ==> documents[d].owner != a
    ensures DeletedIffCleanup(accounts - {a}, documents, cleanup)
  {
  }

  lemma PurgeAccountKeeps(s: System, a: Uuid)
    requires Inv(s)
    ensures Inv(s.(db := RemoveAccount(s.db, a)))
  {
    var t := s.(db := RemoveDocuments(s.db, OwnedDocuments(s.db.documents, a)));
    PurgeKeeps(s, OwnedDocuments(s.db.documents, a));
    AccountRemoved(t.db.accounts, t.db.documents, t.db.cleanup, a);
  }
}
