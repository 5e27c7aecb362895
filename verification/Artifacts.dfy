/** When the cleanup of a deleted document can be trusted: a finished cleanup has deleted every
    object that the document's version rows name, unless a late result is recorded, or an object is
    stored again, behind its back. */
module Artifacts {
  import opened Schema
  import opened Transactions
  import opened Protocol
  import opened Invariants
  import opened Runs
  import opened Objects
  import Effects
  import ProofsApi
  import ProofsConsume

  /** A finished cleanup leaves no object that a version row names undeleted since it was recorded or stored. */
  ghost predicate Safe(s: System) {
    forall k, r :: Names(s.db.documents, s.db.versions, k, r) && Cleaned(s.db, k.document) ==> r !in s.undeleted
  }

  /** And the cleanup in progress, once it has listed the objects, still has every undeleted one ahead, unless
      its job was queued again. */
  ghost predicate Covered(s: System) {
    && CleanupComplete(s.db.documents, s.db.versions, s.db.cleanup, s.undeleted)
    && CleanerOk(s.cleaner, s.db.documents, s.db.versions, s.db.cleanup, s.undeleted)
  }

  ghost predicate CleanupComplete(documents: map<Uuid, Document>, versions: map<VersionKey, Version>,
                                  cleanup: map<Uuid, CleanupJob>, undeleted: set<Recorded>) {
    forall k, r :: Names(documents, versions, k, r) && k.document in cleanup && cleanup[k.document].state == Succeeded ==>
      r !in undeleted
  }

  ghost predicate CleanerOk(cleaner: Cleaner, documents: map<Uuid, Document>, versions: map<VersionKey, Version>,
                            cleanup: map<Uuid, CleanupJob>, undeleted: set<Recorded>) {
    cleaner.batch != [] && cleaner.stage.Deleting? && CleanupCompletable(cleanup, cleaner.batch[0]) ==>
      forall k, r :: Names(documents, versions, k, r) && k.document == cleaner.batch[0] ==>
        r !in undeleted || r.target in cleaner.stage.todo
  }

  lemma CoveredIsSafe(s: System)
    requires Covered(s)
    ensures Safe(s)
  {
  }

  /** The message in hand is about to be applied although its document, read live at a later version,
      has been deleted since. */
  ghost predicate RacedCommit(s: System, step: Step) {
    && step.Consume? && step.consume.Commit? && ProofsConsume.Applying(s, step.consume.job)
    && Raced(s.db, s.consumer.m, s.consumer.found)
  }

  ghost predicate PastListing(s: System, d: Uuid, target: S3Object) {
    && s.cleaner.batch != [] && s.cleaner.batch[0] == d && s.cleaner.stage.Deleting?
    && CleanupCompletable(s.db.cleanup, d) && target !in s.cleaner.stage.todo
  }

  /** The cleanup of the document has finished, or has already listed without the object. */
  ghost predicate TooLate(s: System, r: Recorded) {
    Cleaned(s.db, r.document) || PastListing(s, r.document, r.target)
  }

  /** A raced commit records such an object, or the scraper stores one again. */
  ghost predicate Harmful(s: System, step: Step) {
    || (RacedCommit(s, step) && exists r :: r in NewlyRecorded(s.db, s.consumer.m) && TooLate(s, r))
    || (step.Scraper? && exists r :: r in StoredAgain(s.db, step.result) && TooLate(s, r))
  }

  // ----- without the race -----

  /** Rows and objects as they were, but for documents without a cleanup or with one that starts over. */
  lemma TrackedCovered(s: System, t: System, changed: set<VersionKey>)
    requires Covered(s) && Tracked(s, t, changed)
    requires forall k :: k in changed ==> k.document !in t.db.cleanup || t.db.cleanup[k.document].state == Queued
    ensures Covered(t)
  {
    forall k, r | Names(t.db.documents, t.db.versions, k, r) && k !in changed
      ensures Names(s.db.documents, s.db.versions, k, r)
    {
      assert SameKeys(s, t, k);
    }
  }

  lemma BegunIsUncleaned(s: System, step: ApiStep, t: System)
    requires RowsOk(s) && ApiNext(s, step, t)
    ensures forall k :: k in Changed(s, Api(step)) ==> k.document !in s.db.cleanup
  {
    if ProofsApi.Begins(step) && ProofsApi.PlanOf(s.db, step).Some? {
      ProofsApi.PlanNext(s, step, t);
      ProofsApi.BeginUnmet(s, ProofsApi.PlanOf(s.db, step).value);
    }
  }

  lemma RecordedIsUncleaned(s: System, job: Uuid)
    requires ResultsKnown(s) && s.consumer.HasDocument?
    requires ProofsConsume.Applying(s, job) && !Raced(s.db, s.consumer.m, s.consumer.found)
    ensures var d, t := s.consumer.m.document, DoCommit(s, job); d !in t.db.cleanup || t.db.cleanup[d].state == Queued
  {
    ProofsConsume.ApplyingRequested(s, job);
    ProofsConsume.NotYetApplied(s, s.consumer.m.eventId);
    if ReadAsCurrent(s.consumer.m, s.consumer.found) {
      CurrentIsUncleaned(s, job);
    } else {
      ProofsConsume.OldShape(s, job);
    }
  }

  lemma CurrentIsUncleaned(s: System, job: Uuid)
    requires DeletedIffCleanup(s.db.accounts, s.db.documents, s.db.cleanup)
    requires ProofsConsume.Applying(s, job) && ReadAsCurrent(s.consumer.m, s.consumer.found)
    requires JobKey(s.consumer.m.document, s.consumer.m.version, Enrich) !in s.db.jobIndex
    ensures s.consumer.m.document !in DoCommit(s, job).db.cleanup
  {
    ProofsConsume.AppliedGuards(s.db, s.consumer.m, s.consumer.job, s.consumer.found, job);
    ProofsConsume.CurrentShape(s, job);
  }

  lemma ApiCovered(s: System, step: ApiStep, t: System)
    requires RowsOk(s) && Covered(s) && ApiNext(s, step, t)
    ensures Covered(t)
  {
    ApiTracked(s, step, t);
    BegunIsUncleaned(s, step, t);
    TrackedCovered(s, t, Changed(s, Api(step)));
  }

  lemma ConsumeCovered(s: System, step: ConsumeStep, t: System)
    requires ResultsKnown(s) && Covered(s) && ConsumeNext(s, step, t) && !RacedCommit(s, Consume(step))
    ensures Covered(t)
  {
    ConsumeTracked(s, step, t);
    if step.Commit? && ProofsConsume.Applying(s, step.job) {
      RecordedIsUncleaned(s, step.job);
    }
    TrackedCovered(s, t, ChangedByConsumer(s, step));
  }

  lemma CompletionOk(s: System)
    requires Covered(s) && CleanerBusy(s) && s.cleaner.stage == Deleting({})
    requires CleanupCompletable(s.db.cleanup, s.cleaner.batch[0])
    ensures Covered(DoComplete(s))
  {
  }

  lemma CleanCovered(s: System, step: CleanStep, t: System)
    requires Covered(s) && CleanNext(s, step, t)
    ensures Covered(t)
  {
    match step
    case Complete => CompletionOk(s);
    case List => ListCovered(s);
    case _ =>
  }

  lemma ListCovered(s: System)
    requires Covered(s) && CleanerBusy(s)
    ensures Covered(DoList(s))
  {
    forall k, r | Names(s.db.documents, s.db.versions, k, r) && k.document == s.cleaner.batch[0]
      ensures r.target in ObjectsOf(s.db.documents, s.db.versions, k.document)
    {
      Effects.ObjectsAreThose(s.db.documents, s.db.versions, k.document, r.target);
    }
  }

  lemma CoveredKept(s: System, step: Step, t: System)
    requires Inv(s) && Covered(s) && Next(s, step, t) && !RacedCommit(s, step) && !step.Scraper?
    ensures Covered(t)
  {
    match step
    case Api(api) => ApiCovered(s, api, t);
    case Consume(consume) => ConsumeCovered(s, consume, t);
    case Cleaning(clean) => CleanCovered(s, clean, t);
    case _ =>
      StepIsTracked(s, step, t);
      TrackedCovered(s, t, {});
  }

  // ----- the race -----

  /** The tables after a raced result: one version row names new objects, the cleanup stays as it is. */
  lemma RacedShape(s: System, job: Uuid)
    requires ProofsConsume.Applying(s, job) && Raced(s.db, s.consumer.m, s.consumer.found)
    ensures var m, t := s.consumer.m, DoCommit(s, job);
            && t.db.documents == s.db.documents && t.db.cleanup == s.db.cleanup && t.cleaner == s.cleaner
            && t.db.versions == s.db.versions[VersionKey(m.document, m.version) := ResultVersion(m)]
            && t.undeleted == s.undeleted + NewlyRecorded(s.db, m)
  {
  }

  lemma FinishedCovered(documents: map<Uuid, Document>, versions: map<VersionKey, Version>, cleanup: map<Uuid, CleanupJob>,
                        undeleted: set<Recorded>, k: VersionKey, version: Version)
    requires CleanupComplete(documents, versions, cleanup, undeleted) && k.document in documents
    ensures var recorded := RecordedBy(k.document, documents[k.document].kind, version);
            CleanupComplete(documents, versions[k := version], cleanup, undeleted + recorded) <==>
            !(recorded != {} && k.document in cleanup && cleanup[k.document].state == Succeeded)
  {
    forall r ensures r in RecordedBy(k.document, documents[k.document].kind, version) <==>
                     Names(documents, versions[k := version], k, r) {
      RecordedIsNamed(documents, versions[k := version], k, r);
    }
  }

  lemma ListedCovered(cleaner: Cleaner, documents: map<Uuid, Document>, versions: map<VersionKey, Version>,
                      cleanup: map<Uuid, CleanupJob>, undeleted: set<Recorded>, k: VersionKey, version: Version)
    requires CleanerOk(cleaner, documents, versions, cleanup, undeleted) && k.document in documents
    ensures var recorded := RecordedBy(k.document, documents[k.document].kind, version);
            CleanerOk(cleaner, documents, versions[k := version], cleanup, undeleted + recorded) <==>
            !(cleaner.batch != [] && cleaner.stage.Deleting? && CleanupCompletable(cleanup, cleaner.batch[0])
              && cleaner.batch[0] == k.document && exists r :: r in recorded && r.target !in cleaner.stage.todo)
  {
    forall r ensures r in RecordedBy(k.document, documents[k.document].kind, version) <==>
                     Names(documents, versions[k := version], k, r) {
      RecordedIsNamed(documents, versions[k := version], k, r);
    }
  }

  lemma RacedCovered(s: System, job: Uuid)
    requires Covered(s) && ProofsConsume.Applying(s, job) && Raced(s.db, s.consumer.m, s.consumer.found)
    ensures Covered(DoCommit(s, job)) <==> !Harmful(s, Consume(Commit(job)))
  {
    var m := s.consumer.m;
    var k := VersionKey(m.document, m.version);
    var recorded := NewlyRecorded(s.db, m);
    RacedShape(s, job);
    ProofsConsume.InRecorded(m.document, s.db.documents[m.document].kind, ResultVersion(m));
    FinishedCovered(s.db.documents, s.db.versions, s.db.cleanup, s.undeleted, k, ResultVersion(m));
    ListedCovered(s.cleaner, s.db.documents, s.db.versions, s.db.cleanup, s.undeleted, k, ResultVersion(m));
  }

  // ----- the second delivery -----

  lemma InStoredAgain(db: Db, m: ScrapeResult, r: Recorded)
    ensures r in StoredAgain(db, m) <==>
            r.target.key in {m.rawKey, m.contentKey} && r.target.bucket == ArtifactBucket
            && exists k :: Names(db.documents, db.versions, k, r)
  {
    if r in StoredAgain(db, m) {
      var k, key :| k in db.versions && k.document in db.documents && db.documents[k.document].kind == Webpage
                    && key in KeysOf(db.versions[k]) && key in {m.rawKey, m.contentKey}
                    && r == Recorded(k.document, S3Object(ArtifactBucket, key));
      assert Names(db.documents, db.versions, k, r);
    }
    if k :| Names(db.documents, db.versions, k, r) && r.target.bucket == ArtifactBucket {
      assert r.target.key in {m.rawKey, m.contentKey} ==> r in StoredAgain(db, m);
    }
  }

  lemma StoredAgainCovered(s: System, m: ScrapeResult)
    requires Covered(s)
    ensures Covered(DoScrape(s, m)) <==> !Harmful(s, Scraper(m))
  {
    var t := DoScrape(s, m);
    forall r ensures r in StoredAgain(s.db, m) ==> exists k :: Names(s.db.documents, s.db.versions, k, r) {
      InStoredAgain(s.db, m, r);
    }
    if r :| r in StoredAgain(s.db, m) && TooLate(s, r) {
      var k :| Names(s.db.documents, s.db.versions, k, r);
      assert Names(t.db.documents, t.db.versions, k, r) && k.document == r.document;
    }
  }

  // ----- exactly when -----

  /** A step keeps the cleanup complete exactly when it is not harmful. */
  lemma CoveredExactly(s: System, step: Step, t: System)
    requires Inv(s) && Covered(s) && Next(s, step, t)
    ensures Covered(t) <==> !Harmful(s, step)
  {
    if RacedCommit(s, step) {
      RacedCovered(s, step.consume.job);
    } else if step.Scraper? {
      StoredAgainCovered(s, step.result);
    } else {
      CoveredKept(s, step, t);
    }
  }

  lemma CoveredAt(states: seq<System>, steps: seq<Step>, i: nat)
    requires IsRun(states, steps) && i < |steps| && Covered(states[i]) && !Harmful(states[i], steps[i])
    ensures Covered(states[i + 1])
  {
    RunKeeps(states, steps, i);
    RunStep(states, steps, i);
    CoveredExactly(states[i], steps[i], states[i + 1]);
  }

  lemma {:induction false} CoveredUpTo(states: seq<System>, steps: seq<Step>, n: nat)
    requires IsRun(states, steps) && n < |states|
    requires forall i :: 0 <= i < n ==> !Harmful(states[i], steps[i])
    ensures Covered(states[n])
    decreases n
  {
    if n > 0 {
      CoveredUpTo(states, steps, n - 1);
      CoveredAt(states, steps, n - 1);
    }
  }

  /** Without it, every finished cleanup of the run has deleted all that was ever recorded. */
  lemma CleanupIsSafe(states: seq<System>, steps: seq<Step>, n: nat)
    requires IsRun(states, steps) && n < |states|
    requires forall i :: 0 <= i < n ==> !Harmful(states[i], steps[i])
    ensures Covered(states[n]) && Safe(states[n])
  {
    CoveredUpTo(states, steps, n);
    CoveredIsSafe(states[n]);
  }

  /** Hard deletion takes only rows of documents whose cleanup has finished. */
  lemma PurgedWasCleaned(s: System, step: Step, t: System, k: VersionKey)
    requires Next(s, step, t) && (step.PurgeDocuments? || step.PurgeAccount?)
    requires k in s.db.versions && k !in t.db.versions
    ensures Cleaned(s.db, k.document)
  {
  }
}
