/** Which step of a run has deleted the object that a version row names, since the row names it. */
module Deletions {
  import opened Schema
  import opened Transactions
  import opened Protocol
  import opened Invariants
  import opened Runs
  import opened Objects
  import opened Artifacts
  import Effects
  import ProofsApi
  import ProofsConsume

  /** The step deletes the object: the cleanup loop does, or an upload that has seen an error. */
  ghost predicate Deletes(s: System, step: Step, target: S3Object) {
    || step == Cleaning(DeleteObject(target))
    || (step.Api? && step.api.Compensate? && step.api.reached && step.api.document in s.files.uploads
        && target == S3Object(DocumentBucket, s.files.uploads[step.api.document].key))
  }

  /** The scraper stores it again. */
  predicate Stores(step: Step, target: S3Object) {
    step.Scraper? && target.bucket == ArtifactBucket
    && (target.key == step.result.rawKey || target.key == step.result.contentKey)
  }

  // ----- what a step records and forgets -----

  /** Records go only by a deletion, and the rows in question are recorded. */
  ghost predicate KeepsRecords(s: System, step: Step, t: System, changed: set<VersionKey>) {
    && (forall r :: r in s.undeleted && r !in t.undeleted ==> Deletes(s, step, r.target))
    && (forall k, r :: k in changed && Names(t.db.documents, t.db.versions, k, r) ==> r in t.undeleted)
  }

  lemma BeginRecords(s: System, n: NewVersion)
    requires RowsOk(s) && ProofsApi.CanBegin(s, n)
    ensures var t := DoBegin(s, Some(n));
            && s.undeleted <= t.undeleted
            && forall r :: Names(t.db.documents, t.db.versions, n.Key(), r) ==> r in t.undeleted
  {
    ProofsApi.BeginUnmet(s, n);
    ProofsApi.BeginShape(s, n);
    var t := DoBegin(s, Some(n));
    forall r | Names(t.db.documents, t.db.versions, n.Key(), r) ensures r in t.undeleted {
      RecordedIsNamed(t.db.documents, t.db.versions, n.Key(), r);
    }
  }

  lemma BegunRecords(s: System, step: ApiStep, t: System)
    requires RowsOk(s) && ProofsApi.Begins(step) && ApiNext(s, step, t)
    ensures KeepsRecords(s, Api(step), t, Changed(s, Api(step)))
  {
    ProofsApi.PlanNext(s, step, t);
    if ProofsApi.PlanOf(s.db, step).Some? {
      BeginRecords(s, ProofsApi.PlanOf(s.db, step).value);
    }
  }

  lemma RequestRecords(s: System, step: ApiStep, t: System)
    requires ApiNext(s, step, t) && !ProofsApi.Begins(step)
    ensures KeepsRecords(s, Api(step), t, {}) && Changed(s, Api(step)) == {}
  {
    if step.Remove? || step.Leave? {
      ProofsApi.RemovalLeaves(s, step, t);
    }
  }

  lemma CommitRecords(s: System, job: Uuid, step: Step)
    requires s.consumer.HasDocument? && s.consumer.m.version > 0 && job != s.consumer.m.job
    ensures KeepsRecords(s, step, DoCommit(s, job), ChangedByCommit(s, job))
  {
    var m, t := s.consumer.m, DoCommit(s, job);
    if ProofsConsume.Applying(s, job) {
      Effects.ResultIsWritten(s.db, m, s.consumer.job, s.consumer.found, job);
      AppliedRecords(s, job);
      var k := VersionKey(m.document, m.version);
      forall r | Names(t.db.documents, t.db.versions, k, r) ensures r in t.undeleted {
        RecordedIsNamed(t.db.documents, t.db.versions, k, r);
        assert t.db.versions[k] == ResultVersion(m);
      }
    } else {
      OthersRecordNothing(s, job);
    }
  }

  lemma AppliedRecords(s: System, job: Uuid)
    requires ProofsConsume.Applying(s, job)
    ensures DoCommit(s, job).undeleted == s.undeleted + NewlyRecorded(s.db, s.consumer.m)
    ensures DoCommit(s, job).db == ApplyResult(s.db, s.consumer.m, s.consumer.job, s.consumer.found, job)
  {
  }

  lemma OthersRecordNothing(s: System, job: Uuid)
    requires s.consumer.HasDocument? && !ProofsConsume.Applying(s, job)
    ensures DoCommit(s, job).undeleted == s.undeleted
  {
  }

  lemma ConsumeRecords(s: System, step: ConsumeStep, t: System)
    requires RowsOk(s) && ConsumerOk(s.consumer, s.db.documents, s.requests, s.db.inbox) && ConsumeNext(s, step, t)
    ensures KeepsRecords(s, Consume(step), t, ChangedByConsumer(s, step))
  {
    if step.Commit? {
      ProofsApi.FreshOne(s, step.job);
      CommitRecords(s, step.job, Consume(step));
    }
  }

  lemma DispatchRecords(s: System, token: Uuid, step: DispatchStep, t: System)
    requires DispatchNext(s, token, step, t)
    ensures t.undeleted == s.undeleted
  {
  }

  lemma EnrichRecords(s: System, step: EnrichStep, t: System)
    requires EnrichNext(s, step, t)
    ensures t.undeleted == s.undeleted
  {
  }

  lemma StepRecords(s: System, step: Step, t: System)
    requires RowsOk(s) && ConsumerOk(s.consumer, s.db.documents, s.requests, s.db.inbox)
    requires Next(s, step, t) && !step.Scraper? && !step.Cleaning?
    ensures KeepsRecords(s, step, t, Changed(s, step))
  {
    match step
    case Api(api) => if ProofsApi.Begins(api) { BegunRecords(s, api, t); } else { RequestRecords(s, api, t); }
    case Consume(consume) => ConsumeRecords(s, consume, t);
    case Dispatch(token, dispatch) => DispatchRecords(s, token, dispatch, t);
    case Enriching(enrich) => EnrichRecords(s, enrich, t);
    case _ =>
  }

  // ----- a step that leaves an object deleted -----

  /** If the row names the object afterwards and it is not recorded as undeleted, the row named it before, the step
      has not stored it, and it was not recorded before or this step has deleted it. */
  ghost predicate LeavesDeleted(s: System, step: Step, t: System, k: VersionKey, r: Recorded) {
    Names(t.db.documents, t.db.versions, k, r) && r !in t.undeleted ==>
      && Names(s.db.documents, s.db.versions, k, r) && !Stores(step, r.target)
      && (r !in s.undeleted || Deletes(s, step, r.target))
  }

  lemma TrackedLeaves(s: System, step: Step, t: System, k: VersionKey, r: Recorded)
    requires KeysKept(s, t, Changed(s, step)) && KeepsRecords(s, step, t, Changed(s, step)) && !step.Scraper?
    ensures LeavesDeleted(s, step, t, k, r)
  {
    if Names(t.db.documents, t.db.versions, k, r) && k !in Changed(s, step) {
      assert SameKeys(s, t, k);
    }
  }

  lemma ScrapeLeaves(s: System, m: ScrapeResult, k: VersionKey, r: Recorded)
    ensures LeavesDeleted(s, Scraper(m), DoScrape(s, m), k, r)
  {
    InStoredAgain(s.db, m, r);
  }

  lemma CleaningLeaves(s: System, step: CleanStep, t: System, k: VersionKey, r: Recorded)
    requires CleanNext(s, step, t)
    ensures LeavesDeleted(s, Cleaning(step), t, k, r)
  {
    CleaningKeepsRows(s, step, t);
  }

  lemma StepLeaves(s: System, step: Step, t: System, k: VersionKey, r: Recorded)
    requires ResultsKnown(s) && Next(s, step, t)
    ensures LeavesDeleted(s, step, t, k, r)
  {
    if step.Scraper? {
      ScrapeLeaves(s, step.result, k, r);
    } else if step.Cleaning? {
      CleaningLeaves(s, step.clean, t, k, r);
    } else {
      StepIsTracked(s, step, t);
      StepRecords(s, step, t);
      TrackedLeaves(s, step, t, k, r);
    }
  }

  // ----- every run -----

  /** Step i deletes the object while the row names it, and no later step of the first n stores it again. */
  ghost predicate DeletedAt(states: seq<System>, steps: seq<Step>, i: nat, n: nat, k: VersionKey, target: S3Object)
    requires i < n <= |steps| < |states|
  {
    && Deletes(states[i], steps[i], target)
    && Names(states[i].db.documents, states[i].db.versions, k, Recorded(k.document, target))
    && forall j :: i < j < n ==> !Stores(steps[j], target)
  }

  lemma LeavesAt(states: seq<System>, steps: seq<Step>, n: nat, k: VersionKey, r: Recorded)
    requires IsRun(states, steps) && n < |steps|
    ensures LeavesDeleted(states[n], steps[n], states[n + 1], k, r)
  {
    RunKeeps(states, steps, n);
    RunStep(states, steps, n);
    StepLeaves(states[n], steps[n], states[n + 1], k, r);
  }

  /** A run, as far as the row and the object are concerned. */
  ghost predicate TrackedRun(states: seq<System>, steps: seq<Step>, k: VersionKey, r: Recorded) {
    && |states| == |steps| + 1 && k !in states[0].db.versions
    && forall i {:trigger steps[i]} :: 0 <= i < |steps| ==> LeavesDeleted(states[i], steps[i], states[i + 1], k, r)
  }

  lemma RunIsTracked(states: seq<System>, steps: seq<Step>, k: VersionKey, r: Recorded)
    requires IsRun(states, steps)
    ensures TrackedRun(states, steps, k, r)
  {
    forall i | 0 <= i < |steps| ensures LeavesDeleted(states[i], steps[i], states[i + 1], k, r) {
      LeavesAt(states, steps, i, k, r);
    }
  }

  lemma {:induction false} DeletedIn(states: seq<System>, steps: seq<Step>, n: nat, k: VersionKey, target: S3Object)
    returns (i: nat)
    requires TrackedRun(states, steps, k, Recorded(k.document, target)) && n < |states|
    requires Names(states[n].db.documents, states[n].db.versions, k, Recorded(k.document, target))
    requires Recorded(k.document, target) !in states[n].undeleted
    ensures i < n && DeletedAt(states, steps, i, n, k, target)
    decreases n
  {
    var r := Recorded(k.document, target);
    assert LeavesDeleted(states[n - 1], steps[n - 1], states[n], k, r);
    if r !in states[n - 1].undeleted {
      i := DeletedIn(states, steps, n - 1, k, target);
      StillDeleted(states, steps, i, n - 1, k, target);
    } else {
      i := n - 1;
    }
  }

  /** An object that a row names, and that is not undeleted, has been deleted by a step since the row names it. */
  lemma DeletedSince(states: seq<System>, steps: seq<Step>, n: nat, k: VersionKey, target: S3Object)
    returns (i: nat)
    requires IsRun(states, steps) && n < |states|
    requires Names(states[n].db.documents, states[n].db.versions, k, Recorded(k.document, target))
    requires Recorded(k.document, target) !in states[n].undeleted
    ensures i < n && DeletedAt(states, steps, i, n, k, target)
  {
    RunIsTracked(states, steps, k, Recorded(k.document, target));
    i := DeletedIn(states, steps, n, k, target);
  }

  lemma StillDeleted(states: seq<System>, steps: seq<Step>, i: nat, n: nat, k: VersionKey, target: S3Object)
    requires i < n < |steps| < |states| && DeletedAt(states, steps, i, n, k, target) && !Stores(steps[n], target)
    ensures DeletedAt(states, steps, i, n + 1, k, target)
  {
  }

  /** In a run without a harmful step: once the cleanup of a document has succeeded, every object that one of its
      version rows names by its raw or its content key has been deleted by a step of the run, since the row names
      it, and has not been stored again. */
  lemma CleanupDeletes(states: seq<System>, steps: seq<Step>, n: nat, k: VersionKey, key: string) returns (i: nat)
    requires IsRun(states, steps) && n < |states|
    requires forall i :: 0 <= i < n ==> !Harmful(states[i], steps[i])
    requires var db := states[n].db;
             && k in db.versions && k.document in db.documents
             && key != "" && (key == db.versions[k].rawKey || key == db.versions[k].contentKey)
             && k.document in db.cleanup && db.cleanup[k.document].state == Succeeded
    ensures var bucket := if states[n].db.documents[k.document].kind == Webpage then ArtifactBucket else DocumentBucket;
            i < n && DeletedAt(states, steps, i, n, k, S3Object(bucket, key))
  {
    var bucket := if states[n].db.documents[k.document].kind == Webpage then ArtifactBucket else DocumentBucket;
    CleanupIsSafe(states, steps, n);
    assert Names(states[n].db.documents, states[n].db.versions, k, Recorded(k.document, S3Object(bucket, key)));
    i := DeletedSince(states, steps, n, k, S3Object(bucket, key));
  }

  /** And a row that hard deletion removes has had both its objects deleted. */
  lemma PurgeForgetsNothing(states: seq<System>, steps: seq<Step>, n: nat, k: VersionKey, key: string) returns (i: nat)
    requires IsRun(states, steps) && n < |steps|
    requires forall i :: 0 <= i < n ==> !Harmful(states[i], steps[i])
    requires steps[n].PurgeDocuments? || steps[n].PurgeAccount?
    requires var db := states[n].db;
             && k in db.versions && k.document in db.documents && k !in states[n + 1].db.versions
             && key != "" && (key == db.versions[k].rawKey || key == db.versions[k].contentKey)
    ensures var bucket := if states[n].db.documents[k.document].kind == Webpage then ArtifactBucket else DocumentBucket;
            i < n && DeletedAt(states, steps, i, n, k, S3Object(bucket, key))
  {
    RunStep(states, steps, n);
    PurgedWasCleaned(states[n], steps[n], states[n + 1], k);
    i := CleanupDeletes(states, steps, n, k, key);
  }
}
