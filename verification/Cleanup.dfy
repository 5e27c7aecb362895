/** The cleanup worker of internal/worker/artifact_cleanup.go, statement by statement. */
module Cleanup {
  import opened Schema
  import opened Tables
  import opened Protocol
  import T = Transactions
  import Effects

  /** The buckets, and the logs of the deletions that were acknowledged, and of those that reported an error. */
  class ObjectStore {
    var objects: set<T.S3Object>
    var deletions: seq<T.S3Object>
    var failures: seq<T.S3Object>

    constructor (objects: set<T.S3Object>)
      ensures this.objects == objects && deletions == [] && failures == []
    {
      this.objects, deletions, failures := objects, [], [];
    }

    /** A deletion that reports an error may have been carried out. */
    method DeleteObject(target: T.S3Object) returns (ok: bool)
      modifies this
      ensures objects == old(objects) || objects == old(objects) - {target}
      ensures ok ==> objects == old(objects) - {target}
      ensures deletions == if ok then old(deletions) + [target] else old(deletions)
      ensures failures == if ok then old(failures) else old(failures) + [target]
    {
      var reached := *;
      ok := *;
      if ok || reached {
        objects := objects - {target};
      }
      if ok {
        deletions := deletions + [target];
      } else {
        failures := failures + [target];
      }
    }
  }

  /** The object that a document names by a key of one of its version rows. */
  ghost predicate IsArtifact(documents: map<Uuid, Document>, versions: map<VersionKey, Version>, d: Uuid, target: T.S3Object) {
    && d in documents && target.key != ""
    && target.bucket == (if documents[d].kind == Webpage then T.ArtifactBucket else T.DocumentBucket)
    && exists k :: k in versions && k.document == d && (target.key == versions[k].rawKey || target.key == versions[k].contentKey)
  }

  lemma ArtifactsAreObjects(documents: map<Uuid, Document>, versions: map<VersionKey, Version>, d: Uuid, target: T.S3Object)
    ensures IsArtifact(documents, versions, d, target) <==> target in T.ObjectsOf(documents, versions, d)
  {
    Effects.ObjectsAreThose(documents, versions, d, target);
  }

  /** The objects of a list, without repetition. */
  ghost predicate Once(log: seq<T.S3Object>) {
    forall i, j :: 0 <= i < j < |log| ==> log[i] != log[j]
  }

  /** The rows after each job of a batch has been completed, or has failed. */
  function Settled(cleanup: map<Uuid, CleanupJob>, picked: seq<Uuid>, done: seq<bool>): map<Uuid, CleanupJob>
    requires |done| <= |picked|
  {
    if done == [] then cleanup
    else
      var n := |done| - 1;
      var before := Settled(cleanup, picked, done[..n]);
      if done[n] then T.CompleteCleanup(before, picked[n]) else T.FailCleanup(before, picked[n])
  }

  class ArtifactCleanupProcessor {
    const db: Database
    const store: ObjectStore

    constructor (db: Database, store: ObjectStore)
      ensures this.db == db && this.store == store
    {
      this.db, this.store := db, store;
    }

    /** Deletes every object that the version rows of the document name, each once, and then completes
        the job; the first deletion that fails ends it, and the job is left alone. */
    method Process(d: Uuid) returns (ok: bool)
      modifies db`cleanup, store
      ensures ok <==> store.failures == old(store.failures) && T.CleanupCompletable(old(db.cleanup), d)
      ensures store.failures == old(store.failures)
              || exists target :: IsArtifact(db.documents, db.versions, d, target) && store.failures == old(store.failures) + [target]
      ensures old(store.deletions) <= store.deletions
      ensures var log := store.deletions[|old(store.deletions)|..];
              && (forall i, j :: 0 <= i < j < |log| ==> log[i] != log[j])
              && (forall target :: target in log ==> IsArtifact(db.documents, db.versions, d, target))
              && (store.failures == old(store.failures) ==>
                    forall target :: IsArtifact(db.documents, db.versions, d, target) ==> target in log)
      ensures store.objects <= old(store.objects)
      ensures forall target :: target in old(store.objects) && !IsArtifact(db.documents, db.versions, d, target) ==>
                target in store.objects
      ensures ok ==> forall target :: IsArtifact(db.documents, db.versions, d, target) ==> target !in store.objects
      ensures db.cleanup == if ok then T.CompleteCleanup(old(db.cleanup), d) else old(db.cleanup)
    {
      ghost var before := store.deletions;
      ghost var targets := T.ObjectsOf(db.documents, db.versions, d);
      forall target ensures target in targets <==> IsArtifact(db.documents, db.versions, d, target) {
        ArtifactsAreObjects(db.documents, db.versions, d, target);
      }
      var rows := db.ListDocumentArtifactKeys(d);
      var seen: set<string> := {};
      ghost var gone: set<T.S3Object> := {};
      for i := 0 to |rows|
        invariant before <= store.deletions && Once(store.deletions[|before|..])
        invariant gone <= targets && store.objects == old(store.objects) - gone
        invariant forall target :: target in store.deletions[|before|..] <==> target in gone
        invariant forall target :: target in gone ==> target.key in seen
        invariant forall j :: 0 <= j < i && rows[j].1 != "" ==> rows[j].1 in seen
        invariant forall target :: target in targets && target.key in seen ==> target in gone
        invariant db.cleanup == old(db.cleanup) && store.failures == old(store.failures)
      {
        var kind, key := rows[i].0, rows[i].1;
        if key != "" && key !in seen {
          var target := T.S3Object(T.BucketOf(kind), key);
          assert rows[i] in rows;
          seen := seen + {key};
          ghost var log := store.deletions[|before|..];
          ok := store.DeleteObject(target);
          if !ok {
            assert target in targets && store.failures == old(store.failures) + [target];
            return;
          }
          assert store.deletions[|before|..] == log + [target];
          gone := gone + {target};
        }
      }
      forall target | target in targets ensures target in gone {
        assert IsArtifact(db.documents, db.versions, d, target);
        var i :| 0 <= i < |rows| && rows[i] == (db.documents[d].kind, target.key);
      }
      var affected := db.CompleteArtifactCleanupJob(d);
      ok := affected == 1;
    }

    /** A deletion of one of the document's objects has failed. */
    ghost predicate FailedIn(d: Uuid, failures: seq<T.S3Object>)
      reads db
    {
      exists target :: IsArtifact(db.documents, db.versions, d, target) && target in failures
    }

    method ProcessBatch(limit: nat, due: set<Uuid>) returns (picked: seq<Uuid>, done: seq<bool>)
      modifies db`cleanup, store
      ensures Selected(picked, (set d | d in old(db.cleanup) && d in due && T.ClaimableCleanup(old(db.cleanup)[d])), limit)
      ensures |done| == |picked|
      ensures db.cleanup == Settled(T.ClaimCleanup(old(db.cleanup), Elements(picked)), picked, done)
      ensures old(store.deletions) <= store.deletions && old(store.failures) <= store.failures
      ensures forall i :: 0 <= i < |picked| && !done[i] ==>
                exists target :: IsArtifact(db.documents, db.versions, picked[i], target)
                                 && target in store.failures[|old(store.failures)|..]
      ensures forall i, target :: 0 <= i < |picked| && done[i] && IsArtifact(db.documents, db.versions, picked[i], target) ==>
                target in store.deletions[|old(store.deletions)|..]
    {
      ghost var before, failed := store.deletions, store.failures;
      picked := db.ClaimArtifactCleanupJobs(limit, due);
      ghost var claimed := db.cleanup;
      done := [];
      for n := 0 to |picked|
        invariant |done| == n && db.cleanup == Settled(claimed, picked, done)
        invariant before <= store.deletions && failed <= store.failures
        invariant forall i :: 0 <= i < n && !done[i] ==> FailedIn(picked[i], store.failures[|failed|..])
        invariant forall i, target :: 0 <= i < n && done[i] && IsArtifact(db.documents, db.versions, picked[i], target) ==>
                    target in store.deletions[|before|..]
      {
        ghost var log, failures := store.deletions, store.failures;
        ClaimedAreSettled(claimed, picked, done);
        var ok := Process(picked[n]);
        if !ok {
          var _ := db.FailArtifactCleanupJob(picked[n]);
        }
        assert store.deletions[|before|..] == log[|before|..] + store.deletions[|log|..];
        assert store.failures[|failed|..] == failures[|failed|..] + store.failures[|failures|..];
        assert !ok ==> FailedIn(picked[n], store.failures[|failures|..]);
        assert (done + [ok])[..n] == done;
        done := done + [ok];
      }
    }
  }

  /** A claimed cleanup that is done has succeeded, one that is not has failed, and no other has changed. */
  lemma {:induction false} ClaimedAreSettled(cleanup: map<Uuid, CleanupJob>, picked: seq<Uuid>, done: seq<bool>)
    requires |done| <= |picked| && Distinct(picked)
    requires forall i :: 0 <= i < |picked| ==> picked[i] in cleanup && cleanup[picked[i]].state == Processing
    ensures var t := Settled(cleanup, picked, done);
            && t.Keys == cleanup.Keys
            && (forall i :: 0 <= i < |done| ==>
                  t[picked[i]] == CleanupJob(if done[i] then Succeeded else Failed, cleanup[picked[i]].attempts))
            && (forall d :: d in cleanup && d !in picked[..|done|] ==> t[d] == cleanup[d])
  {
    if done != [] {
      var n := |done| - 1;
      ClaimedAreSettled(cleanup, picked, done[..n]);
      Effects.CleanupEnds(Settled(cleanup, picked, done[..n]), picked[n]);
      assert picked[..n + 1] == picked[..n] + [picked[n]];
      assert picked[n] !in picked[..n];
    }
  }
}
