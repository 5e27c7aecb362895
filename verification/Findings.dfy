/** Runs that show where the design stops short: a cleanup that a late result outlives, one that a second
    delivery of a request outlives, a document that a late publish mark leaves as being scraped although
    its result is in, a completed document that is rejected, or a file that is deleted, because the reply of
    a commit was lost, and a result that is applied twice because its inbox row is gone. */
module Findings {
  import opened Schema
  import opened Transactions
  import opened Protocol
  import opened Invariants
  import opened Objects
  import opened Artifacts
  import opened Examples
  import opened Runs
  import opened TakenBack
  import opened LiveObjects
  import M = Maintenance
  import Progress
  import Text
  import ProofsConsume

  /** A raced result that names an object after the cleanup has finished leaves it behind. */
  lemma LeftBehind(s: System, job: Uuid, r: Recorded)
    requires ProofsConsume.Applying(s, job) && Raced(s.db, s.consumer.m, s.consumer.found)
    requires r in NewlyRecorded(s.db, s.consumer.m) && Cleaned(s.db, s.consumer.m.document)
    ensures !Safe(DoCommit(s, job))
  {
    var m, t := s.consumer.m, DoCommit(s, job);
    RacedShape(s, job);
    ProofsConsume.InRecorded(m.document, s.db.documents[m.document].kind, ResultVersion(m));
    assert Names(t.db.documents, t.db.versions, VersionKey(m.document, m.version), r);
  }

  /** The cleanup in progress has listed the objects without r, which a version row names. */
  ghost predicate Outliving(s: System, k: VersionKey, r: Recorded) {
    && Names(s.db.documents, s.db.versions, k, r) && r in s.undeleted && PastListing(s, k.document, r.target)
  }

  lemma OutlivingNext(s: System, k: VersionKey, r: Recorded, target: S3Object)
    requires Outliving(s, k, r) && target in s.cleaner.stage.todo
    ensures CleanNext(s, DeleteObject(target), DoDeleteObject(s, target))
    ensures Outliving(DoDeleteObject(s, target), k, r)
  {
  }

  lemma OutlivingEnds(s: System, k: VersionKey, r: Recorded)
    requires Outliving(s, k, r) && s.cleaner.stage.todo == {}
    ensures CleanNext(s, CleanStep.Complete, DoComplete(s)) && !Safe(DoComplete(s))
  {
    var t := DoComplete(s);
    assert Names(t.db.documents, t.db.versions, k, r);
  }

  /** It deletes what it has listed, and completes. */
  lemma {:induction false} CleanupOutlived(states: seq<System>, steps: seq<Step>, k: VersionKey, r: Recorded)
    returns (states': seq<System>, steps': seq<Step>)
    requires IsRun(states, steps) && Outliving(states[|steps|], k, r)
    ensures IsRun(states', steps') && states <= states' && steps <= steps' && !Safe(states'[|steps'|])
    decreases |states[|steps|].cleaner.stage.todo|
  {
    var s := states[|steps|];
    if s.cleaner.stage.todo == {} {
      OutlivingEnds(s, k, r);
      states', steps' := Then(states, steps, Cleaning(CleanStep.Complete), DoComplete(s));
    } else {
      var target :| target in s.cleaner.stage.todo;
      OutlivingNext(s, k, r, target);
      states', steps' := Then(states, steps, Cleaning(DeleteObject(target)), DoDeleteObject(s, target));
      states', steps' := CleanupOutlived(states', steps', k, r);
    }
  }

  lemma PastListingOutlives(s: System, job: Uuid, r: Recorded)
    requires ProofsConsume.Applying(s, job) && Raced(s.db, s.consumer.m, s.consumer.found)
    requires r in NewlyRecorded(s.db, s.consumer.m) && PastListing(s, r.document, r.target)
    ensures Outliving(DoCommit(s, job), VersionKey(s.consumer.m.document, s.consumer.m.version), r)
  {
    var m := s.consumer.m;
    RacedShape(s, job);
    ProofsConsume.InRecorded(m.document, s.db.documents[m.document].kind, ResultVersion(m));
  }

  /** Every harmful step can be followed by steps after which the cleanup has succeeded and an object
      that it should have deleted is still there: none, if the cleanup had finished before, or the rest
      of the cleanup. */
  lemma HarmIsDone(states: seq<System>, steps: seq<Step>, step: Step, t: System)
    returns (states': seq<System>, steps': seq<Step>)
    requires IsRun(states, steps) && Next(states[|steps|], step, t) && Harmful(states[|steps|], step)
    ensures IsRun(states', steps') && states + [t] <= states' && steps + [step] <= steps' && !Safe(states'[|steps'|])
  {
    var s := states[|steps|];
    states', steps' := Then(states, steps, step, t);
    if step.Scraper? {
      var r :| r in StoredAgain(s.db, step.result) && TooLate(s, r);
      var k := StoredOutlives(s, step.result, r);
      if !Cleaned(s.db, r.document) {
        states', steps' := CleanupOutlived(states', steps', k, r);
      }
    } else {
      var m, job := s.consumer.m, step.consume.job;
      var r :| r in NewlyRecorded(s.db, m) && TooLate(s, r);
      ProofsConsume.InRecorded(m.document, s.db.documents[m.document].kind, ResultVersion(m));
      if Cleaned(s.db, r.document) {
        LeftBehind(s, job, r);
      } else {
        PastListingOutlives(s, job, r);
        states', steps' := CleanupOutlived(states', steps', VersionKey(m.document, m.version), r);
      }
    }
  }

  lemma StoredOutlives(s: System, m: ScrapeResult, r: Recorded) returns (k: VersionKey)
    requires r in StoredAgain(s.db, m) && TooLate(s, r)
    ensures Cleaned(s.db, r.document) ==> !Safe(DoScrape(s, m))
    ensures !Cleaned(s.db, r.document) ==> Outliving(DoScrape(s, m), k, r)
  {
    var t := DoScrape(s, m);
    InStoredAgain(s.db, m, r);
    k :| Names(s.db.documents, s.db.versions, k, r);
    assert Names(t.db.documents, t.db.versions, k, r) && k.document == r.document;
  }

  // ----- the result outlives the cleanup -----

  lemma StillRacing(s: System, t: System, job: Uuid)
    requires Racing(s, job) && t.db == Wiped(s.db, s.consumer.m.document) && t.consumer == s.consumer
    requires OnlyCleaned(s, t)
    ensures Fresh(t, [job])
    ensures ProofsConsume.Applying(t, job) && Raced(t.db, t.consumer.m, t.consumer.found)
    ensures Cleaned(t.db, t.consumer.m.document)
  {
    DifferentTypes();
  }

  /** From every such state the removal of the document, its cleanup and the commit leave an artifact behind: a
      version row of the deleted document names it, and its cleanup has succeeded without it. */
  lemma ResultOutlivesCleanup(states: seq<System>, steps: seq<Step>, job: Uuid)
    returns (states': seq<System>, steps': seq<Step>)
    requires IsRun(states, steps) && Racing(states[|steps|], job)
    ensures IsRun(states', steps') && |steps| < |steps'| && states <= states'
    ensures Harmful(states'[|steps'| - 1], steps'[|steps'| - 1]) && !Safe(states'[|steps'|])
  {
    states', steps' := CleanedUp(states, steps, states[|steps|].consumer.m.document);
    StillRacing(states[|steps|], states'[|steps'|], job);
    states', steps' := RecordedTooLate(states', steps', job);
  }

  lemma RecordedTooLate(states: seq<System>, steps: seq<Step>, job: Uuid)
    returns (states': seq<System>, steps': seq<Step>)
    requires IsRun(states, steps)
    requires var s := states[|steps|];
             && ProofsConsume.Applying(s, job) && Raced(s.db, s.consumer.m, s.consumer.found) && Fresh(s, [job])
             && Cleaned(s.db, s.consumer.m.document) && KeysOf(ResultVersion(s.consumer.m)) != {}
    ensures IsRun(states', steps') && |steps'| == |steps| + 1 && states <= states'
    ensures Harmful(states'[|steps'| - 1], steps'[|steps'| - 1]) && !Safe(states'[|steps'|])
  {
    var s := states[|steps|];
    var m := s.consumer.m;
    var key :| key in KeysOf(ResultVersion(m));
    var r := Recorded(m.document, S3Object(BucketOf(s.db.documents[m.document].kind), key));
    ProofsConsume.InRecorded(m.document, s.db.documents[m.document].kind, ResultVersion(m));
    LeftBehind(s, job, r);
    assert [job][0] == job;
    states', steps' := Then(states, steps, Consume(Commit(job)), DoCommit(s, job));
  }

  /** And such a state is reached: a page is refreshed while its first result is being read. */
  lemma LateResult() returns (states: seq<System>, steps: seq<Step>)
    ensures IsRun(states, steps) && |steps| > 0
    ensures Harmful(states[|steps| - 1], steps[|steps| - 1]) && !Safe(states[|steps|])
  {
    states, steps := Refreshed();
    states, steps := ResultOutlivesCleanup(states, steps, 8);
  }

  // ----- the request is delivered again after the cleanup -----

  lemma StoredTooLate(s: System, t: System, d: Uuid, o: S3Object, m: ScrapeResult)
    requires Answerable(s, d, o, m) && t.db == Wiped(s.db, d) && t.sent == s.sent && t.requests == s.requests
    ensures Answers(t, m) && Harmful(t, Scraper(m)) && !Safe(DoScrape(t, m))
  {
    assert o in ObjectsOf(s.db.documents, s.db.versions, d);
    var k :| k in s.db.versions && k.document == d && o.key in KeysOf(s.db.versions[k]) && o.bucket == ArtifactBucket;
    var r := Recorded(d, o);
    assert Names(t.db.documents, t.db.versions, k, r);
    InStoredAgain(t.db, m, r);
    assert r in StoredAgain(t.db, m) && TooLate(t, r);
    var after := DoScrape(t, m);
    assert Names(after.db.documents, after.db.versions, k, r);
  }

  /** From every such state: the page is deleted, its objects too, and the cleanup completes; then the
      scraper stores an object again. */
  lemma ScrapeOutlivesCleanup(states: seq<System>, steps: seq<Step>, d: Uuid, o: S3Object, m: ScrapeResult)
    returns (states': seq<System>, steps': seq<Step>)
    requires IsRun(states, steps) && Answerable(states[|steps|], d, o, m)
    ensures IsRun(states', steps') && |steps| < |steps'| && states <= states' && steps'[|steps'| - 1].Scraper?
    ensures Harmful(states'[|steps'| - 1], steps'[|steps'| - 1]) && !Safe(states'[|steps'|])
  {
    states', steps' := CleanedUp(states, steps, d);
    var t := states'[|steps'|];
    StoredTooLate(states[|steps|], t, d, o, m);
    states', steps' := Then(states', steps', Scraper(m), DoScrape(t, m));
  }

  /** And such a state is reached: a page is created and scraped. */
  lemma SecondDelivery() returns (states: seq<System>, steps: seq<Step>)
    ensures IsRun(states, steps) && |steps| > 0 && steps[|steps| - 1].Scraper?
    ensures Harmful(states[|steps| - 1], steps[|steps| - 1]) && !Safe(states[|steps|])
  {
    states, steps := Scraped();
    states, steps := ScrapeOutlivesCleanup(states, steps, 2, RAW, RESULT);
  }

  // ----- the mark comes after the result -----

  /** The failed result is applied before the dispatcher records that it sent the request: the
      document is shown as being scraped, with the only result of its version already taken. */
  lemma LateMark() returns (states: seq<System>, steps: seq<Step>)
    ensures IsRun(states, steps)
    ensures var s := states[|steps|];
            && s.db.Live(2) && s.db.documents[2].status == ScrapeProcessing
            && Progress.Received(s, VersionKey(2, s.db.documents[2].currentVersion))
  {
    states, steps := Marked();
  }

  // ----- the reply of the commit is lost -----

  lemma CompletedRows(db: Db, c: ClaimedJob, version: Version, document: Document, extracted: string, summary: string)
    requires CommitEnrichment(db, c, version, document, extracted, summary).Some?
    ensures var t := CommitEnrichment(db, c, version, document, extracted, summary).value;
            && t.Current(c.document, c.version) && t.documents[c.document].status == Completed
            && c.id in t.jobs && t.jobs[c.id].state == Succeeded && FailJob(t.jobs, c.id) == t.jobs
  {
  }

  lemma LostShape(s: System, extracted: string, summary: string)
    requires Committing(s, extracted, summary)
    ensures var c, t := Protocol.Current(s), DoFinish(s, extracted, summary, false);
            && EnricherBusy(t) && t.enricher.stage.Unanswered? && Protocol.Current(t) == c
            && t.db.Current(c.document, c.version) && t.db.documents[c.document].status == Completed
            && c.id in t.db.jobs && t.db.jobs[c.id].state == Succeeded
            && DoFail(t, true) == t.(enricher := t.enricher.(stage := Rejecting))
  {
    CompletedRows(s.db, Protocol.Current(s), s.enricher.stage.version, s.enricher.stage.document, extracted, summary);
  }

  lemma LostNext(s: System, extracted: string, summary: string)
    requires Committing(s, extracted, summary)
    ensures var t := DoFinish(s, extracted, summary, false);
            && EnrichNext(s, Finish(extracted, summary, false), t)
            && EnrichNext(t, Fail(true), DoFail(t, true))
            && EnrichNext(DoFail(t, true), Reject(true), DoReject(DoFail(t, true), true))
            && TakesBack(DoFail(t, true), Enriching(Reject(true)), Protocol.Current(s).document)
  {
    LostShape(s, extracted, summary);
  }

  lemma ThenThree(states: seq<System>, steps: seq<Step>, a: Step, t: System, b: Step, u: System, c: Step, v: System)
    returns (states': seq<System>, steps': seq<Step>)
    requires IsRun(states, steps) && Next(states[|steps|], a, t) && Next(t, b, u) && Next(u, c, v)
    ensures IsRun(states', steps') && |steps'| == |steps| + 3
    ensures states'[|steps| + 1] == t && states'[|steps| + 2] == u && steps'[|steps| + 2] == c
  {
    states', steps' := Then(states, steps, a, t);
    states', steps' := Then(states', steps', b, u);
    states', steps' := Then(states', steps', c, v);
  }

  /** From every such state three steps take the document back: its commit without a reply, the failure
      that the loop records for nothing, since the job has succeeded, and the rejection. */
  lemma LostCommit(states: seq<System>, steps: seq<Step>, extracted: string, summary: string)
    returns (states': seq<System>, steps': seq<Step>)
    requires IsRun(states, steps) && Committing(states[|steps|], extracted, summary)
    ensures IsRun(states', steps') && |steps'| == |steps| + 3
    ensures var d := Protocol.Current(states[|steps|]).document;
            && states'[|steps| + 1].db.Live(d) && states'[|steps| + 1].db.documents[d].status == Completed
            && TakesBack(states'[|steps| + 2], steps'[|steps| + 2], d)
            && IsTakenBack(states'[|steps| + 3].db, d)
  {
    var s := states[|steps|];
    var t := DoFinish(s, extracted, summary, false);
    LostNextAt(states, steps, extracted, summary);
    states', steps' := ThenThree(states, steps, Enriching(Finish(extracted, summary, false)), t, Enriching(Fail(true)),
                                 DoFail(t, true), Enriching(Reject(true)), DoReject(DoFail(t, true), true));
    TakenBackAtEnd(states', steps', Protocol.Current(s).document);
  }

  lemma LostNextAt(states: seq<System>, steps: seq<Step>, extracted: string, summary: string)
    requires IsRun(states, steps) && Committing(states[|steps|], extracted, summary)
    ensures var s := states[|steps|];
            var d, t := Protocol.Current(s).document, DoFinish(s, extracted, summary, false);
            && EnrichNext(s, Finish(extracted, summary, false), t)
            && t.db.Live(d) && t.db.documents[d].status == Completed
            && EnrichNext(t, Fail(true), DoFail(t, true))
            && EnrichNext(DoFail(t, true), Reject(true), DoReject(DoFail(t, true), true))
            && TakesBack(DoFail(t, true), Enriching(Reject(true)), d)
  {
    LostShape(states[|steps|], extracted, summary);
    LostNext(states[|steps|], extracted, summary);
  }

  lemma TakenBackAtEnd(states: seq<System>, steps: seq<Step>, d: Uuid)
    requires IsRun(states, steps) && steps != [] && TakesBack(states[|steps| - 1], steps[|steps| - 1], d)
    ensures IsTakenBack(states[|steps|].db, d)
  {
    LinkedAt(states, steps, |steps| - 1);
    TakesBackNext(states[|steps| - 1], steps[|steps| - 1], states[|steps|], d);
  }

  /** And such a state is reached: a memo is created, enriched, completed and rejected. */
  lemma LostReply() returns (states: seq<System>, steps: seq<Step>)
    ensures IsRun(states, steps) && |steps| > 2
    ensures states[|steps| - 2].db.Live(2) && states[|steps| - 2].db.documents[2].status == Completed
    ensures IsTakenBack(states[|steps|].db, 2)
  {
    states, steps := AboutToCommit();
    states, steps := LostCommit(states, steps, "", "s");
  }

  // ----- the reply to the commit of an upload is lost -----

  /** A file is uploaded, its transaction commits without saying so, and the upload deletes its object: the
      live document names an object that is gone. */
  lemma LostUpload() returns (states: seq<System>, steps: seq<Step>)
    ensures IsRun(states, steps) && Lost(states, steps, |steps|, 2) && Compensated(steps, |steps|, 2)
    ensures Gone(states[|steps|])
  {
    states, steps := Uploaded();
    assert LostAt(states, steps, 2, 2);
    assert steps[3] == Api(Compensate(2, true));
  }

  // ----- a result comes back after its inbox row has been deleted -----

  const FORGOTTEN := M.Gone({4}, {}, {})

  lemma ThenMove(us: seq<System>, moves: seq<M.Move>, move: M.Move, v: System)
    returns (us': seq<System>, moves': seq<M.Move>)
    requires M.IsMaintainedRun(us, moves) && M.MoveNext(us[|moves|], move, v)
    ensures M.IsMaintainedRun(us', moves') && us' == us + [v] && moves' == moves + [move] && us'[|moves'|] == v
  {
    us', moves' := us + [v], moves + [move];
    forall i | 0 <= i < |moves'| ensures M.MoveNext(us'[i], moves'[i], us'[i + 1]) {
      if i < |moves| {
        assert M.MoveNext(us[i], moves[i], us[i + 1]);
      }
    }
  }

  lemma AsMaintained(states: seq<System>, steps: seq<Step>) returns (moves: seq<M.Move>)
    requires IsRun(states, steps)
    ensures M.IsMaintainedRun(states, moves) && |moves| == |steps|
  {
    moves := seq(|steps|, i requires 0 <= i < |steps| => M.Take(steps[i]));
    forall i | 0 <= i < |moves| ensures M.MoveNext(states[i], moves[i], states[i + 1]) {
      assert moves[i] == M.Take(steps[i]);
    }
  }

  lemma ForgottenNext(s: System)
    requires Stranded(s, map[4 := true], {0, 1, 2, 3, 4, 5, 8}, 1)
    ensures M.MoveNext(s, M.Forget(FORGOTTEN), M.Seen(s, FORGOTTEN))
    ensures Stranded(M.Seen(s, FORGOTTEN), map[], {0, 1, 2, 3, 4, 5, 8}, 1)
  {
    assert s.db.jobIndex == M.IndexWithout(s.db.jobIndex, {});
  }

  /** A failed result is applied, and a late mark puts its job back to processing. When the inbox row is
      deleted before the message is, the result is applied once more. */
  lemma ForgottenResult() returns (us: seq<System>, moves: seq<M.Move>)
    ensures M.IsMaintainedRun(us, moves) && us[|moves|].applied[3] == 2
  {
    var steps;
    us, steps := Marked();
    moves := AsMaintained(us, steps);
    ForgottenNext(us[|moves|]);
    us, moves := ThenMove(us, moves, M.Forget(FORGOTTEN), M.Seen(us[|moves|], FORGOTTEN));
    us, moves := AppliedTwice(us, moves);
  }

  lemma AppliedTwice(us: seq<System>, moves: seq<M.Move>) returns (us': seq<System>, moves': seq<M.Move>)
    requires M.IsMaintainedRun(us, moves) && Stranded(us[|moves|], map[], {0, 1, 2, 3, 4, 5, 8}, 1)
    ensures M.IsMaintainedRun(us', moves') && us'[|moves'|].applied[3] == 2
  {
    var s := us[|moves|];
    ForgottenAt(s);
    ReadNext(s, REFUSAL);
    var t := s.(consumer := HasJob(REFUSAL, s.db.jobs[3]));
    us', moves' := ThenMove(us, moves, M.Take(Consume(Receive(REFUSAL, ""))), t);
    us', moves' := ThenMove(us', moves', M.Take(Consume(ReadDocument)), Read(s, REFUSAL));
    CommitNext(Read(s, REFUSAL), 9);
    us', moves' := ThenMove(us', moves', M.Take(Consume(Commit(9))), DoCommit(Read(s, REFUSAL), 9));
  }
}
