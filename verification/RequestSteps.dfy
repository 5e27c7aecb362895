/** The requests, the claims and the maintenance job take steps of the protocol, too: what the methods of Library,
    Identity, Filestore and Tables are proved to commit is what one such step commits. */
module RequestSteps {
  import opened Schema
  import opened Transactions
  import opened Protocol
  import ProofsApi

  /** The identifiers that the request generates are fresh. */
  predicate Fresh(s: System, step: ApiStep) {
    match step
    case NewMemo(_, d, job, _) => Protocol.Fresh(s, [d, job])
    case EditMemo(_, _, job, _) => Protocol.Fresh(s, [job])
    case NewWebpage(_, d, job, event, _) => Protocol.Fresh(s, [d, job, event])
    case RefreshWebpage(_, _, job, event, _) => Protocol.Fresh(s, [job, event])
    case _ => false
  }

  /** What a transaction that creates a version commits, and what becomes part of the histories. */
  lemma BeginCommits(s: System, plan: Option<NewVersion>)
    ensures var after, t := Begin(s.db, plan), DoBegin(s, plan);
            && t.db == after.GetOr(s.db)
            && (after.None? ==> t == s)
            && (after.Some? ==>
                  var n := plan.value;
                  && n.d in t.used && n.job in t.used && s.used <= t.used
                  && (n.document.kind == Webpage ==>
                        && n.event in t.used && t.eventOf == s.eventOf[n.job := n.event]
                        && t.requests == s.requests[n.event := ScrapeRequest(n.job, n.d, n.document.currentVersion,
                                                                             n.document.sourceUrl)])
                  && (n.document.kind != Webpage ==> n.job in t.enrichJobs && t.requests == s.requests))
  {
  }

  /** A request that creates a version is one step, whether it commits or is refused. */
  lemma RequestIsStep(s: System, step: ApiStep)
    requires Fresh(s, step)
    ensures var t := DoBegin(s, ProofsApi.PlanOf(s.db, step));
            ApiNext(s, step, t) && t.db == Begin(s.db, ProofsApi.PlanOf(s.db, step)).GetOr(s.db)
  {
    BeginCommits(s, ProofsApi.PlanOf(s.db, step));
  }

  /** So is the upload of a file that has been stored, and its request sees an error if it is rolled back or not
      answered. */
  lemma UploadIsStep(s: System, owner: Uuid, file: Upload, answered: bool)
    requires file.kind == Image || file.kind == File
    requires file.document in s.files.uploads && s.files.uploads[file.document].open
    requires file.key == s.files.uploads[file.document].key && (answered ==> !s.files.uploads[file.document].failed)
    requires file.document !in s.used && Protocol.Fresh(s, [file.job])
    ensures var after, t := Begin(s.db, PersistFile(s.db, owner, file)), DoNewFile(s, owner, file, answered);
            && ApiNext(s, NewFile(owner, file, answered), t) && t.db == after.GetOr(s.db)
            && file.document in t.files.uploads
            && t.files.uploads[file.document] ==
               Uploading(file.key, s.files.uploads[file.document].failed || !answered || after.None?, false)
  {
    BeginCommits(s, PersistFile(s.db, owner, file));
  }

  lemma DeletionIsStep(s: System, owner: Uuid, d: Uuid)
    ensures ApiNext(s, Remove(owner, d), s.(db := Delete(s.db, owner, d).GetOr(s.db)))
    ensures ApiNext(s, Leave(owner), s.(db := Withdraw(s.db, owner).GetOr(s.db)))
  {
  }

  lemma AccountIsStep(s: System, a: Uuid)
    requires a !in s.used && a !in s.files.uploads
    ensures ApiNext(s, NewAccount(a), s.(db := s.db.(accounts := s.db.accounts[a := Account(User, Free, false)]),
                                         used := s.used + {a}))
  {
    assert Protocol.Fresh(s, [a]);
  }

  /** A send may reach the queue or not, and say so or not; the event at hand may be skipped after an error. */
  lemma SendIsStep(s: System, token: Uuid, delivered: bool, acknowledged: bool, rest: bool)
    requires token in s.dispatchers && s.dispatchers[token].batch != []
    ensures var dispatcher := s.dispatchers[token];
            var c := dispatcher.batch[0];
            && DispatchNext(s, token, Skip(rest), s.(dispatchers := s.dispatchers[
                                                     token := Dispatcher(if rest then [] else dispatcher.batch[1..], Unsent)]))
            && (dispatcher.stage == Unsent && ValidRequest(c.id, c.row) ==>
                  DispatchNext(s, token, Send(delivered, acknowledged),
                               s.(sent := if delivered then s.sent + {c.id} else s.sent,
                                  dispatchers := s.dispatchers[
                                  token := Dispatcher(dispatcher.batch, if delivered && acknowledged then Delivered else Refused)])))
  {
  }

  // ----- claims -----

  lemma ClaimedRows(jobs: map<Uuid, Job>, outbox: map<Uuid, OutboxEvent>, picked: seq<Uuid>)
    requires forall i :: 0 <= i < |picked| ==> picked[i] in jobs && picked[i] in outbox
    ensures |ClaimedJobs(jobs, picked)| == |picked| == |ClaimedEvents(outbox, picked)|
    ensures forall i :: 0 <= i < |picked| ==>
              && ClaimedJobs(jobs, picked)[i] == ClaimedJob(picked[i], jobs[picked[i]].key.document, jobs[picked[i]].key.version)
              && ClaimedEvents(outbox, picked)[i] == ClaimedEvent(picked[i], outbox[picked[i]])
  {
  }

  lemma JobClaimIsStep(s: System, picked: seq<Uuid>)
    requires s.enricher.batch == [] && Distinct(picked)
    requires forall i :: 0 <= i < |picked| ==> picked[i] in s.db.jobs && ClaimableJob(s.db.jobs[picked[i]])
    ensures var t := s.(db := s.db.(jobs := ClaimJobs(s.db.jobs, Elements(picked))),
                        enricher := Enricher(ClaimedJobs(s.db.jobs, picked), Fetched),
                        claims := s.claims + multiset(Elements(picked)));
            EnrichNext(s, TakeJobs(picked), t)
  {
  }

  lemma CleanupClaimIsStep(s: System, picked: seq<Uuid>)
    requires s.cleaner.batch == [] && Distinct(picked)
    requires forall i :: 0 <= i < |picked| ==> picked[i] in s.db.cleanup && ClaimableCleanup(s.db.cleanup[picked[i]])
    ensures var t := s.(db := s.db.(cleanup := ClaimCleanup(s.db.cleanup, Elements(picked))),
                        cleaner := Cleaner(picked, Unlisted));
            CleanNext(s, TakeCleanup(picked), t)
  {
  }

  lemma EventClaimIsStep(s: System, token: Uuid, picked: seq<Uuid>)
    requires token in s.dispatchers && s.dispatchers[token].batch == [] && Distinct(picked)
    requires forall i :: 0 <= i < |picked| ==> picked[i] in s.db.outbox && Claimable(s.db.outbox[picked[i]])
    ensures var t := s.(db := ClaimEvents(s.db, token, Elements(picked)),
                        dispatchers := s.dispatchers[token := Dispatcher(ClaimedEvents(s.db.outbox, picked), Unsent)]);
            DispatchNext(s, token, Lease(picked), t)
  {
  }

  // ----- maintenance -----

  lemma PurgeIsStep(s: System, expired: set<Uuid>, a: Uuid)
    ensures (forall d :: d in expired ==> HardDeletable(s.db, d)) ==>
              Next(s, PurgeDocuments(expired), s.(db := RemoveDocuments(s.db, expired)))
    ensures AccountHardDeletable(s.db, a) ==> Next(s, PurgeAccount(a), s.(db := RemoveAccount(s.db, a)))
  {
  }

  // ----- what the environment may do at any time -----

  /** A worker may crash and start again, a call may fail, and the commit of an upload may fail or be lost. */
  lemma CrashesAreSteps(s: System, token: Uuid, d: Uuid, sent: bool, rest: bool)
    ensures ConsumeNext(s, StopConsumer, s.(consumer := Waiting))
    ensures EnrichNext(s, StopEnricher, s.(enricher := Enricher([], Fetched)))
    ensures CleanNext(s, StopCleaner, s.(cleaner := Cleaner([], Unlisted)))
    ensures token in s.dispatchers ==> DispatchNext(s, token, Stop, s.(dispatchers := s.dispatchers - {token}))
    ensures Protocol.Fresh(s, [token]) ==>
              DispatchNext(s, token, Start,
                           s.(dispatchers := s.dispatchers[token := Dispatcher([], Unsent)], used := s.used + {token}))
    ensures d in s.files.uploads && s.files.uploads[d].open ==>
              ApiNext(s, FailUpload(d, sent),
                      s.(files := s.files.(uploads := s.files.uploads[d := Uploading(s.files.uploads[d].key, true, sent)])))
  {
  }

  /** An error of the enrichment loop is one step, and the rejection another; the statements that store them may
      fail themselves. */
  lemma FailuresAreSteps(s: System, stored: bool)
    requires s.enricher.batch != []
    ensures var c, jobs := s.enricher.batch[0], s.db.jobs;
            && (!s.enricher.stage.Rejecting? ==>
                  EnrichNext(s, Fail(stored), s.(db := if stored then s.db.(jobs := FailJob(jobs, c.id)) else s.db,
                                                 enricher := Enricher(s.enricher.batch, Rejecting))))
            && (s.enricher.stage.Rejecting? ==>
                  EnrichNext(s, Reject(stored),
                             s.(db := if stored then s.db.(documents := RejectEnrichment(s.db, c.document, c.version)) else s.db,
                                enricher := Enricher(s.enricher.batch[1..], Fetched))))
  {
  }

  /** The cleanup loop deletes the objects of its list, whatever bucket they are in. */
  lemma ObjectDeletionIsStep(s: System, target: S3Object)
    requires s.cleaner.batch != [] && s.cleaner.stage.Deleting? && target in s.cleaner.stage.todo
    ensures exists t :: CleanNext(s, DeleteObject(target), t) && t.db == s.db
                        && t.cleaner == Cleaner(s.cleaner.batch, Deleting(s.cleaner.stage.todo - {target}))
                        && t.files.deleted == s.files.deleted + (if target.bucket == DocumentBucket then {target.key} else {})
                        && forall r :: r in t.undeleted <==> r in s.undeleted && r.target != target
  {
    assert CleanNext(s, DeleteObject(target), DoDeleteObject(s, target));
  }

  /** An object is stored before its upload, and an upload that has seen an error may delete it again. */
  lemma ObjectsAreSteps(s: System, d: Uuid, key: string)
    ensures Protocol.Fresh(s, [d]) && key != "" && key !in s.files.owners ==>
              ApiNext(s, PutFile(d, key), s.(files := Files(s.files.uploads[d := Uploading(key, false, true)],
                                                            s.files.owners[key := d], s.files.deleted)))
    ensures d in s.files.uploads && s.files.uploads[d].failed ==>
              exists t :: ApiNext(s, Compensate(d, true), t) && t.db == s.db
                          && t.files == s.files.(deleted := s.files.deleted + {s.files.uploads[d].key})
                          && forall r :: r in t.undeleted <==>
                                         r in s.undeleted && r.target != S3Object(DocumentBucket, s.files.uploads[d].key)
  {
    if d in s.files.uploads && s.files.uploads[d].failed {
      assert ApiNext(s, Compensate(d, true), DoCompensate(s, d, true));
    }
  }

  /** A request that was delivered may be answered, with anything, as often as it is delivered; what its scraper
      stores is stored again where a row names it. */
  lemma AnswersAreSteps(s: System, m: ScrapeResult)
    requires m.eventId in s.sent && m.eventId in s.requests && s.requests[m.eventId].job == m.job
    ensures exists t :: Next(s, Scraper(m), t) && t.db == s.db && t.results == s.results + {m} && s.undeleted <= t.undeleted
  {
    assert Next(s, Scraper(m), DoScrape(s, m));
  }
}
