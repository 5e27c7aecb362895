/** The result consumer of internal/worker/scrape_results.go, statement by statement. */
module ScrapeResults {
  import opened Schema
  import opened Tables
  import opened Protocol
  import T = Transactions
  import Effects

  /** What a queue message decodes to, if it does, and what reading its content artifact returns. */
  datatype Message = Message(body: Option<ScrapeResult>, artifact: Option<string>)

  /** The message with its content, if it passes the checks that need no database. */
  function Prepared(message: Message): Option<ScrapeResult> {
    var m :- message.body;
    if !T.ValidEnvelope(m) then None
    else if m.eventType == SCRAPE_COMPLETED && m.content == "" && m.contentKey != "" then
      var artifact :- message.artifact; Some(WithContent(m, artifact))
    else Some(m)
  }

  /** What handling one message commits when nothing comes between, and whether the message is done. */
  function Handle(db: Db, message: Message, enrichJob: Uuid): (Db, bool) {
    var prepared := Prepared(message);
    if prepared.None? then (db, false)
    else
      var m := prepared.value;
      if m.job !in db.jobs || !T.MatchesJob(m, db.jobs[m.job]) then (db, false)
      else
        var found := FindLive(db, m.document);
        (T.ApplyResult(db, m, db.jobs[m.job], found, enrichJob),
         T.Judge(db, m, db.jobs[m.job], found, enrichJob) != T.RolledBack)
  }

  function HandleAll(db: Db, messages: seq<Message>, ids: seq<Uuid>): (Db, seq<bool>)
    requires |ids| == |messages|
  {
    if messages == [] then (db, [])
    else
      var n := |messages| - 1;
      var before := HandleAll(db, messages[..n], ids[..n]);
      var last := Handle(before.0, messages[n], ids[n]);
      (last.0, before.1 + [last.1])
  }

  /** The guards on the way of a completed result. */
  predicate CanComplete(db: Db, m: ScrapeResult, found: Option<Document>, enrichJob: Uuid)
    requires m.version > 0
  {
    && m.content != "" && VersionKey(m.document, m.version) in db.versions
    && (T.ReadAsCurrent(m, found) ==>
          && db.Current(m.document, m.version) && m.fileSize >= 0
          && T.JobInsertable(db, enrichJob, JobKey(m.document, m.version, Enrich)))
    && (found.None? ==> m.document in db.cleanup)
  }

  class ScrapeResultConsumer {
    const db: Database

    constructor (db: Database)
      ensures this.db == db
    {
      this.db := db;
    }

    /** The part of a completed result after its version row has been found. */
    method StartEnrichment(m: ScrapeResult, enrichJob: Uuid) returns (ok: bool)
      requires m.version > 0
      modifies db
      ensures ok <==> old(db.Snapshot()).Current(m.document, m.version) && m.fileSize >= 0
                      && T.JobInsertable(old(db.Snapshot()), enrichJob, JobKey(m.document, m.version, Enrich))
      ensures ok ==> db.Snapshot() == T.StartEnrichment(old(db.Snapshot()), m, enrichJob)
    {
      var affected;
      ok, affected := db.CompleteScrape(m.document, m.version, m.content, m.fileSize);
      ok := ok && affected == 1;
      if ok {
        ok := db.CreateIngestionJob(enrichJob, JobKey(m.document, m.version, Enrich));
      }
    }

    method Complete(m: ScrapeResult, found: Option<Document>, enrichJob: Uuid) returns (ok: bool)
      requires m.version > 0
      modifies db
      ensures var before := old(db.Snapshot());
              && (ok <==> CanComplete(before, m, found, enrichJob))
              && (ok ==> db.Snapshot() == T.ApplySuccess(before, m, found, enrichJob))
      ensures ok && enrichJob != m.job ==> Effects.ResultWritten(old(db.Snapshot()), m, found, db.Snapshot())
    {
      if m.content == "" { return false; }
      ghost var before := db.Snapshot();
      var affected := db.CompleteDocumentVersion(VersionKey(m.document, m.version), T.ResultVersion(m));
      ok := affected == 1;
      if ok && T.ReadAsCurrent(m, found) {
        ok := StartEnrichment(m, enrichJob);
      }
      if ok && found.None? {
        affected := db.RequeueArtifactCleanupJob(m.document);
        ok := affected == 1;
      }
      if ok {
        affected := db.CompleteJob(m.job);
        if enrichJob != m.job {
          Effects.SuccessIsWritten(before, m, found, enrichJob);
        }
      }
    }

    method Apply(m: ScrapeResult, found: Option<Document>, enrichJob: Uuid) returns (ok: bool)
      requires m.version > 0
      modifies db
      ensures var before := old(db.Snapshot());
              && (ok <==> Applicable(before, m, found, enrichJob))
              && (ok ==> db.Snapshot() == Applied(before, m, found, enrichJob))
    {
      ok := true;
      if m.eventType == SCRAPE_FAILED {
        if T.ReadAsCurrent(m, found) {
          var _ := db.RejectScrape(m.document, m.version);
        }
        var _ := db.FailJob(m.job);
      } else {
        ok := Complete(m, found, enrichJob);
      }
    }

    /** The transaction of processMessage, given the rows read before it began. */
    method Transact(m: ScrapeResult, job: Job, found: Option<Document>, enrichJob: Uuid) returns (ok: bool)
      requires m.version > 0
      modifies db
      ensures db.Snapshot() == T.ApplyResult(old(db.Snapshot()), m, job, found, enrichJob)
      ensures ok <==> T.Judge(old(db.Snapshot()), m, job, found, enrichJob) != T.RolledBack
    {
      var before := db.Snapshot();
      ghost var incomplete := before.inbox[m.eventId := false];
      var registered := db.RegisterInboxEvent(m.eventId);
      if !registered { return true; }
      assert incomplete[m.eventId := true] == before.inbox[m.eventId := true];
      if T.TerminalDuplicate(m, job) {
        db.CompleteInboxEvent(m.eventId);
        return true;
      }
      AppliesWithoutInbox(before, m, found, enrichJob, incomplete);
      AppliedByGuards(before, m, job, found, enrichJob);
      ok := Apply(m, found, enrichJob);
      if ok {
        db.CompleteInboxEvent(m.eventId);
      } else {
        db.Restore(before);
      }
    }

    /** Nothing comes between the reads and the transaction here; Protocol lets anything do. */
    method ProcessMessage(message: Message, enrichJob: Uuid) returns (ok: bool)
      modifies db
      ensures (db.Snapshot(), ok) == Handle(old(db.Snapshot()), message, enrichJob)
    {
      var prepared := Prepared(message);
      if prepared.None? { return false; }
      var m := prepared.value;
      var job := db.GetIngestionJob(m.job);
      if job.None? || !T.MatchesJob(m, job.value) { return false; }
      var found := db.GetDocumentByID(m.document);
      ok := Transact(m, job.value, found, enrichJob);
    }

    /** A message is deleted from the queue when it has been processed without error. */
    method Poll(messages: seq<Message>, ids: seq<Uuid>) returns (deleted: seq<bool>)
      requires |ids| == |messages|
      modifies db
      ensures (db.Snapshot(), deleted) == HandleAll(old(db.Snapshot()), messages, ids)
    {
      deleted := [];
      for i := 0 to |messages|
        invariant (db.Snapshot(), deleted) == HandleAll(old(db.Snapshot()), messages[..i], ids[..i])
      {
        assert messages[..i + 1][..i] == messages[..i] && ids[..i + 1][..i] == ids[..i];
        var ok := ProcessMessage(messages[i], ids[i]);
        deleted := deleted + [ok];
      }
      assert messages[..|messages|] == messages && ids[..|ids|] == ids;
    }
  }

  /** What the statements between the two inbox statements leave. */
  function Applied(db: Db, m: ScrapeResult, found: Option<Document>, enrichJob: Uuid): Db
    requires m.version > 0
  {
    if m.eventType == SCRAPE_FAILED then T.ApplyFailure(db, m, found) else T.ApplySuccess(db, m, found, enrichJob)
  }

  predicate Applicable(db: Db, m: ScrapeResult, found: Option<Document>, enrichJob: Uuid)
    requires m.version > 0
  {
    m.eventType == SCRAPE_FAILED || CanComplete(db, m, found, enrichJob)
  }

  lemma AppliedByGuards(db: Db, m: ScrapeResult, job: Job, found: Option<Document>, enrichJob: Uuid)
    requires m.version > 0 && m.eventId !in db.inbox && !T.TerminalDuplicate(m, job)
    ensures Applicable(db, m, found, enrichJob) ==>
              && T.Judge(db, m, job, found, enrichJob) != T.RolledBack
              && T.ApplyResult(db, m, job, found, enrichJob) ==
                 Applied(db, m, found, enrichJob).(inbox := db.inbox[m.eventId := true])
    ensures !Applicable(db, m, found, enrichJob) ==>
              && T.Judge(db, m, job, found, enrichJob) == T.RolledBack
              && T.ApplyResult(db, m, job, found, enrichJob) == db
  {
    if m.eventType == SCRAPE_FAILED {
      FailsWithoutInbox(db, m, found, db.inbox);
    } else if CanComplete(db, m, found, enrichJob) {
      SuccessKeepsInbox(db, m, found, enrichJob);
    }
  }

  // The statements of a result neither look at the inbox nor change it.

  lemma InsertsWithoutInbox(db: Db, id: Uuid, key: JobKey, inbox: map<Uuid, bool>)
    ensures T.InsertJob(db.(inbox := inbox), id, key) == T.InsertJob(db, id, key).(inbox := inbox)
    ensures T.InsertJob(db, id, key).inbox == db.inbox
  {
    if key in db.jobIndex {
    } else {
    }
  }

  lemma StartsWithoutInbox(db: Db, m: ScrapeResult, enrichJob: Uuid, inbox: map<Uuid, bool>)
    requires m.version > 0
    ensures T.StartEnrichment(db.(inbox := inbox), m, enrichJob) == T.StartEnrichment(db, m, enrichJob).(inbox := inbox)
    ensures T.StartEnrichment(db, m, enrichJob).inbox == db.inbox
  {
    if m.document in db.documents && m.fileSize >= 0 {
      var after := db.(documents := db.documents[m.document := T.ScrapedDocument(db.documents[m.document], m)]);
      InsertsWithoutInbox(after, enrichJob, JobKey(m.document, m.version, Enrich), inbox);
    }
  }

  lemma RequeuesWithoutInbox(db: Db, d: Uuid, inbox: map<Uuid, bool>)
    ensures T.Requeue(db.(inbox := inbox), d) == T.Requeue(db, d).(inbox := inbox)
    ensures T.Requeue(db, d).inbox == db.inbox
  {
    if d in db.cleanup {
    } else {
    }
  }

  lemma SucceedsWithoutInbox(db: Db, m: ScrapeResult, found: Option<Document>, enrichJob: Uuid, inbox: map<Uuid, bool>)
    requires m.version > 0
    ensures T.ApplySuccess(db.(inbox := inbox), m, found, enrichJob) == T.ApplySuccess(db, m, found, enrichJob).(inbox := inbox)
    ensures T.ApplySuccess(db, m, found, enrichJob).inbox == db.inbox
  {
    var db1 := db.(versions := db.versions[VersionKey(m.document, m.version) := T.ResultVersion(m)]);
    StartsWithoutInbox(db1, m, enrichJob, inbox);
    var db2 := if T.ReadAsCurrent(m, found) then T.StartEnrichment(db1, m, enrichJob) else db1;
    RequeuesWithoutInbox(db2, m.document, inbox);
  }

  lemma FailsWithoutInbox(db: Db, m: ScrapeResult, found: Option<Document>, inbox: map<Uuid, bool>)
    requires m.version > 0
    ensures T.ApplyFailure(db.(inbox := inbox), m, found) == T.ApplyFailure(db, m, found).(inbox := inbox)
    ensures T.ApplyFailure(db, m, found).inbox == db.inbox
  {
  }

  lemma AppliesWithoutInbox(db: Db, m: ScrapeResult, found: Option<Document>, enrichJob: Uuid, inbox: map<Uuid, bool>)
    requires m.version > 0
    ensures Applied(db.(inbox := inbox), m, found, enrichJob) == Applied(db, m, found, enrichJob).(inbox := inbox)
    ensures Applicable(db.(inbox := inbox), m, found, enrichJob) == Applicable(db, m, found, enrichJob)
    ensures Applied(db, m, found, enrichJob).inbox == db.inbox
  {
    if m.eventType == SCRAPE_FAILED {
      FailsWithoutInbox(db, m, found, inbox);
    } else {
      SucceedsWithoutInbox(db, m, found, enrichJob, inbox);
    }
  }

  lemma SuccessKeepsInbox(db: Db, m: ScrapeResult, found: Option<Document>, enrichJob: Uuid)
    requires m.version > 0
    ensures T.ApplySuccess(db, m, found, enrichJob).inbox == db.inbox
  {
    SucceedsWithoutInbox(db, m, found, enrichJob, db.inbox);
  }

  lemma RecordedByVerdict(db: Db, m: ScrapeResult, job: Job, found: Option<Document>, enrichJob: Uuid, verdict: T.Verdict)
    requires m.version > 0 && verdict == T.Judge(db, m, job, found, enrichJob)
    ensures verdict == T.RolledBack || verdict == T.Duplicate ==> T.ApplyResult(db, m, job, found, enrichJob) == db
    ensures verdict != T.RolledBack && verdict != T.Duplicate ==>
              T.ApplyResult(db, m, job, found, enrichJob).inbox == db.inbox[m.eventId := true]
  {
    if verdict == T.RolledBack {
    } else if verdict == T.Duplicate {
    } else if verdict == T.Terminal {
    } else if verdict == T.AppliedFailure {
    } else {
      SuccessKeepsInbox(db, m, found, enrichJob);
    }
  }

  // ----- what the queue may rely on -----

  /** A message is deleted only once its event is in the inbox; otherwise nothing has been committed. */
  lemma DeletedIsRecorded(db: Db, message: Message, id: Uuid)
    ensures var after := Handle(db, message, id);
            && (after.1 ==> message.body.Some? && message.body.value.eventId in after.0.inbox)
            && (!after.1 ==> after.0 == db)
            && db.inbox.Keys <= after.0.inbox.Keys
  {
    var prepared := Prepared(message);
    if prepared.Some? && prepared.value.job in db.jobs {
      var m := prepared.value;
      var found := FindLive(db, m.document);
      RecordedByVerdict(db, m, db.jobs[m.job], found, id, T.Judge(db, m, db.jobs[m.job], found, id));
    }
  }

  /** A message is accepted if it passes the checks of the envelope, and its content is there or can be read
      when it is left to an artifact. */
  lemma MessageIsPrepared(message: Message)
    ensures var left := message.body.Some? && message.body.value.eventType == "document.scrape.completed.v1"
                        && message.body.value.content == "" && message.body.value.contentKey != "";
            && (Prepared(message).Some? <==> && message.body.Some? && T.ValidEnvelope(message.body.value)
                                             && (left ==> message.artifact.Some?))
            && (Prepared(message).Some? ==>
                  Prepared(message).value ==
                  if left then message.body.value.(content := message.artifact.value) else message.body.value)
  {
  }

  /** It is applied against the job that it names and its document, if that is live; refused or rolled back it
      changes nothing and is not deleted. */
  lemma MessageIsHandled(db: Db, message: Message, enrichJob: Uuid)
    ensures var m := Prepared(message);
            if m.None? || m.value.job !in db.jobs || !T.MatchesJob(m.value, db.jobs[m.value.job])
            then Handle(db, message, enrichJob) == (db, false)
            else
              var d := m.value.document;
              var found := if d in db.documents && !db.documents[d].deleted then Some(db.documents[d]) else None;
              var job := db.jobs[m.value.job];
              && m.value.version > 0
              && Handle(db, message, enrichJob) == (T.ApplyResult(db, m.value, job, found, enrichJob),
                                                    T.Judge(db, m.value, job, found, enrichJob) != T.RolledBack)
  {
  }

  /** A poll handles one message after the other, each on what has been committed before. */
  lemma PollInOrder(db: Db, messages: seq<Message>, ids: seq<Uuid>, n: nat)
    requires |ids| == |messages| == n + 1
    ensures var before := HandleAll(db, messages[..n], ids[..n]);
            var last := Handle(before.0, messages[n], ids[n]);
            HandleAll(db, messages, ids) == (last.0, before.1 + [last.1]) && HandleAll(db, [], []) == (db, [])
  {
  }

  lemma {:induction false} AllDeletedAreRecorded(db: Db, messages: seq<Message>, ids: seq<Uuid>)
    requires |ids| == |messages|
    ensures var after := HandleAll(db, messages, ids);
            && |after.1| == |messages| && db.inbox.Keys <= after.0.inbox.Keys
            && forall i :: 0 <= i < |messages| && after.1[i] ==>
                 messages[i].body.Some? && messages[i].body.value.eventId in after.0.inbox
  {
    if messages != [] {
      var n := |messages| - 1;
      AllDeletedAreRecorded(db, messages[..n], ids[..n]);
      DeletedIsRecorded(HandleAll(db, messages[..n], ids[..n]).0, messages[n], ids[n]);
    }
  }

  /** A message delivered again after it was processed changes nothing and is deleted again, whatever
      was committed in between, as long as its job is still there. */
  lemma RedeliveryChangesNothing(db: Db, message: Message, id: Uuid)
    requires var prepared := Prepared(message);
             && prepared.Some? && prepared.value.eventId in db.inbox
             && prepared.value.job in db.jobs && T.MatchesJob(prepared.value, db.jobs[prepared.value.job])
    ensures Handle(db, message, id) == (db, true)
  {
  }
}
