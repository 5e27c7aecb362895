/** The database as the services and workers use it: one method per SQL statement of
    internal/dbgen, each changing its rows in place and reporting the rows it affected. A
    transaction takes a snapshot when it begins and restores it when it rolls back. */
module Tables {
  import opened Schema
  import T = Transactions
  import opened Protocol

  class Database {
    var accounts: map<Uuid, Account>
    var documents: map<Uuid, Document>
    var versions: map<VersionKey, Version>
    var jobs: map<Uuid, Job>
    var jobIndex: map<JobKey, Uuid>
    var outbox: map<Uuid, OutboxEvent>
    var inbox: map<Uuid, bool>
    var chunks: map<ChunkKey, string>
    var cleanup: map<Uuid, CleanupJob>

    function Snapshot(): Db
      reads this
    {
      Db(accounts, documents, versions, jobs, jobIndex, outbox, inbox, chunks, cleanup)
    }

    constructor ()
      ensures Snapshot() == EMPTY_DB
    {
      accounts, documents, versions, jobs, jobIndex := map[], map[], map[], map[], map[];
      outbox, inbox, chunks, cleanup := map[], map[], map[], map[];
    }

    /** ROLLBACK */
    method Restore(db: Db)
      modifies this
      ensures Snapshot() == db
    {
      accounts, documents, versions, jobs, jobIndex := db.accounts, db.documents, db.versions, db.jobs, db.jobIndex;
      outbox, inbox, chunks, cleanup := db.outbox, db.inbox, db.chunks, db.cleanup;
    }

    // ----- accounts.sql -----

    method LockActiveAccount(a: Uuid) returns (found: bool)
      ensures found <==> Snapshot().ActiveAccount(a)
    {
      found := a in accounts && !accounts[a].deleted;
    }

    method SoftDeleteAccount(a: Uuid) returns (affected: nat)
      modifies `accounts
      ensures affected == if old(Snapshot()).ActiveAccount(a) then 1 else 0
      ensures accounts == if affected == 1 then old(accounts)[a := old(accounts)[a].(deleted := true)] else old(accounts)
    {
      affected := 0;
      if a in accounts && !accounts[a].deleted {
        accounts, affected := accounts[a := accounts[a].(deleted := true)], 1;
      }
    }

    method SoftDeleteAccountDocuments(a: Uuid)
      modifies `documents
      ensures documents == T.SoftDeleteOwned(old(documents), a)
    {
      var todo := documents.Keys;
      ghost var before := documents;
      while todo != {}
        invariant todo <= before.Keys && documents.Keys == before.Keys
        invariant forall d :: d in documents ==> documents[d] == if d in todo then before[d] else T.SoftDeleteOwned(before, a)[d]
        decreases |todo|
      {
        var d: Uuid :| d in todo;
        if documents[d].owner == a && !documents[d].deleted {
          documents := documents[d := documents[d].(deleted := true)];
        }
        todo := todo - {d};
      }
    }

    method ScheduleAccountArtifactCleanup(a: Uuid)
      modifies `cleanup
      ensures cleanup == T.RequeueOwned(documents, old(cleanup), a)
    {
      var todo := documents.Keys;
      ghost var before := cleanup;
      while todo != {}
        invariant todo <= documents.Keys
        invariant forall d :: d in cleanup <==> d in before || (d in documents && documents[d].owner == a && d !in todo)
        invariant forall d :: d in cleanup ==>
                    cleanup[d] == if d in documents && documents[d].owner == a && d !in todo then CleanupJob(Queued, 0) else before[d]
        decreases |todo|
      {
        var d: Uuid :| d in todo;
        if documents[d].owner == a {
          cleanup := cleanup[d := CleanupJob(Queued, 0)];
        }
        todo := todo - {d};
      }
    }

    // ----- documents.sql -----

    /** CreateMemo, CreateWebpage and CreateFileDocument: INSERT with the given row. */
    method InsertDocument(d: Uuid, row: Document) returns (ok: bool)
      modifies `documents
      ensures ok <==> d !in old(documents)
      ensures documents == if ok then old(documents)[d := row] else old(documents)
    {
      ok := d !in documents;
      if ok {
        documents := documents[d := row];
      }
    }

    method UpdateMemo(owner: Uuid, d: Uuid, content: string) returns (row: Option<Document>)
      modifies `documents
      ensures row.Some? <==> T.OwnedLive(old(Snapshot()), owner, d, Memo)
      ensures row.Some? ==>
                var before := old(documents)[d];
                row.value == before.(content := content, currentVersion := before.currentVersion + 1, status := EnrichPending)
      ensures documents == if row.Some? then old(documents)[d := row.value] else old(documents)
    {
      row := None;
      if d in documents && !documents[d].deleted && documents[d].owner == owner && documents[d].kind == Memo {
        var after := documents[d].(content := content, currentVersion := documents[d].currentVersion + 1, status := EnrichPending);
        documents, row := documents[d := after], Some(after);
      }
    }

    method BeginWebpageRefresh(owner: Uuid, d: Uuid, url: string) returns (row: Option<Document>)
      modifies `documents
      ensures row.Some? <==> T.OwnedLive(old(Snapshot()), owner, d, Webpage)
      ensures row.Some? ==>
                var before := old(documents)[d];
                row.value == before.(sourceUrl := url, currentVersion := before.currentVersion + 1, status := ScrapePending)
      ensures documents == if row.Some? then old(documents)[d := row.value] else old(documents)
    {
      row := None;
      if d in documents && !documents[d].deleted && documents[d].owner == owner && documents[d].kind == Webpage {
        var after := documents[d].(sourceUrl := url, currentVersion := documents[d].currentVersion + 1, status := ScrapePending);
        documents, row := documents[d := after], Some(after);
      }
    }

    method GetDocumentByID(d: Uuid) returns (row: Option<Document>)
      ensures row == if Snapshot().Live(d) then Some(documents[d]) else None
    {
      row := if d in documents && !documents[d].deleted then Some(documents[d]) else None;
    }

    method GetDocumentVersion(k: VersionKey) returns (row: Option<Version>)
      ensures row == if k in versions then Some(versions[k]) else None
    {
      row := if k in versions then Some(versions[k]) else None;
    }

    method CreateDocumentVersion(k: VersionKey, row: Version) returns (ok: bool)
      modifies `versions
      ensures ok <==> k !in old(versions)
      ensures versions == if ok then old(versions)[k := row] else old(versions)
    {
      ok := k !in versions;
      if ok {
        versions := versions[k := row];
      }
    }

    method CompleteDocumentVersion(k: VersionKey, row: Version) returns (affected: nat)
      modifies `versions
      ensures affected == if k in old(versions) then 1 else 0
      ensures versions == if affected == 1 then old(versions)[k := row] else old(versions)
    {
      affected := 0;
      if k in versions {
        versions, affected := versions[k := row], 1;
      }
    }

    method CompleteEnrichedVersion(k: VersionKey, summary: string) returns (affected: nat)
      modifies `versions
      ensures affected == if k in old(versions) then 1 else 0
      ensures versions == if affected == 1 then old(versions)[k := old(versions)[k].(summary := summary)] else old(versions)
    {
      affected := 0;
      if k in versions {
        versions, affected := versions[k := versions[k].(summary := summary)], 1;
      }
    }

    /** UPDATE documents ... WHERE id AND current_version AND deleted_at IS NULL: the guard that
        CompleteScrape, RejectScrape, CompleteEnrichment and RejectEnrichment share. */
    method UpdateCurrent(d: Uuid, v: nat, row: Document) returns (affected: nat)
      modifies `documents
      ensures affected == if old(Snapshot()).Current(d, v) then 1 else 0
      ensures documents == if affected == 1 then old(documents)[d := row] else old(documents)
    {
      affected := 0;
      if d in documents && !documents[d].deleted && documents[d].currentVersion == v {
        documents, affected := documents[d := row], 1;
      }
    }

    /** file_size >= 0 is a CHECK of the table: a negative size is an error, not a row count. */
    method CompleteScrape(d: Uuid, v: nat, content: string, fileSize: int) returns (ok: bool, affected: nat)
      modifies `documents
      ensures var current := old(Snapshot()).Current(d, v);
              && (ok <==> !current || fileSize >= 0)
              && affected == (if current && ok then 1 else 0)
              && documents == if affected == 1
                              then old(documents)[d := old(documents)[d].(content := content, fileSize := fileSize, status := EnrichPending)]
                              else old(documents)
    {
      ok, affected := true, 0;
      if d in documents && !documents[d].deleted && documents[d].currentVersion == v {
        if fileSize < 0 {
          ok := false;
        } else {
          affected := UpdateCurrent(d, v, documents[d].(content := content, fileSize := fileSize, status := EnrichPending));
        }
      }
    }

    method RejectScrape(d: Uuid, v: nat) returns (affected: nat)
      modifies `documents
      ensures affected == if old(Snapshot()).Current(d, v) then 1 else 0
      ensures documents == T.RejectScrape(old(Snapshot()), d, v)
    {
      affected := 0;
      if d in documents {
        affected := UpdateCurrent(d, v, documents[d].(status := ScrapeRejected));
      }
    }

    method RejectEnrichment(d: Uuid, v: nat) returns (affected: nat)
      modifies `documents
      ensures affected == if old(Snapshot()).Current(d, v) then 1 else 0
      ensures documents == T.RejectEnrichment(old(Snapshot()), d, v)
    {
      affected := 0;
      if d in documents {
        affected := UpdateCurrent(d, v, documents[d].(status := EnrichRejected));
      }
    }

    method CompleteEnrichment(d: Uuid, v: nat, summary: string) returns (affected: nat)
      modifies `documents
      ensures affected == if old(Snapshot()).Current(d, v) then 1 else 0
      ensures documents == if affected == 1
                           then old(documents)[d := old(documents)[d].(summary := summary, status := Completed)]
                           else old(documents)
    {
      affected := 0;
      if d in documents {
        affected := UpdateCurrent(d, v, documents[d].(summary := summary, status := Completed));
      }
    }

    method MarkDocumentProcessing(d: Uuid, v: nat) returns (affected: nat)
      modifies `documents
      ensures affected == if documents != old(documents) then 1 else 0
      ensures documents == T.MarkDocumentProcessing(old(documents), d, v)
    {
      affected := 0;
      if d in documents && documents[d].currentVersion == v && documents[d].status in {ScrapePending, ScrapeRejected} {
        documents, affected := documents[d := documents[d].(status := ScrapeProcessing)], 1;
      }
    }

    method MarkDocumentEnrichProcessing(d: Uuid, v: nat) returns (affected: nat)
      modifies `documents
      ensures affected == if old(Snapshot()).Current(d, v) && old(documents)[d].status in {EnrichPending, EnrichRejected} then 1 else 0
      ensures documents == if affected == 1 then old(documents)[d := old(documents)[d].(status := EnrichProcessing)] else old(documents)
    {
      affected := 0;
      if d in documents && documents[d].status in {EnrichPending, EnrichRejected} {
        affected := UpdateCurrent(d, v, documents[d].(status := EnrichProcessing));
      }
    }

    /** The version row, and the document if it is still live at that version; the document is counted. */
    method SaveExtractedContent(k: VersionKey, content: string) returns (affected: nat)
      modifies `versions, `documents
      ensures versions == if k in old(versions) then old(versions)[k := old(versions)[k].(content := content)] else old(versions)
      ensures affected == if k in old(versions) && old(Snapshot()).Current(k.document, k.version) then 1 else 0
      ensures documents == if affected == 1
                           then old(documents)[k.document := old(documents)[k.document].(content := content)]
                           else old(documents)
    {
      affected := 0;
      if k in versions {
        versions := versions[k := versions[k].(content := content)];
        if k.document in documents {
          affected := UpdateCurrent(k.document, k.version, documents[k.document].(content := content));
        }
      }
    }

    method SoftDeleteDocument(owner: Uuid, d: Uuid) returns (affected: nat)
      modifies `documents
      ensures affected == if old(Snapshot()).Live(d) && old(documents)[d].owner == owner then 1 else 0
      ensures documents == if affected == 1 then old(documents)[d := old(documents)[d].(deleted := true)] else old(documents)
    {
      affected := 0;
      if d in documents && !documents[d].deleted && documents[d].owner == owner {
        documents, affected := documents[d := documents[d].(deleted := true)], 1;
      }
    }

    method CreateArtifactCleanupJob(d: Uuid)
      modifies `cleanup
      ensures cleanup == if d in old(cleanup) then old(cleanup) else old(cleanup)[d := CleanupJob(Queued, 0)]
    {
      if d !in cleanup {
        cleanup := cleanup[d := CleanupJob(Queued, 0)];
      }
    }

    method RequeueArtifactCleanupJob(d: Uuid) returns (affected: nat)
      modifies `cleanup
      ensures affected == if d in old(cleanup) then 1 else 0
      ensures cleanup == T.Requeue(old(Snapshot()), d).cleanup
    {
      affected := 0;
      if d in cleanup {
        cleanup, affected := cleanup[d := CleanupJob(Queued, 0)], 1;
      }
    }

    method CompleteArtifactCleanupJob(d: Uuid) returns (affected: nat)
      modifies `cleanup
      ensures affected == if T.CleanupCompletable(old(cleanup), d) then 1 else 0
      ensures cleanup == T.CompleteCleanup(old(cleanup), d)
    {
      affected := 0;
      if d in cleanup && cleanup[d].state in {Processing, Succeeded} {
        cleanup, affected := cleanup[d := cleanup[d].(state := Succeeded)], 1;
      }
    }

    method FailArtifactCleanupJob(d: Uuid) returns (affected: nat)
      modifies `cleanup
      ensures affected == if d in old(cleanup) && old(cleanup)[d].state == Processing then 1 else 0
      ensures cleanup == T.FailCleanup(old(cleanup), d)
    {
      affected := 0;
      if d in cleanup && cleanup[d].state == Processing {
        cleanup, affected := cleanup[d := cleanup[d].(state := Failed)], 1;
      }
    }

    // ----- jobs.sql -----

    method GetIngestionJob(j: Uuid) returns (row: Option<Job>)
      ensures row == if j in jobs then Some(jobs[j]) else None
    {
      row := if j in jobs then Some(jobs[j]) else None;
    }

    method CreateIngestionJob(id: Uuid, key: JobKey) returns (ok: bool)
      modifies `jobs, `jobIndex
      ensures ok <==> T.JobInsertable(old(Snapshot()), id, key)
      ensures Snapshot() == if ok then T.InsertJob(old(Snapshot()), id, key) else old(Snapshot())
    {
      ok := true;
      if key !in jobIndex {
        if id in jobs {
          ok := false;
        } else {
          jobs, jobIndex := jobs[id := Job(key, Queued, 0)], jobIndex[key := id];
        }
      }
    }

    method MarkJobProcessing(j: Uuid) returns (affected: nat)
      modifies `jobs
      ensures affected == if j in old(jobs) && old(jobs)[j].state in {Queued, Failed} then 1 else 0
      ensures jobs == T.MarkJobProcessing(old(jobs), j)
    {
      affected := 0;
      if j in jobs && jobs[j].state in {Queued, Failed} {
        jobs, affected := jobs[j := jobs[j].(state := Processing, attempts := jobs[j].attempts + 1)], 1;
      }
    }

    method CompleteJob(j: Uuid) returns (affected: nat)
      modifies `jobs
      ensures affected == if T.Completable(old(jobs), j) then 1 else 0
      ensures jobs == T.CompleteJob(old(jobs), j)
    {
      affected := 0;
      if j in jobs && jobs[j].state in {Queued, Processing, Succeeded} {
        jobs, affected := jobs[j := jobs[j].(state := Succeeded)], 1;
      }
    }

    method FailJob(j: Uuid) returns (affected: nat)
      modifies `jobs
      ensures affected == if j in old(jobs) && old(jobs)[j].state in {Queued, Processing} then 1 else 0
      ensures jobs == T.FailJob(old(jobs), j)
    {
      affected := 0;
      if j in jobs && jobs[j].state in {Queued, Processing} {
        jobs, affected := jobs[j := jobs[j].(state := Failed)], 1;
      }
    }

    method CreateOutboxEvent(e: Uuid, row: OutboxEvent) returns (ok: bool)
      modifies `outbox
      ensures ok <==> e !in old(outbox)
      ensures outbox == if ok then old(outbox)[e := row] else old(outbox)
    {
      ok := e !in outbox;
      if ok {
        outbox := outbox[e := row];
      }
    }

    method MarkOutboxPublished(e: Uuid, token: Uuid) returns (affected: nat)
      modifies `outbox
      ensures affected == if T.Leased(old(Snapshot()), e, token) then 1 else 0
      ensures outbox == if affected == 1 then old(outbox)[e := old(outbox)[e].(published := true)] else old(outbox)
    {
      affected := 0;
      if e in outbox && outbox[e].lock == Some(token) && !outbox[e].published {
        outbox, affected := outbox[e := outbox[e].(published := true)], 1;
      }
    }

    method RescheduleOutboxEvent(e: Uuid, token: Uuid)
      modifies `outbox
      ensures outbox == T.Reschedule(old(Snapshot()), e, token).outbox
    {
      if e in outbox && outbox[e].lock == Some(token) && !outbox[e].published {
        outbox := outbox[e := outbox[e].(attempts := outbox[e].attempts + 1, lock := None)];
      }
    }

    method DeadLetterOutboxEvent(e: Uuid, token: Uuid)
      modifies `outbox
      ensures outbox == T.DeadLetter(old(Snapshot()), e, token).outbox
    {
      if e in outbox && outbox[e].lock == Some(token) && !outbox[e].published {
        outbox := outbox[e := outbox[e].(attempts := outbox[e].attempts + 1, lock := None, deadLettered := true)];
      }
    }

    method RegisterInboxEvent(e: Uuid) returns (inserted: bool)
      modifies `inbox
      ensures inserted <==> e !in old(inbox)
      ensures inbox == if inserted then old(inbox)[e := false] else old(inbox)
    {
      inserted := e !in inbox;
      if inserted {
        inbox := inbox[e := false];
      }
    }

    method CompleteInboxEvent(e: Uuid)
      modifies `inbox
      ensures inbox == if e in old(inbox) then old(inbox)[e := true] else old(inbox)
    {
      if e in inbox {
        inbox := inbox[e := true];
      }
    }

    /** DELETE FROM chunks WHERE document_id AND document_version */
    method ReplaceChunks(d: Uuid, v: nat)
      modifies `chunks
      ensures chunks == T.ReplaceChunks(old(chunks), d, v, [])
    {
      chunks := map k | k in chunks && !(k.document == d && k.version == v) :: chunks[k];
    }

    method CreateChunk(k: ChunkKey, text: string) returns (ok: bool)
      modifies `chunks
      ensures ok <==> k !in old(chunks)
      ensures chunks == if ok then old(chunks)[k := text] else old(chunks)
    {
      ok := k !in chunks;
      if ok {
        chunks := chunks[k := text];
      }
    }

    // ----- maintenance.sql; which rows are old enough is up to the clock -----

    method HardDeleteCleanedDocuments(aged: set<Uuid>) returns (gone: set<Uuid>)
      modifies this
      ensures gone == set d | d in aged && T.HardDeletable(old(Snapshot()), d)
      ensures Snapshot() == T.RemoveDocuments(old(Snapshot()), gone)
    {
      gone := set d | d in aged && T.HardDeletable(Snapshot(), d);
      Restore(T.RemoveDocuments(Snapshot(), gone));
    }

    /** NOT EXISTS a document of the account without a finished cleanup. */
    method HardDeleteWithdrawnAccount(a: Uuid) returns (affected: nat)
      modifies this
      ensures affected == if T.AccountHardDeletable(old(Snapshot()), a) then 1 else 0
      ensures Snapshot() == if affected == 1 then T.RemoveAccount(old(Snapshot()), a) else old(Snapshot())
    {
      affected := 0;
      if a !in accounts || !accounts[a].deleted { return; }
      var todo := T.OwnedDocuments(documents, a);
      while todo != {}
        invariant todo <= T.OwnedDocuments(documents, a)
        invariant forall d :: d in T.OwnedDocuments(documents, a) && d !in todo ==> T.Cleaned(Snapshot(), d)
        invariant Snapshot() == old(Snapshot())
        decreases |todo|
      {
        var d: Uuid :| d in todo;
        if d !in cleanup || cleanup[d].state != Succeeded { return; }
        todo := todo - {d};
      }
      Restore(T.RemoveAccount(Snapshot(), a));
      affected := 1;
    }

    // ----- claims: UPDATE ... WHERE id IN (SELECT ... LIMIT n FOR UPDATE SKIP LOCKED) RETURNING; `due` are the rows
    // whose time has come and that no other transaction has locked -----

    method ClaimOutboxEvents(token: Uuid, limit: nat, due: set<Uuid>) returns (picked: seq<Uuid>)
      modifies `outbox
      ensures Selected(picked, (set e | e in old(outbox) && e in due && T.Claimable(old(outbox)[e])), limit)
      ensures outbox == T.ClaimEvents(old(Snapshot()), token, Elements(picked)).outbox
    {
      picked := Select((set e | e in outbox && e in due && T.Claimable(outbox[e])), limit);
      var ids := Elements(picked);
      outbox := map e | e in outbox :: if e in ids then outbox[e].(lock := Some(token)) else outbox[e];
    }

    method ClaimEnrichmentJobs(limit: nat, due: set<Uuid>) returns (picked: seq<Uuid>)
      modifies `jobs
      ensures Selected(picked, (set j | j in old(jobs) && j in due && T.ClaimableJob(old(jobs)[j])), limit)
      ensures jobs == T.ClaimJobs(old(jobs), Elements(picked))
    {
      picked := Select((set j | j in jobs && j in due && T.ClaimableJob(jobs[j])), limit);
      var ids := Elements(picked);
      jobs := map j | j in jobs ::
        if j in ids then jobs[j].(state := Processing, attempts := jobs[j].attempts + 1) else jobs[j];
    }

    method ClaimArtifactCleanupJobs(limit: nat, due: set<Uuid>) returns (picked: seq<Uuid>)
      modifies `cleanup
      ensures Selected(picked, (set d | d in old(cleanup) && d in due && T.ClaimableCleanup(old(cleanup)[d])), limit)
      ensures cleanup == T.ClaimCleanup(old(cleanup), Elements(picked))
    {
      picked := Select((set d | d in cleanup && d in due && T.ClaimableCleanup(cleanup[d])), limit);
      var ids := Elements(picked);
      cleanup := map d | d in cleanup ::
        if d in ids then CleanupJob(Processing, cleanup[d].attempts + 1) else cleanup[d];
    }

    /** The raw and the content key of every version row, in no particular order, each with the type of
        the document; NULL is left out. */
    method ListDocumentArtifactKeys(d: Uuid) returns (rows: seq<(DocumentKind, string)>)
      ensures forall row :: row in rows ==>
                && d in documents && row.0 == documents[d].kind && row.1 != ""
                && exists k :: k in versions && k.document == d && (row.1 == versions[k].rawKey || row.1 == versions[k].contentKey)
      ensures forall k :: k in versions && k.document == d && d in documents ==>
                && (versions[k].rawKey != "" ==> (documents[d].kind, versions[k].rawKey) in rows)
                && (versions[k].contentKey != "" ==> (documents[d].kind, versions[k].contentKey) in rows)
    {
      rows := [];
      if d !in documents { return; }
      var kind := documents[d].kind;
      var todo := versions.Keys;
      while todo != {}
        invariant todo <= versions.Keys
        invariant forall row :: row in rows ==>
                    && row.0 == kind && row.1 != ""
                    && exists k :: k in versions && k.document == d && (row.1 == versions[k].rawKey || row.1 == versions[k].contentKey)
        invariant forall k :: k in versions && k !in todo && k.document == d ==>
                    && (versions[k].rawKey != "" ==> (kind, versions[k].rawKey) in rows)
                    && (versions[k].contentKey != "" ==> (kind, versions[k].contentKey) in rows)
        decreases |todo|
      {
        var k: VersionKey :| k in todo;
        if k.document == d && versions[k].rawKey != "" {
          rows := rows + [(kind, versions[k].rawKey)];
        }
        if k.document == d && versions[k].contentKey != "" {
          rows := rows + [(kind, versions[k].contentKey)];
        }
        todo := todo - {k};
      }
    }
  }

  /** As many of them as the limit allows, each once. */
  ghost predicate Selected(picked: seq<Uuid>, ids: set<Uuid>, limit: nat) {
    && Distinct(picked) && |picked| == (if |ids| < limit then |ids| else limit)
    && forall i :: 0 <= i < |picked| ==> picked[i] in ids
  }

  method Select(ids: set<Uuid>, limit: nat) returns (picked: seq<Uuid>)
    ensures Selected(picked, ids, limit)
  {
    picked := [];
    var todo := ids;
    while todo != {} && |picked| < limit
      invariant todo <= ids && |picked| <= limit && Distinct(picked) && |picked| + |todo| == |ids|
      invariant forall i :: 0 <= i < |picked| ==> picked[i] in ids && picked[i] !in todo
      decreases |todo|
    {
      var id: Uuid :| id in todo;
      picked := picked + [id];
      todo := todo - {id};
    }
  }
}
