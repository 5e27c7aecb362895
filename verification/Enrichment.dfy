/** The enrichment worker of internal/enrichment/processor.go, statement by statement. */
module Enrichment {
  import opened Schema
  import opened Tables
  import opened Protocol
  import T = Transactions
  import Chunker
  import Text
  import Effects

  /** How the commit of a transaction ends: it has happened and says so, it has happened but its reply is
      lost, or it has not happened. The caller sees an error in both of the last cases. */
  datatype Outcome = Confirmed | Lost | Aborted

  /** What the artifact extractor, the AI provider and the database answer for a job; None is an error. */
  datatype Reply = Reply(extracted: Option<string>, summary: Option<string>, outcome: Outcome)

  /** The text of the rows, before the extractor is asked. */
  function StoredContent(version: Version, document: Document): string {
    if version.content != "" then version.content else document.content
  }

  /** The text to enrich, if there is one and nobody fails. */
  function ContentToEnrich(version: Version, document: Document, reply: Reply): Option<string> {
    if Text.Trim(StoredContent(version, document)) == "" && reply.extracted.None? then None
    else
      var content := T.EnrichContent(version, document, reply.extracted.GetOr(""));
      if Text.Trim(content) == "" || reply.summary.None? then None else Some(content)
  }

  function CompletedJob(db: Db, j: Uuid): Db { db.(jobs := T.CompleteJob(db.jobs, j)) }

  /** What process is about to commit when nothing comes between its statements; None is an error. */
  function Processed(db: Db, job: ClaimedJob, reply: Reply): Option<Db> {
    var k := VersionKey(job.document, job.version);
    if k !in db.versions then None
    else
      var found := FindLive(db, job.document);
      if found.None? || found.value.currentVersion != job.version then Some(CompletedJob(db, job.id))
      else if ContentToEnrich(db.versions[k], found.value, reply).None? then None
      else T.CommitEnrichment(db, job, db.versions[k], found.value, reply.extracted.GetOr(""), reply.summary.value)
  }

  /** A job that fails is marked so, and its document is rejected. */
  function Rejected(db: Db, job: ClaimedJob): Db {
    var failed := db.(jobs := T.FailJob(db.jobs, job.id));
    failed.(documents := T.RejectEnrichment(failed, job.document, job.version))
  }

  /** What is there afterwards, whether or not process was told so. */
  function Committed(before: Db, after: Option<Db>, outcome: Outcome): Db {
    if after.Some? && !outcome.Aborted? then after.value else before
  }

  function Attempted(db: Db, job: ClaimedJob, reply: Reply): Db {
    var after := Processed(db, job, reply);
    var committed := Committed(db, after, reply.outcome);
    if after.Some? && reply.outcome.Confirmed? then committed else Rejected(committed, job)
  }

  function AllAttempted(db: Db, batch: seq<ClaimedJob>, replies: seq<Reply>): Db
    requires |batch| <= |replies|
  {
    if batch == [] then db
    else
      var n := |batch| - 1;
      Attempted(AllAttempted(db, batch[..n], replies), batch[n], replies[n])
  }

  /** The content is saved if it has to be, and the document may be marked as being enriched. */
  ghost predicate Saved(before: Db, after: Db, job: ClaimedJob, save: bool, content: string) {
    var k := VersionKey(job.document, job.version);
    && (save ==> k in before.versions)
    && after == before.(
       versions := if save then before.versions[k := before.versions[k].(content := content)] else before.versions,
       documents := after.documents)
    && after.documents.Keys == before.documents.Keys
    && (forall d :: d in before.documents && d != job.document ==> after.documents[d] == before.documents[d])
    && (job.document in before.documents ==>
          var document := before.documents[job.document];
          after.documents[job.document] ==
          document.(content := if save then content else document.content, status := after.documents[job.document].status))
  }

  class Processor {
    const db: Database

    constructor (db: Database)
      ensures this.db == db
    {
      this.db := db;
    }

    method StoreChunks(d: Uuid, v: nat, texts: seq<string>)
      modifies db`chunks
      ensures db.chunks == T.ReplaceChunks(old(db.chunks), d, v, texts)
    {
      db.ReplaceChunks(d, v);
      for i := 0 to |texts|
        invariant db.chunks == T.ReplaceChunks(old(db.chunks), d, v, texts[..i])
      {
        OneMoreChunk(old(db.chunks), d, v, texts, i);
        var ok := db.CreateChunk(ChunkKey(d, v, i), texts[i]);
      }
      assert texts[..|texts|] == texts;
    }

    /** The updates after the chunks; each must affect one row. */
    method CompleteRows(job: ClaimedJob, summary: string) returns (ok: bool)
      modifies db
      ensures var before, k := old(db.Snapshot()), VersionKey(job.document, job.version);
              && (ok <==> k in before.versions && before.Current(job.document, job.version) && T.Completable(before.jobs, job.id))
              && (ok ==>
                    db.Snapshot() == before.(
                    versions := before.versions[k := before.versions[k].(summary := summary)],
                    documents := before.documents[
                    job.document := before.documents[job.document].(summary := summary, status := Completed)],
                    jobs := T.CompleteJob(before.jobs, job.id)))
    {
      var affected := db.CompleteEnrichedVersion(VersionKey(job.document, job.version), summary);
      if affected != 1 { return false; }
      affected := db.CompleteEnrichment(job.document, job.version, summary);
      if affected != 1 { return false; }
      affected := db.CompleteJob(job.id);
      ok := affected == 1;
    }

    /** The status mark and, unless the version row read held it already, the content. */
    method SaveContent(job: ClaimedJob, version: Version, content: string) returns (ok: bool)
      modifies db
      ensures var before, k := old(db.Snapshot()), VersionKey(job.document, job.version);
              && (ok <==> version.content == content || (k in before.versions && before.Current(job.document, job.version)))
              && (ok ==> Saved(before, db.Snapshot(), job, version.content != content, content))
    {
      var marked := db.MarkDocumentEnrichProcessing(job.document, job.version);
      ok := true;
      if version.content != content {
        var affected := db.SaveExtractedContent(VersionKey(job.document, job.version), content);
        ok := affected == 1;
      }
    }

    /** The transaction of process. */
    method Commit(job: ClaimedJob, version: Version, document: Document, extracted: string, summary: string,
                  outcome: Outcome) returns (ok: bool)
      requires Text.Trim(T.EnrichContent(version, document, extracted)) != ""
      modifies db
      ensures var after := T.CommitEnrichment(old(db.Snapshot()), job, version, document, extracted, summary);
              && (ok <==> after.Some? && outcome.Confirmed?)
              && db.Snapshot() == Committed(old(db.Snapshot()), after, outcome)
    {
      var before := db.Snapshot();
      var content := T.EnrichContent(version, document, extracted);
      var texts := Chunker.ChunkText(content);
      ok := SaveContent(job, version, content);
      if ok {
        ghost var saved := db.Snapshot();
        GuardsKept(before, saved, job, version, content);
        StoreChunks(job.document, job.version, texts);
        ok := CompleteRows(job, summary);
        if ok {
          RowsWritten(before, saved, job, version, document, extracted, summary);
        }
      }
      if !ok || outcome.Aborted? {
        db.Restore(before);
      }
      ok := ok && outcome.Confirmed?;
    }

    method Process(job: ClaimedJob, reply: Reply) returns (ok: bool)
      modifies db
      ensures var after := Processed(old(db.Snapshot()), job, reply);
              && (ok <==> after.Some? && reply.outcome.Confirmed?)
              && db.Snapshot() == Committed(old(db.Snapshot()), after, reply.outcome)
    {
      var version := db.GetDocumentVersion(VersionKey(job.document, job.version));
      if version.None? { return false; }
      var document := db.GetDocumentByID(job.document);
      if document.None? || document.value.currentVersion != job.version {
        if !reply.outcome.Aborted? {
          var affected := db.CompleteJob(job.id);
        }
        return reply.outcome.Confirmed?;
      }
      var content := ContentToEnrich(version.value, document.value, reply);
      if content.None? { return false; }
      ok := Commit(job, version.value, document.value, reply.extracted.GetOr(""), reply.summary.value, reply.outcome);
    }

    /** The body of the loop of ProcessBatch. */
    method Attempt(job: ClaimedJob, reply: Reply)
      modifies db
      ensures db.Snapshot() == Attempted(old(db.Snapshot()), job, reply)
    {
      var ok := Process(job, reply);
      if !ok {
        var _ := db.FailJob(job.id);
        var _ := db.RejectEnrichment(job.document, job.version);
      }
    }

    method ProcessBatch(limit: nat, due: set<Uuid>, replies: seq<Reply>) returns (picked: seq<Uuid>)
      requires |replies| == limit
      modifies db
      ensures Selected(picked, (set j | j in old(db.jobs) && j in due && T.ClaimableJob(old(db.jobs)[j])), limit)
      ensures db.Snapshot() == AllAttempted(old(db.Snapshot()).(jobs := T.ClaimJobs(old(db.jobs), Elements(picked))),
                                            ClaimedJobs(old(db.jobs), picked), replies)
    {
      var jobs := db.jobs;
      picked := db.ClaimEnrichmentJobs(limit, due);
      var batch := ClaimedJobs(jobs, picked);
      ghost var claimed := db.Snapshot();
      for n := 0 to |batch|
        invariant db.Snapshot() == AllAttempted(claimed, batch[..n], replies)
      {
        assert batch[..n + 1][..n] == batch[..n];
        Attempt(batch[n], replies[n]);
      }
      assert batch[..|batch|] == batch;
    }
  }

  // ----- what an attempt makes of its job -----

  /** The text of the version row, if it is not blank; that of the document row, if the version row has none;
      else what the extractor returns, if that is not blank. */
  predicate TextFrom(version: Version, document: Document, extracted: Option<string>, text: string) {
    || (Text.Trim(version.content) != "" && text == version.content)
    || (version.content == "" && Text.Trim(document.content) != "" && text == document.content)
    || (Text.Trim(version.content) == "" && (version.content == "" ==> Text.Trim(document.content) == "")
        && extracted == Some(text) && Text.Trim(text) != "")
  }

  /** The version of the job is the one that its live document shows. */
  predicate IsShown(db: Db, job: ClaimedJob) {
    && VersionKey(job.document, job.version) in db.versions
    && job.document in db.documents && !db.documents[job.document].deleted
    && db.documents[job.document].currentVersion == job.version
  }

  predicate IsOpen(db: Db, job: ClaimedJob) {
    job.id in db.jobs && db.jobs[job.id].state in {Queued, Processing, Succeeded}
  }

  predicate HasText(db: Db, job: ClaimedJob, reply: Reply)
    requires IsShown(db, job)
  {
    var version, document := db.versions[VersionKey(job.document, job.version)], db.documents[job.document];
    || Text.Trim(version.content) != ""
    || (version.content == "" && Text.Trim(document.content) != "")
    || (reply.extracted.Some? && Text.Trim(reply.extracted.value) != "")
  }

  /** The version row ends with the text and the summary, and so does the document, which is completed; the
      chunks of the version are those of the text, and the job has succeeded. */
  ghost predicate EnrichedWith(db: Db, job: ClaimedJob, text: string, summary: string, t: Db)
    requires IsShown(db, job) && IsOpen(db, job)
  {
    var d, k := job.document, VersionKey(job.document, job.version);
    var version, document, texts := db.versions[k], db.documents[d], Chunker.Chunks(text);
    && t.versions == db.versions[k := Version(version.rawKey, version.contentKey, text, summary)]
    && t.documents == db.documents[d := document.(content := if version.content == text then document.content else text,
                                                  summary := summary, status := Completed)]
    && t.jobs == db.jobs[job.id := Job(db.jobs[job.id].key, Succeeded, db.jobs[job.id].attempts)]
    && (forall i :: 0 <= i < |texts| ==> ChunkKey(d, job.version, i) in t.chunks && t.chunks[ChunkKey(d, job.version, i)] == texts[i])
    && (forall i: nat :: i >= |texts| ==> ChunkKey(d, job.version, i) !in t.chunks)
    && (forall x: ChunkKey :: x.document != d || x.version != job.version ==>
          (x in t.chunks <==> x in db.chunks) && (x in db.chunks ==> t.chunks[x] == db.chunks[x]))
    && t == db.(versions := t.versions, documents := t.documents, jobs := t.jobs, chunks := t.chunks)
  }

  /** The job has failed, if it was not finished, and its document is rejected, if it is shown. */
  ghost predicate FailedAndRejected(db: Db, job: ClaimedJob, t: Db) {
    var d := job.document;
    && t == db.(jobs := t.jobs, documents := t.documents)
    && t.jobs == (if job.id in db.jobs && db.jobs[job.id].state in {Queued, Processing}
                  then db.jobs[job.id := Job(db.jobs[job.id].key, Failed, db.jobs[job.id].attempts)] else db.jobs)
    && t.documents == (if d in db.documents && !db.documents[d].deleted && db.documents[d].currentVersion == job.version
                       then db.documents[d := db.documents[d].(status := EnrichRejected)] else db.documents)
  }

  lemma TextIsEnriched(version: Version, document: Document, reply: Reply, text: string)
    requires TextFrom(version, document, reply.extracted, text)
    ensures T.EnrichContent(version, document, reply.extracted.GetOr("")) == text && Text.Trim(text) != ""
    ensures ContentToEnrich(version, document, reply) == if reply.summary.Some? then Some(text) else None
  {
    assert Text.Trim("") == "";
  }

  lemma TransactionEnriches(db: Db, job: ClaimedJob, version: Version, document: Document, extracted: string,
                            text: string, summary: string)
    requires IsShown(db, job) && IsOpen(db, job)
    requires db.versions[VersionKey(job.document, job.version)] == version && db.documents[job.document] == document
    requires T.EnrichContent(version, document, extracted) == text && Text.Trim(text) != ""
    ensures var after := T.CommitEnrichment(db, job, version, document, extracted, summary);
            after.Some? && EnrichedWith(db, job, text, summary, after.value)
  {
    Effects.ChunksAreReplaced(db.chunks, job.document, job.version, Chunker.Chunks(text));
  }

  /** An attempt that gets its answers enriches the text. If the commit is not confirmed, the rows stay so and
      the document is rejected all the same. */
  lemma AttemptEnriches(db: Db, job: ClaimedJob, reply: Reply, text: string)
    requires IsShown(db, job) && IsOpen(db, job) && reply.summary.Some? && !reply.outcome.Aborted?
    requires TextFrom(db.versions[VersionKey(job.document, job.version)], db.documents[job.document], reply.extracted, text)
    ensures exists u :: EnrichedWith(db, job, text, reply.summary.value, u)
                        && if reply.outcome.Confirmed? then Attempted(db, job, reply) == u
                           else FailedAndRejected(u, job, Attempted(db, job, reply))
  {
    ProcessEnriches(db, job, reply, text);
    AttemptAfter(db, job, reply, Processed(db, job, reply).value);
  }

  lemma ProcessEnriches(db: Db, job: ClaimedJob, reply: Reply, text: string)
    requires IsShown(db, job) && IsOpen(db, job) && reply.summary.Some?
    requires TextFrom(db.versions[VersionKey(job.document, job.version)], db.documents[job.document], reply.extracted, text)
    ensures var after := Processed(db, job, reply);
            after.Some? && EnrichedWith(db, job, text, reply.summary.value, after.value)
  {
    var version, document := db.versions[VersionKey(job.document, job.version)], db.documents[job.document];
    TextIsEnriched(version, document, reply, text);
    TransactionEnriches(db, job, version, document, reply.extracted.GetOr(""), text, reply.summary.value);
  }

  /** What is committed stays; without a confirmation the job is handled as failed on top of that. */
  lemma AttemptAfter(db: Db, job: ClaimedJob, reply: Reply, u: Db)
    requires Processed(db, job, reply) == Some(u) && !reply.outcome.Aborted?
    ensures if reply.outcome.Confirmed? then Attempted(db, job, reply) == u
            else FailedAndRejected(u, job, Attempted(db, job, reply))
  {
  }

  /** Without a text, a summary, an open job or a commit, nothing is written but the failure. */
  lemma AttemptFails(db: Db, job: ClaimedJob, reply: Reply)
    requires IsShown(db, job)
    requires !HasText(db, job, reply) || reply.summary.None? || !IsOpen(db, job) || reply.outcome.Aborted?
    ensures FailedAndRejected(db, job, Attempted(db, job, reply))
  {
    assert Text.Trim("") == "";
  }

  /** One of the two is the case. */
  lemma TextExists(db: Db, job: ClaimedJob, reply: Reply)
    requires IsShown(db, job)
    ensures HasText(db, job, reply) <==>
            exists text :: TextFrom(db.versions[VersionKey(job.document, job.version)], db.documents[job.document],
                                    reply.extracted, text)
  {
    var version, document := db.versions[VersionKey(job.document, job.version)], db.documents[job.document];
    if Text.Trim(version.content) != "" {
      assert TextFrom(version, document, reply.extracted, version.content);
    } else if version.content == "" && Text.Trim(document.content) != "" {
      assert TextFrom(version, document, reply.extracted, document.content);
    } else if HasText(db, job, reply) {
      assert TextFrom(version, document, reply.extracted, reply.extracted.value);
    }
  }

  lemma AttemptWithoutVersion(db: Db, job: ClaimedJob, reply: Reply)
    requires VersionKey(job.document, job.version) !in db.versions
    ensures FailedAndRejected(db, job, Attempted(db, job, reply))
  {
  }

  /** A job whose version is not shown any more is completed, unless that is not committed, and no document
      changes. */
  lemma AttemptIsOutdated(db: Db, job: ClaimedJob, reply: Reply)
    requires !IsShown(db, job) && VersionKey(job.document, job.version) in db.versions
    ensures Attempted(db, job, reply) == db.(jobs :=
              if job.id !in db.jobs then db.jobs
              else
                var row := db.jobs[job.id];
                if row.state in {Queued, Processing}
                then db.jobs[job.id := Job(row.key, if reply.outcome.Aborted? then Failed else Succeeded, row.attempts)]
                else db.jobs)
  {
    Effects.JobIsCompleted(db.jobs, job.id);
    Effects.JobIsCompleted(T.CompleteJob(db.jobs, job.id), job.id);
    if reply.outcome.Aborted? {
      NothingToReject(db, job, T.FailJob(db.jobs, job.id));
    } else {
      SucceededStays(db.jobs, job.id);
      NothingToReject(db, job, T.FailJob(T.CompleteJob(db.jobs, job.id), job.id));
    }
  }

  lemma NothingToReject(db: Db, job: ClaimedJob, jobs: map<Uuid, Job>)
    requires !IsShown(db, job) && VersionKey(job.document, job.version) in db.versions
    ensures T.RejectEnrichment(db.(jobs := jobs), job.document, job.version) == db.documents
  {
  }

  lemma SucceededStays(jobs: map<Uuid, Job>, j: Uuid)
    ensures T.FailJob(T.CompleteJob(jobs, j), j) == T.CompleteJob(jobs, j)
    ensures j in jobs && jobs[j].state == Succeeded ==> T.CompleteJob(jobs, j) == jobs
  {
  }

  // ----- batches -----

  /** Whatever the answers, a claimed job is not left in processing, and no other job changes. */
  lemma AttemptSettles(db: Db, job: ClaimedJob, reply: Reply)
    requires job.id in db.jobs && db.jobs[job.id].state == Processing
    ensures var jobs := Attempted(db, job, reply).jobs;
            && jobs.Keys == db.jobs.Keys && jobs - {job.id} == db.jobs - {job.id}
            && jobs[job.id].state in {Succeeded, Failed}
  {
    if !IsShown(db, job) {
      if VersionKey(job.document, job.version) in db.versions {
        AttemptIsOutdated(db, job, reply);
      } else {
        AttemptWithoutVersion(db, job, reply);
      }
    } else if HasText(db, job, reply) && reply.summary.Some? && !reply.outcome.Aborted? {
      EnrichedSettles(db, job, reply);
    } else {
      AttemptFails(db, job, reply);
    }
  }

  lemma EnrichedSettles(db: Db, job: ClaimedJob, reply: Reply)
    requires job.id in db.jobs && db.jobs[job.id].state == Processing
    requires IsShown(db, job) && HasText(db, job, reply) && reply.summary.Some? && !reply.outcome.Aborted?
    ensures Attempted(db, job, reply).jobs == db.jobs[job.id := Job(db.jobs[job.id].key, Succeeded, db.jobs[job.id].attempts)]
  {
    TextExists(db, job, reply);
    var text :| TextFrom(db.versions[VersionKey(job.document, job.version)], db.documents[job.document],
                         reply.extracted, text);
    ProcessEnriches(db, job, reply, text);
    AttemptAfter(db, job, reply, Processed(db, job, reply).value);
  }

  lemma {:induction false} BatchSettles(db: Db, batch: seq<ClaimedJob>, replies: seq<Reply>)
    requires |batch| <= |replies|
    requires forall i, j :: 0 <= i < j < |batch| ==> batch[i].id != batch[j].id
    requires forall i :: 0 <= i < |batch| ==> batch[i].id in db.jobs && db.jobs[batch[i].id].state == Processing
    ensures SettledUpTo(db.jobs, AllAttempted(db, batch, replies).jobs, batch, |batch|)
  {
    if batch != [] {
      var n := |batch| - 1;
      BatchSettles(db, batch[..n], replies);
      OneMoreAttempted(db, AllAttempted(db, batch[..n], replies), batch, n, replies[n]);
    }
  }

  ghost predicate SettledUpTo(jobs: map<Uuid, Job>, after: map<Uuid, Job>, batch: seq<ClaimedJob>, n: nat)
    requires n <= |batch|
  {
    && after.Keys == jobs.Keys
    && (forall i :: 0 <= i < n && batch[i].id in jobs ==> after[batch[i].id].state in {Succeeded, Failed})
    && (forall j :: j in jobs && (forall i :: 0 <= i < n ==> batch[i].id != j) ==> after[j] == jobs[j])
  }

  lemma OneMoreAttempted(db: Db, before: Db, batch: seq<ClaimedJob>, n: nat, reply: Reply)
    requires |batch| == n + 1 && SettledUpTo(db.jobs, before.jobs, batch[..n], n)
    requires forall i :: 0 <= i < n ==> batch[i].id != batch[n].id
    requires batch[n].id in db.jobs && db.jobs[batch[n].id].state == Processing
    ensures SettledUpTo(db.jobs, Attempted(before, batch[n], reply).jobs, batch, n + 1)
  {
    assert before.jobs[batch[n].id] == db.jobs[batch[n].id];
    AttemptSettles(before, batch[n], reply);
    OneMoreSettles(db.jobs, before.jobs, Attempted(before, batch[n], reply).jobs, batch, n);
  }

  lemma OneMoreSettles(jobs: map<Uuid, Job>, before: map<Uuid, Job>, after: map<Uuid, Job>, batch: seq<ClaimedJob>, n: nat)
    requires n < |batch| && SettledUpTo(jobs, before, batch, n) && batch[n].id in jobs
    requires after.Keys == before.Keys && after - {batch[n].id} == before - {batch[n].id}
    requires after[batch[n].id].state in {Succeeded, Failed}
    ensures SettledUpTo(jobs, after, batch, n + 1)
  {
    forall j | j in jobs && j != batch[n].id ensures after[j] == before[j] {
      assert j in after - {batch[n].id};
    }
  }

  /** The jobs of a batch are attempted one after the other, each on what has been committed before. */
  lemma BatchInOrder(db: Db, batch: seq<ClaimedJob>, replies: seq<Reply>, n: nat)
    requires |batch| == n + 1 <= |replies|
    ensures AllAttempted(db, batch, replies) == Attempted(AllAttempted(db, batch[..n], replies), batch[n], replies[n])
    ensures AllAttempted(db, [], replies) == db
  {
  }

  lemma OneMoreChunk(chunks: map<ChunkKey, string>, d: Uuid, v: nat, texts: seq<string>, i: nat)
    requires i < |texts|
    ensures ChunkKey(d, v, i) !in T.ReplaceChunks(chunks, d, v, texts[..i])
    ensures T.ReplaceChunks(chunks, d, v, texts[..i])[ChunkKey(d, v, i) := texts[i]] == T.ReplaceChunks(chunks, d, v, texts[..i + 1])
  {
    var before, after := T.ReplaceChunks(chunks, d, v, texts[..i]), T.ReplaceChunks(chunks, d, v, texts[..i + 1]);
    forall k ensures k in after <==> k in before || k == ChunkKey(d, v, i) {
    }
    forall k | k in before ensures after[k] == before[k] {
    }
  }

  lemma GuardsKept(before: Db, saved: Db, job: ClaimedJob, version: Version, content: string)
    requires Saved(before, saved, job, version.content != content, content)
    ensures var k := VersionKey(job.document, job.version);
            && (k in saved.versions <==> k in before.versions)
            && (saved.Current(job.document, job.version) <==> before.Current(job.document, job.version))
            && saved.jobs == before.jobs && saved.chunks == before.chunks
  {
  }

  /** The mark in between is overwritten, and the rows come out as the transaction says. */
  lemma RowsWritten(before: Db, saved: Db, job: ClaimedJob, version: Version, document: Document, extracted: string, summary: string)
    requires var content := T.EnrichContent(version, document, extracted);
             Saved(before, saved, job, version.content != content, content) && T.CanCommit(before, job, content)
    ensures var k, content := VersionKey(job.document, job.version), T.EnrichContent(version, document, extracted);
            && k in saved.versions && job.document in saved.documents
            && T.CommitEnrichment(before, job, version, document, extracted, summary) ==
               Some(saved.(
                    versions := saved.versions[k := saved.versions[k].(summary := summary)],
                    documents := saved.documents[job.document := saved.documents[job.document].(summary := summary, status := Completed)],
                    chunks := T.ReplaceChunks(saved.chunks, job.document, job.version, Chunker.Chunks(content)),
                    jobs := T.CompleteJob(saved.jobs, job.id)))
  {
    var content := T.EnrichContent(version, document, extracted);
    var save := version.content != content;
    var k := VersionKey(job.document, job.version);
    var v, d := before.versions[k], before.documents[job.document];
    assert saved.versions[k := saved.versions[k].(summary := summary)]
        == before.versions[k := v.(content := if save then content else v.content, summary := summary)];
    assert saved.documents[job.document := saved.documents[job.document].(summary := summary, status := Completed)]
        == before.documents[job.document := d.(content := if save then content else d.content,
                                               summary := summary, status := Completed)];
  }
}
