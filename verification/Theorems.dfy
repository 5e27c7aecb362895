/** What the ingestion protocol guarantees, over every run: every interleaving of requests, crashes,
    resends, duplicated, reordered and late results, expired leases, deletions and refreshes. */
module Theorems {
  import opened Schema
  import opened Transactions
  import opened Protocol
  import opened Invariants
  import opened Runs
  import opened Progress
  import opened TakenBack
  import ProofsApi
  import ProofsConsume
  import ProofsDispatch
  import ProofsEnrich
  import Chunker

  // ----- results -----

  /** A result is applied at most once, and an inbox row is there, processed, exactly when it was. */
  lemma ResultAppliedOnce(states: seq<System>, steps: seq<Step>, n: nat, e: Uuid)
    requires IsRun(states, steps) && n < |states|
    ensures var s := states[n];
            && (e in s.requests ==> s.applied[s.requests[e].job] == if e in s.db.inbox then 1 else 0)
            && (e in s.db.inbox ==> s.db.inbox[e] && e in s.requests)
  {
    RunKeeps(states, steps, n);
  }

  /** Once a version has a result, no other result changes the artifacts its row names. */
  lemma FirstResultWins(states: seq<System>, steps: seq<Step>, i: nat, j: nat, k: VersionKey)
    requires IsRun(states, steps) && i <= j < |states|
    requires k in states[i].db.versions && k.document in states[j].db.documents && Received(states[i], k)
    ensures k in states[j].db.versions
    ensures states[j].db.versions[k].rawKey == states[i].db.versions[k].rawKey
    ensures states[j].db.versions[k].contentKey == states[i].db.versions[k].contentKey
  {
    ExactAt(states, steps, i);
    ExactAt(states, steps, j);
    RunMoves(states, steps, i, j);
    StillThere(states[i], states[j], k);
  }

  lemma StillThere(s: System, t: System, k: VersionKey)
    requires Exact(s) && Exact(t) && DocumentsMove(s, t)
    requires k in s.db.versions && k.document in t.db.documents
    ensures k in t.db.versions
  {
  }

  /** What the transaction of a result decides in a reachable state: the terminal check never decides,
      and neither an identifier nor a missing cleanup row ever rolls it back. */
  lemma VerdictOfResult(states: seq<System>, steps: seq<Step>, n: nat, job: Uuid)
    requires IsRun(states, steps) && n < |states|
    requires states[n].consumer.HasDocument? && job !in states[n].used
    ensures var s := states[n];
            var m, found := s.consumer.m, s.consumer.found;
            && m.version > 0
            && Judge(s.db, m, s.consumer.job, found, job) ==
               if m.eventId in s.db.inbox then Duplicate
               else if m.eventType == SCRAPE_FAILED then AppliedFailure
               else if m.content == "" || VersionKey(m.document, m.version) !in s.db.versions then RolledBack
               else if ReadAsCurrent(m, found) && (!s.db.Current(m.document, m.version) || m.fileSize < 0) then RolledBack
               else AppliedSuccess
  {
    RunKeeps(states, steps, n);
    VerdictIn(states[n], job);
  }

  lemma VerdictIn(s: System, job: Uuid)
    requires RowsOk(s) && ConsumerOk(s.consumer, s.db.documents, s.requests, s.db.inbox)
    requires s.consumer.HasDocument? && job !in s.used
    ensures var m, found := s.consumer.m, s.consumer.found;
            && m.version > 0
            && Judge(s.db, m, s.consumer.job, found, job) ==
               if m.eventId in s.db.inbox then Duplicate
               else if m.eventType == SCRAPE_FAILED then AppliedFailure
               else if m.content == "" || VersionKey(m.document, m.version) !in s.db.versions then RolledBack
               else if ReadAsCurrent(m, found) && (!s.db.Current(m.document, m.version) || m.fileSize < 0) then RolledBack
               else AppliedSuccess
  {
  }

  // ----- status -----

  /** Along a run the version of a document never goes down, and at one version the phase goes down in
      one case only: the document was completed, its commit reported an error all the same, and the
      loop took it back. No committed status is DRAFT or ENRICH_PROCESSING. */
  lemma NeverBackwards(states: seq<System>, steps: seq<Step>, i: nat, j: nat, d: Uuid)
    requires IsRun(states, steps) && i <= j < |states|
    requires d in states[i].db.documents && d in states[j].db.documents
    ensures var before, after := states[i].db.documents[d], states[j].db.documents[d];
            && before.currentVersion <= after.currentVersion
            && (before.currentVersion == after.currentVersion ==>
                  (Phase(after.status) < Phase(before.status) <==>
                   before.status == Completed && WasTakenBack(states, steps, i, j, d, before.currentVersion)))
            && after.status != Draft && after.status != EnrichProcessing
            && after.owner == before.owner && after.kind == before.kind && (before.deleted ==> after.deleted)
  {
    ExactAt(states, steps, i);
    RunMoves(states, steps, i, j);
    StatusCommitted(states, steps, j, d);
    assert DocumentMoves(states[i].db.documents[d], states[j].db.documents[d]);
    if states[i].db.documents[d].currentVersion == states[j].db.documents[d].currentVersion {
      FallenExactly(states, steps, i, j, d, states[i].db.documents[d].currentVersion);
    }
  }

  lemma StatusCommitted(states: seq<System>, steps: seq<Step>, n: nat, d: Uuid)
    requires IsRun(states, steps) && n < |states| && d in states[n].db.documents
    ensures states[n].db.documents[d].status != Draft && states[n].db.documents[d].status != EnrichProcessing
  {
    RunKeeps(states, steps, n);
  }

  /** A version whose applied result left it in the scrape phase stays there: only a refresh helps. */
  lemma RejectedForGood(states: seq<System>, steps: seq<Step>, i: nat, j: nat, d: Uuid)
    requires IsRun(states, steps) && i <= j < |states|
    requires d in states[i].db.documents && d in states[j].db.documents
    requires states[i].db.documents[d].currentVersion == states[j].db.documents[d].currentVersion
    requires Received(states[i], VersionKey(d, states[i].db.documents[d].currentVersion))
    requires Phase(states[i].db.documents[d].status) == 0
    ensures Phase(states[j].db.documents[d].status) == 0
  {
    ExactAt(states, steps, i);
    RunMoves(states, steps, i, j);
    assert DocumentMoves(states[i].db.documents[d], states[j].db.documents[d]);
  }

  /** A version has its result exactly when the event of its request is in the inbox. */
  lemma ReceivedByEvent(s: System, e: Uuid)
    requires RequestsPaired(s.requests, s.eventOf)
    requires ScrapesRequested(s.db.documents, s.db.jobIndex, s.requests, s.eventOf)
    requires e in s.requests && s.requests[e].document in s.db.documents
    ensures Received(s, VersionKey(s.requests[e].document, s.requests[e].version)) <==> e in s.db.inbox
  {
  }

  lemma MarkedDocument(documents: map<Uuid, Document>, d: Uuid, v: nat)
    requires d in documents && documents[d].currentVersion == v && documents[d].status != Draft
    ensures MarkDocumentProcessing(documents, d, v)[d].status == ScrapeProcessing <==> Phase(documents[d].status) == 0
  {
  }

  ghost predicate Marking(s: System, token: Uuid, d: Uuid) {
    && Busy(s, token, Delivered) && Leased(s.db, Head(s, token).id, token)
    && var e := Head(s, token).id;
       && e in s.requests && s.requests[e].document == d
       && d in s.db.documents && s.db.documents[d].currentVersion == s.requests[e].version
  }

  /** The publish mark shows a document as being scraped exactly when it is still in the scrape phase
      at that version, even if its failed result has been applied by then: with the event in the
      inbox the document is shown as being scraped until it is refreshed. */
  lemma LateMark(states: seq<System>, steps: seq<Step>, n: nat, token: Uuid, d: Uuid)
    requires IsRun(states, steps) && n < |steps| && steps[n] == Dispatch(token, Publish)
    requires Marking(states[n], token, d)
    ensures var s, t := states[n], states[n + 1];
            && d in t.db.documents
            && (t.db.documents[d].status == ScrapeProcessing <==> Phase(s.db.documents[d].status) == 0)
            && (Received(t, VersionKey(d, s.db.documents[d].currentVersion)) <==> Head(s, token).id in s.db.inbox)
  {
    RunStep(states, steps, n);
    MarkStep(states, steps, n, token, d);
  }

  lemma MarkStep(states: seq<System>, steps: seq<Step>, n: nat, token: Uuid, d: Uuid)
    requires IsRun(states, steps) && n < |states| && Marking(states[n], token, d)
    ensures var s := states[n];
            var t := DoPublish(s, token);
            && d in t.db.documents
            && (t.db.documents[d].status == ScrapeProcessing <==> Phase(s.db.documents[d].status) == 0)
            && (Received(t, VersionKey(d, s.db.documents[d].currentVersion)) <==> Head(s, token).id in s.db.inbox)
  {
    RunKeeps(states, steps, n);
    MarkedIn(states[n], token, d);
  }

  lemma MarkedIn(s: System, token: Uuid, d: Uuid)
    requires RequestsPaired(s.requests, s.eventOf)
    requires ScrapesRequested(s.db.documents, s.db.jobIndex, s.requests, s.eventOf)
    requires DispatchersOk(s.dispatchers, s.db.outbox, s.sent) && OutboxValid(s.db.outbox, s.requests)
    requires Marking(s, token, d) && s.db.documents[d].status != Draft
    ensures var t := DoPublish(s, token);
            && d in t.db.documents
            && (t.db.documents[d].status == ScrapeProcessing <==> Phase(s.db.documents[d].status) == 0)
            && (Received(t, VersionKey(d, s.db.documents[d].currentVersion)) <==> Head(s, token).id in s.db.inbox)
  {
    assert ClaimCurrent(token, Head(s, token), s.db.outbox);
    ReceivedByEvent(s, Head(s, token).id);
    MarkedDocument(s.db.documents, d, s.db.documents[d].currentVersion);
  }

  // ----- what a live document shows -----

  /** Content and summary of a live document are those of its current version row. */
  lemma DocumentShowsItsVersion(states: seq<System>, steps: seq<Step>, n: nat, d: Uuid)
    requires IsRun(states, steps) && n < |states| && states[n].db.Live(d)
    ensures var db := states[n].db;
            var k := VersionKey(d, db.documents[d].currentVersion);
            && k in db.versions && db.documents[d].content == db.versions[k].content
            && (db.documents[d].status == Completed ==> db.documents[d].summary == db.versions[k].summary)
  {
    RunKeeps(states, steps, n);
    assert Projected(states[n].db.documents, states[n].db.versions, d);
  }

  /** The chunks that the join of the vector search lets through for a document. */
  function Searchable(db: Db, d: Uuid): set<(nat, string)> {
    set k | k in db.chunks && k.document == d && db.Current(d, k.version) :: (k.index, db.chunks[k])
  }

  function Numbered(texts: seq<string>): set<(nat, string)> {
    set i | 0 <= i < |texts| :: (i, texts[i])
  }

  /** Search sees exactly the chunks of the content of a live document that is completed, or was at this
      version until it was taken back, and nothing of any other, whatever chunks its older versions left. */
  lemma SearchSeesTheContent(states: seq<System>, steps: seq<Step>, n: nat, d: Uuid)
    requires IsRun(states, steps) && n < |states|
    ensures var db := states[n].db;
            Searchable(db, d) ==
            if db.Live(d) && (db.documents[d].status == Completed
                              || WasTakenBack(states, steps, 0, n, d, db.documents[d].currentVersion))
            then Numbered(Chunker.Chunks(db.documents[d].content))
            else {}
  {
    RunKeeps(states, steps, n);
    SearchableIn(states[n].db, d);
    if states[n].db.Live(d) {
      DoneExactly(states, steps, n, d);
    }
  }

  lemma DoneExactly(states: seq<System>, steps: seq<Step>, n: nat, d: Uuid)
    requires IsRun(states, steps) && n < |states| && states[n].db.Live(d)
    ensures var document := states[n].db.documents[d];
            DoneAt(states[n].db, d) <==>
            document.status == Completed || WasTakenBack(states, steps, 0, n, d, document.currentVersion)
  {
    BackedAt(states, steps, n);
    TakenBackExactly(states, steps, n, d);
    if DoneAt(states[n].db, d) {
      StatusOfDone(states[n], d);
    }
  }

  lemma SearchableIn(db: Db, d: Uuid)
    requires IndexAgrees(db.documents, db.jobs, db.jobIndex, db.chunks)
    ensures Searchable(db, d) ==
            if db.Live(d) && DoneAt(db, d) then Numbered(Chunker.Chunks(db.documents[d].content)) else {}
  {
    if db.Live(d) {
      var document := db.documents[d];
      var texts := Chunker.Chunks(document.content);
      var done := DoneAt(db, d);
      forall i: nat
        ensures ChunkAt(db.chunks, ChunkKey(d, document.currentVersion, i)) == ExpectedChunk(done, document.content, i)
      {
        assert ShowsVersion(db.documents, d, document.currentVersion);
        var k := ChunkKey(d, document.currentVersion, i);
        assert ShowsVersion(db.documents, k.document, k.version);
      }
      forall x | x in Searchable(db, d) ensures done && x in Numbered(texts) {
        var k :| k in db.chunks && k.document == d && db.Current(d, k.version) && x == (k.index, db.chunks[k]);
        assert ChunkAt(db.chunks, k) == ExpectedChunk(done, document.content, k.index);
      }
      if done {
        forall x | x in Numbered(texts) ensures x in Searchable(db, d) {
          var k := ChunkKey(d, document.currentVersion, x.0);
          assert ChunkAt(db.chunks, k) == ExpectedChunk(done, document.content, x.0);
        }
      }
    }
  }

  // ----- the outbox -----

  /** No event is both published and dead-lettered, a published event was sent, at most ten failures
      are recorded and an event is dead-lettered exactly when the tenth is. */
  lemma OutboxIsSafe(states: seq<System>, steps: seq<Step>, n: nat, e: Uuid)
    requires IsRun(states, steps) && n < |states| && e in states[n].db.outbox
    ensures var row := states[n].db.outbox[e];
            && !(row.published && row.deadLettered) && (row.published ==> e in states[n].sent)
            && row.attempts <= LAST_ATTEMPT + 1 && (row.deadLettered <==> row.attempts == LAST_ATTEMPT + 1)
  {
    RunKeeps(states, steps, n);
    assert RowSafe(e, states[n].db.outbox[e], states[n].sent);
  }

  /** What has become of an event is final: one ever published is never dead-lettered, nor the other way. */
  lemma EndedOnce(states: seq<System>, steps: seq<Step>, i: nat, j: nat, e: Uuid)
    requires IsRun(states, steps) && i < |states| && j < |states|
    requires e in states[i].db.outbox && states[i].db.outbox[e].published
    ensures !(e in states[j].db.outbox && states[j].db.outbox[e].deadLettered)
  {
    var n := if i < j then j else i;
    RunMoves(states, steps, i, n);
    RunMoves(states, steps, j, n);
    OutboxIsSafe(states, steps, n, e);
  }

  /** While the token of a dispatcher is on a row, the attempts it read are the attempts stored. */
  lemma AttemptsReadAreCurrent(states: seq<System>, steps: seq<Step>, n: nat, token: Uuid, i: nat)
    requires IsRun(states, steps) && n < |states|
    requires token in states[n].dispatchers && i < |states[n].dispatchers[token].batch|
    ensures var db, c := states[n].db, states[n].dispatchers[token].batch[i];
            c.id in db.outbox && (db.outbox[c.id].lock == Some(token) ==> db.outbox[c.id].attempts == c.row.attempts)
  {
    RunKeeps(states, steps, n);
    assert DispatcherOk(token, states[n].dispatchers[token], states[n].db.outbox, states[n].sent);
    assert ClaimCurrent(token, states[n].dispatchers[token].batch[i], states[n].db.outbox);
  }

  /** Every outbox payload passes the dispatcher's check and, while its document exists, names the
      scrape job that the unique index holds for that document and version. */
  lemma PayloadNamesItsJob(states: seq<System>, steps: seq<Step>, n: nat, e: Uuid)
    requires IsRun(states, steps) && n < |states| && e in states[n].db.outbox
    ensures var db := states[n].db;
            var request := db.outbox[e].payload.data;
            && ValidRequest(e, db.outbox[e])
            && (request.document in db.documents ==>
                  && request.job in db.jobs
                  && db.jobs[request.job].key == JobKey(request.document, request.version, Scrape))
  {
    RunKeeps(states, steps, n);
  }

  // ----- deletion -----

  /** A document is deleted exactly when it has a cleanup job; a withdrawn account has no live document. */
  lemma DeletedHasCleanup(states: seq<System>, steps: seq<Step>, n: nat, d: Uuid)
    requires IsRun(states, steps) && n < |states|
    ensures var db := states[n].db;
            && (d in db.documents && db.documents[d].deleted <==> d in db.cleanup)
            && (db.Live(d) ==> db.ActiveAccount(db.documents[d].owner))
  {
    RunKeeps(states, steps, n);
  }

  /** The version rows of a document are exactly 1 to its current version. */
  lemma VersionsAreOneToCurrent(states: seq<System>, steps: seq<Step>, n: nat, k: VersionKey)
    requires IsRun(states, steps) && n < |states|
    ensures var db := states[n].db;
            k in db.versions <==> k.document in db.documents && 1 <= k.version <= db.documents[k.document].currentVersion
  {
    RunKeeps(states, steps, n);
  }

  // ----- jobs -----

  /** A job that has succeeded stays so, and attempts are never taken back. */
  lemma SucceededStays(states: seq<System>, steps: seq<Step>, i: nat, j: nat, job: Uuid)
    requires IsRun(states, steps) && i <= j < |states|
    requires job in states[i].db.jobs && job in states[j].db.jobs
    ensures JobMoves(states[i].db.jobs[job], states[j].db.jobs[job])
  {
    JobUsed(states, steps, i, job);
    RunMoves(states, steps, i, j);
  }

  lemma JobUsed(states: seq<System>, steps: seq<Step>, n: nat, job: Uuid)
    requires IsRun(states, steps) && n < |states| && job in states[n].db.jobs
    ensures job in states[n].used
  {
    RunKeeps(states, steps, n);
  }

  lemma {:induction false} SizeBounded(counts: multiset<Uuid>, ids: set<Uuid>, most: nat)
    requires forall x :: x in counts ==> x in ids
    requires forall x :: counts[x] <= most
    ensures |counts| <= most * |ids|
    decreases |ids|
  {
    if ids == {} {
      assert counts == multiset{};
    } else {
      var x :| x in ids;
      var rest := counts[x := 0];
      forall y ensures rest[y] <= most {
        assert counts[y] <= most;
      }
      SizeBounded(rest, ids - {x}, most);
      assert |counts| == |rest| + counts[x];
      assert most * |ids| == most * |ids - {x}| + most;
    }
  }

  /** However often workers crash, every enrichment job is claimed at most five times, so the claims of
      a whole run are at most five for every enrichment job ever created. */
  lemma ClaimsBounded(states: seq<System>, steps: seq<Step>, n: nat)
    requires IsRun(states, steps) && n < |states|
    ensures forall job :: states[n].claims[job] <= MAX_ENRICH_ATTEMPTS
    ensures |states[n].claims| <= MAX_ENRICH_ATTEMPTS * |states[n].enrichJobs|
  {
    RunKeeps(states, steps, n);
    SizeBounded(states[n].claims, states[n].enrichJobs, MAX_ENRICH_ATTEMPTS);
  }

  lemma ClaimableExactly(states: seq<System>, steps: seq<Step>, n: nat, job: Uuid)
    requires IsRun(states, steps) && n < |states|
    requires job in states[n].db.jobs && states[n].db.jobs[job].key.kind == Enrich
    ensures var row := states[n].db.jobs[job];
            !ClaimableJob(row) <==> row.state == Succeeded || states[n].claims[job] == MAX_ENRICH_ATTEMPTS
  {
    RunKeeps(states, steps, n);
    ClaimableIn(states[n].db.jobs, states[n].claims, states[n].enrichJobs, job);
  }

  lemma ClaimableIn(jobs: map<Uuid, Job>, claims: multiset<Uuid>, enrichJobs: set<Uuid>, job: Uuid)
    requires ClaimsCounted(jobs, claims, enrichJobs) && job in jobs && jobs[job].key.kind == Enrich
    ensures !ClaimableJob(jobs[job]) <==> jobs[job].state == Succeeded || claims[job] == MAX_ENRICH_ATTEMPTS
  {
  }

  predicate Unclaimable(s: System, job: Uuid) {
    job in s.db.jobs ==> s.db.jobs[job].key.kind == Enrich && !ClaimableJob(s.db.jobs[job])
  }

  lemma ClaimsStep(s: System, step: Step, t: System, job: Uuid)
    requires Next(s, step, t) && Unclaimable(s, job)
    ensures t.claims[job] == s.claims[job]
  {
    match step
    case Enriching(enrich) =>
    case Api(api) => ProofsApi.ApiLeaves(s, api, t);
    case Dispatch(token, dispatch) => DispatchClaims(s, token, dispatch, t);
    case _ =>
  }

  lemma DispatchClaims(s: System, token: Uuid, step: DispatchStep, t: System)
    requires DispatchNext(s, token, step, t)
    ensures t.claims == s.claims
  {
  }

  /** An enrichment job that cannot be claimed is never claimed again: it has succeeded or has been
      claimed five times, and both are final. */
  lemma {:induction false} NothingLeftToClaim(states: seq<System>, steps: seq<Step>, n: nat, m: nat, job: Uuid)
    requires IsRun(states, steps) && n <= m < |states|
    requires job in states[n].db.jobs && states[n].db.jobs[job].key.kind == Enrich
    ensures var row := states[n].db.jobs[job];
            !ClaimableJob(row) <==> row.state == Succeeded || states[n].claims[job] == MAX_ENRICH_ATTEMPTS
    ensures !ClaimableJob(states[n].db.jobs[job]) ==>
              Unclaimable(states[m], job) && states[m].claims[job] == states[n].claims[job]
    decreases m
  {
    ClaimableExactly(states, steps, n, job);
    if !ClaimableJob(states[n].db.jobs[job]) {
      StaysUnclaimable(states, steps, n, m, job);
      if n < m {
        NothingLeftToClaim(states, steps, n, m - 1, job);
        ClaimsAt(states, steps, m - 1, job);
      }
    }
  }

  lemma ClaimsAt(states: seq<System>, steps: seq<Step>, n: nat, job: Uuid)
    requires IsRun(states, steps) && n < |steps| && Unclaimable(states[n], job)
    ensures states[n + 1].claims[job] == states[n].claims[job]
  {
    RunStep(states, steps, n);
    ClaimsStep(states[n], steps[n], states[n + 1], job);
  }

  lemma StaysUnclaimable(states: seq<System>, steps: seq<Step>, n: nat, m: nat, job: Uuid)
    requires IsRun(states, steps) && n <= m < |states|
    requires job in states[n].db.jobs && states[n].db.jobs[job].key.kind == Enrich && !ClaimableJob(states[n].db.jobs[job])
    ensures Unclaimable(states[m], job)
  {
    if job in states[m].db.jobs {
      SucceededStays(states, steps, n, m, job);
      NoneCancelled(states, steps, n, job);
    }
  }

  lemma NoneCancelled(states: seq<System>, steps: seq<Step>, n: nat, job: Uuid)
    requires IsRun(states, steps) && n < |states| && job in states[n].db.jobs
    ensures states[n].db.jobs[job].state != Cancelled
  {
    RunKeeps(states, steps, n);
  }

  /** A live document in the enrichment phase has an enrichment job of its version, which has succeeded
      exactly when the document is completed or was until it was taken back. */
  lemma EnrichingHasJob(states: seq<System>, steps: seq<Step>, n: nat, d: Uuid)
    requires IsRun(states, steps) && n < |states| && states[n].db.Live(d)
    requires Phase(states[n].db.documents[d].status) >= 1
    ensures var db := states[n].db;
            var k := JobKey(d, db.documents[d].currentVersion, Enrich);
            && k in db.jobIndex && db.jobIndex[k] in db.jobs && db.jobs[db.jobIndex[k]].key == k
            && (db.jobs[db.jobIndex[k]].state == Succeeded <==>
                db.documents[d].status == Completed
                || WasTakenBack(states, steps, 0, n, d, db.documents[d].currentVersion))
  {
    RunKeeps(states, steps, n);
    DoneExactly(states, steps, n, d);
  }

  /** A version that was taken back stays rejected while it is shown: its job cannot be claimed, and
      search goes on to see it. */
  lemma TakenBackForGood(states: seq<System>, steps: seq<Step>, n: nat, d: Uuid)
    requires IsRun(states, steps) && n < |states| && states[n].db.Live(d)
    requires WasTakenBack(states, steps, 0, n, d, states[n].db.documents[d].currentVersion)
    ensures var db := states[n].db;
            var k := JobKey(d, db.documents[d].currentVersion, Enrich);
            && db.documents[d].status == EnrichRejected
            && k in db.jobIndex && db.jobIndex[k] in db.jobs && !ClaimableJob(db.jobs[db.jobIndex[k]])
            && Searchable(db, d) == Numbered(Chunker.Chunks(db.documents[d].content))
  {
    TakenBackExactly(states, steps, n, d);
    SearchSeesTheContent(states, steps, n, d);
  }
}
